/** Order-preserving removal of duplicates, as `list(dict.fromkeys(xs))`
    does in Python: the elements are visited in order and each is kept the
    first time it is seen. */
module Sequences {

  predicate Distinct<T(==)>(s: seq<T>) {
    forall i, j :: 0 <= i < j < |s| ==> s[i] != s[j]
  }

  /** The index of the first occurrence of `x` in `s`. */
  function FirstIndex<T(==)>(s: seq<T>, x: T): (k: nat)
    requires x in s
    ensures k < |s| && s[k] == x
    ensures forall j :: 0 <= j < k ==> s[j] != x
  {
    if s[0] == x then 0 else 1 + FirstIndex(s[1..], x)
  }

  /** Keeps each element at its first occurrence and drops the later ones. */
  function Dedup<T(==)>(s: seq<T>): (r: seq<T>)
    ensures Distinct(r)
    ensures forall i :: 0 <= i < |r| ==> r[i] in s
    ensures forall i :: 0 <= i < |s| ==> s[i] in r
    ensures |r| <= |s|
  {
    if s == [] then []
    else
      var init, last := s[..|s| - 1], s[|s| - 1];
      assert s == init + [last];
      var kept := Dedup(init);
      if last in init then kept else kept + [last]
  }

  /** Appending an element does not move the first occurrences of earlier ones. */
  lemma {:induction false} FirstIndexAppend<T>(s: seq<T>, y: T, x: T)
    requires x in s
    ensures FirstIndex(s + [y], x) == FirstIndex(s, x)
  {
    if s[0] != x {
      assert (s + [y])[1..] == s[1..] + [y];
      FirstIndexAppend(s[1..], y, x);
    }
  }

  /** A new last element occurs first at the end. */
  lemma FirstIndexOfNew<T>(s: seq<T>, y: T)
    requires y !in s
    ensures FirstIndex(s + [y], y) == |s|
  {
  }

  /** The elements of `r` occur in `s` in the order of their first occurrences. */
  ghost predicate InFirstOccurrenceOrder<T>(r: seq<T>, s: seq<T>) {
    forall i, j :: 0 <= i < j < |r| && r[i] in s && r[j] in s ==>
      FirstIndex(s, r[i]) < FirstIndex(s, r[j])
  }

  /** Appending to `s` keeps the order of elements already in it. */
  lemma OrderAfterAppend<T>(r: seq<T>, s: seq<T>, y: T)
    requires forall i :: 0 <= i < |r| ==> r[i] in s
    requires InFirstOccurrenceOrder(r, s)
    ensures InFirstOccurrenceOrder(r, s + [y])
  {
    forall i | 0 <= i < |r|
      ensures FirstIndex(s + [y], r[i]) == FirstIndex(s, r[i])
    {
      FirstIndexAppend(s, y, r[i]);
    }
  }

  /** An element new to `s`, appended to both, comes after all others. */
  lemma OrderAfterAppendNew<T>(r: seq<T>, s: seq<T>, y: T)
    requires forall i :: 0 <= i < |r| ==> r[i] in s
    requires InFirstOccurrenceOrder(r, s + [y]) && y !in s
    ensures InFirstOccurrenceOrder(r + [y], s + [y])
  {
    FirstIndexOfNew(s, y);
    var r' := r + [y];
    forall i, j | 0 <= i < j < |r'|
      ensures FirstIndex(s + [y], r'[i]) < FirstIndex(s + [y], r'[j])
    {
      assert r'[i] == r[i];
      if j < |r| {
        assert r'[j] == r[j];
      } else {
        FirstIndexAppend(s, y, r[i]);
      }
    }
  }

  /** The kept elements appear in the order of their first occurrences in `s`;
      with that, `Dedup(s)` is the subsequence of first occurrences. */
  lemma {:induction false} DedupFirstOccurrenceOrder<T>(s: seq<T>)
    ensures InFirstOccurrenceOrder(Dedup(s), s)
  {
    if s != [] {
      var init, last := s[..|s| - 1], s[|s| - 1];
      assert s == init + [last];
      DedupFirstOccurrenceOrder(init);
      OrderAfterAppend(Dedup(init), init, last);
      if last !in init {
        OrderAfterAppendNew(Dedup(init), init, last);
      }
    }
  }

  /** A list without duplicates is left unchanged. */
  lemma {:induction false} DedupOfDistinct<T>(s: seq<T>)
    requires Distinct(s)
    ensures Dedup(s) == s
  {
    if s != [] {
      var init, last := s[..|s| - 1], s[|s| - 1];
      assert s == init + [last];
      assert Distinct(init);
      DedupOfDistinct(init);
    }
  }

  /** Appending an element not yet present keeps a list free of duplicates. */
  lemma DistinctAppend<T>(s: seq<T>, x: T)
    requires Distinct(s) && x !in s
    ensures Distinct(s + [x])
  {
  }

  /** Two duplicate-free lists with no common element concatenate to a
      duplicate-free list. */
  lemma DistinctConcat<T>(s: seq<T>, t: seq<T>)
    requires Distinct(s) && Distinct(t)
    requires forall i :: 0 <= i < |t| ==> t[i] !in s
    ensures Distinct(s + t)
  {
  }

  /** De-duplicating twice is the same as de-duplicating once. */
  lemma DedupIdempotent<T>(s: seq<T>)
    ensures Dedup(Dedup(s)) == Dedup(s)
  {
    DedupOfDistinct(Dedup(s));
  }
}
