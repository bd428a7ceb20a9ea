/** Sequences without repetitions, and the first-seen order of the distinct
    elements of a sequence. */
module Distinct {

  /** No element occurs twice. */
  ghost predicate NoDup<T>(s: seq<T>) {
    forall i, j :: 0 <= i < j < |s| ==> s[i] != s[j]
  }

  lemma NoDupAppend<T>(s: seq<T>, x: T)
    requires NoDup(s) && x !in s
    ensures NoDup(s + [x])
  {
  }

  /** Index of the first occurrence of `x` in `s`. */
  function FirstIndex<T(==)>(s: seq<T>, x: T): (i: nat)
    requires x in s
    ensures i < |s| && s[i] == x
    ensures forall j :: 0 <= j < i ==> s[j] != x
  {
    if x in s[..|s| - 1] then FirstIndex(s[..|s| - 1], x) else |s| - 1
  }

  /** The distinct elements of `s`, each kept where it first appears. */
  function Dedup<T(==)>(s: seq<T>): (r: seq<T>)
    ensures NoDup(r)
    ensures forall i :: 0 <= i < |s| ==> s[i] in r
    ensures forall i :: 0 <= i < |r| ==> r[i] in s
    ensures |r| <= |s|
  {
    if s == [] then []
    else
      var d := Dedup(s[..|s| - 1]);
      var x := s[|s| - 1];
      if x in d then d else NoDupAppend(d, x); d + [x]
  }

  /** A new element goes to the end of the first-seen list; a repeated one
      leaves it as it is. */
  lemma DedupAppend<T>(s: seq<T>, x: T)
    ensures x in Dedup(s) <==> x in s
    ensures Dedup(s + [x]) == if x in s then Dedup(s) else Dedup(s) + [x]
  {
    assert (s + [x])[..|s|] == s;
  }

  /** Dedup lists the distinct elements in the order of their first occurrence. */
  lemma {:induction false} DedupFirstSeen<T>(s: seq<T>)
    ensures forall i, j :: 0 <= i < j < |Dedup(s)| ==>
      FirstIndex(s, Dedup(s)[i]) < FirstIndex(s, Dedup(s)[j])
  {
    if s != [] {
      var p, x := s[..|s| - 1], s[|s| - 1];
      assert s == p + [x];
      DedupFirstSeen(p);
      var d := Dedup(p);
      forall y | y in p
        ensures FirstIndex(s, y) == FirstIndex(p, y)
      {
        FirstIndexPrefix(p, x, y);
      }
    }
  }

  lemma FirstIndexPrefix<T>(p: seq<T>, x: T, y: T)
    requires y in p
    ensures FirstIndex(p + [x], y) == FirstIndex(p, y)
  {
    assert (p + [x])[..|p|] == p;
  }
}
