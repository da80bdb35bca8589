/** Order-keeping views of Python's insertion-ordered dictionaries. */
module Sequences {

  predicate NoDuplicates<T(==)>(s: seq<T>) {
    forall i, j :: 0 <= i < j < |s| ==> s[i] != s[j]
  }

  /**
   * The keys of a dictionary built by inserting `s` in order: every element
   * once, at its first occurrence. A repeated key only overwrites its value.
   */
  function Distinct<T(==,!new)>(s: seq<T>): (d: seq<T>)
    ensures forall x :: x in d <==> x in s
    ensures NoDuplicates(d)
    ensures |d| <= |s|
    ensures NoDuplicates(s) ==> d == s
    decreases |s|
  {
    if s == [] then []
    else
      var d := Distinct(s[..|s| - 1]);
      if s[|s| - 1] in d then d else d + [s[|s| - 1]]
  }

  /** The keys of an insertion-ordered dictionary after deleting `x`. */
  function Without<T(==,!new)>(s: seq<T>, x: T): (r: seq<T>)
    ensures forall y :: y in r <==> y in s && y != x
    ensures NoDuplicates(s) ==> NoDuplicates(r)
    ensures NoDuplicates(s) && x in s ==> |r| == |s| - 1
    ensures x !in s ==> r == s
  {
    if s == [] then []
    else if s[0] == x then Without(s[1..], x)
    else
      var rest := Without(s[1..], x);
      assert NoDuplicates(s) ==> s[0] !in s[1..];
      [s[0]] + rest
  }

  /** The position of the first occurrence of `x` in `s`. */
  function FirstIndex<T(==)>(s: seq<T>, x: T): (i: nat)
    requires x in s
    ensures i < |s| && s[i] == x
    ensures forall k :: 0 <= k < i ==> s[k] != x
  {
    if s[0] == x then 0 else 1 + FirstIndex(s[1..], x)
  }

  /** `d` lists its elements in the order of their first occurrences in `s`. */
  predicate InFirstOccurrenceOrder<T(==)>(d: seq<T>, s: seq<T>) {
    forall i, j :: 0 <= i < j < |d| ==> d[i] in s && d[j] in s && FirstIndex(s, d[i]) < FirstIndex(s, d[j])
  }

  /** A position that holds `x` with no `x` before it is the first occurrence. */
  lemma FirstIndexAt<T>(s: seq<T>, x: T, i: nat)
    requires i < |s| && s[i] == x
    requires forall k :: 0 <= k < i ==> s[k] != x
    ensures FirstIndex(s, x) == i
  {
    var f := FirstIndex(s, x);
    assert !(f < i) && !(i < f);
  }

  /**
   * The keys of a dictionary built from `s` come in the order in which they
   * first occur in `s`, as Python keeps a key where it was first inserted.
   */
  lemma {:induction false} DistinctKeepsFirstOrder<T(!new)>(s: seq<T>)
    ensures InFirstOccurrenceOrder(Distinct(s), s)
    decreases |s|
  {
    if s != [] {
      var init, last := s[..|s| - 1], s[|s| - 1];
      var d := Distinct(init);
      DistinctKeepsFirstOrder(init);
      forall y | y in init
        ensures y in s && FirstIndex(s, y) == FirstIndex(init, y)
      {
        FirstIndexAt(s, y, FirstIndex(init, y));
      }
      if last !in d {
        FirstIndexAt(s, last, |s| - 1);
        assert Distinct(s) == d + [last];
      }
    }
  }

  /**
   * With no repeats, deleting `x` keeps the remaining keys in their order,
   * as Python's `del` does.
   */
  lemma {:induction false} WithoutKeepsOrder<T(!new)>(s: seq<T>, x: T)
    requires NoDuplicates(s)
    ensures InFirstOccurrenceOrder(Without(s, x), s)
    decreases |s|
  {
    if s != [] {
      var tail := s[1..];
      assert NoDuplicates(tail);
      WithoutKeepsOrder(tail, x);
      forall y | y in tail
        ensures y in s && FirstIndex(s, y) == 1 + FirstIndex(tail, y)
      {
        assert s[0] != y;
      }
      if s[0] != x {
        var r := Without(s, x);
        assert r == [s[0]] + Without(tail, x);
        assert FirstIndex(s, s[0]) == 0;
      }
    }
  }
}
