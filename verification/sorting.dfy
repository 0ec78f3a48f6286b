/** Ordering tracker entries by date, as the `ORDER BY date` clauses of the
    tracker routes do. Entries of equal date keep their table order. */
module Sorting {

  import opened Tables

  /** `a` may precede `b`: newest first, or oldest first. */
  predicate InOrder(a: Entry, b: Entry, newestFirst: bool) {
    if newestFirst then a.date >= b.date else a.date <= b.date
  }

  predicate Sorted(s: seq<Entry>, newestFirst: bool) {
    forall i, j :: 0 <= i < j < |s| ==> InOrder(s[i], s[j], newestFirst)
  }

  /** Inserts `e` before the first element it may precede. */
  function Insert(e: Entry, s: seq<Entry>, newestFirst: bool): (r: seq<Entry>)
    requires Sorted(s, newestFirst)
    ensures Sorted(r, newestFirst)
    ensures multiset(r) == multiset(s) + multiset{e}
    ensures |r| == |s| + 1
  {
    if s == [] then [e]
    else if InOrder(e, s[0], newestFirst) then
      HeadPrecedesAll(s, newestFirst);
      Prepend(e, s, newestFirst);
      [e] + s
    else
      var tail := Insert(e, s[1..], newestFirst);
      assert s == [s[0]] + s[1..];
      HeadPrecedesAll(s, newestFirst);
      assert forall x :: x in tail ==> x == e || x in s[1..] by {
        forall x | x in tail ensures x == e || x in s[1..] {
          assert x in multiset(tail);
        }
      }
      Prepend(s[0], tail, newestFirst);
      [s[0]] + tail
  }

  /** The first element of a sorted sequence may precede every element. */
  lemma HeadPrecedesAll(s: seq<Entry>, newestFirst: bool)
    requires s != [] && Sorted(s, newestFirst)
    ensures forall x :: x in s ==> InOrder(s[0], x, newestFirst)
  {
    forall x | x in s ensures InOrder(s[0], x, newestFirst) {
      var k :| 0 <= k < |s| && s[k] == x;
      if k > 0 { assert InOrder(s[0], s[k], newestFirst); }
    }
  }

  /** An element that may precede all of a sorted sequence starts a
      sorted sequence. */
  lemma Prepend(x: Entry, s: seq<Entry>, newestFirst: bool)
    requires Sorted(s, newestFirst)
    requires forall y :: y in s ==> InOrder(x, y, newestFirst)
    ensures Sorted([x] + s, newestFirst)
  {
    var r := [x] + s;
    forall i, j | 0 <= i < j < |r| ensures InOrder(r[i], r[j], newestFirst) {
      assert r[j] == s[j - 1];
      if i > 0 { assert r[i] == s[i - 1]; }
    }
  }

  /** Insertion sort, stable. */
  function Sort(s: seq<Entry>, newestFirst: bool): (r: seq<Entry>)
    ensures Sorted(r, newestFirst)
    ensures multiset(r) == multiset(s)
    ensures |r| == |s|
  {
    if s == [] then []
    else
      assert s == [s[0]] + s[1..];
      Insert(s[0], Sort(s[1..], newestFirst), newestFirst)
  }

  function Reverse(s: seq<Entry>): (r: seq<Entry>)
    ensures |r| == |s|
    ensures forall i :: 0 <= i < |s| ==> r[i] == s[|s| - 1 - i]
  {
    if s == [] then [] else Reverse(s[1..]) + [s[0]]
  }

  /** Reversing keeps the elements and flips the order. */
  lemma ReverseFlips(s: seq<Entry>, newestFirst: bool)
    requires Sorted(s, newestFirst)
    ensures Sorted(Reverse(s), !newestFirst)
    ensures multiset(Reverse(s)) == multiset(s)
  {
    var r := Reverse(s);
    forall i, j | 0 <= i < j < |r| ensures InOrder(r[i], r[j], !newestFirst) {
      assert InOrder(s[|s| - 1 - j], s[|s| - 1 - i], newestFirst);
    }
    ReverseMultiset(s);
  }

  lemma {:induction false} ReverseMultiset(s: seq<Entry>)
    ensures multiset(Reverse(s)) == multiset(s)
    decreases |s|
  {
    if s != [] {
      ReverseMultiset(s[1..]);
      assert s == [s[0]] + s[1..];
    }
  }
}
