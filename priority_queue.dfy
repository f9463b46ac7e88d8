/**
 * The `PriorityQueue<BaseShape, int>` the renderer fills and drains, modelled
 * by its contract only: `Enqueue` adds an entry and `Dequeue` removes AN
 * entry of least priority. Which of several equal-priority entries comes out
 * first is left open, as the library leaves it open.
 */
module PriorityQueues {
  import opened Shapes

  type Entry = (Shape, int)

  function Priorities(s: seq<Entry>): seq<int> {
    seq(|s|, i requires 0 <= i < |s| => s[i].1)
  }

  predicate Ascending(s: seq<int>) {
    forall i, j :: 0 <= i < j < |s| ==> s[i] <= s[j]
  }

  /** `e` is one of the entries of `s` and no entry of `s` has a smaller priority. */
  ghost predicate IsMinimum(e: Entry, s: seq<Entry>) {
    e in s && forall x :: x in s ==> e.1 <= x.1
  }

  /** The position of an entry of least priority; every non-empty queue has one. */
  function MinimumAt(s: seq<Entry>): (i: nat)
    requires s != []
    ensures i < |s|
    ensures forall j :: 0 <= j < |s| ==> s[i].1 <= s[j].1
  {
    if |s| == 1 then 0
    else
      var k := MinimumAt(s[..|s| - 1]);
      if s[k].1 <= s[|s| - 1].1 then k else |s| - 1
  }

  lemma PrioritiesAppend(a: seq<Entry>, b: seq<Entry>)
    ensures Priorities(a + b) == Priorities(a) + Priorities(b)
  {
  }

  /** The same entries, in whatever order, carry the same priorities. */
  lemma {:induction false} SamePrioritiesForSameEntries(a: seq<Entry>, b: seq<Entry>)
    requires multiset(a) == multiset(b)
    ensures multiset(Priorities(a)) == multiset(Priorities(b))
    decreases |a|
  {
    if a == [] {
      assert |multiset(b)| == 0;
    } else {
      var x := a[0];
      assert x in multiset(b);
      var k :| 0 <= k < |b| && b[k] == x;
      var rest := b[..k] + b[k + 1..];
      assert b == b[..k] + [x] + b[k + 1..];
      assert a == [x] + a[1..];
      assert multiset(a) == multiset([x]) + multiset(a[1..]);
      assert multiset(b) == multiset(b[..k]) + multiset([x]) + multiset(b[k + 1..]);
      assert multiset(rest) == multiset(b[..k]) + multiset(b[k + 1..]);
      assert multiset(b) == multiset([x]) + multiset(rest);
      Cancel(multiset(a[1..]), multiset(rest), multiset([x]));
      SamePrioritiesForSameEntries(a[1..], rest);
      PrioritiesAppend([x], a[1..]);
      PrioritiesAppend(b[..k] + [x], b[k + 1..]);
      PrioritiesAppend(b[..k], [x]);
      PrioritiesAppend(b[..k], b[k + 1..]);
    }
  }

  lemma Cancel<T>(x: multiset<T>, y: multiset<T>, z: multiset<T>)
    requires z + x == z + y
    ensures x == y
  {
    forall e
      ensures x[e] == y[e]
    {
      assert (z + x)[e] == (z + y)[e];
    }
  }

  /** Two ascending sequences with the same elements are equal. */
  lemma {:induction false} AscendingIsUnique(a: seq<int>, b: seq<int>)
    requires Ascending(a) && Ascending(b)
    requires multiset(a) == multiset(b)
    ensures a == b
    decreases |a|
  {
    if a == [] {
      assert |multiset(b)| == 0;
    } else {
      assert b != [] by { assert |multiset(b)| == |a|; }
      HeadIsLeast(a, b[0]);
      HeadIsLeast(b, a[0]);
      assert a == [a[0]] + a[1..];
      assert b == [b[0]] + b[1..];
      assert multiset(a) == multiset([a[0]]) + multiset(a[1..]);
      assert multiset(b) == multiset([b[0]]) + multiset(b[1..]);
      Cancel(multiset(a[1..]), multiset(b[1..]), multiset([a[0]]));
      AscendingIsUnique(a[1..], b[1..]);
    }
  }

  /** The head of an ascending sequence is at most any element of it. */
  lemma HeadIsLeast(s: seq<int>, x: int)
    requires Ascending(s) && x in multiset(s)
    ensures s != [] && s[0] <= x
  {
  }

  /**
   * Draining a queue lowest priority first fixes the sequence of priorities
   * drawn, whatever the insertion order and however ties are broken.
   */
  lemma DrainOrderIsDetermined(queued: seq<Entry>, d1: seq<Entry>, d2: seq<Entry>)
    requires multiset(d1) == multiset(queued) && Ascending(Priorities(d1))
    requires multiset(d2) == multiset(queued) && Ascending(Priorities(d2))
    ensures Priorities(d1) == Priorities(d2)
  {
    SamePrioritiesForSameEntries(d1, d2);
    AscendingIsUnique(Priorities(d1), Priorities(d2));
  }

  class PriorityQueue {
    /** The queued entries; their order means nothing once an entry has been dequeued. */
    var entries: seq<Entry>

    constructor ()
      ensures entries == []
    {
      entries := [];
    }

    function Count(): nat
      reads this
    {
      |entries|
    }

    method Enqueue(shape: Shape, priority: int)
      modifies this
      ensures entries == old(entries) + [(shape, priority)]
    {
      entries := entries + [(shape, priority)];
    }

    method Dequeue() returns (e: Entry)
      requires entries != []
      modifies this
      ensures IsMinimum(e, old(entries))
      ensures multiset(entries) + multiset{e} == multiset(old(entries))
    {
      var i := MinimumAt(entries);
      e := entries[i];
      var rest := entries[..i] + entries[i + 1..];
      assert entries == entries[..i] + [e] + entries[i + 1..];
      assert multiset(entries) == multiset(rest) + multiset{e};
      entries := rest;
    }
  }
}
