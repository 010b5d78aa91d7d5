/** The walk's priority queue: `heapq` over tuples `(-rank, push_count, cand)`. The queue is kept as
    an unordered sequence and popped by a linear search for the least key; because push counts are
    unique, no two keys are equal and the order of pops is the one a binary heap gives. */
module Worklist {
  import opened Runtime

  datatype HeapEntry = HeapEntry(negRank: int, count: nat, cand: Cand)

  /** Python's tuple order on `(-rank, push_count)`. */
  predicate KeyLe(a: HeapEntry, b: HeapEntry)
  {
    a.negRank < b.negRank || (a.negRank == b.negRank && a.count <= b.count)
  }

  /** Position of a least key. */
  method ArgMin(s: seq<HeapEntry>) returns (k: nat)
    requires |s| > 0
    ensures k < |s|
    ensures forall j :: 0 <= j < |s| ==> KeyLe(s[k], s[j])
  {
    k := 0;
    var i := 1;
    while i < |s|
      invariant 1 <= i <= |s|
      invariant k < i
      invariant forall j :: 0 <= j < i ==> KeyLe(s[k], s[j])
    {
      if !KeyLe(s[k], s[i]) {
        k := i;
      }
      i := i + 1;
    }
  }

  /** No two entries of `s` share a push count. */
  predicate DistinctCounts(s: seq<HeapEntry>)
  {
    forall i, j :: 0 <= i < j < |s| ==> s[i].count != s[j].count
  }

  /** Where the `j`-th remaining entry sat before position `k` was removed. */
  lemma RemovedPosition(s: seq<HeapEntry>, k: nat, j: nat)
    requires k < |s| && j < |s| - 1
    ensures |s[..k] + s[k + 1..]| == |s| - 1
    ensures (s[..k] + s[k + 1..])[j] == s[if j < k then j else j + 1]
  {
  }

  /** Removing position `k` removes one occurrence of its entry. */
  lemma RemovedOnce(s: seq<HeapEntry>, k: nat)
    requires k < |s|
    ensures multiset(s[..k] + s[k + 1..]) == multiset(s) - multiset{s[k]}
  {
    assert s == s[..k] + [s[k]] + s[k + 1..];
  }

  /** Removing position `k` of a sequence with distinct counts removes one occurrence of its
      entry and keeps the other entries, whose counts all differ from the removed one's. */
  lemma RemovedAt(s: seq<HeapEntry>, k: nat)
    requires k < |s| && DistinctCounts(s)
    ensures |s[..k] + s[k + 1..]| == |s| - 1
    ensures multiset(s[..k] + s[k + 1..]) == multiset(s) - multiset{s[k]}
    ensures forall x :: x in s[..k] + s[k + 1..] ==> x in s && x.count != s[k].count
    ensures DistinctCounts(s[..k] + s[k + 1..])
  {
    var t := s[..k] + s[k + 1..];
    RemovedOnce(s, k);
    forall x | x in t
      ensures x in s && x.count != s[k].count
    {
      var j :| 0 <= j < |t| && t[j] == x;
      RemovedPosition(s, k, j);
    }
    forall i, j | 0 <= i < j < |t|
      ensures t[i].count != t[j].count
    {
      RemovedPosition(s, k, i);
      RemovedPosition(s, k, j);
    }
  }

  class CandidateHeap {
    var entries: seq<HeapEntry>
    var pushCount: nat

    /** Every queued count was handed out by an earlier push, and no two queued entries share one. */
    ghost predicate Valid()
      reads this
    {
      && (forall x :: x in entries ==> x.count < pushCount)
      && DistinctCounts(entries)
    }

    constructor ()
      ensures Valid()
      ensures entries == [] && pushCount == 0
    {
      entries := [];
      pushCount := 0;
    }

    /** `add_cand`: push `(-rank, push_count, cand)` and increment the counter. */
    method Push(rank: int, c: Cand)
      requires Valid()
      modifies this
      ensures Valid()
      ensures entries == old(entries) + [HeapEntry(-rank, old(pushCount), c)]
      ensures pushCount == old(pushCount) + 1
    {
      assert forall x :: x in entries ==> x.count < pushCount;
      entries := entries + [HeapEntry(-rank, pushCount, c)];
      pushCount := pushCount + 1;
    }

    /** `heapq.heappop`: remove and return an entry of least key. */
    method Pop() returns (e: HeapEntry)
      requires Valid()
      requires entries != []
      modifies this
      ensures Valid()
      ensures pushCount == old(pushCount)
      ensures e in old(entries)
      ensures forall x :: x in old(entries) ==> KeyLe(e, x)
      ensures |entries| == |old(entries)| - 1
      ensures multiset(entries) == multiset(old(entries)) - multiset{e}
      ensures forall x :: x in entries ==> x in old(entries)
      ensures forall x :: x in entries ==> -e.negRank > -x.negRank || (e.negRank == x.negRank && e.count < x.count)
    {
      var k := ArgMin(entries);
      e := entries[k];
      RemovedAt(entries, k);
      entries := entries[..k] + entries[k + 1..];
    }
  }
}
