/**
 Byte accounting: what the queue's counters are supposed to hold, and the
 invariants that tie the counters to the heaps' contents.
 */
module Accounting {
  import opened WfqTypes
  import opened HeapOrder

  /** The bytes an entry contributes to a count: all of them when no flow is
      named, otherwise only when the entry belongs to the named flow. */
  ghost function Share<K>(x: HeapItem<K>, flow: Option<K>): nat
  {
    if flow.None? || x.inner.key == flow.value then x.inner.size else 0
  }

  ghost function Sum<K>(m: multiset<HeapItem<K>>, flow: Option<K>): nat
    decreases |m|
  {
    if m == multiset{} then 0
    else
      var x :| x in m;
      Share(x, flow) + Sum(m - multiset{x}, flow)
  }

  /** Payload bytes of all entries of `m`. */
  ghost function Bytes<K>(m: multiset<HeapItem<K>>): nat
  {
    Sum(m, None)
  }

  /** Payload bytes of the entries of `m` that belong to flow `k`. */
  ghost function FlowBytes<K>(m: multiset<HeapItem<K>>, k: K): nat
  {
    Sum(m, Some(k))
  }

  /** Taking any one entry out of a multiset takes exactly its share out of
      the sum, whichever entry the definition of Sum happens to pick. */
  lemma {:induction false} SumRemove<K>(m: multiset<HeapItem<K>>, flow: Option<K>, y: HeapItem<K>)
    requires y in m
    ensures Sum(m, flow) == Share(y, flow) + Sum(m - multiset{y}, flow)
    decreases |m|, 1
  {
    var x :| x in m && Sum(m, flow) == Share(x, flow) + Sum(m - multiset{x}, flow);
    if x != y {
      SumSwap(m, flow, x, y);
    }
  }

  /** Peeling off `x` first or `y` first leaves the same sum. */
  lemma {:induction false} SumSwap<K>(m: multiset<HeapItem<K>>, flow: Option<K>, x: HeapItem<K>, y: HeapItem<K>)
    requires x in m && y in m && x != y
    ensures Share(x, flow) + Sum(m - multiset{x}, flow) == Share(y, flow) + Sum(m - multiset{y}, flow)
    decreases |m|, 0
  {
    var mx := m - multiset{x};
    var my := m - multiset{y};
    assert y in mx;
    SumRemove(mx, flow, y);
    assert x in my;
    SumRemove(my, flow, x);
    assert mx - multiset{y} == my - multiset{x};
  }

  lemma SumAdd<K>(m: multiset<HeapItem<K>>, flow: Option<K>, y: HeapItem<K>)
    ensures Sum(m + multiset{y}, flow) == Sum(m, flow) + Share(y, flow)
  {
    SumRemove(m + multiset{y}, flow, y);
    assert m + multiset{y} - multiset{y} == m;
  }

  lemma {:induction false} SumUnion<K>(a: multiset<HeapItem<K>>, b: multiset<HeapItem<K>>, flow: Option<K>)
    ensures Sum(a + b, flow) == Sum(a, flow) + Sum(b, flow)
    decreases |b|
  {
    if b == multiset{} {
      assert a + b == a;
    } else {
      var y :| y in b;
      var b' := b - multiset{y};
      assert b == b' + multiset{y};
      assert a + b == (a + b') + multiset{y};
      SumUnion(a, b', flow);
      SumAdd(a + b', flow, y);
      SumAdd(b', flow, y);
    }
  }

  /** A flow none of whose entries are in `m` has no bytes there. */
  lemma {:induction false} FlowBytesAbsent<K>(m: multiset<HeapItem<K>>, k: K)
    requires forall x | x in m :: x.inner.key != k
    ensures FlowBytes(m, k) == 0
    decreases |m|
  {
    if m != multiset{} {
      var x :| x in m;
      SumRemove(m, Some(k), x);
      FlowBytesAbsent(m - multiset{x}, k);
    }
  }

  /** The queue-wide counters hold the byte sums of the two heaps. */
  ghost predicate Counted<K>(s: Wfq<K>)
  {
    && s.queueSize.normal == Bytes(s.items)
    && s.queueSize.overflow == Bytes(s.overflow)
  }

  /** The queue-wide invariant: the counters are exact, the primary heap
      holds no more than its bound, and every entry carries a distinct
      arrival number below the next one to be issued. */
  ghost predicate Valid<K>(s: Wfq<K>)
  {
    && Counted(s)
    && s.queueSize.normal <= s.maxNormal
    && (forall x | x in s.items + s.overflow :: x.seqno < s.seqno)
    && UniqueSeqnos(s.items + s.overflow)
  }

  /** The flow ledger is exact: each entry holds the bytes its flow has in
      each heap, no flow is held with nothing buffered, and every buffered
      item (all of them non-empty) has its flow in the ledger. */
  ghost predicate LedgerConsistent<K>(s: Wfq<K>)
  {
    && (forall k | k in s.flows ::
          && s.flows[k].queueSize.normal == FlowBytes(s.items, k)
          && s.flows[k].queueSize.overflow == FlowBytes(s.overflow, k)
          && s.flows[k].queueSize.Total() > 0)
    && (forall x | x in s.items + s.overflow :: x.inner.key in s.flows && x.inner.size > 0)
  }

  /** `QueueSize::total` counts every byte the queue buffers, in either heap. */
  lemma TotalCountsEveryByte<K>(s: Wfq<K>)
    requires Counted(s)
    ensures s.queueSize.Total() == Bytes(s.items + s.overflow)
  {
    SumUnion(s.items, s.overflow, None);
  }

  /** A consistent ledger entry's total counts every byte its flow buffers. */
  lemma FlowTotalCountsEveryByte<K>(s: Wfq<K>, k: K)
    requires LedgerConsistent(s) && k in s.flows
    ensures s.flows[k].queueSize.Total() == FlowBytes(s.items + s.overflow, k)
  {
    SumUnion(s.items, s.overflow, Some(k));
  }
}
