/**
 The corrected dequeue keeps the flow ledger exact and never panics.

 The ledger invariant needs every buffered item to be non-empty: a
 zero-byte item adds nothing to its flow's counters, so its flow can be
 torn down while the item is still queued, and dequeuing that item later
 panics at the ledger lookup.
 */
module Corrected {
  import opened WfqTypes
  import opened HeapOrder
  import opened Accounting
  import opened Queue
  import opened QueueProofs

  /** An entry of `m` that belongs to flow `k` contributes its size to that
      flow's bytes in `m`. */
  lemma FlowBytesCover<K>(m: multiset<HeapItem<K>>, x: HeapItem<K>)
    requires x in m
    ensures x.inner.size <= FlowBytes(m, x.inner.key)
  {
    SumRemove(m, Some(x.inner.key), x);
  }

  /** Admitting a non-empty item keeps the ledger exact, creating the flow's
      entry when it is new. */
  lemma EnqueueKeepsLedger<K>(s: Wfq<K>, item: Item<K>)
    requires LedgerConsistent(s)
    requires item.size > 0
    ensures LedgerConsistent(Enqueue(s, item))
  {
    var r := Enqueue(s, item);
    EnqueueRoutes(s, item);
    forall k | k in r.flows
      ensures r.flows[k].queueSize.normal == FlowBytes(r.items, k)
      ensures r.flows[k].queueSize.overflow == FlowBytes(r.overflow, k)
      ensures r.flows[k].queueSize.Total() > 0
    {
      LedgerEntryOf(s, k);
      EnqueueKeepsFlowEntry(s, item, k);
    }
  }

  /** On an exact ledger, the entry an arriving item would be booked
      against holds its flow's bytes, whether the flow is known or not. */
  lemma LedgerEntryOf<K>(s: Wfq<K>, k: K)
    requires LedgerConsistent(s)
    ensures FlowOf(s, k).queueSize.normal == FlowBytes(s.items, k)
    ensures FlowOf(s, k).queueSize.overflow == FlowBytes(s.overflow, k)
    ensures k in s.flows ==> FlowOf(s, k).queueSize.Total() > 0
  {
    if k !in s.flows {
      forall x | x in s.items ensures x.inner.key != k {
        assert x in s.items + s.overflow;
      }
      forall x | x in s.overflow ensures x.inner.key != k {
        assert x in s.items + s.overflow;
      }
      FlowBytesAbsent(s.items, k);
      FlowBytesAbsent(s.overflow, k);
    }
  }

  /** Admission keeps one flow's ledger entry exact: the admitted item's
      bytes land in its own flow's count for the heap it entered. */
  lemma EnqueueKeepsFlowEntry<K>(s: Wfq<K>, item: Item<K>, k: K)
    requires item.size > 0
    requires k in Enqueue(s, item).flows
    requires FlowOf(s, k).queueSize.normal == FlowBytes(s.items, k)
    requires FlowOf(s, k).queueSize.overflow == FlowBytes(s.overflow, k)
    requires k in s.flows && k != item.key ==> FlowOf(s, k).queueSize.Total() > 0
    ensures var r := Enqueue(s, item);
      && r.flows[k].queueSize.normal == FlowBytes(r.items, k)
      && r.flows[k].queueSize.overflow == FlowBytes(r.overflow, k)
      && r.flows[k].queueSize.Total() > 0
  {
    if s.queueSize.normal + item.size > s.maxNormal {
      OverflowAdmissionKeepsFlowEntry(s, item, k);
    } else {
      PrimaryAdmissionKeepsFlowEntry(s, item, k);
    }
  }

  lemma OverflowAdmissionKeepsFlowEntry<K>(s: Wfq<K>, item: Item<K>, k: K)
    requires s.queueSize.normal + item.size > s.maxNormal
    requires k in Enqueue(s, item).flows
    requires FlowOf(s, k).queueSize.normal == FlowBytes(s.items, k)
    requires FlowOf(s, k).queueSize.overflow == FlowBytes(s.overflow, k)
    ensures var r := Enqueue(s, item);
      && r.flows[k].queueSize.normal == FlowBytes(r.items, k)
      && r.flows[k].queueSize.overflow == FlowBytes(r.overflow, k)
      && r.flows[k].queueSize.Total() == FlowOf(s, k).queueSize.Total() + (if k == item.key then item.size else 0)
  {
    var r := Enqueue(s, item);
    var h := Stamp(s, item);
    var before := FlowOf(s, k).queueSize;
    var share := Share(h, Some(k));
    assert r.items == s.items && r.overflow == s.overflow + multiset{h};
    assert r.flows[k].queueSize == QueueSize(before.normal, before.overflow + share);
    SumAdd(s.overflow, Some(k), h);
  }

  lemma PrimaryAdmissionKeepsFlowEntry<K>(s: Wfq<K>, item: Item<K>, k: K)
    requires s.queueSize.normal + item.size <= s.maxNormal
    requires k in Enqueue(s, item).flows
    requires FlowOf(s, k).queueSize.normal == FlowBytes(s.items, k)
    requires FlowOf(s, k).queueSize.overflow == FlowBytes(s.overflow, k)
    ensures var r := Enqueue(s, item);
      && r.flows[k].queueSize.normal == FlowBytes(r.items, k)
      && r.flows[k].queueSize.overflow == FlowBytes(r.overflow, k)
      && r.flows[k].queueSize.Total() == FlowOf(s, k).queueSize.Total() + (if k == item.key then item.size else 0)
  {
    var r := Enqueue(s, item);
    var h := Stamp(s, item);
    var before := FlowOf(s, k).queueSize;
    var share := Share(h, Some(k));
    assert r.items == s.items + multiset{h} && r.overflow == s.overflow;
    assert r.flows[k].queueSize == QueueSize(before.normal + share, before.overflow);
    SumAdd(s.items, Some(k), h);
  }

  /** One round of corrected promotion keeps the ledger exact: the moved
      entry's bytes change heaps within its own flow's entry. */
  lemma MoveKeepsLedger<K>(s: Wfq<K>, next: HeapItem<K>)
    requires LedgerConsistent(s) && next in s.overflow
    requires next.inner.key in s.flows
    requires next.inner.size <= s.flows[next.inner.key].queueSize.overflow
    requires next.inner.size <= s.queueSize.overflow
    ensures LedgerConsistent(MoveToPrimary(s, next, next.inner.key))
  {
    var t := MoveToPrimary(s, next, next.inner.key);
    forall k | k in t.flows
      ensures t.flows[k].queueSize.normal == FlowBytes(t.items, k)
      ensures t.flows[k].queueSize.overflow == FlowBytes(t.overflow, k)
      ensures t.flows[k].queueSize.Total() > 0
    {
      MoveKeepsFlowEntry(s, next, k);
    }
    assert t.items + t.overflow == s.items + s.overflow;
  }

  /** One round of corrected promotion keeps one flow's entry exact. */
  lemma MoveKeepsFlowEntry<K>(s: Wfq<K>, next: HeapItem<K>, k: K)
    requires next in s.overflow
    requires next.inner.key in s.flows
    requires next.inner.size <= s.flows[next.inner.key].queueSize.overflow
    requires next.inner.size <= s.queueSize.overflow
    requires k in s.flows
    requires s.flows[k].queueSize.normal == FlowBytes(s.items, k)
    requires s.flows[k].queueSize.overflow == FlowBytes(s.overflow, k)
    requires s.flows[k].queueSize.Total() > 0
    ensures var t := MoveToPrimary(s, next, next.inner.key);
      && k in t.flows
      && t.flows[k].queueSize.normal == FlowBytes(t.items, k)
      && t.flows[k].queueSize.overflow == FlowBytes(t.overflow, k)
      && t.flows[k].queueSize.Total() > 0
  {
    var t := MoveToPrimary(s, next, next.inner.key);
    var share := Share(next, Some(k));
    assert t.items == s.items + multiset{next};
    assert t.overflow == s.overflow - multiset{next};
    assert t.flows[k].queueSize.normal == s.flows[k].queueSize.normal + share;
    assert t.flows[k].queueSize.overflow == s.flows[k].queueSize.overflow - share;
    SumAdd(s.items, Some(k), next);
    SumRemove(s.overflow, Some(k), next);
  }

  /** The corrected promotion loop cannot panic on an exact ledger, and
      keeps it exact. */
  lemma {:induction false} CorrectedPromoteKeepsLedger<K>(s: Wfq<K>, dequeued: K)
    requires Counted(s) && LedgerConsistent(s)
    ensures Promote(s, dequeued, Corrected).Promoted?
    ensures LedgerConsistent(Promote(s, dequeued, Corrected).state)
    decreases |s.overflow|
  {
    if s.overflow == multiset{} || s.queueSize.normal + PopOverflow(s.overflow).inner.size > s.maxNormal {
      PromoteStops(s, dequeued, Corrected);
    } else {
      var s' := CorrectedPromoteStep(s, dequeued, PopOverflow(s.overflow));
      CorrectedPromoteKeepsLedger(s', dequeued);
    }
  }

  /** One round of corrected promotion on an exact ledger: it cannot panic,
      and the loop goes on from a state whose counters and ledger are exact
      and whose overflow heap is one entry smaller. */
  lemma CorrectedPromoteStep<K>(s: Wfq<K>, dequeued: K, next: HeapItem<K>) returns (s': Wfq<K>)
    requires Counted(s) && LedgerConsistent(s)
    requires s.overflow != multiset{} && next == PopOverflow(s.overflow)
    requires s.queueSize.normal + next.inner.size <= s.maxNormal
    ensures Counted(s') && LedgerConsistent(s')
    ensures |s'.overflow| < |s.overflow|
    ensures Promote(s, dequeued, Corrected) == Promote(s', dequeued, Corrected)
  {
    var key := next.inner.key;
    assert key in s.flows by {
      assert next in s.items + s.overflow;
    }
    FlowBytesCover(s.overflow, next);
    SumRemove(s.overflow, None, next);
    PromoteContinues(s, dequeued, Corrected, next, key);
    s' := MoveToPrimary(s, next, key);
    MoveKeepsCounted(s, next, key);
    MoveKeepsLedger(s, next);
  }

  /** Popping an entry with the corrected teardown cannot panic on an exact
      ledger, and keeps it exact. */
  lemma CorrectedReleaseKeepsLedger<K>(s: Wfq<K>, top: HeapItem<K>)
    requires Counted(s) && LedgerConsistent(s) && top in s.items
    ensures Release(s, top, Corrected).Ok?
    ensures Counted(Release(s, top, Corrected).state)
    ensures LedgerConsistent(Release(s, top, Corrected).state)
  {
    var key := top.inner.key;
    assert top in s.items + s.overflow;
    ReleaseKeepsCounted(s, top, Corrected);
    FlowBytesCover(s.items, top);
    var t := Release(s, top, Corrected).state;
    forall k | k in t.flows
      ensures t.flows[k].queueSize.normal == FlowBytes(t.items, k)
      ensures t.flows[k].queueSize.overflow == FlowBytes(t.overflow, k)
      ensures t.flows[k].queueSize.Total() > 0
    {
      SumRemove(s.items, Some(k), top);
    }
    ReleaseKeepsEntriesFlows(s, top);
  }

  /** After the corrected release, every entry still buffered has its flow
      in the ledger: a flow is only torn down when it has no bytes left. */
  lemma ReleaseKeepsEntriesFlows<K>(s: Wfq<K>, top: HeapItem<K>)
    requires LedgerConsistent(s) && top in s.items
    requires Release(s, top, Corrected).Ok?
    ensures var t := Release(s, top, Corrected).state;
      forall x | x in t.items + t.overflow :: x.inner.key in t.flows
  {
    var key := top.inner.key;
    var t := Release(s, top, Corrected).state;
    forall x | x in t.items + t.overflow
      ensures x.inner.key in t.flows
    {
      assert x in s.items + s.overflow;
      if x.inner.key == key {
        SumRemove(s.items, Some(key), top);
        if x in t.items {
          FlowBytesCover(t.items, x);
        } else {
          FlowBytesCover(t.overflow, x);
        }
      }
    }
  }

  /** On an exact ledger of non-empty items, the corrected release drops
      the popped item's flow exactly when none of that flow's entries is
      left in either heap. */
  lemma CorrectedTearsDownWhenNoEntryLeft<K>(s: Wfq<K>, top: HeapItem<K>)
    requires Counted(s) && LedgerConsistent(s) && top in s.items
    ensures Release(s, top, Corrected).Ok?
    ensures var t := Release(s, top, Corrected).state;
      top.inner.key !in t.flows <==> forall x | x in t.items + t.overflow :: x.inner.key != top.inner.key
  {
    var key := top.inner.key;
    CorrectedReleaseKeepsLedger(s, top);
    ReleaseKeepsEntriesFlows(s, top);
    var t := Release(s, top, Corrected).state;
    if forall x | x in t.items + t.overflow :: x.inner.key != key {
      assert top in s.items + s.overflow;
      forall x | x in t.items ensures x.inner.key != key {
        assert x in t.items + t.overflow;
      }
      forall x | x in t.overflow ensures x.inner.key != key {
        assert x in t.items + t.overflow;
      }
      FlowBytesAbsent(t.items, key);
      FlowBytesAbsent(t.overflow, key);
      SumRemove(s.items, Some(key), top);
    }
  }

  /** With the corrected bookkeeping, a dequeue from a queue whose counters
      and ledger are exact never panics, and leaves both exact. */
  lemma CorrectedDequeueKeepsLedger<K>(s: Wfq<K>)
    requires Valid(s) && LedgerConsistent(s)
    ensures DequeueCorrected(s).Ok?
    ensures Valid(DequeueCorrected(s).state)
    ensures LedgerConsistent(DequeueCorrected(s).state)
  {
    DequeueKeepsValid(s, Corrected);
    if s.items != multiset{} {
      var top := PopPrimary(s.items);
      CorrectedReleaseKeepsLedger(s, top);
      CorrectedPromoteKeepsLedger(Release(s, top, Corrected).state, top.inner.key);
    }
  }
}
