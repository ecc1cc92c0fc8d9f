/**
 Properties of the queue as implemented: admission, the promotion loop, and
 the queue-wide invariant, which every run that does not panic keeps.
 */
module QueueProofs {
  import opened WfqTypes
  import opened HeapOrder
  import opened Accounting
  import opened Queue

  lemma UniqueSeqnosShrink<K>(m: multiset<HeapItem<K>>, m': multiset<HeapItem<K>>)
    requires UniqueSeqnos(m) && m' <= m
    ensures UniqueSeqnos(m')
  {
    forall x | x in m' ensures m'[x] == 1 {
      assert m'[x] <= m[x];
    }
  }

  /** A new queue is empty, with no flows, the given bound, and its virtual
      time and arrival counter at zero; it holds both invariants and has
      nothing to dequeue. */
  lemma NewIsEmptyAndValid<K>(maxNormal: nat)
    ensures New<K>(maxNormal).items + New<K>(maxNormal).overflow == multiset{}
    ensures New<K>(maxNormal).flows == map[] && New<K>(maxNormal).maxNormal == maxNormal
    ensures New<K>(maxNormal).virtualTime == 0 && New<K>(maxNormal).seqno == 0
    ensures Valid(New<K>(maxNormal)) && LedgerConsistent(New<K>(maxNormal))
    ensures New<K>(maxNormal).queueSize.Total() == 0
    ensures Dequeue(New<K>(maxNormal)) == Ok(New<K>(maxNormal), None)
  {
  }

  /** Adding an entry whose arrival number is above all others keeps the
      arrival numbers unique. */
  lemma AddFreshKeepsUnique<K>(m: multiset<HeapItem<K>>, h: HeapItem<K>)
    requires UniqueSeqnos(m)
    requires forall x | x in m :: x.seqno < h.seqno
    ensures UniqueSeqnos(m + multiset{h})
  {
    assert h !in m;
    forall x | x in m + multiset{h} ensures (m + multiset{h})[x] == 1 {
      if x != h {
        assert x in m;
      }
    }
  }

  /** Admission keeps the invariant: the counters stay exact, the primary
      heap stays within its bound, and the new entry's arrival number is
      above every arrival number already queued. */
  lemma EnqueueKeepsValid<K>(s: Wfq<K>, item: Item<K>)
    requires Valid(s)
    ensures Valid(Enqueue(s, item))
    ensures forall x | x in s.items + s.overflow :: x.seqno < Stamp(s, item).seqno
    ensures Bytes(Enqueue(s, item).items + Enqueue(s, item).overflow)
            == Bytes(s.items + s.overflow) + item.size
  {
    EnqueueRoutes(s, item);
    EnqueueKeepsCounted(s, item);
    EnqueueKeepsSeqnos(s, item);
    SumAdd(s.items + s.overflow, None, Stamp(s, item));
  }

  lemma EnqueueKeepsCounted<K>(s: Wfq<K>, item: Item<K>)
    requires Counted(s)
    ensures Counted(Enqueue(s, item))
  {
    if s.queueSize.normal + item.size > s.maxNormal {
      SumAdd(s.overflow, None, Stamp(s, item));
    } else {
      SumAdd(s.items, None, Stamp(s, item));
    }
  }

  lemma EnqueueKeepsSeqnos<K>(s: Wfq<K>, item: Item<K>)
    requires forall x | x in s.items + s.overflow :: x.seqno < s.seqno
    requires UniqueSeqnos(s.items + s.overflow)
    ensures var r := Enqueue(s, item);
      && (forall x | x in r.items + r.overflow :: x.seqno < r.seqno)
      && UniqueSeqnos(r.items + r.overflow)
  {
    EnqueueRoutes(s, item);
    AddFreshKeepsUnique(s.items + s.overflow, Stamp(s, item));
  }

  /** A flow's last virtual finish time starts at the queue's virtual time,
      advances by size times weight with each admission, and the admitted
      entry carries the new value; so it never goes down, and goes up
      exactly when the item is non-empty. */
  lemma FlowFinishTimeAdvances<K>(s: Wfq<K>, item: Item<K>)
    ensures var r := Enqueue(s, item);
      var before := if item.key in s.flows then s.flows[item.key].lastVft else s.virtualTime;
      && r.flows[item.key].lastVft == before + item.size * item.weight
      && Stamp(s, item).vft == r.flows[item.key].lastVft
      && before <= r.flows[item.key].lastVft
      && (before < r.flows[item.key].lastVft <==> item.size > 0)
  {
    var before := if item.key in s.flows then s.flows[item.key].lastVft else s.virtualTime;
    if item.size > 0 {
      assert item.size * item.weight >= item.size;
    }
  }

  /** Every round of promotion keeps the queue-wide counters exact. */
  lemma MoveKeepsCounted<K>(s: Wfq<K>, next: HeapItem<K>, k: K)
    requires Counted(s) && next in s.overflow
    requires k in s.flows
    requires next.inner.size <= s.flows[k].queueSize.overflow
    requires next.inner.size <= s.queueSize.overflow
    ensures Counted(MoveToPrimary(s, next, k))
  {
    SumAdd(s.items, None, next);
    SumRemove(s.overflow, None, next);
  }

  /** The promotion loop stops, changing nothing, when the overflow heap is
      empty or its top does not fit under the bound. */
  lemma PromoteStops<K>(s: Wfq<K>, dequeued: K, rev: Revision)
    requires s.overflow == multiset{}
          || s.queueSize.normal + PopOverflow(s.overflow).inner.size > s.maxNormal
    ensures Promote(s, dequeued, rev) == Promoted(s)
  {
  }

  /** When the overflow heap's top fits and its booking cannot underflow,
      the promotion loop moves it and carries on. */
  lemma PromoteContinues<K>(s: Wfq<K>, dequeued: K, rev: Revision, next: HeapItem<K>, k: K)
    requires s.overflow != multiset{} && next == PopOverflow(s.overflow)
    requires k == BookedFlow(rev, dequeued, next)
    requires s.queueSize.normal + next.inner.size <= s.maxNormal
    requires k in s.flows
    requires next.inner.size <= s.flows[k].queueSize.overflow
    requires next.inner.size <= s.queueSize.overflow
    ensures Promote(s, dequeued, rev) == Promote(MoveToPrimary(s, next, k), dequeued, rev)
  {
  }

  /** A dequeue is its three stages in turn: pop the primary heap's top,
      release its bytes, run the promotion loop. */
  lemma DequeueUnfolds<K>(s: Wfq<K>, rev: Revision, top: HeapItem<K>, released: Wfq<K>, t: Wfq<K>)
    requires s.items != multiset{} && top == PopPrimary(s.items)
    requires Release(s, top, rev) == Ok(released, None)
    requires Promote(released, top.inner.key, rev) == Promoted(t)
    ensures DequeueRev(s, rev) == Ok(t, Some(top.inner))
  {
  }

  /** A dequeue whose promotion loop panics panics at the same place. */
  lemma DequeuePanicsInPromotion<K>(s: Wfq<K>, rev: Revision, top: HeapItem<K>, released: Wfq<K>, site: PanicSite)
    requires s.items != multiset{} && top == PopPrimary(s.items)
    requires Release(s, top, rev) == Ok(released, None)
    requires Promote(released, top.inner.key, rev) == PromotionPanic(site)
    ensures DequeueRev(s, rev) == Panic(site)
  {
  }

  /** When the counters are exact, the promotion loop keeps them exact, and
      its subtraction from the queue-wide overflow counter cannot fail. */
  lemma {:induction false} PromoteKeepsCounted<K>(s: Wfq<K>, dequeued: K, rev: Revision)
    requires Counted(s)
    ensures Promote(s, dequeued, rev).Promoted? ==> Counted(Promote(s, dequeued, rev).state)
    ensures Promote(s, dequeued, rev) != PromotionPanic(OverflowUnderflow)
    decreases |s.overflow|
  {
    if s.overflow != multiset{} {
      var next := PopOverflow(s.overflow);
      var size := next.inner.size;
      SumRemove(s.overflow, None, next);
      var k := BookedFlow(rev, dequeued, next);
      if s.queueSize.normal + size <= s.maxNormal && k in s.flows && size <= s.flows[k].queueSize.overflow {
        MoveKeepsCounted(s, next, k);
        PromoteKeepsCounted(MoveToPrimary(s, next, k), dequeued, rev);
      }
    }
  }

  /** The promotion loop takes entries from the overflow heap in its order:
      every entry it moves ranks at least as high as every entry it leaves,
      and when it stops with entries left, the top one does not fit. */
  lemma {:induction false} PromoteTakesTopsInOrder<K>(s: Wfq<K>, dequeued: K, rev: Revision)
    ensures var r := Promote(s, dequeued, rev);
      r.Promoted? ==>
        && (forall p, q | p in r.state.items - s.items && q in r.state.overflow :: OverflowAtMost(q, p))
        && (r.state.overflow != multiset{} ==>
              r.state.queueSize.normal + PopOverflow(r.state.overflow).inner.size > s.maxNormal)
    decreases |s.overflow|
  {
    var r := Promote(s, dequeued, rev);
    if s.overflow != multiset{} && r.Promoted? {
      var next := PopOverflow(s.overflow);
      var size := next.inner.size;
      var k := BookedFlow(rev, dequeued, next);
      if s.queueSize.normal + size <= s.maxNormal {
        var s' := MoveToPrimary(s, next, k);
        PromoteTakesTopsInOrder(s', dequeued, rev);
        assert r == Promote(s', dequeued, rev);
        forall p, q | p in r.state.items - s.items && q in r.state.overflow
          ensures OverflowAtMost(q, p)
        {
          assert q in s.overflow;
          if p != next {
            assert p in r.state.items - s'.items;
          }
        }
      }
    }
  }

  /** The bytes of the promoted entries `moved` that the promotion loop books
      against flow `k`: as implemented, all of them go to the flow of the
      item being dequeued; corrected, each goes to its own flow. */
  ghost function Booked<K>(rev: Revision, dequeued: K, moved: multiset<HeapItem<K>>, k: K): nat
  {
    match rev
    case AsWritten => if k == dequeued then Bytes(moved) else 0
    case Corrected => FlowBytes(moved, k)
  }

  /** Booking one more promoted entry adds its size to the count of the flow
      it is booked against, and nothing to any other flow's. */
  lemma BookedAdd<K>(rev: Revision, dequeued: K, moved: multiset<HeapItem<K>>, next: HeapItem<K>, k: K)
    ensures Booked(rev, dequeued, moved + multiset{next}, k)
         == Booked(rev, dequeued, moved, k) + (if k == BookedFlow(rev, dequeued, next) then next.inner.size else 0)
  {
    match rev
    case AsWritten => SumAdd(moved, None, next);
    case Corrected => SumAdd(moved, Some(k), next);
  }

  /** What the promotion loop does to the flow ledger: every entry it
      promotes moves its bytes from the overflow to the primary count of
      the flow it is booked against (as implemented, the dequeued item's
      flow, whichever flow the entry belongs to), and nothing else in the
      ledger changes. */
  lemma {:induction false} PromoteBooks<K>(s: Wfq<K>, dequeued: K, rev: Revision)
    ensures var r := Promote(s, dequeued, rev);
      r.Promoted? ==>
        forall k | k in s.flows ::
          var b := Booked(rev, dequeued, r.state.items - s.items, k);
          && k in r.state.flows
          && r.state.flows[k].queueSize.normal == s.flows[k].queueSize.normal + b
          && r.state.flows[k].queueSize.overflow + b == s.flows[k].queueSize.overflow
          && r.state.flows[k].lastVft == s.flows[k].lastVft
    decreases |s.overflow|
  {
    var r := Promote(s, dequeued, rev);
    if r.Promoted? {
      if s.overflow == multiset{} || s.queueSize.normal + PopOverflow(s.overflow).inner.size > s.maxNormal {
        PromoteStops(s, dequeued, rev);
        assert r.state.items - s.items == multiset{};
      } else {
        var next := PopOverflow(s.overflow);
        var kb := BookedFlow(rev, dequeued, next);
        assert kb in s.flows && next.inner.size <= s.flows[kb].queueSize.overflow
            && next.inner.size <= s.queueSize.overflow;
        PromoteContinues(s, dequeued, rev, next, kb);
        var s' := MoveToPrimary(s, next, kb);
        PromoteBooks(s', dequeued, rev);
        PromoteBooksStep(s, dequeued, rev, next, r.state);
      }
    }
  }

  /** The inductive step of PromoteBooks: one round moved `next`, and the
      rest of the loop booked the entries it promoted after that. */
  lemma PromoteBooksStep<K>(s: Wfq<K>, dequeued: K, rev: Revision, next: HeapItem<K>, t: Wfq<K>)
    requires BookedFlow(rev, dequeued, next) in s.flows
    requires next.inner.size <= s.flows[BookedFlow(rev, dequeued, next)].queueSize.overflow
    requires next.inner.size <= s.queueSize.overflow
    requires var s' := MoveToPrimary(s, next, BookedFlow(rev, dequeued, next));
      && s'.items <= t.items
      && forall k | k in s'.flows ::
           var b := Booked(rev, dequeued, t.items - s'.items, k);
           && k in t.flows
           && t.flows[k].queueSize.normal == s'.flows[k].queueSize.normal + b
           && t.flows[k].queueSize.overflow + b == s'.flows[k].queueSize.overflow
           && t.flows[k].lastVft == s'.flows[k].lastVft
    ensures forall k | k in s.flows ::
      var b := Booked(rev, dequeued, t.items - s.items, k);
      && k in t.flows
      && t.flows[k].queueSize.normal == s.flows[k].queueSize.normal + b
      && t.flows[k].queueSize.overflow + b == s.flows[k].queueSize.overflow
      && t.flows[k].lastVft == s.flows[k].lastVft
  {
    var kb := BookedFlow(rev, dequeued, next);
    var s' := MoveToPrimary(s, next, kb);
    var rest := t.items - s'.items;
    assert s'.items == s.items + multiset{next};
    assert t.items - s.items == rest + multiset{next};
    forall k | k in s.flows
      ensures var b := Booked(rev, dequeued, t.items - s.items, k);
        && k in t.flows
        && t.flows[k].queueSize.normal == s.flows[k].queueSize.normal + b
        && t.flows[k].queueSize.overflow + b == s.flows[k].queueSize.overflow
        && t.flows[k].lastVft == s.flows[k].lastVft
    {
      BookedAdd(rev, dequeued, rest, next, k);
      assert k in s'.flows;
    }
  }

  /** What a dequeue that does not panic does to the flow ledger: the served
      item's bytes leave its own flow's primary count, every promoted entry's
      bytes move from overflow to primary in the flow it is booked against,
      no other count changes, last finish times are kept, and no flow but
      the served item's can disappear. */
  lemma DequeueBooksFlows<K>(s: Wfq<K>, rev: Revision)
    requires s.items != multiset{}
    ensures var r := DequeueRev(s, rev);
      var top := PopPrimary(s.items);
      r.Ok? ==>
        && r.state.flows.Keys - {top.inner.key} == s.flows.Keys - {top.inner.key}
        && forall k | k in r.state.flows ::
             var b := Booked(rev, top.inner.key, r.state.items - (s.items - multiset{top}), k);
             var d := if k == top.inner.key then top.inner.size else 0;
             && k in s.flows
             && r.state.flows[k].queueSize.normal + d == s.flows[k].queueSize.normal + b
             && r.state.flows[k].queueSize.overflow + b == s.flows[k].queueSize.overflow
             && r.state.flows[k].lastVft == s.flows[k].lastVft
  {
    var top := PopPrimary(s.items);
    var rel := Release(s, top, rev);
    if rel.Ok? {
      var p := Promote(rel.state, top.inner.key, rev);
      if p.Promoted? {
        assert DequeueRev(s, rev) == Ok(p.state, Some(top.inner));
        PromoteBooks(rel.state, top.inner.key, rev);
      }
    }
  }

  /** A dequeue that does not panic keeps the invariant, and whatever the
      flow ledger holds, a dequeue from a queue in the invariant never
      panics at the queue-wide subtractions: only the ledger can make it
      panic. */
  lemma DequeueKeepsValid<K>(s: Wfq<K>, rev: Revision)
    requires Valid(s)
    ensures DequeueRev(s, rev).Ok? ==> Valid(DequeueRev(s, rev).state)
    ensures DequeueRev(s, rev) != Panic(NormalUnderflow)
    ensures DequeueRev(s, rev) != Panic(OverflowUnderflow)
  {
    if s.items != multiset{} {
      var top := PopPrimary(s.items);
      DequeueSteps(s, top, rev);
    }
  }

  /** A dequeue of a non-empty primary heap in the invariant, step by step:
      the release cannot fail at the primary counter, and what follows it
      is the promotion loop, which cannot fail at the overflow counter and
      keeps the invariant. */
  lemma DequeueSteps<K>(s: Wfq<K>, top: HeapItem<K>, rev: Revision)
    requires Valid(s) && s.items != multiset{} && top == PopPrimary(s.items)
    ensures DequeueRev(s, rev).Ok? ==> Valid(DequeueRev(s, rev).state)
    ensures DequeueRev(s, rev) != Panic(NormalUnderflow)
    ensures DequeueRev(s, rev) != Panic(OverflowUnderflow)
  {
    ReleaseKeepsCounted(s, top, rev);
    var rel := Release(s, top, rev);
    if rel.Ok? {
      PromoteAfterReleaseKeepsValid(s, top, rev);
      var p := Promote(rel.state, top.inner.key, rev);
      if p.Promoted? {
        assert DequeueRev(s, rev) == Ok(p.state, Some(top.inner));
      } else {
        assert DequeueRev(s, rev) == Panic(p.site);
      }
    } else {
      assert DequeueRev(s, rev) == rel;
    }
  }

  /** The promotion that follows a successful release leaves a state in the
      invariant, and its queue-wide subtraction cannot fail. */
  lemma PromoteAfterReleaseKeepsValid<K>(s: Wfq<K>, top: HeapItem<K>, rev: Revision)
    requires Valid(s) && top in s.items
    requires Release(s, top, rev).Ok?
    ensures var p := Promote(Release(s, top, rev).state, top.inner.key, rev);
      && p != PromotionPanic(OverflowUnderflow)
      && (p.Promoted? ==> Valid(p.state))
  {
    var rel := Release(s, top, rev).state;
    ReleaseKeepsCounted(s, top, rev);
    PromoteKeepsCounted(rel, top.inner.key, rev);
    var p := Promote(rel, top.inner.key, rev);
    if p.Promoted? {
      SeqnosKeptOnDequeue(s, top, p.state);
    }
  }

  /** Releasing the popped entry's bytes keeps the queue-wide counters
      exact, and its subtraction from the primary counter cannot fail. */
  lemma ReleaseKeepsCounted<K>(s: Wfq<K>, top: HeapItem<K>, rev: Revision)
    requires Counted(s) && top in s.items
    ensures Release(s, top, rev) != Panic(NormalUnderflow)
    ensures Release(s, top, rev).Ok? ==> Counted(Release(s, top, rev).state)
  {
    SumRemove(s.items, None, top);
  }

  lemma SeqnosKeptOnDequeue<K>(s: Wfq<K>, top: HeapItem<K>, t: Wfq<K>)
    requires Valid(s)
    requires t.items + t.overflow == (s.items - multiset{top}) + s.overflow
    requires t.seqno == s.seqno
    ensures forall x | x in t.items + t.overflow :: x.seqno < t.seqno
    ensures UniqueSeqnos(t.items + t.overflow)
  {
    assert t.items + t.overflow <= s.items + s.overflow;
    UniqueSeqnosShrink(s.items + s.overflow, t.items + t.overflow);
  }

  /** Dequeue as implemented keeps the invariant whenever it does not panic. */
  lemma DequeueKeepsValidAsWritten<K>(s: Wfq<K>)
    requires Valid(s)
    ensures Dequeue(s).Ok? ==> Valid(Dequeue(s).state)
    ensures Dequeue(s) != Panic(NormalUnderflow) && Dequeue(s) != Panic(OverflowUnderflow)
  {
    DequeueKeepsValid(s, AsWritten);
  }

  /** With nothing waiting in overflow, two dequeues in a row come out in
      order of virtual finish time, and the virtual time does not go back. */
  lemma SuccessiveDequeuesOrdered<K>(s: Wfq<K>)
    requires s.overflow == multiset{}
    requires Dequeue(s).Ok? && Dequeue(s).out.Some?
    requires Dequeue(Dequeue(s).state).Ok? && Dequeue(Dequeue(s).state).out.Some?
    ensures Dequeue(s).state.virtualTime <= Dequeue(Dequeue(s).state).state.virtualTime
  {
    var s1 := Dequeue(s).state;
    var top2 := PopPrimary(s1.items);
    assert top2 in s1.items + s1.overflow;
  }
}
