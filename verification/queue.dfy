/**
 The queue's operations: construction, `enqueue`, and `dequeue` with its
 promotion loop.

 A dequeue either finishes (`Ok`) or reaches one of six places where it
 panics: an `expect` on a missing ledger entry, or an unsigned subtraction
 that would go below zero. Subtractions are taken as checked, as in a build
 with overflow checks on; a build without them wraps around instead. Those
 are the `Panic` outcomes, each naming its place.

 Dequeue's flow bookkeeping exists in two revisions. `AsWritten` is the
 implementation: a flow is torn down once its primary bytes reach zero,
 whatever it still holds in overflow, and the promotion loop books every
 promoted item against the flow of the item being dequeued. `Corrected`
 tears a flow down only when it holds no bytes at all and books each
 promoted item against its own flow. `Dequeue` is the implementation,
 `DequeueCorrected` the corrected variant; everything else is shared.
 */
module Queue {
  import opened WfqTypes
  import opened HeapOrder

  /** A queue with nothing buffered and a primary bound of `maxNormal` bytes. */
  ghost function New<K>(maxNormal: nat): (r: Wfq<K>)
  {
    Wfq(multiset{}, multiset{}, map[], QueueSize(0, 0), maxNormal, 0, 0)
  }

  /** The ledger entry an arriving item of flow `k` is booked against: the
      existing one, or a fresh one starting at the queue's virtual time. */
  ghost function FlowOf<K>(s: Wfq<K>, k: K): (f: FlowState)
  {
    if k in s.flows then s.flows[k] else FlowState(QueueSize(0, 0), s.virtualTime)
  }

  /** The heap entry `enqueue` makes of `item`: the next arrival number, and
      a virtual finish time of size times weight past its flow's last one. */
  ghost function Stamp<K>(s: Wfq<K>, item: Item<K>): (h: HeapItem<K>)
  {
    HeapItem(item, s.seqno, FlowOf(s, item.key).lastVft + item.size * item.weight)
  }

  /** A flow's ledger entry is looked up when present; an absent flow starts
      empty at the queue's virtual time. The stamped entry carries the item,
      the queue's next arrival number, and a finish time that lies past the
      flow's last one by exactly size times weight, so it is later exactly
      when the item has bytes. */
  lemma StampFollowsFlow<K>(s: Wfq<K>, item: Item<K>)
    ensures item.key in s.flows ==> FlowOf(s, item.key) == s.flows[item.key]
    ensures item.key !in s.flows ==>
      FlowOf(s, item.key).queueSize.Total() == 0 && FlowOf(s, item.key).lastVft == s.virtualTime
    ensures Stamp(s, item).inner == item && Stamp(s, item).seqno == s.seqno
    ensures Stamp(s, item).vft - FlowOf(s, item.key).lastVft == item.size * item.weight
    ensures FlowOf(s, item.key).lastVft < Stamp(s, item).vft <==> item.size > 0
  {
    assert item.size > 0 ==> item.size * item.weight >= item.size;
  }

  /** Admission. There is no rejection: the item is always taken, and the
      byte total grows by exactly its size without the primary heap going
      past its bound. Where it goes is stated by EnqueueRoutes. */
  ghost function Enqueue<K>(s: Wfq<K>, item: Item<K>): (r: Wfq<K>)
    ensures r.queueSize.Total() == s.queueSize.Total() + item.size
    ensures s.queueSize.normal <= s.maxNormal ==> r.queueSize.normal <= r.maxNormal
    ensures r.seqno == s.seqno + 1
  {
    var h := Stamp(s, item);
    var flow := FlowOf(s, item.key);
    if s.queueSize.normal + item.size > s.maxNormal then
      var fq := flow.queueSize.(overflow := flow.queueSize.overflow + item.size);
      s.(overflow := s.overflow + multiset{h},
         flows := s.flows[item.key := FlowState(fq, h.vft)],
         queueSize := s.queueSize.(overflow := s.queueSize.overflow + item.size),
         seqno := s.seqno + 1)
    else
      var fq := flow.queueSize.(normal := flow.queueSize.normal + item.size);
      s.(items := s.items + multiset{h},
         flows := s.flows[item.key := FlowState(fq, h.vft)],
         queueSize := s.queueSize.(normal := s.queueSize.normal + item.size),
         seqno := s.seqno + 1)
  }

  /** The item goes to the overflow heap exactly when the primary heap's
      bytes plus its own size would pass the bound, and to the primary heap
      otherwise; the admitted entry is Stamp(s, item), its flow's ledger
      entry now ends at the entry's virtual finish time and counts the item's
      bytes in the heap it went to, and no other flow's entry changes. */
  lemma EnqueueRoutes<K>(s: Wfq<K>, item: Item<K>)
    ensures var r := Enqueue(s, item);
      && r.items + r.overflow == s.items + s.overflow + multiset{Stamp(s, item)}
      && (r.overflow == s.overflow + multiset{Stamp(s, item)} <==> s.queueSize.normal + item.size > s.maxNormal)
      && (r.items == s.items + multiset{Stamp(s, item)} <==> s.queueSize.normal + item.size <= s.maxNormal)
      && item.key in r.flows && r.flows[item.key].lastVft == Stamp(s, item).vft
      && r.flows[item.key].queueSize ==
           (var fq := FlowOf(s, item.key).queueSize;
            if s.queueSize.normal + item.size > s.maxNormal then QueueSize(fq.normal, fq.overflow + item.size)
            else QueueSize(fq.normal + item.size, fq.overflow))
      && r.flows.Keys == s.flows.Keys + {item.key}
      && (forall k | k in s.flows && k != item.key :: r.flows[k] == s.flows[k])
      && r.maxNormal == s.maxNormal && r.virtualTime == s.virtualTime
  {
  }

  datatype Revision = AsWritten | Corrected

  /** The places where a dequeue panics. */
  datatype PanicSite =
    | NormalUnderflow        // primary byte counter below the item's size
    | FlowMissing            // no ledger entry for the dequeued item's flow
    | FlowNormalUnderflow    // that flow's primary bytes below the item's size
    | PromotedFlowMissing    // no ledger entry for the flow a promotion books
    | FlowOverflowUnderflow  // that flow's overflow bytes below the promoted size
    | OverflowUnderflow      // overflow byte counter below the promoted size

  datatype Promotion<K> = Promoted(state: Wfq<K>) | PromotionPanic(site: PanicSite)

  datatype DeqResult<K> = Ok(state: Wfq<K>, out: Option<Item<K>>) | Panic(site: PanicSite)

  /** Whether a flow whose counters are `q` after the dequeued bytes left its
      primary count is dropped from the ledger. */
  function TornDown(rev: Revision, q: QueueSize): bool
  {
    match rev
    case AsWritten => q.normal == 0
    case Corrected => q.Total() == 0
  }

  /** The flow whose ledger entry a promotion of `next` is booked against,
      while the item of flow `dequeued` is being dequeued. */
  function BookedFlow<K>(rev: Revision, dequeued: K, next: HeapItem<K>): K
  {
    match rev
    case AsWritten => dequeued
    case Corrected => next.inner.key
  }

  /** One round of the promotion loop: `next` leaves the overflow heap for
      the primary heap, and its bytes move from the overflow to the primary
      counters, both queue-wide and in the ledger entry of flow `k`. */
  ghost function MoveToPrimary<K>(s: Wfq<K>, next: HeapItem<K>, k: K): (r: Wfq<K>)
    requires k in s.flows
    requires next.inner.size <= s.flows[k].queueSize.overflow
    requires next.inner.size <= s.queueSize.overflow
  {
    var size := next.inner.size;
    var fq := s.flows[k].queueSize;
    s.(items := s.items + multiset{next},
       overflow := s.overflow - multiset{next},
       flows := s.flows[k := s.flows[k].(queueSize := QueueSize(fq.normal + size, fq.overflow - size))],
       queueSize := QueueSize(s.queueSize.normal + size, s.queueSize.overflow - size))
  }

  /** A promotion round moves `next` from the overflow heap to the primary
      heap and its bytes from overflow to primary, both in the queue-wide
      counters and in flow `k`'s entry, whose total and finish time stay put;
      no other flow's entry changes. */
  lemma MoveShiftsBytes<K>(s: Wfq<K>, next: HeapItem<K>, k: K)
    requires k in s.flows
    requires next.inner.size <= s.flows[k].queueSize.overflow
    requires next.inner.size <= s.queueSize.overflow
    ensures var r := MoveToPrimary(s, next, k);
      && (next in s.overflow ==> r.items + r.overflow == s.items + s.overflow)
      && r.items == s.items + multiset{next}
      && r.queueSize.normal == s.queueSize.normal + next.inner.size
      && r.queueSize.Total() == s.queueSize.Total()
      && r.flows.Keys == s.flows.Keys
      && r.flows[k].queueSize.normal == s.flows[k].queueSize.normal + next.inner.size
      && r.flows[k].queueSize.Total() == s.flows[k].queueSize.Total()
      && r.flows[k].lastVft == s.flows[k].lastVft
      && (forall j | j in s.flows && j != k :: r.flows[j] == s.flows[j])
  {
  }

  /** The promotion loop: move the overflow heap's top into the primary heap
      while it fits under the bound, and stop at the first top that does not
      fit, even if a lower-ranked entry would. Moved entries keep their
      virtual finish times, and every entry moved ranks at least as high in
      the overflow order as every entry left behind. */
  ghost function Promote<K>(s: Wfq<K>, dequeued: K, rev: Revision): (r: Promotion<K>)
    ensures r.Promoted? ==>
      && r.state.items + r.state.overflow == s.items + s.overflow
      && s.items <= r.state.items
      && r.state.overflow <= s.overflow
      && (s.queueSize.normal <= s.maxNormal ==> r.state.queueSize.normal <= s.maxNormal)
      && r.state.maxNormal == s.maxNormal
      && r.state.virtualTime == s.virtualTime
      && r.state.seqno == s.seqno
      && r.state.flows.Keys == s.flows.Keys
    ensures r.PromotionPanic? ==> r.site in {PromotedFlowMissing, FlowOverflowUnderflow, OverflowUnderflow}
    decreases |s.overflow|
  {
    if s.overflow == multiset{} then Promoted(s)
    else
      var next := PopOverflow(s.overflow);
      var size := next.inner.size;
      if s.queueSize.normal + size > s.maxNormal then Promoted(s)
      else
        var k := BookedFlow(rev, dequeued, next);
        if k !in s.flows then PromotionPanic(PromotedFlowMissing)
        else
          var fq := s.flows[k].queueSize;
          if fq.overflow < size then PromotionPanic(FlowOverflowUnderflow)
          else if s.queueSize.overflow < size then PromotionPanic(OverflowUnderflow)
          else
            Promote(MoveToPrimary(s, next, k), dequeued, rev)
  }

  /** The state after the primary heap's top `top` has been popped and its
      bytes released, before promotion; `Panic(site)` when a subtraction or
      the ledger lookup panics, naming the place. */
  ghost function Release<K>(s: Wfq<K>, top: HeapItem<K>, rev: Revision): (r: DeqResult<K>)
    ensures r.Ok? ==>
      && r.state.items == s.items - multiset{top}
      && r.state.overflow == s.overflow
      && r.state.virtualTime == top.vft
      && r.state.queueSize.normal + top.inner.size == s.queueSize.normal
      && r.state.queueSize.overflow == s.queueSize.overflow
      && r.state.maxNormal == s.maxNormal && r.state.seqno == s.seqno
      && top.inner.key in s.flows
      && var fq := s.flows[top.inner.key].queueSize;
         && top.inner.size <= fq.normal
         && (top.inner.key in r.state.flows <==> !TornDown(rev, QueueSize(fq.normal - top.inner.size, fq.overflow)))
         && (top.inner.key in r.state.flows ==>
               r.state.flows[top.inner.key] == s.flows[top.inner.key].(queueSize := QueueSize(fq.normal - top.inner.size, fq.overflow)))
         && r.state.flows.Keys - {top.inner.key} == s.flows.Keys - {top.inner.key}
         && (forall k | k != top.inner.key && k in s.flows :: k in r.state.flows && r.state.flows[k] == s.flows[k])
  {
    var key := top.inner.key;
    var size := top.inner.size;
    if s.queueSize.normal < size then Panic(NormalUnderflow)
    else if key !in s.flows then Panic(FlowMissing)
    else
      var fq := s.flows[key].queueSize;
      if fq.normal < size then Panic(FlowNormalUnderflow)
      else
        var fq' := fq.(normal := fq.normal - size);
        var flows := if TornDown(rev, fq') then s.flows - {key} else s.flows[key := s.flows[key].(queueSize := fq')];
        Ok(s.(items := s.items - multiset{top},
              flows := flows,
              queueSize := s.queueSize.(normal := s.queueSize.normal - size),
              virtualTime := top.vft),
           None)
  }

  /** Dequeue under either revision of the flow bookkeeping. */
  ghost function DequeueRev<K>(s: Wfq<K>, rev: Revision): (r: DeqResult<K>)
    ensures s.items == multiset{} ==> r == Ok(s, None)
    ensures r.Ok? ==> (r.out.None? <==> s.items == multiset{})
  {
    if s.items == multiset{} then Ok(s, None)
    else
      var top := PopPrimary(s.items);
      match Release(s, top, rev)
      case Panic(site) => Panic(site)
      case Ok(released, _) =>
        match Promote(released, top.inner.key, rev)
        case PromotionPanic(site) => Panic(site)
        case Promoted(t) => Ok(t, Some(top.inner))
  }

  /** A dequeue that does not panic hands out the item of minimal virtual
      finish time, moves the virtual time to it, takes exactly that entry
      out of the queue, keeps the primary heap within its bound, and tears
      the item's flow down exactly when the revision's teardown test says
      so. */
  lemma DequeueServesMinimum<K>(s: Wfq<K>, rev: Revision)
    requires s.items != multiset{}
    ensures var r := DequeueRev(s, rev);
      r.Ok? ==>
      var top := PopPrimary(s.items);
      && r.out == Some(top.inner)
      && (forall y | y in s.items :: top.vft <= y.vft)
      && r.state.virtualTime == top.vft
      && r.state.items + r.state.overflow == s.items + s.overflow - multiset{top}
      && (s.queueSize.normal <= s.maxNormal ==> r.state.queueSize.normal <= r.state.maxNormal)
      && r.state.maxNormal == s.maxNormal && r.state.seqno == s.seqno
      && top.inner.key in s.flows
      && var fq := s.flows[top.inner.key].queueSize;
         && top.inner.size <= fq.normal
         && (top.inner.key in r.state.flows <==> !TornDown(rev, QueueSize(fq.normal - top.inner.size, fq.overflow)))
  {
    var top := PopPrimary(s.items);
    var rel := Release(s, top, rev);
    if rel.Ok? {
      var p := Promote(rel.state, top.inner.key, rev);
      if p.Promoted? {
        assert DequeueRev(s, rev) == Ok(p.state, Some(top.inner));
        assert s.items + s.overflow - multiset{top} == (s.items - multiset{top}) + s.overflow;
      }
    }
  }

  /** Dequeue as implemented. Returns nothing exactly when the primary heap
      is empty, however much waits in overflow, and then changes nothing. */
  ghost function Dequeue<K>(s: Wfq<K>): (r: DeqResult<K>)
    ensures s.items == multiset{} <==> r == Ok(s, None)
  {
    DequeueRev(s, AsWritten)
  }

  /** Dequeue with the corrected flow bookkeeping. Returns nothing exactly
      when the primary heap is empty, and then changes nothing. */
  ghost function DequeueCorrected<K>(s: Wfq<K>): (r: DeqResult<K>)
    ensures s.items == multiset{} <==> r == Ok(s, None)
  {
    DequeueRev(s, Corrected)
  }

  /** As implemented, a dequeue tears the item's flow down when its primary
      bytes reach zero, whatever it still holds in overflow. */
  lemma DequeueTearsDownOnPrimaryBytes<K>(s: Wfq<K>)
    requires s.items != multiset{} && Dequeue(s).Ok?
    ensures var top := PopPrimary(s.items);
      && top.inner.key in s.flows
      && (top.inner.key in Dequeue(s).state.flows <==> s.flows[top.inner.key].queueSize.normal != top.inner.size)
  {
    DequeueServesMinimum(s, AsWritten);
  }

  /** With the corrected bookkeeping, a dequeue tears the item's flow down
      exactly when it has no bytes left in either heap. */
  lemma DequeueCorrectedTearsDownOnTotal<K>(s: Wfq<K>)
    requires s.items != multiset{} && DequeueCorrected(s).Ok?
    ensures var top := PopPrimary(s.items);
      && top.inner.key in s.flows
      && (top.inner.key in DequeueCorrected(s).state.flows <==> s.flows[top.inner.key].queueSize.Total() != top.inner.size)
  {
    DequeueServesMinimum(s, Corrected);
  }
}
