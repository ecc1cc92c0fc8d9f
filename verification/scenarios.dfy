/**
 Concrete runs, flows named by characters, every one starting from a queue
 with a 100-byte primary bound. Each run is taken one operation at a time,
 with the state after each step written out.
 */
module Scenarios {
  import opened WfqTypes
  import opened HeapOrder
  import opened Accounting
  import opened Queue
  import opened QueueProofs
  import opened Corrected

  // ---------------------------------------------------------------------
  // Two flows: A sends 60 bytes at weight 1, then B 60 bytes at weight 3.
  // A's item fits the primary heap; B's does not and waits in overflow.
  // ---------------------------------------------------------------------

  const ItemA := Item('A', 1, 60)
  const ItemB := Item('B', 3, 60)
  const EntryA := HeapItem(ItemA, 0, 60)
  const EntryB := HeapItem(ItemB, 1, 180)

  const OnlyA := Wfq(multiset{EntryA}, multiset{}, map['A' := FlowState(QueueSize(60, 0), 60)],
                     QueueSize(60, 0), 100, 0, 1)
  const TwoFlowsState := Wfq(multiset{EntryA}, multiset{EntryB},
                             map['A' := FlowState(QueueSize(60, 0), 60), 'B' := FlowState(QueueSize(0, 60), 180)],
                             QueueSize(60, 60), 100, 0, 2)
  /** TwoFlows once A's item has been served and released, A's entry gone. */
  const OnlyBWaiting := Wfq(multiset{}, multiset{EntryB}, map['B' := FlowState(QueueSize(0, 60), 180)],
                            QueueSize(0, 60), 100, 60, 2)
  /** OnlyBWaiting once B's item has been promoted against B's own entry. */
  const OnlyBServed := Wfq(multiset{EntryB}, multiset{}, map['B' := FlowState(QueueSize(60, 0), 180)],
                           QueueSize(60, 0), 100, 60, 2)

  ghost function TwoFlows(): Wfq<char>
  {
    Enqueue(Enqueue(New<char>(100), ItemA), ItemB)
  }

  lemma AdmitA()
    ensures Enqueue(New<char>(100), ItemA) == OnlyA
  {
    assert Enqueue(New<char>(100), ItemA) == OnlyA;
  }

  lemma AdmitB()
    ensures Enqueue(OnlyA, ItemB) == TwoFlowsState
  {
    assert Enqueue(OnlyA, ItemB) == TwoFlowsState;
  }

  lemma TwoFlowsShape()
    ensures TwoFlows() == TwoFlowsState
  {
    AdmitA();
    AdmitB();
  }

  lemma OnlyAConsistent()
    ensures Valid(OnlyA) && LedgerConsistent(OnlyA)
  {
    NewIsEmptyAndValid<char>(100);
    AdmitA();
    EnqueueKeepsValid(New<char>(100), ItemA);
    EnqueueKeepsLedger(New<char>(100), ItemA);
  }

  /** TwoFlows is reached by two admissions from a new queue and holds both
      the queue-wide invariant and an exact ledger. */
  lemma TwoFlowsConsistent()
    ensures Valid(TwoFlows()) && LedgerConsistent(TwoFlows())
  {
    OnlyAConsistent();
    TwoFlowsShape();
    EnqueueKeepsValid(OnlyA, ItemB);
    EnqueueKeepsLedger(OnlyA, ItemB);
  }

  /** Serving A's item releases it under either revision: A's entry has no
      bytes left in either heap, so both tear it down. */
  lemma TwoFlowsReleaseA(rev: Revision)
    ensures PopPrimary(TwoFlowsState.items) == EntryA
    ensures Release(TwoFlowsState, EntryA, rev) == Ok(OnlyBWaiting, None)
  {
    assert PopPrimary(TwoFlowsState.items) in multiset{EntryA};
    assert TwoFlowsState.flows - {'A'} == OnlyBWaiting.flows;
    assert TwoFlowsState.items - multiset{EntryA} == multiset{};
    assert Release(TwoFlowsState, EntryA, rev) == Ok(OnlyBWaiting, None);
  }

  lemma OnlyBWaitingPromotion()
    ensures PopOverflow(OnlyBWaiting.overflow) == EntryB
    ensures Promote(OnlyBWaiting, 'A', AsWritten) == PromotionPanic(PromotedFlowMissing)
    ensures Promote(OnlyBWaiting, 'A', Corrected) == Promoted(OnlyBServed)
  {
    assert PopOverflow(OnlyBWaiting.overflow) in multiset{EntryB};
    assert MoveToPrimary(OnlyBWaiting, EntryB, 'B') == OnlyBServed;
    PromoteStops(OnlyBServed, 'A', Corrected);
  }

  /** As implemented, dequeuing from TwoFlows panics: A's entry is torn
      down once its primary bytes reach zero, and the promotion of B's item
      then looks up A's entry, not B's. */
  lemma PromotionLooksUpDequeuedFlow()
    ensures Valid(TwoFlows()) && LedgerConsistent(TwoFlows())
    ensures Dequeue(TwoFlows()) == Panic(PromotedFlowMissing)
  {
    TwoFlowsConsistent();
    TwoFlowsShape();
    TwoFlowsReleaseA(AsWritten);
    OnlyBWaitingPromotion();
    DequeuePanicsInPromotion(TwoFlowsState, AsWritten, EntryA, OnlyBWaiting, PromotedFlowMissing);
  }

  /** With the corrected bookkeeping the same run serves A, promotes B's
      item into the freed room (OnlyBServed), serves B, and ends with an
      empty queue and an empty ledger (EmptiedAt180). */
  lemma CorrectedServesBothFlows()
    ensures DequeueCorrected(TwoFlows()) == Ok(OnlyBServed, Some(ItemA))
    ensures DequeueCorrected(OnlyBServed) == Ok(EmptiedAt180, Some(ItemB))
  {
    ServeA();
    ServeOnlyB();
  }

  /** TwoFlows after its first corrected dequeue. */
  lemma ServeA()
    ensures DequeueCorrected(TwoFlows()) == Ok(OnlyBServed, Some(ItemA))
  {
    TwoFlowsShape();
    TwoFlowsReleaseA(Corrected);
    OnlyBWaitingPromotion();
    DequeueUnfolds(TwoFlowsState, Corrected, EntryA, OnlyBWaiting, OnlyBServed);
    assert DequeueCorrected(TwoFlows()) == Ok(OnlyBServed, Some(ItemA));
  }

  /** Nothing buffered, no flow in the ledger, virtual time at B's finish. */
  const EmptiedAt180: Wfq<char> := Wfq(multiset{}, multiset{}, map[], QueueSize(0, 0), 100, 180, 2)

  lemma ServeOnlyB()
    ensures DequeueCorrected(OnlyBServed) == Ok(EmptiedAt180, Some(ItemB))
  {
    assert PopPrimary(OnlyBServed.items) in multiset{EntryB};
    assert OnlyBServed.flows - {'B'} == map[];
    assert OnlyBServed.items - multiset{EntryB} == multiset{};
    assert Release(OnlyBServed, EntryB, Corrected) == Ok(EmptiedAt180, None);
    PromoteStops(EmptiedAt180, 'B', Corrected);
    DequeueUnfolds(OnlyBServed, Corrected, EntryB, EmptiedAt180, EmptiedAt180);
  }

  // ---------------------------------------------------------------------
  // One flow, twice: A sends two 60-byte items; the second waits in
  // overflow.
  // ---------------------------------------------------------------------

  const EntryA2 := HeapItem(ItemA, 1, 120)

  const OneFlowTwiceState := Wfq(multiset{EntryA}, multiset{EntryA2},
                                 map['A' := FlowState(QueueSize(60, 60), 120)],
                                 QueueSize(60, 60), 100, 0, 2)

  ghost function OneFlowTwice(): Wfq<char>
  {
    Enqueue(Enqueue(New<char>(100), ItemA), ItemA)
  }

  lemma AdmitASecond()
    ensures Enqueue(OnlyA, ItemA) == OneFlowTwiceState
  {
    assert Enqueue(OnlyA, ItemA) == OneFlowTwiceState;
  }

  lemma OneFlowTwiceShape()
    ensures OneFlowTwice() == OneFlowTwiceState
  {
    AdmitA();
    AdmitASecond();
  }

  /** The release of A's first item under each revision: as implemented the
      entry goes although 60 bytes of A wait in overflow; corrected, it
      stays with those 60 bytes. */
  lemma OneFlowTwiceRelease()
    ensures PopPrimary(OneFlowTwiceState.items) == EntryA
    ensures Release(OneFlowTwiceState, EntryA, AsWritten)
         == Ok(Wfq(multiset{}, multiset{EntryA2}, map[], QueueSize(0, 60), 100, 60, 2), None)
    ensures Release(OneFlowTwiceState, EntryA, Corrected)
         == Ok(Wfq(multiset{}, multiset{EntryA2}, map['A' := FlowState(QueueSize(0, 60), 120)],
                   QueueSize(0, 60), 100, 60, 2), None)
  {
    assert PopPrimary(OneFlowTwiceState.items) in multiset{EntryA};
    assert OneFlowTwiceState.flows - {'A'} == map[];
    assert OneFlowTwiceState.items - multiset{EntryA} == multiset{};
    assert Release(OneFlowTwiceState, EntryA, AsWritten)
        == Ok(Wfq(multiset{}, multiset{EntryA2}, map[], QueueSize(0, 60), 100, 60, 2), None);
    assert Release(OneFlowTwiceState, EntryA, Corrected)
        == Ok(Wfq(multiset{}, multiset{EntryA2}, map['A' := FlowState(QueueSize(0, 60), 120)],
                  QueueSize(0, 60), 100, 60, 2), None);
  }

  lemma OneFlowTwicePromotion()
    ensures Promote(Wfq(multiset{}, multiset{EntryA2}, map[], QueueSize(0, 60), 100, 60, 2), 'A', AsWritten)
         == PromotionPanic(PromotedFlowMissing)
    ensures Promote(Wfq(multiset{}, multiset{EntryA2}, map['A' := FlowState(QueueSize(0, 60), 120)],
                        QueueSize(0, 60), 100, 60, 2), 'A', Corrected)
         == Promoted(Wfq(multiset{EntryA2}, multiset{}, map['A' := FlowState(QueueSize(60, 0), 120)],
                         QueueSize(60, 0), 100, 60, 2))
  {
    assert PopOverflow(multiset{EntryA2}) in multiset{EntryA2};
    PromoteStops(Wfq(multiset{EntryA2}, multiset{}, map['A' := FlowState(QueueSize(60, 0), 120)],
                     QueueSize(60, 0), 100, 60, 2), 'A', Corrected);
  }

  /** As implemented, a single flow with one item in each heap panics on
      dequeue: its entry is torn down while 60 of its bytes wait in
      overflow, and promoting them looks the entry up again. Booking against
      the promoted item's own flow would not help; tearing down only empty
      flows does. */
  lemma TearDownIgnoresOverflow()
    ensures Dequeue(OneFlowTwice()) == Panic(PromotedFlowMissing)
    ensures DequeueCorrected(OneFlowTwice()).Ok?
    ensures DequeueCorrected(OneFlowTwice()).out == Some(ItemA)
  {
    OneFlowTwiceShape();
    OneFlowTwiceRelease();
    OneFlowTwicePromotion();
    DequeuePanicsInPromotion(OneFlowTwiceState, AsWritten, EntryA,
                             Wfq(multiset{}, multiset{EntryA2}, map[], QueueSize(0, 60), 100, 60, 2), PromotedFlowMissing);
    DequeueUnfolds(OneFlowTwiceState, Corrected, EntryA,
                   Wfq(multiset{}, multiset{EntryA2}, map['A' := FlowState(QueueSize(0, 60), 120)], QueueSize(0, 60), 100, 60, 2),
                   Wfq(multiset{EntryA2}, multiset{}, map['A' := FlowState(QueueSize(60, 0), 120)], QueueSize(60, 0), 100, 60, 2));
  }

  // ---------------------------------------------------------------------
  // A crowded queue: A sends three 50-byte items at weight 1, then B one
  // 50-byte item at weight 3. A's first two fill the primary heap; A's
  // third and B's wait in overflow.
  // ---------------------------------------------------------------------

  const ItemA50 := Item('A', 1, 50)
  const ItemB50 := Item('B', 3, 50)
  const A1 := HeapItem(ItemA50, 0, 50)
  const A2 := HeapItem(ItemA50, 1, 100)
  const A3 := HeapItem(ItemA50, 2, 150)
  const B1 := HeapItem(ItemB50, 3, 150)

  const CrowdedStep1 := Wfq(multiset{A1}, multiset{}, map['A' := FlowState(QueueSize(50, 0), 50)],
                            QueueSize(50, 0), 100, 0, 1)
  const CrowdedStep2 := Wfq(multiset{A1, A2}, multiset{}, map['A' := FlowState(QueueSize(100, 0), 100)],
                            QueueSize(100, 0), 100, 0, 2)
  const CrowdedStep3 := Wfq(multiset{A1, A2}, multiset{A3}, map['A' := FlowState(QueueSize(100, 50), 150)],
                            QueueSize(100, 50), 100, 0, 3)
  const CrowdedState := Wfq(multiset{A1, A2}, multiset{A3, B1},
                            map['A' := FlowState(QueueSize(100, 50), 150), 'B' := FlowState(QueueSize(0, 50), 150)],
                            QueueSize(100, 100), 100, 0, 4)
  /** CrowdedState after A's first item has left and before promotion. */
  const CrowdedReleased := Wfq(multiset{A2}, multiset{A3, B1},
                               map['A' := FlowState(QueueSize(50, 50), 150), 'B' := FlowState(QueueSize(0, 50), 150)],
                               QueueSize(50, 100), 100, 50, 4)
  /** What the implementation leaves after dequeuing A's first item. */
  const Misbooked := Wfq(multiset{A2, B1}, multiset{A3},
                         map['A' := FlowState(QueueSize(100, 0), 150), 'B' := FlowState(QueueSize(0, 50), 150)],
                         QueueSize(100, 50), 100, 50, 4)

  ghost function Crowded(): Wfq<char>
  {
    Enqueue(Enqueue(Enqueue(Enqueue(New<char>(100), ItemA50), ItemA50), ItemA50), ItemB50)
  }

  lemma CrowdedAdmit1()
    ensures Enqueue(New<char>(100), ItemA50) == CrowdedStep1
  {
    assert Enqueue(New<char>(100), ItemA50) == CrowdedStep1;
  }

  lemma CrowdedAdmit2()
    ensures Enqueue(CrowdedStep1, ItemA50) == CrowdedStep2
  {
    assert Enqueue(CrowdedStep1, ItemA50) == CrowdedStep2;
  }

  lemma CrowdedAdmit3()
    ensures Enqueue(CrowdedStep2, ItemA50) == CrowdedStep3
  {
    assert Enqueue(CrowdedStep2, ItemA50) == CrowdedStep3;
  }

  lemma CrowdedAdmit4()
    ensures Enqueue(CrowdedStep3, ItemB50) == CrowdedState
  {
    assert Enqueue(CrowdedStep3, ItemB50) == CrowdedState;
  }

  lemma CrowdedShape()
    ensures Crowded() == CrowdedState
  {
    CrowdedAdmit1();
    CrowdedAdmit2();
    CrowdedAdmit3();
    CrowdedAdmit4();
  }

  /** Every state of the crowded run has an exact ledger. */
  lemma CrowdedConsistent()
    ensures LedgerConsistent(Crowded())
  {
    CrowdedShape();
    CrowdedStep3Consistent();
    CrowdedAdmit4();
    EnqueueKeepsLedger(CrowdedStep3, ItemB50);
  }

  lemma CrowdedStep1Consistent()
    ensures LedgerConsistent(CrowdedStep1)
  {
    NewIsEmptyAndValid<char>(100);
    CrowdedAdmit1();
    EnqueueKeepsLedger(New<char>(100), ItemA50);
  }

  lemma CrowdedStep3Consistent()
    ensures LedgerConsistent(CrowdedStep3)
  {
    CrowdedStep1Consistent();
    CrowdedAdmit2();
    EnqueueKeepsLedger(CrowdedStep1, ItemA50);
    CrowdedAdmit3();
    EnqueueKeepsLedger(CrowdedStep2, ItemA50);
  }

  lemma CrowdedRelease()
    ensures PopPrimary(CrowdedState.items) == A1
    ensures Release(CrowdedState, A1, AsWritten) == Ok(CrowdedReleased, None)
  {
    assert PopPrimary(CrowdedState.items) in multiset{A1, A2};
    assert CrowdedState.items - multiset{A1} == multiset{A2};
    assert Release(CrowdedState, A1, AsWritten) == Ok(CrowdedReleased, None);
  }

  /** The overflow heap's top is B's item, the heavier one; it fits, is
      booked against A, and A's third item then no longer fits. */
  lemma CrowdedPromotion()
    ensures Promote(CrowdedReleased, 'A', AsWritten) == Promoted(Misbooked)
  {
    assert PopOverflow(CrowdedReleased.overflow) in multiset{A3, B1};
    assert PopOverflow(CrowdedReleased.overflow) == B1;
    assert multiset{A3, B1} - multiset{B1} == multiset{A3};
    assert MoveToPrimary(CrowdedReleased, B1, 'A') == Misbooked;
    assert PopOverflow(Misbooked.overflow) in multiset{A3};
    PromoteStops(Misbooked, 'A', AsWritten);
  }

  lemma DequeueCrowded()
    ensures Dequeue(Crowded()) == Ok(Misbooked, Some(ItemA50))
  {
    CrowdedShape();
    CrowdedRelease();
    CrowdedPromotion();
    DequeueUnfolds(CrowdedState, AsWritten, A1, CrowdedReleased, Misbooked);
  }

  lemma MisbookedIsInconsistent()
    ensures !LedgerConsistent(Misbooked)
  {
    FlowBytesAbsent(Misbooked.overflow, 'B');
  }

  /** As implemented, dequeuing A's first item promotes B's (the heavier)
      and books its bytes against A: from an exact ledger the dequeue
      succeeds but leaves a wrong one, with B's item counted as still in
      overflow and A's overflow count at zero while A's third item waits
      there. */
  lemma PromotionMisbooks()
    ensures LedgerConsistent(Crowded())
    ensures Dequeue(Crowded()) == Ok(Misbooked, Some(ItemA50))
    ensures !LedgerConsistent(Misbooked)
  {
    CrowdedConsistent();
    DequeueCrowded();
    MisbookedIsInconsistent();
  }

  /** The wrong ledger then makes the next dequeue panic: promoting A's
      third item subtracts 50 bytes from A's overflow count of zero. */
  lemma MisbookingPanicsLater()
    ensures Dequeue(Misbooked) == Panic(FlowOverflowUnderflow)
  {
    var rel := Wfq(multiset{B1}, multiset{A3},
                   map['A' := FlowState(QueueSize(50, 0), 150), 'B' := FlowState(QueueSize(0, 50), 150)],
                   QueueSize(50, 50), 100, 100, 4);
    assert PopPrimary(Misbooked.items) in multiset{A2, B1};
    assert PopPrimary(Misbooked.items) == A2;
    assert Misbooked.items - multiset{A2} == multiset{B1};
    assert Release(Misbooked, A2, AsWritten) == Ok(rel, None);
    assert PopOverflow(rel.overflow) in multiset{A3};
  }

  // ---------------------------------------------------------------------
  // An item larger than the primary bound.
  // ---------------------------------------------------------------------

  const ItemA200 := Item('A', 1, 200)
  const AloneInOverflow := Wfq(multiset{}, multiset{HeapItem(ItemA200, 0, 200)},
                               map['A' := FlowState(QueueSize(0, 200), 200)], QueueSize(0, 200), 100, 0, 1)

  /** One 200-byte item can never fit the 100-byte primary heap: it waits
      in overflow, and dequeue reports an empty queue and changes nothing. */
  lemma OverflowWaitsForPrimary()
    ensures var s := Enqueue(New<char>(100), ItemA200);
      && s.items == multiset{} && s.overflow != multiset{}
      && Dequeue(s) == Ok(s, None)
  {
    assert Enqueue(New<char>(100), ItemA200) == AloneInOverflow;
  }

  // ---------------------------------------------------------------------
  // A large overflow top: A sends 90 bytes; then B sends 150 bytes at
  // weight 5 and C sends 20 bytes, both into overflow. Dequeuing A frees
  // the whole primary heap, but B's item, the overflow heap's top, does
  // not fit, so promotion stops there and C's item stays in overflow
  // although it would fit.
  // ---------------------------------------------------------------------

  const ItemA90 := Item('A', 1, 90)
  const ItemB150 := Item('B', 5, 150)
  const ItemC20 := Item('C', 1, 20)
  const EntryA90 := HeapItem(ItemA90, 0, 90)
  const EntryB150 := HeapItem(ItemB150, 1, 750)
  const EntryC20 := HeapItem(ItemC20, 2, 20)

  const BigTopStep1 := Wfq(multiset{EntryA90}, multiset{}, map['A' := FlowState(QueueSize(90, 0), 90)],
                           QueueSize(90, 0), 100, 0, 1)
  const BigTopStep2 := Wfq(multiset{EntryA90}, multiset{EntryB150},
                           map['A' := FlowState(QueueSize(90, 0), 90), 'B' := FlowState(QueueSize(0, 150), 750)],
                           QueueSize(90, 150), 100, 0, 2)
  const BigTopState := Wfq(multiset{EntryA90}, multiset{EntryB150, EntryC20},
                           map['A' := FlowState(QueueSize(90, 0), 90),
                               'B' := FlowState(QueueSize(0, 150), 750),
                               'C' := FlowState(QueueSize(0, 20), 20)],
                           QueueSize(90, 170), 100, 0, 3)
  const BigTopReleased := Wfq(multiset{}, multiset{EntryB150, EntryC20},
                              map['B' := FlowState(QueueSize(0, 150), 750),
                                  'C' := FlowState(QueueSize(0, 20), 20)],
                              QueueSize(0, 170), 100, 90, 3)

  ghost function BigTop(): Wfq<char>
  {
    Enqueue(Enqueue(Enqueue(New<char>(100), ItemA90), ItemB150), ItemC20)
  }

  lemma BigTopAdmit1()
    ensures Enqueue(New<char>(100), ItemA90) == BigTopStep1
  {
    assert Enqueue(New<char>(100), ItemA90) == BigTopStep1;
  }

  lemma BigTopAdmit2()
    ensures Enqueue(BigTopStep1, ItemB150) == BigTopStep2
  {
    assert Enqueue(BigTopStep1, ItemB150) == BigTopStep2;
  }

  lemma BigTopAdmit3()
    ensures Enqueue(BigTopStep2, ItemC20) == BigTopState
  {
    assert Enqueue(BigTopStep2, ItemC20) == BigTopState;
  }

  lemma BigTopShape()
    ensures BigTop() == BigTopState
  {
    BigTopAdmit1();
    BigTopAdmit2();
    BigTopAdmit3();
  }

  lemma BigTopRelease()
    ensures PopPrimary(BigTopState.items) == EntryA90
    ensures Release(BigTopState, EntryA90, AsWritten) == Ok(BigTopReleased, None)
  {
    assert PopPrimary(BigTopState.items) in multiset{EntryA90};
    assert BigTopState.flows - {'A'} == BigTopReleased.flows;
    assert BigTopState.items - multiset{EntryA90} == multiset{};
    assert Release(BigTopState, EntryA90, AsWritten) == Ok(BigTopReleased, None);
  }

  lemma BigTopPromotion()
    ensures Promote(BigTopReleased, 'A', AsWritten) == Promoted(BigTopReleased)
  {
    assert PopOverflow(BigTopReleased.overflow) in multiset{EntryB150, EntryC20};
    assert PopOverflow(BigTopReleased.overflow) == EntryB150;
    PromoteStops(BigTopReleased, 'A', AsWritten);
  }

  lemma PromotionDoesNotSkip()
    ensures var r := Dequeue(BigTop());
      && r.Ok? && r.out == Some(ItemA90)
      && r.state.items == multiset{}
      && r.state.overflow == multiset{EntryB150, EntryC20}
      && r.state.queueSize.normal + ItemC20.size <= r.state.maxNormal
  {
    BigTopShape();
    BigTopRelease();
    BigTopPromotion();
    DequeueUnfolds(BigTopState, AsWritten, EntryA90, BigTopReleased, BigTopReleased);
  }

  // ---------------------------------------------------------------------
  // Virtual time going back: A sends 60 bytes at weight 10 (finish time
  // 600), then B 60 bytes at weight 1 (finish time 60), which waits in
  // overflow. With the corrected bookkeeping, the first dequeue serves A
  // and moves the virtual time to 600; it promotes B's item with its old
  // finish time, so the next dequeue serves it and moves the virtual time
  // back to 60. Dequeue order follows finish times only between
  // promotions.
  // ---------------------------------------------------------------------

  const ItemHeavy := Item('A', 10, 60)
  const ItemLight := Item('B', 1, 60)
  const EntryHeavy := HeapItem(ItemHeavy, 0, 600)
  const EntryLight := HeapItem(ItemLight, 1, 60)

  const HeavyFirst := Wfq(multiset{EntryHeavy}, multiset{}, map['A' := FlowState(QueueSize(60, 0), 600)],
                          QueueSize(60, 0), 100, 0, 1)
  const HeavyThenLight := Wfq(multiset{EntryHeavy}, multiset{EntryLight},
                              map['A' := FlowState(QueueSize(60, 0), 600), 'B' := FlowState(QueueSize(0, 60), 60)],
                              QueueSize(60, 60), 100, 0, 2)
  const LightWaiting := Wfq(multiset{}, multiset{EntryLight}, map['B' := FlowState(QueueSize(0, 60), 60)],
                            QueueSize(0, 60), 100, 600, 2)
  const LightPromoted := Wfq(multiset{EntryLight}, multiset{}, map['B' := FlowState(QueueSize(60, 0), 60)],
                             QueueSize(60, 0), 100, 600, 2)
  const Drained: Wfq<char> := Wfq(multiset{}, multiset{}, map[], QueueSize(0, 0), 100, 60, 2)

  lemma AdmitHeavy()
    ensures Enqueue(New<char>(100), ItemHeavy) == HeavyFirst
  {
    assert Enqueue(New<char>(100), ItemHeavy) == HeavyFirst;
  }

  lemma AdmitLight()
    ensures Enqueue(HeavyFirst, ItemLight) == HeavyThenLight
  {
    assert Enqueue(HeavyFirst, ItemLight) == HeavyThenLight;
  }

  /** A's entry holds no bytes once its item is served, so both revisions
      tear it down. */
  lemma ReleaseHeavy(rev: Revision)
    ensures PopPrimary(HeavyThenLight.items) == EntryHeavy
    ensures Release(HeavyThenLight, EntryHeavy, rev) == Ok(LightWaiting, None)
  {
    assert PopPrimary(HeavyThenLight.items) in multiset{EntryHeavy};
    assert HeavyThenLight.flows - {'A'} == LightWaiting.flows;
    assert HeavyThenLight.items - multiset{EntryHeavy} == multiset{};
    assert Release(HeavyThenLight, EntryHeavy, rev) == Ok(LightWaiting, None);
  }

  /** As written, B's promotion looks up A's entry, which is gone. */
  lemma LightPromotionLooksUpHeavy()
    ensures Promote(LightWaiting, 'A', AsWritten) == PromotionPanic(PromotedFlowMissing)
  {
    assert PopOverflow(LightWaiting.overflow) in multiset{EntryLight};
  }

  /** The code as written panics on the first dequeue of this run. */
  lemma HeavyThenLightPanicsAsWritten()
    ensures Dequeue(HeavyThenLight) == Panic(PromotedFlowMissing)
  {
    ReleaseHeavy(AsWritten);
    LightPromotionLooksUpHeavy();
    DequeuePanicsInPromotion(HeavyThenLight, AsWritten, EntryHeavy, LightWaiting, PromotedFlowMissing);
  }

  lemma PromoteLight()
    ensures Promote(LightWaiting, 'A', Corrected) == Promoted(LightPromoted)
  {
    assert PopOverflow(LightWaiting.overflow) in multiset{EntryLight};
    PromoteContinues(LightWaiting, 'A', Corrected, EntryLight, 'B');
    assert MoveToPrimary(LightWaiting, EntryLight, 'B') == LightPromoted;
    PromoteStops(LightPromoted, 'A', Corrected);
  }

  lemma ServeHeavy()
    ensures DequeueCorrected(HeavyThenLight) == Ok(LightPromoted, Some(ItemHeavy))
  {
    ReleaseHeavy(Corrected);
    PromoteLight();
    DequeueUnfolds(HeavyThenLight, Corrected, EntryHeavy, LightWaiting, LightPromoted);
  }

  lemma ReleaseLight()
    ensures PopPrimary(LightPromoted.items) == EntryLight
    ensures Release(LightPromoted, EntryLight, Corrected) == Ok(Drained, None)
  {
    assert PopPrimary(LightPromoted.items) in multiset{EntryLight};
    assert LightPromoted.flows - {'B'} == map[];
    assert LightPromoted.items - multiset{EntryLight} == multiset{};
    assert Release(LightPromoted, EntryLight, Corrected) == Ok(Drained, None);
  }

  lemma ServeLight()
    ensures DequeueCorrected(LightPromoted) == Ok(Drained, Some(ItemLight))
  {
    ReleaseLight();
    PromoteStops(Drained, 'B', Corrected);
    DequeueUnfolds(LightPromoted, Corrected, EntryLight, Drained, Drained);
  }

  lemma PromotionCanRewindVirtualTime()
    ensures var s := Enqueue(Enqueue(New<char>(100), ItemHeavy), ItemLight);
      var r1 := DequeueCorrected(s);
      && r1.Ok? && r1.out == Some(ItemHeavy) && r1.state.virtualTime == 600
      && var r2 := DequeueCorrected(r1.state);
         && r2.Ok? && r2.out == Some(ItemLight) && r2.state.virtualTime == 60
    ensures Dequeue(Enqueue(Enqueue(New<char>(100), ItemHeavy), ItemLight)) == Panic(PromotedFlowMissing)
  {
    AdmitHeavy();
    AdmitLight();
    ServeHeavy();
    ServeLight();
    HeavyThenLightPanicsAsWritten();
  }

  // ---------------------------------------------------------------------
  // Virtual time going back in the implementation itself: B sends 40
  // bytes, then A 70 bytes, which wait in overflow, then A two items of
  // 20 bytes, all at weight 1. The first dequeue serves B (virtual time
  // 40); the second serves A's first small item (virtual time 90) and
  // promotes A's 70-byte item, booked against A, which is its own flow;
  // the third serves that item and moves the virtual time back to 70.
  // ---------------------------------------------------------------------

  const ItemB40 := Item('B', 1, 40)
  const ItemA70 := Item('A', 1, 70)
  const ItemA20 := Item('A', 1, 20)
  const EntryB40 := HeapItem(ItemB40, 0, 40)
  const EntryA70 := HeapItem(ItemA70, 1, 70)
  const EntryA20 := HeapItem(ItemA20, 2, 90)
  const EntryA20Again := HeapItem(ItemA20, 3, 110)

  const SmallB := Wfq(multiset{EntryB40}, multiset{}, map['B' := FlowState(QueueSize(40, 0), 40)],
                      QueueSize(40, 0), 100, 0, 1)
  const BigAWaiting := Wfq(multiset{EntryB40}, multiset{EntryA70},
                           map['B' := FlowState(QueueSize(40, 0), 40), 'A' := FlowState(QueueSize(0, 70), 70)],
                           QueueSize(40, 70), 100, 0, 2)
  const OneSmallA := Wfq(multiset{EntryB40, EntryA20}, multiset{EntryA70},
                         map['B' := FlowState(QueueSize(40, 0), 40), 'A' := FlowState(QueueSize(20, 70), 90)],
                         QueueSize(60, 70), 100, 0, 3)
  const SelfPromotionState := Wfq(multiset{EntryB40, EntryA20, EntryA20Again}, multiset{EntryA70},
                                  map['B' := FlowState(QueueSize(40, 0), 40), 'A' := FlowState(QueueSize(40, 70), 110)],
                                  QueueSize(80, 70), 100, 0, 4)
  const BServed := Wfq(multiset{EntryA20, EntryA20Again}, multiset{EntryA70},
                       map['A' := FlowState(QueueSize(40, 70), 110)],
                       QueueSize(40, 70), 100, 40, 4)
  const SmallAReleased := Wfq(multiset{EntryA20Again}, multiset{EntryA70},
                              map['A' := FlowState(QueueSize(20, 70), 110)],
                              QueueSize(20, 70), 100, 90, 4)
  const BigAPromoted := Wfq(multiset{EntryA20Again, EntryA70}, multiset{},
                            map['A' := FlowState(QueueSize(90, 0), 110)],
                            QueueSize(90, 0), 100, 90, 4)
  const BigAServed := Wfq(multiset{EntryA20Again}, multiset{},
                          map['A' := FlowState(QueueSize(20, 0), 110)],
                          QueueSize(20, 0), 100, 70, 4)

  ghost function SelfPromotion(): Wfq<char>
  {
    Enqueue(Enqueue(Enqueue(Enqueue(New<char>(100), ItemB40), ItemA70), ItemA20), ItemA20)
  }

  lemma AdmitSmallB()
    ensures Enqueue(New<char>(100), ItemB40) == SmallB
  {
    assert Enqueue(New<char>(100), ItemB40) == SmallB;
  }

  lemma AdmitBigA()
    ensures Enqueue(SmallB, ItemA70) == BigAWaiting
  {
    assert Enqueue(SmallB, ItemA70) == BigAWaiting;
  }

  lemma AdmitSmallA()
    ensures Enqueue(BigAWaiting, ItemA20) == OneSmallA
  {
    assert Enqueue(BigAWaiting, ItemA20) == OneSmallA;
  }

  lemma AdmitSmallAAgain()
    ensures Enqueue(OneSmallA, ItemA20) == SelfPromotionState
  {
    assert Enqueue(OneSmallA, ItemA20) == SelfPromotionState;
  }

  lemma SelfPromotionShape()
    ensures SelfPromotion() == SelfPromotionState
  {
    AdmitSmallB();
    AdmitBigA();
    AdmitSmallA();
    AdmitSmallAAgain();
  }

  /** B's item has the smallest finish time; B's flow is torn down, and A's
      large item does not fit beside A's two small ones. */
  lemma ServeSmallB()
    ensures Dequeue(SelfPromotionState) == Ok(BServed, Some(ItemB40))
  {
    assert PopPrimary(SelfPromotionState.items) in multiset{EntryB40, EntryA20, EntryA20Again};
    assert PopPrimary(SelfPromotionState.items) == EntryB40;
    assert SelfPromotionState.flows - {'B'} == BServed.flows;
    assert SelfPromotionState.items - multiset{EntryB40} == multiset{EntryA20, EntryA20Again};
    assert Release(SelfPromotionState, EntryB40, AsWritten) == Ok(BServed, None);
    assert PopOverflow(BServed.overflow) in multiset{EntryA70};
    PromoteStops(BServed, 'B', AsWritten);
    DequeueUnfolds(SelfPromotionState, AsWritten, EntryB40, BServed, BServed);
  }

  lemma ReleaseSmallA()
    ensures PopPrimary(BServed.items) == EntryA20
    ensures Release(BServed, EntryA20, AsWritten) == Ok(SmallAReleased, None)
  {
    assert PopPrimary(BServed.items) in multiset{EntryA20, EntryA20Again};
    assert BServed.items - multiset{EntryA20} == multiset{EntryA20Again};
    assert Release(BServed, EntryA20, AsWritten) == Ok(SmallAReleased, None);
  }

  /** A's large item now fits; it is booked against the dequeued item's
      flow, which is its own. */
  lemma PromoteBigA()
    ensures Promote(SmallAReleased, 'A', AsWritten) == Promoted(BigAPromoted)
  {
    assert PopOverflow(SmallAReleased.overflow) in multiset{EntryA70};
    PromoteContinues(SmallAReleased, 'A', AsWritten, EntryA70, 'A');
    assert MoveToPrimary(SmallAReleased, EntryA70, 'A') == BigAPromoted;
    PromoteStops(BigAPromoted, 'A', AsWritten);
  }

  lemma ServeSmallA()
    ensures Dequeue(BServed) == Ok(BigAPromoted, Some(ItemA20))
  {
    ReleaseSmallA();
    PromoteBigA();
    DequeueUnfolds(BServed, AsWritten, EntryA20, SmallAReleased, BigAPromoted);
  }

  lemma ServeBigA()
    ensures Dequeue(BigAPromoted) == Ok(BigAServed, Some(ItemA70))
  {
    assert PopPrimary(BigAPromoted.items) in multiset{EntryA20Again, EntryA70};
    assert PopPrimary(BigAPromoted.items) == EntryA70;
    assert BigAPromoted.items - multiset{EntryA70} == multiset{EntryA20Again};
    assert Release(BigAPromoted, EntryA70, AsWritten) == Ok(BigAServed, None);
    PromoteStops(BigAServed, 'A', AsWritten);
    DequeueUnfolds(BigAPromoted, AsWritten, EntryA70, BigAServed, BigAServed);
  }

  /** The implementation's dequeue moves the virtual time to 40, then 90,
      then back to 70, without panicking. */
  lemma AsWrittenPromotionRewinds()
    ensures var r1 := Dequeue(SelfPromotion());
      && r1.Ok? && r1.out == Some(ItemB40) && r1.state.virtualTime == 40
      && var r2 := Dequeue(r1.state);
         && r2.Ok? && r2.out == Some(ItemA20) && r2.state.virtualTime == 90
         && var r3 := Dequeue(r2.state);
            && r3.Ok? && r3.out == Some(ItemA70) && r3.state.virtualTime == 70
  {
    SelfPromotionShape();
    ServeSmallB();
    ServeSmallA();
    ServeBigA();
  }

  // ---------------------------------------------------------------------
  // Empty payloads: B sends 40 bytes, then A two zero-byte items, all at
  // weight 1. A's items go to the primary heap with finish time 0 and add
  // nothing to A's counters. The first dequeue serves one of them, finds
  // A's primary bytes, and its total, at zero and drops A under either
  // revision; the second dequeue serves A's other item, finds no ledger
  // entry for it and panics at the lookup.
  // ---------------------------------------------------------------------

  const ItemZero := Item('A', 1, 0)
  const Zero0 := HeapItem(ItemZero, 1, 0)
  const Zero1 := HeapItem(ItemZero, 2, 0)

  const OneZero := Wfq(multiset{EntryB40, Zero0}, multiset{},
                       map['B' := FlowState(QueueSize(40, 0), 40), 'A' := FlowState(QueueSize(0, 0), 0)],
                       QueueSize(40, 0), 100, 0, 2)
  const TwoZerosState := Wfq(multiset{EntryB40, Zero0, Zero1}, multiset{},
                             map['B' := FlowState(QueueSize(40, 0), 40), 'A' := FlowState(QueueSize(0, 0), 0)],
                             QueueSize(40, 0), 100, 0, 3)

  ghost function TwoZeros(): Wfq<char>
  {
    Enqueue(Enqueue(Enqueue(New<char>(100), ItemB40), ItemZero), ItemZero)
  }

  lemma AdmitZeroFirst()
    ensures Enqueue(SmallB, ItemZero) == OneZero
  {
    assert Enqueue(SmallB, ItemZero) == OneZero;
  }

  lemma AdmitZeroSecond()
    ensures Enqueue(OneZero, ItemZero) == TwoZerosState
  {
    assert Enqueue(OneZero, ItemZero) == TwoZerosState;
  }

  /** A zero-byte item goes to the primary heap at finish time 0 and adds
      nothing to its flow's counters or to the queue's. */
  lemma TwoZerosShape()
    ensures TwoZeros() == TwoZerosState
  {
    AdmitSmallB();
    AdmitZeroFirst();
    AdmitZeroSecond();
  }

  /** The queue once `top`, an entry of a flow that holds no other bytes,
      is released and the flow's entry removed. */
  ghost function Spent<K>(s: Wfq<K>, top: HeapItem<K>): Wfq<K>
    requires top.inner.size <= s.queueSize.normal
  {
    s.(items := s.items - multiset{top}, flows := s.flows - {top.inner.key},
       queueSize := s.queueSize.(normal := s.queueSize.normal - top.inner.size),
       virtualTime := top.vft)
  }

  /** Releasing the only bytes of a flow drops its entry, under either
      revision. */
  lemma ReleaseDropsSpentFlow<K>(s: Wfq<K>, top: HeapItem<K>, rev: Revision)
    requires top.inner.size <= s.queueSize.normal
    requires top.inner.key in s.flows && s.flows[top.inner.key].queueSize == QueueSize(top.inner.size, 0)
    ensures Release(s, top, rev) == Ok(Spent(s, top), None)
  {
  }

  /** Whichever of A's entries is popped first, B's item and A's other
      entry are left, and A has no ledger entry. */
  lemma ZeroLeft(top: HeapItem<char>, other: HeapItem<char>)
    requires (top == Zero0 && other == Zero1) || (top == Zero1 && other == Zero0)
    ensures Spent(TwoZerosState, top).items == multiset{EntryB40, other}
    ensures 'A' !in Spent(TwoZerosState, top).flows
  {
    if top == Zero0 {
      assert TwoZerosState.items - multiset{Zero0} == multiset{EntryB40, Zero1};
    } else {
      assert TwoZerosState.items - multiset{Zero1} == multiset{EntryB40, Zero0};
    }
  }

  /** A's two entries tie at finish time 0, ahead of B's; whichever of them
      is served, A's entry is dropped. */
  lemma ServeFirstZero(rev: Revision) returns (top: HeapItem<char>)
    ensures top == Zero0 || top == Zero1
    ensures DequeueRev(TwoZerosState, rev) == Ok(Spent(TwoZerosState, top), Some(ItemZero))
  {
    top := PopPrimary(TwoZerosState.items);
    assert top in multiset{EntryB40, Zero0, Zero1};
    assert top.vft <= Zero0.vft;
    ReleaseDropsSpentFlow(TwoZerosState, top, rev);
    PromoteStops(Spent(TwoZerosState, top), 'A', rev);
    DequeueUnfolds(TwoZerosState, rev, top, Spent(TwoZerosState, top), Spent(TwoZerosState, top));
  }

  /** A's remaining item is still ahead of B's, and its flow is gone. */
  lemma ServeSecondZero(rev: Revision, top: HeapItem<char>)
    requires top == Zero0 || top == Zero1
    ensures DequeueRev(Spent(TwoZerosState, top), rev) == Panic(FlowMissing)
  {
    var other := if top == Zero0 then Zero1 else Zero0;
    ZeroLeft(top, other);
    var next := PopPrimary(Spent(TwoZerosState, top).items);
    assert next in multiset{EntryB40, other};
    assert next.vft <= other.vft;
  }

  lemma ZerosLoseTheirFlow(rev: Revision)
    ensures var r1 := DequeueRev(TwoZerosState, rev);
      && r1.Ok? && r1.out == Some(ItemZero) && 'A' !in r1.state.flows
      && (r1.state.items == multiset{EntryB40, Zero0} || r1.state.items == multiset{EntryB40, Zero1})
      && DequeueRev(r1.state, rev) == Panic(FlowMissing)
  {
    var top := ServeFirstZero(rev);
    ZeroLeft(top, if top == Zero0 then Zero1 else Zero0);
    ServeSecondZero(rev, top);
  }

  /** Two zero-byte items of one flow, admitted as TwoZerosShape states,
      make the second dequeue panic at the ledger lookup under both
      revisions: the first dequeue drops the flow while its other item is
      still queued. */
  lemma EmptyPayloadsLoseTheirFlow()
    ensures var r1 := Dequeue(TwoZerosState);
      && r1.Ok? && r1.out == Some(ItemZero) && 'A' !in r1.state.flows
      && (r1.state.items == multiset{EntryB40, Zero0} || r1.state.items == multiset{EntryB40, Zero1})
      && Dequeue(r1.state) == Panic(FlowMissing)
    ensures var r1 := DequeueCorrected(TwoZerosState);
      && r1.Ok? && r1.out == Some(ItemZero) && 'A' !in r1.state.flows
      && (r1.state.items == multiset{EntryB40, Zero0} || r1.state.items == multiset{EntryB40, Zero1})
      && DequeueCorrected(r1.state) == Panic(FlowMissing)
  {
    ZerosLoseTheirFlow(AsWritten);
    ZerosLoseTheirFlow(Corrected);
  }
}
