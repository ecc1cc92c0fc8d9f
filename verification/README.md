# Weighted fair queue — a Dafny model

This project models the weighted fair queue of `src/lib.rs` and proves properties of the model. The queue admits items that carry a flow key, a non-zero weight and a payload, and each dequeue hands out the primary heap's entry with the smallest virtual finish time. Promotion from the overflow heap can bring in entries with earlier finish times than ones already served, so the served finish times are not always increasing (`Scenarios.AsWrittenPromotionRewinds`).

Admission stamps each item with an arrival number (`seqno`) and a virtual finish time. The finish time is the flow's previous last finish time plus size × weight; a flow seen for the first time starts at the queue's virtual time. The item then goes to one of two heaps:

- the **primary heap**, if the primary bytes plus the item's size stay within `max_normal_queue_size`;
- the **overflow heap**, otherwise.

A dequeue does three things in turn:

1. It pops the primary entry with the smallest virtual finish time, and moves the virtual time to it.
2. It releases that entry's bytes from the queue-wide counters and from its flow's ledger entry. The flow is dropped from the ledger once its primary bytes reach zero.
3. It runs the promotion loop. The loop moves the overflow heap's top (greatest weight, then oldest) into the primary heap while it fits, and stops at the first top that does not fit.

On the dequeue path, every `expect` and every unsigned subtraction is an explicit outcome `Panic(site)`, and the model names six such sites. The subtractions are taken as checked, so they panic as they do in a build with overflow checks on.

The model is functional. The state is one immutable datatype, `Wfq`, holding:

- the two heaps, as multisets of entries;
- the flow ledger, as a map;
- the counters, the bound, the virtual time and the next arrival number.

`Enqueue`, `Dequeue` and `Promote` are pure ghost functions. Popping a heap is a choice of an entry that the heap's ordering puts on top. For the primary heap, ties in finish time are left unspecified: the model pops some entry of minimal finish time, fixed by the heap's contents, and the general lemmas rely only on its minimality.

The dequeue bookkeeping comes in two revisions:

- `AsWritten` is the code as it stands. It drives `Queue.Dequeue`.
- `Corrected` tears a flow down only when it holds no bytes at all, and books each promoted item against the promoted item's own flow. It drives `Queue.DequeueCorrected`.

See "## Findings" for why the corrected revision exists.

Modules:

| file | module | contents |
|---|---|---|
| types.dfy | `WfqTypes` | items, heap entries, counters, ledger entries, the queue state |
| precedence.dfy | `Precedence` | the IP precedence levels and their weight table |
| heap_order.dfy | `HeapOrder` | the two heap orderings, and pop for each heap |
| accounting.dfy | `Accounting` | byte sums over heaps; the invariants `Counted`, `Valid` and `LedgerConsistent` |
| queue.dfy | `Queue` | `New`, `Enqueue`, `Release`, the promotion loop, `Dequeue`, `DequeueCorrected` |
| queue_proofs.dfy | `QueueProofs` | admission, promotion order, and the queue-wide invariant kept by both revisions |
| corrected.dfy | `Corrected` | the corrected dequeue never panics on an exact ledger, and keeps the ledger exact |
| scenarios.dfy | `Scenarios` | concrete runs: the panics of the code as written, and the corrected behaviour |

## Model

| member | source | states |
|---|---|---|
| Precedence.IpPrecedence.Weight | src/lib.rs:169-181 | every precedence's weight lies in 4096..32768, and equals 8 × (4096 / (level + 1)), so it is never zero |
| Precedence.WeightFallsWithLevel | src/lib.rs:169-181 | a lower precedence level gets a strictly larger weight |
| WfqTypes.TotalCountsBoth | src/lib.rs:204-206 | the byte total is at least each of the two counts, and it is zero exactly when both counts are zero (a count does not see zero-byte items; `Accounting.TotalCountsEveryByte` relates the total to the heaps) |
| Accounting.TotalCountsEveryByte | src/lib.rs:204-206 | when the counters are exact, `total` equals the bytes of every item buffered in either heap |
| Accounting.FlowTotalCountsEveryByte | src/lib.rs:184-188 | on an exact ledger, a flow's total equals the bytes that flow buffers in both heaps |
| HeapOrder.PopPrimary | src/lib.rs:238-244 | the entry popped from the primary heap is in the heap, and no entry there has a smaller virtual finish time |
| HeapOrder.PopOverflow | src/lib.rs:263-270 | the entry popped from the overflow heap is in the heap, and every other entry has a smaller weight, or the same weight and a later arrival |
| HeapOrder.OverflowTopUnique | src/lib.rs:263-270 | with distinct arrival numbers the overflow top is unique, so the overflow order is total |
| QueueProofs.NewIsEmptyAndValid | src/lib.rs:21-31 | a new queue buffers nothing, has no flows, keeps the given bound, starts its virtual time and arrival counter at zero, satisfies both invariants, and dequeues nothing without changing |
| Queue.StampFollowsFlow | src/lib.rs:34-51 | an arriving item is booked against its flow's entry, or against a fresh empty one at the virtual time; its entry gets the next arrival number and a finish time exactly size × weight past the flow's last one, so it is later exactly when the item is non-empty |
| Queue.Enqueue | src/lib.rs:33-62 | admission always takes the item: the byte total grows by exactly its size, the primary bound is kept, and the arrival counter goes up by one |
| Queue.EnqueueRoutes | src/lib.rs:34-61 | the item goes to overflow exactly when primary bytes plus its size pass the bound, and to the primary heap otherwise; the flow is created if new; its last finish time becomes the entry's; its overflow count (src/lib.rs:54) or primary count (src/lib.rs:58) grows by the item's size, from the existing entry or from zero; no other flow's entry changes |
| QueueProofs.FlowFinishTimeAdvances | src/lib.rs:34-49 | a flow's last finish time starts at the virtual time, grows by size × weight, equals the admitted entry's finish time, never decreases, and increases exactly when the item is non-empty |
| QueueProofs.EnqueueKeepsCounted | src/lib.rs:53-61 | admission keeps both queue-wide counters equal to the byte sums of their heaps |
| QueueProofs.EnqueueKeepsSeqnos | src/lib.rs:46-51 | after admission, arrival numbers are still distinct and below the next one to be issued |
| QueueProofs.EnqueueKeepsValid | src/lib.rs:33-62 | admission keeps the queue-wide invariant; the new entry's arrival number is above every queued one; the buffered bytes grow by the item's size |
| Queue.Release | src/lib.rs:71-81 | a release that does not panic removes exactly the popped entry, sets the virtual time to its finish time, and takes its size off the primary counter; its flow is dropped exactly when the revision's teardown test holds, and otherwise keeps its entry with only the primary count lowered by the size; other flows are untouched |
| Queue.Promote | src/lib.rs:83-100 | a promotion that does not panic only moves entries from overflow to primary, so nothing is lost and finish times are kept; the primary bound is kept; the flow keys do not change; it can panic only at the three promotion sites |
| QueueProofs.PromoteTakesTopsInOrder | src/lib.rs:83-100 | every promoted entry ranks at or above every entry left in overflow, and when the loop stops with entries left, the top one does not fit: the loop never skips to a smaller entry |
| QueueProofs.PromoteKeepsCounted | src/lib.rs:93-97 | the promotion loop keeps the queue-wide counters exact, and never panics at the queue-wide overflow subtraction |
| Queue.MoveShiftsBytes | src/lib.rs:89-99 | one promotion round adds the entry to the primary heap and moves its bytes from overflow to primary, queue-wide and in the booked flow's entry, whose total and last finish time stay put; the flow keys and every other flow's entry are unchanged |
| QueueProofs.PromoteBooks | src/lib.rs:83-100 | with `moved` the entries the loop promotes: as written, the dequeued item's flow gets all of their bytes moved from overflow to primary and no other flow changes; corrected, each flow gets exactly its own entries' bytes moved; last finish times are kept |
| QueueProofs.MoveKeepsCounted | src/lib.rs:93-99 | one round of promotion keeps the queue-wide counters exact |
| Queue.DequeueRev | src/lib.rs:64-103 | under either revision, an empty primary heap gives nothing back and leaves the state as it was, and a dequeue that does not panic returns an item exactly when the primary heap was non-empty |
| Queue.Dequeue | src/lib.rs:64-69 | dequeue returns nothing, with the state unchanged, exactly when the primary heap is empty, however much waits in overflow |
| Queue.DequeueCorrected | src/lib.rs:64-69 | the same for the corrected revision |
| Queue.DequeueServesMinimum | src/lib.rs:64-103 | a non-panicking dequeue returns the popped entry's item; no primary entry finishes earlier; the virtual time moves to its finish time; the buffered entries afterwards are those before minus that entry; the bound is kept; the flow teardown follows the revision's test |
| QueueProofs.DequeueBooksFlows | src/lib.rs:64-103 | a dequeue that does not panic keeps the flow keys other than the served one; each remaining flow's entry ends with its primary count lowered by the served item's size if it is the served flow, and raised by the bytes promoted into it, its overflow count lowered by the same, and its last finish time unchanged |
| Queue.DequeueTearsDownOnPrimaryBytes | src/lib.rs:78-81 | as written, the dequeued item's flow stays in the ledger exactly when its primary bytes were not exactly the item's size, whatever it holds in overflow |
| Queue.DequeueCorrectedTearsDownOnTotal | src/lib.rs:78-81 | corrected, the flow stays exactly when its total bytes were not exactly the item's size |
| QueueProofs.ReleaseKeepsCounted | src/lib.rs:71-81 | the release keeps the counters exact and never panics at the primary subtraction |
| QueueProofs.PromoteAfterReleaseKeepsValid | src/lib.rs:83-100 | the promotion after a release keeps the queue-wide invariant and never panics at the overflow subtraction |
| QueueProofs.DequeueSteps | src/lib.rs:64-103 | a dequeue of a non-empty primary heap in the invariant keeps the invariant when it does not panic, and never panics at the queue-wide subtractions |
| QueueProofs.DequeueKeepsValid | src/lib.rs:64-103 | under either revision, a non-panicking dequeue keeps the queue-wide invariant; in the invariant, only the ledger can make a dequeue panic |
| QueueProofs.SeqnosKeptOnDequeue | src/lib.rs:64-103 | taking entries out keeps the arrival numbers distinct and below the counter |
| QueueProofs.DequeueKeepsValidAsWritten | src/lib.rs:64-103 | dequeue as written keeps the invariant whenever it does not panic |
| QueueProofs.SuccessiveDequeuesOrdered | src/lib.rs:65-71 | with nothing in overflow, two dequeues in a row come out in finish-time order, and the virtual time does not go back |
| Corrected.LedgerEntryOf | src/lib.rs:34-40 | on an exact ledger, the entry an arriving item is booked against holds its flow's bytes, fresh or existing |
| Corrected.EnqueueKeepsFlowEntry | src/lib.rs:53-61 | admission keeps each flow's ledger entry exact |
| Corrected.OverflowAdmissionKeepsFlowEntry | src/lib.rs:53-56 | admission to overflow adds the item's bytes to its own flow's overflow count and changes no other count |
| Corrected.PrimaryAdmissionKeepsFlowEntry | src/lib.rs:57-60 | admission to the primary heap adds the item's bytes to its own flow's primary count and changes no other count |
| Corrected.EnqueueKeepsLedger | src/lib.rs:33-62 | admitting a non-empty item keeps the flow ledger exact |
| Corrected.MoveKeepsFlowEntry | src/lib.rs:89-99 | one round of corrected promotion keeps each flow's entry exact |
| Corrected.MoveKeepsLedger | src/lib.rs:89-99 | one round of corrected promotion keeps the ledger exact |
| Corrected.CorrectedPromoteStep | src/lib.rs:83-100 | one round of corrected promotion cannot panic, and the loop continues from an exact state with a smaller overflow heap |
| Corrected.CorrectedPromoteKeepsLedger | src/lib.rs:83-100 | on an exact ledger, the corrected promotion loop never panics and keeps the ledger exact |
| Corrected.CorrectedReleaseKeepsLedger | src/lib.rs:71-81 | on an exact ledger, the corrected release never panics and keeps counters and ledger exact |
| Corrected.ReleaseKeepsEntriesFlows | src/lib.rs:78-81 | after the corrected release, every buffered entry's flow is still in the ledger |
| Corrected.CorrectedTearsDownWhenNoEntryLeft | src/lib.rs:78-81 | on an exact ledger of non-empty items, the corrected release never panics, and drops the popped item's flow exactly when none of that flow's entries is left in either heap |
| Corrected.CorrectedDequeueKeepsLedger | src/lib.rs:64-103 | from a queue whose counters and ledger are exact, the corrected dequeue never panics and keeps both exact |
| Scenarios.TwoFlowsShape | src/lib.rs:33-62 | with a 100-byte bound, A's 60-byte item goes to the primary heap and B's 60-byte item then goes to overflow |
| Scenarios.TwoFlowsConsistent | src/lib.rs:33-62 | that state satisfies both invariants |
| Scenarios.PromotionLooksUpDequeuedFlow | src/lib.rs:79-92 | as written, dequeuing from that exact state panics: A's entry is dropped, and the promotion of B's item looks A up again |
| Scenarios.CorrectedServesBothFlows | src/lib.rs:64-103 | corrected, the same run serves A, promotes B, serves B, and ends with an empty queue and an empty ledger |
| Scenarios.TearDownIgnoresOverflow | src/lib.rs:78-92 | as written, a single flow with one item in each heap panics on dequeue; corrected, the dequeue succeeds and returns the first item |
| Scenarios.PromotionMisbooks | src/lib.rs:89-94 | as written, a dequeue from an exact ledger can succeed and leave a ledger that is not exact, because B's promoted bytes are booked against A |
| Scenarios.MisbookingPanicsLater | src/lib.rs:89-94 | that wrong ledger makes the next dequeue panic at the flow's overflow subtraction |
| Scenarios.OverflowWaitsForPrimary | src/lib.rs:53-69 | an item larger than the bound waits in overflow, and dequeue reports an empty queue |
| Scenarios.TwoZerosShape | src/lib.rs:33-62 | with a 100-byte bound, after B's 40-byte item at finish time 40, two zero-byte items of A both go to the primary heap with finish time 0, and A's ledger entry counts no bytes |
| Scenarios.EmptyPayloadsLoseTheirFlow | src/lib.rs:64-81 | from that state, under both revisions, the first dequeue serves one item and drops A with the other item still queued, and the second dequeue panics at the ledger lookup |
| Scenarios.PromotionDoesNotSkip | src/lib.rs:83-87 | promotion stops at an overflow top that does not fit, although a smaller entry behind it would fit |
| Scenarios.AsWrittenPromotionRewinds | src/lib.rs:71-100 | as written, with a 100-byte bound: B sends 40 bytes, A 70 bytes (to overflow) and then two 20-byte items; three dequeues serve B, A's first small item (promoting A's large item) and the large item, with the virtual time going 40, 90, 70 and no panic |
| Scenarios.PromotionCanRewindVirtualTime | src/lib.rs:71-92 | corrected: a heavy A item served first promotes B's item, which keeps its old finish time, so the virtual time goes from 600 back to 60; as written, the first dequeue of the same run panics at the lookup of A's entry (src/lib.rs:91-92) |

## Left out

- Machine-width arithmetic: the `u64` and `usize` additions (src/lib.rs:44, 51, 53, 54, 55, 58, 59, 84, 93, 96) and the multiplication at src/lib.rs:44 are unbounded here, including the sums compared against the bound at src/lib.rs:53 and 84. Only the dequeue's subtractions and `expect` lookups are modelled as failures.
- Builds without overflow checks: the subtractions at src/lib.rs:72, 78, 94 and 97 are modelled as checked, so they panic. In such a build they wrap around instead, and the model does not describe the wrapped values.
- Payloads are reduced to their byte length (`Item::data_size`). The accessors `flow_key`, `weight`, `data`, `into_data`, `queue_size`, `flows`, `normal` and `overflow` only return fields, so they are left out.
- `BinaryHeap` and `HashMap` internals: heaps are multisets, and the ledger is a map.
- `HeapItem`'s `PartialEq` compares arrival numbers, while its `Ord` compares finish times. The model uses neither equality. Ties in finish time on the primary heap are left unspecified: `BinaryHeap` picks among them by the history of pushes and pops, while the model pops some entry of minimal finish time fixed by the heap's contents.
- A panic is terminal: the model does not describe the state a caller would see after unwinding.
- Corrected.CorrectedDequeueKeepsLedger: the exact-ledger invariant assumes every buffered item is non-empty. Zero-byte payloads are accepted (`data_size` is the payload's length, src/lib.rs:151-153), add nothing to their flow's counters, and cause a reachable panic under both revisions: after a flow enqueues two zero-byte items, the first dequeue drops the flow at src/lib.rs:79-80, and the second panics at the `expect` at src/lib.rs:77 (`Scenarios.EmptyPayloadsLoseTheirFlow`). Avoiding it takes a teardown rule of "no items of the flow left in either heap", which counts items rather than bytes; neither revision models that rule, and `Corrected.CorrectedTearsDownWhenNoEntryLeft` shows that `Corrected`'s byte rule agrees with it whenever every item is non-empty.
- Things the code does not have, so the model has none either:
  - The code has no per-flow byte cap, no rejection at admission, no inverse-weight pricing, no running sum of weights and no smoothed virtual clock.
  - The finish time grows by size × weight, so a heavier item finishes later in the primary heap, while the overflow heap promotes heavier items first.
  - The code drops a flow when its primary bytes reach zero (src/lib.rs:79). `Corrected` tears a flow down only when it holds no bytes in either heap.
  - Take a 100-byte bound, with A enqueueing 60 bytes at weight 1 and then B 60 bytes at weight 3. The code as written panics on the first dequeue (`Scenarios.PromotionLooksUpDequeuedFlow`). The corrected revision serves both items (`Scenarios.CorrectedServesBothFlows`).

## Findings

| source | as written | input that shows it | evidently intended | confidence | as-written member | corrected member |
|---|---|---|---|---|---|---|
| src/lib.rs:89-92 | the promotion loop books every promoted item against the ledger entry of the item being dequeued (`item.inner.flow_key()`) | bound 100; flow A enqueues 60 bytes at weight 1, flow B 60 bytes at weight 3; dequeue: A's entry is dropped at src/lib.rs:80, and the `expect` at src/lib.rs:92 panics | book each promoted item against its own flow (`next.0.inner.flow_key()`) | not executed | Scenarios.PromotionLooksUpDequeuedFlow | Corrected.CorrectedDequeueKeepsLedger |
| src/lib.rs:79-81 | a flow is dropped from the ledger once its primary bytes reach zero, even with bytes still in overflow | bound 100; flow A enqueues two 60-byte items; dequeue: A's entry is dropped with 60 bytes in overflow, and promoting them panics at src/lib.rs:92 | drop a flow only when none of its items is left in either heap; for non-empty items this is "no bytes in either heap", the rule `Corrected` uses (zero-byte items still panic at src/lib.rs:77 under that rule) | not executed | Scenarios.TearDownIgnoresOverflow | Corrected.CorrectedDequeueKeepsLedger |
