/**
 Data model of the weighted fair queue: the items callers hand in, the
 entries kept in the two heaps, the byte counters, the per-flow ledger
 entries and the scheduler state itself.

 The payload of an item is reduced to its length in bytes, and both heaps
 are reduced to the multiset of their entries: which entry a heap pops is
 stated by the orderings in module HeapOrder.
 */
module WfqTypes {

  datatype Option<+T> = None | Some(value: T)

  /** A fairness weight; like `NonZeroU64`, it is never zero. */
  type Weight = w: nat | 1 <= w witness 1

  /** An item offered to the queue: the flow it belongs to, its weight and
      the length of its payload in bytes. */
  datatype Item<K> = Item(key: K, weight: Weight, size: nat)

  /** An item as it sits in either heap, stamped at admission with its
      arrival number and its virtual finish time. */
  datatype HeapItem<K> = HeapItem(inner: Item<K>, seqno: nat, vft: nat)

  /** Bytes held in the primary heap (`normal`) and in the overflow heap. */
  datatype QueueSize = QueueSize(normal: nat, overflow: nat) {
    /** Bytes held in both heaps; TotalCountsBoth states what it means. */
    function Total(): (t: nat)
    {
      normal + overflow
    }
  }

  /** The byte total is never less than either heap's share, and it is zero
      exactly when both counts are zero. */
  lemma TotalCountsBoth(q: QueueSize)
    ensures q.normal <= q.Total() && q.overflow <= q.Total()
    ensures q.Total() == 0 <==> q.normal == 0 && q.overflow == 0
  {
  }

  /** One entry of the flow ledger. */
  datatype FlowState = FlowState(queueSize: QueueSize, lastVft: nat)

  /** The whole scheduler. `items` is the primary heap, bounded by
      `maxNormal` bytes; `overflow` holds what did not fit at admission. */
  datatype Wfq<K> = Wfq(
    items: multiset<HeapItem<K>>,
    overflow: multiset<HeapItem<K>>,
    flows: map<K, FlowState>,
    queueSize: QueueSize,
    maxNormal: nat,
    virtualTime: nat,
    seqno: nat
  )
}
