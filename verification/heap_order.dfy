/**
 The two heap orderings and what "pop" means for each heap.

 The primary heap is a max-heap over an ordering on virtual finish times
 that is reversed, so it pops an entry with the smallest virtual finish
 time; entries with equal finish times are not ordered, and which of them
 comes out is left open here. The overflow heap pops the entry with the
 greatest weight, and among equal weights the one with the smallest
 arrival number.
 */
module HeapOrder {
  import opened WfqTypes

  /** `x` is an entry of `m` that the primary heap may pop next. */
  ghost predicate IsPrimaryTop<K>(x: HeapItem<K>, m: multiset<HeapItem<K>>)
  {
    x in m && forall y | y in m :: x.vft <= y.vft
  }

  /** `a` does not leave the overflow heap before `b`: it has a smaller
      weight, or the same weight and an arrival number no smaller. */
  ghost predicate OverflowAtMost<K>(a: HeapItem<K>, b: HeapItem<K>)
  {
    a.inner.weight < b.inner.weight
    || (a.inner.weight == b.inner.weight && a.seqno >= b.seqno)
  }

  /** `x` is an entry of `m` that the overflow heap pops next. */
  ghost predicate IsOverflowTop<K>(x: HeapItem<K>, m: multiset<HeapItem<K>>)
  {
    x in m && forall y | y in m :: OverflowAtMost(y, x)
  }

  /** No two entries of `m` share an arrival number, and none occurs twice. */
  ghost predicate UniqueSeqnos<K>(m: multiset<HeapItem<K>>)
  {
    && (forall x | x in m :: m[x] == 1)
    && (forall x, y | x in m && y in m && x.seqno == y.seqno :: x == y)
  }

  lemma {:induction false} PrimaryTopExists<K>(m: multiset<HeapItem<K>>)
    requires m != multiset{}
    ensures exists x :: IsPrimaryTop(x, m)
    decreases |m|
  {
    var y :| y in m;
    var rest := m - multiset{y};
    assert m == rest + multiset{y};
    if rest == multiset{} {
      assert IsPrimaryTop(y, m);
    } else {
      PrimaryTopExists(rest);
      var z :| IsPrimaryTop(z, rest);
      PrimaryTopOfAdd(rest, y, z);
    }
  }

  /** Adding `y` to a multiset whose primary top is `z` makes the earlier
      finisher of the two a primary top. */
  lemma PrimaryTopOfAdd<K>(rest: multiset<HeapItem<K>>, y: HeapItem<K>, z: HeapItem<K>)
    requires IsPrimaryTop(z, rest)
    ensures IsPrimaryTop(if y.vft <= z.vft then y else z, rest + multiset{y})
  {
    var m := rest + multiset{y};
    var t := if y.vft <= z.vft then y else z;
    forall w | w in m ensures t.vft <= w.vft {
      if w != y {
        assert w in rest;
      }
    }
  }

  lemma {:induction false} OverflowTopExists<K>(m: multiset<HeapItem<K>>)
    requires m != multiset{}
    ensures exists x :: IsOverflowTop(x, m)
    decreases |m|
  {
    var y :| y in m;
    var rest := m - multiset{y};
    assert m == rest + multiset{y};
    if rest == multiset{} {
      assert IsOverflowTop(y, m);
    } else {
      OverflowTopExists(rest);
      var z :| IsOverflowTop(z, rest);
      OverflowTopOfAdd(rest, y, z);
    }
  }

  /** Adding `y` to a multiset whose overflow top is `z` makes whichever of
      the two ranks higher the overflow top. */
  lemma OverflowTopOfAdd<K>(rest: multiset<HeapItem<K>>, y: HeapItem<K>, z: HeapItem<K>)
    requires IsOverflowTop(z, rest)
    ensures IsOverflowTop(if OverflowAtMost(y, z) then z else y, rest + multiset{y})
  {
    var m := rest + multiset{y};
    var t := if OverflowAtMost(y, z) then z else y;
    forall w | w in m ensures OverflowAtMost(w, t) {
      if w != y {
        assert w in rest;
        assert OverflowAtMost(w, z);
      }
    }
  }

  /** The entry the primary heap pops: one with the smallest virtual finish
      time. */
  ghost function PopPrimary<K>(m: multiset<HeapItem<K>>): (x: HeapItem<K>)
    requires m != multiset{}
    ensures IsPrimaryTop(x, m)
  {
    PrimaryTopExists(m);
    var x :| IsPrimaryTop(x, m);
    x
  }

  /** The entry the overflow heap pops: greatest weight, then oldest. */
  ghost function PopOverflow<K>(m: multiset<HeapItem<K>>): (x: HeapItem<K>)
    requires m != multiset{}
    ensures IsOverflowTop(x, m)
  {
    OverflowTopExists(m);
    var x :| IsOverflowTop(x, m);
    x
  }

  /** With distinct arrival numbers the overflow heap has exactly one top,
      so the order in which overflow entries leave is fully determined. */
  lemma OverflowTopUnique<K>(m: multiset<HeapItem<K>>, x: HeapItem<K>, y: HeapItem<K>)
    requires UniqueSeqnos(m)
    requires IsOverflowTop(x, m) && IsOverflowTop(y, m)
    ensures x == y
  {
    assert OverflowAtMost(x, y) && OverflowAtMost(y, x);
  }
}
