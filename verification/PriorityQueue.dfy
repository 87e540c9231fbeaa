/**
 The queue every simulated host keeps its flows in: a plain vector that is scanned for its best
 element, with the position of the last scan's winner cached for the removal that follows.
 `comp(a, b)` reads "a is served after b"; it looks at fields that change while elements are queued.
 */
module PriorityQueue {

  /** A usable order: asymmetric, and "not after" composes. */
  ghost predicate StrictWeakOrder<T(!new)>(comp: (T, T) -> bool) {
    && (forall a, b :: comp(a, b) ==> !comp(b, a))
    && (forall a, b, c :: !comp(a, b) && !comp(b, c) ==> !comp(a, c))
  }

  ghost predicate Irreflexive<T(!new)>(comp: (T, T) -> bool) {
    forall a :: !comp(a, a)
  }

  /** Position of the winner once `best` has won against the first `i` elements. */
  function ScanFrom<T>(v: seq<T>, comp: (T, T) -> bool, i: nat, best: nat): (r: nat)
    requires best < |v| && i <= |v|
    ensures r < |v|
    decreases |v| - i
  {
    if i == |v| then best
    else ScanFrom(v, comp, i + 1, if !comp(v[i], v[best]) then i else best)
  }

  function BestIndex<T>(v: seq<T>, comp: (T, T) -> bool): (r: nat)
    requires v != []
    ensures r < |v|
  {
    ScanFrom(v, comp, 0, 0)
  }

  function RemoveAt<T>(v: seq<T>, i: nat): seq<T>
    requires i < |v|
  {
    v[..i] + v[i + 1..]
  }

  lemma {:induction false} ScanFromIsBest<T(!new)>(v: seq<T>, comp: (T, T) -> bool, i: nat, best: nat)
    requires StrictWeakOrder(comp)
    requires best < |v| && i <= |v| && (best < i || i == best == 0)
    requires forall j | 0 <= j < i :: !comp(v[best], v[j])
    requires forall j | best < j < i :: comp(v[j], v[best])
    ensures var r := ScanFrom(v, comp, i, best);
            && (forall j | 0 <= j < |v| :: !comp(v[r], v[j]))
            && (forall j | r < j < |v| :: comp(v[j], v[r]))
    decreases |v| - i
  {
    if i < |v| {
      if !comp(v[i], v[best]) {
        ScanFromIsBest(v, comp, i + 1, i);
      } else {
        ScanFromIsBest(v, comp, i + 1, best);
      }
    }
  }

  /** The winner is served after nobody, and among equals it is the one pushed last. */
  lemma BestIndexIsBest<T(!new)>(v: seq<T>, comp: (T, T) -> bool)
    requires StrictWeakOrder(comp) && v != []
    ensures var r := BestIndex(v, comp);
            && (forall j | 0 <= j < |v| :: !comp(v[r], v[j]))
            && (forall j | r < j < |v| :: comp(v[j], v[r]))
  {
    ScanFromIsBest(v, comp, 0, 0);
  }

  /** Removing one position takes exactly that element out of the bag. */
  lemma RemoveAtMultiset<T>(v: seq<T>, i: nat)
    requires i < |v|
    ensures multiset(v) == multiset(RemoveAt(v, i)) + multiset{v[i]}
  {
    assert v == v[..i] + [v[i]] + v[i + 1..];
  }

  class CustomPriorityQueue<T(!new)> {
    var v: seq<T>
    var comp: (T, T) -> bool
    var bestIndex: int

    ghost predicate Valid()
      reads this
    {
      Irreflexive(comp) && -1 <= bestIndex < |v|
    }

    constructor (comp: (T, T) -> bool)
      requires Irreflexive(comp)
      ensures Valid() && v == [] && this.comp == comp && bestIndex == -1
    {
      this.v := [];
      this.comp := comp;
      this.bestIndex := -1;
    }

    method Push(x: T)
      requires Valid()
      modifies this
      ensures Valid() && comp == old(comp)
      ensures v == old(v) + [x] && bestIndex == -1
    {
      v := v + [x];
      bestIndex := -1;
    }

    /** Rescans the whole vector, whatever was cached. */
    method Top() returns (best: T)
      requires Valid() && v != []
      modifies this`bestIndex
      ensures Valid()
      ensures bestIndex == BestIndex(v, comp) && best == v[bestIndex]
      ensures StrictWeakOrder(comp) ==> forall j | 0 <= j < |v| :: !comp(best, v[j])
    {
      best := v[0];
      ghost var b: nat := 0;
      var i := 0;
      while i < |v|
        invariant 0 <= i <= |v| && b < |v| && best == v[b]
        invariant if i == 0 then b == 0 else bestIndex == b
        invariant -1 <= bestIndex < |v|
        invariant ScanFrom(v, comp, i, b) == BestIndex(v, comp)
      {
        if !comp(v[i], best) {
          best := v[i];
          bestIndex := i;
          b := i;
        }
        i := i + 1;
      }
      if StrictWeakOrder(comp) {
        BestIndexIsBest(v, comp);
      }
    }

    /** Removes the element the last `Top` returned, even when the order has changed since. */
    method Pop()
      requires Valid() && v != []
      modifies this
      ensures Valid() && comp == old(comp) && bestIndex == -1
      ensures old(bestIndex) >= 0 ==> v == RemoveAt(old(v), old(bestIndex))
      ensures old(bestIndex) < 0 ==> v == RemoveAt(old(v), BestIndex(old(v), comp))
    {
      if bestIndex < 0 {
        var _ := Top();
      }
      if bestIndex >= 0 {
        v := v[..bestIndex] + v[bestIndex + 1..];
        bestIndex := -1;
      }
    }

    /** What the hosts do: look, let the keys move, remove.  The element taken out is the one seen. */
    method TakeTop(laterComp: (T, T) -> bool) returns (best: T)
      requires Valid() && v != [] && Irreflexive(laterComp)
      modifies this
      ensures Valid() && comp == laterComp
      ensures multiset(old(v)) == multiset(v) + multiset{best}
      ensures best == old(v)[BestIndex(old(v), old(comp))]
    {
      best := Top();
      comp := laterComp;
      RemoveAtMultiset(v, bestIndex);
      Pop();
    }
  }
}
