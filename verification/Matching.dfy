/**
 Sender/receiver matchings.  Every scheduler of the repository (the Fastpass arbiter, the Ranking
 arbiter, the prototype controller and PIM) hands out conflict-free sets of sender/receiver pairs.
 Here is what makes such a set good: a conflict-free set that cannot be extended holds at least
 half as many pairs as any other conflict-free set of the same candidates.
 */
module Matching {

  /** A candidate: `id` tells apart two flows between the same two ports. */
  datatype Edge = Edge(id: nat, src: nat, dst: nat)

  predicate Conflict(a: Edge, b: Edge) {
    a.src == b.src || a.dst == b.dst
  }

  /** No two candidates of `m` share a port. */
  ghost predicate ConflictFree(m: set<Edge>) {
    forall a, b | a in m && b in m :: Conflict(a, b) ==> a == b
  }

  /** Every candidate shares a port with a chosen one. */
  ghost predicate Covers(m: set<Edge>, candidates: set<Edge>) {
    forall e | e in candidates :: exists a :: a in m && Conflict(a, e)
  }

  function Sources(m: set<Edge>): set<nat> {
    set e | e in m :: e.src
  }

  function Destinations(m: set<Edge>): set<nat> {
    set e | e in m :: e.dst
  }

  /** A set of candidates has no more ports on either side than candidates. */
  lemma {:induction false} PortsBounded(m: set<Edge>)
    ensures |Sources(m)| <= |m| && |Destinations(m)| <= |m|
  {
    if m == {} {
      assert Sources(m) == {} && Destinations(m) == {};
    } else {
      var e :| e in m;
      PortsBounded(m - {e});
      assert Sources(m) == Sources(m - {e}) + {e.src};
      assert Destinations(m) == Destinations(m - {e}) + {e.dst};
    }
  }

  /** In a conflict-free set the candidates that use a given set of ports are no more than the ports. */
  lemma {:induction false} ConflictFreeBounded(n: set<Edge>, srcs: set<nat>, dsts: set<nat>)
    requires ConflictFree(n)
    requires forall e | e in n :: e.src in srcs || e.dst in dsts
    ensures |n| <= |srcs| + |dsts|
    decreases n
  {
    if n != {} {
      var e :| e in n;
      if e.src in srcs {
        ConflictFreeBounded(n - {e}, srcs - {e.src}, dsts);
      } else {
        ConflictFreeBounded(n - {e}, srcs, dsts - {e.dst});
      }
    }
  }

  /** The half-of-optimum bound shared by all the schedulers. */
  lemma AtLeastHalf(m: set<Edge>, candidates: set<Edge>, other: set<Edge>)
    requires Covers(m, candidates)
    requires other <= candidates && ConflictFree(other)
    ensures |other| <= 2 * |m|
  {
    PortsBounded(m);
    forall e | e in other
      ensures e.src in Sources(m) || e.dst in Destinations(m)
    {
      var a :| a in m && Conflict(a, e);
    }
    ConflictFreeBounded(other, Sources(m), Destinations(m));
  }

  lemma {:induction false} AsManySources(m: set<Edge>)
    requires forall a, b | a in m && b in m :: a.src == b.src ==> a == b
    ensures |Sources(m)| == |m|
  {
    if m == {} {
      assert Sources(m) == {};
    } else {
      var e :| e in m;
      AsManySources(m - {e});
      assert Sources(m) == Sources(m - {e}) + {e.src};
      assert e.src !in Sources(m - {e});
    }
  }

  lemma {:induction false} AsManyDestinations(m: set<Edge>)
    requires forall a, b | a in m && b in m :: a.dst == b.dst ==> a == b
    ensures |Destinations(m)| == |m|
  {
    if m == {} {
      assert Destinations(m) == {};
    } else {
      var e :| e in m;
      AsManyDestinations(m - {e});
      assert Destinations(m) == Destinations(m - {e}) + {e.dst};
      assert e.dst !in Destinations(m - {e});
    }
  }

  /** In a conflict-free set pairs, sources and destinations are equally many. */
  lemma ConflictFreeIsOneToOne(m: set<Edge>)
    requires ConflictFree(m)
    ensures |Sources(m)| == |m| == |Destinations(m)|
  {
    AsManySources(m);
    AsManyDestinations(m);
  }
}
