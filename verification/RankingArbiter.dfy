/**
 The central arbiter of the Ranking protocol: one busy bit per sender and per receiver, a queue of
 receivers' requests ordered by a random ranking, and an epoch that serves the whole queue greedily.
 */
module RankingArbiter {
  import opened Options
  import opened PriorityQueue
  import opened Matching

  /** A receiver asks for any one of `srcs`, in its order of preference. */
  datatype Request = Request(dst: nat, srcs: seq<nat>)

  datatype Grant = Grant(src: nat, dst: nat)

  /** `srcFree` and `dstFree` are true for a free port. */
  datatype Arbiter = Arbiter(srcFree: seq<bool>, dstFree: seq<bool>, pending: seq<Request>, ranking: seq<real>) {
    ghost predicate WellFormed() {
      && |srcFree| == |dstFree|
      && forall i | 0 <= i < |pending| :: RequestInRange(pending[i])
    }

    ghost predicate RequestInRange(r: Request) {
      r.dst < |dstFree| && InRange(r.srcs, |srcFree|)
    }
  }

  ghost predicate InRange(srcs: seq<nat>, n: nat) {
    forall i | 0 <= i < |srcs| :: srcs[i] < n
  }

  function Rank(ranking: seq<real>, dst: nat): real {
    if dst < |ranking| then ranking[dst] else 0.0
  }

  function LaterThan(ranking: seq<real>): (Request, Request) -> bool {
    (a: Request, b: Request) => Rank(ranking, a.dst) > Rank(ranking, b.dst)
  }

  /** Some place of `s` in the list has only busy senders before it. */
  ghost predicate FirstListed(srcs: seq<nat>, s: nat, srcFree: seq<bool>) {
    exists i :: 0 <= i < |srcs| && srcs[i] == s && AllBusy(srcs[..i], srcFree)
  }

  ghost predicate AllBusy(srcs: seq<nat>, srcFree: seq<bool>) {
    forall x | x in srcs :: x < |srcFree| && !srcFree[x]
  }

  function FirstFree(srcs: seq<nat>, srcFree: seq<bool>): (r: Option<nat>)
    requires InRange(srcs, |srcFree|)
    ensures r.None? ==> forall i | 0 <= i < |srcs| :: !srcFree[srcs[i]]
    ensures r.Some? ==> r.value in srcs && r.value < |srcFree| && srcFree[r.value]
    ensures r.Some? ==> FirstListed(srcs, r.value, srcFree)
  {
    if srcs == [] then None
    else if srcFree[srcs[0]] then
      assert AllBusy(srcs[..0], srcFree);
      Some(srcs[0])
    else
      var r := FirstFree(srcs[1..], srcFree);
      FirstListedLater(srcs, r, srcFree);
      r
  }

  lemma FirstListedLater(srcs: seq<nat>, r: Option<nat>, srcFree: seq<bool>)
    requires srcs != [] && srcs[0] < |srcFree| && !srcFree[srcs[0]]
    ensures r.Some? && FirstListed(srcs[1..], r.value, srcFree) ==> FirstListed(srcs, r.value, srcFree)
  {
    if r.Some? && FirstListed(srcs[1..], r.value, srcFree) {
      var i :| 0 <= i < |srcs[1..]| && srcs[1..][i] == r.value && AllBusy(srcs[1..][..i], srcFree);
      assert srcs[..i + 1] == [srcs[0]] + srcs[1..][..i];
      assert srcs[i + 1] == r.value && AllBusy(srcs[..i + 1], srcFree);
    }
  }

  /** Take the best-ranked request out of the queue. */
  function Next(a: Arbiter): (r: (Request, Arbiter))
    requires a.pending != []
    ensures a.WellFormed() ==> r.1.WellFormed() && a.RequestInRange(r.0)
  {
    var i := BestIndex(a.pending, LaterThan(a.ranking));
    (a.pending[i], a.(pending := RemoveAt(a.pending, i)))
  }

  /** What one request gets: nothing when its receiver is busy, else its first free sender. */
  function Choice(a: Arbiter, r: Request): Option<nat>
    requires a.WellFormed() && a.RequestInRange(r)
  {
    if a.dstFree[r.dst] then FirstFree(r.srcs, a.srcFree) else None
  }

  function Occupy(a: Arbiter, g: Grant): Arbiter
    requires g.src < |a.srcFree| && g.dst < |a.dstFree|
  {
    a.(srcFree := a.srcFree[g.src := false], dstFree := a.dstFree[g.dst := false])
  }

  /** Serve requests until the queue is empty. */
  function Serve(a: Arbiter): (Arbiter, seq<Grant>)
    requires a.WellFormed()
    decreases |a.pending|
  {
    if a.pending == [] then (a, [])
    else
      var (req, rest) := Next(a);
      match Choice(rest, req)
      case None => Serve(rest)
      case Some(s) =>
        var (done, grants) := Serve(Occupy(rest, Grant(s, req.dst)));
        (done, [Grant(s, req.dst)] + grants)
  }

  /** A request joins the queue; a returned grant frees both its ports, in that order. */
  function Receive(a: Arbiter, r: Request, nrts: Option<Grant>): Arbiter
    requires nrts.Some? ==> nrts.value.src < |a.srcFree| && nrts.value.dst < |a.dstFree|
  {
    var queued := a.(pending := a.pending + [r]);
    match nrts
    case None => queued
    case Some(g) => queued.(srcFree := a.srcFree[g.src := true], dstFree := a.dstFree[g.dst := true])
  }

  // ---- What an epoch achieves ----

  function SrcsOf(grants: seq<Grant>): (r: seq<nat>)
    ensures |r| == |grants|
  {
    seq(|grants|, i requires 0 <= i < |grants| => grants[i].src)
  }

  function DstsOf(grants: seq<Grant>): (r: seq<nat>)
    ensures |r| == |grants|
  {
    seq(|grants|, i requires 0 <= i < |grants| => grants[i].dst)
  }

  /** The ports `used` were free, are distinct, and are exactly the ones that became busy. */
  ghost predicate Allocates(before: seq<bool>, after: seq<bool>, used: seq<nat>) {
    && |after| == |before|
    && (forall i | 0 <= i < |used| :: used[i] < |before| && before[used[i]])
    && (forall i, j | 0 <= i < j < |used| :: used[i] != used[j])
    && (forall x | 0 <= x < |before| :: after[x] <==> before[x] && x !in used)
  }

  lemma AllocatesOneMore(before: seq<bool>, x: nat, after: seq<bool>, used: seq<nat>)
    requires x < |before| && before[x]
    requires Allocates(before[x := false], after, used)
    ensures Allocates(before, after, [x] + used)
  {
    forall i | 0 <= i < |used|
      ensures used[i] != x && before[used[i]]
    {
      assert before[x := false][used[i]];
    }
    forall y | 0 <= y < |before|
      ensures after[y] <==> before[y] && y !in [x] + used
    {
      assert y in [x] + used <==> y == x || y in used;
    }
  }

  /** Some pending request asked for this pair. */
  ghost predicate Asked(pending: seq<Request>, src: nat, dst: nat) {
    exists r :: r in pending && r.dst == dst && src in r.srcs
  }

  lemma NextKeepsTheRest(a: Arbiter)
    requires a.pending != []
    ensures forall r :: r in a.pending <==> r == Next(a).0 || r in Next(a).1.pending
    ensures |Next(a).1.pending| == |a.pending| - 1
  {
    var i := BestIndex(a.pending, LaterThan(a.ranking));
    RemoveAtMultiset(a.pending, i);
    forall r
      ensures r in a.pending <==> r == Next(a).0 || r in Next(a).1.pending
    {
      assert r in a.pending <==> r in multiset(a.pending);
      assert r in RemoveAt(a.pending, i) <==> r in multiset(RemoveAt(a.pending, i));
    }
  }

  lemma {:induction false} ServeAsked(a: Arbiter)
    requires a.WellFormed()
    ensures forall i | 0 <= i < |Serve(a).1| :: Asked(a.pending, Serve(a).1[i].src, Serve(a).1[i].dst)
    decreases |a.pending|
  {
    if a.pending != [] {
      NextKeepsTheRest(a);
      var (req, rest) := Next(a);
      match Choice(rest, req) {
        case None =>
          ServeAsked(rest);
        case Some(s) =>
          ServeAsked(Occupy(rest, Grant(s, req.dst)));
      }
    }
  }

  lemma {:induction false} ServeEmpties(a: Arbiter)
    requires a.WellFormed()
    ensures Serve(a).0.WellFormed() && Serve(a).0.pending == [] && Serve(a).0.ranking == a.ranking
    decreases |a.pending|
  {
    if a.pending != [] {
      var (req, rest) := Next(a);
      match Choice(rest, req) {
        case None =>
          ServeEmpties(rest);
        case Some(s) =>
          ServeEmpties(Occupy(rest, Grant(s, req.dst)));
      }
    }
  }

  lemma {:induction false} ServeTakesSenders(a: Arbiter)
    requires a.WellFormed()
    ensures Allocates(a.srcFree, Serve(a).0.srcFree, SrcsOf(Serve(a).1))
    decreases |a.pending|
  {
    if a.pending != [] {
      var (req, rest) := Next(a);
      match Choice(rest, req) {
        case None =>
          ServeTakesSenders(rest);
        case Some(s) =>
          var taken := Occupy(rest, Grant(s, req.dst));
          ServeTakesSenders(taken);
          var (done, grants) := Serve(taken);
          AllocatesOneMore(a.srcFree, s, done.srcFree, SrcsOf(grants));
          assert SrcsOf([Grant(s, req.dst)] + grants) == [s] + SrcsOf(grants);
      }
    }
  }

  lemma {:induction false} ServeTakesReceivers(a: Arbiter)
    requires a.WellFormed()
    ensures Allocates(a.dstFree, Serve(a).0.dstFree, DstsOf(Serve(a).1))
    decreases |a.pending|
  {
    if a.pending != [] {
      var (req, rest) := Next(a);
      match Choice(rest, req) {
        case None =>
          ServeTakesReceivers(rest);
        case Some(s) =>
          var taken := Occupy(rest, Grant(s, req.dst));
          ServeTakesReceivers(taken);
          var (done, grants) := Serve(taken);
          AllocatesOneMore(a.dstFree, req.dst, done.dstFree, DstsOf(grants));
          assert DstsOf([Grant(s, req.dst)] + grants) == [req.dst] + DstsOf(grants);
      }
    }
  }

  /** An epoch empties the queue and hands out disjoint, previously free, requested pairs. */
  lemma ServeAllocates(a: Arbiter)
    requires a.WellFormed()
    ensures Serve(a).0.WellFormed() && Serve(a).0.pending == [] && Serve(a).0.ranking == a.ranking
    ensures Allocates(a.srcFree, Serve(a).0.srcFree, SrcsOf(Serve(a).1))
    ensures Allocates(a.dstFree, Serve(a).0.dstFree, DstsOf(Serve(a).1))
    ensures forall i | 0 <= i < |Serve(a).1| :: Asked(a.pending, Serve(a).1[i].src, Serve(a).1[i].dst)
  {
    ServeEmpties(a);
    ServeTakesSenders(a);
    ServeTakesReceivers(a);
    ServeAsked(a);
  }

  lemma LaterThanIsAnOrder(ranking: seq<real>)
    ensures StrictWeakOrder(LaterThan(ranking))
  {
  }

  /**
   Why a request went unserved: each free sender it asked for, while its own receiver was free, went
   to a receiver that ranks no later, or its own receiver was served by another of its requests.
   */
  ghost predicate Outranked(a: Arbiter, grants: seq<Grant>, src: nat, dst: nat) {
    exists g :: g in grants && (g.dst == dst || (g.src == src && Rank(a.ranking, g.dst) <= Rank(a.ranking, dst)))
  }

  lemma {:induction false} ServeIsMaximal(a: Arbiter, r: Request, src: nat)
    requires a.WellFormed() && r in a.pending && src in r.srcs
    requires a.srcFree[src] && a.dstFree[r.dst]
    ensures Outranked(a, Serve(a).1, src, r.dst)
    decreases |a.pending|
  {
    NextKeepsTheRest(a);
    LaterThanIsAnOrder(a.ranking);
    BestIndexIsBest(a.pending, LaterThan(a.ranking));
    var (req, rest) := Next(a);
    match Choice(rest, req) {
      case None =>
        ServeIsMaximal(rest, r, src);
      case Some(s) =>
        var g := Grant(s, req.dst);
        var grants := Serve(Occupy(rest, g)).1;
        assert g in Serve(a).1 && forall h | h in grants :: h in Serve(a).1;
        if req.dst != r.dst && s != src {
          ServeIsMaximal(Occupy(rest, g), r, src);
          var h :| h in grants && (h.dst == r.dst || (h.src == src && Rank(a.ranking, h.dst) <= Rank(a.ranking, r.dst)));
          assert h in Serve(a).1;
        } else if req.dst != r.dst {
          assert !LaterThan(a.ranking)(req, r);
        }
    }
  }

  /**
   Each source listed before the granted one was busy when the epoch began, or was granted to a
   receiver that ranks no later.
   */
  ghost predicate GivenAway(a: Arbiter, grants: seq<Grant>, srcs: seq<nat>, dst: nat) {
    forall x | x in srcs :: x < |a.srcFree| &&
      (!a.srcFree[x] || exists g :: g in grants && g.src == x && Rank(a.ranking, g.dst) <= Rank(a.ranking, dst))
  }

  /** The grant answers a request of its receiver, with the first source listed that was not given away. */
  ghost predicate Preferred(a: Arbiter, grants: seq<Grant>, g: Grant) {
    exists r, i :: r in a.pending && r.dst == g.dst && 0 <= i < |r.srcs| && r.srcs[i] == g.src
      && GivenAway(a, grants, r.srcs[..i], g.dst)
  }

  lemma {:induction false} ServePrefersEarlier(a: Arbiter, g: Grant)
    requires a.WellFormed() && g in Serve(a).1
    ensures Preferred(a, Serve(a).1, g)
    decreases |a.pending|
  {
    NextKeepsTheRest(a);
    var (req, rest) := Next(a);
    match Choice(rest, req) {
      case None =>
        ServePrefersEarlier(rest, g);
        StillPreferred(a, rest, None, Serve(a).1, Serve(a).1, g);
      case Some(s) =>
        var first := Grant(s, req.dst);
        var taken := Occupy(rest, first);
        if g in Serve(taken).1 {
          ServePrefersEarlier(taken, g);
          BestRanksFirst(a, g.dst);
          StillPreferred(a, taken, Some(first), Serve(taken).1, Serve(a).1, g);
        } else {
          var i :| 0 <= i < |req.srcs| && req.srcs[i] == s && AllBusy(req.srcs[..i], rest.srcFree);
          assert GivenAway(a, Serve(a).1, req.srcs[..i], req.dst);
        }
    }
  }

  /** A receiver that still has a request ranks no earlier than the one served. */
  lemma BestRanksFirst(a: Arbiter, dst: nat)
    requires a.pending != [] && exists r :: r in a.pending && r.dst == dst
    ensures Rank(a.ranking, Next(a).0.dst) <= Rank(a.ranking, dst)
  {
    LaterThanIsAnOrder(a.ranking);
    BestIndexIsBest(a.pending, LaterThan(a.ranking));
    var r :| r in a.pending && r.dst == dst;
    assert !LaterThan(a.ranking)(Next(a).0, r);
  }

  /** What is preferred after the first request, is preferred before it. */
  lemma StillPreferred(a: Arbiter, b: Arbiter, first: Option<Grant>, grants: seq<Grant>, all: seq<Grant>, g: Grant)
    requires Preferred(b, grants, g) && a.ranking == b.ranking && |a.srcFree| == |b.srcFree|
    requires (forall r | r in b.pending :: r in a.pending) && forall h | h in grants :: h in all
    requires forall x | 0 <= x < |b.srcFree| && !b.srcFree[x] :: !a.srcFree[x] || (first.Some? && x == first.value.src)
    requires first.Some? ==> first.value in all && Rank(a.ranking, first.value.dst) <= Rank(a.ranking, g.dst)
    ensures Preferred(a, all, g)
  {
    var r, i :| r in b.pending && r.dst == g.dst && 0 <= i < |r.srcs| && r.srcs[i] == g.src
      && GivenAway(b, grants, r.srcs[..i], g.dst);
    forall x | x in r.srcs[..i]
      ensures x < |a.srcFree| && (!a.srcFree[x] || exists h :: h in all && h.src == x && Rank(a.ranking, h.dst) <= Rank(a.ranking, g.dst))
    {
      if b.srcFree[x] {
        var h :| h in grants && h.src == x && Rank(b.ranking, h.dst) <= Rank(b.ranking, g.dst);
        assert h in all;
      }
    }
    assert GivenAway(a, all, r.srcs[..i], g.dst);
  }

  /** The pairs an epoch could have granted: asked for, and both ports free at its start. */
  ghost predicate Grantable(a: Arbiter, e: Edge) {
    && e.src < |a.srcFree| && e.dst < |a.dstFree| && a.srcFree[e.src] && a.dstFree[e.dst]
    && Asked(a.pending, e.src, e.dst)
  }

  function GrantEdges(grants: seq<Grant>): set<Edge> {
    set g | g in grants :: Edge(0, g.src, g.dst)
  }

  lemma GrantsConflictFree(before: seq<bool>, after: seq<bool>, before': seq<bool>, after': seq<bool>, grants: seq<Grant>)
    requires Allocates(before, after, SrcsOf(grants)) && Allocates(before', after', DstsOf(grants))
    ensures ConflictFree(GrantEdges(grants))
  {
    forall x, y | x in GrantEdges(grants) && y in GrantEdges(grants) && Conflict(x, y)
      ensures x == y
    {
      var i :| 0 <= i < |grants| && x == Edge(0, grants[i].src, grants[i].dst);
      var j :| 0 <= j < |grants| && y == Edge(0, grants[j].src, grants[j].dst);
      assert SrcsOf(grants)[i] == x.src && DstsOf(grants)[i] == x.dst;
      assert SrcsOf(grants)[j] == y.src && DstsOf(grants)[j] == y.dst;
    }
  }

  lemma GrantsCover(a: Arbiter, e: Edge)
    requires a.WellFormed() && Grantable(a, e)
    ensures exists m :: m in GrantEdges(Serve(a).1) && Conflict(m, e)
  {
    var r :| r in a.pending && r.dst == e.dst && e.src in r.srcs;
    ServeIsMaximal(a, r, e.src);
    var g :| g in Serve(a).1 && (g.dst == e.dst || g.src == e.src);
    var m := Edge(0, g.src, g.dst);
    assert m in GrantEdges(Serve(a).1) && Conflict(m, e);
  }

  /** No conflict-free choice of grantable pairs is more than twice as large as what the epoch granted. */
  lemma EpochIsHalfOptimal(a: Arbiter, other: set<Edge>)
    requires a.WellFormed() && ConflictFree(other)
    requires forall e | e in other :: Grantable(a, e)
    ensures ConflictFree(GrantEdges(Serve(a).1))
    ensures |other| <= 2 * |GrantEdges(Serve(a).1)|
  {
    var (done, grants) := Serve(a);
    ServeAllocates(a);
    GrantsConflictFree(a.srcFree, done.srcFree, a.dstFree, done.dstFree, grants);
    forall e | e in other
      ensures exists m :: m in GrantEdges(grants) && Conflict(m, e)
    {
      GrantsCover(a, e);
    }
    AtLeastHalf(GrantEdges(grants), other, other);
  }

  // ---- The arbiter object ----

  class RankingArbiter {
    const srcState: array<bool>
    const dstState: array<bool>
    var pendingQ: seq<Request>
    var ranking: seq<real>

    ghost function State(): Arbiter
      reads this, srcState, dstState
    {
      Arbiter(srcState[..], dstState[..], pendingQ, ranking)
    }

    ghost predicate Valid()
      reads this, srcState, dstState
    {
      srcState != dstState && State().WellFormed()
    }

    constructor (numHosts: nat, ranking: seq<real>)
      ensures Valid() && fresh(srcState) && fresh(dstState)
      ensures State() == Arbiter(seq(numHosts, _ => true), seq(numHosts, _ => true), [], ranking)
    {
      srcState := new bool[numHosts](_ => true);
      dstState := new bool[numHosts](_ => true);
      pendingQ := [];
      this.ranking := ranking;
      new;
      assert srcState[..] == seq(numHosts, _ => true) == dstState[..];
    }

    /** Looks through the list up to its first free sender. */
    method FindSource(srcs: seq<nat>) returns (s: Option<nat>)
      requires InRange(srcs, srcState.Length)
      ensures s == FirstFree(srcs, srcState[..])
    {
      s := None;
      var k := 0;
      while k < |srcs| && !srcState[srcs[k]]
        invariant 0 <= k <= |srcs| && FirstFree(srcs, srcState[..]) == FirstFree(srcs[k..], srcState[..])
      {
        k := k + 1;
      }
      if k < |srcs| {
        s := Some(srcs[k]);
      }
    }

    /** The body of the epoch's loop: give the request its first free sender, if its receiver is free. */
    method ServeRequest(request: Request) returns (s: Option<nat>)
      requires Valid() && State().RequestInRange(request)
      modifies srcState, dstState
      ensures s == Choice(old(State()), request)
      ensures State() == if s.Some? then Occupy(old(State()), Grant(s.value, request.dst)) else old(State())
    {
      s := None;
      if dstState[request.dst] {
        s := FindSource(request.srcs);
        if s.Some? {
          srcState[s.value] := false;
          dstState[request.dst] := false;
        }
      }
    }

    /** The best-ranked request leaves the queue and is served. */
    method ServeNext(sent: seq<Grant>, ghost all: (Arbiter, seq<Grant>)) returns (grants: seq<Grant>)
      requires Valid() && pendingQ != [] && all == (Serve(State()).0, sent + Serve(State()).1)
      modifies this`pendingQ, srcState, dstState
      ensures Valid() && |pendingQ| < |old(pendingQ)|
      ensures all == (Serve(State()).0, grants + Serve(State()).1)
    {
      grants := sent;
      ghost var before := State();
      NextKeepsTheRest(before);
      var i := BestIndex(pendingQ, LaterThan(ranking));
      var request := pendingQ[i];
      pendingQ := RemoveAt(pendingQ, i);
      assert (request, State()) == Next(before);
      var s := ServeRequest(request);
      if s.Some? {
        grants := sent + [Grant(s.value, request.dst)];
        assert grants + Serve(State()).1 == sent + ([Grant(s.value, request.dst)] + Serve(State()).1);
      }
    }

    /** The queue is emptied and the grants sent; `newRanking` is the occasional reshuffle. */
    method ScheduleEpoch(newRanking: Option<seq<real>>) returns (grants: seq<Grant>)
      requires Valid()
      modifies this, srcState, dstState
      ensures Valid()
      ensures grants == Serve(old(State())).1
      ensures State() == Serve(old(State())).0.(ranking := if newRanking.Some? then newRanking.value else old(ranking))
    {
      ServeAllocates(State());
      grants := [];
      ghost var all := Serve(State());
      assert [] + Serve(State()).1 == Serve(State()).1;
      while pendingQ != []
        invariant Valid() && ranking == old(ranking)
        invariant all == (Serve(State()).0, grants + Serve(State()).1)
        decreases |pendingQ|
      {
        grants := ServeNext(grants, all);
      }
      assert Serve(State()) == (State(), []);
      if newRanking.Some? {
        ranking := newRanking.value;
      }
    }

    method ReceiveListSrcs(r: Request, nrts: Option<Grant>)
      requires Valid() && State().RequestInRange(r)
      requires nrts.Some? ==> nrts.value.src < srcState.Length && nrts.value.dst < dstState.Length
      modifies this`pendingQ, srcState, dstState
      ensures Valid() && State() == Receive(old(State()), r, nrts)
    {
      pendingQ := pendingQ + [r];
      if nrts.Some? {
        srcState[nrts.value.src] := true;
        dstState[nrts.value.dst] := true;
      }
    }
  }
}
