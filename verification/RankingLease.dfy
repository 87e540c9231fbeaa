/**
 The Ranking protocol as a whole: the arbiter, all receivers and a network that may delay, reorder and
 lose messages.  A grant is in one place at a time, and the arbiter's busy bits are always the ports of
 a matching.
 */
module RankingLease {
  import opened Options
  import opened A = RankingArbiter
  import opened R = RankingReceiver
  import Matching

  datatype Config = Config(maxTokens: nat, nrtsGap: nat)

  datatype Msg = GosrcMsg(grant: Grant) | ListMsg(list: ListSrcs)

  /** Message numbers only tell messages apart.  `outstanding` is the grants not yet given back. */
  datatype System = System(arb: Arbiter, hosts: seq<Receiver>, net: map<nat, Msg>, outstanding: set<Grant>)

  datatype Action =
    | Epoch(ranking: Option<seq<real>>, ids: seq<nat>)
    | DeliverList(id: nat)
    | DeliverGosrc(id: nat, best: bool, srcs: seq<nat>, newId: nat)
    | Local(host: nat, input: Input, newId: nat)
    | Lose(id: nat)

  // ---- Steps ----

  function Returned(list: ListSrcs): Option<Grant> {
    match list.nrts
    case None => None
    case Some(src) => Some(Grant(src, list.dst))
  }

  function Issue(s: System, id: nat, g: Grant): System
    requires g.src < |s.arb.srcFree| && g.dst < |s.arb.dstFree|
  {
    s.(arb := Occupy(s.arb, g), net := s.net[id := GosrcMsg(g)], outstanding := s.outstanding + {g})
  }

  ghost predicate InPorts(s: System, grants: seq<Grant>) {
    forall i | 0 <= i < |grants| :: grants[i].src < |s.arb.srcFree| && grants[i].dst < |s.arb.dstFree|
  }

  function IssueAll(s: System, ids: seq<nat>, grants: seq<Grant>): System
    requires |ids| == |grants| && InPorts(s, grants)
    decreases |grants|
  {
    if grants == [] then s
    else IssueAll(Issue(s, ids[0], grants[0]), ids[1..], grants[1..])
  }

  function Post(net: map<nat, Msg>, id: nat, msg: Option<ListSrcs>): map<nat, Msg> {
    if msg.Some? then net[id := ListMsg(msg.value)] else net
  }

  /** What may happen next. */
  ghost predicate Possible(s: System, a: Action, c: Config) {
    match a
    case Epoch(_, ids) =>
      && s.arb.WellFormed()
      && |ids| == |Serve(s.arb).1| && InPorts(s, Serve(s.arb).1)
      && (forall i | 0 <= i < |ids| :: ids[i] !in s.net)
      && (forall i, j | 0 <= i < j < |ids| :: ids[i] != ids[j])
    case DeliverList(id) =>
      && id in s.net && s.net[id].ListMsg?
      && (s.net[id].list.nrts.Some? ==> s.net[id].list.nrts.value < |s.arb.srcFree| && s.net[id].list.dst < |s.arb.dstFree|)
    case DeliverGosrc(id, _, srcs, newId) =>
      && id in s.net && s.net[id].GosrcMsg? && s.net[id].grant.dst < |s.hosts|
      && InRange(srcs, |s.hosts|) && newId !in s.net && 0 < c.maxTokens
    case Local(host, input, newId) =>
      && host < |s.hosts| && !input.Gosrc? && Enabled(s.hosts[host], input)
      && ListedInRange(input, |s.hosts|) && newId !in s.net
    case Lose(id) => id in s.net
  }

  ghost predicate ListedInRange(i: Input, n: nat) {
    i.TokensWanted? || InRange(i.srcs, n)
  }

  ghost function Apply(s: System, a: Action, c: Config): System
    requires Possible(s, a, c)
  {
    match a
    case Epoch(ranking, ids) =>
      var (done, grants) := Serve(s.arb);
      IssueAll(s, ids, grants).(arb := if ranking.Some? then done.(ranking := ranking.value) else done)
    case DeliverList(id) =>
      var list := s.net[id].list;
      var back := Returned(list);
      s.(arb := Receive(s.arb, Request(list.dst, list.srcs), back), net := s.net - {id},
         outstanding := if back.Some? then s.outstanding - {back.value} else s.outstanding)
    case DeliverGosrc(id, best, srcs, newId) =>
      var g := s.net[id].grant;
      var (h, msg) := Handle(s.hosts[g.dst], Gosrc(g.src, c.maxTokens, best, srcs), c.nrtsGap);
      s.(hosts := s.hosts[g.dst := h], net := Post(s.net - {id}, newId, msg))
    case Local(host, input, newId) =>
      var (h, msg) := Handle(s.hosts[host], input, c.nrtsGap);
      s.(hosts := s.hosts[host := h], net := Post(s.net, newId, msg))
    case Lose(id) => s.(net := s.net - {id})
  }

  ghost predicate Initial(s: System) {
    && |s.arb.srcFree| == |s.arb.dstFree| == |s.hosts|
    && (forall i | 0 <= i < |s.hosts| :: s.arb.srcFree[i] && s.arb.dstFree[i] && s.hosts[i] == NewReceiver(i))
    && s.arb.pending == [] && s.net == map[] && s.outstanding == {}
  }

  ghost predicate Run(ss: seq<System>, acts: seq<Action>, c: Config) {
    && |ss| == |acts| + 1 && Initial(ss[0])
    && forall i | 0 <= i < |acts| :: Possible(ss[i], acts[i], c) && ss[i + 1] == Apply(ss[i], acts[i], c)
  }

  // ---- Where grants are ----

  datatype Place = InFlight(id: nat) | AtHost(host: nat)

  /** The un-released grant found in a place: a GoSRC or an NRTS on its way, or a receiver that owes it. */
  function Holds(s: System, p: Place): Option<Grant> {
    match p
    case InFlight(id) =>
      if id !in s.net then None
      else if s.net[id].GosrcMsg? then Some(s.net[id].grant) else Returned(s.net[id].list)
    case AtHost(i) =>
      if i < |s.hosts| && Owes(s.hosts[i]).Some? then Some(Grant(Owes(s.hosts[i]).value, i)) else None
  }

  /** Each grant is in at most one place, and is outstanding. */
  ghost predicate OnePlaceEach(s: System) {
    && (forall p :: Holds(s, p).Some? ==> Holds(s, p).value in s.outstanding)
    && (forall p, q :: Holds(s, p).Some? && Holds(s, p) == Holds(s, q) ==> p == q)
  }

  /** The outstanding grants form a matching, and its ports are exactly the busy ones. */
  ghost predicate BusyIsMatching(s: System) {
    && |s.arb.srcFree| == |s.arb.dstFree| == |s.hosts|
    && (forall g, h | g in s.outstanding && h in s.outstanding :: g.src == h.src || g.dst == h.dst ==> g == h)
    && (forall x | 0 <= x < |s.hosts| :: !s.arb.srcFree[x] <==> exists g :: g in s.outstanding && g.src == x)
    && (forall x | 0 <= x < |s.hosts| :: !s.arb.dstFree[x] <==> exists g :: g in s.outstanding && g.dst == x)
  }

  ghost predicate Shape(s: System) {
    && s.arb.WellFormed() && |s.arb.dstFree| == |s.hosts|
    && (forall g | g in s.outstanding :: g.src < |s.hosts| && g.dst < |s.hosts|)
    && (forall i | 0 <= i < |s.hosts| :: s.hosts[i].id == i && ReceiverOk(s.hosts[i]))
    && (forall id | id in s.net && s.net[id].ListMsg? ::
          s.net[id].list.dst < |s.hosts| && InRange(s.net[id].list.srcs, |s.hosts|))
  }

  ghost predicate Inv(s: System) {
    Shape(s) && OnePlaceEach(s) && BusyIsMatching(s)
  }

  // ---- Every step keeps it ----

  lemma IssueKeeps(s: System, id: nat, g: Grant)
    requires Inv(s) && id !in s.net
    requires g.src < |s.hosts| && g.dst < |s.hosts| && s.arb.srcFree[g.src] && s.arb.dstFree[g.dst]
    ensures Inv(Issue(s, id, g))
  {
    var t := Issue(s, id, g);
    assert g !in s.outstanding;
    assert forall p :: Holds(t, p) == if p == InFlight(id) then Some(g) else Holds(s, p);
    forall x | 0 <= x < |s.hosts|
      ensures !t.arb.srcFree[x] <==> exists h :: h in t.outstanding && h.src == x
      ensures !t.arb.dstFree[x] <==> exists h :: h in t.outstanding && h.dst == x
    {
      assert g in t.outstanding;
    }
  }

  /** Grants that can be issued one after the other. */
  ghost predicate Issuable(s: System, ids: seq<nat>, grants: seq<Grant>) {
    && |ids| == |grants| && InPorts(s, grants)
    && (forall i | 0 <= i < |grants| :: s.arb.srcFree[grants[i].src] && s.arb.dstFree[grants[i].dst])
    && (forall i, j | 0 <= i < j < |grants| :: grants[i].src != grants[j].src && grants[i].dst != grants[j].dst)
    && (forall i | 0 <= i < |ids| :: ids[i] !in s.net)
    && (forall i, j | 0 <= i < j < |ids| :: ids[i] != ids[j])
  }

  lemma IssuableTail(s: System, ids: seq<nat>, grants: seq<Grant>)
    requires Issuable(s, ids, grants) && grants != []
    ensures Issuable(Issue(s, ids[0], grants[0]), ids[1..], grants[1..])
  {
    var t := Issue(s, ids[0], grants[0]);
    forall i | 0 <= i < |grants[1..]|
      ensures grants[1..][i].src < |t.arb.srcFree| && grants[1..][i].dst < |t.arb.dstFree|
      ensures t.arb.srcFree[grants[1..][i].src] && t.arb.dstFree[grants[1..][i].dst]
      ensures ids[1..][i] !in t.net
    {
      assert grants[1..][i] == grants[i + 1] && ids[1..][i] == ids[i + 1];
    }
  }

  lemma {:induction false} IssueAllKeeps(s: System, ids: seq<nat>, grants: seq<Grant>)
    requires Inv(s) && Issuable(s, ids, grants)
    ensures Inv(IssueAll(s, ids, grants)) && IssueAll(s, ids, grants).hosts == s.hosts
    decreases |grants|
  {
    if grants != [] {
      IssuableTail(s, ids, grants);
      IssueKeeps(s, ids[0], grants[0]);
      IssueAllKeeps(Issue(s, ids[0], grants[0]), ids[1..], grants[1..]);
    }
  }

  lemma {:induction false} IssueAllSrcBits(s: System, ids: seq<nat>, grants: seq<Grant>, src: seq<bool>)
    requires Issuable(s, ids, grants) && Allocates(s.arb.srcFree, src, SrcsOf(grants))
    ensures IssueAll(s, ids, grants).arb.srcFree == src
    decreases |grants|
  {
    if grants != [] {
      IssuableTail(s, ids, grants);
      assert SrcsOf(grants) == [grants[0].src] + SrcsOf(grants[1..]);
      OneFewer(s.arb.srcFree, grants[0].src, src, SrcsOf(grants[1..]));
      IssueAllSrcBits(Issue(s, ids[0], grants[0]), ids[1..], grants[1..], src);
    }
  }

  lemma {:induction false} IssueAllDstBits(s: System, ids: seq<nat>, grants: seq<Grant>, dst: seq<bool>)
    requires Issuable(s, ids, grants) && Allocates(s.arb.dstFree, dst, DstsOf(grants))
    ensures IssueAll(s, ids, grants).arb.dstFree == dst
    decreases |grants|
  {
    if grants != [] {
      IssuableTail(s, ids, grants);
      assert DstsOf(grants) == [grants[0].dst] + DstsOf(grants[1..]);
      OneFewer(s.arb.dstFree, grants[0].dst, dst, DstsOf(grants[1..]));
      IssueAllDstBits(Issue(s, ids[0], grants[0]), ids[1..], grants[1..], dst);
    }
  }

  lemma OneFewer(before: seq<bool>, x: nat, after: seq<bool>, used: seq<nat>)
    requires Allocates(before, after, [x] + used)
    ensures x < |before| && Allocates(before[x := false], after, used)
  {
    var all := [x] + used;
    assert all[0] == x;
    assert forall i | 0 <= i < |used| :: used[i] == all[i + 1];
    forall y | 0 <= y < |before|
      ensures after[y] <==> before[x := false][y] && y !in used
    {
      assert y in all <==> y == x || y in used;
    }
  }

  lemma EpochIssuable(s: System, a: Action, c: Config)
    requires Inv(s) && a.Epoch? && Possible(s, a, c)
    ensures Issuable(s, a.ids, Serve(s.arb).1)
  {
    var grants := Serve(s.arb).1;
    ServeAllocates(s.arb);
    assert forall i | 0 <= i < |grants| :: SrcsOf(grants)[i] == grants[i].src && DstsOf(grants)[i] == grants[i].dst;
  }

  lemma EpochKeeps(s: System, a: Action, c: Config)
    requires Inv(s) && a.Epoch? && Possible(s, a, c)
    ensures Inv(Apply(s, a, c))
  {
    var (done, grants) := Serve(s.arb);
    ServeAllocates(s.arb);
    EpochIssuable(s, a, c);
    IssueAllKeeps(s, a.ids, grants);
    IssueAllSrcBits(s, a.ids, grants, done.srcFree);
    IssueAllDstBits(s, a.ids, grants, done.dstFree);
    SameBitsKeep(IssueAll(s, a.ids, grants), Apply(s, a, c).arb);
  }

  lemma SameBitsKeep(t: System, arb: Arbiter)
    requires Inv(t) && arb.WellFormed() && arb.srcFree == t.arb.srcFree && arb.dstFree == t.arb.dstFree
    ensures Inv(t.(arb := arb))
  {
    assert forall p :: Holds(t.(arb := arb), p) == Holds(t, p);
  }

  /** A grant that comes back frees two busy ports, and nobody else was using them. */
  lemma ReturnFreesABusyPair(s: System, id: nat)
    requires Inv(s) && id in s.net && s.net[id].ListMsg? && s.net[id].list.nrts.Some?
    ensures var g := Returned(s.net[id].list).value;
            && g in s.outstanding && g.src < |s.hosts| && g.dst < |s.hosts|
            && !s.arb.srcFree[g.src] && !s.arb.dstFree[g.dst]
            && forall p | p != InFlight(id) && Holds(s, p).Some? ::
                 Holds(s, p).value.src != g.src && Holds(s, p).value.dst != g.dst
  {
    assert Holds(s, InFlight(id)) == Returned(s.net[id].list);
  }

  lemma DeliverListKeeps(s: System, id: nat, c: Config)
    requires Inv(s) && Possible(s, DeliverList(id), c)
    ensures Inv(Apply(s, DeliverList(id), c))
  {
    var t := Apply(s, DeliverList(id), c);
    assert forall p :: Holds(t, p) == if p == InFlight(id) then None else Holds(s, p);
    var list := s.net[id].list;
    if list.nrts.Some? {
      ReturnFreesABusyPair(s, id);
      var g := Returned(list).value;
      forall x | 0 <= x < |s.hosts|
        ensures !t.arb.srcFree[x] <==> exists h :: h in t.outstanding && h.src == x
        ensures !t.arb.dstFree[x] <==> exists h :: h in t.outstanding && h.dst == x
      {
        if !s.arb.srcFree[x] && x != g.src {
          var h :| h in s.outstanding && h.src == x;
          assert h in t.outstanding;
        }
        if !s.arb.dstFree[x] && x != g.dst {
          var h :| h in s.outstanding && h.dst == x;
          assert h in t.outstanding;
        }
      }
    }
  }

  /** Handlers only move grants: whatever is held afterwards was held before, in a place that lost it. */
  lemma MovesKeep(s: System, t: System, from: Place, to: Place)
    requires Inv(s) && Shape(t) && t.arb == s.arb && t.outstanding == s.outstanding && |t.hosts| == |s.hosts|
    requires forall p | p != from && p != to :: Holds(t, p) == Holds(s, p) || Holds(t, p).None?
    requires Holds(t, from).None? || (Holds(t, from) == Holds(s, from) && (to == from || Holds(t, to).None?))
    requires to == from || Holds(t, to).None? || Holds(t, to) == Holds(s, from)
    ensures Inv(t)
  {
  }

  lemma LocalKeeps(s: System, host: nat, input: Input, newId: nat, c: Config)
    requires Inv(s) && Possible(s, Local(host, input, newId), c)
    ensures Inv(Apply(s, Local(host, input, newId), c))
  {
    var t := Apply(s, Local(host, input, newId), c);
    LocalShape(s, host, input, newId, c);
    GrantEffect(s.hosts[host], input, c.nrtsGap);
    assert forall p | p != AtHost(host) && p != InFlight(newId) :: Holds(t, p) == Holds(s, p);
    MovesKeep(s, t, AtHost(host), InFlight(newId));
  }

  lemma LocalShape(s: System, host: nat, input: Input, newId: nat, c: Config)
    requires Inv(s) && Possible(s, Local(host, input, newId), c)
    ensures Shape(Apply(s, Local(host, input, newId), c))
  {
    GrantEffect(s.hosts[host], input, c.nrtsGap);
    HandleKeepsReceiverOk(s.hosts[host], input, c.nrtsGap);
    SentListInRange(s.hosts[host], input, c.nrtsGap, |s.hosts|);
  }

  lemma SentListInRange(h: Receiver, i: Input, nrtsGap: nat, n: nat)
    requires Enabled(h, i) && ListedInRange(i, n)
    ensures Handle(h, i, nrtsGap).1.Some? ==> InRange(Handle(h, i, nrtsGap).1.value.srcs, n)
  {
  }

  lemma GosrcShape(s: System, a: Action, c: Config)
    requires Inv(s) && a.DeliverGosrc? && Possible(s, a, c)
    ensures Shape(Apply(s, a, c))
  {
    var g := s.net[a.id].grant;
    var input := Gosrc(g.src, c.maxTokens, a.best, a.srcs);
    GrantEffect(s.hosts[g.dst], input, c.nrtsGap);
    HandleKeepsReceiverOk(s.hosts[g.dst], input, c.nrtsGap);
    SentListInRange(s.hosts[g.dst], input, c.nrtsGap, |s.hosts|);
  }

  lemma DeliverGosrcKeeps(s: System, a: Action, c: Config)
    requires Inv(s) && a.DeliverGosrc? && Possible(s, a, c)
    ensures Inv(Apply(s, a, c))
  {
    var t := Apply(s, a, c);
    var g := s.net[a.id].grant;
    var input := Gosrc(g.src, c.maxTokens, a.best, a.srcs);
    assert Holds(s, InFlight(a.id)) == Some(g);
    GosrcShape(s, a, c);
    GrantEffect(s.hosts[g.dst], input, c.nrtsGap);
    assert Holds(s, AtHost(g.dst)).None?;
    assert forall p | p != AtHost(g.dst) && p != InFlight(a.newId) && p != InFlight(a.id) :: Holds(t, p) == Holds(s, p);
    MovesKeep(s, t, InFlight(a.id), if a.best then AtHost(g.dst) else InFlight(a.newId));
  }

  lemma StepKeeps(s: System, a: Action, c: Config)
    requires Inv(s) && Possible(s, a, c)
    ensures Inv(Apply(s, a, c))
  {
    match a
    case Epoch(_, _) => EpochKeeps(s, a, c);
    case DeliverList(id) => DeliverListKeeps(s, id, c);
    case DeliverGosrc(_, _, _, _) => DeliverGosrcKeeps(s, a, c);
    case Local(host, input, newId) => LocalKeeps(s, host, input, newId, c);
    case Lose(id) =>
      var t := Apply(s, a, c);
      assert forall p | p != InFlight(id) :: Holds(t, p) == Holds(s, p);
      MovesKeep(s, t, InFlight(id), InFlight(id));
  }

  /** In every run, under any order and loss of messages, every state is good. */
  lemma {:induction false} RunKeeps(ss: seq<System>, acts: seq<Action>, c: Config)
    requires Run(ss, acts, c)
    ensures forall i | 0 <= i < |ss| :: Inv(ss[i])
  {
    if acts == [] {
      assert forall p :: Holds(ss[0], p).None?;
    } else {
      var n := |acts| - 1;
      RunKeeps(ss[..|acts|], acts[..n], c);
      assert Inv(ss[..|acts|][n]) && ss[..|acts|][n] == ss[n];
      StepKeeps(ss[n], acts[n], c);
      forall i | 0 <= i < |ss|
        ensures Inv(ss[i])
      {
        if i < |acts| {
          assert ss[i] == ss[..|acts|][i];
        }
      }
    }
  }

  // ---- Consequences for whole runs ----

  /** No assertion of a receiver, and neither assertion about a returned pair, fires in any run. */
  lemma RunAssertionsHold(ss: seq<System>, acts: seq<Action>, c: Config, i: nat)
    requires Run(ss, acts, c) && i < |acts|
    ensures acts[i].Local? ==> AssertionsHold(ss[i].hosts[acts[i].host], acts[i].input, c.nrtsGap)
    ensures acts[i].DeliverList? && ss[i].net[acts[i].id].list.nrts.Some? ==>
              var g := Returned(ss[i].net[acts[i].id].list).value;
              && g.src < |ss[i].arb.srcFree| && !ss[i].arb.srcFree[g.src]
              && g.dst < |ss[i].arb.dstFree| && !ss[i].arb.dstFree[g.dst]
  {
    RunKeeps(ss, acts, c);
    if acts[i].Local? {
      NoAssertionFires(ss[i].hosts[acts[i].host], acts[i].input, c.nrtsGap);
    } else if acts[i].DeliverList? && ss[i].net[acts[i].id].list.nrts.Some? {
      ReturnFreesABusyPair(ss[i], acts[i].id);
    }
  }

  /** As many senders as receivers are busy, one pair for each outstanding grant. */
  lemma BusyEquallyMany(s: System)
    requires Inv(s)
    ensures |set x | 0 <= x < |s.hosts| && !s.arb.srcFree[x]| == |s.outstanding|
    ensures |set x | 0 <= x < |s.hosts| && !s.arb.dstFree[x]| == |s.outstanding|
  {
    var edges := set g | g in s.outstanding :: Matching.Edge(0, g.src, g.dst);
    Matching.ConflictFreeIsOneToOne(edges);
    EdgesAsMany(s.outstanding, edges);
    assert forall g | g in s.outstanding :: Matching.Edge(0, g.src, g.dst) in edges;
    assert (set x | 0 <= x < |s.hosts| && !s.arb.srcFree[x]) == Matching.Sources(edges);
    assert (set x | 0 <= x < |s.hosts| && !s.arb.dstFree[x]) == Matching.Destinations(edges);
  }

  lemma {:induction false} EdgesAsMany(gs: set<Grant>, edges: set<Matching.Edge>)
    requires edges == set g | g in gs :: Matching.Edge(0, g.src, g.dst)
    ensures |edges| == |gs|
  {
    if gs != {} {
      var g :| g in gs;
      var e := Matching.Edge(0, g.src, g.dst);
      assert edges - {e} == set h | h in gs - {g} :: Matching.Edge(0, h.src, h.dst);
      EdgesAsMany(gs - {g}, edges - {e});
    }
  }

  // ---- Grants that are never given back ----

  /** Outstanding, but nobody will ever give it back. */
  ghost predicate Lost(s: System, g: Grant) {
    g in s.outstanding && forall p :: Holds(s, p) != Some(g)
  }

  lemma {:induction false} IssueAllHolds(s: System, ids: seq<nat>, grants: seq<Grant>)
    requires Inv(s) && Issuable(s, ids, grants)
    ensures var t := IssueAll(s, ids, grants);
            && s.outstanding <= t.outstanding
            && (forall p | Holds(s, p).Some? :: Holds(t, p) == Holds(s, p))
            && (forall p | Holds(s, p).None? && Holds(t, p).Some? :: Holds(t, p).value !in s.outstanding)
    decreases |grants|
  {
    if grants != [] {
      var u := Issue(s, ids[0], grants[0]);
      IssuableTail(s, ids, grants);
      IssueKeeps(s, ids[0], grants[0]);
      assert forall p :: Holds(u, p) == if p == InFlight(ids[0]) then Some(grants[0]) else Holds(s, p);
      IssueAllHolds(u, ids[1..], grants[1..]);
    }
  }

  lemma EpochHolds(s: System, a: Action, c: Config)
    requires Inv(s) && a.Epoch? && Possible(s, a, c)
    ensures var t := Apply(s, a, c);
            && s.outstanding <= t.outstanding
            && (forall p | Holds(s, p).Some? :: Holds(t, p) == Holds(s, p))
            && (forall p | Holds(s, p).None? && Holds(t, p).Some? :: Holds(t, p).value !in s.outstanding)
  {
    EpochIssuable(s, a, c);
    var t := IssueAll(s, a.ids, Serve(s.arb).1);
    IssueAllHolds(s, a.ids, Serve(s.arb).1);
    ArbiterHoldsNothing(t, Apply(s, a, c).arb);
  }

  lemma ArbiterHoldsNothing(t: System, arb: Arbiter)
    ensures forall p :: Holds(t.(arb := arb), p) == Holds(t, p)
  {
  }

  /** What each place holds after a step other than an epoch. */
  function HoldsAfter(s: System, a: Action, c: Config, q: Place): Option<Grant>
    requires !a.Epoch?
    requires a.Local? ==> a.host < |s.hosts| && Enabled(s.hosts[a.host], a.input)
    requires a.DeliverGosrc? ==> a.id in s.net && s.net[a.id].GosrcMsg?
  {
    match a
    case Epoch(_, _) => None
    case DeliverList(id) => if q == InFlight(id) then None else Holds(s, q)
    case Lose(id) => if q == InFlight(id) then None else Holds(s, q)
    case DeliverGosrc(id, best, _, newId) =>
      var g := s.net[id].grant;
      if q == AtHost(g.dst) then (if best then Some(g) else None)
      else if q == InFlight(newId) then (if best then None else Some(g))
      else if q == InFlight(id) then None
      else Holds(s, q)
    case Local(host, input, newId) =>
      var (h, msg) := Handle(s.hosts[host], input, c.nrtsGap);
      if q == AtHost(host) then (if Owes(h).Some? then Holds(s, q) else None)
      else if q == InFlight(newId) then (if msg.Some? && msg.value.nrts.Some? then Holds(s, AtHost(host)) else None)
      else Holds(s, q)
  }

  lemma GosrcHoldsAfter(s: System, a: Action, c: Config, q: Place)
    requires Inv(s) && Possible(s, a, c) && a.DeliverGosrc?
    ensures Holds(Apply(s, a, c), q) == HoldsAfter(s, a, c, q)
  {
    var g := s.net[a.id].grant;
    GrantEffect(s.hosts[g.dst], Gosrc(g.src, c.maxTokens, a.best, a.srcs), c.nrtsGap);
  }

  lemma LocalHoldsAfter(s: System, a: Action, c: Config, q: Place)
    requires Inv(s) && Possible(s, a, c) && a.Local?
    ensures Holds(Apply(s, a, c), q) == HoldsAfter(s, a, c, q)
  {
    GrantEffect(s.hosts[a.host], a.input, c.nrtsGap);
  }

  lemma StepHolds(s: System, a: Action, c: Config)
    requires Inv(s) && Possible(s, a, c) && !a.Epoch?
    ensures forall q :: Holds(Apply(s, a, c), q) == HoldsAfter(s, a, c, q)
  {
    forall q
      ensures Holds(Apply(s, a, c), q) == HoldsAfter(s, a, c, q)
    {
      if a.DeliverGosrc? {
        GosrcHoldsAfter(s, a, c, q);
      } else if a.Local? {
        LocalHoldsAfter(s, a, c, q);
      }
    }
  }

  /**
   Not every grant comes back.  Besides the loss of the message that carries it, there is one way to
   lose a grant: the last packet of a flow arrives under the very grant the receiver still owes.
   */
  lemma LostExactlyWhen(s: System, a: Action, c: Config, p: Place)
    requires Inv(s) && Possible(s, a, c) && Holds(s, p).Some?
    ensures Lost(Apply(s, a, c), Holds(s, p).value) <==>
            || (a.Lose? && p == InFlight(a.id))
            || (a.Local? && p == AtHost(a.host) && a.input.Finish? && a.input.round == s.hosts[a.host].grant.round)
  {
    var t, g := Apply(s, a, c), Holds(s, p).value;
    if a.Epoch? {
      EpochHolds(s, a, c);
      assert Holds(t, p) == Some(g);
    } else if a.DeliverGosrc? && p == InFlight(a.id) {
      StepHolds(s, a, c);
      assert Holds(t, if a.best then AtHost(g.dst) else InFlight(a.newId)) == Some(g);
    } else if a.Local? && p == AtHost(a.host) {
      LocalLoses(s, a, c);
    } else if a.DeliverList? && p == InFlight(a.id) {
    } else if a.Lose? && p == InFlight(a.id) {
      StepHolds(s, a, c);
    } else {
      StepHolds(s, a, c);
      if a.DeliverGosrc? {
        assert Holds(s, InFlight(a.id)) == Some(s.net[a.id].grant);
        assert p != AtHost(s.net[a.id].grant.dst);
      }
      assert Holds(t, p) == Some(g);
    }
  }

  lemma LocalLoses(s: System, a: Action, c: Config)
    requires Inv(s) && Possible(s, a, c) && a.Local? && Holds(s, AtHost(a.host)).Some?
    ensures Lost(Apply(s, a, c), Holds(s, AtHost(a.host)).value) <==>
            a.input.Finish? && a.input.round == s.hosts[a.host].grant.round
  {
    var t, g := Apply(s, a, c), Holds(s, AtHost(a.host)).value;
    StepHolds(s, a, c);
    GrantEffect(s.hosts[a.host], a.input, c.nrtsGap);
    ForgetsExactlyWhen(s.hosts[a.host], a.input, c.nrtsGap);
    var (h, msg) := Handle(s.hosts[a.host], a.input, c.nrtsGap);
    if msg.Some? && msg.value.nrts.Some? {
      assert Holds(t, InFlight(a.newId)) == Some(g);
    } else if Owes(h).Some? {
      assert Holds(t, AtHost(a.host)) == Some(g);
    }
  }

  /** A lost grant keeps both its ports busy for the rest of the run. */
  lemma LostStaysLost(s: System, a: Action, c: Config, g: Grant)
    requires Inv(s) && Possible(s, a, c) && Lost(s, g)
    ensures Lost(Apply(s, a, c), g)
  {
    if a.Epoch? {
      EpochHolds(s, a, c);
    } else {
      StepHolds(s, a, c);
      if a.DeliverList? {
        assert Holds(s, InFlight(a.id)) == Returned(s.net[a.id].list);
      } else if a.DeliverGosrc? {
        assert Holds(s, InFlight(a.id)) == Some(s.net[a.id].grant);
      } else if a.Local? {
        assert Holds(s, AtHost(a.host)) != Some(g);
      }
    }
  }

  /** The ports of a grant that nobody holds stay busy. */
  lemma LostPortsBusy(s: System, g: Grant)
    requires Inv(s) && Lost(s, g)
    ensures g.src < |s.arb.srcFree| && !s.arb.srcFree[g.src]
    ensures g.dst < |s.arb.dstFree| && !s.arb.dstFree[g.dst]
  {
  }

  lemma {:induction false} StaysLostInRun(ss: seq<System>, acts: seq<Action>, c: Config, i: nat, j: nat, g: Grant)
    requires Run(ss, acts, c) && (forall k | 0 <= k < |ss| :: Inv(ss[k]))
    requires i <= j < |ss| && Lost(ss[i], g)
    ensures Lost(ss[j], g)
    decreases j
  {
    if i < j {
      StaysLostInRun(ss, acts, c, i, j - 1, g);
      LostStaysLost(ss[j - 1], acts[j - 1], c, g);
      assert ss[j] == Apply(ss[j - 1], acts[j - 1], c);
    }
  }

  lemma LostForever(ss: seq<System>, acts: seq<Action>, c: Config, i: nat, j: nat, g: Grant)
    requires Run(ss, acts, c) && i <= j < |ss| && Lost(ss[i], g)
    ensures Lost(ss[j], g) && g.src < |ss[j].arb.srcFree| && !ss[j].arb.srcFree[g.src]
    ensures g.dst < |ss[j].arb.dstFree| && !ss[j].arb.dstFree[g.dst]
  {
    RunKeeps(ss, acts, c);
    StaysLostInRun(ss, acts, c, i, j, g);
    LostPortsBusy(ss[j], g);
  }

  // ---- When receivers forget grants ----

  /** A flow's last packet arrives under the very grant its receiver still owes. */
  ghost predicate Forgets(s: System, a: Action) {
    && a.Local? && a.host < |s.hosts| && a.input.Finish?
    && a.input.round == s.hosts[a.host].grant.round && Owes(s.hosts[a.host]).Some?
  }

  /** Grants are as large as configured, and those in use keep a reserve. */
  ghost predicate Reserved(h: Receiver, c: Config) {
    Reserve(h, c.nrtsGap) && (h.grant.src.Some? ==> h.grant.maxTokens == c.maxTokens)
  }

  lemma HandleKeepsReserved(h: Receiver, i: Input, c: Config)
    requires ReceiverOk(h) && Enabled(h, i) && Reserved(h, c) && (i.Gosrc? ==> i.maxTokens == c.maxTokens)
    ensures Reserved(Handle(h, i, c.nrtsGap).0, c)
  {
    HandleKeepsReserve(h, i, c.nrtsGap);
  }

  lemma StepKeepsReserved(s: System, a: Action, c: Config)
    requires Inv(s) && Possible(s, a, c) && forall h | 0 <= h < |s.hosts| :: Reserved(s.hosts[h], c)
    ensures forall h | 0 <= h < |Apply(s, a, c).hosts| :: Reserved(Apply(s, a, c).hosts[h], c)
  {
    if a.Local? {
      HandleKeepsReserved(s.hosts[a.host], a.input, c);
    } else if a.DeliverGosrc? {
      var g := s.net[a.id].grant;
      HandleKeepsReserved(s.hosts[g.dst], Gosrc(g.src, c.maxTokens, a.best, a.srcs), c);
    } else if a.Epoch? {
      IssueAllKeepsHosts(s, a.ids, Serve(s.arb).1);
    }
  }

  lemma {:induction false} IssueAllKeepsHosts(s: System, ids: seq<nat>, grants: seq<Grant>)
    requires |ids| == |grants| && InPorts(s, grants)
    ensures IssueAll(s, ids, grants).hosts == s.hosts
    decreases |grants|
  {
    if grants != [] {
      IssueAllKeepsHosts(Issue(s, ids[0], grants[0]), ids[1..], grants[1..]);
    }
  }
}
