/**
 A run in which a receiver forgets its grant, for every configuration in which that is possible at
 all.  Host 0 receives one long flow from host 1.  Grant after grant its packets are all asked for;
 none arrives.  The wait is kept, a last grant is given, and packet 0 is asked for again.  Then the
 others arrive late, and packet 0 last, while its grant is still owed.
 */
module ForgottenGrant {
  import opened FlowQueue
  import opened Options
  import opened RankingReceiver
  import opened RankingWorld
  import opened Timers
  import opened TokenRound
  import A = RankingArbiter
  import L = RankingLease
  import T = TokenFlow

  ghost predicate Reachable(w: World, c: Setup) {
    exists ws, es :: Run(ws, es, c) && ws[|es|] == w
  }

  lemma InOrder(w: World, c: Setup)
    requires Reachable(w, c)
    ensures Ok(w, c)
  {
    var ws, es :| Run(ws, es, c) && ws[|es|] == w;
    RunKeeps(ws, es, c, |es|);
  }

  lemma ReachesAfter(w: World, e: Event, c: Setup)
    requires Reachable(w, c) && Possible(w, e, c)
    ensures Reachable(After(w, e, c), c)
  {
    var ws, es :| Run(ws, es, c) && ws[|es|] == w;
    var ws', es' := ws + [After(w, e, c)], es + [e];
    forall i | 0 <= i < |es'|
      ensures Next(ws'[i], es'[i], ws'[i + 1], c)
    {
      if i < |es| {
        assert Next(ws[i], es[i], ws[i + 1], c);
      }
    }
    assert Run(ws', es', c) && ws'[|es'|] == After(w, e, c);
  }

  lemma Onward(w: World, e: Event, c: Setup) returns (w': World)
    requires Reachable(w, c) && Possible(w, e, c)
    ensures w' == After(w, e, c) && Reachable(w', c)
    ensures ActionOf(w, e, c).Some? ==>
              L.Possible(w.sys, ActionOf(w, e, c).value, c.lease) && w'.sys == L.Apply(w.sys, ActionOf(w, e, c).value, c.lease)
  {
    w' := After(w, e, c);
    InOrder(w, c);
    StepRefines(w, e, c);
    ReachesAfter(w, e, c);
  }

  // ---- The scene ----

  ghost function Its(w: World): T.Flow
    requires |w.nodes| > 0 && 0 in w.nodes[0].flows
  {
    w.nodes[0].flows[0]
  }

  /** Two hosts, and one flow of `n` packets from host 1 to host 0. */
  ghost predicate Scene(w: World, c: Setup, n: nat) {
    && Reachable(w, c) && |w.nodes| == |w.sys.hosts| == 2 && 0 <= w.clock
    && w.nodes[0].flows.Keys == {0} && w.nodes[0].holdOn == 0
    && Its(w).src == 1 && Its(w).size == n > c.tokenInitial
    && Its(w).latestSent <= w.clock && Its(w).redundancy <= w.clock + c.flow.resendTimeout
  }

  ghost predicate HasToken(w: World, x: nat)
    requires |w.nodes| > 0
  {
    exists r :: Token(0, x, x, r) in w.nodes[0].tokens
  }

  ghost predicate Asking(w: World, c: Setup, n: nat, k: nat) {
    && Scene(w, c, n) && T.FirstPass(Its(w), k) && forall x: nat | x < k :: HasToken(w, x)
  }

  /** Requests of host 0 for host 1, or for nobody. */
  ghost predicate ForOne(r: A.Request) {
    r.dst == 0 && forall s | s in r.srcs :: s == 1
  }

  ghost predicate Idle(w: World, c: Setup, n: nat, k: nat) {
    && Asking(w, c, n, k)
    && w.sys.hosts[0].grant.src.None? && w.sys.hosts[0].wakeup.Some?
    && w.sys.net == map[] && w.sys.arb.srcFree == w.sys.arb.dstFree == [true, true]
    && forall r | r in w.sys.arb.pending :: ForOne(r)
  }

  ghost predicate Busy(s: L.System) {
    s.arb.srcFree == [true, false] && s.arb.dstFree == [false, true] && s.arb.pending == []
  }

  /** A request that gives the grant back. */
  ghost predicate GivesBack(m: L.Msg) {
    m.ListMsg? && m.list.dst == 0 && m.list.nrts == Some(1) && forall s | s in m.list.srcs :: s == 1
  }

  /** The grant is given back in the one message under way, if at all. */
  ghost predicate OnlyReturn(s: L.System, returned: bool) {
    if returned then s.net.Keys == {0} && GivesBack(s.net[0]) else s.net == map[]
  }

  /** Of the grant `left` tokens are left. */
  ghost predicate Using(w: World, c: Setup, n: nat, k: nat, left: nat) {
    && Asking(w, c, n, k) && Busy(w.sys) && w.sys.hosts[0].token.Some?
    && var g := w.sys.hosts[0].grant;
    && g.src == Some(1) && g.remainTokens == left > 0
    && OnlyReturn(w.sys, g.sendNrts) && (g.sendNrts ==> w.sys.hosts[0].wakeup.Some?)
  }

  ghost predicate Returning(w: World, c: Setup, n: nat, k: nat) {
    && Asking(w, c, n, k) && Busy(w.sys) && OnlyReturn(w.sys, true)
    && w.sys.hosts[0].grant.src.None? && w.sys.hosts[0].wakeup.Some?
  }

  // ---- A grant for the flow ----

  lemma OnlyOne(w: World, c: Setup, flows: map<nat, T.Flow>, n: nat, now: int)
    requires flows.Keys == {0} && flows[0].src == 1 && flows[0].size == n > c.tokenInitial
    ensures forall s: nat :: HasLong(flows, c, s, now) <==> s == 1 && Ready(flows[0], now)
    ensures forall f, s: nat | OnlyReady(flows, c, f, s, now) :: f == 0 && s == 1
  {
    if Ready(flows[0], now) {
      assert LongReady(flows, c, 0, 1, now);
    }
  }

  /** What a request lists when it gives back a grant with `left` tokens. */
  ghost function OwnSources(f: T.Flow, left: int, now: int): seq<nat> {
    if left > 0 && f.Work() > left && Ready(f, now) then [1] else []
  }

  lemma ListsItself(w: World, c: Setup, flows: map<nat, T.Flow>, n: nat, left: int, now: int)
    requires flows.Keys == {0} && flows[0].src == 1 && flows[0].size == n > c.tokenInitial
    ensures Lists(flows, c, OwnSources(flows[0], left, now), Some(1), left, now)
    ensures Lists(flows, c, if Ready(flows[0], now) then [1] else [], None, 0, now)
  {
    OnlyOne(w, c, flows, n, now);
  }

  lemma AllForOne(pending: seq<A.Request>, grants: seq<A.Grant>)
    requires forall r | r in pending :: ForOne(r)
    requires forall i | 0 <= i < |grants| :: A.Asked(pending, grants[i].src, grants[i].dst)
    ensures forall i | 0 <= i < |grants| :: grants[i] == A.Grant(1, 0) && A.SrcsOf(grants)[i] == 1 && A.DstsOf(grants)[i] == 0
  {
    forall i | 0 <= i < |grants|
      ensures grants[i] == A.Grant(1, 0)
    {
      assert A.Asked(pending, grants[i].src, grants[i].dst);
    }
  }

  lemma ServesTheOne(a: A.Arbiter)
    requires a.WellFormed() && a.srcFree == a.dstFree == [true, true]
    requires (forall r | r in a.pending :: ForOne(r)) && exists r :: r in a.pending && 1 in r.srcs
    ensures A.Serve(a).1 == [A.Grant(1, 0)]
    ensures var b := A.Serve(a).0; b.srcFree == [true, false] && b.dstFree == [false, true] && b.pending == []
  {
    var (b, grants) := A.Serve(a);
    A.ServeAllocates(a);
    var r :| r in a.pending && 1 in r.srcs;
    A.ServeIsMaximal(a, r, 1);
    AllForOne(a.pending, grants);
    AtMostOne(a.srcFree, b.srcFree, A.SrcsOf(grants));
    assert A.SrcsOf(grants) == [1] && A.DstsOf(grants) == [0];
  }

  lemma Distinct(before: seq<bool>, after: seq<bool>, used: seq<nat>, i: nat, j: nat)
    requires A.Allocates(before, after, used) && i < j < |used|
    ensures used[i] != used[j]
  {
  }

  lemma AtMostOne(before: seq<bool>, after: seq<bool>, used: seq<nat>)
    requires A.Allocates(before, after, used) && forall i | 0 <= i < |used| :: used[i] == 1
    ensures |used| <= 1
  {
    if |used| > 1 {
      Distinct(before, after, used, 0, 1);
    }
  }

  lemma AskingStays(w: World, w': World, c: Setup, n: nat, k: nat)
    requires Asking(w, c, n, k) && Reachable(w', c) && w'.nodes == w.nodes && |w'.sys.hosts| == 2 && w.clock <= w'.clock
    ensures Asking(w', c, n, k)
  {
    forall x: nat | x < k
      ensures HasToken(w', x)
    {
      assert HasToken(w, x);
    }
  }

  ghost predicate Requested(w: World, c: Setup, n: nat, k: nat) {
    && Asking(w, c, n, k)
    && w.sys.hosts[0].grant.src.None? && w.sys.hosts[0].wakeup.Some?
    && w.sys.net == map[0 := L.ListMsg(ListSrcs(0, [1], None))] && w.sys.arb.srcFree == w.sys.arb.dstFree == [true, true]
    && forall r | r in w.sys.arb.pending :: ForOne(r)
  }

  lemma WakesUp(h: Receiver, evt: nat)
    requires h.wakeup == Some(evt) && h.id == 0
    ensures var (g, msg) := Wakeup(h, evt, [1], true);
            g.grant == h.grant && g.wakeup.Some? && msg == Some(ListSrcs(0, [1], None))
  {
  }

  /** The retry asks for host 1 again. */
  lemma AsksAgain(w: World, c: Setup, n: nat, k: nat, now: int) returns (w': World)
    requires Idle(w, c, n, k) && w.clock <= now && Ready(Its(w), now)
    ensures Requested(w', c, n, k) && w'.clock == now && w'.nodes == w.nodes
  {
    TimersInOrder(w, c);
    var h := w.sys.hosts[0];
    var e := Retried(0, h.wakeup.value, [1], 0, now);
    ListsItself(w, c, w.nodes[0].flows, n, 0, now);
    assert Possible(w, e, c);
    assert SomeLongLeft(w.nodes[0].flows, c) by {
      assert 0 in w.nodes[0].flows;
    }
    w' := Onward(w, e, c);
    WakesUp(h, h.wakeup.value);
    AskingStays(w, w', c, n, k);
  }

  ghost predicate Queued(w: World, c: Setup, n: nat, k: nat) {
    Idle(w, c, n, k) && exists r :: r in w.sys.arb.pending && 1 in r.srcs
  }

  lemma IsQueued(w: World, c: Setup, n: nat, k: nat) returns (w': World)
    requires Requested(w, c, n, k)
    ensures Queued(w', c, n, k) && w'.clock == w.clock && w'.nodes == w.nodes
  {
    w' := Onward(w, Moved(L.DeliverList(0), w.clock), c);
    AskingStays(w, w', c, n, k);
    var r := A.Request(0, [1]);
    assert w'.sys.arb.pending == w.sys.arb.pending + [r];
    assert r in w'.sys.arb.pending && 1 in r.srcs;
  }

  ghost predicate Granted(w: World, c: Setup, n: nat, k: nat) {
    && Asking(w, c, n, k) && Busy(w.sys)
    && w.sys.hosts[0].grant.src.None? && w.sys.hosts[0].wakeup.Some?
    && w.sys.net == map[0 := L.GosrcMsg(A.Grant(1, 0))]
  }

  lemma IsServed(w: World, c: Setup, n: nat, k: nat) returns (w': World)
    requires Queued(w, c, n, k)
    ensures Granted(w', c, n, k) && w'.clock == w.clock && w'.nodes == w.nodes
  {
    var a := L.Epoch(None, [0]);
    InOrder(w, c);
    ServesTheOne(w.sys.arb);
    assert L.Possible(w.sys, a, c.lease);
    w' := Onward(w, Moved(a, w.clock), c);
    IssuesTheOne(w.sys, a, c);
    AskingStays(w, w', c, n, k);
  }

  lemma IssuesTheOne(s: L.System, a: L.Action, c: Setup)
    requires a == L.Epoch(None, [0]) && L.Possible(s, a, c.lease) && s.net == map[] && A.Serve(s.arb).1 == [A.Grant(1, 0)]
    ensures var t := L.Apply(s, a, c.lease);
            t.net == map[0 := L.GosrcMsg(A.Grant(1, 0))] && t.arb == A.Serve(s.arb).0 && t.hosts == s.hosts
  {
    var g := A.Grant(1, 0);
    assert A.Serve(s.arb).1[0] == g;
    var t := L.Issue(s, 0, g);
    assert [0][1..] == [] && [g][1..] == [];
    assert L.IssueAll(s, [0], [g]) == L.IssueAll(t, [], []) == t;
  }

  lemma TakesGrant(h: Receiver, maxTokens: int)
    ensures var (g, msg) := ReceiveGosrc(h, 1, maxTokens, true, []);
            && g.grant == GoSrc(maxTokens, maxTokens, h.grant.round + 1, Some(1), false) && g.token.Some? && msg.None?
  {
  }

  lemma IsTaken(w: World, c: Setup, n: nat, k: nat) returns (w': World)
    requires Granted(w, c, n, k) && Ready(Its(w), w.clock) && 0 < c.lease.maxTokens
    ensures Using(w', c, n, k, c.lease.maxTokens) && !w'.sys.hosts[0].grant.sendNrts && w'.clock == w.clock && w'.nodes == w.nodes
  {
    ListsItself(w, c, w.nodes[0].flows, n, 0, w.clock);
    OnlyOne(w, c, w.nodes[0].flows, n, w.clock);
    w' := Onward(w, Offered(0, [], 1, w.clock), c);
    TakesGrant(w.sys.hosts[0], c.lease.maxTokens);
    assert w'.sys.net == map[];
    AskingStays(w, w', c, n, k);
  }

  /** From the retry to the grant. */
  lemma GetsGrant(w: World, c: Setup, n: nat, k: nat, now: int) returns (w': World)
    requires Idle(w, c, n, k) && w.clock <= now && Ready(Its(w), now) && 0 < c.lease.maxTokens
    ensures Using(w', c, n, k, c.lease.maxTokens) && !w'.sys.hosts[0].grant.sendNrts && w'.clock == now && w'.nodes == w.nodes
  {
    w' := AsksAgain(w, c, n, k, now);
    w' := IsQueued(w', c, n, k);
    w' := IsServed(w', c, n, k);
    w' := IsTaken(w', c, n, k);
  }

  /** The message that gives the grant back is delivered. */
  lemma IsReturned(w: World, c: Setup, n: nat, k: nat) returns (w': World)
    requires Returning(w, c, n, k)
    ensures Idle(w', c, n, k) && w'.clock == w.clock && w'.nodes == w.nodes
  {
    w' := Onward(w, Moved(L.DeliverList(0), w.clock), c);
    AskingStays(w, w', c, n, k);
    var list := w.sys.net[0].list;
    assert w'.sys.arb.pending == [A.Request(0, list.srcs)];
    assert ForOne(A.Request(0, list.srcs));
  }

  // ---- Using the grant ----

  /** A long flow's token is sent under the grant. */
  lemma SendsUnder(h: Receiver, evt: nat, t: LongTurn, nrtsGap: nat, srcs: seq<nat>)
    requires h.grant.src == Some(1) && h.grant.remainTokens > 0 && t.sent && h.id == 0
    ensures var (g, msg) := SendToken(h, evt, Some(t), true, false, nrtsGap, srcs);
            && g.token.Some? && g.grant.round == h.grant.round
            && (if h.grant.remainTokens > 1 then g.grant.src == Some(1) && g.grant.remainTokens == h.grant.remainTokens - 1
                else g.grant.src.None? && g.grant.sendNrts)
            && (msg.Some? ==> !h.grant.sendNrts && g.grant.sendNrts && msg.value == ListSrcs(0, srcs, Some(1)) && g.wakeup.Some?)
            && (msg.None? ==> g.grant.sendNrts == h.grant.sendNrts && g.wakeup == h.wakeup)
            && (!t.waiting && t.work > nrtsGap && h.grant.remainTokens - 1 > nrtsGap ==> msg.None?)
  {
  }

  /** The round in which the one flow has a turn and gets a token. */
  ghost function OneTurn(w: World, c: Setup, now: int): Round
    requires |w.nodes| > 0 && 0 in w.nodes[0].flows && Its(w).Valid() && Its(w).Incomplete()
  {
    var g := T.Turn(Its(w), c.flow, now).0;
    Round(w.nodes[0].flows[0 := g], [], Some(0), Some(0), Some(TurnOf(g, true, now)), HORIZON)
  }

  ghost function OneTurnEvent(w: World, c: Setup, now: int): Event
    requires |w.nodes| > 0 && 0 in w.nodes[0].flows && Its(w).Valid() && Its(w).Incomplete()
    requires |w.sys.hosts| > 0 && w.sys.hosts[0].token.Some?
  {
    var r := OneTurn(w, c, now);
    Fired(0, w.sys.hosts[0].token.value.evt, r, OwnSources(r.flows[0], w.sys.hosts[0].grant.remainTokens - 1, now),
          if w.sys.hosts[0].grant.sendNrts then 1 else 0, now)
  }

  lemma OneTurnOk(flows: map<nat, T.Flow>, r: Round, tokenInitial: nat, p: T.Params, now: int)
    requires flows.Keys == {0} && flows[0].size > tokenInitial && flows[0].Valid() && flows[0].Incomplete()
    requires T.Turn(flows[0], p, now).1.Sent?
    requires var g := T.Turn(flows[0], p, now).0;
             r == Round(flows[0 := g], [], Some(0), Some(0), Some(TurnOf(g, true, now)), HORIZON)
    ensures RoundOk(flows, false, r, tokenInitial, p, now)
  {
    assert Turns(flows, r.flows, r.to, p, now);
  }

  lemma OneTurnFits(w: World, c: Setup, n: nat, k: nat, left: nat, now: int)
    requires Using(w, c, n, k, left) && w.clock <= now && Ready(Its(w), now) && Its(w).Incomplete()
    requires T.Turn(Its(w), c.flow, now).1.Sent?
    ensures var r := OneTurn(w, c, now);
            RoundFits(w.nodes[0], c, w.sys.hosts[0].grant, r, OwnSources(r.flows[0], w.sys.hosts[0].grant.remainTokens - 1, now), now)
  {
    var flows, r := w.nodes[0].flows, OneTurn(w, c, now);
    TurnWaits(Its(w), c.flow, now);
    OnlyOne(w, c, flows, n, now);
    OneTurnOk(flows, r, c.tokenInitial, c.flow, now);
    ListsItself(w, c, r.flows, n, w.sys.hosts[0].grant.remainTokens - 1, now);
    assert LongReady(flows, c, 0, 1, now);
  }

  lemma OneTurnPossible(w: World, c: Setup, n: nat, k: nat, left: nat, now: int)
    requires Using(w, c, n, k, left) && w.clock <= now && Ready(Its(w), now) && Its(w).Incomplete()
    requires T.Turn(Its(w), c.flow, now).1.Sent?
    ensures Possible(w, OneTurnEvent(w, c, now), c)
  {
    OneTurnFits(w, c, n, k, left, now);
    TimersInOrder(w, c);
  }

  lemma TimersInOrder(w: World, c: Setup)
    requires Reachable(w, c) && |w.sys.hosts| > 0
    ensures TimersOk(w.sys.hosts[0]) && w.sys.hosts[0].id == 0
  {
    InOrder(w, c);
  }

  /** What a token sent under the grant leaves of it. */
  ghost predicate Spent(s: L.System, s': L.System, left: nat) {
    && |s.hosts| == |s'.hosts| == 2 && Busy(s')
    && var g, g' := s.hosts[0].grant, s'.hosts[0].grant;
    && g'.round == g.round && s'.hosts[0].token.Some?
    && OnlyReturn(s', g'.sendNrts) && (g'.sendNrts ==> s'.hosts[0].wakeup.Some?)
    && if left > 1 then g'.src == Some(1) && g'.remainTokens == left - 1 else g'.src.None? && g'.sendNrts
  }

  lemma Spends(s: L.System, c: L.Config, a: L.Action, left: nat, t: LongTurn, srcs: seq<nat>)
    requires |s.hosts| == 2 && Busy(s) && s.hosts[0].id == 0 && L.Possible(s, a, c)
    requires var h := s.hosts[0];
             && h.grant.src == Some(1) && h.grant.remainTokens == left > 0 && h.token.Some? && t.sent
             && a == L.Local(0, TokenFires(h.token.value.evt, Some(t), true, false, srcs), if h.grant.sendNrts then 1 else 0)
             && OnlyReturn(s, h.grant.sendNrts) && (h.grant.sendNrts ==> h.wakeup.Some?)
    requires forall x | x in srcs :: x == 1
    ensures Spent(s, L.Apply(s, a, c), left)
    ensures !s.hosts[0].grant.sendNrts && !t.waiting && t.work > c.nrtsGap && left - 1 > c.nrtsGap ==>
              !L.Apply(s, a, c).hosts[0].grant.sendNrts
  {
    SendsUnder(s.hosts[0], s.hosts[0].token.value.evt, t, c.nrtsGap, srcs);
  }

  lemma TakesTurn(w: World, c: Setup, n: nat, k: nat, left: nat, now: int) returns (w': World)
    requires Using(w, c, n, k, left) && w.clock <= now && Ready(Its(w), now) && Its(w).Incomplete()
    requires T.Turn(Its(w), c.flow, now).1.Sent?
    ensures Reachable(w', c) && |w'.nodes| == 2 && w'.clock == now && Spent(w.sys, w'.sys, left)
    ensures w'.nodes[0] == AfterRound(w.nodes[0], c, w.sys.hosts[0].grant, OneTurn(w, c, now), now)
    ensures var g := T.Turn(Its(w), c.flow, now).0;
            !w.sys.hosts[0].grant.sendNrts && g.redundancy <= now && g.Work() > c.lease.nrtsGap && left - 1 > c.lease.nrtsGap ==>
              !w'.sys.hosts[0].grant.sendNrts
  {
    var e := OneTurnEvent(w, c, now);
    OneTurnPossible(w, c, n, k, left, now);
    TimersInOrder(w, c);
    w' := Onward(w, e, c);
    var a := ActionOf(w, e, c).value;
    Spends(w.sys, c.lease, a, left, e.round.turn.value, e.srcs);
  }

  lemma AfterAsking(w: World, w': World, c: Setup, n: nat, k: nat, left: nat, now: int)
    requires Using(w, c, n, k, left) && k < n && now == w.clock + c.flow.windowTimeout
    requires Its(w).Incomplete() && T.Turn(Its(w), c.flow, now).1.Sent?
    requires Reachable(w', c) && |w'.nodes| == |w'.sys.hosts| == 2 && w'.clock == now
    requires w'.nodes[0] == AfterRound(w.nodes[0], c, w.sys.hosts[0].grant, OneTurn(w, c, now), now)
    ensures Asking(w', c, n, k + 1)
  {
    T.FirstPassTurn(Its(w), k, c.flow, now);
    var t := Token(0, k, k, w.sys.hosts[0].grant.round);
    assert t in w'.nodes[0].tokens;
    forall x: nat | x < k + 1
      ensures HasToken(w', x)
    {
      if x < k {
        assert HasToken(w, x);
      }
    }
  }

  /** One packet is asked for. */
  lemma AsksForOne(w: World, c: Setup, n: nat, k: nat, left: nat) returns (w': World)
    requires Using(w, c, n, k, left) && k < n
    ensures if left > 1 then Using(w', c, n, k + 1, left - 1) else Returning(w', c, n, k + 1)
  {
    var now := w.clock + c.flow.windowTimeout;
    T.FirstPassTurn(Its(w), k, c.flow, now);
    w' := TakesTurn(w, c, n, k, left, now);
    AfterAsking(w, w', c, n, k, left, now);
  }

  /** A whole grant is used up, and comes back. */
  lemma UsesGrant(w: World, c: Setup, n: nat, k: nat, left: nat) returns (w': World)
    requires Using(w, c, n, k, left) && k + left <= n
    ensures Idle(w', c, n, k + left)
    decreases left
  {
    w' := AsksForOne(w, c, n, k, left);
    if left > 1 {
      w' := UsesGrant(w', c, n, k + 1, left - 1);
    } else {
      w' := IsReturned(w', c, n, k + 1);
    }
  }

  /** How many packets `grants` grants can ask for. */
  function Packets(maxTokens: nat, grants: nat): (n: nat)
    ensures 1 <= maxTokens ==> grants <= n
  {
    if grants == 0 then 0 else maxTokens + Packets(maxTokens, grants - 1)
  }

  /** Grant after grant. */
  lemma AsksForAll(w: World, c: Setup, n: nat, k: nat, grants: nat) returns (w': World)
    requires Idle(w, c, n, k) && 0 < c.lease.maxTokens && n == k + Packets(c.lease.maxTokens, grants)
    ensures Idle(w', c, n, n)
    decreases grants
  {
    w' := w;
    if grants > 0 {
      w' := GetsGrant(w, c, n, k, w.clock);
      w' := UsesGrant(w', c, n, k, c.lease.maxTokens);
      w' := AsksForAll(w', c, n, k + c.lease.maxTokens, grants - 1);
    }
  }

  // ---- The second pass ----

  /** Packet 0 has been asked for again, under the grant still owed; packets 1 to `j - 1` have come. */
  ghost predicate Late(w: World, c: Setup, n: nat, j: nat) {
    && Scene(w, c, n) && T.SecondPass(Its(w), j)
    && w.sys.net == map[] && w.sys.hosts[0].token.Some? && Owes(w.sys.hosts[0]) == Some(1)
    && Token(0, 0, n, w.sys.hosts[0].grant.round) in w.nodes[0].tokens
    && forall x: nat | j <= x < n :: HasToken(w, x)
  }

  lemma AfterSecondTurn(w: World, w': World, c: Setup, n: nat, left: nat, now: int)
    requires Using(w, c, n, n, left) && 2 <= n && now == w.clock + c.flow.windowTimeout && Its(w).redundancy <= w.clock
    requires Its(w).Incomplete()
    requires Reachable(w', c) && |w'.nodes| == |w'.sys.hosts| == 2 && w'.clock == now
    requires w'.nodes[0] == AfterRound(w.nodes[0], c, w.sys.hosts[0].grant, OneTurn(w, c, now), now)
    ensures Scene(w', c, n) && T.SecondPass(Its(w'), 1)
    ensures Token(0, 0, n, w.sys.hosts[0].grant.round) in w'.nodes[0].tokens
    ensures forall x: nat | 1 <= x < n :: HasToken(w', x)
  {
    T.SecondPassTurn(Its(w), c.flow, now);
    assert Token(0, 0, n, w.sys.hosts[0].grant.round) in w'.nodes[0].tokens;
    forall x: nat | 1 <= x < n
      ensures HasToken(w', x)
    {
      assert HasToken(w, x);
    }
  }

  /** Packet 0 is asked for again; there is enough work and enough of the grant left to keep it. */
  lemma AsksAnew(w: World, c: Setup, n: nat, left: nat) returns (w': World)
    requires Using(w, c, n, n, left) && !w.sys.hosts[0].grant.sendNrts && Its(w).redundancy <= w.clock
    requires c.lease.nrtsGap + 1 < left && c.lease.nrtsGap + c.flow.window + 2 <= n
    ensures Late(w', c, n, 1)
  {
    var now := w.clock + c.flow.windowTimeout;
    T.SecondPassTurn(Its(w), c.flow, now);
    w' := TakesTurn(w, c, n, n, left, now);
    AfterSecondTurn(w, w', c, n, left, now);
  }

  /** The event in which the data packet for `x` arrives; the tokens go on if they may. */
  ghost function DataComes(w: World, c: Setup, t: Token): Event
    requires |w.nodes| > 0 && |w.sys.hosts| > 0 && t.flow in w.nodes[0].flows && w.nodes[0].flows[t.flow].Valid()
  {
    var g, grant := AfterData(w.nodes[0], t).flows[t.flow], w.sys.hosts[0].grant;
    Arrived(0, t, !g.finished && g.TokenGap() <= c.flow.window && Ready(g, w.clock) && grant.src == Some(g.src) && grant.remainTokens > 0,
            OwnSources(g, grant.remainTokens, w.clock), 0, w.clock)
  }

  lemma DataMayCome(w: World, c: Setup, n: nat, j: nat, t: Token)
    requires Late(w, c, n, j) && t in w.nodes[0].tokens && t.flow == 0
    ensures Possible(w, DataComes(w, c, t), c)
  {
    var flows := AfterData(w.nodes[0], t).flows;
    assert flows.Keys == {0};
    OnlyOne(w, c, flows, n, w.clock);
    ListsItself(w, c, flows, n, w.sys.hosts[0].grant.remainTokens, w.clock);
  }

  lemma RestartKeepsGrant(h: Receiver)
    requires h.token.Some?
    ensures RestartTokens(h).grant == h.grant && RestartTokens(h).token.Some?
  {
  }

  /** One late packet arrives. */
  lemma ComesLate(w: World, c: Setup, n: nat, j: nat) returns (w': World)
    requires Late(w, c, n, j) && j < n
    ensures Late(w', c, n, j + 1)
  {
    assert HasToken(w, j);
    var r :| Token(0, j, j, r) in w.nodes[0].tokens;
    var t := Token(0, j, j, r);
    var e := DataComes(w, c, t);
    DataMayCome(w, c, n, j, t);
    T.SecondPassArrival(Its(w), j);
    RestartKeepsGrant(w.sys.hosts[0]);
    w' := Onward(w, e, c);
    assert w'.nodes[0] == AfterData(w.nodes[0], t);
    forall x: nat | j + 1 <= x < n
      ensures HasToken(w', x)
    {
      assert HasToken(w, x);
      var q :| Token(0, x, x, q) in w.nodes[0].tokens;
      assert Token(0, x, x, q) in w'.nodes[0].tokens;
    }
  }

  lemma AllComeLate(w: World, c: Setup, n: nat, j: nat) returns (w': World)
    requires Late(w, c, n, j)
    ensures Late(w', c, n, n)
    decreases n - j
  {
    w' := w;
    if j < n {
      w' := ComesLate(w, c, n, j);
      w' := AllComeLate(w', c, n, j + 1);
    }
  }

  // ---- From the start ----

  function Start(): World {
    World(L.System(A.Arbiter([true, true], [true, true], [], []), [NewReceiver(0), NewReceiver(1)], map[], {}),
          [Node(map[], 0, {}), Node(map[], 0, {})], 1)
  }

  lemma StartIsReachable(c: Setup)
    ensures Reachable(Start(), c)
  {
    assert Run([Start()], [], c);
  }

  lemma FirstRequest(h: Receiver)
    requires h == NewReceiver(0)
    ensures var (g, msg) := ReceiveRts(h, 1, true, [1]);
            g.grant == h.grant && g.wakeup.Some? && msg == Some(ListSrcs(0, [1], None))
  {
  }

  /** The flow is announced, and asked for. */
  lemma Opens(c: Setup, n: nat) returns (w: World)
    requires c.tokenInitial < n
    ensures Idle(w, c, n, 0)
  {
    var s := Start();
    StartIsReachable(c);
    var e := Announced(0, 0, 1, n, true, 0, [1], 0, 1);
    var flows := AfterRequest(s.nodes[0], c, 0, 1, n, 1, 0).flows;
    ListsItself(s, c, flows, n, 0, 1);
    assert Possible(s, e, c);
    w := Onward(s, e, c);
    FirstRequest(s.sys.hosts[0]);
    assert w.nodes[0].flows == flows;
    assert Requested(w, c, n, 0);
    w := IsQueued(w, c, n, 0);
  }

  /** Every configuration in which a grant can be used and kept has a run that forgets one. */
  lemma ForgetsInSomeRun(c: Setup) returns (w: World, e: Event)
    requires c.lease.nrtsGap + 1 < c.lease.maxTokens
    ensures Reachable(w, c) && Possible(w, e, c) && ForgetsGrant(w, e, c)
    ensures L.Lost(After(w, e, c).sys, A.Grant(1, 0))
  {
    var grants := c.lease.nrtsGap + c.tokenInitial + c.flow.window + 2;
    var n := Packets(c.lease.maxTokens, grants);
    w := Opens(c, n);
    w := AsksForAll(w, c, n, 0, grants);
    w := GetsGrant(w, c, n, n, w.clock + c.flow.resendTimeout);
    w := AsksAnew(w, c, n, c.lease.maxTokens);
    w := AllComeLate(w, c, n, 1);
    e := DataComes(w, c, Token(0, 0, n, w.sys.hosts[0].grant.round));
    ForgetsNow(w, c, n, e);
  }

  lemma ForgetsNow(w: World, c: Setup, n: nat, e: Event)
    requires Late(w, c, n, n) && e == DataComes(w, c, Token(0, 0, n, w.sys.hosts[0].grant.round))
    ensures Possible(w, e, c) && ForgetsGrant(w, e, c) && L.Lost(After(w, e, c).sys, A.Grant(1, 0))
  {
    InOrder(w, c);
    DataMayCome(w, c, n, n, e.t);
    T.SecondPassEnds(Its(w), n);
    ForgetsGrantExactlyWhen(w, e, c);
    ForgettingLoses(w, e, c);
  }

  /** Receivers can forget grants exactly when a grant exceeds the tokens that fit before the next one by two. */
  lemma GrantsForgottenExactlyWhen(c: Setup)
    ensures (exists w, e :: Reachable(w, c) && Possible(w, e, c) && ForgetsGrant(w, e, c))
            <==> c.lease.nrtsGap + 1 < c.lease.maxTokens
  {
    if c.lease.nrtsGap + 1 < c.lease.maxTokens {
      var w, e := ForgetsInSomeRun(c);
    }
    forall w, e | Reachable(w, c) && Possible(w, e, c) && ForgetsGrant(w, e, c)
      ensures c.lease.nrtsGap + 1 < c.lease.maxTokens
    {
      InOrder(w, c);
      ForgottenOnlyWhenLarge(w, e, c);
    }
  }
}
