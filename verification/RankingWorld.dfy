/**
 The lease system together with the flows it serves: requests, tokens and data packets.  What the
 receivers' machine takes as an argument (is a flow ready, which sources to list, how a turn went, has
 a flow's last packet come) is here read off the flows, so that nothing happens that they rule out.
 Messages, tokens and data packets may be late or lost, and a live timer may fire at any moment.
 */
module RankingWorld {
  import opened Options
  import opened FlowQueue
  import opened RankingReceiver
  import opened Sets
  import opened Timers
  import opened TokenFlow
  import opened TokenRound
  import A = RankingArbiter
  import L = RankingLease

  /** A token whose data packet has not arrived; tokens of short flows name no round. */
  datatype Token = Token(flow: nat, dataSeq: nat, tokenSeq: int, round: int)

  /** A receiver's flows, the rounds it still holds tokens back, and the tokens not yet answered. */
  datatype Node = Node(flows: map<nat, Flow>, holdOn: nat, tokens: set<Token>)

  datatype World = World(sys: L.System, nodes: seq<Node>, clock: int)

  datatype Setup = Setup(lease: L.Config, tokenInitial: nat, flow: Params)

  datatype Event =
    | Moved(a: L.Action, now: int)
    | Offered(id: nat, srcs: seq<nat>, newId: nat, now: int)
    | Announced(host: nat, f: nat, src: nat, size: nat, isTop: bool, firstTimeout: nat, srcs: seq<nat>, newId: nat, now: int)
    | Arrived(host: nat, t: Token, again: bool, srcs: seq<nat>, newId: nat, now: int)
    | Retried(host: nat, evt: nat, srcs: seq<nat>, newId: nat, now: int)
    | Fired(host: nat, evt: nat, round: Round, srcs: seq<nat>, newId: nat, now: int)

  // ---- What the flows say ----

  predicate LongReady(flows: map<nat, Flow>, c: Setup, f: nat, src: nat, now: int) {
    f in flows && flows[f].size > c.tokenInitial && flows[f].src == src && Ready(flows[f], now)
  }

  ghost predicate HasLong(flows: map<nat, Flow>, c: Setup, src: nat, now: int) {
    exists f :: LongReady(flows, c, f, src, now)
  }

  ghost predicate SomeLongLeft(flows: map<nat, Flow>, c: Setup) {
    exists f :: f in flows && flows[f].size > c.tokenInitial && !flows[f].finished
  }

  /** `f` is the only long flow of its source that is ready. */
  ghost predicate OnlyReady(flows: map<nat, Flow>, c: Setup, f: nat, src: nat, now: int) {
    LongReady(flows, c, f, src, now) && forall g | LongReady(flows, c, g, src, now) :: g == f
  }

  /**
   A request lists every source with a ready flow once.  The source of a grant it gives back is listed
   only if its flows still want more than the `remain` tokens left; with several flows the queue's order counts.
   */
  ghost predicate Lists(flows: map<nat, Flow>, c: Setup, srcs: seq<nat>, own: Option<nat>, remain: int, now: int) {
    && (forall i, j | 0 <= i < j < |srcs| :: srcs[i] != srcs[j])
    && (forall s | s in srcs :: HasLong(flows, c, s, now) && (own == Some(s) ==> remain > 0))
    && (forall s: nat | HasLong(flows, c, s, now) && own != Some(s) :: s in srcs)
    && (own.Some? ==> forall f | OnlyReady(flows, c, f, own.value, now) ::
          own.value in srcs <==> remain > 0 && flows[f].Work() > remain)
  }

  /** Data resumes the tokens of the flow a grant is used for. */
  ghost predicate ResumesRight(again: bool, grant: GoSrc, flows: map<nat, Flow>, c: Setup, f: nat, now: int)
    requires f in flows
  {
    var may := !flows[f].finished && flows[f].TokenGap() <= c.flow.window
               && grant.src == Some(flows[f].src) && grant.remainTokens > 0 && LongReady(flows, c, f, flows[f].src, now);
    && (again ==> may)
    && (may && OnlyReady(flows, c, f, flows[f].src, now) ==> again)
  }

  /** The flow a grant is used for: some ready one of its source, when there is one. */
  ghost predicate LargeIs(flows: map<nat, Flow>, c: Setup, grant: GoSrc, large: Option<nat>, now: int) {
    && (large.Some? <==> grant.src.Some? && HasLong(flows, c, grant.src.value, now))
    && (large.Some? ==> LongReady(flows, c, large.value, grant.src.value, now))
  }

  ghost predicate ShortsAre(flows: map<nat, Flow>, c: Setup, shorts: seq<nat>) {
    forall f | f in flows && flows[f].size <= c.tokenInitial && !flows[f].finished :: f in shorts
  }

  // ---- What events do to a node ----

  function Asked(c: Setup, src: nat, size: nat, now: int, firstTimeout: nat): Flow {
    if size > c.tokenInitial then NewFlow(src, size) else ReceiveShortFlow(NewFlow(src, size), now, firstTimeout)
  }

  function FreeTokens(c: Setup, f: nat, size: nat): set<Token> {
    if size > c.tokenInitial then {} else set x | x in Below(size) :: Token(f, x, x, -1)
  }

  function AfterRequest(n: Node, c: Setup, f: nat, src: nat, size: nat, now: int, firstTimeout: nat): Node {
    Node(n.flows[f := Asked(c, src, size, now, firstTimeout)],
         if size > c.tokenInitial then n.holdOn else size, n.tokens + FreeTokens(c, f, size))
  }

  function AfterData(n: Node, t: Token): Node
    requires t.flow in n.flows && n.flows[t.flow].Valid()
  {
    n.(flows := n.flows[t.flow := ReceiveData(n.flows[t.flow], t.dataSeq, t.tokenSeq)], tokens := n.tokens - {t})
  }

  /** The token a round sent, if any; only a long flow's names the grant's round. */
  ghost function NewTokens(n: Node, c: Setup, grant: GoSrc, r: Round, now: int): set<Token> {
    if r.to.Some? && r.to.value in n.flows && n.flows[r.to.value].Valid() && n.flows[r.to.value].Incomplete()
       && Turn(n.flows[r.to.value], c.flow, now).1.Sent? then
      var v := Turn(n.flows[r.to.value], c.flow, now).1;
      {Token(r.to.value, v.dataSeq, v.tokenSeq, if n.flows[r.to.value].size > c.tokenInitial then grant.round else -1)}
    else {}
  }

  ghost function AfterRound(n: Node, c: Setup, grant: GoSrc, r: Round, now: int): Node {
    Node(r.flows, if n.holdOn > 0 then n.holdOn - 1 else 0, n.tokens + NewTokens(n, c, grant, r, now))
  }

  /** What a data packet is to the receiver's machine. */
  ghost function DataInput(n: Node, c: Setup, t: Token, again: bool, srcs: seq<nat>, now: int): Option<Input>
    requires t.flow in n.flows && n.flows[t.flow].Valid()
  {
    var f, flows := n.flows[t.flow], AfterData(n, t).flows;
    if flows[t.flow].finished then
      if !f.finished && f.size > c.tokenInitial then Some(Finish(f.src, t.round, HasLong(flows, c, f.src, now), srcs)) else None
    else if again then Some(TokensWanted) else None
  }

  // ---- Steps ----

  /** How many tokens of the grant a round leaves. */
  function Remaining(grant: GoSrc, r: Round): int {
    grant.remainTokens - if r.turn.Some? && r.turn.value.sent then 1 else 0
  }

  ghost predicate RoundFits(n: Node, c: Setup, grant: GoSrc, r: Round, srcs: seq<nat>, now: int) {
    && RoundOk(n.flows, n.holdOn > 0, r, c.tokenInitial, c.flow, now)
    && LargeIs(n.flows, c, grant, r.large, now) && ShortsAre(r.flows, c, r.shorts)
    && Lists(r.flows, c, srcs, grant.src, Remaining(grant, r), now)
  }

  /** Which node an event is about. */
  function At(w: World, e: Event): nat {
    match e
    case Moved(_, _) => 0
    case Offered(id, _, _, _) => if id in w.sys.net && w.sys.net[id].GosrcMsg? then w.sys.net[id].grant.dst else 0
    case Announced(host, _, _, _, _, _, _, _, _) => host
    case Arrived(host, _, _, _, _, _) => host
    case Retried(host, _, _, _, _) => host
    case Fired(host, _, _, _, _, _) => host
  }

  /** What may happen next. */
  ghost predicate Possible(w: World, e: Event, c: Setup) {
    && |w.nodes| == |w.sys.hosts| && w.clock <= e.now
    && (!e.Moved? ==> At(w, e) < |w.nodes| && e.newId !in w.sys.net)
    && match e
       case Moved(a, _) => (a.Epoch? || a.DeliverList? || a.Lose?) && L.Possible(w.sys, a, c.lease)
       case Offered(id, srcs, _, now) =>
         && id in w.sys.net && w.sys.net[id].GosrcMsg? && 0 < c.lease.maxTokens
         && Lists(w.nodes[At(w, e)].flows, c, srcs, Some(w.sys.net[id].grant.src), 0, now)
       case Announced(host, f, src, size, _, firstTimeout, srcs, _, now) =>
         && f !in w.nodes[host].flows && 0 < size && src < |w.sys.hosts|
         && Lists(AfterRequest(w.nodes[host], c, f, src, size, now, firstTimeout).flows, c, srcs, None, 0, now)
       case Arrived(host, t, again, srcs, _, now) =>
         && t in w.nodes[host].tokens && t.flow in w.nodes[host].flows && w.nodes[host].flows[t.flow].Valid()
         && var flows := AfterData(w.nodes[host], t).flows;
         && Lists(flows, c, srcs, Some(flows[t.flow].src), w.sys.hosts[host].grant.remainTokens, now)
         && ResumesRight(again, w.sys.hosts[host].grant, flows, c, t.flow, now)
       case Retried(host, evt, srcs, _, now) =>
         evt in w.sys.hosts[host].liveWakeups && Lists(w.nodes[host].flows, c, srcs, None, 0, now)
       case Fired(host, evt, r, srcs, _, now) =>
         evt in w.sys.hosts[host].liveTokens && RoundFits(w.nodes[host], c, w.sys.hosts[host].grant, r, srcs, now)
  }

  /** The step of the lease system an event is. */
  ghost function ActionOf(w: World, e: Event, c: Setup): Option<L.Action>
    requires Possible(w, e, c)
  {
    match e
    case Moved(a, _) => Some(a)
    case Offered(id, srcs, newId, now) =>
      Some(L.DeliverGosrc(id, HasLong(w.nodes[At(w, e)].flows, c, w.sys.net[id].grant.src, now), srcs, newId))
    case Announced(host, _, src, size, isTop, _, srcs, newId, _) =>
      Some(L.Local(host, if size > c.tokenInitial then Rts(src, isTop, srcs) else TokensWanted, newId))
    case Arrived(host, t, again, srcs, newId, now) =>
      var i := DataInput(w.nodes[host], c, t, again, srcs, now);
      if i.Some? then Some(L.Local(host, i.value, newId)) else None
    case Retried(host, evt, srcs, newId, _) =>
      Some(L.Local(host, WakeupFires(evt, srcs, SomeLongLeft(w.nodes[host].flows, c)), newId))
    case Fired(host, evt, r, srcs, newId, _) =>
      Some(L.Local(host, TokenFires(evt, r.turn, w.nodes[host].holdOn > 0 || r.to.Some?, r.closest < HORIZON, srcs), newId))
  }

  ghost function NodeAfter(w: World, e: Event, c: Setup): Node
    requires Possible(w, e, c) && At(w, e) < |w.nodes|
  {
    match e
    case Announced(host, f, src, size, _, firstTimeout, _, _, now) =>
      AfterRequest(w.nodes[host], c, f, src, size, now, firstTimeout)
    case Arrived(host, t, _, _, _, _) => AfterData(w.nodes[host], t)
    case Fired(host, _, r, _, _, now) => AfterRound(w.nodes[host], c, w.sys.hosts[host].grant, r, now)
    case _ => w.nodes[At(w, e)]
  }

  ghost function After(w: World, e: Event, c: Setup): World
    requires Possible(w, e, c)
  {
    var a := ActionOf(w, e, c);
    World(if a.Some? && L.Possible(w.sys, a.value, c.lease) then L.Apply(w.sys, a.value, c.lease) else w.sys,
          if At(w, e) < |w.nodes| then w.nodes[At(w, e) := NodeAfter(w, e, c)] else w.nodes, e.now)
  }

  ghost predicate Initial(w: World) {
    L.Initial(w.sys) && |w.nodes| == |w.sys.hosts| && forall h | 0 <= h < |w.nodes| :: w.nodes[h] == Node(map[], 0, {})
  }

  ghost predicate Next(w: World, e: Event, w': World, c: Setup) {
    Possible(w, e, c) && w' == After(w, e, c)
  }

  ghost predicate Run(ws: seq<World>, es: seq<Event>, c: Setup) {
    && |ws| == |es| + 1 && Initial(ws[0])
    && forall i | 0 <= i < |es| :: Next(ws[i], es[i], ws[i + 1], c)
  }

  // ---- What every step keeps ----

  ghost predicate FlowFits(f: Flow, c: Setup, hosts: nat) {
    && FlowOk(f) && (f.finished ==> !f.Incomplete()) && f.src < hosts
    && (1 <= c.flow.window ==> f.largestSeq < f.tokenCount)
  }

  /** A token was sent for a packet of a known flow, a long flow's under a round of its source. */
  ghost predicate TokenFits(flows: map<nat, Flow>, issued: seq<TokenRecord>, c: Setup, t: Token) {
    && t.flow in flows && t.dataSeq < flows[t.flow].size && t.tokenSeq < flows[t.flow].tokenCount
    && (flows[t.flow].size > c.tokenInitial ==> TokenRecord(flows[t.flow].src, t.round) in issued)
  }

  ghost predicate NodeOk(n: Node, h: Receiver, c: Setup, hosts: nat) {
    && (forall f | f in n.flows :: FlowFits(n.flows[f], c, hosts))
    && (forall t | t in n.tokens :: TokenFits(n.flows, h.issued, c, t))
  }

  ghost predicate Ok(w: World, c: Setup) {
    && L.Inv(w.sys) && |w.nodes| == |w.sys.hosts|
    && (forall h | 0 <= h < |w.nodes| :: L.Reserved(w.sys.hosts[h], c.lease))
    && (forall h | 0 <= h < |w.nodes| :: NodeOk(w.nodes[h], w.sys.hosts[h], c, |w.nodes|))
  }

  lemma ListsInRange(flows: map<nat, Flow>, c: Setup, srcs: seq<nat>, own: Option<nat>, remain: int, now: int, hosts: nat)
    requires Lists(flows, c, srcs, own, remain, now) && forall f | f in flows :: flows[f].src < hosts
    ensures A.InRange(srcs, hosts)
  {
    forall i | 0 <= i < |srcs|
      ensures srcs[i] < hosts
    {
      assert srcs[i] in srcs;
      var f :| LongReady(flows, c, f, srcs[i], now);
    }
  }

  lemma RequestFits(c: Setup, src: nat, size: nat, now: int, firstTimeout: nat, hosts: nat)
    requires 0 < size && src < hosts
    ensures FlowFits(Asked(c, src, size, now, firstTimeout), c, hosts)
  {
  }

  lemma DataFits(f: Flow, c: Setup, hosts: nat, dataSeq: nat, tokenSeq: int)
    requires FlowFits(f, c, hosts) && dataSeq < f.size && tokenSeq < f.tokenCount
    ensures FlowFits(ReceiveData(f, dataSeq, tokenSeq), c, hosts)
    ensures ReceiveData(f, dataSeq, tokenSeq).finished <==> forall x | f.Missing(x) :: x == dataSeq
  {
    var g := ReceiveData(f, dataSeq, tokenSeq);
    ReceiveKeepsValid(f, dataSeq, tokenSeq);
    assert g.received == f.received + {dataSeq};
    IncompleteIsCount(f);
    IncompleteIsCount(g);
    assert forall x :: g.Missing(x) <==> f.Missing(x) && x != dataSeq;
  }

  lemma TurnFits(f: Flow, c: Setup, hosts: nat, now: int)
    requires FlowFits(f, c, hosts) && f.Incomplete()
    ensures var (g, v) := Turn(f, c.flow, now);
            && FlowFits(g, c, hosts) && (g.src, g.size) == (f.src, f.size) && f.tokenCount <= g.tokenCount
            && (v.Sent? ==> v.dataSeq < f.size && v.tokenSeq < g.tokenCount)
  {
    TurnCounts(f, c.flow, now);
    TurnWaits(f, c.flow, now);
  }

  lemma SameNodeKept(n: Node, h: Receiver, h': Receiver, c: Setup, hosts: nat)
    requires NodeOk(n, h, c, hosts) && forall t | t in h.issued :: t in h'.issued
    ensures NodeOk(n, h', c, hosts)
  {
  }

  lemma RequestKept(n: Node, h: Receiver, c: Setup, hosts: nat, f: nat, src: nat, size: nat, now: int, firstTimeout: nat)
    requires NodeOk(n, h, c, hosts) && f !in n.flows && 0 < size && src < hosts
    ensures NodeOk(AfterRequest(n, c, f, src, size, now, firstTimeout), h, c, hosts)
  {
    RequestFits(c, src, size, now, firstTimeout, hosts);
    var m := AfterRequest(n, c, f, src, size, now, firstTimeout);
    forall t | t in m.tokens
      ensures TokenFits(m.flows, h.issued, c, t)
    {
      assert t in n.tokens ==> TokenFits(n.flows, h.issued, c, t);
    }
  }

  lemma DataKept(n: Node, h: Receiver, c: Setup, hosts: nat, t: Token)
    requires NodeOk(n, h, c, hosts) && t in n.tokens
    ensures NodeOk(AfterData(n, t), h, c, hosts)
  {
    var m := AfterData(n, t);
    DataFits(n.flows[t.flow], c, hosts, t.dataSeq, t.tokenSeq);
    forall u | u in m.tokens
      ensures TokenFits(m.flows, h.issued, c, u)
    {
      assert TokenFits(n.flows, h.issued, c, u);
    }
  }

  /** A round leaves every flow with as many tokens or more. */
  lemma RoundFlowsFit(n: Node, c: Setup, hosts: nat, r: Round, now: int)
    requires (forall f | f in n.flows :: FlowFits(n.flows[f], c, hosts)) && Turns(n.flows, r.flows, r.to, c.flow, now)
    ensures forall f | f in n.flows ::
              && FlowFits(r.flows[f], c, hosts) && n.flows[f].tokenCount <= r.flows[f].tokenCount
              && (r.flows[f].src, r.flows[f].size) == (n.flows[f].src, n.flows[f].size)
  {
    forall f | f in n.flows
      ensures FlowFits(r.flows[f], c, hosts) && n.flows[f].tokenCount <= r.flows[f].tokenCount
      ensures (r.flows[f].src, r.flows[f].size) == (n.flows[f].src, n.flows[f].size)
    {
      assert AfterVisit(n.flows[f], r.flows[f], c.flow, now, r.to == Some(f));
      if HadTurn(n.flows[f], r.flows[f], c.flow, now) {
        TurnFits(n.flows[f], c, hosts, now);
      }
    }
  }

  lemma NewTokenFits(n: Node, h: Receiver, h': Receiver, c: Setup, hosts: nat, r: Round, now: int, t: Token)
    requires NodeOk(n, h, c, hosts) && Turns(n.flows, r.flows, r.to, c.flow, now)
    requires t in NewTokens(n, c, h.grant, r, now)
    requires n.flows[t.flow].size > c.tokenInitial ==> TokenRecord(n.flows[t.flow].src, h.grant.round) in h'.issued
    ensures TokenFits(r.flows, h'.issued, c, t)
  {
    var f := r.to.value;
    assert AfterVisit(n.flows[f], r.flows[f], c.flow, now, true);
    TurnFits(n.flows[f], c, hosts, now);
  }

  lemma RoundKept(n: Node, h: Receiver, h': Receiver, c: Setup, hosts: nat, r: Round, now: int)
    requires NodeOk(n, h, c, hosts) && RoundOk(n.flows, n.holdOn > 0, r, c.tokenInitial, c.flow, now)
    requires LargeIs(n.flows, c, h.grant, r.large, now) && forall t | t in h.issued :: t in h'.issued
    requires r.turn.Some? && r.turn.value.sent ==> h.grant.src.Some? && TokenRecord(h.grant.src.value, h.grant.round) in h'.issued
    ensures NodeOk(AfterRound(n, c, h.grant, r, now), h', c, hosts)
  {
    var m := AfterRound(n, c, h.grant, r, now);
    RoundFlowsFit(n, c, hosts, r, now);
    forall t | t in m.tokens
      ensures TokenFits(m.flows, h'.issued, c, t)
    {
      if t in n.tokens {
        assert TokenFits(n.flows, h.issued, c, t);
      } else {
        NewTokenFits(n, h, h', c, hosts, r, now, t);
      }
    }
  }

  // ---- The lease system underneath ----

  lemma NodeFlowsInRange(w: World, c: Setup, host: nat)
    requires Ok(w, c) && host < |w.nodes|
    ensures forall f | f in w.nodes[host].flows :: w.nodes[host].flows[f].src < |w.nodes|
  {
    assert NodeOk(w.nodes[host], w.sys.hosts[host], c, |w.nodes|);
  }

  /** What happens among flows is possible in the lease system, so that all its results apply. */
  lemma StepRefines(w: World, e: Event, c: Setup)
    requires Ok(w, c) && Possible(w, e, c)
    ensures ActionOf(w, e, c).Some? ==> L.Possible(w.sys, ActionOf(w, e, c).value, c.lease)
  {
    var hosts := |w.nodes|;
    if !e.Moved? {
      NodeFlowsInRange(w, c, At(w, e));
    }
    match e
    case Moved(_, _) =>
    case Offered(id, srcs, _, now) =>
      ListsInRange(w.nodes[At(w, e)].flows, c, srcs, Some(w.sys.net[id].grant.src), 0, now, hosts);
    case Announced(host, f, src, size, _, firstTimeout, srcs, _, now) =>
      RequestFits(c, src, size, now, firstTimeout, hosts);
      ListsInRange(AfterRequest(w.nodes[host], c, f, src, size, now, firstTimeout).flows, c, srcs, None, 0, now, hosts);
    case Arrived(host, t, _, srcs, _, now) =>
      ArrivalRefines(w, e, c);
    case Retried(host, _, srcs, _, now) =>
      ListsInRange(w.nodes[host].flows, c, srcs, None, 0, now, hosts);
    case Fired(host, _, r, srcs, _, now) =>
      RoundFlowsFit(w.nodes[host], c, hosts, r, now);
      ListsInRange(r.flows, c, srcs, w.sys.hosts[host].grant.src, Remaining(w.sys.hosts[host].grant, r), now, hosts);
  }

  lemma ArrivalRefines(w: World, e: Event, c: Setup)
    requires Ok(w, c) && Possible(w, e, c) && e.Arrived?
    ensures ActionOf(w, e, c).Some? ==> L.Possible(w.sys, ActionOf(w, e, c).value, c.lease)
  {
    var n := w.nodes[e.host];
    assert TokenFits(n.flows, w.sys.hosts[e.host].issued, c, e.t);
    DataKept(n, w.sys.hosts[e.host], c, |w.nodes|, e.t);
    var flows := AfterData(n, e.t).flows;
    ListsInRange(flows, c, e.srcs, Some(flows[e.t.flow].src), w.sys.hosts[e.host].grant.remainTokens, e.now, |w.nodes|);
  }

  /** Only one receiver may have changed, and its record of tokens sent has only grown. */
  ghost predicate OneHostMoves(s: L.System, t: L.System, host: nat) {
    && |t.hosts| == |s.hosts| && (forall h | 0 <= h < |s.hosts| && h != host :: t.hosts[h] == s.hosts[h])
    && (host < |s.hosts| ==> forall x | x in s.hosts[host].issued :: x in t.hosts[host].issued)
  }

  lemma ActionMovesOneHost(s: L.System, a: L.Action, c: Setup, host: nat)
    requires L.Inv(s) && L.Possible(s, a, c.lease)
    requires (a.Local? ==> a.host == host) && (a.DeliverGosrc? ==> s.net[a.id].grant.dst == host)
    ensures OneHostMoves(s, L.Apply(s, a, c.lease), host)
  {
    if a.Local? {
      HandleKeepsIssued(s.hosts[host], a.input, c.lease.nrtsGap);
    } else if a.DeliverGosrc? {
      HandleKeepsIssued(s.hosts[host], Gosrc(s.net[a.id].grant.src, c.lease.maxTokens, a.best, a.srcs), c.lease.nrtsGap);
    } else if a.Epoch? {
      L.IssueAllKeepsHosts(s, a.ids, A.Serve(s.arb).1);
    }
  }

  lemma SystemKept(w: World, e: Event, c: Setup)
    requires Ok(w, c) && Possible(w, e, c)
    ensures L.Inv(After(w, e, c).sys) && OneHostMoves(w.sys, After(w, e, c).sys, At(w, e))
    ensures forall h | 0 <= h < |After(w, e, c).sys.hosts| :: L.Reserved(After(w, e, c).sys.hosts[h], c.lease)
  {
    StepRefines(w, e, c);
    var a := ActionOf(w, e, c);
    if a.Some? {
      L.StepKeeps(w.sys, a.value, c.lease);
      L.StepKeepsReserved(w.sys, a.value, c.lease);
      ActionMovesOneHost(w.sys, a.value, c, At(w, e));
    }
  }

  /** A round that sent a long flow's token put it on record. */
  ghost predicate Charged(e: Event, h: Receiver, h': Receiver) {
    e.Fired? && e.round.turn.Some? && e.round.turn.value.sent ==>
      h.grant.src.Some? && TokenRecord(h.grant.src.value, h.grant.round) in h'.issued
  }

  lemma FiredIsCharged(w: World, e: Event, c: Setup, h': Receiver)
    requires Ok(w, c) && Possible(w, e, c) && e.Fired?
    requires |After(w, e, c).sys.hosts| == |w.nodes| && After(w, e, c).sys.hosts[e.host] == h'
    ensures Charged(e, w.sys.hosts[e.host], h')
  {
    StepRefines(w, e, c);
    HandleKeepsIssued(w.sys.hosts[e.host], ActionOf(w, e, c).value.input, c.lease.nrtsGap);
  }

  lemma NodeKept(w: World, e: Event, c: Setup, h': Receiver)
    requires Ok(w, c) && Possible(w, e, c) && At(w, e) < |w.nodes|
    requires (forall x | x in w.sys.hosts[At(w, e)].issued :: x in h'.issued) && Charged(e, w.sys.hosts[At(w, e)], h')
    ensures NodeOk(NodeAfter(w, e, c), h', c, |w.nodes|)
  {
    var n, h := w.nodes[At(w, e)], w.sys.hosts[At(w, e)];
    match e
    case Announced(host, f, src, size, _, firstTimeout, _, _, now) =>
      RequestKept(n, h, c, |w.nodes|, f, src, size, now, firstTimeout);
      SameNodeKept(NodeAfter(w, e, c), h, h', c, |w.nodes|);
    case Arrived(host, t, _, _, _, _) =>
      DataKept(n, h, c, |w.nodes|, t);
      SameNodeKept(NodeAfter(w, e, c), h, h', c, |w.nodes|);
    case Fired(host, _, r, _, _, now) =>
      RoundKept(n, h, h', c, |w.nodes|, r, now);
    case _ =>
      SameNodeKept(n, h, h', c, |w.nodes|);
  }

  lemma StepKeeps(w: World, e: Event, c: Setup)
    requires Ok(w, c) && Possible(w, e, c)
    ensures Ok(After(w, e, c), c)
  {
    var w', i := After(w, e, c), At(w, e);
    SystemKept(w, e, c);
    if i < |w.nodes| {
      if e.Fired? {
        FiredIsCharged(w, e, c, w'.sys.hosts[i]);
      }
      NodeKept(w, e, c, w'.sys.hosts[i]);
    }
  }

  /** In every run the lease, the receivers and the flows are in order, and data never overtakes tokens. */
  lemma {:induction false} RunKeeps(ws: seq<World>, es: seq<Event>, c: Setup, i: nat)
    requires Run(ws, es, c) && i < |ws|
    ensures Ok(ws[i], c)
  {
    if i == 0 {
      assert L.Run([ws[0].sys], [], c.lease);
      L.RunKeeps([ws[0].sys], [], c.lease);
      assert [ws[0].sys][0] == ws[0].sys;
    } else {
      RunKeeps(ws, es, c, i - 1);
      assert Next(ws[i - 1], es[i - 1], ws[i], c);
      StepKeeps(ws[i - 1], es[i - 1], c);
    }
  }

  // ---- When a grant is forgotten ----

  /** The event makes a receiver forget the grant it owes. */
  ghost predicate ForgetsGrant(w: World, e: Event, c: Setup)
    requires Possible(w, e, c)
  {
    ActionOf(w, e, c).Some? && L.Forgets(w.sys, ActionOf(w, e, c).value)
  }

  /** A long flow's only missing packet arrives, under the very grant its receiver still owes. */
  ghost predicate LastUnderGrant(w: World, e: Event, c: Setup) {
    && e.Arrived? && e.host < |w.nodes| && |w.nodes| == |w.sys.hosts| && e.t.flow in w.nodes[e.host].flows
    && var f, h := w.nodes[e.host].flows[e.t.flow], w.sys.hosts[e.host];
    && f.size > c.tokenInitial && (forall x :: f.Missing(x) <==> x == e.t.dataSeq)
    && Owes(h).Some? && e.t.round == h.grant.round
  }

  /** The machine is told of a flow's end exactly when its only missing packet arrives. */
  lemma FinishesExactlyWhen(w: World, e: Event, c: Setup)
    requires Ok(w, c) && Possible(w, e, c) && e.Arrived?
    ensures var f, a := w.nodes[e.host].flows[e.t.flow], ActionOf(w, e, c);
            (a.Some? && a.value.input.Finish?) <==> f.size > c.tokenInitial && forall x :: f.Missing(x) <==> x == e.t.dataSeq
  {
    var n := w.nodes[e.host];
    var f := n.flows[e.t.flow];
    assert TokenFits(n.flows, w.sys.hosts[e.host].issued, c, e.t) && FlowFits(f, c, |w.nodes|);
    var d := e.t.dataSeq;
    var g := ReceiveData(f, d, e.t.tokenSeq);
    DataFits(f, c, |w.nodes|, d, e.t.tokenSeq);
    IncompleteIsCount(f);
    assert AfterData(n, e.t).flows[e.t.flow] == g;
    if f.Incomplete() {
      assert f.Missing(f.receivedUntil) && !f.finished;
      assert g.finished <==> forall x :: f.Missing(x) <==> x == d;
    } else {
      assert f.finished && !f.Missing(d);
    }
  }

  /** That is the one way. */
  lemma ForgetsGrantExactlyWhen(w: World, e: Event, c: Setup)
    requires Ok(w, c) && Possible(w, e, c)
    ensures ForgetsGrant(w, e, c) <==> LastUnderGrant(w, e, c)
  {
    StepRefines(w, e, c);
    if e.Arrived? {
      FinishesExactlyWhen(w, e, c);
    }
  }

  /** A forgotten grant is lost: both its ports stay busy with nobody owing them. */
  lemma ForgettingLoses(w: World, e: Event, c: Setup)
    requires Ok(w, c) && Possible(w, e, c) && ForgetsGrant(w, e, c)
    ensures e.Arrived? && L.Lost(After(w, e, c).sys, A.Grant(Owes(w.sys.hosts[e.host]).value, e.host))
  {
    StepRefines(w, e, c);
    L.LostExactlyWhen(w.sys, ActionOf(w, e, c).value, c.lease, L.AtHost(e.host));
  }

  /** A grant can be forgotten only when it is large enough to be used and kept. */
  lemma ForgottenOnlyWhenLarge(w: World, e: Event, c: Setup)
    requires Ok(w, c) && Possible(w, e, c) && ForgetsGrant(w, e, c)
    ensures c.lease.nrtsGap + 1 < c.lease.maxTokens
  {
    StepRefines(w, e, c);
    var a := ActionOf(w, e, c).value;
    ForgottenGrantIsLarge(w.sys.hosts[a.host], a.input, c.lease.nrtsGap);
  }
}
