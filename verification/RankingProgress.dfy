/**
 What keeps a receiver going, over whole runs of the joint system: when a grant is still owed after its
 flow's turn, when a retry stays set, and exactly when a receiver with something left to ask for has
 neither a grant nor a retry.
 */
module RankingProgress {
  import opened Options
  import opened FlowQueue
  import opened RankingReceiver
  import opened RankingWorld
  import T = TokenFlow
  import opened TokenRound
  import A = RankingArbiter
  import L = RankingLease

  // ---- The last turn under a grant ----

  /** A flow of the granted source had its turn at `host`. */
  predicate TurnsAt(e: Event, host: nat) {
    e.Fired? && e.host == host && e.round.turn.Some?
  }

  /** `host` takes a grant. */
  ghost predicate TakesAt(w: World, e: Event, c: Setup, host: nat) {
    && e.Offered? && e.id in w.sys.net && w.sys.net[e.id].GosrcMsg? && w.sys.net[e.id].grant.dst == host < |w.nodes|
    && HasLong(w.nodes[host].flows, c, w.sys.net[e.id].grant.src, e.now)
  }

  /** The event, before event `i`, of the last turn under the grant `host` has by then. */
  ghost function LastTurn(ws: seq<World>, es: seq<Event>, c: Setup, host: nat, i: nat): (r: Option<nat>)
    requires i <= |es| <= |ws|
    ensures r.Some? ==> r.value < i && TurnsAt(es[r.value], host)
  {
    if i == 0 then None
    else if TurnsAt(es[i - 1], host) then Some(i - 1)
    else if TakesAt(ws[i - 1], es[i - 1], c, host) then None
    else LastTurn(ws, es, c, host, i - 1)
  }

  /** A grant still owed has not been used, or its last turn left enough to do, and enough to do it with. */
  ghost predicate KeptForWork(h: Receiver, nrtsGap: nat, last: Option<LongTurn>) {
    Owes(h).Some? ==>
      if last.None? then CountRound(h.issued, h.grant.round) == 0
      else !last.value.waiting && last.value.work > nrtsGap && h.history != [] && TokensLeft(h) > nrtsGap
  }

  lemma InputKeepsWork(h: Receiver, i: Input, nrtsGap: nat, last: Option<LongTurn>)
    requires ReceiverOk(h) && Enabled(h, i) && KeptForWork(h, nrtsGap, last)
    ensures KeptForWork(Handle(h, i, nrtsGap).0, nrtsGap,
                        if i.TokenFires? && i.turn.Some? then i.turn else if i.Gosrc? && i.best then None else last)
  {
    if i.TokenFires? && i.turn.Some? {
      OwesAfterTurnExactlyWhen(h, i, nrtsGap);
    } else if i.Gosrc? {
      CountAbsent(h.issued, h.grant.round + 1);
    }
  }

  ghost function TurnAt(es: seq<Event>, k: Option<nat>): Option<LongTurn>
    requires k.Some? ==> k.value < |es| && es[k.value].Fired?
  {
    if k.None? then None else es[k.value].round.turn
  }

  /** How an event changes one receiver: not at all, or by one input. */
  lemma HostStep(w: World, e: Event, c: Setup, host: nat)
    requires Ok(w, c) && Possible(w, e, c) && host < |w.nodes|
    ensures var h, h', a := w.sys.hosts[host], After(w, e, c).sys.hosts, ActionOf(w, e, c);
            && host < |h'|
            && if a.Some? && a.value.Local? && a.value.host == host then
                 Enabled(h, a.value.input) && h'[host] == Handle(h, a.value.input, c.lease.nrtsGap).0
               else if e.Offered? && At(w, e) == host then
                 var i := Gosrc(w.sys.net[e.id].grant.src, c.lease.maxTokens, a.value.best, e.srcs);
                 Enabled(h, i) && h'[host] == Handle(h, i, c.lease.nrtsGap).0
               else h'[host] == h
  {
    StepRefines(w, e, c);
    var a := ActionOf(w, e, c);
    if a.Some? && a.value.Epoch? {
      L.IssueAllKeepsHosts(w.sys, a.value.ids, A.Serve(w.sys.arb).1);
    }
  }

  lemma {:induction false} GrantsKeptForWork(ws: seq<World>, es: seq<Event>, c: Setup, host: nat, i: nat)
    requires Run(ws, es, c) && i <= |es| && host < |ws[i].nodes|
    ensures host < |ws[i].sys.hosts|
    ensures KeptForWork(ws[i].sys.hosts[host], c.lease.nrtsGap, TurnAt(es, LastTurn(ws, es, c, host, i)))
  {
    RunKeeps(ws, es, c, i);
    if i > 0 {
      var w, e := ws[i - 1], es[i - 1];
      assert Next(w, e, ws[i], c);
      RunKeeps(ws, es, c, i - 1);
      GrantsKeptForWork(ws, es, c, host, i - 1);
      StepKeepsWork(w, e, c, host, TurnAt(es, LastTurn(ws, es, c, host, i - 1)));
    }
  }

  lemma StepKeepsWork(w: World, e: Event, c: Setup, host: nat, last: Option<LongTurn>)
    requires Ok(w, c) && Possible(w, e, c) && host < |w.nodes|
    requires KeptForWork(w.sys.hosts[host], c.lease.nrtsGap, last)
    ensures host < |After(w, e, c).sys.hosts|
    ensures KeptForWork(After(w, e, c).sys.hosts[host], c.lease.nrtsGap,
                        if TurnsAt(e, host) then e.round.turn else if TakesAt(w, e, c, host) then None else last)
  {
    if e.Offered? && At(w, e) == host {
      OfferKeepsWork(w, e, c, host, last);
    } else {
      LocalKeepsWork(w, e, c, host, last);
    }
  }

  lemma OfferKeepsWork(w: World, e: Event, c: Setup, host: nat, last: Option<LongTurn>)
    requires Ok(w, c) && Possible(w, e, c) && host < |w.nodes| && e.Offered? && At(w, e) == host
    requires KeptForWork(w.sys.hosts[host], c.lease.nrtsGap, last)
    ensures host < |After(w, e, c).sys.hosts|
    ensures KeptForWork(After(w, e, c).sys.hosts[host], c.lease.nrtsGap, if TakesAt(w, e, c, host) then None else last)
  {
    HostStep(w, e, c, host);
    InputKeepsWork(w.sys.hosts[host], Gosrc(w.sys.net[e.id].grant.src, c.lease.maxTokens, ActionOf(w, e, c).value.best, e.srcs),
                   c.lease.nrtsGap, last);
  }

  lemma LocalKeepsWork(w: World, e: Event, c: Setup, host: nat, last: Option<LongTurn>)
    requires Ok(w, c) && Possible(w, e, c) && host < |w.nodes| && !(e.Offered? && At(w, e) == host)
    requires KeptForWork(w.sys.hosts[host], c.lease.nrtsGap, last)
    ensures host < |After(w, e, c).sys.hosts|
    ensures KeptForWork(After(w, e, c).sys.hosts[host], c.lease.nrtsGap, if TurnsAt(e, host) then e.round.turn else last)
  {
    var a := ActionOf(w, e, c);
    HostStep(w, e, c, host);
    if a.Some? && a.value.Local? && a.value.host == host {
      InputKeepsWork(w.sys.hosts[host], a.value.input, c.lease.nrtsGap, last);
    }
  }

  /**
   A grant is forgotten only in the middle of its work: a flow had its turn under it, and at the last
   such turn the flow did not wait and had more packets without a token than fit before the next
   grant, and the grant more tokens.
   */
  lemma ForgottenOnlyAmidWork(ws: seq<World>, es: seq<Event>, c: Setup, i: nat)
    requires Run(ws, es, c) && i < |es| && Possible(ws[i], es[i], c) && ForgetsGrant(ws[i], es[i], c)
    ensures es[i].Arrived? && es[i].host < |ws[i].sys.hosts|
    ensures var k, h := LastTurn(ws, es, c, es[i].host, i), ws[i].sys.hosts[es[i].host];
            && k.Some? && es[k.value].round.large.Some? && es[k.value].round.large.value in es[k.value].round.flows
            && var f := es[k.value].round.flows[es[k.value].round.large.value];
            && f.redundancy <= es[k.value].now && f.Work() > c.lease.nrtsGap
            && h.history != [] && TokensLeft(h) > c.lease.nrtsGap
  {
    var w, e := ws[i], es[i];
    RunKeeps(ws, es, c, i);
    ForgettingLoses(w, e, c);
    ForgetsGrantExactlyWhen(w, e, c);
    GrantsKeptForWork(ws, es, c, e.host, i);
    assert TokenFits(w.nodes[e.host].flows, w.sys.hosts[e.host].issued, c, e.t);
    IssuedCounts(w.sys.hosts[e.host].issued, TokenRecord(w.nodes[e.host].flows[e.t.flow].src, e.t.round));
    var k := LastTurn(ws, es, c, e.host, i).value;
    assert Next(ws[k], es[k], ws[k + 1], c);
    assert Reported(ws[k].nodes[e.host].flows, es[k].round, c.flow, es[k].now);
  }

  // ---- Grants and retries ----

  /** The source has a long flow that is not complete. */
  ghost predicate LeftOf(flows: map<nat, T.Flow>, c: Setup, src: nat) {
    exists f :: f in flows && flows[f].size > c.tokenInitial && flows[f].src == src && !flows[f].finished
  }

  /** Neither a grant to work on nor a retry. */
  predicate Unasked(h: Receiver) {
    h.grant.src.None? && h.wakeup.None?
  }

  /** The event makes `host` ask again: a long flow is announced, or a grant offered. */
  predicate AsksAt(w: World, e: Event, c: Setup, host: nat) {
    (e.Announced? && e.host == host && e.size > c.tokenInitial) || (e.Offered? && At(w, e) == host)
  }

  ghost predicate ForgetsAt(w: World, e: Event, c: Setup, host: nat)
    requires Possible(w, e, c)
  {
    ForgetsGrant(w, e, c) && At(w, e) == host
  }

  /** `forgot` says a grant was forgotten and nothing has made the receiver ask since. */
  ghost predicate AskingOk(h: Receiver, flows: map<nat, T.Flow>, c: Setup, forgot: bool) {
    && (h.grant.src.Some? ==> LeftOf(flows, c, h.grant.src.value))
    && (h.grant.src.Some? && h.grant.sendNrts ==> h.wakeup.Some?)
    && (if forgot then Unasked(h) else SomeLongLeft(flows, c) ==> !Unasked(h))
  }

  /** The flows of one node before and after an event, as far as asking goes. */
  ghost predicate SameLeft(flows: map<nat, T.Flow>, flows': map<nat, T.Flow>, c: Setup) {
    && (forall src: nat :: LeftOf(flows, c, src) <==> LeftOf(flows', c, src))
    && (SomeLongLeft(flows, c) <==> SomeLongLeft(flows', c))
  }

  lemma TurnKeepsRetry(h: Receiver, i: Input, nrtsGap: nat)
    requires ReceiverOk(h) && Enabled(h, i) && i.TokenFires? && (h.grant.src.Some? && h.grant.sendNrts ==> h.wakeup.Some?)
    ensures var g := Handle(h, i, nrtsGap).0;
            && (i.turn.Some? && (g.grant.src.None? || g.grant.sendNrts) ==> g.wakeup.Some?)
            && (g.grant.src.Some? ==> g.grant.src == h.grant.src)
            && (i.turn.None? ==> g.grant == h.grant && g.wakeup == h.wakeup)
  {
  }

  lemma FiredKeepsAsking(h: Receiver, i: Input, flows: map<nat, T.Flow>, flows': map<nat, T.Flow>, c: Setup, forgot: bool)
    requires ReceiverOk(h) && Enabled(h, i) && i.TokenFires? && AskingOk(h, flows, c, forgot) && SameLeft(flows, flows', c)
    ensures AskingOk(Handle(h, i, c.lease.nrtsGap).0, flows', c, forgot)
  {
    TurnKeepsRetry(h, i, c.lease.nrtsGap);
  }

  lemma RetryKeepsAsking(h: Receiver, i: Input, flows: map<nat, T.Flow>, c: Setup, forgot: bool)
    requires ReceiverOk(h) && Enabled(h, i) && i.WakeupFires? && AskingOk(h, flows, c, forgot)
    requires i.more <==> SomeLongLeft(flows, c)
    ensures AskingOk(Handle(h, i, c.lease.nrtsGap).0, flows, c, forgot)
  {
    if h.grant.src.Some? {
      var f :| f in flows && flows[f].size > c.tokenInitial && flows[f].src == h.grant.src.value && !flows[f].finished;
      assert SomeLongLeft(flows, c);
    }
  }

  lemma OfferKeepsAsking(h: Receiver, i: Input, flows: map<nat, T.Flow>, c: Setup, forgot: bool)
    requires ReceiverOk(h) && Enabled(h, i) && i.Gosrc? && AskingOk(h, flows, c, forgot)
    requires i.best ==> LeftOf(flows, c, i.src)
    ensures AskingOk(Handle(h, i, c.lease.nrtsGap).0, flows, c, false)
  {
  }

  lemma RequestKeepsAsking(h: Receiver, i: Input, flows: map<nat, T.Flow>, flows': map<nat, T.Flow>, c: Setup, forgot: bool)
    requires ReceiverOk(h) && Enabled(h, i) && i.Rts? && AskingOk(h, flows, c, forgot)
    requires forall src: nat | LeftOf(flows, c, src) :: LeftOf(flows', c, src)
    ensures AskingOk(Handle(h, i, c.lease.nrtsGap).0, flows', c, false)
  {
  }

  /** A flow of `i.src` has become complete; the others are as before. */
  lemma FinishKeepsAsking(h: Receiver, i: Input, flows: map<nat, T.Flow>, flows': map<nat, T.Flow>, c: Setup, forgot: bool)
    requires ReceiverOk(h) && Enabled(h, i) && i.Finish? && AskingOk(h, flows, c, forgot)
    requires (forall src: nat | src != i.src && LeftOf(flows, c, src) :: LeftOf(flows', c, src))
    requires (SomeLongLeft(flows', c) ==> SomeLongLeft(flows, c)) && (i.best ==> LeftOf(flows', c, i.src))
    ensures AskingOk(Handle(h, i, c.lease.nrtsGap).0, flows', c, forgot || (Owes(h).Some? && i.round == h.grant.round))
  {
    if h.grant.src.Some? && h.grant.round == i.round {
      var k :| 0 <= k < |h.issued| && h.issued[k] == TokenRecord(i.src, i.round);
    }
  }

  lemma WantedKeepsAsking(h: Receiver, flows: map<nat, T.Flow>, flows': map<nat, T.Flow>, c: Setup, forgot: bool)
    requires AskingOk(h, flows, c, forgot) && SameLeft(flows, flows', c)
    ensures AskingOk(RestartTokens(h), flows', c, forgot) && AskingOk(h, flows', c, forgot)
  {
  }

  // ---- Over runs ----

  lemma RequestLeaves(n: Node, c: Setup, f: nat, src: nat, size: nat, now: int, firstTimeout: nat)
    requires f !in n.flows
    ensures var flows' := AfterRequest(n, c, f, src, size, now, firstTimeout).flows;
            && (forall s: nat | LeftOf(n.flows, c, s) :: LeftOf(flows', c, s))
            && (size <= c.tokenInitial ==> SameLeft(n.flows, flows', c))
  {
    var flows' := AfterRequest(n, c, f, src, size, now, firstTimeout).flows;
    forall s: nat | LeftOf(n.flows, c, s)
      ensures LeftOf(flows', c, s)
    {
      var g :| g in n.flows && n.flows[g].size > c.tokenInitial && n.flows[g].src == s && !n.flows[g].finished;
      assert flows'[g] == n.flows[g];
    }
    if SomeLongLeft(n.flows, c) {
      var g :| g in n.flows && n.flows[g].size > c.tokenInitial && !n.flows[g].finished;
      assert flows'[g] == n.flows[g];
    }
  }

  lemma SameFinishedLeaves(flows: map<nat, T.Flow>, flows': map<nat, T.Flow>, c: Setup)
    requires flows'.Keys == flows.Keys
    requires forall f | f in flows ::
               (flows'[f].src, flows'[f].size) == (flows[f].src, flows[f].size)
               && (flows[f].size > c.tokenInitial ==> flows'[f].finished == flows[f].finished)
    ensures SameLeft(flows, flows', c)
  {
    forall s: nat
      ensures LeftOf(flows, c, s) <==> LeftOf(flows', c, s)
    {
      if LeftOf(flows, c, s) {
        var f :| f in flows && flows[f].size > c.tokenInitial && flows[f].src == s && !flows[f].finished;
        assert f in flows' && !flows'[f].finished;
      }
      if LeftOf(flows', c, s) {
        var f :| f in flows' && flows'[f].size > c.tokenInitial && flows'[f].src == s && !flows'[f].finished;
        assert f in flows && !flows[f].finished;
      }
    }
    if SomeLongLeft(flows, c) {
      var f :| f in flows && flows[f].size > c.tokenInitial && !flows[f].finished;
      assert f in flows' && !flows'[f].finished;
    }
    if SomeLongLeft(flows', c) {
      var f :| f in flows' && flows'[f].size > c.tokenInitial && !flows'[f].finished;
      assert f in flows && !flows[f].finished;
    }
  }

  /** Completing a flow leaves those of other sources as they were. */
  lemma DataLeaves(n: Node, c: Setup, t: Token, now: int)
    requires t.flow in n.flows && n.flows[t.flow].Valid()
    ensures var flows', src := AfterData(n, t).flows, n.flows[t.flow].src;
            && (forall s: nat | s != src && LeftOf(n.flows, c, s) :: LeftOf(flows', c, s))
            && (SomeLongLeft(flows', c) ==> SomeLongLeft(n.flows, c))
            && (HasLong(flows', c, src, now) ==> LeftOf(flows', c, src))
  {
    var flows', src := AfterData(n, t).flows, n.flows[t.flow].src;
    forall s: nat | s != src && LeftOf(n.flows, c, s)
      ensures LeftOf(flows', c, s)
    {
      var f :| f in n.flows && n.flows[f].size > c.tokenInitial && n.flows[f].src == s && !n.flows[f].finished;
      assert flows'[f] == n.flows[f];
    }
    if SomeLongLeft(flows', c) {
      var f :| f in flows' && flows'[f].size > c.tokenInitial && !flows'[f].finished;
      assert f in n.flows && !n.flows[f].finished;
    }
    HasLongLeaves(flows', c, src, now);
  }

  lemma HasLongLeaves(flows: map<nat, T.Flow>, c: Setup, src: nat, now: int)
    ensures HasLong(flows, c, src, now) ==> LeftOf(flows, c, src)
  {
    if HasLong(flows, c, src, now) {
      var f :| LongReady(flows, c, f, src, now);
      assert f in flows && !flows[f].finished;
    }
  }

  lemma RoundLeaves(n: Node, c: Setup, hosts: nat, r: Round, now: int)
    requires (forall f | f in n.flows :: FlowFits(n.flows[f], c, hosts)) && Turns(n.flows, r.flows, r.to, c.flow, now)
    ensures SameLeft(n.flows, r.flows, c)
  {
    forall f | f in n.flows
      ensures (r.flows[f].src, r.flows[f].size, r.flows[f].finished) == (n.flows[f].src, n.flows[f].size, n.flows[f].finished)
    {
      assert FlowFits(n.flows[f], c, hosts) && AfterVisit(n.flows[f], r.flows[f], c.flow, now, r.to == Some(f));
      if HadTurn(n.flows[f], r.flows[f], c.flow, now) {
        TurnWaits(n.flows[f], c.flow, now);
      }
    }
    SameFinishedLeaves(n.flows, r.flows, c);
  }

  ghost predicate Forgot(w: World, e: Event, c: Setup, host: nat, forgot: bool)
    requires Possible(w, e, c)
  {
    ForgetsAt(w, e, c, host) || (forgot && !AsksAt(w, e, c, host))
  }

  /** The host an event is about, when it is asking as it should. */
  ghost predicate AsksRightly(w: World, e: Event, c: Setup, forgot: bool) {
    && Ok(w, c) && Possible(w, e, c) && At(w, e) < |w.nodes|
    && AskingOk(w.sys.hosts[At(w, e)], w.nodes[At(w, e)].flows, c, forgot)
  }

  ghost predicate StillAsks(w: World, e: Event, c: Setup, forgot: bool)
    requires AsksRightly(w, e, c, forgot)
  {
    && At(w, e) < |After(w, e, c).sys.hosts|
    && AskingOk(After(w, e, c).sys.hosts[At(w, e)], NodeAfter(w, e, c).flows, c, Forgot(w, e, c, At(w, e), forgot))
  }

  lemma HostInOrder(w: World, e: Event, c: Setup)
    requires Ok(w, c) && Possible(w, e, c) && At(w, e) < |w.nodes|
    ensures ReceiverOk(w.sys.hosts[At(w, e)]) && NodeOk(w.nodes[At(w, e)], w.sys.hosts[At(w, e)], c, |w.nodes|)
  {
  }

  lemma OfferedStillAsks(w: World, e: Event, c: Setup, forgot: bool)
    requires AsksRightly(w, e, c, forgot) && e.Offered?
    ensures StillAsks(w, e, c, forgot)
  {
    var src, flows := w.sys.net[e.id].grant.src, w.nodes[At(w, e)].flows;
    HostInOrder(w, e, c);
    HostStep(w, e, c, At(w, e));
    HasLongLeaves(flows, c, src, e.now);
    OfferKeepsAsking(w.sys.hosts[At(w, e)], Gosrc(src, c.lease.maxTokens, HasLong(flows, c, src, e.now), e.srcs), flows, c, forgot);
  }

  lemma AnnouncedStillAsks(w: World, e: Event, c: Setup, forgot: bool)
    requires AsksRightly(w, e, c, forgot) && e.Announced?
    ensures StillAsks(w, e, c, forgot)
  {
    var h, n := w.sys.hosts[e.host], w.nodes[e.host];
    var flows' := NodeAfter(w, e, c).flows;
    HostInOrder(w, e, c);
    HostStep(w, e, c, e.host);
    RequestLeaves(n, c, e.f, e.src, e.size, e.now, e.firstTimeout);
    if e.size > c.tokenInitial {
      RequestKeepsAsking(h, Rts(e.src, e.isTop, e.srcs), n.flows, flows', c, forgot);
    } else {
      WantedKeepsAsking(h, n.flows, flows', c, forgot);
    }
  }

  lemma RetriedStillAsks(w: World, e: Event, c: Setup, forgot: bool)
    requires AsksRightly(w, e, c, forgot) && e.Retried?
    ensures StillAsks(w, e, c, forgot)
  {
    HostInOrder(w, e, c);
    HostStep(w, e, c, e.host);
    RetryKeepsAsking(w.sys.hosts[e.host], ActionOf(w, e, c).value.input, w.nodes[e.host].flows, c, forgot);
  }

  lemma FiredStillAsks(w: World, e: Event, c: Setup, forgot: bool)
    requires AsksRightly(w, e, c, forgot) && e.Fired?
    ensures StillAsks(w, e, c, forgot)
  {
    HostInOrder(w, e, c);
    HostStep(w, e, c, e.host);
    RoundLeaves(w.nodes[e.host], c, |w.nodes|, e.round, e.now);
    FiredKeepsAsking(w.sys.hosts[e.host], ActionOf(w, e, c).value.input, w.nodes[e.host].flows, e.round.flows, c, forgot);
  }

  lemma FinishStillAsks(w: World, e: Event, c: Setup, forgot: bool)
    requires AsksRightly(w, e, c, forgot) && e.Arrived?
    requires var i := DataInput(w.nodes[e.host], c, e.t, e.again, e.srcs, e.now); i.Some? && i.value.Finish?
    ensures StillAsks(w, e, c, forgot)
  {
    var h, n := w.sys.hosts[e.host], w.nodes[e.host];
    HostInOrder(w, e, c);
    HostStep(w, e, c, e.host);
    DataLeaves(n, c, e.t, e.now);
    FinishForgets(w, e, c);
    FinishKeepsAsking(h, ActionOf(w, e, c).value.input, n.flows, AfterData(n, e.t).flows, c, forgot);
  }

  lemma FinishForgets(w: World, e: Event, c: Setup)
    requires Possible(w, e, c) && e.Arrived?
    requires var i := DataInput(w.nodes[e.host], c, e.t, e.again, e.srcs, e.now); i.Some? && i.value.Finish?
    ensures ForgetsAt(w, e, c, e.host) <==> Owes(w.sys.hosts[e.host]).Some? && e.t.round == w.sys.hosts[e.host].grant.round
  {
  }

  lemma DataStillAsks(w: World, e: Event, c: Setup, forgot: bool)
    requires AsksRightly(w, e, c, forgot) && e.Arrived?
    requires var i := DataInput(w.nodes[e.host], c, e.t, e.again, e.srcs, e.now); !(i.Some? && i.value.Finish?)
    ensures StillAsks(w, e, c, forgot)
  {
    var h, n := w.sys.hosts[e.host], w.nodes[e.host];
    HostStep(w, e, c, e.host);
    ArrivalLeaves(n, c, e.t, e.again, e.srcs, e.now);
    WantedKeepsAsking(h, n.flows, AfterData(n, e.t).flows, c, forgot);
  }

  lemma ArrivedStillAsks(w: World, e: Event, c: Setup, forgot: bool)
    requires AsksRightly(w, e, c, forgot) && e.Arrived?
    ensures StillAsks(w, e, c, forgot)
  {
    var i := DataInput(w.nodes[e.host], c, e.t, e.again, e.srcs, e.now);
    if i.Some? && i.value.Finish? {
      FinishStillAsks(w, e, c, forgot);
    } else {
      DataStillAsks(w, e, c, forgot);
    }
  }

  /** Data that completes no long flow leaves what there is to ask for. */
  lemma ArrivalLeaves(n: Node, c: Setup, t: Token, again: bool, srcs: seq<nat>, now: int)
    requires t.flow in n.flows && n.flows[t.flow].Valid()
    requires var i := DataInput(n, c, t, again, srcs, now); !(i.Some? && i.value.Finish?)
    ensures SameLeft(n.flows, AfterData(n, t).flows, c)
  {
    SameFinishedLeaves(n.flows, AfterData(n, t).flows, c);
  }

  lemma StepKeepsAsking(w: World, e: Event, c: Setup, host: nat, forgot: bool)
    requires Ok(w, c) && Possible(w, e, c) && host < |w.nodes|
    requires AskingOk(w.sys.hosts[host], w.nodes[host].flows, c, forgot)
    ensures host < |After(w, e, c).sys.hosts| && host < |After(w, e, c).nodes|
    ensures AskingOk(After(w, e, c).sys.hosts[host], After(w, e, c).nodes[host].flows, c, Forgot(w, e, c, host, forgot))
  {
    HostStep(w, e, c, host);
    if !e.Moved? && At(w, e) == host {
      AboutHost(w, e, c, forgot);
    } else {
      ElsewhereNothing(w, e, c, host);
    }
  }

  lemma AboutHost(w: World, e: Event, c: Setup, forgot: bool)
    requires AsksRightly(w, e, c, forgot) && !e.Moved?
    ensures StillAsks(w, e, c, forgot)
  {
    match e
    case Offered(_, _, _, _) => OfferedStillAsks(w, e, c, forgot);
    case Announced(_, _, _, _, _, _, _, _, _) => AnnouncedStillAsks(w, e, c, forgot);
    case Arrived(_, _, _, _, _, _) => ArrivedStillAsks(w, e, c, forgot);
    case Retried(_, _, _, _, _) => RetriedStillAsks(w, e, c, forgot);
    case Fired(_, _, _, _, _, _) => FiredStillAsks(w, e, c, forgot);
  }

  lemma ElsewhereNothing(w: World, e: Event, c: Setup, host: nat)
    requires Ok(w, c) && Possible(w, e, c) && host < |w.nodes| && (e.Moved? || At(w, e) != host)
    ensures host < |After(w, e, c).sys.hosts| && host < |After(w, e, c).nodes|
    ensures After(w, e, c).sys.hosts[host] == w.sys.hosts[host] && After(w, e, c).nodes[host] == w.nodes[host]
    ensures !ForgetsAt(w, e, c, host) && !AsksAt(w, e, c, host)
  {
    HostStep(w, e, c, host);
    NotForgotten(w, e, c, host);
  }

  lemma NotForgotten(w: World, e: Event, c: Setup, host: nat)
    requires Possible(w, e, c) && (e.Moved? || At(w, e) != host)
    ensures !ForgetsAt(w, e, c, host) && !AsksAt(w, e, c, host)
  {
  }

  /** Event `j` makes the receiver forget its grant. */
  ghost predicate ForgetsBy(ws: seq<World>, es: seq<Event>, c: Setup, host: nat, j: nat) {
    j < |es| <= |ws| && Possible(ws[j], es[j], c) && ForgetsAt(ws[j], es[j], c, host)
  }

  /** A grant was forgotten, and since then no long flow announced and no grant offered. */
  ghost predicate ForgotSince(ws: seq<World>, es: seq<Event>, c: Setup, host: nat, i: nat)
    requires i <= |es| <= |ws|
  {
    i > 0 && (ForgetsBy(ws, es, c, host, i - 1) || (ForgotSince(ws, es, c, host, i - 1) && !AsksAt(ws[i - 1], es[i - 1], c, host)))
  }

  /** Something has happened last at some `j`, and nothing that undoes it since. */
  ghost predicate Since(does: nat -> bool, undoes: nat -> bool, i: nat) {
    exists j: nat | j < i :: does(j) && forall k: nat | j < k < i :: !undoes(k)
  }

  lemma SinceOneMore(does: nat -> bool, undoes: nat -> bool, i: nat)
    ensures Since(does, undoes, i + 1) <==> does(i) || (Since(does, undoes, i) && !undoes(i))
  {
    if Since(does, undoes, i + 1) {
      var j: nat :| j < i + 1 && does(j) && forall k: nat | j < k < i + 1 :: !undoes(k);
      assert j == i || !undoes(i);
    }
  }

  lemma {:induction false} ForgotMeans(ws: seq<World>, es: seq<Event>, c: Setup, host: nat, i: nat, does: nat -> bool, undoes: nat -> bool)
    requires i <= |es| <= |ws|
    requires forall j: nat | j < |es| :: does(j) == ForgetsBy(ws, es, c, host, j) && undoes(j) == AsksAt(ws[j], es[j], c, host)
    ensures ForgotSince(ws, es, c, host, i) <==> Since(does, undoes, i)
  {
    if i > 0 {
      ForgotMeans(ws, es, c, host, i - 1, does, undoes);
      SinceOneMore(does, undoes, i - 1);
      assert does(i - 1) == ForgetsBy(ws, es, c, host, i - 1);
    }
  }

  ghost predicate AskingAt(w: World, c: Setup, host: nat, forgot: bool) {
    host < |w.sys.hosts| && host < |w.nodes| && AskingOk(w.sys.hosts[host], w.nodes[host].flows, c, forgot)
  }

  lemma StepKeepsAskingAt(w: World, e: Event, w': World, c: Setup, host: nat, forgot: bool)
    requires Ok(w, c) && Next(w, e, w', c) && AskingAt(w, c, host, forgot)
    ensures AskingAt(w', c, host, ForgetsAt(w, e, c, host) || (forgot && !AsksAt(w, e, c, host)))
  {
    StepKeepsAsking(w, e, c, host, forgot);
  }

  lemma StepKeepsHost(w: World, e: Event, w': World, c: Setup, host: nat)
    requires Ok(w, c) && Next(w, e, w', c) && host < |w'.nodes|
    ensures host < |w.nodes|
  {
    HostStep(w, e, c, 0);
  }

  lemma {:induction false} RunKeepsAsking(ws: seq<World>, es: seq<Event>, c: Setup, host: nat, i: nat)
    requires Run(ws, es, c) && i <= |es| && host < |ws[i].nodes|
    ensures AskingAt(ws[i], c, host, ForgotSince(ws, es, c, host, i))
  {
    RunKeeps(ws, es, c, i);
    if i > 0 {
      assert Next(ws[i - 1], es[i - 1], ws[i], c);
      RunKeeps(ws, es, c, i - 1);
      StepKeepsHost(ws[i - 1], es[i - 1], ws[i], c, host);
      RunKeepsAsking(ws, es, c, host, i - 1);
      StepKeepsAskingAt(ws[i - 1], es[i - 1], ws[i], c, host, ForgotSince(ws, es, c, host, i - 1));
      assert ForgetsBy(ws, es, c, host, i - 1) <==> ForgetsAt(ws[i - 1], es[i - 1], c, host);
    }
  }

  /**
   A receiver with an unfinished long flow has neither a grant nor a retry exactly when it has forgotten
   a grant and since then no long flow was announced to it and no grant offered.
   */
  lemma UnaskedExactlyWhen(ws: seq<World>, es: seq<Event>, c: Setup, host: nat, i: nat)
    requires Run(ws, es, c) && i <= |es| && host < |ws[i].nodes| && SomeLongLeft(ws[i].nodes[host].flows, c)
    ensures host < |ws[i].sys.hosts|
    ensures var h := ws[i].sys.hosts[host];
            h.grant.src.None? && h.liveWakeups == {} <==> ForgotSince(ws, es, c, host, i)
  {
    RunKeeps(ws, es, c, i);
    RunKeepsAsking(ws, es, c, host, i);
    assert ReceiverOk(ws[i].sys.hosts[host]);
  }

  /** It is stuck altogether exactly when besides no token event is set, as after serving no short flow. */
  lemma StuckExactlyWhen(ws: seq<World>, es: seq<Event>, c: Setup, host: nat, i: nat)
    requires Run(ws, es, c) && i <= |es| && host < |ws[i].nodes| && SomeLongLeft(ws[i].nodes[host].flows, c)
    ensures host < |ws[i].sys.hosts|
    ensures var h := ws[i].sys.hosts[host];
            h.grant.src.None? && h.liveWakeups == {} && h.liveTokens == {}
            <==> ForgotSince(ws, es, c, host, i) && h.token.None?
  {
    RunKeeps(ws, es, c, i);
    UnaskedExactlyWhen(ws, es, c, host, i);
    assert ReceiverOk(ws[i].sys.hosts[host]);
  }

  /** After a retry another one is set exactly while a long flow is left. */
  lemma RetryLivesExactlyWhen(w: World, e: Event, c: Setup)
    requires Ok(w, c) && Possible(w, e, c) && e.Retried?
    ensures e.host < |After(w, e, c).sys.hosts|
    ensures After(w, e, c).sys.hosts[e.host].liveWakeups != {} <==> SomeLongLeft(w.nodes[e.host].flows, c)
  {
    HostInOrder(w, e, c);
    HostStep(w, e, c, e.host);
    RetriesExactlyWhen(w.sys.hosts[e.host], ActionOf(w, e, c).value.input, c.lease.nrtsGap);
  }
}
