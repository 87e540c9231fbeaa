/**
 What one round over the active flows of a Capability host keeps: which flows have been tried, which
 may be dropped, and how long those that had to wait will wait.
 */
module CapabilityRound {
  import opened Options
  import opened PriorityQueue
  import opened FlowQueue
  import opened Timers
  import opened TokenFlow
  import opened CapabilityFlow

  type Flows = map<nat, Flow>

  datatype Issued = Issued(flow: nat, dataSeq: nat, capabilitySeq: int)

  // ---- Drawing without replacement ----

  /** The last element takes the place of the one drawn. */
  function SwapRemove<T>(v: seq<T>, i: nat): seq<T>
    requires i < |v|
  {
    if |v| == 1 then [] else v[i := v[|v| - 1]][..|v| - 1]
  }

  lemma SwapRemoveTakesOne<T>(v: seq<T>, i: nat)
    requires i < |v|
    ensures multiset(v) == multiset(SwapRemove(v, i)) + multiset{v[i]}
    ensures |SwapRemove(v, i)| == |v| - 1
  {
    var n := |v| - 1;
    var w := v[i := v[n]];
    assert v == v[..n] + [v[n]];
    assert multiset(v[..n]) + multiset{v[n]} == multiset(v);
    if i < n {
      assert w[..n] == v[..n][i := v[n]];
      assert multiset(v[..n][i := v[n]]) == multiset(v[..n]) - multiset{v[i]} + multiset{v[n]};
      assert v[..n][i] in multiset(v[..n]);
    } else {
      assert w[..n] == v[..n];
    }
    if n == 0 {
      assert v == [v[0]];
    }
  }

  // ---- What a round keeps ----

  ghost predicate FlowsOk(flows: Flows) {
    forall f | f in flows :: FlowOk(flows[f])
  }

  /** Queued flows are known and queued once; announced unfinished ones are queued. */
  ghost predicate QueueOk(flows: Flows, requested: set<nat>, active: seq<nat>) {
    && (forall f :: multiset(active)[f] <= 1)
    && (forall f {:trigger f in active} ::
          if f in active then f in flows && f in requested else f in requested && f in flows ==> flows[f].finished)
  }

  lemma RequestQueued(flows: Flows, requested: set<nat>, active: seq<nat>, f: nat, g: Flow)
    requires FlowsOk(flows) && QueueOk(flows, requested, active) && f in flows && f !in requested
    requires FlowOk(g)
    ensures FlowsOk(flows[f := g]) && QueueOk(flows[f := g], requested + {f}, active + [f])
  {
    assert multiset(active + [f]) == multiset(active) + multiset{f};
    assert f !in active && f !in multiset(active);
  }

  /** A flow that has to wait waits for a moment still to come, and asking again changes nothing. */
  lemma WaitingIsStable(f: Flow, p: Params, now: int)
    requires f.Valid() && f.Incomplete()
    ensures var (g, v) := CapabilityTurn(f, p, now);
            && g.Valid() && g.Incomplete() && g.finished == f.finished && (g.src, g.size) == (f.src, f.size)
            && (v.Blocked? ==> MustWait(g, p, now) && v.until == ReadyMoment(g, p, now) > now && CapabilityTurn(g, p, now) == (g, v))
            && g.tokenCount == f.tokenCount + if v.Sent? then 1 else 0
  {
    VisitSendsExactlyWhen(f, p, now);
  }

  /** `f` is waiting, and will be ready no earlier than `closest`. */
  ghost predicate WaitsUntil(flows: Flows, f: nat, p: Params, now: int, closest: int) {
    f in flows && MustWait(flows[f], p, now) && closest <= ReadyMoment(flows[f], p, now)
  }

  /** Those tried wait; `closest` is when the first of them is ready. */
  ghost predicate AllWait(flows: Flows, tried: seq<nat>, p: Params, now: int, closest: int) {
    && (forall f | f in tried :: WaitsUntil(flows, f, p, now, closest))
    && (closest < HORIZON ==> exists f :: f in tried && ReadyAt(flows, f, p, now, closest))
  }

  ghost predicate ReadyAt(flows: Flows, f: nat, p: Params, now: int, until: int) {
    f in flows && MustWait(flows[f], p, now) && ReadyMoment(flows[f], p, now) == until
  }

  lemma OneMoreWaits(flows: Flows, tried: seq<nat>, p: Params, now: int, closest: int, f: nat, g: Flow, closest': int)
    requires AllWait(flows, tried, p, now, closest) && f !in tried && closest' <= closest
    requires WaitsUntil(flows[f := g], f, p, now, closest')
    requires closest' == closest || ReadyAt(flows[f := g], f, p, now, closest')
    ensures AllWait(flows[f := g], tried + [f], p, now, closest')
  {
    forall x | x in tried + [f]
      ensures WaitsUntil(flows[f := g], x, p, now, closest')
    {
      assert x == f || WaitsUntil(flows, x, p, now, closest);
    }
    if closest' < HORIZON {
      var x := f;
      if closest' == closest {
        x :| x in tried && ReadyAt(flows, x, p, now, closest);
      }
      assert x in tried + [f] && ReadyAt(flows[f := g], x, p, now, closest');
    }
  }

  // ---- Who had a turn ----

  ghost predicate HadTurn(f: Flow, g: Flow, p: Params, now: int, sent: bool) {
    f.Valid() && f.Incomplete() && g == CapabilityTurn(f, p, now).0 && CapabilityTurn(f, p, now).1.Sent? == sent
  }

  /** The flow that got a capability had its turn; any other had a turn in vain, or none. */
  ghost predicate Turns(flows0: Flows, flows: Flows, to: Option<nat>, p: Params, now: int) {
    && flows.Keys == flows0.Keys && (to.Some? ==> to.value in flows0)
    && forall f | f in flows0 :: HadTurn(flows0[f], flows[f], p, now, to == Some(f)) || (to != Some(f) && flows[f] == flows0[f])
  }

  lemma OneMoreTurn(flows0: Flows, flows: Flows, f: nat, g: Flow, sent: bool, p: Params, now: int)
    requires Turns(flows0, flows, None, p, now) && f in flows0 && HadTurn(flows0[f], g, p, now, sent)
    ensures Turns(flows0, flows[f := g], if sent then Some(f) else None, p, now)
  {
  }

  /** At most one flow is counted a capability. */
  lemma TurnsIssueOne(flows0: Flows, flows: Flows, to: Option<nat>, p: Params, now: int)
    requires Turns(flows0, flows, to, p, now)
    ensures OneToken(flows0, flows, to)
  {
    forall f | f in flows0
      ensures flows[f].tokenCount == flows0[f].tokenCount + if to == Some(f) then 1 else 0
    {
      if HadTurn(flows0[f], flows[f], p, now, to == Some(f)) {
        WaitingIsStable(flows0[f], p, now);
      }
    }
  }

  function FlowOf(issued: Option<Issued>): Option<nat> {
    if issued.Some? then Some(issued.value.flow) else None
  }

  /** Either some flow got a capability, or all those tried wait until `closest` or later. */
  ghost predicate Outcome(flows0: Flows, flows: Flows, tried: seq<nat>, issued: Option<Issued>, closest: int, p: Params, now: int) {
    && (closest < HORIZON ==> now < closest) && Turns(flows0, flows, FlowOf(issued), p, now)
    && if issued.Some? then IssuedTo(flows0, flows, issued.value, p, now) else AllWait(flows, tried, p, now, closest)
  }

  /** The flow a random host will serve next is still there to be taken out. */
  ghost predicate Remembered(random: bool, recvFlow: Option<nat>, active: seq<nat>, tried: seq<nat>, issued: Option<Issued>) {
    random && recvFlow.Some? ==> if issued.Some? then recvFlow.value in tried else recvFlow.value in active
  }

  lemma QueueWaits(flows: Flows, active: seq<nat>, tried: seq<nat>, p: Params, now: int, closest: int)
    requires AllWait(flows, tried, p, now, closest) && active == []
    ensures AllWait(flows, active + tried, p, now, closest)
  {
    assert active + tried == tried;
  }

  /** The flow that got a capability, and the one it got, are as the bookkeeping says. */
  ghost predicate IssuedTo(flows0: Flows, flows: Flows, issued: Issued, p: Params, now: int) {
    && issued.flow in flows0 && issued.flow in flows && flows0[issued.flow].Valid() && flows0[issued.flow].Incomplete()
    && !flows0[issued.flow].finished
    && (flows[issued.flow], Sent(issued.dataSeq, issued.capabilitySeq)) == CapabilityTurn(flows0[issued.flow], p, now)
  }

  /** Only flows that were tried have changed, and none has become finished. */
  ghost predicate FlowsSince(flows0: Flows, flows: Flows, tried: seq<nat>) {
    && flows.Keys == flows0.Keys
    && forall f | f in flows ::
         FlowOk(flows[f]) && flows[f].finished == flows0[f].finished && (f !in tried ==> flows[f] == flows0[f])
  }

  /** The round has looked at `tried` and nothing else. */
  ghost predicate MidRound(flows0: Flows, flows: Flows, active0: seq<nat>, active: seq<nat>, tried: seq<nat>) {
    && FlowsSince(flows0, flows, tried)
    && DropsOnlyFinished(flows0, multiset(active0), multiset(active) + multiset(tried))
  }

  /** The queue a round starts from. */
  ghost predicate KnownOnce(flows0: Flows, active0: seq<nat>) {
    (forall f | f in active0 :: f in flows0) && (forall f :: multiset(active0)[f] <= 1)
  }

  lemma RoundStarts(flows: Flows, requested: set<nat>, active: seq<nat>)
    requires FlowsOk(flows) && QueueOk(flows, requested, active)
    ensures MidRound(flows, flows, active, active, []) && KnownOnce(flows, active)
  {
    assert multiset(active) + multiset([]) == multiset(active);
  }

  /** A popped flow is a new one, and may be dropped when it is finished. */
  lemma PoppedFlow(flows0: Flows, flows: Flows, active0: seq<nat>, active: seq<nat>, rest: seq<nat>, tried: seq<nat>, f: nat)
    requires MidRound(flows0, flows, active0, active, tried) && KnownOnce(flows0, active0)
    requires multiset(active) == multiset(rest) + multiset{f}
    ensures f in flows && f !in tried && flows[f] == flows0[f]
    ensures flows[f].finished ==> MidRound(flows0, flows, active0, rest, tried)
    ensures HalfRound(flows0, flows, active0, rest, tried, f)
  {
    assert multiset(tried + [f]) == multiset(tried) + multiset{f};
    assert f in multiset(active) && f in multiset(active0);
    assert f in active0;
    assert f in tried ==> f in multiset(tried);
  }

  /** `f` has been taken out of the queue and not yet had its turn. */
  ghost predicate HalfRound(flows0: Flows, flows: Flows, active0: seq<nat>, rest: seq<nat>, tried: seq<nat>, f: nat) {
    && FlowsSince(flows0, flows, tried) && f in flows
    && DropsOnlyFinished(flows0, multiset(active0), multiset(rest) + multiset(tried + [f]))
  }

  /** A popped flow that is not finished has its turn. */
  lemma TurnKeepsRound(flows0: Flows, flows: Flows, active0: seq<nat>, rest: seq<nat>, tried: seq<nat>, f: nat, g: Flow)
    requires HalfRound(flows0, flows, active0, rest, tried, f)
    requires FlowOk(g) && g.finished == flows[f].finished
    ensures MidRound(flows0, flows[f := g], active0, rest, tried + [f])
  {
  }

  lemma RoundEnds(flows0: Flows, flows: Flows, requested: set<nat>, active0: seq<nat>, active: seq<nat>, tried: seq<nat>)
    requires MidRound(flows0, flows, active0, active, tried) && QueueOk(flows0, requested, active0)
    ensures FlowsOk(flows) && QueueOk(flows, requested, active + tried)
    ensures DropsOnlyFinished(flows0, multiset(active0), multiset(active + tried))
  {
    assert multiset(active + tried) == multiset(active) + multiset(tried);
    forall f
      ensures f in active + tried ==> f in active0
      ensures f in active0 && f in flows0 && !flows0[f].finished ==> f in active + tried
    {
      assert f in active + tried <==> f in multiset(active + tried);
      assert f in active0 <==> f in multiset(active0);
    }
  }
}
