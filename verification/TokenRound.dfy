/**
 One round of the Ranking token loop, seen as what it does to the flows: who had a turn, who got the
 one token, and how long those that got none have to wait.
 */
module TokenRound {
  import opened FlowQueue
  import opened Options
  import opened RankingReceiver
  import opened Timers
  import opened TokenFlow

  // ---- When a flow has to wait ----

  predicate Waits(f: Flow, p: Params, now: int) {
    f.redundancy > now || (f.TokenGap() > p.window && f.latestSent + p.windowTimeout > now)
  }

  function ReadyAt(f: Flow, p: Params, now: int): int {
    if f.redundancy > now then f.redundancy else f.latestSent + p.windowTimeout
  }

  /** A visit sends exactly when the flow need not wait; a flow that waits is ready strictly later. */
  lemma TurnWaits(f: Flow, p: Params, now: int)
    requires f.Valid() && f.Incomplete()
    ensures var (g, v) := Turn(f, p, now);
            && g.Valid() && g.Incomplete() && g.src == f.src && g.size == f.size && g.finished == f.finished
            && (v.Sent? <==> !Waits(f, p, now))
            && (v.Blocked? ==> Waits(g, p, now) && v.until == ReadyAt(g, p, now) == ReadyAt(f, p, now) > now)
  {
    var before := Opened(Rearmed(f), p, now);
    assert SamePackets(f, before) && before.Valid() && before.Incomplete();
  }

  predicate Among(f: nat, fs: seq<nat>, taken: Option<nat>) {
    f in fs || taken == Some(f)
  }

  /** These flows have had their turn and wait; `closest` is when the first of them is ready. */
  ghost predicate Waiting(flows: map<nat, Flow>, fs: seq<nat>, taken: Option<nat>, p: Params, now: int, closest: int) {
    && (forall f | Among(f, fs, taken) :: f in flows && Waits(flows[f], p, now) && closest <= ReadyAt(flows[f], p, now))
    && (closest < HORIZON ==> exists f :: Among(f, fs, taken) && ReadyAt(flows[f], p, now) == closest)
  }

  /** A flow that has to wait joins those that had their turn; the others wait as before. */
  lemma WaitsToo(flows: map<nat, Flow>, f: nat, g: Flow, fs: seq<nat>, taken: Option<nat>, p: Params, now: int, closest: int, closest': int)
    requires Waiting(flows, fs, taken, p, now, closest)
    requires f in flows && Waits(g, p, now) && ReadyAt(g, p, now) == ReadyAt(flows[f], p, now)
    requires closest' == if closest <= ReadyAt(g, p, now) then closest else ReadyAt(g, p, now)
    ensures Waiting(flows[f := g], fs + [f], taken, p, now, closest')
    ensures taken.None? ==> Waiting(flows[f := g], fs, Some(f), p, now, closest')
  {
    assert Among(f, fs + [f], taken) && Among(f, fs, Some(f));
    assert forall h :: Among(h, fs + [f], taken) <==> Among(h, fs, taken) || h == f;
    assert taken.None? ==> forall h :: Among(h, fs, Some(f)) <==> Among(h, fs, taken) || h == f;
  }

  lemma WakesLater(flows: map<nat, Flow>, fs: seq<nat>, taken: Option<nat>, p: Params, now: int, closest: int)
    requires Waiting(flows, fs, taken, p, now, closest) && closest < HORIZON
    ensures now < closest
  {
  }

  // ---- Who had a turn ----

  /** `g` is what the turn of `f` leaves. */
  ghost predicate HadTurn(f: Flow, g: Flow, p: Params, now: int) {
    f.Valid() && f.Incomplete() && g == Turn(f, p, now).0
  }

  /** The flow that got the token had its turn; any other flow had a turn in vain, or none. */
  ghost predicate AfterVisit(f: Flow, g: Flow, p: Params, now: int, sent: bool) {
    if sent then HadTurn(f, g, p, now) && Turn(f, p, now).1.Sent?
    else g == f || (HadTurn(f, g, p, now) && Turn(f, p, now).1.Blocked?)
  }

  /** Turns were taken, and `to` is the flow that got a token, if any. */
  ghost predicate Turns(flows: map<nat, Flow>, flows': map<nat, Flow>, to: Option<nat>, p: Params, now: int) {
    && flows'.Keys == flows.Keys && (to.Some? ==> to.value in flows)
    && forall f | f in flows :: AfterVisit(flows[f], flows'[f], p, now, to == Some(f))
  }

  /** A second turn in vain changes nothing. */
  lemma TurnAgain(f: Flow, p: Params, now: int)
    requires f.Valid() && f.Incomplete() && Turn(f, p, now).1.Blocked?
    ensures var (g, v) := Turn(f, p, now); g.Valid() && g.Incomplete() && Turn(g, p, now) == (g, v)
  {
  }

  lemma OneMoreTurn(flows0: map<nat, Flow>, flows: map<nat, Flow>, f: nat, g: Flow, sent: bool, p: Params, now: int)
    requires Turns(flows0, flows, None, p, now) && f in flows
    requires HadTurn(flows[f], g, p, now) && sent == Turn(flows[f], p, now).1.Sent?
    ensures Turns(flows0, flows[f := g], if sent then Some(f) else None, p, now)
    ensures HadTurn(flows0[f], g, p, now)
  {
    if flows[f] != flows0[f] {
      TurnAgain(flows0[f], p, now);
    }
  }

  /** Data never overtakes tokens. */
  ghost predicate GapsOk(flows: map<nat, Flow>) {
    forall f | f in flows :: flows[f].largestSeq < flows[f].tokenCount
  }

  lemma TurnCounts(f: Flow, p: Params, now: int)
    requires f.Valid() && f.Incomplete()
    ensures var (g, v) := Turn(f, p, now);
            && g.tokenCount == f.tokenCount + (if v.Sent? then 1 else 0)
            && (1 <= p.window && f.largestSeq < f.tokenCount ==> g.largestSeq < g.tokenCount)
            && (f.largestSeq <= f.tokenCount ==> g.largestSeq <= g.tokenCount)
  {
  }

  lemma TurnsIssueOne(flows: map<nat, Flow>, flows': map<nat, Flow>, to: Option<nat>, p: Params, now: int)
    requires Turns(flows, flows', to, p, now)
    ensures OneToken(flows, flows', to)
    ensures 1 <= p.window && GapsOk(flows) ==> GapsOk(flows')
  {
    forall f | f in flows
      ensures flows'[f].tokenCount == flows[f].tokenCount + if to == Some(f) then 1 else 0
      ensures 1 <= p.window && flows[f].largestSeq < flows[f].tokenCount ==> flows'[f].largestSeq < flows'[f].tokenCount
    {
      if flows'[f] != flows[f] || to == Some(f) {
        TurnCounts(flows[f], p, now);
      }
    }
  }

  // ---- A whole round ----

  /** What a round leaves: the flows, the short ones still queued, the flow the grant is used for. */
  datatype Round = Round(flows: map<nat, Flow>, shorts: seq<nat>, large: Option<nat>, to: Option<nat>,
                         turn: Option<LongTurn>, closest: int)

  /** What the grant has to know of its flow's turn. */
  function TurnOf(f: Flow, sent: bool, now: int): LongTurn {
    LongTurn(sent, f.redundancy > now, f.Work())
  }

  /** The large flow had its turn, and `turn` reports it. */
  ghost predicate Reported(flows: map<nat, Flow>, r: Round, p: Params, now: int) {
    r.turn.Some? ==>
      && r.large.Some? && r.large.value in flows && r.large.value in r.flows
      && HadTurn(flows[r.large.value], r.flows[r.large.value], p, now)
      && r.turn.value == TurnOf(r.flows[r.large.value], r.to == r.large, now)
  }

  /** `hold` says the round is skipped.  A long flow's token is always reported to the grant. */
  ghost predicate RoundOk(flows: map<nat, Flow>, hold: bool, r: Round, tokenInitial: nat, p: Params, now: int) {
    && Turns(flows, r.flows, r.to, p, now)
    && Reported(flows, r, p, now)
    && (hold ==> r.flows == flows && r.to.None? && r.turn.None?)
    && (r.large.Some? ==> r.large.value in flows && flows[r.large.value].size > tokenInitial)
    && (r.to.Some? && flows[r.to.value].size > tokenInitial ==> r.to == r.large && r.turn.Some?)
    && (!hold && r.to.None? ==>
          (r.large.Some? <==> r.turn.Some?) && Waiting(r.flows, r.shorts, r.large, p, now, r.closest))
  }

  /** The round so far, as the host has it. */
  ghost predicate SoFar(flows0: map<nat, Flow>, r: Round, flows: map<nat, Flow>, tried: seq<nat>, closest: int,
                        tokenInitial: nat, p: Params, now: int) {
    && RoundOk(flows0, false, r, tokenInitial, p, now)
    && r.flows == flows && r.shorts == tried && r.closest == closest && (r.large.Some? <==> r.turn.Some?)
  }

  /** When the flow will be ready counts if it is the first. */
  function Sooner(v: Visit, closest: int): int {
    if v.Blocked? && v.until < closest then v.until else closest
  }

  lemma ShortJoins(flows0: map<nat, Flow>, r: Round, f: nat, g: Flow, v: Visit, tokenInitial: nat, p: Params, now: int)
      returns (r': Round)
    requires RoundOk(flows0, false, r, tokenInitial, p, now) && r.to.None?
    requires f in r.flows && HadTurn(r.flows[f], g, p, now) && v == Turn(r.flows[f], p, now).1
    requires flows0[f].size <= tokenInitial
    ensures r' == r.(flows := r.flows[f := g], shorts := r.shorts + [f],
                     to := if v.Sent? then Some(f) else None, closest := Sooner(v, r.closest))
    ensures RoundOk(flows0, false, r', tokenInitial, p, now)
  {
    r' := r.(flows := r.flows[f := g], shorts := r.shorts + [f], to := if v.Sent? then Some(f) else None, closest := Sooner(v, r.closest));
    OneMoreTurn(flows0, r.flows, f, g, v.Sent?, p, now);
    if v.Blocked? {
      TurnWaits(r.flows[f], p, now);
      WaitsToo(r.flows, f, g, r.shorts, r.large, p, now, r.closest, r'.closest);
    }
  }

  lemma LargeJoins(flows0: map<nat, Flow>, r: Round, f: nat, g: Flow, v: Visit, tokenInitial: nat, p: Params, now: int)
      returns (r': Round)
    requires RoundOk(flows0, false, r, tokenInitial, p, now) && r.to.None? && r.large.None? && r.turn.None?
    requires f in r.flows && HadTurn(r.flows[f], g, p, now) && v == Turn(r.flows[f], p, now).1
    requires flows0[f].size > tokenInitial
    ensures r' == r.(flows := r.flows[f := g], large := Some(f), turn := Some(TurnOf(g, v.Sent?, now)),
                     to := if v.Sent? then Some(f) else None, closest := Sooner(v, r.closest))
    ensures RoundOk(flows0, false, r', tokenInitial, p, now)
  {
    r' := r.(flows := r.flows[f := g], large := Some(f), turn := Some(TurnOf(g, v.Sent?, now)),
             to := if v.Sent? then Some(f) else None, closest := Sooner(v, r.closest));
    OneMoreTurn(flows0, r.flows, f, g, v.Sent?, p, now);
    if v.Blocked? {
      TurnWaits(r.flows[f], p, now);
      WaitsToo(r.flows, f, g, r.shorts, None, p, now, r.closest, r'.closest);
    }
  }

  lemma RoundStarts(flows: map<nat, Flow>, hold: bool, shorts: seq<nat>, large: Option<nat>, tokenInitial: nat, p: Params, now: int)
    requires large.Some? ==> large.value in flows && flows[large.value].size > tokenInitial
    requires hold || (shorts == [] && large.None?)
    ensures RoundOk(flows, hold, Round(flows, shorts, large, None, None, HORIZON), tokenInitial, p, now)
  {
  }

  /** A round that ends with a token leaves some flows without a turn. */
  lemma RoundEnds(flows: map<nat, Flow>, r: Round, shorts: seq<nat>, large: Option<nat>, tokenInitial: nat, p: Params, now: int)
    requires RoundOk(flows, false, r, tokenInitial, p, now) && (r.large.Some? ==> r.turn.Some? && large == r.large)
    requires r.to.None? ==> shorts == r.shorts && large == r.large
    requires large.Some? ==> large.value in flows && flows[large.value].size > tokenInitial
    ensures RoundOk(flows, false, r.(shorts := shorts, large := large), tokenInitial, p, now)
  {
  }
}
