/**
 The Ranking receiver as an object: its handlers move the grant, the timers and the flows in place.
 Each handler is one input of the state machine in RankingReceiver.  In which order the flow queues
 yield their flows is left open, so every order is covered; `srcs` is the list a request would carry.
 */
module RankingHost {
  import opened Options
  import opened R = RankingReceiver
  import opened TokenFlow
  import opened PriorityQueue
  import opened FlowQueue
  import opened SourceList
  import opened Timers
  import opened TokenRound

  datatype HostParams = HostParams(tokenInitial: nat, nrtsGap: nat, flow: Params)

  function QueueOf(m: map<nat, seq<nat>>, src: nat): seq<nat> {
    if src in m then m[src] else []
  }

  /** A flow is taken for the grant exactly when the granted source has a ready one, and it is ready. */
  ghost predicate LargeChosen(grant: GoSrc, flows: map<nat, Flow>, queues: map<nat, seq<nat>>, large: Option<nat>, now: int) {
    && (large.Some? <==> grant.src.Some? && HasReady(flows, QueueOf(queues, grant.src.value), now))
    && (large.Some? ==> large.value in flows && Ready(flows[large.value], now) && grant.src == Some(flows[large.value].src))
  }

  lemma TakenOut(flows: map<nat, Flow>, queue: seq<nat>, q: seq<nat>, tried: seq<nat>, i: nat)
    requires DropsOnlyFinished(flows, multiset(queue), multiset(q) + multiset(tried)) && i < |q|
    ensures DropsOnlyFinished(flows, multiset(queue), multiset(RemoveAt(q, i)) + multiset(tried + [q[i]]))
    ensures q[i] in flows && flows[q[i]].finished ==>
              DropsOnlyFinished(flows, multiset(queue), multiset(RemoveAt(q, i)) + multiset(tried))
  {
    RemoveAtMultiset(q, i);
    assert multiset(tried + [q[i]]) == multiset(tried) + multiset{q[i]};
  }

  /** The queues in the middle of a round of turns that began with `flows0` and `active0`. */
  ghost predicate MidRound(flows0: map<nat, Flow>, active0: seq<nat>, flows: map<nat, Flow>,
                           active: seq<nat>, tried: seq<nat>, queues: map<nat, seq<nat>>, tokenInitial: nat) {
    && QueuesOk(flows, active + tried, queues, tokenInitial)
    && flows.Keys == flows0.Keys
    && (forall f | f in flows :: flows[f].finished == flows0[f].finished && flows[f].src == flows0[f].src)
    && DropsOnlyFinished(flows0, multiset(active0), multiset(active) + multiset(tried))
  }

  lemma MidRoundPop(flows0: map<nat, Flow>, active0: seq<nat>, flows: map<nat, Flow>,
                    active: seq<nat>, tried: seq<nat>, queues: map<nat, seq<nat>>, tokenInitial: nat, i: nat)
    requires MidRound(flows0, active0, flows, active, tried, queues, tokenInitial) && i < |active|
    ensures active[i] in flows
    ensures MidRound(flows0, active0, flows, RemoveAt(active, i), tried + [active[i]], queues, tokenInitial)
    ensures flows[active[i]].finished ==> MidRound(flows0, active0, flows, RemoveAt(active, i), tried, queues, tokenInitial)
  {
    assert active[i] in active + tried;
    TakenOut(flows0, active0, active, tried, i);
    forall f | f in RemoveAt(active, i) + (tried + [active[i]]) || f in RemoveAt(active, i) + tried
      ensures f in active + tried
    {
      RemoveAtMultiset(active, i);
      if f in RemoveAt(active, i) {
        assert f in multiset(RemoveAt(active, i));
        assert f in multiset(active);
        assert f in active;
      }
    }
  }

  lemma MidRoundEnds(flows0: map<nat, Flow>, active0: seq<nat>, flows: map<nat, Flow>,
                     active: seq<nat>, tried: seq<nat>, queues: map<nat, seq<nat>>, tokenInitial: nat)
    requires MidRound(flows0, active0, flows, active, tried, queues, tokenInitial)
    ensures QueuesOk(flows, active + tried, queues, tokenInitial)
    ensures DropsOnlyFinished(flows0, multiset(active0), multiset(active + tried))
    ensures active == [] ==> active + tried == tried
  {
    assert multiset(active + tried) == multiset(active) + multiset(tried);
  }

  lemma MidRoundStarts(flows: map<nat, Flow>, active: seq<nat>, queues: map<nat, seq<nat>>, tokenInitial: nat)
    requires QueuesOk(flows, active, queues, tokenInitial)
    ensures MidRound(flows, active, flows, active, [], queues, tokenInitial)
  {
    assert active + [] == active;
  }

  /** A turn changes neither which flows are finished nor whose they are. */
  lemma MidRoundTurn(flows0: map<nat, Flow>, active0: seq<nat>, flows: map<nat, Flow>,
                     active: seq<nat>, tried: seq<nat>, queues: map<nat, seq<nat>>, tokenInitial: nat, f: nat, g: Flow)
    requires MidRound(flows0, active0, flows, active, tried, queues, tokenInitial)
    requires f in flows && FlowOk(g) && g.src == flows[f].src && g.size == flows[f].size && g.finished == flows[f].finished
    ensures MidRound(flows0, active0, flows[f := g], active, tried, queues, tokenInitial)
  {
  }

  /** Queued flows are known; short flows and the long flows of each source are kept apart. */
  ghost predicate QueuesOk(flows: map<nat, Flow>, active: seq<nat>, queues: map<nat, seq<nat>>, tokenInitial: nat) {
    && (forall f | f in flows :: FlowOk(flows[f]))
    && (forall f | f in active :: f in flows && flows[f].size <= tokenInitial)
    && (forall s, f | s in queues && f in queues[s] ::
          f in flows && flows[f].size > tokenInitial && flows[f].src == s)
  }

  /** A source without queued flows has no entry. */
  function WithQueue(m: map<nat, seq<nat>>, src: nat, q: seq<nat>): (r: map<nat, seq<nat>>)
    ensures QueueOf(r, src) == q
    ensures forall s | s != src :: QueueOf(r, s) == QueueOf(m, s)
  {
    if q == [] then m - {src} else m[src := q]
  }

  lemma WithQueueOk(flows: map<nat, Flow>, active: seq<nat>, queues: map<nat, seq<nat>>, tokenInitial: nat, src: nat, q: seq<nat>)
    requires QueuesOk(flows, active, queues, tokenInitial) && forall f | f in q :: f in QueueOf(queues, src)
    ensures QueuesOk(flows, active, WithQueue(queues, src, q), tokenInitial)
  {
  }

  lemma SearchedOk(flows: map<nat, Flow>, active: seq<nat>, queues: map<nat, seq<nat>>, tokenInitial: nat, src: nat, q: seq<nat>)
    requires QueuesOk(flows, active, queues, tokenInitial) && NoneEmpty(queues) && forall f | f in q :: f in QueueOf(queues, src)
    ensures QueuesOk(flows, active, WithQueue(queues, src, q), tokenInitial) && NoneEmpty(WithQueue(queues, src, q))
  {
    WithQueueOk(flows, active, queues, tokenInitial, src, q);
  }

  lemma UpdatedFlowOk(flows: map<nat, Flow>, active: seq<nat>, queues: map<nat, seq<nat>>, tokenInitial: nat, f: nat, g: Flow)
    requires QueuesOk(flows, active, queues, tokenInitial)
    requires f in flows && FlowOk(g) && g.src == flows[f].src && g.size == flows[f].size
    ensures QueuesOk(flows[f := g], active, queues, tokenInitial)
  {
  }

  lemma ShortFlowOk(flows: map<nat, Flow>, active: seq<nat>, queues: map<nat, seq<nat>>, tokenInitial: nat, f: nat, g: Flow)
    requires QueuesOk(flows, active, queues, tokenInitial) && f !in flows && FlowOk(g) && g.size <= tokenInitial
    ensures QueuesOk(flows[f := g], active + [f], queues, tokenInitial)
  {
  }

  /** No source has an entry without flows. */
  ghost predicate NoneEmpty(queues: map<nat, seq<nat>>) {
    forall s | s in queues :: queues[s] != []
  }

  ghost predicate SomeUnfinished(flows: map<nat, Flow>, queues: map<nat, seq<nat>>) {
    exists s, f :: s in queues && f in queues[s] && f in flows && !flows[f].finished
  }

  /** One source has been looked at: it is listed if it has a ready flow, else only unfinished flows are left. */
  ghost predicate Swept(flows: map<nat, Flow>, queues: map<nat, seq<nat>>, queues': map<nat, seq<nat>>, srcs: seq<nat>, s: nat, now: int) {
    && (s in srcs <==> HasReady(flows, QueueOf(queues, s), now))
    && DropsOnlyFinished(flows, multiset(QueueOf(queues, s)), multiset(QueueOf(queues', s)))
    && (s !in srcs ==> forall f | f in QueueOf(queues', s) :: f in flows && !flows[f].finished)
  }

  lemma SweptKeepsFlow(flows: map<nat, Flow>, queues: map<nat, seq<nat>>, queues': map<nat, seq<nat>>, srcs: seq<nat>, s: nat, now: int)
    requires Swept(flows, queues, queues', srcs, s, now)
    ensures forall f | f in QueueOf(queues, s) && f in flows && !flows[f].finished :: f in QueueOf(queues', s)
    ensures forall f | f in QueueOf(queues', s) :: f in QueueOf(queues, s)
  {
    var q, q' := QueueOf(queues, s), QueueOf(queues', s);
    forall f
      ensures f in q && f in flows && !flows[f].finished ==> f in q'
      ensures f in q' ==> f in q
    {
      assert f in q <==> f in multiset(q);
      assert f in q' <==> f in multiset(q');
    }
  }

  /** One source's queue is searched: `found` says a ready flow is there; other sources are left alone. */
  ghost predicate Searched(flows: map<nat, Flow>, queues: map<nat, seq<nat>>, queues': map<nat, seq<nat>>, src: nat, found: bool, now: int) {
    && (found <==> HasReady(flows, QueueOf(queues, src), now))
    && DropsOnlyFinished(flows, multiset(QueueOf(queues, src)), multiset(QueueOf(queues', src)))
    && (!found ==> forall f | f in QueueOf(queues', src) :: f in flows && !flows[f].finished)
    && (forall s | s != src :: QueueOf(queues', s) == QueueOf(queues, s))
  }

  lemma SearchEnds(flows: map<nat, Flow>, queues: map<nat, seq<nat>>, src: nat, q: seq<nat>, tried: seq<nat>, now: int)
    requires src in queues && Split(flows, queues[src], q, tried, now) && forall f | f in queues[src] :: f in flows
    requires q != [] ==> exists f :: f in q && f in flows && Ready(flows[f], now)
    ensures Searched(flows, queues, WithQueue(queues, src, q + tried), src, q != [], now)
    ensures forall f | f in q + tried :: f in queues[src]
  {
    SplitEnds(flows, queues[src], q, tried, now);
    if q != [] {
      var f :| f in q && f in flows && Ready(flows[f], now);
      assert f in q + tried;
    }
  }

  lemma StillQueued(flows: map<nat, Flow>, queues: map<nat, seq<nat>>, queues': map<nat, seq<nat>>, src: nat, f: nat, now: int)
    requires Searched(flows, queues, queues', src, true, now) && f in QueueOf(queues', src)
    ensures f in QueueOf(queues, src)
  {
    assert f in multiset(QueueOf(queues', src));
    assert f in multiset(QueueOf(queues, src));
  }

  /** The sources outside `todo` have been looked at, each once. */
  ghost predicate Listed(flows: map<nat, Flow>, queues: map<nat, seq<nat>>, queues': map<nat, seq<nat>>, srcs: seq<nat>, todo: set<nat>, now: int) {
    && (forall s: nat {:trigger QueueOf(queues', s)} ::
          if s in todo then s !in srcs && QueueOf(queues', s) == QueueOf(queues, s)
          else Swept(flows, queues, queues', srcs, s, now))
    && (forall i, j | 0 <= i < j < |srcs| :: srcs[i] != srcs[j])
  }

  lemma ListNone(flows: map<nat, Flow>, queues: map<nat, seq<nat>>, now: int)
    ensures Listed(flows, queues, queues, [], queues.Keys, now)
  {
    forall s: nat | s !in queues
      ensures Swept(flows, queues, queues, [], s, now)
    {
      assert QueueOf(queues, s) == [];
    }
  }

  lemma SweptStays(flows: map<nat, Flow>, queues: map<nat, seq<nat>>, before: map<nat, seq<nat>>, after: map<nat, seq<nat>>,
                   srcs: seq<nat>, srcs': seq<nat>, s: nat, now: int)
    requires Swept(flows, queues, before, srcs, s, now)
    requires QueueOf(after, s) == QueueOf(before, s) && (s in srcs' <==> s in srcs)
    ensures Swept(flows, queues, after, srcs', s, now)
  {
  }

  lemma ListOneMore(flows: map<nat, Flow>, queues: map<nat, seq<nat>>, before: map<nat, seq<nat>>, after: map<nat, seq<nat>>,
                    srcs: seq<nat>, todo: set<nat>, src: nat, found: bool, now: int)
    requires Listed(flows, queues, before, srcs, todo, now) && src in todo
    requires Searched(flows, before, after, src, found, now)
    ensures Listed(flows, queues, after, if found then srcs + [src] else srcs, todo - {src}, now)
  {
    var srcs' := if found then srcs + [src] else srcs;
    assert QueueOf(before, src) == QueueOf(queues, src) && src !in srcs;
    assert Swept(flows, queues, after, srcs', src, now);
    forall s: nat
      ensures if s in todo - {src} then s !in srcs' && QueueOf(after, s) == QueueOf(queues, s)
              else Swept(flows, queues, after, srcs', s, now)
    {
      if s != src {
        assert QueueOf(after, s) == QueueOf(before, s);
        if s !in todo {
          SweptStays(flows, queues, before, after, srcs, srcs', s, now);
        }
      }
    }
  }

  /** The candidate's source has a ready flow that wants so many packets. */
  ghost predicate Wanted(flows: map<nat, Flow>, queues: map<nat, seq<nat>>, c: Candidate, now: int) {
    exists f :: f in QueueOf(queues, c.src) && f in flows && Ready(flows[f], now) && flows[f].Work() == c.work
  }

  ghost predicate AllWanted(flows: map<nat, Flow>, queues: map<nat, seq<nat>>, v: seq<Candidate>, now: int) {
    forall c | c in v :: Wanted(flows, queues, c, now)
  }

  lemma StillWanted(flows: map<nat, Flow>, queues: map<nat, seq<nat>>, queues': map<nat, seq<nat>>, v: seq<Candidate>, src: nat, now: int)
    requires AllWanted(flows, queues, v, now) && src !in Srcs(v) && forall s | s != src :: QueueOf(queues', s) == QueueOf(queues, s)
    ensures AllWanted(flows, queues', v, now)
  {
    forall c | c in v
      ensures Wanted(flows, queues', c, now)
    {
      assert Wanted(flows, queues, c, now);
      var i :| 0 <= i < |v| && v[i] == c;
      assert Srcs(v)[i] == c.src;
    }
  }

  lemma OneMoreWanted(flows: map<nat, Flow>, queues: map<nat, seq<nat>>, queues': map<nat, seq<nat>>, v: seq<Candidate>, src: nat, f: nat, now: int)
    requires AllWanted(flows, queues, v, now) && src !in Srcs(v) && forall s | s != src :: QueueOf(queues', s) == QueueOf(queues, s)
    requires f in QueueOf(queues', src) && f in flows && Ready(flows[f], now)
    ensures AllWanted(flows, queues', v + [Candidate(flows[f].Work(), src)], now)
  {
    StillWanted(flows, queues, queues', v, src, now);
    assert Wanted(flows, queues', Candidate(flows[f].Work(), src), now);
  }

  /** Sorting a list leaves it a list of the same sources. */
  lemma ListedSorted(flows: map<nat, Flow>, queues: map<nat, seq<nat>>, queues': map<nat, seq<nat>>, v: seq<Candidate>, w: seq<Candidate>, now: int)
    requires Listed(flows, queues, queues', Srcs(v), {}, now) && SameSources(v, w)
    ensures Listed(flows, queues, queues', Srcs(w), {}, now)
  {
    forall s: nat
      ensures Swept(flows, queues, queues', Srcs(w), s, now)
    {
      SameListed(v, w, s);
      assert Swept(flows, queues, queues', Srcs(v), s, now) by {
        assert QueueOf(queues', s) == QueueOf(queues', s);
      }
    }
  }

  lemma DistinctSources(v: seq<Candidate>)
    requires forall i, j | 0 <= i < j < |v| :: Srcs(v)[i] != Srcs(v)[j]
    ensures Distinct(v)
  {
    assert forall i | 0 <= i < |v| :: Srcs(v)[i] == v[i].src;
  }

  lemma SameListed(v: seq<Candidate>, w: seq<Candidate>, s: nat)
    requires SameSources(v, w)
    ensures s in Srcs(w) <==> s in Srcs(v)
  {
    if s in Srcs(w) {
      var i :| 0 <= i < |w| && Srcs(w)[i] == s;
      assert w[i] in v;
      var j :| 0 <= j < |v| && v[j] == w[i];
      assert Srcs(v)[j] == s;
    }
    if s in Srcs(v) {
      var i :| 0 <= i < |v| && Srcs(v)[i] == s;
      assert v[i] in w;
      var j :| 0 <= j < |w| && w[j] == v[i];
      assert Srcs(w)[j] == s;
    }
  }

  /** A flow left in a queue at the end of the listing is unfinished, or its source is listed and has an unfinished one. */
  lemma LeftIsUnfinished(flows: map<nat, Flow>, queues: map<nat, seq<nat>>, queues': map<nat, seq<nat>>, srcs: seq<nat>, s: nat, now: int)
    requires Swept(flows, queues, queues', srcs, s, now) && QueueOf(queues', s) != []
    ensures SomeUnfinished(flows, queues)
  {
    SweptKeepsFlow(flows, queues, queues', srcs, s, now);
    if s in srcs {
      var f :| f in QueueOf(queues, s) && f in flows && Ready(flows[f], now);
      assert f in queues[s] && !flows[f].finished;
    } else {
      var f := QueueOf(queues', s)[0];
      assert f in QueueOf(queues', s);
      assert f in queues[s] && f in flows && !flows[f].finished;
    }
  }

  /** What is left of the queues is empty exactly when no queued flow was unfinished. */
  lemma ListedAll(flows: map<nat, Flow>, queues: map<nat, seq<nat>>, queues': map<nat, seq<nat>>, srcs: seq<nat>, now: int)
    requires Listed(flows, queues, queues', srcs, {}, now) && NoneEmpty(queues')
    ensures queues' != map[] <==> SomeUnfinished(flows, queues)
  {
    if queues' != map[] {
      var s :| s in queues';
      assert QueueOf(queues', s) != [];
      LeftIsUnfinished(flows, queues, queues', srcs, s, now);
    } else if s, f :| s in queues && f in queues[s] && f in flows && !flows[f].finished {
      assert QueueOf(queues', s) == [];
      SweptKeepsFlow(flows, queues, queues', srcs, s, now);
      assert false;
    }
  }

  /**
   Data for a flow resumes the tokens only if the grant is for its source and it is ready, and always
   if it is then the only ready one; among several the queue's order decides.
   */
  ghost predicate Resumes(again: bool, grant: GoSrc, flows: map<nat, Flow>, queues: map<nat, seq<nat>>, f: nat, now: int)
    requires f in flows
  {
    var may := grant.src == Some(flows[f].src) && grant.remainTokens > 0
               && f in QueueOf(queues, flows[f].src) && Ready(flows[f], now);
    && (again ==> may)
    && (may && (forall g | g in QueueOf(queues, flows[f].src) && g in flows && Ready(flows[g], now) :: g == f) ==> again)
  }

  /** What the machine does on a data packet: nothing, or one input. */
  ghost predicate Took(before: Receiver, after: Receiver, msg: Option<ListSrcs>, input: Option<Input>, nrtsGap: nat) {
    match input
    case None => after == before && msg.None?
    case Some(i) => Enabled(before, i) && (after, msg) == Handle(before, i, nrtsGap)
  }

  class RankingHost {
    const id: nat
    const params: HostParams
    var gosrcInfo: GoSrc
    var wakeupEvt: Option<nat>
    var tokenSendEvt: Option<TokenTimer>
    var nextEvt: nat
    var holdOn: nat
    var flows: map<nat, Flow>
    var activeShortFlows: seq<nat>
    var srcToFlows: map<nat, seq<nat>>
    ghost var liveWakeups: set<nat>
    ghost var liveTokens: set<nat>
    ghost var history: seq<GrantRecord>
    ghost var issued: seq<TokenRecord>

    ghost function State(): Receiver
      reads this
    {
      Receiver(id, gosrcInfo, wakeupEvt, tokenSendEvt, liveWakeups, liveTokens, nextEvt, history, issued)
    }

    ghost predicate Valid()
      reads this
    {
      ReceiverOk(State()) && QueuesOk(flows, activeShortFlows, srcToFlows, params.tokenInitial) && NoneEmpty(srcToFlows)
    }

    /** A receiver that owes its grant has no retry pending. */
    ghost predicate NoRetryWhileOwed()
      reads this
    {
      gosrcInfo.Owed() ==> wakeupEvt.None?
    }

    constructor (id: nat, params: HostParams)
      ensures Valid() && State() == NewReceiver(id) && this.params == params
      ensures flows == map[] && activeShortFlows == [] && srcToFlows == map[]
    {
      this.id, this.params := id, params;
      gosrcInfo := GoSrc(-1, -1, 0, None, false);
      wakeupEvt, tokenSendEvt, nextEvt, holdOn := None, None, 0, 0;
      flows, activeShortFlows, srcToFlows := map[], [], map[];
      liveWakeups, liveTokens, history, issued := {}, {}, [], [];
    }

    // ---- Timers and requests ----

    method ScheduleWakeupEvent()
      requires wakeupEvt.None?
      modifies this`wakeupEvt, this`liveWakeups, this`nextEvt
      ensures State() == ScheduleWakeup(old(State()))
    {
      assert wakeupEvt.None?;
      wakeupEvt, liveWakeups, nextEvt := Some(nextEvt), liveWakeups + {nextEvt}, nextEvt + 1;
    }

    method CancelWakeupEvent()
      modifies this`wakeupEvt, this`liveWakeups
      ensures State() == CancelWakeup(old(State()))
    {
      if wakeupEvt.Some? {
        liveWakeups := liveWakeups - {wakeupEvt.value};
      }
      wakeupEvt := None;
    }

    method ScheduleTokenProcEvt(isTimeout: bool)
      requires tokenSendEvt.None?
      modifies this`tokenSendEvt, this`liveTokens, this`nextEvt
      ensures State() == ScheduleToken(old(State()), isTimeout)
    {
      assert tokenSendEvt.None?;
      tokenSendEvt, liveTokens, nextEvt := Some(TokenTimer(nextEvt, isTimeout)), liveTokens + {nextEvt}, nextEvt + 1;
    }

    method RestartTokenEvt()
      modifies this`tokenSendEvt, this`liveTokens, this`nextEvt
      ensures State() == RestartTokens(old(State()))
    {
      if tokenSendEvt.Some? && tokenSendEvt.value.isTimeout {
        liveTokens := liveTokens - {tokenSendEvt.value.evt};
        tokenSendEvt := None;
      }
      if tokenSendEvt.None? {
        ScheduleTokenProcEvt(false);
      }
    }

    method SendList(nrts: Option<nat>, srcs: seq<nat>) returns (msg: Option<ListSrcs>)
      modifies this`gosrcInfo
      ensures (State(), msg) == SendListSrcs(old(State()), nrts, srcs)
    {
      if srcs == [] && nrts.None? {
        return None;
      }
      msg := Some(ListSrcs(id, srcs, nrts));
      if nrts.Some? {
        gosrcInfo := gosrcInfo.(sendNrts := true);
      }
    }

    // ---- The grant side of each handler ----

    method TakeGrant(src: nat, maxTokens: int, best: bool, srcs: seq<nat>) returns (msg: Option<ListSrcs>)
      requires TimersOk(State())
      modifies this`gosrcInfo, this`wakeupEvt, this`tokenSendEvt, this`nextEvt, this`liveWakeups, this`liveTokens, this`history
      ensures (State(), msg) == ReceiveGosrc(old(State()), src, maxTokens, best, srcs)
    {
      msg := None;
      if !best {
        msg := SendList(Some(src), srcs);
        CancelWakeupEvent();
        ScheduleWakeupEvent();
        gosrcInfo := gosrcInfo.Reset();
        return;
      }
      gosrcInfo := GoSrc(maxTokens, maxTokens, gosrcInfo.round + 1, Some(src), false);
      history := history + [GrantRecord(src, maxTokens)];
      CancelWakeupEvent();
      RestartTokenEvt();
    }

    /** `best` matters only when the finished flow belongs to the granted source in another round. */
    method EndGrant(src: nat, round: int, best: bool, srcs: seq<nat>) returns (msg: Option<ListSrcs>)
      requires TimersOk(State())
      modifies this`gosrcInfo, this`wakeupEvt, this`nextEvt, this`liveWakeups
      ensures (State(), msg) == FlowFinish(old(State()), src, round, best, srcs)
    {
      msg := None;
      if gosrcInfo.round == round {
        gosrcInfo := gosrcInfo.Reset();
      } else if gosrcInfo.src == Some(src) {
        if !best {
          if !gosrcInfo.sendNrts {
            assert wakeupEvt.None?;
            msg := SendList(Some(src), srcs);
            ScheduleWakeupEvent();
          }
          gosrcInfo := gosrcInfo.Reset();
        }
      }
    }

    /** A long flow is queued: request a grant when there is none to work on. */
    method AnnounceLong(src: nat, isTop: bool, srcs: seq<nat>) returns (msg: Option<ListSrcs>)
      requires TimersOk(State())
      modifies this`gosrcInfo, this`wakeupEvt, this`tokenSendEvt, this`nextEvt, this`liveWakeups, this`liveTokens
      ensures (State(), msg) == ReceiveRts(old(State()), src, isTop, srcs)
    {
      msg := None;
      if gosrcInfo.src == Some(src) && isTop {
        RestartTokenEvt();
      }
      if gosrcInfo.src.None? {
        msg := SendList(None, srcs);
        CancelWakeupEvent();
        ScheduleWakeupEvent();
      }
    }

    // ---- Flow queues ----

    /** The queue's flows in some order up to the first ready one. */
    method TakeApart(queue: seq<nat>, now: int) returns (best: Option<nat>, q: seq<nat>, tried: seq<nat>)
      requires forall f | f in queue :: f in flows
      ensures Split(flows, queue, q, tried, now) && (best.Some? <==> q != [])
      ensures best.Some? ==> best.value in q && best.value in flows && Ready(flows[best.value], now)
    {
      best, q, tried := None, queue, [];
      while q != []
        invariant Split(flows, queue, q, tried, now) && best.None?
        decreases |q|
      {
        var i :| 0 <= i < |q|;
        var f := q[i];
        SplitKnows(flows, queue, q, tried, now, i);
        if flows[f].finished {
          q := RemoveAt(q, i);
        } else if flows[f].redundancy > now {
          tried := tried + [f];
          q := RemoveAt(q, i);
        } else {
          best := Some(f);
          return;
        }
      }
    }

    /** Some ready flow of the source when there is one; only finished flows leave the queue. */
    method GetTopUnfinishFlow(src: nat, now: int) returns (best: Option<nat>)
      requires QueuesOk(flows, activeShortFlows, srcToFlows, params.tokenInitial) && NoneEmpty(srcToFlows)
      modifies this`srcToFlows
      ensures QueuesOk(flows, activeShortFlows, srcToFlows, params.tokenInitial) && NoneEmpty(srcToFlows)
      ensures Searched(flows, old(srcToFlows), srcToFlows, src, best.Some?, now)
      ensures best.Some? ==> best.value in QueueOf(srcToFlows, src) && Ready(flows[best.value], now)
    {
      best := None;
      if src !in srcToFlows {
        return;
      }
      var q, tried;
      best, q, tried := TakeApart(srcToFlows[src], now);
      SearchEnds(flows, srcToFlows, src, q, tried, now);
      SearchedOk(flows, activeShortFlows, srcToFlows, params.tokenInitial, src, q + tried);
      srcToFlows := WithQueue(srcToFlows, src, q + tried);
    }

    /** The sources with a ready flow, in any order; finished flows met on the way leave their queues. */
    method SweepSources(now: int) returns (found: seq<Candidate>)
      requires QueuesOk(flows, activeShortFlows, srcToFlows, params.tokenInitial) && NoneEmpty(srcToFlows)
      modifies this`srcToFlows
      ensures QueuesOk(flows, activeShortFlows, srcToFlows, params.tokenInitial) && NoneEmpty(srcToFlows)
      ensures Listed(flows, old(srcToFlows), srcToFlows, Srcs(found), {}, now) && AllWanted(flows, srcToFlows, found, now)
    {
      found := [];
      var todo := srcToFlows.Keys;
      ListNone(flows, srcToFlows, now);
      while todo != {}
        invariant QueuesOk(flows, activeShortFlows, srcToFlows, params.tokenInitial) && NoneEmpty(srcToFlows)
        invariant Listed(flows, old(srcToFlows), srcToFlows, Srcs(found), todo, now) && AllWanted(flows, srcToFlows, found, now)
        decreases |todo|
      {
        var src :| src in todo;
        ghost var before := srcToFlows;
        var best := GetTopUnfinishFlow(src, now);
        assert QueueOf(before, src) == QueueOf(old(srcToFlows), src) && src !in Srcs(found);
        ListOneMore(flows, old(srcToFlows), before, srcToFlows, Srcs(found), todo, src, best.Some?, now);
        todo := todo - {src};
        if best.Some? {
          OneMoreWanted(flows, before, srcToFlows, found, src, best.value, now);
          OneMoreSrc(found, Candidate(flows[best.value].Work(), src));
          found := found + [Candidate(flows[best.value].Work(), src)];
        } else {
          StillWanted(flows, before, srcToFlows, found, src, now);
        }
      }
    }

    /** The sources to list, the one that wants the fewest packets first. */
    method ListSources(now: int) returns (listed: seq<Candidate>)
      requires QueuesOk(flows, activeShortFlows, srcToFlows, params.tokenInitial) && NoneEmpty(srcToFlows)
      modifies this`srcToFlows
      ensures QueuesOk(flows, activeShortFlows, srcToFlows, params.tokenInitial) && NoneEmpty(srcToFlows)
      ensures Listed(flows, old(srcToFlows), srcToFlows, Srcs(listed), {}, now)
      ensures ByWork(listed) && AllWanted(flows, srcToFlows, listed, now)
      ensures srcToFlows != map[] <==> SomeUnfinished(flows, old(srcToFlows))
    {
      var found := SweepSources(now);
      ListedAll(flows, old(srcToFlows), srcToFlows, Srcs(found), now);
      DistinctSources(found);
      listed := SortByWork(found);
      ListedSorted(flows, old(srcToFlows), srcToFlows, found, listed, now);
    }

    method FireWakeup(evt: nat, now: int) returns (msg: Option<ListSrcs>, ghost listed: seq<Candidate>)
      requires Valid() && wakeupEvt == Some(evt) && liveWakeups == {evt}
      modifies this`gosrcInfo, this`wakeupEvt, this`nextEvt, this`liveWakeups, this`srcToFlows
      ensures QueuesOk(flows, activeShortFlows, srcToFlows, params.tokenInitial) && NoneEmpty(srcToFlows)
      ensures Listed(flows, old(srcToFlows), srcToFlows, Srcs(listed), {}, now)
      ensures ByWork(listed) && AllWanted(flows, srcToFlows, listed, now)
      ensures (State(), msg) == Wakeup(old(State()), evt, Srcs(listed), SomeUnfinished(flows, old(srcToFlows)))
    {
      wakeupEvt, liveWakeups := None, liveWakeups - {evt};
      var sources := ListSources(now);
      listed := sources;
      msg := SendList(None, Srcs(sources));
      if srcToFlows != map[] {
        ScheduleWakeupEvent();
      }
    }

    /** A retry: the request is sent again, and the next retry set while some queued flow is unfinished. */
    method WakeupEvt(evt: nat, now: int) returns (msg: Option<ListSrcs>, ghost listed: seq<Candidate>)
      requires Valid() && evt in liveWakeups
      modifies this`gosrcInfo, this`wakeupEvt, this`nextEvt, this`liveWakeups, this`srcToFlows
      ensures Valid() && Listed(flows, old(srcToFlows), srcToFlows, Srcs(listed), {}, now)
      ensures ByWork(listed) && AllWanted(flows, srcToFlows, listed, now)
      ensures liveWakeups != {} <==> SomeUnfinished(flows, old(srcToFlows))
      ensures (State(), msg) == Handle(old(State()), WakeupFires(evt, Srcs(listed), SomeUnfinished(flows, old(srcToFlows))), params.nrtsGap)
    {
      ghost var before, more := State(), SomeUnfinished(flows, srcToFlows);
      msg, listed := FireWakeup(evt, now);
      HandleKeepsReceiverOk(before, WakeupFires(evt, Srcs(listed), more), params.nrtsGap);
      RetriesExactlyWhen(before, WakeupFires(evt, Srcs(listed), more), params.nrtsGap);
    }

    // ---- Handlers ----

    method ReceiveLongFlow(f: nat, flow: Flow, isTop: bool, srcs: seq<nat>) returns (msg: Option<ListSrcs>)
      requires Valid() && f !in flows && FlowOk(flow) && flow.size > params.tokenInitial
      modifies this
      ensures Valid() && (State(), msg) == Handle(old(State()), Rts(flow.src, isTop, srcs), params.nrtsGap)
      ensures flows == old(flows)[f := flow] && activeShortFlows == old(activeShortFlows)
      ensures srcToFlows == old(srcToFlows)[flow.src := QueueOf(old(srcToFlows), flow.src) + [f]]
    {
      HandleKeepsReceiverOk(State(), Rts(flow.src, isTop, srcs), params.nrtsGap);
      flows := flows[f := flow];
      srcToFlows := srcToFlows[flow.src := QueueOf(srcToFlows, flow.src) + [f]];
      msg := AnnounceLong(flow.src, isTop, srcs);
    }

    method StartShortFlow(f: nat, flow: Flow)
      requires QueuesOk(flows, activeShortFlows, srcToFlows, params.tokenInitial)
      requires f !in flows && FlowOk(flow) && flow.size <= params.tokenInitial
      modifies this`flows, this`holdOn, this`activeShortFlows, this`tokenSendEvt, this`liveTokens, this`nextEvt
      ensures QueuesOk(flows, activeShortFlows, srcToFlows, params.tokenInitial)
      ensures State() == RestartTokens(old(State())) && flows == old(flows)[f := flow]
      ensures activeShortFlows == old(activeShortFlows) + [f] && holdOn == flow.size
    {
      ShortFlowOk(flows, activeShortFlows, srcToFlows, params.tokenInitial, f, flow);
      flows := flows[f := flow];
      holdOn := flow.size;
      activeShortFlows := activeShortFlows + [f];
      RestartTokenEvt();
    }

    method ReceiveShortFlow(f: nat, flow: Flow, now: int, firstTimeout: nat)
      requires Valid() && f !in flows && FlowOk(flow) && flow.size <= params.tokenInitial
      modifies this`flows, this`holdOn, this`activeShortFlows, this`tokenSendEvt, this`liveTokens, this`nextEvt
      ensures Valid() && (State(), None) == Handle(old(State()), TokensWanted, params.nrtsGap)
      ensures flows == old(flows)[f := TokenFlow.ReceiveShortFlow(flow, now, firstTimeout)]
      ensures activeShortFlows == old(activeShortFlows) + [f] && holdOn == flow.size
    {
      HandleKeepsReceiverOk(State(), TokensWanted, params.nrtsGap);
      StartShortFlow(f, TokenFlow.ReceiveShortFlow(flow, now, firstTimeout));
    }

    /** A new flow: a long one may prompt a request, a short one starts with its free tokens. */
    method ReceiveFlow(f: nat, flow: Flow, now: int, firstTimeout: nat, isTop: bool, srcs: seq<nat>) returns (msg: Option<ListSrcs>)
      requires Valid() && f !in flows && FlowOk(flow)
      modifies this
      ensures Valid()
      ensures flow.size > params.tokenInitial ==>
                && (State(), msg) == Handle(old(State()), Rts(flow.src, isTop, srcs), params.nrtsGap)
                && flows == old(flows)[f := flow] && activeShortFlows == old(activeShortFlows)
                && srcToFlows == old(srcToFlows)[flow.src := QueueOf(old(srcToFlows), flow.src) + [f]]
      ensures flow.size <= params.tokenInitial ==>
                && (State(), msg) == Handle(old(State()), TokensWanted, params.nrtsGap)
                && flows == old(flows)[f := TokenFlow.ReceiveShortFlow(flow, now, firstTimeout)] && srcToFlows == old(srcToFlows)
                && activeShortFlows == old(activeShortFlows) + [f] && holdOn == flow.size
    {
      if flow.size > params.tokenInitial {
        msg := ReceiveLongFlow(f, flow, isTop, srcs);
      } else {
        ReceiveShortFlow(f, flow, now, firstTimeout);
        msg := None;
      }
    }

    /** A grant arrives: use it when its source has a ready flow, else give it straight back. */
    method ReceiveGosrcPkt(src: nat, maxTokens: int, now: int, srcs: seq<nat>) returns (msg: Option<ListSrcs>)
      requires Valid() && 0 < maxTokens
      modifies this
      ensures Valid() && flows == old(flows) && activeShortFlows == old(activeShortFlows)
      ensures (State(), msg) == Handle(old(State()),
                Gosrc(src, maxTokens, HasReady(flows, QueueOf(old(srcToFlows), src), now), srcs), params.nrtsGap)
    {
      var best := GetTopUnfinishFlow(src, now);
      HandleKeepsReceiverOk(State(), Gosrc(src, maxTokens, best.Some?, srcs), params.nrtsGap);
      msg := TakeGrant(src, maxTokens, best.Some?, srcs);
    }

    /** Another flow of the granted source is looked for only if the grant is not the one just finished under. */
    method OtherFlow(src: nat, round: int, now: int) returns (top: Option<nat>)
      requires QueuesOk(flows, activeShortFlows, srcToFlows, params.tokenInitial) && NoneEmpty(srcToFlows)
      modifies this`srcToFlows
      ensures QueuesOk(flows, activeShortFlows, srcToFlows, params.tokenInitial) && NoneEmpty(srcToFlows)
      ensures gosrcInfo.round != round && gosrcInfo.src == Some(src) ==>
                (top.Some? <==> HasReady(flows, QueueOf(old(srcToFlows), src), now))
    {
      top := None;
      if gosrcInfo.round != round && gosrcInfo.src == Some(src) {
        top := GetTopUnfinishFlow(src, now);
      }
    }

    /** The last packet of a long flow from `src` has arrived; it answers a token sent in `round`. */
    method FlowFinishAtReceiver(src: nat, round: int, now: int, srcs: seq<nat>) returns (msg: Option<ListSrcs>, ghost best: bool)
      requires Valid() && TokenRecord(src, round) in issued
      modifies this`srcToFlows, this`gosrcInfo, this`wakeupEvt, this`nextEvt, this`liveWakeups
      ensures Valid() && (State(), msg) == Handle(old(State()), Finish(src, round, best, srcs), params.nrtsGap)
      ensures old(gosrcInfo).round != round && old(gosrcInfo).src == Some(src) ==>
                (best <==> HasReady(flows, QueueOf(old(srcToFlows), src), now))
    {
      var top := OtherFlow(src, round, now);
      best := top.Some?;
      HandleKeepsReceiverOk(State(), Finish(src, round, best, srcs), params.nrtsGap);
      msg := EndGrant(src, round, top.Some?, srcs);
    }

    method StoreData(f: nat, dataSeq: nat, tokenSeq: int)
      requires QueuesOk(flows, activeShortFlows, srcToFlows, params.tokenInitial) && f in flows && dataSeq < flows[f].size
      modifies this`flows
      ensures QueuesOk(flows, activeShortFlows, srcToFlows, params.tokenInitial)
      ensures flows == old(flows)[f := ReceiveData(old(flows)[f], dataSeq, tokenSeq)]
    {
      ReceiveKeepsValid(flows[f], dataSeq, tokenSeq);
      UpdatedFlowOk(flows, activeShortFlows, srcToFlows, params.tokenInitial, f, ReceiveData(flows[f], dataSeq, tokenSeq));
      flows := flows[f := ReceiveData(flows[f], dataSeq, tokenSeq)];
    }

    /** One data packet of an announced flow: it may finish the flow, or reopen the token window of the granted one. */
    method ReceiveAnnounced(f: nat, dataSeq: nat, tokenSeq: int, round: int, now: int, srcs: seq<nat>)
      returns (msg: Option<ListSrcs>, ghost input: Option<Input>)
      requires Valid() && f in flows && dataSeq < flows[f].size
      requires flows[f].size > params.tokenInitial ==> TokenRecord(flows[f].src, round) in issued
      modifies this`flows, this`srcToFlows, this`gosrcInfo, this`wakeupEvt, this`tokenSendEvt, this`nextEvt, this`liveWakeups, this`liveTokens
      ensures Valid() && flows == old(flows)[f := ReceiveData(old(flows)[f], dataSeq, tokenSeq)]
      ensures Took(old(State()), State(), msg, input, params.nrtsGap)
      ensures (input.Some? && input.value.Finish?) <==>
                flows[f].finished && !old(flows)[f].finished && flows[f].size > params.tokenInitial
      ensures input.Some? && input.value.Finish? ==> input.value.src == flows[f].src && input.value.round == round
      ensures flows[f].size <= params.tokenInitial ==> input.None? && State() == old(State())
      ensures !flows[f].finished ==>
                if flows[f].TokenGap() <= params.flow.window then Resumes(input.Some?, old(gosrcInfo), flows, old(srcToFlows), f, now)
                else input.None?
    {
      msg, input := None, None;
      var before := flows[f];
      StoreData(f, dataSeq, tokenSeq);
      if flows[f].finished {
        if !before.finished && flows[f].size > params.tokenInitial {
          ghost var best;
          msg, best := FlowFinishAtReceiver(flows[f].src, round, now, srcs);
          input := Some(Finish(flows[f].src, round, best, srcs));
        }
      } else if flows[f].TokenGap() <= params.flow.window {
        ghost var again := ResumeTokens(f, now);
        input := if again then Some(TokensWanted) else None;
      }
    }

    /** A short flow is never the one a grant is used for: looking for that flow only tidies the queue. */
    method StoreShortData(f: nat, dataSeq: nat, tokenSeq: int, now: int)
      requires QueuesOk(flows, activeShortFlows, srcToFlows, params.tokenInitial) && NoneEmpty(srcToFlows)
      requires f in flows && dataSeq < flows[f].size && flows[f].size <= params.tokenInitial
      modifies this`flows, this`srcToFlows
      ensures QueuesOk(flows, activeShortFlows, srcToFlows, params.tokenInitial) && NoneEmpty(srcToFlows)
      ensures flows == old(flows)[f := ReceiveData(old(flows)[f], dataSeq, tokenSeq)]
    {
      StoreData(f, dataSeq, tokenSeq);
      if !flows[f].finished && flows[f].TokenGap() <= params.flow.window {
        var best := GetTopUnfinishFlow(flows[f].src, now);
        assert best != Some(f);
      }
    }

    method StartAndStore(f: nat, flow: Flow, dataSeq: nat, tokenSeq: int, now: int, firstTimeout: nat)
      requires QueuesOk(flows, activeShortFlows, srcToFlows, params.tokenInitial) && NoneEmpty(srcToFlows)
      requires f !in flows && FlowOk(flow) && flow.size <= params.tokenInitial && dataSeq < flow.size
      modifies this`flows, this`srcToFlows, this`holdOn, this`activeShortFlows, this`tokenSendEvt, this`liveTokens, this`nextEvt
      ensures QueuesOk(flows, activeShortFlows, srcToFlows, params.tokenInitial) && NoneEmpty(srcToFlows)
      ensures flows == old(flows)[f := ReceiveData(TokenFlow.ReceiveShortFlow(flow, now, firstTimeout), dataSeq, tokenSeq)]
      ensures State() == RestartTokens(old(State()))
      ensures activeShortFlows == old(activeShortFlows) + [f] && holdOn == flow.size
    {
      StartShortFlow(f, TokenFlow.ReceiveShortFlow(flow, now, firstTimeout));
      StoreShortData(f, dataSeq, tokenSeq, now);
    }

    /** The first sign of a short flow is a data packet: the flow counts as announced. */
    method ReceiveUnannounced(f: nat, flow: Flow, dataSeq: nat, tokenSeq: int, now: int, firstTimeout: nat)
      requires Valid() && f !in flows && FlowOk(flow) && flow.size <= params.tokenInitial && dataSeq < flow.size
      modifies this
      ensures var before := TokenFlow.ReceiveShortFlow(flow, now, firstTimeout);
              Valid() && flows == old(flows)[f := ReceiveData(before, dataSeq, tokenSeq)]
      ensures (State(), None) == Handle(old(State()), TokensWanted, params.nrtsGap)
      ensures activeShortFlows == old(activeShortFlows) + [f] && holdOn == flow.size
    {
      HandleKeepsReceiverOk(State(), TokensWanted, params.nrtsGap);
      StartAndStore(f, flow, dataSeq, tokenSeq, now, firstTimeout);
    }

    /** One data packet; a long flow's packets answer tokens, so that it is announced already. */
    method ReceiveDataPkt(f: nat, flow: Flow, dataSeq: nat, tokenSeq: int, round: int, now: int, firstTimeout: nat, srcs: seq<nat>)
      returns (msg: Option<ListSrcs>, ghost input: Option<Input>)
      requires Valid() && FlowOk(flow) && (if f in flows then flow == flows[f] else flow.size <= params.tokenInitial)
      requires dataSeq < flow.size && (flow.size > params.tokenInitial ==> TokenRecord(flow.src, round) in issued)
      modifies this
      ensures var before := if f in old(flows) then flow else TokenFlow.ReceiveShortFlow(flow, now, firstTimeout);
              Valid() && flows == old(flows)[f := ReceiveData(before, dataSeq, tokenSeq)]
      ensures Took(old(State()), State(), msg, input, params.nrtsGap)
      ensures (input.Some? && input.value.Finish?) <==>
                f in old(flows) && flows[f].finished && !old(flows)[f].finished && flow.size > params.tokenInitial
      ensures input.Some? && input.value.Finish? ==> input.value.src == flow.src && input.value.round == round
      ensures f !in old(flows) ==> input == Some(TokensWanted) && activeShortFlows == old(activeShortFlows) + [f] && holdOn == flow.size
      ensures f in old(flows) && !flows[f].finished ==>
                if flows[f].TokenGap() <= params.flow.window then Resumes(input.Some?, old(gosrcInfo), flows, old(srcToFlows), f, now)
                else input.None?
    {
      if f in flows {
        msg, input := ReceiveAnnounced(f, dataSeq, tokenSeq, round, now, srcs);
      } else {
        ReceiveUnannounced(f, flow, dataSeq, tokenSeq, now, firstTimeout);
        msg, input := None, Some(TokensWanted);
      }
    }

    /** Data came in for the flow the grant is being used for: do not wait for the retry. */
    method ResumeTokens(f: nat, now: int) returns (ghost again: bool)
      requires Valid() && f in flows
      modifies this`srcToFlows, this`tokenSendEvt, this`liveTokens, this`nextEvt
      ensures Valid()
      ensures State() == if again then RestartTokens(old(State())) else old(State())
      ensures Resumes(again, gosrcInfo, flows, old(srcToFlows), f, now)
      ensures again ==> flows[f].size > params.tokenInitial
    {
      again := false;
      ghost var queues := srcToFlows;
      var best := GetTopUnfinishFlow(flows[f].src, now);
      if best.Some? {
        StillQueued(flows, queues, srcToFlows, flows[f].src, best.value, now);
      }
      if gosrcInfo.src == Some(flows[f].src) && gosrcInfo.remainTokens > 0 && best == Some(f) {
        HandleKeepsReceiverOk(State(), TokensWanted, params.nrtsGap);
        RestartTokenEvt();
        again := true;
      }
    }

    // ---- The token event ----

    /** What a visit to the granted source's flow does to the grant. */
    method VisitLongFlow(src: nat, t: LongTurn, srcs: seq<nat>) returns (msg: Option<ListSrcs>)
      requires NoRetryWhileOwed() && gosrcInfo.src == Some(src)
      requires t.sent ==> gosrcInfo.remainTokens > 0
      modifies this`gosrcInfo, this`wakeupEvt, this`nextEvt, this`liveWakeups, this`issued
      ensures (State(), msg) == VisitLong(old(State()), t, params.nrtsGap, srcs)
    {
      msg := None;
      if t.sent {
        assert gosrcInfo.remainTokens > 0;
        issued := issued + [TokenRecord(src, gosrcInfo.round)];
        gosrcInfo := gosrcInfo.(remainTokens := gosrcInfo.remainTokens - 1);
        if gosrcInfo.remainTokens == 0 {
          gosrcInfo := gosrcInfo.Reset();
        }
      }
      var gap := if gosrcInfo.remainTokens > t.work then t.work else gosrcInfo.remainTokens;
      if (t.waiting || gap <= params.nrtsGap) && !gosrcInfo.sendNrts {
        assert wakeupEvt.None?;
        msg := SendList(Some(src), srcs);
        ScheduleWakeupEvent();
      }
    }

    /** One flow's turn: its new bookkeeping, whether it got a token, and else when it will be ready. */
    method VisitFlow(f: nat, now: int, closest: int) returns (sent: bool, closest': int, ghost v: Visit)
      requires f in flows && FlowOk(flows[f]) && !flows[f].finished
      modifies this`flows
      ensures f in flows && flows == old(flows)[f := flows[f]] && (flows[f], v) == Turn(old(flows)[f], params.flow, now)
      ensures FlowOk(flows[f]) && flows[f].src == old(flows)[f].src && flows[f].size == old(flows)[f].size
      ensures flows[f].finished == old(flows)[f].finished
      ensures sent == v.Sent? == !Waits(old(flows)[f], params.flow, now)
      ensures closest' == Sooner(v, closest)
      ensures !sent ==> closest' == if closest <= ReadyAt(flows[f], params.flow, now) then closest else ReadyAt(flows[f], params.flow, now)
    {
      TurnWaits(flows[f], params.flow, now);
      var (g, visit) := Turn(flows[f], params.flow, now);
      flows := flows[f := g];
      sent, v := visit.Sent?, visit;
      closest' := if visit.Blocked? && visit.until < closest then visit.until else closest;
    }

    /** A short flow just taken out of the queue has its turn. */
    method VisitTaken(f: nat, tried: seq<nat>, now: int, closest: int, ghost r: Round, ghost flows0: map<nat, Flow>, ghost active0: seq<nat>)
      returns (sent: bool, closest': int, ghost r': Round)
      requires MidRound(flows0, active0, flows, activeShortFlows, tried + [f], srcToFlows, params.tokenInitial)
      requires SoFar(flows0, r, flows, tried, closest, params.tokenInitial, params.flow, now) && r.to.None?
      requires f in flows && !flows[f].finished && flows0[f].size <= params.tokenInitial
      modifies this`flows
      ensures MidRound(flows0, active0, flows, activeShortFlows, tried + [f], srcToFlows, params.tokenInitial)
      ensures SoFar(flows0, r', flows, tried + [f], closest', params.tokenInitial, params.flow, now)
      ensures r'.to == (if sent then Some(f) else None) && r'.large == r.large && r'.turn == r.turn
    {
      ghost var before := flows;
      ghost var v;
      sent, closest', v := VisitFlow(f, now, closest);
      MidRoundTurn(flows0, active0, before, activeShortFlows, tried + [f], srcToFlows, params.tokenInitial, f, flows[f]);
      r' := ShortJoins(flows0, r, f, flows[f], v, params.tokenInitial, params.flow, now);
    }

    /** Some short flow, if not finished, has its turn. */
    method ShortTurn(tried: seq<nat>, now: int, closest: int, ghost r: Round, ghost flows0: map<nat, Flow>, ghost active0: seq<nat>)
      returns (tried': seq<nat>, sent: bool, closest': int, ghost r': Round)
      requires MidRound(flows0, active0, flows, activeShortFlows, tried, srcToFlows, params.tokenInitial)
      requires SoFar(flows0, r, flows, tried, closest, params.tokenInitial, params.flow, now) && r.to.None?
      requires activeShortFlows != []
      modifies this`flows, this`activeShortFlows
      ensures MidRound(flows0, active0, flows, activeShortFlows, tried', srcToFlows, params.tokenInitial)
      ensures SoFar(flows0, r', flows, tried', closest', params.tokenInitial, params.flow, now)
      ensures (sent <==> r'.to.Some?) && r'.large == r.large && r'.turn == r.turn
      ensures |activeShortFlows| == old(|activeShortFlows|) - 1
    {
      var i :| 0 <= i < |activeShortFlows|;
      var f := activeShortFlows[i];
      tried', sent, closest', r' := tried, false, closest, r;
      MidRoundPop(flows0, active0, flows, activeShortFlows, tried, srcToFlows, params.tokenInitial, i);
      activeShortFlows := RemoveAt(activeShortFlows, i);
      if !flows[f].finished {
        tried' := tried + [f];
        sent, closest', r' := VisitTaken(f, tried, now, closest, r, flows0, active0);
      }
    }

    /** The granted source's flow has its turn. */
    method VisitLarge(f: nat, tried: seq<nat>, now: int, closest: int, ghost r: Round, ghost flows0: map<nat, Flow>, ghost active0: seq<nat>)
      returns (sent: bool, closest': int, ghost r': Round)
      requires MidRound(flows0, active0, flows, activeShortFlows, tried, srcToFlows, params.tokenInitial)
      requires SoFar(flows0, r, flows, tried, closest, params.tokenInitial, params.flow, now) && r.to.None? && r.turn.None?
      requires f in flows && !flows[f].finished && flows0[f].size > params.tokenInitial
      modifies this`flows
      ensures MidRound(flows0, active0, flows, activeShortFlows, tried, srcToFlows, params.tokenInitial)
      ensures SoFar(flows0, r', flows, tried, closest', params.tokenInitial, params.flow, now)
      ensures r'.large == Some(f) && r'.to == (if sent then Some(f) else None) && r'.turn == Some(TurnOf(flows[f], sent, now))
      ensures flows[f].src == old(flows)[f].src
    {
      ghost var before := flows;
      ghost var v;
      sent, closest', v := VisitFlow(f, now, closest);
      MidRoundTurn(flows0, active0, before, activeShortFlows, tried, srcToFlows, params.tokenInitial, f, flows[f]);
      r' := LargeJoins(flows0, r, f, flows[f], v, params.tokenInitial, params.flow, now);
    }

    /** The grant is charged, or given back, as its flow's turn asks for. */
    method LongFlowTurn(f: nat, tried: seq<nat>, now: int, closest: int, srcs: seq<nat>,
                        ghost r: Round, ghost flows0: map<nat, Flow>, ghost active0: seq<nat>)
      returns (sent: bool, closest': int, msg: Option<ListSrcs>, ghost r': Round)
      requires MidRound(flows0, active0, flows, activeShortFlows, tried, srcToFlows, params.tokenInitial)
      requires SoFar(flows0, r, flows, tried, closest, params.tokenInitial, params.flow, now) && r.to.None? && r.turn.None?
      requires NoRetryWhileOwed() && f in flows && !flows[f].finished && flows0[f].size > params.tokenInitial
      requires gosrcInfo.src == Some(flows[f].src) && gosrcInfo.remainTokens > 0
      modifies this`flows, this`gosrcInfo, this`wakeupEvt, this`nextEvt, this`liveWakeups, this`issued
      ensures MidRound(flows0, active0, flows, activeShortFlows, tried, srcToFlows, params.tokenInitial)
      ensures SoFar(flows0, r', flows, tried, closest', params.tokenInitial, params.flow, now)
      ensures r'.large == Some(f) && r'.to == if sent then Some(f) else None
      ensures (State(), msg) == VisitLong(old(State()), r'.turn.value, params.nrtsGap, srcs)
    {
      sent, closest', r' := VisitLarge(f, tried, now, closest, r, flows0, active0);
      msg := VisitLongFlow(flows[f].src, LongTurn(sent, flows[f].redundancy > now, flows[f].Work()), srcs);
    }

    /** The next turn goes to a short flow or, once, to the granted source's flow. */
    method NextTurn(todo: Option<nat>, tried: seq<nat>, now: int, closest: int, srcs: seq<nat>,
                    ghost r: Round, ghost flows0: map<nat, Flow>, ghost active0: seq<nat>)
      returns (todo': Option<nat>, tried': seq<nat>, sent: bool, closest': int, msg: Option<ListSrcs>, ghost r': Round)
      requires MidRound(flows0, active0, flows, activeShortFlows, tried, srcToFlows, params.tokenInitial)
      requires SoFar(flows0, r, flows, tried, closest, params.tokenInitial, params.flow, now) && r.to.None?
      requires activeShortFlows != [] || todo.Some?
      requires todo.Some? ==> todo.value in flows && !flows[todo.value].finished && flows0[todo.value].size > params.tokenInitial
      requires todo.Some? ==> NoRetryWhileOwed() && r.turn.None? && gosrcInfo.src == Some(flows[todo.value].src) && gosrcInfo.remainTokens > 0
      modifies this`flows, this`activeShortFlows
      modifies this`gosrcInfo, this`wakeupEvt, this`nextEvt, this`liveWakeups, this`issued
      ensures MidRound(flows0, active0, flows, activeShortFlows, tried', srcToFlows, params.tokenInitial)
      ensures SoFar(flows0, r', flows, tried', closest', params.tokenInitial, params.flow, now) && (sent <==> r'.to.Some?)
      ensures if todo' == todo
              then r'.turn == r.turn && r'.large == r.large && msg.None? && State() == old(State()) && |activeShortFlows| < old(|activeShortFlows|)
              else todo'.None? && r'.large == todo && (State(), msg) == VisitLong(old(State()), r'.turn.value, params.nrtsGap, srcs)
                   && |activeShortFlows| <= old(|activeShortFlows|)
    {
      todo', tried', msg := todo, tried, None;
      var shortFirst: bool := *;
      if activeShortFlows != [] && (todo.None? || shortFirst) {
        tried', sent, closest', r' := ShortTurn(tried, now, closest, r, flows0, active0);
      } else {
        sent, closest', msg, r' := LongFlowTurn(todo.value, tried, now, closest, srcs, r, flows0, active0);
        todo' := None;
      }
    }

    /**
     The loop: short flows and at most one long flow take turns until one gets a token or none is
     left.  Popped flows go back unless they are finished.
     */
    method TokenLoop(large: Option<nat>, hold: bool, now: int, srcs: seq<nat>)
      returns (sent: bool, closest: int, msg: Option<ListSrcs>, ghost r: Round)
      requires NoRetryWhileOwed() && QueuesOk(flows, activeShortFlows, srcToFlows, params.tokenInitial)
      requires large.Some? ==> large.value in flows && !flows[large.value].finished && flows[large.value].size > params.tokenInitial
      requires large.Some? ==> gosrcInfo.src == Some(flows[large.value].src) && gosrcInfo.remainTokens > 0
      modifies this`flows, this`activeShortFlows
      modifies this`gosrcInfo, this`wakeupEvt, this`nextEvt, this`liveWakeups, this`issued
      ensures QueuesOk(flows, activeShortFlows, srcToFlows, params.tokenInitial)
      ensures DropsOnlyFinished(old(flows), multiset(old(activeShortFlows)), multiset(activeShortFlows))
      ensures RoundOk(old(flows), hold, r, params.tokenInitial, params.flow, now)
      ensures (r.flows, r.shorts, r.large, r.closest) == (flows, activeShortFlows, large, closest)
      ensures (State(), msg) == if r.turn.Some? then VisitLong(old(State()), r.turn.value, params.nrtsGap, srcs) else (old(State()), None)
      ensures sent <==> hold || r.to.Some?
    {
      if hold {
        sent, closest, msg, r := true, HORIZON, None, Round(flows, activeShortFlows, large, None, None, HORIZON);
        RoundStarts(flows, true, activeShortFlows, large, params.tokenInitial, params.flow, now);
        return;
      }
      sent, closest, msg, r := TakeTurns(large, now, srcs);
    }

    method TakeTurns(large: Option<nat>, now: int, srcs: seq<nat>) returns (sent: bool, closest: int, msg: Option<ListSrcs>, ghost r: Round)
      requires NoRetryWhileOwed() && QueuesOk(flows, activeShortFlows, srcToFlows, params.tokenInitial)
      requires large.Some? ==> large.value in flows && !flows[large.value].finished && flows[large.value].size > params.tokenInitial
      requires large.Some? ==> gosrcInfo.src == Some(flows[large.value].src) && gosrcInfo.remainTokens > 0
      modifies this`flows, this`activeShortFlows
      modifies this`gosrcInfo, this`wakeupEvt, this`nextEvt, this`liveWakeups, this`issued
      ensures QueuesOk(flows, activeShortFlows, srcToFlows, params.tokenInitial)
      ensures DropsOnlyFinished(old(flows), multiset(old(activeShortFlows)), multiset(activeShortFlows))
      ensures RoundOk(old(flows), false, r, params.tokenInitial, params.flow, now)
      ensures (r.flows, r.shorts, r.large, r.closest) == (flows, activeShortFlows, large, closest)
      ensures (State(), msg) == if r.turn.Some? then VisitLong(old(State()), r.turn.value, params.nrtsGap, srcs) else (old(State()), None)
      ensures sent <==> r.to.Some?
    {
      ghost var fired, flows0, active0 := State(), flows, activeShortFlows;
      sent, closest, msg := false, HORIZON, None;
      var tried: seq<nat>, todo := [], large;
      r := Round(flows, [], None, None, None, HORIZON);
      MidRoundStarts(flows, activeShortFlows, srcToFlows, params.tokenInitial);
      RoundStarts(flows, false, [], None, params.tokenInitial, params.flow, now);
      while !sent && (activeShortFlows != [] || todo.Some?)
        invariant MidRound(flows0, active0, flows, activeShortFlows, tried, srcToFlows, params.tokenInitial)
        invariant SoFar(flows0, r, flows, tried, closest, params.tokenInitial, params.flow, now) && (sent <==> r.to.Some?)
        invariant if todo.Some? then todo == large && r.turn.None? else r.large == large
        invariant (State(), msg) == if r.turn.Some? then VisitLong(fired, r.turn.value, params.nrtsGap, srcs) else (fired, None)
        decreases |activeShortFlows| + (if todo.Some? then 1 else 0)
      {
        var m;
        todo, tried, sent, closest, m, r := NextTurn(todo, tried, now, closest, srcs, r, flows0, active0);
        if m.Some? {
          msg := m;
        }
      }
      MidRoundEnds(flows0, active0, flows, activeShortFlows, tried, srcToFlows, params.tokenInitial);
      activeShortFlows := activeShortFlows + tried;
      RoundEnds(flows0, r, activeShortFlows, large, params.tokenInitial, params.flow, now);
      r := r.(shorts := activeShortFlows, large := large);
    }

    /** The flow a grant is used for, if any. */
    method GrantedFlow(now: int) returns (large: Option<nat>)
      requires QueuesOk(flows, activeShortFlows, srcToFlows, params.tokenInitial) && NoneEmpty(srcToFlows)
      modifies this`srcToFlows
      ensures QueuesOk(flows, activeShortFlows, srcToFlows, params.tokenInitial) && NoneEmpty(srcToFlows)
      ensures large.Some? <==> gosrcInfo.src.Some? && HasReady(flows, QueueOf(old(srcToFlows), gosrcInfo.src.value), now)
      ensures large.Some? ==> large.value in flows && flows[large.value].size > params.tokenInitial
      ensures large.Some? ==> Ready(flows[large.value], now) && gosrcInfo.src == Some(flows[large.value].src)
    {
      large := None;
      if gosrcInfo.src.Some? {
        large := GetTopUnfinishFlow(gosrcInfo.src.value, now);
      }
    }

    method ScheduleNext(sent: bool, closest: int, now: int)
      requires tokenSendEvt.None? && (!sent && closest < HORIZON ==> now < closest)
      modifies this`tokenSendEvt, this`nextEvt, this`liveTokens
      ensures State() == if sent then ScheduleToken(old(State()), false)
                         else if closest < HORIZON then ScheduleToken(old(State()), true) else old(State())
    {
      if sent {
        ScheduleTokenProcEvt(false);
      } else if closest < HORIZON {
        assert now < closest;
        ScheduleTokenProcEvt(true);
      }
    }

    /** One round of turns, with the flow the grant is used for among those that have one. */
    method TurnRound(hold: bool, now: int, srcs: seq<nat>) returns (sent: bool, closest: int, msg: Option<ListSrcs>, ghost r: Round)
      requires NoRetryWhileOwed() && QueuesOk(flows, activeShortFlows, srcToFlows, params.tokenInitial) && NoneEmpty(srcToFlows)
      requires gosrcInfo.src.Some? ==> gosrcInfo.remainTokens > 0
      modifies this`flows, this`activeShortFlows, this`srcToFlows
      modifies this`gosrcInfo, this`wakeupEvt, this`nextEvt, this`liveWakeups, this`issued
      ensures QueuesOk(flows, activeShortFlows, srcToFlows, params.tokenInitial) && NoneEmpty(srcToFlows)
      ensures DropsOnlyFinished(old(flows), multiset(old(activeShortFlows)), multiset(activeShortFlows))
      ensures RoundOk(old(flows), hold, r, params.tokenInitial, params.flow, now)
      ensures (r.flows, r.shorts, r.closest) == (flows, activeShortFlows, closest)
      ensures LargeChosen(old(gosrcInfo), old(flows), old(srcToFlows), r.large, now)
      ensures (State(), msg) == if r.turn.Some? then VisitLong(old(State()), r.turn.value, params.nrtsGap, srcs) else (old(State()), None)
      ensures sent <==> hold || r.to.Some?
    {
      var granted := GrantedFlow(now);
      sent, closest, msg, r := TokenLoop(granted, hold, now, srcs);
    }

    method FireToken(evt: nat, now: int, srcs: seq<nat>)
      returns (closest: int, msg: Option<ListSrcs>, ghost input: Input, ghost r: Round)
      requires Valid() && evt in liveTokens
      modifies this
      ensures QueuesOk(flows, activeShortFlows, srcToFlows, params.tokenInitial) && NoneEmpty(srcToFlows)
      ensures DropsOnlyFinished(old(flows), multiset(old(activeShortFlows)), multiset(activeShortFlows))
      ensures RoundOk(old(flows), old(holdOn) > 0, r, params.tokenInitial, params.flow, now)
      ensures (r.flows, r.shorts, r.closest) == (flows, activeShortFlows, closest)
      ensures LargeChosen(old(gosrcInfo), old(flows), old(srcToFlows), r.large, now)
      ensures input == TokenFires(evt, r.turn, old(holdOn) > 0 || r.to.Some?, closest < HORIZON, srcs)
      ensures Enabled(old(State()), input) && (State(), msg) == Handle(old(State()), input, params.nrtsGap)
      ensures holdOn == if old(holdOn) > 0 then old(holdOn) - 1 else 0
      ensures !input.sent && input.blocked ==> now < closest
    {
      TokenPreconditions(State(), evt);
      tokenSendEvt, liveTokens := None, liveTokens - {evt};
      var hold := holdOn > 0;
      if hold {
        holdOn := holdOn - 1;
      }
      var sent;
      sent, closest, msg, r := TurnRound(hold, now, srcs);
      if !sent && closest < HORIZON {
        WakesLater(flows, activeShortFlows, r.large, params.flow, now, closest);
      }
      ScheduleNext(sent, closest, now);
      input := TokenFires(evt, r.turn, sent, closest < HORIZON, srcs);
    }

    /**
     The token event: at most one token, to a flow that need not wait.  If none was sent, the short
     flows left and the granted source's flow all wait, and the next event is set for the moment the
     first of them is ready, which lies in the future.  What the grant is charged is that flow's turn.
     */
    method SendTokenEvt(evt: nat, now: int, srcs: seq<nat>)
      returns (closest: int, msg: Option<ListSrcs>, ghost input: Input, ghost r: Round)
      requires Valid() && evt in liveTokens
      modifies this
      ensures Valid()
      ensures DropsOnlyFinished(old(flows), multiset(old(activeShortFlows)), multiset(activeShortFlows))
      ensures RoundOk(old(flows), old(holdOn) > 0, r, params.tokenInitial, params.flow, now)
      ensures (r.flows, r.shorts, r.closest) == (flows, activeShortFlows, closest)
      ensures OneToken(old(flows), flows, r.to) && (1 <= params.flow.window && GapsOk(old(flows)) ==> GapsOk(flows))
      ensures LargeChosen(old(gosrcInfo), old(flows), old(srcToFlows), r.large, now)
      ensures input == TokenFires(evt, r.turn, old(holdOn) > 0 || r.to.Some?, closest < HORIZON, srcs)
      ensures Enabled(old(State()), input) && (State(), msg) == Handle(old(State()), input, params.nrtsGap)
      ensures holdOn == if old(holdOn) > 0 then old(holdOn) - 1 else 0
      ensures !input.sent && input.blocked ==> now < closest
    {
      ghost var before, flows0 := State(), flows;
      closest, msg, input, r := FireToken(evt, now, srcs);
      HandleKeepsReceiverOk(before, input, params.nrtsGap);
      TurnsIssueOne(flows0, flows, r.to, params.flow, now);
    }
  }

  lemma TokenPreconditions(h: Receiver, evt: nat)
    requires ReceiverOk(h) && evt in h.liveTokens
    ensures h.token.Some? && h.token.value.evt == evt && h.liveTokens - {evt} == {}
    ensures TimersOk(h.(token := None, liveTokens := h.liveTokens - {evt}))
    ensures h.grant.src.Some? ==> h.grant.remainTokens > 0
  {
  }
}
