/**
 The grant, timer and token-budget state machine of a Ranking receiver.  What the flow queues would
 answer (is there a flow worth asking for, which sources to list) enters each handler as an argument,
 so everything proved here holds for whatever flows the receiver has.
 */
module RankingReceiver {
  import opened Options

  /** The grant a receiver is working on; `sendNrts` says it was already given back. */
  datatype GoSrc = GoSrc(maxTokens: int, remainTokens: int, round: int, src: Option<nat>, sendNrts: bool) {
    /** Forgets the source but neither the round nor whether the grant was given back. */
    function Reset(): GoSrc {
      this.(maxTokens := -1, remainTokens := -1, src := None)
    }

    /** The receiver still owes the arbiter this grant. */
    predicate Owed() {
      src.Some? && !sendNrts
    }
  }

  /** A request to the arbiter; `nrts` names the source of a grant given back with it. */
  datatype ListSrcs = ListSrcs(dst: nat, srcs: seq<nat>, nrts: Option<nat>)

  datatype TokenTimer = TokenTimer(evt: nat, isTimeout: bool)

  datatype GrantRecord = GrantRecord(src: nat, maxTokens: int)

  datatype TokenRecord = TokenRecord(src: nat, round: int)

  /**
   `wakeup` and `token` are the host's event pointers; the live sets hold every event still in the
   event queue that was not cancelled.  `history` lists the grants accepted and `issued` the tokens
   sent for long flows, both from the start of the run.
   */
  datatype Receiver = Receiver(
    id: nat, grant: GoSrc, wakeup: Option<nat>, token: Option<TokenTimer>,
    liveWakeups: set<nat>, liveTokens: set<nat>, nextEvt: nat,
    history: seq<GrantRecord>, issued: seq<TokenRecord>)

  function NewReceiver(id: nat): Receiver {
    Receiver(id, GoSrc(-1, -1, 0, None, false), None, None, {}, {}, 0, [], [])
  }

  // ---- Timers ----

  function ScheduleWakeup(h: Receiver): Receiver {
    h.(wakeup := Some(h.nextEvt), liveWakeups := h.liveWakeups + {h.nextEvt}, nextEvt := h.nextEvt + 1)
  }

  function CancelWakeup(h: Receiver): Receiver {
    if h.wakeup.Some? then h.(wakeup := None, liveWakeups := h.liveWakeups - {h.wakeup.value}) else h
  }

  function ScheduleToken(h: Receiver, isTimeout: bool): Receiver {
    h.(token := Some(TokenTimer(h.nextEvt, isTimeout)), liveTokens := h.liveTokens + {h.nextEvt}, nextEvt := h.nextEvt + 1)
  }

  /** A pending retry is dropped, and a token event scheduled unless one is pending. */
  function RestartTokens(h: Receiver): Receiver {
    var g := if h.token.Some? && h.token.value.isTimeout
             then h.(token := None, liveTokens := h.liveTokens - {h.token.value.evt}) else h;
    if g.token.None? then ScheduleToken(g, false) else g
  }

  // ---- Handlers ----

  /** Nothing is sent when there is nothing to list and nothing to give back. */
  function SendListSrcs(h: Receiver, nrts: Option<nat>, srcs: seq<nat>): (Receiver, Option<ListSrcs>) {
    if srcs == [] && nrts.None? then (h, None)
    else (if nrts.Some? then h.(grant := h.grant.(sendNrts := true)) else h, Some(ListSrcs(h.id, srcs, nrts)))
  }

  /** A long flow announces itself; `isTop` says it became its source's first choice. */
  function ReceiveRts(h: Receiver, src: nat, isTop: bool, srcs: seq<nat>): (Receiver, Option<ListSrcs>) {
    if h.grant.src.Some? then
      (if h.grant.src.value == src && isTop then RestartTokens(h) else h, None)
    else
      var (g, msg) := SendListSrcs(h, None, srcs);
      (ScheduleWakeup(CancelWakeup(g)), msg)
  }

  /** `best` says some unfinished flow of the granted source is ready for tokens. */
  function ReceiveGosrc(h: Receiver, src: nat, maxTokens: int, best: bool, srcs: seq<nat>): (Receiver, Option<ListSrcs>) {
    if !best then
      var (g, msg) := SendListSrcs(h, Some(src), srcs);
      var w := ScheduleWakeup(CancelWakeup(g));
      (w.(grant := w.grant.Reset()), msg)
    else
      var g := h.(grant := GoSrc(maxTokens, maxTokens, h.grant.round + 1, Some(src), false),
                  history := h.history + [GrantRecord(src, maxTokens)]);
      (RestartTokens(CancelWakeup(g)), None)
  }

  /** A long flow from `src` is complete; `round` is the grant its last packet was sent under. */
  function FlowFinish(h: Receiver, src: nat, round: int, best: bool, srcs: seq<nat>): (Receiver, Option<ListSrcs>) {
    if h.grant.round == round then (h.(grant := h.grant.Reset()), None)
    else if h.grant.src == Some(src) && !best then
      if !h.grant.sendNrts then
        var (g, msg) := SendListSrcs(h, Some(src), srcs);
        var w := ScheduleWakeup(g);
        (w.(grant := w.grant.Reset()), msg)
      else (h.(grant := h.grant.Reset()), None)
    else (h, None)
  }

  /** `more` says some source still has flows queued. */
  function Wakeup(h: Receiver, evt: nat, srcs: seq<nat>, more: bool): (Receiver, Option<ListSrcs>) {
    var fired := h.(wakeup := None, liveWakeups := h.liveWakeups - {evt});
    var (g, msg) := SendListSrcs(fired, None, srcs);
    (if more then ScheduleWakeup(g) else g, msg)
  }

  /**
   How the token loop left the granted source's flow: a token was sent, it waits on its redundancy
   timer, and how many packets it still wants.
   */
  datatype LongTurn = LongTurn(sent: bool, waiting: bool, work: int)

  /** One long-flow token is charged to the grant, which ends with its last token. */
  function Charge(h: Receiver): Receiver
    requires h.grant.src.Some?
  {
    var g := h.grant.(remainTokens := h.grant.remainTokens - 1);
    h.(grant := if g.remainTokens == 0 then g.Reset() else g,
       issued := h.issued + [TokenRecord(h.grant.src.value, h.grant.round)])
  }

  function Gap(h: Receiver, work: int): int {
    if h.grant.remainTokens > work then work else h.grant.remainTokens
  }

  /** `nrtsGap` is how many packets fit in the time it takes to get the next grant. */
  function VisitLong(h: Receiver, t: LongTurn, nrtsGap: nat, srcs: seq<nat>): (Receiver, Option<ListSrcs>)
    requires h.grant.src.Some?
  {
    var g := if t.sent then Charge(h) else h;
    if (t.waiting || Gap(g, t.work) <= nrtsGap) && !g.grant.sendNrts then
      var (w, msg) := SendListSrcs(g, Some(h.grant.src.value), srcs);
      (ScheduleWakeup(w), msg)
    else (g, None)
  }

  /** The token event: at most one visit to a long flow, then the timer for the next event. */
  function SendToken(h: Receiver, evt: nat, turn: Option<LongTurn>, sent: bool, blocked: bool, nrtsGap: nat, srcs: seq<nat>)
    : (Receiver, Option<ListSrcs>)
    requires turn.Some? ==> h.grant.src.Some?
  {
    var fired := h.(token := None, liveTokens := h.liveTokens - {evt});
    var (g, msg) := if turn.Some? then VisitLong(fired, turn.value, nrtsGap, srcs) else (fired, None);
    (if sent then ScheduleToken(g, false) else if blocked then ScheduleToken(g, true) else g, msg)
  }

  /** Everything that can happen to a receiver. */
  datatype Input =
    | Rts(src: nat, isTop: bool, srcs: seq<nat>)
    | TokensWanted
    | Gosrc(src: nat, maxTokens: int, best: bool, srcs: seq<nat>)
    | Finish(src: nat, round: int, best: bool, srcs: seq<nat>)
    | WakeupFires(evt: nat, srcs: seq<nat>, more: bool)
    | TokenFires(evt: nat, turn: Option<LongTurn>, sent: bool, blocked: bool, srcs: seq<nat>)

  /**
   Events fire only while live, tokens go to a granted source only, a grant carries tokens, and a long
   flow's data packets answer tokens, so that they name a round one was sent in.
   */
  predicate Enabled(h: Receiver, i: Input) {
    match i
    case Gosrc(_, maxTokens, _, _) => 0 < maxTokens
    case Finish(src, round, _, _) => TokenRecord(src, round) in h.issued
    case WakeupFires(evt, _, _) => evt in h.liveWakeups
    case TokenFires(evt, turn, sent, _, _) => evt in h.liveTokens && (turn.Some? ==> h.grant.src.Some?)
    case _ => true
  }

  function Handle(h: Receiver, i: Input, nrtsGap: nat): (Receiver, Option<ListSrcs>)
    requires Enabled(h, i)
  {
    match i
    case Rts(src, isTop, srcs) => ReceiveRts(h, src, isTop, srcs)
    case TokensWanted => (RestartTokens(h), None)
    case Gosrc(src, maxTokens, best, srcs) => ReceiveGosrc(h, src, maxTokens, best, srcs)
    case Finish(src, round, best, srcs) => FlowFinish(h, src, round, best, srcs)
    case WakeupFires(evt, srcs, more) => Wakeup(h, evt, srcs, more)
    case TokenFires(evt, turn, sent, blocked, srcs) => SendToken(h, evt, turn, sent, blocked, nrtsGap, srcs)
  }

  // ---- What every handler keeps ----

  function CountRound(issued: seq<TokenRecord>, round: int): nat {
    if issued == [] then 0
    else CountRound(issued[..|issued| - 1], round) + if issued[|issued| - 1].round == round then 1 else 0
  }

  /** Each pointer names the one live event of its kind; a receiver that owes a grant has no wakeup. */
  ghost predicate TimersOk(h: Receiver) {
    && h.liveWakeups == (if h.wakeup.Some? then {h.wakeup.value} else {})
    && h.liveTokens == (if h.token.Some? then {h.token.value.evt} else {})
    && (h.grant.Owed() ==> h.wakeup.None?)
  }

  /** Tokens of a round all went to that round's source, within that round's budget. */
  ghost predicate BudgetOk(h: Receiver) {
    && h.grant.round == |h.history|
    && (forall i | 0 <= i < |h.issued| ::
          1 <= h.issued[i].round <= |h.history| && h.issued[i].src == h.history[h.issued[i].round - 1].src)
    && (forall r | 1 <= r <= |h.history| :: CountRound(h.issued, r) <= h.history[r - 1].maxTokens)
    && (h.grant.src.None? ==> h.grant.remainTokens == -1 && h.grant.maxTokens == -1)
    && (h.grant.src.Some? ==>
          && 1 <= |h.history|
          && h.history[|h.history| - 1] == GrantRecord(h.grant.src.value, h.grant.maxTokens)
          && 0 < h.grant.remainTokens
          && h.grant.remainTokens + CountRound(h.issued, h.grant.round) == h.grant.maxTokens)
  }

  ghost predicate ReceiverOk(h: Receiver) {
    TimersOk(h) && BudgetOk(h)
  }

  /** The assertions the source makes along the path an input takes. */
  ghost predicate AssertionsHold(h: Receiver, i: Input, nrtsGap: nat)
    requires Enabled(h, i)
  {
    match i
    case Finish(src, round, best, _) =>
      h.grant.round != round && h.grant.src == Some(src) && !best && !h.grant.sendNrts ==> h.wakeup.None?
    case WakeupFires(evt, _, _) => h.wakeup == Some(evt)
    case TokenFires(evt, turn, _, _, srcs) =>
      && h.token.Some? && h.token.value.evt == evt
      && (turn.Some? && turn.value.sent ==> h.grant.remainTokens > 0)
      && (turn.Some? && VisitLong(h, turn.value, nrtsGap, srcs).1.Some? ==> h.wakeup.None?)
    case _ => true
  }

  lemma NoAssertionFires(h: Receiver, i: Input, nrtsGap: nat)
    requires ReceiverOk(h) && Enabled(h, i)
    ensures AssertionsHold(h, i, nrtsGap)
  {
  }

  lemma {:induction false} CountAbsent(issued: seq<TokenRecord>, round: int)
    requires forall i | 0 <= i < |issued| :: issued[i].round < round
    ensures CountRound(issued, round) == 0
  {
    if issued != [] {
      CountAbsent(issued[..|issued| - 1], round);
    }
  }

  lemma ChargeKeepsBudget(h: Receiver)
    requires BudgetOk(h) && h.grant.src.Some?
    ensures BudgetOk(Charge(h))
  {
    var g := Charge(h);
    assert g.issued[..|g.issued| - 1] == h.issued;
    assert forall r :: CountRound(g.issued, r) == CountRound(h.issued, r) + if r == h.grant.round then 1 else 0;
  }

  lemma TokenFiresKeepsTimers(h: Receiver, i: Input, nrtsGap: nat)
    requires ReceiverOk(h) && Enabled(h, i) && i.TokenFires?
    ensures TimersOk(Handle(h, i, nrtsGap).0)
  {
  }

  lemma HandleKeepsTimers(h: Receiver, i: Input, nrtsGap: nat)
    requires ReceiverOk(h) && Enabled(h, i)
    ensures TimersOk(Handle(h, i, nrtsGap).0)
  {
    if i.TokenFires? {
      TokenFiresKeepsTimers(h, i, nrtsGap);
    } else {
      OthersKeepTimers(h, i, nrtsGap);
    }
  }

  lemma OthersKeepTimers(h: Receiver, i: Input, nrtsGap: nat)
    requires ReceiverOk(h) && Enabled(h, i) && !i.TokenFires?
    ensures TimersOk(Handle(h, i, nrtsGap).0)
  {
  }

  /** The budget does not look at the timers. */
  lemma BudgetIgnoresTimers(h: Receiver, g: Receiver)
    requires BudgetOk(h) && g.history == h.history && g.issued == h.issued
    requires g.grant == h.grant || g.grant == h.grant.(sendNrts := true)
          || g.grant == h.grant.Reset() || g.grant == h.grant.(sendNrts := true).Reset()
    ensures BudgetOk(g)
  {
  }

  lemma FreshGrantKeepsBudget(h: Receiver, src: nat, maxTokens: int)
    requires BudgetOk(h) && 0 < maxTokens
    ensures BudgetOk(h.(grant := GoSrc(maxTokens, maxTokens, h.grant.round + 1, Some(src), false),
                        history := h.history + [GrantRecord(src, maxTokens)]))
  {
    CountAbsent(h.issued, h.grant.round + 1);
  }

  lemma GosrcKeepsBudget(h: Receiver, src: nat, maxTokens: int, srcs: seq<nat>)
    requires BudgetOk(h) && 0 < maxTokens
    ensures BudgetOk(ReceiveGosrc(h, src, maxTokens, true, srcs).0)
  {
    var g := h.(grant := GoSrc(maxTokens, maxTokens, h.grant.round + 1, Some(src), false),
                history := h.history + [GrantRecord(src, maxTokens)]);
    FreshGrantKeepsBudget(h, src, maxTokens);
    BudgetIgnoresTimers(g, ReceiveGosrc(h, src, maxTokens, true, srcs).0);
  }

  lemma TokenFiresKeepsBudget(h: Receiver, i: Input, nrtsGap: nat)
    requires ReceiverOk(h) && Enabled(h, i) && i.TokenFires?
    ensures BudgetOk(Handle(h, i, nrtsGap).0)
  {
    var g := Handle(h, i, nrtsGap).0;
    var fired := h.(token := None, liveTokens := h.liveTokens - {i.evt});
    if i.turn.Some? && i.turn.value.sent {
      ChargeKeepsBudget(fired);
      BudgetIgnoresTimers(Charge(fired), g);
    } else {
      BudgetIgnoresTimers(h, g);
    }
  }

  lemma HandleKeepsBudget(h: Receiver, i: Input, nrtsGap: nat)
    requires ReceiverOk(h) && Enabled(h, i)
    ensures BudgetOk(Handle(h, i, nrtsGap).0)
  {
    match i
    case Gosrc(src, maxTokens, best, srcs) =>
      if best {
        GosrcKeepsBudget(h, src, maxTokens, srcs);
      } else {
        BudgetIgnoresTimers(h, Handle(h, i, nrtsGap).0);
      }
    case TokenFires(_, _, _, _, _) =>
      TokenFiresKeepsBudget(h, i, nrtsGap);
    case _ =>
      BudgetIgnoresTimers(h, Handle(h, i, nrtsGap).0);
  }

  /** No run of a receiver can leave the good states: timers, budget and rounds all stay consistent. */
  lemma HandleKeepsReceiverOk(h: Receiver, i: Input, nrtsGap: nat)
    requires ReceiverOk(h) && Enabled(h, i)
    ensures ReceiverOk(Handle(h, i, nrtsGap).0)
  {
    HandleKeepsTimers(h, i, nrtsGap);
    HandleKeepsBudget(h, i, nrtsGap);
  }

  /** Two tokens of the same round went to the same source: no two grants share a round. */
  lemma RoundNamesOneGrant(h: Receiver, i: nat, j: nat)
    requires ReceiverOk(h) && i < |h.issued| && j < |h.issued| && h.issued[i].round == h.issued[j].round
    ensures h.issued[i].src == h.issued[j].src
  {
  }

  /** Tokens sent stay on record, and one sent to the granted source is put there. */
  lemma HandleKeepsIssued(h: Receiver, i: Input, nrtsGap: nat)
    requires Enabled(h, i)
    ensures forall t | t in h.issued :: t in Handle(h, i, nrtsGap).0.issued
    ensures i.TokenFires? && i.turn.Some? && i.turn.value.sent ==>
              TokenRecord(h.grant.src.value, h.grant.round) in Handle(h, i, nrtsGap).0.issued
  {
  }

  // ---- What a handler does to the grant ----

  /** The pair a receiver still owes the arbiter. */
  function Owes(h: Receiver): Option<nat> {
    if h.grant.Owed() then h.grant.src else None
  }

  /**
   A grant is either kept, given back with the request sent, or forgotten; nothing else is ever given
   back, except a fresh grant the receiver has no use for.
   */
  lemma GrantEffect(h: Receiver, i: Input, nrtsGap: nat)
    requires Enabled(h, i)
    ensures var (g, msg) := Handle(h, i, nrtsGap);
            var back := if msg.Some? then msg.value.nrts else None;
            && g.id == h.id && (msg.Some? ==> msg.value.dst == h.id)
            && (if i.Gosrc? then
                  if i.best then Owes(g) == Some(i.src) && back.None? else Owes(g).None? && back == Some(i.src)
                else
                  || (Owes(g) == Owes(h) && back.None?)
                  || (Owes(g).None? && Owes(h).Some? && back == Owes(h))
                  || (Owes(g).None? && back.None?))
  {
  }

  /** The one handler that forgets a grant without giving it back, and exactly when. */
  lemma ForgetsExactlyWhen(h: Receiver, i: Input, nrtsGap: nat)
    requires ReceiverOk(h) && Enabled(h, i) && !i.Gosrc? && Owes(h).Some?
    ensures var (g, msg) := Handle(h, i, nrtsGap);
            (Owes(g).None? && (msg.None? || msg.value.nrts.None?)) <==> (i.Finish? && i.round == h.grant.round)
  {
  }

  // ---- What is sent, and what stays scheduled ----

  /** The tokens of the present grant not yet sent. */
  function TokensLeft(h: Receiver): int
    requires h.history != []
  {
    h.history[|h.history| - 1].maxTokens - CountRound(h.issued, |h.history|)
  }

  /**
   After its flow's turn a grant is still owed exactly if it was before, the flow need not wait, and
   both what it wants and what the grant has left take longer than the next grant; else it is given back.
   */
  lemma OwesAfterTurnExactlyWhen(h: Receiver, i: Input, nrtsGap: nat)
    requires ReceiverOk(h) && Enabled(h, i) && i.TokenFires? && i.turn.Some?
    ensures var (g, msg) := Handle(h, i, nrtsGap);
            && g.history == h.history != []
            && (Owes(g).Some? <==> Owes(h).Some? && !i.turn.value.waiting && i.turn.value.work > nrtsGap && TokensLeft(g) > nrtsGap)
            && (Owes(g).Some? ==> Owes(g) == Owes(h))
            && (Owes(h).Some? && Owes(g).None? ==> msg.Some? && msg.value.nrts == Owes(h))
  {
    VisitOwes(h.(token := None, liveTokens := h.liveTokens - {i.evt}), i.turn.value, nrtsGap, i.srcs);
  }

  lemma VisitOwes(h: Receiver, t: LongTurn, nrtsGap: nat, srcs: seq<nat>)
    requires BudgetOk(h) && h.grant.src.Some?
    ensures var (g, msg) := VisitLong(h, t, nrtsGap, srcs);
            && g.history == h.history != []
            && (Owes(g).Some? <==> Owes(h).Some? && !t.waiting && t.work > nrtsGap && TokensLeft(g) > nrtsGap)
            && (Owes(g).Some? ==> Owes(g) == Owes(h))
            && (Owes(h).Some? && Owes(g).None? ==> msg.Some? && msg.value.nrts == Owes(h))
  {
    if t.sent {
      ChargeCounts(h);
    }
  }

  lemma ChargeCounts(h: Receiver)
    requires BudgetOk(h) && h.grant.src.Some?
    ensures TokensLeft(Charge(h)) == h.grant.remainTokens - 1
  {
    assert Charge(h).issued[..|h.issued|] == h.issued;
  }

  /**
   A request goes out exactly when a grant is given back, or there is something to list and the
   receiver has no grant to work on or its retry has come.
   */
  lemma RequestsExactlyWhen(h: Receiver, i: Input, nrtsGap: nat)
    requires ReceiverOk(h) && Enabled(h, i)
    ensures var (g, msg) := Handle(h, i, nrtsGap);
            && (msg.Some? <==> || (Owes(h).Some? && Owes(g).None? && !(i.Finish? && i.round == h.grant.round) && !i.Gosrc?)
                               || (i.Gosrc? && !i.best)
                               || (i.WakeupFires? && i.srcs != [])
                               || (i.Rts? && h.grant.src.None? && i.srcs != []))
            && (msg.Some? ==> !i.TokensWanted? && msg.value.dst == h.id && msg.value.srcs == i.srcs)
  {
    if i.TokenFires? && i.turn.None? {
    } else if Owes(h).Some? && !i.Gosrc? {
      ForgetsExactlyWhen(h, i, nrtsGap);
    }
  }

  /**
   The token event is set again after a token at once, and else for when a flow is ready; a grant, a
   granted flow's request and data for it make it come at once.
   */
  lemma TokensGoOnExactlyWhen(h: Receiver, i: Input, nrtsGap: nat)
    requires ReceiverOk(h) && Enabled(h, i)
    ensures var g := Handle(h, i, nrtsGap).0;
            if i.TokenFires? then (g.token.Some? <==> i.sent || i.blocked) && (g.token.Some? ==> g.token.value.isTimeout == !i.sent)
            else if i.TokensWanted? || (i.Gosrc? && i.best) || (i.Rts? && i.isTop && h.grant.src == Some(i.src)) then
              g.token.Some? && !g.token.value.isTimeout
            else g.token == h.token
  {
  }

  /**
   The receiver works on a grant until its last token is sent, a packet of its round completes a flow,
   or its own flow completes with no other ready; a grant it has no use for ends the one before too.
   */
  lemma WorksOnGrantExactlyWhen(h: Receiver, i: Input, nrtsGap: nat)
    requires ReceiverOk(h) && Enabled(h, i)
    ensures var g := Handle(h, i, nrtsGap).0;
            && (g.grant.src.Some? <==>
                  match i
                  case Gosrc(_, _, best, _) => best
                  case Finish(src, round, best, _) => h.grant.src.Some? && round != h.grant.round && (h.grant.src != Some(src) || best)
                  case TokenFires(_, turn, _, _, _) =>
                    h.grant.src.Some? && !(turn.Some? && turn.value.sent && h.grant.remainTokens == 1)
                  case _ => h.grant.src.Some?)
            && (g.grant.src.Some? ==> g.grant.src == if i.Gosrc? then Some(i.src) else h.grant.src)
  {
  }

  /** The wakeup is set again exactly when there is more to ask for. */
  lemma RetriesExactlyWhen(h: Receiver, i: Input, nrtsGap: nat)
    requires ReceiverOk(h) && Enabled(h, i) && i.WakeupFires?
    ensures Handle(h, i, nrtsGap).0.liveWakeups != {} <==> i.more
  {
  }

  // ---- How many tokens a grant in use keeps ----

  /** A grant that has been used and is still owed has more tokens left than fit before the next one. */
  ghost predicate Reserve(h: Receiver, nrtsGap: nat) {
    h.grant.Owed() && CountRound(h.issued, h.grant.round) > 0 ==> h.grant.remainTokens > nrtsGap
  }

  lemma {:induction false} IssuedCounts(issued: seq<TokenRecord>, t: TokenRecord)
    requires t in issued
    ensures CountRound(issued, t.round) > 0
  {
    var n := |issued| - 1;
    if issued[n] != t {
      assert t in issued[..n];
      IssuedCounts(issued[..n], t);
    }
  }

  lemma HandleKeepsReserve(h: Receiver, i: Input, nrtsGap: nat)
    requires ReceiverOk(h) && Enabled(h, i) && Reserve(h, nrtsGap)
    ensures Reserve(Handle(h, i, nrtsGap).0, nrtsGap)
  {
    if i.Gosrc? && i.best {
      CountAbsent(h.issued, h.grant.round + 1);
    } else if i.TokenFires? {
      TokenFiresKeepsReserve(h, i, nrtsGap);
    }
  }

  lemma TokenFiresKeepsReserve(h: Receiver, i: Input, nrtsGap: nat)
    requires ReceiverOk(h) && Enabled(h, i) && Reserve(h, nrtsGap) && i.TokenFires?
    ensures Reserve(Handle(h, i, nrtsGap).0, nrtsGap)
  {
  }

  /** Only a grant large enough to be used and kept can be forgotten. */
  lemma ForgottenGrantIsLarge(h: Receiver, i: Input, nrtsGap: nat)
    requires ReceiverOk(h) && Enabled(h, i) && Reserve(h, nrtsGap)
    requires i.Finish? && i.round == h.grant.round && Owes(h).Some?
    ensures h.grant.maxTokens > nrtsGap + 1
  {
    IssuedCounts(h.issued, TokenRecord(i.src, i.round));
  }
}
