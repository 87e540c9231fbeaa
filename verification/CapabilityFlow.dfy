/**
 Receiver-side bookkeeping of one Capability (pHost) flow.  It scans for missing packets and counts
 gaps as a Ranking flow does, but is issued capabilities against a goal: once the goal is reached
 nothing more goes out until the redundancy timer fires and raises it by what is still missing.
 */
module CapabilityFlow {
  import opened TokenFlow

  function NewCapabilityFlow(src: nat, size: nat, start: int): Flow {
    NewFlow(src, size).(latestSent := start)
  }

  function CapabilityGap(f: Flow): int {
    f.tokenCount - f.largestSeq
  }

  /** A short flow starts with all its capabilities, a long one with none. */
  function SetCount(f: Flow, initial: nat, now: nat, firstTimeout: nat): (r: Flow)
    requires f.Valid()
    ensures r.Valid()
  {
    if f.size <= initial then ReceiveShortFlow(f, now, firstTimeout)
    else
      var g := f.(tokenCount := 0, last := -1);
      if g.tokenCount == g.goal then g.(redundancy := now) else g
  }

  function Relaxed(f: Flow, p: Params, now: int): Flow {
    if CapabilityGap(f) > p.window && now >= f.latestSent + p.windowTimeout then RelaxGap(f, p) else f
  }

  function ArmedAtGoal(f: Flow, p: Params, now: int): Flow {
    if f.tokenCount == f.goal then f.(redundancy := now + p.resendTimeout) else f
  }

  /** One visit of the capability loop. */
  function CapabilityTurn(f: Flow, p: Params, now: int): (Flow, Visit)
    requires f.Valid() && f.Incomplete()
  {
    if f.redundancy > now then (f, Blocked(f.redundancy))
    else
      var g := Relaxed(Rearmed(f), p, now);
      if CapabilityGap(g) <= p.window then
        (ArmedAtGoal(IssueToken(g, now), p, now), Sent(NextSeq(g), g.tokenCount))
      else (g, Blocked(g.latestSent + p.windowTimeout))
  }

  // ---- What a visit and a request mean ----

  /** A visit has to wait for the redundancy timer, or for a full window's timeout. */
  predicate MustWait(f: Flow, p: Params, now: int) {
    f.redundancy > now || (f.tokenCount - f.largestSeq > p.window && now < f.latestSent + p.windowTimeout)
  }

  function ReadyMoment(f: Flow, p: Params, now: int): int {
    if f.redundancy > now then f.redundancy else f.latestSent + p.windowTimeout
  }

  /** A visit sends exactly when the flow need not wait, and it sends the next missing packet's capability. */
  lemma VisitSendsExactlyWhen(f: Flow, p: Params, now: int)
    requires f.Valid() && f.Incomplete()
    ensures var (g, v) := CapabilityTurn(f, p, now);
            && (v.Sent? <==> !MustWait(f, p, now))
            && (v.Blocked? ==> MustWait(g, p, now) && v.until == ReadyMoment(g, p, now) == ReadyMoment(f, p, now) > now)
            && (v.Sent? ==> v == Sent(NextSeq(f), f.tokenCount) && f.Missing(v.dataSeq) && g.last == v.dataSeq)
  {
    assert SamePackets(f, Relaxed(Rearmed(f), p, now));
  }

  /** A visit counts what it sends; one that finds the window full closes the gap to the window first. */
  lemma GapAfterVisit(f: Flow, p: Params, now: int)
    requires f.Valid() && f.Incomplete()
    ensures var (g, v) := CapabilityTurn(f, p, now);
            && g.tokenCount == f.tokenCount + (if v.Sent? then 1 else 0)
            && CapabilityGap(g) ==
                 if v.Blocked? then CapabilityGap(f) else if CapabilityGap(f) <= p.window then CapabilityGap(f) + 1 else p.window + 1
  {
  }

  /** A wait begins exactly with the capability that reaches the goal, and is as long as configured. */
  lemma WaitBeginsExactlyWhen(f: Flow, p: Params, now: int)
    requires f.Valid() && f.Incomplete() && 0 < p.resendTimeout && 0 <= now
    ensures var (g, v) := CapabilityTurn(f, p, now);
            && (g.redundancy > now <==> f.redundancy > now || (v.Sent? && g.tokenCount == g.goal))
            && (v.Sent? && g.redundancy > now ==> g.redundancy == now + p.resendTimeout)
  {
  }

  /**
   A timeout of a full window is worth one capability: while no data answers and the timer is not
   armed, the visit at the timeout sends and any further one waits for the next timeout.
   */
  lemma TimeoutIsWorthOne(f: Flow, p: Params, t0: int, t1: int)
    requires f.Valid() && f.Incomplete() && CapabilityGap(f) > p.window
    requires f.redundancy <= t0 && f.latestSent + p.windowTimeout <= t0
    requires CapabilityTurn(f, p, t0).0.redundancy <= t1 < t0 + p.windowTimeout
    ensures var (g, v) := CapabilityTurn(f, p, t0);
            v.Sent? && g.Valid() && g.Incomplete() && CapabilityTurn(g, p, t1).1 == Blocked(t0 + p.windowTimeout)
  {
    GapAfterVisit(f, p, t0);
    assert SamePackets(f, Relaxed(Rearmed(f), p, t0));
  }

  /**
   The first visit of a flow asked for: a short one has a capability for every packet already and
   waits for its answers, a long one is sent its first.
   */
  lemma FirstVisit(s: Start, p: Params, asked: nat, now: nat)
    requires 0 < s.size && 0 < s.firstTimeout
    ensures var f := SetCount(NewCapabilityFlow(s.src, s.size, s.time), s.initial, asked, s.firstTimeout);
            && f.tokenCount == (if s.size <= s.initial then s.size else 0)
            && CapabilityTurn(f, p, now).1 ==
                 if s.size <= s.initial && now < asked + s.firstTimeout then Blocked(asked + s.firstTimeout)
                 else if f.tokenCount < p.window || s.time + p.windowTimeout <= now then Sent(0, f.tokenCount)
                 else Blocked(s.time + p.windowTimeout)
  {
    WrapAround(if s.size <= s.initial then s.size else 0, s.size);
  }

  // ---- Whole runs of one flow ----

  datatype Event = Rts(now: nat) | DataIn(now: nat, dataSeq: nat, capabilitySeq: int) | Scheduled(now: nat)

  /** `raises` lists by how much each redundancy timeout so far raised the goal. */
  datatype Ledger = Ledger(flow: Flow, rtsReceived: bool, raises: seq<nat>)

  datatype Start = Start(src: nat, size: nat, time: nat, initial: nat, firstTimeout: nat)

  function First(s: Start): Ledger {
    Ledger(NewCapabilityFlow(s.src, s.size, s.time), false, [])
  }

  function Requested(h: Ledger, s: Start, now: nat): (r: Ledger)
    requires h.flow.Valid()
    ensures r.flow.Valid()
  {
    if h.rtsReceived then h else h.(flow := SetCount(h.flow, s.initial, now, s.firstTimeout), rtsReceived := true)
  }

  /** The loop only visits announced flows that are not finished. */
  function Step(h: Ledger, e: Event, s: Start, p: Params): Ledger
    requires h.flow.Valid()
  {
    match e
    case Rts(now) => Requested(h, s, now)
    case DataIn(now, d, c) =>
      var g := Requested(h, s, now);
      g.(flow := ReceiveData(g.flow, d, c))
    case Scheduled(now) =>
      if !h.rtsReceived || h.flow.finished || !h.flow.Incomplete() then h
      else h.(flow := CapabilityTurn(h.flow, p, now).0,
              raises := if 0 < h.flow.redundancy <= now then h.raises + [h.flow.RemainingPkts()] else h.raises)
  }

  function Sum(xs: seq<nat>): nat {
    if xs == [] then 0 else Sum(xs[..|xs| - 1]) + xs[|xs| - 1]
  }

  lemma SumAppend(xs: seq<nat>, x: nat)
    ensures Sum(xs + [x]) == Sum(xs) + x
  {
    assert (xs + [x])[..|xs|] == xs;
  }

  lemma {:induction false} SumBounded(xs: seq<nat>, most: nat)
    requires forall i | 0 <= i < |xs| :: xs[i] <= most
    ensures Sum(xs) <= |xs| * most
  {
    if xs != [] {
      SumBounded(xs[..|xs| - 1], most);
      assert |xs| * most == (|xs| - 1) * most + most;
    }
  }

  /** Never more capabilities than the goal, and at the goal the timer runs. */
  ghost predicate WithinGoal(f: Flow) {
    && 0 <= f.tokenCount <= f.goal && -1 <= f.largestSeq
    && (f.tokenCount == f.goal ==> f.redundancy > 0)
    && f.largestSeq <= f.tokenCount
  }

  /** The goal is the size plus every raise, and raises only get smaller. */
  ghost predicate GoalAddsUp(size: nat, remaining: nat, goal: int, raises: seq<nat>) {
    && goal == size + Sum(raises)
    && (forall i | 0 <= i < |raises| :: remaining <= raises[i] <= size)
    && (forall i, j | 0 <= i < j < |raises| :: raises[j] <= raises[i])
  }

  lemma RaiseAddsUp(size: nat, remaining: nat, goal: int, raises: seq<nat>)
    requires GoalAddsUp(size, remaining, goal, raises) && remaining <= size
    ensures GoalAddsUp(size, remaining, goal + remaining, raises + [remaining])
  {
    SumAppend(raises, remaining);
  }

  /** Until it is announced, a flow is as new. */
  ghost predicate NewUntilRequested(h: Ledger) {
    !h.rtsReceived ==> h.flow == NewCapabilityFlow(h.flow.src, h.flow.size, h.flow.latestSent) && h.raises == []
  }

  ghost predicate Ok(h: Ledger) {
    && h.flow.Valid() && WithinGoal(h.flow) && NewUntilRequested(h)
    && GoalAddsUp(h.flow.size, h.flow.RemainingPkts(), h.flow.goal, h.raises)
  }

  /** Data answers capabilities that exist; a timeout is a moment after time zero. */
  ghost predicate Possible(h: Ledger, e: Event, s: Start, p: Params)
    requires h.flow.Valid()
  {
    && p.resendTimeout > 0 && s.firstTimeout > 0
    && (e.DataIn? ==> e.dataSeq < h.flow.size && -1 <= e.capabilitySeq < Requested(h, s, e.now).flow.tokenCount)
  }

  lemma RequestKeeps(h: Ledger, s: Start, now: nat)
    requires Ok(h) && s.firstTimeout > 0 && h.flow.size == s.size
    ensures Ok(Requested(h, s, now)) && Requested(h, s, now).flow.size == h.flow.size
  {
  }

  lemma ArrivalKeeps(h: Ledger, d: nat, c: int)
    requires Ok(h) && h.rtsReceived && d < h.flow.size && -1 <= c < h.flow.tokenCount
    ensures Ok(h.(flow := ReceiveData(h.flow, d, c))) && ReceiveData(h.flow, d, c).size == h.flow.size
  {
    ReceiveKeepsValid(h.flow, d, c);
    var g := ReceiveData(h.flow, d, c);
    assert g.received == h.flow.received + {d};
    assert g.RemainingPkts() <= h.flow.RemainingPkts();
  }

  lemma VisitWithinGoal(f: Flow, p: Params, now: nat)
    requires f.Valid() && f.Incomplete() && WithinGoal(f) && p.resendTimeout > 0
    ensures var g := CapabilityTurn(f, p, now).0;
            && g.Valid() && WithinGoal(g) && g.size == f.size && g.RemainingPkts() == f.RemainingPkts() <= f.size
            && g.goal == f.goal + if 0 < f.redundancy <= now then f.RemainingPkts() else 0
  {
    IncompleteIsCount(f);
  }

  lemma VisitKeeps(h: Ledger, s: Start, p: Params, now: nat)
    requires Ok(h) && p.resendTimeout > 0
    ensures Ok(Step(h, Scheduled(now), s, p)) && Step(h, Scheduled(now), s, p).flow.size == h.flow.size
  {
    if h.rtsReceived && !h.flow.finished && h.flow.Incomplete() {
      var g := CapabilityTurn(h.flow, p, now).0;
      VisitedKeeps(h, g, p, now);
      assert Step(h, Scheduled(now), s, p) ==
             h.(flow := g, raises := if 0 < h.flow.redundancy <= now then h.raises + [h.flow.RemainingPkts()] else h.raises);
    }
  }

  lemma VisitedKeeps(h: Ledger, g: Flow, p: Params, now: nat)
    requires Ok(h) && h.rtsReceived && h.flow.Incomplete() && p.resendTimeout > 0
    requires g == CapabilityTurn(h.flow, p, now).0
    ensures g.size == h.flow.size
    ensures var raises := if 0 < h.flow.redundancy <= now then h.raises + [h.flow.RemainingPkts()] else h.raises;
            Ok(h.(flow := g, raises := raises))
  {
    VisitWithinGoal(h.flow, p, now);
    RaiseAddsUp(h.flow.size, h.flow.RemainingPkts(), h.flow.goal, h.raises);
  }

  ghost predicate Run(hs: seq<Ledger>, es: seq<Event>, s: Start, p: Params) {
    && |hs| == |es| + 1 && 0 < s.size && hs[0] == First(s)
    && forall i | 0 <= i < |es| ::
         hs[i].flow.Valid() && Possible(hs[i], es[i], s, p) && hs[i + 1] == Step(hs[i], es[i], s, p)
  }

  lemma StepKeeps(h: Ledger, e: Event, s: Start, p: Params)
    requires Ok(h) && h.flow.size == s.size && Possible(h, e, s, p)
    ensures Ok(Step(h, e, s, p)) && Step(h, e, s, p).flow.size == s.size
  {
    match e
    case Rts(now) => RequestKeeps(h, s, now);
    case DataIn(now, d, c) =>
      RequestKeeps(h, s, now);
      ArrivalKeeps(Requested(h, s, now), d, c);
    case Scheduled(now) => VisitKeeps(h, s, p, now);
  }

  lemma {:induction false} RunKeeps(hs: seq<Ledger>, es: seq<Event>, s: Start, p: Params)
    requires Run(hs, es, s, p)
    ensures forall i | 0 <= i < |hs| :: Ok(hs[i]) && hs[i].flow.size == s.size
  {
    if |es| > 0 {
      var n := |es| - 1;
      RunKeeps(hs[..|es|], es[..n], s, p);
      assert hs[..|es|][n] == hs[n];
      StepKeeps(hs[n], es[n], s, p);
      assert forall i | 0 <= i < |es| :: hs[i] == hs[..|es|][i];
    }
  }

  /**
   After `k` redundancy timeouts at most the size plus what was missing at each of them has been
   issued, hence at most `k + 1` times the size; and what can still be issued is bounded likewise.
   */
  lemma BoundedOverIssue(hs: seq<Ledger>, es: seq<Event>, s: Start, p: Params, i: nat)
    requires Run(hs, es, s, p) && i < |hs|
    ensures hs[i].flow.tokenCount <= s.size + Sum(hs[i].raises) <= (|hs[i].raises| + 1) * s.size
    ensures hs[i].flow.tokenCount == s.size + Sum(hs[i].raises) ==> hs[i].flow.redundancy > 0
  {
    RunKeeps(hs, es, s, p);
    SumBounded(hs[i].raises, s.size);
  }

  /** Capabilities a flow had without being issued them. */
  function FreeCapabilities(h: Ledger, s: Start): nat {
    if h.rtsReceived && s.size <= s.initial then s.size else 0
  }

  /** Capabilities run ahead of the data that answers them by the window and one at most, the free ones apart. */
  ghost predicate GapBounded(h: Ledger, s: Start, p: Params) {
    0 <= CapabilityGap(h.flow) && (CapabilityGap(h.flow) <= p.window + 1 || CapabilityGap(h.flow) <= FreeCapabilities(h, s) + 1)
  }

  lemma StepKeepsGap(h: Ledger, e: Event, s: Start, p: Params)
    requires Ok(h) && h.flow.size == s.size && Possible(h, e, s, p) && GapBounded(h, s, p)
    ensures GapBounded(Step(h, e, s, p), s, p)
  {
    StepKeeps(h, e, s, p);
    if e.Scheduled? && h.rtsReceived && !h.flow.finished && h.flow.Incomplete() {
      GapAfterVisit(h.flow, p, e.now);
    }
  }

  lemma {:induction false} RunStaysWindowed(hs: seq<Ledger>, es: seq<Event>, s: Start, p: Params, i: nat)
    requires Run(hs, es, s, p) && i < |hs|
    ensures GapBounded(hs[i], s, p)
  {
    RunKeeps(hs, es, s, p);
    if i > 0 {
      RunStaysWindowed(hs, es, s, p, i - 1);
      StepKeepsGap(hs[i - 1], es[i - 1], s, p);
    }
  }

  // ---- The flow object ----

  class CapabilityFlow {
    const src: nat
    const size: nat
    var packetsReceived: set<nat>
    var receivedCount: nat
    var receivedUntil: nat
    var lastCapaDataSeqNumSent: int
    var capabilityCount: int
    var largestCapSeqReceived: int
    var capabilityGoal: int
    var redundancyCtrlTimeout: int
    var latestCapSentTime: int
    var finishedAtReceiver: bool
    var rtsReceived: bool

    function Value(): Flow
      reads this
    {
      Flow(src, size, packetsReceived, receivedUntil, lastCapaDataSeqNumSent, capabilityCount,
           largestCapSeqReceived, capabilityGoal, redundancyCtrlTimeout, latestCapSentTime, finishedAtReceiver)
    }

    ghost predicate Valid()
      reads this
    {
      Value().Valid() && receivedCount == |packetsReceived|
    }

    constructor (src: nat, size: nat, start: int)
      requires 0 < size
      ensures Valid() && Value() == NewCapabilityFlow(src, size, start) && !rtsReceived
    {
      this.src, this.size := src, size;
      packetsReceived, receivedCount, receivedUntil := {}, 0, 0;
      lastCapaDataSeqNumSent, capabilityCount, largestCapSeqReceived := -1, 0, -1;
      capabilityGoal, redundancyCtrlTimeout, latestCapSentTime := size, -1, start;
      finishedAtReceiver, rtsReceived := false, false;
    }

    method SetCapabilityCount(initial: nat, now: nat, firstTimeout: nat)
      requires Valid()
      modifies this
      ensures Valid() && Value() == SetCount(old(Value()), initial, now, firstTimeout) && rtsReceived == old(rtsReceived)
    {
      var initCapa := if size <= initial then size else 0;
      capabilityCount := initCapa;
      lastCapaDataSeqNumSent := initCapa - 1;
      if capabilityCount == capabilityGoal {
        redundancyCtrlTimeout := now + if initCapa == 0 then 0 else firstTimeout;
      }
    }

    /** The flow's first request, or its first data packet. */
    method ReceiveRts(initial: nat, now: nat, firstTimeout: nat)
      requires Valid()
      modifies this
      ensures Valid() && rtsReceived
      ensures Value() == if old(rtsReceived) then old(Value()) else SetCount(old(Value()), initial, now, firstTimeout)
    {
      if !rtsReceived {
        rtsReceived := true;
        SetCapabilityCount(initial, now, firstTimeout);
      }
    }

    method GetNextCapaSeqNum() returns (dataSeq: nat)
      requires Valid() && Value().Incomplete()
      ensures dataSeq == NextSeq(Value())
    {
      var count := 0;
      dataSeq := (lastCapaDataSeqNumSent + 1) % size;
      ghost var first := dataSeq;
      while count < size
        invariant 0 <= count < size && dataSeq < size
        invariant || (dataSeq == first + count && FirstMissing(packetsReceived, size, first) == FirstMissing(packetsReceived, size, dataSeq))
                  || (dataSeq == receivedUntil && FirstMissing(packetsReceived, size, first) == size)
        decreases size - count
      {
        if dataSeq !in packetsReceived {
          return;
        }
        dataSeq := dataSeq + 1;
        if dataSeq >= size {
          dataSeq := receivedUntil;
        }
        count := count + 1;
      }
      assert false;
    }

    method SendCapabilityPkt(now: int) returns (dataSeq: nat, capabilitySeq: int)
      requires Valid() && Value().Incomplete()
      modifies this
      ensures Valid() && Value() == IssueToken(old(Value()), now)
      ensures dataSeq == NextSeq(old(Value())) && capabilitySeq == old(capabilityCount)
    {
      dataSeq := GetNextCapaSeqNum();
      lastCapaDataSeqNumSent := dataSeq;
      capabilitySeq := capabilityCount;
      capabilityCount := capabilityCount + 1;
      latestCapSentTime := now;
    }

    method ReceiveDataPacket(dataSeq: nat, capabilitySeq: int)
      requires Valid() && dataSeq < size
      modifies this
      ensures Valid() && Value() == ReceiveData(old(Value()), dataSeq, capabilitySeq)
    {
      ReceiveKeepsValid(Value(), dataSeq, capabilitySeq);
      if dataSeq !in packetsReceived {
        packetsReceived := packetsReceived + {dataSeq};
        receivedCount := receivedCount + 1;
        while receivedUntil < size && receivedUntil in packetsReceived
          invariant receivedUntil <= size
          invariant Value() == old(Value()).(received := old(packetsReceived) + {dataSeq}, receivedUntil := receivedUntil)
          invariant receivedCount == |packetsReceived|
          invariant Advance(packetsReceived, size, receivedUntil) == Advance(packetsReceived, size, old(receivedUntil))
        {
          receivedUntil := receivedUntil + 1;
        }
      }
      if capabilitySeq > largestCapSeqReceived {
        largestCapSeqReceived := capabilitySeq;
      }
      if receivedCount >= size {
        finishedAtReceiver := true;
      }
    }

    /** A wait that has run out raises the goal, and a window that stayed full too long is relaxed. */
    method Reopen(p: Params, now: int)
      requires Valid()
      modifies this
      ensures Valid() && Value() == Relaxed(Rearmed(old(Value())), p, now)
    {
      if redundancyCtrlTimeout > 0 {
        redundancyCtrlTimeout := -1;
        capabilityGoal := capabilityGoal + Value().RemainingPkts();
      }
      if capabilityCount - largestCapSeqReceived > p.window {
        if now >= latestCapSentTime + p.windowTimeout {
          largestCapSeqReceived := capabilityCount - p.window;
        }
      }
    }

    /** One visit of the capability loop. */
    method Turn(p: Params, now: int) returns (v: Visit)
      requires Valid() && Value().Incomplete()
      modifies this
      ensures Valid() && Value() == CapabilityTurn(old(Value()), p, now).0 && v == CapabilityTurn(old(Value()), p, now).1
    {
      if redundancyCtrlTimeout > now {
        return Blocked(redundancyCtrlTimeout);
      }
      Reopen(p, now);
      v := Blocked(latestCapSentTime + p.windowTimeout);
      if capabilityCount - largestCapSeqReceived <= p.window {
        var dataSeq, capabilitySeq := SendCapabilityPkt(now);
        v := Sent(dataSeq, capabilitySeq);
        if capabilityCount == capabilityGoal {
          redundancyCtrlTimeout := now + p.resendTimeout;
        }
      }
    }
  }
}
