/**
 The prototype's controller.  Receivers' requests wait in a list ordered by flow size; a timer serves
 the whole list greedily, smallest flow first.  A table entry of 1 marks a free port; an identifier
 without an entry is never free.
 */
module Controller {
  import opened Options
  import opened Matching
  import opened SortedList

  const PORTS := 16

  datatype Pair = Pair(src: nat, dst: nat)

  type Table = map<nat, nat>

  type Request = Item<Pair>

  predicate Free(table: Table, id: nat) {
    id in table && table[id] == 1
  }

  datatype Outcome = Outcome(senders: Table, receivers: Table, grants: seq<Request>)

  predicate Grantable(senders: Table, receivers: Table, r: Request) {
    Free(senders, r.data.src) && Free(receivers, r.data.dst)
  }

  /** Serves the list front to back. */
  function Serve(senders: Table, receivers: Table, requests: seq<Request>): Outcome {
    if requests == [] then Outcome(senders, receivers, [])
    else
      var r := requests[0];
      if Grantable(senders, receivers, r) then
        var rest := Serve(senders[r.data.src := 0], receivers[r.data.dst := 0], requests[1..]);
        rest.(grants := [r] + rest.grants)
      else
        Serve(senders, receivers, requests[1..])
  }

  ghost predicate UsesSender(grants: seq<Request>, id: nat) {
    exists g :: g in grants && g.data.src == id
  }

  ghost predicate UsesReceiver(grants: seq<Request>, id: nat) {
    exists g :: g in grants && g.data.dst == id
  }

  ghost predicate DisjointPairs(grants: seq<Request>) {
    forall i, j | 0 <= i < j < |grants| :: grants[i].data.src != grants[j].data.src && grants[i].data.dst != grants[j].data.dst
  }

  lemma OneMoreUse(r: Request, grants: seq<Request>)
    ensures forall id :: UsesSender([r] + grants, id) <==> id == r.data.src || UsesSender(grants, id)
    ensures forall id :: UsesReceiver([r] + grants, id) <==> id == r.data.dst || UsesReceiver(grants, id)
  {
    forall id
      ensures UsesSender([r] + grants, id) <==> id == r.data.src || UsesSender(grants, id)
      ensures UsesReceiver([r] + grants, id) <==> id == r.data.dst || UsesReceiver(grants, id)
    {
      assert r in [r] + grants;
      assert forall g | g in grants :: g in [r] + grants;
    }
  }

  /** Exactly the ports that grants use stop being free. */
  lemma {:induction false} ServeTakesPorts(senders: Table, receivers: Table, requests: seq<Request>)
    ensures var o := Serve(senders, receivers, requests);
            && (forall id :: Free(o.senders, id) <==> Free(senders, id) && !UsesSender(o.grants, id))
            && (forall id :: Free(o.receivers, id) <==> Free(receivers, id) && !UsesReceiver(o.grants, id))
  {
    if requests != [] {
      var r := requests[0];
      if Grantable(senders, receivers, r) {
        ServeTakesPorts(senders[r.data.src := 0], receivers[r.data.dst := 0], requests[1..]);
        OneMoreUse(r, Serve(senders[r.data.src := 0], receivers[r.data.dst := 0], requests[1..]).grants);
      } else {
        ServeTakesPorts(senders, receivers, requests[1..]);
      }
    }
  }

  /** Grants are requests on ports that were free, pairwise disjoint. */
  lemma {:induction false} ServeGrantsDisjointPairs(senders: Table, receivers: Table, requests: seq<Request>)
    ensures var o := Serve(senders, receivers, requests);
            && DisjointPairs(o.grants)
            && (forall g | g in o.grants :: g in requests && Grantable(senders, receivers, g))
  {
    if requests != [] {
      var r := requests[0];
      if Grantable(senders, receivers, r) {
        var senders', receivers' := senders[r.data.src := 0], receivers[r.data.dst := 0];
        ServeGrantsDisjointPairs(senders', receivers', requests[1..]);
        var rest := Serve(senders', receivers', requests[1..]);
        forall g | g in rest.grants
          ensures g in requests && Grantable(senders, receivers, g)
          ensures g.data.src != r.data.src && g.data.dst != r.data.dst
        {
          assert Grantable(senders', receivers', g);
        }
      } else {
        ServeGrantsDisjointPairs(senders, receivers, requests[1..]);
      }
    }
  }

  /** Some grant uses one of the request's ports, and is for no larger a flow. */
  ghost predicate Beaten(grants: seq<Request>, r: Request) {
    exists g :: g in grants && (g.data.src == r.data.src || g.data.dst == r.data.dst) && g.priority <= r.priority
  }

  /** A request on free ports is granted, or loses one of them to a grant for no larger a flow. */
  lemma {:induction false} PassedOverForASmallerFlow(senders: Table, receivers: Table, requests: seq<Request>, r: Request)
    requires Sorted(requests) && r in requests && Grantable(senders, receivers, r)
    ensures Beaten(Serve(senders, receivers, requests).grants, r)
  {
    var first := requests[0];
    var tail := requests[1..];
    var o := Serve(senders, receivers, requests);
    var i :| 0 <= i < |requests| && requests[i] == r;
    if Grantable(senders, receivers, first) {
      assert first in o.grants;
      if first.data.src != r.data.src && first.data.dst != r.data.dst {
        var rest := Serve(senders[first.data.src := 0], receivers[first.data.dst := 0], tail);
        assert r == tail[i - 1];
        PassedOverForASmallerFlow(senders[first.data.src := 0], receivers[first.data.dst := 0], tail, r);
        assert forall g | g in rest.grants :: g in o.grants;
      }
    } else {
      assert r == tail[i - 1];
      PassedOverForASmallerFlow(senders, receivers, tail, r);
    }
  }

  function Edges(requests: seq<Request>): set<Edge> {
    set r | r in requests :: Edge(r.priority, r.data.src, r.data.dst)
  }

  lemma {:induction false} NoMoreEdges(requests: seq<Request>)
    ensures |Edges(requests)| <= |requests|
  {
    if requests == [] {
      assert Edges(requests) == {};
    } else {
      var n := |requests| - 1;
      NoMoreEdges(requests[..n]);
      assert requests == requests[..n] + [requests[n]];
      assert Edges(requests) == Edges(requests[..n]) + {Edge(requests[n].priority, requests[n].data.src, requests[n].data.dst)};
    }
  }

  /** No conflict-free choice among the grantable requests has more than twice as many pairs. */
  lemma ServeIsHalfOptimal(senders: Table, receivers: Table, requests: seq<Request>, other: seq<Request>)
    requires Sorted(requests)
    requires ConflictFree(Edges(other)) && forall r | r in other :: r in requests && Grantable(senders, receivers, r)
    ensures |Edges(other)| <= 2 * |Serve(senders, receivers, requests).grants|
  {
    var grants := Serve(senders, receivers, requests).grants;
    forall e | e in Edges(other)
      ensures exists m :: m in Edges(grants) && Conflict(m, e)
    {
      var r :| r in other && e == Edge(r.priority, r.data.src, r.data.dst);
      PassedOverForASmallerFlow(senders, receivers, requests, r);
      var g :| g in grants && (g.data.src == r.data.src || g.data.dst == r.data.dst);
      assert Edge(g.priority, g.data.src, g.data.dst) in Edges(grants);
    }
    AtLeastHalf(Edges(grants), Edges(other), Edges(other));
    NoMoreEdges(grants);
  }

  // ---- Whole runs ----

  datatype State = State(senders: Table, receivers: Table, requests: seq<Request>)

  /** A packet from receiver `dst` with its sources and flow sizes, or the timer. */
  datatype Step = ListSrcs(dst: nat, nrts: Option<Pair>, sources: seq<Source>) | Timer

  datatype Source = Source(src: nat, size: nat)

  datatype Event = Granted(src: nat, dst: nat) | Returned(src: nat, dst: nat)

  function AllFree(n: nat): Table {
    if n == 0 then map[] else AllFree(n - 1)[n - 1 := 1]
  }

  function Init(): State {
    State(AllFree(PORTS), AllFree(PORTS), [])
  }

  function RequestsOf(dst: nat, sources: seq<Source>): (r: seq<Request>)
    ensures |r| == |sources|
  {
    seq(|sources|, i requires 0 <= i < |sources| => Item(Pair(sources[i].src, dst), sources[i].size))
  }

  function EventsOf(grants: seq<Request>): seq<Event> {
    if grants == [] then [] else [Granted(grants[0].data.src, grants[0].data.dst)] + EventsOf(grants[1..])
  }

  function Return(s: State, nrts: Option<Pair>): State {
    match nrts
    case None => s
    case Some(p) => s.(senders := s.senders[p.src := 1], receivers := s.receivers[p.dst := 1])
  }

  function ReturnEvents(nrts: Option<Pair>): seq<Event> {
    if nrts.Some? then [Returned(nrts.value.src, nrts.value.dst)] else []
  }

  function Next(s: State, step: Step): (State, seq<Event>) {
    match step
    case ListSrcs(dst, nrts, sources) =>
      var s' := Return(s, nrts);
      (s'.(requests := InsertAll(s'.requests, RequestsOf(dst, sources))),
       ReturnEvents(nrts))
    case Timer =>
      var o := Serve(s.senders, s.receivers, s.requests);
      (State(o.senders, o.receivers, []), EventsOf(o.grants))
  }

  function Run(steps: seq<Step>): (State, seq<Event>) {
    if steps == [] then (Init(), [])
    else
      var (s, log) := Run(steps[..|steps| - 1]);
      var (s', events) := Next(s, steps[|steps| - 1]);
      (s', log + events)
  }

  /** The last thing that happened to this sender was a grant. */
  predicate SenderOut(log: seq<Event>, id: nat) {
    if log == [] then false
    else
      var last := log[|log| - 1];
      if last.src == id then last.Granted? else SenderOut(log[..|log| - 1], id)
  }

  predicate ReceiverOut(log: seq<Event>, id: nat) {
    if log == [] then false
    else
      var last := log[|log| - 1];
      if last.dst == id then last.Granted? else ReceiverOut(log[..|log| - 1], id)
  }

  /** No grant ever names a port that is still granted. */
  ghost predicate NeverTwice(log: seq<Event>) {
    forall i | 0 <= i < |log| && log[i].Granted? :: !SenderOut(log[..i], log[i].src) && !ReceiverOut(log[..i], log[i].dst)
  }

  /** A port that is out is not free, and one the controller started with is free unless it is out. */
  ghost predicate FreeUnlessOut(log: seq<Event>, senders: Table, receivers: Table) {
    && (forall id: nat :: if SenderOut(log, id) then !Free(senders, id) else id < PORTS ==> Free(senders, id))
    && (forall id: nat :: if ReceiverOut(log, id) then !Free(receivers, id) else id < PORTS ==> Free(receivers, id))
  }

  lemma {:induction false} AllFreeIsFree(n: nat, id: nat)
    ensures Free(AllFree(n), id) <==> id < n
  {
    if n > 0 {
      AllFreeIsFree(n - 1, id);
    }
  }

  lemma OneMoreEvent(log: seq<Event>, e: Event)
    requires NeverTwice(log) && (e.Granted? ==> !SenderOut(log, e.src) && !ReceiverOut(log, e.dst))
    ensures NeverTwice(log + [e])
    ensures forall id :: SenderOut(log + [e], id) <==> if e.src == id then e.Granted? else SenderOut(log, id)
    ensures forall id :: ReceiverOut(log + [e], id) <==> if e.dst == id then e.Granted? else ReceiverOut(log, id)
  {
    assert (log + [e])[..|log|] == log;
    assert forall i | 0 <= i < |log| :: (log + [e])[..i] == log[..i];
  }

  lemma {:induction false} ServeNeverTwice(senders: Table, receivers: Table, requests: seq<Request>, log: seq<Event>)
    requires NeverTwice(log) && FreeUnlessOut(log, senders, receivers)
    ensures var o := Serve(senders, receivers, requests);
            NeverTwice(log + EventsOf(o.grants)) && FreeUnlessOut(log + EventsOf(o.grants), o.senders, o.receivers)
    decreases |requests|
  {
    var o := Serve(senders, receivers, requests);
    if requests == [] {
      assert log + EventsOf(o.grants) == log;
    } else {
      var r := requests[0];
      if Grantable(senders, receivers, r) {
        var e := Granted(r.data.src, r.data.dst);
        OneMoreEvent(log, e);
        ServeNeverTwice(senders[r.data.src := 0], receivers[r.data.dst := 0], requests[1..], log + [e]);
        var rest := Serve(senders[r.data.src := 0], receivers[r.data.dst := 0], requests[1..]);
        assert o.grants[1..] == rest.grants;
        assert log + EventsOf(o.grants) == log + [e] + EventsOf(rest.grants);
      } else {
        ServeNeverTwice(senders, receivers, requests[1..], log);
      }
    }
  }

  lemma ReturnKeeps(s: State, log: seq<Event>, nrts: Option<Pair>)
    requires NeverTwice(log) && FreeUnlessOut(log, s.senders, s.receivers)
    ensures NeverTwice(log + ReturnEvents(nrts))
    ensures FreeUnlessOut(log + ReturnEvents(nrts), Return(s, nrts).senders, Return(s, nrts).receivers)
  {
    match nrts
    case None => assert log + [] == log;
    case Some(p) => OneMoreEvent(log, Returned(p.src, p.dst));
  }

  /**
   In every run: requests stay sorted, no port is granted again before it has been returned, and a
   port is free exactly when it is not out.
   */
  lemma {:induction false} RunKeeps(steps: seq<Step>)
    ensures var (s, log) := Run(steps); Sorted(s.requests) && NeverTwice(log) && FreeUnlessOut(log, s.senders, s.receivers)
  {
    forall id: nat
      ensures Free(AllFree(PORTS), id) <==> id < PORTS
    {
      AllFreeIsFree(PORTS, id);
    }
    if steps != [] {
      RunKeeps(steps[..|steps| - 1]);
      var (s, log) := Run(steps[..|steps| - 1]);
      match steps[|steps| - 1] {
        case Timer =>
          ServeNeverTwice(s.senders, s.receivers, s.requests, log);
        case ListSrcs(dst, nrts, sources) =>
          InsertAllKeepsSorted(s.requests, RequestsOf(dst, sources));
          ReturnKeeps(s, log, nrts);
      }
    }
  }

  lemma {:induction false} OutUntilReturned(log: seq<Event>, i: nat, j: nat)
    requires i < j <= |log| && log[i].Granted? && !SenderOut(log[..j], log[i].src)
    ensures exists k :: i < k < j && log[k].Returned? && log[k].src == log[i].src
    decreases j
  {
    var last := log[j - 1];
    assert log[..j][..j - 1] == log[..j - 1];
    if last.src == log[i].src {
      assert last.Returned?;
    } else {
      OutUntilReturned(log, i, j - 1);
    }
  }

  /** Between two grants of one sender, that sender has been returned. */
  lemma ReturnedInBetween(steps: seq<Step>, i: nat, j: nat)
    requires var log := Run(steps).1; i < j < |log| && log[i].Granted? && log[j].Granted? && log[i].src == log[j].src
    ensures var log := Run(steps).1; exists k :: i < k < j && log[k].Returned? && log[k].src == log[i].src
  {
    RunKeeps(steps);
    OutUntilReturned(Run(steps).1, i, j);
  }

  // ---- What a grant answers ----

  /** The step is a packet in which the request's receiver lists its sender, with that flow size. */
  ghost predicate Asks(step: Step, r: Request) {
    step.ListSrcs? && step.dst == r.data.dst && Source(r.data.src, r.priority) in step.sources
  }

  ghost predicate AskedSince(steps: seq<Step>, r: Request) {
    exists k :: 0 <= k < |steps| && Asks(steps[k], r) && NoTimerFrom(steps, k)
  }

  ghost predicate NoTimerFrom(steps: seq<Step>, k: int) {
    forall j | 0 <= k <= j < |steps| :: !steps[j].Timer?
  }

  lemma RequestsAreAsked(dst: nat, nrts: Option<Pair>, sources: seq<Source>, r: Request)
    ensures r in RequestsOf(dst, sources) <==> Asks(ListSrcs(dst, nrts, sources), r)
  {
    var all := RequestsOf(dst, sources);
    if Asks(ListSrcs(dst, nrts, sources), r) {
      var i :| 0 <= i < |sources| && sources[i] == Source(r.data.src, r.priority);
      assert all[i] == r;
    }
    if r in all {
      var i :| 0 <= i < |all| && all[i] == r;
      assert sources[i] == Source(r.data.src, r.priority);
    }
  }

  lemma OneMoreStepAsks(steps: seq<Step>, step: Step, r: Request)
    ensures AskedSince(steps + [step], r) <==> !step.Timer? && (Asks(step, r) || AskedSince(steps, r))
  {
    var more := steps + [step];
    assert more[|steps|] == step;
    if !step.Timer? && AskedSince(steps, r) {
      var k :| 0 <= k < |steps| && Asks(steps[k], r) && NoTimerFrom(steps, k);
      assert Asks(more[k], r) && NoTimerFrom(more, k);
    }
    if !step.Timer? && Asks(step, r) {
      assert Asks(more[|steps|], r) && NoTimerFrom(more, |steps|);
    }
    if AskedSince(more, r) {
      var k :| 0 <= k < |more| && Asks(more[k], r) && NoTimerFrom(more, k);
      if k < |steps| {
        assert forall j | k <= j < |steps| :: more[j] == steps[j] && !more[j].Timer?;
        assert Asks(steps[k], r) && NoTimerFrom(steps, k);
      }
    }
  }

  lemma RunUnfolds(steps: seq<Step>, step: Step)
    ensures var (s, log) := Run(steps); Run(steps + [step]) == (Next(s, step).0, log + Next(s, step).1)
  {
    assert (steps + [step])[..|steps|] == steps;
  }

  /** A request waits exactly when its receiver has listed that sender, with that size, since the last timer. */
  lemma {:induction false} QueuedExactlyWhen(steps: seq<Step>, r: Request)
    ensures r in Run(steps).0.requests <==> AskedSince(steps, r)
  {
    if steps != [] {
      var before, step := steps[..|steps| - 1], steps[|steps| - 1];
      assert steps == before + [step];
      QueuedExactlyWhen(before, r);
      OneMoreStepAsks(before, step, r);
      RunUnfolds(before, step);
      if step.ListSrcs? {
        RunKeeps(before);
        Inserted(Run(before).0.requests, RequestsOf(step.dst, step.sources), r);
        RequestsAreAsked(step.dst, step.nrts, step.sources, r);
      }
    }
  }

  lemma Inserted(list: seq<Request>, more: seq<Request>, r: Request)
    requires Sorted(list)
    ensures r in InsertAll(list, more) <==> r in list || r in more
  {
    InsertAllKeepsSorted(list, more);
    assert r in InsertAll(list, more) <==> r in multiset(InsertAll(list, more));
    assert r in list <==> r in multiset(list);
    assert r in more <==> r in multiset(more);
  }

  /** How many sources have been listed since the last timer: each is a request of its own. */
  function Listed(steps: seq<Step>): nat {
    if steps == [] then 0
    else
      match steps[|steps| - 1]
      case Timer => 0
      case ListSrcs(_, _, sources) => Listed(steps[..|steps| - 1]) + |sources|
  }

  lemma {:induction false} QueuedAreListed(steps: seq<Step>)
    ensures |Run(steps).0.requests| == Listed(steps)
  {
    if steps != [] {
      var before, step := steps[..|steps| - 1], steps[|steps| - 1];
      assert steps == before + [step];
      QueuedAreListed(before);
      RunUnfolds(before, step);
      if step.ListSrcs? {
        RunKeeps(before);
        var list, more := Run(before).0.requests, RequestsOf(step.dst, step.sources);
        InsertAllKeepsSorted(list, more);
        assert |multiset(InsertAll(list, more))| == |multiset(list)| + |multiset(more)|;
      }
    }
  }

  /** Some packet so far came from the granted receiver and listed the granted sender. */
  ghost predicate Answers(steps: seq<Step>, e: Event) {
    exists size :: Asked(steps, Item(Pair(e.src, e.dst), size))
  }

  ghost predicate Asked(steps: seq<Step>, r: Request) {
    exists k :: 0 <= k < |steps| && Asks(steps[k], r)
  }

  lemma StillAnswers(steps: seq<Step>, step: Step, e: Event)
    requires Answers(steps, e)
    ensures Answers(steps + [step], e)
  {
    var size :| Asked(steps, Item(Pair(e.src, e.dst), size));
    var r := Item(Pair(e.src, e.dst), size);
    var k :| 0 <= k < |steps| && Asks(steps[k], r);
    assert Asks((steps + [step])[k], r);
    assert Asked(steps + [step], r);
  }

  lemma {:induction false} EventsAreGrants(grants: seq<Request>, e: Event)
    requires e in EventsOf(grants)
    ensures e.Granted? && exists r :: r in grants && r.data == Pair(e.src, e.dst)
  {
    if e == Granted(grants[0].data.src, grants[0].data.dst) {
      assert grants[0] in grants && grants[0].data == Pair(e.src, e.dst);
    } else {
      EventsAreGrants(grants[1..], e);
      var r :| r in grants[1..] && r.data == Pair(e.src, e.dst);
      assert r in grants;
    }
  }

  /** A timer grants only what has been asked for since the timer before. */
  lemma TimerGrantsAsked(steps: seq<Step>, r: Request)
    requires var s := Run(steps).0; r in Serve(s.senders, s.receivers, s.requests).grants
    ensures AskedSince(steps, r)
  {
    var s := Run(steps).0;
    ServeGrantsDisjointPairs(s.senders, s.receivers, s.requests);
    QueuedExactlyWhen(steps, r);
  }

  lemma StepAnswers(steps: seq<Step>, step: Step, e: Event)
    requires e in Next(Run(steps).0, step).1 && e.Granted?
    ensures Answers(steps, e)
  {
    if step.Timer? {
      var s := Run(steps).0;
      var grants := Serve(s.senders, s.receivers, s.requests).grants;
      EventsAreGrants(grants, e);
      var r :| r in grants && r.data == Pair(e.src, e.dst);
      TimerGrantsAsked(steps, r);
      assert r == Item(Pair(e.src, e.dst), r.priority);
      assert Asked(steps, r);
    }
  }

  /** Every grant of a run answers a packet in which that receiver listed that sender. */
  lemma {:induction false} GrantsAnswerRequests(steps: seq<Step>, e: Event)
    requires e in Run(steps).1 && e.Granted?
    ensures Answers(steps, e)
  {
    var before, step := steps[..|steps| - 1], steps[|steps| - 1];
    assert steps == before + [step];
    RunUnfolds(before, step);
    if e in Run(before).1 {
      GrantsAnswerRequests(before, e);
    } else {
      StepAnswers(before, step, e);
    }
    StillAnswers(before, step, e);
  }

  // ---- The controller object ----

  class RtpController {
    var senderState: Table
    var receiverState: Table
    const requests: RequestList<Pair>
    const minTokens: nat
    const maxTokens: nat

    ghost predicate Valid()
      reads this, requests, requests.repr
    {
      requests.Valid() && Sorted(requests.contents) && minTokens < maxTokens
    }

    ghost function Value(): State
      reads this, requests
    {
      State(senderState, receiverState, requests.contents)
    }

    /** The bounds are the configured ones, in packets. */
    constructor InitController(minTokens: nat, maxTokens: nat)
      requires minTokens < maxTokens
      ensures Valid() && Value() == Init() && this.minTokens == minTokens && this.maxTokens == maxTokens
      ensures fresh(requests) && requests.repr == {}
    {
      this.minTokens, this.maxTokens := minTokens, maxTokens;
      senderState, receiverState := map[], map[];
      requests := new RequestList();
      new;
      for i := 0 to PORTS
        invariant senderState == receiverState == AllFree(i)
        invariant requests.Valid() && requests.contents == [] && requests.repr == {} && fresh(requests)
      {
        senderState := senderState[i := 1];
        receiverState := receiverState[i := 1];
      }
    }

    method ReceiveNrts(p: Pair)
      modifies this`senderState, this`receiverState
      ensures Value() == Return(old(Value()), Some(p))
    {
      Rewritten(senderState, p.src, 1);
      Rewritten(receiverState, p.dst, 1);
      senderState := (senderState - {p.src})[p.src := 1];
      receiverState := (receiverState - {p.dst})[p.dst := 1];
    }

    method PushAll(dst: nat, sources: seq<Source>)
      requires Valid()
      modifies requests, requests.repr
      ensures Valid() && requests.contents == InsertAll(old(requests.contents), RequestsOf(dst, sources))
      ensures fresh(requests.repr - old(requests.repr))
    {
      ghost var list, all := requests.contents, RequestsOf(dst, sources);
      var i := 0;
      while i < |sources|
        invariant 0 <= i <= |sources| && requests.Valid()
        invariant requests.contents == InsertAll(list, all[..i])
        invariant unchanged(this)
        invariant fresh(requests.repr - old(requests.repr))
      {
        InsertAllStep(list, all, i);
        requests.Add(Pair(sources[i].src, dst), sources[i].size);
        i := i + 1;
      }
      assert all[..i] == all;
      InsertAllKeepsSorted(list, all);
    }

    method ReceiveListSrcs(dst: nat, nrts: Option<Pair>, sources: seq<Source>)
      requires Valid()
      modifies this, requests, requests.repr
      ensures Valid() && Value() == Next(old(Value()), ListSrcs(dst, nrts, sources)).0
      ensures fresh(requests.repr - old(requests.repr))
    {
      if nrts.Some? {
        ReceiveNrts(nrts.value);
      }
      PushAll(dst, sources);
    }

    method HandleFirst(grants: seq<Request>, ghost all: Outcome) returns (granted: Option<Request>)
      requires Valid() && requests.contents != []
      requires StillToServe(all, grants, senderState, receiverState, requests.contents)
      modifies this, requests
      ensures Valid() && requests.contents == old(requests.contents)[1..]
      ensures StillToServe(all, if granted.Some? then grants + [granted.value] else grants, senderState, receiverState, requests.contents)
    {
      var pair := requests.Peek();
      granted := None;
      if Free(senderState, pair.src) && Free(receiverState, pair.dst) {
        Rewritten(senderState, pair.src, 0);
        Rewritten(receiverState, pair.dst, 0);
        senderState := (senderState - {pair.src})[pair.src := 0];
        receiverState := (receiverState - {pair.dst})[pair.dst := 0];
        granted := Some(Item(pair, requests.head.priority));
        assert grants + [granted.value] + [] == grants + [granted.value];
      }
      requests.Pop();
    }

    /** How many tokens a grant carries, for some random number. */
    method TokenNumber() returns (tokens: nat)
      requires minTokens < maxTokens
      ensures minTokens <= tokens < maxTokens
    {
      var random: nat := *;
      tokens := random % (maxTokens - minTokens) + minTokens;
    }

    /** The list is emptied; `tokens` are the numbers the grants carry, in their order. */
    method HandleRequests() returns (grants: seq<Request>, tokens: seq<nat>)
      requires Valid()
      modifies this, requests
      ensures Valid() && Value() == Next(old(Value()), Timer).0
      ensures grants == Serve(old(senderState), old(receiverState), old(requests.contents)).grants
      ensures |tokens| == |grants| && forall i | 0 <= i < |tokens| :: minTokens <= tokens[i] < maxTokens
    {
      grants, tokens := [], [];
      ghost var all := Serve(senderState, receiverState, requests.contents);
      while !requests.IsEmpty()
        invariant Valid() && StillToServe(all, grants, senderState, receiverState, requests.contents)
        invariant |tokens| == |grants| && forall i | 0 <= i < |tokens| :: minTokens <= tokens[i] < maxTokens
        decreases |requests.contents|
      {
        var granted := HandleFirst(grants, all);
        if granted.Some? {
          var number := TokenNumber();
          grants, tokens := grants + [granted.value], tokens + [number];
        }
      }
    }
  }

  /** Serving what is left, after `grants`, gives the whole outcome. */
  ghost predicate StillToServe(all: Outcome, grants: seq<Request>, senders: Table, receivers: Table, requests: seq<Request>) {
    var o := Serve(senders, receivers, requests);
    all == Outcome(o.senders, o.receivers, grants + o.grants)
  }

  lemma Rewritten(table: Table, id: nat, v: nat)
    ensures (table - {id})[id := v] == table[id := v]
  {
  }
}
