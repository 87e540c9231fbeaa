/**
 The receiving side of a Capability host: every processing event sends at most one capability, to the
 first flow that may have one.  A priority host tries flows in any order here (the order depends on
 fields that change while flows are queued); a random host sticks to its last flow first and then
 draws without replacement, filling the hole with the last element.
 */
module CapabilityHost {
  import opened Options
  import opened PriorityQueue
  import opened FlowQueue
  import opened TokenFlow
  import opened CapabilityFlow
  import opened CapabilityRound
  import opened Timers

  class CapabilityHost {
    const params: Params
    const initial: nat
    const firstTimeout: nat
    const randomHost: bool
    var flows: Flows
    var requested: set<nat>
    var active: seq<nat>
    var recvFlow: Option<nat>
    var holdOn: nat
    /** The pending processing event, and whether it only waits for a timeout. */
    var capaProcEvt: Option<bool>
    /** How many uncancelled processing events the event queue holds. */
    var liveEvents: int

    ghost predicate Valid()
      reads this
    {
      && FlowsOk(flows) && QueueOk(flows, requested, active)
      && (randomHost && recvFlow.Some? ==> recvFlow.value in active)
      && liveEvents == if capaProcEvt.Some? then 1 else 0
    }

    constructor (params: Params, initial: nat, firstTimeout: nat, randomHost: bool, flows: Flows)
      requires FlowsOk(flows)
      ensures Valid() && this.flows == flows && requested == {}
    {
      this.params, this.initial, this.firstTimeout, this.randomHost := params, initial, firstTimeout, randomHost;
      this.flows, requested, active, recvFlow, holdOn := flows, {}, [], None, 0;
      capaProcEvt, liveEvents := None, 0;
    }

    method ScheduleCapaProcEvt(isTimeout: bool)
      requires capaProcEvt.None?
      modifies this`capaProcEvt, this`liveEvents
      ensures capaProcEvt == Some(isTimeout) && liveEvents == old(liveEvents) + 1
    {
      capaProcEvt := Some(isTimeout);
      liveEvents := liveEvents + 1;
    }

    /** A flow is announced: it starts counting, and a host that only waits for a timeout wakes up. */
    method ReceiveRts(f: nat, now: nat)
      requires Valid() && f in flows && f !in requested
      modifies this
      ensures Valid() && requested == old(requested) + {f} && active == old(active) + [f]
      ensures flows == old(flows)[f := SetCount(old(flows)[f], initial, now, firstTimeout)]
      ensures holdOn == if flows[f].size <= initial then flows[f].size else 0
      ensures capaProcEvt == Some(false)
    {
      RequestQueued(flows, requested, active, f, SetCount(flows[f], initial, now, firstTimeout));
      flows := flows[f := SetCount(flows[f], initial, now, firstTimeout)];
      holdOn := if flows[f].size <= initial then flows[f].size else 0;
      active, requested := active + [f], requested + {f};
      if capaProcEvt.Some? && capaProcEvt.value {
        capaProcEvt, liveEvents := None, liveEvents - 1;
      }
      if capaProcEvt.None? {
        ScheduleCapaProcEvt(false);
      }
    }

    /** Takes some flow out of the active ones; a random host takes the one it served last. */
    method ChooseRecvFlow() returns (f: Option<nat>)
      requires randomHost && recvFlow.Some? ==> recvFlow.value in active
      modifies this`active, this`recvFlow
      ensures f.None? <==> old(active) == []
      ensures f.None? ==> active == [] && recvFlow == old(recvFlow)
      ensures f.Some? ==> multiset(old(active)) == multiset(active) + multiset{f.value} && |active| == |old(active)| - 1
      ensures randomHost && old(recvFlow).Some? ==> f == old(recvFlow)
      ensures randomHost ==> recvFlow.None? || (f.None? && recvFlow == old(recvFlow))
    {
      f := None;
      if randomHost {
        if recvFlow.Some? {
          f := recvFlow;
          recvFlow := None;
          var i := 0;
          while active[i] != f.value
            invariant 0 <= i < |active| && f.value in active[i..]
            decreases |active| - i
          {
            i := i + 1;
          }
          RemoveAtMultiset(active, i);
          active := RemoveAt(active, i);
        } else if active != [] {
          var index :| 0 <= index < |active|;
          f := Some(active[index]);
          SwapRemoveTakesOne(active, index);
          active := SwapRemove(active, index);
        }
      } else if active != [] {
        var top :| 0 <= top < |active|;
        f := Some(active[top]);
        RemoveAtMultiset(active, top);
        active := RemoveAt(active, top);
      }
    }

    /** One flow's turn. */
    method Visit(f: nat, now: int, closest: int) returns (issued: Option<Issued>, closest': int)
      requires f in flows && FlowOk(flows[f]) && !flows[f].finished && (closest < HORIZON ==> now < closest)
      modifies this`flows
      ensures f in flows && FlowOk(flows[f]) && !flows[f].finished && flows == old(flows)[f := flows[f]]
      ensures issued.Some? ==> issued.value.flow == f && IssuedTo(old(flows), flows, issued.value, params, now)
      ensures HadTurn(old(flows)[f], flows[f], params, now, issued.Some?)
      ensures issued.None? ==> WaitsUntil(flows, f, params, now, closest')
      ensures closest' == closest || ReadyAt(flows, f, params, now, closest')
      ensures closest' <= closest && (closest' < HORIZON ==> now < closest')
    {
      WaitingIsStable(flows[f], params, now);
      var (g, v) := CapabilityTurn(flows[f], params, now);
      flows := flows[f := g];
      closest', issued := closest, None;
      match v {
        case Blocked(until) =>
          if until < closest {
            closest' := until;
          }
        case Sent(dataSeq, capabilitySeq) =>
          issued := Some(Issued(f, dataSeq, capabilitySeq));
      }
    }

    /** Gives a flow just taken out its turn; it goes back later. */
    method TakeTurn(f: nat, tried: seq<nat>, now: int, closest: int, ghost flows0: Flows, ghost active0: seq<nat>)
      returns (issued: Option<Issued>, closest': int)
      requires HalfRound(flows0, flows, active0, active, tried, f)
      requires !flows[f].finished && f !in tried && f in flows0 && flows0[f] == flows[f]
      requires Outcome(flows0, flows, tried, None, closest, params, now)
      modifies this`flows
      ensures MidRound(flows0, flows, active0, active, tried + [f])
      ensures issued.Some? ==> issued.value.flow == f
      ensures Outcome(flows0, flows, tried + [f], issued, closest', params, now)
    {
      ghost var was := flows;
      issued, closest' := Visit(f, now, closest);
      TurnKeepsRound(flows0, was, active0, active, tried, f, flows[f]);
      OneMoreTurn(flows0, was, f, flows[f], issued.Some?, params, now);
      if issued.None? {
        OneMoreWaits(was, tried, params, now, closest, f, flows[f], closest');
      }
    }

    /** Takes out one flow and, unless it is finished, gives it its turn. */
    method TryNext(tried: seq<nat>, now: int, closest: int, ghost flows0: Flows, ghost active0: seq<nat>)
      returns (tried': seq<nat>, issued: Option<Issued>, closest': int)
      requires active != [] && MidRound(flows0, flows, active0, active, tried) && KnownOnce(flows0, active0)
      requires Remembered(randomHost, recvFlow, active, tried, None) && Outcome(flows0, flows, tried, None, closest, params, now)
      modifies this`flows, this`active, this`recvFlow
      ensures MidRound(flows0, flows, active0, active, tried') && |active| < |old(active)|
      ensures Remembered(randomHost, recvFlow, active, tried', issued) && Outcome(flows0, flows, tried', issued, closest', params, now)
    {
      tried', issued, closest' := tried, None, closest;
      ghost var before := active;
      var chosen := ChooseRecvFlow();
      var f := chosen.value;
      PoppedFlow(flows0, flows, active0, before, active, tried, f);
      if !flows[f].finished {
        tried' := tried + [f];
        issued, closest' := TakeTurn(f, tried, now, closest, flows0, active0);
        if issued.Some? {
          recvFlow := Some(f);
        }
      }
    }

    /** Popped unfinished flows go back. */
    method PutBack(tried: seq<nat>, ghost issued: Option<Issued>, ghost closest: int, ghost now: int,
                   ghost flows0: Flows, ghost active0: seq<nat>)
      requires MidRound(flows0, flows, active0, active, tried) && QueueOk(flows0, requested, active0)
      requires Outcome(flows0, flows, tried, issued, closest, params, now) && (issued.Some? || active == [])
      modifies this`active
      ensures FlowsOk(flows) && QueueOk(flows, requested, active)
      ensures forall f | f in old(active) || f in tried :: f in active
      ensures DropsOnlyFinished(flows0, multiset(active0), multiset(active))
      ensures Outcome(flows0, flows, active, issued, closest, params, now)
    {
      RoundEnds(flows0, flows, requested, active0, active, tried);
      if issued.None? {
        QueueWaits(flows, active, tried, params, now, closest);
      }
      active := active + tried;
    }

    /** Flows are tried until one gets a capability or none is left. */
    method TryAll(now: int, ghost flows0: Flows, ghost active0: seq<nat>) returns (tried: seq<nat>, issued: Option<Issued>, closest: int)
      requires MidRound(flows0, flows, active0, active, []) && KnownOnce(flows0, active0)
      requires Remembered(randomHost, recvFlow, active, [], None)
      modifies this`flows, this`active, this`recvFlow
      ensures MidRound(flows0, flows, active0, active, tried) && (issued.Some? || active == [])
      ensures Remembered(randomHost, recvFlow, active, tried, issued) && Outcome(flows0, flows, tried, issued, closest, params, now)
    {
      tried, issued, closest := [], None, HORIZON;
      while issued.None? && active != []
        invariant MidRound(flows0, flows, active0, active, tried)
        invariant Remembered(randomHost, recvFlow, active, tried, issued) && Outcome(flows0, flows, tried, issued, closest, params, now)
        decreases |active|
      {
        tried, issued, closest := TryNext(tried, now, closest, flows0, active0);
      }
    }

    /** The loop over the active flows; popped unfinished flows go back. */
    method CapabilityLoop(now: int) returns (issued: Option<Issued>, closest: int)
      requires FlowsOk(flows) && QueueOk(flows, requested, active)
      requires Remembered(randomHost, recvFlow, active, [], None)
      modifies this`flows, this`active, this`recvFlow
      ensures FlowsOk(flows) && QueueOk(flows, requested, active) && flows.Keys == old(flows).Keys
      ensures randomHost && recvFlow.Some? ==> recvFlow.value in active
      ensures DropsOnlyFinished(old(flows), multiset(old(active)), multiset(active))
      ensures Outcome(old(flows), flows, active, issued, closest, params, now)
    {
      ghost var flows0, active0 := flows, active;
      RoundStarts(flows, requested, active);
      var tried;
      tried, issued, closest := TryAll(now, flows0, active0);
      PutBack(tried, issued, closest, now, flows0, active0);
    }

    method ScheduleNext(sent: bool, closest: int, now: int)
      requires capaProcEvt.None? && (closest < HORIZON ==> now < closest)
      modifies this`capaProcEvt, this`liveEvents
      ensures capaProcEvt == if sent then Some(false) else if closest < HORIZON then Some(true) else None
      ensures liveEvents == old(liveEvents) + if capaProcEvt.Some? then 1 else 0
    {
      if sent {
        ScheduleCapaProcEvt(false);
      } else if closest < HORIZON {
        assert closest > now;
        ScheduleCapaProcEvt(true);
      }
    }

    /** At most one capability; then the next event is set. */
    method SendOne(now: int) returns (issued: Option<Issued>, closest: int)
      requires Valid() && capaProcEvt.None?
      modifies this
      ensures Valid() && requested == old(requested) && flows.Keys == old(flows).Keys && holdOn == old(holdOn)
      ensures DropsOnlyFinished(old(flows), multiset(old(active)), multiset(active))
      ensures Outcome(old(flows), flows, active, issued, closest, params, now)
      ensures capaProcEvt == if issued.Some? then Some(false) else if closest < HORIZON then Some(true) else None
    {
      issued, closest := CapabilityLoop(now);
      ScheduleNext(issued.Some?, closest, now);
    }

    /**
     The processing event: at most one capability; the next event follows at once, at the moment the
     first waiting flow is ready, or never when no unfinished flow waits within the horizon.
     */
    method SendCapability(now: int) returns (issued: Option<Issued>, closest: int)
      requires Valid() && capaProcEvt.None?
      modifies this
      ensures Valid() && requested == old(requested) && flows.Keys == old(flows).Keys
      ensures old(holdOn) > 0 ==>
                issued.None? && flows == old(flows) && active == old(active) && capaProcEvt == Some(false) && holdOn == old(holdOn) - 1
      ensures DropsOnlyFinished(old(flows), multiset(old(active)), multiset(active))
      ensures Turns(old(flows), flows, FlowOf(issued), params, now) && OneToken(old(flows), flows, FlowOf(issued))
      ensures issued.Some? ==> IssuedTo(old(flows), flows, issued.value, params, now) && capaProcEvt == Some(false)
      ensures old(holdOn) == 0 && issued.None? ==>
                AllWait(flows, active, params, now, closest) && capaProcEvt == if closest < HORIZON then Some(true) else None
      ensures closest < HORIZON ==> now < closest
    {
      if holdOn > 0 {
        holdOn := holdOn - 1;
        issued, closest := None, HORIZON;
        ScheduleCapaProcEvt(false);
      } else {
        issued, closest := SendOne(now);
      }
      TurnsIssueOne(old(flows), flows, FlowOf(issued), params, now);
    }
  }
}
