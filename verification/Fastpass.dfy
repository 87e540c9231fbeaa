/**
 The Fastpass arbiter: each time slot gets a conflict-free set of flows, chosen greedily; eight slots
 make an epoch.  The order in which the heap yields flows is left open, because the arbiter changes
 the keys of flows inside it.
 */
module Fastpass {
  import opened Options
  import opened PriorityQueue
  import opened Matching

  const EPOCH_PKTS := 8

  datatype Flow = Flow(src: nat, dst: nat, remaining: int, receivedRts: bool, finished: bool)

  type Flows = map<nat, Flow>

  predicate Wants(flows: Flows, f: nat) {
    f in flows && !flows[f].finished && flows[f].remaining > 0
  }

  predicate Scheduled(flows: Flows, schedule: map<nat, nat>, f: nat) {
    f in flows && flows[f].src in schedule && schedule[flows[f].src] == f
  }

  /** Every scheduled flow has one packet less to go, and nothing else has changed. */
  ghost predicate Served(flows: Flows, flows': Flows, schedule: map<nat, nat>) {
    && flows'.Keys == flows.Keys
    && forall f | f in flows ::
         flows'[f] == if Scheduled(flows, schedule, f) then flows[f].(remaining := flows[f].remaining - 1) else flows[f]
  }

  /** A slot's schedule: under each sender one of its own flows that wants a packet, receivers all different. */
  ghost predicate ConflictFreeSlot(flows: Flows, schedule: map<nat, nat>) {
    && (forall s | s in schedule :: Wants(flows, schedule[s]) && flows[schedule[s]].src == s)
    && (forall s, t | s in schedule && t in schedule && flows[schedule[s]].dst == flows[schedule[t]].dst :: s == t)
  }

  /** A flow that got nothing shares a port with one that got the slot. */
  ghost predicate ShutOut(flows: Flows, schedule: map<nat, nat>, f: nat) {
    f in flows && (flows[f].src in schedule
                   || exists s :: s in schedule && schedule[s] in flows && flows[schedule[s]].dst == flows[f].dst)
  }

  ghost predicate MaximalSlot(flows: Flows, schedule: map<nat, nat>, queue: seq<nat>) {
    forall f | f in queue && Wants(flows, f) :: ShutOut(flows, schedule, f)
  }

  /** Finished flows leave, nothing else does. */
  ghost predicate KeepsUnfinished(flows: Flows, queue: multiset<nat>, queue': multiset<nat>) {
    && queue' <= queue
    && forall f | f in queue && f in flows && !flows[f].finished :: queue'[f] == queue[f]
  }

  function SlotEdges(flows: Flows, schedule: map<nat, nat>): set<Edge>
    requires forall s | s in schedule :: schedule[s] in flows
  {
    set s | s in schedule :: Edge(schedule[s], flows[schedule[s]].src, flows[schedule[s]].dst)
  }

  /** No conflict-free set of waiting flows is more than twice as large as what the slot holds. */
  lemma SlotIsHalfOptimal(flows: Flows, schedule: map<nat, nat>, queue: seq<nat>, other: set<Edge>)
    requires ConflictFreeSlot(flows, schedule) && MaximalSlot(flows, schedule, queue)
    requires ConflictFree(other)
    requires forall e | e in other :: e.id in queue && Wants(flows, e.id) && e == Edge(e.id, flows[e.id].src, flows[e.id].dst)
    ensures ConflictFree(SlotEdges(flows, schedule))
    ensures |SlotEdges(flows, schedule)| == |schedule|
    ensures |other| <= 2 * |schedule|
  {
    var chosen := SlotEdges(flows, schedule);
    forall e | e in other
      ensures exists m :: m in chosen && Conflict(m, e)
    {
      assert ShutOut(flows, schedule, e.id);
      var s :| s in schedule && (s == flows[e.id].src || flows[schedule[s]].dst == flows[e.id].dst);
      var m := Edge(schedule[s], flows[schedule[s]].src, flows[schedule[s]].dst);
      assert m in chosen && Conflict(m, e);
    }
    ConflictFreeIsOneToOne(chosen);
    forall s | s in schedule
      ensures s in Sources(chosen)
    {
      assert Edge(schedule[s], flows[schedule[s]].src, flows[schedule[s]].dst) in chosen;
    }
    assert Sources(chosen) == schedule.Keys;
    AtLeastHalf(chosen, other, other);
  }

  // ---- Packet counts over an epoch ----

  /** How many slots of a sender's row went to a flow. */
  function SlotsUsed(row: seq<Option<nat>>, f: nat): nat {
    if row == [] then 0
    else SlotsUsed(row[..|row| - 1], f) + if row[|row| - 1] == Some(f) then 1 else 0
  }

  lemma OneMoreSlot(row: seq<Option<nat>>, x: Option<nat>, f: nat)
    ensures SlotsUsed(row + [x], f) == SlotsUsed(row, f) + if x == Some(f) then 1 else 0
  {
    assert (row + [x])[..|row|] == row;
  }

  /** The rows after one more slot. */
  function WithSlot(rows: seq<seq<Option<nat>>>, schedule: map<nat, nat>): seq<seq<Option<nat>>> {
    seq(|rows|, h requires 0 <= h < |rows| => rows[h] + [if h in schedule then Some(schedule[h]) else None])
  }

  type Rows = seq<seq<Option<nat>>>

  /** `k` slots long, and each row holds its own sender's flows. */
  ghost predicate OwnRows(flows0: Flows, rows: Rows, k: nat) {
    && (forall h | 0 <= h < |rows| :: |rows[h]| == k)
    && (forall h, i | 0 <= h < |rows| && 0 <= i < k && rows[h][i].Some? ::
          rows[h][i].value in flows0 && flows0[rows[h][i].value].src == h)
  }

  /** No receiver is served twice in a slot. */
  ghost predicate DistinctReceivers(flows0: Flows, rows: Rows, k: nat) {
    forall i | 0 <= i < k :: DistinctAt(flows0, rows, i)
  }

  ghost predicate DistinctAt(flows0: Flows, rows: Rows, i: nat) {
    forall h, g | 0 <= h < |rows| && 0 <= g < |rows| && UsesSlot(flows0, rows, h, i) && UsesSlot(flows0, rows, g, i)
                && flows0[rows[h][i].value].dst == flows0[rows[g][i].value].dst :: h == g
  }

  predicate UsesSlot(flows0: Flows, rows: Rows, h: nat, i: nat)
    requires h < |rows|
  {
    i < |rows[h]| && rows[h][i].Some? && rows[h][i].value in flows0
  }

  /** A flow's packets left and slots used add up to what it had. */
  ghost predicate AddsUp(flows0: Flows, flows: Flows, rows: Rows) {
    && flows.Keys == flows0.Keys
    && forall f | f in flows && flows0[f].src < |rows| ::
         && flows[f] == flows0[f].(remaining := flows0[f].remaining - SlotsUsed(rows[flows0[f].src], f))
         && (0 <= flows0[f].remaining ==> 0 <= flows[f].remaining)
  }

  lemma SlotAddsUp(flows0: Flows, flows: Flows, flows': Flows, rows: Rows, schedule: map<nat, nat>)
    requires AddsUp(flows0, flows, rows) && ConflictFreeSlot(flows, schedule) && Served(flows, flows', schedule)
    ensures AddsUp(flows0, flows', WithSlot(rows, schedule))
  {
    var rows' := WithSlot(rows, schedule);
    forall f | f in flows' && flows0[f].src < |rows|
      ensures flows'[f] == flows0[f].(remaining := flows0[f].remaining - SlotsUsed(rows'[flows0[f].src], f))
      ensures 0 <= flows0[f].remaining ==> 0 <= flows'[f].remaining
    {
      var h := flows0[f].src;
      OneMoreSlot(rows[h], if h in schedule then Some(schedule[h]) else None, f);
    }
  }

  lemma SlotKeepsRows(flows0: Flows, flows: Flows, rows: Rows, k: nat, schedule: map<nat, nat>)
    requires AddsUp(flows0, flows, rows) && ConflictFreeSlot(flows, schedule)
    requires forall f | f in flows :: flows0[f].src < |rows|
    requires OwnRows(flows0, rows, k)
    ensures OwnRows(flows0, WithSlot(rows, schedule), k + 1)
  {
    var rows' := WithSlot(rows, schedule);
    assert forall h, i | 0 <= h < |rows| && 0 <= i < k :: rows'[h][i] == rows[h][i];
    assert forall h | 0 <= h < |rows| :: rows'[h][k] == if h in schedule then Some(schedule[h]) else None;
    assert forall h | h in schedule :: flows0[schedule[h]].src == h;
  }

  lemma DistinctStays(flows0: Flows, rows: Rows, k: nat, schedule: map<nat, nat>, i: nat)
    requires (forall h | 0 <= h < |rows| :: |rows[h]| == k) && i < k && DistinctAt(flows0, rows, i)
    ensures DistinctAt(flows0, WithSlot(rows, schedule), i)
  {
    var rows' := WithSlot(rows, schedule);
    assert forall h | 0 <= h < |rows| :: rows'[h][i] == rows[h][i] && UsesSlot(flows0, rows', h, i) == UsesSlot(flows0, rows, h, i);
  }

  lemma DistinctNow(flows0: Flows, flows: Flows, rows: Rows, k: nat, schedule: map<nat, nat>)
    requires AddsUp(flows0, flows, rows) && ConflictFreeSlot(flows, schedule)
    requires forall f | f in flows :: flows0[f].src < |rows|
    requires forall h | 0 <= h < |rows| :: |rows[h]| == k
    ensures DistinctAt(flows0, WithSlot(rows, schedule), k)
  {
    var rows' := WithSlot(rows, schedule);
    assert forall h | 0 <= h < |rows| :: rows'[h][k] == if h in schedule then Some(schedule[h]) else None;
    assert forall h | h in schedule :: flows0[schedule[h]].dst == flows[schedule[h]].dst;
  }

  lemma SlotKeepsDistinct(flows0: Flows, flows: Flows, rows: Rows, k: nat, schedule: map<nat, nat>)
    requires AddsUp(flows0, flows, rows) && ConflictFreeSlot(flows, schedule)
    requires forall f | f in flows :: flows0[f].src < |rows|
    requires (forall h | 0 <= h < |rows| :: |rows[h]| == k) && DistinctReceivers(flows0, rows, k)
    ensures DistinctReceivers(flows0, WithSlot(rows, schedule), k + 1)
  {
    forall i | 0 <= i < k + 1
      ensures DistinctAt(flows0, WithSlot(rows, schedule), i)
    {
      if i < k {
        DistinctStays(flows0, rows, k, schedule, i);
      } else {
        DistinctNow(flows0, flows, rows, k, schedule);
      }
    }
  }

  /** In every slot so far, a flow that still wants packets shared a port with a flow that was served. */
  ghost predicate AlwaysShutOut(flows0: Flows, rows: Rows, k: nat, f: nat) {
    forall i | 0 <= i < k :: Blocked(flows0, rows, i, f)
  }

  ghost predicate Blocked(flows0: Flows, rows: Rows, i: nat, f: nat) {
    f in flows0 && exists h :: 0 <= h < |rows| && i < |rows[h]| && rows[h][i].Some? && rows[h][i].value in flows0
                       && (h == flows0[f].src || flows0[rows[h][i].value].dst == flows0[f].dst)
  }

  // ---- A slot being filled ----

  ghost predicate NoneFinished(flows: Flows, queue: seq<nat>) {
    forall f | f in queue :: f in flows && !flows[f].finished
  }

  /** `q` is still to come, `tried` has been looked at, and what is gone was finished. */
  ghost predicate SlotSoFar(flows0: Flows, flows: Flows, queue: seq<nat>, q: seq<nat>, tried: seq<nat>, schedule: map<nat, nat>) {
    && ConflictFreeSlot(flows0, schedule) && Served(flows0, flows, schedule)
    && (forall s | s in schedule :: schedule[s] in tried && schedule[s] in queue)
    && (forall f | f in queue :: f in flows0)
    && (forall f | f in tried && Wants(flows0, f) :: ShutOut(flows0, schedule, f))
    && NoneFinished(flows0, tried)
    && KeepsUnfinished(flows0, multiset(queue), multiset(q) + multiset(tried))
  }

  lemma PopKnows(flows0: Flows, flows: Flows, queue: seq<nat>, q: seq<nat>, tried: seq<nat>, schedule: map<nat, nat>, i: nat)
    requires SlotSoFar(flows0, flows, queue, q, tried, schedule) && i < |q|
    ensures q[i] in queue && q[i] in flows
    ensures flows[q[i]].finished ==> SlotSoFar(flows0, flows, queue, RemoveAt(q, i), tried, schedule)
    ensures !flows[q[i]].finished && (ShutOut(flows0, schedule, q[i]) || !Wants(flows0, q[i])) ==>
              SlotSoFar(flows0, flows, queue, RemoveAt(q, i), tried + [q[i]], schedule)
    ensures KeepsUnfinished(flows0, multiset(queue), multiset(RemoveAt(q, i)) + multiset(tried + [q[i]]))
  {
    RemoveAtMultiset(q, i);
    assert q[i] in multiset(q);
    assert q[i] in multiset(queue);
    assert multiset(tried + [q[i]]) == multiset(tried) + multiset{q[i]};
  }

  function ReceiversOf(flows: Flows, schedule: map<nat, nat>): set<nat> {
    set s | s in schedule && schedule[s] in flows :: flows[schedule[s]].dst
  }

  lemma OneMoreReceiver(flows: Flows, schedule: map<nat, nat>, src: nat, f: nat)
    requires src !in schedule && f in flows
    ensures ReceiversOf(flows, schedule[src := f]) == ReceiversOf(flows, schedule) + {flows[f].dst}
  {
    var schedule' := schedule[src := f];
    forall d | d in ReceiversOf(flows, schedule) + {flows[f].dst}
      ensures d in ReceiversOf(flows, schedule')
    {
      if d in ReceiversOf(flows, schedule) {
        var s :| s in schedule && schedule[s] in flows && flows[schedule[s]].dst == d;
        assert schedule'[s] == schedule[s];
      } else {
        assert schedule'[src] == f;
      }
    }
  }

  lemma TakeServes(flows0: Flows, flows: Flows, schedule: map<nat, nat>, f: nat)
    requires ConflictFreeSlot(flows0, schedule) && Served(flows0, flows, schedule)
    requires Wants(flows, f) && flows[f].src !in schedule
    requires forall s | s in schedule :: flows0[schedule[s]].dst != flows[f].dst
    ensures ConflictFreeSlot(flows0, schedule[flows[f].src := f])
    ensures Served(flows0, flows[f := flows[f].(remaining := flows[f].remaining - 1)], schedule[flows[f].src := f])
  {
  }

  lemma TakeShutsOut(flows: Flows, tried: seq<nat>, schedule: map<nat, nat>, f: nat)
    requires f in flows && flows[f].src !in schedule && (forall s | s in schedule :: schedule[s] in flows)
    requires forall g | g in tried && Wants(flows, g) :: ShutOut(flows, schedule, g)
    ensures forall g | g in tried + [f] && Wants(flows, g) :: ShutOut(flows, schedule[flows[f].src := f], g)
  {
    var schedule' := schedule[flows[f].src := f];
    forall g | g in tried + [f] && Wants(flows, g)
      ensures ShutOut(flows, schedule', g)
    {
      if g != f && flows[g].src !in schedule {
        var s :| s in schedule && flows[schedule[s]].dst == flows[g].dst;
        assert schedule'[s] == schedule[s];
      }
    }
  }

  /** A flow whose ports are both unused takes its sender's place in the slot. */
  lemma TakeKeeps(flows0: Flows, flows: Flows, queue: seq<nat>, q: seq<nat>, tried: seq<nat>, schedule: map<nat, nat>, i: nat)
    requires SlotSoFar(flows0, flows, queue, q, tried, schedule) && i < |q|
    requires Wants(flows, q[i]) && flows[q[i]].src !in schedule
    requires flows[q[i]].dst !in ReceiversOf(flows0, schedule)
    ensures var f := q[i];
            ReceiversOf(flows0, schedule[flows[f].src := f]) == ReceiversOf(flows0, schedule) + {flows[f].dst}
    ensures var f := q[i];
            SlotSoFar(flows0, flows[f := flows[f].(remaining := flows[f].remaining - 1)], queue,
                      RemoveAt(q, i), tried + [f], schedule[flows[f].src := f])
  {
    var f := q[i];
    PopKnows(flows0, flows, queue, q, tried, schedule, i);
    OneMoreReceiver(flows0, schedule, flows[f].src, f);
    TakeKeepsSlot(flows0, flows, queue, q, tried, schedule, i);
  }

  lemma TakeKeepsSlot(flows0: Flows, flows: Flows, queue: seq<nat>, q: seq<nat>, tried: seq<nat>, schedule: map<nat, nat>, i: nat)
    requires SlotSoFar(flows0, flows, queue, q, tried, schedule) && i < |q|
    requires Wants(flows, q[i]) && flows[q[i]].src !in schedule
    requires flows[q[i]].dst !in ReceiversOf(flows0, schedule)
    ensures var f := q[i];
            SlotSoFar(flows0, flows[f := flows[f].(remaining := flows[f].remaining - 1)], queue,
                      RemoveAt(q, i), tried + [f], schedule[flows[f].src := f])
  {
    var f := q[i];
    PopKnows(flows0, flows, queue, q, tried, schedule, i);
    TakeServes(flows0, flows, schedule, f);
    TakeShutsOut(flows0, tried, schedule, f);
  }

  /** Each way a flow can be treated keeps the slot in order. */
  lemma OfferKeeps(flows0: Flows, flows: Flows, queue: seq<nat>, q: seq<nat>, tried: seq<nat>, schedule: map<nat, nat>, i: nat)
    requires SlotSoFar(flows0, flows, queue, q, tried, schedule) && i < |q|
    ensures q[i] in flows
    ensures flows[q[i]].finished ==> SlotSoFar(flows0, flows, queue, RemoveAt(q, i), tried, schedule)
    ensures var f := q[i];
            !flows[f].finished ==>
              if flows[f].remaining > 0 && flows[f].src !in schedule && flows[f].dst !in ReceiversOf(flows0, schedule) then
                && ReceiversOf(flows0, schedule[flows[f].src := f]) == ReceiversOf(flows0, schedule) + {flows[f].dst}
                && SlotSoFar(flows0, flows[f := flows[f].(remaining := flows[f].remaining - 1)], queue,
                             RemoveAt(q, i), tried + [f], schedule[flows[f].src := f])
              else SlotSoFar(flows0, flows, queue, RemoveAt(q, i), tried + [f], schedule)
  {
    var f := q[i];
    PopKnows(flows0, flows, queue, q, tried, schedule, i);
    if !flows[f].finished && flows[f].remaining > 0 && flows[f].src !in schedule && flows[f].dst !in ReceiversOf(flows0, schedule) {
      TakeKeeps(flows0, flows, queue, q, tried, schedule, i);
    }
  }

  lemma SlotStarts(flows: Flows, queue: seq<nat>)
    requires forall f | f in queue :: f in flows
    ensures SlotSoFar(flows, flows, queue, queue, [], map[]) && ReceiversOf(flows, map[]) == {}
  {
    assert multiset(queue) + multiset([]) == multiset(queue);
  }

  lemma SlotDone(flows0: Flows, flows: Flows, queue: seq<nat>, tried: seq<nat>, schedule: map<nat, nat>)
    requires SlotSoFar(flows0, flows, queue, [], tried, schedule)
    ensures MaximalSlot(flows0, schedule, queue)
    ensures KeepsUnfinished(flows, multiset(queue), multiset(tried)) && NoneFinished(flows, tried)
  {
    forall f | f in queue && Wants(flows0, f)
      ensures f in tried
    {
      assert f in multiset(queue);
      assert f in multiset(tried);
    }
  }

  lemma BlockedStays(flows0: Flows, rows: Rows, k: nat, schedule: map<nat, nat>, f: nat)
    requires forall h | 0 <= h < |rows| :: |rows[h]| == k
    requires AlwaysShutOut(flows0, rows, k, f)
    ensures AlwaysShutOut(flows0, WithSlot(rows, schedule), k, f)
  {
    var rows' := WithSlot(rows, schedule);
    forall i | 0 <= i < k
      ensures Blocked(flows0, rows', i, f)
    {
      assert Blocked(flows0, rows, i, f);
      var h :| 0 <= h < |rows| && rows[h][i].Some? && rows[h][i].value in flows0
               && (h == flows0[f].src || flows0[rows[h][i].value].dst == flows0[f].dst);
      assert rows'[h][i] == rows[h][i];
    }
  }

  lemma BlockedNow(flows0: Flows, flows: Flows, rows: Rows, k: nat, schedule: map<nat, nat>, f: nat)
    requires AddsUp(flows0, flows, rows) && ConflictFreeSlot(flows, schedule) && ShutOut(flows, schedule, f)
    requires forall g | g in flows :: flows0[g].src < |rows|
    requires forall h | 0 <= h < |rows| :: |rows[h]| == k
    ensures Blocked(flows0, WithSlot(rows, schedule), k, f)
  {
    var s :| s in schedule && (s == flows[f].src || flows[schedule[s]].dst == flows[f].dst);
    assert WithSlot(rows, schedule)[s][k] == Some(schedule[s]);
  }

  /** Flows that still want packets after a slot wanted them before it, and were shut out of it. */
  lemma ShutOutGrows(flows0: Flows, flows: Flows, flows': Flows, rows: Rows, k: nat, schedule: map<nat, nat>,
                     queue: seq<nat>, queue': seq<nat>)
    requires AddsUp(flows0, flows, rows) && ConflictFreeSlot(flows, schedule) && MaximalSlot(flows, schedule, queue)
    requires forall f | f in flows :: flows0[f].src < |rows|
    requires forall h | 0 <= h < |rows| :: |rows[h]| == k
    requires multiset(queue') <= multiset(queue) && Served(flows, flows', schedule)
    requires forall f | f in queue && Wants(flows, f) :: AlwaysShutOut(flows0, rows, k, f)
    ensures forall f | f in queue' && Wants(flows', f) :: AlwaysShutOut(flows0, WithSlot(rows, schedule), k + 1, f)
  {
    forall f | f in queue' && Wants(flows', f)
      ensures AlwaysShutOut(flows0, WithSlot(rows, schedule), k + 1, f)
    {
      assert f in multiset(queue');
      assert f in multiset(queue);
      assert Wants(flows, f);
      BlockedStays(flows0, rows, k, schedule, f);
      BlockedNow(flows0, flows, rows, k, schedule, f);
    }
  }

  /** Every announced, unfinished flow is queued, and no flow twice. */
  ghost predicate ArbiterOk(flows: Flows, queue: seq<nat>, numHosts: nat) {
    && (forall f | f in flows :: flows[f].src < numHosts && flows[f].dst < numHosts)
    && (forall f | f in queue :: f in flows && flows[f].receivedRts)
    && (forall f :: multiset(queue)[f] <= 1)
    && (forall f | f in flows && flows[f].receivedRts && !flows[f].finished :: f in queue)
  }

  lemma SlotKeepsArbiter(flows: Flows, flows': Flows, queue: seq<nat>, numHosts: nat, schedule: map<nat, nat>, queue': seq<nat>)
    requires ArbiterOk(flows, queue, numHosts) && KeepsUnfinished(flows, multiset(queue), multiset(queue'))
    requires Served(flows, flows', schedule)
    ensures ArbiterOk(flows', queue', numHosts)
    ensures KeepsUnfinished(flows', multiset(queue), multiset(queue'))
  {
    forall f
      ensures f in queue' ==> f in queue
      ensures f in queue && f in flows && !flows[f].finished ==> f in queue'
    {
      assert f in queue' <==> f in multiset(queue');
      assert f in queue <==> f in multiset(queue);
    }
  }

  /** Everything `k` slots of an epoch have achieved. */
  ghost predicate EpochSoFar(flows0: Flows, flows: Flows, queue0: seq<nat>, queue: seq<nat>, rows: Rows, k: nat) {
    && flows.Keys == flows0.Keys && (forall f | f in flows0 :: flows0[f].src < |rows|)
    && AddsUp(flows0, flows, rows)
    && OwnRows(flows0, rows, k) && DistinctReceivers(flows0, rows, k)
    && KeepsUnfinished(flows, multiset(queue0), multiset(queue))
    && forall f | f in queue && Wants(flows, f) :: AlwaysShutOut(flows0, rows, k, f)
  }

  lemma EpochStarts(flows: Flows, queue: seq<nat>, rows: Rows)
    requires forall f | f in flows :: flows[f].src < |rows|
    requires forall h | 0 <= h < |rows| :: rows[h] == []
    ensures EpochSoFar(flows, flows, queue, queue, rows, 0)
  {
  }

  lemma EpochOneMore(flows0: Flows, flows: Flows, flows': Flows, queue0: seq<nat>, queue: seq<nat>, rows: Rows, k: nat,
                     slot: map<nat, nat>, queue': seq<nat>)
    requires EpochSoFar(flows0, flows, queue0, queue, rows, k)
    requires ConflictFreeSlot(flows, slot) && MaximalSlot(flows, slot, queue)
    requires Served(flows, flows', slot) && KeepsUnfinished(flows', multiset(queue), multiset(queue'))
    ensures EpochSoFar(flows0, flows', queue0, queue', WithSlot(rows, slot), k + 1)
  {
    SlotAddsUp(flows0, flows, flows', rows, slot);
    SlotKeepsRows(flows0, flows, rows, k, slot);
    SlotKeepsDistinct(flows0, flows, rows, k, slot);
    ShutOutGrows(flows0, flows, flows', rows, k, slot, queue, queue');
    KeepsUnfinishedTwice(flows, flows', multiset(queue0), multiset(queue), multiset(queue'));
  }

  lemma KeepsUnfinishedTwice(before: Flows, flows: Flows, q0: multiset<nat>, q1: multiset<nat>, q2: multiset<nat>)
    requires KeepsUnfinished(before, q0, q1) && KeepsUnfinished(flows, q1, q2)
    requires flows.Keys == before.Keys && forall f | f in flows :: flows[f].finished == before[f].finished
    ensures KeepsUnfinished(flows, q0, q2)
  {
  }

  // ---- The arbiter object ----

  class FastpassArbiter {
    const numHosts: nat
    var flows: Flows
    var sendingFlows: seq<nat>

    ghost predicate Valid()
      reads this
    {
      ArbiterOk(flows, sendingFlows, numHosts)
    }

    constructor (numHosts: nat, flows: Flows)
      requires forall f | f in flows :: flows[f].src < numHosts && flows[f].dst < numHosts && !flows[f].receivedRts
      ensures Valid() && this.numHosts == numHosts && this.flows == flows && sendingFlows == []
    {
      this.numHosts, this.flows, sendingFlows := numHosts, flows, [];
    }

    /** The first request of a flow queues it; each one sets how much is left, or that nothing is. */
    method ReceiveRts(f: nat, remaining: int)
      requires Valid() && f in flows
      modifies this
      ensures Valid()
      ensures flows == old(flows)[f := if remaining < 0 then old(flows)[f].(receivedRts := true, remaining := 0, finished := true)
                                       else old(flows)[f].(receivedRts := true, remaining := remaining)]
      ensures sendingFlows == if old(flows)[f].receivedRts then old(sendingFlows) else old(sendingFlows) + [f]
      ensures !flows[f].finished ==> f in sendingFlows
    {
      if !flows[f].receivedRts {
        assert multiset(sendingFlows + [f]) == multiset(sendingFlows) + multiset{f};
        sendingFlows := sendingFlows + [f];
        flows := flows[f := flows[f].(receivedRts := true)];
      }
      flows := flows[f := if remaining < 0 then flows[f].(remaining := 0, finished := true)
                          else flows[f].(remaining := remaining)];
    }

    /** One flow is looked at: it takes the slot when it wants a packet and both its ports are unused. */
    method Offer(f: nat, schedule: map<nat, nat>, senderUsed: set<nat>, receiverUsed: set<nat>)
      returns (schedule': map<nat, nat>, senderUsed': set<nat>, receiverUsed': set<nat>)
      requires f in flows && !flows[f].finished
      modifies this`flows
      ensures var g := old(flows)[f];
              if g.remaining > 0 && g.src !in senderUsed && g.dst !in receiverUsed then
                && flows == old(flows)[f := g.(remaining := g.remaining - 1)] && schedule' == schedule[g.src := f]
                && senderUsed' == senderUsed + {g.src} && receiverUsed' == receiverUsed + {g.dst}
              else
                flows == old(flows) && (schedule', senderUsed', receiverUsed') == (schedule, senderUsed, receiverUsed)
    {
      schedule', senderUsed', receiverUsed' := schedule, senderUsed, receiverUsed;
      var src, dst := flows[f].src, flows[f].dst;
      if flows[f].remaining > 0 && src !in senderUsed && dst !in receiverUsed {
        flows := flows[f := flows[f].(remaining := flows[f].remaining - 1)];
        senderUsed', receiverUsed' := senderUsed + {src}, receiverUsed + {dst};
        schedule' := schedule[src := f];
      }
    }

    /** An unfinished flow just taken out of the heap is offered the slot. */
    method OfferUnfinished(q: seq<nat>, i: nat, tried: seq<nat>, schedule: map<nat, nat>, senderUsed: set<nat>, receiverUsed: set<nat>,
                           ghost flows0: Flows, ghost queue: seq<nat>)
      returns (schedule': map<nat, nat>, senderUsed': set<nat>, receiverUsed': set<nat>)
      requires SlotSoFar(flows0, flows, queue, q, tried, schedule)
      requires i < |q| && q[i] in flows && !flows[q[i]].finished
      requires senderUsed == schedule.Keys && receiverUsed == ReceiversOf(flows0, schedule)
      modifies this`flows
      ensures SlotSoFar(flows0, flows, queue, RemoveAt(q, i), tried + [q[i]], schedule')
      ensures senderUsed' == schedule'.Keys && receiverUsed' == ReceiversOf(flows0, schedule')
    {
      OfferKeeps(flows0, flows, queue, q, tried, schedule, i);
      schedule', senderUsed', receiverUsed' := Offer(q[i], schedule, senderUsed, receiverUsed);
    }

    /** The heap gives up one flow, whichever it is. */
    method OfferNext(q: seq<nat>, tried: seq<nat>, schedule: map<nat, nat>, senderUsed: set<nat>, receiverUsed: set<nat>,
                     ghost flows0: Flows, ghost queue: seq<nat>)
      returns (q': seq<nat>, tried': seq<nat>, schedule': map<nat, nat>, senderUsed': set<nat>, receiverUsed': set<nat>)
      requires q != [] && SlotSoFar(flows0, flows, queue, q, tried, schedule)
      requires senderUsed == schedule.Keys && receiverUsed == ReceiversOf(flows0, schedule)
      modifies this`flows
      ensures SlotSoFar(flows0, flows, queue, q', tried', schedule')
      ensures senderUsed' == schedule'.Keys && receiverUsed' == ReceiversOf(flows0, schedule')
      ensures |q'| < |q|
    {
      var i :| 0 <= i < |q|;
      q', tried', schedule', senderUsed', receiverUsed' := RemoveAt(q, i), tried, schedule, senderUsed, receiverUsed;
      PopKnows(flows0, flows, queue, q, tried, schedule, i);
      if !flows[q[i]].finished {
        schedule', senderUsed', receiverUsed' := OfferUnfinished(q, i, tried, schedule, senderUsed, receiverUsed, flows0, queue);
        tried' := tried + [q[i]];
      }
    }

    /** Greedy over the queue in any order. */
    method FillSlot() returns (schedule: map<nat, nat>)
      requires forall f | f in sendingFlows :: f in flows
      modifies this
      ensures ConflictFreeSlot(old(flows), schedule) && MaximalSlot(old(flows), schedule, old(sendingFlows))
      ensures forall s | s in schedule :: schedule[s] in old(sendingFlows)
      ensures Served(old(flows), flows, schedule)
      ensures KeepsUnfinished(old(flows), multiset(old(sendingFlows)), multiset(sendingFlows)) && NoneFinished(flows, sendingFlows)
    {
      ghost var flows0, queue := flows, sendingFlows;
      var q, tried: seq<nat> := sendingFlows, [];
      schedule := map[];
      var senderUsed: set<nat>, receiverUsed: set<nat> := {}, {};
      SlotStarts(flows0, queue);
      while q != []
        invariant SlotSoFar(flows0, flows, queue, q, tried, schedule)
        invariant senderUsed == schedule.Keys && receiverUsed == ReceiversOf(flows0, schedule)
        decreases |q|
      {
        q, tried, schedule, senderUsed, receiverUsed := OfferNext(q, tried, schedule, senderUsed, receiverUsed, flows0, queue);
      }
      SlotDone(flows0, flows, queue, tried, schedule);
      sendingFlows := tried;
    }

    method ScheduleTimeslot() returns (schedule: map<nat, nat>)
      requires Valid()
      modifies this
      ensures Valid()
      ensures ConflictFreeSlot(old(flows), schedule) && MaximalSlot(old(flows), schedule, old(sendingFlows))
      ensures forall s | s in schedule :: schedule[s] in old(sendingFlows)
      ensures Served(old(flows), flows, schedule)
      ensures KeepsUnfinished(flows, multiset(old(sendingFlows)), multiset(sendingFlows)) && NoneFinished(flows, sendingFlows)
    {
      schedule := FillSlot();
      SlotKeepsArbiter(old(flows), flows, old(sendingFlows), numHosts, schedule, sendingFlows);
    }

    /** A slot is skipped only when nothing is queued. */
    method MaybeSlot() returns (slot: map<nat, nat>)
      requires Valid()
      modifies this
      ensures Valid()
      ensures ConflictFreeSlot(old(flows), slot) && MaximalSlot(old(flows), slot, old(sendingFlows))
      ensures Served(old(flows), flows, slot)
      ensures KeepsUnfinished(flows, multiset(old(sendingFlows)), multiset(sendingFlows)) && NoneFinished(flows, sendingFlows)
    {
      slot := map[];
      if |sendingFlows| > 0 {
        slot := ScheduleTimeslot();
      }
    }

    method NextSlot(rows: Rows, ghost k: nat, ghost flows0: Flows, ghost queue0: seq<nat>) returns (rows': Rows)
      requires Valid() && EpochSoFar(flows0, flows, queue0, sendingFlows, rows, k)
      modifies this
      ensures Valid() && |rows'| == |rows|
      ensures EpochSoFar(flows0, flows, queue0, sendingFlows, rows', k + 1) && NoneFinished(flows, sendingFlows)
    {
      ghost var before, queue := flows, sendingFlows;
      var slot := MaybeSlot();
      EpochOneMore(flows0, before, flows, queue0, queue, rows, k, slot, sendingFlows);
      rows' := WithSlot(rows, slot);
    }

    /** Eight slots make an epoch. */
    method ScheduleEpoch() returns (rows: Rows)
      requires Valid()
      modifies this
      ensures Valid() && |rows| == numHosts
      ensures OwnRows(old(flows), rows, EPOCH_PKTS) && DistinctReceivers(old(flows), rows, EPOCH_PKTS)
      ensures AddsUp(old(flows), flows, rows)
      ensures KeepsUnfinished(flows, multiset(old(sendingFlows)), multiset(sendingFlows)) && NoneFinished(flows, sendingFlows)
      ensures forall f | f in sendingFlows && Wants(flows, f) :: AlwaysShutOut(old(flows), rows, EPOCH_PKTS, f)
    {
      ghost var flows0, queue0 := flows, sendingFlows;
      rows := seq(numHosts, _ => []);
      EpochStarts(flows0, queue0, rows);
      var i := 0;
      while i < EPOCH_PKTS
        invariant 0 <= i <= EPOCH_PKTS && Valid() && |rows| == numHosts
        invariant EpochSoFar(flows0, flows, queue0, sendingFlows, rows, i) && (i > 0 ==> NoneFinished(flows, sendingFlows))
      {
        rows := NextSlot(rows, i, flows0, queue0);
        i := i + 1;
      }
    }
  }
}
