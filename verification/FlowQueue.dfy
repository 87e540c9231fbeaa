/**
 Taking a host's queue of flows apart to find one that may be served: finished flows are dropped for
 good, flows whose timer is running are set aside and put back.
 */
module FlowQueue {
  import opened Options
  import opened PriorityQueue
  import opened TokenFlow

  /** A flow with nothing missing has been noticed to be finished. */
  ghost predicate FlowOk(f: Flow) {
    f.Valid() && (f.Incomplete() || f.finished)
  }

  predicate Ready(f: Flow, now: int) {
    !f.finished && f.redundancy <= now
  }

  /** `q'` is `q` without some of its finished flows. */
  ghost predicate DropsOnlyFinished(flows: map<nat, Flow>, q: multiset<nat>, q': multiset<nat>) {
    q' <= q && forall f :: (f in flows && flows[f].finished) || q'[f] == q[f]
  }

  ghost predicate HasReady(flows: map<nat, Flow>, q: seq<nat>, now: int) {
    exists f :: f in q && f in flows && Ready(flows[f], now)
  }

  /** One flow was counted a token, or none. */
  ghost predicate OneToken(flows: map<nat, Flow>, flows': map<nat, Flow>, to: Option<nat>) {
    && flows'.Keys == flows.Keys && (to.Some? ==> to.value in flows)
    && forall f | f in flows :: flows'[f].tokenCount == flows[f].tokenCount + if to == Some(f) then 1 else 0
  }

  /** A queue taken apart: `q` is left, `tried` wait, and what is gone was finished. */
  ghost predicate Split(flows: map<nat, Flow>, queue: seq<nat>, q: seq<nat>, tried: seq<nat>, now: int) {
    && DropsOnlyFinished(flows, multiset(queue), multiset(q) + multiset(tried))
    && forall f | f in tried :: f in flows && !flows[f].finished && flows[f].redundancy > now
  }

  lemma SplitKnows(flows: map<nat, Flow>, queue: seq<nat>, q: seq<nat>, tried: seq<nat>, now: int, i: nat)
    requires Split(flows, queue, q, tried, now) && i < |q|
    ensures q[i] in queue
    ensures q[i] in flows && flows[q[i]].finished ==> Split(flows, queue, RemoveAt(q, i), tried, now)
    ensures q[i] in flows && !flows[q[i]].finished && flows[q[i]].redundancy > now ==>
              Split(flows, queue, RemoveAt(q, i), tried + [q[i]], now)
  {
    RemoveAtMultiset(q, i);
    assert q[i] in multiset(q);
    assert q[i] in multiset(queue);
    assert multiset(tried + [q[i]]) == multiset(tried) + multiset{q[i]};
  }

  lemma SplitEnds(flows: map<nat, Flow>, queue: seq<nat>, q: seq<nat>, tried: seq<nat>, now: int)
    requires Split(flows, queue, q, tried, now) && forall f | f in queue :: f in flows
    ensures DropsOnlyFinished(flows, multiset(queue), multiset(q + tried))
    ensures forall f | f in q + tried :: f in queue
    ensures q == [] ==> !HasReady(flows, queue, now) && forall f | f in q + tried :: !flows[f].finished
  {
    assert multiset(q + tried) == multiset(q) + multiset(tried);
    forall f | f in q + tried
      ensures f in queue
    {
      assert f in multiset(q + tried);
      assert f in multiset(queue);
    }
    forall f | q == [] && f in queue
      ensures !Ready(flows[f], now)
    {
      assert f in multiset(queue);
      assert flows[f].finished || f in multiset(tried);
    }
  }
}
