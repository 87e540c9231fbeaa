/**
 What the arbiter of the Ranking protocol has to serve at an epoch, told from the messages delivered to
 it alone: each request is served once, at the first epoch after it arrived.
 */
module RankingRequests {
  import opened A = RankingArbiter
  import opened RankingLease

  /** The request a step delivers to the arbiter, if it delivers one. */
  ghost function Delivered(s: System, a: Action): multiset<Request> {
    if a.DeliverList? && a.id in s.net && s.net[a.id].ListMsg?
    then multiset{Request(s.net[a.id].list.dst, s.net[a.id].list.srcs)} else multiset{}
  }

  /** The requests delivered since the last epoch. */
  ghost function Unserved(ss: seq<System>, acts: seq<Action>, i: nat): multiset<Request>
    requires i <= |acts| <= |ss|
  {
    if i == 0 || acts[i - 1].Epoch? then multiset{}
    else Unserved(ss, acts, i - 1) + Delivered(ss[i - 1], acts[i - 1])
  }

  lemma StepPending(s: System, a: Action, c: Config)
    requires Possible(s, a, c)
    ensures multiset(Apply(s, a, c).arb.pending) == if a.Epoch? then multiset{} else multiset(s.arb.pending) + Delivered(s, a)
  {
    match a
    case Epoch(_, _) => ServeAllocates(s.arb);
    case DeliverList(id) =>
      var r := Request(s.net[id].list.dst, s.net[id].list.srcs);
      assert multiset(s.arb.pending + [r]) == multiset(s.arb.pending) + multiset{r};
    case _ =>
  }

  /** In every run the queue holds exactly the requests delivered since the last epoch. */
  lemma {:induction false} PendingIsUnserved(ss: seq<System>, acts: seq<Action>, c: Config, i: nat)
    requires Run(ss, acts, c) && i <= |acts|
    ensures multiset(ss[i].arb.pending) == Unserved(ss, acts, i)
  {
    if i > 0 {
      PendingIsUnserved(ss, acts, c, i - 1);
      assert Possible(ss[i - 1], acts[i - 1], c) && ss[i] == Apply(ss[i - 1], acts[i - 1], c);
      StepPending(ss[i - 1], acts[i - 1], c);
    }
  }

  /** Some request delivered since the last epoch came from the grant's receiver and lists its sender. */
  ghost predicate Answers(requests: multiset<Request>, g: Grant) {
    exists r :: r in requests && r.dst == g.dst && g.src in r.srcs
  }

  /** An epoch grants only what it was asked for since the epoch before. */
  lemma GrantsAnswerRequests(ss: seq<System>, acts: seq<Action>, c: Config, i: nat, g: Grant)
    requires Run(ss, acts, c) && i < |acts| && acts[i].Epoch?
    requires ss[i].arb.WellFormed() && g in Serve(ss[i].arb).1
    ensures Answers(Unserved(ss, acts, i), g)
  {
    PendingIsUnserved(ss, acts, c, i);
    ServeAllocates(ss[i].arb);
    var k :| 0 <= k < |Serve(ss[i].arb).1| && Serve(ss[i].arb).1[k] == g;
    assert Asked(ss[i].arb.pending, g.src, g.dst);
    var r :| r in ss[i].arb.pending && r.dst == g.dst && g.src in r.srcs;
    assert r in multiset(ss[i].arb.pending);
  }
}
