/**
 The list of sources a request carries: each source stands with how many packets of its chosen flow have
 no token yet, and the one with the least comes first.
 */
module SourceList {
  import opened PriorityQueue

  datatype Candidate = Candidate(work: int, src: nat)

  function Srcs(v: seq<Candidate>): (r: seq<nat>)
    ensures |r| == |v|
  {
    seq(|v|, i requires 0 <= i < |v| => v[i].src)
  }

  lemma OneMoreSrc(v: seq<Candidate>, c: Candidate)
    ensures Srcs(v + [c]) == Srcs(v) + [c.src]
  {
  }

  ghost predicate Distinct(v: seq<Candidate>) {
    forall i, j | 0 <= i < j < |v| :: v[i].src != v[j].src
  }

  ghost predicate ByWork(v: seq<Candidate>) {
    forall i, j | 0 <= i < j < |v| :: v[i].work <= v[j].work
  }

  /** `w` is `v` in another order. */
  ghost predicate SameSources(v: seq<Candidate>, w: seq<Candidate>) {
    Distinct(w) && forall c :: c in w <==> c in v
  }

  ghost predicate Least(v: seq<Candidate>, k: nat) {
    k < |v| && forall i | 0 <= i < |v| :: v[k].work <= v[i].work
  }

  lemma {:induction false} SomeLeast(v: seq<Candidate>) returns (k: nat)
    requires v != []
    ensures Least(v, k)
  {
    k := 0;
    if |v| > 1 {
      k := SomeLeast(v[1..]);
      k := k + 1;
      assert forall i | 1 <= i < |v| :: v[i] == v[1..][i - 1];
      if v[0].work < v[k].work {
        k := 0;
      }
    }
  }

  /** `w` is sorted and comes before all of `rest`; together they are `v`. */
  ghost predicate SortedSoFar(v: seq<Candidate>, w: seq<Candidate>, rest: seq<Candidate>) {
    && ByWork(w) && Distinct(w) && Distinct(rest)
    && (forall c, d | c in w && d in rest :: c.work <= d.work && c.src != d.src)
    && (forall c :: c in v <==> c in w || c in rest)
  }

  lemma Without(rest: seq<Candidate>, k: nat)
    requires k < |rest| && Distinct(rest)
    ensures var rest' := RemoveAt(rest, k);
            Distinct(rest') && forall c :: c in rest' <==> c in rest && c.src != rest[k].src
  {
    var rest' := RemoveAt(rest, k);
    forall c
      ensures c in rest' <==> c in rest && c.src != rest[k].src
    {
      if c in rest && c.src != rest[k].src {
        var i :| 0 <= i < |rest| && rest[i] == c;
        assert rest'[if i < k then i else i - 1] == c;
      }
      if c in rest' {
        var i :| 0 <= i < |rest'| && rest'[i] == c;
        assert rest[if i < k then i else i + 1] == c;
      }
    }
  }

  lemma Appended(w: seq<Candidate>, c: Candidate)
    requires ByWork(w) && Distinct(w) && forall d | d in w :: d.work <= c.work && d.src != c.src
    ensures ByWork(w + [c]) && Distinct(w + [c])
  {
    assert forall i | 0 <= i < |w| :: w[i] in w;
  }

  lemma TakeLeast(v: seq<Candidate>, w: seq<Candidate>, rest: seq<Candidate>, k: nat)
    requires SortedSoFar(v, w, rest) && Least(rest, k)
    ensures SortedSoFar(v, w + [rest[k]], RemoveAt(rest, k))
  {
    Without(rest, k);
    Appended(w, rest[k]);
    forall c | c in rest
      ensures rest[k].work <= c.work && (c == rest[k] || c.src != rest[k].src)
    {
    }
  }

  /** Sorts by work; which of two equal ones comes first is left open. */
  method SortByWork(v: seq<Candidate>) returns (w: seq<Candidate>)
    requires Distinct(v)
    ensures ByWork(w) && SameSources(v, w)
  {
    w := [];
    var rest := v;
    while rest != []
      invariant SortedSoFar(v, w, rest)
      decreases |rest|
    {
      ghost var least := SomeLeast(rest);
      var k :| 0 <= k < |rest| && forall i | 0 <= i < |rest| :: rest[k].work <= rest[i].work;
      TakeLeast(v, w, rest, k);
      w, rest := w + [rest[k]], RemoveAt(rest, k);
    }
  }
}
