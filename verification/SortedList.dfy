/**
 The prototype controller's list of requests: a singly linked list kept in order of priority, a lower
 number going first.  `push` never looks at an empty list, which its caller handles.
 */
module SortedList {

  datatype Item<T> = Item(data: T, priority: nat)

  ghost predicate Sorted<T>(s: seq<Item<T>>) {
    forall i, j | 0 <= i < j < |s| :: s[i].priority <= s[j].priority
  }

  /** How many leading items go strictly before `p`. */
  function Leading<T>(s: seq<Item<T>>, p: nat): (n: nat)
    ensures n <= |s|
    ensures forall i | 0 <= i < n :: s[i].priority < p
    ensures n < |s| ==> p <= s[n].priority
  {
    if s == [] || p <= s[0].priority then 0 else 1 + Leading(s[1..], p)
  }

  /** The head is only displaced by something strictly smaller; behind it, equals are displaced too. */
  function InsertionPoint<T>(s: seq<Item<T>>, p: nat): (n: nat)
    ensures n <= |s|
  {
    if s == [] || s[0].priority > p then 0 else 1 + Leading(s[1..], p)
  }

  function InsertAt<X>(s: seq<X>, n: nat, x: X): (t: seq<X>)
    requires n <= |s|
    ensures |t| == |s| + 1
    ensures forall i | 0 <= i <= |s| :: t[i] == if i < n then s[i] else if i == n then x else s[i - 1]
  {
    seq(|s| + 1, i requires 0 <= i <= |s| => if i < n then s[i] else if i == n then x else s[i - 1])
  }

  function Insert<T>(s: seq<Item<T>>, x: Item<T>): seq<Item<T>> {
    InsertAt(s, InsertionPoint(s, x.priority), x)
  }

  /** In a sorted list the insertion point parts what goes before `p` from what does not. */
  lemma InsertionPointParts<T>(s: seq<Item<T>>, p: nat)
    requires Sorted(s)
    ensures forall i | 0 <= i < InsertionPoint(s, p) :: s[i].priority <= p
    ensures forall i | 1 <= i < InsertionPoint(s, p) :: s[i].priority < p
    ensures forall i | InsertionPoint(s, p) <= i < |s| :: p <= s[i].priority
  {
    var n := InsertionPoint(s, p);
    if n > 0 {
      assert forall i | 1 <= i < |s| :: s[i] == s[1..][i - 1];
    }
  }

  lemma InsertAtAddsOne<X>(s: seq<X>, n: nat, x: X)
    requires n <= |s|
    ensures multiset(InsertAt(s, n, x)) == multiset(s) + multiset{x}
  {
    assert s == s[..n] + s[n..];
    assert InsertAt(s, n, x) == s[..n] + [x] + s[n..];
  }

  lemma InsertAtSorted<T>(s: seq<Item<T>>, n: nat, x: Item<T>)
    requires Sorted(s) && n <= |s|
    requires forall i | 0 <= i < n :: s[i].priority <= x.priority
    requires forall i | n <= i < |s| :: x.priority <= s[i].priority
    ensures Sorted(InsertAt(s, n, x))
  {
    var t := InsertAt(s, n, x);
    forall i, j | 0 <= i < j < |t|
      ensures t[i].priority <= t[j].priority
    {
    }
  }

  /** Insertion keeps order, adds one item and leaves the order of the others alone. */
  lemma InsertKeepsSorted<T>(s: seq<Item<T>>, x: Item<T>)
    requires Sorted(s)
    ensures Sorted(Insert(s, x))
    ensures multiset(Insert(s, x)) == multiset(s) + multiset{x}
  {
    InsertionPointParts(s, x.priority);
    InsertAtAddsOne(s, InsertionPoint(s, x.priority), x);
    InsertAtSorted(s, InsertionPoint(s, x.priority), x);
  }

  function InsertAll<T>(s: seq<Item<T>>, xs: seq<Item<T>>): seq<Item<T>> {
    if xs == [] then s else Insert(InsertAll(s, xs[..|xs| - 1]), xs[|xs| - 1])
  }

  lemma InsertAllStep<T>(s: seq<Item<T>>, xs: seq<Item<T>>, i: nat)
    requires i < |xs|
    ensures InsertAll(s, xs[..i + 1]) == Insert(InsertAll(s, xs[..i]), xs[i])
  {
    assert xs[..i + 1][..i] == xs[..i];
  }

  lemma {:induction false} InsertAllKeepsSorted<T>(s: seq<Item<T>>, xs: seq<Item<T>>)
    requires Sorted(s)
    ensures Sorted(InsertAll(s, xs))
    ensures multiset(InsertAll(s, xs)) == multiset(s) + multiset(xs)
  {
    if xs != [] {
      InsertAllKeepsSorted(s, xs[..|xs| - 1]);
      InsertKeepsSorted(InsertAll(s, xs[..|xs| - 1]), xs[|xs| - 1]);
      assert xs == xs[..|xs| - 1] + [xs[|xs| - 1]];
    }
  }

  class Node<T> {
    const data: T
    const priority: nat
    var next: Node?<T>

    constructor (data: T, priority: nat)
      ensures this.data == data && this.priority == priority && next == null
    {
      this.data, this.priority, next := data, priority, null;
    }
  }

  /** `spine` lists the nodes from `head` on; `contents` is what they hold. */
  class RequestList<T> {
    var head: Node?<T>
    ghost var spine: seq<Node<T>>
    ghost var contents: seq<Item<T>>
    ghost var repr: set<Node<T>>

    ghost predicate Valid()
      reads this, repr
    {
      && Within(spine, repr)
      && head == At(spine, 0)
      && Linked(spine)
      && Holds(spine, contents)
    }

    constructor ()
      ensures Valid() && contents == [] && repr == {}
    {
      head, spine, contents, repr := null, [], [], {};
    }

    function IsEmpty(): (r: bool)
      requires Valid()
      reads this, repr
      ensures r <==> contents == []
    {
      head == null
    }

    function Peek(): (r: T)
      requires Valid() && contents != []
      reads this, repr
      ensures r == contents[0].data
    {
      head.data
    }

    method Pop()
      requires Valid() && contents != []
      modifies this
      ensures Valid() && contents == old(contents)[1..] && repr == old(repr)
    {
      assert head == spine[0];
      head := head.next;
      spine, contents := spine[1..], contents[1..];
    }

    method PushFront(d: T, p: nat)
      requires Valid()
      modifies this
      ensures Valid() && contents == [Item(d, p)] + old(contents)
      ensures fresh(repr - old(repr))
    {
      var temp := new Node(d, p);
      temp.next := head;
      head := temp;
      spine, contents, repr := [temp] + spine, [Item(d, p)] + contents, repr + {temp};
    }

    /** Links a new node behind the one at position `at`. */
    method PushBehind(start: Node<T>, ghost at: nat, d: T, p: nat)
      requires Valid() && at < |spine| && start == At(spine, at)
      modifies this, repr
      ensures Valid() && contents == InsertAt(old(contents), at + 1, Item(d, p))
      ensures fresh(repr - old(repr))
    {
      var temp := new Node(d, p);
      HoldsAfterInsert(spine, repr, contents, at + 1, temp);
      LinkBehind(start, temp, spine, at);
      spine, repr := InsertAt(spine, at + 1, temp), repr + {temp};
      contents := InsertAt(contents, at + 1, Item(d, p));
    }

    method Push(d: T, p: nat)
      requires Valid() && contents != []
      modifies this, repr
      ensures Valid() && contents == Insert(old(contents), Item(d, p))
      ensures fresh(repr - old(repr))
    {
      if head.priority > p {
        PushFront(d, p);
      } else {
        var start := head;
        ghost var at := 0;
        while start.next != null && start.next.priority < p
          invariant at < |spine| && start == At(spine, at)
          invariant forall i | 1 <= i <= at :: contents[i].priority < p
          decreases |spine| - at
        {
          start := start.next;
          at := at + 1;
        }
        LeadingIs(contents[1..], p, at);
        PushBehind(start, at, d, p);
      }
    }

    /** What the controller does: an empty list gets its first node, otherwise `Push`. */
    method Add(d: T, p: nat)
      requires Valid()
      modifies this, repr
      ensures Valid() && contents == Insert(old(contents), Item(d, p))
      ensures fresh(repr - old(repr))
    {
      if head == null {
        PushFront(d, p);
      } else {
        Push(d, p);
      }
    }
  }

  function At<T>(spine: seq<Node<T>>, i: nat): Node?<T> {
    if i < |spine| then spine[i] else null
  }

  ghost predicate Within<T>(spine: seq<Node<T>>, repr: set<Node<T>>) {
    forall i | 0 <= i < |spine| :: spine[i] in repr
  }

  ghost predicate Linked<T>(spine: seq<Node<T>>)
    reads spine
  {
    && (forall i, j | 0 <= i < j < |spine| :: spine[i] != spine[j])
    && (forall i {:trigger spine[i].next} | 0 <= i < |spine| :: spine[i].next == At(spine, i + 1))
  }

  lemma LinkedAfterInsert<T>(was: seq<Node<T>>, n: nat, temp: Node<T>)
    requires 0 < n <= |was| && temp !in was && (forall i, j | 0 <= i < j < |was| :: was[i] != was[j])
    requires forall i {:trigger was[i].next} | 0 <= i < |was| :: was[i].next == if i + 1 == n then temp else At(was, i + 1)
    requires temp.next == At(was, n)
    ensures Linked(InsertAt(was, n, temp))
  {
    var t := InsertAt(was, n, temp);
    forall i | 0 <= i < |t|
      ensures t[i].next == At(t, i + 1)
    {
      if i != n {
        var before := if i < n then i else i - 1;
        assert t[i] == was[before];
      }
    }
    forall i, j | 0 <= i < j < |t|
      ensures t[i] != t[j]
    {
    }
  }

  /** The pointer updates of an insertion. */
  method LinkBehind<T>(start: Node<T>, temp: Node<T>, ghost spine: seq<Node<T>>, ghost at: nat)
    requires Linked(spine) && at < |spine| && start == spine[at] && temp !in spine
    modifies start, temp
    ensures Linked(InsertAt(spine, at + 1, temp))
  {
    temp.next := start.next;
    start.next := temp;
    assert forall i {:trigger spine[i].next} | 0 <= i < |spine| :: spine[i].next == if i == at then temp else At(spine, i + 1);
    LinkedAfterInsert(spine, at + 1, temp);
  }

  ghost predicate Holds<T>(spine: seq<Node<T>>, contents: seq<Item<T>>) {
    && |spine| == |contents|
    && forall i | 0 <= i < |spine| :: spine[i].data == contents[i].data && spine[i].priority == contents[i].priority
  }

  /** `Leading` is the only position with everything before it smaller and itself not. */
  lemma {:induction false} LeadingIs<T>(s: seq<Item<T>>, p: nat, n: nat)
    requires n <= |s| && (forall i | 0 <= i < n :: s[i].priority < p) && (n < |s| ==> p <= s[n].priority)
    ensures Leading(s, p) == n
  {
    if n > 0 {
      LeadingIs(s[1..], p, n - 1);
    }
  }

  lemma HoldsAfterInsert<T>(spine: seq<Node<T>>, repr: set<Node<T>>, contents: seq<Item<T>>, n: nat, temp: Node<T>)
    requires n <= |spine| && Holds(spine, contents) && Within(spine, repr)
    ensures Holds(InsertAt(spine, n, temp), InsertAt(contents, n, Item(temp.data, temp.priority)))
    ensures Within(InsertAt(spine, n, temp), repr + {temp})
  {
  }
}
