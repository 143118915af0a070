/** The doubly linked queue of queue.c: nodes on the heap, joined in both directions. */
module LinkedQueue {
  import opened Options

  // ---- Sequences the queue refines ------------------------------------------------

  /** A three-way comparison that is a total preorder. */
  ghost predicate Ordering<T(!new)>(compare: (T, T) -> int) {
    && (forall a, b :: compare(a, b) < 0 <==> compare(b, a) > 0)
    && (forall a, b, c :: compare(a, b) <= 0 && compare(b, c) <= 0 ==> compare(a, c) <= 0)
  }

  ghost predicate Sorted<T>(s: seq<T>, compare: (T, T) -> int) {
    forall i, j :: 0 <= i < j < |s| ==> compare(s[i], s[j]) <= 0
  }

  /** The first element that does not compare below the item. */
  function FirstNotBelow<T>(s: seq<T>, compare: (T, T) -> int, item: T): (k: nat)
    ensures k <= |s|
    ensures forall i :: 0 <= i < k ==> compare(s[i], item) < 0
    ensures k < |s| ==> compare(s[k], item) >= 0
  {
    if s == [] || compare(s[0], item) >= 0 then 0 else 1 + FirstNotBelow(s[1..], compare, item)
  }

  /** Where queue_insert_sorted puts an item: it looks at the head, then at the tail, then scans. */
  function Place<T>(s: seq<T>, compare: (T, T) -> int, item: T): (k: nat)
    ensures k <= |s|
  {
    if s != [] && compare(s[0], item) < 0 && compare(s[|s|-1], item) < 0 then |s|
    else FirstNotBelow(s, compare, item)
  }

  function Inserted<T>(s: seq<T>, compare: (T, T) -> int, item: T): seq<T> {
    var k := Place(s, compare, item);
    s[..k] + [item] + s[k..]
  }

  lemma Transitive<T(!new)>(compare: (T, T) -> int, a: T, b: T, c: T)
    requires Ordering(compare) && compare(a, b) <= 0 && compare(b, c) <= 0
    ensures compare(a, c) <= 0
  {}

  lemma Opposite<T(!new)>(compare: (T, T) -> int, a: T, b: T)
    requires Ordering(compare)
    ensures compare(a, b) >= 0 <==> compare(b, a) <= 0
  {}

  /** Behind an element that is not below the item none is. */
  lemma NotBelow<T(!new)>(s: seq<T>, compare: (T, T) -> int, item: T, k: nat, i: nat)
    requires Ordering(compare) && Sorted(s, compare)
    requires k <= i < |s| && compare(s[k], item) >= 0
    ensures compare(s[i], item) >= 0
  {
    if k < i {
      Opposite(compare, s[k], item);
      Transitive(compare, item, s[k], s[i]);
      Opposite(compare, s[i], item);
    }
  }

  /** In a sorted queue the tail test never skips anything. */
  lemma SortedPlace<T(!new)>(s: seq<T>, compare: (T, T) -> int, item: T)
    requires Ordering(compare) && Sorted(s, compare)
    ensures Place(s, compare, item) == FirstNotBelow(s, compare, item)
    ensures forall i :: Place(s, compare, item) <= i < |s| ==> compare(s[i], item) >= 0
  {
    var k := FirstNotBelow(s, compare, item);
    forall i | k <= i < |s| ensures compare(s[i], item) >= 0 { NotBelow(s, compare, item, k, i); }
  }

  lemma InsertedAt<T>(s: seq<T>, compare: (T, T) -> int, item: T, i: nat)
    requires i <= |s|
    ensures var t, k := Inserted(s, compare, item), Place(s, compare, item);
            |t| == |s| + 1 && t[i] == if i < k then s[i] else if i == k then item else s[i - 1]
  {}

  /** A sorted insert yields a sorted permutation, with the item in front of its equals. */
  lemma InsertSorts<T(!new)>(s: seq<T>, compare: (T, T) -> int, item: T)
    requires Ordering(compare) && Sorted(s, compare)
    ensures Sorted(Inserted(s, compare, item), compare)
  {
    var t := Inserted(s, compare, item);
    SortedPlace(s, compare, item);
    forall i, j | 0 <= i < j < |t| ensures compare(t[i], t[j]) <= 0 { InsertedInOrder(s, compare, item, i, j); }
  }

  lemma InsertedInOrder<T(!new)>(s: seq<T>, compare: (T, T) -> int, item: T, i: nat, j: nat)
    requires Ordering(compare) && Sorted(s, compare) && i < j <= |s|
    ensures |Inserted(s, compare, item)| == |s| + 1
    ensures compare(Inserted(s, compare, item)[i], Inserted(s, compare, item)[j]) <= 0
  {
    var k := Place(s, compare, item);
    SortedPlace(s, compare, item);
    InsertedAt(s, compare, item, i);
    InsertedAt(s, compare, item, j);
    if i == k { Opposite(compare, s[j - 1], item); }
  }

  lemma InsertPermutes<T>(s: seq<T>, compare: (T, T) -> int, item: T)
    ensures multiset(Inserted(s, compare, item)) == multiset(s) + multiset{item}
  {
    var k := Place(s, compare, item);
    assert s == s[..k] + s[k..];
  }

  /** What an iteration makes of a state and what it answers: it hands the state on from element
      to element and ends behind the first one for which the callback answers -1. */
  function Iterated<T, S>(s: seq<T>, f: (S, T) -> (S, int), state: S): (S, int) {
    if s == [] then (state, 0)
    else
      var (next, answer) := f(state, s[0]);
      if answer == -1 then (next, -1) else Iterated(s[1..], f, next)
  }

  /** An iteration over two parts goes on with the second only if the first has not ended it. */
  lemma {:induction false} IteratedParts<T, S>(s: seq<T>, t: seq<T>, f: (S, T) -> (S, int), state: S)
    ensures Iterated(s + t, f, state) ==
            if Iterated(s, f, state).1 == -1 then Iterated(s, f, state) else Iterated(t, f, Iterated(s, f, state).0)
  {
    if s == [] {
      assert s + t == t;
    } else {
      assert (s + t)[1..] == s[1..] + t && (s + t)[0] == s[0];
      var (next, answer) := f(state, s[0]);
      IteratedParts(s[1..], t, f, next);
    }
  }

  function Kept<T>(s: seq<T>, matches: T -> bool): seq<T> {
    if s == [] then [] else (if matches(s[0]) then [] else [s[0]]) + Kept(s[1..], matches)
  }

  function LastMatch<T>(s: seq<T>, matches: T -> bool): Option<T> {
    if s == [] then None
    else
      var later := LastMatch(s[1..], matches);
      if later.Some? then later else if matches(s[0]) then Some(s[0]) else None
  }

  /** Kept has no match, has every element that is not a match as often as before, and
      LastMatch is the last of the others. */
  lemma {:induction false} KeptExactly<T>(s: seq<T>, matches: T -> bool, x: T)
    ensures multiset(Kept(s, matches))[x] == if matches(x) then 0 else multiset(s)[x]
    ensures LastMatch(s, matches).None? <==> Kept(s, matches) == s
    ensures |Kept(s, matches)| <= |s|
  {
    if s == [] {
    } else {
      KeptExactly(s[1..], matches, x);
      assert s == [s[0]] + s[1..];
    }
  }

  lemma {:induction false} LastMatchIsLast<T>(s: seq<T>, matches: T -> bool) returns (i: int)
    ensures LastMatch(s, matches).None? ==> forall j :: 0 <= j < |s| ==> !matches(s[j])
    ensures LastMatch(s, matches).Some? ==>
              && 0 <= i < |s| && LastMatch(s, matches) == Some(s[i]) && matches(s[i])
              && forall j :: i < j < |s| ==> !matches(s[j])
  {
    i := 0;
    if s == [] {
    } else {
      var k := LastMatchIsLast(s[1..], matches);
      if LastMatch(s[1..], matches).Some? { i := k + 1; }
      forall j | 0 < j < |s| ensures s[j] == s[1..][j - 1] {}
    }
  }

  lemma Assoc<T>(a: seq<T>, b: seq<T>, c: seq<T>)
    ensures a + (b + c) == (a + b) + c
  {}

  /** The order of the elements that are kept is that of the queue. */
  lemma {:induction false} KeptInOrder<T>(s: seq<T>, t: seq<T>, matches: T -> bool)
    ensures Kept(s + t, matches) == Kept(s, matches) + Kept(t, matches)
  {
    if s == [] {
      assert s + t == t;
    } else {
      KeptInOrder(s[1..], t, matches);
      assert (s + t)[1..] == s[1..] + t && (s + t)[0] == s[0];
      Assoc(if matches(s[0]) then [] else [s[0]], Kept(s[1..], matches), Kept(t, matches));
    }
  }

  /** A deletion that has kept `kept`, removed `removed` last and still has `rest` to do. */
  ghost predicate Deleting<T>(all: seq<T>, kept: seq<T>, rest: seq<T>, removed: Option<T>, matches: T -> bool) {
    && Kept(all, matches) == kept + Kept(rest, matches)
    && LastMatch(all, matches) == if LastMatch(rest, matches).Some? then LastMatch(rest, matches) else removed
  }

  lemma DeletingStep<T>(all: seq<T>, kept: seq<T>, rest: seq<T>, removed: Option<T>, matches: T -> bool)
    requires Deleting(all, kept, rest, removed, matches) && rest != []
    ensures Deleting(all, kept + (if matches(rest[0]) then [] else [rest[0]]), rest[1..],
                     if matches(rest[0]) then Some(rest[0]) else removed, matches)
  {}

  lemma DeletingStarts<T>(all: seq<T>, matches: T -> bool)
    ensures Deleting(all, [], all, None, matches)
  {}

  lemma DeletingEnds<T>(all: seq<T>, kept: seq<T>, rest: seq<T>, removed: Option<T>, matches: T -> bool)
    requires Deleting(all, kept, rest, removed, matches) && |rest| == 0
    ensures kept + rest == Kept(all, matches) && removed == LastMatch(all, matches)
  {}

  // ---- Nodes -------------------------------------------------------------------------

  class Node<T> {
    const data: T
    var prev: Node?<T>
    var next: Node?<T>

    constructor (data: T)
      ensures this.data == data && prev == null && next == null
    {
      this.data := data;
      prev, next := null, null;
    }
  }

  function At<T>(nodes: seq<Node<T>>, i: int): Node?<T> {
    if 0 <= i < |nodes| then nodes[i] else null
  }

  ghost predicate LinkedAt<T>(nodes: seq<Node<T>>, i: nat)
    requires i < |nodes|
    reads nodes[i]
  {
    nodes[i].prev == At(nodes, i - 1) && nodes[i].next == At(nodes, i + 1)
  }

  ghost predicate Linked<T>(nodes: seq<Node<T>>)
    reads nodes
  {
    && (forall i, j :: 0 <= i < j < |nodes| ==> nodes[i] != nodes[j])
    && (forall i: nat :: i < |nodes| ==> LinkedAt(nodes, i))
  }

  ghost function Data<T>(nodes: seq<Node<T>>): (s: seq<T>)
    ensures |s| == |nodes| && forall i :: 0 <= i < |s| ==> s[i] == nodes[i].data
  {
    seq(|nodes|, i requires 0 <= i < |nodes| => nodes[i].data)
  }

  lemma DataInserted<T>(ns: seq<Node<T>>, ns': seq<Node<T>>, k: nat, node: Node<T>)
    requires k <= |ns| && ns' == Splice(ns, k, node)
    ensures Data(ns') == Data(ns)[..k] + [node.data] + Data(ns)[k..]
  {}

  lemma DataRemoved<T>(ns: seq<Node<T>>, ns': seq<Node<T>>, i: nat, kept: seq<T>, rest: seq<T>)
    requires i < |ns| && ns' == ns[..i] + ns[i + 1..]
    requires Data(ns) == kept + rest && |kept| == i
    ensures rest != [] && Data(ns') == kept + rest[1..]
  {
    assert |Data(ns')| == |kept + rest[1..]|;
    forall j | 0 <= j < |ns'| ensures Data(ns')[j] == (kept + rest[1..])[j] {
      assert j >= i ==> ns'[j] == ns[j + 1] && Data(ns)[j + 1] == rest[j + 1 - i];
      assert j < i ==> Data(ns)[j] == kept[j];
    }
  }

  lemma RestStarts<T>(ns: seq<Node<T>>, kept: seq<T>, rest: seq<T>)
    requires Data(ns) == kept + rest && |kept| < |ns|
    ensures rest != [] && rest[0] == ns[|kept|].data
  {
    assert |Data(ns)| == |kept| + |rest| && (kept + rest)[|kept|] == rest[0];
  }

  lemma Shift<T>(kept: seq<T>, rest: seq<T>)
    requires rest != []
    ensures kept + rest == kept + [rest[0]] + rest[1..]
  {}

  function Splice<T>(ns: seq<Node<T>>, k: nat, node: Node<T>): seq<Node<T>>
    requires k <= |ns|
  {
    ns[..k] + [node] + ns[k..]
  }

  lemma SpliceEnds<T>(ns: seq<Node<T>>, node: Node<T>)
    ensures Splice(ns, 0, node) == [node] + ns
    ensures Splice(ns, |ns|, node) == ns + [node]
  {}

  function Objects<T>(nodes: seq<Node<T>>): set<Node<T>> {
    set n | n in nodes
  }

  class Queue<T> {
    var head: Node?<T>
    var tail: Node?<T>
    var length: int
    ghost var nodes: seq<Node<T>>

    /** head, tail and length fit this chain of nodes, which is linked both ways. */
    ghost predicate Holds(ns: seq<Node<T>>)
      reads this, ns
    {
      && Linked(ns)
      && head == At(ns, 0) && tail == At(ns, |ns| - 1)
      && length == |ns|
    }

    ghost predicate Valid()
      reads this, nodes
    {
      Holds(nodes)
    }

    ghost function Contents(): seq<T>
      reads this
    {
      Data(nodes)
    }

    constructor ()
      ensures Valid() && Contents() == [] && nodes == []
    {
      head, tail, length, nodes := null, null, 0, [];
    }

    method Append(item: T)
      requires Valid()
      modifies this, Objects(nodes)
      ensures Valid() && Contents() == old(Contents()) + [item]
      ensures fresh(Objects(nodes) - old(Objects(nodes)))
    {
      var node := new Node(item);
      if head == null && tail == null {
        head, tail := node, node;
      } else {
        node.prev := tail;
        tail.next := node;
        tail := node;
      }
      length := length + 1;
      nodes := nodes + [node];
      forall i: nat | i < |nodes| ensures LinkedAt(nodes, i) {
        if i < |nodes| - 1 { assert old(LinkedAt(nodes, i)); }
      }
    }

    /** None when the queue is empty. */
    method Dequeue() returns (item: Option<T>)
      requires Valid()
      modifies this, Objects(nodes)
      ensures Valid()
      ensures match item
              case None => old(Contents()) == [] == Contents()
              case Some(x) => old(Contents()) == [x] + Contents()
      ensures Objects(nodes) <= old(Objects(nodes))
    {
      if head == null && tail == null { return None; }
      assert LinkedAt(nodes, 0) && LinkedAt(nodes, |nodes| - 1);
      item := Some(head.data);
      if head.next == null && tail.prev == null {
        head, tail := null, null;
      } else {
        head := head.next;
        head.prev := null;
      }
      length := length - 1;
      nodes := nodes[1..];
      forall i: nat | i < |nodes| ensures LinkedAt(nodes, i) { assert old(LinkedAt(nodes, i + 1)); }
    }

    /** Calls f on the elements until it answers -1. `state` is all that f reads and changes. */
    method Iterate<S>(f: (S, T) -> (S, int), state: S) returns (status: int, state': S)
      requires Valid()
      ensures (state', status) == Iterated(Contents(), f, state)
    {
      var current := head;
      state' := state;
      ghost var i: nat := 0;
      ghost var rest := Contents();
      while current != null
        invariant i <= |nodes| && current == At(nodes, i) && rest == Contents()[i..]
        invariant Iterated(rest, f, state') == Iterated(Contents(), f, state)
        decreases |nodes| - i
      {
        assert LinkedAt(nodes, i) && rest[0] == current.data;
        var (next, answer) := f(state', current.data);
        state' := next;
        if answer == -1 {
          return -1, state';
        }
        rest := rest[1..];
        current := current.next;
        i := i + 1;
      }
      status := 0;
    }

    // The four ways in which queue_insert_sorted links a node.

    method LinkOnly(node: Node<T>)
      requires Valid() && head == null && tail == null && node.prev == null && node.next == null
      modifies this
      ensures Valid() && old(nodes) == [] && nodes == Splice(old(nodes), 0, node)
      ensures Objects(nodes) == old(Objects(nodes)) + {node}
    {
      head, tail := node, node;
      length := length + 1;
      nodes := [node];
    }

    method LinkFirst(node: Node<T>)
      requires Valid() && head != null && node !in nodes && node.prev == null
      modifies this, Objects(nodes), node
      ensures Valid() && nodes == Splice(old(nodes), 0, node)
      ensures Objects(nodes) == old(Objects(nodes)) + {node}
    {
      node.next := head;
      head.prev := node;
      head := node;
      length := length + 1;
      SpliceEnds(nodes, node);
      nodes := [node] + nodes;
      forall i: nat | i < |nodes| ensures LinkedAt(nodes, i) {
        if i > 0 { assert old(LinkedAt(nodes, i - 1)); }
      }
    }

    method LinkLast(node: Node<T>)
      requires Valid() && tail != null && node !in nodes && node.next == null
      modifies this, Objects(nodes), node
      ensures Valid() && nodes == Splice(old(nodes), |old(nodes)|, node)
      ensures Objects(nodes) == old(Objects(nodes)) + {node}
    {
      node.prev := tail;
      tail.next := node;
      tail := node;
      length := length + 1;
      SpliceEnds(nodes, node);
      nodes := nodes + [node];
      forall i: nat | i < |nodes| ensures LinkedAt(nodes, i) {
        if i < |nodes| - 1 { assert old(LinkedAt(nodes, i)); }
      }
    }

    method LinkBefore(node: Node<T>, current: Node<T>, ghost k: nat)
      requires Valid() && 0 < k < |nodes| && current == nodes[k] && node !in nodes
      modifies this, Objects(nodes), node
      ensures Valid() && nodes == Splice(old(nodes), k, node)
      ensures Objects(nodes) == old(Objects(nodes)) + {node}
    {
      assert LinkedAt(nodes, k) && LinkedAt(nodes, k - 1);
      node.prev := current.prev;
      current.prev.next := node;
      node.next := current;
      current.prev := node;
      length := length + 1;
      nodes := nodes[..k] + [node] + nodes[k..];
      forall i: nat | i < |nodes| ensures LinkedAt(nodes, i) {
        if i < k { assert old(LinkedAt(nodes, i)); } else if i > k { assert old(LinkedAt(nodes, i - 1)); }
      }
    }

    method ScanNotBelow(compare: (T, T) -> int, item: T) returns (current: Node<T>)
      requires Valid() && head != null && FirstNotBelow(Contents(), compare, item) < |nodes|
      ensures current == nodes[FirstNotBelow(Contents(), compare, item)]
    {
      current := head;
      ghost var i: nat, k := 0, FirstNotBelow(Contents(), compare, item);
      while compare(current.data, item) < 0
        invariant i <= k < |nodes| && current == nodes[i]
        decreases |nodes| - i
      {
        assert LinkedAt(nodes, i) && Contents()[i] == current.data;
        current := current.next;
        i := i + 1;
      }
      assert Contents()[i] == current.data;
    }

    /** The case analysis of queue_insert_sorted. */
    method LinkSorted(node: Node<T>, compare: (T, T) -> int, ghost k: nat)
      requires Valid() && node !in nodes && node.prev == null && node.next == null
      requires k == Place(Contents(), compare, node.data)
      modifies this, Objects(nodes), node
      ensures Valid() && nodes == Splice(old(nodes), k, node)
      ensures Objects(nodes) == old(Objects(nodes)) + {node}
    {
      if head == null && tail == null {
        LinkOnly(node);
      } else if compare(head.data, node.data) >= 0 {
        LinkFirst(node);
      } else if compare(tail.data, node.data) < 0 {
        LinkLast(node);
      } else {
        var current := ScanNotBelow(compare, node.data);
        LinkBefore(node, current, k);
      }
    }

    method InsertSorted(compare: (T, T) -> int, item: T)
      requires Valid()
      modifies this, Objects(nodes)
      ensures Valid() && Contents() == Inserted(old(Contents()), compare, item)
      ensures fresh(Objects(nodes) - old(Objects(nodes)))
    {
      var node := new Node(item);
      ghost var was, k := nodes, Place(Contents(), compare, item);
      LinkSorted(node, compare, k);
      DataInserted(was, nodes, k, node);
    }

    /** Takes one node out of the chain and returns the node behind it. */
    method Unlink(current: Node<T>, ghost i: nat) returns (following: Node?<T>)
      requires Valid() && i < |nodes| && current == nodes[i]
      modifies this, Objects(nodes)
      ensures Objects(nodes) <= old(Objects(nodes))
      ensures Valid() && nodes == old(nodes[..i] + nodes[i + 1..]) && following == At(nodes, i)
    {
      assert LinkedAt(nodes, i);
      assert i > 0 ==> LinkedAt(nodes, i - 1);
      assert i + 1 < |nodes| ==> LinkedAt(nodes, i + 1);
      if current.next != null {
        current.next.prev := current.prev;
      }
      if current.prev != null {
        current.prev.next := current.next;
      }
      if head == current {
        if current.prev != null {
          assert false;
        } else {
          head := current.next;
        }
      }
      if tail == current {
        if current.next != null {
          assert false;
        } else {
          tail := current.prev;
        }
      }
      following := current.next;
      length := length - 1;
      nodes := nodes[..i] + nodes[i + 1..];
      forall j: nat | j < |nodes| ensures LinkedAt(nodes, j) {
        if j < i { assert old(LinkedAt(nodes, j)); } else { assert old(LinkedAt(nodes, j + 1)); }
      }
    }

    ghost predicate Split(kept: seq<T>, rest: seq<T>)
      reads this, nodes
    {
      Valid() && |nodes| == |kept| + |rest| && Contents() == kept + rest
    }

    /** One round of the loop of queue_delete_by_predicate. */
    method DeleteOrKeep(current: Node<T>, delete: bool, ghost kept: seq<T>, ghost rest: seq<T>)
      returns (following: Node?<T>, ghost kept': seq<T>)
      requires Split(kept, rest) && rest != [] && current == nodes[|kept|]
      modifies this, Objects(nodes)
      ensures kept' == kept + (if delete then [] else [rest[0]])
      ensures Split(kept', rest[1..]) && following == At(nodes, |kept'|)
      ensures Objects(nodes) <= old(Objects(nodes))
    {
      ghost var ns := nodes;
      if delete {
        following := Unlink(current, |kept|);
        DataRemoved(ns, nodes, |kept|, kept, rest);
        kept' := kept;
      } else {
        assert LinkedAt(nodes, |kept|);
        following := current.next;
        Shift(kept, rest);
        kept' := kept + [rest[0]];
      }
    }

    /** Removes all matches and only those, keeps the order, returns the last one removed. */
    method DeleteByPredicate(matches: T -> bool) returns (removed: Option<T>)
      requires Valid()
      modifies this, Objects(nodes)
      ensures Valid() && Contents() == Kept(old(Contents()), matches)
      ensures removed == LastMatch(old(Contents()), matches)
      ensures Objects(nodes) <= old(Objects(nodes))
    {
      var current := head;
      removed := None;
      ghost var all, kept, rest := Contents(), [], Contents();
      DeletingStarts(all, matches);
      while current != null
        invariant Split(kept, rest) && current == At(nodes, |kept|)
        invariant Deleting(all, kept, rest, removed, matches)
        invariant Objects(nodes) <= old(Objects(nodes))
        decreases |rest|
      {
        RestStarts(nodes, kept, rest);
        DeletingStep(all, kept, rest, removed, matches);
        var delete := matches(current.data);
        removed := if delete then Some(current.data) else removed;
        current, kept := DeleteOrKeep(current, delete, kept, rest);
        rest := rest[1..];
      }
      DeletingEnds(all, kept, rest, removed, matches);
    }

    /** The order of steps queue_prepend needs to meet its documentation. */
    method Prepend(item: T)
      requires Valid()
      modifies this, Objects(nodes)
      ensures Valid() && Contents() == [item] + old(Contents())
      ensures fresh(Objects(nodes) - old(Objects(nodes)))
    {
      var node := new Node(item);
      if head == null && tail == null {
        tail := node;
      } else {
        node.next := head;
        head.prev := node;
      }
      head := node;
      length := length + 1;
      nodes := [node] + nodes;
      forall i: nat | i < |nodes| ensures LinkedAt(nodes, i) {
        if i > 0 { assert old(LinkedAt(nodes, i - 1)); }
      }
    }

    /** queue_prepend as coded: head is overwritten before the old head is linked. Its
        final assertion fails (None) for an empty queue; for any other, the head becomes a
        node that follows itself, and no chain of nodes fits the queue any more. */
    method PrependAsCoded(item: T) returns (status: Option<int>)
      requires Valid()
      modifies this, Objects(nodes)
      ensures status == None <==> old(Contents()) == []
      ensures head != null && head.next == head
      ensures forall ns: seq<Node<T>> :: !Holds(ns)
    {
      var node := new Node(item);
      head := node;
      length := length + 1;
      if head == null && tail == null {
        assert false;
      } else {
        node.next := head;
        head.prev := node;
      }
      if head == null || tail == null { status := None; } else { status := Some(0); }
      forall ns: seq<Node<T>> ensures !Holds(ns) {
        if ns != [] { assert LinkedAt(ns, 0) ==> node != ns[0] || node == At(ns, 1); }
      }
    }
  }
}
