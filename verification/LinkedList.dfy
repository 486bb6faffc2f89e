/** The doubly linked list that MemoryTaskStore keeps its entries in: nodes in a ring through a
    root node, as container/list builds it. `nodes` is the order of the list, oldest first. */
module LinkedList {

  class Element<V> {
    var prev: Element?<V>
    var next: Element?<V>
    var value: V

    constructor (value: V)
      ensures this.value == value
    {
      this.value := value;
      prev, next := null, null;
    }
  }

  // ---- Rings

  /** Neighbours at position i point at each other. */
  ghost predicate JoinedAt<V>(ring: seq<Element<V>>, i: nat)
    requires i < |ring| - 1
    reads ring
  {
    ring[i].next == ring[i + 1] && ring[i + 1].prev == ring[i]
  }

  ghost predicate IsRing<V>(ring: seq<Element<V>>)
    reads ring
  {
    forall i | 0 <= i < |ring| - 1 :: JoinedAt(ring, i)
  }

  /** The nodes of a list are its own, different from each other and from the root. */
  ghost predicate NodesOk<V>(nodes: seq<Element<V>>, root: Element<V>, repr: set<object>) {
    && (forall i | 0 <= i < |nodes| :: nodes[i] in repr && nodes[i] != root)
    && (forall i, j | 0 <= i < j < |nodes| :: nodes[i] != nodes[j])
  }

  /** The ring through the root, which starts and ends it. */
  ghost function RingOf<V>(nodes: seq<Element<V>>, root: Element<V>): seq<Element<V>> {
    [root] + nodes + [root]
  }

  ghost function Without<T>(s: seq<T>, k: nat): seq<T>
    requires k < |s|
  {
    s[..k] + s[k + 1..]
  }

  lemma RingWithout<V>(nodes: seq<Element<V>>, root: Element<V>, k: nat)
    requires k < |nodes|
    ensures RingOf(Without(nodes, k), root) == Without(RingOf(nodes, root), k + 1)
  {
  }

  lemma NodesWithout<V>(nodes: seq<Element<V>>, root: Element<V>, repr: set<object>, k: nat)
    requires NodesOk(nodes, root, repr) && k < |nodes|
    ensures NodesOk(Without(nodes, k), root, repr) && nodes[k] !in Without(nodes, k)
  {
    var rest := Without(nodes, k);
    assert forall i | 0 <= i < |rest| :: rest[i] == nodes[if i < k then i else i + 1];
  }

  /** The pointer writes of taking out node k: its neighbours meet, and it points nowhere. */
  method Detach<V>(e: Element<V>, ghost nodes: seq<Element<V>>, ghost root: Element<V>, ghost repr: set<object>, ghost k: nat)
    requires NodesOk(nodes, root, repr) && k < |nodes| && nodes[k] == e && IsRing(RingOf(nodes, root))
    modifies RingOf(nodes, root)
    ensures IsRing(RingOf(Without(nodes, k), root))
    ensures forall x: Element<V> | x in RingOf(nodes, root) :: x.value == old(x.value)
  {
    ghost var ring := RingOf(nodes, root);
    ghost var now := RingOf(Without(nodes, k), root);
    RingWithout(nodes, root, k);
    assert JoinedAt(ring, k) && JoinedAt(ring, k + 1);
    var before, after := e.prev, e.next;
    before.next, after.prev := after, before;
    e.prev, e.next := null, null;
    forall i | 0 <= i < k ensures JoinedAt(now, i) {
      assert old(JoinedAt(ring, i));
    }
    forall i | k < i < |now| - 1 ensures JoinedAt(now, i) {
      assert old(JoinedAt(ring, i + 1));
    }
    assert JoinedAt(now, k);
  }

  /** The pointer writes of linking e in front of the root. */
  method Attach<V>(e: Element<V>, root: Element<V>, ghost nodes: seq<Element<V>>, ghost repr: set<object>)
    requires NodesOk(nodes, root, repr) && e !in nodes && e != root && IsRing(RingOf(nodes, root))
    modifies RingOf(nodes, root), e
    ensures IsRing(RingOf(nodes + [e], root))
    ensures e.value == old(e.value) && forall x: Element<V> | x in RingOf(nodes, root) :: x.value == old(x.value)
  {
    ghost var ring, now, n := RingOf(nodes, root), RingOf(nodes + [e], root), |nodes|;
    assert JoinedAt(ring, n);
    var last := root.prev;
    assert last == ring[n];
    e.prev, e.next := last, root;
    last.next := e;
    root.prev := e;
    forall i | 0 <= i < n ensures JoinedAt(now, i) {
      assert old(JoinedAt(ring, i));
      assert now[i] == ring[i] && now[i + 1] == ring[i + 1];
    }
    assert JoinedAt(now, n) && JoinedAt(now, n + 1);
  }

  class List<V(0)> {
    const root: Element<V>
    var length: nat
    ghost var nodes: seq<Element<V>>
    ghost var values: seq<V>      // the values, oldest first
    ghost var Repr: set<object>

    ghost predicate Valid()
      reads this, Repr
    {
      && this in Repr && root in Repr && NodesOk(nodes, root, Repr)
      && length == |nodes| == |values|
      && (forall i | 0 <= i < |nodes| :: nodes[i].value == values[i])
      && IsRing(RingOf(nodes, root))
    }

    constructor (zero: V)
      ensures Valid() && fresh(Repr) && nodes == [] && values == []
    {
      var r := new Element(zero);
      root, length, nodes, values := r, 0, [], [];
      Repr := {this, r};
      new;
      root.next, root.prev := root, root;
      assert JoinedAt(RingOf(nodes, root), 0);
    }

    method Front() returns (e: Element?<V>)
      requires Valid()
      ensures e == if nodes == [] then null else nodes[0]
    {
      if length == 0 {
        return null;
      }
      assert JoinedAt(RingOf(nodes, root), 0);
      return root.next;
    }

    /** Links e in front of the root. */
    method LinkBack(e: Element<V>)
      requires Valid() && e !in nodes && e != root
      modifies Repr, e
      ensures Valid() && nodes == old(nodes) + [e] && values == old(values) + [e.value] && e.value == old(e.value)
      ensures Repr == old(Repr) + {e}
    {
      Attach(e, root, nodes, Repr);
      length := length + 1;
      nodes, values, Repr := nodes + [e], values + [e.value], Repr + {e};
    }

    method PushBack(value: V) returns (e: Element<V>)
      requires Valid()
      modifies Repr
      ensures Valid() && fresh(e) && nodes == old(nodes) + [e] && values == old(values) + [value] && e.value == value
      ensures Repr == old(Repr) + {e}
    {
      e := new Element(value);
      LinkBack(e);
    }

    /** Takes the node at position k out of the ring. */
    method Unlink(e: Element<V>, ghost k: nat)
      requires Valid() && k < |nodes| && nodes[k] == e
      modifies Repr
      ensures Valid() && nodes == old(nodes[..k] + nodes[k + 1..]) && values == old(values[..k] + values[k + 1..])
      ensures e.value == old(e.value) && Repr == old(Repr)
    {
      NodesWithout(nodes, root, Repr, k);
      Detach(e, nodes, root, Repr, k);
      length := length - 1;
      nodes, values := Without(nodes, k), Without(values, k);
    }

    method MoveToBack(e: Element<V>, ghost k: nat)
      requires Valid() && k < |nodes| && nodes[k] == e
      modifies Repr
      ensures Valid() && nodes == old(nodes[..k] + nodes[k + 1..]) + [e]
      ensures values == old(values[..k] + values[k + 1..]) + [old(values[k])] && Repr == old(Repr)
    {
      assert JoinedAt(RingOf(nodes, root), |nodes|);
      if root.prev == e {
        assert k == |nodes| - 1;
        return;
      }
      NodesWithout(nodes, root, Repr, k);
      Unlink(e, k);
      LinkBack(e);
    }

    /** Overwrites the value of the node at position k. */
    method SetValue(e: Element<V>, value: V, ghost k: nat)
      requires Valid() && k < |nodes| && nodes[k] == e
      modifies Repr
      ensures Valid() && nodes == old(nodes) && values == old(values)[k := value] && Repr == old(Repr)
    {
      e.value := value;
      values := values[k := value];
      forall i | 0 <= i < |nodes| + 1 ensures JoinedAt(RingOf(nodes, root), i) {
        assert old(JoinedAt(RingOf(nodes, root), i));
      }
    }
  }
}
