/**
 The delta chain on the heap: nodes linked in both directions (include/lib/dsa/dq.h)
 that carry deltas (include/lib/dsa/deltaChain.h).

 Each list object keeps a ghost sequence of its nodes, and `Valid` says that
 following `next` and `prev` traverses that sequence in both directions. The chain
 methods are proved against the value-level operations of DeltaSeq.
 */
module DeltaChain {
  import opened DeltaSeq

  class DeltaNode {
    var delta: nat
    var expectedEpoch: nat
    var next: DeltaNode?
    var prev: DeltaNode?

    constructor ()
      ensures next == null && prev == null && delta == 0
    {
      next, prev, delta, expectedEpoch := null, null, 0, 0;
    }
  }

  class Dq {
    var front: DeltaNode?
    var back: DeltaNode?
    ghost var nodes: seq<DeltaNode>

    /** The links of the node at a position. */
    ghost predicate Joined(i: int)
      requires 0 <= i < |nodes|
      reads this, nodes`next, nodes`prev
    {
      nodes[i].next == At(i + 1) && nodes[i].prev == At(i - 1)
    }

    ghost predicate Valid()
      reads this, nodes`next, nodes`prev
    {
      && (forall i, j :: 0 <= i < j < |nodes| ==> nodes[i] != nodes[j])
      && front == At(0)
      && back == At(|nodes| - 1)
      && (forall i :: 0 <= i < |nodes| ==> Joined(i))
    }

    /** The node at a position, or null outside the list. */
    ghost function At(i: int): DeltaNode?
      reads this`nodes
    {
      if 0 <= i < |nodes| then nodes[i] else null
    }

    constructor ()
      ensures Valid() && nodes == []
    {
      front, back, nodes := null, null, [];
    }

    method PushBack(node: DeltaNode)
      requires Valid() && node !in nodes
      modifies this, nodes`next, nodes`prev, node`next, node`prev
      ensures Valid() && nodes == old(nodes) + [node]
    {
      ghost var was := nodes;
      assert forall i :: 0 <= i < |nodes| ==> Joined(i);
      node.next := null;
      node.prev := back;
      if node.prev != null {
        node.prev.next := node;
      } else {
        front := node;
      }
      back := node;
      nodes := nodes + [node];
      forall i | 0 <= i < |nodes| ensures Joined(i) {
        assert i < |was| ==> nodes[i] == was[i] && old(Joined(i));
      }
    }

    method PushFront(node: DeltaNode)
      requires Valid() && node !in nodes
      modifies this, nodes`next, nodes`prev, node`next, node`prev
      ensures Valid() && nodes == [node] + old(nodes)
    {
      ghost var was := nodes;
      node.prev := null;
      node.next := front;
      if node.next != null {
        node.next.prev := node;
      } else {
        back := node;
      }
      front := node;
      nodes := [node] + nodes;
      forall i | 0 <= i < |nodes| ensures Joined(i) {
        assert i > 0 ==> nodes[i] == was[i - 1] && old(Joined(i - 1));
      }
    }

    method PopFront() returns (node: DeltaNode?)
      requires Valid()
      modifies this, nodes`next, nodes`prev
      ensures Valid()
      ensures node == old(At(0))
      ensures nodes == if old(nodes) == [] then [] else old(nodes)[1..]
      ensures node != null ==> node.next == null && node.prev == null
    {
      node := front;
      if node == null {
        return;
      }
      ghost var was := nodes;
      assert Joined(0);
      front := node.next;
      if node.next != null {
        node.next.prev := null;
        node.next := null;
      } else {
        back := null;
      }
      nodes := nodes[1..];
      forall i | 0 <= i < |nodes| ensures Joined(i) {
        assert nodes[i] == was[i + 1] && old(Joined(i + 1));
      }
    }

    /** Links `node` behind `prev`, or at the front when `prev` is null. `k` is the position it gets. */
    method InsertPrev(prev: DeltaNode?, node: DeltaNode, ghost k: nat)
      requires Valid() && node !in nodes
      requires k <= |nodes| && prev == At(k - 1)
      modifies this, nodes`next, nodes`prev, node`next, node`prev
      ensures Valid() && nodes == old(nodes)[..k] + [node] + old(nodes)[k..]
    {
      if prev == null {
        PushFront(node);
        return;
      }
      assert Joined(k - 1);
      if prev.next == null {
        PushBack(node);
        return;
      }
      InsertBetween(prev, node, prev.next, k);
    }

    /** The case of `InsertPrev` with a neighbour on either side. */
    method InsertBetween(prev: DeltaNode, node: DeltaNode, next: DeltaNode, ghost k: nat)
      requires Valid() && node !in nodes
      requires 0 < k < |nodes| && prev == nodes[k - 1] && next == nodes[k]
      modifies this`nodes, prev`next, next`prev, node`next, node`prev
      ensures Valid() && nodes == old(nodes)[..k] + [node] + old(nodes)[k..]
    {
      ghost var was := nodes;
      prev.next := node;
      next.prev := node;
      node.prev := prev;
      node.next := next;
      nodes := nodes[..k] + [node] + nodes[k..];
      forall i | 0 <= i < |nodes| ensures Joined(i) {
        if i < k {
          assert nodes[i] == was[i] && old(Joined(i));
        } else if i > k {
          assert nodes[i] == was[i - 1] && old(Joined(i - 1));
        }
      }
    }

    /** Unlinks `node`, wherever it is. */
    method Dequeue(node: DeltaNode, ghost k: nat)
      requires Valid() && k < |nodes| && nodes[k] == node
      modifies this, nodes`next, nodes`prev
      ensures Valid() && nodes == old(nodes)[..k] + old(nodes)[k + 1..]
      ensures node.next == null && node.prev == null
    {
      ghost var was := nodes;
      assert Joined(k);
      assert k > 0 ==> Joined(k - 1);
      assert k + 1 < |nodes| ==> Joined(k + 1);
      var prev, next := node.prev, node.next;
      if prev != null {
        prev.next := next;
      } else {
        front := next;
      }
      if next != null {
        next.prev := prev;
      } else {
        back := prev;
      }
      node.prev := null;
      node.next := null;
      nodes := nodes[..k] + nodes[k + 1..];
      forall i | 0 <= i < |nodes| ensures Joined(i) {
        if i < k {
          assert nodes[i] == was[i] && old(Joined(i));
        } else {
          assert nodes[i] == was[i + 1] && old(Joined(i + 1));
        }
      }
    }
  }

  class Chain {
    var currentEpoch: nat
    const dq: Dq

    ghost predicate Valid()
      reads this, dq, dq.nodes`next, dq.nodes`prev
    {
      dq.Valid() && currentEpoch < WRAP
    }

    /** The chain as a value, each node standing for itself. */
    ghost function View(): (c: seq<Node<DeltaNode>>)
      reads dq, dq.nodes
      ensures |c| == |dq.nodes|
    {
      seq(|dq.nodes|, i requires 0 <= i < |dq.nodes| reads dq, dq.nodes =>
        Node(dq.nodes[i], dq.nodes[i].delta, dq.nodes[i].expectedEpoch))
    }

    /** Every node is stamped with the epoch at which it expires. */
    ghost predicate Exact()
      reads this, dq, dq.nodes
    {
      Stamped(View(), currentEpoch)
    }

    lemma NodesDistinct()
      requires dq.Valid()
      ensures Distinct(View()) && Ids(View()) == set node | node in dq.nodes
    {
      DistinctNodes(View());
      forall node | node in dq.nodes ensures node in Ids(View()) {
        var k :| 0 <= k < |dq.nodes| && dq.nodes[k] == node;
        assert View()[k].id == node;
      }
    }

    constructor ()
      ensures Valid() && Exact() && View() == [] && currentEpoch == 0 && fresh(dq)
    {
      currentEpoch := 0;
      dq := new Dq();
    }

    /** The walk of an insertion: the place for an entry that expires in `ticks`, and what is left of `ticks` there. */
    method Walk(ticks: nat, ghost id: DeltaNode, ghost stamp: nat)
      returns (prev: DeltaNode?, cur: DeltaNode?, delta: nat, ghost k: nat)
      requires Valid()
      ensures k <= |dq.nodes| && prev == dq.At(k - 1) && cur == dq.At(k)
      ensures cur != null ==> cur.delta > delta
      ensures DeltaSeq.Insert(View(), id, ticks, stamp) ==
        View()[..k] + DeltaSeq.Insert(View()[k..], id, delta, stamp)
    {
      hide DeltaSeq.Insert;
      ghost var c := View();
      cur, prev, delta, k := dq.front, null, ticks, 0;
      while cur != null && cur.delta <= delta
        invariant 0 <= k <= |c| && cur == dq.At(k) && prev == dq.At(k - 1)
        invariant DeltaSeq.Insert(c, id, ticks, stamp) == c[..k] + DeltaSeq.Insert(c[k..], id, delta, stamp)
        decreases |c| - k
      {
        assert dq.Joined(k);
        WalkOn(c, id, delta, stamp, k);
        delta := delta - cur.delta;
        prev := cur;
        cur := cur.next;
        k := k + 1;
      }
    }

    /** The node behind the new entry's place is due that much later than the new entry, not than the one before. */
    method Cut(cur: DeltaNode?, delta: nat, ghost k: nat)
      requires dq.Valid() && k <= |dq.nodes| && cur == dq.At(k) && (cur != null ==> cur.delta > delta)
      modifies dq.nodes`delta
      ensures View() == Opened(old(View()), delta, k)
    {
      if cur != null {
        cur.delta := cur.delta - delta;
      }
    }

    /** The place has been found: the node behind it is cut, and the new one linked in. */
    method Place(prev: DeltaNode?, cur: DeltaNode?, node: DeltaNode, delta: nat, ghost k: nat)
      requires dq.Valid() && node !in dq.nodes && k <= |dq.nodes|
      requires prev == dq.At(k - 1) && cur == dq.At(k) && (cur != null ==> cur.delta > delta)
      modifies dq, dq.nodes, node
      ensures dq.Valid()
      ensures View() == Opened(old(View()), delta, k)[..k] + [Node(node, delta, old(node.expectedEpoch))]
        + Opened(old(View()), delta, k)[k..]
    {
      Cut(cur, delta, k);
      ghost var cut := View();
      node.delta := delta;
      assert View() == cut;
      Link(prev, node, k);
    }

    method Insert(node: DeltaNode, ticks: nat)
      requires Valid() && node !in dq.nodes && ticks < WRAP
      modifies dq, dq.nodes, node
      ensures Valid() && (old(Exact()) ==> Exact())
      ensures View() == DeltaSeq.Insert(old(View()), node, ticks, (currentEpoch + ticks) % WRAP)
    {
      hide DeltaSeq.Insert, Dq.Joined, Ids, Distinct, Stamped;
      ghost var was := View();
      NodesDistinct();
      if Exact() {
        InsertStamped(was, currentEpoch, node, ticks);
      }
      node.expectedEpoch := (currentEpoch + ticks) % WRAP;
      assert View() == was;
      ghost var k;
      var prev, cur, delta;
      prev, cur, delta, k := Walk(ticks, node, node.expectedEpoch);
      InsertStops(was, node, delta, node.expectedEpoch, k);
      Place(prev, cur, node, delta, k);
    }

    /** `dqInsertPrev` on a node that already carries its delta and its stamp. */
    method Link(prev: DeltaNode?, node: DeltaNode, ghost k: nat)
      requires dq.Valid() && node !in dq.nodes
      requires k <= |dq.nodes| && prev == dq.At(k - 1)
      modifies dq, dq.nodes`next, dq.nodes`prev, node`next, node`prev
      ensures dq.Valid()
      ensures View() == old(View())[..k] + [Node(node, old(node.delta), old(node.expectedEpoch))] + old(View())[k..]
    {
      ghost var goal := View()[..k] + [Node(node, node.delta, node.expectedEpoch)] + View()[k..];
      ghost var was := dq.nodes;
      dq.InsertPrev(prev, node, k);
      forall i | 0 <= i < |goal| ensures View()[i] == goal[i] {
        assert dq.nodes[i] == if i < k then was[i] else if i == k then node else was[i - 1];
      }
    }

    /** The first node whose delta is not zero yet. */
    method FirstLive() returns (node: DeltaNode?, ghost k: nat)
      requires Valid()
      ensures k <= |dq.nodes| && node == dq.At(k) && (node != null ==> node.delta != 0)
      ensures DeltaSeq.Tick(View()) == View()[..k] + DeltaSeq.Tick(View()[k..])
    {
      hide DeltaSeq.Tick;
      ghost var c := View();
      node, k := dq.front, 0;
      while node != null && node.delta == 0
        invariant 0 <= k <= |c| && node == dq.At(k)
        invariant DeltaSeq.Tick(c) == c[..k] + DeltaSeq.Tick(c[k..])
        decreases |c| - k
      {
        assert dq.Joined(k);
        TickOn(c, k);
        node := node.next;
        k := k + 1;
      }
    }

    /** The one decrement a tick makes. */
    method Decrement()
      requires Valid()
      modifies dq.nodes`delta
      ensures Valid() && View() == DeltaSeq.Tick(old(View()))
    {
      ghost var was := View();
      ghost var k;
      var node;
      node, k := FirstLive();
      if node != null {
        node.delta := node.delta - 1;
        TickStops(was, View(), k);
      }
    }

    method Tick()
      requires Valid()
      modifies this, dq.nodes`delta
      ensures Valid()
      ensures currentEpoch == (old(currentEpoch) + 1) % WRAP
      ensures View() == DeltaSeq.Tick(old(View())) && dq.nodes == old(dq.nodes)
      ensures old(Exact()) ==> (Exact() <==> old(View()) == [] || old(View())[0].delta > 0)
    {
      hide Ids, Distinct, Stamped, Left, DeltaSeq.Tick;
      NodesDistinct();
      if Exact() {
        TickStampedFront(View(), currentEpoch);
      }
      ghost var was := View();
      currentEpoch := (currentEpoch + 1) % WRAP;
      assert View() == was;
      Decrement();
    }

    method PopExpired() returns (node: DeltaNode?)
      requires Valid()
      modifies dq, dq.nodes
      ensures Valid() && (old(Exact()) ==> Exact())
      ensures node == if old(View()) == [] || old(View())[0].delta > 0 then null else old(View())[0].id
      ensures View() == if node == null then old(View()) else old(View())[1..]
      ensures dq.nodes == if node == null then old(dq.nodes) else old(dq.nodes)[1..]
      ensures node == null || node !in dq.nodes
    {
      hide Ids, Distinct, Stamped, Dq.Joined;
      NodesDistinct();
      if Exact() && View() != [] && View()[0].delta == 0 {
        PopExpiredStamped(View(), currentEpoch);
      }
      node := dq.front;
      if node == null || node.delta > 0 {
        return null;
      }
      ghost var rest := View()[1..];
      var _ := dq.PopFront();
      assert View() == rest;
    }

    method Pop() returns (node: DeltaNode?)
      requires Valid()
      modifies dq, dq.nodes
      ensures Valid() && (old(Exact()) ==> Exact())
      ensures node == if old(View()) == [] then null else old(View())[0].id
      ensures View() == if old(View()) == [] then [] else PopRest(old(View()))
      ensures node != null ==> node.delta == old(View())[0].delta && node !in dq.nodes
      ensures dq.nodes == if node == null then old(dq.nodes) else old(dq.nodes)[1..]
    {
      hide Ids, Distinct, Stamped, PopRest;
      NodesDistinct();
      if Exact() && View() != [] {
        PopStamped(View(), currentEpoch);
      }
      node := HandOn();
    }

    /** The front goes, and its delta is handed to the node behind it. */
    method HandOn() returns (node: DeltaNode?)
      requires Valid()
      modifies dq, dq.nodes
      ensures Valid()
      ensures node == if old(View()) == [] then null else old(View())[0].id
      ensures View() == if old(View()) == [] then [] else PopRest(old(View()))
      ensures node != null ==> node.delta == old(View())[0].delta && node !in dq.nodes
      ensures dq.nodes == if node == null then old(dq.nodes) else old(dq.nodes)[1..]
    {
      node := dq.PopFront();
      if node == null {
        return;
      }
      ghost var rest := View();
      assert rest == old(View())[1..];
      var next := dq.front;
      if next != null {
        next.delta := (next.delta + node.delta) % WRAP;
        assert View() == rest[0 := rest[0].(delta := (rest[0].delta + old(View())[0].delta) % WRAP)];
      }
    }

    method Peek() returns (node: DeltaNode?)
      requires Valid()
      ensures node == if View() == [] then null else View()[0].id
    {
      node := dq.front;
    }

    method IsEmpty() returns (empty: bool)
      requires Valid()
      ensures empty <==> View() == []
    {
      empty := dq.front == null;
    }

    /** The constant-time answer: right whenever the stamps are. */
    method TicksUntil(node: DeltaNode) returns (t: nat)
      requires Valid() && Exact() && node in dq.nodes
      ensures t == Left(View(), node)
    {
      NodesDistinct();
      t := TimeUntil(node.expectedEpoch, currentEpoch);
      ghost var k :| 0 <= k < |dq.nodes| && dq.nodes[k] == node;
      StampAt(View(), k);
      TimeUntilIsLeft(View(), currentEpoch, node);
    }
  }

  /** One step of the walk of an insertion. */
  lemma WalkOn<T>(c: seq<Node<T>>, id: T, delta: nat, stamp: nat, k: nat)
    requires k < |c| && c[k].delta <= delta
    ensures c[..k] + Insert(c[k..], id, delta, stamp) ==
      c[..k + 1] + Insert(c[k + 1..], id, delta - c[k].delta, stamp)
  {
    assert c[k..][0] == c[k] && c[k..][1..] == c[k + 1..];
    assert c[..k + 1] == c[..k] + [c[k]];
  }

  /** A tick passes over an expired node. */
  lemma TickOn<T>(c: seq<Node<T>>, k: nat)
    requires k < |c| && c[k].delta == 0
    ensures c[..k] + Tick(c[k..]) == c[..k + 1] + Tick(c[k + 1..])
  {
    assert c[k..][0] == c[k] && c[k..][1..] == c[k + 1..];
    assert c[..k + 1] == c[..k] + [c[k]];
  }

  /** Where a tick stops, one delta is one less. */
  lemma TickStops<T>(was: seq<Node<T>>, now: seq<Node<T>>, k: nat)
    requires k < |was| && was[k].delta != 0 && now == was[k := was[k].(delta := was[k].delta - 1)]
    ensures now == was[..k] + Tick(was[k..])
  {
    assert was[k..][0] == was[k] && was[k..][1..] == was[k + 1..];
  }

  /** The chain with room for a new entry in front of node `k`. */
  function Opened<T>(c: seq<Node<T>>, delta: nat, k: nat): (r: seq<Node<T>>)
    requires k < |c| ==> c[k].delta > delta
    ensures |r| == |c|
  {
    if k < |c| then c[k := c[k].(delta := c[k].delta - delta)] else c
  }

  /** Where the walk of an insertion stops, the new node goes in front of the node whose delta is cut. */
  lemma InsertStops<T>(c: seq<Node<T>>, id: T, delta: nat, stamp: nat, k: nat)
    requires k <= |c| && (k < |c| ==> c[k].delta > delta)
    ensures c[..k] + Insert(c[k..], id, delta, stamp) ==
      Opened(c, delta, k)[..k] + [Node(id, delta, stamp)] + Opened(c, delta, k)[k..]
  {
    if k < |c| {
      assert c[k..][1..] == Opened(c, delta, k)[k + 1..];
    }
  }

  lemma {:induction false} StampAt<T>(c: seq<Node<T>>, k: nat)
    requires Distinct(c) && k < |c|
    ensures c[k].id in Ids(c) && Stamp(c, c[k].id) == c[k].expected
  {
    IdsCons(c);
    if k > 0 {
      StampAt(c[1..], k - 1);
    }
  }

  /** What a list with no node twice means for its value: no identity twice. */
  lemma {:induction false} DistinctNodes<T>(c: seq<Node<T>>)
    requires forall i, j :: 0 <= i < j < |c| ==> c[i].id != c[j].id
    ensures Distinct(c)
  {
    if c != [] {
      DistinctNodes(c[1..]);
      forall n | n in c[1..] ensures n.id != c[0].id {
        var i :| 0 <= i < |c[1..]| && c[1..][i] == n;
      }
    }
  }
}
