/**
 The intrusive queue and the intrusive stack on the heap (include/lib/dsa/sq.h, include/lib/dsa/stackq.h). Each keeps a
 ghost sequence of its nodes; `Valid` says that the links traverse it.
 */
module Lists {

  class SqNode {
    var next: SqNode?

    constructor ()
      ensures next == null
    {
      next := null;
    }
  }

  class Sq {
    var front: SqNode?
    var back: SqNode?
    ghost var nodes: seq<SqNode>

    /** The node at a position, or null outside the queue. */
    ghost function At(i: int): SqNode?
      reads this`nodes
    {
      if 0 <= i < |nodes| then nodes[i] else null
    }

    ghost predicate Joined(i: int)
      requires 0 <= i < |nodes|
      reads this`nodes, nodes`next
    {
      nodes[i].next == At(i + 1)
    }

    ghost predicate Valid()
      reads this, nodes`next
    {
      && (forall i, j :: 0 <= i < j < |nodes| ==> nodes[i] != nodes[j])
      && front == At(0) && back == At(|nodes| - 1)
      && forall i :: 0 <= i < |nodes| ==> Joined(i)
    }

    /** `sqInit` */
    constructor ()
      ensures Valid() && nodes == []
    {
      front, back, nodes := null, null, [];
    }

    method PushBack(node: SqNode)
      requires Valid() && node !in nodes
      modifies this, nodes`next, node`next
      ensures Valid() && nodes == old(nodes) + [node]
    {
      ghost var was := nodes;
      assert forall i :: 0 <= i < |nodes| ==> Joined(i);
      node.next := null;
      if back != null {
        back.next := node;
        back := node;
      } else {
        back := node;
        front := node;
      }
      nodes := nodes + [node];
      forall i | 0 <= i < |nodes| ensures Joined(i) {
        assert i < |was| ==> nodes[i] == was[i] && old(Joined(i));
      }
    }

    method PushFront(node: SqNode)
      requires Valid() && node !in nodes
      modifies this, node`next
      ensures Valid() && nodes == [node] + old(nodes)
    {
      ghost var was := nodes;
      node.next := front;
      front := node;
      if node.next == null {
        back := node;
      }
      nodes := [node] + nodes;
      forall i | 0 <= i < |nodes| ensures Joined(i) {
        assert i > 0 ==> nodes[i] == was[i - 1] && old(Joined(i - 1));
      }
    }

    /** The popped node no longer points anywhere, so it can be pushed again. */
    method PopFront() returns (node: SqNode?)
      requires Valid()
      modifies this, nodes`next
      ensures Valid() && node == old(At(0)) && (node != null ==> node.next == null)
      ensures nodes == if old(nodes) == [] then [] else old(nodes)[1..]
    {
      node := front;
      if node == null {
        return;
      }
      ghost var was := nodes;
      assert Joined(0);
      front := node.next;
      if front != null {
        node.next := null;
      } else {
        back := null;
      }
      nodes := nodes[1..];
      forall i | 0 <= i < |nodes| ensures Joined(i) {
        assert nodes[i] == was[i + 1] && old(Joined(i + 1));
      }
    }

    /** Links `node` behind `prev`, or at the front when `prev` is null. `k` is the position it gets. */
    method Insert(prev: SqNode?, node: SqNode, ghost k: nat)
      requires Valid() && node !in nodes && k <= |nodes| && prev == At(k - 1)
      modifies this, nodes`next, node`next
      ensures Valid() && nodes == old(nodes)[..k] + [node] + old(nodes)[k..]
    {
      if prev == null {
        PushFront(node);
        return;
      }
      assert Joined(k - 1);
      var next := prev.next;
      if next == null {
        PushBack(node);
        return;
      }
      ghost var was := nodes;
      prev.next := node;
      node.next := next;
      nodes := nodes[..k] + [node] + nodes[k..];
      forall i | 0 <= i < |nodes| ensures Joined(i) {
        if i < k {
          assert nodes[i] == was[i] && old(Joined(i));
        } else if i > k {
          assert nodes[i] == was[i - 1] && old(Joined(i - 1));
        }
      }
    }

    method IsEmpty() returns (empty: bool)
      requires Valid()
      ensures empty <==> nodes == []
    {
      empty := front == null;
    }
  }

  class StackNode {
    var under: StackNode?

    constructor ()
      ensures under == null
    {
      under := null;
    }
  }

  class Stackq {
    var top: StackNode?
    ghost var nodes: seq<StackNode>

    ghost function At(i: int): StackNode?
      reads this`nodes
    {
      if 0 <= i < |nodes| then nodes[i] else null
    }

    ghost predicate Joined(i: int)
      requires 0 <= i < |nodes|
      reads this`nodes, nodes`under
    {
      nodes[i].under == At(i + 1)
    }

    ghost predicate Valid()
      reads this, nodes`under
    {
      && (forall i, j :: 0 <= i < j < |nodes| ==> nodes[i] != nodes[j])
      && top == At(0)
      && forall i :: 0 <= i < |nodes| ==> Joined(i)
    }

    constructor ()
      ensures Valid() && nodes == []
    {
      top, nodes := null, [];
    }

    method Push(node: StackNode)
      requires Valid() && node !in nodes
      modifies this, node`under
      ensures Valid() && nodes == [node] + old(nodes)
    {
      ghost var was := nodes;
      node.under := top;
      top := node;
      nodes := [node] + nodes;
      forall i | 0 <= i < |nodes| ensures Joined(i) {
        assert i > 0 ==> nodes[i] == was[i - 1] && old(Joined(i - 1));
      }
    }

    /** The popped node no longer points anywhere, so it can be pushed on another stack. */
    method Pop() returns (node: StackNode?)
      requires Valid()
      modifies this, nodes`under
      ensures Valid() && node == old(At(0)) && (node != null ==> node.under == null)
      ensures nodes == if old(nodes) == [] then [] else old(nodes)[1..]
    {
      node := top;
      if node != null {
        ghost var was := nodes;
        assert Joined(0);
        top := node.under;
        node.under := null;
        nodes := nodes[1..];
        forall i | 0 <= i < |nodes| ensures Joined(i) {
          assert nodes[i] == was[i + 1] && old(Joined(i + 1));
        }
      }
    }
  }
}
