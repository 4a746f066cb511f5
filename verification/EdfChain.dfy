/**
 The scheduler of the earliest-deadline-first policy on its linked nodes
 (src/workhorse/kSched/kSchedPolicy/kSchedEdf.c): every thread has one node, which sits in the delta chain while the
 thread is ready and keeps the thread's ticks in its delta while it is not.
 */
module EdfChain {
  import opened Tasks
  import opened TickSpec
  import opened DeltaSeq
  import opened DeltaChain
  import opened Edf

  class Scheduler {
    const idle: Id
    var virtual: map<Id, nat>
    /** The node in each thread's control block, and the thread each node is part of. */
    var nodes: map<Id, DeltaNode>
    var owner: map<DeltaNode, Id>
    const chain: Chain
    /** What the policy last kept for each thread outside the chain. */
    ghost var delta: map<Id, nat>
    /** When each thread last entered the chain, counted in entries. */
    ghost var entered: map<Id, nat>
    ghost var count: nat

    /** Threads and nodes belong together one to one, and the chain holds nothing but such nodes. */
    ghost predicate Owned()
      reads this`virtual, this`nodes, this`owner, chain.dq`nodes
    {
      && nodes.Keys == virtual.Keys
      && (forall id :: id in nodes ==> nodes[id] in owner && owner[nodes[id]] == id)
      && (forall n :: n in owner ==> owner[n] in nodes && nodes[owner[n]] == n)
      && (forall n :: n in chain.dq.nodes ==> n in owner)
    }

    /** The chain of threads that the chain of nodes stands for. */
    ghost function Queue(): seq<Node<Id>>
      requires Owned()
      reads this`virtual, this`nodes, this`owner, chain.dq, chain.dq.nodes
    {
      Renamed(chain.View(), owner)
    }

    ghost function View(): Deadlines
      requires Owned()
      reads this, chain, chain.dq, chain.dq.nodes
    {
      Deadlines(idle, virtual, Queue(), chain.currentEpoch, delta, entered, count)
    }

    /** A node outside the chain holds what the policy keeps for its thread. */
    ghost predicate Kept(but: set<Id> := {})
      reads this`nodes, this`delta, chain.dq`nodes, nodes.Values`delta
    {
      forall id :: id in nodes && id in delta && id !in but && nodes[id] !in chain.dq.nodes ==>
        nodes[id].delta == delta[id]
    }

    ghost predicate Valid()
      reads this, chain, chain.dq, chain.dq.nodes, nodes.Values
    {
      chain.Valid() && Owned() && Proper(View()) && Bounded(View()) && Kept()
    }

    /** The threads in the chain are those whose nodes are. */
    lemma InChain(id: Id)
      requires chain.Valid() && Owned() && id in nodes
      ensures id in Ids(View().chain) <==> nodes[id] in chain.dq.nodes
    {
      var c := View().chain;
      if id in Ids(c) {
        var i :| 0 <= i < |c| && c[i].id == id;
        assert owner[chain.dq.nodes[i]] == id;
      }
      if nodes[id] in chain.dq.nodes {
        var i :| 0 <= i < |chain.dq.nodes| && chain.dq.nodes[i] == nodes[id];
        assert c[i].id == id;
      }
    }

    /** What the node of a thread outside the chain holds. */
    lemma Held(id: Id)
      requires Valid() && id in virtual && id !in Ids(View().chain)
      ensures id in nodes && id in delta && nodes[id] !in chain.dq.nodes
      ensures nodes[id].delta == delta[id] <= virtual[id] && 0 < virtual[id] < WRAP
    {
      InChain(id);
    }

    constructor (idle: Id)
      ensures Valid() && View() == Deadlines(idle, map[], [], 0, map[], map[], 0)
      ensures fresh(chain) && fresh(chain.dq)
    {
      this.idle, virtual, nodes, owner := idle, map[], map[], map[];
      delta, entered, count := map[], map[], 0;
      chain := new Chain();
    }

    /** `kSchedTickTransitionCallbackEdf` */
    method TickTransition()
      requires Valid()
      modifies chain, chain.dq.nodes`delta
      ensures Valid() && View() == Ticked(old(View()))
    {
      hide Proper, Bounded, Renamed, Ids, DeltaSeq.Tick;
      TickedProper(View());
      TickedBounded(View());
      RenamedTick(chain.View(), owner);
      chain.Tick();
    }

    /** The node of thread `id` goes into the chain, `d` ticks away. */
    method Enter(id: Id, d: nat)
      requires chain.Valid() && Owned() && Kept({id}) && id in nodes && nodes[id] !in chain.dq.nodes && d < WRAP
      modifies chain.dq, chain.dq.nodes, nodes[id]
      ensures chain.Valid() && Owned() && Kept()
      ensures forall i :: 0 <= i < |chain.dq.nodes| ==>
        chain.dq.nodes[i] in old(chain.dq.nodes) || chain.dq.nodes[i] == nodes[id]
      ensures Queue() == Insert(old(Queue()), id, d, (chain.currentEpoch + d) % WRAP)
    {
      hide Renamed, Ids, Insert, Distinct;
      var node := nodes[id];
      ghost var c := chain.View();
      RenamedInsert(c, owner, node, d, (chain.currentEpoch + d) % WRAP);
      InsertIds(c, node, d, (chain.currentEpoch + d) % WRAP);
      chain.NodesDistinct();
      ghost var was := chain.dq.nodes;
      chain.Insert(node, d);
      chain.NodesDistinct();
      forall n | n in chain.dq.nodes ensures n in owner && (n in was || n == node) {
        assert n in Ids(c) + {node} && (n in Ids(c) ==> n in was);
      }
      forall n | n in was ensures n in chain.dq.nodes {
        assert n in Ids(c);
      }
    }

    /** `kSchedTaskPushEdf` on a thread that is off the chain. */
    method Push(id: Id)
      requires Valid() && id in virtual && id !in Ids(View().chain)
      modifies this`delta, this`entered, this`count, chain.dq, chain.dq.nodes, nodes[id]
      ensures Valid() && View() == Enqueue(old(View()), id)
    {
      hide Proper, Bounded, Queue, Owned, Ids, Insert, Chain.Valid;
      Held(id);
      EnqueueProper(View(), id);
      EnqueueBounded(View(), id);
      ghost var v := View();
      var d := if nodes[id].delta == 0 then virtual[id] else nodes[id].delta;
      delta := delta[id := d];
      entered, count := entered[id := count], count + 1;
      Enter(id, d);
      assert View() == Enqueue(v, id);
    }

    /** `kPluginInitTaskThread` as far as the policy goes: its check, its parameter, and the push. */
    method Join(id: Id, deadline: nat) returns (ok: bool)
      requires Valid() && id !in virtual && deadline < WRAP
      modifies this`virtual, this`nodes, this`owner, this`delta, this`entered, this`count, chain.dq, chain.dq.nodes
      ensures Valid() && ok == Accepts(old(View()), id, deadline)
      ensures View() == if ok then Joined(old(View()), id, deadline) else old(View())
    {
      if deadline == 0 {
        return false;
      }
      Admit(id, deadline);
      Push(id);
      return true;
    }

    method Admit(id: Id, deadline: nat)
      requires Valid() && Accepts(View(), id, deadline) && deadline < WRAP
      modifies this`virtual, this`nodes, this`owner, this`delta
      ensures Valid() && View() == Admitted(old(View()), id, deadline)
      ensures id in virtual && id !in Ids(View().chain) && id in nodes && fresh(nodes[id])
    {
      hide Chain.Valid, Proper, Bounded, Ids, Owned, Queue;
      ghost var v := View();
      AdmittedProper(v, id, deadline);
      AdmittedBounded(v, id, deadline);
      delta := delta[id := 0];
      Attach(id, deadline);
      assert View() == Admitted(v, id, deadline);
    }

    /** The node of a new thread, and what leads from one to the other. */
    method Attach(id: Id, deadline: nat)
      requires Owned() && id !in virtual
      modifies this`virtual, this`nodes, this`owner
      ensures Owned() && Queue() == old(Queue())
      ensures virtual == old(virtual)[id := deadline]
      ensures id in nodes && fresh(nodes[id]) && nodes == old(nodes)[id := nodes[id]] && nodes[id].delta == 0
    {
      var node := new DeltaNode();
      virtual := virtual[id := deadline];
      nodes := nodes[id := node];
      owner := owner[node := id];
    }

    /** The front, if its deadline has passed. */
    method TakeExpired() returns (id: Option<Id>)
      requires chain.Valid() && Owned() && Kept()
      modifies chain.dq, chain.dq.nodes
      ensures chain.Valid() && Owned()
      ensures forall i :: 0 <= i < |chain.dq.nodes| ==> chain.dq.nodes[i] in old(chain.dq.nodes)
      ensures id.Some? <==> old(Queue()) != [] && old(Queue())[0].delta == 0
      ensures id.None? ==> Queue() == old(Queue()) && Kept()
      ensures id.Some? ==>
        && id.value == old(Queue())[0].id && Queue() == old(Queue())[1..]
        && id.value in nodes && nodes[id.value] !in chain.dq.nodes && Kept({id.value})
        && nodes[id.value] in old(chain.dq.nodes)
    {
      hide Chain.Valid, Dq.Valid;
      var node := chain.PopExpired();
      if node == null {
        return None;
      }
      id := Some(owner[node]);
    }

    /** One turn of the loop below: the front goes back in if its deadline has passed. */
    method RestartFront() returns (more: bool)
      requires Valid()
      modifies this`entered, this`count, chain.dq, chain.dq.nodes
      ensures Valid()
      ensures forall i :: 0 <= i < |chain.dq.nodes| ==> chain.dq.nodes[i] in old(chain.dq.nodes)
      ensures more <==> old(View()).chain != [] && old(View()).chain[0].delta == 0
      ensures View() == if more then Restart(old(View())) else old(View())
    {
      hide Proper, Bounded, Queue, Owned, Kept, Ids, Insert, Chain.Valid;
      ghost var v := View();
      ExpiredFront(v);
      var expired := TakeExpired();
      if expired.None? {
        return false;
      }
      var id := expired.value;
      entered, count := entered[id := count], count + 1;
      Enter(id, virtual[id]);
      assert View() == Restart(v);
      return true;
    }

    /** `kSchedFixupChainEdf` */
    method FixupChain()
      requires Valid()
      modifies this`entered, this`count, chain.dq, chain.dq.nodes
      ensures Valid() && View() == Restarted(old(View()))
      ensures forall i :: 0 <= i < |chain.dq.nodes| ==> chain.dq.nodes[i] in old(chain.dq.nodes)
    {
      hide Proper, Bounded, Queue, Owned, Kept, Restart, Chain.Valid;
      var more := RestartFront();
      while more
        invariant Valid() && View() == old(View()).(chain := View().chain, entered := entered, count := count)
        invariant Restarted(View()) == Restarted(old(View()))
        invariant forall i :: 0 <= i < |chain.dq.nodes| ==> chain.dq.nodes[i] in old(chain.dq.nodes)
        invariant !more ==> View().chain == [] || View().chain[0].delta > 0
        decreases Expired(View().chain), more
      {
        more := RestartFront();
      }
    }

    /** The front leaves the chain and keeps the ticks it has left. */
    method TakeFront() returns (id: Option<Id>)
      requires chain.Valid() && Owned() && Kept()
      modifies chain.dq, chain.dq.nodes
      ensures chain.Valid() && Owned()
      ensures id.Some? <==> old(Queue()) != []
      ensures id.None? ==> Queue() == old(Queue()) && Kept()
      ensures id.Some? ==>
        && id.value == old(Queue())[0].id && Queue() == PopRest(old(Queue()))
        && id.value in nodes && nodes[id.value] !in chain.dq.nodes && Kept({id.value})
        && nodes[id.value].delta == old(Queue())[0].delta
    {
      hide Chain.Valid, Dq.Valid, Renamed, PopRest;
      if chain.View() != [] {
        RenamedPop(chain.View(), owner);
      }
      var node := chain.Pop();
      if node == null {
        return None;
      }
      id := Some(owner[node]);
    }

    /** `kSchedTaskPopEdf` */
    method Pop() returns (next: Id)
      requires Valid()
      modifies this`delta, this`entered, this`count, chain.dq, chain.dq.nodes
      ensures Valid() && next == Next(old(View())) && View() == Dequeue(old(View()))
    {
      hide Proper, Bounded, Queue, Owned, Restarted, PopRest, Chain.Valid;
      ghost var v := View();
      DequeueProper(v);
      FixupChain();
      var front := TakeFront();
      if front.None? {
        return idle;
      }
      next := front.value;
      delta := delta[next := nodes[next].delta];
      assert View() == Dequeue(v);
    }

    /** The policy keeps `d` ticks for a thread outside the chain. */
    method Keep(id: Id, d: nat)
      requires Valid() && id in virtual && id !in Ids(View().chain)
      modifies this`delta, {nodes[id]}`delta
      ensures chain.Valid() && Owned() && Kept() && View() == old(View()).(delta := old(delta)[id := d])
    {
      hide Proper, Bounded, Ids, Dq.Valid;
      Held(id);
      nodes[id].delta := d;
      delta := delta[id := d];
    }

    /** `kSchedTaskTickCallbackEdf` on a thread off the chain; `t` is the thread as the tick machine charges it. */
    method TickCallback(id: Id, cfg: Config, t: Task)
      requires Valid() && id in virtual && id !in Ids(View().chain) && cfg.policy.Edf? && t.kind.Thread?
      requires if t.state.DefSleep? then t.sleepTicks > 0 else nodes[id].delta > 0
      modifies this`delta, {nodes[id]}`delta
      ensures Valid() && View() == Charge(cfg, old(View()), id, t)
    {
      hide Proper, Bounded, Queue, Owned, Kept, Ids, Chain.Valid;
      Held(id);
      ChargeProper(cfg, View(), id, t);
      ghost var v := View();
      var left := nodes[id].delta;
      if t.state.DefSleep? {
        if left < t.sleepTicks {
          Keep(id, 0);
          assert View() == Charge(cfg, v, id, t);
          return;
        }
        left := left - (t.sleepTicks - 1);
      }
      assert left > 0;
      left := left - 1;
      if t.current == 0 {
        var period := t.period;
        if cfg.algorithm.Ds? {
          period := if period == 0 then period else t.cool;
        }
        left := if left < period then 0 else left - period;
      } else if left == 0 {
        left := virtual[id];
      }
      Keep(id, left);
      assert View() == Charge(cfg, v, id, t);
    }

    /** The ticks the front of the chain has left. */
    method Earliest() returns (left: Option<nat>)
      requires chain.Valid() && Owned()
      ensures left == if Queue() == [] then None else Some(Queue()[0].delta)
    {
      var front := chain.Peek();
      left := if front == null then None else Some(front.delta);
    }

    method NoneReady() returns (empty: bool)
      requires chain.Valid() && Owned()
      ensures empty <==> Queue() == []
    {
      empty := chain.IsEmpty();
    }

    /** `kSchedShouldRescheduleEdf` */
    method ShouldReschedule(running: Id, kind: Kind) returns (ret: bool)
      requires Valid() && (kind.Thread? ==> running in virtual && running !in Ids(View().chain))
      modifies this`entered, this`count, chain.dq, chain.dq.nodes
      ensures ret == Replace(old(View()), running, kind)
      ensures Valid() && View() == if kind.Thread? then Restarted(old(View())) else old(View())
    {
      hide Proper, Bounded, Kept, Queue, Owned, Restarted, Ids, Chain.Valid;
      ret := false;
      match kind {
        case Thread =>
          Held(running);
          var left := nodes[running].delta;
          FixupChain();
          var next := Earliest();
          ret := next.Some? && next.value < left;
        case Idle =>
          var empty := NoneReady();
          ret := !empty;
        case Lsr =>
      }
    }
  }

  /** What starting the next deadline of an expired front needs. */
  lemma ExpiredFront(v: Deadlines)
    requires Proper(v) && Bounded(v)
    ensures v.chain != [] && v.chain[0].delta == 0 ==>
      && v.chain[0].id in v.virtual && 0 < v.virtual[v.chain[0].id] < WRAP
      && Proper(Restart(v)) && Bounded(Restart(v))
  {
    hide Bounded;
    if v.chain != [] && v.chain[0].delta == 0 {
      RestOf(v);
      RestartBounded(v);
    }
  }
}
