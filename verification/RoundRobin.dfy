/**
 The round-robin policy (src/workhorse/kSched/kSchedPolicy/kSchedRr.c): a queue of ready threads for every priority,
 and a bitmap of the queues that are not empty.

 `Queues` is the policy's state as a value and the functions on it are its operations; the class at the end keeps the
 same state in arrays and a bitmap. `Agrees` ties the state to a machine of TickSpec, and the lemmas say that every
 operation answers what `Rule.Exact` demands and follows the machine through its step.
 */
module RoundRobin {
  import opened Tasks
  import opened TickSpec
  import opened PolicyFace
  import Bitmap

  datatype Param = Param(prio: nat, timesliceTicks: nat)

  datatype Queues = Queues(idle: Id, threads: map<Id, Param>, qs: seq<seq<Id>>, remaining: map<Id, nat>)

  ghost predicate Proper(v: Queues) {
    && v.remaining.Keys == v.threads.Keys
    && (forall id :: id in v.threads ==> v.threads[id].prio < |v.qs|)
    && (forall p, i, j :: 0 <= p < |v.qs| && 0 <= i < j < |v.qs[p]| ==> v.qs[p][i] != v.qs[p][j])
    && (forall p, id :: 0 <= p < |v.qs| && id in v.qs[p] ==> id in v.threads && v.threads[id].prio == p)
  }

  /** The highest queue from `low` up, below `n`, that holds a thread; or -1. */
  function Top(qs: seq<seq<Id>>, n: nat, low: nat): (p: int)
    requires n <= |qs|
    ensures p == -1 || (low <= p < n && qs[p] != [])
    ensures forall b :: low <= b < n && qs[b] != [] ==> b <= p
  {
    if n <= low then -1 else if qs[n - 1] != [] then n - 1 else Top(qs, n - 1, low)
  }

  function Enqueue(v: Queues, id: Id): Queues
    requires Proper(v) && id in v.threads
  {
    var p := v.threads[id].prio;
    v.(qs := v.qs[p := v.qs[p] + [id]])
  }

  /** What the plugin interface asks of a thread of this policy. */
  predicate Accepts(v: Queues, id: Id, p: Param) {
    id !in v.threads && p.prio < |v.qs| && p.timesliceTicks > 0
  }

  function Admitted(v: Queues, id: Id, p: Param): Queues {
    v.(threads := v.threads[id := p], remaining := v.remaining[id := 0])
  }

  /** A new thread is known to the policy, and ready. */
  function Joined(v: Queues, id: Id, p: Param): Queues
    requires Proper(v) && Accepts(v, id, p)
  {
    var w := Admitted(v, id, p);
    w.(qs := w.qs[p.prio := w.qs[p.prio] + [id]])
  }

  function Next(v: Queues): Id {
    var p := Top(v.qs, |v.qs|, 0);
    if p < 0 then v.idle else v.qs[p][0]
  }

  function Dequeue(v: Queues): Queues
    requires Proper(v)
  {
    var p := Top(v.qs, |v.qs|, 0);
    if p < 0 then v
    else
      var id := v.qs[p][0];
      v.(qs := v.qs[p := v.qs[p][1..]], remaining := v.remaining[id := v.threads[id].timesliceTicks])
  }

  function Charge(v: Queues, id: Id): Queues
    requires id in v.remaining
  {
    v.(remaining := v.remaining[id := Pred(v.remaining[id])])
  }

  function Replace(v: Queues, running: Id, kind: Kind): bool
    requires Proper(v) && (kind.Thread? ==> running in v.threads)
  {
    match kind
    case Thread =>
      var p := Top(v.qs, |v.qs|, v.threads[running].prio);
      p > v.threads[running].prio || (p == v.threads[running].prio && v.remaining[running] == 0)
    case Idle => Top(v.qs, |v.qs|, 0) != -1
    case Lsr => false
  }

  /** A lone thread whose timeslice is up starts another. */
  function Renew(v: Queues, running: Id, kind: Kind): Queues
    requires Proper(v) && (kind.Thread? ==> running in v.threads)
  {
    if kind.Thread? && v.remaining[running] == 0 && Top(v.qs, |v.qs|, v.threads[running].prio) == -1
    then v.(remaining := v.remaining[running := v.threads[running].timesliceTicks])
    else v
  }

  lemma Front(q: seq<Id>)
    requires q != [] && forall i, j :: 0 <= i < j < |q| ==> q[i] != q[j]
    ensures forall x :: x in q[1..] <==> x in q && x != q[0]
  {
    assert q == [q[0]] + q[1..];
  }

  lemma RenewProper(v: Queues, running: Id, kind: Kind)
    requires Proper(v) && (kind.Thread? ==> running in v.threads)
    ensures Proper(Renew(v, running, kind))
    ensures v.remaining.Keys == v.threads.Keys
  {
  }

  lemma EnqueueProper(v: Queues, id: Id)
    requires Proper(v) && id in v.threads && id !in v.qs[v.threads[id].prio]
    ensures Proper(Enqueue(v, id))
  {
  }

  lemma DequeueProper(v: Queues)
    requires Proper(v)
    ensures Proper(Dequeue(v))
    ensures var p := Top(v.qs, |v.qs|, 0);
      p != -1 ==> forall q, x :: 0 <= q < |v.qs| ==>
        (x in Dequeue(v).qs[q] <==> x in v.qs[q] && (q != p || x != Next(v)))
  {
    var p := Top(v.qs, |v.qs|, 0);
    if p != -1 {
      Front(v.qs[p]);
    }
  }

  // ------------------------------------------------------------------------
  // The policy and the machine.

  /** Thread `id` is ready with priority `p`. */
  ghost predicate Waits(m: Machine, p: nat, id: Id) {
    id in ReadySet(m) && m.tasks[id].prio == p
  }

  ghost predicate Known(t: Task, v: Queues, id: Id)
    requires id in v.threads && id in v.remaining
  {
    t.prio == v.threads[id].prio && t.allot == v.threads[id].timesliceTicks && t.link == v.remaining[id]
  }

  ghost predicate Agrees(cfg: Config, m: Machine, v: Queues) {
    && cfg.policy.RoundRobin? && Wf(m) && m.idle == v.idle && !m.tasks[v.idle].kind.Thread?
    && v.remaining.Keys == v.threads.Keys
    && (forall id :: id in v.threads ==> v.threads[id].prio < |v.qs|)
    && (forall id :: id in v.threads <==> id in m.tasks && m.tasks[id].kind.Thread?)
    && (forall id :: id in v.threads ==> Known(m.tasks[id], v, id))
    && (forall p, id :: 0 <= p < |v.qs| ==> (id in v.qs[p] <==> Waits(m, p, id)))
  }

  lemma AgreesAt(cfg: Config, m: Machine, v: Queues, x: Id)
    requires Agrees(cfg, m, v) && x in ReadySet(m)
    ensures m.tasks[x].prio < |v.qs| && x in v.qs[m.tasks[x].prio]
  {
    assert Known(m.tasks[x], v, x) && Waits(m, m.tasks[x].prio, x);
  }

  lemma TopAnswers(cfg: Config, m: Machine, v: Queues, low: nat)
    requires Agrees(cfg, m, v)
    ensures var p := Top(v.qs, |v.qs|, low);
      && (p == -1 <==> forall x :: x in ReadySet(m) ==> m.tasks[x].prio < low)
      && (p != -1 ==> v.qs[p][0] in ReadySet(m) && m.tasks[v.qs[p][0]].prio == p)
      && (forall x :: x in ReadySet(m) && m.tasks[x].prio >= low ==> m.tasks[x].prio <= p)
  {
    var p := Top(v.qs, |v.qs|, low);
    if p != -1 {
      assert Waits(m, p, v.qs[p][0]);
    }
    forall x | x in ReadySet(m) && m.tasks[x].prio >= low ensures m.tasks[x].prio <= p {
      AgreesAt(cfg, m, v, x);
    }
  }

  /** The pop answers with a ready thread of the highest priority, or with the idle task when nothing is ready. */
  lemma NextAnswers(cfg: Config, m: Machine, v: Queues)
    requires Agrees(cfg, m, v)
    ensures NextOk(cfg, Exact, m, Next(v))
  {
    TopAnswers(cfg, m, v, 0);
  }

  /** The rescheduling test answers yes exactly when a ready thread should take over. */
  lemma ReplaceAnswers(cfg: Config, m: Machine, v: Queues, running: Id)
    requires Agrees(cfg, m, v) && Proper(v) && m.running == Some(running) && !m.tasks[running].kind.Lsr?
    ensures Replace(v, running, m.tasks[running].kind) == Wants(cfg, m)
  {
    if m.tasks[running].kind.Thread? {
      assert Known(m.tasks[running], v, running);
      TopAnswers(cfg, m, v, m.tasks[running].prio);
    } else {
      TopAnswers(cfg, m, v, 0);
    }
  }

  /** A step of the machine that touches one thread, as the policy sees it. */
  lemma OneTask(cfg: Config, m: Machine, n: Machine, v: Queues, w: Queues, id: Id)
    requires Agrees(cfg, m, v) && Wf(n) && n.idle == m.idle && n.tasks.Keys == m.tasks.Keys && id in v.threads
    requires forall x :: x in m.tasks && x != id ==> n.tasks[x] == m.tasks[x]
    requires n.tasks[id].kind.Thread? && n.tasks[id].prio == m.tasks[id].prio && n.tasks[id].allot == m.tasks[id].allot
    requires w.idle == v.idle && w.threads == v.threads && |w.qs| == |v.qs|
    requires w.remaining == v.remaining[id := n.tasks[id].link]
    requires forall p, x :: 0 <= p < |v.qs| ==>
      (x in w.qs[p] <==> if x == id then p == v.threads[id].prio && n.tasks[id].state.Ready? else x in v.qs[p])
    ensures Agrees(cfg, n, w)
  {
    forall x | x in v.threads ensures Known(n.tasks[x], w, x) {
      assert Known(m.tasks[x], v, x);
    }
    forall p, x | 0 <= p < |w.qs| ensures x in w.qs[p] <==> Waits(n, p, x) {
      assert x in v.qs[p] <==> Waits(m, p, x);
    }
  }

  /** A thread that becomes ready joins the back of its queue. */
  lemma PushAgrees(cfg: Config, m: Machine, v: Queues, id: Id)
    requires Agrees(cfg, m, v) && Proper(v) && id in v.threads && !m.tasks[id].state.Ready?
    ensures Agrees(cfg, Put(m, id, Enter(cfg, m.tasks[id], Ready)), Enqueue(v, id)) && Proper(Enqueue(v, id))
  {
    assert Known(m.tasks[id], v, id);
    var p := v.threads[id].prio;
    assert id in v.qs[p] <==> Waits(m, p, id);
    EnqueueProper(v, id);
    assert forall q, x :: 0 <= q < |v.qs| ==> (x in Enqueue(v, id).qs[q] <==> x in v.qs[q] || (x == id && q == p));
    assert forall q :: 0 <= q < |v.qs| ==> (id in v.qs[q] <==> Waits(m, q, id));
    OneTask(cfg, m, Put(m, id, Enter(cfg, m.tasks[id], Ready)), v, Enqueue(v, id), id);
  }

  /** The popped thread has left its queue with a full timeslice when the machine has dispatched it. */
  lemma PopAgrees(cfg: Config, m: Machine, v: Queues)
    requires Agrees(cfg, m, v) && Proper(v)
    ensures Next(v) in m.tasks
    ensures Agrees(cfg, Dispatch(cfg, m, Next(v)), Dequeue(v)) && Proper(Dequeue(v))
  {
    TopAnswers(cfg, m, v, 0);
    DequeueProper(v);
    DispatchIs(cfg, m, Next(v));
    hide Top, Dispatch;
    if Top(v.qs, |v.qs|, 0) != -1 {
      PopThread(cfg, m, v);
    } else {
      PopIdle(cfg, m, v);
    }
  }

  lemma PopThread(cfg: Config, m: Machine, v: Queues)
    requires Agrees(cfg, m, v) && Proper(v) && Top(v.qs, |v.qs|, 0) != -1
    ensures var id := Next(v);
      && id in m.tasks
      && Agrees(cfg, Put(m, id, Popped(cfg, m.tasks[id]).(state := Running)).(running := Some(id)), Dequeue(v))
  {
    TopAnswers(cfg, m, v, 0);
    DequeueProper(v);
    var id := Next(v);
    assert Known(m.tasks[id], v, id);
    assert forall q :: 0 <= q < |v.qs| ==> (id in v.qs[q] <==> Waits(m, q, id));
    OneTask(cfg, m, Put(m, id, Popped(cfg, m.tasks[id]).(state := Running)).(running := Some(id)), v, Dequeue(v), id);
  }

  lemma PopIdle(cfg: Config, m: Machine, v: Queues)
    requires Agrees(cfg, m, v)
    ensures Agrees(cfg, Put(m, v.idle, m.tasks[v.idle].(state := Running)).(running := Some(v.idle)), v)
  {
    var n := Put(m, v.idle, m.tasks[v.idle].(state := Running)).(running := Some(v.idle));
    forall x | x in v.threads ensures Known(n.tasks[x], v, x) {
      assert Known(m.tasks[x], v, x);
    }
    forall q, x | 0 <= q < |v.qs| ensures x in v.qs[q] <==> Waits(n, q, x) {
      assert x in v.qs[q] <==> Waits(m, q, x);
    }
  }

  /** A charged thread has one tick of its timeslice less; `t` is the thread as the tick machine charges it. */
  lemma ChargeAgrees(cfg: Config, m: Machine, v: Queues, id: Id, t: Task)
    requires Agrees(cfg, m, v) && Proper(v) && id in v.threads && t.kind.Thread? && t.link == m.tasks[id].link
    ensures Agrees(cfg, Put(m, id, m.tasks[id].(link := Callback(cfg, t).link)), Charge(v, id)) && Proper(Charge(v, id))
  {
    assert Known(m.tasks[id], v, id);
    assert forall q :: 0 <= q < |v.qs| ==> (id in v.qs[q] <==> Waits(m, q, id));
    OneTask(cfg, m, Put(m, id, m.tasks[id].(link := Callback(cfg, t).link)), v, Charge(v, id), id);
  }

  /** The test that keeps the running thread leaves it the timeslice the machine gives it. */
  lemma RenewAgrees(cfg: Config, m: Machine, v: Queues, running: Id)
    requires Agrees(cfg, m, v) && Proper(v) && m.running == Some(running) && !m.tasks[running].kind.Lsr?
    ensures var kind := m.tasks[running].kind;
      && Proper(Renew(v, running, kind))
      && Agrees(cfg, if Replace(v, running, kind) then m else Keep(cfg, m), Renew(v, running, kind))
  {
    hide Top;
    RenewProper(v, running, m.tasks[running].kind);
    if m.tasks[running].kind.Thread? {
      assert Known(m.tasks[running], v, running);
      assert forall q :: 0 <= q < |v.qs| ==> (running in v.qs[q] <==> Waits(m, q, running));
      if !Replace(v, running, Thread) && v.remaining[running] == 0 {
        OneTask(cfg, m, Keep(cfg, m), v, Renew(v, running, Thread), running);
      }
    }
  }

  /** A task that the policy has nothing to do with joins the processor. */
  lemma OtherJoins(cfg: Config, m: Machine, v: Queues, id: Id, t: Task)
    requires Agrees(cfg, m, v) && id !in m.tasks && !t.kind.Thread?
    ensures Agrees(cfg, Put(m, id, t), v)
  {
    var n := Put(m, id, t);
    forall x | x in v.threads ensures Known(n.tasks[x], v, x) {
      assert Known(m.tasks[x], v, x);
    }
    forall q, x | 0 <= q < |v.qs| ensures x in v.qs[q] <==> Waits(n, q, x) {
      assert x in v.qs[q] <==> Waits(m, q, x);
    }
  }

  /** A thread joins: ready, at the back of its queue, its timeslice still to be given. */
  lemma JoinAgrees(cfg: Config, m: Machine, v: Queues, id: Id, p: Param, t: Task)
    requires Agrees(cfg, m, v) && Proper(v) && id !in m.tasks && Accepts(v, id, p)
    requires t.kind.Thread? && t.state.Ready? && t.prio == p.prio && t.allot == p.timesliceTicks && t.link == 0
    ensures Agrees(cfg, Put(m, id, t), Joined(v, id, p)) && Proper(Joined(v, id, p))
  {
    var n, w := Put(m, id, t), Joined(v, id, p);
    JoinProper(v, id, p);
    forall x | x in w.threads ensures Known(n.tasks[x], w, x) {
      if x != id {
        assert Known(m.tasks[x], v, x);
      }
    }
    forall q, x | 0 <= q < |v.qs| ensures x in w.qs[q] <==> Waits(n, q, x) {
      assert x in v.qs[q] <==> Waits(m, q, x);
      assert x in w.qs[q] <==> x in v.qs[q] || (x == id && q == p.prio);
    }
  }

  lemma JoinProper(v: Queues, id: Id, p: Param)
    requires Proper(v) && Accepts(v, id, p)
    ensures Proper(Joined(v, id, p)) && Joined(v, id, p) == Enqueue(Admitted(v, id, p), id)
    ensures Proper(Admitted(v, id, p)) && forall q :: 0 <= q < |v.qs| ==> id !in v.qs[q]
  {
    var w := Admitted(v, id, p);
    assert Proper(w);
    EnqueueProper(w, id);
  }

  /** The policy cannot tell apart machines that look the same to it. */
  lemma SameAgrees(cfg: Config, m: Machine, n: Machine, v: Queues)
    requires Agrees(cfg, m, v) && SameFace(m, n) && Wf(n)
    ensures Agrees(cfg, n, v)
  {
    SameReady(m, n);
    forall x | x in m.tasks ensures Alike(m.tasks[x], n.tasks[x]) {
    }
    forall x | x in v.threads ensures Known(n.tasks[x], v, x) {
      assert Known(m.tasks[x], v, x);
    }
    forall q, x | 0 <= q < |v.qs| ensures x in v.qs[q] <==> Waits(n, q, x) {
      assert x in v.qs[q] <==> Waits(m, q, x);
    }
  }

  // ------------------------------------------------------------------------
  // The data structure.

  class Scheduler {
    const idle: Id
    var threads: map<Id, Param>
    const qs: array<seq<Id>>
    const activeQs: array<bv8>
    var remaining: map<Id, nat>

    ghost function View(): Queues
      reads this, qs
    {
      Queues(idle, threads, qs[..], remaining)
    }

    /** The bit of a queue is set exactly while the queue holds a thread. */
    ghost predicate Valid()
      reads this, qs, activeQs
    {
      && Proper(View())
      && (qs as object) != (activeQs as object)
      && activeQs.Length == (qs.Length + 7) / 8
      && forall b: nat :: Bitmap.Has(activeQs[..], b) <==> b < qs.Length && qs[b] != []
    }

    constructor (idle: Id, numPrio: nat)
      ensures Valid() && View() == Queues(idle, map[], seq(numPrio, _ => []), map[])
      ensures fresh(qs) && fresh(activeQs)
    {
      this.idle, threads, remaining := idle, map[], map[];
      qs := new seq<Id>[numPrio](_ => []);
      activeQs := new bv8[(numPrio + 7) / 8](_ => 0);
    }

    /** The policy's part of `kPluginInitTaskThread`: its checks, its parameters, and the push. */
    method Join(id: Id, p: Param) returns (ok: bool)
      requires Valid() && id !in threads
      modifies this`threads, this`remaining, qs, activeQs
      ensures Valid() && ok == Accepts(old(View()), id, p)
      ensures View() == if ok then Joined(old(View()), id, p) else old(View())
    {
      if p.prio >= qs.Length || p.timesliceTicks == 0 {
        return false;
      }
      ghost var v := View();
      JoinProper(v, id, p);
      threads, remaining := threads[id := p], remaining[id := 0];
      assert View() == Admitted(v, id, p);
      PushBack(id);
      return true;
    }

    /** `kSchedTaskPushRr` on a thread that is in no queue. */
    method PushBack(id: Id)
      requires Valid() && id in threads && id !in qs[threads[id].prio]
      modifies qs, activeQs
      ensures Valid() && View() == Enqueue(old(View()), id)
    {
      var prio := threads[id].prio;
      EnqueueProper(View(), id);
      qs[prio] := qs[prio] + [id];
      assert View() == Enqueue(old(View()), id);
      Bitmap.Set(activeQs, prio);
    }

    method HighestActive(low: nat) returns (idx: int)
      requires Valid()
      ensures idx == Top(View().qs, qs.Length, low)
    {
      idx := Bitmap.Fls(activeQs[..], qs.Length, low);
    }

    /** `kSchedTaskPopRr` */
    method PopFront() returns (next: Id)
      requires Valid()
      modifies this`remaining, qs, activeQs
      ensures Valid() && next == Next(old(View())) && View() == Dequeue(old(View()))
    {
      var idx := HighestActive(0);
      if idx >= 0 {
        next := qs[idx][0];
        DequeueProper(View());
        qs[idx] := qs[idx][1..];
        remaining := remaining[next := threads[next].timesliceTicks];
        assert View() == Dequeue(old(View()));
        if qs[idx] == [] {
          Bitmap.Unset(activeQs, idx);
        }
      } else {
        next := idle;
      }
    }

    /** `kSchedTaskTickCallbackRr` on a thread. */
    method TickCallback(id: Id)
      requires Valid() && id in threads
      modifies this`remaining
      ensures Valid() && View() == Charge(old(View()), id)
    {
      remaining := remaining[id := Pred(remaining[id])];
    }

    /** `kSchedShouldRescheduleRr` */
    method ShouldReschedule(running: Id, kind: Kind) returns (ret: bool)
      requires Valid() && (kind.Thread? ==> running in threads)
      modifies this`remaining
      ensures ret == Replace(old(View()), running, kind)
      ensures Valid() && View() == Renew(old(View()), running, kind)
    {
      RenewProper(View(), running, kind);
      hide Proper;
      ret := false;
      match kind {
        case Thread =>
          var prio := threads[running].prio;
          var idx := HighestActive(prio);
          if idx > prio {
            ret := true;
          } else if idx == prio {
            ret := remaining[running] == 0;
          } else if remaining[running] == 0 {
            remaining := remaining[running := threads[running].timesliceTicks];
          }
        case Idle =>
          var empty := Bitmap.IsEmpty(activeQs[..], qs.Length);
          assert empty <==> Top(View().qs, qs.Length, 0) == -1;
          ret := !empty;
        case Lsr =>
      }
    }
  }
}
