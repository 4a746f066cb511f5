/**
 Taking turns (src/workhorse/kSched/kSchedPolicy/kSchedRr.c, kSchedCyclic.c): how long a ready thread waits for the
 processor, counted in dispatches, over every run of the machine with the policy as programmed.
 */
module Turns {
  import opened Tasks
  import opened TickSpec
  import opened TickInv
  import opened PolicyRuns
  import opened PolicyFace
  import opened PolicyTick
  import opened TickSetup
  import opened Coupled

  // ------------------------------------------------------------------------
  // Dispatches.

  /** The task that the policy is asked for at a rescheduling point, if it is asked. */
  function PointPick(m: Machine, c: Choice): Option<Id>
    requires Wf(m) && m.running.Some?
  {
    var t := m.tasks[m.running.value];
    if t.kind.Thread? && t.current == 0 then Some(c.next)
    else if !t.kind.Lsr? && c.resched then Some(c.next)
    else None
  }

  function ResumePick(m: Machine, c: Choice): Option<Id>
    requires Wf(m)
  {
    if m.lsrs != [] then None else if m.slot.None? then Some(c.next) else PointPick(Restore(m), c)
  }

  /** The task that an event dispatches, if it dispatches one. */
  function Pick(cfg: Config, m: Machine, e: Event): Option<Id>
    requires Wf(m) && Enabled(m, e)
  {
    match e
    case Tick(c) => PointPick(Phases(cfg, m), c)
    case LsrPush(_) => None
    case PushCurrent => None
    case Reschedule(c) => if m.running.None? then ResumePick(m, c) else None
    case _ => ResumePick(Switched(cfg, m, e), e.c)
  }

  /** Thread `y` has priority `p`. */
  predicate At(m: Machine, y: Option<Id>, p: nat) {
    y.Some? && y.value in m.tasks && m.tasks[y.value].kind.Thread? && m.tasks[y.value].prio == p
  }

  /** The event dispatches a thread of priority `p`. */
  predicate Takes(cfg: Config, m: Machine, e: Event, p: nat)
    requires Wf(m) && Enabled(m, e)
  {
    At(m, Pick(cfg, m, e), p)
  }

  /** The threads of priority `p` that a run dispatches, one after the other. */
  function Picks(cfg: Config, m: Machine, es: seq<Event>, p: nat): seq<Id>
    requires Wf(m) && Run(cfg, Exact, m, es)
    decreases es
  {
    if es == [] then []
    else
      (if Takes(cfg, m, es[0], p) then [Pick(cfg, m, es[0]).value] else [])
      + Picks(cfg, Apply(cfg, m, es[0]), es[1..], p)
  }

  /** The other threads that are ready at the priority of `x`. */
  function Peers(m: Machine, x: Id): set<Id>
    requires x in m.tasks
  {
    set y | y in ReadySet(m) && m.tasks[y].prio == m.tasks[x].prio && y != x
  }

  // ------------------------------------------------------------------------
  // Round robin: one queue.

  ghost function Queue(s: Policies.Sched, p: nat): seq<Id> {
    if s.Rr? && p < |s.q.qs| then s.q.qs[p] else []
  }

  lemma PushedQueue(s: Policies.Sched, id: Id, p: nat)
    requires s.Rr?
    ensures Policies.Pushed(s, id).Rr? && Queue(s, p) <= Queue(Policies.Pushed(s, id), p)
  {
  }

  lemma CalledQueue(cfg: Config, s: Policies.Sched, call: Call, t: Task, p: nat)
    requires s.Rr?
    ensures Called(cfg, s, call, t).Rr? && Queue(s, p) <= Queue(Called(cfg, s, call, t), p)
  {
    hide Billed;
    if call.OnReady? {
      PushedQueue(s, call.id, p);
    }
  }

  lemma {:induction false} PlayQueue(cfg: Config, m: Machine, s: Policies.Sched, calls: seq<Call>, p: nat)
    requires s.Rr?
    ensures Play(cfg, m, s, calls).Rr? && Queue(s, p) <= Queue(Play(cfg, m, s, calls), p)
    decreases calls
  {
    hide Called, Queue;
    if calls != [] {
      if calls[0].id in m.tasks {
        var w := Called(cfg, s, calls[0], m.tasks[calls[0].id]);
        CalledQueue(cfg, s, calls[0], m.tasks[calls[0].id], p);
        PlayQueue(cfg, m, w, calls[1..], p);
      } else {
        PlayQueue(cfg, m, s, calls[1..], p);
      }
    }
  }

  lemma TestedQueue(s: Policies.Sched, id: Id, kind: Kind, p: nat)
    requires s.Rr?
    ensures Policies.Tested(s, id, kind).Rr? && Queue(Policies.Tested(s, id, kind), p) == Queue(s, p)
  {
  }

  /** What a pop takes off the queue of priority `p`: its front, if the thread popped has that priority. */
  predicate Served(a: seq<Id>, y: Id, at: bool, b: seq<Id>) {
    if at then a != [] && a[0] == y && b == a[1..] else b == a
  }

  lemma PoppedQueue(cfg: Config, m: Machine, s: Policies.Sched, p: nat)
    requires Policies.Agrees(cfg, m, s) && s.Rr?
    ensures Policies.Popped(s, m.tasks).Rr?
    ensures var y := Policies.Next(s, m.tasks);
      && y in m.tasks
      && Served(Queue(s, p), y, m.tasks[y].kind.Thread? && m.tasks[y].prio == p, Queue(Policies.Popped(s, m.tasks), p))
  {
    RoundRobin.TopAnswers(cfg, m, s.q, 0);
    Policies.Basics(cfg, m, s);
    Policies.PoppedAgrees(cfg, m, s);
    IdleIs(cfg, m, s);
    hide Policies.Agrees, Policies.Proper, RoundRobin.Top, ReadySet;
    DequeueIs(s.q, p);
  }

  lemma IdleIs(cfg: Config, m: Machine, s: Policies.Sched)
    requires Policies.Agrees(cfg, m, s) && s.Rr?
    ensures s.q.idle == m.idle && RoundRobin.Proper(s.q)
    ensures forall x :: x in ReadySet(m) ==> m.tasks[x].kind.Thread?
  {
  }

  lemma DequeueIs(q: RoundRobin.Queues, p: nat)
    requires RoundRobin.Proper(q)
    ensures var t, w := RoundRobin.Top(q.qs, |q.qs|, 0), Policies.Rr(RoundRobin.Dequeue(q));
      if t == p then Queue(Policies.Rr(q), p) != [] && Queue(w, p) == Queue(Policies.Rr(q), p)[1..]
        && RoundRobin.Next(q) == Queue(Policies.Rr(q), p)[0]
      else Queue(w, p) == Queue(Policies.Rr(q), p)
  {
  }

  /** What an entry does to a queue that is not empty: it may grow at the back, and lose its front to the processor. */
  predicate Turn(a: seq<Id>, y: Option<Id>, at: bool, b: seq<Id>) {
    a != [] ==> if at then y == Some(a[0]) && a[1..] <= b else a <= b
  }

  lemma Grown(a: seq<Id>, q: seq<Id>, y: Option<Id>, at: bool, b: seq<Id>)
    requires a <= q && y.Some? && Served(q, y.value, at, b)
    ensures Turn(a, y, at, b)
  {
    if a != [] && at {
      assert q[1..][..|a| - 1] == a[1..];
    }
  }

  lemma PointQueue(cfg: Config, m: Machine, s: Policies.Sched, p: nat)
    requires Inv(cfg, m, true) && m.running.Some? && Policies.Agrees(cfg, m, s) && s.Rr?
    ensures PointAfter(cfg, m, s).Rr?
    ensures var y := PointPick(m, PointAnswer(cfg, m, s));
      Turn(Queue(s, p), y, At(m, y, p), Queue(PointAfter(cfg, m, s), p))
  {
    hide Policies.Agrees, Policies.Tested, Policies.Pushed, Policies.Next, Policies.Popped, Queue, TaskOk, ReadySet;
    var id := m.running.value;
    var t := m.tasks[id];
    assert t.state.Running?;
    if t.kind.Thread? && t.current == 0 {
      LeaveFace(cfg, m, Throttled);
      Policies.SameAgrees(cfg, m, Leave(cfg, m, Throttled), s);
      LeaveAt(cfg, m, Throttled, p);
      PoppedQueue(cfg, Leave(cfg, m, Throttled), s, p);
      Grown(Queue(s, p), Queue(s, p), PointPick(m, PointAnswer(cfg, m, s)),
        At(m, PointPick(m, PointAnswer(cfg, m, s)), p), Queue(PointAfter(cfg, m, s), p));
    } else if !t.kind.Lsr? {
      TestedQueue(s, id, t.kind, p);
      if Policies.Replace(s, id, t.kind) {
        ReplaceQueue(cfg, m, s, id, p);
      }
    }
  }

  lemma LeaveAt(cfg: Config, m: Machine, next: State, p: nat)
    requires Wf(m) && m.running.Some?
    ensures forall y :: At(Leave(cfg, m, next), y, p) <==> At(m, y, p)
    ensures forall y :: y in m.tasks ==>
      Leave(cfg, m, next).tasks[y].kind == m.tasks[y].kind && Leave(cfg, m, next).tasks[y].prio == m.tasks[y].prio
  {
    hide Enter;
  }

  lemma ReplaceQueue(cfg: Config, m: Machine, s: Policies.Sched, id: Id, p: nat)
    requires Inv(cfg, m, true) && m.running == Some(id) && !m.tasks[id].kind.Lsr? && m.tasks[id].state.Running?
    requires Policies.Agrees(cfg, m, s) && s.Rr? && Policies.Replace(s, id, m.tasks[id].kind)
    ensures var n, w := Leave(cfg, m, Ready), Policies.Pushed(Policies.Tested(s, id, m.tasks[id].kind), id);
      && Policies.Popped(w, n.tasks).Rr?
      && var y := Some(Policies.Next(w, n.tasks));
      Turn(Queue(s, p), y, At(m, y, p), Queue(Policies.Popped(w, n.tasks), p))
  {
    hide Policies.Agrees, Policies.Tested, Policies.Pushed, Policies.Next, Policies.Popped, Queue, TaskOk, ReadySet;
    hide Policies.Replace;
    Policies.Basics(cfg, m, s);
    var tested := Policies.Tested(s, id, m.tasks[id].kind);
    var w, n := Policies.Pushed(tested, id), Leave(cfg, m, Ready);
    Policies.TestedAgrees(cfg, m, s, id);
    TestedQueue(s, id, m.tasks[id].kind, p);
    BackCoupled(cfg, m, tested, id);
    PushedQueue(tested, id, p);
    LeaveAt(cfg, m, Ready, p);
    PoppedQueue(cfg, n, w, p);
    var y := Some(Policies.Next(w, n.tasks));
    Grown(Queue(s, p), Queue(w, p), y, At(m, y, p), Queue(Policies.Popped(w, n.tasks), p));
  }

  lemma ResumeQueue(cfg: Config, m: Machine, s: Policies.Sched, p: nat)
    requires Inv(cfg, m) && m.running.None? && Policies.Agrees(cfg, m, s) && s.Rr?
    ensures ResumeAfter(cfg, m, s).Rr?
    ensures var y := ResumePick(m, ResumeAnswer(cfg, m, s));
      Turn(Queue(s, p), y, At(m, y, p), Queue(ResumeAfter(cfg, m, s), p))
  {
    hide Policies.Agrees, Policies.Next, Policies.Popped, PointAnswer, PointAfter, PointPick, Queue, TasksOk, ReadySet;
    if m.lsrs != [] {
    } else if m.slot.None? {
      PoppedQueue(cfg, m, s, p);
      var y := ResumePick(m, ResumeAnswer(cfg, m, s));
      Grown(Queue(s, p), Queue(s, p), y, At(m, y, p), Queue(ResumeAfter(cfg, m, s), p));
    } else {
      RestoreOk(cfg, m);
      RestoreFace(m);
      Policies.SameAgrees(cfg, m, Restore(m), s);
      PointQueue(cfg, Restore(m), s, p);
      RestoreAt(m, p);
    }
  }

  lemma RestoreAt(m: Machine, p: nat)
    requires Wf(m) && m.slot.Some?
    ensures forall y :: At(Restore(m), y, p) <==> At(m, y, p)
  {
  }

  /** One kernel entry, as the queue of one priority sees it. */
  lemma StepQueue(cfg: Config, m: Machine, s: Policies.Sched, x: Step, p: nat)
    requires Inv(cfg, m) && PolicyInv(cfg, m) && Policies.Agrees(cfg, m, s) && s.Rr? && Happens(cfg, m, s, x)
    ensures After(cfg, m, s, x).Rr?
    ensures Turn(Queue(s, p), Pick(cfg, m, x.e), Takes(cfg, m, x.e, p), Queue(After(cfg, m, s, x), p))
  {
    hide Policies.Agrees, Play, PointAnswer, PointAfter, ResumeAnswer, ResumeAfter, Script, PointPick, ResumePick;
    hide Queue, Phases, Switched, PolicyRuns.Settled, LinkOk, TasksOk;
    if x.e.Tick? {
      PhasesOk(cfg, m);
      TickAgrees(cfg, m, s, x.calls);
      PlayQueue(cfg, m, Policies.Transited(s), x.calls, p);
      PointQueue(cfg, Phases(cfg, m), Play(cfg, m, Policies.Transited(s), x.calls), p);
      PhasesAt(cfg, m, p);
    } else if IsSwitch(x.e) {
      SwitchedOk(cfg, m, x.e);
      SwitchedFace(cfg, m, x.e);
      Policies.SameAgrees(cfg, m, Switched(cfg, m, x.e), s);
      ResumeQueue(cfg, Switched(cfg, m, x.e), s, p);
      SwitchedAt(cfg, m, x.e, p);
    } else if x.e.Reschedule? && m.running.None? {
      ResumeQueue(cfg, m, s, p);
    }
  }

  lemma PhasesAt(cfg: Config, m: Machine, p: nat)
    requires Wf(m)
    ensures forall y :: At(Phases(cfg, m), y, p) <==> At(m, y, p)
  {
    hide TickTask;
  }

  lemma SwitchedAt(cfg: Config, m: Machine, e: Event, p: nat)
    requires Wf(m) && IsSwitch(e) && Enabled(m, e)
    ensures forall y :: At(Switched(cfg, m, e), y, p) <==> At(m, y, p)
  {
    hide Enter;
  }

  /** A thread that joins is behind all that are there, and whoever waits has the same threads in front as before. */
  lemma JoinsLast(s: Policies.Sched, id: Id, param: Policies.Param, x: Id)
    requires Policies.Proper(s) && s.Rr? && Policies.Accepts(s, id, param)
    ensures var w, p := Policies.Joined(s, id, param), param.rr.prio;
      && w.Rr? && Ahead(Queue(w, p), id) == Queue(s, p)
      && forall k: nat :: x in Queue(s, k) ==> Ahead(Queue(w, k), x) == Ahead(Queue(s, k), x)
  {
    var w, p := Policies.Joined(s, id, param), param.rr.prio;
    RoundRobin.JoinProper(s.q, id, param.rr);
    AheadLast(Queue(s, p), id);
    forall k: nat | x in Queue(s, k) ensures Ahead(Queue(w, k), x) == Ahead(Queue(s, k), x) {
      AheadGrown(Queue(s, k), Queue(w, k), x);
    }
  }

  lemma {:induction false} AheadLast(q: seq<Id>, x: Id)
    requires x !in q
    ensures Ahead(q + [x], x) == q
  {
    if q != [] {
      AheadLast(q[1..], x);
      assert (q + [x])[1..] == q[1..] + [x];
    }
  }

  // ------------------------------------------------------------------------
  // Round robin: runs.

  /** Those in front of `x`. */
  function Ahead(q: seq<Id>, x: Id): seq<Id> {
    if q == [] || q[0] == x then [] else [q[0]] + Ahead(q[1..], x)
  }

  lemma {:induction false} AheadGrown(q: seq<Id>, r: seq<Id>, x: Id)
    requires q <= r && x in q
    ensures Ahead(r, x) == Ahead(q, x) && x in r
  {
    assert r[0] == q[0];
    if q[0] != x {
      assert q == [q[0]] + q[1..];
      AheadGrown(q[1..], r[1..], x);
    }
  }

  lemma {:induction false} AheadIn(q: seq<Id>, x: Id)
    ensures forall y :: y in Ahead(q, x) ==> y in q && y != x
    ensures Ahead(q, x) <= q
  {
    if q != [] && q[0] != x {
      AheadIn(q[1..], x);
      assert q == [q[0]] + q[1..];
    }
  }

  /** A queue after an entry that does not dispatch `x`. */
  lemma AheadTurn(a: seq<Id>, y: Option<Id>, at: bool, b: seq<Id>, x: Id)
    requires x in a && Turn(a, y, at, b) && !(at && y == Some(x))
    ensures x in b
    ensures Ahead(a, x) == (if at then [y.value] else []) + Ahead(b, x)
  {
    if at {
      assert a == [a[0]] + a[1..];
      AheadGrown(a[1..], b, x);
    } else {
      AheadGrown(a, b, x);
    }
  }

  /** While `x` waits, the threads dispatched at its priority are those in front of it, in their order. */
  lemma {:induction false} InOrder(cfg: Config, m: Machine, s: Policies.Sched, xs: seq<Step>, p: nat, x: Id)
    requires Inv(cfg, m) && PolicyInv(cfg, m) && Policies.Agrees(cfg, m, s) && s.Rr? && PolicyRun(cfg, m, s, xs)
    requires x in Queue(s, p)
    ensures Run(cfg, Exact, m, Events(xs))
    ensures x !in Picks(cfg, m, Events(xs), p) ==> Picks(cfg, m, Events(xs), p) <= Ahead(Queue(s, p), x)
    decreases xs
  {
    hide Policies.Agrees, Apply, After, Happens, Legal, TasksOk, Placed, PolicyRuns.Settled, PolicyInv, Queue, Turn;
    hide Pick, At;
    CoupledRun(cfg, m, s, xs);
    if xs != [] {
      var e, n, w := xs[0].e, Apply(cfg, m, xs[0].e), After(cfg, m, s, xs[0]);
      HappensEnabled(cfg, m, s, xs[0]);
      StepCoupled(cfg, m, s, xs[0]);
      StepExact(cfg, m, e);
      StepInv(cfg, m, e);
      StepQueue(cfg, m, s, xs[0], p);
      assert Events(xs)[0] == e && Events(xs)[1..] == Events(xs[1..]);
      if !(Takes(cfg, m, e, p) && Pick(cfg, m, e) == Some(x)) {
        AheadTurn(Queue(s, p), Pick(cfg, m, e), Takes(cfg, m, e, p), Queue(w, p), x);
        InOrder(cfg, n, w, xs[1..], p, x);
        TakesSome(cfg, m, e, p);
      }
    }
  }

  lemma TakesSome(cfg: Config, m: Machine, e: Event, p: nat)
    requires Wf(m) && Enabled(m, e)
    ensures Takes(cfg, m, e, p) ==> Pick(cfg, m, e).Some?
  {
    hide Pick;
  }

  lemma {:induction false} FewEnough(q: seq<Id>, all: set<Id>)
    requires (forall i, j :: 0 <= i < j < |q| ==> q[i] != q[j]) && forall y :: y in q ==> y in all
    ensures |q| <= |all|
  {
    if q != [] {
      var rest := q[1..];
      forall i, j | 0 <= i < j < |rest| ensures rest[i] != rest[j] {
        assert rest[i] == q[i + 1] && rest[j] == q[j + 1];
      }
      forall y | y in rest ensures y in all - {q[0]} {
        var i :| 0 <= i < |rest| && rest[i] == y;
        assert q[i + 1] == y;
      }
      FewEnough(rest, all - {q[0]});
    }
  }

  /** Those in front of a ready thread are ready at its priority, and nobody is there twice. */
  lemma AheadPeers(cfg: Config, m: Machine, s: Policies.Sched, x: Id)
    requires Policies.Agrees(cfg, m, s) && s.Rr? && x in ReadySet(m)
    ensures var q := Queue(s, m.tasks[x].prio);
      && x in q
      && (forall y :: y in Ahead(q, x) ==> y in Peers(m, x))
      && (forall i, j :: 0 <= i < j < |Ahead(q, x)| ==> Ahead(q, x)[i] != Ahead(q, x)[j])
  {
    var p := m.tasks[x].prio;
    RoundRobin.AgreesAt(cfg, m, s.q, x);
    var q := Queue(s, p);
    AheadIn(q, x);
    forall y | y in Ahead(q, x) ensures y in Peers(m, x) {
      assert RoundRobin.Waits(m, p, y);
    }
  }

  /**
   Round robin, over every run from any state: as long as a ready thread is not dispatched itself, the threads
   dispatched at its priority are all among those that were ready at that priority when the run began, and each of them
   at most once. So threads of one priority run in the order in which they became ready, and a thread with `k` others
   ready at its priority is among the next `k + 1` dispatched there.
   */
  lemma TakesTurns(cfg: Config, m: Machine, s: Policies.Sched, xs: seq<Step>, x: Id)
    requires cfg.policy.RoundRobin? && Inv(cfg, m) && PolicyInv(cfg, m) && Policies.Agrees(cfg, m, s)
    requires PolicyRun(cfg, m, s, xs) && x in ReadySet(m)
    ensures Run(cfg, Exact, m, Events(xs))
    ensures var picks := Picks(cfg, m, Events(xs), m.tasks[x].prio);
      x !in picks ==>
        && (forall y :: y in picks ==> y in Peers(m, x))
        && (forall i, j :: 0 <= i < j < |picks| ==> picks[i] != picks[j])
        && |picks| <= |Peers(m, x)|
  {
    hide Policies.Agrees, TasksOk, Placed, PolicyInv, PolicyRun, Queue, Picks, Peers, Run, Events;
    var p := m.tasks[x].prio;
    Policies.Basics(cfg, m, s);
    AheadPeers(cfg, m, s, x);
    InOrder(cfg, m, s, xs, p, x);
    var picks := Picks(cfg, m, Events(xs), p);
    if x !in picks {
      assert forall i :: 0 <= i < |picks| ==> picks[i] == Ahead(Queue(s, p), x)[i];
      FewEnough(picks, Peers(m, x));
    }
  }

  /** The same from start-up: `ws` leads to the moment from which the dispatches are counted. */
  lemma TakesTurnsFromStart(cfg: Config, idle: Id, n: nat, ps: seq<Plugin>, ws: seq<Step>, xs: seq<Step>, x: Id)
    requires cfg.policy.RoundRobin? && forall i :: 0 <= i < |ps| ==> Typed(ps[i], n)
    requires var (m, s) := Plugged(cfg, Bare(idle), Empty(cfg.policy, idle, n), ps); PolicyRun(cfg, m, s, ws)
    requires var (m, s) := Plugged(cfg, Bare(idle), Empty(cfg.policy, idle, n), ps);
      && Run(cfg, Exact, m, Events(ws))
      && var k := Exec(cfg, Exact, m, Events(ws));
      PolicyRun(cfg, k, Final(cfg, m, s, ws), xs) && x in ReadySet(k)
    ensures var (m, s) := Plugged(cfg, Bare(idle), Empty(cfg.policy, idle, n), ps);
      var k := Exec(cfg, Exact, m, Events(ws));
      && Run(cfg, Exact, k, Events(xs))
      && var picks := Picks(cfg, k, Events(xs), k.tasks[x].prio);
      x !in picks ==> (forall y :: y in picks ==> y in Peers(k, x)) && |picks| <= |Peers(k, x)|
  {
    hide Policies.Agrees, Initial, Inv, PolicyInv, Run, PolicyRun, Final, Exec, Events, Picks, Peers;
    PoliciesKeepContract(cfg, idle, n, ps, ws);
    var (m, s) := Plugged(cfg, Bare(idle), Empty(cfg.policy, idle, n), ps);
    InitialInv(cfg, m);
    InitialPolicyInv(cfg, m);
    ExactRun(cfg, m, Events(ws));
    RunInv(cfg, m, Events(ws));
    TakesTurns(cfg, Exec(cfg, Exact, m, Events(ws)), Final(cfg, m, s, ws), xs, x);
  }

  // ------------------------------------------------------------------------
  // The cyclic policy.

  /** All tasks that a run dispatches, one after the other. */
  function Dispatched(cfg: Config, m: Machine, es: seq<Event>): seq<Id>
    requires Wf(m) && Run(cfg, Exact, m, es)
    decreases es
  {
    if es == [] then []
    else
      var y := Pick(cfg, m, es[0]);
      (if y.Some? then [y.value] else []) + Dispatched(cfg, Apply(cfg, m, es[0]), es[1..])
  }

  /** The same table apart from the clock, and the frame no further away. */
  ghost predicate Nearer(s: Policies.Sched, w: Policies.Sched, f: nat, d: nat) {
    && s.Cy? && w.Cy? && w.t.threads == s.t.threads && |w.t.frames| == |s.t.frames|
    && Cyclic.Distance(w.t, f) <= Cyclic.Distance(s.t, f) - d
  }

  lemma PushedClock(s: Policies.Sched, id: Id, f: nat)
    requires s.Cy?
    ensures Nearer(s, Policies.Pushed(s, id), f, 0)
  {
  }

  lemma TestedClock(s: Policies.Sched, id: Id, kind: Kind, f: nat)
    requires s.Cy?
    ensures Nearer(s, Policies.Tested(s, id, kind), f, 0)
  {
  }

  lemma {:induction false} PlayClock(cfg: Config, m: Machine, s: Policies.Sched, calls: seq<Call>, f: nat)
    requires s.Cy?
    ensures Nearer(s, Play(cfg, m, s, calls), f, 0)
    decreases calls
  {
    hide Billed;
    if calls != [] {
      if calls[0].id in m.tasks {
        PushedClock(s, calls[0].id, f);
        PlayClock(cfg, m, Called(cfg, s, calls[0], m.tasks[calls[0].id]), calls[1..], f);
      } else {
        PlayClock(cfg, m, s, calls[1..], f);
      }
    }
  }

  /** A pop takes a ready thread in front of frame `f`, or the owner of `f` itself. */
  lemma PoppedClock(cfg: Config, m: Machine, s: Policies.Sched, x: Id, f: nat)
    requires Policies.Agrees(cfg, m, s) && s.Cy? && x in ReadySet(m) && x in s.t.threads && Cyclic.Owns(s.t, x, f)
    ensures Policies.Next(s, m.tasks) != x ==> Nearer(s, Policies.Popped(s, m.tasks), f, 1)
  {
    var v := s.t;
    Policies.Basics(cfg, m, s);
    Cyclic.SearchFinds(cfg, m, v);
    OwnsFrame(cfg, m, s, x, f);
    hide Policies.Agrees, Policies.Proper, Cyclic.Search, Cyclic.Found, Cyclic.Next, Cyclic.Take, ReadySet;
    if Cyclic.Next(v, m.tasks) != x {
      Cyclic.TakeNearer(v, m.tasks, f);
    }
  }

  lemma OwnsFrame(cfg: Config, m: Machine, s: Policies.Sched, x: Id, f: nat)
    requires Policies.Agrees(cfg, m, s) && s.Cy? && x in ReadySet(m) && x in s.t.threads && Cyclic.Owns(s.t, x, f)
    ensures Cyclic.Proper(s.t) && f < |s.t.frames| && s.t.frames[f] == Some(x) && Cyclic.ReadyOwner(s.t, m.tasks, f)
    ensures s.t.ready > 0 && s.t.clock <= |s.t.frames| && ReadySet(m) <= s.t.threads.Keys && ReadySet(m) != {}
  {
    assert |ReadySet(m) - {x}| == |ReadySet(m)| - 1;
  }

  /** What an entry does to the distance of a frame, unless it dispatches the frame's owner. */
  ghost predicate Round(s: Policies.Sched, y: Option<Id>, w: Policies.Sched, x: Id, f: nat) {
    y == Some(x) || Nearer(s, w, f, if y.Some? then 1 else 0)
  }

  lemma NearerTrans(s: Policies.Sched, k: Policies.Sched, w: Policies.Sched, f: nat, d: nat)
    requires Nearer(s, k, f, 0) && Nearer(k, w, f, d)
    ensures Nearer(s, w, f, d)
  {
  }

  lemma StillReady(cfg: Config, m: Machine, x: Id)
    requires Inv(cfg, m, true) && x in ReadySet(m)
    ensures m.running != Some(x) && m.slot != Some(x)
    ensures m.running.Some? ==> forall s :: x in ReadySet(Leave(cfg, m, s))
    ensures m.slot.Some? ==> x in ReadySet(Restore(m))
  {
    hide TasksOk, Enter;
  }

  lemma PointClock(cfg: Config, m: Machine, s: Policies.Sched, x: Id, f: nat)
    requires Inv(cfg, m, true) && m.running.Some? && Policies.Agrees(cfg, m, s) && s.Cy?
    requires x in ReadySet(m) && x in s.t.threads && Cyclic.Owns(s.t, x, f)
    ensures Round(s, PointPick(m, PointAnswer(cfg, m, s)), PointAfter(cfg, m, s), x, f)
  {
    hide Policies.Agrees, Policies.Tested, Policies.Pushed, Policies.Next, Policies.Popped, TaskOk, ReadySet, Nearer;
    hide Policies.Replace, Cyclic.Owns;
    var id := m.running.value;
    var t := m.tasks[id];
    assert t.state.Running?;
    StillReady(cfg, m, x);
    if t.kind.Thread? && t.current == 0 {
      LeaveFace(cfg, m, Throttled);
      Policies.SameAgrees(cfg, m, Leave(cfg, m, Throttled), s);
      PoppedClock(cfg, Leave(cfg, m, Throttled), s, x, f);
    } else if !t.kind.Lsr? {
      TestedClock(s, id, t.kind, f);
      if Policies.Replace(s, id, t.kind) {
        ReplaceClock(cfg, m, s, id, x, f);
      }
    } else {
      SameClock(s, f);
    }
  }

  lemma SameClock(s: Policies.Sched, f: nat)
    requires s.Cy?
    ensures Nearer(s, s, f, 0)
  {
  }

  lemma SameOwner(s: Policies.Sched, w: Policies.Sched, x: Id, f: nat)
    requires s.Cy? && Nearer(s, w, f, 0) && x in s.t.threads && Cyclic.Owns(s.t, x, f)
    ensures x in w.t.threads && Cyclic.Owns(w.t, x, f)
  {
  }

  lemma ReplaceClock(cfg: Config, m: Machine, s: Policies.Sched, id: Id, x: Id, f: nat)
    requires Inv(cfg, m, true) && m.running == Some(id) && !m.tasks[id].kind.Lsr? && m.tasks[id].state.Running?
    requires Policies.Agrees(cfg, m, s) && s.Cy? && Policies.Replace(s, id, m.tasks[id].kind)
    requires x in ReadySet(m) && x in s.t.threads && Cyclic.Owns(s.t, x, f)
    ensures var n, w := Leave(cfg, m, Ready), Policies.Pushed(Policies.Tested(s, id, m.tasks[id].kind), id);
      Round(s, Some(Policies.Next(w, n.tasks)), Policies.Popped(w, n.tasks), x, f)
  {
    hide Policies.Agrees, Policies.Tested, Policies.Pushed, Policies.Next, Policies.Popped, TaskOk, ReadySet;
    hide Policies.Replace, Cyclic.Owns, Nearer;
    Policies.Basics(cfg, m, s);
    var tested := Policies.Tested(s, id, m.tasks[id].kind);
    var w, n := Policies.Pushed(tested, id), Leave(cfg, m, Ready);
    Policies.TestedAgrees(cfg, m, s, id);
    TestedClock(s, id, m.tasks[id].kind, f);
    IsCy(s, tested, f);
    SameOwner(s, tested, x, f);
    BackCoupled(cfg, m, tested, id);
    PushedClock(tested, id, f);
    IsCy(tested, w, f);
    SameOwner(tested, w, x, f);
    NearerTrans(s, tested, w, f, 0);
    StillReady(cfg, m, x);
    PoppedClock(cfg, n, w, x, f);
    if Policies.Next(w, n.tasks) != x {
      NearerTrans(s, w, Policies.Popped(w, n.tasks), f, 1);
    }
  }

  lemma IsCy(s: Policies.Sched, w: Policies.Sched, f: nat)
    requires Nearer(s, w, f, 0)
    ensures w.Cy?
  {
  }

  lemma ResumeClock(cfg: Config, m: Machine, s: Policies.Sched, x: Id, f: nat)
    requires Inv(cfg, m) && m.running.None? && Policies.Agrees(cfg, m, s) && s.Cy?
    requires x in ReadySet(m) && x in s.t.threads && Cyclic.Owns(s.t, x, f)
    ensures Round(s, ResumePick(m, ResumeAnswer(cfg, m, s)), ResumeAfter(cfg, m, s), x, f)
  {
    hide Policies.Agrees, Policies.Next, Policies.Popped, PointAnswer, PointAfter, PointPick, TasksOk, ReadySet;
    hide Cyclic.Owns, Nearer;
    if m.lsrs != [] {
      SameClock(s, f);
    } else if m.slot.None? {
      PoppedClock(cfg, m, s, x, f);
    } else {
      InvMid(cfg, m);
      StillReady(cfg, m, x);
      RestoreOk(cfg, m);
      RestoreFace(m);
      Policies.SameAgrees(cfg, m, Restore(m), s);
      PointClock(cfg, Restore(m), s, x, f);
    }
  }

  lemma StepClock(cfg: Config, m: Machine, s: Policies.Sched, x: Step, y: Id, f: nat)
    requires Inv(cfg, m) && PolicyInv(cfg, m) && Policies.Agrees(cfg, m, s) && s.Cy? && Happens(cfg, m, s, x)
    requires y in ReadySet(m) && y in s.t.threads && Cyclic.Owns(s.t, y, f)
    ensures Round(s, Pick(cfg, m, x.e), After(cfg, m, s, x), y, f)
  {
    hide Policies.Agrees, Play, PointAnswer, PointAfter, ResumeAnswer, ResumeAfter, Script, PointPick, ResumePick;
    hide Phases, Switched, PolicyRuns.Settled, LinkOk, TasksOk, Cyclic.Owns, Nearer, ReadySet;
    if x.e.Tick? {
      PhasesOk(cfg, m);
      TickAgrees(cfg, m, s, x.calls);
      var w := Play(cfg, m, Policies.Transited(s), x.calls);
      PlayClock(cfg, m, Policies.Transited(s), x.calls, f);
      IsCy(s, w, f);
      SameOwner(s, w, y, f);
      ReadyPhases(cfg, m, y);
      PointClock(cfg, Phases(cfg, m), w, y, f);
      if Pick(cfg, m, x.e) != Some(y) {
        NearerTrans(s, w, After(cfg, m, s, x), f, if Pick(cfg, m, x.e).Some? then 1 else 0);
      }
    } else if IsSwitch(x.e) {
      SwitchedOk(cfg, m, x.e);
      SwitchedFace(cfg, m, x.e);
      Policies.SameAgrees(cfg, m, Switched(cfg, m, x.e), s);
      SameReady(m, Switched(cfg, m, x.e));
      ResumeClock(cfg, Switched(cfg, m, x.e), s, y, f);
    } else if x.e.Reschedule? && m.running.None? {
      ResumeClock(cfg, m, s, y, f);
    } else {
      SameClock(s, f);
    }
  }

  lemma ReadyPhases(cfg: Config, m: Machine, x: Id)
    requires Wf(m) && x in ReadySet(m)
    ensures x in ReadySet(Phases(cfg, m))
  {
    hide Callback, Push, Wake;
  }

  lemma PointReady(cfg: Config, m: Machine, c: Choice, x: Id)
    requires Wf(m) && m.running.Some? && m.running != Some(x) && x in ReadySet(m) && c.next in m.tasks
    requires PointPick(m, c) != Some(x)
    ensures x in ReadySet(Point(cfg, m, c))
  {
    hide Enter, Fixup, Popped;
  }

  lemma ResumeReady(cfg: Config, m: Machine, c: Choice, x: Id)
    requires Inv(cfg, m) && m.running.None? && x in ReadySet(m) && c.next in m.tasks && ResumePick(m, c) != Some(x)
    ensures x in ReadySet(Resume(cfg, m, c))
  {
    hide TasksOk, Enter, Fixup, Popped, Point, PointPick;
    if m.lsrs == [] && m.slot.Some? {
      PointReady(cfg, Restore(m), c, x);
    }
  }

  /** A ready thread stays ready until it is dispatched. */
  lemma ReadyUntilPicked(cfg: Config, m: Machine, e: Event, x: Id)
    requires Inv(cfg, m) && Enabled(m, e) && x in ReadySet(m) && Pick(cfg, m, e) != Some(x)
    ensures x in ReadySet(Apply(cfg, m, e))
  {
    hide TasksOk, Enter, Point, PointPick, Resume, ResumePick, TickTask;
    if e.Tick? {
      ReadyPhases(cfg, m, x);
      PointReady(cfg, Phases(cfg, m), e.c, x);
    } else if IsSwitch(e) {
      SwitchedOk(cfg, m, e);
      SwitchedFace(cfg, m, e);
      SameReady(m, Switched(cfg, m, e));
      ResumeReady(cfg, Switched(cfg, m, e), e.c, x);
    } else if e.Reschedule? && m.running.None? {
      ResumeReady(cfg, m, e.c, x);
    }
  }

  lemma {:induction false} ClockRun(cfg: Config, m: Machine, s: Policies.Sched, xs: seq<Step>, x: Id, f: nat)
    requires Inv(cfg, m) && PolicyInv(cfg, m) && Policies.Agrees(cfg, m, s) && s.Cy? && PolicyRun(cfg, m, s, xs)
    requires x in ReadySet(m) && x in s.t.threads && Cyclic.Owns(s.t, x, f)
    ensures Run(cfg, Exact, m, Events(xs))
    ensures x !in Dispatched(cfg, m, Events(xs)) ==> |Dispatched(cfg, m, Events(xs))| <= Cyclic.Distance(s.t, f)
    decreases xs
  {
    hide Policies.Agrees, Apply, After, Happens, Legal, TasksOk, Placed, PolicyRuns.Settled, PolicyInv, Pick;
    hide Cyclic.Owns, Nearer, ReadySet, Cyclic.Distance;
    CoupledRun(cfg, m, s, xs);
    if xs == [] {
      FrameAhead(cfg, m, s, x, f);
    } else {
      var e, n, w := xs[0].e, Apply(cfg, m, xs[0].e), After(cfg, m, s, xs[0]);
      HappensEnabled(cfg, m, s, xs[0]);
      StepCoupled(cfg, m, s, xs[0]);
      StepExact(cfg, m, e);
      StepInv(cfg, m, e);
      StepClock(cfg, m, s, xs[0], x, f);
      assert Events(xs)[0] == e && Events(xs)[1..] == Events(xs[1..]);
      if Pick(cfg, m, e) != Some(x) {
        ReadyUntilPicked(cfg, m, e, x);
        RoundOwner(s, w, x, f, if Pick(cfg, m, e).Some? then 1 else 0);
        ClockRun(cfg, n, w, xs[1..], x, f);
      }
    }
  }

  lemma RoundOwner(s: Policies.Sched, w: Policies.Sched, x: Id, f: nat, d: nat)
    requires s.Cy? && Nearer(s, w, f, d) && x in s.t.threads && Cyclic.Owns(s.t, x, f)
    ensures w.Cy? && x in w.t.threads && Cyclic.Owns(w.t, x, f)
    ensures Cyclic.Distance(w.t, f) + d <= Cyclic.Distance(s.t, f)
  {
  }

  lemma FrameAhead(cfg: Config, m: Machine, s: Policies.Sched, x: Id, f: nat)
    requires Policies.Agrees(cfg, m, s) && s.Cy? && x in ReadySet(m) && x in s.t.threads && Cyclic.Owns(s.t, x, f)
    ensures 0 <= Cyclic.Distance(s.t, f) < |s.t.frames|
  {
    OwnsFrame(cfg, m, s, x, f);
  }

  /**
   Cyclic, over every run: a ready thread is dispatched before the search has gone over all frames once, so after fewer
   dispatches than there are frames.
   */
  lemma FramesComeRound(cfg: Config, m: Machine, s: Policies.Sched, xs: seq<Step>, x: Id)
    requires cfg.policy.Cyclic? && Inv(cfg, m) && PolicyInv(cfg, m) && Policies.Agrees(cfg, m, s)
    requires PolicyRun(cfg, m, s, xs) && x in ReadySet(m)
    ensures Run(cfg, Exact, m, Events(xs)) && s.Cy?
    ensures x !in Dispatched(cfg, m, Events(xs)) ==> |Dispatched(cfg, m, Events(xs))| < |s.t.frames|
  {
    hide TasksOk, Placed, PolicyInv, PolicyRun, Run, Events, Dispatched, Cyclic.Owns, Cyclic.Distance;
    Policies.Basics(cfg, m, s);
    assert Cyclic.Registered(s.t) && Policies.Has(s, x);
    var f: nat :| Cyclic.Owns(s.t, x, f);
    FrameAhead(cfg, m, s, x, f);
    hide Policies.Agrees;
    ClockRun(cfg, m, s, xs, x, f);
  }
}
