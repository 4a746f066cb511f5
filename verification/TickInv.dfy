/**
 What holds between any two kernel entries, whatever the policy: the assertions of kTick.c, one running task, work
 conservation. Proved for one task, then for one event, then for every run.
 */
module TickInv {
  import opened Tasks
  import opened TickSpec

  predicate KindAllows(k: Kind, s: State) {
    match k
    case Thread => !s.LsrDormant? && !s.LsrPending?
    case Lsr => s.Running? || s.LsrDormant? || s.LsrPending? || s.Failure?
    case Idle => s.Ready? || s.Running? || s.DefPending? || s.Pending?
  }

  /** The timing fields of a task agree with its state. Only in the middle of a tick may a running thread be spent. */
  predicate TaskOk(cfg: Config, t: Task, mid: bool) {
    && KindAllows(t.kind, t.state)
    && (t.kind.Thread? ==>
      && 0 < t.budget && 0 < t.allot && t.current <= t.budget
      && (t.current == 0 ==>
        t.state.Throttled? || t.state.Sleep? || t.state.Failure? || (mid && t.state.Running? && t.period > 0))
      && (t.state.Throttled? ==> t.current == 0 && t.period > 0)
      && (t.state.DefSleep? ==> 0 < t.sleepTicks)
      && (if t.state.Sleep? then 0 < t.nap < t.sleepTicks else t.nap == 0)
      && (match cfg.algorithm
          case Bcs => if t.state.Throttled? then 0 < t.cool <= t.period else t.cool == 0
          case Ds => if t.period > 0 then 0 < t.cool <= t.period else t.cool == 0))
    && (!t.kind.Thread? ==> t.cool == 0 && t.nap == 0)
  }

  ghost predicate TasksOk(cfg: Config, m: Machine, mid: bool) {
    forall id :: id in m.tasks ==> TaskOk(cfg, m.tasks[id], mid) && (m.tasks[id].kind.Idle? <==> id == m.idle)
  }

  /** The running slot, the pending slot and the LSR stack hold exactly the tasks whose state says so. */
  ghost predicate Placed(m: Machine) {
    && (forall id :: id in m.tasks ==> (m.tasks[id].state.Running? <==> m.running == Some(id)))
    && (forall id :: id in m.tasks ==>
      (m.tasks[id].state.DefPending? || m.tasks[id].state.Pending? <==> m.slot == Some(id)))
    && (forall id :: id in m.tasks ==> (m.tasks[id].state.LsrPending? <==> id in m.lsrs))
    && (forall i, j :: 0 <= i < j < |m.lsrs| ==> m.lsrs[i] != m.lsrs[j])
  }

  ghost predicate Inv(cfg: Config, m: Machine, mid: bool := false) {
    && Wf(m) && TasksOk(cfg, m, mid) && Placed(m)
    && (m.running.Some? && !RunningKind(m, Lsr) ==> m.slot.None?)
    && (!mid && m.running == Some(m.idle) ==> ReadySet(m) == {})
    && (m.slot == Some(m.idle) && m.tasks[m.idle].state.DefPending? ==> ReadySet(m) == {})
  }

  /** The state a system starts in: threads ready with a full budget, LSRs dormant, nothing running. */
  ghost predicate Initial(cfg: Config, m: Machine) {
    && Wf(m) && m.running.None? && m.slot.None? && m.lsrs == []
    && forall id :: id in m.tasks ==>
      var t := m.tasks[id];
      && t.nap == 0
      && (t.kind.Idle? <==> id == m.idle)
      && match t.kind
         case Thread =>
           && t.state.Ready? && 0 < t.current == t.budget && 0 < t.allot && t.link <= t.allot
           && t.cool == (if cfg.algorithm.Ds? then t.period else 0)
         case Lsr => t.state.LsrDormant? && t.cool == 0
         case Idle => t.state.Ready? && t.cool == 0
  }

  lemma InitialInv(cfg: Config, m: Machine)
    requires Initial(cfg, m)
    ensures Inv(cfg, m)
  {
  }

  /** One tick changes neither what a task is nor whether it is running, waiting as an LSR, dormant or failed. */
  predicate SameRole(a: Task, b: Task) {
    && b.kind == a.kind
    && (b.state.Running? <==> a.state.Running?)
    && (b.state.LsrPending? <==> a.state.LsrPending?)
    && (b.state.LsrDormant? <==> a.state.LsrDormant?)
    && (b.state.Failure? <==> a.state.Failure?)
  }

  lemma ReplenishOk(cfg: Config, t: Task, mid: bool)
    requires TaskOk(cfg, t, mid)
    ensures TaskOk(cfg, Replenish(cfg, t), mid) && SameRole(t, Replenish(cfg, t))
    ensures Replenish(cfg, t).state == t.state || (t.state.Throttled? && Replenish(cfg, t).state.Ready?)
    ensures Replenish(cfg, t).sleepTicks == t.sleepTicks
  {
    hide Callback, Push, Transition;
  }

  /** In the middle of a tick a sleep that started in it has not been ticked yet. */
  lemma ChargeDeferredOk(cfg: Config, t: Task)
    requires TaskOk(cfg, t, false)
    ensures var r := ChargeDeferred(cfg, t);
      && SameRole(t, r) && !Deferred(r.state)
      && (if t.state.DefSleep? then r.state.Sleep? && r.nap == r.sleepTicks > 0 && r.current <= r.budget
          else TaskOk(cfg, r, false))
      && (r.state.Pending? ==> t.state.Pending? || t.state.DefPending?)
      && (t.state.Pending? ==> r.state.Pending?)
      && (!Deferred(t.state) ==> r == t)
      && r.cool == (if cfg.algorithm.Bcs? && r.state.Throttled? && Deferred(t.state) then t.period else t.cool)
      && r.(state := t.state, current := t.current, link := t.link, cool := t.cool, nap := t.nap) == t
  {
    hide Callback, Push, Transition;
  }

  lemma ChargeRunningOk(cfg: Config, t: Task)
    requires t.state.Running? ==> TaskOk(cfg, t, false)
    ensures ChargeRunning(cfg, t).(current := t.current, link := t.link) == t
    ensures !t.state.Running? ==> ChargeRunning(cfg, t) == t
    ensures t.state.Running? ==> TaskOk(cfg, ChargeRunning(cfg, t), true)
  {
    hide Callback, Push, Transition;
  }

  lemma SleepPhaseOk(cfg: Config, t: Task)
    requires if t.state.Sleep? then
      TaskOk(cfg, t.(nap := 1, sleepTicks := t.sleepTicks + 1), true) && 0 < t.nap <= t.sleepTicks
      else TaskOk(cfg, t, true)
    ensures TaskOk(cfg, SleepPhase(cfg, t), true) && SameRole(t, SleepPhase(cfg, t))
    ensures !t.state.Sleep? ==> SleepPhase(cfg, t) == t
    ensures t.state.Sleep? ==> SleepPhase(cfg, t).state in {Sleep, Ready, Throttled}
  {
    hide Callback, Push, Transition;
  }

  /** One tick of one task: the invariant is kept, and every deferred tick has been taken. */
  lemma TickTaskOk(cfg: Config, t: Task)
    requires TaskOk(cfg, t, false)
    ensures var r := TickTask(cfg, t);
      && TaskOk(cfg, r, true) && SameRole(t, r) && !Deferred(r.state)
      && (r.state.Pending? ==> t.state.Pending? || t.state.DefPending?)
      && (t.state.Pending? ==> r.state.Pending?)
  {
    hide Callback, Push, Transition;
    var t0 := Transition(cfg, t);
    var t1 := if cfg.algorithm.Bcs? then Replenish(cfg, t0) else t0;
    ReplenishOk(cfg, t0, false);
    var t2 := ChargeDeferred(cfg, t1);
    ChargeDeferredOk(cfg, t1);
    var t3 := ChargeRunning(cfg, t2);
    ChargeRunningOk(cfg, t2);
    var t4 := if cfg.algorithm.Ds? then Replenish(cfg, t3) else t3;
    if t3.state.Sleep? {
      ReplenishOk(cfg, t3.(nap := 1, sleepTicks := t3.sleepTicks + 1), true);
    } else {
      ReplenishOk(cfg, t3, true);
    }
    SleepPhaseOk(cfg, t4);
  }

  lemma PhasesOk(cfg: Config, m: Machine)
    requires Inv(cfg, m)
    ensures Inv(cfg, Phases(cfg, m), true)
  {
    hide TickTask, TaskOk, ReadySet;
    var r := Phases(cfg, m);
    forall id | id in m.tasks
      ensures r.tasks[id] == TickTask(cfg, m.tasks[id])
      ensures TaskOk(cfg, r.tasks[id], true) && SameRole(m.tasks[id], r.tasks[id])
      ensures r.tasks[id].state.DefPending? || r.tasks[id].state.Pending? <==> r.slot == Some(id)
      ensures !r.tasks[id].state.DefPending?
    {
      TickTaskOk(cfg, m.tasks[id]);
    }
  }

  /** What the running task may be sent to. */
  predicate MayLeave(m: Machine, next: State)
    requires Wf(m) && m.running.Some?
  {
    var t := m.tasks[m.running.value];
    && KindAllows(t.kind, next) && !next.Running? && !next.Pending? && !next.Sleep?
    && (next.DefPending? ==> m.slot.None? && (t.kind.Idle? ==> ReadySet(m) == {}))
    && (next.DefSleep? ==> t.sleepTicks > 0)
    && (t.kind.Thread? && !next.Failure? ==> (next.Throttled? <==> t.current == 0))
    && (next.Throttled? ==> t.period > 0)
  }

  lemma LeaveTask(cfg: Config, m: Machine, next: State)
    requires Inv(cfg, m, true) && m.running.Some? && MayLeave(m, next)
    ensures var id := m.running.value;
      var t := Enter(cfg, m.tasks[id], next);
      && TaskOk(cfg, t, false) && t.state == next && t.kind == m.tasks[id].kind
      && (next.DefPending? && t.kind.Idle? ==> ReadySet(m) == {}) && (next.DefPending? ==> m.slot.None?)
      && (!t.kind.Lsr? ==> m.slot.None?) && m.tasks[id].state.Running? && id !in m.lsrs
  {
    hide Push;
  }

  lemma LeaveTasks(cfg: Config, m: Machine, next: State)
    requires Inv(cfg, m, true) && m.running.Some? && MayLeave(m, next)
    ensures TasksOk(cfg, Leave(cfg, m, next), false)
  {
    LeaveTask(cfg, m, next);
    var r, id := Leave(cfg, m, next), m.running.value;
    hide TaskOk, Enter, MayLeave, ReadySet;
    forall x | x in r.tasks ensures TaskOk(cfg, r.tasks[x], false) && (r.tasks[x].kind.Idle? <==> x == r.idle) {
      if x != id {
        NotRunning(cfg, m.tasks[x]);
      }
    }
  }

  lemma LeavePlaced(cfg: Config, m: Machine, next: State)
    requires Inv(cfg, m, true) && m.running.Some? && MayLeave(m, next)
    ensures Placed(Leave(cfg, m, next))
  {
    LeaveTask(cfg, m, next);
    var r, id := Leave(cfg, m, next), m.running.value;
    hide TaskOk, Enter, MayLeave, TasksOk, ReadySet;
    assert forall x :: x in r.lsrs <==> x in m.lsrs || (next.LsrPending? && x == id);
  }

  lemma LeaveOk(cfg: Config, m: Machine, next: State)
    requires Inv(cfg, m, true) && m.running.Some? && MayLeave(m, next)
    ensures Inv(cfg, Leave(cfg, m, next))
  {
    LeaveTask(cfg, m, next);
    LeaveTasks(cfg, m, next);
    LeavePlaced(cfg, m, next);
    var r, id := Leave(cfg, m, next), m.running.value;
    hide TaskOk, Enter, MayLeave, TasksOk, Placed;
    assert ReadySet(r) == if next.Ready? && r.tasks[id].kind.Thread? then ReadySet(m) + {id} else ReadySet(m);
  }

  lemma InvMid(cfg: Config, m: Machine)
    requires Inv(cfg, m)
    ensures Inv(cfg, m, true)
  {
  }

  /** Only a running thread can be spent in the middle of a tick. */
  lemma NotRunning(cfg: Config, t: Task)
    requires TaskOk(cfg, t, true) && !t.state.Running?
    ensures TaskOk(cfg, t, false)
  {
  }

  /** The assertions of `kTickSchedTaskPop`: whatever the policy returns is ready, and not an LSR. */
  lemma PoppedIsReady(cfg: Config, m: Machine, next: Id)
    requires Inv(cfg, m, true) && m.running.None? && m.slot.None? && NextOk(cfg, Contract, m, next)
    ensures next in m.tasks && m.tasks[next].state.Ready? && !m.tasks[next].kind.Lsr?
  {
    if ReadySet(m) == {} {
      assert KindAllows(m.tasks[m.idle].kind, m.tasks[m.idle].state);
    }
  }

  lemma DispatchTask(cfg: Config, m: Machine, next: Id, id: Id)
    requires Wf(m) && next in m.tasks && id in m.tasks && TaskOk(cfg, m.tasks[id], false)
    requires m.tasks[next].state.Ready? && !m.tasks[next].kind.Lsr?
    ensures var b := Dispatch(cfg, m, next).tasks[id];
      && b == m.tasks[id].(state := if id == next then Running else m.tasks[id].state, link := b.link)
      && TaskOk(cfg, b, false)
  {
  }

  lemma DispatchTasks(cfg: Config, m: Machine, next: Id)
    requires Inv(cfg, m) && m.running.None? && m.slot.None? && NextOk(cfg, Contract, m, next)
    ensures next in m.tasks
    ensures var r := Dispatch(cfg, m, next);
      && TasksOk(cfg, r, false)
      && forall id :: id in r.tasks ==>
        r.tasks[id] ==
          m.tasks[id].(state := if id == next then Running else m.tasks[id].state, link := r.tasks[id].link)
  {
    PoppedIsReady(cfg, m, next);
    var r := Dispatch(cfg, m, next);
    hide Dispatch, TaskOk, ReadySet;
    forall id | id in r.tasks
      ensures r.tasks[id] ==
        m.tasks[id].(state := if id == next then Running else m.tasks[id].state, link := r.tasks[id].link)
      ensures TaskOk(cfg, r.tasks[id], false)
    {
      DispatchTask(cfg, m, next, id);
    }
  }

  lemma DispatchIs(cfg: Config, m: Machine, next: Id)
    requires Wf(m) && next in m.tasks && m.running.None?
    ensures var r := Dispatch(cfg, m, next); r == m.(tasks := r.tasks, running := Some(next))
  {
  }

  lemma DispatchOk(cfg: Config, m: Machine, next: Id)
    requires Inv(cfg, m) && m.running.None? && m.slot.None? && NextOk(cfg, Contract, m, next)
    ensures next in m.tasks && Inv(cfg, Dispatch(cfg, m, next))
    ensures ReadySet(Dispatch(cfg, m, next)) == ReadySet(m) - {next}
  {
    hide Dispatch, TaskOk;
    InvMid(cfg, m);
    PoppedIsReady(cfg, m, next);
    DispatchTasks(cfg, m, next);
    DispatchIs(cfg, m, next);
    hide TasksOk;
    assert Placed(Dispatch(cfg, m, next));
  }

  lemma PointInv(cfg: Config, m: Machine, c: Choice, sameTick: bool)
    requires Inv(cfg, m, true) && m.running.Some? && c.next in m.tasks
    requires PointOk(cfg, Contract, m, c, sameTick)
    ensures Inv(cfg, Point(cfg, m, c))
    ensures Point(cfg, m, c).running.Some?
  {
    var t := m.tasks[m.running.value];
    if t.kind.Thread? && t.current == 0 {
      LeaveOk(cfg, m, Throttled);
      DispatchOk(cfg, Leave(cfg, m, Throttled), c.next);
    } else if t.kind.Lsr? {
    } else if c.resched {
      LeaveOk(cfg, m, Ready);
      DispatchOk(cfg, Leave(cfg, m, Ready), c.next);
    } else {
      KeepOk(cfg, m);
    }
  }

  /** Keeping the running task alters nothing but deadlines and timeslices. */
  lemma KeepIs(cfg: Config, m: Machine)
    requires Wf(m) && m.running.Some?
    ensures var r := Keep(cfg, m);
      && r == m.(tasks := r.tasks)
      && forall id :: id in m.tasks ==> r.tasks[id] == m.tasks[id].(link := r.tasks[id].link)
  {
  }

  lemma KeepOk(cfg: Config, m: Machine)
    requires Inv(cfg, m, true) && m.running.Some?
    requires m.tasks[m.running.value].kind.Thread? ==> m.tasks[m.running.value].current > 0
    requires m.tasks[m.running.value].kind.Idle? ==> ReadySet(m) == {}
    ensures Inv(cfg, Keep(cfg, m))
  {
    hide Keep;
    KeepIs(cfg, m);
    var r := Keep(cfg, m);
    forall id | id in r.tasks ensures TaskOk(cfg, r.tasks[id], false) {
    }
    hide TaskOk;
    assert ReadySet(r) == ReadySet(m);
  }

  lemma RestoreOk(cfg: Config, m: Machine)
    requires Inv(cfg, m) && m.running.None? && m.slot.Some?
    ensures Inv(cfg, Restore(m), true)
  {
    var r := Restore(m);
    assert r.tasks == m.tasks[m.slot.value := m.tasks[m.slot.value].(state := Running)];
  }

  lemma RunLsrReady(cfg: Config, m: Machine)
    requires Inv(cfg, m) && m.running.None? && m.lsrs != []
    ensures m.tasks[m.lsrs[0]].kind.Lsr? && ReadySet(RunLsr(m)) == ReadySet(m)
  {
  }

  lemma RunLsrOk(cfg: Config, m: Machine)
    requires Inv(cfg, m) && m.running.None? && m.lsrs != []
    ensures Inv(cfg, RunLsr(m))
  {
    hide ReadySet;
    RunLsrReady(cfg, m);
    var r := RunLsr(m);
    assert m.lsrs == [m.lsrs[0]] + r.lsrs;
    assert r.tasks == m.tasks[m.lsrs[0] := m.tasks[m.lsrs[0]].(state := Running)];
    assert m.tasks[m.lsrs[0]].kind.Lsr?;
  }

  lemma ResumeInv(cfg: Config, m: Machine, c: Choice)
    requires Inv(cfg, m) && m.running.None? && c.next in m.tasks && ResumeOk(cfg, Contract, m, c)
    ensures Inv(cfg, Resume(cfg, m, c)) && Resume(cfg, m, c).running.Some?
  {
    if m.lsrs != [] {
      RunLsrOk(cfg, m);
    } else if m.slot.None? {
      DispatchOk(cfg, m, c.next);
    } else {
      RestoreOk(cfg, m);
      PointInv(cfg, Restore(m), c, m.tasks[m.slot.value].state.DefPending?);
    }
  }

  /** Setting the length of a sleep before it starts. */
  lemma PutSleepOk(cfg: Config, m: Machine, e: Event)
    requires Inv(cfg, m) && e.SleepFor? && Enabled(m, e)
    ensures var id := m.running.value; Inv(cfg, Put(m, id, m.tasks[id].(sleepTicks := e.ticks)))
  {
    var id := m.running.value;
    var n := Put(m, id, m.tasks[id].(sleepTicks := e.ticks));
    assert n.tasks == m.tasks[id := m.tasks[id].(sleepTicks := e.ticks)];
    assert ReadySet(n) == ReadySet(m);
  }

  lemma SwitchedOk(cfg: Config, m: Machine, e: Event)
    requires Inv(cfg, m) && IsSwitch(e) && Enabled(m, e)
    ensures Inv(cfg, Switched(cfg, m, e)) && Switched(cfg, m, e).running.None?
  {
    if e.SleepFor? {
      PutSleepOk(cfg, m, e);
      var id := m.running.value;
      LeaveOk(cfg, Put(m, id, m.tasks[id].(sleepTicks := e.ticks)), DefSleep);
    } else {
      LeaveOk(cfg, m, Target(e));
    }
  }

  /** Every event keeps the invariant, for every policy that keeps the contract. */
  lemma StepInv(cfg: Config, m: Machine, e: Event)
    requires Inv(cfg, m) && Enabled(m, e) && Legal(cfg, Contract, m, e)
    ensures Inv(cfg, Apply(cfg, m, e))
  {
    hide Phases, Point, PointOk, PushLsr, Leave, Resched, Resume, ResumeOk, Switched;
    match e
    case Tick(c) =>
      PhasesOk(cfg, m);
      PointInv(cfg, Phases(cfg, m), c, false);
    case LsrPush(l) =>
      LsrPushOk(cfg, m, l);
    case PushCurrent =>
      if m.running.Some? {
        LeaveOk(cfg, m, if m.tasks[m.running.value].kind.Lsr? then LsrPending else DefPending);
      }
    case Reschedule(c) =>
      ReschedInv(cfg, m, c);
    case _ =>
      SwitchedOk(cfg, m, e);
      ResumeInv(cfg, Switched(cfg, m, e), e.c);
  }

  lemma LsrPushOk(cfg: Config, m: Machine, l: Id)
    requires Inv(cfg, m) && Enabled(m, LsrPush(l))
    ensures Inv(cfg, PushLsr(m, l))
  {
    var r := PushLsr(m, l);
    assert r.tasks == m.tasks[l := m.tasks[l].(state := LsrPending)];
    assert l !in m.lsrs;
    assert TasksOk(cfg, r, false);
    hide TaskOk;
    assert ReadySet(r) == ReadySet(m);
    assert Placed(r);
  }

  lemma ReschedInv(cfg: Config, m: Machine, c: Choice)
    requires Inv(cfg, m) && c.next in m.tasks && (m.running.Some? || ResumeOk(cfg, Contract, m, c))
    ensures Inv(cfg, Resched(cfg, m, c))
  {
    if m.running.None? {
      ResumeInv(cfg, m, c);
    } else if !m.tasks[m.running.value].kind.Lsr? && m.lsrs != [] {
      LeaveOk(cfg, m, DefPending);
      RunLsrOk(cfg, Leave(cfg, m, DefPending));
    }
  }

  lemma {:induction false} RunInv(cfg: Config, m: Machine, es: seq<Event>)
    requires Inv(cfg, m) && Run(cfg, Contract, m, es)
    ensures Inv(cfg, Exec(cfg, Contract, m, es))
    decreases es
  {
    if es != [] {
      StepInv(cfg, m, es[0]);
      RunInv(cfg, Apply(cfg, m, es[0]), es[1..]);
    }
  }
}
