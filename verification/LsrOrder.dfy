/**
 The order of pending LSRs. An interrupt is taken only when its priority is above the task-priority register, which
 caches the highest level among the activated tasks, so an LSR never waits behind one of lower priority
 (arch/x86_64/ia32e/src/ia32eCpu.c:1545-1581, src/workhorse/kTick/kTick.c:578-605, 625-665).
 */
module LsrOrder {
  import opened Tasks
  import opened TickSpec
  import opened TickInv
  import Tpr

  /** The register lets an interrupt of priority `p` through; `level` gives the level of every thread and LSR. */
  ghost predicate AboveTpr(m: Machine, level: map<Id, nat>, p: nat) {
    && (forall id :: id in m.tasks && m.tasks[id].kind.Lsr? ==> id in level && level[id] == m.tasks[id].prio)
    && exists tpr :: Tpr.IsTpr(Tpr.ActiveSet(m), level, tpr) && p > tpr
  }

  /** Being let through is being above the register that `Tpr.Cpu` keeps. */
  lemma RegisterDecides(m: Machine, level: map<Id, nat>, tpr: nat, p: nat)
    requires Tpr.IsTpr(Tpr.ActiveSet(m), level, tpr)
    requires forall id :: id in m.tasks && m.tasks[id].kind.Lsr? ==> id in level && level[id] == m.tasks[id].prio
    ensures AboveTpr(m, level, p) <==> p > tpr
  {
    forall other | Tpr.IsTpr(Tpr.ActiveSet(m), level, other) ensures other == tpr {
      Tpr.TprUnique(Tpr.ActiveSet(m), level, tpr, other);
    }
  }

  /** The pending LSRs are in order of priority, none is above the running LSR, and none waits while no LSR runs. */
  ghost predicate Ordered(m: Machine)
    requires Wf(m)
  {
    && (forall i, j :: 0 <= i < j < |m.lsrs| ==> m.tasks[m.lsrs[i]].prio >= m.tasks[m.lsrs[j]].prio)
    && (m.running.Some? ==>
          if RunningKind(m, Lsr) then forall l :: l in m.lsrs ==> m.tasks[l].prio <= m.tasks[m.running.value].prio
          else m.lsrs == [])
  }

  /**
   Runs whose LSR events come from interrupts: the interrupted task is put aside, the LSRs of the vector are pushed,
   and the machine reschedules. `open` is the priority of the interrupt being handled.
   */
  ghost predicate Served(cfg: Config, m: Machine, es: seq<Event>, level: map<Id, nat>, open: Option<nat>)
    requires Wf(m) && Run(cfg, Contract, m, es)
    decreases es
  {
    es == [] ||
    match es[0]
    case PushCurrent =>
      && open.None? && m.running.Some? && |es| > 1 && es[1].LsrPush? && es[1].lsr in m.tasks
      && AboveTpr(m, level, m.tasks[es[1].lsr].prio)
      && Served(cfg, Apply(cfg, m, es[0]), es[1..], level, Some(m.tasks[es[1].lsr].prio))
    case LsrPush(l) => open == Some(m.tasks[l].prio) && Served(cfg, Apply(cfg, m, es[0]), es[1..], level, open)
    case Reschedule(_) =>
      && (open.Some? || (m.running.None? && m.lsrs == []))
      && Served(cfg, Apply(cfg, m, es[0]), es[1..], level, None)
    case _ => open.None? && Served(cfg, Apply(cfg, m, es[0]), es[1..], level, None)
  }

  // ------------------------------------------------------------------------
  // Nothing changes the kind or the priority of a task.

  ghost predicate Same(m: Machine, r: Machine) {
    && r.tasks.Keys == m.tasks.Keys
    && forall id :: id in m.tasks ==> r.tasks[id].prio == m.tasks[id].prio && r.tasks[id].kind == m.tasks[id].kind
  }

  lemma LeaveSame(cfg: Config, m: Machine, next: State)
    requires Wf(m) && m.running.Some?
    ensures Same(m, Leave(cfg, m, next))
    ensures Leave(cfg, m, next).lsrs == if next.LsrPending? then [m.running.value] + m.lsrs else m.lsrs
  {
    hide Enter;
  }

  lemma DispatchSame(cfg: Config, m: Machine, next: Id)
    requires Wf(m) && next in m.tasks
    ensures Same(m, Dispatch(cfg, m, next)) && Dispatch(cfg, m, next).lsrs == m.lsrs
  {
    hide Popped, Fixup;
  }

  lemma KeepSame(cfg: Config, m: Machine)
    requires Wf(m) && m.running.Some?
    ensures Same(m, Keep(cfg, m)) && Keep(cfg, m).lsrs == m.lsrs && Keep(cfg, m).running == m.running
  {
    hide Fixup;
  }

  lemma PhasesSame(cfg: Config, m: Machine)
    requires Wf(m)
    ensures Same(m, Phases(cfg, m)) && Phases(cfg, m).lsrs == m.lsrs && Phases(cfg, m).running == m.running
  {
    hide TickTask;
  }

  /** A rescheduling point leaves the pending LSRs alone, and a running LSR too. */
  lemma PointSame(cfg: Config, m: Machine, c: Choice)
    requires Wf(m) && m.running.Some? && c.next in m.tasks
    ensures Same(m, Point(cfg, m, c)) && Point(cfg, m, c).lsrs == m.lsrs
    ensures RunningKind(m, Lsr) ==> Point(cfg, m, c) == m
  {
    hide Dispatch, Keep, Enter;
    LeaveSame(cfg, m, Throttled);
    LeaveSame(cfg, m, Ready);
    DispatchSame(cfg, Leave(cfg, m, Throttled), c.next);
    DispatchSame(cfg, Leave(cfg, m, Ready), c.next);
    KeepSame(cfg, m);
  }

  lemma RestoreSame(m: Machine)
    requires Wf(m) && m.slot.Some?
    ensures Same(m, Restore(m)) && Restore(m).lsrs == m.lsrs
  {
  }

  // ------------------------------------------------------------------------

  /** With nothing running the top of an ordered stack is what runs next. */
  lemma ResumeOrdered(cfg: Config, m: Machine, c: Choice)
    requires Inv(cfg, m) && Ordered(m) && m.running.None? && c.next in m.tasks
    ensures Ordered(Resume(cfg, m, c))
  {
    if m.lsrs != [] {
      var r := RunLsr(m);
      assert r.lsrs == m.lsrs[1..];
      assert m.tasks[m.lsrs[0]].state.LsrPending? && m.tasks[m.lsrs[0]].kind.Lsr? by {
        assert m.lsrs[0] in m.lsrs;
        LsrsAreLsrs(cfg, m, m.lsrs[0]);
      }
      forall l | l in r.lsrs ensures r.tasks[l].prio <= r.tasks[m.lsrs[0]].prio {
        var i :| 0 <= i < |r.lsrs| && r.lsrs[i] == l;
        assert m.lsrs[i + 1] == l;
      }
    } else if m.slot.None? {
      DispatchSame(cfg, m, c.next);
      Unwaited(Dispatch(cfg, m, c.next));
    } else {
      RestoreSame(m);
      PointSame(cfg, Restore(m), c);
      Unwaited(Point(cfg, Restore(m), c));
    }
  }

  lemma LsrsAreLsrs(cfg: Config, m: Machine, l: Id)
    requires Inv(cfg, m) && l in m.lsrs
    ensures m.tasks[l].state.LsrPending? && m.tasks[l].kind.Lsr?
  {
    assert TaskOk(cfg, m.tasks[l], false);
  }

  lemma Unwaited(m: Machine)
    requires Wf(m) && m.lsrs == []
    ensures Ordered(m)
  {
  }

  /** Everything on the pending stack is activated, and so below an interrupt that the register lets through. */
  lemma PendingIsBelow(cfg: Config, m: Machine, level: map<Id, nat>, p: nat, l: Id)
    requires Inv(cfg, m) && AboveTpr(m, level, p)
    requires l in m.lsrs || (m.running == Some(l) && m.tasks[l].kind.Lsr?)
    ensures m.tasks[l].prio < p
  {
    if l in m.lsrs {
      LsrsAreLsrs(cfg, m, l);
    }
    assert l in Tpr.ActiveSet(m);
  }

  /** The interrupted task joins the stack, if it is an LSR, above everything that was already waiting. */
  lemma PutAsideOrdered(cfg: Config, m: Machine, level: map<Id, nat>, p: nat)
    requires Inv(cfg, m) && Ordered(m) && m.running.Some? && AboveTpr(m, level, p)
    ensures var r := Apply(cfg, m, PushCurrent);
      Ordered(r) && r.running.None? && forall l :: l in r.lsrs ==> r.tasks[l].prio < p
  {
    hide AboveTpr, Enter, TasksOk, Placed, ReadySet;
    var next := if m.tasks[m.running.value].kind.Lsr? then LsrPending else DefPending;
    LeaveSame(cfg, m, next);
    var r := Leave(cfg, m, next);
    forall l | l in r.lsrs ensures r.tasks[l].prio < p {
      PendingIsBelow(cfg, m, level, p, l);
    }
  }

  lemma PushOrdered(m: Machine, l: Id)
    requires Wf(m) && Ordered(m) && m.running.None? && l in m.tasks
    requires forall x :: x in m.lsrs ==> m.tasks[x].prio <= m.tasks[l].prio
    ensures var r := PushLsr(m, l);
      Ordered(r) && r.running.None? && Same(m, r) && r.lsrs == [l] + m.lsrs
  {
    assert forall i :: 0 <= i < |m.lsrs| ==> m.lsrs[i] in m.lsrs;
  }

  /** The order through one event that is not part of an interrupt. */
  lemma EventOrdered(cfg: Config, m: Machine, e: Event)
    requires Inv(cfg, m) && Ordered(m) && Enabled(m, e) && Legal(cfg, Contract, m, e)
    requires e.Tick? || IsSwitch(e)
    ensures Ordered(Apply(cfg, m, e))
  {
    hide Enter, Phases, Point, Resume, ResumeOk, PointOk;
    if e.Tick? {
      PhasesSame(cfg, m);
      PointSame(cfg, Phases(cfg, m), e.c);
    } else {
      SwitchedOk(cfg, m, e);
      SwitchedOrdered(cfg, m, e);
      ResumeOrdered(cfg, Switched(cfg, m, e), e.c);
    }
  }

  lemma SwitchedOrdered(cfg: Config, m: Machine, e: Event)
    requires Inv(cfg, m) && Ordered(m) && IsSwitch(e) && Enabled(m, e)
    ensures Ordered(Switched(cfg, m, e))
  {
    hide Enter, Leave, TasksOk;
    var id := m.running.value;
    var n := if e.SleepFor? then Put(m, id, m.tasks[id].(sleepTicks := e.ticks)) else m;
    assert Same(m, n) && n.lsrs == m.lsrs;
    LeaveSame(cfg, n, Target(e));
  }

  /**
   Over every run in which interrupts come in only above the task-priority register, the pending LSRs stay sorted by
   priority and the running LSR is at least as high as everything that waits.
   */
  lemma {:induction false} AlwaysOrdered(cfg: Config, m: Machine, es: seq<Event>, level: map<Id, nat>,
        open: Option<nat>)
    requires Inv(cfg, m) && Run(cfg, Contract, m, es) && Served(cfg, m, es, level, open) && Ordered(m)
    requires open.Some? ==> m.running.None? && forall l :: l in m.lsrs ==> m.tasks[l].prio <= open.value
    ensures Ordered(Exec(cfg, Contract, m, es))
    decreases es
  {
    hide Enter, Phases, Point, Leave, Switched, Resume, ResumeOk, PointOk, AboveTpr, TasksOk, Placed, ReadySet;
    if es != [] {
      var e := es[0];
      StepInv(cfg, m, e);
      var n, after := Apply(cfg, m, e), None;
      match e {
        case PushCurrent =>
          after := Some(m.tasks[es[1].lsr].prio);
          PutAsideOrdered(cfg, m, level, after.value);
        case LsrPush(l) =>
          after := open;
          PushOrdered(m, l);
        case Reschedule(c) =>
          ResumeOrdered(cfg, m, c);
        case _ =>
          EventOrdered(cfg, m, e);
      }
      AlwaysOrdered(cfg, n, es[1..], level, after);
    }
  }
}
