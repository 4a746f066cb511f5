/**
 The three policies keep the contract. With the answers round robin, EDF and cyclic scheduling give, every run is one
 the contract allows, and between any two kernel entries nobody should be running instead of the running thread.
 */
module PolicyRuns {
  import opened Tasks
  import opened TickSpec
  import opened TickInv
  import opened ThreadView

  /** Nothing ready has a better claim to the processor than `id`, and what `id` has left of its turn is not zero. */
  ghost predicate Settled(cfg: Config, m: Machine, id: Id)
    requires id in m.tasks
  {
    var t := m.tasks[id];
    if t.kind.Idle? then ReadySet(m) == {}
    else
      && t.link > 0
      && match cfg.policy
         case RoundRobin => forall x :: x in ReadySet(m) ==> m.tasks[x].prio <= t.prio
         case Cyclic => true
         case Edf => forall x :: x in ReadySet(m) ==> 0 < m.tasks[x].link && t.link <= m.tasks[x].link
  }

  /** A thread that will take the next tick has something left to take it from; no deadline exceeds its allotment. */
  predicate LinkOk(cfg: Config, t: Task) {
    t.kind.Thread? ==>
      && (cfg.policy.Edf? ==> t.link <= t.allot)
      && (Charged(t) ==> t.link > 0)
      && (cfg.policy.Edf? && t.state.Pending? ==> t.link > 0)
  }

  ghost predicate PolicyInv(cfg: Config, m: Machine)
    requires Wf(m)
  {
    && (forall id :: id in m.tasks ==> LinkOk(cfg, m.tasks[id]))
    && (m.running.Some? && !RunningKind(m, Lsr) ==> Settled(cfg, m, m.running.value))
    && (m.slot.Some? && m.tasks[m.slot.value].state.DefPending? ==> Settled(cfg, m, m.slot.value))
  }

  /** In the middle of a tick the running thread has been charged, and its turn may be over. */
  ghost predicate MidInv(cfg: Config, m: Machine)
    requires Wf(m)
  {
    && (forall id :: id in m.tasks && !m.tasks[id].state.Running? ==> LinkOk(cfg, m.tasks[id]))
    && (m.running.Some? ==>
        var t := m.tasks[m.running.value];
        cfg.policy.Edf? && t.kind.Thread? ==> t.link <= t.allot && (t.current > 0 ==> t.link > 0))
  }

  lemma TickLink(cfg: Config, t: Task)
    requires TaskOk(cfg, t, false) && LinkOk(cfg, t)
    ensures var r := TickTask(cfg, t);
      && (!r.state.Running? ==> LinkOk(cfg, r))
      && (cfg.policy.Edf? && r.kind.Thread? && r.state.Running? ==> r.link <= r.allot && (r.current > 0 ==> r.link > 0))
  {
    hide Wake;
    TickTaskOk(cfg, t);
    TickAllot(cfg, t);
  }

  lemma ChargeAllot(cfg: Config, t: Task)
    requires TaskOk(cfg, t, false) && LinkOk(cfg, t) && cfg.policy.Edf? && t.kind.Thread?
    ensures ChargeDeferred(cfg, t).link <= t.allot && ChargeRunning(cfg, t).link <= t.allot
    ensures Deferred(t.state) ==> !ChargeDeferred(cfg, t).state.Running?
  {
  }

  lemma RestAllot(cfg: Config, t: Task)
    requires t.link <= t.allot
    ensures Replenish(cfg, t).link <= t.allot && SleepPhase(cfg, t).link <= t.allot
    ensures Transition(cfg, t).link <= t.allot
  {
  }

  lemma TickAllot(cfg: Config, t: Task)
    requires TaskOk(cfg, t, false) && LinkOk(cfg, t)
    ensures cfg.policy.Edf? && t.kind.Thread? ==> TickTask(cfg, t).link <= t.allot
  {
    hide Callback, Wake, SleepPhase, Push;
    if cfg.policy.Edf? && t.kind.Thread? {
      var t0 := Transition(cfg, t);
      RestAllot(cfg, t);
      var t1 := if cfg.algorithm.Bcs? then Replenish(cfg, t0) else t0;
      RestAllot(cfg, t0);
      assert Charged(t) ==> t1 == t;
      if Charged(t) {
        ChargeAllot(cfg, t);
      }
      var t3 := ChargeRunning(cfg, ChargeDeferred(cfg, t1));
      assert t3.link <= t3.allot;
      RestAllot(cfg, t3);
      RestAllot(cfg, if cfg.algorithm.Ds? then Replenish(cfg, t3) else t3);
    }
  }

  lemma PhasesLinks(cfg: Config, m: Machine)
    requires Inv(cfg, m) && PolicyInv(cfg, m)
    ensures MidInv(cfg, Phases(cfg, m))
    ensures Phases(cfg, m).slot.Some? ==> !Phases(cfg, m).tasks[Phases(cfg, m).slot.value].state.DefPending?
  {
    var r := Phases(cfg, m);
    assert forall id :: id in r.tasks ==> r.tasks[id] == TickTask(cfg, m.tasks[id]);
    hide TickTask, LinkOk, TaskOk;
    forall id | id in r.tasks
      ensures !r.tasks[id].state.Running? ==> LinkOk(cfg, r.tasks[id])
      ensures cfg.policy.Edf? && r.tasks[id].kind.Thread? && r.tasks[id].state.Running? ==>
        r.tasks[id].link <= r.tasks[id].allot && (r.tasks[id].current > 0 ==> r.tasks[id].link > 0)
      ensures !r.tasks[id].state.DefPending?
      ensures r.running == Some(id) ==> r.tasks[id].state.Running?
    {
      TickLink(cfg, m.tasks[id]);
      TickTaskOk(cfg, m.tasks[id]);
    }
  }

  /** Whoever the policy pops first has the best claim. */
  lemma DispatchSettles(cfg: Config, m: Machine, next: Id)
    requires Inv(cfg, m) && m.running.None? && m.slot.None? && NextOk(cfg, Exact, m, next)
    requires forall id :: id in m.tasks ==> LinkOk(cfg, m.tasks[id])
    ensures NextOk(cfg, Contract, m, next) && next in m.tasks
    ensures PolicyInv(cfg, Dispatch(cfg, m, next))
  {
    PoppedIsReady(cfg, m, next);
    var r := Dispatch(cfg, m, next);
    DispatchOk(cfg, m, next);
    DispatchBest(cfg, m, next);
    hide Settled, LinkOk, Inv, Dispatch, NextOk, FixupAll;
    forall id | id in r.tasks ensures LinkOk(cfg, r.tasks[id]) {
      DispatchLink(cfg, m, next, id);
    }
  }

  lemma DispatchLink(cfg: Config, m: Machine, next: Id, id: Id)
    requires Wf(m) && next in m.tasks && id in m.tasks && LinkOk(cfg, m.tasks[id]) && TaskOk(cfg, m.tasks[id], false)
    requires m.tasks[next].state.Ready?
    requires m.tasks[next].kind.Thread? && cfg.policy.Edf? ==> Fixup(cfg, m.tasks[next]).link > 0
    ensures LinkOk(cfg, Dispatch(cfg, m, next).tasks[id])
    ensures Dispatch(cfg, m, next).slot == m.slot && Dispatch(cfg, m, next).running == Some(next)
  {
  }

  lemma DispatchBest(cfg: Config, m: Machine, next: Id)
    requires Inv(cfg, m) && next in m.tasks && NextOk(cfg, Exact, m, next)
    requires m.tasks[next].state.Ready?
    requires ReadySet(Dispatch(cfg, m, next)) == ReadySet(m) - {next}
    ensures Settled(cfg, Dispatch(cfg, m, next), next)
    ensures m.tasks[next].kind.Thread? && cfg.policy.Edf? ==> Fixup(cfg, m.tasks[next]).link > 0
  {
    assert TaskOk(cfg, m.tasks[next], false);
    var r := Dispatch(cfg, m, next);
    if m.tasks[next].kind.Thread? {
      assert next in ReadySet(m);
      forall x | x in ReadySet(r)
        ensures r.tasks[x] == Fixup(cfg, m.tasks[x]) && TaskOk(cfg, m.tasks[x], false)
      {
        assert x in ReadySet(m);
      }
    }
  }

  lemma KeepSettles(cfg: Config, m: Machine)
    requires Inv(cfg, m, true) && m.running.Some? && !RunningKind(m, Lsr) && MidInv(cfg, m) && !Wants(cfg, m)
    requires m.tasks[m.running.value].kind.Thread? ==> m.tasks[m.running.value].current > 0
    ensures PolicyInv(cfg, Keep(cfg, m))
  {
    var r := Keep(cfg, m);
    assert ReadySet(r) == ReadySet(m);
    assert Settled(cfg, r, r.running.value);
  }

  /** The rescheduling point, whatever the policy: answers within the contract, and the right thread left running. */
  lemma PointExact(cfg: Config, m: Machine, c: Choice, sameTick: bool)
    requires Inv(cfg, m, true) && m.running.Some? && c.next in m.tasks && MidInv(cfg, m)
    requires m.slot.Some? ==> !m.tasks[m.slot.value].state.DefPending?
    requires PointOk(cfg, Exact, m, c, sameTick) && (sameTick ==> Settled(cfg, m, m.running.value))
    ensures PointOk(cfg, Contract, m, c, sameTick)
    ensures PolicyInv(cfg, Point(cfg, m, c))
  {
    var t := m.tasks[m.running.value];
    if t.kind.Thread? && t.current == 0 {
      LeaveLinks(cfg, m, Throttled);
      DispatchSettles(cfg, Leave(cfg, m, Throttled), c.next);
    } else if t.kind.Lsr? {
      assert LinkOk(cfg, t);
    } else if c.resched {
      LeaveLinks(cfg, m, Ready);
      DispatchSettles(cfg, Leave(cfg, m, Ready), c.next);
    } else {
      KeepSettles(cfg, m);
    }
  }

  lemma LeaveLinks(cfg: Config, m: Machine, next: State)
    requires Inv(cfg, m, true) && m.running.Some? && MayLeave(m, next) && MidInv(cfg, m) && next in {Throttled, Ready}
    ensures Inv(cfg, Leave(cfg, m, next))
    ensures forall id :: id in Leave(cfg, m, next).tasks ==> LinkOk(cfg, Leave(cfg, m, next).tasks[id])
  {
    LeaveOk(cfg, m, next);
  }

  lemma ResumeExact(cfg: Config, m: Machine, c: Choice)
    requires Inv(cfg, m) && m.running.None? && c.next in m.tasks && PolicyInv(cfg, m) && ResumeOk(cfg, Exact, m, c)
    ensures ResumeOk(cfg, Contract, m, c) && PolicyInv(cfg, Resume(cfg, m, c))
  {
    if m.lsrs != [] {
      RunLsrSettled(cfg, m);
    } else if m.slot.None? {
      DispatchSettles(cfg, m, c.next);
    } else {
      RestoreLinks(cfg, m);
      PointExact(cfg, Restore(m), c, m.tasks[m.slot.value].state.DefPending?);
    }
  }

  lemma RunLsrSettled(cfg: Config, m: Machine)
    requires Inv(cfg, m) && m.running.None? && m.lsrs != [] && PolicyInv(cfg, m)
    ensures PolicyInv(cfg, RunLsr(m))
  {
    assert m.tasks[m.lsrs[0]].kind.Lsr?;
    assert ReadySet(RunLsr(m)) == ReadySet(m);
  }

  lemma RestoreLinks(cfg: Config, m: Machine)
    requires Inv(cfg, m) && m.running.None? && m.slot.Some? && PolicyInv(cfg, m)
    ensures Inv(cfg, Restore(m), true) && MidInv(cfg, Restore(m)) && Restore(m).slot.None?
    ensures m.tasks[m.slot.value].state.DefPending? ==> Settled(cfg, Restore(m), m.slot.value)
  {
    RestoreOk(cfg, m);
    assert ReadySet(Restore(m)) == ReadySet(m);
  }

  /** A running task that leaves without becoming ready leaves every other claim as it was. */
  lemma LeaveSettled(cfg: Config, m: Machine, next: State)
    requires Inv(cfg, m) && PolicyInv(cfg, m) && m.running.Some? && MayLeave(m, next)
    requires Deferred(next) || next in {Failure, LsrDormant, LsrPending}
    ensures PolicyInv(cfg, Leave(cfg, m, next))
  {
    assert ReadySet(Leave(cfg, m, next)) == ReadySet(m);
  }

  lemma SwitchedSettled(cfg: Config, m: Machine, e: Event)
    requires Inv(cfg, m) && PolicyInv(cfg, m) && IsSwitch(e) && Enabled(m, e)
    ensures PolicyInv(cfg, Switched(cfg, m, e))
  {
    if e.SleepFor? {
      var n := Put(m, m.running.value, m.tasks[m.running.value].(sleepTicks := e.ticks));
      assert ReadySet(n) == ReadySet(m);
      PutSleepOk(cfg, m, e);
      LeaveSettled(cfg, n, DefSleep);
    } else {
      LeaveSettled(cfg, m, Target(e));
    }
  }

  lemma StepExact(cfg: Config, m: Machine, e: Event)
    requires Inv(cfg, m) && PolicyInv(cfg, m) && Enabled(m, e) && Legal(cfg, Exact, m, e)
    ensures Legal(cfg, Contract, m, e) && PolicyInv(cfg, Apply(cfg, m, e))
  {
    hide Phases, Point, PointOk, Resume, ResumeOk, Switched, Settled, LinkOk;
    match e
    case Tick(c) =>
      PhasesOk(cfg, m);
      PhasesLinks(cfg, m);
      PointExact(cfg, Phases(cfg, m), c, false);
    case LsrPush(l) =>
      PushSettled(cfg, m, l);
    case PushCurrent =>
      if m.running.Some? {
        LeaveSettled(cfg, m, if m.tasks[m.running.value].kind.Lsr? then LsrPending else DefPending);
      }
    case Reschedule(c) =>
      ReschedSettled(cfg, m, c);
    case _ =>
      SwitchedOk(cfg, m, e);
      SwitchedSettled(cfg, m, e);
      ResumeExact(cfg, Switched(cfg, m, e), e.c);
  }

  lemma PushSettled(cfg: Config, m: Machine, l: Id)
    requires Inv(cfg, m) && PolicyInv(cfg, m) && l in m.tasks && m.tasks[l].kind.Lsr? && m.tasks[l].state.LsrDormant?
    ensures PolicyInv(cfg, PushLsr(m, l))
  {
    hide TasksOk, LinkOk, Placed;
    assert ReadySet(PushLsr(m, l)) == ReadySet(m);
    forall id | id in m.tasks ensures LinkOk(cfg, PushLsr(m, l).tasks[id]) {
      LinkOfLsr(cfg, m.tasks[id], PushLsr(m, l).tasks[id]);
    }
  }

  lemma LinkOfLsr(cfg: Config, t: Task, r: Task)
    requires LinkOk(cfg, t) && (r == t || !r.kind.Thread?)
    ensures LinkOk(cfg, r)
  {
  }

  lemma ReschedSettled(cfg: Config, m: Machine, c: Choice)
    requires Inv(cfg, m) && PolicyInv(cfg, m) && c.next in m.tasks
    requires m.running.Some? || ResumeOk(cfg, Exact, m, c)
    ensures m.running.Some? || ResumeOk(cfg, Contract, m, c)
    ensures PolicyInv(cfg, Resched(cfg, m, c))
  {
    if m.running.None? {
      ResumeExact(cfg, m, c);
    } else if !m.tasks[m.running.value].kind.Lsr? && m.lsrs != [] {
      LeaveOk(cfg, m, DefPending);
      LeaveSettled(cfg, m, DefPending);
      RunLsrSettled(cfg, Leave(cfg, m, DefPending));
    }
  }

  /**
   Round robin, EDF and cyclic scheduling keep the contract on every run, so every theorem about contract runs holds of
   them; and in every state they reach, nothing ready should be running instead of the running thread.
   */
  lemma {:induction false} ExactRun(cfg: Config, m: Machine, es: seq<Event>)
    requires Inv(cfg, m) && PolicyInv(cfg, m) && Run(cfg, Exact, m, es)
    ensures Run(cfg, Contract, m, es)
    ensures Exec(cfg, Exact, m, es) == Exec(cfg, Contract, m, es)
    ensures PolicyInv(cfg, Exec(cfg, Exact, m, es))
    decreases es
  {
    hide Apply, Legal, TasksOk, Placed, Settled, PolicyInv;
    if es != [] {
      StepExact(cfg, m, es[0]);
      StepInv(cfg, m, es[0]);
      ExactRun(cfg, Apply(cfg, m, es[0]), es[1..]);
    }
  }

  /** The state a system starts in: popped threads are set up by the pop, threads never run have no deadline yet. */
  lemma InitialPolicyInv(cfg: Config, m: Machine)
    requires Initial(cfg, m)
    ensures PolicyInv(cfg, m)
  {
  }
}
