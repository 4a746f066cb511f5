/**
 The tick machine as the source runs it (src/workhorse/kTick/kTick.c): the containers are fields updated in place, and
 the chains and the deferred ticks are drained by loops.

 Every kernel entry keeps `Agree`, so in every state between two entries each task sits in exactly the container its
 state names, and changes the machine by the event of TickSpec it stands for. The policy answers as the contract
 allows: `PolicyShouldReschedule` and `PolicyPop` choose freely within it.
 */
module TickMachine {
  import opened Tasks
  import opened DeltaSeq
  import opened TickSpec
  import opened TickInv
  import opened Containers
  import opened TickLoops
  import opened TickRefine
  import opened TickSetup

  class TickMachine {
    const cfg: Config
    const idle: Id
    var tcbs: map<Id, Tcb>
    var running: Option<Id>
    var repl: seq<Node<Id>>
    var replEpoch: nat
    var sleepers: seq<Node<Id>>
    var sleepEpoch: nat
    var deferred: seq<Id>
    var lsrs: seq<Id>
    var slot: Option<Id>
    /** The threads the policy holds, and the LSRs the interrupt vectors hold. */
    var ready: set<Id>
    var dormant: set<Id>

    function State(): Kernel
      reads this
    {
      Kernel(tcbs, running, repl, replEpoch, sleepers, sleepEpoch, deferred, lsrs, slot, ready, dormant)
    }

    ghost function View(): Machine
      reads this
    {
      Abstract(State(), idle)
    }

    /** What holds between two kernel entries. */
    ghost predicate Valid()
      reads this
    {
      Agree(cfg, State()) && Inv(cfg, View())
    }

    /** A processor before any plugin has run: its idle task is ready, and nothing runs yet. */
    constructor (cfg: Config, idle: Id)
      ensures Valid() && Initial(cfg, View()) && View() == Bare(idle)
      ensures this.cfg == cfg && this.idle == idle && tcbs.Keys == {idle}
    {
      this.cfg, this.idle := cfg, idle;
      tcbs := map[idle := Tcb(Idle, Ready, 0, 0, 0, 0, 0, 0, 0, false)];
      running, slot, deferred, lsrs, ready, dormant := None, None, [], [], {}, {};
      repl, replEpoch, sleepers, sleepEpoch := [], 0, [], 0;
      new;
      InitialInv(cfg, View());
    }

    /**
     `kPluginInitTaskThread` and `kTickPluginTaskThreadInit`: a thread joins before anything runs. `allot` is its
     timeslice or its virtual deadline; `known` says that its domain and processor exist, `fits` that the policy takes
     its priority or frames and the architecture its parameters.
     */
    method AddThread(id: Id, budget: nat, period: nat, prio: nat, allot: nat, known: bool, fits: bool)
      returns (ok: bool)
      requires Valid() && Initial(cfg, View()) && period < WRAP
      modifies this
      ensures Valid() && Initial(cfg, View())
      ensures ok <==> known && fits && id !in old(tcbs) && budget > 0 && allot > 0
      ensures if ok
        then View() == TickSpec.Put(old(View()), id, NewThread(cfg, budget, period, prio, allot))
        else State() == old(State())
      ensures ok ==> id in View().tasks && var t := View().tasks[id];
        && t.kind.Thread? && t.state.Ready? && t.budget == t.current == budget && t.period == period
        && t.prio == prio && t.allot == allot && (cfg.policy.Edf? ==> t.link == allot)
    {
      hide Agree, Left, Ids, Insert, Inv, Initial, Abstract, Push, Lift, NewThread;
      if !known || id in tcbs || budget == 0 || allot == 0 || !fits {
        return false;
      }
      ghost var k := State();
      NewThreadIs(cfg, budget, period, prio, allot);
      JoinOk(cfg, k, idle, id, NewTcb(cfg, budget, period, prio, allot), NewThread(cfg, budget, period, prio, allot));
      if cfg.algorithm.Ds? && period > 0 {
        repl := Insert(repl, id, period, (replEpoch + period) % WRAP);
      }
      var b := Tcb(Thread, Ready, budget, period, budget, 0, prio, allot, 0, false);
      tcbs := tcbs[id := b.(link := Push(cfg, Lift(b, 0, 0)).link)];
      ready := ready + {id};
      assert State() == AddedKernel(cfg, k, id, NewTcb(cfg, budget, period, prio, allot));
      return true;
    }

    /** `kPluginInitTaskLsr`: a dormant LSR joins; `prio` is the priority class of its vector. */
    method AddLsr(id: Id, prio: nat, known: bool, fits: bool) returns (ok: bool)
      requires Valid() && Initial(cfg, View())
      modifies this
      ensures Valid() && Initial(cfg, View())
      ensures ok <==> known && fits && id !in old(tcbs)
      ensures if ok then View() == TickSpec.Put(old(View()), id, NewLsr(prio)) else State() == old(State())
    {
      hide Agree, Left, Ids, Inv, Initial, Abstract;
      if !known || id in tcbs || !fits {
        return false;
      }
      ghost var k := State();
      var b := Tcb(Lsr, LsrDormant, 0, 0, 0, 0, prio, 0, 0, false);
      JoinOk(cfg, k, idle, id, b, NewLsr(prio));
      dormant := dormant + {id};
      tcbs := tcbs[id := b];
      assert State() == AddedKernel(cfg, k, id, b);
      return true;
    }

    /** `kTickTaskLoadNextState` */
    method LoadNextState(id: Id, next: Tasks.State)
      requires id in tcbs && LagOk(tcbs[id])
      modifies this
      ensures State() == if old(tcbs[id]).state == next then old(State()) else Load(cfg, old(State()), id, next)
      ensures next.Running? ==> ready == old(ready)
    {
      var b := tcbs[id];
      if b.state == next {
        return;
      }
      b := b.(state := next);
      match next {
        case Ready =>
          b := b.(link := Push(cfg, Lift(b, 0, 0)).link);
          if b.kind.Thread? {
            ready := ready + {id};
          }
        case Running =>
          running := Some(id);
        case Throttled =>
          if cfg.algorithm.Bcs? {
            var p := b.period;
            if b.lag {
              p := p - (b.sleepTicks - 1);
              b := b.(lag := false);
            }
            repl := Insert(repl, id, p, (replEpoch + p) % WRAP);
          }
        case LsrDormant =>
          dormant := dormant + {id};
        case DefYield =>
          deferred := [id] + deferred;
        case DefThrottle =>
          deferred := [id] + deferred;
        case DefSleep =>
          deferred := [id] + deferred;
        case DefPending =>
          slot := Some(id);
          deferred := [id] + deferred;
        case Sleep =>
          sleepers := Insert(sleepers, id, b.sleepTicks, (sleepEpoch + b.sleepTicks) % WRAP);
        case Pending =>
          slot := Some(id);
        case LsrPending =>
          lsrs := [id] + lsrs;
        case Failure =>
      }
      tcbs := tcbs[id := b];
    }

    /** `kTickReplenishmentPeriod` */
    method ReplenishmentPeriod()
      requires Agree(cfg, State()) && ChainPositive(cfg, State())
      modifies this
      ensures Agree(cfg, State()) && tcbs.Keys == old(tcbs.Keys)
      ensures forall id :: id in tcbs ==> TaskAt(State(), id) == Replenish(cfg, TaskAt(old(State()), id))
      ensures running == old(running) && slot == old(slot) && lsrs == old(lsrs)
    {
      hide Agree, TaskAt, Left, Ids, ReplenishFront, Load, Replenish;
      ghost var k0 := State();
      TickChain(cfg, k0);
      hide ChainPositive;
      repl := DeltaSeq.Tick(repl);
      replEpoch := (replEpoch + 1) % WRAP;
      ghost var from := State();
      ghost var done := {};
      while repl != [] && repl[0].delta == 0
        invariant Between(cfg, Replenishing, from, State(), done)
        invariant Expired(State()) == Expired(from) - done && done <= Expired(from)
        invariant running == from.running && slot == from.slot && lsrs == from.lsrs
        decreases Expired(from) - done
      {
        ReplenishStep(cfg, from, State(), done);
        done := done + {repl[0].id};
        ReplenishOne();
      }
      ReplenishAll(cfg, k0, from, State(), done);
    }

    /** The body of the loop above. */
    method ReplenishOne()
      requires repl != [] && repl[0].id in tcbs && LagOk(tcbs[repl[0].id]) && OnChain(cfg, tcbs[repl[0].id])
      modifies this
      ensures State() == ReplenishFront(cfg, old(State()))
      ensures running == old(running) && slot == old(slot) && lsrs == old(lsrs)
    {
      var id := repl[0].id;
      repl := repl[1..];
      tcbs := tcbs[id := tcbs[id].(current := tcbs[id].budget)];
      if cfg.algorithm.Bcs? {
        LoadNextState(id, Ready);
      } else {
        var p := tcbs[id].period;
        repl := Insert(repl, id, p, (replEpoch + p) % WRAP);
        if tcbs[id].state.Throttled? {
          LoadNextState(id, Ready);
        }
      }
    }

    /** `kTickHandleDeferredTicks` */
    method HandleDeferredTicks()
      requires Agree(cfg, State()) && DeferredAreTasks(State())
      modifies this
      ensures Agree(cfg, State()) && tcbs.Keys == old(tcbs.Keys)
      ensures forall id :: id in tcbs ==> TaskAt(State(), id) == ChargeDeferred(cfg, TaskAt(old(State()), id))
      ensures running == old(running) && lsrs == old(lsrs)
      ensures slot == if old(slot).Some? && old(slot).value in tcbs && old(tcbs)[old(slot).value].state.DefPending?
                         && !tcbs[old(slot).value].state.Pending? then None else old(slot)
      ensures cfg.algorithm.Ds? ==> repl == old(repl)
    {
      ghost var from := State();
      ghost var n := 0;
      assert from.deferred[0..] == from.deferred;
      hide Agree, TaskAt, Left, Ids, DeferredFront, ChargeDeferred, DeferredAreTasks;
      while deferred != []
        invariant Drained(cfg, from, State(), n)
        decreases |deferred|
      {
        DrainStep(cfg, from, State(), n);
        DeferredOne();
        n := n + 1;
      }
      DrainAll(cfg, from, State());
    }

    /** The body of the loop above. */
    method DeferredOne()
      requires deferred != [] && TopIsTask(State()) && !tcbs[deferred[0]].lag && Deferred(tcbs[deferred[0]].state)
      modifies this
      ensures State() == DeferredFront(cfg, old(State()))
    {
      hide Load, Callback, Left, ThrottleTimeLeft, Ids, ThreadFront;
      var id := deferred[0];
      deferred := deferred[1..];
      if tcbs[id].kind.Idle? {
        RunCallbacks(id);
        LoadNextState(id, Pending);
      } else {
        DeferredThread(id);
      }
    }

    /** The charge, the callbacks, and where the thread goes. */
    method DeferredThread(id: Id)
      requires id in tcbs && !tcbs[id].lag && Deferred(tcbs[id].state) && 0 < tcbs[id].current
      modifies this
      ensures State() == ThreadFront(cfg, old(State()), id)
    {
      hide Load, Callback, Left, ThrottleTimeLeft, Ids;
      var b := tcbs[id];
      assert 0 < b.current;
      var spent := if b.state.DefThrottle? then 0 else b.current - 1;
      tcbs := tcbs[id := b.(current := spent)];
      if b.state.DefSleep? {
        RunCallbacks(id);
        assert tcbs == old(tcbs)[id := tcbs[id]];
        LoadNextState(id, Sleep);
        return;
      }
      var next := if b.state.DefPending? then Pending else Ready;
      if spent == 0 {
        var throttled := OutOfBudget(id);
        if throttled {
          next := Throttled;
        }
      }
      RunCallbacks(id);
      assert tcbs == old(tcbs)[id := tcbs[id]];
      LoadNextState(id, next);
    }

    /** The budget has run out: the thread is throttled and out of the pending slot, or gets its next budget at once. */
    method OutOfBudget(id: Id) returns (throttled: bool)
      requires id in tcbs
      modifies this`tcbs, this`slot
      ensures throttled <==>
        old(tcbs[id]).period > 0 && (cfg.algorithm.Ds? ==> ThrottleTimeLeft(repl, replEpoch, id) > 1)
      ensures slot == if throttled && old(tcbs[id]).state.DefPending? then None else old(slot)
      ensures tcbs ==
        old(tcbs)[id := if throttled then old(tcbs[id]) else old(tcbs[id]).(current := old(tcbs[id]).budget)]
    {
      var b := tcbs[id];
      throttled := b.period > 0;
      if cfg.algorithm.Ds? {
        throttled := throttled && ThrottleTimeLeft(repl, replEpoch, id) > 1;
      }
      if throttled {
        if b.state.DefPending? {
          slot := None;
        }
      } else {
        tcbs := tcbs[id := b.(current := b.budget)];
      }
    }

    /** `kTickTaskRunCallbacks`: the policy's callback updates the task's own link, and may ask for its time left. */
    method RunCallbacks(id: Id)
      requires id in tcbs
      modifies this`tcbs
      ensures tcbs == old(tcbs)[id := Called(cfg, old(State()), id, old(tcbs[id]))]
    {
      var b := tcbs[id];
      var left := 0;
      if cfg.algorithm.Ds? && b.period > 0 {
        left := ThrottleTimeLeft(repl, replEpoch, id);
      }
      tcbs := tcbs[id := b.(link := Callback(cfg, Lift(b, left, 0)).link)];
    }

    /** `kTickRunningTask` */
    method ChargeRunningTask()
      requires Agree(cfg, State()) && running.Some?
      requires running.value in tcbs && (tcbs[running.value].kind.Thread? ==> 0 < tcbs[running.value].current)
      modifies this`tcbs
      ensures Agree(cfg, State()) && tcbs.Keys == old(tcbs.Keys)
      ensures forall id :: id in tcbs ==> TaskAt(State(), id) == ChargeRunning(cfg, TaskAt(old(State()), id))
    {
      hide Agree, Left, Ids, ThrottleTimeLeft, Callback, ChargeRunning;
      var id := running.value;
      ChargeRunningAgrees(cfg, State(), id);
      var b := tcbs[id];
      if b.kind.Thread? {
        assert 0 < b.current;
        var left := b.current - 1;
        var shouldThrottle := b.period > 0;
        if cfg.algorithm.Ds? {
          shouldThrottle := shouldThrottle && ThrottleTimeLeft(repl, replEpoch, id) > 1;
        }
        tcbs := tcbs[id := b.(current := if left == 0 && !shouldThrottle then b.budget else left)];
      }
      RunCallbacks(id);
      assert tcbs == old(tcbs)[id := tcbs[id]];
    }

    /** `kTickSleepPeriod` */
    method SleepPeriod()
      requires Agree(cfg, State())
      requires forall id :: id in tcbs && tcbs[id].state.Sleep? ==> 0 < tcbs[id].sleepTicks && 0 < tcbs[id].budget
      modifies this
      ensures Agree(cfg, State()) && tcbs.Keys == old(tcbs.Keys)
      ensures forall id :: id in tcbs ==> TaskAt(State(), id) == SleepPhase(cfg, TaskAt(old(State()), id))
      ensures running == old(running) && slot == old(slot) && lsrs == old(lsrs)
    {
      hide Agree, TaskAt, Left, Ids, WakeFront, Load, SleepPhase, Wake;
      ghost var k0 := State();
      TickSleepers(cfg, k0);
      sleepers := DeltaSeq.Tick(sleepers);
      sleepEpoch := (sleepEpoch + 1) % WRAP;
      ghost var from := State();
      ghost var done := {};
      while sleepers != [] && sleepers[0].delta == 0
        invariant Between(cfg, Waking, from, State(), done)
        invariant Awake(State()) == Awake(from) - done && done <= Awake(from)
        invariant running == from.running && slot == from.slot && lsrs == from.lsrs
        decreases Awake(from) - done
      {
        WakeStep(cfg, from, State(), done);
        done := done + {sleepers[0].id};
        WakeOne();
      }
      WakeAll(cfg, k0, from, State(), done);
    }

    /** The body of the loop above. */
    method WakeOne()
      requires sleepers != [] && sleepers[0].id in tcbs
      requires WakeOk(tcbs[sleepers[0].id]) && tcbs[sleepers[0].id].state.Sleep?
      modifies this
      ensures State() == WakeFront(cfg, old(State()))
    {
      hide Load;
      var id := sleepers[0].id;
      sleepers := sleepers[1..];
      var b := tcbs[id];
      if b.current == 0 {
        if cfg.algorithm.Bcs? {
          if b.period >= b.sleepTicks {
            b := b.(lag := true);
          } else {
            b := b.(current := b.budget);
          }
        } else if b.period == 0 {
          b := b.(current := b.budget);
        }
      }
      tcbs := tcbs[id := b];
      LoadNextState(id, if b.current == 0 then Throttled else Ready);
    }

    // ----------------------------------------------------------------------
    // The policy: any answer the contract allows.

    method PolicyTransition()
      modifies this`tcbs
      ensures tcbs == map id | id in old(tcbs) :: old(tcbs)[id].(link := Transition(cfg, TaskAt(old(State()), id)).link)
    {
      tcbs := map id | id in tcbs :: tcbs[id].(link := Transition(cfg, TaskAt(State(), id)).link);
    }

    /** `sameTick`: no tick has passed since the running task was last running. */
    method PolicyShouldReschedule(sameTick: bool) returns (resched: bool)
      requires Agree(cfg, State()) && Wf(View()) && running.Some? && !tcbs[running.value].kind.Lsr?
      requires sameTick && tcbs[running.value].kind.Idle? ==> ready == {}
      modifies this`tcbs
      ensures ReschedOk(cfg, Contract, old(View()), resched, sameTick)
      ensures Agree(cfg, State())
      ensures View() == if resched then old(View()) else Keep(cfg, old(View()))
      ensures tcbs.Keys == old(tcbs.Keys) && (resched ==> tcbs == old(tcbs))
    {
      hide Agree, Keep, ReadySet;
      ReadyIs(cfg, State(), idle);
      if ready == {} {
        resched := false;
      } else if tcbs[running.value].kind.Idle? {
        resched := true;
      } else if sameTick {
        resched := false;
      } else {
        resched := *;
      }
      if !resched {
        KeepRefines(cfg, State(), idle);
        tcbs := KeptKernel(cfg, State()).tcbs;
      }
    }

    method PolicyPop() returns (next: Id)
      requires Agree(cfg, State()) && Inv(cfg, View()) && running.None? && slot.None?
      modifies this`tcbs, this`ready
      ensures next in old(tcbs) && old(tcbs)[next].state.Ready? && NextOk(cfg, Contract, old(View()), next)
      ensures State() == PoppedKernel(cfg, old(State()), next)
    {
      ReadyIs(cfg, State(), idle);
      if ready == {} {
        next := idle;
      } else {
        next :| next in ready;
      }
      PoppedIsReady(cfg, View(), next);
      hide Agree, Fixup, Left, Popped;
      var k := PoppedKernel(cfg, State(), next);
      tcbs, ready := k.tcbs, k.ready;
    }

    // ----------------------------------------------------------------------
    // Kernel entries.

    /** The running task leaves (`kTickPrepareLeaveRunningState`, `kTickTaskLoadNextState`). */
    method LeaveRunning(next: Tasks.State)
      requires Agree(cfg, State()) && Wf(View()) && running.Some?
      requires !next.Running? && !next.Sleep? && !next.Pending? && (Deferred(next) ==> slot.None?)
      modifies this
      ensures Agree(cfg, State()) && View() == Leave(cfg, old(View()), next)
      ensures lsrs == if next.LsrPending? then [old(running).value] + old(lsrs) else old(lsrs)
      ensures running.None? && slot == (if next.DefPending? then old(running) else old(slot))
      ensures tcbs.Keys == old(tcbs.Keys)
    {
      RunningKnown(cfg, State());
      LeaveRefines(cfg, State(), idle, next);
      hide Agree, Load, View;
      var id := running.value;
      running := None;
      LoadNextState(id, next);
    }

    /** `kTickSchedTaskPop`, and the popped task runs. */
    method RunNext() returns (ghost c: Choice)
      requires Agree(cfg, State()) && Inv(cfg, View()) && running.None? && slot.None?
      modifies this
      ensures NextOk(cfg, Contract, old(View()), c.next) && c.next in old(tcbs) && c.resched
      ensures Agree(cfg, State()) && View() == Dispatch(cfg, old(View()), c.next)
    {
      ghost var k := State();
      var next := PolicyPop();
      c := Choice(true, next);
      DispatchRefines(cfg, k, idle, next);
      hide Agree, Load, FixedKernel, Inv;
      LoadNextState(next, Running);
    }

    /** The running task is replaced at a rescheduling point. */
    method Replace(next: Tasks.State) returns (ghost c: Choice)
      requires Agree(cfg, State()) && Inv(cfg, View(), true) && running.Some? && next in {Ready, Throttled}
      requires MayLeave(View(), next) && !RunningKind(View(), Lsr)
      modifies this
      ensures c.resched && c.next in old(tcbs) && NextOk(cfg, Contract, Leave(cfg, old(View()), next), c.next)
      ensures Agree(cfg, State()) && View() == Dispatch(cfg, Leave(cfg, old(View()), next), c.next)
    {
      hide Agree, Leave, Dispatch, MayLeave, TasksOk, Placed;
      LeaveOk(cfg, View(), next);
      assert slot.None?;
      LeaveRunning(next);
      c := RunNext();
    }

    /** `kTickReschedulingPoint` */
    method ReschedulingPoint(sameTick: bool) returns (ghost c: Choice)
      requires Agree(cfg, State()) && Inv(cfg, View(), true) && running.Some?
      requires sameTick && running == Some(idle) ==> ready == {}
      modifies this
      ensures c.next in old(tcbs) && PointOk(cfg, Contract, old(View()), c, sameTick)
      ensures Agree(cfg, State()) && View() == Point(cfg, old(View()), c)
    {
      hide Agree, TasksOk, Placed, ReschedOk, Leave, Dispatch, Keep, Load, ReadySet;
      c := Choice(false, idle);
      var b := tcbs[running.value];
      var budgetDone := b.kind.Thread? && b.current == 0;
      var resched := false;
      assert Wf(View());
      PointMayLeave(cfg, View());
      assert idle in tcbs;
      if !budgetDone && !b.kind.Lsr? {
        resched := PolicyShouldReschedule(sameTick);
      }
      if budgetDone || resched {
        c := Replace(if resched then Ready else Throttled);
      }
    }

    /** The phases of `kTickTransition`, up to the rescheduling point. */
    method RunPhases()
      requires Valid() && running.Some?
      modifies this
      ensures Agree(cfg, State()) && View() == Phases(cfg, old(View()))
    {
      hide Agree, Inv, Left, Ids, Stage, Replenish, ChargeDeferred, ChargeRunning, SleepPhase, Transition;
      hide ChainPositive, DeferredAreTasks, TaskAt, Abstract;
      ghost var k0 := State();
      PolicyTransition();
      StartOfTick(cfg, k0, State(), idle);
      ghost var s := State();
      if cfg.algorithm.Bcs? {
        ReplenishmentPeriod();
      }
      StageOne(cfg, k0, s, State());
      ghost var k1 := State();
      ReadyToDrain(cfg, k0, k1, idle);
      HandleDeferredTicks();
      ghost var k2 := State();
      NextStage(cfg, 1, k0, k1, k2, idle);
      ReadyToCharge(cfg, k0, k2, idle, running.value);
      ChargeRunningTask();
      ghost var k3 := State();
      NextStage(cfg, 2, k0, k2, k3, idle);
      if cfg.algorithm.Ds? {
        KindsKept(cfg, k0, s, 0);
        KindsKept(cfg, k0, k3, 3);
        ChainPositiveSame(cfg, s, k3);
        ReplenishmentPeriod();
      }
      ghost var k4 := State();
      NextStage(cfg, 3, k0, k3, k4, idle);
      ReadyToSleep(cfg, k0, k4, idle);
      SleepPeriod();
      NextStage(cfg, 4, k0, k4, State(), idle);
      PhasesDone(cfg, idle, k0, k1, k2, State());
    }

    /** `kTickTransition`: one tick. */
    method TickTransition() returns (ghost c: Choice)
      requires Valid() && running.Some?
      modifies this
      ensures Valid()
      ensures Enabled(old(View()), Tick(c)) && Legal(cfg, Contract, old(View()), Tick(c))
      ensures View() == Apply(cfg, old(View()), Tick(c))
    {
      hide Agree, TasksOk, Placed, Phases, Point, PointOk;
      ghost var m := View();
      PhasesOk(cfg, m);
      RunPhases();
      c := ReschedulingPoint(false);
      StepInv(cfg, m, Tick(c));
    }

    /** `kTickReschedule` with nothing running. */
    method ResumeNext() returns (ghost c: Choice)
      requires Valid() && running.None?
      modifies this
      ensures c.next in old(tcbs) && ResumeOk(cfg, Contract, old(View()), c)
      ensures Valid() && View() == Resume(cfg, old(View()), c)
    {
      hide Agree, TasksOk, Placed, Point, PointOk, NextOk, Dispatch, Load, Left, Ids, PointOk;
      ghost var m := View();
      c := Choice(false, idle);
      if lsrs != [] {
        RunLsrRefines(cfg, State(), idle);
        RunLsrOk(cfg, m);
        var lsr := lsrs[0];
        lsrs := lsrs[1..];
        NotRunningYet(cfg, m, lsr);
        LoadNextState(lsr, Running);
        return;
      }
      if slot.None? {
        c := RunNext();
        DispatchOk(cfg, m, c.next);
        return;
      }
      RestoreRefines(cfg, State(), idle);
      RestoreOk(cfg, m);
      SlotIdle(cfg, State(), idle);
      var id := slot.value;
      var sameTick := tcbs[id].state.DefPending?;
      slot := None;
      if sameTick {
        deferred := deferred[1..];
      }
      LoadNextState(id, Running);
      c := ReschedulingPoint(sameTick);
      PointInv(cfg, Restore(m), c, sameTick);
    }

    /** `kTickReschedule` */
    method TickReschedule() returns (ghost c: Choice)
      requires Valid()
      modifies this
      ensures Valid()
      ensures Enabled(old(View()), Reschedule(c)) && Legal(cfg, Contract, old(View()), Reschedule(c))
      ensures View() == Apply(cfg, old(View()), Reschedule(c))
    {
      hide Agree, TasksOk, Placed, Resume, ResumeOk, Leave, MayLeave, NextOk;
      ghost var m := View();
      c := Choice(false, idle);
      if running.Some? {
        if tcbs[running.value].kind.Lsr? {
          return;
        }
        if lsrs == [] {
          return;
        }
        assert slot.None?;
        PreemptMayLeave(cfg, m);
        InvMid(cfg, m);
        LeaveOk(cfg, m, DefPending);
        LeaveRunning(DefPending);
        ghost var left := View();
        c := ResumeNext();
        ResumeLsr(cfg, left, c);
        return;
      }
      c := ResumeNext();
    }

    /** `kTickSwitchRunningTask` */
    method SwitchRunningTask(next: Tasks.State) returns (ghost c: Choice)
      requires Valid() && running.Some? && MayLeave(View(), next)
      requires !next.Ready? && !next.Throttled? && !next.DefPending?
      modifies this
      ensures c.next in old(tcbs) && ResumeOk(cfg, Contract, Leave(cfg, old(View()), next), c)
      ensures Valid() && View() == Resume(cfg, Leave(cfg, old(View()), next), c)
    {
      hide Agree, TasksOk, Placed, Resume, ResumeOk, Leave;
      InvMid(cfg, View());
      LeaveOk(cfg, View(), next);
      SwitchSlot(cfg, View(), next);
      LeaveRunning(next);
      c := ResumeNext();
    }

    /** `kTickLsrPush`: the interrupt has taken a dormant LSR off its vector. */
    method LsrPush(l: Id)
      requires Valid() && Enabled(View(), Event.LsrPush(l))
      modifies this
      ensures Valid() && View() == Apply(cfg, old(View()), Event.LsrPush(l))
    {
      hide Agree, TasksOk, Placed, Load, PushLsr;
      PushLsrRefines(cfg, State(), idle, l);
      LsrPushOk(cfg, View(), l);
      dormant := dormant - {l};
      LoadNextState(l, LsrPending);
    }

    /** `kTickLsrPushCurrent` */
    method LsrPushCurrent()
      requires Valid()
      modifies this
      ensures Valid() && View() == Apply(cfg, old(View()), PushCurrent)
    {
      hide Agree, TasksOk, Placed, Leave, MayLeave;
      ghost var m := View();
      if running.None? {
        return;
      }
      PreemptMayLeave(cfg, m);
      var next := if tcbs[running.value].kind.Lsr? then LsrPending else DefPending;
      InvMid(cfg, m);
      LeaveOk(cfg, m, next);
      LeaveRunning(next);
    }

    /** A control that switches away from the running task. */
    method Switch(ctrl: Ctrl) returns (ghost e: Event)
      requires Valid() && running.Some? && !ctrl.SleepMs? && Allowed(ctrl, 0, tcbs[running.value].kind)
      modifies this
      ensures Valid() && EventOf(ctrl, 0, 1, e)
      ensures Enabled(old(View()), e) && Legal(cfg, Contract, old(View()), e) && View() == Apply(cfg, old(View()), e)
    {
      hide Agree, TasksOk, Placed, Resume, ResumeOk, Leave, MayLeave;
      SwitchMayLeave(cfg, View(), SwitchEvent(ctrl, Choice(false, idle)));
      var next := match ctrl
        case Yield => DefYield
        case Throttle => DefThrottle
        case LsrDone => LsrDormant
        case _ => Failure;
      ghost var c := SwitchRunningTask(next);
      e := SwitchEvent(ctrl, c);
    }

    /** The calling thread sleeps for `ticks` ticks, the current one included. */
    method FallAsleep(ticks: nat) returns (ghost e: Event)
      requires Valid() && running.Some? && tcbs[running.value].kind.Thread? && 0 < ticks < WRAP
      modifies this
      ensures Valid() && e.SleepFor? && e.ticks == ticks
      ensures Enabled(old(View()), e) && Legal(cfg, Contract, old(View()), e) && View() == Apply(cfg, old(View()), e)
    {
      hide Agree, TasksOk, Placed, Resume, ResumeOk, Leave, MayLeave;
      ghost var m := View();
      var id := running.value;
      e := SleepFor(ticks, Choice(false, idle));
      RunningKnown(cfg, State());
      SleepAgrees(cfg, State(), idle, id, ticks);
      PutSleepOk(cfg, m, e);
      SwitchMayLeave(cfg, m, e);
      tcbs := tcbs[id := tcbs[id].(sleepTicks := ticks)];
      ghost var c := SwitchRunningTask(DefSleep);
      e := SleepFor(ticks, c);
    }

    /**
     `kSysSchedCtrl`: the type guards, and the length of a sleep in ticks, rounded up. `tickMs` is CONFIG_KTICK_MS.
     A refused control changes nothing, and neither does a sleep of no time.
     */
    method SchedCtrl(ctrl: Ctrl, val: nat, tickMs: nat) returns (ok: bool, ghost e: Event)
      requires Valid() && running.Some? && 0 < tickMs
      modifies this
      ensures Valid()
      ensures ok <==> Allowed(ctrl, val, old(tcbs)[old(running).value].kind)
      ensures !ok || (ctrl.SleepMs? && val == 0) ==> State() == old(State())
      ensures ok && !(ctrl.SleepMs? && val == 0) ==>
        && EventOf(ctrl, val, tickMs, e)
        && Enabled(old(View()), e) && Legal(cfg, Contract, old(View()), e) && View() == Apply(cfg, old(View()), e)
    {
      hide Apply, Legal, Enabled, Agree, Inv, Abstract, SleepTicks, RoundsUp;
      e := PushCurrent;
      RunningKnown(cfg, State());
      ok := Allowed(ctrl, val, tcbs[running.value].kind);
      if !ok || (ctrl.SleepMs? && val == 0) {
        return;
      }
      if ctrl.SleepMs? {
        SleepTicksOk(val, tickMs);
        e := FallAsleep(SleepTicks(val, tickMs));
      } else {
        e := Switch(ctrl);
      }
    }
  }

  datatype Ctrl = Yield | Throttle | LsrDone | Fail | SleepMs

  predicate Allowed(ctrl: Ctrl, val: nat, kind: Kind) {
    match ctrl
    case LsrDone => kind.Lsr?
    case Fail => kind.Thread? || kind.Lsr?
    case SleepMs => kind.Thread? && val < WRAP
    case _ => kind.Thread?
  }

  function SwitchEvent(ctrl: Ctrl, c: Choice): Event
    requires !ctrl.SleepMs?
  {
    match ctrl
    case Yield => Event.Yield(c)
    case Throttle => Event.Throttle(c)
    case LsrDone => Event.LsrDone(c)
    case Fail => Event.Fail(c)
  }

  /** The event a control call stands for. */
  predicate EventOf(ctrl: Ctrl, val: nat, tickMs: nat, e: Event) {
    match ctrl
    case Yield => e.Yield?
    case Throttle => e.Throttle?
    case LsrDone => e.LsrDone?
    case Fail => e.Fail?
    case SleepMs => e.SleepFor? && RoundsUp(e.ticks, tickMs, val)
  }

  /** `n` ticks are the fewest that last at least `val` milliseconds. */
  predicate RoundsUp(n: nat, tickMs: nat, val: nat) {
    (n - 1) * tickMs < val <= n * tickMs
  }

  function SleepTicks(val: nat, tickMs: nat): nat
    requires 0 < tickMs
  {
    val / tickMs + if val % tickMs != 0 then 1 else 0
  }

  /** The shortest number of ticks that is no shorter than the sleep asked for. */
  lemma SleepTicksOk(val: nat, tickMs: nat)
    requires 0 < tickMs && 0 < val < WRAP
    ensures var n := SleepTicks(val, tickMs); 0 < n < WRAP && RoundsUp(n, tickMs, val)
  {
    var q, r := val / tickMs, val % tickMs;
    Times(q, tickMs);
    RoundUp(q, r, tickMs, val);
  }

  lemma Times(q: nat, t: nat)
    requires 0 < t
    ensures q <= q * t && (q + 1) * t == q * t + t && (q - 1) * t == q * t - t
  {
    assert q * t - q == q * (t - 1);
  }

  lemma RoundUp(q: nat, r: nat, t: nat, val: nat)
    requires 0 < val < WRAP && r < t && val == q * t + r && q <= q * t
    requires (q + 1) * t == q * t + t && (q - 1) * t == q * t - t
    ensures var n := q + if r != 0 then 1 else 0; 0 < n < WRAP && (n - 1) * t < val <= n * t
  {
    assert q == 0 ==> q * t == 0;
  }
}
