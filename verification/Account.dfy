/**
 Exact accounting of budgets, and how long threads stay away (src/workhorse/kTick/kTick.c:289-487). Supply bounds what a
 thread can get from above; here it is shown to get all of it.
 */
module Account {
  import opened Tasks
  import opened TickSpec
  import opened TickInv
  import opened ThreadView
  import opened Charging
  import opened Supply

  // ------------------------------------------------------------------------
  // Which states only a tick, or nothing, can end.

  /** Off the processor until the next tick at least, and in nobody's queue. */
  predicate Parked(s: State) {
    s.DefYield? || s.DefThrottle? || s.DefSleep? || s.Sleep? || s.Throttled? || s.Failure?
  }

  /** Coming back from an LSR, or picking the next task: ready, pending and waiting tasks move, and no others. */
  lemma ResumeStates(cfg: Config, m: Machine, c: Choice, id: Id)
    requires Inv(cfg, m) && m.running.None? && c.next in m.tasks && ResumeOk(cfg, Contract, m, c)
    requires id in m.tasks && (Parked(m.tasks[id].state) || m.tasks[id].state.LsrDormant?)
    ensures Resume(cfg, m, c).tasks[id].state == m.tasks[id].state
  {
    hide TaskOk, ReadySet;
    if m.lsrs != [] {
      assert m.lsrs[0] in m.lsrs;
    } else if m.slot.None? {
      PickStates(cfg, m, c.next, id);
    } else {
      RestoreOk(cfg, m);
      PointStates(cfg, Restore(m), c, m.tasks[m.slot.value].state.DefPending?, id);
    }
  }

  lemma PickStates(cfg: Config, m: Machine, next: Id, id: Id)
    requires Inv(cfg, m) && m.running.None? && m.slot.None? && NextOk(cfg, Contract, m, next)
    requires id in m.tasks && !m.tasks[id].state.Ready?
    ensures next in m.tasks && Dispatch(cfg, m, next).tasks[id].state == m.tasks[id].state
  {
    InvMid(cfg, m);
    PoppedIsReady(cfg, m, next);
  }

  lemma PointStates(cfg: Config, m: Machine, c: Choice, sameTick: bool, id: Id)
    requires Inv(cfg, m, true) && m.running.Some? && c.next in m.tasks && PointOk(cfg, Contract, m, c, sameTick)
    requires id in m.tasks && !m.tasks[id].state.Running? && !m.tasks[id].state.Ready?
    ensures Point(cfg, m, c).tasks[id].state == m.tasks[id].state
  {
    var t := m.tasks[m.running.value];
    if t.kind.Thread? && t.current == 0 {
      LeaveOk(cfg, m, Throttled);
      PickStates(cfg, Leave(cfg, m, Throttled), c.next, id);
    } else if !t.kind.Lsr? && c.resched {
      LeaveOk(cfg, m, Ready);
      PickStates(cfg, Leave(cfg, m, Ready), c.next, id);
    } else if !t.kind.Lsr? {
      KeepIs(cfg, m);
    }
  }

  /** No kernel entry but the tick moves a task out of such a state, and only a push moves a dormant LSR. */
  lemma StepStates(cfg: Config, m: Machine, e: Event, id: Id)
    requires Inv(cfg, m) && Enabled(m, e) && Legal(cfg, Contract, m, e) && !e.Tick?
    requires id in m.tasks && (Parked(m.tasks[id].state) || (m.tasks[id].state.LsrDormant? && e != LsrPush(id)))
    ensures Apply(cfg, m, e).tasks[id].state == m.tasks[id].state
  {
    hide Resume, ResumeOk, TasksOk;
    if e.Reschedule? && m.running.None? {
      ResumeStates(cfg, m, e.c, id);
    } else if IsSwitch(e) {
      SwitchedOk(cfg, m, e);
      ResumeStates(cfg, Switched(cfg, m, e), e.c, id);
    } else if e.Reschedule? && !m.tasks[m.running.value].kind.Lsr? && m.lsrs != [] {
      assert m.lsrs[0] in m.lsrs;
    }
  }

  /** Where a control call leaves the task that makes it. */
  lemma SwitchState(cfg: Config, m: Machine, e: Event)
    requires Inv(cfg, m) && Enabled(m, e) && Legal(cfg, Contract, m, e) && IsSwitch(e)
    ensures m.running.Some? && Apply(cfg, m, e).tasks[m.running.value].state == Target(e)
  {
    hide Resume, ResumeOk, TasksOk;
    SwitchedOk(cfg, m, e);
    ResumeStates(cfg, Switched(cfg, m, e), e.c, m.running.value);
  }

  // ------------------------------------------------------------------------
  // Every tick of budget is there to be used.

  /** The thread never throttles itself during the run. */
  ghost predicate Willing(cfg: Config, rule: Rule, m: Machine, es: seq<Event>, id: Id)
    requires Wf(m) && Run(cfg, rule, m, es)
    decreases es
  {
    es == [] ||
    (!(es[0].Throttle? && m.running == Some(id)) && Willing(cfg, rule, Apply(cfg, m, es[0]), es[1..], id))
  }

  /** The tick replenishes a deferrable server from the chain. */
  predicate Refills(cfg: Config, o: Obs) {
    cfg.algorithm.Ds? && o.tick && o.before.cool == 1
  }

  /** No tick of the view charges for a voluntary throttle, and none replenishes. */
  ghost predicate Plain(cfg: Config, v: seq<Obs>) {
    forall i :: 0 <= i < |v| ==> !v[i].before.state.DefThrottle? && !Refills(cfg, v[i])
  }

  /** What one tick costs a thread that does not throttle itself. */
  lemma TickSpends(cfg: Config, t: Task)
    requires TaskOk(cfg, t, false) && t.kind.Thread? && t.current > 0 && !t.state.DefThrottle?
    requires cfg.algorithm.Ds? ==> t.cool != 1
    ensures !Charged(t) ==> TickTask(cfg, t).current == t.current
    ensures Charged(t) && t.current > 1 ==> TickTask(cfg, t).current == t.current - 1
    ensures Charged(t) && t.current == 1 && t.period > 0 ==> TickTask(cfg, t).current == 0
  {
    hide Callback, Push, Transition;
  }

  lemma ObsSpends(cfg: Config, o: Obs)
    requires ObsOk(cfg, o) && o.before.current > 0 && !o.before.state.DefThrottle? && !Refills(cfg, o)
    ensures o.after.budget == o.before.budget && o.after.period == o.before.period
    ensures !o.tick || !Charged(o.before) ==> o.after.current == o.before.current
    ensures o.tick && Charged(o.before) && o.before.current > 1 ==> o.after.current == o.before.current - 1
    ensures o.tick && Charged(o.before) && o.before.current == 1 && o.before.period > 0 ==> o.after.current == 0
  {
    hide TickTask;
    SameAccount(cfg, o);
    if o.tick {
      TickSpends(cfg, o.before);
    }
  }

  lemma {:induction false} AccountView(cfg: Config, t: Task, v: seq<Obs>)
    requires Chained(cfg, t, v) && Plain(cfg, v) && v != []
    requires Count(ChargeLog(v), 0, |ChargeLog(v)|) < t.current
    ensures v[|v| - 1].after.current == t.current - Count(ChargeLog(v), 0, |ChargeLog(v)|)
    decreases v
  {
    hide ObsOk, Charged, Refills;
    var rest := v[1..];
    CountLog(v);
    ObsSpends(cfg, v[0]);
    if rest != [] {
      assert forall i :: 0 <= i < |rest| ==> rest[i] == v[i + 1];
      AccountView(cfg, v[0].after, rest);
    }
  }

  lemma CountLog(v: seq<Obs>)
    requires v != []
    ensures Count(ChargeLog(v), 0, |ChargeLog(v)|) ==
      (if v[0].tick && Charged(v[0].before) then 1 else 0) + Count(ChargeLog(v[1..]), 0, |ChargeLog(v[1..])|)
  {
    var rest := ChargeLog(v[1..]);
    if v[0].tick {
      CountCons(Charged(v[0].before), rest, |rest|);
    } else {
      assert ChargeLog(v) == rest;
    }
  }

  /** A thread is in the state of an accepted throttle only after having asked for it. */
  lemma NoThrottle(cfg: Config, m: Machine, e: Event, id: Id)
    requires Inv(cfg, m) && Enabled(m, e) && Legal(cfg, Contract, m, e)
    requires id in m.tasks && m.tasks[id].kind.Thread? && !m.tasks[id].state.DefThrottle?
    requires !(e.Throttle? && m.running == Some(id))
    ensures !Apply(cfg, m, e).tasks[id].state.DefThrottle?
  {
    hide Apply, Legal, TickTask;
    if e.Tick? {
      TickMoves(cfg, m, e.c, id);
    } else if IsSwitch(e) && m.running == Some(id) {
      SwitchState(cfg, m, e);
    } else {
      NoThrottleElse(cfg, m, e, id);
    }
  }

  lemma NoThrottleElse(cfg: Config, m: Machine, e: Event, id: Id)
    requires Inv(cfg, m) && Enabled(m, e) && Legal(cfg, Contract, m, e) && !e.Tick?
    requires id in m.tasks && m.tasks[id].kind.Thread? && !m.tasks[id].state.DefThrottle?
    requires !(IsSwitch(e) && m.running == Some(id))
    ensures !Apply(cfg, m, e).tasks[id].state.DefThrottle?
  {
    hide Resume, ResumeOk, TasksOk, Placed, Enter;
    if e.Reschedule? && m.running.None? {
      NewThrottle(cfg, m, e.c, id);
    } else if IsSwitch(e) {
      NewThrottle(cfg, Switched(cfg, m, e), e.c, id);
    }
  }

  /** The policy and the way back from an LSR never throttle a thread that has not used its budget up. */
  lemma NewThrottle(cfg: Config, m: Machine, c: Choice, id: Id)
    requires Wf(m) && c.next in m.tasks && id in m.tasks && !m.tasks[id].state.DefThrottle?
    ensures !Resume(cfg, m, c).tasks[id].state.DefThrottle?
  {
    hide Enter, Popped, Fixup;
  }

  ghost predicate Unthrottled(v: seq<Obs>) {
    forall i :: 0 <= i < |v| ==> !v[i].before.state.DefThrottle?
  }

  lemma {:induction false} WillingView(cfg: Config, m: Machine, es: seq<Event>, id: Id)
    requires Inv(cfg, m) && Run(cfg, Contract, m, es) && Willing(cfg, Contract, m, es, id)
    requires id in m.tasks && m.tasks[id].kind.Thread? && !m.tasks[id].state.DefThrottle?
    ensures Unthrottled(View(cfg, Contract, m, es, id))
    decreases es
  {
    hide Apply, Legal, TasksOk, Placed;
    if es != [] {
      NoThrottle(cfg, m, es[0], id);
      StepInv(cfg, m, es[0]);
      SameKind(cfg, m, es[0], id);
      WillingView(cfg, Apply(cfg, m, es[0]), es[1..], id);
    }
  }

  lemma SameKind(cfg: Config, m: Machine, e: Event, id: Id)
    requires Inv(cfg, m) && Enabled(m, e) && Legal(cfg, Contract, m, e) && id in m.tasks && m.tasks[id].kind.Thread?
    ensures Apply(cfg, m, e).tasks[id].kind.Thread?
  {
    hide Apply, Legal, TickTask;
    StepOk(cfg, m, e, id);
  }

  /** How many ticks of a run the thread has paid for. */
  function Paid(cfg: Config, m: Machine, es: seq<Event>, id: Id): nat
    requires Wf(m) && Run(cfg, Contract, m, es) && id in m.tasks
  {
    var log := ChargeLog(View(cfg, Contract, m, es, id));
    Count(log, 0, |log|)
  }

  /** No tick of the run replenishes the thread's deferrable server. */
  ghost predicate Unrefilled(cfg: Config, m: Machine, es: seq<Event>, id: Id)
    requires Wf(m) && Run(cfg, Contract, m, es) && id in m.tasks
  {
    var v := View(cfg, Contract, m, es, id);
    forall i :: 0 <= i < |v| ==> !Refills(cfg, v[i])
  }

  /**
   Exact accounting, on every run and for both servers: whatever mix of running, preemption, yielding and sleeping lies
   between, a thread has what it had minus the ticks it paid for; it is not throttled, and nothing is taken from it,
   before it has been charged for all of it.
   */
  lemma BudgetKept(cfg: Config, m: Machine, es: seq<Event>, id: Id)
    requires Inv(cfg, m) && Run(cfg, Contract, m, es) && Willing(cfg, Contract, m, es, id)
    requires id in m.tasks && m.tasks[id].kind.Thread? && !m.tasks[id].state.DefThrottle?
    requires Unrefilled(cfg, m, es, id) && Paid(cfg, m, es, id) < m.tasks[id].current
    ensures var r := Exec(cfg, Contract, m, es).tasks[id];
      r.current == m.tasks[id].current - Paid(cfg, m, es, id) && !r.state.Throttled?
  {
    hide TasksOk, Placed, Apply, Legal, Chained, ChargeLog, Refills;
    ViewOk(cfg, m, es, id);
    LastView(cfg, m, es, id);
    WillingView(cfg, m, es, id);
    RunInv(cfg, m, es);
    if es != [] {
      AccountView(cfg, m.tasks[id], View(cfg, Contract, m, es, id));
    } else {
      NothingPaid(cfg, m, id);
    }
    StillThread(cfg, m, es, id);
  }

  lemma NothingPaid(cfg: Config, m: Machine, id: Id)
    requires Wf(m) && id in m.tasks
    ensures Paid(cfg, m, [], id) == 0
  {
  }

  lemma StillThread(cfg: Config, m: Machine, es: seq<Event>, id: Id)
    requires Inv(cfg, m) && Run(cfg, Contract, m, es) && id in m.tasks && m.tasks[id].kind.Thread?
    ensures var r := Exec(cfg, Contract, m, es).tasks[id];
      r.kind.Thread? && TaskOk(cfg, r, false) && (r.current > 0 ==> !r.state.Throttled?)
    decreases es
  {
    hide Apply, Legal;
    if es != [] {
      StepInv(cfg, m, es[0]);
      SameKind(cfg, m, es[0], id);
      StillThread(cfg, Apply(cfg, m, es[0]), es[1..], id);
    }
  }

  // ------------------------------------------------------------------------
  // How long a thread stays away.

  /**
   The ticks until a thread that cools down, sleeps or is about to is back. Sleeping without budget counts towards the
   cooldown: under BCS its period runs from the tick that spent the budget, under DS the chain goes on by itself.
   */
  function OutFor(cfg: Config, t: Task): int {
    if t.state.Throttled? then t.cool
    else if t.state.DefSleep? then
      if t.current > 1 || t.period == 0 then t.sleepTicks
      else Max(t.sleepTicks, if cfg.algorithm.Bcs? then t.period + 1 else t.cool)
    else if t.current > 0 then t.nap
    else match cfg.algorithm
      case Bcs => Max(t.nap, t.nap + t.period - (t.sleepTicks - 1))
      case Ds => Max(t.nap, t.cool)
  }

  predicate Out(t: Task) { t.state.Throttled? || t.state.Sleep? || t.state.DefSleep? }

  /** What is left of the budget once the tick a sleep starts in is paid for. */
  function Left(t: Task): nat
    requires t.state.DefSleep? ==> t.current > 0
  {
    if t.state.DefSleep? then t.current - 1 else t.current
  }

  /** What a tick makes of such a thread. */
  predicate Nearer(cfg: Config, t: Task, r: Task)
    requires t.state.DefSleep? ==> t.current > 0
    requires r.state.DefSleep? ==> r.current > 0
  {
    && OutFor(cfg, t) > 0
    && (OutFor(cfg, t) > 1 ==> Out(r) && OutFor(cfg, r) == OutFor(cfg, t) - 1)
    && (OutFor(cfg, t) == 1 ==> r.state.Ready? && r.current > 0)
    && !r.state.DefSleep? && (r.current == Left(t) || r.current == t.budget)
    && (cfg.algorithm.Bcs? && Left(t) > 0 ==> r.current == Left(t))
  }

  lemma OutTick(cfg: Config, t: Task)
    requires TaskOk(cfg, t, false) && t.kind.Thread? && Out(t) && !t.state.DefSleep?
    ensures !TickTask(cfg, t).state.DefSleep? && Nearer(cfg, t, TickTask(cfg, t))
  {
    hide Callback, Push, Transition;
  }

  lemma AsleepTick(cfg: Config, t: Task)
    requires TaskOk(cfg, t, false) && t.kind.Thread? && t.state.DefSleep?
    ensures !TickTask(cfg, t).state.DefSleep? && Nearer(cfg, t, TickTask(cfg, t))
  {
    hide Callback, Push, Transition;
  }

  /**
   The other half: the tick that charges a thread with a period for the last of its budget takes it off the processor,
   for a period under BCS and until the next replenishment under DS, or for the rest of its sleep if that is longer.
   */
  lemma UsedUp(cfg: Config, m: Machine, es: seq<Event>, id: Id, c: Choice)
    requires Inv(cfg, m) && Run(cfg, Contract, m, es) && Willing(cfg, Contract, m, es, id)
    requires id in m.tasks && m.tasks[id].kind.Thread? && !m.tasks[id].state.DefThrottle? && m.tasks[id].period > 0
    requires Unrefilled(cfg, m, es, id) && Paid(cfg, m, es, id) + 1 == m.tasks[id].current
    requires var n := Exec(cfg, Contract, m, es);
      && Enabled(n, Tick(c)) && Legal(cfg, Contract, n, Tick(c)) && Charged(n.tasks[id])
      && (cfg.algorithm.Ds? ==> n.tasks[id].cool > 1)
    ensures var n := Exec(cfg, Contract, m, es);
      var t, r := n.tasks[id], Apply(cfg, n, Tick(c)).tasks[id];
      && Out(r) && r.current == 0
      && OutFor(cfg, r) == Max(if t.state.DefSleep? then t.sleepTicks - 1 else 0,
           if cfg.algorithm.Bcs? then m.tasks[id].period else t.cool - 1)
  {
    hide TasksOk, Placed, Apply, Legal, View, ChargeLog, Refills, TickTask;
    BudgetKept(cfg, m, es, id);
    RunInv(cfg, m, es);
    StillThread(cfg, m, es, id);
    SamePeriod(cfg, m, es, id);
    StillWilling(cfg, m, es, id);
    LastCharge(cfg, Exec(cfg, Contract, m, es), id, c);
  }

  lemma {:induction false} SamePeriod(cfg: Config, m: Machine, es: seq<Event>, id: Id)
    requires Inv(cfg, m) && Run(cfg, Contract, m, es) && id in m.tasks && m.tasks[id].kind.Thread?
    ensures Exec(cfg, Contract, m, es).tasks[id].period == m.tasks[id].period
    decreases es
  {
    hide Apply, Legal, ObsOk;
    if es != [] {
      var n := Apply(cfg, m, es[0]);
      StepOk(cfg, m, es[0], id);
      SameAccount(cfg, Obs(es[0].Tick?, m.tasks[id], n.tasks[id], n.running == Some(id)));
      SameKind(cfg, m, es[0], id);
      SamePeriod(cfg, n, es[1..], id);
    }
  }

  lemma {:induction false} StillWilling(cfg: Config, m: Machine, es: seq<Event>, id: Id)
    requires Inv(cfg, m) && Run(cfg, Contract, m, es) && Willing(cfg, Contract, m, es, id)
    requires id in m.tasks && m.tasks[id].kind.Thread? && !m.tasks[id].state.DefThrottle?
    ensures !Exec(cfg, Contract, m, es).tasks[id].state.DefThrottle?
    decreases es
  {
    hide Apply, Legal;
    if es != [] {
      NoThrottle(cfg, m, es[0], id);
      StepInv(cfg, m, es[0]);
      SameKind(cfg, m, es[0], id);
      StillWilling(cfg, Apply(cfg, m, es[0]), es[1..], id);
    }
  }

  lemma LastCharge(cfg: Config, m: Machine, id: Id, c: Choice)
    requires Inv(cfg, m) && Enabled(m, Tick(c)) && Legal(cfg, Contract, m, Tick(c))
    requires id in m.tasks && Charged(m.tasks[id]) && m.tasks[id].current == 1 && m.tasks[id].period > 0
    requires !m.tasks[id].state.DefThrottle? && (cfg.algorithm.Ds? ==> m.tasks[id].cool > 1)
    ensures var t, r := m.tasks[id], Apply(cfg, m, Tick(c)).tasks[id];
      && Out(r) && r.current == 0
      && OutFor(cfg, r) == Max(if t.state.DefSleep? then t.sleepTicks - 1 else 0,
           if cfg.algorithm.Bcs? then t.period else t.cool - 1)
  {
    hide Apply, Legal, TickTask, TasksOk, Placed, OutFor;
    StepOk(cfg, m, Tick(c), id);
    LastTick(cfg, m.tasks[id]);
    LastMoves(cfg, TickTask(cfg, m.tasks[id]), Apply(cfg, m, Tick(c)).tasks[id]);
  }

  /** The tick itself leaves a thread on the processor for the rescheduling point to take off. */
  lemma LastTick(cfg: Config, t: Task)
    requires TaskOk(cfg, t, false) && Charged(t) && t.current == 1 && t.period > 0
    requires !t.state.DefThrottle? && (cfg.algorithm.Ds? ==> t.cool > 1)
    ensures var r := TickTask(cfg, t);
      && r.current == 0 && r.period == t.period && (r.state.Running? || Out(r))
      && (r.state.Running? ==> t.state.Running? && r.cool == if cfg.algorithm.Bcs? then 0 else t.cool - 1)
      && (Out(r) ==> OutFor(cfg, r) == Max(if t.state.DefSleep? then t.sleepTicks - 1 else 0,
           if cfg.algorithm.Bcs? then t.period else t.cool - 1))
  {
    hide Callback, Push, Transition;
  }

  lemma LastMoves(cfg: Config, a: Task, b: Task)
    requires a.kind.Thread? && TaskOk(cfg, b, false) && Shifts(cfg, a, b) && a.current == 0
    requires a.state.Running? || Out(a)
    ensures Out(b) && b.current == 0
    ensures Out(a) ==> OutFor(cfg, b) == OutFor(cfg, a)
    ensures a.state.Running? ==> OutFor(cfg, b) == if cfg.algorithm.Bcs? then a.period else a.cool
  {
  }

  lemma OutObs(cfg: Config, o: Obs)
    requires ObsOk(cfg, o) && Out(o.before)
    ensures OutFor(cfg, o.before) > 0 && o.after.budget == o.before.budget
    ensures o.before.state.DefSleep? ==> o.before.current > 0
    ensures o.after.state.DefSleep? ==> o.after.current > 0
    ensures !o.tick ==>
      Out(o.after) && OutFor(cfg, o.after) == OutFor(cfg, o.before) && Left(o.after) == Left(o.before)
    ensures o.tick && OutFor(cfg, o.before) > 1 ==> Out(o.after) && OutFor(cfg, o.after) == OutFor(cfg, o.before) - 1
    ensures o.tick && OutFor(cfg, o.before) == 1 ==>
      (o.after.state.Ready? || o.after.state.Running?) && o.after.current > 0
    ensures Left(o.after) == Left(o.before) || Left(o.after) == o.before.budget
    ensures cfg.algorithm.Bcs? && Left(o.before) > 0 ==> Left(o.after) == Left(o.before)
  {
    hide TickTask;
    SameAccount(cfg, o);
    if o.before.state.DefSleep? {
      AsleepTick(cfg, o.before);
    } else {
      OutTick(cfg, o.before);
    }
  }

  lemma {:induction false} OutView(cfg: Config, t: Task, v: seq<Obs>)
    requires Chained(cfg, t, v) && Out(t) && v != [] && TickCount(v) <= OutFor(cfg, t)
    requires TickCount(v) == OutFor(cfg, t) ==> v[|v| - 1].tick
    ensures t.state.DefSleep? ==> t.current > 0
    ensures v[|v| - 1].after.state.DefSleep? ==> v[|v| - 1].after.current > 0
    ensures var r, n := v[|v| - 1].after, TickCount(v);
      && (n < OutFor(cfg, t) ==> Out(r) && OutFor(cfg, r) == OutFor(cfg, t) - n)
      && (n == OutFor(cfg, t) ==> (r.state.Ready? || r.state.Running?) && r.current > 0)
      && (Left(r) == Left(t) || Left(r) == t.budget)
      && (cfg.algorithm.Bcs? && Left(t) > 0 ==> Left(r) == Left(t))
    decreases v
  {
    hide ObsOk, OutFor;
    OutObs(cfg, v[0]);
    if |v| > 1 {
      if v[|v| - 1].tick {
        LastCounts(v[1..]);
      }
      OutView(cfg, v[0].after, v[1..]);
    }
  }

  /**
   On every run a thread that cools down, sleeps or is falling asleep stays away for exactly that many ticks, whatever
   happens in between, and is back, ready or already running, with the last of them: with what it had if it fell asleep
   with budget left (or, under DS, a replenished budget), and with a full budget if it had none.
   */
  lemma AwayFor(cfg: Config, m: Machine, es: seq<Event>, id: Id)
    requires Inv(cfg, m) && Run(cfg, Contract, m, es)
    requires id in m.tasks && m.tasks[id].kind.Thread? && Out(m.tasks[id])
    ensures var t, r, n := m.tasks[id], Exec(cfg, Contract, m, es).tasks[id], TickCount(View(cfg, Contract, m, es, id));
      && OutFor(cfg, t) > 0 && (t.state.DefSleep? ==> t.current > 0)
      && (n < OutFor(cfg, t) ==> Out(r))
      && (n == OutFor(cfg, t) && es[|es| - 1].Tick? ==>
        && (r.state.Ready? || r.state.Running?)
        && (if Left(t) == 0 then r.current == t.budget
            else r.current == Left(t) || (cfg.algorithm.Ds? && r.current == t.budget)))
  {
    hide TasksOk, Placed, Apply, Legal, Chained, TickCount, OutFor;
    var v := View(cfg, Contract, m, es, id);
    ViewOk(cfg, m, es, id);
    LastView(cfg, m, es, id);
    if v != [] && TickCount(v) <= OutFor(cfg, m.tasks[id]) &&
      (TickCount(v) == OutFor(cfg, m.tasks[id]) ==> v[|v| - 1].tick)
    {
      OutView(cfg, m.tasks[id], v);
    }
    NoTicks(v);
    OutNow(cfg, m, id);
  }

  lemma OutNow(cfg: Config, m: Machine, id: Id)
    requires Inv(cfg, m) && id in m.tasks && m.tasks[id].kind.Thread? && Out(m.tasks[id])
    ensures OutFor(cfg, m.tasks[id]) > 0 && (m.tasks[id].state.DefSleep? ==> m.tasks[id].current > 0)
  {
    assert TaskOk(cfg, m.tasks[id], false);
  }
}
