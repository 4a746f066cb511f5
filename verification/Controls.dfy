/**
 What the scheduling controls of a task do to it, over the runs that follow
 (src/workhorse/kSyscall/kSyscall.c:228-378).
 */
module Controls {
  import opened Tasks
  import opened TickSpec
  import opened TickInv
  import opened ThreadView
  import opened Account

  /** Ready to run, or running. */
  predicate Able(t: Task) { t.state.Ready? || t.state.Running? }

  /** The next tick replenishes the thread's deferrable server. */
  predicate Due(cfg: Config, t: Task) { cfg.algorithm.Ds? && t.period > 0 && t.cool == 1 }

  /** A run that begins with the control and ends with the first tick after it. */
  predicate ToNextTick(es: seq<Event>) {
    |es| > 1 && es[|es| - 1].Tick? && forall i :: 0 <= i < |es| - 1 ==> !es[i].Tick?
  }

  /** Out of budget for a whole cooldown. */
  predicate CoolsDown(cfg: Config, t: Task, r: Task) {
    && r.state.Throttled? && r.current == 0
    && r.cool == if cfg.algorithm.Bcs? then t.period else t.cool - 1
  }

  // ------------------------------------------------------------------------
  // Up to the tick.

  /** The task right after the call: what it had, in the state the call asks for. */
  lemma Called(cfg: Config, m: Machine, e: Event)
    requires Inv(cfg, m) && Enabled(m, e) && Legal(cfg, Contract, m, e) && IsSwitch(e)
    requires m.running.Some? && m.tasks[m.running.value].kind.Thread?
    ensures var id := m.running.value;
      var t, n := m.tasks[id], Apply(cfg, m, e).tasks[id];
      && n.state == Target(e)
      && n == t.(state := n.state, link := n.link, sleepTicks := if e.SleepFor? then e.ticks else t.sleepTicks)
  {
    hide Apply, Moves, Owes, TasksOk, Placed;
    SwitchState(cfg, m, e);
    StepMoves(cfg, m, e, m.running.value);
    CalledSleep(cfg, m, e);
    OnlyMoved(cfg, m.tasks[m.running.value], Apply(cfg, m, e).tasks[m.running.value]);
  }

  lemma OnlyMoved(cfg: Config, a: Task, b: Task)
    requires Moves(cfg, a, b) && !b.state.Throttled?
    ensures b == a.(state := b.state, link := b.link, sleepTicks := b.sleepTicks)
    ensures !a.state.Running? ==> b.sleepTicks == a.sleepTicks
  {
  }

  lemma CalledSleep(cfg: Config, m: Machine, e: Event)
    requires Inv(cfg, m) && Enabled(m, e) && Legal(cfg, Contract, m, e) && IsSwitch(e)
    requires m.running.Some? && m.tasks[m.running.value].kind.Thread?
    ensures var id := m.running.value;
      Apply(cfg, m, e).tasks[id].sleepTicks == if e.SleepFor? then e.ticks else m.tasks[id].sleepTicks
  {
    hide Resume, ResumeOk, Moves, TasksOk, Placed;
    var id, s := m.running.value, Switched(cfg, m, e);
    SwitchedOk(cfg, m, e);
    ResumeStates(cfg, s, e.c, id);
    ResumeMoves(cfg, s, e.c, id);
    OnlyMoved(cfg, s.tasks[id], Resume(cfg, s, e.c).tasks[id]);
  }

  /** Until the tick nothing happens to a thread that has left of its own accord. */
  lemma {:induction false} Waits(cfg: Config, m: Machine, es: seq<Event>, id: Id)
    requires Inv(cfg, m) && Run(cfg, Contract, m, es) && forall i :: 0 <= i < |es| ==> !es[i].Tick?
    requires id in m.tasks && m.tasks[id].kind.Thread?
    requires m.tasks[id].state.DefYield? || m.tasks[id].state.DefThrottle?
    ensures var r := Exec(cfg, Contract, m, es).tasks[id]; r == m.tasks[id].(link := r.link)
    decreases es
  {
    hide Apply, Legal, Moves;
    if es != [] {
      var n := Apply(cfg, m, es[0]);
      StepInv(cfg, m, es[0]);
      StepMoves(cfg, m, es[0], id);
      OnlyMoved(cfg, m.tasks[id], n.tasks[id]);
      Waits(cfg, n, es[1..], id);
    }
  }

  lemma {:induction false} Split(cfg: Config, m: Machine, es: seq<Event>)
    requires Wf(m) && Run(cfg, Contract, m, es) && es != []
    ensures var n := |es| - 1;
      && Run(cfg, Contract, m, es[..n])
      && var k := Exec(cfg, Contract, m, es[..n]);
      && Enabled(k, es[n]) && Legal(cfg, Contract, k, es[n])
      && Exec(cfg, Contract, m, es) == Apply(cfg, k, es[n])
    decreases es
  {
    hide Apply, Legal;
    if |es| > 1 {
      Split(cfg, Apply(cfg, m, es[0]), es[1..]);
      assert es[..|es| - 1][1..] == es[1..][..|es| - 2];
    }
  }

  /** The tick that a thread pays for when it has yielded or given its budget up. */
  lemma PayingTick(cfg: Config, t: Task)
    requires TaskOk(cfg, t, false) && t.kind.Thread? && (t.state.DefYield? || t.state.DefThrottle?)
    ensures var r := TickTask(cfg, t);
      if Due(cfg, t) then r.state.Ready? && r.current == t.budget
      else if t.state.DefYield? && t.current > 1 then r.state.Ready? && r.current == t.current - 1
      else if t.period == 0 then r.state.Ready? && r.current == t.budget
      else CoolsDown(cfg, t, r)
  {
    hide Callback, Push, Transition;
  }

  lemma PaidFor(cfg: Config, m: Machine, es: seq<Event>)
    requires Inv(cfg, m) && Run(cfg, Contract, m, es) && ToNextTick(es) && (es[0].Yield? || es[0].Throttle?)
    ensures m.running.Some? && m.tasks[m.running.value].kind.Thread?
    ensures var t, r := m.tasks[m.running.value], Exec(cfg, Contract, m, es).tasks[m.running.value];
      if Due(cfg, t) then Able(r) && r.current == t.budget
      else if es[0].Yield? && t.current > 1 then Able(r) && r.current == t.current - 1
      else if t.period == 0 then Able(r) && r.current == t.budget
      else CoolsDown(cfg, t, r)
  {
    hide Apply, Legal, Moves, TasksOk, Placed;
    var n, id := |es| - 1, m.running.value;
    Split(cfg, m, es);
    assert es[..n][0] == es[0];
    Called(cfg, m, es[0]);
    StepInv(cfg, m, es[0]);
    Waits(cfg, Apply(cfg, m, es[0]), es[..n][1..], id);
    RunInv(cfg, m, es[..n]);
    var k := Exec(cfg, Contract, m, es[..n]);
    AfterTick(cfg, k, es[n].c, id);
  }

  lemma AfterTick(cfg: Config, m: Machine, c: Choice, id: Id)
    requires Inv(cfg, m) && Enabled(m, Tick(c)) && Legal(cfg, Contract, m, Tick(c))
    requires id in m.tasks && m.tasks[id].kind.Thread?
    requires m.tasks[id].state.DefYield? || m.tasks[id].state.DefThrottle?
    ensures var t, r := m.tasks[id], Apply(cfg, m, Tick(c)).tasks[id];
      if Due(cfg, t) then Able(r) && r.current == t.budget
      else if t.state.DefYield? && t.current > 1 then Able(r) && r.current == t.current - 1
      else if t.period == 0 then Able(r) && r.current == t.budget
      else CoolsDown(cfg, t, r)
  {
    hide Apply, Legal, TickTask, TasksOk, Placed;
    StepOk(cfg, m, Tick(c), id);
    PayingTick(cfg, m.tasks[id]);
  }

  // ------------------------------------------------------------------------
  // The controls.

  /**
   Yield: the tick that comes next costs one tick of budget, and the thread can run again; unless that was the last one,
   which is paid for with a cooldown, or with nothing if the thread has no period.
   */
  lemma YieldCosts(cfg: Config, m: Machine, es: seq<Event>, id: Id)
    requires Inv(cfg, m) && Run(cfg, Contract, m, es) && ToNextTick(es) && es[0].Yield? && m.running == Some(id)
    ensures id in m.tasks
    ensures var t, r := m.tasks[id], Exec(cfg, Contract, m, es).tasks[id];
      if Due(cfg, t) then Able(r) && r.current == t.budget
      else if t.current > 1 then Able(r) && r.current == t.current - 1
      else if t.period == 0 then Able(r) && r.current == t.budget
      else CoolsDown(cfg, t, r)
  {
    PaidFor(cfg, m, es);
  }

  /** Throttle: the tick that comes next takes the whole budget, and the thread cools down for it. */
  lemma ThrottleCosts(cfg: Config, m: Machine, es: seq<Event>, id: Id)
    requires Inv(cfg, m) && Run(cfg, Contract, m, es) && ToNextTick(es) && es[0].Throttle? && m.running == Some(id)
    ensures id in m.tasks
    ensures var t, r := m.tasks[id], Exec(cfg, Contract, m, es).tasks[id];
      if Due(cfg, t) || t.period == 0 then Able(r) && r.current == t.budget
      else CoolsDown(cfg, t, r)
  {
    PaidFor(cfg, m, es);
  }

  /** The ticks until a thread is back that now goes to sleep for `n` ticks. */
  function SleepsFor(cfg: Config, t: Task, n: nat): int {
    if t.current > 1 || t.period == 0 then n
    else Max(n, if cfg.algorithm.Bcs? then t.period + 1 else t.cool)
  }

  /**
   Sleep: the thread does not run before exactly `n` ticks have passed, and can run with the last of them; it has paid
   for one tick. If that was its last one, it is away until its budget is back, should that be later.
   */
  lemma SleepLasts(cfg: Config, m: Machine, es: seq<Event>, id: Id)
    requires Inv(cfg, m) && Run(cfg, Contract, m, es) && es != [] && es[0].SleepFor? && m.running == Some(id)
    ensures id in m.tasks && m.tasks[id].kind.Thread?
    ensures var t, r := m.tasks[id], Exec(cfg, Contract, m, es).tasks[id];
      var n, ticks := SleepsFor(cfg, t, es[0].ticks), TickCount(View(cfg, Contract, m, es, id));
      && (ticks < n ==> !Able(r) && Exec(cfg, Contract, m, es).running != Some(id))
      && (ticks == n && es[|es| - 1].Tick? ==>
        && Able(r)
        && (if t.current == 1 then r.current == t.budget
            else r.current == t.current - 1 || (cfg.algorithm.Ds? && r.current == t.budget)))
  {
    hide Apply, Legal, TasksOk, OutFor;
    Called(cfg, m, es[0]);
    StepInv(cfg, m, es[0]);
    RunInv(cfg, m, es);
    var n := Apply(cfg, m, es[0]);
    AwayFor(cfg, n, es[1..], id);
    AsleepFor(cfg, m.tasks[id], n.tasks[id], es[0].ticks);
    RunningHasBudget(cfg, m, id);
  }

  lemma RunningHasBudget(cfg: Config, m: Machine, id: Id)
    requires Inv(cfg, m) && m.running == Some(id) && m.tasks[id].kind.Thread?
    ensures m.tasks[id].current > 0
  {
    assert TaskOk(cfg, m.tasks[id], false);
  }

  lemma AsleepFor(cfg: Config, t: Task, r: Task, n: nat)
    requires r == t.(state := DefSleep, link := r.link, sleepTicks := n)
    ensures Out(r) && OutFor(cfg, r) == SleepsFor(cfg, t, n)
  {
  }

  /** Nothing brings a failed task back, and nothing but a push a dormant LSR. */
  lemma StaysOff(cfg: Config, m: Machine, e: Event, id: Id)
    requires Inv(cfg, m) && Enabled(m, e) && Legal(cfg, Contract, m, e) && id in m.tasks
    requires m.tasks[id].state.Failure? || (m.tasks[id].state.LsrDormant? && e != LsrPush(id))
    ensures Apply(cfg, m, e).tasks[id].state == m.tasks[id].state
  {
    if e.Tick? {
      hide TickTask, TasksOk, PointOk, Point;
      PhasesOk(cfg, m);
      TickTaskOk(cfg, m.tasks[id]);
      PointStates(cfg, Phases(cfg, m), e.c, false, id);
    } else {
      StepStates(cfg, m, e, id);
    }
  }

  lemma {:induction false} OffForGood(cfg: Config, m: Machine, es: seq<Event>, id: Id)
    requires Inv(cfg, m) && Run(cfg, Contract, m, es) && id in m.tasks
    requires m.tasks[id].state.Failure? || (m.tasks[id].state.LsrDormant? && LsrPush(id) !in es)
    ensures Exec(cfg, Contract, m, es).tasks[id].state == m.tasks[id].state
    decreases es
  {
    hide Apply, Legal, TasksOk, Placed;
    if es != [] {
      StaysOff(cfg, m, es[0], id);
      StepInv(cfg, m, es[0]);
      OffForGood(cfg, Apply(cfg, m, es[0]), es[1..], id);
    }
  }

  /** LSR done: it does not run again before its interrupt pushes it again, and until then it can be pushed. */
  lemma DoneUntilPushed(cfg: Config, m: Machine, es: seq<Event>, l: Id)
    requires Inv(cfg, m) && Run(cfg, Contract, m, es) && es != [] && es[0].LsrDone? && m.running == Some(l)
    requires LsrPush(l) !in es
    ensures var r := Exec(cfg, Contract, m, es);
      r.running != Some(l) && l !in r.lsrs && l in r.tasks && Enabled(r, LsrPush(l))
  {
    hide Apply, Legal, TasksOk;
    SwitchState(cfg, m, es[0]);
    StepInv(cfg, m, es[0]);
    OffForGood(cfg, Apply(cfg, m, es[0]), es[1..], l);
    RunInv(cfg, m, es);
    DormantIsLsr(cfg, Exec(cfg, Contract, m, es), l);
  }

  lemma DormantIsLsr(cfg: Config, m: Machine, id: Id)
    requires Inv(cfg, m) && id in m.tasks && m.tasks[id].state.LsrDormant?
    ensures m.tasks[id].kind.Lsr?
  {
    assert TaskOk(cfg, m.tasks[id], false);
  }

  /** Failure is final: on no run does the task run again. */
  lemma FailedForGood(cfg: Config, m: Machine, es: seq<Event>, id: Id)
    requires Inv(cfg, m) && Run(cfg, Contract, m, es) && es != [] && es[0].Fail? && m.running == Some(id)
    ensures var r := Exec(cfg, Contract, m, es); r.running != Some(id) && id !in ReadySet(r) && id !in r.lsrs
  {
    hide Apply, Legal, TasksOk;
    SwitchState(cfg, m, es[0]);
    StepInv(cfg, m, es[0]);
    OffForGood(cfg, Apply(cfg, m, es[0]), es[1..], id);
    RunInv(cfg, m, es);
  }
}
