/**
 Runs from start-up whose last tick does not bring an EDF deadline one tick closer: one input for every part of the
 condition `Deadlines.Kept` (src/workhorse/kSched/kSchedPolicy/kSchedEdf.c:192-231).
 */
module DeadlineGaps {
  import opened Tasks
  import opened TickSpec
  import opened TickInv
  import opened TickSetup
  import opened Deadlines

  const IDLE: Id := 0
  const THREAD: Id := 1
  const LSR: Id := 2

  /** With the answers the configured policy owes, the events lead from `m` to `n`. */
  ghost predicate Reaches(cfg: Config, m: Machine, es: seq<Event>, n: Machine)
    requires Wf(m)
  {
    Run(cfg, Exact, m, es) && Exec(cfg, Exact, m, es) == n
  }

  lemma {:induction false} OneMore(cfg: Config, m: Machine, es: seq<Event>, n: Machine, e: Event)
    requires Wf(m) && Reaches(cfg, m, es, n) && Enabled(n, e) && Legal(cfg, Exact, n, e)
    ensures Reaches(cfg, m, es + [e], Apply(cfg, n, e))
    decreases es
  {
    hide Apply, Legal, Enabled;
    if es == [] {
      var all := es + [e];
      assert all == [e] && all[1..] == [];
      assert Run(cfg, Exact, Apply(cfg, n, e), all[1..]);
      assert Exec(cfg, Exact, Apply(cfg, n, e), all[1..]) == Apply(cfg, n, e);
    } else {
      assert (es + [e])[1..] == es[1..] + [e];
      OneMore(cfg, Apply(cfg, m, es[0]), es[1..], n, e);
    }
  }

  /** One event from one machine to another. */
  ghost predicate Goes(cfg: Config, m: Machine, e: Event, n: Machine) {
    Wf(m) && Enabled(m, e) && Legal(cfg, Exact, m, e) && Apply(cfg, m, e) == n
  }

  lemma Then(cfg: Config, m: Machine, es: seq<Event>, n: Machine, e: Event, r: Machine) returns (more: seq<Event>)
    requires Wf(m) && Reaches(cfg, m, es, n) && Goes(cfg, n, e, r)
    ensures Reaches(cfg, m, more, r)
  {
    hide Apply, Legal, Enabled;
    OneMore(cfg, m, es, n, e);
    more := es + [e];
  }

  /**
   From start-up, and with the answers the policy owes, the run `es` comes to a machine whose thread has `due` ticks to
   its deadline and can be ready again before it; and the next tick leaves the thread with `after`.
   */
  ghost predicate TickTakes(cfg: Config, m: Machine, es: seq<Event>, c: Choice, due: nat, after: nat) {
    && Initial(cfg, m) && THREAD in m.tasks && m.tasks[THREAD].kind.Thread?
    && Run(cfg, Exact, m, es) && Run(cfg, Exact, m, es + [Tick(c)])
    && var t, r := Exec(cfg, Exact, m, es).tasks[THREAD], Exec(cfg, Exact, m, es + [Tick(c)]).tasks[THREAD];
    && !t.state.Failure? && Horizon(cfg, t) < Due(t) == due && Due(r) == after
  }

  // ------------------------------------------------------------------------
  // A processor with its idle task, one thread with a virtual deadline of 20 ticks, and one LSR.

  function Fresh(cfg: Config, budget: nat, period: nat): Task { NewThread(cfg, budget, period, 0, 20) }

  function Processor(cfg: Config, budget: nat, period: nat): (m: Machine)
    ensures Wf(m)
  {
    Put(Put(Bare(IDLE), THREAD, Fresh(cfg, budget, period)), LSR, NewLsr(3))
  }

  /** The machine with the thread as given and everything else in the states given. */
  function At(t: Task, idle: State, lsr: State, running: Option<Id>, slot: Option<Id>, lsrs: seq<Id>): (m: Machine)
    requires running in {None, Some(IDLE), Some(THREAD), Some(LSR)} && slot in {None, Some(THREAD)}
    requires lsrs in {[], [LSR]}
    ensures Wf(m)
  {
    Machine(
      map[IDLE := Task(Idle, idle, 0, 0, 0, 0, 0, 0, 0, 0, 0), THREAD := t, LSR := NewLsr(3).(state := lsr)],
      IDLE, running, slot, lsrs)
  }

  function ThreadRunning(t: Task): (m: Machine) { At(t, Ready, LsrDormant, Some(THREAD), None, []) }

  function IdleRunning(t: Task): (m: Machine) { At(t, Running, LsrDormant, Some(IDLE), None, []) }

  function LsrRunning(t: Task): (m: Machine) { At(t, Ready, Running, Some(LSR), Some(THREAD), []) }

  lemma Starts(cfg: Config, budget: nat, period: nat)
    requires cfg.policy.Edf? && budget > 0
    ensures Initial(cfg, Processor(cfg, budget, period))
  {
  }

  lemma Dispatched(cfg: Config, budget: nat, period: nat)
    requires cfg.policy.Edf? && budget > 0
    ensures Goes(cfg, Processor(cfg, budget, period), Reschedule(Choice(false, THREAD)),
      ThreadRunning(Fresh(cfg, budget, period).(state := Running)))
  {
    var m := Processor(cfg, budget, period);
    assert ReadySet(m) == {THREAD};
    assert Dispatch(cfg, m, THREAD).tasks == ThreadRunning(Fresh(cfg, budget, period).(state := Running)).tasks;
  }

  lemma Sleeps(cfg: Config, t: Task, ticks: nat)
    requires cfg.policy.Edf? && t.kind.Thread? && t.state.Running? && 0 < ticks < 100
    ensures Goes(cfg, ThreadRunning(t), SleepFor(ticks, Choice(false, IDLE)),
      IdleRunning(t.(state := DefSleep, sleepTicks := ticks)))
  {
    var e, r := SleepFor(ticks, Choice(false, IDLE)), t.(state := DefSleep, sleepTicks := ticks);
    assert Switched(cfg, ThreadRunning(t), e).tasks == At(r, Ready, LsrDormant, None, None, []).tasks;
    IdleNext(cfg, r);
  }

  /** With nothing ready, the idle task is dispatched. */
  lemma IdleNext(cfg: Config, t: Task)
    requires cfg.policy.Edf? && !t.state.Ready?
    ensures var m := At(t, Ready, LsrDormant, None, None, []);
      NextOk(cfg, Exact, m, IDLE) && Dispatch(cfg, m, IDLE) == IdleRunning(t)
  {
    var m := At(t, Ready, LsrDormant, None, None, []);
    assert ReadySet(m) == {};
    assert Dispatch(cfg, m, IDLE).tasks == IdleRunning(t).tasks;
  }

  /** A tick while the idle task runs, and the thread does not wake up. */
  lemma IdleTick(cfg: Config, t: Task)
    requires cfg.policy.Edf? && t.kind.Thread? && !TickTask(cfg, t).state.Ready?
    ensures Goes(cfg, IdleRunning(t), Tick(Choice(false, IDLE)), IdleRunning(TickTask(cfg, t)))
  {
    OtherTick(cfg, Running);
    var m := Phases(cfg, IdleRunning(t));
    assert m.tasks == IdleRunning(TickTask(cfg, t)).tasks;
    assert ReadySet(m) == {};
  }

  /** Neither the idle task nor an LSR is changed by a tick. */
  lemma OtherTick(cfg: Config, idle: State)
    requires idle in {Ready, Running}
    ensures var t := Task(Idle, idle, 0, 0, 0, 0, 0, 0, 0, 0, 0); TickTask(cfg, t) == t
    ensures TickTask(cfg, NewLsr(3)) == NewLsr(3)
    ensures TickTask(cfg, NewLsr(3).(state := Running)) == NewLsr(3).(state := Running)
  {
  }

  /** A tick that uses up the budget of the running thread. */
  lemma ThrottlingTick(cfg: Config, t: Task)
    requires cfg.policy.Edf? && cfg.algorithm.Ds? && t.kind.Thread? && t.state.Running?
    requires TickTask(cfg, t).state.Running? && TickTask(cfg, t).current == 0
    ensures Goes(cfg, ThreadRunning(t), Tick(Choice(false, IDLE)), IdleRunning(TickTask(cfg, t).(state := Throttled)))
  {
    hide TickTask, Phases, Leave, Dispatch, NextOk, Enter;
    var r := TickTask(cfg, t);
    ThreadPhases(cfg, t);
    ThrottledLeaves(cfg, r);
    IdleNext(cfg, r.(state := Throttled));
  }

  lemma ThreadPhases(cfg: Config, t: Task)
    requires t.kind.Thread?
    ensures Phases(cfg, ThreadRunning(t)) == ThreadRunning(TickTask(cfg, t))
  {
    OtherTick(cfg, Ready);
    hide TickTask;
    assert Phases(cfg, ThreadRunning(t)).tasks == ThreadRunning(TickTask(cfg, t)).tasks;
  }

  lemma ThrottledLeaves(cfg: Config, t: Task)
    requires cfg.algorithm.Ds? && t.kind.Thread? && t.state.Running?
    ensures Leave(cfg, ThreadRunning(t), Throttled) ==
      At(t.(state := Throttled), Ready, LsrDormant, None, None, [])
  {
    assert Leave(cfg, ThreadRunning(t), Throttled).tasks ==
      At(t.(state := Throttled), Ready, LsrDormant, None, None, []).tasks;
  }

  /** An interrupt puts the thread aside. */
  lemma PutAside(cfg: Config, t: Task)
    requires cfg.policy.Edf? && t.kind.Thread? && t.state.Running?
    ensures Goes(cfg, ThreadRunning(t), PushCurrent,
      At(t.(state := DefPending), Ready, LsrDormant, None, Some(THREAD), []))
  {
    assert Leave(cfg, ThreadRunning(t), DefPending).tasks ==
      At(t.(state := DefPending), Ready, LsrDormant, None, Some(THREAD), []).tasks;
  }

  lemma LsrPushed(cfg: Config, t: Task)
    ensures Goes(cfg, At(t, Ready, LsrDormant, None, Some(THREAD), []), LsrPush(LSR),
      At(t, Ready, LsrPending, None, Some(THREAD), [LSR]))
  {
    assert PushLsr(At(t, Ready, LsrDormant, None, Some(THREAD), []), LSR).tasks ==
      At(t, Ready, LsrPending, None, Some(THREAD), [LSR]).tasks;
  }

  lemma LsrRuns(cfg: Config, t: Task)
    ensures Goes(cfg, At(t, Ready, LsrPending, None, Some(THREAD), [LSR]), Reschedule(Choice(false, IDLE)),
      LsrRunning(t))
  {
    assert RunLsr(At(t, Ready, LsrPending, None, Some(THREAD), [LSR])).tasks == LsrRunning(t).tasks;
  }

  /** A tick while the LSR runs. */
  lemma LsrTick(cfg: Config, t: Task)
    requires t.kind.Thread? && TickTask(cfg, t).state.Pending?
    ensures Goes(cfg, LsrRunning(t), Tick(Choice(false, IDLE)), LsrRunning(TickTask(cfg, t)))
  {
    OtherTick(cfg, Ready);
    hide TickTask;
    assert Phases(cfg, LsrRunning(t)).tasks == LsrRunning(TickTask(cfg, t)).tasks;
  }

  /** The last step of a run is a tick that takes the deadline from `due` to `after`. */
  lemma Conclude(cfg: Config, m: Machine, es: seq<Event>, n: Machine, c: Choice, r: Machine, due: nat, after: nat)
    requires Initial(cfg, m) && THREAD in m.tasks && m.tasks[THREAD].kind.Thread? && Reaches(cfg, m, es, n)
    requires Goes(cfg, n, Tick(c), r) && THREAD in n.tasks && THREAD in r.tasks
    requires !n.tasks[THREAD].state.Failure? && Horizon(cfg, n.tasks[THREAD]) < Due(n.tasks[THREAD]) == due
    requires Due(r.tasks[THREAD]) == after
    ensures TickTakes(cfg, m, es, c, due, after)
  {
    hide Apply, Legal, Enabled, Due, Horizon;
    OneMore(cfg, m, es, n, Tick(c));
  }

  // ------------------------------------------------------------------------
  // The four parts of the condition.

  /** A run of the thread alone: dispatched, it falls asleep for four ticks. */
  lemma AsleepAfter(cfg: Config, period: nat) returns (m: Machine, es: seq<Event>)
    requires cfg.policy.Edf?
    ensures Initial(cfg, m) && m == Processor(cfg, 1, period)
    ensures Reaches(cfg, m, es, IdleRunning(Fresh(cfg, 1, period).(state := DefSleep, sleepTicks := 4)))
  {
    hide Apply, Legal, Enabled, Initial, Goes;
    m := Processor(cfg, 1, period);
    Starts(cfg, 1, period);
    var t := Fresh(cfg, 1, period).(state := Running);
    Dispatched(cfg, 1, period);
    Sleeps(cfg, t, 4);
    es := Then(cfg, m, [], m, Reschedule(Choice(false, THREAD)), ThreadRunning(t));
    var asleep := IdleRunning(t.(state := DefSleep, sleepTicks := 4));
    es := Then(cfg, m, es, ThreadRunning(t), SleepFor(4, Choice(false, IDLE)), asleep);
  }

  /** A budget that runs out on the tick its sleep starts in: three ticks closer after one. */
  lemma SleepCostsPeriod() returns (m: Machine, es: seq<Event>, c: Choice)
    ensures TickTakes(Config(Bcs, Policy.Edf), m, es, c, 20, 17)
  {
    hide Reaches, Initial, IdleRunning;
    var cfg := Config(Bcs, Policy.Edf);
    m, es := AsleepAfter(cfg, 2);
    c := Choice(false, IDLE);
    var t := Task(Thread, DefSleep, 1, 2, 1, 4, 0, 0, 0, 20, 20);
    assert TickTask(cfg, t) == Task(Thread, Sleep, 1, 2, 0, 4, 0, 3, 0, 20, 14);
    LastIdleTick(cfg, m, es, t, 20, 17);
  }

  /** A thread that falls asleep with the last of its budget, when `nap` ticks of its sleep are left. */
  function Asleep(nap: nat): Task {
    if nap == 4 then Task(Thread, DefSleep, 1, 5, 1, 4, 0, 0, 0, 20, 20)
    else Task(Thread, Sleep, 1, 5, 0, 4, 0, nap, 0, 20, 11)
  }

  lemma AsleepTicks(cfg: Config, nap: nat)
    requires cfg == Config(Bcs, Policy.Edf) && 1 < nap <= 4
    ensures TickTask(cfg, Asleep(nap)) == Asleep(nap - 1)
  {
  }

  lemma Wakes(cfg: Config)
    requires cfg == Config(Bcs, Policy.Edf)
    ensures TickTask(cfg, Asleep(1)) == Asleep(1).(state := Throttled, nap := 0, cool := 2)
    ensures Horizon(cfg, Asleep(1)) < Due(Asleep(1)) == 12 && Due(TickTask(cfg, Asleep(1))) == 13
  {
  }

  /** Waking up without budget: what is left of the period is waited for on top, and the deadline moves away. */
  lemma WakingAddsCooldown() returns (m: Machine, es: seq<Event>, c: Choice)
    ensures TickTakes(Config(Bcs, Policy.Edf), m, es, c, 12, 13)
  {
    hide Reaches, Initial, IdleRunning, TickTask, Horizon, Due;
    var cfg := Config(Bcs, Policy.Edf);
    m, es := AsleepAfter(cfg, 5);
    c := Choice(false, IDLE);
    AsleepTicks(cfg, 4);
    es := OneIdleTick(cfg, m, es, Asleep(4));
    AsleepTicks(cfg, 3);
    es := OneIdleTick(cfg, m, es, Asleep(3));
    AsleepTicks(cfg, 2);
    es := OneIdleTick(cfg, m, es, Asleep(2));
    Wakes(cfg);
    LastIdleTick(cfg, m, es, Asleep(1), 12, 13);
  }

  lemma OneIdleTick(cfg: Config, m: Machine, es: seq<Event>, t: Task) returns (r: seq<Event>)
    requires cfg.policy.Edf? && Wf(m) && Reaches(cfg, m, es, IdleRunning(t))
    requires t.kind.Thread? && !TickTask(cfg, t).state.Ready?
    ensures Reaches(cfg, m, r, IdleRunning(TickTask(cfg, t)))
  {
    hide TickTask, Goes;
    IdleTick(cfg, t);
    r := Then(cfg, m, es, IdleRunning(t), Tick(Choice(false, IDLE)), IdleRunning(TickTask(cfg, t)));
  }

  lemma LastIdleTick(cfg: Config, m: Machine, es: seq<Event>, t: Task, due: nat, after: nat)
    requires cfg.policy.Edf? && Initial(cfg, m) && Reaches(cfg, m, es, IdleRunning(t))
    requires THREAD in m.tasks && m.tasks[THREAD].kind.Thread? && t.kind.Thread? && !t.state.Failure?
    requires Horizon(cfg, t) < Due(t) == due && !TickTask(cfg, t).state.Ready? && Due(TickTask(cfg, t)) == after
    ensures TickTakes(cfg, m, es, Choice(false, IDLE), due, after)
  {
    hide TickTask, Apply, Legal, Enabled, Horizon, Due;
    IdleTick(cfg, t);
    Conclude(cfg, m, es, IdleRunning(t), Choice(false, IDLE), IdleRunning(TickTask(cfg, t)), due, after);
  }

  /** The thread while it waits under an LSR, before its deferred tick and after. */
  function Waiting(ticked: bool): Task {
    if ticked then Task(Thread, Pending, 3, 2, 2, 0, 0, 0, 0, 20, 19)
    else Task(Thread, DefPending, 3, 2, 3, 0, 0, 0, 0, 20, 20)
  }

  lemma WaitingTicks(cfg: Config, ticked: bool)
    requires cfg == Config(Bcs, Policy.Edf)
    ensures TickTask(cfg, Waiting(ticked)) == Waiting(true)
    ensures Waiting(false) == Fresh(cfg, 3, 2).(state := DefPending)
    ensures Horizon(cfg, Waiting(true)) < Due(Waiting(true)) == 19
  {
  }

  /** A thread that an LSR has preempted. */
  lemma PreemptedAfter(cfg: Config) returns (m: Machine, es: seq<Event>)
    requires cfg == Config(Bcs, Policy.Edf)
    ensures m == Processor(cfg, 3, 2) && Initial(cfg, m) && Reaches(cfg, m, es, LsrRunning(Waiting(false)))
  {
    hide Initial, Goes, TickTask, Horizon, Due, Waiting;
    WaitingTicks(cfg, false);
    m := Processor(cfg, 3, 2);
    Starts(cfg, 3, 2);
    var t := Fresh(cfg, 3, 2).(state := Running);
    var aside := At(Waiting(false), Ready, LsrDormant, None, Some(THREAD), []);
    var pushed := At(Waiting(false), Ready, LsrPending, None, Some(THREAD), [LSR]);
    Dispatched(cfg, 3, 2);
    es := Then(cfg, m, [], m, Reschedule(Choice(false, THREAD)), ThreadRunning(t));
    PutAside(cfg, t);
    es := Then(cfg, m, es, ThreadRunning(t), PushCurrent, aside);
    LsrPushed(cfg, Waiting(false));
    es := Then(cfg, m, es, aside, LsrPush(LSR), pushed);
    LsrRuns(cfg, Waiting(false));
    es := Then(cfg, m, es, pushed, Reschedule(Choice(false, IDLE)), LsrRunning(Waiting(false)));
  }

  /** Waiting under an LSR for longer than a tick: no closer at all. */
  lemma PendingStandsStill() returns (m: Machine, es: seq<Event>, c: Choice)
    ensures TickTakes(Config(Bcs, Policy.Edf), m, es, c, 19, 19)
  {
    hide Initial, Goes, TickTask, Horizon, Due, Reaches;
    var cfg := Config(Bcs, Policy.Edf);
    m, es := PreemptedAfter(cfg);
    c := Choice(false, IDLE);
    WaitingTicks(cfg, false);
    LsrTick(cfg, Waiting(false));
    es := Then(cfg, m, es, LsrRunning(Waiting(false)), Tick(c), LsrRunning(Waiting(true)));
    WaitingTicks(cfg, true);
    LsrTick(cfg, Waiting(true));
    Conclude(cfg, m, es, LsrRunning(Waiting(true)), c, LsrRunning(Waiting(true)), 19, 19);
  }

  /** A deferrable server that runs out of budget: two ticks closer after one. */
  lemma DsThrottleCostsTick() returns (m: Machine, es: seq<Event>, c: Choice)
    ensures TickTakes(Config(Ds, Policy.Edf), m, es, c, 20, 18)
  {
    hide Apply, Legal, Enabled, Initial, Goes;
    var cfg := Config(Ds, Policy.Edf);
    m := Processor(cfg, 1, 5);
    Starts(cfg, 1, 5);
    var t := Task(Thread, Running, 1, 5, 1, 0, 5, 0, 0, 20, 20);
    assert TickTask(cfg, t) == Task(Thread, Running, 1, 5, 0, 0, 4, 0, 0, 20, 14);
    Dispatched(cfg, 1, 5);
    ThrottlingTick(cfg, t);
    c := Choice(false, IDLE);
    es := Then(cfg, m, [], m, Reschedule(Choice(false, THREAD)), ThreadRunning(t));
    Conclude(cfg, m, es, ThreadRunning(t), c, IdleRunning(TickTask(cfg, t).(state := Throttled)), 20, 18);
  }
}
