/**
 The tick machine as a transition system on tasks (src/workhorse/kTick/kTick.c).

 Every kernel entry is one event. A tick acts on each task by itself, so its phases are written as functions of one
 task; the chains, stacks and loops of the source, and the proof that they compute this, are in TickMachine.

 The scheduling policy is answered for by a `Choice`: what `kSchedShouldReschedule` says at the rescheduling point of
 the event, and which task `kSchedTaskPop` returns. `Rule.Contract` is what the machine needs from any policy;
 `Rule.Exact` is what the configured policy answers.
 */
module TickSpec {
  import opened Tasks
  import opened DeltaSeq

  datatype Machine = Machine(
    tasks: map<Id, Task>,
    idle: Id,
    running: Option<Id>,
    slot: Option<Id>,
    lsrs: seq<Id>)

  datatype Choice = Choice(resched: bool, next: Id)

  datatype Rule = Contract | Exact

  datatype Event =
    | Tick(c: Choice)
    | Yield(c: Choice)
    | Throttle(c: Choice)
    | SleepFor(ticks: nat, c: Choice)
    | LsrDone(c: Choice)
    | Fail(c: Choice)
    | LsrPush(lsr: Id)
    | PushCurrent
    | Reschedule(c: Choice)

  /** Decrement of a 32-bit counter. */
  function Pred(n: nat): nat { if n == 0 then WRAP - 1 else n - 1 }

  /** What nothing in the tick machine changes about a task. */
  predicate Fixed(a: Task, b: Task) {
    && b.kind == a.kind && b.budget == a.budget && b.period == a.period
    && b.prio == a.prio && b.allot == a.allot && b.sleepTicks == a.sleepTicks
  }

  // ------------------------------------------------------------------------
  // What the policy does to one task.

  /** `kSchedTickTransitionCallback`: EDF ticks its chain of ready threads. */
  function Transition(cfg: Config, t: Task): (r: Task)
    ensures r == t.(link := r.link)
  {
    if cfg.policy.Edf? && t.kind.Thread? && t.state.Ready? then t.(link := Dec(t.link)) else t
  }

  /** `kSchedTaskPush`: a thread without deadline left starts a new one. */
  function Push(cfg: Config, t: Task): (r: Task)
    ensures r == t.(link := r.link)
  {
    if cfg.policy.Edf? && t.kind.Thread? && t.link == 0 then t.(link := t.allot) else t
  }

  /** `kSchedTaskPop`: the popped thread gets a full timeslice; under EDF it keeps its deadline. */
  function Popped(cfg: Config, t: Task): (r: Task)
    ensures r == t.(link := r.link)
  {
    if cfg.policy.Edf? || !t.kind.Thread? then t else t.(link := t.allot)
  }

  /** `kSchedFixupChainEdf`: ready threads whose deadline has passed start a new one. */
  function Fixup(cfg: Config, t: Task): (r: Task)
    ensures r == t.(link := r.link)
  {
    if cfg.policy.Edf? && t.kind.Thread? && t.state.Ready? && t.link == 0 then t.(link := t.allot) else t
  }

  /** `kSchedTaskTickCallback`, called while the task is still in the state it took the tick in. */
  function Callback(cfg: Config, t: Task): (r: Task)
    ensures r == t.(link := r.link)
  {
    if !t.kind.Thread? then t
    else if !cfg.policy.Edf? then t.(link := Pred(t.link))
    else if t.state.DefSleep? && t.link < t.sleepTicks then t.(link := 0)
    else
      var d := Pred(if t.state.DefSleep? then t.link - (t.sleepTicks - 1) else t.link);
      if t.current == 0 then
        var wait := if cfg.algorithm.Ds? && t.period > 0 then t.cool else t.period;
        t.(link := if d < wait then 0 else d - wait)
      else if d == 0 then t.(link := t.allot)
      else t.(link := d)
  }

  // ------------------------------------------------------------------------
  // One task, one phase of a tick.

  /** `kTickTaskLoadNextState` for one task: entering the ready set, the replenishment chain or the sleep chain. */
  function Enter(cfg: Config, t: Task, next: State): (r: Task)
    ensures Fixed(t, r) && r.state == next
  {
    if t.state == next then t
    else
      var t := t.(state := next);
      match next
      case Ready => Push(cfg, t)
      case Throttled => if cfg.algorithm.Bcs? then t.(cool := t.period) else t
      case Sleep => t.(nap := t.sleepTicks)
      case _ => t
  }

  /** With DS the replenishment chain is ticked after the charges, so one due in this tick is no throttle. */
  predicate ShouldThrottle(cfg: Config, t: Task) {
    t.period > 0 && (cfg.algorithm.Ds? ==> t.cool > 1)
  }

  /** `kTickReplenishmentPeriod` */
  function Replenish(cfg: Config, t: Task): (r: Task)
    ensures Fixed(t, r)
  {
    match cfg.algorithm
    case Bcs =>
      if !t.kind.Thread? || !t.state.Throttled? then t
      else if Dec(t.cool) > 0 then t.(cool := Dec(t.cool))
      else Enter(cfg, t.(cool := 0, current := t.budget), Ready)
    case Ds =>
      if !t.kind.Thread? || t.period == 0 then t
      else if Dec(t.cool) > 0 then t.(cool := Dec(t.cool))
      else
        var full := t.(cool := t.period, current := t.budget);
        if full.state.Throttled? then Enter(cfg, full, Ready) else full
  }

  /** `kTickHandleDeferredTicks` */
  function ChargeDeferred(cfg: Config, t: Task): (r: Task)
    ensures Fixed(t, r)
  {
    if !Deferred(t.state) then t
    else if !t.kind.Thread? then Enter(cfg, Callback(cfg, t), Pending)
    else
      var spent := t.(current := if t.state.DefThrottle? then 0 else Pred(t.current));
      if t.state.DefSleep? then Enter(cfg, Callback(cfg, spent), Sleep)
      else if spent.current == 0 && ShouldThrottle(cfg, t) then Enter(cfg, Callback(cfg, spent), Throttled)
      else
        var kept := if spent.current == 0 then spent.(current := t.budget) else spent;
        Enter(cfg, Callback(cfg, kept), if t.state.DefPending? then Pending else Ready)
  }

  /** `kTickRunningTask` */
  function ChargeRunning(cfg: Config, t: Task): (r: Task)
    ensures Fixed(t, r)
  {
    if !t.state.Running? then t
    else if !t.kind.Thread? then Callback(cfg, t)
    else
      var left := Pred(t.current);
      Callback(cfg, t.(current := if left == 0 && !ShouldThrottle(cfg, t) then t.budget else left))
  }

  /** A sleeper whose sleep is over: back to ready, or into (what is left of) its cooldown. */
  function Wake(cfg: Config, t: Task): (r: Task)
    ensures Fixed(t, r)
  {
    if t.current > 0 then Enter(cfg, t, Ready)
    else match cfg.algorithm
      case Bcs =>
        if t.period >= t.sleepTicks then t.(state := Throttled, cool := t.period - (t.sleepTicks - 1))
        else Enter(cfg, t.(current := t.budget), Ready)
      case Ds =>
        if t.period == 0 then Enter(cfg, t.(current := t.budget), Ready)
        else Enter(cfg, t, Throttled)
  }

  /** `kTickSleepPeriod` */
  function SleepPhase(cfg: Config, t: Task): (r: Task)
    ensures Fixed(t, r)
  {
    if !t.state.Sleep? then t
    else if Dec(t.nap) > 0 then t.(nap := Dec(t.nap))
    else Wake(cfg, t.(nap := 0))
  }

  /** Everything a tick does to one task before the rescheduling point. */
  function TickTask(cfg: Config, t: Task): (r: Task)
    ensures Fixed(t, r)
  {
    var t := Transition(cfg, t);
    var t := if cfg.algorithm.Bcs? then Replenish(cfg, t) else t;
    var t := ChargeRunning(cfg, ChargeDeferred(cfg, t));
    var t := if cfg.algorithm.Ds? then Replenish(cfg, t) else t;
    SleepPhase(cfg, t)
  }

  // ------------------------------------------------------------------------
  // The machine.

  predicate Wf(m: Machine) {
    && m.idle in m.tasks
    && (m.running.Some? ==> m.running.value in m.tasks)
    && (m.slot.Some? ==> m.slot.value in m.tasks)
    && (forall l :: l in m.lsrs ==> l in m.tasks)
  }

  function ReadySet(m: Machine): set<Id> {
    set id | id in m.tasks && m.tasks[id].kind.Thread? && m.tasks[id].state.Ready?
  }

  function Put(m: Machine, id: Id, t: Task): Machine { m.(tasks := m.tasks[id := t]) }

  /** All phases of a tick up to the rescheduling point. A thread throttled while pending gives up the slot. */
  function Phases(cfg: Config, m: Machine): (r: Machine)
    requires Wf(m)
    ensures Wf(r)
    ensures r.running == m.running && r.lsrs == m.lsrs && r.idle == m.idle
    ensures r.tasks.Keys == m.tasks.Keys
  {
    m.(tasks := map id | id in m.tasks :: TickTask(cfg, m.tasks[id]),
       slot := if m.slot.Some? && m.tasks[m.slot.value].state.DefPending?
                  && !TickTask(cfg, m.tasks[m.slot.value]).state.Pending?
               then None else m.slot)
  }

  /** The running task leaves for another state. */
  function Leave(cfg: Config, m: Machine, next: State): (r: Machine)
    requires Wf(m) && m.running.Some?
    ensures Wf(r) && r.running.None?
    ensures r.tasks.Keys == m.tasks.Keys
  {
    var id := m.running.value;
    Put(m, id, Enter(cfg, m.tasks[id], next)).(
      running := None,
      slot := if next.DefPending? then Some(id) else m.slot,
      lsrs := if next.LsrPending? then [id] + m.lsrs else m.lsrs)
  }

  function FixupAll(cfg: Config, m: Machine): (r: Machine)
    requires Wf(m)
    ensures Wf(r) && r.tasks.Keys == m.tasks.Keys
  {
    m.(tasks := map id | id in m.tasks :: Fixup(cfg, m.tasks[id]))
  }

  /** `kSchedTaskPop`, then the popped task becomes the running one. */
  function Dispatch(cfg: Config, m: Machine, next: Id): (r: Machine)
    requires Wf(m) && next in m.tasks
    ensures Wf(r)
    ensures r.tasks.Keys == m.tasks.Keys
  {
    var m := FixupAll(cfg, m);
    Put(m, next, Popped(cfg, m.tasks[next]).(state := Running)).(running := Some(next))
  }

  /** What `kSchedShouldReschedule` leaves behind when it answers no. */
  function Keep(cfg: Config, m: Machine): (r: Machine)
    requires Wf(m) && m.running.Some?
    ensures Wf(r)
    ensures r.tasks.Keys == m.tasks.Keys
  {
    var id := m.running.value;
    if !m.tasks[id].kind.Thread? then m
    else if cfg.policy.Edf? then FixupAll(cfg, m)
    else if m.tasks[id].link == 0 then Put(m, id, m.tasks[id].(link := m.tasks[id].allot))
    else m
  }

  /** `kTickReschedulingPoint` */
  function Point(cfg: Config, m: Machine, c: Choice): (r: Machine)
    requires Wf(m) && m.running.Some? && c.next in m.tasks
    ensures Wf(r)
    ensures r.tasks.Keys == m.tasks.Keys
  {
    var t := m.tasks[m.running.value];
    if t.kind.Thread? && t.current == 0 then Dispatch(cfg, Leave(cfg, m, Throttled), c.next)
    else if t.kind.Lsr? then m
    else if c.resched then Dispatch(cfg, Leave(cfg, m, Ready), c.next)
    else Keep(cfg, m)
  }

  /** The task in the pending slot runs again. */
  function Restore(m: Machine): (r: Machine)
    requires Wf(m) && m.slot.Some?
    ensures Wf(r) && r.running.Some?
    ensures r.tasks.Keys == m.tasks.Keys
  {
    Put(m, m.slot.value, m.tasks[m.slot.value].(state := Running)).(running := m.slot, slot := None)
  }

  /** The top of the pending-LSR stack runs. */
  function RunLsr(m: Machine): (r: Machine)
    requires Wf(m) && m.lsrs != []
    ensures Wf(r)
    ensures r.tasks.Keys == m.tasks.Keys
  {
    Put(m, m.lsrs[0], m.tasks[m.lsrs[0]].(state := Running)).(running := Some(m.lsrs[0]), lsrs := m.lsrs[1..])
  }

  /** `kTickLsrPush` */
  function PushLsr(m: Machine, l: Id): (r: Machine)
    requires Wf(m) && l in m.tasks
    ensures Wf(r)
    ensures r.tasks.Keys == m.tasks.Keys
  {
    Put(m, l, m.tasks[l].(state := LsrPending)).(lsrs := [l] + m.lsrs)
  }

  /** `kTickReschedule` with nothing running: pending LSRs first, then the pending task, then the policy. */
  function Resume(cfg: Config, m: Machine, c: Choice): (r: Machine)
    requires Wf(m) && c.next in m.tasks
    ensures Wf(r)
    ensures r.tasks.Keys == m.tasks.Keys
  {
    if m.lsrs != [] then RunLsr(m)
    else if m.slot.None? then Dispatch(cfg, m, c.next)
    else Point(cfg, Restore(m), c)
  }

  /** `kTickReschedule` */
  function Resched(cfg: Config, m: Machine, c: Choice): (r: Machine)
    requires Wf(m) && c.next in m.tasks
    ensures Wf(r)
    ensures r.tasks.Keys == m.tasks.Keys
  {
    if m.running.None? then Resume(cfg, m, c)
    else if m.tasks[m.running.value].kind.Lsr? || m.lsrs == [] then m
    else RunLsr(Leave(cfg, m, DefPending))
  }

  // ------------------------------------------------------------------------
  // What the policy may answer.

  /** Some ready thread should run instead of the running one, by the rules of the policy. */
  ghost predicate Wants(cfg: Config, m: Machine)
    requires Wf(m) && m.running.Some?
  {
    var t := m.tasks[m.running.value];
    if t.kind.Idle? then ReadySet(m) != {}
    else match cfg.policy
      case RoundRobin =>
        exists x :: x in ReadySet(m) && (m.tasks[x].prio > t.prio || (m.tasks[x].prio == t.prio && t.link == 0))
      case Cyclic => t.link == 0 && ReadySet(m) != {}
      case Edf => exists x :: x in ReadySet(m) && Fixup(cfg, m.tasks[x]).link < t.link
  }

  /** `next` is a ready thread that the policy may pick first. */
  ghost predicate Best(cfg: Config, m: Machine, next: Id) {
    next in ReadySet(m) &&
    match cfg.policy
    case RoundRobin => forall x :: x in ReadySet(m) ==> m.tasks[x].prio <= m.tasks[next].prio
    case Cyclic => true
    case Edf => forall x :: x in ReadySet(m) ==> Fixup(cfg, m.tasks[next]).link <= Fixup(cfg, m.tasks[x]).link
  }

  ghost predicate NextOk(cfg: Config, rule: Rule, m: Machine, next: Id) {
    if ReadySet(m) == {} then next == m.idle
    else match rule
      case Contract => next in ReadySet(m)
      case Exact => Best(cfg, m, next)
  }

  /** `sameTick`: no tick has passed since the task was last running. */
  ghost predicate ReschedOk(cfg: Config, rule: Rule, m: Machine, resched: bool, sameTick: bool)
    requires Wf(m) && m.running.Some?
  {
    match rule
    case Exact => resched == Wants(cfg, m)
    case Contract =>
      && (resched ==> ReadySet(m) != {})
      && (m.tasks[m.running.value].kind.Idle? && ReadySet(m) != {} ==> resched)
      && (sameTick ==> !resched)
  }

  ghost predicate PointOk(cfg: Config, rule: Rule, m: Machine, c: Choice, sameTick: bool)
    requires Wf(m) && m.running.Some?
  {
    var t := m.tasks[m.running.value];
    if t.kind.Thread? && t.current == 0 then
      NextOk(cfg, rule, Leave(cfg, m, Throttled), c.next)
    else if t.kind.Lsr? then
      true
    else
      && ReschedOk(cfg, rule, m, c.resched, sameTick)
      && (c.resched ==> NextOk(cfg, rule, Leave(cfg, m, Ready), c.next))
  }

  ghost predicate ResumeOk(cfg: Config, rule: Rule, m: Machine, c: Choice)
    requires Wf(m)
  {
    m.lsrs != [] ||
    if m.slot.None? then NextOk(cfg, rule, m, c.next)
    else PointOk(cfg, rule, Restore(m), c, m.tasks[m.slot.value].state.DefPending?)
  }

  // ------------------------------------------------------------------------
  // Events and runs.

  predicate RunningKind(m: Machine, k: Kind)
    requires Wf(m)
  {
    m.running.Some? && m.tasks[m.running.value].kind == k
  }

  /** The state a control call puts the running task in (`kSysSchedCtrl`). */
  function Target(e: Event): State {
    match e
    case Yield(_) => DefYield
    case Throttle(_) => DefThrottle
    case SleepFor(_, _) => DefSleep
    case LsrDone(_) => LsrDormant
    case _ => Failure
  }

  predicate IsSwitch(e: Event) {
    e.Yield? || e.Throttle? || e.SleepFor? || e.LsrDone? || e.Fail?
  }

  /** Which kernel entries can happen: the type guards of `kSysSchedCtrl`, and ticks only interrupt a running task. */
  predicate Enabled(m: Machine, e: Event)
    requires Wf(m)
  {
    match e
    case Tick(c) => m.running.Some? && c.next in m.tasks
    case Yield(c) => RunningKind(m, Thread) && c.next in m.tasks
    case Throttle(c) => RunningKind(m, Thread) && c.next in m.tasks
    case SleepFor(n, c) => RunningKind(m, Thread) && 0 < n < WRAP && c.next in m.tasks
    case LsrDone(c) => RunningKind(m, Lsr) && c.next in m.tasks
    case Fail(c) => (RunningKind(m, Thread) || RunningKind(m, Lsr)) && c.next in m.tasks
    case LsrPush(l) => l in m.tasks && m.tasks[l].kind.Lsr? && m.tasks[l].state.LsrDormant?
    case PushCurrent => true
    case Reschedule(c) => c.next in m.tasks
  }

  /** The machine at the moment a switching event has taken the running task off the processor. */
  function Switched(cfg: Config, m: Machine, e: Event): (r: Machine)
    requires Wf(m) && IsSwitch(e) && Enabled(m, e)
    ensures Wf(r)
    ensures r.tasks.Keys == m.tasks.Keys
  {
    var id := m.running.value;
    var m := if e.SleepFor? then Put(m, id, m.tasks[id].(sleepTicks := e.ticks)) else m;
    Leave(cfg, m, Target(e))
  }

  function Apply(cfg: Config, m: Machine, e: Event): (r: Machine)
    requires Wf(m) && Enabled(m, e)
    ensures Wf(r)
    ensures r.tasks.Keys == m.tasks.Keys
  {
    match e
    case Tick(c) => Point(cfg, Phases(cfg, m), c)
    case LsrPush(l) => PushLsr(m, l)
    case PushCurrent =>
      if m.running.None? then m
      else Leave(cfg, m, if m.tasks[m.running.value].kind.Lsr? then LsrPending else DefPending)
    case Reschedule(c) => Resched(cfg, m, c)
    case _ => Resume(cfg, Switched(cfg, m, e), e.c)
  }

  /** The policy's answers during the event are ones the rule allows. */
  ghost predicate Legal(cfg: Config, rule: Rule, m: Machine, e: Event)
    requires Wf(m) && Enabled(m, e)
  {
    match e
    case Tick(c) => PointOk(cfg, rule, Phases(cfg, m), c, false)
    case LsrPush(_) => true
    case PushCurrent => true
    case Reschedule(c) => m.running.Some? || ResumeOk(cfg, rule, m, c)
    case _ => ResumeOk(cfg, rule, Switched(cfg, m, e), e.c)
  }

  ghost predicate Run(cfg: Config, rule: Rule, m: Machine, es: seq<Event>)
    requires Wf(m)
    decreases es
  {
    es == [] || (Enabled(m, es[0]) && Legal(cfg, rule, m, es[0]) && Run(cfg, rule, Apply(cfg, m, es[0]), es[1..]))
  }

  function Exec(cfg: Config, rule: Rule, m: Machine, es: seq<Event>): (r: Machine)
    requires Wf(m) && Run(cfg, rule, m, es)
    ensures Wf(r) && r.tasks.Keys == m.tasks.Keys
    decreases es
  {
    if es == [] then m else Exec(cfg, rule, Apply(cfg, m, es[0]), es[1..])
  }
}
