/**
 Earliest deadline first (doc/sched/policy/edf.md, src/workhorse/kSched/kSchedPolicy/kSchedEdf.c): who runs, and what
 happens to a deadline while its thread runs, yields, sleeps or is throttled.
 */
module Deadlines {
  import opened Tasks
  import opened TickSpec
  import opened TickInv
  import opened ThreadView
  import opened PolicyRuns

  /**
   The right thread runs, in every state that a run of the configured policy reaches: idle only when nothing is ready;
   otherwise no ready thread has a higher priority (round robin) or an earlier deadline (EDF).
   */
  lemma RightThreadRuns(cfg: Config, m: Machine, es: seq<Event>)
    requires Initial(cfg, m) && Run(cfg, Exact, m, es)
    ensures var n := Exec(cfg, Exact, m, es);
      n.running.Some? && !RunningKind(n, Lsr) ==>
        var t := n.tasks[n.running.value];
        if t.kind.Idle? then ReadySet(n) == {}
        else
          && (cfg.policy.RoundRobin? ==> forall x :: x in ReadySet(n) ==> n.tasks[x].prio <= t.prio)
          && (cfg.policy.Edf? ==> 0 < t.link && forall x :: x in ReadySet(n) ==> t.link <= n.tasks[x].link)
  {
    hide Initial, Inv;
    InitialInv(cfg, m);
    InitialPolicyInv(cfg, m);
    ExactRun(cfg, m, es);
  }

  /** No timeslice counter and no deadline is ever decremented below zero by the tick callback. */
  lemma TurnsNeverUnderflow(cfg: Config, m: Machine, es: seq<Event>, id: Id)
    requires Initial(cfg, m) && Run(cfg, Exact, m, es) && id in m.tasks
    ensures var t := Exec(cfg, Exact, m, es).tasks[id]; Charged(t) ==> t.link > 0
  {
    hide Initial, Inv;
    InitialInv(cfg, m);
    InitialPolicyInv(cfg, m);
    ExactRun(cfg, m, es);
  }

  /** Ticks until the deadline: the node's delta, plus the time the thread still has to stay away. */
  function Due(t: Task): nat {
    t.link + (if t.state.Throttled? then t.cool else if t.state.Sleep? then t.nap else 0)
  }

  /** The charge the next tick makes uses up the budget of a thread that is throttled for it on the spot. */
  predicate Exhausts(cfg: Config, t: Task) {
    && Charged(t) && !t.state.DefSleep? && (t.current == 1 || t.state.DefThrottle?)
    && ShouldThrottle(cfg, t)
  }

  /** Ticks until the thread can be ready again, counting the next one. */
  function Horizon(cfg: Config, t: Task): nat {
    if t.state.Throttled? then t.cool
    else if t.state.Sleep? then t.nap
    else if t.state.DefSleep? then t.sleepTicks
    else if Exhausts(cfg, t) then 1 + (if cfg.algorithm.Bcs? then t.period else t.cool)
    else 1
  }

  /**
   When a tick brings the deadline one tick closer. It does not while the thread waits PENDING under LSRs; a budget that
   runs out on the tick a sleep starts in is paid for with the cooldown on top of the sleep, unless the sleep ends there
   and then; and a thread that wakes up without budget is given its cooldown once more. Under DS the deadline also loses
   a tick whenever the budget runs out, because the chain of replenishments is ticked after the charge.
   */
  predicate Kept(cfg: Config, t: Task) {
    && !t.state.Pending?
    && match cfg.algorithm
       case Bcs =>
         && (t.state.DefSleep? ==> t.current > 1 || t.period == 0 || (t.sleepTicks == 1 && t.link > t.period))
         && (t.state.Sleep? ==> t.current > 0 || t.nap > 1 || t.period < t.sleepTicks)
       case Ds =>
         && !Exhausts(cfg, t)
         && (t.state.DefSleep? ==> t.current > 1 || t.period == 0 || (t.sleepTicks == 1 && t.link == t.cool))
         && (t.state.Sleep? ==> t.current > 0 || t.nap > 1 || t.period == 0 || t.cool == 1)
  }

  /** Ticks until the deadline in the middle of a tick: a running thread without budget is about to be throttled. */
  function DueMid(cfg: Config, t: Task): nat {
    if t.state.Running? && t.current == 0 then t.link + (if cfg.algorithm.Bcs? then t.period else t.cool) else Due(t)
  }

  /** What a tick does to a deadline. */
  predicate TickedDue(cfg: Config, t: Task) {
    var r := TickTask(cfg, t);
    && (Due(t) > Horizon(cfg, t) ==> (DueMid(cfg, r) == Due(t) - 1 <==> Kept(cfg, t)))
    && (Due(t) > Horizon(cfg, t) && Active(r.state) ==> r.link > 0)
    && (Due(t) <= Horizon(cfg, t) && !t.state.Pending? ==> r.link == 0 || r.link == r.allot)
  }

  lemma RunningDue(cfg: Config, t: Task)
    requires cfg.policy.Edf? && TaskOk(cfg, t, false) && t.kind.Thread? && LinkOk(cfg, t)
    requires t.state.Running?
    ensures TickedDue(cfg, t)
  {
  }

  /** The phases of a tick that matter to a thread which stays awake and has the tick to pay for. */
  lemma AwakeTick(cfg: Config, t: Task)
    requires cfg.policy.Edf? && TaskOk(cfg, t, false) && t.kind.Thread? && Deferred(t.state) && !t.state.DefSleep?
    ensures var paid := ChargeDeferred(cfg, t);
      TickTask(cfg, t) == if cfg.algorithm.Bcs? then paid else Replenish(cfg, paid)
  {
    hide Callback;
  }

  lemma YieldsDue(cfg: Config, t: Task)
    requires cfg.policy.Edf? && TaskOk(cfg, t, false) && t.kind.Thread? && LinkOk(cfg, t)
    requires t.state.DefYield?
    ensures TickedDue(cfg, t)
  {
    hide TickTask;
    AwakeTick(cfg, t);
  }

  lemma PreemptedDue(cfg: Config, t: Task)
    requires cfg.policy.Edf? && TaskOk(cfg, t, false) && t.kind.Thread? && LinkOk(cfg, t)
    requires t.state.DefPending?
    ensures TickedDue(cfg, t)
  {
    hide TickTask;
    AwakeTick(cfg, t);
  }

  lemma ThrottlesDue(cfg: Config, t: Task)
    requires cfg.policy.Edf? && TaskOk(cfg, t, false) && t.kind.Thread? && LinkOk(cfg, t)
    requires t.state.DefThrottle?
    ensures TickedDue(cfg, t)
  {
    hide TickTask;
    AwakeTick(cfg, t);
  }

  /** A thread that has just fallen asleep: it has paid for the tick, and for the time it will sleep. */
  function Asleep(cfg: Config, t: Task): Task
    requires t.state.DefSleep? && 0 < t.current && (cfg.algorithm.Ds? && t.period > 0 ==> 0 < t.cool)
  {
    var ds, left := cfg.algorithm.Ds? && t.period > 0, if t.link < t.sleepTicks then 0 else t.link - t.sleepTicks;
    var wait := if ds then t.cool else t.period;
    t.(state := Sleep, nap := t.sleepTicks,
       link := if t.link < t.sleepTicks then 0
               else if t.current == 1 then if left < wait then 0 else left - wait
               else if left == 0 then t.allot else left,
       current := if ds && t.cool == 1 then t.budget else t.current - 1,
       cool := if !ds then t.cool else if t.cool == 1 then t.period else t.cool - 1)
  }

  /** What the sleep chain finds when it is ticked. */
  lemma SleepStarts(cfg: Config, t: Task)
    requires cfg.policy.Edf? && TaskOk(cfg, t, false) && t.kind.Thread? && LinkOk(cfg, t)
    requires t.state.DefSleep?
    ensures TickTask(cfg, t) == SleepPhase(cfg, Asleep(cfg, t))
  {
    hide SleepPhase;
  }

  lemma FallAsleepDue(cfg: Config, t: Task)
    requires cfg.policy.Edf? && TaskOk(cfg, t, false) && t.kind.Thread? && LinkOk(cfg, t)
    requires t.state.DefSleep?
    ensures TickedDue(cfg, t)
  {
    hide TickTask;
    SleepStarts(cfg, t);
  }

  lemma AsleepDue(cfg: Config, t: Task)
    requires cfg.policy.Edf? && TaskOk(cfg, t, false) && t.kind.Thread? && t.state.Sleep?
    ensures TickedDue(cfg, t)
  {
  }

  lemma TickDue(cfg: Config, t: Task)
    requires cfg.policy.Edf? && TaskOk(cfg, t, false) && t.kind.Thread? && LinkOk(cfg, t) && !t.state.Failure?
    ensures TickedDue(cfg, t)
  {
    if t.state.Running? {
      RunningDue(cfg, t);
    } else if t.state.DefSleep? {
      FallAsleepDue(cfg, t);
    } else if t.state.DefThrottle? {
      ThrottlesDue(cfg, t);
    } else if t.state.DefYield? {
      YieldsDue(cfg, t);
    } else if t.state.DefPending? {
      PreemptedDue(cfg, t);
    } else if t.state.Sleep? {
      AsleepDue(cfg, t);
    }
  }

  /** The rescheduling point that ends a tick leaves a running deadline where the tick has put it. */
  lemma PointDue(cfg: Config, r: Task, b: Task)
    requires cfg.policy.Edf? && TaskOk(cfg, r, true) && TaskOk(cfg, b, false) && r.kind.Thread?
    requires Moves(cfg, r, b) && Shifts(cfg, r, b) && !r.state.Failure?
    ensures Active(r.state) ==> r.link > 0 ==> Due(b) == DueMid(cfg, r) && b.link == r.link
    ensures !Active(r.state) ==> Due(b) == DueMid(cfg, r) && b.link == r.link && b.state == r.state
    ensures r.link in {0, r.allot} ==> b.link in {0, b.allot}
    ensures Active(b.state) ==> Active(r.state)
  {
  }

  /**
   A tick brings every deadline exactly one tick closer if and only if the source accounts for it (`Kept`), whether the
   thread runs, is preempted, has yielded, sleeps or cools down, as long as the thread can be ready again before the
   deadline; otherwise, unless it waits under an LSR, a new deadline starts.
   */
  lemma DeadlineKept(cfg: Config, o: Obs)
    requires cfg.policy.Edf? && ObsOk(cfg, o) && o.tick && LinkOk(cfg, o.before)
    requires !o.before.state.Failure?
    ensures Due(o.before) > Horizon(cfg, o.before) ==>
      && (Due(o.after) == Due(o.before) - 1 <==> Kept(cfg, o.before))
      && (Active(o.after.state) ==> o.after.link > 0)
    ensures Due(o.before) <= Horizon(cfg, o.before) && !o.before.state.Pending? ==>
      o.after.link == 0 || o.after.link == o.after.allot
  {
    hide TickTask, LinkOk, TaskOk, Moves, Shifts, Owes, Horizon, Due, DueMid, Kept;
    TickDue(cfg, o.before);
    TickTaskOk(cfg, o.before);
    PointDue(cfg, TickTask(cfg, o.before), o.after);
  }

  /** No other event moves a deadline: not dispatching, preemption, LSRs, yielding or falling asleep. */
  lemma DeadlineUntouched(cfg: Config, o: Obs)
    requires cfg.policy.Edf? && ObsOk(cfg, o) && !o.tick
    requires Active(o.before.state) ==> o.before.link > 0
    ensures o.after.link == o.before.link && Due(o.after) == Due(o.before)
    ensures Active(o.after.state) ==> Active(o.before.state)
  {
  }

  // ------------------------------------------------------------------------
  // Over whole runs.

  /** At every tick of the view the deadline is still ahead, and accounted for. */
  ghost predicate Ahead(cfg: Config, v: seq<Obs>) {
    forall i :: 0 <= i < |v| ==>
      v[i].tick ==>
        !v[i].before.state.Failure? && Due(v[i].before) > Horizon(cfg, v[i].before) && Kept(cfg, v[i].before)
  }

  /**
   On a run of the configured policy a thread's deadline comes closer by exactly the ticks that pass, through any mix of
   running, preemption, yielding, sleeping and cooling down, as long as each tick finds it ahead and accounted for.
   */
  lemma {:induction false} DeadlineRun(cfg: Config, m: Machine, es: seq<Event>, id: Id)
    requires cfg.policy.Edf? && Inv(cfg, m) && PolicyInv(cfg, m) && Run(cfg, Exact, m, es)
    requires id in m.tasks && m.tasks[id].kind.Thread?
    requires Active(m.tasks[id].state) ==> m.tasks[id].link > 0
    requires Ahead(cfg, View(cfg, Exact, m, es, id))
    ensures Due(Exec(cfg, Exact, m, es).tasks[id]) == Due(m.tasks[id]) - TickCount(View(cfg, Exact, m, es, id))
    decreases es
  {
    hide Apply, Legal, TasksOk, Placed, Settled, LinkOk, TickTask, TaskOk, Moves, Shifts, Owes, Horizon, Kept, Due;
    if es != [] {
      var n := Apply(cfg, m, es[0]);
      var o := Obs(es[0].Tick?, m.tasks[id], n.tasks[id], n.running == Some(id));
      var v := View(cfg, Exact, m, es, id);
      assert v[0] == o && v[1..] == View(cfg, Exact, n, es[1..], id);
      StepExact(cfg, m, es[0]);
      StepOk(cfg, m, es[0], id);
      if o.tick {
        DeadlineKept(cfg, o);
      } else {
        DeadlineUntouched(cfg, o);
      }
      AheadOn(cfg, v);
      DeadlineRun(cfg, n, es[1..], id);
    }
  }

  lemma AheadOn(cfg: Config, v: seq<Obs>)
    requires Ahead(cfg, v) && v != []
    ensures Ahead(cfg, v[1..])
  {
  }
}
