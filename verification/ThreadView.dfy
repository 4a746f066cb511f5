/**
 A run of the machine as one thread sees it: what each event may do to the thread's account. The theorems about budgets
 are about such views, and `ViewOk` says that every run gives one.
 */
module ThreadView {
  import opened Tasks
  import opened TickSpec
  import opened TickInv

  /** The thread pays in the tick that comes next. */
  predicate Charged(t: Task) {
    t.kind.Thread? && (t.state.Running? || Deferred(t.state))
  }

  /** Still competing for the processor: neither cooling down, asleep nor failed. */
  predicate Active(s: State) {
    s.Ready? || s.Running? || Deferred(s) || s.Pending?
  }

  /** Under EDF a deadline only ever changes by starting over once it has passed, and not while the thread is away. */
  predicate SameDeadline(cfg: Config, a: Task, b: Task) {
    cfg.policy.Edf? ==> b.link == a.link || (a.link == 0 && b.link == a.allot && Active(a.state))
  }

  /** What an event other than the tick itself may do to a thread's account: nothing, except send it off. */
  predicate Moves(cfg: Config, a: Task, b: Task) {
    && b == a.(state := b.state, link := b.link, cool := b.cool, sleepTicks := b.sleepTicks)
    && SameDeadline(cfg, a, b)
    && (b.state == a.state || a.state.Running? || Active(b.state))
    && (b.sleepTicks == a.sleepTicks || (a.state.Running? && Active(b.state)))
    && (Active(a.state) ==>
      Active(b.state) || (a.state.Running? && (b.state.Failure? || (b.state.Throttled? && b.current == 0))))
    && (!Active(a.state) ==> b.state == a.state)
    && b.cool == (if b.state.Throttled? && a.state.Running? && cfg.algorithm.Bcs? then b.period else a.cool)
  }

  /**
   Whoever had to pay still does, unless it failed; nobody is made to pay for a tick it did not run in; and who has left
   of its own accord stays away until the tick.
   */
  predicate Owes(a: Task, b: Task) {
    && (Charged(a) && !b.state.Failure? ==> Charged(b))
    && (Deferred(b.state) ==> Charged(a))
    && (a.state.DefYield? || a.state.DefThrottle? || a.state.DefSleep? ==> b.state == a.state)
  }

  /** What the rescheduling point may do to a thread. */
  predicate Shifts(cfg: Config, a: Task, b: Task) {
    && b == a.(state := b.state, link := b.link, cool := b.cool)
    && SameDeadline(cfg, a, b)
    && (b.state == a.state || (b.state.Running? && a.state.Ready?)
        || (a.state.Running? && (b.state.Ready? || (b.state.Throttled? && b.current == 0))))
    && b.cool == (if b.state.Throttled? && a.state.Running? && cfg.algorithm.Bcs? then b.period else a.cool)
  }

  lemma LeaveMoves(cfg: Config, m: Machine, next: State, id: Id)
    requires Inv(cfg, m, true) && m.running.Some? && MayLeave(m, next)
    requires id in m.tasks && m.tasks[id].kind.Thread?
    ensures var b := Leave(cfg, m, next).tasks[id];
      && Moves(cfg, m.tasks[id], b)
      && (if m.running == Some(id) then b.state == next else b == m.tasks[id])
  {
  }

  lemma DispatchMoves(cfg: Config, m: Machine, next: Id, id: Id)
    requires Inv(cfg, m) && m.running.None? && m.slot.None? && NextOk(cfg, Contract, m, next)
    requires id in m.tasks
    ensures next in m.tasks && m.tasks[next].state.Ready?
    ensures var b := Dispatch(cfg, m, next).tasks[id];
      && b == m.tasks[id].(state := if id == next then Running else m.tasks[id].state, link := b.link)
      && SameDeadline(cfg, m.tasks[id], b)
  {
    PoppedIsReady(cfg, m, next);
  }

  /** The running thread is replaced at the rescheduling point. */
  lemma ReplaceMoves(cfg: Config, m: Machine, to: State, next: Id, id: Id)
    requires Inv(cfg, m, true) && m.running.Some? && m.slot.None? && MayLeave(m, to) && to in {Ready, Throttled}
    requires NextOk(cfg, Contract, Leave(cfg, m, to), next)
    requires id in m.tasks && m.tasks[id].kind.Thread?
    ensures next in m.tasks
    ensures var b := Dispatch(cfg, Leave(cfg, m, to), next).tasks[id];
      Shifts(cfg, m.tasks[id], b)
  {
    LeaveOk(cfg, m, to);
    LeaveMoves(cfg, m, to, id);
    DispatchMoves(cfg, Leave(cfg, m, to), next, id);
  }

  lemma PointMoves(cfg: Config, m: Machine, c: Choice, sameTick: bool, id: Id)
    requires Inv(cfg, m, true) && m.running.Some? && c.next in m.tasks
    requires id in m.tasks && m.tasks[id].kind.Thread?
    requires PointOk(cfg, Contract, m, c, sameTick)
    ensures var b := Point(cfg, m, c).tasks[id];
      && Shifts(cfg, m.tasks[id], b)
      && (sameTick && m.tasks[m.running.value].current > 0 ==> b.state == m.tasks[id].state)
  {
    var t := m.tasks[m.running.value];
    if t.kind.Thread? && t.current == 0 {
      ReplaceMoves(cfg, m, Throttled, c.next, id);
    } else if t.kind.Lsr? {
    } else if c.resched {
      ReplaceMoves(cfg, m, Ready, c.next, id);
    } else {
      KeepMoves(cfg, m, id);
    }
  }

  lemma KeepMoves(cfg: Config, m: Machine, id: Id)
    requires Wf(m) && m.running.Some? && id in m.tasks
    ensures Keep(cfg, m).tasks[id] == m.tasks[id].(link := Keep(cfg, m).tasks[id].link)
    ensures SameDeadline(cfg, m.tasks[id], Keep(cfg, m).tasks[id])
  {
  }

  lemma RestoreMoves(cfg: Config, m: Machine, c: Choice, id: Id)
    requires Inv(cfg, m) && m.running.None? && m.slot.Some? && c.next in m.tasks
    requires PointOk(cfg, Contract, Restore(m), c, m.tasks[m.slot.value].state.DefPending?)
    requires id in m.tasks && m.tasks[id].kind.Thread?
    ensures var b := Point(cfg, Restore(m), c).tasks[id];
      Moves(cfg, m.tasks[id], b) && Owes(m.tasks[id], b) && (m.tasks[id].state.Failure? ==> b.state.Failure?)
  {
    RestoreOk(cfg, m);
    var r := Restore(m);
    PointMoves(cfg, r, c, m.tasks[m.slot.value].state.DefPending?, id);
    RestoreTrans(cfg, m.tasks[id], r.tasks[id], Point(cfg, r, c).tasks[id], m.slot == Some(id));
  }

  lemma RestoreTrans(cfg: Config, a: Task, r: Task, b: Task, pending: bool)
    requires TaskOk(cfg, a, false) && a.kind.Thread?
    requires if pending then r == a.(state := Running) && (a.state.DefPending? || a.state.Pending?)
      else r == a && !a.state.Running?
    requires Shifts(cfg, r, b)
    requires pending && a.state.DefPending? ==> b.state == r.state
    ensures Moves(cfg, a, b) && Owes(a, b) && (a.state.Failure? ==> b.state.Failure?)
  {
  }

  /** Coming back from an LSR, or picking the next task: only ready and pending threads move. */
  lemma ResumeMoves(cfg: Config, m: Machine, c: Choice, id: Id)
    requires Inv(cfg, m) && m.running.None? && c.next in m.tasks && ResumeOk(cfg, Contract, m, c)
    requires id in m.tasks && m.tasks[id].kind.Thread?
    ensures var b := Resume(cfg, m, c).tasks[id];
      Moves(cfg, m.tasks[id], b) && Owes(m.tasks[id], b) && (m.tasks[id].state.Failure? ==> b.state.Failure?)
  {
    if m.lsrs != [] {
      assert m.tasks[m.lsrs[0]].kind.Lsr?;
    } else if m.slot.None? {
      hide Dispatch, NextOk, TaskOk;
      DispatchMoves(cfg, m, c.next, id);
    } else {
      hide Restore, Point, PointOk, TaskOk;
      RestoreMoves(cfg, m, c, id);
    }
  }

  lemma SwitchedMoves(cfg: Config, m: Machine, e: Event, id: Id)
    requires Inv(cfg, m) && IsSwitch(e) && Enabled(m, e) && id in m.tasks && m.tasks[id].kind.Thread?
    ensures var b := Switched(cfg, m, e).tasks[id];
      && Moves(cfg, m.tasks[id], b) && Owes(m.tasks[id], b)
      && !b.state.Running? && (b.state.Throttled? ==> b == m.tasks[id])
  {
  }

  lemma MovesTrans(cfg: Config, a: Task, b: Task, c: Task)
    requires Moves(cfg, a, b) && Moves(cfg, b, c) && !b.state.Running? && (b.state.Throttled? ==> b == a)
    ensures Moves(cfg, a, c)
  {
  }

  /** Every event but the tick: a thread's account is untouched, and whoever was running still has to pay. */
  lemma StepMoves(cfg: Config, m: Machine, e: Event, id: Id)
    requires Inv(cfg, m) && Enabled(m, e) && Legal(cfg, Contract, m, e) && !e.Tick?
    requires id in m.tasks && m.tasks[id].kind.Thread?
    ensures var b := Apply(cfg, m, e).tasks[id];
      Moves(cfg, m.tasks[id], b) && Owes(m.tasks[id], b) && b.kind.Thread?
  {
    hide Phases, Point, PointOk, Resume, ResumeOk, Switched, Resched;
    if e.LsrPush? {
    } else if e.PushCurrent? {
      if m.running.Some? {
        LeaveMoves(cfg, m, if m.tasks[m.running.value].kind.Lsr? then LsrPending else DefPending, id);
      }
    } else if e.Reschedule? {
      ReschedMoves(cfg, m, e.c, id);
    } else {
      SwitchMoves(cfg, m, e, id);
    }
  }

  lemma SwitchMoves(cfg: Config, m: Machine, e: Event, id: Id)
    requires Inv(cfg, m) && IsSwitch(e) && Enabled(m, e) && ResumeOk(cfg, Contract, Switched(cfg, m, e), e.c)
    requires id in m.tasks && m.tasks[id].kind.Thread?
    ensures var b := Resume(cfg, Switched(cfg, m, e), e.c).tasks[id];
      Moves(cfg, m.tasks[id], b) && Owes(m.tasks[id], b) && b.kind.Thread?
  {
    hide Resume, ResumeOk;
    var s := Switched(cfg, m, e);
    SwitchedOk(cfg, m, e);
    SwitchedMoves(cfg, m, e, id);
    ResumeMoves(cfg, s, e.c, id);
    MovesTrans(cfg, m.tasks[id], s.tasks[id], Resume(cfg, s, e.c).tasks[id]);
  }

  lemma ReschedMoves(cfg: Config, m: Machine, c: Choice, id: Id)
    requires Inv(cfg, m) && c.next in m.tasks && (m.running.Some? || ResumeOk(cfg, Contract, m, c))
    requires id in m.tasks && m.tasks[id].kind.Thread?
    ensures var b := Resched(cfg, m, c).tasks[id];
      Moves(cfg, m.tasks[id], b) && Owes(m.tasks[id], b) && b.kind.Thread?
  {
    hide Resume, ResumeOk;
    if m.running.None? {
      ResumeMoves(cfg, m, c, id);
    } else if !m.tasks[m.running.value].kind.Lsr? && m.lsrs != [] {
      LeaveMoves(cfg, m, DefPending, id);
      assert m.tasks[m.lsrs[0]].kind.Lsr?;
    }
  }

  /** The tick: the phases first, then the rescheduling point moves threads around. No tick stays deferred. */
  lemma TickMoves(cfg: Config, m: Machine, c: Choice, id: Id)
    requires Inv(cfg, m) && Enabled(m, Tick(c)) && Legal(cfg, Contract, m, Tick(c))
    requires id in m.tasks && m.tasks[id].kind.Thread?
    ensures var b := Apply(cfg, m, Tick(c)).tasks[id];
      && Moves(cfg, TickTask(cfg, m.tasks[id]), b) && Shifts(cfg, TickTask(cfg, m.tasks[id]), b)
      && !Deferred(b.state) && b.kind.Thread?
  {
    hide TickTask, PointOk, Point;
    PhasesOk(cfg, m);
    TickTaskOk(cfg, m.tasks[id]);
    PointMoves(cfg, Phases(cfg, m), c, false, id);
  }

  // ------------------------------------------------------------------------
  // Runs.

  /** One event as one thread sees it: `runs` says whether the thread is the running task afterwards. */
  datatype Obs = Obs(tick: bool, before: Task, after: Task, runs: bool)

  function View(cfg: Config, rule: Rule, m: Machine, es: seq<Event>, id: Id): seq<Obs>
    requires Wf(m) && Run(cfg, rule, m, es) && id in m.tasks
    decreases es
  {
    if es == [] then [] else
    var n := Apply(cfg, m, es[0]);
    [Obs(es[0].Tick?, m.tasks[id], n.tasks[id], n.running == Some(id))] + View(cfg, rule, n, es[1..], id)
  }

  function TickCount(v: seq<Obs>): nat {
    if v == [] then 0 else (if v[0].tick then 1 else 0) + TickCount(v[1..])
  }

  predicate ObsOk(cfg: Config, o: Obs) {
    && o.before.kind.Thread? && o.after.kind.Thread?
    && TaskOk(cfg, o.before, false) && TaskOk(cfg, o.after, false)
    && (o.runs <==> o.after.state.Running?)
    && (if o.tick then
          && Moves(cfg, TickTask(cfg, o.before), o.after) && Shifts(cfg, TickTask(cfg, o.before), o.after)
          && !Deferred(o.after.state)
        else Moves(cfg, o.before, o.after) && Owes(o.before, o.after))
  }

  ghost predicate Chained(cfg: Config, t: Task, v: seq<Obs>)
    decreases v
  {
    v == [] || (v[0].before == t && ObsOk(cfg, v[0]) && Chained(cfg, v[0].after, v[1..]))
  }

  lemma StepOk(cfg: Config, m: Machine, e: Event, id: Id)
    requires Inv(cfg, m) && Enabled(m, e) && Legal(cfg, Contract, m, e)
    requires id in m.tasks && m.tasks[id].kind.Thread?
    ensures Inv(cfg, Apply(cfg, m, e))
    ensures ObsOk(cfg, Obs(e.Tick?, m.tasks[id], Apply(cfg, m, e).tasks[id], Apply(cfg, m, e).running == Some(id)))
  {
    hide TickTask, Apply, Legal, Moves, Shifts, Owes;
    StepInv(cfg, m, e);
    if e.Tick? {
      TickMoves(cfg, m, e.c, id);
    } else {
      StepMoves(cfg, m, e, id);
    }
  }

  lemma {:induction false} ViewOk(cfg: Config, m: Machine, es: seq<Event>, id: Id)
    requires Inv(cfg, m) && Run(cfg, Contract, m, es)
    requires id in m.tasks && m.tasks[id].kind.Thread?
    ensures Chained(cfg, m.tasks[id], View(cfg, Contract, m, es, id))
    decreases es
  {
    hide Apply, Legal, TickTask, Moves, Shifts, Owes;
    if es != [] {
      var n := Apply(cfg, m, es[0]);
      StepOk(cfg, m, es[0], id);
      ViewOk(cfg, n, es[1..], id);
    }
  }
}
