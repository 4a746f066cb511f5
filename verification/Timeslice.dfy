/**
 Timeslices of the round-robin and cyclic policies, over every run: a dispatched thread keeps the processor from threads
 that are no better than itself until it has been charged for its timeslice, and no longer
 (src/workhorse/kSched/kSchedPolicy/kSchedRr.c:153-256, kSchedCyclic.c:151-251).
 */
module Timeslice {
  import opened Tasks
  import opened TickSpec
  import opened TickInv
  import opened ThreadView
  import opened Supply
  import opened PolicyRuns
  import opened Account
  import opened Turns

  // ------------------------------------------------------------------------
  // One entry.

  lemma TickLink(cfg: Config, t: Task)
    requires !cfg.policy.Edf? && TaskOk(cfg, t, false) && t.kind.Thread? && (Charged(t) ==> t.link > 0)
    ensures TickTask(cfg, t).link == t.link - if Charged(t) then 1 else 0
  {
    hide ShouldThrottle;
  }

  /** A rescheduling point leaves a timeslice alone as long as it is not used up. */
  lemma PointLink(cfg: Config, m: Machine, c: Choice, x: Id)
    requires !cfg.policy.Edf? && Wf(m) && m.running.Some? && c.next in m.tasks
    requires x in m.tasks && m.tasks[x].kind.Thread?
    ensures if PointPick(m, c) == Some(x) then Point(cfg, m, c).tasks[x].link == m.tasks[x].allot
      else m.tasks[x].link > 0 ==> Point(cfg, m, c).tasks[x].link == m.tasks[x].link
  {
  }

  lemma ResumeLink(cfg: Config, m: Machine, c: Choice, x: Id)
    requires !cfg.policy.Edf? && Wf(m) && c.next in m.tasks && x in m.tasks && m.tasks[x].kind.Thread?
    ensures if ResumePick(m, c) == Some(x) then Resume(cfg, m, c).tasks[x].link == m.tasks[x].allot
      else m.tasks[x].link > 0 ==> Resume(cfg, m, c).tasks[x].link == m.tasks[x].link
  {
    hide Point, PointPick;
    if m.lsrs == [] && m.slot.Some? {
      PointLink(cfg, Restore(m), c, x);
    }
  }

  predicate SameSlice(m: Machine, n: Machine, x: Id) {
    && x in m.tasks && x in n.tasks
    && n.tasks[x].link == m.tasks[x].link && n.tasks[x].allot == m.tasks[x].allot && n.tasks[x].kind == m.tasks[x].kind
  }

  lemma SwitchedLink(cfg: Config, m: Machine, e: Event, x: Id)
    requires Wf(m) && IsSwitch(e) && Enabled(m, e) && x in m.tasks && !cfg.policy.Edf?
    ensures SameSlice(m, Switched(cfg, m, e), x)
  {
  }

  /** What an event does to the timeslice of a thread that has some of it left. */
  predicate Sliced(t: Task, r: Task, picked: bool, paid: bool) {
    var left := t.link - if paid then 1 else 0;
    if picked then r.link == t.allot else left > 0 ==> r.link == left
  }

  lemma TickSlice(cfg: Config, m: Machine, c: Choice, x: Id)
    requires !cfg.policy.Edf? && Inv(cfg, m) && PolicyInv(cfg, m) && Enabled(m, Tick(c))
    requires x in m.tasks && m.tasks[x].kind.Thread?
    ensures Sliced(m.tasks[x], Apply(cfg, m, Tick(c)).tasks[x], Pick(cfg, m, Tick(c)) == Some(x), Charged(m.tasks[x]))
  {
    hide TasksOk, Placed, PolicyRuns.Settled, TickTask, Point, PointPick;
    TaskIs(cfg, m, x);
    TickLink(cfg, m.tasks[x]);
    PointLink(cfg, Phases(cfg, m), c, x);
  }

  lemma SwitchSlice(cfg: Config, m: Machine, e: Event, x: Id)
    requires !cfg.policy.Edf? && Wf(m) && Enabled(m, e) && (IsSwitch(e) || (e.Reschedule? && m.running.None?))
    requires x in m.tasks && m.tasks[x].kind.Thread?
    ensures Sliced(m.tasks[x], Apply(cfg, m, e).tasks[x], Pick(cfg, m, e) == Some(x), false)
  {
    hide Resume, ResumePick, Switched;
    if IsSwitch(e) {
      SwitchedLink(cfg, m, e, x);
      ResumeLink(cfg, Switched(cfg, m, e), e.c, x);
    } else {
      ResumeLink(cfg, m, e.c, x);
    }
  }

  lemma LeaveSlice(cfg: Config, m: Machine, next: State, x: Id)
    requires !cfg.policy.Edf? && Wf(m) && m.running.Some? && x in m.tasks
    ensures SameSlice(m, Leave(cfg, m, next), x)
  {
  }

  lemma QuietSlice(cfg: Config, m: Machine, e: Event, x: Id)
    requires !cfg.policy.Edf? && Wf(m) && Enabled(m, e) && x in m.tasks && m.tasks[x].kind.Thread?
    requires e.LsrPush? || e.PushCurrent? || (e.Reschedule? && m.running.Some?)
    ensures Sliced(m.tasks[x], Apply(cfg, m, e).tasks[x], Pick(cfg, m, e) == Some(x), false)
  {
    hide Leave;
    if m.running.Some? {
      LeaveSlice(cfg, m, DefPending, x);
      LeaveSlice(cfg, m, LsrPending, x);
    }
  }

  lemma StepLink(cfg: Config, m: Machine, e: Event, x: Id)
    requires !cfg.policy.Edf? && Inv(cfg, m) && PolicyInv(cfg, m) && Enabled(m, e)
    requires x in m.tasks && m.tasks[x].kind.Thread?
    ensures Sliced(m.tasks[x], Apply(cfg, m, e).tasks[x], Pick(cfg, m, e) == Some(x), e.Tick? && Charged(m.tasks[x]))
  {
    hide Apply, Pick, Sliced, TasksOk, Placed, PolicyInv;
    if e.Tick? {
      TickSlice(cfg, m, e.c, x);
    } else if IsSwitch(e) || (e.Reschedule? && m.running.None?) {
      SwitchSlice(cfg, m, e, x);
    } else {
      QuietSlice(cfg, m, e, x);
    }
  }

  lemma TaskIs(cfg: Config, m: Machine, x: Id)
    requires Inv(cfg, m) && x in m.tasks
    ensures TaskOk(cfg, m.tasks[x], false)
  {
  }

  // ------------------------------------------------------------------------
  // Runs.

  lemma SameAllot(cfg: Config, m: Machine, e: Event, x: Id)
    requires Inv(cfg, m) && Enabled(m, e) && Legal(cfg, Contract, m, e) && x in m.tasks && m.tasks[x].kind.Thread?
    ensures var r := Apply(cfg, m, e).tasks[x];
      r.kind.Thread? && r.allot == m.tasks[x].allot && r.prio == m.tasks[x].prio
  {
    hide Apply, Legal, TickTask;
    StepOk(cfg, m, e, x);
  }

  /** As long as a thread is not dispatched again, its timeslice goes down by the ticks it pays for, to the last one. */
  lemma {:induction false} SliceCounts(cfg: Config, m: Machine, es: seq<Event>, x: Id)
    requires !cfg.policy.Edf? && Inv(cfg, m) && PolicyInv(cfg, m) && Run(cfg, Exact, m, es) && Run(cfg, Contract, m, es)
    requires x in m.tasks && m.tasks[x].kind.Thread? && x !in Dispatched(cfg, m, es)
    requires Paid(cfg, m, es, x) < m.tasks[x].link
    ensures var r := Exec(cfg, Exact, m, es);
      r.tasks[x].link == m.tasks[x].link - Paid(cfg, m, es, x)
    decreases es
  {
    hide Apply, Legal, TasksOk, Placed, PolicyInv, Pick, Count, Charged;
    if es == [] {
      NothingPaid(cfg, m, x);
    } else {
      var n := Apply(cfg, m, es[0]);
      StepExact(cfg, m, es[0]);
      StepInv(cfg, m, es[0]);
      SameAllot(cfg, m, es[0], x);
      StepLink(cfg, m, es[0], x);
      PaidOn(cfg, m, es, x);
      SliceCounts(cfg, n, es[1..], x);
    }
  }

  lemma PaidOn(cfg: Config, m: Machine, es: seq<Event>, x: Id)
    requires Wf(m) && Run(cfg, Contract, m, es) && es != [] && x in m.tasks
    ensures Paid(cfg, m, es, x) ==
      (if es[0].Tick? && Charged(m.tasks[x]) then 1 else 0) + Paid(cfg, Apply(cfg, m, es[0]), es[1..], x)
  {
    hide Apply, Legal, Count, Charged;
    CountLog(View(cfg, Contract, m, es, x));
  }

  // ------------------------------------------------------------------------
  // Not before its time, and no later.

  /** Event `e` dispatches thread `x`, and nothing in the run `es` after it does so again. */
  ghost predicate Turn(cfg: Config, m: Machine, e: Event, es: seq<Event>, x: Id)
    requires Wf(m)
  {
    && x in m.tasks && m.tasks[x].kind.Thread?
    && Enabled(m, e) && Legal(cfg, Exact, m, e) && Pick(cfg, m, e) == Some(x)
    && Run(cfg, Exact, Apply(cfg, m, e), es) && x !in Dispatched(cfg, Apply(cfg, m, e), es)
  }

  /** The ticks that the thread has paid for in this turn. */
  function PaidInTurn(cfg: Config, m: Machine, e: Event, es: seq<Event>, x: Id): nat
    requires Wf(m) && Enabled(m, e) && Run(cfg, Contract, Apply(cfg, m, e), es) && x in m.tasks
  {
    Paid(cfg, Apply(cfg, m, e), es, x)
  }

  /** What is left of the timeslice during a turn. */
  lemma TurnSoFar(cfg: Config, m: Machine, e: Event, es: seq<Event>, x: Id)
    requires !cfg.policy.Edf? && Inv(cfg, m) && PolicyInv(cfg, m) && Turn(cfg, m, e, es, x)
    ensures Run(cfg, Contract, Apply(cfg, m, e), es)
    ensures var k := Exec(cfg, Exact, Apply(cfg, m, e), es);
      && Inv(cfg, k) && PolicyInv(cfg, k) && k.tasks[x].kind.Thread?
      && k.tasks[x].allot == m.tasks[x].allot && k.tasks[x].prio == m.tasks[x].prio
      && (PaidInTurn(cfg, m, e, es, x) < m.tasks[x].allot ==>
        k.tasks[x].link == m.tasks[x].allot - PaidInTurn(cfg, m, e, es, x))
  {
    hide Apply, Legal, TasksOk, Placed, PolicyInv, Pick, Dispatched, Paid;
    var n := Apply(cfg, m, e);
    StepExact(cfg, m, e);
    StepInv(cfg, m, e);
    SameAllot(cfg, m, e, x);
    StepLink(cfg, m, e, x);
    ExactRun(cfg, n, es);
    RunInv(cfg, n, es);
    SameAlloted(cfg, n, es, x);
    if PaidInTurn(cfg, m, e, es, x) < m.tasks[x].allot {
      SliceCounts(cfg, n, es, x);
    }
  }

  lemma {:induction false} SameAlloted(cfg: Config, m: Machine, es: seq<Event>, x: Id)
    requires Inv(cfg, m) && Run(cfg, Contract, m, es) && x in m.tasks && m.tasks[x].kind.Thread?
    ensures var r := Exec(cfg, Contract, m, es).tasks[x];
      r.kind.Thread? && r.allot == m.tasks[x].allot && r.prio == m.tasks[x].prio
    decreases es
  {
    hide Apply, Legal;
    if es != [] {
      SameAllot(cfg, m, es[0], x);
      StepInv(cfg, m, es[0]);
      SameAlloted(cfg, Apply(cfg, m, es[0]), es[1..], x);
    }
  }

  /** The rescheduling point puts a thread back among the ready ones only when the policy wants it replaced. */
  lemma OnlyIfWanted(cfg: Config, m: Machine, c: Choice, x: Id)
    requires Wf(m) && m.running == Some(x) && m.tasks[x].kind.Thread? && c.next in m.tasks
    requires m.tasks[x].state.Running? && Point(cfg, m, c).tasks[x].state.Ready?
    ensures m.tasks[x].current > 0 && c.resched && c.next != x && Point(cfg, m, c).running == Some(c.next)
  {
    hide Push, Fixup, Popped;
  }

  lemma SomeoneBetter(cfg: Config, m: Machine, next: Id, x: Id)
    requires !cfg.policy.Edf? && Wf(m) && m.running == Some(x) && m.tasks[x].kind.Thread? && m.tasks[x].link > 0
    requires Wants(cfg, m) && NextOk(cfg, Exact, Leave(cfg, m, Ready), next) && next in m.tasks
    ensures cfg.policy.RoundRobin? && m.tasks[next].kind.Thread? && m.tasks[next].prio > m.tasks[x].prio
  {
    var y :| y in ReadySet(m) && m.tasks[y].prio > m.tasks[x].prio;
    LeaveReady(cfg, m, x, y, next);
  }

  lemma LeaveReady(cfg: Config, m: Machine, x: Id, y: Id, next: Id)
    requires Wf(m) && m.running == Some(x) && m.tasks[x].kind.Thread? && y in ReadySet(m) && next in m.tasks
    ensures var n := Leave(cfg, m, Ready);
      && y in ReadySet(n) && n.tasks[y].prio == m.tasks[y].prio
      && n.tasks[next].prio == m.tasks[next].prio && n.tasks[next].kind == m.tasks[next].kind
  {
    hide Push;
  }

  /**
   While a thread has not been charged for its whole timeslice, a tick takes the processor from it only for a thread of
   a strictly higher priority, or because its budget is used up; under the cyclic policy only for the latter.
   */
  lemma NotBeforeItsTime(cfg: Config, m: Machine, e: Event, es: seq<Event>, c: Choice, x: Id)
    requires !cfg.policy.Edf? && Inv(cfg, m) && PolicyInv(cfg, m) && Turn(cfg, m, e, es, x)
    requires Run(cfg, Contract, Apply(cfg, m, e), es) && PaidInTurn(cfg, m, e, es, x) + 1 < m.tasks[x].allot
    requires var k := Exec(cfg, Exact, Apply(cfg, m, e), es);
      && k.running == Some(x) && Enabled(k, Tick(c)) && Legal(cfg, Exact, k, Tick(c))
      && Apply(cfg, k, Tick(c)).tasks[x].state.Ready?
    ensures var r := Apply(cfg, Exec(cfg, Exact, Apply(cfg, m, e), es), Tick(c));
      && cfg.policy.RoundRobin? && r.running.Some?
      && r.tasks[r.running.value].kind.Thread? && r.tasks[r.running.value].prio > r.tasks[x].prio
  {
    hide Apply, Legal, TasksOk, Placed, PolicyInv, Pick, Dispatched, PaidInTurn;
    TurnSoFar(cfg, m, e, es, x);
    TickReplaces(cfg, Exec(cfg, Exact, Apply(cfg, m, e), es), c, x);
  }

  lemma TickReplaces(cfg: Config, m: Machine, c: Choice, x: Id)
    requires !cfg.policy.Edf? && Inv(cfg, m) && PolicyInv(cfg, m)
    requires Enabled(m, Tick(c)) && Legal(cfg, Exact, m, Tick(c))
    requires m.running == Some(x) && m.tasks[x].kind.Thread? && m.tasks[x].link > 1
    requires Apply(cfg, m, Tick(c)).tasks[x].state.Ready?
    ensures var r := Apply(cfg, m, Tick(c));
      && cfg.policy.RoundRobin? && r.running.Some?
      && r.tasks[r.running.value].kind.Thread? && r.tasks[r.running.value].prio > r.tasks[x].prio
  {
    hide TasksOk, PolicyInv, TickTask, Point, Wants, NextOk, Leave;
    var k := Phases(cfg, m);
    TaskIs(cfg, m, x);
    TickLink(cfg, m.tasks[x]);
    PhasesOk(cfg, m);
    OnlyIfWanted(cfg, k, c, x);
    SomeoneBetter(cfg, k, c.next, x);
    PointSame(cfg, k, c);
  }

  lemma PointSame(cfg: Config, m: Machine, c: Choice)
    requires Wf(m) && m.running.Some? && c.next in m.tasks
    ensures forall y :: y in m.tasks ==>
      Point(cfg, m, c).tasks[y].prio == m.tasks[y].prio && Point(cfg, m, c).tasks[y].kind == m.tasks[y].kind
  {
    hide Enter, Fixup, Popped;
  }

  /**
   The tick that charges a thread for the last tick of its timeslice asks the policy for another thread if one is ready
   that is no worse: of its priority or higher, or any at all under the cyclic policy.
   */
  lemma AtItsTime(cfg: Config, m: Machine, e: Event, es: seq<Event>, c: Choice, x: Id, y: Id)
    requires !cfg.policy.Edf? && Inv(cfg, m) && PolicyInv(cfg, m) && Turn(cfg, m, e, es, x)
    requires Run(cfg, Contract, Apply(cfg, m, e), es) && PaidInTurn(cfg, m, e, es, x) + 1 == m.tasks[x].allot
    requires var k := Exec(cfg, Exact, Apply(cfg, m, e), es);
      && k.running == Some(x) && Enabled(k, Tick(c)) && Legal(cfg, Exact, k, Tick(c))
      && y in ReadySet(Phases(cfg, k)) && (cfg.policy.RoundRobin? ==> k.tasks[y].prio >= k.tasks[x].prio)
    ensures Pick(cfg, Exec(cfg, Exact, Apply(cfg, m, e), es), Tick(c)).Some?
  {
    hide Apply, Legal, TasksOk, Placed, PolicyInv, Pick, Dispatched, PaidInTurn, Phases;
    TurnSoFar(cfg, m, e, es, x);
    LastOfSlice(cfg, Exec(cfg, Exact, Apply(cfg, m, e), es), c, x, y);
  }

  lemma LastOfSlice(cfg: Config, m: Machine, c: Choice, x: Id, y: Id)
    requires !cfg.policy.Edf? && Inv(cfg, m) && PolicyInv(cfg, m)
    requires Enabled(m, Tick(c)) && Legal(cfg, Exact, m, Tick(c))
    requires m.running == Some(x) && m.tasks[x].kind.Thread? && m.tasks[x].link == 1
    requires y in ReadySet(Phases(cfg, m)) && (cfg.policy.RoundRobin? ==> m.tasks[y].prio >= m.tasks[x].prio)
    ensures Pick(cfg, m, Tick(c)).Some?
  {
    hide TasksOk, PolicyInv, TickTask, NextOk, Leave;
    TaskIs(cfg, m, x);
    TickLink(cfg, m.tasks[x]);
    PhasesOk(cfg, m);
  }

  /** If nobody is dispatched at that tick, the thread keeps the processor and starts another timeslice, a whole one. */
  lemma StartsAnother(cfg: Config, m: Machine, e: Event, es: seq<Event>, c: Choice, x: Id)
    requires !cfg.policy.Edf? && Inv(cfg, m) && PolicyInv(cfg, m) && Turn(cfg, m, e, es, x)
    requires Run(cfg, Contract, Apply(cfg, m, e), es) && PaidInTurn(cfg, m, e, es, x) + 1 == m.tasks[x].allot
    requires var k := Exec(cfg, Exact, Apply(cfg, m, e), es);
      k.running == Some(x) && Enabled(k, Tick(c)) && Pick(cfg, k, Tick(c)) == None
    ensures var r := Apply(cfg, Exec(cfg, Exact, Apply(cfg, m, e), es), Tick(c));
      r.running == Some(x) && r.tasks[x].state.Running? && r.tasks[x].link == m.tasks[x].allot
  {
    hide Apply, Legal, TasksOk, Placed, PolicyInv, Pick, Dispatched, PaidInTurn;
    TurnSoFar(cfg, m, e, es, x);
    Renews(cfg, Exec(cfg, Exact, Apply(cfg, m, e), es), c, x);
  }

  lemma Renews(cfg: Config, m: Machine, c: Choice, x: Id)
    requires !cfg.policy.Edf? && Inv(cfg, m) && PolicyInv(cfg, m) && Enabled(m, Tick(c))
    requires m.running == Some(x) && m.tasks[x].kind.Thread? && m.tasks[x].link == 1 && Pick(cfg, m, Tick(c)) == None
    ensures var r := Apply(cfg, m, Tick(c));
      r.running == Some(x) && r.tasks[x].state.Running? && r.tasks[x].link == m.tasks[x].allot
  {
    hide TasksOk, PolicyInv, TickTask, Leave, Dispatch;
    TaskIs(cfg, m, x);
    TickLink(cfg, m.tasks[x]);
    PhasesOk(cfg, m);
  }

  // ------------------------------------------------------------------------
  // Earliest deadline first.

  /** Under EDF a tick takes the processor from a thread with budget left only for a strictly earlier deadline. */
  lemma OnlyForEarlier(cfg: Config, m: Machine, c: Choice, x: Id)
    requires cfg.policy.Edf? && Inv(cfg, m) && PolicyInv(cfg, m)
    requires Enabled(m, Tick(c)) && Legal(cfg, Exact, m, Tick(c))
    requires m.running == Some(x) && m.tasks[x].kind.Thread? && Apply(cfg, m, Tick(c)).tasks[x].state.Ready?
    ensures var r := Apply(cfg, m, Tick(c));
      r.running.Some? && r.tasks[r.running.value].kind.Thread? && r.tasks[r.running.value].link < r.tasks[x].link
  {
    hide TasksOk, PolicyInv, TickTask, Point, Wants, NextOk, Leave;
    PhasesOk(cfg, m);
    OnlyIfWanted(cfg, Phases(cfg, m), c, x);
    EarlierTakes(cfg, Phases(cfg, m), c, x);
  }

  lemma EarlierTakes(cfg: Config, m: Machine, c: Choice, x: Id)
    requires cfg.policy.Edf? && Wf(m) && m.running == Some(x) && m.tasks[x].kind.Thread? && m.tasks[x].current > 0
    requires c.next in m.tasks && c.next != x && c.resched && m.tasks[x].state.Running?
    requires Wants(cfg, m) && NextOk(cfg, Exact, Leave(cfg, m, Ready), c.next)
    ensures var r := Point(cfg, m, c);
      r.running == Some(c.next) && r.tasks[c.next].kind.Thread? && r.tasks[c.next].link < r.tasks[x].link
  {
    var y :| y in ReadySet(m) && Fixup(cfg, m.tasks[y]).link < m.tasks[x].link;
    var n := Leave(cfg, m, Ready);
    assert y in ReadySet(n) && n.tasks[y] == m.tasks[y];
  }
}
