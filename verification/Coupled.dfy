/**
 The tick machine and the configured policy run together: every answer comes out of the policy's own state, and that
 state moves by the policy's own operations alone (src/workhorse/kTick/kTick.c:509-678).

 `Agrees` holds from start-up on and in every state reached, so every such run is one with the answers `Rule.Exact`
 asks for, and what is proved of those runs is true of the three policies as they are programmed.
 */
module Coupled {
  import opened Tasks
  import opened TickSpec
  import opened TickInv
  import opened ThreadView
  import opened PolicyRuns
  import opened PolicyFace
  import opened PolicyTick
  import opened TickSetup
  import Policies
  import RoundRobin
  import Cyclic
  import Edf
  import Deadlines

  /** A kernel entry; `calls` is the order in which a tick calls the policy. */
  datatype Step = Step(e: Event, calls: seq<Call>)

  // ------------------------------------------------------------------------
  // What the policy answers, and the state it is left in.

  ghost function PointAnswer(cfg: Config, m: Machine, s: Policies.Sched): Choice
    requires Wf(m) && m.running.Some?
  {
    var id := m.running.value;
    var t := m.tasks[id];
    if t.kind.Thread? && t.current == 0 then Choice(false, Policies.Next(s, Leave(cfg, m, Throttled).tasks))
    else if t.kind.Lsr? || !Policies.Replace(s, id, t.kind) then Choice(false, m.idle)
    else Choice(true, Policies.Next(Policies.Pushed(Policies.Tested(s, id, t.kind), id), Leave(cfg, m, Ready).tasks))
  }

  ghost function PointAfter(cfg: Config, m: Machine, s: Policies.Sched): Policies.Sched
    requires Wf(m) && m.running.Some?
  {
    var id := m.running.value;
    var t := m.tasks[id];
    if t.kind.Thread? && t.current == 0 then Policies.Popped(s, Leave(cfg, m, Throttled).tasks)
    else if t.kind.Lsr? then s
    else if !Policies.Replace(s, id, t.kind) then Policies.Tested(s, id, t.kind)
    else Policies.Popped(Policies.Pushed(Policies.Tested(s, id, t.kind), id), Leave(cfg, m, Ready).tasks)
  }

  ghost function ResumeAnswer(cfg: Config, m: Machine, s: Policies.Sched): Choice
    requires Wf(m)
  {
    if m.lsrs != [] then Choice(false, m.idle)
    else if m.slot.None? then Choice(false, Policies.Next(s, m.tasks))
    else PointAnswer(cfg, Restore(m), s)
  }

  ghost function ResumeAfter(cfg: Config, m: Machine, s: Policies.Sched): Policies.Sched
    requires Wf(m)
  {
    if m.lsrs != [] then s
    else if m.slot.None? then Policies.Popped(s, m.tasks)
    else PointAfter(cfg, Restore(m), s)
  }

  ghost function Answer(cfg: Config, m: Machine, s: Policies.Sched, x: Step): Choice
    requires Wf(m) && Enabled(m, x.e)
  {
    match x.e
    case Tick(_) => PointAnswer(cfg, Phases(cfg, m), Play(cfg, m, Policies.Transited(s), x.calls))
    case LsrPush(_) => Choice(false, m.idle)
    case PushCurrent => Choice(false, m.idle)
    case Reschedule(_) => if m.running.None? then ResumeAnswer(cfg, m, s) else Choice(false, m.idle)
    case _ => ResumeAnswer(cfg, Switched(cfg, m, x.e), s)
  }

  ghost function After(cfg: Config, m: Machine, s: Policies.Sched, x: Step): Policies.Sched
    requires Wf(m) && Enabled(m, x.e)
  {
    match x.e
    case Tick(_) => PointAfter(cfg, Phases(cfg, m), Play(cfg, m, Policies.Transited(s), x.calls))
    case LsrPush(_) => s
    case PushCurrent => s
    case Reschedule(_) => if m.running.None? then ResumeAfter(cfg, m, s) else s
    case _ => ResumeAfter(cfg, Switched(cfg, m, x.e), s)
  }

  /** The entry can happen, and its answers are the policy's. */
  ghost predicate Happens(cfg: Config, m: Machine, s: Policies.Sched, x: Step)
    requires Wf(m)
  {
    && Enabled(m, x.e)
    && (x.e.Tick? ==> Script(cfg, m, x.calls))
    && (x.e.LsrPush? || x.e.PushCurrent? || x.e.c == Answer(cfg, m, s, x))
  }

  ghost predicate PolicyRun(cfg: Config, m: Machine, s: Policies.Sched, xs: seq<Step>)
    requires Wf(m)
    decreases xs
  {
    xs == [] ||
    (Happens(cfg, m, s, xs[0]) && PolicyRun(cfg, Apply(cfg, m, xs[0].e), After(cfg, m, s, xs[0]), xs[1..]))
  }

  function Events(xs: seq<Step>): seq<Event> {
    if xs == [] then [] else [xs[0].e] + Events(xs[1..])
  }

  /** The policy's state at the end of a run. */
  ghost function Final(cfg: Config, m: Machine, s: Policies.Sched, xs: seq<Step>): Policies.Sched
    requires Wf(m) && PolicyRun(cfg, m, s, xs)
    decreases xs
  {
    if xs == [] then s else Final(cfg, Apply(cfg, m, xs[0].e), After(cfg, m, s, xs[0]), xs[1..])
  }

  // ------------------------------------------------------------------------
  // Steps a policy does not notice.

  lemma LeaveFace(cfg: Config, m: Machine, next: State)
    requires Wf(m) && m.running.Some? && m.tasks[m.running.value].state.Running?
    requires next.Ready? ==> !m.tasks[m.running.value].kind.Thread?
    ensures SameFace(m, Leave(cfg, m, next))
  {
  }

  lemma RunLsrFace(m: Machine)
    requires Wf(m) && m.lsrs != [] && m.tasks[m.lsrs[0]].kind.Lsr?
    ensures SameFace(m, RunLsr(m))
  {
  }

  lemma RestoreFace(m: Machine)
    requires Wf(m) && m.slot.Some? && !m.tasks[m.slot.value].state.Ready?
    ensures SameFace(m, Restore(m))
  {
  }

  lemma SwitchedFace(cfg: Config, m: Machine, e: Event)
    requires Wf(m) && IsSwitch(e) && Enabled(m, e) && m.tasks[m.running.value].state.Running?
    ensures SameFace(m, Switched(cfg, m, e))
  {
  }

  // ------------------------------------------------------------------------
  // The rescheduling point.

  /** The running task goes back among the ready ones. */
  lemma BackCoupled(cfg: Config, m: Machine, s: Policies.Sched, id: Id)
    requires Wf(m) && m.running == Some(id) && m.tasks[id].state.Running? && !m.tasks[id].kind.Lsr?
    requires Policies.Agrees(cfg, m, s)
    ensures Policies.Agrees(cfg, Leave(cfg, m, Ready), Policies.Pushed(s, id))
  {
    hide Policies.Agrees, Enter, Policies.Pushed;
    Policies.Basics(cfg, m, s);
    if m.tasks[id].kind.Thread? {
      Policies.PushedAgrees(cfg, m, s, id);
      var n := Put(m, id, Enter(cfg, m.tasks[id], Ready));
      assert Leave(cfg, m, Ready).tasks == n.tasks;
      assert SameFace(n, Leave(cfg, m, Ready));
      Policies.SameAgrees(cfg, n, Leave(cfg, m, Ready), Policies.Pushed(s, id));
    } else {
      LeaveFace(cfg, m, Ready);
      Policies.SameAgrees(cfg, m, Leave(cfg, m, Ready), s);
      NotPushed(s, id);
    }
  }

  lemma NotPushed(s: Policies.Sched, id: Id)
    requires !Policies.Has(s, id)
    ensures Policies.Pushed(s, id) == s
  {
  }

  /** It makes no difference that the test has fixed the chain up already. */
  lemma FixedSame(cfg: Config, m: Machine, next: Id)
    requires Inv(cfg, m, true) && m.running.Some? && cfg.policy.Edf? && next in m.tasks
    ensures var a, b := Leave(cfg, FixupAll(cfg, m), Ready), Leave(cfg, m, Ready);
      Dispatch(cfg, a, next) == Dispatch(cfg, b, next) && (NextOk(cfg, Exact, a, next) <==> NextOk(cfg, Exact, b, next))
  {
    assert m.tasks[m.running.value].state.Running?;
    assert forall x :: x in m.tasks ==> TaskOk(cfg, m.tasks[x], true);
    Edf.FixupTwice(cfg, m);
    SameBest(cfg, Leave(cfg, FixupAll(cfg, m), Ready), Leave(cfg, m, Ready), next);
  }

  lemma SameBest(cfg: Config, a: Machine, b: Machine, next: Id)
    requires Wf(a) && Wf(b) && cfg.policy.Edf? && FixupAll(cfg, a) == FixupAll(cfg, b) && next in a.tasks
    ensures Dispatch(cfg, a, next) == Dispatch(cfg, b, next)
    ensures NextOk(cfg, Exact, a, next) <==> NextOk(cfg, Exact, b, next)
  {
    Edf.FixedReady(cfg, a);
    Edf.FixedReady(cfg, b);
    hide FixupAll, Fixup;
  }

  /** The running task is replaced: it joins the ready ones, and the policy's first choice is dispatched. */
  lemma ReplaceCoupled(cfg: Config, m: Machine, s: Policies.Sched, id: Id)
    requires Inv(cfg, m, true) && m.running == Some(id) && !m.tasks[id].kind.Lsr?
    requires Policies.Agrees(cfg, m, s) && Policies.Replace(s, id, m.tasks[id].kind)
    ensures var n, p := Leave(cfg, m, Ready), Policies.Pushed(Policies.Tested(s, id, m.tasks[id].kind), id);
      && Wants(cfg, m)
      && Policies.Next(p, n.tasks) in m.tasks
      && NextOk(cfg, Exact, n, Policies.Next(p, n.tasks))
      && Policies.Agrees(cfg, Dispatch(cfg, n, Policies.Next(p, n.tasks)), Policies.Popped(p, n.tasks))
  {
    hide Policies.Agrees, TasksOk, Policies.Tested, Policies.Replace, Policies.Pushed, Policies.Next, Policies.Popped;
    hide Leave, Dispatch, NextOk, FixupAll, Wants;
    var kind := m.tasks[id].kind;
    Policies.TestedAgrees(cfg, m, s, id);
    var k, tested := Policies.Looked(cfg, m, true), Policies.Tested(s, id, kind);
    LookedRuns(cfg, m, id);
    BackCoupled(cfg, k, tested, id);
    var n, p := Leave(cfg, k, Ready), Policies.Pushed(tested, id);
    Policies.PoppedAgrees(cfg, n, p);
    if k != m {
      FixedSame(cfg, m, Policies.Next(p, n.tasks));
      Policies.Basics(cfg, n, p);
      TasksUnused(p, n.tasks, Leave(cfg, m, Ready).tasks);
    }
  }

  lemma LookedRuns(cfg: Config, m: Machine, id: Id)
    requires Wf(m) && m.running == Some(id) && m.tasks[id].state.Running?
    ensures var k := Policies.Looked(cfg, m, true);
      && k.running == Some(id) && k.tasks[id].state.Running? && k.tasks[id].kind == m.tasks[id].kind
      && (k == m || (cfg.policy.Edf? && k == FixupAll(cfg, m)))
  {
  }

  /** Only the cyclic policy looks at the states of tasks. */
  lemma TasksUnused(s: Policies.Sched, a: map<Id, Task>, b: map<Id, Task>)
    requires !s.Cy?
    ensures Policies.Next(s, a) == Policies.Next(s, b) && Policies.Popped(s, a) == Policies.Popped(s, b)
  {
  }

  lemma PointCoupled(cfg: Config, m: Machine, s: Policies.Sched, sameTick: bool)
    requires Inv(cfg, m, true) && m.running.Some? && Policies.Agrees(cfg, m, s)
    ensures var c := PointAnswer(cfg, m, s);
      && c.next in m.tasks && PointOk(cfg, Exact, m, c, sameTick)
      && Policies.Agrees(cfg, Point(cfg, m, c), PointAfter(cfg, m, s))
  {
    hide Policies.Agrees, Policies.Tested, Policies.Replace, Policies.Pushed, Policies.Next, Policies.Popped;
    hide TaskOk, Leave, Dispatch, NextOk, Wants, Keep, ReadySet;
    var id := m.running.value;
    var t := m.tasks[id];
    assert t.state.Running?;
    if t.kind.Thread? && t.current == 0 {
      LeaveFace(cfg, m, Throttled);
      Policies.SameAgrees(cfg, m, Leave(cfg, m, Throttled), s);
      Policies.PoppedAgrees(cfg, Leave(cfg, m, Throttled), s);
    } else if !t.kind.Lsr? {
      Policies.TestedAgrees(cfg, m, s, id);
      if Policies.Replace(s, id, t.kind) {
        ReplaceCoupled(cfg, m, s, id);
      }
    }
  }

  lemma ResumeCoupled(cfg: Config, m: Machine, s: Policies.Sched)
    requires Inv(cfg, m) && m.running.None? && Policies.Agrees(cfg, m, s)
    ensures var c := ResumeAnswer(cfg, m, s);
      && c.next in m.tasks && ResumeOk(cfg, Exact, m, c)
      && Policies.Agrees(cfg, Resume(cfg, m, c), ResumeAfter(cfg, m, s))
  {
    hide Policies.Agrees, Policies.Next, Policies.Popped, PointAnswer, PointAfter, PointOk;
    hide Dispatch, NextOk, Point, Restore, RunLsr;
    if m.lsrs != [] {
      RunLsrReady(cfg, m);
      RunLsrFace(m);
      Policies.SameAgrees(cfg, m, RunLsr(m), s);
    } else if m.slot.None? {
      Policies.PoppedAgrees(cfg, m, s);
    } else {
      RestoreOk(cfg, m);
      RestoreFace(m);
      Policies.SameAgrees(cfg, m, Restore(m), s);
      PointCoupled(cfg, Restore(m), s, m.tasks[m.slot.value].state.DefPending?);
    }
  }

  // ------------------------------------------------------------------------
  // One entry, and all runs.

  /** Entries that do not ask the policy anything. */
  lemma QuietCoupled(cfg: Config, m: Machine, s: Policies.Sched, e: Event)
    requires Inv(cfg, m) && Policies.Agrees(cfg, m, s) && Enabled(m, e)
    requires e.LsrPush? || e.PushCurrent? || (e.Reschedule? && m.running.Some?)
    ensures Policies.Agrees(cfg, Apply(cfg, m, e), s)
  {
    hide Policies.Agrees, TaskOk, Enter;
    if e.LsrPush? {
      Policies.SameAgrees(cfg, m, PushLsr(m, e.lsr), s);
    } else if m.running.Some? {
      LeaveFace(cfg, m, DefPending);
      LeaveFace(cfg, m, LsrPending);
      Policies.SameAgrees(cfg, m, Leave(cfg, m, DefPending), s);
      Policies.SameAgrees(cfg, m, Leave(cfg, m, LsrPending), s);
      if e.Reschedule? && !m.tasks[m.running.value].kind.Lsr? && m.lsrs != [] {
        PreemptFace(cfg, m);
        Policies.SameAgrees(cfg, m, RunLsr(Leave(cfg, m, DefPending)), s);
      }
    }
  }

  lemma PreemptFace(cfg: Config, m: Machine)
    requires Inv(cfg, m) && m.running.Some? && !m.tasks[m.running.value].kind.Lsr? && m.lsrs != []
    ensures SameFace(m, RunLsr(Leave(cfg, m, DefPending)))
  {
    hide TasksOk, Enter;
    InvMid(cfg, m);
    assert MayLeave(m, DefPending) by {
      PreemptLeaves(cfg, m);
    }
    LeaveOk(cfg, m, DefPending);
    LeaveFace(cfg, m, DefPending);
    RunLsrReady(cfg, Leave(cfg, m, DefPending));
    RunLsrFace(Leave(cfg, m, DefPending));
  }

  lemma PreemptLeaves(cfg: Config, m: Machine)
    requires Inv(cfg, m) && m.running.Some? && !m.tasks[m.running.value].kind.Lsr?
    ensures MayLeave(m, DefPending)
  {
    assert TaskOk(cfg, m.tasks[m.running.value], false);
  }

  /** One entry: the policy's answers are the ones it owes, and the two still agree afterwards. */
  lemma StepCoupled(cfg: Config, m: Machine, s: Policies.Sched, x: Step)
    requires Inv(cfg, m) && PolicyInv(cfg, m) && Policies.Agrees(cfg, m, s) && Happens(cfg, m, s, x)
    ensures Legal(cfg, Exact, m, x.e) && Policies.Agrees(cfg, Apply(cfg, m, x.e), After(cfg, m, s, x))
  {
    hide Policies.Agrees, Play, PointAnswer, PointAfter, ResumeAnswer, ResumeAfter, Script, PointOk, ResumeOk;
    hide Phases, Point, Resume, Resched, Switched, Settled, LinkOk, TasksOk, PushLsr, Leave;
    if x.e.Tick? {
      PhasesOk(cfg, m);
      TickAgrees(cfg, m, s, x.calls);
      PointCoupled(cfg, Phases(cfg, m), Play(cfg, m, Policies.Transited(s), x.calls), false);
    } else if IsSwitch(x.e) {
      SwitchedOk(cfg, m, x.e);
      SwitchedFace(cfg, m, x.e);
      Policies.SameAgrees(cfg, m, Switched(cfg, m, x.e), s);
      ResumeCoupled(cfg, Switched(cfg, m, x.e), s);
    } else if x.e.Reschedule? && m.running.None? {
      ReschedIs(cfg, m, x.e.c);
      ResumeCoupled(cfg, m, s);
    } else {
      QuietCoupled(cfg, m, s, x.e);
    }
  }

  lemma ReschedIs(cfg: Config, m: Machine, c: Choice)
    requires Wf(m) && m.running.None? && c.next in m.tasks
    ensures Resched(cfg, m, c) == Resume(cfg, m, c)
  {
  }

  /** The policy only ever names a task of the machine. */
  lemma AnswerIsTask(cfg: Config, m: Machine, s: Policies.Sched, x: Step)
    requires Inv(cfg, m) && PolicyInv(cfg, m) && Policies.Agrees(cfg, m, s) && Enabled(m, x.e)
    requires x.e.Tick? ==> Script(cfg, m, x.calls)
    ensures Answer(cfg, m, s, x).next in m.tasks
  {
    hide Policies.Agrees, Play, PointAnswer, PointAfter, ResumeAnswer, ResumeAfter, Script, PointOk, ResumeOk;
    hide Phases, Point, Resume, Switched, Settled, LinkOk, TasksOk;
    if x.e.Tick? {
      PhasesOk(cfg, m);
      TickAgrees(cfg, m, s, x.calls);
      PointCoupled(cfg, Phases(cfg, m), Play(cfg, m, Policies.Transited(s), x.calls), false);
    } else if IsSwitch(x.e) {
      SwitchedOk(cfg, m, x.e);
      SwitchedFace(cfg, m, x.e);
      Policies.SameAgrees(cfg, m, Switched(cfg, m, x.e), s);
      ResumeCoupled(cfg, Switched(cfg, m, x.e), s);
    } else if x.e.Reschedule? && m.running.None? {
      ResumeCoupled(cfg, m, s);
    }
  }

  /** The same kernel entry with another answer. */
  function With(e: Event, c: Choice): Event {
    match e
    case Tick(_) => Tick(c)
    case Yield(_) => Yield(c)
    case Throttle(_) => Throttle(c)
    case SleepFor(n, _) => SleepFor(n, c)
    case LsrDone(_) => LsrDone(c)
    case Fail(_) => Fail(c)
    case Reschedule(_) => Reschedule(c)
    case _ => e
  }

  lemma WithSame(cfg: Config, m: Machine, s: Policies.Sched, x: Step, c: Choice)
    requires Wf(m) && Enabled(m, x.e) && c.next in m.tasks
    ensures Enabled(m, With(x.e, c))
    ensures Answer(cfg, m, s, x.(e := With(x.e, c))) == Answer(cfg, m, s, x)
    ensures With(x.e, c).LsrPush? || With(x.e, c).PushCurrent? || With(x.e, c).c == c
    ensures With(x.e, c).Tick? <==> x.e.Tick?
  {
    hide PointAnswer, ResumeAnswer, Play, Phases;
    if IsSwitch(x.e) {
      assert Switched(cfg, m, With(x.e, c)) == Switched(cfg, m, x.e);
    }
  }

  /** Whatever can happen does so with some answer of the policy, and a tick has some order to call it in. */
  lemma CanHappen(cfg: Config, m: Machine, s: Policies.Sched, e: Event) returns (c: Choice, calls: seq<Call>)
    requires Inv(cfg, m) && PolicyInv(cfg, m) && Policies.Agrees(cfg, m, s) && Enabled(m, e)
    ensures Happens(cfg, m, s, Step(With(e, c), calls))
  {
    hide TasksOk, Placed, PolicyInv, Policies.Agrees, Script, Answer, Enabled;
    calls := ScriptExists(cfg, m);
    AnswerIsTask(cfg, m, s, Step(e, calls));
    c := Answer(cfg, m, s, Step(e, calls));
    WithSame(cfg, m, s, Step(e, calls), c);
  }

  /**
   A run with the configured policy's own code is a run with exact answers, and the policy's data agree with the machine
   in every state it reaches.
   */
  lemma {:induction false} CoupledRun(cfg: Config, m: Machine, s: Policies.Sched, xs: seq<Step>)
    requires Inv(cfg, m) && PolicyInv(cfg, m) && Policies.Agrees(cfg, m, s) && PolicyRun(cfg, m, s, xs)
    ensures Run(cfg, Exact, m, Events(xs))
    ensures Policies.Agrees(cfg, Exec(cfg, Exact, m, Events(xs)), Final(cfg, m, s, xs))
    decreases xs
  {
    hide Policies.Agrees, Apply, After, Happens, Legal, TasksOk, Placed, Settled, PolicyInv;
    if xs != [] {
      assert Happens(cfg, m, s, xs[0]);
      StepCoupled(cfg, m, s, xs[0]);
      HappensEnabled(cfg, m, s, xs[0]);
      StepExact(cfg, m, xs[0].e);
      StepInv(cfg, m, xs[0].e);
      CoupledRun(cfg, Apply(cfg, m, xs[0].e), After(cfg, m, s, xs[0]), xs[1..]);
      assert Events(xs)[0] == xs[0].e && Events(xs)[1..] == Events(xs[1..]);
    }
  }

  lemma HappensEnabled(cfg: Config, m: Machine, s: Policies.Sched, x: Step)
    requires Wf(m) && Happens(cfg, m, s, x)
    ensures Enabled(m, x.e)
  {
  }

  // ------------------------------------------------------------------------
  // From start-up.

  datatype Plugin =
    | ThreadPlugin(id: Id, budget: nat, period: nat, param: Policies.Param)
    | LsrPlugin(id: Id, prio: nat)

  /** A policy that knows no thread yet; `n` is the number of priorities or frames it is configured with. */
  function Empty(policy: Policy, idle: Id, n: nat): Policies.Sched {
    match policy
    case RoundRobin => Policies.Rr(RoundRobin.Queues(idle, map[], seq(n, _ => []), map[]))
    case Cyclic => Policies.Cy(Cyclic.Table(idle, map[], seq(n, _ => None), 0, 0, {}, map[]))
    case Edf => Policies.Ed(Edf.Deadlines(idle, map[], [], 0, map[], map[], 0))
  }

  ghost predicate Accepts(m: Machine, s: Policies.Sched, p: Plugin) {
    && p.id !in m.tasks
    && (p.ThreadPlugin? ==> p.budget > 0 && Policies.Accepts(s, p.id, p.param))
  }

  /** The task a plugin sets up. */
  function Setup(cfg: Config, p: Plugin): Task {
    match p
    case LsrPlugin(_, prio) => NewLsr(prio)
    case ThreadPlugin(_, budget, period, param) =>
      NewThread(cfg, budget, period, if param.RrParam? then param.rr.prio else 0, Policies.Allot(param))
  }

  /** The plugins run one after the other; what is refused leaves nothing behind. */
  ghost function Plugged(cfg: Config, m: Machine, s: Policies.Sched, ps: seq<Plugin>): (r: (Machine, Policies.Sched))
    requires Wf(m)
    ensures Wf(r.0)
    decreases ps
  {
    if ps == [] then (m, s)
    else if !Accepts(m, s, ps[0]) then Plugged(cfg, m, s, ps[1..])
    else
      var w := if ps[0].ThreadPlugin? then Policies.Joined(s, ps[0].id, ps[0].param) else s;
      Plugged(cfg, Put(m, ps[0].id, Setup(cfg, ps[0])), w, ps[1..])
  }

  predicate Typed(p: Plugin, n: nat) {
    p.ThreadPlugin? ==> Policies.Typed(p.param, n)
  }

  predicate Sized(s: Policies.Sched, n: nat) {
    s.Cy? ==> |s.t.frames| == n
  }

  lemma EmptyAgrees(cfg: Config, idle: Id, n: nat)
    ensures Policies.Agrees(cfg, Bare(idle), Empty(cfg.policy, idle, n)) && Sized(Empty(cfg.policy, idle, n), n)
    ensures Initial(cfg, Bare(idle))
  {
    assert ReadySet(Bare(idle)) == {};
  }

  lemma JoinedSized(s: Policies.Sched, id: Id, p: Policies.Param, n: nat)
    requires Sized(s, n)
    ensures Sized(Policies.Joined(s, id, p), n)
  {
  }

  lemma PlugCoupled(cfg: Config, m: Machine, s: Policies.Sched, p: Plugin, n: nat)
    requires Initial(cfg, m) && Policies.Agrees(cfg, m, s) && Sized(s, n) && Typed(p, n) && Accepts(m, s, p)
    ensures var r := Put(m, p.id, Setup(cfg, p));
      Initial(cfg, r) && Policies.Agrees(cfg, r, if p.ThreadPlugin? then Policies.Joined(s, p.id, p.param) else s)
  {
    hide Policies.Agrees, Policies.Joined, Initial;
    Policies.Basics(cfg, m, s);
    SetupIs(cfg, p, s);
    AddedInitial(cfg, m, p.id, Setup(cfg, p));
    if p.ThreadPlugin? {
      Policies.JoinedAgrees(cfg, m, s, p.id, p.param, Setup(cfg, p));
    } else {
      Policies.OtherJoins(cfg, m, s, p.id, Setup(cfg, p));
    }
  }

  lemma SetupIs(cfg: Config, p: Plugin, s: Policies.Sched)
    requires p.ThreadPlugin? ==> p.budget > 0 && Policies.Accepts(s, p.id, p.param)
    ensures p.ThreadPlugin? ==> Policies.Allot(p.param) > 0 && (p.param.EdParam? <==> s.Ed?)
  {
  }

  lemma {:induction false} PluggedAgrees(cfg: Config, m: Machine, s: Policies.Sched, ps: seq<Plugin>, n: nat)
    requires Initial(cfg, m) && Policies.Agrees(cfg, m, s) && Sized(s, n)
    requires forall i :: 0 <= i < |ps| ==> Typed(ps[i], n)
    ensures var (r, w) := Plugged(cfg, m, s, ps);
      Initial(cfg, r) && Policies.Agrees(cfg, r, w)
    decreases ps
  {
    hide Policies.Agrees, Policies.Joined, Initial, Accepts, Sized;
    if ps == [] {
    } else if !Accepts(m, s, ps[0]) {
      PluggedAgrees(cfg, m, s, ps[1..], n);
    } else {
      var w := if ps[0].ThreadPlugin? then Policies.Joined(s, ps[0].id, ps[0].param) else s;
      PlugCoupled(cfg, m, s, ps[0], n);
      if ps[0].ThreadPlugin? {
        JoinedSized(s, ps[0].id, ps[0].param, n);
      }
      PluggedAgrees(cfg, Put(m, ps[0].id, Setup(cfg, ps[0])), w, ps[1..], n);
    }
  }

  /**
   From an empty processor, through any plugins, and any run after that: the three policies as programmed answer what
   they owe at every point, keep the contract of the tick machine, and their data agree with it in every state.
   */
  lemma PoliciesKeepContract(cfg: Config, idle: Id, n: nat, ps: seq<Plugin>, xs: seq<Step>)
    requires forall i :: 0 <= i < |ps| ==> Typed(ps[i], n)
    requires var (m, s) := Plugged(cfg, Bare(idle), Empty(cfg.policy, idle, n), ps); PolicyRun(cfg, m, s, xs)
    ensures var (m, s) := Plugged(cfg, Bare(idle), Empty(cfg.policy, idle, n), ps);
      && Initial(cfg, m)
      && Run(cfg, Exact, m, Events(xs)) && Run(cfg, Contract, m, Events(xs))
      && Policies.Agrees(cfg, Exec(cfg, Exact, m, Events(xs)), Final(cfg, m, s, xs))
  {
    hide Policies.Agrees, Initial, Inv, PolicyInv, Run, PolicyRun, Final, Exec, Events;
    EmptyAgrees(cfg, idle, n);
    PluggedAgrees(cfg, Bare(idle), Empty(cfg.policy, idle, n), ps, n);
    var (m, s) := Plugged(cfg, Bare(idle), Empty(cfg.policy, idle, n), ps);
    InitialInv(cfg, m);
    InitialPolicyInv(cfg, m);
    CoupledRun(cfg, m, s, xs);
    ExactRun(cfg, m, Events(xs));
  }

  /** The ready count of the cyclic policy is the number of READY threads in every state a run reaches. */
  lemma CyclicCount(cfg: Config, idle: Id, n: nat, ps: seq<Plugin>, xs: seq<Step>)
    requires cfg.policy.Cyclic? && forall i :: 0 <= i < |ps| ==> Typed(ps[i], n)
    requires var (m, s) := Plugged(cfg, Bare(idle), Empty(cfg.policy, idle, n), ps); PolicyRun(cfg, m, s, xs)
    ensures var (m, s) := Plugged(cfg, Bare(idle), Empty(cfg.policy, idle, n), ps);
      && Run(cfg, Exact, m, Events(xs)) && Final(cfg, m, s, xs).Cy?
      && Final(cfg, m, s, xs).t.ready == |ReadySet(Exec(cfg, Exact, m, Events(xs)))|
  {
    hide Initial, Run, PolicyRun, Final, Exec, Events, Cyclic.Proper;
    PoliciesKeepContract(cfg, idle, n, ps, xs);
  }

  /**
   With the policies as programmed the right thread runs: idle only when nothing is ready, and otherwise no ready thread
   has a higher priority (round robin) or an earlier deadline (EDF); and what the tick callback decrements is not zero.
   */
  lemma RightThreadRuns(cfg: Config, idle: Id, n: nat, ps: seq<Plugin>, xs: seq<Step>)
    requires forall i :: 0 <= i < |ps| ==> Typed(ps[i], n)
    requires var (m, s) := Plugged(cfg, Bare(idle), Empty(cfg.policy, idle, n), ps); PolicyRun(cfg, m, s, xs)
    ensures var (m, s) := Plugged(cfg, Bare(idle), Empty(cfg.policy, idle, n), ps);
      && Run(cfg, Exact, m, Events(xs))
      && var r := Exec(cfg, Exact, m, Events(xs));
      && (r.running.Some? && !RunningKind(r, Lsr) ==>
        var t := r.tasks[r.running.value];
        if t.kind.Idle? then ReadySet(r) == {}
        else
          && (cfg.policy.RoundRobin? ==> forall x :: x in ReadySet(r) ==> r.tasks[x].prio <= t.prio)
          && (cfg.policy.Edf? ==> 0 < t.link && forall x :: x in ReadySet(r) ==> t.link <= r.tasks[x].link))
      && forall id :: id in r.tasks && Charged(r.tasks[id]) ==> r.tasks[id].link > 0
  {
    hide Initial, Run, PolicyRun, Final, Exec, Events, Policies.Agrees, Charged;
    PoliciesKeepContract(cfg, idle, n, ps, xs);
    var (m, s) := Plugged(cfg, Bare(idle), Empty(cfg.policy, idle, n), ps);
    Deadlines.RightThreadRuns(cfg, m, Events(xs));
    var r := Exec(cfg, Exact, m, Events(xs));
    forall id | id in r.tasks && Charged(r.tasks[id]) ensures r.tasks[id].link > 0 {
      Deadlines.TurnsNeverUnderflow(cfg, m, Events(xs), id);
    }
  }
}
