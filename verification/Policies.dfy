/**
 The table of operations through which the tick machine uses whatever policy is configured
 (include/workhorse/kSched/kSched.h:45-55), and one law for each operation: it answers what `Rule.Exact` demands, and
 leaves the policy in agreement with the machine.
 */
module Policies {
  import opened Tasks
  import opened DeltaSeq
  import opened TickSpec
  import opened PolicyFace
  import RoundRobin
  import Cyclic
  import Edf

  datatype Sched = Rr(q: RoundRobin.Queues) | Cy(t: Cyclic.Table) | Ed(d: Edf.Deadlines)

  /** The parameters a thread of each policy is configured with. */
  datatype Param = RrParam(rr: RoundRobin.Param) | CyParam(cy: Cyclic.Param) | EdParam(deadline: nat)

  ghost predicate Agrees(cfg: Config, m: Machine, s: Sched) {
    match s
    case Rr(q) => RoundRobin.Agrees(cfg, m, q) && RoundRobin.Proper(q)
    case Cy(t) => Cyclic.Agrees(cfg, m, t) && Cyclic.Proper(t)
    case Ed(d) => Edf.Agrees(cfg, m, d)
  }

  ghost predicate Proper(s: Sched) {
    match s
    case Rr(q) => RoundRobin.Proper(q)
    case Cy(t) => Cyclic.Proper(t)
    case Ed(d) => Edf.Proper(d)
  }

  /** The operations look at nothing but threads; any other task passes through them unnoticed. */
  predicate Has(s: Sched, id: Id) {
    match s
    case Rr(q) => id in q.threads && id in q.remaining
    case Cy(t) => id in t.threads && id in t.remaining
    case Ed(d) => id in d.virtual && id in d.delta
  }

  // ------------------------------------------------------------------------
  // The operations. They leave alone what is no state of a policy.

  /** `kSchedTickTransitionCallback` */
  function Transited(s: Sched): Sched {
    if s.Ed? then Ed(Edf.Ticked(s.d)) else s
  }

  /** `kSchedTaskPush` */
  ghost function Pushed(s: Sched, id: Id): Sched {
    if !Proper(s) || !Has(s, id) then s
    else match s
      case Rr(q) => Rr(RoundRobin.Enqueue(q, id))
      case Cy(t) => Cy(Cyclic.Count(t, id))
      case Ed(d) => Ed(Edf.Enqueue(d, id))
  }

  /** `kSchedTaskTickCallback`; `t` is the task as the tick machine charges it. */
  function Charged(cfg: Config, s: Sched, id: Id, t: Task): Sched {
    if !Has(s, id) then s
    else match s
      case Rr(q) => Rr(RoundRobin.Charge(q, id))
      case Cy(t) => Cy(Cyclic.Charge(t, id))
      case Ed(d) => Ed(Edf.Charge(cfg, d, id, t))
  }

  /** The task that `kSchedTaskPop` returns. */
  ghost function Next(s: Sched, tasks: map<Id, Task>): Id {
    if !Proper(s) then 0
    else match s
      case Rr(q) => RoundRobin.Next(q)
      case Cy(t) => Cyclic.Next(t, tasks)
      case Ed(d) => Edf.Next(d)
  }

  /** What `kSchedTaskPop` leaves behind. */
  ghost function Popped(s: Sched, tasks: map<Id, Task>): Sched {
    if !Proper(s) then s
    else match s
      case Rr(q) => Rr(RoundRobin.Dequeue(q))
      case Cy(t) => Cy(Cyclic.Take(t, tasks))
      case Ed(d) => Ed(Edf.Dequeue(d))
  }

  /** The answer of `kSchedShouldReschedule`. */
  ghost predicate Replace(s: Sched, running: Id, kind: Kind) {
    Proper(s) && (kind.Thread? ==> Has(s, running)) &&
    match s
    case Rr(q) => RoundRobin.Replace(q, running, kind)
    case Cy(t) => Cyclic.Replace(t, running, kind)
    case Ed(d) => Edf.Replace(d, running, kind)
  }

  /** What `kSchedShouldReschedule` leaves behind. */
  ghost function Tested(s: Sched, running: Id, kind: Kind): Sched {
    if !Proper(s) || (kind.Thread? && !Has(s, running)) then s
    else match s
      case Rr(q) => Rr(RoundRobin.Renew(q, running, kind))
      case Cy(t) => Cy(Cyclic.Renew(t, running, kind))
      case Ed(d) => if kind.Thread? then Ed(Edf.Restarted(d)) else s
  }

  /** A thread joins the processor: parameters checked and taken over, then the first push. */
  ghost predicate Accepts(s: Sched, id: Id, p: Param) {
    match s
    case Rr(q) => p.RrParam? && RoundRobin.Accepts(q, id, p.rr)
    case Cy(t) => p.CyParam? && Cyclic.Accepts(t, id, p.cy)
    case Ed(d) => p.EdParam? && Edf.Accepts(d, id, p.deadline)
  }

  ghost function Joined(s: Sched, id: Id, p: Param): Sched {
    if !Proper(s) || !Accepts(s, id, p) then s
    else match s
      case Rr(q) => Rr(RoundRobin.Joined(q, id, p.rr))
      case Cy(t) => Cy(Cyclic.Joined(t, id, p.cy))
      case Ed(d) => Ed(Edf.Joined(d, id, p.deadline))
  }

  // ------------------------------------------------------------------------
  // The laws.

  lemma Basics(cfg: Config, m: Machine, s: Sched)
    requires Agrees(cfg, m, s)
    ensures Proper(s) && Wf(m) && !m.tasks[m.idle].kind.Thread?
    ensures cfg.policy == match s case Rr(_) => Policy.RoundRobin case Cy(_) => Policy.Cyclic case Ed(_) => Policy.Edf
    ensures forall id :: Has(s, id) <==> id in m.tasks && m.tasks[id].kind.Thread?
  {
  }

  lemma SameAgrees(cfg: Config, m: Machine, n: Machine, s: Sched)
    requires Agrees(cfg, m, s) && SameFace(m, n) && Wf(n)
    ensures Agrees(cfg, n, s)
  {
    hide RoundRobin.Agrees, Cyclic.Agrees, Edf.Agrees, RoundRobin.Proper, Cyclic.Proper, SameFace;
    match s
    case Rr(q) => RoundRobin.SameAgrees(cfg, m, n, q);
    case Cy(t) => Cyclic.SameAgrees(cfg, m, n, t);
    case Ed(d) => Edf.SameAgrees(cfg, m, n, d);
  }

  lemma TransitedAgrees(cfg: Config, m: Machine, s: Sched)
    requires Agrees(cfg, m, s)
    ensures Agrees(cfg, m.(tasks := map id | id in m.tasks :: Transition(cfg, m.tasks[id])), Transited(s))
  {
    Basics(cfg, m, s);
    if s.Ed? {
      Edf.TickedAgrees(cfg, m, s.d);
    } else {
      SameAgrees(cfg, m, m.(tasks := map id | id in m.tasks :: Transition(cfg, m.tasks[id])), s);
    }
  }

  lemma PushedAgrees(cfg: Config, m: Machine, s: Sched, id: Id)
    requires Agrees(cfg, m, s) && id in m.tasks && m.tasks[id].kind.Thread? && !m.tasks[id].state.Ready?
    ensures Agrees(cfg, Put(m, id, Enter(cfg, m.tasks[id], Ready)), Pushed(s, id))
  {
    Basics(cfg, m, s);
    hide RoundRobin.Agrees, Cyclic.Agrees, Edf.Agrees, RoundRobin.Proper, Cyclic.Proper, Enter;
    assert Has(s, id);
    match s
    case Rr(q) => RoundRobin.PushAgrees(cfg, m, q, id);
    case Cy(t) => Cyclic.CountAgrees(cfg, m, t, id);
    case Ed(d) => Edf.EnqueueAgrees(cfg, m, d, id);
  }

  lemma ChargedAgrees(cfg: Config, m: Machine, s: Sched, id: Id, t: Task)
    requires Agrees(cfg, m, s) && id in m.tasks && m.tasks[id].kind.Thread? && !m.tasks[id].state.Ready?
    requires t.kind.Thread? && t.allot == m.tasks[id].allot && t.link == m.tasks[id].link > 0
    ensures Agrees(cfg, Put(m, id, m.tasks[id].(link := Callback(cfg, t).link)), Charged(cfg, s, id, t))
  {
    Basics(cfg, m, s);
    hide RoundRobin.Agrees, Cyclic.Agrees, Edf.Agrees, RoundRobin.Proper, Callback;
    assert Has(s, id);
    match s
    case Rr(q) => RoundRobin.ChargeAgrees(cfg, m, q, id, t);
    case Cy(v) =>
      Cyclic.ChargeAgrees(cfg, m, v, id, t);
      Cyclic.SameOwners(v, Cyclic.Charge(v, id));
    case Ed(d) => Edf.ChargeAgrees(cfg, m, d, id, t);
  }

  /** The pop answers as the policy must, and the machine's dispatch of that task keeps the agreement. */
  lemma PoppedAgrees(cfg: Config, m: Machine, s: Sched)
    requires Agrees(cfg, m, s)
    ensures Next(s, m.tasks) in m.tasks && Wf(m)
    ensures NextOk(cfg, Exact, m, Next(s, m.tasks))
    ensures Agrees(cfg, Dispatch(cfg, m, Next(s, m.tasks)), Popped(s, m.tasks))
  {
    Basics(cfg, m, s);
    hide RoundRobin.Agrees, Cyclic.Agrees, Edf.Agrees, RoundRobin.Proper, Cyclic.Proper, Dispatch;
    match s
    case Rr(q) =>
      RoundRobin.NextAnswers(cfg, m, q);
      RoundRobin.PopAgrees(cfg, m, q);
    case Cy(t) =>
      Cyclic.NextAnswers(cfg, m, t);
      Cyclic.TakeAgrees(cfg, m, t);
    case Ed(d) =>
      Edf.NextAnswers(cfg, m, d);
      Edf.DequeueAgrees(cfg, m, d);
  }

  /** The machine after the rescheduling test, before anything is done about its answer. */
  function Looked(cfg: Config, m: Machine, replace: bool): (r: Machine)
    requires Wf(m) && m.running.Some?
    ensures Wf(r) && r.tasks.Keys == m.tasks.Keys
  {
    if !replace then Keep(cfg, m)
    else if cfg.policy.Edf? && m.tasks[m.running.value].kind.Thread? then FixupAll(cfg, m)
    else m
  }

  /** The rescheduling test answers as the policy must, and leaves the policy in agreement. */
  lemma TestedAgrees(cfg: Config, m: Machine, s: Sched, running: Id)
    requires Agrees(cfg, m, s) && m.running == Some(running) && running in m.tasks && !m.tasks[running].kind.Lsr?
    requires !m.tasks[running].state.Ready?
    ensures Wf(m) && Replace(s, running, m.tasks[running].kind) == Wants(cfg, m)
    ensures var kind := m.tasks[running].kind;
      Agrees(cfg, Looked(cfg, m, Replace(s, running, kind)), Tested(s, running, kind))
  {
    Basics(cfg, m, s);
    var kind := m.tasks[running].kind;
    hide RoundRobin.Agrees, Cyclic.Agrees, Edf.Agrees, RoundRobin.Proper, Wants;
    match s
    case Rr(q) =>
      RoundRobin.ReplaceAnswers(cfg, m, q, running);
      RoundRobin.RenewAgrees(cfg, m, q, running);
    case Cy(t) =>
      Cyclic.ReplaceAnswers(cfg, m, t, running);
      Cyclic.RenewAgrees(cfg, m, t, running);
      Cyclic.SameOwners(t, Cyclic.Renew(t, running, kind));
    case Ed(d) =>
      Edf.ReplaceAnswers(cfg, m, d, running);
      Edf.FixedAgrees(cfg, m, d);
  }

  /** The values the parameters of a thread can take: 32-bit counters, and bitmaps of the configured length. */
  predicate Typed(p: Param, frames: nat) {
    match p
    case RrParam(_) => true
    case CyParam(c) => 8 * |c.frameBmp| >= frames
    case EdParam(d) => d < WRAP
  }

  /** The timeslice or virtual deadline. */
  function Allot(p: Param): nat {
    match p
    case RrParam(r) => r.timesliceTicks
    case CyParam(c) => c.timesliceTicks
    case EdParam(d) => d
  }

  lemma JoinedAgrees(cfg: Config, m: Machine, s: Sched, id: Id, p: Param, t: Task)
    requires Agrees(cfg, m, s) && Accepts(s, id, p) && id !in m.tasks
    requires Typed(p, if s.Cy? then |s.t.frames| else 0)
    requires t.kind.Thread? && t.state.Ready? && (p.RrParam? ==> t.prio == p.rr.prio)
    requires t.allot == Allot(p) && t.link == if p.EdParam? then t.allot else 0
    ensures Agrees(cfg, Put(m, id, t), Joined(s, id, p))
  {
    Basics(cfg, m, s);
    hide RoundRobin.Agrees, Cyclic.Agrees, Edf.Agrees, RoundRobin.Proper, Cyclic.Proper;
    hide RoundRobin.Joined, Cyclic.Joined, Edf.Joined;
    match s
    case Rr(q) => RoundRobin.JoinAgrees(cfg, m, q, id, p.rr, t);
    case Cy(v) => Cyclic.JoinAgrees(cfg, m, v, id, p.cy, t);
    case Ed(d) => Edf.JoinAgrees(cfg, m, d, id, p.deadline, t);
  }

  lemma OtherJoins(cfg: Config, m: Machine, s: Sched, id: Id, t: Task)
    requires Agrees(cfg, m, s) && id !in m.tasks && !t.kind.Thread?
    ensures Agrees(cfg, Put(m, id, t), s)
  {
    hide RoundRobin.Agrees, Cyclic.Agrees, Edf.Agrees, RoundRobin.Proper, Cyclic.Proper;
    match s
    case Rr(q) => RoundRobin.OtherJoins(cfg, m, q, id, t);
    case Cy(v) => Cyclic.OtherJoins(cfg, m, v, id, t);
    case Ed(d) => Edf.OtherJoins(cfg, m, d, id, t);
  }
}
