/**
 The moves between running, pending and ready tasks on the containers (src/workhorse/kTick/kTick.c:491-691), each
 against the function of TickSpec it computes.
 */
module TickRefine {
  import opened Tasks
  import opened DeltaSeq
  import opened TickSpec
  import opened TickInv
  import opened Containers
  import opened TickLoops

  /** Two kernels that agree on every task and on the slots stand for the same machine. */
  lemma AbstractIs(k: Kernel, idle: Id, m: Machine)
    requires m.tasks.Keys == k.tcbs.Keys && forall id :: id in k.tcbs ==> m.tasks[id] == TaskAt(k, id)
    requires m.idle == idle && m.running == k.running && m.slot == k.slot && m.lsrs == k.lsrs
    ensures Abstract(k, idle) == m
  {
    hide TaskAt;
    assert Abstract(k, idle).tasks == m.tasks;
  }

  /** `kTickPrepareLeaveRunningState`, then the state the running task leaves for. */
  function LeaveKernel(cfg: Config, k: Kernel, next: State): Kernel
    requires k.running.Some? && k.running.value in k.tcbs && LagOk(k.tcbs[k.running.value])
  {
    Load(cfg, k.(running := None), k.running.value, next)
  }

  lemma RunningKnown(cfg: Config, k: Kernel)
    requires Agree(cfg, k) && k.running.Some?
    ensures var id := k.running.value;
      && id in k.tcbs && k.tcbs[id].state.Running? && !k.tcbs[id].lag && k.slot != Some(id)
  {
    hide Distinct, Stamped, Ids;
    assert Home(cfg, k, k.running.value);
  }

  lemma LeaveAgrees(cfg: Config, k: Kernel, next: State)
    requires Agree(cfg, k) && k.running.Some? && !next.Running? && !next.Sleep? && !next.Pending?
    requires Deferred(next) ==> k.slot.None?
    ensures var id := k.running.value;
      && id in k.tcbs && LagOk(k.tcbs[id])
      && var r := LeaveKernel(cfg, k, next);
      && Agree(cfg, r) && OthersSame(k, r, id) && TaskAt(r, id) == Enter(cfg, TaskAt(k, id), next)
      && r.running.None? && r.slot == (if next.DefPending? then Some(id) else k.slot)
      && r.lsrs == (if next.LsrPending? then [id] + k.lsrs else k.lsrs)
  {
    RunningKnown(cfg, k);
    DetachRunning(cfg, k);
    var id := k.running.value;
    hide Agree, Detached, TaskAt, Enter, Loaded;
    LoadAgrees(cfg, k.(running := None), id, next);
    LeaveSame(cfg, k, id, next);
  }

  lemma LeaveRefines(cfg: Config, k: Kernel, idle: Id, next: State)
    requires Agree(cfg, k) && Wf(Abstract(k, idle)) && k.running.Some?
    requires !next.Running? && !next.Sleep? && !next.Pending? && (Deferred(next) ==> k.slot.None?)
    ensures k.running.value in k.tcbs && LagOk(k.tcbs[k.running.value])
    ensures Agree(cfg, LeaveKernel(cfg, k, next))
    ensures Abstract(LeaveKernel(cfg, k, next), idle) == Leave(cfg, Abstract(k, idle), next)
  {
    var m := Abstract(k, idle);
    hide Agree, LeaveKernel, Enter, TaskAt;
    LeaveAgrees(cfg, k, next);
    var r := LeaveKernel(cfg, k, next);
    var n := Leave(cfg, m, next);
    assert n.tasks == m.tasks[k.running.value := TaskAt(r, k.running.value)];
    AbstractIs(r, idle, n);
  }

  lemma LeaveSame(cfg: Config, k: Kernel, id: Id, next: State)
    requires id in k.tcbs && !k.tcbs[id].lag && k.tcbs[id].state.Running? && !next.Running? && !next.Sleep?
    ensures Loaded(cfg, k.tcbs[id], TaskAt(k, id), next) == Enter(cfg, TaskAt(k, id), next)
    ensures TaskAt(k.(running := None), id) == TaskAt(k, id)
    ensures forall x :: x in k.tcbs ==> TaskAt(k.(running := None), x) == TaskAt(k, x)
  {
    hide Left;
  }

  /** What the policy has done to its links: `kSchedFixupChainEdf` on all ready threads. */
  function FixedKernel(cfg: Config, k: Kernel): Kernel {
    k.(tcbs := map id | id in k.tcbs :: k.tcbs[id].(link := Fixup(cfg, TaskAt(k, id)).link))
  }

  lemma FixedRefines(cfg: Config, k: Kernel, idle: Id)
    requires Agree(cfg, k) && Wf(Abstract(k, idle))
    ensures Agree(cfg, FixedKernel(cfg, k))
    ensures Abstract(FixedKernel(cfg, k), idle) == FixupAll(cfg, Abstract(k, idle))
  {
    LinksAgree(cfg, k, FixedKernel(cfg, k));
    hide Agree, Left, Fixup;
    AbstractIs(FixedKernel(cfg, k), idle, FixupAll(cfg, Abstract(k, idle)));
  }

  /** Links are the policy's business: no container depends on them. */
  lemma LinksAgree(cfg: Config, k: Kernel, r: Kernel)
    requires Agree(cfg, k) && r == k.(tcbs := r.tcbs) && r.tcbs.Keys == k.tcbs.Keys
    requires forall id :: id in k.tcbs ==> r.tcbs[id] == k.tcbs[id].(link := r.tcbs[id].link)
    ensures Agree(cfg, r)
    ensures forall id :: id in k.tcbs ==> TaskAt(r, id) == TaskAt(k, id).(link := r.tcbs[id].link)
  {
    hide Ids, Distinct, Stamped, NoDup, Left;
    forall x | x in k.tcbs ensures Home(cfg, r, x) {
      assert Home(cfg, k, x);
    }
  }

  /** The popped task: out of the policy, with a fresh turn. */
  function PoppedKernel(cfg: Config, k: Kernel, next: Id): Kernel
    requires next in k.tcbs
  {
    var k := FixedKernel(cfg, k);
    k.(ready := k.ready - {next},
       tcbs := k.tcbs[next := k.tcbs[next].(link := Popped(cfg, TaskAt(k, next)).link)])
  }

  lemma PopAgrees(cfg: Config, f: Kernel, next: Id, link: nat)
    requires Agree(cfg, f) && next in f.tcbs && f.tcbs[next].state.Ready? && f.running.None?
    ensures var p := f.(ready := f.ready - {next}, tcbs := f.tcbs[next := f.tcbs[next].(link := link)]);
      && LagOk(p.tcbs[next])
      && var r := Load(cfg, p, next, Running);
      && Agree(cfg, r) && OthersSame(f, r, next) && TaskAt(r, next) == TaskAt(f, next).(link := link, state := Running)
      && r.running == Some(next) && r.slot == f.slot && r.lsrs == f.lsrs
  {
    assert !f.tcbs[next].lag && f.slot != Some(next) by { assert Home(cfg, f, next); }
    DetachReady(cfg, f, next);
    var g := f.(ready := f.ready - {next});
    hide Agree, Detached, Left, Ids;
    DetachedPut(cfg, g, next, f.tcbs[next].(link := link));
    LoadAgrees(cfg, TickLoops.Put(g, next, f.tcbs[next].(link := link)), next, Running);
  }

  lemma DispatchRefines(cfg: Config, k: Kernel, idle: Id, next: Id)
    requires Agree(cfg, k) && Wf(Abstract(k, idle)) && k.running.None?
    requires next in k.tcbs && k.tcbs[next].state.Ready?
    ensures LagOk(PoppedKernel(cfg, k, next).tcbs[next])
    ensures var r := Load(cfg, PoppedKernel(cfg, k, next), next, Running);
      Agree(cfg, r) && Abstract(r, idle) == Dispatch(cfg, Abstract(k, idle), next)
  {
    var f := FixedKernel(cfg, k);
    FixedRefines(cfg, k, idle);
    PopAgrees(cfg, f, next, Popped(cfg, TaskAt(f, next)).link);
    hide Agree, TaskAt, Popped, FixupAll, FixedKernel, Load;
    AbstractIs(Load(cfg, PoppedKernel(cfg, k, next), next, Running), idle, Dispatch(cfg, Abstract(k, idle), next));
  }

  /** The pending task runs again. */
  lemma RestoreRefines(cfg: Config, k: Kernel, idle: Id)
    requires Agree(cfg, k) && Wf(Abstract(k, idle)) && k.running.None? && k.slot.Some?
    ensures var id := k.slot.value;
      && id in k.tcbs && LagOk(k.tcbs[id])
      && (k.tcbs[id].state.DefPending? ==> k.deferred != [] && k.deferred[0] == id)
      && var r := Load(cfg, SlotTaken(k), id, Running);
      && Agree(cfg, r) && Abstract(r, idle) == Restore(Abstract(k, idle))
  {
    var id := k.slot.value;
    assert !k.tcbs[id].lag by { assert Home(cfg, k, id); }
    DetachSlot(cfg, k);
    hide Agree, Detached, Left, Ids;
    LoadAgrees(cfg, SlotTaken(k), id, Running);
    AbstractIs(Load(cfg, SlotTaken(k), id, Running), idle, Restore(Abstract(k, idle)));
  }

  lemma RunLsrRefines(cfg: Config, k: Kernel, idle: Id)
    requires Agree(cfg, k) && Wf(Abstract(k, idle)) && k.running.None? && k.lsrs != []
    ensures var id := k.lsrs[0];
      && id in k.tcbs && LagOk(k.tcbs[id])
      && var r := Load(cfg, k.(lsrs := k.lsrs[1..]), id, Running);
      && Agree(cfg, r) && Abstract(r, idle) == RunLsr(Abstract(k, idle))
  {
    var id := k.lsrs[0];
    assert !k.tcbs[id].lag && k.slot != Some(id) by { assert Home(cfg, k, id); }
    DetachLsr(cfg, k);
    hide Agree, Detached, Left, Ids;
    LoadAgrees(cfg, k.(lsrs := k.lsrs[1..]), id, Running);
    AbstractIs(Load(cfg, k.(lsrs := k.lsrs[1..]), id, Running), idle, RunLsr(Abstract(k, idle)));
  }

  lemma PushLsrRefines(cfg: Config, k: Kernel, idle: Id, l: Id)
    requires Agree(cfg, k) && Wf(Abstract(k, idle)) && l in k.tcbs && k.tcbs[l].state.LsrDormant?
    ensures LagOk(k.tcbs[l])
    ensures var r := Load(cfg, k.(dormant := k.dormant - {l}), l, LsrPending);
      Agree(cfg, r) && Abstract(r, idle) == PushLsr(Abstract(k, idle), l)
  {
    assert !k.tcbs[l].lag && k.slot != Some(l) && k.running != Some(l) by { assert Home(cfg, k, l); }
    DetachDormant(cfg, k, l);
    hide Agree, Detached, Left, Ids;
    var g := k.(dormant := k.dormant - {l});
    LoadAgrees(cfg, g, l, LsrPending);
    AbstractIs(Load(cfg, g, l, LsrPending), idle, PushLsr(Abstract(k, idle), l));
  }

  // ------------------------------------------------------------------------
  // The phases of a tick, put together.

  /** What the loops of a tick rely on, for one task at each stage of the tick. */
  lemma StagesOk(cfg: Config, t: Task)
    requires TaskOk(cfg, t, false)
    ensures var t1 := if cfg.algorithm.Bcs? then Replenish(cfg, Transition(cfg, t)) else Transition(cfg, t);
      var t3 := ChargeRunning(cfg, ChargeDeferred(cfg, t1));
      var t4 := if cfg.algorithm.Ds? then Replenish(cfg, t3) else t3;
      && KindAllows(t1.kind, t1.state) && (t.state.Running? <==> t1.state.Running?)
      && (t.state.DefPending? <==> t1.state.DefPending?)
      && (t.state.Running? <==> ChargeDeferred(cfg, t1).state.Running?)
      && (t4.state.Sleep? ==> t4.kind.Thread? && 0 < t4.sleepTicks && 0 < t4.budget)
      && (t4.state.Pending? <==> ChargeDeferred(cfg, t1).state.Pending?)
      && (SleepPhase(cfg, t4).state.Pending? <==> t4.state.Pending?)
      && SleepPhase(cfg, t4) == TickTask(cfg, t)
  {
    hide Callback, Push, Transition;
    var t0 := Transition(cfg, t);
    ReplenishOk(cfg, t0, false);
    var t1 := if cfg.algorithm.Bcs? then Replenish(cfg, t0) else t0;
    ChargeDeferredOk(cfg, t1);
    hide Replenish, ChargeDeferred;
    var t3 := ChargeRunning(cfg, ChargeDeferred(cfg, t1));
    ChargeRunningOk(cfg, ChargeDeferred(cfg, t1));
    if t3.state.Sleep? {
      ReplenishOk(cfg, t3.(nap := 1, sleepTicks := t3.sleepTicks + 1), true);
      ReplenishSleeping(cfg, t3);
    } else {
      ReplenishOk(cfg, t3, true);
    }
  }

  lemma ReplenishSleeping(cfg: Config, t: Task)
    requires t.state.Sleep?
    ensures Replenish(cfg, t).state.Sleep? && Replenish(cfg, t).nap == t.nap
  {
  }

  /** The stages of a tick, as `TickTask` goes through them. */
  function Stage(cfg: Config, n: nat, t: Task): Task {
    var ready := Transition(cfg, t);
    var supplied := if cfg.algorithm.Bcs? then Replenish(cfg, ready) else ready;
    var deferred := ChargeDeferred(cfg, supplied);
    var charged := ChargeRunning(cfg, deferred);
    if n == 0 then ready
    else if n == 1 then supplied
    else if n == 2 then deferred
    else if n == 3 then charged
    else if n == 4 then if cfg.algorithm.Ds? then Replenish(cfg, charged) else charged
    else TickTask(cfg, t)
  }

  /** Every task is at stage `n` of the tick that started in `k0`. */
  ghost predicate AtStage(cfg: Config, n: nat, k0: Kernel, k: Kernel) {
    && Agree(cfg, k) && k.tcbs.Keys == k0.tcbs.Keys
    && k.running == k0.running && k.lsrs == k0.lsrs
    && forall id :: id in k.tcbs ==> TaskAt(k, id) == Stage(cfg, n, TaskAt(k0, id))
  }

  lemma StagesFacts(cfg: Config, t: Task)
    requires TaskOk(cfg, t, false)
    ensures KindAllows(t.kind, Stage(cfg, 1, t).state) && Stage(cfg, 1, t).kind == t.kind
    ensures Stage(cfg, 1, t).state.DefPending? <==> t.state.DefPending?
    ensures Stage(cfg, 2, t).state.Running? <==> t.state.Running?
    ensures Stage(cfg, 2, t).cool == Stage(cfg, 1, t).cool || cfg.algorithm.Bcs?
    ensures Stage(cfg, 4, t).state.Sleep? ==> 0 < Stage(cfg, 4, t).sleepTicks && 0 < Stage(cfg, 4, t).budget
    ensures TickTask(cfg, t).state.Pending? <==> Stage(cfg, 2, t).state.Pending?
    ensures SleepPhase(cfg, Stage(cfg, 4, t)) == TickTask(cfg, t)
    ensures ChargeDeferred(cfg, Stage(cfg, 1, t)) == Stage(cfg, 2, t)
    ensures ChargeRunning(cfg, Stage(cfg, 2, t)) == Stage(cfg, 3, t)
    ensures Stage(cfg, 4, t) == if cfg.algorithm.Ds? then Replenish(cfg, Stage(cfg, 3, t)) else Stage(cfg, 3, t)
  {
    StagesOk(cfg, t);
    hide SleepPhase, ChargeRunning, ChargeDeferred, Replenish, Transition, TickTask;
    DeferredCool(cfg, Stage(cfg, 1, t));
  }

  /** A thread that is about to be charged has budget left. */
  lemma StagesPaid(cfg: Config, t: Task)
    requires TaskOk(cfg, t, false)
    ensures var t := Stage(cfg, 1, t); Deferred(t.state) && t.kind.Thread? ==> 0 < t.current
    ensures var t := Stage(cfg, 2, t); t.state.Running? && t.kind.Thread? ==> 0 < t.current
  {
    hide Replenish, ChargeDeferred, Callback;
    var t0 := Transition(cfg, t);
    ReplenishOk(cfg, t0, false);
    ChargeDeferredOk(cfg, Stage(cfg, 1, t));
  }

  lemma DeferredCool(cfg: Config, t: Task)
    ensures cfg.algorithm.Ds? ==> ChargeDeferred(cfg, t).cool == t.cool
  {
    hide Callback, Push;
  }

  /** When all phases are done, the containers stand for the machine after `Phases`. */
  lemma PhasesDone(cfg: Config, idle: Id, k0: Kernel, k1: Kernel, k2: Kernel, k: Kernel)
    requires Agree(cfg, k0) && Inv(cfg, Abstract(k0, idle))
    requires AtStage(cfg, 1, k0, k1) && AtStage(cfg, 2, k0, k2) && AtStage(cfg, 5, k0, k)
    requires k1.slot == k0.slot && k.slot == k2.slot
    requires k2.slot == if k1.slot.Some? && k1.slot.value in k1.tcbs && k1.tcbs[k1.slot.value].state.DefPending?
                          && k1.slot.value in k2.tcbs && !k2.tcbs[k1.slot.value].state.Pending? then None else k1.slot
    ensures Abstract(k, idle) == Phases(cfg, Abstract(k0, idle))
  {
    var m := Abstract(k0, idle);
    hide Agree, Left, Ids, TickTask, TaskOk, Placed;
    forall id | id in k.tcbs ensures TaskAt(k, id) == TickTask(cfg, TaskAt(k0, id)) {
      assert TaskAt(k, id) == Stage(cfg, 5, TaskAt(k0, id));
    }
    if k0.slot.Some? {
      var p := k0.slot.value;
      assert m.tasks[p] == TaskAt(k0, p);
      assert TaskOk(cfg, m.tasks[p], false);
      StagesFacts(cfg, TaskAt(k0, p));
      assert TaskAt(k1, p) == Stage(cfg, 1, TaskAt(k0, p));
      assert TaskAt(k2, p) == Stage(cfg, 2, TaskAt(k0, p));
      hide Stage;
    }
    AbstractIs(k, idle, Phases(cfg, m));
  }

  // ------------------------------------------------------------------------
  // The policy's side of a rescheduling point.

  lemma ReadyIs(cfg: Config, k: Kernel, idle: Id)
    requires Agree(cfg, k)
    ensures ReadySet(Abstract(k, idle)) == k.ready
  {
    hide Distinct, Stamped, Ids, NoDup;
    forall x | x in k.tcbs ensures x in k.ready <==> k.tcbs[x].kind.Thread? && k.tcbs[x].state.Ready? {
      assert Home(cfg, k, x);
    }
  }

  /** What `kSchedShouldReschedule` leaves behind when it answers no. */
  function KeptKernel(cfg: Config, k: Kernel): Kernel
    requires k.running.Some? && k.running.value in k.tcbs
  {
    var id := k.running.value;
    if !k.tcbs[id].kind.Thread? then k
    else if cfg.policy.Edf? then FixedKernel(cfg, k)
    else if k.tcbs[id].link == 0 then TickLoops.Put(k, id, k.tcbs[id].(link := k.tcbs[id].allot))
    else k
  }

  lemma KeepRefines(cfg: Config, k: Kernel, idle: Id)
    requires Agree(cfg, k) && Wf(Abstract(k, idle)) && k.running.Some? && k.running.value in k.tcbs
    ensures KeptKernel(cfg, k) == k.(tcbs := KeptKernel(cfg, k).tcbs)
    ensures Agree(cfg, KeptKernel(cfg, k))
    ensures Abstract(KeptKernel(cfg, k), idle) == Keep(cfg, Abstract(k, idle))
  {
    var id := k.running.value;
    if k.tcbs[id].kind.Thread? {
      if cfg.policy.Edf? {
        FixedRefines(cfg, k, idle);
      } else if k.tcbs[id].link == 0 {
        AgreePut(cfg, k, id, k.tcbs[id].(link := k.tcbs[id].allot));
        AbstractIs(KeptKernel(cfg, k), idle, Keep(cfg, Abstract(k, idle)));
      }
    }
  }

  /** At the start of a tick: what the loops may rely on. */
  lemma EntryFacts(cfg: Config, k: Kernel, idle: Id)
    requires Agree(cfg, k) && Inv(cfg, Abstract(k, idle))
    ensures ChainPositive(cfg, k)
    ensures forall id :: id in k.tcbs ==> TaskOk(cfg, TaskAt(k, id), false)
  {
    ChainKnown(cfg, k);
    var m := Abstract(k, idle);
    hide Agree, Left, Ids;
    forall id | id in k.tcbs ensures TaskOk(cfg, TaskAt(k, id), false) {
      assert m.tasks[id] == TaskAt(k, id);
    }
  }

  lemma ChainPositiveSame(cfg: Config, k: Kernel, r: Kernel)
    requires ChainPositive(cfg, k) && r.repl == k.repl && r.tcbs.Keys == k.tcbs.Keys
    requires forall id :: id in k.tcbs ==> r.tcbs[id].kind == k.tcbs[id].kind
    ensures ChainPositive(cfg, r)
  {
    hide Left, Ids;
  }

  lemma StartOfTick(cfg: Config, k0: Kernel, k: Kernel, idle: Id)
    requires Agree(cfg, k0) && Inv(cfg, Abstract(k0, idle))
    requires k == k0.(tcbs := map id | id in k0.tcbs :: k0.tcbs[id].(link := Transition(cfg, TaskAt(k0, id)).link))
    ensures AtStage(cfg, 0, k0, k) && ChainPositive(cfg, k)
  {
    LinksAgree(cfg, k0, k);
    EntryFacts(cfg, k0, idle);
    ChainPositiveSame(cfg, k0, k);
    hide Agree, Left, Ids, Transition;
  }

  lemma StageOneAt(cfg: Config, k0: Kernel, k: Kernel, id: Id)
    requires AtStage(cfg, 1, k0, k) && id in k.tcbs && TaskOk(cfg, TaskAt(k0, id), false)
    ensures KindAllows(k.tcbs[id].kind, k.tcbs[id].state)
    ensures k.tcbs[id].state.DefPending? <==> k0.tcbs[id].state.DefPending?
    ensures Deferred(k.tcbs[id].state) && k.tcbs[id].kind.Thread? ==> 0 < k.tcbs[id].current
  {
    hide Agree, Left, Ids, Stage, TaskOk;
    assert TaskAt(k, id) == Stage(cfg, 1, TaskAt(k0, id));
    StagesFacts(cfg, TaskAt(k0, id));
    StagesPaid(cfg, TaskAt(k0, id));
  }

  /** Stage 1 is reached; the loop over the deferred ticks may start. */
  lemma ReadyToDrain(cfg: Config, k0: Kernel, k: Kernel, idle: Id)
    requires Agree(cfg, k0) && Inv(cfg, Abstract(k0, idle)) && AtStage(cfg, 1, k0, k)
    ensures DeferredAreTasks(k)
  {
    hide Agree, Left, Ids, Stage, TaskOk, Inv, TaskAt, Abstract;
    EntryFacts(cfg, k0, idle);
    forall id | id in k.tcbs
      ensures KindAllows(k.tcbs[id].kind, k.tcbs[id].state)
      ensures Deferred(k.tcbs[id].state) && k.tcbs[id].kind.Thread? ==> 0 < k.tcbs[id].current
    {
      StageOneAt(cfg, k0, k, id);
    }
  }

  /** Stage 2 is reached; the running task may be charged. */
  lemma ReadyToCharge(cfg: Config, k0: Kernel, k: Kernel, idle: Id, id: Id)
    requires Agree(cfg, k0) && Inv(cfg, Abstract(k0, idle)) && AtStage(cfg, 2, k0, k) && k.running == Some(id)
    ensures id in k.tcbs && (k.tcbs[id].kind.Thread? ==> 0 < k.tcbs[id].current)
  {
    AgreeRunning(cfg, k);
    hide Agree, Left, Ids, Stage, TaskOk, Inv, Abstract;
    EntryFacts(cfg, k0, idle);
    assert TaskAt(k, id) == Stage(cfg, 2, TaskAt(k0, id));
    StagesPaid(cfg, TaskAt(k0, id));
  }

  function StageStep(cfg: Config, n: nat, t: Task): Task {
    if n == 1 then ChargeDeferred(cfg, t)
    else if n == 2 then ChargeRunning(cfg, t)
    else if n == 3 then if cfg.algorithm.Ds? then Replenish(cfg, t) else t
    else SleepPhase(cfg, t)
  }

  lemma NextStage(cfg: Config, n: nat, k0: Kernel, k: Kernel, r: Kernel, idle: Id)
    requires Agree(cfg, k0) && Inv(cfg, Abstract(k0, idle)) && AtStage(cfg, n, k0, k) && 1 <= n <= 4
    requires Agree(cfg, r) && r.tcbs.Keys == k.tcbs.Keys && r.running == k.running && r.lsrs == k.lsrs
    requires forall id :: id in r.tcbs ==> TaskAt(r, id) == StageStep(cfg, n, TaskAt(k, id))
    ensures AtStage(cfg, n + 1, k0, r)
  {
    hide Agree, Left, Ids, TaskOk, ChargeDeferred, ChargeRunning, Replenish, SleepPhase, Inv, Abstract, Transition;
    EntryFacts(cfg, k0, idle);
    forall id | id in r.tcbs ensures TaskAt(r, id) == Stage(cfg, n + 1, TaskAt(k0, id)) {
      StagesFacts(cfg, TaskAt(k0, id));
      assert TaskAt(k, id) == Stage(cfg, n, TaskAt(k0, id));
    }
  }

  lemma ReadyToSleep(cfg: Config, k0: Kernel, k: Kernel, idle: Id)
    requires Agree(cfg, k0) && Inv(cfg, Abstract(k0, idle)) && AtStage(cfg, 4, k0, k)
    ensures forall id :: id in k.tcbs && k.tcbs[id].state.Sleep? ==> 0 < k.tcbs[id].sleepTicks && 0 < k.tcbs[id].budget
  {
    hide Agree, Left, Ids, TaskOk, Stage, Inv, Abstract;
    EntryFacts(cfg, k0, idle);
    forall id | id in k.tcbs && k.tcbs[id].state.Sleep? ensures 0 < k.tcbs[id].sleepTicks && 0 < k.tcbs[id].budget {
      assert TaskAt(k, id) == Stage(cfg, 4, TaskAt(k0, id));
      StagesFacts(cfg, TaskAt(k0, id));
    }
  }

  lemma KindsKept(cfg: Config, k0: Kernel, k: Kernel, n: nat)
    requires AtStage(cfg, n, k0, k)
    ensures forall id :: id in k.tcbs ==> k.tcbs[id].kind == k0.tcbs[id].kind
  {
    hide Agree, Left, Ids, Transition, Replenish, ChargeDeferred, ChargeRunning, SleepPhase, TickTask;
    forall id | id in k.tcbs ensures k.tcbs[id].kind == k0.tcbs[id].kind {
      assert TaskAt(k, id) == Stage(cfg, n, TaskAt(k0, id));
      assert Fixed(TaskAt(k0, id), Stage(cfg, n, TaskAt(k0, id)));
    }
  }

  /** At a rescheduling point the running thread may go where the point sends it. */
  lemma PointMayLeave(cfg: Config, m: Machine)
    requires Inv(cfg, m, true) && m.running.Some?
    ensures var t := m.tasks[m.running.value];
      && (t.kind.Idle? <==> m.running.value == m.idle)
      && (t.kind.Thread? && t.current == 0 ==> MayLeave(m, Throttled))
      && (!t.kind.Lsr? && !(t.kind.Thread? && t.current == 0) ==> MayLeave(m, Ready))
  {
  }

  lemma StageOne(cfg: Config, k0: Kernel, s: Kernel, k: Kernel)
    requires AtStage(cfg, 0, k0, s) && Agree(cfg, k) && k.tcbs.Keys == s.tcbs.Keys
    requires k.running == s.running && k.lsrs == s.lsrs
    requires if cfg.algorithm.Bcs? then forall id :: id in k.tcbs ==> TaskAt(k, id) == Replenish(cfg, TaskAt(s, id))
      else k == s
    ensures AtStage(cfg, 1, k0, k)
  {
    hide Agree, Left, Ids, TaskAt, Transition, Replenish;
    forall id | id in k.tcbs ensures TaskAt(k, id) == Stage(cfg, 1, TaskAt(k0, id)) {
      assert TaskAt(s, id) == Stage(cfg, 0, TaskAt(k0, id));
    }
  }

  lemma NotRunningYet(cfg: Config, m: Machine, l: Id)
    requires Inv(cfg, m) && m.running.None? && l in m.tasks
    ensures !m.tasks[l].state.Running?
  {
    hide TaskOk;
  }

  /** An idle task preempted by an LSR in this tick was running because nothing was ready, and nothing is. */
  lemma SlotIdle(cfg: Config, k: Kernel, idle: Id)
    requires Agree(cfg, k) && Inv(cfg, Abstract(k, idle)) && k.slot.Some?
    ensures k.slot.value in k.tcbs && !k.tcbs[k.slot.value].state.Running?
    ensures k.slot == Some(idle) && k.tcbs[idle].state.DefPending? ==> k.ready == {}
  {
    ReadyIs(cfg, k, idle);
    var m := Abstract(k, idle);
    hide Agree, TaskOk;
    assert m.tasks[k.slot.value].state == k.tcbs[k.slot.value].state;
  }

  // ------------------------------------------------------------------------
  // When a running task may leave.

  lemma PreemptMayLeave(cfg: Config, m: Machine)
    requires Inv(cfg, m) && m.running.Some?
    ensures var t := m.tasks[m.running.value];
      MayLeave(m, if t.kind.Lsr? then LsrPending else DefPending)
  {
  }

  lemma SwitchMayLeave(cfg: Config, m: Machine, e: Event)
    requires Inv(cfg, m) && IsSwitch(e) && Enabled(m, e)
    ensures var id := m.running.value;
      MayLeave(if e.SleepFor? then TickSpec.Put(m, id, m.tasks[id].(sleepTicks := e.ticks)) else m, Target(e))
  {
  }

  lemma SwitchSlot(cfg: Config, m: Machine, next: State)
    requires Inv(cfg, m) && m.running.Some? && MayLeave(m, next)
    ensures Deferred(next) ==> m.slot.None?
  {
  }

  /** With an LSR pending, the policy is not asked. */
  lemma ResumeLsr(cfg: Config, m: Machine, c: Choice)
    requires Wf(m) && m.lsrs != [] && c.next in m.tasks
    ensures Resume(cfg, m, c) == RunLsr(m)
  {
  }

  /** Setting the length of a sleep before it starts. */
  lemma SleepAgrees(cfg: Config, k: Kernel, idle: Id, id: Id, ticks: nat)
    requires Agree(cfg, k) && Wf(Abstract(k, idle)) && id in k.tcbs && k.tcbs[id].state.Running? && ticks < WRAP
    ensures var r := k.(tcbs := k.tcbs[id := k.tcbs[id].(sleepTicks := ticks)]);
      && Agree(cfg, r)
      && Abstract(r, idle) == TickSpec.Put(Abstract(k, idle), id, Abstract(k, idle).tasks[id].(sleepTicks := ticks))
  {
    var r := k.(tcbs := k.tcbs[id := k.tcbs[id].(sleepTicks := ticks)]);
    hide Distinct, Stamped, Ids, NoDup, Left;
    forall x | x in k.tcbs ensures Home(cfg, r, x) {
      assert Home(cfg, k, x);
    }
    AbstractIs(r, idle, TickSpec.Put(Abstract(k, idle), id, Abstract(k, idle).tasks[id].(sleepTicks := ticks)));
  }
}
