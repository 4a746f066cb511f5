/**
 The loops of a tick on the containers (src/workhorse/kTick/kTick.c:289-489): what one iteration does, and what holds
 between iterations. Each loop turns out to be the function of TickSpec applied to every task at once.
 */
module TickLoops {
  import opened Tasks
  import opened DeltaSeq
  import opened TickSpec
  import opened Containers

  datatype Phase = Replenishing | Charging | Waking

  function RunPhase(cfg: Config, p: Phase, t: Task): Task {
    match p
    case Replenishing => Replenished(cfg, t)
    case Charging => ChargeDeferred(cfg, t)
    case Waking => Wake(cfg, t)
  }

  /** The tasks in `done` have been through phase `p`, all others are as they were in `from`. */
  ghost predicate Between(cfg: Config, p: Phase, from: Kernel, k: Kernel, done: set<Id>) {
    && Agree(cfg, k) && k.tcbs.Keys == from.tcbs.Keys
    && (forall id :: id in done ==> id in k.tcbs)
    && forall id :: id in k.tcbs ==>
      TaskAt(k, id) == if id in done then RunPhase(cfg, p, TaskAt(from, id)) else TaskAt(from, id)
  }

  lemma BetweenStep(cfg: Config, p: Phase, from: Kernel, k: Kernel, r: Kernel, done: set<Id>, id: Id)
    requires Between(cfg, p, from, k, done) && id in k.tcbs && id !in done
    requires Agree(cfg, r) && OthersSame(k, r, id) && TaskAt(r, id) == RunPhase(cfg, p, TaskAt(k, id))
    ensures Between(cfg, p, from, r, done + {id})
  {
    hide Agree, TaskAt, RunPhase;
  }

  function Put(k: Kernel, id: Id, b: Tcb): Kernel { k.(tcbs := k.tcbs[id := b]) }

  // ------------------------------------------------------------------------
  // Replenishment.

  /** An expired node of the replenishment chain: a full budget, and under DS back on the chain. */
  function ReplenishFront(cfg: Config, k: Kernel): Kernel
    requires k.repl != [] && k.repl[0].id in k.tcbs && LagOk(k.tcbs[k.repl[0].id])
  {
    var id := k.repl[0].id;
    var b := k.tcbs[id].(current := k.tcbs[id].budget);
    match cfg.algorithm
    case Bcs =>
      Load(cfg, Put(k.(repl := k.repl[1..]), id, b), id, Ready)
    case Ds =>
      var r := Put(k.(repl := Insert(k.repl[1..], id, b.period, (k.replEpoch + b.period) % WRAP)), id, b);
      if b.state.Throttled? then Load(cfg, r, id, Ready) else r
  }

  /** The same, seen on the task. */
  function Replenished(cfg: Config, t: Task): Task {
    var full := t.(current := t.budget, cool := if cfg.algorithm.Bcs? then 0 else t.period);
    if t.state.Throttled? then Enter(cfg, full, Ready) else full
  }

  /** The front of the chain is a known task, and where that task is. */
  lemma FrontKnown(cfg: Config, k: Kernel)
    requires Agree(cfg, k) && k.repl != []
    ensures var id := k.repl[0].id;
      && id in Ids(k.repl) && id in k.tcbs && OnChain(cfg, k.tcbs[id]) && !k.tcbs[id].lag && k.tcbs[id].period < WRAP
      && (k.tcbs[id].state.Throttled? ==> k.slot != Some(id))
  {
    hide Distinct, Stamped;
    assert k.repl[0] in k.repl;
    assert Home(cfg, k, k.repl[0].id);
  }

  lemma FrontBcs(cfg: Config, k: Kernel)
    requires cfg.algorithm.Bcs? && Agree(cfg, k) && k.repl != [] && k.repl[0].delta == 0
    ensures var id := k.repl[0].id;
      && id in k.tcbs && LagOk(k.tcbs[id]) && Left(k.repl, id) == 0
      && var r := ReplenishFront(cfg, k);
      && Agree(cfg, r) && OthersSame(k, r, id) && TaskAt(r, id) == Replenished(cfg, TaskAt(k, id))
      && Ids(r.repl) == Ids(k.repl) - {id}
  {
    hide Agree, Detached, Distinct, Ids, Stamped, Push;
    FrontKnown(cfg, k);
    DetachChain(cfg, k);
    var id := k.repl[0].id;
    var b := k.tcbs[id].(current := k.tcbs[id].budget);
    var k1 := k.(repl := k.repl[1..]);
    NotIn(k1.repl, id);
    DetachedPut(cfg, k1, id, b);
    LoadAgrees(cfg, Put(k1, id, b), id, Ready);
  }

  lemma FrontDs(cfg: Config, k: Kernel)
    requires cfg.algorithm.Ds? && Agree(cfg, k) && k.repl != [] && k.repl[0].delta == 0
    ensures var id := k.repl[0].id;
      && id in k.tcbs && LagOk(k.tcbs[id]) && Left(k.repl, id) == 0
      && var r := ReplenishFront(cfg, k);
      && Agree(cfg, r) && OthersSame(k, r, id) && TaskAt(r, id) == Replenished(cfg, TaskAt(k, id))
      && Ids(r.repl) == Ids(k.repl)
  {
    hide Agree, Detached, Insert, Left, Distinct, Ids, Stamped, Push;
    FrontKnown(cfg, k);
    var id := k.repl[0].id;
    var b := k.tcbs[id].(current := k.tcbs[id].budget);
    var k1 := k.(repl := Insert(k.repl[1..], id, b.period, (k.replEpoch + b.period) % WRAP));
    Requeue(cfg, k, b.period);
    AgreePut(cfg, k1, id, b);
    if b.state.Throttled? {
      ThrottledDetached(cfg, Put(k1, id, b), id);
      LoadAgrees(cfg, Put(k1, id, b), id, Ready);
    }
  }

  function Expired(k: Kernel): set<Id> {
    set x | x in Ids(k.repl) && Left(k.repl, x) == 0
  }

  /** One iteration of the replenishment loop. */
  lemma ReplenishStep(cfg: Config, from: Kernel, k: Kernel, done: set<Id>)
    requires Between(cfg, Replenishing, from, k, done) && Expired(k) !! done && k.repl != [] && k.repl[0].delta == 0
    ensures var id := k.repl[0].id;
      && id in Expired(k) && id in k.tcbs && LagOk(k.tcbs[id]) && OnChain(cfg, k.tcbs[id])
      && var r := ReplenishFront(cfg, k);
      && Between(cfg, Replenishing, from, r, done + {id}) && Expired(r) == Expired(k) - {id}
  {
    hide Agree, ReplenishFront, Left, Ids, Replenished, LagOk;
    var id := k.repl[0].id;
    FrontKnown(cfg, k);
    if cfg.algorithm.Bcs? { FrontBcs(cfg, k); } else { FrontDs(cfg, k); }
    var r := ReplenishFront(cfg, k);
    ChainKnown(cfg, k);
    ChainKnown(cfg, r);
    assert id in Expired(k);
    BetweenStep(cfg, Replenishing, from, k, r, done, id);
    assert TaskAt(r, id).cool == if cfg.algorithm.Bcs? then 0 else TaskAt(k, id).period by {
      ReplenishedCool(cfg, TaskAt(k, id));
    }
    assert forall x :: x in Ids(r.repl) && x != id ==> (Left(r.repl, x) == 0 <==> Left(k.repl, x) == 0);
  }

  lemma ReplenishedCool(cfg: Config, t: Task)
    ensures Replenished(cfg, t).cool == if cfg.algorithm.Bcs? then 0 else t.period
  {
  }

  lemma ChainKnown(cfg: Config, k: Kernel)
    requires Agree(cfg, k)
    ensures forall x :: x in Ids(k.repl) ==>
      x in k.tcbs && Left(k.repl, x) == TaskAt(k, x).cool && OnChain(cfg, k.tcbs[x])
  {
    hide Distinct, Stamped, Left;
    forall x | x in Ids(k.repl) ensures x in k.tcbs && OnChain(cfg, k.tcbs[x]) {
      assert Home(cfg, k, x);
    }
  }

  /** Between two ticks nothing on the replenishment chain has expired, and everything on it is a thread. */
  ghost predicate ChainPositive(cfg: Config, k: Kernel) {
    forall x :: x in Ids(k.repl) ==> Left(k.repl, x) > 0 && x in k.tcbs && k.tcbs[x].kind.Thread?
  }

  /** When the loop ends, every task has been through `Replenish`. */
  lemma ReplenishAll(cfg: Config, k0: Kernel, from: Kernel, k: Kernel, done: set<Id>)
    requires Agree(cfg, k0) && ChainPositive(cfg, k0)
    requires Ids(from.repl) == Ids(k0.repl) && from.tcbs == k0.tcbs && from.sleepers == k0.sleepers
    requires forall x :: Left(from.repl, x) == Dec(Left(k0.repl, x))
    requires Between(cfg, Replenishing, from, k, done) && Expired(k) == Expired(from) - done && done <= Expired(from)
    requires k.repl == [] || k.repl[0].delta > 0
    ensures forall id :: id in k.tcbs ==> TaskAt(k, id) == Replenish(cfg, TaskAt(k0, id))
  {
    assert Expired(k) == {} by {
      AgreeDistinct(cfg, k);
      PopExpiredLeft(k.repl);
    }
    ChainKnown(cfg, k0);
    hide Agree, Left, Ids, Linked;
    forall id | id in k.tcbs ensures TaskAt(k, id) == Replenish(cfg, TaskAt(k0, id)) {
      assert k0.tcbs[id].period >= 0;
      OffChain(cfg, k0, id);
      ReplenishIs(cfg, TaskAt(k0, id));
    }
  }

  lemma AgreeDistinct(cfg: Config, k: Kernel)
    requires Agree(cfg, k)
    ensures Distinct(k.repl) && Distinct(k.sleepers)
  {
  }

  lemma OffChain(cfg: Config, k: Kernel, id: Id)
    requires Agree(cfg, k) && id in k.tcbs
    ensures id in Ids(k.repl) <==> OnChain(cfg, k.tcbs[id])
    ensures id !in Ids(k.repl) ==> Left(k.repl, id) == 0
  {
    hide Distinct, Stamped;
    assert Home(cfg, k, id);
  }

  lemma ReplenishIs(cfg: Config, t: Task)
    requires t.kind.Thread? || t.cool == 0
    requires cfg.algorithm.Bcs? ==> (t.state.Throttled? <==> t.cool > 0)
    requires cfg.algorithm.Ds? ==> (t.kind.Thread? && t.period > 0 <==> t.cool > 0)
    ensures Replenish(cfg, t) == if t.cool == 1 then Replenished(cfg, t.(cool := 0)) else t.(cool := Dec(t.cool))
  {
    hide Push;
  }

  // ------------------------------------------------------------------------
  // Deferred ticks.

  /** `kTickThrottleTimeLeft` */
  function ThrottleTimeLeft(repl: seq<Node<Id>>, epoch: nat, id: Id): nat { TimeUntil(Stamp(repl, id), epoch) }

  /** Under DS the time left on the chain decides whether running out of budget throttles. */
  predicate MustThrottle(cfg: Config, k: Kernel, id: Id)
    requires id in k.tcbs
  {
    k.tcbs[id].period > 0 && (cfg.algorithm.Ds? ==> ThrottleTimeLeft(k.repl, k.replEpoch, id) > 1)
  }

  lemma MustThrottleOk(cfg: Config, k: Kernel, id: Id)
    requires Linked(k) && id in k.tcbs && k.tcbs[id].kind.Thread?
    requires cfg.algorithm.Ds? && k.tcbs[id].period > 0 ==> id in Ids(k.repl)
    ensures MustThrottle(cfg, k, id) == ShouldThrottle(cfg, TaskAt(k, id))
  {
    if cfg.algorithm.Ds? && k.tcbs[id].period > 0 {
      TimeUntilIsLeft(k.repl, k.replEpoch, id);
    }
  }

  /** `kTickTaskRunCallbacks`, on the record as it is at that moment; under DS the callback asks for the time left. */
  function Called(cfg: Config, k: Kernel, id: Id, b: Tcb): Tcb {
    var left := if cfg.algorithm.Ds? && b.period > 0 then ThrottleTimeLeft(k.repl, k.replEpoch, id) else 0;
    b.(link := Callback(cfg, Lift(b, left, 0)).link)
  }

  lemma CalledIs(cfg: Config, k: Kernel, id: Id, b: Tcb)
    requires Linked(k) && (cfg.algorithm.Ds? && b.kind.Thread? && b.period > 0 ==> id in Ids(k.repl))
    ensures Called(cfg, k, id, b) == b.(link := Callback(cfg, Lift(b, Left(k.repl, id), Left(k.sleepers, id))).link)
  {
    hide Left, Stamp, TimeUntil, Ids, Distinct;
    if cfg.algorithm.Ds? && b.kind.Thread? && b.period > 0 {
      TimeUntilIsLeft(k.repl, k.replEpoch, id);
    }
  }

  /** The deferred tick of a thread: the charge, the callbacks, and where the thread goes. */
  function ThreadFront(cfg: Config, k: Kernel, id: Id): Kernel
    requires id in k.tcbs && !k.tcbs[id].lag
  {
    var b := k.tcbs[id];
    var spent := Spent(b);
    var next := if b.state.DefPending? then Pending else Ready;
    if b.state.DefSleep? then Load(cfg, Put(k, id, Called(cfg, k, id, spent)), id, Sleep)
    else if spent.current > 0 then Load(cfg, Put(k, id, Called(cfg, k, id, spent)), id, next)
    else if MustThrottle(cfg, k, id) then
      var r := if b.state.DefPending? then k.(slot := None) else k;
      Load(cfg, Put(r, id, Called(cfg, r, id, spent)), id, Throttled)
    else
      Load(cfg, Put(k, id, Called(cfg, k, id, spent.(current := b.budget))), id, next)
  }

  /** One deferred tick, taken off the stack. */
  function DeferredFront(cfg: Config, k: Kernel): Kernel
    requires k.deferred != [] && k.deferred[0] in k.tcbs && !k.tcbs[k.deferred[0]].lag
  {
    var id := k.deferred[0];
    var r := k.(deferred := k.deferred[1..]);
    var b := k.tcbs[id];
    if b.kind.Idle? then Load(cfg, Put(r, id, Called(cfg, r, id, b)), id, Pending) else ThreadFront(cfg, r, id)
  }

  /** A task taken out of `from` is called back with a new budget and put in its next container. */
  lemma CallAndLoad(cfg: Config, from: Kernel, k: Kernel, id: Id, b: Tcb, next: State)
    requires Detached(cfg, k, id) && b == k.tcbs[id].(current := b.current) && !b.lag
    requires MayLoad(cfg, k, id, next)
    requires k.tcbs == from.tcbs && k.repl == from.repl && k.sleepers == from.sleepers
    ensures var c := Called(cfg, k, id, b);
      var r := Load(cfg, Put(k, id, c), id, next);
      && Agree(cfg, r) && OthersSame(from, r, id) && TaskAt(r, id) == LoadedTask(cfg, TaskAt(from, id), b.current, next)
      && (!Deferred(next) ==> r.deferred == k.deferred)
      && (!next.Running? ==> r.running == k.running) && (!next.LsrPending? ==> r.lsrs == k.lsrs)
      && (cfg.algorithm.Ds? ==> r.repl == k.repl)
      && r.slot == (if next.Pending? || next.DefPending? then Some(id) else k.slot)
      && id in r.tcbs && r.tcbs[id].state == next
  {
    var c := Called(cfg, k, id, b);
    DetachedCalled(cfg, k, id, b);
    hide Agree, Detached, Called, Callback, Left, Ids;
    DetachedPut(cfg, k, id, c);
    LoadAgrees(cfg, Put(k, id, c), id, next);
  }

  lemma DetachedCalled(cfg: Config, k: Kernel, id: Id, b: Tcb)
    requires Detached(cfg, k, id) && b == k.tcbs[id].(current := b.current)
    ensures Called(cfg, k, id, b) == b.(link := Callback(cfg, Lift(b, Left(k.repl, id), Left(k.sleepers, id))).link)
  {
    hide Linked, Left, Ids, Called, Home;
    CalledIs(cfg, k, id, b);
  }

  /** The task a callback and `Load` make of `t`, when its budget has become `current`. */
  function LoadedTask(cfg: Config, t: Task, current: nat, next: State): Task {
    var t := Callback(cfg, t.(current := current));
    if next.Throttled? && cfg.algorithm.Bcs? then t.(state := Throttled, cool := t.period)
    else if next.Sleep? then t.(state := Sleep, nap := t.sleepTicks)
    else if next.Ready? then Push(cfg, t.(state := Ready))
    else t.(state := next)
  }

  /** `ChargeDeferred` in the same terms. */
  lemma ChargeIsLoaded(cfg: Config, t: Task)
    requires Deferred(t.state) && !t.kind.Lsr?
    ensures var left := if t.state.DefThrottle? then 0 else Pred(t.current);
      var next := if t.state.DefPending? then Pending else Ready;
      ChargeDeferred(cfg, t) ==
        if t.kind.Idle? then LoadedTask(cfg, t, t.current, Pending)
        else if t.state.DefSleep? then LoadedTask(cfg, t, left, Sleep)
        else if left > 0 then LoadedTask(cfg, t, left, next)
        else if ShouldThrottle(cfg, t) then LoadedTask(cfg, t, 0, Throttled)
        else LoadedTask(cfg, t, t.budget, next)
  {
    hide Callback, Push;
  }

  lemma TopKnown(cfg: Config, k: Kernel)
    requires Agree(cfg, k) && k.deferred != []
    ensures var id := k.deferred[0];
      && id in k.tcbs && Deferred(k.tcbs[id].state) && !k.tcbs[id].lag && k.running != Some(id)
      && (k.tcbs[id].state.DefPending? <==> k.slot == Some(id))
      && (cfg.algorithm.Ds? && k.tcbs[id].kind.Thread? && k.tcbs[id].period > 0 ==> id in Ids(k.repl))
  {
    hide Distinct, Stamped;
    assert Home(cfg, k, k.deferred[0]);
  }

  lemma DetachedNoSlot(cfg: Config, k: Kernel, id: Id)
    requires Detached(cfg, k, id) && k.slot == Some(id)
    ensures Detached(cfg, k.(slot := None), id)
    ensures forall x :: x in k.tcbs ==> TaskAt(k.(slot := None), x) == TaskAt(k, x)
  {
    hide Distinct, Stamped, Ids, NoDup;
    forall x | x in k.tcbs && x != id ensures Home(cfg, k.(slot := None), x) {
      assert Home(cfg, k, x);
    }
  }

  /** One deferred tick is `ChargeDeferred` of its task. */
  ghost predicate FrontCharged(cfg: Config, k: Kernel)
    requires k.deferred != [] && k.deferred[0] in k.tcbs && !k.tcbs[k.deferred[0]].lag
  {
    var id, r := k.deferred[0], DeferredFront(cfg, k);
    && Agree(cfg, r) && OthersSame(k, r, id) && TaskAt(r, id) == ChargeDeferred(cfg, TaskAt(k, id))
    && r.deferred == k.deferred[1..] && FrontFrame(cfg, k, r, id)
  }

  /** The pending slot is given up exactly by a pending task that does not stay pending. */
  predicate FrontFrame(cfg: Config, k: Kernel, r: Kernel, id: Id) {
    && r.running == k.running && r.lsrs == k.lsrs
    && (cfg.algorithm.Ds? ==> r.repl == k.repl)
    && r.slot == if k.slot == Some(id) && id in r.tcbs && !r.tcbs[id].state.Pending? then None else k.slot
  }

  /** The task whose tick was deferred last is a thread, or the idle task preempted by an LSR. */
  predicate TopIsTask(k: Kernel) {
    k.deferred != [] ==>
      var id := k.deferred[0];
      && id in k.tcbs && !k.tcbs[id].kind.Lsr? && (k.tcbs[id].kind.Idle? ==> k.tcbs[id].state.DefPending?)
      && (k.tcbs[id].kind.Thread? ==> 0 < k.tcbs[id].current)
  }

  function Spent(b: Tcb): Tcb {
    b.(current := if b.state.DefThrottle? then 0 else Pred(b.current))
  }

  lemma ChargeIdle(cfg: Config, k: Kernel)
    requires Agree(cfg, k) && k.deferred != [] && TopIsTask(k) && k.tcbs[k.deferred[0]].kind.Idle?
    ensures !k.tcbs[k.deferred[0]].lag && FrontCharged(cfg, k)
  {
    TopKnown(cfg, k);
    DetachDeferred(cfg, k);
    var id := k.deferred[0];
    var r := k.(deferred := k.deferred[1..]);
    ChargeIsLoaded(cfg, TaskAt(k, id));
    hide Agree, Detached, Called, LoadedTask, ChargeDeferred, Left, Ids, Linked, Load, OthersSame;
    CallAndLoad(cfg, k, r, id, k.tcbs[id], Pending);
  }

  lemma ChargeKept(cfg: Config, k: Kernel)
    requires Agree(cfg, k) && k.deferred != [] && TopIsTask(k) && !k.tcbs[k.deferred[0]].kind.Idle?
    requires k.tcbs[k.deferred[0]].state.DefSleep? || Spent(k.tcbs[k.deferred[0]]).current > 0
    ensures !k.tcbs[k.deferred[0]].lag && FrontCharged(cfg, k)
  {
    TopKnown(cfg, k);
    DetachDeferred(cfg, k);
    var id := k.deferred[0];
    var b := k.tcbs[id];
    var r := k.(deferred := k.deferred[1..]);
    ChargeIsLoaded(cfg, TaskAt(k, id));
    hide Agree, Detached, Called, LoadedTask, ChargeDeferred, Left, Ids, Linked, Load, OthersSame;
    hide ShouldThrottle, MustThrottle;
    if b.state.DefSleep? {
      CallAndLoad(cfg, k, r, id, Spent(b), Sleep);
    } else {
      CallAndLoad(cfg, k, r, id, Spent(b), if b.state.DefPending? then Pending else Ready);
    }
  }

  lemma ChargeOut(cfg: Config, k: Kernel)
    requires Agree(cfg, k) && k.deferred != [] && TopIsTask(k) && !k.tcbs[k.deferred[0]].kind.Idle?
    requires !k.tcbs[k.deferred[0]].state.DefSleep? && Spent(k.tcbs[k.deferred[0]]).current == 0
    ensures !k.tcbs[k.deferred[0]].lag && FrontCharged(cfg, k)
  {
    TopKnown(cfg, k);
    DetachDeferred(cfg, k);
    var id := k.deferred[0];
    var b := k.tcbs[id];
    var r := k.(deferred := k.deferred[1..]);
    MustThrottleOk(cfg, r, id);
    ChargeIsLoaded(cfg, TaskAt(k, id));
    hide Agree, Detached, Called, LoadedTask, ChargeDeferred, Left, Ids, Linked, Load, OthersSame;
    hide ShouldThrottle, MustThrottle;
    if !MustThrottle(cfg, r, id) {
      CallAndLoad(cfg, k, r, id, Spent(b).(current := b.budget), if b.state.DefPending? then Pending else Ready);
    } else if b.state.DefPending? {
      DetachedNoSlot(cfg, r, id);
      CallAndLoad(cfg, k, r.(slot := None), id, Spent(b), Throttled);
    } else {
      CallAndLoad(cfg, k, r, id, Spent(b), Throttled);
    }
  }

  lemma DeferredFrontOk(cfg: Config, k: Kernel)
    requires Agree(cfg, k) && k.deferred != [] && TopIsTask(k)
    ensures !k.tcbs[k.deferred[0]].lag && FrontCharged(cfg, k)
  {
    hide Agree, FrontCharged;
    var b := k.tcbs[k.deferred[0]];
    if b.kind.Idle? {
      ChargeIdle(cfg, k);
    } else if b.state.DefSleep? || Spent(b).current > 0 {
      ChargeKept(cfg, k);
    } else {
      ChargeOut(cfg, k);
    }
  }

  /** One iteration of the loop over the deferred ticks. */
  lemma ChargeStep(cfg: Config, from: Kernel, k: Kernel, done: set<Id>)
    requires Between(cfg, Charging, from, k, done) && k.deferred != [] && TopIsTask(k) && k.deferred[0] !in done
    ensures !k.tcbs[k.deferred[0]].lag
    ensures Between(cfg, Charging, from, DeferredFront(cfg, k), done + {k.deferred[0]})
    ensures FrontFrame(cfg, k, DeferredFront(cfg, k), k.deferred[0])
    ensures DeferredFront(cfg, k).deferred == k.deferred[1..]
  {
    DeferredFrontOk(cfg, k);
    hide Agree, DeferredFront, FrontFrame, ChargeDeferred;
    BetweenStep(cfg, Charging, from, k, DeferredFront(cfg, k), done, k.deferred[0]);
  }

  // ------------------------------------------------------------------------
  // Sleep.

  /** A sleeper at the front of its chain whose time is up. */
  function WakeFront(cfg: Config, k: Kernel): Kernel
    requires k.sleepers != [] && k.sleepers[0].id in k.tcbs && WakeOk(k.tcbs[k.sleepers[0].id])
  {
    var id := k.sleepers[0].id;
    var b := WakeTcb(cfg, k.tcbs[id]);
    Load(cfg, Put(k.(sleepers := k.sleepers[1..]), id, b), id, if b.current == 0 then Throttled else Ready)
  }

  predicate WakeOk(b: Tcb) { !b.lag && 0 < b.sleepTicks }

  function WakeTcb(cfg: Config, b: Tcb): (r: Tcb)
    requires WakeOk(b)
    ensures LagOk(r)
  {
    if b.current > 0 then b
    else match cfg.algorithm
      case Bcs => if b.period >= b.sleepTicks then b.(lag := true) else b.(current := b.budget)
      case Ds => if b.period == 0 then b.(current := b.budget) else b
  }

  lemma SleeperKnown(cfg: Config, k: Kernel)
    requires Agree(cfg, k) && k.sleepers != []
    ensures var id := k.sleepers[0].id;
      && id in Ids(k.sleepers) && id in k.tcbs && k.tcbs[id].state.Sleep? && !k.tcbs[id].lag
      && k.running != Some(id) && k.slot != Some(id)
  {
    hide Distinct, Stamped;
    assert k.sleepers[0] in k.sleepers;
    assert Home(cfg, k, k.sleepers[0].id);
  }

  /** Waking is `Wake` of its task. */
  lemma WakeFrontOk(cfg: Config, k: Kernel)
    requires Agree(cfg, k) && k.sleepers != [] && k.sleepers[0].delta == 0
    requires k.sleepers[0].id in k.tcbs && WakeOk(k.tcbs[k.sleepers[0].id]) && 0 < k.tcbs[k.sleepers[0].id].budget
    ensures var id, r := k.sleepers[0].id, WakeFront(cfg, k);
      && Agree(cfg, r) && OthersSame(k, r, id) && TaskAt(r, id) == Wake(cfg, TaskAt(k, id))
      && r.sleepers == k.sleepers[1..] && r.running == k.running && r.lsrs == k.lsrs && r.slot == k.slot
  {
    hide Agree, Detached, Left, Ids, Push, Distinct, Stamped, Insert;
    SleeperKnown(cfg, k);
    DetachSleeper(cfg, k);
    var id := k.sleepers[0].id;
    var b := WakeTcb(cfg, k.tcbs[id]);
    var k1 := k.(sleepers := k.sleepers[1..]);
    DetachedPut(cfg, k1, id, b);
    LoadAgrees(cfg, Put(k1, id, b), id, if b.current == 0 then Throttled else Ready);
  }

  function Awake(k: Kernel): set<Id> {
    set x | x in Ids(k.sleepers) && Left(k.sleepers, x) == 0
  }

  /** One iteration of the loop over the sleepers. */
  lemma WakeStep(cfg: Config, from: Kernel, k: Kernel, done: set<Id>)
    requires Between(cfg, Waking, from, k, done) && Awake(k) !! done && k.sleepers != [] && k.sleepers[0].delta == 0
    requires forall id :: id in from.tcbs && from.tcbs[id].state.Sleep? ==>
      0 < from.tcbs[id].sleepTicks && 0 < from.tcbs[id].budget
    ensures var id := k.sleepers[0].id;
      && id in Awake(k) && id in k.tcbs && WakeOk(k.tcbs[id]) && k.tcbs[id].state.Sleep?
      && var r := WakeFront(cfg, k);
      && Between(cfg, Waking, from, r, done + {id}) && Awake(r) == Awake(k) - {id}
      && r.running == k.running && r.lsrs == k.lsrs && r.slot == k.slot
  {
    var id := k.sleepers[0].id;
    SleeperKnown(cfg, k);
    PopExpiredLeft(k.sleepers);
    assert id in Awake(k);
    assert TaskAt(k, id) == TaskAt(from, id);
    WakeFrontOk(cfg, k);
    hide Agree, WakeFront, Wake, TaskAt;
    BetweenStep(cfg, Waking, from, k, WakeFront(cfg, k), done, id);
  }

  /** When the loop ends, every task has been through `SleepPhase`. */
  lemma WakeAll(cfg: Config, k0: Kernel, from: Kernel, k: Kernel, done: set<Id>)
    requires Agree(cfg, k0) && from == k0.(sleepers := from.sleepers, sleepEpoch := from.sleepEpoch)
    requires Ids(from.sleepers) == Ids(k0.sleepers)
    requires forall x :: x in k0.tcbs ==> TaskAt(from, x) == TaskAt(k0, x).(nap := Dec(TaskAt(k0, x).nap))
    requires Between(cfg, Waking, from, k, done) && Awake(k) == Awake(from) - done && done <= Awake(from)
    requires k.sleepers == [] || k.sleepers[0].delta > 0
    ensures forall id :: id in k.tcbs ==> TaskAt(k, id) == SleepPhase(cfg, TaskAt(k0, id))
  {
    assert Awake(k) == {} by {
      AgreeDistinct(cfg, k);
      PopExpiredLeft(k.sleepers);
    }
    forall id | id in k.tcbs ensures TaskAt(k, id) == SleepPhase(cfg, TaskAt(k0, id)) {
      hide Agree, Linked, Wake, Left, Ids;
      OffSleepers(cfg, k0, id);
      assert id in done <==> id in Ids(from.sleepers) && TaskAt(from, id).nap == 0;
    }
  }

  lemma OffSleepers(cfg: Config, k: Kernel, id: Id)
    requires Agree(cfg, k) && id in k.tcbs
    ensures id in Ids(k.sleepers) <==> k.tcbs[id].state.Sleep?
    ensures id !in Ids(k.sleepers) ==> Left(k.sleepers, id) == 0
  {
    hide Distinct, Stamped;
    assert Home(cfg, k, id);
  }

  /** Only threads with budget left and a preempted idle task have deferred ticks. */
  ghost predicate DeferredAreTasks(k: Kernel) {
    forall id :: id in k.tcbs && Deferred(k.tcbs[id].state) ==>
      && !k.tcbs[id].kind.Lsr? && (k.tcbs[id].kind.Idle? ==> k.tcbs[id].state.DefPending?)
      && (k.tcbs[id].kind.Thread? ==> 0 < k.tcbs[id].current)
  }

  /** The pending slot while the deferred ticks in `done` have been taken. */
  function SlotAfter(from: Kernel, k: Kernel, done: set<Id>): Option<Id> {
    if from.slot.Some? && from.slot.value in done && from.slot.value in k.tcbs
       && !k.tcbs[from.slot.value].state.Pending?
    then None else from.slot
  }

  /** The loop over the deferred ticks: the first `n` of them have been taken. */
  ghost predicate Drained(cfg: Config, from: Kernel, k: Kernel, n: nat) {
    && n <= |from.deferred| && k.deferred == from.deferred[n..]
    && Between(cfg, Charging, from, k, Taken(from, n))
    && k.running == from.running && k.lsrs == from.lsrs && k.slot == SlotAfter(from, k, Taken(from, n))
    && (cfg.algorithm.Ds? ==> k.repl == from.repl)
  }

  function Taken(from: Kernel, n: nat): set<Id>
    requires n <= |from.deferred|
  {
    set x | x in from.deferred[..n]
  }

  lemma DrainTop(cfg: Config, from: Kernel, k: Kernel, n: nat)
    requires Agree(cfg, from) && DeferredAreTasks(from) && Drained(cfg, from, k, n) && k.deferred != []
    ensures var id := k.deferred[0];
      && TopIsTask(k) && Deferred(k.tcbs[id].state) && id !in Taken(from, n)
      && n + 1 <= |from.deferred| && Taken(from, n + 1) == Taken(from, n) + {id}
      && k.deferred[1..] == from.deferred[n + 1..]
      && (k.slot == Some(id) <==> from.slot == Some(id))
  {
    var id := k.deferred[0];
    hide Distinct, Stamped, Ids, Left, ChargeDeferred;
    assert id == from.deferred[n] && from.deferred[..n + 1] == from.deferred[..n] + [id];
    assert id !in from.deferred[..n] by { assert NoDup(from.deferred); }
    TopOf(cfg, from, n);
    assert TaskAt(k, id) == TaskAt(from, id);
  }

  lemma DrainStep(cfg: Config, from: Kernel, k: Kernel, n: nat)
    requires Agree(cfg, from) && DeferredAreTasks(from) && Drained(cfg, from, k, n) && k.deferred != []
    ensures TopIsTask(k) && !k.tcbs[k.deferred[0]].lag && Deferred(k.tcbs[k.deferred[0]].state)
    ensures Drained(cfg, from, DeferredFront(cfg, k), n + 1)
  {
    DrainTop(cfg, from, k, n);
    var id := k.deferred[0];
    ChargeStep(cfg, from, k, Taken(from, n));
    var r := DeferredFront(cfg, k);
    hide Agree, DeferredFront, ChargeDeferred, Left, Ids, Taken, RunPhase;
    assert r.slot == SlotAfter(from, r, Taken(from, n + 1)) by {
      assert from.slot.Some? && from.slot.value != id ==>
        (from.slot.value in r.tcbs ==> TaskAt(r, from.slot.value) == TaskAt(k, from.slot.value));
    }
  }

  lemma TopOf(cfg: Config, k: Kernel, n: nat)
    requires Agree(cfg, k) && n < |k.deferred|
    ensures k.deferred[n] in k.tcbs && Deferred(k.tcbs[k.deferred[n]].state)
  {
    hide Distinct, Stamped, Ids;
    assert k.deferred[n] in k.deferred;
    assert Home(cfg, k, k.deferred[n]);
  }

  /** When the loop ends, every task has been through `ChargeDeferred`. */
  lemma DrainAll(cfg: Config, from: Kernel, k: Kernel)
    requires Agree(cfg, from) && Drained(cfg, from, k, |from.deferred|)
    ensures forall id :: id in k.tcbs ==> TaskAt(k, id) == ChargeDeferred(cfg, TaskAt(from, id))
    ensures k.slot == if from.slot.Some? && from.slot.value in k.tcbs && from.tcbs[from.slot.value].state.DefPending?
                         && !k.tcbs[from.slot.value].state.Pending? then None else from.slot
  {
    forall id | id in k.tcbs
      ensures id in Taken(from, |from.deferred|) <==> Deferred(from.tcbs[id].state)
      ensures TaskAt(k, id) == ChargeDeferred(cfg, TaskAt(from, id))
    {
      hide Distinct, Stamped, Ids, Callback;
      assert Home(cfg, from, id);
      assert from.deferred[..|from.deferred|] == from.deferred;
    }
    if from.slot.Some? {
      hide Distinct, Stamped, Ids;
      assert from.slot.value in k.tcbs;
      assert Home(cfg, from, from.slot.value);
    }
  }

  /** The running task takes the tick where it is. */
  lemma ChargeRunningAgrees(cfg: Config, k: Kernel, id: Id)
    requires Agree(cfg, k) && k.running == Some(id)
    ensures id in k.tcbs && k.tcbs[id].state.Running?
    ensures MustThrottle(cfg, k, id) == ShouldThrottle(cfg, TaskAt(k, id)) || !k.tcbs[id].kind.Thread?
    ensures var b := k.tcbs[id];
      var left := Pred(b.current);
      var kept := if left == 0 && !MustThrottle(cfg, k, id) then b.budget else left;
      var spent := if b.kind.Thread? then b.(current := kept) else b;
      var r := Put(k, id, Called(cfg, k, id, spent));
      Agree(cfg, r) && forall x :: x in k.tcbs ==> TaskAt(r, x) == ChargeRunning(cfg, TaskAt(k, x))
  {
    assert Home(cfg, k, id) by { AgreeRunning(cfg, k); }
    assert forall x :: x in k.tcbs && x != id ==> !k.tcbs[x].state.Running? by { AgreeRunning(cfg, k); }
    if k.tcbs[id].kind.Thread? {
      MustThrottleOk(cfg, k, id);
    }
    var b := k.tcbs[id];
    var left := Pred(b.current);
    var kept := if left == 0 && !MustThrottle(cfg, k, id) then b.budget else left;
    var spent := if b.kind.Thread? then b.(current := kept) else b;
    CalledIs(cfg, k, id, spent);
    hide Agree, Left, Ids, Stamp, TimeUntil, MustThrottle, ShouldThrottle, Callback, Called;
    AgreePut(cfg, k, id, Called(cfg, k, id, spent));
  }

  lemma AgreeRunning(cfg: Config, k: Kernel)
    requires Agree(cfg, k) && k.running.Some?
    ensures k.running.value in k.tcbs && Home(cfg, k, k.running.value) && Linked(k)
    ensures forall x :: x in k.tcbs ==> (k.tcbs[x].state.Running? <==> k.running == Some(x))
  {
    hide Distinct, Stamped, Ids, NoDup;
    forall x | x in k.tcbs ensures k.tcbs[x].state.Running? <==> k.running == Some(x) {
      assert Home(cfg, k, x);
    }
  }
}
