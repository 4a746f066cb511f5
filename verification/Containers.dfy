/**
 Where tasks are kept (the fields of `kTickMachine_t`, the policy's ready threads, the vectors' dormant LSRs), and the
 agreement between the state of a task and the container it sits in. `Load` is `kTickTaskLoadNextState`
 (src/workhorse/kTick/kTick.c:121-287).
 */
module Containers {
  import opened Tasks
  import opened DeltaSeq
  import opened TickSpec

  /** A task control block. Time left on a chain is not stored here but in the chain. */
  datatype Tcb = Tcb(
    kind: Kind,
    state: State,
    budget: nat,
    period: nat,
    current: nat,
    sleepTicks: nat,
    prio: nat,
    allot: nat,
    link: nat,
    lag: bool)

  datatype Kernel = Kernel(
    tcbs: map<Id, Tcb>,
    running: Option<Id>,
    repl: seq<Node<Id>>,
    replEpoch: nat,
    sleepers: seq<Node<Id>>,
    sleepEpoch: nat,
    deferred: seq<Id>,
    lsrs: seq<Id>,
    slot: Option<Id>,
    ready: set<Id>,
    dormant: set<Id>)

  function Lift(b: Tcb, cool: nat, nap: nat): Task {
    Task(b.kind, b.state, b.budget, b.period, b.current, b.sleepTicks, cool, nap, b.prio, b.allot, b.link)
  }

  function TaskAt(k: Kernel, id: Id): Task
    requires id in k.tcbs
  {
    Lift(k.tcbs[id], Left(k.repl, id), Left(k.sleepers, id))
  }

  /** The machine of TickSpec that the containers stand for. */
  function Abstract(k: Kernel, idle: Id): (m: Machine) {
    Machine(map id | id in k.tcbs :: TaskAt(k, id), idle, k.running, k.slot, k.lsrs)
  }

  predicate NoDup<T(==)>(s: seq<T>) {
    forall i, j :: 0 <= i < j < |s| ==> s[i] != s[j]
  }

  /** On the replenishment chain: while throttled under BCS, always under DS. */
  predicate OnChain(cfg: Config, b: Tcb) {
    match cfg.algorithm
    case Bcs => b.state.Throttled?
    case Ds => b.kind.Thread? && b.period > 0
  }

  /** Task `id` sits in exactly the containers its state names. */
  ghost predicate Home(cfg: Config, k: Kernel, id: Id)
    requires id in k.tcbs
  {
    var b := k.tcbs[id];
    && (id in k.ready <==> b.kind.Thread? && b.state.Ready?)
    && (id in Ids(k.repl) <==> OnChain(cfg, b))
    && (id in Ids(k.sleepers) <==> b.state.Sleep?)
    && (id in k.deferred <==> Deferred(b.state))
    && (id in k.lsrs <==> b.state.LsrPending?)
    && (id in k.dormant <==> b.state.LsrDormant?)
    && (k.slot == Some(id) <==> b.state.DefPending? || b.state.Pending?)
    && (k.running == Some(id) <==> b.state.Running?)
    && !b.lag && b.period < WRAP && b.sleepTicks < WRAP
  }

  /** The containers themselves are sound: nothing is linked twice, nothing unknown is linked. */
  ghost predicate Linked(k: Kernel) {
    && Distinct(k.repl) && Distinct(k.sleepers) && NoDup(k.deferred) && NoDup(k.lsrs)
    && Stamped(k.repl, k.replEpoch) && k.replEpoch < WRAP
    && Ids(k.repl) <= k.tcbs.Keys && Ids(k.sleepers) <= k.tcbs.Keys
    && k.ready <= k.tcbs.Keys && k.dormant <= k.tcbs.Keys
    && (forall id :: id in k.deferred ==> id in k.tcbs)
    && (forall id :: id in k.lsrs ==> id in k.tcbs)
    && (k.running.Some? ==> k.running.value in k.tcbs)
    && (k.slot.Some? ==> k.slot.value in k.tcbs)
  }

  /** A pending task that still has to take the next tick is the last one whose tick was deferred. */
  predicate SlotOnTop(k: Kernel) {
    k.slot.Some? && k.slot.value in k.tcbs && k.tcbs[k.slot.value].state.DefPending? ==>
      k.deferred != [] && k.deferred[0] == k.slot.value
  }

  ghost predicate Agree(cfg: Config, k: Kernel) {
    Linked(k) && (forall id :: id in k.tcbs ==> Home(cfg, k, id)) && SlotOnTop(k)
  }

  /** Task `id` has been taken out of its container, everything else is in place. */
  ghost predicate Detached(cfg: Config, k: Kernel, id: Id) {
    && Linked(k) && id in k.tcbs
    && (forall x :: x in k.tcbs && x != id ==> Home(cfg, k, x))
    && id !in k.ready && id !in Ids(k.sleepers) && id !in k.deferred && id !in k.lsrs && id !in k.dormant
    && k.running != Some(id)
    && (match cfg.algorithm
        case Bcs => id !in Ids(k.repl)
        case Ds => id in Ids(k.repl) <==> OnChain(cfg, k.tcbs[id]))
    && k.tcbs[id].period < WRAP && k.tcbs[id].sleepTicks < WRAP
    && (k.slot != Some(id) ==> SlotOnTop(k))
  }

  // ------------------------------------------------------------------------

  function Entered(cfg: Config, b: Tcb, next: State): Tcb {
    var b := b.(state := next);
    if next.Ready? then b.(link := Push(cfg, Lift(b, 0, 0)).link)
    else if next.Throttled? && cfg.algorithm.Bcs? then b.(lag := false)
    else b
  }

  predicate LagOk(b: Tcb) { b.lag ==> 0 < b.sleepTicks <= b.period }

  /** The cooldown of a thread that runs out of budget; time it has already slept through is taken off. */
  function CoolFor(b: Tcb): nat
    requires LagOk(b)
  {
    if b.lag then b.period - (b.sleepTicks - 1) else b.period
  }

  /** `kTickTaskLoadNextState`: the new state, and the container that goes with it. */
  function Load(cfg: Config, k: Kernel, id: Id, next: State): Kernel
    requires id in k.tcbs && LagOk(k.tcbs[id])
  {
    var b := k.tcbs[id];
    k.(tcbs := k.tcbs[id := Entered(cfg, b, next)],
       running := if next.Running? then Some(id) else k.running,
       repl := if next.Throttled? && cfg.algorithm.Bcs?
               then Insert(k.repl, id, CoolFor(b), (k.replEpoch + CoolFor(b)) % WRAP) else k.repl,
       sleepers := if next.Sleep?
                   then Insert(k.sleepers, id, b.sleepTicks, (k.sleepEpoch + b.sleepTicks) % WRAP) else k.sleepers,
       deferred := if Deferred(next) then [id] + k.deferred else k.deferred,
       slot := if next.DefPending? || next.Pending? then Some(id) else k.slot,
       lsrs := if next.LsrPending? then [id] + k.lsrs else k.lsrs,
       ready := if next.Ready? && b.kind.Thread? then k.ready + {id} else k.ready,
       dormant := if next.LsrDormant? then k.dormant + {id} else k.dormant)
  }

  predicate MayLoad(cfg: Config, k: Kernel, id: Id, next: State)
    requires id in k.tcbs
  {
    var b := k.tcbs[id];
    && LagOk(b) && (b.lag ==> next.Throttled? && cfg.algorithm.Bcs?)
    && (next.Running? ==> k.running.None?)
    && (if next.DefPending? || next.Pending? then k.slot in {None, Some(id)} else k.slot != Some(id))
    && (Deferred(next) ==> k.slot in {None, Some(id)})
  }

  /** The task record after `Load`. */
  function Loaded(cfg: Config, b: Tcb, t: Task, next: State): Task
    requires LagOk(b)
  {
    if next.Throttled? && cfg.algorithm.Bcs? then t.(state := Throttled, cool := CoolFor(b))
    else if next.Sleep? then t.(state := Sleep, nap := t.sleepTicks)
    else if next.Ready? then Push(cfg, t.(state := Ready))
    else t.(state := next)
  }

  lemma LoadOther(cfg: Config, k: Kernel, id: Id, next: State, x: Id)
    requires Detached(cfg, k, id) && MayLoad(cfg, k, id, next) && x in k.tcbs && x != id
    ensures var r := Load(cfg, k, id, next);
      Home(cfg, r, x) && r.tcbs[x] == k.tcbs[x] && TaskAt(r, x) == TaskAt(k, x)
  {
    hide Push, Insert, Left, Stamp, Distinct, Ids, Stamped, NoDup;
    assert Home(cfg, k, x);
    var b := k.tcbs[id];
    if next.Throttled? && cfg.algorithm.Bcs? {
      InsertLeft(k.repl, id, CoolFor(b), (k.replEpoch + CoolFor(b)) % WRAP);
    }
    if next.Sleep? {
      InsertLeft(k.sleepers, id, b.sleepTicks, (k.sleepEpoch + b.sleepTicks) % WRAP);
    }
  }

  lemma LoadSelf(cfg: Config, k: Kernel, id: Id, next: State)
    requires Detached(cfg, k, id) && MayLoad(cfg, k, id, next)
    ensures var r := Load(cfg, k, id, next);
      Home(cfg, r, id) && TaskAt(r, id) == Loaded(cfg, k.tcbs[id], TaskAt(k, id), next)
  {
    hide Insert, Left, Stamp, Distinct, Ids, Stamped, NoDup;
    var b := k.tcbs[id];
    if next.Throttled? && cfg.algorithm.Bcs? {
      InsertLeft(k.repl, id, CoolFor(b), (k.replEpoch + CoolFor(b)) % WRAP);
    }
    if next.Sleep? {
      InsertLeft(k.sleepers, id, b.sleepTicks, (k.sleepEpoch + b.sleepTicks) % WRAP);
    }
  }

  lemma LoadLinked(cfg: Config, k: Kernel, id: Id, next: State)
    requires Detached(cfg, k, id) && MayLoad(cfg, k, id, next)
    ensures Linked(Load(cfg, k, id, next)) && SlotOnTop(Load(cfg, k, id, next))
  {
    hide Home, Push, Insert, Left, Stamp, Distinct, Ids, Stamped;
    var b := k.tcbs[id];
    if next.Throttled? && cfg.algorithm.Bcs? {
      InsertLeft(k.repl, id, CoolFor(b), (k.replEpoch + CoolFor(b)) % WRAP);
      InsertStamped(k.repl, k.replEpoch, id, CoolFor(b));
    }
    if next.Sleep? {
      InsertLeft(k.sleepers, id, b.sleepTicks, (k.sleepEpoch + b.sleepTicks) % WRAP);
    }
  }

  /** A detached task is put in the container of its new state; nothing else moves. */
  lemma LoadAgrees(cfg: Config, k: Kernel, id: Id, next: State)
    requires Detached(cfg, k, id) && MayLoad(cfg, k, id, next)
    ensures var r := Load(cfg, k, id, next);
      && Agree(cfg, r) && r.tcbs.Keys == k.tcbs.Keys
      && TaskAt(r, id) == Loaded(cfg, k.tcbs[id], TaskAt(k, id), next)
      && forall x :: x in k.tcbs && x != id ==> TaskAt(r, x) == TaskAt(k, x)
  {
    hide Home, Linked, SlotOnTop, Loaded, TaskAt, Distinct, Ids, Stamped, NoDup, Insert;
    var r := Load(cfg, k, id, next);
    LoadLinked(cfg, k, id, next);
    LoadSelf(cfg, k, id, next);
    forall x | x in k.tcbs && x != id ensures Home(cfg, r, x) && TaskAt(r, x) == TaskAt(k, x) {
      LoadOther(cfg, k, id, next, x);
    }
  }

  // ------------------------------------------------------------------------
  // Taking a task out of its container.

  /** Everything but the record of `id` is as it was. */
  ghost predicate OthersSame(a: Kernel, b: Kernel, id: Id) {
    && b.tcbs.Keys == a.tcbs.Keys
    && forall x :: x in a.tcbs && x != id ==> TaskAt(b, x) == TaskAt(a, x)
  }

  lemma DetachRunning(cfg: Config, k: Kernel)
    requires Agree(cfg, k) && k.running.Some?
    ensures Detached(cfg, k.(running := None), k.running.value)
  {
    hide Ids, Distinct, Stamped, NoDup;
    assert Home(cfg, k, k.running.value);
    forall x | x in k.tcbs && x != k.running.value ensures Home(cfg, k.(running := None), x) {
      assert Home(cfg, k, x);
    }
  }

  lemma DetachDeferred(cfg: Config, k: Kernel)
    requires Agree(cfg, k) && k.deferred != []
    ensures Detached(cfg, k.(deferred := k.deferred[1..]), k.deferred[0])
  {
    hide Ids, Distinct, Stamped;
    var id, r := k.deferred[0], k.(deferred := k.deferred[1..]);
    assert k.deferred == [id] + r.deferred;
    assert Home(cfg, k, id);
    forall x | x in k.tcbs && x != id ensures Home(cfg, r, x) {
      assert Home(cfg, k, x);
    }
  }

  lemma DetachLsr(cfg: Config, k: Kernel)
    requires Agree(cfg, k) && k.lsrs != []
    ensures Detached(cfg, k.(lsrs := k.lsrs[1..]), k.lsrs[0])
  {
    hide Ids, Distinct, Stamped;
    var id, r := k.lsrs[0], k.(lsrs := k.lsrs[1..]);
    assert k.lsrs == [id] + r.lsrs;
    assert Home(cfg, k, id);
    forall x | x in k.tcbs && x != id ensures Home(cfg, r, x) {
      assert Home(cfg, k, x);
    }
  }

  /** The pending task comes off the slot, and off the deferred ticks if it has not taken the tick yet. */
  lemma DetachSlot(cfg: Config, k: Kernel)
    requires Agree(cfg, k) && k.slot.Some?
    ensures k.tcbs[k.slot.value].state.DefPending? ==> k.deferred != [] && k.deferred[0] == k.slot.value
    ensures Detached(cfg, SlotTaken(k), k.slot.value)
  {
    hide Ids, Distinct, Stamped;
    var id, r := k.slot.value, SlotTaken(k);
    assert Home(cfg, k, id);
    if k.tcbs[id].state.DefPending? {
      assert k.deferred == [id] + r.deferred;
    }
    forall x | x in k.tcbs && x != id ensures Home(cfg, r, x) {
      assert Home(cfg, k, x);
    }
  }

  function SlotTaken(k: Kernel): Kernel {
    k.(slot := None,
       deferred := if SlotDeferred(k) && k.deferred != [] then k.deferred[1..] else k.deferred)
  }

  predicate SlotDeferred(k: Kernel) {
    k.slot.Some? && k.slot.value in k.tcbs && k.tcbs[k.slot.value].state.DefPending?
  }

  lemma DetachReady(cfg: Config, k: Kernel, id: Id)
    requires Agree(cfg, k) && id in k.tcbs && k.tcbs[id].state.Ready?
    ensures Detached(cfg, k.(ready := k.ready - {id}), id)
  {
    hide Ids, Distinct, Stamped, NoDup;
    assert Home(cfg, k, id);
    forall x | x in k.tcbs && x != id ensures Home(cfg, k.(ready := k.ready - {id}), x) {
      assert Home(cfg, k, x);
    }
  }

  lemma DetachDormant(cfg: Config, k: Kernel, id: Id)
    requires Agree(cfg, k) && id in k.tcbs && k.tcbs[id].state.LsrDormant?
    ensures Detached(cfg, k.(dormant := k.dormant - {id}), id)
  {
    hide Ids, Distinct, Stamped, NoDup;
    assert Home(cfg, k, id);
    forall x | x in k.tcbs && x != id ensures Home(cfg, k.(dormant := k.dormant - {id}), x) {
      assert Home(cfg, k, x);
    }
  }

  /** A throttled thread under DS is in no container but the replenishment chain, which it never leaves. */
  lemma ThrottledDetached(cfg: Config, k: Kernel, id: Id)
    requires Agree(cfg, k) && cfg.algorithm.Ds? && id in k.tcbs && k.tcbs[id].state.Throttled?
    ensures Detached(cfg, k, id)
  {
    hide Ids, Distinct, Stamped, NoDup;
    assert Home(cfg, k, id);
  }

  lemma DetachSleeper(cfg: Config, k: Kernel)
    requires Agree(cfg, k) && k.sleepers != [] && k.sleepers[0].delta == 0
    ensures var r, id := k.(sleepers := k.sleepers[1..]), k.sleepers[0].id;
      && Detached(cfg, r, id) && Left(k.sleepers, id) == 0 && Ids(r.sleepers) == Ids(k.sleepers) - {id}
      && OthersSame(k, r, id) && TaskAt(r, id) == TaskAt(k, id)
  {
    hide Distinct, Stamped, NoDup, Left, Stamp;
    var r, id := k.(sleepers := k.sleepers[1..]), k.sleepers[0].id;
    PopExpiredLeft(k.sleepers);
    NotIn(r.sleepers, id);
    assert k.sleepers[0] in k.sleepers;
    assert Home(cfg, k, id);
    forall x | x in k.tcbs && x != id ensures Home(cfg, r, x) {
      assert Home(cfg, k, x);
    }
  }

  lemma NotIn(c: seq<Node<Id>>, id: Id)
    requires id !in Ids(c)
    ensures Left(c, id) == 0
  {
  }

  lemma DetachChain(cfg: Config, k: Kernel)
    requires Agree(cfg, k) && cfg.algorithm.Bcs? && k.repl != [] && k.repl[0].delta == 0
    ensures var r, id := k.(repl := k.repl[1..]), k.repl[0].id;
      && Detached(cfg, r, id) && Left(k.repl, id) == 0 && Ids(r.repl) == Ids(k.repl) - {id}
      && OthersSame(k, r, id) && TaskAt(r, id) == TaskAt(k, id)
      && forall x :: x in Ids(r.repl) ==> Left(r.repl, x) == Left(k.repl, x)
  {
    hide Distinct, NoDup, Left, Stamp;
    var r, id := k.(repl := k.repl[1..]), k.repl[0].id;
    PopExpiredLeft(k.repl);
    NotIn(r.repl, id);
    assert k.repl[0] in k.repl;
    assert Home(cfg, k, id);
    forall x | x in k.tcbs && x != id ensures Home(cfg, r, x) {
      assert Home(cfg, k, x);
    }
  }

  /** Under DS an expired node goes back on the chain, a whole period away. */
  lemma Requeue(cfg: Config, k: Kernel, p: nat)
    requires Agree(cfg, k) && cfg.algorithm.Ds? && k.repl != [] && k.repl[0].delta == 0 && p < WRAP
    ensures var id := k.repl[0].id;
      var r := k.(repl := Insert(k.repl[1..], id, p, (k.replEpoch + p) % WRAP));
      && id in k.tcbs && Agree(cfg, r) && Ids(r.repl) == Ids(k.repl) && Left(k.repl, id) == 0
      && OthersSame(k, r, id) && TaskAt(r, id) == TaskAt(k, id).(cool := p)
      && Left(r.repl, id) == p && forall x :: x in Ids(r.repl) && x != id ==> Left(r.repl, x) == Left(k.repl, x)
  {
    hide Distinct, NoDup, Left, Stamp, Insert;
    var id := k.repl[0].id;
    var r := k.(repl := Insert(k.repl[1..], id, p, (k.replEpoch + p) % WRAP));
    PopExpiredLeft(k.repl);
    assert k.repl[0] in k.repl;
    assert Stamped(k.repl[1..], k.replEpoch);
    InsertLeft(k.repl[1..], id, p, (k.replEpoch + p) % WRAP);
    InsertStamped(k.repl[1..], k.replEpoch, id, p);
    assert Ids(r.repl) == Ids(k.repl);
    forall x | x in k.tcbs ensures Home(cfg, r, x) {
      assert Home(cfg, k, x);
    }
  }

  // ------------------------------------------------------------------------
  // Changing a record, and ticking the chains.

  /** A detached task's record may change, as long as its chain and its kind do not. */
  lemma DetachedPut(cfg: Config, k: Kernel, id: Id, b: Tcb)
    requires Detached(cfg, k, id) && b == k.tcbs[id].(current := b.current, link := b.link, lag := b.lag)
    ensures Detached(cfg, k.(tcbs := k.tcbs[id := b]), id)
    ensures OthersSame(k, k.(tcbs := k.tcbs[id := b]), id)
    ensures TaskAt(k.(tcbs := k.tcbs[id := b]), id) == TaskAt(k, id).(current := b.current, link := b.link)
  {
    hide Ids, Distinct, Stamped, NoDup, Left;
    var r := k.(tcbs := k.tcbs[id := b]);
    forall x | x in k.tcbs && x != id ensures Home(cfg, r, x) {
      assert Home(cfg, k, x);
    }
  }

  /** A task in place may have its budget and its policy link changed. */
  lemma AgreePut(cfg: Config, k: Kernel, id: Id, b: Tcb)
    requires Agree(cfg, k) && id in k.tcbs && b == k.tcbs[id].(current := b.current, link := b.link)
    ensures Agree(cfg, k.(tcbs := k.tcbs[id := b]))
    ensures OthersSame(k, k.(tcbs := k.tcbs[id := b]), id)
    ensures TaskAt(k.(tcbs := k.tcbs[id := b]), id) == TaskAt(k, id).(current := b.current, link := b.link)
  {
    hide Ids, Distinct, Stamped, NoDup, Left;
    var r := k.(tcbs := k.tcbs[id := b]);
    forall x | x in k.tcbs ensures Home(cfg, r, x) {
      assert Home(cfg, k, x);
    }
  }

  lemma TickChain(cfg: Config, k: Kernel)
    requires Agree(cfg, k) && forall x :: x in Ids(k.repl) ==> Left(k.repl, x) > 0
    ensures var r := k.(repl := DeltaSeq.Tick(k.repl), replEpoch := (k.replEpoch + 1) % WRAP);
      && Agree(cfg, r) && Ids(r.repl) == Ids(k.repl)
      && (forall x :: Left(r.repl, x) == Dec(Left(k.repl, x)))
      && forall x :: x in k.tcbs ==> TaskAt(r, x) == TaskAt(k, x).(cool := Dec(TaskAt(k, x).cool))
  {
    hide Distinct, Stamped, NoDup, Left, Stamp, DeltaSeq.Tick, Ids;
    var r := k.(repl := DeltaSeq.Tick(k.repl), replEpoch := (k.replEpoch + 1) % WRAP);
    TickLeft(k.repl);
    TickStamped(k.repl, k.replEpoch);
    forall x | x in k.tcbs ensures Home(cfg, r, x) {
      assert Home(cfg, k, x);
    }
  }

  lemma TickSleepers(cfg: Config, k: Kernel)
    requires Agree(cfg, k)
    ensures var r := k.(sleepers := DeltaSeq.Tick(k.sleepers), sleepEpoch := (k.sleepEpoch + 1) % WRAP);
      && Agree(cfg, r) && Ids(r.sleepers) == Ids(k.sleepers)
      && (forall x :: Left(r.sleepers, x) == Dec(Left(k.sleepers, x)))
      && forall x :: x in k.tcbs ==> TaskAt(r, x) == TaskAt(k, x).(nap := Dec(TaskAt(k, x).nap))
  {
    hide Distinct, Stamped, NoDup, Left, Stamp, DeltaSeq.Tick, Ids;
    var r := k.(sleepers := DeltaSeq.Tick(k.sleepers), sleepEpoch := (k.sleepEpoch + 1) % WRAP);
    TickLeft(k.sleepers);
    forall x | x in k.tcbs ensures Home(cfg, r, x) {
      assert Home(cfg, k, x);
    }
  }
}
