/**
 Tasks that join a processor before anything runs on it (src/plugin/kPlugin.c:39-169,
 src/workhorse/kTick/kTick.c:693-724).
 */
module TickSetup {
  import opened Tasks
  import opened DeltaSeq
  import opened TickSpec
  import opened TickInv
  import opened Containers

  function NewTcb(cfg: Config, budget: nat, period: nat, prio: nat, allot: nat): Tcb {
    var b := Tcb(Thread, Ready, budget, period, budget, 0, prio, allot, 0, false);
    b.(link := Push(cfg, Lift(b, 0, 0)).link)
  }

  /** A new thread is ready with a full budget; under EDF its first deadline has started. */
  function NewThread(cfg: Config, budget: nat, period: nat, prio: nat, allot: nat): Task {
    Task(Thread, Ready, budget, period, budget, 0, if cfg.algorithm.Ds? then period else 0, 0, prio, allot,
      if cfg.policy.Edf? then allot else 0)
  }

  /** A processor before any plugin has run. */
  function Bare(idle: Id): (m: Machine)
    ensures Wf(m)
  {
    Machine(map[idle := Task(Idle, Ready, 0, 0, 0, 0, 0, 0, 0, 0, 0)], idle, None, None, [])
  }

  function NewLsr(prio: nat): Task {
    Task(Lsr, LsrDormant, 0, 0, 0, 0, 0, 0, prio, 0, 0)
  }

  /** A task control block joins together with the containers its state names. */
  function AddedKernel(cfg: Config, k: Kernel, id: Id, b: Tcb): Kernel {
    k.(tcbs := k.tcbs[id := b],
       repl := if OnChain(cfg, b) then Insert(k.repl, id, b.period, (k.replEpoch + b.period) % WRAP) else k.repl,
       ready := if b.kind.Thread? then k.ready + {id} else k.ready,
       dormant := if b.state.LsrDormant? then k.dormant + {id} else k.dormant)
  }

  /** What may join: a ready thread, or a dormant LSR. */
  predicate MayJoin(k: Kernel, id: Id, b: Tcb) {
    && id !in k.tcbs && b.period < WRAP && !b.lag && b.sleepTicks == 0
    && if b.kind.Thread? then b.state.Ready? else b.kind.Lsr? && b.state.LsrDormant?
  }

  lemma ChainJoin(c: seq<Node<Id>>, epoch: nat, id: Id, p: nat, on: bool)
    requires Distinct(c) && Stamped(c, epoch) && id !in Ids(c) && p < WRAP
    ensures var r := if on then Insert(c, id, p, (epoch + p) % WRAP) else c;
      && Distinct(r) && Stamped(r, epoch) && Ids(r) == Ids(c) + (if on then {id} else {})
      && Left(r, id) == (if on then p else 0)
      && forall x :: x != id ==> Left(r, x) == Left(c, x)
  {
    LeftOutside(c, id);
    hide Insert, Left, Distinct, Stamped, Stamp;
    InsertLeft(c, id, p, (epoch + p) % WRAP);
    InsertStamped(c, epoch, id, p);
  }

  /** The replenishment chain once the task has joined. */
  lemma AddedChain(cfg: Config, k: Kernel, id: Id, b: Tcb)
    requires Agree(cfg, k) && MayJoin(k, id, b)
    ensures var r := AddedKernel(cfg, k, id, b).repl;
      && Distinct(r) && Stamped(r, k.replEpoch)
      && Ids(r) == Ids(k.repl) + (if OnChain(cfg, b) then {id} else {})
      && Left(r, id) == (if OnChain(cfg, b) then b.period else 0)
      && forall x :: x != id ==> Left(r, x) == Left(k.repl, x)
  {
    NotLinked(k, id);
    hide Insert, Left, Distinct, Ids, Stamped, Stamp, NoDup, Home, SlotOnTop;
    ChainJoin(k.repl, k.replEpoch, id, b.period, OnChain(cfg, b));
  }

  lemma AddedHome(cfg: Config, k: Kernel, id: Id, b: Tcb, x: Id)
    requires Agree(cfg, k) && MayJoin(k, id, b) && (x in k.tcbs || x == id)
    ensures Home(cfg, AddedKernel(cfg, k, id, b), x)
  {
    AddedChain(cfg, k, id, b);
    NotLinked(k, id);
    hide Insert, Left, Distinct, Ids, Stamped, Stamp, NoDup, Linked;
    assert x != id ==> Home(cfg, k, x);
  }

  lemma AddedLinked(cfg: Config, k: Kernel, id: Id, b: Tcb)
    requires Agree(cfg, k) && MayJoin(k, id, b)
    ensures Linked(AddedKernel(cfg, k, id, b)) && SlotOnTop(AddedKernel(cfg, k, id, b))
  {
    AddedChain(cfg, k, id, b);
    NotLinked(k, id);
    hide Insert, Left, Distinct, Ids, Stamped, Stamp, NoDup, Home;
  }

  lemma AddedAbstract(cfg: Config, k: Kernel, idle: Id, id: Id, b: Tcb)
    requires Agree(cfg, k) && MayJoin(k, id, b)
    ensures Abstract(AddedKernel(cfg, k, id, b), idle) ==
      Put(Abstract(k, idle), id, Lift(b, if OnChain(cfg, b) then b.period else 0, 0))
  {
    AddedChain(cfg, k, id, b);
    NotLinked(k, id);
    LeftOutside(k.sleepers, id);
    hide Insert, Left, Ids, Agree;
    var m := Abstract(AddedKernel(cfg, k, id, b), idle);
    var n := Put(Abstract(k, idle), id, Lift(b, if OnChain(cfg, b) then b.period else 0, 0));
    assert forall x :: x in m.tasks ==> m.tasks[x] == n.tasks[x];
    assert m.tasks == n.tasks;
  }

  lemma AddedAgrees(cfg: Config, k: Kernel, idle: Id, id: Id, b: Tcb)
    requires Agree(cfg, k) && MayJoin(k, id, b)
    ensures var r := AddedKernel(cfg, k, id, b);
      && Agree(cfg, r)
      && Abstract(r, idle) == Put(Abstract(k, idle), id, Lift(b, if OnChain(cfg, b) then b.period else 0, 0))
  {
    AddedAbstract(cfg, k, idle, id, b);
    AddedLinked(cfg, k, id, b);
    hide Home, Linked, SlotOnTop, Abstract;
    forall x | x in AddedKernel(cfg, k, id, b).tcbs ensures Home(cfg, AddedKernel(cfg, k, id, b), x) {
      AddedHome(cfg, k, id, b, x);
    }
  }

  lemma NewThreadIs(cfg: Config, budget: nat, period: nat, prio: nat, allot: nat)
    ensures var b := NewTcb(cfg, budget, period, prio, allot);
      && Lift(b, if OnChain(cfg, b) then b.period else 0, 0) == NewThread(cfg, budget, period, prio, allot)
      && b.link <= b.allot
    ensures var t := NewThread(cfg, budget, period, prio, allot);
      && t.kind.Thread? && t.state.Ready? && t.budget == t.current == budget && t.period == period
      && t.prio == prio && t.allot == allot && (cfg.policy.Edf? ==> t.link == allot)
  {
  }

  lemma NotLinked(k: Kernel, id: Id)
    requires Linked(k) && id !in k.tcbs
    ensures id !in Ids(k.repl) && id !in Ids(k.sleepers) && id !in k.ready && id !in k.dormant
    ensures id !in k.deferred && id !in k.lsrs && k.slot != Some(id) && k.running != Some(id)
  {
  }

  lemma LeftOutside<T>(c: seq<Node<T>>, id: T)
    ensures id !in Ids(c) ==> Left(c, id) == 0
  {
  }

  lemma AddedInitial(cfg: Config, m: Machine, id: Id, t: Task)
    requires Initial(cfg, m) && id !in m.tasks
    requires
      match t.kind
      case Thread =>
        && t.state.Ready? && 0 < t.current == t.budget && 0 < t.allot && t.link <= t.allot && t.nap == 0
        && t.cool == (if cfg.algorithm.Ds? then t.period else 0)
      case Lsr => t.state.LsrDormant? && t.cool == 0 && t.nap == 0
      case Idle => false
    ensures Initial(cfg, Put(m, id, t))
  {
  }

  /** A task that joins an initial machine leaves it an initial machine. */
  lemma JoinOk(cfg: Config, k: Kernel, idle: Id, id: Id, b: Tcb, t: Task)
    requires Agree(cfg, k) && MayJoin(k, id, b) && Initial(cfg, Abstract(k, idle))
    requires t == Lift(b, if OnChain(cfg, b) then b.period else 0, 0)
    requires b.kind.Thread? ==> 0 < b.current == b.budget && b.link <= b.allot && 0 < b.allot
    ensures var r := AddedKernel(cfg, k, id, b);
      && Agree(cfg, r) && Inv(cfg, Abstract(r, idle)) && Initial(cfg, Abstract(r, idle))
      && Abstract(r, idle) == Put(Abstract(k, idle), id, t)
  {
    hide Agree;
    AddedAgrees(cfg, k, idle, id, b);
    AddedInitial(cfg, Abstract(k, idle), id, t);
    InitialInv(cfg, Abstract(AddedKernel(cfg, k, id, b), idle));
  }
}
