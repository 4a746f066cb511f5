/**
 How much processor time a thread can get: the supply bounds of the two throttling algorithms
 (doc/sched/algorithm/bcs.md, doc/sched/algorithm/ds.md), over every run of the machine.
 */
module Supply {
  import opened Tasks
  import opened DeltaSeq
  import opened TickSpec
  import opened TickInv
  import opened ThreadView
  import opened Charging

  /** How many of the ticks `i`, ..., `j - 1` were charged. */
  function Count(h: seq<bool>, i: nat, j: nat): nat
    requires i <= j <= |h|
  {
    if i == j then 0 else Count(h, i, j - 1) + if h[j - 1] then 1 else 0
  }

  lemma {:induction false} CountPrefix(h: seq<bool>, g: seq<bool>, i: nat, j: nat)
    requires i <= j <= |h|
    ensures Count(h + g, i, j) == Count(h, i, j) <= j - i
  {
    if i < j {
      CountPrefix(h, g, i, j - 1);
    }
  }

  /** Out of budget and waiting for it, on the replenishment chain or still asleep. */
  predicate Cooling(t: Task) {
    t.state.Throttled? || (t.state.Sleep? && t.current == 0)
  }

  /** Ticks since the last charge of a thread that is cooling down: time asleep counts. */
  function Gap(t: Task): int {
    if t.state.Throttled? then t.period - t.cool else t.sleepTicks - 1 - t.nap
  }

  /**
   What the state of a thread says about its past: of the last `n` ticks, at most so many (`x`) were charged.
   Under BCS the budget used so far was preceded by a whole period without a charge. Under DS the budget used so far
   was used since the last replenishment, `period - cool` ticks ago.
   */
  predicate Bound(cfg: Config, t: Task, x: nat, n: nat) {
    && x <= n
    && match cfg.algorithm
       case Bcs =>
         if t.state.Failure? then x <= Max(t.budget, n - t.period)
         else if Cooling(t) then x <= Max(t.budget, n - t.period) && x <= Max(0, n - Gap(t))
         else x <= Max(t.budget - t.current, n - t.period)
       case Ds =>
         t.period > 0 ==>
           && (n <= t.period - t.cool ==> x <= t.budget - t.current)
           && (n <= 2 * t.period - t.cool ==> x <= 2 * t.budget - t.current)
  }

  /** One tick lengthens every window by itself. */
  lemma TickBound(cfg: Config, t: Task, x: nat, n: nat)
    requires TaskOk(cfg, t, false) && t.kind.Thread? && Bound(cfg, t, x, n)
    ensures Bound(cfg, TickTask(cfg, t), x + if Charged(t) then 1 else 0, n + 1)
  {
    hide TickTask, Bound, TaskOk;
    if t.state.Running? {
      TickRunning(cfg, t, x, n);
    } else if t.state.DefSleep? {
      TickFallAsleep(cfg, t, x, n);
    } else if Deferred(t.state) {
      TickDeferred(cfg, t, x, n);
    } else if t.state.Sleep? {
      TickAsleep(cfg, t, x, n);
    } else {
      TickOther(cfg, t, x, n);
    }
  }

  lemma TickRunning(cfg: Config, t: Task, x: nat, n: nat)
    requires TaskOk(cfg, t, false) && t.kind.Thread? && Bound(cfg, t, x, n) && t.state.Running?
    ensures Bound(cfg, TickTask(cfg, t), x + 1, n + 1)
  {
    hide Callback, Push, Transition;
  }

  lemma TickDeferred(cfg: Config, t: Task, x: nat, n: nat)
    requires TaskOk(cfg, t, false) && t.kind.Thread? && Bound(cfg, t, x, n) && Deferred(t.state) && !t.state.DefSleep?
    ensures Bound(cfg, TickTask(cfg, t), x + 1, n + 1)
  {
    hide Callback, Push, Transition, Wake;
  }

  lemma TickFallAsleep(cfg: Config, t: Task, x: nat, n: nat)
    requires TaskOk(cfg, t, false) && t.kind.Thread? && Bound(cfg, t, x, n) && t.state.DefSleep?
    ensures Bound(cfg, TickTask(cfg, t), x + 1, n + 1)
  {
    hide Callback, Push, Transition, ShouldThrottle;
  }

  lemma TickAsleep(cfg: Config, t: Task, x: nat, n: nat)
    requires TaskOk(cfg, t, false) && t.kind.Thread? && Bound(cfg, t, x, n) && t.state.Sleep?
    ensures Bound(cfg, TickTask(cfg, t), x, n + 1)
  {
    hide Callback, Push, Transition, ShouldThrottle;
  }

  lemma TickOther(cfg: Config, t: Task, x: nat, n: nat)
    requires TaskOk(cfg, t, false) && t.kind.Thread? && Bound(cfg, t, x, n)
    requires !t.state.Running? && !Deferred(t.state) && !t.state.Sleep?
    ensures Bound(cfg, TickTask(cfg, t), x, n + 1)
  {
    hide Callback, Push, Transition, Wake, ShouldThrottle;
  }

  lemma MovesBound(cfg: Config, a: Task, b: Task, mid: bool, x: nat, n: nat)
    requires TaskOk(cfg, a, mid) && a.kind.Thread? && Moves(cfg, a, b) && Bound(cfg, a, x, n)
    ensures Bound(cfg, b, x, n)
  {
  }

  ghost predicate Covered(cfg: Config, t: Task, h: seq<bool>) {
    forall i :: 0 <= i <= |h| ==> Bound(cfg, t, Count(h, i, |h|), |h| - i)
  }

  /** The bound on every window of the log: Q in any Q + P ticks under BCS, 2Q in any P ticks under DS. */
  ghost predicate Supplied(cfg: Config, budget: nat, period: nat, h: seq<bool>) {
    forall i, j :: 0 <= i <= j <= |h| ==> WindowOk(cfg, budget, period, Count(h, i, j), j - i)
  }

  predicate WindowOk(cfg: Config, budget: nat, period: nat, x: nat, n: nat) {
    match cfg.algorithm
    case Bcs => n <= budget + period ==> x <= budget
    case Ds => n <= period ==> x <= 2 * budget
  }

  lemma CoveredTick(cfg: Config, t: Task, b: Task, h: seq<bool>)
    requires TaskOk(cfg, t, false) && t.kind.Thread? && Covered(cfg, t, h)
    requires Moves(cfg, TickTask(cfg, t), b) && TaskOk(cfg, b, false) && b.kind.Thread?
    ensures Covered(cfg, b, h + [Charged(t)])
  {
    hide TickTask, Moves, Bound, TaskOk, Charged;
    forall i | 0 <= i <= |h + [Charged(t)]|
      ensures Bound(cfg, b, Count(h + [Charged(t)], i, |h + [Charged(t)]|), |h + [Charged(t)]| - i)
    {
      if i <= |h| {
        CountSnoc(h, Charged(t), i);
        TickMovesBound(cfg, t, b, Count(h, i, |h|), |h| - i);
      } else {
        EmptyWindow(cfg, b);
      }
    }
  }

  lemma CountSnoc(h: seq<bool>, c: bool, i: nat)
    requires i <= |h|
    ensures Count(h + [c], i, |h + [c]|) == Count(h, i, |h|) + if c then 1 else 0
  {
    CountPrefix(h, [c], i, |h|);
  }

  lemma TickMovesBound(cfg: Config, t: Task, b: Task, x: nat, n: nat)
    requires TaskOk(cfg, t, false) && t.kind.Thread? && Moves(cfg, TickTask(cfg, t), b) && Bound(cfg, t, x, n)
    ensures Bound(cfg, b, x + if Charged(t) then 1 else 0, n + 1)
  {
    hide TickTask, Bound, Moves, TaskOk;
    TickTaskOk(cfg, t);
    TickBound(cfg, t, x, n);
    MovesBound(cfg, TickTask(cfg, t), b, true, x + if Charged(t) then 1 else 0, n + 1);
  }

  lemma EmptyWindow(cfg: Config, t: Task)
    requires TaskOk(cfg, t, false) && t.kind.Thread?
    ensures Bound(cfg, t, 0, 0)
  {
  }

  lemma SuppliedTick(cfg: Config, t: Task, h: seq<bool>, c: bool)
    requires TaskOk(cfg, t, false) && t.kind.Thread? && Covered(cfg, t, h + [c])
    requires Supplied(cfg, t.budget, t.period, h)
    ensures Supplied(cfg, t.budget, t.period, h + [c])
  {
    var g := h + [c];
    forall i, j | 0 <= i <= j <= |g| ensures WindowOk(cfg, t.budget, t.period, Count(g, i, j), j - i) {
      if j <= |h| {
        CountPrefix(h, [c], i, j);
      } else {
        assert Bound(cfg, t, Count(g, i, |g|), |g| - i);
      }
    }
  }

  lemma CoveredMoves(cfg: Config, a: Task, b: Task, h: seq<bool>)
    requires TaskOk(cfg, a, false) && a.kind.Thread? && Moves(cfg, a, b) && Covered(cfg, a, h)
    ensures Covered(cfg, b, h)
  {
    hide Moves, TaskOk, Bound, Count;
    forall i | 0 <= i <= |h| ensures Bound(cfg, b, Count(h, i, |h|), |h| - i) {
      MovesBound(cfg, a, b, false, Count(h, i, |h|), |h| - i);
    }
  }

  lemma SameAccount(cfg: Config, o: Obs)
    requires ObsOk(cfg, o)
    ensures o.after.budget == o.before.budget && o.after.period == o.before.period
  {
    hide TickTask;
  }

  lemma ObsCovered(cfg: Config, o: Obs, h: seq<bool>)
    requires ObsOk(cfg, o) && Covered(cfg, o.before, h) && Supplied(cfg, o.before.budget, o.before.period, h)
    ensures var g := h + if o.tick then [Charged(o.before)] else [];
      Covered(cfg, o.after, g) && Supplied(cfg, o.after.budget, o.after.period, g)
  {
    hide TickTask, Moves, TaskOk, Covered, Supplied, Owes;
    SameAccount(cfg, o);
    if o.tick {
      CoveredTick(cfg, o.before, o.after, h);
      SuppliedTick(cfg, o.after, h, Charged(o.before));
    } else {
      CoveredMoves(cfg, o.before, o.after, h);
      assert h + [] == h;
    }
  }

  lemma {:induction false} SupplyView(cfg: Config, t: Task, v: seq<Obs>, h: seq<bool>)
    requires Chained(cfg, t, v) && Covered(cfg, t, h) && Supplied(cfg, t.budget, t.period, h)
    ensures Supplied(cfg, t.budget, t.period, h + ChargeLog(v))
    decreases v
  {
    hide Covered, Supplied, ObsOk, Charged, Count;
    if v == [] {
      assert h + ChargeLog(v) == h;
    } else {
      var now := if v[0].tick then [Charged(v[0].before)] else [];
      ObsCovered(cfg, v[0], h);
      SameAccount(cfg, v[0]);
      SupplyView(cfg, v[0].after, v[1..], h + now);
      Regroup(h, now, ChargeLog(v[1..]));
    }
  }

  lemma Regroup(a: seq<bool>, b: seq<bool>, c: seq<bool>)
    ensures a + (b + c) == a + b + c
  {
  }

  lemma SupplyRun(cfg: Config, m: Machine, es: seq<Event>, id: Id)
    requires Initial(cfg, m) && Run(cfg, Contract, m, es) && id in m.tasks && m.tasks[id].kind.Thread?
    ensures Supplied(cfg, m.tasks[id].budget, m.tasks[id].period, ChargeLog(View(cfg, Contract, m, es, id)))
  {
    InitialInv(cfg, m);
    ViewOk(cfg, m, es, id);
    SupplyView(cfg, m.tasks[id], View(cfg, Contract, m, es, id), []);
    assert [] + ChargeLog(View(cfg, Contract, m, es, id)) == ChargeLog(View(cfg, Contract, m, es, id));
  }

  /**
   The invariant the burst-cooldown server is designed for, on every run and under every policy: in any window of
   budget + period consecutive ticks a thread runs in at most `budget` of them.
   */
  lemma BcsSupply(cfg: Config, m: Machine, es: seq<Event>, id: Id, i: nat, j: nat)
    requires cfg.algorithm.Bcs? && Initial(cfg, m) && Run(cfg, Contract, m, es)
    requires id in m.tasks && m.tasks[id].kind.Thread?
    requires i <= j <= |RanLog(View(cfg, Contract, m, es, id), false)|
    requires j - i <= m.tasks[id].budget + m.tasks[id].period
    ensures Count(RanLog(View(cfg, Contract, m, es, id), false), i, j) <= m.tasks[id].budget
  {
    SupplyRun(cfg, m, es, id);
    ChargedIffRan(cfg, m, es, id);
    var paid := ChargeLog(View(cfg, Contract, m, es, id));
    assert WindowOk(cfg, m.tasks[id].budget, m.tasks[id].period, Count(paid, i, j), j - i);
  }

  /** A deferrable server runs in at most twice its budget of any `period` consecutive ticks. */
  lemma DsSupply(cfg: Config, m: Machine, es: seq<Event>, id: Id, i: nat, j: nat)
    requires cfg.algorithm.Ds? && Initial(cfg, m) && Run(cfg, Contract, m, es)
    requires id in m.tasks && m.tasks[id].kind.Thread?
    requires i <= j <= |RanLog(View(cfg, Contract, m, es, id), false)| && j - i <= m.tasks[id].period
    ensures Count(RanLog(View(cfg, Contract, m, es, id), false), i, j) <= 2 * m.tasks[id].budget
  {
    SupplyRun(cfg, m, es, id);
    ChargedIffRan(cfg, m, es, id);
    var paid := ChargeLog(View(cfg, Contract, m, es, id));
    assert WindowOk(cfg, m.tasks[id].budget, m.tasks[id].period, Count(paid, i, j), j - i);
  }

  // ------------------------------------------------------------------------
  // Replenishments.

  lemma ThrottledTick(cfg: Config, t: Task)
    requires TaskOk(cfg, t, false) && t.kind.Thread? && t.state.Throttled?
    ensures var r := TickTask(cfg, t);
      if t.cool > 1 then r == t.(cool := t.cool - 1) else r.state.Ready? && r.current == t.budget
  {
    hide Callback, Push, Wake;
  }

  /** One event in the cooldown of a thread: nothing but a tick counts. */
  lemma ThrottledObs(cfg: Config, o: Obs)
    requires ObsOk(cfg, o) && o.before.state.Throttled?
    ensures 0 < o.before.cool <= o.before.period
    ensures o.after.budget == o.before.budget && o.after.period == o.before.period
    ensures !o.tick || o.before.cool > 1 ==>
      o.after.state.Throttled? && o.after.cool == o.before.cool - (if o.tick then 1 else 0)
    ensures o.tick && o.before.cool == 1 ==>
      (o.after.state.Ready? || o.after.state.Running?) && o.after.current == o.after.budget
  {
    hide TickTask;
    ThrottledTick(cfg, o.before);
  }

  lemma {:induction false} StillThrottled(cfg: Config, t: Task, v: seq<Obs>)
    requires Chained(cfg, t, v) && t.state.Throttled? && TickCount(v) < t.cool
    ensures v != [] ==>
      v[|v| - 1].after.state.Throttled? && v[|v| - 1].after.cool == t.cool - TickCount(v)
    decreases v
  {
    hide ObsOk;
    if v != [] {
      ThrottledObs(cfg, v[0]);
      StillThrottled(cfg, v[0].after, v[1..]);
    }
  }

  lemma {:induction false} BackAtLast(cfg: Config, t: Task, v: seq<Obs>)
    requires Chained(cfg, t, v) && t.state.Throttled? && v != []
    requires v[|v| - 1].tick && TickCount(v) == t.cool
    ensures var r := v[|v| - 1].after;
      (r.state.Ready? || r.state.Running?) && r.current == r.budget == t.budget
    decreases v
  {
    hide ObsOk;
    ThrottledObs(cfg, v[0]);
    if |v| > 1 {
      LastCounts(v[1..]);
      BackAtLast(cfg, v[0].after, v[1..]);
    }
  }

  lemma {:induction false} LastCounts(v: seq<Obs>)
    requires v != [] && v[|v| - 1].tick
    ensures TickCount(v) > 0
  {
    if |v| > 1 {
      LastCounts(v[1..]);
    }
  }

  /**
   On every run a throttled thread stays out for exactly the ticks left on the replenishment chain, at most its period,
   whatever else happens in between; the last of them brings it back, ready or already running, with a full budget.
   */
  lemma CooldownLength(cfg: Config, m: Machine, es: seq<Event>, id: Id)
    requires Inv(cfg, m) && Run(cfg, Contract, m, es)
    requires id in m.tasks && m.tasks[id].kind.Thread? && m.tasks[id].state.Throttled?
    ensures 0 < m.tasks[id].cool <= m.tasks[id].period
    ensures var t, r, n := m.tasks[id], Exec(cfg, Contract, m, es).tasks[id], TickCount(View(cfg, Contract, m, es, id));
      && (n < t.cool ==> r.state.Throttled? && r.cool == t.cool - n)
      && (n == t.cool && es[|es| - 1].Tick? ==>
        (r.state.Ready? || r.state.Running?) && r.current == r.budget == t.budget)
  {
    hide TasksOk, Placed, Apply, Legal, Chained, TickCount;
    var v := View(cfg, Contract, m, es, id);
    ViewOk(cfg, m, es, id);
    LastView(cfg, m, es, id);
    ThrottledCool(cfg, m, id);
    if TickCount(v) < m.tasks[id].cool {
      StillThrottled(cfg, m.tasks[id], v);
      NoTicks(v);
    } else if TickCount(v) == m.tasks[id].cool {
      NoTicks(v);
      if es[|es| - 1].Tick? {
        BackAtLast(cfg, m.tasks[id], v);
      }
    }
  }

  lemma NoTicks(v: seq<Obs>)
    ensures v == [] ==> TickCount(v) == 0
  {
  }

  lemma ThrottledCool(cfg: Config, m: Machine, id: Id)
    requires Inv(cfg, m) && id in m.tasks && m.tasks[id].kind.Thread? && m.tasks[id].state.Throttled?
    ensures 0 < m.tasks[id].cool <= m.tasks[id].period
  {
    assert TaskOk(cfg, m.tasks[id], false);
  }

  /** A view ends where the run does. */
  lemma {:induction false} LastView(cfg: Config, m: Machine, es: seq<Event>, id: Id)
    requires Wf(m) && Run(cfg, Contract, m, es) && id in m.tasks
    ensures var v := View(cfg, Contract, m, es, id);
      && |v| == |es|
      && (if es == [] then Exec(cfg, Contract, m, es) == m
          else v[|v| - 1].after == Exec(cfg, Contract, m, es).tasks[id] && v[|v| - 1].tick == es[|es| - 1].Tick?)
    decreases es
  {
    hide Apply, Legal;
    if es != [] {
      LastView(cfg, Apply(cfg, m, es[0]), es[1..], id);
    }
  }

  /** Per tick of a deferrable server: was its budget replenished from the chain? */
  function ReplenishLog(v: seq<Obs>): seq<bool> {
    if v == [] then [] else (if v[0].tick then [v[0].before.cool == 1] else []) + ReplenishLog(v[1..])
  }

  /** Per tick: did it leave the thread with a full budget? */
  function FullLog(v: seq<Obs>): seq<bool> {
    if v == [] then [] else (if v[0].tick then [v[0].after.current == v[0].after.budget] else []) + FullLog(v[1..])
  }

  /** A countdown from `c` that starts again at `p`: true at every tick in which it runs out. */
  function Beats(c: nat, p: nat, n: nat): (b: seq<bool>)
    ensures |b| == n
    decreases n
  {
    if n == 0 then [] else [c == 1] + Beats(if c == 1 then p else Dec(c), p, n - 1)
  }

  /** The beat of tick `k` by itself. */
  function Beat(c: nat, p: nat, k: nat): bool
    decreases k
  {
    if k == 0 then c == 1 else Beat(if c == 1 then p else Dec(c), p, k - 1)
  }

  lemma {:induction false} BeatsAt(c: nat, p: nat, n: nat, k: nat)
    requires k < n
    ensures Beats(c, p, n)[k] == Beat(c, p, k)
    decreases n
  {
    if k > 0 {
      BeatsAt(if c == 1 then p else Dec(c), p, n - 1, k - 1);
    }
  }

  lemma {:induction false} FirstBeat(c: nat, p: nat, k: nat)
    requires k < c
    ensures Beat(c, p, k) <==> k == c - 1
    decreases k
  {
    if k > 0 {
      FirstBeat(c - 1, p, k - 1);
    }
  }

  lemma {:induction false} LaterBeat(c: nat, p: nat, k: nat)
    requires 0 < c <= k
    ensures Beat(c, p, k) == Beat(p, p, k - c)
    decreases k
  {
    if c > 1 {
      LaterBeat(c - 1, p, k - 1);
    }
  }

  /** A countdown runs out after its start, and then every `p` ticks. */
  lemma BeatsPeriodic(c: nat, p: nat, n: nat, k: nat)
    requires 0 < c <= p && k < n
    ensures k < c ==> (Beats(c, p, n)[k] <==> k == c - 1)
    ensures k >= p ==> (Beats(c, p, n)[k] <==> Beats(c, p, n)[k - p])
  {
    BeatsAt(c, p, n, k);
    if k < c {
      FirstBeat(c, p, k);
    }
    if k >= p {
      BeatsAt(c, p, n, k - p);
      LaterBeat(c, p, k);
      if k - p < c {
        FirstBeat(c, p, k - p);
        FirstBeat(p, p, k - c);
      } else {
        LaterBeat(c, p, k - p);
        LaterBeat(p, p, k - c);
      }
    }
  }

  lemma CoolCounts(cfg: Config, o: Obs)
    requires cfg.algorithm.Ds? && ObsOk(cfg, o) && o.before.period > 0
    ensures o.after.cool ==
      if !o.tick then o.before.cool else if o.before.cool == 1 then o.before.period else o.before.cool - 1
    ensures o.tick && o.before.cool == 1 ==> o.after.current == o.after.budget
  {
    hide TickTask;
    CoolTick(cfg, o.before);
  }

  lemma CoolTick(cfg: Config, t: Task)
    requires cfg.algorithm.Ds? && TaskOk(cfg, t, false) && t.kind.Thread? && t.period > 0
    ensures TickTask(cfg, t).cool == if t.cool == 1 then t.period else t.cool - 1
    ensures t.cool == 1 ==> TickTask(cfg, t).current == t.budget
  {
    hide Callback, Push, Transition, ShouldThrottle;
  }

  lemma {:induction false} ReplenishView(cfg: Config, t: Task, v: seq<Obs>)
    requires cfg.algorithm.Ds? && Chained(cfg, t, v) && t.period > 0
    ensures |ReplenishLog(v)| == |ChargeLog(v)| == |FullLog(v)|
    ensures ReplenishLog(v) == Beats(t.cool, t.period, |ReplenishLog(v)|)
    ensures forall k :: 0 <= k < |ReplenishLog(v)| && ReplenishLog(v)[k] ==> FullLog(v)[k]
    decreases v
  {
    hide ObsOk;
    if v != [] {
      CoolCounts(cfg, v[0]);
      SameAccount(cfg, v[0]);
      ReplenishView(cfg, v[0].after, v[1..]);
    }
  }

  /**
   Deferrable servers are replenished exactly every `period` ticks, for ever, whatever they do in between, and every
   replenishment fills the budget up.
   */
  lemma DsReplenishment(cfg: Config, m: Machine, es: seq<Event>, id: Id, k: nat)
    requires cfg.algorithm.Ds? && Initial(cfg, m) && Run(cfg, Contract, m, es)
    requires id in m.tasks && m.tasks[id].kind.Thread? && m.tasks[id].period > 0
    requires k < |ReplenishLog(View(cfg, Contract, m, es, id))|
    ensures |FullLog(View(cfg, Contract, m, es, id))| == |ReplenishLog(View(cfg, Contract, m, es, id))|
    ensures ReplenishLog(View(cfg, Contract, m, es, id))[k] ==> FullLog(View(cfg, Contract, m, es, id))[k]
    ensures var log, p := ReplenishLog(View(cfg, Contract, m, es, id)), m.tasks[id].period;
      && (k < p - 1 ==> !log[k]) && (k == p - 1 ==> log[k])
      && (k >= p ==> (log[k] <==> log[k - p]))
  {
    hide Inv, Apply, Chained;
    InitialInv(cfg, m);
    ViewOk(cfg, m, es, id);
    ReplenishView(cfg, m.tasks[id], View(cfg, Contract, m, es, id));
    BeatsPeriodic(m.tasks[id].period, m.tasks[id].period, |ReplenishLog(View(cfg, Contract, m, es, id))|, k);
  }

  lemma SpentTick(cfg: Config, t: Task)
    requires cfg.algorithm.Ds? && TaskOk(cfg, t, false) && t.kind.Thread? && t.period > 0
    ensures var c := if Charged(t) then 1 else 0;
      c <= t.current && (t.cool > 1 ==> TickTask(cfg, t).current + c <= t.current)
  {
    hide Callback, Push, Transition;
  }

  lemma ObsSpends(cfg: Config, o: Obs)
    requires cfg.algorithm.Ds? && ObsOk(cfg, o) && o.before.period > 0
    ensures o.after.period == o.before.period
    ensures !o.tick ==> o.after.current <= o.before.current
    ensures o.tick ==>
      var c := if Charged(o.before) then 1 else 0;
      c <= o.before.current && (o.before.cool > 1 ==> o.after.current + c <= o.before.current)
  {
    hide TickTask, TaskOk;
    SpentTick(cfg, o.before);
  }

  lemma {:induction false} CountCons(c: bool, h: seq<bool>, j: nat)
    requires j <= |h|
    ensures Count([c] + h, 0, j + 1) == (if c then 1 else 0) + Count(h, 0, j)
  {
    if j > 0 {
      CountCons(c, h, j - 1);
    }
  }

  lemma {:induction false} SpentView(cfg: Config, t: Task, v: seq<Obs>)
    requires cfg.algorithm.Ds? && Chained(cfg, t, v) && t.period > 0
    requires forall k :: 0 <= k < |ReplenishLog(v)| - 1 ==> !ReplenishLog(v)[k]
    ensures |ReplenishLog(v)| == |ChargeLog(v)|
    ensures Count(ChargeLog(v), 0, |ChargeLog(v)|) <= t.current
    decreases v
  {
    hide ObsOk, Charged;
    if v != [] {
      var rest := v[1..];
      SameLength(rest);
      ObsSpends(cfg, v[0]);
      if v[0].tick {
        assert ReplenishLog(v)[1..] == ReplenishLog(rest);
        CountCons(Charged(v[0].before), ChargeLog(rest), |ChargeLog(rest)|);
        if ReplenishLog(rest) != [] {
          assert !ReplenishLog(v)[0];
          CoolPositive(cfg, v[0]);
          SpentView(cfg, v[0].after, rest);
        }
      } else {
        assert ReplenishLog(v) == ReplenishLog(rest) && ChargeLog(v) == ChargeLog(rest);
        SpentView(cfg, v[0].after, rest);
      }
    }
  }

  lemma {:induction false} SameLength(v: seq<Obs>)
    ensures |ReplenishLog(v)| == |ChargeLog(v)|
  {
    if v != [] {
      SameLength(v[1..]);
    }
  }

  lemma CoolPositive(cfg: Config, o: Obs)
    requires cfg.algorithm.Ds? && ObsOk(cfg, o) && o.before.period > 0
    ensures o.before.cool > 0
  {
    hide TickTask, Moves, Owes;
  }

  /**
   From any reachable state a deferrable server is charged no more than the budget it has left until the tick of its
   next replenishment, that tick included; so at most `budget` times between two replenishments.
   */
  lemma DsBetweenReplenishments(cfg: Config, m: Machine, es: seq<Event>, id: Id)
    requires cfg.algorithm.Ds? && Inv(cfg, m) && Run(cfg, Contract, m, es)
    requires id in m.tasks && m.tasks[id].kind.Thread? && m.tasks[id].period > 0
    requires var log := ReplenishLog(View(cfg, Contract, m, es, id)); forall k :: 0 <= k < |log| - 1 ==> !log[k]
    ensures var paid := ChargeLog(View(cfg, Contract, m, es, id));
      Count(paid, 0, |paid|) <= m.tasks[id].current <= m.tasks[id].budget
  {
    hide Apply, Chained;
    ViewOk(cfg, m, es, id);
    SpentView(cfg, m.tasks[id], View(cfg, Contract, m, es, id));
    assert TaskOk(cfg, m.tasks[id], false);
  }
}
