/**
 Who pays for a tick. A thread is charged in a tick when it is running or has a deferred tick; the module proves that
 this is exactly the threads that were running at some moment since the tick before and have not failed.
 */
module Charging {
  import opened Tasks
  import opened TickSpec
  import opened TickInv
  import opened ThreadView

  /** Per tick: did the thread pay? */
  function ChargeLog(v: seq<Obs>): seq<bool> {
    if v == [] then [] else (if v[0].tick then [Charged(v[0].before)] else []) + ChargeLog(v[1..])
  }

  /** Per tick: had the thread been running since the tick before, without failing? `ran` says whether it had so far. */
  function RanLog(v: seq<Obs>, ran: bool): seq<bool> {
    if v == [] then [] else
    (if v[0].tick then [ran && !v[0].before.state.Failure?] else []) +
    RanLog(v[1..], (ran && !v[0].tick) || v[0].runs)
  }

  lemma {:induction false} LogsAgree(cfg: Config, t: Task, v: seq<Obs>, ran: bool)
    requires Chained(cfg, t, v)
    requires !t.state.Failure? ==> (ran <==> Charged(t))
    ensures RanLog(v, ran) == ChargeLog(v)
    decreases v
  {
    hide TickTask;
    if v != [] {
      LogsAgree(cfg, v[0].after, v[1..], (ran && !v[0].tick) || v[0].runs);
    }
  }

  /**
   Exact charging, on every run and for every policy: the ticks a thread pays for are the ticks before which it had
   been running, whether it is still running or has yielded, throttled itself, gone to sleep or been preempted.
   */
  lemma ChargedIffRan(cfg: Config, m: Machine, es: seq<Event>, id: Id)
    requires Initial(cfg, m) && Run(cfg, Contract, m, es) && id in m.tasks && m.tasks[id].kind.Thread?
    ensures var v := View(cfg, Contract, m, es, id); ChargeLog(v) == RanLog(v, false)
  {
    InitialInv(cfg, m);
    ViewOk(cfg, m, es, id);
    LogsAgree(cfg, m.tasks[id], View(cfg, Contract, m, es, id), false);
  }

  /**
   What one charge costs: one tick of budget, or all of it after a voluntary throttle. A budget that reaches zero is
   refilled on the spot exactly when the thread is not throttled for it; nobody else's budget goes down.
   */
  lemma ChargeCost(cfg: Config, t: Task)
    requires TaskOk(cfg, t, false) && t.kind.Thread?
    ensures var r := ChargeRunning(cfg, ChargeDeferred(cfg, t));
      var left := if t.state.DefThrottle? then 0 else t.current - 1;
      if !Charged(t) then r == t
      else if left > 0 || t.state.DefSleep? then r.current == left && !r.state.Throttled?
      else if ShouldThrottle(cfg, t) then r.current == 0 && (r.state.Throttled? || t.state.Running?)
      else r.current == t.budget && !r.state.Throttled?
  {
  }
}
