/**
 The cached task priority of a processor (arch/x86_64/ia32e/src/ia32eCpu.c:127-146, 1226-1318): counts of the activated
 tasks by priority level, and the hardware task-priority register that must match the highest of them.
 */
module Tpr {
  import opened Tasks
  import opened TickSpec

  /** Levels run from 1 to 14; the register is 1 when no task is activated. */
  const LEVELS := 14

  /** The tasks that counter `k` counts. */
  ghost function AtLevel(active: set<Id>, level: map<Id, nat>, k: nat): set<Id> {
    set id | id in active && id in level && level[id] == k + 1
  }

  /** The register holds the greater of 1 and the highest level among the activated tasks. */
  ghost predicate IsTpr(active: set<Id>, level: map<Id, nat>, tpr: nat) {
    && tpr >= 1
    && (forall id :: id in active && id in level ==> level[id] <= tpr)
    && (tpr == 1 || exists id :: id in active && id in level && level[id] == tpr)
  }

  lemma TprUnique(active: set<Id>, level: map<Id, nat>, a: nat, b: nat)
    requires IsTpr(active, level, a) && IsTpr(active, level, b)
    ensures a == b
  {
  }

  /** The activated tasks of a machine. */
  function ActiveSet(m: Machine): set<Id> {
    set id | id in m.tasks && Activated(m.tasks[id].state)
  }

  /** One call of `kTickTaskLoadNextState` that moves a task to another state. */
  datatype Change = Change(id: Id, before: State, next: State)

  function States(m: Machine): map<Id, State> {
    map id | id in m.tasks :: m.tasks[id].state
  }

  function ActiveIds(states: map<Id, State>): set<Id> {
    set id | id in states && Activated(states[id])
  }

  /** The changes, one after the other, lead from some states to others. */
  predicate Leads(a: map<Id, State>, changes: seq<Change>, b: map<Id, State>) {
    if changes == [] then a == b
    else
      && changes[0].id in a && a[changes[0].id] == changes[0].before
      && Leads(a[changes[0].id := changes[0].next], changes[1..], b)
  }

  lemma StatesActive(m: Machine)
    ensures ActiveIds(States(m)) == ActiveSet(m)
  {
  }

  /** Asleep, throttled, dormant or failed. */
  predicate Away(m: Machine, id: Id)
    requires id in m.tasks
  {
    var s := m.tasks[id].state;
    s == Sleep || s == Throttled || s == LsrDormant || s == Failure
  }

  /** A task that is away never raises the register; every other task does. */
  ghost predicate Rightly(m: Machine, level: map<Id, nat>, tpr: nat) {
    && tpr >= 1
    && (forall id :: id in m.tasks && id in level && !Away(m, id) ==> level[id] <= tpr)
    && (tpr == 1 || exists id :: id in m.tasks && id in level && level[id] == tpr && !Away(m, id))
  }

  lemma TprIsRight(m: Machine, level: map<Id, nat>, tpr: nat)
    requires IsTpr(ActiveSet(m), level, tpr)
    ensures Rightly(m, level, tpr)
  {
    if tpr != 1 {
      var id :| id in ActiveSet(m) && id in level && level[id] == tpr;
    }
  }

  class Cpu {
    /** Threads carry their level, an LSR has that of its vector; the idle task has none. */
    const level: map<Id, nat>
    const tprCount: array<nat>
    var tpr: nat
    /** All plugins have run (`gPluginsDone`); this processor has been handed over to its tasks. */
    var pluginsDone: bool
    var handoffDone: bool
    ghost var active: set<Id>

    ghost predicate Valid()
      reads this, tprCount
    {
      && tprCount.Length == LEVELS
      && (forall id :: id in level ==> 1 <= level[id] <= LEVELS)
      && (forall k :: 0 <= k < LEVELS ==> tprCount[k] == |AtLevel(active, level, k)|)
      && (tpr > 0 ==> pluginsDone && IsTpr(active, level, tpr))
      && (handoffDone ==> tpr > 0)
    }

    constructor (level: map<Id, nat>)
      requires forall id :: id in level ==> 1 <= level[id] <= LEVELS
      ensures Valid() && this.level == level && active == {} && !pluginsDone && !handoffDone
    {
      this.level, tpr, pluginsDone, handoffDone, active := level, 0, false, false, {};
      tprCount := new nat[LEVELS](_ => 0);
      new;
      assert forall k :: 0 <= k < LEVELS ==> AtLevel(active, level, k) == {};
    }

    /** `ia32eReloadTpr` */
    method Reload()
      requires tprCount.Length == LEVELS
      requires forall id :: id in level ==> 1 <= level[id] <= LEVELS
      requires forall k :: 0 <= k < LEVELS ==> tprCount[k] == |AtLevel(active, level, k)|
      modifies this`tpr
      ensures IsTpr(active, level, tpr)
    {
      var newTpr := 1;
      var i := tprCount.Length - 1;
      while i >= 0
        invariant -1 <= i < LEVELS && newTpr == 1
        invariant forall id :: id in active && id in level ==> level[id] <= i + 1
      {
        if tprCount[i] > 0 {
          ghost var id :| id in AtLevel(active, level, i);
          newTpr := i + 1;
          break;
        }
        forall id | id in active && id in level ensures level[id] <= i {
          assert AtLevel(active, level, i) == {};
          assert id !in AtLevel(active, level, i);
        }
        i := i - 1;
      }
      tpr := newTpr;
    }

    lemma Joined(id: Id, k: nat)
      requires id in level && id !in active
      ensures |AtLevel(active + {id}, level, k)| == |AtLevel(active, level, k)| + if level[id] == k + 1 then 1 else 0
    {
      assert AtLevel(active + {id}, level, k) == AtLevel(active, level, k) + if level[id] == k + 1 then {id} else {};
    }

    lemma Left(id: Id, k: nat)
      requires id in level && id in active
      ensures |AtLevel(active - {id}, level, k)| == |AtLevel(active, level, k)| - if level[id] == k + 1 then 1 else 0
    {
      assert AtLevel(active, level, k) == AtLevel(active - {id}, level, k) + if level[id] == k + 1 then {id} else {};
    }

    lemma Unlisted(id: Id)
      requires id !in level
      ensures forall k: nat :: AtLevel(active + {id}, level, k) == AtLevel(active, level, k)
      ensures forall k: nat :: AtLevel(active - {id}, level, k) == AtLevel(active, level, k)
    {
    }

    /** `ia32eCallbackActivation` */
    method Activation(id: Id)
      requires Valid() && id !in active
      modifies this`tpr, this`active, tprCount
      ensures Valid() && active == old(active) + {id}
    {
      ghost var now := active + {id};
      if id !in level {
        Unlisted(id);
        active := now;
        return;
      }
      forall k: nat
        ensures |AtLevel(now, level, k)| == |AtLevel(active, level, k)| + if level[id] == k + 1 then 1 else 0
      {
        Joined(id, k);
      }
      hide AtLevel;
      tprCount[level[id] - 1] := tprCount[level[id] - 1] + 1;
      active := now;
      if pluginsDone && level[id] > tpr {
        Reload();
      }
    }

    /** `ia32eCallbackResponse`: its assertion holds by itself once the processor has been handed over. */
    method Response(id: Id)
      requires Valid() && id in active
      requires handoffDone || (id in level ==> level[id] <= tpr)
      modifies this`tpr, this`active, tprCount
      ensures Valid() && active == old(active) - {id}
    {
      ghost var now := active - {id};
      if id !in level {
        Unlisted(id);
        active := now;
        return;
      }
      assert level[id] <= tpr;
      assert id in AtLevel(active, level, level[id] - 1);
      forall k: nat
        ensures |AtLevel(now, level, k)| == |AtLevel(active, level, k)| - if level[id] == k + 1 then 1 else 0
      {
        Left(id, k);
      }
      hide AtLevel;
      assert tprCount[level[id] - 1] > 0;
      tprCount[level[id] - 1] := tprCount[level[id] - 1] - 1;
      active := now;
      if level[id] == tpr && tprCount[level[id] - 1] == 0 {
        Reload();
      } else if level[id] == tpr {
        StillSome(level[id] - 1);
      }
    }

    lemma StillSome(k: nat)
      requires |AtLevel(active, level, k)| > 0
      ensures exists id :: id in active && id in level && level[id] == k + 1
    {
      var id :| id in AtLevel(active, level, k);
    }

    method PluginsDone()
      requires Valid()
      modifies this`pluginsDone
      ensures Valid() && pluginsDone
    {
      pluginsDone := true;
    }

    /** `ia32eCallbackCpuHandoff` */
    method Handoff()
      requires Valid() && pluginsDone
      modifies this`tpr, this`handoffDone
      ensures Valid() && handoffDone && IsTpr(active, level, tpr)
    {
      Reload();
      handoffDone := true;
    }

    /** The callbacks a change of state makes: activation on the way in, response on the way out. */
    method StateChange(id: Id, before: State, next: State)
      requires Valid() && handoffDone && (id in active <==> Activated(before))
      modifies this`tpr, this`active, tprCount
      ensures Valid() && IsTpr(active, level, tpr)
      ensures active == if Activated(next) then old(active) + {id} else old(active) - {id}
    {
      if Activated(next) && !Activated(before) {
        Activation(id);
      } else if !Activated(next) && Activated(before) {
        Response(id);
      }
    }

    /** The callbacks of any number of changes, in the order the changes are made. */
    method Follow(changes: seq<Change>, ghost a: map<Id, State>, ghost b: map<Id, State>)
      requires Valid() && handoffDone && active == ActiveIds(a) && Leads(a, changes, b)
      modifies this`tpr, this`active, tprCount
      ensures Valid() && active == ActiveIds(b)
    {
      hide AtLevel, IsTpr;
      var i := 0;
      ghost var now: map<Id, State> := a;
      while i < |changes|
        invariant 0 <= i <= |changes| && Valid() && handoffDone
        invariant active == ActiveIds(now) && Leads(now, changes[i..], b)
      {
        var c := changes[i];
        assert changes[i..][0] == c && changes[i..][1..] == changes[i + 1..];
        StateChange(c.id, c.before, c.next);
        now := now[c.id := c.next];
        i := i + 1;
      }
      assert changes[i..] == [];
    }

    /**
     The register is exact in every state a machine reaches: whatever changes of state an event is made of, the
     callbacks take the register from the tasks activated before it to those activated after it.
     */
    method FollowRun(ghost cfg: Config, ghost rule: Rule, ghost m: Machine, ghost es: seq<Event>,
        changes: seq<seq<Change>>)
      requires Valid() && handoffDone && active == ActiveSet(m) && Wf(m) && Run(cfg, rule, m, es)
      requires Made(cfg, rule, m, es, changes)
      modifies this`tpr, this`active, tprCount
      ensures Valid() && active == ActiveSet(Exec(cfg, rule, m, es)) && IsTpr(active, level, tpr)
      ensures Rightly(Exec(cfg, rule, m, es), level, tpr)
      decreases |changes|
    {
      hide AtLevel, IsTpr, Legal, ActiveSet, ActiveIds, States, Leads, Apply, Rightly;
      if changes != [] {
        ghost var n := Apply(cfg, m, es[0]);
        StatesActive(m);
        StatesActive(n);
        Follow(changes[0], States(m), States(n));
        FollowRun(cfg, rule, n, es[1..], changes[1..]);
      } else {
        TprIsRight(m, level, tpr);
      }
    }
  }

  /** Each event of a run with the changes of state it is made of. */
  ghost predicate Made(cfg: Config, rule: Rule, m: Machine, es: seq<Event>, changes: seq<seq<Change>>)
    requires Wf(m) && Run(cfg, rule, m, es)
    decreases es
  {
    |changes| == |es| &&
    (es == [] ||
      var n := Apply(cfg, m, es[0]);
      Leads(States(m), changes[0], States(n)) && Made(cfg, rule, n, es[1..], changes[1..]))
  }

  lemma {:induction false} LeadsTo(a: map<Id, State>, b: map<Id, State>, differ: set<Id>) returns (changes: seq<Change>)
    requires a.Keys == b.Keys && differ <= a.Keys && forall id :: id in a && id !in differ ==> a[id] == b[id]
    ensures Leads(a, changes, b)
    decreases differ
  {
    if differ == {} {
      changes := [];
    } else {
      var id :| id in differ;
      var rest := LeadsTo(a[id := b[id]], b, differ - {id});
      changes := [Change(id, a[id], b[id])] + rest;
      assert changes[1..] == rest;
    }
  }

  /** Every run is made of such changes. */
  lemma {:induction false} MadeOf(cfg: Config, rule: Rule, m: Machine, es: seq<Event>)
    returns (changes: seq<seq<Change>>)
    requires Wf(m) && Run(cfg, rule, m, es)
    ensures Made(cfg, rule, m, es, changes)
    decreases es
  {
    hide Apply, Legal, Leads;
    if es == [] {
      changes := [];
    } else {
      var n := Apply(cfg, m, es[0]);
      var first := LeadsTo(States(m), States(n), m.tasks.Keys);
      var rest := MadeOf(cfg, rule, n, es[1..]);
      changes := [first] + rest;
      assert changes[1..] == rest;
    }
  }
}
