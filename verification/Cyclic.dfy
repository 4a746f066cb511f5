/**
 The cyclic policy (src/workhorse/kSched/kSchedPolicy/kSchedCyclic.c): a table of frames, each owned by one thread,
 searched for the next ready owner from where the last search stopped.
 */
module Cyclic {
  import opened Tasks
  import opened TickSpec
  import opened PolicyFace
  import Bitmap

  datatype Param = Param(frameBmp: seq<bv8>, timesliceTicks: nat)

  datatype Table = Table(
    idle: Id,
    threads: map<Id, Param>,
    frames: seq<Option<Id>>,
    clock: nat,
    ready: nat,
    started: set<Id>,
    remaining: map<Id, nat>)

  predicate Owns(v: Table, id: Id, frame: nat)
    requires id in v.threads
  {
    frame < |v.frames| && Bitmap.Has(v.threads[id].frameBmp, frame)
  }

  /** What the registration of threads guarantees: every thread has a frame, and no two threads share one. */
  ghost predicate Registered(v: Table) {
    && (forall id :: id in v.threads ==> exists f: nat :: Owns(v, id, f))
    && (forall a, b, f: nat :: a in v.threads && b in v.threads && Owns(v, a, f) && Owns(v, b, f) ==> a == b)
    && (forall id :: id in v.threads ==> 8 * |v.threads[id].frameBmp| >= |v.frames|)
  }

  ghost predicate Proper(v: Table) {
    && Registered(v) && v.clock <= |v.frames|
    && v.remaining.Keys == v.threads.Keys && v.started <= v.threads.Keys
    && (forall f :: 0 <= f < |v.frames| && v.frames[f].Some? ==> v.frames[f].value in v.started)
    && (forall id, f: nat :: id in v.started && Owns(v, id, f) ==> v.frames[f] == Some(id))
  }

  function Claimed(v: Table, id: Id): (r: seq<Option<Id>>)
    requires id in v.threads
    ensures |r| == |v.frames|
  {
    seq(|v.frames|, f requires 0 <= f < |v.frames| => if Owns(v, id, f) then Some(id) else v.frames[f])
  }

  /** A thread fills in its frames the first time it becomes ready. */
  function Count(v: Table, id: Id): Table
    requires id in v.threads
  {
    v.(frames := if id in v.started then v.frames else Claimed(v, id),
       started := v.started + {id}, ready := v.ready + 1)
  }

  /** What the plugin interface asks of a thread of this policy: a frame, and none that is taken. */
  ghost predicate Accepts(v: Table, id: Id, p: Param) {
    && id !in v.threads && p.timesliceTicks > 0
    && (exists f: nat :: f < |v.frames| && Bitmap.Has(p.frameBmp, f))
    && (forall a, f: nat :: a in v.threads && Owns(v, a, f) ==> !Bitmap.Has(p.frameBmp, f))
  }

  function Admitted(v: Table, id: Id, p: Param): Table {
    v.(threads := v.threads[id := p], remaining := v.remaining[id := 0])
  }

  /** A new thread is known to the policy, and ready. */
  function Joined(v: Table, id: Id, p: Param): (w: Table)
    ensures w.idle == v.idle && w.threads == v.threads[id := p] && w.remaining == v.remaining[id := 0]
    ensures w.started == v.started + {id} && w.ready == v.ready + 1
  {
    Count(Admitted(v, id, p), id)
  }

  /** The frame at distance `i` behind the clock. */
  function Frame(clock: nat, n: nat, i: nat): (f: nat)
    requires n > 0
    ensures f < n
  {
    (clock + i) % n
  }

  predicate Runnable(v: Table, tasks: map<Id, Task>, i: nat)
    requires v.frames != []
  {
    var owner := v.frames[Frame(v.clock, |v.frames|, i)];
    owner.Some? && owner.value in tasks && tasks[owner.value].state.Ready?
  }

  /** The first frame with a ready owner, counted from the clock, at distance `i` or more. */
  function Search(v: Table, tasks: map<Id, Task>, i: nat): (d: nat)
    requires v.frames != [] && i <= |v.frames|
    ensures i <= d <= |v.frames|
    ensures d < |v.frames| ==> Runnable(v, tasks, d)
    ensures forall k :: i <= k < d ==> !Runnable(v, tasks, k)
    decreases |v.frames| - i
  {
    if i == |v.frames| || Runnable(v, tasks, i) then i else Search(v, tasks, i + 1)
  }

  function Found(v: Table, tasks: map<Id, Task>): nat
    requires v.frames != []
  {
    Frame(v.clock, |v.frames|, Search(v, tasks, 0))
  }

  function Next(v: Table, tasks: map<Id, Task>): Id {
    if v.ready == 0 || v.frames == [] || v.frames[Found(v, tasks)].None? then v.idle
    else v.frames[Found(v, tasks)].value
  }

  function Take(v: Table, tasks: map<Id, Task>): Table {
    var id := Next(v, tasks);
    if v.ready == 0 || v.frames == [] || id !in v.threads then v
    else
      v.(clock := Found(v, tasks) + 1, ready := v.ready - 1,
         remaining := v.remaining[id := v.threads[id].timesliceTicks])
  }

  function Charge(v: Table, id: Id): Table
    requires id in v.remaining
  {
    v.(remaining := v.remaining[id := Pred(v.remaining[id])])
  }

  predicate Replace(v: Table, running: Id, kind: Kind)
    requires kind.Thread? ==> running in v.remaining
  {
    match kind
    case Thread => v.remaining[running] == 0 && v.ready > 0
    case Idle => v.ready > 0
    case Lsr => false
  }

  function Renew(v: Table, running: Id, kind: Kind): Table
    requires kind.Thread? ==> running in v.threads && running in v.remaining
  {
    if kind.Thread? && v.remaining[running] == 0 && v.ready == 0
    then v.(remaining := v.remaining[running := v.threads[running].timesliceTicks])
    else v
  }

  /** The frames of `id` below `low` are filled in. */
  ghost predicate ClaimedBelow(v: Table, id: Id, frames: seq<Option<Id>>, low: nat)
    requires id in v.threads
  {
    && |frames| == |v.frames|
    && forall f :: 0 <= f < |frames| ==> frames[f] == if f < low && Owns(v, id, f) then Some(id) else v.frames[f]
  }

  lemma AllClaimed(v: Table, id: Id, frames: seq<Option<Id>>, low: nat)
    requires id in v.threads && ClaimedBelow(v, id, frames, low)
    requires forall b :: low <= b < |frames| ==> !Bitmap.Has(v.threads[id].frameBmp, b)
    ensures frames == Claimed(v, id)
  {
  }

  lemma EnoughBits(v: Table, id: Id)
    requires Proper(v) && id in v.threads
    ensures 8 * |v.threads[id].frameBmp| >= |v.frames|
  {
  }

  lemma ClaimProper(v: Table, id: Id)
    requires Proper(v) && id in v.threads
    ensures Proper(Count(v, id))
  {
    var w := Count(v, id);
    forall x, f: nat | x in w.threads ensures Owns(w, x, f) <==> Owns(v, x, f) {
    }
    assert Registered(w);
    if id !in v.started {
      forall x, f: nat | x in w.started && Owns(w, x, f) ensures w.frames[f] == Some(x) {
        assert Owns(v, x, f);
        if x != id {
          assert !Owns(v, id, f);
        }
      }
    }
  }

  // ------------------------------------------------------------------------
  // The policy and the machine.

  ghost predicate Known(t: Task, v: Table, id: Id)
    requires id in v.threads && id in v.remaining
  {
    t.allot == v.threads[id].timesliceTicks && t.link == v.remaining[id]
  }

  ghost predicate Agrees(cfg: Config, m: Machine, v: Table) {
    && cfg.policy.Cyclic? && Wf(m) && m.idle == v.idle && !m.tasks[v.idle].kind.Thread?
    && v.remaining.Keys == v.threads.Keys
    && (forall id :: id in v.threads <==> id in m.tasks && m.tasks[id].kind.Thread?)
    && (forall id :: id in v.threads ==> Known(m.tasks[id], v, id))
    && ReadySet(m) <= v.started
    && v.ready == |ReadySet(m)|
  }

  /** A distance below the length of the table that leads from the clock to a frame. */
  lemma Reach(clock: nat, n: nat, f: nat) returns (i: nat)
    requires clock <= n && f < n
    ensures i < n && Frame(clock, n, i) == f
  {
    i := if f >= clock then f - clock else f + n - clock;
    assert clock + i == f || clock + i == f + n;
    Within(f, n);
    Around(f, n);
  }

  lemma Within(f: nat, n: nat)
    requires f < n
    ensures f % n == f
  {
  }

  lemma Around(f: nat, n: nat)
    requires f < n
    ensures (f + n) % n == f
  {
    assert (f + n) / n == 1;
  }

  lemma ReadyHasFrame(cfg: Config, m: Machine, v: Table, x: Id) returns (f: nat)
    requires Agrees(cfg, m, v) && Proper(v) && x in ReadySet(m)
    ensures f < |v.frames| && v.frames[f] == Some(x)
  {
    f :| Owns(v, x, f);
  }

  /** Frame `f` belongs to a thread that is ready. */
  predicate ReadyOwner(v: Table, tasks: map<Id, Task>, f: nat)
    requires f < |v.frames|
  {
    v.frames[f].Some? && v.frames[f].value in tasks && tasks[v.frames[f].value].state.Ready?
  }

  /** A frame is at the distance that its number and the clock's give. */
  lemma FrameAt(v: Table, tasks: map<Id, Task>, f: nat)
    requires v.clock <= |v.frames| && f < |v.frames|
    ensures var i := if f >= v.clock then f - v.clock else f + |v.frames| - v.clock;
      && i < |v.frames| && Frame(v.clock, |v.frames|, i) == f
      && (Runnable(v, tasks, i) <==> ReadyOwner(v, tasks, f))
  {
    Within(f, |v.frames|);
    Around(f, |v.frames|);
  }

  /**
   The pop takes the lowest frame with a ready owner at the clock or above it, and the lowest of all when there is none
   there; the clock moves on to the frame behind it.
   */
  lemma FoundFrame(v: Table, tasks: map<Id, Task>)
    requires v.frames != [] && v.clock <= |v.frames| && Search(v, tasks, 0) < |v.frames|
    ensures var f := Found(v, tasks);
      && ReadyOwner(v, tasks, f)
      && (if exists g :: v.clock <= g < |v.frames| && ReadyOwner(v, tasks, g)
          then v.clock <= f && forall g :: v.clock <= g < f ==> !ReadyOwner(v, tasks, g)
          else forall g :: 0 <= g < f ==> !ReadyOwner(v, tasks, g))
      && (v.ready > 0 && Next(v, tasks) in v.threads ==>
        v.frames[f] == Some(Next(v, tasks)) && Take(v, tasks).clock == f + 1)
  {
    hide Frame;
    var f := Found(v, tasks);
    FrameNumber(v.clock, |v.frames|, Search(v, tasks, 0));
    FrameAt(v, tasks, f);
    forall g | 0 <= g < |v.frames| && ReadyOwner(v, tasks, g)
      ensures if f >= v.clock then g < v.clock || f <= g else f <= g < v.clock
    {
      FrameAt(v, tasks, g);
    }
  }

  lemma FrameNumber(clock: nat, n: nat, i: nat)
    requires clock <= n && i < n
    ensures Frame(clock, n, i) == if clock + i < n then clock + i else clock + i - n
  {
    if clock + i < n {
      Within(clock + i, n);
    } else {
      Around(clock + i - n, n);
    }
  }

  /** How many frames the search goes over before it comes to frame `f`. */
  function Distance(v: Table, f: nat): int {
    if f >= v.clock then f - v.clock else f + |v.frames| - v.clock
  }

  /** A pop that does not take the ready owner of frame `f` brings the clock nearer to that frame. */
  lemma TakeNearer(v: Table, tasks: map<Id, Task>, f: nat)
    requires v.frames != [] && v.clock <= |v.frames| && Search(v, tasks, 0) < |v.frames| && v.ready > 0
    requires Next(v, tasks) in v.threads && f < |v.frames| && ReadyOwner(v, tasks, f)
    requires v.frames[f] != Some(Next(v, tasks))
    ensures 0 <= Distance(Take(v, tasks), f) < Distance(v, f)
    ensures Take(v, tasks).frames == v.frames && Take(v, tasks).threads == v.threads
  {
    FoundFrame(v, tasks);
    hide Found, Search, Next;
  }

  /** As long as a thread is ready, the search comes to a frame whose owner is. */
  lemma SearchFinds(cfg: Config, m: Machine, v: Table)
    requires Agrees(cfg, m, v) && Proper(v) && ReadySet(m) != {}
    ensures v.frames != [] && Search(v, m.tasks, 0) < |v.frames| && Next(v, m.tasks) in ReadySet(m)
  {
    hide Frame, Known;
    var x :| x in ReadySet(m);
    var f := ReadyHasFrame(cfg, m, v, x);
    var i := Reach(v.clock, |v.frames|, f);
    assert Runnable(v, m.tasks, i);
    var d := Search(v, m.tasks, 0);
    assert Runnable(v, m.tasks, d);
    OwnersAreThreads(cfg, m, v, Frame(v.clock, |v.frames|, d));
  }

  lemma OwnersAreThreads(cfg: Config, m: Machine, v: Table, f: nat)
    requires Agrees(cfg, m, v) && Proper(v) && f < |v.frames| && v.frames[f].Some?
    ensures v.frames[f].value in m.tasks && m.tasks[v.frames[f].value].kind.Thread?
    ensures |ReadySet(m)| == 0 <==> ReadySet(m) == {}
  {
  }

  lemma NextAnswers(cfg: Config, m: Machine, v: Table)
    requires Agrees(cfg, m, v) && Proper(v)
    ensures NextOk(cfg, Exact, m, Next(v, m.tasks))
  {
    if ReadySet(m) != {} {
      SearchFinds(cfg, m, v);
    }
  }

  lemma ReplaceAnswers(cfg: Config, m: Machine, v: Table, running: Id)
    requires Agrees(cfg, m, v) && m.running == Some(running) && !m.tasks[running].kind.Lsr?
    ensures Replace(v, running, m.tasks[running].kind) == Wants(cfg, m)
  {
    assert m.tasks[running].kind.Thread? ==> Known(m.tasks[running], v, running);
  }

  /** A step of the machine that touches one thread, as the policy sees it. */
  lemma OneTask(cfg: Config, m: Machine, n: Machine, v: Table, w: Table, id: Id)
    requires Agrees(cfg, m, v) && Wf(n) && n.idle == m.idle && n.tasks.Keys == m.tasks.Keys && id in v.threads
    requires forall x :: x in m.tasks && x != id ==> n.tasks[x] == m.tasks[x]
    requires n.tasks[id].kind.Thread? && n.tasks[id].allot == m.tasks[id].allot
    requires w.idle == v.idle && w.threads == v.threads && v.started <= w.started
    requires w.remaining == v.remaining[id := n.tasks[id].link]
    requires n.tasks[id].state.Ready? ==> id in w.started
    requires w.ready - v.ready ==
      (if n.tasks[id].state.Ready? then 1 else 0) - (if m.tasks[id].state.Ready? then 1 else 0)
    ensures Agrees(cfg, n, w)
  {
    forall x | x in v.threads ensures Known(n.tasks[x], w, x) {
      assert Known(m.tasks[x], v, x);
    }
    ReadyChange(m, n, id);
  }

  lemma ReadyChange(m: Machine, n: Machine, id: Id)
    requires n.tasks.Keys == m.tasks.Keys && id in m.tasks && m.tasks[id].kind.Thread? && n.tasks[id].kind.Thread?
    requires forall x :: x in m.tasks && x != id ==> n.tasks[x] == m.tasks[x]
    ensures ReadySet(n) == if n.tasks[id].state.Ready? then ReadySet(m) + {id} else ReadySet(m) - {id}
    ensures |ReadySet(n)| - |ReadySet(m)| ==
      (if n.tasks[id].state.Ready? then 1 else 0) - (if m.tasks[id].state.Ready? then 1 else 0)
  {
    var rest := ReadySet(m) - {id};
    assert ReadySet(m) == if m.tasks[id].state.Ready? then rest + {id} else rest;
    assert ReadySet(n) == if n.tasks[id].state.Ready? then rest + {id} else rest;
  }

  /** The count keeps up with the threads that become ready. */
  lemma CountAgrees(cfg: Config, m: Machine, v: Table, id: Id)
    requires Agrees(cfg, m, v) && Proper(v) && id in v.threads && !m.tasks[id].state.Ready?
    ensures Agrees(cfg, Put(m, id, Enter(cfg, m.tasks[id], Ready)), Count(v, id)) && Proper(Count(v, id))
  {
    hide Proper, Registered, Claimed, ReadySet;
    assert Known(m.tasks[id], v, id);
    ClaimProper(v, id);
    assert v.remaining == v.remaining[id := m.tasks[id].link];
    OneTask(cfg, m, Put(m, id, Enter(cfg, m.tasks[id], Ready)), v, Count(v, id), id);
  }

  /** The count, the clock and the timeslice after a pop go with the machine's dispatch. */
  lemma TakeAgrees(cfg: Config, m: Machine, v: Table)
    requires Agrees(cfg, m, v) && Proper(v)
    ensures Next(v, m.tasks) in m.tasks
    ensures Agrees(cfg, Dispatch(cfg, m, Next(v, m.tasks)), Take(v, m.tasks)) && Proper(Take(v, m.tasks))
  {
    TakeProper(v, m.tasks);
    if ReadySet(m) == {} {
      DispatchIs(cfg, m, v.idle);
      TakeIdle(cfg, m, v);
    } else {
      SearchFinds(cfg, m, v);
      DispatchIs(cfg, m, Next(v, m.tasks));
      hide Proper, Dispatch;
      TakeThread(cfg, m, v);
    }
  }

  lemma TakeIdle(cfg: Config, m: Machine, v: Table)
    requires Agrees(cfg, m, v) && ReadySet(m) == {}
    ensures Next(v, m.tasks) == v.idle && Take(v, m.tasks) == v
    ensures Agrees(cfg, Put(m, v.idle, m.tasks[v.idle].(state := Running)).(running := Some(v.idle)), v)
  {
    var n := Put(m, v.idle, m.tasks[v.idle].(state := Running)).(running := Some(v.idle));
    assert ReadySet(n) == {};
    forall x | x in v.threads ensures Known(n.tasks[x], v, x) {
      assert Known(m.tasks[x], v, x);
    }
  }

  lemma TakeThread(cfg: Config, m: Machine, v: Table)
    requires Agrees(cfg, m, v) && v.frames != [] && Next(v, m.tasks) in ReadySet(m)
    ensures var id := Next(v, m.tasks);
      Agrees(cfg, Put(m, id, Popped(cfg, m.tasks[id]).(state := Running)).(running := Some(id)), Take(v, m.tasks))
  {
    hide Found, Search;
    var id := Next(v, m.tasks);
    assert Known(m.tasks[id], v, id);
    assert v.ready > 0;
    var n := Put(m, id, Popped(cfg, m.tasks[id]).(state := Running)).(running := Some(id));
    OneTask(cfg, m, n, v, Take(v, m.tasks), id);
  }

  lemma TakeProper(v: Table, tasks: map<Id, Task>)
    requires Proper(v)
    ensures Proper(Take(v, tasks))
  {
    var w := Take(v, tasks);
    assert forall x, f: nat :: x in w.threads ==> (Owns(w, x, f) <==> Owns(v, x, f));
  }

  /** What a pop takes, and what it leaves. */
  lemma TakeIs(v: Table, tasks: map<Id, Task>)
    requires Proper(v) && (v.ready > 0 ==> v.frames != [] && Search(v, tasks, 0) < |v.frames|)
    ensures v.ready == 0 ==> Next(v, tasks) == v.idle && Take(v, tasks) == v
    ensures v.ready > 0 ==>
      var f := Found(v, tasks);
      && v.frames[f] == Some(Next(v, tasks)) && Next(v, tasks) in v.threads
      && Take(v, tasks) == v.(clock := f + 1, ready := v.ready - 1,
           remaining := v.remaining[Next(v, tasks) := v.threads[Next(v, tasks)].timesliceTicks])
  {
    hide Frame;
    if v.ready > 0 {
      assert Runnable(v, tasks, Search(v, tasks, 0));
    }
  }

  /** A charged thread has one tick of its timeslice less; `t` is the thread as the tick machine charges it. */
  lemma ChargeAgrees(cfg: Config, m: Machine, v: Table, id: Id, t: Task)
    requires Agrees(cfg, m, v) && id in v.threads && t.kind.Thread? && t.link == m.tasks[id].link
    ensures Agrees(cfg, Put(m, id, m.tasks[id].(link := Callback(cfg, t).link)), Charge(v, id))
  {
    assert Known(m.tasks[id], v, id);
    OneTask(cfg, m, Put(m, id, m.tasks[id].(link := Callback(cfg, t).link)), v, Charge(v, id), id);
  }

  lemma RenewAgrees(cfg: Config, m: Machine, v: Table, running: Id)
    requires Agrees(cfg, m, v) && m.running == Some(running) && !m.tasks[running].kind.Lsr?
    ensures var kind := m.tasks[running].kind;
      Agrees(cfg, if Replace(v, running, kind) then m else Keep(cfg, m), Renew(v, running, kind))
  {
    if m.tasks[running].kind.Thread? {
      assert Known(m.tasks[running], v, running);
      if v.remaining[running] == 0 && v.ready == 0 {
        OneTask(cfg, m, Keep(cfg, m), v, Renew(v, running, Thread), running);
      }
    }
  }

  /** A task that the policy has nothing to do with joins the processor. */
  lemma OtherJoins(cfg: Config, m: Machine, v: Table, id: Id, t: Task)
    requires Agrees(cfg, m, v) && id !in m.tasks && !t.kind.Thread?
    ensures Agrees(cfg, Put(m, id, t), v)
  {
    var n := Put(m, id, t);
    forall x | x in v.threads ensures Known(n.tasks[x], v, x) {
      assert Known(m.tasks[x], v, x);
    }
    assert ReadySet(n) == ReadySet(m);
  }

  /** The bitmap of the frames that accepted threads have taken. */
  ghost predicate Claims(v: Table, bits: seq<bv8>) {
    && 8 * |bits| >= |v.frames|
    && forall f: nat :: f < |v.frames| ==> (Bitmap.Has(bits, f) <==> exists a :: a in v.threads && Owns(v, a, f))
  }

  lemma SameClaims(v: Table, w: Table, bits: seq<bv8>)
    requires Claims(v, bits) && w.threads == v.threads && |w.frames| == |v.frames|
    ensures Claims(w, bits)
  {
    assert forall a, f: nat :: a in v.threads ==> (Owns(w, a, f) <==> Owns(v, a, f));
  }

  /** What the registration checks is what the policy needs. */
  lemma RegisterAccepts(v: Table, was: seq<bv8>, id: Id, p: Param)
    requires Claims(v, was) && id !in v.threads && p.timesliceTicks > 0
    ensures Accepts(v, id, p) <==>
      && (exists f :: 0 <= f < |v.frames| && Bitmap.Has(p.frameBmp, f))
      && (forall f :: 0 <= f < |v.frames| && Bitmap.Has(p.frameBmp, f) ==> !Bitmap.Has(was, f))
  {
    hide Bitmap.Has;
  }

  lemma RegisterClaims(v: Table, was: seq<bv8>, bits: seq<bv8>, id: Id, p: Param, ok: bool)
    requires Claims(v, was) && id !in v.threads && |bits| == |was|
    requires forall f :: 0 <= f < |v.frames| ==>
      (Bitmap.Has(bits, f) <==> Bitmap.Has(was, f) || (ok && Bitmap.Has(p.frameBmp, f)))
    ensures Claims(if ok then Admitted(v, id, p) else v, bits)
  {
    hide Bitmap.Has;
    forall f: nat, a | f < |v.frames| && a in Admitted(v, id, p).threads
      ensures Owns(Admitted(v, id, p), a, f) <==>
        if a == id then Bitmap.Has(p.frameBmp, f) else a in v.threads && Owns(v, a, f)
    {
      AdmittedOwns(v, id, p, a, f);
    }
    hide Owns;
    if ok {
      var w := Admitted(v, id, p);
      forall f: nat | f < |v.frames|
        ensures Bitmap.Has(bits, f) <==> exists a :: a in w.threads && Owns(w, a, f)
      {
        assert Bitmap.Has(p.frameBmp, f) ==> id in w.threads && Owns(w, id, f);
        if Bitmap.Has(was, f) {
          var a :| a in v.threads && Owns(v, a, f);
          assert Owns(w, a, f);
        }
      }
    }
  }

  lemma AdmittedOwns(v: Table, id: Id, p: Param, x: Id, f: nat)
    requires id !in v.threads && x in Admitted(v, id, p).threads
    ensures Owns(Admitted(v, id, p), x, f) <==>
      if x == id then f < |v.frames| && Bitmap.Has(p.frameBmp, f) else x in v.threads && Owns(v, x, f)
  {
  }

  lemma AdmittedRegistered(v: Table, id: Id, p: Param)
    requires Registered(v) && Accepts(v, id, p) && 8 * |p.frameBmp| >= |v.frames|
    ensures Registered(Admitted(v, id, p))
  {
    var w := Admitted(v, id, p);
    forall x, f: nat | x in w.threads
      ensures Owns(w, x, f) <==>
        if x == id then f < |v.frames| && Bitmap.Has(p.frameBmp, f) else x in v.threads && Owns(v, x, f)
    {
      AdmittedOwns(v, id, p, x, f);
    }
    hide Owns, Bitmap.Has;
    forall x | x in w.threads ensures exists f: nat :: Owns(w, x, f) {
      if x == id {
        var f: nat :| f < |v.frames| && Bitmap.Has(p.frameBmp, f);
        assert Owns(w, x, f);
      } else {
        var f: nat :| Owns(v, x, f);
        assert Owns(w, x, f);
      }
    }
    forall a, b, f: nat | a in w.threads && b in w.threads && Owns(w, a, f) && Owns(w, b, f) ensures a == b {
      assert a in v.threads ==> (Owns(v, a, f) <==> a != id && Owns(w, a, f));
    }
  }

  lemma AdmittedProper(v: Table, id: Id, p: Param)
    requires Proper(v) && Accepts(v, id, p) && 8 * |p.frameBmp| >= |v.frames|
    ensures Proper(Admitted(v, id, p))
  {
    var w := Admitted(v, id, p);
    AdmittedRegistered(v, id, p);
    forall x, f: nat | x in w.started && Owns(w, x, f) ensures w.frames[f] == Some(x) {
      AdmittedOwns(v, id, p, x, f);
    }
    hide Owns, Registered, Accepts;
  }

  /** A thread joins: ready, counted, with its frames filled in and its timeslice still to be given. */
  lemma JoinAgrees(cfg: Config, m: Machine, v: Table, id: Id, p: Param, t: Task)
    requires Agrees(cfg, m, v) && Proper(v) && id !in m.tasks && Accepts(v, id, p) && 8 * |p.frameBmp| >= |v.frames|
    requires t.kind.Thread? && t.state.Ready? && t.allot == p.timesliceTicks && t.link == 0
    ensures Agrees(cfg, Put(m, id, t), Joined(v, id, p)) && Proper(Joined(v, id, p))
  {
    hide Proper, Accepts, Joined, ReadySet;
    JoinProper(v, id, p);
    JoinedReady(m, id, t);
    forall x | x in Joined(v, id, p).threads
      ensures Known(Put(m, id, t).tasks[x], Joined(v, id, p), x)
    {
      JoinedKnown(cfg, m, v, id, p, t, x);
    }
  }

  lemma JoinProper(v: Table, id: Id, p: Param)
    requires Proper(v) && Accepts(v, id, p) && 8 * |p.frameBmp| >= |v.frames|
    ensures Proper(Joined(v, id, p))
  {
    AdmittedProper(v, id, p);
    ClaimProper(Admitted(v, id, p), id);
  }

  lemma JoinedReady(m: Machine, id: Id, t: Task)
    requires id !in m.tasks && t.kind.Thread? && t.state.Ready?
    ensures ReadySet(Put(m, id, t)) == ReadySet(m) + {id} && id !in ReadySet(m)
  {
  }

  lemma JoinedKnown(cfg: Config, m: Machine, v: Table, id: Id, p: Param, t: Task, x: Id)
    requires Agrees(cfg, m, v) && (x == id || x in v.threads)
    requires t.allot == p.timesliceTicks && t.link == 0
    ensures x in Joined(v, id, p).remaining && x in Joined(v, id, p).threads
    ensures Known(Put(m, id, t).tasks[x], Joined(v, id, p), x)
  {
    assert x != id ==> Known(m.tasks[x], v, x);
  }

  /** The policy cannot tell apart machines that look the same to it. */
  lemma SameAgrees(cfg: Config, m: Machine, n: Machine, v: Table)
    requires Agrees(cfg, m, v) && SameFace(m, n) && Wf(n)
    ensures Agrees(cfg, n, v)
  {
    SameReady(m, n);
    forall x | x in m.tasks ensures Alike(m.tasks[x], n.tasks[x]) {
    }
    forall x | x in v.threads ensures Known(n.tasks[x], v, x) {
      assert Known(m.tasks[x], v, x);
    }
  }

  // ------------------------------------------------------------------------
  // The data structure.

  class Scheduler {
    const idle: Id
    var threads: map<Id, Param>
    const frames: array<Option<Id>>
    var clock: nat
    var numReadyThreads: nat
    var started: set<Id>
    var remaining: map<Id, nat>

    ghost function View(): Table
      reads this, frames
    {
      Table(idle, threads, frames[..], clock, numReadyThreads, started, remaining)
    }

    ghost predicate Valid()
      reads this, frames
    {
      Proper(View())
    }

    constructor (idle: Id, numFrames: nat)
      ensures Valid() && View() == Table(idle, map[], seq(numFrames, _ => None), 0, 0, {}, map[])
      ensures fresh(frames)
    {
      this.idle, threads, remaining := idle, map[], map[];
      frames := new Option<Id>[numFrames](_ => None);
      clock, numReadyThreads, started := 0, 0, {};
    }

    /** The first time a thread is pushed it takes over its frames. */
    method Claim(id: Id)
      requires id in threads && 8 * |threads[id].frameBmp| >= frames.Length
      modifies frames
      ensures frames[..] == old(Claimed(View(), id))
    {
      ghost var was := View();
      hide Bitmap.Has, Claimed;
      var bmp := threads[id].frameBmp;
      var low := 0;
      var bit := Bitmap.Ffs(bmp, frames.Length, low);
      while bit != -1
        invariant 0 <= low <= frames.Length
        invariant bit == -1 || low <= bit < frames.Length
        invariant bit == -1 ==> forall b :: low <= b < frames.Length ==> !Bitmap.Has(bmp, b)
        invariant bit != -1 ==> Bitmap.Has(bmp, bit) && forall b :: low <= b < bit ==> !Bitmap.Has(bmp, b)
        invariant ClaimedBelow(was, id, frames[..], low)
        decreases frames.Length - low
      {
        frames[bit] := Some(id);
        low := bit + 1;
        bit := Bitmap.Ffs(bmp, frames.Length, low);
      }
      AllClaimed(was, id, frames[..], low);
    }

    /** `kSchedTaskPushCyclic` on a thread. */
    method Push(id: Id)
      requires Valid() && id in threads
      modifies this`numReadyThreads, this`started, frames
      ensures Valid() && View() == Count(old(View()), id)
    {
      hide Claimed, Proper, Owns;
      ClaimProper(View(), id);
      EnoughBits(View(), id);
      ghost var w := Count(View(), id);
      if id !in started {
        Claim(id);
      }
      assert frames[..] == w.frames;
      started := started + {id};
      numReadyThreads := numReadyThreads + 1;
      assert View() == w;
    }

    /**
     The policy's part of `kPluginInitTaskThread`: its checks against the frames taken so far, its parameters, and the
     push.
     */
    method Join(taken: array<bv8>, id: Id, p: Param) returns (ok: bool)
      requires Valid() && Claims(View(), taken[..]) && (taken as object) != (frames as object)
      requires id !in threads && 8 * |p.frameBmp| >= frames.Length
      modifies this`threads, this`remaining, this`numReadyThreads, this`started, frames, taken
      ensures Valid() && Claims(View(), taken[..]) && ok == Accepts(old(View()), id, p)
      ensures View() == if ok then Joined(old(View()), id, p) else old(View())
    {
      if p.timesliceTicks == 0 {
        return false;
      }
      ghost var v, was := View(), taken[..];
      ok := Register(taken, p.frameBmp, frames.Length);
      RegisterAccepts(v, was, id, p);
      RegisterClaims(v, was, taken[..], id, p, ok);
      if ok {
        AdmittedProper(v, id, p);
        threads, remaining := threads[id := p], remaining[id := 0];
        assert View() == Admitted(v, id, p);
        Push(id);
        SameClaims(Admitted(v, id, p), View(), taken[..]);
      }
    }

    /** The search of `kSchedTaskPopCyclic`; `tasks` are the tasks of the kernel, whose states it looks at. */
    method Find(tasks: map<Id, Task>) returns (frame: nat)
      requires frames.Length > 0 && Search(View(), tasks, 0) < frames.Length
      ensures frame == Found(View(), tasks) && frame < frames.Length && frames[frame].Some?
    {
      hide Frame;
      var i := 0;
      while i < frames.Length
        invariant 0 <= i <= frames.Length
        invariant Search(View(), tasks, 0) == Search(View(), tasks, i)
      {
        frame := Frame(clock, frames.Length, i);
        if frames[frame].Some? {
          var owner := frames[frame].value;
          if owner in tasks && tasks[owner].state.Ready? {
            return;
          }
        }
        i := i + 1;
      }
      assert false;
    }

    /** `kSchedTaskPopCyclic` */
    method Pop(tasks: map<Id, Task>) returns (next: Id)
      requires Valid()
      requires numReadyThreads > 0 ==> frames.Length > 0 && Search(View(), tasks, 0) < frames.Length
      modifies this`clock, this`numReadyThreads, this`remaining
      ensures Valid() && next == Next(old(View()), tasks) && View() == Take(old(View()), tasks)
    {
      hide Proper, Found, Take, Search, Next;
      ghost var v := View();
      TakeProper(v, tasks);
      TakeIs(v, tasks);
      if numReadyThreads == 0 {
        return idle;
      }
      var frame := Find(tasks);
      next := frames[frame].value;
      remaining := remaining[next := threads[next].timesliceTicks];
      clock := frame + 1;
      numReadyThreads := numReadyThreads - 1;
      assert View() == Take(v, tasks);
    }

    /** `kSchedTaskTickCallbackCyclic` on a thread. */
    method TickCallback(id: Id)
      requires Valid() && id in threads
      modifies this`remaining
      ensures Valid() && View() == Charge(old(View()), id)
    {
      remaining := remaining[id := Pred(remaining[id])];
      SameOwners(old(View()), View());
    }

    /** `kSchedShouldRescheduleCyclic` */
    method ShouldReschedule(running: Id, kind: Kind) returns (ret: bool)
      requires Valid() && (kind.Thread? ==> running in threads)
      modifies this`remaining
      ensures ret == Replace(old(View()), running, kind)
      ensures Valid() && View() == Renew(old(View()), running, kind)
    {
      ret := false;
      match kind {
        case Thread =>
          if remaining[running] == 0 {
            if numReadyThreads == 0 {
              remaining := remaining[running := threads[running].timesliceTicks];
            } else {
              ret := true;
            }
          }
        case Idle => ret := numReadyThreads > 0;
        case Lsr =>
      }
      SameOwners(old(View()), View());
    }
  }

  lemma SameOwners(v: Table, w: Table)
    requires Proper(v) && w.remaining.Keys == v.remaining.Keys && w == v.(remaining := w.remaining)
    ensures Proper(w)
  {
    assert forall x, f: nat :: x in w.threads ==> (Owns(w, x, f) <==> Owns(v, x, f));
  }

  /**
   The frame check of `kPluginInitTaskThread`: a thread is accepted when it has a frame and no frame of a thread
   accepted before it on the same processor.
   */
  method Register(taken: array<bv8>, bmp: seq<bv8>, numFrames: nat) returns (ok: bool)
    requires numFrames <= 8 * |bmp| && numFrames <= 8 * taken.Length
    modifies taken
    ensures ok <==>
      && (exists f :: 0 <= f < numFrames && Bitmap.Has(bmp, f))
      && (forall f :: 0 <= f < numFrames && Bitmap.Has(bmp, f) ==> !Bitmap.Has(old(taken[..]), f))
    ensures forall f :: 0 <= f < numFrames ==>
      (Bitmap.Has(taken[..], f) <==> Bitmap.Has(old(taken[..]), f) || (ok && Bitmap.Has(bmp, f)))
  {
    hide Bitmap.Has;
    var first := Bitmap.Ffs(bmp, numFrames, 0);
    if first < 0 {
      return false;
    }
    var low := 0;
    var bit := first;
    while bit != -1
      invariant 0 <= low <= numFrames && (bit == -1 || (low <= bit < numFrames && Bitmap.Has(bmp, bit)))
      invariant bit == -1 ==> forall b :: low <= b < numFrames ==> !Bitmap.Has(bmp, b)
      invariant bit != -1 ==> forall b :: low <= b < bit ==> !Bitmap.Has(bmp, b)
      invariant taken[..] == old(taken[..])
      invariant forall f :: 0 <= f < low && Bitmap.Has(bmp, f) ==> !Bitmap.Has(taken[..], f)
      decreases numFrames - low
    {
      if Bitmap.Has(taken[..], bit) {
        return false;
      }
      low := bit + 1;
      bit := Bitmap.Ffs(bmp, numFrames, low);
    }
    low := 0;
    bit := Bitmap.Ffs(bmp, numFrames, low);
    while bit != -1
      invariant 0 <= low <= numFrames && (bit == -1 || (low <= bit < numFrames && Bitmap.Has(bmp, bit)))
      invariant bit == -1 ==> forall b :: low <= b < numFrames ==> !Bitmap.Has(bmp, b)
      invariant bit != -1 ==> forall b :: low <= b < bit ==> !Bitmap.Has(bmp, b)
      invariant forall f :: 0 <= f < numFrames ==>
        (Bitmap.Has(taken[..], f) <==> Bitmap.Has(old(taken[..]), f) || (f < low && Bitmap.Has(bmp, f)))
      decreases numFrames - low
    {
      Bitmap.Set(taken, bit);
      low := bit + 1;
      bit := Bitmap.Ffs(bmp, numFrames, low);
    }
    return true;
  }
}
