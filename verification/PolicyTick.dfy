/**
 A tick as the scheduling policy sees it: the transition callback, and then one call for every thread that is charged
 and one for every thread that becomes ready, in whatever order the chains and the stack of the tick machine yield them
 (src/workhorse/kTick/kTick.c:540-562).
 */
module PolicyTick {
  import opened Tasks
  import opened TickSpec
  import opened TickInv
  import opened ThreadView
  import opened PolicyRuns
  import opened PolicyFace
  import Policies

  datatype Call = OnTick(id: Id) | OnReady(id: Id)

  /** The thread as the tick callback is handed it: charged, but still in the state it took the tick in. */
  function Billed(cfg: Config, t: Task): Task {
    var left := if t.state.DefThrottle? then 0 else Pred(t.current);
    t.(current := if left == 0 && !t.state.DefSleep? && !ShouldThrottle(cfg, t) then t.budget else left)
  }

  predicate Wakes(cfg: Config, t: Task) {
    !t.state.Ready? && TickTask(cfg, t).state.Ready?
  }

  /** The calls a tick makes about one thread. */
  function Calls(cfg: Config, t: Task, id: Id): seq<Call> {
    (if Charged(t) then [OnTick(id)] else []) + (if Wakes(cfg, t) then [OnReady(id)] else [])
  }

  function About(calls: seq<Call>, id: Id): seq<Call> {
    if calls == [] then [] else (if calls[0].id == id then [calls[0]] else []) + About(calls[1..], id)
  }

  /** A sequence of calls that a tick of this machine can make. */
  ghost predicate Script(cfg: Config, m: Machine, calls: seq<Call>) {
    forall id :: id in m.tasks && m.tasks[id].kind.Thread? ==> About(calls, id) == Calls(cfg, m.tasks[id], id)
  }

  /** The policy after one call about the thread that was `t` when the tick began. */
  ghost function Called(cfg: Config, s: Policies.Sched, call: Call, t: Task): Policies.Sched {
    if call.OnTick? then Policies.Charged(cfg, s, call.id, Billed(cfg, t)) else Policies.Pushed(s, call.id)
  }

  ghost function Play(cfg: Config, m: Machine, s: Policies.Sched, calls: seq<Call>): Policies.Sched
    decreases calls
  {
    if calls == [] then s
    else if calls[0].id !in m.tasks then Play(cfg, m, s, calls[1..])
    else Play(cfg, m, Called(cfg, s, calls[0], m.tasks[calls[0].id]), calls[1..])
  }

  // ------------------------------------------------------------------------
  // One thread.

  predicate Suffix(a: seq<Call>, calls: seq<Call>) {
    a == [] || a == calls || (calls != [] && a == calls[1..])
  }

  /** The thread when the calls in `rest` are still to come. */
  function FaceAt(cfg: Config, t: Task, id: Id, rest: seq<Call>): Task {
    if rest == Calls(cfg, t, id) then Transition(cfg, t)
    else if rest == [] then TickTask(cfg, t)
    else t.(link := Callback(cfg, Billed(cfg, t)).link)
  }

  function Answer(cfg: Config, t: Task, f: Task, call: Call): Task {
    if call.OnTick? then f.(link := Callback(cfg, Billed(cfg, t)).link) else Enter(cfg, f, Ready)
  }

  /** The calls about a thread account for all that a tick does to it in the eyes of the policy. */
  predicate Accounted(cfg: Config, t: Task) {
    var r := TickTask(cfg, t);
    && (!Charged(t) && !Wakes(cfg, t) ==> Alike(Transition(cfg, t), r))
    && (!Charged(t) && Wakes(cfg, t) ==> Alike(Enter(cfg, t, Ready), r))
    && (Charged(t) ==>
      var paid := t.(link := Callback(cfg, Billed(cfg, t)).link);
      Alike(if Wakes(cfg, t) then Enter(cfg, paid, Ready) else paid, r))
  }

  lemma NoTransition(cfg: Config, t: Task)
    ensures !t.state.Ready? ==> Transition(cfg, t) == t
  {
  }

  lemma ReadyFace(cfg: Config, t: Task)
    requires TaskOk(cfg, t, false) && t.kind.Thread? && t.state.Ready?
    ensures Accounted(cfg, t)
  {
    hide Callback;
  }

  lemma RunningFace(cfg: Config, t: Task)
    requires TaskOk(cfg, t, false) && t.kind.Thread? && t.state.Running?
    ensures Accounted(cfg, t)
  {
    hide Callback, Transition, Wake, Push;
    NoTransition(cfg, t);
  }

  lemma DeferredFace(cfg: Config, t: Task)
    requires TaskOk(cfg, t, false) && t.kind.Thread? && Deferred(t.state)
    ensures Accounted(cfg, t)
  {
    hide Callback, Transition;
    NoTransition(cfg, t);
  }

  lemma AwayFace(cfg: Config, t: Task)
    requires TaskOk(cfg, t, false) && t.kind.Thread?
    requires !t.state.Ready? && !t.state.Running? && !Deferred(t.state)
    ensures Accounted(cfg, t)
  {
    hide Callback, Transition;
    NoTransition(cfg, t);
  }

  lemma TickFace(cfg: Config, t: Task)
    requires TaskOk(cfg, t, false) && t.kind.Thread?
    ensures Accounted(cfg, t)
  {
    hide TickTask, Accounted;
    if t.state.Ready? {
      ReadyFace(cfg, t);
    } else if t.state.Running? {
      RunningFace(cfg, t);
    } else if Deferred(t.state) {
      DeferredFace(cfg, t);
    } else {
      AwayFace(cfg, t);
    }
  }

  /** One call takes the thread from one stage to the next. */
  lemma CallFace(cfg: Config, t: Task, id: Id, rest: seq<Call>)
    requires TaskOk(cfg, t, false) && t.kind.Thread? && LinkOk(cfg, t)
    requires rest != [] && Suffix(rest, Calls(cfg, t, id))
    ensures var f := FaceAt(cfg, t, id, rest);
      && f.kind.Thread? && !f.state.Ready?
      && (rest[0].OnTick? ==>
        Billed(cfg, t).kind.Thread? && Billed(cfg, t).allot == f.allot && Billed(cfg, t).link == f.link > 0)
      && Alike(Answer(cfg, t, f, rest[0]), FaceAt(cfg, t, id, rest[1..]))
  {
    hide TickTask, Callback, Transition, TaskOk, Enter;
    TickFace(cfg, t);
    NoTransition(cfg, t);
    var calls := Calls(cfg, t, id);
    assert if |calls| == 2 then calls == [OnTick(id), OnReady(id)] else |calls| == 1 && rest == calls;
    assert rest[1..] == if |rest| == 2 then [OnReady(id)] else [];
  }

  /** When all calls have been made, the thread is as the tick leaves it. */
  lemma LastFace(cfg: Config, t: Task, id: Id)
    requires TaskOk(cfg, t, false) && t.kind.Thread?
    ensures Alike(FaceAt(cfg, t, id, []), TickTask(cfg, t))
  {
    hide TickTask, Callback, Transition, TaskOk, Enter;
    TickFace(cfg, t);
  }

  // ------------------------------------------------------------------------
  // All tasks.

  /** The machine in the policy's eyes when the calls in `rest` are still to come. */
  function Staged(cfg: Config, m: Machine, rest: seq<Call>): (r: Machine)
    requires Wf(m)
    ensures Wf(r) && r.tasks.Keys == m.tasks.Keys && r == m.(tasks := r.tasks)
    ensures forall id :: id in m.tasks && !m.tasks[id].kind.Thread? ==> r.tasks[id] == m.tasks[id]
  {
    m.(tasks := map id | id in m.tasks ::
      if m.tasks[id].kind.Thread? then FaceAt(cfg, m.tasks[id], id, About(rest, id)) else m.tasks[id])
  }

  /** What is left of a script once some of its calls have been made. */
  ghost predicate Remains(cfg: Config, m: Machine, rest: seq<Call>) {
    forall id :: id in m.tasks && m.tasks[id].kind.Thread? ==> RemainsAt(cfg, m.tasks[id], id, rest)
  }

  predicate RemainsAt(cfg: Config, t: Task, id: Id, rest: seq<Call>) {
    Suffix(About(rest, id), Calls(cfg, t, id))
  }

  lemma {:induction false} AboutOnly(calls: seq<Call>, id: Id)
    ensures forall i :: 0 <= i < |About(calls, id)| ==> About(calls, id)[i].id == id
  {
    if calls != [] {
      AboutOnly(calls[1..], id);
    }
  }

  lemma RemainsOn(cfg: Config, m: Machine, rest: seq<Call>)
    requires Remains(cfg, m, rest) && rest != []
    ensures Remains(cfg, m, rest[1..])
  {
    forall id | id in m.tasks && m.tasks[id].kind.Thread? ensures RemainsAt(cfg, m.tasks[id], id, rest[1..]) {
      assert RemainsAt(cfg, m.tasks[id], id, rest);
      assert |Calls(cfg, m.tasks[id], id)| <= 2;
    }
  }

  /** In the policy's eyes one call is one step of the thread it is about. */
  lemma StagedNext(cfg: Config, m: Machine, rest: seq<Call>)
    requires Wf(m) && rest != [] && rest[0].id in m.tasks && m.tasks[rest[0].id].kind.Thread?
    requires TaskOk(cfg, m.tasks[rest[0].id], false) && LinkOk(cfg, m.tasks[rest[0].id])
    requires RemainsAt(cfg, m.tasks[rest[0].id], rest[0].id, rest)
    ensures var id := rest[0].id;
      var t, f := m.tasks[id], Staged(cfg, m, rest).tasks[id];
      && f.kind.Thread? && !f.state.Ready?
      && (rest[0].OnTick? ==>
        Billed(cfg, t).kind.Thread? && Billed(cfg, t).allot == f.allot && Billed(cfg, t).link == f.link > 0)
      && SameFace(Put(Staged(cfg, m, rest), id, Answer(cfg, t, f, rest[0])), Staged(cfg, m, rest[1..]))
  {
    hide TaskOk, LinkOk, FaceAt, Answer, Billed, Calls, Suffix;
    var id := rest[0].id;
    CallFace(cfg, m.tasks[id], id, About(rest, id));
    assert About(rest, id)[0] == rest[0] && About(rest, id)[1..] == About(rest[1..], id);
    StagedOthers(cfg, m, rest);
  }

  lemma StagedOthers(cfg: Config, m: Machine, rest: seq<Call>)
    requires Wf(m) && rest != []
    ensures forall x :: x in m.tasks && (x != rest[0].id || !m.tasks[x].kind.Thread?) ==>
      Staged(cfg, m, rest[1..]).tasks[x] == Staged(cfg, m, rest).tasks[x]
  {
    hide FaceAt;
    forall x | x in m.tasks && (x != rest[0].id || !m.tasks[x].kind.Thread?)
      ensures Staged(cfg, m, rest[1..]).tasks[x] == Staged(cfg, m, rest).tasks[x]
    {
      assert x != rest[0].id ==> About(rest, x) == About(rest[1..], x);
    }
  }

  lemma CallAgrees(cfg: Config, n: Machine, s: Policies.Sched, call: Call, t: Task)
    requires Policies.Agrees(cfg, n, s) && call.id in n.tasks
    requires var f := n.tasks[call.id];
      && f.kind.Thread? && !f.state.Ready?
      && (call.OnTick? ==>
        Billed(cfg, t).kind.Thread? && Billed(cfg, t).allot == f.allot && Billed(cfg, t).link == f.link > 0)
    ensures Wf(n)
    ensures Policies.Agrees(cfg, Put(n, call.id, Answer(cfg, t, n.tasks[call.id], call)), Called(cfg, s, call, t))
  {
    hide Policies.Agrees, Billed, Policies.Charged, Policies.Pushed, Enter, Callback;
    Policies.Basics(cfg, n, s);
    if call.OnTick? {
      Policies.ChargedAgrees(cfg, n, s, call.id, Billed(cfg, t));
    } else {
      Policies.PushedAgrees(cfg, n, s, call.id);
    }
  }

  /** A call about a task that is no thread means nothing to the policy. */
  lemma OtherCall(cfg: Config, n: Machine, s: Policies.Sched, call: Call, t: Task)
    requires Policies.Agrees(cfg, n, s) && call.id in n.tasks && !n.tasks[call.id].kind.Thread?
    ensures Called(cfg, s, call, t) == s
  {
    hide Policies.Agrees, Billed, Callback;
    Policies.Basics(cfg, n, s);
  }

  lemma {:induction false} PlayAgrees(cfg: Config, m: Machine, s: Policies.Sched, calls: seq<Call>)
    requires Wf(m) && Remains(cfg, m, calls)
    requires forall id :: id in m.tasks ==> TaskOk(cfg, m.tasks[id], false) && LinkOk(cfg, m.tasks[id])
    requires Policies.Agrees(cfg, Staged(cfg, m, calls), s)
    ensures Policies.Agrees(cfg, Staged(cfg, m, []), Play(cfg, m, s, calls))
    decreases calls
  {
    hide Policies.Agrees, Staged, LinkOk, TaskOk, RemainsAt, Called;
    if calls != [] {
      var n, o, call := Staged(cfg, m, calls), Staged(cfg, m, calls[1..]), calls[0];
      RemainsOn(cfg, m, calls);
      StagedOthers(cfg, m, calls);
      if call.id !in m.tasks {
        assert o == n;
        PlayAgrees(cfg, m, s, calls[1..]);
      } else {
        var t := m.tasks[call.id];
        if t.kind.Thread? {
          StagedNext(cfg, m, calls);
          CallAgrees(cfg, n, s, call, t);
          Policies.SameAgrees(cfg, Put(n, call.id, Answer(cfg, t, n.tasks[call.id], call)), o, Called(cfg, s, call, t));
        } else {
          OtherCall(cfg, n, s, call, t);
          assert o == n;
        }
        PlayAgrees(cfg, m, Called(cfg, s, call, t), calls[1..]);
      }
    }
  }

  /** The whole tick up to the rescheduling point: the transition callback, then any script of calls. */
  lemma TickAgrees(cfg: Config, m: Machine, s: Policies.Sched, calls: seq<Call>)
    requires Inv(cfg, m) && PolicyInv(cfg, m) && Policies.Agrees(cfg, m, s) && Script(cfg, m, calls)
    ensures Policies.Agrees(cfg, Phases(cfg, m), Play(cfg, m, Policies.Transited(s), calls))
  {
    hide Policies.Agrees, Play, LinkOk, TaskOk, Placed, Settled, Calls, TickTask, Phases, FaceAt;
    Policies.TransitedAgrees(cfg, m, s);
    FirstStage(cfg, m, calls);
    Policies.SameAgrees(cfg, m.(tasks := map id | id in m.tasks :: Transition(cfg, m.tasks[id])),
      Staged(cfg, m, calls), Policies.Transited(s));
    PlayAgrees(cfg, m, Policies.Transited(s), calls);
    LastStage(cfg, m);
    Policies.SameAgrees(cfg, Staged(cfg, m, []), Phases(cfg, m), Play(cfg, m, Policies.Transited(s), calls));
  }

  lemma FirstStage(cfg: Config, m: Machine, calls: seq<Call>)
    requires Wf(m) && Script(cfg, m, calls)
    ensures SameFace(m.(tasks := map id | id in m.tasks :: Transition(cfg, m.tasks[id])), Staged(cfg, m, calls))
    ensures Remains(cfg, m, calls)
  {
    hide Transition, Calls;
  }

  lemma LastStage(cfg: Config, m: Machine)
    requires Wf(m) && forall id :: id in m.tasks ==> TaskOk(cfg, m.tasks[id], false)
    ensures SameFace(Staged(cfg, m, []), Phases(cfg, m))
  {
    hide TickTask, TaskOk, FaceAt;
    forall id | id in m.tasks ensures Alike(Staged(cfg, m, []).tasks[id], Phases(cfg, m).tasks[id]) {
      if m.tasks[id].kind.Thread? {
        LastFace(cfg, m.tasks[id], id);
      }
    }
  }

  // ------------------------------------------------------------------------
  // There is always such a script.

  lemma AboutCons(a: seq<Call>, b: seq<Call>, id: Id)
    requires a != []
    ensures About(a + b, id) == (if a[0].id == id then [a[0]] else []) + About(a[1..] + b, id)
  {
    assert (a + b)[1..] == a[1..] + b;
  }

  lemma {:induction false} AboutApart(a: seq<Call>, b: seq<Call>, id: Id)
    ensures About(a + b, id) == About(a, id) + About(b, id)
  {
    if a == [] {
      assert a + b == b;
    } else {
      AboutApart(a[1..], b, id);
      AboutCons(a, b, id);
    }
  }

  lemma {:induction false} AboutOne(calls: seq<Call>, x: Id, id: Id)
    requires forall c :: c in calls ==> c.id == x
    ensures About(calls, id) == if x == id then calls else []
  {
    if calls != [] {
      AboutOne(calls[1..], x, id);
      assert calls == [calls[0]] + calls[1..];
    }
  }

  lemma CallsAbout(cfg: Config, t: Task, x: Id)
    ensures forall c :: c in Calls(cfg, t, x) ==> c.id == x
  {
    hide TickTask, Charged;
  }

  /** One order in which a tick can make its calls: thread by thread. */
  lemma {:induction false} ScriptFor(cfg: Config, m: Machine, ids: set<Id>) returns (calls: seq<Call>)
    requires ids <= m.tasks.Keys
    ensures forall id :: id in m.tasks && m.tasks[id].kind.Thread? ==>
      About(calls, id) == if id in ids then Calls(cfg, m.tasks[id], id) else []
    decreases ids
  {
    hide Calls;
    if ids == {} {
      calls := [];
    } else {
      var x :| x in ids;
      var rest := ScriptFor(cfg, m, ids - {x});
      CallsAbout(cfg, m.tasks[x], x);
      calls := Calls(cfg, m.tasks[x], x) + rest;
      forall id | id in m.tasks && m.tasks[id].kind.Thread?
        ensures About(calls, id) == if id in ids then Calls(cfg, m.tasks[id], id) else []
      {
        AboutApart(Calls(cfg, m.tasks[x], x), rest, id);
        AboutOne(Calls(cfg, m.tasks[x], x), x, id);
      }
    }
  }

  lemma ScriptExists(cfg: Config, m: Machine) returns (calls: seq<Call>)
    ensures Script(cfg, m, calls)
  {
    calls := ScriptFor(cfg, m, m.tasks.Keys);
  }
}
