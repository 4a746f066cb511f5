/**
 The earliest-deadline-first policy (src/workhorse/kSched/kSchedPolicy/kSchedEdf.c): a delta chain of the ready
 threads, keyed by the ticks left before their deadlines. A thread off the chain keeps its ticks in its own node.
 */
module Edf {
  import opened Tasks
  import opened TickSpec
  import opened PolicyFace
  import opened DeltaSeq

  datatype Deadlines = Deadlines(
    idle: Id,
    virtual: map<Id, nat>,
    chain: seq<Node<Id>>,
    epoch: nat,
    delta: map<Id, nat>,
    entered: map<Id, nat>,
    count: nat)

  ghost predicate Proper(v: Deadlines) {
    && v.virtual.Keys == v.delta.Keys
    && (forall id :: id in v.virtual ==> 0 < v.virtual[id] < WRAP)
    && Distinct(v.chain) && Ids(v.chain) <= v.virtual.Keys
    && Ordered(v)
  }

  // ------------------------------------------------------------------------
  // First in, first out among equal deadlines.

  /** Of two entries that are due at the same time, and not yet, the one in front entered the chain first. */
  ghost predicate InOrder(l: seq<Timed<Id>>, entered: map<Id, nat>, count: nat) {
    && (forall i :: 0 <= i < |l| ==> l[i].id in entered && entered[l[i].id] < count)
    && (forall i, j :: 0 <= i < j < |l| && 0 < l[i].time == l[j].time ==> entered[l[i].id] < entered[l[j].id])
  }

  ghost predicate Ordered(v: Deadlines) {
    InOrder(Plain(v.chain), v.entered, v.count)
  }

  /** Where an entry goes in: behind everything due no later, in front of everything due later. */
  lemma {:induction false} Split(l: seq<Timed<Id>>, e: Timed<Id>) returns (k: nat)
    requires Sorted(l)
    ensures k <= |l| && InsertPlain(l, e) == l[..k] + [e] + l[k..]
    ensures forall i :: 0 <= i < k ==> l[i].time <= e.time
    ensures forall i :: k <= i < |l| ==> l[i].time > e.time
  {
    if l == [] || l[0].time > e.time {
      k := 0;
    } else {
      var j := Split(l[1..], e);
      k := j + 1;
      assert l[1..][..j] == l[1..k] && l[1..][j..] == l[k..];
    }
  }

  /** Behind everything it ties with, a new entry is in its place. */
  lemma SpliceInOrder(l: seq<Timed<Id>>, e: Timed<Id>, k: nat, entered: map<Id, nat>, count: nat)
    requires InOrder(l, entered, count) && k <= |l| && forall i :: 0 <= i < |l| ==> l[i].id != e.id
    requires forall i :: k <= i < |l| ==> l[i].time > e.time
    ensures InOrder(l[..k] + [e] + l[k..], entered[e.id := count], count + 1)
  {
    var r, at := l[..k] + [e] + l[k..], entered[e.id := count];
    forall i | 0 <= i < |r| ensures r[i].id in at && at[r[i].id] < count + 1 {
      assert r[i] == if i < k then l[i] else if i == k then e else l[i - 1];
    }
    forall i, j | 0 <= i < j < |r| && 0 < r[i].time == r[j].time ensures at[r[i].id] < at[r[j].id] {
      assert r[i] == if i < k then l[i] else if i == k then e else l[i - 1];
      assert r[j] == if j < k then l[j] else if j == k then e else l[j - 1];
    }
  }

  lemma InsertInOrder(c: seq<Node<Id>>, id: Id, delta: nat, stamp: nat, entered: map<Id, nat>, count: nat)
    requires InOrder(Plain(c), entered, count) && id !in Ids(c)
    ensures InOrder(Plain(Insert(c, id, delta, stamp)), entered[id := count], count + 1)
  {
    hide InOrder, Ids, Insert, Plain, InsertPlain;
    InsertRefines(c, id, delta, stamp, 0);
    PlainSorted(c, 0);
    PlainIds(c);
    var k := Split(Plain(c), Timed(id, delta));
    SpliceInOrder(Plain(c), Timed(id, delta), k, entered, count);
  }

  lemma PlainIds(c: seq<Node<Id>>)
    ensures forall i :: 0 <= i < |c| ==> Plain(c)[i].id in Ids(c)
  {
    forall i | 0 <= i < |c| ensures Plain(c)[i].id in Ids(c) {
      PlainAt(c, 0, i);
    }
  }

  lemma TickInOrder(c: seq<Node<Id>>, entered: map<Id, nat>, count: nat)
    requires InOrder(Plain(c), entered, count)
    ensures InOrder(Plain(DeltaSeq.Tick(c)), entered, count)
  {
    TickRefines(c);
    forall i | 0 <= i < |c| ensures Plain(c)[i].id == c[i].id {
      PlainAt(c, 0, i);
    }
    hide Plain, DeltaSeq.Tick;
  }

  lemma RestInOrder(l: seq<Timed<Id>>, entered: map<Id, nat>, count: nat)
    requires InOrder(l, entered, count) && l != []
    ensures InOrder(l[1..], entered, count)
  {
  }

  /** Dropping a front that has expired leaves every other time as it is. */
  lemma DropExpired(c: seq<Node<Id>>)
    requires c != [] && c[0].delta == 0
    ensures Plain(c[1..]) == Plain(c)[1..]
  {
  }

  /** How many nodes at the front of the chain have expired. */
  function Expired(c: seq<Node<Id>>): (n: nat)
    ensures n <= |c|
  {
    if c == [] || c[0].delta > 0 then 0 else 1 + Expired(c[1..])
  }

  lemma {:induction false} InsertExpired(c: seq<Node<Id>>, id: Id, delta: nat, stamp: nat)
    requires delta > 0
    ensures Expired(Insert(c, id, delta, stamp)) == Expired(c)
    ensures forall i :: 0 <= i < Expired(c) ==> Insert(c, id, delta, stamp)[i] == c[i]
  {
    if c != [] && c[0].delta <= delta {
      assert Insert(c, id, delta, stamp)[1..] == Insert(c[1..], id, delta - c[0].delta, stamp);
      if c[0].delta == 0 {
        InsertExpired(c[1..], id, delta, stamp);
      }
    }
  }

  /** The front of the chain, once expired, starts its next deadline. */
  function Restart(v: Deadlines): (r: Deadlines)
    requires Proper(v) && v.chain != [] && v.chain[0].delta == 0
    ensures Proper(r) && r == v.(chain := r.chain, entered := r.entered, count := r.count)
    ensures Expired(r.chain) < Expired(v.chain)
  {
    RestartProper(v);
    var id := v.chain[0].id;
    v.(chain := Insert(v.chain[1..], id, v.virtual[id], (v.epoch + v.virtual[id]) % WRAP),
       entered := v.entered[id := v.count], count := v.count + 1)
  }

  lemma RestartProper(v: Deadlines)
    requires Proper(v) && v.chain != [] && v.chain[0].delta == 0
    ensures var id := v.chain[0].id;
      && id in v.virtual
      && var c := Insert(v.chain[1..], id, v.virtual[id], (v.epoch + v.virtual[id]) % WRAP);
      && Distinct(c) && Ids(c) <= v.virtual.Keys && Expired(c) < Expired(v.chain)
      && InOrder(Plain(c), v.entered[id := v.count], v.count + 1)
  {
    hide InOrder, Plain, Insert, Left, Ids, Distinct, Expired, Ordered;
    var id := v.chain[0].id;
    RestOf(v);
    var stamp := (v.epoch + v.virtual[id]) % WRAP;
    InsertLeft(v.chain[1..], id, v.virtual[id], stamp);
    InsertExpired(v.chain[1..], id, v.virtual[id], stamp);
    InsertInOrder(v.chain[1..], id, v.virtual[id], stamp, v.entered, v.count);
  }

  lemma RestOf(v: Deadlines)
    requires Proper(v) && v.chain != [] && v.chain[0].delta == 0
    ensures var id, rest := v.chain[0].id, v.chain[1..];
      && id in v.virtual && id !in Ids(rest) && Distinct(rest) && Ids(rest) <= v.virtual.Keys
      && InOrder(Plain(rest), v.entered, v.count) && Expired(v.chain) == 1 + Expired(rest)
  {
    IdsCons(v.chain);
    DropExpired(v.chain);
    RestInOrder(Plain(v.chain), v.entered, v.count);
  }

  /** `kSchedFixupChainEdf` */
  function Restarted(v: Deadlines): (r: Deadlines)
    requires Proper(v)
    ensures Proper(r) && r == v.(chain := r.chain, entered := r.entered, count := r.count)
    decreases Expired(v.chain)
  {
    if v.chain == [] || v.chain[0].delta > 0 then v else Restarted(Restart(v))
  }

  /** The front of a chain, once expired, put back in with a new time. */
  lemma PutBack(c: seq<Node<Id>>, d: nat, stamp: nat)
    requires Distinct(c) && c != [] && c[0].delta == 0
    ensures var r := Insert(c[1..], c[0].id, d, stamp);
      && Distinct(r) && Ids(r) == Ids(c) && Left(c, c[0].id) == 0
      && forall x :: x in Ids(c) ==> Left(r, x) == if x == c[0].id then d else Left(c, x)
  {
    IdsCons(c);
    PopExpiredLeft(c);
    hide Left, Insert, Ids;
    InsertLeft(c[1..], c[0].id, d, stamp);
  }

  lemma RestartLeft(v: Deadlines)
    requires Proper(v) && v.chain != [] && v.chain[0].delta == 0
    ensures Ids(Restart(v).chain) == Ids(v.chain)
    ensures forall x :: x in Ids(v.chain) ==>
      Left(Restart(v).chain, x) == if x == v.chain[0].id then v.virtual[x] else Left(v.chain, x)
    ensures Left(v.chain, v.chain[0].id) == 0
  {
    var id := v.chain[0].id;
    IdsCons(v.chain);
    hide Left, Insert, Ids, Distinct;
    PutBack(v.chain, v.virtual[id], (v.epoch + v.virtual[id]) % WRAP);
  }

  /** After the fix-up every thread has the deadline it had, or a whole new one if that had passed. */
  lemma {:induction false} FixedLeft(v: Deadlines)
    requires Proper(v)
    ensures Ids(Restarted(v).chain) == Ids(v.chain)
    ensures forall x :: x in Ids(v.chain) ==>
      Left(Restarted(v).chain, x) == if Left(v.chain, x) == 0 then v.virtual[x] else Left(v.chain, x)
    decreases Expired(v.chain)
  {
    PopExpiredLeft(v.chain);
    hide Left, Ids;
    if v.chain != [] && v.chain[0].delta == 0 {
      RestartLeft(v);
      FixedLeft(Restart(v));
    }
  }

  /** Threads whose deadlines have passed enter again in the order of the chain; the others keep their place in time. */
  lemma {:induction false} RestartedEntered(v: Deadlines)
    requires Proper(v)
    ensures forall i :: 0 <= i < Expired(v.chain) ==>
      v.chain[i].id in Restarted(v).entered && Restarted(v).entered[v.chain[i].id] == v.count + i
    ensures forall x :: x in Ids(v.chain) && Left(v.chain, x) > 0 ==>
      x in v.entered && x in Restarted(v).entered && Restarted(v).entered[x] == v.entered[x]
    decreases Expired(v.chain)
  {
    hide Left, Ids, Distinct, Ordered, Insert;
    EnteredKeys(v);
    if v.chain != [] && v.chain[0].delta == 0 {
      RestOf(v);
      var w, id := Restart(v), v.chain[0].id;
      RestartLeft(v);
      RestartedEntered(w);
      InsertExpired(v.chain[1..], id, v.virtual[id], (v.epoch + v.virtual[id]) % WRAP);
      IdsCons(v.chain);
      forall i | 0 <= i < Expired(v.chain)
        ensures v.chain[i].id in Restarted(v).entered && Restarted(v).entered[v.chain[i].id] == v.count + i
      {
        if i > 0 {
          assert w.chain[i - 1] == v.chain[1..][i - 1];
        }
      }
    }
  }

  lemma EnteredKeys(v: Deadlines)
    requires Proper(v)
    ensures forall x :: x in Ids(v.chain) ==> x in v.entered
  {
    forall i | 0 <= i < |v.chain| ensures v.chain[i].id in v.entered {
      PlainAt(v.chain, 0, i);
    }
    hide Plain;
  }

  function Ticked(v: Deadlines): Deadlines {
    v.(chain := DeltaSeq.Tick(v.chain), epoch := (v.epoch + 1) % WRAP)
  }

  lemma TickedProper(v: Deadlines)
    requires Proper(v)
    ensures Proper(Ticked(v))
  {
    hide InOrder, Plain, DeltaSeq.Tick, Ids, Distinct, Left;
    TickLeft(v.chain);
    TickInOrder(v.chain, v.entered, v.count);
  }

  function Enqueue(v: Deadlines, id: Id): Deadlines
    requires id in v.virtual && id in v.delta
  {
    var d := if v.delta[id] == 0 then v.virtual[id] else v.delta[id];
    v.(chain := Insert(v.chain, id, d, (v.epoch + d) % WRAP), delta := v.delta[id := d],
       entered := v.entered[id := v.count], count := v.count + 1)
  }

  lemma EnqueueProper(v: Deadlines, id: Id)
    requires Proper(v) && id in v.virtual && id !in Ids(v.chain)
    ensures Proper(Enqueue(v, id))
  {
    hide Ids, Distinct, Insert, Left, InOrder, Plain;
    var d := if v.delta[id] == 0 then v.virtual[id] else v.delta[id];
    InsertLeft(v.chain, id, d, (v.epoch + d) % WRAP);
    InsertInOrder(v.chain, id, d, (v.epoch + d) % WRAP, v.entered, v.count);
  }

  /** `kSchedTaskTickCallbackEdf` on a thread off the chain; `t` is the thread as the tick machine charges it. */
  function Charge(cfg: Config, v: Deadlines, id: Id, t: Task): Deadlines
    requires id in v.virtual && id in v.delta
  {
    v.(delta := v.delta[id := Callback(cfg, t.(link := v.delta[id], allot := v.virtual[id])).link])
  }

  /** What the plugin interface asks of a thread of this policy. */
  predicate Accepts(v: Deadlines, id: Id, deadline: nat) {
    id !in v.virtual && deadline > 0
  }

  function Admitted(v: Deadlines, id: Id, deadline: nat): Deadlines {
    v.(virtual := v.virtual[id := deadline], delta := v.delta[id := 0])
  }

  /** A new thread is known to the policy, and ready, with its first deadline started. */
  function Joined(v: Deadlines, id: Id, deadline: nat): Deadlines {
    Enqueue(Admitted(v, id, deadline), id)
  }

  function Next(v: Deadlines): Id
    requires Proper(v)
  {
    var w := Restarted(v);
    if w.chain == [] then w.idle else w.chain[0].id
  }

  function Dequeue(v: Deadlines): Deadlines
    requires Proper(v)
  {
    var w := Restarted(v);
    if w.chain == [] then w
    else w.(chain := PopRest(w.chain), delta := w.delta[w.chain[0].id := w.chain[0].delta])
  }

  /** A chain without its front, each thread's time in it unchanged. */
  lemma RestProper(v: Deadlines)
    requires Proper(v) && v.chain != [] && forall x :: x in Ids(v.chain) ==> Left(v.chain, x) < WRAP
    ensures Proper(v.(chain := PopRest(v.chain)))
  {
    hide InOrder, Plain, PopRest, Ids, Distinct, Left;
    PopLeft(v.chain);
    forall i | 0 <= i < |v.chain| ensures Plain(v.chain)[i].time < WRAP {
      LeftIsPlain(v.chain, 0, i);
    }
    PopRefines(v.chain);
    RestInOrder(Plain(v.chain), v.entered, v.count);
  }

  predicate Replace(v: Deadlines, running: Id, kind: Kind)
    requires Proper(v) && (kind.Thread? ==> running in v.delta)
  {
    match kind
    case Thread => var w := Restarted(v); w.chain != [] && w.chain[0].delta < v.delta[running]
    case Idle => v.chain != []
    case Lsr => false
  }

  // ------------------------------------------------------------------------
  // The policy and the machine.

  /** The ticks thread `id` has left are where the policy keeps them. */
  ghost predicate Known(t: Task, v: Deadlines, id: Id)
    requires id in v.virtual && id in v.delta
  {
    && t.allot == v.virtual[id] && 0 < t.allot < WRAP && t.link <= t.allot
    && t.link == if t.state.Ready? then Left(v.chain, id) else v.delta[id]
  }

  ghost predicate Agrees(cfg: Config, m: Machine, v: Deadlines) {
    && cfg.policy.Edf? && Wf(m) && m.idle == v.idle && !m.tasks[v.idle].kind.Thread?
    && Proper(v)
    && (forall id :: id in v.virtual <==> id in m.tasks && m.tasks[id].kind.Thread?)
    && (forall id :: id in v.virtual ==> Known(m.tasks[id], v, id))
    && Ids(v.chain) == ReadySet(m)
  }

  /** A machine that differs from `m` in no task's kind, allotment or readiness agrees when the ticks left do. */
  lemma Follows(cfg: Config, m: Machine, n: Machine, v: Deadlines, w: Deadlines)
    requires Agrees(cfg, m, v) && Wf(n) && n.idle == m.idle && n.tasks.Keys == m.tasks.Keys
    requires forall x :: x in m.tasks ==> n.tasks[x].kind == m.tasks[x].kind
    requires Proper(w) && w.idle == v.idle && w.virtual == v.virtual
    requires forall x :: x in v.virtual ==> Known(n.tasks[x], w, x)
    requires forall x :: x in v.virtual ==> (x in Ids(w.chain) <==> n.tasks[x].state.Ready?)
    ensures Agrees(cfg, n, w)
  {
    assert forall x :: x in Ids(w.chain) ==> x in w.virtual;
  }

  /** The tick of the chain counts every ready thread's deadline down. */
  lemma TickedAgrees(cfg: Config, m: Machine, v: Deadlines)
    requires Agrees(cfg, m, v)
    ensures Agrees(cfg, m.(tasks := map id | id in m.tasks :: Transition(cfg, m.tasks[id])), Ticked(v))
  {
    hide Left, Ids, DeltaSeq.Tick, Distinct, Ordered;
    TickLeft(v.chain);
    TickedProper(v);
    var n := m.(tasks := map id | id in m.tasks :: Transition(cfg, m.tasks[id]));
    forall x | x in v.virtual ensures Known(n.tasks[x], Ticked(v), x) {
      assert Known(m.tasks[x], v, x);
    }
    Follows(cfg, m, n, v, Ticked(v));
  }

  /** A thread that becomes ready is put in with what it has left, or with a new deadline. */
  lemma EnqueueAgrees(cfg: Config, m: Machine, v: Deadlines, id: Id)
    requires Agrees(cfg, m, v) && id in v.virtual && !m.tasks[id].state.Ready?
    ensures Agrees(cfg, Put(m, id, Enter(cfg, m.tasks[id], Ready)), Enqueue(v, id))
  {
    hide Left, Ids, Insert, Distinct, Ordered;
    assert Known(m.tasks[id], v, id) && id !in Ids(v.chain);
    EnqueueProper(v, id);
    var n, w := Put(m, id, Enter(cfg, m.tasks[id], Ready)), Enqueue(v, id);
    InsertLeft(v.chain, id, w.delta[id], (v.epoch + w.delta[id]) % WRAP);
    forall x | x in v.virtual ensures Known(n.tasks[x], w, x) {
      assert Known(m.tasks[x], v, x);
    }
    Follows(cfg, m, n, v, w);
  }

  /** A charge in the policy's node is the charge of the machine. */
  lemma ChargeAgrees(cfg: Config, m: Machine, v: Deadlines, id: Id, t: Task)
    requires Agrees(cfg, m, v) && id in v.virtual && !m.tasks[id].state.Ready?
    requires t.kind.Thread? && t.allot == m.tasks[id].allot && t.link == m.tasks[id].link > 0
    ensures Agrees(cfg, Put(m, id, m.tasks[id].(link := Callback(cfg, t).link)), Charge(cfg, v, id, t))
  {
    hide Left, Ids, Distinct, Ordered;
    assert Known(m.tasks[id], v, id);
    SameOrder(v, Charge(cfg, v, id, t));
    var n, w := Put(m, id, m.tasks[id].(link := Callback(cfg, t).link)), Charge(cfg, v, id, t);
    assert t == t.(link := v.delta[id], allot := v.virtual[id]);
    forall x | x in v.virtual ensures Known(n.tasks[x], w, x) {
      assert Known(m.tasks[x], v, x);
    }
    Follows(cfg, m, n, v, w);
  }

  /** A task that the policy has nothing to do with joins the processor. */
  lemma OtherJoins(cfg: Config, m: Machine, v: Deadlines, id: Id, t: Task)
    requires Agrees(cfg, m, v) && id !in m.tasks && !t.kind.Thread?
    ensures Agrees(cfg, Put(m, id, t), v)
  {
    hide Left, Ids, Distinct, Ordered;
    var n := Put(m, id, t);
    forall x | x in v.virtual ensures Known(n.tasks[x], v, x) {
      assert Known(m.tasks[x], v, x);
    }
    assert ReadySet(n) == ReadySet(m);
  }

  lemma AdmittedProper(v: Deadlines, id: Id, deadline: nat)
    requires Proper(v) && Accepts(v, id, deadline) && deadline < WRAP
    ensures Proper(Admitted(v, id, deadline)) && id !in Ids(v.chain)
  {
    hide Ids, Distinct, InOrder, Plain;
  }

  /** A thread joins: ready, in the chain with its first deadline. */
  lemma JoinAgrees(cfg: Config, m: Machine, v: Deadlines, id: Id, deadline: nat, t: Task)
    requires Agrees(cfg, m, v) && id !in m.tasks && Accepts(v, id, deadline) && deadline < WRAP
    requires t.kind.Thread? && t.state.Ready? && t.allot == t.link == deadline
    ensures Agrees(cfg, Put(m, id, t), Joined(v, id, deadline))
  {
    hide Left, Ids, Insert, Distinct, Ordered;
    var n, w := Put(m, id, t), Joined(v, id, deadline);
    assert Proper(Admitted(v, id, deadline)) by {
      AdmittedProper(v, id, deadline);
    }
    EnqueueProper(Admitted(v, id, deadline), id);
    InsertLeft(v.chain, id, deadline, (v.epoch + deadline) % WRAP);
    forall x | x in w.virtual ensures Known(n.tasks[x], w, x) {
      assert x != id ==> Known(m.tasks[x], v, x);
    }
    assert ReadySet(n) == ReadySet(m) + {id};
  }

  /** The policy cannot tell apart machines that look the same to it. */
  lemma SameAgrees(cfg: Config, m: Machine, n: Machine, v: Deadlines)
    requires Agrees(cfg, m, v) && SameFace(m, n) && Wf(n)
    ensures Agrees(cfg, n, v)
  {
    hide Left, Ids, Distinct, Ordered;
    SameReady(m, n);
    forall x | x in m.tasks ensures Alike(m.tasks[x], n.tasks[x]) {
    }
    forall x | x in v.virtual ensures Known(n.tasks[x], v, x) {
      assert Known(m.tasks[x], v, x);
    }
  }

  /** The fix-up of the chain is the fix-up of the machine. */
  lemma FixedAgrees(cfg: Config, m: Machine, v: Deadlines)
    requires Agrees(cfg, m, v)
    ensures Agrees(cfg, FixupAll(cfg, m), Restarted(v))
  {
    hide Left, Ids, Restarted, Distinct, Ordered;
    FixedLeft(v);
    forall x | x in v.virtual ensures Known(FixupAll(cfg, m).tasks[x], Restarted(v), x) {
      assert Known(m.tasks[x], v, x);
    }
    Follows(cfg, m, FixupAll(cfg, m), v, Restarted(v));
  }

  /** The front of the chain has the least ticks left, and it has them in its own delta. */
  lemma FrontIsLeast(cfg: Config, m: Machine, v: Deadlines)
    requires Agrees(cfg, m, v)
    ensures ReadySet(m) == {} <==> v.chain == []
    ensures v.chain != [] ==>
      && v.chain[0].id in ReadySet(m) && m.tasks[v.chain[0].id].link == v.chain[0].delta
      && forall x :: x in ReadySet(m) ==> v.chain[0].delta <= m.tasks[x].link
  {
    if v.chain != [] {
      IdsCons(v.chain);
      forall x | x in ReadySet(m) ensures v.chain[0].delta <= m.tasks[x].link {
        assert Known(m.tasks[x], v, x);
      }
      assert Known(m.tasks[v.chain[0].id], v, v.chain[0].id);
    } else {
      assert Ids(v.chain) == {};
    }
  }

  lemma FixedReady(cfg: Config, m: Machine)
    requires Wf(m)
    ensures ReadySet(FixupAll(cfg, m)) == ReadySet(m)
    ensures forall x :: x in m.tasks ==> FixupAll(cfg, m).tasks[x].link == Fixup(cfg, m.tasks[x]).link
  {
  }

  /** The pop answers with a ready thread of the earliest deadline, or with the idle task when nothing is ready. */
  lemma NextAnswers(cfg: Config, m: Machine, v: Deadlines)
    requires Agrees(cfg, m, v)
    ensures NextOk(cfg, Exact, m, Next(v))
  {
    hide Agrees, Fixup, FixupAll, Restarted;
    Plainly(cfg, m, v);
    FixedAgrees(cfg, m, v);
    FrontIsLeast(cfg, FixupAll(cfg, m), Restarted(v));
    FixedReady(cfg, m);
  }

  /**
   First in, first out: of the ready threads with the earliest deadline the pop answers with the one that entered the
   chain first. A thread enters when it becomes ready, and again when its deadline passes while it is ready; those whose
   deadlines have passed enter in the order of the chain.
   */
  lemma FirstComeFirst(cfg: Config, m: Machine, v: Deadlines, x: Id)
    requires Agrees(cfg, m, v) && x in ReadySet(m) && x != Next(v)
    requires Fixup(cfg, m.tasks[x]).link == Fixup(cfg, m.tasks[Next(v)]).link
    ensures var at := Restarted(v).entered;
      Next(v) in at && x in at && at[Next(v)] < at[x]
  {
    hide Agrees, Fixup, FixupAll, Restarted;
    Plainly(cfg, m, v);
    FixedAgrees(cfg, m, v);
    FixedReady(cfg, m);
    FrontIsLeast(cfg, FixupAll(cfg, m), Restarted(v));
    StillAhead(cfg, m, v, x);
    FrontEntered(cfg, FixupAll(cfg, m), Restarted(v), x);
  }

  lemma StillAhead(cfg: Config, m: Machine, v: Deadlines, x: Id)
    requires Agrees(cfg, m, v) && x in ReadySet(m)
    ensures Fixup(cfg, m.tasks[x]).link > 0
  {
    assert Known(m.tasks[x], v, x);
  }

  /** The front of a chain in which nothing has expired entered before everything due at the same time. */
  lemma FrontEntered(cfg: Config, m: Machine, v: Deadlines, x: Id)
    requires Agrees(cfg, m, v) && v.chain != [] && x in ReadySet(m) && x != v.chain[0].id
    requires 0 < m.tasks[x].link == m.tasks[v.chain[0].id].link
    ensures v.chain[0].id in v.entered && x in v.entered && v.entered[v.chain[0].id] < v.entered[x]
  {
    FrontIsLeast(cfg, m, v);
    assert Known(m.tasks[x], v, x);
    var k :| 0 <= k < |v.chain| && v.chain[k].id == x;
    hide Ids, Left, Distinct;
    LeftIsPlain(v.chain, 0, k);
    LeftIsPlain(v.chain, 0, 0);
    PlainAt(v.chain, 0, k);
    PlainAt(v.chain, 0, 0);
  }

  lemma Plainly(cfg: Config, m: Machine, v: Deadlines)
    requires Agrees(cfg, m, v)
    ensures cfg.policy.Edf? && m.idle == v.idle && Wf(m) && Proper(v)
  {
  }

  /** The rescheduling test answers yes exactly when a ready thread is due earlier, or idle runs for nothing. */
  lemma ReplaceAnswers(cfg: Config, m: Machine, v: Deadlines, running: Id)
    requires Agrees(cfg, m, v) && m.running == Some(running) && !m.tasks[running].kind.Lsr?
    requires !m.tasks[running].state.Ready?
    ensures Replace(v, running, m.tasks[running].kind) == Wants(cfg, m)
  {
    hide Ids, Left, Distinct, Ordered;
    FrontIsLeast(cfg, m, v);
    if m.tasks[running].kind.Thread? {
      assert Known(m.tasks[running], v, running);
      FixedAgrees(cfg, m, v);
      FixedReady(cfg, m);
      FrontIsLeast(cfg, FixupAll(cfg, m), Restarted(v));
    }
  }

  lemma DispatchIs(cfg: Config, m: Machine, next: Id)
    requires cfg.policy.Edf? && Wf(m) && next in m.tasks
    ensures var n := FixupAll(cfg, m);
      Dispatch(cfg, m, next) == Put(n, next, n.tasks[next].(state := Running)).(running := Some(next))
  {
  }

  /** The popped thread keeps what it has left of its deadline, and so does every thread that stays. */
  lemma DequeueAgrees(cfg: Config, m: Machine, v: Deadlines)
    requires Agrees(cfg, m, v)
    ensures Next(v) in m.tasks
    ensures Agrees(cfg, Dispatch(cfg, m, Next(v)), Dequeue(v))
  {
    hide Agrees, ReadySet, Fixup, FixupAll, Restarted, Dispatch;
    Plainly(cfg, m, v);
    FixedAgrees(cfg, m, v);
    NextAnswers(cfg, m, v);
    TakeFront(cfg, FixupAll(cfg, m), Restarted(v));
    DispatchIs(cfg, m, Next(v));
  }

  lemma SameOrder(v: Deadlines, w: Deadlines)
    requires Ordered(v) && w.chain == v.chain && w.entered == v.entered && w.count == v.count
    ensures Ordered(w)
  {
  }

  lemma TakeFront(cfg: Config, m: Machine, v: Deadlines)
    requires Agrees(cfg, m, v)
    ensures var id := if v.chain == [] then v.idle else v.chain[0].id;
      && id in m.tasks
      && Agrees(cfg, Put(m, id, m.tasks[id].(state := Running)).(running := Some(id)),
           if v.chain == [] then v else v.(chain := PopRest(v.chain), delta := v.delta[id := v.chain[0].delta]))
  {
    hide Left, Ids, PopRest, Distinct, Ordered;
    FrontIsLeast(cfg, m, v);
    var id := if v.chain == [] then v.idle else v.chain[0].id;
    var n := Put(m, id, m.tasks[id].(state := Running)).(running := Some(id));
    if v.chain == [] {
      forall x | x in v.virtual ensures Known(n.tasks[x], v, x) {
        assert Known(m.tasks[x], v, x);
      }
      Follows(cfg, m, n, v, v);
    } else {
      var w := v.(chain := PopRest(v.chain), delta := v.delta[id := v.chain[0].delta]);
      assert Known(m.tasks[id], v, id);
      forall x | x in Ids(v.chain) ensures Left(v.chain, x) < WRAP {
        assert Known(m.tasks[x], v, x);
      }
      PopLeft(v.chain);
      RestProper(v);
      SameOrder(v.(chain := PopRest(v.chain)), w);
      forall x | x in v.virtual ensures Known(n.tasks[x], w, x) {
        assert Known(m.tasks[x], v, x);
      }
      Follows(cfg, m, n, v, w);
    }
  }

  /** A rescheduling point that replaces the running thread may as well start from the chain its test has fixed up. */
  lemma FixupTwice(cfg: Config, m: Machine)
    requires Wf(m) && m.running.Some? && m.tasks[m.running.value].state.Running?
    requires forall x :: x in m.tasks ==> m.tasks[x].kind.Thread? ==> m.tasks[x].allot > 0
    ensures FixupAll(cfg, Leave(cfg, FixupAll(cfg, m), Ready)) == FixupAll(cfg, Leave(cfg, m, Ready))
  {
    var a, b := FixupAll(cfg, Leave(cfg, FixupAll(cfg, m), Ready)), FixupAll(cfg, Leave(cfg, m, Ready));
    forall x | x in m.tasks ensures a.tasks[x] == b.tasks[x] {
    }
    assert a.tasks == b.tasks;
  }

  // ------------------------------------------------------------------------
  // Nothing the policy keeps for a thread exceeds its virtual deadline, so it fits the counters of the chain.

  ghost predicate Bounded(v: Deadlines) {
    forall id :: id in v.virtual && id in v.delta ==>
      v.delta[id] <= v.virtual[id] && Left(v.chain, id) <= v.virtual[id]
  }

  lemma TickedBounded(v: Deadlines)
    requires Proper(v) && Bounded(v)
    ensures Bounded(Ticked(v))
  {
    hide Left, Ids, Distinct, Ordered, DeltaSeq.Tick;
    TickLeft(v.chain);
  }

  lemma EnqueueBounded(v: Deadlines, id: Id)
    requires Proper(v) && Bounded(v) && id in v.virtual && id !in Ids(v.chain)
    ensures Bounded(Enqueue(v, id))
  {
    hide Left, Ids, Distinct, Ordered, Insert;
    var d := if v.delta[id] == 0 then v.virtual[id] else v.delta[id];
    InsertLeft(v.chain, id, d, (v.epoch + d) % WRAP);
  }

  lemma OffChain(c: seq<Node<Id>>, id: Id)
    ensures id !in Ids(c) ==> Left(c, id) == 0
  {
  }

  lemma RestartBounded(v: Deadlines)
    requires Proper(v) && Bounded(v) && v.chain != [] && v.chain[0].delta == 0
    ensures Bounded(Restart(v))
  {
    hide Left, Ids, Distinct, Ordered, Restart;
    RestartLeft(v);
    forall id | id in v.virtual && id in v.delta ensures Left(Restart(v).chain, id) <= v.virtual[id] {
      OffChain(Restart(v).chain, id);
    }
  }

  lemma {:induction false} RestartedBounded(v: Deadlines)
    requires Proper(v) && Bounded(v)
    ensures Bounded(Restarted(v))
    decreases Expired(v.chain)
  {
    hide Bounded, Restart;
    if v.chain != [] && v.chain[0].delta == 0 {
      RestartBounded(v);
      RestartedBounded(Restart(v));
    }
  }

  lemma AdmittedBounded(v: Deadlines, id: Id, deadline: nat)
    requires Proper(v) && Bounded(v) && Accepts(v, id, deadline)
    ensures Bounded(Admitted(v, id, deadline))
  {
    OffChain(v.chain, id);
    hide Left, Distinct, Ordered;
  }

  lemma FrontLeft(c: seq<Node<Id>>)
    requires c != []
    ensures c[0].id in Ids(c) && Left(c, c[0].id) == c[0].delta
  {
    IdsCons(c);
  }

  lemma DequeueProper(v: Deadlines)
    requires Proper(v) && Bounded(v)
    ensures Proper(Dequeue(v)) && Bounded(Dequeue(v))
  {
    hide Left, Ids, Distinct, Ordered, PopRest, Restarted;
    RestartedBounded(v);
    var w := Restarted(v);
    if w.chain != [] {
      FrontLeft(w.chain);
      PopLeft(w.chain);
      RestProper(w);
      SameOrder(w.(chain := PopRest(w.chain)), Dequeue(v));
      OffChain(PopRest(w.chain), w.chain[0].id);
    }
  }

  lemma ChargeProper(cfg: Config, v: Deadlines, id: Id, t: Task)
    requires Proper(v) && Bounded(v) && id in v.virtual && cfg.policy.Edf?
    requires if t.state.DefSleep? then t.sleepTicks > 0 else v.delta[id] > 0
    ensures Proper(Charge(cfg, v, id, t)) && Bounded(Charge(cfg, v, id, t))
  {
    hide Left, Ids, Distinct, Ordered;
    SameOrder(v, Charge(cfg, v, id, t));
  }
}
