/**
 The MCS queue lock (include/lib/mcsLock.h) as an interleaving of its atomic steps, for any number of processors, with
 trylock mixed in. All atomics of the source are sequentially consistent. Every processor brings its own node, freshly
 initialised for each attempt, as callers do with a node on their stack.
 */
module Mcs {
  import opened Tasks

  type Cpu = nat

  /** Where a processor is. Everything from `Link` to `Grant` happens between its exchange on `tail` and its return. */
  datatype Pc =
    | Outside
    | Swap                 // __mcsAcquire: about to exchange the tail
    | Try                  // __mcsTrylock: about to compare-exchange the tail
    | Link(prev: Cpu)      // about to store itself in the predecessor's next
    | Spin                 // waiting for its own state
    | Holding
    | LoadNext             // __mcsRelease: about to load its own next
    | CasTail              // about to compare-exchange the tail back to null
    | SpinNext             // waiting for its own next
    | Grant(next: Cpu)     // about to store the successor's state

  datatype Node = Node(next: Option<Cpu>, unlocked: bool)

  /** One program counter and one node for each processor. */
  datatype Lock = Lock(tail: Option<Cpu>, pc: seq<Pc>, node: seq<Node>)

  datatype Action =
    | Acquire(c: Cpu)
    | TryLock(c: Cpu)
    | Release(c: Cpu)
    | Advance(c: Cpu)

  predicate Wf(s: Lock) {
    && |s.node| == |s.pc|
    && (s.tail.Some? ==> s.tail.value < |s.pc|)
    && forall c :: 0 <= c < |s.pc| ==> PcOk(s.pc[c], |s.pc|) && (s.node[c].next.Some? ==> s.node[c].next.value < |s.pc|)
  }

  predicate PcOk(p: Pc, n: nat) {
    (p.Link? ==> p.prev < n) && (p.Grant? ==> p.next < n)
  }

  predicate Enabled(s: Lock, a: Action) {
    a.c < |s.pc| &&
    match a
    case Acquire(c) => s.pc[c].Outside?
    case TryLock(c) => s.pc[c].Outside?
    case Release(c) => s.pc[c].Holding?
    case Advance(c) => !s.pc[c].Outside? && !s.pc[c].Holding?
  }

  function Go(s: Lock, c: Cpu, p: Pc): Lock
    requires c < |s.pc|
  {
    s.(pc := s.pc[c := p])
  }

  function SetNode(s: Lock, c: Cpu, n: Node): Lock
    requires c < |s.node|
  {
    s.(node := s.node[c := n])
  }

  /** One atomic step of the processor of the action. */
  function Do(s: Lock, a: Action): (r: Lock)
    requires Wf(s) && Enabled(s, a)
    ensures Wf(r) && |r.pc| == |s.pc|
  {
    var c := a.c;
    match a
    case Acquire(_) => Go(SetNode(s, c, Node(None, false)), c, Swap)
    case TryLock(_) => Go(SetNode(s, c, Node(None, false)), c, Try)
    case Release(_) => Go(s, c, LoadNext)
    case Advance(_) =>
      match s.pc[c]
      case Swap => Go(s.(tail := Some(c)), c, if s.tail.None? then Holding else Link(s.tail.value))
      case Try => if s.tail.None? then Go(s.(tail := Some(c)), c, Holding) else Go(s, c, Outside)
      case Link(p) => Go(SetNode(s, p, s.node[p].(next := Some(c))), c, Spin)
      case Spin => if s.node[c].unlocked then Go(s, c, Holding) else s
      case LoadNext => Go(s, c, if s.node[c].next.Some? then Grant(s.node[c].next.value) else CasTail)
      case CasTail => if s.tail == Some(c) then Go(s.(tail := None), c, Outside) else Go(s, c, SpinNext)
      case SpinNext => if s.node[c].next.Some? then Go(s, c, Grant(s.node[c].next.value)) else s
      case Grant(n) => Go(SetNode(s, n, s.node[n].(unlocked := true)), c, Outside)
      case _ => s
  }

  /** The lock is taken, from the return of acquire to the last step of release. */
  predicate Inside(p: Pc) {
    p.Holding? || p.LoadNext? || p.CasTail? || p.SpinNext? || p.Grant?
  }

  predicate Queued(p: Pc) { p.Link? || p.Spin? || Inside(p) }

  // ------------------------------------------------------------------------

  /**
   `q` is the queue the nodes spell out: the holder (or the one that has been granted the lock) first, then the waiters
   in the order of their exchanges.
   */
  ghost predicate IsQueue(s: Lock, q: seq<Cpu>) {
    && (forall i :: 0 <= i < |q| ==> q[i] < |s.pc|)
    && (forall i, j :: 0 <= i < j < |q| ==> q[i] != q[j])
    && (forall c :: 0 <= c < |s.pc| ==> (c in q <==> Queued(s.pc[c])))
    && s.tail == (if q == [] then None else Some(q[|q| - 1]))
  }

  /** The waiter at position `i` is locked out, and either about to link itself to its predecessor or spinning. */
  predicate Waits(s: Lock, q: seq<Cpu>, i: nat)
    requires 1 <= i < |q| && q[i] < |s.pc| == |s.node|
  {
    (s.pc[q[i]] == Link(q[i - 1]) || s.pc[q[i]].Spin?) && !s.node[q[i]].unlocked
  }

  /** The head has the lock or has just been given it; everybody else is still locked out. */
  ghost predicate Served(s: Lock, q: seq<Cpu>)
    requires Wf(s) && IsQueue(s, q)
  {
    && (q != [] ==> Inside(s.pc[q[0]]) || (s.pc[q[0]].Spin? && s.node[q[0]].unlocked))
    && (forall i :: 1 <= i < |q| ==> Waits(s, q, i))
    && (q != [] && s.pc[q[0]].Grant? ==> |q| > 1 && s.pc[q[0]].next == q[1] && s.pc[q[1]].Spin?)
    && (q != [] && s.pc[q[0]].SpinNext? ==> |q| > 1)
  }

  /** A predecessor's `next` is set exactly when its successor has linked itself. */
  predicate Points(s: Lock, q: seq<Cpu>, i: nat)
    requires i < |q| && |s.pc| == |s.node| && q[i] < |s.pc| && (i + 1 < |q| ==> q[i + 1] < |s.pc|)
  {
    s.node[q[i]].next == if i + 1 < |q| && !s.pc[q[i + 1]].Link? then Some(q[i + 1]) else None
  }

  ghost predicate Linked(s: Lock, q: seq<Cpu>)
    requires Wf(s) && IsQueue(s, q)
  {
    && (forall i :: 0 <= i < |q| ==> Points(s, q, i))
    && (forall c :: 0 <= c < |s.pc| && (s.pc[c].Swap? || s.pc[c].Try?) ==> s.node[c] == Node(None, false))
  }

  ghost predicate Inv(s: Lock, q: seq<Cpu>) {
    Wf(s) && IsQueue(s, q) && Served(s, q) && Linked(s, q)
  }

  /** The exchange on `tail`, or a successful trylock. */
  predicate Arrives(s: Lock, a: Action)
    requires Wf(s) && Enabled(s, a)
  {
    a.Advance? && (s.pc[a.c].Swap? || (s.pc[a.c].Try? && s.tail.None?))
  }

  /** The last step of a release. */
  predicate Leaves(s: Lock, a: Action)
    requires Wf(s) && Enabled(s, a)
  {
    a.Advance? && (s.pc[a.c].Grant? || (s.pc[a.c].CasTail? && s.tail == Some(a.c)))
  }

  /** Acquire or trylock returns with the lock. */
  predicate Enters(s: Lock, a: Action)
    requires Wf(s) && Enabled(s, a)
  {
    !Inside(s.pc[a.c]) && Inside(Do(s, a).pc[a.c])
  }

  /** The queue after a step: arrivals go to the back, a finished release leaves from the front. */
  function Queue(s: Lock, q: seq<Cpu>, a: Action): seq<Cpu>
    requires Wf(s) && Enabled(s, a)
  {
    if Arrives(s, a) then q + [a.c]
    else if Leaves(s, a) && q != [] then q[1..]
    else q
  }

  lemma ArriveQueue(s: Lock, q: seq<Cpu>, a: Action)
    requires Wf(s) && IsQueue(s, q) && Enabled(s, a) && Arrives(s, a)
    ensures IsQueue(Do(s, a), q + [a.c])
  {
    assert a.c !in q;
  }

  lemma ArriveInv(s: Lock, q: seq<Cpu>, a: Action)
    requires Inv(s, q) && Enabled(s, a) && Arrives(s, a)
    ensures Inv(Do(s, a), q + [a.c])
  {
    var r, p := Do(s, a), q + [a.c];
    assert a.c !in q;
    ArriveQueue(s, q, a);
    forall i | 1 <= i < |p| ensures Waits(r, p, i) {
      assert i < |q| ==> Waits(s, q, i);
    }
    forall i | 0 <= i < |p| ensures Points(r, p, i) {
      assert i < |q| ==> Points(s, q, i);
    }
  }

  /** Whoever is inside, or has been granted the lock, is at the head of the queue. */
  lemma InsideIsHead(s: Lock, q: seq<Cpu>, c: Cpu)
    requires Inv(s, q) && c < |s.pc| && (Inside(s.pc[c]) || (s.pc[c].Spin? && s.node[c].unlocked))
    ensures q != [] && q[0] == c
  {
    assert c in q;
    forall i | 1 <= i < |q| ensures q[i] != c {
      assert Waits(s, q, i);
    }
  }

  /** The head of the queue moves, without touching a node or the tail. */
  lemma HeadMoves(s: Lock, q: seq<Cpu>, p: Pc)
    requires Inv(s, q) && q != [] && Inside(p)
    requires p.Grant? ==> |q| > 1 && p.next == q[1] && s.pc[q[1]].Spin?
    requires p.SpinNext? ==> |q| > 1
    ensures Inv(Go(s, q[0], p), q)
  {
    var r := Go(s, q[0], p);
    assert IsQueue(r, q);
    forall i | 1 <= i < |q| ensures Waits(r, q, i) {
      assert Waits(s, q, i);
    }
    forall i | 0 <= i < |q| ensures Points(r, q, i) {
      assert Points(s, q, i);
    }
  }

  /** A processor that is not in the queue moves and resets its node. */
  lemma OutsiderMoves(s: Lock, q: seq<Cpu>, c: Cpu, p: Pc, n: Node)
    requires Inv(s, q) && c < |s.pc| && !Queued(s.pc[c]) && !Queued(p)
    requires n == Node(None, false) || (n == s.node[c] && !p.Swap? && !p.Try?)
    ensures Inv(Go(SetNode(s, c, n), c, p), q)
  {
    var r := Go(SetNode(s, c, n), c, p);
    assert c !in q;
    assert Wf(r);
    assert IsQueue(r, q);
    forall i | 1 <= i < |q| ensures Waits(r, q, i) {
      assert Waits(s, q, i);
    }
    forall i | 0 <= i < |q| ensures Points(r, q, i) {
      assert Points(s, q, i);
    }
  }

  function Granted(s: Lock, c: Cpu, n: Cpu): Lock
    requires c < |s.pc| && n < |s.node|
  {
    Go(SetNode(s, n, s.node[n].(unlocked := true)), c, Outside)
  }

  lemma GrantQueue(s: Lock, q: seq<Cpu>)
    requires Inv(s, q) && |q| > 1 && s.pc[q[0]].Grant? && s.pc[q[0]].next == q[1]
    ensures Wf(Granted(s, q[0], q[1])) && IsQueue(Granted(s, q[0], q[1]), q[1..])
  {
    hide Served, Linked;
    assert q == [q[0]] + q[1..];
  }

  /** The successor is handed the lock. */
  lemma GrantInv(s: Lock, q: seq<Cpu>)
    requires Inv(s, q) && q != [] && s.pc[q[0]].Grant?
    ensures |q| > 1 && s.pc[q[0]].next == q[1] && q[1] < |s.pc|
    ensures Inv(Granted(s, q[0], q[1]), q[1..])
  {
    var r := Granted(s, q[0], q[1]);
    var p := q[1..];
    GrantQueue(s, q);
    forall i | 1 <= i < |p| ensures Waits(r, p, i) {
      assert Waits(s, q, i + 1);
    }
    forall i | 0 <= i < |p| ensures Points(r, p, i) {
      assert Points(s, q, i + 1);
    }
    hide IsQueue;
  }

  /** The last one out takes itself off the tail. */
  lemma LastOutInv(s: Lock, q: seq<Cpu>)
    requires Inv(s, q) && q != [] && s.pc[q[0]].CasTail? && s.tail == Some(q[0])
    ensures Inv(Go(s.(tail := None), q[0], Outside), q[1..])
  {
    assert q == [q[0]];
    assert IsQueue(Go(s.(tail := None), q[0], Outside), []);
  }

  /** A waiter makes itself known to its predecessor. */
  lemma LinkInv(s: Lock, q: seq<Cpu>, k: nat)
    requires Inv(s, q) && k < |q| && s.pc[q[k]].Link?
    ensures k > 0 && s.pc[q[k]].prev == q[k - 1] && q[k - 1] < |s.pc|
    ensures Inv(Go(SetNode(s, q[k - 1], s.node[q[k - 1]].(next := Some(q[k]))), q[k], Spin), q)
  {
    assert k > 0 ==> Waits(s, q, k);
    var r := Go(SetNode(s, q[k - 1], s.node[q[k - 1]].(next := Some(q[k]))), q[k], Spin);
    assert IsQueue(r, q);
    forall i | 1 <= i < |q| ensures Waits(r, q, i) {
      assert Waits(s, q, i);
    }
    forall i | 0 <= i < |q| ensures Points(r, q, i) {
      assert Points(s, q, i);
    }
  }

  lemma HeadInv(s: Lock, q: seq<Cpu>, a: Action)
    requires Inv(s, q) && Enabled(s, a) && q != [] && a.c == q[0]
    requires Inside(s.pc[a.c]) || (s.pc[a.c].Spin? && s.node[a.c].unlocked)
    ensures Inv(Do(s, a), Queue(s, q, a))
  {
    hide Inv;
    InvParts(s, q);
    assert Points(s, q, 0);
    assert |q| > 1 ==> Waits(s, q, 1) && q[1] < |s.pc|;
    match s.pc[a.c]
    case Spin => HeadMoves(s, q, Holding);
    case Holding => HeadMoves(s, q, LoadNext);
    case LoadNext =>
      HeadMoves(s, q, if s.node[q[0]].next.Some? then Grant(s.node[q[0]].next.value) else CasTail);
    case CasTail =>
      if s.tail == Some(q[0]) {
        LastOutInv(s, q);
      } else {
        HeadMoves(s, q, SpinNext);
      }
    case SpinNext =>
      if s.node[q[0]].next.Some? {
        HeadMoves(s, q, Grant(s.node[q[0]].next.value));
      }
    case Grant(n) => GrantInv(s, q);
  }

  lemma InvParts(s: Lock, q: seq<Cpu>)
    requires Inv(s, q)
    ensures Wf(s) && IsQueue(s, q) && Served(s, q) && Linked(s, q)
  {
  }

  lemma StepInv(s: Lock, q: seq<Cpu>, a: Action)
    requires Inv(s, q) && Enabled(s, a)
    ensures Inv(Do(s, a), Queue(s, q, a))
  {
    InvParts(s, q);
    var c := a.c;
    if Arrives(s, a) {
      ArriveInv(s, q, a);
    } else if Inside(s.pc[c]) || (s.pc[c].Spin? && s.node[c].unlocked) {
      InsideIsHead(s, q, c);
      HeadInv(s, q, a);
    } else if Queued(s.pc[c]) {
      hide Inv, Served, Linked;
      assert c in q;
      var k :| 0 <= k < |q| && q[k] == c;
      if s.pc[c].Link? {
        LinkInv(s, q, k);
      }
    } else {
      hide Inv, Served, Linked, IsQueue;
      OutsiderMoves(s, q, c, Swap, Node(None, false));
      OutsiderMoves(s, q, c, Try, Node(None, false));
      OutsiderMoves(s, q, c, Outside, s.node[c]);
      assert SetNode(s, c, s.node[c]) == s;
    }
  }

  // ------------------------------------------------------------------------
  // Runs.

  ghost predicate Run(s: Lock, steps: seq<Action>)
    requires Wf(s)
    decreases steps
  {
    steps == [] || (Enabled(s, steps[0]) && Run(Do(s, steps[0]), steps[1..]))
  }

  function Exec(s: Lock, steps: seq<Action>): (r: Lock)
    requires Wf(s) && Run(s, steps)
    ensures Wf(r) && |r.pc| == |s.pc|
    decreases steps
  {
    if steps == [] then s else Exec(Do(s, steps[0]), steps[1..])
  }

  /** The processors in the order of their exchanges on `tail`, successful trylocks included. */
  function Arrivals(s: Lock, steps: seq<Action>): seq<Cpu>
    requires Wf(s) && Run(s, steps)
    decreases steps
  {
    if steps == [] then []
    else (if Arrives(s, steps[0]) then [steps[0].c] else []) + Arrivals(Do(s, steps[0]), steps[1..])
  }

  /** The processors in the order in which acquire or trylock gave them the lock. */
  function Entries(s: Lock, steps: seq<Action>): seq<Cpu>
    requires Wf(s) && Run(s, steps)
    decreases steps
  {
    if steps == [] then []
    else (if Enters(s, steps[0]) then [steps[0].c] else []) + Entries(Do(s, steps[0]), steps[1..])
  }

  predicate Initial(s: Lock) {
    Wf(s) && s.tail.None? && forall c :: 0 <= c < |s.pc| ==> s.pc[c].Outside?
  }

  ghost function FinalQueue(s: Lock, q: seq<Cpu>, steps: seq<Action>): seq<Cpu>
    requires Wf(s) && Run(s, steps)
    decreases steps
  {
    if steps == [] then q else FinalQueue(Do(s, steps[0]), Queue(s, q, steps[0]), steps[1..])
  }

  lemma {:induction false} RunInv(s: Lock, q: seq<Cpu>, steps: seq<Action>)
    requires Inv(s, q) && Run(s, steps)
    ensures Inv(Exec(s, steps), FinalQueue(s, q, steps))
    decreases steps
  {
    InvParts(s, q);
    hide Inv, Do, Queue, IsQueue, Served, Linked;
    if steps != [] {
      StepInv(s, q, steps[0]);
      RunInv(Do(s, steps[0]), Queue(s, q, steps[0]), steps[1..]);
    }
  }

  lemma InitialInv(s: Lock)
    requires Initial(s)
    ensures Inv(s, [])
  {
  }

  /** Mutual exclusion, over every interleaving: at most one processor is between acquire and the end of release. */
  lemma MutualExclusion(s: Lock, steps: seq<Action>, c: Cpu, d: Cpu)
    requires Initial(s) && Run(s, steps) && c < |s.pc| && d < |s.pc|
    requires Inside(Exec(s, steps).pc[c]) && Inside(Exec(s, steps).pc[d])
    ensures c == d
  {
    InitialInv(s);
    RunInv(s, [], steps);
    InsideIsHead(Exec(s, steps), FinalQueue(s, [], steps), c);
    InsideIsHead(Exec(s, steps), FinalQueue(s, [], steps), d);
  }

  /** Those that have arrived and not entered yet, in order. */
  function Waiting(s: Lock, q: seq<Cpu>): seq<Cpu> {
    if q != [] && q[0] < |s.pc| && Inside(s.pc[q[0]]) then q[1..] else q
  }

  /** What a step of the head leaves of the queue: the head enters, stays inside, or is gone. */
  lemma HeadStep(s: Lock, q: seq<Cpu>, a: Action)
    requires Inv(s, q) && Enabled(s, a) && q != [] && a.c == q[0]
    requires Inside(s.pc[a.c]) || (s.pc[a.c].Spin? && s.node[a.c].unlocked)
    ensures !Arrives(s, a) && (Leaves(s, a) ==> Inside(s.pc[a.c]) && !Enters(s, a))
    ensures !Leaves(s, a) ==> Inside(Do(s, a).pc[q[0]])
    ensures Leaves(s, a) && |q| > 1 ==> !Inside(Do(s, a).pc[q[1]])
  {
    hide Points;
    assert |q| > 1 ==> Waits(s, q, 1) && q[1] != q[0];
  }

  lemma HeadFifo(s: Lock, q: seq<Cpu>, a: Action)
    requires Inv(s, q) && Enabled(s, a) && q != [] && a.c == q[0]
    requires Inside(s.pc[a.c]) || (s.pc[a.c].Spin? && s.node[a.c].unlocked)
    ensures !Arrives(s, a)
    ensures Waiting(s, q) == (if Enters(s, a) then [a.c] else []) + Waiting(Do(s, a), Queue(s, q, a))
  {
    HeadStep(s, q, a);
    hide Arrives, Leaves, Do, Served, Linked;
    assert q == [a.c] + q[1..];
  }

  /** A step of anybody else: it enters only by arriving at an empty queue, and the head stays as it is. */
  lemma OtherStep(s: Lock, q: seq<Cpu>, a: Action)
    requires Inv(s, q) && Enabled(s, a) && !Inside(s.pc[a.c]) && !(s.pc[a.c].Spin? && s.node[a.c].unlocked)
    ensures !Leaves(s, a)
    ensures Enters(s, a) <==> Arrives(s, a) && q == []
    ensures q != [] ==> q[0] < |s.pc| && (Inside(Do(s, a).pc[q[0]]) <==> Inside(s.pc[q[0]]))
    ensures q == [] && Arrives(s, a) ==> Inside(Do(s, a).pc[a.c])
  {
    hide Linked, Points;
    assert q != [] ==> q[0] != a.c;
  }

  lemma OtherFifo(s: Lock, q: seq<Cpu>, a: Action)
    requires Inv(s, q) && Enabled(s, a) && !Inside(s.pc[a.c]) && !(s.pc[a.c].Spin? && s.node[a.c].unlocked)
    ensures !Leaves(s, a)
    ensures Waiting(s, q) + (if Arrives(s, a) then [a.c] else []) ==
            (if Enters(s, a) then [a.c] else []) + Waiting(Do(s, a), Queue(s, q, a))
  {
    OtherStep(s, q, a);
    hide Arrives, Leaves, Enters, Do, Served, Linked, IsQueue, Inside;
    assert q != [] ==> (q + [a.c])[1..] == q[1..] + [a.c];
  }

  lemma StepFifo(s: Lock, q: seq<Cpu>, a: Action)
    requires Inv(s, q) && Enabled(s, a)
    ensures Waiting(s, q) + (if Arrives(s, a) then [a.c] else []) ==
            (if Enters(s, a) then [a.c] else []) + Waiting(Do(s, a), Queue(s, q, a))
  {
    hide Arrives, Enters, Waiting, Do, Queue, IsQueue, Served, Linked;
    if Inside(s.pc[a.c]) || (s.pc[a.c].Spin? && s.node[a.c].unlocked) {
      InsideIsHead(s, q, a.c);
      HeadFifo(s, q, a);
      assert Waiting(s, q) + [] == Waiting(s, q);
    } else {
      OtherFifo(s, q, a);
    }
  }

  lemma Splice<T>(w: seq<T>, arrived: seq<T>, later: seq<T>, entered: seq<T>, w': seq<T>, entries: seq<T>, rest: seq<T>)
    requires w + arrived == entered + w' && w' + later == entries + rest
    ensures w + (arrived + later) == (entered + entries) + rest
  {
    assert w + (arrived + later) == (w + arrived) + later;
    assert (entered + w') + later == entered + (w' + later);
    assert entered + (entries + rest) == (entered + entries) + rest;
  }

  lemma {:induction false} RunFifo(s: Lock, q: seq<Cpu>, steps: seq<Action>)
    requires Inv(s, q) && Run(s, steps)
    ensures Waiting(s, q) + Arrivals(s, steps) == Entries(s, steps) + Waiting(Exec(s, steps), FinalQueue(s, q, steps))
    decreases steps
  {
    InvParts(s, q);
    hide Inv, Do, Queue, Waiting, Arrives, Enters, IsQueue, Served, Linked;
    if steps == [] {
      assert Waiting(s, q) + [] == [] + Waiting(s, q);
    } else {
      var a, r, p := steps[0], Do(s, steps[0]), Queue(s, q, steps[0]);
      StepInv(s, q, a);
      StepFifo(s, q, a);
      RunFifo(r, p, steps[1..]);
      Splice(Waiting(s, q), if Arrives(s, a) then [a.c] else [], Arrivals(r, steps[1..]),
             if Enters(s, a) then [a.c] else [], Waiting(r, p), Entries(r, steps[1..]),
             Waiting(Exec(s, steps), FinalQueue(s, q, steps)));
    }
  }

  /** First come, first served: processors get the lock in the order of their exchanges, with trylock mixed in. */
  lemma Fifo(s: Lock, steps: seq<Action>)
    requires Initial(s) && Run(s, steps)
    ensures Entries(s, steps) <= Arrivals(s, steps)
  {
    InitialInv(s);
    RunFifo(s, [], steps);
    assert Waiting(s, []) + Arrivals(s, steps) == Arrivals(s, steps);
  }

  /** The holder, who may release; or a step in acquire or release that does not wait. */
  predicate CanMove(s: Lock, c: Cpu)
    requires Wf(s) && c < |s.pc|
  {
    s.pc[c].Holding? || (Queued(s.pc[c]) && Do(s, Advance(c)).pc[c] != s.pc[c])
  }

  /** Some processor other than a waiting one can move: nobody holds, hands over or has been granted a lock in vain. */
  lemma Progress(s: Lock, steps: seq<Action>)
    requires Initial(s) && Run(s, steps)
    ensures var r := Exec(s, steps);
      r.tail.Some? ==> exists c :: 0 <= c < |r.pc| && CanMove(r, c)
  {
    InitialInv(s);
    RunInv(s, [], steps);
    var r, q := Exec(s, steps), FinalQueue(s, [], steps);
    if r.tail.Some? {
      var head := q[0];
      assert Points(r, q, 0);
      if r.pc[head].SpinNext? && r.node[head].next.None? {
        assert r.pc[q[1]].Link?;
        assert CanMove(r, q[1]);
      } else {
        assert CanMove(r, head);
      }
    }
  }

  /**
   A trylock never waits: its only step ends it, inside if and only if nobody had or wanted the lock, and otherwise
   outside with nothing changed.
   */
  lemma TryReturns(s: Lock, q: seq<Cpu>, c: Cpu)
    requires Inv(s, q) && c < |s.pc| && s.pc[c].Try?
    ensures Enabled(s, Advance(c))
    ensures var r := Do(s, Advance(c));
      && (r.pc[c].Holding? || r.pc[c].Outside?)
      && (r.pc[c].Holding? <==> q == [])
      && (r.pc[c].Holding? ==> r.tail == Some(c))
      && (r.pc[c].Outside? ==> r.tail == s.tail && r.node == s.node)
      && forall d :: 0 <= d < |s.pc| && d != c ==> r.pc[d] == s.pc[d]
  {
  }

  /** Nothing in the queue refers to a processor that is outside. */
  lemma Unreferenced(s: Lock, q: seq<Cpu>, c: Cpu, d: Cpu)
    requires Inv(s, q) && c < |s.pc| && s.pc[c].Outside? && d < |s.pc|
    ensures s.tail != Some(c) && s.pc[d] != Link(c) && s.pc[d] != Grant(c)
  {
    assert c !in q;
    if Queued(s.pc[d]) {
      assert d in q;
      var k :| 0 <= k < |q| && q[k] == d;
      assert k > 0 ==> Waits(s, q, k) && q[k - 1] in q;
      if Inside(s.pc[d]) {
        InsideIsHead(s, q, d);
        assert |q| > 1 ==> q[1] in q;
      }
    }
  }

  /**
   Node release: once a processor is back outside, no step of another processor reads or writes its node, in any
   continuation of the run before it starts again; so the node may live on its stack.
   */
  lemma NodeReleased(s: Lock, steps: seq<Action>, c: Cpu, a: Action)
    requires Initial(s) && Run(s, steps) && c < |s.pc| && Exec(s, steps).pc[c].Outside?
    requires Enabled(Exec(s, steps), a) && a.c != c
    ensures var r := Exec(s, steps);
      && r.tail != Some(c)
      && (a.Advance? ==> r.pc[a.c] != Link(c) && r.pc[a.c] != Grant(c))
      && Do(r, a).node[c] == r.node[c] && Do(r, a).pc[c].Outside?
  {
    hide Inv, Initial, Run, Exec, FinalQueue;
    InitialInv(s);
    RunInv(s, [], steps);
    Unreferenced(Exec(s, steps), FinalQueue(s, [], steps), c, a.c);
  }
}
