/**
 Domain invocations (src/workhorse/kDomainUniverse/kDomainUniverse.c, src/workhorse/kSyscall/kSyscall.c,
 src/import/kExceptionHandler.c): a task calls into other domains over IPC, takes exceptions in its own, and returns.

 `Place` is where a task is: its domain, the address it continues at, and its invocation stack, newest entry last.
 */
module Invocation {
  import opened Tasks
  import Bitmap

  datatype Reason =
    | Invalid
    | Ipc
    | VmemFault
    | IllegalOpcode
    | Alignment
    | Debug
    | Arithmetic
    | Other

  /** The reasons the exception handler passes on. */
  type Fault = r: Reason | !r.Ipc? witness Other

  datatype EntryPoint = EntryPoint(entry: nat, valid: bool)

  datatype Domain = Domain(
    invokePermMap: seq<bv8>,
    ipc: EntryPoint,
    vmemFault: EntryPoint,
    illegalOpcode: EntryPoint,
    alignment: EntryPoint,
    debug: EntryPoint,
    arithmetic: EntryPoint,
    other: EntryPoint)

  /** The table of domains, by domain id. */
  type Universe = seq<Option<Domain>>

  datatype Entry = Entry(invoking: nat, reason: Reason, returnAddress: nat, vmemFault: nat, errorCode: nat)

  datatype Place = Place(domain: nat, pc: nat, stack: seq<Entry>)

  datatype Errno = Done | Einval | Efault

  datatype Op =
    | Call(domId: nat, from: nat)
    | Raise(reason: Fault, from: nat, vmemFault: nat, errorCode: nat)
    | Return
    | SetReturn(address: nat)

  predicate Exists(u: Universe, d: nat) { d < |u| && u[d].Some? }

  /** Where an invocation of a domain enters it; an unknown reason has no valid entry. */
  function PointOf(d: Domain, r: Reason): EntryPoint {
    match r
    case Invalid => EntryPoint(0, false)
    case Ipc => d.ipc
    case VmemFault => d.vmemFault
    case IllegalOpcode => d.illegalOpcode
    case Alignment => d.alignment
    case Debug => d.debug
    case Arithmetic => d.arithmetic
    case Other => d.other
  }

  /** `kDomainUniverseAuthenticateInvocation` */
  predicate Permitted(u: Universe, caller: nat, callee: nat)
    requires Exists(u, caller)
  {
    Exists(u, callee) && u[callee].value.ipc.valid && Bitmap.Has(u[caller].value.invokePermMap, callee)
  }

  /** `kDomainPushInvocationEntry` */
  function Push(u: Universe, bound: nat, p: Place, callee: nat, e: Entry): (Place, Errno)
    requires Exists(u, callee)
  {
    if |p.stack| == bound then (p, if e.reason.Ipc? then Einval else Efault)
    else if !PointOf(u[callee].value, e.reason).valid then (p, Einval)
    else (Place(callee, PointOf(u[callee].value, e.reason).entry, p.stack + [e]), Done)
  }

  /** `kDomainPopInvocationEntry` */
  function Pop(p: Place): (Place, Errno) {
    if p.stack == [] then (p, Einval)
    else
      var e := p.stack[|p.stack| - 1];
      (Place(e.invoking, e.returnAddress, p.stack[..|p.stack| - 1]), Done)
  }

  function Step(u: Universe, bound: nat, p: Place, op: Op): (Place, Errno)
    requires Exists(u, p.domain)
  {
    match op
    case Call(callee, from) =>
      if !Permitted(u, p.domain, callee) then (p, Einval)
      else Push(u, bound, p, callee, Entry(p.domain, Ipc, from, 0, 0))
    case Raise(r, from, fault, code) => Push(u, bound, p, p.domain, Entry(p.domain, r, from, fault, code))
    case Return => Pop(p)
    case SetReturn(address) =>
      var n := |p.stack|;
      if n == 0 || p.stack[n - 1].reason.Ipc? then (p, Einval)
      else (p.(stack := p.stack[n - 1 := p.stack[n - 1].(returnAddress := address)]), Done)
  }

  // ------------------------------------------------------------------------
  // What every run keeps.

  /** The domain that makes an IPC has the bit of the domain it calls in its own map, and that domain takes IPC. */
  ghost predicate MayCall(u: Universe, caller: nat, callee: nat)
    requires Exists(u, caller)
  {
    && callee < |u| && u[callee].Some? && u[callee].value.ipc.valid
    && callee / 8 < |u[caller].value.invokePermMap|
    && Bitmap.Bit(u[caller].value.invokePermMap[callee / 8], callee % 8)
  }

  /** The domain that runs above entry `i`. */
  function Above(p: Place, i: nat): nat
    requires i < |p.stack|
  {
    if i + 1 < |p.stack| then p.stack[i + 1].invoking else p.domain
  }

  /** One edge of the stack: an exception stays in its domain, an IPC follows a permission. */
  ghost predicate Edge(u: Universe, p: Place, i: nat)
    requires i < |p.stack|
  {
    var e, d := p.stack[i], Above(p, i);
    && Exists(u, e.invoking) && Exists(u, d)
    && (if e.reason.Ipc? then MayCall(u, e.invoking, d) else e.invoking == d)
    && PointOf(u[d].value, e.reason).valid
  }

  ghost predicate Sound(u: Universe, bound: nat, p: Place) {
    && Exists(u, p.domain) && |p.stack| <= bound
    && forall i :: 0 <= i < |p.stack| ==> Edge(u, p, i)
  }

  lemma StepSound(u: Universe, bound: nat, p: Place, op: Op)
    requires Sound(u, bound, p)
    ensures Sound(u, bound, Step(u, bound, p, op).0)
  {
    hide Bitmap.Bit, PointOf;
    var q := Step(u, bound, p, op).0;
    forall i | 0 <= i < |q.stack| ensures Edge(u, q, i) {
      if i < |p.stack| {
        assert Edge(u, p, i);
      }
    }
    if op.Return? && p.stack != [] {
      assert Edge(u, p, |p.stack| - 1);
    }
  }

  /**
   A run of operations. Every adjacent pair of domains on its stack stays an exception taken in place or a permitted
   IPC, and the stack never outgrows its bound.
   */
  function After(u: Universe, bound: nat, p: Place, ops: seq<Op>): (q: Place)
    requires Sound(u, bound, p)
    ensures Sound(u, bound, q)
    decreases |ops|
  {
    if ops == [] then p
    else
      StepSound(u, bound, p, ops[0]);
      After(u, bound, Step(u, bound, p, ops[0]).0, ops[1..])
  }

  /** Whether the domain has a handler for the exception. */
  predicate Handles(d: Domain, r: Fault) {
    || (r == VmemFault && d.vmemFault.valid) || (r == IllegalOpcode && d.illegalOpcode.valid)
    || (r == Alignment && d.alignment.valid) || (r == Debug && d.debug.valid)
    || (r == Arithmetic && d.arithmetic.valid) || (r == Other && d.other.valid)
  }

  /** An operation that is refused changes nothing, and exactly these are refused. */
  lemma RefusedChangesNothing(u: Universe, bound: nat, p: Place, op: Op)
    requires Sound(u, bound, p)
    ensures Step(u, bound, p, op).1 != Done ==> Step(u, bound, p, op).0 == p
    ensures Step(u, bound, p, op).1 == Done <==>
      match op
      case Call(callee, _) => MayCall(u, p.domain, callee) && |p.stack| < bound
      case Raise(r, _, _, _) => Handles(u[p.domain].value, r) && |p.stack| < bound
      case Return => p.stack != []
      case SetReturn(_) => p.stack != [] && !p.stack[|p.stack| - 1].reason.Ipc?
    ensures Step(u, bound, p, op).1 == Efault <==> op.Raise? && |p.stack| == bound
  {
  }

  /** Where an operation that is carried out goes: into the entry point registered for it, in the right domain. */
  lemma EntersAt(u: Universe, bound: nat, p: Place, op: Op)
    requires Sound(u, bound, p) && Step(u, bound, p, op).1 == Done && (op.Call? || op.Raise?)
    ensures var q, d := Step(u, bound, p, op).0, if op.Call? then op.domId else p.domain;
      && q.domain == d && Exists(u, d)
      && |q.stack| == |p.stack| + 1 && q.stack[..|p.stack|] == p.stack && q.stack[|p.stack|].invoking == p.domain
      && var at := u[d].value;
      if op.Call? then q.pc == at.ipc.entry && q.stack[|p.stack|].reason.Ipc?
      else
        && q.stack[|p.stack|].reason == op.reason
        && q.stack[|p.stack|].vmemFault == op.vmemFault && q.stack[|p.stack|].errorCode == op.errorCode
        && (op.reason.VmemFault? ==> q.pc == at.vmemFault.entry)
        && (op.reason.IllegalOpcode? ==> q.pc == at.illegalOpcode.entry)
        && (op.reason.Alignment? ==> q.pc == at.alignment.entry)
        && (op.reason.Debug? ==> q.pc == at.debug.entry)
        && (op.reason.Arithmetic? ==> q.pc == at.arithmetic.entry)
        && (op.reason.Other? ==> q.pc == at.other.entry)
  {
  }

  /**
   In every state of every run, each IPC on the stack went from a domain that has the bit of the domain above it in its
   own map to one that takes IPC; every other entry is an exception taken in place.
   */
  lemma CallsArePermitted(u: Universe, bound: nat, start: nat, pc: nat, ops: seq<Op>, i: nat)
    requires Exists(u, start)
    requires var p := After(u, bound, Place(start, pc, []), ops); i < |p.stack|
    ensures var p := After(u, bound, Place(start, pc, []), ops);
      var e, d := p.stack[i], if i + 1 < |p.stack| then p.stack[i + 1].invoking else p.domain;
      && Exists(u, e.invoking) && Exists(u, d)
      && if e.reason.Ipc? then MayCall(u, e.invoking, d) else d == e.invoking
  {
    assert Edge(u, After(u, bound, Place(start, pc, []), ops), i);
  }

  // ------------------------------------------------------------------------
  // Round trips.

  /** The stack never gets shorter than `k` entries during the run. */
  predicate StaysAbove(u: Universe, bound: nat, p: Place, ops: seq<Op>, k: nat)
    requires Sound(u, bound, p)
    decreases |ops|
  {
    && |p.stack| >= k
    && (ops == [] ||
        (StepSound(u, bound, p, ops[0]); StaysAbove(u, bound, Step(u, bound, p, ops[0]).0, ops[1..], k)))
  }

  predicate SetsReturn(p: Place, op: Op, k: nat) {
    op.SetReturn? && |p.stack| == k && k > 0 && !p.stack[k - 1].reason.Ipc?
  }

  /** The address set last by a handler running directly above entry `k - 1`, or `start` if none did. */
  function LastSet(u: Universe, bound: nat, p: Place, ops: seq<Op>, k: nat, start: nat): nat
    requires Sound(u, bound, p)
    decreases |ops|
  {
    if ops == [] then start
    else
      StepSound(u, bound, p, ops[0]);
      LastSet(u, bound, Step(u, bound, p, ops[0]).0, ops[1..], k,
        if SetsReturn(p, ops[0], k) then ops[0].address else start)
  }

  /** What a run above depth `k` leaves of the `k` entries below it: everything but the newest one's return address. */
  lemma {:induction false} BelowUntouched(u: Universe, bound: nat, p: Place, ops: seq<Op>, k: nat)
    requires Sound(u, bound, p) && k > 0 && StaysAbove(u, bound, p, ops, k)
    ensures var q := After(u, bound, p, ops);
      && |q.stack| >= k
      && q.stack[..k - 1] == p.stack[..k - 1]
      && q.stack[k - 1] == p.stack[k - 1].(
           returnAddress := LastSet(u, bound, p, ops, k, p.stack[k - 1].returnAddress))
    decreases |ops|
  {
    if ops != [] {
      StepSound(u, bound, p, ops[0]);
      var n := Step(u, bound, p, ops[0]).0;
      BelowUntouched(u, bound, n, ops[1..], k);
      assert n.stack[..k - 1] == p.stack[..k - 1];
      assert n.stack[k - 1] == p.stack[k - 1].(
        returnAddress := if SetsReturn(p, ops[0], k) then ops[0].address else p.stack[k - 1].returnAddress);
    }
  }

  /** Only the handler of an exception can set a return address. */
  lemma {:induction false} IpcAddressKept(u: Universe, bound: nat, p: Place, ops: seq<Op>, k: nat, start: nat)
    requires Sound(u, bound, p) && k > 0 && StaysAbove(u, bound, p, ops, k) && p.stack[k - 1].reason.Ipc?
    ensures LastSet(u, bound, p, ops, k, start) == start
    decreases |ops|
  {
    if ops != [] {
      StepSound(u, bound, p, ops[0]);
      var n := Step(u, bound, p, ops[0]).0;
      assert n.stack[k - 1].reason.Ipc?;
      IpcAddressKept(u, bound, n, ops[1..], k, start);
    }
  }

  /**
   A call or an exception, any well-nested run of the domain it enters, and the return: the caller is back in its
   domain with its stack, and continues where it called from, unless its exception handler set another address.
   */
  lemma RoundTrip(u: Universe, bound: nat, p: Place, op: Op, body: seq<Op>)
    requires Sound(u, bound, p) && (op.Call? || op.Raise?) && Step(u, bound, p, op).1 == Done
    requires Sound(u, bound, Step(u, bound, p, op).0)
    requires StaysAbove(u, bound, Step(u, bound, p, op).0, body, |p.stack| + 1)
    requires |After(u, bound, Step(u, bound, p, op).0, body).stack| == |p.stack| + 1
    ensures var inside := Step(u, bound, p, op).0;
      var (back, err) := Step(u, bound, After(u, bound, inside, body), Return);
      && err == Done && back.domain == p.domain && back.stack == p.stack
      && back.pc == LastSet(u, bound, inside, body, |p.stack| + 1, op.from)
      && (op.Call? ==> back.pc == op.from)
  {
    var inside, k := Step(u, bound, p, op).0, |p.stack| + 1;
    BelowUntouched(u, bound, inside, body, k);
    var q := After(u, bound, inside, body);
    assert q.stack == q.stack[..k - 1] + [q.stack[k - 1]];
    if op.Call? {
      IpcAddressKept(u, bound, inside, body, k, op.from);
    }
  }

  // ------------------------------------------------------------------------
  // The data structure.

  class Task {
    const universe: Universe
    const stack: array<Entry>
    var curDomain: nat
    var depth: nat
    var pc: nat

    ghost function View(): Place
      requires depth <= stack.Length
      reads this, stack
    {
      Place(curDomain, pc, stack[..depth])
    }

    ghost predicate Valid()
      reads this, stack
    {
      depth <= stack.Length && Sound(universe, stack.Length, View())
    }

    constructor (universe: Universe, start: nat, pc: nat, bound: nat)
      requires Exists(universe, start)
      ensures Valid() && this.universe == universe && stack.Length == bound
      ensures View() == Place(start, pc, [])
    {
      this.universe, curDomain, depth, this.pc := universe, start, 0, pc;
      stack := new Entry[bound](_ => Entry(0, Invalid, 0, 0, 0));
    }

    /** `kDomainPushInvocationEntry`; setting the program counter is left to the caller. */
    method PushEntry(invoked: nat, reason: Reason, returnAddress: nat, vmemFault: nat, errorCode: nat)
      returns (err: Errno, newPc: nat)
      requires depth <= stack.Length && Exists(universe, invoked)
      modifies this`curDomain, this`depth, stack
      ensures depth <= stack.Length
      ensures
        var (q, r) := Push(universe, stack.Length, old(View()), invoked,
          Entry(old(curDomain), reason, returnAddress, vmemFault, errorCode));
        err == r && newPc == q.pc && View() == q.(pc := pc)
    {
      newPc := pc;
      if depth == stack.Length {
        return if reason.Ipc? then Einval else Efault, pc;
      }
      var point := PointOf(universe[invoked].value, reason);
      if !point.valid {
        return Einval, pc;
      }
      stack[depth] := Entry(curDomain, reason, returnAddress, vmemFault, errorCode);
      curDomain := invoked;
      depth := depth + 1;
      return Done, point.entry;
    }

    /** `kDomainPopInvocationEntry` */
    method PopEntry() returns (err: Errno, newPc: nat)
      requires depth <= stack.Length
      modifies this`curDomain, this`depth, stack
      ensures depth <= stack.Length
      ensures var (q, r) := Pop(old(View())); err == r && newPc == q.pc && View() == q.(pc := pc)
    {
      if depth == 0 {
        return Einval, pc;
      }
      var e := stack[depth - 1];
      stack[depth - 1] := e.(reason := Invalid);
      depth := depth - 1;
      curDomain := e.invoking;
      return Done, e.returnAddress;
    }

    /** `kInvocationCtrlDoIpc`; `from` is where the system call would return to. */
    method DoIpc(domId: nat, from: nat) returns (err: Errno)
      requires Valid()
      modifies this`curDomain, this`depth, this`pc, stack
      ensures Valid()
      ensures (View(), err) == Step(universe, stack.Length, old(View()), Call(domId, from))
      ensures err == Done <==> MayCall(universe, old(curDomain), domId) && old(depth) < stack.Length
      ensures err == Done ==> curDomain == domId && pc == universe[domId].value.ipc.entry
    {
      StepSound(universe, stack.Length, View(), Call(domId, from));
      if !Permitted(universe, curDomain, domId) {
        return Einval;
      }
      var newPc;
      err, newPc := PushEntry(domId, Ipc, from, 0, 0);
      if err.Done? {
        pc := newPc;
      }
    }

    /** `kInvocationCtrlDoReturn` */
    method DoReturn() returns (err: Errno)
      requires Valid()
      modifies this`curDomain, this`depth, this`pc, stack
      ensures Valid()
      ensures (View(), err) == Step(universe, stack.Length, old(View()), Return)
    {
      StepSound(universe, stack.Length, View(), Return);
      var newPc;
      err, newPc := PopEntry();
      if err.Done? {
        pc := newPc;
      }
    }

    /** `kInvocationCtrlSetReturnAddress` */
    method SetReturnAddress(address: nat) returns (err: Errno)
      requires Valid()
      modifies stack
      ensures Valid()
      ensures (View(), err) == Step(universe, stack.Length, old(View()), SetReturn(address))
    {
      StepSound(universe, stack.Length, View(), SetReturn(address));
      if depth == 0 {
        return Einval;
      }
      if stack[depth - 1].reason.Ipc? {
        return Einval;
      }
      stack[depth - 1] := stack[depth - 1].(returnAddress := address);
      return Done;
    }

    /** `kExceptionHandler`: the task fails when the exception is fatal or its domain has no handler to run. */
    method HandleException(fail: bool, reason: Fault, from: nat, vmemFault: nat, errorCode: nat) returns (failed: bool)
      requires Valid()
      modifies this`curDomain, this`depth, this`pc, stack
      ensures Valid()
      ensures var (q, r) := Step(universe, stack.Length, old(View()), Raise(reason, from, vmemFault, errorCode));
        && failed == (fail || r != Done)
        && View() == if failed then old(View()) else q
    {
      if fail {
        return true;
      }
      StepSound(universe, stack.Length, View(), Raise(reason, from, vmemFault, errorCode));
      var err, newPc := PushEntry(curDomain, reason, from, vmemFault, errorCode);
      if err.Done? {
        pc := newPc;
        return false;
      }
      return true;
    }
  }
}
