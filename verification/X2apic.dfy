/**
 The emulated local APIC of one vCPU (arch/x86_64/ia32e/src/ia32eEmulator.c).

 The request and service registers are bitmaps. `nested` lists the vectors in service, the most recently
 injected first, and `Valid` says that the ISR is nothing but this stack (Intel SDM Vol. 3A, 10.8.3.1 and 10.8.4).
 */
module X2apic {
  import Tasks
  import opened VectorMap
  import opened Startup

  /** What the event manager writes into the interruption-information field of a VM entry. */
  datatype Injection = Nothing | NmiEvent | External(vector: nat)

  function Class(vector: nat): nat { vector / 16 }

  /** A service stack: priority classes rise strictly towards the top, so no class is there twice. */
  predicate Stacked(n: seq<nat>) {
    && (forall i :: 0 <= i < |n| ==> 16 <= n[i] < 256)
    && (forall i, j :: 0 <= i < j < |n| ==> Class(n[i]) > Class(n[j]))
  }

  ghost function Members(n: seq<nat>): set<nat> { set v | v in n }

  lemma TopIsMax(n: seq<nat>, v: nat)
    requires Stacked(n) && v in n && forall u :: u in Members(n) ==> u <= v
    ensures v == n[0]
  {
    var i :| 0 <= i < |n| && n[i] == v;
    assert n[0] in Members(n);
  }

  lemma NothingServed(n: seq<nat>)
    ensures Members(n) == {} <==> n == []
  {
    if n != [] {
      assert n[0] in Members(n);
    }
  }

  lemma Popped(n: seq<nat>)
    requires Stacked(n) && n != []
    ensures Stacked(n[1..]) && Members(n[1..]) == Members(n) - {n[0]}
  {
    forall v ensures v in Members(n[1..]) <==> v in Members(n) && v != n[0] {
      if v in n && v != n[0] {
        var i :| 0 <= i < |n| && n[i] == v;
        assert n[1..][i - 1] == v;
      }
    }
  }

  /** What arriving packets change in an APIC: its latch and its latched interrupts. */
  datatype Inbox = Inbox(latch: Latch, irr: set<nat>)

  function Receive(box: Inbox, p: Packet, self: bool, enabled: bool): Inbox {
    Inbox(Deliver(box.latch, p, self), DeliverIrr(box.irr, p, enabled))
  }

  function ReceiveAll(box: Inbox, ps: seq<Packet>, enabled: bool): Inbox
    decreases ps
  {
    if ps == [] then box else ReceiveAll(Receive(box, ps[0], false, enabled), ps[1..], enabled)
  }

  /** Nothing that is sent is lost: an enabled APIC latches every fixed vector above 15, and any APIC an NMI. */
  lemma {:induction false} AllLatched(box: Inbox, ps: seq<Packet>, enabled: bool)
    ensures var after := ReceiveAll(box, ps, enabled);
      && (forall v :: v in after.irr <==> v in box.irr || (enabled && v > 15 && Normal(v) in ps))
      && (after.latch.nmiPending <==> box.latch.nmiPending || Nmi in ps)
    decreases ps
  {
    if ps != [] {
      AllLatched(Receive(box, ps[0], false, enabled), ps[1..], enabled);
      assert ps == [ps[0]] + ps[1..];
    }
  }

  predicate Sendable(p: Packet) {
    p.Normal? ==> p.vector < 256
  }

  /** The vectors below `n`. */
  ghost function Below(w: seq<bv32>, n: nat): set<nat> {
    set v | v in Vectors(w) && v < n
  }

  lemma BelowNext(w: seq<bv32>, n: nat)
    requires n < 32 * |w|
    ensures Below(w, n + 1) == Below(w, n) + if Has(w, n) then {n} else {}
    ensures Has(w, n) <==> n in Vectors(w)
    ensures n == 0 ==> Below(w, n) == {}
  {
    hide Has;
  }

  lemma AllBelow(w: seq<bv32>)
    ensures Below(w, 32 * |w|) == Vectors(w) && Below(w, 0) == {}
  {
    hide Has;
  }

  class Lapic {
    var latch: Latch
    const latchedIrr: array<bv32>
    const irr: array<bv32>
    const isr: array<bv32>
    var tpr: nat
    var tprSubclass: nat
    var sivr: nat
    var icrLow: bv32
    var icrDest: bv32
    var sendIllegal: bool
    var recvIllegal: bool
    ghost var nested: seq<nat>

    ghost predicate Valid()
      reads this`tpr, this`tprSubclass, this`sivr, this`nested, latchedIrr, irr, isr
    {
      && latchedIrr.Length == 8 && irr.Length == 8 && isr.Length == 8
      && latchedIrr != irr && latchedIrr != isr && irr != isr
      && tpr <= 15 && tprSubclass <= 15 && sivr <= 0x1ff
      && Stacked(nested) && Vectors(isr[..]) == Members(nested)
      && (forall v :: v in Vectors(irr[..]) ==> v > 15)
      && (forall v :: v in Vectors(latchedIrr[..]) ==> v > 15)
    }

    predicate Enabled()
      reads this`sivr
    {
      sivr / 256 % 2 == 1
    }

    /** The processor priority: no interrupt of this class or a lower one is delivered. */
    ghost function Priority(): nat
      reads this`tpr, this`nested
    {
      Tasks.Max(tpr, if nested == [] then 0 else Class(nested[0]))
    }

    /** An interrupt is deliverable: requested, and above the processor priority. */
    ghost predicate Deliverable(v: nat)
      reads this`sivr, this`tpr, this`nested, irr
    {
      Enabled() && v in Vectors(irr[..]) && Class(v) > Priority()
    }

    ghost predicate AnyDeliverable()
      reads this`sivr, this`tpr, this`nested, irr
    {
      exists v :: Deliverable(v)
    }

    constructor ()
      ensures Valid() && nested == [] && tpr == 0 && sivr == 0
      ensures latch == CLEAR && icrLow == icrDest == 0 && Vectors(irr[..]) == {} && Vectors(latchedIrr[..]) == {}
      ensures !sendIllegal && !recvIllegal && fresh(latchedIrr) && fresh(irr) && fresh(isr)
    {
      latch, tpr, tprSubclass, sivr, sendIllegal, recvIllegal, nested := CLEAR, 0, 0, 0, false, false, [];
      icrLow, icrDest := 0, 0;
      latchedIrr := new bv32[8](_ => 0);
      irr := new bv32[8](_ => 0);
      isr := new bv32[8](_ => 0);
    }

    /** At most one vector of each of the sixteen priority classes is in service, and none of class zero. */
    lemma OnePerClass(u: nat, v: nat)
      requires Valid() && u in Vectors(isr[..]) && v in Vectors(isr[..]) && Class(u) == Class(v)
      ensures u == v && Class(u) > 0
    {
      hide Vectors;
      var i :| 0 <= i < |nested| && nested[i] == u;
      var j :| 0 <= j < |nested| && nested[j] == v;
    }

    /** `GetIsrv` */
    method GetIsrv() returns (vector: nat)
      requires Valid()
      ensures vector == if nested == [] then 0 else nested[0]
    {
      var top := Scan(isr);
      if top < 0 {
        NothingServed(nested);
        return 0;
      }
      TopIsMax(nested, top);
      vector := top;
    }

    /** The priority is the greatest of the task priority and the classes of the vectors in service. */
    lemma PriorityIs()
      requires Valid()
      ensures tpr <= Priority() <= 15 && forall v :: v in Vectors(isr[..]) ==> Class(v) <= Priority()
      ensures Priority() == tpr || exists v :: v in Vectors(isr[..]) && Class(v) == Priority()
    {
      hide Vectors;
      forall v | v in Members(nested) ensures Class(v) <= Priority() {
        var i :| 0 <= i < |nested| && nested[i] == v;
      }
      if nested != [] {
        assert nested[0] in Members(nested);
      }
    }

    /** `GetPpr` */
    method GetPpr() returns (ppr: nat)
      requires Valid()
      ensures ppr == Priority() && tpr <= ppr <= 15 && forall v :: v in Vectors(isr[..]) ==> Class(v) <= ppr
      ensures ppr == tpr || exists v :: v in Vectors(isr[..]) && Class(v) == ppr
    {
      hide Vectors;
      PriorityIs();
      var vector := GetIsrv();
      ppr := Tasks.Max(tpr, vector / 16);
    }

    /** `UnsetIsrv`: the highest vector in service is done. */
    method UnsetIsrv()
      requires Valid()
      modifies this`nested, isr
      ensures Valid()
      ensures nested == if old(nested) == [] then [] else old(nested)[1..]
    {
      var top := Scan(isr);
      if top >= 0 {
        TopIsMax(nested, top);
        Popped(nested);
        Lower(isr, top);
        nested := nested[1..];
      } else {
        NothingServed(nested);
      }
    }

    /** `SetIsrv` for a vector whose class is above the processor priority. */
    method SetIsrv(vector: nat)
      requires Valid() && 16 <= vector < 256
      requires nested != [] ==> Class(vector) > Class(nested[0])
      modifies this`nested, isr
      ensures Valid() && nested == [vector] + old(nested)
    {
      Raise(isr, vector);
      nested := [vector] + nested;
      assert Members(nested) == Members(old(nested)) + {vector};
    }

    /** A write to the EOI register. */
    method WriteEoi(val: nat) returns (valid: bool)
      requires Valid()
      modifies this`nested, isr
      ensures Valid() && valid == (val == 0)
      ensures nested == if valid && Enabled() && old(nested) != [] then old(nested)[1..] else old(nested)
    {
      if val != 0 {
        return false;
      }
      if sivr / 256 % 2 == 1 {
        UnsetIsrv();
      }
      return true;
    }

    /** A write to the task-priority register. */
    method WriteTpr(val: nat) returns (valid: bool)
      requires Valid()
      modifies this`tpr, this`tprSubclass
      ensures Valid() && valid == (val < 0x100)
      ensures if valid then tpr * 16 + tprSubclass == val else tpr == old(tpr) && tprSubclass == old(tprSubclass)
    {
      if val > 0xff {
        return false;
      }
      tpr := val / 16;
      tprSubclass := val % 16;
      return true;
    }

    /** A write to the spurious-interrupt vector register. */
    method WriteSivr(val: nat) returns (valid: bool)
      requires Valid()
      modifies this`sivr
      ensures Valid() && valid == (val < 0x200) && sivr == if valid then val else old(sivr)
    {
      if val > 0x1ff {
        return false;
      }
      sivr := val;
      return true;
    }

    /** `GetIrrPending` */
    method GetIrrPending() returns (vector: int)
      requires Valid()
      ensures vector == -1 || 16 <= vector < 256
      ensures vector == -1 <==> !Enabled() || Vectors(irr[..]) == {}
      ensures vector != -1 ==> vector in Vectors(irr[..]) && forall u :: u in Vectors(irr[..]) ==> u <= vector
    {
      if sivr / 256 % 2 == 0 {
        return -1;
      }
      vector := Scan(irr);
    }

    /** `UnsetIrrPending` */
    method UnsetIrrPending(ghost vector: nat)
      requires Valid() && vector in Vectors(irr[..]) && forall u :: u in Vectors(irr[..]) ==> u <= vector
      modifies irr
      ensures Valid() && Vectors(irr[..]) == Vectors(old(irr[..])) - {vector}
    {
      var top := Scan(irr);
      Lower(irr, top);
    }

    /** An external interrupt from a plugin goes straight into the IRR. */
    method Request(vector: nat)
      requires Valid() && 15 < vector < 256
      modifies irr
      ensures Valid()
      ensures Vectors(irr[..]) == Vectors(old(irr[..])) + if Enabled() then {vector} else {}
    {
      if sivr / 256 % 2 == 1 {
        Raise(irr, vector);
      }
    }

    ghost function Box(): Inbox
      reads this`latch, latchedIrr
    {
      Inbox(latch, Vectors(latchedIrr[..]))
    }

    /** What `SendPacket` does to the receiver inside its latch lock. */
    method Accept(p: Packet, self: bool)
      requires Valid() && Sendable(p)
      modifies this`latch, latchedIrr
      ensures Valid()
      ensures Box() == Receive(old(Box()), p, self, Enabled())
    {
      hide Vectors;
      match p {
        case Normal(vector) =>
          if sivr / 256 % 2 == 1 && vector > 15 {
            Raise(latchedIrr, vector);
          }
        case Nmi =>
          latch := latch.(nmiPending := true);
        case Init =>
          if !self {
            latch := latch.(initPending := !latch.waitForSipi, sipiPending := false);
          }
        case Sipi(vector) =>
          if !self {
            if (latch.waitForSipi || latch.initPending) && !latch.sipiPending {
              latch := latch.(sipiVector := vector, sipiPending := true);
            }
          }
      }
    }

    /** The lock section in which the event manager takes a pending INIT; it discards what was latched before. */
    method AcceptInit() returns (initPending: bool)
      requires Valid()
      modifies this`latch, latchedIrr
      ensures Valid() && initPending == old(latch).initPending && latch == TakeInit(old(latch))
      ensures Vectors(latchedIrr[..]) == if initPending then {} else Vectors(old(latchedIrr[..]))
    {
      initPending := latch.initPending;
      if initPending {
        latch := latch.(initPending := false);
        latch := latch.(waitForSipi := true);
        latch := latch.(nmiPending := false);
        Wipe(latchedIrr);
      }
    }

    /** One turn of the SIPI loop of the event manager. */
    method AcceptSipi() returns (sipiPending: bool, sipiVector: nat)
      requires Valid()
      modifies this`latch
      ensures Valid() && latch == TakeSipi(old(latch))
      ensures sipiPending == old(latch).sipiPending && sipiVector == old(latch).sipiVector
    {
      sipiPending, sipiVector := latch.sipiPending, latch.sipiVector;
      latch := latch.(waitForSipi := !sipiPending);
      latch := latch.(sipiPending := false);
      latch := latch.(sipiVector := 0);
    }

    /** `CheckLatchedIrr`: what other vCPUs latched becomes requested. */
    method CheckLatchedIrr()
      requires Valid()
      modifies irr, latchedIrr
      ensures Valid()
      ensures Vectors(latchedIrr[..]) == {}
      ensures Vectors(irr[..]) == Vectors(old(irr[..])) + Vectors(old(latchedIrr[..]))
    {
      var newInterrupts := Drain();
      AllBelow(newInterrupts);
      hide Vectors, Below;
      var i := 0;
      while i < 256
        invariant 0 <= i <= 256 && Valid() && Vectors(latchedIrr[..]) == {}
        invariant Vectors(irr[..]) == Vectors(old(irr[..])) + Below(newInterrupts, i)
      {
        BelowNext(newInterrupts, i);
        if Has(newInterrupts, i) {
          Raise(irr, i);
        }
        i := i + 1;
      }
    }

    /** The lock section of `CheckLatchedIrr`. */
    method Drain() returns (words: seq<bv32>)
      requires Valid()
      modifies latchedIrr
      ensures Valid()
      ensures words == old(latchedIrr[..]) && Vectors(latchedIrr[..]) == {}
    {
      words := latchedIrr[..];
      Wipe(latchedIrr);
    }

    /** `X2apicReset`, on the vCPU that is being launched. */
    method Reset()
      requires Valid()
      modifies this, irr, isr
      ensures Valid() && nested == [] && Vectors(irr[..]) == {} && Vectors(isr[..]) == {}
      ensures tpr == tprSubclass == 0 && sivr == 0xff && !Enabled() && icrLow == icrDest == 0
      ensures !sendIllegal && !recvIllegal
      ensures latch == old(latch)
    {
      tpr, tprSubclass, sivr := 0, 0, 0xff;
      Wipe(irr);
      Wipe(isr);
      sendIllegal, recvIllegal, nested := false, false, [];
      icrLow, icrDest := 0, 0;
    }

    /** The value of the last accepted write to the interrupt command register. */
    method StoreIcr(low: bv32, dest: bv32)
      requires Valid()
      modifies this`icrLow, this`icrDest
      ensures Valid() && icrLow == low && icrDest == dest
    {
      icrLow, icrDest := low, dest;
    }

    /**
     The highest requested vector goes into service; nothing requested can be above the new processor priority.
     */
    method InjectExternal(vector: nat)
      requires Valid() && Deliverable(vector) && forall u :: u in Vectors(irr[..]) ==> u <= vector
      modifies this`nested, irr, isr
      ensures Valid() && nested == [vector] + old(nested)
      ensures Vectors(irr[..]) == Vectors(old(irr[..])) - {vector}
      ensures !AnyDeliverable()
    {
      UnsetIrrPending(vector);
      SetIsrv(vector);
    }

    /**
     Steps 6 and 7 of the event manager: what is injected at this VM entry, and which window exits are armed.
     `injected` says that step 5 already injected something.
     */
    method Inject(injected: bool, nmisBlocked: bool, intsBlocked: bool, guestIf: bool)
      returns (e: Injection, nmiWindow: bool, intWindow: bool)
      requires Valid()
      modifies this`latch, this`nested, irr, isr
      ensures Valid()
      // What is injected, and when.
      ensures e.NmiEvent? <==> !injected && old(latch).nmiPending && !nmisBlocked
      ensures e.External? <==>
        && !injected && !e.NmiEvent? && guestIf && !intsBlocked
        && old(AnyDeliverable())
      ensures e.External? ==>
        old(Deliverable(e.vector)) && forall v :: v in Vectors(old(irr[..])) ==> v <= e.vector
      // What that does to the APIC.
      ensures nested == if e.External? then [e.vector] + old(nested) else old(nested)
      ensures Vectors(irr[..]) == Vectors(old(irr[..])) - if e.External? then {e.vector} else {}
      ensures latch == old(latch).(nmiPending := old(latch).nmiPending && !e.NmiEvent?)
      // Nothing pending is left without a window exit, and no window exit is armed for nothing.
      ensures nmiWindow == latch.nmiPending
      ensures intWindow <==> AnyDeliverable()
    {
      hide Vectors;
      e := Nothing;
      nmiWindow := latch.nmiPending;
      var vector := GetIrrPending();
      var ppr := GetPpr();
      intWindow := vector >= 0 && ppr < vector / 16;
      assert intWindow <==> AnyDeliverable() by {
        if intWindow {
          assert Deliverable(vector);
        }
      }
      if !injected {
        if nmiWindow && !nmisBlocked {
          e, nmiWindow := NmiEvent, false;
          latch := latch.(nmiPending := false);
        } else if intWindow && guestIf && !intsBlocked {
          e, intWindow := External(vector), false;
          InjectExternal(vector);
        }
      }
    }

    /** What may be injected at this entry: requested before it, latched by others, or handed over by the plugin. */
    ghost function Pool(plugin: int): set<nat>
      reads this`sivr, irr, latchedIrr
    {
      Vectors(irr[..]) + Vectors(latchedIrr[..]) + if Enabled() && plugin > 15 then {plugin as nat} else {}
    }

    ghost predicate PoolDeliverable(plugin: int)
      reads this`sivr, this`tpr, this`nested, irr, latchedIrr
    {
      Enabled() && exists v :: v in Pool(plugin) && Class(v) > Priority()
    }

    /** Packets that arrive one after the other. */
    method AcceptAll(ps: seq<Packet>)
      requires Valid() && forall i :: 0 <= i < |ps| ==> Sendable(ps[i])
      modifies this`latch, latchedIrr
      ensures Valid() && Box() == ReceiveAll(old(Box()), ps, Enabled())
    {
      hide Receive, Vectors;
      var i := 0;
      while i < |ps|
        invariant 0 <= i <= |ps| && Valid() && Enabled() == old(Enabled())
        invariant ReceiveAll(Box(), ps[i..], Enabled()) == ReceiveAll(old(Box()), ps, Enabled())
      {
        assert ps[i..][0] == ps[i] && ps[i..][1..] == ps[i + 1..];
        Accept(ps[i], false);
        i := i + 1;
      }
    }

    /**
     Steps 4 to 7 of the event manager as one: what was latched becomes requested, the plugin hands over an external
     interrupt (`plugin`, or -1), other vCPUs go on sending (`arrived`), and then the entry is decided. No interrupt is
     lost: it is injected, or still requested, and the highest goes first.
     */
    method Entry(plugin: int, arrived: seq<Packet>, injected: bool, nmisBlocked: bool, intsBlocked: bool, guestIf: bool)
      returns (e: Injection, nmiWindow: bool, intWindow: bool)
      requires Valid() && (plugin == -1 || 15 < plugin < 256)
      requires forall i :: 0 <= i < |arrived| ==> Sendable(arrived[i])
      modifies this`latch, this`nested, irr, isr, latchedIrr
      ensures Valid()
      ensures var box := ReceiveAll(Inbox(old(latch), {}), arrived, Enabled());
        && (e.NmiEvent? <==> !injected && box.latch.nmiPending && !nmisBlocked)
        && latch == box.latch.(nmiPending := box.latch.nmiPending && !e.NmiEvent?)
        && Vectors(latchedIrr[..]) == box.irr
      ensures e.External? <==>
        !injected && !e.NmiEvent? && guestIf && !intsBlocked && old(PoolDeliverable(plugin))
      ensures e.External? ==>
        && e.vector in old(Pool(plugin)) && Class(e.vector) > old(Priority())
        && forall v :: v in old(Pool(plugin)) ==> v <= e.vector
      ensures Vectors(irr[..]) == old(Pool(plugin)) - if e.External? then {e.vector} else {}
      ensures nested == if e.External? then [e.vector] + old(nested) else old(nested)
      ensures nmiWindow == latch.nmiPending && (intWindow <==> AnyDeliverable())
    {
      hide Vectors, Receive, ReceiveAll;
      CheckLatchedIrr();
      if plugin >= 0 {
        Request(plugin);
      }
      assert Vectors(irr[..]) == old(Pool(plugin));
      AcceptAll(arrived);
      assert AnyDeliverable() <==> old(PoolDeliverable(plugin)) by {
        forall v: nat
          ensures Deliverable(v) <==> Enabled() && v in old(Pool(plugin)) && Class(v) > old(Priority())
        {
        }
      }
      e, nmiWindow, intWindow := Inject(injected, nmisBlocked, intsBlocked, guestIf);
    }
  }
}
