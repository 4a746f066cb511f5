/**
 Interrupts between the vCPUs of a domain: the ICR write and the delivery of its packets
 (arch/x86_64/ia32e/src/ia32eEmulator.c:1068-1252; Intel SDM Vol. 3A, 10.12.9 and 10.12.10).
 */
module Ipi {
  import opened Bits
  import opened Tasks
  import opened VectorMap
  import opened Startup
  import opened X2apic

  /** The logical destination register of vCPU `16 * cluster + k`. */
  function Ldr(cluster: nat, k: nat): bv32
    requires cluster < 16 && k < 16
  {
    (cluster as bv32 << 16) | Mask(k)
  }

  /** Section 10.12.10.2: same cluster, and a common bit in the low half. */
  predicate LogicalMatch(ldr: bv32, dest: bv32) {
    ldr >> 16 == dest >> 16 && ldr & dest & 0xffff != 0
  }

  lemma LdrParts(c: nat, k: nat)
    requires c < 16 && k < 16
    ensures Ldr(c, k) >> 16 == c as bv32 && Ldr(c, k) & 0xffff == Mask(k)
  {
  }

  lemma ClusterNumber(l: bv32, d: bv32, c: nat)
    requires c < 16 && l == c as bv32
    ensures l == d <==> d as nat == c
  {
  }

  lemma LowBitsOf(ldr: bv32, dest: bv32, m: bv32)
    requires ldr & 0xffff == m
    ensures ldr & dest & 0xffff == dest & m
  {
  }

  lemma LdrMatches(c: nat, k: nat, dest: bv32)
    requires c < 16 && k < 16
    ensures LogicalMatch(Ldr(c, k), dest) <==> (dest >> 16) as nat == c && Bit(dest, k)
  {
    LdrParts(c, k);
    ClusterNumber(Ldr(c, k) >> 16, dest >> 16, c);
    LowBitsOf(Ldr(c, k), dest, Mask(k));
  }

  /** The packet an ICR write sends; `None` for the delivery modes that send nothing here. */
  function PacketOf(low: bv32): (p: Option<Packet>)
    ensures p.Some? ==> Sendable(p.value)
  {
    var vector := (low & 0xff) as nat;
    var mode := (low >> 8) & 7;
    if mode == 0 then Some(Normal(vector))
    else if mode == 4 then Some(Nmi)
    else if mode == 5 then Some(Init)
    else if mode == 6 then Some(Sipi(vector))
    else None
  }

  /** An SMI is accepted but goes nowhere. */
  predicate IsSmi(low: bv32) { (low >> 8) & 7 == 2 }

  predicate Reserved(low: bv32) { low & 0xfff33000 != 0 }

  predicate IsLogical(low: bv32) { (low >> 11) & 1 == 1 }

  function Shorthand(low: bv32): bv32 { (low >> 18) & 3 }

  /**
   What a command does to a vCPU it is for, by the value of its delivery mode: a fixed interrupt, an SMI, an NMI, an
   INIT or a start-up. `self` when the sender is that vCPU, `enabled` when its APIC is.
   */
  predicate Effect(low: bv32, self: bool, enabled: bool, was: Inbox, now: Inbox) {
    var mode, vector, l := low & 0x700, (low & 0xff) as nat, was.latch;
    && (mode == 0x000 ==> now == was.(irr := was.irr + if enabled && vector > 15 then {vector} else {}))
    && (mode == 0x200 ==> now == was)
    && (mode == 0x400 ==> now == was.(latch := l.(nmiPending := true)))
    && (mode == 0x500 ==>
      if self then now == was
      else
        && now.irr == was.irr && !now.latch.sipiPending
        && now.latch.waitForSipi == l.waitForSipi && now.latch.nmiPending == l.nmiPending
        && (if l.waitForSipi then !now.latch.initPending else now.latch.initPending))
    && (mode == 0x600 ==>
      if !self && (l.waitForSipi || l.initPending) && !l.sipiPending
      then now == was.(latch := l.(sipiPending := true, sipiVector := vector))
      else now == was)
  }

  /** The delivery modes the emulator takes. */
  predicate Taken(low: bv32) {
    var mode := low & 0x700;
    mode == 0x000 || mode == 0x200 || mode == 0x400 || mode == 0x500 || mode == 0x600
  }

  lemma ModeField(low: bv32)
    ensures (low >> 8) & 7 == 0 <==> low & 0x700 == 0x000
    ensures (low >> 8) & 7 == 2 <==> low & 0x700 == 0x200
    ensures (low >> 8) & 7 == 4 <==> low & 0x700 == 0x400
    ensures (low >> 8) & 7 == 5 <==> low & 0x700 == 0x500
    ensures (low >> 8) & 7 == 6 <==> low & 0x700 == 0x600
  {
  }

  lemma ModesTaken(low: bv32)
    ensures PacketOf(low).Some? || IsSmi(low) <==> Taken(low)
    ensures IsSmi(low) <==> low & 0x700 == 0x200
  {
    ModeField(low);
  }

  lemma PacketEffect(low: bv32, self: bool, enabled: bool, was: Inbox)
    requires PacketOf(low).Some?
    ensures Effect(low, self, enabled, was, Receive(was, PacketOf(low).value, self, enabled))
  {
    ModeField(low);
  }

  lemma LowHalf(d: bv32, j: nat)
    requires j < 32
    ensures Bit(d & 0xffff, j) <==> j < 16 && Bit(d, j)
  {
  }

  predicate Increasing(s: seq<nat>) {
    forall i, j :: 0 <= i < j < |s| ==> s[i] < s[j]
  }

  lemma Append(ts: seq<nat>, id: nat)
    requires Increasing(ts) && forall t :: t in ts ==> t < id
    ensures Increasing(ts + [id])
  {
    assert forall i :: 0 <= i < |ts| ==> ts[i] in ts;
  }

  /** What is left of the low half of `dest` once the bits below `next` are cleared. */
  ghost predicate Remaining(dest: bv32, bits: bv32, next: nat) {
    forall j :: 0 <= j < 32 ==> (Bit(bits, j) <==> next <= j < 16 && Bit(dest, j))
  }

  /** `bit` is the first bit of the low half of `dest` from `next` on, or -1. */
  ghost predicate IsFirst(dest: bv32, next: nat, bit: int) {
    && (bit == -1 || (next <= bit < 16 && Bit(dest, bit)))
    && forall j :: next <= j < (if bit == -1 then 16 else bit) ==> !Bit(dest, j)
  }

  method FirstBit(bits: bv32, ghost dest: bv32, ghost next: nat) returns (bit: int)
    requires Remaining(dest, bits, next)
    ensures IsFirst(dest, next, bit)
    ensures bit != -1 ==> Remaining(dest, bits, bit)
    ensures bit == -1 || next <= bit < 16
  {
    hide Bit;
    bit := Ffs32(bits);
    assert bit != -1 ==> Bit(bits, bit);
  }

  /** Clears `bit` and finds the next one. */
  method DropBit(bits: bv32, bit: nat, ghost dest: bv32) returns (rest: bv32, after: int)
    requires bit < 16 && Remaining(dest, bits, bit)
    ensures Remaining(dest, rest, bit + 1) && IsFirst(dest, bit + 1, after)
    ensures after != -1 ==> Remaining(dest, rest, after)
    ensures after == -1 || bit < after < 16
  {
    hide Bit;
    rest := WithoutBit(bits, bit);
    after := FirstBit(rest, dest, bit + 1);
  }

  /** What others latch in one APIC is none of the registers of the other. */
  predicate Disjoint(a: Lapic, b: Lapic) {
    a.latchedIrr != b.latchedIrr && a.latchedIrr != b.irr && a.latchedIrr != b.isr
  }

  class Bus {
    const apics: seq<Lapic>
    /** The vCPUs that packets were delivered to, in order. */
    ghost var sent: seq<nat>

    ghost predicate Valid()
      reads this, apics, set a | a in apics :: a.latchedIrr, set a | a in apics :: a.irr, set a | a in apics :: a.isr
    {
      && |apics| <= 255
      && (forall a :: a in apics ==> a.Valid())
      && (forall i, j :: 0 <= i < j < |apics| ==> apics[i] != apics[j])
      && (forall i, j :: 0 <= i < |apics| && 0 <= j < |apics| && i != j ==> Disjoint(apics[i], apics[j]))
    }

    /** The vCPUs of a domain, each with its APIC as after a power-up. */
    constructor (n: nat)
      requires n <= 255
      ensures Valid() && |apics| == n && sent == []
      ensures forall a :: a in apics ==> fresh(a) && a.nested == [] && a.latch == CLEAR
      ensures forall i :: 0 <= i < n ==> apics[i].Box() == Inbox(CLEAR, {})
    {
      var made: seq<Lapic> := [];
      while |made| < n
        invariant |made| <= n
        invariant forall a :: a in made ==>
          && fresh(a) && fresh(a.latchedIrr) && fresh(a.irr) && fresh(a.isr)
          && a.Valid() && a.nested == [] && a.Box() == Inbox(CLEAR, {})
        invariant forall i, j :: 0 <= i < j < |made| ==> made[i] != made[j]
        invariant forall i, j :: 0 <= i < |made| && 0 <= j < |made| && i != j ==> Disjoint(made[i], made[j])
      {
        var a := new Lapic();
        made := made + [a];
      }
      apics, sent := made, [];
    }

    lemma FewEnough()
      requires Valid()
      ensures |apics| <= 255
    {
    }

    /** What `SendPacket` records in the error flags of vCPU `i`. */
    ghost predicate SendError(sender: nat, id: nat, p: Packet, i: nat)
      requires sender < |apics| && i < |apics|
      reads apics
    {
      i == sender && id < |apics| && p.Normal? && p.vector <= 15 && (apics[id].Enabled() || apics[i].Enabled())
    }

    ghost predicate RecvError(sender: nat, id: nat, p: Packet, i: nat)
      requires sender < |apics| && i < |apics|
      reads apics
    {
      i == id && i != sender && p.Normal? && p.vector <= 15 && apics[i].Enabled()
    }

    /** A fixed vector below 16: an error of the sender, and of the receiver if its APIC is enabled. */
    method NoteErrors(sender: nat, id: nat, p: Packet)
      requires sender < |apics| && id < |apics| && (forall i, j :: 0 <= i < j < |apics| ==> apics[i] != apics[j])
      modifies {apics[sender]}`sendIllegal, {apics[id]}`recvIllegal
      ensures forall i :: 0 <= i < |apics| ==>
        && apics[i].sendIllegal == (old(apics[i].sendIllegal) || SendError(sender, id, p, i))
        && apics[i].recvIllegal == (old(apics[i].recvIllegal) || RecvError(sender, id, p, i))
    {
      var target, own := apics[id], apics[sender];
      if p.Normal? && p.vector <= 15 {
        if target.sivr / 256 % 2 == 0 {
          if own.sivr / 256 % 2 == 1 {
            own.sendIllegal := true;
          }
        } else {
          own.sendIllegal := true;
          if id != sender {
            target.recvIllegal := true;
          }
        }
      }
    }

    /** `SendPacket`: one packet to the vCPU, or none if the domain has no such vCPU. */
    method SendPacket(sender: nat, id: nat, p: Packet)
      requires Valid() && sender < |apics| && Sendable(p) && id <= 255
      modifies this`sent, (set a | a in apics)`latch, (set a | a in apics)`sendIllegal, (set a | a in apics)`recvIllegal
      modifies set a | a in apics :: a.latchedIrr
      ensures Valid()
      ensures sent == old(sent) + if id < |apics| then [id] else []
      ensures forall i :: 0 <= i < |apics| && i != id ==> apics[i].Box() == old(apics[i].Box())
      ensures id < |apics| ==> apics[id].Box() == Receive(old(apics[id].Box()), p, id == sender, apics[id].Enabled())
      ensures forall i :: 0 <= i < |apics| ==>
        && apics[i].sendIllegal == (old(apics[i].sendIllegal) || SendError(sender, id, p, i))
        && apics[i].recvIllegal == (old(apics[i].recvIllegal) || RecvError(sender, id, p, i))
      ensures p.Normal? && id < |apics| && apics[id].Enabled() ==>
        p.vector in apics[id].Box().irr || apics[sender].sendIllegal
    {
      hide Vectors, Deliver;
      if id >= |apics| {
        return;
      }
      var target := apics[id];
      assert target.Valid();
      sent := sent + [id];
      NoteErrors(sender, id, p);
      target.Accept(p, id == sender);
    }

    ghost function Boxes(): (b: seq<Inbox>)
      reads this, apics, set a | a in apics :: a.latchedIrr
      ensures |b| == |apics|
    {
      seq(|apics|, i requires 0 <= i < |apics|
        reads this, apics, set a | a in apics :: a.latchedIrr => apics[i].Box())
    }

    /** One packet has arrived at every vCPU in `ts`, and none at any other. */
    ghost predicate Arrived(was: seq<Inbox>, ts: seq<nat>, sender: nat, p: Packet)
      requires |was| == |apics|
      reads this, apics, set a | a in apics :: a.latchedIrr
    {
      && Increasing(ts)
      && (forall t :: t in ts ==> t < |apics|)
      && (forall i :: 0 <= i < |apics| ==> Turned(was[i], i in ts, i, sender, p))
    }

    ghost predicate Turned(was: Inbox, hit: bool, i: nat, sender: nat, p: Packet)
      requires i < |apics|
      reads this, apics[i], apics[i].latchedIrr
    {
      apics[i].Box() == if hit then Receive(was, p, i == sender, apics[i].Enabled()) else was
    }

    /** Sends to vCPU `id` after all of `ts`, which come before it. */
    method SendNext(sender: nat, id: nat, p: Packet, ghost was: seq<Inbox>, ghost ts: seq<nat>)
      requires Valid() && sender < |apics| && Sendable(p) && id <= 255 && |was| == |apics|
      requires Arrived(was, ts, sender, p) && forall t :: t in ts ==> t < id
      modifies this`sent, (set a | a in apics)`latch, (set a | a in apics)`sendIllegal, (set a | a in apics)`recvIllegal
      modifies set a | a in apics :: a.latchedIrr
      ensures Valid()
      ensures sent == old(sent) + if id < |apics| then [id] else []
      ensures Arrived(was, if id < |apics| then ts + [id] else ts, sender, p)
    {
      hide Receive, Vectors;
      Append(ts, id);
      label L0:
      SendPacket(sender, id, p);
      forall i | 0 <= i < |apics|
        ensures Turned(was[i], i in if id < |apics| then ts + [id] else ts, i, sender, p)
      {
        assert old@L0(Turned(was[i], i in ts, i, sender, p));
      }
    }

    /** The vCPUs a logical destination names. */
    ghost predicate Named(dest: bv32, i: nat)
      requires i < 256
    {
      LogicalMatch(Ldr(i / 16, i % 16), dest)
    }

    lemma NamedIs(dest: bv32, i: nat)
      requires i < 256
      ensures Named(dest, i) <==> (dest >> 16) as nat == i / 16 && Bit(dest, i % 16)
    {
      hide Bit, LogicalMatch;
      LdrMatches(i / 16, i % 16, dest);
    }

    /** A logical ICR write. */
    method SendLogical(sender: nat, dest: bv32, p: Packet) returns (ghost ts: seq<nat>)
      requires Valid() && sender < |apics| && Sendable(p)
      modifies this`sent, (set a | a in apics)`latch, (set a | a in apics)`sendIllegal, (set a | a in apics)`recvIllegal
      modifies set a | a in apics :: a.latchedIrr
      ensures Valid() && sent == old(sent) + ts
      ensures Arrived(old(Boxes()), ts, sender, p)
      ensures forall i :: 0 <= i < |apics| ==> (i in ts <==> Named(dest, i))
    {
      AllReached(dest);
      var clusterId := (dest >> 16) as nat;
      if clusterId >= (|apics| + 15) / 16 {
        ts := [];
        NoneArrived(sender, p);
        NoSuchCluster(clusterId, dest);
        return;
      }
      StartBits(dest);
      ts := ScanCluster(sender, clusterId, dest & 0xffff, p, dest);
    }

    /** The loop of a logical ICR write over the bits of the cluster. */
    method ScanCluster(sender: nat, clusterId: nat, low: bv32, p: Packet, ghost dest: bv32) returns (ghost ts: seq<nat>)
      requires Valid() && sender < |apics| && Sendable(p)
      requires clusterId < (|apics| + 15) / 16 && Remaining(dest, low, 0)
      modifies this`sent, (set a | a in apics)`latch, (set a | a in apics)`sendIllegal, (set a | a in apics)`recvIllegal
      modifies set a | a in apics :: a.latchedIrr
      ensures Valid() && sent == old(sent) + ts
      ensures Arrived(old(Boxes()), ts, sender, p)
      ensures Covers(ts, clusterId, dest, 16)
    {
      hide Bit, Arrived, Remaining, Reached, Valid, Boxes, Covers, IsFirst;
      FewEnough();
      ghost var was := Boxes();
      ts := [];
      NoneArrived(sender, p);
      NoneCovered(clusterId, dest);
      ghost var next := 0;
      var bits := low;
      var bit := FirstBit(bits, dest, next);
      while bit != -1
        invariant 0 <= next <= 16 && Valid()
        invariant bit == -1 || next <= bit < 16
        invariant IsFirst(dest, next, bit)
        invariant bit != -1 ==> Remaining(dest, bits, bit)
        invariant sent == old(sent) + ts && Arrived(was, ts, sender, p)
        invariant Covers(ts, clusterId, dest, next)
        decreases 16 - next
      {
        var logicalId := clusterId * 16 + bit;
        Covered(ts, clusterId, dest, next, bit);
        SendNext(sender, logicalId, p, was, ts);
        ts := if logicalId < |apics| then ts + [logicalId] else ts;
        next := bit + 1;
        bits, bit := DropBit(bits, bit, dest);
      }
      Completed(ts, clusterId, dest, next);
    }

    lemma NoneArrived(sender: nat, p: Packet)
      ensures Arrived(Boxes(), [], sender, p)
    {
    }

    /** vCPU `i` is one of those the scan has sent to before it reaches bit `next`. */
    ghost predicate Reached(cluster: nat, dest: bv32, next: nat, i: nat) {
      cluster == i / 16 && i % 16 < next && Bit(dest, i % 16)
    }

    /** The targets so far are those the scan has reached. */
    ghost predicate Covers(ts: seq<nat>, cluster: nat, dest: bv32, next: nat) {
      && (forall t :: t in ts ==> t < cluster * 16 + next)
      && (forall i :: 0 <= i < |apics| ==> (i in ts <==> Reached(cluster, dest, next, i)))
    }

    lemma Covered(ts: seq<nat>, cluster: nat, dest: bv32, next: nat, bit: nat)
      requires Covers(ts, cluster, dest, next) && IsFirst(dest, next, bit)
      ensures var id := cluster * 16 + bit;
        && Covers(if id < |apics| then ts + [id] else ts, cluster, dest, bit + 1)
        && forall t :: t in ts ==> t < id
    {
      hide Bit;
      var id, after := cluster * 16 + bit, bit + 1;
      var more := if id < |apics| then ts + [id] else ts;
      forall i | 0 <= i < |apics| ensures i in more <==> Reached(cluster, dest, after, i) {
        assert i == id <==> cluster == i / 16 && i % 16 == bit;
      }
    }

    lemma NoneCovered(cluster: nat, dest: bv32)
      ensures Covers([], cluster, dest, 0)
    {
    }

    lemma Completed(ts: seq<nat>, cluster: nat, dest: bv32, next: nat)
      requires Covers(ts, cluster, dest, next) && next <= 16 && IsFirst(dest, next, -1)
      ensures Covers(ts, cluster, dest, 16)
    {
      hide Bit;
    }

    lemma StartBits(dest: bv32)
      ensures Remaining(dest, dest & 0xffff, 0)
    {
      hide Bit;
      forall j | 0 <= j < 32 ensures Bit(dest & 0xffff, j) <==> j < 16 && Bit(dest, j) {
        LowHalf(dest, j);
      }
    }

    lemma AllReached(dest: bv32)
      requires |apics| <= 255
      ensures forall i :: 0 <= i < |apics| ==> (Named(dest, i) <==> Reached((dest >> 16) as nat, dest, 16, i))
    {
      hide Bit, Named;
      forall i | 0 <= i < |apics| ensures Named(dest, i) <==> Reached((dest >> 16) as nat, dest, 16, i) {
        NamedIs(dest, i);
      }
    }

    lemma NoSuchCluster(cluster: nat, dest: bv32)
      requires cluster >= (|apics| + 15) / 16
      ensures Covers([], cluster, dest, 16)
    {
    }

    /** The vCPUs an ICR write is for. */
    ghost predicate Addressed(low: bv32, dest: bv32, sender: nat, i: nat)
      requires i < 256
    {
      var s := Shorthand(low);
      if s == 0 then (if IsLogical(low) then Named(dest, i) else dest as nat == i)
      else if s == 1 then i == sender
      else if s == 2 then true
      else i != sender
    }

    /** The two broadcasts: to all, or to all others. */
    method SendMany(sender: nat, all: bool, p: Packet) returns (ghost ts: seq<nat>)
      requires Valid() && sender < |apics| && Sendable(p)
      modifies this`sent, (set a | a in apics)`latch, (set a | a in apics)`sendIllegal, (set a | a in apics)`recvIllegal
      modifies set a | a in apics :: a.latchedIrr
      ensures Valid() && sent == old(sent) + ts
      ensures Arrived(old(Boxes()), ts, sender, p)
      ensures forall i :: 0 <= i < |apics| ==> (i in ts <==> all || i != sender)
    {
      hide Arrived, Valid, Boxes;
      FewEnough();
      ghost var was := Boxes();
      ts := [];
      NoneArrived(sender, p);
      var i := 0;
      while i < |apics|
        invariant 0 <= i <= |apics| && Valid()
        invariant sent == old(sent) + ts && Arrived(was, ts, sender, p)
        invariant forall t :: t in ts ==> t < i
        invariant forall k :: 0 <= k < i ==> (k in ts <==> all || k != sender)
      {
        if all || i != sender {
          SendNext(sender, i, p, was, ts);
          ts := ts + [i];
        }
        i := i + 1;
      }
    }

    /** One packet to one vCPU, or to none if the domain has no such vCPU. */
    method SendOne(sender: nat, id: nat, p: Packet) returns (ghost ts: seq<nat>)
      requires Valid() && sender < |apics| && Sendable(p) && id <= 255
      modifies this`sent, (set a | a in apics)`latch, (set a | a in apics)`sendIllegal, (set a | a in apics)`recvIllegal
      modifies set a | a in apics :: a.latchedIrr
      ensures Valid() && sent == old(sent) + ts
      ensures Arrived(old(Boxes()), ts, sender, p)
      ensures forall i :: 0 <= i < |apics| ==> (i in ts <==> i == id)
    {
      hide Arrived, Valid, Boxes;
      NoneArrived(sender, p);
      SendNext(sender, id, p, Boxes(), []);
      ts := if id < |apics| then [id] else [];
      assert [] + [id] == [id];
    }

    /** `HandleIcrWrite` of a value that is not rejected and not an SMI. */
    method Route(sender: nat, low: bv32, dest: bv32, p: Packet) returns (ghost ts: seq<nat>)
      requires Valid() && sender < |apics| && Sendable(p)
      modifies this`sent, (set a | a in apics)`latch, (set a | a in apics)`sendIllegal, (set a | a in apics)`recvIllegal
      modifies set a | a in apics :: a.latchedIrr
      ensures Valid() && sent == old(sent) + ts
      ensures Arrived(old(Boxes()), ts, sender, p)
      ensures forall i :: 0 <= i < |apics| ==> (i in ts <==> Addressed(low, dest, sender, i))
    {
      hide Arrived, Valid, Boxes, Named;
      FewEnough();
      var shorthand := Shorthand(low);
      if shorthand == 0 {
        if IsLogical(low) {
          ts := SendLogical(sender, dest, p);
        } else if dest as nat < |apics| {
          ts := SendOne(sender, dest as nat, p);
        } else {
          ts := [];
          NoneArrived(sender, p);
        }
      } else if shorthand == 1 {
        ts := SendOne(sender, sender, p);
      } else {
        ts := SendMany(sender, shorthand == 2, p);
      }
    }

    method Store(sender: nat, low: bv32, dest: bv32)
      requires Valid() && sender < |apics|
      modifies (set a | a in apics)`icrLow, (set a | a in apics)`icrDest
      ensures Valid() && Boxes() == old(Boxes())
      ensures apics[sender].icrLow == low && apics[sender].icrDest == dest
      ensures forall i :: 0 <= i < |apics| && i != sender ==>
        apics[i].icrLow == old(apics[i].icrLow) && apics[i].icrDest == old(apics[i].icrDest)
    {
      apics[sender].StoreIcr(low, dest);
    }

    /** Whom a command is for, by its destination fields: one vCPU, a logical group, the sender, all, or all others. */
    ghost predicate IsFor(low: bv32, dest: bv32, sender: nat, i: nat)
      requires i < 256
    {
      || (low & 0xc0800 == 0x00000 && dest as nat == i)
      || (low & 0xc0800 == 0x00800 && LogicalMatch(Ldr(i / 16, i % 16), dest))
      || (low & 0xc0000 == 0x40000 && i == sender)
      || low & 0xc0000 == 0x80000
      || (low & 0xc0000 == 0xc0000 && i != sender)
    }

    lemma Destinations(low: bv32)
      ensures low & 0xc0800 == 0x00000 <==> Shorthand(low) == 0 && !IsLogical(low)
      ensures low & 0xc0800 == 0x00800 <==> Shorthand(low) == 0 && IsLogical(low)
      ensures low & 0xc0000 == 0x40000 <==> Shorthand(low) == 1
      ensures low & 0xc0000 == 0x80000 <==> Shorthand(low) == 2
      ensures low & 0xc0000 == 0xc0000 <==> Shorthand(low) == 3
      ensures Shorthand(low) <= 3
    {
    }

    lemma AddressedIs(low: bv32, dest: bv32, sender: nat, i: nat)
      requires i < 256
      ensures Addressed(low, dest, sender, i) <==> IsFor(low, dest, sender, i)
    {
      hide Shorthand, IsLogical, LogicalMatch, Ldr;
      Destinations(low);
    }

    /** What a write has done to the vCPUs: each one it is for is affected, and no other. */
    ghost predicate Commanded(was: seq<Inbox>, valid: bool, low: bv32, dest: bv32, sender: nat)
      reads this, apics, set a | a in apics :: a.latchedIrr
    {
      |was| == |apics| <= 256 && forall i :: 0 <= i < |apics| ==> Affected(was[i], valid, low, dest, sender, i)
    }

    ghost predicate Affected(was: Inbox, valid: bool, low: bv32, dest: bv32, sender: nat, i: nat)
      requires i < |apics| && i < 256
      reads this, apics[i], apics[i].latchedIrr
    {
      if valid && IsFor(low, dest, sender, i)
      then Effect(low, i == sender, apics[i].Enabled(), was, apics[i].Box())
      else apics[i].Box() == was
    }

    lemma ArrivedEffect(was: seq<Inbox>, ts: seq<nat>, sender: nat, low: bv32, dest: bv32)
      requires Valid() && |was| == |apics| && PacketOf(low).Some? && Arrived(was, ts, sender, PacketOf(low).value)
      requires forall i :: 0 <= i < |apics| ==> (i in ts <==> Addressed(low, dest, sender, i))
      ensures Commanded(was, true, low, dest, sender)
    {
      hide Effect, Addressed, IsFor, PacketOf, Receive;
      forall i | 0 <= i < |apics| ensures Affected(was[i], true, low, dest, sender, i) {
        assert Turned(was[i], i in ts, i, sender, PacketOf(low).value);
        AddressedIs(low, dest, sender, i);
        PacketEffect(low, i == sender, apics[i].Enabled(), was[i]);
      }
    }

    lemma NoEffect(was: seq<Inbox>, valid: bool, sender: nat, low: bv32, dest: bv32)
      requires Valid() && was == Boxes() && (valid ==> IsSmi(low))
      ensures Commanded(was, valid, low, dest, sender)
    {
      hide IsFor;
      ModesTaken(low);
    }

    /** `HandleIcrWrite`: what is accepted, and one packet to each vCPU it is for and to no other. */
    method WriteIcr(sender: nat, low: bv32, dest: bv32) returns (valid: bool, ghost ts: seq<nat>)
      requires Valid() && sender < |apics|
      modifies this`sent, (set a | a in apics)`latch, (set a | a in apics)`sendIllegal, (set a | a in apics)`recvIllegal
      modifies (set a | a in apics)`icrLow, (set a | a in apics)`icrDest
      modifies set a | a in apics :: a.latchedIrr
      ensures Valid() && sent == old(sent) + ts
      ensures apics[sender].icrLow == if valid then low else old(apics[sender].icrLow)
      ensures apics[sender].icrDest == if valid then dest else old(apics[sender].icrDest)
      ensures forall i :: 0 <= i < |apics| && i != sender ==>
        apics[i].icrLow == old(apics[i].icrLow) && apics[i].icrDest == old(apics[i].icrDest)
      ensures valid <==> !Reserved(low) && (PacketOf(low).Some? || IsSmi(low))
      ensures if valid && !IsSmi(low)
        then Arrived(old(Boxes()), ts, sender, PacketOf(low).value)
          && forall i :: 0 <= i < |apics| ==> (i in ts <==> Addressed(low, dest, sender, i))
        else ts == [] && Boxes() == old(Boxes())
      ensures valid <==> low & 0xfff33000 == 0 && Taken(low)
      ensures Commanded(old(Boxes()), valid, low, dest, sender)
    {
      hide Arrived, Commanded, Valid, Addressed, Named, Taken, IsSmi, PacketOf, Boxes;
      ModesTaken(low);
      ts := [];
      var p := PacketOf(low);
      if Reserved(low) {
        NoEffect(Boxes(), false, sender, low, dest);
        return false, [];
      }
      if p.None? && !IsSmi(low) {
        NoEffect(Boxes(), false, sender, low, dest);
        return false, [];
      }
      valid := true;
      Store(sender, low, dest);
      if IsSmi(low) {
        NoEffect(Boxes(), true, sender, low, dest);
        return;
      }
      ts := Route(sender, low, dest, p.value);
      ArrivedEffect(old(Boxes()), ts, sender, low, dest);
    }
  }
}
