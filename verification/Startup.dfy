/**
 What vCPUs send each other, and how one is started
 (arch/x86_64/ia32e/src/ia32eEmulator.c:1068-1153, 3011-3079).

 Packets land in the receiver's latch under its latch lock. The receiver looks at the latch when it enters its
 event manager: powered off until an INIT is pending, then waiting for a SIPI. Every lock section is one step here,
 so a run is any interleaving of arriving packets with the receiver's own sections.
 */
module Startup {
  datatype Packet = Normal(vector: nat) | Nmi | Init | Sipi(vector: nat)

  datatype Latch = Latch(
    waitForSipi: bool,
    initPending: bool,
    sipiPending: bool,
    sipiVector: nat,
    nmiPending: bool)

  /** `SendPacket` on the receiver's latch; `self` when the receiver is the sender. */
  function Deliver(l: Latch, p: Packet, self: bool): Latch {
    match p
    case Normal(_) => l
    case Nmi => l.(nmiPending := true)
    case Init => if self then l else l.(initPending := !l.waitForSipi, sipiPending := false)
    case Sipi(v) =>
      if !self && (l.waitForSipi || l.initPending) && !l.sipiPending then l.(sipiVector := v, sipiPending := true)
      else l
  }

  /** The latched interrupts after a packet, for a receiver whose APIC is enabled or not. */
  function DeliverIrr(irr: set<nat>, p: Packet, enabled: bool): set<nat> {
    if p.Normal? && enabled && p.vector > 15 then irr + {p.vector} else irr
  }

  function TakeInit(l: Latch): Latch {
    if l.initPending then l.(initPending := false, waitForSipi := true, nmiPending := false) else l
  }

  function TakeSipi(l: Latch): Latch {
    l.(waitForSipi := !l.sipiPending, sipiPending := false, sipiVector := 0)
  }

  // ------------------------------------------------------------------------

  /** Off: no power yet. Entry: at the INIT check of the event manager. Await: in the SIPI loop. */
  datatype Pc = Off | Entry | Await | Guest

  datatype Vcpu = Vcpu(pc: Pc, latch: Latch)

  datatype Step =
    | Arrive(p: Packet, self: bool)
    | PowerCheck
    | InitCheck
    | SipiCheck
    | VmExit

  predicate Launches(s: Vcpu, e: Step) {
    e.SipiCheck? && s.pc.Await? && s.latch.sipiPending
  }

  predicate CanStep(s: Vcpu, e: Step) {
    match e
    case Arrive(_, _) => true
    case PowerCheck => s.pc.Off?
    case InitCheck => s.pc.Entry?
    case SipiCheck => s.pc.Await?
    case VmExit => s.pc.Guest?
  }

  function Next(s: Vcpu, e: Step): Vcpu
    requires CanStep(s, e)
  {
    match e
    case Arrive(p, self) => s.(latch := Deliver(s.latch, p, self))
    case PowerCheck => s.(pc := if s.latch.initPending then Entry else Off)
    case InitCheck => Vcpu(if s.latch.initPending then Await else Guest, TakeInit(s.latch))
    case SipiCheck => Vcpu(if s.latch.sipiPending then Guest else Await, TakeSipi(s.latch))
    case VmExit => s.(pc := Entry)
  }

  predicate Run(s: Vcpu, es: seq<Step>)
    decreases |es|, 0
  {
    es == [] || (Run(s, es[..|es| - 1]) && CanStep(After(s, es[..|es| - 1]), es[|es| - 1]))
  }

  function After(s: Vcpu, es: seq<Step>): Vcpu
    requires Run(s, es)
    decreases |es|, 1
  {
    if es == [] then s else Next(After(s, es[..|es| - 1]), es[|es| - 1])
  }

  const CLEAR := Latch(false, false, false, 0, false)

  /** Only the bootstrap processor starts in the guest. */
  function Start(bsp: bool): Vcpu { Vcpu(if bsp then Guest else Off, CLEAR) }

  lemma {:induction false} RunPrefix(s: Vcpu, es: seq<Step>, i: nat)
    requires Run(s, es) && i <= |es|
    ensures Run(s, es[..i])
    decreases |es|
  {
    if i < |es| {
      RunPrefix(s, es[..|es| - 1], i);
      assert es[..|es| - 1][..i] == es[..i];
    } else {
      assert es[..i] == es;
    }
  }

  predicate IsInit(e: Step) { e.Arrive? && e.p.Init? && !e.self }

  predicate IsSipi(e: Step) { e.Arrive? && e.p.Sipi? && !e.self }

  /** Step `n` launched the vCPU. */
  predicate LaunchedAt(s: Vcpu, es: seq<Step>, n: nat)
    requires Run(s, es) && n < |es|
  {
    RunPrefix(s, es, n);
    Launches(After(s, es[..n]), es[n])
  }

  lemma LaunchedInPrefix(s: Vcpu, es: seq<Step>, n: nat)
    requires Run(s, es) && n < |es| - 1
    ensures Run(s, es[..|es| - 1]) && LaunchedAt(s, es[..|es| - 1], n) == LaunchedAt(s, es, n)
  {
    RunPrefix(s, es, n);
    RunPrefix(s, es, |es| - 1);
    assert es[..|es| - 1][..n] == es[..n];
  }

  /** The INIT that arrived at step `j` is outstanding: no later one replaced it and no launch used it. */
  ghost predicate Outstanding(s: Vcpu, es: seq<Step>, j: nat)
    requires Run(s, es)
  {
    && j < |es| && IsInit(es[j])
    && forall n :: j < n < |es| ==> !IsInit(es[n]) && !LaunchedAt(s, es, n)
  }

  /** The first SIPI after step `j` arrived at step `k`. */
  ghost predicate FirstSipi(es: seq<Step>, j: nat, k: nat) {
    && j < k < |es| && IsSipi(es[k])
    && forall n :: j < n < k ==> !IsSipi(es[n])
  }

  /** Where a run stands: no INIT outstanding, the one of step `j`, or that one followed by the SIPI of step `k`. */
  datatype Mark = Idle | Opened(j: nat) | Ready(j: nat, k: nat)

  function Standing(s: Vcpu, es: seq<Step>): Mark
    requires Run(s, es)
    decreases |es|
  {
    if es == [] then Idle
    else
      var n, m := |es| - 1, Standing(s, es[..|es| - 1]);
      if IsInit(es[n]) then Opened(n)
      else if Launches(After(s, es[..n]), es[n]) then Idle
      else if IsSipi(es[n]) && m.Opened? then Ready(m.j, n)
      else m
  }

  ghost predicate Means(s: Vcpu, es: seq<Step>, m: Mark)
    requires Run(s, es)
  {
    match m
    case Idle => forall j :: !Outstanding(s, es, j)
    case Opened(j) => Outstanding(s, es, j) && forall n :: j < n < |es| ==> !IsSipi(es[n])
    case Ready(j, k) => Outstanding(s, es, j) && FirstSipi(es, j, k)
  }

  /** The last step leaves an earlier INIT outstanding unless it is an INIT itself or a launch. */
  lemma OutstandingStep(s: Vcpu, es: seq<Step>, j: nat)
    requires es != [] && Run(s, es)
    ensures var n := |es| - 1;
      Outstanding(s, es, j) <==>
        if j == n then IsInit(es[n])
        else Outstanding(s, es[..n], j) && !IsInit(es[n]) && !Launches(After(s, es[..n]), es[n])
  {
    var n := |es| - 1;
    var was := es[..n];
    assert Run(s, was);
    hide Launches, After, Run, IsInit;
    assert LaunchedAt(s, es, n) == Launches(After(s, was), es[n]);
    forall i | 0 <= i < n ensures LaunchedAt(s, was, i) == LaunchedAt(s, es, i) && was[i] == es[i] {
      LaunchedInPrefix(s, es, i);
    }
  }

  lemma {:induction false} StandingMeans(s: Vcpu, es: seq<Step>)
    requires Run(s, es)
    ensures Means(s, es, Standing(s, es))
    decreases |es|
  {
    hide Launches, After, Outstanding, IsInit, IsSipi;
    if es == [] {
      NothingOutstanding(s);
    } else {
      StandingMeans(s, es[..|es| - 1]);
      forall j: nat {
        OutstandingStep(s, es, j);
      }
      KindsDiffer(s, es[..|es| - 1], es[|es| - 1]);
    }
  }

  lemma NothingOutstanding(s: Vcpu)
    ensures Run(s, []) && forall j :: !Outstanding(s, [], j)
  {
  }

  lemma KindsDiffer(s: Vcpu, was: seq<Step>, e: Step)
    requires Run(s, was)
    ensures !(IsInit(e) && IsSipi(e)) && !(Launches(After(s, was), e) && (IsInit(e) || IsSipi(e)))
    ensures forall j: nat :: Outstanding(s, was, j) ==> j < |was|
  {
  }

  /** What the latch has to say about the packets that arrived so far. */
  ghost predicate Faithful(s: Vcpu, m: Mark, es: seq<Step>) {
    && (s.pc.Await? <==> s.latch.waitForSipi)
    && !(s.latch.waitForSipi && s.latch.initPending)
    && (s.latch.waitForSipi || s.latch.initPending <==> !m.Idle?)
    && (s.latch.sipiPending <==> m.Ready?)
    && (m.Ready? ==> m.k < |es| && IsSipi(es[m.k]) && es[m.k].p.vector == s.latch.sipiVector)
  }

  lemma {:induction false} AlwaysFaithful(bsp: bool, es: seq<Step>)
    requires Run(Start(bsp), es)
    ensures Faithful(After(Start(bsp), es), Standing(Start(bsp), es), es)
    decreases |es|
  {
    if es != [] {
      AlwaysFaithful(bsp, es[..|es| - 1]);
    }
  }

  /**
   A vCPU launches only after an INIT followed by a SIPI, and at the vector of the first SIPI since the last INIT;
   neither has served a launch before.
   */
  lemma LaunchIsCalledFor(bsp: bool, es: seq<Step>, e: Step) returns (j: nat, k: nat)
    requires Run(Start(bsp), es) && Launches(After(Start(bsp), es), e)
    ensures Outstanding(Start(bsp), es, j) && FirstSipi(es, j, k)
    ensures After(Start(bsp), es).latch.sipiVector == es[k].p.vector
  {
    AlwaysFaithful(bsp, es);
    StandingMeans(Start(bsp), es);
    var m := Standing(Start(bsp), es);
    j, k := m.j, m.k;
  }

  /** A SIPI changes nothing when no INIT is outstanding, or when an earlier SIPI has answered it already. */
  lemma SipiIgnored(bsp: bool, es: seq<Step>, v: nat)
    requires Run(Start(bsp), es)
    ensures var l := After(Start(bsp), es).latch;
      Deliver(l, Sipi(v), false) == l <==>
        ((forall j :: !Outstanding(Start(bsp), es, j))
         || exists j, k :: Outstanding(Start(bsp), es, j) && FirstSipi(es, j, k))
  {
    AlwaysFaithful(bsp, es);
    StandingMeans(Start(bsp), es);
    var m := Standing(Start(bsp), es);
    assert forall j :: Outstanding(Start(bsp), es, j) ==> !m.Idle? && j == m.j;
  }

  /** The receiver's own steps from where it is up to its next look for a SIPI. */
  function Checks(pc: Pc): seq<Step> {
    match pc
    case Off => [PowerCheck, InitCheck]
    case Entry => [InitCheck]
    case Await => []
    case Guest => [VmExit, InitCheck]
  }

  lemma ChecksLaunch(s: Vcpu)
    requires s.latch.sipiPending && !(s.latch.waitForSipi && s.latch.initPending)
    requires (s.latch.waitForSipi || s.latch.initPending) && (s.pc.Await? <==> s.latch.waitForSipi)
    ensures Run(s, Checks(s.pc)) && Launches(After(s, Checks(s.pc)), SipiCheck)
    ensures After(s, Checks(s.pc)).latch.sipiVector == s.latch.sipiVector
  {
    match s.pc
    case Off => TwoSteps(s, PowerCheck, InitCheck);
    case Entry => OneStep(s, InitCheck);
    case Await =>
    case Guest => TwoSteps(s, VmExit, InitCheck);
  }

  /** Once an INIT and then a SIPI have arrived, the receiver's own next checks launch it, whatever it was doing. */
  lemma StartupSucceeds(bsp: bool, es: seq<Step>, j: nat, k: nat)
    requires Run(Start(bsp), es) && Outstanding(Start(bsp), es, j) && FirstSipi(es, j, k)
    ensures var s := After(Start(bsp), es);
      && Run(s, Checks(s.pc)) && Launches(After(s, Checks(s.pc)), SipiCheck)
      && After(s, Checks(s.pc)).latch.sipiVector == es[k].p.vector
  {
    hide Run, After, Checks, Standing;
    AlwaysFaithful(bsp, es);
    StandingMeans(Start(bsp), es);
    ChecksLaunch(After(Start(bsp), es));
  }

  lemma OneStep(s: Vcpu, e: Step)
    requires CanStep(s, e)
    ensures Run(s, [e]) && After(s, [e]) == Next(s, e)
  {
    var none: seq<Step> := [];
    assert Run(s, none) && After(s, none) == s;
    var es := [e];
    assert es[..|es| - 1] == none && es[|es| - 1] == e;
  }

  lemma TwoSteps(s: Vcpu, a: Step, b: Step)
    requires CanStep(s, a) && CanStep(Next(s, a), b)
    ensures Run(s, [a, b]) && After(s, [a, b]) == Next(Next(s, a), b)
  {
    OneStep(s, a);
    var es := [a, b];
    assert es[..|es| - 1] == [a] && es[|es| - 1] == b;
  }

  ghost predicate WasLaunched(s: Vcpu, es: seq<Step>)
    requires Run(s, es)
  {
    exists n :: 0 <= n < |es| && LaunchedAt(s, es, n)
  }

  /** Any vCPU but the bootstrap processor runs its guest only after it was launched. */
  lemma {:induction false} GuestWasLaunched(es: seq<Step>)
    requires Run(Start(false), es)
    ensures var s := After(Start(false), es);
      s.pc.Guest? || (s.pc.Entry? && !s.latch.initPending) ==> WasLaunched(Start(false), es)
    decreases |es|
  {
    if es != [] {
      var was := es[..|es| - 1];
      GuestWasLaunched(was);
      AlwaysFaithful(false, was);
      if WasLaunched(Start(false), was) {
        var n :| 0 <= n < |was| && LaunchedAt(Start(false), was, n);
        LaunchedInPrefix(Start(false), es, n);
      } else {
        assert LaunchedAt(Start(false), es, |es| - 1) == Launches(After(Start(false), was), es[|es| - 1]);
      }
    }
  }

  /** The NMI that arrived at step `j` has not been dropped by an INIT taken since. */
  ghost predicate NmiStands(s: Vcpu, es: seq<Step>, j: nat)
    requires Run(s, es)
  {
    && j < |es| && es[j].Arrive? && es[j].p.Nmi?
    && forall n :: j < n < |es| ==> !TakesInit(s, es, n)
  }

  predicate TakesInit(s: Vcpu, es: seq<Step>, n: nat)
    requires Run(s, es) && n < |es|
  {
    RunPrefix(s, es, n);
    es[n].InitCheck? && After(s, es[..n]).latch.initPending
  }

  lemma TakesInitInPrefix(s: Vcpu, es: seq<Step>, n: nat)
    requires Run(s, es) && n < |es| - 1
    ensures Run(s, es[..|es| - 1]) && TakesInit(s, es[..|es| - 1], n) == TakesInit(s, es, n)
  {
    RunPrefix(s, es, n);
    RunPrefix(s, es, |es| - 1);
    assert es[..|es| - 1][..n] == es[..n];
  }

  lemma NmiStandsStep(s: Vcpu, es: seq<Step>, j: nat)
    requires es != [] && Run(s, es)
    ensures var n := |es| - 1;
      NmiStands(s, es, j) <==>
        if j == n then es[n].Arrive? && es[n].p.Nmi?
        else NmiStands(s, es[..n], j) && !TakesInit(s, es, n)
  {
    hide TakesInit, After, Run;
    var n := |es| - 1;
    RunPrefix(s, es, n);
    forall i | 0 <= i < n ensures TakesInit(s, es, i) == TakesInit(s, es[..n], i) && es[..n][i] == es[i] {
      TakesInitInPrefix(s, es, i);
    }
  }

  lemma TakenLast(s: Vcpu, es: seq<Step>)
    requires es != [] && Run(s, es)
    ensures var n := |es| - 1;
      TakesInit(s, es, n) <==> es[n].InitCheck? && After(s, es[..n]).latch.initPending
  {
  }

  /** An NMI is pending if and only if one has arrived that no INIT taken since has dropped. */
  lemma {:induction false} NmiPending(bsp: bool, es: seq<Step>)
    requires Run(Start(bsp), es)
    ensures After(Start(bsp), es).latch.nmiPending <==> exists j :: NmiStands(Start(bsp), es, j)
    decreases |es|
  {
    var s := Start(bsp);
    if es != [] {
      var n := |es| - 1;
      var was := es[..n];
      NmiPending(bsp, was);
      TakenLast(s, es);
      NmiStandsStep(s, es, n);
      if es[n].Arrive? && es[n].p.Nmi? {
        assert NmiStands(s, es, n);
      } else if !TakesInit(s, es, n) && After(s, was).latch.nmiPending {
        var j :| NmiStands(s, was, j);
        NmiStandsStep(s, es, j);
      }
      forall j: nat | NmiStands(s, es, j) && j < n ensures NmiStands(s, was, j) && !TakesInit(s, es, n) {
        NmiStandsStep(s, es, j);
      }
    }
  }
}
