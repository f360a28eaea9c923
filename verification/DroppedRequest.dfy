/** Runs of the unit, from power-on, in which a request is dropped: it comes while an earlier request
    is being denied. */
module DroppedRequest {
  import opened PmuTypes
  import opened PdCtrl
  import opened DomainSlice
  import opened SliceInvariant
  import opened SliceSafety
  import opened ApbRegs
  import opened PmuTop
  import opened StatusTruth
  import opened Bench

  const UNIT: SysParams := SysParams([true], 2)

  /** SHUTDOWN is requested in cycle 0 and again in cycle w. */
  function Writes(k: nat, w: nat): Bus {
    if k == 0 || k == w then Bus(true, true, true, ADDR_MODE_REQ, 4) else Bus(false, false, false, 0, 0)
  }

  function UnitIn(k: nat, w: nat): SysIn {
    SysIn(false, Writes(k, w), false, Run, CFG)
  }

  function BankAt(k: nat, w: nat): Bank {
    if k == 0 then RESET_BANK
    else Bank(Shutdown, k == 1 || k == w + 1, Irq(false, false, false, false), NO_FAULT)
  }

  function Granted(k: nat): bool {
    2 <= k <= 9
  }

  function DomainIn(k: nat, w: nat): SliceIn {
    SliceIn(false, TargetIn(BankAt(k, w).modeReq, 0), BankAt(k, w).arm, false, CFG, Granted(k))
  }

  function DomainIns(w: nat): (ins: seq<SliceIn>)
    ensures |ins| == 27 && NoResets(ins) && forall k :: 0 <= k < 27 ==> ins[k] == DomainIn(k, w)
  {
    seq(27, k requires 0 <= k => DomainIn(k, w))
  }

  function UnitOf(t: Slice, k: nat, w: nat): Sys {
    Sys([t], [Granted(k)], BankAt(k, w), RESET_STATUS)
  }

  /** Progress of the power-up: one cycle is spent waiting for the grant. */
  function Progress(k: nat): nat {
    if k <= 1 then k else k - 1
  }

  lemma InputsFit(k: nat, w: nat)
    requires k < 27 && w >= 17
    ensures var i := DomainIns(w)[k];
            && !i.reset && i.cfg == CFG && (k == 1 ==> !i.gnt)
            && (k < 17 && k != 1 ==> UpInput(i, Progress(k))) && (k >= 17 ==> i.tgt.T_OFF?)
  {
  }

  lemma RequestStarts(s: Slice)
    requires UpAt(s, 16)
    ensures DenyAt(s, 0)
  {
  }

  /** The domain boots in 17 cycles, sees its target OFF, asks its device and is denied. */
  ghost predicate OnCourse(s: Slice, k: nat) {
    && (k <= 17 ==> UpAt(s, Progress(k)) && !s.r.pd.retValid)
    && (k >= 17 ==> DenyAt(s, k - 17))
  }

  lemma CourseStep(s: Slice, i: SliceIn, k: nat)
    requires Inv(DOMAIN, s) && Sized(DOMAIN, s.r) && k < 27 && OnCourse(s, k)
    requires !i.reset && i.cfg == CFG && (k == 1 ==> !i.gnt)
    requires (k < 17 && k != 1 ==> UpInput(i, Progress(k))) && (k >= 17 ==> i.tgt.T_OFF?)
    ensures OnCourse(NextBench(s, i, true), k + 1)
  {
    hide NextBench, Inv, UpAt, DenyAt, UpInput;
    if k == 1 {
      GrantWaitStep(s, i, true);
    } else if k < 17 {
      UpStep(s, i, true, Progress(k));
      if k == 16 {
        RequestStarts(NextBench(s, i, true));
      }
    } else {
      DenyStep(s, i, k - 17);
    }
  }

  lemma {:induction false} Course(sl: seq<Slice>, w: nat, k: nat)
    requires k <= 27 && w >= 17 && Plays(sl, DomainIns(w), true)
    ensures OnCourse(sl[k], k)
  {
    if k > 0 {
      Course(sl, w, k - 1);
      InputsFit(k - 1, w);
      hide NextBench, Inv, OnCourse, UpInput;
      assert PlaysAt(sl, DomainIns(w), true, k - 1) && Driven(sl[k - 1]);
      CourseStep(sl[k - 1], DomainIns(w)[k - 1], k - 1);
    }
  }

  /** What the rest of the unit sees of the domain. */
  lemma SeenByUnit(s: Slice, k: nat)
    requires Inv(DOMAIN, s) && OnCourse(s, k) && k < 27
    ensures s.r.pd.out.inrushReq <==> 1 <= k <= 8
    ensures !s.r.pd.evDeny && !s.r.pd.evFault
    ensures !AtTarget(DOMAIN, s.r.pd, if k == 0 then T_ON else T_OFF)
  {
    assert s.r.pd.out == Table(s.r.pd.st);
    hide Channel, SwitchesOn;
  }

  /** Without events and without a request the bank and the status do not move. */
  lemma Uneventful(s: Sys, i: SysIn)
    requires |s.slices| == 1 && !s.slices[0].r.pd.evDeny && !s.slices[0].r.pd.evFault
    requires !i.wakeEvt && !s.status.evDone && s.bank.irq == Irq(false, false, false, false) && s.bank.info == NO_FAULT
    requires !WriteTo(i.bus, ADDR_IRQ_STATUS)
    ensures var b := NextBank(s.bank, i.bus, EventsOf(s, i));
            && b.irq == s.bank.irq && b.info == NO_FAULT && b.arm == ModeWrite(i.bus)
            && b.modeReq == if ModeWrite(i.bus) then ModeOf(i.bus.pwdata % 8) else s.bank.modeReq
  {
    var f := FaultPulses(s);
    assert !f[0];
    assert FirstFault(f, 0) == 1;
    assert !DenyPulse(s);
  }

  lemma BankSteps(s: Sys, k: nat, w: nat)
    requires k < 27 && w >= 17 && s.bank == BankAt(k, w) && s.status == RESET_STATUS
    requires |s.slices| == 1 && !s.slices[0].r.pd.evDeny && !s.slices[0].r.pd.evFault
    ensures NextBank(s.bank, UnitIn(k, w).bus, EventsOf(s, UnitIn(k, w))) == BankAt(k + 1, w)
  {
    Uneventful(s, UnitIn(k, w));
    hide NextBank, EventsOf;
  }

  lemma GrantSteps(s: Sys, i: SysIn, k: nat)
    requires |s.slices| == 1 && !i.reset && s.gnt == [Granted(k)]
    requires s.slices[0].r.pd.out.inrushReq == (1 <= k <= 8)
    ensures NextGrants(s, i) == [Granted(k + 1)]
  {
    assert Requesting(s) == [1 <= k <= 8];
    assert s.gnt[0] == Granted(k) && Requesting(s)[0] == (1 <= k <= 8);
  }

  lemma StatusSteps(t: Slice, k: nat, w: nat)
    requires !AtTarget(DOMAIN, t.r.pd, if k == 0 then T_ON else T_OFF)
    ensures var s := UnitOf(t, k, w);
            NextStatus(s.status, AllAtTarget(UNIT, s), s.bank.arm, s.bank.modeReq) == RESET_STATUS
  {
    hide AtTarget;
    assert UNIT.Of(0) == DOMAIN;
    assert !AtTgt(UNIT, UnitOf(t, k, w), 0);
  }

  /** The registers outside the domain. */
  lemma RestSteps(t: Slice, t': Slice, k: nat, w: nat)
    requires k < 27 && w >= 17 && Inv(DOMAIN, t) && OnCourse(t, k)
    ensures var (s, i, s') := (UnitOf(t, k, w), UnitIn(k, w), UnitOf(t', k + 1, w));
            && s'.gnt == NextGrants(s, i)
            && s'.bank == NextBank(s.bank, i.bus, EventsOf(s, i))
            && s'.status == NextStatus(s.status, AllAtTarget(UNIT, s), s.bank.arm, s.bank.modeReq)
  {
    SeenByUnit(t, k);
    hide Inv, OnCourse, AtTarget, AllAtTarget, NextStatus, NextBank, EventsOf, NextGrants;
    BankSteps(UnitOf(t, k, w), k, w);
    GrantSteps(UnitOf(t, k, w), UnitIn(k, w), k);
    StatusSteps(t, k, w);
  }

  /** One step of the unit around a step of its domain. */
  lemma UnitSteps(t: Slice, t': Slice, k: nat, w: nat)
    requires k < 27 && w >= 17 && Inv(DOMAIN, t) && OnCourse(t, k)
    requires Sized(DOMAIN, t.r) && Step(DOMAIN, t, DomainIn(k, w), t')
    ensures SysStep(UNIT, UnitOf(t, k, w), UnitIn(k, w), UnitOf(t', k + 1, w))
  {
    RestSteps(t, t', k, w);
    hide Step, Inv, OnCourse, NextBank, EventsOf, NextGrants, NextStatus, AllAtTarget;
    assert UNIT.Of(0) == DOMAIN;
    assert SliceInput(UNIT, UnitOf(t, k, w), UnitIn(k, w), 0) == DomainIn(k, w);
  }

  /** For every w from 17 to 25 a run from power-on without reset: the domain is in the middle of
      its handshake when the pulse of the request written in cycle w arrives, the deny ends in
      cycle 26, and in cycle 27 the domain is ON, off its target and disarmed, no other request
      having come. */
  lemma RequestIsDropped(w: nat) returns (run: seq<Sys>, ins: seq<SysIn>)
    requires 17 <= w <= 25
    ensures |run| == 28 && IsSysRun(UNIT, run, ins) && HasDomain(run, 0)
    ensures forall j :: 0 <= j < 27 ==> !ins[j].reset
    ensures run[w + 1].bank.arm && run[w + 1].bank.modeReq == Shutdown
    ensures forall j :: w + 1 < j <= 27 ==> !run[j].bank.arm
    ensures run[w + 1].slices[0].r.pd.st.D_QWAIT? || run[w + 1].slices[0].r.pd.st.D_DENY?
    ensures var pd := run[27].slices[0].r.pd; pd.st.S_ON? && !pd.armed
  {
    var sl := Play(DomainIns(w), true);
    PlaysIsRun(sl, DomainIns(w), true);
    run := seq(28, k requires 0 <= k <= 27 => UnitOf(sl[k], k, w));
    ins := seq(27, k requires 0 <= k => UnitIn(k, w));
    hide SysStep, SysInit, Step, Inv, OnCourse, NextBench;
    Course(sl, w, w + 1);
    OnCourseAt(sl[w + 1], w + 1);
    Course(sl, w, 27);
    OnCourseAt(sl[27], 27);
    UnitStarts(sl[0], w);
    forall k | 0 <= k < 27
      ensures SysStepAt(UNIT, run, ins, k)
    {
      Course(sl, w, k);
      assert Driven(sl[k]);
      assert StepAt(DOMAIN, sl, DomainIns(w), k);
      UnitSteps(sl[k], sl[k + 1], k, w);
    }
  }

  lemma UnitStarts(t: Slice, w: nat)
    requires t == START
    ensures SysInit(UNIT, UnitOf(t, 0, w))
  {
    assert UNIT.Of(0) == DOMAIN;
  }

  lemma OnCourseAt(s: Slice, k: nat)
    requires OnCourse(s, k) && 18 <= k <= 27
    ensures k < 27 ==> s.r.pd.st.D_QWAIT? || s.r.pd.st.D_DENY?
    ensures k == 27 ==> s.r.pd.st.S_ON? && !s.r.pd.armed
  {
    hide Channel, SwitchesOn;
  }
}
