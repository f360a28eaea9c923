/** The request and interrupt registers over whole runs, stated by the history of the bus and of
    the events alone. */
module RegisterHistory {
  import opened PmuTypes
  import opened DomainSlice
  import opened ApbRegs
  import opened PmuTop

  datatype Bit = DoneBit | DenyBit | FaultBit | WakeBit

  /** IRQ_STATUS as software writes it: DONE in bit 0, DENY in bit 1, FAULT in bit 2, WAKE in bit 3. */
  predicate Clears(bus: Bus, b: Bit) {
    Transfer(bus, 0x080) &&
    match b
    case DoneBit => bus.pwdata % 2 == 1
    case DenyBit => bus.pwdata / 2 % 2 == 1
    case FaultBit => bus.pwdata / 4 % 2 == 1
    case WakeBit => bus.pwdata / 8 % 2 == 1
  }

  predicate IsSet(irq: Irq, b: Bit) {
    match b
    case DoneBit => irq.done
    case DenyBit => irq.deny
    case FaultBit => irq.fault
    case WakeBit => irq.wake
  }

  /** The event behind a bit, in cycle k. */
  ghost predicate Event(run: seq<Sys>, ins: seq<SysIn>, b: Bit, k: nat)
    requires k < |ins| < |run|
  {
    match b
    case DoneBit => run[k].status.evDone
    case DenyBit => exists d :: 0 <= d < |run[k].slices| && run[k].slices[d].r.pd.evDeny
    case FaultBit => exists d :: 0 <= d < |run[k].slices| && run[k].slices[d].r.pd.evFault
    case WakeBit => ins[k].wakeEvt
  }

  /** The first cycle whose events the bit can still show: a clear keeps those of its own cycle. */
  function SinceClear(ins: seq<SysIn>, b: Bit, k: nat): (j: nat)
    requires k <= |ins|
    ensures j <= k
  {
    if k == 0 || ins[k - 1].reset then k
    else if Clears(ins[k - 1].bus, b) then k - 1
    else SinceClear(ins, b, k - 1)
  }

  lemma BitStep(p: SysParams, run: seq<Sys>, ins: seq<SysIn>, b: Bit, k: nat)
    requires IsSysRun(p, run, ins) && k < |ins|
    ensures IsSet(run[k + 1].bank.irq, b) <==>
              !ins[k].reset &&
              (Event(run, ins, b, k) || (IsSet(run[k].bank.irq, b) && !Clears(ins[k].bus, b)))
  {
    hide Step, SysInit, NextGrants;
    assert SysStepAt(p, run, ins, k);
    if b.FaultBit? && !ins[k].reset {
      PulsesOf(run[k]);
    }
  }

  lemma PulsesOf(s: Sys)
    ensures FirstFault(FaultPulses(s), 0) < |FaultPulses(s)| <==>
              exists d :: 0 <= d < |s.slices| && s.slices[d].r.pd.evFault
  {
    var f := FaultPulses(s);
    assert forall d :: 0 <= d < |s.slices| ==> f[d] == s.slices[d].r.pd.evFault;
    var d := FirstFault(f, 0);
    if d < |f| {
      assert f[d];
    }
  }

  /** A bit of IRQ_STATUS is set exactly when its event happened since the bit was last cleared;
      an event in the cycle of the clear wins. */
  lemma {:induction false} SetIffEventSinceClear(p: SysParams, run: seq<Sys>, ins: seq<SysIn>, b: Bit, k: nat)
    requires IsSysRun(p, run, ins) && k < |run|
    ensures IsSet(run[k].bank.irq, b) <==>
              exists j :: SinceClear(ins, b, k) <= j < k && Event(run, ins, b, j)
  {
    hide SysStep, Init, Event;
    if k > 0 {
      SetIffEventSinceClear(p, run, ins, b, k - 1);
      BitStep(p, run, ins, b, k - 1);
      var last := k - 1;
      assert Event(run, ins, b, last) ==> !ins[last].reset ==>
        SinceClear(ins, b, k) <= last < k && Event(run, ins, b, last);
    }
  }

  /** A mode is asked for, by software or by a wake event. */
  predicate Asks(i: SysIn) {
    !i.reset && (Commands(i.bus) || i.wakeEvt)
  }

  /** The answer to an asking cycle: the mode of the written code, or, without a write, the mode of
      the wake event. */
  predicate Answers(i: SysIn, m: Mode) {
    if Commands(i.bus) then PackageCode(m) == i.bus.pwdata % 8 else m == i.wakeMode
  }

  /** The cycle after the last request, PMU reset or power-on. */
  function LastAsked(ins: seq<SysIn>, k: nat): (b: nat)
    requires k <= |ins|
    ensures b <= k && (b > 0 ==> ins[b - 1].reset || Asks(ins[b - 1]))
    ensures forall j :: b <= j < k ==> !ins[j].reset && !Asks(ins[j])
  {
    if k == 0 || ins[k - 1].reset || Asks(ins[k - 1]) then k else LastAsked(ins, k - 1)
  }

  lemma RequestStep(p: SysParams, run: seq<Sys>, ins: seq<SysIn>, k: nat)
    requires IsSysRun(p, run, ins) && k < |ins|
    ensures run[k + 1].bank.arm <==> Asks(ins[k])
    ensures var (m, m') := (run[k].bank.modeReq, run[k + 1].bank.modeReq);
            if ins[k].reset then m' == Run else if Asks(ins[k]) then Answers(ins[k], m') else m' == m
  {
    hide Step, SysInit, NextGrants;
    assert SysStepAt(p, run, ins, k);
    DecodesTransfers(ins[k].bus);
    hide Commands, ModeWrite, ModeOf, PackageCode, FaultClear, ClearBit, NextInfo, EventsOf;
  }

  lemma RequestStart(p: SysParams, run: seq<Sys>, ins: seq<SysIn>)
    requires IsSysRun(p, run, ins)
    ensures run[0].bank.modeReq == Run && !run[0].bank.arm
  {
    hide SysStep, Init;
  }

  /** MODE_REQ is the mode last asked for since boot, RUN before; the arm pulse follows each
      request by one cycle and is high at no other time. */
  lemma {:induction false} ModeReqIsLastAsked(p: SysParams, run: seq<Sys>, ins: seq<SysIn>, k: nat)
    requires IsSysRun(p, run, ins) && k < |run|
    ensures run[k].bank.arm <==> k > 0 && Asks(ins[k - 1])
    ensures var b := LastAsked(ins, k);
            if b == 0 || ins[b - 1].reset then run[k].bank.modeReq == Run
            else Answers(ins[b - 1], run[k].bank.modeReq)
  {
    hide SysStep, SysInit, Asks, Answers;
    if k == 0 {
      RequestStart(p, run, ins);
    } else {
      ModeReqIsLastAsked(p, run, ins, k - 1);
      RequestStep(p, run, ins, k - 1);
    }
  }
}
