/** Fault accounting over whole runs: the interrupt, FAULT_INFO and the domains in FAULT always
    agree, and FAULT_INFO names the first fault since it was last cleared. */
module FaultLog {
  import opened PmuTypes
  import opened PdCtrl
  import opened DomainSlice
  import opened SliceInvariant
  import opened SequencerMoves
  import opened SliceSafety
  import opened ApbRegs
  import opened RegisterHistory
  import opened PmuTop
  import opened InrushExclusion

  /** Domain d is in FAULT in cycle k and was not one cycle before. */
  ghost predicate Entered(run: seq<Sys>, k: nat, d: nat)
    requires k < |run| && forall j :: 0 <= j < |run| ==> d < |run[j].slices|
  {
    k > 0 && run[k].slices[d].r.pd.st.S_FAULT? && !run[k - 1].slices[d].r.pd.st.S_FAULT?
  }

  ghost predicate AllHave(run: seq<Sys>, n: nat) {
    forall j :: 0 <= j < |run| ==> |run[j].slices| == n
  }

  lemma PulseMarksEntry(p: Params, pd: Pd, i: PdIn)
    requires CtlInv(p, pd)
    ensures var pd' := Next(p, pd, i);
            && (pd'.evFault <==> pd'.st.S_FAULT? && !pd.st.S_FAULT?)
            && (pd'.evFault ==> pd'.fault.step == StepShown(pd.out))
  {
    if pd.st.S_FAULT? {
    } else if Next(p, pd, i).st.S_FAULT? {
      hide Next;
      FaultEntry(p, pd, i);
    } else if Stable(pd.st) || QWaitStep(pd.st) {
      assert !TimeoutQ(pd, i) && !TimeoutPsw(p, pd, i);
    } else if HoldStep(pd.st) || pd.st.U_ISO? {
      NoPulseInHold(p, pd, i);
    } else {
      NoPulseInSwitch(p, pd, i);
    }
  }

  lemma NoPulseInHold(p: Params, pd: Pd, i: PdIn)
    requires HoldStep(pd.st) || pd.st.U_ISO?
    ensures !Next(p, pd, i).evFault
  {
  }

  lemma NoPulseInSwitch(p: Params, pd: Pd, i: PdIn)
    requires !TimeoutPsw(p, pd, i) && (pd.st.U_ARB? || SwitchUp(pd.st) || SwitchDown(pd.st))
    ensures !Next(p, pd, i).evFault
  {
  }

  lemma RunHasDomains(p: SysParams, run: seq<Sys>, ins: seq<SysIn>)
    requires IsSysRun(p, run, ins)
    ensures AllHave(run, p.N())
  {
    forall j | 0 <= j < |run|
      ensures |run[j].slices| == p.N()
    {
      RunShaped(p, run, ins, j);
    }
  }

  /** The fault pulse of a domain is high exactly in the first cycle of a stay in FAULT, and the
      step beside it is the wait that timed out. */
  lemma PulseIffEntered(p: SysParams, run: seq<Sys>, ins: seq<SysIn>, k: nat, d: nat)
    requires IsSysRun(p, run, ins) && AllHave(run, p.N()) && k < |run| && d < p.N()
    ensures FaultPulses(run[k])[d] <==> Entered(run, k, d)
    ensures Entered(run, k, d) ==> FaultSteps(run[k])[d] == StepShown(run[k - 1].slices[d].r.pd.out)
  {
    hide Step, Init, NextGrants, SysStep;
    if k == 0 {
      assert !run[0].slices[d].r.pd.evFault by { PulseStarts(p, run[0], d); }
    } else {
      SysRunInv(p, run, ins, k - 1);
      SliceStep(p, run, ins, k - 1, d);
      PulseOfStep(p.Of(d), run[k - 1].slices[d], SliceInput(p, run[k - 1], ins[k - 1], d), run[k].slices[d]);
    }
  }

  lemma PulseStarts(p: SysParams, s: Sys, d: nat)
    requires SysInit(p, s) && d < p.N()
    ensures !s.slices[d].r.pd.evFault
  {
    assert Init(p.Of(d), s.slices[d]);
  }

  lemma PulseOfStep(p: Params, s: Slice, i: SliceIn, s': Slice)
    requires p.Ok() && Inv(p, s) && Step(p, s, i, s')
    ensures var (pd, pd') := (s.r.pd, s'.r.pd);
            && (pd'.evFault <==> pd'.st.S_FAULT? && !pd.st.S_FAULT?)
            && (pd'.evFault ==> pd'.fault.step == StepShown(pd.out))
  {
    hide Next;
    if !i.reset {
      PulseMarksEntry(p, s.r.pd, PdInputs(p, s.r, i));
    }
  }

  /** The first cycle whose fault entries can still be on record in cycle k: a clear keeps those
      of its own cycle, a PMU reset keeps none. */
  function Since(ins: seq<SysIn>, k: nat): (j: nat)
    requires k <= |ins|
    ensures j <= k
  {
    if k == 0 || ins[k - 1].reset then k
    else if Clears(ins[k - 1].bus, FaultBit) then k - 1
    else Since(ins, k - 1)
  }

  ghost predicate NoneEntered(run: seq<Sys>, n: nat, k: nat)
    requires k < |run| && AllHave(run, n)
  {
    forall d :: 0 <= d < n ==> !Entered(run, k, d)
  }

  /** The entry of domain d in cycle j is the first from cycle `from` on, lowest index on ties. */
  ghost predicate FirstEntry(run: seq<Sys>, n: nat, from: nat, j: nat, d: nat)
    requires from <= j < |run| && d < n && AllHave(run, n)
  {
    && Entered(run, j, d)
    && (forall e :: 0 <= e < d ==> !Entered(run, j, e))
    && (forall i :: from <= i < j ==> NoneEntered(run, n, i))
  }

  /** What FAULT_INFO has to be in cycle k, from the history of the run alone. */
  ghost predicate Names(run: seq<Sys>, n: nat, from: nat, k: nat, info: FaultInfo)
    requires from <= k < |run| && AllHave(run, n)
  {
    if forall j :: from <= j < k ==> NoneEntered(run, n, j) then info == FaultInfo(false, NoStep, 0)
    else exists j, d :: from <= j < k && 0 <= d < n && FirstEntry(run, n, from, j, d) &&
                        info == FaultInfo(true, StepShown(run[j - 1].slices[d].r.pd.out), d % 4)
  }

  /** FAULT_INFO names the first fault since the last clear, for every run and any number of
      domains (the domain number modulo 4). */
  lemma {:induction false} InfoNamesFirstFault(p: SysParams, run: seq<Sys>, ins: seq<SysIn>, k: nat)
    requires IsSysRun(p, run, ins) && AllHave(run, p.N()) && k < |run|
    ensures Names(run, p.N(), Since(ins, k), k, run[k].bank.info)
  {
    hide SysInit, SysStep, Clears, NextInfo;
    if k == 0 {
      assert run[0].bank == RESET_BANK by { BankStarts(p, run[0]); }
    } else {
      InfoNamesFirstFault(p, run, ins, k - 1);
      InfoStep(p, run, ins, k - 1);
      if !ins[k - 1].reset {
        var s := run[k - 1];
        forall e | 0 <= e < p.N()
          ensures PulseTells(run, p.N(), k - 1, e, FaultPulses(s)[e], FaultSteps(s)[e])
        {
          PulseIffEntered(p, run, ins, k - 1, e);
        }
        LogStep(run, p.N(), Since(ins, k - 1), k, s.bank.info, Clears(ins[k - 1].bus, FaultBit),
                FaultPulses(s), FaultSteps(s));
      }
    }
  }

  lemma InfoStep(p: SysParams, run: seq<Sys>, ins: seq<SysIn>, k: nat)
    requires IsSysRun(p, run, ins) && k < |ins|
    ensures run[k + 1].bank.info ==
              if ins[k].reset then NO_FAULT
              else NextInfo(run[k].bank.info, Clears(ins[k].bus, FaultBit), FaultPulses(run[k]), FaultSteps(run[k]))
  {
    hide Step, SysInit, NextGrants, NextInfo;
    assert SysStepAt(p, run, ins, k);
    DecodesTransfers(ins[k].bus);
  }

  lemma BankStarts(p: SysParams, s: Sys)
    requires SysInit(p, s)
    ensures s.bank == RESET_BANK
  {
  }

  ghost predicate PulseTells(run: seq<Sys>, n: nat, k: nat, d: nat, fault: bool, step: FaultStep)
    requires k < |run| && d < n && AllHave(run, n)
  {
    && (fault <==> Entered(run, k, d))
    && (fault ==> k > 0 && step == StepShown(run[k - 1].slices[d].r.pd.out))
  }

  /** One edge of FAULT_INFO against the history. */
  lemma LogStep(run: seq<Sys>, n: nat, from: nat, k: nat, info: FaultInfo, clear: bool,
                faults: seq<bool>, steps: seq<FaultStep>)
    requires 0 < k < |run| && from <= k - 1 && AllHave(run, n)
    requires |faults| == |steps| == n
    requires forall e :: 0 <= e < n ==> PulseTells(run, n, k - 1, e, faults[e], steps[e])
    requires Names(run, n, from, k - 1, info)
    ensures Names(run, n, if clear then k - 1 else from, k, NextInfo(info, clear, faults, steps))
  {
    var d := FirstFault(faults, 0);
    var from' := if clear then k - 1 else from;
    var j := k - 1;
    forall e | 0 <= e < n
      ensures Entered(run, j, e) ==> d <= e
    {
      assert PulseTells(run, n, k - 1, e, faults[e], steps[e]);
    }
    if d < n {
      assert PulseTells(run, n, k - 1, d, faults[d], steps[d]);
      assert !NoneEntered(run, n, k - 1);
      if !info.valid || clear {
        assert FirstEntry(run, n, from', k - 1, d);
      }
    }
  }

  /** The fault interrupt is FAULT_INFO.VALID; a domain in FAULT has it set or is about to. */
  ghost predicate Accounted(s: Sys) {
    && (s.bank.irq.fault <==> s.bank.info.valid)
    && forall d :: 0 <= d < |s.slices| ==>
         s.slices[d].r.pd.st.S_FAULT? ==> s.bank.irq.fault || s.slices[d].r.pd.evFault
  }

  lemma FaultStays(p: Params, s: Slice, i: SliceIn, s': Slice)
    requires p.Ok() && Inv(p, s) && Step(p, s, i, s') && s'.r.pd.st.S_FAULT?
    ensures !i.reset && (s'.r.pd.evFault || (s.r.pd.st.S_FAULT? && !i.faultClr))
  {
    hide Next;
    if !i.reset {
      PulseOfStep(p, s, i, s');
      if s.r.pd.st.S_FAULT? {
        FaultMoves(p, s.r.pd, PdInputs(p, s.r, i));
      }
    }
  }

  lemma AccountedStep(p: SysParams, s: Sys, i: SysIn, s': Sys)
    requires SysInv(p, s) && SysStep(p, s, i, s') && Accounted(s)
    ensures Accounted(s')
  {
    hide Step, Inv, NextGrants;
    if !i.reset {
      BankAccounted(s.bank, i.bus, EventsOf(s, i));
    }
    forall d | 0 <= d < p.N()
      ensures s'.slices[d].r.pd.st.S_FAULT? ==> s'.bank.irq.fault || s'.slices[d].r.pd.evFault
    {
      if s'.slices[d].r.pd.st.S_FAULT? {
        FaultStays(p.Of(d), s.slices[d], SliceInput(p, s, i, d), s'.slices[d]);
        if !s'.slices[d].r.pd.evFault {
          assert FaultPulses(s)[d] == s.slices[d].r.pd.evFault;
        }
      }
    }
  }

  lemma BankAccounted(r: Bank, b: Bus, e: Events)
    requires |e.faults| == |e.steps| && (r.irq.fault <==> r.info.valid)
    ensures var r' := NextBank(r, b, e);
            && (r'.irq.fault <==> r'.info.valid)
            && (r.irq.fault && !FaultClear(b) ==> r'.irq.fault)
            && (forall d :: 0 <= d < |e.faults| && e.faults[d] ==> r'.irq.fault)
  {
  }

  /** In every state of every run the interrupt, FAULT_INFO.VALID and the domains in FAULT agree. */
  lemma {:induction false} FaultsAccounted(p: SysParams, run: seq<Sys>, ins: seq<SysIn>, k: nat)
    requires IsSysRun(p, run, ins) && k < |run|
    ensures Accounted(run[k])
  {
    hide SysStep, Accounted, Init;
    if k == 0 {
      AccountedStart(p, run[0]);
    } else {
      FaultsAccounted(p, run, ins, k - 1);
      assert SysStepAt(p, run, ins, k - 1);
      SysRunInv(p, run, ins, k - 1);
      AccountedStep(p, run[k - 1], ins[k - 1], run[k]);
    }
  }

  lemma AccountedStart(p: SysParams, s: Sys)
    requires SysInit(p, s)
    ensures Accounted(s)
  {
    forall d | 0 <= d < p.N()
      ensures !s.slices[d].r.pd.st.S_FAULT?
    {
      assert Init(p.Of(d), s.slices[d]);
    }
  }

  /** One clear releases every domain that is in FAULT in that cycle, whichever of them FAULT_INFO
      names: to the interrupted Q-Channel wait, or to OFF; without one every domain stays. */
  lemma OneClearReleasesAll(p: SysParams, run: seq<Sys>, ins: seq<SysIn>, k: nat, d: nat)
    requires IsSysRun(p, run, ins) && AllHave(run, p.N()) && k < |ins| && !ins[k].reset && d < p.N()
    requires run[k].slices[d].r.pd.st.S_FAULT?
    ensures var (pd, pd') := (run[k].slices[d].r.pd, run[k + 1].slices[d].r.pd);
            && (run[k].bank.irq.fault || Entered(run, k, d))
            && (pd'.st.S_FAULT? <==> !Clears(ins[k].bus, FaultBit))
            && (Clears(ins[k].bus, FaultBit) ==> pd'.st == if pd.fault.faultQ then pd.fault.resumeSt else S_OFF)
  {
    hide Next;
    SysRunInv(p, run, ins, k);
    SliceStep(p, run, ins, k, d);
    var si := SliceInput(p, run[k], ins[k], d);
    FaultMoves(p.Of(d), run[k].slices[d].r.pd, PdInputs(p.Of(d), run[k].slices[d].r, si));
    FaultsAccounted(p, run, ins, k);
    PulseIffEntered(p, run, ins, k, d);
    assert FaultPulses(run[k])[d] == run[k].slices[d].r.pd.evFault;
  }
}
