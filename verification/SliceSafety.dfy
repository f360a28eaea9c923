/** Safety of one domain over whole runs, on the real pins: physical power, the Q-Channel
    controller rules, trickle staging. */
module SliceSafety {
  import opened PmuTypes
  import opened SyncFf
  import opened PdCtrl
  import opened DomainSlice
  import opened SliceInvariant
  import opened SlicePower
  import opened SliceQChannel

  ghost predicate Inv(p: Params, s: Slice) {
    Sized(p, s.r) && CtlInv(p, s.r.pd) && PowerInv(s) && QInv(s)
  }

  lemma InvInit(p: Params, s: Slice)
    requires p.Ok() && Init(p, s)
    ensures Inv(p, s)
  {
  }

  lemma InvStep(p: Params, s: Slice, i: SliceIn, s': Slice)
    requires p.Ok() && Inv(p, s) && Step(p, s, i, s')
    ensures Inv(p, s')
  {
    if i.reset {
      InvInit(p, s');
    } else {
      CtlInvStep(p, s.r.pd, PdInputs(p, s.r, i));
      PowerStep(p, s, i, s');
      QStep(p, s, i, s');
    }
  }

  /** The invariant holds in every state of every run. */
  lemma {:induction false} RunInv(p: Params, run: seq<Slice>, ins: seq<SliceIn>, k: nat)
    requires p.Ok() && IsRun(p, run, ins) && k < |run|
    ensures Inv(p, run[k])
  {
    if k == 0 {
      InvInit(p, run[0]);
    } else {
      RunInv(p, run, ins, k - 1);
      assert StepAt(p, run, ins, k - 1);
      InvStep(p, run[k - 1], ins[k - 1], run[k]);
    }
  }

  /** One edge of a run, with the invariant on both sides. */
  lemma RunEdge(p: Params, run: seq<Slice>, ins: seq<SliceIn>, k: nat)
    requires p.Ok() && IsRun(p, run, ins) && k < |ins|
    ensures |run| == |ins| + 1 && Inv(p, run[k]) && Inv(p, run[k + 1])
    ensures Step(p, run[k], ins[k], run[k + 1])
  {
    hide Step, Inv, Init;
    RunInv(p, run, ins, k);
    RunInv(p, run, ins, k + 1);
    assert StepAt(p, run, ins, k);
  }

  /** A domain that is unisolated, out of reset or clocked is really powered: both acknowledges
      are high on the pins, and no synchroniser stage still carries anything older. */
  lemma PhysicalPower(p: Params, run: seq<Slice>, ins: seq<SliceIn>, k: nat)
    requires p.Ok() && IsRun(p, run, ins) && k < |run|
    requires var o := run[k].r.pd.out; !o.isoEn || o.rstN || o.clkEn
    ensures run[k].pins.trkAck && run[k].pins.mainAck
    ensures Sized(p, run[k].r)
    ensures forall j :: 0 <= j < p.stages ==> run[k].r.trk[j] && run[k].r.main[j]
  {
    RunInv(p, run, ins, k);
  }

  /** Isolation is off only out of reset; a save happens only isolated and with the clock
      stopped; save and restore need retention. */
  lemma IsolationOrder(p: Params, run: seq<Slice>, ins: seq<SliceIn>, k: nat)
    requires p.Ok() && IsRun(p, run, ins) && k < |run|
    ensures var o := run[k].r.pd.out;
            && (!o.isoEn ==> o.rstN)
            && (o.retSave ==> o.isoEn && !o.clkEn && p.hasRet)
            && (o.retRestore ==> !o.rstN && p.hasRet)
  {
    RunInv(p, run, ins, k);
  }

  /** Isolation is released last: the clock runs before and after, out of reset. */
  lemma IsolationReleasedLast(p: Params, run: seq<Slice>, ins: seq<SliceIn>, k: nat)
    requires p.Ok() && IsRun(p, run, ins) && k < |ins|
    requires run[k].r.pd.out.isoEn && !run[k + 1].r.pd.out.isoEn
    ensures run[k].r.pd.out.clkEn && run[k + 1].r.pd.out.clkEn && run[k].r.pd.out.rstN
  {
    RunInv(p, run, ins, k);
    RunInv(p, run, ins, k + 1);
    assert StepAt(p, run, ins, k);
    ReleaseNext(p, run[k].r.pd, PdInputs(p, run[k].r, ins[k]));
  }

  lemma ReleaseNext(p: Params, pd: Pd, i: PdIn)
    requires CtlInv(p, pd) && pd.out.isoEn && !Next(p, pd, i).out.isoEn
    ensures pd.st.U_CLK? && Next(p, pd, i).st.U_ISO?
  {
    CtlInvStep(p, pd, i);
  }

  /** The switches go off in order: unless a timeout or PMU reset intervenes, the trickle enable
      falls only when the main acknowledge is low on the pin and in every stage. */
  lemma TrickleOffAfterMain(p: Params, run: seq<Slice>, ins: seq<SliceIn>, k: nat)
    requires p.Ok() && IsRun(p, run, ins) && k < |ins| && !ins[k].reset
    requires run[k].r.pd.out.trkEn && !run[k + 1].r.pd.out.trkEn && !run[k + 1].r.pd.evFault
    ensures Still(false, run[k].pins.mainAck, run[k].r.main) && !run[k].r.pd.out.mainEn
  {
    var s := run[k];
    RunInv(p, run, ins, k);
    assert StepAt(p, run, ins, k);
    TrickleOffNext(p, s.r.pd, PdInputs(p, s.r, ins[k]));
    FrontFills(false, s.pins.mainAck, s.r.main, s.r.pd.cnt);
  }

  lemma TrickleOffNext(p: Params, pd: Pd, i: PdIn)
    requires CtlInv(p, pd) && pd.out.trkEn && !Next(p, pd, i).out.trkEn && !Next(p, pd, i).evFault
    ensures pd.st.D_MAIN_OFF? && Trusted(p, pd) && !i.mainAck
  {
    CtlInvStep(p, pd, i);
  }

  /** The controller rules of ARM IHI 0068D, section 2.1.2, on the pins themselves: QREQn falls
      only from Q_RUN, rises only with both responses low or both high, and outside PMU reset
      the device is put in reset only in Q_STOPPED. FAULT states are included. */
  lemma QChannelRules(p: Params, run: seq<Slice>, ins: seq<SliceIn>, k: nat)
    requires p.Ok() && IsRun(p, run, ins) && k < |ins| && !ins[k].reset
    ensures var (s, s') := (run[k], run[k + 1]);
            && (s.r.qreqn && !s'.r.qreqn ==> s.pins.qa && !s.pins.qd)
            && (!s.r.qreqn && s'.r.qreqn ==> s.pins.qa == s.pins.qd)
            && (s.r.pd.out.rstN && !s'.r.pd.out.rstN ==> !s.r.qreqn && !s.pins.qa && !s.pins.qd)
  {
    var s, s' := run[k], run[k + 1];
    assert StepAt(p, run, ins, k);
    RunInv(p, run, ins, k);
    RunInv(p, run, ins, k + 1);
    if s.r.qreqn && !s'.r.qreqn {
      FallsFromRun(p, s, ins[k], s');
    } else if !s.r.qreqn && s'.r.qreqn {
      RisesFromRest(p, s, ins[k], s');
    }
    if s.r.pd.out.rstN && !s'.r.pd.out.rstN {
      ResetNext(p, s.r.pd, PdInputs(p, s.r, ins[k]));
    }
  }

  lemma FallsFromRun(p: Params, s: Slice, i: SliceIn, s': Slice)
    requires p.Ok() && Inv(p, s) && Step(p, s, i, s') && !i.reset
    requires s.r.qreqn && !s'.r.qreqn
    ensures s.pins.qa && !s.pins.qd
  {
    assert s.r.pd.out.stopReq && !Out(s.r.deny);
    assert RunningOrReleasing(s);
    FrontFills(false, s.pins.qd, s.r.deny, |s.r.deny|);
  }

  lemma RisesFromRest(p: Params, s: Slice, i: SliceIn, s': Slice)
    requires p.Ok() && Inv(p, s) && Step(p, s, i, s') && !i.reset
    requires !s.r.qreqn && s'.r.qreqn
    ensures s.pins.qa == s.pins.qd
  {
    if Out(s.r.acc) {
      assert Out(s.r.deny);
      assert Denying(s);
      FrontFills(true, s.pins.qd, s.r.deny, |s.r.deny|);
    } else {
      assert s.r.pd.out.exitReq;
    }
  }

  lemma ResetNext(p: Params, pd: Pd, i: PdIn)
    requires CtlInv(p, pd) && pd.out.rstN && !Next(p, pd, i).out.rstN
    ensures pd.st.D_ISO? || pd.st.D_SAVE?
  {
    CtlInvStep(p, pd, i);
  }
}
