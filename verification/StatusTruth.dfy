/** What MODE_STATUS and the DONE event tell software, stated over the history of the run. */
module StatusTruth {
  import opened PmuTypes
  import opened SyncFf
  import opened QchMaster
  import opened PdCtrl
  import opened DomainSlice
  import opened SliceInvariant
  import opened SliceSafety
  import opened PmuTop
  import opened InrushExclusion

  /** MISMATCH: some domain misses its target, and every one that does is ON and disarmed. */
  lemma MismatchMeansDisarmedOn(p: SysParams, run: seq<Sys>, ins: seq<SysIn>, k: nat)
    requires IsSysRun(p, run, ins) && k < |run|
    ensures Shaped(p, run[k])
    ensures Mismatch(p, run[k]) <==>
              && (exists d :: 0 <= d < p.N() && !AtTgt(p, run[k], d))
              && (forall d :: 0 <= d < p.N() && !AtTgt(p, run[k], d) ==>
                    run[k].slices[d].r.pd.st.S_ON? && !run[k].slices[d].r.pd.armed)
  {
    SysRunInv(p, run, ins, k);
    forall d | 0 <= d < p.N()
      ensures !run[k].slices[d].r.pd.armed ==> run[k].slices[d].r.pd.st.S_ON?
    {
      assert Inv(p.Of(d), run[k].slices[d]);
    }
    hide Inv;
  }

  /** An armed domain is disarmed by the end of a deny and by nothing else; that end also drops a
      request that arrives with it. */
  lemma ArmedNext(p: Params, pd: Pd, i: PdIn)
    requires CtlInv(p, pd)
    ensures Next(p, pd, i).armed <==> (pd.armed || i.arm) && !(pd.st.D_DENY? && i.qRun)
    ensures Next(p, pd, i).evDeny <==> pd.st.D_DENY? && i.qRun
  {
    if MidSequence(pd.st) && !QWaitStep(pd.st) {
      if HoldStep(pd.st) || pd.st.U_ISO? {
        HoldArmed(p, pd, i);
      } else {
        SwitchArmed(p, pd, i);
      }
    }
  }

  lemma HoldArmed(p: Params, pd: Pd, i: PdIn)
    requires HoldStep(pd.st) || pd.st.U_ISO?
    ensures Next(p, pd, i).armed == (pd.armed || i.arm) && !Next(p, pd, i).evDeny
  {
  }

  lemma SwitchArmed(p: Params, pd: Pd, i: PdIn)
    requires pd.st.U_ARB? || SwitchUp(pd.st) || SwitchDown(pd.st)
    ensures Next(p, pd, i).armed == (pd.armed || i.arm) && !Next(p, pd, i).evDeny
  {
  }

  /** A deny ends for domain d at the edge out of cycle k: the domain is in D_DENY and the channel
      is seen back in Q_RUN. */
  ghost predicate DenyEnds(run: seq<Sys>, k: nat, d: nat) {
    && k < |run| && d < |run[k].slices|
    && var r := run[k].slices[d].r;
       r.pd.st.D_DENY? && |r.acc| > 0 && |r.deny| > 0 && QRun(r.qreqn, Out(r.acc), Out(r.deny))
  }

  /** One edge of the armed flag inside a run. */
  lemma ArmedAt(p: SysParams, run: seq<Sys>, ins: seq<SysIn>, k: nat, d: nat)
    requires IsSysRun(p, run, ins) && k < |ins| && !ins[k].reset && d < p.N()
    ensures Shaped(p, run[k]) && |run[k + 1].slices| == p.N()
    ensures run[k + 1].slices[d].r.pd.armed <==>
              (run[k].slices[d].r.pd.armed || run[k].bank.arm) && !DenyEnds(run, k, d)
  {
    hide Next;
    SysRunInv(p, run, ins, k);
    SliceStep(p, run, ins, k, d);
    var s := run[k].slices[d];
    assert Inv(p.Of(d), s);
    ArmedNext(p.Of(d), s.r.pd, PdInputs(p.Of(d), s.r, SliceInput(p, run[k], ins[k], d)));
  }

  /** What becomes of a request: after the pulse in cycle k, with no further pulse and no PMU
      reset, domain d is disarmed in cycle m exactly if a deny ended for it since the pulse. So a
      request that comes anywhere in a handshake that is denied in the end is dropped with it. */
  lemma {:induction false} DroppedIffDenied(
    p: SysParams, run: seq<Sys>, ins: seq<SysIn>, k: nat, m: nat, d: nat)
    requires IsSysRun(p, run, ins) && k < m < |run| && d < p.N() && HasDomain(run, d)
    requires run[k].bank.arm && forall j :: k < j < m ==> !run[j].bank.arm
    requires forall j :: k <= j < m ==> !ins[j].reset
    ensures !run[m].slices[d].r.pd.armed <==> exists j :: k <= j < m && DenyEnds(run, j, d)
  {
    hide SysStep, SysInit, DenyEnds;
    var last := m - 1;
    ArmedAt(p, run, ins, last, d);
    if k < last {
      DroppedIffDenied(p, run, ins, k, last, d);
    }
    assert DenyEnds(run, last, d) ==> k <= last < m && DenyEnds(run, last, d);
  }

  /** Domain d was denied in cycle j and has waited in ON, disarmed and without a new request,
      ever since. */
  ghost predicate DeniedSince(p: SysParams, run: seq<Sys>, ins: seq<SysIn>, j: nat, k: nat, d: nat)
    requires j <= k < |run| && |run| == |ins| + 1 && forall i :: 0 <= i < |run| ==> d < |run[i].slices|
  {
    && run[j].slices[d].r.pd.evDeny
    && (forall i :: j <= i <= k ==> Waiting(run, i, d))
    && (forall i :: j <= i < k ==> !run[i].bank.arm && !ins[i].reset)
  }

  ghost predicate Waiting(run: seq<Sys>, i: nat, d: nat)
    requires i < |run| && d < |run[i].slices|
  {
    run[i].slices[d].r.pd.st.S_ON? && !run[i].slices[d].r.pd.armed
  }

  ghost predicate HasDomain(run: seq<Sys>, d: nat) {
    forall i :: 0 <= i < |run| ==> d < |run[i].slices|
  }

  /** Every disarmed domain was denied, after the last request. */
  lemma {:induction false} DisarmedByDeny(p: SysParams, run: seq<Sys>, ins: seq<SysIn>, k: nat, d: nat)
    returns (j: nat)
    requires IsSysRun(p, run, ins) && HasDomain(run, d) && k < |run| && d < p.N()
    requires !run[k].slices[d].r.pd.armed
    ensures j <= k && DeniedSince(p, run, ins, j, k, d)
  {
    hide Next, SysStep, Init, Step;
    SysRunInv(p, run, ins, k);
    assert Inv(p.Of(d), run[k].slices[d]);
    j := k;
    if k == 0 {
      ArmedAtStart(p, run[0], d);
      assert false;
    } else {
      SysRunInv(p, run, ins, k - 1);
      SliceStep(p, run, ins, k - 1, d);
      var si := SliceInput(p, run[k - 1], ins[k - 1], d);
      DisarmedStep(p.Of(d), run[k - 1].slices[d], si, run[k].slices[d]);
      if run[k].slices[d].r.pd.evDeny {
        j := k;
      } else {
        j := DisarmedByDeny(p, run, ins, k - 1, d);
      }
      assert Waiting(run, k, d);
    }
  }

  lemma ArmedAtStart(p: SysParams, s: Sys, d: nat)
    requires SysInit(p, s) && d < p.N()
    ensures s.slices[d].r.pd.armed
  {
    assert Init(p.Of(d), s.slices[d]);
  }

  lemma DisarmedStep(p: Params, s: Slice, i: SliceIn, s': Slice)
    requires p.Ok() && Inv(p, s) && Step(p, s, i, s') && !s'.r.pd.armed
    ensures !i.reset && (s'.r.pd.evDeny || (!s.r.pd.armed && !i.arm))
  {
    hide Next;
    if !i.reset {
      ArmedNext(p, s.r.pd, PdInputs(p, s.r, i));
    }
  }

  ghost predicate AllOk(p: SysParams, run: seq<Sys>) {
    p.Ok() && forall k :: 0 <= k < |run| ==> |run[k].slices| == p.N()
  }

  lemma RunAllOk(p: SysParams, run: seq<Sys>, ins: seq<SysIn>)
    requires IsSysRun(p, run, ins)
    ensures AllOk(p, run)
  {
    forall k | 0 <= k < |run|
      ensures Shaped(p, run[k])
    {
      RunShaped(p, run, ins, k);
    }
    assert Shaped(p, run[0]);
  }

  /** All domains are at their target in cycle k. */
  ghost predicate Met(p: SysParams, run: seq<Sys>, k: nat)
    requires AllOk(p, run) && k < |run|
  {
    AllAtTarget(p, run[k])
  }

  /** The cycle after the last PMU reset, or power-on. */
  function Boot(ins: seq<SysIn>, k: nat): (j: nat)
    requires k <= |ins|
    ensures j <= k
  {
    if k == 0 || ins[k - 1].reset then k else Boot(ins, k - 1)
  }

  /** MODE_STATUS.MODE in cycle k is the mode that all domains last satisfied together before k;
      SHUTDOWN if there was no such cycle since boot. */
  lemma {:induction false} ModeIsLastMet(p: SysParams, run: seq<Sys>, ins: seq<SysIn>, k: nat)
    requires IsSysRun(p, run, ins) && AllOk(p, run) && k < |run|
    ensures if forall j :: Boot(ins, k) <= j < k ==> !Met(p, run, j) then run[k].status.modeCur == Shutdown
            else exists j :: Boot(ins, k) <= j < k && Met(p, run, j) &&
                             run[k].status.modeCur == run[j].bank.modeReq &&
                             forall i :: j < i < k ==> !Met(p, run, i)
  {
    hide SysInit, Step, Met;
    if k == 0 {
      StatusStarts(p, run[0]);
    } else {
      ModeIsLastMet(p, run, ins, k - 1);
      StatusStep(p, run, ins, k - 1);
      if !ins[k - 1].reset {
        var (b, j) := (Boot(ins, k), k - 1);
        assert Met(p, run, j) ==> run[k].status.modeCur == run[j].bank.modeReq;
      }
    }
  }

  lemma StatusStarts(p: SysParams, s: Sys)
    requires SysInit(p, s)
    ensures s.status == RESET_STATUS
  {
  }

  lemma StatusStep(p: SysParams, run: seq<Sys>, ins: seq<SysIn>, k: nat)
    requires IsSysRun(p, run, ins) && AllOk(p, run) && k < |ins|
    ensures run[k + 1].status ==
              if ins[k].reset then RESET_STATUS
              else NextStatus(run[k].status, Met(p, run, k), run[k].bank.arm, run[k].bank.modeReq)
  {
    hide SysInit, Step;
    assert SysStepAt(p, run, ins, k);
  }

  /** The cycle after the last request pulse, PMU reset or power-on: where the batch begins. */
  function BatchStart(run: seq<Sys>, ins: seq<SysIn>, k: nat): (j: nat)
    requires k <= |ins| < |run|
    ensures j <= k
    ensures j > 0 ==> ins[j - 1].reset || run[j - 1].bank.arm
    ensures forall i :: j <= i < k ==> !ins[i].reset && !run[i].bank.arm
  {
    if k == 0 || ins[k - 1].reset || run[k - 1].bank.arm then k else BatchStart(run, ins, k - 1)
  }

  /** DONE fires in cycle k exactly when the cycle before k was the first of the current batch in
      which all domains were at their target. */
  lemma {:induction false} DoneIffFirstMet(p: SysParams, run: seq<Sys>, ins: seq<SysIn>, k: nat)
    requires IsSysRun(p, run, ins) && AllOk(p, run) && k < |run|
    ensures run[k].status.donePending <==> forall j :: BatchStart(run, ins, k) <= j < k ==> !Met(p, run, j)
    ensures run[k].status.evDone <==>
              && BatchStart(run, ins, k) < k
              && Met(p, run, k - 1)
              && forall j :: BatchStart(run, ins, k) <= j < k - 1 ==> !Met(p, run, j)
  {
    hide SysInit, Step, Met;
    if k == 0 {
      StatusStarts(p, run[0]);
    } else {
      DoneIffFirstMet(p, run, ins, k - 1);
      StatusStep(p, run, ins, k - 1);
      var j := k - 1;
      assert !run[k].status.donePending && !ins[j].reset && !run[j].bank.arm ==>
        Met(p, run, j) || !run[j].status.donePending;
    }
  }

  /** Between two DONE events there is a new request or a PMU reset: one event per batch. */
  lemma DoneOncePerBatch(p: SysParams, run: seq<Sys>, ins: seq<SysIn>, k: nat, m: nat)
    requires IsSysRun(p, run, ins) && AllOk(p, run) && k < m < |run|
    requires run[k].status.evDone && run[m].status.evDone
    ensures exists j :: k <= j < m && (run[j].bank.arm || ins[j].reset)
  {
    DoneIffFirstMet(p, run, ins, k);
    DoneIffFirstMet(p, run, ins, m);
    hide SysInit, SysStep, Met;
    var j := BatchStart(run, ins, m);
    assert run[j - 1].bank.arm || ins[j - 1].reset;
  }

  /** The stable state a domain is in, or was in last. */
  function LastStable(run: seq<Slice>, k: nat): (st: St)
    requires k < |run|
    ensures st == S_OFF || exists j :: 0 <= j <= k && run[j].r.pd.st == st && Stable(st)
  {
    if Stable(run[k].r.pd.st) then run[k].r.pd.st
    else if k == 0 then S_OFF
    else LastStable(run, k - 1)
  }

  lemma LastStableNext(p: Params, pd: Pd, i: PdIn)
    requires CtlInv(p, pd)
    ensures Next(p, pd, i).lastStable == if Stable(pd.st) then pd.st else pd.lastStable
  {
    if Stable(pd.st) {
      assert !TimeoutQ(pd, i) && !TimeoutPsw(p, pd, i);
    } else if HoldStep(pd.st) || pd.st.U_ISO? {
      HoldKeepsLast(p, pd, i);
    } else if pd.st.U_ARB? || SwitchUp(pd.st) || SwitchDown(pd.st) {
      SwitchKeepsLast(p, pd, i);
    }
  }

  lemma HoldKeepsLast(p: Params, pd: Pd, i: PdIn)
    requires HoldStep(pd.st) || pd.st.U_ISO?
    ensures Next(p, pd, i).lastStable == pd.lastStable
  {
  }

  lemma SwitchKeepsLast(p: Params, pd: Pd, i: PdIn)
    requires pd.st.U_ARB? || SwitchUp(pd.st) || SwitchDown(pd.st)
    ensures Next(p, pd, i).lastStable == pd.lastStable
  {
    var b := Base(pd, i);
    assert NextSwitch(p, pd, b, i).lastStable == pd.lastStable;
    assert SafeOff(pd, b).lastStable == pd.lastStable && Hold(pd, b).lastStable == pd.lastStable;
    hide NextSwitch, SafeOff, Hold, Base, TimeoutPsw, TimeoutQ;
  }

  /** In a sequence and in FAULT the reported state is the stable state the domain was in last, also
      across PMU resets, which put it in OFF. */
  lemma {:induction false} ReportsLastStable(p: Params, run: seq<Slice>, ins: seq<SliceIn>, k: nat)
    requires p.Ok() && IsRun(p, run, ins) && k < |run| && !Stable(run[k].r.pd.st)
    ensures run[k].r.pd.lastStable == LastStable(run, k)
  {
    hide Next, Device, Switches;
    if k == 0 {
    } else {
      RunInv(p, run, ins, k - 1);
      assert StepAt(p, run, ins, k - 1);
      if !ins[k - 1].reset {
        LastStableNext(p, run[k - 1].r.pd, PdInputs(p, run[k - 1].r, ins[k - 1]));
        if !Stable(run[k - 1].r.pd.st) {
          ReportsLastStable(p, run, ins, k - 1);
        }
      }
    }
  }
}
