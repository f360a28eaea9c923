/** Exactly when a Q-Channel wait times out, for all three waits, resumed or not, under live
    configuration, as a function of when the device really answers on its pins. */
module HandshakeTimeout {
  import opened PmuTypes
  import opened SyncFf
  import opened PdCtrl
  import opened DomainSlice
  import opened SliceInvariant
  import opened SliceSafety
  import opened StepCounters

  /** The device's pins answer what the wait is for: accept or deny, end of the deny, exit. */
  predicate Answers(s: Slice, st: St) {
    match st
    case D_QWAIT => !s.pins.qa || s.pins.qd
    case D_DENY => !s.pins.qd
    case U_QEXIT => s.pins.qa
    case _ => false
  }

  /** Whenever the isolation cell clamps, the device's outputs are low anyway. */
  lemma ClampIsTransparent(p: Params, s: Slice)
    requires Inv(p, s)
    ensures Clamp(s.r.pd.out.isoEn, s.pins.qa) == s.pins.qa
    ensures Clamp(s.r.pd.out.isoEn, s.pins.qd) == s.pins.qd
  {
  }

  lemma ResponseMoves(p: Params, s: Slice, i: SliceIn, s': Slice, j: nat)
    requires p.Ok() && Inv(p, s) && Step(p, s, i, s') && !i.reset && j < p.stages
    ensures Sized(p, s.r) && Sized(p, s'.r)
    ensures s'.r.acc[j] == if j == 0 then s.pins.qa else s.r.acc[j - 1]
    ensures s'.r.deny[j] == if j == 0 then s.pins.qd else s.r.deny[j - 1]
  {
    ClampIsTransparent(p, s);
    hide Next, Inv, Device, Switches;
  }

  /** Without PMU reset, stage j shows the device's pins of j + 1 cycles earlier. */
  lemma {:induction false} ResponseIsHistory(p: Params, run: seq<Slice>, ins: seq<SliceIn>, k: nat, j: nat)
    requires p.Ok() && IsRun(p, run, ins) && j < p.stages && j < k < |run|
    requires forall m :: k - 1 - j <= m < k ==> !ins[m].reset
    ensures Sized(p, run[k].r)
    ensures run[k].r.acc[j] == run[k - 1 - j].pins.qa
    ensures run[k].r.deny[j] == run[k - 1 - j].pins.qd
  {
    hide Step, Init, Inv;
    RunInv(p, run, ins, k - 1);
    assert StepAt(p, run, ins, k - 1);
    ResponseMoves(p, run[k - 1], ins[k - 1], run[k], j);
    if j > 0 {
      ResponseIsHistory(p, run, ins, k - 1, j - 1);
    }
  }

  /** After a start in cycle b, by power-on or PMU reset, the stages that no pin has reached yet
      are low. */
  lemma {:induction false} LowSinceStart(p: Params, run: seq<Slice>, ins: seq<SliceIn>, b: nat, k: nat)
    requires p.Ok() && IsRun(p, run, ins) && b <= k < |run|
    requires b == 0 || ins[b - 1].reset
    ensures Sized(p, run[k].r)
    ensures forall j :: k - b <= j < p.stages ==> !run[k].r.trk[j]
  {
    hide Next, Device, Switches;
    if k > 0 {
      assert StepAt(p, run, ins, k - 1);
    }
    if b < k && !ins[k - 1].reset {
      LowSinceStart(p, run, ins, b, k - 1);
    }
  }

  /** A powered domain is older than its synchronisers: no start within the last SYNC_STAGES cycles. */
  lemma NoRecentStart(p: Params, run: seq<Slice>, ins: seq<SliceIn>, k: nat)
    requires p.Ok() && IsRun(p, run, ins) && k < |run| && Powered(Holding(run[k].r.pd))
    ensures k >= p.stages && forall m :: k - p.stages <= m < k ==> !ins[m].reset
  {
    RunInv(p, run, ins, k);
    hide Step, Init;
    LowSinceStart(p, run, ins, 0, k);
    assert run[k].r.trk[p.stages - 1];
    forall m | k - p.stages <= m < k && m >= 0
      ensures !ins[m].reset
    {
      if ins[m].reset {
        LowSinceStart(p, run, ins, m + 1, k);
      }
    }
  }

  /** The wait is over for the sequencer exactly when the synchronised responses answer it. */
  lemma SeenAnswer(p: Params, s: Slice, i: SliceIn)
    requires p.Ok() && Inv(p, s) && QWaitStep(s.r.pd.st)
    ensures WaitQ(s.r.pd, PdInputs(p, s.r, i)) <==>
              if s.r.pd.st.D_QWAIT? then Out(s.r.acc) && !Out(s.r.deny)
              else if s.r.pd.st.D_DENY? then Out(s.r.deny)
              else !Out(s.r.acc)
  {
  }

  predicate WaitOver(st: St, st': St) {
    match st
    case D_QWAIT => st'.D_CLK? || st'.D_DENY?
    case D_DENY | U_QEXIT => st'.S_ON?
    case _ => false
  }

  /** A Q-Channel timeout in wait st, just recorded. */
  predicate HeldIn(st: St, pd: Pd) {
    && pd.st.S_FAULT? && pd.fault.faultQ && pd.evFault
    && pd.fault.resumeSt == st
    && (st.D_QWAIT? ==> pd.fault.step == QAcceptDown)
    && (st.D_DENY? ==> pd.fault.step == QDenyRelease)
    && (st.U_QEXIT? ==> pd.fault.step == QAcceptUp)
  }

  lemma WaitNext(p: Params, pd: Pd, i: PdIn)
    requires CtlInv(p, pd) && QWaitStep(pd.st)
    ensures var pd' := Next(p, pd, i);
            if !WaitQ(pd, i) then WaitOver(pd.st, pd'.st)
            else if Expired(i.cfg.tmoQch, pd.cnt + 1) then HeldIn(pd.st, pd')
            else pd'.st == pd.st
  {
  }

  /** The law of the Q-Channel waits, at every edge of every run without PMU reset: the wait goes on
      to its next state exactly if the device had answered SYNC_STAGES cycles before; otherwise it
      ends in FAULT, recorded and resumable, exactly if its true age reaches the TMO_QCH in force
      now; otherwise it stays. */
  lemma WaitLaw(p: Params, run: seq<Slice>, ins: seq<SliceIn>, k: nat)
    requires p.Ok() && IsRun(p, run, ins) && k < |ins| && !ins[k].reset && QWaitStep(run[k].r.pd.st)
    ensures k >= p.stages
    ensures var (st, pd') := (run[k].r.pd.st, run[k + 1].r.pd);
            if Answers(run[k - p.stages], st) then WaitOver(st, pd'.st)
            else if Expired(ins[k].cfg.tmoQch, Age(run, k) + 1) then HeldIn(st, pd')
            else pd'.st == st
  {
    hide Next, Init;
    var s := run[k];
    RunInv(p, run, ins, k);
    assert StepAt(p, run, ins, k);
    NoRecentStart(p, run, ins, k);
    ResponseIsHistory(p, run, ins, k, p.stages - 1);
    SeenAnswer(p, s, ins[k]);
    CountIsAge(p, run, ins, k);
    WaitNext(p, s.r.pd, PdInputs(p, s.r, ins[k]));
  }

  /** A Q-Channel wait ends in FAULT exactly if the device has not answered SYNC_STAGES cycles
      before the timeout. */
  lemma HandshakeFaultsIff(p: Params, run: seq<Slice>, ins: seq<SliceIn>, k: nat)
    requires p.Ok() && IsRun(p, run, ins) && k < |ins| && !ins[k].reset && QWaitStep(run[k].r.pd.st)
    ensures k >= p.stages
    ensures run[k + 1].r.pd.st.S_FAULT? <==>
              !Answers(run[k - p.stages], run[k].r.pd.st) && Expired(ins[k].cfg.tmoQch, Age(run, k) + 1)
  {
    hide Init, Step;
    WaitLaw(p, run, ins, k);
  }
}
