/** The main switch turns on only after the trickle acknowledge has really been high for the
    programmed delay plus the synchroniser's latency, under live reconfiguration. */
module TrickleStaging {
  import opened PmuTypes
  import opened PdCtrl
  import opened DomainSlice
  import opened SliceInvariant
  import opened SliceSafety

  predicate TrickleHigh(s: Slice) {
    s.pins.trkAck && s.r.pd.out.trkEn
  }

  /** Consecutive cycles up to and including k in which the pin and its enable are both high. */
  function High(run: seq<Slice>, k: nat): (n: nat)
    requires k < |run|
    ensures n <= k + 1
    ensures forall j :: k - n < j <= k ==> TrickleHigh(run[j])
  {
    if !TrickleHigh(run[k]) then 0
    else if k == 0 then 1
    else High(run, k - 1) + 1
  }

  /** What the sequencer has counted and the synchroniser holds is covered by real history. */
  ghost predicate Covered(p: Params, run: seq<Slice>, k: nat)
    requires k < |run|
  {
    var (pd, line) := (run[k].r.pd, run[k].r.trk);
    pd.st.U_TRK_ON? ==>
      && (forall j :: 0 <= j < |line| && j < pd.cnt && line[j] ==> High(run, k) >= j + 2)
      && (pd.hcnt > 0 ==> High(run, k) >= pd.hcnt + p.stages + 1)
  }

  lemma TrickleStays(p: Params, pd: Pd, i: PdIn)
    requires CtlInv(p, pd) && pd.st.U_TRK_ON? && Next(p, pd, i).st.U_TRK_ON?
    ensures var pd' := Next(p, pd, i);
            && pd'.cnt == pd.cnt + 1
            && (pd'.hcnt == 0 || (pd'.hcnt == pd.hcnt + 1 && Trusted(p, pd) && i.trickleAck))
  {
  }

  lemma MainRises(p: Params, pd: Pd, i: PdIn)
    requires CtlInv(p, pd) && !pd.out.mainEn && Next(p, pd, i).out.mainEn
    ensures pd.st.U_TRK_ON? && Trusted(p, pd) && i.trickleAck
    ensures pd.hcnt + 1 >= i.cfg.dlyTrickle
  {
    CtlInvStep(p, pd, i);
  }

  lemma {:induction false} CoveredAlways(p: Params, run: seq<Slice>, ins: seq<SliceIn>, k: nat)
    requires p.Ok() && IsRun(p, run, ins) && k < |run|
    ensures Covered(p, run, k)
  {
    hide Next;
    if k > 0 && run[k].r.pd.st.U_TRK_ON? {
      var (s, s', i) := (run[k - 1], run[k], ins[k - 1]);
      CoveredAlways(p, run, ins, k - 1);
      RunInv(p, run, ins, k - 1);
      RunInv(p, run, ins, k);
      assert StepAt(p, run, ins, k - 1);
      if s.r.pd.st.U_TRK_ON? {
        CoveredStep(p, run, ins, k);
      } else {
        StepStarts(p, s.r.pd, PdInputs(p, s.r, i));
      }
    }
  }

  lemma CoveredStep(p: Params, run: seq<Slice>, ins: seq<SliceIn>, k: nat)
    requires p.Ok() && IsRun(p, run, ins) && 0 < k < |run|
    requires run[k - 1].r.pd.st.U_TRK_ON? && run[k].r.pd.st.U_TRK_ON?
    requires Inv(p, run[k - 1]) && Inv(p, run[k]) && Covered(p, run, k - 1)
    ensures Covered(p, run, k)
  {
    hide Next;
    var (s, s', i) := (run[k - 1], run[k], ins[k - 1]);
    assert StepAt(p, run, ins, k - 1);
    TrickleStays(p, s.r.pd, PdInputs(p, s.r, i));
    assert s.pins.trkAck ==> High(run, k) == High(run, k - 1) + 1;
    forall j | 0 <= j < |s'.r.trk| && j < s'.r.pd.cnt && s'.r.trk[j]
      ensures High(run, k) >= j + 2
    {
      if j > 0 {
        assert s.r.trk[j - 1];
      }
    }
  }

  /** When the main enable rises, the trickle pin and its enable have both been high in each of
      the last max(1, DLY_TRICKLE) + SYNC_STAGES cycles, DLY_TRICKLE being the value in force at
      that edge. */
  lemma MainAfterTrickle(p: Params, run: seq<Slice>, ins: seq<SliceIn>, k: nat)
    requires p.Ok() && IsRun(p, run, ins) && k < |ins|
    requires !run[k].r.pd.out.mainEn && run[k + 1].r.pd.out.mainEn
    ensures var programmed := ins[k].cfg.dlyTrickle;
            var n := (if programmed == 0 then 1 else programmed) + p.stages;
            n <= k + 1 && forall j :: k + 1 - n <= j <= k ==> TrickleHigh(run[j])
  {
    hide Next;
    var s := run[k];
    RunInv(p, run, ins, k);
    CoveredAlways(p, run, ins, k);
    assert StepAt(p, run, ins, k);
    MainRises(p, s.r.pd, PdInputs(p, s.r, ins[k]));
    assert s.r.trk[p.stages - 1];
    assert High(run, k) >= s.r.pd.hcnt + p.stages + 1;
  }
}
