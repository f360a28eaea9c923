/** The step counters mean what they are read as: in every timed step cnt is the true age of the
    step and hcnt the true number of consecutive acknowledged cycles, under any live
    configuration; the 17-bit and 16-bit registers never wrap where they are compared. */
module StepCounters {
  import opened PmuTypes
  import opened PdCtrl
  import opened DomainSlice
  import opened SliceInvariant
  import opened SliceSafety

  /** Cycles the sequencer has been in its current state before cycle k. */
  function Age(run: seq<Slice>, k: nat): (n: nat)
    requires k < |run|
    ensures n <= k
    ensures forall j :: k - n <= j <= k ==> run[j].r.pd.st == run[k].r.pd.st
    ensures n < k ==> run[k - n - 1].r.pd.st != run[k].r.pd.st
  {
    if k == 0 || run[k - 1].r.pd.st != run[k].r.pd.st then 0 else Age(run, k - 1) + 1
  }

  predicate AckHeard(p: Params, pd: Pd, i: PdIn) {
    Trusted(p, pd) && (if pd.st.U_TRK_ON? then i.trickleAck else i.mainAck)
  }

  /** Consecutive cycles just before k, in the same switch-on step, with the ack trusted and high. */
  ghost function AckRun(p: Params, run: seq<Slice>, ins: seq<SliceIn>, k: nat): nat
    requires p.Ok() && k < |run| && |run| == |ins| + 1
    requires forall j :: 0 <= j < |run| ==> Sized(p, run[j].r)
  {
    if k == 0 || run[k - 1].r.pd.st != run[k].r.pd.st then 0
    else if !AckHeard(p, run[k - 1].r.pd, PdInputs(p, run[k - 1].r, ins[k - 1])) then 0
    else AckRun(p, run, ins, k - 1) + 1
  }

  lemma HoldContinues(p: Params, pd: Pd, i: PdIn)
    requires CtlInv(p, pd) && (HoldStep(pd.st) || QWaitStep(pd.st)) && Next(p, pd, i).st == pd.st
    ensures Next(p, pd, i).cnt == pd.cnt + 1
  {
  }

  lemma SwitchContinues(p: Params, pd: Pd, i: PdIn)
    requires CtlInv(p, pd) && (SwitchUp(pd.st) || SwitchDown(pd.st)) && Next(p, pd, i).st == pd.st
    ensures Next(p, pd, i).cnt == pd.cnt + 1
    ensures SwitchUp(pd.st) ==>
              Next(p, pd, i).hcnt == if AckHeard(p, pd, i) then pd.hcnt + 1 else 0
  {
  }

  lemma Continues(p: Params, pd: Pd, i: PdIn)
    requires CtlInv(p, pd) && Timed(pd.st) && Next(p, pd, i).st == pd.st
    ensures Next(p, pd, i).cnt == pd.cnt + 1
    ensures SwitchUp(pd.st) ==>
              Next(p, pd, i).hcnt == if AckHeard(p, pd, i) then pd.hcnt + 1 else 0
  {
    hide Next, CtlInv;
    if SwitchUp(pd.st) || SwitchDown(pd.st) {
      SwitchContinues(p, pd, i);
    } else {
      HoldContinues(p, pd, i);
    }
  }

  lemma AllSized(p: Params, run: seq<Slice>, ins: seq<SliceIn>)
    requires p.Ok() && IsRun(p, run, ins)
    ensures forall j :: 0 <= j < |run| ==> Sized(p, run[j].r)
  {
    forall j | 0 <= j < |run|
      ensures Sized(p, run[j].r)
    {
      RunInv(p, run, ins, j);
    }
  }

  lemma CountStep(p: Params, s: Slice, i: SliceIn, s': Slice)
    requires p.Ok() && Inv(p, s) && Step(p, s, i, s') && Timed(s'.r.pd.st)
    ensures !i.reset && Sized(p, s.r)
    ensures var (pd, pd', pi) := (s.r.pd, s'.r.pd, PdInputs(p, s.r, i));
            && pd'.cnt == (if pd'.st == pd.st then pd.cnt + 1 else 0)
            && (SwitchUp(pd'.st) ==> pd'.hcnt == if pd'.st == pd.st && AckHeard(p, pd, pi) then pd.hcnt + 1 else 0)
  {
    hide Next, CtlInv, Device, Switches;
    if !i.reset {
      var pi := PdInputs(p, s.r, i);
      if s'.r.pd.st == s.r.pd.st {
        Continues(p, s.r.pd, pi);
      } else {
        StepStarts(p, s.r.pd, pi);
      }
    }
  }

  /** cnt is the age of a timed step. */
  lemma {:induction false} CountIsAge(p: Params, run: seq<Slice>, ins: seq<SliceIn>, k: nat)
    requires p.Ok() && IsRun(p, run, ins) && k < |run| && Timed(run[k].r.pd.st)
    ensures run[k].r.pd.cnt == Age(run, k)
  {
    if k > 0 {
      hide Step, Inv, IsRun;
      var l := k - 1;
      RunEdge(p, run, ins, l);
      CountStep(p, run[l], ins[l], run[k]);
      if run[l].r.pd.st == run[k].r.pd.st {
        CountIsAge(p, run, ins, l);
      }
    }
  }

  /** hcnt is the number of consecutive acknowledged cycles of a switch-on step. */
  lemma {:induction false} HoldCountIsAckRun(p: Params, run: seq<Slice>, ins: seq<SliceIn>, k: nat)
    requires p.Ok() && IsRun(p, run, ins) && k < |run| && SwitchUp(run[k].r.pd.st)
    requires forall j :: 0 <= j < |run| ==> Sized(p, run[j].r)
    ensures run[k].r.pd.hcnt == AckRun(p, run, ins, k)
  {
    if k > 0 {
      hide Step, Inv, IsRun, AckHeard;
      var l := k - 1;
      RunEdge(p, run, ins, l);
      CountStep(p, run[l], ins[l], run[k]);
      if run[l].r.pd.st == run[k].r.pd.st {
        HoldCountIsAckRun(p, run, ins, l);
      }
    }
  }

  /** No comparison sees a wrapped value: the ranges, and the increments are exact. */
  lemma CountersNeverWrap(p: Params, run: seq<Slice>, ins: seq<SliceIn>, k: nat)
    requires p.Ok() && IsRun(p, run, ins) && k < |run|
    ensures var pd := run[k].r.pd;
            && (Timed(pd.st) ==> pd.cnt <= 131069 && Cnt1(pd) == pd.cnt + 1)
            && (SwitchUp(pd.st) ==> pd.hcnt <= 65534)
  {
    RunInv(p, run, ins, k);
  }

  /** The delay register of a hold step. */
  function DelayOf(st: St, cfg: Cfg): u16
    requires HoldStep(st)
  {
    if st.D_CLK? || st.C_CLK? || st.U_CLK? then cfg.dlyClk
    else if st.D_ISO? then cfg.dlyIso
    else if st.D_SAVE? || st.U_RESTORE? then cfg.dlyRet
    else cfg.dlyRst
  }

  lemma HoldNext(p: Params, pd: Pd, i: PdIn)
    requires CtlInv(p, pd) && HoldStep(pd.st)
    ensures Next(p, pd, i).st != pd.st <==> pd.cnt + 1 >= DelayOf(pd.st, i.cfg)
    ensures !Next(p, pd, i).st.S_FAULT?
  {
  }

  /** A hold step is left in exactly the first cycle in which its true length, which is at least
      one, reaches the number programmed for it in that cycle, and never to FAULT. */
  lemma HoldLength(p: Params, run: seq<Slice>, ins: seq<SliceIn>, k: nat)
    requires p.Ok() && IsRun(p, run, ins) && k < |ins| && !ins[k].reset && HoldStep(run[k].r.pd.st)
    ensures var (st, cfg, length) := (run[k].r.pd.st, ins[k].cfg, Age(run, k) + 1);
            run[k + 1].r.pd.st != st <==>
              && (st.D_CLK? || st.C_CLK? || st.U_CLK? ==> length >= cfg.dlyClk)
              && (st.D_ISO? ==> length >= cfg.dlyIso)
              && (st.D_SAVE? || st.U_RESTORE? ==> length >= cfg.dlyRet)
              && (st.D_RST? || st.U_RST? ==> length >= cfg.dlyRst)
    ensures !run[k + 1].r.pd.st.S_FAULT?
  {
    hide Next, Init, Device, Switches;
    RunInv(p, run, ins, k);
    CountIsAge(p, run, ins, k);
    assert StepAt(p, run, ins, k);
    HoldNext(p, run[k].r.pd, PdInputs(p, run[k].r, ins[k]));
  }
}
