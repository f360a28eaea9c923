/** A sequence, once started, is not influenced by later requests: two runs that differ only in
    targets and arm pulses cannot be told apart at the domain's pins until it is stable or in
    FAULT again, and the stable state is the one the sequence set out for. */
module Atomicity {
  import opened PmuTypes
  import opened PdCtrl
  import opened DomainSlice
  import opened SliceInvariant
  import opened SliceSafety

  /** Equal but for the armed flag. */
  predicate SameButArmed(s: Slice, t: Slice) {
    t == s.(r := s.r.(pd := s.r.pd.(armed := t.r.pd.armed)))
  }

  /** Equal but for the request: target and arm pulse. */
  predicate SameButRequest(i: SliceIn, j: SliceIn) {
    j == i.(tgt := j.tgt, arm := j.arm)
  }

  /** Equal sequencers but for armed. */
  predicate Alike(pd: Pd, pe: Pd) {
    pe == pd.(armed := pe.armed)
  }

  lemma HandshakeIndifferent(pd: Pd, pe: Pd, b: Pd, c: Pd, i: PdIn, j: PdIn)
    requires QWaitStep(pd.st) && Alike(pd, pe) && Alike(b, c) && j == i.(tgt := j.tgt, arm := j.arm)
    ensures Alike(NextHandshake(pd, b, i), NextHandshake(pe, c, j))
  {
  }

  lemma TrickleIndifferent(p: Params, pd: Pd, pe: Pd, b: Pd, c: Pd, i: PdIn, j: PdIn)
    requires pd.st.U_ARB? || pd.st.U_TRK_ON?
    requires Alike(pd, pe) && Alike(b, c) && j == i.(tgt := j.tgt, arm := j.arm)
    ensures Alike(NextSwitch(p, pd, b, i), NextSwitch(p, pe, c, j))
  {
    assert Trusted(p, pd) == Trusted(p, pe);
    hide Trusted, Dly;
  }

  lemma MainIndifferent(p: Params, pd: Pd, pe: Pd, b: Pd, c: Pd, i: PdIn, j: PdIn)
    requires pd.st.U_MAIN_ON?
    requires Alike(pd, pe) && Alike(b, c) && j == i.(tgt := j.tgt, arm := j.arm)
    ensures Alike(NextSwitch(p, pd, b, i), NextSwitch(p, pe, c, j))
  {
    assert Trusted(p, pd) == Trusted(p, pe);
    hide Trusted, Dly;
  }

  lemma SwitchDownIndifferent(p: Params, pd: Pd, pe: Pd, b: Pd, c: Pd, i: PdIn, j: PdIn)
    requires SwitchDown(pd.st)
    requires Alike(pd, pe) && Alike(b, c) && j == i.(tgt := j.tgt, arm := j.arm)
    ensures Alike(NextSwitch(p, pd, b, i), NextSwitch(p, pe, c, j))
  {
    assert Trusted(p, pd) == Trusted(p, pe);
    hide Trusted, Dly;
  }

  lemma HoldIndifferent(p: Params, pd: Pd, pe: Pd, b: Pd, c: Pd, cfg: Cfg)
    requires Alike(pd, pe) && Alike(b, c)
    ensures Alike(NextHold(p, pd, b, cfg), NextHold(p, pe, c, cfg))
  {
    assert pe.st == pd.st && pe.seqTgt == pd.seqTgt && HoldDone(pe, cfg) == HoldDone(pd, cfg);
    hide HoldDone;
  }

  lemma TimeoutIndifferent(p: Params, pd: Pd, pe: Pd, i: PdIn, j: PdIn)
    requires Alike(pd, pe) && j == i.(tgt := j.tgt, arm := j.arm)
    ensures TimeoutPsw(p, pd, i) == TimeoutPsw(p, pe, j) && TimeoutQ(pd, i) == TimeoutQ(pe, j)
    ensures Alike(Base(pd, i), Base(pe, j))
    ensures Alike(SafeOff(pd, Base(pd, i)), SafeOff(pe, Base(pe, j)))
    ensures Alike(Hold(pd, Base(pd, i)), Hold(pe, Base(pe, j)))
  {
  }

  /** In the middle of a sequence the request reaches nothing but the armed flag. */
  lemma PdIndifferent(p: Params, pd: Pd, pe: Pd, i: PdIn, j: PdIn)
    requires MidSequence(pd.st) && Alike(pd, pe) && j == i.(tgt := j.tgt, arm := j.arm)
    ensures Alike(Next(p, pd, i), Next(p, pe, j))
  {
    var b, c := Base(pd, i), Base(pe, j);
    TimeoutIndifferent(p, pd, pe, i, j);
    hide SafeOff, Hold, NextHandshake, NextSwitch, NextHold, NextStable, Base, TimeoutPsw, TimeoutQ;
    if QWaitStep(pd.st) {
      HandshakeIndifferent(pd, pe, b, c, i, j);
    } else if SwitchDown(pd.st) {
      SwitchDownIndifferent(p, pd, pe, b, c, i, j);
    } else if pd.st.U_MAIN_ON? {
      MainIndifferent(p, pd, pe, b, c, i, j);
    } else if pd.st.U_ARB? || pd.st.U_TRK_ON? {
      TrickleIndifferent(p, pd, pe, b, c, i, j);
    } else {
      HoldIndifferent(p, pd, pe, b, c, i.cfg);
    }
  }

  /** Two runs of one domain whose devices and switches behave alike from k to m. */
  ghost predicate Twins(
    p: Params, run: seq<Slice>, ins: seq<SliceIn>, run': seq<Slice>, ins': seq<SliceIn>, k: nat, m: nat)
    requires p.Ok()
  {
    && IsRun(p, run, ins) && IsRun(p, run', ins') && k <= m < |run| && m < |run'|
    && SameButArmed(run[k], run'[k])
    && (forall j :: k <= j < m ==> SameButRequest(ins[j], ins'[j]) && !ins[j].reset)
    && (forall j :: k <= j <= m ==> run[j].pins == run'[j].pins)
  }

  lemma TwinStep(p: Params, s: Slice, i: SliceIn, s': Slice, t: Slice, j: SliceIn, t': Slice)
    requires p.Ok() && Step(p, s, i, s') && Step(p, t, j, t') && !i.reset && MidSequence(s.r.pd.st)
    requires SameButArmed(s, t) && SameButRequest(i, j) && s'.pins == t'.pins
    ensures SameButArmed(s', t')
  {
    hide Next, Device, Switches;
    PdIndifferent(p, s.r.pd, t.r.pd, PdInputs(p, s.r, i), PdInputs(p, t.r, j));
  }

  /** Non-interference: the twins agree on every register but armed for as long as the domain is
      mid-sequence, and in the first cycle in which it no longer is. */
  lemma {:induction false} NonInterference(
    p: Params, run: seq<Slice>, ins: seq<SliceIn>, run': seq<Slice>, ins': seq<SliceIn>, k: nat, m: nat)
    requires p.Ok() && Twins(p, run, ins, run', ins', k, m)
    requires forall j :: k <= j < m ==> MidSequence(run[j].r.pd.st)
    ensures SameButArmed(run[m], run'[m])
  {
    hide Step, Init, SameButArmed, SameButRequest;
    if m > k {
      NonInterference(p, run, ins, run', ins', k, m - 1);
      assert StepAt(p, run, ins, m - 1) && StepAt(p, run', ins', m - 1);
      TwinStep(p, run[m - 1], ins[m - 1], run[m], run'[m - 1], ins'[m - 1], run'[m]);
    }
  }

  /** The stable state a sequence under way is heading for; in a deny, back to ON. */
  function Destination(pd: Pd): St
    requires MidSequence(pd.st)
  {
    match pd.st
    case D_QWAIT | D_CLK | D_ISO | D_SAVE | D_RST | D_MAIN_OFF | D_TRK_OFF => StateOf(pd.seqTgt)
    case _ => S_ON
  }

  /** One step keeps the destination; only a deny changes it, and then to ON. */
  lemma DestinationKept(p: Params, pd: Pd, i: PdIn)
    requires CtlInv(p, pd) && MidSequence(pd.st)
    ensures var pd' := Next(p, pd, i);
            || pd'.st.S_FAULT?
            || (pd.st.D_QWAIT? && pd'.st.D_DENY?)
            || (Stable(pd'.st) && pd'.st == Destination(pd))
            || (MidSequence(pd'.st) && Destination(pd') == Destination(pd))
  {
    if QWaitStep(pd.st) {
    } else if pd.st.U_ARB? || SwitchUp(pd.st) || SwitchDown(pd.st) {
    } else {
    }
  }

  /** What a sequence sets out for: the effective target, except that a power-up always goes
      to ON first. */
  lemma DestinationChosen(p: Params, pd: Pd, i: PdIn)
    requires CtlInv(p, pd) && Stable(pd.st) && MidSequence(Next(p, pd, i).st)
    ensures var t := Effective(p.hasRet, i.tgt);
            && pd.armed && !Satisfies(pd.st, t)
            && Destination(Next(p, pd, i)) ==
                 if pd.st.S_ON? || pd.st.S_CG? then StateOf(t) else S_ON
  {
  }

  /** A sequence that is mid-way in every cycle from k up to m, without FAULT, ends at m in its
      destination, or in ON by deny. */
  lemma {:induction false} ReachesDestination(p: Params, run: seq<Slice>, ins: seq<SliceIn>, k: nat, m: nat)
    requires p.Ok() && IsRun(p, run, ins) && k < m < |run|
    requires forall j :: k <= j < m ==> MidSequence(run[j].r.pd.st) && !ins[j].reset
    requires Stable(run[m].r.pd.st)
    ensures run[m].r.pd.st == Destination(run[k].r.pd) ||
            (run[m].r.pd.st.S_ON? && exists j :: k <= j < m && run[j].r.pd.st.D_DENY?)
    decreases m - k
  {
    hide Next;
    RunInv(p, run, ins, k);
    assert StepAt(p, run, ins, k);
    DestinationKept(p, run[k].r.pd, PdInputs(p, run[k].r, ins[k]));
    if k + 1 < m {
      ReachesDestination(p, run, ins, k + 1, m);
      assert run[k].r.pd.st.D_QWAIT? && run[k + 1].r.pd.st.D_DENY? ==> Destination(run[k + 1].r.pd) == S_ON;
    }
  }
}
