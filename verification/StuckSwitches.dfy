/** A run from power-on in which a domain keeps its retention registers through OFF: both switches
    are stuck on, so that both ways down end in a switch timeout, a fault clear and S_OFF with the
    domain still powered. */
module StuckSwitches {
  import opened PmuTypes
  import opened PdCtrl
  import opened DomainSlice
  import opened SliceInvariant
  import opened SliceSafety
  import opened DomainShell
  import opened Retention
  import opened Bench

  const LENGTH: nat := 70

  function TargetAt(k: nat): Target {
    if k < 16 then T_ON else if k < 30 then T_RET else if k < 47 then T_ON else if k < 60 then T_OFF else T_ON
  }

  function Inputs(): (ins: seq<SliceIn>)
    ensures |ins| == LENGTH && NoResets(ins)
    ensures forall k :: 0 <= k < LENGTH ==> ins[k] == SliceIn(false, TargetAt(k), false, k == 29 || k == 59, CFG, true)
  {
    seq(LENGTH, k requires 0 <= k => SliceIn(false, TargetAt(k), false, k == 29 || k == 59, CFG, true))
  }

  /** A state that holds for one cycle with the channel stopped. */
  ghost predicate Brief(s: Slice, st: St) {
    && s.r.pd.st == st && s.r.pd.armed && (st.D_SAVE? ==> s.r.pd.seqTgt.T_RET?)
    && SwitchesOn(s, 2) && Channel(s, false, false, false, false, false, false, false)
  }

  /** Boot, down towards RET into a fault, cleared to OFF. */
  ghost predicate FirstHalf(s: Slice, k: nat) {
    && (k <= 16 ==> UpAt(s, k) && !s.r.pd.retValid)
    && (16 <= k <= 23 ==> DownAt(s, T_RET, k - 16))
    && (k == 24 ==> Brief(s, D_SAVE))
    && (25 <= k <= 29 ==> DownAt(s, T_RET, k - 17))
    && (k == 30 ==> UpAt(s, 0) && s.r.pd.retValid)
  }

  /** Up with a restore, down towards OFF into a fault, cleared to OFF, and up again. */
  ghost predicate SecondHalf(s: Slice, k: nat) {
    && (30 <= k <= 37 ==> UpAt(s, k - 30) && s.r.pd.retValid)
    && (k == 38 ==> Brief(s, U_RESTORE))
    && (39 <= k <= 47 ==> UpAt(s, k - 31) && !s.r.pd.retValid)
    && (47 <= k <= 59 ==> DownAt(s, T_OFF, k - 47))
    && (60 <= k <= 70 ==> UpAt(s, k - 60) && !s.r.pd.retValid)
  }

  lemma TurnsDown(s: Slice, t: Target)
    requires UpAt(s, 16)
    ensures DownAt(s, t, 0)
  {
  }

  /** An edge with the channel stopped and the switches on. */
  lemma StoppedStep(s: Slice, i: SliceIn)
    requires Inv(DOMAIN, s) && !i.reset && i.cfg == CFG && SwitchesOn(s, 2) && s.r.pd.armed
    requires Channel(s, false, false, false, false, false, false, false) && !Holding(s.r.pd).U_QEXIT?
    ensures Sized(DOMAIN, s.r)
    ensures var (s', pd) := (NextBench(s, i, false), s.r.pd);
            var pd' := s'.r.pd;
            && SwitchesOn(s', 2) && Channel(s', false, false, false, false, false, false, false)
            && (pd.st.D_ISO? && pd.seqTgt.T_RET? ==> pd'.st.D_SAVE? && pd'.armed && pd'.seqTgt.T_RET?)
            && (pd.st.D_SAVE? && pd.seqTgt.T_RET? ==> DownPd(pd', T_RET, 8))
            && (pd.st.S_FAULT? && !pd.fault.faultQ && i.faultClr ==> UpPd(pd', 0) && pd'.retValid == pd.retValid)
            && (UpPd(pd, 7) && pd.retValid ==> pd'.st.U_RESTORE? && pd'.armed)
            && (pd.st.U_RESTORE? ==> UpPd(pd', 8) && !pd'.retValid)
  {
    assert s.r.pd.out == Table(Holding(s.r.pd));
    StoppedEdge(s, i, false, 2);
    ShortSteps(s.r.pd, PdInputs(DOMAIN, s.r, i));
    hide Next, NextBench, PdInputs, Inv, UpPd, DownPd, Channel;
  }

  /** Into and out of a save, a restore, a cleared fault. */
  lemma BriefStep(s: Slice, i: SliceIn)
    requires Inv(DOMAIN, s) && Sized(DOMAIN, s.r) && !i.reset && i.cfg == CFG
    ensures var s' := NextBench(s, i, false);
            && (DownAt(s, T_RET, 7) ==> Brief(s', D_SAVE))
            && (Brief(s, D_SAVE) ==> DownAt(s', T_RET, 8))
            && (UpAt(s, 7) && s.r.pd.retValid ==> Brief(s', U_RESTORE))
            && (Brief(s, U_RESTORE) ==> UpAt(s', 8) && !s'.r.pd.retValid)
  {
    hide NextBench, Inv, Channel;
    if DownAt(s, T_RET, 7) || Brief(s, D_SAVE) || UpAt(s, 7) || Brief(s, U_RESTORE) {
      StoppedStep(s, i);
    }
  }

  lemma ClearedStep(s: Slice, i: SliceIn, t: Target)
    requires Inv(DOMAIN, s) && DownAt(s, t, 12) && !i.reset && i.cfg == CFG && i.faultClr
    ensures Sized(DOMAIN, s.r)
    ensures var s' := NextBench(s, i, false); UpAt(s', 0) && s'.r.pd.retValid == t.T_RET?
  {
    hide NextBench, Inv, Channel;
    StoppedStep(s, i);
  }

  lemma FirstHalfStep(s: Slice, i: SliceIn, k: nat)
    requires Inv(DOMAIN, s) && Sized(DOMAIN, s.r) && FirstHalf(s, k) && k < 30
    requires i == SliceIn(false, TargetAt(k), false, k == 29 || k == 59, CFG, true)
    ensures FirstHalf(NextBench(s, i, false), k + 1)
  {
    hide NextBench, Inv, UpAt, DownAt, Brief, Sized;
    var s' := NextBench(s, i, false);
    if k < 16 {
      UpStep(s, i, false, k);
      if k == 15 {
        TurnsDown(s', T_RET);
      }
    } else if k < 23 {
      DownStep(s, i, T_RET, k - 16);
    } else if k == 29 {
      ClearedStep(s, i, T_RET);
    } else if k == 23 || k == 24 {
      BriefStep(s, i);
    } else {
      DownStep(s, i, T_RET, k - 17);
    }
  }

  lemma SecondHalfStep(s: Slice, i: SliceIn, k: nat)
    requires Inv(DOMAIN, s) && Sized(DOMAIN, s.r) && SecondHalf(s, k) && 30 <= k < LENGTH
    requires i == SliceIn(false, TargetAt(k), false, k == 29 || k == 59, CFG, true)
    ensures SecondHalf(NextBench(s, i, false), k + 1)
  {
    hide NextBench, Inv, UpAt, DownAt, Brief, Sized;
    var s' := NextBench(s, i, false);
    if k == 59 {
      ClearedStep(s, i, T_OFF);
    } else if k == 37 || k == 38 {
      BriefStep(s, i);
    } else if k < 37 {
      RestoringStep(s, i, k - 30);
    } else if k < 47 {
      UpStep(s, i, false, k - 31);
      if k == 46 {
        TurnsDown(s', T_OFF);
      }
    } else if k < 59 {
      DownStep(s, i, T_OFF, k - 47);
    } else {
      UpStep(s, i, false, k - 60);
    }
  }

  lemma RestoringStep(s: Slice, i: SliceIn, o: nat)
    requires Inv(DOMAIN, s) && Sized(DOMAIN, s.r) && UpAt(s, o) && o < 7 && UpInput(i, o) && s.r.pd.retValid
    ensures UpAt(NextBench(s, i, false), o + 1) && NextBench(s, i, false).r.pd.retValid
  {
    UpStep(s, i, false, o);
  }

  lemma {:induction false} Course(sl: seq<Slice>, k: nat)
    requires k <= LENGTH && Plays(sl, Inputs(), false)
    ensures if k <= 30 then FirstHalf(sl[k], k) else SecondHalf(sl[k], k)
    ensures k == 30 ==> SecondHalf(sl[k], k)
  {
    if k > 0 {
      Course(sl, k - 1);
      assert PlaysAt(sl, Inputs(), false, k - 1) && Driven(sl[k - 1]);
      hide NextBench, Inv, UpAt, DownAt, Brief, Sized;
      if k <= 30 {
        FirstHalfStep(sl[k - 1], Inputs()[k - 1], k - 1);
      } else {
        SecondHalfStep(sl[k - 1], Inputs()[k - 1], k - 1);
      }
    }
  }

  /** The one write of the domain: value v to its first retention register in cycle 46, when it is
      clocked and unisolated after the restore. */
  function WriteAt(q: ShellParams, v: nat, k: nat): Write {
    if k == 46 then Write(q.nNorm, v) else NoWrite
  }

  lemma MayWrite(s: Slice)
    requires Inv(DOMAIN, s) && SecondHalf(s, 46)
    ensures s.r.pd.out.clkEn && !s.r.pd.out.isoEn
  {
    hide Channel, SwitchesOn;
  }

  /** The shells along a run with these writes. */
  lemma {:induction false} Shells(q: ShellParams, v: nat, sl: seq<Slice>, n: nat) returns (sh: seq<Shell>)
    requires q.Ok() && n < |sl| && Plays(sl, Inputs(), false)
    ensures |sh| == n + 1 && ShellInit(q, sl[0], sh[0])
    ensures forall k :: 0 <= k < n ==> ShellStep(q, sl[k], sh[k], WriteAt(q, v, k), sl[k + 1], sh[k + 1])
  {
    if n == 0 {
      sh := [Shell(ResetNormal(q), Zeros(q.nRet), Zeros(q.nRet), false)];
    } else {
      var init := Shells(q, v, sl, n - 1);
      var (k, w) := (n - 1, WriteAt(q, v, n - 1));
      if k == 46 {
        Course(sl, 46);
        assert Driven(sl[46]);
        MayWrite(sl[46]);
      }
      ShellsFit(q, sl, v, init, k);
      hide NextShell, SecondHalf, Plays;
      sh := init + [NextShell(q, init[k], LevelsOf(sl[k]), w, LevelsOf(sl[n]))];
    }
  }

  lemma ShellsFit(q: ShellParams, sl: seq<Slice>, v: nat, sh: seq<Shell>, n: nat)
    requires q.Ok() && |sh| == n + 1 <= |sl| && ShellInit(q, sl[0], sh[0])
    requires forall k :: 0 <= k < n ==> ShellStep(q, sl[k], sh[k], WriteAt(q, v, k), sl[k + 1], sh[k + 1])
    ensures Fits(q, sh[n])
  {
    if n > 0 {
      assert ShellStep(q, sl[n - 1], sh[n - 1], WriteAt(q, v, n - 1), sl[n], sh[n]);
    }
  }

  lemma Story(q: ShellParams, v: nat) returns (h: History)
    requires q.Ok() && q.hasRet
    ensures Lives(DOMAIN, q, h) && |h.run| == LENGTH + 1 && h.ins == Inputs() && Plays(h.run, h.ins, false)
    ensures forall k :: 0 <= k < LENGTH ==> h.writes[k] == WriteAt(q, v, k)
  {
    var sl := Play(Inputs(), false);
    PlaysIsRun(sl, Inputs(), false);
    var sh := Shells(q, v, sl, LENGTH);
    hide Plays, IsRun, ShellStep, ShellInit, Inputs;
    h := History(sl, Inputs(), sh, seq(LENGTH, k requires 0 <= k => WriteAt(q, v, k)));
    forall k | 0 <= k < LENGTH
      ensures LivesAt(q, h, k)
    {
    }
  }

  /** The states of the story that matter. */
  predicate Scene(s: Slice, k: nat) {
    var pd := s.r.pd;
    && s.pins.trkAck && s.pins.mainAck
    && (k == 38 ==> pd.st.U_RESTORE?) && (46 <= k <= 54 ==> pd.out.rstN && !pd.out.retRestore)
    && (k == 46 ==> pd.out.clkEn) && (k == 47 ==> pd.st.S_ON?) && (k == 58 ==> pd.st.D_MAIN_OFF?)
    && (k == 59 ==> pd.st.S_FAULT?) && (k == 60 ==> pd.st.S_OFF?)
    && (54 <= k < 70 ==> pd.out.isoEn) && (k == 70 ==> !pd.out.isoEn)
    && (54 <= k <= 70 ==> !pd.retValid)
  }

  lemma Scenes(h: History, k: nat)
    requires k <= LENGTH && Plays(h.run, Inputs(), false)
    ensures Scene(h.run[k], k)
  {
    Course(h.run, k);
    assert Driven(h.run[k]);
    hide Plays, Channel, SwitchesOn, Inputs;
  }

  /** While the power stays, what was restored counts as restored. */
  lemma {:induction false} StaysRestored(q: ShellParams, h: History, a: nat, m: nat)
    requires Lives(DOMAIN, q, h) && a <= m < |h.run| && h.shells[a].restored && PoweredOver(h.run, a, m)
    ensures h.shells[m].restored
  {
    hide Step, Init;
    if a < m {
      StaysRestored(q, h, a, m - 1);
      assert LivesAt(q, h, m - 1);
    }
  }

  /** Out of reset, powered and without writes the retention registers stay. */
  lemma {:induction false} StaysLive(q: ShellParams, h: History, a: nat, m: nat)
    requires Lives(DOMAIN, q, h) && a <= m < |h.run| && PoweredOver(h.run, a, m)
    requires forall n :: a <= n <= m ==> h.run[n].r.pd.out.rstN && !h.run[n].r.pd.out.retRestore
    requires forall n :: a <= n < m ==> h.writes[n] == NoWrite
    ensures h.shells[m].rlive == h.shells[a].rlive
  {
    hide Step, Init;
    if a < m {
      StaysLive(q, h, a, m - 1);
      assert LivesAt(q, h, m - 1);
    }
  }

  lemma Written(q: ShellParams, v: nat, s: Slice, sh: Shell, s': Slice, sh': Shell)
    requires ShellStep(q, s, sh, Write(q.nNorm, v), s', sh') && q.hasRet && q.nRet >= 1
    requires s.pins.trkAck && s.pins.mainAck && s'.pins.trkAck && s'.pins.mainAck
    requires s.r.pd.out.rstN && s'.r.pd.out.rstN && s.r.pd.out.clkEn
    requires !s.r.pd.out.retRestore && !s'.r.pd.out.retRestore
    ensures Fits(q, sh') && sh'.rlive[0] == Known(v % q.modulus)
  {
  }

  /** The exception at work: the domain writes v after a restore, goes down for OFF, faults because
      its main switch does not open, is cleared to S_OFF with nothing saved, and still has v when
      it is released again. */
  lemma OffKeepsRegisters(q: ShellParams, v: nat) returns (h: History)
    requires q.Ok() && q.hasRet && q.nRet >= 1
    ensures Lives(DOMAIN, q, h) && |h.run| == 71 && (forall k :: 0 <= k < 70 ==> !h.ins[k].reset)
    ensures h.run[47].r.pd.st.S_ON? && h.run[58].r.pd.st.D_MAIN_OFF? && h.run[59].r.pd.st.S_FAULT?
    ensures h.run[60].r.pd.st.S_OFF? && !h.run[60].r.pd.retValid
    ensures forall n :: 54 <= n < 70 ==> h.run[n].r.pd.out.isoEn
    ensures !h.run[70].r.pd.out.isoEn
    ensures forall n :: 0 <= n <= 70 ==> h.run[n].pins.trkAck && h.run[n].pins.mainAck
    ensures |h.shells[70].rlive| == q.nRet && h.shells[70].rlive[0] == Known(v % q.modulus)
  {
    h := Story(q, v);
    assert forall k :: 0 <= k < 70 ==> !h.ins[k].reset;
    hide Plays, Inputs, IsRun, Inv, LevelsOf, LivesAt, WriteAt;
    forall k | 0 <= k <= 70
      ensures Scene(h.run[k], k)
    {
      Scenes(h, k);
    }
    assert Scene(h.run[47], 47) && Scene(h.run[58], 58) && Scene(h.run[59], 59);
    assert Scene(h.run[60], 60) && Scene(h.run[70], 70);
    Memory(q, v, h);
  }

  lemma Memory(q: ShellParams, v: nat, h: History)
    requires Lives(DOMAIN, q, h) && q.hasRet && q.nRet >= 1 && |h.run| == 71
    requires forall k :: 0 <= k <= 70 ==> Scene(h.run[k], k)
    requires forall k :: 0 <= k < 70 ==> h.writes[k] == WriteAt(q, v, k)
    ensures Fits(q, h.shells[70]) && h.shells[70].rlive[0] == Known(v % q.modulus)
  {
    hide Step, Init, Inv, LevelsOf;
    assert Scene(h.run[38], 38) && Scene(h.run[46], 46) && Scene(h.run[47], 47) && Scene(h.run[70], 70);
    RegsAlways(DOMAIN, q, h, 70);
    RegsAlways(DOMAIN, q, h, 38);
    StaysRestored(q, h, 38, 54);
    assert LivesAt(q, h, 46);
    Written(q, v, h.run[46], h.shells[46], h.run[47], h.shells[47]);
    hide Lives, LivesAt, NextShell, RetentionInv, NormalInv;
    StaysLive(q, h, 47, 54);
    ReleasedRetention(DOMAIN, q, h, 54, 70);
  }
}
