/** A bench for concrete runs: both switches stuck on, a device that answers in one cycle, the
    smallest delays. It drives one domain up, down into a switch timeout, or into a deny. */
module Bench {
  import opened PmuTypes
  import opened QchMaster
  import opened PdCtrl
  import opened DomainSlice
  import opened SliceInvariant
  import opened SliceSafety

  /** All delays 1, TMO_QCH 65536, TMO_PSW 3. */
  const CFG: Cfg := Cfg(0, 0, 0, 0, 0, 0, 0, 3)

  const DOMAIN: Params := Params(true, 2)

  /** Power-on with the device low and both switch acknowledges high. */
  const START: Slice := Slice(ResetRegs(DOMAIN), Pins(false, false, true, true))

  /** One cycle: the device accepts an exit, and accepts or denies a request. */
  function NextBench(s: Slice, i: SliceIn, deny: bool): (s': Slice)
    requires Sized(DOMAIN, s.r)
    ensures Sized(DOMAIN, s'.r)
  {
    var r := NextRegs(DOMAIN, s, i);
    var (qr, qa, qd) := (s.r.qreqn, s.pins.qa, s.pins.qd);
    var asked := !qr && qa && !qd;
    Slice(r, Pins(r.pd.out.rstN && (if asked then deny else qa || (qr && !qd)),
                  r.pd.out.rstN && (if asked then deny else qd && !qr), true, true))
  }

  /** A run from power-on on the bench. */
  ghost predicate Plays(sl: seq<Slice>, ins: seq<SliceIn>, deny: bool) {
    |sl| == |ins| + 1 && sl[0] == START && NoResets(ins) && AllDriven(sl) && AllPlay(sl, ins, deny)
  }

  ghost predicate AllDriven(sl: seq<Slice>) {
    forall k :: 0 <= k < |sl| ==> Sized(DOMAIN, sl[k].r) && Driven(sl[k])
  }

  ghost predicate AllPlay(sl: seq<Slice>, ins: seq<SliceIn>, deny: bool)
    requires |sl| == |ins| + 1 && AllDriven(sl)
  {
    forall k :: 0 <= k < |ins| ==> PlaysAt(sl, ins, deny, k)
  }

  ghost predicate Driven(s: Slice) {
    Inv(DOMAIN, s) && s.pins.trkAck && s.pins.mainAck
  }

  ghost predicate PlaysAt(sl: seq<Slice>, ins: seq<SliceIn>, deny: bool, k: nat)
    requires k < |ins| && |sl| == |ins| + 1 && Sized(DOMAIN, sl[k].r)
  {
    sl[k + 1] == NextBench(sl[k], ins[k], deny)
  }

  predicate NoResets(ins: seq<SliceIn>) {
    forall k :: 0 <= k < |ins| ==> !ins[k].reset
  }

  /** The bench keeps the rules of switches and devices. */
  lemma BenchSteps(s: Slice, i: SliceIn, deny: bool)
    requires Inv(DOMAIN, s) && s.pins.trkAck && s.pins.mainAck && !i.reset
    ensures Step(DOMAIN, s, i, NextBench(s, i, deny)) && Inv(DOMAIN, NextBench(s, i, deny))
    ensures NextBench(s, i, deny).pins.trkAck && NextBench(s, i, deny).pins.mainAck
  {
    LegalPins(s);
    hide Inv, NextRegs;
    InvStep(DOMAIN, s, i, NextBench(s, i, deny));
  }

  lemma LegalPins(s: Slice)
    requires Inv(DOMAIN, s)
    ensures Sized(DOMAIN, s.r) && (s.pins.qd ==> s.pins.qa)
  {
  }

  lemma {:induction false} Play(ins: seq<SliceIn>, deny: bool) returns (sl: seq<Slice>)
    requires NoResets(ins)
    ensures Plays(sl, ins, deny)
  {
    if ins == [] {
      InvInit(DOMAIN, START);
      sl := [START];
    } else {
      hide Plays, NextBench;
      var n := |ins| - 1;
      assert ins == ins[..n] + [ins[n]];
      var init := Play(ins[..n], deny);
      sl := PlayOn(init, ins[..n], ins[n], deny);
    }
  }

  lemma PlayOn(init: seq<Slice>, ins: seq<SliceIn>, i: SliceIn, deny: bool) returns (sl: seq<Slice>)
    requires Plays(init, ins, deny) && !i.reset
    ensures Plays(sl, ins + [i], deny)
  {
    assert Driven(init[|ins|]);
    var last := DriveOn(init[|ins|], i, deny);
    sl := init + [last];
    DrivenOn(init, last);
    hide AllDriven, NextBench, Driven;
    AllPlayOn(init, ins, i, deny, last);
  }

  lemma DrivenOn(init: seq<Slice>, last: Slice)
    requires AllDriven(init) && Driven(last) && Sized(DOMAIN, last.r)
    ensures AllDriven(init + [last])
  {
    hide Driven, Sized;
  }

  lemma AllPlayOn(init: seq<Slice>, ins: seq<SliceIn>, i: SliceIn, deny: bool, last: Slice)
    requires |init| == |ins| + 1 && AllDriven(init) && AllPlay(init, ins, deny)
    requires AllDriven(init + [last]) && Sized(DOMAIN, init[|ins|].r) && last == NextBench(init[|ins|], i, deny)
    ensures AllPlay(init + [last], ins + [i], deny)
  {
    hide Driven, NextBench;
    var (sl, all) := (init + [last], ins + [i]);
    forall k | 0 <= k < |all|
      ensures PlaysAt(sl, all, deny, k)
    {
      assert k < |ins| ==> PlaysAt(init, ins, deny, k);
    }
  }

  lemma DriveOn(s: Slice, i: SliceIn, deny: bool) returns (s': Slice)
    requires Driven(s) && Sized(DOMAIN, s.r) && !i.reset
    ensures s' == NextBench(s, i, deny) && Driven(s') && Sized(DOMAIN, s'.r)
  {
    hide Inv, NextBench;
    BenchSteps(s, i, deny);
    s' := NextBench(s, i, deny);
  }

  lemma PlaysIsRun(sl: seq<Slice>, ins: seq<SliceIn>, deny: bool)
    requires Plays(sl, ins, deny)
    ensures IsRun(DOMAIN, sl, ins)
  {
    hide Inv, NextBench, Step;
    forall k | 0 <= k < |ins|
      ensures StepAt(DOMAIN, sl, ins, k)
    {
      assert PlaysAt(sl, ins, deny, k) && Driven(sl[k]);
      BenchSteps(sl[k], ins[k], deny);
    }
  }

  /** Q-Channel registers, device pins and synchronisers of the responses. */
  ghost predicate Channel(s: Slice, qr: bool, qa: bool, acc0: bool, acc1: bool, qd: bool, deny0: bool, deny1: bool) {
    && s.r.qreqn == qr && s.pins.qa == qa && s.r.acc == [acc0, acc1]
    && s.pins.qd == qd && s.r.deny == [deny0, deny1]
  }

  /** Acknowledges high, on the pins and in the stages they have reached. */
  ghost predicate SwitchesOn(s: Slice, stages: nat) {
    && s.pins.trkAck && s.pins.mainAck && |s.r.trk| == |s.r.main| == 2
    && forall j :: 0 <= j < 2 && j < stages ==> s.r.trk[j] && s.r.main[j]
  }

  function UpState(o: nat): St {
    if o == 0 then S_OFF else if o == 1 then U_ARB else if o <= 4 then U_TRK_ON else if o <= 7 then U_MAIN_ON
    else if o == 8 then U_RST else if o == 9 then U_CLK else if o == 10 then U_ISO
    else if o <= 15 then U_QEXIT else S_ON
  }

  /** The sequencer o cycles into a power-up. */
  ghost predicate UpPd(pd: Pd, o: nat) {
    && pd.st == UpState(o) && pd.armed && !pd.evDeny && !pd.evFault
    && (2 <= o <= 7 ==> pd.cnt == (o - 2) % 3 && pd.hcnt == 0)
    && (11 <= o <= 15 ==> pd.cnt == o - 11)
  }

  /** o cycles into a power-up, from S_OFF to S_ON in 16 cycles. */
  ghost predicate UpAt(s: Slice, o: nat) {
    UpPd(s.r.pd, o) && SwitchesOn(s, o) && Channel(s, o >= 12, o >= 13, o >= 14, o >= 15, false, false, false)
  }

  /** Inputs under which a power-up goes on. */
  predicate UpInput(i: SliceIn, o: nat) {
    !i.reset && i.cfg == CFG && (o == 0 ==> i.tgt.T_ON?) && (o == 1 ==> i.gnt)
  }

  lemma UpSwitching(pd: Pd, i: PdIn, o: nat)
    requires UpPd(pd, o) && o < 8 && i.cfg == CFG && (o == 0 ==> i.tgt.T_ON?) && (o == 1 ==> i.gnt)
    requires (o >= 2 ==> i.trickleAck && i.mainAck) && (o == 7 ==> !pd.retValid)
    ensures UpPd(Next(DOMAIN, pd, i), o + 1) && Next(DOMAIN, pd, i).retValid == pd.retValid
  {
  }

  lemma UpHolding(pd: Pd, i: PdIn, o: nat)
    requires CtlInv(DOMAIN, pd) && UpPd(pd, o) && 8 <= o < 11 && i.cfg == CFG
    ensures UpPd(Next(DOMAIN, pd, i), o + 1) && Next(DOMAIN, pd, i).retValid == pd.retValid
  {
  }

  lemma UpExiting(pd: Pd, i: PdIn, o: nat)
    requires UpPd(pd, o) && 11 <= o < 16 && i.cfg == CFG && i.qRun == (o == 15)
    ensures UpPd(Next(DOMAIN, pd, i), o + 1) && Next(DOMAIN, pd, i).retValid == pd.retValid
  {
  }

  /** What the sequencer sees of a channel and of closed switches. */
  lemma Sees(s: Slice, i: SliceIn, qr: bool, qa: bool, a0: bool, a1: bool, qd: bool, d0: bool, d1: bool, n: nat)
    requires SwitchesOn(s, n) && Channel(s, qr, qa, a0, a1, qd, d0, d1)
    ensures Sized(DOMAIN, s.r)
    ensures var pi := PdInputs(DOMAIN, s.r, i);
            && pi.qRun == (qr && a1 && !d1) && pi.qStopped == (!qr && !a1 && !d1) && pi.qDeny == d1
            && (n >= 2 ==> pi.trickleAck && pi.mainAck)
            && pi.tgt == i.tgt && pi.arm == i.arm && pi.faultClr == i.faultClr && pi.cfg == i.cfg && pi.gnt == i.gnt
  {
  }

  /** How the channel and the stages of the switches move. */
  lemma Lines(
    s: Slice, i: SliceIn, deny: bool, qr: bool, qa: bool, a0: bool, a1: bool, qd: bool, d0: bool, d1: bool, n: nat)
    requires SwitchesOn(s, n) && Channel(s, qr, qa, a0, a1, qd, d0, d1) && (s.r.pd.out.isoEn ==> !qa && !qd)
    ensures Sized(DOMAIN, s.r)
    ensures var (s', o, asked) := (NextBench(s, i, deny), s.r.pd.out, !qr && qa && !qd);
            && SwitchesOn(s', n + 1)
            && Channel(s', NextReq(qr, o.stopReq, o.exitReq, a1, d1),
                       s'.r.pd.out.rstN && (if asked then deny else qa || (qr && !qd)), qa, a0,
                       s'.r.pd.out.rstN && (if asked then deny else qd && !qr), qd, d0)
  {
    hide Next;
  }

  lemma UpStep(s: Slice, i: SliceIn, deny: bool, o: nat)
    requires Inv(DOMAIN, s) && UpAt(s, o) && o < 16 && UpInput(i, o) && (o == 7 ==> !s.r.pd.retValid)
    ensures UpAt(NextBench(s, i, deny), o + 1)
    ensures NextBench(s, i, deny).r.pd.retValid == s.r.pd.retValid
  {
    var pi := PdInputs(DOMAIN, s.r, i);
    var s' := NextBench(s, i, deny);
    Sees(s, i, o >= 12, o >= 13, o >= 14, o >= 15, false, false, false, o);
    assert s'.r.pd == Next(DOMAIN, s.r.pd, pi);
    CtlInvStep(DOMAIN, s.r.pd, pi);
    UpOuts(s.r.pd, o);
    hide Next, NextBench, PdInputs, CtlInv, Channel, SwitchesOn;
    if o < 8 {
      UpSwitching(s.r.pd, pi, o);
    } else if o < 11 {
      UpHolding(s.r.pd, pi, o);
    } else {
      UpExiting(s.r.pd, pi, o);
    }
    UpOuts(s'.r.pd, o + 1);
    hide UpPd;
    Lines(s, i, deny, o >= 12, o >= 13, o >= 14, o >= 15, false, false, false, o);
  }

  lemma UpOuts(pd: Pd, o: nat)
    requires CtlInv(DOMAIN, pd) && UpPd(pd, o) && o <= 16
    ensures !pd.out.stopReq && pd.out.exitReq == (11 <= o <= 15) && pd.out.isoEn == (o < 10) && pd.out.rstN == (o >= 8)
  {
    assert pd.out == Table(pd.st);
    hide CounterInv, TargetInv, RetInv;
  }

  /** Without the grant a domain waits in U_ARB. */
  lemma GrantWaitStep(s: Slice, i: SliceIn, deny: bool)
    requires Inv(DOMAIN, s) && UpAt(s, 1) && !i.reset && !i.gnt
    ensures UpAt(NextBench(s, i, deny), 1) && NextBench(s, i, deny).r.pd.retValid == s.r.pd.retValid
  {
    var s' := NextBench(s, i, deny);
    var pi := PdInputs(DOMAIN, s.r, i);
    assert s.r.pd.out == Table(s.r.pd.st);
    Lines(s, i, deny, false, false, false, false, false, false, false, 1);
    CtlInvStep(DOMAIN, s.r.pd, pi);
    GrantWaitPd(s.r.pd, pi);
    hide Next, CounterInv, TargetInv, RetInv;
    assert s'.r.pd.out == Table(s'.r.pd.st);
  }

  lemma GrantWaitPd(pd: Pd, i: PdIn)
    requires UpPd(pd, 1) && !i.gnt
    ensures UpPd(Next(DOMAIN, pd, i), 1) && Next(DOMAIN, pd, i).retValid == pd.retValid
  {
  }

  /** In ON, with its target met, a domain stays. */
  lemma OnStep(s: Slice, i: SliceIn, deny: bool)
    requires Inv(DOMAIN, s) && UpAt(s, 16) && !i.reset && i.tgt.T_ON?
    ensures UpAt(NextBench(s, i, deny), 16) && NextBench(s, i, deny).r.pd.retValid == s.r.pd.retValid
  {
    var s' := NextBench(s, i, deny);
    var pi := PdInputs(DOMAIN, s.r, i);
    assert s.r.pd.out == Table(s.r.pd.st);
    Lines(s, i, deny, true, true, true, true, false, false, false, 16);
    CtlInvStep(DOMAIN, s.r.pd, pi);
    OnPd(s.r.pd, pi);
    hide Next, CounterInv, TargetInv, RetInv;
    assert s'.r.pd.out == Table(s'.r.pd.st);
  }

  lemma OnPd(pd: Pd, i: PdIn)
    requires UpPd(pd, 16) && i.tgt.T_ON?
    ensures UpPd(Next(DOMAIN, pd, i), 16) && Next(DOMAIN, pd, i).retValid == pd.retValid
  {
  }

  /** The sequencer o cycles after a request in ON that the device denies; a pulse may come in any
      of these cycles. */
  ghost predicate DenyPd(pd: Pd, o: nat) {
    && pd.st == (if o == 0 || o == 10 then S_ON else if o <= 5 then D_QWAIT else D_DENY)
    && pd.armed == (o < 10) && pd.evDeny == (o == 10) && !pd.evFault
    && (1 <= o <= 5 ==> pd.cnt == o - 1) && (6 <= o <= 9 ==> pd.cnt == o - 6)
  }

  ghost predicate DenyAt(s: Slice, o: nat) {
    && DenyPd(s.r.pd, o) && SwitchesOn(s, 2)
    && Channel(s, o < 2 || o >= 6, true, true, true, 3 <= o <= 6, 4 <= o <= 7, 5 <= o <= 8)
  }

  lemma DenyPdStep(pd: Pd, i: PdIn, o: nat)
    requires DenyPd(pd, o) && o < 10 && i.cfg == CFG && (o == 0 ==> i.tgt.T_OFF?)
    requires (1 <= o <= 5 ==> !i.qStopped && i.qDeny == (o == 5)) && (6 <= o ==> i.qRun == (o == 9))
    ensures DenyPd(Next(DOMAIN, pd, i), o + 1)
  {
  }

  lemma DenyOuts(pd: Pd, o: nat)
    requires CtlInv(DOMAIN, pd) && DenyPd(pd, o) && o <= 10
    ensures pd.out.stopReq == (1 <= o <= 5) && !pd.out.exitReq && !pd.out.isoEn && pd.out.rstN
  {
    assert pd.out == Table(pd.st);
    hide CounterInv, TargetInv, RetInv;
  }

  lemma DenyStep(s: Slice, i: SliceIn, o: nat)
    requires Inv(DOMAIN, s) && DenyAt(s, o) && o < 10
    requires !i.reset && i.cfg == CFG && (o == 0 ==> i.tgt.T_OFF?)
    ensures DenyAt(NextBench(s, i, true), o + 1)
  {
    var s' := NextBench(s, i, true);
    var pi := PdInputs(DOMAIN, s.r, i);
    Sees(s, i, o < 2 || o >= 6, true, true, true, 3 <= o <= 6, 4 <= o <= 7, 5 <= o <= 8, 2);
    assert s'.r.pd == Next(DOMAIN, s.r.pd, pi);
    CtlInvStep(DOMAIN, s.r.pd, pi);
    DenyOuts(s.r.pd, o);
    hide Next, NextBench, PdInputs, CtlInv, Channel, SwitchesOn;
    DenyPdStep(s.r.pd, pi, o);
    DenyOuts(s'.r.pd, o + 1);
    hide DenyPd;
    Lines(s, i, true, o < 2 || o >= 6, true, true, true, 3 <= o <= 6, 4 <= o <= 7, 5 <= o <= 8, 2);
  }

  function DownState(o: nat): St {
    if o == 0 then S_ON else if o <= 5 then D_QWAIT else if o == 6 then D_CLK else if o == 7 then D_ISO
    else if o == 8 then D_RST else if o <= 11 then D_MAIN_OFF else S_FAULT
  }

  /** The sequencer o cycles into a power-down towards t whose main switch stays on; a save is not
      counted. */
  ghost predicate DownPd(pd: Pd, t: Target, o: nat) {
    && pd.st == DownState(o) && pd.armed && (1 <= o ==> pd.seqTgt == t)
    && (1 <= o <= 5 ==> pd.cnt == o - 1) && (9 <= o <= 11 ==> pd.cnt == o - 9)
    && (o == 12 ==> !pd.fault.faultQ) && (o >= 8 ==> pd.retValid == t.T_RET?)
  }

  ghost predicate DownAt(s: Slice, t: Target, o: nat) {
    && DownPd(s.r.pd, t, o) && SwitchesOn(s, 2)
    && Channel(s, o < 2, o < 3, o < 4, o < 5, false, false, false)
  }

  lemma DownPdStep(pd: Pd, i: PdIn, t: Target, o: nat)
    requires CtlInv(DOMAIN, pd) && DownPd(pd, t, o) && o < 12 && i.cfg == CFG && (t.T_OFF? || t.T_RET?)
    requires (o == 0 ==> i.tgt == t) && (o == 7 ==> t.T_OFF?) && (o >= 9 ==> i.mainAck)
    requires 1 <= o <= 5 ==> i.qStopped == (o == 5) && !i.qDeny
    ensures DownPd(Next(DOMAIN, pd, i), t, o + 1)
  {
    if o == 0 {
    } else if o < 6 {
    } else if o < 9 {
    } else {
    }
  }

  lemma DownOuts(pd: Pd, t: Target, o: nat)
    requires CtlInv(DOMAIN, pd) && DownPd(pd, t, o) && o <= 12
    ensures pd.out.stopReq == (1 <= o <= 5) && !pd.out.exitReq
    ensures pd.out.isoEn == (o >= 7) && pd.out.rstN == (o < 8)
  {
    assert pd.out == Table(Holding(pd));
    hide CounterInv, TargetInv, RetInv;
  }

  lemma DownStep(s: Slice, i: SliceIn, t: Target, o: nat)
    requires Inv(DOMAIN, s) && DownAt(s, t, o) && o < 12 && (t.T_OFF? || t.T_RET?)
    requires !i.reset && i.cfg == CFG && (o == 0 ==> i.tgt == t) && (o == 7 ==> t.T_OFF?)
    ensures DownAt(NextBench(s, i, false), t, o + 1)
  {
    var s' := NextBench(s, i, false);
    var pi := PdInputs(DOMAIN, s.r, i);
    Sees(s, i, o < 2, o < 3, o < 4, o < 5, false, false, false, 2);
    assert s'.r.pd == Next(DOMAIN, s.r.pd, pi);
    CtlInvStep(DOMAIN, s.r.pd, pi);
    DownOuts(s.r.pd, t, o);
    hide Next, NextBench, PdInputs, CtlInv, Channel, SwitchesOn;
    DownPdStep(s.r.pd, pi, t, o);
    DownOuts(s'.r.pd, t, o + 1);
    hide DownPd;
    Lines(s, i, false, o < 2, o < 3, o < 4, o < 5, false, false, false, 2);
  }

  lemma ShortSteps(pd: Pd, i: PdIn)
    requires CtlInv(DOMAIN, pd) && pd.armed && i.cfg == CFG
    ensures var pd' := Next(DOMAIN, pd, i);
            && (pd.st.D_ISO? && pd.seqTgt.T_RET? ==> pd'.st.D_SAVE? && pd'.armed && pd'.seqTgt.T_RET?)
            && (pd.st.D_SAVE? && pd.seqTgt.T_RET? ==> DownPd(pd', T_RET, 8))
            && (pd.st.S_FAULT? && !pd.fault.faultQ && i.faultClr ==> UpPd(pd', 0) && pd'.retValid == pd.retValid)
            && (UpPd(pd, 7) && i.trickleAck && i.mainAck && pd.retValid ==> pd'.st.U_RESTORE? && pd'.armed)
            && (pd.st.U_RESTORE? ==> UpPd(pd', 8) && !pd'.retValid)
  {
  }

  /** With the channel stopped and no exit asked for, it stays stopped. */
  lemma StoppedEdge(s: Slice, i: SliceIn, deny: bool, n: nat)
    requires Inv(DOMAIN, s) && !i.reset && SwitchesOn(s, n) && !s.r.pd.out.exitReq
    requires Channel(s, false, false, false, false, false, false, false)
    ensures Sized(DOMAIN, s.r)
    ensures var (s', pi) := (NextBench(s, i, deny), PdInputs(DOMAIN, s.r, i));
            && Channel(s', false, false, false, false, false, false, false) && SwitchesOn(s', n + 1)
            && s'.r.pd == Next(DOMAIN, s.r.pd, pi)
            && (n >= 2 ==> pi.trickleAck && pi.mainAck)
            && pi.tgt == i.tgt && pi.faultClr == i.faultClr && pi.cfg == i.cfg && pi.gnt == i.gnt
  {
    hide Next;
    Sees(s, i, false, false, false, false, false, false, false, n);
    Lines(s, i, deny, false, false, false, false, false, false, false, n);
  }
}
