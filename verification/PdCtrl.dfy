/** The power sequencer of one switchable domain: its registers, one clock of its behaviour
    as a function, and the clocked block itself. */
module PdCtrl {
  import opened PmuTypes

  /** The registered outputs: to the domain (clock, isolation, retention, reset, switches),
      to the Q-Channel controller and to the inrush arbiter. */
  datatype Outs = Outs(
    clkEn: bool, isoEn: bool, retSave: bool, retRestore: bool, rstN: bool,
    trkEn: bool, mainEn: bool, stopReq: bool, exitReq: bool, inrushReq: bool)

  /** What a timeout records: which kind it was, where to resume, FAULT_INFO.STEP. */
  datatype FaultRec = FaultRec(faultQ: bool, resumeSt: St, step: FaultStep)

  /** The registers of the sequencer. */
  datatype Pd = Pd(
    st: St, seqTgt: Target, cnt: nat, hcnt: nat, armed: bool, retValid: bool,
    lastStable: St, out: Outs, fault: FaultRec, evDeny: bool, evFault: bool)

  /** The inputs sampled at one clock edge. */
  datatype PdIn = PdIn(
    tgt: Target, arm: bool, faultClr: bool, cfg: Cfg,
    trickleAck: bool, mainAck: bool, qRun: bool, qStopped: bool, qDeny: bool, gnt: bool)

  /** PMU reset: every domain OFF; armed, because MODE_REQ resets to RUN. */
  const RESET_PD: Pd := Pd(
    S_OFF, T_OFF, 0, 0, true, false, S_OFF, OFF_OUTS, FaultRec(false, S_OFF, NoStep), false, false)

  /** Isolated, clock stopped, in reset, switches off, nothing requested. */
  const OFF_OUTS: Outs := Outs(false, true, false, false, false, false, false, false, false, false)

  /** An ack is trusted only once the step is as old as the synchroniser is deep. */
  predicate Trusted(p: Params, s: Pd) {
    s.cnt >= p.stages % CNT_WRAP
  }

  function CurDly(st: St, cfg: Cfg): nat {
    match st
    case D_CLK | C_CLK | U_CLK => Dly(cfg.dlyClk)
    case D_ISO => Dly(cfg.dlyIso)
    case D_SAVE | U_RESTORE => Dly(cfg.dlyRet)
    case D_RST | U_RST => Dly(cfg.dlyRst)
    case _ => 1
  }

  function Cnt1(s: Pd): nat {
    (s.cnt + 1) % CNT_WRAP
  }

  predicate HoldDone(s: Pd, cfg: Cfg) {
    Cnt1(s) >= CurDly(s.st, cfg)
  }

  /** In a Q-Channel wait, still waiting. */
  predicate WaitQ(s: Pd, i: PdIn) {
    match s.st
    case D_QWAIT => !(i.qStopped || i.qDeny)
    case D_DENY | U_QEXIT => !i.qRun
    case _ => false
  }

  /** In a power-switch wait, still waiting. */
  predicate WaitPsw(p: Params, s: Pd, i: PdIn) {
    match s.st
    case D_MAIN_OFF => !(Trusted(p, s) && !i.mainAck)
    case D_TRK_OFF => !(Trusted(p, s) && !i.trickleAck)
    case U_TRK_ON => !(Trusted(p, s) && i.trickleAck)
    case U_MAIN_ON => !(Trusted(p, s) && i.mainAck)
    case _ => false
  }

  function WaitStep(st: St): FaultStep {
    match st
    case D_QWAIT => QAcceptDown
    case D_DENY => QDenyRelease
    case U_QEXIT => QAcceptUp
    case D_MAIN_OFF => PswMainOff
    case D_TRK_OFF => PswTrickleOff
    case U_TRK_ON => PswTrickleOn
    case U_MAIN_ON => PswMainOn
    case _ => NoStep
  }

  predicate TimeoutQ(s: Pd, i: PdIn) {
    WaitQ(s, i) && Cnt1(s) >= Tmo(i.cfg.tmoQch)
  }

  predicate TimeoutPsw(p: Params, s: Pd, i: PdIn) {
    WaitPsw(p, s, i) && Cnt1(s) >= Tmo(i.cfg.tmoPsw)
  }

  /** What every edge does before the state has its say: clear the event pulses, count, arm. */
  function Base(s: Pd, i: PdIn): Pd {
    s.(evDeny := false, evFault := false, cnt := Cnt1(s), armed := s.armed || i.arm)
  }

  /** One clock edge without PMU reset. */
  function Next(p: Params, s: Pd, i: PdIn): Pd {
    var b := Base(s, i);
    if TimeoutPsw(p, s, i) then SafeOff(s, b)
    else if TimeoutQ(s, i) then Hold(s, b)
    else if s.st.S_FAULT? then
      if !i.faultClr then b
      else if s.fault.faultQ then b.(cnt := 0, st := s.fault.resumeSt)
      else b.(cnt := 0, st := S_OFF)
    else if Stable(s.st) then
      NextStable(s, b, Effective(p.hasRet, i.tgt))
    else if s.st.D_QWAIT? || s.st.D_DENY? || s.st.U_QEXIT? then
      NextHandshake(s, b, i)
    else if s.st.U_ARB? || s.st.U_TRK_ON? || s.st.U_MAIN_ON? || s.st.D_MAIN_OFF? || s.st.D_TRK_OFF? then
      NextSwitch(p, s, b, i)
    else
      NextHold(p, s, b, i.cfg)
  }

  /** A power-switch timeout: the safe off configuration. */
  function SafeOff(s: Pd, b: Pd): Pd {
    b.(out := b.out.(trkEn := false, mainEn := false, isoEn := true, clkEn := false,
                     rstN := false, retSave := false, retRestore := false, inrushReq := false),
       fault := b.fault.(faultQ := false, step := WaitStep(s.st)), evFault := true, st := S_FAULT)
  }

  /** A Q-Channel timeout: the outputs are held, the wait can be resumed. */
  function Hold(s: Pd, b: Pd): Pd {
    b.(fault := FaultRec(true, s.st, WaitStep(s.st)), evFault := true, st := S_FAULT)
  }

  /** Leaving a stable state; t is the effective target. */
  function NextStable(s: Pd, b: Pd, t: Target): Pd
    requires Stable(s.st)
  {
    match s.st
    case S_ON =>
      if s.armed && !t.T_ON? then
        b.(out := b.out.(stopReq := true), lastStable := S_ON, seqTgt := t, cnt := 0, st := D_QWAIT)
      else b.(lastStable := S_ON)
    case S_CG =>
      if s.armed && t.T_ON? then
        b.(out := b.out.(clkEn := true), lastStable := S_CG, cnt := 0, st := C_CLK)
      else if s.armed && (t.T_RET? || t.T_OFF?) then
        b.(out := b.out.(isoEn := true), lastStable := S_CG, seqTgt := t, cnt := 0, st := D_ISO)
      else b.(lastStable := S_CG)
    case S_RET =>
      if s.armed && (t.T_ON? || t.T_CG?) then
        b.(out := b.out.(inrushReq := true), lastStable := S_RET, st := U_ARB)
      else if s.armed && t.T_OFF? then
        b.(lastStable := S_RET, retValid := false, st := S_OFF)
      else b.(lastStable := S_RET)
    case S_OFF =>
      if s.armed && (t.T_ON? || t.T_CG?) then
        b.(out := b.out.(inrushReq := true), lastStable := S_OFF, st := U_ARB)
      else b.(lastStable := S_OFF)
  }

  /** The three Q-Channel waits. */
  function NextHandshake(s: Pd, b: Pd, i: PdIn): Pd
    requires s.st.D_QWAIT? || s.st.D_DENY? || s.st.U_QEXIT?
  {
    match s.st
    case D_QWAIT =>
      if i.qStopped then b.(out := b.out.(stopReq := false, clkEn := false), cnt := 0, st := D_CLK)
      else if i.qDeny then b.(out := b.out.(stopReq := false), cnt := 0, st := D_DENY)
      else b
    case D_DENY =>
      if i.qRun then b.(armed := false, evDeny := true, st := S_ON) else b
    case U_QEXIT =>
      if i.qRun then b.(out := b.out.(exitReq := false), st := S_ON) else b
  }

  /** Arbitration and the four power-switch steps. */
  function NextSwitch(p: Params, s: Pd, b: Pd, i: PdIn): Pd
    requires s.st.U_ARB? || s.st.U_TRK_ON? || s.st.U_MAIN_ON? || s.st.D_MAIN_OFF? || s.st.D_TRK_OFF?
  {
    match s.st
    case U_ARB =>
      if i.gnt then b.(out := b.out.(trkEn := true), cnt := 0, hcnt := 0, st := U_TRK_ON) else b
    case U_TRK_ON =>
      if Trusted(p, s) && i.trickleAck then
        if s.hcnt + 1 >= Dly(i.cfg.dlyTrickle) then
          b.(out := b.out.(mainEn := true), cnt := 0, hcnt := 0, st := U_MAIN_ON)
        else b.(hcnt := (s.hcnt + 1) % HCNT_WRAP)
      else b.(hcnt := 0)
    case U_MAIN_ON =>
      if Trusted(p, s) && i.mainAck then
        var c := b.(hcnt := (s.hcnt + 1) % HCNT_WRAP);
        if s.hcnt + 1 >= Dly(i.cfg.dlyMain) then
          if p.hasRet && s.retValid then
            c.(out := c.out.(inrushReq := false, retRestore := true), cnt := 0, st := U_RESTORE)
          else
            c.(out := c.out.(inrushReq := false, rstN := true), cnt := 0, st := U_RST)
        else c
      else b.(hcnt := 0)
    case D_MAIN_OFF =>
      if Trusted(p, s) && !i.mainAck then b.(out := b.out.(trkEn := false), cnt := 0, st := D_TRK_OFF) else b
    case D_TRK_OFF =>
      if Trusted(p, s) && !i.trickleAck then
        if s.seqTgt.T_RET? && p.hasRet then b.(st := S_RET)
        else b.(retValid := false, st := S_OFF)
      else b
  }

  /** The steps that only hold for a programmed delay, and the one-cycle U_ISO. */
  function NextHold(p: Params, s: Pd, b: Pd, cfg: Cfg): Pd {
    if s.st.U_ISO? then b.(out := b.out.(exitReq := true), cnt := 0, st := U_QEXIT)
    else if !HoldDone(s, cfg) then b
    else
      match s.st
      case D_CLK =>
        if s.seqTgt.T_CG? then b.(cnt := 0, st := S_CG)
        else b.(out := b.out.(isoEn := true), cnt := 0, st := D_ISO)
      case D_ISO =>
        if p.hasRet && s.seqTgt.T_RET? then b.(out := b.out.(retSave := true), cnt := 0, st := D_SAVE)
        else b.(out := b.out.(rstN := false), cnt := 0, st := D_RST)
      case D_SAVE => b.(out := b.out.(retSave := false, rstN := false), retValid := true, cnt := 0, st := D_RST)
      case D_RST => b.(out := b.out.(mainEn := false), cnt := 0, st := D_MAIN_OFF)
      case U_RESTORE =>
        b.(out := b.out.(retRestore := false, rstN := true), retValid := false, cnt := 0, st := U_RST)
      case U_RST => b.(out := b.out.(clkEn := true), cnt := 0, st := U_CLK)
      case U_CLK => b.(out := b.out.(isoEn := false), st := U_ISO)
      case C_CLK => b.(out := b.out.(exitReq := true), cnt := 0, st := U_QEXIT)
      case _ => b
  }

  /** The target is satisfied: exactly, except that OFF also satisfies RET. */
  predicate AtTarget(p: Params, s: Pd, tgt: Target) {
    Satisfies(s.st, Effective(p.hasRet, tgt))
  }

  /** The clocked block over its register bank r. n collects what the edge assigns: every
      condition reads r, the registers as they were before the edge, and of two assignments to
      one register the later wins. */
  class Sequencer {
    const p: Params
    var r: Pd

    constructor (p: Params)
      ensures this.p == p && r == RESET_PD
      ensures r == Pd(S_OFF, T_OFF, 0, 0, true, false, S_OFF,
                      Outs(false, true, false, false, false, false, false, false, false, false),
                      FaultRec(false, S_OFF, NoStep), false, false)
    {
      this.p := p;
      r := RESET_PD;
    }

    method Reset()
      modifies this
      ensures r == RESET_PD
      ensures r == Pd(S_OFF, T_OFF, 0, 0, true, false, S_OFF,
                      Outs(false, true, false, false, false, false, false, false, false, false),
                      FaultRec(false, S_OFF, NoStep), false, false)
    {
      r := RESET_PD;
    }

    method Tick(i: PdIn)
      modifies this
      ensures r == Next(p, old(r), i)
    {
      hide SafeOff, NextStable, NextHandshake, NextSwitch, NextHold, WaitQ, WaitPsw;
      var cnt1 := (r.cnt + 1) % CNT_WRAP;
      var waitQ, waitPsw := Waits(i);
      var n := r.(evDeny := false, evFault := false, cnt := cnt1);
      if i.arm { n := n.(armed := true); }

      if waitPsw && cnt1 >= Tmo(i.cfg.tmoPsw) {
        n := SafeOffEdge(n);
      } else if waitQ && cnt1 >= Tmo(i.cfg.tmoQch) {
        n := n.(fault := FaultRec(true, r.st, WaitStep(r.st)), evFault := true, st := S_FAULT);
      } else if r.st.S_FAULT? {
        if i.faultClr {
          n := n.(cnt := 0);
          if r.fault.faultQ { n := n.(st := r.fault.resumeSt); } else { n := n.(st := S_OFF); }
        }
      } else if Stable(r.st) {
        n := StableEdge(n, Effective(p.hasRet, i.tgt));
      } else if r.st.D_QWAIT? || r.st.D_DENY? || r.st.U_QEXIT? {
        n := HandshakeEdge(n, i);
      } else if r.st.U_ARB? || r.st.U_TRK_ON? || r.st.U_MAIN_ON? || r.st.D_MAIN_OFF? || r.st.D_TRK_OFF? {
        n := SwitchEdge(n, i);
      } else {
        n := HoldEdge(n, i.cfg);
      }
      r := n;
    }

    method Waits(i: PdIn) returns (waitQ: bool, waitPsw: bool)
      ensures waitQ == WaitQ(r, i) && waitPsw == WaitPsw(p, r, i)
    {
      var settled := r.cnt >= p.stages % CNT_WRAP;
      waitQ, waitPsw := false, false;
      match r.st
      case D_QWAIT => waitQ := !(i.qStopped || i.qDeny);
      case D_DENY | U_QEXIT => waitQ := !i.qRun;
      case D_MAIN_OFF => waitPsw := !(settled && !i.mainAck);
      case D_TRK_OFF => waitPsw := !(settled && !i.trickleAck);
      case U_TRK_ON => waitPsw := !(settled && i.trickleAck);
      case U_MAIN_ON => waitPsw := !(settled && i.mainAck);
      case _ =>
    }

    method SafeOffEdge(b: Pd) returns (n: Pd)
      ensures n == SafeOff(r, b)
    {
      var o := b.out.(trkEn := false, mainEn := false, isoEn := true, clkEn := false, rstN := false);
      o := o.(retSave := false, retRestore := false, inrushReq := false);
      n := b.(out := o, fault := b.fault.(faultQ := false, step := WaitStep(r.st)));
      n := n.(evFault := true, st := S_FAULT);
    }

    method StableEdge(b: Pd, t: Target) returns (n: Pd)
      requires Stable(r.st)
      ensures n == NextStable(r, b, t)
    {
      n := b;
      match r.st
      case S_ON =>
        n := n.(lastStable := S_ON);
        if r.armed && !t.T_ON? { n := n.(out := n.out.(stopReq := true), seqTgt := t, cnt := 0, st := D_QWAIT); }
      case S_CG =>
        n := n.(lastStable := S_CG);
        if r.armed && t.T_ON? {
          n := n.(out := n.out.(clkEn := true), cnt := 0, st := C_CLK);
        } else if r.armed && (t.T_RET? || t.T_OFF?) {
          n := n.(out := n.out.(isoEn := true), seqTgt := t, cnt := 0, st := D_ISO);
        }
      case S_RET =>
        n := n.(lastStable := S_RET);
        if r.armed && (t.T_ON? || t.T_CG?) {
          n := n.(out := n.out.(inrushReq := true), st := U_ARB);
        } else if r.armed && t.T_OFF? {
          n := n.(retValid := false, st := S_OFF);
        }
      case S_OFF =>
        n := n.(lastStable := S_OFF);
        if r.armed && (t.T_ON? || t.T_CG?) { n := n.(out := n.out.(inrushReq := true), st := U_ARB); }
    }

    method HandshakeEdge(b: Pd, i: PdIn) returns (n: Pd)
      requires r.st.D_QWAIT? || r.st.D_DENY? || r.st.U_QEXIT?
      ensures n == NextHandshake(r, b, i)
    {
      n := b;
      match r.st
      case D_QWAIT =>
        if i.qStopped {
          n := n.(out := n.out.(stopReq := false, clkEn := false), cnt := 0, st := D_CLK);
        } else if i.qDeny {
          n := n.(out := n.out.(stopReq := false), cnt := 0, st := D_DENY);
        }
      case D_DENY =>
        if i.qRun { n := n.(armed := false, evDeny := true, st := S_ON); }
      case U_QEXIT =>
        if i.qRun { n := n.(out := n.out.(exitReq := false), st := S_ON); }
    }

    method SwitchEdge(b: Pd, i: PdIn) returns (n: Pd)
      requires r.st.U_ARB? || r.st.U_TRK_ON? || r.st.U_MAIN_ON? || r.st.D_MAIN_OFF? || r.st.D_TRK_OFF?
      ensures n == NextSwitch(p, r, b, i)
    {
      var settled := r.cnt >= p.stages % CNT_WRAP;
      var trkOn, trkOff := settled && i.trickleAck, settled && !i.trickleAck;
      var mainOn, mainOff := settled && i.mainAck, settled && !i.mainAck;
      n := b;
      match r.st
      case D_MAIN_OFF =>
        if mainOff { n := n.(out := n.out.(trkEn := false), cnt := 0, st := D_TRK_OFF); }
      case D_TRK_OFF =>
        if trkOff {
          if r.seqTgt.T_RET? && p.hasRet {
            n := n.(st := S_RET);
          } else {
            n := n.(retValid := false, st := S_OFF);
          }
        }
      case U_ARB =>
        if i.gnt { n := n.(out := n.out.(trkEn := true), cnt := 0, hcnt := 0, st := U_TRK_ON); }
      case U_TRK_ON =>
        if trkOn {
          n := n.(hcnt := (r.hcnt + 1) % HCNT_WRAP);
          if r.hcnt + 1 >= Dly(i.cfg.dlyTrickle) {
            n := n.(out := n.out.(mainEn := true), cnt := 0, hcnt := 0, st := U_MAIN_ON);
          }
        } else {
          n := n.(hcnt := 0);
        }
      case U_MAIN_ON =>
        if mainOn {
          n := n.(hcnt := (r.hcnt + 1) % HCNT_WRAP);
          if r.hcnt + 1 >= Dly(i.cfg.dlyMain) {
            n := n.(out := n.out.(inrushReq := false), cnt := 0);
            if p.hasRet && r.retValid {
              n := n.(out := n.out.(retRestore := true), st := U_RESTORE);
            } else {
              n := n.(out := n.out.(rstN := true), st := U_RST);
            }
          }
        } else {
          n := n.(hcnt := 0);
        }
    }

    method HoldEdge(b: Pd, cfg: Cfg) returns (n: Pd)
      ensures n == NextHold(p, r, b, cfg)
    {
      var holdDone := (r.cnt + 1) % CNT_WRAP >= CurDly(r.st, cfg);
      n := b;
      match r.st
      case D_CLK =>
        if holdDone {
          n := n.(cnt := 0);
          if r.seqTgt.T_CG? { n := n.(st := S_CG); } else { n := n.(out := n.out.(isoEn := true), st := D_ISO); }
        }
      case D_ISO =>
        if holdDone {
          n := n.(cnt := 0);
          if p.hasRet && r.seqTgt.T_RET? {
            n := n.(out := n.out.(retSave := true), st := D_SAVE);
          } else {
            n := n.(out := n.out.(rstN := false), st := D_RST);
          }
        }
      case D_SAVE =>
        if holdDone {
          n := n.(out := n.out.(retSave := false, rstN := false), retValid := true, cnt := 0, st := D_RST);
        }
      case D_RST =>
        if holdDone { n := n.(out := n.out.(mainEn := false), cnt := 0, st := D_MAIN_OFF); }
      case U_RESTORE =>
        if holdDone {
          n := n.(out := n.out.(retRestore := false, rstN := true), retValid := false, cnt := 0, st := U_RST);
        }
      case U_RST =>
        if holdDone { n := n.(out := n.out.(clkEn := true), cnt := 0, st := U_CLK); }
      case U_CLK =>
        if holdDone { n := n.(out := n.out.(isoEn := false), st := U_ISO); }
      case U_ISO =>
        n := n.(out := n.out.(exitReq := true), cnt := 0, st := U_QEXIT);
      case C_CLK =>
        if holdDone { n := n.(out := n.out.(exitReq := true), cnt := 0, st := U_QEXIT); }
      case _ =>
    }
  }
}
