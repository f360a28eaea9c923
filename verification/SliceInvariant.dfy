/** What every reachable state of a slice satisfies, for any synchroniser depth, any live
    configuration and PMU resets at any point. */
module SliceInvariant {
  import opened PmuTypes
  import opened PdCtrl

  /** The state whose outputs apply: the interrupted wait in a Q-Channel fault, OFF in a
      power-switch fault. */
  function Holding(pd: Pd): St {
    if !pd.st.S_FAULT? then pd.st
    else if pd.fault.faultQ then pd.fault.resumeSt
    else S_OFF
  }

  predicate HoldStep(st: St) {
    || st.D_CLK? || st.D_ISO? || st.D_SAVE? || st.D_RST?
    || st.U_RESTORE? || st.U_RST? || st.U_CLK? || st.C_CLK?
  }

  predicate QWaitStep(st: St) {
    st.D_QWAIT? || st.D_DENY? || st.U_QEXIT?
  }

  predicate SwitchUp(st: St) {
    st.U_TRK_ON? || st.U_MAIN_ON?
  }

  predicate SwitchDown(st: St) {
    st.D_MAIN_OFF? || st.D_TRK_OFF?
  }

  /** Both switches are on and confirmed. */
  predicate Powered(st: St) {
    match st
    case S_ON | S_CG | D_QWAIT | D_DENY | D_CLK | D_ISO | D_SAVE | D_RST => true
    case U_RESTORE | U_RST | U_CLK | U_ISO | U_QEXIT | C_CLK => true
    case _ => false
  }

  predicate Clocked(st: St) {
    match st
    case S_ON | D_QWAIT | D_DENY | U_CLK | U_ISO | U_QEXIT | C_CLK => true
    case _ => false
  }

  predicate Unisolated(st: St) {
    match st
    case S_ON | S_CG | D_QWAIT | D_DENY | D_CLK | U_ISO | U_QEXIT | C_CLK => true
    case _ => false
  }

  predicate OutOfReset(st: St) {
    Powered(st) && !st.D_RST? && !st.U_RESTORE?
  }

  /** The outputs as a function of the state alone. */
  function Table(st: St): Outs {
    Outs(Clocked(st), !Unisolated(st), st.D_SAVE?, st.U_RESTORE?, OutOfReset(st),
         Powered(st) || st.D_MAIN_OFF? || st.U_TRK_ON? || st.U_MAIN_ON?,
         Powered(st) || st.U_MAIN_ON?,
         st.D_QWAIT?, st.U_QEXIT?,
         st.U_ARB? || st.U_TRK_ON? || st.U_MAIN_ON?)
  }

  /** The wait that an expiring timeout interrupts, read off the outputs before it: a Q-Channel wait
      goes on with the domain out of reset, a switch step with the domain in reset. */
  function StepShown(o: Outs): FaultStep {
    if o.rstN then
      if o.stopReq then QAcceptDown else if o.exitReq then QAcceptUp else QDenyRelease
    else if o.inrushReq then
      if o.mainEn then PswMainOn else PswTrickleOn
    else
      if o.trkEn then PswMainOff else PswTrickleOff
  }

  /** A timeout register as it is programmed; 0 stands for 65536. */
  predicate Expired(programmed: u16, age: int) {
    age >= if programmed == 0 then 0x1_0000 else programmed
  }

  predicate CounterInv(pd: Pd) {
    && pd.cnt < CNT_WRAP
    && (HoldStep(pd.st) ==> pd.cnt <= 65534)
    && (QWaitStep(pd.st) || SwitchDown(pd.st) ==> pd.cnt <= 65535)
    && (SwitchUp(pd.st) ==> pd.hcnt <= 65534 && pd.cnt <= 65535 + pd.hcnt)
  }

  predicate TargetInv(p: Params, pd: Pd) {
    var st := Holding(pd);
    && (pd.st.S_FAULT? && pd.fault.faultQ ==> QWaitStep(pd.fault.resumeSt))
    && ((st.D_QWAIT? || st.D_CLK?) ==> !pd.seqTgt.T_ON?)
    && ((st.D_ISO? || st.D_SAVE? || st.D_RST? || st.D_MAIN_OFF? || st.D_TRK_OFF?) ==>
          pd.seqTgt.T_RET? || pd.seqTgt.T_OFF?)
    && (st.D_SAVE? ==> pd.seqTgt.T_RET?)
    && (!p.hasRet ==> !pd.seqTgt.T_RET? && !(st.S_RET? || st.D_SAVE? || st.U_RESTORE?) && !pd.retValid)
    && (!pd.armed ==> pd.st.S_ON?)
  }

  predicate RetInv(pd: Pd) {
    var st := Holding(pd);
    && ((st.S_RET? || st.U_RESTORE?) ==> pd.retValid)
    && ((st.D_RST? || st.D_MAIN_OFF? || st.D_TRK_OFF?) ==> pd.retValid == pd.seqTgt.T_RET?)
    && (Powered(st) && !(st.D_RST? || st.U_RESTORE?) ==> !pd.retValid)
  }

  /** The invariant of the sequencer alone: it holds whatever its inputs do. */
  ghost predicate CtlInv(p: Params, pd: Pd) {
    pd.out == Table(Holding(pd)) && CounterInv(pd) && TargetInv(p, pd) && RetInv(pd)
  }

  lemma SafeOffKeeps(p: Params, pd: Pd, i: PdIn)
    requires CtlInv(p, pd) && TimeoutPsw(p, pd, i)
    ensures CtlInv(p, SafeOff(pd, Base(pd, i)))
  {
  }

  lemma HoldKeeps(p: Params, pd: Pd, i: PdIn)
    requires CtlInv(p, pd) && TimeoutQ(pd, i)
    ensures CtlInv(p, Hold(pd, Base(pd, i)))
  {
  }

  lemma FaultKeeps(p: Params, pd: Pd, i: PdIn)
    requires CtlInv(p, pd) && pd.st.S_FAULT?
    ensures CtlInv(p, Next(p, pd, i))
  {
  }

  lemma StableOnKeeps(p: Params, pd: Pd, i: PdIn)
    requires CtlInv(p, pd) && (pd.st.S_ON? || pd.st.S_CG?)
    ensures CtlInv(p, NextStable(pd, Base(pd, i), Effective(p.hasRet, i.tgt)))
  {
  }

  lemma StableOffKeeps(p: Params, pd: Pd, i: PdIn)
    requires CtlInv(p, pd) && (pd.st.S_RET? || pd.st.S_OFF?)
    ensures CtlInv(p, NextStable(pd, Base(pd, i), Effective(p.hasRet, i.tgt)))
  {
  }

  lemma HandshakeKeeps(p: Params, pd: Pd, i: PdIn)
    requires CtlInv(p, pd) && QWaitStep(pd.st) && !TimeoutQ(pd, i)
    ensures CtlInv(p, NextHandshake(pd, Base(pd, i), i))
  {
  }

  lemma TrickleKeeps(p: Params, pd: Pd, i: PdIn)
    requires CtlInv(p, pd) && (pd.st.U_ARB? || pd.st.U_TRK_ON?) && !TimeoutPsw(p, pd, i)
    ensures CtlInv(p, NextSwitch(p, pd, Base(pd, i), i))
  {
  }

  lemma MainKeeps(p: Params, pd: Pd, i: PdIn)
    requires CtlInv(p, pd) && pd.st.U_MAIN_ON? && !TimeoutPsw(p, pd, i)
    ensures CtlInv(p, NextSwitch(p, pd, Base(pd, i), i))
  {
  }

  lemma SwitchDownKeeps(p: Params, pd: Pd, i: PdIn)
    requires CtlInv(p, pd) && SwitchDown(pd.st) && !TimeoutPsw(p, pd, i)
    ensures CtlInv(p, NextSwitch(p, pd, Base(pd, i), i))
  {
  }

  lemma HoldDownKeeps(p: Params, pd: Pd, i: PdIn)
    requires CtlInv(p, pd)
    requires pd.st.D_CLK? || pd.st.D_ISO? || pd.st.D_SAVE? || pd.st.D_RST?
    ensures CtlInv(p, NextHold(p, pd, Base(pd, i), i.cfg))
  {
  }

  lemma HoldUpKeeps(p: Params, pd: Pd, i: PdIn)
    requires CtlInv(p, pd)
    requires pd.st.U_RESTORE? || pd.st.U_RST? || pd.st.U_CLK? || pd.st.U_ISO? || pd.st.C_CLK?
    ensures CtlInv(p, NextHold(p, pd, Base(pd, i), i.cfg))
  {
  }

  /** The sequencer keeps its invariant under any inputs whatsoever. */
  lemma CtlInvStep(p: Params, pd: Pd, i: PdIn)
    requires CtlInv(p, pd)
    ensures CtlInv(p, Next(p, pd, i))
  {
    if TimeoutPsw(p, pd, i) {
      SafeOffKeeps(p, pd, i);
    } else if TimeoutQ(pd, i) {
      HoldKeeps(p, pd, i);
    } else {
      match pd.st
      case S_FAULT => FaultKeeps(p, pd, i);
      case S_ON | S_CG => StableOnKeeps(p, pd, i);
      case S_RET | S_OFF => StableOffKeeps(p, pd, i);
      case D_QWAIT | D_DENY | U_QEXIT => HandshakeKeeps(p, pd, i);
      case U_ARB | U_TRK_ON => TrickleKeeps(p, pd, i);
      case U_MAIN_ON => MainKeeps(p, pd, i);
      case D_MAIN_OFF | D_TRK_OFF => SwitchDownKeeps(p, pd, i);
      case D_CLK | D_ISO | D_SAVE | D_RST => HoldDownKeeps(p, pd, i);
      case U_RESTORE | U_RST | U_CLK | U_ISO | C_CLK => HoldUpKeeps(p, pd, i);
    }
  }

  /** Steps whose length the counters measure. */
  predicate Timed(st: St) {
    HoldStep(st) || QWaitStep(st) || SwitchUp(st) || SwitchDown(st)
  }

  ghost predicate CountsFromZero(pd: Pd, pd': Pd) {
    Timed(pd'.st) && pd'.st != pd.st ==> pd'.cnt == 0 && (SwitchUp(pd'.st) ==> pd'.hcnt == 0)
  }

  lemma StartsFromRest(p: Params, pd: Pd, i: PdIn)
    requires CtlInv(p, pd) && (Stable(pd.st) || pd.st.S_FAULT? || QWaitStep(pd.st))
    ensures CountsFromZero(pd, Next(p, pd, i))
  {
  }

  lemma StartsFromSwitch(p: Params, pd: Pd, i: PdIn)
    requires CtlInv(p, pd) && (pd.st.U_ARB? || SwitchUp(pd.st) || SwitchDown(pd.st))
    ensures CountsFromZero(pd, Next(p, pd, i))
  {
  }

  lemma StartsFromHold(p: Params, pd: Pd, i: PdIn)
    requires CtlInv(p, pd) && (HoldStep(pd.st) || pd.st.U_ISO?)
    ensures CountsFromZero(pd, Next(p, pd, i))
  {
  }

  /** Every timed step starts counting at zero. */
  lemma StepStarts(p: Params, pd: Pd, i: PdIn)
    requires CtlInv(p, pd)
    ensures CountsFromZero(pd, Next(p, pd, i))
  {
    hide Next;
    if HoldStep(pd.st) || pd.st.U_ISO? {
      StartsFromHold(p, pd, i);
    } else if pd.st.U_ARB? || SwitchUp(pd.st) || SwitchDown(pd.st) {
      StartsFromSwitch(p, pd, i);
    } else {
      StartsFromRest(p, pd, i);
    }
  }
}
