/** The Q-Channel inside a slice. Decisions use responses that are as old as the synchroniser is
    deep; the invariant says what the pins and every stage can hold meanwhile. */
module SliceQChannel {
  import opened PmuTypes
  import opened SyncFf
  import opened PdCtrl
  import opened DomainSlice
  import opened SliceInvariant
  import opened SequencerMoves

  /** Q_STOPPED all the way: QREQn low, both responses low on the pins and in every stage. */
  ghost predicate AllStopped(s: Slice) {
    !s.r.qreqn && Still(false, s.pins.qa, s.r.acc) && Still(false, s.pins.qd, s.r.deny)
  }

  /** QREQn high, QACCEPTn high throughout, and a QDENY that can only be on its way down. */
  ghost predicate RunningOrReleasing(s: Slice) {
    s.r.qreqn && Still(true, s.pins.qa, s.r.acc) && Wave(false, s.pins.qd, s.r.deny)
  }

  /** QREQn low and the device on its way to accept. */
  ghost predicate Accepting(s: Slice) {
    !s.r.qreqn && Wave(false, s.pins.qa, s.r.acc) && Still(false, s.pins.qd, s.r.deny)
  }

  /** QREQn low and the device on its way to deny. */
  ghost predicate Denying(s: Slice) {
    !s.r.qreqn && Still(true, s.pins.qa, s.r.acc) && Wave(true, s.pins.qd, s.r.deny)
  }

  /** QREQn high out of Q_STOPPED, QACCEPTn on its way up. */
  ghost predicate Exiting(s: Slice) {
    s.r.qreqn && Wave(true, s.pins.qa, s.r.acc) && Still(false, s.pins.qd, s.r.deny)
  }

  ghost predicate QInv(s: Slice) {
    match Holding(s.r.pd)
    case S_ON =>
      s.r.qreqn && Still(true, s.pins.qa, s.r.acc) && Still(false, s.pins.qd, s.r.deny)
    case D_QWAIT => RunningOrReleasing(s) || Accepting(s) || Denying(s)
    case D_DENY => RunningOrReleasing(s)
    case U_QEXIT => AllStopped(s) || Exiting(s)
    case _ => AllStopped(s)
  }

  lemma StoppedStep(p: Params, s: Slice, i: SliceIn, s': Slice)
    requires p.Ok() && CtlInv(p, s.r.pd) && AllStopped(s)
    requires Step(p, s, i, s') && !i.reset
    ensures s.r.pd.out.exitReq ==> Exiting(s')
    ensures !s.r.pd.out.exitReq ==> AllStopped(s')
  {
  }

  lemma ExitingStep(p: Params, s: Slice, i: SliceIn, s': Slice)
    requires p.Ok() && CtlInv(p, s.r.pd) && Exiting(s)
    requires s.r.pd.out.isoEn == false && !s.r.pd.out.stopReq && s'.r.pd.out.rstN
    requires Step(p, s, i, s') && !i.reset
    ensures Exiting(s')
    ensures Out(s.r.acc) ==> Still(true, s'.pins.qa, s'.r.acc)
  {
    FrontStep(true, s.pins.qa, s.r.acc, |s.r.acc|, s'.pins.qa);
    if Out(s.r.acc) {
      FrontFills(true, s.pins.qa, s.r.acc, |s.r.acc|);
    }
  }

  lemma AcceptingStep(p: Params, s: Slice, i: SliceIn, s': Slice)
    requires p.Ok() && Accepting(s)
    requires !s.r.pd.out.isoEn && !s.r.pd.out.exitReq && s'.r.pd.out.rstN
    requires Step(p, s, i, s') && !i.reset
    ensures Accepting(s') || (Denying(s') && Out(s.r.acc))
    ensures !Out(s.r.acc) ==> AllStopped(s')
  {
    if !Out(s.r.acc) {
      FrontFills(false, s.pins.qa, s.r.acc, |s.r.acc|);
    } else if !s.pins.qa {
      FrontStep(false, s.pins.qa, s.r.acc, |s.r.acc|, s'.pins.qa);
    }
  }

  lemma DenyingStep(p: Params, s: Slice, i: SliceIn, s': Slice)
    requires p.Ok() && Denying(s)
    requires !s.r.pd.out.isoEn && !s.r.pd.out.exitReq && s'.r.pd.out.rstN
    requires Step(p, s, i, s') && !i.reset
    ensures Denying(s') || (RunningOrReleasing(s') && Out(s.r.deny)) || (Accepting(s') && !Out(s.r.deny))
    ensures Out(s.r.deny) ==> RunningOrReleasing(s')
  {
    if Out(s.r.deny) {
      FrontFills(true, s.pins.qd, s.r.deny, |s.r.deny|);
    } else if s.pins.qd {
      FrontStep(true, s.pins.qd, s.r.deny, |s.r.deny|, s'.pins.qd);
    }
  }

  lemma RunningStep(p: Params, s: Slice, i: SliceIn, s': Slice)
    requires p.Ok() && RunningOrReleasing(s)
    requires !s.r.pd.out.isoEn && s'.r.pd.out.rstN
    requires Step(p, s, i, s') && !i.reset
    ensures !s.r.pd.out.stopReq ==> RunningOrReleasing(s')
    ensures RunningOrReleasing(s') || Accepting(s')
    ensures Out(s.r.deny) ==> RunningOrReleasing(s')
    ensures !Out(s.r.deny) ==> Still(true, s'.pins.qa, s'.r.acc) && Still(false, s'.pins.qd, s'.r.deny)
  {
    FrontStep(false, s.pins.qd, s.r.deny, |s.r.deny|, s'.pins.qd);
    if !Out(s.r.deny) {
      FrontFills(false, s.pins.qd, s.r.deny, |s.r.deny|);
    }
  }

  /** In a handshake the sequencer keeps the device out of reset, and leaves the wait only on
      the response it waits for. */
  lemma HandshakeNext(p: Params, pd: Pd, i: PdIn)
    requires CtlInv(p, pd) && QWaitStep(Holding(pd))
    ensures var (st, st') := (Holding(pd), Holding(Next(p, pd, i)));
            && Next(p, pd, i).out.rstN
            && (st' == st
                || (st.D_QWAIT? && i.qStopped && st'.D_CLK?)
                || (st.D_QWAIT? && i.qDeny && !i.qStopped && st'.D_DENY?)
                || (!st.D_QWAIT? && i.qRun && st'.S_ON?))
  {
    CtlInvStep(p, pd, i);
  }

  lemma OnNext(p: Params, pd: Pd, i: PdIn)
    requires CtlInv(p, pd) && pd.st.S_ON?
    ensures var pd' := Next(p, pd, i); pd'.out.rstN && (pd'.st.S_ON? || pd'.st.D_QWAIT?)
  {
  }

  /** Outside the handshakes the next state expects Q_STOPPED as well. */
  lemma QuietNext(p: Params, pd: Pd, i: PdIn)
    requires CtlInv(p, pd) && !QWaitStep(Holding(pd)) && !pd.st.S_ON?
    ensures var st' := Holding(Next(p, pd, i)); !st'.D_QWAIT? && !st'.D_DENY? && !st'.S_ON?
  {
    hide Next;
    if pd.st.S_FAULT? {
      FaultMoves(p, pd, i);
    } else if Stable(pd.st) {
      StableMoves(p, pd, i);
    } else if Next(p, pd, i).st.S_FAULT? {
      FaultEntry(p, pd, i);
    } else {
      SequenceMoves(p, pd, i);
    }
  }

  lemma HandshakeStep(p: Params, s: Slice, i: SliceIn, s': Slice)
    requires p.Ok() && CtlInv(p, s.r.pd) && QInv(s)
    requires Step(p, s, i, s') && !i.reset
    requires QWaitStep(Holding(s.r.pd))
    ensures QInv(s')
  {
    HandshakeNext(p, s.r.pd, PdInputs(p, s.r, i));
    match Holding(s.r.pd)
    case D_QWAIT =>
      if RunningOrReleasing(s) {
        RunningStep(p, s, i, s');
      } else if Accepting(s) {
        AcceptingStep(p, s, i, s');
      } else {
        DenyingStep(p, s, i, s');
      }
    case D_DENY => RunningStep(p, s, i, s');
    case U_QEXIT =>
      if AllStopped(s) {
        StoppedStep(p, s, i, s');
      } else {
        ExitingStep(p, s, i, s');
      }
  }

  lemma QStep(p: Params, s: Slice, i: SliceIn, s': Slice)
    requires p.Ok() && CtlInv(p, s.r.pd) && QInv(s)
    requires Step(p, s, i, s') && !i.reset
    ensures QInv(s')
  {
    if QWaitStep(Holding(s.r.pd)) {
      HandshakeStep(p, s, i, s');
    } else if s.r.pd.st.S_ON? {
      OnNext(p, s.r.pd, PdInputs(p, s.r, i));
      RunningStep(p, s, i, s');
    } else {
      QuietNext(p, s.r.pd, PdInputs(p, s.r, i));
      StoppedStep(p, s, i, s');
    }
  }
}
