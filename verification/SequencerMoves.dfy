/** The transition graph of the sequencer inside a sequence. */
module SequencerMoves {
  import opened PmuTypes
  import opened PdCtrl
  import opened SliceInvariant

  /** The states a sequence can move to from pd without a fault; staying is always possible
      except in U_ISO. */
  predicate Moves(pd: Pd, st': St) {
    match pd.st
    case D_QWAIT => st'.D_QWAIT? || st'.D_CLK? || st'.D_DENY?
    case D_DENY => st'.D_DENY? || st'.S_ON?
    case D_CLK => st'.D_CLK? || (if pd.seqTgt.T_CG? then st'.S_CG? else st'.D_ISO?)
    case D_ISO => st'.D_ISO? || (if pd.seqTgt.T_RET? then st'.D_SAVE? else st'.D_RST?)
    case D_SAVE => st'.D_SAVE? || st'.D_RST?
    case D_RST => st'.D_RST? || st'.D_MAIN_OFF?
    case D_MAIN_OFF => st'.D_MAIN_OFF? || st'.D_TRK_OFF?
    case D_TRK_OFF => st'.D_TRK_OFF? || (if pd.seqTgt.T_RET? then st'.S_RET? else st'.S_OFF?)
    case U_ARB => st'.U_ARB? || st'.U_TRK_ON?
    case U_TRK_ON => st'.U_TRK_ON? || st'.U_MAIN_ON?
    case U_MAIN_ON => st'.U_MAIN_ON? || (if pd.retValid then st'.U_RESTORE? else st'.U_RST?)
    case U_RESTORE => st'.U_RESTORE? || st'.U_RST?
    case U_RST => st'.U_RST? || st'.U_CLK?
    case U_CLK => st'.U_CLK? || st'.U_ISO?
    case U_ISO => st'.U_QEXIT?
    case U_QEXIT => st'.U_QEXIT? || st'.S_ON?
    case C_CLK => st'.C_CLK? || st'.U_QEXIT?
    case _ => false
  }

  /** A saved state is recorded at the end of the save, used up by the restore and given up when
      the domain goes to OFF. */
  predicate SavedAfter(pd: Pd, st': St) {
    if pd.st.D_SAVE? && st'.D_RST? then true
    else if pd.st.U_RESTORE? && st'.U_RST? then false
    else pd.retValid && !st'.S_OFF?
  }

  ghost predicate MovesTo(pd: Pd, pd': Pd) {
    Moves(pd, pd'.st) && pd'.seqTgt == pd.seqTgt && pd'.retValid == SavedAfter(pd, pd'.st)
  }

  lemma WaitMoves(p: Params, pd: Pd, i: PdIn)
    requires CtlInv(p, pd) && QWaitStep(pd.st) && !Next(p, pd, i).st.S_FAULT?
    ensures MovesTo(pd, Next(p, pd, i))
  {
  }

  lemma SwitchMoves(p: Params, pd: Pd, i: PdIn)
    requires CtlInv(p, pd) && !Next(p, pd, i).st.S_FAULT?
    requires pd.st.U_ARB? || SwitchUp(pd.st) || SwitchDown(pd.st)
    ensures MovesTo(pd, Next(p, pd, i))
  {
  }

  lemma HoldMoves(p: Params, pd: Pd, i: PdIn)
    requires CtlInv(p, pd) && (HoldStep(pd.st) || pd.st.U_ISO?)
    ensures MovesTo(pd, Next(p, pd, i))
  {
  }

  /** In a sequence only these edges are taken. */
  lemma SequenceMoves(p: Params, pd: Pd, i: PdIn)
    requires CtlInv(p, pd) && MidSequence(pd.st) && !Next(p, pd, i).st.S_FAULT?
    ensures MovesTo(pd, Next(p, pd, i))
  {
    hide Next;
    if QWaitStep(pd.st) {
      WaitMoves(p, pd, i);
    } else if HoldStep(pd.st) || pd.st.U_ISO? {
      HoldMoves(p, pd, i);
    } else {
      SwitchMoves(p, pd, i);
    }
  }

  /** Out of a stable state, for effective target t. */
  predicate Departs(st: St, t: Target, st': St) {
    match st
    case S_ON => !t.T_ON? && st'.D_QWAIT?
    case S_CG => if t.T_ON? then st'.C_CLK? else !t.T_CG? && st'.D_ISO?
    case S_RET => if t.T_OFF? then st'.S_OFF? else !t.T_RET? && st'.U_ARB?
    case S_OFF => (t.T_ON? || t.T_CG?) && st'.U_ARB?
    case _ => false
  }

  /** A stable state is left exactly when it is armed and does not satisfy its target, and at once. */
  lemma StableMoves(p: Params, pd: Pd, i: PdIn)
    requires CtlInv(p, pd) && Stable(pd.st)
    ensures var (pd', t) := (Next(p, pd, i), Effective(p.hasRet, i.tgt));
            if pd.armed && !Satisfies(pd.st, t) then
              Departs(pd.st, t, pd'.st) &&
              (pd.st.S_ON? || (pd.st.S_CG? && !t.T_ON?) ==> pd'.seqTgt == t) &&
              pd'.retValid == SavedAfter(pd, pd'.st)
            else
              pd'.st == pd.st && pd'.retValid == pd.retValid && pd'.out == pd.out
  {
  }

  /** Out of FAULT only on a fault clear, and then at once: back to the interrupted Q-Channel
      wait with a fresh timeout, or to OFF after a power-switch timeout. */
  lemma FaultMoves(p: Params, pd: Pd, i: PdIn)
    requires CtlInv(p, pd) && pd.st.S_FAULT?
    ensures var pd' := Next(p, pd, i);
            && pd'.st == (if i.faultClr then Holding(pd) else S_FAULT)
            && (i.faultClr ==> pd'.cnt == 0)
            && pd'.out == pd.out && pd'.fault == pd.fault && pd'.retValid == pd.retValid
            && pd'.seqTgt == pd.seqTgt
  {
  }

  /** What an entry into FAULT records and keeps. */
  ghost predicate Faults(pd: Pd, pd': Pd) {
    && pd'.evFault && pd'.fault.step == StepShown(pd.out)
    && pd'.fault.faultQ == QWaitStep(pd.st) == pd.out.rstN
    && Holding(pd') == (if QWaitStep(pd.st) then pd.st else S_OFF)
    && pd'.retValid == pd.retValid && pd'.seqTgt == pd.seqTgt
  }

  lemma WaitFaults(p: Params, pd: Pd, i: PdIn)
    requires CtlInv(p, pd) && QWaitStep(pd.st) && Next(p, pd, i).st.S_FAULT?
    ensures Faults(pd, Next(p, pd, i))
  {
  }

  lemma SwitchFaults(p: Params, pd: Pd, i: PdIn)
    requires CtlInv(p, pd) && (SwitchUp(pd.st) || SwitchDown(pd.st)) && Next(p, pd, i).st.S_FAULT?
    ensures Faults(pd, Next(p, pd, i))
  {
  }

  lemma FaultsInWaits(p: Params, pd: Pd, i: PdIn)
    requires CtlInv(p, pd) && !pd.st.S_FAULT? && Next(p, pd, i).st.S_FAULT?
    ensures QWaitStep(pd.st) || SwitchUp(pd.st) || SwitchDown(pd.st)
  {
  }

  /** Into FAULT only by a timeout, which records the interrupted wait and keeps what is saved and
      what the sequence is for. */
  lemma FaultEntry(p: Params, pd: Pd, i: PdIn)
    requires CtlInv(p, pd) && !pd.st.S_FAULT? && Next(p, pd, i).st.S_FAULT?
    ensures QWaitStep(pd.st) || SwitchUp(pd.st) || SwitchDown(pd.st)
    ensures Faults(pd, Next(p, pd, i))
  {
    hide Next, CtlInv, Faults;
    FaultsInWaits(p, pd, i);
    if QWaitStep(pd.st) {
      WaitFaults(p, pd, i);
    } else {
      SwitchFaults(p, pd, i);
    }
  }
}
