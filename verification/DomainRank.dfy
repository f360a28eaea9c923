/** How far one domain is from rest: a rank over its path, its step counters and its place in the
    arbitration, which every quiet clock edge lowers. */
module DomainRank {
  import opened PmuTypes
  import opened PdCtrl
  import opened SliceInvariant
  import opened SequencerMoves
  import opened StepCounters
  import opened StatusTruth

  /** Effective delays and timeouts. */
  datatype Times = Times(q: nat, psw: nat, clk: nat, iso: nat, ret: nat, rst: nat, trk: nat, main: nat) {
    predicate Positive() {
      q >= 1 && psw >= 1 && clk >= 1 && iso >= 1 && ret >= 1 && rst >= 1 && trk >= 1 && main >= 1
    }
  }

  /** Upper limits for them; all of them count at least one cycle. */
  type Limits = k: Times | k.Positive() witness Times(1, 1, 1, 1, 1, 1, 1, 1)

  predicate AtMost(j: Times, k: Times) {
    && j.q <= k.q && j.psw <= k.psw && j.clk <= k.clk && j.iso <= k.iso
    && j.ret <= k.ret && j.rst <= k.rst && j.trk <= k.trk && j.main <= k.main
  }

  function TimesOf(c: Cfg): (k: Limits) {
    Times(Tmo(c.tmoQch), Tmo(c.tmoPsw), Dly(c.dlyClk), Dly(c.dlyIso), Dly(c.dlyRet), Dly(c.dlyRst),
          Dly(c.dlyTrickle), Dly(c.dlyMain))
  }

  function Max(a: nat, b: nat): nat {
    if a >= b then a else b
  }

  /** Cycles left in a step of at most `bound` cycles whose counter stands at cnt. */
  function Left(bound: nat, cnt: nat): nat {
    if bound > cnt + 1 then bound - cnt else 1
  }

  /** The longest switching phase: U_TRK_ON and U_MAIN_ON together. */
  function Phase(k: Times): nat
    requires k.Positive()
  {
    (k.psw + k.trk - 1) + (k.psw + k.main - 1)
  }

  /** Cycles left in a switch-on step: the ack may still take until the timeout, then it must hold. */
  function SwitchLeft(k: Times, hold: nat, pd: Pd): nat
    requires hold >= 1
  {
    if pd.hcnt > 0 then Left(hold, pd.hcnt) else Left(k.psw, pd.cnt) + hold - 1
  }

  /** From the end of switching to ON. */
  function UpTail(k: Times): nat {
    k.ret + k.rst + k.clk + 1 + k.q
  }

  /** From the start of isolation to both switches off. */
  function DownTail(k: Times): nat {
    k.iso + k.ret + k.rst + k.psw + k.psw
  }

  /** From ON to target t; dq is what a deny may cost. */
  function FromOn(k: Times, dq: nat, t: Target): nat {
    match t
    case T_ON => 0
    case T_CG => 1 + k.q + Max(dq, k.clk)
    case _ => 1 + k.q + Max(dq, k.clk + DownTail(k))
  }

  /** From the stable state of s to target t, other domains' switching not counted. */
  function FromStable(k: Times, dq: nat, s: Target, t: Target): nat
    requires k.Positive()
  {
    if s == t || (s.T_OFF? && t.T_RET?) then 0
    else match s
      case T_ON => FromOn(k, dq, t)
      case T_CG => if t.T_ON? then 1 + k.clk + k.q else 1 + DownTail(k)
      case _ => if t.T_OFF? then 1 else 3 + Phase(k) + UpTail(k) + FromOn(k, dq, t)
  }

  /** The rank of a domain by itself; g says that it holds the inrush grant. */
  function Local(k: Times, dq: nat, t: Target, pd: Pd, g: bool): nat
    requires k.Positive()
  {
    var (after, fin) := (FromStable(k, dq, pd.seqTgt, t), FromOn(k, dq, t));
    match pd.st
    case S_FAULT => 0
    case S_ON => if pd.armed then fin else 0
    case S_CG => FromStable(k, dq, T_CG, t)
    case S_RET => FromStable(k, dq, T_RET, t)
    case S_OFF => FromStable(k, dq, T_OFF, t)
    case D_QWAIT =>
      Left(k.q, pd.cnt) + Max(dq, k.clk + (if pd.seqTgt.T_CG? then after else DownTail(k) + after))
    case D_DENY => Left(k.q, pd.cnt)
    case D_CLK => Left(k.clk, pd.cnt) + (if pd.seqTgt.T_CG? then after else DownTail(k) + after)
    case D_ISO => Left(k.iso, pd.cnt) + k.ret + k.rst + k.psw + k.psw + after
    case D_SAVE => Left(k.ret, pd.cnt) + k.rst + k.psw + k.psw + after
    case D_RST => Left(k.rst, pd.cnt) + k.psw + k.psw + after
    case D_MAIN_OFF => Left(k.psw, pd.cnt) + k.psw + after
    case D_TRK_OFF => Left(k.psw, pd.cnt) + after
    case U_ARB => (if g then 1 else 2) + Phase(k) + UpTail(k) + fin
    case U_TRK_ON => SwitchLeft(k, k.trk, pd) + k.psw + k.main - 1 + UpTail(k) + fin
    case U_MAIN_ON => SwitchLeft(k, k.main, pd) + UpTail(k) + fin
    case U_RESTORE => Left(k.ret, pd.cnt) + k.rst + k.clk + 1 + k.q + fin
    case U_RST => Left(k.rst, pd.cnt) + k.clk + 1 + k.q + fin
    case U_CLK => Left(k.clk, pd.cnt) + 1 + k.q + fin
    case U_ISO => 1 + k.q + fin
    case U_QEXIT => Left(k.q, pd.cnt) + fin
    case C_CLK => Left(k.clk, pd.cnt) + k.q + fin
  }

  /** A power-up may still lie ahead. */
  predicate MayPowerUp(pd: Pd, t: Target) {
    (t.T_ON? || t.T_CG?) &&
    match pd.st
    case S_OFF | S_RET => true
    case D_QWAIT | D_CLK | D_ISO | D_SAVE | D_RST | D_MAIN_OFF | D_TRK_OFF => !pd.seqTgt.T_CG? && !pd.seqTgt.T_ON?
    case _ => false
  }

  /** For how long a domain can still keep others from the grant. */
  function Ahead(k: Times, t: Target, pd: Pd, g: bool): (n: nat)
    requires k.Positive()
  {
    if MayPowerUp(pd, t) then Phase(k) + 2
    else match pd.st
      case U_ARB => if g then Phase(k) + 1 else Phase(k) + 2
      case U_TRK_ON => SwitchLeft(k, k.trk, pd) + k.psw + k.main - 1
      case U_MAIN_ON => SwitchLeft(k, k.main, pd)
      case _ => 0
  }

  /** At rest: at the target, in FAULT, or in ON after a deny. */
  predicate Settled(pd: Pd, t: Target) {
    pd.st.S_FAULT? || Satisfies(pd.st, t) || (pd.st.S_ON? && !pd.armed)
  }

  /** No request, no fault clear, and the effective target t; any configuration. */
  predicate CalmIn(p: Params, i: PdIn, t: Target) {
    !i.arm && !i.faultClr && Effective(p.hasRet, i.tgt) == t
  }

  /** The same under a configuration within the limits k. */
  predicate QuietIn(p: Params, i: PdIn, k: Times, t: Target) {
    CalmIn(p, i, t) && AtMost(TimesOf(i.cfg), k)
  }

  /** Once an ack of a switch-on step has been counted, it stays heard. */
  predicate KeepsHearing(p: Params, pd: Pd, i: PdIn) {
    SwitchUp(pd.st) && pd.hcnt > 0 ==> AckHeard(p, pd, i)
  }

  /** The longest stay in a hold step, a Q-Channel wait or a switch-off step. */
  function StepBound(k: Times, st: St): nat
    requires HoldStep(st) || QWaitStep(st) || SwitchDown(st)
  {
    match st
    case D_QWAIT | D_DENY | U_QEXIT => k.q
    case D_MAIN_OFF | D_TRK_OFF => k.psw
    case D_ISO => k.iso
    case D_SAVE | U_RESTORE => k.ret
    case D_RST | U_RST => k.rst
    case _ => k.clk
  }

  lemma StaysInBound(p: Params, pd: Pd, i: PdIn, k: Times)
    requires CtlInv(p, pd) && AtMost(TimesOf(i.cfg), k)
    requires HoldStep(pd.st) || QWaitStep(pd.st) || SwitchDown(pd.st)
    requires Next(p, pd, i).st == pd.st
    ensures Next(p, pd, i).cnt == pd.cnt + 1 < StepBound(k, pd.st)
  {
    Continues(p, pd, i);
    if HoldStep(pd.st) {
      HoldNext(p, pd, i);
    } else if QWaitStep(pd.st) {
    } else {
      assert !TimeoutPsw(p, pd, i);
    }
  }

  lemma StaysSwitching(p: Params, pd: Pd, i: PdIn, k: Times)
    requires CtlInv(p, pd) && AtMost(TimesOf(i.cfg), k) && SwitchUp(pd.st) && Next(p, pd, i).st == pd.st
    ensures var pd' := Next(p, pd, i);
            && pd'.cnt == pd.cnt + 1
            && (if AckHeard(p, pd, i) then pd'.hcnt == pd.hcnt + 1 < (if pd.st.U_TRK_ON? then k.trk else k.main)
                else pd'.hcnt == 0 && pd.cnt + 1 < k.psw)
  {
    Continues(p, pd, i);
    assert !TimeoutPsw(p, pd, i);
  }

  lemma ArbitrationNext(p: Params, pd: Pd, i: PdIn)
    requires CtlInv(p, pd) && pd.st.U_ARB?
    ensures Next(p, pd, i).st == if i.gnt then U_TRK_ON else U_ARB
    ensures Next(p, pd, i).seqTgt == pd.seqTgt
  {
  }

  /** At rest stays at rest. */
  lemma SettledStays(p: Params, pd: Pd, i: PdIn, t: Target)
    requires CtlInv(p, pd) && CalmIn(p, i, t) && Settled(pd, t)
    ensures Settled(Next(p, pd, i), t)
    ensures Satisfies(pd.st, t) ==> Next(p, pd, i).st == pd.st
  {
    hide Next, CtlInv;
    ArmedNext(p, pd, i);
    if pd.st.S_FAULT? {
      FaultMoves(p, pd, i);
    } else {
      StableMoves(p, pd, i);
    }
  }

  /** What one quiet edge has to achieve for a domain that is not at rest. */
  ghost predicate Lowers(k: Times, dq: nat, t: Target, pd: Pd, g: bool, pd': Pd, g': bool)
    requires k.Positive()
  {
    Local(k, dq, t, pd', g') < Local(k, dq, t, pd, g)
  }

  /** What leaving a stable state does. */
  ghost predicate Departure(pd: Pd, t: Target, pd': Pd) {
    && Departs(pd.st, t, pd'.st) && CountsFromZero(pd, pd') && pd'.retValid == SavedAfter(pd, pd'.st)
    && (pd.st.S_ON? || (pd.st.S_CG? && !t.T_ON?) ==> pd'.seqTgt == t)
  }

  lemma DepartureLowers(k: Times, dq: nat, t: Target, pd: Pd, g: bool, pd': Pd, g': bool)
    requires k.Positive() && Stable(pd.st) && pd.armed && Departure(pd, t, pd')
    ensures Lowers(k, dq, t, pd, g, pd', g')
  {
    hide Phase, UpTail, Max;
  }

  lemma StableLowers(p: Params, pd: Pd, i: PdIn, k: Times, dq: nat, t: Target, g: bool, g': bool)
    requires CtlInv(p, pd) && QuietIn(p, i, k, t) && Stable(pd.st) && !Settled(pd, t)
    ensures Lowers(k, dq, t, pd, g, Next(p, pd, i), g')
  {
    assert pd.armed;
    hide Next, CtlInv, Lowers;
    StepStarts(p, pd, i);
    StableMoves(p, pd, i);
    DepartureLowers(k, dq, t, pd, g, Next(p, pd, i), g');
  }

  /** What the moves of a Q-Channel wait do; a deny ends disarmed. */
  ghost predicate HandshakeMove(k: Times, pd: Pd, pd': Pd)
    requires QWaitStep(pd.st)
  {
    && (pd'.st.S_FAULT? || (Moves(pd, pd'.st) && pd'.seqTgt == pd.seqTgt)) && CountsFromZero(pd, pd')
    && (pd'.st == pd.st ==> pd'.cnt == pd.cnt + 1 < StepBound(k, pd.st))
    && (pd.st.D_DENY? && pd'.st.S_ON? ==> !pd'.armed)
  }

  lemma HandshakeFacts(p: Params, pd: Pd, i: PdIn, k: Times)
    requires CtlInv(p, pd) && AtMost(TimesOf(i.cfg), k) && QWaitStep(pd.st)
    ensures HandshakeMove(k, pd, Next(p, pd, i))
  {
    var pd' := Next(p, pd, i);
    hide Next, CtlInv;
    StepStarts(p, pd, i);
    if !pd'.st.S_FAULT? {
      SequenceMoves(p, pd, i);
      if pd'.st == pd.st {
        StaysInBound(p, pd, i, k);
      } else if pd.st.D_DENY? {
        DenyEnds(p, pd, i);
      }
    }
  }

  lemma HandshakeMoveLowers(k: Times, dq: nat, t: Target, pd: Pd, g: bool, pd': Pd, g': bool)
    requires k.Positive() && QWaitStep(pd.st) && HandshakeMove(k, pd, pd')
    requires dq >= k.q || !pd'.st.D_DENY?
    ensures Lowers(k, dq, t, pd, g, pd', g')
  {
    hide FromStable, FromOn, DownTail;
  }

  lemma HandshakeLowers(p: Params, pd: Pd, i: PdIn, k: Times, dq: nat, t: Target, g: bool, g': bool)
    requires CtlInv(p, pd) && QuietIn(p, i, k, t) && QWaitStep(pd.st)
    requires dq >= k.q || !Next(p, pd, i).st.D_DENY?
    ensures Lowers(k, dq, t, pd, g, Next(p, pd, i), g')
  {
    HandshakeFacts(p, pd, i, k);
    hide Next, CtlInv, Lowers, HandshakeMove;
    HandshakeMoveLowers(k, dq, t, pd, g, Next(p, pd, i), g');
  }

  lemma DenyEnds(p: Params, pd: Pd, i: PdIn)
    requires pd.st.D_DENY? && Next(p, pd, i).st.S_ON?
    ensures !Next(p, pd, i).armed
  {
  }

  /** What the moves of a hold step do to its counter. */
  ghost predicate HoldMove(k: Times, pd: Pd, pd': Pd) {
    && Moves(pd, pd'.st) && pd'.seqTgt == pd.seqTgt && CountsFromZero(pd, pd')
    && (pd'.st == pd.st && HoldStep(pd.st) ==> pd'.cnt == pd.cnt + 1 < StepBound(k, pd.st))
  }

  lemma ClockDownLowers(k: Times, dq: nat, t: Target, pd: Pd, g: bool, pd': Pd, g': bool)
    requires k.Positive() && HoldMove(k, pd, pd') && pd.st.D_CLK?
    ensures Lowers(k, dq, t, pd, g, pd', g')
  {
    hide FromStable, FromOn;
  }

  lemma IsolateLowers(k: Times, dq: nat, t: Target, pd: Pd, g: bool, pd': Pd, g': bool)
    requires k.Positive() && HoldMove(k, pd, pd') && (pd.st.D_ISO? || pd.st.D_SAVE?)
    ensures Lowers(k, dq, t, pd, g, pd', g')
  {
    hide FromStable, FromOn;
  }

  lemma ResetDownLowers(k: Times, dq: nat, t: Target, pd: Pd, g: bool, pd': Pd, g': bool)
    requires k.Positive() && HoldMove(k, pd, pd') && pd.st.D_RST?
    ensures Lowers(k, dq, t, pd, g, pd', g')
  {
    hide FromStable, FromOn;
  }

  lemma RestoreLowers(k: Times, dq: nat, t: Target, pd: Pd, g: bool, pd': Pd, g': bool)
    requires k.Positive() && HoldMove(k, pd, pd') && (pd.st.U_RESTORE? || pd.st.U_RST?)
    ensures Lowers(k, dq, t, pd, g, pd', g')
  {
    hide FromStable, FromOn;
  }

  lemma ClockUpLowers(k: Times, dq: nat, t: Target, pd: Pd, g: bool, pd': Pd, g': bool)
    requires k.Positive() && HoldMove(k, pd, pd') && (pd.st.U_CLK? || pd.st.U_ISO? || pd.st.C_CLK?)
    ensures Lowers(k, dq, t, pd, g, pd', g')
  {
    hide FromStable, FromOn;
  }

  lemma HoldLowers(p: Params, pd: Pd, i: PdIn, k: Times, dq: nat, t: Target, g: bool, g': bool)
    requires CtlInv(p, pd) && QuietIn(p, i, k, t) && (HoldStep(pd.st) || pd.st.U_ISO?)
    ensures Lowers(k, dq, t, pd, g, Next(p, pd, i), g')
  {
    HoldFacts(p, pd, i, k);
    hide Next, CtlInv, Lowers;
    var pd' := Next(p, pd, i);
    match pd.st
    case D_CLK => ClockDownLowers(k, dq, t, pd, g, pd', g');
    case D_ISO | D_SAVE => IsolateLowers(k, dq, t, pd, g, pd', g');
    case D_RST => ResetDownLowers(k, dq, t, pd, g, pd', g');
    case U_RESTORE | U_RST => RestoreLowers(k, dq, t, pd, g, pd', g');
    case U_CLK | U_ISO | C_CLK => ClockUpLowers(k, dq, t, pd, g, pd', g');
  }

  lemma HoldFacts(p: Params, pd: Pd, i: PdIn, k: Times)
    requires CtlInv(p, pd) && AtMost(TimesOf(i.cfg), k) && (HoldStep(pd.st) || pd.st.U_ISO?)
    ensures HoldMove(k, pd, Next(p, pd, i))
  {
    hide Next;
    StepStarts(p, pd, i);
    HoldMoves(p, pd, i);
    if Next(p, pd, i).st == pd.st {
      StaysInBound(p, pd, i, k);
    }
  }

  /** What the moves of a switch-off step do to its counter. */
  ghost predicate OffMove(k: Times, pd: Pd, pd': Pd)
    requires SwitchDown(pd.st)
  {
    && (pd'.st.S_FAULT? || (Moves(pd, pd'.st) && pd'.seqTgt == pd.seqTgt)) && CountsFromZero(pd, pd')
    && (pd'.st == pd.st ==> pd'.cnt == pd.cnt + 1 < StepBound(k, pd.st))
  }

  lemma OffMoveLowers(k: Times, dq: nat, t: Target, pd: Pd, g: bool, pd': Pd, g': bool)
    requires k.Positive() && SwitchDown(pd.st) && OffMove(k, pd, pd') && (pd.seqTgt.T_RET? || pd.seqTgt.T_OFF?)
    ensures Lowers(k, dq, t, pd, g, pd', g')
  {
    hide Phase, UpTail, FromOn;
  }

  lemma SwitchDownLowers(p: Params, pd: Pd, i: PdIn, k: Times, dq: nat, t: Target, g: bool, g': bool)
    requires CtlInv(p, pd) && QuietIn(p, i, k, t) && SwitchDown(pd.st)
    ensures Lowers(k, dq, t, pd, g, Next(p, pd, i), g')
  {
    var pd' := Next(p, pd, i);
    assert pd.seqTgt.T_RET? || pd.seqTgt.T_OFF?;
    hide Next, CtlInv, Lowers;
    StepStarts(p, pd, i);
    if !pd'.st.S_FAULT? {
      SwitchMoves(p, pd, i);
      if pd'.st == pd.st {
        StaysInBound(p, pd, i, k);
      }
    }
    OffMoveLowers(k, dq, t, pd, g, pd', g');
  }

  /** What the moves of a switch-on step do to its counters. */
  ghost predicate SwitchMove(k: Times, pd: Pd, pd': Pd)
    requires k.Positive()
  {
    var hold := if pd.st.U_TRK_ON? then k.trk else k.main;
    && (pd'.st.S_FAULT? || Moves(pd, pd'.st)) && CountsFromZero(pd, pd')
    && (pd'.st == pd.st ==> SwitchLeft(k, hold, pd') < SwitchLeft(k, hold, pd))
  }

  lemma SwitchUpFacts(p: Params, pd: Pd, i: PdIn, k: Times)
    requires CtlInv(p, pd) && AtMost(TimesOf(i.cfg), k) && SwitchUp(pd.st) && KeepsHearing(p, pd, i)
    ensures SwitchMove(k, pd, Next(p, pd, i))
  {
    var pd' := Next(p, pd, i);
    StepStarts(p, pd, i);
    if !pd'.st.S_FAULT? {
      SwitchMoves(p, pd, i);
      if pd'.st == pd.st {
        StaysSwitching(p, pd, i, k);
      }
    }
    hide Next, CtlInv;
  }

  lemma TrickleLowers(k: Times, dq: nat, t: Target, pd: Pd, g: bool, pd': Pd, g': bool)
    requires k.Positive() && SwitchMove(k, pd, pd') && pd.st.U_TRK_ON?
    ensures Lowers(k, dq, t, pd, g, pd', g') && Ahead(k, t, pd', g') < Ahead(k, t, pd, g)
  {
    hide FromOn, FromStable;
  }

  lemma MainLowers(k: Times, dq: nat, t: Target, pd: Pd, g: bool, pd': Pd, g': bool)
    requires k.Positive() && SwitchMove(k, pd, pd') && pd.st.U_MAIN_ON?
    ensures Lowers(k, dq, t, pd, g, pd', g') && Ahead(k, t, pd', g') < Ahead(k, t, pd, g)
  {
    hide FromOn, FromStable;
  }

  /** The two switch-on steps lower both measures. */
  lemma SwitchUpLowers(p: Params, pd: Pd, i: PdIn, k: Times, dq: nat, t: Target, g: bool, g': bool)
    requires CtlInv(p, pd) && QuietIn(p, i, k, t) && SwitchUp(pd.st) && KeepsHearing(p, pd, i)
    ensures Lowers(k, dq, t, pd, g, Next(p, pd, i), g')
    ensures Ahead(k, t, Next(p, pd, i), g') < Ahead(k, t, pd, g)
  {
    SwitchUpFacts(p, pd, i, k);
    hide Next, CtlInv, Lowers, Ahead;
    if pd.st.U_TRK_ON? {
      TrickleLowers(k, dq, t, pd, g, Next(p, pd, i), g');
    } else {
      MainLowers(k, dq, t, pd, g, Next(p, pd, i), g');
    }
  }

  /** Arbitration: with the grant both measures fall; without it they do not rise, and fall when
      the grant arrives. */
  lemma ArbitrationLowers(p: Params, pd: Pd, i: PdIn, k: Times, dq: nat, t: Target, g': bool)
    requires CtlInv(p, pd) && QuietIn(p, i, k, t) && pd.st.U_ARB?
    ensures i.gnt || g' ==> Lowers(k, dq, t, pd, i.gnt, Next(p, pd, i), g')
    ensures i.gnt || g' ==> Ahead(k, t, Next(p, pd, i), g') < Ahead(k, t, pd, i.gnt)
    ensures !i.gnt && !g' ==> Next(p, pd, i).st.U_ARB?
    ensures !i.gnt && !g' ==> Local(k, dq, t, Next(p, pd, i), g') == Local(k, dq, t, pd, i.gnt)
    ensures !i.gnt && !g' ==> Ahead(k, t, Next(p, pd, i), g') == Ahead(k, t, pd, i.gnt)
  {
    StepStarts(p, pd, i);
    ArbitrationNext(p, pd, i);
    hide Next, CtlInv, FromOn, UpTail;
  }

  /** Every quiet edge lowers the rank of a domain that is not at rest and not waiting for the
      grant. */
  lemma QuietLowers(p: Params, pd: Pd, i: PdIn, k: Times, dq: nat, t: Target, g': bool)
    requires CtlInv(p, pd) && QuietIn(p, i, k, t) && !Settled(pd, t) && KeepsHearing(p, pd, i)
    requires dq >= k.q || !Next(p, pd, i).st.D_DENY?
    requires pd.st.U_ARB? ==> i.gnt
    ensures Lowers(k, dq, t, pd, i.gnt, Next(p, pd, i), g')
  {
    hide Next, CtlInv, Local;
    if Stable(pd.st) {
      StableLowers(p, pd, i, k, dq, t, i.gnt, g');
    } else if QWaitStep(pd.st) {
      HandshakeLowers(p, pd, i, k, dq, t, i.gnt, g');
    } else if SwitchDown(pd.st) {
      SwitchDownLowers(p, pd, i, k, dq, t, i.gnt, g');
    } else if SwitchUp(pd.st) {
      SwitchUpLowers(p, pd, i, k, dq, t, i.gnt, g');
    } else if pd.st.U_ARB? {
      ArbitrationLowers(p, pd, i, k, dq, t, g');
    } else {
      HoldLowers(p, pd, i, k, dq, t, i.gnt, g');
    }
  }

  /** Outside the power-up a domain can come to lie ahead of others only if it already did. */
  lemma RestAhead(p: Params, pd: Pd, i: PdIn, k: Times, t: Target, g: bool, g': bool)
    requires CtlInv(p, pd) && QuietIn(p, i, k, t) && !pd.st.U_ARB? && !SwitchUp(pd.st)
    ensures Ahead(k, t, Next(p, pd, i), g') <= Ahead(k, t, pd, g)
    ensures Next(p, pd, i).st.U_ARB? ==> MayPowerUp(pd, t)
    ensures MayPowerUp(Next(p, pd, i), t) ==> MayPowerUp(pd, t)
  {
    assert TargetInv(p, pd);
    hide Next, CtlInv, Phase;
    var pd' := Next(p, pd, i);
    if pd.st.S_FAULT? {
      FaultMoves(p, pd, i);
    } else if Stable(pd.st) {
      StableMoves(p, pd, i);
    } else if !pd'.st.S_FAULT? {
      SequenceMoves(p, pd, i);
    }
  }

  /** A domain waits for the grant only if it did so, or was on its way to, before. */
  lemma NeedPersists(p: Params, pd: Pd, i: PdIn, k: Times, t: Target)
    requires CtlInv(p, pd) && QuietIn(p, i, k, t)
    ensures var pd' := Next(p, pd, i);
            MayPowerUp(pd', t) || pd'.st.U_ARB? ==> MayPowerUp(pd, t) || (pd.st.U_ARB? && !i.gnt)
    ensures pd.st.U_ARB? && !i.gnt ==> !MayPowerUp(Next(p, pd, i), t)
  {
    hide Next;
    if pd.st.U_ARB? {
      ArbitrationNext(p, pd, i);
    } else if !SwitchUp(pd.st) {
      RestAhead(p, pd, i, k, t, false, false);
    } else if !Next(p, pd, i).st.S_FAULT? {
      SwitchMoves(p, pd, i);
    }
  }

  /** No quiet edge puts more of a domain's switching ahead of the others. */
  lemma AheadFalls(p: Params, pd: Pd, i: PdIn, k: Times, t: Target, g': bool)
    requires CtlInv(p, pd) && QuietIn(p, i, k, t) && KeepsHearing(p, pd, i)
    ensures Ahead(k, t, Next(p, pd, i), g') <= Ahead(k, t, pd, i.gnt)
    ensures SwitchUp(pd.st) || (pd.st.U_ARB? && (i.gnt || g')) ==>
              Ahead(k, t, Next(p, pd, i), g') < Ahead(k, t, pd, i.gnt)
  {
    hide Next, CtlInv, Ahead;
    if pd.st.U_ARB? {
      ArbitrationLowers(p, pd, i, k, 0, t, g');
    } else if SwitchUp(pd.st) {
      SwitchUpLowers(p, pd, i, k, 0, t, i.gnt, g');
    } else {
      RestAhead(p, pd, i, k, t, i.gnt, g');
    }
  }

  lemma LocalPositive(k: Times, dq: nat, t: Target, pd: Pd, g: bool)
    requires k.Positive() && !Settled(pd, t)
    ensures Local(k, dq, t, pd, g) >= 1
  {
    hide Phase, UpTail, DownTail, Max;
  }

  /** Going up: only what comes after ON is left. */
  lemma UpBound(k: Times, dq: nat, t: Target, pd: Pd, g: bool)
    requires k.Positive() && MidSequence(pd.st) && !SwitchDown(pd.st)
    requires QWaitStep(pd.st) ==> pd.st.U_QEXIT?
    requires HoldStep(pd.st) ==> pd.st.U_RESTORE? || pd.st.U_RST? || pd.st.U_CLK? || pd.st.C_CLK?
    ensures Local(k, dq, t, pd, g) <= 2 + Phase(k) + UpTail(k) + FromOn(k, dq, t)
  {
    hide FromOn, FromStable;
  }

  /** Going down: what comes after the state the sequence is for is left. */
  lemma DownBound(k: Times, dq: nat, t: Target, pd: Pd, g: bool)
    requires k.Positive()
    requires pd.st.D_CLK? || pd.st.D_ISO? || pd.st.D_SAVE? || pd.st.D_RST? || SwitchDown(pd.st)
    requires !pd.st.D_CLK? ==> !pd.seqTgt.T_CG?
    ensures Local(k, dq, t, pd, g) <=
              k.clk + (if pd.seqTgt.T_CG? then 0 else DownTail(k)) + FromStable(k, dq, pd.seqTgt, t)
  {
    hide FromOn, FromStable;
  }

  lemma HandshakeBound(k: Times, dq: nat, t: Target, pd: Pd, g: bool)
    requires k.Positive() && (pd.st.D_QWAIT? || pd.st.D_DENY?)
    ensures Local(k, dq, t, pd, g) <=
              k.q + Max(dq, k.clk + (if pd.seqTgt.T_CG? then 0 else DownTail(k)) + FromStable(k, dq, pd.seqTgt, t))
  {
    hide FromOn, FromStable, DownTail;
  }

  /** The longest way home: a power-down to OFF, a power-up, a clock gating. */
  lemma LocalBound(p: Params, k: Times, dq: nat, t: Target, pd: Pd, g: bool)
    requires CtlInv(p, pd) && k.Positive()
    ensures Local(k, dq, t, pd, g) <=
              k.q + k.clk + DownTail(k) + 3 + Phase(k) + UpTail(k) + 1 + k.q + Max(dq, k.clk)
    ensures Ahead(k, t, pd, g) <= Phase(k) + 2
  {
    assert TargetInv(p, pd);
    hide CtlInv, FromStable, FromOn;
    AheadBound(k, t, pd, g);
    hide Ahead, MayPowerUp;
    FromStableBound(k, dq, pd.seqTgt, t);
    if Stable(pd.st) || pd.st.S_FAULT? {
      RestBound(k, dq, t, pd, g);
      hide Local;
    } else if pd.st.D_QWAIT? || pd.st.D_DENY? {
      HandshakeBound(k, dq, t, pd, g);
      hide Local;
    } else if pd.st.D_CLK? || pd.st.D_ISO? || pd.st.D_SAVE? || pd.st.D_RST? || SwitchDown(pd.st) {
      DownBound(k, dq, t, pd, g);
      hide Local;
    } else {
      UpBound(k, dq, t, pd, g);
      hide Local;
    }
  }

  lemma RestBound(k: Times, dq: nat, t: Target, pd: Pd, g: bool)
    requires k.Positive() && (Stable(pd.st) || pd.st.S_FAULT?)
    ensures Local(k, dq, t, pd, g) <= 3 + Phase(k) + UpTail(k) + 1 + k.q + Max(dq, k.clk) + DownTail(k)
  {
    FromStableBound(k, dq, T_CG, t);
    FromStableBound(k, dq, T_RET, t);
    FromStableBound(k, dq, T_OFF, t);
    hide FromStable, FromOn, Phase, UpTail, DownTail;
  }

  lemma AheadBound(k: Times, t: Target, pd: Pd, g: bool)
    requires k.Positive()
    ensures Ahead(k, t, pd, g) <= Phase(k) + 2
  {
    hide MayPowerUp;
  }

  lemma FromStableBound(k: Times, dq: nat, s: Target, t: Target)
    requires k.Positive()
    ensures FromOn(k, dq, t) <= 1 + k.q + Max(dq, k.clk) + DownTail(k)
    ensures t.T_ON? || t.T_CG? ==> FromOn(k, dq, t) <= 1 + k.q + Max(dq, k.clk)
    ensures FromStable(k, dq, s, t) <= 3 + Phase(k) + UpTail(k) + 1 + k.q + Max(dq, k.clk) + DownTail(k)
    ensures !s.T_ON? && !s.T_CG? ==> FromStable(k, dq, s, t) <= 3 + Phase(k) + UpTail(k) + 1 + k.q + Max(dq, k.clk)
    ensures s.T_CG? ==> FromStable(k, dq, s, t) <= 1 + k.clk + k.q + DownTail(k)
  {
  }
}
