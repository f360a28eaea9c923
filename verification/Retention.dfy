/** What a domain's registers hold when its isolation is released: the retention round trip,
    the reset values after a real power loss, and the normal registers in every case. */
module Retention {
  import opened PmuTypes
  import opened SyncFf
  import opened PdCtrl
  import opened DomainSlice
  import opened SliceInvariant
  import opened SliceQChannel
  import opened SliceSafety
  import opened SequencerMoves
  import opened DomainShell

  function LevelsOf(s: Slice): Levels {
    var o := s.r.pd.out;
    Levels(s.pins.trkAck && s.pins.mainAck, o.clkEn, o.rstN, o.retSave, o.retRestore)
  }

  /** At power-on: already in reset if the switches are on, unknown otherwise. */
  ghost predicate ShellInit(q: ShellParams, s: Slice, sh: Shell) {
    && q.Ok() && Fits(q, sh) && !sh.restored
    && (LevelsOf(s).pwr ==> sh.nreg == ResetNormal(q) && sh.rlive == Zeros(q.nRet))
  }

  /** The domain writes its registers only while it is clocked and unisolated. */
  ghost predicate ShellStep(q: ShellParams, s: Slice, sh: Shell, w: Write, s': Slice, sh': Shell) {
    && q.Ok() && Fits(q, sh)
    && (w.Write? ==> s.r.pd.out.clkEn && !s.r.pd.out.isoEn)
    && sh' == NextShell(q, sh, LevelsOf(s), w, LevelsOf(s'))
  }

  /** A run of the slice with its domain. */
  datatype History = History(run: seq<Slice>, ins: seq<SliceIn>, shells: seq<Shell>, writes: seq<Write>)

  ghost predicate Lives(p: Params, q: ShellParams, h: History)
    requires p.Ok()
  {
    && q.Ok() && q.hasRet == p.hasRet
    && IsRun(p, h.run, h.ins) && |h.shells| == |h.run| && |h.writes| == |h.ins|
    && ShellInit(q, h.run[0], h.shells[0])
    && forall k :: 0 <= k < |h.ins| ==> LivesAt(q, h, k)
  }

  ghost predicate LivesAt(q: ShellParams, h: History, k: nat)
    requires k < |h.writes| && |h.shells| == |h.run| == |h.writes| + 1
  {
    ShellStep(q, h.run[k], h.shells[k], h.writes[k], h.run[k + 1], h.shells[k + 1])
  }

  /** Out of reset but not yet unisolated, on the way up. */
  predicate Rising(st: St) {
    st.U_RST? || st.U_CLK?
  }

  ghost predicate NormalInv(q: ShellParams, s: Slice, sh: Shell)
    requires q.Ok()
  {
    var l := LevelsOf(s);
    && (l.pwr && !l.rstN ==> sh.nreg == ResetNormal(q))
    && (Rising(s.r.pd.st) || s.r.pd.st.U_ISO? ==> sh.nreg == ResetNormal(q))
  }

  ghost predicate RetentionInv(q: ShellParams, s: Slice, sh: Shell) {
    var l := LevelsOf(s);
    && (!l.pwr || !q.hasRet ==> !sh.restored)
    && (l.pwr && !l.rstN && !sh.restored ==> sh.rlive == Zeros(q.nRet))
    && ((Rising(s.r.pd.st) || s.r.pd.st.U_ISO?) && !sh.restored ==> sh.rlive == Zeros(q.nRet))
    && (s.r.pd.st.U_RESTORE? ==> sh.rlive == sh.shadow && sh.restored)
  }

  ghost predicate RegsInv(q: ShellParams, s: Slice, sh: Shell)
    requires q.Ok()
  {
    Fits(q, sh) && NormalInv(q, s, sh) && RetentionInv(q, s, sh)
  }

  /** The edges that matter to the registers. */
  lemma RisingNext(p: Params, pd: Pd, i: PdIn)
    requires CtlInv(p, pd)
    ensures var pd' := Next(p, pd, i);
            && (pd'.st.U_ISO? ==> pd.st.U_CLK?)
            && (pd'.st.U_CLK? ==> Rising(pd.st))
            && (pd'.st.U_RST? ==> pd.st.U_RST? || pd.st.U_RESTORE? || pd.st.U_MAIN_ON?)
            && (pd'.st.U_RESTORE? ==> pd.st.U_RESTORE? || pd.st.U_MAIN_ON?)
  {
    hide Next;
    if pd.st.S_FAULT? {
      FaultMoves(p, pd, i);
    } else if Stable(pd.st) {
      StableMoves(p, pd, i);
    } else if !Next(p, pd, i).st.S_FAULT? {
      SequenceMoves(p, pd, i);
    }
  }

  /** What the registers need to know of a slice. */
  lemma Supply(p: Params, s: Slice)
    requires Inv(p, s)
    ensures var (l, st, o) := (LevelsOf(s), s.r.pd.st, s.r.pd.out);
            && l.clkEn == o.clkEn && l.rstN == o.rstN && l.restore == st.U_RESTORE?
            && (l.rstN ==> l.pwr) && (l.clkEn ==> l.rstN)
            && (st.U_RESTORE? ==> l.pwr && p.hasRet && !l.rstN)
            && (Rising(st) || st.U_ISO? ==> l.rstN) && (st.U_MAIN_ON? ==> !l.rstN)
            && (Rising(st) ==> o.isoEn)
  {
  }

  lemma NormalStep(p: Params, q: ShellParams, s: Slice, i: SliceIn, s': Slice, sh: Shell, w: Write, sh': Shell)
    requires p.Ok() && Inv(p, s) && Inv(p, s') && Step(p, s, i, s') && q.hasRet == p.hasRet
    requires ShellStep(q, s, sh, w, s', sh') && RegsInv(q, s, sh)
    ensures NormalInv(q, s', sh')
  {
    Supply(p, s);
    Supply(p, s');
    Edges(p, s, i, s');
    hide Next, Step, Inv, RetentionEvent, RetentionInv, Table, LevelsOf;
  }

  lemma RetentionStep(p: Params, q: ShellParams, s: Slice, i: SliceIn, s': Slice, sh: Shell, w: Write, sh': Shell)
    requires p.Ok() && Inv(p, s) && Inv(p, s') && Step(p, s, i, s') && q.hasRet == p.hasRet
    requires ShellStep(q, s, sh, w, s', sh') && RegsInv(q, s, sh)
    ensures RetentionInv(q, s', sh')
  {
    Supply(p, s);
    Supply(p, s');
    Edges(p, s, i, s');
    hide Next, Step, Inv, NormalEvent, NormalInv, Table, LevelsOf;
  }

  lemma Edges(p: Params, s: Slice, i: SliceIn, s': Slice)
    requires p.Ok() && Inv(p, s) && Step(p, s, i, s')
    ensures var (st, st', t) := (s.r.pd.st, s'.r.pd.st, LevelsOf(s));
            && (st'.U_ISO? ==> st.U_CLK?) && (st'.U_CLK? ==> Rising(st))
            && (st'.U_RST? ==> st.U_RST? || st.U_RESTORE? || (st.U_MAIN_ON? && t.pwr))
            && (st'.U_RESTORE? ==> st.U_RESTORE? || (st.U_MAIN_ON? && t.pwr))
  {
    if !i.reset {
      RisingNext(p, s.r.pd, PdInputs(p, s.r, i));
      if s.r.pd.st.U_MAIN_ON? && !s'.r.pd.st.U_MAIN_ON? && !s'.r.pd.st.S_FAULT? {
        MainHeard(p, s, i);
      }
    }
    hide Next, Inv;
  }

  /** The main acknowledge that ends the switching phase is high on the pin, and the trickle
      acknowledge with it. */
  lemma MainHeard(p: Params, s: Slice, i: SliceIn)
    requires p.Ok() && Inv(p, s) && s.r.pd.st.U_MAIN_ON?
    requires var st' := Next(p, s.r.pd, PdInputs(p, s.r, i)).st; !st'.U_MAIN_ON? && !st'.S_FAULT?
    ensures LevelsOf(s).pwr
  {
    assert Trusted(p, s.r.pd) && Out(s.r.main);
    hide Next;
    FrontFills(true, s.pins.mainAck, s.r.main, s.r.pd.cnt);
  }

  lemma {:induction false} RegsAlways(p: Params, q: ShellParams, h: History, k: nat)
    requires p.Ok() && Lives(p, q, h) && k < |h.run|
    ensures Inv(p, h.run[k]) && RegsInv(q, h.run[k], h.shells[k])
  {
    hide Next, NormalInv, RetentionInv, ShellStep, Step;
    RunInv(p, h.run, h.ins, k);
    if k == 0 {
      RegsInit(p, q, h.run[0], h.shells[0]);
    } else {
      RegsAlways(p, q, h, k - 1);
      assert StepAt(p, h.run, h.ins, k - 1) && LivesAt(q, h, k - 1);
      NormalStep(p, q, h.run[k - 1], h.ins[k - 1], h.run[k], h.shells[k - 1], h.writes[k - 1], h.shells[k]);
      RetentionStep(p, q, h.run[k - 1], h.ins[k - 1], h.run[k], h.shells[k - 1], h.writes[k - 1], h.shells[k]);
      ShellFits(q, h, k);
    }
  }

  lemma RegsInit(p: Params, q: ShellParams, s: Slice, sh: Shell)
    requires p.Ok() && Init(p, s) && ShellInit(q, s, sh)
    ensures RegsInv(q, s, sh)
  {
  }

  lemma ShellFits(q: ShellParams, h: History, k: nat)
    requires 0 < k < |h.run| && |h.shells| == |h.run| == |h.writes| + 1 && LivesAt(q, h, k - 1)
    ensures Fits(q, h.shells[k])
  {
  }

  /** Isolation is released at k. */
  predicate Released(h: History, k: nat)
    requires 0 < k < |h.run|
  {
    h.run[k - 1].r.pd.out.isoEn && !h.run[k].r.pd.out.isoEn
  }

  /** Normal registers always come up with their reset values, whatever happened before. */
  lemma NormalRegistersReset(p: Params, q: ShellParams, h: History, k: nat)
    requires p.Ok() && Lives(p, q, h) && 0 < k < |h.run| && Released(h, k)
    ensures h.shells[k].nreg == ResetNormal(q)
    ensures |h.shells[k].nreg| == q.nNorm
    ensures forall i :: 0 <= i < q.nNorm ==> h.shells[k].nreg[i] == Known((q.base + i) % q.modulus)
  {
    hide Next;
    RegsAlways(p, q, h, k);
    RegsAlways(p, q, h, k - 1);
    assert StepAt(p, h.run, h.ins, k - 1);
    ReleaseNext(p, h.run[k - 1].r.pd, PdInputs(p, h.run[k - 1].r, h.ins[k - 1]));
  }

  /** The live retention registers now while the clock runs, else as they were when it last
      stopped. */
  function StopLive(h: History, k: nat): seq<Val>
    requires k < |h.run| == |h.shells|
  {
    if k == 0 || h.run[k].r.pd.out.clkEn || h.run[k - 1].r.pd.out.clkEn then h.shells[k].rlive
    else StopLive(h, k - 1)
  }

  lemma {:induction false} StopLiveSince(h: History, i: nat, k: nat)
    requires 0 < i <= k < |h.run| == |h.shells| && h.run[i - 1].r.pd.out.clkEn
    requires forall m :: i <= m <= k ==> !h.run[m].r.pd.out.clkEn
    ensures StopLive(h, k) == h.shells[i].rlive
  {
    if i < k {
      StopLiveSince(h, i, k - 1);
    }
  }

  /** Quiescent and still powered, before the switches go. */
  predicate Quiesced(st: St) {
    st.D_CLK? || st.S_CG? || st.D_ISO? || st.D_SAVE?
  }

  ghost predicate Remembers(h: History, k: nat)
    requires k < |h.run| == |h.shells|
  {
    var (pd, sh) := (h.run[k].r.pd, h.shells[k]);
    && (Quiesced(pd.st) ==> sh.rlive == StopLive(h, k))
    && (pd.st.D_SAVE? || pd.retValid ==> sh.shadow == StopLive(h, k))
  }

  /** How the domain comes to be quiesced. */
  lemma QuiescedNext(p: Params, pd: Pd, i: PdIn)
    requires CtlInv(p, pd)
    ensures var pd' := Next(p, pd, i);
            && (Quiesced(pd'.st) ==> Quiesced(pd.st) || pd.st.D_QWAIT?)
            && (pd'.st.D_SAVE? ==> pd.st.D_SAVE? || pd.st.D_ISO?)
  {
    hide Next;
    if pd.st.S_FAULT? {
      FaultMoves(p, pd, i);
    } else if Stable(pd.st) {
      StableMoves(p, pd, i);
    } else if !Next(p, pd, i).st.S_FAULT? {
      SequenceMoves(p, pd, i);
    }
  }

  /** How a saved state comes and goes. */
  lemma SavedNext(p: Params, pd: Pd, i: PdIn)
    requires CtlInv(p, pd)
    ensures var pd' := Next(p, pd, i);
            && (pd'.retValid && !pd.retValid ==> pd.st.D_SAVE? && pd'.st.D_RST?)
            && (pd.retValid && !pd'.retValid ==>
                  (pd.st.U_RESTORE? && pd'.st.U_RST?) || (pd.st.S_RET? && pd'.st.S_OFF?))
  {
    hide Next;
    if pd.st.S_FAULT? {
      FaultMoves(p, pd, i);
    } else if Next(p, pd, i).st.S_FAULT? {
      FaultEntry(p, pd, i);
    } else if Stable(pd.st) {
      StableMoves(p, pd, i);
    } else {
      SequenceMoves(p, pd, i);
    }
  }

  /** Which edges touch the memory, and what the controls are around them. */
  lemma MemoryEdges(p: Params, s: Slice, i: SliceIn, s': Slice)
    requires p.Ok() && Inv(p, s) && Inv(p, s') && Step(p, s, i, s')
    ensures var (pd, pd', l, l') := (s.r.pd, s'.r.pd, LevelsOf(s), LevelsOf(s'));
            && (Quiesced(pd'.st) ==> Quiesced(pd.st) || s.r.pd.out.clkEn)
            && (pd'.st.D_SAVE? ==> pd.st.D_SAVE? || pd.st.D_ISO?)
            && (pd'.retValid ==> pd.retValid || pd.st.D_SAVE?)
            && (pd.retValid || pd'.retValid ==> !(pd'.out.clkEn || pd.out.clkEn))
            && (pd.st.D_SAVE? ==> !pd'.out.clkEn && !pd.out.clkEn)
  {
    if !i.reset {
      QuiescedNext(p, s.r.pd, PdInputs(p, s.r, i));
      SavedNext(p, s.r.pd, PdInputs(p, s.r, i));
      if s.r.pd.st.D_SAVE? {
        SaveLeaves(p, s.r.pd, PdInputs(p, s.r, i));
      }
    }
    hide Next, CounterInv, TargetInv;
  }

  lemma SaveLeaves(p: Params, pd: Pd, i: PdIn)
    requires CtlInv(p, pd) && pd.st.D_SAVE?
    ensures Next(p, pd, i).st.D_SAVE? || Next(p, pd, i).st.D_RST?
  {
    hide Next;
    HoldMoves(p, pd, i);
  }

  lemma MemoryStep(p: Params, q: ShellParams, h: History, k: nat)
    requires p.Ok() && Lives(p, q, h) && q.hasRet && k < |h.ins|
    requires Inv(p, h.run[k]) && Inv(p, h.run[k + 1]) && RegsInv(q, h.run[k], h.shells[k])
    requires Remembers(h, k)
    ensures Remembers(h, k + 1)
  {
    assert StepAt(p, h.run, h.ins, k) && LivesAt(q, h, k);
    MemoryEdges(p, h.run[k], h.ins[k], h.run[k + 1]);
    Supply(p, h.run[k]);
    Supply(p, h.run[k + 1]);
    QuiescedLevels(p, h.run[k]);
    QuiescedLevels(p, h.run[k + 1]);
    hide Next, Inv, Step, NormalEvent, NormalInv, LevelsOf, Lives, Table;
  }

  lemma QuiescedLevels(p: Params, s: Slice)
    requires Inv(p, s)
    ensures var (st, l) := (s.r.pd.st, LevelsOf(s));
            && l.save == st.D_SAVE? && (Quiesced(st) ==> l.rstN && l.pwr && !l.clkEn && !l.restore)
  {
  }

  lemma {:induction false} RemembersAlways(p: Params, q: ShellParams, h: History, k: nat)
    requires p.Ok() && Lives(p, q, h) && q.hasRet && k < |h.run|
    ensures Remembers(h, k)
  {
    hide Next, Step, ShellStep;
    RegsAlways(p, q, h, k);
    if k > 0 {
      RegsAlways(p, q, h, k - 1);
      RemembersAlways(p, q, h, k - 1);
      MemoryStep(p, q, h, k - 1);
    }
  }

  /** Isolated from a up to b without PMU reset, and released at b. */
  ghost predicate Window(h: History, a: nat, b: nat) {
    && a < b < |h.run| && |h.ins| + 1 == |h.run|
    && (forall m :: a <= m < b ==> h.run[m].r.pd.out.isoEn && !h.ins[m].reset)
    && !h.run[b].r.pd.out.isoEn
  }

  /** The saved values at m: in the shadow, or already restored. */
  ghost predicate Carries(h: History, m: nat, v: seq<Val>)
    requires m < |h.run| == |h.shells|
  {
    if h.run[m].r.pd.retValid then h.shells[m].shadow == v && StopLive(h, m) == v
    else Rising(h.run[m].r.pd.st) && h.shells[m].rlive == v
  }

  lemma CarrySaved(p: Params, q: ShellParams, h: History, m: nat, v: seq<Val>)
    requires p.Ok() && Lives(p, q, h) && q.hasRet && m < |h.ins| && !h.ins[m].reset
    requires h.run[m].r.pd.retValid && Carries(h, m, v)
    requires !(h.run[m + 1].r.pd.st.S_OFF? && !h.run[m + 1].r.pd.retValid)
    ensures h.run[m + 1].r.pd.out.isoEn && Carries(h, m + 1, v)
  {
    hide Next, QInv, NormalInv, NormalEvent, CounterInv;
    RegsAlways(p, q, h, m);
    RegsAlways(p, q, h, m + 1);
    RemembersAlways(p, q, h, m + 1);
    assert StepAt(p, h.run, h.ins, m) && LivesAt(q, h, m);
    SavedNext(p, h.run[m].r.pd, PdInputs(p, h.run[m].r, h.ins[m]));
  }

  lemma CarryRestored(p: Params, q: ShellParams, h: History, m: nat, v: seq<Val>)
    requires p.Ok() && Lives(p, q, h) && q.hasRet && m < |h.ins| && !h.ins[m].reset
    requires Rising(h.run[m].r.pd.st) && h.shells[m].rlive == v
    ensures h.shells[m + 1].rlive == v
    ensures if h.run[m + 1].r.pd.out.isoEn then Carries(h, m + 1, v) else h.run[m + 1].r.pd.st.U_ISO?
  {
    hide Next, QInv, NormalInv, NormalEvent, CounterInv;
    RegsAlways(p, q, h, m);
    RegsAlways(p, q, h, m + 1);
    assert StepAt(p, h.run, h.ins, m) && LivesAt(q, h, m);
    HoldMoves(p, h.run[m].r.pd, PdInputs(p, h.run[m].r, h.ins[m]));
  }

  lemma {:induction false} Carried(p: Params, q: ShellParams, h: History, a: nat, b: nat, m: nat)
    requires p.Ok() && Lives(p, q, h) && q.hasRet && Window(h, a, b) && a <= m < b
    requires h.run[a].r.pd.retValid
    requires forall n :: a <= n < b ==> !(h.run[n].r.pd.st.S_OFF? && !h.run[n].r.pd.retValid)
    ensures Carries(h, m, StopLive(h, a))
  {
    assert |h.shells| == |h.run|;
    hide Lives, Carries, StopLive;
    if m == a {
      RemembersAlways(p, q, h, a);
      CarriesAtFirst(h, a);
    } else {
      Carried(p, q, h, a, b, m - 1);
      var v := StopLive(h, a);
      if h.run[m - 1].r.pd.retValid {
        CarrySaved(p, q, h, m - 1, v);
      } else {
        CarriedRising(h, m - 1, v);
        CarryRestored(p, q, h, m - 1, v);
      }
    }
  }

  lemma CarriesAtFirst(h: History, a: nat)
    requires a < |h.run| == |h.shells| && Remembers(h, a) && h.run[a].r.pd.retValid
    ensures Carries(h, a, StopLive(h, a))
  {
  }

  lemma CarriedRising(h: History, m: nat, v: seq<Val>)
    requires m < |h.run| == |h.shells| && Carries(h, m, v) && !h.run[m].r.pd.retValid
    ensures Rising(h.run[m].r.pd.st) && h.shells[m].rlive == v
  {
  }

  /** The round trip. A domain whose clock stopped at i and which holds a saved state at a comes
      up, at b, with the retention registers it had at i: through RET, and through any number of
      power-switch faults and recoveries, unless a request for OFF gives the state up. */
  lemma RetentionRoundTrip(p: Params, q: ShellParams, h: History, i: nat, a: nat, b: nat)
    requires p.Ok() && Lives(p, q, h) && q.hasRet && Window(h, a, b)
    requires 0 < i <= a && h.run[i - 1].r.pd.out.clkEn
    requires forall m :: i <= m <= a ==> !h.run[m].r.pd.out.clkEn
    requires h.run[a].r.pd.retValid
    requires forall n :: a <= n < b ==> !(h.run[n].r.pd.st.S_OFF? && !h.run[n].r.pd.retValid)
    ensures h.shells[b].rlive == h.shells[i].rlive
    ensures h.shells[b].nreg == ResetNormal(q)
  {
    var v := StopLive(h, a);
    StopLiveSince(h, i, a);
    Carried(p, q, h, a, b, b - 1);
    if h.run[b - 1].r.pd.retValid {
      EndsIsolated(p, q, h, b - 1, v);
    } else {
      CarryRestored(p, q, h, b - 1, v);
    }
    NormalRegistersReset(p, q, h, b);
  }

  /** A saved state is never unisolated. */
  lemma EndsIsolated(p: Params, q: ShellParams, h: History, m: nat, v: seq<Val>)
    requires p.Ok() && Lives(p, q, h) && q.hasRet && m < |h.ins| && !h.ins[m].reset
    requires h.run[m].r.pd.retValid && Carries(h, m, v)
    ensures h.run[m + 1].r.pd.out.isoEn
  {
    hide Next;
    RegsAlways(p, q, h, m);
    RegsAlways(p, q, h, m + 1);
    assert StepAt(p, h.run, h.ins, m);
    SavedNext(p, h.run[m].r.pd, PdInputs(p, h.run[m].r, h.ins[m]));
  }

  /** Both switches on, on the pins, in every cycle from a to m. */
  predicate PoweredOver(run: seq<Slice>, a: nat, m: nat)
    requires m < |run|
  {
    forall n :: a <= n <= m ==> run[n].pins.trkAck && run[n].pins.mainAck
  }

  /** Isolated and with nothing saved, only a power loss changes the retention registers of a
      domain that was restored. */
  lemma UnsavedEdge(p: Params, q: ShellParams, h: History, m: nat)
    requires p.Ok() && Lives(p, q, h) && m < |h.ins|
    requires h.run[m].r.pd.out.isoEn && !h.run[m].r.pd.retValid && !h.run[m + 1].r.pd.retValid
    ensures var (sh, sh') := (h.shells[m], h.shells[m + 1]);
            && (sh'.restored <==> sh.restored && h.run[m + 1].pins.trkAck && h.run[m + 1].pins.mainAck)
            && (sh'.restored ==> sh'.rlive == sh.rlive)
  {
    RegsAlways(p, q, h, m);
    RegsAlways(p, q, h, m + 1);
    assert LivesAt(q, h, m);
    hide Next, QInv, NormalInv, CounterInv, Step, TargetInv;
  }

  lemma {:induction false} UnsavedHistory(p: Params, q: ShellParams, h: History, a: nat, m: nat)
    requires p.Ok() && Lives(p, q, h) && a <= m < |h.run|
    requires forall n :: a <= n < m ==> h.run[n].r.pd.out.isoEn
    requires forall n :: a <= n <= m ==> !h.run[n].r.pd.retValid
    ensures h.shells[m].restored <==> h.shells[a].restored && PoweredOver(h.run, a, m)
    ensures h.shells[m].restored ==> h.shells[m].rlive == h.shells[a].rlive
  {
    if a < m {
      UnsavedHistory(p, q, h, a, m - 1);
      UnsavedEdge(p, q, h, m - 1);
    } else {
      RegsAlways(p, q, h, a);
    }
  }

  /** The exact condition: a domain with nothing saved, isolated from a on and released at b, keeps
      the retention registers it has at a if a restore put them there and both switches stay on
      throughout; otherwise every one of them comes up with its reset value. PMU resets and faults
      in between make no difference. */
  lemma ReleasedRetention(p: Params, q: ShellParams, h: History, a: nat, b: nat)
    requires p.Ok() && Lives(p, q, h) && a < b < |h.run|
    requires forall n :: a <= n < b ==> h.run[n].r.pd.out.isoEn
    requires forall n :: a <= n <= b ==> !h.run[n].r.pd.retValid
    requires !h.run[b].r.pd.out.isoEn
    ensures h.shells[b].rlive ==
              if h.shells[a].restored && PoweredOver(h.run, a, b) then h.shells[a].rlive else Zeros(q.nRet)
    ensures h.shells[b].nreg == ResetNormal(q)
  {
    hide Next, Lives;
    UnsavedHistory(p, q, h, a, b);
    NormalRegistersReset(p, q, h, b);
    ReleasedInIso(p, q, h, b);
    RegsAlways(p, q, h, b);
  }

  /** Isolation is released into U_ISO and nowhere else. */
  lemma ReleasedInIso(p: Params, q: ShellParams, h: History, b: nat)
    requires p.Ok() && Lives(p, q, h) && 0 < b < |h.run| && Released(h, b)
    ensures h.run[b].r.pd.st.U_ISO?
  {
    hide Next;
    RunInv(p, h.run, h.ins, b - 1);
    assert StepAt(p, h.run, h.ins, b - 1);
    ReleaseNext(p, h.run[b - 1].r.pd, PdInputs(p, h.run[b - 1].r, h.ins[b - 1]));
  }

  /** A domain that really lost power at a, with nothing saved, comes up at b with reset values in
      every register; PMU resets and faults in between make no difference. */
  lemma PowerLossResets(p: Params, q: ShellParams, h: History, a: nat, b: nat)
    requires p.Ok() && Lives(p, q, h) && a < b < |h.run|
    requires !(h.run[a].pins.trkAck && h.run[a].pins.mainAck)
    requires forall n :: a <= n < b ==> h.run[n].r.pd.out.isoEn
    requires forall n :: a <= n <= b ==> !h.run[n].r.pd.retValid
    requires !h.run[b].r.pd.out.isoEn
    ensures h.shells[b].rlive == Zeros(q.nRet) && h.shells[b].nreg == ResetNormal(q)
  {
    hide Lives;
    ReleasedRetention(p, q, h, a, b);
  }

  /** A fault-free way to OFF loses power: once the main switch is confirmed off, it is off. */
  lemma OffLosesPower(p: Params, run: seq<Slice>, ins: seq<SliceIn>, k: nat)
    requires p.Ok() && IsRun(p, run, ins) && k < |run| && run[k].r.pd.st.D_TRK_OFF?
    ensures !run[k].pins.mainAck
  {
    RunInv(p, run, ins, k);
  }

  /** Off or on the way up, with nothing saved. */
  predicate DownUnsaved(pd: Pd) {
    var st := Holding(pd);
    && !pd.retValid
    && (st.D_TRK_OFF? || st.S_OFF? || st.U_ARB? || SwitchUp(st) || Rising(st))
  }

  lemma DownUnsavedNext(p: Params, pd: Pd, i: PdIn)
    requires CtlInv(p, pd) && DownUnsaved(pd)
    ensures DownUnsaved(Next(p, pd, i)) || Next(p, pd, i).st.U_ISO?
  {
    hide Next;
    if pd.st.S_FAULT? {
      FaultMoves(p, pd, i);
    } else if Next(p, pd, i).st.S_FAULT? {
      FaultEntry(p, pd, i);
    } else if Stable(pd.st) {
      StableMoves(p, pd, i);
    } else {
      SequenceMoves(p, pd, i);
    }
  }

  lemma {:induction false} StaysUnsaved(p: Params, run: seq<Slice>, ins: seq<SliceIn>, a: nat, m: nat)
    requires p.Ok() && IsRun(p, run, ins) && a <= m < |run| && DownUnsaved(run[a].r.pd)
    requires forall n :: a <= n < m ==> run[n].r.pd.out.isoEn
    ensures DownUnsaved(run[m].r.pd) || (run[m].r.pd.st.U_ISO? && !run[m].r.pd.retValid)
  {
    hide Next;
    RunInv(p, run, ins, m);
    if a < m {
      StaysUnsaved(p, run, ins, a, m - 1);
      RunInv(p, run, ins, m - 1);
      assert StepAt(p, run, ins, m - 1);
      if !ins[m - 1].reset {
        DownUnsavedNext(p, run[m - 1].r.pd, PdInputs(p, run[m - 1].r, ins[m - 1]));
      }
    }
  }

  /** Off or on the way up, unpowered and with nothing saved at a: reset values at b. */
  lemma UnsavedPowerLossResets(p: Params, q: ShellParams, h: History, a: nat, b: nat)
    requires p.Ok() && Lives(p, q, h) && a < b < |h.run|
    requires !h.run[a].pins.mainAck && DownUnsaved(h.run[a].r.pd)
    requires forall n :: a <= n < b ==> h.run[n].r.pd.out.isoEn
    requires !h.run[b].r.pd.out.isoEn
    ensures h.shells[b].rlive == Zeros(q.nRet) && h.shells[b].nreg == ResetNormal(q)
  {
    forall n | a <= n <= b
      ensures !h.run[n].r.pd.retValid
    {
      StaysUnsaved(p, h.run, h.ins, a, n);
    }
    hide Lives;
    PowerLossResets(p, q, h, a, b);
  }

  /** A domain whose main switch is confirmed off on the way to OFF comes up with reset values in
      every register, whatever faults and PMU resets follow. */
  lemma OffRunResets(p: Params, q: ShellParams, h: History, a: nat, b: nat)
    requires p.Ok() && Lives(p, q, h) && a < b < |h.run|
    requires h.run[a].r.pd.st.D_TRK_OFF? && h.run[a].r.pd.seqTgt.T_OFF?
    requires forall n :: a <= n < b ==> h.run[n].r.pd.out.isoEn
    requires !h.run[b].r.pd.out.isoEn
    ensures h.shells[b].rlive == Zeros(q.nRet) && h.shells[b].nreg == ResetNormal(q)
  {
    OffLosesPower(p, h.run, h.ins, a);
    RunInv(p, h.run, h.ins, a);
    hide Lives, Inv;
    UnsavedPowerLossResets(p, q, h, a, b);
  }

  /** OFF is entered without a fault and without PMU reset from D_TRK_OFF or, when a request for
      OFF finds the domain in RET, from RET; both ways the power is really off and nothing is saved. */
  lemma FaultFreeOff(p: Params, run: seq<Slice>, ins: seq<SliceIn>, a: nat)
    requires p.Ok() && IsRun(p, run, ins) && 0 < a < |run| && !ins[a - 1].reset
    requires run[a].r.pd.st.S_OFF? && !run[a - 1].r.pd.st.S_OFF? && !run[a - 1].r.pd.st.S_FAULT?
    ensures run[a - 1].r.pd.st.D_TRK_OFF? || run[a - 1].r.pd.st.S_RET?
    ensures !run[a].pins.mainAck && DownUnsaved(run[a].r.pd)
  {
    hide Next, QInv, CounterInv, TargetInv;
    var s := run[a - 1];
    RunInv(p, run, ins, a - 1);
    assert StepAt(p, run, ins, a - 1);
    if Stable(s.r.pd.st) {
      StableMoves(p, s.r.pd, PdInputs(p, s.r, ins[a - 1]));
    } else {
      SequenceMoves(p, s.r.pd, PdInputs(p, s.r, ins[a - 1]));
    }
  }

  /** A run through OFF, entered at a without a fault or PMU reset, from RET as well as by a
      switch-off, returns reset values in every register. */
  lemma FaultFreeOffResets(p: Params, q: ShellParams, h: History, a: nat, b: nat)
    requires p.Ok() && Lives(p, q, h) && 0 < a < b < |h.run| && !h.ins[a - 1].reset
    requires h.run[a].r.pd.st.S_OFF? && !h.run[a - 1].r.pd.st.S_OFF? && !h.run[a - 1].r.pd.st.S_FAULT?
    requires forall n :: a <= n < b ==> h.run[n].r.pd.out.isoEn
    requires !h.run[b].r.pd.out.isoEn
    ensures h.shells[b].rlive == Zeros(q.nRet) && h.shells[b].nreg == ResetNormal(q)
  {
    FaultFreeOff(p, h.run, h.ins, a);
    hide Lives;
    UnsavedPowerLossResets(p, q, h, a, b);
  }
}
