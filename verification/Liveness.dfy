/** Bounded liveness of the whole unit, for any number of domains and any configuration. */
module Liveness {
  import opened PmuTypes
  import opened PdCtrl
  import opened DomainSlice
  import opened SliceInvariant
  import opened SliceSafety
  import opened StepCounters
  import opened InrushArb
  import opened ApbRegs
  import opened PmuTop
  import opened InrushExclusion
  import opened StatusTruth
  import opened DomainRank

  /** No PMU reset, no request by software or wake event, no fault clear; any configuration. */
  predicate Calm(i: SysIn) {
    !i.reset && !ModeWrite(i.bus) && !i.wakeEvt && !FaultClear(i.bus)
  }

  /** The same while no effective delay or timeout exceeds its limit in u. */
  predicate Quiet(i: SysIn, u: Limits) {
    Calm(i) && AtMost(TimesOf(i.cfg), u)
  }

  /** An acknowledge is counted only in a step old enough to trust it. */
  predicate CountsTrusted(p: Params, pd: Pd) {
    SwitchUp(pd.st) && pd.hcnt > 0 ==> Trusted(p, pd)
  }

  lemma CountsTrustedStep(p: Params, pd: Pd, i: PdIn)
    requires CtlInv(p, pd) && CountsTrusted(p, pd)
    ensures CountsTrusted(p, Next(p, pd, i))
  {
    hide Next;
    var pd' := Next(p, pd, i);
    StepStarts(p, pd, i);
    if SwitchUp(pd.st) && pd'.st == pd.st {
      Continues(p, pd, i);
    }
  }

  lemma {:induction false} RunCountsTrusted(p: Params, run: seq<Slice>, ins: seq<SliceIn>, k: nat)
    requires p.Ok() && IsRun(p, run, ins) && k < |run|
    ensures CountsTrusted(p, run[k].r.pd)
  {
    hide Next;
    if k > 0 {
      RunCountsTrusted(p, run, ins, k - 1);
      RunInv(p, run, ins, k - 1);
      assert StepAt(p, run, ins, k - 1);
      if !ins[k - 1].reset {
        CountsTrustedStep(p, run[k - 1].r.pd, PdInputs(p, run[k - 1].r, ins[k - 1]));
      }
    }
  }

  /** In a reachable state a counted acknowledge stays heard. */
  lemma Hears(p: Params, s: Slice, i: SliceIn)
    requires p.Ok() && Inv(p, s) && CountsTrusted(p, s.r.pd)
    ensures KeepsHearing(p, s.r.pd, PdInputs(p, s.r, i))
  {
  }

  /** The invariant of the unit with the counters' part. */
  ghost predicate Reached(p: SysParams, s: Sys) {
    SysInv(p, s) && forall d :: 0 <= d < p.N() ==> CountsTrusted(p.Of(d), s.slices[d].r.pd)
  }

  lemma RunReached(p: SysParams, run: seq<Sys>, ins: seq<SysIn>, k: nat)
    requires IsSysRun(p, run, ins) && k < |run|
    ensures Reached(p, run[k])
  {
    SysRunInv(p, run, ins, k);
    forall d | 0 <= d < p.N()
      ensures CountsTrusted(p.Of(d), run[k].slices[d].r.pd)
    {
      Projects(p, run, ins, d);
      RunCountsTrusted(p.Of(d), SliceRun(run, d), SliceIns(p, run, ins, d), k);
    }
  }

  /** The effective target of domain d. */
  function Tgt(p: SysParams, s: Sys, d: nat): Target
    requires p.Ok() && d < p.N()
  {
    Effective(p.hasRet[d], TargetIn(s.bank.modeReq, d))
  }

  function AheadOf(p: SysParams, s: Sys, k: Times, d: nat): nat
    requires p.Ok() && k.Positive() && d < p.N() == |s.slices| == |s.gnt|
  {
    Ahead(k, Tgt(p, s, d), s.slices[d].r.pd, s.gnt[d])
  }

  /** The switching phases of the domains below n other than d. */
  function Others(p: SysParams, s: Sys, k: Times, d: nat, n: nat): nat
    requires p.Ok() && k.Positive() && d < p.N() == |s.slices| == |s.gnt| && n <= p.N()
  {
    if n == 0 then 0
    else Others(p, s, k, d, n - 1) + (if n - 1 == d then 0 else AheadOf(p, s, k, n - 1))
  }

  predicate NeedsGrant(p: SysParams, s: Sys, d: nat)
    requires p.Ok() && d < p.N() == |s.slices| == |s.gnt|
  {
    MayPowerUp(s.slices[d].r.pd, Tgt(p, s, d)) || (s.slices[d].r.pd.st.U_ARB? && !s.gnt[d])
  }

  /** The rank of domain d in the unit. */
  function Rank(p: SysParams, s: Sys, k: Times, dq: nat, d: nat): nat
    requires p.Ok() && k.Positive() && d < p.N() == |s.slices| == |s.gnt|
  {
    Local(k, dq, Tgt(p, s, d), s.slices[d].r.pd, s.gnt[d]) +
    if NeedsGrant(p, s, d) then Others(p, s, k, d, p.N()) else 0
  }

  predicate AtRest(p: SysParams, s: Sys, d: nat)
    requires p.Ok() && d < p.N() == |s.slices|
  {
    Settled(s.slices[d].r.pd, Tgt(p, s, d))
  }

  /** A quiet edge of the unit from a state without a pending request pulse. */
  ghost predicate QuietStep(p: SysParams, s: Sys, i: SysIn, s': Sys, u: Limits) {
    Reached(p, s) && SysStep(p, s, i, s') && Quiet(i, u) && !s.bank.arm && SysInv(p, s')
  }

  lemma StaysCalm(p: SysParams, s: Sys, i: SysIn, s': Sys)
    requires SysStep(p, s, i, s') && Calm(i)
    ensures s'.bank.modeReq == s.bank.modeReq && !s'.bank.arm
  {
    hide Step;
  }

  /** A calm edge as domain d sees it. */
  lemma CalmSlice(p: SysParams, s: Sys, i: SysIn, s': Sys, d: nat) returns (pi: PdIn)
    requires SysInv(p, s) && SysStep(p, s, i, s') && Calm(i) && !s.bank.arm && d < p.N()
    ensures Inv(p.Of(d), s.slices[d]) && pi == PdInputs(p.Of(d), s.slices[d].r, SliceInput(p, s, i, d))
    ensures var (q, pd, pd') := (p.Of(d), s.slices[d].r.pd, s'.slices[d].r.pd);
            && pd' == Next(q, pd, pi) && CtlInv(q, pd) && pi.gnt == s.gnt[d] && pi.cfg == i.cfg
            && CalmIn(q, pi, Tgt(p, s, d)) && Tgt(p, s', d) == Tgt(p, s, d)
  {
    hide Next;
    StaysCalm(p, s, i, s');
    var si := SliceInput(p, s, i, d);
    assert Step(p.Of(d), s.slices[d], si, s'.slices[d]);
    assert Inv(p.Of(d), s.slices[d]);
    pi := PdInputs(p.Of(d), s.slices[d].r, si);
  }

  /** A quiet edge as domain d sees it. */
  lemma QuietSlice(p: SysParams, s: Sys, i: SysIn, s': Sys, u: Limits, d: nat) returns (pi: PdIn)
    requires QuietStep(p, s, i, s', u) && d < p.N()
    ensures var (q, pd, pd') := (p.Of(d), s.slices[d].r.pd, s'.slices[d].r.pd);
            && pd' == Next(q, pd, pi) && CtlInv(q, pd) && pi.gnt == s.gnt[d]
            && QuietIn(q, pi, u, Tgt(p, s, d)) && KeepsHearing(q, pd, pi)
            && Tgt(p, s', d) == Tgt(p, s, d)
  {
    hide Next, Step, Inv;
    pi := CalmSlice(p, s, i, s', d);
    Hears(p.Of(d), s.slices[d], SliceInput(p, s, i, d));
  }

  lemma OneFalls(p: SysParams, s: Sys, i: SysIn, s': Sys, u: Limits, e: nat)
    requires QuietStep(p, s, i, s', u) && e < p.N()
    ensures var (k, st) := (u, s.slices[e].r.pd.st);
            && AheadOf(p, s', k, e) <= AheadOf(p, s, k, e)
            && (SwitchUp(st) || (st.U_ARB? && (s.gnt[e] || s'.gnt[e])) ==> AheadOf(p, s', k, e) < AheadOf(p, s, k, e))
  {
    hide Next, Ahead, CtlInv;
    var pi := QuietSlice(p, s, i, s', u, e);
    AheadFalls(p.Of(e), s.slices[e].r.pd, pi, u, Tgt(p, s, e), s'.gnt[e]);
  }

  /** What the other domains still have ahead never grows on a quiet edge, and shrinks when one of
      them moves on. */
  lemma {:induction false} OthersFall(p: SysParams, s: Sys, i: SysIn, s': Sys, u: Limits, d: nat, n: nat, e: nat)
    requires QuietStep(p, s, i, s', u) && d < p.N() && n <= p.N()
    ensures Others(p, s', u, d, n) <= Others(p, s, u, d, n)
    ensures e < n && e != d && AheadOf(p, s', u, e) < AheadOf(p, s, u, e) ==>
              Others(p, s', u, d, n) < Others(p, s, u, d, n)
  {
    hide QuietStep, AheadOf;
    if n > 0 {
      OthersFall(p, s, i, s', u, d, n - 1, e);
      OneFalls(p, s, i, s', u, n - 1);
    }
  }

  /** A domain that waits for the grant and does not get it sees another one move on. */
  lemma SomeoneMovesOn(p: SysParams, s: Sys, i: SysIn, s': Sys, u: Limits, d: nat) returns (e: nat)
    requires QuietStep(p, s, i, s', u) && d < p.N()
    requires s.slices[d].r.pd.st.U_ARB? && !s.gnt[d] && !s'.gnt[d]
    ensures e < p.N() && e != d && AheadOf(p, s', u, e) < AheadOf(p, s, u, e)
  {
    hide Step, AheadOf, Inv;
    var req := Requesting(s);
    AsksInPhase(p, s);
    if Held(s.gnt, req) {
      e :| 0 <= e < |req| && s.gnt[e] && req[e];
    } else {
      assert req[d] && true in req;
      e := Lowest(req);
      assert Pick(req)[e];
    }
    OneFalls(p, s, i, s', u, e);
  }

  /** The heart of the argument: every quiet edge keeps a domain at rest or lowers its rank. */
  lemma RankFalls(p: SysParams, s: Sys, i: SysIn, s': Sys, u: Limits, dq: nat, d: nat)
    requires QuietStep(p, s, i, s', u) && d < p.N()
    requires dq >= u.q || !s'.slices[d].r.pd.st.D_DENY?
    ensures if AtRest(p, s, d) then AtRest(p, s', d)
            else Rank(p, s', u, dq, d) < Rank(p, s, u, dq, d)
  {
    hide Next, CtlInv, Local, MayPowerUp;
    var k, t, pd := u, Tgt(p, s, d), s.slices[d].r.pd;
    var pi := QuietSlice(p, s, i, s', u, d);
    if AtRest(p, s, d) {
      SettledStays(p.Of(d), pd, pi, t);
    } else {
      if pd.st.U_ARB? {
        ArbitrationLowers(p.Of(d), pd, pi, k, dq, t, s'.gnt[d]);
      } else {
        QuietLowers(p.Of(d), pd, pi, k, dq, t, s'.gnt[d]);
      }
      NeedNotReturn(p, s, i, s', u, d);
      if pd.st.U_ARB? && !s.gnt[d] && !s'.gnt[d] {
        var e := SomeoneMovesOn(p, s, i, s', u, d);
        OthersFall(p, s, i, s', u, d, p.N(), e);
      } else {
        OthersFall(p, s, i, s', u, d, p.N(), d);
      }
    }
  }

  /** Once past its grant a domain does not need one again. */
  lemma NeedNotReturn(p: SysParams, s: Sys, i: SysIn, s': Sys, u: Limits, d: nat)
    requires QuietStep(p, s, i, s', u) && d < p.N()
    ensures NeedsGrant(p, s', d) ==> NeedsGrant(p, s, d)
  {
    hide Next, CtlInv, MayPowerUp;
    var pi := QuietSlice(p, s, i, s', u, d);
    NeedPersists(p.Of(d), s.slices[d].r.pd, pi, u, Tgt(p, s, d));
  }

  /** The end-to-end bound in cycles for n domains, term by term as scripts/liveness_bound.py adds it. */
  function ScriptBound(k: Times, n: nat): int {
    var phase := (k.psw + k.trk) + (k.psw + k.main);
    var powerDown := k.q + k.clk + k.iso + k.ret + k.rst + k.psw + k.psw;
    var arb := (n - 1) * (phase + 1) + 1;
    var powerUp := phase + k.ret + k.rst + k.clk + 1 + k.q;
    var clockGate := 1 + k.q + k.clk;
    powerDown + 1 + arb + powerUp + clockGate
  }

  /** The total summed up, for every number of domains; for three domains at the reset values of the
      registers it is the documented bound. */
  lemma ScriptBoundSummed(k: Times, n: nat)
    ensures ScriptBound(k, n) ==
              3 * k.q + 3 * k.clk + k.iso + 2 * k.ret + 2 * k.rst + (2 * n + 2) * k.psw
              + n * (k.trk + k.main) + n + 3
    ensures ScriptBound(TimesOf(Cfg(8, 4, 2, 2, 2, 2, 256, 256)), 3) == 2874
  {
    var phase := (k.psw + k.trk) + (k.psw + k.main);
    assert (n - 1) * (phase + 1) == n * phase - phase + n - 1;
    assert n * phase == 2 * n * k.psw + n * (k.trk + k.main);
  }

  lemma ScriptBoundPositive(k: Times, n: nat)
    requires n >= 1
    ensures ScriptBound(k, n) >= 1
  {
    var phase := (k.psw + k.trk) + (k.psw + k.main);
    assert (n - 1) * (phase + 1) >= 0;
  }

  lemma {:induction false} OthersBound(p: SysParams, s: Sys, k: Times, d: nat, n: nat)
    requires SysInv(p, s) && k.Positive() && d < p.N() && n <= p.N()
    ensures Others(p, s, k, d, n) <= (if d < n then n - 1 else n) * (Phase(k) + 2)
  {
    hide SysInv, Ahead, Phase;
    if n > 0 {
      OthersBound(p, s, k, d, n - 1);
      OneBound(p, s, k, n - 1);
      var u := Phase(k) + 2;
      assert (n - 1) * u + u == n * u;
      if d < n - 1 {
        assert (n - 2) * u + u == (n - 1) * u;
      }
    }
  }

  lemma OneBound(p: SysParams, s: Sys, k: Times, d: nat)
    requires SysInv(p, s) && k.Positive() && d < p.N()
    ensures AheadOf(p, s, k, d) <= Phase(k) + 2
  {
    hide Ahead, Phase;
    assert Inv(p.Of(d), s.slices[d]);
    LocalBound(p.Of(d), k, 0, Tgt(p, s, d), s.slices[d].r.pd, s.gnt[d]);
  }

  /** The script's total covers the rank of every domain in every reachable state, with one cycle
      per domain to spare; a deny costs at most dq more. */
  lemma RankBound(p: SysParams, s: Sys, k: Times, dq: nat, d: nat)
    requires SysInv(p, s) && k.Positive() && d < p.N()
    ensures Rank(p, s, k, dq, d) + p.N() <= ScriptBound(k, p.N()) + dq
  {
    OthersBound(p, s, k, d, p.N());
    assert Inv(p.Of(d), s.slices[d]);
    LocalBound(p.Of(d), k, dq, Tgt(p, s, d), s.slices[d].r.pd, s.gnt[d]);
    hide SysInv, CtlInv, Local, Others, NeedsGrant;
    var (n, u) := (p.N(), Phase(k) + 2);
    assert (n - 1) * (u + 1) == (n - 1) * u + (n - 1);
    assert ScriptBound(k, n) == k.q + k.clk + DownTail(k) + 1 + (n - 1) * (u + 1) + 1 + u + UpTail(k) + 1 + k.q + k.clk;
    assert 0 <= (n - 1) * u;
  }

  /** From a quiet state with no pending pulse: after every further quiet edge the domain is at
      rest or its rank has lost a cycle per cycle. */
  lemma {:induction false} RankRuns(
    p: SysParams, run: seq<Sys>, ins: seq<SysIn>, u: Limits, dq: nat, d: nat, j: nat, m: nat)
    requires IsSysRun(p, run, ins) && d < p.N() && j <= m < |run| && !run[j].bank.arm
    requires forall k :: j <= k < m ==> Quiet(ins[k], u)
    requires Reached(p, run[j]) && Reached(p, run[m])
    requires forall k :: j < k <= m ==> dq >= u.q || !Denied(run, k, d)
    ensures !run[m].bank.arm && run[m].bank.modeReq == run[j].bank.modeReq
    ensures AtRest(p, run[m], d) ||
            Rank(p, run[m], u, dq, d) + (m - j) <= Rank(p, run[j], u, dq, d)
  {
    hide Rank, AtRest, SysStep, Reached, SysInit;
    if m > j {
      RunReached(p, run, ins, m - 1);
      RankRuns(p, run, ins, u, dq, d, j, m - 1);
      assert SysStepAt(p, run, ins, m - 1);
      assert QuietStep(p, run[m - 1], ins[m - 1], run[m], u) by { Quietly(p, run, ins, u, m - 1); }
      StaysCalm(p, run[m - 1], ins[m - 1], run[m]);
      assert dq >= u.q || !Denied(run, m, d);
      RankFalls(p, run[m - 1], ins[m - 1], run[m], u, dq, d);
    }
  }

  ghost predicate Denied(run: seq<Sys>, k: nat, d: nat)
    requires k < |run|
  {
    d < |run[k].slices| && run[k].slices[d].r.pd.st.D_DENY?
  }

  lemma Quietly(p: SysParams, run: seq<Sys>, ins: seq<SysIn>, u: Limits, k: nat)
    requires IsSysRun(p, run, ins) && k < |ins| && Quiet(ins[k], u) && !run[k].bank.arm
    ensures QuietStep(p, run[k], ins[k], run[k + 1], u)
  {
    hide SysStep, SysInv, SysInit;
    assert SysStepAt(p, run, ins, k);
    RunReached(p, run, ins, k);
    RunReached(p, run, ins, k + 1);
  }

  /** Bounded liveness. If from cycle j on there is no PMU reset, no further request and no fault
      clear, and the effective delays and timeouts, which may change in every cycle, stay within
      limits u, then in cycle m every domain is at its target, in FAULT, or in ON after a deny, for
      every m from the script's bound for u on; TMO_QCH more if a deny may come. A request pulse may
      still be pending in cycle j itself. */
  lemma SettlesInTime(
    p: SysParams, run: seq<Sys>, ins: seq<SysIn>, u: Limits, dq: nat, d: nat, j: nat, m: nat)
    requires IsSysRun(p, run, ins) && d < p.N() && j <= m < |run|
    requires forall k :: j <= k < m ==> Quiet(ins[k], u)
    requires dq >= u.q || forall k :: j < k <= m ==> !Denied(run, k, d)
    requires j + ScriptBound(u, p.N()) + dq <= m
    ensures j < m && Shaped(p, run[m]) && AtRest(p, run[m], d)
    ensures run[m].bank.modeReq == run[j].bank.modeReq
  {
    hide Rank, SysInit, SysStep, ScriptBound, SysInv;
    RunReached(p, run, ins, j);
    RankBound(p, run[j], u, dq, d);
    assert j < m;
    RunReached(p, run, ins, j + 1);
    RunReached(p, run, ins, m);
    assert SysStepAt(p, run, ins, j);
    StaysCalm(p, run[j], ins[j], run[j + 1]);
    RankRuns(p, run, ins, u, dq, d, j + 1, m);
    RankBound(p, run[j + 1], u, dq, d);
    SizedSys(p, run[m]);
    SizedSys(p, run[j + 1]);
    if !AtRest(p, run[m], d) {
      RankPositive(p, run[m], u, dq, d);
    }
  }

  lemma SizedSys(p: SysParams, s: Sys)
    requires SysInv(p, s)
    ensures Shaped(p, s)
  {
  }

  lemma RankPositive(p: SysParams, s: Sys, k: Times, dq: nat, d: nat)
    requires Shaped(p, s) && k.Positive() && d < p.N() && !AtRest(p, s, d)
    ensures Rank(p, s, k, dq, d) >= 1
  {
    LocalPositive(k, dq, Tgt(p, s, d), s.slices[d].r.pd, s.gnt[d]);
  }

  lemma ArmedStays(p: Params, s: Slice, i: SliceIn, s': Slice)
    requires p.Ok() && Inv(p, s) && Step(p, s, i, s') && !i.reset && !s.r.pd.st.D_DENY?
    ensures s.r.pd.armed || i.arm ==> s'.r.pd.armed
  {
    hide Next;
    ArmedNext(p, s.r.pd, PdInputs(p, s.r, i));
  }

  /** Armed once and never denied, a domain stays armed. */
  lemma {:induction false} StaysArmed(
    p: SysParams, run: seq<Sys>, ins: seq<SysIn>, d: nat, j: nat, m: nat)
    requires IsSysRun(p, run, ins) && d < p.N() && j < m < |run|
    requires Shaped(p, run[j]) && (run[j].bank.arm || run[j].slices[d].r.pd.armed)
    requires forall k :: j <= k < m ==> Calm(ins[k])
    requires forall k :: j <= k <= m ==> !Denied(run, k, d)
    ensures Shaped(p, run[m]) && run[m].slices[d].r.pd.armed
  {
    hide SysInit, SysStep, Step, SysInv;
    RunShaped(p, run, ins, m);
    if m > j + 1 {
      StaysArmed(p, run, ins, d, j, m - 1);
    }
    RunReached(p, run, ins, m - 1);
    SliceStep(p, run, ins, m - 1, d);
    assert !Denied(run, m - 1, d) && Calm(ins[m - 1]);
    SliceInv(p, run[m - 1], d);
    ArmedStays(p.Of(d), run[m - 1].slices[d], SliceInput(p, run[m - 1], ins[m - 1], d), run[m].slices[d]);
  }

  lemma SliceInv(p: SysParams, s: Sys, d: nat)
    requires SysInv(p, s) && d < p.N()
    ensures Shaped(p, s) && Inv(p.Of(d), s.slices[d])
  {
  }

  /** Without a deny the script's own total holds, for every number of domains and every
      configuration within u: the domain is at its target or in FAULT, and stays so. */
  lemma ReachesTargetInTime(
    p: SysParams, run: seq<Sys>, ins: seq<SysIn>, u: Limits, d: nat, j: nat, m: nat)
    requires IsSysRun(p, run, ins) && d < p.N() && j <= m < |run|
    requires Shaped(p, run[j]) && (run[j].bank.arm || run[j].slices[d].r.pd.armed)
    requires forall k :: j <= k < m ==> Quiet(ins[k], u)
    requires forall k :: j <= k <= m ==> !Denied(run, k, d)
    requires j + ScriptBound(u, p.N()) <= m
    ensures Shaped(p, run[m]) && run[m].bank.modeReq == run[j].bank.modeReq
    ensures AtTgt(p, run[m], d) || run[m].slices[d].r.pd.st.S_FAULT?
  {
    hide SysInit, SysStep, Step, SysInv, ScriptBound;
    SettlesInTime(p, run, ins, u, 0, d, j, m);
    StaysArmed(p, run, ins, d, j, m);
  }
}
