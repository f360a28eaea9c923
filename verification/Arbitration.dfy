/** What the rank says about the inrush arbitration: how long a domain can wait for the grant, and
    that it switches on at most once per request. */
module Arbitration {
  import opened PmuTypes
  import opened PdCtrl
  import opened DomainSlice
  import opened SliceInvariant
  import opened SequencerMoves
  import opened SliceSafety
  import opened InrushArb
  import opened PmuTop
  import opened InrushExclusion
  import opened DomainRank
  import opened Liveness

  /** The arbiter term of the script's total. */
  function ArbTerm(k: Times, n: nat): int {
    (n - 1) * ((k.psw + k.trk) + (k.psw + k.main) + 1) + 1
  }

  /** It is the part of the total that grows with the number of domains, and its one cycle for a
      lone domain; for three domains at the reset values of the registers it is 1051 cycles. */
  lemma ArbTermInTotal(k: Times, n: nat)
    ensures ArbTerm(k, n) == ScriptBound(k, n) - ScriptBound(k, 1) + 1
    ensures ArbTerm(TimesOf(Cfg(8, 4, 2, 2, 2, 2, 256, 256)), 3) == 1051
  {
    ScriptBoundSummed(k, n);
    ScriptBoundSummed(k, 1);
  }

  /** The longest stay in U_ARB. */
  function LongestWait(k: Times, n: nat): int
    requires k.Positive()
  {
    (n - 1) * (Phase(k) + 2) + 2
  }

  lemma WaitingRank(p: SysParams, s: Sys, k: Times, d: nat)
    requires SysInv(p, s) && k.Positive() && d < p.N() && s.slices[d].r.pd.st.U_ARB?
    ensures !AtRest(p, s, d)
    ensures var tail := Phase(k) + UpTail(k) + FromOn(k, k.q, Tgt(p, s, d));
            1 + tail <= Rank(p, s, k, k.q, d) <= LongestWait(k, p.N()) + tail
  {
    OthersBound(p, s, k, d, p.N());
    hide SysInv, Others, Phase, UpTail, FromOn;
    assert (p.N() - 1) * (Phase(k) + 2) >= 0;
  }

  /** In a quiet window a domain is in U_ARB for at most (N-1)*(P+2)+2 cycles, P being the longest
      switching phase, whatever the others do. */
  lemma WaitIsBounded(p: SysParams, run: seq<Sys>, ins: seq<SysIn>, u: Limits, d: nat, a: nat, b: nat)
    requires IsSysRun(p, run, ins) && d < p.N() && a <= b < |run| && !run[a].bank.arm
    requires forall k :: a <= k < b ==> Quiet(ins[k], u)
    requires Shaped(p, run[a]) && Shaped(p, run[b])
    requires run[a].slices[d].r.pd.st.U_ARB? && run[b].slices[d].r.pd.st.U_ARB?
    ensures b - a + 1 <= LongestWait(u, p.N())
  {
    hide Rank, AtRest, SysStep, SysInit, SysInv, LongestWait;
    var k := u;
    RunReached(p, run, ins, a);
    RunReached(p, run, ins, b);
    WaitingRank(p, run[a], k, d);
    WaitingRank(p, run[b], k, d);
    RankRuns(p, run, ins, u, k.q, d, a, b);
  }

  /** The script's arbiter term covers the longest wait exactly when there are other domains. */
  lemma ArbTermCovers(k: Times, n: nat)
    requires k.Positive() && n >= 1
    ensures LongestWait(k, n) <= ArbTerm(k, n) <==> n >= 2
  {
    var u := Phase(k) + 2;
    assert (n - 1) * (u + 1) == (n - 1) * u + (n - 1);
  }

  lemma EntersArbitration(p: Params, pd: Pd, i: PdIn)
    requires CtlInv(p, pd) && Next(p, pd, i).st.U_ARB? && !pd.st.U_ARB?
    ensures !Asking(pd.st)
  {
    hide Next, CtlInv;
    if MidSequence(pd.st) {
      SequenceMoves(p, pd, i);
    }
  }

  /** With one domain every arbitration takes two cycles; the script's term for it is one. */
  lemma LoneDomainWaitsTwo(p: SysParams, run: seq<Sys>, ins: seq<SysIn>, k: nat)
    requires IsSysRun(p, run, ins) && p.N() == 1 && k + 3 < |run|
    requires !ins[k].reset && !ins[k + 1].reset && !ins[k + 2].reset
    requires Shaped(p, run[k]) && Shaped(p, run[k + 1]) && Shaped(p, run[k + 2]) && Shaped(p, run[k + 3])
    requires !run[k].slices[0].r.pd.st.U_ARB? && run[k + 1].slices[0].r.pd.st.U_ARB?
    ensures run[k + 2].slices[0].r.pd.st.U_ARB? && run[k + 3].slices[0].r.pd.st.U_TRK_ON?
  {
    hide Next, Inv;
    forall j | k <= j < k + 3
      ensures LoneEdge(p, run[j], run[j + 1])
    {
      SysRunInv(p, run, ins, j);
      assert SysStepAt(p, run, ins, j);
      LoneStep(p, run[j], ins[j], run[j + 1]);
    }
    assert LoneEdge(p, run[k], run[k + 1]);
    assert LoneEdge(p, run[k + 1], run[k + 2]) && LoneEdge(p, run[k + 2], run[k + 3]);
  }

  /** One domain alone: the grant follows the request by one cycle. */
  ghost predicate LoneEdge(p: SysParams, s: Sys, s': Sys)
    requires Shaped(p, s) && Shaped(p, s')
  {
    var (st, st') := (s.slices[0].r.pd.st, s'.slices[0].r.pd.st);
    && (s'.gnt[0] <==> Asking(st))
    && (st.U_ARB? ==> st' == if s.gnt[0] then U_TRK_ON else U_ARB)
    && (!st.U_ARB? && st'.U_ARB? ==> !Asking(st))
  }

  lemma LoneGrant(gnt: seq<bool>, req: seq<bool>)
    requires |gnt| == |req| == 1
    ensures NextGrant(gnt, req)[0] == req[0]
  {
  }

  lemma LoneStep(p: SysParams, s: Sys, i: SysIn, s': Sys)
    requires p.N() == 1 && SysInv(p, s) && SysStep(p, s, i, s') && !i.reset
    ensures Shaped(p, s') && LoneEdge(p, s, s')
  {
    SysInvStep(p, s, i, s');
    AsksInPhase(p, s);
    hide Next, Device, Switches, Inv, NextStatus, AllAtTarget;
    LoneGrant(s.gnt, Requesting(s));
    var (q, t, si) := (p.Of(0), s.slices[0], SliceInput(p, s, i, 0));
    assert Inv(q, t) && Step(q, t, si, s'.slices[0]);
    var pi := PdInputs(q, t.r, si);
    if t.r.pd.st.U_ARB? {
      ArbitrationNext(q, t.r.pd, pi);
    } else if s'.slices[0].r.pd.st.U_ARB? {
      EntersArbitration(q, t.r.pd, pi);
    }
  }

  lemma {:induction false} AheadRuns(
    p: SysParams, run: seq<Sys>, ins: seq<SysIn>, u: Limits, d: nat, j: nat, m: nat)
    requires IsSysRun(p, run, ins) && d < p.N() && j <= m < |run| && !run[j].bank.arm
    requires forall k :: j <= k < m ==> Quiet(ins[k], u)
    requires Shaped(p, run[j]) && Shaped(p, run[m])
    ensures !run[m].bank.arm
    ensures AheadOf(p, run[m], u, d) <= AheadOf(p, run[j], u, d)
  {
    hide AheadOf, SysStep, SysInit, SysInv;
    if m > j {
      RunShaped(p, run, ins, m - 1);
      AheadRuns(p, run, ins, u, d, j, m - 1);
      assert SysStepAt(p, run, ins, m - 1);
      assert QuietStep(p, run[m - 1], ins[m - 1], run[m], u) by { Quietly(p, run, ins, u, m - 1); }
      StaysCalm(p, run[m - 1], ins[m - 1], run[m]);
      OneFalls(p, run[m - 1], ins[m - 1], run[m], u, d);
    }
  }

  lemma AheadMarks(k: Times, t: Target, pd: Pd, g: bool)
    requires k.Positive()
    ensures SwitchUp(pd.st) ==> 1 <= Ahead(k, t, pd, g) <= Phase(k)
    ensures pd.st.U_ARB? ==> Ahead(k, t, pd, g) > Phase(k)
    ensures !Asking(pd.st) ==> Ahead(k, t, pd, g) == 0 || Ahead(k, t, pd, g) > Phase(k)
  {
  }

  /** After the last request and fault clear each domain has at most one switching phase: once it
      is over, the domain neither arbitrates nor switches again. */
  lemma SwitchesAtMostOnce(
    p: SysParams, run: seq<Sys>, ins: seq<SysIn>, u: Limits, d: nat, j: nat, k: nat, m: nat)
    requires IsSysRun(p, run, ins) && d < p.N() && j < k <= m < |run| && !run[j].bank.arm
    requires forall i :: j <= i < m ==> Quiet(ins[i], u)
    requires Shaped(p, run[j]) && Shaped(p, run[k]) && Shaped(p, run[m])
    requires SwitchUp(run[j].slices[d].r.pd.st) && !SwitchUp(run[k].slices[d].r.pd.st)
    ensures !Asking(run[m].slices[d].r.pd.st)
  {
    hide SysStep, SysInit, Ahead, Quiet;
    AheadRuns(p, run, ins, u, d, j, k);
    AheadRuns(p, run, ins, u, d, k, m);
    AheadMarks(u, Tgt(p, run[j], d), run[j].slices[d].r.pd, run[j].gnt[d]);
    AheadMarks(u, Tgt(p, run[k], d), run[k].slices[d].r.pd, run[k].gnt[d]);
    AheadMarks(u, Tgt(p, run[m], d), run[m].slices[d].r.pd, run[m].gnt[d]);
  }
}
