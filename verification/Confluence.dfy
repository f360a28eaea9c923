/** Confluence: where one request leads from rest does not depend on ack latencies, delays, the
    order of arbitration or the interleaving of the domains. */
module Confluence {
  import opened PmuTypes
  import opened PdCtrl
  import opened DomainSlice
  import opened SliceInvariant
  import opened SequencerMoves
  import opened SliceSafety
  import opened PmuTop
  import opened InrushExclusion
  import opened DomainRank
  import opened StatusTruth
  import opened RegisterHistory
  import opened Liveness

  function States(s: Sys): (r: seq<St>)
    ensures |r| == |s.slices|
  {
    seq(|s.slices|, d requires 0 <= d < |s.slices| => s.slices[d].r.pd.st)
  }

  /** Where retention is asked for: a domain that is OFF stays there, one without retention goes OFF. */
  function Retained(before: St, hasRet: bool): St {
    if before.S_OFF? || !hasRet then S_OFF else S_RET
  }

  /** The mode table by its results: the state a request for `mode` ends in for domain d (0 the CPU,
      1 the DSP, from 2 on the peripherals), from the state `before` and the domain's retention. */
  function EndState(mode: Mode, d: nat, before: St, hasRet: bool): St {
    match mode
    case Run => S_ON
    case Idle => if d >= 2 then S_ON else S_CG
    case Sleep => if d >= 2 then S_CG else Retained(before, hasRet)
    case DeepSleep => if d >= 1 then S_OFF else Retained(before, hasRet)
    case Shutdown => S_OFF
  }

  /** The states a request for `mode` ends in. */
  function ExpectStates(hasRet: seq<bool>, before: seq<St>, mode: Mode): (r: seq<St>)
    requires |before| == |hasRet|
    ensures |r| == |before|
    ensures forall d :: 0 <= d < |before| ==> r[d] == EndState(mode, d, before[d], hasRet[d])
  {
    seq(|before|, d requires 0 <= d < |before| => EndState(mode, d, before[d], hasRet[d]))
  }

  /** The table of results is what satisfying the target means: a domain that satisfies its target
      does not move, any other ends in the state its target names. */
  lemma EndStateMeetsTarget(mode: Mode, d: nat, before: St, hasRet: bool)
    ensures var t := Effective(hasRet, TargetIn(mode, d));
            && Satisfies(EndState(mode, d, before, hasRet), t)
            && EndState(mode, d, before, hasRet) == if Satisfies(before, t) then before else StateOf(t)
  {
  }

  /** On the way from ON or clock gating to retention. */
  predicate TowardsRet(pd: Pd) {
    pd.st.S_ON? || pd.st.S_CG? || pd.st.S_RET? ||
    (pd.seqTgt.T_RET? && (pd.st.D_QWAIT? || pd.st.D_CLK? || pd.st.D_ISO? || pd.st.D_SAVE? ||
                          pd.st.D_RST? || pd.st.D_MAIN_OFF? || pd.st.D_TRK_OFF?))
  }

  /** What one domain keeps on its way: it has not moved, or it is past its start on the only path
      to its target. */
  ghost predicate OnPath(before: St, t: Target, pd: Pd) {
    if Satisfies(before, t) then pd.st == before
    else t.T_RET? && before != S_OFF ==> TowardsRet(pd)
  }

  lemma PathStep(p: Params, pd: Pd, i: PdIn, before: St, t: Target)
    requires CtlInv(p, pd) && CalmIn(p, i, t) && OnPath(before, t, pd)
    requires !Next(p, pd, i).st.S_FAULT? && !Next(p, pd, i).st.D_DENY?
    requires Satisfies(before, t) ==> Stable(before)
    ensures OnPath(before, t, Next(p, pd, i))
  {
    hide Next, CtlInv;
    if Satisfies(before, t) {
      SettledStays(p, pd, i, t);
    } else if t.T_RET? && before != S_OFF {
      if Stable(pd.st) {
        StableMoves(p, pd, i);
      } else {
        SequenceMoves(p, pd, i);
      }
    }
  }

  /** The first edge may still carry the request pulse; it moves no domain that is at its target. */
  lemma PathStart(p: Params, pd: Pd, i: PdIn, t: Target)
    requires CtlInv(p, pd) && Stable(pd.st) && Effective(p.hasRet, i.tgt) == t
    requires t.T_RET? ==> p.hasRet
    ensures OnPath(pd.st, t, Next(p, pd, i))
  {
    hide Next, CtlInv;
    StableMoves(p, pd, i);
  }

  /** No domain sees a deny or a fault in cycle k. */
  predicate Undisturbed(s: Sys) {
    forall d :: 0 <= d < |s.slices| ==> !s.slices[d].r.pd.st.D_DENY? && !s.slices[d].r.pd.st.S_FAULT?
  }

  lemma {:induction false} PathRuns(
    p: SysParams, run: seq<Sys>, ins: seq<SysIn>, d: nat, j: nat, m: nat)
    requires IsSysRun(p, run, ins) && d < p.N() && j < m < |run|
    requires Shaped(p, run[j]) && Shaped(p, run[m]) && Stable(run[j].slices[d].r.pd.st)
    requires forall k :: j <= k < m ==> Calm(ins[k])
    requires forall k :: j <= k <= m ==> Undisturbed(run[k])
    ensures !run[m].bank.arm && run[m].bank.modeReq == run[j].bank.modeReq
    ensures OnPath(run[j].slices[d].r.pd.st, Tgt(p, run[j], d), run[m].slices[d].r.pd)
  {
    hide SysInit, SysInv, SysStep, OnPath, Next, CtlInv, Inv;
    SysRunInv(p, run, ins, m - 1);
    SizedSys(p, run[m - 1]);
    assert SysStepAt(p, run, ins, m - 1);
    StaysCalm(p, run[m - 1], ins[m - 1], run[m]);
    if m == j + 1 {
      FirstEdge(p, run[j], ins[j], run[m], d);
    } else {
      PathRuns(p, run, ins, d, j, m - 1);
      assert Undisturbed(run[m]);
      var pi := CalmSlice(p, run[m - 1], ins[m - 1], run[m], d);
      PathStep(p.Of(d), run[m - 1].slices[d].r.pd, pi, run[j].slices[d].r.pd.st, Tgt(p, run[j], d));
    }
  }

  lemma FirstEdge(p: SysParams, s: Sys, i: SysIn, s': Sys, d: nat)
    requires SysInv(p, s) && SysStep(p, s, i, s') && Calm(i) && d < p.N() && Stable(s.slices[d].r.pd.st)
    ensures OnPath(s.slices[d].r.pd.st, Tgt(p, s, d), s'.slices[d].r.pd)
  {
    hide Next, CtlInv, OnPath;
    var si := SliceInput(p, s, i, d);
    assert Step(p.Of(d), s.slices[d], si, s'.slices[d]);
    assert Inv(p.Of(d), s.slices[d]);
    PathStart(p.Of(d), s.slices[d].r.pd, PdInputs(p.Of(d), s.slices[d].r, si), Tgt(p, s, d));
  }

  /** Where a request leads, under any configuration however it changes: after an undisturbed
      request from rest a domain that is at its target is in exactly the expected state. */
  lemma EndsAsExpected(p: SysParams, run: seq<Sys>, ins: seq<SysIn>, d: nat, j: nat, m: nat)
    requires IsSysRun(p, run, ins) && d < p.N() && j <= m < |run|
    requires Shaped(p, run[j]) && Shaped(p, run[m]) && Stable(run[j].slices[d].r.pd.st)
    requires forall k :: j <= k < m ==> Calm(ins[k])
    requires forall k :: j <= k <= m ==> Undisturbed(run[k])
    ensures AtTgt(p, run[m], d) ==>
              run[m].slices[d].r.pd.st == ExpectStates(p.hasRet, States(run[j]), run[j].bank.modeReq)[d]
  {
    hide SysInit, SysInv, SysStep, Calm, Undisturbed, EndState;
    if j < m {
      PathRuns(p, run, ins, d, j, m);
    }
    EndStateMeetsTarget(run[j].bank.modeReq, d, run[j].slices[d].r.pd.st, p.hasRet[d]);
  }

  /** Confluence under live configuration: from an all-stable cycle j, with no deny, fault, PMU
      reset, fault clear or further request from then on, the unit is in exactly the expected
      states whenever all its domains are at their targets. */
  lemma RequestIsConfluent(p: SysParams, run: seq<Sys>, ins: seq<SysIn>, j: nat, m: nat)
    requires IsSysRun(p, run, ins) && j <= m < |run|
    requires Shaped(p, run[j]) && Shaped(p, run[m])
    requires forall d :: 0 <= d < p.N() ==> Stable(States(run[j])[d])
    requires forall k :: j <= k < m ==> Calm(ins[k])
    requires forall k :: j <= k <= m ==> Undisturbed(run[k])
    ensures AllAtTarget(p, run[m]) ==>
              States(run[m]) == ExpectStates(p.hasRet, States(run[j]), run[j].bank.modeReq)
  {
    hide SysInit, SysInv, SysStep, Calm, Undisturbed;
    if AllAtTarget(p, run[m]) {
      forall d | 0 <= d < p.N()
        ensures States(run[m])[d] == ExpectStates(p.hasRet, States(run[j]), run[j].bank.modeReq)[d]
      {
        assert Stable(States(run[j])[d]) && AtTgt(p, run[m], d);
        EndsAsExpected(p, run, ins, d, j, m);
      }
    }
  }

  lemma Reaches(p: SysParams, run: seq<Sys>, ins: seq<SysIn>, u: Limits, j: nat, m: nat)
    requires IsSysRun(p, run, ins) && j <= m < |run| && Shaped(p, run[j]) && run[j].bank.arm
    requires forall k :: j <= k < m ==> Quiet(ins[k], u)
    requires forall k :: j <= k <= m ==> Undisturbed(run[k])
    requires j + ScriptBound(u, p.N()) <= m
    ensures Shaped(p, run[m]) && AllAtTarget(p, run[m])
  {
    hide SysInit, SysInv, SysStep, Quiet, ScriptBound;
    RunShaped(p, run, ins, m);
    forall d | 0 <= d < p.N()
      ensures AtTgt(p, run[m], d)
    {
      forall k | j <= k <= m
        ensures !Denied(run, k, d)
      {
        assert Undisturbed(run[k]);
      }
      SettlesInTime(p, run, ins, u, 0, d, j, m);
      ReachesTargetInTime(p, run, ins, u, d, j, m);
      assert Undisturbed(run[m]);
    }
  }

  /** And it gets there: with the delays and timeouts within limits u, constant or not, the expected
      vector is reached within the bound for u and never left. */
  lemma RequestIsServed(p: SysParams, run: seq<Sys>, ins: seq<SysIn>, u: Limits, j: nat, m: nat)
    requires IsSysRun(p, run, ins) && j <= m < |run| && Shaped(p, run[j]) && run[j].bank.arm
    requires forall d :: 0 <= d < p.N() ==> Stable(States(run[j])[d])
    requires forall k :: j <= k < m ==> Quiet(ins[k], u)
    requires forall k :: j <= k <= m ==> Undisturbed(run[k])
    requires j + ScriptBound(u, p.N()) <= m
    ensures States(run[m]) == ExpectStates(p.hasRet, States(run[j]), run[j].bank.modeReq)
    ensures Shaped(p, run[m]) && AllAtTarget(p, run[m])
  {
    hide SysInit, SysInv, SysStep, ScriptBound, Calm, Undisturbed;
    Reaches(p, run, ins, u, j, m);
    RequestIsConfluent(p, run, ins, j, m);
  }

  lemma FirstMet(p: SysParams, run: seq<Sys>, j: nat, m: nat) returns (k: nat)
    requires AllOk(p, run) && j <= m < |run| && Met(p, run, m)
    ensures j <= k <= m && Met(p, run, k) && forall i :: j <= i < k ==> !Met(p, run, i)
  {
    k := j;
    while !Met(p, run, k)
      invariant j <= k <= m && forall i :: j <= i < k ==> !Met(p, run, i)
      decreases m - k
    {
      k := k + 1;
    }
  }

  /** After the pulse of a request in cycle j and with no other pulse or reset up to m, the batch
      of every cycle in between starts at j + 1. */
  lemma {:induction false} OneBatch(p: SysParams, run: seq<Sys>, ins: seq<SysIn>, j: nat, m: nat)
    requires IsSysRun(p, run, ins) && j < m < |run| && run[j].bank.arm
    requires forall k :: j <= k < m ==> Calm(ins[k])
    ensures BatchStart(run, ins, m) == j + 1
    ensures m > j + 1 ==> !run[m - 1].bank.arm
  {
    hide SysStep, SysInit;
    if m > j + 1 {
      OneBatch(p, run, ins, j, m - 1);
      assert SysStepAt(p, run, ins, m - 2);
      StaysCalm(p, run[m - 2], ins[m - 2], run[m - 1]);
    }
  }

  lemma MetAtBound(p: SysParams, run: seq<Sys>, ins: seq<SysIn>, u: Limits, j: nat)
    requires IsSysRun(p, run, ins) && AllOk(p, run) && j < |run| && Shaped(p, run[j]) && run[j].bank.arm
    requires var m := j + ScriptBound(u, p.N());
             && j <= m < |run| && (forall i :: j <= i < m ==> Quiet(ins[i], u))
             && (forall i :: j <= i <= m ==> Undisturbed(run[i]))
    ensures Met(p, run, j + ScriptBound(u, p.N()))
  {
    hide SysInit, SysInv, SysStep, ScriptBound, Undisturbed;
    Reaches(p, run, ins, u, j, j + ScriptBound(u, p.N()));
  }

  /** One undisturbed request, one DONE: it comes exactly once, within the bound, and raises
      IRQ_STATUS.DONE in the next cycle. */
  lemma RequestIsDoneOnce(p: SysParams, run: seq<Sys>, ins: seq<SysIn>, u: Limits, j: nat, m: nat)
    returns (k: nat)
    requires IsSysRun(p, run, ins) && j <= m < |run| && Shaped(p, run[j]) && run[j].bank.arm
    requires forall i :: j <= i < m ==> Quiet(ins[i], u)
    requires forall i :: j <= i <= m ==> Undisturbed(run[i])
    requires j + ScriptBound(u, p.N()) + 2 <= m
    ensures j < k <= j + ScriptBound(u, p.N()) + 1 && k < m
    ensures run[k].status.evDone && run[k + 1].bank.irq.done
    ensures forall i :: j < i <= m && i != k ==> !run[i].status.evDone
  {
    hide SysInit, SysInv, SysStep, ScriptBound, Undisturbed, Met, AllAtTarget;
    var b := ScriptBound(u, p.N());
    ScriptBoundPositive(u, p.N());
    RunAllOk(p, run, ins);
    var first := j + 1;
    MetAtBound(p, run, ins, u, j);
    var met := FirstMet(p, run, first, j + b);
    k := met + 1;
    forall i | j < i <= m
      ensures run[i].status.evDone <==> i == k
    {
      OneBatch(p, run, ins, j, i);
      DoneIffFirstMet(p, run, ins, i);
    }
    assert run[k].status.evDone;
    BitStep(p, run, ins, DoneBit, k);
    assert Event(run, ins, DoneBit, k) && !ins[k].reset;
  }
}
