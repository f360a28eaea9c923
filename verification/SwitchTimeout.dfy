/** Exactly when a power-switch step times out and exactly how long it takes otherwise, for all
    four switch steps, as a function of when the acknowledge really changes. */
module SwitchTimeout {
  import opened PmuTypes
  import opened PdCtrl
  import opened DomainSlice
  import opened SliceInvariant
  import opened SliceSafety

  predicate SwitchStep(st: St) {
    SwitchUp(st) || SwitchDown(st)
  }

  predicate OnTrickle(st: St) {
    st.U_TRK_ON? || st.D_TRK_OFF?
  }

  /** The acknowledge the step waits for has its new level on the pin. */
  predicate Acked(s: Slice, st: St) {
    (if OnTrickle(st) then s.pins.trkAck else s.pins.mainAck) == SwitchUp(st)
  }

  /** Cycles the acknowledge must be seen before the step ends, as programmed; 0 does not differ from 1. */
  function HoldOf(st: St, cfg: Cfg): u16 {
    if st.U_TRK_ON? then cfg.dlyTrickle else if st.U_MAIN_ON? then cfg.dlyMain else 1
  }

  predicate Follows(st: St, st': St) {
    match st
    case U_TRK_ON => st'.U_MAIN_ON?
    case U_MAIN_ON => st'.U_RESTORE? || st'.U_RST?
    case D_MAIN_OFF => st'.D_TRK_OFF?
    case D_TRK_OFF => st'.S_RET? || st'.S_OFF?
    case _ => false
  }

  /** The step st starts at cycle e; from then on there is no PMU reset; the acknowledge reaches
      its new level on the pin n cycles into the step. The configuration may change in every cycle. */
  ghost predicate Window(p: Params, run: seq<Slice>, ins: seq<SliceIn>, e: nat, st: St, n: nat)
    requires p.Ok()
  {
    && IsRun(p, run, ins) && 0 < e < |run| && SwitchStep(st)
    && run[e - 1].r.pd.st != st && run[e].r.pd.st == st
    && (forall k :: e - 1 <= k < |ins| ==> !ins[k].reset)
    && (forall k :: e <= k < |run| && k < e + n ==> !Acked(run[k], st))
    && (e + n < |run| ==> Acked(run[e + n], st))
  }

  ghost predicate AckedOver(run: seq<Slice>, st: St, lo: nat, hi: nat) {
    forall k :: lo <= k <= hi && k < |run| ==> Acked(run[k], st)
  }

  ghost predicate InState(run: seq<Slice>, st: St, lo: nat, hi: nat) {
    forall k :: lo <= k < hi && k < |run| ==> run[k].r.pd.st == st
  }

  predicate Heard(p: Params, pd: Pd, i: PdIn) {
    Trusted(p, pd) && (if OnTrickle(pd.st) then i.trickleAck else i.mainAck) == SwitchUp(pd.st)
  }

  lemma SwitchWaits(p: Params, pd: Pd, i: PdIn)
    requires CtlInv(p, pd) && SwitchStep(pd.st) && !Heard(p, pd, i)
    ensures var pd' := Next(p, pd, i);
            if Expired(i.cfg.tmoPsw, pd.cnt + 1) then FaultedIn(pd.st, pd')
            else pd'.st == pd.st && pd'.cnt == pd.cnt + 1 && (SwitchUp(pd.st) ==> pd'.hcnt == 0)
  {
  }

  lemma SwitchHears(p: Params, pd: Pd, i: PdIn)
    requires CtlInv(p, pd) && SwitchStep(pd.st) && Heard(p, pd, i)
    ensures var pd' := Next(p, pd, i);
            if SwitchDown(pd.st) || pd.hcnt + 1 >= HoldOf(pd.st, i.cfg) then Follows(pd.st, pd'.st)
            else pd'.st == pd.st && pd'.cnt == pd.cnt + 1 && pd'.hcnt == pd.hcnt + 1
  {
  }

  lemma LineMoves(p: Params, run: seq<Slice>, ins: seq<SliceIn>, k: nat, j: nat)
    requires p.Ok() && IsRun(p, run, ins) && j < p.stages && k < |ins| && !ins[k].reset
    ensures Sized(p, run[k].r) && Sized(p, run[k + 1].r)
    ensures run[k + 1].r.trk[j] == if j == 0 then run[k].pins.trkAck else run[k].r.trk[j - 1]
    ensures run[k + 1].r.main[j] == if j == 0 then run[k].pins.mainAck else run[k].r.main[j - 1]
  {
    assert StepAt(p, run, ins, k);
  }

  /** Without PMU reset, stage j shows the pin of j + 1 cycles earlier. */
  lemma {:induction false} StageIsHistory(p: Params, run: seq<Slice>, ins: seq<SliceIn>, k: nat, j: nat)
    requires p.Ok() && IsRun(p, run, ins) && j < p.stages && j < k < |run|
    requires forall m :: k - 1 - j <= m < k ==> !ins[m].reset
    ensures Sized(p, run[k].r)
    ensures run[k].r.trk[j] == run[k - 1 - j].pins.trkAck
    ensures run[k].r.main[j] == run[k - 1 - j].pins.mainAck
  {
    LineMoves(p, run, ins, k - 1, j);
    if j > 0 {
      StageIsHistory(p, run, ins, k - 1, j - 1);
    }
  }

  /** a cycles into the step the sequencer has counted a, and hcnt since the ack was heard; once
      past n the pin keeps its level. */
  ghost predicate InStep(p: Params, run: seq<Slice>, e: nat, st: St, n: nat, a: nat)
    requires e + a < |run|
  {
    var (pd, f) := (run[e + a].r.pd, n + p.stages);
    && pd.st == st && pd.cnt == a && (SwitchUp(st) ==> pd.hcnt == if a > f then a - f else 0)
    && AckedOver(run, st, e + n, e + a)
  }

  /** The last stage a cycles into the step. */
  lemma HeardWhen(p: Params, run: seq<Slice>, ins: seq<SliceIn>, e: nat, st: St, n: nat, a: nat)
    requires p.Ok() && Window(p, run, ins, e, st, n) && e + a < |ins|
    requires InStep(p, run, e, st, n, a)
    ensures Sized(p, run[e + a].r)
    ensures Heard(p, run[e + a].r.pd, PdInputs(p, run[e + a].r, ins[e + a])) <==> a >= n + p.stages
  {
    RunInv(p, run, ins, e + a);
    hide Next, RetInv, TargetInv;
    if a >= p.stages {
      StageIsHistory(p, run, ins, e + a, p.stages - 1);
      if a < n + p.stages {
        assert !Acked(run[e + a - p.stages], st);
      } else {
        assert Acked(run[e + a - p.stages], st);
      }
    }
  }

  /** Within the step the pin cannot leave its new level. */
  lemma StaysAcked(p: Params, s: Slice, i: SliceIn, s': Slice)
    requires p.Ok() && Inv(p, s) && Step(p, s, i, s') && SwitchStep(s.r.pd.st)
    requires Acked(s, s.r.pd.st)
    ensures Acked(s', s.r.pd.st)
  {
    hide Next, Device;
  }

  lemma StepBegins(p: Params, run: seq<Slice>, ins: seq<SliceIn>, e: nat, st: St, n: nat)
    requires p.Ok() && Window(p, run, ins, e, st, n)
    ensures InStep(p, run, e, st, n, 0)
  {
    hide Next, Device, Switches, RetInv, TargetInv, CounterInv;
    RunInv(p, run, ins, e - 1);
    assert StepAt(p, run, ins, e - 1);
    StepStarts(p, run[e - 1].r.pd, PdInputs(p, run[e - 1].r, ins[e - 1]));
  }

  /** The condition under which the step ends at the edge a cycles in, f being the age at which the
      acknowledge is heard: before, TMO_PSW as it is then; from then on, the hold as it is then. */
  predicate Ends(ins: seq<SliceIn>, e: nat, st: St, f: nat, k: nat)
    requires e <= k < |ins|
  {
    if k < e + f then Expired(ins[k].cfg.tmoPsw, k - e + 1)
    else k - e - f + 1 >= HoldOf(st, ins[k].cfg)
  }

  predicate NoneEnds(ins: seq<SliceIn>, e: nat, st: St, f: nat, m: nat)
    requires m <= |ins|
  {
    forall k :: e <= k < m ==> !Ends(ins, e, st, f, k)
  }

  /** One edge of the step, a cycles in. */
  lemma StepEdge(p: Params, run: seq<Slice>, ins: seq<SliceIn>, e: nat, st: St, n: nat, a: nat)
    requires p.Ok() && Window(p, run, ins, e, st, n) && e + a < |ins|
    requires InStep(p, run, e, st, n, a)
    ensures var (pd', f) := (run[e + a + 1].r.pd, n + p.stages);
            if !Ends(ins, e, st, f, e + a) then InStep(p, run, e, st, n, a + 1)
            else if a < f then FaultedIn(st, pd')
            else Follows(st, pd'.st)
  {
    hide Next, Switches, Device;
    var k := e + a;
    RunInv(p, run, ins, k);
    assert StepAt(p, run, ins, k);
    HeardWhen(p, run, ins, e, st, n, a);
    if a < n + p.stages {
      SwitchWaits(p, run[k].r.pd, PdInputs(p, run[k].r, ins[k]));
    } else {
      SwitchHears(p, run[k].r.pd, PdInputs(p, run[k].r, ins[k]));
    }
    if a >= n {
      StaysAcked(p, run[k], ins[k], run[k + 1]);
    }
  }

  /** A power-switch timeout in step st, just recorded. */
  predicate FaultedIn(st: St, pd: Pd) {
    && pd.st.S_FAULT? && !pd.fault.faultQ && pd.evFault
    && (st.U_TRK_ON? ==> pd.fault.step == PswTrickleOn)
    && (st.U_MAIN_ON? ==> pd.fault.step == PswMainOn)
    && (st.D_MAIN_OFF? ==> pd.fault.step == PswMainOff)
    && (st.D_TRK_OFF? ==> pd.fault.step == PswTrickleOff)
  }

  /** As long as the condition does not hold the step goes on. */
  lemma {:induction false} GoesOn(
    p: Params, run: seq<Slice>, ins: seq<SliceIn>, e: nat, st: St, n: nat, a: nat)
    requires p.Ok() && Window(p, run, ins, e, st, n) && e + a < |run|
    requires NoneEnds(ins, e, st, n + p.stages, e + a)
    ensures InStep(p, run, e, st, n, a)
    ensures InState(run, st, e, e + a + 1)
  {
    hide Step, Init, InStep;
    if a == 0 {
      StepBegins(p, run, ins, e, st, n);
    } else {
      GoesOn(p, run, ins, e, st, n, a - 1);
      StepEdge(p, run, ins, e, st, n, a - 1);
    }
    assert run[e + a].r.pd.st == st by { StepState(p, run, e, st, n, a); }
  }

  lemma StepState(p: Params, run: seq<Slice>, e: nat, st: St, n: nat, a: nat)
    requires e + a < |run| && InStep(p, run, e, st, n, a)
    ensures run[e + a].r.pd.st == st
  {
  }

  /** A switch whose acknowledge reaches its new level n cycles into the step times out in that
      step, after a + 1 cycles, if a is the first age at which the TMO_PSW in force then is at most
      a + 1, and a is less than n + SYNC_STAGES. */
  lemma LateAckFaults(p: Params, run: seq<Slice>, ins: seq<SliceIn>, e: nat, st: St, n: nat, a: nat)
    requires p.Ok() && Window(p, run, ins, e, st, n) && e + a < |ins| && a < n + p.stages
    requires forall k :: e <= k < e + a ==> !Expired(ins[k].cfg.tmoPsw, k - e + 1)
    requires Expired(ins[e + a].cfg.tmoPsw, a + 1)
    ensures InState(run, st, e, e + a + 1) && FaultedIn(st, run[e + a + 1].r.pd)
  {
    hide Step, Init, InStep;
    assert Ends(ins, e, st, n + p.stages, e + a);
    GoesOn(p, run, ins, e, st, n, a);
    StepEdge(p, run, ins, e, st, n, a);
  }

  /** Otherwise it does not fault: the ack is heard at age n + SYNC_STAGES, and the step goes on to
      the next one as soon as it has been heard for the hold in force then. */
  lemma TimelyAckPasses(p: Params, run: seq<Slice>, ins: seq<SliceIn>, e: nat, st: St, n: nat, b: nat)
    requires p.Ok() && Window(p, run, ins, e, st, n)
    requires var f := e + n + p.stages;
             && f + b < |ins|
             && (forall k :: e <= k < f ==> !Expired(ins[k].cfg.tmoPsw, k - e + 1))
             && (forall k :: f <= k < f + b ==> k - f + 1 < HoldOf(st, ins[k].cfg))
             && b + 1 >= HoldOf(st, ins[f + b].cfg)
    ensures var f := e + n + p.stages;
            InState(run, st, e, f + b + 1) && Follows(st, run[f + b + 1].r.pd.st)
  {
    hide Step, Init, InStep;
    var a := n + p.stages + b;
    assert Ends(ins, e, st, n + p.stages, e + a);
    GoesOn(p, run, ins, e, st, n, a);
    StepEdge(p, run, ins, e, st, n, a);
  }

  /** The step is left at cycle e + a, for st'. */
  ghost predicate LeavesTo(run: seq<Slice>, e: nat, st: St, a: nat, st': St) {
    && 0 < a && e + a < |run| && run[e + a].r.pd.st == st' && st' != st
    && InState(run, st, e, e + a)
  }

  /** While the state is st, its age and its counters agree. */
  lemma {:induction false} AgeInStep(
    p: Params, run: seq<Slice>, ins: seq<SliceIn>, e: nat, st: St, n: nat, a: nat)
    requires p.Ok() && Window(p, run, ins, e, st, n) && e + a < |run|
    requires InState(run, st, e, e + a + 1)
    ensures InStep(p, run, e, st, n, a)
  {
    hide Step, Init, InStep;
    if a == 0 {
      StepBegins(p, run, ins, e, st, n);
    } else {
      AgeInStep(p, run, ins, e, st, n, a - 1);
      StepEdge(p, run, ins, e, st, n, a - 1);
      assert run[e + a].r.pd.st == st;
      FollowsElsewhere(st);
    }
  }

  lemma FollowsElsewhere(st: St)
    ensures !Follows(st, st)
  {
  }

  /** The characterisation, under live configuration: the step ends in FAULT if and only if in some
      cycle of it before the acknowledge is heard, that is among its first n + SYNC_STAGES, the
      TMO_PSW in force is at most the age of the step. */
  lemma FaultIffLate(p: Params, run: seq<Slice>, ins: seq<SliceIn>, e: nat, st: St, n: nat)
    requires p.Ok() && Window(p, run, ins, e, st, n) && e + n + p.stages < |run|
    ensures (exists a: nat :: LeavesTo(run, e, st, a, S_FAULT)) <==>
            (exists k :: e <= k < e + n + p.stages && Expired(ins[k].cfg.tmoPsw, k - e + 1))
  {
    hide Step, Init, InStep;
    var f := n + p.stages;
    if k :| e <= k < e + f && Expired(ins[k].cfg.tmoPsw, k - e + 1) {
      var m := FirstLate(ins, e, k);
      LateAckFaults(p, run, ins, e, st, n, m - e);
      assert LeavesTo(run, e, st, m - e + 1, S_FAULT);
    }
    if a: nat :| LeavesTo(run, e, st, a, S_FAULT) {
      AgeInStep(p, run, ins, e, st, n, a - 1);
      StepEdge(p, run, ins, e, st, n, a - 1);
      assert !Follows(st, S_FAULT);
      var last := e + (a - 1);
      if !Ends(ins, e, st, f, last) {
        StepState(p, run, e, st, n, a);
      }
      assert e <= last < e + f && Expired(ins[last].cfg.tmoPsw, last - e + 1);
    }
  }

  lemma FirstLate(ins: seq<SliceIn>, e: nat, k: nat) returns (m: nat)
    requires e <= k < |ins| && Expired(ins[k].cfg.tmoPsw, k - e + 1)
    ensures e <= m <= k && Expired(ins[m].cfg.tmoPsw, m - e + 1)
    ensures forall j :: e <= j < m ==> !Expired(ins[j].cfg.tmoPsw, j - e + 1)
  {
    m := e;
    while !Expired(ins[m].cfg.tmoPsw, m - e + 1)
      invariant e <= m <= k && forall j :: e <= j < m ==> !Expired(ins[j].cfg.tmoPsw, j - e + 1)
      decreases k - m
    {
      m := m + 1;
    }
  }
}
