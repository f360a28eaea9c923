/** The invariant of the whole unit, and inrush exclusion for any number of domains: in no
    reachable state are two domains between their trickle and their main switch. */
module InrushExclusion {
  import opened PmuTypes
  import opened PdCtrl
  import opened DomainSlice
  import opened SliceInvariant
  import opened SequencerMoves
  import opened SliceSafety
  import opened InrushArb
  import opened PmuTop

  predicate Asking(st: St) {
    st.U_ARB? || SwitchUp(st)
  }

  /** Every slice satisfies its own invariant; a domain that is switching holds the grant. */
  ghost predicate SysInv(p: SysParams, s: Sys) {
    && Shaped(p, s) && OneHotOrZero(s.gnt)
    && (forall d :: 0 <= d < p.N() ==> Inv(p.Of(d), s.slices[d]))
    && (forall d :: 0 <= d < p.N() ==> SwitchUp(s.slices[d].r.pd.st) ==> s.gnt[d])
  }

  /** The request lines are high exactly from arbitration to the end of the switching phase. */
  lemma AsksInPhase(p: SysParams, s: Sys)
    requires SysInv(p, s)
    ensures forall d :: 0 <= d < p.N() ==> Requesting(s)[d] == Asking(s.slices[d].r.pd.st)
  {
    forall d | 0 <= d < p.N()
      ensures Requesting(s)[d] == Asking(s.slices[d].r.pd.st)
    {
      assert Inv(p.Of(d), s.slices[d]);
    }
  }

  lemma EntersByGrant(p: Params, pd: Pd, i: PdIn)
    requires CtlInv(p, pd) && SwitchUp(Next(p, pd, i).st)
    ensures SwitchUp(pd.st) || (pd.st.U_ARB? && i.gnt)
  {
    if pd.st.U_ARB? {
      assert !i.gnt ==> Next(p, pd, i).st.U_ARB?;
    } else {
      hide Next;
      if MidSequence(pd.st) {
        SequenceMoves(p, pd, i);
      } else if Stable(pd.st) {
        StableMoves(p, pd, i);
      } else {
        FaultMoves(p, pd, i);
      }
    }
  }

  lemma SliceOfStep(p: SysParams, s: Sys, i: SysIn, s': Sys, d: nat)
    requires SysInv(p, s) && SysStep(p, s, i, s') && d < p.N()
    ensures Inv(p.Of(d), s'.slices[d])
    ensures !i.reset && SwitchUp(s'.slices[d].r.pd.st) ==> Asking(s.slices[d].r.pd.st) && s.gnt[d]
    ensures i.reset ==> !SwitchUp(s'.slices[d].r.pd.st)
  {
    hide Next;
    var (q, t, si) := (p.Of(d), s.slices[d], SliceInput(p, s, i, d));
    assert Step(q, t, si, s'.slices[d]);
    InvStep(q, t, si, s'.slices[d]);
    if !i.reset && SwitchUp(s'.slices[d].r.pd.st) {
      EntersByGrant(q, t.r.pd, PdInputs(q, t.r, si));
    }
  }

  lemma SysInvStep(p: SysParams, s: Sys, i: SysIn, s': Sys)
    requires SysInv(p, s) && SysStep(p, s, i, s')
    ensures SysInv(p, s')
  {
    hide Step, Inv, NextGrant;
    forall d | 0 <= d < p.N()
      ensures Inv(p.Of(d), s'.slices[d])
      ensures !i.reset && SwitchUp(s'.slices[d].r.pd.st) ==> Asking(s.slices[d].r.pd.st) && s.gnt[d]
      ensures i.reset ==> !SwitchUp(s'.slices[d].r.pd.st)
    {
      SliceOfStep(p, s, i, s', d);
    }
    SizedByInv(p, s');
    AsksInPhase(p, s);
    ArbiterLaw(s.gnt, Requesting(s));
  }

  lemma SizedByInv(p: SysParams, s: Sys)
    requires p.Ok() && |s.slices| == p.N() && forall d :: 0 <= d < p.N() ==> Inv(p.Of(d), s.slices[d])
    ensures forall d :: 0 <= d < p.N() ==> Sized(p.Of(d), s.slices[d].r)
  {
    hide CtlInv;
  }

  lemma SysInvInit(p: SysParams, s: Sys)
    requires SysInit(p, s)
    ensures SysInv(p, s)
  {
    forall d | 0 <= d < p.N()
      ensures Inv(p.Of(d), s.slices[d]) && !SwitchUp(s.slices[d].r.pd.st)
    {
      InvInit(p.Of(d), s.slices[d]);
    }
    hide Inv, Init;
    SizedByInv(p, s);
  }

  /** Every state of every run of the unit satisfies the invariant. */
  lemma {:induction false} SysRunInv(p: SysParams, run: seq<Sys>, ins: seq<SysIn>, k: nat)
    requires IsSysRun(p, run, ins) && k < |run|
    ensures SysInv(p, run[k])
  {
    hide SysInv, SysInit, SysStep;
    if k == 0 {
      SysInvInit(p, run[0]);
    } else {
      SysRunInv(p, run, ins, k - 1);
      assert SysStepAt(p, run, ins, k - 1);
      SysInvStep(p, run[k - 1], ins[k - 1], run[k]);
    }
  }

  /** In every cycle of every run at most one domain is switching, and it holds the grant. */
  lemma OneSwitchingAtATime(p: SysParams, run: seq<Sys>, ins: seq<SysIn>, k: nat, d: nat, e: nat)
    requires IsSysRun(p, run, ins) && k < |run| && d < p.N() && e < p.N()
    ensures Shaped(p, run[k])
    ensures SwitchUp(run[k].slices[d].r.pd.st) ==> run[k].gnt[d]
    ensures SwitchUp(run[k].slices[d].r.pd.st) && SwitchUp(run[k].slices[e].r.pd.st) ==> d == e
  {
    SysRunInv(p, run, ins, k);
    hide Inv;
  }

  /** Without a PMU reset the grant of a domain that is arbitrating or switching is not taken from
      it, and no other domain is granted. */
  lemma GrantIsNeverTaken(p: SysParams, run: seq<Sys>, ins: seq<SysIn>, k: nat, d: nat, e: nat)
    requires IsSysRun(p, run, ins) && k < |ins| && !ins[k].reset && d < p.N() && e < p.N()
    ensures Shaped(p, run[k]) && Shaped(p, run[k + 1])
    ensures run[k].gnt[d] && Asking(run[k].slices[d].r.pd.st) ==> (run[k + 1].gnt[e] <==> e == d)
  {
    hide Inv, Step;
    SysRunInv(p, run, ins, k);
    SysRunInv(p, run, ins, k + 1);
    assert SysStepAt(p, run, ins, k);
    AsksInPhase(p, run[k]);
    ArbiterLaw(run[k].gnt, Requesting(run[k]));
  }

  /** A grant that nobody in a power-up holds goes to the arbitrating domain of lowest index, and
      to nobody if no domain arbitrates. */
  lemma FreeGrantGoesToLowest(p: SysParams, run: seq<Sys>, ins: seq<SysIn>, k: nat, d: nat)
    requires IsSysRun(p, run, ins) && k < |ins| && !ins[k].reset && d < p.N()
    ensures Shaped(p, run[k]) && Shaped(p, run[k + 1])
    ensures (forall e :: 0 <= e < p.N() ==> run[k].gnt[e] ==> !Asking(run[k].slices[e].r.pd.st)) ==>
              (run[k + 1].gnt[d] <==>
                 && run[k].slices[d].r.pd.st.U_ARB?
                 && forall e :: 0 <= e < d ==> !run[k].slices[e].r.pd.st.U_ARB?)
  {
    hide Inv, Step;
    SysRunInv(p, run, ins, k);
    SysRunInv(p, run, ins, k + 1);
    assert SysStepAt(p, run, ins, k);
    AsksInPhase(p, run[k]);
    ArbiterLaw(run[k].gnt, Requesting(run[k]));
  }
}
