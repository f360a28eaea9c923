/** The bound on the wait for the inrush grant is met, for every number of domains: at power-on all
    of them ask at once, and the last one waits for every other's longest switching phase. */
module LongestStay {
  import opened PmuTypes
  import opened DomainSlice
  import opened SliceInvariant
  import opened SliceSafety
  import opened InrushArb
  import opened ApbRegs
  import opened PmuTop
  import opened DomainRank
  import opened Liveness
  import opened Arbitration
  import opened Bench

  function UnitOf(n: nat): SysParams {
    SysParams(seq(n, _ => true), 2)
  }

  const IDLE_BUS: Bus := Bus(false, false, false, 0, 0)

  const IDLE: SysIn := SysIn(false, IDLE_BUS, false, Run, CFG)

  /** The domains are granted one after the other, eight cycles each. */
  predicate Granted(d: nat, k: nat) {
    2 + 8 * d <= k <= 9 + 8 * d
  }

  predicate Wants(d: nat, k: nat) {
    1 <= k <= 8 + 8 * d
  }

  function Grants(n: nat, k: nat): (g: seq<bool>)
    ensures |g| == n && forall d :: 0 <= d < n ==> g[d] == Granted(d, k)
  {
    seq(n, d requires 0 <= d => Granted(d, k))
  }

  function DomainIn(d: nat, k: nat): SliceIn {
    SliceIn(false, T_ON, false, false, CFG, Granted(d, k))
  }

  function DomainIns(d: nat, length: nat): (ins: seq<SliceIn>)
    ensures |ins| == length && NoResets(ins) && forall k :: 0 <= k < length ==> ins[k] == DomainIn(d, k)
  {
    seq(length, k requires 0 <= k => DomainIn(d, k))
  }

  /** Progress of domain d: it waits in U_ARB until its turn. */
  function Progress(d: nat, k: nat): nat {
    if k == 0 then 0 else if k <= 2 + 8 * d then 1 else if k - 1 - 8 * d <= 16 then k - 1 - 8 * d else 16
  }

  ghost predicate OnCourse(s: Slice, d: nat, k: nat) {
    UpAt(s, Progress(d, k)) && !s.r.pd.retValid
  }

  lemma CourseStep(s: Slice, d: nat, k: nat)
    requires Inv(DOMAIN, s) && Sized(DOMAIN, s.r) && OnCourse(s, d, k)
    ensures OnCourse(NextBench(s, DomainIn(d, k), false), d, k + 1)
  {
    var (i, o) := (DomainIn(d, k), Progress(d, k));
    hide NextBench, UpAt, Inv, Sized;
    if o == 1 && !i.gnt {
      GrantWaitStep(s, i, false);
    } else if o < 16 {
      UpStep(s, i, false, o);
    } else {
      OnStep(s, i, false);
    }
  }

  lemma {:induction false} Course(sl: seq<Slice>, ins: seq<SliceIn>, d: nat, k: nat)
    requires Plays(sl, ins, false) && k < |sl| && ins == DomainIns(d, |ins|)
    ensures OnCourse(sl[k], d, k)
  {
    hide NextBench, Inv, OnCourse, Plays, Sized;
    if k == 0 {
      StartsOnCourse(sl, ins, d);
    } else {
      PlayedOn(sl, ins, k - 1);
      Course(sl, ins, d, k - 1);
      CourseStep(sl[k - 1], d, k - 1);
    }
  }

  lemma StartsOnCourse(sl: seq<Slice>, ins: seq<SliceIn>, d: nat)
    requires Plays(sl, ins, false)
    ensures |sl| >= 1 && OnCourse(sl[0], d, 0)
  {
    hide Inv, NextBench;
  }

  lemma PlayedOn(sl: seq<Slice>, ins: seq<SliceIn>, k: nat)
    requires Plays(sl, ins, false) && k + 1 < |sl|
    ensures |sl| == |ins| + 1 && Inv(DOMAIN, sl[k]) && Sized(DOMAIN, sl[k].r)
    ensures sl[k + 1] == NextBench(sl[k], ins[k], false)
  {
    assert PlaysAt(sl, ins, false, k) && Driven(sl[k]);
    hide Inv, NextBench;
  }

  /** The arbiter hands the grant on, as long as somebody is left to receive it. */
  lemma GrantsMoveOn(n: nat, k: nat, req: seq<bool>)
    requires n >= 1 && k < 2 + 8 * (n - 1)
    requires |req| == n && forall d :: 0 <= d < n ==> req[d] == Wants(d, k)
    ensures NextGrant(Grants(n, k), req) == Grants(n, k + 1)
  {
    var (gnt, next) := (Grants(n, k), Grants(n, k + 1));
    if k < 2 {
      assert req[0] == (k == 1);
      assert forall d :: 0 <= d < n ==> next[d] == (k == 1 && d == 0) && Pick(req)[d] == next[d];
    } else {
      var h := (k - 2) / 8;
      assert forall d :: 0 <= d < n ==> (gnt[d] <==> d == h);
      if k <= 8 + 8 * h {
        assert gnt[h] && req[h];
        assert forall d :: 0 <= d < n ==> (next[d] <==> d == h);
      } else {
        assert h + 1 < n && req[h + 1];
        assert forall d :: 0 <= d < n ==> (req[d] <==> d > h) && (next[d] <==> d == h + 1);
        assert forall d :: 0 <= d < n ==> Pick(req)[d] == next[d];
      }
    }
  }

  /** What the rest of the unit sees of domain d. */
  lemma SeenByUnit(s: Slice, d: nat, k: nat)
    requires Inv(DOMAIN, s) && OnCourse(s, d, k)
    ensures s.r.pd.out.inrushReq <==> Wants(d, k)
    ensures !s.r.pd.evDeny && !s.r.pd.evFault
    ensures k <= 2 + 8 * d ==> !s.r.pd.st.S_ON? && (k > 0 ==> s.r.pd.st.U_ARB?)
  {
    assert s.r.pd.out == Table(s.r.pd.st);
    hide Channel, SwitchesOn;
  }

  /** The unit around its domains in cycle k. */
  function UnitAt(sls: seq<seq<Slice>>, k: nat): Sys
    requires forall d :: 0 <= d < |sls| ==> k < |sls[d]|
  {
    Sys(seq(|sls|, d requires 0 <= d < |sls| => sls[d][k]), Grants(|sls|, k), RESET_BANK, RESET_STATUS)
  }

  ghost predicate Together(sls: seq<seq<Slice>>, n: nat) {
    && n >= 1 && |sls| == n
    && forall d :: 0 <= d < n ==> |sls[d]| == 3 + 8 * (n - 1) && PlaysAlone(sls, d)
  }

  ghost predicate PlaysAlone(sls: seq<seq<Slice>>, d: nat)
    requires d < |sls| && |sls[d]| >= 1
  {
    Plays(sls[d], DomainIns(d, |sls[d]| - 1), false)
  }

  lemma DomainAt(sls: seq<seq<Slice>>, n: nat, d: nat, k: nat)
    requires Together(sls, n) && d < n && k <= 2 + 8 * (n - 1)
    ensures var s := sls[d][k];
            && Sized(DOMAIN, s.r) && (s.r.pd.out.inrushReq <==> Wants(d, k))
            && !s.r.pd.evDeny && !s.r.pd.evFault
            && (k <= 2 + 8 * d ==> !s.r.pd.st.S_ON? && (k > 0 ==> s.r.pd.st.U_ARB?))
  {
    assert PlaysAlone(sls, d);
    hide OnCourse, Inv;
    Course(sls[d], DomainIns(d, |sls[d]| - 1), d, k);
    assert Driven(sls[d][k]);
    SeenByUnit(sls[d][k], d, k);
  }

  /** Nothing happens in the bank while no domain has an event. */
  lemma BankStays(s: Sys)
    requires s.bank == RESET_BANK && s.status == RESET_STATUS
    requires forall d :: 0 <= d < |s.slices| ==> !s.slices[d].r.pd.evDeny && !s.slices[d].r.pd.evFault
    ensures NextBank(s.bank, IDLE_BUS, EventsOf(s, IDLE)) == RESET_BANK
  {
    var f := FaultPulses(s);
    assert FirstFault(f, 0) == |f|;
    assert !DenyPulse(s);
  }

  lemma StatusStays(sls: seq<seq<Slice>>, n: nat, k: nat)
    requires Together(sls, n) && k < 2 + 8 * (n - 1)
    ensures var s := UnitAt(sls, k);
            NextStatus(s.status, AllAtTarget(UnitOf(n), s), s.bank.arm, s.bank.modeReq) == RESET_STATUS
  {
    DomainAt(sls, n, n - 1, k);
    hide Together;
    assert !AtTgt(UnitOf(n), UnitAt(sls, k), n - 1);
  }

  lemma GrantsStep(sls: seq<seq<Slice>>, n: nat, k: nat)
    requires Together(sls, n) && k < 2 + 8 * (n - 1)
    ensures NextGrants(UnitAt(sls, k), IDLE) == Grants(n, k + 1)
  {
    var s := UnitAt(sls, k);
    forall d | 0 <= d < n
      ensures Requesting(s)[d] == Wants(d, k)
    {
      DomainAt(sls, n, d, k);
    }
    GrantsMoveOn(n, k, Requesting(s));
  }

  lemma DomainSteps(sls: seq<seq<Slice>>, n: nat, d: nat, k: nat)
    requires Together(sls, n) && d < n && k < 2 + 8 * (n - 1)
    ensures Step(UnitOf(n).Of(d), sls[d][k], SliceInput(UnitOf(n), UnitAt(sls, k), IDLE, d), sls[d][k + 1])
  {
    assert PlaysAlone(sls, d);
    var ins := DomainIns(d, |sls[d]| - 1);
    PlaysIsRun(sls[d], ins, false);
    hide Step, Plays;
    assert StepAt(DOMAIN, sls[d], ins, k);
    assert UnitOf(n).Of(d) == DOMAIN;
    assert SliceInput(UnitOf(n), UnitAt(sls, k), IDLE, d) == DomainIn(d, k);
  }

  /** The registers outside the domains. */
  lemma RestSteps(sls: seq<seq<Slice>>, n: nat, k: nat)
    requires Together(sls, n) && k < 2 + 8 * (n - 1)
    ensures var (s, s') := (UnitAt(sls, k), UnitAt(sls, k + 1));
            && s'.gnt == NextGrants(s, IDLE)
            && s'.bank == NextBank(s.bank, IDLE.bus, EventsOf(s, IDLE))
            && s'.status == NextStatus(s.status, AllAtTarget(UnitOf(n), s), s.bank.arm, s.bank.modeReq)
  {
    var s := UnitAt(sls, k);
    hide NextBank, EventsOf, NextStatus, NextGrants, AllAtTarget;
    forall d | 0 <= d < n
      ensures !s.slices[d].r.pd.evDeny && !s.slices[d].r.pd.evFault
    {
      DomainAt(sls, n, d, k);
    }
    BankStays(s);
    StatusStays(sls, n, k);
    GrantsStep(sls, n, k);
  }

  lemma UnitSteps(sls: seq<seq<Slice>>, n: nat, k: nat)
    requires Together(sls, n) && k < 2 + 8 * (n - 1)
    ensures SysStep(UnitOf(n), UnitAt(sls, k), IDLE, UnitAt(sls, k + 1))
  {
    RestSteps(sls, n, k);
    DomainsStep(sls, n, k);
    hide Step, NextBank, EventsOf, NextStatus, NextGrants, AllAtTarget, Grants, Together, Sized, SliceInput;
  }

  lemma DomainsStep(sls: seq<seq<Slice>>, n: nat, k: nat)
    requires Together(sls, n) && k < 2 + 8 * (n - 1)
    ensures var (p, s, s') := (UnitOf(n), UnitAt(sls, k), UnitAt(sls, k + 1));
            && Shaped(p, s)
            && forall d :: 0 <= d < n ==> Step(p.Of(d), s.slices[d], SliceInput(p, s, IDLE, d), s'.slices[d])
  {
    var s := UnitAt(sls, k);
    hide Step, Grants, PlaysAlone, Sized, SliceInput;
    forall d | 0 <= d < n
      ensures Step(UnitOf(n).Of(d), s.slices[d], SliceInput(UnitOf(n), s, IDLE, d), UnitAt(sls, k + 1).slices[d])
      ensures Sized(UnitOf(n).Of(d), s.slices[d].r)
    {
      DomainAt(sls, n, d, k);
      assert UnitOf(n).Of(d) == DOMAIN;
      DomainSteps(sls, n, d, k);
    }
  }

  lemma PlayAll(n: nat, m: nat) returns (sls: seq<seq<Slice>>)
    requires n >= 1 && m <= n
    ensures |sls| == m && forall d :: 0 <= d < m ==> |sls[d]| == 3 + 8 * (n - 1) && PlaysAlone(sls, d)
  {
    hide Plays;
    if m == 0 {
      sls := [];
    } else {
      var init := PlayAll(n, m - 1);
      var sl := Play(DomainIns(m - 1, 2 + 8 * (n - 1)), false);
      PlayLength(sl, DomainIns(m - 1, 2 + 8 * (n - 1)));
      sls := init + [sl];
      forall d | 0 <= d < m
        ensures |sls[d]| == 3 + 8 * (n - 1) && PlaysAlone(sls, d)
      {
        assert d < m - 1 ==> PlaysAlone(init, d);
      }
    }
  }

  lemma PlayLength(sl: seq<Slice>, ins: seq<SliceIn>)
    requires Plays(sl, ins, false)
    ensures |sl| == |ins| + 1
  {
  }

  lemma UnitStarts(sls: seq<seq<Slice>>, n: nat)
    requires Together(sls, n)
    ensures SysInit(UnitOf(n), UnitAt(sls, 0))
  {
    forall d | 0 <= d < n
      ensures Init(UnitOf(n).Of(d), UnitAt(sls, 0).slices[d])
    {
      assert PlaysAlone(sls, d);
      assert UnitOf(n).Of(d) == DOMAIN;
    }
  }

  /** For every number of domains there is a quiet run, from power-on, in which the last domain is
      in U_ARB for exactly as long as the bound allows. */
  lemma WaitIsAttained(n: nat) returns (run: seq<Sys>, ins: seq<SysIn>, last: nat)
    requires n >= 1
    ensures IsSysRun(UnitOf(n), run, ins) && UnitOf(n).N() == n && |run| == last + 1
    ensures forall k :: 0 <= k < |ins| ==> Quiet(ins[k], TimesOf(CFG))
    ensures forall k :: 0 <= k < |run| ==> |run[k].slices| == n && !run[k].bank.arm
    ensures forall k :: 1 <= k <= last ==> InArbitration(run[k], n - 1)
    ensures last == LongestWait(TimesOf(CFG), n)
  {
    var sls := PlayAll(n, n);
    last := 2 + 8 * (n - 1);
    run := seq(last + 1, k requires 0 <= k <= last => UnitAt(sls, k));
    ins := seq(last, _ => IDLE);
    hide SysStep, SysInit, PlaysAlone;
    UnitStarts(sls, n);
    forall k | 0 <= k < last
      ensures SysStepAt(UnitOf(n), run, ins, k)
    {
      UnitSteps(sls, n, k);
    }
    forall k | 1 <= k <= last
      ensures InArbitration(run[k], n - 1)
    {
      DomainAt(sls, n, n - 1, k);
    }
  }

  /** A domain is in U_ARB from a to b while nothing is requested or cleared. */
  ghost predicate QuietStay(
    p: SysParams, run: seq<Sys>, ins: seq<SysIn>, u: Limits, d: nat, a: nat, b: nat)
  {
    && IsSysRun(p, run, ins) && d < p.N() && a <= b < |run| && !run[a].bank.arm
    && (forall k :: a <= k < b ==> Quiet(ins[k], u))
    && (forall k :: a <= k <= b ==> InArbitration(run[k], d))
  }

  /** No quiet stay of a unit of n domains is longer than the arbiter term of the script. */
  ghost predicate TermCovers(n: nat) {
    forall p: SysParams, run, ins, u: Limits, d: nat, a: nat, b: nat ::
      p.N() == n && QuietStay(p, run, ins, u, d, a, b) ==>
        b - a + 1 <= ArbTerm(u, n)
  }

  /** The script's arbiter term bounds every quiet stay in U_ARB, over all runs and live configurations,
      if and only if there are at least two domains. */
  lemma TermCoversIffOthers(n: nat)
    requires n >= 1
    ensures TermCovers(n) <==> n >= 2
  {
    if n >= 2 {
      forall p: SysParams, run, ins, u: Limits, d: nat, a: nat, b: nat |
          p.N() == n && QuietStay(p, run, ins, u, d, a, b)
        ensures b - a + 1 <= ArbTerm(u, n)
      {
        StayFits(p, run, ins, u, d, a, b);
      }
    } else {
      var run, ins, last := WaitIsAttained(n);
      hide IsSysRun;
      assert QuietStay(UnitOf(n), run, ins, TimesOf(CFG), n - 1, 1, last);
      assert ArbTerm(TimesOf(CFG), 1) == 1 && last == 2;
    }
  }

  lemma StayFits(p: SysParams, run: seq<Sys>, ins: seq<SysIn>, u: Limits, d: nat, a: nat, b: nat)
    requires QuietStay(p, run, ins, u, d, a, b) && p.N() >= 2
    ensures b - a + 1 <= ArbTerm(u, p.N())
  {
    assert InArbitration(run[a], d) && InArbitration(run[b], d);
    hide SysInit, SysStep;
    RunShaped(p, run, ins, a);
    RunShaped(p, run, ins, b);
    WaitIsBounded(p, run, ins, u, d, a, b);
    ArbTermCovers(u, p.N());
    hide ArbTerm, LongestWait;
  }

  ghost predicate InArbitration(s: Sys, d: nat) {
    d < |s.slices| && s.slices[d].r.pd.st.U_ARB?
  }
}
