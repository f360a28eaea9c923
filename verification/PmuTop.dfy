/** The whole unit: the domain slices, the inrush arbiter, the request and fault registers and the
    system status, clocked together. */
module PmuTop {
  import opened PmuTypes
  import opened PdCtrl
  import opened DomainSlice
  import opened InrushArb
  import opened ApbRegs

  /** HAS_RET per domain and the synchroniser depth; at least one domain. */
  datatype SysParams = SysParams(hasRet: seq<bool>, stages: nat) {
    predicate Ok() {
      |hasRet| >= 1 && 2 <= stages < CNT_WRAP
    }

    function N(): nat {
      |hasRet|
    }

    function Of(d: nat): (p: Params)
      requires Ok() && d < N()
      ensures p.Ok() && p.hasRet == hasRet[d] && p.stages == stages
    {
      Params(hasRet[d], stages)
    }
  }

  datatype Status = Status(modeCur: Mode, donePending: bool, evDone: bool)

  const RESET_STATUS: Status := Status(Shutdown, true, false)

  datatype Sys = Sys(slices: seq<Slice>, gnt: seq<bool>, bank: Bank, status: Status)

  /** Inputs of one clock edge; the configuration registers may change in every cycle. */
  datatype SysIn = SysIn(reset: bool, bus: Bus, wakeEvt: bool, wakeMode: Mode, cfg: Cfg)

  ghost predicate Shaped(p: SysParams, s: Sys) {
    && p.Ok() && |s.slices| == p.N() && |s.gnt| == p.N()
    && forall d :: 0 <= d < p.N() ==> Sized(p.Of(d), s.slices[d].r)
  }

  function Requesting(s: Sys): (r: seq<bool>)
    ensures |r| == |s.slices|
  {
    seq(|s.slices|, d requires 0 <= d < |s.slices| => s.slices[d].r.pd.out.inrushReq)
  }

  function FaultPulses(s: Sys): (r: seq<bool>)
    ensures |r| == |s.slices|
  {
    seq(|s.slices|, d requires 0 <= d < |s.slices| => s.slices[d].r.pd.evFault)
  }

  function FaultSteps(s: Sys): (r: seq<FaultStep>)
    ensures |r| == |s.slices|
  {
    seq(|s.slices|, d requires 0 <= d < |s.slices| => s.slices[d].r.pd.fault.step)
  }

  predicate DenyPulse(s: Sys) {
    exists d :: 0 <= d < |s.slices| && s.slices[d].r.pd.evDeny
  }

  /** Domain d satisfies the mode requested now. */
  predicate AtTgt(p: SysParams, s: Sys, d: nat)
    requires p.Ok() && d < p.N() == |s.slices|
  {
    AtTarget(p.Of(d), s.slices[d].r.pd, TargetIn(s.bank.modeReq, d))
  }

  predicate AllAtTarget(p: SysParams, s: Sys)
    requires p.Ok() && p.N() == |s.slices|
  {
    forall d :: 0 <= d < p.N() ==> AtTgt(p, s, d)
  }

  /** MODE_STATUS.BUSY. */
  predicate Busy(p: SysParams, s: Sys)
    requires p.Ok() && p.N() == |s.slices|
  {
    exists d :: 0 <= d < p.N() && s.slices[d].r.pd.armed && !AtTgt(p, s, d)
  }

  /** MODE_STATUS.MISMATCH. */
  predicate Mismatch(p: SysParams, s: Sys)
    requires p.Ok() && p.N() == |s.slices|
  {
    !Busy(p, s) && !AllAtTarget(p, s)
  }

  /** What domain d sees at this edge: registered request and grant, combinational fault clear. */
  function SliceInput(p: SysParams, s: Sys, i: SysIn, d: nat): SliceIn
    requires d < |s.gnt|
  {
    SliceIn(i.reset, TargetIn(s.bank.modeReq, d), s.bank.arm, FaultClear(i.bus), i.cfg, s.gnt[d])
  }

  function EventsOf(s: Sys, i: SysIn): Events {
    Events(i.wakeEvt, i.wakeMode, s.status.evDone, DenyPulse(s), FaultPulses(s), FaultSteps(s))
  }

  function NextStatus(t: Status, allAtTgt: bool, arm: bool, modeReq: Mode): Status {
    Status(
      if allAtTgt then modeReq else t.modeCur,
      arm || (t.donePending && !allAtTgt),
      !arm && t.donePending && allAtTgt)
  }

  /** Everything but the slices. */
  function NextGrants(s: Sys, i: SysIn): (g: seq<bool>)
    requires |s.gnt| == |s.slices|
    ensures |g| == |s.slices|
  {
    if i.reset then seq(|s.slices|, _ => false) else NextGrant(s.gnt, Requesting(s))
  }

  ghost predicate SysInit(p: SysParams, s: Sys) {
    && p.Ok() && |s.slices| == p.N()
    && (forall d :: 0 <= d < p.N() ==> Init(p.Of(d), s.slices[d]))
    && s.gnt == seq(p.N(), _ => false)
    && s.bank == RESET_BANK && s.status == RESET_STATUS
  }

  ghost predicate SysStep(p: SysParams, s: Sys, i: SysIn, s': Sys) {
    && Shaped(p, s) && |s'.slices| == p.N()
    && (forall d :: 0 <= d < p.N() ==> Step(p.Of(d), s.slices[d], SliceInput(p, s, i, d), s'.slices[d]))
    && s'.gnt == NextGrants(s, i)
    && s'.bank == (if i.reset then RESET_BANK else NextBank(s.bank, i.bus, EventsOf(s, i)))
    && s'.status == (if i.reset then RESET_STATUS
                     else NextStatus(s.status, AllAtTarget(p, s), s.bank.arm, s.bank.modeReq))
  }

  /** The registers after the edge, with the pins as they were. */
  ghost function NextSys(p: SysParams, s: Sys, i: SysIn): Sys
    requires Shaped(p, s)
  {
    Sys(seq(p.N(), d requires 0 <= d < p.N() => s.slices[d].(r := NextSlice(p, s, i, d))),
        NextGrants(s, i),
        if i.reset then RESET_BANK else NextBank(s.bank, i.bus, EventsOf(s, i)),
        if i.reset then RESET_STATUS
        else NextStatus(s.status, AllAtTarget(p, s), s.bank.arm, s.bank.modeReq))
  }

  ghost function NextSlice(p: SysParams, s: Sys, i: SysIn, d: nat): Regs
    requires Shaped(p, s) && d < p.N()
  {
    if i.reset then ResetRegs(p.Of(d)) else NextRegs(p.Of(d), s.slices[d], SliceInput(p, s, i, d))
  }

  ghost predicate IsSysRun(p: SysParams, run: seq<Sys>, ins: seq<SysIn>) {
    && |run| == |ins| + 1 && SysInit(p, run[0])
    && forall k :: 0 <= k < |ins| ==> SysStepAt(p, run, ins, k)
  }

  ghost predicate SysStepAt(p: SysParams, run: seq<Sys>, ins: seq<SysIn>, k: nat)
    requires k < |ins| && |run| == |ins| + 1
  {
    SysStep(p, run[k], ins[k], run[k + 1])
  }

  lemma {:induction false} RunShaped(p: SysParams, run: seq<Sys>, ins: seq<SysIn>, k: nat)
    requires IsSysRun(p, run, ins) && k < |run|
    ensures Shaped(p, run[k])
  {
    if k == 0 {
    } else {
      RunShaped(p, run, ins, k - 1);
      assert SysStepAt(p, run, ins, k - 1);
      forall d | 0 <= d < p.N()
        ensures Sized(p.Of(d), run[k].slices[d].r)
      {
        assert Step(p.Of(d), run[k - 1].slices[d], SliceInput(p, run[k - 1], ins[k - 1], d), run[k].slices[d]);
      }
    }
  }

  /** One edge of one domain inside a run of the unit. */
  lemma SliceStep(p: SysParams, run: seq<Sys>, ins: seq<SysIn>, k: nat, d: nat)
    requires IsSysRun(p, run, ins) && k < |ins| && d < p.N()
    ensures Shaped(p, run[k]) && |run[k + 1].slices| == p.N()
    ensures Step(p.Of(d), run[k].slices[d], SliceInput(p, run[k], ins[k], d), run[k + 1].slices[d])
  {
    hide Step, SysInit, NextBank;
    assert SysStepAt(p, run, ins, k);
  }

  /** The run of one domain inside a run of the unit. */
  function SliceRun(run: seq<Sys>, d: nat): (r: seq<Slice>)
    requires forall k :: 0 <= k < |run| ==> d < |run[k].slices|
    ensures |r| == |run| && forall k :: 0 <= k < |run| ==> r[k] == run[k].slices[d]
  {
    seq(|run|, k requires 0 <= k < |run| => run[k].slices[d])
  }

  function SliceIns(p: SysParams, run: seq<Sys>, ins: seq<SysIn>, d: nat): (r: seq<SliceIn>)
    requires |run| == |ins| + 1 && forall k :: 0 <= k < |run| ==> d < |run[k].gnt|
    ensures |r| == |ins| && forall k :: 0 <= k < |ins| ==> r[k] == SliceInput(p, run[k], ins[k], d)
  {
    seq(|ins|, k requires 0 <= k < |ins| => SliceInput(p, run[k], ins[k], d))
  }

  /** Every domain of the unit lives a run of its own slice: what holds of slice runs under
      arbitrary inputs holds of every domain of the unit. */
  lemma Projects(p: SysParams, run: seq<Sys>, ins: seq<SysIn>, d: nat)
    requires IsSysRun(p, run, ins) && d < p.N()
    ensures forall k :: 0 <= k < |run| ==> d < |run[k].slices| && d < |run[k].gnt|
    ensures IsRun(p.Of(d), SliceRun(run, d), SliceIns(p, run, ins, d))
  {
    forall k | 0 <= k < |run|
      ensures d < |run[k].slices| && d < |run[k].gnt|
    {
      RunShaped(p, run, ins, k);
    }
    var (r, i) := (SliceRun(run, d), SliceIns(p, run, ins, d));
    forall k | 0 <= k < |i|
      ensures StepAt(p.Of(d), r, i, k)
    {
      assert SysStepAt(p, run, ins, k);
      assert Step(p.Of(d), run[k].slices[d], SliceInput(p, run[k], ins[k], d), run[k + 1].slices[d]);
    }
  }
}
