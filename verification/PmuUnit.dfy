/** The unit as clocked objects, wired as in pmu_top: every input of every block is taken from
    the registers before the edge. */
module PmuUnit {
  import opened PmuTypes
  import opened PdCtrl
  import opened DomainSlice
  import opened InrushArb
  import opened ApbRegs
  import opened PmuTop

  /** MODE_STATUS.MODE and the DONE event. */
  class StatusBlock {
    var modeCur: Mode
    var donePending: bool
    var evDone: bool

    constructor ()
      ensures View() == RESET_STATUS
    {
      modeCur, donePending, evDone := Shutdown, true, false;
    }

    function View(): Status
      reads this
    {
      Status(modeCur, donePending, evDone)
    }

    method Reset()
      modifies this
      ensures View() == RESET_STATUS
    {
      modeCur, donePending, evDone := Shutdown, true, false;
    }

    method Tick(allAtTgt: bool, arm: bool, modeReq: Mode)
      modifies this
      ensures View() == NextStatus(old(View()), allAtTgt, arm, modeReq)
    {
      var pending := donePending;
      evDone := false;
      if allAtTgt {
        modeCur := modeReq;
      }
      if arm {
        donePending := true;
      } else if pending && allAtTgt {
        donePending := false;
        evDone := true;
      }
    }
  }

  /** A slice's registers after an edge, with or without PMU reset. */
  function EdgeOf(p: Params, s: Slice, i: SliceIn): Regs
    requires p.Ok() && Sized(p, s.r)
  {
    if i.reset then ResetRegs(p) else NextRegs(p, s, i)
  }

  /** The slices' objects at power-on, disjoint from each other. */
  method NewUnits(p: SysParams) returns (us: seq<SliceUnit>)
    requires p.Ok()
    ensures |us| == p.N()
    ensures forall d :: 0 <= d < |us| ==> us[d].p == p.Of(d) && us[d].Valid() && fresh(us[d].Repr)
    ensures forall d :: 0 <= d < |us| ==> us[d].View() == ResetRegs(p.Of(d))
    ensures forall d, e :: 0 <= d < e < |us| ==> us[d].Repr !! us[e].Repr
  {
    hide SliceUnit.Valid, SliceUnit.View, ResetRegs;
    us := [];
    for k := 0 to p.N()
      invariant |us| == k
      invariant forall d :: 0 <= d < k ==> us[d].p == p.Of(d) && us[d].Valid() && fresh(us[d].Repr)
      invariant forall d :: 0 <= d < k ==> us[d].View() == ResetRegs(p.Of(d))
      invariant forall d, e :: 0 <= d < e < k ==> us[d].Repr !! us[e].Repr
    {
      var u := new SliceUnit(p.Of(k));
      us := us + [u];
    }
  }

  class Pmu {
    const p: SysParams
    const arb: Arbiter
    const regs: RegisterBlock
    const stat: StatusBlock
    const units: seq<SliceUnit>

    /** The slices' own objects are disjoint from each other and from the central blocks. */
    ghost predicate Valid()
      reads arb, set d, o | 0 <= d < |units| && o in units[d].Repr :: o
    {
      && p.Ok() && |units| == p.N() && |arb.gnt| == p.N()
      && (forall d :: 0 <= d < |units| ==> units[d].p == p.Of(d) && units[d].Valid())
      && (forall d :: 0 <= d < |units| ==>
            arb !in units[d].Repr && regs !in units[d].Repr && stat !in units[d].Repr)
      && (forall d, e :: 0 <= d < e < |units| ==> units[d].Repr !! units[e].Repr)
    }

    /** The objects hold the registers of s. */
    ghost predicate Shows(s: Sys)
      requires Valid()
      reads arb, regs, stat, set d, o | 0 <= d < |units| && o in units[d].Repr :: o
    {
      && Shaped(p, s)
      && (forall d :: 0 <= d < |units| ==> ShowsUnit(s, d))
      && s.gnt == arb.gnt && s.bank == regs.r && s.status == stat.View()
    }

    ghost predicate ShowsUnit(s: Sys, d: nat)
      requires d < |units| && units[d].Valid() && d < |s.slices|
      reads units[d].Repr
    {
      units[d].View() == s.slices[d].r
    }

    constructor (p: SysParams)
      requires p.Ok()
      ensures Valid() && this.p == p
      ensures forall s :: SysInit(p, s) ==> Shows(s)
    {
      this.p := p;
      var us := NewUnits(p);
      units := us;
      arb := new Arbiter(p.N());
      regs := new RegisterBlock();
      stat := new StatusBlock();
    }

    /** One domain's edge. */
    method TickUnit(k: nat, pin: Pins, i: SliceIn, ghost to: Regs)
      requires k < |units| && units[k].Valid()
      requires to == EdgeOf(units[k].p, Slice(units[k].View(), pin), i)
      modifies units[k].Repr
      ensures units[k].Valid() && units[k].View() == to
    {
      hide NextRegs, SliceUnit.Valid, SliceUnit.View;
      if i.reset {
        units[k].Reset();
      } else {
        units[k].Tick(pin, i);
      }
    }

    /** Every domain's edge, one after the other; no domain reads another's registers here. */
    method TickUnits(pins: seq<Pins>, ins: seq<SliceIn>, ghost from: seq<Regs>, ghost to: seq<Regs>)
      requires Valid() && |pins| == |ins| == |from| == |to| == |units|
      requires forall d :: 0 <= d < |units| ==> units[d].View() == from[d]
      requires forall d :: 0 <= d < |units| ==>
                 Sized(p.Of(d), from[d]) && to[d] == EdgeOf(p.Of(d), Slice(from[d], pins[d]), ins[d])
      modifies set d, o | 0 <= d < |units| && o in units[d].Repr :: o
      ensures Valid()
      ensures forall d :: 0 <= d < |units| ==> units[d].View() == to[d]
    {
      hide NextRegs, EdgeOf, SliceUnit.Valid, SliceUnit.View;
      for k := 0 to |units|
        invariant Valid()
        invariant forall d :: 0 <= d < k ==> units[d].View() == to[d]
        invariant forall d :: k <= d < |units| ==> units[d].View() == from[d]
      {
        assert forall d :: 0 <= d < |units| && d != k ==> units[d].Repr !! units[k].Repr;
        TickUnit(k, pins[k], ins[k], to[k]);
      }
    }

    /** The wires between the blocks, all taken from the registers as they are. */
    method Wires(i: SysIn, ghost s: Sys) returns (req: seq<bool>, ev: Events, ins: seq<SliceIn>)
      requires Valid() && Shows(s)
      ensures req == Requesting(s) && ev == EventsOf(s, i) && |ev.faults| == |ev.steps|
      ensures ins == seq(p.N(), d requires 0 <= d < p.N() => SliceInput(p, s, i, d))
    {
      var pds: seq<Pd> := [];
      for k := 0 to |units|
        invariant |pds| == k && forall d :: 0 <= d < k ==> pds[d] == s.slices[d].r.pd
      {
        assert ShowsUnit(s, k);
        pds := pds + [units[k].pd.r];
      }
      req := seq(|pds|, d requires 0 <= d < |pds| => pds[d].out.inrushReq);
      var faults := seq(|pds|, d requires 0 <= d < |pds| => pds[d].evFault);
      var steps := seq(|pds|, d requires 0 <= d < |pds| => pds[d].fault.step);
      var deny := exists d :: 0 <= d < |pds| && pds[d].evDeny;
      ev := Events(i.wakeEvt, i.wakeMode, stat.evDone, deny, faults, steps);
      var (q, g, clear) := (regs.r, arb.gnt, FaultClear(i.bus));
      ins := seq(|units|, d requires 0 <= d < |units| && |g| == |units| =>
                   SliceIn(i.reset, TargetIn(q.modeReq, d), q.arm, clear, i.cfg, g[d]));
      assert req == Requesting(s);
      assert faults == FaultPulses(s);
      assert steps == FaultSteps(s);
      assert deny == DenyPulse(s);
    }

    method AllAtTgt(ghost s: Sys) returns (all: bool)
      requires Valid() && Shows(s)
      ensures all == AllAtTarget(p, s)
    {
      assert forall d :: 0 <= d < |units| ==> ShowsUnit(s, d) && units[d].pd.r == s.slices[d].r.pd;
      all := forall d :: 0 <= d < |units| ==> AtTarget(p.Of(d), units[d].pd.r, TargetIn(regs.r.modeReq, d));
      if !all {
        var d :| 0 <= d < |units| && !AtTarget(p.Of(d), units[d].pd.r, TargetIn(regs.r.modeReq, d));
        assert !AtTgt(p, s, d);
      } else {
        forall d | 0 <= d < |units|
          ensures AtTgt(p, s, d)
        {
          assert AtTarget(p.Of(d), units[d].pd.r, TargetIn(regs.r.modeReq, d));
        }
      }
    }

    method TickCentral(i: SysIn, req: seq<bool>, ev: Events, all: bool)
      requires |req| == |arb.gnt| && |ev.faults| == |ev.steps|
      modifies arb, regs, stat
      ensures arb.gnt == if i.reset then seq(|req|, _ => false) else NextGrant(old(arb.gnt), req)
      ensures regs.r == if i.reset then RESET_BANK else NextBank(old(regs.r), i.bus, ev)
      ensures stat.View() == if i.reset then RESET_STATUS
                             else NextStatus(old(stat.View()), all, old(regs.r.arm), old(regs.r.modeReq))
    {
      hide NextBank, NextGrant, NextStatus;
      if i.reset {
        stat.Reset();
        regs.Reset();
        arb.Reset();
      } else {
        stat.Tick(all, regs.r.arm, regs.r.modeReq);
        regs.Tick(i.bus, ev);
        arb.Tick(req);
      }
    }

    /** One clock edge of the unit: the objects move exactly as the step relation says. */
    method Tick(pins: seq<Pins>, i: SysIn, ghost s: Sys)
      requires Valid() && Shows(s)
      requires |pins| == p.N() && forall d :: 0 <= d < p.N() ==> pins[d] == s.slices[d].pins
      modifies arb, regs, stat, set d, o | 0 <= d < |units| && o in units[d].Repr :: o
      ensures Valid() && Shows(NextSys(p, s, i))
    {
      hide NextRegs, ResetRegs, SliceUnit.Valid, SliceUnit.View, NextBank, NextGrant, NextStatus;
      hide AllAtTarget, EventsOf, Init;
      var req, ev, ins := Wires(i, s);
      var all := AllAtTgt(s);
      ghost var n := NextSys(p, s, i);
      ghost var from := seq(p.N(), d requires 0 <= d < p.N() => s.slices[d].r);
      ghost var to := seq(p.N(), d requires 0 <= d < p.N() => n.slices[d].r);
      forall d | 0 <= d < |units|
        ensures units[d].View() == from[d] && Sized(p.Of(d), from[d])
        ensures to[d] == EdgeOf(p.Of(d), Slice(from[d], pins[d]), ins[d])
      {
        assert ShowsUnit(s, d);
        assert s.slices[d] == Slice(from[d], pins[d]);
      }
      TickUnits(pins, ins, from, to);
      TickCentral(i, req, ev, all);
      assert forall d :: 0 <= d < |units| ==> units[d].View() == to[d] && ShowsUnit(n, d);
    }
  }

  /** What Tick leaves in the objects is what every step of a run leaves in the registers. */
  lemma RunFollowsTick(p: SysParams, run: seq<Sys>, ins: seq<SysIn>, k: nat)
    requires IsSysRun(p, run, ins) && k < |ins|
    ensures Shaped(p, run[k]) && |run[k + 1].slices| == p.N()
    ensures var n := NextSys(p, run[k], ins[k]);
            && n.gnt == run[k + 1].gnt && n.bank == run[k + 1].bank && n.status == run[k + 1].status
            && forall d :: 0 <= d < p.N() ==> n.slices[d].r == run[k + 1].slices[d].r
  {
    RunShaped(p, run, ins, k);
    assert SysStepAt(p, run, ins, k);
    hide NextRegs, SysInit, Switches, Device, NextBank;
    forall d | 0 <= d < p.N()
      ensures NextSlice(p, run[k], ins[k], d) == run[k + 1].slices[d].r
    {
      SliceStep(p, run, ins, k, d);
    }
  }
}
