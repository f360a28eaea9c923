/** One domain's slice of the unit: isolation clamps and synchronisers in front of the Q-Channel
    controller and the sequencer, together with the pins that its switches and its device drive. */
module DomainSlice {
  import opened PmuTypes
  import opened SyncFf
  import opened PdCtrl
  import opened QchMaster

  /** Every register of a slice. Stage 0 of a synchroniser is the one next to the pin. */
  datatype Regs = Regs(
    pd: Pd, qreqn: bool, acc: seq<bool>, deny: seq<bool>, trk: seq<bool>, main: seq<bool>)

  /** What the outside drives: QACCEPTn, QDENY and the two switch acknowledges. */
  datatype Pins = Pins(qa: bool, qd: bool, trkAck: bool, mainAck: bool)

  datatype Slice = Slice(r: Regs, pins: Pins)

  /** Inputs of one clock edge. reset: PRESETn is low after this edge. */
  datatype SliceIn = SliceIn(
    reset: bool, tgt: Target, arm: bool, faultClr: bool, cfg: Cfg, gnt: bool)

  /** The isolation cell, clamp value 0. */
  function Clamp(isoEn: bool, d: bool): bool {
    if isoEn then false else d
  }

  ghost predicate Sized(p: Params, r: Regs) {
    |r.acc| == p.stages && |r.deny| == p.stages && |r.trk| == p.stages && |r.main| == p.stages
  }

  function ResetRegs(p: Params): (r: Regs)
    ensures Sized(p, r)
  {
    var zero := Filled(p.stages, false);
    Regs(RESET_PD, false, zero, zero, zero, zero)
  }

  function PdInputs(p: Params, r: Regs, i: SliceIn): PdIn
    requires p.Ok() && Sized(p, r)
  {
    PdIn(i.tgt, i.arm, i.faultClr, i.cfg, Out(r.trk), Out(r.main),
         QRun(r.qreqn, Out(r.acc), Out(r.deny)), QStopped(r.qreqn, Out(r.acc), Out(r.deny)),
         Out(r.deny), i.gnt)
  }

  /** One clock edge without PMU reset: every module reads the registers before the edge. */
  function NextRegs(p: Params, s: Slice, i: SliceIn): (r: Regs)
    requires p.Ok() && Sized(p, s.r)
    ensures Sized(p, r)
  {
    var o := s.r.pd.out;
    Regs(
      Next(p, s.r.pd, PdInputs(p, s.r, i)),
      NextReq(s.r.qreqn, o.stopReq, o.exitReq, Out(s.r.acc), Out(s.r.deny)),
      Shift(s.r.acc, Clamp(o.isoEn, s.pins.qa)),
      Shift(s.r.deny, Clamp(o.isoEn, s.pins.qd)),
      Shift(s.r.trk, s.pins.trkAck),
      Shift(s.r.main, s.pins.mainAck))
  }

  /** The wiring, for every content of the registers and every pin: the sequencer sees the Q-Channel
      states and acknowledges of the last synchroniser stages, and while a domain is isolated only
      lows enter the synchronisers of its responses. */
  lemma Wiring(p: Params, s: Slice, i: SliceIn)
    requires p.Ok() && Sized(p, s.r)
    ensures var (pi, last) := (PdInputs(p, s.r, i), p.stages - 1);
            && pi.trickleAck == s.r.trk[last] && pi.mainAck == s.r.main[last] && pi.qDeny == s.r.deny[last]
            && (pi.qRun <==> s.r.qreqn && s.r.acc[last] && !s.r.deny[last])
            && (pi.qStopped <==> !s.r.qreqn && !s.r.acc[last] && !s.r.deny[last])
            && pi.tgt == i.tgt && pi.arm == i.arm && pi.faultClr == i.faultClr && pi.cfg == i.cfg && pi.gnt == i.gnt
    ensures var r' := NextRegs(p, s, i);
            && (r'.acc[0] <==> s.pins.qa && !s.r.pd.out.isoEn)
            && (r'.deny[0] <==> s.pins.qd && !s.r.pd.out.isoEn)
            && r'.trk[0] == s.pins.trkAck && r'.main[0] == s.pins.mainAck
            && r'.pd == Next(p, s.r.pd, PdInputs(p, s.r, i))
  {
    hide Next;
  }

  /** The power switches: an ack rises only while its enable was high and falls only while it
      was low. */
  ghost predicate Switches(s: Slice, s': Slice) {
    var o := s.r.pd.out;
    && (s'.pins.trkAck && !s.pins.trkAck ==> o.trkEn)
    && (s.pins.trkAck && !s'.pins.trkAck ==> !o.trkEn)
    && (s'.pins.mainAck && !s.pins.mainAck ==> o.mainEn)
    && (s.pins.mainAck && !s'.pins.mainAck ==> !o.mainEn)
  }

  /** The device rules of ARM IHI 0068D, section 2.1.2; both outputs low in reset. */
  ghost predicate Device(s: Slice, s': Slice) {
    var (qr, qa, qd) := (s.r.qreqn, s.pins.qa, s.pins.qd);
    && (!s'.r.pd.out.rstN ==> !s'.pins.qa && !s'.pins.qd)
    && (s'.pins.qd ==> s'.pins.qa)
    && (s'.r.pd.out.rstN ==>
          && (qa && !s'.pins.qa ==> !qr && !qd)
          && (!qa && s'.pins.qa ==> qr && !qd)
          && (!qd && s'.pins.qd ==> !qr && qa)
          && (qd && !s'.pins.qd ==> qr && qa))
  }

  ghost predicate Init(p: Params, s: Slice) {
    s.r == ResetRegs(p) && !s.pins.qa && !s.pins.qd
  }

  ghost predicate Step(p: Params, s: Slice, i: SliceIn, s': Slice)
    requires p.Ok()
  {
    && Sized(p, s.r)
    && s'.r == (if i.reset then ResetRegs(p) else NextRegs(p, s, i))
    && Switches(s, s')
    && Device(s, s')
  }

  /** A finite run from power-on, under any inputs, any switch and device behaviour that keeps
      the rules, and PMU resets at any point. */
  ghost predicate IsRun(p: Params, run: seq<Slice>, ins: seq<SliceIn>)
    requires p.Ok()
  {
    && |run| == |ins| + 1
    && Init(p, run[0])
    && forall k :: 0 <= k < |ins| ==> StepAt(p, run, ins, k)
  }

  ghost predicate StepAt(p: Params, run: seq<Slice>, ins: seq<SliceIn>, k: nat)
    requires p.Ok() && k < |ins| && |run| == |ins| + 1
  {
    Step(p, run[k], ins[k], run[k + 1])
  }

  /** The instances of one slice, wired as in the generate loop of pmu_top. */
  class SliceUnit {
    const p: Params
    const qch: Controller
    const pd: Sequencer
    const sAcc: Synchroniser
    const sDeny: Synchroniser
    const sTrk: Synchroniser
    const sMain: Synchroniser
    ghost const Repr: set<object>

    ghost predicate Valid()
      reads Repr
    {
      && p.Ok() && pd.p == p
      && Repr == {qch, pd, sAcc, sDeny, sTrk, sMain}
      && sAcc != sDeny && sAcc != sTrk && sAcc != sMain
      && sDeny != sTrk && sDeny != sMain && sTrk != sMain
      && Sized(p, Regs(pd.r, qch.qreqn, sAcc.s, sDeny.s, sTrk.s, sMain.s))
    }

    ghost function View(): (r: Regs)
      requires Valid()
      reads Repr
      ensures Sized(p, r)
    {
      Regs(pd.r, qch.qreqn, sAcc.s, sDeny.s, sTrk.s, sMain.s)
    }

    constructor (p: Params)
      requires p.Ok()
      ensures Valid() && fresh(Repr) && this.p == p
      ensures View() == ResetRegs(p)
    {
      this.p := p;
      qch := new Controller();
      pd := new Sequencer(p);
      sAcc := new Synchroniser(p.stages);
      sDeny := new Synchroniser(p.stages);
      sTrk := new Synchroniser(p.stages);
      sMain := new Synchroniser(p.stages);
      Repr := {qch, pd, sAcc, sDeny, sTrk, sMain};
    }

    method Reset()
      requires Valid()
      modifies Repr
      ensures Valid() && View() == ResetRegs(p)
    {
      qch.Reset();
      pd.Reset();
      sAcc.Reset();
      sDeny.Reset();
      sTrk.Reset();
      sMain.Reset();
    }

    method Tick(pins: Pins, i: SliceIn)
      requires Valid()
      modifies Repr
      ensures Valid() && View() == NextRegs(p, Slice(old(View()), pins), i)
    {
      var o := pd.r.out;
      var qacc, qdeny := sAcc.Q(), sDeny.Q();
      var qRun, qStopped := QRun(qch.qreqn, qacc, qdeny), QStopped(qch.qreqn, qacc, qdeny);
      var pi := PdIn(i.tgt, i.arm, i.faultClr, i.cfg, sTrk.Q(), sMain.Q(), qRun, qStopped, qdeny, i.gnt);
      pd.Tick(pi);
      qch.Tick(o.stopReq, o.exitReq, qacc, qdeny);
      sAcc.Tick(Clamp(o.isoEn, pins.qa));
      sDeny.Tick(Clamp(o.isoEn, pins.qd));
      sTrk.Tick(pins.trkAck);
      sMain.Tick(pins.mainAck);
    }
  }
}
