/** The switch acknowledges inside a slice: what the synchroniser stages can hold in each state,
    and from it the physical power safety of the real pins. */
module SlicePower {
  import opened PmuTypes
  import opened SyncFf
  import opened PdCtrl
  import opened DomainSlice
  import opened SliceInvariant
  import opened SequencerMoves

  ghost predicate Sure(b: bool, pin: bool, line: seq<bool>, c: nat, hcnt: nat) {
    Front(b, pin, line, c) && (hcnt > 0 ==> Still(b, pin, line))
  }

  /** Pins and stages of both acknowledges, by the state whose outputs apply. While a switch
      changes, a front at most as long as the step is old runs through its synchroniser. */
  ghost predicate PowerInv(s: Slice) {
    var pd, pins := s.r.pd, s.pins;
    var st := Holding(pd);
    && (Powered(st) ==> Still(true, pins.trkAck, s.r.trk) && Still(true, pins.mainAck, s.r.main))
    && (st.U_TRK_ON? ==> Sure(true, pins.trkAck, s.r.trk, pd.cnt, pd.hcnt))
    && (st.U_MAIN_ON? ==>
          Still(true, pins.trkAck, s.r.trk) && Sure(true, pins.mainAck, s.r.main, pd.cnt, pd.hcnt))
    && (st.D_MAIN_OFF? ==>
          Still(true, pins.trkAck, s.r.trk) && Front(false, pins.mainAck, s.r.main, pd.cnt))
    && (st.D_TRK_OFF? ==>
          Front(false, pins.trkAck, s.r.trk, pd.cnt) && Still(false, pins.mainAck, s.r.main))
    && (st.S_RET? ==> !pins.mainAck)
  }

  /** A line that was still and is driven on by an unchanged pin stays still. */
  lemma BothStay(p: Params, s: Slice, i: SliceIn, s': Slice)
    requires p.Ok() && Step(p, s, i, s') && !i.reset
    requires s.r.pd.out.trkEn && Still(true, s.pins.trkAck, s.r.trk)
    ensures Still(true, s'.pins.trkAck, s'.r.trk)
    ensures s.r.pd.out.mainEn && Still(true, s.pins.mainAck, s.r.main) ==>
              Still(true, s'.pins.mainAck, s'.r.main)
    ensures !s.r.pd.out.mainEn && Still(false, s.pins.mainAck, s.r.main) ==>
              Still(false, s'.pins.mainAck, s'.r.main)
  {
  }

  lemma PoweredStep(p: Params, s: Slice, i: SliceIn, s': Slice)
    requires p.Ok() && CtlInv(p, s.r.pd) && PowerInv(s)
    requires Step(p, s, i, s') && !i.reset
    requires Powered(Holding(s.r.pd))
    ensures PowerInv(s')
  {
    BothStay(p, s, i, s');
    var st' := Holding(s'.r.pd);
    assert Powered(st') || st'.D_MAIN_OFF? by { PoweredNext(p, s.r.pd, PdInputs(p, s.r, i)); }
    if st'.D_MAIN_OFF? {
      PoweredNext(p, s.r.pd, PdInputs(p, s.r, i));
    }
  }

  lemma PoweredNext(p: Params, pd: Pd, i: PdIn)
    requires CtlInv(p, pd) && Powered(Holding(pd))
    ensures var pd' := Next(p, pd, i);
            Powered(Holding(pd')) || (Holding(pd').D_MAIN_OFF? && pd'.cnt == 0)
  {
    hide Next;
    StepStarts(p, pd, i);
    if pd.st.S_FAULT? {
      FaultMoves(p, pd, i);
    } else if Next(p, pd, i).st.S_FAULT? {
      FaultEntry(p, pd, i);
    } else if Stable(pd.st) {
      StableMoves(p, pd, i);
    } else {
      SequenceMoves(p, pd, i);
    }
  }

  /** What a switch step leads to: it goes on, ends on its trusted ack, or times out to OFF. */
  ghost predicate SwitchNext(p: Params, pd: Pd, ack: bool, pd': Pd) {
    var st' := Holding(pd');
    var heard := Trusted(p, pd) && ack == SwitchUp(pd.st);
    || (st' == pd.st && pd'.cnt == pd.cnt + 1 && (pd'.hcnt > 0 && SwitchUp(pd.st) ==> heard))
    || st'.S_OFF?
    || (heard && match pd.st
                 case U_TRK_ON => st'.U_MAIN_ON? && pd'.cnt == 0 && pd'.hcnt == 0
                 case U_MAIN_ON => st'.U_RESTORE? || st'.U_RST?
                 case D_MAIN_OFF => st'.D_TRK_OFF? && pd'.cnt == 0
                 case _ => st'.S_RET?)
  }

  lemma TrickleOnNext(p: Params, pd: Pd, i: PdIn)
    requires CtlInv(p, pd) && pd.st.U_TRK_ON?
    ensures SwitchNext(p, pd, i.trickleAck, Next(p, pd, i))
  {
  }

  lemma MainOnNext(p: Params, pd: Pd, i: PdIn)
    requires CtlInv(p, pd) && pd.st.U_MAIN_ON?
    ensures SwitchNext(p, pd, i.mainAck, Next(p, pd, i))
  {
  }

  lemma SwitchOffNext(p: Params, pd: Pd, i: PdIn)
    requires CtlInv(p, pd) && SwitchDown(pd.st)
    ensures SwitchNext(p, pd, if pd.st.D_MAIN_OFF? then i.mainAck else i.trickleAck, Next(p, pd, i))
  {
  }

  lemma TrickleOnStep(p: Params, s: Slice, i: SliceIn, s': Slice)
    requires p.Ok() && CtlInv(p, s.r.pd) && PowerInv(s)
    requires Step(p, s, i, s') && !i.reset
    requires s.r.pd.st.U_TRK_ON?
    ensures PowerInv(s')
  {
    var pd := s.r.pd;
    TrickleOnNext(p, pd, PdInputs(p, s.r, i));
    assert pd.out.trkEn && !pd.out.mainEn;
    hide Next, CtlInv, Table, Device;
    FrontStep(true, s.pins.trkAck, s.r.trk, pd.cnt, s'.pins.trkAck);
    if Trusted(p, pd) && Out(s.r.trk) {
      FrontFills(true, s.pins.trkAck, s.r.trk, pd.cnt);
      BothStay(p, s, i, s');
    }
  }

  lemma MainOnStep(p: Params, s: Slice, i: SliceIn, s': Slice)
    requires p.Ok() && CtlInv(p, s.r.pd) && PowerInv(s)
    requires Step(p, s, i, s') && !i.reset
    requires s.r.pd.st.U_MAIN_ON?
    ensures PowerInv(s')
  {
    var pd := s.r.pd;
    MainOnNext(p, pd, PdInputs(p, s.r, i));
    assert pd.out.trkEn && pd.out.mainEn;
    hide Next, CtlInv, Table, Device;
    BothStay(p, s, i, s');
    FrontStep(true, s.pins.mainAck, s.r.main, pd.cnt, s'.pins.mainAck);
    if Trusted(p, pd) && Out(s.r.main) {
      FrontFills(true, s.pins.mainAck, s.r.main, pd.cnt);
    }
  }

  lemma MainOffStep(p: Params, s: Slice, i: SliceIn, s': Slice)
    requires p.Ok() && CtlInv(p, s.r.pd) && PowerInv(s)
    requires Step(p, s, i, s') && !i.reset
    requires s.r.pd.st.D_MAIN_OFF?
    ensures PowerInv(s')
  {
    var pd := s.r.pd;
    SwitchOffNext(p, pd, PdInputs(p, s.r, i));
    assert pd.out.trkEn && !pd.out.mainEn;
    hide Next, CtlInv, Table, Device;
    BothStay(p, s, i, s');
    FrontStep(false, s.pins.mainAck, s.r.main, pd.cnt, s'.pins.mainAck);
    if Trusted(p, pd) && !Out(s.r.main) {
      FrontFills(false, s.pins.mainAck, s.r.main, pd.cnt);
    }
  }

  lemma TrickleOffStep(p: Params, s: Slice, i: SliceIn, s': Slice)
    requires p.Ok() && CtlInv(p, s.r.pd) && PowerInv(s)
    requires Step(p, s, i, s') && !i.reset
    requires s.r.pd.st.D_TRK_OFF?
    ensures PowerInv(s')
  {
    SwitchOffNext(p, s.r.pd, PdInputs(p, s.r, i));
    assert !s.r.pd.out.trkEn && !s.r.pd.out.mainEn;
    hide Next, CtlInv, Table, Device;
    FrontStep(false, s.pins.trkAck, s.r.trk, s.r.pd.cnt, s'.pins.trkAck);
  }

  lemma UnpoweredNext(p: Params, pd: Pd, i: PdIn)
    requires CtlInv(p, pd)
    requires var st := Holding(pd); st.S_RET? || st.S_OFF? || st.U_ARB?
    ensures var pd' := Next(p, pd, i);
            var st' := Holding(pd');
            || (st'.S_RET? && Holding(pd).S_RET?) || st'.S_OFF? || st'.U_ARB?
            || (st'.U_TRK_ON? && pd'.cnt == 0 && pd'.hcnt == 0)
  {
  }

  lemma UnpoweredStep(p: Params, s: Slice, i: SliceIn, s': Slice)
    requires p.Ok() && CtlInv(p, s.r.pd) && PowerInv(s)
    requires Step(p, s, i, s') && !i.reset
    requires var st := Holding(s.r.pd); st.S_RET? || st.S_OFF? || st.U_ARB?
    ensures PowerInv(s')
  {
    UnpoweredNext(p, s.r.pd, PdInputs(p, s.r, i));
    assert !s.r.pd.out.trkEn && !s.r.pd.out.mainEn;
    hide Next, CtlInv, Table, Device;
  }

  lemma HoldingKinds(p: Params, pd: Pd)
    requires CtlInv(p, pd)
    ensures var st := Holding(pd);
            || Powered(st) || st.S_RET? || st.S_OFF? || st.U_ARB?
            || (st == pd.st && (st.U_TRK_ON? || st.U_MAIN_ON? || st.D_MAIN_OFF? || st.D_TRK_OFF?))
  {
  }

  lemma PowerStep(p: Params, s: Slice, i: SliceIn, s': Slice)
    requires p.Ok() && CtlInv(p, s.r.pd) && PowerInv(s)
    requires Step(p, s, i, s') && !i.reset
    ensures PowerInv(s')
  {
    HoldingKinds(p, s.r.pd);
    hide Step, PowerInv, CtlInv;
    if Powered(Holding(s.r.pd)) {
      PoweredStep(p, s, i, s');
    } else if s.r.pd.st.U_TRK_ON? {
      TrickleOnStep(p, s, i, s');
    } else if s.r.pd.st.U_MAIN_ON? {
      MainOnStep(p, s, i, s');
    } else if s.r.pd.st.D_MAIN_OFF? {
      MainOffStep(p, s, i, s');
    } else if s.r.pd.st.D_TRK_OFF? {
      TrickleOffStep(p, s, i, s');
    } else {
      UnpoweredStep(p, s, i, s');
    }
  }
}
