/** Every fault-free sequence of every run changes its outputs exactly as its template says. */
module SequenceRefinement {
  import opened PmuTypes
  import opened SyncFf
  import opened PdCtrl
  import opened DomainSlice
  import opened SliceInvariant
  import opened SliceQChannel
  import opened SliceSafety
  import opened SequencerMoves
  import opened Templates

  /** Where in a sequence from the stable state `from` the domain can be; saved: a saved state was
      held when the sequence started. */
  ghost predicate Within(from: St, saved: bool, s: Slice) {
    var pd := s.r.pd;
    match pd.st
    case D_QWAIT =>
      from.S_ON? &&
      (s.r.qreqn ==> Still(true, s.pins.qa, s.r.acc) && Still(false, s.pins.qd, s.r.deny))
    case D_DENY => from.S_ON?
    case D_CLK => from.S_ON?
    case D_ISO | D_SAVE | D_RST | D_MAIN_OFF | D_TRK_OFF => from.S_ON? || from.S_CG?
    case C_CLK => from.S_CG?
    case U_QEXIT => from.S_CG? || from.S_RET? || from.S_OFF?
    case U_ARB | U_TRK_ON | U_MAIN_ON => (from.S_RET? || from.S_OFF?) && pd.retValid == saved
    case U_RESTORE => (from.S_RET? || from.S_OFF?) && saved
    case U_RST | U_CLK | U_ISO => from.S_RET? || from.S_OFF?
    case _ => false
  }

  /** The template a sequence under way follows so far. */
  function KindNow(from: St, saved: bool, pd: Pd): Kind {
    match pd.st
    case D_DENY => Deny
    case D_QWAIT | D_CLK | D_ISO | D_SAVE | D_RST | D_MAIN_OFF | D_TRK_OFF =>
      KindBetween(from, StateOf(pd.seqTgt), saved)
    case S_CG | S_RET | S_OFF => KindBetween(from, pd.st, saved)
    case _ => KindBetween(from, S_ON, saved)
  }

  /** How many rows of it are done. */
  function RowsDone(from: St, saved: bool, s: Slice): nat {
    var pd := s.r.pd;
    var o := if from.S_ON? then 2 else 0;
    var u := if saved then 5 else 3;
    match pd.st
    case D_QWAIT => if s.r.qreqn then 0 else 1
    case D_DENY | D_CLK => 2
    case D_ISO => o + 1
    case D_SAVE => o + 2
    case D_RST => if pd.seqTgt.T_RET? then o + 4 else o + 2
    case D_MAIN_OFF => if pd.seqTgt.T_RET? then o + 5 else o + 3
    case D_TRK_OFF => if pd.seqTgt.T_RET? then o + 6 else o + 4
    case U_ARB => 0
    case U_TRK_ON => 1
    case U_MAIN_ON => 2
    case U_RESTORE => 3
    case U_RST => u
    case U_CLK => u + 1
    case U_ISO => u + 2
    case U_QEXIT => (if from.S_CG? then 1 else u + 2) + (if s.r.qreqn then 1 else 0)
    case C_CLK => 1
    case _ => |Template(KindNow(from, saved, pd))|
  }

  /** One step adds exactly the next rows of the template: none, one, or one with its same-cycle
      companion. n: rows done before the step. */
  ghost predicate Adds(s: Slice, s': Slice, k: Kind, n: nat, n': nat) {
    var (c, t) := (Changes(s, s'), Template(k));
    && n <= n' <= n + 2 && n' <= |t| && |c| == n' - n
    && (n < n' ==> Shows(c[0], t[n]) && !t[n].same)
    && (n' == n + 2 ==> Shows(c[1], t[n + 1]) && t[n + 1].same)
  }

  ghost predicate StepAdds(from: St, saved: bool, s: Slice, s': Slice) {
    var (k, k') := (KindNow(from, saved, s.r.pd), KindNow(from, saved, s'.r.pd));
    var (n, n') := (RowsDone(from, saved, s), RowsDone(from, saved, s'));
    && Adds(s, s', k', n, n')
    && (k == k' || n == 0 || (n == 1 && |Template(k)| > 0 && Template(k)[0] == Template(k')[0]))
  }

  /** A step of the sequence: it stays within it or ends it, adding its rows. */
  ghost predicate Proceeds(from: St, saved: bool, s: Slice, s': Slice) {
    && (Within(from, saved, s') || Stable(s'.r.pd.st))
    && StepAdds(from, saved, s, s')
  }

  /** How QREQn moves with the state. */
  ghost predicate ReqMoves(s: Slice, s': Slice) {
    match s.r.pd.st
    case S_ON => s.r.qreqn && s'.r.qreqn
    case D_QWAIT =>
      && (s'.r.pd.st.D_QWAIT? ==> !s'.r.qreqn)
      && (s'.r.pd.st.D_CLK? ==> !s.r.qreqn && !s'.r.qreqn)
      && (s'.r.pd.st.D_DENY? ==> !s.r.qreqn && s'.r.qreqn)
    case D_DENY => s.r.qreqn && s'.r.qreqn
    case U_QEXIT => s'.r.qreqn && (s'.r.pd.st.S_ON? ==> s.r.qreqn)
    case _ => !s.r.qreqn && !s'.r.qreqn
  }

  lemma ReqStep(p: Params, from: St, saved: bool, s: Slice, i: SliceIn, s': Slice)
    requires p.Ok() && Inv(p, s) && Inv(p, s') && Step(p, s, i, s') && !i.reset
    requires Stable(s.r.pd.st) || Within(from, saved, s)
    requires MidSequence(s.r.pd.st) ==> MovesTo(s.r.pd, s'.r.pd)
    ensures ReqMoves(s, s')
  {
    if s.r.pd.st.D_QWAIT? {
      WaitLeaves(p, s, i, s');
    }
  }

  /** D_QWAIT is left only with QREQn low and the device's answer through the synchroniser. */
  lemma WaitLeaves(p: Params, s: Slice, i: SliceIn, s': Slice)
    requires p.Ok() && Inv(p, s) && Inv(p, s') && Step(p, s, i, s') && !i.reset
    requires s.r.pd.st.D_QWAIT? && MovesTo(s.r.pd, s'.r.pd)
    requires s.r.qreqn ==> Still(true, s.pins.qa, s.r.acc) && Still(false, s.pins.qd, s.r.deny)
    ensures ReqMoves(s, s')
  {
    HandshakeNext(p, s.r.pd, PdInputs(p, s.r, i));
    hide Next;
    if Out(s.r.deny) {
      assert Denying(s);
    }
  }

  /** The outputs of both ends come from the table. */
  ghost predicate Tabled(s: Slice, s': Slice) {
    s.r.pd.out == Table(s.r.pd.st) && s'.r.pd.out == Table(s'.r.pd.st)
  }

  /** The changes each edge of the transition graph makes. */
  function EdgeChanges(st: St, st': St, was: bool, now: bool): seq<Change> {
    if was != now then [Change(QReqN, now)]
    else match st'
      case D_CLK => if st == st' then [] else [Change(ClkEn, false)]
      case D_ISO => if st == st' then [] else [Change(IsoEn, true)]
      case D_SAVE => if st == st' then [] else [Change(RetSave, true)]
      case D_RST =>
        if st == st' then []
        else if st.D_SAVE? then [Change(RetSave, false), Change(RstN, false)]
        else [Change(RstN, false)]
      case D_MAIN_OFF => if st == st' then [] else [Change(MainEn, false)]
      case D_TRK_OFF => if st == st' then [] else [Change(TrkEn, false)]
      case U_TRK_ON => if st == st' then [] else [Change(TrkEn, true)]
      case U_MAIN_ON => if st == st' then [] else [Change(MainEn, true)]
      case U_RESTORE => if st == st' then [] else [Change(RetRestore, true)]
      case U_RST =>
        if st == st' then []
        else if st.U_RESTORE? then [Change(RetRestore, false), Change(RstN, true)]
        else [Change(RstN, true)]
      case U_CLK | C_CLK => if st == st' then [] else [Change(ClkEn, true)]
      case U_ISO => if st == st' then [] else [Change(IsoEn, false)]
      case _ => []
  }

  lemma DownChanges(s: Slice, s': Slice)
    requires Tabled(s, s') && ReqMoves(s, s') && MovesTo(s.r.pd, s'.r.pd)
    requires !HoldUp(s.r.pd.st) && !s.r.pd.st.U_ARB? && !SwitchUp(s.r.pd.st)
    ensures Changes(s, s') == EdgeChanges(s.r.pd.st, s'.r.pd.st, s.r.qreqn, s'.r.qreqn)
  {
  }

  lemma UpChanges(s: Slice, s': Slice)
    requires Tabled(s, s') && ReqMoves(s, s') && MovesTo(s.r.pd, s'.r.pd)
    requires HoldUp(s.r.pd.st) || s.r.pd.st.U_ARB? || SwitchUp(s.r.pd.st)
    ensures Changes(s, s') == EdgeChanges(s.r.pd.st, s'.r.pd.st, s.r.qreqn, s'.r.qreqn)
  {
  }

  lemma DepartChanges(s: Slice, s': Slice, t: Target)
    requires Tabled(s, s') && ReqMoves(s, s') && Departs(s.r.pd.st, t, s'.r.pd.st)
    ensures Changes(s, s') == EdgeChanges(s.r.pd.st, s'.r.pd.st, s.r.qreqn, s'.r.qreqn)
  {
  }

  predicate HoldUp(st: St) {
    st.U_RESTORE? || st.U_RST? || st.U_CLK? || st.U_ISO? || st.C_CLK?
  }

  /** What the sequencer's own invariant says about a sequence under way. */
  predicate Aimed(pd: Pd) {
    match pd.st
    case D_QWAIT | D_CLK => !pd.seqTgt.T_ON?
    case D_ISO | D_RST | D_MAIN_OFF | D_TRK_OFF => pd.seqTgt.T_RET? || pd.seqTgt.T_OFF?
    case D_SAVE => pd.seqTgt.T_RET?
    case _ => true
  }

  ghost predicate EdgeAdds(from: St, saved: bool, s: Slice, s': Slice) {
    (Within(from, saved, s') || Stable(s'.r.pd.st)) &&
    (Changes(s, s') == EdgeChanges(s.r.pd.st, s'.r.pd.st, s.r.qreqn, s'.r.qreqn) ==>
       StepAdds(from, saved, s, s'))
  }

  lemma RequestProceeds(from: St, saved: bool, s: Slice, s': Slice)
    requires Within(from, saved, s) && ReqMoves(s, s') && MovesTo(s.r.pd, s'.r.pd) && Aimed(s.r.pd)
    requires s.r.pd.st.D_QWAIT? || s.r.pd.st.D_DENY?
    ensures EdgeAdds(from, saved, s, s')
  {
    hide Changes;
  }

  lemma ExitProceeds(from: St, saved: bool, s: Slice, s': Slice)
    requires Within(from, saved, s) && ReqMoves(s, s') && MovesTo(s.r.pd, s'.r.pd)
    requires s.r.pd.st.U_QEXIT?
    ensures EdgeAdds(from, saved, s, s')
  {
    hide Changes;
  }

  lemma DownProceeds(from: St, saved: bool, s: Slice, s': Slice)
    requires Within(from, saved, s) && ReqMoves(s, s') && MovesTo(s.r.pd, s'.r.pd) && Aimed(s.r.pd)
    requires s.r.pd.st.D_CLK? || s.r.pd.st.D_ISO? || s.r.pd.st.D_SAVE?
    ensures EdgeAdds(from, saved, s, s')
  {
    hide Changes;
  }

  lemma ResetProceeds(from: St, saved: bool, s: Slice, s': Slice)
    requires Within(from, saved, s) && ReqMoves(s, s') && MovesTo(s.r.pd, s'.r.pd) && Aimed(s.r.pd)
    requires s.r.pd.st.D_RST?
    ensures EdgeAdds(from, saved, s, s')
  {
    hide Changes;
  }

  lemma OffProceeds(from: St, saved: bool, s: Slice, s': Slice)
    requires Within(from, saved, s) && ReqMoves(s, s') && MovesTo(s.r.pd, s'.r.pd) && Aimed(s.r.pd)
    requires SwitchDown(s.r.pd.st)
    ensures EdgeAdds(from, saved, s, s')
  {
    hide Changes;
  }

  lemma OnProceeds(from: St, saved: bool, s: Slice, s': Slice)
    requires Within(from, saved, s) && ReqMoves(s, s') && MovesTo(s.r.pd, s'.r.pd)
    requires s.r.pd.st.U_ARB? || SwitchUp(s.r.pd.st)
    ensures EdgeAdds(from, saved, s, s')
  {
    hide Changes;
  }

  lemma UpProceeds(from: St, saved: bool, s: Slice, s': Slice)
    requires Within(from, saved, s) && ReqMoves(s, s') && MovesTo(s.r.pd, s'.r.pd)
    requires s.r.pd.st.U_RESTORE? || s.r.pd.st.U_RST?
    ensures EdgeAdds(from, saved, s, s')
  {
    hide Changes;
  }

  lemma ClockProceeds(from: St, saved: bool, s: Slice, s': Slice)
    requires Within(from, saved, s) && ReqMoves(s, s') && MovesTo(s.r.pd, s'.r.pd)
    requires s.r.pd.st.U_CLK? || s.r.pd.st.U_ISO? || s.r.pd.st.C_CLK?
    ensures EdgeAdds(from, saved, s, s')
  {
    hide Changes;
  }

  lemma DepartProceeds(s: Slice, s': Slice, t: Target)
    requires ReqMoves(s, s') && Departs(s.r.pd.st, t, s'.r.pd.st)
    requires s.r.pd.st.S_ON? ==> s'.r.qreqn && Still(true, s'.pins.qa, s'.r.acc) && Still(false, s'.pins.qd, s'.r.deny)
    requires s'.r.pd.retValid == SavedAfter(s.r.pd, s'.r.pd.st)
    requires s.r.pd.st.S_CG? && !t.T_ON? ==> s'.r.pd.seqTgt == t
    requires s.r.pd.st.S_ON? ==> s'.r.pd.seqTgt == t
    requires Changes(s, s') == EdgeChanges(s.r.pd.st, s'.r.pd.st, s.r.qreqn, s'.r.qreqn)
    ensures var (from, saved, k) := (s.r.pd.st, s.r.pd.retValid, KindNow(s.r.pd.st, s.r.pd.retValid, s'.r.pd));
            && (Within(from, saved, s') || s'.r.pd.st.S_OFF?)
            && Adds(s, s', k, 0, RowsDone(from, saved, s'))
  {
    hide Changes;
  }

  /** What an edge inside a sequence is, as far as the outputs go. */
  ghost predicate SequenceEdge(s: Slice, s': Slice) {
    Tabled(s, s') && ReqMoves(s, s') && MovesTo(s.r.pd, s'.r.pd) && Aimed(s.r.pd)
  }

  lemma WithinIsMid(from: St, saved: bool, s: Slice)
    requires Within(from, saved, s)
    ensures MidSequence(s.r.pd.st)
  {
  }

  lemma EdgeFacts(p: Params, from: St, saved: bool, s: Slice, i: SliceIn, s': Slice)
    requires p.Ok() && Inv(p, s) && Inv(p, s') && Step(p, s, i, s') && !i.reset
    requires Within(from, saved, s) && !s'.r.pd.st.S_FAULT?
    ensures SequenceEdge(s, s')
  {
    WithinIsMid(from, saved, s);
    hide Next, Within, ReqMoves, Table, Device, Switches, CounterInv, RetInv;
    SequenceMoves(p, s.r.pd, PdInputs(p, s.r, i));
    ReqStep(p, from, saved, s, i, s');
  }

  lemma EdgeChangesRight(s: Slice, s': Slice)
    requires SequenceEdge(s, s')
    ensures Changes(s, s') == EdgeChanges(s.r.pd.st, s'.r.pd.st, s.r.qreqn, s'.r.qreqn)
  {
    hide Changes, EdgeChanges;
    if HoldUp(s.r.pd.st) || s.r.pd.st.U_ARB? || SwitchUp(s.r.pd.st) {
      UpChanges(s, s');
    } else {
      DownChanges(s, s');
    }
  }

  lemma EdgeProceeds(from: St, saved: bool, s: Slice, s': Slice)
    requires Within(from, saved, s) && SequenceEdge(s, s')
    ensures EdgeAdds(from, saved, s, s')
  {
    WithinIsMid(from, saved, s);
    hide EdgeAdds, Within, ReqMoves, MovesTo, Tabled;
    match s.r.pd.st
    case D_QWAIT | D_DENY => RequestProceeds(from, saved, s, s');
    case U_QEXIT => ExitProceeds(from, saved, s, s');
    case D_CLK | D_ISO | D_SAVE => DownProceeds(from, saved, s, s');
    case D_RST => ResetProceeds(from, saved, s, s');
    case D_MAIN_OFF | D_TRK_OFF => OffProceeds(from, saved, s, s');
    case U_ARB | U_TRK_ON | U_MAIN_ON => OnProceeds(from, saved, s, s');
    case U_RESTORE | U_RST => UpProceeds(from, saved, s, s');
    case U_CLK | U_ISO | C_CLK => ClockProceeds(from, saved, s, s');
  }

  /** One fault-free step inside a sequence. */
  lemma SequenceStep(p: Params, from: St, saved: bool, s: Slice, i: SliceIn, s': Slice)
    requires p.Ok() && Inv(p, s) && Inv(p, s') && Step(p, s, i, s') && !i.reset
    requires Within(from, saved, s) && !s'.r.pd.st.S_FAULT?
    ensures Proceeds(from, saved, s, s')
  {
    hide Step, Inv, Changes, EdgeChanges, StepAdds, Within, SequenceEdge;
    EdgeFacts(p, from, saved, s, i, s');
    EdgeChangesRight(s, s');
    EdgeProceeds(from, saved, s, s');
  }

  /** The step that leaves a stable state. */
  lemma FirstStep(p: Params, s: Slice, i: SliceIn, s': Slice)
    requires p.Ok() && Inv(p, s) && Inv(p, s') && Step(p, s, i, s') && !i.reset
    requires Stable(s.r.pd.st) && s'.r.pd.st != s.r.pd.st
    ensures var (from, saved) := (s.r.pd.st, s.r.pd.retValid);
            && (Within(from, saved, s') || s'.r.pd.st.S_OFF?)
            && Adds(s, s', KindNow(from, saved, s'.r.pd), 0, RowsDone(from, saved, s'))
  {
    hide Next, Changes, Adds;
    var t := Effective(p.hasRet, i.tgt);
    StableMoves(p, s.r.pd, PdInputs(p, s.r, i));
    ReqStep(p, s.r.pd.st, false, s, i, s');
    if s.r.pd.st.S_ON? {
      RunningStep(p, s, i, s');
    }
    DepartChanges(s, s', t);
    DepartProceeds(s, s', t);
  }

  ghost predicate UpTo(log: seq<Entry>, m: nat) {
    forall q :: 0 <= q < |log| ==> log[q].cycle <= m
  }

  lemma AppendRows(log: seq<Entry>, s: Slice, s': Slice, m: nat, k: Kind, k': Kind, n: nat, n': nat)
    requires Matches(log, k, n) && UpTo(log, m) && Adds(s, s', k', n, n')
    requires k == k' || n == 0 || (n == 1 && |Template(k)| > 0 && Template(k)[0] == Template(k')[0])
    ensures var log' := log + Stamp(Changes(s, s'), m + 1);
            Matches(log', k', n') && UpTo(log', m + 1)
  {
    hide Changes, Template;
    var c := Stamp(Changes(s, s'), m + 1);
    var log' := log + c;
    forall q | 0 <= q < n'
      ensures Shows(log'[q].change, Template(k')[q])
    {
      if q >= n {
        assert log'[q] == c[q - n];
      }
    }
    forall q | 0 < q < n'
      ensures if Template(k')[q].same then log'[q].cycle == log'[q - 1].cycle
              else log'[q - 1].cycle < log'[q].cycle
    {
      if q >= n {
        assert log'[q] == c[q - n];
      }
    }
  }

  /** A sequence under way (or just over) at cycle m, started when the stable state at i was left. */
  ghost predicate Segment(p: Params, run: seq<Slice>, ins: seq<SliceIn>, i: nat, m: nat)
    requires p.Ok()
  {
    && IsRun(p, run, ins) && i < m < |run|
    && Stable(run[i].r.pd.st) && run[i + 1].r.pd.st != run[i].r.pd.st
    && (forall j :: i < j < m ==> MidSequence(run[j].r.pd.st))
    && (forall j :: i <= j < m ==> !ins[j].reset)
    && !run[m].r.pd.st.S_FAULT?
  }

  /** The log so far is the done part of the template. */
  ghost predicate LogFollows(run: seq<Slice>, i: nat, m: nat)
    requires i <= m < |run|
  {
    var (from, saved) := (run[i].r.pd.st, run[i].r.pd.retValid);
    && (Within(from, saved, run[m]) || Stable(run[m].r.pd.st))
    && Matches(Log(run, i, m), KindNow(from, saved, run[m].r.pd), RowsDone(from, saved, run[m]))
    && UpTo(Log(run, i, m), m)
  }

  lemma LogStarts(p: Params, run: seq<Slice>, ins: seq<SliceIn>, i: nat)
    requires p.Ok() && Segment(p, run, ins, i, i + 1)
    ensures LogFollows(run, i, i + 1)
  {
    hide Next, Changes, Adds, Template, Within, RowsDone, KindNow;
    var (from, saved, s, s') := (run[i].r.pd.st, run[i].r.pd.retValid, run[i], run[i + 1]);
    RunInv(p, run, ins, i);
    RunInv(p, run, ins, i + 1);
    assert StepAt(p, run, ins, i);
    FirstStep(p, s, ins[i], s');
    assert Log(run, i, i) == [];
    var k' := KindNow(from, saved, s'.r.pd);
    AppendRows([], s, s', i, k', k', 0, RowsDone(from, saved, s'));
  }

  lemma LogStep(p: Params, run: seq<Slice>, i: nat, l: nat, m: nat, si: SliceIn)
    requires p.Ok() && i < l && m == l + 1 < |run| && LogFollows(run, i, l) && MidSequence(run[l].r.pd.st)
    requires Inv(p, run[l]) && Inv(p, run[m]) && Step(p, run[l], si, run[m]) && !si.reset
    requires !run[m].r.pd.st.S_FAULT?
    ensures LogFollows(run, i, m)
  {
    hide Step, Inv, Changes, Adds, Template, Within, RowsDone, KindNow;
    var (from, saved, s, s') := (run[i].r.pd.st, run[i].r.pd.retValid, run[l], run[m]);
    SequenceStep(p, from, saved, s, si, s');
    AppendRows(Log(run, i, l), s, s', l, KindNow(from, saved, s.r.pd),
               KindNow(from, saved, s'.r.pd), RowsDone(from, saved, s), RowsDone(from, saved, s'));
  }

  lemma SegmentOrder(p: Params, run: seq<Slice>, ins: seq<SliceIn>, i: nat, m: nat)
    requires p.Ok() && Segment(p, run, ins, i, m)
    ensures i < m < |run| && |run| == |ins| + 1
  {
    hide Step, Init;
  }

  lemma SegmentShrinks(p: Params, run: seq<Slice>, ins: seq<SliceIn>, i: nat, m: nat)
    requires p.Ok() && Segment(p, run, ins, i, m) && m > i + 1
    ensures Segment(p, run, ins, i, m - 1) && MidSequence(run[m - 1].r.pd.st) && !ins[m - 1].reset
    ensures Inv(p, run[m - 1]) && Inv(p, run[m]) && Step(p, run[m - 1], ins[m - 1], run[m])
    ensures !run[m].r.pd.st.S_FAULT?
  {
    hide Step, Inv, Init;
    RunInv(p, run, ins, m - 1);
    RunInv(p, run, ins, m);
    assert StepAt(p, run, ins, m - 1);
  }

  lemma {:induction false} LogGrows(p: Params, run: seq<Slice>, ins: seq<SliceIn>, i: nat, m: nat)
    requires p.Ok() && Segment(p, run, ins, i, m)
    ensures LogFollows(run, i, m)
    decreases m
  {
    SegmentOrder(p, run, ins, i, m);
    hide LogFollows, Step, Inv, Segment;
    if m == i + 1 {
      LogStarts(p, run, ins, i);
    } else {
      SegmentShrinks(p, run, ins, i, m);
      LogGrows(p, run, ins, i, m - 1);
      var l := m - 1;
      assert Step(p, run[l], ins[l], run[m]) && Inv(p, run[l]) && Inv(p, run[m]);
      LogStep(p, run, i, l, m, ins[l]);
    }
  }

  /** Between leaving a stable state at i and reaching a stable state at j without FAULT, the
      outputs change exactly as the template of that pair of states says: the same changes, in
      the same order, each in a strictly later cycle but for the marked companions. */
  lemma SequenceMatchesTemplate(p: Params, run: seq<Slice>, ins: seq<SliceIn>, i: nat, j: nat)
    requires p.Ok() && Segment(p, run, ins, i, j) && Stable(run[j].r.pd.st)
    ensures var k := KindBetween(run[i].r.pd.st, run[j].r.pd.st, run[i].r.pd.retValid);
            Matches(Log(run, i, j), k, |Template(k)|)
  {
    LogGrows(p, run, ins, i, j);
  }

  /** A power-up out of RET restores. */
  lemma RetRestores(p: Params, run: seq<Slice>, ins: seq<SliceIn>, i: nat, j: nat)
    requires p.Ok() && Segment(p, run, ins, i, j)
    requires run[i].r.pd.st.S_RET? && run[j].r.pd.st.S_ON?
    ensures Matches(Log(run, i, j), PuRest, |Template(PuRest)|)
  {
    RunInv(p, run, ins, i);
    LogGrows(p, run, ins, i, j);
  }
}
