/** The order in which a domain's outputs change between two stable states: the sequence
    templates of the scoreboard, and the log they are compared with. */
module Templates {
  import opened PmuTypes
  import opened DomainSlice

  datatype Sig = QReqN | ClkEn | IsoEn | RetSave | RetRestore | RstN | TrkEn | MainEn

  /** One output change; same: made in the same cycle as the one before it, on purpose. */
  datatype Row = Row(sig: Sig, to: bool, same: bool)

  datatype Change = Change(sig: Sig, to: bool)

  datatype Entry = Entry(change: Change, cycle: nat)

  datatype Kind =
    PdRet | PdOff | CgRet | CgOff | CgDown | CgUp | PuRest | Pu | Deny | RetOff

  function Template(k: Kind): seq<Row> {
    match k
    case PdRet => [Row(QReqN, false, false), Row(ClkEn, false, false), Row(IsoEn, true, false),
                   Row(RetSave, true, false), Row(RetSave, false, false), Row(RstN, false, true),
                   Row(MainEn, false, false), Row(TrkEn, false, false)]
    case PdOff => [Row(QReqN, false, false), Row(ClkEn, false, false), Row(IsoEn, true, false),
                   Row(RstN, false, false), Row(MainEn, false, false), Row(TrkEn, false, false)]
    case CgRet => [Row(IsoEn, true, false), Row(RetSave, true, false), Row(RetSave, false, false),
                   Row(RstN, false, true), Row(MainEn, false, false), Row(TrkEn, false, false)]
    case CgOff => [Row(IsoEn, true, false), Row(RstN, false, false), Row(MainEn, false, false),
                   Row(TrkEn, false, false)]
    case CgDown => [Row(QReqN, false, false), Row(ClkEn, false, false)]
    case CgUp => [Row(ClkEn, true, false), Row(QReqN, true, false)]
    case PuRest => [Row(TrkEn, true, false), Row(MainEn, true, false), Row(RetRestore, true, false),
                    Row(RetRestore, false, false), Row(RstN, true, true), Row(ClkEn, true, false),
                    Row(IsoEn, false, false), Row(QReqN, true, false)]
    case Pu => [Row(TrkEn, true, false), Row(MainEn, true, false), Row(RstN, true, false),
                Row(ClkEn, true, false), Row(IsoEn, false, false), Row(QReqN, true, false)]
    case Deny => [Row(QReqN, false, false), Row(QReqN, true, false)]
    case RetOff => []
  }

  /** The template two different stable states select; a power-up restores exactly if the
      domain held a saved state; ON to ON is a deny. */
  function KindBetween(from: St, to: St, saved: bool): Kind {
    match (from, to)
    case (S_ON, S_CG) => CgDown
    case (S_ON, S_RET) => PdRet
    case (S_ON, S_OFF) => PdOff
    case (S_CG, S_ON) => CgUp
    case (S_CG, S_RET) => CgRet
    case (S_CG, S_OFF) => CgOff
    case (S_RET, S_OFF) => RetOff
    case (S_RET, S_ON) => if saved then PuRest else Pu
    case (S_OFF, S_ON) => if saved then PuRest else Pu
    case _ => Deny
  }

  function One(sig: Sig, was: bool, now: bool): seq<Change> {
    if was == now then [] else [Change(sig, now)]
  }

  /** The output changes of one step, in the order in which the scoreboard looks at the pins. */
  function Changes(s: Slice, s': Slice): seq<Change> {
    var (o, o') := (s.r.pd.out, s'.r.pd.out);
    One(QReqN, s.r.qreqn, s'.r.qreqn)
    + One(ClkEn, o.clkEn, o'.clkEn) + One(IsoEn, o.isoEn, o'.isoEn)
    + One(RetSave, o.retSave, o'.retSave) + One(RetRestore, o.retRestore, o'.retRestore)
    + One(RstN, o.rstN, o'.rstN) + One(TrkEn, o.trkEn, o'.trkEn) + One(MainEn, o.mainEn, o'.mainEn)
  }

  function Stamp(c: seq<Change>, cycle: nat): seq<Entry> {
    seq(|c|, q requires 0 <= q < |c| => Entry(c[q], cycle))
  }

  /** Everything logged from cycle i to cycle j. */
  function Log(run: seq<Slice>, i: nat, j: nat): seq<Entry>
    requires i <= j < |run|
  {
    if i == j then [] else Log(run, i, j - 1) + Stamp(Changes(run[j - 1], run[j]), j)
  }

  ghost predicate Shows(c: Change, r: Row) {
    c == Change(r.sig, r.to)
  }

  /** The log is exactly the first n rows of the template, in order; an entry shares its cycle
      with the one before it exactly where the template says so, and is strictly later otherwise. */
  ghost predicate Matches(log: seq<Entry>, k: Kind, n: nat) {
    && n <= |Template(k)| && |log| == n
    && (forall q :: 0 <= q < n ==> Shows(log[q].change, Template(k)[q]))
    && (forall q :: 0 < q < n ==>
          if Template(k)[q].same then log[q].cycle == log[q - 1].cycle
          else log[q - 1].cycle < log[q].cycle)
  }
}
