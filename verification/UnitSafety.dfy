/** The pin-level safety of every domain of the unit: the results for one slice under arbitrary
    inputs, carried over to the wired system. */
module UnitSafety {
  import opened SliceSafety
  import opened PmuTop

  /** In every cycle of every run of the unit, a domain that is unisolated, out of reset or clocked
      has both switch acknowledges high on its pins. */
  lemma UnitIsPowered(p: SysParams, run: seq<Sys>, ins: seq<SysIn>, k: nat, d: nat)
    requires IsSysRun(p, run, ins) && k < |run| && d < p.N()
    ensures d < |run[k].slices|
    ensures var (o, pins) := (run[k].slices[d].r.pd.out, run[k].slices[d].pins);
            !o.isoEn || o.rstN || o.clkEn ==> pins.trkAck && pins.mainAck
  {
    Projects(p, run, ins, d);
    var (r, i) := (SliceRun(run, d), SliceIns(p, run, ins, d));
    assert r[k] == run[k].slices[d];
    var o := r[k].r.pd.out;
    if !o.isoEn || o.rstN || o.clkEn {
      PhysicalPower(p.Of(d), r, i, k);
    }
  }

  /** At every edge without PMU reset every domain's controller keeps the Q-Channel rules on the
      pins. */
  lemma UnitKeepsQChannelRules(p: SysParams, run: seq<Sys>, ins: seq<SysIn>, k: nat, d: nat)
    requires IsSysRun(p, run, ins) && k < |ins| && !ins[k].reset && d < p.N()
    ensures d < |run[k].slices| && d < |run[k + 1].slices|
    ensures var (s, s') := (run[k].slices[d], run[k + 1].slices[d]);
            && (s.r.qreqn && !s'.r.qreqn ==> s.pins.qa && !s.pins.qd)
            && (!s.r.qreqn && s'.r.qreqn ==> s.pins.qa == s.pins.qd)
            && (s.r.pd.out.rstN && !s'.r.pd.out.rstN ==> !s.r.qreqn && !s.pins.qa && !s.pins.qd)
  {
    Projects(p, run, ins, d);
    var (r, i) := (SliceRun(run, d), SliceIns(p, run, ins, d));
    assert r[k] == run[k].slices[d] && r[k + 1] == run[k + 1].slices[d];
    QChannelRules(p.Of(d), r, i, k);
  }
}
