/** The residency policy: which power mode saves most for an expected idle time. Each mode is a
    line over the residency; the policy walks a grid and records where the best line changes. */
module Policy {

  /** saving in W, overhead in J; name is the rank of the mode's name in string order, which
      breaks ties. */
  datatype PowerMode = PowerMode(saving: real, overhead: real, name: nat)

  datatype Option<T> = None | Some(value: T)

  datatype Best = Stay | Enter(mode: PowerMode)

  datatype Seg = Seg(from: real, best: Best)

  function Value(m: PowerMode, t: real): real {
    m.saving * t - m.overhead
  }

  /** The order of the candidate pairs (value, name). */
  predicate AtLeast(a: PowerMode, b: PowerMode, t: real) {
    Value(a, t) > Value(b, t) || (Value(a, t) == Value(b, t) && a.name >= b.name)
  }

  /** The modes are the entries of a dictionary: no two share a name. */
  predicate DistinctNames(ms: seq<PowerMode>) {
    forall i, j :: 0 <= i < j < |ms| ==> ms[i].name != ms[j].name
  }

  function MaxMode(ms: seq<PowerMode>, t: real): (m: PowerMode)
    requires |ms| > 0
    ensures m in ms && forall k :: 0 <= k < |ms| ==> AtLeast(m, ms[k], t)
  {
    var last := ms[|ms| - 1];
    if |ms| == 1 then last
    else
      var m := MaxMode(ms[..|ms| - 1], t);
      assert forall k :: 0 <= k < |ms| - 1 ==> ms[..|ms| - 1][k] == ms[k];
      if AtLeast(m, last, t) then m else last
  }

  function Choice(ms: seq<PowerMode>, t: real): Best
    requires |ms| > 0
  {
    var m := MaxMode(ms, t);
    if Value(m, t) > 0.0 then Enter(m) else Stay
  }

  predicate Saves(m: PowerMode, t: real) {
    m.saving * t - m.overhead > 0.0
  }

  predicate NothingSaves(ms: seq<PowerMode>, t: real) {
    forall k :: 0 <= k < |ms| ==> !Saves(ms[k], t)
  }

  /** What an optimal entry is, in energy: it saves something, nothing saves more, and of modes that
      save the same it is the one with the greatest name; staying means that nothing saves anything. */
  predicate Optimal(ms: seq<PowerMode>, b: Best, t: real) {
    match b
    case Stay => NothingSaves(ms, t)
    case Enter(m) =>
      && m in ms && m.saving * t - m.overhead > 0.0
      && forall k :: 0 <= k < |ms| ==>
           var (mine, other) := (m.saving * t - m.overhead, ms[k].saving * t - ms[k].overhead);
           mine > other || (mine == other && m.name >= ms[k].name)
  }

  /** The choice is optimal. */
  lemma ChoiceIsOptimal(ms: seq<PowerMode>, t: real)
    requires |ms| > 0
    ensures Optimal(ms, Choice(ms, t), t)
    ensures Choice(ms, t).Stay? <==> NothingSaves(ms, t)
  {
    var m := MaxMode(ms, t);
    forall k | 0 <= k < |ms|
      ensures AtLeast(m, ms[k], t)
    {
    }
    if Value(m, t) > 0.0 {
      var k :| 0 <= k < |ms| && ms[k] == m;
      assert Saves(ms[k], t);
    } else {
      forall k | 0 <= k < |ms|
        ensures !Saves(ms[k], t)
      {
        assert AtLeast(m, ms[k], t);
      }
    }
  }

  /** The residency from which a mode pays, if it ever does. */
  function BreakEven(m: PowerMode): Option<real> {
    if m.saving > 0.0 then Some(m.overhead / m.saving) else None
  }

  lemma PositiveProduct(a: real, b: real)
    requires a > 0.0
    ensures a * b > 0.0 <==> b > 0.0
  {
  }

  /** A mode pays exactly beyond its break-even time. */
  lemma PaysBeyondBreakEven(m: PowerMode, t: real)
    requires m.overhead >= 0.0 && t > 0.0
    ensures Saves(m, t) <==> BreakEven(m).Some? && t > BreakEven(m).value
  {
    if m.saving > 0.0 {
      var b := BreakEven(m).value;
      assert m.saving * b == m.overhead;
      assert m.saving * t - m.overhead == m.saving * (t - b);
      PositiveProduct(m.saving, t - b);
    } else {
      assert m.saving * t <= 0.0;
    }
  }

  /** The policy stays in RUN exactly up to the least break-even time of any mode. */
  lemma StaysUpToBreakEven(ms: seq<PowerMode>, t: real)
    requires |ms| > 0 && NonNegative(ms) && t > 0.0
    ensures Choice(ms, t).Stay? <==>
              forall k :: 0 <= k < |ms| ==> BreakEven(ms[k]).Some? ==> t <= BreakEven(ms[k]).value
  {
    hide Choice, Optimal, Saves, BreakEven;
    ChoiceIsOptimal(ms, t);
    forall k | 0 <= k < |ms|
      ensures Saves(ms[k], t) <==> BreakEven(ms[k]).Some? && t > BreakEven(ms[k]).value
    {
      PaysBeyondBreakEven(ms[k], t);
    }
  }

  /** The segments over a grid. */
  function Segments(ms: seq<PowerMode>, grid: seq<real>): (segs: seq<Seg>)
    requires |ms| > 0
    ensures |segs| > 0 <==> |grid| > 0
    ensures |grid| > 0 ==> segs[|segs| - 1].best == Choice(ms, grid[|grid| - 1])
  {
    if |grid| == 0 then []
    else
      var t := grid[|grid| - 1];
      var (segs, b) := (Segments(ms, grid[..|grid| - 1]), Choice(ms, t));
      if |segs| > 0 && segs[|segs| - 1].best == b then segs else segs + [Seg(t, b)]
  }

  method ComputePolicy(ms: seq<PowerMode>, grid: seq<real>) returns (segs: seq<Seg>)
    requires |ms| > 0
    ensures segs == Segments(ms, grid)
    ensures Ascending(grid) ==> forall k :: 0 <= k < |grid| ==> Optimal(ms, EntryAt(segs, grid[k]), grid[k])
  {
    segs := [];
    var none, prev := true, Stay;
    for k := 0 to |grid|
      invariant segs == Segments(ms, grid[..k])
      invariant none <==> |segs| == 0
      invariant !none ==> prev == segs[|segs| - 1].best
    {
      var t := grid[k];
      var best := Choice(ms, t);
      assert grid[..k + 1][..k] == grid[..k];
      if none || best != prev {
        segs := segs + [Seg(t, best)];
        none, prev := false, best;
      }
    }
    assert grid[..|grid|] == grid;
    if Ascending(grid) {
      hide Optimal, EntryAt;
      forall k | 0 <= k < |grid|
        ensures Optimal(ms, EntryAt(segs, grid[k]), grid[k])
      {
        TableIsOptimal(ms, grid, k);
      }
    }
  }

  predicate Ascending(grid: seq<real>) {
    forall i, j :: 0 <= i < j < |grid| ==> grid[i] < grid[j]
  }

  predicate Positive(grid: seq<real>) {
    forall i :: 0 <= i < |grid| ==> grid[i] > 0.0
  }

  predicate NonNegative(ms: seq<PowerMode>) {
    forall i :: 0 <= i < |ms| ==> ms[i].overhead >= 0.0
  }

  /** Every segment starts at a grid point, with the choice of that point; starts ascend, and
      neighbours differ. */
  ghost predicate TableOver(ms: seq<PowerMode>, grid: seq<real>, segs: seq<Seg>)
    requires |ms| > 0
  {
    && (forall j :: 0 <= j < |segs| ==> segs[j].from in grid && segs[j].best == Choice(ms, segs[j].from))
    && (forall i, j :: 0 <= i < j < |segs| ==> segs[i].from < segs[j].from)
    && (forall i, j :: 0 <= i < |segs| && j == i + 1 && j < |segs| ==> segs[i].best != segs[j].best)
  }

  lemma {:induction false} SegmentsStart(ms: seq<PowerMode>, grid: seq<real>)
    requires |ms| > 0 && Ascending(grid)
    ensures TableOver(ms, grid, Segments(ms, grid))
  {
    if |grid| > 0 {
      var (init, t) := (grid[..|grid| - 1], grid[|grid| - 1]);
      var (rest, b) := (Segments(ms, init), Choice(ms, t));
      assert Segments(ms, grid) == if |rest| > 0 && rest[|rest| - 1].best == b then rest else rest + [Seg(t, b)];
      assert forall x :: x in init ==> x < t;
      assert Ascending(init) && grid == init + [t];
      hide Segments, Choice, TableOver;
      SegmentsStart(ms, init);
      TableExtends(ms, init, rest, t);
    }
  }

  lemma TableExtends(ms: seq<PowerMode>, init: seq<real>, segs: seq<Seg>, t: real)
    requires |ms| > 0 && TableOver(ms, init, segs) && forall x :: x in init ==> x < t
    ensures TableOver(ms, init + [t], segs)
    ensures |segs| > 0 ==> segs[|segs| - 1].best != Choice(ms, t) ==>
              TableOver(ms, init + [t], segs + [Seg(t, Choice(ms, t))])
    ensures |segs| == 0 ==> TableOver(ms, init + [t], segs + [Seg(t, Choice(ms, t))])
  {
    hide Choice;
  }

  /** The entry that applies at t: the last segment that has started. */
  function EntryAt(segs: seq<Seg>, t: real): Best
    requires |segs| > 0
  {
    var last := segs[|segs| - 1];
    if |segs| == 1 || last.from <= t then last.best else EntryAt(segs[..|segs| - 1], t)
  }

  /** Reading the table at a grid point gives the choice made there. */
  lemma {:induction false} TableGivesChoice(ms: seq<PowerMode>, grid: seq<real>, k: nat)
    requires |ms| > 0 && Ascending(grid) && k < |grid|
    ensures EntryAt(Segments(ms, grid), grid[k]) == Choice(ms, grid[k])
  {
    var n := |grid| - 1;
    var (init, segs) := (grid[..n], Segments(ms, grid[..n]));
    if k < n {
      TableGivesChoice(ms, init, k);
      assert init[k] == grid[k];
      if Segments(ms, grid) != segs {
        assert Segments(ms, grid)[..|segs|] == segs;
      }
    } else {
      SegmentsStart(ms, grid);
      var all := Segments(ms, grid);
      var i :| 0 <= i < |grid| && grid[i] == all[|all| - 1].from;
      assert grid[i] <= grid[n];
    }
  }

  /** The table is right at every grid point: the entry read there saves the most energy. */
  lemma TableIsOptimal(ms: seq<PowerMode>, grid: seq<real>, k: nat)
    requires |ms| > 0 && Ascending(grid) && k < |grid|
    ensures var (best, t) := (EntryAt(Segments(ms, grid), grid[k]), grid[k]);
            && Optimal(ms, best, t)
            && (best.Stay? <==> NothingSaves(ms, t))
  {
    hide Segments, Choice, EntryAt, Optimal, NothingSaves;
    TableGivesChoice(ms, grid, k);
    ChoiceIsOptimal(ms, grid[k]);
  }

  /** A mode that pays at t pays at every later time. */
  lemma PaysLater(m: PowerMode, t: real, u: real)
    requires m.overhead >= 0.0 && 0.0 < t < u && Value(m, t) > 0.0
    ensures Value(m, u) > 0.0
  {
    assert m.saving * t > 0.0;
    assert m.saving > 0.0;
    assert m.saving * u > m.saving * t;
  }

  /** Staying in RUN can only be the first entry. */
  lemma StayOnlyFirst(ms: seq<PowerMode>, grid: seq<real>, j: nat)
    requires |ms| > 0 && Ascending(grid) && Positive(grid) && NonNegative(ms)
    requires 0 < j < |Segments(ms, grid)|
    ensures Segments(ms, grid)[j].best.Enter?
  {
    SegmentsStart(ms, grid);
    var segs := Segments(ms, grid);
    var (a, b) := (segs[j - 1], segs[j]);
    if b.best.Stay? {
      assert a.best.Enter?;
      var i :| 0 <= i < |grid| && grid[i] == a.from;
      var k :| 0 <= k < |ms| && ms[k] == a.best.mode;
      PaysLater(ms[k], a.from, b.from);
      ChoiceIsOptimal(ms, b.from);
      assert false;
    }
  }

  /** Of two lines the one that is best later is steeper. */
  lemma SteeperLater(a: PowerMode, b: PowerMode, t: real, u: real)
    requires t < u && AtLeast(a, b, t) && AtLeast(b, a, u) && a.name != b.name
    ensures a.saving < b.saving
  {
    var d := b.saving - a.saving;
    assert (Value(b, u) - Value(a, u)) - (Value(b, t) - Value(a, t)) == d * (u - t);
    assert d * (u - t) > 0.0;
  }

  /** Savings strictly increase from entry to entry, however far apart. */
  lemma SavingsIncrease(ms: seq<PowerMode>, grid: seq<real>, i: nat, j: nat)
    requires |ms| > 0 && Ascending(grid) && Positive(grid) && NonNegative(ms) && DistinctNames(ms)
    requires i < j < |Segments(ms, grid)| && Segments(ms, grid)[i].best.Enter?
    ensures Segments(ms, grid)[j].best.Enter?
    ensures Segments(ms, grid)[i].best.mode.saving < Segments(ms, grid)[j].best.mode.saving
    decreases j - i
  {
    hide Choice, Segments;
    StayOnlyFirst(ms, grid, j);
    if j > i + 1 {
      SavingsIncrease(ms, grid, i, j - 1);
    }
    SegmentsStart(ms, grid);
    var segs := Segments(ms, grid);
    NeighboursSteeper(ms, segs[j - 1], segs[j]);
  }

  lemma NeighboursSteeper(ms: seq<PowerMode>, a: Seg, b: Seg)
    requires |ms| > 0 && DistinctNames(ms) && a.from < b.from && a.best != b.best
    requires a.best == Choice(ms, a.from) && b.best == Choice(ms, b.from)
    requires a.best.Enter? && b.best.Enter?
    ensures a.best.mode.saving < b.best.mode.saving
  {
    var x :| 0 <= x < |ms| && ms[x] == a.best.mode;
    var y :| 0 <= y < |ms| && ms[y] == b.best.mode;
    assert AtLeast(ms[x], ms[y], a.from) && AtLeast(ms[y], ms[x], b.from);
    SteeperLater(ms[x], ms[y], a.from, b.from);
  }

  function Modes(ms: seq<PowerMode>): set<PowerMode> {
    set k | 0 <= k < |ms| :: ms[k]
  }

  lemma {:induction false} ModesCount(ms: seq<PowerMode>)
    ensures |Modes(ms)| <= |ms|
  {
    if |ms| > 0 {
      var init := ms[..|ms| - 1];
      ModesCount(init);
      assert Modes(ms) == Modes(init) + {ms[|ms| - 1]} by {
        assert forall k :: 0 <= k < |init| ==> ms[k] == init[k];
      }
    } else {
      assert Modes(ms) == {};
    }
  }

  /** Distinct members of a finite set are no more than its elements. */
  lemma {:induction false} DistinctCount(s: seq<PowerMode>, all: set<PowerMode>)
    requires forall i :: 0 <= i < |s| ==> s[i] in all
    requires forall i, j :: 0 <= i < j < |s| ==> s[i] != s[j]
    ensures |s| <= |all|
  {
    if |s| > 0 {
      var n := |s| - 1;
      DistinctCount(s[..n], all - {s[n]});
    }
  }

  /** The table is short: every mode has at most one entry, so with the stay entry there are at
      most |ms| + 1, whatever the grid. */
  lemma AtMostOneEntryEach(ms: seq<PowerMode>, grid: seq<real>)
    requires |ms| > 0 && Ascending(grid) && Positive(grid) && NonNegative(ms) && DistinctNames(ms)
    ensures var segs := Segments(ms, grid);
            OneEntryEach(segs) && |segs| <= |ms| + 1
  {
    hide Segments, Choice;
    var segs := Segments(ms, grid);
    forall j | 0 < j < |segs|
      ensures segs[j].best.Enter?
    {
      StayOnlyFirst(ms, grid, j);
    }
    forall i, j | 0 <= i < j < |segs|
      ensures segs[i].best != segs[j].best
    {
      if segs[i].best.Enter? {
        SavingsIncrease(ms, grid, i, j);
      }
    }
    SegmentsStart(ms, grid);
    if |segs| > 1 {
      EntriesCount(ms, segs);
    }
  }

  predicate OneEntryEach(segs: seq<Seg>) {
    && (forall j :: 0 < j < |segs| ==> segs[j].best.Enter?)
    && (forall i, j :: 0 <= i < j < |segs| ==> segs[i].best != segs[j].best)
  }

  lemma EntriesCount(ms: seq<PowerMode>, segs: seq<Seg>)
    requires |ms| > 0 && |segs| > 1
    requires OneEntryEach(segs)
    requires forall j :: 0 <= j < |segs| ==> segs[j].best == Choice(ms, segs[j].from)
    ensures |segs| <= |ms| + 1
  {
    assert forall j :: 0 < j < |segs| ==> segs[0].best != segs[j].best && segs[j].best.Enter?;
    var tail := seq(|segs| - 1, k requires 0 <= k < |segs| - 1 => segs[k + 1].best.mode);
    forall k | 0 <= k < |tail|
      ensures tail[k] in Modes(ms)
    {
      assert segs[k + 1].best == Choice(ms, segs[k + 1].from);
    }
    forall i, j | 0 <= i < j < |tail|
      ensures tail[i] != tail[j]
    {
      assert segs[i + 1].best != segs[j + 1].best;
    }
    DistinctCount(tail, Modes(ms));
    ModesCount(ms);
  }
}
