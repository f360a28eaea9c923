/** The N-stage synchroniser and what a level that settles looks like inside it. */
module SyncFf {

  /** One clock: the input enters stage 0, every stage moves on by one. */
  function Shift(line: seq<bool>, d: bool): (r: seq<bool>)
    requires |line| > 0
    ensures |r| == |line|
    ensures r[0] == d && forall k :: 1 <= k < |line| ==> r[k] == line[k - 1]
  {
    [d] + line[..|line| - 1]
  }

  function Filled(n: nat, b: bool): (r: seq<bool>)
    ensures |r| == n && forall k :: 0 <= k < n ==> r[k] == b
  {
    seq(n, _ => b)
  }

  /** What the far side of the synchroniser sees. */
  function Out(line: seq<bool>): bool
    requires |line| > 0
  {
    line[|line| - 1]
  }

  /** Pin and every stage carry the level b. */
  ghost predicate Still(b: bool, pin: bool, line: seq<bool>) {
    pin == b && forall k :: 0 <= k < |line| ==> line[k] == b
  }

  /** Among the pin and the first c stages there is at most one transition, and it goes to b:
      once a stage shows b, everything newer shows b. */
  ghost predicate Front(b: bool, pin: bool, line: seq<bool>, c: nat) {
    forall k :: 0 <= k < |line| && k < c && line[k] == b ==>
      pin == b && forall j :: 0 <= j < k ==> line[j] == b
  }

  ghost predicate Wave(b: bool, pin: bool, line: seq<bool>) {
    Front(b, pin, line, |line|)
  }

  lemma FrontStep(b: bool, pin: bool, line: seq<bool>, c: nat, pin': bool)
    requires |line| > 0
    requires Front(b, pin, line, c)
    requires pin == b ==> pin' == b
    ensures Front(b, pin', Shift(line, pin), c + 1)
  {
    var line' := Shift(line, pin);
    forall k | 0 <= k < |line'| && k < c + 1 && line'[k] == b
      ensures pin' == b && forall j :: 0 <= j < k ==> line'[j] == b
    {
      if k > 0 {
        assert line[k - 1] == b;
      }
    }
  }

  /** A front that covers the whole line and has reached its end has filled it. */
  lemma FrontFills(b: bool, pin: bool, line: seq<bool>, c: nat)
    requires |line| > 0
    requires Front(b, pin, line, c) && c >= |line| && Out(line) == b
    ensures Still(b, pin, line)
  {
    assert line[|line| - 1] == b;
  }

  /** Stage k holds the input of k + 1 clocks earlier: the line is the history of its input. */
  lemma {:induction false} LineIsHistory(init: seq<bool>, inputs: seq<bool>, k: nat)
    requires k < |init| && k < |inputs|
    ensures |Clocked(init, inputs)| == |init|
    ensures Clocked(init, inputs)[k] == inputs[|inputs| - 1 - k]
  {
    var n := |inputs|;
    if k > 0 {
      LineIsHistory(init, inputs[..n - 1], k - 1);
      assert Clocked(init, inputs[..n - 1])[k - 1] == inputs[n - 1 - k];
    }
  }

  /** The line after clocking in a whole input sequence, oldest first. */
  function Clocked(init: seq<bool>, inputs: seq<bool>): (r: seq<bool>)
    requires |init| > 0
    ensures |r| == |init|
  {
    if inputs == [] then init
    else Shift(Clocked(init, inputs[..|inputs| - 1]), inputs[|inputs| - 1])
  }

  /** The synchroniser itself. */
  class Synchroniser {
    var s: seq<bool>

    ghost predicate Valid()
      reads this
    {
      |s| >= 2
    }

    constructor (stages: nat)
      requires stages >= 2
      ensures Valid() && s == Filled(stages, false)
    {
      s := Filled(stages, false);
    }

    method Reset()
      requires Valid()
      modifies this
      ensures Valid() && s == Filled(old(|s|), false)
    {
      s := Filled(|s|, false);
    }

    method Tick(d: bool)
      requires Valid()
      modifies this
      ensures Valid() && |s| == old(|s|)
      ensures s[0] == d
      ensures forall k :: 1 <= k < |s| ==> s[k] == old(s[k - 1])
      ensures s == Shift(old(s), d)
    {
      s := [d] + s[..|s| - 1];
    }

    function Q(): bool
      requires Valid()
      reads this
    {
      s[|s| - 1]
    }
  }
}
