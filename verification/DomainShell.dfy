/** A switchable domain as seen from its power controls: normal registers, retention registers
    with an always-on shadow, power loss, reset, save and restore. */
module DomainShell {

  /** A register's content; Lost stands for the unknown value after power loss. */
  datatype Val = Lost | Known(v: nat)

  datatype ShellParams = ShellParams(hasRet: bool, nNorm: nat, nRet: nat, base: nat, modulus: nat) {
    predicate Ok() {
      modulus > 0
    }
  }

  datatype Shell = Shell(nreg: seq<Val>, rlive: seq<Val>, shadow: seq<Val>, restored: bool)

  /** Levels at the domain's control inputs. */
  datatype Levels = Levels(pwr: bool, clkEn: bool, rstN: bool, save: bool, restore: bool)

  datatype Write = NoWrite | Write(idx: nat, data: nat)

  function ResetNormal(q: ShellParams): (r: seq<Val>)
    requires q.Ok()
    ensures |r| == q.nNorm
  {
    seq(q.nNorm, i => Known((q.base + i) % q.modulus))
  }

  function Zeros(n: nat): (r: seq<Val>)
    ensures |r| == n && forall i :: 0 <= i < n ==> r[i] == Known(0)
  {
    seq(n, _ => Known(0))
  }

  function AllLost(n: nat): (r: seq<Val>)
    ensures |r| == n && forall i :: 0 <= i < n ==> r[i] == Lost
  {
    seq(n, _ => Lost)
  }

  ghost predicate Fits(q: ShellParams, sh: Shell) {
    |sh.nreg| == q.nNorm && |sh.rlive| == q.nRet && |sh.shadow| == q.nRet
  }

  function PowerLost(q: ShellParams, sh: Shell): Shell {
    Shell(AllLost(q.nNorm), AllLost(q.nRet), sh.shadow, false)
  }

  /** The block of the normal registers, run at one of its events with these levels. */
  function NormalEvent(q: ShellParams, sh: Shell, l: Levels, w: Write): (r: Shell)
    requires q.Ok() && Fits(q, sh)
    ensures Fits(q, r) && r.rlive == sh.rlive && r.shadow == sh.shadow && r.restored == sh.restored
  {
    if !l.pwr then sh
    else if !l.rstN then sh.(nreg := ResetNormal(q))
    else if w.Write? && w.idx < q.nNorm then sh.(nreg := sh.nreg[w.idx := Known(w.data % q.modulus)])
    else sh
  }

  /** The block of the retention registers: a restore overrides reset, and reset applies only if
      nothing was restored since the last power loss. */
  function RetentionEvent(q: ShellParams, sh: Shell, l: Levels, w: Write): (r: Shell)
    requires q.Ok() && Fits(q, sh)
    ensures Fits(q, r) && r.nreg == sh.nreg && r.shadow == sh.shadow
  {
    if !l.pwr then sh
    else if q.hasRet && l.restore then sh.(rlive := sh.shadow, restored := true)
    else if !l.rstN then
      if q.hasRet && sh.restored then sh else sh.(rlive := Zeros(q.nRet))
    else if w.Write? && q.nNorm <= w.idx < q.nNorm + q.nRet then
      sh.(rlive := sh.rlive[w.idx - q.nNorm := Known(w.data % q.modulus)])
    else sh
  }

  function BothEvents(q: ShellParams, sh: Shell, l: Levels, w: Write): (r: Shell)
    requires q.Ok() && Fits(q, sh)
    ensures Fits(q, r)
  {
    RetentionEvent(q, NormalEvent(q, sh, l, w), l, w)
  }

  /** From one cycle to the next: the clock edge sees the old levels, then the controls change,
      then the switches. */
  function NextShell(q: ShellParams, sh: Shell, l: Levels, w: Write, l': Levels): (r: Shell)
    requires q.Ok() && Fits(q, sh)
    ensures Fits(q, r)
  {
    var c := if l.clkEn then BothEvents(q, sh, l, w) else sh;
    PowerChange(q, ControlChange(q, c, l, l'), l, l')
  }

  function ControlChange(q: ShellParams, sh: Shell, l: Levels, l': Levels): (r: Shell)
    requires q.Ok() && Fits(q, sh)
    ensures Fits(q, r)
  {
    var mid := l'.(pwr := l.pwr);
    var a := if q.hasRet && !l.save && l'.save then sh.(shadow := sh.rlive) else sh;
    var b := if l.rstN && !l'.rstN then BothEvents(q, a, mid, NoWrite) else a;
    if q.hasRet && !l.restore && l'.restore then RetentionEvent(q, b, mid, NoWrite) else b
  }

  function PowerChange(q: ShellParams, sh: Shell, l: Levels, l': Levels): (r: Shell)
    requires q.Ok() && Fits(q, sh)
    ensures Fits(q, r)
  {
    if l.pwr && !l'.pwr then PowerLost(q, sh)
    else if !l.pwr && l'.pwr then BothEvents(q, sh, l', NoWrite)
    else sh
  }

  /** The shell itself, updated in place by its events. */
  class Domain {
    const q: ShellParams
    var nreg: seq<Val>
    var rlive: seq<Val>
    var shadow: seq<Val>
    var restored: bool

    ghost predicate Valid()
      reads this
    {
      q.Ok() && Fits(q, View())
    }

    function View(): Shell
      reads this
    {
      Shell(nreg, rlive, shadow, restored)
    }

    constructor (q: ShellParams)
      requires q.Ok()
      ensures Valid() && this.q == q
      ensures View() == Shell(AllLost(q.nNorm), AllLost(q.nRet), Zeros(q.nRet), false)
    {
      this.q := q;
      nreg, rlive, shadow := AllLost(q.nNorm), AllLost(q.nRet), Zeros(q.nRet);
      restored := false;
    }

    method LosePower()
      requires Valid()
      modifies this
      ensures Valid() && View() == PowerLost(q, old(View()))
    {
      for i := 0 to q.nNorm
        invariant Valid() && shadow == old(shadow) && rlive == old(rlive)
        invariant forall j :: 0 <= j < i ==> nreg[j] == Lost
      {
        nreg := nreg[i := Lost];
      }
      for i := 0 to q.nRet
        invariant Valid() && shadow == old(shadow)
        invariant forall j :: 0 <= j < q.nNorm ==> nreg[j] == Lost
        invariant forall j :: 0 <= j < i ==> rlive[j] == Lost
      {
        rlive := rlive[i := Lost];
      }
      restored := false;
      assert nreg == AllLost(q.nNorm) && rlive == AllLost(q.nRet);
    }

    method OnNormal(l: Levels, w: Write)
      requires Valid()
      modifies this
      ensures Valid() && View() == NormalEvent(q, old(View()), l, w)
    {
      if l.pwr {
        if !l.rstN {
          for i := 0 to q.nNorm
            invariant Valid() && shadow == old(shadow) && rlive == old(rlive)
            invariant restored == old(restored)
            invariant forall j :: 0 <= j < i ==> nreg[j] == Known((q.base + j) % q.modulus)
          {
            nreg := nreg[i := Known((q.base + i) % q.modulus)];
          }
          assert nreg == ResetNormal(q);
        } else if w.Write? && w.idx < q.nNorm {
          nreg := nreg[w.idx := Known(w.data % q.modulus)];
        }
      }
    }

    method OnRetention(l: Levels, w: Write)
      requires Valid()
      modifies this
      ensures Valid() && View() == RetentionEvent(q, old(View()), l, w)
    {
      if l.pwr {
        if q.hasRet && l.restore {
          for i := 0 to q.nRet
            invariant Valid() && shadow == old(shadow) && nreg == old(nreg)
            invariant forall j :: 0 <= j < i ==> rlive[j] == shadow[j]
          {
            rlive := rlive[i := shadow[i]];
          }
          restored := true;
          assert rlive == shadow;
        } else if !l.rstN {
          if !(q.hasRet && restored) {
            for i := 0 to q.nRet
              invariant Valid() && shadow == old(shadow) && nreg == old(nreg)
              invariant restored == old(restored)
              invariant forall j :: 0 <= j < i ==> rlive[j] == Known(0)
            {
              rlive := rlive[i := Known(0)];
            }
            assert rlive == Zeros(q.nRet);
          }
        } else if w.Write? && q.nNorm <= w.idx < q.nNorm + q.nRet {
          rlive := rlive[w.idx - q.nNorm := Known(w.data % q.modulus)];
        }
      }
    }

    method OnSave()
      requires Valid()
      modifies this
      ensures Valid() && View() == old(View()).(shadow := old(rlive))
    {
      for i := 0 to q.nRet
        invariant Valid() && nreg == old(nreg) && rlive == old(rlive) && restored == old(restored)
        invariant forall j :: 0 <= j < i ==> shadow[j] == rlive[j]
      {
        shadow := shadow[i := rlive[i]];
      }
      assert shadow == rlive;
    }

    method OnControls(l: Levels, l': Levels)
      requires Valid()
      modifies this
      ensures Valid() && View() == ControlChange(q, old(View()), l, l')
    {
      var mid := l'.(pwr := l.pwr);
      if q.hasRet && !l.save && l'.save {
        OnSave();
      }
      if l.rstN && !l'.rstN {
        OnNormal(mid, NoWrite);
        OnRetention(mid, NoWrite);
      }
      if q.hasRet && !l.restore && l'.restore {
        OnRetention(mid, NoWrite);
      }
    }

    method OnPower(l: Levels, l': Levels)
      requires Valid()
      modifies this
      ensures Valid() && View() == PowerChange(q, old(View()), l, l')
    {
      if l.pwr && !l'.pwr {
        LosePower();
      } else if !l.pwr && l'.pwr {
        OnNormal(l', NoWrite);
        OnRetention(l', NoWrite);
      }
    }

    method Tick(l: Levels, w: Write, l': Levels)
      requires Valid()
      modifies this
      ensures Valid() && View() == NextShell(q, old(View()), l, w, l')
    {
      hide ControlChange, PowerChange;
      if l.clkEn {
        OnNormal(l, w);
        OnRetention(l, w);
      }
      OnControls(l, l');
      OnPower(l, l');
    }
  }
}
