/** Packing of register fields: what the register-map generator accepts, the masks and reset words
    it computes, and that every field can be read back from them. */
module RegMap {

  /** bits and reset of one field; resets are not negative. */
  datatype Field = Field(msb: int, lsb: int, reset: nat)

  datatype Register = Register(addr: int, fields: seq<Field>)

  /** What loading adds to a register. */
  datatype Packed = Packed(mask: nat, reset: nat)

  datatype Error =
    | BadAddress(addr: int) | DuplicateAddress(addr: int)
    | BadBits(field: Field) | Overlap(field: Field) | ResetTooWide(field: Field)

  datatype Result<T> = Ok(value: T) | Err(error: Error)

  // ---- bits of natural numbers ----

  predicate Bit(n: nat, k: nat) {
    if k == 0 then n % 2 == 1 else Bit(n / 2, k - 1)
  }

  function And(a: nat, b: nat): nat {
    if a == 0 || b == 0 then 0 else (a % 2) * (b % 2) + 2 * And(a / 2, b / 2)
  }

  function Or(a: nat, b: nat): nat
    decreases a + b
  {
    if a == 0 then b else if b == 0 then a
    else (if a % 2 + b % 2 > 0 then 1 else 0) + 2 * Or(a / 2, b / 2)
  }

  function ShiftLeft(n: nat, k: nat): (r: nat)
    ensures n >= 1 ==> r >= 1
  {
    if k == 0 then n else 2 * ShiftLeft(n, k - 1)
  }

  function ShiftRight(n: nat, k: nat): nat {
    if k == 0 then n else ShiftRight(n / 2, k - 1)
  }

  /** w ones: (1 << w) - 1. */
  function Ones(w: nat): (r: nat)
    ensures r == ShiftLeft(1, w) - 1
  {
    if w == 0 then 0 else 2 * Ones(w - 1) + 1
  }

  lemma {:induction false} BitOfZero(k: nat)
    ensures !Bit(0, k)
  {
    if k > 0 {
      BitOfZero(k - 1);
    }
  }

  lemma {:induction false} BitOfAnd(a: nat, b: nat, k: nat)
    ensures Bit(And(a, b), k) <==> Bit(a, k) && Bit(b, k)
  {
    if a == 0 || b == 0 {
      BitOfZero(k);
    } else if k > 0 {
      assert And(a, b) / 2 == And(a / 2, b / 2);
      BitOfAnd(a / 2, b / 2, k - 1);
    }
  }

  lemma {:induction false} BitOfOr(a: nat, b: nat, k: nat)
    ensures Bit(Or(a, b), k) <==> Bit(a, k) || Bit(b, k)
    decreases a + b
  {
    if a == 0 || b == 0 {
      BitOfZero(k);
    } else if k > 0 {
      assert Or(a, b) / 2 == Or(a / 2, b / 2);
      BitOfOr(a / 2, b / 2, k - 1);
    }
  }

  lemma {:induction false} BitOfShiftLeft(n: nat, s: nat, k: nat)
    ensures Bit(ShiftLeft(n, s), k) <==> k >= s && Bit(n, k - s)
  {
    if s > 0 && k > 0 {
      assert ShiftLeft(n, s) / 2 == ShiftLeft(n, s - 1);
      BitOfShiftLeft(n, s - 1, k - 1);
    }
  }

  lemma {:induction false} BitOfShiftRight(n: nat, s: nat, k: nat)
    ensures Bit(ShiftRight(n, s), k) <==> Bit(n, k + s)
  {
    if s > 0 {
      BitOfShiftRight(n / 2, s - 1, k);
    }
  }

  lemma {:induction false} BitOfOnes(w: nat, k: nat)
    ensures Bit(Ones(w), k) <==> k < w
  {
    if w == 0 {
      BitOfZero(k);
    } else if k > 0 {
      assert Ones(w) / 2 == Ones(w - 1);
      BitOfOnes(w - 1, k - 1);
    }
  }

  /** A number below 1 << w has no bit from w on. */
  lemma {:induction false} NarrowBits(n: nat, w: nat, k: nat)
    requires n < ShiftLeft(1, w) && k >= w
    ensures !Bit(n, k)
  {
    if w == 0 {
      BitOfZero(k);
    } else {
      NarrowBits(n / 2, w - 1, k - 1);
    }
  }

  /** Numbers with the same bits are equal. */
  lemma {:induction false} SameBits(a: nat, b: nat)
    requires forall k: nat :: Bit(a, k) == Bit(b, k)
    ensures a == b
    decreases a + b
  {
    assert Bit(a, 0) == Bit(b, 0);
    if a > 0 || b > 0 {
      forall k: nat
        ensures Bit(a / 2, k) == Bit(b / 2, k)
      {
        assert Bit(a, k + 1) == Bit(b, k + 1);
      }
      SameBits(a / 2, b / 2);
    }
  }

  // ---- fields ----

  predicate InRange(width: int, f: Field) {
    width > f.msb >= f.lsb >= 0
  }

  function Width(f: Field): nat
    requires f.msb >= f.lsb
  {
    f.msb - f.lsb + 1
  }

  function MaskOf(f: Field): nat
    requires f.msb >= f.lsb >= 0
  {
    ShiftLeft(ShiftLeft(1, Width(f)) - 1, f.lsb)
  }

  predicate Fits(f: Field)
    requires f.msb >= f.lsb
  {
    f.reset < ShiftLeft(1, Width(f))
  }

  predicate Covers(f: Field, k: int) {
    f.lsb <= k <= f.msb
  }

  lemma BitOfMask(f: Field, k: nat)
    requires f.msb >= f.lsb >= 0
    ensures Bit(MaskOf(f), k) <==> Covers(f, k)
  {
    BitOfShiftLeft(Ones(Width(f)), f.lsb, k);
    if k >= f.lsb {
      BitOfOnes(Width(f), k - f.lsb);
    }
  }

  predicate Disjoint(f: Field, g: Field) {
    f.msb < g.lsb || g.msb < f.lsb
  }

  predicate AllInRange(width: int, fs: seq<Field>) {
    forall i :: 0 <= i < |fs| ==> InRange(width, fs[i])
  }

  function PowerOfTwo(n: nat): nat {
    if n == 0 then 1 else 2 * PowerOfTwo(n - 1)
  }

  /** What a field has to satisfy: its bits lie in the word, and its reset in its bits. */
  predicate Admissible(width: int, f: Field) {
    0 <= f.lsb <= f.msb < width && f.reset < PowerOfTwo(f.msb - f.lsb + 1)
  }

  /** What a register map has to satisfy to be accepted, said without bit operations. */
  predicate Acceptable(width: int, fs: seq<Field>) {
    && (forall i :: 0 <= i < |fs| ==> Admissible(width, fs[i]))
    && (forall i, j :: 0 <= i < j < |fs| ==> Disjoint(fs[i], fs[j]))
  }

  lemma {:induction false} ShiftedOne(n: nat)
    ensures ShiftLeft(1, n) == PowerOfTwo(n)
  {
    if n > 0 {
      ShiftedOne(n - 1);
    }
  }

  /** The generator's two assertions about a field. */
  lemma AdmissibleIff(width: int, f: Field)
    ensures Admissible(width, f) <==> InRange(width, f) && Fits(f)
  {
    if InRange(width, f) {
      ShiftedOne(Width(f));
    }
  }

  lemma AcceptedFields(width: int, fs: seq<Field>)
    requires Acceptable(width, fs)
    ensures AllInRange(width, fs) && forall i :: 0 <= i < |fs| ==> Fits(fs[i])
  {
    forall i | 0 <= i < |fs|
      ensures InRange(width, fs[i]) && Fits(fs[i])
    {
      assert Admissible(width, fs[i]);
      AdmissibleIff(width, fs[i]);
    }
  }

  /** The register mask and the packed reset word of fields in range. */
  function Pack(width: int, fs: seq<Field>): (r: Packed)
    requires AllInRange(width, fs)
  {
    if fs == [] then Packed(0, 0)
    else
      var (f, p) := (fs[|fs| - 1], Pack(width, fs[..|fs| - 1]));
      assert InRange(width, fs[|fs| - 1]);
      Packed(Or(p.mask, MaskOf(f)), Or(p.reset, ShiftLeft(f.reset, f.lsb)))
  }

  predicate FieldBit(f: Field, k: nat) {
    f.lsb >= 0 && k >= f.lsb && Bit(f.reset, k - f.lsb)
  }

  /** Bit k of the mask is set exactly when a field covers it, bit k of the reset word exactly when
      a field puts a one there. */
  lemma {:induction false} PackBits(width: int, fs: seq<Field>, k: nat)
    requires AllInRange(width, fs)
    ensures Bit(Pack(width, fs).mask, k) <==> exists i :: 0 <= i < |fs| && Covers(fs[i], k)
    ensures Bit(Pack(width, fs).reset, k) <==> exists i :: 0 <= i < |fs| && FieldBit(fs[i], k)
  {
    if fs == [] {
      BitOfZero(k);
    } else {
      var n := |fs| - 1;
      var (init, f) := (fs[..n], fs[n]);
      PackBits(width, init, k);
      BitOfMask(f, k);
      BitOfShiftLeft(f.reset, f.lsb, k);
      BitOfOr(Pack(width, init).mask, MaskOf(f), k);
      BitOfOr(Pack(width, init).reset, ShiftLeft(f.reset, f.lsb), k);
      assert forall i :: 0 <= i < n ==> init[i] == fs[i];
    }
  }

  /** Reading one field of a register value, as the testbench does. */
  function Extract(f: Field, value: nat): nat
    requires f.msb >= f.lsb >= 0
  {
    ShiftRight(And(value, MaskOf(f)), f.lsb)
  }

  lemma FieldBitInside(f: Field, k: nat)
    requires f.msb >= f.lsb >= 0 && Fits(f)
    ensures FieldBit(f, k) ==> Covers(f, k)
  {
    if FieldBit(f, k) && k > f.msb {
      NarrowBits(f.reset, Width(f), k - f.lsb);
    }
  }

  /** Where a field lies, the reset word has that field's bits. */
  lemma WordBit(width: int, fs: seq<Field>, i: nat, k: nat)
    requires Acceptable(width, fs) && AllInRange(width, fs) && i < |fs|
    ensures Covers(fs[i], k) ==> (Bit(Pack(width, fs).reset, k) <==> FieldBit(fs[i], k))
  {
    PackBits(width, fs, k);
    OnlyOwner(width, fs, i, k);
    hide Acceptable, AllInRange, Pack, Bit;
  }

  lemma ExtractBit(width: int, fs: seq<Field>, i: nat, k: nat)
    requires Acceptable(width, fs) && AllInRange(width, fs) && i < |fs| && InRange(width, fs[i]) && Fits(fs[i])
    ensures Bit(Extract(fs[i], Pack(width, fs).reset), k) == Bit(fs[i].reset, k)
  {
    hide Acceptable, AllInRange, Pack, Bit, Fits;
    var (f, word) := (fs[i], Pack(width, fs).reset);
    BitOfShiftRight(And(word, MaskOf(f)), f.lsb, k);
    BitOfAnd(word, MaskOf(f), k + f.lsb);
    BitOfMask(f, k + f.lsb);
    WordBit(width, fs, i, k + f.lsb);
    FieldBitInside(f, k + f.lsb);
  }

  /** The round trip: every field of an accepted register reads back its own reset value from the
      packed reset word. */
  lemma ResetRoundTrip(width: int, fs: seq<Field>, i: nat)
    requires Acceptable(width, fs) && i < |fs|
    ensures AllInRange(width, fs) && InRange(width, fs[i])
    ensures Extract(fs[i], Pack(width, fs).reset) == fs[i].reset
  {
    AcceptedFields(width, fs);
    forall k: nat
      ensures Bit(Extract(fs[i], Pack(width, fs).reset), k) == Bit(fs[i].reset, k)
    {
      ExtractBit(width, fs, i, k);
    }
    hide Acceptable, Bit, Extract, Pack;
    SameBits(Extract(fs[i], Pack(width, fs).reset), fs[i].reset);
  }

  /** Where a field lies, only its own reset shows. */
  lemma OnlyOwner(width: int, fs: seq<Field>, i: nat, k: nat)
    requires Acceptable(width, fs) && i < |fs|
    ensures Covers(fs[i], k) ==> forall j :: 0 <= j < |fs| && FieldBit(fs[j], k) ==> j == i
    ensures FieldBit(fs[i], k) ==> Covers(fs[i], k)
  {
    AcceptedFields(width, fs);
    forall j | 0 <= j < |fs|
      ensures FieldBit(fs[j], k) ==> Covers(fs[j], k)
    {
      FieldBitInside(fs[j], k);
    }
    assert forall a, b :: 0 <= a < b < |fs| ==> Disjoint(fs[a], fs[b]);
  }

  /** No bit outside the register mask is set in the reset word, and none beyond the data width in
      either. */
  lemma NothingOutside(width: int, fs: seq<Field>, k: nat)
    requires Acceptable(width, fs)
    ensures Bit(Pack(width, fs).reset, k) ==> Bit(Pack(width, fs).mask, k)
    ensures Bit(Pack(width, fs).mask, k) ==> k < width
  {
    AcceptedFields(width, fs);
    PackBits(width, fs, k);
    forall i | 0 <= i < |fs|
      ensures FieldBit(fs[i], k) ==> Covers(fs[i], k)
    {
      FieldBitInside(fs[i], k);
    }
    assert AllInRange(width, fs);
  }

  /** The masks of two fields have no bit in common exactly when the fields do not overlap. */
  lemma MasksDisjoint(f: Field, g: Field)
    requires f.msb >= f.lsb >= 0 && g.msb >= g.lsb >= 0
    ensures And(MaskOf(f), MaskOf(g)) == 0 <==> Disjoint(f, g)
  {
    var m := And(MaskOf(f), MaskOf(g));
    if Disjoint(f, g) {
      forall k: nat
        ensures Bit(m, k) == Bit(0, k)
      {
        BitOfAnd(MaskOf(f), MaskOf(g), k);
        BitOfMask(f, k);
        BitOfMask(g, k);
        BitOfZero(k);
      }
      SameBits(m, 0);
    } else {
      var k: nat := if f.lsb >= g.lsb then f.lsb else g.lsb;
      BitOfAnd(MaskOf(f), MaskOf(g), k);
      BitOfMask(f, k);
      BitOfMask(g, k);
      BitOfZero(k);
    }
  }

  /** The generator's overlap test against all earlier fields at once. */
  lemma OverlapTest(width: int, fs: seq<Field>, f: Field)
    requires AllInRange(width, fs) && f.msb >= f.lsb >= 0
    ensures And(Pack(width, fs).mask, MaskOf(f)) == 0 <==> forall i :: 0 <= i < |fs| ==> Disjoint(fs[i], f)
  {
    var (u, g) := (Pack(width, fs).mask, MaskOf(f));
    if i :| 0 <= i < |fs| && !Disjoint(fs[i], f) {
      var k: nat := if f.lsb >= fs[i].lsb then f.lsb else fs[i].lsb;
      assert Covers(fs[i], k);
      PackBits(width, fs, k);
      BitOfMask(f, k);
      BitOfAnd(u, g, k);
      BitOfZero(k);
    } else {
      forall k: nat
        ensures Bit(And(u, g), k) == Bit(0, k)
      {
        PackBits(width, fs, k);
        BitOfMask(f, k);
        BitOfAnd(u, g, k);
        BitOfZero(k);
      }
      SameBits(And(u, g), 0);
    }
  }

  /** The first reason to refuse a field after the fields `before`. */
  function Complaint(width: int, before: seq<Field>, f: Field): Error {
    if !InRange(width, f) then BadBits(f)
    else if exists i :: 0 <= i < |before| && !Disjoint(before[i], f) then Overlap(f)
    else ResetTooWide(f)
  }

  lemma AcceptableGrows(width: int, fs: seq<Field>, k: nat)
    requires k < |fs|
    ensures Acceptable(width, fs) ==> Acceptable(width, fs[..k + 1])
    ensures Acceptable(width, fs[..k + 1]) <==>
              && Acceptable(width, fs[..k]) && InRange(width, fs[k]) && Fits(fs[k])
              && forall i :: 0 <= i < k ==> Disjoint(fs[..k][i], fs[k])
  {
    AdmissibleIff(width, fs[k]);
    hide Admissible, InRange, Fits;
    var (a, b) := (fs[..k], fs[..k + 1]);
    assert b == a + [fs[k]];
    assert forall i :: 0 <= i < k ==> b[i] == a[i] && a[i] == fs[i];
    assert b[k] == fs[k];
  }

  /** The fields of one register. */
  method LoadFields(width: int, fs: seq<Field>) returns (r: Result<Packed>)
    ensures r.Ok? <==> Acceptable(width, fs)
    ensures r.Ok? ==> r.value == Pack(width, fs)
    ensures r.Err? ==> exists k :: 0 <= k < |fs| && Acceptable(width, fs[..k]) &&
                                   !Acceptable(width, fs[..k + 1]) && r.error == Complaint(width, fs[..k], fs[k])
  {
    hide Acceptable;
    var used, reset := 0, 0;
    assert Acceptable(width, fs[..0]) by { NoFields(width); }
    for k := 0 to |fs|
      invariant Acceptable(width, fs[..k]) && AllInRange(width, fs[..k])
      invariant Packed(used, reset) == Pack(width, fs[..k])
    {
      var f := fs[k];
      ghost var before := fs[..k];
      AcceptableGrows(width, fs, k);
      if !InRange(width, f) {
        return Err(BadBits(f));
      }
      var mask := MaskOf(f);
      OverlapTest(width, before, f);
      if And(used, mask) != 0 {
        return Err(Overlap(f));
      }
      if !Fits(f) {
        return Err(ResetTooWide(f));
      }
      used := Or(used, mask);
      reset := Or(reset, ShiftLeft(f.reset, f.lsb));
      assert fs[..k + 1] == before + [f];
    }
    assert fs[..|fs|] == fs;
    return Ok(Packed(used, reset));
  }

  lemma NoFields(width: int)
    ensures Acceptable(width, [])
  {
  }

  /** Address rules: word-aligned, within the address width, no two alike. */
  predicate AddressOk(addrWidth: nat, a: int) {
    a % 4 == 0 && a < ShiftLeft(1, addrWidth)
  }

  lemma AddressOkIff(addrWidth: nat, a: int)
    ensures AddressOk(addrWidth, a) <==> a % 4 == 0 && a < PowerOfTwo(addrWidth)
  {
    ShiftedOne(addrWidth);
  }

  predicate MapOk(addrWidth: nat, width: int, rs: seq<Register>) {
    && (forall i :: 0 <= i < |rs| ==>
          rs[i].addr % 4 == 0 && rs[i].addr < PowerOfTwo(addrWidth) && Acceptable(width, rs[i].fields))
    && (forall i, j :: 0 <= i < j < |rs| ==> rs[i].addr != rs[j].addr)
  }

  lemma MapGrows(addrWidth: nat, width: int, rs: seq<Register>, k: nat)
    requires k < |rs|
    ensures MapOk(addrWidth, width, rs) ==> MapOk(addrWidth, width, rs[..k + 1])
    ensures MapOk(addrWidth, width, rs[..k + 1]) <==>
              && MapOk(addrWidth, width, rs[..k]) && AddressOk(addrWidth, rs[k].addr)
              && Acceptable(width, rs[k].fields) && rs[k].addr !in Addresses(rs[..k])
  {
    AddressOkIff(addrWidth, rs[k].addr);
    var (a, b) := (rs[..k], rs[..k + 1]);
    hide Acceptable, AddressOk, PowerOfTwo;
    assert forall i :: 0 <= i < k ==> b[i] == a[i] && a[i] == rs[i];
    assert b[k] == rs[k];
    assert forall i :: 0 <= i < k ==> a[i].addr in Addresses(a);
  }

  function Addresses(rs: seq<Register>): set<int> {
    set i | 0 <= i < |rs| :: rs[i].addr
  }

  /** The whole map: it is accepted exactly when every register is in order, and then every
      register gets its mask and reset word. */
  method Load(addrWidth: nat, width: int, rs: seq<Register>) returns (r: Result<seq<Packed>>)
    ensures r.Ok? <==> MapOk(addrWidth, width, rs)
    ensures r.Ok? ==> |r.value| == |rs| && forall i :: 0 <= i < |rs| ==>
                        AllInRange(width, rs[i].fields) && r.value[i] == Pack(width, rs[i].fields)
  {
    hide MapOk, Acceptable, AddressOk;
    var seen: set<int> := {};
    var out: seq<Packed> := [];
    assert MapOk(addrWidth, width, rs[..0]) by { NoRegisters(addrWidth, width); }
    for k := 0 to |rs|
      invariant MapOk(addrWidth, width, rs[..k])
      invariant seen == Addresses(rs[..k])
      invariant |out| == k && forall i :: 0 <= i < k ==>
                  AllInRange(width, rs[i].fields) && out[i] == Pack(width, rs[i].fields)
    {
      var a := rs[k].addr;
      MapGrows(addrWidth, width, rs, k);
      if !AddressOk(addrWidth, a) {
        return Err(BadAddress(a));
      }
      if a in seen {
        return Err(DuplicateAddress(a));
      }
      seen := seen + {a};
      AddressesGrow(rs, k);
      var p := LoadFields(width, rs[k].fields);
      if p.Err? {
        return Err(p.error);
      }
      RangesOf(width, rs[k].fields);
      out := out + [p.value];
    }
    assert rs[..|rs|] == rs;
    return Ok(out);
  }

  lemma NoRegisters(addrWidth: nat, width: int)
    ensures MapOk(addrWidth, width, [])
  {
  }

  lemma AddressesGrow(rs: seq<Register>, k: nat)
    requires k < |rs|
    ensures Addresses(rs[..k + 1]) == Addresses(rs[..k]) + {rs[k].addr}
  {
    var (a, b) := (rs[..k], rs[..k + 1]);
    assert forall i :: 0 <= i < k ==> b[i] == a[i];
    assert b[k] == rs[k];
  }

  lemma RangesOf(width: int, fs: seq<Field>)
    requires Acceptable(width, fs)
    ensures AllInRange(width, fs)
  {
    AcceptedFields(width, fs);
  }
}
