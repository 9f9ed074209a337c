/** Reading the elements of a HID report bit by bit, and a writer to compare with (HID 1.11,
    section 5.8). */
module HidBits {
  import opened Arith
  import opened Wrappers

  type Report = seq<bv8>

  function Pow2(n: nat): (r: nat)
    ensures r > 0
  {
    if n == 0 then 1 else 2 * Pow2(n - 1)
  }

  predicate Bit(r: Report, k: nat)
    requires k < 8 * |r|
  {
    (r[k / 8] >> (k % 8)) & 1 != 0
  }

  /** The number whose bits are at `start..start + n`, lowest first. */
  function BitsAt(r: Report, start: nat, n: nat): (v: nat)
    requires start + n <= 8 * |r|
    ensures v < Pow2(n)
  {
    if n == 0 then 0 else BitsAt(r, start, n - 1) + (if Bit(r, start + n - 1) then Pow2(n - 1) else 0)
  }

  /** A number of `n` bits in two's complement. */
  function SignExtend(v: nat, n: nat): int
    requires n > 0
  {
    if v >= Pow2(n - 1) then v - Pow2(n) else v
  }

  /** What `Field::value` looks at. */
  datatype Element = Element(offset: nat, size: nat, count: nat, logicalMin: int)

  function Start(f: Element, index: nat): nat {
    f.offset + index * f.size
  }

  /** `Field::value`. */
  function Value(f: Element, r: Report, index: nat): Option<int> {
    if index >= f.count || f.size == 0 || f.size > 32 || Start(f, index) + f.size > 8 * |r| then None
    else
      var v := BitsAt(r, Start(f, index), f.size);
      Some(if f.logicalMin < 0 then SignExtend(v, f.size) else v)
  }

  method ReadBits(r: Report, start: nat, end: nat) returns (v: nat)
    requires start <= end <= 8 * |r|
    ensures v == BitsAt(r, start, end - start)
  {
    v := 0;
    var i: nat, power: nat := 0, 1;
    while start + i < end
      invariant start + i <= end && power == Pow2(i) && v == BitsAt(r, start, i)
    {
      var bit: nat := start + i;
      if Bit(r, bit) {
        v := v + power;  // bit `i` is not set yet, so this is the or
      }
      i, power := i + 1, 2 * power;
    }
  }

  method ReadValue(f: Element, r: Report, index: nat) returns (value: Option<int>)
    ensures value == Value(f, r, index)
  {
    if index >= f.count || f.size == 0 || f.size > 32 {
      return None;
    }
    var start := f.offset + index * f.size;
    var end := start + f.size;
    if end > |r| * 8 {
      return None;
    }
    var v := ReadBits(r, start, end);
    if f.logicalMin < 0 && v >= Pow2(f.size - 1) {
      value := Some(v - Pow2(f.size));
    } else {
      value := Some(v);
    }
  }

  // ----- the writer -----

  function Mask(p: nat): bv8
    requires p < 8
  {
    if p == 0 then 1 else if p == 1 then 2 else if p == 2 then 4 else if p == 3 then 8
    else if p == 4 then 16 else if p == 5 then 32 else if p == 6 then 64 else 128
  }

  function SetIn(b: bv8, p: nat, on: bool): bv8
    requires p < 8
  {
    if on then b | Mask(p) else b & !Mask(p)
  }

  lemma ShiftIsMask(b: bv8, p: nat)
    requires p < 8
    ensures (b >> p) & 1 != 0 <==> b & Mask(p) != 0
  {
    if p == 0 {} else if p == 1 {} else if p == 2 {} else if p == 3 {}
    else if p == 4 {} else if p == 5 {} else if p == 6 {} else {}
  }

  lemma MaskSet(b: bv8, p: nat, on: bool, q: nat)
    requires p < 8 && q < 8
    ensures SetIn(b, p, on) & Mask(q) != 0 <==> if p == q then on else b & Mask(q) != 0
  {
  }

  function SetBit(r: Report, k: nat, on: bool): (r': Report)
    requires k < 8 * |r|
    ensures |r'| == |r|
  {
    r[k / 8 := SetIn(r[k / 8], k % 8, on)]
  }

  lemma BitInByte(b: bv8, p: nat, on: bool, q: nat)
    requires p < 8 && q < 8
    ensures (SetIn(b, p, on) >> q) & 1 != 0 <==> if p == q then on else (b >> q) & 1 != 0
  {
    ShiftIsMask(SetIn(b, p, on), q);
    ShiftIsMask(b, q);
    MaskSet(b, p, on, q);
  }

  lemma BitSet(r: Report, k: nat, on: bool, j: nat)
    requires k < 8 * |r| && j < 8 * |r|
    ensures Bit(SetBit(r, k, on), j) == if j == k then on else Bit(r, j)
  {
    BitInByte(r[k / 8], k % 8, on, j % 8);
  }

  /** Stores the lowest `n` bits of `v` at `start`. */
  function PutBits(r: Report, start: nat, n: nat, v: nat): (r': Report)
    requires start + n <= 8 * |r|
    ensures |r'| == |r|
  {
    if n == 0 then r else SetBit(PutBits(r, start, n - 1, v), start + n - 1, v / Pow2(n - 1) % 2 == 1)
  }

  lemma {:induction false} PutBitsAt(r: Report, start: nat, n: nat, v: nat, j: nat)
    requires start + n <= 8 * |r| && j < 8 * |r|
    ensures Bit(PutBits(r, start, n, v), j) == if start <= j < start + n then v / Pow2(j - start) % 2 == 1 else Bit(r, j)
  {
    if n > 0 {
      var before := PutBits(r, start, n - 1, v);
      var on := v / Pow2(n - 1) % 2 == 1;
      assert PutBits(r, start, n, v) == SetBit(before, start + n - 1, on);
      PutBitsAt(r, start, n - 1, v, j);
      BitSet(before, start + n - 1, on, j);
    }
  }

  /** A number is made up of its bits. */
  lemma LowBits(v: nat, n: nat)
    ensures v % Pow2(n + 1) == v % Pow2(n) + (if v / Pow2(n) % 2 == 1 then Pow2(n) else 0)
  {
    var p := Pow2(n);
    var q, b, low := v / p / 2, v / p % 2, v % p;
    assert v / p == 2 * q + b && v == (v / p) * p + low;
    Distribute(2 * q, b, p);
    Twice(q, p);
    var top := if b == 1 then p else 0;
    assert b * p == top;
    DivModUnique(v, 2 * p, q, top + low);
  }

  lemma Twice(q: nat, p: nat)
    ensures 2 * q * p == q * (2 * p)
  {
  }

  /** Reading bits that agree with those of `v` gives `v`, modulo the width. */
  lemma {:induction false} BitsAgree(r: Report, start: nat, n: nat, v: nat)
    requires start + n <= 8 * |r| && forall k: nat :: k < n ==> Bit(r, start + k) == (v / Pow2(k) % 2 == 1)
    ensures BitsAt(r, start, n) == v % Pow2(n)
  {
    if n > 0 {
      BitsAgree(r, start, n - 1, v);
      LowBits(v, n - 1);
      assert Bit(r, start + (n - 1)) == (v / Pow2(n - 1) % 2 == 1);
    }
  }

  /** Reading depends on the bits read and no others. */
  lemma {:induction false} BitsSame(r: Report, r': Report, start: nat, n: nat)
    requires |r| == |r'| && start + n <= 8 * |r| && forall k: nat :: start <= k < start + n ==> Bit(r, k) == Bit(r', k)
    ensures BitsAt(r, start, n) == BitsAt(r', start, n)
  {
    if n > 0 { BitsSame(r, r', start, n - 1); }
  }

  // ----- elements -----

  /** The values an element can hold. */
  predicate InRange(f: Element, v: int) {
    1 <= f.size <= 32 && if f.logicalMin < 0 then 0 <= v + Pow2(f.size - 1) < Pow2(f.size) else 0 <= v < Pow2(f.size)
  }

  predicate Fits(f: Element, r: Report, index: nat) {
    index < f.count && Start(f, index) + f.size <= 8 * |r|
  }

  /** The bit pattern of a value. */
  function Code(f: Element, v: int): (c: nat)
    requires InRange(f, v)
    ensures c < Pow2(f.size)
  {
    if v < 0 then v + Pow2(f.size) else v
  }

  /** Stores `v` in two's complement. */
  function Store(f: Element, r: Report, index: nat, v: int): (r': Report)
    requires Fits(f, r, index) && InRange(f, v)
    ensures |r'| == |r|
  {
    PutBits(r, Start(f, index), f.size, Code(f, v))
  }

  lemma CodeRead(f: Element, v: int)
    requires InRange(f, v)
    ensures v == if f.logicalMin < 0 then SignExtend(Code(f, v), f.size) else Code(f, v)
  {
  }

  lemma PutThenRead(r: Report, start: nat, n: nat, v: nat)
    requires start + n <= 8 * |r| && v < Pow2(n)
    ensures BitsAt(PutBits(r, start, n, v), start, n) == v
  {
    var r' := PutBits(r, start, n, v);
    forall k: nat | k < n ensures Bit(r', start + k) == (v / Pow2(k) % 2 == 1) {
      PutBitsAt(r, start, n, v, start + k);
    }
    BitsAgree(r', start, n, v);
    DivModUnique(v, Pow2(n), 0, v);
  }

  /** What is stored is read back, signed or unsigned, for every width up to 32 bits. */
  lemma StoreThenRead(f: Element, r: Report, index: nat, v: int)
    requires Fits(f, r, index) && InRange(f, v)
    ensures Value(f, Store(f, r, index, v), index) == Some(v)
  {
    PutThenRead(r, Start(f, index), f.size, Code(f, v));
    CodeRead(f, v);
  }

  /** There is a value exactly of an element that there is, of a size that can be read, in the report. */
  lemma ValueExactly(f: Element, r: Report, index: nat)
    ensures Value(f, r, index).Some? <==> 1 <= f.size <= 32 && Fits(f, r, index)
  {
  }

  /** The bits of two elements do not overlap. */
  predicate Apart(f: Element, i: nat, g: Element, j: nat) {
    Start(f, i) + f.size <= Start(g, j) || Start(g, j) + g.size <= Start(f, i)
  }

  /** Storing an element leaves all others as they are. */
  lemma StoreKeepsOthers(f: Element, i: nat, v: int, g: Element, j: nat, r: Report)
    requires Fits(f, r, i) && InRange(f, v) && Apart(f, i, g, j)
    ensures Value(g, Store(f, r, i, v), j) == Value(g, r, j)
  {
    var r' := Store(f, r, i, v);
    if j < g.count && 1 <= g.size <= 32 && Start(g, j) + g.size <= 8 * |r| {
      forall k: nat | Start(g, j) <= k < Start(g, j) + g.size ensures Bit(r', k) == Bit(r, k) {
        PutBitsAt(r, Start(f, i), f.size, Code(f, v), k);
      }
      BitsSame(r, r', Start(g, j), g.size);
    }
  }
}
