/** Bytes, and the integers laid out in them. */
module Bytes {

  type byte = b: int | 0 <= b < 256

  /** A byte that may be missing reads as zero. */
  function At(b: seq<byte>, i: nat): byte {
    if i < |b| then b[i] else 0
  }

  /** Little-endian readers that tolerate short input. */
  /** The number with these base-256 digits, the least significant first. */
  function Number(d0: nat, d1: nat, d2: nat, d3: nat): nat {
    d0 + 0x100 * d1 + 0x1_0000 * d2 + 0x100_0000 * d3
  }

  function Le16(b: seq<byte>, at: nat): (r: nat)
    ensures r < 0x1_0000
  {
    At(b, at) + 256 * At(b, at + 1)
  }

  function Le32(b: seq<byte>, at: nat): (r: nat)
    ensures r < 0x1_0000_0000
  {
    Le16(b, at) + 0x1_0000 * Le16(b, at + 2)
  }

  function PutLe16(v: nat): (r: seq<byte>)
    requires v < 0x1_0000
    ensures |r| == 2
  {
    [v % 256, v / 256]
  }

  function PutLe32(v: nat): (r: seq<byte>)
    requires v < 0x1_0000_0000
    ensures |r| == 4
  {
    PutLe16(v % 0x1_0000) + PutLe16(v / 0x1_0000)
  }

  /** `b[at..at + |piece|].copy_from_slice(piece)`. */
  function Write(b: seq<byte>, at: nat, piece: seq<byte>): (r: seq<byte>)
    requires at + |piece| <= |b|
    ensures |r| == |b| && r[at..at + |piece|] == piece
    ensures forall i :: 0 <= i < |b| && !(at <= i < at + |piece|) ==> r[i] == b[i]
  {
    b[..at] + piece + b[at + |piece|..]
  }

  /** The same on an array. */
  method PutAt(b: array<byte>, at: nat, piece: seq<byte>)
    requires at + |piece| <= b.Length
    modifies b
    ensures b[at..at + |piece|] == piece
    ensures forall k :: 0 <= k < b.Length && !(at <= k < at + |piece|) ==> b[k] == old(b[k])
  {
    for i := 0 to |piece|
      invariant forall k :: 0 <= k < i ==> b[at + k] == piece[k]
      invariant forall k :: 0 <= k < b.Length && !(at <= k < at + i) ==> b[k] == old(b[k])
    {
      b[at + i] := piece[i];
    }
  }

  lemma WriteAt(b: seq<byte>, at: nat, piece: seq<byte>, i: nat)
    requires at + |piece| <= |b| && i < |b|
    ensures Write(b, at, piece)[i] == if at <= i < at + |piece| then piece[i - at] else b[i]
  {
    var r := Write(b, at, piece);
    if at <= i < at + |piece| { assert r[at..at + |piece|][i - at] == r[i]; }
  }

  lemma Le16Put(b: seq<byte>, at: nat, v: nat)
    requires v < 0x1_0000 && at + 2 <= |b| && b[at..at + 2] == PutLe16(v)
    ensures Le16(b, at) == v
  {
    assert b[at] == b[at..at + 2][0] && b[at + 1] == b[at..at + 2][1];
  }

  lemma Le32Put(b: seq<byte>, at: nat, v: nat)
    requires v < 0x1_0000_0000 && at + 4 <= |b| && b[at..at + 4] == PutLe32(v)
    ensures Le32(b, at) == v
  {
    assert b[at..at + 2] == b[at..at + 4][..2];
    assert b[at + 2..at + 4] == b[at..at + 4][2..];
    Le16Put(b, at, v % 0x1_0000);
    Le16Put(b, at + 2, v / 0x1_0000);
  }

  // ----- big-endian -----

  function Be16(b: seq<byte>, at: nat): (r: nat)
    ensures r < 0x1_0000
  {
    256 * At(b, at) + At(b, at + 1)
  }

  function Be32(b: seq<byte>, at: nat): (r: nat)
    ensures r < 0x1_0000_0000
  {
    0x1_0000 * Be16(b, at) + Be16(b, at + 2)
  }

  function Be64(b: seq<byte>, at: nat): (r: nat)
    ensures r < 0x1_0000_0000_0000_0000
  {
    0x1_0000_0000 * Be32(b, at) + Be32(b, at + 4)
  }

  lemma Be32Number(b: seq<byte>, at: nat)
    requires at + 4 <= |b|
    ensures Be32(b, at) == Number(b[at + 3], b[at + 2], b[at + 1], b[at])
  {
  }

  function PutBe16(v: nat): (r: seq<byte>)
    requires v < 0x1_0000
    ensures |r| == 2
  {
    [v / 256, v % 256]
  }

  function PutBe32(v: nat): (r: seq<byte>)
    requires v < 0x1_0000_0000
    ensures |r| == 4
  {
    PutBe16(v / 0x1_0000) + PutBe16(v % 0x1_0000)
  }

  function PutBe64(v: nat): (r: seq<byte>)
    requires v < 0x1_0000_0000_0000_0000
    ensures |r| == 8
  {
    PutBe32(v / 0x1_0000_0000) + PutBe32(v % 0x1_0000_0000)
  }

  lemma Be16Put(b: seq<byte>, at: nat, v: nat)
    requires v < 0x1_0000 && at + 2 <= |b| && b[at..at + 2] == PutBe16(v)
    ensures Be16(b, at) == v
  {
    assert b[at] == b[at..at + 2][0] && b[at + 1] == b[at..at + 2][1];
  }

  lemma Be32Put(b: seq<byte>, at: nat, v: nat)
    requires v < 0x1_0000_0000 && at + 4 <= |b| && b[at..at + 4] == PutBe32(v)
    ensures Be32(b, at) == v
  {
    assert b[at..at + 2] == b[at..at + 4][..2];
    assert b[at + 2..at + 4] == b[at..at + 4][2..];
    Be16Put(b, at, v / 0x1_0000);
    Be16Put(b, at + 2, v % 0x1_0000);
  }

  lemma Be64Put(b: seq<byte>, at: nat, v: nat)
    requires v < 0x1_0000_0000_0000_0000 && at + 8 <= |b| && b[at..at + 8] == PutBe64(v)
    ensures Be64(b, at) == v
  {
    assert b[at..at + 4] == b[at..at + 8][..4];
    assert b[at + 4..at + 8] == b[at..at + 8][4..];
    Be32Put(b, at, v / 0x1_0000_0000);
    Be32Put(b, at + 4, v % 0x1_0000_0000);
  }

  function Zeros(n: nat): (r: seq<byte>)
    ensures |r| == n && forall i :: 0 <= i < n ==> r[i] == 0
  {
    seq(n, _ => 0)
  }

  lemma SliceJoin<T>(s: seq<T>, a: nat, b: nat, c: nat)
    requires a <= b <= c <= |s|
    ensures s[a..b] + s[b..c] == s[a..c]
  {
  }

  lemma Assoc<T>(a: seq<T>, b: seq<T>, c: seq<T>)
    ensures a + (b + c) == a + b + c
  {
  }

  lemma InitLast<T>(s: seq<T>)
    requires s != []
    ensures s[..|s| - 1] + [s[|s| - 1]] == s
  {
  }

  lemma TakeDrop<T>(s: seq<T>, k: nat)
    requires k <= |s|
    ensures s[..k] + s[k..] == s
  {
  }

  /** The concatenation of a list of lists. */
  function Flatten<T>(xs: seq<seq<T>>): seq<T> {
    if xs == [] then [] else Flatten(xs[..|xs| - 1]) + xs[|xs| - 1]
  }

  lemma FlattenLast<T>(xs: seq<seq<T>>, x: seq<T>)
    ensures Flatten(xs + [x]) == Flatten(xs) + x
  {
    assert (xs + [x])[..|xs|] == xs;
  }

  lemma {:induction false} FlattenAppend<T>(a: seq<seq<T>>, b: seq<seq<T>>)
    ensures Flatten(a + b) == Flatten(a) + Flatten(b)
  {
    if b == [] {
      assert a + b == a;
    } else {
      FlattenAppend(a, b[..|b| - 1]);
      assert (a + b)[..|a + b| - 1] == a + b[..|b| - 1];
    }
  }
}
