/** A disk as a flat array of bytes with a cursor: what a block device should look like. */
module FlatDisk {
  import opened Arith
  import opened Wrappers
  import opened Bytes
  import opened Scsi

  datatype Flat = Flat(bytes: seq<byte>, pos: nat)

  function Min(a: nat, b: nat): nat {
    if a < b then a else b
  }

  function Remaining(size: nat, pos: nat): nat {
    if pos < size then size - pos else 0
  }

  /** How many blocks a call of this length moves without the scratch block. */
  function DirectBlocks(size: nat, bs: nat, pos: nat, len: nat): nat
    requires bs > 0
  {
    if pos % bs != 0 then 0 else Min(len, Remaining(size, pos)) / bs
  }

  /** How many of `len` bytes one call moves: whole blocks, or the rest of one block. */
  function Amount(size: nat, bs: nat, pos: nat, len: nat): nat
    requires bs > 0
  {
    if DirectBlocks(size, bs, pos, len) > 0 then DirectBlocks(size, bs, pos, len) * bs
    else Min(Min(bs - pos % bs, len), Remaining(size, pos))
  }

  /** A call always makes progress before the end of the disk, and never goes past it. */
  lemma AmountProgress(size: nat, bs: nat, pos: nat, len: nat)
    requires bs > 0
    ensures
      var n := Amount(size, bs, pos, len);
      && n <= len && (n == 0 <==> len == 0 || pos >= size) && (n > 0 ==> pos + n <= size)
      && (DirectBlocks(size, bs, pos, len) == 0 ==> n <= bs - pos % bs)
  {
    var blocks := DirectBlocks(size, bs, pos, len);
    if blocks > 0 {
      var room := Min(len, Remaining(size, pos));
      assert room / bs * bs <= room;
      assert blocks * bs >= bs by { MulLe(1, blocks, bs); }
    }
  }

  /** Just how much: from a block boundary all the whole blocks there are, if there is one; otherwise
      what is left of the block, of the disk or of the request. */
  lemma AmountExact(size: nat, bs: nat, pos: nat, len: nat)
    requires bs > 0 && pos < size
    ensures
      var n := Amount(size, bs, pos, len);
      var room := if len < size - pos then len else size - pos;
      if pos % bs == 0 && room >= bs then n % bs == 0 && n <= room < n + bs
      else n <= room && n <= bs - pos % bs && (n == room || n == bs - pos % bs)
  {
    var room := Min(len, Remaining(size, pos));
    var q := room / bs;
    assert room == q * bs + room % bs;
    if pos % bs == 0 && room >= bs {
      DivModUnique(q * bs, bs, q, 0);
    } else if pos % bs == 0 {
      if q > 0 { MulLe(1, q, bs); }
    }
  }

  /** How much a call moves, by where it is and how much is asked for. */
  type Mover = (Flat, nat) -> nat

  function Blockwise(bs: nat): Mover
    requires bs > 0
  {
    (f: Flat, len: nat) => Amount(|f.bytes|, bs, f.pos, len)
  }

  predicate Moves(f: Flat, len: nat, n: nat) {
    n <= len && (n == 0 <==> len == 0 || f.pos >= |f.bytes|) && (n > 0 ==> f.pos + n <= |f.bytes|)
  }

  /** Every call makes progress where there is any to make. */
  ghost predicate Progresses(mover: Mover) {
    forall f: Flat, len: nat :: Moves(f, len, mover(f, len))
  }

  lemma BlockwiseProgresses(bs: nat)
    requires bs > 0
    ensures Progresses(Blockwise(bs))
  {
    forall f: Flat, len: nat ensures Moves(f, len, Blockwise(bs)(f, len)) {
      AmountProgress(|f.bytes|, bs, f.pos, len);
    }
  }

  // ----- one call -----

  function ReadOnce(f: Flat, n: nat): (Flat, seq<byte>)
    requires n == 0 || f.pos + n <= |f.bytes|
  {
    if n == 0 then (f, []) else (f.(pos := f.pos + n), f.bytes[f.pos..f.pos + n])
  }

  function WriteOnce(f: Flat, data: seq<byte>, n: nat): Flat
    requires n <= |data| && (n == 0 || f.pos + n <= |f.bytes|)
  {
    if n == 0 then f else Flat(Write(f.bytes, f.pos, data[..n]), f.pos + n)
  }

  datatype SeekFrom = SeekStart(p: nat) | SeekEnd(d: int) | SeekCurrent(d: int)

  /** The new position, unless it is negative or does not fit 64 bits. */
  function SeekTo(f: Flat, to: SeekFrom): Option<nat> {
    var p := match to
      case SeekStart(p) => p
      case SeekEnd(d) => |f.bytes| + d
      case SeekCurrent(d) => f.pos + d;
    if 0 <= p <= U64_MAX then Some(p) else None
  }

  // ----- repeated calls -----

  /** Reading until `len` bytes are there or the end is reached. */
  ghost function ReadFully(f: Flat, mover: Mover, len: nat): (Flat, seq<byte>)
    requires Progresses(mover)
    decreases len
  {
    assert Moves(f, len, mover(f, len));
    var n := mover(f, len);
    if n == 0 then (f, [])
    else
      var (f1, got) := ReadOnce(f, n);
      var (f2, rest) := ReadFully(f1, mover, len - n);
      (f2, got + rest)
  }

  /** However the calls split it up, that is just the bytes at the cursor. */
  lemma {:induction false} ReadFullyIsSlice(f: Flat, mover: Mover, len: nat)
    requires Progresses(mover)
    ensures
      var n := Min(len, Remaining(|f.bytes|, f.pos));
      ReadFully(f, mover, len) == (f.(pos := f.pos + n), if n == 0 then [] else f.bytes[f.pos..f.pos + n])
    decreases len
  {
    assert Moves(f, len, mover(f, len));
    var n := mover(f, len);
    if n > 0 {
      var (f1, got) := ReadOnce(f, n);
      ReadFullyIsSlice(f1, mover, len - n);
      var m := Min(len - n, Remaining(|f.bytes|, f1.pos));
      SliceJoin(f.bytes, f.pos, f1.pos, f1.pos + m);
    }
  }

  /** Writing until all of `data` is stored or the end is reached. */
  ghost function WriteFully(f: Flat, mover: Mover, data: seq<byte>): (Flat, nat)
    requires Progresses(mover)
    decreases |data|
  {
    assert Moves(f, |data|, mover(f, |data|));
    var n := mover(f, |data|);
    if n == 0 then (f, 0)
    else
      var (f2, m) := WriteFully(WriteOnce(f, data, n), mover, data[n..]);
      (f2, n + m)
  }

  /** However the calls split it up, that changes just the bytes at the cursor, as far as the disk
      goes. */
  lemma {:induction false} WriteFullyIsSplice(f: Flat, mover: Mover, data: seq<byte>)
    requires Progresses(mover)
    ensures
      var n := Min(|data|, Remaining(|f.bytes|, f.pos));
      WriteFully(f, mover, data) == (WriteOnce(f, data, n), n)
    decreases |data|
  {
    assert Moves(f, |data|, mover(f, |data|));
    var n := mover(f, |data|);
    if n > 0 {
      var f1, rest := WriteOnce(f, data, n), data[n..];
      WriteFullyIsSplice(f1, mover, rest);
      WriteJoins(f, data, n, Min(|rest|, Remaining(|f1.bytes|, f1.pos)));
    }
  }

  lemma WriteJoins(f: Flat, data: seq<byte>, n: nat, m: nat)
    requires n > 0 && n + m <= |data| && f.pos + n + m <= |f.bytes|
    ensures WriteOnce(WriteOnce(f, data, n), data[n..], m) == WriteOnce(f, data, n + m)
  {
    assert data[n..][..m] == data[n..n + m];
    TwoWrites(f.bytes, f.pos, data, n, m);
  }

  lemma TwoWrites(b: seq<byte>, at: nat, data: seq<byte>, n: nat, m: nat)
    requires n + m <= |data| && at + n + m <= |b|
    ensures Write(Write(b, at, data[..n]), at + n, data[n..n + m]) == Write(b, at, data[..n + m])
  {
    var once := Write(b, at, data[..n]);
    var twice, whole := Write(once, at + n, data[n..n + m]), Write(b, at, data[..n + m]);
    forall i: nat | i < |b| ensures twice[i] == whole[i] { WrittenTwice(b, at, data, n, m, i); }
    assert twice == whole;
  }

  lemma WrittenTwice(b: seq<byte>, at: nat, data: seq<byte>, n: nat, m: nat, i: nat)
    requires n + m <= |data| && at + n + m <= |b| && i < |b|
    ensures Write(Write(b, at, data[..n]), at + n, data[n..n + m])[i] == Write(b, at, data[..n + m])[i]
  {
    WriteAt(b, at, data[..n], i);
    WriteAt(Write(b, at, data[..n]), at + n, data[n..n + m], i);
    WriteAt(b, at, data[..n + m], i);
  }

  // ----- where a seek leads -----

  /** Seeking back from the end and reading on gives the last bytes of the disk. */
  lemma LastBytes(f: Flat, mover: Mover, n: nat)
    requires Progresses(mover) && n <= |f.bytes| <= U64_MAX
    ensures
      var p := SeekTo(f, SeekEnd(0 - n));
      p.Some? && ReadFully(f.(pos := p.value), mover, n).1 == f.bytes[|f.bytes| - n..]
  {
    ReadFullyIsSlice(f.(pos := |f.bytes| - n), mover, n);
  }

  /** Seeking back by what was read, and reading again, gives the same again. */
  lemma SameBytes(f: Flat, mover: Mover, n: nat)
    requires Progresses(mover) && f.pos <= U64_MAX
    ensures
      var (g, got) := ReadFully(f, mover, n);
      SeekTo(g, SeekCurrent(0 - |got|)) == Some(f.pos) && g.(pos := f.pos) == f
  {
    ReadFullyIsSlice(f, mover, n);
  }

  /** Seeking from the start and reading gives the bytes from there, none past the end; there is no
      position before the start. */
  lemma BytesFrom(f: Flat, mover: Mover, p: nat, n: nat)
    requires Progresses(mover) && p <= U64_MAX
    ensures SeekTo(f, SeekStart(p)) == Some(p)
    ensures
      var got := ReadFully(f.(pos := p), mover, n).1;
      got == if p + n <= |f.bytes| then f.bytes[p..p + n] else if p < |f.bytes| then f.bytes[p..] else []
    ensures SeekTo(f, SeekEnd(0 - |f.bytes| - 1)) == None && SeekTo(f, SeekCurrent(0 - f.pos - 1)) == None
  {
    ReadFullyIsSlice(f.(pos := p), mover, n);
  }
}
