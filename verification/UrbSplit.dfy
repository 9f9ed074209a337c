/** `Submission::build`: how a transfer's buffer is cut into URBs. */
module UrbSplit {
  import opened Arith
  import opened Wrappers
  import UrbModel

  const I32_MAX := 0x7fff_ffff
  const MAX_BULK_BUFFER_LENGTH := 16384
  const MAX_ISO_PACKETS_PER_URB := 128

  datatype BuildError = BufferTooLarge | KernelTooOld

  /** One URB: its piece of the buffer, its packets (isochronous only) and its flags. */
  datatype Piece = Piece(
    offset: nat, len: nat, firstPacket: nat, packets: seq<nat>,
    continuation: bool, zeroPacket: bool, shortNotOk: bool)

  datatype Caps = Caps(scatterGather: bool, bulkContinuation: bool)
  datatype Flags = Flags(shortNotOk: bool, zeroPacket: bool)

  /** The pieces cover `[0, total)` in order, without gap or overlap. */
  predicate Tiles(ps: seq<Piece>, total: nat) {
    (forall i: nat {:trigger EndBefore(ps, i)} :: i < |ps| ==> ps[i].offset == EndBefore(ps, i)) && total == End(ps)
  }

  /** Where piece `i - 1` ends. */
  function EndBefore(ps: seq<Piece>, i: nat): nat
    requires i <= |ps|
  {
    if i == 0 then 0 else ps[i - 1].offset + ps[i - 1].len
  }

  function End(ps: seq<Piece>): nat {
    EndBefore(ps, |ps|)
  }

  lemma TilesInit(ps: seq<Piece>)
    requires Tiles(ps, End(ps)) && ps != []
    ensures Tiles(ps[..|ps| - 1], ps[|ps| - 1].offset)
  {
    var init := ps[..|ps| - 1];
    forall i: nat | i < |init| ensures init[i].offset == EndBefore(init, i) {
      assert ps[i].offset == EndBefore(ps, i);
    }
    assert ps[|ps| - 1].offset == EndBefore(ps, |ps| - 1) == End(init);
  }

  lemma TilesSnoc(ps: seq<Piece>, p: Piece)
    requires Tiles(ps, p.offset)
    ensures Tiles(ps + [p], p.offset + p.len)
  {
    var all := ps + [p];
    forall i: nat | i < |all| ensures all[i].offset == EndBefore(all, i) {
      if i < |ps| { assert ps[i].offset == EndBefore(ps, i); }
    }
  }

  lemma {:induction false} TilesOrdered(ps: seq<Piece>, total: nat, i: nat, j: nat)
    requires Tiles(ps, total) && i < j <= |ps|
    ensures ps[i].offset + ps[i].len <= if j < |ps| then ps[j].offset else total
    decreases j - i
  {
    assert i + 1 < |ps| ==> ps[i + 1].offset == EndBefore(ps, i + 1);
    if i + 1 < j {
      TilesOrdered(ps, total, i + 1, j);
    }
  }

  /** Every buffer position lies in exactly one piece. */
  lemma TilesOnce(ps: seq<Piece>, total: nat, pos: nat) returns (i: nat)
    requires Tiles(ps, total) && pos < total
    ensures i < |ps| && ps[i].offset <= pos < ps[i].offset + ps[i].len
    ensures forall j :: 0 <= j < |ps| && ps[j].offset <= pos < ps[j].offset + ps[j].len ==> j == i
  {
    i := 0;
    assert ps[0].offset == EndBefore(ps, 0);
    while ps[i].offset + ps[i].len <= pos
      invariant i < |ps| && ps[i].offset <= pos
      decreases |ps| - i
    {
      assert i + 1 < |ps| ==> ps[i + 1].offset == EndBefore(ps, i + 1);
      i := i + 1;
    }
    forall j | 0 <= j < |ps| && j != i ensures !(ps[j].offset <= pos < ps[j].offset + ps[j].len) {
      if j < i { TilesOrdered(ps, total, j, i); } else { TilesOrdered(ps, total, i, j); }
    }
  }

  /** The bulk branch.  It fails exactly when the buffer is over 2 GiB, or needs several URBs from
      a kernel that cannot continue them. */
  method BuildBulk(len: nat, caps: Caps, flags: Flags) returns (r: Result<seq<Piece>, BuildError>)
    ensures r == Err(BufferTooLarge) <==> len > 0x7fff_ffff
    ensures r == Err(KernelTooOld) <==>
      len <= 0x7fff_ffff && !caps.scatterGather && !caps.bulkContinuation && len > 16384
    ensures r.Ok? ==> Tiles(r.value, len) && 0 < |r.value| < UrbModel.USIZE_MAX
    ensures r.Ok? ==> forall i :: 0 <= i < |r.value| ==>
      var p := r.value[i];
      && (len > 0 ==> p.len > 0)
      && (!caps.scatterGather ==> p.len <= 16384) && (caps.scatterGather ==> |r.value| == 1)
      && (p.continuation <==> i > 0)
      && (p.zeroPacket <==> flags.zeroPacket && i + 1 == |r.value|)
      && p.shortNotOk == flags.shortNotOk
      && (i + 1 < |r.value| ==> p.len == 16384)
  {
    if len > I32_MAX {
      return Err(BufferTooLarge);
    }
    var chunk := if caps.scatterGather then (if len > 1 then len else 1) else MAX_BULK_BUFFER_LENGTH;
    var count := (len + chunk - 1) / chunk;
    ChunkCount(len, chunk);
    if count < 1 {
      count := 1;
    }
    if count > 1 && !caps.bulkContinuation {
      return Err(KernelTooOld);
    }
    var ps: seq<Piece> := [];
    var i := 0;
    while i < count
      invariant 0 <= i <= count && |ps| == i
      invariant Tiles(ps, if i < count then i * chunk else len)
      invariant forall k :: 0 <= k < i ==>
        && (len > 0 ==> ps[k].len > 0) && ps[k].len <= chunk && (k + 1 < count ==> ps[k].len == chunk)
        && (ps[k].continuation <==> k > 0) && (ps[k].zeroPacket <==> flags.zeroPacket && k + 1 == count)
        && ps[k].shortNotOk == flags.shortNotOk
    {
      var offset := i * chunk;
      ChunkFits(len, chunk, count, i);
      var l := if len - offset < chunk then len - offset else chunk;
      var p := Piece(offset, l, 0, [], i > 0, flags.zeroPacket && i + 1 == count, flags.shortNotOk);
      TilesSnoc(ps, p);
      ps := ps + [p];
      i := i + 1;
    }
    r := Ok(ps);
  }

  /** `ceil(len / chunk)` pieces of `chunk` reach `len`, one fewer does not. */
  lemma ChunkCount(len: nat, chunk: nat)
    requires chunk > 0
    ensures var c := (len + chunk - 1) / chunk;
      (if len == 0 then c == 0 else (c - 1) * chunk < len) && len <= c * chunk && c <= len && (len <= chunk ==> c <= 1)
  {
    var c := (len + chunk - 1) / chunk;
    var reach := c * chunk;
    assert reach <= len + chunk - 1 < reach + chunk;
    assert (c - 1) * chunk == reach - chunk;
    if c >= 2 { MulLe(2, c, chunk); }
    if c >= 1 { MulLe(1, c, chunk); }
    if c > len {
      MulLe(len, c - 1, chunk);
      MulLe(1, chunk, len);
    }
  }

  lemma ChunkFits(len: nat, chunk: nat, count: nat, i: nat)
    requires chunk > 0 && i < count && len <= count * chunk
    requires (count - 1) * chunk < len || (len == 0 && count == 1)
    ensures i * chunk <= len && (len > 0 ==> i * chunk < len)
    ensures if i + 1 < count then i * chunk + chunk == (i + 1) * chunk <= len else len <= i * chunk + chunk
  {
    assert i * chunk <= (count - 1) * chunk;
    assert (i + 1) * chunk == i * chunk + chunk;
    if i + 1 < count {
      assert (i + 1) * chunk <= (count - 1) * chunk;
    }
  }

  // ----- isochronous transfers -----

  lemma {:induction false} SumAppend(a: seq<nat>, b: seq<nat>)
    ensures UrbModel.Sum(a + b) == UrbModel.Sum(a) + UrbModel.Sum(b)
  {
    if b == [] {
      assert a + b == a;
    } else {
      SumAppend(a, b[..|b| - 1]);
      assert (a + b)[..|a + b| - 1] == a + b[..|b| - 1];
    }
  }

  lemma SumUpto(lengths: seq<nat>, at: nat, count: nat)
    requires at + count <= |lengths|
    ensures UrbModel.Sum(lengths[..at + count]) == UrbModel.Sum(lengths[..at]) + UrbModel.Sum(lengths[at..at + count])
  {
    SumAppend(lengths[..at], lengths[at..at + count]);
    assert lengths[..at] + lengths[at..at + count] == lengths[..at + count];
  }

  /** How many packets the pieces before `i` carry, if they carry them in order. */
  function PacketsBefore(ps: seq<Piece>, i: nat): nat
    requires i <= |ps|
  {
    if i == 0 then 0 else ps[i - 1].firstPacket + |ps[i - 1].packets|
  }

  /** A piece of at most 128 packets, as long as they are together. */
  predicate Carries(p: Piece, lengths: seq<nat>) {
    && 1 <= |p.packets| <= MAX_ISO_PACKETS_PER_URB
    && p.firstPacket + |p.packets| <= |lengths|
    && p.packets == lengths[p.firstPacket..p.firstPacket + |p.packets|]
    && p.len == UrbModel.Sum(p.packets)
  }

  /** The pieces carry the first `n` packets in order, each packet once. */
  predicate TilesPackets(ps: seq<Piece>, lengths: seq<nat>, n: nat) {
    && (forall i: nat {:trigger PacketsBefore(ps, i)} :: i < |ps| ==> ps[i].firstPacket == PacketsBefore(ps, i))
    && (forall i :: 0 <= i < |ps| ==> Carries(ps[i], lengths))
    && n == PacketsBefore(ps, |ps|)
  }

  lemma TilesPacketsSnoc(ps: seq<Piece>, p: Piece, lengths: seq<nat>)
    requires TilesPackets(ps, lengths, p.firstPacket) && Carries(p, lengths)
    ensures TilesPackets(ps + [p], lengths, p.firstPacket + |p.packets|)
  {
    var all := ps + [p];
    forall i: nat | i < |all| ensures all[i].firstPacket == PacketsBefore(all, i) {
      if i < |ps| { assert ps[i].firstPacket == PacketsBefore(ps, i); }
    }
  }

  /** The isochronous branch: the URBs tile the bytes of the packets and the packets themselves;
      `offsets` holds the first packet of each. */
  method BuildIso(lengths: seq<nat>) returns (ps: seq<Piece>, offsets: seq<nat>)
    ensures Tiles(ps, UrbModel.Sum(lengths)) && TilesPackets(ps, lengths, |lengths|)
    ensures |offsets| == |ps| && forall i :: 0 <= i < |ps| ==> offsets[i] == ps[i].firstPacket
    ensures lengths != [] ==> ps != []
    ensures forall i :: 0 <= i < |ps| ==> |ps[i].packets| <= 128 && (i + 1 < |ps| ==> |ps[i].packets| == 128)
  {
    ps, offsets := [], [];
    var at := 0;
    var offset := 0;
    while at < |lengths|
      invariant 0 <= at <= |lengths| && offset == UrbModel.Sum(lengths[..at])
      invariant Tiles(ps, offset) && TilesPackets(ps, lengths, at)
      invariant |offsets| == |ps| && forall i :: 0 <= i < |ps| ==> offsets[i] == ps[i].firstPacket
      invariant forall i :: 0 <= i < |ps| ==> |ps[i].packets| <= 128 && (i + 1 < |ps| || at < |lengths| ==> |ps[i].packets| == 128)
    {
      var count := if |lengths| - at < MAX_ISO_PACKETS_PER_URB then |lengths| - at else MAX_ISO_PACKETS_PER_URB;
      var chunk := lengths[at..at + count];
      var p := Piece(offset, UrbModel.Sum(chunk), at, chunk, false, false, false);
      SumUpto(lengths, at, count);
      TilesSnoc(ps, p);
      TilesPacketsSnoc(ps, p, lengths);
      ps := ps + [p];
      offsets := offsets + [at];
      offset := offset + p.len;
      at := at + count;
    }
    assert lengths[..at] == lengths;
  }

  // ----- a short URB in the middle of a read -----

  /** Each piece received no more than it asked for, and lies in a buffer of `size` bytes. */
  predicate Fits(ps: seq<Piece>, got: seq<nat>, size: nat) {
    |got| == |ps| && forall i :: 0 <= i < |ps| ==> got[i] <= ps[i].len && ps[i].offset + ps[i].len <= size
  }

  /** What arrived: the first `got[i]` bytes of piece `i`, in URB order. */
  function Received<T>(ps: seq<Piece>, buf: seq<T>, got: seq<nat>): (r: seq<T>)
    requires Fits(ps, got, |buf|)
    ensures |r| == UrbModel.Sum(got)
  {
    if ps == [] then []
    else
      var n := |ps| - 1;
      Received(ps[..n], buf, got[..n]) + buf[ps[n].offset..ps[n].offset + got[n]]
  }

  /** Nothing arrives after a short URB: the kernel cancels the continuations of one. */
  predicate ShortEnds(ps: seq<Piece>, got: seq<nat>)
    requires |got| == |ps|
  {
    forall i, j :: 0 <= i < j < |ps| && got[i] < ps[i].len ==> got[j] == 0
  }

  predicate Full(ps: seq<Piece>, got: seq<nat>)
    requires |got| == |ps|
  {
    forall i :: 0 <= i < |ps| ==> got[i] == ps[i].len
  }

  lemma InitFits(ps: seq<Piece>, got: seq<nat>, size: nat)
    requires ps != [] && Fits(ps, got, size)
    ensures Fits(ps[..|ps| - 1], got[..|ps| - 1], size)
    ensures ShortEnds(ps, got) ==> ShortEnds(ps[..|ps| - 1], got[..|ps| - 1])
    ensures ShortEnds(ps, got) && got[|ps| - 1] > 0 ==> Full(ps[..|ps| - 1], got[..|ps| - 1])
    ensures Full(ps, got) <==> Full(ps[..|ps| - 1], got[..|ps| - 1]) && got[|ps| - 1] == ps[|ps| - 1].len
  {
    var n := |ps| - 1;
    forall i | 0 <= i < n ensures got[..n][i] == got[i] && ps[..n][i] == ps[i] {}
  }

  lemma PrefixStep<T>(buf: seq<T>, sofar: nat, at: nat, n: nat)
    requires sofar <= |buf| && at + n <= |buf| && (n > 0 ==> sofar == at)
    ensures buf[..sofar] + buf[at..at + n] == if n > 0 then buf[..sofar + n] else buf[..sofar]
  {
  }

  /** Then the first `actual_length` bytes of the buffer are what was received. */
  lemma {:induction false} ReceivedIsPrefix<T>(ps: seq<Piece>, buf: seq<T>, got: seq<nat>)
    requires Tiles(ps, End(ps)) && Fits(ps, got, |buf|) && ShortEnds(ps, got) && End(ps) <= |buf|
    ensures UrbModel.Sum(got) <= End(ps) && Received(ps, buf, got) == buf[..UrbModel.Sum(got)]
    ensures Full(ps, got) ==> UrbModel.Sum(got) == End(ps)
  {
    if ps != [] {
      var n := |ps| - 1;
      TilesInit(ps);
      InitFits(ps, got, |buf|);
      ReceivedIsPrefix(ps[..n], buf, got[..n]);
      PrefixStep(buf, UrbModel.Sum(got[..n]), ps[n].offset, got[n]);
    }
  }

  function Positions(n: nat): (r: seq<nat>)
    ensures |r| == n && forall k :: 0 <= k < n ==> r[k] == k
  {
    if n == 0 then [] else Positions(n - 1) + [n - 1]
  }

  /** What was received up to the last piece is a prefix too, and a last piece that received
      something begins where that ends. */
  lemma PrefixInit(ps: seq<Piece>, got: seq<nat>, total: nat)
    requires ps != [] && Fits(ps, got, total) && UrbModel.Sum(got) <= total
    requires Received(ps, Positions(total), got) == Positions(total)[..UrbModel.Sum(got)]
    ensures
      var n := |ps| - 1;
      && UrbModel.Sum(got[..n]) <= total
      && Received(ps[..n], Positions(total), got[..n]) == Positions(total)[..UrbModel.Sum(got[..n])]
      && (got[n] > 0 ==> ps[n].offset == UrbModel.Sum(got[..n]))
  {
    var n := |ps| - 1;
    var buf := Positions(total);
    var init, all := Received(ps[..n], buf, got[..n]), Received(ps, buf, got);
    assert init == all[..|init|];
    assert all[..|init|] == buf[..|init|];
    if got[n] > 0 {
      assert all[|init|] == buf[ps[n].offset] == ps[n].offset;
      assert all[|init|] == buf[|init|] == |init|;
    }
  }

  /** And only then: if the prefix is right whatever the bytes are, no data followed a short URB. */
  lemma {:induction false} PrefixNeedsShortEnds(ps: seq<Piece>, got: seq<nat>, total: nat)
    requires Tiles(ps, End(ps)) && Fits(ps, got, total) && End(ps) <= total
    requires UrbModel.Sum(got) <= total && Received(ps, Positions(total), got) == Positions(total)[..UrbModel.Sum(got)]
    ensures ShortEnds(ps, got) && UrbModel.Sum(got) <= End(ps)
    ensures UrbModel.Sum(got) == End(ps) ==> Full(ps, got)
  {
    if ps != [] {
      var n := |ps| - 1;
      var init, got' := ps[..n], got[..n];
      TilesInit(ps);
      PrefixInit(ps, got, total);
      InitFits(ps, got, total);
      PrefixNeedsShortEnds(init, got', total);
      if got[n] > 0 { assert Full(init, got'); }
      forall i, j | 0 <= i < j < |ps| && got[i] < ps[i].len ensures got[j] == 0 {
        assert got'[i] == got[i] && init[i] == ps[i];
        if j < n { assert got'[j] == 0; }
      }
    }
  }
}
