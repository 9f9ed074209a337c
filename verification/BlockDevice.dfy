/** `BlockDevice`: one logical unit as a stream of bytes, and its refinement of a flat disk. */
module BlockDevice {
  import opened Arith
  import opened Wrappers
  import opened Bytes
  import opened Scsi
  import opened BulkDevice
  import opened BulkTransport
  import opened MassStorage
  import opened MscDriver
  import opened FlatDisk

  datatype IoError = Device(cause: Error) | WriteZero | SeekBeforeStart | UnexpectedEof

  /** A block that holds a byte of the disk lies on the disk. */
  lemma BlockOnDisk(pos: nat, bs: nat, count: nat)
    requires bs > 0 && pos < count * bs
    ensures 0 <= pos % bs < bs && 0 <= pos / bs < count
    ensures pos == pos / bs * bs + pos % bs && pos / bs * bs + bs <= count * bs
  {
    var lba := pos / bs;
    assert pos == lba * bs + pos % bs;
    if lba >= count { MulLe(count, lba, bs); }
    MulLe(lba + 1, count, bs);
    Distribute(lba, 1, bs);
  }

  /** So do the whole blocks of an access that ends on it. */
  lemma BlocksOnDisk(pos: nat, bs: nat, count: nat, blocks: nat)
    requires bs > 0 && pos % bs == 0 && pos + blocks * bs <= count * bs
    ensures pos == pos / bs * bs && pos / bs + blocks <= count
  {
    var lba := pos / bs;
    assert pos == lba * bs + pos % bs;
    Distribute(lba, blocks, bs);
    if lba + blocks > count {
      MulLe(count + 1, lba + blocks, bs);
      Distribute(count, 1, bs);
    }
  }

  lemma RangeOnDisk(lba: nat, blocks: nat, bs: nat, count: nat)
    requires lba + blocks <= count
    ensures lba * bs + blocks * bs <= count * bs
  {
    Distribute(lba, blocks, bs);
    MulLe(lba + blocks, count, bs);
  }

  lemma SliceOfSlice(m: seq<byte>, lo: nat, bs: nat, off: nat, n: nat)
    requires lo + bs <= |m| && off + n <= bs
    ensures m[lo..lo + bs][off..off + n] == m[lo + off..lo + off + n]
  {
    var inner, outer := m[lo..lo + bs][off..off + n], m[lo + off..lo + off + n];
    assert forall i :: 0 <= i < n ==> inner[i] == outer[i];
  }

  /** Changing part of a block and writing the block back changes just that part. */
  lemma SpliceBlock(m: seq<byte>, lo: nat, bs: nat, off: nat, part: seq<byte>)
    requires lo + bs <= |m| && off + |part| <= bs
    ensures Write(m, lo, Write(m[lo..lo + bs], off, part)) == Write(m, lo + off, part)
  {
    var block := Write(m[lo..lo + bs], off, part);
    var whole, direct := Write(m, lo, block), Write(m, lo + off, part);
    forall i: nat | i < |m| ensures whole[i] == direct[i] {
      WriteAt(m, lo, block, i);
      WriteAt(m, lo + off, part, i);
      if lo <= i < lo + bs { WriteAt(m[lo..lo + bs], off, part, i - lo); }
    }
    assert whole == direct;
  }

  lemma Spliced(m: seq<byte>, pos: nat, data: seq<byte>, n: nat, m': seq<byte>)
    requires n <= |data| && pos + n <= |m| && m' == Write(m, pos, data[..n])
    ensures WriteOnce(Flat(m, pos), data, n) == Flat(m', pos + n)
  {
  }

  /** Two slices in a row are one. */
  lemma GotMore(m: seq<byte>, start: nat, mid: nat, end: nat, got: seq<byte>, part: seq<byte>)
    requires start <= mid <= end <= |m| && part == m[mid..end] && (if got == [] then mid == start else got == m[start..mid])
    ensures got + part == m[start..end]
  {
    if got == [] { assert got + part == part; } else { SliceJoin(m, start, mid, end); }
  }

  /** The part of the disk that a write at `pos` may damage when it fails: the blocks it begins in
      or covers. */
  function Reach(bs: nat, pos: nat, len: nat): (r: (nat, nat))
    requires bs > 0
  {
    var lo := pos - pos % bs;
    (lo, lo + (if len < bs then bs else len))
  }

  /** A failed write of `len` bytes at the cursor has spared all other blocks. */
  predicate Spared(before: Flat, after: Flat, bs: nat, len: nat)
    requires bs > 0
  {
    Within(before.bytes, after.bytes, Reach(bs, before.pos, len).0, Reach(bs, before.pos, len).1)
  }

  class BlockDevice {
    const msc: Driver
    const lun: byte
    const blockCount: nat
    const blockSize: nat
    const size: nat  // of the unit in bytes
    var pos: nat
    var scratch: seq<byte>

    /** The capacity is that of the unit, its size in bytes fits 64 bits, and the block size 32. */
    ghost predicate Valid()
      reads this, msc.bus
    {
      && Geometry(msc.bus.dev, lun, blockSize) && |msc.bus.dev.medium| == size == blockCount * blockSize
      && size <= U64_MAX && blockSize <= U32_MAX && pos <= U64_MAX
    }

    /** And the device waits for a command. */
    ghost predicate Ready()
      reads this, msc.bus
    {
      Valid() && InSync(msc.bus.dev)
    }

    /** Nothing will go wrong from here on. */
    ghost predicate Calm()
      reads msc, msc.bus
    {
      Peaceful(msc.bus.script, msc.bus.clock) && lun <= msc.maxLun && msc.maxTransfer <= U32_MAX
    }

    ghost function View(): Flat
      reads this, msc.bus
    {
      Flat(msc.bus.dev.medium, pos)
    }

    constructor (msc: Driver, lun: byte, blockCount: nat, blockSize: nat)
      requires Geometry(msc.bus.dev, lun, blockSize) && |msc.bus.dev.medium| == blockCount * blockSize <= U64_MAX
      requires blockSize <= U32_MAX
      ensures Valid() && View() == Flat(msc.bus.dev.medium, 0) && this.msc == msc
    {
      this.msc, this.lun, this.blockCount, this.blockSize := msc, lun, blockCount, blockSize;
      size := blockCount * blockSize;
      pos, scratch := 0, [];
    }

    function Left(): nat
      reads this
    {
      if pos < size then size - pos else 0
    }

    /** `blocks` whole blocks from `lba`. */
    method LoadBlocks(lba: nat, blocks: nat) returns (r: Result<(), Error>, buf: seq<byte>)
      requires Ready() && blocks >= 1 && lba + blocks <= blockCount
      modifies msc`tag, msc`asked, msc.bus
      ensures Valid() && msc.bus.dev.medium == old(msc.bus.dev.medium)
      ensures r.Ok? ==>
        && Ready() && lba * blockSize + blocks * blockSize <= |msc.bus.dev.medium|
        && buf == msc.bus.dev.medium[lba * blockSize..lba * blockSize + blocks * blockSize]
      ensures old(Calm()) ==> r.Ok? && Calm()
    {
      DivExact(blocks, blockSize);
      RangeOnDisk(lba, blocks, blockSize, blockCount);
      r, buf := msc.ReadBlocks(lun, lba, blockSize, blocks * blockSize);
    }

    method StoreBlocks(lba: nat, blocks: nat, data: seq<byte>) returns (r: Result<(), Error>)
      requires Ready() && blocks >= 1 && lba + blocks <= blockCount && |data| == blocks * blockSize
      modifies msc`tag, msc`asked, msc.bus
      ensures Valid()
      ensures Within(old(msc.bus.dev.medium), msc.bus.dev.medium, lba * blockSize, lba * blockSize + |data|)
      ensures r.Ok? ==>
        && Ready() && lba * blockSize + |data| <= |old(msc.bus.dev.medium)|
        && msc.bus.dev.medium == Write(old(msc.bus.dev.medium), lba * blockSize, data)
      ensures old(Calm()) ==> r.Ok? && Calm()
    {
      DivExact(blocks, blockSize);
      RangeOnDisk(lba, blocks, blockSize, blockCount);
      r := msc.WriteBlocks(lun, lba, blockSize, data);
    }

    method LoadScratch(lba: nat) returns (r: Result<(), Error>)
      requires Ready() && lba < blockCount
      modifies this`scratch, msc`tag, msc`asked, msc.bus
      ensures Valid() && msc.bus.dev.medium == old(msc.bus.dev.medium)
      ensures r.Ok? ==>
        && Ready() && lba * blockSize + blockSize <= |msc.bus.dev.medium|
        && scratch == msc.bus.dev.medium[lba * blockSize..lba * blockSize + blockSize]
      ensures old(Calm()) ==> r.Ok? && Calm()
    {
      var buf;
      r, buf := LoadBlocks(lba, 1);
      scratch := buf;
    }

    method Direct(len: nat) returns (blocks: nat)
      requires blockSize > 0
      ensures blocks == DirectBlocks(size, blockSize, pos, len)
    {
      if pos % blockSize != 0 {
        return 0;
      }
      blocks := Min(len, Left()) / blockSize;
    }

    /** Block and offset of the cursor. */
    method Cursor() returns (lba: nat, off: nat, ghost lo: nat)
      requires blockSize > 0 && pos < size == blockCount * blockSize
      ensures off == pos % blockSize < blockSize && lba == pos / blockSize < blockCount
      ensures pos == lo + off && lo == lba * blockSize && lo + blockSize <= size
    {
      BlockOnDisk(pos, blockSize, blockCount);
      lba, off := pos / blockSize, pos % blockSize;
      lo := lba * blockSize;
    }

    /** Part of the block at byte `lo`. */
    method ReadInBlock(lba: nat, ghost lo: nat, off: nat, n: nat) returns (r: Result<(), Error>, got: seq<byte>)
      requires Ready() && lba < blockCount && lo == lba * blockSize && off + n <= blockSize
      modifies this`scratch, msc`tag, msc`asked, msc.bus
      ensures Valid() && msc.bus.dev.medium == old(msc.bus.dev.medium)
      ensures r.Ok? ==> Ready() && lo + off + n <= size && got == msc.bus.dev.medium[lo + off..lo + off + n]
      ensures old(Calm()) ==> r.Ok? && Calm()
    {
      got := [];
      r := LoadScratch(lba);
      if r.Err? { return; }
      SliceOfSlice(msc.bus.dev.medium, lo, blockSize, off, n);
      got := scratch[off..off + n];
    }

    /** `read` through the scratch block. */
    method ReadPartial(len: nat) returns (r: Result<nat, IoError>, got: seq<byte>)
      requires Ready() && pos < size
      modifies this`pos, this`scratch, msc`tag, msc`asked, msc.bus
      ensures Valid()
      ensures r.Ok? ==>
        && Ready() && r.value == Min(Min(blockSize - old(pos) % blockSize, len), size - old(pos))
        && (View(), got) == ReadOnce(old(View()), r.value)
      ensures r.Err? ==> r.error.Device? && View() == old(View())
      ensures old(Calm()) ==> r.Ok? && Calm()
    {
      var lba, off, lo := Cursor();
      var n := Min(Min(blockSize - off, len), Left());
      var loaded;
      loaded, got := ReadInBlock(lba, lo, off, n);
      if loaded.Err? { return Err(Device(loaded.error)), []; }
      pos := pos + n;
      r := Ok(n);
    }

    /** `read` of whole blocks. */
    method ReadWhole(blocks: nat) returns (r: Result<nat, IoError>, got: seq<byte>)
      requires Ready() && pos < size && pos % blockSize == 0 && blocks >= 1 && pos + blocks * blockSize <= size
      modifies this`pos, this`scratch, msc`tag, msc`asked, msc.bus
      ensures Valid()
      ensures r.Ok? ==>
        && Ready() && r.value == blocks * blockSize
        && (View(), got) == ReadOnce(old(View()), r.value)
      ensures r.Err? ==> r.error.Device? && View() == old(View())
      ensures old(Calm()) ==> r.Ok? && Calm()
    {
      var lba, off, lo := Cursor();
      BlocksOnDisk(pos, blockSize, blockCount, blocks);
      var n := blocks * blockSize;
      MulLe(1, blocks, blockSize);
      var loaded;
      loaded, got := LoadBlocks(lba, blocks);
      if loaded.Err? { return Err(Device(loaded.error)), []; }
      pos := pos + n;
      r := Ok(n);
    }

    /** `read`: the bytes at the cursor, some at least unless the end is reached or none are asked
        for; a failure moves nothing. */
    method Read(len: nat) returns (r: Result<nat, IoError>, got: seq<byte>)
      requires Ready()
      modifies this`pos, this`scratch, msc`tag, msc`asked, msc.bus
      ensures Valid()
      ensures r.Ok? ==>
        && Ready() && Moves(old(View()), len, r.value) && r.value == Blockwise(blockSize)(old(View()), len)
        && (View(), got) == ReadOnce(old(View()), r.value)
      ensures r.Err? ==> r.error.Device? && View() == old(View())
      ensures old(Calm()) ==> r.Ok? && Calm()
    {
      AmountProgress(size, blockSize, pos, len);
      if len == 0 || Left() == 0 {
        return Ok(0), [];
      }
      var blocks := Direct(len);
      if blocks == 0 {
        r, got := ReadPartial(len);
      } else {
        r, got := ReadWhole(blocks);
      }
    }

    /** Read, modify and write back part of the block at byte `lo`. */
    method WriteInBlock(lba: nat, ghost lo: nat, off: nat, part: seq<byte>) returns (r: Result<(), Error>)
      requires Ready() && lba < blockCount && lo == lba * blockSize && off + |part| <= blockSize && lo + blockSize <= size
      modifies this`scratch, msc`tag, msc`asked, msc.bus
      ensures Valid() && Within(old(msc.bus.dev.medium), msc.bus.dev.medium, lo, lo + blockSize)
      ensures r.Ok? ==> Ready() && msc.bus.dev.medium == Write(old(msc.bus.dev.medium), lo + off, part)
      ensures old(Calm()) ==> r.Ok? && Calm()
    {
      r := LoadScratch(lba);
      if r.Err? { return; }
      SpliceBlock(msc.bus.dev.medium, lo, blockSize, off, part);
      scratch := Write(scratch, off, part);
      r := StoreBlocks(lba, 1, scratch);
    }

    /** `write` through the scratch block. */
    method WritePartial(data: seq<byte>) returns (r: Result<nat, IoError>)
      requires Ready() && pos < size
      modifies this`pos, this`scratch, msc`tag, msc`asked, msc.bus
      ensures Valid()
      ensures r.Ok? ==>
        && Ready() && r.value == Min(Min(blockSize - old(pos) % blockSize, |data|), size - old(pos))
        && View() == WriteOnce(old(View()), data, r.value)
      ensures r.Err? ==>
        && r.error.Device? && pos == old(pos)
        && Spared(old(View()), View(), blockSize, 0)
      ensures old(Calm()) ==> r.Ok? && Calm()
    {
      ghost var disk := msc.bus.dev.medium;
      var lba, off, lo := Cursor();
      var n := Min(Min(blockSize - off, |data|), Left());
      var stored := WriteInBlock(lba, lo, off, data[..n]);
      if stored.Err? { return Err(Device(stored.error)); }
      Spliced(disk, pos, data, n, msc.bus.dev.medium);
      pos := pos + n;
      r := Ok(n);
    }

    /** `write` of whole blocks. */
    method WriteWhole(blocks: nat, data: seq<byte>) returns (r: Result<nat, IoError>)
      requires Ready() && pos < size && pos % blockSize == 0 && blocks >= 1
      requires pos + blocks * blockSize <= size && blocks * blockSize <= |data|
      modifies this`pos, this`scratch, msc`tag, msc`asked, msc.bus
      ensures Valid()
      ensures r.Ok? ==> Ready() && r.value == blocks * blockSize && View() == WriteOnce(old(View()), data, r.value)
      ensures r.Err? ==>
        && r.error.Device? && pos == old(pos)
        && Spared(old(View()), View(), blockSize, |data|)
      ensures old(Calm()) ==> r.Ok? && Calm()
    {
      var lba, off, lo := Cursor();
      BlocksOnDisk(pos, blockSize, blockCount, blocks);
      var n := blocks * blockSize;
      MulLe(1, blocks, blockSize);
      var stored := StoreBlocks(lba, blocks, data[..n]);
      if stored.Err? { return Err(Device(stored.error)); }
      pos := pos + n;
      r := Ok(n);
    }

    /** `write`: stores bytes at the cursor, some at least unless the end is reached or none are
        given; the rest of every block keeps its bytes, and a failure moves nothing and damages no
        other blocks. */
    method WriteSome(data: seq<byte>) returns (r: Result<nat, IoError>)
      requires Ready()
      modifies this`pos, this`scratch, msc`tag, msc`asked, msc.bus
      ensures Valid()
      ensures r == Err(WriteZero) <==> data != [] && old(pos) >= size
      ensures r == Err(WriteZero) ==> View() == old(View()) && Ready()
      ensures r.Ok? ==>
        && Ready() && Moves(old(View()), |data|, r.value) && r.value == Blockwise(blockSize)(old(View()), |data|)
        && View() == WriteOnce(old(View()), data, r.value)
      ensures r.Err? && r.error != WriteZero ==>
        && r.error.Device? && pos == old(pos)
        && Spared(old(View()), View(), blockSize, |data|)
      ensures old(Calm()) ==> (r.Ok? || r == Err(WriteZero)) && Calm()
    {
      AmountProgress(size, blockSize, pos, |data|);
      if data == [] {
        return Ok(0);
      }
      if Left() == 0 {
        return Err(WriteZero);
      }
      var blocks := Direct(|data|);
      if blocks == 0 {
        r := WritePartial(data);
      } else {
        r := WriteWhole(blocks, data);
      }
    }

    /** `seek`: anywhere a 64-bit position can be, past the end too. */
    method Seek(to: SeekFrom) returns (r: Result<nat, IoError>)
      requires Valid()
      modifies this`pos
      ensures Valid() && (old(Ready()) ==> Ready())
      ensures match SeekTo(old(View()), to)
        case Some(p) => r == Ok(p) && View() == old(View()).(pos := p)
        case None => r == Err(SeekBeforeStart) && View() == old(View())
    {
      var p := match to
        case SeekStart(p) => p
        case SeekEnd(d) => size + d
        case SeekCurrent(d) => pos + d;
      if p < 0 || p > U64_MAX {
        return Err(SeekBeforeStart);
      }
      pos := p;
      r := Ok(p);
    }

    // ----- repeated calls -----

    /** `read_exact` of the standard library: it ends, and reads just the bytes at the cursor. */
    method ReadExact(len: nat) returns (r: Result<seq<byte>, IoError>)
      requires Ready()
      modifies this`pos, this`scratch, msc`tag, msc`asked, msc.bus
      ensures Valid() && msc.bus.dev.medium == old(msc.bus.dev.medium)
      ensures r.Ok? ==> Ready() && |r.value| == len && pos == old(pos) + len
      ensures r.Ok? && len > 0 ==> pos <= size && r.value == msc.bus.dev.medium[old(pos)..pos]
      ensures r == Err(UnexpectedEof) ==> len > 0 && old(pos) + len > size
      ensures old(Calm()) ==> Calm() && (r.Ok? <==> len == 0 || old(pos) + len <= size)
    {
      var got: seq<byte> := [];
      ghost var start := pos;
      while |got| < len
        invariant |got| <= len && Ready() && pos == start + |got| && msc.bus.dev.medium == old(msc.bus.dev.medium)
        invariant got != [] ==> pos <= size && got == msc.bus.dev.medium[start..pos]
        invariant old(Calm()) ==> Calm()
        decreases len - |got|
      {
        ghost var before := pos;
        var n, part := Read(len - |got|);
        if n.Err? { return Err(n.error); }
        if n.value == 0 { return Err(UnexpectedEof); }
        GotMore(msc.bus.dev.medium, start, before, pos, got, part);
        got := got + part;
      }
      r := Ok(got);
    }

    /** `write_all` of the standard library: it ends, and stores just the given bytes at the cursor. */
    method WriteAll(data: seq<byte>) returns (r: Result<(), IoError>)
      requires Ready()
      modifies this`pos, this`scratch, msc`tag, msc`asked, msc.bus
      ensures Valid()
      ensures r.Ok? ==> Ready() && (data != [] ==> old(pos) + |data| <= size) && View() == StoredAt(old(View()), data, |data|)
      ensures r == Err(WriteZero) ==> Ready() && old(pos) + |data| > size && data != []
      ensures old(Calm()) ==> Calm() && (r.Ok? <==> data == [] || old(pos) + |data| <= size)
    {
      ghost var f0 := View();
      ghost var done: nat := 0;
      var rest := data;
      while rest != []
        invariant Ready() && done <= |data| && rest == data[done..] && (done > 0 ==> f0.pos + done <= size)
        invariant View() == StoredAt(f0, data, done)
        invariant old(Calm()) ==> Calm()
        decreases |rest|
      {
        ghost var f := View();
        var n := WriteSome(rest);
        if n.Err? { return Err(n.error); }
        StoredMore(f0, data, done, n.value);
        rest, done := rest[n.value..], done + n.value;
      }
      r := Ok(());
    }

    /** Any sequence of calls does to the unit just what it does to the flat disk, and returns the
        same, up to the first error of the device; and if nothing goes wrong there is none. */
    method Session(ops: seq<DiskOp>) returns (replies: seq<Reply>, failed: Option<Error>)
      requires Ready()
      modifies this`pos, this`scratch, msc`tag, msc`asked, msc.bus
      ensures |replies| <= |ops| && replies == FlatRun(old(View()), blockSize, ops[..|replies|]).1
      ensures failed.None? ==> |replies| == |ops| && Ready() && View() == FlatRun(old(View()), blockSize, ops).0
      ensures old(Calm()) ==> failed.None?
    {
      ghost var f0 := View();
      replies := [];
      for i := 0 to |ops|
        invariant Ready() && |replies| == i && (View(), replies) == FlatRun(f0, blockSize, ops[..i])
        invariant old(Calm()) ==> Calm()
      {
        assert ops[..i + 1][..i] == ops[..i];
        var reply := Call(ops[i]);
        if reply.Err? { return replies, Some(reply.error); }
        replies := replies + [reply.value];
      }
      assert ops[..|ops|] == ops;
      failed := None;
    }

    /** A session in which every error of the device is followed by a reset recovery, and that goes on
        as long as those go through: before each call the unit is a flat disk, which the call works on,
        or, if it fails, leaves its cursor and all bytes alone but those of the blocks it writes. */
    method RecoveringSession(ops: seq<DiskOp>)
      returns (outcomes: seq<Result<Reply, Error>>, recovered: bool, ghost views: seq<Flat>)
      requires Ready()
      modifies this`pos, this`scratch, msc`tag, msc`asked, msc.bus
      ensures Valid() && |views| == |outcomes| + 1 && views[0] == old(View()) && views[|outcomes|] == View()
      ensures if recovered then |outcomes| == |ops| && Ready()
              else 0 < |outcomes| <= |ops| && outcomes[|outcomes| - 1].Err?
      ensures forall i :: 0 <= i < |outcomes| ==> Follows(views[i], views[i + 1], blockSize, ops[i], outcomes[i])
    {
      outcomes, recovered, views := [], true, [View()];
      for i := 0 to |ops|
        invariant Ready() && recovered && |outcomes| == i && |views| == i + 1 && views[0] == old(View()) && views[i] == View()
        invariant forall k :: 0 <= k < i ==> Follows(views[k], views[k + 1], blockSize, ops[k], outcomes[k])
      {
        var reply;
        reply, recovered := CallAndRecover(ops[i]);
        outcomes, views := outcomes + [reply], views + [View()];
        if !recovered { return; }
      }
    }

    method CallAndRecover(op: DiskOp) returns (r: Result<Reply, Error>, recovered: bool)
      requires Ready()
      modifies this`pos, this`scratch, msc`tag, msc`asked, msc.bus
      ensures Valid() && Follows(old(View()), View(), blockSize, op, r)
      ensures recovered ==> Ready()
      ensures !recovered ==> r.Err?
    {
      r := Call(op);
      recovered := true;
      if r.Err? {
        RecoveryRestores(msc.View().pipes, msc.bus.script);
        var reset := msc.ResetRecovery();
        recovered := reset.Ok?;
      }
    }

    method Call(op: DiskOp) returns (r: Result<Reply, Error>)
      requires Ready()
      modifies this`pos, this`scratch, msc`tag, msc`asked, msc.bus
      ensures Valid()
      ensures r.Ok? ==> Ready() && (View(), r.value) == FlatStep(old(View()), blockSize, op)
      ensures r.Err? ==> Damaged(old(View()), View(), blockSize, op)
      ensures old(Calm()) ==> r.Ok? && Calm()
    {
      match op
      case DoRead(len) =>
        var n, got := Read(len);
        return if n.Ok? then Ok(Got(got)) else Err(n.error.cause);
      case DoWrite(data) =>
        var n := WriteSome(data);
        return if n.Ok? then Ok(Wrote(n.value)) else if n.error.WriteZero? then Ok(Full) else Err(n.error.cause);
      case DoSeek(to) =>
        var p := Seek(to);
        return Ok(if p.Ok? then At(p.value) else BadSeek);
    }
  }

  // ----- the same calls on the flat disk -----

  datatype DiskOp = DoRead(len: nat) | DoWrite(data: seq<byte>) | DoSeek(to: SeekFrom)
  datatype Reply = Got(bytes: seq<byte>) | Wrote(n: nat) | Full | At(p: nat) | BadSeek

  ghost function FlatStep(f: Flat, bs: nat, op: DiskOp): (Flat, Reply)
    requires bs > 0
  {
    BlockwiseProgresses(bs);
    match op
    case DoRead(len) =>
      assert Moves(f, len, Blockwise(bs)(f, len));
      var (f1, got) := ReadOnce(f, Blockwise(bs)(f, len));
      (f1, Got(got))
    case DoWrite(data) =>
      assert Moves(f, |data|, Blockwise(bs)(f, |data|));
      if data != [] && f.pos >= |f.bytes| then (f, Full)
      else (WriteOnce(f, data, Blockwise(bs)(f, |data|)), Wrote(Blockwise(bs)(f, |data|)))
    case DoSeek(to) =>
      match SeekTo(f, to)
      case Some(p) => (f.(pos := p), At(p))
      case None => (f, BadSeek)
  }

  /** What a failed call may have done: nothing, but to the blocks of a write. */
  predicate Damaged(f: Flat, f': Flat, bs: nat, op: DiskOp)
    requires bs > 0
  {
    f'.pos == f.pos && if op.DoWrite? then Spared(f, f', bs, |op.data|) else f' == f
  }

  /** One call took the disk from `f` to `f'` with this outcome. */
  ghost predicate Follows(f: Flat, f': Flat, bs: nat, op: DiskOp, r: Result<Reply, Error>)
    requires bs > 0
  {
    if r.Ok? then (f', r.value) == FlatStep(f, bs, op) else Damaged(f, f', bs, op)
  }

  ghost function FlatRun(f: Flat, bs: nat, ops: seq<DiskOp>): (Flat, seq<Reply>)
    requires bs > 0
  {
    if ops == [] then (f, [])
    else
      var (f1, replies) := FlatRun(f, bs, ops[..|ops| - 1]);
      var (f2, reply) := FlatStep(f1, bs, ops[|ops| - 1]);
      (f2, replies + [reply])
  }

  /** The disk once the first `n` bytes of `data` are stored. */
  function StoredAt(f: Flat, data: seq<byte>, n: nat): Flat {
    if n == 0 || n > |data| || f.pos + n > |f.bytes| then f else WriteOnce(f, data, n)
  }

  lemma StoredMore(f: Flat, data: seq<byte>, done: nat, n: nat)
    requires 0 < n && done + n <= |data| && f.pos + done + n <= |f.bytes|
    ensures WriteOnce(StoredAt(f, data, done), data[done..], n) == StoredAt(f, data, done + n)
  {
    if done > 0 { FlatDisk.WriteJoins(f, data, done, n); }
  }
}
