/** The driver as the code has it: one object over the pipes of an open device. */
module MscDriver {
  import opened Arith
  import opened Wrappers
  import opened Bytes
  import opened Scsi
  import opened BulkDevice
  import opened BulkTransport
  import opened MassStorage

  const U16_BLOCKS := 0xffff

  /** The unit whose medium the device model holds. */
  predicate Geometry(d: Dev, lun: byte, bs: nat) {
    d.lun == lun && d.blockSize == bs && bs > 0
  }

  /** As many blocks as 16 bits can count and `limit` bytes hold, but at least one. */
  predicate Largest(blocks: nat, bs: nat, limit: nat) {
    && 1 <= blocks <= 65535 && (blocks * bs <= limit || blocks == 1)
    && (blocks == 65535 || (blocks + 1) * bs > limit)
  }

  /** READ or WRITE commands for `[lba, end)`, back to back, each as large as may be, or for all that is
      left of a range up to `whole`. */
  predicate Consecutive(jobs: seq<Job>, write: bool, bs: nat, limit: nat, whole: nat, lba: nat, end: nat) {
    if jobs == [] then lba == end
    else
      var j := jobs[|jobs| - 1];
      match DecodeRw(j.cdb)
      case None => false
      case Some(rw) =>
        && rw.write == write && 1 <= rw.blocks <= U16_BLOCKS && rw.lba + rw.blocks == end
        && j.expected == rw.blocks * bs && (j.expected <= limit || rw.blocks == 1)
        && (Largest(rw.blocks, bs, limit) || end == whole)
        && Consecutive(jobs[..|jobs| - 1], write, bs, limit, whole, lba, rw.lba)
  }

  /** What reading blocks comes to, however the device behaves: success means the right bytes. */
  predicate ReadDone(d: Dev, at: nat, len: nat, d': Dev, r: Result<(), Error>, got: seq<byte>) {
    && d'.medium == d.medium && d'.lun == d.lun && d'.blockSize == d.blockSize
    && (r.Ok? ==> InSync(d') && at + len <= |d.medium| && got == d.medium[at..at + len])
  }

  /** What writing blocks comes to: success means just these bytes were stored, and failure leaves
      everything else alone. */
  predicate WriteDone(d: Dev, at: nat, data: seq<byte>, d': Dev, r: Result<(), Error>) {
    && Within(d.medium, d'.medium, at, at + |data|) && d'.lun == d.lun && d'.blockSize == d.blockSize
    && (r.Ok? ==> InSync(d') && at + |data| <= |d.medium| && d'.medium == Write(d.medium, at, data))
  }

  /** From here on nothing goes wrong on the line or in the device. */
  ghost predicate Peaceful(script: Script, clock: nat) {
    forall k :: k >= clock ==> Calm(script(k))
  }

  /** The command block for whole blocks means what was asked for, and the device can carry it out
      exactly if they are on the medium. */
  lemma BlockCommand(d: Dev, lun: byte, bs: nat, write: bool, lba: nat, blocks: nat, data: DataPhase)
    requires Geometry(d, lun, bs) && 1 <= blocks <= U16_BLOCKS && lba + blocks <= U64_MAX
    requires DataLen(data) == blocks * bs && data.In? == !write
    ensures
      var j := Ask(lun, RwCdb(write, lba, blocks), data);
      && DecodeRw(j.cdb) == Some(Rw(write, lba, blocks))
      && Lo(d, Rw(write, lba, blocks)) == lba * bs && Hi(d, Rw(write, lba, blocks)) == lba * bs + blocks * bs
      && (DoableJob(d, j) <==> lba * bs + blocks * bs <= |d.medium|)
  {
    RwRoundTrip(write, lba, blocks);
    Distribute(lba, blocks, bs);
  }

  type Outcome = (Host, Result<nat, Error>, seq<byte>)

  function Check(r: Result<nat, Error>, wanted: nat): Result<(), Error> {
    if r.Err? then Err(r.error) else if r.value != wanted then Err(Protocol) else Ok(())
  }

  predicate ReadCame(h: Host, lun: byte, bs: nat, lba: nat, blocks: nat, out: Outcome) {
    InSync(h.pipes.dev) && Geometry(h.pipes.dev, lun, bs) ==>
      ReadDone(h.pipes.dev, lba * bs, blocks * bs, out.0.pipes.dev, Check(out.1, blocks * bs), out.2)
  }

  lemma ReadOutcome(h: Host, maxLun: LunMax, lun: byte, bs: nat, lba: nat, blocks: nat, script: Script)
    requires 1 <= blocks <= U16_BLOCKS && lba + blocks <= U64_MAX
    ensures ReadCame(h, lun, bs, lba, blocks, Commanded(h, maxLun, lun, RwCdb(false, lba, blocks), In(blocks * bs), script))
  {
    if InSync(h.pipes.dev) && Geometry(h.pipes.dev, lun, bs) {
      BlockCommand(h.pipes.dev, lun, bs, false, lba, blocks, In(blocks * bs));
      CommandPerforms(h, maxLun, lun, RwCdb(false, lba, blocks), In(blocks * bs), script);
    }
  }

  predicate WriteCame(h: Host, lun: byte, bs: nat, lba: nat, data: seq<byte>, out: Outcome) {
    InSync(h.pipes.dev) && Geometry(h.pipes.dev, lun, bs) ==>
      WriteDone(h.pipes.dev, lba * bs, data, out.0.pipes.dev, Check(out.1, |data|))
  }

  lemma WriteOutcome(h: Host, maxLun: LunMax, lun: byte, bs: nat, lba: nat, blocks: nat, data: seq<byte>, script: Script)
    requires 1 <= blocks <= U16_BLOCKS && lba + blocks <= U64_MAX && |data| == blocks * bs
    ensures WriteCame(h, lun, bs, lba, data, Commanded(h, maxLun, lun, RwCdb(true, lba, blocks), Out(data), script))
  {
    if InSync(h.pipes.dev) && Geometry(h.pipes.dev, lun, bs) {
      BlockCommand(h.pipes.dev, lun, bs, true, lba, blocks, Out(data));
      CommandPerforms(h, maxLun, lun, RwCdb(true, lba, blocks), Out(data), script);
    }
  }

  /** What it takes for an access to blocks to be bound to succeed. */
  ghost predicate Bound(d: Dev, clock: nat, script: Script, maxLun: LunMax, lun: byte, bs: nat, lba: nat, len: nat) {
    && InSync(d) && Geometry(d, lun, bs) && Peaceful(script, clock) && lun <= maxLun
    && len <= U32_MAX && lba * bs + len <= |d.medium|
  }

  /** One command was added to a log, for just these blocks. */
  predicate OneMore(log: seq<Job>, log': seq<Job>, write: bool, lba: nat, blocks: nat, bs: nat) {
    && |log'| == |log| + 1 && log'[..|log|] == log
    && DecodeRw(log'[|log|].cdb) == Some(Rw(write, lba, blocks)) && log'[|log|].expected == blocks * bs
  }

  predicate Succeeded(h: Host, write: bool, bs: nat, lba: nat, blocks: nat, out: Outcome) {
    && out.1 == Ok(blocks * bs) && out.0.pipes.clock >= h.pipes.clock
    && OneMore(h.pipes.dev.log, out.0.pipes.dev.log, write, lba, blocks, bs)
  }

  lemma PeacefulOutcome(
    h: Host, maxLun: LunMax, lun: byte, bs: nat, write: bool, lba: nat, blocks: nat, data: DataPhase, script: Script)
    requires 1 <= blocks <= U16_BLOCKS && lba + blocks <= U64_MAX
    requires DataLen(data) == blocks * bs && data.In? == !write
    requires Bound(h.pipes.dev, h.pipes.clock, script, maxLun, lun, bs, lba, blocks * bs)
    ensures Succeeded(h, write, bs, lba, blocks, Commanded(h, maxLun, lun, RwCdb(write, lba, blocks), data, script))
  {
    BlockCommand(h.pipes.dev, lun, bs, write, lba, blocks, data);
    CalmCommand(h, maxLun, lun, RwCdb(write, lba, blocks), data, script);
  }

  lemma ConsecutiveLast(
    jobs: seq<Job>, j: Job, write: bool, bs: nat, limit: nat, whole: nat, lba: nat, mid: nat, blocks: nat)
    requires Consecutive(jobs, write, bs, limit, whole, lba, mid) && 1 <= blocks <= U16_BLOCKS
    requires DecodeRw(j.cdb) == Some(Rw(write, mid, blocks)) && j.expected == blocks * bs
    requires j.expected <= limit || blocks == 1
    requires Largest(blocks, bs, limit) || mid + blocks == whole
    ensures Consecutive(jobs + [j], write, bs, limit, whole, lba, mid + blocks)
  {
    assert (jobs + [j])[..|jobs|] == jobs;
  }

  function Chunk(bs: nat, maxTransfer: nat): (r: nat)
    requires bs > 0
    ensures 1 <= r <= U16_BLOCKS
  {
    if maxTransfer / bs < 1 then 1 else if maxTransfer / bs > U16_BLOCKS then U16_BLOCKS else maxTransfer / bs
  }

  lemma ChunkFits(bs: nat, maxTransfer: nat, blocks: nat)
    requires bs > 0 && blocks <= Chunk(bs, maxTransfer)
    ensures blocks * bs <= maxTransfer || blocks <= 1
  {
    if blocks > 1 {
      MulLe(blocks, maxTransfer / bs, bs);
      assert (maxTransfer / bs) * bs <= maxTransfer;
    }
  }

  lemma ChunkLargest(bs: nat, maxTransfer: nat)
    requires bs > 0
    ensures Largest(Chunk(bs, maxTransfer), bs, maxTransfer)
  {
    var q := maxTransfer / bs;
    ChunkFits(bs, maxTransfer, Chunk(bs, maxTransfer));
    Distribute(q, 1, bs);
    assert maxTransfer < q * bs + bs;
    if q == 0 { MulLe(1, 2, bs); }
  }

  /** The part that begins at block `done` of `total`: as many blocks as a chunk holds or are left. */
  lemma PartBlocks(bs: nat, chunk: nat, done: nat, total: nat)
    requires bs > 0 && chunk > 0 && done < total
    ensures
      var left := total * bs - done * bs;
      var part := if left < chunk * bs then left else chunk * bs;
      var blocks := if total - done < chunk then total - done else chunk;
      part == blocks * bs && part / bs == blocks && blocks >= 1 && done * bs + part == (done + blocks) * bs && done * bs < total * bs
  {
    Distribute(total - done, done, bs);
    var blocks := if total - done < chunk then total - done else chunk;
    Distribute(done, blocks, bs);
    MulLe(1, total - done, bs);
    if total - done < chunk {
      MulLe(total - done + 1, chunk, bs);
      Distribute(total - done, 1, bs);
    } else {
      MulLe(chunk, total - done, bs);
    }
    DivExact(blocks, bs);
  }

  /** An access to blocks `lba..lba + total`, and where it starts from; `asked` is what the driver had
      been asked for until then. */
  datatype Plan = Plan(lun: byte, bs: nat, lba: nat, total: nat)
  datatype Start = Start(dev: Dev, clock: nat, script: Script, maxLun: LunMax, asked: seq<Job>)

  predicate Sane(p: Plan, d: Dev) {
    InSync(d) && Geometry(d, p.lun, p.bs)
  }

  predicate PlanStep(p: Plan, done: nat, blocks: nat, maxTransfer: nat) {
    && p.bs > 0 && 1 <= blocks <= U16_BLOCKS && done + blocks <= p.total && p.lba + p.total <= U64_MAX
    && (blocks * p.bs <= maxTransfer || blocks == 1) && (Largest(blocks, p.bs, maxTransfer) || done + blocks == p.total)
  }

  /** A failed read has changed nothing. */
  predicate Untouched(p: Plan, d0: Dev, d: Dev) {
    Sane(p, d0) ==> d.medium == d0.medium && d.lun == d0.lun && d.blockSize == d0.blockSize
  }

  /** The first `at` bytes have been read into `buf`, and nothing was changed. */
  predicate ReadSoFar(p: Plan, d0: Dev, at: nat, d: Dev, buf: seq<byte>) {
    Sane(p, d0) ==> if at == 0 then d == d0 && buf == [] else ReadDone(d0, p.lba * p.bs, at, d, Ok(()), buf)
  }

  lemma ReadOn(
    p: Plan, d0: Dev, done: nat, at: nat, len: nat, d: Dev, d': Dev, r: Result<(), Error>, buf: seq<byte>, got: seq<byte>)
    requires ReadSoFar(p, d0, at, d, buf) && at == done * p.bs && len > 0
    requires Sane(p, d) ==> ReadDone(d, (p.lba + done) * p.bs, len, d', r, got)
    ensures if r.Ok? then ReadSoFar(p, d0, at + len, d', buf + got) else Untouched(p, d0, d')
  {
    Distribute(p.lba, done, p.bs);
  }

  /** The first `at` bytes of `data` have been stored, and nothing else was changed. */
  predicate WrittenSoFar(p: Plan, d0: Dev, at: nat, data: seq<byte>, d: Dev) {
    Sane(p, d0) ==>
      if at == 0 then d == d0 else at <= |data| && WriteDone(d0, p.lba * p.bs, data[..at], d, Ok(()))
  }

  /** A failed write has changed nothing outside the `len` bytes it was for. */
  predicate Confined(p: Plan, d0: Dev, len: nat, d: Dev) {
    Sane(p, d0) ==>
      && Within(d0.medium, d.medium, p.lba * p.bs, p.lba * p.bs + len)
      && d.lun == d0.lun && d.blockSize == d0.blockSize
  }

  lemma WriteOn(
    p: Plan, d0: Dev, done: nat, at: nat, data: seq<byte>, part: seq<byte>, d: Dev, d': Dev, r: Result<(), Error>)
    requires WrittenSoFar(p, d0, at, data, d) && at == done * p.bs
    requires at + |part| <= |data| && part == data[at..at + |part|] && part != []
    requires Sane(p, d) ==> WriteDone(d, (p.lba + done) * p.bs, part, d', r)
    ensures if r.Ok? then WrittenSoFar(p, d0, at + |part|, data, d') else Confined(p, d0, |data|, d')
  {
    if Sane(p, d0) {
      Distribute(p.lba, done, p.bs);
      assert Sane(p, d);
      WriteOnAt(d0, p.lba * p.bs, at, data, part, d, d', r);
    }
  }

  lemma WriteOnAt(
    d0: Dev, lo: nat, at: nat, data: seq<byte>, part: seq<byte>, d: Dev, d': Dev, r: Result<(), Error>)
    requires at + |part| <= |data| && part == data[at..at + |part|]
    requires if at == 0 then d == d0 else WriteDone(d0, lo, data[..at], d, Ok(()))
    requires WriteDone(d, lo + at, part, d', r)
    ensures if r.Ok? then WriteDone(d0, lo, data[..at + |part|], d', r)
            else Within(d0.medium, d'.medium, lo, lo + |data|) && d'.lun == d0.lun && d'.blockSize == d0.blockSize
  {
    assert data[..at] + part == data[..at + |part|];
    if r.Ok? {
      WriteJoins(d0.medium, lo, data[..at], part, d.medium, d'.medium);
    } else {
      WithinJoins(d0.medium, d.medium, d'.medium, lo, at, |part|, |data|);
    }
  }

  /** Two writes in a row are one write. */
  lemma WriteJoins(m: seq<byte>, at: nat, a: seq<byte>, b: seq<byte>, m1: seq<byte>, m2: seq<byte>)
    requires at + |a| + |b| <= |m| == |m1| && (if a == [] then m1 == m else m1 == Write(m, at, a))
    requires m2 == Write(m1, at + |a|, b)
    ensures m2 == Write(m, at, a + b) && Within(m, m2, at, at + |a + b|)
  {
  }

  lemma WithinJoins(m: seq<byte>, m1: seq<byte>, m2: seq<byte>, at: nat, n: nat, k: nat, len: nat)
    requires Within(m, m1, at, at + n) && Within(m1, m2, at + n, at + n + k) && n + k <= len
    ensures Within(m, m2, at, at + len)
  {
  }

  /** What it takes for the access to be bound to succeed. */
  ghost predicate Fine(p: Plan, from: Start, maxTransfer: nat) {
    && Sane(p, from.dev) && Peaceful(from.script, from.clock) && p.lun <= from.maxLun
    && p.bs <= U32_MAX && maxTransfer <= U32_MAX && p.lba * p.bs + p.total * p.bs <= |from.dev.medium|
  }

  /** Then the commands sent so far cover the first `done` blocks, back to back. */
  ghost predicate Covered(p: Plan, from: Start, write: bool, limit: nat, done: nat, d: Dev, clock: nat) {
    Fine(p, from, limit) ==>
      && clock >= from.clock && Sane(p, d) && |d.medium| == |from.dev.medium| && |from.dev.log| <= |d.log|
      && Consecutive(d.log[|from.dev.log|..], write, p.bs, limit, p.lba + p.total, p.lba, p.lba + done)
  }

  /** However the device behaves, the commands asked for since the start are for the first `done`
      blocks, back to back. */
  predicate Asked(p: Plan, from: Start, write: bool, limit: nat, done: nat, asked: seq<Job>) {
    from.asked <= asked && Consecutive(asked[|from.asked|..], write, p.bs, limit, p.lba + p.total, p.lba, p.lba + done)
  }

  lemma OneAsked(asked: seq<Job>, lun: byte, write: bool, lba: nat, blocks: nat, bs: nat, data: DataPhase)
    requires 1 <= blocks <= U16_BLOCKS && lba + blocks <= U64_MAX && DataLen(data) == blocks * bs
    ensures OneMore(asked, asked + [Ask(lun, RwCdb(write, lba, blocks), data)], write, lba, blocks, bs)
  {
    RwRoundTrip(write, lba, blocks);
  }

  lemma AskOn(p: Plan, from: Start, write: bool, limit: nat, done: nat, blocks: nat, asked: seq<Job>, asked': seq<Job>)
    requires PlanStep(p, done, blocks, limit) && Asked(p, from, write, limit, done, asked)
    requires OneMore(asked, asked', write, p.lba + done, blocks, p.bs)
    ensures Asked(p, from, write, limit, done + blocks, asked')
  {
    LogGrows(from.asked, asked, asked', write, p.bs, limit, p.lba + p.total, p.lba, p.lba + done, blocks);
    assert from.asked == asked'[..|asked|][..|from.asked|];
  }

  lemma Begun(p: Plan, from: Start, write: bool, limit: nat)
    ensures ReadSoFar(p, from.dev, 0, from.dev, []) && Covered(p, from, write, limit, 0, from.dev, from.clock)
    ensures Asked(p, from, write, limit, 0, from.asked)
  {
    assert from.dev.log[|from.dev.log|..] == [] && from.asked[|from.asked|..] == [];
  }

  lemma CoveredBound(p: Plan, from: Start, write: bool, limit: nat, done: nat, blocks: nat, d: Dev, clock: nat)
    requires PlanStep(p, done, blocks, limit) && Covered(p, from, write, limit, done, d, clock)
    ensures Fine(p, from, limit) ==> Bound(d, clock, from.script, from.maxLun, p.lun, p.bs, p.lba + done, blocks * p.bs)
  {
    Distribute(p.lba, done, p.bs);
    Distribute(done, blocks, p.bs);
    MulLe(done + blocks, p.total, p.bs);
  }

  lemma CoverOn(
    p: Plan, from: Start, write: bool, limit: nat, done: nat, blocks: nat, d: Dev, clock: nat, d': Dev, clock': nat,
    r: Result<(), Error>)
    requires PlanStep(p, done, blocks, limit) && Covered(p, from, write, limit, done, d, clock)
    requires Fine(p, from, limit) ==>
      && r.Ok? && clock' >= clock && Sane(p, d') && |d'.medium| == |d.medium|
      && OneMore(d.log, d'.log, write, p.lba + done, blocks, p.bs)
    ensures Covered(p, from, write, limit, done + blocks, d', clock')
  {
    if Fine(p, from, limit) {
      LogGrows(from.dev.log, d.log, d'.log, write, p.bs, limit, p.lba + p.total, p.lba, p.lba + done, blocks);
    }
  }

  function CbwHead(j: Job): (r: seq<byte>)
    requires ValidJob(j)
    ensures |r| == 15
  {
    PutLe32(CBW_SIGNATURE) + PutLe32(j.tag) + PutLe32(j.expected) + [if j.toHost then 0x80 else 0, j.lun, |j.cdb|]
  }

  method FillCbwHead(b: array<byte>, j: Job)
    requires b.Length == 31 && ValidJob(j)
    modifies b
    ensures b[..15] == CbwHead(j) && b[15..] == old(b[15..])
  {
    PutAt(b, 0, PutLe32(CBW_SIGNATURE));
    PutAt(b, 4, PutLe32(j.tag));
    PutAt(b, 8, PutLe32(j.expected));
    b[12] := if j.toHost then 0x80 else 0;
    b[13] := j.lun;
    b[14] := |j.cdb|;
    assert b[..4] == PutLe32(CBW_SIGNATURE) && b[4..8] == PutLe32(j.tag) && b[8..12] == PutLe32(j.expected);
    assert b[..15] == b[..4] + b[4..8] + b[8..12] + [b[12], b[13], b[14]];
  }

  method BuildCbw(j: Job) returns (b: array<byte>)
    requires ValidJob(j)
    ensures fresh(b) && b.Length == 31 && b[..] == Cbw(j)
  {
    b := new byte[31](_ => 0);
    FillCbwHead(b, j);
    assert b[15..] == Zeros(16);
    ghost var n := 15 + |j.cdb|;
    PutAt(b, 15, j.cdb);
    assert b[..15] == CbwHead(j) && b[n..] == Zeros(31 - n);
    assert b[..] == b[..15] + b[15..n] + b[n..];
  }

  class Driver {
    const bus: Bus
    const maxLun: LunMax
    var tag: u32
    var maxTransfer: nat
    ghost var asked: seq<Job>  // the commands asked for, each once however often it is sent

    ghost function View(): Host
      reads this, bus
    {
      Host(Pipes(bus.dev, bus.clock, bus.resets), tag)
    }

    constructor (bus: Bus, maxLun: LunMax)
      ensures this.bus == bus && this.maxLun == maxLun && tag == 1 && maxTransfer == 120 * 1024 && asked == []
    {
      this.bus, this.maxLun, tag, maxTransfer, asked := bus, maxLun, 1, 120 * 1024, [];
    }

    method ResetRecovery() returns (r: Result<(), UsbError>)
      modifies bus
      ensures (View().pipes, r) == Recovery(old(View().pipes), bus.script)
    {
      r := bus.MassStorageReset();
      if r.Err? { return; }
      r := bus.ClearHalt(true);
      if r.Err? { return; }
      r := bus.ClearHalt(false);
    }

    method Recover(e: Error)
      modifies bus
      ensures View().pipes == Fail(old(View().pipes), e, bus.script)
    {
      if e != Usb(NoDevice) {
        var _ := ResetRecovery();
      }
    }

    method DataStage(data: DataPhase) returns (r: Result<(nat, seq<byte>), UsbError>)
      modifies bus`dev, bus`clock
      ensures (View().pipes, r) == MoveData(old(View().pipes), data, bus.script)
    {
      match data
      case NoData => return Ok((0, []));
      case In(len) =>
        var got := bus.BulkRead(len);
        if got == Err(Stall) {
          r := ClearStall(true);
        } else {
          r := match got { case Ok(b) => Ok((|b|, b)) case Err(e) => Err(e) };
        }
      case Out(b) =>
        var sent := bus.BulkWrite(b);
        if sent == Err(Stall) {
          r := ClearStall(false);
        } else {
          r := match sent { case Ok(n) => Ok((n, [])) case Err(e) => Err(e) };
        }
    }

    method ClearStall(pipeIn: bool) returns (r: Result<(nat, seq<byte>), UsbError>)
      modifies bus`dev, bus`clock
      ensures (View().pipes, r) == Cleared(old(View().pipes), pipeIn, bus.script)
    {
      var cleared := bus.ClearHalt(pipeIn);
      r := if cleared.Ok? then Ok((0, [])) else Err(cleared.error);
    }

    method StatusStage() returns (r: Result<seq<byte>, UsbError>)
      modifies bus`dev, bus`clock
      ensures (View().pipes, r) == ReadStatus(old(View().pipes), bus.script)
    {
      r := bus.BulkRead(13);
      if r == Err(Stall) {
        var cleared := bus.ClearHalt(true);
        if cleared.Err? {
          return Err(cleared.error);
        }
        r := bus.BulkRead(13);
      }
    }

    method ConcludeJob(j: Job, moved: nat) returns (r: Result<CommandResult, Error>)
      modifies bus`dev, bus`clock
      ensures (View().pipes, r) == Conclude(old(View().pipes), j, moved, bus.script)
    {
      var csw := StatusStage();
      if csw.Err? { return Err(Usb(csw.error)); }
      r := Judge(csw.value, j.tag, moved);
    }

    method SendWrapper(j: Job) returns (r: Result<nat, UsbError>)
      requires ValidJob(j)
      modifies bus`dev, bus`clock
      ensures (View().pipes, r) == WriteOut(old(View().pipes), Cbw(j), bus.script)
    {
      var cbw := BuildCbw(j);
      r := bus.BulkWrite(cbw[..]);
    }

    /** `transport` up to its first error. */
    method AttemptJob(j: Job, data: DataPhase) returns (r: Result<CommandResult, Error>, got: seq<byte>)
      requires ValidJob(j)
      modifies bus`dev, bus`clock
      ensures (View().pipes, r, got) == Attempt(old(View().pipes), j, data, bus.script)
    {
      var sent := SendWrapper(j);
      if sent.Err? { return Err(Usb(sent.error)), []; }
      var moved := DataStage(data);
      if moved.Err? { return Err(Usb(moved.error)), []; }
      got := moved.value.1;
      r := ConcludeJob(j, moved.value.0);
    }

    /** `transport` once its arguments are checked and the tag is taken: every error ends in `recover`. */
    method RunJob(j: Job, data: DataPhase) returns (r: Result<CommandResult, Error>, got: seq<byte>)
      requires ValidJob(j)
      modifies bus
      ensures (View().pipes, r, got) == BulkTransport.Transport(old(View().pipes), j, data, bus.script)
    {
      r, got := AttemptJob(j, data);
      if r.Err? {
        Recover(r.error);
      }
    }

    method Transport(lun: byte, cdb: seq<byte>, data: DataPhase) returns (r: Result<CommandResult, Error>, got: seq<byte>)
      modifies this`tag, bus
      ensures (View(), r, got) == Sent(old(View()), maxLun, lun, cdb, data, bus.script)
    {
      if cdb == [] || |cdb| > 16 || lun > maxLun || DataLen(data) > U32_MAX {
        return Err(Invalid), [];
      }
      var j := JobOf(tag, lun, cdb, data);
      tag := (tag + 1) % (U32_MAX + 1);
      r, got := RunJob(j, data);
    }

    method SenseLocked(lun: byte) returns (r: Result<Sense, Error>)
      modifies this`tag, bus
      ensures (View(), r) == Sensed(old(View()), maxLun, lun, bus.script)
    {
      var answer, got := Transport(lun, SENSE_CDB, In(SENSE_LEN));
      if answer.Err? {
        return Err(answer.error);
      }
      var sense := ParseSense(got);
      if !answer.value.passed || sense.None? {
        return Err(Protocol);
      }
      r := Ok(sense.value);
    }

    method TryOnce(lun: byte, cdb: seq<byte>, data: DataPhase) returns (t: Try, got: seq<byte>)
      modifies this`tag, bus
      ensures (View(), t, got) == Trier(maxLun, lun, cdb, data, bus.script)(old(View()))
    {
      var r;
      r, got := Transport(lun, cdb, data);
      if r.Err? {
        return Gave(r.error), got;
      }
      if r.value.passed {
        return Done(r.value.transferred), got;
      }
      var s := SenseLocked(lun);
      t := if s.Err? then Gave(s.error)
           else if s.value.key == UNIT_ATTENTION then Attention(s.value)
           else Gave(Refused(SenseError(s.value)));
    }

    /** One round of the retry loop; `wanted` is what the whole loop should come to. */
    method Round(lun: byte, cdb: seq<byte>, data: DataPhase, attempts: nat, ghost wanted: (Host, Result<nat, Error>, seq<byte>))
      returns (done: bool, r: Result<nat, Error>, got: seq<byte>)
      requires attempts <= UNIT_ATTENTION_RETRIES
      requires Retried(Trier(maxLun, lun, cdb, data, bus.script), View(), attempts) == wanted
      modifies this`tag, bus
      ensures done ==> (View(), r, got) == wanted
      ensures !done ==>
        && attempts < UNIT_ATTENTION_RETRIES
        && Retried(Trier(maxLun, lun, cdb, data, bus.script), View(), attempts + 1) == wanted
    {
      ghost var before := View();
      var t;
      t, got := TryOnce(lun, cdb, data);
      RetryStep(Trier(maxLun, lun, cdb, data, bus.script), before, attempts, View(), t, got);
      match t
      case Done(n) => return true, Ok(n), got;
      case Gave(e) => return true, Err(e), got;
      case Attention(s) => return attempts == UNIT_ATTENTION_RETRIES, Err(Refused(SenseError(s))), got;
    }

    method Command(lun: byte, cdb: seq<byte>, data: DataPhase) returns (r: Result<nat, Error>, got: seq<byte>)
      modifies this`tag, this`asked, bus
      ensures (View(), r, got) == Commanded(old(View()), maxLun, lun, cdb, data, bus.script)
      ensures asked == old(asked) + [Ask(lun, cdb, data)]
    {
      asked := asked + [Ask(lun, cdb, data)];
      r, got := Retry(lun, cdb, data);
    }

    /** The retry loop of `command`. */
    method Retry(lun: byte, cdb: seq<byte>, data: DataPhase) returns (r: Result<nat, Error>, got: seq<byte>)
      modifies this`tag, bus
      ensures (View(), r, got) == Commanded(old(View()), maxLun, lun, cdb, data, bus.script)
    {
      ghost var wanted := Commanded(View(), maxLun, lun, cdb, data, bus.script);
      var attempts := 0;
      while true
        invariant attempts <= UNIT_ATTENTION_RETRIES
        invariant Retried(Trier(maxLun, lun, cdb, data, bus.script), View(), attempts) == wanted
        decreases UNIT_ATTENTION_RETRIES - attempts
      {
        var done;
        done, r, got := Round(lun, cdb, data, attempts, wanted);
        if done { return; }
        attempts := attempts + 1;
      }
    }

    /** The blocks of one command of `read_blocks`. */
    method ReadChunk(lun: byte, bs: nat, lba: nat, blocks: nat) returns (r: Result<(), Error>, got: seq<byte>)
      requires bs > 0 && 1 <= blocks <= U16_BLOCKS && lba + blocks <= U64_MAX
      modifies this`tag, this`asked, bus
      ensures InSync(old(bus.dev)) && Geometry(old(bus.dev), lun, bs) ==>
        ReadDone(old(bus.dev), lba * bs, blocks * bs, bus.dev, r, got)
      ensures Bound(old(bus.dev), old(bus.clock), bus.script, maxLun, lun, bs, lba, blocks * bs) ==>
        r.Ok? && bus.clock >= old(bus.clock) && OneMore(old(bus.dev).log, bus.dev.log, false, lba, blocks, bs)
      ensures OneMore(old(asked), asked, false, lba, blocks, bs)
    {
      OneAsked(asked, lun, false, lba, blocks, bs, In(blocks * bs));
      ghost var h := View();
      ReadOutcome(h, maxLun, lun, bs, lba, blocks, bus.script);
      if Bound(bus.dev, bus.clock, bus.script, maxLun, lun, bs, lba, blocks * bs) {
        PeacefulOutcome(h, maxLun, lun, bs, false, lba, blocks, In(blocks * bs), bus.script);
      }
      var cdb, n := BuildRwCdb(false, lba, blocks);
      var moved;
      moved, got := Command(lun, cdb[..n], In(blocks * bs));
      if moved.Err? { return Err(moved.error), got; }
      if moved.value != blocks * bs { return Err(Protocol), got; }
      r := Ok(());
    }

    /** The blocks of one command of `write_blocks`. */
    method WriteChunk(lun: byte, bs: nat, lba: nat, blocks: nat, data: seq<byte>) returns (r: Result<(), Error>)
      requires bs > 0 && 1 <= blocks <= U16_BLOCKS && lba + blocks <= U64_MAX && |data| == blocks * bs
      modifies this`tag, this`asked, bus
      ensures InSync(old(bus.dev)) && Geometry(old(bus.dev), lun, bs) ==>
        WriteDone(old(bus.dev), lba * bs, data, bus.dev, r)
      ensures Bound(old(bus.dev), old(bus.clock), bus.script, maxLun, lun, bs, lba, blocks * bs) ==>
        r.Ok? && bus.clock >= old(bus.clock) && OneMore(old(bus.dev).log, bus.dev.log, true, lba, blocks, bs)
      ensures OneMore(old(asked), asked, true, lba, blocks, bs)
    {
      OneAsked(asked, lun, true, lba, blocks, bs, Out(data));
      ghost var h := View();
      WriteOutcome(h, maxLun, lun, bs, lba, blocks, data, bus.script);
      if Bound(bus.dev, bus.clock, bus.script, maxLun, lun, bs, lba, blocks * bs) {
        PeacefulOutcome(h, maxLun, lun, bs, true, lba, blocks, Out(data), bus.script);
      }
      var cdb, n := BuildRwCdb(true, lba, blocks);
      var moved, _ := Command(lun, cdb[..n], Out(data));
      if moved.Err? { return Err(moved.error); }
      if moved.value != |data| { return Err(Protocol); }
      r := Ok(());
    }

    /** One part of `read_blocks`. */
    method ReadPart(p: Plan, done: nat, blocks: nat, buf: seq<byte>, ghost at: nat, ghost from: Start)
      returns (r: Result<(), Error>, buf': seq<byte>)
      requires PlanStep(p, done, blocks, maxTransfer) && from.script == bus.script && from.maxLun == maxLun
      requires at == done * p.bs && blocks * p.bs > 0
      requires ReadSoFar(p, from.dev, at, bus.dev, buf)
      requires Covered(p, from, false, maxTransfer, done, bus.dev, bus.clock) && Asked(p, from, false, maxTransfer, done, asked)
      modifies this`tag, this`asked, bus
      ensures r.Ok? ==> ReadSoFar(p, from.dev, at + blocks * p.bs, bus.dev, buf')
      ensures r.Err? ==> Untouched(p, from.dev, bus.dev)
      ensures Covered(p, from, false, maxTransfer, done + blocks, bus.dev, bus.clock)
      ensures Asked(p, from, false, maxTransfer, done + blocks, asked)
      ensures Fine(p, from, maxTransfer) ==> r.Ok?
    {
      ghost var d, clock := bus.dev, bus.clock;
      ghost var before := asked;
      CoveredBound(p, from, false, maxTransfer, done, blocks, d, clock);
      var got;
      r, got := ReadChunk(p.lun, p.bs, p.lba + done, blocks);
      buf' := buf + got;
      ReadOn(p, from.dev, done, at, blocks * p.bs, d, bus.dev, r, buf, got);
      CoverOn(p, from, false, maxTransfer, done, blocks, d, clock, bus.dev, bus.clock, r);
      AskOn(p, from, false, maxTransfer, done, blocks, before, asked);
    }

    /** `read_blocks`.  However the device behaves, the commands asked for are for blocks back to back
        from the first on, success means that these are the bytes of all of them, and failure has
        changed nothing; and when nothing goes wrong each command is sent once. */
    method ReadBlocks(lun: byte, lba: nat, bs: nat, len: nat) returns (r: Result<(), Error>, buf: seq<byte>)
      requires bs > 0 ==> lba + len / bs <= U64_MAX
      modifies this`tag, this`asked, bus
      ensures bs == 0 || len % bs != 0 ==> r == Err(Invalid) && unchanged(this) && unchanged(bus)
      ensures bs > 0 && len % bs == 0 ==>
        ReadCameOut(Plan(lun, bs, lba, len / bs), Start(old(bus.dev), old(bus.clock), bus.script, maxLun, old(asked)), r, buf)
    {
      if bs == 0 || len % bs != 0 {
        return Err(Invalid), [];
      }
      r, buf := ReadParts(Plan(lun, bs, lba, len / bs), len);
    }

    /** What reading the blocks of a plan came to. */
    ghost predicate ReadCameOut(p: Plan, from: Start, r: Result<(), Error>, buf: seq<byte>)
      reads this, bus
    {
      && (if r.Ok? then ReadSoFar(p, from.dev, p.total * p.bs, bus.dev, buf) else Untouched(p, from.dev, bus.dev))
      && (r.Ok? ==> Covered(p, from, false, maxTransfer, p.total, bus.dev, bus.clock))
      && (exists done: nat :: done <= p.total && Asked(p, from, false, maxTransfer, done, asked) && (r.Ok? ==> done == p.total))
      && (Fine(p, from, maxTransfer) ==> r.Ok?)
    }

    /** The next part of a loop over the parts. */
    method ReadNext(p: Plan, chunk: nat, len: nat, i: nat, at: nat, buf: seq<byte>, ghost done: nat, ghost from: Start)
      returns (r: Result<(), Error>, buf': seq<byte>, at': nat, ghost done': nat)
      requires p.bs > 0 && p.lba + p.total <= U64_MAX && chunk == Chunk(p.bs, maxTransfer) && at < len
      requires AtPart(p, chunk, len, i, at, done) && from.script == bus.script && from.maxLun == maxLun
      requires ReadSoFar(p, from.dev, at, bus.dev, buf) && Covered(p, from, false, maxTransfer, done, bus.dev, bus.clock)
      requires Asked(p, from, false, maxTransfer, done, asked)
      modifies this`tag, this`asked, bus
      ensures at < at' && AtPart(p, chunk, len, i + 1, at', done')
      ensures if r.Ok? then ReadSoFar(p, from.dev, at', bus.dev, buf') else Untouched(p, from.dev, bus.dev)
      ensures Covered(p, from, false, maxTransfer, done', bus.dev, bus.clock) && Asked(p, from, false, maxTransfer, done', asked)
      ensures Fine(p, from, maxTransfer) ==> r.Ok?
    {
      var part := if len - at < chunk * p.bs then len - at else chunk * p.bs;
      ghost var blocks := NextPart(p, chunk, len, i, at, done, maxTransfer);
      r, buf' := ReadPart(p, i * chunk, part / p.bs, buf, at, from);
      at', done' := at + part, done + blocks;
    }

    method ReadParts(p: Plan, len: nat) returns (r: Result<(), Error>, buf: seq<byte>)
      requires p.bs > 0 && len == p.total * p.bs && p.lba + p.total <= U64_MAX
      modifies this`tag, this`asked, bus
      ensures ReadCameOut(p, Start(old(bus.dev), old(bus.clock), bus.script, maxLun, old(asked)), r, buf)
    {
      ghost var from := Start(bus.dev, bus.clock, bus.script, maxLun, asked);
      var chunk := Chunk(p.bs, maxTransfer);
      Begun(p, from, false, maxTransfer);
      r, buf := Ok(()), [];
      var i, at := 0, 0;
      ghost var done := 0;
      while at < len
        invariant AtPart(p, chunk, len, i, at, done) && r.Ok?
        invariant ReadSoFar(p, from.dev, at, bus.dev, buf) && Covered(p, from, false, maxTransfer, done, bus.dev, bus.clock)
        invariant Asked(p, from, false, maxTransfer, done, asked)
      {
        r, buf, at, done := ReadNext(p, chunk, len, i, at, buf, done, from);
        if r.Err? { break; }
        i := i + 1;
      }
    }

    /** One part of `write_blocks`. */
    method WritePart(p: Plan, done: nat, blocks: nat, ghost data: seq<byte>, ghost at: nat, part: seq<byte>, ghost from: Start)
      returns (r: Result<(), Error>)
      requires PlanStep(p, done, blocks, maxTransfer) && from.script == bus.script && from.maxLun == maxLun
      requires at == done * p.bs && |part| == blocks * p.bs && at + |part| <= |data| && part == data[at..at + |part|]
      requires part != [] && WrittenSoFar(p, from.dev, at, data, bus.dev)
      requires Covered(p, from, true, maxTransfer, done, bus.dev, bus.clock) && Asked(p, from, true, maxTransfer, done, asked)
      modifies this`tag, this`asked, bus
      ensures r.Ok? ==> WrittenSoFar(p, from.dev, at + |part|, data, bus.dev)
      ensures r.Err? ==> Confined(p, from.dev, |data|, bus.dev)
      ensures Covered(p, from, true, maxTransfer, done + blocks, bus.dev, bus.clock)
      ensures Asked(p, from, true, maxTransfer, done + blocks, asked)
      ensures Fine(p, from, maxTransfer) ==> r.Ok?
    {
      ghost var d, clock := bus.dev, bus.clock;
      ghost var before := asked;
      CoveredBound(p, from, true, maxTransfer, done, blocks, d, clock);
      r := WriteChunk(p.lun, p.bs, p.lba + done, blocks, part);
      WriteOn(p, from.dev, done, at, data, part, d, bus.dev, r);
      CoverOn(p, from, true, maxTransfer, done, blocks, d, clock, bus.dev, bus.clock, r);
      AskOn(p, from, true, maxTransfer, done, blocks, before, asked);
    }

    /** `write_blocks`.  However the device behaves, success means just this data is in the blocks,
        and failure has changed nothing outside them. */
    method WriteBlocks(lun: byte, lba: nat, bs: nat, data: seq<byte>) returns (r: Result<(), Error>)
      requires bs > 0 ==> lba + |data| / bs <= U64_MAX
      modifies this`tag, this`asked, bus
      ensures bs == 0 || |data| % bs != 0 ==> r == Err(Invalid) && unchanged(this) && unchanged(bus)
      ensures bs > 0 && |data| % bs == 0 ==>
        WriteCameOut(Plan(lun, bs, lba, |data| / bs), Start(old(bus.dev), old(bus.clock), bus.script, maxLun, old(asked)), data, r)
    {
      if bs == 0 || |data| % bs != 0 {
        return Err(Invalid);
      }
      r := WriteParts(Plan(lun, bs, lba, |data| / bs), data);
    }

    /** What writing the blocks of a plan came to. */
    ghost predicate WriteCameOut(p: Plan, from: Start, data: seq<byte>, r: Result<(), Error>)
      reads this, bus
    {
      && |data| == p.total * p.bs
      && (if r.Ok? then WrittenSoFar(p, from.dev, |data|, data, bus.dev) else Confined(p, from.dev, |data|, bus.dev))
      && (r.Ok? ==> Covered(p, from, true, maxTransfer, p.total, bus.dev, bus.clock))
      && (exists done: nat :: done <= p.total && Asked(p, from, true, maxTransfer, done, asked) && (r.Ok? ==> done == p.total))
      && (Fine(p, from, maxTransfer) ==> r.Ok?)
    }

    /** The next part of a loop over the parts. */
    method WriteNext(p: Plan, chunk: nat, data: seq<byte>, i: nat, at: nat, ghost done: nat, ghost from: Start)
      returns (r: Result<(), Error>, at': nat, ghost done': nat)
      requires p.bs > 0 && p.lba + p.total <= U64_MAX && chunk == Chunk(p.bs, maxTransfer) && at < |data|
      requires AtPart(p, chunk, |data|, i, at, done) && from.script == bus.script && from.maxLun == maxLun
      requires WrittenSoFar(p, from.dev, at, data, bus.dev) && Covered(p, from, true, maxTransfer, done, bus.dev, bus.clock)
      requires Asked(p, from, true, maxTransfer, done, asked)
      modifies this`tag, this`asked, bus
      ensures at < at' && AtPart(p, chunk, |data|, i + 1, at', done')
      ensures if r.Ok? then WrittenSoFar(p, from.dev, at', data, bus.dev) else Confined(p, from.dev, |data|, bus.dev)
      ensures Covered(p, from, true, maxTransfer, done', bus.dev, bus.clock) && Asked(p, from, true, maxTransfer, done', asked)
      ensures Fine(p, from, maxTransfer) ==> r.Ok?
    {
      var len := if |data| - at < chunk * p.bs then |data| - at else chunk * p.bs;
      ghost var blocks := NextPart(p, chunk, |data|, i, at, done, maxTransfer);
      r := WritePart(p, i * chunk, len / p.bs, data, at, data[at..at + len], from);
      at', done' := at + len, done + blocks;
    }

    method WriteParts(p: Plan, data: seq<byte>) returns (r: Result<(), Error>)
      requires p.bs > 0 && |data| == p.total * p.bs && p.lba + p.total <= U64_MAX
      modifies this`tag, this`asked, bus
      ensures WriteCameOut(p, Start(old(bus.dev), old(bus.clock), bus.script, maxLun, old(asked)), data, r)
    {
      ghost var from := Start(bus.dev, bus.clock, bus.script, maxLun, asked);
      var chunk := Chunk(p.bs, maxTransfer);
      Begun(p, from, true, maxTransfer);
      r := Ok(());
      var i, at := 0, 0;
      ghost var done := 0;
      while at < |data|
        invariant AtPart(p, chunk, |data|, i, at, done) && r.Ok?
        invariant WrittenSoFar(p, from.dev, at, data, bus.dev)
        invariant Covered(p, from, true, maxTransfer, done, bus.dev, bus.clock)
        invariant Asked(p, from, true, maxTransfer, done, asked)
      {
        r, at, done := WriteNext(p, chunk, data, i, at, done, from);
        if r.Err? { break; }
        i := i + 1;
      }
    }
  }

  /** A loop over the parts of a buffer is at part `i`, byte `at`, block `done`. */
  predicate AtPart(p: Plan, chunk: nat, len: nat, i: nat, at: nat, done: nat) {
    at == done * p.bs && len == p.total * p.bs && done <= p.total && (if at < len then done == i * chunk else done == p.total)
  }

  /** What comes next, and where that leaves the loop. */
  lemma NextPart(p: Plan, chunk: nat, len: nat, i: nat, at: nat, done: nat, limit: nat) returns (blocks: nat)
    requires p.bs > 0 && p.lba + p.total <= U64_MAX && chunk == Chunk(p.bs, limit)
    requires AtPart(p, chunk, len, i, at, done) && at < len
    ensures
      var part := if len - at < chunk * p.bs then len - at else chunk * p.bs;
      && blocks == part / p.bs && done == i * chunk && part == blocks * p.bs && 0 < part <= len - at
      && PlanStep(p, done, blocks, limit) && AtPart(p, chunk, len, i + 1, at + part, done + blocks)
  {
    PartOf(p.bs, chunk, i, at, len, p.total);
    blocks := (if len - at < chunk * p.bs then len - at else chunk * p.bs) / p.bs;
    ChunkFits(p.bs, limit, blocks);
    ChunkLargest(p.bs, limit);
    PartIsChunk(p.bs, chunk, len - at, blocks);
    Distribute(done, blocks, p.bs);
  }

  lemma PartIsChunk(bs: nat, chunk: nat, left: nat, blocks: nat)
    requires bs > 0 && blocks == (if left < chunk * bs then left else chunk * bs) / bs
    ensures left >= chunk * bs ==> blocks == chunk
  {
    DivExact(chunk, bs);
  }

  /** Part `i` of a buffer of `total` blocks, cut into chunks. */
  lemma PartOf(bs: nat, chunk: nat, i: nat, at: nat, len: nat, total: nat)
    requires bs > 0 && chunk > 0 && len == total * bs && at < len && at == i * chunk * bs
    ensures
      var part := if len - at < chunk * bs then len - at else chunk * bs;
      var blocks := part / bs;
      && 1 <= blocks <= chunk && i * chunk + blocks <= total && at + part == (i * chunk + blocks) * bs <= len
      && (at + part < len ==> i * chunk + blocks == (i + 1) * chunk)
      && (at + part == len ==> i * chunk + blocks == total)
  {
    var done := i * chunk;
    if done >= total { MulLe(total, done, bs); }
    PartBlocks(bs, chunk, done, total);
    Distribute(i, 1, chunk);
  }

  /** One more command at the end of the range covered so far. */
  lemma LogGrows(
    log0: seq<Job>, log: seq<Job>, log': seq<Job>, write: bool, bs: nat, limit: nat, whole: nat, lba: nat, mid: nat,
    blocks: nat)
    requires |log0| <= |log| && Consecutive(log[|log0|..], write, bs, limit, whole, lba, mid) && 1 <= blocks <= U16_BLOCKS
    requires OneMore(log, log', write, mid, blocks, bs) && (blocks * bs <= limit || blocks == 1)
    requires Largest(blocks, bs, limit) || mid + blocks == whole
    ensures |log0| <= |log'| && Consecutive(log'[|log0|..], write, bs, limit, whole, lba, mid + blocks)
  {
    ConsecutiveLast(log[|log0|..], log'[|log|], write, bs, limit, whole, lba, mid, blocks);
    assert log'[|log0|..] == log'[..|log|][|log0|..] + [log'[|log|]];
  }
}
