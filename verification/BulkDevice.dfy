/** A device that speaks the USB Mass Storage Bulk-Only Transport 1.0 (sections 5.1 to 5.3, 6.3 to
    6.7), seen from its pipes.

    Whatever the device and the line are free to do (fail a command, stop a data phase short, lose
    a packet, halt a pipe) is decided by a `Choice` per operation, so a statement about every script
    of choices is one about every behaviour. */
module BulkDevice {
  import opened Wrappers
  import opened Bytes
  import opened Scsi

  const CBW_SIGNATURE := 0x43425355
  const CSW_SIGNATURE := 0x53425355

  datatype UsbError = Stall | NoDevice | Timeout | Failed

  // ----- the wrappers -----

  /** What a command block wrapper says (section 5.1). */
  datatype Job = Job(tag: nat, expected: nat, toHost: bool, lun: byte, cdb: seq<byte>)

  predicate ValidJob(j: Job) {
    j.tag <= U32_MAX && j.expected <= U32_MAX && j.lun < 16 && 1 <= |j.cdb| <= 16
  }

  function Cbw(j: Job): (r: seq<byte>)
    requires ValidJob(j)
    ensures |r| == 31
  {
    PutLe32(CBW_SIGNATURE) + PutLe32(j.tag) + PutLe32(j.expected)
    + [if j.toHost then 0x80 else 0, j.lun, |j.cdb|] + j.cdb + Zeros(16 - |j.cdb|)
  }

  /** A wrapper that is valid and meaningful (section 6.2). */
  function ParseCbw(b: seq<byte>): Option<Job> {
    if |b| != 31 || Le32(b, 0) != CBW_SIGNATURE || b[13] >= 16 || b[14] < 1 || b[14] > 16 then None
    else Some(Job(Le32(b, 4), Le32(b, 8), b[12] / 128 == 1, b[13], b[15..15 + b[14]]))
  }

  lemma CbwRoundTrip(j: Job)
    requires ValidJob(j)
    ensures ParseCbw(Cbw(j)) == Some(j)
  {
    var b := Cbw(j);
    assert b[0..4] == PutLe32(CBW_SIGNATURE) && b[4..8] == PutLe32(j.tag) && b[8..12] == PutLe32(j.expected);
    Le32Put(b, 0, CBW_SIGNATURE);
    Le32Put(b, 4, j.tag);
    Le32Put(b, 8, j.expected);
    assert b[15..15 + |j.cdb|] == j.cdb;
  }

  /** The command status wrapper (section 5.2). */
  function Csw(tag: nat, residue: nat, status: byte): (r: seq<byte>)
    requires tag <= U32_MAX && residue <= U32_MAX
    ensures |r| == 13
  {
    PutLe32(CSW_SIGNATURE) + PutLe32(tag) + PutLe32(residue) + [status]
  }

  lemma CswFields(tag: nat, residue: nat, status: byte)
    requires tag <= U32_MAX && residue <= U32_MAX
    ensures
      var b := Csw(tag, residue, status);
      Le32(b, 0) == CSW_SIGNATURE && Le32(b, 4) == tag && Le32(b, 8) == residue && b[12] == status
  {
    var b := Csw(tag, residue, status);
    assert b[0..4] == PutLe32(CSW_SIGNATURE) && b[4..8] == PutLe32(tag) && b[8..12] == PutLe32(residue);
    Le32Put(b, 0, CSW_SIGNATURE);
    Le32Put(b, 4, tag);
    Le32Put(b, 8, residue);
  }

  /** The bytes of a wrapper: "USBC", tag and length with the least significant byte first, bit 7 of
      the flags for data to the host, unit, and the command block padded with zeros. */
  lemma CbwBytes(j: Job, k: nat)
    requires ValidJob(j)
    ensures
      var b := Cbw(j);
      && b[0] == 0x55 && b[1] == 0x53 && b[2] == 0x42 && b[3] == 0x43
      && Number(b[4], b[5], b[6], b[7]) == j.tag
      && Number(b[8], b[9], b[10], b[11]) == j.expected
      && b[12] == (if j.toHost then 0x80 else 0x00) && b[13] == j.lun && b[14] == |j.cdb|
      && (k < 16 ==> b[15 + k] == if k < |j.cdb| then j.cdb[k] else 0)
  {
    var b := Cbw(j);
    assert b[0..4] == PutLe32(CBW_SIGNATURE) && b[4..8] == PutLe32(j.tag) && b[8..12] == PutLe32(j.expected);
    assert b[0] == b[0..4][0] && b[1] == b[0..4][1] && b[2] == b[0..4][2] && b[3] == b[0..4][3];
    Le32Put(b, 4, j.tag);
    Le32Put(b, 8, j.expected);
  }

  /** And of a status wrapper: "USBS", tag, residue and status. */
  lemma CswBytes(tag: nat, residue: nat, status: byte)
    requires tag <= U32_MAX && residue <= U32_MAX
    ensures
      var b := Csw(tag, residue, status);
      && b[0] == 0x55 && b[1] == 0x53 && b[2] == 0x42 && b[3] == 0x53
      && Number(b[4], b[5], b[6], b[7]) == tag
      && Number(b[8], b[9], b[10], b[11]) == residue && b[12] == status
  {
    var b := Csw(tag, residue, status);
    assert b[0..4] == PutLe32(CSW_SIGNATURE);
    assert b[0] == b[0..4][0] && b[1] == b[0..4][1] && b[2] == b[0..4][2] && b[3] == b[0..4][3];
    CswFields(tag, residue, status);
  }

  // ----- the device -----

  /** Where the device is (section 5.3); `Confused` is after an invalid or unexpected wrapper, when
      both pipes stay halted until a reset (section 6.6.1). */
  datatype Phase =
    | Ready
    | SendData(job: Job, data: seq<byte>, status: byte)
    | TakeData(job: Job)
    | SendStatus(job: Job, status: byte, residue: nat)
    | Confused

  /** The medium of logical unit `lun`, in blocks of `blockSize`; `log` is what was accepted. */
  datatype Dev = Dev(phase: Phase, haltIn: bool, haltOut: bool, lun: byte, blockSize: nat, medium: seq<byte>, log: seq<Job>)

  datatype Choice = Choice(
    fault: Option<UsbError>,  // the line fails the operation (it cannot fake a stall)
    seen: bool,               // though the device went through it
    status: nat,              // how the command ends: 0 passed, 1 failed, 2 phase error
    halt: bool,               // the device halts the pipe in the middle of it
    count: nat,               // how much it moves when it does not move all
    cut: bool,                // it cuts a status wrapper short
    bytes: seq<byte>,         // what it sends for commands other than READ
    swallow: bool)            // it takes a wrapper out of turn and forgets it

  /** Waiting for a wrapper, with both pipes working. */
  predicate InSync(d: Dev) {
    d.phase.Ready? && !d.haltIn && !d.haltOut
  }

  /** The byte range that a command addresses on the medium. */
  function Lo(d: Dev, rw: Rw): nat {
    rw.lba * d.blockSize
  }

  function Hi(d: Dev, rw: Rw): nat {
    (rw.lba + rw.blocks) * d.blockSize
  }

  /** A READ or WRITE the device can carry out: of this unit, in range, and as long as announced. */
  predicate Doable(d: Dev, j: Job, rw: Rw) {
    && j.lun == d.lun && j.toHost == !rw.write && Lo(d, rw) <= Hi(d, rw) <= |d.medium|
    && j.expected == Hi(d, rw) - Lo(d, rw)
  }

  predicate DoableJob(d: Dev, j: Job) {
    DecodeRw(j.cdb).Some? && Doable(d, j, DecodeRw(j.cdb).value)
  }

  /** What a carried-out READ sends. */
  function ReadOut(d: Dev, j: Job): seq<byte>
    requires DoableJob(d, j)
  {
    d.medium[Lo(d, DecodeRw(j.cdb).value)..Hi(d, DecodeRw(j.cdb).value)]
  }

  function StatusOf(d: Dev, j: Job, c: Choice): (r: byte)
    ensures r < 3
  {
    if DecodeRw(j.cdb).Some? && !DoableJob(d, j) then 1 + c.status % 2 else c.status % 3
  }

  function Prefix(b: seq<byte>, n: nat): (r: seq<byte>)
    ensures |r| <= n && |r| <= |b| && r == b[..|r|]
  {
    if |b| <= n then b else b[..n]
  }

  function Answer(d: Dev, j: Job, c: Choice): (r: seq<byte>)
    ensures |r| <= j.expected
  {
    if DoableJob(d, j) && j.toHost && StatusOf(d, j, c) == 0 then ReadOut(d, j) else Prefix(c.bytes, j.expected)
  }

  /** A valid wrapper arrived while the device was ready. */
  function Begin(d: Dev, j: Job, c: Choice): Dev {
    var next :=
      if j.expected == 0 then SendStatus(j, StatusOf(d, j, c), 0)
      else if j.toHost then SendData(j, Answer(d, j, c), StatusOf(d, j, c))
      else TakeData(j);
    d.(log := d.log + [j], phase := next)
  }

  /** How much of a data-out phase reaches the medium. */
  function Stored(d: Dev, j: Job, b: seq<byte>, c: Choice): (n: nat)
    ensures n <= |b| && n <= j.expected
  {
    if !DoableJob(d, j) then 0
    else if |b| == j.expected && !c.halt && StatusOf(d, j, c) == 0 then |b|
    else |Prefix(Prefix(b, j.expected), c.count)|
  }

  /** The medium after a data-out phase. */
  function Store(d: Dev, j: Job, b: seq<byte>, c: Choice): (r: seq<byte>)
    ensures |r| == |d.medium|
  {
    var n := Stored(d, j, b, c);
    if n == 0 then d.medium else Write(d.medium, Lo(d, DecodeRw(j.cdb).value), b[..n])
  }

  /** A data-out phase, whole, short, or halted by the device. */
  function TakePayload(d: Dev, j: Job, b: seq<byte>, c: Choice): (Dev, Result<nat, UsbError>) {
    var status := if |b| == j.expected && !c.halt then StatusOf(d, j, c) else 1 + c.status % 2;
    (d.(medium := Store(d, j, b, c), haltOut := c.halt, phase := SendStatus(j, status, j.expected - Stored(d, j, b, c))),
     if c.halt then Err(Stall) else Ok(|b|))
  }

  function Confuse(d: Dev): Dev {
    d.(phase := Confused, haltIn := true, haltOut := true)
  }

  /** Bytes arrive on the bulk-out pipe. */
  function Take(d: Dev, b: seq<byte>, c: Choice): (Dev, Result<nat, UsbError>) {
    if d.haltOut then (d, Err(Stall))
    else
      match d.phase
      case Ready => (match ParseCbw(b) case None => Confuse(d) case Some(j) => Begin(d, j, c), Ok(|b|))
      case TakeData(j) => TakePayload(d, j, b, c)
      case SendStatus(_, _, _) => if c.swallow then (d, Ok(|b|)) else (Confuse(d), Err(Stall))
      case SendData(_, _, _) => (Confuse(d), Err(Stall))
      case Confused => (Confuse(d), Err(Stall))
  }

  /** The host reads up to `len` bytes from the bulk-in pipe. */
  function Send(d: Dev, len: nat, c: Choice): (Dev, Result<seq<byte>, UsbError>) {
    if d.haltIn then (d, Err(Stall))
    else
      match d.phase
      case SendData(j, data, status) =>
        if c.halt then (d.(haltIn := true, phase := SendStatus(j, if status == 0 then 1 else status, j.expected)), Err(Stall))
        else if |data| <= len then (d.(phase := SendStatus(j, status, j.expected - (if |data| <= j.expected then |data| else j.expected))), Ok(data))
        else (d.(phase := SendData(j, data[len..], status)), Ok(data[..len]))
      case SendStatus(j, status, residue) =>
        if len < 13 || j.tag > U32_MAX || residue > U32_MAX then (d.(phase := Ready), Err(Failed))
        else if c.halt then (d.(haltIn := true), Err(Stall))
        else (d.(phase := Ready), Ok(if c.cut then Csw(j.tag, residue, status)[..c.count % 13] else Csw(j.tag, residue, status)))
      case Confused => (Confuse(d), Err(Stall))
      case _ => (d, Err(Timeout))
  }

  /** A line fault hides what became of an operation. */
  function Line<T>(d: Dev, after: (Dev, Result<T, UsbError>), c: Choice): (Dev, Result<T, UsbError>) {
    if c.fault.Some? && !c.fault.value.Stall? then (if c.seen then after.0 else d, Err(c.fault.value)) else after
  }

  function DevWrite(d: Dev, b: seq<byte>, c: Choice): (Dev, Result<nat, UsbError>) {
    Line(d, Take(d, b, c), c)
  }

  function DevRead(d: Dev, len: nat, c: Choice): (Dev, Result<seq<byte>, UsbError>) {
    Line(d, Send(d, len, c), c)
  }

  /** CLEAR_FEATURE(ENDPOINT_HALT); it does not help a confused device. */
  function DevClear(d: Dev, pipeIn: bool, c: Choice): (Dev, Result<(), UsbError>) {
    Line(d, (if d.phase.Confused? then d else if pipeIn then d.(haltIn := false) else d.(haltOut := false), Ok(())), c)
  }

  /** Bulk-Only Mass Storage Reset, which preserves the halts (section 3.1). */
  function DevReset(d: Dev, c: Choice): (Dev, Result<(), UsbError>) {
    Line(d, (d.(phase := Ready), Ok(())), c)
  }

  /** The pipes of an open device; `script` is everything the outside decides. */
  class Bus {
    var dev: Dev
    var clock: nat
    ghost var resets: nat  // how many reset recoveries were attempted
    const script: nat -> Choice

    constructor (dev: Dev, script: nat -> Choice)
      ensures this.dev == dev && this.script == script && clock == 0 && resets == 0
    {
      this.dev, this.script, clock, resets := dev, script, 0, 0;
    }

    method BulkWrite(b: seq<byte>) returns (r: Result<nat, UsbError>)
      modifies this`dev, this`clock
      ensures clock == old(clock) + 1 && (dev, r) == DevWrite(old(dev), b, script(old(clock)))
    {
      var after := DevWrite(dev, b, script(clock));
      dev, r := after.0, after.1;
      clock := clock + 1;
    }

    method BulkRead(len: nat) returns (r: Result<seq<byte>, UsbError>)
      modifies this`dev, this`clock
      ensures clock == old(clock) + 1 && (dev, r) == DevRead(old(dev), len, script(old(clock)))
    {
      var after := DevRead(dev, len, script(clock));
      dev, r := after.0, after.1;
      clock := clock + 1;
    }

    method ClearHalt(pipeIn: bool) returns (r: Result<(), UsbError>)
      modifies this`dev, this`clock
      ensures clock == old(clock) + 1 && (dev, r) == DevClear(old(dev), pipeIn, script(old(clock)))
    {
      var after := DevClear(dev, pipeIn, script(clock));
      dev, r := after.0, after.1;
      clock := clock + 1;
    }

    method MassStorageReset() returns (r: Result<(), UsbError>)
      modifies this
      ensures clock == old(clock) + 1 && (dev, r) == DevReset(old(dev), script(old(clock))) && resets == old(resets) + 1
    {
      var after := DevReset(dev, script(clock));
      dev, r := after.0, after.1;
      clock := clock + 1;
      resets := resets + 1;
    }
  }
}
