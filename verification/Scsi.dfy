/** SCSI command blocks: READ and WRITE (SBC-3, clause 5) and the sense data of a refusal. */
module Scsi {
  import opened Wrappers
  import opened Bytes

  const READ_10: byte := 0x28
  const WRITE_10: byte := 0x2a
  const READ_16: byte := 0x88
  const WRITE_16: byte := 0x8a
  const REQUEST_SENSE: byte := 0x03
  const U16_MAX := 0xffff
  const U32_MAX := 0xffff_ffff
  const U64_MAX := 0xffff_ffff_ffff_ffff

  /** What a READ or WRITE asks for. */
  datatype Rw = Rw(write: bool, lba: nat, blocks: nat)

  /** How a device reads a command block. */
  function DecodeRw(cdb: seq<byte>): Option<Rw> {
    if |cdb| == 10 && (cdb[0] == READ_10 || cdb[0] == WRITE_10) then
      Some(Rw(cdb[0] == WRITE_10, Be32(cdb, 2), Be16(cdb, 7)))
    else if |cdb| == 16 && (cdb[0] == READ_16 || cdb[0] == WRITE_16) then
      Some(Rw(cdb[0] == WRITE_16, Be64(cdb, 2), Be32(cdb, 10)))
    else None
  }

  predicate Short(lba: nat, blocks: nat) {
    lba + blocks <= U32_MAX + 1 && blocks <= U16_MAX
  }

  function Cdb10(write: bool, lba: nat, blocks: nat): (r: seq<byte>)
    requires lba <= U64_MAX && blocks <= U16_MAX
    ensures |r| == 10
  {
    [if write then WRITE_10 else READ_10, 0] + PutBe32(lba % (U32_MAX + 1)) + [0] + PutBe16(blocks) + [0]
  }

  function Cdb16(write: bool, lba: nat, blocks: nat): (r: seq<byte>)
    requires lba <= U64_MAX && blocks <= U32_MAX
    ensures |r| == 16
  {
    [if write then WRITE_16 else READ_16, 0] + PutBe64(lba) + PutBe32(blocks) + [0, 0]
  }

  /** The command block that `rw_cdb` builds. */
  function RwCdb(write: bool, lba: nat, blocks: nat): (r: seq<byte>)
    requires lba <= U64_MAX && blocks <= U32_MAX
    ensures |r| == if Short(lba, blocks) then 10 else 16
  {
    if Short(lba, blocks) then Cdb10(write, lba, blocks) else Cdb16(write, lba, blocks)
  }

  lemma Decode10(write: bool, lba: nat, blocks: nat)
    requires lba <= U64_MAX && blocks <= U16_MAX
    ensures DecodeRw(Cdb10(write, lba, blocks)) == Some(Rw(write, lba % (U32_MAX + 1), blocks))
  {
    var cdb := Cdb10(write, lba, blocks);
    assert cdb[2..6] == PutBe32(lba % (U32_MAX + 1)) && cdb[7..9] == PutBe16(blocks);
    Be32Put(cdb, 2, lba % (U32_MAX + 1));
    Be16Put(cdb, 7, blocks);
  }

  lemma Decode16(write: bool, lba: nat, blocks: nat)
    requires lba <= U64_MAX && blocks <= U32_MAX
    ensures DecodeRw(Cdb16(write, lba, blocks)) == Some(Rw(write, lba, blocks))
  {
    var cdb := Cdb16(write, lba, blocks);
    assert cdb[2..10] == PutBe64(lba) && cdb[10..14] == PutBe32(blocks);
    Be64Put(cdb, 2, lba);
    Be32Put(cdb, 10, blocks);
  }

  /** The device reads back the request, unless it is for no blocks at all just past the 32-bit
      range: that one comes out as block 0. */
  lemma RwRoundTrip(write: bool, lba: nat, blocks: nat)
    requires lba + blocks <= U64_MAX && blocks <= U32_MAX
    ensures DecodeRw(RwCdb(write, lba, blocks)) == Some(Rw(write, lba, blocks)) <==> !(blocks == 0 && lba == U32_MAX + 1)
  {
    if Short(lba, blocks) { Decode10(write, lba, blocks); } else { Decode16(write, lba, blocks); }
  }

  /** The bytes themselves: READ(10) and WRITE(10) for what 32 and 16 bits hold, else READ(16) and
      WRITE(16), the most significant byte first. */
  lemma RwBytes(write: bool, lba: nat, blocks: nat)
    requires lba + blocks <= U64_MAX && blocks <= U32_MAX && !(lba == 0x1_0000_0000 && blocks == 0)
    ensures
      var c := RwCdb(write, lba, blocks);
      if lba + blocks <= 0x1_0000_0000 && blocks <= 65535 then
        && |c| == 10 && c[0] == (if write then 0x2a else 0x28) && c[1] == c[6] == c[9] == 0
        && Number(c[5], c[4], c[3], c[2]) == lba && Number(c[8], c[7], 0, 0) == blocks
      else
        && |c| == 16 && c[0] == (if write then 0x8a else 0x88) && c[1] == c[14] == c[15] == 0
        && Number(c[9], c[8], c[7], c[6]) + 0x1_0000_0000 * Number(c[5], c[4], c[3], c[2]) == lba
        && Number(c[13], c[12], c[11], c[10]) == blocks
  {
    if Short(lba, blocks) { Bytes10(write, lba, blocks); } else { Bytes16(write, lba, blocks); }
  }

  lemma Bytes10(write: bool, lba: nat, blocks: nat)
    requires lba <= U32_MAX && blocks <= U16_MAX
    ensures
      var c := Cdb10(write, lba, blocks);
      && c[0] == (if write then 0x2a else 0x28) && c[1] == c[6] == c[9] == 0
      && Number(c[5], c[4], c[3], c[2]) == lba && Number(c[8], c[7], 0, 0) == blocks
  {
    var c := Cdb10(write, lba, blocks);
    assert c[2..6] == PutBe32(lba) && c[7..9] == PutBe16(blocks);
    Be32Put(c, 2, lba);
    Be16Put(c, 7, blocks);
    Be32Number(c, 2);
  }

  lemma Bytes16(write: bool, lba: nat, blocks: nat)
    requires lba <= U64_MAX && blocks <= U32_MAX
    ensures
      var c := Cdb16(write, lba, blocks);
      && c[0] == (if write then 0x8a else 0x88) && c[1] == c[14] == c[15] == 0
      && Number(c[9], c[8], c[7], c[6]) + 0x1_0000_0000 * Number(c[5], c[4], c[3], c[2]) == lba
      && Number(c[13], c[12], c[11], c[10]) == blocks
  {
    var c := Cdb16(write, lba, blocks);
    assert c[2..10] == PutBe64(lba) && c[10..14] == PutBe32(blocks);
    Be64Put(c, 2, lba);
    Be32Put(c, 10, blocks);
    Be32Number(c, 2);
    Be32Number(c, 6);
    Be32Number(c, 10);
  }

  /** `rw_cdb`: the sum it compares must not overflow. */
  method BuildRwCdb(write: bool, lba: nat, blocks: nat) returns (cdb: array<byte>, n: nat)
    requires lba + blocks <= U64_MAX && blocks <= U32_MAX
    ensures fresh(cdb) && cdb.Length == 16 && n <= 16 && cdb[..n] == RwCdb(write, lba, blocks)
  {
    cdb := new byte[16](_ => 0);
    if lba + blocks <= U32_MAX + 1 && blocks <= U16_MAX {
      Fill10(cdb, write, lba, blocks);
      n := 10;
    } else {
      Fill16(cdb, write, lba, blocks);
      n := 16;
    }
  }

  method Fill10(b: array<byte>, write: bool, lba: nat, blocks: nat)
    requires b.Length == 16 && (forall k :: 0 <= k < 16 ==> b[k] == 0) && lba <= U64_MAX && blocks <= U16_MAX
    modifies b
    ensures b[..10] == Cdb10(write, lba, blocks)
  {
    b[0] := if write then WRITE_10 else READ_10;
    PutAt(b, 2, PutBe32(lba % (U32_MAX + 1)));
    ghost var mid := b[2..6];
    PutAt(b, 7, PutBe16(blocks));
    assert b[2..6] == mid;
    assert b[..10] == b[..2] + b[2..6] + b[6..7] + b[7..9] + b[9..10];
  }

  method Fill16(b: array<byte>, write: bool, lba: nat, blocks: nat)
    requires b.Length == 16 && (forall k :: 0 <= k < 16 ==> b[k] == 0) && lba <= U64_MAX && blocks <= U32_MAX
    modifies b
    ensures b[..16] == Cdb16(write, lba, blocks)
  {
    b[0] := if write then WRITE_16 else READ_16;
    PutAt(b, 2, PutBe64(lba));
    ghost var mid := b[2..10];
    PutAt(b, 10, PutBe32(blocks));
    assert b[2..10] == mid;
    assert b[..16] == b[..2] + b[2..10] + b[10..14] + b[14..16];
  }

  // ----- sense data -----

  datatype ErrorKind = NotFound | Busy | NotSupported | Access | InvalidParam | Io | Stalled | Gone | TimedOut

  const NOT_READY := 2
  const ILLEGAL_REQUEST := 5
  const UNIT_ATTENTION := 6
  const DATA_PROTECT := 7
  const VOLUME_OVERFLOW := 13

  datatype Sense = Sense(key: nat, asc: byte, ascq: byte)

  /** Fixed (0x70, 0x71) or descriptor (0x72, 0x73) format. */
  function ParseSense(b: seq<byte>): Option<Sense> {
    if b == [] then None
    else
      var format := b[0] % 128;
      if format == 0x70 || format == 0x71 then
        if |b| <= 2 then None else Some(Sense(b[2] % 16, At(b, 12), At(b, 13)))
      else if format == 0x72 || format == 0x73 then
        if |b| <= 1 then None else Some(Sense(b[1] % 16, At(b, 2), At(b, 3)))
      else None
  }

  function SenseError(s: Sense): ErrorKind {
    if s.key == NOT_READY then (if s.asc == 0x3a then NotFound else Busy)
    else if s.key == ILLEGAL_REQUEST then NotSupported
    else if s.key == DATA_PROTECT then Access
    else if s.key == VOLUME_OVERFLOW then InvalidParam
    else Io
  }
}
