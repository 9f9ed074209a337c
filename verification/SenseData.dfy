/** Sense data as a device writes it (SPC-4, section 4.5), and what a command's failure means. */
module SenseData {
  import opened Wrappers
  import opened Bytes
  import opened Scsi

  type nibble = n: nat | n < 16

  /** Fixed format with its information, command-specific and field-replaceable parts, or descriptor
      format with its descriptors; `deferred` for an error of an earlier command. */
  datatype Form =
    | Fixed(deferred: bool, valid: bool, marks: nibble, info: seq<byte>, specific: seq<byte>, parts: seq<byte>)
    | Descriptors(deferred: bool, list: seq<byte>)

  predicate ValidForm(f: Form) {
    match f
    case Fixed(_, _, _, info, specific, parts) => |info| == 4 && |specific| == 4 && |parts| == 4
    case Descriptors(_, list) => |list| <= 244
  }

  function PrintSense(f: Form, key: nibble, asc: byte, ascq: byte): seq<byte>
    requires ValidForm(f)
  {
    match f
    case Fixed(deferred, valid, marks, info, specific, parts) =>
      [(if valid then 0x80 else 0) + (if deferred then 0x71 else 0x70), 0, marks * 16 + key] + info + [10]
      + specific + [asc, ascq] + parts
    case Descriptors(deferred, list) =>
      [if deferred then 0x73 else 0x72, key, asc, ascq, 0, 0, 0, |list|] + list
  }

  /** Whatever the format, and however much is given as long as it has the key, it is read back; codes
      that are cut off read as 0. */
  lemma SenseReadsBack(f: Form, key: nibble, asc: byte, ascq: byte, n: nat)
    requires ValidForm(f) && (if f.Fixed? then 3 else 2) <= n <= |PrintSense(f, key, asc, ascq)|
    ensures
      var at := if f.Fixed? then 12 else 2;
      ParseSense(PrintSense(f, key, asc, ascq)[..n]) == Some(Sense(key, if n > at then asc else 0, if n > at + 1 then ascq else 0))
  {
    var b := PrintSense(f, key, asc, ascq);
    if f.Fixed? {
      assert b[2] == f.marks * 16 + key && b[12] == asc && b[13] == ascq;
      assert b[0] % 128 == if f.deferred then 0x71 else 0x70;
    } else {
      assert b[1] == key && b[2] == asc && b[3] == ascq;
    }
  }

  /** Nothing else is taken for sense data. */
  lemma SenseOnly(b: seq<byte>)
    ensures ParseSense(b).Some? <==>
      (|b| >= 3 && b[0] in {0x70, 0x71, 0xf0, 0xf1}) || (|b| >= 2 && b[0] in {0x72, 0x73, 0xf2, 0xf3})
  {
  }

  /** What can be wrong with a unit or a command. */
  datatype Trouble =
    | NoMedium | BecomingReady | BadRequest | Changed | WriteProtected | EndOfMedium | Other

  /** The sense key and additional sense code for it (SPC-4, section 4.5.6). */
  predicate Signals(t: Trouble, key: nibble, asc: byte) {
    match t
    case NoMedium => key == 0x2 && asc == 0x3a
    case BecomingReady => key == 0x2 && asc != 0x3a
    case BadRequest => key == 0x5
    case Changed => key == 0x6
    case WriteProtected => key == 0x7
    case EndOfMedium => key == 0xd
    case Other => key !in {0x2, 0x5, 0x6, 0x7, 0xd}
  }

  function Kind(t: Trouble): ErrorKind {
    match t
    case NoMedium => NotFound
    case BecomingReady => Busy
    case BadRequest => NotSupported
    case Changed => Io
    case WriteProtected => Access
    case EndOfMedium => InvalidParam
    case Other => Io
  }

  lemma KindOfTrouble(t: Trouble, key: nibble, asc: byte, ascq: byte)
    requires Signals(t, key, asc)
    ensures SenseError(Sense(key, asc, ascq)) == Kind(t)
    ensures key == UNIT_ATTENTION <==> t == Changed
  {
  }
}
