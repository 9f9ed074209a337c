/** One command over the Bulk-Only Transport, and its reset recovery, against the device. */
module BulkTransport {
  import opened Wrappers
  import opened Bytes
  import opened Scsi
  import opened BulkDevice

  datatype DataPhase = NoData | In(len: nat) | Out(bytes: seq<byte>)
  datatype Error = Usb(cause: UsbError) | Protocol | Invalid | Refused(kind: ErrorKind)
  datatype CommandResult = CommandResult(passed: bool, transferred: nat, residue: nat)

  function DataLen(data: DataPhase): nat {
    match data
    case NoData => 0
    case In(len) => len
    case Out(b) => |b|
  }

  /** The state of a `Bus`. */
  datatype Pipes = Pipes(dev: Dev, clock: nat, resets: nat)

  type Script = nat -> Choice

  function WriteOut(u: Pipes, b: seq<byte>, script: Script): (Pipes, Result<nat, UsbError>) {
    var (d, r) := DevWrite(u.dev, b, script(u.clock));
    (u.(dev := d, clock := u.clock + 1), r)
  }

  function ReadIn(u: Pipes, len: nat, script: Script): (Pipes, Result<seq<byte>, UsbError>) {
    var (d, r) := DevRead(u.dev, len, script(u.clock));
    (u.(dev := d, clock := u.clock + 1), r)
  }

  function Clear(u: Pipes, pipeIn: bool, script: Script): (Pipes, Result<(), UsbError>) {
    var (d, r) := DevClear(u.dev, pipeIn, script(u.clock));
    (u.(dev := d, clock := u.clock + 1), r)
  }

  /** `reset_recovery`: reset, then both halts, giving up at the first failure. */
  function Recovery(u: Pipes, script: Script): (Pipes, Result<(), UsbError>) {
    var (d, r) := DevReset(u.dev, script(u.clock));
    var u1 := Pipes(d, u.clock + 1, u.resets + 1);
    if r.Err? then (u1, r)
    else
      var (u2, r2) := Clear(u1, true, script);
      if r2.Err? then (u2, r2) else Clear(u2, false, script)
  }

  /** What `transport` makes of an error: recovery, unless the device is gone. */
  function Fail(u: Pipes, e: Error, script: Script): Pipes {
    if e == Usb(NoDevice) then u else Recovery(u, script).0
  }

  /** The data phase; a stalled one moves nothing and is legal. */
  function MoveData(u: Pipes, data: DataPhase, script: Script): (Pipes, Result<(nat, seq<byte>), UsbError>) {
    match data
    case NoData => (u, Ok((0, [])))
    case In(len) =>
      var (u1, r) := ReadIn(u, len, script);
      if r == Err(Stall) then Cleared(u1, true, script)
      else (u1, match r { case Ok(b) => Ok((|b|, b)) case Err(e) => Err(e) })
    case Out(b) =>
      var (u1, r) := WriteOut(u, b, script);
      if r == Err(Stall) then Cleared(u1, false, script)
      else (u1, match r { case Ok(n) => Ok((n, [])) case Err(e) => Err(e) })
  }

  function Cleared(u: Pipes, pipeIn: bool, script: Script): (Pipes, Result<(nat, seq<byte>), UsbError>) {
    var (u1, r) := Clear(u, pipeIn, script);
    (u1, if r.Ok? then Ok((0, [])) else Err(r.error))
  }

  /** The status wrapper; one stall is cleared. */
  function ReadStatus(u: Pipes, script: Script): (Pipes, Result<seq<byte>, UsbError>) {
    var (u1, r) := ReadIn(u, 13, script);
    if r != Err(Stall) then (u1, r)
    else
      var (u2, r2) := Clear(u1, true, script);
      if r2.Err? then (u2, Err(r2.error)) else ReadIn(u2, 13, script)
  }

  /** What a status wrapper says about the command with this tag. */
  function Judge(csw: seq<byte>, tag: nat, moved: nat): Result<CommandResult, Error> {
    if |csw| != 13 || Le32(csw, 0) != CSW_SIGNATURE || Le32(csw, 4) != tag || csw[12] > 1 then Err(Protocol)
    else Ok(CommandResult(csw[12] == 0, moved, Le32(csw, 8)))
  }

  /** The status phase, and what it says of a command whose data phase moved `moved` bytes. */
  function Conclude(u: Pipes, j: Job, moved: nat, script: Script): (Pipes, Result<CommandResult, Error>) {
    var (u1, r) := ReadStatus(u, script);
    (u1, if r.Err? then Err(Usb(r.error)) else Judge(r.value, j.tag, moved))
  }

  /** Wrapper, data phase and status, up to the first error. */
  function Attempt(u: Pipes, j: Job, data: DataPhase, script: Script): (Pipes, Result<CommandResult, Error>, seq<byte>)
    requires ValidJob(j)
  {
    var (u1, r1) := WriteOut(u, Cbw(j), script);
    if r1.Err? then (u1, Err(Usb(r1.error)), [])
    else
      var (u2, r2) := MoveData(u1, data, script);
      if r2.Err? then (u2, Err(Usb(r2.error)), [])
      else
        var (u3, r3) := Conclude(u2, j, r2.value.0, script);
        (u3, r3, r2.value.1)
  }

  /** `transport`, from the wrapper on: the outcome, and the bytes a data-in phase put first into
      the buffer. */
  function Transport(u: Pipes, j: Job, data: DataPhase, script: Script): (Pipes, Result<CommandResult, Error>, seq<byte>)
    requires ValidJob(j)
  {
    var (u', r, got) := Attempt(u, j, data, script);
    (if r.Ok? then u' else Fail(u', r.error, script), r, got)
  }

  /** What came of the recovery of a command, if there was one. */
  function Recovered(u: Pipes, j: Job, data: DataPhase, script: Script): Option<bool>
    requires ValidJob(j)
  {
    var (before, r, _) := Attempt(u, j, data, script);
    if r.Err? && r.error != Usb(NoDevice) then Some(Recovery(before, script).1.Ok?) else None
  }

  /** The wrapper announces the data phase that follows. */
  predicate Announces(j: Job, data: DataPhase) {
    ValidJob(j) && j.toHost == data.In? && j.expected == DataLen(data)
  }

  // ----- whatever state the device is in -----

  function Pending(d: Dev): Option<Job> {
    match d.phase
    case Ready => None
    case SendData(j, _, _) => Some(j)
    case TakeData(j) => Some(j)
    case SendStatus(j, _, _) => Some(j)
    case Confused => None
  }

  /** The device took this command on, or still is where an earlier one left it. */
  predicate Trail(d0: Dev, j: Job, d: Dev) {
    || (d.log == d0.log + [j] && (Pending(d).Some? ==> Pending(d) == Some(j)))
    || (d.log == d0.log && (Pending(d).Some? ==> Pending(d) == Pending(d0)))
  }

  predicate SameDisk(d: Dev, d': Dev) {
    d'.medium == d.medium && d'.log == d.log && d'.lun == d.lun && d'.blockSize == d.blockSize
  }

  /** A device that takes wrappers though its in pipe is halted: a recovery that got no further than
      the reset leaves one so. */
  predicate HalfRecovered(d: Dev) {
    d.phase.Ready? && d.haltIn && !d.haltOut
  }

  /** After the wrapper was accepted: data to send is data of this command, as much as announced. */
  predicate Accepted(d0: Dev, j: Job, d: Dev) {
    && Trail(d0, j, d) && !d.haltOut && !d.phase.Ready?
    && (d.phase.SendData? ==> d.phase.job == j && j.toHost && |d.phase.data| <= j.expected && !d.haltIn)
  }

  lemma WrapperAccepted(d0: Dev, j: Job, c: Choice)
    requires ValidJob(j) && !HalfRecovered(d0)
    ensures var (d, r) := DevWrite(d0, Cbw(j), c); r.Ok? ==> Accepted(d0, j, d)
  {
    CbwRoundTrip(j);
  }

  /** After the data phase nothing is left to send but the status. */
  predicate DataOver(d0: Dev, j: Job, d: Dev) {
    Trail(d0, j, d) && !d.phase.SendData? && (!d.haltOut || d.phase.Confused?)
  }

  lemma DataMoved(d0: Dev, j: Job, u: Pipes, data: DataPhase, script: Script)
    requires Announces(j, data) && Accepted(d0, j, u.dev)
    ensures var (u1, r) := MoveData(u, data, script); r.Ok? ==> DataOver(d0, j, u1.dev)
  {
  }

  lemma StatusRead(d0: Dev, j: Job, u: Pipes, script: Script)
    requires DataOver(d0, j, u.dev)
    ensures
      var (u1, r) := ReadStatus(u, script);
      r.Ok? ==>
        && InSync(u1.dev) && u1.dev.log == u.dev.log && u1.dev.medium == u.dev.medium
        && u.dev.phase.SendStatus? && u.dev.phase.job.tag <= U32_MAX && u.dev.phase.residue <= U32_MAX
        && r.value <= Csw(u.dev.phase.job.tag, u.dev.phase.residue, u.dev.phase.status)
  {
  }

  /** Whatever state a command finds the device in: if it comes back with a result, the device
      waits for the next command, and the result is this command's own, or else that of an earlier
      command with the same tag. */
  lemma OkIsInStep(u: Pipes, j: Job, data: DataPhase, script: Script)
    requires Announces(j, data) && !HalfRecovered(u.dev)
    ensures
      var (u', r, _) := Transport(u, j, data, script);
      r.Ok? ==>
        && InSync(u'.dev)
        && (u'.dev.log == u.dev.log + [j]
            || (u'.dev.log == u.dev.log && Pending(u.dev).Some? && Pending(u.dev).value.tag == j.tag))
  {
    var (u1, r1) := WriteOut(u, Cbw(j), script);
    if r1.Ok? {
      WrapperAccepted(u.dev, j, script(u.clock));
      var (u2, r2) := MoveData(u1, data, script);
      if r2.Ok? {
        DataMoved(u.dev, j, u1, data, script);
        var (u3, r3) := ReadStatus(u2, script);
        if r3.Ok? && |r3.value| == 13 {
          StatusRead(u.dev, j, u2, script);
          var p := u2.dev.phase;
          CswFields(p.job.tag, p.residue, p.status);
          assert r3.value == Csw(p.job.tag, p.residue, p.status);
        }
      }
    }
  }

  const INQUIRY_CDB: seq<byte> := [0x12, 0, 0, 0, 13, 0]

  /** Nothing goes wrong, and the device sends `bytes` for whatever is no READ. */
  function Plain(bytes: seq<byte>): Choice {
    Choice(None, false, 0, false, 0, false, bytes, false)
  }

  /** From any half-recovered device it can go wrong: the stall of the data phase is an old one, and
      once it is cleared the data is read as the status.  Data that looks like this command's status
      is then taken for it, and the device is left with the real one to send. */
  lemma HalfRecoveredFools(u: Pipes, j: Job, script: Script)
    requires HalfRecovered(u.dev) && j.tag <= U32_MAX && j == Job(j.tag, 13, true, 0, INQUIRY_CDB)
    requires forall k :: k >= u.clock ==> script(k) == Plain(Csw(j.tag, 0, 0))
    ensures Announces(j, In(13))
    ensures
      var (u', r, _) := Transport(u, j, In(13), script);
      r == Ok(CommandResult(true, 0, 0)) && u'.dev.phase.SendStatus?
  {
    var (n, csw) := (u.clock, Csw(j.tag, 0, 0));
    CswFields(j.tag, 0, 0);
    CbwRoundTrip(j);
    var d1 := Begin(u.dev, j, script(n));
    assert d1.phase == SendData(j, csw, 0);
    assert WriteOut(u, Cbw(j), script) == (u.(dev := d1, clock := n + 1), Ok(31));
    var d2 := d1.(haltIn := false);
    assert MoveData(u.(dev := d1, clock := n + 1), In(13), script) == (u.(dev := d2, clock := n + 3), Ok((0, [])));
    var d3 := d2.(phase := SendStatus(j, 0, 0));
    assert ReadStatus(u.(dev := d2, clock := n + 3), script) == (u.(dev := d3, clock := n + 4), Ok(csw));
  }

  /** What the line and the device do so that a recovery gets half-way: the data phase is halted, the
      clearing of that halt is lost, and so is the one after the reset. */
  predicate HalfWay(script: Script, n: nat) {
    && script(n).fault.None? && !script(n).swallow
    && script(n + 1).fault.None? && script(n + 1).halt
    && script(n + 2).fault == Some(Timeout) && !script(n + 2).seen
    && script(n + 3).fault.None?
    && script(n + 4).fault == Some(Timeout) && !script(n + 4).seen
  }

  /** How a device that was in step comes to be half-recovered. */
  lemma HalfRecoveredHappens(u: Pipes, j: Job, script: Script)
    requires InSync(u.dev) && j.tag <= U32_MAX && j == Job(j.tag, 13, true, 0, INQUIRY_CDB) && HalfWay(script, u.clock)
    ensures Announces(j, In(13))
    ensures
      var u' := Transport(u, j, In(13), script).0;
      HalfRecovered(u'.dev) && u'.clock == u.clock + 5 && Recovered(u, j, In(13), script) == Some(false)
  {
    var n := u.clock;
    CbwRoundTrip(j);
    var d1 := Begin(u.dev, j, script(n));
    assert d1.phase.SendData?;
    assert WriteOut(u, Cbw(j), script) == (u.(dev := d1, clock := n + 1), Ok(31));
    var (u2, r2) := MoveData(u.(dev := d1, clock := n + 1), In(13), script);
    assert u2.dev.haltIn && !u2.dev.haltOut && u2.clock == n + 3 && r2 == Err(Timeout);
  }

  /** A result, if one comes back, leaves the device in step. */
  predicate StaysInStep(u: Pipes, j: Job, data: DataPhase, script: Script) {
    Announces(j, data) && Transport(u, j, data, script).1.Ok? ==> InSync(Transport(u, j, data, script).0.dev)
  }

  /** So the devices that no command and no behaviour can put out of step are exactly those that are
      not half-recovered. */
  lemma InStepExactly(u: Pipes)
    ensures (forall j, data, script :: StaysInStep(u, j, data, script)) <==> !HalfRecovered(u.dev)
  {
    if HalfRecovered(u.dev) {
      var j := Job(0, 13, true, 0, INQUIRY_CDB);
      var script := k => Plain(Csw(0, 0, 0));
      HalfRecoveredFools(u, j, script);
      assert !StaysInStep(u, j, In(13), script);
    } else {
      forall j, data, script ensures StaysInStep(u, j, data, script) {
        if Announces(j, data) { OkIsInStep(u, j, data, script); }
      }
    }
  }

  lemma WrapperKeepsWhole(d: Dev, j: Job, c: Choice)
    requires ValidJob(j) && !HalfRecovered(d)
    ensures var (d', r) := DevWrite(d, Cbw(j), c); !HalfRecovered(d') && (r.Ok? ==> !d'.phase.Ready?)
  {
    CbwRoundTrip(j);
  }

  lemma DataKeepsWhole(u: Pipes, data: DataPhase, script: Script)
    requires !u.dev.phase.Ready?
    ensures !HalfRecovered(MoveData(u, data, script).0.dev)
  {
  }

  lemma StatusKeepsWhole(u: Pipes, script: Script)
    requires !HalfRecovered(u.dev)
    ensures !HalfRecovered(ReadStatus(u, script).0.dev)
  {
  }

  /** Only a recovery that fails half-way leaves a device half-recovered. */
  lemma WholeUnlessRecoveryFails(u: Pipes, j: Job, data: DataPhase, script: Script)
    requires ValidJob(j) && !HalfRecovered(u.dev)
    ensures Recovered(u, j, data, script) != Some(false) ==> !HalfRecovered(Transport(u, j, data, script).0.dev)
  {
    var (u1, r1) := WriteOut(u, Cbw(j), script);
    WrapperKeepsWhole(u.dev, j, script(u.clock));
    if r1.Ok? {
      DataKeepsWhole(u1, data, script);
      StatusKeepsWhole(MoveData(u1, data, script).0, script);
    }
    RecoveryRestores(Attempt(u, j, data, script).0, script);
  }

  /** A recovery that goes through puts the device in step from any state, and touches no data. */
  lemma RecoveryRestores(u: Pipes, script: Script)
    ensures
      var (u', r) := Recovery(u, script);
      (r.Ok? ==> InSync(u'.dev)) && SameDisk(u.dev, u'.dev) && u'.resets == u.resets + 1
  {
  }

  /** Every error after the wrapper was begun is followed by exactly one recovery, unless the device
      is gone; without an error there is none. */
  lemma ErrRecovers(u: Pipes, j: Job, data: DataPhase, script: Script)
    requires ValidJob(j)
    ensures
      var (before, _, _) := Attempt(u, j, data, script);
      var (u', r, _) := Transport(u, j, data, script);
      && before.resets == u.resets
      && (if r.Err? && r.error != Usb(NoDevice)
          then u' == Recovery(before, script).0 && u'.resets == u.resets + 1
            && (Recovery(before, script).1.Ok? ==> InSync(u'.dev))
          else u' == before)
  {
    RecoveryRestores(Attempt(u, j, data, script).0, script);
  }

  // ----- from a device in step -----

  predicate Within(m: seq<byte>, m': seq<byte>, lo: nat, hi: nat) {
    |m| == |m'| && forall i :: 0 <= i < |m| && !(lo <= i < hi) ==> m'[i] == m[i]
  }

  /** What a command may change: the blocks a WRITE addresses, nothing else. */
  predicate Touches(d0: Dev, j: Job, d: Dev) {
    && d.lun == d0.lun && d.blockSize == d0.blockSize
    && (if DoableJob(d0, j) && !j.toHost then
          Within(d0.medium, d.medium, Lo(d0, DecodeRw(j.cdb).value), Hi(d0, DecodeRw(j.cdb).value))
        else d.medium == d0.medium)
  }

  /** What a passed command did: sent the blocks asked for, or stored exactly what it was given. */
  predicate Performed(d0: Dev, j: Job, data: DataPhase, got: seq<byte>, d: Dev) {
    && (DecodeRw(j.cdb).Some? ==> DoableJob(d0, j))
    && (DoableJob(d0, j) && j.toHost ==> got == ReadOut(d0, j))
    && (DoableJob(d0, j) && !j.toHost ==>
          && |Payload(data)| == j.expected && Lo(d0, DecodeRw(j.cdb).value) + j.expected <= |d0.medium|
          && d.medium == Write(d0.medium, Lo(d0, DecodeRw(j.cdb).value), Payload(data)))
  }

  function Payload(data: DataPhase): seq<byte> {
    if data.Out? then data.bytes else []
  }

  lemma StoreTouches(d: Dev, j: Job, b: seq<byte>, c: Choice)
    requires !j.toHost
    ensures Touches(d, j, d.(medium := Store(d, j, b, c)))
  {
  }

  /** What the data phase of a command begun in step comes to. */
  predicate DataDone(d0: Dev, j: Job, data: DataPhase, d: Dev, r: Result<(nat, seq<byte>), UsbError>) {
    && Touches(d0, j, d)
    && (r.Ok? && d.phase.SendStatus? && d.phase.status == 0 ==>
          Performed(d0, j, data, r.value.1, d) && (DoableJob(d0, j) ==> r.value.0 == j.expected && d.phase.residue == 0))
  }

  lemma InPerformed(d0: Dev, j: Job, c: Choice, u: Pipes, len: nat, script: Script)
    requires Announces(j, In(len)) && InSync(d0) && u.dev == Begin(d0, j, c)
    ensures var (u1, r) := MoveData(u, In(len), script); DataDone(d0, j, In(len), u1.dev, r)
  {
  }

  lemma OutPerformed(d0: Dev, j: Job, c: Choice, u: Pipes, b: seq<byte>, script: Script)
    requires Announces(j, Out(b)) && InSync(d0) && u.dev == Begin(d0, j, c)
    ensures var (u1, r) := MoveData(u, Out(b), script); DataDone(d0, j, Out(b), u1.dev, r)
  {
    if b == [] {
      if DoableJob(d0, j) { NothingPerformed(d0, j, Out(b)); }
    } else {
      PayloadPerformed(u.dev, j, b, script(u.clock));
    }
  }

  /** A payload taken whole, by a command that passed, is on the medium. */
  lemma PayloadPerformed(d: Dev, j: Job, b: seq<byte>, c: Choice)
    requires ValidJob(j) && !j.toHost && j.expected == |b|
    ensures
      var (d', r) := TakePayload(d, j, b, c);
      && Touches(d, j, d')
      && (d'.phase.status == 0 ==> r == Ok(|b|) && Performed(d, j, Out(b), [], d') && (DoableJob(d, j) ==> d'.phase.residue == 0))
  {
    StoreTouches(d, j, b, c);
    if b == [] && DoableJob(d, j) { NothingPerformed(d, j, Out(b)); }
  }

  lemma NothingPerformed(d0: Dev, j: Job, data: DataPhase)
    requires Announces(j, data) && DoableJob(d0, j) && Payload(data) == []
    ensures Write(d0.medium, Lo(d0, DecodeRw(j.cdb).value), Payload(data)) == d0.medium
  {
  }

  lemma DataPerformed(d0: Dev, j: Job, c: Choice, u: Pipes, data: DataPhase, script: Script)
    requires Announces(j, data) && InSync(d0) && u.dev == Begin(d0, j, c)
    ensures var (u1, r) := MoveData(u, data, script); DataDone(d0, j, data, u1.dev, r)
  {
    match data
    case NoData => if DoableJob(d0, j) { NothingPerformed(d0, j, data); }
    case In(len) => InPerformed(d0, j, c, u, len, script);
    case Out(b) => OutPerformed(d0, j, c, u, b, script);
  }

  lemma SendKeeps(d: Dev, len: nat, c: Choice)
    ensures SameDisk(d, DevRead(d, len, c).0)
  {
  }

  lemma StatusKeeps(u: Pipes, script: Script)
    ensures SameDisk(u.dev, ReadStatus(u, script).0.dev)
  {
    var (u1, r1) := ReadIn(u, 13, script);
    SendKeeps(u.dev, 13, script(u.clock));
    if r1 == Err(Stall) {
      var (u2, r2) := Clear(u1, true, script);
      SendKeeps(u2.dev, 13, script(u2.clock));
    }
  }

  lemma AttemptTouches(u: Pipes, j: Job, data: DataPhase, script: Script)
    requires Announces(j, data) && InSync(u.dev)
    ensures Touches(u.dev, j, Attempt(u, j, data, script).0.dev)
  {
    CbwRoundTrip(j);
    var c := script(u.clock);
    var (u1, r1) := WriteOut(u, Cbw(j), script);
    if r1.Ok? {
      assert u1.dev == Begin(u.dev, j, c);
      DataPerformed(u.dev, j, c, u1, data, script);
      StatusKeeps(MoveData(u1, data, script).0, script);
    }
  }

  lemma AttemptPerforms(u: Pipes, j: Job, data: DataPhase, script: Script)
    requires Announces(j, data) && InSync(u.dev)
    ensures
      var (u', r, got) := Attempt(u, j, data, script);
      r.Ok? && r.value.passed ==>
        && Performed(u.dev, j, data, got, u'.dev)
        && (DoableJob(u.dev, j) ==> r.value.transferred == j.expected && r.value.residue == 0)
  {
    CbwRoundTrip(j);
    var c := script(u.clock);
    var (u1, r1) := WriteOut(u, Cbw(j), script);
    if r1.Ok? {
      assert u1.dev == Begin(u.dev, j, c);
      DataPerformed(u.dev, j, c, u1, data, script);
      var (u2, r2) := MoveData(u1, data, script);
      if r2.Ok? {
        StatusKeeps(u2, script);
        Verdict(u.dev, j, u1, data, u2, script);
      }
    }
  }

  /** A command sent in step: whatever happens, nothing changes but the blocks it writes; and if it
      comes back passed, it was carried out, once, and all of it, and the device is in step again. */
  lemma TransportPerforms(u: Pipes, j: Job, data: DataPhase, script: Script)
    requires Announces(j, data) && InSync(u.dev)
    ensures
      var (u', r, got) := Transport(u, j, data, script);
      && Touches(u.dev, j, u'.dev)
      && (r.Ok? ==> InSync(u'.dev) && u'.dev.log == u.dev.log + [j])
      && (r.Ok? && r.value.passed ==>
            && Performed(u.dev, j, data, got, u'.dev)
            && (DoableJob(u.dev, j) ==> r.value.transferred == j.expected && r.value.residue == 0))
  {
    OkIsInStep(u, j, data, script);
    AttemptTouches(u, j, data, script);
    AttemptPerforms(u, j, data, script);
    RecoveryRestores(Attempt(u, j, data, script).0, script);
  }

  /** A status that says passed is the device's word that the command passed. */
  lemma Verdict(d0: Dev, j: Job, u1: Pipes, data: DataPhase, u2: Pipes, script: Script)
    requires Announces(j, data) && Accepted(d0, j, u1.dev) && MoveData(u1, data, script).1.Ok?
    requires u2 == MoveData(u1, data, script).0
    ensures
      var r := ReadStatus(u2, script).1;
      r.Ok? && |r.value| == 13 ==>
        u2.dev.phase.SendStatus? && r.value[12] == u2.dev.phase.status && Le32(r.value, 8) == u2.dev.phase.residue
  {
    DataMoved(d0, j, u1, data, script);
    var r := ReadStatus(u2, script).1;
    if r.Ok? && |r.value| == 13 {
      StatusRead(d0, j, u2, script);
      var p := u2.dev.phase;
      CswFields(p.job.tag, p.residue, p.status);
      assert r.value == Csw(p.job.tag, p.residue, p.status);
    }
  }

  /** No command is taken on more than once, whatever comes of it. */
  lemma AtMostOnce(u: Pipes, j: Job, data: DataPhase, script: Script)
    requires ValidJob(j)
    ensures var u' := Transport(u, j, data, script).0; u'.dev.log == u.dev.log || u'.dev.log == u.dev.log + [j]
  {
    RecoveryRestores(Attempt(u, j, data, script).0, script);
    WrapperLogged(u.dev, j, script(u.clock));
    var (u1, r1) := WriteOut(u, Cbw(j), script);
    if r1.Ok? {
      LogKept(u1, data, script);
      StatusKeeps(MoveData(u1, data, script).0, script);
    }
  }

  lemma WrapperLogged(d: Dev, j: Job, c: Choice)
    requires ValidJob(j)
    ensures
      var (d', r) := DevWrite(d, Cbw(j), c);
      (d'.log == d.log || d'.log == d.log + [j]) && (r.Ok? ==> !d'.phase.Ready?)
  {
    CbwRoundTrip(j);
  }

  lemma LogKept(u: Pipes, data: DataPhase, script: Script)
    requires !u.dev.phase.Ready?
    ensures MoveData(u, data, script).0.dev.log == u.dev.log
  {
    match data
    case NoData =>
    case In(len) => SendKeeps(u.dev, len, script(u.clock));
    case Out(b) =>
  }

  // ----- nothing goes wrong -----

  predicate Calm(c: Choice) {
    c.fault.None? && c.status % 3 == 0 && !c.halt && !c.cut
  }

  lemma CalmData(d0: Dev, j: Job, c: Choice, u: Pipes, data: DataPhase, script: Script)
    requires Announces(j, data) && InSync(d0) && DoableJob(d0, j) && u.dev == Begin(d0, j, c)
    requires data != In(0) && data != Out([]) && Calm(c) && Calm(script(u.clock))
    ensures
      var (u1, r) := MoveData(u, data, script);
      r.Ok? && u1.dev.phase.SendStatus? && u1.dev.phase.job == j && u1.dev.phase.status == 0 && !u1.dev.haltIn
      && u1.dev.phase.residue <= U32_MAX && u.clock <= u1.clock
  {
  }

  /** Then a command the device can carry out passes; an empty buffer goes as no data phase at all. */
  lemma CalmPasses(u: Pipes, j: Job, data: DataPhase, script: Script)
    requires Announces(j, data) && InSync(u.dev) && DoableJob(u.dev, j) && data != In(0) && data != Out([])
    requires forall k :: k >= u.clock ==> Calm(script(k))
    ensures var (u', r, _) := Transport(u, j, data, script); r.Ok? && r.value.passed && u'.clock >= u.clock
  {
    CbwRoundTrip(j);
    var c := script(u.clock);
    assert Calm(c);
    var (u1, r1) := WriteOut(u, Cbw(j), script);
    assert r1.Ok? && u1.dev == Begin(u.dev, j, c);
    assert Calm(script(u1.clock));
    CalmData(u.dev, j, c, u1, data, script);
    var (u2, r2) := MoveData(u1, data, script);
    assert Calm(script(u2.clock));
    CalmStatus(u2, j, r2.value.0, script);
  }

  lemma CalmStatus(u: Pipes, j: Job, moved: nat, script: Script)
    requires ValidJob(j) && u.dev.phase.SendStatus? && u.dev.phase.job == j && u.dev.phase.status == 0 && !u.dev.haltIn
    requires u.dev.phase.residue <= U32_MAX && Calm(script(u.clock))
    ensures var (u', r) := Conclude(u, j, moved, script); r.Ok? && r.value.passed && u'.clock >= u.clock
  {
    CswFields(j.tag, u.dev.phase.residue, 0);
  }
}
