/** The mass-storage driver: tags, commands with their retries, and block I/O cut into commands. */
module MassStorage {
  import opened Wrappers
  import opened Bytes
  import opened Scsi
  import opened BulkDevice
  import opened BulkTransport

  const UNIT_ATTENTION_RETRIES := 3
  const SENSE_CDB: seq<byte> := [REQUEST_SENSE, 0, 0, 0, 18, 0]
  const SENSE_LEN := 18

  type u32 = n: nat | n <= U32_MAX
  type LunMax = n: nat | n < 16

  /** What the driver sees and keeps: the pipes, and the tag of its next command. */
  datatype Host = Host(pipes: Pipes, tag: u32)

  predicate Sendable(maxLun: LunMax, lun: byte, cdb: seq<byte>, data: DataPhase) {
    1 <= |cdb| <= 16 && lun <= maxLun && DataLen(data) <= U32_MAX
  }

  function JobOf(tag: nat, lun: byte, cdb: seq<byte>, data: DataPhase): Job {
    Job(tag, DataLen(data), data.In?, lun, cdb)
  }

  function NextTag(tag: u32): u32 {
    (tag + 1) % (U32_MAX + 1)
  }

  /** `transport`. */
  function Sent(h: Host, maxLun: LunMax, lun: byte, cdb: seq<byte>, data: DataPhase, script: Script)
    : (Host, Result<CommandResult, Error>, seq<byte>)
  {
    if !Sendable(maxLun, lun, cdb, data) then (h, Err(Invalid), [])
    else
      var (u, r, got) := Transport(h.pipes, JobOf(h.tag, lun, cdb, data), data, script);
      (Host(u, NextTag(h.tag)), r, got)
  }

  /** `sense_locked`. */
  function Sensed(h: Host, maxLun: LunMax, lun: byte, script: Script): (Host, Result<Sense, Error>)
  {
    var (h1, r, got) := Sent(h, maxLun, lun, SENSE_CDB, In(SENSE_LEN), script);
    (h1,
     if r.Err? then Err(r.error)
     else if !r.value.passed || ParseSense(got).None? then Err(Protocol)
     else Ok(ParseSense(got).value))
  }

  /** How one try of a command ends: with a result, with an error, or with a unit attention. */
  datatype Try = Done(moved: nat) | Gave(error: Error) | Attention(sense: Sense)

  function Tried(h: Host, maxLun: LunMax, lun: byte, cdb: seq<byte>, data: DataPhase, script: Script)
    : (Host, Try, seq<byte>)
  {
    var (h1, r, got) := Sent(h, maxLun, lun, cdb, data, script);
    if r.Err? then (h1, Gave(r.error), got)
    else if r.value.passed then (h1, Done(r.value.transferred), got)
    else
      var (h2, s) := Sensed(h1, maxLun, lun, script);
      (h2,
       if s.Err? then Gave(s.error)
       else if s.value.key == UNIT_ATTENTION then Attention(s.value)
       else Gave(Refused(SenseError(s.value))),
       got)
  }

  /** Trying until something other than a unit attention comes back, or the retries are used up. */
  function Retried(try: Host -> (Host, Try, seq<byte>), h: Host, attempts: nat): (Host, Result<nat, Error>, seq<byte>)
    requires attempts <= UNIT_ATTENTION_RETRIES
    decreases UNIT_ATTENTION_RETRIES - attempts
  {
    var (h1, t, got) := try(h);
    match t
    case Done(n) => (h1, Ok(n), got)
    case Gave(e) => (h1, Err(e), got)
    case Attention(s) =>
      if attempts < UNIT_ATTENTION_RETRIES then Retried(try, h1, attempts + 1) else (h1, Err(Refused(SenseError(s))), got)
  }

  /** What one try settles. */
  lemma RetryStep(try: Host -> (Host, Try, seq<byte>), h: Host, attempts: nat, h1: Host, t: Try, got: seq<byte>)
    requires attempts <= UNIT_ATTENTION_RETRIES && try(h) == (h1, t, got)
    ensures Retried(try, h, attempts) ==
      match t
      case Done(n) => (h1, Ok(n), got)
      case Gave(e) => (h1, Err(e), got)
      case Attention(s) =>
        if attempts < UNIT_ATTENTION_RETRIES then Retried(try, h1, attempts + 1) else (h1, Err(Refused(SenseError(s))), got)
  {
  }

  function Trier(maxLun: LunMax, lun: byte, cdb: seq<byte>, data: DataPhase, script: Script): Host -> (Host, Try, seq<byte>) {
    h => Tried(h, maxLun, lun, cdb, data, script)
  }

  /** `command`. */
  function Commanded(h: Host, maxLun: LunMax, lun: byte, cdb: seq<byte>, data: DataPhase, script: Script)
    : (Host, Result<nat, Error>, seq<byte>)
  {
    Retried(Trier(maxLun, lun, cdb, data, script), h, 0)
  }

  // ----- a stale status is never accepted -----

  /** One thing a user of the driver does. */
  datatype Op = Execute(lun: byte, cdb: seq<byte>, data: DataPhase) | Reset

  function Do(h: Host, maxLun: LunMax, op: Op, script: Script): Host
  {
    match op
    case Execute(lun, cdb, data) => Sent(h, maxLun, lun, cdb, data, script).0
    case Reset => Host(Recovery(h.pipes, script).0, h.tag)
  }

  function DoAll(h: Host, maxLun: LunMax, ops: seq<Op>, script: Script): Host
  {
    if ops == [] then h else Do(DoAll(h, maxLun, ops[..|ops| - 1], script), maxLun, ops[|ops| - 1], script)
  }

  lemma MovePending(u: Pipes, data: DataPhase, script: Script)
    requires !u.dev.phase.Ready?
    ensures var p := Pending(MoveData(u, data, script).0.dev); p.None? || p == Pending(u.dev)
  {
  }

  lemma StatusPending(u: Pipes, script: Script)
    ensures var p := Pending(ReadStatus(u, script).0.dev); p.None? || p == Pending(u.dev)
  {
    var (u1, r1) := ReadIn(u, 13, script);
    if r1 == Err(Stall) {
      var (u2, r2) := Clear(u1, true, script);
    }
  }

  lemma RecoveryPending(u: Pipes, script: Script)
    ensures var p := Pending(Recovery(u, script).0.dev); p.None? || p == Pending(u.dev)
  {
  }

  lemma WritePending(d: Dev, j: Job, c: Choice)
    requires ValidJob(j)
    ensures
      var (d', r) := DevWrite(d, Cbw(j), c);
      && (Pending(d').None? || Pending(d') == Pending(d) || Pending(d') == Some(j))
      && (r.Ok? ==> !d'.phase.Ready?)
  {
    CbwRoundTrip(j);
  }

  lemma AttemptPending(u: Pipes, j: Job, data: DataPhase, script: Script)
    requires ValidJob(j)
    ensures var p := Pending(Attempt(u, j, data, script).0.dev); p.None? || p == Pending(u.dev) || p == Some(j)
  {
    WritePending(u.dev, j, script(u.clock));
    var (u1, r1) := WriteOut(u, Cbw(j), script);
    if r1.Ok? {
      MovePending(u1, data, script);
      StatusPending(MoveData(u1, data, script).0, script);
    }
  }

  /** After a command the device is done, or where it was, or at this command. */
  lemma PendingKept(u: Pipes, j: Job, data: DataPhase, script: Script)
    requires ValidJob(j)
    ensures var p := Pending(Transport(u, j, data, script).0.dev); p.None? || p == Pending(u.dev) || p == Some(j)
  {
    AttemptPending(u, j, data, script);
    RecoveryPending(Attempt(u, j, data, script).0, script);
  }

  /** `n` commands have been sent since opening. */
  predicate Counts(h: Host, n: nat) {
    n <= U32_MAX && h.tag == if n < U32_MAX then 1 + n else 0
  }

  /** What the device still holds, if anything, is one of the first `n` commands. */
  predicate Holds(d: Dev, n: nat) {
    Pending(d).Some? ==> 1 <= Pending(d).value.tag <= n
  }

  lemma SentHolds(h: Host, n: nat, maxLun: LunMax, lun: byte, cdb: seq<byte>, data: DataPhase, script: Script)
    requires Counts(h, n) && n < U32_MAX && Sendable(maxLun, lun, cdb, data)
    ensures Holds(h.pipes.dev, n) ==> Holds(Sent(h, maxLun, lun, cdb, data, script).0.pipes.dev, n + 1)
  {
    PendingKept(h.pipes, JobOf(h.tag, lun, cdb, data), data, script);
  }

  lemma NextCounts(h: Host, n: nat, u: Pipes)
    requires Counts(h, n) && n < U32_MAX
    ensures Counts(Host(u, NextTag(h.tag)), n + 1)
  {
  }

  lemma SentIsNext(h: Host, n: nat, maxLun: LunMax, lun: byte, cdb: seq<byte>, data: DataPhase, script: Script)
    requires Counts(h, n) && n < U32_MAX && Sendable(maxLun, lun, cdb, data)
    ensures Counts(Sent(h, maxLun, lun, cdb, data, script).0, n + 1)
  {
    NextCounts(h, n, Transport(h.pipes, JobOf(h.tag, lun, cdb, data), data, script).0);
  }

  lemma DoHolds(h: Host, n: nat, maxLun: LunMax, op: Op, script: Script) returns (m: nat)
    requires Counts(h, n) && n < U32_MAX
    ensures m <= n + 1 && Counts(Do(h, maxLun, op, script), m)
    ensures Holds(h.pipes.dev, n) ==> Holds(Do(h, maxLun, op, script).pipes.dev, m)
  {
    m := n;
    if op.Reset? {
      RecoveryPending(h.pipes, script);
    } else if Sendable(maxLun, op.lun, op.cdb, op.data) {
      SentIsNext(h, n, maxLun, op.lun, op.cdb, op.data, script);
      SentHolds(h, n, maxLun, op.lun, op.cdb, op.data, script);
      m := n + 1;
    }
  }

  // ----- what the user can see of recoveries -----

  /** What came of the recovery that an operation attempted, if it did. */
  function RecoveryOf(h: Host, maxLun: LunMax, op: Op, script: Script): Option<bool>
  {
    match op
    case Execute(lun, cdb, data) =>
      if Sendable(maxLun, lun, cdb, data) then Recovered(h.pipes, JobOf(h.tag, lun, cdb, data), data, script) else None
    case Reset => Some(Recovery(h.pipes, script).1.Ok?)
  }

  /** The device owes no status, and has no halt left over from half a recovery. */
  predicate Clean(d: Dev) {
    Pending(d).None? && !HalfRecovered(d)
  }

  /** The last recovery of a run went through; or there was none, and the device was clean when the
      driver was opened. */
  predicate LastRecovery(h: Host, maxLun: LunMax, ops: seq<Op>, script: Script) {
    if ops == [] then Clean(h.pipes.dev)
    else RecoveryOf(DoAll(h, maxLun, ops[..|ops| - 1], script), maxLun, ops[|ops| - 1], script)
           .GetOr(LastRecovery(h, maxLun, ops[..|ops| - 1], script))
  }

  lemma RecoveredIsClean(h: Host, maxLun: LunMax, op: Op, script: Script)
    requires RecoveryOf(h, maxLun, op, script) == Some(true)
    ensures Clean(Do(h, maxLun, op, script).pipes.dev)
  {
    match op
    case Execute(lun, cdb, data) =>
      RecoveryRestores(Attempt(h.pipes, JobOf(h.tag, lun, cdb, data), data, script).0, script);
    case Reset => RecoveryRestores(h.pipes, script);
  }

  lemma DoKeepsWhole(h: Host, maxLun: LunMax, op: Op, script: Script)
    requires RecoveryOf(h, maxLun, op, script).None? && !HalfRecovered(h.pipes.dev)
    ensures !HalfRecovered(Do(h, maxLun, op, script).pipes.dev)
  {
    if op.Execute? && Sendable(maxLun, op.lun, op.cdb, op.data) {
      WholeUnlessRecoveryFails(h.pipes, JobOf(h.tag, op.lun, op.cdb, op.data), op.data, script);
    }
  }

  /** What holds after `n` commands of a run whose last recovery went through. */
  predicate Sound(d: Dev, n: nat) {
    Holds(d, n) && !HalfRecovered(d)
  }

  lemma StepSound(h: Host, n: nat, maxLun: LunMax, op: Op, script: Script, ok: bool) returns (m: nat)
    requires Counts(h, n) && n < U32_MAX && (ok ==> Sound(h.pipes.dev, n))
    ensures m <= n + 1 && Counts(Do(h, maxLun, op, script), m)
    ensures RecoveryOf(h, maxLun, op, script).GetOr(ok) ==> Sound(Do(h, maxLun, op, script).pipes.dev, m)
  {
    m := DoHolds(h, n, maxLun, op, script);
    var r := RecoveryOf(h, maxLun, op, script);
    if r == Some(true) { RecoveredIsClean(h, maxLun, op, script); }
    if r.None? && ok { DoKeepsWhole(h, maxLun, op, script); }
  }

  lemma {:induction false} RunSound(h: Host, maxLun: LunMax, ops: seq<Op>, script: Script) returns (n: nat)
    requires h.tag == 1 && |ops| <= U32_MAX
    ensures n <= |ops| && Counts(DoAll(h, maxLun, ops, script), n)
    ensures LastRecovery(h, maxLun, ops, script) ==> Sound(DoAll(h, maxLun, ops, script).pipes.dev, n)
  {
    n := 0;
    if ops != [] {
      var init := ops[..|ops| - 1];
      n := RunSound(h, maxLun, init, script);
      n := StepSound(DoAll(h, maxLun, init, script), n, maxLun, ops[|ops| - 1], script, LastRecovery(h, maxLun, init, script));
    }
  }

  /** If this command comes back with a result, the device took it on and finished it. */
  predicate OwnStatus(h: Host, maxLun: LunMax, lun: byte, cdb: seq<byte>, data: DataPhase, script: Script) {
    var (h', r, _) := Sent(h, maxLun, lun, cdb, data, script);
    r.Ok? ==> InSync(h'.pipes.dev) && h'.pipes.dev.log == h.pipes.dev.log + [JobOf(h.tag, lun, cdb, data)]
  }

  lemma TagIsNew(h: Host, n: nat)
    requires Counts(h, n) && Holds(h.pipes.dev, n)
    ensures Pending(h.pipes.dev).Some? ==> Pending(h.pipes.dev).value.tag != h.tag
  {
  }

  lemma OwnWhenSound(h: Host, n: nat, maxLun: LunMax, lun: byte, cdb: seq<byte>, data: DataPhase, script: Script)
    requires Counts(h, n) && Sound(h.pipes.dev, n)
    ensures OwnStatus(h, maxLun, lun, cdb, data, script)
  {
    TagIsNew(h, n);
    if Sendable(maxLun, lun, cdb, data) {
      OkIsInStep(h.pipes, JobOf(h.tag, lun, cdb, data), data, script);
    }
  }

  /** Since opening, on any device, for the first 2^32 operations: if the last recovery went through,
      or there was none and the device was clean, then a command that comes back with a result was
      taken on by the device and finished; no earlier command's status is taken for its own. */
  lemma StatusIsNeverStale(h: Host, maxLun: LunMax, ops: seq<Op>, lun: byte, cdb: seq<byte>, data: DataPhase, script: Script)
    requires h.tag == 1 && |ops| <= U32_MAX && LastRecovery(h, maxLun, ops, script)
    ensures OwnStatus(DoAll(h, maxLun, ops, script), maxLun, lun, cdb, data, script)
  {
    var n := RunSound(h, maxLun, ops, script);
    OwnWhenSound(DoAll(h, maxLun, ops, script), n, maxLun, lun, cdb, data, script);
  }

  // ----- and only then -----

  /** On no device does a run of `n` operations, with its last recovery as `ok` says, lead to a stale
      status. */
  ghost predicate NeverStale(n: nat, ok: bool) {
    forall h: Host, maxLun, ops, lun, cdb, data, script ::
      h.tag == 1 && |ops| == n && LastRecovery(h, maxLun, ops, script) == ok ==>
        OwnStatus(DoAll(h, maxLun, ops, script), maxLun, lun, cdb, data, script)
  }

  const TEST_UNIT_READY_CDB: seq<byte> := [0, 0, 0, 0, 0, 0]
  const TEST_UNIT_READY := Execute(0, TEST_UNIT_READY_CDB, NoData)
  const INQUIRY := Execute(0, INQUIRY_CDB, In(13))
  const REFUSED := Execute(0, [], NoData)

  /** Operations that are refused change nothing. */
  lemma {:induction false} Padded(h: Host, maxLun: LunMax, ops: seq<Op>, script: Script, k: nat)
    ensures
      var all := ops + seq(k, _ => REFUSED);
      && DoAll(h, maxLun, all, script) == DoAll(h, maxLun, ops, script)
      && LastRecovery(h, maxLun, all, script) == LastRecovery(h, maxLun, ops, script)
    decreases k
  {
    var all := ops + seq(k, _ => REFUSED);
    if k == 0 {
      assert all == ops;
    } else {
      Padded(h, maxLun, ops, script, k - 1);
      assert all[..|all| - 1] == ops + seq(k - 1, _ => REFUSED);
    }
  }

  const NEW_DEV := Dev(Ready, false, false, 0, 1, [], [])
  const FIRST_JOB := JobOf(1, 0, TEST_UNIT_READY_CDB, NoData)
  const LEFT_OVER := Dev(SendStatus(FIRST_JOB, 0, 0), false, false, 0, 1, [], [FIRST_JOB])

  /** The device is not to be reached but for the first wrapper, during `n` operations; then it takes
      a wrapper out of turn. */
  function Outage(n: nat): Script {
    k => Choice(if 0 < k < n + 1 then Some(NoDevice) else None, false, 0, false, 0, false, [], true)
  }

  /** What the driver is left with after `m` of them. */
  function During(m: nat): Host
    requires m <= U32_MAX + 1
  {
    Host(if m == 0 then Pipes(NEW_DEV, 0, 0) else Pipes(LEFT_OVER, m + 1, 0), if m < U32_MAX then m + 1 else m - U32_MAX)
  }

  lemma OutageBegins(n: nat)
    requires n >= 1
    ensures Transport(Pipes(NEW_DEV, 0, 0), FIRST_JOB, NoData, Outage(n)).0 == Pipes(LEFT_OVER, 2, 0)
    ensures Recovered(Pipes(NEW_DEV, 0, 0), FIRST_JOB, NoData, Outage(n)) == None
  {
    CbwRoundTrip(FIRST_JOB);
    assert NEW_DEV.log + [FIRST_JOB] == [FIRST_JOB];
    assert Begin(NEW_DEV, FIRST_JOB, Outage(n)(0)) == LEFT_OVER;
    assert WriteOut(Pipes(NEW_DEV, 0, 0), Cbw(FIRST_JOB), Outage(n)) == (Pipes(LEFT_OVER, 1, 0), Ok(31));
    assert ReadStatus(Pipes(LEFT_OVER, 1, 0), Outage(n)) == (Pipes(LEFT_OVER, 2, 0), Err(NoDevice));
  }

  lemma OutageGoesOn(n: nat, m: nat, j: Job)
    requires 1 <= m < n && ValidJob(j)
    ensures Transport(Pipes(LEFT_OVER, m + 1, 0), j, NoData, Outage(n)).0 == Pipes(LEFT_OVER, m + 2, 0)
    ensures Recovered(Pipes(LEFT_OVER, m + 1, 0), j, NoData, Outage(n)) == None
  {
    assert WriteOut(Pipes(LEFT_OVER, m + 1, 0), Cbw(j), Outage(n)) == (Pipes(LEFT_OVER, m + 2, 0), Err(NoDevice));
  }

  lemma AfterOutage(u: Pipes, j: Job, script: Script, n: nat, m: nat)
    requires m < n <= U32_MAX + 1 && u == During(m).pipes && script == Outage(n) && ValidJob(j) && (m == 0 ==> j == FIRST_JOB)
    ensures Transport(u, j, NoData, script).0 == During(m + 1).pipes && Recovered(u, j, NoData, script) == None
  {
    if m == 0 { OutageBegins(n); } else { OutageGoesOn(n, m, j); }
  }

  lemma DoIs(h: Host, maxLun: LunMax, script: Script, u: Pipes)
    requires
      var j := JobOf(h.tag, 0, TEST_UNIT_READY_CDB, NoData);
      Transport(h.pipes, j, NoData, script).0 == u && Recovered(h.pipes, j, NoData, script) == None
    ensures Do(h, maxLun, TEST_UNIT_READY, script) == Host(u, NextTag(h.tag))
    ensures RecoveryOf(h, maxLun, TEST_UNIT_READY, script) == None
  {
  }

  lemma TagAfter(m: nat)
    requires m <= U32_MAX
    ensures NextTag(During(m).tag) == During(m + 1).tag
  {
  }

  lemma OutageStep(h: Host, maxLun: LunMax, script: Script, n: nat, m: nat)
    requires m < n <= U32_MAX + 1 && h == During(m) && script == Outage(n)
    ensures Do(h, maxLun, TEST_UNIT_READY, script) == During(m + 1)
    ensures RecoveryOf(h, maxLun, TEST_UNIT_READY, script) == None
  {
    AfterOutage(h.pipes, JobOf(h.tag, 0, TEST_UNIT_READY_CDB, NoData), script, n, m);
    DoIs(h, maxLun, script, During(m + 1).pipes);
    TagAfter(m);
  }

  /** The first command's status outlasts the outage. */
  lemma {:induction false} OutageKeeps(maxLun: LunMax, n: nat, m: nat)
    requires m <= n <= U32_MAX + 1
    ensures DoAll(During(0), maxLun, seq(m, _ => TEST_UNIT_READY), Outage(n)) == During(m)
    ensures LastRecovery(During(0), maxLun, seq(m, _ => TEST_UNIT_READY), Outage(n))
    decreases m
  {
    if m > 0 {
      assert seq(m, _ => TEST_UNIT_READY)[..m - 1] == seq(m - 1, _ => TEST_UNIT_READY);
      OutageKeeps(maxLun, n, m - 1);
      OutageStep(During(m - 1), maxLun, Outage(n), n, m - 1);
    }
  }

  lemma OutageEnds(u: Pipes, script: Script, n: nat)
    requires 1 <= n <= U32_MAX + 1 && u == During(n).pipes && script == Outage(n)
    ensures
      var (u', r, _) := Transport(u, FIRST_JOB, NoData, script);
      u'.dev == LEFT_OVER.(phase := Ready) && r.Ok?
  {
    CswFields(1, 0, 0);
    assert WriteOut(u, Cbw(FIRST_JOB), script) == (u.(clock := n + 2), Ok(31));
    assert ReadStatus(u.(clock := n + 2), script) ==
           (Pipes(LEFT_OVER.(phase := Ready), n + 3, 0), Ok(Csw(1, 0, 0)));
  }

  lemma OutageFools(h: Host, maxLun: LunMax, script: Script, n: nat)
    requires 1 <= n <= U32_MAX + 1 && h == During(n) && h.tag == 1 && script == Outage(n)
    ensures !OwnStatus(h, maxLun, 0, TEST_UNIT_READY_CDB, NoData, script)
  {
    OutageEnds(h.pipes, script, n);
  }

  /** After 2^32 operations or more the tags have come round, and the first command's status can be
      taken for a later one's. */
  lemma WrappedTagCanFool(maxLun: LunMax, n: nat) returns (h: Host, ops: seq<Op>, script: Script)
    requires n > U32_MAX
    ensures h.tag == 1 && InSync(h.pipes.dev) && |ops| == n && LastRecovery(h, maxLun, ops, script)
    ensures !OwnStatus(DoAll(h, maxLun, ops, script), maxLun, 0, TEST_UNIT_READY_CDB, NoData, script)
  {
    var m := U32_MAX + 1;
    h, ops, script := During(0), seq(m, _ => TEST_UNIT_READY), Outage(m);
    OutageKeeps(maxLun, m, m);
    OutageFools(DoAll(h, maxLun, ops, script), maxLun, script, m);
    Padded(h, maxLun, ops, script, n - m);
    ops := ops + seq(n - m, _ => REFUSED);
  }

  lemma OneOp(h: Host, maxLun: LunMax, op: Op, script: Script)
    ensures DoAll(h, maxLun, [op], script) == Do(h, maxLun, op, script)
    ensures LastRecovery(h, maxLun, [op], script) == RecoveryOf(h, maxLun, op, script).GetOr(Clean(h.pipes.dev))
  {
    assert [op][..0] == [] && DoAll(h, maxLun, [], script) == h;
  }

  function Setback(): Script {
    k => Plain(Csw(2, 0, 0)).(fault := if k == 2 || k == 4 then Some(Timeout) else None, halt := k == 1)
  }

  lemma SetbackHalves(h: Host, maxLun: LunMax, script: Script)
    requires InSync(h.pipes.dev) && h.pipes.clock == 0 && h.tag == 1 && script == Setback()
    ensures
      var h' := Do(h, maxLun, INQUIRY, script);
      && HalfRecovered(h'.pipes.dev) && h'.pipes.clock == 5 && h'.tag == 2
      && RecoveryOf(h, maxLun, INQUIRY, script) == Some(false)
  {
    HalfRecoveredHappens(h.pipes, JobOf(1, 0, INQUIRY_CDB, In(13)), script);
  }

  lemma SetbackFools(h: Host, maxLun: LunMax, script: Script)
    requires HalfRecovered(h.pipes.dev) && h.pipes.clock == 5 && h.tag == 2 && script == Setback()
    ensures !OwnStatus(h, maxLun, 0, INQUIRY_CDB, In(13), script)
  {
    var j := JobOf(2, 0, INQUIRY_CDB, In(13));
    forall k: nat | k >= 5 ensures script(k) == Plain(Csw(j.tag, 0, 0)) {}
    HalfRecoveredFools(h.pipes, j, script);
  }

  /** At any length there is a run whose last recovery failed, and after it data is taken for the status. */
  lemma FailedRecoveryCanFool(maxLun: LunMax, n: nat) returns (h: Host, ops: seq<Op>, script: Script)
    requires n > 0
    ensures h.tag == 1 && InSync(h.pipes.dev) && |ops| == n && !LastRecovery(h, maxLun, ops, script)
    ensures !OwnStatus(DoAll(h, maxLun, ops, script), maxLun, 0, INQUIRY_CDB, In(13), script)
  {
    h, ops, script := During(0), [INQUIRY], Setback();
    SetbackHalves(h, maxLun, script);
    SetbackFools(Do(h, maxLun, INQUIRY, script), maxLun, script);
    OneOp(h, maxLun, INQUIRY, script);
    Padded(h, maxLun, ops, script, n - 1);
    ops := ops + seq(n - 1, _ => REFUSED);
  }

  /** Nor need any recovery have been attempted: the driver starts with tag 1 whatever the device still
      owes, and a status left over under that tag is taken for the first command's. */
  lemma LeftOverCanFool(maxLun: LunMax, n: nat) returns (h: Host, ops: seq<Op>, script: Script)
    ensures h.tag == 1 && ops == seq(n, _ => REFUSED)
    ensures !LastRecovery(h, maxLun, ops, script) && DoAll(h, maxLun, ops, script) == h
    ensures !OwnStatus(h, maxLun, 0, TEST_UNIT_READY_CDB, NoData, script)
  {
    var m := U32_MAX + 1;
    h, ops, script := During(m), seq(n, _ => REFUSED), Outage(m);
    OutageFools(h, maxLun, script, m);
    Padded(h, maxLun, [], script, n);
    assert [] + ops == ops;
  }

  /** So no status is stale exactly as long as the last recovery went through, or there was none and
      the device was clean, and the tags have not come round. */
  lemma NeverStaleExactly(n: nat, ok: bool)
    ensures NeverStale(n, ok) <==> ok && n <= U32_MAX
  {
    if !ok {
      var h, ops, script := LeftOverCanFool(0, n);
    } else if n > U32_MAX {
      var h, ops, script := WrappedTagCanFool(0, n);
    } else {
      forall h: Host, maxLun, ops, lun, cdb, data, script |
        h.tag == 1 && |ops| == n && LastRecovery(h, maxLun, ops, script) == ok
        ensures OwnStatus(DoAll(h, maxLun, ops, script), maxLun, lun, cdb, data, script)
      {
        StatusIsNeverStale(h, maxLun, ops, lun, cdb, data, script);
      }
    }
  }

  // ----- a command and its retries -----

  /** The part of a command that decides what it does; the tag does not. */
  function Ask(lun: byte, cdb: seq<byte>, data: DataPhase): Job {
    JobOf(0, lun, cdb, data)
  }

  /** Changes inside the range of the command, on top of others there. */
  lemma TouchesTwice(d0: Dev, d1: Dev, d2: Dev, j: Job)
    requires Touches(d0, j, d1) && Touches(d1, j, d2)
    ensures Touches(d0, j, d2)
  {
  }

  /** A command that performs after failed attempts performs as if there had been none. */
  lemma PerformedAfter(d0: Dev, d1: Dev, j: Job, data: DataPhase, got: seq<byte>, d2: Dev)
    requires Touches(d0, j, d1) && Performed(d1, j, data, got, d2)
    ensures Performed(d0, j, data, got, d2) && (DoableJob(d0, j) <==> DoableJob(d1, j))
  {
  }

  lemma SentPerforms(h: Host, maxLun: LunMax, lun: byte, cdb: seq<byte>, data: DataPhase, script: Script)
    requires InSync(h.pipes.dev)
    ensures
      var (h', r, got) := Sent(h, maxLun, lun, cdb, data, script);
      var (d, d', j) := (h.pipes.dev, h'.pipes.dev, Ask(lun, cdb, data));
      && Touches(d, j, d')
      && (r.Ok? ==> InSync(d') && Sendable(maxLun, lun, cdb, data))
      && (r.Ok? && r.value.passed ==> Performed(d, j, data, got, d') && (DoableJob(d, j) ==> r.value.transferred == j.expected))
  {
    if Sendable(maxLun, lun, cdb, data) {
      TransportPerforms(h.pipes, JobOf(h.tag, lun, cdb, data), data, script);
    }
  }

  lemma SensedKeeps(h: Host, maxLun: LunMax, lun: byte, script: Script)
    requires InSync(h.pipes.dev)
    ensures
      var (h', r) := Sensed(h, maxLun, lun, script);
      && h'.pipes.dev.medium == h.pipes.dev.medium && h'.pipes.dev.lun == h.pipes.dev.lun
      && h'.pipes.dev.blockSize == h.pipes.dev.blockSize && (r.Ok? ==> InSync(h'.pipes.dev))
  {
    SentPerforms(h, maxLun, lun, SENSE_CDB, In(SENSE_LEN), script);
    assert DecodeRw(SENSE_CDB).None?;
  }

  predicate TryPerforms(before: Host, after: (Host, Try, seq<byte>), j: Job, data: DataPhase) {
    var (d, d', t) := (before.pipes.dev, after.0.pipes.dev, after.1);
    && Touches(d, j, d') && (!t.Gave? ==> InSync(d'))
    && (t.Done? ==> Performed(d, j, data, after.2, d') && (DoableJob(d, j) ==> t.moved == j.expected))
  }

  lemma TriedPerforms(h: Host, maxLun: LunMax, lun: byte, cdb: seq<byte>, data: DataPhase, script: Script)
    requires InSync(h.pipes.dev)
    ensures TryPerforms(h, Tried(h, maxLun, lun, cdb, data, script), Ask(lun, cdb, data), data)
  {
    SentPerforms(h, maxLun, lun, cdb, data, script);
    var (h1, r, got) := Sent(h, maxLun, lun, cdb, data, script);
    if r.Ok? && !r.value.passed { SensedKeeps(h1, maxLun, lun, script); }
  }

  lemma {:induction false} RetryPerforms(
    try: Host -> (Host, Try, seq<byte>), h: Host, attempts: nat, j: Job, data: DataPhase)
    requires InSync(h.pipes.dev) && attempts <= UNIT_ATTENTION_RETRIES
    requires forall x: Host :: InSync(x.pipes.dev) ==> TryPerforms(x, try(x), j, data)
    ensures
      var (h', r, got) := Retried(try, h, attempts);
      && Touches(h.pipes.dev, j, h'.pipes.dev)
      && (r.Ok? ==>
            && InSync(h'.pipes.dev) && Performed(h.pipes.dev, j, data, got, h'.pipes.dev)
            && (DoableJob(h.pipes.dev, j) ==> r.value == j.expected))
    decreases UNIT_ATTENTION_RETRIES - attempts
  {
    assert TryPerforms(h, try(h), j, data);
    var (h1, t, _) := try(h);
    if t.Attention? && attempts < UNIT_ATTENTION_RETRIES {
      var d, d1 := h.pipes.dev, h1.pipes.dev;
      RetryPerforms(try, h1, attempts + 1, j, data);
      var (h2, r, got) := Retried(try, h1, attempts + 1);
      TouchesTwice(d, d1, h2.pipes.dev, j);
      if r.Ok? { PerformedAfter(d, d1, j, data, got, h2.pipes.dev); }
    }
  }

  /** A command sent in step, retries and all: nothing changes but the blocks it writes; and if it
      succeeds it was carried out in full, and the device is in step. */
  lemma CommandPerforms(h: Host, maxLun: LunMax, lun: byte, cdb: seq<byte>, data: DataPhase, script: Script)
    requires InSync(h.pipes.dev)
    ensures
      var (h', r, got) := Commanded(h, maxLun, lun, cdb, data, script);
      var (d, d', j) := (h.pipes.dev, h'.pipes.dev, Ask(lun, cdb, data));
      && Touches(d, j, d')
      && (r.Ok? ==> InSync(d') && Performed(d, j, data, got, d') && (DoableJob(d, j) ==> r.value == j.expected))
  {
    var try := Trier(maxLun, lun, cdb, data, script);
    forall x: Host | InSync(x.pipes.dev) ensures TryPerforms(x, try(x), Ask(lun, cdb, data), data) {
      TriedPerforms(x, maxLun, lun, cdb, data, script);
    }
    RetryPerforms(try, h, 0, Ask(lun, cdb, data), data);
  }

  /** Commands of one kind among those a device took on. */
  function Count(log: seq<Job>, cdb: seq<byte>): nat {
    if log == [] then 0 else Count(log[..|log| - 1], cdb) + if log[|log| - 1].cdb == cdb then 1 else 0
  }

  /** One try sends the command and REQUEST SENSE at most once each. */
  predicate TryCounts(before: Host, after: (Host, Try, seq<byte>), cdb: seq<byte>) {
    var log, log' := before.pipes.dev.log, after.0.pipes.dev.log;
    && Count(log', cdb) <= Count(log, cdb) + 1 && Count(log', SENSE_CDB) <= Count(log, SENSE_CDB) + 1
    && (after.1.Attention? ==> InSync(after.0.pipes.dev))
  }

  lemma {:induction false} RetryCounts(try: Host -> (Host, Try, seq<byte>), h: Host, attempts: nat, cdb: seq<byte>)
    requires InSync(h.pipes.dev) && attempts <= UNIT_ATTENTION_RETRIES
    requires forall x: Host :: InSync(x.pipes.dev) ==> TryCounts(x, try(x), cdb)
    ensures
      var log, log' := h.pipes.dev.log, Retried(try, h, attempts).0.pipes.dev.log;
      && Count(log', cdb) <= Count(log, cdb) + 1 + UNIT_ATTENTION_RETRIES - attempts
      && Count(log', SENSE_CDB) <= Count(log, SENSE_CDB) + 1 + UNIT_ATTENTION_RETRIES - attempts
    decreases UNIT_ATTENTION_RETRIES - attempts
  {
    assert TryCounts(h, try(h), cdb);
    if try(h).1.Attention? && attempts < UNIT_ATTENTION_RETRIES {
      RetryCounts(try, try(h).0, attempts + 1, cdb);
    }
  }

  /** A command is sent at most four times, and so is REQUEST SENSE, however the device complains. */
  lemma BoundedRetries(h: Host, maxLun: LunMax, lun: byte, cdb: seq<byte>, data: DataPhase, script: Script)
    requires InSync(h.pipes.dev) && cdb != SENSE_CDB
    ensures
      var log, log' := h.pipes.dev.log, Commanded(h, maxLun, lun, cdb, data, script).0.pipes.dev.log;
      Count(log', cdb) <= Count(log, cdb) + 4 && Count(log', SENSE_CDB) <= Count(log, SENSE_CDB) + 4
  {
    var try := Trier(maxLun, lun, cdb, data, script);
    forall x: Host | InSync(x.pipes.dev) ensures TryCounts(x, try(x), cdb) {
      TriedCounts(x, maxLun, lun, cdb, data, script);
    }
    RetryCounts(try, h, 0, cdb);
  }

  lemma TriedCounts(h: Host, maxLun: LunMax, lun: byte, cdb: seq<byte>, data: DataPhase, script: Script)
    requires InSync(h.pipes.dev) && cdb != SENSE_CDB
    ensures TryCounts(h, Tried(h, maxLun, lun, cdb, data, script), cdb)
  {
    SentCounts(h, maxLun, lun, cdb, data, script);
    SentPerforms(h, maxLun, lun, cdb, data, script);
    var (h1, r, _) := Sent(h, maxLun, lun, cdb, data, script);
    if r.Ok? {
      SentCounts(h1, maxLun, lun, SENSE_CDB, In(SENSE_LEN), script);
      SensedKeeps(h1, maxLun, lun, script);
    }
  }

  lemma SentCounts(h: Host, maxLun: LunMax, lun: byte, cdb: seq<byte>, data: DataPhase, script: Script)
    requires InSync(h.pipes.dev)
    ensures
      var log, log' := h.pipes.dev.log, Sent(h, maxLun, lun, cdb, data, script).0.pipes.dev.log;
      forall c :: Count(log', c) == Count(log, c) || (c == cdb && Count(log', c) == Count(log, c) + 1)
  {
    if Sendable(maxLun, lun, cdb, data) {
      var j := JobOf(h.tag, lun, cdb, data);
      AtMostOnce(h.pipes, j, data, script);
      assert (h.pipes.dev.log + [j])[..|h.pipes.dev.log|] == h.pipes.dev.log;
    }
  }

  /** Only this command and REQUEST SENSE, for this unit, were added to a log. */
  predicate Adds(log: seq<Job>, log': seq<Job>, lun: byte, cdb: seq<byte>) {
    && log <= log'
    && forall k :: |log| <= k < |log'| ==> log'[k].lun == lun && (log'[k].cdb == cdb || log'[k].cdb == SENSE_CDB)
  }

  lemma SentAdds(h: Host, maxLun: LunMax, lun: byte, cdb: seq<byte>, data: DataPhase, script: Script)
    ensures Adds(h.pipes.dev.log, Sent(h, maxLun, lun, cdb, data, script).0.pipes.dev.log, lun, cdb)
  {
    if Sendable(maxLun, lun, cdb, data) { AtMostOnce(h.pipes, JobOf(h.tag, lun, cdb, data), data, script); }
  }

  lemma AddsTwice(a: seq<Job>, b: seq<Job>, c: seq<Job>, lun: byte, cdb: seq<byte>, cdb': seq<byte>)
    requires Adds(a, b, lun, cdb) && Adds(b, c, lun, cdb') && (cdb' == cdb || cdb' == SENSE_CDB)
    ensures Adds(a, c, lun, cdb)
  {
  }

  lemma TriedAdds(h: Host, maxLun: LunMax, lun: byte, cdb: seq<byte>, data: DataPhase, script: Script)
    ensures Adds(h.pipes.dev.log, Tried(h, maxLun, lun, cdb, data, script).0.pipes.dev.log, lun, cdb)
  {
    var h1 := Sent(h, maxLun, lun, cdb, data, script).0;
    var h2 := Sent(h1, maxLun, lun, SENSE_CDB, In(SENSE_LEN), script).0;
    SentAdds(h, maxLun, lun, cdb, data, script);
    SentAdds(h1, maxLun, lun, SENSE_CDB, In(SENSE_LEN), script);
    AddsTwice(h.pipes.dev.log, h1.pipes.dev.log, h2.pipes.dev.log, lun, cdb, SENSE_CDB);
  }

  lemma {:induction false} RetryAdds(try: Host -> (Host, Try, seq<byte>), h: Host, attempts: nat, lun: byte, cdb: seq<byte>)
    requires attempts <= UNIT_ATTENTION_RETRIES
    requires forall x: Host :: Adds(x.pipes.dev.log, try(x).0.pipes.dev.log, lun, cdb)
    ensures Adds(h.pipes.dev.log, Retried(try, h, attempts).0.pipes.dev.log, lun, cdb)
    decreases UNIT_ATTENTION_RETRIES - attempts
  {
    var h1 := try(h).0;
    assert Adds(h.pipes.dev.log, h1.pipes.dev.log, lun, cdb);
    if try(h).1.Attention? && attempts < UNIT_ATTENTION_RETRIES {
      RetryAdds(try, h1, attempts + 1, lun, cdb);
      AddsTwice(h.pipes.dev.log, h1.pipes.dev.log, Retried(try, h, attempts).0.pipes.dev.log, lun, cdb, cdb);
    }
  }

  /** Whatever state the device is in, asking for a command makes it take on that command and REQUEST
      SENSE, and nothing else. */
  lemma OnlyAsked(h: Host, maxLun: LunMax, lun: byte, cdb: seq<byte>, data: DataPhase, script: Script)
    ensures Adds(h.pipes.dev.log, Commanded(h, maxLun, lun, cdb, data, script).0.pipes.dev.log, lun, cdb)
  {
    var try := Trier(maxLun, lun, cdb, data, script);
    forall x: Host ensures Adds(x.pipes.dev.log, try(x).0.pipes.dev.log, lun, cdb) {
      TriedAdds(x, maxLun, lun, cdb, data, script);
    }
    RetryAdds(try, h, 0, lun, cdb);
  }

  /** When nothing goes wrong, a command the device can carry out is sent once and succeeds. */
  lemma CalmCommand(h: Host, maxLun: LunMax, lun: byte, cdb: seq<byte>, data: DataPhase, script: Script)
    requires InSync(h.pipes.dev)
    requires Sendable(maxLun, lun, cdb, data) && DoableJob(h.pipes.dev, Ask(lun, cdb, data))
    requires data != In(0) && data != Out([]) && forall k :: k >= h.pipes.clock ==> Calm(script(k))
    ensures
      var (h', r, got) := Commanded(h, maxLun, lun, cdb, data, script);
      && r == Ok(DataLen(data)) && h'.pipes.clock >= h.pipes.clock && InSync(h'.pipes.dev)
      && h'.pipes.dev.log == h.pipes.dev.log + [JobOf(h.tag, lun, cdb, data)]
  {
    var j := JobOf(h.tag, lun, cdb, data);
    CalmPasses(h.pipes, j, data, script);
    TransportPerforms(h.pipes, j, data, script);
  }
}
