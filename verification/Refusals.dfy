/** What becomes of a command that the device refuses, saying why. */
module Refusals {
  import opened Wrappers
  import opened Bytes
  import opened Scsi
  import opened SenseData
  import opened BulkDevice
  import opened BulkTransport
  import opened MassStorage

  /** An operation that nothing disturbs, in a command that is to fail. */
  predicate Refusing(c: Choice) {
    c.fault.None? && c.status % 3 == 1 && c.status % 2 == 0 && !c.halt && !c.cut
  }

  /** The operations of one try: wrapper, data if there are any, status. */
  function Ticks(data: DataPhase): nat {
    if data.NoData? then 2 else 3
  }

  /** From `clock` on a try is refused, and then sense data is given that begins with `sense`. */
  ghost predicate Complains(script: Script, clock: nat, data: DataPhase, sense: seq<byte>) {
    && (forall k :: clock <= k < clock + Ticks(data) ==> Refusing(script(k)))
    && (forall k :: clock + Ticks(data) <= k < clock + Ticks(data) + 3 ==> Calm(script(k)))
    && script(clock + Ticks(data)).bytes == sense
  }

  predicate SameUnit(d: Dev, d': Dev) {
    d'.lun == d.lun && d'.blockSize == d.blockSize && |d'.medium| == |d.medium|
  }

  lemma RefusedData(d: Dev, j: Job, u: Pipes, data: DataPhase, script: Script)
    requires Announces(j, data) && data != In(0) && data != Out([]) && u.clock > 0 && InSync(d)
    requires Refusing(script(u.clock - 1)) && u.dev == Begin(d, j, script(u.clock - 1)) && (!data.NoData? ==> Refusing(script(u.clock)))
    ensures
      var (u1, r) := MoveData(u, data, script);
      && r.Ok? && u1.clock == u.clock + Ticks(data) - 2 && u1.resets == u.resets
      && u1.dev.phase.SendStatus? && u1.dev.phase.job == j && u1.dev.phase.status == 1 && u1.dev.phase.residue <= U32_MAX
      && !u1.dev.haltIn && !u1.dev.haltOut && u1.dev.log == d.log + [j] && SameUnit(d, u1.dev)
  {
  }

  lemma RefusedStatus(u: Pipes, j: Job, moved: nat, script: Script)
    requires ValidJob(j) && u.dev.phase.SendStatus? && u.dev.phase.job == j && u.dev.phase.status <= 1 && !u.dev.haltIn
    requires u.dev.phase.residue <= U32_MAX && script(u.clock).fault.None? && !script(u.clock).halt && !script(u.clock).cut
    ensures
      var (u1, r) := Conclude(u, j, moved, script);
      && r == Ok(CommandResult(u.dev.phase.status == 0, moved, u.dev.phase.residue))
      && u1 == Pipes(u.dev.(phase := Ready), u.clock + 1, u.resets)
  {
    CswFields(j.tag, u.dev.phase.residue, u.dev.phase.status);
  }

  lemma RefusedTransport(u: Pipes, j: Job, data: DataPhase, script: Script)
    requires Announces(j, data) && InSync(u.dev) && data != In(0) && data != Out([])
    requires forall k :: u.clock <= k < u.clock + Ticks(data) ==> Refusing(script(k))
    ensures
      var (u', r, _) := Transport(u, j, data, script);
      && r.Ok? && !r.value.passed && InSync(u'.dev) && u'.clock == u.clock + Ticks(data)
      && u'.dev.log == u.dev.log + [j] && SameUnit(u.dev, u'.dev)
  {
    CbwRoundTrip(j);
    var c := script(u.clock);
    assert Refusing(c);
    var (u1, r1) := WriteOut(u, Cbw(j), script);
    assert r1.Ok? && u1 == Pipes(Begin(u.dev, j, c), u.clock + 1, u.resets);
    RefusedData(u.dev, j, u1, data, script);
    var (u2, r2) := MoveData(u1, data, script);
    RefusedStatus(u2, j, r2.value.0, script);
  }

  lemma SenseMoved(u: Pipes, j: Job, script: Script)
    requires u.clock > 0 && ValidJob(j) && j.toHost && DecodeRw(j.cdb).None? && j.expected == 18
    requires u.dev.phase.SendData? && u.dev.phase.job == j && |u.dev.phase.data| <= 18 && !u.dev.haltIn
    requires Calm(script(u.clock))
    ensures
      var (u1, r) := MoveData(u, In(18), script);
      && r == Ok((|u.dev.phase.data|, u.dev.phase.data))
      && u1 == Pipes(u.dev.(phase := SendStatus(j, u.dev.phase.status, 18 - |u.dev.phase.data|)), u.clock + 1, u.resets)
  {
  }

  /** A command that reads 18 bytes and is no READ gets what the device has to say. */
  lemma SenseTransport(u: Pipes, j: Job, script: Script)
    requires InSync(u.dev) && ValidJob(j) && j.toHost && DecodeRw(j.cdb).None? && j.expected == 18
    requires forall k :: u.clock <= k < u.clock + 3 ==> Calm(script(k))
    ensures
      var (u', r, got) := Transport(u, j, In(18), script);
      && r.Ok? && r.value.passed && got == Prefix(script(u.clock).bytes, 18)
      && u' == Pipes(u.dev.(log := u.dev.log + [j]), u.clock + 3, u.resets)
  {
    CbwRoundTrip(j);
    var c := script(u.clock);
    assert Calm(c);
    var (u1, r1) := WriteOut(u, Cbw(j), script);
    assert r1.Ok? && u1 == Pipes(Begin(u.dev, j, c), u.clock + 1, u.resets);
    SenseMoved(u1, j, script);
    var (u2, r2) := MoveData(u1, In(18), script);
    RefusedStatus(u2, j, r2.value.0, script);
  }

  lemma SenseFits(f: Form, key: nibble, asc: byte, ascq: byte)
    requires ValidForm(f)
    ensures ParseSense(Prefix(PrintSense(f, key, asc, ascq), 18)) == Some(Sense(key, asc, ascq))
  {
    var b := PrintSense(f, key, asc, ascq);
    SenseReadsBack(f, key, asc, ascq, if |b| <= 18 then |b| else 18);
    assert |b| <= 18 ==> b[..|b|] == b;
  }

  /** The command block of REQUEST SENSE for 18 bytes (SPC-4, section 6.39). */
  const ASK_SENSE: seq<byte> := [0x03, 0, 0, 0, 18, 0]

  lemma SensedGives(h: Host, maxLun: LunMax, lun: byte, script: Script, f: Form, key: nibble, asc: byte, ascq: byte)
    requires InSync(h.pipes.dev) && lun <= maxLun && ValidForm(f)
    requires forall k :: h.pipes.clock <= k < h.pipes.clock + 3 ==> Calm(script(k))
    requires script(h.pipes.clock).bytes == PrintSense(f, key, asc, ascq)
    ensures
      var (h', r) := Sensed(h, maxLun, lun, script);
      var d := h.pipes.dev;
      && r == Ok(Sense(key, asc, ascq))
      && h' == Host(Pipes(d.(log := d.log + [JobOf(h.tag, lun, ASK_SENSE, In(18))]), h.pipes.clock + 3, h.pipes.resets), NextTag(h.tag))
  {
    SenseTransport(h.pipes, JobOf(h.tag, lun, ASK_SENSE, In(18)), script);
    SenseFits(f, key, asc, ascq);
  }

  /** What one refused try leaves: the command and REQUEST SENSE sent once each. */
  predicate OneTry(h: Host, h': Host, lun: byte, cdb: seq<byte>, data: DataPhase) {
    && InSync(h'.pipes.dev) && SameUnit(h.pipes.dev, h'.pipes.dev) && h'.pipes.clock == h.pipes.clock + Ticks(data) + 3
    && h'.pipes.dev.log ==
         h.pipes.dev.log + [JobOf(h.tag, lun, cdb, data)] + [JobOf(NextTag(h.tag), lun, ASK_SENSE, In(18))]
  }

  lemma RefusedSent(h: Host, maxLun: LunMax, lun: byte, cdb: seq<byte>, data: DataPhase, script: Script)
    requires InSync(h.pipes.dev) && Sendable(maxLun, lun, cdb, data) && data != In(0) && data != Out([])
    requires forall k :: h.pipes.clock <= k < h.pipes.clock + Ticks(data) ==> Refusing(script(k))
    ensures
      var (h', r, _) := Sent(h, maxLun, lun, cdb, data, script);
      && r.Ok? && !r.value.passed && InSync(h'.pipes.dev) && h'.pipes.clock == h.pipes.clock + Ticks(data)
      && h'.pipes.dev.log == h.pipes.dev.log + [JobOf(h.tag, lun, cdb, data)] && SameUnit(h.pipes.dev, h'.pipes.dev)
      && h'.tag == NextTag(h.tag)
  {
    RefusedTransport(h.pipes, JobOf(h.tag, lun, cdb, data), data, script);
  }

  lemma TriedIs(
    h: Host, maxLun: LunMax, lun: byte, cdb: seq<byte>, data: DataPhase, script: Script, h1: Host, h2: Host, s: Sense)
    requires
      var (x, r, _) := Sent(h, maxLun, lun, cdb, data, script);
      x == h1 && r.Ok? && !r.value.passed
    requires Sensed(h1, maxLun, lun, script) == (h2, Ok(s))
    ensures
      var (h', t, _) := Tried(h, maxLun, lun, cdb, data, script);
      h' == h2 && t == if s.key == UNIT_ATTENTION then Try.Attention(s) else Gave(Refused(SenseError(s)))
  {
  }

  lemma RefusedTry(
    h: Host, maxLun: LunMax, lun: byte, cdb: seq<byte>, data: DataPhase, script: Script,
    f: Form, key: nibble, asc: byte, ascq: byte)
    requires InSync(h.pipes.dev) && Sendable(maxLun, lun, cdb, data) && data != In(0) && data != Out([]) && ValidForm(f)
    requires Complains(script, h.pipes.clock, data, PrintSense(f, key, asc, ascq))
    ensures
      var (h', t, _) := Tried(h, maxLun, lun, cdb, data, script);
      var s := Sense(key, asc, ascq);
      && OneTry(h, h', lun, cdb, data)
      && t == if key == 6 then Try.Attention(s) else Gave(Refused(SenseError(s)))
  {
    RefusedSent(h, maxLun, lun, cdb, data, script);
    var h1 := Sent(h, maxLun, lun, cdb, data, script).0;
    SensedGives(h1, maxLun, lun, script, f, key, asc, ascq);
    TriedIs(h, maxLun, lun, cdb, data, script, h1, Sensed(h1, maxLun, lun, script).0, Sense(key, asc, ascq));
  }

  // ----- commands -----

  /** One unit attention, and the codes that go with it. */
  datatype Remark = Remark(form: Form, asc: byte, ascq: byte)

  /** From `clock` on, one try after the other is refused with a unit attention. */
  ghost predicate Attentions(script: Script, clock: nat, data: DataPhase, says: seq<Remark>)
    decreases |says|
  {
    says == [] ||
    (ValidForm(says[0].form) && Complains(script, clock, data, PrintSense(says[0].form, 6, says[0].asc, says[0].ascq))
     && Attentions(script, clock + Ticks(data) + 3, data, says[1..]))
  }

  function ClockAfter(clock: nat, data: DataPhase, n: nat): nat
    decreases n
  {
    if n == 0 then clock else ClockAfter(clock + Ticks(data) + 3, data, n - 1)
  }

  type Tryer = Host -> (Host, Try, seq<byte>)

  /** What one more try leaves, whatever it was answered. */
  predicate TriedOnce(h: Host, h': Host, cdb: seq<byte>, data: DataPhase) {
    && InSync(h'.pipes.dev) && SameUnit(h.pipes.dev, h'.pipes.dev) && h'.pipes.clock == h.pipes.clock + Ticks(data) + 3
    && Count(h'.pipes.dev.log, cdb) == Count(h.pipes.dev.log, cdb) + 1
  }

  lemma TryCount(h: Host, h': Host, lun: byte, cdb: seq<byte>, data: DataPhase)
    requires OneTry(h, h', lun, cdb, data) && cdb != ASK_SENSE
    ensures TriedOnce(h, h', cdb, data)
  {
    var log, j, s := h.pipes.dev.log, JobOf(h.tag, lun, cdb, data), JobOf(NextTag(h.tag), lun, ASK_SENSE, In(18));
    assert (log + [j] + [s])[..|log| + 1] == log + [j] && (log + [j])[..|log|] == log;
  }

  /** A try that is refused with a unit attention. */
  ghost predicate Takes(try: Tryer, x: Host, y: Remark, cdb: seq<byte>, data: DataPhase, script: Script) {
    InSync(x.pipes.dev) && ValidForm(y.form) && Complains(script, x.pipes.clock, data, PrintSense(y.form, 6, y.asc, y.ascq)) ==>
      TriedOnce(x, try(x).0, cdb, data) && try(x).1.Attention?
  }

  lemma TrierTakes(
    maxLun: LunMax, lun: byte, cdb: seq<byte>, data: DataPhase, script: Script, x: Host, y: Remark)
    requires Sendable(maxLun, lun, cdb, data) && data != In(0) && data != Out([]) && cdb != ASK_SENSE
    ensures Takes(Trier(maxLun, lun, cdb, data, script), x, y, cdb, data, script)
  {
    if InSync(x.pipes.dev) && ValidForm(y.form) && Complains(script, x.pipes.clock, data, PrintSense(y.form, 6, y.asc, y.ascq)) {
      RefusedTry(x, maxLun, lun, cdb, data, script, y.form, 6, y.asc, y.ascq);
      TryCount(x, Tried(x, maxLun, lun, cdb, data, script).0, lun, cdb, data);
    }
  }

  /** What holds after `n` tries were refused. */
  predicate TriedOften(h: Host, h': Host, cdb: seq<byte>, data: DataPhase, n: nat) {
    && InSync(h'.pipes.dev) && SameUnit(h.pipes.dev, h'.pipes.dev) && h'.pipes.clock == ClockAfter(h.pipes.clock, data, n)
    && Count(h'.pipes.dev.log, cdb) == Count(h.pipes.dev.log, cdb) + n
  }

  /** Unit attentions are tried again, as long as there are tries left. */
  lemma {:induction false} GoesOn(
    try: Tryer, h: Host, cdb: seq<byte>, data: DataPhase, script: Script, says: seq<Remark>, attempts: nat)
    returns (h': Host)
    requires InSync(h.pipes.dev) && forall x, y :: Takes(try, x, y, cdb, data, script)
    requires Attentions(script, h.pipes.clock, data, says) && attempts + |says| <= 3
    ensures TriedOften(h, h', cdb, data, |says|) && Retried(try, h, attempts) == Retried(try, h', attempts + |says|)
    decreases |says|
  {
    if says == [] {
      h' := h;
    } else {
      assert Takes(try, h, says[0], cdb, data, script);
      var (h1, t, got) := try(h);
      RetryStep(try, h, attempts, h1, t, got);
      h' := GoesOn(try, h1, cdb, data, script, says[1..], attempts + 1);
    }
  }

  /** How the try after them ends the command. */
  lemma Ends(
    try: Tryer, h: Host, cdb: seq<byte>, data: DataPhase, script: Script, says: seq<Remark>, h1: Host,
    r: Result<nat, Error>)
    requires TriedOften(h, h1, cdb, data, |says|) && |says| <= 3
    requires Retried(try, h, 0) == Retried(try, h1, |says|)
    requires
      var (h2, t, _) := try(h1);
      && InSync(h2.pipes.dev) && Count(h2.pipes.dev.log, cdb) == Count(h1.pipes.dev.log, cdb) + 1
      && (t.Done? ==> r == Ok(t.moved)) && (t.Gave? ==> r == Err(t.error))
      && (t.Attention? ==> |says| == 3 && r == Err(Refused(SenseError(t.sense))))
    ensures
      var (h', r', _) := Retried(try, h, 0);
      r' == r && InSync(h'.pipes.dev) && Count(h'.pipes.dev.log, cdb) == Count(h.pipes.dev.log, cdb) + |says| + 1
  {
    var (h2, t, got) := try(h1);
    RetryStep(try, h1, |says|, h2, t, got);
  }

  lemma CalmTry(h: Host, maxLun: LunMax, lun: byte, cdb: seq<byte>, data: DataPhase, script: Script)
    requires InSync(h.pipes.dev) && Sendable(maxLun, lun, cdb, data) && DoableJob(h.pipes.dev, Ask(lun, cdb, data))
    requires data != In(0) && data != Out([]) && forall k :: k >= h.pipes.clock ==> Calm(script(k))
    ensures
      var (h', t, _) := Tried(h, maxLun, lun, cdb, data, script);
      && t == Done(DataLen(data)) && InSync(h'.pipes.dev) && Count(h'.pipes.dev.log, cdb) == Count(h.pipes.dev.log, cdb) + 1
  {
    var j := JobOf(h.tag, lun, cdb, data);
    CalmPasses(h.pipes, j, data, script);
    TransportPerforms(h.pipes, j, data, script);
    assert (h.pipes.dev.log + [j])[..|h.pipes.dev.log|] == h.pipes.dev.log;
  }

  lemma CalmLater(
    d: Dev, h: Host, maxLun: LunMax, lun: byte, cdb: seq<byte>, data: DataPhase, script: Script)
    requires DoableJob(d, Ask(lun, cdb, data)) && SameUnit(d, h.pipes.dev)
    requires InSync(h.pipes.dev) && Sendable(maxLun, lun, cdb, data)
    requires data != In(0) && data != Out([]) && forall k :: k >= h.pipes.clock ==> Calm(script(k))
    ensures
      var (h', t, _) := Trier(maxLun, lun, cdb, data, script)(h);
      && t == Done(DataLen(data)) && InSync(h'.pipes.dev) && Count(h'.pipes.dev.log, cdb) == Count(h.pipes.dev.log, cdb) + 1
  {
    CalmTry(h, maxLun, lun, cdb, data, script);
  }

  /** A command that the device can carry out succeeds after up to three unit attentions, sent once
      more than there were. */
  lemma AttentionsPass(
    h: Host, maxLun: LunMax, lun: byte, cdb: seq<byte>, data: DataPhase, script: Script, says: seq<Remark>)
    requires InSync(h.pipes.dev) && Sendable(maxLun, lun, cdb, data) && DoableJob(h.pipes.dev, Ask(lun, cdb, data))
    requires data != In(0) && data != Out([]) && |says| <= 3 && Attentions(script, h.pipes.clock, data, says)
    requires forall k :: k >= ClockAfter(h.pipes.clock, data, |says|) ==> Calm(script(k))
    ensures
      var (h', r, _) := Commanded(h, maxLun, lun, cdb, data, script);
      && r == Ok(DataLen(data)) && InSync(h'.pipes.dev)
      && Count(h'.pipes.dev.log, cdb) == Count(h.pipes.dev.log, cdb) + |says| + 1
  {
    var try := Trier(maxLun, lun, cdb, data, script);
    NotSense(cdb);
    forall x, y ensures Takes(try, x, y, cdb, data, script) { TrierTakes(maxLun, lun, cdb, data, script, x, y); }
    var h1 := GoesOn(try, h, cdb, data, script, says, 0);
    CalmLater(h.pipes.dev, h1, maxLun, lun, cdb, data, script);
    Ends(try, h, cdb, data, script, says, h1, Ok(DataLen(data)));
  }

  /** REQUEST SENSE is no READ or WRITE. */
  lemma NotSense(cdb: seq<byte>)
    ensures DecodeRw(cdb).Some? ==> cdb != ASK_SENSE
  {
  }

  /** A command that is refused for any other reason, or for the fourth time, fails with the error for
      that reason, and is not sent again. */
  lemma TroubleFails(
    h: Host, maxLun: LunMax, lun: byte, cdb: seq<byte>, data: DataPhase, script: Script, says: seq<Remark>,
    t: Trouble, f: Form, key: nibble, asc: byte, ascq: byte)
    requires InSync(h.pipes.dev) && Sendable(maxLun, lun, cdb, data) && cdb != ASK_SENSE
    requires data != In(0) && data != Out([]) && |says| <= 3 && Attentions(script, h.pipes.clock, data, says)
    requires ValidForm(f) && Signals(t, key, asc) && (t == Changed ==> |says| == 3)
    requires Complains(script, ClockAfter(h.pipes.clock, data, |says|), data, PrintSense(f, key, asc, ascq))
    ensures
      var (h', r, _) := Commanded(h, maxLun, lun, cdb, data, script);
      && r == Err(Refused(Kind(t))) && InSync(h'.pipes.dev)
      && Count(h'.pipes.dev.log, cdb) == Count(h.pipes.dev.log, cdb) + |says| + 1
  {
    var try := Trier(maxLun, lun, cdb, data, script);
    forall x, y ensures Takes(try, x, y, cdb, data, script) { TrierTakes(maxLun, lun, cdb, data, script, x, y); }
    var h1 := GoesOn(try, h, cdb, data, script, says, 0);
    RefusedTry(h1, maxLun, lun, cdb, data, script, f, key, asc, ascq);
    TryCount(h1, Tried(h1, maxLun, lun, cdb, data, script).0, lun, cdb, data);
    KindOfTrouble(t, key, asc, ascq);
    Ends(try, h, cdb, data, script, says, h1, Err(Refused(Kind(t))));
  }
}
