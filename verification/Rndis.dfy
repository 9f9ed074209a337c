/** RNDIS packet framing ([MS-RNDIS], section 2.2.14). */
module Rndis {
  import opened Arith
  import opened Bytes

  const MSG_PACKET := 1
  const PACKET_HEADER := 44
  const U32_MAX := 0xffff_ffff

  type Frame = seq<byte>

  /** What `parse_packets` makes of the bytes that are left. */
  datatype Next = Stop(ok: bool) | Go(frame: Frame, len: nat)

  function First(b: seq<byte>): (r: Next)
    ensures r.Go? ==> 0 < r.len <= |b| && r.len >= PACKET_HEADER + |r.frame|
  {
    if |b| < 8 then Stop(true)
    else
      var len := Le32(b, 4);
      if Le32(b, 0) == 0 && len == 0 then Stop(true)
      else if Le32(b, 0) != MSG_PACKET || len < PACKET_HEADER || len > |b| then Stop(false)
      else
        var offset := 8 + Le32(b, 8);
        var end := offset + Le32(b, 12);
        if offset < PACKET_HEADER || end > len then Stop(false) else Go(b[offset..end], len)
  }

  /** `parse_packets`: whether the transfer was well-formed, and the frames emitted. */
  function Parse(b: seq<byte>): (bool, seq<Frame>)
    decreases |b|
  {
    match First(b)
    case Stop(ok) => (ok, [])
    case Go(f, len) =>
      var (ok, rest) := Parse(b[len..]);
      (ok, [f] + rest)
  }

  method Head(b: seq<byte>) returns (r: Next)
    ensures r == First(b)
  {
    if |b| < 8 { return Stop(true); }
    var ty, len := Le32(b, 0), Le32(b, 4);
    if ty == 0 && len == 0 { return Stop(true); }  // nothing but padding follows
    if ty != MSG_PACKET || len < PACKET_HEADER || len > |b| { return Stop(false); }
    var offset := 8 + Le32(b, 8);
    var end := offset + Le32(b, 12);
    if offset < PACKET_HEADER || end > len { return Stop(false); }
    r := Go(b[offset..end], len);
  }

  method ParsePackets(b: seq<byte>) returns (ok: bool, emitted: seq<Frame>)
    ensures (ok, emitted) == Parse(b)
  {
    var rest := b;
    emitted := [];
    assert emitted + Parse(rest).1 == Parse(b).1;
    while true
      invariant Parse(b) == (Parse(rest).0, emitted + Parse(rest).1)
      decreases |rest|
    {
      var next := Head(rest);
      if next.Stop? {
        assert emitted + [] == emitted;
        return next.ok, emitted;
      }
      ghost var after := Parse(rest[next.len..]).1;
      assert emitted + ([next.frame] + after) == emitted + [next.frame] + after;
      emitted := emitted + [next.frame];
      rest := rest[next.len..];
    }
  }

  /** A PACKET message with the frame `f`, wherever in the message the frame is. */
  predicate IsMessage(m: seq<byte>, f: Frame) {
    && 44 <= |m| <= U32_MAX && Le32(m, 0) == 1 && Le32(m, 4) == |m|
    && 44 <= 8 + Le32(m, 8) <= 8 + Le32(m, 8) + Le32(m, 12) <= |m|
    && f == m[8 + Le32(m, 8)..8 + Le32(m, 8) + Le32(m, 12)]
  }

  predicate AreMessages(ms: seq<seq<byte>>, fs: seq<Frame>) {
    |ms| == |fs| && forall i :: 0 <= i < |ms| ==> IsMessage(ms[i], fs[i])
  }

  /** What may follow the messages: less than a header, or zeros. */
  predicate IsTail(t: seq<byte>) {
    |t| < 8 || (Le32(t, 0) == 0 && Le32(t, 4) == 0)
  }

  lemma Le32Prefix(a: seq<byte>, b: seq<byte>, at: nat)
    requires at + 4 <= |a|
    ensures Le32(a + b, at) == Le32(a, at)
  {
  }

  /** The first message of a transfer. */
  lemma ParseFirst(m: seq<byte>, f: Frame, rest: seq<byte>)
    requires IsMessage(m, f)
    ensures First(m + rest) == Go(f, |m|) && (m + rest)[|m|..] == rest
  {
    Le32Prefix(m, rest, 0);
    Le32Prefix(m, rest, 4);
    Le32Prefix(m, rest, 8);
    Le32Prefix(m, rest, 12);
    var lo, hi := 8 + Le32(m, 8), 8 + Le32(m, 8) + Le32(m, 12);
    assert (m + rest)[lo..hi] == m[lo..hi];
  }

  /** Concatenated messages, from the front. */
  function Concat(ms: seq<seq<byte>>): seq<byte> {
    if ms == [] then [] else ms[0] + Concat(ms[1..])
  }

  lemma ConcatFirst(m: seq<byte>, ms: seq<seq<byte>>, tail: seq<byte>)
    ensures Concat([m] + ms) + tail == m + (Concat(ms) + tail)
  {
    assert ([m] + ms)[1..] == ms;
  }

  /** A transfer is well-formed exactly if it is messages and a tail; the frames come out in order. */
  lemma {:induction false} ParseConcat(ms: seq<seq<byte>>, fs: seq<Frame>, tail: seq<byte>)
    requires AreMessages(ms, fs) && IsTail(tail)
    ensures Parse(Concat(ms) + tail) == (true, fs)
  {
    if ms == [] {
      assert Concat(ms) + tail == tail;
    } else {
      assert Concat(ms) + tail == ms[0] + (Concat(ms[1..]) + tail);
      ParseFirst(ms[0], fs[0], Concat(ms[1..]) + tail);
      ParseConcat(ms[1..], fs[1..], tail);
      assert [fs[0]] + fs[1..] == fs;
    }
  }

  lemma FirstIsMessage(b: seq<byte>)
    requires First(b).Go?
    ensures IsMessage(b[..First(b).len], First(b).frame)
  {
    var m, rest := b[..First(b).len], b[First(b).len..];
    assert b == m + rest;
    Le32Prefix(m, rest, 0);
    Le32Prefix(m, rest, 4);
    Le32Prefix(m, rest, 8);
    Le32Prefix(m, rest, 12);
    var lo, hi := 8 + Le32(m, 8), 8 + Le32(m, 8) + Le32(m, 12);
    assert b[lo..hi] == m[lo..hi];
  }

  lemma {:induction false} ParseOnlyConcat(b: seq<byte>) returns (ms: seq<seq<byte>>, tail: seq<byte>)
    requires Parse(b).0
    ensures b == Concat(ms) + tail && AreMessages(ms, Parse(b).1) && IsTail(tail)
    decreases |b|
  {
    if First(b).Stop? {
      ms, tail := [], b;
    } else {
      var len := First(b).len;
      FirstIsMessage(b);
      var rest;
      rest, tail := ParseOnlyConcat(b[len..]);
      ms := [b[..len]] + rest;
      ConcatFirst(b[..len], rest, tail);
      assert b == b[..len] + b[len..];
    }
  }

  predicate LiesAt(b: seq<byte>, f: Frame, at: nat) {
    at + |f| <= |b| && f == b[at..at + |f|]
  }

  lemma LiesFurther(b: seq<byte>, n: nat, f: Frame, at: nat)
    requires n <= |b| && LiesAt(b[n..], f, at)
    ensures LiesAt(b, f, n + at)
  {
    assert b[n..][at..at + |f|] == b[n + at..n + at + |f|];
  }

  lemma FirstLies(b: seq<byte>)
    requires First(b).Go?
    ensures 8 + Le32(b, 8) >= 44 && LiesAt(b, First(b).frame, 8 + Le32(b, 8))
  {
  }

  lemma ParseNext(b: seq<byte>)
    ensures Parse(b).1 == if First(b).Stop? then [] else [First(b).frame] + Parse(b[First(b).len..]).1
  {
  }

  /** Whatever the bytes are, the frames are parts of them, each past a header of its own. */
  lemma {:induction false} FramesInOrder(b: seq<byte>, i: nat) returns (at: nat)
    requires i < |Parse(b).1|
    ensures at >= 44 * (i + 1) && LiesAt(b, Parse(b).1[i], at)
    decreases |b|
  {
    ParseNext(b);
    if i == 0 {
      FirstLies(b);
      at := 8 + Le32(b, 8);
    } else {
      var len := First(b).len;
      at := FramesInOrder(b[len..], i - 1);
      LiesFurther(b, len, Parse(b).1[i], at);
      at := len + at;
    }
  }

  // ----- building -----

  function Build(frame: Frame, padMultiple: nat): seq<byte>
    requires PACKET_HEADER + |frame| <= U32_MAX
  {
    PutLe32(MSG_PACKET) + PutLe32(PACKET_HEADER + |frame|) + PutLe32(PACKET_HEADER - 8) + PutLe32(|frame|)
    + Zeros(PACKET_HEADER - 16) + frame
    + (if padMultiple > 0 && (PACKET_HEADER + |frame|) % padMultiple == 0 then [0] else [])
  }

  method BuildPacket(frame: Frame, padMultiple: nat) returns (b: seq<byte>)
    requires PACKET_HEADER + |frame| <= U32_MAX
    ensures b == Build(frame, padMultiple)
  {
    var total := PACKET_HEADER + |frame|;
    b := [];
    b := b + PutLe32(MSG_PACKET);
    b := b + PutLe32(total);
    b := b + PutLe32(PACKET_HEADER - 8);
    b := b + PutLe32(|frame|);
    b := b + Zeros(PACKET_HEADER - |b|);
    b := b + frame;
    if padMultiple > 0 && total % padMultiple == 0 {
      b := b + [0];
    }
  }

  /** A packet is one message and at most one byte; it ends with a short USB packet. */
  lemma BuildIsMessage(frame: Frame, padMultiple: nat)
    requires PACKET_HEADER + |frame| <= U32_MAX
    ensures
      var b := Build(frame, padMultiple);
      && IsMessage(b[..PACKET_HEADER + |frame|], frame) && |b| - (PACKET_HEADER + |frame|) <= 1
      && (padMultiple >= 2 ==> |b| % padMultiple != 0) && forall k :: 16 <= k < 44 ==> b[k] == 0
  {
    var b := Build(frame, padMultiple);
    var m := b[..PACKET_HEADER + |frame|];
    assert m[0..4] == PutLe32(MSG_PACKET) && m[4..8] == PutLe32(|m|);
    assert m[8..12] == PutLe32(PACKET_HEADER - 8) && m[12..16] == PutLe32(|frame|);
    Le32Put(m, 0, MSG_PACKET);
    Le32Put(m, 4, |m|);
    Le32Put(m, 8, PACKET_HEADER - 8);
    Le32Put(m, 12, |frame|);
    assert m[PACKET_HEADER..] == frame;
    if padMultiple >= 2 && |m| % padMultiple == 0 { OneMoreIsNoMultiple(|m|, padMultiple); }
  }

  /** What is built is parsed. */
  lemma BuildParses(frame: Frame, padMultiple: nat)
    requires PACKET_HEADER + |frame| <= U32_MAX
    ensures Parse(Build(frame, padMultiple)) == (true, [frame])
  {
    BuildIsMessage(frame, padMultiple);
    var b := Build(frame, padMultiple);
    var m, tail := b[..PACKET_HEADER + |frame|], b[PACKET_HEADER + |frame|..];
    assert Concat([m]) == m + Concat([]) == m;
    assert b == Concat([m]) + tail;
    ParseConcat([m], [frame], tail);
  }
}
