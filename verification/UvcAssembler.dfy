/** Reassembly of UVC video frames from payloads (UVC 1.5, section 2.4.3.3). */
module UvcAssembler {
  import opened Wrappers
  import opened Bytes

  datatype Frame = Frame(data: seq<byte>, sequence: nat, pts: Option<nat>, error: bool)

  /** What arrives: one payload, or the news that a packet was lost. */
  datatype Input = Payload(bytes: seq<byte>) | LostPacket

  /** What a payload header says. */
  datatype Event =
    | Good(fid: nat, eof: bool, err: bool, pts: Option<nat>, data: seq<byte>)
    | Damage

  predicate Bit(flags: byte, weight: nat)
    requires weight > 0
  {
    flags / weight % 2 == 1
  }

  /** The header of an input; nothing for an empty packet. */
  function Decode(i: Input): Option<Event> {
    match i
    case LostPacket => Some(Damage)
    case Payload(p) =>
      if |p| < 2 then None
      else if p[0] < 2 || p[0] > |p| then Some(Damage)
      else Some(Good(p[1] % 2, Bit(p[1], 2), Bit(p[1], 0x40),
                     if Bit(p[1], 4) && p[0] >= 6 then Some(Le32(p, 2)) else None, p[p[0]..]))
  }

  function Decodes(inputs: seq<Input>): seq<Event> {
    if inputs == [] then []
    else
      var init := Decodes(inputs[..|inputs| - 1]);
      match Decode(inputs[|inputs| - 1])
      case None => init
      case Some(e) => init + [e]
  }

  /** The fields of the assembler. */
  datatype Asm = Asm(
    current: Option<(Frame, bool)>, lastFid: Option<nat>, atBoundary: bool, afterEof: bool,
    sequence: nat, maxFrameSize: nat)

  function New(maxFrameSize: nat): Asm {
    Asm(None, None, false, false, 0, maxFrameSize)
  }

  function Lost(a: Asm): Asm {
    match a.current
    case None => a
    case Some((f, whole)) => a.(current := Some((f.(error := true), whole)))
  }

  function Finish(a: Asm): (Asm, seq<Frame>) {
    var b := a.(current := None);
    match a.current
    case None => (b, [])
    case Some((f, whole)) =>
      if whole && f.data != [] then (b.(sequence := a.sequence + 1), [f.(sequence := a.sequence)]) else (b, [])
  }

  function Cap(maxFrameSize: nat): nat {
    (if maxFrameSize > 1 then maxFrameSize else 1) * 2
  }

  /** One more payload of the frame being built. */
  function Grow(f: Frame, e: Event, maxFrameSize: nat): Frame {
    match e
    case Damage => f.(error := true)
    case Good(_, _, err, pts, data) =>
      var g := f.(error := f.error || err, pts := if f.pts.Some? then f.pts else pts);
      if |f.data| + |data| > Cap(maxFrameSize) then g.(error := true) else g.(data := f.data + data)
  }

  const NewFrame := Frame([], 0, None, false)

  /** A payload whose FID differs from the last one closes the frame before it. */
  function Turn(a: Asm, fid: nat): (Asm, seq<Frame>) {
    if a.lastFid.Some? && a.lastFid.value != fid then
      var (b, out) := Finish(a);
      (b.(atBoundary := true, afterEof := false, lastFid := Some(fid)), out)
    else (a.(lastFid := Some(fid)), [])
  }

  /** The rest of `payload`: start or grow the frame, and close it on EOF. */
  function Extend(a: Asm, e: Event): (Asm, seq<Frame>)
    requires e.Good?
  {
    if a.afterEof then (a, [])
    else
      var (f, whole) := a.current.GetOr((NewFrame, a.atBoundary));
      var b := a.(current := Some((Grow(f, e, a.maxFrameSize), whole)));
      if e.eof then
        var (c, out) := Finish(b);
        (c.(atBoundary := true, afterEof := true), out)
      else (b, [])
  }

  /** `payload`, on a header already decoded. */
  function Take(a: Asm, e: Event): (Asm, seq<Frame>) {
    if e.Damage? then (Lost(a), [])
    else
      var (b, out) := Turn(a, e.fid);
      var (c, more) := Extend(b, e);
      (c, out + more)
  }

  function Step(a: Asm, i: Input): (Asm, seq<Frame>) {
    match Decode(i)
    case None => (a, [])
    case Some(e) => Take(a, e)
  }

  function Feed(a: Asm, inputs: seq<Input>): (Asm, seq<Frame>) {
    if inputs == [] then (a, [])
    else
      var (b, out) := Feed(a, inputs[..|inputs| - 1]);
      var (c, more) := Step(b, inputs[|inputs| - 1]);
      (c, out + more)
  }

  lemma FeedLast(a: Asm, inputs: seq<Input>, i: Input)
    ensures
      var (b, out) := Feed(a, inputs);
      var (c, more) := Step(b, i);
      Feed(a, inputs + [i]) == (c, out + more)
  {
    assert (inputs + [i])[..|inputs|] == inputs;
  }

  // ----- the assembler as the code has it -----

  class Assembler {
    var current: Option<(Frame, bool)>
    var lastFid: Option<nat>
    var atBoundary: bool
    var afterEof: bool
    var sequence: nat
    const maxFrameSize: nat

    ghost function View(): Asm
      reads this
    {
      Asm(current, lastFid, atBoundary, afterEof, sequence, maxFrameSize)
    }

    constructor (maxFrameSize: nat)
      ensures View() == New(maxFrameSize)
    {
      this.maxFrameSize := maxFrameSize;
      current, lastFid, atBoundary, afterEof, sequence := None, None, false, false, 0;
    }

    method MarkLost()
      modifies this
      ensures View() == Lost(old(View()))
    {
      if current.Some? {
        var (f, whole) := current.value;
        current := Some((f.(error := true), whole));
      }
    }

    method Payload(p: seq<byte>) returns (emitted: seq<Frame>)
      modifies this
      ensures (View(), emitted) == Step(old(View()), Input.Payload(p))
    {
      emitted := [];
      if |p| < 2 { return; }
      var hlen := p[0];
      var flags := p[1];
      if hlen < 2 || hlen > |p| {
        MarkLost();
        return;
      }
      var fid := flags % 2;
      var eof := flags / 2 % 2 == 1;
      var pts := if flags / 4 % 2 == 1 && hlen >= 6 then Some(Le32(p, 2)) else None;
      var err := flags / 0x40 % 2 == 1;
      var data := p[hlen..];

      emitted := TurnTo(fid);
      var more := ExtendFrame(eof, err, pts, data, fid);
      emitted := emitted + more;
    }

    method TurnTo(fid: nat) returns (emitted: seq<Frame>)
      modifies this
      ensures (View(), emitted) == Turn(old(View()), fid)
    {
      emitted := [];
      if lastFid.Some? && lastFid.value != fid {
        emitted := FinishFrame();
        atBoundary := true;
        afterEof := false;
      }
      lastFid := Some(fid);
    }

    method ExtendFrame(eof: bool, err: bool, pts: Option<nat>, data: seq<byte>, ghost fid: nat) returns (emitted: seq<Frame>)
      modifies this
      ensures (View(), emitted) == Extend(old(View()), Good(fid, eof, err, pts, data))
    {
      emitted := [];
      if afterEof { return; }
      if current.None? {
        current := Some((NewFrame, atBoundary));
      }
      var (frame, whole) := current.value;
      frame := frame.(error := frame.error || err);
      if frame.pts.None? {
        frame := frame.(pts := pts);
      }
      if |frame.data| + |data| > (if maxFrameSize > 1 then maxFrameSize else 1) * 2 {
        frame := frame.(error := true);  // more than the cap: left out
      } else {
        frame := frame.(data := frame.data + data);
      }
      current := Some((frame, whole));
      if eof {
        emitted := FinishFrame();
        atBoundary := true;
        afterEof := true;
      }
    }

    method FinishFrame() returns (emitted: seq<Frame>)
      modifies this`current, this`sequence
      ensures (View(), emitted) == Finish(old(View()))
    {
      emitted := [];
      if current.Some? {
        var (frame, whole) := current.value;
        current := None;
        if whole && frame.data != [] {
          emitted := [frame.(sequence := sequence)];
          sequence := sequence + 1;
        }
      }
    }
  }
}
