/** The bounded queue between the transfer callbacks and the reader of a video stream. */
module UvcPump {
  import opened Wrappers
  import opened Bytes
  import opened UvcAssembler
  import UvcFrames
  import UvcStream
  import UrbModel

  const FRAME_QUEUE := 4

  datatype NextError = StreamError(status: UrbModel.Status) | Timeout

  /** `got` holds some of the frames `emitted`, in order and unaltered; a frame's number tells
      which one it is. */
  predicate Picks(got: seq<Frame>, emitted: seq<Frame>) {
    && (forall i :: 0 <= i < |got| ==> got[i].sequence < |emitted| && emitted[got[i].sequence] == got[i])
    && (forall i, j :: 0 <= i < j < |got| ==> got[i].sequence < got[j].sequence)
  }

  lemma PicksMore(got: seq<Frame>, emitted: seq<Frame>, f: Frame)
    requires Picks(got, emitted) && f.sequence == |emitted|
    ensures Picks(got + [f], emitted + [f]) && Picks(got, emitted + [f])
  {
  }

  /** The first `n` frames of a stream are numbered `0..n`. */
  lemma Numbered(inputs: seq<Input>, maxFrameSize: nat)
    ensures forall i :: 0 <= i < |Feed(New(maxFrameSize), inputs).1| ==> Feed(New(maxFrameSize), inputs).1[i].sequence == i
  {
    forall i | 0 <= i < |Feed(New(maxFrameSize), inputs).1|
      ensures Feed(New(maxFrameSize), inputs).1[i].sequence == i
    {
      var k := UvcStream.AnyStream(inputs, maxFrameSize, i);
    }
  }

  class Pump {
    const assembler: Assembler
    const maxFrameSize: nat
    var queue: seq<Frame>
    var dropped: nat
    var stopped: bool
    var failure: Option<UrbModel.Status>
    ghost var inputs: seq<Input>
    ghost var delivered: seq<Frame>
    ghost var emitted: seq<Frame>

    /** Every frame emitted was delivered, is queued, or was counted as dropped. */
    ghost predicate Accounted()
      reads this
    {
      && |queue| <= 4
      && Picks(delivered + queue, emitted)
      && |emitted| == |delivered| + |queue| + dropped
    }

    ghost predicate Valid()
      reads this, assembler
    {
      && Accounted()
      && assembler.View() == Feed(New(maxFrameSize), inputs).0
      && emitted == Feed(New(maxFrameSize), inputs).1
    }

    constructor (maxFrameSize: nat)
      ensures Valid() && fresh(assembler) && inputs == [] && delivered == [] && dropped == 0 && queue == []
    {
      assembler := new Assembler(maxFrameSize);
      this.maxFrameSize := maxFrameSize;
      queue, dropped, stopped, failure := [], 0, false, None;
      inputs, delivered, emitted := [], [], [];
    }

    /** `emit`: `try_send`, counting a frame that finds the queue full. */
    method Emit(f: Frame)
      requires Accounted() && f.sequence == |emitted|
      modifies this`queue, this`dropped, this`emitted
      ensures Accounted() && emitted == old(emitted) + [f]
      ensures if |old(queue)| < 4 then queue == old(queue) + [f] && dropped == old(dropped)
              else queue == old(queue) && dropped == old(dropped) + 1
    {
      PicksMore(delivered + queue, emitted, f);
      assert delivered + (queue + [f]) == delivered + queue + [f];
      emitted := emitted + [f];
      if |queue| < FRAME_QUEUE {
        queue := queue + [f];
      } else {
        dropped := dropped + 1;
      }
    }

    method EmitAll(fs: seq<Frame>)
      requires Accounted() && forall i :: 0 <= i < |fs| ==> fs[i].sequence == |emitted| + i
      modifies this`queue, this`dropped, this`emitted
      ensures Accounted() && emitted == old(emitted) + fs && old(dropped) <= dropped && old(queue) <= queue
      ensures dropped > old(dropped) ==> |queue| == FRAME_QUEUE
    {
      for i := 0 to |fs|
        invariant Accounted() && emitted == old(emitted) + fs[..i] && old(dropped) <= dropped && old(queue) <= queue
        invariant dropped > old(dropped) ==> |queue| == FRAME_QUEUE
      {
        Emit(fs[i]);
      }
    }

    /** A completed bulk transfer's payload goes into the assembler, and what it emits into the queue. */
    method Deliver(data: seq<byte>)
      requires Valid()
      modifies this`queue, this`dropped, this`emitted, this`inputs, assembler
      ensures Valid() && inputs == old(inputs) + [Payload(data)]
      ensures old(dropped) <= dropped && old(queue) <= queue && (dropped > old(dropped) ==> |queue| == 4)
    {
      ghost var next := inputs + [Payload(data)];
      FeedLast(New(maxFrameSize), inputs, Payload(data));
      Numbered(next, maxFrameSize);
      var fs := assembler.Payload(data);
      assert forall i :: 0 <= i < |fs| ==> fs[i] == (emitted + fs)[|emitted| + i];
      EmitAll(fs);
      inputs := next;
    }

    method Lose()
      requires Valid()
      modifies this`inputs, assembler
      ensures Valid() && inputs == old(inputs) + [LostPacket]
    {
      FeedLast(New(maxFrameSize), inputs, LostPacket);
      assert emitted + [] == emitted;
      assembler.MarkLost();
      inputs := inputs + [LostPacket];
    }

    /** `on_complete` of a bulk transfer; says whether the transfer is submitted again. */
    method OnComplete(status: UrbModel.Status, data: seq<byte>) returns (resubmit: bool)
      requires Valid()
      modifies this`queue, this`dropped, this`emitted, this`inputs, this`failure, assembler
      ensures Valid()
      ensures inputs == old(inputs) + match status {
          case Completed => [Payload(data)]
          case Error | Overflow | TimedOut => [LostPacket]
          case Cancelled | Stall | NoDevice => []
        }
      ensures failure == if status.Stall? || status.NoDevice? then Some(status) else old(failure)
      ensures resubmit <==> !stopped && !status.Cancelled? && !status.Stall? && !status.NoDevice?
    {
      match status {
        case Completed => Deliver(data);
        case Cancelled => return false;
        case Error | Overflow | TimedOut => Lose();
        case Stall | NoDevice =>
          failure := Some(status);
          return false;
      }
      resubmit := !stopped;
    }

    /** `next`, with the waiting left out: an empty queue is a time-out. */
    method Next() returns (r: Result<Frame, NextError>)
      requires Valid()
      modifies this`queue, this`delivered
      ensures Valid()
      ensures old(queue) != [] ==>
        r == Ok(old(queue)[0]) && queue == old(queue)[1..] && delivered == old(delivered) + [old(queue)[0]]
      ensures old(queue) == [] ==>
        && queue == [] && delivered == old(delivered)
        && r == if failure.Some? then Err(StreamError(failure.value)) else Err(Timeout)
    {
      if queue != [] {
        r := Ok(queue[0]);
        assert delivered + queue == delivered + [queue[0]] + queue[1..];
        delivered := delivered + [queue[0]];
        queue := queue[1..];
      } else {
        r := Err(if failure.Some? then StreamError(failure.value) else Timeout);
      }
    }
  }

  /** What a reader can rely on: each delivered frame is the one its number names among the frames
      the payloads make up, numbers only grow, and once the queue is drained the numbers missing
      are exactly the frames dropped. */
  lemma DroppedAreTheGaps(p: Pump, i: nat)
    requires p.Valid() && i < |p.delivered|
    ensures
      var expected := UvcFrames.Expected(p.inputs, p.maxFrameSize);
      var f := p.delivered[i];
      && f.sequence < |expected| && expected[f.sequence] == f && i <= f.sequence <= i + p.dropped
      && |expected| == |p.delivered| + |p.queue| + p.dropped
  {
    UvcFrames.FeedMeets(p.inputs, p.maxFrameSize);
    var got := p.delivered + p.queue;
    assert got[i] == p.delivered[i];
    NumbersGrow(got, p.emitted, i);
  }

  lemma {:induction false} NumbersGrow(got: seq<Frame>, emitted: seq<Frame>, i: nat)
    requires Picks(got, emitted) && i < |got|
    ensures i <= got[i].sequence && |got| - i <= |emitted| - got[i].sequence
  {
    for k := 0 to i
      invariant k <= got[k].sequence
    {
      assert got[k].sequence < got[k + 1].sequence;
    }
    var k := |got| - 1;
    while k > i
      invariant i <= k < |got| && |got| - k <= |emitted| - got[k].sequence
    {
      assert got[k - 1].sequence < got[k].sequence;
      k := k - 1;
    }
  }
}
