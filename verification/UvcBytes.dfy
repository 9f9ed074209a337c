/** What the assembler makes of any bytes, said of the bytes themselves. */
module UvcBytes {
  import opened Wrappers
  import opened Bytes
  import opened UvcAssembler
  import opened UvcFrames
  import opened UvcStream

  // ----- a payload (UVC 1.5, section 2.4.3.3): length of the header, flags, options, data -----

  /** No packet, or an empty one. */
  predicate Nothing(i: Input) {
    i.Payload? && |i.bytes| < 2
  }

  /** A packet that was lost, or has no header that fits it. */
  predicate Broken(i: Input) {
    i.LostPacket? || (|i.bytes| >= 2 && !(2 <= i.bytes[0] <= |i.bytes|))
  }

  predicate Sound(i: Input) {
    !Nothing(i) && !Broken(i)
  }

  function Flags(i: Input): nat
    requires Sound(i)
  {
    i.bytes[1]
  }

  function FrameId(i: Input): nat
    requires Sound(i)
  {
    Flags(i) % 2
  }

  predicate EndOfFrame(i: Input)
    requires Sound(i)
  {
    Flags(i) % 4 >= 2
  }

  /** The presentation time, if the header has one. */
  function Time(i: Input): Option<nat>
    requires Sound(i)
  {
    if Flags(i) % 8 < 4 || i.bytes[0] < 6 then None
    else Some(Number(i.bytes[2], i.bytes[3], i.bytes[4], i.bytes[5]))
  }

  /** The device reports an error. */
  predicate Reports(i: Input)
    requires Sound(i)
  {
    Flags(i) % 128 >= 64
  }

  lemma BitsAs(flags: byte)
    ensures (flags % 4 >= 2 <==> Bit(flags, 2)) && (flags % 8 < 4 <==> !Bit(flags, 4)) && (flags % 128 >= 64 <==> Bit(flags, 0x40))
  {
  }

  lemma KindAs(i: Input)
    ensures (Nothing(i) <==> Decode(i) == None) && (Broken(i) <==> Decode(i) == Some(Damage))
    ensures Sound(i) <==> Decode(i).Some? && Decode(i).value.Good?
  {
  }

  lemma DecodesAs(i: Input)
    ensures Nothing(i) <==> Decode(i) == None
    ensures Broken(i) <==> Decode(i) == Some(Damage)
    ensures Sound(i) ==> Decode(i) == Some(Good(FrameId(i), EndOfFrame(i), Reports(i), Time(i), i.bytes[i.bytes[0]..]))
  {
    KindAs(i);
    if Sound(i) { BitsAs(i.bytes[1]); }
  }

  // ----- the runs of a stream -----

  predicate Headed(g: seq<Input>) {
    g != [] && Sound(g[0])
  }

  /** Maximal runs of one frame identifier; what is broken belongs to the run it falls into. */
  function InputRuns(inputs: seq<Input>): (gs: seq<seq<Input>>)
    ensures forall k :: 0 <= k < |gs| ==> Headed(gs[k])
  {
    if inputs == [] then []
    else
      var gs := InputRuns(inputs[..|inputs| - 1]);
      var i := inputs[|inputs| - 1];
      var n := |gs| - 1;
      if Nothing(i) then gs
      else if gs == [] then (if Broken(i) then [] else [[i]])
      else if !Broken(i) && FrameId(i) != FrameId(gs[n][0]) then gs + [[i]]
      else gs[n := gs[n] + [i]]
  }

  /** The runs of events are those of the inputs. */
  predicate Matched(es: seq<seq<Event>>, gs: seq<seq<Input>>) {
    |es| == |gs| && forall k :: 0 <= k < |gs| ==> es[k] == Decodes(gs[k]) && Headed(gs[k]) && AllHeard(gs[k])
  }

  predicate AllHeard(g: seq<Input>) {
    forall i :: 0 <= i < |g| ==> !Nothing(g[i])
  }

  lemma {:induction false} HeardAll(g: seq<Input>)
    requires AllHeard(g)
    ensures |Decodes(g)| == |g| && forall i :: 0 <= i < |g| ==> Decode(g[i]) == Some(Decodes(g)[i])
  {
    if g != [] {
      var n := |g| - 1;
      HeardAll(g[..n]);
      DecodesAs(g[n]);
      forall i | 0 <= i < n ensures g[..n][i] == g[i] {}
    }
  }

  lemma MatchedMore(es: seq<seq<Event>>, gs: seq<seq<Input>>, i: Input, e: Event)
    requires Matched(es, gs) && Decode(i) == Some(e)
    ensures Sound(i) ==> Matched(es + [[e]], gs + [[i]])
    ensures gs != [] ==> Matched(es[|es| - 1 := es[|es| - 1] + [e]], gs[|gs| - 1 := gs[|gs| - 1] + [i]])
  {
    DecodesAs(i);
    DecodesLast([], i);
    assert [] + [i] == [i] && [] + [e] == [e];
    if gs != [] {
      var g := gs[|gs| - 1];
      DecodesLast(g, i);
      forall k | 0 <= k < |g| + 1 ensures !Nothing((g + [i])[k]) {}
    }
  }

  /** The first payload of a run says what it is a run of. */
  lemma SameFid(es: seq<seq<Event>>, gs: seq<seq<Input>>)
    requires Matched(es, gs) && gs != []
    ensures es != [] && es[|es| - 1] != [] && es[|es| - 1][0].Good? && es[|es| - 1][0].fid == FrameId(gs[|gs| - 1][0])
  {
    HeardAll(gs[|gs| - 1]);
    DecodesAs(gs[|gs| - 1][0]);
  }

  lemma InputsNext(init: seq<Input>, i: Input)
    ensures
      var gs: seq<seq<Input>> := InputRuns(init);
      var n := |gs| - 1;
      InputRuns(init + [i]) ==
        if Nothing(i) then gs
        else if gs == [] then (if Broken(i) then [] else [[i]])
        else if !Broken(i) && FrameId(i) != FrameId(gs[n][0]) then gs + [[i]]
        else gs[n := gs[n] + [i]]
  {
    assert (init + [i])[..|init|] == init;
  }

  lemma StepMatch(init: seq<Input>, i: Input)
    requires Matched(Runs(Decodes(init)), InputRuns(init))
    ensures Matched(Runs(Decodes(init + [i])), InputRuns(init + [i]))
  {
    DecodesLast(init, i);
    KindAs(i);
    InputsNext(init, i);
    if !Nothing(i) { EventMatch(Decodes(init), InputRuns(init), i); }
  }

  lemma EventMatch(es: seq<Event>, gs: seq<seq<Input>>, i: Input)
    requires Matched(Runs(es), gs) && !Nothing(i)
    ensures Decode(i).Some?
    ensures
      var n := |gs| - 1;
      Matched(Runs(es + [Decode(i).value]),
        if gs == [] then (if Broken(i) then [] else [[i]])
        else if !Broken(i) && FrameId(i) != FrameId(gs[n][0]) then gs + [[i]]
        else gs[n := gs[n] + [i]])
  {
    DecodesAs(i);
    var e := Decode(i).value;
    RunsNext(es, e);
    MatchedMore(Runs(es), gs, i, e);
    if gs == [] {
      assert Runs(es) + [[e]] == [[e]] && gs + [[i]] == [[i]];
    } else {
      SameFid(Runs(es), gs);
    }
  }

  lemma {:induction false} RunsMatch(inputs: seq<Input>)
    ensures Matched(Runs(Decodes(inputs)), InputRuns(inputs))
  {
    if inputs != [] {
      var n := |inputs| - 1;
      RunsMatch(inputs[..n]);
      StepMatch(inputs[..n], inputs[n]);
      InitLast(inputs);
    }
  }

  // ----- one run -----

  predicate Ends(g: seq<Input>) {
    exists k :: 0 <= k < |g| && Sound(g[k]) && EndOfFrame(g[k])
  }

  /** A run up to the first payload that ends its frame. */
  function UptoEnd(g: seq<Input>): seq<Input> {
    if g == [] || !Ends(g[..|g| - 1]) then g else UptoEnd(g[..|g| - 1])
  }

  lemma EndsAs(g: seq<Input>)
    requires AllHeard(g)
    ensures HasEof(Decodes(g)) <==> Ends(g)
  {
    HeardAll(g);
    forall k | 0 <= k < |g| ensures Sound(g[k]) && EndOfFrame(g[k]) <==> Decodes(g)[k].Good? && Decodes(g)[k].eof { DecodesAs(g[k]); }
  }

  lemma {:induction false} UptoEndAs(g: seq<Input>)
    requires AllHeard(g)
    ensures AllHeard(UptoEnd(g)) && UptoEof(Decodes(g)) == Decodes(UptoEnd(g))
  {
    if g != [] {
      var init := g[..|g| - 1];
      HeardAll(g);
      HeardAll(init);
      assert Decodes(g)[..|g| - 1] == Decodes(init);
      EndsAs(init);
      UptoEndAs(init);
    }
  }

  /** Every payload is sound and free of an error report. */
  predicate Faultless(g: seq<Input>) {
    forall k :: 0 <= k < |g| ==> Sound(g[k]) && !Reports(g[k])
  }

  /** All that follows the headers. */
  function Payloads(g: seq<Input>): seq<byte> {
    if g == [] then []
    else
      var i := g[|g| - 1];
      Payloads(g[..|g| - 1]) + if Sound(i) then i.bytes[i.bytes[0]..] else []
  }

  function FirstTime(g: seq<Input>): Option<nat> {
    if g == [] then None
    else if FirstTime(g[..|g| - 1]).Some? then FirstTime(g[..|g| - 1])
    else if Sound(g[|g| - 1]) then Time(g[|g| - 1])
    else None
  }

  predicate Same(es: seq<Event>, g: seq<Input>) {
    (Clean(es) <==> Faultless(g)) && Data(es) == Payloads(g) && Pts(es) == FirstTime(g)
  }

  lemma FaultlessLast(g: seq<Input>, i: Input)
    ensures Faultless(g + [i]) <==> Faultless(g) && Sound(i) && !Reports(i)
  {
    var all := g + [i];
    assert all[|g|] == i && forall k :: 0 <= k < |g| ==> all[k] == g[k];
  }

  lemma SameLast(es: seq<Event>, g: seq<Input>, i: Input)
    requires Same(es, g) && !Nothing(i)
    ensures Decode(i).Some? && Same(es + [Decode(i).value], g + [i])
  {
    DecodesAs(i);
    CleanLast(es, Decode(i).value);
    FaultlessLast(g, i);
    assert (g + [i])[..|g|] == g && (es + [Decode(i).value])[..|es|] == es;
  }

  lemma {:induction false} RunAs(g: seq<Input>)
    requires AllHeard(g)
    ensures Same(Decodes(g), g)
  {
    if g != [] {
      var n := |g| - 1;
      RunAs(g[..n]);
      SameLast(Decodes(g[..n]), g[..n], g[n]);
      DecodesLast(g[..n], g[n]);
      InitLast(g);
    }
  }

  /** Any inputs whatever, and frame `i` of those that come out: it has number `i`, and comes of the
      `k`-th run of payloads, not the first.  It is neither empty nor over twice the frame size, and
      has no error exactly if all payloads of the run, up to the one that ends the frame, are sound,
      none of them has bit 6 set, and they fit; then it is all their data. */
  lemma AnyBytes(inputs: seq<Input>, maxFrameSize: nat, i: nat) returns (k: nat)
    requires i < |Feed(New(maxFrameSize), inputs).1|
    ensures 0 < k < |InputRuns(inputs)|
    ensures
      var f := Feed(New(maxFrameSize), inputs).1[i];
      var g := UptoEnd(InputRuns(inputs)[k]);
      var cap := if maxFrameSize == 0 then 2 else 2 * maxFrameSize;
      && f.sequence == i && 0 < |f.data| <= cap && f.pts == FirstTime(g)
      && (!f.error <==> Faultless(g) && |Payloads(g)| <= cap)
      && (!f.error ==> f.data == Payloads(g))
  {
    RunsMatch(inputs);
    k := AnyStream(inputs, maxFrameSize, i);
    UptoEndAs(InputRuns(inputs)[k]);
    RunAs(UptoEnd(InputRuns(inputs)[k]));
  }
}
