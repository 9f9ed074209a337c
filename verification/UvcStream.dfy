/** What follows for any stream of payloads, and for one that a packetiser made. */
module UvcStream {
  import opened Wrappers
  import opened Bytes
  import opened UvcAssembler
  import opened UvcFrames

  // ----- the runs are the stream -----

  function DropDamage(es: seq<Event>): seq<Event> {
    if es != [] && es[0].Damage? then DropDamage(es[1..]) else es
  }

  lemma {:induction false} DropDamageLast(es: seq<Event>, e: Event)
    ensures DropDamage(es + [e]) == if DropDamage(es) == [] && e.Damage? then [] else DropDamage(es) + [e]
  {
    if es == [] {
      assert es + [e] == [e];
      assert [e][1..] == [];
    } else if es[0].Damage? {
      DropDamageLast(es[1..], e);
      assert (es + [e])[1..] == es[1..] + [e];
    }
  }

  predicate OtherFid(g: seq<Event>, h: seq<Event>) {
    g != [] && h != [] && g[0].Good? && h[0].Good? && g[0].fid != h[0].fid
  }

  ghost predicate Alternate(gs: seq<seq<Event>>) {
    forall i, j :: 0 <= i < j < |gs| && j == i + 1 ==> OtherFid(gs[i], gs[j])
  }

  lemma RunsNext(es: seq<Event>, e: Event)
    ensures
      var gs: seq<seq<Event>> := Runs(es);
      var n := |gs| - 1;
      Runs(es + [e]) ==
        if gs == [] then (if e.Damage? then [] else [[e]])
        else if e.Good? && e.fid != gs[n][0].fid then gs + [[e]]
        else gs[n := gs[n] + [e]]
  {
    assert (es + [e])[..|es|] == es;
  }

  /** One more element at the end of the last list. */
  lemma FlattenGrow(gs: seq<seq<Event>>, e: Event)
    requires gs != []
    ensures var n := |gs| - 1; Flatten(gs[n := gs[n] + [e]]) == Flatten(gs) + [e]
  {
    var n := |gs| - 1;
    var next := gs[n := gs[n] + [e]];
    assert next[..n] == gs[..n];
    Assoc(Flatten(gs[..n]), gs[n], [e]);
  }

  /** Adding the event `e` to the runs. */
  lemma RunsGrow(es: seq<Event>, e: Event)
    requires Alternate(Runs(es))
    ensures Alternate(Runs(es + [e]))
    ensures Flatten(Runs(es + [e])) == if Runs(es) == [] && e.Damage? then [] else Flatten(Runs(es)) + [e]
  {
    RunsNext(es, e);
    var gs: seq<seq<Event>> := Runs(es);
    if gs == [] {
      FlattenLast([], [e]);
      assert [] + [[e]] == [[e]] && [] + [e] == [e];
    } else {
      FlattenLast(gs, [e]);
      FlattenGrow(gs, e);
    }
  }

  lemma {:induction false} RunsFlat(es: seq<Event>)
    ensures Flatten(Runs(es)) == DropDamage(es) && (Runs(es) == [] <==> DropDamage(es) == []) && Alternate(Runs(es))
  {
    if es != [] {
      var init, e := es[..|es| - 1], es[|es| - 1];
      RunsFlat(init);
      DropDamageLast(init, e);
      assert es == init + [e];
      RunsGrow(init, e);
    }
  }

  // ----- any stream -----

  predicate Clean(g: seq<Event>) {
    forall i :: 0 <= i < |g| ==> g[i].Good? && !g[i].err
  }

  function Data(g: seq<Event>): seq<byte> {
    if g == [] then []
    else Data(g[..|g| - 1]) + match g[|g| - 1] { case Damage => [] case Good(_, _, _, _, d) => d }
  }

  function Pts(g: seq<Event>): Option<nat> {
    if g == [] then None
    else if Pts(g[..|g| - 1]).Some? then Pts(g[..|g| - 1])
    else match g[|g| - 1] { case Damage => None case Good(_, _, _, p, _) => p }
  }

  /** A frame without an error holds all the data of its run; it has one exactly if the run is
      damaged or too long.  In no case does it outgrow the cap. */
  lemma {:induction false} BuildWhole(g: seq<Event>, maxFrameSize: nat)
    ensures
      var f := Build(g, maxFrameSize);
      && (!f.error <==> Clean(g) && |Data(g)| <= Cap(maxFrameSize))
      && (!f.error ==> f.data == Data(g))
      && |f.data| <= Cap(maxFrameSize) && f.pts == Pts(g)
  {
    if g == [] {
    } else {
      var init := g[..|g| - 1];
      BuildWhole(init, maxFrameSize);
      assert Clean(g) <==> Clean(init) && g[|g| - 1].Good? && !g[|g| - 1].err by {
        assert forall i :: 0 <= i < |init| ==> init[i] == g[i];
      }
    }
  }

  predicate Undamaged(g: seq<Event>) {
    forall i :: 0 <= i < |g| ==> g[i].Good?
  }

  lemma CleanLast(g: seq<Event>, e: Event)
    ensures Clean(g + [e]) <==> Clean(g) && e.Good? && !e.err
    ensures Undamaged(g + [e]) <==> Undamaged(g) && e.Good?
  {
    var all := g + [e];
    assert all[|g|] == e && forall i :: 0 <= i < |g| ==> all[i] == g[i];
  }

  /** The device's own error flag costs no data. */
  lemma {:induction false} BuildUndamaged(g: seq<Event>, maxFrameSize: nat)
    requires Undamaged(g) && |Data(g)| <= Cap(maxFrameSize)
    ensures Build(g, maxFrameSize).data == Data(g)
  {
    if g != [] { BuildUndamaged(g[..|g| - 1], maxFrameSize); }
  }

  /** The run that frame number `i` was built from. */
  function RunOf(gs: seq<seq<Event>>, maxFrameSize: nat, i: nat): (k: nat)
    requires i < |Frames(gs, maxFrameSize)|
    ensures 0 < k < |gs| && Frames(gs, maxFrameSize)[i] == Build(UptoEof(gs[k]), maxFrameSize).(sequence := i)
    ensures Frames(gs, maxFrameSize)[i].data != []
    ensures i == |Frames(gs[..k], maxFrameSize)|
  {
    var n := |gs| - 1;
    if i < |Frames(gs[..n], maxFrameSize)| then
      var k := RunOf(gs[..n], maxFrameSize, i);
      assert gs[..n][..k] == gs[..k];
      k
    else n
  }

  /** Frames come out numbered 0, 1, 2, ..., none empty, none over the cap; each is a run of the
      payloads after the first run, and if it has no error it is all the data of that run. */
  lemma AnyStream(inputs: seq<Input>, maxFrameSize: nat, i: nat) returns (k: nat)
    requires i < |Feed(New(maxFrameSize), inputs).1|
    ensures
      var gs: seq<seq<Event>> := Runs(Decodes(inputs));
      var f := Feed(New(maxFrameSize), inputs).1[i];
      && 0 < k < |gs| && i == |Frames(gs[..k], maxFrameSize)|
      && f.sequence == i && 0 < |f.data| <= Cap(maxFrameSize)
      && f.pts == Pts(UptoEof(gs[k]))
      && (!f.error <==> Clean(UptoEof(gs[k])) && |Data(UptoEof(gs[k]))| <= Cap(maxFrameSize))
      && (!f.error ==> f.data == Data(UptoEof(gs[k])))
  {
    FeedMeets(inputs, maxFrameSize);
    var gs: seq<seq<Event>> := Runs(Decodes(inputs));
    k := RunOf(Closed(gs), maxFrameSize, i);
    assert Closed(gs)[..k] == gs[..k];
    BuildWhole(UptoEof(gs[k]), maxFrameSize);
  }

  // ----- a packetiser -----

  /** One payload: empty packets before it, then a header of any optional fields and its data. */
  datatype Chunk = Chunk(
    gaps: seq<seq<byte>>, pts: Option<nat>, extra: seq<byte>, reserved: nat, err: bool, endOfHeader: bool,
    data: seq<byte>)

  datatype Video = Video(chunks: seq<Chunk>, eof: bool)

  predicate ValidChunk(c: Chunk) {
    && (forall i :: 0 <= i < |c.gaps| ==> |c.gaps[i]| < 2)
    && (c.pts.Some? ==> c.pts.value < 0x1_0000_0000) && |c.extra| < 250 && c.reserved < 8
  }

  predicate ValidChunks(cs: seq<Chunk>) {
    forall i :: 0 <= i < |cs| ==> ValidChunk(cs[i])
  }

  predicate ValidVideos(vs: seq<Video>) {
    forall i :: 0 <= i < |vs| ==> vs[i].chunks != [] && ValidChunks(vs[i].chunks)
  }

  function FlagByte(c: Chunk, fid: nat, eof: bool): byte
    requires ValidChunk(c) && fid < 2
  {
    fid + (if eof then 2 else 0) + (if c.pts.Some? then 4 else 0) + 8 * c.reserved
    + (if c.err then 64 else 0) + (if c.endOfHeader then 128 else 0)
  }

  function Options(c: Chunk): seq<byte>
    requires ValidChunk(c)
  {
    (if c.pts.Some? then PutLe32(c.pts.value) else []) + c.extra
  }

  function Packet(c: Chunk, fid: nat, eof: bool): seq<byte>
    requires ValidChunk(c) && fid < 2
  {
    var opts := Options(c);
    [2 + |opts|, FlagByte(c, fid, eof)] + opts + c.data
  }

  function Idle(gaps: seq<seq<byte>>): (r: seq<Input>)
    ensures |r| == |gaps| && forall i :: 0 <= i < |gaps| ==> r[i] == Payload(gaps[i])
  {
    if gaps == [] then [] else Idle(gaps[..|gaps| - 1]) + [Payload(gaps[|gaps| - 1])]
  }

  /** The first `n` chunks of a frame; `eof` marks the last of them. */
  function PrintChunks(cs: seq<Chunk>, fid: nat, eof: bool): seq<Input>
    requires ValidChunks(cs) && fid < 2
  {
    if cs == [] then []
    else
      var n := |cs| - 1;
      PrintChunks(cs[..n], fid, false) + (Idle(cs[n].gaps) + [Payload(Packet(cs[n], fid, eof))])
  }

  /** The FID toggles from frame to frame. */
  function Print(vs: seq<Video>, fid: nat): seq<Input>
    requires ValidVideos(vs) && fid < 2
  {
    if vs == [] then []
    else
      var n := |vs| - 1;
      Print(vs[..n], fid) + PrintChunks(vs[n].chunks, (fid + n) % 2, vs[n].eof)
  }

  function ChunksData(cs: seq<Chunk>): seq<byte> {
    if cs == [] then [] else ChunksData(cs[..|cs| - 1]) + cs[|cs| - 1].data
  }

  /** The first time stamp among the chunks. */
  function ChunksPts(cs: seq<Chunk>): Option<nat> {
    if cs == [] then None
    else if ChunksPts(cs[..|cs| - 1]).Some? then ChunksPts(cs[..|cs| - 1]) else cs[|cs| - 1].pts
  }

  function Header(c: Chunk, fid: nat, eof: bool): Event {
    Good(fid, eof, c.err, c.pts, c.data)
  }

  function Headers(cs: seq<Chunk>, fid: nat, eof: bool): (r: seq<Event>)
    ensures |r| == |cs| && forall i :: 0 <= i < |r| ==> r[i].Good? && r[i].fid == fid
  {
    if cs == [] then []
    else Headers(cs[..|cs| - 1], fid, false) + [Header(cs[|cs| - 1], fid, eof)]
  }

  // ----- decoding what was printed -----

  lemma FlagsDecode(c: Chunk, fid: nat, eof: bool)
    requires ValidChunk(c) && fid < 2
    ensures
      var b := FlagByte(c, fid, eof);
      b % 2 == fid && Bit(b, 2) == eof && Bit(b, 4) == c.pts.Some? && Bit(b, 0x40) == c.err
  {
  }

  lemma PacketDecodes(c: Chunk, fid: nat, eof: bool)
    requires ValidChunk(c) && fid < 2
    ensures Decode(Payload(Packet(c, fid, eof))) == Some(Header(c, fid, eof))
  {
    var p := Packet(c, fid, eof);
    FlagsDecode(c, fid, eof);
    assert p[p[0]..] == c.data;
    if c.pts.Some? {
      assert p[2..6] == PutLe32(c.pts.value);
      Le32Put(p, 2, c.pts.value);
    }
  }

  lemma {:induction false} DecodesAppend(a: seq<Input>, b: seq<Input>)
    ensures Decodes(a + b) == Decodes(a) + Decodes(b)
  {
    if b == [] {
      assert a + b == a;
    } else {
      DecodesAppend(a, b[..|b| - 1]);
      assert (a + b)[..|a + b| - 1] == a + b[..|b| - 1];
    }
  }

  lemma {:induction false} IdleDecodes(gaps: seq<seq<byte>>)
    requires forall i :: 0 <= i < |gaps| ==> |gaps[i]| < 2
    ensures Decodes(Idle(gaps)) == []
  {
    if gaps != [] {
      IdleDecodes(gaps[..|gaps| - 1]);
      DecodesLast(Idle(gaps[..|gaps| - 1]), Payload(gaps[|gaps| - 1]));
    }
  }

  lemma {:induction false} ChunksDecode(cs: seq<Chunk>, fid: nat, eof: bool)
    requires ValidChunks(cs) && fid < 2
    ensures Decodes(PrintChunks(cs, fid, eof)) == Headers(cs, fid, eof)
  {
    if cs != [] {
      var n := |cs| - 1;
      ChunksDecode(cs[..n], fid, false);
      IdleDecodes(cs[n].gaps);
      PacketDecodes(cs[n], fid, eof);
      var packet := Payload(Packet(cs[n], fid, eof));
      DecodesLast(Idle(cs[n].gaps), packet);
      DecodesAppend(PrintChunks(cs[..n], fid, false), Idle(cs[n].gaps) + [packet]);
    }
  }

  /** Events of a new FID make one new run. */
  lemma {:induction false} RunsAppend(es: seq<Event>, h: seq<Event>, fid: nat)
    requires h != [] && forall i :: 0 <= i < |h| ==> h[i].Good? && h[i].fid == fid
    requires Runs(es) == [] || Runs(es)[|Runs(es)| - 1][0].fid != fid
    ensures Runs(es + h) == Runs(es) + [h]
  {
    var n := |h| - 1;
    assert (es + h)[..|es + h| - 1] == es + h[..n];
    if n == 0 {
      assert es + h[..n] == es && h == [h[0]];
    } else {
      RunsAppend(es, h[..n], fid);
      assert h == h[..n] + [h[n]];
      assert (es + h)[|es + h| - 1] == h[n];
    }
  }

  /** The events of frame `k` of a stream that starts with `fid`. */
  function VideoEvents(v: Video, k: nat, fid: nat): (r: seq<Event>)
    ensures |r| == |v.chunks| && forall i :: 0 <= i < |r| ==> r[i].Good? && r[i].fid == (fid + k) % 2
  {
    Headers(v.chunks, (fid + k) % 2, v.eof)
  }

  function Printed(vs: seq<Video>, fid: nat): (r: seq<seq<Event>>)
    ensures |r| == |vs|
  {
    if vs == [] then [] else Printed(vs[..|vs| - 1], fid) + [VideoEvents(vs[|vs| - 1], |vs| - 1, fid)]
  }

  lemma Toggles(fid: nat, k: nat)
    requires k > 0
    ensures (fid + k) % 2 != (fid + k - 1) % 2
  {
  }

  lemma PrintDecodes(vs: seq<Video>, v: Video, fid: nat)
    requires ValidVideos(vs) && ValidVideos(vs + [v]) && fid < 2
    ensures Decodes(Print(vs + [v], fid)) == Decodes(Print(vs, fid)) + VideoEvents(v, |vs|, fid)
  {
    var all := vs + [v];
    assert all[..|vs|] == vs && all[|vs|] == v;
    assert Print(all, fid) == Print(vs, fid) + PrintChunks(v.chunks, (fid + |vs|) % 2, v.eof);
    ChunksDecode(v.chunks, (fid + |vs|) % 2, v.eof);
    DecodesAppend(Print(vs, fid), PrintChunks(v.chunks, (fid + |vs|) % 2, v.eof));
  }

  lemma PrintedFid(vs: seq<Video>, fid: nat)
    requires ValidVideos(vs) && vs != []
    ensures
      var g := Printed(vs, fid)[|vs| - 1];
      g != [] && g[0].Good? && g[0].fid != (fid + |vs|) % 2
  {
    Toggles(fid, |vs|);
    assert Printed(vs, fid)[|vs| - 1] == VideoEvents(vs[|vs| - 1], |vs| - 1, fid);
  }

  lemma {:induction false} PrintRuns(vs: seq<Video>, fid: nat)
    requires ValidVideos(vs) && fid < 2
    ensures Runs(Decodes(Print(vs, fid))) == Printed(vs, fid)
  {
    if vs != [] {
      var n := |vs| - 1;
      var init := vs[..n];
      assert vs == init + [vs[n]];
      PrintRuns(init, fid);
      PrintedMore(init, vs[n], fid);
    }
  }

  lemma PrintedMore(vs: seq<Video>, v: Video, fid: nat)
    requires ValidVideos(vs) && ValidVideos(vs + [v]) && fid < 2
    requires Runs(Decodes(Print(vs, fid))) == Printed(vs, fid)
    ensures Runs(Decodes(Print(vs + [v], fid))) == Printed(vs + [v], fid)
  {
    PrintDecodes(vs, v, fid);
    if vs != [] { PrintedFid(vs, fid); }
    assert v == (vs + [v])[|vs|];
    RunsAppend(Decodes(Print(vs, fid)), VideoEvents(v, |vs|, fid), (fid + |vs|) % 2);
    assert (vs + [v])[..|vs|] == vs;
  }

  /** The device says that something is wrong with the frame. */
  predicate Flagged(cs: seq<Chunk>) {
    exists i :: 0 <= i < |cs| && cs[i].err
  }

  lemma FlaggedLast(cs: seq<Chunk>)
    requires cs != []
    ensures Flagged(cs) <==> Flagged(cs[..|cs| - 1]) || cs[|cs| - 1].err
  {
    forall i | 0 <= i < |cs| - 1 ensures cs[..|cs| - 1][i] == cs[i] {}
  }

  lemma {:induction false} HeadersCarry(cs: seq<Chunk>, fid: nat, eof: bool)
    ensures Undamaged(Headers(cs, fid, eof)) && (Clean(Headers(cs, fid, eof)) <==> !Flagged(cs))
    ensures Data(Headers(cs, fid, eof)) == ChunksData(cs)
    ensures Pts(Headers(cs, fid, eof)) == ChunksPts(cs)
    ensures HasEof(Headers(cs, fid, eof)) <==> cs != [] && eof
    ensures UptoEof(Headers(cs, fid, eof)) == Headers(cs, fid, eof)
  {
    if cs == [] {
    } else {
      var n := |cs| - 1;
      HeadersCarry(cs[..n], fid, false);
      FlaggedLast(cs);
      CleanLast(Headers(cs[..n], fid, false), Header(cs[n], fid, eof));
      HasEofLast(Headers(cs[..n], fid, false), Header(cs[n], fid, eof));
      UptoEofLast(Headers(cs[..n], fid, false), Header(cs[n], fid, eof));
    }
  }

  predicate FitCap(vs: seq<Video>, maxFrameSize: nat) {
    forall i :: 0 <= i < |vs| ==> 0 < |ChunksData(vs[i].chunks)| <= Cap(maxFrameSize)
  }

  /** The frame that should come out for the `k`-th frame sent. */
  function Wanted(v: Video, k: nat): Frame
    requires k > 0
  {
    Frame(ChunksData(v.chunks), k - 1, ChunksPts(v.chunks), Flagged(v.chunks))
  }

  /** The frames `1..|vs|` as they should come out. */
  predicate Whole(fs: seq<Frame>, vs: seq<Video>) {
    && |fs| == (if vs == [] then 0 else |vs| - 1)
    && forall k :: 0 <= k < |fs| ==> fs[k] == Wanted(vs[k + 1], k + 1)
  }

  lemma WholeLast(fs: seq<Frame>, vs: seq<Video>, v: Video)
    requires Whole(fs, vs)
    ensures Whole(if vs == [] then fs else fs + [Wanted(v, |vs|)], vs + [v])
  {
  }

  lemma VideoBuilds(v: Video, k: nat, fid: nat, maxFrameSize: nat)
    requires k > 0 && |ChunksData(v.chunks)| <= Cap(maxFrameSize)
    ensures Build(UptoEof(VideoEvents(v, k, fid)), maxFrameSize) == Wanted(v, k).(sequence := 0)
  {
    HeadersCarry(v.chunks, (fid + k) % 2, v.eof);
    BuildWhole(VideoEvents(v, k, fid), maxFrameSize);
    BuildUndamaged(VideoEvents(v, k, fid), maxFrameSize);
    BuildSequence(VideoEvents(v, k, fid), maxFrameSize);
  }

  lemma {:induction false} PrintedFrames(vs: seq<Video>, fid: nat, maxFrameSize: nat)
    requires FitCap(vs, maxFrameSize) && fid < 2
    ensures Whole(Frames(Printed(vs, fid), maxFrameSize), vs)
  {
    if vs != [] {
      var n := |vs| - 1;
      var init := vs[..n];
      assert vs == init + [vs[n]];
      PrintedFrames(init, fid, maxFrameSize);
      FramesLast(Printed(init, fid), VideoEvents(vs[n], n, fid), maxFrameSize);
      WholeLast(Frames(Printed(init, fid), maxFrameSize), init, vs[n]);
      if n > 0 { VideoBuilds(vs[n], n, fid, maxFrameSize); }
    }
  }

  /** The frames whose end the assembler can see: all, but for a last one without EOF. */
  function Ended(vs: seq<Video>): seq<Video> {
    if vs == [] || vs[|vs| - 1].eof then vs else vs[..|vs| - 1]
  }

  lemma PrintedClosed(vs: seq<Video>, fid: nat)
    requires ValidVideos(vs)
    ensures Closed(Printed(vs, fid)) == Printed(Ended(vs), fid)
  {
    if vs != [] {
      var n := |vs| - 1;
      assert Printed(vs, fid)[n] == VideoEvents(vs[n], n, fid);
      HeadersCarry(vs[n].chunks, (fid + n) % 2, vs[n].eof);
      assert Printed(vs, fid)[..n] == Printed(vs[..n], fid);
    }
  }

  /** Frames cut into payloads come out again, whole and in order: all but the first, and the last
      one only if its end was marked; in error exactly if a payload was flagged so. */
  lemma RoundTrip(vs: seq<Video>, fid: nat, idle: seq<seq<byte>>, maxFrameSize: nat)
    requires ValidVideos(vs) && FitCap(vs, maxFrameSize) && fid < 2
    requires forall i :: 0 <= i < |idle| ==> |idle[i]| < 2
    ensures Whole(Feed(New(maxFrameSize), Print(vs, fid) + Idle(idle)).1, Ended(vs))
  {
    FeedMeets(Print(vs, fid) + Idle(idle), maxFrameSize);
    DecodesAppend(Print(vs, fid), Idle(idle));
    IdleDecodes(idle);
    assert Decodes(Print(vs, fid)) + [] == Decodes(Print(vs, fid));
    PrintRuns(vs, fid);
    PrintedClosed(vs, fid);
    PrintedFrames(Ended(vs), fid, maxFrameSize);
  }
}
