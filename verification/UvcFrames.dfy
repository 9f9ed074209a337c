/** What the assembler emits, stated without its state machine: the payloads are cut into runs of
    equal FID, and every run but the first that is closed and carries data is a frame. */
module UvcFrames {
  import opened Wrappers
  import opened Bytes
  import opened UvcAssembler

  // ----- the reference -----

  predicate IsRun(g: seq<Event>) {
    g != [] && g[0].Good? && forall i :: 0 <= i < |g| && g[i].Good? ==> g[i].fid == g[0].fid
  }

  /** The maximal runs of equal FID; damage belongs to the run it falls into. */
  function Runs(es: seq<Event>): (gs: seq<seq<Event>>)
    ensures forall i :: 0 <= i < |gs| ==> IsRun(gs[i])
  {
    if es == [] then []
    else
      var gs := Runs(es[..|es| - 1]);
      var e := es[|es| - 1];
      var n := |gs| - 1;
      if gs == [] then (if e.Damage? then [] else [[e]])
      else if e.Good? && e.fid != gs[n][0].fid then gs + [[e]]
      else gs[n := gs[n] + [e]]
  }

  predicate HasEof(g: seq<Event>) {
    exists i :: 0 <= i < |g| && g[i].Good? && g[i].eof
  }

  /** A run up to and including its first EOF; what follows is ignored. */
  function UptoEof(g: seq<Event>): seq<Event> {
    if g == [] || !HasEof(g[..|g| - 1]) then g else UptoEof(g[..|g| - 1])
  }

  /** The frame a run carries. */
  function Build(g: seq<Event>, maxFrameSize: nat): Frame {
    if g == [] then NewFrame else Grow(Build(g[..|g| - 1], maxFrameSize), g[|g| - 1], maxFrameSize)
  }

  /** The runs that are over: all but the last, and the last too if it has an EOF. */
  function Closed(gs: seq<seq<Event>>): seq<seq<Event>> {
    if gs == [] || HasEof(gs[|gs| - 1]) then gs else gs[..|gs| - 1]
  }

  /** The frames of all runs but the first, numbered, leaving out those without data. */
  function Frames(gs: seq<seq<Event>>, maxFrameSize: nat): seq<Frame> {
    if |gs| <= 1 then []
    else
      var init := Frames(gs[..|gs| - 1], maxFrameSize);
      var f := Build(UptoEof(gs[|gs| - 1]), maxFrameSize);
      if f.data == [] then init else init + [f.(sequence := |init|)]
  }

  function Expected(inputs: seq<Input>, maxFrameSize: nat): seq<Frame> {
    Frames(Closed(Runs(Decodes(inputs))), maxFrameSize)
  }

  // ----- the assembler meets it -----

  /** The assembler's fields after the events `es`. */
  function After(es: seq<Event>, maxFrameSize: nat): Asm {
    var gs: seq<seq<Event>> := Runs(es);
    var n := |gs| - 1;
    if gs == [] then New(maxFrameSize)
    else
      Asm(if HasEof(gs[n]) then None else Some((Build(gs[n], maxFrameSize), n > 0)),
          Some(gs[n][0].fid), n > 0 || HasEof(gs[n]), HasEof(gs[n]),
          |Frames(Closed(gs), maxFrameSize)|, maxFrameSize)
  }

  lemma HasEofLast(g: seq<Event>, e: Event)
    ensures HasEof(g + [e]) <==> HasEof(g) || (e.Good? && e.eof)
  {
    var all := g + [e];
    assert all[|g|] == e;
    assert forall i :: 0 <= i < |g| ==> all[i] == g[i];
  }

  lemma UptoEofLast(g: seq<Event>, e: Event)
    ensures UptoEof(g + [e]) == if HasEof(g) then UptoEof(g) else g + [e]
  {
    assert (g + [e])[..|g|] == g;
  }

  lemma NoEofWhole(g: seq<Event>)
    requires !HasEof(g)
    ensures UptoEof(g) == g
  {
  }

  /** Frames before the last run do not change; the last one is added when the run closes. */
  lemma FramesLast(gs: seq<seq<Event>>, g: seq<Event>, maxFrameSize: nat)
    ensures Frames(gs + [g], maxFrameSize) ==
      var init := Frames(gs, maxFrameSize);
      var f := Build(UptoEof(g), maxFrameSize);
      if gs == [] || f.data == [] then init else init + [f.(sequence := |init|)]
  {
    assert (gs + [g])[..|gs|] == gs;
  }

  lemma BuildLast(g: seq<Event>, e: Event, maxFrameSize: nat)
    ensures Build(g + [e], maxFrameSize) == Grow(Build(g, maxFrameSize), e, maxFrameSize)
  {
    assert (g + [e])[..|g|] == g;
  }

  lemma {:induction false} BuildSequence(g: seq<Event>, maxFrameSize: nat)
    ensures Build(g, maxFrameSize).sequence == 0
  {
    if g != [] { BuildSequence(g[..|g| - 1], maxFrameSize); }
  }

  /** `After` and `Frames` in terms of the last run `g` and the runs `init` before it. */
  function AfterRun(init: seq<seq<Event>>, g: seq<Event>, maxFrameSize: nat): Asm
    requires IsRun(g)
  {
    var before := Frames(init, maxFrameSize);
    var f := Build(UptoEof(g), maxFrameSize);
    var whole := init != [];
    if HasEof(g) then
      Asm(None, Some(g[0].fid), true, true, |before| + (if whole && f.data != [] then 1 else 0), maxFrameSize)
    else
      Asm(Some((f, whole)), Some(g[0].fid), whole, false, |before|, maxFrameSize)
  }

  function FramesRun(init: seq<seq<Event>>, g: seq<Event>, maxFrameSize: nat): seq<Frame> {
    if HasEof(g) then Frames(init + [g], maxFrameSize) else Frames(init, maxFrameSize)
  }

  lemma LastRun(es: seq<Event>, maxFrameSize: nat)
    requires Runs(es) != []
    ensures
      var gs: seq<seq<Event>> := Runs(es);
      var n := |gs| - 1;
      && gs == gs[..n] + [gs[n]]
      && After(es, maxFrameSize) == AfterRun(gs[..n], gs[n], maxFrameSize)
      && Frames(Closed(gs), maxFrameSize) == FramesRun(gs[..n], gs[n], maxFrameSize)
  {
    var gs: seq<seq<Event>> := Runs(es);
    var n := |gs| - 1;
    assert gs == gs[..n] + [gs[n]];
    FramesLast(gs[..n], gs[n], maxFrameSize);
    if !HasEof(gs[n]) { NoEofWhole(gs[n]); }
  }

  /** One more event of the same run. */
  lemma SameRun(init: seq<seq<Event>>, g: seq<Event>, e: Event, maxFrameSize: nat)
    requires IsRun(g) && (e.Good? ==> e.fid == g[0].fid)
    ensures
      var (b, more) := Take(AfterRun(init, g, maxFrameSize), e);
      && IsRun(g + [e]) && b == AfterRun(init, g + [e], maxFrameSize)
      && FramesRun(init, g + [e], maxFrameSize) == FramesRun(init, g, maxFrameSize) + more
  {
    HasEofLast(g, e);
    UptoEofLast(g, e);
    FramesLast(init, g, maxFrameSize);
    FramesLast(init, g + [e], maxFrameSize);
    if !HasEof(g) {
      NoEofWhole(g);
      BuildLast(g, e, maxFrameSize);
      BuildSequence(g, maxFrameSize);
    }
  }

  /** The first event of a run, after the run `g` was closed. */
  lemma OpenRun(init: seq<seq<Event>>, a: Asm, e: Event)
    requires e.Good? && a.current.None? && a.atBoundary == (init != []) && !a.afterEof
    requires a.lastFid == Some(e.fid) && a.sequence == |Frames(init, a.maxFrameSize)|
    ensures
      var (b, more) := Extend(a, e);
      b == AfterRun(init, [e], a.maxFrameSize) && FramesRun(init, [e], a.maxFrameSize) == Frames(init, a.maxFrameSize) + more
  {
    assert [] + [e] == [e];
    HasEofLast([], e);
    UptoEofLast([], e);
    BuildLast([], e, a.maxFrameSize);
    FramesLast(init, [e], a.maxFrameSize);
  }

  /** A payload of another FID closes the run `g`. */
  lemma CloseRun(init: seq<seq<Event>>, g: seq<Event>, fid: nat, maxFrameSize: nat)
    requires IsRun(g) && fid != g[0].fid
    ensures
      var (b, more) := Turn(AfterRun(init, g, maxFrameSize), fid);
      && Frames(init + [g], maxFrameSize) == FramesRun(init, g, maxFrameSize) + more
      && b == Asm(None, Some(fid), true, false, |Frames(init + [g], maxFrameSize)|, maxFrameSize)
  {
    if HasEof(g) {
      assert Finish(AfterRun(init, g, maxFrameSize)).1 == [];
      CloseCount(init, g, maxFrameSize);
    } else {
      FramesLast(init, g, maxFrameSize);
      NoEofWhole(g);
      BuildSequence(g, maxFrameSize);
    }
  }

  lemma CloseCount(init: seq<seq<Event>>, g: seq<Event>, maxFrameSize: nat)
    requires IsRun(g) && HasEof(g)
    ensures AfterRun(init, g, maxFrameSize).sequence == |Frames(init + [g], maxFrameSize)|
  {
    FramesLast(init, g, maxFrameSize);
  }

  /** The first event of the next run. */
  lemma NextRun(init: seq<seq<Event>>, g: seq<Event>, e: Event, maxFrameSize: nat)
    requires IsRun(g) && e.Good? && e.fid != g[0].fid
    ensures
      var (b, more) := Take(AfterRun(init, g, maxFrameSize), e);
      && b == AfterRun(init + [g], [e], maxFrameSize)
      && FramesRun(init + [g], [e], maxFrameSize) == FramesRun(init, g, maxFrameSize) + more
  {
    CloseRun(init, g, e.fid, maxFrameSize);
    var (a, out) := Turn(AfterRun(init, g, maxFrameSize), e.fid);
    OpenRun(init + [g], a, e);
  }

  lemma FirstRun(e: Event, maxFrameSize: nat)
    requires e.Good?
    ensures
      var (b, more) := Take(New(maxFrameSize), e);
      b == AfterRun([], [e], maxFrameSize) && FramesRun([], [e], maxFrameSize) == more
  {
    assert [] + [e] == [e];
    HasEofLast([], e);
    UptoEofLast([], e);
    BuildLast([], e, maxFrameSize);
  }

  lemma TakeMeets(es: seq<Event>, e: Event, maxFrameSize: nat)
    ensures
      var (b, more) := Take(After(es, maxFrameSize), e);
      && b == After(es + [e], maxFrameSize)
      && Frames(Closed(Runs(es + [e])), maxFrameSize) == Frames(Closed(Runs(es)), maxFrameSize) + more
  {
    assert (es + [e])[..|es|] == es;
    var gs: seq<seq<Event>> := Runs(es);
    if gs == [] {
      if e.Good? {
        FirstRun(e, maxFrameSize);
        LastRun(es + [e], maxFrameSize);
        var one: seq<seq<Event>> := [[e]];
        assert one[..0] == [];
      }
    } else {
      var n := |gs| - 1;
      var next := Runs(es + [e]);
      LastRun(es, maxFrameSize);
      LastRun(es + [e], maxFrameSize);
      if e.Good? && e.fid != gs[n][0].fid {
        NextRun(gs[..n], gs[n], e, maxFrameSize);
        assert next[..n + 1] == gs;
      } else {
        SameRun(gs[..n], gs[n], e, maxFrameSize);
        assert next[..n] == gs[..n];
      }
    }
  }

  lemma DecodesLast(inputs: seq<Input>, i: Input)
    ensures Decodes(inputs + [i]) ==
      match Decode(i) { case None => Decodes(inputs) case Some(e) => Decodes(inputs) + [e] }
  {
    assert (inputs + [i])[..|inputs|] == inputs;
  }

  /** For any inputs whatever, a fresh assembler emits exactly the expected frames. */
  lemma {:induction false} FeedMeets(inputs: seq<Input>, maxFrameSize: nat)
    ensures Feed(New(maxFrameSize), inputs) == (After(Decodes(inputs), maxFrameSize), Expected(inputs, maxFrameSize))
  {
    if inputs == [] {
      assert Runs([]) == [];
    } else {
      var n := |inputs| - 1;
      var init, i := inputs[..n], inputs[n];
      assert inputs == init + [i];
      FeedMeets(init, maxFrameSize);
      DecodesLast(init, i);
      if Decode(i).Some? {
        TakeMeets(Decodes(init), Decode(i).value, maxFrameSize);
      } else {
        assert Expected(init, maxFrameSize) + [] == Expected(init, maxFrameSize);
      }
    }
  }
}
