/** The same tree by a definition of its own: descriptors cut into blocks, blocks grouped. */
module ConfigGroups {
  import opened Wrappers
  import opened Bytes
  import opened ConfigTree

  // ----- the reference -----

  datatype Cutter = AtInterface | AtEndpoint

  predicate Starts(c: Cutter, d: Desc) {
    if c.AtInterface? then |d| >= 9 && d[1] == 4 else |d| >= 7 && d[1] == 5
  }

  /** What comes before the first start, and the blocks that begin at each start. */
  datatype Cut = Cut(head: seq<Desc>, blocks: seq<seq<Desc>>)

  function CutAt(c: Cutter, ds: seq<Desc>): (r: Cut)
    ensures forall i :: 0 <= i < |r.blocks| ==> r.blocks[i] != [] && Starts(c, r.blocks[i][0])
  {
    if ds == [] then Cut([], [])
    else
      var r, d := CutAt(c, ds[..|ds| - 1]), ds[|ds| - 1];
      var n := |r.blocks| - 1;
      if Starts(c, d) then r.(blocks := r.blocks + [[d]])
      else if r.blocks == [] then r.(head := r.head + [d])
      else r.(blocks := r.blocks[n := r.blocks[n] + [d]])
  }

  /** The last companion descriptor among `ds`. */
  function LastCompanion(ds: seq<Desc>): Option<Companion> {
    if ds == [] then None
    else
      var d := ds[|ds| - 1];
      if |d| >= 6 && d[1] == 0x30 then Some(Companion(d[2], d[3], d[4] + 0x100 * (d[5] as nat))) else LastCompanion(ds[..|ds| - 1])
  }

  /** An endpoint and what belongs to it. */
  function EndpointBlock(b: seq<Desc>): Endpoint
    requires b != [] && IsEndpoint(b[0])
  {
    EndpointOf(b[0]).(companion := LastCompanion(b[1..]), extra := Flatten(b[1..]))
  }

  function EndpointBlocks(bs: seq<seq<Desc>>): seq<Endpoint>
    requires forall i :: 0 <= i < |bs| ==> bs[i] != [] && IsEndpoint(bs[i][0])
  {
    if bs == [] then [] else EndpointBlocks(bs[..|bs| - 1]) + [EndpointBlock(bs[|bs| - 1])]
  }

  /** An alternate setting: what comes before its first endpoint is its own. */
  function AltBlock(b: seq<Desc>): Alt
    requires b != [] && IsInterface(b[0])
  {
    var c := CutAt(AtEndpoint, b[1..]);
    AltOf(b[0]).(extra := Flatten(c.head), endpoints := EndpointBlocks(c.blocks))
  }

  function AltBlocks(bs: seq<seq<Desc>>): seq<Alt>
    requires forall i :: 0 <= i < |bs| ==> bs[i] != [] && IsInterface(bs[i][0])
  {
    if bs == [] then [] else AltBlocks(bs[..|bs| - 1]) + [AltBlock(bs[|bs| - 1])]
  }

  /** Alternate settings by interface number. */
  function Group(alts: seq<Alt>): seq<Interface> {
    if alts == [] then [] else Push(Group(alts[..|alts| - 1]), alts[|alts| - 1])
  }

  /** The whole tree below the configuration header. */
  function Grouped(ds: seq<Desc>): Tree {
    var c := CutAt(AtInterface, ds);
    Tree(Group(AltBlocks(c.blocks)), Flatten(c.head), None, None)
  }

  // ----- nothing is lost -----

  lemma CutLast(c: Cutter, ds: seq<Desc>, d: Desc)
    ensures
      var r := CutAt(c, ds);
      var n := |r.blocks| - 1;
      CutAt(c, ds + [d]) ==
        if Starts(c, d) then r.(blocks := r.blocks + [[d]])
        else if r.blocks == [] then r.(head := r.head + [d])
        else r.(blocks := r.blocks[n := r.blocks[n] + [d]])
  {
    assert (ds + [d])[..|ds|] == ds;
  }

  function Joined(c: Cut): seq<Desc> {
    c.head + Flatten(c.blocks)
  }

  lemma JoinedLast(c: Cutter, ds: seq<Desc>, d: Desc)
    ensures Joined(CutAt(c, ds + [d])) == Joined(CutAt(c, ds)) + [d]
  {
    CutLast(c, ds, d);
    var r := CutAt(c, ds);
    var n := |r.blocks| - 1;
    if Starts(c, d) {
      FlattenLast(r.blocks, [d]);
    } else if r.blocks != [] {
      var init, last := r.blocks[..n], r.blocks[n];
      FlattenLast(init, last);
      FlattenLast(init, last + [d]);
      assert r.blocks == init + [last] && r.blocks[n := last + [d]] == init + [last + [d]];
    }
  }

  /** Cutting loses nothing and moves nothing. */
  lemma {:induction false} CutWhole(c: Cutter, ds: seq<Desc>)
    ensures Joined(CutAt(c, ds)) == ds
  {
    if ds != [] {
      CutWhole(c, ds[..|ds| - 1]);
      JoinedLast(c, ds[..|ds| - 1], ds[|ds| - 1]);
      assert ds[..|ds| - 1] + [ds[|ds| - 1]] == ds;
    }
  }

  predicate Plain(c: Cutter, ds: seq<Desc>) {
    forall i :: 0 <= i < |ds| ==> !Starts(c, ds[i])
  }

  /** Only the first descriptor of a block is a start. */
  lemma {:induction false} CutPlain(c: Cutter, ds: seq<Desc>)
    ensures Plain(c, CutAt(c, ds).head)
    ensures forall i :: 0 <= i < |CutAt(c, ds).blocks| ==> Plain(c, CutAt(c, ds).blocks[i][1..])
  {
    if ds != [] {
      CutPlain(c, ds[..|ds| - 1]);
      var r, d := CutAt(c, ds[..|ds| - 1]), ds[|ds| - 1];
      var n := |r.blocks| - 1;
      if Starts(c, d) {
        var block: seq<Desc> := [d];
        assert block[1..] == [];
      } else if r.blocks != [] {
        assert (r.blocks[n] + [d])[1..] == r.blocks[n][1..] + [d];
      }
    }
  }

  /** Interfaces have distinct numbers, each holds alternate settings of its own number. */
  predicate OwnNumbers(is_: seq<Interface>) {
    && (forall i, j :: 0 <= i < j < |is_| ==> is_[i].number != is_[j].number)
    && (forall i, k :: 0 <= i < |is_| && 0 <= k < |is_[i].alts| ==> is_[i].alts[k].number == is_[i].number)
    && (forall i :: 0 <= i < |is_| ==> is_[i].alts != [])
  }

  /** The alternate settings of one number, in order. */
  function Numbered(alts: seq<Alt>, number: byte): seq<Alt> {
    if alts == [] then []
    else
      var init, last := Numbered(alts[..|alts| - 1], number), alts[|alts| - 1];
      if last.number == number then init + [last] else init
  }

  function AltsOf(is_: seq<Interface>, number: byte): seq<Alt> {
    var p := Find(is_, number);
    if p < |is_| then is_[p].alts else []
  }

  lemma FindIs(is_: seq<Interface>, number: byte, p: nat)
    requires OwnNumbers(is_) && p < |is_| && is_[p].number == number
    ensures Find(is_, number) == p
  {
  }

  lemma PushSame(is_: seq<Interface>, alt: Alt)
    requires OwnNumbers(is_)
    ensures AltsOf(Push(is_, alt), alt.number) == AltsOf(is_, alt.number) + [alt]
  {
    PushOwn(is_, alt);
    FindIs(Push(is_, alt), alt.number, Find(is_, alt.number));
  }

  lemma PushOther(is_: seq<Interface>, alt: Alt, number: byte)
    requires OwnNumbers(is_) && alt.number != number
    ensures AltsOf(Push(is_, alt), number) == AltsOf(is_, number)
  {
    PushOwn(is_, alt);
    var p := Find(is_, number);
    if p < |is_| {
      assert Push(is_, alt)[p] == is_[p];
      FindIs(Push(is_, alt), number, p);
    }
  }

  lemma PushOwn(is_: seq<Interface>, alt: Alt)
    requires OwnNumbers(is_)
    ensures OwnNumbers(Push(is_, alt))
  {
  }

  /** Grouping puts every alternate setting under its number, once, in order. */
  lemma {:induction false} GroupIs(alts: seq<Alt>, number: byte)
    ensures OwnNumbers(Group(alts)) && AltsOf(Group(alts), number) == Numbered(alts, number)
  {
    if alts != [] {
      GroupIs(alts[..|alts| - 1], number);
      PushOwn(Group(alts[..|alts| - 1]), alts[|alts| - 1]);
      if alts[|alts| - 1].number == number {
        PushSame(Group(alts[..|alts| - 1]), alts[|alts| - 1]);
      } else {
        PushOther(Group(alts[..|alts| - 1]), alts[|alts| - 1], number);
      }
    }
  }

  // ----- the parser meets the reference -----

  /** The interface block `b` while it is open: its last endpoint is open too. */
  function OpenAlt(b: seq<Desc>): (Alt, Option<Endpoint>)
    requires b != [] && IsInterface(b[0])
  {
    var c := CutAt(AtEndpoint, b[1..]);
    var n := |c.blocks| - 1;
    if c.blocks == [] then (AltOf(b[0]).(extra := Flatten(c.head)), None)
    else
      (AltOf(b[0]).(extra := Flatten(c.head), endpoints := EndpointBlocks(c.blocks[..n])),
       Some(EndpointBlock(c.blocks[n])))
  }

  /** The parser's state after the descriptors `ds`. */
  function After(ds: seq<Desc>): Tree {
    var c := CutAt(AtInterface, ds);
    var n := |c.blocks| - 1;
    if c.blocks == [] then Tree([], Flatten(c.head), None, None)
    else
      Tree(Group(AltBlocks(c.blocks[..n])), Flatten(c.head), Some(OpenAlt(c.blocks[n]).0), OpenAlt(c.blocks[n]).1)
  }

  /** Closing an open block gives the block. */
  lemma CloseIs(b: seq<Desc>)
    requires b != [] && IsInterface(b[0])
    ensures
      var (alt, ep) := OpenAlt(b);
      AltBlock(b) == if ep.Some? then alt.(endpoints := alt.endpoints + [ep.value]) else alt
  {
  }

  lemma CloseAfter(ds: seq<Desc>)
    ensures CloseInterface(After(ds)) == Grouped(ds)
  {
    var c := CutAt(AtInterface, ds);
    if c.blocks != [] {
      CloseIs(c.blocks[|c.blocks| - 1]);
    }
  }

  lemma EndpointBlockLast(b: seq<Desc>, d: Desc)
    requires b != [] && IsEndpoint(b[0])
    ensures EndpointBlock(b + [d]) ==
      var e := EndpointBlock(b);
      e.(companion := if IsCompanion(d) then Some(CompanionOf(d)) else e.companion, extra := e.extra + d)
  {
    assert (b + [d])[1..] == b[1..] + [d];
    FlattenLast(b[1..], d);
    assert (b[1..] + [d])[..|b[1..]|] == b[1..];
  }

  /** One more descriptor of the open interface. */
  lemma OpenLast(b: seq<Desc>, d: Desc, t: Tree)
    requires b != [] && IsInterface(b[0]) && !IsInterface(d)
    requires t.iface == Some(OpenAlt(b).0) && t.ep == OpenAlt(b).1
    ensures Step(t, d) == t.(iface := Some(OpenAlt(b + [d]).0), ep := OpenAlt(b + [d]).1)
  {
    assert (b + [d])[1..] == b[1..] + [d];
    CutLast(AtEndpoint, b[1..], d);
    var c := CutAt(AtEndpoint, b[1..]);
    var n := |c.blocks| - 1;
    if IsEndpoint(d) {
      NewEndpoint(d);
      assert (c.blocks + [[d]])[..n + 1] == c.blocks;
    } else if c.blocks == [] {
      FlattenLast(c.head, d);
    } else {
      EndpointBlockLast(c.blocks[n], d);
      assert c.blocks[n := c.blocks[n] + [d]][..n] == c.blocks[..n];
    }
  }

  lemma NewEndpoint(d: Desc)
    requires IsEndpoint(d)
    ensures EndpointBlock([d]) == EndpointOf(d)
  {
    assert [d][1..] == [];
  }

  lemma NewInterface(d: Desc)
    requires IsInterface(d)
    ensures OpenAlt([d]) == (AltOf(d), None)
  {
    assert [d][1..] == [];
  }

  lemma StepMeets(ds: seq<Desc>, d: Desc)
    ensures Step(After(ds), d) == After(ds + [d])
  {
    CutLast(AtInterface, ds, d);
    var c := CutAt(AtInterface, ds);
    var n := |c.blocks| - 1;
    if IsInterface(d) {
      NewInterface(d);
      CloseAfter(ds);
      assert (c.blocks + [[d]])[..n + 1] == c.blocks;
    } else if c.blocks == [] {
      FlattenLast(c.head, d);
    } else {
      OpenLast(c.blocks[n], d, After(ds));
      assert c.blocks[n := c.blocks[n] + [d]][..n] == c.blocks[..n];
    }
  }

  lemma {:induction false} FoldMeets(ds: seq<Desc>)
    ensures Fold(ds) == After(ds)
  {
    if ds != [] {
      FoldMeets(ds[..|ds| - 1]);
      StepMeets(ds[..|ds| - 1], ds[|ds| - 1]);
      assert ds[..|ds| - 1] + [ds[|ds| - 1]] == ds;
    }
  }

  /** For any data whatever, what is parsed is the grouping of the descriptors walked over. */
  lemma ParseMeets(data: seq<byte>)
    ensures Parse(data) == Err(TooShort) <==> |data| < 9
    ensures Parse(data) == Err(NotAConfig) <==> |data| >= 9 && (data[0] < 9 || data[1] != 2)
    ensures |data| >= 9 && data[0] >= 9 && data[1] == 2 ==> Parse(data) == Ok(Assemble(data, Grouped(Body(data))))
  {
    if |data| >= 9 {
      FoldMeets(Body(data));
      CloseAfter(Body(data));
    }
  }

  /** Parsing what was kept gives the same tree again: nothing past its end matters. */
  lemma ParseRaw(data: seq<byte>)
    requires Parse(data).Ok?
    ensures Parse(Parse(data).value.raw) == Parse(data)
  {
    var end := End(data);
    var raw := data[..end];
    assert Le16(raw, 2) == Le16(data, 2);
    assert raw[..end] == raw;
    if data[0] <= end { assert raw[data[0]..end] == data[data[0]..end]; }
  }
}
