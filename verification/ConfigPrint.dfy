/** Serialising configuration trees, and splitting a run of them. */
module ConfigPrint {
  import opened Wrappers
  import opened Bytes
  import opened ConfigTree
  import opened ConfigGroups

  const U16_MAX := 0xffff

  // ----- descriptors in a row -----

  predicate IsDesc(d: Desc) {
    |d| >= 2 && d[0] == |d|
  }

  predicate AreDescs(ds: seq<Desc>) {
    forall i :: 0 <= i < |ds| ==> IsDesc(ds[i])
  }

  lemma {:induction false} WalkFront(ds: seq<Desc>, tail: seq<byte>)
    requires AreDescs(ds)
    ensures Walk(Flatten(ds) + tail) == ds + Walk(tail)
    decreases |ds|
  {
    if ds == [] {
      assert Flatten(ds) + tail == tail;
    } else {
      var n := |ds| - 1;
      var d := ds[n];
      WalkFront(ds[..n], d + tail);
      assert Flatten(ds) + tail == Flatten(ds[..n]) + (d + tail);
      assert (d + tail)[..|d|] == d && (d + tail)[|d|..] == tail;
      assert ds[..n] + ([d] + Walk(tail)) == ds + Walk(tail);
    }
  }

  /** Walking over descriptors in a row finds each of them. */
  lemma WalkFlatten(ds: seq<Desc>)
    requires AreDescs(ds)
    ensures Walk(Flatten(ds)) == ds
  {
    WalkFront(ds, []);
    assert Flatten(ds) + [] == Flatten(ds) && ds + [] == ds;
  }

  /** What comes before a malformed rest is found all the same. */
  lemma MalformedRest(ds: seq<Desc>, rest: seq<byte>)
    requires AreDescs(ds) && (|rest| < 2 || rest[0] < 2 || rest[0] > |rest|)
    ensures Walk(Flatten(ds) + rest) == ds
  {
    WalkFront(ds, rest);
    assert ds + [] == ds;
  }

  // ----- the printer -----

  /** Bytes that are descriptors, none of which starts anything. */
  predicate Inert(x: seq<byte>, inInterface: bool) {
    && Flatten(Walk(x)) == x && Plain(AtInterface, Walk(x)) && (inInterface ==> Plain(AtEndpoint, Walk(x)))
  }

  predicate WellFormedEndpoint(e: Endpoint) {
    e.maxPacketSize <= U16_MAX && Inert(e.extra, true) && e.companion == LastCompanion(Walk(e.extra))
  }

  predicate WellFormedEndpoints(es: seq<Endpoint>) {
    forall i :: 0 <= i < |es| ==> WellFormedEndpoint(es[i])
  }

  predicate WellFormedAlt(a: Alt) {
    Inert(a.extra, true) && WellFormedEndpoints(a.endpoints)
  }

  predicate WellFormedAlts(alts: seq<Alt>) {
    forall i :: 0 <= i < |alts| ==> WellFormedAlt(alts[i])
  }

  /** Nine bytes, or seven of an endpoint that has nothing to say about audio. */
  function EndpointBytes(e: Endpoint): Desc
    requires e.maxPacketSize <= U16_MAX
  {
    var short := e.refresh == 0 && e.synchAddress == 0;
    [if short then 7 else 9, 5, e.address, e.attributes] + PutLe16(e.maxPacketSize) + [e.interval]
    + (if short then [] else [e.refresh, e.synchAddress])
  }

  function AltBytes(a: Alt): Desc {
    [9, 4, a.number, a.setting, a.numEndpoints, a.class_, a.subClass, a.protocol, a.stringIndex]
  }

  function EndpointDescs(e: Endpoint): seq<Desc>
    requires e.maxPacketSize <= U16_MAX
  {
    [EndpointBytes(e)] + Walk(e.extra)
  }

  function EndpointsDescs(es: seq<Endpoint>): seq<Desc>
    requires WellFormedEndpoints(es)
  {
    if es == [] then [] else EndpointsDescs(es[..|es| - 1]) + EndpointDescs(es[|es| - 1])
  }

  function AltDescs(a: Alt): seq<Desc>
    requires WellFormedAlt(a)
  {
    [AltBytes(a)] + (Walk(a.extra) + EndpointsDescs(a.endpoints))
  }

  function AltsDescs(alts: seq<Alt>): seq<Desc>
    requires WellFormedAlts(alts)
  {
    if alts == [] then [] else AltsDescs(alts[..|alts| - 1]) + AltDescs(alts[|alts| - 1])
  }

  /** All alternate settings, interface by interface. */
  function AllAlts(is_: seq<Interface>): seq<Alt> {
    if is_ == [] then [] else AllAlts(is_[..|is_| - 1]) + is_[|is_| - 1].alts
  }

  function Descs(c: Config): seq<Desc>
    requires WellFormedAlts(AllAlts(c.interfaces))
  {
    Walk(c.extra) + AltsDescs(AllAlts(c.interfaces))
  }

  function Print(c: Config): seq<byte>
    requires WellFormedAlts(AllAlts(c.interfaces)) && c.totalLength <= U16_MAX
  {
    [9, 2] + PutLe16(c.totalLength) + [c.numInterfaces, c.value, c.stringIndex, c.attributes, c.maxPower]
    + Flatten(Descs(c))
  }

  /** A tree a device can have: interfaces are numbered apart, and what each part keeps as extra is
      really extra. */
  predicate WellFormed(c: Config) {
    && OwnNumbers(c.interfaces) && WellFormedAlts(AllAlts(c.interfaces)) && Inert(c.extra, false)
    && c.totalLength <= U16_MAX && c.totalLength == |Print(c)| && c.raw == Print(c)
  }

  // ----- cutting what was printed -----

  lemma {:induction false} CutPlainOnly(c: Cutter, ds: seq<Desc>)
    requires Plain(c, ds)
    ensures CutAt(c, ds) == Cut(ds, [])
  {
    if ds != [] {
      CutPlainOnly(c, ds[..|ds| - 1]);
      InitLast(ds);
    }
  }

  lemma Snoc(ds: seq<Desc>, start: Desc, rest: seq<Desc>)
    requires rest != []
    ensures
      var n := |rest| - 1;
      ds + ([start] + rest[..n]) + [rest[n]] == ds + ([start] + rest) && [start] + rest[..n] + [rest[n]] == [start] + rest
  {
    InitLast(rest);
  }

  /** A start and what follows it, up to the next start, make one more block. */
  lemma {:induction false} CutBlock(c: Cutter, ds: seq<Desc>, start: Desc, rest: seq<Desc>)
    requires Starts(c, start) && Plain(c, rest)
    ensures CutAt(c, ds + ([start] + rest)) == CutAt(c, ds).(blocks := CutAt(c, ds).blocks + [[start] + rest])
    decreases |rest|
  {
    if rest == [] {
      CutLast(c, ds, start);
      assert [start] + rest == [start];
    } else {
      var n := |rest| - 1;
      CutBlock(c, ds, start, rest[..n]);
      CutLast(c, ds + ([start] + rest[..n]), rest[n]);
      Snoc(ds, start, rest);
      var before := CutAt(c, ds).blocks;
      LastBlock(before, [start] + rest[..n], rest[n]);
    }
  }

  lemma LastBlock(bs: seq<seq<Desc>>, b: seq<Desc>, d: Desc)
    ensures (bs + [b])[|bs| := b + [d]] == bs + [b + [d]]
  {
  }

  lemma EndpointIs(e: Endpoint)
    requires e.maxPacketSize <= U16_MAX
    ensures
      var d := EndpointBytes(e);
      IsEndpoint(d) && IsDesc(d) && !IsInterface(d) && EndpointOf(d) == e.(companion := None, extra := [])
  {
    var d := EndpointBytes(e);
    assert d[4..6] == PutLe16(e.maxPacketSize);
    Le16Put(d, 4, e.maxPacketSize);
  }

  lemma EndpointBlockIs(e: Endpoint)
    requires WellFormedEndpoint(e)
    ensures IsEndpoint(EndpointBytes(e)) && EndpointBlock(EndpointDescs(e)) == e
  {
    EndpointIs(e);
    assert EndpointDescs(e)[1..] == Walk(e.extra);
  }

  lemma EndpointBlocksLast(bs: seq<seq<Desc>>, b: seq<Desc>)
    requires (forall i :: 0 <= i < |bs| ==> bs[i] != [] && IsEndpoint(bs[i][0])) && b != [] && IsEndpoint(b[0])
    ensures EndpointBlocks(bs + [b]) == EndpointBlocks(bs) + [EndpointBlock(b)]
  {
    assert (bs + [b])[..|bs|] == bs;
  }

  lemma EndpointsDescsLast(head: seq<Desc>, es: seq<Endpoint>)
    requires WellFormedEndpoints(es) && es != []
    ensures head + EndpointsDescs(es) == head + EndpointsDescs(es[..|es| - 1]) + EndpointDescs(es[|es| - 1])
  {
    Assoc(head, EndpointsDescs(es[..|es| - 1]), EndpointDescs(es[|es| - 1]));
  }

  lemma {:induction false} EndpointsCut(head: seq<Desc>, es: seq<Endpoint>)
    requires Plain(AtEndpoint, head) && WellFormedEndpoints(es)
    ensures
      var c := CutAt(AtEndpoint, head + EndpointsDescs(es));
      c.head == head && EndpointBlocks(c.blocks) == es
  {
    if es == [] {
      assert head + EndpointsDescs(es) == head;
      CutPlainOnly(AtEndpoint, head);
    } else {
      var n := |es| - 1;
      var e := es[n];
      EndpointsCut(head, es[..n]);
      EndpointBlockIs(e);
      EndpointsDescsLast(head, es);
      var before := head + EndpointsDescs(es[..n]);
      CutBlock(AtEndpoint, before, EndpointBytes(e), Walk(e.extra));
      EndpointBlocksLast(CutAt(AtEndpoint, before).blocks, EndpointDescs(e));
      InitLast(es);
    }
  }

  lemma {:induction false} EndpointsPlain(es: seq<Endpoint>)
    requires WellFormedEndpoints(es)
    ensures Plain(AtInterface, EndpointsDescs(es))
  {
    if es != [] {
      EndpointsPlain(es[..|es| - 1]);
      EndpointIs(es[|es| - 1]);
    }
  }

  lemma AltBytesAre(a: Alt)
    ensures
      var d := AltBytes(a);
      IsInterface(d) && IsDesc(d) && AltOf(d) == a.(endpoints := [], extra := [])
  {
  }

  lemma AltIs(a: Alt)
    requires WellFormedAlt(a)
    ensures IsInterface(AltBytes(a)) && AltBlock(AltDescs(a)) == a
  {
    AltBytesAre(a);
    EndpointsCut(Walk(a.extra), a.endpoints);
    assert AltDescs(a)[1..] == Walk(a.extra) + EndpointsDescs(a.endpoints);
  }

  lemma AltBlocksLast(bs: seq<seq<Desc>>, b: seq<Desc>)
    requires (forall i :: 0 <= i < |bs| ==> bs[i] != [] && IsInterface(bs[i][0])) && b != [] && IsInterface(b[0])
    ensures AltBlocks(bs + [b]) == AltBlocks(bs) + [AltBlock(b)]
  {
    assert (bs + [b])[..|bs|] == bs;
  }

  lemma AltsDescsLast(head: seq<Desc>, alts: seq<Alt>)
    requires WellFormedAlts(alts) && alts != []
    ensures head + AltsDescs(alts) == head + AltsDescs(alts[..|alts| - 1]) + AltDescs(alts[|alts| - 1])
  {
    Assoc(head, AltsDescs(alts[..|alts| - 1]), AltDescs(alts[|alts| - 1]));
  }

  lemma {:induction false} AltsCut(head: seq<Desc>, alts: seq<Alt>)
    requires Plain(AtInterface, head) && WellFormedAlts(alts)
    ensures
      var c := CutAt(AtInterface, head + AltsDescs(alts));
      c.head == head && AltBlocks(c.blocks) == alts
  {
    if alts == [] {
      assert head + AltsDescs(alts) == head;
      CutPlainOnly(AtInterface, head);
    } else {
      var n := |alts| - 1;
      var a := alts[n];
      AltsCut(head, alts[..n]);
      AltIs(a);
      EndpointsPlain(a.endpoints);
      AltsDescsLast(head, alts);
      var before := head + AltsDescs(alts[..n]);
      CutBlock(AtInterface, before, AltBytes(a), Walk(a.extra) + EndpointsDescs(a.endpoints));
      AltBlocksLast(CutAt(AtInterface, before).blocks, AltDescs(a));
      InitLast(alts);
    }
  }

  // ----- grouping what was printed -----

  /** Alternate settings of a new number make a new interface at the end. */
  lemma {:induction false} GroupMore(alts: seq<Alt>, number: byte, more: seq<Alt>)
    requires more != [] && (forall k :: 0 <= k < |more| ==> more[k].number == number)
    requires forall i :: 0 <= i < |Group(alts)| ==> Group(alts)[i].number != number
    ensures Group(alts + more) == Group(alts) + [Interface(number, more)]
    decreases |more|
  {
    var n := |more| - 1;
    assert (alts + more)[..|alts + more| - 1] == alts + more[..n];
    if n == 0 {
      assert alts + more[..n] == alts && more == [more[0]];
    } else {
      GroupMore(alts, number, more[..n]);
      InitLast(more);
    }
  }

  lemma {:induction false} GroupAll(is_: seq<Interface>)
    requires OwnNumbers(is_)
    ensures Group(AllAlts(is_)) == is_
  {
    if is_ != [] {
      var n := |is_| - 1;
      GroupAll(is_[..n]);
      GroupMore(AllAlts(is_[..n]), is_[n].number, is_[n].alts);
      InitLast(is_);
    }
  }

  // ----- the results -----

  lemma {:induction false} WalkedAreDescs(b: seq<byte>)
    ensures AreDescs(Walk(b))
    decreases |b|
  {
    if First(b).Some? { WalkedAreDescs(b[|First(b).value|..]); }
  }

  lemma {:induction false} EndpointsAreDescs(es: seq<Endpoint>)
    requires WellFormedEndpoints(es)
    ensures AreDescs(EndpointsDescs(es))
  {
    if es != [] {
      EndpointsAreDescs(es[..|es| - 1]);
      EndpointIs(es[|es| - 1]);
      WalkedAreDescs(es[|es| - 1].extra);
    }
  }

  lemma {:induction false} AltsAreDescs(alts: seq<Alt>)
    requires WellFormedAlts(alts)
    ensures AreDescs(AltsDescs(alts))
  {
    if alts != [] {
      var a := alts[|alts| - 1];
      AltsAreDescs(alts[..|alts| - 1]);
      AltBytesAre(a);
      EndpointsAreDescs(a.endpoints);
      WalkedAreDescs(a.extra);
    }
  }

  /** The printed header, and that the descriptors after it are walked over. */
  lemma PrintedBody(c: Config)
    requires WellFormed(c)
    ensures
      var b := Print(c);
      && |b| >= 9 && b[0] == 9 && b[1] == CONFIG && Le16(b, 2) == c.totalLength && End(b) == |b| && Body(b) == Descs(c)
      && [b[4], b[5], b[6], b[7], b[8]] == [c.numInterfaces, c.value, c.stringIndex, c.attributes, c.maxPower]
  {
    var b := Print(c);
    assert b[2..4] == PutLe16(c.totalLength);
    Le16Put(b, 2, c.totalLength);
    WalkedAreDescs(c.extra);
    AltsAreDescs(AllAlts(c.interfaces));
    WalkFlatten(Descs(c));
    assert b[9..|b|] == Flatten(Descs(c));
  }

  /** A well-formed tree is parsed back from what it prints as. */
  lemma PrintThenParse(c: Config)
    requires WellFormed(c)
    ensures Parse(Print(c)) == Ok(c)
  {
    var b := Print(c);
    PrintedBody(c);
    ParseMeets(b);
    AltsCut(Walk(c.extra), AllAlts(c.interfaces));
    GroupAll(c.interfaces);
    assert b[..|b|] == b;
  }

  // ----- several trees in a row -----

  /** `split_config_descriptors`. */
  function Split(data: seq<byte>): seq<seq<byte>>
    decreases |data|
  {
    if |data| < 9 || data[1] != CONFIG || data[0] < 9 then []
    else [data[..End(data)]] + Split(data[End(data)..])
  }

  method SplitConfigs(data: seq<byte>) returns (out: seq<seq<byte>>)
    ensures out == Split(data)
  {
    var rest := data;
    out := [];
    assert out + Split(data) == Split(data);
    while |rest| >= 9
      invariant Split(data) == out + Split(rest)
      decreases |rest|
    {
      if rest[1] != CONFIG || rest[0] < 9 { break; }
      var total := End(rest);
      assert out + ([rest[..total]] + Split(rest[total..])) == out + [rest[..total]] + Split(rest[total..]);
      out := out + [rest[..total]];
      rest := rest[total..];
    }
    assert out + [] == out;
  }

  /** One tree's bytes, as long as they say. */
  predicate IsTree(b: seq<byte>) {
    |b| >= 9 && b[0] >= 9 && b[1] == 2 && b[2] + 0x100 * (b[3] as nat) == |b|
  }

  predicate AreTrees(bs: seq<seq<byte>>) {
    forall i :: 0 <= i < |bs| ==> IsTree(bs[i])
  }

  lemma SplitFirst(b: seq<byte>, tail: seq<byte>)
    requires IsTree(b)
    ensures Split(b + tail) == [b] + Split(tail)
  {
    var data := b + tail;
    assert Le16(data, 2) == Le16(b, 2);
    assert data[..|b|] == b && data[|b|..] == tail;
  }

  lemma {:induction false} SplitFront(bs: seq<seq<byte>>, tail: seq<byte>)
    requires AreTrees(bs)
    ensures Split(Flatten(bs) + tail) == bs + Split(tail)
    decreases |bs|
  {
    if bs == [] {
      assert Flatten(bs) + tail == tail;
    } else {
      var n := |bs| - 1;
      SplitFront(bs[..n], bs[n] + tail);
      SplitFirst(bs[n], tail);
      assert Flatten(bs) + tail == Flatten(bs[..n]) + (bs[n] + tail);
      assert bs[..n] + ([bs[n]] + Split(tail)) == bs + Split(tail);
    }
  }

  /** Trees written back to back come apart again. */
  lemma SplitConcat(bs: seq<seq<byte>>)
    requires AreTrees(bs)
    ensures Split(Flatten(bs)) == bs
  {
    SplitFront(bs, []);
    assert Flatten(bs) + [] == Flatten(bs) && bs + [] == bs;
  }

  /** Whatever the data is, the parts are what it begins with, and each can be parsed. */
  lemma {:induction false} SplitParts(data: seq<byte>) returns (tail: seq<byte>)
    ensures data == Flatten(Split(data)) + tail && forall i :: 0 <= i < |Split(data)| ==> Parse(Split(data)[i]).Ok?
    decreases |data|
  {
    if |data| < 9 || data[1] != CONFIG || data[0] < 9 {
      tail := data;
    } else {
      var first, rest := data[..End(data)], data[End(data)..];
      tail := SplitParts(rest);
      FlattenAppend([first], Split(rest));
      FlattenLast([], first);
      TakeDrop(data, End(data));
      Assoc(first, Flatten(Split(rest)), tail);
    }
  }
}
