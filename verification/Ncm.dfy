/** NCM transfer blocks, NTB16 (NCM 1.0, sections 3.2 and 3.3). */
module Ncm {
  import opened Arith
  import opened Bytes
  import opened Wrappers

  type Frame = seq<byte>

  const NTH16_SIGNATURE: seq<byte> := [0x4e, 0x43, 0x4d, 0x48]  // "NCMH"
  const NDP16_NO_CRC: seq<byte> := [0x4e, 0x43, 0x4d, 0x30]     // "NCM0"
  const NDP16_CRC: seq<byte> := [0x4e, 0x43, 0x4d, 0x31]        // "NCM1"
  const NTH16_LEN := 12
  const NDP16_ONE_LEN := 16
  const U16_MAX := 0xffff
  const MAX_NDPS := 16

  datatype Parameters = Parameters(outMaxSize: nat, outDivisor: nat, outRemainder: nat, outAlignment: nat)

  function Max(a: nat, b: nat): nat {
    if a > b then a else b
  }

  // ----- the parser -----

  /** What the entry at byte `entry` of an NDP that ends at `end` is. */
  datatype Entry = Last | Bad | Carries(frame: Frame)

  function EntryAt(b: seq<byte>, block: nat, end: nat, crc: bool, entry: nat): Entry
    requires end <= block <= |b|
  {
    if entry + 4 > end then Last
    else
      var index, length := Le16(b, entry), Le16(b, entry + 2);
      if index == 0 || length == 0 then Last
      else
        var n := Datagram(length, crc);
        if index < NTH16_LEN || index + n > block || n < 14 then Bad else Carries(b[index..index + n])
  }

  /** The entries of one NDP from byte `entry` on: whether they are well-formed, and the datagrams. */
  function Entries(b: seq<byte>, block: nat, end: nat, crc: bool, entry: nat): (bool, seq<Frame>)
    requires end <= block <= |b|
    decreases end - entry
  {
    match EntryAt(b, block, end, crc, entry)
    case Last => (true, [])
    case Bad => (false, [])
    case Carries(f) =>
      var (ok, rest) := Entries(b, block, end, crc, entry + 4);
      (ok, [f] + rest)
  }

  /** Bytes of frame in an entry of `length` bytes; under a CRC signature the last four are none. */
  function Datagram(length: nat, crc: bool): nat {
    if !crc then length else if length >= 4 then length - 4 else 0
  }

  /** Whether there is an NDP at `ndp`. */
  predicate NdpAt(b: seq<byte>, block: nat, ndp: nat)
    requires block <= |b|
  {
    && NTH16_LEN <= ndp && ndp % 4 == 0 && ndp + 8 <= block
    && (b[ndp..ndp + 4] == NDP16_NO_CRC || b[ndp..ndp + 4] == NDP16_CRC)
    && Le16(b, ndp + 4) >= 16 && ndp + Le16(b, ndp + 4) <= block
  }

  /** What the NDP at `ndp` gives. */
  function OneNdp(b: seq<byte>, block: nat, ndp: nat): (bool, seq<Frame>)
    requires block <= |b|
  {
    if !NdpAt(b, block, ndp) then (false, [])
    else Entries(b, block, ndp + Le16(b, ndp + 4), b[ndp..ndp + 4] == NDP16_CRC, ndp + 8)
  }

  /** The chain of NDPs from `ndp` on, following at most `fuel` of them. */
  function Chain(b: seq<byte>, block: nat, ndp: nat, fuel: nat): (bool, seq<Frame>)
    requires block <= |b|
    decreases fuel
  {
    if fuel == 0 then (false, [])
    else if ndp == 0 then (true, [])
    else
      var (ok, frames) := OneNdp(b, block, ndp);
      if !ok then (false, frames)
      else
        var (ok', rest) := Chain(b, block, Le16(b, ndp + 6), fuel - 1);
        (ok', frames + rest)
  }

  predicate HeaderAt0(b: seq<byte>) {
    |b| >= NTH16_LEN && b[0..4] == NTH16_SIGNATURE && Le16(b, 4) == NTH16_LEN
  }

  function Block(b: seq<byte>): (r: nat)
    ensures r <= |b|
  {
    if Le16(b, 8) < |b| then Le16(b, 8) else |b|
  }

  /** `parse_ntb16`: whether the block is well-formed, and the datagrams emitted. */
  function Parse(b: seq<byte>): (bool, seq<Frame>) {
    if !HeaderAt0(b) then (false, []) else Chain(b, Block(b), Le16(b, 10), MAX_NDPS)
  }

  method ParseEntry(b: seq<byte>, block: nat, crc: bool, entry: nat, ghost end: nat) returns (r: Entry)
    requires entry + 4 <= end <= block <= |b|
    ensures r == EntryAt(b, block, end, crc, entry)
  {
    var index, length := Le16(b, entry), Le16(b, entry + 2);
    if index == 0 || length == 0 { return Last; }
    var n := Datagram(length, crc);
    if index < NTH16_LEN || index + n > block || n < 14 { return Bad; }
    r := Carries(b[index..index + n]);
  }

  method ParseEntries(b: seq<byte>, block: nat, end: nat, crc: bool, start: nat) returns (ok: bool, emitted: seq<Frame>)
    requires end <= block <= |b|
    ensures (ok, emitted) == Entries(b, block, end, crc, start)
  {
    emitted := [];
    var entry := start;
    ghost var all := Entries(b, block, end, crc, start);
    assert emitted + all.1 == all.1;
    while entry + 4 <= end
      invariant all == (Entries(b, block, end, crc, entry).0, emitted + Entries(b, block, end, crc, entry).1)
      decreases end - entry
    {
      var e := ParseEntry(b, block, crc, entry, end);
      if e.Last? { break; }
      if e.Bad? {
        assert emitted + [] == emitted;
        return false, emitted;
      }
      ghost var rest := Entries(b, block, end, crc, entry + 4).1;
      assert emitted + ([e.frame] + rest) == emitted + [e.frame] + rest;
      emitted := emitted + [e.frame];
      entry := entry + 4;
    }
    assert emitted + [] == emitted;
    ok := true;
  }

  method ParseNdp(b: seq<byte>, block: nat, ndp: nat) returns (ok: bool, emitted: seq<Frame>)
    requires block <= |b|
    ensures (ok, emitted) == OneNdp(b, block, ndp)
  {
    if ndp < NTH16_LEN || ndp % 4 != 0 || ndp + 8 > block { return false, []; }
    var sig := b[ndp..ndp + 4];
    if sig != NDP16_NO_CRC && sig != NDP16_CRC { return false, []; }
    var len := Le16(b, ndp + 4);
    if len < 16 || ndp + len > block { return false, []; }
    ok, emitted := ParseEntries(b, block, ndp + len, sig == NDP16_CRC, ndp + 8);
  }

  lemma ChainStep(b: seq<byte>, block: nat, ndp: nat, fuel: nat, before: seq<Frame>)
    requires block <= |b| && fuel > 0 && ndp != 0 && OneNdp(b, block, ndp).0
    ensures
      var (ok, frames) := Chain(b, block, ndp, fuel);
      var (ok', rest) := Chain(b, block, Le16(b, ndp + 6), fuel - 1);
      ok == ok' && before + frames == before + OneNdp(b, block, ndp).1 + rest
  {
  }

  method ParseNtb16(b: seq<byte>) returns (ok: bool, emitted: seq<Frame>)
    ensures (ok, emitted) == Parse(b)
  {
    emitted := [];
    if |b| < NTH16_LEN || b[0..4] != NTH16_SIGNATURE || Le16(b, 4) != NTH16_LEN {
      return false, emitted;
    }
    var block := Block(b);
    var ndp := Le16(b, 10);
    var left: nat := MAX_NDPS;  // so that a cycle of NDPs is left
    ghost var all := Parse(b);
    assert emitted + all.1 == all.1;
    while left > 0
      invariant all.0 == Chain(b, block, ndp, left).0 && all.1 == emitted + Chain(b, block, ndp, left).1
    {
      assert emitted + [] == emitted;
      if ndp == 0 { return true, emitted; }
      var fine, frames := ParseNdp(b, block, ndp);
      if !fine { return false, emitted + frames; }
      ChainStep(b, block, ndp, left, emitted);
      emitted := emitted + frames;
      ndp := Le16(b, ndp + 6);
      left := left - 1;
    }
    assert emitted + [] == emitted;
    ok := false;
  }

  // ----- whatever the bytes are -----

  /** A datagram that lies inside the block, past its header. */
  predicate Inside(b: seq<byte>, block: nat, f: Frame) {
    |f| >= 14 && exists at :: NTH16_LEN <= at && at + |f| <= block <= |b| && Lies(b, at, f)
  }

  predicate Lies(b: seq<byte>, at: nat, f: Frame) {
    at + |f| <= |b| && b[at..at + |f|] == f
  }

  lemma {:induction false} EntriesInside(b: seq<byte>, block: nat, end: nat, crc: bool, entry: nat)
    requires end <= block <= |b|
    ensures forall i :: 0 <= i < |Entries(b, block, end, crc, entry).1| ==> Inside(b, block, Entries(b, block, end, crc, entry).1[i])
    decreases end - entry
  {
    var frames := Entries(b, block, end, crc, entry).1;
    if frames != [] {
      assert Lies(b, Le16(b, entry), frames[0]);
      EntriesInside(b, block, end, crc, entry + 4);
    }
  }

  lemma {:induction false} ChainInside(b: seq<byte>, block: nat, ndp: nat, fuel: nat)
    requires block <= |b|
    ensures forall i :: 0 <= i < |Chain(b, block, ndp, fuel).1| ==> Inside(b, block, Chain(b, block, ndp, fuel).1[i])
    decreases fuel
  {
    if fuel > 0 && ndp != 0 && NdpAt(b, block, ndp) {
      EntriesInside(b, block, ndp + Le16(b, ndp + 4), b[ndp..ndp + 4] == NDP16_CRC, ndp + 8);
      ChainInside(b, block, Le16(b, ndp + 6), fuel - 1);
    }
  }

  /** From any bytes at all, only parts of the block come out. */
  lemma ParseInside(b: seq<byte>, i: nat)
    requires i < |Parse(b).1|
    ensures Inside(b, if Le16(b, 8) < |b| then Le16(b, 8) else |b|, Parse(b).1[i])
  {
    ChainInside(b, Block(b), Le16(b, 10), MAX_NDPS);
  }

  // ----- laid-out chains -----

  /** One NDP of a layout: where it is, its length, and the datagrams it lists. */
  datatype Gram = Gram(index: nat, length: nat)
  datatype Ndp = Ndp(at: nat, len: nat, crc: bool, grams: seq<Gram>)

  /** A frame with its Ethernet header, and four bytes of checksum behind it if there is one. */
  predicate GramFits(block: nat, crc: bool, g: Gram) {
    12 <= g.index && (if crc then g.length >= 18 && g.index + g.length - 4 <= block else g.length >= 14 && g.index + g.length <= block)
  }

  /** The entries from byte `entry` on list just these datagrams, and then end. */
  predicate Lists(b: seq<byte>, block: nat, end: nat, crc: bool, entry: nat, grams: seq<Gram>)
    decreases |grams|
  {
    if grams == [] then entry + 4 > end || Le16(b, entry) == 0 || Le16(b, entry + 2) == 0
    else
      && entry + 4 <= end && Le16(b, entry) == grams[0].index && Le16(b, entry + 2) == grams[0].length
      && GramFits(block, crc, grams[0]) && Lists(b, block, end, crc, entry + 4, grams[1..])
  }

  /** The block holds this NDP. */
  predicate Holds(b: seq<byte>, block: nat, n: Ndp)
    requires block <= |b|
  {
    && 12 <= n.at && n.at % 4 == 0 && n.at + 8 <= block && n.len >= 16 && n.at + n.len <= block
    && b[n.at..n.at + 4] == [0x4e, 0x43, 0x4d, if n.crc then 0x31 else 0x30] && Le16(b, n.at + 4) == n.len
    && Lists(b, block, n.at + n.len, n.crc, n.at + 8, n.grams)
  }

  predicate LinkedAt(b: seq<byte>, block: nat, ns: seq<Ndp>, i: nat, next: nat)
    requires block <= |b| && i < |ns|
  {
    Holds(b, block, ns[i]) && Le16(b, ns[i].at + 6) == if i + 1 < |ns| then ns[i + 1].at else next
  }

  /** The NDPs `ns` are chained in the block from byte `at` on, and the last one refers to `next`. */
  predicate Chained(b: seq<byte>, block: nat, at: nat, ns: seq<Ndp>, next: nat)
    requires block <= |b|
  {
    && (forall i :: 0 <= i < |ns| ==> LinkedAt(b, block, ns, i, next))
    && at == if ns == [] then next else ns[0].at
  }

  function Cut(b: seq<byte>, g: Gram, crc: bool): seq<byte> {
    if crc then (if 4 <= g.length && g.index + g.length - 4 <= |b| then b[g.index..g.index + g.length - 4] else [])
    else if g.index + g.length <= |b| then b[g.index..g.index + g.length]
    else []
  }

  function Carried(b: seq<byte>, crc: bool, grams: seq<Gram>): seq<Frame> {
    if grams == [] then [] else [Cut(b, grams[0], crc)] + Carried(b, crc, grams[1..])
  }

  function AllCarried(b: seq<byte>, ns: seq<Ndp>): seq<Frame> {
    if ns == [] then [] else Carried(b, ns[0].crc, ns[0].grams) + AllCarried(b, ns[1..])
  }

  /** The first `n` NDPs. */
  function Upto(ns: seq<Ndp>, n: nat): seq<Ndp> {
    if |ns| < n then ns else ns[..n]
  }

  lemma EntryListed(b: seq<byte>, block: nat, end: nat, crc: bool, entry: nat, grams: seq<Gram>)
    requires end <= block <= |b| && Lists(b, block, end, crc, entry, grams)
    ensures EntryAt(b, block, end, crc, entry) == if grams == [] then Last else Carries(Cut(b, grams[0], crc))
  {
  }

  lemma {:induction false} EntriesCarried(b: seq<byte>, block: nat, end: nat, crc: bool, entry: nat, grams: seq<Gram>)
    requires end <= block <= |b| && Lists(b, block, end, crc, entry, grams)
    ensures Entries(b, block, end, crc, entry) == (true, Carried(b, crc, grams))
    decreases |grams|
  {
    EntryListed(b, block, end, crc, entry, grams);
    if grams != [] { EntriesCarried(b, block, end, crc, entry + 4, grams[1..]); }
  }

  lemma HoldsNdp(b: seq<byte>, block: nat, n: Ndp)
    requires block <= |b| && Holds(b, block, n)
    ensures n.at + n.len <= block && Lists(b, block, n.at + n.len, n.crc, n.at + 8, n.grams)
    ensures OneNdp(b, block, n.at) == Entries(b, block, n.at + n.len, n.crc, n.at + 8)
  {
    SignatureIs(b[n.at..n.at + 4], n.crc);
  }

  lemma SignatureIs(s: seq<byte>, crc: bool)
    requires s == [0x4e, 0x43, 0x4d, if crc then 0x31 else 0x30]
    ensures (s == NDP16_NO_CRC || s == NDP16_CRC) && ((s == NDP16_CRC) == crc)
  {
    assert s[3] == if crc then 0x31 else 0x30;
  }

  lemma NdpCarried(b: seq<byte>, block: nat, n: Ndp)
    requires block <= |b| && Holds(b, block, n)
    ensures OneNdp(b, block, n.at) == (true, Carried(b, n.crc, n.grams))
  {
    HoldsNdp(b, block, n);
    EntriesCarried(b, block, n.at + n.len, n.crc, n.at + 8, n.grams);
  }

  /** The datagrams of a chain come out in order, up to the end of the walk; a chain as long as that
      is not taken for a finished one. */
  lemma {:induction false} ChainCarried(b: seq<byte>, block: nat, at: nat, ns: seq<Ndp>, next: nat, fuel: nat)
    requires block <= |b| && Chained(b, block, at, ns, next) && (next == 0 || |ns| >= fuel)
    ensures Chain(b, block, at, fuel) == (|ns| < fuel, AllCarried(b, Upto(ns, fuel)))
    decreases fuel
  {
    if ns == [] || fuel == 0 {
      ChainOver(b, block, at, fuel);
    } else {
      ChainedFront(b, block, at, ns, next);
      ChainedTail(b, block, at, ns, next);
      ChainCarried(b, block, Le16(b, at + 6), ns[1..], next, fuel - 1);
      ChainMore(b, block, at, ns, fuel);
    }
  }

  lemma ChainedFront(b: seq<byte>, block: nat, at: nat, ns: seq<Ndp>, next: nat)
    requires block <= |b| && ns != [] && Chained(b, block, at, ns, next)
    ensures at > 0 && OneNdp(b, block, at) == (true, Carried(b, ns[0].crc, ns[0].grams))
  {
    assert LinkedAt(b, block, ns, 0, next);
    NdpCarried(b, block, ns[0]);
  }

  lemma ChainedTail(b: seq<byte>, block: nat, at: nat, ns: seq<Ndp>, next: nat)
    requires block <= |b| && ns != [] && Chained(b, block, at, ns, next)
    ensures Chained(b, block, Le16(b, at + 6), ns[1..], next)
  {
    forall i | 0 <= i < |ns[1..]| ensures LinkedAt(b, block, ns[1..], i, next) { assert LinkedAt(b, block, ns, i + 1, next); }
    assert LinkedAt(b, block, ns, 0, next);
  }

  lemma ChainOver(b: seq<byte>, block: nat, at: nat, fuel: nat)
    requires block <= |b| && (fuel > 0 ==> at == 0)
    ensures Chain(b, block, at, fuel) == (fuel > 0, [])
  {
  }

  lemma ChainMore(b: seq<byte>, block: nat, at: nat, ns: seq<Ndp>, fuel: nat)
    requires block <= |b| && ns != [] && fuel > 0 && at > 0
    requires OneNdp(b, block, at) == (true, Carried(b, ns[0].crc, ns[0].grams))
    requires Chain(b, block, Le16(b, at + 6), fuel - 1) == (|ns| < fuel, AllCarried(b, Upto(ns[1..], fuel - 1)))
    ensures Chain(b, block, at, fuel) == (|ns| < fuel, AllCarried(b, Upto(ns, fuel)))
  {
    FirstCarried(b, ns, fuel);
  }

  lemma FirstCarried(b: seq<byte>, ns: seq<Ndp>, n: nat)
    requires ns != [] && n > 0
    ensures AllCarried(b, Upto(ns, n)) == Carried(b, ns[0].crc, ns[0].grams) + AllCarried(b, Upto(ns[1..], n - 1))
  {
    assert |ns| >= n ==> ns[..n][1..] == ns[1..][..n - 1];
  }

  /** "NCMH" and the length of the header. */
  predicate Headed(b: seq<byte>) {
    |b| >= 12 && b[0] == 0x4e && b[1] == 0x43 && b[2] == 0x4d && b[3] == 0x48 && Le16(b, 4) == 12
  }

  /** What there is of the block. */
  function Held(b: seq<byte>): (r: nat)
    ensures r <= |b|
  {
    if |b| <= Le16(b, 8) then |b| else Le16(b, 8)
  }

  lemma HeadedIs(b: seq<byte>)
    ensures Headed(b) <==> HeaderAt0(b)
  {
    if |b| >= 12 { assert b[0..4] == [b[0], b[1], b[2], b[3]]; }
  }

  /** Any laid-out block gives all datagrams of its first 16 NDPs in order; it is accepted exactly if
      there are at most 15.  A chain of 16 need not end: it may run back into itself. */
  lemma ParseLaidOut(b: seq<byte>, ns: seq<Ndp>, next: nat)
    requires Headed(b) && Chained(b, Held(b), Le16(b, 10), ns, next) && (next == 0 || |ns| >= 16)
    ensures Parse(b) == (|ns| < 16, AllCarried(b, Upto(ns, 16)))
  {
    HeadedIs(b);
    ChainCarried(b, Block(b), Le16(b, 10), ns, next, MAX_NDPS);
  }

  // ----- only laid-out chains are accepted -----

  lemma CarriesGram(b: seq<byte>, block: nat, end: nat, crc: bool, entry: nat)
    requires end <= block <= |b| && EntryAt(b, block, end, crc, entry).Carries?
    ensures
      var g := Gram(Le16(b, entry), Le16(b, entry + 2));
      entry + 4 <= end && GramFits(block, crc, g) && EntryAt(b, block, end, crc, entry).frame == Cut(b, g, crc)
  {
  }

  lemma {:induction false} EntriesList(b: seq<byte>, block: nat, end: nat, crc: bool, entry: nat) returns (grams: seq<Gram>)
    requires end <= block <= |b| && Entries(b, block, end, crc, entry).0
    ensures Lists(b, block, end, crc, entry, grams)
    decreases end - entry
  {
    if EntryAt(b, block, end, crc, entry).Carries? {
      CarriesGram(b, block, end, crc, entry);
      var rest := EntriesList(b, block, end, crc, entry + 4);
      grams := [Gram(Le16(b, entry), Le16(b, entry + 2))] + rest;
      assert grams[1..] == rest;
    } else {
      grams := [];
    }
  }

  lemma NdpHolds(b: seq<byte>, block: nat, at: nat) returns (n: Ndp)
    requires block <= |b| && OneNdp(b, block, at).0
    ensures n.at == at && Holds(b, block, n)
  {
    var crc := b[at..at + 4] == NDP16_CRC;
    var grams := EntriesList(b, block, at + Le16(b, at + 4), crc, at + 8);
    n := Ndp(at, Le16(b, at + 4), crc, grams);
  }

  lemma {:induction false} ChainIsLaidOut(b: seq<byte>, block: nat, at: nat, fuel: nat) returns (ns: seq<Ndp>)
    requires block <= |b| && Chain(b, block, at, fuel).0
    ensures Chained(b, block, at, ns, 0) && |ns| < fuel
    decreases fuel
  {
    if at == 0 {
      ns := [];
    } else {
      var n := NdpHolds(b, block, at);
      var rest := ChainIsLaidOut(b, block, Le16(b, at + 6), fuel - 1);
      ns := [n] + rest;
      ChainedFirst(b, block, n, rest);
    }
  }

  lemma ChainedFirst(b: seq<byte>, block: nat, n: Ndp, rest: seq<Ndp>)
    requires block <= |b| && Holds(b, block, n) && Chained(b, block, Le16(b, n.at + 6), rest, 0)
    ensures Chained(b, block, n.at, [n] + rest, 0)
  {
    var ns := [n] + rest;
    forall i | 0 <= i < |ns| ensures LinkedAt(b, block, ns, i, 0) {
      if i > 0 { assert LinkedAt(b, block, rest, i - 1, 0); }
    }
  }

  /** What is accepted is a chain of at most 15 NDPs, and what comes out of it is what they list. */
  lemma ParseOnlyLaidOut(b: seq<byte>) returns (ns: seq<Ndp>)
    requires Parse(b).0
    ensures Headed(b) && Chained(b, Held(b), Le16(b, 10), ns, 0) && |ns| < 16 && Parse(b).1 == AllCarried(b, ns)
  {
    HeadedIs(b);
    ns := ChainIsLaidOut(b, Block(b), Le16(b, 10), MAX_NDPS);
    ParseLaidOut(b, ns, 0);
  }

  // ----- building -----

  function AlignUp(v: nat, to: nat): nat {
    if to <= 1 then v else (v + to - 1) / to * to
  }

  lemma AlignUpIs(v: nat, to: nat)
    requires to > 0
    ensures v <= AlignUp(v, to) < v + to && AlignUp(v, to) % to == 0
  {
    if to > 1 {
      var q := (v + to - 1) / to;
      assert v + to - 1 == q * to + (v + to - 1) % to;
      DivModUnique(q * to, to, q, 0);
    }
  }

  function NdpOffset(p: Parameters): nat {
    AlignUp(NTH16_LEN, Max(p.outAlignment, 4))
  }

  function Divisor(p: Parameters): nat {
    Max(p.outDivisor, 1)
  }

  function DataOffset(p: Parameters): nat {
    AlignUp(NdpOffset(p) + NDP16_ONE_LEN, Divisor(p)) + p.outRemainder % Divisor(p)
  }

  function Total(p: Parameters, len: nat, padMultiple: nat): nat {
    var total := DataOffset(p) + len;
    if padMultiple > 0 && total % padMultiple == 0 then total + 1 else total
  }

  /** Where things go: the NDP after the header, the datagram after the NDP at an offset with the
      remainder the device asked for, and a length that ends with a short packet if any can. */
  lemma Layout(p: Parameters, len: nat, padMultiple: nat)
    ensures 12 <= NdpOffset(p) && NdpOffset(p) + 16 <= DataOffset(p)
    ensures DataOffset(p) % Divisor(p) == p.outRemainder % Divisor(p)
    ensures
      var a := if p.outAlignment < 4 then 4 else p.outAlignment;
      NdpOffset(p) % a == 0 && NdpOffset(p) < 12 + a
    ensures DataOffset(p) < NdpOffset(p) + 16 + 2 * Divisor(p)
    ensures DataOffset(p) + len <= Total(p, len, padMultiple) <= DataOffset(p) + len + 1
    ensures padMultiple > 0 ==> (Total(p, len, padMultiple) % padMultiple != 0 <==> padMultiple != 1)
  {
    AlignUpIs(NTH16_LEN, Max(p.outAlignment, 4));
    var d, start := Divisor(p), AlignUp(NdpOffset(p) + NDP16_ONE_LEN, Divisor(p));
    AlignUpIs(NdpOffset(p) + NDP16_ONE_LEN, d);
    DivModUnique(start + p.outRemainder % d, d, start / d, p.outRemainder % d);
    if padMultiple > 1 && (DataOffset(p) + len) % padMultiple == 0 {
      OneMoreIsNoMultiple(DataOffset(p) + len, padMultiple);
    }
  }

  lemma SmallAlignment(a: nat)
    requires 4 <= a <= NTH16_LEN
    ensures AlignUp(NTH16_LEN, a) % 4 == 0 <==> a % 2 == 0
  {
    if a == 4 {} else if a == 5 {} else if a == 6 {} else if a == 7 {} else if a == 8 {} else if a == 9 {} else if a == 10 {}
    else if a == 11 {}
  }

  lemma LargeAlignment(a: nat)
    requires a > NTH16_LEN
    ensures AlignUp(NTH16_LEN, a) == a
  {
    DivModUnique(NTH16_LEN + a - 1, a, 1, NTH16_LEN - 1);
  }

  /** The parser insists on an NDP at a multiple of 4: just these alignments give one. */
  lemma NdpAligned(p: Parameters)
    ensures NdpOffset(p) % 4 == 0 <==> p.outAlignment <= 4 || p.outAlignment % 4 == 0 || p.outAlignment in {6, 10}
  {
    var a := Max(p.outAlignment, 4);
    if a <= NTH16_LEN { SmallAlignment(a); } else { LargeAlignment(a); }
  }

  function Header(sequence: nat, total: nat, ndp: nat): (r: seq<byte>)
    requires sequence <= U16_MAX && total <= U16_MAX && ndp <= U16_MAX
    ensures |r| == NTH16_LEN
  {
    NTH16_SIGNATURE + PutLe16(NTH16_LEN) + PutLe16(sequence) + PutLe16(total) + PutLe16(ndp)
  }

  function NdpBytes(data: nat, len: nat): (r: seq<byte>)
    requires data <= U16_MAX && len <= U16_MAX
    ensures |r| == NDP16_ONE_LEN
  {
    NDP16_NO_CRC + PutLe16(NDP16_ONE_LEN) + PutLe16(0) + PutLe16(data) + PutLe16(len) + [0, 0, 0, 0]
  }

  predicate LaysOut(frame: Frame, sequence: nat, ndp: nat, data: nat, total: nat) {
    NTH16_LEN <= ndp && ndp + NDP16_ONE_LEN <= data && data + |frame| <= total <= U16_MAX && sequence <= U16_MAX
  }

  /** The block for one frame. */
  function Ntb(frame: Frame, sequence: nat, ndp: nat, data: nat, total: nat): (r: seq<byte>)
    requires LaysOut(frame, sequence, ndp, data, total)
    ensures |r| == total
  {
    Header(sequence, total, ndp) + Zeros(ndp - NTH16_LEN) + NdpBytes(data, |frame|)
    + Zeros(data - ndp - NDP16_ONE_LEN) + frame + Zeros(total - data - |frame|)
  }

  method FillHeader(b: array<byte>, sequence: nat, total: nat, ndp: nat)
    requires b.Length >= NTH16_LEN && sequence <= U16_MAX && total <= U16_MAX && ndp <= U16_MAX
    modifies b
    ensures b[..NTH16_LEN] == Header(sequence, total, ndp)
    ensures forall k :: NTH16_LEN <= k < b.Length ==> b[k] == old(b[k])
  {
    PutAt(b, 0, NTH16_SIGNATURE);
    PutAt(b, 4, PutLe16(NTH16_LEN));
    PutAt(b, 6, PutLe16(sequence));
    PutAt(b, 8, PutLe16(total));
    PutAt(b, 10, PutLe16(ndp));
    assert b[0..4] == NTH16_SIGNATURE && b[4..6] == PutLe16(NTH16_LEN) && b[6..8] == PutLe16(sequence);
    assert b[8..10] == PutLe16(total) && b[10..12] == PutLe16(ndp);
    assert b[..NTH16_LEN] == b[0..4] + b[4..6] + b[6..8] + b[8..10] + b[10..12];
  }

  method FillNdp(b: array<byte>, ndp: nat, data: nat, len: nat)
    requires ndp + NDP16_ONE_LEN <= b.Length && data <= U16_MAX && len <= U16_MAX
    requires forall k :: ndp <= k < ndp + NDP16_ONE_LEN ==> b[k] == 0
    modifies b
    ensures b[ndp..ndp + NDP16_ONE_LEN] == NdpBytes(data, len)
    ensures forall k :: 0 <= k < b.Length && !(ndp <= k < ndp + NDP16_ONE_LEN) ==> b[k] == old(b[k])
  {
    PutAt(b, ndp, NDP16_NO_CRC);
    PutAt(b, ndp + 4, PutLe16(NDP16_ONE_LEN));
    PutAt(b, ndp + 8, PutLe16(data));
    PutAt(b, ndp + 10, PutLe16(len));
    NdpWhole(b[..], ndp, data, len);
  }

  lemma NdpWhole(s: seq<byte>, ndp: nat, data: nat, len: nat)
    requires ndp + NDP16_ONE_LEN <= |s| && data <= U16_MAX && len <= U16_MAX
    requires s[ndp..ndp + 4] == NDP16_NO_CRC && s[ndp + 4..ndp + 6] == PutLe16(NDP16_ONE_LEN)
    requires s[ndp + 6] == s[ndp + 7] == 0 && s[ndp + 8..ndp + 10] == PutLe16(data)
    requires s[ndp + 10..ndp + 12] == PutLe16(len) && forall k :: ndp + 12 <= k < ndp + 16 ==> s[k] == 0
    ensures s[ndp..ndp + NDP16_ONE_LEN] == NdpBytes(data, len)
  {
    assert s[ndp + 6..ndp + 8] == PutLe16(0) && s[ndp + 12..ndp + 16] == [0, 0, 0, 0];
    SliceJoin(s, ndp, ndp + 4, ndp + 6);
    SliceJoin(s, ndp, ndp + 6, ndp + 8);
    SliceJoin(s, ndp, ndp + 8, ndp + 10);
    SliceJoin(s, ndp, ndp + 10, ndp + 12);
    SliceJoin(s, ndp, ndp + 12, ndp + 16);
  }

  /** Bytes that have the parts of the block, and zeros between them, are the block. */
  lemma AllParts(s: seq<byte>, frame: Frame, sequence: nat, ndp: nat, data: nat, total: nat)
    requires LaysOut(frame, sequence, ndp, data, total) && |s| == total
    requires s[..NTH16_LEN] == Header(sequence, total, ndp) && s[ndp..ndp + NDP16_ONE_LEN] == NdpBytes(data, |frame|)
    requires s[data..data + |frame|] == frame
    requires forall k :: 0 <= k < total ==>
      (NTH16_LEN <= k < ndp || ndp + NDP16_ONE_LEN <= k < data || data + |frame| <= k ==> s[k] == 0)
    ensures s == Ntb(frame, sequence, ndp, data, total)
  {
    assert s[NTH16_LEN..ndp] == Zeros(ndp - NTH16_LEN);
    assert s[ndp + NDP16_ONE_LEN..data] == Zeros(data - ndp - NDP16_ONE_LEN);
    assert s[data + |frame|..] == Zeros(total - data - |frame|);
    SliceJoin(s, 0, NTH16_LEN, ndp);
    SliceJoin(s, 0, ndp, ndp + NDP16_ONE_LEN);
    SliceJoin(s, 0, ndp + NDP16_ONE_LEN, data);
    SliceJoin(s, 0, data, data + |frame|);
    SliceJoin(s, 0, data + |frame|, total);
  }

  method FillNtb(frame: Frame, sequence: nat, ndp: nat, data: nat, total: nat) returns (b: array<byte>)
    requires LaysOut(frame, sequence, ndp, data, total)
    ensures b[..] == Ntb(frame, sequence, ndp, data, total)
  {
    b := new byte[total](_ => 0);
    FillHeader(b, sequence, total, ndp);
    FillNdp(b, ndp, data, |frame|);
    PutAt(b, data, frame);
    var s := b[..];
    assert s[..NTH16_LEN] == b[..NTH16_LEN] && s[ndp..ndp + NDP16_ONE_LEN] == b[ndp..ndp + NDP16_ONE_LEN];
    assert s[data..data + |frame|] == b[data..data + |frame|];
    AllParts(s, frame, sequence, ndp, data, total);
  }

  datatype BuildError = FrameTooLarge

  /** `build_ntb16`. */
  method BuildNtb16(frame: Frame, sequence: nat, p: Parameters, padMultiple: nat) returns (r: Result<seq<byte>, BuildError>)
    requires sequence <= U16_MAX
    ensures
      var total := Total(p, |frame|, padMultiple);
      && (r.Ok? <==> total <= p.outMaxSize && total <= 65535)
      && (r.Ok? ==>
            && LaysOut(frame, sequence, NdpOffset(p), DataOffset(p), total)
            && r.value == Ntb(frame, sequence, NdpOffset(p), DataOffset(p), total))
  {
    Layout(p, |frame|, padMultiple);
    var ndp := NdpOffset(p);
    var divisor := if p.outDivisor > 1 then p.outDivisor else 1;
    var remainder := p.outRemainder % divisor;
    var data := AlignUp(ndp + NDP16_ONE_LEN, divisor) + remainder;
    var total := data + |frame|;
    if padMultiple > 0 && total % padMultiple == 0 {
      total := total + 1;
    }
    if total > p.outMaxSize || total > U16_MAX {
      return Err(FrameTooLarge);
    }
    var b := FillNtb(frame, sequence, ndp, data, total);
    r := Ok(b[..]);
  }

  // ----- what is built is parsed -----

  lemma Le16In(b: seq<byte>, at: nat, inner: nat, piece: seq<byte>, v: nat)
    requires at + |piece| <= |b| && b[at..at + |piece|] == piece
    requires inner + 2 <= |piece| && v <= U16_MAX && piece[inner..inner + 2] == PutLe16(v)
    ensures Le16(b, at + inner) == v
  {
    assert b[at + inner] == piece[inner] && b[at + inner + 1] == piece[inner + 1];
    assert piece[inner] == piece[inner..inner + 2][0] && piece[inner + 1] == piece[inner..inner + 2][1];
  }

  lemma HeaderParts(sequence: nat, total: nat, ndp: nat)
    requires sequence <= U16_MAX && total <= U16_MAX && ndp <= U16_MAX
    ensures
      var h := Header(sequence, total, ndp);
      && h[0..4] == NTH16_SIGNATURE && h[4..6] == PutLe16(NTH16_LEN) && h[6..8] == PutLe16(sequence)
      && h[8..10] == PutLe16(total) && h[10..12] == PutLe16(ndp)
  {
  }

  lemma NdpParts(data: nat, len: nat)
    requires data <= U16_MAX && len <= U16_MAX
    ensures
      var d := NdpBytes(data, len);
      && d[0..4] == NDP16_NO_CRC && d[4..6] == PutLe16(NDP16_ONE_LEN) && d[6..8] == PutLe16(0)
      && d[8..10] == PutLe16(data) && d[10..12] == PutLe16(len) && d[12..14] == PutLe16(0) && d[14..16] == PutLe16(0)
  {
  }

  lemma NtbHeader(frame: Frame, sequence: nat, ndp: nat, data: nat, total: nat)
    requires LaysOut(frame, sequence, ndp, data, total)
    ensures
      var b := Ntb(frame, sequence, ndp, data, total);
      && b[0..4] == [0x4e, 0x43, 0x4d, 0x48] && Le16(b, 4) == 12 && Le16(b, 6) == sequence && Le16(b, 8) == total
      && Le16(b, 10) == ndp && HeaderAt0(b) && Block(b) == total
  {
    var b, h := Ntb(frame, sequence, ndp, data, total), Header(sequence, total, ndp);
    HeaderParts(sequence, total, ndp);
    assert b[0..0 + |h|] == h;
    assert b[0..4] == b[0..0 + |h|][0..4];
    Le16In(b, 0, 4, h, NTH16_LEN);
    Le16In(b, 0, 6, h, sequence);
    Le16In(b, 0, 8, h, total);
    Le16In(b, 0, 10, h, ndp);
  }

  lemma NtbNdp(frame: Frame, sequence: nat, ndp: nat, data: nat, total: nat)
    requires LaysOut(frame, sequence, ndp, data, total)
    ensures
      var b := Ntb(frame, sequence, ndp, data, total);
      && b[ndp..ndp + 4] == [0x4e, 0x43, 0x4d, 0x30] && Le16(b, ndp + 4) == 16 && Le16(b, ndp + 6) == 0
      && Le16(b, ndp + 8) == data && Le16(b, ndp + 10) == |frame| && Le16(b, ndp + 12) == 0 && Le16(b, ndp + 14) == 0
      && b[data..data + |frame|] == frame
  {
    var b, d := Ntb(frame, sequence, ndp, data, total), NdpBytes(data, |frame|);
    NdpParts(data, |frame|);
    assert b[ndp..ndp + |d|] == d;
    assert b[ndp..ndp + 4] == b[ndp..ndp + |d|][0..4];
    Le16In(b, ndp, 4, d, NDP16_ONE_LEN);
    Le16In(b, ndp, 6, d, 0);
    Le16In(b, ndp, 8, d, data);
    Le16In(b, ndp, 10, d, |frame|);
    Le16In(b, ndp, 12, d, 0);
    Le16In(b, ndp, 14, d, 0);
  }

  /** What a built block gives when its NDP is where the parser accepts one. */
  lemma BuiltNdp(frame: Frame, sequence: nat, ndp: nat, data: nat, total: nat)
    requires LaysOut(frame, sequence, ndp, data, total) && ndp % 4 == 0
    ensures
      var b := Ntb(frame, sequence, ndp, data, total);
      && NdpAt(b, total, ndp) && b[ndp..ndp + 4] != NDP16_CRC
      && EntryAt(b, total, ndp + NDP16_ONE_LEN, false, ndp + 8) ==
           (if |frame| == 0 then Last else if |frame| < 14 then Bad else Carries(frame))
      && EntryAt(b, total, ndp + NDP16_ONE_LEN, false, ndp + 12) == Last
  {
    NtbNdp(frame, sequence, ndp, data, total);
    assert NDP16_NO_CRC[3] != NDP16_CRC[3];
  }

  lemma BuiltOneNdp(frame: Frame, sequence: nat, ndp: nat, data: nat, total: nat)
    requires LaysOut(frame, sequence, ndp, data, total) && ndp % 4 == 0
    ensures OneNdp(Ntb(frame, sequence, ndp, data, total), total, ndp) ==
      if |frame| == 0 then (true, []) else if |frame| < 14 then (false, []) else (true, [frame])
  {
    var b := Ntb(frame, sequence, ndp, data, total);
    BuiltNdp(frame, sequence, ndp, data, total);
    NtbNdp(frame, sequence, ndp, data, total);
    assert Entries(b, total, ndp + NDP16_ONE_LEN, false, ndp + 12) == (true, []);
    assert [frame] + [] == [frame];
  }

  /** A built block comes apart again into its frame exactly if the frame is an Ethernet header long
      and the NDP sits at a multiple of 4. */
  lemma BuildParses(frame: Frame, sequence: nat, ndp: nat, data: nat, total: nat)
    requires LaysOut(frame, sequence, ndp, data, total)
    ensures Parse(Ntb(frame, sequence, ndp, data, total)) == (true, [frame]) <==> |frame| >= 14 && ndp % 4 == 0
  {
    var b := Ntb(frame, sequence, ndp, data, total);
    NtbHeader(frame, sequence, ndp, data, total);
    if ndp % 4 == 0 {
      BuiltOneNdp(frame, sequence, ndp, data, total);
      NtbNdp(frame, sequence, ndp, data, total);
      if OneNdp(b, total, ndp).0 {
        assert Chain(b, total, 0, MAX_NDPS - 1) == (true, []);
        ChainStep(b, total, ndp, MAX_NDPS, []);
        assert [] + Chain(b, total, ndp, MAX_NDPS).1 == OneNdp(b, total, ndp).1;
      }
    }
  }
}
