/** Configuration descriptor trees (USB 2.0, sections 9.6.3, 9.6.5 and 9.6.6). */
module ConfigTree {
  import opened Wrappers
  import opened Bytes

  const CONFIG := 2
  const INTERFACE := 4
  const ENDPOINT := 5
  const SS_ENDPOINT_COMPANION := 0x30

  type Desc = seq<byte>

  datatype Companion = Companion(maxBurst: byte, attributes: byte, bytesPerInterval: nat)

  datatype Endpoint = Endpoint(
    address: byte, attributes: byte, maxPacketSize: nat, interval: byte, refresh: byte, synchAddress: byte,
    companion: Option<Companion>, extra: seq<byte>)

  datatype Alt = Alt(
    number: byte, setting: byte, numEndpoints: byte, class_: byte, subClass: byte, protocol: byte, stringIndex: byte,
    endpoints: seq<Endpoint>, extra: seq<byte>)

  datatype Interface = Interface(number: byte, alts: seq<Alt>)

  datatype Config = Config(
    totalLength: nat, numInterfaces: byte, value: byte, stringIndex: byte, attributes: byte, maxPower: byte,
    interfaces: seq<Interface>, extra: seq<byte>, raw: seq<byte>)

  datatype ParseError = TooShort | NotAConfig

  // ----- descriptors -----

  predicate IsInterface(d: Desc) {
    |d| >= 9 && d[1] == INTERFACE
  }

  predicate IsEndpoint(d: Desc) {
    |d| >= 7 && d[1] == ENDPOINT
  }

  predicate IsCompanion(d: Desc) {
    |d| >= 6 && d[1] == SS_ENDPOINT_COMPANION
  }

  function AltOf(d: Desc): Alt
    requires IsInterface(d)
  {
    Alt(d[2], d[3], d[4], d[5], d[6], d[7], d[8], [], [])
  }

  function EndpointOf(d: Desc): Endpoint
    requires IsEndpoint(d)
  {
    Endpoint(d[2], d[3], Le16(d, 4), d[6], At(d, 7), At(d, 8), None, [])
  }

  function CompanionOf(d: Desc): Companion
    requires IsCompanion(d)
  {
    Companion(d[2], d[3], Le16(d, 4))
  }

  /** The first descriptor of `b`, unless the rest is malformed. */
  function First(b: seq<byte>): (r: Option<Desc>)
    ensures r.Some? ==> 2 <= |r.value| <= |b| && r.value == b[..|r.value|]
  {
    if |b| < 2 || b[0] < 2 || b[0] > |b| then None else Some(b[..b[0]])
  }

  /** All descriptors up to a malformed tail. */
  function Walk(b: seq<byte>): seq<Desc>
    decreases |b|
  {
    match First(b)
    case None => []
    case Some(d) => [d] + Walk(b[|d|..])
  }

  // ----- the parser -----

  /** What the loop keeps: what is finished, and the interface and endpoint still open. */
  datatype Tree = Tree(interfaces: seq<Interface>, extra: seq<byte>, iface: Option<Alt>, ep: Option<Endpoint>)

  const NoTree := Tree([], [], None, None)

  /** Where an interface number is in the list; its end if it is not there. */
  function Find(interfaces: seq<Interface>, number: byte): (p: nat)
    ensures p <= |interfaces| && (p < |interfaces| ==> interfaces[p].number == number)
    ensures forall i :: 0 <= i < p ==> interfaces[i].number != number
  {
    if interfaces == [] then 0
    else
      var n := |interfaces| - 1;
      var p := Find(interfaces[..n], number);
      if p < n || interfaces[n].number == number then p else n + 1
  }

  /** `push_interface`. */
  function Push(interfaces: seq<Interface>, alt: Alt): seq<Interface> {
    var p := Find(interfaces, alt.number);
    if p < |interfaces| then interfaces[p := interfaces[p].(alts := interfaces[p].alts + [alt])]
    else interfaces + [Interface(alt.number, [alt])]
  }

  function CloseEndpoint(t: Tree): Tree {
    if t.ep.Some? && t.iface.Some? then
      t.(ep := None, iface := Some(t.iface.value.(endpoints := t.iface.value.endpoints + [t.ep.value])))
    else t.(ep := None)
  }

  function CloseInterface(t: Tree): Tree {
    var u := CloseEndpoint(t);
    if u.iface.Some? then u.(iface := None, interfaces := Push(u.interfaces, u.iface.value)) else u
  }

  function Attach(t: Tree, d: Desc): Tree {
    if t.ep.Some? then t.(ep := Some(t.ep.value.(extra := t.ep.value.extra + d)))
    else if t.iface.Some? then t.(iface := Some(t.iface.value.(extra := t.iface.value.extra + d)))
    else t.(extra := t.extra + d)
  }

  function Step(t: Tree, d: Desc): Tree {
    if IsInterface(d) then CloseInterface(t).(iface := Some(AltOf(d)))
    else if IsEndpoint(d) && t.iface.Some? then CloseEndpoint(t).(ep := Some(EndpointOf(d)))
    else if IsCompanion(d) && t.ep.Some? then
      Attach(t.(ep := Some(t.ep.value.(companion := Some(CompanionOf(d))))), d)
    else Attach(t, d)
  }

  function Fold(ds: seq<Desc>): Tree {
    if ds == [] then NoTree else Step(Fold(ds[..|ds| - 1]), ds[|ds| - 1])
  }

  /** How much of the data belongs to the tree. */
  function End(data: seq<byte>): (r: nat)
    requires |data| >= 9
    ensures 9 <= r <= |data|
  {
    var total := Le16(data, 2);
    if total < 9 then 9 else if total > |data| then |data| else total
  }

  /** The descriptors below the configuration header. */
  function Body(data: seq<byte>): seq<Desc>
    requires |data| >= 9
  {
    RestAt(data, data[0], End(data))
  }

  function Assemble(data: seq<byte>, t: Tree): Config
    requires |data| >= 9
  {
    Config(Le16(data, 2), data[4], data[5], data[6], data[7], data[8], t.interfaces, t.extra, data[..End(data)])
  }

  /** `from_bytes`. */
  function Parse(data: seq<byte>): Result<Config, ParseError> {
    if |data| < 9 then Err(TooShort)
    else if data[0] < 9 || data[1] != CONFIG then Err(NotAConfig)
    else Ok(Assemble(data, CloseInterface(Fold(Body(data)))))
  }

  // ----- the parser as the code has it -----

  class Builder {
    var interfaces: seq<Interface>
    var extra: seq<byte>
    var curIface: Option<Alt>
    var curEp: Option<Endpoint>

    ghost function View(): Tree
      reads this
    {
      Tree(interfaces, extra, curIface, curEp)
    }

    constructor ()
      ensures View() == NoTree
    {
      interfaces, extra, curIface, curEp := [], [], None, None;
    }

    method PushInterface(alt: Alt)
      modifies this`interfaces
      ensures interfaces == Push(old(interfaces), alt)
    {
      var p := 0;
      while p < |interfaces| && interfaces[p].number != alt.number
        invariant p <= |interfaces| && forall i :: 0 <= i < p ==> interfaces[i].number != alt.number
      {
        p := p + 1;
      }
      if p < |interfaces| {
        interfaces := interfaces[p := interfaces[p].(alts := interfaces[p].alts + [alt])];
      } else {
        interfaces := interfaces + [Interface(alt.number, [alt])];
      }
    }

    method FinishEndpoint()
      modifies this`curEp, this`curIface
      ensures View() == CloseEndpoint(old(View()))
    {
      if curEp.Some? && curIface.Some? {
        curIface := Some(curIface.value.(endpoints := curIface.value.endpoints + [curEp.value]));
      }
      curEp := None;
    }

    method FinishInterface()
      modifies this
      ensures View() == CloseInterface(old(View()))
    {
      FinishEndpoint();
      if curIface.Some? {
        PushInterface(curIface.value);
        curIface := None;
      }
    }

    method Take(d: Desc)
      requires |d| >= 2
      modifies this
      ensures View() == Step(old(View()), d)
    {
      if d[1] == INTERFACE && |d| >= 9 {
        FinishInterface();
        curIface := Some(AltOf(d));
      } else if d[1] == ENDPOINT && |d| >= 7 && curIface.Some? {
        FinishEndpoint();
        curEp := Some(EndpointOf(d));
      } else {
        if d[1] == SS_ENDPOINT_COMPANION && |d| >= 6 && curEp.Some? {
          curEp := Some(curEp.value.(companion := Some(CompanionOf(d))));
        }
        if curEp.Some? {
          curEp := Some(curEp.value.(extra := curEp.value.extra + d));
        } else if curIface.Some? {
          curIface := Some(curIface.value.(extra := curIface.value.extra + d));
        } else {
          extra := extra + d;
        }
      }
    }
  }

  /** The descriptors from `pos` on. */
  function RestAt(data: seq<byte>, pos: nat, end: nat): seq<Desc>
    requires end <= |data|
  {
    if pos <= end then Walk(data[pos..end]) else []
  }

  predicate Whole(data: seq<byte>, pos: nat, end: nat)
    requires end <= |data|
  {
    pos + 2 <= end && data[pos] >= 2 && pos + data[pos] <= end
  }

  lemma WalkStep(data: seq<byte>, pos: nat, end: nat)
    requires end <= |data|
    ensures
      if Whole(data, pos, end)
      then RestAt(data, pos, end) == [data[pos..pos + data[pos]]] + RestAt(data, pos + data[pos], end)
      else RestAt(data, pos, end) == []
  {
    if pos <= end {
      var b := data[pos..end];
      if Whole(data, pos, end) {
        var len: nat := data[pos];
        assert b[..len] == data[pos..pos + len] && b[len..] == data[pos + len..end];
      }
    }
  }

  lemma FoldStep(walked: seq<Desc>, d: Desc, rest: seq<Desc>)
    ensures Fold(walked + [d]) == Step(Fold(walked), d) && walked + ([d] + rest) == walked + [d] + rest
  {
    assert (walked + [d])[..|walked|] == walked;
  }

  /** The loop of `from_bytes`. */
  method Build(data: seq<byte>, start: nat, end: nat) returns (cfg: Builder)
    requires end <= |data|
    ensures fresh(cfg) && cfg.View() == Fold(RestAt(data, start, end))
  {
    cfg := new Builder();
    var pos := start;
    ghost var all := RestAt(data, start, end);
    ghost var walked: seq<Desc> := [];
    assert walked + all == all;
    while pos + 2 <= end
      invariant fresh(cfg) && cfg.View() == Fold(walked) && all == walked + RestAt(data, pos, end)
      decreases end - pos
    {
      WalkStep(data, pos, end);
      var len: nat := data[pos];
      if len < 2 || pos + len > end { break; }  // the rest cannot be walked
      var d := data[pos..pos + len];
      FoldStep(walked, d, RestAt(data, pos + len, end));
      cfg.Take(d);
      walked := walked + [d];
      pos := pos + len;
    }
    WalkStep(data, pos, end);
    assert walked + [] == walked;
  }

  method FromBytes(data: seq<byte>) returns (r: Result<Config, ParseError>)
    ensures r == Parse(data)
  {
    if |data| < 9 { return Err(TooShort); }
    if data[0] < 9 || data[1] != CONFIG { return Err(NotAConfig); }
    var end := End(data);
    var cfg := Build(data, data[0], end);
    cfg.FinishInterface();
    r := Ok(Config(Le16(data, 2), data[4], data[5], data[6], data[7], data[8], cfg.interfaces, cfg.extra, data[..end]));
  }
}
