/** Parsing HID report descriptors (HID 1.11, section 6.2.2). */
module HidReport {
  import opened Arith
  import opened Wrappers
  import opened Bytes
  import HidBits

  const U32_MAX := 0xffff_ffff

  // ----- items -----

  datatype Kind = Main | Global | Local | Reserved
  datatype Item = Item(kind: Kind, tag: nat, data: seq<byte>)

  /** The first item and its length; nothing at the end or at a truncated item. */
  function NextItem(b: seq<byte>): (r: Option<(Item, nat)>)
    ensures r.Some? ==> 0 < r.value.1 <= |b| && |r.value.0.data| < r.value.1
  {
    if b == [] then None
    else if b[0] == 0xfe then
      if |b| < 3 then None
      else
        var size: nat := b[1];
        if |b| < 3 + size then None else Some((Item(Reserved, b[2], b[3..3 + size]), 3 + size))
    else
      var size: nat := if b[0] % 4 == 3 then 4 else b[0] % 4;
      if |b| < 1 + size then None
      else
        var kind := match b[0] / 4 % 4 case 0 => Main case 1 => Global case 2 => Local case _ => Reserved;
        Some((Item(kind, b[0] / 16, b[1..1 + size]), 1 + size))
  }

  function Unsigned(i: Item): (r: nat)
    ensures r <= U32_MAX
  {
    Le32(if |i.data| <= 4 then i.data else i.data[..4], 0)
  }

  function Signed(i: Item): int {
    var u := Unsigned(i);
    if |i.data| == 0 then 0
    else if |i.data| == 1 then (if u >= 0x80 then u - 0x100 else u)
    else if |i.data| == 2 then (if u >= 0x8000 then u - 0x1_0000 else u)
    else (if u >= 0x8000_0000 then u - 0x1_0000_0000 else u)
  }

  // ----- the parser's state -----

  datatype ReportType = Input | Output | Feature
  datatype Usages = List(usages: seq<nat>) | Range(min: nat, max: nat)

  datatype Field = Field(
    reportType: ReportType, reportId: nat, bitOffset: nat, bitSize: nat, count: nat, flags: nat, usages: Usages,
    logicalMin: int, logicalMax: int, physicalMin: int, physicalMax: int, unitExponent: int, unit: nat)

  datatype Globals = Globals(
    usagePage: nat, logicalMin: int, logicalMax: int, physicalMin: int, physicalMax: int, unitExponent: int, unit: nat,
    reportSize: nat, reportId: nat, reportCount: nat, logicalMaxSize: nat)

  /** A usage as read: its value, and whether it carries its page. */
  datatype RawUsage = RawUsage(value: nat, extended: bool)

  /** Bits of each report so far, in the order the reports were met. */
  datatype Report = Report(reportType: ReportType, id: nat, bits: nat)

  datatype State = State(
    fields: seq<Field>, applications: seq<nat>, reports: seq<Report>, usesIds: bool,
    g: Globals, stack: seq<Globals>, usages: seq<RawUsage>, min: Option<RawUsage>, max: Option<RawUsage>, depth: nat)

  datatype ParseError = IdOutOfRange | PopWithoutPush | TooLarge | EndWithoutCollection

  const NoGlobals := Globals(0, 0, 0, 0, 0, 0, 0, 0, 0, 0, 0)
  const Begin := State([], [], [], false, NoGlobals, [], [], None, None, 0)

  /** A usage, given the page in force at its main item. */
  function Resolve(page: nat, u: RawUsage): nat {
    if u.extended then u.value else page * 0x1_0000 + u.value % 0x1_0000
  }

  function ResolveAll(page: nat, us: seq<RawUsage>): seq<nat> {
    seq(|us|, i requires 0 <= i < |us| => Resolve(page, us[i]))
  }

  /** Where a report is in the list; its end if it is not there. */
  function Position(reports: seq<Report>, t: ReportType, id: nat): (p: nat)
    ensures p <= |reports|
    ensures p < |reports| ==> reports[p].reportType == t && reports[p].id == id
    ensures forall i :: 0 <= i < p ==> !(reports[i].reportType == t && reports[i].id == id)
  {
    if reports == [] then 0
    else
      var p := Position(reports[..|reports| - 1], t, id);
      var last := reports[|reports| - 1];
      if p < |reports| - 1 || (last.reportType == t && last.id == id) then p else |reports|
  }

  function BitsOf(reports: seq<Report>, t: ReportType, id: nat): nat {
    var p := Position(reports, t, id);
    if p < |reports| then reports[p].bits else 0
  }

  /** `report_bits_mut`, and the assignment through it. */
  function SetBits(reports: seq<Report>, t: ReportType, id: nat, bits: nat): seq<Report> {
    var p := Position(reports, t, id);
    if p < |reports| then reports[p := reports[p].(bits := bits)] else reports + [Report(t, id, bits)]
  }

  /** A maximum that reads negative above a minimum that does not was meant unsigned. */
  function LogicalMax(g: Globals): int {
    if g.logicalMin >= 0 && g.logicalMax < 0 then
      (if g.logicalMaxSize == 1 then g.logicalMax + 0x100
       else if g.logicalMaxSize == 2 then g.logicalMax + 0x1_0000
       else g.logicalMax + 0x1_0000_0000)
    else g.logicalMax
  }

  /** A range, if both ends and no list were given. */
  function PickUsages(page: nat, usages: seq<RawUsage>, min: Option<RawUsage>, max: Option<RawUsage>): Usages {
    if min.Some? && max.Some? && usages == [] then Range(Resolve(page, min.value), Resolve(page, max.value))
    else List(ResolveAll(page, usages))
  }

  function NewField(s: State, t: ReportType, flags: nat): Field {
    Field(t, s.g.reportId, BitsOf(s.reports, t, s.g.reportId), s.g.reportSize, s.g.reportCount, flags,
          PickUsages(s.g.usagePage, s.usages, s.min, s.max),
          s.g.logicalMin, LogicalMax(s.g), s.g.physicalMin, s.g.physicalMax, s.g.unitExponent, s.g.unit)
  }

  function NoLocals(s: State): State {
    s.(usages := [], min := None, max := None)
  }

  function AddField(s: State, t: ReportType, flags: nat): Result<State, ParseError> {
    var bits := s.g.reportSize * s.g.reportCount;
    var f := NewField(s, t, flags);
    if bits > U32_MAX || f.bitOffset + bits > U32_MAX then Err(TooLarge)
    else
      Ok(NoLocals(s).(fields := s.fields + [f], reports := SetBits(s.reports, t, s.g.reportId, f.bitOffset + bits)))
  }

  function Collection(s: State, kind: nat): State {
    var page := s.g.usagePage;
    var app := if s.depth != 0 || kind != 1 then []
               else if s.usages != [] then [Resolve(page, s.usages[0])]
               else if s.min.Some? then [Resolve(page, s.min.value)]
               else [];
    NoLocals(s).(applications := s.applications + app, depth := s.depth + 1)
  }

  function MainItem(s: State, i: Item): Result<State, ParseError> {
    if i.tag == 0x8 then AddField(s, Input, Unsigned(i))
    else if i.tag == 0x9 then AddField(s, Output, Unsigned(i))
    else if i.tag == 0xb then AddField(s, Feature, Unsigned(i))
    else if i.tag == 0xa then Ok(Collection(s, Unsigned(i)))
    else if i.tag == 0xc then (if s.depth == 0 then Err(EndWithoutCollection) else Ok(NoLocals(s).(depth := s.depth - 1)))
    else Ok(NoLocals(s))
  }

  function GlobalItem(s: State, i: Item): Result<State, ParseError> {
    var (g, u, v) := (s.g, Unsigned(i), Signed(i));
    match i.tag
    case 0 => Ok(s.(g := g.(usagePage := u % 0x1_0000)))
    case 1 => Ok(s.(g := g.(logicalMin := v)))
    case 2 => Ok(s.(g := g.(logicalMax := v, logicalMaxSize := |i.data|)))
    case 3 => Ok(s.(g := g.(physicalMin := v)))
    case 4 => Ok(s.(g := g.(physicalMax := v)))
    case 5 => Ok(s.(g := g.(unitExponent := v)))
    case 6 => Ok(s.(g := g.(unit := u)))
    case 7 => Ok(s.(g := g.(reportSize := u)))
    case 8 => if u == 0 || u > 255 then Err(IdOutOfRange) else Ok(s.(g := g.(reportId := u), usesIds := true))
    case 9 => Ok(s.(g := g.(reportCount := u)))
    case 10 => Ok(s.(stack := s.stack + [g]))
    case 11 =>
      if s.stack == [] then Err(PopWithoutPush)
      else Ok(s.(g := s.stack[|s.stack| - 1], stack := s.stack[..|s.stack| - 1]))
    case _ => Ok(s)
  }

  function LocalItem(s: State, i: Item): State {
    var u := RawUsage(Unsigned(i), |i.data| == 4);
    if i.tag == 0 then s.(usages := s.usages + [u])
    else if i.tag == 1 then s.(min := Some(u))
    else if i.tag == 2 then s.(max := Some(u))
    else s
  }

  function StepItem(s: State, i: Item): Result<State, ParseError> {
    match i.kind
    case Main => MainItem(s, i)
    case Global => GlobalItem(s, i)
    case Local => Ok(LocalItem(s, i))
    case Reserved => Ok(s)
  }

  /** All items of `b`, from state `s` on. */
  function Run(s: State, b: seq<byte>): Result<State, ParseError>
    decreases |b|
  {
    match NextItem(b)
    case None => Ok(s)
    case Some((i, n)) =>
      match StepItem(s, i)
      case Err(e) => Err(e)
      case Ok(s') => Run(s', b[n..])
  }

  datatype Descriptor = Descriptor(fields: seq<Field>, applications: seq<nat>, reports: seq<Report>, usesIds: bool)

  function Parse(b: seq<byte>): Result<Descriptor, ParseError> {
    match Run(Begin, b)
    case Err(e) => Err(e)
    case Ok(s) => Ok(Descriptor(s.fields, s.applications, s.reports, s.usesIds))
  }

  function ReportLen(d: Descriptor, t: ReportType, id: nat): Option<nat> {
    var p := Position(d.reports, t, id);
    if p < |d.reports| then Some((d.reports[p].bits + 7) / 8) else None
  }

  // ----- the parser as the code has it -----

  method FindReport(reports: seq<Report>, t: ReportType, id: nat) returns (p: nat)
    ensures p == Position(reports, t, id)
  {
    p := 0;
    while p < |reports| && !(reports[p].reportType == t && reports[p].id == id)
      invariant p <= |reports|
      invariant forall i :: 0 <= i < p ==> !(reports[i].reportType == t && reports[i].id == id)
    {
      p := p + 1;
    }
  }

  class Parser {
    var fields: seq<Field>
    var applications: seq<nat>
    var reports: seq<Report>
    var usesIds: bool
    var g: Globals
    var stack: seq<Globals>
    var rawUsages: seq<RawUsage>
    var rawMin: Option<RawUsage>
    var rawMax: Option<RawUsage>
    var depth: nat

    ghost function View(): State
      reads this
    {
      State(fields, applications, reports, usesIds, g, stack, rawUsages, rawMin, rawMax, depth)
    }

    constructor ()
      ensures View() == Begin
    {
      fields, applications, reports, usesIds := [], [], [], false;
      g, stack, rawUsages, rawMin, rawMax, depth := NoGlobals, [], [], None, None, 0;
    }

    method TakeGlobal(i: Item) returns (r: Result<(), ParseError>)
      modifies this`g, this`stack, this`usesIds
      ensures r.Ok? ==> GlobalItem(old(View()), i) == Ok(View())
      ensures r.Err? ==> GlobalItem(old(View()), i) == Err(r.error)
    {
      r := Ok(());
      match i.tag {
        case 0 => g := g.(usagePage := Unsigned(i) % 0x1_0000);
        case 1 => g := g.(logicalMin := Signed(i));
        case 2 => g := g.(logicalMax := Signed(i), logicalMaxSize := |i.data|);
        case 3 => g := g.(physicalMin := Signed(i));
        case 4 => g := g.(physicalMax := Signed(i));
        case 5 => g := g.(unitExponent := Signed(i));
        case 6 => g := g.(unit := Unsigned(i));
        case 7 => g := g.(reportSize := Unsigned(i));
        case 8 =>
          var id := Unsigned(i);
          if id == 0 || id > 255 { return Err(IdOutOfRange); }
          g := g.(reportId := id);
          usesIds := true;
        case 9 => g := g.(reportCount := Unsigned(i));
        case 10 => stack := stack + [g];
        case 11 =>
          if stack == [] { return Err(PopWithoutPush); }
          g := stack[|stack| - 1];
          stack := stack[..|stack| - 1];
        case _ =>
      }
    }

    method TakeField(t: ReportType, flags: nat) returns (r: Result<(), ParseError>)
      modifies this`fields, this`reports, this`rawUsages, this`rawMin, this`rawMax
      ensures r.Ok? ==> AddField(old(View()), t, flags) == Ok(View())
      ensures r.Err? ==> AddField(old(View()), t, flags) == Err(r.error)
    {
      var bits := g.reportSize * g.reportCount;
      if bits > U32_MAX { return Err(TooLarge); }
      var p := FindReport(reports, t, g.reportId);
      var bitOffset := if p < |reports| then reports[p].bits else 0;
      if bitOffset + bits > U32_MAX { return Err(TooLarge); }
      var usages := PickUsages(g.usagePage, rawUsages, rawMin, rawMax);
      fields := fields + [Field(t, g.reportId, bitOffset, g.reportSize, g.reportCount, flags, usages,
                                g.logicalMin, LogicalMax(g), g.physicalMin, g.physicalMax, g.unitExponent, g.unit)];
      reports := if p < |reports| then reports[p := reports[p].(bits := bitOffset + bits)]
                 else reports + [Report(t, g.reportId, bitOffset + bits)];
      rawUsages, rawMin, rawMax := [], None, None;
      r := Ok(());
    }

    method TakeMain(i: Item) returns (r: Result<(), ParseError>)
      modifies this
      ensures r.Ok? ==> MainItem(old(View()), i) == Ok(View())
      ensures r.Err? ==> MainItem(old(View()), i) == Err(r.error)
    {
      r := Ok(());
      if i.tag == 0x8 || i.tag == 0x9 || i.tag == 0xb {
        r := TakeField(if i.tag == 0x8 then Input else if i.tag == 0x9 then Output else Feature, Unsigned(i));
        return;
      }
      if i.tag == 0xa {
        assert applications + [] == applications;
        if depth == 0 && Unsigned(i) == 1 {
          if rawUsages != [] {
            applications := applications + [Resolve(g.usagePage, rawUsages[0])];
          } else if rawMin.Some? {
            applications := applications + [Resolve(g.usagePage, rawMin.value)];
          }
        }
        depth := depth + 1;
      } else if i.tag == 0xc {
        if depth == 0 { return Err(EndWithoutCollection); }
        depth := depth - 1;
      }
      rawUsages, rawMin, rawMax := [], None, None;
    }

    method TakeLocal(i: Item)
      modifies this`rawUsages, this`rawMin, this`rawMax
      ensures View() == LocalItem(old(View()), i)
    {
      var u := RawUsage(Unsigned(i), |i.data| == 4);
      if i.tag == 0 { rawUsages := rawUsages + [u]; }
      else if i.tag == 1 { rawMin := Some(u); }
      else if i.tag == 2 { rawMax := Some(u); }
    }

    method Take(i: Item) returns (r: Result<(), ParseError>)
      modifies this
      ensures r.Ok? ==> StepItem(old(View()), i) == Ok(View())
      ensures r.Err? ==> StepItem(old(View()), i) == Err(r.error)
    {
      r := Ok(());
      match i.kind {
        case Main => r := TakeMain(i);
        case Global => r := TakeGlobal(i);
        case Local => TakeLocal(i);
        case Reserved =>
      }
    }
  }

  method ParseDescriptor(b: seq<byte>) returns (r: Result<Descriptor, ParseError>)
    ensures r == Parse(b)
  {
    var p := new Parser();
    var rest := b;
    while true
      invariant Run(p.View(), rest) == Run(Begin, b) && fresh(p)
      decreases |rest|
    {
      var next := NextItem(rest);
      if next.None? { break; }
      var (item, n) := next.value;
      var step := p.Take(item);
      if step.Err? { return Err(step.error); }
      rest := rest[n..];
    }
    r := Ok(Descriptor(p.fields, p.applications, p.reports, p.usesIds));
  }

  // ----- the layout of reports -----

  /** The fields of one report. */
  function FieldsOf(fields: seq<Field>, t: ReportType, id: nat): seq<Field> {
    if fields == [] then []
    else
      var init, last := FieldsOf(fields[..|fields| - 1], t, id), fields[|fields| - 1];
      if last.reportType == t && last.reportId == id then init + [last] else init
  }

  /** The fields lie one behind the other and cover `[0, total)` bits, in 32 bits throughout. */
  predicate TileBits(fs: seq<Field>, total: nat) {
    if fs == [] then total == 0
    else
      var f := fs[|fs| - 1];
      && total <= U32_MAX && f.bitOffset + f.bitSize * f.count == total && f.bitSize * f.count <= U32_MAX
      && TileBits(fs[..|fs| - 1], f.bitOffset)
  }

  lemma {:induction false} TileBounded(fs: seq<Field>, total: nat)
    requires TileBits(fs, total)
    ensures total <= U32_MAX
  {
  }

  /** A list of reports lists each once. */
  predicate OnceEach(reports: seq<Report>) {
    forall i, j :: 0 <= i < j < |reports| ==> !(reports[i].reportType == reports[j].reportType && reports[i].id == reports[j].id)
  }

  lemma PositionIs(reports: seq<Report>, t: ReportType, id: nat, p: nat)
    requires p < |reports| && reports[p].reportType == t && reports[p].id == id && OnceEach(reports)
    ensures Position(reports, t, id) == p
  {
    var q := Position(reports, t, id);
  }

  lemma SetBitsOnce(reports: seq<Report>, t: ReportType, id: nat, bits: nat)
    requires OnceEach(reports)
    ensures OnceEach(SetBits(reports, t, id, bits))
  {
  }

  lemma SetBitsOwn(reports: seq<Report>, t: ReportType, id: nat, bits: nat)
    requires OnceEach(reports)
    ensures var after := SetBits(reports, t, id, bits); Position(after, t, id) < |after| && BitsOf(after, t, id) == bits
  {
    SetBitsOnce(reports, t, id, bits);
    PositionIs(SetBits(reports, t, id, bits), t, id, Position(reports, t, id));
  }

  lemma SetBitsOther(reports: seq<Report>, t: ReportType, id: nat, bits: nat, t': ReportType, id': nat)
    requires OnceEach(reports) && !(t' == t && id' == id)
    ensures
      var after := SetBits(reports, t, id, bits);
      && BitsOf(after, t', id') == BitsOf(reports, t', id')
      && (Position(after, t', id') < |after| <==> Position(reports, t', id') < |reports|)
  {
    SetBitsOnce(reports, t, id, bits);
    var after := SetBits(reports, t, id, bits);
    var q := Position(reports, t', id');
    if q < |reports| {
      assert after[q] == reports[q];
      PositionIs(after, t', id', q);
    }
  }

  /** Every report tiles, and is listed exactly if it has fields. */
  predicate LaidOut(fields: seq<Field>, reports: seq<Report>, t: ReportType, id: nat) {
    && TileBits(FieldsOf(fields, t, id), BitsOf(reports, t, id))
    && (Position(reports, t, id) < |reports| <==> FieldsOf(fields, t, id) != [])
  }

  ghost predicate AllLaidOut(fields: seq<Field>, reports: seq<Report>) {
    OnceEach(reports) && forall t: ReportType, id: nat :: LaidOut(fields, reports, t, id)
  }

  ghost predicate Inv(s: State) {
    AllLaidOut(s.fields, s.reports)
  }

  lemma FieldsOfLast(fields: seq<Field>, f: Field, t: ReportType, id: nat)
    ensures FieldsOf(fields + [f], t, id) ==
      FieldsOf(fields, t, id) + (if f.reportType == t && f.reportId == id then [f] else [])
  {
    assert (fields + [f])[..|fields|] == fields;
  }

  lemma TileMore(fs: seq<Field>, f: Field)
    requires TileBits(fs, f.bitOffset)
    requires f.bitSize * f.count <= U32_MAX && f.bitOffset + f.bitSize * f.count <= U32_MAX
    ensures TileBits(fs + [f], f.bitOffset + f.bitSize * f.count)
  {
    assert (fs + [f])[..|fs|] == fs;
  }

  lemma AddFieldOwn(fields: seq<Field>, reports: seq<Report>, f: Field, bits: nat)
    requires OnceEach(reports) && LaidOut(fields, reports, f.reportType, f.reportId)
    requires f.bitOffset == BitsOf(reports, f.reportType, f.reportId)
    requires bits == f.bitSize * f.count <= U32_MAX && f.bitOffset + bits <= U32_MAX
    ensures LaidOut(fields + [f], SetBits(reports, f.reportType, f.reportId, f.bitOffset + bits), f.reportType, f.reportId)
  {
    FieldsOfLast(fields, f, f.reportType, f.reportId);
    SetBitsOwn(reports, f.reportType, f.reportId, f.bitOffset + bits);
    TileMore(FieldsOf(fields, f.reportType, f.reportId), f);
  }

  lemma AddFieldOther(fields: seq<Field>, reports: seq<Report>, f: Field, total: nat, t: ReportType, id: nat)
    requires OnceEach(reports) && LaidOut(fields, reports, t, id) && !(f.reportType == t && f.reportId == id)
    ensures LaidOut(fields + [f], SetBits(reports, f.reportType, f.reportId, total), t, id)
  {
    FieldsOfLast(fields, f, t, id);
    assert FieldsOf(fields, t, id) + [] == FieldsOf(fields, t, id);
    SetBitsOther(reports, f.reportType, f.reportId, total, t, id);
  }

  lemma FieldAdded(fields: seq<Field>, reports: seq<Report>, f: Field, bits: nat)
    requires AllLaidOut(fields, reports) && f.bitOffset == BitsOf(reports, f.reportType, f.reportId)
    requires bits == f.bitSize * f.count <= U32_MAX && f.bitOffset + bits <= U32_MAX
    ensures AllLaidOut(fields + [f], SetBits(reports, f.reportType, f.reportId, f.bitOffset + bits))
  {
    SetBitsOnce(reports, f.reportType, f.reportId, f.bitOffset + bits);
    var more, after := fields + [f], SetBits(reports, f.reportType, f.reportId, f.bitOffset + bits);
    forall t: ReportType, id: nat ensures LaidOut(more, after, t, id) {
      assert LaidOut(fields, reports, t, id);
      if t == f.reportType && id == f.reportId {
        AddFieldOwn(fields, reports, f, bits);
      } else {
        AddFieldOther(fields, reports, f, f.bitOffset + bits, t, id);
      }
    }
  }

  lemma AddFieldInv(s: State, t: ReportType, flags: nat)
    requires Inv(s) && AddField(s, t, flags).Ok?
    ensures Inv(AddField(s, t, flags).value)
  {
    var f := NewField(s, t, flags);
    FieldAdded(s.fields, s.reports, f, f.bitSize * f.count);
  }

  lemma StepInv(s: State, i: Item)
    requires Inv(s) && StepItem(s, i).Ok?
    ensures Inv(StepItem(s, i).value)
  {
    if i.kind.Main? && i.tag == 0x8 { AddFieldInv(s, Input, Unsigned(i)); }
    else if i.kind.Main? && i.tag == 0x9 { AddFieldInv(s, Output, Unsigned(i)); }
    else if i.kind.Main? && i.tag == 0xb { AddFieldInv(s, Feature, Unsigned(i)); }
  }

  lemma {:induction false} RunInv(s: State, b: seq<byte>)
    requires Inv(s) && Run(s, b).Ok?
    ensures Inv(Run(s, b).value)
    decreases |b|
  {
    if NextItem(b).Some? {
      var (i, n) := NextItem(b).value;
      StepInv(s, i);
      RunInv(StepItem(s, i).value, b[n..]);
    }
  }

  lemma BeginInv()
    ensures Inv(Begin)
  {
    forall t: ReportType, id: nat ensures LaidOut(Begin.fields, Begin.reports, t, id) {}
  }

  /** In every accepted descriptor the fields of a report lie one behind the other from bit 0 to the
      end, and the report is as many bytes as that takes; a report without fields has no length. */
  lemma LayoutIsTiled(b: seq<byte>, t: ReportType, id: nat) returns (total: nat)
    requires Parse(b).Ok?
    ensures
      var d := Parse(b).value;
      var fs := FieldsOf(d.fields, t, id);
      && TileBits(fs, total) && total <= U32_MAX
      && ReportLen(d, t, id) == (if fs == [] then None else Some((total + 7) / 8))
  {
    BeginInv();
    RunInv(Begin, b);
    var s := Run(Begin, b).value;
    assert LaidOut(s.fields, s.reports, t, id);
    total := BitsOf(s.reports, t, id);
    TileBounded(FieldsOf(s.fields, t, id), total);
  }

  // ----- elements -----

  /** The bits of element `index`. */
  function ElementStart(f: Field, index: nat): nat {
    f.bitOffset + index * f.bitSize
  }

  lemma ElementInField(f: Field, index: nat)
    requires index < f.count
    ensures f.bitOffset <= ElementStart(f, index) && ElementStart(f, index) + f.bitSize <= f.bitOffset + f.bitSize * f.count
  {
    MulLe(index + 1, f.count, f.bitSize);
    Distribute(index, 1, f.bitSize);
  }

  /** Fields of one report do not overlap: the earlier ends where or before the later begins. */
  lemma {:induction false} FieldsApart(fs: seq<Field>, total: nat, i: nat, j: nat)
    requires TileBits(fs, total) && i < j < |fs|
    ensures fs[i].bitOffset + fs[i].bitSize * fs[i].count <= fs[j].bitOffset
    decreases |fs|
  {
    var n := |fs| - 1;
    if j < n {
      FieldsApart(fs[..n], fs[n].bitOffset, i, j);
    } else {
      FieldInside(fs[..n], fs[n].bitOffset, i);
    }
  }

  lemma {:induction false} FieldInside(fs: seq<Field>, total: nat, i: nat)
    requires TileBits(fs, total) && i < |fs|
    ensures fs[i].bitOffset + fs[i].bitSize * fs[i].count <= total && fs[i].bitSize * fs[i].count <= U32_MAX
    decreases |fs|
  {
    var n := |fs| - 1;
    if i < n { FieldInside(fs[..n], fs[n].bitOffset, i); }
  }

  /** Every element of every field of an accepted descriptor lies inside its report, its position is
      computed without overflow, and no other element shares a bit with it. */
  lemma ElementsApart(b: seq<byte>, t: ReportType, id: nat, i: nat, m: nat, j: nat, n: nat)
    requires Parse(b).Ok?
    requires
      var fs := FieldsOf(Parse(b).value.fields, t, id);
      i < |fs| && j < |fs| && m < fs[i].count && n < fs[j].count && (i != j || m != n)
    ensures
      var d := Parse(b).value;
      var f, g := FieldsOf(d.fields, t, id)[i], FieldsOf(d.fields, t, id)[j];
      && ReportLen(d, t, id).Some? && ElementStart(f, m) + f.bitSize <= 8 * ReportLen(d, t, id).value
      && m * f.bitSize <= U32_MAX
      && (ElementStart(f, m) + f.bitSize <= ElementStart(g, n) || ElementStart(g, n) + g.bitSize <= ElementStart(f, m))
  {
    var total := LayoutIsTiled(b, t, id);
    var fs := FieldsOf(Parse(b).value.fields, t, id);
    FieldInside(fs, total, i);
    ElementInField(fs[i], m);
    ElementInField(fs[j], n);
    if i < j { FieldsApart(fs, total, i, j); }
    if j < i { FieldsApart(fs, total, j, i); }
    if i == j && m < n { Ordered(fs[i], m, n); }
    if i == j && n < m { Ordered(fs[i], n, m); }
  }

  lemma Ordered(f: Field, m: nat, n: nat)
    requires m < n
    ensures ElementStart(f, m) + f.bitSize <= ElementStart(f, n)
  {
    Distribute(m, 1, f.bitSize);
    MulLe(m + 1, n, f.bitSize);
  }

  /** So a value stored in an element is read back, and changes no other element of the report. */
  lemma StoreIsLocal(b: seq<byte>, t: ReportType, id: nat, i: nat, m: nat, j: nat, n: nat, r: HidBits.Report, v: int)
    requires Parse(b).Ok? && ReportLen(Parse(b).value, t, id) == Some(|r|)
    requires
      var fs := FieldsOf(Parse(b).value.fields, t, id);
      && i < |fs| && j < |fs| && m < fs[i].count && n < fs[j].count && (i != j || m != n)
      && HidBits.InRange(ElementOf(fs[i]), v)
    ensures
      var fs := FieldsOf(Parse(b).value.fields, t, id);
      var f, g := ElementOf(fs[i]), ElementOf(fs[j]);
      && HidBits.Fits(f, r, m)
      && HidBits.Value(f, HidBits.Store(f, r, m, v), m) == Some(v)
      && HidBits.Value(g, HidBits.Store(f, r, m, v), n) == HidBits.Value(g, r, n)
  {
    var fs := FieldsOf(Parse(b).value.fields, t, id);
    ElementsApart(b, t, id, i, m, j, n);
    HidBits.StoreThenRead(ElementOf(fs[i]), r, m, v);
    HidBits.StoreKeepsOthers(ElementOf(fs[i]), m, v, ElementOf(fs[j]), n, r);
  }

  function ElementOf(f: Field): HidBits.Element {
    HidBits.Element(f.bitOffset, f.bitSize, f.count, f.logicalMin)
  }
}
