/** Report descriptors written from a list of wanted fields, and parsed back. */
module HidDocument {
  import opened Wrappers
  import opened Bytes
  import opened HidReport
  import opened HidWriter

  const U16_MAX := 0xffff

  // ----- what is wanted -----

  /** A usage, written with the page in force or with one of its own. */
  datatype Usage = Brief(id: nat, width: nat) | Whole(page: nat, id: nat)

  datatype Asked = These(usages: seq<Usage>) | Span(low: Usage, high: Usage)

  /** A field, and how it is written: settings before and after its usages, any that hold already left
      out, all between a Push and a Pop if `pushed`. */
  datatype Wish = Wish(
    reportType: ReportType, flags: nat, width: nat, asked: Asked, page: int, low: int, high: int, lowPhysical: int,
    highPhysical: int, exponent: int, unitCode: int, size: int, id: int, count: int,
    pushed: bool, before: seq<Setting>, after: seq<Setting>)

  /** One part of a descriptor; collections nest, and may be of any kind. */
  datatype Part = Gives(wish: Wish) | Open(collection: nat, width: nat, usage: Option<Usage>) | Close

  function Want(w: Wish, p: Property): int {
    match p
    case Page => w.page
    case LowLogical => w.low
    case HighLogical => w.high
    case LowPhysical => w.lowPhysical
    case HighPhysical => w.highPhysical
    case Exponent => w.exponent
    case UnitCode => w.unitCode
    case Size => w.size
    case Id => w.id
    case Count => w.count
  }

  function Settings(w: Wish): seq<Setting> {
    w.before + w.after
  }

  /** What holds of a property after these parts; in the beginning it is 0. */
  function Current(ps: seq<Part>, p: Property): int {
    if ps == [] then 0
    else
      var last := ps[|ps| - 1];
      if last.Gives? && !last.wish.pushed then Want(last.wish, p) else Current(ps[..|ps| - 1], p)
  }

  /** The bits of a report so far. */
  function Bits(ps: seq<Part>, t: ReportType, id: int): int {
    if ps == [] then 0
    else
      var last := ps[|ps| - 1];
      Bits(ps[..|ps| - 1], t, id)
      + if last.Gives? && last.wish.reportType == t && last.wish.id == id then last.wish.size * last.wish.count else 0
  }

  /** How many collections are open. */
  function Level(ps: seq<Part>): int {
    if ps == [] then 0
    else Level(ps[..|ps| - 1]) + match ps[|ps| - 1] { case Gives(_) => 0 case Open(_, _, _) => 1 case Close => -1 }
  }

  // ----- what can be written -----

  predicate ValidUsage(u: Usage) {
    match u
    case Brief(id, width) => width in {0, 1, 2} && id < Room(width)
    case Whole(page, id) => page <= U16_MAX && id <= U16_MAX
  }

  predicate ValidAsked(a: Asked) {
    match a
    case These(us) => forall i :: 0 <= i < |us| ==> ValidUsage(us[i])
    case Span(low, high) => ValidUsage(low) && ValidUsage(high)
  }

  /** Every property is set to what is wanted, or is that already; a maximum is always set. */
  predicate Settled(ps: seq<Part>, w: Wish, p: Property) {
    if p == HighLogical then Sets(Settings(w), p) && AllUnderstood(Settings(w), w.high, w.low)
    else Agree(Settings(w), p, Want(w, p)) && (Sets(Settings(w), p) || Current(ps, p) == Want(w, p))
  }

  predicate InRange(w: Wish) {
    && 0 <= w.page <= U16_MAX && 0 <= w.unitCode <= U32_MAX && 0 <= w.size <= U32_MAX && 0 <= w.id <= 255
    && 0 <= w.count <= U32_MAX
  }

  predicate ValidWish(ps: seq<Part>, w: Wish) {
    && Printable(w) && InRange(w)
    && Settled(ps, w, Page) && Settled(ps, w, LowLogical) && Settled(ps, w, HighLogical) && Settled(ps, w, LowPhysical)
    && Settled(ps, w, HighPhysical) && Settled(ps, w, Exponent) && Settled(ps, w, UnitCode) && Settled(ps, w, Size)
    && Settled(ps, w, Id) && Settled(ps, w, Count)
    && Bits(ps, w.reportType, w.id) + w.size * w.count <= U32_MAX
  }

  predicate ValidPart(ps: seq<Part>, part: Part) {
    match part
    case Gives(w) => ValidWish(ps, w)
    case Open(c, width, usage) => width in {0, 1, 2, 4} && c < Room(width) && (usage.Some? ==> ValidUsage(usage.value))
    case Close => Level(ps) > 0
  }

  predicate ValidDoc(ps: seq<Part>) {
    ps == [] || (ValidDoc(ps[..|ps| - 1]) && ValidPart(ps[..|ps| - 1], ps[|ps| - 1]))
  }

  // ----- what should come out -----

  /** The page in the upper half, the number in the lower. */
  function Named(page: int, u: Usage): int {
    match u
    case Brief(id, _) => page * 0x1_0000 + id
    case Whole(p, id) => p * 0x1_0000 + id
  }

  predicate SameUsages(page: int, a: Asked, us: Usages) {
    match a
    case These(list) =>
      us.List? && |us.usages| == |list| && forall i :: 0 <= i < |list| ==> us.usages[i] == Named(page, list[i])
    case Span(low, high) => us == SpanOf(page, low, high)
  }

  function SpanOf(page: int, low: Usage, high: Usage): Usages {
    var a, b := Named(page, low), Named(page, high);
    if a < 0 || b < 0 then List([]) else Range(a, b)
  }

  /** The field that was wanted, at this place of its report. */
  predicate IsWanted(f: Field, w: Wish, offset: int) {
    && f.reportType == w.reportType && f.reportId == w.id && f.bitOffset == offset
    && f.bitSize == w.size && f.count == w.count && f.flags == w.flags && SameUsages(w.page, w.asked, f.usages)
    && f.logicalMin == w.low && f.logicalMax == w.high && f.physicalMin == w.lowPhysical && f.physicalMax == w.highPhysical
    && f.unitExponent == w.exponent && f.unit == w.unitCode
  }

  /** Just the wanted fields, in order, each behind what its report has before it. */
  predicate AreWanted(fs: seq<Field>, ps: seq<Part>) {
    if ps == [] then fs == []
    else
      var init, last := ps[..|ps| - 1], ps[|ps| - 1];
      if last.Gives? then
        fs != [] && IsWanted(fs[|fs| - 1], last.wish, Bits(init, last.wish.reportType, last.wish.id)) && AreWanted(fs[..|fs| - 1], init)
      else AreWanted(fs, init)
  }

  /** The usages of the application collections (kind 1) that are in no other. */
  function Applications(ps: seq<Part>): seq<int> {
    if ps == [] then []
    else
      var init, last := ps[..|ps| - 1], ps[|ps| - 1];
      Applications(init)
      + if last.Open? && last.collection == 1 && last.usage.Some? && Level(init) == 0 then [Named(Current(init, Page), last.usage.value)]
        else []
  }

  // ----- local and main items (sections 6.2.2.8 and 6.2.2.5) -----

  function UsageItem(tag: nat, u: Usage): (r: Short)
    requires ValidUsage(u) && tag < 16
    ensures ValidShort(r)
  {
    match u
    case Brief(id, width) => Short(Local, tag, width, id)
    case Whole(page, id) => Short(Local, tag, 4, page * 0x1_0000 + id)
  }

  function LocalItems(a: Asked): (r: seq<Short>)
    requires ValidAsked(a)
    ensures AllShort(r)
  {
    match a
    case These(us) => seq(|us|, i requires 0 <= i < |us| => UsageItem(0x0, us[i]))
    case Span(low, high) => [UsageItem(0x1, low), UsageItem(0x2, high)]
  }

  function MainTag(t: ReportType): nat {
    match t case Input => 0x8 case Output => 0x9 case Feature => 0xb
  }

  function Then(xs: seq<Short>, ys: seq<Short>): (r: seq<Short>)
    requires AllShort(xs) && AllShort(ys)
    ensures AllShort(r) && r == xs + ys
  {
    xs + ys
  }

  function FieldItem(w: Wish): (r: Short)
    requires w.width in {0, 1, 2, 4} && w.flags < Room(w.width)
    ensures ValidShort(r)
  {
    Short(Main, MainTag(w.reportType), w.width, w.flags)
  }

  const PUSH := Short(Global, 0xa, 0, 0)
  const POP := Short(Global, 0xb, 0, 0)

  predicate Printable(w: Wish) {
    && AllSettings(w.before) && AllSettings(w.after) && ValidAsked(w.asked)
    && w.width in {0, 1, 2, 4} && w.flags < Room(w.width)
  }

  function FieldItems(w: Wish): (r: seq<Short>)
    requires Printable(w)
    ensures AllShort(r)
  {
    Then(Then(SettingItems(w.before), LocalItems(w.asked)), Then(SettingItems(w.after), [FieldItem(w)]))
  }

  function WishItems(w: Wish): (r: seq<Short>)
    requires Printable(w)
    ensures AllShort(r)
  {
    if w.pushed then Then(Then([PUSH], FieldItems(w)), [POP]) else FieldItems(w)
  }

  function PartItems(ps: seq<Part>, part: Part): (r: seq<Short>)
    requires ValidPart(ps, part)
    ensures AllShort(r)
  {
    match part
    case Gives(w) => WishItems(w)
    case Open(c, width, usage) =>
      (if usage.Some? then [UsageItem(0x0, usage.value)] else []) + [Short(Main, 0xa, width, c)]
    case Close => [Short(Main, 0xc, 0, 0)]
  }

  function DocItems(ps: seq<Part>): (r: seq<Short>)
    requires ValidDoc(ps)
    ensures AllShort(r)
  {
    if ps == [] then [] else DocItems(ps[..|ps| - 1]) + PartItems(ps[..|ps| - 1], ps[|ps| - 1])
  }

  /** The descriptor. */
  function PrintDoc(ps: seq<Part>): seq<byte>
    requires ValidDoc(ps)
  {
    PrintAll(DocItems(ps))
  }

  // ----- usages -----

  function Raw(u: Usage): RawUsage
    requires ValidUsage(u)
  {
    match u
    case Brief(id, _) => RawUsage(id, false)
    case Whole(page, id) => RawUsage(page * 0x1_0000 + id, true)
  }

  lemma UsageStep(s: State, tag: nat, u: Usage)
    requires ValidUsage(u) && tag < 3
    ensures StepItem(s, ItemOf(UsageItem(tag, u))) == Ok(
      if tag == 0 then s.(usages := s.usages + [Raw(u)]) else if tag == 1 then s.(min := Some(Raw(u))) else s.(max := Some(Raw(u))))
  {
    DigitsRead(UsageItem(tag, u));
  }

  lemma RawNamed(page: nat, u: Usage)
    requires ValidUsage(u)
    ensures Resolve(page, Raw(u)) == Named(page, u)
  {
  }

  predicate ValidList(us: seq<Usage>) {
    forall i :: 0 <= i < |us| ==> ValidUsage(us[i])
  }

  function Raws(us: seq<Usage>): (r: seq<RawUsage>)
    requires ValidList(us)
    ensures |r| == |us| && forall i :: 0 <= i < |us| ==> r[i] == Raw(us[i])
  {
    seq(|us|, i requires 0 <= i < |us| => Raw(us[i]))
  }

  lemma {:induction false} UsagesFold(s: State, us: seq<Usage>)
    requires ValidList(us)
    ensures Fold(s, LocalItems(These(us))) == Ok(s.(usages := s.usages + Raws(us)))
    decreases |us|
  {
    if us == [] {
      assert s.usages + Raws(us) == s.usages;
    } else {
      UsageStep(s, 0, us[0]);
      assert LocalItems(These(us))[1..] == LocalItems(These(us[1..]));
      UsagesFold(s.(usages := s.usages + [Raw(us[0])]), us[1..]);
      RawsFirst(us);
      Assoc(s.usages, [Raw(us[0])], Raws(us[1..]));
    }
  }

  lemma RawsFirst(us: seq<Usage>)
    requires ValidList(us) && us != []
    ensures Raws(us) == [Raw(us[0])] + Raws(us[1..])
  {
  }

  lemma SpanFold(s: State, low: Usage, high: Usage)
    requires ValidUsage(low) && ValidUsage(high)
    ensures Fold(s, LocalItems(Span(low, high))) == Ok(s.(min := Some(Raw(low)), max := Some(Raw(high))))
  {
    UsageStep(s, 1, low);
    UsageStep(s.(min := Some(Raw(low))), 2, high);
    FoldOne(s, UsageItem(1, low));
    FoldOne(s.(min := Some(Raw(low))), UsageItem(2, high));
    FoldAppend(s, [UsageItem(1, low)], [UsageItem(2, high)]);
    assert LocalItems(Span(low, high)) == [UsageItem(1, low)] + [UsageItem(2, high)];
  }

  /** The state with these usages read. */
  function WithUsages(s: State, a: Asked): State
    requires ValidAsked(a)
  {
    match a
    case These(us) => s.(usages := Raws(us))
    case Span(low, high) => s.(min := Some(Raw(low)), max := Some(Raw(high)))
  }

  predicate NoneRead(s: State) {
    s.usages == [] && s.min == None && s.max == None
  }

  lemma LocalsFold(s: State, a: Asked)
    requires ValidAsked(a) && NoneRead(s)
    ensures Fold(s, LocalItems(a)) == Ok(WithUsages(s, a))
  {
    match a
    case These(us) =>
      UsagesFold(s, us);
      assert [] + Raws(us) == Raws(us);
    case Span(low, high) => SpanFold(s, low, high);
  }

  lemma UsagesPicked(page: nat, s: State, a: Asked)
    requires ValidAsked(a) && NoneRead(s)
    ensures var v := WithUsages(s, a); SameUsages(page, a, PickUsages(page, v.usages, v.min, v.max))
  {
    match a
    case These(us) => forall i | 0 <= i < |us| ensures Resolve(page, Raws(us)[i]) == Named(page, us[i]) { RawNamed(page, us[i]); }
    case Span(low, high) => RawNamed(page, low); RawNamed(page, high);
  }

  // ----- one field -----

  /** The globals when the main item is met. */
  function Reached(g: Globals, w: Wish): Globals
    requires Printable(w)
  {
    SetAll(SetAll(g, w.before), w.after)
  }

  lemma {:induction false} SetAllAppend(g: Globals, xs: seq<Setting>, ys: seq<Setting>)
    requires AllSettings(xs) && AllSettings(ys)
    ensures AllSettings(xs + ys) && SetAll(g, xs + ys) == SetAll(SetAll(g, xs), ys)
    decreases |xs|
  {
    if xs == [] {
      assert xs + ys == ys;
    } else {
      assert (xs + ys)[1..] == xs[1..] + ys;
      SetAllAppend(Set(g, xs[0]), xs[1..], ys);
    }
  }

  /** What is known of the globals `g` after the parts `ps`. */
  predicate Knows(g: Globals, ps: seq<Part>, p: Property) {
    p != HighLogical ==> Get(g, p) == Current(ps, p)
  }

  lemma ReachedGets(g: Globals, ps: seq<Part>, w: Wish, p: Property)
    requires ValidWish(ps, w) && Settled(ps, w, p) && Knows(g, ps, p) && p != HighLogical
    ensures Get(Reached(g, w), p) == Want(w, p)
  {
    SetAllAppend(g, w.before, w.after);
    GetSet(g, Settings(w), p, Want(w, p));
  }

  lemma ReachedMax(g: Globals, ps: seq<Part>, w: Wish)
    requires ValidWish(ps, w) && Knows(g, ps, LowLogical)
    ensures LogicalMax(Reached(g, w)) == w.high
  {
    SetAllAppend(g, w.before, w.after);
    MaxAll(g, Settings(w), w.high, w.low);
    ReachedGets(g, ps, w, LowLogical);
  }

  ghost predicate KnowsAll(g: Globals, ps: seq<Part>) {
    forall p :: Knows(g, ps, p)
  }

  /** The globals are all as wanted. */
  predicate Fits(g: Globals, w: Wish) {
    && g.usagePage == w.page && g.logicalMin == w.low && LogicalMax(g) == w.high && g.physicalMin == w.lowPhysical
    && g.physicalMax == w.highPhysical && g.unitExponent == w.exponent && g.unit == w.unitCode && g.reportSize == w.size
    && g.reportId == w.id && g.reportCount == w.count
  }

  lemma ReachedFits(g: Globals, ps: seq<Part>, w: Wish)
    requires ValidWish(ps, w) && KnowsAll(g, ps)
    ensures Fits(Reached(g, w), w)
  {
    forall p | p != HighLogical && Settled(ps, w, p) ensures Get(Reached(g, w), p) == Want(w, p) {
      assert Knows(g, ps, p);
      ReachedGets(g, ps, w, p);
    }
    assert Get(Reached(g, w), Page) == w.page && Get(Reached(g, w), LowLogical) == w.low;
    assert Get(Reached(g, w), LowPhysical) == w.lowPhysical && Get(Reached(g, w), HighPhysical) == w.highPhysical;
    assert Get(Reached(g, w), Exponent) == w.exponent && Get(Reached(g, w), UnitCode) == w.unitCode;
    assert Get(Reached(g, w), Size) == w.size && Get(Reached(g, w), Id) == w.id && Get(Reached(g, w), Count) == w.count;
    assert Knows(g, ps, LowLogical);
    ReachedMax(g, ps, w);
  }

  /** The state when the main item is met. */
  function Met(s: State, w: Wish): State
    requires Printable(w)
  {
    WithUsages(s, w.asked).(g := Reached(s.g, w), usesIds := s.usesIds || Sets(w.before, Id) || Sets(w.after, Id))
  }

  lemma MetFold(s: State, w: Wish)
    requires Printable(w) && NoneRead(s)
    ensures Fold(s, FieldItems(w)) == StepItem(Met(s, w), ItemOf(FieldItem(w)))
  {
    var s1 := s.(g := SetAll(s.g, w.before), usesIds := s.usesIds || Sets(w.before, Id));
    var s2 := WithUsages(s1, w.asked);
    SettingsFold(s, w.before);
    LocalsFold(s1, w.asked);
    FoldAppend(s, SettingItems(w.before), LocalItems(w.asked));
    SettingsFold(s2, w.after);
    FoldOne(Met(s, w), FieldItem(w));
    FoldAppend(s2, SettingItems(w.after), [FieldItem(w)]);
    FoldAppend(s, SettingItems(w.before) + LocalItems(w.asked), SettingItems(w.after) + [FieldItem(w)]);
  }

  lemma MainStep(s: State, w: Wish)
    requires Printable(w)
    ensures StepItem(s, ItemOf(FieldItem(w))) == AddField(s, w.reportType, w.flags)
  {
    DigitsRead(FieldItem(w));
    MainIs(s, ItemOf(FieldItem(w)), w.reportType, w.flags);
  }

  lemma MainIs(s: State, i: HidReport.Item, t: ReportType, flags: nat)
    requires i.kind == Main && i.tag == MainTag(t) && Unsigned(i) == flags
    ensures StepItem(s, i) == AddField(s, t, flags)
  {
  }

  /** What the main item adds. */
  predicate Added(s: State, w: Wish, s': State) {
    && s'.fields != [] && s'.fields[..|s'.fields| - 1] == s.fields
    && IsWanted(s'.fields[|s'.fields| - 1], w, BitsOf(s.reports, w.reportType, s'.fields[|s'.fields| - 1].reportId))
    && w.id >= 0 && w.size * w.count >= 0
    && s'.reports == SetBits(s.reports, w.reportType, w.id, BitsOf(s.reports, w.reportType, w.id) + w.size * w.count)
    && s'.applications == s.applications && s'.stack == s.stack && s'.depth == s.depth && NoneRead(s')
  }

  lemma FieldAdds(s: State, ps: seq<Part>, w: Wish)
    requires ValidWish(ps, w) && KnowsAll(s.g, ps) && NoneRead(s)
    requires BitsOf(s.reports, w.reportType, w.id) + w.size * w.count <= U32_MAX
    ensures
      var r := Fold(s, FieldItems(w));
      && r.Ok? && Added(s, w, r.value) && r.value.g == Reached(s.g, w)
      && r.value.usesIds == (s.usesIds || Sets(w.before, Id) || Sets(w.after, Id))
  {
    MetFold(s, w);
    MainStep(Met(s, w), w);
    ReachedFits(s.g, ps, w);
    UsagesPicked(Reached(s.g, w).usagePage, s, w.asked);
    MetAdds(s, w);
  }

  lemma MetAdds(s: State, w: Wish)
    requires Printable(w) && InRange(w) && NoneRead(s) && Fits(Reached(s.g, w), w)
    requires var v := WithUsages(s, w.asked); SameUsages(w.page, w.asked, PickUsages(w.page, v.usages, v.min, v.max))
    requires BitsOf(s.reports, w.reportType, w.id) + w.size * w.count <= U32_MAX
    ensures
      var r := AddField(Met(s, w), w.reportType, w.flags);
      && r.Ok? && Added(s, w, r.value) && r.value.g == Reached(s.g, w)
      && r.value.usesIds == (s.usesIds || Sets(w.before, Id) || Sets(w.after, Id))
  {
    assert w.size * w.count >= 0;
  }

  // ----- the whole descriptor -----

  /** Some report was given a number. */
  predicate Numbers(ps: seq<Part>) {
    exists i :: 0 <= i < |ps| && ps[i].Gives? && Sets(Settings(ps[i].wish), Id)
  }

  predicate BitsAgree(reports: seq<Report>, ps: seq<Part>, t: ReportType, id: nat) {
    BitsOf(reports, t, id) == Bits(ps, t, id)
  }

  ghost predicate AllBits(reports: seq<Report>, ps: seq<Part>) {
    OnceEach(reports) && forall t: ReportType, id: nat :: BitsAgree(reports, ps, t, id)
  }

  /** The parser's state when it has read these parts. */
  ghost predicate Has(s: State, ps: seq<Part>) {
    && AreWanted(s.fields, ps) && NoneRead(s) && s.stack == [] && s.depth == Level(ps) && KnowsAll(s.g, ps)
    && AllBits(s.reports, ps) && s.applications == Applications(ps) && (s.usesIds <==> Numbers(ps))
  }

  lemma PushIs(s: State, i: HidReport.Item)
    requires i.kind == Global && i.tag == 0xa
    ensures StepItem(s, i) == Ok(s.(stack := s.stack + [s.g]))
  {
  }

  lemma PopIs(s: State, i: HidReport.Item)
    requires i.kind == Global && i.tag == 0xb && s.stack != []
    ensures StepItem(s, i) == Ok(s.(g := s.stack[|s.stack| - 1], stack := s.stack[..|s.stack| - 1]))
  {
  }

  lemma PushPop(s: State, xs: seq<Short>, s2: State)
    requires AllShort(xs) && s.stack == [] && s2.stack == [s.g] && Fold(s.(stack := [s.g]), xs) == Ok(s2)
    ensures Fold(s, Then(Then([PUSH], xs), [POP])) == Ok(s2.(g := s.g, stack := []))
  {
    FoldOne(s, PUSH);
    PushIs(s, ItemOf(PUSH));
    assert s.stack + [s.g] == [s.g];
    FoldAppend(s, [PUSH], xs);
    FoldOne(s2, POP);
    PopIs(s2, ItemOf(POP));
    assert s2.stack[..|s2.stack| - 1] == [];
    FoldAppend(s, [PUSH] + xs, [POP]);
  }

  /** What a field leaves. */
  predicate Leaves(s: State, w: Wish, s': State)
    requires Printable(w)
  {
    && Added(s, w, s') && s'.g == (if w.pushed then s.g else Reached(s.g, w))
    && (s'.usesIds <==> s.usesIds || Sets(w.before, Id) || Sets(w.after, Id))
  }

  lemma PushedFold(s: State, ps: seq<Part>, w: Wish) returns (s': State)
    requires ValidWish(ps, w) && w.pushed && s.stack == [] && KnowsAll(s.g, ps) && NoneRead(s)
    requires BitsOf(s.reports, w.reportType, w.id) + w.size * w.count <= U32_MAX
    ensures Fold(s, WishItems(w)) == Ok(s') && Leaves(s, w, s')
  {
    var s1 := s.(stack := [s.g]);
    FieldAdds(s1, ps, w);
    var s2 := Fold(s1, FieldItems(w)).value;
    PushPop(s, FieldItems(w), s2);
    s' := s2.(g := s.g, stack := []);
    Popped(s, w, s2);
  }

  lemma Popped(s: State, w: Wish, s2: State)
    requires s.stack == [] && Added(s.(stack := [s.g]), w, s2)
    ensures Added(s, w, s2.(g := s.g, stack := []))
  {
  }

  lemma WishFold(s: State, ps: seq<Part>, w: Wish) returns (s': State)
    requires ValidWish(ps, w) && Has(s, ps)
    ensures Fold(s, WishItems(w)) == Ok(s') && Leaves(s, w, s')
  {
    assert BitsAgree(s.reports, ps, w.reportType, w.id);
    if w.pushed {
      s' := PushedFold(s, ps, w);
    } else {
      FieldAdds(s, ps, w);
      s' := Fold(s, FieldItems(w)).value;
    }
  }

  lemma SetsBoth(xs: seq<Setting>, ys: seq<Setting>, p: Property)
    ensures Sets(xs + ys, p) <==> Sets(xs, p) || Sets(ys, p)
  {
    if Sets(xs, p) {
      var i :| 0 <= i < |xs| && xs[i].property == p;
      assert (xs + ys)[i] == xs[i];
    }
    if Sets(ys, p) {
      var i :| 0 <= i < |ys| && ys[i].property == p;
      assert (xs + ys)[|xs| + i] == ys[i];
    }
  }

  lemma NumbersLast(ps: seq<Part>, part: Part)
    ensures Numbers(ps + [part]) <==> Numbers(ps) || (part.Gives? && Sets(Settings(part.wish), Id))
  {
    var all := ps + [part];
    assert all[|ps|] == part && forall i :: 0 <= i < |ps| ==> all[i] == ps[i];
  }

  lemma BitsNext(s: State, ps: seq<Part>, w: Wish, reports: seq<Report>)
    requires AllBits(s.reports, ps) && ValidWish(ps, w) && w.size * w.count >= 0
    requires reports == SetBits(s.reports, w.reportType, w.id, BitsOf(s.reports, w.reportType, w.id) + w.size * w.count)
    ensures AllBits(reports, ps + [Gives(w)])
  {
    var bits: nat := BitsOf(s.reports, w.reportType, w.id) + w.size * w.count;
    SetBitsOnce(s.reports, w.reportType, w.id, bits);
    forall t: ReportType, id: nat ensures BitsAgree(reports, ps + [Gives(w)], t, id) {
      assert BitsAgree(s.reports, ps, t, id);
      BitsNextAt(s.reports, ps, w, bits, t, id);
    }
  }

  lemma BitsNextAt(reports: seq<Report>, ps: seq<Part>, w: Wish, bits: nat, t: ReportType, id: nat)
    requires OnceEach(reports) && BitsAgree(reports, ps, t, id) && w.id >= 0
    requires bits == BitsOf(reports, w.reportType, w.id) + w.size * w.count
    ensures BitsAgree(SetBits(reports, w.reportType, w.id, bits), ps + [Gives(w)], t, id)
  {
    assert (ps + [Gives(w)])[..|ps|] == ps;
    if t == w.reportType && id == w.id { SetBitsOwn(reports, t, id, bits); }
    else { SetBitsOther(reports, w.reportType, w.id, bits, t, id); }
  }

  lemma KnowsNext(g: Globals, ps: seq<Part>, w: Wish)
    requires KnowsAll(g, ps) && ValidWish(ps, w)
    ensures KnowsAll(if w.pushed then g else Reached(g, w), ps + [Gives(w)])
  {
    var all := ps + [Gives(w)];
    assert all[..|ps|] == ps;
    var g' := if w.pushed then g else Reached(g, w);
    forall p ensures Knows(g', all, p) {
      assert Knows(g, ps, p);
      if !w.pushed && p != HighLogical {
        IsSettled(ps, w, p);
        ReachedGets(g, ps, w, p);
      }
    }
  }

  lemma IsSettled(ps: seq<Part>, w: Wish, p: Property)
    requires ValidWish(ps, w)
    ensures Settled(ps, w, p)
  {
  }

  lemma FieldsNext(s: State, ps: seq<Part>, w: Wish, s': State)
    requires Has(s, ps) && ValidWish(ps, w) && Added(s, w, s')
    ensures AreWanted(s'.fields, ps + [Gives(w)])
  {
    assert (ps + [Gives(w)])[..|ps|] == ps;
    assert BitsAgree(s.reports, ps, w.reportType, w.id);
  }

  lemma ItemHas(s: State, ps: seq<Part>, w: Wish, s': State)
    requires Has(s, ps) && Printable(w) && Leaves(s, w, s')
    requires AreWanted(s'.fields, ps + [Gives(w)]) && AllBits(s'.reports, ps + [Gives(w)]) && KnowsAll(s'.g, ps + [Gives(w)])
    ensures Has(s', ps + [Gives(w)])
  {
    assert (ps + [Gives(w)])[..|ps|] == ps;
    NumbersLast(ps, Gives(w));
    SetsBoth(w.before, w.after, Id);
    assert s.applications + [] == s.applications;
  }

  lemma LeavesHas(s: State, ps: seq<Part>, w: Wish, s': State)
    requires Has(s, ps) && ValidWish(ps, w) && Leaves(s, w, s')
    ensures Has(s', ps + [Gives(w)])
  {
    FieldsNext(s, ps, w, s');
    BitsNext(s, ps, w, s'.reports);
    KnowsNext(s.g, ps, w);
    ItemHas(s, ps, w, s');
  }

  lemma ItemNext(s: State, ps: seq<Part>, w: Wish) returns (s': State)
    requires Has(s, ps) && ValidWish(ps, w)
    ensures Fold(s, WishItems(w)) == Ok(s') && Has(s', ps + [Gives(w)])
  {
    s' := WishFold(s, ps, w);
    LeavesHas(s, ps, w, s');
  }

  /** A part that is no field changes nothing but the collections. */
  lemma OtherNext(s: State, ps: seq<Part>, part: Part, s': State)
    requires Has(s, ps) && !part.Gives?
    requires s' == s.(applications := s'.applications, depth := s'.depth)
    requires s'.depth == Level(ps + [part]) && s'.applications == Applications(ps + [part])
    ensures Has(s', ps + [part])
  {
    var all := ps + [part];
    assert all[..|ps|] == ps;
    NumbersLast(ps, part);
    forall p ensures Knows(s'.g, all, p) { assert Knows(s.g, ps, p); }
    forall t: ReportType, id: nat ensures BitsAgree(s'.reports, all, t, id) { assert BitsAgree(s.reports, ps, t, id); }
  }

  function Opened(s: State, part: Part): State
    requires part.Open?
  {
    var app := if part.collection == 1 && part.usage.Some? && s.depth == 0 && Named(s.g.usagePage, part.usage.value) >= 0
               then [Named(s.g.usagePage, part.usage.value)] else [];
    s.(applications := s.applications + app, depth := s.depth + 1)
  }

  lemma CollectionIs(s: State, i: HidReport.Item, c: nat)
    requires i.kind == Main && i.tag == 0xa && Unsigned(i) == c
    ensures StepItem(s, i) == Ok(Collection(s, c))
  {
  }

  lemma OpenedIs(s: State, part: Part)
    requires part.Open? && (part.usage.Some? ==> ValidUsage(part.usage.value)) && s.min == None && s.max == None
    requires s.usages == (if part.usage.Some? then [Raw(part.usage.value)] else [])
    ensures Collection(s, part.collection) == Opened(s.(usages := []), part)
  {
    if part.usage.Some? { RawNamed(s.g.usagePage, part.usage.value); }
  }

  lemma OpenStep(s: State, part: Part)
    requires part.Open? && part.width in {0, 1, 2, 4} && part.collection < Room(part.width)
    requires (part.usage.Some? ==> ValidUsage(part.usage.value)) && s.min == None && s.max == None
    requires s.usages == (if part.usage.Some? then [Raw(part.usage.value)] else [])
    ensures StepItem(s, ItemOf(Short(Main, 0xa, part.width, part.collection))) == Ok(Opened(s.(usages := []), part))
  {
    DigitsRead(Short(Main, 0xa, part.width, part.collection));
    CollectionIs(s, ItemOf(Short(Main, 0xa, part.width, part.collection)), part.collection);
    OpenedIs(s, part);
  }

  lemma OpenFold(s: State, ps: seq<Part>, part: Part)
    requires part.Open? && ValidPart(ps, part) && NoneRead(s)
    ensures Fold(s, PartItems(ps, part)) == Ok(Opened(s, part))
  {
    var main := Short(Main, 0xa, part.width, part.collection);
    if part.usage.Some? {
      var u := part.usage.value;
      var s1 := s.(usages := [Raw(u)]);
      UsageStep(s, 0, u);
      assert s.usages + [Raw(u)] == [Raw(u)];
      FoldOne(s, UsageItem(0, u));
      OpenStep(s1, part);
      FoldOne(s1, main);
      FoldAppend(s, [UsageItem(0, u)], [main]);
    } else {
      OpenStep(s, part);
      FoldOne(s, main);
      assert PartItems(ps, part) == [main];
    }
  }

  lemma OpenNext(s: State, ps: seq<Part>, part: Part)
    requires Has(s, ps) && part.Open? && ValidPart(ps, part)
    ensures Has(Opened(s, part), ps + [part])
  {
    assert (ps + [part])[..|ps|] == ps;
    assert Knows(s.g, ps, Page);
    OtherNext(s, ps, part, Opened(s, part));
  }

  lemma CloseNext(s: State, ps: seq<Part>)
    requires Has(s, ps) && Level(ps) > 0
    ensures s.depth > 0 && Fold(s, [Short(Main, 0xc, 0, 0)]) == Ok(s.(depth := s.depth - 1))
    ensures Has(s.(depth := s.depth - 1), ps + [Close])
  {
    FoldOne(s, Short(Main, 0xc, 0, 0));
    assert (ps + [Close])[..|ps|] == ps;
    assert s.applications + [] == s.applications;
    OtherNext(s, ps, Close, s.(depth := s.depth - 1));
  }

  lemma PartNext(s: State, ps: seq<Part>, part: Part) returns (s': State)
    requires Has(s, ps) && ValidPart(ps, part)
    ensures Fold(s, PartItems(ps, part)) == Ok(s') && Has(s', ps + [part])
  {
    match part
    case Gives(w) => s' := ItemNext(s, ps, w);
    case Open(_, _, _) =>
      OpenFold(s, ps, part);
      OpenNext(s, ps, part);
      s' := Opened(s, part);
    case Close =>
      CloseNext(s, ps);
      s' := s.(depth := s.depth - 1);
  }

  lemma BeginHas()
    ensures Has(Begin, [])
  {
    forall p ensures Knows(Begin.g, [], p) {}
  }

  lemma {:induction false} DocFold(ps: seq<Part>) returns (s: State)
    requires ValidDoc(ps)
    ensures Fold(Begin, DocItems(ps)) == Ok(s) && Has(s, ps)
  {
    if ps == [] {
      BeginHas();
      s := Begin;
    } else {
      var init, last := ps[..|ps| - 1], ps[|ps| - 1];
      var s0 := DocFold(init);
      s := PartNext(s0, init, last);
      FoldAppend(Begin, DocItems(init), PartItems(init, last));
      InitLast(ps);
    }
  }

  /** Parsing a descriptor gives just the fields it was written for, each with its report, place, size,
      count, flags, usages, limits, exponent and unit, and the usages of its application collections. */
  lemma WrittenParses(ps: seq<Part>) returns (d: Descriptor)
    requires ValidDoc(ps)
    ensures Parse(PrintDoc(ps)) == Ok(d)
    ensures AreWanted(d.fields, ps) && d.applications == Applications(ps) && (d.usesIds <==> Numbers(ps))
  {
    var s := DocFold(ps);
    RunIsFold(Begin, DocItems(ps));
    d := Descriptor(s.fields, s.applications, s.reports, s.usesIds);
  }
}
