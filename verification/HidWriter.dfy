/** A writer of report descriptors, and what the parser makes of what it writes. */
module HidWriter {
  import opened Wrappers
  import opened Bytes
  import opened HidReport

  // ----- items on the wire (HID 1.11, section 6.2.2.2) -----

  /** A short item; `value` takes `width` bytes. */
  datatype Short = Short(kind: Kind, tag: nat, width: nat, value: nat)

  function Room(width: nat): nat {
    if width == 0 then 1 else if width == 1 then 0x100 else if width == 2 then 0x1_0000 else 0x1_0000_0000
  }

  predicate ValidShort(x: Short) {
    !x.kind.Reserved? && x.tag < 16 && x.width in {0, 1, 2, 4} && x.value < Room(x.width)
  }

  /** The lowest byte comes first. */
  function Digits(width: nat, value: nat): (r: seq<byte>)
    ensures |r| == width
  {
    if width == 0 then [] else [value % 256] + Digits(width - 1, value / 256)
  }

  function KindCode(k: Kind): (r: nat)
    ensures r < 4
  {
    match k case Main => 0 case Global => 1 case Local => 2 case Reserved => 3
  }

  function PrintShort(x: Short): (r: seq<byte>)
    requires ValidShort(x)
    ensures |r| == 1 + x.width
  {
    [16 * x.tag + 4 * KindCode(x.kind) + (if x.width == 4 then 3 else x.width)] + Digits(x.width, x.value)
  }

  function ItemOf(x: Short): Item
    requires ValidShort(x)
  {
    Item(x.kind, x.tag, Digits(x.width, x.value))
  }

  lemma ShortReadsBack(x: Short, rest: seq<byte>)
    requires ValidShort(x)
    ensures NextItem(PrintShort(x) + rest) == Some((ItemOf(x), 1 + x.width))
    ensures (PrintShort(x) + rest)[1 + x.width..] == rest
  {
    var b := PrintShort(x) + rest;
    assert b[1..1 + x.width] == Digits(x.width, x.value);
    PrefixReads(b[0], x.tag, KindCode(x.kind), if x.width == 4 then 3 else x.width);
  }

  lemma PrefixReads(b: byte, tag: nat, kind: nat, size: nat)
    requires tag < 16 && kind < 3 && size < 4 && b == 16 * tag + 4 * kind + size
    ensures b / 16 == tag && b / 4 % 4 == kind && b % 4 == size && b != 0xfe
  {
  }

  /** A number read as two's complement of so many bytes. */
  function Wrapped(width: nat, value: nat): int
    requires value < Room(width)
  {
    if width > 0 && 2 * value >= Room(width) then value - Room(width) else value
  }

  lemma DigitsRead(x: Short)
    requires ValidShort(x)
    ensures Unsigned(ItemOf(x)) == x.value && Signed(ItemOf(x)) == Wrapped(x.width, x.value)
    ensures |ItemOf(x).data| == x.width
  {
    var d := Digits(x.width, x.value);
    if x.width == 2 {
      TwoDigits(x.value);
      assert d[0..2] == d;
      Le16Put(d, 0, x.value);
    } else if x.width == 4 {
      FourDigits(x.value);
      assert d[0..4] == d;
      Le32Put(d, 0, x.value);
    }
  }

  lemma TwoDigits(v: nat)
    requires v < 0x1_0000
    ensures Digits(2, v) == PutLe16(v)
  {
  }

  lemma FourDigits(v: nat)
    requires v < 0x1_0000_0000
    ensures Digits(4, v) == PutLe32(v)
  {
    var low, high := v % 0x1_0000, v / 0x1_0000;
    assert Digits(4, v) == [v % 256] + ([v / 256 % 256] + Digits(2, v / 256 / 256));
    assert v / 256 / 256 == high;
    assert low % 256 == v % 256 && low / 256 == v / 256 % 256;
    TwoDigits(high);
  }

  predicate AllShort(xs: seq<Short>) {
    forall i :: 0 <= i < |xs| ==> ValidShort(xs[i])
  }

  function PrintAll(xs: seq<Short>): seq<byte>
    requires AllShort(xs)
  {
    if xs == [] then [] else PrintShort(xs[0]) + PrintAll(xs[1..])
  }

  /** The parser's steps on items. */
  function Fold(s: State, xs: seq<Short>): Result<State, ParseError>
    requires AllShort(xs)
    decreases |xs|
  {
    if xs == [] then Ok(s)
    else
      match StepItem(s, ItemOf(xs[0]))
      case Err(e) => Err(e)
      case Ok(s') => Fold(s', xs[1..])
  }

  lemma {:induction false} RunIsFold(s: State, xs: seq<Short>)
    requires AllShort(xs)
    ensures Run(s, PrintAll(xs)) == Fold(s, xs)
    decreases |xs|
  {
    if xs != [] {
      ShortReadsBack(xs[0], PrintAll(xs[1..]));
      var next := StepItem(s, ItemOf(xs[0]));
      if next.Ok? { RunIsFold(next.value, xs[1..]); }
    }
  }

  lemma {:induction false} FoldAppend(s: State, xs: seq<Short>, ys: seq<Short>)
    requires AllShort(xs) && AllShort(ys)
    ensures AllShort(xs + ys)
    ensures Fold(s, xs + ys) == match Fold(s, xs) { case Err(e) => Err(e) case Ok(s') => Fold(s', ys) }
    decreases |xs|
  {
    if xs == [] {
      assert xs + ys == ys;
    } else {
      var next := StepItem(s, ItemOf(xs[0]));
      assert (xs + ys)[1..] == xs[1..] + ys;
      if next.Ok? { FoldAppend(next.value, xs[1..], ys); }
    }
  }

  lemma FoldOne(s: State, x: Short)
    requires ValidShort(x)
    ensures Fold(s, [x]) == StepItem(s, ItemOf(x))
  {
    assert [x][1..] == [];
  }

  // ----- global items (section 6.2.2.7) -----

  datatype Property = Page | LowLogical | HighLogical | LowPhysical | HighPhysical | Exponent | UnitCode | Size | Id | Count

  function GlobalTag(p: Property): nat {
    match p
    case Page => 0x0
    case LowLogical => 0x1
    case HighLogical => 0x2
    case LowPhysical => 0x3
    case HighPhysical => 0x4
    case Exponent => 0x5
    case UnitCode => 0x6
    case Size => 0x7
    case Id => 0x8
    case Count => 0x9
  }

  /** A property written in `width` bytes. */
  datatype Setting = Setting(property: Property, value: int, width: nat)

  predicate InUnsigned(v: int, width: nat) {
    0 <= v < Room(width)
  }

  predicate InSigned(v: int, width: nat) {
    if width == 0 then v == 0 else 0 <= 2 * v + Room(width) && 2 * v < Room(width)
  }

  /** What can be written; a maximum may be written as if it had no sign. */
  predicate ValidSetting(x: Setting) {
    && x.width in {0, 1, 2, 4}
    && match x.property
       case Page => 0 <= x.value < 0x1_0000 && InUnsigned(x.value, x.width)
       case Id => 1 <= x.value <= 255 && InUnsigned(x.value, x.width)
       case UnitCode => InUnsigned(x.value, x.width)
       case Size => InUnsigned(x.value, x.width)
       case Count => InUnsigned(x.value, x.width)
       case HighLogical => InSigned(x.value, x.width) || InUnsigned(x.value, x.width)
       case _ => InSigned(x.value, x.width)
  }

  function Encoded(v: int, width: nat): nat
    requires InSigned(v, width) || InUnsigned(v, width)
  {
    if v < 0 then v + Room(width) else v
  }

  function SettingItem(x: Setting): (r: Short)
    requires ValidSetting(x)
    ensures ValidShort(r)
  {
    Short(Global, GlobalTag(x.property), x.width, Encoded(x.value, x.width))
  }

  function Set(g: Globals, x: Setting): Globals
    requires ValidSetting(x)
  {
    match x.property
    case Page => g.(usagePage := x.value)
    case LowLogical => g.(logicalMin := x.value)
    case HighLogical => g.(logicalMax := Wrapped(x.width, Encoded(x.value, x.width)), logicalMaxSize := x.width)
    case LowPhysical => g.(physicalMin := x.value)
    case HighPhysical => g.(physicalMax := x.value)
    case Exponent => g.(unitExponent := x.value)
    case UnitCode => g.(unit := x.value)
    case Size => g.(reportSize := x.value)
    case Id => g.(reportId := x.value)
    case Count => g.(reportCount := x.value)
  }

  lemma EncodedWraps(v: int, width: nat)
    requires width in {0, 1, 2, 4} && InSigned(v, width)
    ensures Wrapped(width, Encoded(v, width)) == v
  {
  }

  /** What such an item does, whatever its bytes are. */
  lemma GlobalStep(s: State, i: Item, x: Setting)
    requires ValidSetting(x) && i.kind == Global && i.tag == GlobalTag(x.property) && |i.data| == x.width
    requires Unsigned(i) == Encoded(x.value, x.width) && Signed(i) == Wrapped(x.width, Encoded(x.value, x.width))
    ensures StepItem(s, i) == Ok(s.(g := Set(s.g, x), usesIds := s.usesIds || x.property.Id?))
  {
    if InSigned(x.value, x.width) { EncodedWraps(x.value, x.width); }
    if x.property == Page { SmallPage(x.value); }
  }

  lemma SmallPage(v: int)
    requires 0 <= v < 0x1_0000
    ensures v % 0x1_0000 == v
  {
  }

  lemma SettingStep(s: State, x: Setting)
    requires ValidSetting(x)
    ensures StepItem(s, ItemOf(SettingItem(x))) == Ok(s.(g := Set(s.g, x), usesIds := s.usesIds || x.property.Id?))
  {
    DigitsRead(SettingItem(x));
    GlobalStep(s, ItemOf(SettingItem(x)), x);
  }

  predicate AllSettings(xs: seq<Setting>) {
    forall i :: 0 <= i < |xs| ==> ValidSetting(xs[i])
  }

  function SettingItems(xs: seq<Setting>): (r: seq<Short>)
    requires AllSettings(xs)
    ensures |r| == |xs| && AllShort(r) && forall i :: 0 <= i < |xs| ==> r[i] == SettingItem(xs[i])
  {
    seq(|xs|, i requires 0 <= i < |xs| => SettingItem(xs[i]))
  }

  function SetAll(g: Globals, xs: seq<Setting>): Globals
    requires AllSettings(xs)
    decreases |xs|
  {
    if xs == [] then g else SetAll(Set(g, xs[0]), xs[1..])
  }

  predicate Sets(xs: seq<Setting>, p: Property) {
    exists i :: 0 <= i < |xs| && xs[i].property == p
  }

  lemma {:induction false} SettingsFold(s: State, xs: seq<Setting>)
    requires AllSettings(xs)
    ensures Fold(s, SettingItems(xs)) == Ok(s.(g := SetAll(s.g, xs), usesIds := s.usesIds || Sets(xs, Id)))
    decreases |xs|
  {
    if xs != [] {
      SettingStep(s, xs[0]);
      assert SettingItems(xs)[1..] == SettingItems(xs[1..]);
      SetsFirst(xs, Id);
      SettingsFold(s.(g := Set(s.g, xs[0]), usesIds := s.usesIds || xs[0].property.Id?), xs[1..]);
    }
  }

  lemma SetsFirst(xs: seq<Setting>, p: Property)
    requires xs != []
    ensures Sets(xs, p) <==> xs[0].property == p || Sets(xs[1..], p)
  {
    if Sets(xs, p) && xs[0].property != p {
      var i :| 0 <= i < |xs| && xs[i].property == p;
      assert xs[1..][i - 1] == xs[i];
    }
    if Sets(xs[1..], p) {
      var i :| 0 <= i < |xs[1..]| && xs[1..][i].property == p;
      assert xs[i + 1] == xs[1..][i];
    }
  }

  function Get(g: Globals, p: Property): int {
    match p
    case Page => g.usagePage
    case LowLogical => g.logicalMin
    case HighLogical => g.logicalMax
    case LowPhysical => g.physicalMin
    case HighPhysical => g.physicalMax
    case Exponent => g.unitExponent
    case UnitCode => g.unit
    case Size => g.reportSize
    case Id => g.reportId
    case Count => g.reportCount
  }

  /** Every setting of `p` is of this value. */
  predicate Agree(xs: seq<Setting>, p: Property, v: int) {
    forall i :: 0 <= i < |xs| && xs[i].property == p ==> xs[i].value == v
  }

  lemma {:induction false} GetSet(g: Globals, xs: seq<Setting>, p: Property, v: int)
    requires AllSettings(xs) && Agree(xs, p, v) && p != HighLogical
    ensures Get(SetAll(g, xs), p) == if Sets(xs, p) then v else Get(g, p)
    decreases |xs|
  {
    if xs != [] {
      SetsFirst(xs, p);
      GetSet(Set(g, xs[0]), xs[1..], p, v);
    }
  }

  /** A maximum that is understood beside this minimum: what looks negative beside one that is not
      is taken to have no sign. */
  predicate Understood(v: int, width: nat, low: int) {
    if v < 0 then low < 0 && InSigned(v, width)
    else InSigned(v, width) || (low >= 0 && InUnsigned(v, width))
  }

  predicate AllUnderstood(xs: seq<Setting>, v: int, low: int) {
    forall i :: 0 <= i < |xs| && xs[i].property == HighLogical ==> xs[i].value == v && Understood(v, xs[i].width, low)
  }

  predicate MaxHolds(g: Globals, v: int, low: int) {
    LogicalMax(g.(logicalMin := low)) == v
  }

  lemma MaxSet(g: Globals, x: Setting, low: int)
    requires ValidSetting(x) && x.property == HighLogical && Understood(x.value, x.width, low)
    ensures MaxHolds(Set(g, x), x.value, low)
  {
    if InSigned(x.value, x.width) { EncodedWraps(x.value, x.width); }
  }

  lemma {:induction false} MaxAll(g: Globals, xs: seq<Setting>, v: int, low: int)
    requires AllSettings(xs) && AllUnderstood(xs, v, low) && (Sets(xs, HighLogical) || MaxHolds(g, v, low))
    ensures MaxHolds(SetAll(g, xs), v, low)
    decreases |xs|
  {
    if xs != [] {
      SetsFirst(xs, HighLogical);
      if xs[0].property == HighLogical { MaxSet(g, xs[0], low); }
      MaxAll(Set(g, xs[0]), xs[1..], v, low);
    }
  }
}
