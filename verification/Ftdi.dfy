/** FTDI baud-rate divisors (application note AN232B-05). */
module Ftdi {
  import opened Wrappers
  import opened Arith

  datatype Chip =
    | Am | Bm | Ft2232C | Ft232R | Ft2232H | Ft4232H | Ft232H | FtX | Ft2233HP | Ft4233HP | Ft2232HP | Ft4232HP
    | Ft233HP | Ft232HP | Ft4232HA | Unknown(bcd: nat)

  predicate IsHighSpeed(c: Chip) {
    !(c.Am? || c.Bm? || c.Ft2232C? || c.Ft232R? || c.FtX?)
  }

  function Channel(c: Chip, interface: nat): nat {
    if c.Am? || c.Bm? || c.Ft232R? then 0 else interface + 1
  }

  function MaxBaudRate(c: Chip): nat {
    if IsHighSpeed(c) then 12_000_000 else 3_000_000
  }

  /** The chip's code for a number of eighths. */
  function DivFrac(frac: nat): nat
    requires frac < 8
  {
    match frac case 0 => 0 case 1 => 3 case 2 => 2 case 3 => 4 case 4 => 1 case 5 => 5 case 6 => 6 case _ => 7
  }

  /** The encoding of a divisor in eighths for the 232AM, which has only the fractions 1/8, 1/4 and 1/2. */
  function AmEncode(nearest: nat): Option<nat> {
    var d3 := if nearest % 8 == 7 then nearest + 1 else nearest;  // seven eighths do not exist
    var divisor := d3 / 8;
    if divisor > 0x3fff then None
    else if d3 % 8 == 0 then Some(if divisor == 1 then 0 else divisor)
    else if d3 % 8 == 1 then Some(divisor + 0xc000)
    else if d3 % 8 >= 4 then Some(divisor + 0x4000)
    else Some(divisor + 0x8000)
  }

  /** `am_divisor`. */
  function AmDivisor(baud: nat): Option<nat>
    requires baud > 0
  {
    AmEncode((48_000_000 + baud) / (2 * baud))
  }

  /** `bm_divisor`. */
  function BmDivisor(d3: nat, highSpeed: bool): Option<nat> {
    var whole := d3 / 8;
    if whole > 0x3fff then None
    else
      var divisor := whole + DivFrac(d3 % 8) * 0x4000;
      // Dividing by one is code 0, which leaves code 1 to one and a half.
      var coded := if divisor == 1 then 0 else if divisor == 0x4001 then 1 else divisor;
      Some(if highSpeed then coded + 0x2_0000 else coded)
  }

  predicate FastClock(c: Chip, baud: nat) {
    IsHighSpeed(c) && baud >= 1200
  }

  datatype BaudError = OutOfRange

  /** The divisor of a rate, in the chip's encoding: 14 bits of whole divisor, three of fraction, one
      for the fast clock. */
  function Divisor(c: Chip, baud: nat): Option<nat>
    requires baud > 0
  {
    if c.Am? then AmDivisor(baud)
    else if FastClock(c, baud) then BmDivisor((960_000_000 + 5 * baud) / (10 * baud), true)
    else BmDivisor((48_000_000 + baud) / (2 * baud), false)
  }

  /** `index << 8 | channel`; only a channel past a byte can share a bit with the index. */
  function WithChannel(index: nat, channel: nat): nat
    requires channel <= 0x100
  {
    if channel < 0x100 || index % 2 == 0 then index * 0x100 + channel else index * 0x100
  }

  /** `baud_request`: wValue and wIndex. */
  function BaudRequest(c: Chip, channel: nat, baud: nat): Result<(nat, nat), BaudError>
    requires channel <= 0x100
  {
    if baud == 0 || baud > MaxBaudRate(c) then Err(OutOfRange)
    else
      match Divisor(c, baud)
      case None => Err(OutOfRange)
      case Some(d) => Ok((d % 0x1_0000, if channel != 0 then WithChannel(d / 0x1_0000, channel) else d / 0x1_0000))
  }

  // ----- the chips -----

  /** The H and HP series, and what is not known; only these have the 120 MHz clock. */
  predicate Hi(c: Chip) {
    match c
    case Am => false
    case Bm => false
    case Ft2232C => false
    case Ft232R => false
    case FtX => false
    case _ => true
  }

  /** Chips made before ports had numbers. */
  predicate Portless(c: Chip) {
    match c
    case Am => true
    case Bm => true
    case Ft232R => true
    case _ => false
  }

  /** What each chip can do: 12 Mbaud or 3, its fast clock from 1200 baud on, and ports counted from 1. */
  lemma ChipsAre(c: Chip, interface: nat, baud: nat)
    ensures MaxBaudRate(c) == (if Hi(c) then 12_000_000 else 3_000_000) && (FastClock(c, baud) <==> Hi(c) && baud >= 1200)
    ensures Channel(c, interface) == if Portless(c) then 0 else 1 + interface
  {
  }

  // ----- what the chip makes of it -----

  function FracOf(code: nat): nat
    requires code < 8
  {
    match code case 0 => 0 case 1 => 4 case 2 => 2 case 3 => 1 case 4 => 3 case 5 => 5 case 6 => 6 case _ => 7
  }

  /** A divisor in eighths, and whether of the fast clock. */
  function DecodeBm(code: nat): (nat, bool)
    requires code < 0x4_0000
  {
    var divisor := code % 0x2_0000;
    var d := if divisor == 0 then 8 else if divisor == 1 then 12
             else 8 * (divisor % 0x4000) + FracOf(divisor / 0x4000);
    (d, code >= 0x2_0000)
  }

  function DecodeAm(code: nat): nat
    requires code < 0x1_0000
  {
    var frac := match code / 0x4000 case 0 => 0 case 1 => 4 case 2 => 2 case _ => 1;
    if code == 0 then 8 else 8 * (code % 0x4000) + frac
  }

  /** Every divisor but zero is told apart from all others, the two special codes included. */
  lemma BmRoundTrip(d: nat, highSpeed: bool)
    requires 1 <= d <= 8 * 0x3fff + 7
    ensures
      var code := BmDivisor(d, highSpeed);
      code.Some? && code.value < 0x4_0000 && DecodeBm(code.value) == (d, highSpeed)
  {
    var whole, frac := d / 8, d % 8;
    var divisor := whole + DivFrac(frac) * 0x4000;
    DivModUnique(divisor, 0x4000, DivFrac(frac), whole);
  }

  lemma BmInjective(d: nat, e: nat, highSpeed: bool, highSpeed': bool)
    requires 1 <= d <= 8 * 0x3fff + 7 && 1 <= e <= 8 * 0x3fff + 7
    requires BmDivisor(d, highSpeed) == BmDivisor(e, highSpeed')
    ensures d == e && highSpeed == highSpeed'
  {
    BmRoundTrip(d, highSpeed);
    BmRoundTrip(e, highSpeed');
  }

  /** Zero is the exception: it looks like the fastest rate. */
  lemma ZeroLooksLikeEight()
    ensures BmDivisor(0, false) == BmDivisor(8, false)
  {
  }

  // ----- rounding -----

  lemma Nearest(a: nat, k: nat, half: nat)
    requires k > 0 && k == 2 * half
    ensures
      var d := (a + half) / k;
      a < k * d + half && k * d <= a + half
  {
    var d := (a + half) / k;
    var r := (a + half) % k;
    assert a + half == d * k + r;
  }

  /** The divisor of the 48 MHz clock is the nearest there is. */
  lemma SlowNearest(baud: nat)
    requires baud > 0
    ensures
      var d := (48_000_000 + baud) / (2 * baud);
      2 * baud * d <= 48_000_000 + baud && 48_000_000 <= 2 * baud * d + baud
  {
    Nearest(48_000_000, 2 * baud, baud);
  }

  lemma FastNearest(baud: nat)
    requires baud > 0
    ensures
      var d := (960_000_000 + 5 * baud) / (10 * baud);
      10 * baud * d <= 960_000_000 + 5 * baud && 960_000_000 <= 10 * baud * d + 5 * baud
  {
    Nearest(960_000_000, 10 * baud, 5 * baud);
  }

  /** A quotient is at least `n` exactly if `n` of the divisor fit. */
  lemma QuotientAtLeast(a: nat, k: nat, n: nat)
    requires k > 0
    ensures a / k >= n <==> a >= n * k
  {
    var q := a / k;
    assert a == q * k + a % k;
    if q >= n { MulLe(n, q, k); } else { MulLe(q + 1, n, k); Distribute(q, 1, k); }
  }

  /** Rates from 184 baud to the fastest have a divisor from one up, and one that fits. */
  lemma SlowRange(baud: nat)
    requires 0 < baud <= 3_000_000
    ensures
      var d := (48_000_000 + baud) / (2 * baud);
      d >= 8 && (d <= 8 * 0x3fff + 7 <==> baud >= 184) && (d <= 8 * 0x3fff + 6 <==> baud >= 184)
  {
    QuotientAtLeast(48_000_000 + baud, 2 * baud, 8);
    QuotientAtLeast(48_000_000 + baud, 2 * baud, 8 * 0x3fff + 8);
    QuotientAtLeast(48_000_000 + baud, 2 * baud, 8 * 0x3fff + 7);
  }

  lemma FastRange(baud: nat)
    requires 1200 <= baud <= 12_000_000
    ensures 8 <= (960_000_000 + 5 * baud) / (10 * baud) <= 8 * 0x3fff + 7
  {
    QuotientAtLeast(960_000_000 + 5 * baud, 10 * baud, 8);
    QuotientAtLeast(960_000_000 + 5 * baud, 10 * baud, 8 * 0x3fff + 8);
  }

  /** The 232AM's divisor is at most two eighths below the nearest and one above. */
  lemma AmDecodes(baud: nat)
    requires 184 <= baud <= 3_000_000
    ensures
      var nearest := (48_000_000 + baud) / (2 * baud);
      var code := AmDivisor(baud);
      && code.Some? && code.value < 0x1_0000
      && nearest - 2 <= DecodeAm(code.value) <= nearest + 1
      && (nearest % 8 in {0, 1, 2, 4} ==> DecodeAm(code.value) == nearest)
  {
    SlowRange(baud);
    AmCode((48_000_000 + baud) / (2 * baud));
  }

  /** The fractions the 232AM has not are rounded: 3/8, 5/8 and 6/8 down, 7/8 up. */
  function AmEighths(nearest: nat): nat {
    match nearest % 8
    case 3 => nearest - 1
    case 5 => nearest - 1
    case 6 => nearest - 2
    case 7 => nearest + 1
    case _ => nearest
  }

  lemma AmCode(nearest: nat)
    requires 8 <= nearest <= 8 * 0x3fff + 6
    ensures AmEncode(nearest).Some? && AmEncode(nearest).value < 0x1_0000
    ensures DecodeAm(AmEncode(nearest).value) == AmEighths(nearest)
  {
    var q, r := nearest / 8, nearest % 8;
    assert nearest == 8 * q + r;
  }

  // ----- the request -----

  /** A rate is accepted exactly from 184 baud to the chip's fastest. */
  lemma AcceptedRates(c: Chip, channel: nat, baud: nat)
    requires channel <= 0x100
    ensures BaudRequest(c, channel, baud).Ok? <==> 184 <= baud <= if Hi(c) then 12_000_000 else 3_000_000
  {
    if 0 < baud <= MaxBaudRate(c) {
      if FastClock(c, baud) && !c.Am? {
        FastRange(baud);
      } else {
        SlowRange(baud);
        if c.Am? && baud >= 184 { AmDecodes(baud); }
      }
    }
  }

  /** The chip's reading of wValue and wIndex: the divisor's code, and the channel if it has one. */
  function DecodeRequest(value: nat, index: nat, hasChannel: bool): (nat, nat) {
    if hasChannel then (value + index / 0x100 * 0x1_0000, index % 0x100) else (value + index * 0x1_0000, 0)
  }

  /** The divisor and a channel of up to 255 are read back, and both numbers fit 16 bits. */
  lemma RequestDecodes(c: Chip, channel: nat, baud: nat)
    requires channel <= 0xff && 184 <= baud <= MaxBaudRate(c)
    ensures
      var r := BaudRequest(c, channel, baud);
      && r.Ok? && r.value.0 < 0x1_0000 && r.value.1 < 0x1_0000
      && Divisor(c, baud).Some?
      && DecodeRequest(r.value.0, r.value.1, channel != 0) == (Divisor(c, baud).value, channel)
  {
    AcceptedRates(c, channel, baud);
    DivisorFits(c, baud);
    CodeSplits(Divisor(c, baud).value, channel);
  }

  lemma CodeSplits(d: nat, channel: nat)
    requires d < 0x4_0000 && channel <= 0xff
    ensures
      var value, index := d % 0x1_0000, if channel != 0 then WithChannel(d / 0x1_0000, channel) else d / 0x1_0000;
      value < 0x1_0000 && index < 0x1_0000 && DecodeRequest(value, index, channel != 0) == (d, channel)
  {
    var top := d / 0x1_0000;
    DivModUnique(top * 0x100 + channel, 0x100, top, channel);
  }

  lemma DivisorFits(c: Chip, baud: nat)
    requires 184 <= baud <= MaxBaudRate(c) && Divisor(c, baud).Some?
    ensures Divisor(c, baud).value < 0x4_0000
  {
    if c.Am? {
      AmDecodes(baud);
    } else if FastClock(c, baud) {
      FastRange(baud);
      BmRoundTrip((960_000_000 + 5 * baud) / (10 * baud), true);
    } else {
      SlowRange(baud);
      BmRoundTrip((48_000_000 + baud) / (2 * baud), false);
    }
  }

  /** The channel of interface 255, of a chip that has channels, is the one that does not fit. */
  lemma ChannelExactly(c: Chip, interface: nat, baud: nat)
    requires interface <= 255 && 184 <= baud <= MaxBaudRate(c)
    ensures
      var channel := Channel(c, interface);
      var r := BaudRequest(c, channel, baud);
      && r.Ok?
      && (DecodeRequest(r.value.0, r.value.1, !Portless(c)).1 == (if Portless(c) then 0 else 1 + interface) <==> Portless(c) || interface < 255)
  {
    AcceptedRates(c, Channel(c, interface), baud);
    if Channel(c, interface) <= 0xff { RequestDecodes(c, Channel(c, interface), baud); }
  }

  /** The rate that comes out is the nearest the clock can do: with the 48 MHz clock and any chip but
      the 232AM, and with the 120 MHz clock of the H series. */
  lemma RateIsNearest(c: Chip, channel: nat, baud: nat)
    requires channel <= 0xff && 184 <= baud <= MaxBaudRate(c) && !c.Am?
    ensures
      var r := BaudRequest(c, channel, baud);
      && r.Ok? && DecodeRequest(r.value.0, r.value.1, channel != 0).0 < 0x4_0000
      && var (d, fast) := DecodeBm(DecodeRequest(r.value.0, r.value.1, channel != 0).0);
         && fast == (Hi(c) && baud >= 1200)
         && (if fast then 10 * baud * d <= 960_000_000 + 5 * baud && 960_000_000 <= 10 * baud * d + 5 * baud
             else 2 * baud * d <= 48_000_000 + baud && 48_000_000 <= 2 * baud * d + baud)
  {
    RequestDecodes(c, channel, baud);
    DivisorFits(c, baud);
    if FastClock(c, baud) {
      FastRange(baud);
      FastNearest(baud);
      BmRoundTrip((960_000_000 + 5 * baud) / (10 * baud), true);
    } else {
      SlowRange(baud);
      SlowNearest(baud);
      BmRoundTrip((48_000_000 + baud) / (2 * baud), false);
    }
  }

  /** No sum or product on the way leaves 32 bits. */
  lemma NoOverflow(baud: nat)
    requires 0 < baud <= 12_000_000
    ensures 48_000_000 + baud <= 0xffff_ffff && 2 * baud <= 0xffff_ffff
    ensures 8 <= (960_000_000 + 5 * baud) / (10 * baud) <= 0xffff_ffff
  {
    QuotientAtLeast(960_000_000 + 5 * baud, 10 * baud, 8);
    QuotientAtLeast(960_000_000 + 5 * baud, 10 * baud, 0x1_0000_0000);
  }
}
