/** The text Python writes for a scalar, and the value PostgreSQL's input
    functions read back from it. */
module PgText {
  import opened Values

  // -- decimal digits -----------------------------------------------------------

  function Digit(d: int): (c: char)
    requires 0 <= d <= 9
    ensures '0' <= c <= '9'
  {
    (d + 0x30) as char
  }

  function NatText(n: nat): string {
    if n < 10 then [Digit(n)] else NatText(n / 10) + [Digit(n % 10)]
  }

  function IntText(n: int): string {
    if n < 0 then "-" + NatText(-n) else NatText(n)
  }

  function ParseDigits(s: string): Result<nat> {
    if s == "" then Ok(0)
    else
      var c := s[|s| - 1];
      if '0' <= c <= '9' then
        var front :- ParseDigits(s[..|s| - 1]);
        Ok(10 * front + (c as int - 0x30))
      else Err
  }

  function ParseInt(s: string): Result<int> {
    if s == "" || s == "-" then Err
    else if s[0] == '-' then
      match ParseDigits(s[1..])
      case Err => Err
      case Ok(m) => Ok(0 - m)
    else
      match ParseDigits(s)
      case Err => Err
      case Ok(m) => Ok(m)
  }

  lemma ParseDigitsStep(front: string, d: int)
    requires 0 <= d <= 9
    ensures ParseDigits(front + [Digit(d)])
         == if ParseDigits(front).Err? then Err else Ok(10 * ParseDigits(front).value + d)
  {
    assert (front + [Digit(d)])[..|front|] == front;
  }

  lemma {:induction false} NatTextRead(n: nat)
    ensures ParseDigits(NatText(n)) == Ok(n)
    ensures NatText(n) != "" && '0' <= NatText(n)[0] <= '9'
    ensures NatText(n)[0] == '0' <==> NatText(n) == "0"
  {
    if n < 10 {
      ParseDigitsStep("", n);
      assert "" + [Digit(n)] == [Digit(n)];
    } else {
      NatTextRead(n / 10);
      ParseDigitsStep(NatText(n / 10), n % 10);
    }
  }

  lemma {:induction false} NatTextLeads(n: nat)
    requires n > 0
    ensures NatText(n) != "" && '1' <= NatText(n)[0] <= '9'
  {
    if n >= 10 {
      NatTextLeads(n / 10);
    }
  }

  lemma SignedRead(s: string, m: nat)
    requires s != "" && s[0] != '-' && ParseDigits(s) == Ok(m)
    ensures ParseInt(s) == Ok(m) && ParseInt("-" + s) == Ok(0 - m)
  {
    assert ("-" + s)[1..] == s;
  }

  /** str(n): what reads back as n, with a sign exactly when it is negative and
      no leading zeros. */
  lemma IntTextRead(n: int)
    ensures ParseInt(IntText(n)) == Ok(n)
    ensures n < 0 ==> |IntText(n)| >= 2 && IntText(n)[0] == '-' && '1' <= IntText(n)[1] <= '9'
    ensures n >= 0 ==> IntText(n) == "0" || '1' <= IntText(n)[0] <= '9'
  {
    var m: nat := if n < 0 then -n else n;
    NatTextRead(m);
    SignedRead(NatText(m), m);
    if m > 0 {
      NatTextLeads(m);
    }
  }

  function Pow10(k: nat): nat {
    if k == 0 then 1 else 10 * Pow10(k - 1)
  }

  /** Zero-padded to a fixed width. */
  function Padded(n: nat, width: nat): (s: string)
    ensures |s| == width
  {
    if width == 0 then "" else Padded(n / 10, width - 1) + [Digit(n % 10)]
  }

  lemma {:induction false} PaddedRead(n: nat, width: nat)
    requires n < Pow10(width)
    ensures ParseDigits(Padded(n, width)) == Ok(n)
  {
    if width > 0 {
      PaddedRead(n / 10, width - 1);
      ParseDigitsStep(Padded(n / 10, width - 1), n % 10);
    }
  }

  lemma Widths()
    ensures Pow10(2) == 100 && Pow10(4) == 10_000 && Pow10(6) == 1_000_000
  {
    assert Pow10(2) == 10 * Pow10(1) && Pow10(4) == 10 * Pow10(3) && Pow10(6) == 10 * Pow10(5);
  }

  // -- dates and times ------------------------------------------------------------

  function DateText(d: Date): (s: string)
    ensures |s| == 10
  {
    Padded(d.year, 4) + "-" + Padded(d.month, 2) + "-" + Padded(d.day, 2)
  }

  function ParseDate(s: string): Result<Date> {
    if |s| != 10 || s[4] != '-' || s[7] != '-' then Err
    else
      var y :- ParseDigits(s[..4]);
      var m :- ParseDigits(s[5..7]);
      var d :- ParseDigits(s[8..]);
      if ValidDate(y, m, d) then Ok(CalendarDate(y, m, d)) else Err
  }

  lemma DateTextRead(d: Date)
    ensures ParseDate(DateText(d)) == Ok(d)
  {
    Widths();
    PaddedRead(d.year, 4);
    PaddedRead(d.month, 2);
    PaddedRead(d.day, 2);
    var s := DateText(d);
    assert s[..4] == Padded(d.year, 4);
    assert s[5..7] == Padded(d.month, 2);
    assert s[8..] == Padded(d.day, 2);
  }

  datatype Clock = Clock(hour: nat, minute: nat, second: nat, micro: nat)

  predicate ClockRange(c: Clock) {
    c.hour < 100 && c.minute < 100 && c.second < 100 && c.micro < 1_000_000
  }

  function HourMinute(c: Clock): (s: string)
    ensures |s| == 5
  {
    Padded(c.hour, 2) + ":" + Padded(c.minute, 2)
  }

  function SecondText(c: Clock): (s: string)
    ensures |s| == 3
  {
    ":" + Padded(c.second, 2)
  }

  function MicroText(c: Clock): (s: string)
    ensures |s| == 7
  {
    "." + Padded(c.micro, 6)
  }

  /** HH:MM:SS[.ffffff]; an offset also drops zero seconds. */
  function ClockText(c: Clock, short: bool): (s: string)
    ensures |s| in {5, 8, 15}
    ensures |s| == if c.micro != 0 then 15 else if short && c.second == 0 then 5 else 8
  {
    if c.micro != 0 then HourMinute(c) + SecondText(c) + MicroText(c)
    else if short && c.second == 0 then HourMinute(c)
    else HourMinute(c) + SecondText(c)
  }

  function ParseClock(s: string): Result<Clock> {
    if |s| !in {5, 8, 15} || s[2] != ':' then Err
    else
      var h :- ParseDigits(s[..2]);
      var m :- ParseDigits(s[3..5]);
      if |s| == 5 then Ok(Clock(h, m, 0, 0))
      else if s[5] != ':' then Err
      else
        var sec :- ParseDigits(s[6..8]);
        if |s| == 8 then Ok(Clock(h, m, sec, 0))
        else if s[8] != '.' then Err
        else
          var us :- ParseDigits(s[9..]);
          Ok(Clock(h, m, sec, us))
  }

  lemma ClockSlices(c: Clock, short: bool)
    ensures var s := ClockText(c, short);
      && s[..2] == Padded(c.hour, 2) && s[2] == ':' && s[3..5] == Padded(c.minute, 2)
      && (|s| >= 8 ==> s[5] == ':' && s[6..8] == Padded(c.second, 2))
      && (|s| == 15 ==> s[8] == '.' && s[9..] == Padded(c.micro, 6))
  {
  }

  lemma ClockTextRead(c: Clock, short: bool)
    requires ClockRange(c)
    ensures ParseClock(ClockText(c, short)) == Ok(c)
  {
    Widths();
    PaddedRead(c.hour, 2);
    PaddedRead(c.minute, 2);
    PaddedRead(c.second, 2);
    PaddedRead(c.micro, 6);
    ClockSlices(c, short);
  }

  const MINUTE_MICROS := 60_000_000

  /** The hours, minutes, seconds and microseconds of an offset's magnitude. */
  function OffsetClock(micros: nat): (c: Clock)
    requires micros < DAY_SECONDS * SECOND_MICROS
    ensures ClockRange(c)
    ensures MicrosOf(c) == micros
  {
    var minutes := micros / MINUTE_MICROS;
    Clock(minutes / 60, minutes % 60, micros % MINUTE_MICROS / SECOND_MICROS, micros % SECOND_MICROS)
  }

  function MicrosOf(c: Clock): int {
    (c.hour * 60 + c.minute) * MINUTE_MICROS + c.second * SECOND_MICROS + c.micro
  }

  function OffsetText(z: Zone): string {
    if !z.Offset? then ""
    else if z.micros < 0 then "-" + ClockText(OffsetClock(-z.micros), true)
    else "+" + ClockText(OffsetClock(z.micros), true)
  }

  /** The offset ahead of UTC in microseconds, if the text names one. */
  function ParseOffset(s: string): Result<Option<int>> {
    if s == "" then Ok(None)
    else if s[0] != '+' && s[0] != '-' then Err
    else
      var c :- ParseClock(s[1..]);
      Ok(Some(if s[0] == '-' then -MicrosOf(c) else MicrosOf(c)))
  }

  function OffsetOf(z: Zone): Option<int> {
    if z.Offset? then Some(z.micros) else None
  }

  lemma SignedClockRead(sign: char, c: Clock)
    requires sign in {'+', '-'} && ClockRange(c)
    ensures ParseOffset([sign] + ClockText(c, true))
         == Ok(Some(if sign == '-' then -MicrosOf(c) else MicrosOf(c)))
  {
    ClockTextRead(c, true);
    assert ([sign] + ClockText(c, true))[1..] == ClockText(c, true);
  }

  lemma MagnitudeRead(sign: char, micros: nat)
    requires sign in {'+', '-'} && micros < DAY_SECONDS * SECOND_MICROS
    ensures ParseOffset([sign] + ClockText(OffsetClock(micros), true))
         == Ok(Some(if sign == '-' then 0 - micros else micros))
  {
    SignedClockRead(sign, OffsetClock(micros));
  }

  lemma OffsetTextRead(z: Zone)
    ensures ParseOffset(OffsetText(z)) == Ok(OffsetOf(z))
    ensures z.Offset? ==> OffsetText(z) != "" && OffsetText(z)[0] == if z.micros < 0 then '-' else '+'
  {
    if z.Offset? {
      if z.micros < 0 {
        MagnitudeRead('-', -z.micros);
      } else {
        MagnitudeRead('+', z.micros);
      }
    }
  }

  function TimeClock(t: Time): Clock {
    Clock(t.hour, t.minute, t.second, t.micro)
  }

  /** datetime.isoformat(sep=' ') */
  function StampText(d: Date, t: Time, z: Zone): string {
    DateText(d) + (" " + (ClockText(TimeClock(t), false) + OffsetText(z)))
  }

  datatype Instant = Instant(day: Date, time: Clock, offset: Option<int>)

  /** A bare date is midnight. */
  function ParseStamp(s: string): Result<Instant> {
    if |s| < 10 then Err
    else
      var d :- ParseDate(s[..10]);
      if |s| == 10 then Ok(Instant(d, Clock(0, 0, 0, 0), None))
      else if s[10] != ' ' then Err
      else
        var (c, off) :- ParseTimeOfDay(s[11..]);
        Ok(Instant(d, c, off))
  }

  function ParseTimeOfDay(s: string): Result<(Clock, Option<int>)> {
    var k := if |s| > 8 && s[8] == '.' then 15 else 8;
    if |s| < k then Err
    else
      var c :- ParseClock(s[..k]);
      var off :- ParseOffset(s[k..]);
      Ok((c, off))
  }

  lemma TimeOfDayRead(t: Time, z: Zone)
    ensures ParseTimeOfDay(ClockText(TimeClock(t), false) + OffsetText(z)) == Ok((TimeClock(t), OffsetOf(z)))
  {
    var c, off := ClockText(TimeClock(t), false), OffsetText(z);
    ClockTextRead(TimeClock(t), false);
    OffsetTextRead(z);
    assert (c + off)[..|c|] == c && (c + off)[|c|..] == off;
    if |c| == 15 {
      assert c[8] == '.';
    }
  }

  lemma StampTextRead(d: Date, t: Time, z: Zone)
    ensures ParseStamp(StampText(d, t, z)) == Ok(Instant(d, TimeClock(t), OffsetOf(z)))
  {
    DateTextRead(d);
    TimeOfDayRead(t, z);
    var tail := ClockText(TimeClock(t), false) + OffsetText(z);
    var s := StampText(d, t, z);
    assert s[..10] == DateText(d);
    assert s[11..] == tail;
  }

  lemma DateIsMidnight(d: Date)
    ensures ParseStamp(DateText(d)) == Ok(Instant(d, Clock(0, 0, 0, 0), None))
  {
    DateTextRead(d);
    assert DateText(d)[..10] == DateText(d);
  }

  // -- bytea -----------------------------------------------------------------------

  function HexChar(d: int): (c: char)
    requires 0 <= d < 16
    ensures ' ' < c <= 'f' && c != '\\'
  {
    if d < 10 then (0x30 + d) as char else (0x61 + d - 10) as char
  }

  /** bytes.hex() */
  function HexText(b: seq<byte>): string {
    if b == [] then "" else [HexChar(b[0] / 16), HexChar(b[0] % 16)] + HexText(b[1..])
  }

  function HexValue(c: char): Result<int> {
    if '0' <= c <= '9' then Ok(c as int - 0x30)
    else if 'a' <= c <= 'f' then Ok(c as int - 0x61 + 10)
    else Err
  }

  function ParseHex(s: string): Result<seq<byte>> {
    if s == "" then Ok([])
    else if |s| == 1 then Err
    else
      var hi :- HexValue(s[0]);
      var lo :- HexValue(s[1]);
      var rest :- ParseHex(s[2..]);
      Ok([16 * hi + lo] + rest)
  }

  function BytesText(b: seq<byte>): string { "\\x" + HexText(b) }

  function ParseBytea(s: string): Result<seq<byte>> {
    if |s| >= 2 && s[..2] == "\\x" then ParseHex(s[2..]) else Err
  }

  lemma {:induction false} HexTextRead(b: seq<byte>)
    ensures ParseHex(HexText(b)) == Ok(b)
  {
    if b != [] {
      HexTextRead(b[1..]);
      assert HexText(b)[2..] == HexText(b[1..]);
      assert [b[0]] + b[1..] == b;
    }
  }

  lemma BytesTextRead(b: seq<byte>)
    ensures ParseBytea(BytesText(b)) == Ok(b)
  {
    HexTextRead(b);
    assert BytesText(b)[2..] == HexText(b);
  }

  // -- floats ------------------------------------------------------------------------

  function FloatText(rd: Renderings, f: Float): string {
    if IsNaN(f) then "NaN"
    else if IsInfinite(f) then (if SignBit(f) then "-Infinity" else "Infinity")
    else rd.floatRepr(f)
  }

  // -- the alphabet of every rendering ----------------------------------------------------

  lemma PlainConcat(s: string, t: string)
    requires PlainText(s) && PlainText(t)
    ensures PlainText(s + t)
  {
  }

  lemma {:induction false} NatTextPlain(n: nat)
    ensures PlainText(NatText(n))
  {
    if n >= 10 {
      NatTextPlain(n / 10);
    }
  }

  lemma IntTextPlain(n: int)
    ensures PlainText(IntText(n))
  {
    NatTextPlain(if n < 0 then -n else n);
  }

  lemma {:induction false} PaddedPlain(n: nat, width: nat)
    ensures PlainText(Padded(n, width))
  {
    if width > 0 {
      PaddedPlain(n / 10, width - 1);
    }
  }

  lemma DateTextPlain(d: Date)
    ensures PlainText(DateText(d))
  {
    PaddedPlain(d.year, 4);
    PaddedPlain(d.month, 2);
    PaddedPlain(d.day, 2);
  }

  lemma ClockTextPlain(c: Clock, short: bool)
    ensures PlainText(ClockText(c, short))
  {
    PaddedPlain(c.hour, 2);
    PaddedPlain(c.minute, 2);
    PaddedPlain(c.second, 2);
    PaddedPlain(c.micro, 6);
    PlainConcat(HourMinute(c), SecondText(c));
  }

  lemma OffsetTextPlain(z: Zone)
    ensures PlainText(OffsetText(z))
  {
    if z.Offset? {
      ClockTextPlain(OffsetClock(if z.micros < 0 then -z.micros else z.micros), true);
    }
  }

  lemma StampTextPlain(d: Date, t: Time, z: Zone)
    ensures PlainText(StampText(d, t, z))
  {
    DateTextPlain(d);
    ClockTextPlain(TimeClock(t), false);
    OffsetTextPlain(z);
    PlainConcat(ClockText(TimeClock(t), false), OffsetText(z));
    PlainConcat(" ", ClockText(TimeClock(t), false) + OffsetText(z));
    PlainConcat(DateText(d), " " + (ClockText(TimeClock(t), false) + OffsetText(z)));
  }

  lemma {:induction false} HexTextPlain(b: seq<byte>)
    ensures PlainText(HexText(b))
  {
    if b != [] {
      HexTextPlain(b[1..]);
    }
  }
}
