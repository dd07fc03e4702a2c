/** The Python scalars that reach publication, and the normalization kernel
    every one of them passes through first.

    A float is its 64-bit IEEE-754 image, a Decimal is the digit tuple Python
    itself exposes, a datetime carries the UTC offset of its zone.  The text
    forms of floats and Decimals are not computed here: a Renderings value
    supplies them. */
module Values {

  type byte = b: int | 0 <= b < 256

  datatype Option<+T> = None | Some(value: T)

  datatype Result<+T> = Ok(value: T) | Err {
    predicate IsFailure() { Err? }
    function PropagateFailure<U>(): Result<U>
      requires Err?
    {
      Err
    }
    function Extract(): T
      requires Ok?
    {
      value
    }
  }

  type Float = bits: int | 0 <= bits < 0x1_0000_0000_0000_0000

  const MANTISSA := 0x10_0000_0000_0000  // 2^52

  predicate IsNaN(f: Float) {
    f / MANTISSA % 2048 == 2047 && f % MANTISSA != 0
  }

  predicate IsInfinite(f: Float) {
    f / MANTISSA % 2048 == 2047 && f % MANTISSA == 0
  }

  predicate SignBit(f: Float) {
    f / MANTISSA >= 2048
  }

  /** The float of a sign, an exponent field and a fraction. */
  function Image(negative: bool, biased: int, fraction: int): Float
    requires 0 <= biased < 2048 && 0 <= fraction < 0x10_0000_0000_0000
  {
    (if negative then 0x8000_0000_0000_0000 else 0) + biased * 0x10_0000_0000_0000 + fraction
  }

  /** IEEE 754, section 3.4: infinities and NaNs have the largest exponent. */
  lemma ImageKinds(negative: bool, biased: int, fraction: int)
    requires 0 <= biased < 2048 && 0 <= fraction < 0x10_0000_0000_0000
    ensures var f := Image(negative, biased, fraction);
      && (SignBit(f) <==> negative)
      && (IsNaN(f) <==> biased == 2047 && fraction != 0) && (IsInfinite(f) <==> biased == 2047 && fraction == 0)
  {
    var f := Image(negative, biased, fraction);
    assert f / MANTISSA == (if negative then 2048 else 0) + biased && f % MANTISSA == fraction;
  }

  /** Decimal.as_tuple(): a canonical coefficient has no leading zero. */
  datatype DecimalTuple =
    | Finite(negative: bool, digits: seq<int>, exponent: int)
    | Infinity(negative: bool)
    | QuietNaN

  predicate CanonicalDigits(digits: seq<int>) {
    && |digits| >= 1
    && (forall i | 0 <= i < |digits| :: 0 <= digits[i] <= 9)
    && (digits[0] == 0 ==> |digits| == 1)
  }

  type Decimal = d: DecimalTuple | d.Finite? ==> CanonicalDigits(d.digits)
    witness QuietNaN

  datatype CalendarDate = CalendarDate(year: int, month: int, day: int)

  predicate LeapYear(y: int) {
    y % 4 == 0 && (y % 100 != 0 || y % 400 == 0)
  }

  function DaysInMonth(y: int, m: int): int {
    if m == 2 then (if LeapYear(y) then 29 else 28)
    else if m in {4, 6, 9, 11} then 30
    else 31
  }

  predicate ValidDate(year: int, month: int, day: int) {
    1 <= year <= 9999 && 1 <= month <= 12 && 1 <= day <= DaysInMonth(year, month)
  }

  type Date = d: CalendarDate | ValidDate(d.year, d.month, d.day)
    witness CalendarDate(1970, 1, 1)

  datatype ClockTime = ClockTime(hour: int, minute: int, second: int, micro: int)

  predicate ValidTime(hour: int, minute: int, second: int, micro: int) {
    0 <= hour < 24 && 0 <= minute < 60 && 0 <= second < 60 && 0 <= micro < 1_000_000
  }

  type Time = t: ClockTime | ValidTime(t.hour, t.minute, t.second, t.micro)
    witness ClockTime(0, 0, 0, 0)

  /** A datetime's tzinfo: absent, present but without an offset, or an offset
      strictly inside one day (the range Python enforces on utcoffset()). */
  datatype ZoneInfo = NoZone | ZoneWithoutOffset | Offset(micros: int)

  const DAY_SECONDS := 86_400
  const SECOND_MICROS := 1_000_000

  type Zone = z: ZoneInfo |
      z.Offset? ==> -DAY_SECONDS * SECOND_MICROS < z.micros < DAY_SECONDS * SECOND_MICROS
    witness NoZone

  /** A normalized cell. `Other` is any object outside the scalar families
      (a container, a custom class), known only by its str(). */
  datatype Value =
    | Null
    | Bool(b: bool)
    | Int(n: int)
    | Real(f: Float)
    | Dec(d: Decimal)
    | Str(s: string)
    | Bytes(payload: seq<byte>)
    | Day(date: Date)
    | Stamp(day: Date, time: Time, zone: Zone)
    | Other(text: string)

  /** A cell as a source yields it: a native object, or a pandas/NumPy scalar
      that unwraps to one. */
  datatype RawValue = Native(v: Value) | Wrapped(v: Value)

  predicate IsMissing(v: Value) {
    v.Null? || (v.Real? && IsNaN(v.f)) || (v.Dec? && v.d.QuietNaN?)
  }

  /** A missing value - NULL, a float or Decimal NaN - becomes NULL, and every
      other is kept as it is. */
  function Normalize(raw: RawValue): (v: Value)
    ensures IsMissing(v) ==> v.Null?
    ensures v == (match raw.v
      case Real(f) => if IsNaN(f) then Null else raw.v
      case Dec(d) => if d == QuietNaN then Null else raw.v
      case _ => raw.v)
  {
    if IsMissing(raw.v) then Null else raw.v
  }

  /** row.get(name) */
  function Get(row: map<string, Value>, name: string): Value {
    if name in row then row[name] else Null
  }

  /** tzinfo is not None and utcoffset() is not None. */
  predicate IsAware(v: Value)
    requires v.Stamp?
  {
    v.zone.Offset?
  }

  /** The supported column types; a None parameter is an unbounded one. */
  datatype SqlType =
    | BooleanT
    | SmallIntT
    | IntegerT
    | BigIntT
    | NumericT(precision: Option<int>, scale: Option<int>)
    | FloatT(bits: Option<int>)
    | TextT(maxLength: Option<int>)
    | BinaryT
    | DateT
    | TimestampT(zoned: bool)

  /** The text forms Python gives floats and Decimals, and Decimal(text). */
  datatype Renderings = Renderings(
    floatRepr: Float -> string,
    decimalText: Decimal -> string,
    parseDecimal: string -> Option<Decimal>)
  {
    /** Decimal(str(d)) == d */
    ghost predicate Faithful() {
      forall d :: parseDecimal(decimalText(d)) == Some(d)
    }

    /** Both forms are printable ASCII without a backslash. */
    ghost predicate Plain() {
      (forall f :: PlainText(floatRepr(f))) && (forall d :: PlainText(decimalText(d)))
    }
  }

  predicate PlainText(s: string) {
    forall i | 0 <= i < |s| :: ' ' <= s[i] <= '~' && s[i] != '\\'
  }

  datatype Column = Column(name: string, sqlType: SqlType, nullable: bool)

  /** Elements occurring more than once, in first-occurrence order of the
      repetition; here only whether there are any matters. */
  predicate HasDuplicates<T(==)>(xs: seq<T>) {
    exists i, j | 0 <= i < j < |xs| :: xs[i] == xs[j]
  }
}
