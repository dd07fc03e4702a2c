/** What a column of each type stores of a COPY field's text, and for which
    values that is the value the field was written from
    (task_core/db/copytext.py, 72-231; task_core/db/values.py, 369-457). */
module ColumnInput {
  import opened Values
  import opened PgText
  import opened CopyText
  import opened Numeric
  import opened Families
  import Bytes
  import F = CopyFormat
  import Utf8

  // -- numbers -----------------------------------------------------------------------

  /** x * 2^e */
  function Scale(x: real, e: int): real
    decreases if e < 0 then -e else e
  {
    if e == 0 then x
    else if e > 0 then 2.0 * Scale(x, e - 1)
    else Scale(x, e + 1) / 2.0
  }

  datatype Number = Num(x: real) | Infinite(negative: bool) | NotANumber

  function FloatNumber(f: Float): Number {
    if IsNaN(f) then NotANumber
    else if IsInfinite(f) then Infinite(SignBit(f))
    else
      var biased, fraction := f / MANTISSA % 2048, f % MANTISSA;
      var magnitude := if biased == 0 then Scale(fraction as real, -1074)
                       else Scale((MANTISSA + fraction) as real, biased - 1075);
      Num(if SignBit(f) then -magnitude else magnitude)
  }

  function DecimalNumber(d: Decimal): Number {
    match d
    case Finite(_, _, _) => Num(NumberOf(Dec(d)))
    case Infinity(negative) => Infinite(negative)
    case QuietNaN => NotANumber
  }

  /** The digits a NUMERIC without a precision has room for: 131072 before the
      decimal point and 16383 after it (PostgreSQL documentation, table 8.2). */
  predicate WithinLimits(d: Decimal) {
    d.Finite? ==> d.exponent >= -16383 && (d.digits == [0] || |d.digits| + d.exponent <= 131072)
  }

  /** A binary number with a significand below that limit, its last bit worth a
      power of two between 2^low and 2^high. */
  ghost predicate IsBinary(x: real, limit: int, low: int, high: int) {
    exists m, k :: BinaryForm(x, m, k) && low <= k <= high && AbsInt(m) < limit
  }

  ghost predicate BinaryForm(x: real, m: int, k: int) { x == Scale(m as real, k) }

  function AbsInt(m: int): nat { if m < 0 then -m else m }

  ghost predicate IsDouble(x: real) { IsBinary(x, 0x20_0000_0000_0000, -1074, 971) }

  ghost predicate IsSingle(x: real) { IsBinary(x, 0x100_0000, -149, 104) }

  /** FLOAT(1) to FLOAT(24) are single precision. */
  predicate SinglePrecision(bits: Option<int>) { bits.Some? && bits.value <= 24 }

  /** PostgreSQL where it is not spelled out here: how it rounds a decimal to
      double and to single precision (None is out of range), the offset its
      session zone has at a local time, and the offsets its input takes. */
  datatype Database = Database(
    rd: Renderings,
    double: real -> Option<real>,
    single: real -> Option<real>,
    sessionOffset: (Date, Clock) -> int,
    takesOffset: int -> bool)
  {
    ghost predicate Valid() {
      rd.Plain() && rd.Faithful() && ReadsNumbers() && Rounds()
    }

    /** Decimal(text) reads the text of every int, of the three special values,
        and of every float, as a number that rounds back to the float. */
    ghost predicate ReadsNumbers() {
      && (forall n :: IntRead(n)) && (forall f :: ReprRead(f))
      && rd.parseDecimal("NaN") == Some(QuietNaN)
      && rd.parseDecimal("Infinity") == Some(Infinity(false))
      && rd.parseDecimal("-Infinity") == Some(Infinity(true))
    }

    ghost predicate IntRead(n: int) {
      rd.parseDecimal(IntText(n)) == Some(ToTuple(Int(n)))
    }

    /** A float's repr rounds to the float, and to single precision as well if
        that holds it. */
    ghost predicate ReprRead(f: Float) {
      FloatNumber(f).Num? ==>
        var d := rd.parseDecimal(rd.floatRepr(f));
        && d.Some? && d.value.Finite?
        && var x := NumberOf(Dec(d.value));
          && double(x) == Some(FloatNumber(f).x)
          && (IsSingle(FloatNumber(f).x) ==> single(x) == Some(FloatNumber(f).x))
    }

    /** Rounding gives a number of the precision, and keeps one that is. */
    ghost predicate Rounds() {
      forall x :: RoundsAt(x)
    }

    ghost predicate RoundsAt(x: real) {
      && (IsDouble(x) ==> double(x) == Some(x))
      && (double(x).Some? ==> IsDouble(double(x).value))
      && (IsSingle(x) ==> single(x) == Some(x))
      && (single(x).Some? ==> IsSingle(single(x).value))
    }

    function Rounded(x: real, bits: Option<int>): Option<real> {
      if SinglePrecision(bits) then single(x) else double(x)
    }
  }

  // -- storing ------------------------------------------------------------------------

  /** What a column holds.  `Local` is a time without a zone, `Moment` one at an
      offset. */
  datatype Stored =
    | Truth(b: bool)
    | Count(n: int)
    | Quantity(number: Number)
    | Chars(s: string)
    | Octets(payload: seq<byte>)
    | OnDay(date: Date)
    | Local(day: Date, time: Clock)
    | Moment(day: Date, time: Clock, offset: int)

  /** Half away from zero. */
  function RoundHalf(y: real): int {
    if y >= 0.0 then (y + 0.5).Floor else -((-y + 0.5).Floor)
  }

  /** Rounded to the scale, and refused when that leaves too many digits. */
  function NumericStores(d: Decimal, precision: Option<int>, scale: Option<int>): Result<Number> {
    var n := DecimalNumber(d);
    if n.NotANumber? then Ok(n)
    else if precision.None? then (if WithinLimits(d) then Ok(n) else Err)
    else if n.Infinite? then Err
    else
      var s := EffectiveScale(precision, scale).value;
      var x := Shift(RoundHalf(Shift(n.x, s)) as real, 0 - s);
      if Abs(x) < Shift(1.0, precision.value - s) then Ok(Num(x)) else Err
  }

  function FloatStores(db: Database, n: Number, bits: Option<int>): Result<Number> {
    if !n.Num? then Ok(n)
    else
      match db.Rounded(n.x, bits)
      case None => Err
      case Some(x) => Ok(Num(x))
  }

  predicate AllSpaces(s: string) { forall i | 0 <= i < |s| :: s[i] == ' ' }

  /** Over-long text is refused, unless blanks are all that is over. */
  function TextStores(text: string, maxLength: Option<int>): Result<string> {
    if NUL in text then Err
    else if maxLength.None? || |text| <= maxLength.value then Ok(text)
    else if maxLength.value < 0 || !AllSpaces(text[maxLength.value..]) then Err
    else Ok(text[..maxLength.value])
  }

  /** A time without a zone forgets the text's offset; one with a zone takes the
      session's when the text has none. */
  function StampStores(db: Database, text: string, zoned: bool): Result<Stored> {
    var i :- ParseStamp(text);
    if i.offset.Some? && !db.takesOffset(i.offset.value) then Err
    else if !zoned then Ok(Local(i.day, i.time))
    else Ok(Moment(i.day, i.time, if i.offset.Some? then i.offset.value else db.sessionOffset(i.day, i.time)))
  }

  function ReadDecimal(db: Database, text: string): Result<Decimal> {
    match db.rd.parseDecimal(text)
    case None => Err
    case Some(d) => Ok(d)
  }

  /** The input function of a column's type. */
  function ColumnStores(db: Database, t: SqlType, text: string): Result<Stored> {
    match t
    case BooleanT => if text == "t" then Ok(Truth(true)) else if text == "f" then Ok(Truth(false)) else Err
    case NumericT(p, s) =>
      var d :- ReadDecimal(db, text);
      var kept :- NumericStores(d, p, s);
      Ok(Quantity(kept))
    case FloatT(bits) =>
      var d :- ReadDecimal(db, text);
      var kept :- FloatStores(db, DecimalNumber(d), bits);
      Ok(Quantity(kept))
    case TextT(maxLength) =>
      var s :- TextStores(text, maxLength);
      Ok(Chars(s))
    case BinaryT =>
      var payload :- ParseBytea(text);
      Ok(Octets(payload))
    case DateT =>
      var date :- ParseDate(text);
      Ok(OnDay(date))
    case TimestampT(zoned) => StampStores(db, text, zoned)
    case _ =>
      var n :- ParseInt(text);
      if InRange(n, t) then Ok(Count(n)) else Err
  }

  /** A decoded field: None is NULL. */
  function FieldStores(db: Database, t: SqlType, field: Option<seq<byte>>): Result<Option<Stored>> {
    if field.None? then Ok(None)
    else
      match Utf8.Decode(field.value)
      case None => Err
      case Some(text) =>
        var stored :- ColumnStores(db, t, text);
        Ok(Some(stored))
  }

  // -- what a value is -------------------------------------------------------------------

  /** The decimal a value's text writes; a float's is that of its repr. */
  function TupleMeant(db: Database, v: Value): Decimal {
    match v
    case Int(_) => ToTuple(v)
    case Dec(d) => d
    case Real(f) =>
      if IsInfinite(f) then Infinity(SignBit(f))
      else if IsNaN(f) then QuietNaN
      else
        var d := db.rd.parseDecimal(db.rd.floatRepr(f));
        if d.Some? then d.value else QuietNaN
    case _ => QuietNaN
  }

  /** The number a value is: that decimal for NUMERIC; for FLOAT a float is
      itself. */
  function NumberMeant(db: Database, v: Value, exact: bool): Number {
    if v.Int? then Num(v.n as real)
    else if v.Real? && !exact then FloatNumber(v.f)
    else DecimalNumber(TupleMeant(db, v))
  }

  const MIDNIGHT := Clock(0, 0, 0, 0)

  /** The value itself, in the terms of a column of type t: a date among
      timestamps is its midnight, and anything in a TEXT column its text. */
  function Meant(db: Database, v: Value, t: SqlType): Stored {
    match t
    case BooleanT => Truth(v.Bool? && v.b)
    case NumericT(_, _) => Quantity(NumberMeant(db, v, true))
    case FloatT(_) => Quantity(NumberMeant(db, v, false))
    case TextT(_) => Chars(TextOf(db.rd, v))
    case BinaryT => Octets(if v.Bytes? then v.payload else [])
    case DateT => if v.Day? then OnDay(v.date) else Chars(TextOf(db.rd, v))
    case TimestampT(_) =>
      if v.Day? then Local(v.date, MIDNIGHT)
      else if !v.Stamp? then Chars(TextOf(db.rd, v))
      else if IsAware(v) then Moment(v.day, TimeClock(v.time), v.zone.micros)
      else Local(v.day, TimeClock(v.time))
    case _ => Count(if v.Int? then v.n else 0)
  }

  function MeantCell(db: Database, v: Value, t: SqlType): Option<Stored> {
    if v.Null? then None else Some(Meant(db, v, t))
  }

  // -- what is kept ------------------------------------------------------------------------

  ghost predicate NumericKeeps(n: Number, precision: Option<int>, scale: Option<int>) {
    precision.Some? ==>
      match n
      case Num(x) =>
        var s := EffectiveScale(precision, scale).value;
        IsWhole(Shift(x, s)) && Abs(x) < Shift(1.0, precision.value - s)
      case Infinite(_) => false
      case NotANumber => true
  }

  /** Within the limits, where no precision limits it further. */
  ghost predicate DigitsFit(db: Database, v: Value, precision: Option<int>) {
    precision.None? ==> WithinLimits(TupleMeant(db, v))
  }

  ghost predicate FloatKeeps(n: Number, bits: Option<int>) {
    n.Num? ==> if SinglePrecision(bits) then IsSingle(n.x) else IsDouble(n.x)
  }

  /** The values a column of type t holds as they are: within precision and
      scale, exact in binary, within the length, aware exactly when the type is
      and at an offset the server takes. */
  ghost predicate Kept(db: Database, v: Value, t: SqlType) {
    match t
    case NumericT(p, s) => NumericKeeps(NumberMeant(db, v, true), p, s) && DigitsFit(db, v, p)
    case FloatT(bits) => FloatKeeps(NumberMeant(db, v, false), bits)
    case TextT(maxLength) => v.Null? || maxLength.None? || |TextOf(db.rd, v)| <= maxLength.value
    case TimestampT(zoned) =>
      if !v.Stamp? then v.Null? || !zoned
      else IsAware(v) == zoned && (zoned ==> db.takesOffset(v.zone.micros))
    case _ => true
  }

  // -- rounding ------------------------------------------------------------------------------

  lemma ShiftBack(x: real, s: nat)
    ensures Shift(Shift(x, s), 0 - s) == x
  {
    var y := Shift(Shift(x, s), 0 - s);
    ShiftAdd(Shift(x, s), 0 - s, s);
    ShiftOrder(x, y, s);
    ShiftOrder(y, x, s);
  }

  lemma RoundHalfWhole(y: real)
    ensures RoundHalf(y) as real == y <==> IsWhole(y)
  {
    if IsWhole(y) {
      assert (y + 0.5).Floor == y.Floor;
      assert -y == (-(y.Floor)) as real;
      assert (-y + 0.5).Floor == -(y.Floor);
    }
  }

  /** Rounding to a scale keeps exactly the numbers whole at that scale. */
  lemma ScaleKeeps(x: real, s: nat)
    ensures Shift(RoundHalf(Shift(x, s)) as real, 0 - s) == x <==> IsWhole(Shift(x, s))
  {
    var z := RoundHalf(Shift(x, s)) as real;
    RoundHalfWhole(Shift(x, s));
    ShiftBack(x, s);
    if Shift(z, 0 - s) == x {
      ShiftAdd(z, 0 - s, s);
    }
  }

  lemma NumericStoresIff(d: Decimal, precision: Option<int>, scale: Option<int>)
    requires DeclarableNumeric(precision, scale)
    ensures NumericStores(d, precision, scale) == Ok(DecimalNumber(d))
       <==> NumericKeeps(DecimalNumber(d), precision, scale) && (precision.None? ==> WithinLimits(d))
  {
    var n := DecimalNumber(d);
    if precision.Some? && n.Num? {
      ScaleKeeps(n.x, EffectiveScale(precision, scale).value);
    }
  }

  lemma RealStoresIff(db: Database, f: Float, bits: Option<int>)
    requires db.Rounds() && db.ReprRead(f)
    ensures FloatStores(db, NumberMeant(db, Real(f), true), bits) == Ok(FloatNumber(f))
       <==> FloatKeeps(FloatNumber(f), bits)
  {
    if FloatNumber(f).Num? {
      assert db.RoundsAt(NumberOf(Dec(db.rd.parseDecimal(db.rd.floatRepr(f)).value)));
    }
  }

  lemma FloatStoresIff(db: Database, v: Value, bits: Option<int>)
    requires db.Rounds() && db.ReadsNumbers() && (v.Int? || v.Dec? || v.Real?)
    ensures FloatStores(db, NumberMeant(db, v, true), bits) == Ok(NumberMeant(db, v, false))
       <==> FloatKeeps(NumberMeant(db, v, false), bits)
  {
    if v.Real? {
      assert db.ReprRead(v.f);
      RealStoresIff(db, v.f, bits);
    } else if NumberMeant(db, v, true).Num? {
      assert db.RoundsAt(NumberMeant(db, v, true).x);
    }
  }

  /** The two readings of an int agree. */
  lemma IntMeant(db: Database, n: int)
    ensures DecimalNumber(TupleMeant(db, Int(n))) == NumberMeant(db, Int(n), true)
  {
    MagnitudeOfTuple(Int(n), ToTuple(Int(n)));
  }

  /** The text of a number reads as the decimal it writes. */
  lemma NumberRead(db: Database, v: Value)
    requires db.ReadsNumbers() && db.rd.Faithful() && (v.Int? || v.Dec? || v.Real?)
    ensures ReadDecimal(db, TextOf(db.rd, v)) == Ok(TupleMeant(db, v))
    ensures DecimalNumber(TupleMeant(db, v)) == NumberMeant(db, v, true)
  {
    match v {
      case Int(n) =>
        assert db.IntRead(n);
        IntMeant(db, n);
      case Real(f) => assert db.ReprRead(f);
      case Dec(_) =>
    }
  }

  // -- a cell ------------------------------------------------------------------------------------

  lemma StampReads(db: Database, v: Value, zoned: bool)
    requires v.Stamp? || v.Day?
    ensures StampStores(db, TextOf(db.rd, v), zoned) == Ok(Meant(db, v, TimestampT(zoned)))
       <==> Kept(db, v, TimestampT(zoned))
  {
    match v {
      case Day(date) => DateIsMidnight(date);
      case Stamp(day, time, zone) => StampTextRead(day, time, zone);
    }
  }

  lemma NumericReads(db: Database, v: Value, p: Option<int>, s: Option<int>)
    requires db.ReadsNumbers() && db.rd.Faithful() && DeclarableNumeric(p, s) && (v.Int? || v.Dec? || v.Real?)
    ensures ColumnStores(db, NumericT(p, s), TextOf(db.rd, v)) == Ok(Meant(db, v, NumericT(p, s)))
       <==> Kept(db, v, NumericT(p, s))
  {
    NumberRead(db, v);
    NumericStoresIff(TupleMeant(db, v), p, s);
  }

  lemma FloatReads(db: Database, v: Value, bits: Option<int>)
    requires db.Rounds() && db.ReadsNumbers() && db.rd.Faithful() && (v.Int? || v.Dec? || v.Real?)
    ensures ColumnStores(db, FloatT(bits), TextOf(db.rd, v)) == Ok(Meant(db, v, FloatT(bits)))
       <==> Kept(db, v, FloatT(bits))
  {
    NumberRead(db, v);
    FloatStoresIff(db, v, bits);
  }

  lemma NumberCellReads(db: Database, v: Value, c: Column)
    requires db.Rounds() && db.ReadsNumbers() && db.rd.Faithful()
    requires Declared(c.sqlType) && (c.sqlType.NumericT? || c.sqlType.FloatT?) && (v.Int? || v.Dec? || v.Real?)
    ensures ColumnStores(db, c.sqlType, TextOf(db.rd, v)) == Ok(Meant(db, v, c.sqlType)) <==> Kept(db, v, c.sqlType)
  {
    match c.sqlType {
      case NumericT(p, s) => NumericReads(db, v, p, s);
      case FloatT(bits) => FloatReads(db, v, bits);
    }
  }

  lemma SimpleCellReads(db: Database, v: Value, c: Column)
    requires Declared(c.sqlType) && !v.Null? && SerializeInferred(db.rd, v, c).Ok?
    requires !c.sqlType.NumericT? && !c.sqlType.FloatT? && !c.sqlType.TimestampT?
    ensures ColumnStores(db, c.sqlType, CellText(db.rd, v, c.sqlType)) == Ok(Meant(db, v, c.sqlType))
       <==> Kept(db, v, c.sqlType)
  {
    if c.sqlType.BinaryT? {
      BytesTextRead(v.payload);
    } else if c.sqlType.DateT? {
      DateTextRead(v.date);
    } else if !c.sqlType.BooleanT? && !c.sqlType.TextT? {
      IntTextRead(v.n);
    }
  }

  lemma CellReads(db: Database, v: Value, c: Column)
    requires db.Rounds() && db.ReadsNumbers() && db.rd.Faithful()
    requires Declared(c.sqlType) && !v.Null? && SerializeInferred(db.rd, v, c).Ok?
    ensures ColumnStores(db, c.sqlType, CellText(db.rd, v, c.sqlType)) == Ok(Meant(db, v, c.sqlType))
       <==> Kept(db, v, c.sqlType)
  {
    if c.sqlType.NumericT? || c.sqlType.FloatT? {
      NumberCellReads(db, v, c);
    } else if c.sqlType.TimestampT? {
      StampReads(db, v, c.sqlType.zoned);
    } else {
      SimpleCellReads(db, v, c);
    }
  }

  /** A cell either kernel accepts, decoded by the COPY grammar and stored by its
      column, is the value that went in exactly when the type keeps it. */
  lemma CellReadBack(db: Database, v: Value, c: Column)
    requires db.Valid() && Declared(c.sqlType) && SerializeInferred(db.rd, v, c).Ok?
    ensures Kept(db, v, c.sqlType) <==>
      FieldStores(db, c.sqlType, F.DecodeField(SerializeInferred(db.rd, v, c).value)) == Ok(MeantCell(db, v, c.sqlType))
  {
    CellEscaped(db.rd, v, c);
    F.FieldRoundTrip(CellData(db.rd, v, c.sqlType));
    if !v.Null? {
      CellReads(db, v, c);
      Utf8.DecodeEncode(CellText(db.rd, v, c.sqlType));
    }
  }

  // -- which columns keep everything -----------------------------------------------------------

  /** What even the strictest acceptance leaves to the server: a float in a
      single-precision column, a number with more digits than an unconstrained
      NUMERIC has room for, an offset its input refuses. */
  ghost predicate ServerKeeps(db: Database, v: Value, t: SqlType) {
    && (t.FloatT? && SinglePrecision(t.bits) && v.Real? && FloatNumber(v.f).Num? ==> IsSingle(FloatNumber(v.f).x))
    && (t.NumericT? ==> DigitsFit(db, v, t.precision))
    && (t.TimestampT? && t.zoned && v.Stamp? && IsAware(v) ==> db.takesOffset(v.zone.micros))
  }

  /** A declared column keeps every value it accepts, up to those three. */
  lemma DeclaredKept(db: Database, v: Value, c: Column)
    requires db.Valid() && Declarable(v, c)
    ensures Kept(db, v, c.sqlType) <==> ServerKeeps(db, v, c.sqlType)
  {
    if c.sqlType.FloatT? && v.Real? && FloatNumber(v.f).Num? {
      assert db.ReprRead(v.f);
      assert db.RoundsAt(NumberOf(Dec(db.rd.parseDecimal(db.rd.floatRepr(v.f)).value)));
    }
  }

  /** A column typed by the full scan of its values keeps each of them, up to
      the last two. */
  lemma FullScanKept(db: Database, vs: seq<Value>, v: Value, t: SqlType)
    requires FullScan(vs) == Ok(t) && v in vs
    ensures Kept(db, v, t) <==> ServerKeeps(db, v, t)
  {
    FullScanMeaning(vs);
    if !v.Null? {
      ScannedValueSuits(vs, v, t);
      if t == TimestampT(true) {
        assert FamilyOf(v) in {AwareFamily};
      } else if t == TimestampT(false) {
        assert FamilyOf(v) in {DateFamily, NaiveFamily};
      }
      ScannedType(vs, t);
    }
  }

  lemma ScannedType(vs: seq<Value>, t: SqlType)
    requires FullScan(vs) == Ok(t)
    ensures !t.FloatT? && (t.NumericT? ==> t == PLAIN_NUMERIC) && (t.TextT? ==> t == PLAIN_TEXT)
  {
    ResolvedTypes(EarlyStop(vs, {}));
  }

  // -- overrides that lose values -----------------------------------------------------------------

  /** The widening kernel writes an aware timestamp into a column without a
      zone, and the server drops the offset. */
  lemma OffsetDropped(db: Database, day: Date, time: Time, zone: Zone)
    requires zone.Offset? && db.takesOffset(zone.micros)
    ensures SerializeInferred(db.rd, Stamp(day, time, zone), Column("", TimestampT(false), true)).Ok?
    ensures StampStores(db, StampText(day, time, zone), false) == Ok(Local(day, TimeClock(time)))
    ensures Meant(db, Stamp(day, time, zone), TimestampT(false)) == Moment(day, TimeClock(time), zone.micros)
    ensures !Kept(db, Stamp(day, time, zone), TimestampT(false))
  {
    StampTextRead(day, time, zone);
  }

  /** Text longer than its VARCHAR is written all the same; the server refuses
      it, or cuts it when only blanks are over. */
  lemma LengthLost(db: Database, s: string, n: nat)
    requires |s| > n && NUL !in s
    ensures SerializeInferred(db.rd, Str(s), Column("", TextT(Some(n)), true)).Ok?
    ensures ColumnStores(db, TextT(Some(n)), s) == if AllSpaces(s[n..]) then Ok(Chars(s[..n])) else Err
    ensures Meant(db, Str(s), TextT(Some(n))) == Chars(s) && !Kept(db, Str(s), TextT(Some(n)))
  {
  }

  const TWELVE := Dec(Finite(false, [1, 2, 3, 4, 5], -3))

  lemma TwelveIs()
    ensures NumberOf(TWELVE) == 12.345 && Shift(12.345, 2) == 1234.5 && !IsWhole(1234.5)
    ensures Shift(1235.0, -2) == 12.35 && RoundHalf(1234.5) == 1235
    ensures Shift(1.0, 3) == 1000.0 && Shift(1.0, 1) == 10.0
  {
    var digits := TWELVE.d.digits;
    assert digits[..4] == [1, 2, 3, 4] && digits[..4][..3] == [1, 2, 3];
    assert [1, 2, 3][..2] == [1, 2] && [1, 2][..1] == [1] && [1][..0] == [];
    assert Coefficient([1]) == 1 && Coefficient([1, 2]) == 12 && Coefficient([1, 2, 3]) == 123;
    assert Coefficient([1, 2, 3, 4]) == 1234;
    assert Coefficient(digits) == 12345;
    assert Shift(12345.0, -1) == 1234.5 && Shift(12345.0, -2) == 123.45 && Shift(12345.0, -3) == 12.345;
  }

  lemma TwelveStores()
    ensures NumericStores(TWELVE.d, Some(5), Some(2)) == Ok(Num(12.35))
    ensures NumericStores(TWELVE.d, Some(3), Some(2)) == Err
  {
    TwelveIs();
  }

  /** 12.345 is written under NUMERIC(5, 2) and stored as 12.35, and written
      under NUMERIC(3, 2) and refused. */
  lemma DigitsLost(db: Database)
    requires db.rd.Faithful()
    ensures forall p :: SerializeInferred(db.rd, TWELVE, Column("", NumericT(Some(p), Some(2)), true)).Ok?
    ensures ColumnStores(db, NumericT(Some(5), Some(2)), TextOf(db.rd, TWELVE)) == Ok(Quantity(Num(12.35)))
    ensures ColumnStores(db, NumericT(Some(3), Some(2)), TextOf(db.rd, TWELVE)) == Err
    ensures Meant(db, TWELVE, NumericT(Some(5), Some(2))) == Quantity(Num(12.345))
    ensures !Kept(db, TWELVE, NumericT(Some(5), Some(2))) && !Kept(db, TWELVE, NumericT(Some(3), Some(2)))
  {
    TwelveIs();
    TwelveStores();
  }

  /** A full scan types a column holding 10^-16384 NUMERIC, the number is
      written, and the server refuses it. */
  lemma DigitsRefused(db: Database)
    requires db.rd.Faithful()
    ensures var v := Dec(Finite(false, [1], -16384));
      && FullScan([v]) == Ok(PLAIN_NUMERIC) && SerializeInferred(db.rd, v, Column("", PLAIN_NUMERIC, true)).Ok?
      && ColumnStores(db, PLAIN_NUMERIC, TextOf(db.rd, v)) == Err && !Kept(db, v, PLAIN_NUMERIC)
  {
    var v := Dec(Finite(false, [1], -16384));
    assert [v][1..] == [];
  }

  lemma {:induction false} ScaleIsInt(m: int, k: nat)
    ensures Scale(m as real, k) == (m * Bytes.Pow2(k)) as real
  {
    if k > 0 {
      ScaleIsInt(m, k - 1);
      assert m * Bytes.Pow2(k) == 2 * (m * Bytes.Pow2(k - 1));
    }
  }

  lemma {:induction false} ScaleShrinks(m: int, k: int)
    requires k <= 0
    ensures -(AbsInt(m) as real) <= Scale(m as real, k) <= AbsInt(m) as real
    decreases -k
  {
    if k < 0 {
      ScaleShrinks(m, k + 1);
    }
  }

  lemma NoDouble()
    ensures !IsDouble(9007199254740993.0)
  {
    if IsDouble(9007199254740993.0) {
      var m, k :| BinaryForm(9007199254740993.0, m, k) && -1074 <= k <= 971 && AbsInt(m) < 0x20_0000_0000_0000;
      if k <= 0 {
        ScaleShrinks(m, k);
      } else {
        ScaleIsInt(m, k);
        OddIsNoMultiple(m, k);
      }
    }
  }

  /** 2^53 + 1 is written under FLOAT; no double holds it, and the column stores
      another number, or refuses it. */
  lemma IntegerRounded(db: Database)
    requires db.Valid()
    ensures var (v, t) := (Int(9007199254740993), FloatT(None));
      && SerializeInferred(db.rd, v, Column("", t, true)).Ok? && !Kept(db, v, t)
      && ColumnStores(db, t, TextOf(db.rd, v)) != Ok(Meant(db, v, t))
  {
    var v := Int(9007199254740993);
    NoDouble();
    FloatReads(db, v, None);
  }

  lemma OddIsNoMultiple(m: int, k: nat)
    requires k > 0
    ensures m * Bytes.Pow2(k) != 9007199254740993
  {
    assert m * Bytes.Pow2(k) == 2 * (m * Bytes.Pow2(k - 1));
  }
}
