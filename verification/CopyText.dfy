/** Serializing one cell to a COPY field: the strict declared kernel, the
    widening inferred kernel, and what PostgreSQL reads back from both
    (task_core/db/copytext.py; task_core/db/values.py, 530-616). */
module CopyText {
  import opened Values
  import opened Families
  import opened PgText
  import F = CopyFormat
  import Numeric
  import Utf8

  predicate IsInteger(t: SqlType) { t.SmallIntT? || t.IntegerT? || t.BigIntT? }

  function Bits(t: SqlType): int
    requires IsInteger(t)
  {
    if t.SmallIntT? then 0x8000 else if t.IntegerT? then 0x8000_0000 else 0x8000_0000_0000_0000
  }

  predicate InRange(n: int, t: SqlType)
    requires IsInteger(t)
  {
    -Bits(t) <= n < Bits(t)
  }

  const NUL: char := '\0'

  // -- declared validation -----------------------------------------------------------

  /** The values a declared column takes: no semantic coercion. */
  predicate Declarable(v: Value, c: Column) {
    if v.Null? then c.nullable
    else
      match c.sqlType
      case BooleanT => v.Bool?
      case NumericT(p, s) => Numeric.Representable(v, p, s)
      case FloatT(_) => v.Real?
      case TextT(maxLength) => v.Str? && NUL !in v.s && (maxLength.Some? ==> |v.s| <= maxLength.value)
      case BinaryT => v.Bytes?
      case DateT => v.Day?
      case TimestampT(zoned) => v.Stamp? && IsAware(v) == zoned
      case _ => v.Int? && InRange(v.n, c.sqlType)
  }

  /** The type shapes a schema may declare, where they constrain values. */
  predicate Declared(t: SqlType) {
    && (t.NumericT? ==> Numeric.DeclarableNumeric(t.precision, t.scale))
    && (t.FloatT? && t.bits.Some? ==> 1 <= t.bits.value <= 53)
    && (t.TextT? && t.maxLength.Some? ==> t.maxLength.value >= 1)
  }

  /** What a declared column takes, type by type: NULL exactly when it is
      nullable, and otherwise nothing but values of its own kind, within the
      integer's 16, 32 or 64 bits, the number's precision and scale, the text's
      length. */
  lemma DeclarableMeans(v: Value, c: Column)
    ensures Declarable(v, c) <==>
      if v.Null? then c.nullable
      else match c.sqlType
        case BooleanT => v.Bool?
        case SmallIntT => v.Int? && -32_768 <= v.n <= 32_767
        case IntegerT => v.Int? && -2_147_483_648 <= v.n <= 2_147_483_647
        case BigIntT => v.Int? && -9_223_372_036_854_775_808 <= v.n <= 9_223_372_036_854_775_807
        case NumericT(p, s) => Numeric.Representable(v, p, s)
        case FloatT(_) => v.Real?
        case TextT(maxLength) =>
          v.Str? && (forall ch | ch in v.s :: ch != '\0') && (maxLength.None? || |v.s| <= maxLength.value)
        case BinaryT => v.Bytes?
        case DateT => v.Day?
        case TimestampT(zoned) => v.Stamp? && v.zone.Offset? == zoned
  {
  }

  /** _declared_type_family: the type parameters PostgreSQL preserves. */
  method CheckType(t: SqlType) returns (supported: bool)
    ensures supported == Declared(t)
  {
    match t {
      case FloatT(bits) =>
        if bits.Some? && !(1 <= bits.value <= 53) {
          return false;
        }
      case NumericT(precision, scale) =>
        if scale.Some? && precision.None? {
          return false;
        }
        if precision.Some? && !(1 <= precision.value <= 1000) {
          return false;
        }
        if scale.Some? && scale.value < 0 {
          return false;
        }
        if precision.Some? && scale.Some? && scale.value > precision.value {
          return false;
        }
      case TextT(length) =>
        if length.Some? && length.value < 1 {
          return false;
        }
      case _ =>
    }
    supported := true;
  }

  method ValidateDeclared(v: Value, c: Column) returns (accepted: bool)
    requires Declared(c.sqlType)
    ensures accepted == Declarable(v, c)
  {
    if v.Null? {
      return c.nullable;
    }
    match c.sqlType {
      case BooleanT => accepted := v.Bool?;
      case NumericT(p, s) => accepted := Numeric.ValidateNumeric(v, p, s);
      case FloatT(_) => accepted := v.Real?;
      case TextT(maxLength) =>
        if !v.Str? || NUL in v.s {
          return false;
        }
        accepted := maxLength.None? || |v.s| <= maxLength.value;
      case BinaryT => accepted := v.Bytes?;
      case DateT => accepted := v.Day?;
      case TimestampT(zoned) =>
        if !v.Stamp? {
          return false;
        }
        var aware := IsAware(v);
        if zoned && !aware {
          return false;
        }
        if !zoned && aware {
          return false;
        }
        accepted := true;
      case _ => accepted := v.Int? && InRange(v.n, c.sqlType);
    }
  }

  // -- field bytes ---------------------------------------------------------------------

  /** str(value) and its relatives, as an inferred TEXT column renders a value. */
  function TextOf(rd: Renderings, v: Value): string {
    match v
    case Null => ""
    case Bool(b) => if b then "true" else "false"
    case Int(n) => IntText(n)
    case Real(f) => FloatText(rd, f)
    case Dec(d) => rd.decimalText(d)
    case Str(s) => s
    case Bytes(payload) => BytesText(payload)
    case Day(date) => DateText(date)
    case Stamp(day, time, zone) => StampText(day, time, zone)
    case Other(text) => text
  }

  /** What an inferred TEXT column shows: strings and other objects as they are,
      the lower-case words for booleans, the names PostgreSQL reads for the
      special floats, and what reads back as it for the rest. */
  lemma TextSays(rd: Renderings, v: Value)
    ensures match v
      case Bool(b) => TextOf(rd, v) == if b then "true" else "false"
      case Int(n) => ParseInt(TextOf(rd, v)) == Ok(n)
      case Real(f) => TextOf(rd, v) ==
        if IsNaN(f) then "NaN"
        else if IsInfinite(f) then (if SignBit(f) then "-Infinity" else "Infinity")
        else rd.floatRepr(f)
      case Dec(d) => TextOf(rd, v) == rd.decimalText(d)
      case Str(s) => TextOf(rd, v) == s
      case Bytes(payload) => ParseBytea(TextOf(rd, v)) == Ok(payload)
      case Day(date) => ParseDate(TextOf(rd, v)) == Ok(date)
      case Stamp(day, time, zone) =>
        && ParseStamp(TextOf(rd, v)).Ok?
        && var i := ParseStamp(TextOf(rd, v)).value;
          && i.day == day && i.time == Clock(time.hour, time.minute, time.second, time.micro)
          && i.offset == if zone.Offset? then Some(zone.micros) else None
      case Other(text) => TextOf(rd, v) == text
      case Null => true
  {
    match v {
      case Int(n) => IntTextRead(n);
      case Bytes(payload) => BytesTextRead(payload);
      case Day(date) => DateTextRead(date);
      case Stamp(day, time, zone) => StampTextRead(day, time, zone);
      case _ =>
    }
  }

  function BoolByte(b: bool): seq<byte> { if b then [0x74] else [0x66] }

  /** Two backslashes, an x and the hexadecimal digits. */
  function BytesField(payload: seq<byte>): seq<byte> {
    [F.BACKSLASH, F.BACKSLASH, 0x78] + Utf8.Encode(HexText(payload))
  }

  /** A declared, validated, non-NULL value. */
  function SerializeValidated(rd: Renderings, v: Value, t: SqlType): seq<byte>
    requires !v.Null? && Declarable(v, Column("", t, true))
  {
    match t
    case BooleanT => BoolByte(v.b)
    case NumericT(_, _) => Utf8.Encode(if v.Int? then IntText(v.n) else rd.decimalText(v.d))
    case FloatT(_) => Utf8.Encode(FloatText(rd, v.f))
    case TextT(_) => F.EscapeText(v.s)
    case BinaryT => BytesField(v.payload)
    case DateT => Utf8.Encode(DateText(v.date))
    case TimestampT(_) => Utf8.Encode(StampText(v.day, v.time, v.zone))
    case _ => Utf8.Encode(IntText(v.n))
  }

  function SerializeDeclared(rd: Renderings, v: Value, c: Column): Result<seq<byte>> {
    if !Declarable(v, c) then Err
    else if v.Null? then Ok(F.NULL_FIELD)
    else Ok(SerializeValidated(rd, v, c.sqlType))
  }

  /** A value under an inferred or overridden type, widened where the shared
      inference rules widen. */
  function SerializeInferred(rd: Renderings, v: Value, c: Column): Result<seq<byte>> {
    if v.Null? then (if c.nullable then Ok(F.NULL_FIELD) else Err)
    else
      match c.sqlType
      case BooleanT => if v.Bool? then Ok(BoolByte(v.b)) else Err
      case NumericT(_, _) => SerializeNumber(rd, v)
      case FloatT(_) => SerializeNumber(rd, v)
      case TextT(_) =>
        if v.Bytes? || NUL in TextOf(rd, v) then Err else Ok(F.EscapeText(TextOf(rd, v)))
      case BinaryT => if v.Bytes? then Ok(BytesField(v.payload)) else Err
      case DateT => if v.Day? then Ok(Utf8.Encode(DateText(v.date))) else Err
      case TimestampT(_) =>
        if v.Stamp? then Ok(Utf8.Encode(StampText(v.day, v.time, v.zone)))
        else if v.Day? then Ok(Utf8.Encode(DateText(v.date)))
        else Err
      case _ =>
        if v.Int? && Declarable(v, c) then Ok(Utf8.Encode(IntText(v.n))) else Err
  }

  function SerializeNumber(rd: Renderings, v: Value): Result<seq<byte>> {
    match v
    case Int(n) => Ok(Utf8.Encode(IntText(n)))
    case Dec(d) => Ok(Utf8.Encode(rd.decimalText(d)))
    case Real(f) => Ok(Utf8.Encode(FloatText(rd, f)))
    case _ => Err
  }

  /** Where the strict kernel accepts, the widening one writes the same bytes. */
  lemma DeclaredIsInferred(rd: Renderings, v: Value, c: Column)
    requires SerializeDeclared(rd, v, c).Ok?
    ensures SerializeInferred(rd, v, c) == SerializeDeclared(rd, v, c)
  {
  }

  // -- the text a field carries ----------------------------------------------------------

  /** The text of the value a field carries. */
  function CellText(rd: Renderings, v: Value, t: SqlType): string {
    if t.BooleanT? && v.Bool? then (if v.b then "t" else "f") else TextOf(rd, v)
  }

  function CellData(rd: Renderings, v: Value, t: SqlType): Option<seq<byte>> {
    if v.Null? then None else Some(Utf8.Encode(CellText(rd, v, t)))
  }

  lemma {:induction false} PlainUnescaped(s: string)
    requires PlainText(s)
    ensures F.EscapeBytes(Utf8.Encode(s)) == Utf8.Encode(s)
  {
    if s != "" {
      PlainUnescaped(s[1..]);
      F.EscapeBytesConcat(Utf8.EncodeChar(s[0]), Utf8.Encode(s[1..]));
      F.EscapeBytesPlain(Utf8.EncodeChar(s[0]));
    }
  }

  lemma TextOfPlain(rd: Renderings, v: Value)
    requires rd.Plain() && !v.Null? && !v.Str? && !v.Other? && !v.Bytes?
    ensures PlainText(TextOf(rd, v))
  {
    match v {
      case Bool(_) =>
      case Int(n) => IntTextPlain(n);
      case Real(_) =>
      case Dec(_) =>
      case Day(date) => DateTextPlain(date);
      case Stamp(day, time, zone) => StampTextPlain(day, time, zone);
    }
  }

  lemma BytesFieldEscaped(payload: seq<byte>)
    ensures BytesField(payload) == F.EscapeBytes(Utf8.Encode(BytesText(payload)))
  {
    var hex := HexText(payload);
    HexTextPlain(payload);
    PlainUnescaped(hex);
    Utf8.EncodeConcat("\\x", hex);
    F.EscapeBytesConcat(Utf8.Encode("\\x"), Utf8.Encode(hex));
    assert Utf8.Encode("\\x") == [F.BACKSLASH, 0x78] by {
      F.EncodeOneChar('x');
      assert "\\x"[1..] == "x";
    }
    assert F.EscapeBytes([F.BACKSLASH, 0x78]) == [F.BACKSLASH, F.BACKSLASH, 0x78] by {
      assert [F.BACKSLASH, 0x78][1..] == [0x78];
      F.EscapeBytesPlain([0x78]);
    }
  }

  /** Outside TEXT and BYTEA a cell is its text, unescaped. */
  lemma PlainWire(rd: Renderings, v: Value, c: Column)
    requires !v.Null? && SerializeInferred(rd, v, c).Ok? && !c.sqlType.TextT? && !c.sqlType.BinaryT?
    ensures SerializeInferred(rd, v, c).value == Utf8.Encode(CellText(rd, v, c.sqlType))
    ensures !v.Str? && !v.Other? && !v.Bytes?
  {
    F.EncodeOneChar('t');
    F.EncodeOneChar('f');
  }

  lemma PlainCellEscaped(rd: Renderings, v: Value, t: SqlType)
    requires rd.Plain() && !v.Null? && !v.Str? && !v.Other? && !v.Bytes?
    ensures F.EscapeBytes(Utf8.Encode(CellText(rd, v, t))) == Utf8.Encode(CellText(rd, v, t))
  {
    TextOfPlain(rd, v);
    PlainUnescaped(CellText(rd, v, t));
  }

  lemma TextCellEscaped(rd: Renderings, v: Value, c: Column)
    requires !v.Null? && c.sqlType.TextT? && SerializeInferred(rd, v, c).Ok?
    ensures SerializeInferred(rd, v, c) == Ok(F.EscapeBytes(Utf8.Encode(CellText(rd, v, c.sqlType))))
  {
    F.EscapeTextBytes(TextOf(rd, v));
  }

  lemma BinaryCellEscaped(rd: Renderings, v: Value, c: Column)
    requires !v.Null? && c.sqlType.BinaryT? && SerializeInferred(rd, v, c).Ok?
    ensures SerializeInferred(rd, v, c) == Ok(F.EscapeBytes(Utf8.Encode(CellText(rd, v, c.sqlType))))
  {
    BytesFieldEscaped(v.payload);
  }

  /** Every accepted cell is the escaped UTF-8 of its text. */
  lemma CellEscaped(rd: Renderings, v: Value, c: Column)
    requires rd.Plain() && SerializeInferred(rd, v, c).Ok?
    ensures SerializeInferred(rd, v, c) == Ok(F.EncodeField(CellData(rd, v, c.sqlType)))
  {
    if !v.Null? {
      if c.sqlType.TextT? {
        TextCellEscaped(rd, v, c);
      } else if c.sqlType.BinaryT? {
        BinaryCellEscaped(rd, v, c);
      } else {
        PlainWire(rd, v, c);
        PlainCellEscaped(rd, v, c.sqlType);
      }
    }
  }

  // -- inference soundness -----------------------------------------------------------------

  /** What an inferred column may still be refused for. */
  predicate Unwritable(rd: Renderings, v: Value, t: SqlType) {
    || (t.BigIntT? && v.Int? && !InRange(v.n, BigIntT))
    || (t.TextT? && (v.Bytes? || NUL in TextOf(rd, v)))
  }

  /** The non-Text types the scan resolves to, and the values they imply. */
  predicate Suits(v: Value, t: SqlType) {
    match t
    case BooleanT => v.Bool?
    case BigIntT => v.Int?
    case NumericT(_, _) => v.Int? || v.Real? || v.Dec?
    case BinaryT => v.Bytes?
    case DateT => v.Day?
    case TimestampT(_) => v.Day? || v.Stamp?
    case TextT(_) => true
    case _ => false
  }

  lemma ResolvedSuits(families: set<Family>, v: Value, t: SqlType)
    requires Resolve(families) == Ok(t) && !v.Null? && FamilyOf(v) in families
    ensures Suits(v, t)
  {
    if families <= {IntFamily, NumericFamily} {
      assert FamilyOf(v) in {IntFamily, NumericFamily};
    } else if families <= TEMPORAL {
      assert FamilyOf(v) in TEMPORAL;
    }
  }

  lemma ScannedValueSuits(vs: seq<Value>, v: Value, t: SqlType)
    requires FullScan(vs) == Ok(t) && v in vs && !v.Null?
    ensures Suits(v, t)
  {
    if t != PLAIN_TEXT {
      ScanAnswersComplete(vs, t);
      ResolvedSuits(FamiliesOf(vs), v, t);
    }
  }

  /** The type the full scan gives a column accepts every value of that column,
      but for integers outside int64, and bytes or a NUL under TEXT. */
  lemma InferenceSound(rd: Renderings, vs: seq<Value>, v: Value, c: Column)
    requires FullScan(vs) == Ok(c.sqlType) && v in vs && c.nullable
    ensures SerializeInferred(rd, v, c).Err? <==> Unwritable(rd, v, c.sqlType)
  {
    if !v.Null? {
      ScannedValueSuits(vs, v, c.sqlType);
    }
  }
}
