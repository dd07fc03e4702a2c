/** The layout of a spooled value, byte by byte, and that the writer produces and
    the reader accepts exactly that (task_core/db/spool_format.py, 438-662). */
module SpoolLayout {
  import opened Values
  import opened Bytes
  import opened SpoolFormat
  import Spool
  import Utf8

  const CAP := 536_870_912

  /** A 4-byte length and that many bytes. */
  function Framed(payload: seq<byte>): seq<byte> { BigEndian(|payload|, 4) + payload }

  predicate IsText(e: seq<byte>, tag: byte, text: string) {
    e == [tag] + Framed(Utf8.Encode(text)) && |Utf8.Encode(text)| <= CAP
  }

  function DateBytes(d: Date): seq<byte> { BigEndian(d.year, 2) + [d.month, d.day] }

  function ClockBytes(t: Time): seq<byte> { [t.hour, t.minute, t.second] + BigEndian(t.micro, 4) }

  /** These bytes are this value: a tag; then nothing, a counted two's-complement
      number, an IEEE double, counted text or bytes, or calendar fields, with the
      offset in seconds of a time that has one. */
  ghost predicate Written(rd: Renderings, e: seq<byte>, v: Value) {
    match v
    case Null => e == [0x00]
    case Bool(b) => e == [if b then 0x02 else 0x01]
    case Int(n) => |e| >= 3 && e[0] == 0x03 && e[1] == |e| - 2 && FromSigned(e[2..]) == n
    case Real(f) => e == [0x04] + BigEndian(f, 8)
    case Dec(d) => exists text :: IsText(e, 0x05, text) && rd.parseDecimal(text) == Some(d)
    case Str(s) => IsText(e, 0x06, s)
    case Bytes(payload) => e == [0x07] + Framed(payload) && |payload| <= CAP
    case Day(d) => e == [0x08] + DateBytes(d)
    case Stamp(d, t, z) =>
      if z.NoZone? then e == [0x09] + DateBytes(d) + ClockBytes(t)
      else
        && z.Offset? && z.micros % 1_000_000 == 0 && FitsSigned(z.micros / 1_000_000, 4)
        && e == [0x0A] + DateBytes(d) + ClockBytes(t) + ToSigned(z.micros / 1_000_000, 4)
    case Other(_) => false
  }

  /** The values that can be written at all. */
  predicate Writable(rd: Renderings, v: Value) {
    match v
    case Int(n) => FitsSigned(n, 255)
    case Dec(d) => |Utf8.Encode(rd.decimalText(d))| <= CAP
    case Str(s) => |Utf8.Encode(s)| <= CAP
    case Bytes(payload) => |payload| <= CAP
    case Stamp(_, _, z) => z.NoZone? || (z.Offset? && z.micros % 1_000_000 == 0)
    case Other(_) => false
    case _ => true
  }

  lemma {:induction false} WiderFits(n: int, a: nat, b: nat)
    requires a <= b && FitsSigned(n, a)
    ensures FitsSigned(n, b)
  {
    if a < b {
      WiderFits(n, a, b - 1);
    }
  }

  /** The writer writes exactly the writable values. */
  lemma EncodesIff(rd: Renderings, v: Value)
    ensures EncodeValue(rd, v).Ok? <==> Writable(rd, v)
  {
    if v.Int? {
      var width := MinSignedBytes(v.n);
      MinSignedBytesExact(v.n, width);
      if width <= 255 {
        WiderFits(v.n, width, 255);
      } else {
        MinSignedBytesExact(v.n, 255);
      }
    }
  }

  lemma OneByte(n: nat)
    requires n < 256
    ensures BigEndian(n, 1) == [n]
  {
    assert BigEndian(n / 256, 0) == [];
  }

  lemma DateLayout(d: Date)
    ensures WriteDate(d) == DateBytes(d)
  {
    OneByte(d.month);
    OneByte(d.day);
  }

  lemma StampLayout(d: Date, t: Time)
    ensures WriteDateTime(d, t) == DateBytes(d) + ClockBytes(t)
  {
    DateLayout(d);
    OneByte(t.hour);
    OneByte(t.minute);
    OneByte(t.second);
  }

  /** What it writes is laid out so. */
  lemma EncodedIsWritten(rd: Renderings, v: Value)
    requires rd.Faithful() && EncodeValue(rd, v).Ok?
    ensures Written(rd, EncodeValue(rd, v).value, v)
  {
    var e := EncodeValue(rd, v).value;
    match v {
      case Int(n) =>
        var width := MinSignedBytes(n);
        MinSignedBytesExact(n, width);
        OneByte(width);
        SignedRoundTrip(n, width);
        assert e[2..] == ToSigned(n, width);
      case Dec(d) => assert IsText(e, 0x05, rd.decimalText(d));
      case Day(d) => DateLayout(d);
      case Stamp(d, t, z) => StampWritten(rd, d, t, z);
      case _ =>
    }
  }

  lemma StampWritten(rd: Renderings, d: Date, t: Time, z: Zone)
    requires EncodeValue(rd, Stamp(d, t, z)).Ok?
    ensures Written(rd, EncodeValue(rd, Stamp(d, t, z)).value, Stamp(d, t, z))
  {
    StampLayout(d, t);
    if !z.NoZone? {
      OffsetFits(OffsetSeconds(z).value);
      var seconds := ToSigned(OffsetSeconds(z).value, 4);
      assert [0x0A] + (DateBytes(d) + ClockBytes(t) + seconds) == [0x0A] + DateBytes(d) + ClockBytes(t) + seconds;
    } else {
      assert [0x09] + (DateBytes(d) + ClockBytes(t)) == [0x09] + DateBytes(d) + ClockBytes(t);
    }
  }

  // -- the reader -----------------------------------------------------------------------

  lemma {:induction false} BigEndianBack(b: seq<byte>)
    ensures BigEndian(FromBigEndian(b), |b|) == b
  {
    if b != [] {
      var n := |b| - 1;
      BigEndianBack(b[..n]);
      assert b == b[..n] + [b[n]];
    }
  }

  lemma SignedBack(b: seq<byte>)
    ensures FitsSigned(FromSigned(b), |b|) && ToSigned(FromSigned(b), |b|) == b
  {
    BigEndianBack(b);
  }

  /** What was read of these bytes. */
  function Read(b: seq<byte>, rest: seq<byte>): seq<byte> {
    if |rest| <= |b| then b[..|b| - |rest|] else b
  }

  lemma BlockRead(b: seq<byte>, payload: seq<byte>, rest: seq<byte>)
    requires ReadBlock(b) == Got(payload, rest)
    ensures b == Framed(payload) + rest && |payload| <= CAP
  {
    BigEndianBack(b[..4]);
    assert b == b[..4] + (b[4..][..|payload|] + rest);
  }

  lemma TextRead(b: seq<byte>, text: string, rest: seq<byte>)
    requires ReadText(b) == Got(text, rest)
    ensures b == Framed(Utf8.Encode(text)) + rest && |Utf8.Encode(text)| <= CAP
  {
    var payload := ReadBlock(b).value;
    BlockRead(b, payload, rest);
    Utf8.DecodeStrict(payload);
  }

  lemma Tagged(b: seq<byte>, tag: byte, body: seq<byte>, rest: seq<byte>)
    requires b != [] && b[0] == tag && b[1..] == body + rest
    ensures b == [tag] + body + rest && |rest| <= |b| && Read(b, rest) == [tag] + body
  {
    assert b == [b[0]] + b[1..];
  }

  lemma DateRead(b: seq<byte>, d: Date)
    requires |b| >= 4 && ParseDate(b).Got? && ParseDate(b).value == d
    ensures b[..4] == DateBytes(d)
  {
    BigEndianBack(b[..2]);
    assert b[2..3] == [b[2]] && b[3..4] == [b[3]];
    OneRead(b[2]);
    OneRead(b[3]);
    assert b[..4] == b[..2] + [b[2]] + [b[3]];
  }

  lemma OneRead(x: byte)
    ensures FromBigEndian([x]) == x
  {
    assert [x][..0] == [];
  }

  lemma ClockRead(b: seq<byte>, t: Time)
    requires |b| == 7 && ParseTime(b).Got? && ParseTime(b).value == t
    ensures b == ClockBytes(t)
  {
    BigEndianBack(b[3..7]);
    assert b[..1] == [b[0]] && b[1..2] == [b[1]] && b[2..3] == [b[2]];
    OneRead(b[0]);
    OneRead(b[1]);
    OneRead(b[2]);
    assert b == [b[0]] + [b[1]] + [b[2]] + b[3..7];
  }

  lemma StampRead(b: seq<byte>, d: Date, t: Time)
    requires |b| == 11 && ParseDateTime(b).Got? && ParseDateTime(b).value == (d, t)
    ensures b == DateBytes(d) + ClockBytes(t)
  {
    DateRead(b, d);
    ClockRead(b[4..], t);
    assert b == b[..4] + b[4..];
  }

  lemma IntDecoded(rd: Renderings, b: seq<byte>, v: Value, rest: seq<byte>)
    requires b != [] && b[0] == 0x03 && DecodeInt(b[1..]) == Got(v, rest)
    ensures |rest| <= |b| && b == Read(b, rest) + rest && Written(rd, Read(b, rest), v)
  {
    assert b[1..][..1] == [b[1]];
    OneRead(b[1]);
    var width := b[1] as int;
    var field := b[2..][..width];
    assert b[1..][1..] == b[2..];
    assert b[1..] == ([b[1]] + field) + rest;
    Tagged(b, 0x03, [b[1]] + field, rest);
    assert Read(b, rest)[2..] == field;
  }

  lemma FloatDecoded(rd: Renderings, b: seq<byte>, v: Value, rest: seq<byte>)
    requires b != [] && b[0] == 0x04 && DecodeFloat(b[1..]) == Got(v, rest)
    ensures |rest| <= |b| && b == Read(b, rest) + rest && Written(rd, Read(b, rest), v)
  {
    var field := b[1..][..8];
    BigEndianBack(field);
    Tagged(b, 0x04, field, rest);
  }

  lemma DecimalDecoded(rd: Renderings, b: seq<byte>, v: Value, rest: seq<byte>)
    requires b != [] && b[0] == 0x05 && DecodeDecimal(rd, b[1..]) == Got(v, rest)
    ensures |rest| <= |b| && b == Read(b, rest) + rest && Written(rd, Read(b, rest), v)
  {
    var text := ReadText(b[1..]).value;
    TextRead(b[1..], text, rest);
    Tagged(b, 0x05, Framed(Utf8.Encode(text)), rest);
    assert IsText(Read(b, rest), 0x05, text);
  }

  lemma DayDecoded(rd: Renderings, b: seq<byte>, v: Value, rest: seq<byte>)
    requires b != [] && b[0] == 0x08 && DecodeDay(b[1..]) == Got(v, rest)
    ensures |rest| <= |b| && b == Read(b, rest) + rest && Written(rd, Read(b, rest), v)
  {
    var field := b[1..][..4];
    DateRead(field, v.date);
    Tagged(b, 0x08, field, rest);
  }

  lemma NaiveDecoded(rd: Renderings, b: seq<byte>, v: Value, rest: seq<byte>)
    requires b != [] && b[0] == 0x09 && DecodeNaive(b[1..]) == Got(v, rest)
    ensures |rest| <= |b| && b == Read(b, rest) + rest && Written(rd, Read(b, rest), v)
  {
    var field := b[1..][..11];
    StampRead(field, v.day, v.time);
    Tagged(b, 0x09, field, rest);
    assert [0x09] + (DateBytes(v.day) + ClockBytes(v.time)) == [0x09] + DateBytes(v.day) + ClockBytes(v.time);
  }

  lemma AwareDecoded(rd: Renderings, b: seq<byte>, v: Value, rest: seq<byte>)
    requires b != [] && b[0] == 0x0A && DecodeAware(b[1..]) == Got(v, rest)
    ensures |rest| <= |b| && b == Read(b, rest) + rest && Written(rd, Read(b, rest), v)
  {
    var field, zone := b[1..][..11], b[1..][11..][..4];
    StampRead(field, v.day, v.time);
    SignedBack(zone);
    assert v.zone.micros / 1_000_000 == FromSigned(zone);
    assert b[1..] == (field + zone) + rest;
    Tagged(b, 0x0A, field + zone, rest);
    var seconds := ToSigned(v.zone.micros / 1_000_000, 4);
    assert [0x0A] + (DateBytes(v.day) + ClockBytes(v.time) + seconds)
        == [0x0A] + DateBytes(v.day) + ClockBytes(v.time) + seconds;
  }

  /** Whatever the reader takes for a value is laid out as that value; anything
      else raises. */
  lemma DecodedIsWritten(rd: Renderings, b: seq<byte>, v: Value, rest: seq<byte>)
    requires DecodeValue(rd, b) == Got(v, rest)
    ensures |rest| <= |b| && b == Read(b, rest) + rest && Written(rd, Read(b, rest), v)
  {
    var tag := b[0];
    if tag <= 0x02 {
      Tagged(b, tag, [], rest);
      assert [tag] + [] == [tag];
    } else if tag == 0x03 {
      IntDecoded(rd, b, v, rest);
    } else if tag == 0x04 {
      FloatDecoded(rd, b, v, rest);
    } else if tag == 0x05 {
      DecimalDecoded(rd, b, v, rest);
    } else if tag == 0x06 {
      TextRead(b[1..], v.s, rest);
      Tagged(b, 0x06, Framed(Utf8.Encode(v.s)), rest);
    } else if tag == 0x07 {
      BlockRead(b[1..], v.payload, rest);
      Tagged(b, 0x07, Framed(v.payload), rest);
    } else if tag == 0x08 {
      DayDecoded(rd, b, v, rest);
    } else if tag == 0x09 {
      NaiveDecoded(rd, b, v, rest);
    } else {
      assert tag == 0x0A;
      AwareDecoded(rd, b, v, rest);
    }
  }

  lemma IntRead(rd: Renderings, e: seq<byte>, n: int, rest: seq<byte>)
    requires Written(rd, e, Int(n))
    ensures DecodeValue(rd, e + rest) == Got(Int(n), rest)
  {
    var field := e[2..];
    OneRead(e[1]);
    var b := (e + rest)[1..];
    assert b == [e[1]] + (field + rest);
    ReadExactFramed([e[1]], field + rest, 1);
    ReadExactFramed(field, rest, |field|);
  }

  lemma TaggedBytes(tag: byte, body: seq<byte>, rest: seq<byte>)
    ensures ([tag] + body + rest)[0] == tag && ([tag] + body + rest)[1..] == body + rest
  {
  }

  lemma DecimalText(rd: Renderings, text: string, d: Decimal, rest: seq<byte>)
    requires |Utf8.Encode(text)| <= CAP && rd.parseDecimal(text) == Some(d)
    ensures DecodeDecimal(rd, Framed(Utf8.Encode(text)) + rest) == Got(Dec(d), rest)
  {
    TextBody(text, rest);
  }

  lemma DecimalRead(rd: Renderings, e: seq<byte>, d: Decimal, rest: seq<byte>)
    requires Written(rd, e, Dec(d))
    ensures DecodeValue(rd, e + rest) == Got(Dec(d), rest)
  {
    var text :| IsText(e, 0x05, text) && rd.parseDecimal(text) == Some(d);
    DecimalText(rd, text, d, rest);
    TaggedBytes(0x05, Framed(Utf8.Encode(text)), rest);
  }

  lemma SimpleRead(rd: Renderings, e: seq<byte>, v: Value, rest: seq<byte>)
    requires Written(rd, e, v) && !v.Int? && !v.Dec?
    ensures DecodeValue(rd, e + rest) == Got(v, rest)
  {
    assert (e + rest)[1..] == e[1..] + rest;
    match v {
      case Str(s) => TextBody(s, rest);
      case Bytes(payload) => BlockBody(payload, rest);
      case Stamp(d, t, z) =>
        StampWritten(rd, d, t, z);
        StampBody(rd, v, rest);
      case Day(d) =>
        DateLayout(d);
        FixedBody(rd, v, rest);
      case _ => FixedBody(rd, v, rest);
    }
  }

  /** The reader gets a value, and stops, exactly where bytes laid out as that
      value end. */
  lemma DecodesIff(rd: Renderings, b: seq<byte>, v: Value, rest: seq<byte>)
    ensures DecodeValue(rd, b) == Got(v, rest) <==>
      |rest| <= |b| && b == Read(b, rest) + rest && Written(rd, Read(b, rest), v)
  {
    if DecodeValue(rd, b) == Got(v, rest) {
      DecodedIsWritten(rd, b, v, rest);
    } else if |rest| <= |b| && b == Read(b, rest) + rest && Written(rd, Read(b, rest), v) {
      match v {
        case Int(n) => IntRead(rd, Read(b, rest), n, rest);
        case Dec(d) => DecimalRead(rd, Read(b, rest), d, rest);
        case _ => SimpleRead(rd, Read(b, rest), v, rest);
      }
    }
  }

  // -- rows and streams ------------------------------------------------------------------

  /** A row is marked 0xFE and the end of the stream 0xFF, and any other mark
      raises. */
  lemma RowMarks(rd: Renderings, b: seq<byte>, width: nat)
    ensures Spool.DecodeRow(rd, b, width).Got? ==> b != [] && (b[0] == 0xFE || b[0] == 0xFF)
    ensures b != [] && b[0] == 0xFF <==> Spool.DecodeRow(rd, b, width) == Got(None, if b == [] then [] else b[1..])
    ensures b != [] && b[0] == 0xFE && Spool.DecodeRow(rd, b, width).Got? ==>
      var values := Spool.DecodeValues(rd, b[1..], width);
      values.Got? && Spool.DecodeRow(rd, b, width) == Got(Some(values.value), values.rest)
  {
  }

  lemma {:induction false} ValuesIff(rd: Renderings, vs: seq<Value>)
    ensures Spool.EncodeValues(rd, vs).Ok? <==> forall i | 0 <= i < |vs| :: Writable(rd, vs[i])
  {
    if vs != [] {
      EncodesIff(rd, vs[0]);
      ValuesIff(rd, vs[1..]);
      assert forall i | 0 < i < |vs| :: vs[i] == vs[1..][i - 1];
    }
  }

  predicate WritableRow(rd: Renderings, row: seq<Value>, width: nat) {
    |row| == width && forall i | 0 <= i < |row| :: Writable(rd, row[i])
  }

  lemma {:induction false} RowsIff(rd: Renderings, rows: seq<seq<Value>>, width: nat)
    ensures Spool.EncodeRows(rd, rows, width).Ok? <==> forall i | 0 <= i < |rows| :: WritableRow(rd, rows[i], width)
  {
    if rows != [] {
      ValuesIff(rd, rows[0]);
      RowsIff(rd, rows[1..], width);
      assert forall i | 0 < i < |rows| :: rows[i] == rows[1..][i - 1];
    }
  }

  lemma {:induction false} NamesIff(columns: seq<string>)
    ensures Spool.EncodeNames(columns).Ok? <==> forall i | 0 <= i < |columns| :: |Utf8.Encode(columns[i])| <= CAP
  {
    if columns != [] {
      NamesIff(columns[1..]);
      assert forall i | 0 < i < |columns| :: columns[i] == columns[1..][i - 1];
    }
  }

  /** A stream is written exactly for columns that can be counted and named, and
      rows of their width whose values can all be written. */
  lemma StreamIff(rd: Renderings, columns: seq<string>, rows: seq<seq<Value>>)
    ensures Spool.EncodeStream(rd, columns, rows).Ok? <==>
      && |columns| < 0x1_0000_0000 && (forall i | 0 <= i < |columns| :: |Utf8.Encode(columns[i])| <= CAP)
      && forall i | 0 <= i < |rows| :: WritableRow(rd, rows[i], |columns|)
  {
    NamesIff(columns);
    RowsIff(rd, rows, |columns|);
  }
}
