/** The type-neutral spool: a length-framed binary row format that an inferred
    COPY run writes once and reads back once (task_core/db/spool_format.py,
    lines 438-799). */
module SpoolFormat {
  import opened Values
  import opened Bytes
  import Utf8

  const MAX_FIELD_BYTES := 512 * 1024 * 1024

  const TAG_NULL: byte := 0x00
  const TAG_FALSE: byte := 0x01
  const TAG_TRUE: byte := 0x02
  const TAG_INT: byte := 0x03
  const TAG_FLOAT: byte := 0x04
  const TAG_DECIMAL: byte := 0x05
  const TAG_STR: byte := 0x06
  const TAG_BYTES: byte := 0x07
  const TAG_DATE: byte := 0x08
  const TAG_NAIVE: byte := 0x09
  const TAG_AWARE: byte := 0x0A
  const ROW_START: byte := 0xFE
  const TERMINATOR: byte := 0xFF

  /** What a reader gets from the bytes ahead: a value and the bytes after it,
      a short read, or bytes that are not the format.  The last two both raise. */
  datatype Read<+T> = Got(value: T, rest: seq<byte>) | Short | Malformed {
    predicate IsFailure() { !Got? }
    function PropagateFailure<U>(): Read<U>
      requires !Got?
    {
      if Short? then Short else Malformed
    }
    function Extract(): (T, seq<byte>)
      requires Got?
    {
      (value, rest)
    }
  }

  function ReadExact(b: seq<byte>, n: nat): Read<seq<byte>> {
    if n <= |b| then Got(b[..n], b[n..]) else Short
  }

  function ReadUint(b: seq<byte>, width: nat): Read<nat> {
    var (field, rest) :- ReadExact(b, width);
    Got(FromBigEndian(field), rest)
  }

  /** A 4-byte length and that many bytes, capped. */
  function ReadBlock(b: seq<byte>): Read<seq<byte>> {
    var (length, rest) :- ReadUint(b, 4);
    if length > MAX_FIELD_BYTES then Malformed else ReadExact(rest, length)
  }

  function ReadText(b: seq<byte>): Read<string> {
    var (payload, rest) :- ReadBlock(b);
    match Utf8.Decode(payload)
    case None => Malformed
    case Some(text) => Got(text, rest)
  }

  function WriteBlock(payload: seq<byte>): Result<seq<byte>> {
    if |payload| > MAX_FIELD_BYTES then Err else Ok(BigEndian(|payload|, 4) + payload)
  }

  // -- dates and times ----------------------------------------------------------

  function WriteDate(d: Date): seq<byte> {
    BigEndian(d.year, 2) + BigEndian(d.month, 1) + BigEndian(d.day, 1)
  }

  function WriteDateTime(d: Date, t: Time): seq<byte> {
    WriteDate(d) + BigEndian(t.hour, 1) + BigEndian(t.minute, 1) + BigEndian(t.second, 1) + BigEndian(t.micro, 4)
  }

  function ParseDate(b: seq<byte>): Read<Date>
    requires |b| >= 4
  {
    var y, m, d := FromBigEndian(b[..2]), FromBigEndian(b[2..3]), FromBigEndian(b[3..4]);
    if ValidDate(y, m, d) then Got(CalendarDate(y, m, d), b[4..]) else Malformed
  }

  function ParseTime(b: seq<byte>): Read<Time>
    requires |b| >= 7
  {
    var h, mi := FromBigEndian(b[..1]), FromBigEndian(b[1..2]);
    var s, us := FromBigEndian(b[2..3]), FromBigEndian(b[3..7]);
    if ValidTime(h, mi, s, us) then Got(ClockTime(h, mi, s, us), b[7..]) else Malformed
  }

  function ParseDateTime(b: seq<byte>): Read<(Date, Time)>
    requires |b| == 11
  {
    var (d, rest) :- ParseDate(b);
    var (t, rest') :- ParseTime(rest);
    Got((d, t), rest')
  }

  /** The whole-second offset written, or None when the zone cannot be. */
  function OffsetSeconds(z: Zone): Option<int> {
    if z.Offset? && z.micros % SECOND_MICROS == 0 && -DAY_SECONDS <= z.micros / SECOND_MICROS <= DAY_SECONDS
    then Some(z.micros / SECOND_MICROS)
    else None
  }

  // -- one value ------------------------------------------------------------------

  function TagOf(v: Value): byte {
    match v
    case Null => TAG_NULL
    case Bool(b) => if b then TAG_TRUE else TAG_FALSE
    case Int(_) => TAG_INT
    case Real(_) => TAG_FLOAT
    case Dec(_) => TAG_DECIMAL
    case Str(_) => TAG_STR
    case Bytes(_) => TAG_BYTES
    case Stamp(_, _, z) => if z.NoZone? then TAG_NAIVE else TAG_AWARE
    case Day(_) => TAG_DATE
    case Other(_) => TERMINATOR
  }

  function EncodeInt(n: int): Result<seq<byte>> {
    var width := MinSignedBytes(n);
    if width > 255 then Err
    else
      MinSignedBytesExact(n, width);
      Ok(BigEndian(width, 1) + ToSigned(n, width))
  }

  function EncodeStamp(d: Date, t: Time, z: Zone): Result<seq<byte>> {
    if z.NoZone? then Ok(WriteDateTime(d, t))
    else if OffsetSeconds(z).None? then Err
    else
      OffsetFits(OffsetSeconds(z).value);
      Ok(WriteDateTime(d, t) + ToSigned(OffsetSeconds(z).value, 4))
  }

  /** The payload after the tag; Err is a value the format does not carry. */
  function EncodeBody(rd: Renderings, v: Value): Result<seq<byte>> {
    match v
    case Null => Ok([])
    case Bool(_) => Ok([])
    case Int(n) => EncodeInt(n)
    case Real(f) => Ok(BigEndian(f, 8))
    case Dec(d) => WriteBlock(Utf8.Encode(rd.decimalText(d)))
    case Str(s) => WriteBlock(Utf8.Encode(s))
    case Bytes(payload) => WriteBlock(payload)
    case Stamp(d, t, z) => EncodeStamp(d, t, z)
    case Day(d) => Ok(WriteDate(d))
    case Other(_) => Err
  }

  /** _write_value */
  function EncodeValue(rd: Renderings, v: Value): Result<seq<byte>> {
    var body :- EncodeBody(rd, v);
    Ok([TagOf(v)] + body)
  }

  lemma OffsetFits(seconds: int)
    requires -DAY_SECONDS <= seconds <= DAY_SECONDS
    ensures FitsSigned(seconds, 4)
  {
    assert Pow256(4) == 256 * 256 * 256 * 256;
  }

  function DecodeInt(b: seq<byte>): Read<Value> {
    var (width, rest) :- ReadUint(b, 1);
    if width == 0 then Malformed
    else
      var (field, rest) :- ReadExact(rest, width);
      Got(Int(FromSigned(field)), rest)
  }

  function DecodeFloat(b: seq<byte>): Read<Value> {
    var (field, rest) :- ReadExact(b, 8);
    FloatWidth();
    Got(Real(FromBigEndian(field)), rest)
  }

  function DecodeDecimal(rd: Renderings, b: seq<byte>): Read<Value> {
    var (text, rest) :- ReadText(b);
    match rd.parseDecimal(text)
    case None => Malformed
    case Some(d) => Got(Dec(d), rest)
  }

  function DecodeDay(b: seq<byte>): Read<Value> {
    var (field, rest) :- ReadExact(b, 4);
    var (d, _) :- ParseDate(field);
    Got(Day(d), rest)
  }

  function DecodeNaive(b: seq<byte>): Read<Value> {
    var (field, rest) :- ReadExact(b, 11);
    var (dt, _) :- ParseDateTime(field);
    Got(Stamp(dt.0, dt.1, NoZone), rest)
  }

  function DecodeAware(b: seq<byte>): Read<Value> {
    var (field, rest) :- ReadExact(b, 11);
    var (zone, rest) :- ReadExact(rest, 4);
    var (dt, _) :- ParseDateTime(field);
    var seconds := FromSigned(zone);
    if -DAY_SECONDS < seconds < DAY_SECONDS then Got(Stamp(dt.0, dt.1, Offset(seconds * SECOND_MICROS)), rest)
    else Malformed
  }

  function DecodeBody(rd: Renderings, tag: byte, b: seq<byte>): Read<Value> {
    if tag == TAG_NULL then Got(Null, b)
    else if tag == TAG_FALSE then Got(Bool(false), b)
    else if tag == TAG_TRUE then Got(Bool(true), b)
    else if tag == TAG_INT then DecodeInt(b)
    else if tag == TAG_FLOAT then DecodeFloat(b)
    else if tag == TAG_DECIMAL then DecodeDecimal(rd, b)
    else if tag == TAG_STR then
      var (text, rest) :- ReadText(b);
      Got(Str(text), rest)
    else if tag == TAG_BYTES then
      var (payload, rest) :- ReadBlock(b);
      Got(Bytes(payload), rest)
    else if tag == TAG_DATE then DecodeDay(b)
    else if tag == TAG_NAIVE then DecodeNaive(b)
    else if tag == TAG_AWARE then DecodeAware(b)
    else Malformed
  }

  /** _read_value */
  function DecodeValue(rd: Renderings, b: seq<byte>): Read<Value> {
    if b == [] then Short else DecodeBody(rd, b[0], b[1..])
  }

  lemma FloatWidth()
    ensures Pow256(8) == 0x1_0000_0000_0000_0000
  {
    assert Pow256(4) == 0x1_0000_0000;
    assert Pow256(8) == 256 * 256 * 256 * 256 * Pow256(4);
  }

  lemma ReadExactFramed(e: seq<byte>, rest: seq<byte>, n: nat)
    requires |e| == n
    ensures ReadExact(e + rest, n) == Got(e, rest)
  {
  }

  lemma ReadUintFramed(n: nat, width: nat, rest: seq<byte>)
    requires n < Pow256(width)
    ensures ReadUint(BigEndian(n, width) + rest, width) == Got(n, rest)
  {
    BigEndianRoundTrip(n, width);
    ReadExactFramed(BigEndian(n, width), rest, width);
  }

  /** A 4-byte length or count. */
  lemma CountFramed(n: nat, rest: seq<byte>)
    requires n < 0x1_0000_0000
    ensures ReadUint(BigEndian(n, 4) + rest, 4) == Got(n, rest)
  {
    assert Pow256(4) == 0x1_0000_0000;
    ReadUintFramed(n, 4, rest);
  }

  lemma ReadBlockCounted(count: seq<byte>, payload: seq<byte>, rest: seq<byte>)
    requires |payload| <= MAX_FIELD_BYTES
    requires ReadUint(count + (payload + rest), 4) == Got(|payload|, payload + rest)
    ensures ReadBlock(count + (payload + rest)) == Got(payload, rest)
  {
    ReadExactFramed(payload, rest, |payload|);
  }

  lemma ReadBlockFramed(payload: seq<byte>, rest: seq<byte>)
    requires |payload| <= MAX_FIELD_BYTES
    ensures ReadBlock(BigEndian(|payload|, 4) + payload + rest) == Got(payload, rest)
  {
    var count := BigEndian(|payload|, 4);
    CountFramed(|payload|, payload + rest);
    ReadBlockCounted(count, payload, rest);
    Assoc(count, payload, rest);
  }

  lemma ReadBlockCut(payload: seq<byte>, k: nat)
    requires |payload| <= MAX_FIELD_BYTES && k < 4 + |payload|
    ensures ReadBlock((BigEndian(|payload|, 4) + payload)[..k]) == Short
  {
    if k >= 4 {
      assert (BigEndian(|payload|, 4) + payload)[..k] == BigEndian(|payload|, 4) + payload[..k - 4];
      CountFramed(|payload|, payload[..k - 4]);
    }
  }

  lemma DateFramed(d: Date, rest: seq<byte>)
    ensures ParseDate(WriteDate(d) + rest) == Got(d, rest)
  {
    var b := WriteDate(d) + rest;
    assert Pow256(2) == 65536 && Pow256(1) == 256;
    BigEndianRoundTrip(d.year, 2);
    BigEndianRoundTrip(d.month, 1);
    BigEndianRoundTrip(d.day, 1);
    assert b[..2] == BigEndian(d.year, 2) && b[2..3] == BigEndian(d.month, 1) && b[3..4] == BigEndian(d.day, 1);
    assert b[4..] == rest;
  }

  lemma TimeFramed(t: Time)
    ensures ParseTime(BigEndian(t.hour, 1) + BigEndian(t.minute, 1) + BigEndian(t.second, 1) + BigEndian(t.micro, 4))
         == Got(t, [])
  {
    var b := BigEndian(t.hour, 1) + BigEndian(t.minute, 1) + BigEndian(t.second, 1) + BigEndian(t.micro, 4);
    assert Pow256(4) == 0x1_0000_0000 && Pow256(1) == 256;
    BigEndianRoundTrip(t.hour, 1);
    BigEndianRoundTrip(t.minute, 1);
    BigEndianRoundTrip(t.second, 1);
    BigEndianRoundTrip(t.micro, 4);
    assert b[..1] == BigEndian(t.hour, 1) && b[1..2] == BigEndian(t.minute, 1);
    assert b[2..3] == BigEndian(t.second, 1) && b[3..7] == BigEndian(t.micro, 4);
  }

  lemma DateTimeFramed(d: Date, t: Time)
    ensures |WriteDateTime(d, t)| == 11 && ParseDateTime(WriteDateTime(d, t)) == Got((d, t), [])
  {
    var clock := BigEndian(t.hour, 1) + BigEndian(t.minute, 1) + BigEndian(t.second, 1) + BigEndian(t.micro, 4);
    assert WriteDateTime(d, t) == WriteDate(d) + clock;
    DateFramed(d, clock);
    TimeFramed(t);
  }

  lemma IntFramed(n: int, rest: seq<byte>)
    requires EncodeInt(n).Ok?
    ensures DecodeInt(EncodeInt(n).value + rest) == Got(Int(n), rest)
  {
    var width := MinSignedBytes(n);
    MinSignedBytesExact(n, width);
    var field := ToSigned(n, width);
    assert EncodeInt(n).value + rest == BigEndian(width, 1) + (field + rest);
    assert Pow256(1) == 256;
    ReadUintFramed(width, 1, field + rest);
    ReadExactFramed(field, rest, width);
    SignedRoundTrip(n, width);
  }

  lemma IntCut(n: int, k: nat)
    requires EncodeInt(n).Ok? && k < |EncodeInt(n).value|
    ensures DecodeInt(EncodeInt(n).value[..k]) == Short
  {
    var width := MinSignedBytes(n);
    MinSignedBytesExact(n, width);
    if k >= 1 {
      assert Pow256(1) == 256;
      var cut := ToSigned(n, width)[..k - 1];
      assert EncodeInt(n).value[..k] == BigEndian(width, 1) + cut;
      ReadUintFramed(width, 1, cut);
    }
  }

  lemma StampFramed(d: Date, t: Time, z: Zone, rest: seq<byte>)
    requires EncodeStamp(d, t, z).Ok?
    ensures var b := EncodeStamp(d, t, z).value + rest;
      (if z.NoZone? then DecodeNaive(b) else DecodeAware(b)) == Got(Stamp(d, t, z), rest)
  {
    DateTimeFramed(d, t);
    var dt := WriteDateTime(d, t);
    if z.NoZone? {
      ReadExactFramed(dt, rest, 11);
    } else {
      var seconds := OffsetSeconds(z).value;
      OffsetFits(seconds);
      var zone := ToSigned(seconds, 4);
      assert EncodeStamp(d, t, z).value + rest == dt + (zone + rest);
      ReadExactFramed(dt, zone + rest, 11);
      ReadExactFramed(zone, rest, 4);
      SignedRoundTrip(seconds, 4);
    }
  }

  lemma StampCut(d: Date, t: Time, z: Zone, k: nat)
    requires EncodeStamp(d, t, z).Ok? && k < |EncodeStamp(d, t, z).value|
    ensures var b := EncodeStamp(d, t, z).value[..k];
      (if z.NoZone? then DecodeNaive(b) else DecodeAware(b)) == Short
  {
    var dt := WriteDateTime(d, t);
    if !z.NoZone? && k >= 11 {
      OffsetFits(OffsetSeconds(z).value);
      var cut := ToSigned(OffsetSeconds(z).value, 4)[..k - 11];
      assert EncodeStamp(d, t, z).value[..k] == dt + cut;
      ReadExactFramed(dt, cut, 11);
    }
  }

  lemma FloatFramed(f: Float, rest: seq<byte>)
    ensures DecodeFloat(BigEndian(f, 8) + rest) == Got(Real(f), rest)
  {
    FloatWidth();
    BigEndianRoundTrip(f, 8);
    ReadExactFramed(BigEndian(f, 8), rest, 8);
  }

  lemma DayFramed(d: Date, rest: seq<byte>)
    ensures DecodeDay(WriteDate(d) + rest) == Got(Day(d), rest)
  {
    DateFramed(d, []);
    assert WriteDate(d) + [] == WriteDate(d);
    ReadExactFramed(WriteDate(d), rest, 4);
  }

  lemma BlockBody(payload: seq<byte>, rest: seq<byte>)
    requires WriteBlock(payload).Ok?
    ensures ReadBlock(WriteBlock(payload).value + rest) == Got(payload, rest)
  {
    ReadBlockFramed(payload, rest);
  }

  lemma TextBody(text: string, rest: seq<byte>)
    requires WriteBlock(Utf8.Encode(text)).Ok?
    ensures ReadText(WriteBlock(Utf8.Encode(text)).value + rest) == Got(text, rest)
  {
    BlockBody(Utf8.Encode(text), rest);
    Utf8.DecodeEncode(text);
  }

  lemma VariableBody(rd: Renderings, v: Value, rest: seq<byte>)
    requires rd.Faithful() && EncodeBody(rd, v).Ok? && (v.Dec? || v.Str? || v.Bytes?)
    ensures DecodeBody(rd, TagOf(v), EncodeBody(rd, v).value + rest) == Got(v, rest)
  {
    match v {
      case Dec(d) => TextBody(rd.decimalText(d), rest);
      case Str(s) => TextBody(s, rest);
      case Bytes(payload) => BlockBody(payload, rest);
    }
  }

  lemma BodyRoundTrip(rd: Renderings, v: Value, rest: seq<byte>)
    requires rd.Faithful() && EncodeBody(rd, v).Ok?
    ensures DecodeBody(rd, TagOf(v), EncodeBody(rd, v).value + rest) == Got(v, rest)
  {
    if v.Dec? || v.Str? || v.Bytes? {
      VariableBody(rd, v, rest);
    } else if v.Stamp? {
      StampBody(rd, v, rest);
    } else {
      FixedBody(rd, v, rest);
    }
  }

  lemma FixedBody(rd: Renderings, v: Value, rest: seq<byte>)
    requires EncodeBody(rd, v).Ok? && !v.Dec? && !v.Str? && !v.Bytes? && !v.Stamp?
    ensures DecodeBody(rd, TagOf(v), EncodeBody(rd, v).value + rest) == Got(v, rest)
  {
    match v {
      case Null => assert [] + rest == rest;
      case Bool(_) => assert [] + rest == rest;
      case Int(n) => IntFramed(n, rest);
      case Real(f) => FloatFramed(f, rest);
      case Day(d) => DayFramed(d, rest);
    }
  }

  lemma StampBody(rd: Renderings, v: Value, rest: seq<byte>)
    requires EncodeBody(rd, v).Ok? && v.Stamp?
    ensures DecodeBody(rd, TagOf(v), EncodeBody(rd, v).value + rest) == Got(v, rest)
  {
    StampFramed(v.day, v.time, v.zone, rest);
  }

  /** Every value the writer accepts is read back exactly, whatever follows it. */
  lemma ValueRoundTrip(rd: Renderings, v: Value, rest: seq<byte>)
    requires rd.Faithful() && EncodeValue(rd, v).Ok?
    ensures DecodeValue(rd, EncodeValue(rd, v).value + rest) == Got(v, rest)
  {
    var e := EncodeValue(rd, v).value;
    assert e + rest == [e[0]] + (e[1..] + rest);
    assert (e + rest)[1..] == e[1..] + rest;
    BodyRoundTrip(rd, v, rest);
  }

  /** A value cut anywhere is a short read, never a shorter value. */
  lemma ValueCut(rd: Renderings, v: Value, k: nat)
    requires EncodeValue(rd, v).Ok? && k < |EncodeValue(rd, v).value|
    ensures DecodeValue(rd, EncodeValue(rd, v).value[..k]) == Short
  {
    if k >= 1 {
      var body := EncodeBody(rd, v).value;
      assert EncodeValue(rd, v).value[..k][1..] == body[..k - 1];
      match v
      case Int(n) => IntCut(n, k - 1);
      case Dec(d) => ReadBlockCut(Utf8.Encode(rd.decimalText(d)), k - 1);
      case Str(s) => ReadBlockCut(Utf8.Encode(s), k - 1);
      case Bytes(payload) => ReadBlockCut(payload, k - 1);
      case Stamp(d, t, z) => StampCut(d, t, z, k - 1);
      case _ =>
    }
  }
}
