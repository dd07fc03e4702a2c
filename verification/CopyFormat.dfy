/** COPY text: the escaping the project writes, and the grammar PostgreSQL reads
    (PostgreSQL documentation, COPY, "File Formats", "Text Format"). */
module CopyFormat {
  import opened Values
  import Utf8

  const TAB: byte := 0x09
  const LF: byte := 0x0A
  const CR: byte := 0x0D
  const DOT: byte := 0x2E
  const UPPER_N: byte := 0x4E
  const BACKSLASH: byte := 0x5C

  const NULL_FIELD: seq<byte> := [BACKSLASH, UPPER_N]
  const END_MARKER: seq<byte> := [BACKSLASH, DOT]

  // -- escaping -------------------------------------------------------------

  /** str.replace for a one-character pattern. */
  function Replace(s: string, c: char, sub: string): string {
    if s == "" then "" else (if s[0] == c then sub else [s[0]]) + Replace(s[1..], c, sub)
  }

  /** The four replacements, backslash first. */
  function EscapeSequential(s: string): string {
    Replace(Replace(Replace(Replace(s, '\\', "\\\\"), '\t', "\\t"), '\n', "\\n"), '\r', "\\r")
  }

  function EscapeChar(c: char): string {
    if c == '\\' then "\\\\"
    else if c == '\t' then "\\t"
    else if c == '\n' then "\\n"
    else if c == '\r' then "\\r"
    else [c]
  }

  /** Each character escaped on its own, in one pass. */
  function EscapeOnePass(s: string): string {
    if s == "" then "" else EscapeChar(s[0]) + EscapeOnePass(s[1..])
  }

  function EscapeText(s: string): seq<byte> { Utf8.Encode(EscapeSequential(s)) }

  lemma {:induction false} ReplaceConcat(s: string, t: string, c: char, sub: string)
    ensures Replace(s + t, c, sub) == Replace(s, c, sub) + Replace(t, c, sub)
  {
    if s == "" {
      assert s + t == t;
    } else {
      ReplaceConcat(s[1..], t, c, sub);
      assert (s + t)[1..] == s[1..] + t;
    }
  }

  lemma ReplaceOne(a: char, c: char, sub: string)
    ensures Replace([a], c, sub) == if a == c then sub else [a]
  {
    assert Replace([a][1..], c, sub) == "";
  }

  lemma ReplaceTwo(a: char, b: char, c: char, sub: string)
    requires a != c && b != c
    ensures Replace([a, b], c, sub) == [a, b]
  {
    assert [a, b][1..] == [b];
    ReplaceOne(b, c, sub);
  }

  lemma EscapeSequentialChar(c: char)
    ensures EscapeSequential([c]) == EscapeChar(c)
  {
    ReplaceOne(c, '\\', "\\\\");
    if c == '\\' {
      ReplaceTwo('\\', '\\', '\t', "\\t");
      ReplaceTwo('\\', '\\', '\n', "\\n");
      ReplaceTwo('\\', '\\', '\r', "\\r");
    } else {
      ReplaceOne(c, '\t', "\\t");
      if c == '\t' {
        ReplaceTwo('\\', 't', '\n', "\\n");
        ReplaceTwo('\\', 't', '\r', "\\r");
      } else {
        ReplaceOne(c, '\n', "\\n");
        if c == '\n' {
          ReplaceTwo('\\', 'n', '\r', "\\r");
        } else {
          ReplaceOne(c, '\r', "\\r");
        }
      }
    }
  }

  /** Four whole-string replacements do what one per-character pass does. */
  lemma {:induction false} SequentialIsOnePass(s: string)
    ensures EscapeSequential(s) == EscapeOnePass(s)
  {
    if s != "" {
      SequentialIsOnePass(s[1..]);
      EscapeSequentialChar(s[0]);
      assert s == [s[0]] + s[1..];
      var t := s[1..];
      ReplaceConcat([s[0]], t, '\\', "\\\\");
      var s1, t1 := Replace([s[0]], '\\', "\\\\"), Replace(t, '\\', "\\\\");
      ReplaceConcat(s1, t1, '\t', "\\t");
      var s2, t2 := Replace(s1, '\t', "\\t"), Replace(t1, '\t', "\\t");
      ReplaceConcat(s2, t2, '\n', "\\n");
      ReplaceConcat(Replace(s2, '\n', "\\n"), Replace(t2, '\n', "\\n"), '\r', "\\r");
    }
  }

  function EscapeByte(b: byte): seq<byte> {
    if b == BACKSLASH then [BACKSLASH, BACKSLASH]
    else if b == TAB then [BACKSLASH, 0x74]
    else if b == LF then [BACKSLASH, 0x6E]
    else if b == CR then [BACKSLASH, 0x72]
    else [b]
  }

  function EscapeBytes(bytes: seq<byte>): seq<byte> {
    if bytes == [] then [] else EscapeByte(bytes[0]) + EscapeBytes(bytes[1..])
  }

  lemma {:induction false} EscapeBytesConcat(a: seq<byte>, b: seq<byte>)
    ensures EscapeBytes(a + b) == EscapeBytes(a) + EscapeBytes(b)
  {
    if a == [] {
      assert a + b == b;
    } else {
      EscapeBytesConcat(a[1..], b);
      assert (a + b)[1..] == a[1..] + b;
      Regroup(EscapeByte(a[0]), EscapeBytes(a[1..]), EscapeBytes(b), []);
    }
  }

  lemma {:induction false} EscapeBytesPlain(b: seq<byte>)
    requires forall i | 0 <= i < |b| :: b[i] !in {BACKSLASH, TAB, LF, CR}
    ensures EscapeBytes(b) == b
  {
    if b != [] {
      EscapeBytesPlain(b[1..]);
    }
  }

  lemma EncodeOneChar(c: char)
    ensures Utf8.Encode([c]) == Utf8.EncodeChar(c)
  {
    assert Utf8.Encode([c][1..]) == [];
  }

  /** Escaping characters and encoding is encoding and escaping bytes. */
  lemma EscapeCharBytes(c: char)
    ensures Utf8.Encode(EscapeChar(c)) == EscapeBytes(Utf8.EncodeChar(c))
  {
    EncodeOneChar(c);
    if c in {'\\', '\t', '\n', '\r'} {
      var e := EscapeChar(c);
      EncodeOneChar(e[1]);
      assert e == [e[0]] + [e[1]] && e[1..] == [e[1]];
      assert Utf8.EncodeChar(c) == [c as int];
      assert EscapeBytes([c as int]) == EscapeByte(c as int) + EscapeBytes([]);
    } else {
      EscapeBytesPlain(Utf8.EncodeChar(c));
    }
  }

  lemma {:induction false} EscapeTextBytes(s: string)
    ensures EscapeText(s) == EscapeBytes(Utf8.Encode(s))
  {
    SequentialIsOnePass(s);
    if s != "" {
      SequentialIsOnePass(s[1..]);
      EscapeTextBytes(s[1..]);
      EscapeCharBytes(s[0]);
      Utf8.EncodeConcat(EscapeChar(s[0]), EscapeOnePass(s[1..]));
      EscapeBytesConcat(Utf8.EncodeChar(s[0]), Utf8.Encode(s[1..]));
    }
  }

  // -- the grammar PostgreSQL reads ------------------------------------------------

  predicate IsOctal(b: byte) { 0x30 <= b <= 0x37 }

  predicate IsHex(b: byte) { 0x30 <= b <= 0x39 || 0x41 <= b <= 0x46 || 0x61 <= b <= 0x66 }

  function HexDigit(b: byte): (d: int)
    requires IsHex(b)
    ensures 0 <= d < 16
  {
    if b <= 0x39 then b - 0x30 else if b <= 0x46 then b - 0x41 + 10 else b - 0x61 + 10
  }

  /** The byte an escape after a backslash denotes, and the bytes it spans. */
  function EscapeMeaning(b: seq<byte>): (r: (byte, nat))
    requires b != []
    ensures 1 <= r.1 <= |b|
  {
    if b[0] == 0x62 then (0x08, 1)
    else if b[0] == 0x66 then (0x0C, 1)
    else if b[0] == 0x6E then (LF, 1)
    else if b[0] == 0x72 then (CR, 1)
    else if b[0] == 0x74 then (TAB, 1)
    else if b[0] == 0x76 then (0x0B, 1)
    else if IsOctal(b[0]) then
      if |b| >= 2 && IsOctal(b[1]) then
        if |b| >= 3 && IsOctal(b[2]) then
          (OctalByte(b[0], b[1], b[2]), 3)
        else (OctalByte(0x30, b[0], b[1]), 2)
      else (OctalByte(0x30, 0x30, b[0]), 1)
    else if b[0] == 0x78 && |b| >= 2 && IsHex(b[1]) then
      if |b| >= 3 && IsHex(b[2]) then (HexDigit(b[1]) * 16 + HexDigit(b[2]), 3)
      else (HexDigit(b[1]), 2)
    else (b[0], 1)
  }

  function OctalByte(a: int, b: int, c: int): (r: byte) {
    ((a - 0x30) * 64 + (b - 0x30) * 8 + (c - 0x30)) % 256
  }

  /** A field's data; a backslash with nothing after it is dropped. */
  function Unescape(raw: seq<byte>): seq<byte> {
    if raw == [] then []
    else if raw[0] != BACKSLASH then [raw[0]] + Unescape(raw[1..])
    else if |raw| == 1 then []
    else
      var (b, n) := EscapeMeaning(raw[1..]);
      [b] + Unescape(raw[1 + n..])
  }

  /** The line ahead, without its newline, and what follows.  A backslash takes
      the next byte with it; a bare carriage return is refused. */
  function RawLine(b: seq<byte>): (r: Result<(seq<byte>, seq<byte>)>)
    ensures r.Ok? && b != [] ==> |r.value.1| < |b|
    ensures r.Ok? && b == [] ==> r.value == ([], [])
  {
    if b == [] then Ok(([], []))
    else if b[0] == LF then Ok(([], b[1..]))
    else if b[0] == CR then Err
    else
      var n := if b[0] == BACKSLASH && |b| >= 2 then 2 else 1;
      var (line, rest) :- RawLine(b[n..]);
      Ok((b[..n] + line, rest))
  }

  /** The raw fields of a line: split at tabs no backslash protects. */
  function RawFields(line: seq<byte>): (r: seq<seq<byte>>)
    ensures |r| >= 1
  {
    if line == [] then [[]]
    else if line[0] == TAB then [[]] + RawFields(line[1..])
    else
      var n := if line[0] == BACKSLASH && |line| >= 2 then 2 else 1;
      var more := RawFields(line[n..]);
      [line[..n] + more[0]] + more[1..]
  }

  /** NULL is recognised on the raw field, before unescaping. */
  function DecodeField(raw: seq<byte>): Option<seq<byte>> {
    if raw == NULL_FIELD then None else Some(Unescape(raw))
  }

  function DecodeFields(raw: seq<seq<byte>>): (r: seq<Option<seq<byte>>>)
    ensures |r| == |raw|
  {
    if raw == [] then [] else [DecodeField(raw[0])] + DecodeFields(raw[1..])
  }

  /** Lines up to the end of input or an end-of-data marker on its own line. */
  function DecodeFile(b: seq<byte>): Result<seq<seq<Option<seq<byte>>>>>
    decreases |b|
  {
    if b == [] then Ok([])
    else
      var (line, rest) :- RawLine(b);
      if line == END_MARKER then Ok([])
      else
        var more :- DecodeFile(rest);
        Ok([DecodeFields(RawFields(line))] + more)
  }

  // -- round trip ------------------------------------------------------------------------

  function EncodeField(f: Option<seq<byte>>): seq<byte> {
    match f
    case None => NULL_FIELD
    case Some(bytes) => EscapeBytes(bytes)
  }

  function JoinFields(fields: seq<seq<byte>>): seq<byte> {
    if fields == [] then []
    else if |fields| == 1 then fields[0]
    else fields[0] + [TAB] + JoinFields(fields[1..])
  }

  function EncodeFields(row: seq<Option<seq<byte>>>): (r: seq<seq<byte>>)
    ensures |r| == |row|
  {
    if row == [] then [] else [EncodeField(row[0])] + EncodeFields(row[1..])
  }

  function EncodeLine(row: seq<Option<seq<byte>>>): seq<byte> { JoinFields(EncodeFields(row)) }

  function EncodeFile(rows: seq<seq<Option<seq<byte>>>>): seq<byte> {
    if rows == [] then [] else EncodeLine(rows[0]) + [LF] + EncodeFile(rows[1..])
  }

  lemma EscapePairMeaning(b: byte, rest: seq<byte>)
    requires |EscapeByte(b)| == 2
    ensures EscapeMeaning([EscapeByte(b)[1]] + rest) == (b, 1)
  {
  }

  lemma EscapeByteUnescapes(b: byte, rest: seq<byte>)
    ensures Unescape(EscapeByte(b) + rest) == [b] + Unescape(rest)
  {
    var e := EscapeByte(b);
    if |e| == 1 {
      assert (e + rest)[1..] == rest;
    } else {
      EscapePairMeaning(b, rest);
      assert (e + rest)[1..] == [e[1]] + rest;
      assert (e + rest)[2..] == rest;
    }
  }

  lemma {:induction false} UnescapeEscaped(bytes: seq<byte>)
    ensures Unescape(EscapeBytes(bytes)) == bytes
  {
    if bytes != [] {
      EscapeByteUnescapes(bytes[0], EscapeBytes(bytes[1..]));
      UnescapeEscaped(bytes[1..]);
    }
  }

  /** No data field, the two characters `\N` included, reads as NULL. */
  lemma EscapedNeverNull(bytes: seq<byte>)
    ensures EscapeBytes(bytes) != NULL_FIELD && EscapeBytes(bytes) != END_MARKER
  {
    if bytes != [] {
      var e := EscapeByte(bytes[0]);
      assert EscapeBytes(bytes)[0] == e[0];
      if |e| == 2 {
        assert EscapeBytes(bytes)[1] == e[1];
      }
    }
  }

  lemma FieldRoundTrip(f: Option<seq<byte>>)
    ensures DecodeField(EncodeField(f)) == f
  {
    if f.Some? {
      UnescapeEscaped(f.value);
      EscapedNeverNull(f.value);
    }
  }

  /** A line that has already given up the bytes t. */
  function After(t: seq<byte>, r: Result<(seq<byte>, seq<byte>)>): Result<(seq<byte>, seq<byte>)> {
    if r.Err? then Err else Ok((t + r.value.0, r.value.1))
  }

  lemma AfterTwice(s: seq<byte>, t: seq<byte>, r: Result<(seq<byte>, seq<byte>)>)
    ensures After(s, After(t, r)) == After(s + t, r)
    ensures After([], r) == r
  {
    if r.Ok? {
      assert s + (t + r.value.0) == (s + t) + r.value.0;
      assert [] + r.value.0 == r.value.0;
    }
  }

  lemma RawLineToken(t: seq<byte>, b: seq<byte>)
    requires (|t| == 1 && t[0] !in {LF, CR, BACKSLASH}) || (|t| == 2 && t[0] == BACKSLASH)
    ensures RawLine(t + b) == After(t, RawLine(b))
  {
    assert (t + b)[|t|..] == b && (t + b)[..|t|] == t;
  }

  lemma {:induction false} RawLineField(bytes: seq<byte>, b: seq<byte>)
    ensures RawLine(EscapeBytes(bytes) + b) == After(EscapeBytes(bytes), RawLine(b))
  {
    if bytes == [] {
      assert EscapeBytes(bytes) + b == b;
      AfterTwice([], [], RawLine(b));
    } else {
      var e, more := EscapeByte(bytes[0]), EscapeBytes(bytes[1..]);
      assert EscapeBytes(bytes) + b == e + (more + b);
      RawLineToken(e, more + b);
      RawLineField(bytes[1..], b);
      AfterTwice(e, more, RawLine(b));
    }
  }

  /** A written field passes through line reading untouched. */
  lemma RawLineEncoded(f: Option<seq<byte>>, b: seq<byte>)
    ensures RawLine(EncodeField(f) + b) == After(EncodeField(f), RawLine(b))
  {
    if f.None? {
      RawLineToken(NULL_FIELD, b);
    } else {
      RawLineField(f.value, b);
    }
  }

  lemma EncodeLineCons(row: seq<Option<seq<byte>>>)
    requires |row| >= 2
    ensures EncodeLine(row) == EncodeField(row[0]) + [TAB] + EncodeLine(row[1..])
  {
    assert EncodeFields(row)[1..] == EncodeFields(row[1..]);
  }

  /** Reading s, then whatever reading t leaves, is reading s + t. */
  lemma ReadInTurn(s: seq<byte>, t: seq<byte>, ahead: seq<byte>, behind: seq<byte>)
    requires RawLine(ahead) == After(t, RawLine(behind))
    requires RawLine(s + ahead) == After(s, RawLine(ahead))
    ensures RawLine(s + ahead) == After(s + t, RawLine(behind))
  {
    AfterTwice(s, t, RawLine(behind));
  }

  lemma Regroup(s: seq<byte>, t: seq<byte>, u: seq<byte>, v: seq<byte>)
    ensures s + t + u == s + (t + u)
    ensures s + t + u + v == s + (t + (u + v))
  {
  }

  lemma TabThenMore(more: seq<byte>, tail: seq<byte>)
    requires RawLine(more + tail) == After(more, RawLine(tail))
    ensures RawLine([TAB] + (more + tail)) == After([TAB] + more, RawLine(tail))
  {
    RawLineToken([TAB], more + tail);
    ReadInTurn([TAB], more, more + tail, tail);
  }

  lemma {:induction false} LineBeforeTail(row: seq<Option<seq<byte>>>, tail: seq<byte>)
    requires row != []
    ensures RawLine(EncodeLine(row) + tail) == After(EncodeLine(row), RawLine(tail))
  {
    var f := EncodeField(row[0]);
    if |row| == 1 {
      RawLineEncoded(row[0], tail);
    } else {
      var more := EncodeLine(row[1..]);
      LineBeforeTail(row[1..], tail);
      TabThenMore(more, tail);
      RawLineEncoded(row[0], [TAB] + (more + tail));
      ReadInTurn(f, [TAB] + more, [TAB] + (more + tail), tail);
      EncodeLineCons(row);
      Regroup(f, [TAB], more, tail);
    }
  }

  lemma LineReadBack(row: seq<Option<seq<byte>>>, rest: seq<byte>)
    requires row != []
    ensures RawLine(EncodeLine(row) + [LF] + rest) == Ok((EncodeLine(row), rest))
  {
    var tail := [LF] + rest;
    assert tail[1..] == rest;
    LineBeforeTail(row, tail);
    assert EncodeLine(row) + [LF] + rest == EncodeLine(row) + tail;
    assert EncodeLine(row) + [] == EncodeLine(row);
  }

  lemma RawFieldsToken(t: seq<byte>, b: seq<byte>)
    requires (|t| == 1 && t[0] !in {TAB, BACKSLASH}) || (|t| == 2 && t[0] == BACKSLASH)
    ensures RawFields(t + b) == [t + RawFields(b)[0]] + RawFields(b)[1..]
  {
    assert (t + b)[|t|..] == b && (t + b)[..|t|] == t;
  }

  lemma {:induction false} RawFieldsData(bytes: seq<byte>, b: seq<byte>)
    ensures RawFields(EscapeBytes(bytes) + b) == [EscapeBytes(bytes) + RawFields(b)[0]] + RawFields(b)[1..]
  {
    if bytes == [] {
      assert EscapeBytes(bytes) + b == b;
      assert [] + RawFields(b)[0] == RawFields(b)[0];
    } else {
      var e, more := EscapeByte(bytes[0]), EscapeBytes(bytes[1..]);
      Regroup(e, more, b, []);
      RawFieldsToken(e, more + b);
      RawFieldsData(bytes[1..], b);
      Regroup(e, more, RawFields(b)[0], []);
    }
  }

  lemma RawFieldsEncoded(f: Option<seq<byte>>, b: seq<byte>)
    ensures RawFields(EncodeField(f) + b) == [EncodeField(f) + RawFields(b)[0]] + RawFields(b)[1..]
  {
    if f.None? {
      RawFieldsToken(NULL_FIELD, b);
    } else {
      RawFieldsData(f.value, b);
    }
  }

  lemma {:induction false} FieldsSplit(row: seq<Option<seq<byte>>>)
    requires row != []
    ensures RawFields(EncodeLine(row)) == EncodeFields(row)
  {
    var f := EncodeField(row[0]);
    if |row| == 1 {
      RawFieldsEncoded(row[0], []);
      assert f + [] == f;
    } else {
      var more := EncodeLine(row[1..]);
      FieldsSplit(row[1..]);
      EncodeLineCons(row);
      assert f + [TAB] + more == f + ([TAB] + more);
      assert ([TAB] + more)[1..] == more;
      RawFieldsEncoded(row[0], [TAB] + more);
      assert f + [] == f;
    }
  }

  lemma DecodeFieldsCons(f: seq<byte>, more: seq<seq<byte>>)
    ensures DecodeFields([f] + more) == [DecodeField(f)] + DecodeFields(more)
  {
    assert ([f] + more)[1..] == more;
  }

  lemma {:induction false} FieldsReadBack(row: seq<Option<seq<byte>>>)
    ensures DecodeFields(EncodeFields(row)) == row
  {
    if row != [] {
      FieldRoundTrip(row[0]);
      FieldsReadBack(row[1..]);
      DecodeFieldsCons(EncodeField(row[0]), EncodeFields(row[1..]));
      assert [row[0]] + row[1..] == row;
    }
  }

  /** No written line is the end-of-data marker. */
  lemma NoEndMarker(row: seq<Option<seq<byte>>>)
    requires row != []
    ensures EncodeLine(row) != END_MARKER
  {
    var f := EncodeField(row[0]);
    if |row| == 1 {
      if row[0].Some? {
        EscapedNeverNull(row[0].value);
      }
    } else {
      EncodeLineCons(row);
      assert TAB in EncodeLine(row) by {
        assert EncodeLine(row)[|f|] == TAB;
      }
    }
  }

  /** Reading the file back by the COPY grammar returns exactly the rows
      written: every NULL, every byte, every boundary. */
  lemma {:induction false} FileRoundTrip(rows: seq<seq<Option<seq<byte>>>>)
    requires forall i | 0 <= i < |rows| :: rows[i] != []
    ensures DecodeFile(EncodeFile(rows)) == Ok(rows)
  {
    if rows != [] {
      LineReadBack(rows[0], EncodeFile(rows[1..]));
      NoEndMarker(rows[0]);
      FieldsSplit(rows[0]);
      FieldsReadBack(rows[0]);
      FileRoundTrip(rows[1..]);
      assert [rows[0]] + rows[1..] == rows;
    }
  }
}
