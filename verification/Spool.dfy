/** Neutral spool streams: preamble, rows, terminator, and the methods that
    write and read them on a byte stream (task_core/db/spool_format.py,
    lines 669-799). */
module Spool {
  import opened Values
  import opened Bytes
  import opened SpoolFormat
  import Utf8

  // -- values and rows --------------------------------------------------------

  function EncodeValues(rd: Renderings, vs: seq<Value>): Result<seq<byte>> {
    if vs == [] then Ok([])
    else
      var first :- EncodeValue(rd, vs[0]);
      var others :- EncodeValues(rd, vs[1..]);
      Ok(first + others)
  }

  function DecodeValues(rd: Renderings, b: seq<byte>, count: nat): Read<seq<Value>> {
    if count == 0 then Got([], b)
    else
      var (v, rest) :- DecodeValue(rd, b);
      var (vs, rest') :- DecodeValues(rd, rest, count - 1);
      Got([v] + vs, rest')
  }

  function EncodeRow(rd: Renderings, row: seq<Value>, width: nat): Result<seq<byte>> {
    if |row| != width then Err
    else
      var values :- EncodeValues(rd, row);
      Ok([ROW_START] + values)
  }

  /** read_neutral_row: None at the terminator. */
  function DecodeRow(rd: Renderings, b: seq<byte>, width: nat): Read<Option<seq<Value>>> {
    if b == [] then Short
    else if b[0] == TERMINATOR then Got(None, b[1..])
    else if b[0] != ROW_START then Malformed
    else
      var (vs, rest) :- DecodeValues(rd, b[1..], width);
      Got(Some(vs), rest)
  }

  function EncodeRows(rd: Renderings, rows: seq<seq<Value>>, width: nat): Result<seq<byte>> {
    if rows == [] then Ok([])
    else
      var first :- EncodeRow(rd, rows[0], width);
      var others :- EncodeRows(rd, rows[1..], width);
      Ok(first + others)
  }

  lemma {:induction false} DecodeValuesShrinks(rd: Renderings, b: seq<byte>, count: nat)
    ensures DecodeValues(rd, b, count).Got? ==> |DecodeValues(rd, b, count).rest| <= |b|
  {
    if count > 0 && DecodeValue(rd, b).Got? {
      DecodeValueShrinks(rd, b);
      DecodeValuesShrinks(rd, DecodeValue(rd, b).rest, count - 1);
    }
  }

  lemma DecodeValueShrinks(rd: Renderings, b: seq<byte>)
    ensures DecodeValue(rd, b).Got? ==> |DecodeValue(rd, b).rest| < |b|
  {
  }

  /** Rows up to and including the terminator. */
  function DecodeRows(rd: Renderings, b: seq<byte>, width: nat): Read<seq<seq<Value>>>
    decreases |b|
  {
    var (row, rest) :- DecodeRow(rd, b, width);
    if row.None? then Got([], rest)
    else
      DecodeValuesShrinks(rd, b[1..], width);
      var (rows, rest') :- DecodeRows(rd, rest, width);
      Got([row.value] + rows, rest')
  }

  lemma {:induction false} ValuesRoundTrip(rd: Renderings, vs: seq<Value>, rest: seq<byte>)
    requires rd.Faithful() && EncodeValues(rd, vs).Ok?
    ensures DecodeValues(rd, EncodeValues(rd, vs).value + rest, |vs|) == Got(vs, rest)
  {
    if vs == [] {
      assert [] + rest == rest;
    } else {
      var first, others := EncodeValue(rd, vs[0]).value, EncodeValues(rd, vs[1..]).value;
      assert first + others + rest == first + (others + rest);
      ValueRoundTrip(rd, vs[0], others + rest);
      ValuesRoundTrip(rd, vs[1..], rest);
      assert [vs[0]] + vs[1..] == vs;
    }
  }

  lemma FirstCut(rd: Renderings, v: Value, k: nat, count: nat)
    requires EncodeValue(rd, v).Ok? && k < |EncodeValue(rd, v).value| && count > 0
    ensures DecodeValues(rd, EncodeValue(rd, v).value[..k], count) == Short
  {
    ValueCut(rd, v, k);
  }

  lemma LaterCut(rd: Renderings, v: Value, tail: seq<byte>, count: nat)
    requires rd.Faithful() && EncodeValue(rd, v).Ok? && count > 0 && DecodeValues(rd, tail, count - 1) == Short
    ensures DecodeValues(rd, EncodeValue(rd, v).value + tail, count) == Short
  {
    ValueRoundTrip(rd, v, tail);
  }

  /** Values are short when the first is cut, or when those after it are short. */
  lemma CutStep(rd: Renderings, vs: seq<Value>, others: seq<byte>, whole: seq<byte>, k: nat)
    requires rd.Faithful() && vs != [] && EncodeValue(rd, vs[0]).Ok? && k < |whole|
    requires whole == EncodeValue(rd, vs[0]).value + others
    requires var first := |EncodeValue(rd, vs[0]).value|;
      k >= first ==> DecodeValues(rd, others[..k - first], |vs[1..]|) == Short
    ensures DecodeValues(rd, whole[..k], |vs|) == Short
  {
    var first := EncodeValue(rd, vs[0]).value;
    if k < |first| {
      assert whole[..k] == first[..k];
      FirstCut(rd, vs[0], k, |vs|);
    } else {
      assert whole[..k] == first + others[..k - |first|];
      LaterCut(rd, vs[0], others[..k - |first|], |vs|);
    }
  }

  lemma {:induction false} ValuesCut(rd: Renderings, vs: seq<Value>, k: nat)
    requires rd.Faithful() && EncodeValues(rd, vs).Ok? && k < |EncodeValues(rd, vs).value|
    ensures DecodeValues(rd, EncodeValues(rd, vs).value[..k], |vs|) == Short
  {
    var first := |EncodeValue(rd, vs[0]).value|;
    if k >= first {
      ValuesCut(rd, vs[1..], k - first);
    }
    CutStep(rd, vs, EncodeValues(rd, vs[1..]).value, EncodeValues(rd, vs).value, k);
  }

  lemma RowRoundTrip(rd: Renderings, row: seq<Value>, width: nat, rest: seq<byte>)
    requires rd.Faithful() && EncodeRow(rd, row, width).Ok?
    ensures DecodeRow(rd, EncodeRow(rd, row, width).value + rest, width) == Got(Some(row), rest)
  {
    var values := EncodeValues(rd, row).value;
    ValuesRoundTrip(rd, row, rest);
    Bytes.Assoc([ROW_START], values, rest);
    assert ([ROW_START] + (values + rest))[1..] == values + rest;
  }

  lemma RowCut(rd: Renderings, row: seq<Value>, width: nat, k: nat)
    requires rd.Faithful() && EncodeRow(rd, row, width).Ok? && k < |EncodeRow(rd, row, width).value|
    ensures DecodeRow(rd, EncodeRow(rd, row, width).value[..k], width) == Short
  {
    if k >= 1 {
      assert EncodeRow(rd, row, width).value[..k][1..] == EncodeValues(rd, row).value[..k - 1];
      ValuesCut(rd, row, k - 1);
    }
  }

  lemma {:induction false} RowsRoundTrip(rd: Renderings, rows: seq<seq<Value>>, width: nat, rest: seq<byte>)
    requires rd.Faithful() && EncodeRows(rd, rows, width).Ok?
    ensures DecodeRows(rd, EncodeRows(rd, rows, width).value + [TERMINATOR] + rest, width) == Got(rows, rest)
  {
    if rows == [] {
      assert ([] + [TERMINATOR] + rest)[1..] == rest;
    } else {
      var first, others := EncodeRow(rd, rows[0], width).value, EncodeRows(rd, rows[1..], width).value;
      assert first + others + [TERMINATOR] + rest == first + (others + [TERMINATOR] + rest);
      RowRoundTrip(rd, rows[0], width, others + [TERMINATOR] + rest);
      RowsRoundTrip(rd, rows[1..], width, rest);
      assert [rows[0]] + rows[1..] == rows;
    }
  }

  lemma {:induction false} RowsCut(rd: Renderings, rows: seq<seq<Value>>, width: nat, k: nat)
    requires rd.Faithful() && EncodeRows(rd, rows, width).Ok? && k <= |EncodeRows(rd, rows, width).value|
    ensures DecodeRows(rd, EncodeRows(rd, rows, width).value[..k], width) == Short
  {
    if rows != [] {
      var first, others := EncodeRow(rd, rows[0], width).value, EncodeRows(rd, rows[1..], width).value;
      if k < |first| {
        assert (first + others)[..k] == first[..k];
        RowCut(rd, rows[0], width, k);
      } else {
        var cut := others[..k - |first|];
        assert (first + others)[..k] == first + cut;
        RowRoundTrip(rd, rows[0], width, cut);
        RowsCut(rd, rows[1..], width, k - |first|);
      }
    }
  }

  // -- preamble -----------------------------------------------------------------

  const MAX_COLUMNS := 0x1_0000_0000

  function EncodeNames(columns: seq<string>): Result<seq<byte>> {
    if columns == [] then Ok([])
    else
      var first :- WriteBlock(Utf8.Encode(columns[0]));
      var others :- EncodeNames(columns[1..]);
      Ok(first + others)
  }

  function EncodePreamble(columns: seq<string>): Result<seq<byte>> {
    if |columns| >= MAX_COLUMNS then Err
    else
      var names :- EncodeNames(columns);
      Ok(BigEndian(|columns|, 4) + names)
  }

  function DecodeNames(b: seq<byte>, count: nat): Read<seq<string>> {
    if count == 0 then Got([], b)
    else
      var (name, rest) :- ReadText(b);
      var (names, rest') :- DecodeNames(rest, count - 1);
      Got([name] + names, rest')
  }

  function DecodePreamble(b: seq<byte>): Read<seq<string>> {
    var (count, rest) :- ReadUint(b, 4);
    DecodeNames(rest, count)
  }

  lemma {:induction false} NamesRoundTrip(columns: seq<string>, rest: seq<byte>)
    requires EncodeNames(columns).Ok?
    ensures DecodeNames(EncodeNames(columns).value + rest, |columns|) == Got(columns, rest)
  {
    if columns == [] {
      assert [] + rest == rest;
    } else {
      var first, others := WriteBlock(Utf8.Encode(columns[0])).value, EncodeNames(columns[1..]).value;
      Assoc(first, others, rest);
      TextBody(columns[0], others + rest);
      NamesRoundTrip(columns[1..], rest);
      assert [columns[0]] + columns[1..] == columns;
    }
  }

  lemma FirstNameCut(columns: seq<string>, k: nat)
    requires columns != [] && EncodeNames(columns).Ok? && k < |WriteBlock(Utf8.Encode(columns[0])).value|
    ensures DecodeNames(EncodeNames(columns).value[..k], |columns|) == Short
  {
    var first := WriteBlock(Utf8.Encode(columns[0])).value;
    assert EncodeNames(columns).value[..k] == first[..k];
    ReadBlockCut(Utf8.Encode(columns[0]), k);
  }

  lemma {:induction false} NamesCut(columns: seq<string>, k: nat)
    requires EncodeNames(columns).Ok? && k < |EncodeNames(columns).value|
    ensures DecodeNames(EncodeNames(columns).value[..k], |columns|) == Short
  {
    var first, others := WriteBlock(Utf8.Encode(columns[0])).value, EncodeNames(columns[1..]).value;
    if k < |first| {
      FirstNameCut(columns, k);
    } else {
      var cut := others[..k - |first|];
      assert (first + others)[..k] == first + cut;
      TextBody(columns[0], cut);
      NamesCut(columns[1..], k - |first|);
    }
  }

  lemma PreambleRoundTrip(columns: seq<string>, rest: seq<byte>)
    requires EncodePreamble(columns).Ok?
    ensures DecodePreamble(EncodePreamble(columns).value + rest) == Got(columns, rest)
  {
    var names := EncodeNames(columns).value;
    assert EncodePreamble(columns).value + rest == BigEndian(|columns|, 4) + (names + rest);
    CountFramed(|columns|, names + rest);
    NamesRoundTrip(columns, rest);
  }

  lemma PreambleCut(columns: seq<string>, k: nat)
    requires EncodePreamble(columns).Ok? && k < |EncodePreamble(columns).value|
    ensures DecodePreamble(EncodePreamble(columns).value[..k]) == Short
  {
    if k >= 4 {
      var cut := EncodeNames(columns).value[..k - 4];
      assert EncodePreamble(columns).value[..k] == BigEndian(|columns|, 4) + cut;
      CountFramed(|columns|, cut);
      NamesCut(columns, k - 4);
    }
  }

  // -- whole streams ----------------------------------------------------------------

  function EncodeStream(rd: Renderings, columns: seq<string>, rows: seq<seq<Value>>): Result<seq<byte>> {
    var preamble :- EncodePreamble(columns);
    var body :- EncodeRows(rd, rows, |columns|);
    Ok(preamble + body + [TERMINATOR])
  }

  function DecodeStream(rd: Renderings, b: seq<byte>): Read<(seq<string>, seq<seq<Value>>)> {
    var (columns, rest) :- DecodePreamble(b);
    var (rows, rest') :- DecodeRows(rd, rest, |columns|);
    Got((columns, rows), rest')
  }

  /** Whatever the writers accept is read back exactly, up to the terminator. */
  lemma StreamRoundTrip(rd: Renderings, columns: seq<string>, rows: seq<seq<Value>>, rest: seq<byte>)
    requires rd.Faithful() && EncodeStream(rd, columns, rows).Ok?
    ensures DecodeStream(rd, EncodeStream(rd, columns, rows).value + rest) == Got((columns, rows), rest)
  {
    var preamble, body := EncodePreamble(columns).value, EncodeRows(rd, rows, |columns|).value;
    assert EncodeStream(rd, columns, rows).value + rest == preamble + (body + [TERMINATOR] + rest);
    PreambleRoundTrip(columns, body + [TERMINATOR] + rest);
    RowsRoundTrip(rd, rows, |columns|, rest);
  }

  /** Every strict prefix of a written stream makes the reader raise; none
      reads as a shorter stream. */
  lemma StreamCut(rd: Renderings, columns: seq<string>, rows: seq<seq<Value>>, k: nat)
    requires rd.Faithful() && EncodeStream(rd, columns, rows).Ok?
    requires k < |EncodeStream(rd, columns, rows).value|
    ensures DecodeStream(rd, EncodeStream(rd, columns, rows).value[..k]) == Short
  {
    var preamble, body := EncodePreamble(columns).value, EncodeRows(rd, rows, |columns|).value;
    if k < |preamble| {
      assert EncodeStream(rd, columns, rows).value[..k] == preamble[..k];
      PreambleCut(columns, k);
    } else {
      var cut := body[..k - |preamble|];
      assert EncodeStream(rd, columns, rows).value[..k] == preamble + cut;
      PreambleRoundTrip(columns, cut);
      RowsCut(rd, rows, |columns|, k - |preamble|);
    }
  }

  lemma {:induction false} EncodeRowsAppend(rd: Renderings, rows: seq<seq<Value>>, row: seq<Value>, width: nat)
    ensures EncodeRows(rd, rows + [row], width) ==
      if EncodeRows(rd, rows, width).Err? || EncodeRow(rd, row, width).Err? then Err
      else Ok(EncodeRows(rd, rows, width).value + EncodeRow(rd, row, width).value)
  {
    if rows == [] {
      assert [] + [row] == [row];
      assert EncodeRows(rd, [row][1..], width) == Ok([]);
      if EncodeRow(rd, row, width).Ok? {
        var e := EncodeRow(rd, row, width).value;
        assert e + [] == e == [] + e;
      }
    } else {
      assert (rows + [row])[0] == rows[0] && (rows + [row])[1..] == rows[1..] + [row];
      EncodeRowsAppend(rd, rows[1..], row, width);
      if EncodeRows(rd, rows, width).Ok? && EncodeRow(rd, row, width).Ok? {
        var first, others := EncodeRow(rd, rows[0], width).value, EncodeRows(rd, rows[1..], width).value;
        assert first + (others + EncodeRow(rd, row, width).value) == first + others + EncodeRow(rd, row, width).value;
      }
    }
  }

  lemma {:induction false} EncodeValuesAppend(rd: Renderings, vs: seq<Value>, v: Value)
    ensures EncodeValues(rd, vs + [v]) ==
      if EncodeValues(rd, vs).Err? || EncodeValue(rd, v).Err? then Err
      else Ok(EncodeValues(rd, vs).value + EncodeValue(rd, v).value)
  {
    if vs == [] {
      assert [] + [v] == [v];
      assert EncodeValues(rd, [v][1..]) == Ok([]);
      if EncodeValue(rd, v).Ok? {
        var e := EncodeValue(rd, v).value;
        assert e + [] == e == [] + e;
      }
    } else {
      assert (vs + [v])[0] == vs[0] && (vs + [v])[1..] == vs[1..] + [v];
      EncodeValuesAppend(rd, vs[1..], v);
      if EncodeValues(rd, vs).Ok? && EncodeValue(rd, v).Ok? {
        var first, others := EncodeValue(rd, vs[0]).value, EncodeValues(rd, vs[1..]).value;
        assert first + (others + EncodeValue(rd, v).value) == first + others + EncodeValue(rd, v).value;
      }
    }
  }

  lemma {:induction false} EncodeValuesRefused(rd: Renderings, vs: seq<Value>, i: nat)
    requires i < |vs| && EncodeValue(rd, vs[i]).Err?
    ensures EncodeValues(rd, vs).Err?
  {
    if i > 0 {
      EncodeValuesRefused(rd, vs[1..], i - 1);
    }
  }

  // -- stream methods ------------------------------------------------------------------

  /** A file body being written. */
  class ByteStream {
    var data: seq<byte>

    constructor ()
      ensures data == []
    {
      data := [];
    }

    method Write(bytes: seq<byte>)
      modifies this`data
      ensures data == old(data) + bytes
    {
      data := data + bytes;
    }
  }

  /** One buffered row, written whole or not at all. */
  method WriteNeutralRow(rd: Renderings, fp: ByteStream, row: seq<Value>, width: nat) returns (ok: bool)
    modifies fp`data
    ensures ok <==> EncodeRow(rd, row, width).Ok?
    ensures fp.data == if ok then old(fp.data) + EncodeRow(rd, row, width).value else old(fp.data)
  {
    if |row| != width {
      return false;
    }
    var buffer := [ROW_START];
    var i := 0;
    while i < |row|
      invariant 0 <= i <= |row|
      invariant fp.data == old(fp.data)
      invariant EncodeValues(rd, row[..i]).Ok? && buffer == [ROW_START] + EncodeValues(rd, row[..i]).value
    {
      var e := EncodeValue(rd, row[i]);
      if e.Err? {
        EncodeValuesRefused(rd, row, i);
        return false;
      }
      EncodeValuesAppend(rd, row[..i], row[i]);
      assert row[..i + 1] == row[..i] + [row[i]];
      buffer := buffer + e.value;
      i := i + 1;
    }
    assert row[..i] == row;
    fp.Write(buffer);
    return true;
  }

  /** What a read of the values still ahead adds to those already read. */
  function Prefixed(values: seq<Value>, more: Read<seq<Value>>): Read<seq<Value>> {
    var (vs, rest) :- more;
    Got(values + vs, rest)
  }

  lemma PrefixedNothing(more: Read<seq<Value>>)
    ensures Prefixed([], more) == more
  {
    if more.Got? {
      assert [] + more.value == more.value;
    }
  }

  lemma PrefixedStep(rd: Renderings, values: seq<Value>, b: seq<byte>, count: nat)
    requires count > 0
    ensures Prefixed(values, DecodeValues(rd, b, count)) ==
      match DecodeValue(rd, b)
      case Got(v, rest) => Prefixed(values + [v], DecodeValues(rd, rest, count - 1))
      case Short => Short
      case Malformed => Malformed
  {
    if DecodeValue(rd, b).Got? {
      var v, more := DecodeValue(rd, b).value, DecodeValues(rd, DecodeValue(rd, b).rest, count - 1);
      if more.Got? {
        assert values + ([v] + more.value) == values + [v] + more.value;
      }
    }
  }

  /** The reader's loop over one row's values; Err is the raised format error. */
  method ReadNeutralRow(rd: Renderings, b: seq<byte>, width: nat)
    returns (r: Result<Option<seq<Value>>>, rest: seq<byte>)
    ensures var expected := DecodeRow(rd, b, width);
      if expected.Got? then r == Ok(expected.value) && rest == expected.rest else r == Err
  {
    rest := b;
    if b == [] || (b[0] != TERMINATOR && b[0] != ROW_START) {
      return Err, rest;
    }
    rest := b[1..];
    if b[0] == TERMINATOR {
      return Ok(None), rest;
    }
    var values: seq<Value> := [];
    var i := 0;
    PrefixedNothing(DecodeValues(rd, rest, width));
    while i < width
      invariant 0 <= i <= width
      invariant DecodeValues(rd, b[1..], width) == Prefixed(values, DecodeValues(rd, rest, width - i))
    {
      PrefixedStep(rd, values, rest, width - i);
      var one := DecodeValue(rd, rest);
      if !one.Got? {
        return Err, rest;
      }
      values, rest := values + [one.value], one.rest;
      i := i + 1;
    }
    assert Prefixed(values, Got([], rest)) == Got(values, rest) by { assert values + [] == values; }
    return Ok(Some(values)), rest;
  }

  // -- short writes -----------------------------------------------------------------------

  /** A raw stream may take any non-empty part of what it is given, or nothing. */
  class RawStream {
    var data: seq<byte>

    method Write(view: seq<byte>) returns (written: int)
      requires view != []
      modifies this
      ensures written <= |view|
      ensures data == old(data) + (if written > 0 then view[..written] else [])
    {
      var n: int := *;
      written := if n > |view| then |view| else n;
      if written > 0 {
        data := data + view[..written];
      }
    }
  }

  /** _write_all: every byte in order, or a raised failure after a prefix. */
  method WriteAll(fp: RawStream, bytes: seq<byte>) returns (ok: bool)
    modifies fp
    ensures ok ==> fp.data == old(fp.data) + bytes
    ensures !ok ==> exists k :: 0 <= k < |bytes| && fp.data == old(fp.data) + bytes[..k]
  {
    var view := bytes;
    ghost var sent := 0;
    while view != []
      invariant 0 <= sent <= |bytes| && view == bytes[sent..]
      invariant fp.data == old(fp.data) + bytes[..sent]
      decreases |view|
    {
      var written := fp.Write(view);
      if written <= 0 {
        return false;
      }
      assert bytes[..sent] + view[..written] == bytes[..sent + written];
      sent := sent + written;
      view := view[written..];
    }
    return true;
  }
}
