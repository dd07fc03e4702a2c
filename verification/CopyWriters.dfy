/** COPY rows: the generic serializer, and the compiled per-column writers that
    bypass it (task_core/db/copytext.py, 276-722). */
module CopyWriters {
  import opened Values
  import opened CopyText
  import opened PgText
  import F = CopyFormat
  import Numeric
  import Spool
  import Utf8

  // -- the generic row ---------------------------------------------------------------

  /** dict(zip(names, row)): a repeated name keeps its last value. */
  function RowMap(names: seq<string>, row: seq<Value>): map<string, Value>
    requires |names| == |row|
  {
    if names == [] then map[]
    else
      var n := |names| - 1;
      RowMap(names[..n], row[..n])[names[n] := row[n]]
  }

  function Cell(rd: Renderings, row: map<string, Value>, c: Column, declared: bool): Result<seq<byte>> {
    if c.name !in row then Err
    else if declared then SerializeDeclared(rd, row[c.name], c)
    else SerializeInferred(rd, row[c.name], c)
  }

  function SerializeFields(rd: Renderings, row: map<string, Value>, columns: seq<Column>, declared: bool)
    : (r: Result<seq<seq<byte>>>)
    ensures r.Ok? ==> |r.value| == |columns|
  {
    if columns == [] then Ok([])
    else
      var n := |columns| - 1;
      var fields :- SerializeFields(rd, row, columns[..n], declared);
      var field :- Cell(rd, row, columns[n], declared);
      Ok(fields + [field])
  }

  function SerializeRow(rd: Renderings, row: map<string, Value>, columns: seq<Column>, declared: bool)
    : Result<seq<byte>>
  {
    var fields :- SerializeFields(rd, row, columns, declared);
    Ok(F.JoinFields(fields) + [F.LF])
  }

  function NormalizeAll(row: seq<RawValue>): (r: seq<Value>)
    ensures |r| == |row|
    ensures forall i | 0 <= i < |row| :: r[i] == Normalize(row[i])
  {
    seq(|row|, i requires 0 <= i < |row| => Normalize(row[i]))
  }

  /** What a raw row means: normalize every cell, pair it with its source
      column, serialize in resolved column order. */
  function RowMeaning(rd: Renderings, names: seq<string>, columns: seq<Column>, row: seq<RawValue>, declared: bool)
    : Result<seq<byte>>
  {
    if |row| != |names| then Err
    else SerializeRow(rd, RowMap(names, NormalizeAll(row)), columns, declared)
  }

  lemma FieldsFront(rd: Renderings, row: map<string, Value>, columns: seq<Column>, declared: bool)
    requires columns != [] && SerializeFields(rd, row, columns[..|columns| - 1], declared).Err?
    ensures SerializeFields(rd, row, columns, declared).Err?
  {
  }

  lemma {:induction false} FieldsPrefix(rd: Renderings, row: map<string, Value>, columns: seq<Column>,
      declared: bool, k: nat)
    requires k <= |columns| && SerializeFields(rd, row, columns[..k], declared).Err?
    ensures SerializeFields(rd, row, columns, declared).Err?
  {
    if k == |columns| {
      assert columns[..k] == columns;
    } else {
      var front := columns[..|columns| - 1];
      assert front[..k] == columns[..k];
      FieldsPrefix(rd, row, front, declared, k);
      FieldsFront(rd, row, columns, declared);
    }
  }

  lemma FieldsStep(rd: Renderings, row: map<string, Value>, columns: seq<Column>, declared: bool, k: nat)
    requires k < |columns| && SerializeFields(rd, row, columns[..k], declared).Ok?
    ensures Cell(rd, row, columns[k], declared).Err? ==> SerializeFields(rd, row, columns, declared).Err?
    ensures Cell(rd, row, columns[k], declared).Ok? ==>
      SerializeFields(rd, row, columns[..k + 1], declared)
        == Ok(SerializeFields(rd, row, columns[..k], declared).value + [Cell(rd, row, columns[k], declared).value])
  {
    assert columns[..k + 1][..k] == columns[..k];
    if Cell(rd, row, columns[k], declared).Err? {
      FieldsPrefix(rd, row, columns, declared, k + 1);
    }
  }

  lemma {:induction false} JoinAppend(fields: seq<seq<byte>>, field: seq<byte>)
    ensures F.JoinFields(fields + [field])
         == if fields == [] then field else F.JoinFields(fields) + [F.TAB] + field
  {
    if |fields| >= 1 {
      assert (fields + [field])[1..] == fields[1..] + [field];
      JoinAppend(fields[1..], field);
    }
  }

  // -- compiled field writers ----------------------------------------------------------

  /** The reusable output buffer. */
  class Buffer {
    var data: seq<byte>

    constructor ()
      ensures data == []
    {
      data := [];
    }

    method Extend(bytes: seq<byte>)
      modifies this
      ensures data == old(data) + bytes
    {
      data := data + bytes;
    }

    method Clear()
      modifies this
      ensures data == []
    {
      data := [];
    }
  }

  method WriteNull(c: Column, buffer: Buffer) returns (ok: bool)
    modifies buffer
    ensures ok == c.nullable
    ensures buffer.data == old(buffer.data) + if ok then F.NULL_FIELD else []
  {
    if !c.nullable {
      return false;
    }
    buffer.Extend(F.NULL_FIELD);
    ok := true;
  }

  /** What a field writer owes: the bytes of the generic kernel, or nothing. */
  twostate predicate Wrote(rd: Renderings, value: RawValue, c: Column, buffer: Buffer, ok: bool)
    reads buffer
  {
    var r := SerializeDeclared(rd, Normalize(value), c);
    ok == r.Ok? && buffer.data == old(buffer.data) + if ok then r.value else []
  }

  method WriteBool(rd: Renderings, value: RawValue, c: Column, buffer: Buffer) returns (ok: bool)
    requires c.sqlType.BooleanT?
    modifies buffer
    ensures Wrote(rd, value, c, buffer, ok)
  {
    if value.Native? && value.v.Bool? {
      buffer.Extend(if value.v.b then [0x74] else [0x66]);
      return true;
    }
    var v := Normalize(value);
    if v.Null? {
      ok := WriteNull(c, buffer);
      return;
    }
    if !v.Bool? {
      return false;
    }
    buffer.Extend(if v.b then [0x74] else [0x66]);
    ok := true;
  }

  method WriteInteger(rd: Renderings, value: RawValue, c: Column, buffer: Buffer) returns (ok: bool)
    requires IsInteger(c.sqlType)
    modifies buffer
    ensures Wrote(rd, value, c, buffer, ok)
  {
    var v := value.v;
    if !(value.Native? && v.Int?) {
      v := Normalize(value);
      if v.Null? {
        ok := WriteNull(c, buffer);
        return;
      }
      if !v.Int? {
        return false;
      }
    }
    var upper := Bits(c.sqlType) - 1;
    var lower := -Bits(c.sqlType);
    if !(lower <= v.n <= upper) {
      return false;
    }
    buffer.Extend(Utf8.Encode(IntText(v.n)));
    ok := true;
  }

  method WriteNumeric(rd: Renderings, value: RawValue, c: Column, buffer: Buffer) returns (ok: bool)
    requires c.sqlType.NumericT? && Declared(c.sqlType)
    modifies buffer
    ensures Wrote(rd, value, c, buffer, ok)
  {
    var v := value.v;
    var native := value.Native? && (v.Int? || v.Dec?);
    if !native {
      v := Normalize(value);
      if v.Null? {
        ok := WriteNull(c, buffer);
        return;
      }
    } else if v.Dec? && v.d.QuietNaN? {
      ok := WriteNull(c, buffer);
      return;
    }
    var accepted := Numeric.ValidateNumeric(v, c.sqlType.precision, c.sqlType.scale);
    if !accepted {
      return false;
    }
    buffer.Extend(Utf8.Encode(if v.Int? then IntText(v.n) else rd.decimalText(v.d)));
    ok := true;
  }

  method WriteFloat(rd: Renderings, value: RawValue, c: Column, buffer: Buffer) returns (ok: bool)
    requires c.sqlType.FloatT?
    modifies buffer
    ensures Wrote(rd, value, c, buffer, ok)
  {
    var v := value.v;
    if value.Native? && v.Real? {
      if IsNaN(v.f) {
        ok := WriteNull(c, buffer);
        return;
      }
    } else {
      v := Normalize(value);
      if v.Null? {
        ok := WriteNull(c, buffer);
        return;
      }
      if !v.Real? {
        return false;
      }
    }
    buffer.Extend(Utf8.Encode(FloatText(rd, v.f)));
    ok := true;
  }

  method WriteText(rd: Renderings, value: RawValue, c: Column, buffer: Buffer) returns (ok: bool)
    requires c.sqlType.TextT?
    modifies buffer
    ensures Wrote(rd, value, c, buffer, ok)
  {
    var v := value.v;
    if !(value.Native? && v.Str?) {
      v := Normalize(value);
      if v.Null? {
        ok := WriteNull(c, buffer);
        return;
      }
      if !v.Str? {
        return false;
      }
    }
    if NUL in v.s {
      return false;
    }
    if c.sqlType.maxLength.Some? && |v.s| > c.sqlType.maxLength.value {
      return false;
    }
    buffer.Extend(F.EscapeText(v.s));
    ok := true;
  }

  method WriteBytes(rd: Renderings, value: RawValue, c: Column, buffer: Buffer) returns (ok: bool)
    requires c.sqlType.BinaryT?
    modifies buffer
    ensures Wrote(rd, value, c, buffer, ok)
  {
    var v := value.v;
    if !(value.Native? && v.Bytes?) {
      v := Normalize(value);
      if v.Null? {
        ok := WriteNull(c, buffer);
        return;
      }
      if !v.Bytes? {
        return false;
      }
    }
    ghost var before := buffer.data;
    buffer.Extend([F.BACKSLASH, F.BACKSLASH, 0x78]);
    buffer.Extend(Utf8.Encode(HexText(v.payload)));
    assert buffer.data == before + BytesField(v.payload);
    ok := true;
  }

  method WriteDate(rd: Renderings, value: RawValue, c: Column, buffer: Buffer) returns (ok: bool)
    requires c.sqlType.DateT?
    modifies buffer
    ensures Wrote(rd, value, c, buffer, ok)
  {
    var v := value.v;
    if !(value.Native? && v.Day?) {
      v := Normalize(value);
      if v.Null? {
        ok := WriteNull(c, buffer);
        return;
      }
      if !v.Day? {
        return false;
      }
    }
    buffer.Extend(Utf8.Encode(DateText(v.date)));
    ok := true;
  }

  method WriteTimestamp(rd: Renderings, value: RawValue, c: Column, buffer: Buffer) returns (ok: bool)
    requires c.sqlType.TimestampT?
    modifies buffer
    ensures Wrote(rd, value, c, buffer, ok)
  {
    var v := value.v;
    if !(value.Native? && v.Stamp?) {
      v := Normalize(value);
      if v.Null? {
        ok := WriteNull(c, buffer);
        return;
      }
      if !v.Stamp? {
        return false;
      }
    }
    var aware := IsAware(v);
    if c.sqlType.zoned && !aware {
      return false;
    }
    if !c.sqlType.zoned && aware {
      return false;
    }
    buffer.Extend(Utf8.Encode(StampText(v.day, v.time, v.zone)));
    ok := true;
  }

  /** The writer compiled for a column's family. */
  method WriteField(rd: Renderings, value: RawValue, c: Column, buffer: Buffer) returns (ok: bool)
    requires Declared(c.sqlType)
    modifies buffer
    ensures Wrote(rd, value, c, buffer, ok)
  {
    match c.sqlType {
      case BooleanT => ok := WriteBool(rd, value, c, buffer);
      case NumericT(_, _) => ok := WriteNumeric(rd, value, c, buffer);
      case FloatT(_) => ok := WriteFloat(rd, value, c, buffer);
      case TextT(_) => ok := WriteText(rd, value, c, buffer);
      case BinaryT => ok := WriteBytes(rd, value, c, buffer);
      case DateT => ok := WriteDate(rd, value, c, buffer);
      case TimestampT(_) => ok := WriteTimestamp(rd, value, c, buffer);
      case _ => ok := WriteInteger(rd, value, c, buffer);
    }
  }

  // -- compiling ---------------------------------------------------------------------------

  datatype Writer = Writer(index: nat, column: Column)

  /** The source position of every resolved column. */
  ghost predicate Compiled(names: seq<string>, columns: seq<Column>, writers: seq<Writer>) {
    && |writers| == |columns|
    && forall k | 0 <= k < |columns| ::
         && writers[k].column == columns[k]
         && writers[k].index < |names|
         && names[writers[k].index] == columns[k].name
         && columns[k].name !in names[writers[k].index + 1..]
  }

  method SourceIndex(names: seq<string>) returns (index: map<string, nat>)
    ensures forall name :: name in index <==> name in names
    ensures forall name | name in index ::
      index[name] < |names| && names[index[name]] == name && name !in names[index[name] + 1..]
  {
    index := map[];
    var i := 0;
    while i < |names|
      invariant 0 <= i <= |names|
      invariant forall name :: name in index <==> name in names[..i]
      invariant forall name | name in index ::
        index[name] < i && names[index[name]] == name && name !in names[index[name] + 1..i]
    {
      index := index[names[i] := i];
      i := i + 1;
    }
    assert names[..i] == names;
    forall name | name in index
      ensures name !in names[index[name] + 1..]
    {
      assert names[index[name] + 1..i] == names[index[name] + 1..];
    }
  }

  method Compile(names: seq<string>, columns: seq<Column>) returns (r: Result<seq<Writer>>)
    ensures r.Ok? <==> forall c | c in columns :: c.name in names
    ensures r.Ok? ==> Compiled(names, columns, r.value)
  {
    var index := SourceIndex(names);
    var writers: seq<Writer> := [];
    var k := 0;
    while k < |columns|
      invariant 0 <= k <= |columns| && |writers| == k
      invariant Compiled(names, columns[..k], writers)
      invariant forall c | c in columns[..k] :: c.name in names
    {
      if columns[k].name !in index {
        return Err;
      }
      writers := writers + [Writer(index[columns[k].name], columns[k])];
      assert columns[..k + 1] == columns[..k] + [columns[k]];
      k := k + 1;
    }
    assert columns[..k] == columns;
    r := Ok(writers);
  }

  lemma {:induction false} RowMapAt(names: seq<string>, row: seq<Value>, i: nat)
    requires |names| == |row| && i < |names| && names[i] !in names[i + 1..]
    ensures names[i] in RowMap(names, row) && RowMap(names, row)[names[i]] == row[i]
  {
    var n := |names| - 1;
    if i < n {
      assert names[n] == names[i + 1..][n - i - 1];
      assert names[..n][i + 1..] == names[i + 1..n];
      RowMapAt(names[..n], row[..n], i);
    }
  }

  // -- compiled rows -------------------------------------------------------------------------

  /** What the buffer holds after k fields. */
  ghost predicate Buffered(rd: Renderings, row: map<string, Value>, columns: seq<Column>, declared: bool,
      k: nat, data: seq<byte>)
    requires k <= |columns|
  {
    var fields := SerializeFields(rd, row, columns[..k], declared);
    fields.Ok? && data == F.JoinFields(fields.value)
  }

  lemma BufferedStep(rd: Renderings, row: map<string, Value>, columns: seq<Column>, declared: bool,
      k: nat, data: seq<byte>, field: seq<byte>)
    requires k < |columns| && Buffered(rd, row, columns, declared, k, data)
    requires Cell(rd, row, columns[k], declared) == Ok(field)
    ensures Buffered(rd, row, columns, declared, k + 1, data + (if k == 0 then [] else [F.TAB]) + field)
  {
    FieldsStep(rd, row, columns, declared, k);
    var fields := SerializeFields(rd, row, columns[..k], declared).value;
    JoinAppend(fields, field);
    if k == 0 {
      assert data + [] + field == field;
    }
  }

  /** A declared row: generic bytes on the stream, or a refusal and nothing. */
  method WriteDeclaredRow(rd: Renderings, fp: Spool.ByteStream, row: seq<RawValue>, writers: seq<Writer>,
      buffer: Buffer, width: nat, ghost names: seq<string>, ghost columns: seq<Column>)
    returns (ok: bool)
    requires width == |names| && Compiled(names, columns, writers)
    requires forall c | c in columns :: Declared(c.sqlType)
    modifies fp, buffer
    ensures var r := RowMeaning(rd, names, columns, row, true);
      ok == r.Ok? && fp.data == old(fp.data) + if ok then r.value else []
  {
    if |row| != width {
      return false;
    }
    ghost var source := RowMap(names, NormalizeAll(row));
    ghost var before := fp.data;
    buffer.Clear();
    var k := 0;
    while k < |writers|
      invariant 0 <= k <= |writers|
      invariant Buffered(rd, source, columns, true, k, buffer.data)
      invariant fp.data == before
    {
      ghost var written := buffer.data;
      if k > 0 {
        buffer.Extend([F.TAB]);
      }
      RowMapAt(names, NormalizeAll(row), writers[k].index);
      FieldsStep(rd, source, columns, true, k);
      ok := WriteField(rd, row[writers[k].index], writers[k].column, buffer);
      if !ok {
        return;
      }
      BufferedStep(rd, source, columns, true, k, written, Cell(rd, source, columns[k], true).value);
      k := k + 1;
    }
    assert columns[..k] == columns;
    buffer.Extend([F.LF]);
    fp.Write(buffer.data);
    ok := true;
  }

  /** An already normalized row under inferred types, likewise. */
  method WriteInferredRow(rd: Renderings, fp: Spool.ByteStream, values: seq<Value>, writers: seq<Writer>,
      buffer: Buffer, ghost names: seq<string>, ghost columns: seq<Column>)
    returns (ok: bool)
    requires |values| == |names| && Compiled(names, columns, writers)
    modifies fp, buffer
    ensures var r := SerializeRow(rd, RowMap(names, values), columns, false);
      ok == r.Ok? && fp.data == old(fp.data) + if ok then r.value else []
  {
    ghost var source := RowMap(names, values);
    ghost var before := fp.data;
    buffer.Clear();
    var k := 0;
    while k < |writers|
      invariant 0 <= k <= |writers|
      invariant Buffered(rd, source, columns, false, k, buffer.data)
      invariant fp.data == before
    {
      ghost var written := buffer.data;
      if k > 0 {
        buffer.Extend([F.TAB]);
      }
      RowMapAt(names, values, writers[k].index);
      FieldsStep(rd, source, columns, false, k);
      var field := SerializeInferred(rd, values[writers[k].index], writers[k].column);
      if field.Err? {
        return false;
      }
      buffer.Extend(field.value);
      BufferedStep(rd, source, columns, false, k, written, field.value);
      k := k + 1;
    }
    assert columns[..k] == columns;
    buffer.Extend([F.LF]);
    fp.Write(buffer.data);
    ok := true;
  }
}
