/** Preparing a COPY body: one pass under a declared schema, two passes through
    a neutral spool under an inferred one (task_core/db/copy.py, 190-569). */
module CopyPrepare {
  import opened Values
  import opened ColumnInput
  import opened CopyText
  import opened CopyWriters
  import opened Families
  import F = CopyFormat
  import Inference
  import Spool
  import SpoolFormat

  datatype Prepared = Prepared(columns: seq<Column>, rowCount: nat, body: seq<byte>)

  // -- the one-pass meaning --------------------------------------------------------

  /** The generic serialization of every row, one after the other. */
  function Body(rd: Renderings, names: seq<string>, columns: seq<Column>, rows: seq<seq<RawValue>>, declared: bool)
    : Result<seq<byte>>
  {
    if rows == [] then Ok([])
    else
      var n := |rows| - 1;
      var body :- Body(rd, names, columns, rows[..n], declared);
      var line :- RowMeaning(rd, names, columns, rows[n], declared);
      Ok(body + line)
  }

  function NormalizeRows(rows: seq<seq<RawValue>>): (r: seq<seq<Value>>)
    ensures |r| == |rows|
    ensures forall i | 0 <= i < |rows| :: r[i] == NormalizeAll(rows[i])
  {
    seq(|rows|, i requires 0 <= i < |rows| => NormalizeAll(rows[i]))
  }

  /** The framework column of that name; a later one replaces an earlier. */
  function PinOf(framework: seq<Column>, name: string): (r: Option<Column>)
    ensures r.Some? ==> r.value.name == name
  {
    if framework == [] then None
    else if framework[|framework| - 1].name == name then Some(framework[|framework| - 1])
    else PinOf(framework[..|framework| - 1], name)
  }

  datatype Contract = Contract(
    framework: seq<Column>,
    overrides: Option<map<string, SqlType>>,
    notNull: seq<string>)

  /** Framework pin first, else override, else the full-scan type. */
  function ResolveColumn(name: string, inferred: SqlType, contract: Contract): (c: Column)
    ensures c.name == name
  {
    var pin := PinOf(contract.framework, name);
    if pin.Some? then pin.value
    else Column(
      name,
      if contract.overrides.Some? && name in contract.overrides.value then contract.overrides.value[name] else inferred,
      name !in contract.notNull)
  }

  function ResolveColumns(names: seq<string>, types: seq<SqlType>, contract: Contract): (r: seq<Column>)
    requires |types| == |names|
    ensures |r| == |names|
    ensures forall k | 0 <= k < |names| :: r[k] == ResolveColumn(names[k], types[k], contract)
  {
    seq(|names|, k requires 0 <= k < |names| => ResolveColumn(names[k], types[k], contract))
  }

  /** No later framework column has this one's name. */
  ghost predicate LastPin(framework: seq<Column>, j: nat, name: string) {
    j < |framework| && framework[j].name == name && forall i | j < i < |framework| :: framework[i].name != name
  }

  /** The column a source column becomes: the last framework column of that name;
      or, if there is none, of the overriding type, if there is one, else of the
      type a full scan of its cells gives, and nullable unless it is marked. */
  ghost predicate ColumnKeeps(name: string, cells: seq<Value>, contract: Contract, c: Column) {
    && c.name == name
    && (forall j: nat | LastPin(contract.framework, j, name) :: c == contract.framework[j])
    && ((forall j | 0 <= j < |contract.framework| :: contract.framework[j].name != name) ==>
          && (c.nullable <==> name !in contract.notNull)
          && if contract.overrides.Some? && name in contract.overrides.value
             then c.sqlType == contract.overrides.value[name] else FullScan(cells) == Ok(c.sqlType))
  }

  /** The prepared columns: the declared ones as given; else, in source order,
      what each source column becomes. */
  ghost predicate ColumnsKeep(names: seq<string>, schema: Option<seq<Column>>, contract: Contract,
    rows: seq<seq<RawValue>>, columns: seq<Column>)
  {
    match schema
    case Some(declared) => columns == declared
    case None =>
      && |columns| == |names| && (forall i | 0 <= i < |rows| :: |rows[i]| == |names|)
      && forall k | 0 <= k < |names| ::
           ColumnKeeps(names[k], seq(|rows|, i requires 0 <= i < |rows| =>
             if |rows[i]| == |names| then Normalize(rows[i][k]) else Null), contract, columns[k])
  }

  lemma {:induction false} PinIsLast(framework: seq<Column>, name: string)
    ensures forall j: nat | LastPin(framework, j, name) :: PinOf(framework, name) == Some(framework[j])
    ensures PinOf(framework, name).None? <==> forall j | 0 <= j < |framework| :: framework[j].name != name
  {
    if framework != [] {
      var n := |framework| - 1;
      PinIsLast(framework[..n], name);
      forall j: nat | LastPin(framework, j, name)
        ensures PinOf(framework, name) == Some(framework[j])
      {
        if j < n {
          assert LastPin(framework[..n], j, name);
        }
      }
    }
  }

  lemma ColumnResolved(name: string, cells: seq<Value>, contract: Contract)
    requires FullScan(cells).Ok?
    ensures ColumnKeeps(name, cells, contract, ResolveColumn(name, FullScan(cells).value, contract))
  {
    PinIsLast(contract.framework, name);
  }

  /** The columns of the result are those the contract asks for. */
  lemma ResolvedColumns(rd: Renderings, names: seq<string>, contract: Contract, rows: seq<seq<RawValue>>)
    requires InferredMeaning(rd, names, contract, rows).Ok?
    ensures ColumnsKeep(names, None, contract, rows, InferredMeaning(rd, names, contract, rows).value.columns)
  {
    var values := NormalizeRows(rows);
    EncodedWidths(rd, values, |names|);
    assert forall i | 0 <= i < |rows| :: |values[i]| == |rows[i]|;
    forall k | 0 <= k < |names|
      ensures ColumnKeeps(names[k], seq(|rows|, i requires 0 <= i < |rows| =>
        if |rows[i]| == |names| then Normalize(rows[i][k]) else Null), contract,
        InferredMeaning(rd, names, contract, rows).value.columns[k])
    {
      var cells := seq(|rows|, i requires 0 <= i < |rows| =>
        if |rows[i]| == |names| then Normalize(rows[i][k]) else Null);
      Inference.StreamColumnAt(values, k);
      assert cells == Inference.StreamColumn(values, k);
      ColumnResolved(names[k], cells, contract);
    }
  }

  /** What two passes amount to.  Every column must resolve, pinned or not, and
      every normalized value must have a neutral encoding. */
  function InferredMeaning(rd: Renderings, names: seq<string>, contract: Contract, rows: seq<seq<RawValue>>)
    : Result<Prepared>
  {
    var values := NormalizeRows(rows);
    var _ :- Spool.EncodeStream(rd, names, values);
    var types :- Inference.StreamTypes(values, |names|);
    var columns := ResolveColumns(names, types, contract);
    if !Supported(columns) then Err
    else
      var body :- Body(rd, names, columns, rows, false);
      Ok(Prepared(columns, |rows|, body))
  }

  /** Every type is one the serializers compile for. */
  predicate Supported(columns: seq<Column>) {
    forall k | 0 <= k < |columns| :: Declared(columns[k].sqlType)
  }

  function DeclaredMeaning(rd: Renderings, names: seq<string>, columns: seq<Column>, rows: seq<seq<RawValue>>)
    : Result<Prepared>
  {
    var body :- Body(rd, names, columns, rows, true);
    Ok(Prepared(columns, |rows|, body))
  }

  // -- stepping through the rows -------------------------------------------------------

  lemma {:induction false} BodyRefused(rd: Renderings, names: seq<string>, columns: seq<Column>,
      rows: seq<seq<RawValue>>, declared: bool, k: nat)
    requires k < |rows| && RowMeaning(rd, names, columns, rows[k], declared).Err?
    ensures Body(rd, names, columns, rows, declared).Err?
  {
    var n := |rows| - 1;
    if k < n {
      BodyRefused(rd, names, columns, rows[..n], declared, k);
    }
  }

  lemma BodyStep(rd: Renderings, names: seq<string>, columns: seq<Column>, rows: seq<seq<RawValue>>, declared: bool,
      k: nat)
    requires k < |rows| && Body(rd, names, columns, rows[..k], declared).Ok?
    ensures var line := RowMeaning(rd, names, columns, rows[k], declared);
      && (line.Err? ==> Body(rd, names, columns, rows, declared).Err?)
      && (line.Ok? ==>
        Body(rd, names, columns, rows[..k + 1], declared)
          == Ok(Body(rd, names, columns, rows[..k], declared).value + line.value))
  {
    assert rows[..k + 1][..k] == rows[..k];
    if RowMeaning(rd, names, columns, rows[k], declared).Err? {
      BodyRefused(rd, names, columns, rows, declared, k);
    }
  }

  lemma {:induction false} EncodeRowsRefused(rd: Renderings, rows: seq<seq<Value>>, width: nat, k: nat)
    requires k < |rows| && Spool.EncodeRow(rd, rows[k], width).Err?
    ensures Spool.EncodeRows(rd, rows, width).Err?
  {
    if k > 0 {
      EncodeRowsRefused(rd, rows[1..], width, k - 1);
    }
  }

  /** The neutral spool after a preamble and k rows. */
  ghost predicate Spooled(rd: Renderings, rows: seq<seq<Value>>, width: nat, k: nat, preamble: seq<byte>,
      data: seq<byte>)
    requires k <= |rows|
  {
    var body := Spool.EncodeRows(rd, rows[..k], width);
    body.Ok? && data == preamble + body.value
  }

  lemma SpooledStep(rd: Renderings, rows: seq<seq<Value>>, width: nat, k: nat, preamble: seq<byte>, data: seq<byte>)
    requires k < |rows| && Spooled(rd, rows, width, k, preamble, data)
    ensures var one := Spool.EncodeRow(rd, rows[k], width);
      && (one.Err? ==> Spool.EncodeRows(rd, rows, width).Err?)
      && (one.Ok? ==> Spooled(rd, rows, width, k + 1, preamble, data + one.value))
  {
    assert rows[..k + 1] == rows[..k] + [rows[k]];
    Spool.EncodeRowsAppend(rd, rows[..k], rows[k], width);
    if Spool.EncodeRow(rd, rows[k], width).Err? {
      EncodeRowsRefused(rd, rows, width, k);
    }
  }

  // -- the declared pass -----------------------------------------------------------------

  method PrepareDeclared(rd: Renderings, rows: seq<seq<RawValue>>, names: seq<string>, columns: seq<Column>)
    returns (r: Result<Prepared>)
    requires forall c | c in columns :: c.name in names && Declared(c.sqlType)
    ensures r == DeclaredMeaning(rd, names, columns, rows)
  {
    var compiled := Compile(names, columns);
    var writers := compiled.value;
    var fp := new Spool.ByteStream();
    var buffer := new Buffer();
    var rowCount := 0;
    while rowCount < |rows|
      invariant 0 <= rowCount <= |rows|
      invariant Body(rd, names, columns, rows[..rowCount], true) == Ok(fp.data)
    {
      BodyStep(rd, names, columns, rows, true, rowCount);
      var ok := WriteDeclaredRow(rd, fp, rows[rowCount], writers, buffer, |names|, names, columns);
      if !ok {
        return Err;
      }
      rowCount := rowCount + 1;
    }
    assert rows[..rowCount] == rows;
    r := Ok(Prepared(columns, rowCount, fp.data));
  }

  // -- the inferred passes -----------------------------------------------------------------

  /** Pass one: normalize, feed inference, write the neutral spool. */
  method WriteNeutral(rd: Renderings, rows: seq<seq<RawValue>>, names: seq<string>)
    returns (r: Result<(seq<byte>, Inference.StreamState)>, sourceRowCount: nat)
    requires names != []
    ensures r.Ok? <==> Spool.EncodeStream(rd, names, NormalizeRows(rows)).Ok?
    ensures r.Ok? ==>
      && Spool.EncodeStream(rd, names, NormalizeRows(rows)) == Ok(r.value.0)
      && fresh(r.value.1) && r.value.1.Valid() && r.value.1.width == |names|
      && r.value.1.fed == NormalizeRows(rows) && sourceRowCount == |rows|
  {
    ghost var values := NormalizeRows(rows);
    var width := |names|;
    var state := new Inference.StreamState(width);
    sourceRowCount := 0;
    var preamble := Spool.EncodePreamble(names);
    if preamble.Err? {
      return Err, 0;
    }
    var fp := new Spool.ByteStream();
    fp.Write(preamble.value);
    while sourceRowCount < |rows|
      invariant 0 <= sourceRowCount <= |rows|
      invariant state.Valid() && fresh(state) && fresh(fp) && state.width == width
      invariant state.fed == values[..sourceRowCount]
      invariant Spooled(rd, values, width, sourceRowCount, preamble.value, fp.data)
    {
      var row := NormalizeAll(rows[sourceRowCount]);
      assert row == values[sourceRowCount];
      assert values[..sourceRowCount + 1] == values[..sourceRowCount] + [row];
      SpooledStep(rd, values, width, sourceRowCount, preamble.value, fp.data);
      if |row| != width {
        return Err, sourceRowCount;
      }
      sourceRowCount := sourceRowCount + 1;
      var fedOk := state.FeedRow(row);
      var ok := Spool.WriteNeutralRow(rd, fp, row, width);
      if !ok {
        return Err, sourceRowCount;
      }
    }
    assert values[..sourceRowCount] == values;
    fp.Write([SpoolFormat.TERMINATOR]);
    r := Ok((fp.data, state));
  }

  /** {c.name: c for c in framework} */
  method FrameworkByName(framework: seq<Column>) returns (pins: map<string, Column>)
    ensures forall name :: name in pins <==> PinOf(framework, name).Some?
    ensures forall name | name in pins :: PinOf(framework, name) == Some(pins[name])
  {
    pins := map[];
    var j := 0;
    while j < |framework|
      invariant 0 <= j <= |framework|
      invariant forall name :: name in pins <==> PinOf(framework[..j], name).Some?
      invariant forall name | name in pins :: PinOf(framework[..j], name) == Some(pins[name])
    {
      assert framework[..j + 1][..j] == framework[..j];
      pins := pins[framework[j].name := framework[j]];
      j := j + 1;
    }
    assert framework[..j] == framework;
  }

  method ResolveAll(names: seq<string>, types: seq<SqlType>, contract: Contract) returns (columns: seq<Column>)
    requires |types| == |names|
    ensures columns == ResolveColumns(names, types, contract)
  {
    var pins := FrameworkByName(contract.framework);
    var overrides := if contract.overrides.Some? then contract.overrides.value else map[];
    columns := [];
    var k := 0;
    while k < |names|
      invariant 0 <= k <= |names| && |columns| == k
      invariant forall j | 0 <= j < k :: columns[j] == ResolveColumn(names[j], types[j], contract)
    {
      var name := names[k];
      if name in pins {
        columns := columns + [pins[name]];
      } else {
        var sqlType := if name in overrides then overrides[name] else types[k];
        columns := columns + [Column(name, sqlType, name !in contract.notNull)];
      }
      k := k + 1;
    }
  }

  lemma DecodeRowsStep(rd: Renderings, b: seq<byte>, width: nat, rows: seq<seq<Value>>)
    requires Spool.DecodeRows(rd, b, width) == SpoolFormat.Got(rows, [])
    ensures rows == [] ==> Spool.DecodeRow(rd, b, width) == SpoolFormat.Got(None, [])
    ensures rows != [] ==>
      && Spool.DecodeRow(rd, b, width).Got?
      && Spool.DecodeRow(rd, b, width).value == Some(rows[0])
      && Spool.DecodeRows(rd, Spool.DecodeRow(rd, b, width).rest, width) == SpoolFormat.Got(rows[1..], [])
  {
  }

  /** Pass two: replay the spool through the compiled serializers. */
  method Replay(rd: Renderings, spool: seq<byte>, names: seq<string>, columns: seq<Column>,
      ghost rows: seq<seq<RawValue>>)
    returns (r: Result<seq<byte>>)
    requires rd.Faithful() && Spool.EncodeStream(rd, names, NormalizeRows(rows)) == Ok(spool)
    requires forall c | c in columns :: c.name in names
    requires forall i | 0 <= i < |rows| :: |rows[i]| == |names|
    ensures r == Body(rd, names, columns, rows, false)
  {
    ghost var values := NormalizeRows(rows);
    var compiled := Compile(names, columns);
    var writers := compiled.value;
    assert Spool.DecodeStream(rd, spool) == SpoolFormat.Got((names, values), []) by {
      Spool.StreamRoundTrip(rd, names, values, []);
      assert spool + [] == spool;
    }
    var preamble := Spool.DecodePreamble(spool);
    if !preamble.Got? || preamble.value != names {
      assert false;
      return Err;
    }
    var rest := preamble.rest;
    var fp := new Spool.ByteStream();
    var buffer := new Buffer();
    var k := 0;
    while true
      invariant 0 <= k <= |rows|
      invariant Spool.DecodeRows(rd, rest, |names|) == SpoolFormat.Got(values[k..], [])
      invariant Body(rd, names, columns, rows[..k], false) == Ok(fp.data)
      decreases |rows| - k
    {
      DecodeRowsStep(rd, rest, |names|, values[k..]);
      var row, after := Spool.ReadNeutralRow(rd, rest, |names|);
      if row.Err? {
        assert false;
        return Err;
      }
      if row.value.None? {
        break;
      }
      BodyStep(rd, names, columns, rows, false, k);
      assert row.value.value == NormalizeAll(rows[k]);
      var ok := WriteInferredRow(rd, fp, row.value.value, writers, buffer, names, columns);
      if !ok {
        return Err;
      }
      assert values[k..][1..] == values[k + 1..];
      k, rest := k + 1, after;
    }
    assert rows[..k] == rows;
    r := Ok(fp.data);
  }

  lemma {:induction false} EncodedWidths(rd: Renderings, rows: seq<seq<Value>>, width: nat)
    requires Spool.EncodeRows(rd, rows, width).Ok?
    ensures forall i | 0 <= i < |rows| :: |rows[i]| == width
  {
    if rows != [] {
      EncodedWidths(rd, rows[1..], width);
    }
  }

  /** Two passes equal the one-pass meaning. */
  method PrepareInferred(rd: Renderings, rows: seq<seq<RawValue>>, names: seq<string>, contract: Contract)
    returns (r: Result<Prepared>)
    requires names != [] && rd.Faithful()
    ensures r == InferredMeaning(rd, names, contract, rows)
    ensures r.Ok? ==> ColumnsKeep(names, None, contract, rows, r.value.columns)
  {
    var neutral, sourceRowCount := WriteNeutral(rd, rows, names);
    if neutral.Err? {
      return Err;
    }
    var spool, state := neutral.value.0, neutral.value.1;
    var types :- state.ResolveTypes();
    var columns := ResolveAll(names, types, contract);
    var supported := AllSupported(columns);
    if !supported {
      return Err;
    }
    EncodedWidths(rd, NormalizeRows(rows), |names|);
    var body :- Replay(rd, spool, names, columns, rows);
    r := Ok(Prepared(columns, sourceRowCount, body));
    ResolvedColumns(rd, names, contract, rows);
  }

  // -- the entry ------------------------------------------------------------------------------

  function NamesOf(columns: seq<Column>): (r: seq<string>)
    ensures |r| == |columns|
    ensures forall k | 0 <= k < |columns| :: r[k] == columns[k].name
  {
    seq(|columns|, k requires 0 <= k < |columns| => columns[k].name)
  }

  predicate Subset(some: seq<string>, all: seq<string>) {
    forall k | 0 <= k < |some| :: some[k] in all
  }

  /** A schema, if declared, that names exactly the source columns and stands
      alone; otherwise pins, overrides and not-null marks naming source columns. */
  predicate Admissible(names: seq<string>, schema: Option<seq<Column>>, contract: Contract) {
    && names != [] && !HasDuplicates(names) && "" !in names
    && Subset(NamesOf(contract.framework), names)
    && match schema {
      case Some(columns) =>
        && !HasDuplicates(NamesOf(columns))
        && Subset(NamesOf(columns), names) && Subset(names, NamesOf(columns))
        && Supported(columns)
        && contract.overrides == None && contract.notNull == []
      case None =>
        && (contract.overrides.Some? ==> forall name | name in contract.overrides.value :: name in names)
        && !HasDuplicates(contract.notNull) && Subset(contract.notNull, names)
    }
  }

  function Meaning(rd: Renderings, names: seq<string>, schema: Option<seq<Column>>, contract: Contract,
      rows: seq<seq<RawValue>>): Result<Prepared>
  {
    if !Admissible(names, schema, contract) then Err
    else
      match schema
      case Some(columns) => DeclaredMeaning(rd, names, columns, rows)
      case None => InferredMeaning(rd, names, contract, rows)
  }

  method FindDuplicates(names: seq<string>) returns (found: bool)
    ensures found == HasDuplicates(names)
  {
    var seen: set<string> := {};
    var i := 0;
    while i < |names|
      invariant 0 <= i <= |names| && seen == set name | name in names[..i]
      invariant forall j, k | 0 <= j < k < i :: names[j] != names[k]
    {
      if names[i] in seen {
        var j :| 0 <= j < i && names[..i][j] == names[i];
        return true;
      }
      assert forall j | 0 <= j < i :: names[..i][j] == names[j];
      assert names[..i + 1] == names[..i] + [names[i]];
      seen := seen + {names[i]};
      i := i + 1;
    }
    found := false;
  }

  /** Whether each of these is a source column. */
  method AllKnown(some: seq<string>, names: seq<string>) returns (known: bool)
    ensures known == Subset(some, names)
  {
    var k := 0;
    while k < |some|
      invariant 0 <= k <= |some| && forall j | 0 <= j < k :: some[j] in names
    {
      if some[k] !in names {
        return false;
      }
      k := k + 1;
    }
    known := true;
  }

  method AllSupported(columns: seq<Column>) returns (supported: bool)
    ensures supported == Supported(columns)
  {
    var k := 0;
    while k < |columns|
      invariant 0 <= k <= |columns| && forall j | 0 <= j < k :: Declared(columns[j].sqlType)
    {
      supported := CheckType(columns[k].sqlType);
      if !supported {
        return;
      }
      k := k + 1;
    }
    supported := true;
  }

  /** The input validation, before any file is created. */
  method Validate(names: seq<string>, schema: Option<seq<Column>>, contract: Contract) returns (valid: bool)
    ensures valid == Admissible(names, schema, contract)
  {
    if names == [] {
      return false;
    }
    if "" in names {
      return false;
    }
    var duplicates := FindDuplicates(names);
    if duplicates {
      return false;
    }
    if schema.Some? {
      var declared := NamesOf(schema.value);
      duplicates := FindDuplicates(declared);
      if duplicates {
        return false;
      }
      var noneMissing := AllKnown(declared, names);
      var noneUnexpected := AllKnown(names, declared);
      var supported := AllSupported(schema.value);
      if !noneMissing || !noneUnexpected || !supported {
        return false;
      }
    }
    var known := AllKnown(NamesOf(contract.framework), names);
    if !known {
      return false;
    }
    if schema.Some? && (contract.overrides.Some? || contract.notNull != []) {
      return false;
    }
    if contract.overrides.Some? && exists name | name in contract.overrides.value :: name !in names {
      return false;
    }
    duplicates := FindDuplicates(contract.notNull);
    if duplicates {
      return false;
    }
    valid := AllKnown(contract.notNull, names);
  }

  method PrepareCopySource(rd: Renderings, rows: seq<seq<RawValue>>, names: seq<string>,
      schema: Option<seq<Column>>, contract: Contract)
    returns (r: Result<Prepared>)
    requires rd.Faithful()
    ensures r == Meaning(rd, names, schema, contract, rows)
    ensures r.Ok? ==> ColumnsKeep(names, schema, contract, rows, r.value.columns)
  {
    var valid := Validate(names, schema, contract);
    if !valid {
      return Err;
    }
    if schema.Some? {
      var columns := schema.value;
      assert forall c | c in columns :: c.name in names && Declared(c.sqlType) by {
        forall c | c in columns
          ensures c.name in names && Declared(c.sqlType)
        {
          var k :| 0 <= k < |columns| && columns[k] == c;
          assert NamesOf(columns)[k] in names;
        }
      }
      r := PrepareDeclared(rd, rows, names, columns);
    } else {
      r := PrepareInferred(rd, rows, names, contract);
    }
  }

  // -- what PostgreSQL reads from a prepared body --------------------------------------------

  /** The decoded fields of one row. */
  function RowData(rd: Renderings, row: map<string, Value>, columns: seq<Column>): (r: seq<Option<seq<byte>>>)
    requires forall c | c in columns :: c.name in row
    ensures |r| == |columns|
    ensures forall k | 0 <= k < |columns| :: r[k] == CellData(rd, row[columns[k].name], columns[k].sqlType)
  {
    seq(|columns|, k requires 0 <= k < |columns| =>
      assert columns[k] in columns; CellData(rd, row[columns[k].name], columns[k].sqlType))
  }

  lemma {:induction false} FieldsAt(rd: Renderings, row: map<string, Value>, columns: seq<Column>, declared: bool,
      k: nat)
    requires SerializeFields(rd, row, columns, declared).Ok? && k < |columns|
    ensures Cell(rd, row, columns[k], declared) == Ok(SerializeFields(rd, row, columns, declared).value[k])
  {
    if k < |columns| - 1 {
      FieldsAt(rd, row, columns[..|columns| - 1], declared, k);
    }
  }

  lemma {:induction false} EncodeFieldsAt(row: seq<Option<seq<byte>>>, k: nat)
    requires k < |row|
    ensures F.EncodeFields(row)[k] == F.EncodeField(row[k])
  {
    if k > 0 {
      EncodeFieldsAt(row[1..], k - 1);
    }
  }

  lemma CellEncoded(rd: Renderings, row: map<string, Value>, c: Column, declared: bool)
    requires rd.Plain() && Cell(rd, row, c, declared).Ok?
    ensures c.name in row
    ensures Cell(rd, row, c, declared) == Ok(F.EncodeField(CellData(rd, row[c.name], c.sqlType)))
    ensures SerializeInferred(rd, row[c.name], c) == Cell(rd, row, c, declared)
  {
    if declared {
      DeclaredIsInferred(rd, row[c.name], c);
    }
    CellEscaped(rd, row[c.name], c);
  }

  /** A serialized row is one COPY line of its fields. */
  lemma RowIsLine(rd: Renderings, row: map<string, Value>, columns: seq<Column>, declared: bool)
    requires rd.Plain() && SerializeRow(rd, row, columns, declared).Ok?
    ensures forall c | c in columns :: c.name in row
    ensures SerializeRow(rd, row, columns, declared) == Ok(F.EncodeLine(RowData(rd, row, columns)) + [F.LF])
  {
    var fields := SerializeFields(rd, row, columns, declared).value;
    forall k | 0 <= k < |columns|
      ensures columns[k].name in row
      ensures fields[k] == F.EncodeField(CellData(rd, row[columns[k].name], columns[k].sqlType))
    {
      FieldsAt(rd, row, columns, declared, k);
      CellEncoded(rd, row, columns[k], declared);
    }
    var data := RowData(rd, row, columns);
    forall k | 0 <= k < |columns|
      ensures fields[k] == F.EncodeFields(data)[k]
    {
      EncodeFieldsAt(data, k);
    }
    assert fields == F.EncodeFields(data);
  }

  lemma {:induction false} EncodeFileAppend(rows: seq<seq<Option<seq<byte>>>>, row: seq<Option<seq<byte>>>)
    ensures F.EncodeFile(rows + [row]) == F.EncodeFile(rows) + (F.EncodeLine(row) + [F.LF])
  {
    if rows == [] {
      assert [row][1..] == [];
      assert [] + [row] == [row];
    } else {
      assert (rows + [row])[1..] == rows[1..] + [row];
      EncodeFileAppend(rows[1..], row);
    }
  }

  /** The source row under its column names. */
  function SourceRow(names: seq<string>, row: seq<RawValue>): map<string, Value>
    requires |row| == |names|
  {
    RowMap(names, NormalizeAll(row))
  }

  /** Decoded line i is stored, column by column, as the cells of source row
      i. */
  ghost predicate Holds(db: Database, names: seq<string>, columns: seq<Column>,
      rows: seq<seq<RawValue>>, lines: seq<seq<Option<seq<byte>>>>)
  {
    && |lines| == |rows|
    && forall i | 0 <= i < |rows| ::
         |rows[i]| == |names| && HoldsRow(db, SourceRow(names, rows[i]), columns, lines[i])
  }

  ghost predicate HoldsRow(db: Database, row: map<string, Value>, columns: seq<Column>,
      line: seq<Option<seq<byte>>>)
  {
    && |line| == |columns|
    && forall k | 0 <= k < |columns| :: HoldsCell(db, row, columns[k], line[k])
  }

  ghost predicate HoldsCell(db: Database, row: map<string, Value>, c: Column, field: Option<seq<byte>>) {
    c.name in row && FieldStores(db, c.sqlType, field) == Ok(MeantCell(db, row[c.name], c.sqlType))
  }

  /** Every cell is one its column keeps. */
  ghost predicate KeptAll(db: Database, names: seq<string>, columns: seq<Column>, rows: seq<seq<RawValue>>) {
    forall i | 0 <= i < |rows| :: |rows[i]| == |names| && KeptRow(db, SourceRow(names, rows[i]), columns)
  }

  ghost predicate KeptRow(db: Database, row: map<string, Value>, columns: seq<Column>) {
    forall k | 0 <= k < |columns| :: columns[k].name in row && Kept(db, row[columns[k].name], columns[k].sqlType)
  }

  lemma CellHolds(db: Database, row: map<string, Value>, c: Column, declared: bool)
    requires db.Valid() && Declared(c.sqlType) && Cell(db.rd, row, c, declared).Ok?
    ensures c.name in row
    ensures HoldsCell(db, row, c, CellData(db.rd, row[c.name], c.sqlType)) <==> Kept(db, row[c.name], c.sqlType)
  {
    CellEncoded(db.rd, row, c, declared);
    CellReadBack(db, row[c.name], c);
    F.FieldRoundTrip(CellData(db.rd, row[c.name], c.sqlType));
  }

  lemma RowHolds(db: Database, row: map<string, Value>, columns: seq<Column>, declared: bool)
    requires db.Valid() && Supported(columns) && SerializeRow(db.rd, row, columns, declared).Ok?
    ensures forall c | c in columns :: c.name in row
    ensures HoldsRow(db, row, columns, RowData(db.rd, row, columns)) <==> KeptRow(db, row, columns)
  {
    RowIsLine(db.rd, row, columns, declared);
    forall k | 0 <= k < |columns|
      ensures HoldsCell(db, row, columns[k], RowData(db.rd, row, columns)[k])
         <==> Kept(db, row[columns[k].name], columns[k].sqlType)
    {
      FieldsAt(db.rd, row, columns, declared, k);
      CellHolds(db, row, columns[k], declared);
    }
  }

  /** The lines a body is made of. */
  ghost predicate Lines(rd: Renderings, names: seq<string>, columns: seq<Column>,
      rows: seq<seq<RawValue>>, lines: seq<seq<Option<seq<byte>>>>)
  {
    && |lines| == |rows|
    && forall i | 0 <= i < |rows| ::
         && |rows[i]| == |names|
         && (forall c | c in columns :: c.name in SourceRow(names, rows[i]))
         && lines[i] == RowData(rd, SourceRow(names, rows[i]), columns)
  }

  lemma LinesAppend(rd: Renderings, names: seq<string>, columns: seq<Column>,
      rows: seq<seq<RawValue>>, front: seq<seq<Option<seq<byte>>>>, line: seq<Option<seq<byte>>>)
    requires rows != [] && Lines(rd, names, columns, rows[..|rows| - 1], front)
    requires var row := rows[|rows| - 1];
      && |row| == |names| && (forall c | c in columns :: c.name in SourceRow(names, row))
      && line == RowData(rd, SourceRow(names, row), columns)
    ensures Lines(rd, names, columns, rows, front + [line])
  {
    var n, lines := |rows| - 1, front + [line];
    assert forall i | 0 <= i < n :: rows[..n][i] == rows[i] && lines[i] == front[i];
  }

  lemma {:induction false} BodyIsFile(rd: Renderings, names: seq<string>, columns: seq<Column>,
      rows: seq<seq<RawValue>>, declared: bool) returns (lines: seq<seq<Option<seq<byte>>>>)
    requires rd.Plain() && Body(rd, names, columns, rows, declared).Ok?
    ensures Body(rd, names, columns, rows, declared) == Ok(F.EncodeFile(lines))
    ensures Lines(rd, names, columns, rows, lines)
  {
    if rows == [] {
      lines := [];
    } else {
      var n := |rows| - 1;
      var front := BodyIsFile(rd, names, columns, rows[..n], declared);
      var row := SourceRow(names, rows[n]);
      RowIsLine(rd, row, columns, declared);
      EncodeFileAppend(front, RowData(rd, row, columns));
      lines := front + [RowData(rd, row, columns)];
      LinesAppend(rd, names, columns, rows, front, RowData(rd, row, columns));
    }
  }

  lemma {:induction false} RowSerialized(rd: Renderings, names: seq<string>, columns: seq<Column>,
      rows: seq<seq<RawValue>>, declared: bool, i: nat)
    requires Body(rd, names, columns, rows, declared).Ok? && i < |rows|
    ensures |rows[i]| == |names| && SerializeRow(rd, SourceRow(names, rows[i]), columns, declared).Ok?
  {
    if i < |rows| - 1 {
      RowSerialized(rd, names, columns, rows[..|rows| - 1], declared, i);
    }
  }

  /** A prepared body, read by the COPY grammar and stored by the resolved
      columns, is the source - every row, every cell, every NULL - exactly when
      every cell is one its column keeps. */
  lemma BodyReadsBack(db: Database, names: seq<string>, columns: seq<Column>,
      rows: seq<seq<RawValue>>, declared: bool)
    requires db.Valid() && columns != [] && Supported(columns) && Body(db.rd, names, columns, rows, declared).Ok?
    ensures F.DecodeFile(Body(db.rd, names, columns, rows, declared).value).Ok?
    ensures Holds(db, names, columns, rows, F.DecodeFile(Body(db.rd, names, columns, rows, declared).value).value)
       <==> KeptAll(db, names, columns, rows)
  {
    var lines := BodyIsFile(db.rd, names, columns, rows, declared);
    F.FileRoundTrip(lines);
    forall i | 0 <= i < |rows|
      ensures HoldsRow(db, SourceRow(names, rows[i]), columns, lines[i])
         <==> KeptRow(db, SourceRow(names, rows[i]), columns)
    {
      RowSerialized(db.rd, names, columns, rows, declared, i);
      RowHolds(db, SourceRow(names, rows[i]), columns, declared);
    }
  }

  /** What a prepared body loads: the columns are a permutation of the source
      columns, the count is the number of rows, and the stored cells are the
      source's exactly when each is one its column keeps. */
  lemma PreparedLoadsSource(db: Database, names: seq<string>, schema: Option<seq<Column>>, contract: Contract,
      rows: seq<seq<RawValue>>)
    requires db.Valid() && Meaning(db.rd, names, schema, contract, rows).Ok?
    ensures var p := Meaning(db.rd, names, schema, contract, rows).value;
      && p.rowCount == |rows|
      && Subset(NamesOf(p.columns), names) && Subset(names, NamesOf(p.columns))
      && F.DecodeFile(p.body).Ok?
      && (Holds(db, names, p.columns, rows, F.DecodeFile(p.body).value) <==> KeptAll(db, names, p.columns, rows))
  {
    var p := Meaning(db.rd, names, schema, contract, rows).value;
    assert names[0] in NamesOf(p.columns);
    BodyReadsBack(db, names, p.columns, rows, schema.Some?);
    if schema.None? {
      assert NamesOf(p.columns) == names;
    }
  }

  /** No cell is left to the server's discretion. */
  ghost predicate ServerKeepsAll(db: Database, names: seq<string>, columns: seq<Column>, rows: seq<seq<RawValue>>) {
    forall i, k | 0 <= i < |rows| && 0 <= k < |columns| ::
      && |rows[i]| == |names| && columns[k].name in SourceRow(names, rows[i])
      && ServerKeeps(db, SourceRow(names, rows[i])[columns[k].name], columns[k].sqlType)
  }

  /** A declared body keeps every cell, up to floats in single precision and
      offsets the server refuses. */
  lemma DeclaredBodyKept(db: Database, names: seq<string>, columns: seq<Column>, rows: seq<seq<RawValue>>)
    requires db.Valid() && Body(db.rd, names, columns, rows, true).Ok?
    ensures KeptAll(db, names, columns, rows) <==> ServerKeepsAll(db, names, columns, rows)
  {
    forall i, k | 0 <= i < |rows| && 0 <= k < |columns|
      ensures |rows[i]| == |names| && columns[k].name in SourceRow(names, rows[i])
      ensures var v := SourceRow(names, rows[i])[columns[k].name];
        Kept(db, v, columns[k].sqlType) <==> ServerKeeps(db, v, columns[k].sqlType)
    {
      RowSerialized(db.rd, names, columns, rows, true, i);
      FieldsAt(db.rd, SourceRow(names, rows[i]), columns, true, k);
      DeclaredKept(db, SourceRow(names, rows[i])[columns[k].name], columns[k]);
    }
    forall i | 0 <= i < |rows|
      ensures |rows[i]| == |names|
    {
      RowSerialized(db.rd, names, columns, rows, true, i);
    }
  }

  // -- what inference may still refuse ------------------------------------------------------

  lemma CellUnderName(rd: Renderings, names: seq<string>, row: seq<Value>, c: Column, k: nat)
    requires |names| == |row| && k < |names| && c.name == names[k] && names[k] !in names[k + 1..]
    ensures Cell(rd, RowMap(names, row), c, false) == SerializeInferred(rd, row[k], c)
  {
    RowMapAt(names, row, k);
  }

  lemma {:induction false} FieldsComplete(rd: Renderings, row: map<string, Value>, columns: seq<Column>)
    requires forall k | 0 <= k < |columns| :: Cell(rd, row, columns[k], false).Ok?
    ensures SerializeFields(rd, row, columns, false).Ok?
  {
    if columns != [] {
      FieldsComplete(rd, row, columns[..|columns| - 1]);
    }
  }

  lemma FieldsAccepted(rd: Renderings, row: map<string, Value>, columns: seq<Column>)
    ensures SerializeFields(rd, row, columns, false).Ok? <==>
      forall k | 0 <= k < |columns| :: Cell(rd, row, columns[k], false).Ok?
  {
    if SerializeFields(rd, row, columns, false).Ok? {
      forall k | 0 <= k < |columns|
        ensures Cell(rd, row, columns[k], false).Ok?
      {
        FieldsAt(rd, row, columns, false, k);
      }
    } else if forall k | 0 <= k < |columns| :: Cell(rd, row, columns[k], false).Ok? {
      FieldsComplete(rd, row, columns);
    }
  }

  lemma {:induction false} BodyAccepted(rd: Renderings, names: seq<string>, columns: seq<Column>,
      rows: seq<seq<RawValue>>)
    ensures Body(rd, names, columns, rows, false).Ok? <==>
      forall i | 0 <= i < |rows| :: RowMeaning(rd, names, columns, rows[i], false).Ok?
  {
    if rows != [] {
      BodyAccepted(rd, names, columns, rows[..|rows| - 1]);
      assert forall i | 0 <= i < |rows| - 1 :: rows[..|rows| - 1][i] == rows[i];
    }
  }

  const FREE := Contract([], None, [])

  /** Without pins, overrides and not-null columns, a body whose columns all
      resolve is refused exactly for an integer outside int64 in a BIGINT
      column, or bytes or a NUL in a TEXT column. */
  lemma InferredBodyAccepted(rd: Renderings, names: seq<string>, rows: seq<seq<RawValue>>, types: seq<SqlType>)
    requires !HasDuplicates(names)
    requires forall i | 0 <= i < |rows| :: |rows[i]| == |names|
    requires Inference.StreamTypes(NormalizeRows(rows), |names|) == Ok(types)
    ensures Body(rd, names, ResolveColumns(names, types, FREE), rows, false).Ok? <==>
      forall i, k | 0 <= i < |rows| && 0 <= k < |names| :: !Unwritable(rd, NormalizeRows(rows)[i][k], types[k])
  {
    var columns, values := ResolveColumns(names, types, FREE), NormalizeRows(rows);
    forall i, k | 0 <= i < |rows| && 0 <= k < |names|
      ensures Cell(rd, SourceRow(names, rows[i]), columns[k], false).Err? <==> Unwritable(rd, values[i][k], types[k])
    {
      CellUnderName(rd, names, values[i], columns[k], k);
      Inference.StreamColumnAt(values, k);
      var vs := Inference.StreamColumn(values, k);
      assert vs[i] == values[i][k];
      InferenceSound(rd, vs, vs[i], columns[k]);
    }
    BodyAccepted(rd, names, columns, rows);
    forall i | 0 <= i < |rows|
      ensures RowMeaning(rd, names, columns, rows[i], false).Ok? <==>
        forall k | 0 <= k < |names| :: !Unwritable(rd, values[i][k], types[k])
    {
      FieldsAccepted(rd, SourceRow(names, rows[i]), columns);
    }
  }

  /** Without pins and overrides, a body keeps every cell, up to offsets the
      server refuses. */
  lemma InferredBodyKept(db: Database, names: seq<string>, rows: seq<seq<RawValue>>, types: seq<SqlType>)
    requires !HasDuplicates(names)
    requires forall i | 0 <= i < |rows| :: |rows[i]| == |names|
    requires Inference.StreamTypes(NormalizeRows(rows), |names|) == Ok(types)
    ensures KeptAll(db, names, ResolveColumns(names, types, FREE), rows) <==>
      forall i, k | 0 <= i < |rows| && 0 <= k < |names| :: ServerKeeps(db, NormalizeRows(rows)[i][k], types[k])
  {
    var columns, values := ResolveColumns(names, types, FREE), NormalizeRows(rows);
    forall i, k | 0 <= i < |rows| && 0 <= k < |names|
      ensures var row := SourceRow(names, rows[i]);
        && columns[k].name in row && row[columns[k].name] == values[i][k]
        && (Kept(db, values[i][k], types[k]) <==> ServerKeeps(db, values[i][k], types[k]))
    {
      RowMapAt(names, values[i], k);
      Inference.StreamColumnAt(values, k);
      var vs := Inference.StreamColumn(values, k);
      assert vs[i] == values[i][k];
      FullScanKept(db, vs, vs[i], types[k]);
    }
    forall i | 0 <= i < |rows|
      ensures KeptRow(db, SourceRow(names, rows[i]), columns) <==>
        forall k | 0 <= k < |names| :: ServerKeeps(db, values[i][k], types[k])
    {
      assert forall k | 0 <= k < |names| :: columns[k].sqlType == types[k];
    }
  }
}
