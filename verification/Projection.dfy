/** The two ways a pipeline's output becomes a payload: materialized mappings
    for INSERT, a positional projection for COPY (task_core/db/payload.py,
    150-376; task_core/db/values.py, 297-337; task_core/export.py, 35-95). */
module Projection {
  import opened Values
  import opened CopyWriters

  type RawRow = seq<RawValue>

  /** db_contract: source column to output column, in mapping order; empty is the
      identity. */
  type ContractPairs = seq<(string, string)>

  function Sources(contract: ContractPairs): (r: seq<string>)
    ensures |r| == |contract|
    ensures forall i | 0 <= i < |contract| :: r[i] == contract[i].0
  {
    seq(|contract|, i requires 0 <= i < |contract| => contract[i].0)
  }

  function Targets(contract: ContractPairs): (r: seq<string>)
    ensures |r| == |contract|
    ensures forall i | 0 <= i < |contract| :: r[i] == contract[i].1
  {
    seq(|contract|, i requires 0 <= i < |contract| => contract[i].1)
  }

  /** The output columns before framework columns. */
  function Projected(columns: seq<string>, contract: ContractPairs): seq<string> {
    if contract == [] then columns else Targets(contract)
  }

  /** The configurations both paths accept. */
  predicate Configurable(columns: seq<string>, contract: ContractPairs, framework: seq<string>) {
    && !HasDuplicates(columns)
    && (forall i | 0 <= i < |contract| :: contract[i].0 in columns)
    && !HasDuplicates(Targets(contract))
    && !HasDuplicates(framework)
    && forall i | 0 <= i < |framework| :: framework[i] !in Projected(columns, contract)
  }

  // -- INSERT ---------------------------------------------------------------------------

  /** One mapping row: normalize, rename and cut, add the framework value. */
  function InsertRow(columns: seq<string>, contract: ContractPairs, framework: seq<string>, at: RawValue, row: RawRow)
    : Result<map<string, Value>>
    requires forall i | 0 <= i < |contract| :: contract[i].0 in columns
  {
    if |row| != |columns| then Err
    else
      var source := RowMap(columns, NormalizeAll(row));
      Ok(WithConstants(CutRow(columns, contract, source), framework, Normalize(at)))
  }

  /** {rename[col]: row.get(col)} in contract order. */
  function CutRow(columns: seq<string>, contract: ContractPairs, source: map<string, Value>): map<string, Value> {
    if contract == [] then source
    else RowMap(Targets(contract), seq(|contract|, i requires 0 <= i < |contract| => Get(source, contract[i].0)))
  }

  function WithConstants(row: map<string, Value>, names: seq<string>, v: Value): map<string, Value> {
    if names == [] then row else WithConstants(row, names[..|names| - 1], v)[names[|names| - 1] := v]
  }

  function InsertRows(columns: seq<string>, contract: ContractPairs, framework: seq<string>, at: RawValue,
      rows: seq<RawRow>)
    : Result<seq<map<string, Value>>>
    requires forall i | 0 <= i < |contract| :: contract[i].0 in columns
  {
    if rows == [] then Ok([])
    else
      var n := |rows| - 1;
      var front :- InsertRows(columns, contract, framework, at, rows[..n]);
      var last :- InsertRow(columns, contract, framework, at, rows[n]);
      Ok(front + [last])
  }

  class DbPayload {
    var columns: seq<string>
    var rows: seq<map<string, Value>>
    var frameworkColumns: seq<string>

    constructor (c: seq<string>, r: seq<map<string, Value>>)
      ensures columns == c && rows == r && frameworkColumns == []
    {
      columns := c;
      rows := r;
      frameworkColumns := [];
    }
  }

  /** Rows as mappings under the source columns. */
  method MapRows(columns: seq<string>, rows: seq<RawRow>) returns (r: Result<seq<map<string, Value>>>)
    ensures r == InsertRows(columns, [], [], Native(Null), rows)
  {
    var mapped: seq<map<string, Value>> := [];
    var i := 0;
    while i < |rows|
      invariant 0 <= i <= |rows|
      invariant InsertRows(columns, [], [], Native(Null), rows[..i]) == Ok(mapped)
    {
      InsertRowsStep(columns, [], [], Native(Null), rows, i);
      if |rows[i]| != |columns| {
        return Err;
      }
      mapped := mapped + [RowMap(columns, NormalizeAll(rows[i]))];
      i := i + 1;
    }
    assert rows[..i] == rows;
    r := Ok(mapped);
  }

  lemma InsertRowsStep(columns: seq<string>, contract: ContractPairs, framework: seq<string>, at: RawValue,
      rows: seq<RawRow>, k: nat)
    requires forall i | 0 <= i < |contract| :: contract[i].0 in columns
    requires k < |rows| && InsertRows(columns, contract, framework, at, rows[..k]).Ok?
    ensures var one := InsertRow(columns, contract, framework, at, rows[k]);
      && (one.Err? ==> InsertRows(columns, contract, framework, at, rows).Err?)
      && (one.Ok? ==>
        InsertRows(columns, contract, framework, at, rows[..k + 1])
          == Ok(InsertRows(columns, contract, framework, at, rows[..k]).value + [one.value]))
  {
    assert rows[..k + 1][..k] == rows[..k];
    if InsertRow(columns, contract, framework, at, rows[k]).Err? {
      InsertRefused(columns, contract, framework, at, rows, k);
    }
  }

  lemma {:induction false} InsertRefused(columns: seq<string>, contract: ContractPairs, framework: seq<string>,
      at: RawValue,
      rows: seq<RawRow>, k: nat)
    requires forall i | 0 <= i < |contract| :: contract[i].0 in columns
    requires k < |rows| && InsertRow(columns, contract, framework, at, rows[k]).Err?
    ensures InsertRows(columns, contract, framework, at, rows).Err?
  {
    if k < |rows| - 1 {
      InsertRefused(columns, contract, framework, at, rows[..|rows| - 1], k);
    }
  }

  /** Contract columns applied to mapping rows; a missing source column or a
      repeated target is refused. */
  method ApplyContract(columns: seq<string>, rows: seq<map<string, Value>>, contract: ContractPairs)
    returns (r: Result<(seq<string>, seq<map<string, Value>>)>)
    ensures r.Ok? <==> (forall i | 0 <= i < |contract| :: contract[i].0 in columns) && !HasDuplicates(Targets(contract))
    ensures r.Ok? ==> r.value.0 == Projected(columns, contract) && |r.value.1| == |rows|
    ensures r.Ok? ==> forall i | 0 <= i < |rows| :: r.value.1[i] == CutRow(columns, contract, rows[i])
  {
    if contract == [] {
      return Ok((columns, rows));
    }
    var seen: set<string> := {};
    var i := 0;
    while i < |contract|
      invariant 0 <= i <= |contract|
      invariant forall j | 0 <= j < i :: contract[j].0 in columns
      invariant seen == set j | 0 <= j < i :: contract[j].1
      invariant forall j, m | 0 <= j < m < i :: contract[j].1 != contract[m].1
    {
      if contract[i].0 !in columns {
        return Err;
      }
      if contract[i].1 in seen {
        var j :| 0 <= j < i && contract[j].1 == contract[i].1;
        assert Targets(contract)[j] == Targets(contract)[i];
        return Err;
      }
      seen := seen + {contract[i].1};
      i := i + 1;
    }
    var cut := seq(|rows|, i requires 0 <= i < |rows| => CutRow(columns, contract, rows[i]));
    r := Ok((Targets(contract), cut));
  }

  /** apply_db_updated_at: at most one framework column, appended in place to
      the columns and to every row. */
  method ApplyDbUpdatedAt(payload: DbPayload, framework: seq<string>, at: RawValue) returns (ok: bool)
    requires |framework| <= 1
    modifies payload
    ensures ok <==> forall i | 0 <= i < |framework| :: framework[i] !in old(payload.columns)
    ensures ok ==>
      && payload.columns == old(payload.columns) + framework
      && payload.frameworkColumns == old(payload.frameworkColumns) + framework
      && |payload.rows| == |old(payload.rows)|
      && forall i | 0 <= i < |payload.rows| ::
           payload.rows[i] == WithConstants(old(payload.rows)[i], framework, Normalize(at))
  {
    if framework == [] {
      assert payload.columns == payload.columns + framework;
      assert payload.frameworkColumns == payload.frameworkColumns + framework;
      return true;
    }
    var name := framework[0];
    assert framework == [name];
    if name in payload.columns {
      return false;
    }
    var value := Normalize(at);
    payload.columns := payload.columns + [name];
    var i := 0;
    while i < |payload.rows|
      invariant 0 <= i <= |payload.rows| == |old(payload.rows)|
      invariant forall j | 0 <= j < i :: payload.rows[j] == old(payload.rows)[j][name := value]
      invariant forall j | i <= j < |payload.rows| :: payload.rows[j] == old(payload.rows)[j]
      invariant payload.columns == old(payload.columns) + [name]
      invariant payload.frameworkColumns == old(payload.frameworkColumns)
    {
      payload.rows := payload.rows[i := payload.rows[i][name := value]];
      i := i + 1;
    }
    payload.frameworkColumns := payload.frameworkColumns + framework;
    forall j | 0 <= j < |payload.rows|
      ensures payload.rows[j] == WithConstants(old(payload.rows)[j], framework, value)
    {
      assert framework[..0] == [];
      assert WithConstants(old(payload.rows)[j], [], value) == old(payload.rows)[j];
    }
    ok := true;
  }

  /** What each INSERT row is, stage by stage. */
  lemma {:induction false} StagesAgree(columns: seq<string>, contract: ContractPairs, framework: seq<string>,
      at: RawValue,
      rows: seq<RawRow>, mapped: seq<map<string, Value>>)
    requires forall i | 0 <= i < |contract| :: contract[i].0 in columns
    requires InsertRows(columns, [], [], Native(Null), rows) == Ok(mapped)
    ensures InsertRows(columns, contract, framework, at, rows).Ok?
    ensures |mapped| == |rows| == |InsertRows(columns, contract, framework, at, rows).value|
    ensures var r := InsertRows(columns, contract, framework, at, rows).value;
      forall i | 0 <= i < |rows| ::
        r[i] == WithConstants(CutRow(columns, contract, mapped[i]), framework, Normalize(at))
  {
    if rows != [] {
      var n := |rows| - 1;
      var mappedFront := InsertRows(columns, [], [], Native(Null), rows[..n]).value;
      StagesAgree(columns, contract, framework, at, rows[..n], mappedFront);
    }
  }

  lemma {:induction false} SameRefusal(columns: seq<string>, contract: ContractPairs, framework: seq<string>,
      at: RawValue,
      rows: seq<RawRow>)
    requires forall i | 0 <= i < |contract| :: contract[i].0 in columns
    ensures InsertRows(columns, contract, framework, at, rows).Ok? <==>
      forall i | 0 <= i < |rows| :: |rows[i]| == |columns|
  {
    if rows != [] {
      var n := |rows| - 1;
      SameRefusal(columns, contract, framework, at, rows[..n]);
      assert forall i | 0 <= i < n :: rows[..n][i] == rows[i];
    }
  }

  /** The INSERT payload: refused for a bad configuration or a row of the wrong
      width, else every row as a mapping. */
  method BuildInsertPayload(columns: seq<string>, contract: ContractPairs, framework: seq<string>, at: RawValue,
      rows: seq<RawRow>)
    returns (r: Result<DbPayload>)
    requires |framework| <= 1
    ensures r.Ok? <==>
      && columns != [] && Configurable(columns, contract, framework)
      && forall i | 0 <= i < |rows| :: |rows[i]| == |columns|
    ensures r.Ok? ==>
      && fresh(r.value)
      && r.value.columns == Projected(columns, contract) + framework
      && Ok(r.value.rows) == InsertRows(columns, contract, framework, at, rows)
  {
    if columns == [] || HasDuplicates(columns) {
      return Err;
    }
    SameRefusal(columns, [], [], Native(Null), rows);
    var mapped :- MapRows(columns, rows);
    var cut :- ApplyContract(columns, mapped, contract);
    StagesAgree(columns, contract, framework, at, rows, mapped);
    var payload := new DbPayload(cut.0, cut.1);
    var ok := ApplyDbUpdatedAt(payload, framework, at);
    if !ok {
      return Err;
    }
    assert payload.rows == InsertRows(columns, contract, framework, at, rows).value;
    r := Ok(payload);
  }

  // -- COPY --------------------------------------------------------------------------------

  /** -1 marks a constant's position. */
  datatype RowProjection = RowProjection(
    sourceColumns: seq<string>,
    outputColumns: seq<string>,
    sourceIndices: seq<int>,
    constants: map<int, RawValue>)
  {
    /** __post_init__ */
    predicate Valid() {
      && |outputColumns| == |sourceIndices|
      && (forall k | 0 <= k < |sourceIndices| ::
            if sourceIndices[k] == -1 then k in constants else 0 <= sourceIndices[k] < |sourceColumns|)
      && (forall k | k in constants :: 0 <= k < |outputColumns| && sourceIndices[k] == -1)
    }

    function Project(row: RawRow): (r: RawRow)
      requires Valid() && |row| == |sourceColumns|
      ensures |r| == |outputColumns|
      ensures forall k | 0 <= k < |r| :: r[k] == if sourceIndices[k] == -1 then constants[k] else row[sourceIndices[k]]
    {
      seq(|outputColumns|, k requires 0 <= k < |outputColumns| =>
        if sourceIndices[k] == -1 then constants[k] else row[sourceIndices[k]])
    }
  }

  /** A projection doing what the contract and the framework columns ask. */
  ghost predicate Projects(p: RowProjection, columns: seq<string>, contract: ContractPairs, framework: seq<string>,
      at: RawValue) {
    var n := |Projected(columns, contract)|;
    && p.Valid() && p.sourceColumns == columns
    && p.outputColumns == Projected(columns, contract) + framework
    && (forall k | 0 <= k < n ::
          && 0 <= p.sourceIndices[k] < |columns|
          && columns[p.sourceIndices[k]] == if contract == [] then columns[k] else contract[k].0)
    && (forall k | n <= k < |p.outputColumns| :: p.sourceIndices[k] == -1 && p.constants[k] == at)
  }

  method BuildProjection(columns: seq<string>, contract: ContractPairs, framework: seq<string>, at: RawValue)
    returns (r: Result<RowProjection>)
    ensures r.Ok? <==> Configurable(columns, contract, framework)
    ensures r.Ok? ==> Projects(r.value, columns, contract, framework, at)
  {
    if HasDuplicates(columns) {
      return Err;
    }
    var projected :- ProjectColumns(columns, contract);
    var names, indices := projected.0, projected.1;
    if HasDuplicates(framework) || exists i | 0 <= i < |framework| :: framework[i] in names {
      return Err;
    }
    var constants;
    names, indices, constants := AppendFramework(names, indices, framework, at);
    r := Ok(RowProjection(columns, names, indices, constants));
  }

  /** Framework columns take the positions after the projected ones. */
  method AppendFramework(projected: seq<string>, sources: seq<int>, framework: seq<string>, at: RawValue)
    returns (names: seq<string>, indices: seq<int>, constants: map<int, RawValue>)
    requires |sources| == |projected|
    ensures names == projected + framework && |indices| == |names|
    ensures forall k | 0 <= k < |projected| :: indices[k] == sources[k]
    ensures forall k | |projected| <= k < |names| :: indices[k] == -1 && k in constants && constants[k] == at
    ensures forall k | k in constants :: |projected| <= k < |names|
  {
    names, indices, constants := projected, sources, map[];
    var i := 0;
    while i < |framework|
      invariant 0 <= i <= |framework|
      invariant names == projected + framework[..i] && |indices| == |names|
      invariant forall k | 0 <= k < |projected| :: indices[k] == sources[k]
      invariant forall k | |projected| <= k < |names| :: indices[k] == -1 && k in constants && constants[k] == at
      invariant forall k | k in constants :: |projected| <= k < |names|
    {
      constants := constants[|names| := at];
      names := names + [framework[i]];
      indices := indices + [-1];
      i := i + 1;
    }
    assert framework[..i] == framework;
  }

  method ProjectColumns(columns: seq<string>, contract: ContractPairs) returns (r: Result<(seq<string>, seq<int>)>)
    ensures r.Ok? <==> (forall i | 0 <= i < |contract| :: contract[i].0 in columns) && !HasDuplicates(Targets(contract))
    ensures r.Ok? ==>
      && r.value.0 == Projected(columns, contract) && |r.value.1| == |r.value.0|
      && forall k | 0 <= k < |r.value.0| ::
           && 0 <= r.value.1[k] < |columns|
           && columns[r.value.1[k]] == if contract == [] then columns[k] else contract[k].0
  {
    if contract == [] {
      return Ok((columns, seq(|columns|, k => k)));
    }
    var sourceIndex := SourceIndex(columns);
    var indices: seq<int> := [];
    var i := 0;
    while i < |contract|
      invariant 0 <= i <= |contract| && |indices| == i
      invariant forall k | 0 <= k < i ::
        && contract[k].0 in columns && 0 <= indices[k] < |columns| && columns[indices[k]] == contract[k].0
    {
      if contract[i].0 !in sourceIndex {
        return Err;
      }
      indices := indices + [sourceIndex[contract[i].0]];
      i := i + 1;
    }
    if HasDuplicates(Targets(contract)) {
      return Err;
    }
    r := Ok((Targets(contract), indices));
  }

  function ProjectRows(p: RowProjection, rows: seq<RawRow>): Result<seq<RawRow>>
    requires p.Valid()
  {
    if rows == [] then Ok([])
    else
      var n := |rows| - 1;
      var front :- ProjectRows(p, rows[..n]);
      if |rows[n]| != |p.sourceColumns| then Err else Ok(front + [p.Project(rows[n])])
  }

  lemma {:induction false} ProjectRefused(p: RowProjection, rows: seq<RawRow>, k: nat)
    requires p.Valid() && k < |rows| && |rows[k]| != |p.sourceColumns|
    ensures ProjectRows(p, rows).Err?
  {
    if k < |rows| - 1 {
      ProjectRefused(p, rows[..|rows| - 1], k);
    }
  }

  /** The one-shot source: it is claimed by the first traversal. */
  class ProjectedRowSource {
    const rows: seq<RawRow>
    const projection: RowProjection
    var claimed: bool

    constructor (source: seq<RawRow>, p: RowProjection)
      ensures rows == source && projection == p && !claimed
    {
      rows := source;
      projection := p;
      claimed := false;
    }

    method IterRows() returns (r: Result<seq<RawRow>>)
      requires projection.Valid()
      modifies this
      ensures claimed
      ensures r == if old(claimed) then Err else ProjectRows(projection, rows)
    {
      if claimed {
        return Err;
      }
      claimed := true;
      var out: seq<RawRow> := [];
      var i := 0;
      while i < |rows|
        invariant 0 <= i <= |rows| && claimed
        invariant ProjectRows(projection, rows[..i]) == Ok(out)
      {
        if |rows[i]| != |projection.sourceColumns| {
          ProjectRefused(projection, rows, i);
          return Err;
        }
        assert rows[..i + 1][..i] == rows[..i];
        out := out + [projection.Project(rows[i])];
        i := i + 1;
      }
      assert rows[..i] == rows;
      r := Ok(out);
    }
  }

  // -- parity -----------------------------------------------------------------------------------

  lemma {:induction false} RowMapConstants(names: seq<string>, values: seq<Value>, framework: seq<string>, v: Value,
      all: seq<Value>)
    requires |names| == |values| && |all| == |names| + |framework|
    requires all[..|names|] == values && forall k | |names| <= k < |all| :: all[k] == v
    ensures RowMap(names + framework, all) == WithConstants(RowMap(names, values), framework, v)
  {
    if framework == [] {
      assert names + framework == names && all == values;
    } else {
      var m := |framework| - 1;
      assert (names + framework)[..|all| - 1] == names + framework[..m];
      RowMapConstants(names, values, framework[..m], v, all[..|all| - 1]);
    }
  }

  /** One row: the COPY tuple under the output columns, normalized, is the INSERT
      mapping. */
  lemma RowParity(p: RowProjection, columns: seq<string>, contract: ContractPairs, framework: seq<string>,
      at: RawValue, row: RawRow)
    requires Configurable(columns, contract, framework) && Projects(p, columns, contract, framework, at)
    requires |row| == |columns|
    ensures InsertRow(columns, contract, framework, at, row)
         == Ok(RowMap(p.outputColumns, NormalizeAll(p.Project(row))))
  {
    var names := Projected(columns, contract);
    var values, source := NormalizeAll(row), RowMap(columns, NormalizeAll(row));
    var all := NormalizeAll(p.Project(row));
    var cut := if contract == [] then values
      else seq(|contract|, i requires 0 <= i < |contract| => Get(source, contract[i].0));
    forall k | 0 <= k < |names|
      ensures all[k] == cut[k]
    {
      SourceCell(columns, row, p.sourceIndices[k]);
      if contract == [] {
        UniqueIndex(columns, p.sourceIndices[k], k);
      }
    }
    assert all[..|names|] == cut;
    RowMapConstants(names, cut, framework, Normalize(at), all);
  }

  lemma UniqueIndex(names: seq<string>, i: nat, j: nat)
    requires i < |names| && j < |names| && names[i] == names[j] && !HasDuplicates(names)
    ensures i == j
  {
  }

  lemma SourceCell(columns: seq<string>, row: RawRow, i: nat)
    requires |row| == |columns| && i < |columns| && !HasDuplicates(columns)
    ensures Get(RowMap(columns, NormalizeAll(row)), columns[i]) == Normalize(row[i])
  {
    assert forall j | i < j < |columns| :: columns[j] != columns[i];
    assert columns[i] !in columns[i + 1..];
    RowMapAt(columns, NormalizeAll(row), i);
  }

  /** The same rows accepted, the same columns paired with the same values. */
  ghost predicate SameRows(p: RowProjection, rows: seq<RawRow>, inserted: Result<seq<map<string, Value>>>,
      copied: Result<seq<RawRow>>) {
    && (inserted.Ok? <==> copied.Ok?)
    && (inserted.Ok? ==>
         && |inserted.value| == |copied.value| == |rows|
         && forall i | 0 <= i < |rows| ::
              |copied.value[i]| == |p.outputColumns|
              && inserted.value[i] == RowMap(p.outputColumns, NormalizeAll(copied.value[i])))
  }

  lemma OneMoreRow(p: RowProjection, rows: seq<RawRow>, inserted: seq<map<string, Value>>, copied: seq<RawRow>,
      mapping: map<string, Value>, tuple: RawRow)
    requires rows != [] && SameRows(p, rows[..|rows| - 1], Ok(inserted), Ok(copied))
    requires |tuple| == |p.outputColumns| && mapping == RowMap(p.outputColumns, NormalizeAll(tuple))
    ensures SameRows(p, rows, Ok(inserted + [mapping]), Ok(copied + [tuple]))
  {
  }

  /** Under a configuration both accept, both paths accept the same rows, and
      row by row pair the same columns with the same values. */
  lemma {:induction false} PathsAgree(p: RowProjection, columns: seq<string>, contract: ContractPairs,
      framework: seq<string>,
      at: RawValue, rows: seq<RawRow>)
    requires Configurable(columns, contract, framework) && Projects(p, columns, contract, framework, at)
    ensures SameRows(p, rows, InsertRows(columns, contract, framework, at, rows), ProjectRows(p, rows))
  {
    if rows != [] {
      var n := |rows| - 1;
      PathsAgree(p, columns, contract, framework, at, rows[..n]);
      var inserted, copied := InsertRows(columns, contract, framework, at, rows[..n]), ProjectRows(p, rows[..n]);
      if |rows[n]| == |columns| && inserted.Ok? {
        RowParity(p, columns, contract, framework, at, rows[n]);
        var mapping := RowMap(p.outputColumns, NormalizeAll(p.Project(rows[n])));
        OneMoreRow(p, rows, inserted.value, copied.value, mapping, p.Project(rows[n]));
      }
    }
  }
}
