/** A database as publication sees it: relations under schema-qualified names,
    the source-state rows, and the statements issued against them.  Err is a
    statement the server refuses. */
module Catalog {
  import opened Values
  import opened Identifiers

  datatype Key = Key(schema: string, name: string)

  datatype Kind = OrdinaryTable | OtherKind

  /** One column's physical metadata; `extra` stands for type modifiers,
      collation, identity, generation and defaults. */
  datatype Attribute = Attribute(name: string, sqlType: SqlType, notNull: bool, extra: string)

  type Rows = seq<seq<Value>>

  /** `referenced`: an object outside the relation depends on it. */
  datatype Relation = Relation(
    oid: nat,
    kind: Kind,
    columns: seq<Attribute>,
    rows: Rows,
    comment: Comment,
    referenced: bool)

  datatype StateKey = StateKey(task: string, sourceKey: string)

  /** `details` stands for the descriptive columns. */
  datatype StateRow = StateRow(signature: string, details: string, snapshot: Option<string>)

  type State = map<StateKey, StateRow>

  /** One statement on the source-state table. */
  type Write = State -> Result<State>

  function RunWrites(writes: seq<Write>, state: State): Result<State> {
    if writes == [] then Ok(state)
    else
      var front :- RunWrites(writes[..|writes| - 1], state);
      writes[|writes| - 1](front)
  }

  datatype Database = Database(tables: map<Key, Relation>, nextOid: nat, state: State)

  /** Some first of these statements, and nothing else, have changed the database. */
  ghost predicate WrittenPart(before: Database, now: Database, writes: seq<Write>) {
    exists n :: 0 <= n <= |writes| && WrittenTo(before, now, writes, n)
  }

  ghost predicate WrittenTo(before: Database, now: Database, writes: seq<Write>, n: nat)
    requires n <= |writes|
  {
    RunWrites(writes[..n], before.state).Ok? && now == before.(state := RunWrites(writes[..n], before.state).value)
  }

  function ColumnNames(columns: seq<Attribute>): (r: seq<string>)
    ensures |r| == |columns|
    ensures forall k | 0 <= k < |columns| :: r[k] == columns[k].name
  {
    seq(|columns|, k requires 0 <= k < |columns| => columns[k].name)
  }

  /** The columns a table created from a resolved schema has. */
  function Attributes(columns: seq<Column>): (r: seq<Attribute>)
    ensures |r| == |columns|
    ensures forall k | 0 <= k < |columns| ::
      r[k] == Attribute(columns[k].name, columns[k].sqlType, !columns[k].nullable, "")
  {
    seq(|columns|, k requires 0 <= k < |columns| =>
      Attribute(columns[k].name, columns[k].sqlType, !columns[k].nullable, ""))
  }

  // -- statements ---------------------------------------------------------------------

  function CreateTable(db: Database, key: Key, columns: seq<Attribute>): Result<Database> {
    if key in db.tables then Err
    else Ok(db.(
      tables := db.tables[key := Relation(db.nextOid, OrdinaryTable, columns, [], NoComment, false)],
      nextOid := db.nextOid + 1))
  }

  function InsertRows(db: Database, key: Key, rows: Rows): Result<Database> {
    if key !in db.tables then Err
    else Ok(db.(tables := db.tables[key := db.tables[key].(rows := db.tables[key].rows + rows)]))
  }

  function CommentOn(db: Database, key: Key, comment: Comment): Result<Database> {
    if key !in db.tables then Err
    else Ok(db.(tables := db.tables[key := db.tables[key].(comment := comment)]))
  }

  /** DROP TABLE IF EXISTS, without CASCADE. */
  function DropIfExists(db: Database, key: Key): Result<Database> {
    if key !in db.tables then Ok(db)
    else if db.tables[key].kind != OrdinaryTable || db.tables[key].referenced then Err
    else Ok(db.(tables := db.tables - {key}))
  }

  /** ALTER TABLE ... RENAME TO: same schema, same relation. */
  function Rename(db: Database, key: Key, name: string): Result<Database> {
    var to := Key(key.schema, name);
    if key !in db.tables || to in db.tables then Err
    else Ok(db.(tables := (db.tables - {key})[to := db.tables[key]]))
  }

  function Truncate(db: Database, key: Key): Result<Database> {
    if key !in db.tables || db.tables[key].referenced then Err
    else Ok(db.(tables := db.tables[key := db.tables[key].(rows := [])]))
  }

  function IndexOf(names: seq<string>, name: string): (i: nat)
    requires name in names
    ensures i < |names| && names[i] == name
  {
    if names[0] == name then 0 else 1 + IndexOf(names[1..], name)
  }

  /** One row of INSERT INTO target (names) SELECT names FROM source. */
  function ProjectRow(row: seq<Value>, source: seq<string>, target: seq<string>, names: seq<string>): seq<Value>
    requires forall name | name in names :: name in source
  {
    seq(|target|, j requires 0 <= j < |target| =>
      if target[j] in names && IndexOf(source, target[j]) < |row|
      then row[IndexOf(source, target[j])] else Null)
  }

  function InsertSelect(db: Database, target: Key, source: Key, names: seq<string>): Result<Database> {
    if target !in db.tables || source !in db.tables then Err
    else
      var from, to := ColumnNames(db.tables[source].columns), ColumnNames(db.tables[target].columns);
      if (exists name | name in names :: name !in from || name !in to) || HasDuplicates(names) then Err
      else
        var rows := db.tables[source].rows;
        InsertRows(db, target,
          seq(|rows|, i requires 0 <= i < |rows| => ProjectRow(rows[i], from, to, names)))
  }

  // -- whole-row copies -------------------------------------------------------------------

  /** A table's rows are as wide as it is, and its columns are distinct. */
  predicate Tabular(r: Relation) {
    && !HasDuplicates(ColumnNames(r.columns))
    && forall i | 0 <= i < |r.rows| :: |r.rows[i]| == |r.columns|
  }

  lemma {:induction false} IndexOfUnique(names: seq<string>, k: nat)
    requires k < |names| && !HasDuplicates(names)
    ensures IndexOf(names, names[k]) == k
  {
    var i := IndexOf(names, names[k]);
    assert names[i] == names[k];
  }

  lemma ProjectIdentity(row: seq<Value>, names: seq<string>)
    requires |row| == |names| && !HasDuplicates(names)
    ensures ProjectRow(row, names, names, names) == row
  {
    forall j | 0 <= j < |names|
      ensures ProjectRow(row, names, names, names)[j] == row[j]
    {
      IndexOfUnique(names, j);
    }
  }

  /** INSERT ... SELECT of every column between equally shaped tables appends
      the source's rows as they are. */
  lemma InsertSelectCopies(db: Database, target: Key, source: Key, names: seq<string>)
    requires target in db.tables && source in db.tables && Tabular(db.tables[source])
    requires names == ColumnNames(db.tables[source].columns) == ColumnNames(db.tables[target].columns)
    ensures InsertSelect(db, target, source, names) == InsertRows(db, target, db.tables[source].rows)
  {
    var rows := db.tables[source].rows;
    var copied := seq(|rows|, i requires 0 <= i < |rows| => ProjectRow(rows[i], names, names, names));
    forall i | 0 <= i < |rows|
      ensures copied[i] == rows[i]
    {
      ProjectIdentity(rows[i], names);
    }
    assert copied == rows;
  }
}
