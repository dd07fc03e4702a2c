/** The statements of one publication transaction, issued one by one on a
    session that may fail at any of them
    (task_core/db/publish.py, 1131-1181, 1236-1499; policies.py, 20-45). */
module PublicationSteps {
  import opened Values
  import opened Catalog
  import opened Identifiers
  import opened Publication
  import opened Server
  import LockPolicy

  /** Source-state work queued for the publication transaction. */
  datatype Step = Step(description: string, writes: seq<Write>)

  /** The statements of these steps, in order. */
  function WritesOf(steps: seq<Step>): seq<Write> {
    if steps == [] then [] else WritesOf(steps[..|steps| - 1]) + steps[|steps| - 1].writes
  }

  function RunSteps(steps: seq<Step>, state: State): Result<State> {
    RunWrites(WritesOf(steps), state)
  }

  lemma WritesFrom(steps: seq<Step>, i: nat)
    requires i < |steps|
    ensures WritesOf(steps[..i + 1]) == WritesOf(steps[..i]) + steps[i].writes
  {
    assert steps[..i + 1][..i] == steps[..i];
  }

  lemma {:induction false} WritesPrefix(steps: seq<Step>, i: nat)
    requires i <= |steps|
    ensures WritesOf(steps[..i]) <= WritesOf(steps)
    decreases |steps| - i
  {
    if i < |steps| {
      WritesFrom(steps, i);
      WritesPrefix(steps, i + 1);
    } else {
      assert steps[..i] == steps;
    }
  }

  class PublicationPlan {
    var steps: seq<Step>

    constructor ()
      ensures steps == []
    {
      steps := [];
    }

    method Add(step: Step)
      modifies this
      ensures steps == old(steps) + [step]
    {
      steps := steps + [step];
    }

    method Clear()
      modifies this
      ensures steps == []
    {
      steps := [];
    }

    /** Every statement of every step in order, each inside the open
        transaction; a failure leaves there what the statements so far did. */
    method Run(conn: Session) returns (r: Outcome<()>)
      requires conn.Valid() && !conn.invalidated && conn.work.Some? && !conn.aborted
      modifies conn
      ensures conn.Valid()
      ensures Blamed(conn.trace, r)
      ensures r.Done? ==>
        && !conn.invalidated && !conn.aborted
        && RunSteps(steps, old(conn.work).value.state).Ok?
        && conn.work == Some(old(conn.work).value.(state := RunSteps(steps, old(conn.work).value.state).value))
      ensures r.Raised? ==> !r.error.Refused?
      ensures r.Raised? && conn.Committable() ==> WrittenPart(old(conn.work).value, conn.work.value, WritesOf(steps))
    {
      ghost var before := conn.work.value;
      var i := 0;
      while i < |steps|
        invariant 0 <= i <= |steps|
        invariant Written(conn, before, WritesOf(steps[..i]))
      {
        WritesFrom(steps, i);
        WritesPrefix(steps, i + 1);
        var _ :- RunStep(conn, steps[i], before, WritesOf(steps[..i]), WritesOf(steps));
        i := i + 1;
      }
      assert steps[..i] == steps;
      r := Done(());
    }
  }

  /** A healthy transaction in which these statements, and nothing else, have
      changed the database. */
  ghost predicate Written(conn: Session, before: Database, done: seq<Write>)
    reads conn
  {
    && conn.Valid() && !conn.invalidated && !conn.aborted
    && RunWrites(done, before.state).Ok?
    && conn.work == Some(before.(state := RunWrites(done, before.state).value))
  }

  /** The statements of one step. */
  method RunStep(conn: Session, step: Step, ghost before: Database, ghost done: seq<Write>, ghost all: seq<Write>)
    returns (r: Outcome<()>)
    requires Written(conn, before, done) && done + step.writes <= all
    modifies conn
    ensures conn.Valid() && Blamed(conn.trace, r)
    ensures r.Done? ==> Written(conn, before, done + step.writes)
    ensures r.Raised? ==> !r.error.Refused? && (conn.Committable() ==> WrittenPart(before, conn.work.value, all))
  {
    var writes := step.writes;
    var j := 0;
    assert done + writes[..0] == done;
    while j < |writes|
      invariant 0 <= j <= |writes|
      invariant Written(conn, before, done + writes[..j])
    {
      var view := conn.work.value;
      var next := writes[j](view.state);
      ghost var n := |done| + j;
      assert all[..n] == done + writes[..j];
      assert all[..n + 1] == done + writes[..j + 1];
      assert all[..n + 1][..n] == all[..n] && all[..n + 1][n] == writes[j];
      r := conn.Execute(if next.Ok? then Ok(view.(state := next.value)) else Err);
      if r.Raised? {
        assert conn.Committable() ==>
          WrittenTo(before, conn.work.value, all, n) || WrittenTo(before, conn.work.value, all, n + 1);
        return;
      }
      j := j + 1;
    }
    assert done + writes[..j] == done + writes;
    r := Done(());
  }

  /** The relation a query finds under a name. */
  method FindRelation(conn: Session, key: Key) returns (r: Outcome<Option<Relation>>)
    requires conn.Valid() && !conn.invalidated
    modifies conn
    ensures conn.Valid()
    ensures conn.trace == old(conn.trace) + [Issued(Sql, FaultOf(r))]
    ensures r.Done? ==>
      && conn.work == Some(old(conn.View())) && !conn.invalidated && !conn.aborted
      && r.value == (if key in old(conn.View()).tables then Some(old(conn.View()).tables[key]) else None)
    ensures r.Raised? ==> !r.error.Refused? && OnlyRead(conn, Some(old(conn.View())))
  {
    var _ :- conn.Query();
    var tables := conn.work.value.tables;
    r := Done(if key in tables then Some(tables[key]) else None);
  }

  lemma InsertInTurn(db: Database, key: Key, a: Rows, b: Rows)
    requires key in db.tables
    ensures InsertRows(InsertRows(db, key, a).value, key, b) == InsertRows(db, key, a + b)
  {
    assert db.tables[key].rows + (a + b) == db.tables[key].rows + a + b;
    var once := db.tables[key].(rows := db.tables[key].rows + a);
    var twice := once.(rows := once.rows + b);
    assert db.tables[key := once][key := twice] == db.tables[key := twice];
  }

  /** The first so many of the rows. */
  ghost predicate LoadedPart(before: Database, now: Database, key: Key, rows: Rows) {
    exists n: nat :: n <= |rows| && InsertRows(before, key, rows[..n]) == Ok(now)
  }

  /** The loader's chunked insertion. */
  method LoadRows(conn: Session, key: Key, rows: Rows, chunkSize: nat) returns (r: Outcome<nat>)
    requires conn.Valid() && !conn.invalidated && !conn.aborted && conn.work.Some? && chunkSize >= 1
    requires key in conn.work.value.tables
    modifies conn
    ensures conn.Valid()
    ensures Blamed(conn.trace, r)
    ensures r.Done? ==>
      && !conn.invalidated && !conn.aborted && conn.work.Some? && r.value == |rows|
      && InsertRows(old(conn.work).value, key, rows) == Ok(conn.work.value)
    ensures r.Raised? ==> !r.error.Refused?
    ensures r.Raised? && conn.Committable() ==> LoadedPart(old(conn.work).value, conn.work.value, key, rows)
  {
    ghost var before := conn.work.value;
    var loaded := 0;
    assert before.tables[key].rows + rows[..0] == before.tables[key].rows;
    assert before.tables[key := before.tables[key]] == before.tables;
    while loaded < |rows|
      invariant 0 <= loaded <= |rows|
      invariant conn.Valid() && !conn.invalidated && !conn.aborted && conn.work.Some?
      invariant InsertRows(before, key, rows[..loaded]) == Ok(conn.work.value)
    {
      var next := if loaded + chunkSize < |rows| then loaded + chunkSize else |rows|;
      var chunk := rows[loaded..next];
      InsertInTurn(before, key, rows[..loaded], chunk);
      assert rows[..next] == rows[..loaded] + chunk;
      var inserted := conn.Execute(InsertRows(conn.work.value, key, chunk));
      if inserted.Raised? {
        assert conn.Committable() ==>
          || InsertRows(before, key, rows[..loaded]) == Ok(conn.work.value)
          || InsertRows(before, key, rows[..next]) == Ok(conn.work.value);
        return Raised(inserted.error);
      }
      loaded := next;
    }
    assert rows[..loaded] == rows;
    r := Done(loaded);
  }

  // -- checks and effects on a session ------------------------------------------------------

  /** The staging table still carries this run's ownership of this target. */
  predicate Owned(db: Database, s: Swap, run: Run) {
    && s.staging in db.tables
    && db.tables[s.staging].kind == OrdinaryTable
    && var owner := ParseStagingComment(db.tables[s.staging].comment);
      && owner.Some?
      && owner.value.run == run.token && owner.value.task == run.task
      && owner.value.table == s.target.name && owner.value.schema == Some(s.target.schema)
  }

  /** An existing table a refill may keep. */
  predicate Compatible(db: Database, s: Swap) {
    && s.target in db.tables && s.staging in db.tables
    && db.tables[s.target].kind == OrdinaryTable
    && db.tables[s.target].columns == db.tables[s.staging].columns
    && !db.tables[s.target].referenced
  }

  /** A live relation in the way of its target: no ordinary table, or not one a
      refill may keep. */
  predicate Unfit(db: Database, s: Swap, plan: Plan) {
    && s.target in db.tables
    && (db.tables[s.target].kind != OrdinaryTable || (plan.Refill(s) && !Compatible(db, s)))
  }

  /** Nothing but what was there to be committed. */
  ghost predicate OnlyRead(conn: Session, before: Option<Database>)
    reads conn
  {
    conn.Committable() ==> conn.work == before
  }

  method VerifyArtifacts(conn: Session, pending: seq<Swap>, run: Run) returns (r: Outcome<()>)
    requires conn.Valid() && !conn.invalidated && !conn.aborted && conn.work.Some?
    modifies conn
    ensures conn.Valid()
    ensures Blamed(conn.trace, r)
    ensures r.Done? ==> conn.work == old(conn.work) && !conn.invalidated && !conn.aborted
    ensures r.Done? ==> forall s | s in pending :: Owned(conn.work.value, s, run)
    ensures r == Raised(Refused) ==> exists s | s in pending :: !Owned(old(conn.work).value, s, run)
    ensures r.Raised? ==> OnlyRead(conn, old(conn.work))
  {
    var i := 0;
    while i < |pending|
      invariant 0 <= i <= |pending|
      invariant conn.Valid() && !conn.invalidated && !conn.aborted && conn.work == old(conn.work)
      invariant forall j | 0 <= j < i :: Owned(conn.work.value, pending[j], run)
    {
      var s := pending[i];
      assert s in pending;
      var relation :- FindRelation(conn, s.staging);
      if relation.None? || relation.value.kind != OrdinaryTable {
        return Raised(Refused);
      }
      var _ :- conn.Query();
      var owner := ParseStagingComment(relation.value.comment);
      if owner.None? || owner.value.run != run.token || owner.value.task != run.task {
        return Raised(Refused);
      }
      if owner.value.table != s.target.name || owner.value.schema != Some(s.target.schema) {
        return Raised(Refused);
      }
      i := i + 1;
    }
    r := Done(());
  }

  /** INSERT ... SELECT, the comment, and the drop of the staging table. */
  method FillFrom(conn: Session, s: Swap, run: Run, names: seq<string>) returns (r: Outcome<()>)
    requires conn.Valid() && !conn.invalidated && !conn.aborted && conn.work.Some?
    modifies conn
    ensures conn.Valid()
    ensures Blamed(conn.trace, r)
    ensures r.Done? ==>
      && !conn.invalidated && !conn.aborted && conn.work.Some?
      && FillFromStaging(old(conn.work).value, s, run, names) == Ok(conn.work.value)
      && conn.locks == old(conn.locks)
    ensures r.Raised? ==> !r.error.Refused?
    ensures r.Raised? && conn.Committable() ==> FillPart(old(conn.work).value, conn.work.value, s, run, names)
  {
    var _ :- conn.Execute(InsertSelect(conn.work.value, s.target, s.staging, names));
    var _ :- conn.Execute(CommentOn(conn.work.value, s.target, PublishedBy(run, s)));
    var _ :- conn.Execute(DropIfExists(conn.work.value, s.staging));
    r := Done(());
  }

  /** CREATE TABLE, then filling it. */
  method CreateFrom(conn: Session, s: Swap, run: Run, columns: seq<Attribute>) returns (r: Outcome<()>)
    requires conn.Valid() && !conn.invalidated && !conn.aborted && conn.work.Some?
    modifies conn
    ensures conn.Valid()
    ensures Blamed(conn.trace, r)
    ensures r.Done? ==>
      && !conn.invalidated && !conn.aborted && conn.work.Some?
      && CreateTarget(old(conn.work).value, s, run, columns) == Ok(conn.work.value)
    ensures r.Raised? ==> !r.error.Refused?
    ensures r.Raised? && conn.Committable() ==> CreatePart(old(conn.work).value, conn.work.value, s, run, columns)
  {
    var _ :- conn.Execute(CreateTable(conn.work.value, s.target, columns));
    r := FillFrom(conn, s, run, ColumnNames(columns));
  }

  /** TRUNCATE, then filling it again. */
  method RefillFrom(conn: Session, s: Swap, run: Run, names: seq<string>) returns (r: Outcome<()>)
    requires conn.Valid() && !conn.invalidated && !conn.aborted && conn.work.Some?
    modifies conn
    ensures conn.Valid()
    ensures Blamed(conn.trace, r)
    ensures r.Done? ==>
      && !conn.invalidated && !conn.aborted && conn.work.Some?
      && RefillTarget(old(conn.work).value, s, run, names) == Ok(conn.work.value)
      && conn.locks == old(conn.locks)
    ensures r.Raised? ==> !r.error.Refused?
    ensures r.Raised? && conn.Committable() ==> RefillPart(old(conn.work).value, conn.work.value, s, run, names)
  {
    var _ :- conn.Execute(Truncate(conn.work.value, s.target));
    r := FillFrom(conn, s, run, names);
  }

  /** Drop, rename, comment. */
  method ReplaceFrom(conn: Session, s: Swap, run: Run) returns (r: Outcome<()>)
    requires conn.Valid() && !conn.invalidated && !conn.aborted && conn.work.Some?
    modifies conn
    ensures conn.Valid()
    ensures Blamed(conn.trace, r)
    ensures r.Done? ==>
      && !conn.invalidated && !conn.aborted && conn.work.Some?
      && ReplaceTarget(old(conn.work).value, s, run) == Ok(conn.work.value)
      && conn.locks == old(conn.locks)
    ensures r.Raised? ==> !r.error.Refused?
    ensures r.Raised? && conn.Committable() ==> ReplacePart(old(conn.work).value, conn.work.value, s, run)
  {
    var _ :- conn.Execute(DropIfExists(conn.work.value, s.target));
    var _ :- conn.Execute(Rename(conn.work.value, s.staging, s.target.name));
    var _ :- conn.Execute(CommentOn(conn.work.value, s.target, PublishedBy(run, s)));
    r := Done(());
  }

  /** The work so far, with `done` published, in an open, healthy transaction. */
  ghost predicate Progress(conn: Session, before: Database, done: set<Swap>, plan: Plan, state: State)
    reads conn
  {
    && conn.Valid() && !conn.invalidated && !conn.aborted && conn.work.Some?
    && Partly(before, conn.work.value, done, plan)
    && conn.work.value.state == state
  }

  /** What a failed statement leaves to be committed: at most s begun. */
  ghost predicate Stuck(conn: Session, before: Database, done: set<Swap>, s: Swap, plan: Plan, state: State)
    reads conn
  {
    conn.Committable() ==> ReachedIn(before, conn.work.value, done, s, plan) && conn.work.value.state == state
  }

  /** The first publication of a refill target: created and filled while still
      invisible to others. */
  method CreateAndFill(conn: Session, s: Swap, plan: Plan, ghost before: Database, ghost done: set<Swap>)
    returns (r: Outcome<()>)
    requires conn.work.Some? && Progress(conn, before, done, plan, conn.work.value.state)
    requires s !in done && Separate(done + {s}) && Prepared(before, s, plan)
    requires plan.Refill(s) && s.target !in before.tables
    modifies conn
    ensures conn.Valid()
    ensures Blamed(conn.trace, r)
    ensures r.Done? ==> Progress(conn, before, done + {s}, plan, old(conn.work).value.state)
    ensures r.Raised? ==> !r.error.Refused? && Stuck(conn, before, done, s, plan, old(conn.work).value.state)
  {
    ghost var now := conn.work.value;
    NotYet(before, now, done, s, plan);
    assert s in done + {s};
    var columns := plan.Columns(s);
    r := CreateFrom(conn, s, plan.run, columns);
    if r.Raised? {
      if conn.Committable() {
        CreateReached(before, now, conn.work.value, done, s, plan);
      }
      return;
    }
    CreateEffect(now, s, plan.run, columns);
    ghost var rows := now.tables[s.staging].rows;
    ghost var live := Relation(now.nextOid, OrdinaryTable, columns, rows, PublishedBy(plan.run, s), false);
    PartlyStep(before, now, conn.work.value, done, s, live, plan);
  }

  /** Truncate and refill, under the table's lock: it keeps its identity. */
  method RefillExisting(conn: Session, s: Swap, plan: Plan, ghost before: Database, ghost done: set<Swap>)
    returns (r: Outcome<()>)
    requires conn.work.Some? && Progress(conn, before, done, plan, conn.work.value.state)
    requires s !in done && Separate(done + {s}) && Prepared(before, s, plan)
    requires plan.Refill(s) && Compatible(before, s) && s.target in conn.locks
    modifies conn
    ensures conn.Valid()
    ensures Blamed(conn.trace, r)
    ensures r.Done? ==> Progress(conn, before, done + {s}, plan, old(conn.work).value.state)
    ensures r.Done? ==> conn.locks == old(conn.locks)
    ensures r.Raised? ==> !r.error.Refused? && Stuck(conn, before, done, s, plan, old(conn.work).value.state)
  {
    ghost var now := conn.work.value;
    NotYet(before, now, done, s, plan);
    assert s in done + {s};
    var names := ColumnNames(plan.Columns(s));
    r := RefillFrom(conn, s, plan.run, names);
    if r.Raised? {
      if conn.Committable() {
        RefillReached(before, now, conn.work.value, done, s, plan, names);
      }
      return;
    }
    RefillEffect(now, s, plan.run, names);
    ghost var live := now.tables[s.target].(rows := now.tables[s.staging].rows, comment := PublishedBy(plan.run, s));
    PartlyStep(before, now, conn.work.value, done, s, live, plan);
  }

  /** Drop, rename, comment: the staging table becomes the live one, whose
      predecessor, if there is one, is already locked. */
  method Replace(conn: Session, s: Swap, plan: Plan, ghost before: Database, ghost done: set<Swap>)
    returns (r: Outcome<()>)
    requires conn.work.Some? && Progress(conn, before, done, plan, conn.work.value.state)
    requires s !in done && Separate(done + {s}) && Prepared(before, s, plan)
    requires !plan.Refill(s) && (s.target in before.tables ==> s.target in conn.locks)
    modifies conn
    ensures conn.Valid()
    ensures Blamed(conn.trace, r)
    ensures r.Done? ==> Progress(conn, before, done + {s}, plan, old(conn.work).value.state)
    ensures r.Done? ==> conn.locks == old(conn.locks)
    ensures r.Raised? ==> !r.error.Refused? && Stuck(conn, before, done, s, plan, old(conn.work).value.state)
  {
    ghost var now := conn.work.value;
    NotYet(before, now, done, s, plan);
    assert s in done + {s};
    r := ReplaceFrom(conn, s, plan.run);
    if r.Raised? {
      if conn.Committable() {
        ReplaceReached(before, now, conn.work.value, done, s, plan);
      }
      return;
    }
    ReplaceEffect(now, s, plan.run);
    ghost var live := now.tables[s.staging].(comment := PublishedBy(plan.run, s));
    PartlyStep(before, now, conn.work.value, done, s, live, plan);
  }

  /** The checks of an existing refill target against its staging table. */
  method CheckTarget(conn: Session, target: Relation, staging: Relation) returns (r: Outcome<()>)
    requires conn.Valid() && !conn.invalidated && !conn.aborted && conn.work.Some?
    modifies conn
    ensures conn.Valid() && Blamed(conn.trace, r)
    ensures r.Done? ==>
      && conn.work == old(conn.work) && !conn.invalidated && !conn.aborted
      && target.kind.OrdinaryTable? && target.columns == staging.columns && !target.referenced
    ensures r == Raised(Refused) ==>
      !(target.kind.OrdinaryTable? && target.columns == staging.columns && !target.referenced)
    ensures r.Raised? ==> OnlyRead(conn, old(conn.work))
  {
    if target.kind != OrdinaryTable {
      return Raised(Refused);
    }
    var _ :- conn.Query();
    var _ :- conn.Query();
    if target.columns != staging.columns {
      return Raised(Refused);
    }
    var _ :- conn.Query();
    if target.referenced {
      return Raised(Refused);
    }
    r := Done(());
  }

  /** One refill target: built if it is absent, else only checked. */
  method PrepareRefill(conn: Session, s: Swap, plan: Plan, ghost before: Database, ghost done: set<Swap>)
    returns (r: Outcome<bool>)
    requires Progress(conn, before, done, plan, before.state)
    requires s !in done && Separate(done + {s}) && Prepared(before, s, plan) && plan.Refill(s)
    modifies conn
    ensures conn.Valid() && Blamed(conn.trace, r)
    ensures r.Done? ==>
      && Progress(conn, before, if r.value then done + {s} else done, plan, before.state)
      && (if r.value then s.target !in before.tables else Compatible(before, s))
    ensures r == Raised(Refused) ==> Unfit(before, s, plan)
    ensures r.Raised? ==> Stuck(conn, before, done, s, plan, before.state)
    ensures r.Raised? && s.target in before.tables && conn.Committable() ==> Partly(before, conn.work.value, done, plan)
  {
    NotYet(before, conn.work.value, done, s, plan);
    var staging :- FindRelation(conn, s.staging);
    var target :- FindRelation(conn, s.target);
    if target.None? {
      var _ :- CreateAndFill(conn, s, plan, before, done);
      return Done(true);
    }
    var _ :- CheckTarget(conn, target.value, staging.value);
    r := Done(false);
  }

  /** Refill preflight, in target order: absent targets are built, existing ones
      only checked. */
  method PrepareRefills(conn: Session, order: seq<Swap>, plan: Plan) returns (r: Outcome<set<Swap>>)
    requires conn.Valid() && !conn.invalidated && !conn.aborted && conn.work.Some?
    requires Separate(SwapSet(order)) && !HasDuplicates(order)
    requires forall s | s in order :: Prepared(conn.work.value, s, plan)
    modifies conn
    ensures conn.Valid()
    ensures Blamed(conn.trace, r)
    ensures r.Done? ==>
      && Progress(conn, old(conn.work).value, r.value, plan, old(conn.work).value.state)
      && r.value <= SwapSet(order) && OnlyCreating(old(conn.work).value, Extent(0, r.value, None), plan)
      && Preflighted(old(conn.work).value, order, r.value, plan)
    ensures r == Raised(Refused) ==> exists s | s in order :: Unfit(old(conn.work).value, s, plan)
    ensures r.Raised? && conn.Committable() ==>
      Building(old(conn.work).value, conn.work.value, SwapSet(order), plan)
  {
    ghost var before := conn.work.value;
    PartlyStart(before, plan);
    var created: set<Swap> := {};
    var i := 0;
    while i < |order|
      invariant 0 <= i <= |order|
      invariant Progress(conn, before, created, plan, before.state)
      invariant created <= SwapSet(order[..i]) && OnlyCreating(before, Extent(0, created, None), plan)
      invariant Preflighted(before, order[..i], created, plan)
    {
      var s := order[i];
      assert order[..i + 1] == order[..i] + [s];
      FirstTime(order, i);
      if plan.Refill(s) {
        assert Separate(created + {s}) && s in order;
        var built := PrepareRefill(conn, s, plan, before, created);
        if built.Raised? {
          if conn.Committable() {
            ghost var x := ExtentOf(before, conn.work.value, created, s, plan, 0);
            assert BuildingTo(before, conn.work.value, SwapSet(order), plan, x);
          }
          return Raised(built.error);
        }
        if built.value {
          created := created + {s};
        }
      }
      i := i + 1;
    }
    assert order[..i] == order;
    r := Done(created);
  }

  /** Every refill target is either one of the newly created or a compatible
      table that was already there. */
  ghost predicate Preflighted(before: Database, order: seq<Swap>, created: set<Swap>, plan: Plan) {
    forall s | s in order && plan.Refill(s) ::
      if s in created then s.target !in before.tables else Compatible(before, s)
  }

  lemma FirstTime(order: seq<Swap>, i: nat)
    requires i < |order| && !HasDuplicates(order)
    ensures order[i] !in order[..i] && order[i] in SwapSet(order)
    ensures SwapSet(order[..i]) <= SwapSet(order)
    ensures SwapSet(order[..i + 1]) == SwapSet(order[..i]) + {order[i]}
  {
    assert order[..i + 1] == order[..i] + [order[i]];
  }

  /** A swap not built before the locks has not been published yet. */
  lemma Remaining(order: seq<Swap>, i: nat, created: set<Swap>, done: set<Swap>)
    requires i < |order| && !HasDuplicates(order) && Separate(SwapSet(order))
    requires created <= SwapSet(order) && done == created + SwapSet(order[..i])
    ensures order[i] !in created ==> order[i] !in done
    ensures Separate(done + {order[i]})
    ensures done + {order[i]} == created + SwapSet(order[..i + 1])
  {
    FirstTime(order, i);
    assert done + {order[i]} <= SwapSet(order);
  }

  /** Targets that existed at the start and were not built since still exist,
      and so are among those locked. */
  lemma LockedEnough(before: Database, now: Database, order: seq<Swap>, created: set<Swap>, plan: Plan, locks: set<Key>)
    requires Partly(before, now, created, plan) && created <= SwapSet(order) && Separate(SwapSet(order))
    requires forall k | k in ToLock(now, order, created) :: k in locks
    ensures forall s | s in order && s !in created && s.target in before.tables :: s.target in locks
  {
    forall s | s in order && s !in created
      ensures Same(before.tables, now.tables, s.target)
    {
      assert s in SwapSet(order) && created + {s} <= SwapSet(order);
      NotYet(before, now, created, s, plan);
    }
    forall s | s in order && s !in created && s.target in now.tables
      ensures s.target in locks
    {
      LockedIn(now, order, created, s);
    }
  }

  /** One swap or refill; a target built before the locks is done. */
  method PublishTarget(conn: Session, s: Swap, plan: Plan, created: set<Swap>, ghost before: Database,
      ghost done: set<Swap>)
    returns (r: Outcome<()>)
    requires conn.work.Some? && Progress(conn, before, done, plan, conn.work.value.state)
    requires (s in created ==> s in done && plan.Refill(s)) && (s !in created ==> s !in done)
    requires Separate(done + {s}) && Prepared(before, s, plan)
    requires s !in created && plan.Refill(s) ==> Compatible(before, s)
    requires s !in created && s.target in before.tables ==> s.target in conn.locks
    modifies conn
    ensures conn.Valid() && Blamed(conn.trace, r)
    ensures r.Done? ==> Progress(conn, before, done + {s}, plan, old(conn.work).value.state)
    ensures r.Done? ==> conn.locks == old(conn.locks)
    ensures r.Raised? ==> !r.error.Refused? && Stuck(conn, before, done, s, plan, old(conn.work).value.state)
  {
    if !plan.Refill(s) {
      r := Replace(conn, s, plan, before, done);
    } else if s !in created {
      r := RefillExisting(conn, s, plan, before, done);
    } else {
      assert done + {s} == done;
      r := Done(());
    }
  }

  /** The swaps and refills, in target order. */
  method PublishTargets(conn: Session, order: seq<Swap>, plan: Plan, created: set<Swap>, ghost before: Database)
    returns (r: Outcome<()>)
    requires conn.work.Some? && Progress(conn, before, created, plan, conn.work.value.state)
    requires Separate(SwapSet(order)) && !HasDuplicates(order) && created <= SwapSet(order)
    requires forall s | s in order :: Prepared(before, s, plan)
    requires Preflighted(before, order, created, plan)
    requires forall s | s in created :: plan.Refill(s)
    requires forall s | s in order && s !in created && s.target in before.tables :: s.target in conn.locks
    modifies conn
    ensures conn.Valid()
    ensures Blamed(conn.trace, r)
    ensures r.Done? ==> Progress(conn, before, SwapSet(order), plan, old(conn.work).value.state)
    ensures r.Raised? ==> !r.error.Refused?
    ensures r.Raised? && conn.Committable() ==>
      Swapping(before, conn.work.value, SwapSet(order), plan) && conn.work.value.state == old(conn.work).value.state
  {
    ghost var done := created;
    var i := 0;
    while i < |order|
      invariant 0 <= i <= |order|
      invariant done == created + SwapSet(order[..i]) && conn.locks == old(conn.locks)
      invariant Progress(conn, before, done, plan, old(conn.work).value.state)
    {
      var s := order[i];
      Remaining(order, i, created, done);
      assert s in order;
      var published := PublishTarget(conn, s, plan, created, before, done);
      if published.Raised? {
        if conn.Committable() {
          FirstTime(order, i);
          ghost var x := ExtentOf(before, conn.work.value, done, s, plan, 0);
          assert Begun(x) <= SwapSet(order);
        }
        return published;
      }
      done := done + {s};
      i := i + 1;
    }
    assert order[..i] == order;
    assert done == SwapSet(order);
    r := Done(());
  }

  // -- target locks -------------------------------------------------------------------------

  /** The LOCK TABLE statements among those issued. */
  ghost function Locking(issued: seq<Issued>): seq<seq<Key>> {
    if issued == [] then []
    else
      var n := |issued| - 1;
      Locking(issued[..n])
        + if issued[n].statement.LockSql? then [issued[n].statement.names] else []
  }

  lemma LockingSnoc(issued: seq<Issued>, e: Issued)
    ensures Locking(issued + [e]) == Locking(issued) + if e.statement.LockSql? then [e.statement.names] else []
  {
    assert (issued + [e])[..|issued|] == issued;
  }

  /** The targets a lock is needed for, in order: those that exist and were not
      built in this transaction. */
  function ToLock(db: Database, order: seq<Swap>, created: set<Swap>): (r: seq<Key>)
    ensures |r| <= |order|
  {
    if order == [] then []
    else
      var s := order[|order| - 1];
      ToLock(db, order[..|order| - 1], created)
        + if s !in created && s.target in db.tables then [s.target] else []
  }

  predicate AllOrdinary(db: Database, names: seq<Key>) {
    forall i | 0 <= i < |names| :: names[i] in db.tables && db.tables[names[i]].kind == OrdinaryTable
  }

  lemma {:induction false} ToLockFrom(db: Database, order: seq<Swap>, created: set<Swap>, k: Key)
    ensures k in ToLock(db, order, created) <==>
      exists j | 0 <= j < |order| :: order[j].target == k && order[j] !in created && k in db.tables
  {
    if order != [] {
      var n := |order| - 1;
      ToLockFrom(db, order[..n], created, k);
      assert forall j | 0 <= j < n :: order[..n][j] == order[j];
    }
  }

  lemma LockedIn(db: Database, order: seq<Swap>, created: set<Swap>, s: Swap)
    requires s in order && s !in created && s.target in db.tables
    ensures s.target in ToLock(db, order, created)
  {
    ToLockFrom(db, order, created, s.target);
  }

  lemma {:induction false} ToLockAscending(db: Database, order: seq<Swap>, created: set<Swap>)
    requires Ordered(order) && Separate(SwapSet(order)) && !HasDuplicates(order)
    ensures Ascending(ToLock(db, order, created))
  {
    if order != [] {
      var n := |order| - 1;
      var front, names := order[..n], ToLock(db, order[..n], created);
      FirstTime(order, n);
      assert !HasDuplicates(front) && Ordered(front);
      ToLockAscending(db, front, created);
      forall i | 0 <= i < |names|
        ensures KeyLt(names[i], order[n].target)
      {
        ToLockFrom(db, front, created, names[i]);
        var j :| 0 <= j < n && front[j].target == names[i];
        assert order[j] in SwapSet(order) && order[n] in SwapSet(order) && order[j] != order[n];
      }
    }
  }

  /** Whether a live target exists; it must be an ordinary table. */
  method LookUp(conn: Session, key: Key) returns (r: Outcome<bool>)
    requires conn.Valid() && !conn.invalidated && !conn.aborted && conn.work.Some?
    modifies conn
    ensures conn.Valid() && Locking(conn.trace) == Locking(old(conn.trace))
    ensures Blamed(conn.trace, r)
    ensures r.Done? ==>
      && conn.work == old(conn.work) && !conn.invalidated && !conn.aborted
      && (r.value <==> key in conn.work.value.tables)
      && (r.value ==> conn.work.value.tables[key].kind == OrdinaryTable)
    ensures r == Raised(Refused) ==>
      key in old(conn.work).value.tables && old(conn.work).value.tables[key].kind != OrdinaryTable
    ensures r.Raised? ==> OnlyRead(conn, old(conn.work))
  {
    var relation := FindRelation(conn, key);
    LockingSnoc(old(conn.trace), Issued(Sql, FaultOf(relation)));
    if relation.Raised? {
      return Raised(relation.error);
    }
    if relation.value.Some? && relation.value.value.kind != OrdinaryTable {
      return Raised(Refused);
    }
    r := Done(relation.value.Some?);
  }

  /** Look each of them up. */
  method ExistingTargets(conn: Session, order: seq<Swap>, created: set<Swap>) returns (r: Outcome<seq<Key>>)
    requires conn.Valid() && !conn.invalidated && !conn.aborted && conn.work.Some?
    modifies conn
    ensures conn.Valid() && Locking(conn.trace) == Locking(old(conn.trace))
    ensures Blamed(conn.trace, r)
    ensures r.Done? ==> conn.work == old(conn.work) && !conn.invalidated && !conn.aborted
    ensures r.Done? ==>
      r.value == ToLock(conn.work.value, order, created) && AllOrdinary(conn.work.value, r.value)
    ensures r == Raised(Refused) ==>
      !AllOrdinary(old(conn.work).value, ToLock(old(conn.work).value, order, created))
    ensures r.Raised? ==> OnlyRead(conn, old(conn.work))
  {
    ghost var view := conn.work.value;
    var existing: seq<Key> := [];
    var i := 0;
    while i < |order|
      invariant 0 <= i <= |order|
      invariant conn.Valid() && !conn.invalidated && !conn.aborted && conn.work == old(conn.work) == Some(view)
      invariant Locking(conn.trace) == Locking(old(conn.trace))
      invariant existing == ToLock(view, order[..i], created) && AllOrdinary(view, existing)
    {
      assert order[..i + 1][..i] == order[..i];
      if order[i] !in created {
        var found := LookUp(conn, order[i].target);
        if found.Raised? {
          if found.error.Refused? {
            LockedIn(view, order, created, order[i]);
          }
          return Raised(found.error);
        }
        if found.value {
          existing := existing + [order[i].target];
        }
      }
      i := i + 1;
    }
    assert order[..i] == order;
    r := Done(existing);
  }

  /** SET LOCAL of both timeouts. */
  method SetTimeouts(conn: Session) returns (r: Outcome<()>)
    requires conn.Valid() && !conn.invalidated && !conn.aborted && conn.work.Some?
    modifies conn
    ensures conn.Valid() && Locking(conn.trace) == Locking(old(conn.trace))
    ensures Blamed(conn.trace, r)
    ensures r.Done? ==>
      conn.work == old(conn.work) && !conn.invalidated && !conn.aborted && conn.locks == old(conn.locks)
    ensures r.Raised? ==> !r.error.Refused? && OnlyRead(conn, old(conn.work))
  {
    r := conn.Query();
    LockingSnoc(old(conn.trace), Issued(Sql, FaultOf(r)));
    if r.Done? {
      ghost var before := conn.trace;
      r := conn.Query();
      LockingSnoc(before, Issued(Sql, FaultOf(r)));
    }
  }

  /** Set both timeouts, lock every name in one statement, reset both. */
  method LockUnderBudgets(conn: Session, names: seq<Key>) returns (r: Outcome<()>)
    requires conn.Valid() && !conn.invalidated && !conn.aborted && conn.work.Some?
    modifies conn
    ensures conn.Valid()
    ensures Blamed(conn.trace, r)
    ensures Locking(conn.trace) == Locking(old(conn.trace)) || Locking(conn.trace) == Locking(old(conn.trace)) + [names]
    ensures r.Done? ==>
      && conn.work == old(conn.work) && !conn.invalidated && !conn.aborted
      && Locking(conn.trace) == Locking(old(conn.trace)) + [names]
      && forall k | k in names :: k in conn.locks
    ensures r.Raised? ==> !r.error.Refused? && OnlyRead(conn, old(conn.work))
  {
    var _ :- SetTimeouts(conn);
    ghost var before := conn.trace;
    var locked := conn.LockTables(names);
    LockingSnoc(before, Issued(LockSql(names), FaultOf(locked)));
    if locked.Raised? {
      return locked;
    }
    r := SetTimeouts(conn);
  }

  /** A target in the way now was in the way at the start. */
  lemma LockRefused(before: Database, now: Database, order: seq<Swap>, created: set<Swap>, plan: Plan)
    requires Partly(before, now, created, plan) && created <= SwapSet(order) && Separate(SwapSet(order))
    ensures !AllOrdinary(now, ToLock(now, order, created)) ==> exists s | s in order :: Unfit(before, s, plan)
  {
    var names := ToLock(now, order, created);
    if !AllOrdinary(now, names) {
      var i :| 0 <= i < |names| && !(names[i] in now.tables && now.tables[names[i]].kind == OrdinaryTable);
      ToLockFrom(now, order, created, names[i]);
      var j :| 0 <= j < |order| && order[j].target == names[i] && order[j] !in created && names[i] in now.tables;
      assert order[j] in SwapSet(order) && created + {order[j]} <= SwapSet(order);
      NotYet(before, now, created, order[j], plan);
      assert Unfit(before, order[j], plan);
    }
  }

  /** Too many targets for the policy, or too little of the horizon left. */
  predicate NoBudget(policy: LockPolicy.Policy, remaining: real, targets: int)
    requires policy.Valid()
  {
    || policy.acquisitionMs < targets * policy.lockMs + 50
    || remaining * 1000.0 < (targets + 50) as real
  }

  /** ACCESS EXCLUSIVE on every existing target not built in this transaction,
      in one statement naming them in ascending order, under budgets drawn from
      the remaining horizon. */
  method LockTargets(conn: Session, order: seq<Swap>, created: set<Swap>, policy: LockPolicy.Policy,
      deadline: real, start: real)
    returns (r: Outcome<seq<Key>>, end: real, ghost asked: real, ghost budgets: Option<LockPolicy.Budgets>)
    requires conn.Valid() && !conn.invalidated && !conn.aborted && conn.work.Some? && policy.Valid()
    requires Ordered(order) && Separate(SwapSet(order)) && !HasDuplicates(order)
    modifies conn
    ensures conn.Valid() && start <= asked <= end
    ensures Blamed(conn.trace, r)
    ensures r.Done? ==> conn.work == old(conn.work) && !conn.invalidated && !conn.aborted
    ensures r.Done? ==> r.value == ToLock(conn.work.value, order, created) && Ascending(r.value)
    ensures r.Done? ==>
      Locking(conn.trace) == Locking(old(conn.trace)) + if r.value == [] then [] else [r.value]
    ensures r.Done? ==> AllOrdinary(conn.work.value, r.value) && forall k | k in r.value :: k in conn.locks
    ensures r.Done? && r.value != [] ==>
      && |r.value| * policy.lockMs + LockPolicy.TIMEOUT_MARGIN_MS <= policy.acquisitionMs
      && budgets.Some? && LockPolicy.Fits(policy, deadline - asked, |r.value|, budgets.value)
    ensures r == Raised(Refused) ==>
      var names := ToLock(old(conn.work).value, order, created);
      !AllOrdinary(old(conn.work).value, names) || NoBudget(policy, deadline - asked, |names|)
    ensures r.Raised? ==> OnlyRead(conn, old(conn.work))
  {
    ToLockAscending(conn.work.value, order, created);
    end, asked, budgets := start, start, None;
    var found := ExistingTargets(conn, order, created);
    if found.Raised? || found.value == [] {
      return found, end, asked, budgets;
    }
    var existing := found.value;
    if policy.acquisitionMs < |existing| * policy.lockMs + LockPolicy.TIMEOUT_MARGIN_MS {
      return Raised(Refused), end, asked, budgets;
    }
    end := Now(end);
    asked := end;
    var budget := LockPolicy.AttemptBudgets(policy, deadline - end, |existing|);
    LockPolicy.NoBudgetIff(policy, deadline - end, |existing|);
    LockPolicy.BudgetsAreLargestFit(policy, deadline - end, |existing|, LockPolicy.Budgets(0, 0));
    if budget.Err? || budget.value.None? {
      return Raised(Refused), end, asked, budgets;
    }
    budgets := budget.value;
    var locked := LockUnderBudgets(conn, existing);
    end := Now(end);
    r := if locked.Raised? then Raised(locked.error) else found;
  }
}
