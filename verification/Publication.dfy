/** What one publication does to a database: the statements of each target, and
    the state a set of targets is in part way through and at the end
    (task_core/db/publish.py, 1236-1299, 1391-1412, 1633-1717). */
module Publication {
  import opened Values
  import opened Catalog
  import opened Identifiers

  /** A prepared output: the live name, its staging table and its row count. */
  datatype Swap = Swap(target: Key, staging: Key, rows: nat)

  /** Who publishes, and the clock text its comments carry. */
  datatype Run = Run(task: string, token: string, at: string)

  function OwnerOf(run: Run, s: Swap): Owner {
    Owner(run.task, run.token, Some(s.target.schema), s.target.name, run.at)
  }

  function PublishedBy(run: Run, s: Swap): Comment {
    PublishedComment(run.task, run.token, s.rows, run.at)
  }

  /** Everything a publication needs to know besides the database. */
  datatype Plan = Plan(run: Run, refills: set<Key>, resolved: map<Key, seq<Column>>)
  {
    predicate Refill(s: Swap) { s.target in refills }

    function Columns(s: Swap): seq<Attribute> {
      if s.target in resolved then Attributes(resolved[s.target]) else []
    }
  }

  // -- the statements of one target ----------------------------------------------------

  function ReplaceTarget(db: Database, s: Swap, run: Run): Result<Database> {
    var db1 :- DropIfExists(db, s.target);
    var db2 :- Rename(db1, s.staging, s.target.name);
    CommentOn(db2, s.target, PublishedBy(run, s))
  }

  function FillFromStaging(db: Database, s: Swap, run: Run, names: seq<string>): Result<Database> {
    var db1 :- InsertSelect(db, s.target, s.staging, names);
    var db2 :- CommentOn(db1, s.target, PublishedBy(run, s));
    DropIfExists(db2, s.staging)
  }

  function RefillTarget(db: Database, s: Swap, run: Run, names: seq<string>): Result<Database> {
    var db1 :- Truncate(db, s.target);
    FillFromStaging(db1, s, run, names)
  }

  function CreateTarget(db: Database, s: Swap, run: Run, columns: seq<Attribute>): Result<Database> {
    var db1 :- CreateTable(db, s.target, columns);
    FillFromStaging(db1, s, run, ColumnNames(columns))
  }

  /** The tables after one target: its staging name gone, `r` under its name. */
  ghost predicate Moved(db: Database, next: Database, s: Swap, r: Relation) {
    && next.tables == (db.tables - {s.staging})[s.target := r]
    && next.nextOid >= db.nextOid
    && next.state == db.state
  }

  lemma ReplaceEffect(db: Database, s: Swap, run: Run)
    requires s.staging in db.tables && s.staging != s.target && s.staging.schema == s.target.schema
    requires ReplaceTarget(db, s, run).Ok?
    ensures Moved(db, ReplaceTarget(db, s, run).value, s, db.tables[s.staging].(comment := PublishedBy(run, s)))
  {
    assert Key(s.staging.schema, s.target.name) == s.target;
  }

  lemma FillEffect(db: Database, s: Swap, run: Run, names: seq<string>)
    requires s.staging in db.tables && s.target in db.tables && s.staging != s.target
    requires db.tables[s.target].rows == [] && Tabular(db.tables[s.staging])
    requires names == ColumnNames(db.tables[s.staging].columns) == ColumnNames(db.tables[s.target].columns)
    requires FillFromStaging(db, s, run, names).Ok?
    ensures Moved(db, FillFromStaging(db, s, run, names).value, s,
      db.tables[s.target].(rows := db.tables[s.staging].rows, comment := PublishedBy(run, s)))
  {
    InsertSelectCopies(db, s.target, s.staging, names);
    assert [] + db.tables[s.staging].rows == db.tables[s.staging].rows;
  }

  lemma RefillEffect(db: Database, s: Swap, run: Run, names: seq<string>)
    requires s.staging in db.tables && s.target in db.tables && s.staging != s.target
    requires Tabular(db.tables[s.staging])
    requires names == ColumnNames(db.tables[s.staging].columns) == ColumnNames(db.tables[s.target].columns)
    requires RefillTarget(db, s, run, names).Ok?
    ensures Moved(db, RefillTarget(db, s, run, names).value, s,
      db.tables[s.target].(rows := db.tables[s.staging].rows, comment := PublishedBy(run, s)))
  {
    FillEffect(Truncate(db, s.target).value, s, run, names);
  }

  lemma CreateEffect(db: Database, s: Swap, run: Run, columns: seq<Attribute>)
    requires s.staging in db.tables && s.staging != s.target
    requires Tabular(db.tables[s.staging]) && columns == db.tables[s.staging].columns
    requires CreateTarget(db, s, run, columns).Ok?
    ensures s.target !in db.tables
    ensures Moved(db, CreateTarget(db, s, run, columns).value, s,
      Relation(db.nextOid, OrdinaryTable, columns, db.tables[s.staging].rows, PublishedBy(run, s), false))
  {
    FillEffect(CreateTable(db, s.target, columns).value, s, run, ColumnNames(columns));
  }

  // -- a set of targets -----------------------------------------------------------------

  /** No two outputs share a name, and no target is anyone's staging table. */
  ghost predicate Separate(swaps: set<Swap>) {
    && (forall s, t | s in swaps && t in swaps && s != t :: s.target != t.target && s.staging != t.staging)
    && (forall s, t | s in swaps && t in swaps :: s.target != t.staging)
    && (forall s | s in swaps :: s.staging.schema == s.target.schema)
  }

  /** The staging table of s is as its run prepared it. */
  ghost predicate Prepared(db: Database, s: Swap, plan: Plan) {
    && s.staging in db.tables
    && db.tables[s.staging].kind == OrdinaryTable
    && db.tables[s.staging].comment == StagingComment(OwnerOf(plan.run, s))
    && db.tables[s.staging].columns == plan.Columns(s)
    && Tabular(db.tables[s.staging])
    && |db.tables[s.staging].rows| == s.rows
  }

  /** The live relation a successful publication leaves: a replacement is the
      staging table itself; a refill is the old table, or a new one, holding
      exactly the staging rows. */
  ghost predicate TargetDone(before: Database, live: Relation, s: Swap, plan: Plan)
    requires s.staging in before.tables
  {
    var staging := before.tables[s.staging];
    var published := PublishedBy(plan.run, s);
    if !plan.Refill(s) then live == staging.(comment := published)
    else if s.target in before.tables then
      live == before.tables[s.target].(rows := staging.rows, comment := published)
    else
      && live.oid >= before.nextOid
      && live == Relation(live.oid, OrdinaryTable, plan.Columns(s), staging.rows, published, false)
  }

  /** What a published table's comment says: who published it, in which run and
      when, and how many rows it holds; it is no staging comment any more. */
  lemma PublishedSays(before: Database, live: Relation, s: Swap, plan: Plan)
    requires Prepared(before, s, plan) && TargetDone(before, live, s, plan)
    ensures live.comment.Parsed? && live.comment.json.JsonObject? && !NamesOwner(live.comment)
    ensures var f := live.comment.json.fields;
      && Says(f, "marker", JsonString("task_core")) && Says(f, "v", JsonInt(1))
      && Says(f, "published_by", JsonString(plan.run.task)) && Says(f, "run", JsonString(plan.run.token))
      && Says(f, "rows", JsonInt(|live.rows|)) && Says(f, "published_at", JsonString(plan.run.at))
  {
  }

  ghost predicate Same(a: map<Key, Relation>, b: map<Key, Relation>, k: Key) {
    (k in a <==> k in b) && (k in a ==> a[k] == b[k])
  }

  ghost predicate Untouched(k: Key, done: set<Swap>) {
    forall s | s in done :: k != s.target && k != s.staging
  }

  /** Published so far: the targets of `done`, and nothing else. */
  ghost predicate Partly(before: Database, now: Database, done: set<Swap>, plan: Plan) {
    && now.nextOid >= before.nextOid
    && (forall s | s in done ::
          && s.staging in before.tables && s.staging !in now.tables
          && s.target in now.tables && TargetDone(before, now.tables[s.target], s, plan))
    && (forall k | Untouched(k, done) :: Same(before.tables, now.tables, k))
  }

  lemma PartlyStart(db: Database, plan: Plan)
    ensures Partly(db, db, {}, plan)
  {
  }

  /** Moving one more target carries the whole description forward. */
  lemma PartlyStep(before: Database, now: Database, next: Database, done: set<Swap>, s: Swap, r: Relation, plan: Plan)
    requires Partly(before, now, done, plan) && s !in done && Separate(done + {s})
    requires s.staging in before.tables && TargetDone(before, r, s, plan)
    requires Moved(now, next, s, r)
    ensures Partly(before, next, done + {s}, plan)
  {
    assert s in done + {s};
    forall t | t in done
      ensures t.staging !in next.tables && t.target in next.tables && next.tables[t.target] == now.tables[t.target]
    {
      assert t in done + {s};
    }
    forall k | Untouched(k, done + {s})
      ensures Same(before.tables, next.tables, k)
    {
      assert k != s.target && k != s.staging;
      forall t | t in done
        ensures k != t.target && k != t.staging
      {
        assert t in done + {s};
      }
      assert Untouched(k, done);
    }
  }

  /** A target not yet published looks as it did at the start. */
  lemma NotYet(before: Database, now: Database, done: set<Swap>, s: Swap, plan: Plan)
    requires Partly(before, now, done, plan) && s !in done && Separate(done + {s})
    ensures Same(before.tables, now.tables, s.target) && Same(before.tables, now.tables, s.staging)
  {
    forall t | t in done
      ensures s.target != t.target && s.target != t.staging && s.staging != t.target && s.staging != t.staging
    {
      assert t in done + {s} && s in done + {s};
    }
    assert Untouched(s.target, done) && Untouched(s.staging, done);
  }

  // -- part way through a target -----------------------------------------------------------

  /** What a target shows between the first and the last of its statements: its
      relation dropped, emptied or just created, filled, the staging table
      renamed to it but not yet commented, or all done but the staging table
      still there. */
  datatype Point = Absent | Emptied | Filled | Renamed | Commented

  datatype Half = Half(swap: Swap, at: Point)

  /** The relation under a target that existed, at that point. */
  function LiveAt(before: Database, s: Swap, at: Point, plan: Plan): Relation
    requires s.staging in before.tables && s.target in before.tables
  {
    var live, staging := before.tables[s.target], before.tables[s.staging];
    match at
    case Absent => live
    case Emptied => live.(rows := [])
    case Filled => live.(rows := staging.rows)
    case Renamed => staging
    case Commented => live.(rows := staging.rows, comment := PublishedBy(plan.run, s))
  }

  /** Or once it is published. */
  function ShownAt(before: Database, s: Swap, at: Option<Point>, plan: Plan): Relation
    requires s.staging in before.tables && s.target in before.tables
  {
    match at
    case Some(point) => LiveAt(before, s, point, plan)
    case None =>
      if plan.Refill(s) then LiveAt(before, s, Commented, plan)
      else before.tables[s.staging].(comment := PublishedBy(plan.run, s))
  }

  /** A target created in this transaction, at that point. */
  function CreatedAt(before: Database, oid: nat, s: Swap, at: Point, plan: Plan): Relation
    requires s.staging in before.tables
  {
    Relation(oid, OrdinaryTable, plan.Columns(s),
      if at.Emptied? then [] else before.tables[s.staging].rows,
      if at.Commented? then PublishedBy(plan.run, s) else NoComment, false)
  }

  /** The relation under a refill target, at that point. */
  ghost predicate FillingAt(before: Database, live: Relation, s: Swap, at: Point, plan: Plan)
    requires s.staging in before.tables
  {
    if s.target in before.tables then live == LiveAt(before, s, at, plan)
    else live.oid >= before.nextOid && live == CreatedAt(before, live.oid, s, at, plan)
  }

  /** s is at that point. */
  ghost predicate Midway(before: Database, now: Database, s: Swap, at: Point, plan: Plan)
    requires s.staging in before.tables
  {
    if !plan.Refill(s) then
      if at.Absent? then
        s.target in before.tables && s.target !in now.tables && Same(before.tables, now.tables, s.staging)
      else
        && at.Renamed? && s.staging !in now.tables
        && s.target in now.tables && now.tables[s.target] == before.tables[s.staging]
    else
      && (at.Emptied? || at.Filled? || at.Commented?)
      && Same(before.tables, now.tables, s.staging) && s.target in now.tables
      && FillingAt(before, now.tables[s.target], s, at, plan)
  }

  /** Published so far: the targets of `done`, and s part way. */
  ghost predicate PartlyHalf(before: Database, now: Database, done: set<Swap>, half: Half, plan: Plan) {
    var s := half.swap;
    && now.nextOid >= before.nextOid && s !in done
    && (forall t | t in done ::
          && t.staging in before.tables && t.staging !in now.tables
          && t.target in now.tables && TargetDone(before, now.tables[t.target], t, plan))
    && s.staging in before.tables && Midway(before, now, s, half.at, plan)
    && (forall k | Untouched(k, done + {s}) :: Same(before.tables, now.tables, k))
  }

  /** How far an attempt got: the statements of queued work that ran, the
      targets published, and the one part way. */
  datatype Extent = Extent(ran: nat, done: set<Swap>, half: Option<Half>)

  ghost predicate Reached(before: Database, now: Database, x: Extent, plan: Plan) {
    match x.half
    case None => Partly(before, now, x.done, plan)
    case Some(half) => PartlyHalf(before, now, x.done, half, plan)
  }

  /** The targets an attempt has begun. */
  function Begun(x: Extent): set<Swap> {
    x.done + if x.half.Some? then {x.half.value.swap} else {}
  }

  /** Only targets this transaction creates have been begun. */
  ghost predicate OnlyCreating(before: Database, x: Extent, plan: Plan) {
    forall s | s in Begun(x) :: plan.Refill(s) && s.target !in before.tables
  }

  /** What the statements of an attempt have made of the database so far: the
      queued work comes after the targets that need creating, and before all
      others. */
  ghost predicate AttemptedTo(
    before: Database, now: Database, swaps: set<Swap>, plan: Plan, writes: seq<Write>, x: Extent)
  {
    && x.ran <= |writes| && RunWrites(writes[..x.ran], before.state) == Ok(now.state)
    && Begun(x) <= swaps && Reached(before, now, x, plan)
    && (x.ran < |writes| ==> OnlyCreating(before, x, plan))
  }

  ghost predicate Attempted(before: Database, now: Database, swaps: set<Swap>, plan: Plan, writes: seq<Write>) {
    exists x :: AttemptedTo(before, now, swaps, plan, writes, x)
  }

  /** Everything: the whole queue, and every target. */
  predicate Everything(swaps: set<Swap>, writes: seq<Write>, x: Extent) {
    x.ran == |writes| && x.done == swaps
  }

  /** An attempt that got through everything has built the publication. */
  lemma EverythingIsAll(before: Database, now: Database, swaps: seq<Swap>, plan: Plan, writes: seq<Write>, x: Extent)
    requires AttemptedTo(before, now, SwapSet(swaps), plan, writes, x) && Everything(SwapSet(swaps), writes, x)
    ensures RunWrites(writes, before.state).Ok?
    ensures Committed(before, now, swaps, plan, RunWrites(writes, before.state).value)
  {
    assert writes[..x.ran] == writes;
    if x.half.Some? {
      assert x.half.value.swap in Begun(x);
    }
  }

  /** From here to there, nothing but s's two names has changed. */
  ghost predicate OnlyAt(now: Database, next: Database, s: Swap) {
    && next.nextOid >= now.nextOid && next.state == now.state
    && forall k | k != s.target && k != s.staging :: Same(now.tables, next.tables, k)
  }

  /** One target part way carries the description of the others forward. */
  lemma HalfStep(before: Database, now: Database, next: Database, done: set<Swap>, half: Half, plan: Plan)
    requires var s := half.swap;
      && Partly(before, now, done, plan) && s !in done && Separate(done + {s})
      && s.staging in before.tables && OnlyAt(now, next, s) && Midway(before, next, s, half.at, plan)
    ensures PartlyHalf(before, next, done, half, plan)
  {
    var s := half.swap;
    assert s in done + {s};
    forall t | t in done
      ensures Same(now.tables, next.tables, t.target) && Same(now.tables, next.tables, t.staging)
    {
      assert t in done + {s};
    }
    forall k | Untouched(k, done + {s})
      ensures Same(before.tables, next.tables, k)
    {
      assert k != s.target && k != s.staging;
      forall t | t in done
        ensures k != t.target && k != t.staging
      {
        assert t in done + {s};
      }
      assert Untouched(k, done) && Same(before.tables, now.tables, k) && Same(now.tables, next.tables, k);
    }
  }

  /** An attempt in which at most s has been begun since `done`. */
  ghost predicate ReachedIn(before: Database, now: Database, done: set<Swap>, s: Swap, plan: Plan) {
    || Partly(before, now, done, plan)
    || Partly(before, now, done + {s}, plan)
    || exists at :: PartlyHalf(before, now, done, Half(s, at), plan)
  }

  /** How far that is. */
  lemma ExtentOf(before: Database, now: Database, done: set<Swap>, s: Swap, plan: Plan, ran: nat) returns (x: Extent)
    requires ReachedIn(before, now, done, s, plan)
    ensures x.ran == ran && Reached(before, now, x, plan) && Begun(x) <= done + {s}
    ensures Partly(before, now, done, plan) ==> x == Extent(ran, done, None)
  {
    if Partly(before, now, done, plan) {
      x := Extent(ran, done, None);
    } else if Partly(before, now, done + {s}, plan) {
      x := Extent(ran, done + {s}, None);
    } else {
      var at :| PartlyHalf(before, now, done, Half(s, at), plan);
      x := Extent(ran, done, Some(Half(s, at)));
    }
  }

  /** Some of the targets that need creating begun, and nothing else. */
  ghost predicate BuildingTo(before: Database, now: Database, swaps: set<Swap>, plan: Plan, x: Extent) {
    Begun(x) <= swaps && Reached(before, now, x, plan) && OnlyCreating(before, x, plan)
  }

  ghost predicate Building(before: Database, now: Database, swaps: set<Swap>, plan: Plan) {
    now.state == before.state && exists x: Extent :: x.ran == 0 && BuildingTo(before, now, swaps, plan, x)
  }

  /** Some of the targets begun. */
  ghost predicate Swapping(before: Database, now: Database, swaps: set<Swap>, plan: Plan) {
    exists x :: Begun(x) <= swaps && Reached(before, now, x, plan)
  }

  lemma AttemptedNothing(db: Database, swaps: set<Swap>, plan: Plan, writes: seq<Write>)
    ensures Attempted(db, db, swaps, plan, writes)
  {
    PartlyStart(db, plan);
    assert AttemptedTo(db, db, swaps, plan, writes, Extent(0, {}, None));
  }

  lemma AttemptedBuilding(before: Database, now: Database, swaps: set<Swap>, plan: Plan, writes: seq<Write>)
    requires Building(before, now, swaps, plan)
    ensures Attempted(before, now, swaps, plan, writes)
  {
    var x: Extent :| x.ran == 0 && BuildingTo(before, now, swaps, plan, x);
    assert AttemptedTo(before, now, swaps, plan, writes, x);
  }

  lemma AttemptedSwapping(before: Database, now: Database, swaps: set<Swap>, plan: Plan, writes: seq<Write>)
    requires Swapping(before, now, swaps, plan) && RunWrites(writes, before.state) == Ok(now.state)
    ensures Attempted(before, now, swaps, plan, writes)
  {
    var x :| Begun(x) <= swaps && Reached(before, now, x, plan);
    assert writes[..|writes|] == writes;
    assert AttemptedTo(before, now, swaps, plan, writes, x.(ran := |writes|));
  }

  lemma AttemptedAll(before: Database, now: Database, swaps: seq<Swap>, plan: Plan, writes: seq<Write>)
    requires RunWrites(writes, before.state).Ok?
    requires Committed(before, now, swaps, plan, RunWrites(writes, before.state).value)
    ensures Attempted(before, now, SwapSet(swaps), plan, writes)
  {
    assert writes[..|writes|] == writes;
    assert AttemptedTo(before, now, SwapSet(swaps), plan, writes, Extent(|writes|, SwapSet(swaps), None));
  }

  /** A change of the state alone leaves the targets where they were. */
  lemma PartlyState(before: Database, now: Database, next: Database, done: set<Swap>, plan: Plan)
    requires Partly(before, now, done, plan) && next == now.(state := next.state)
    ensures Partly(before, next, done, plan)
  {
  }

  // what the first of a target's statements leave

  ghost predicate ReplacePart(db: Database, next: Database, s: Swap, run: Run) {
    || next == db || DropIfExists(db, s.target) == Ok(next)
    || (DropIfExists(db, s.target).Ok?
        && Rename(DropIfExists(db, s.target).value, s.staging, s.target.name) == Ok(next))
    || ReplaceTarget(db, s, run) == Ok(next)
  }

  ghost predicate FillPart(db: Database, next: Database, s: Swap, run: Run, names: seq<string>) {
    || next == db || InsertSelect(db, s.target, s.staging, names) == Ok(next)
    || (InsertSelect(db, s.target, s.staging, names).Ok?
        && CommentOn(InsertSelect(db, s.target, s.staging, names).value, s.target, PublishedBy(run, s)) == Ok(next))
    || FillFromStaging(db, s, run, names) == Ok(next)
  }

  ghost predicate RefillPart(db: Database, next: Database, s: Swap, run: Run, names: seq<string>) {
    next == db || (Truncate(db, s.target).Ok? && FillPart(Truncate(db, s.target).value, next, s, run, names))
  }

  ghost predicate CreatePart(db: Database, next: Database, s: Swap, run: Run, columns: seq<Attribute>) {
    || next == db
    || (CreateTable(db, s.target, columns).Ok?
        && FillPart(CreateTable(db, s.target, columns).value, next, s, run, ColumnNames(columns)))
  }

  lemma ReplaceReached(before: Database, now: Database, next: Database, done: set<Swap>, s: Swap, plan: Plan)
    requires Partly(before, now, done, plan) && s !in done && Separate(done + {s}) && s.staging in before.tables
    requires s.staging != s.target && s.staging.schema == s.target.schema
    requires !plan.Refill(s) && ReplacePart(now, next, s, plan.run)
    ensures ReachedIn(before, next, done, s, plan) && next.state == now.state
  {
    NotYet(before, now, done, s, plan);
    assert Key(s.staging.schema, s.target.name) == s.target;
    if next == now {
    } else if DropIfExists(now, s.target) == Ok(next) {
      HalfStep(before, now, next, done, Half(s, Absent), plan);
    } else if ReplaceTarget(now, s, plan.run) == Ok(next) {
      ReplaceEffect(now, s, plan.run);
      PartlyStep(before, now, next, done, s, now.tables[s.staging].(comment := PublishedBy(plan.run, s)), plan);
    } else {
      HalfStep(before, now, next, done, Half(s, Renamed), plan);
    }
  }

  /** Where filling a target, emptied or just created, stands. */
  lemma FillReached(db: Database, next: Database, s: Swap, run: Run, names: seq<string>)
    requires s.staging in db.tables && s.target in db.tables && s.staging != s.target
    requires db.tables[s.target].rows == [] && Tabular(db.tables[s.staging])
    requires names == ColumnNames(db.tables[s.staging].columns) == ColumnNames(db.tables[s.target].columns)
    requires FillPart(db, next, s, run, names)
    ensures var live, filled := db.tables[s.target], db.tables[s.target].(rows := db.tables[s.staging].rows);
      || next == db
      || next == db.(tables := db.tables[s.target := filled])
      || next == db.(tables := db.tables[s.target := filled.(comment := PublishedBy(run, s))])
      || Moved(db, next, s, filled.(comment := PublishedBy(run, s)))
  {
    InsertSelectCopies(db, s.target, s.staging, names);
    assert [] + db.tables[s.staging].rows == db.tables[s.staging].rows;
    if FillFromStaging(db, s, run, names) == Ok(next) {
      FillEffect(db, s, run, names);
    }
  }

  /** A target emptied or created, and filled that far. */
  lemma FillingReached(before: Database, now: Database, empty: Database, next: Database, done: set<Swap>, s: Swap,
      plan: Plan, live: Relation)
    requires Partly(before, now, done, plan) && s !in done && Separate(done + {s}) && s.staging in before.tables
    requires plan.Refill(s) && OnlyAt(now, empty, s) && s.staging in empty.tables && s.target in empty.tables
    requires Same(now.tables, empty.tables, s.staging)
    requires FillingAt(before, empty.tables[s.target], s, Emptied, plan) && FillingAt(before, live, s, Filled, plan)
    requires FillingAt(before, live.(comment := PublishedBy(plan.run, s)), s, Commented, plan)
    requires
      || next == empty
      || next == empty.(tables := empty.tables[s.target := live])
      || next == empty.(tables := empty.tables[s.target := live.(comment := PublishedBy(plan.run, s))])
    ensures ReachedIn(before, next, done, s, plan)
  {
    NotYet(before, now, done, s, plan);
    var at :=
      if next == empty then Emptied
      else if next == empty.(tables := empty.tables[s.target := live]) then Filled else Commented;
    forall k | k != s.target && k != s.staging
      ensures Same(now.tables, next.tables, k)
    {
      assert Same(now.tables, empty.tables, k);
    }
    HalfStep(before, now, next, done, Half(s, at), plan);
  }

  lemma RefillReached(before: Database, now: Database, next: Database, done: set<Swap>, s: Swap, plan: Plan,
      names: seq<string>)
    requires Partly(before, now, done, plan) && s !in done && Separate(done + {s}) && s.staging in before.tables
    requires s.staging != s.target && s.target in before.tables && Tabular(before.tables[s.staging])
    requires plan.Refill(s) && RefillPart(now, next, s, plan.run, names)
    requires names == ColumnNames(before.tables[s.staging].columns) == ColumnNames(before.tables[s.target].columns)
    ensures ReachedIn(before, next, done, s, plan) && next.state == now.state
  {
    NotYet(before, now, done, s, plan);
    if next != now {
      var empty := Truncate(now, s.target).value;
      FillReached(empty, next, s, plan.run, names);
      var live := LiveAt(before, s, Commented, plan);
      if Moved(empty, next, s, live) {
        PartlyStep(before, now, next, done, s, live, plan);
      } else {
        FillingReached(before, now, empty, next, done, s, plan, LiveAt(before, s, Filled, plan));
      }
    }
  }

  lemma CreateReached(before: Database, now: Database, next: Database, done: set<Swap>, s: Swap, plan: Plan)
    requires Partly(before, now, done, plan) && s !in done && Separate(done + {s}) && s.staging in before.tables
    requires s.staging != s.target && s.target !in before.tables && Tabular(before.tables[s.staging])
    requires plan.Refill(s) && plan.Columns(s) == before.tables[s.staging].columns
    requires CreatePart(now, next, s, plan.run, plan.Columns(s))
    ensures ReachedIn(before, next, done, s, plan) && next.state == now.state
  {
    NotYet(before, now, done, s, plan);
    if next != now {
      var columns := plan.Columns(s);
      var empty := CreateTable(now, s.target, columns).value;
      FillReached(empty, next, s, plan.run, ColumnNames(columns));
      var live := CreatedAt(before, now.nextOid, s, Commented, plan);
      if Moved(empty, next, s, live) {
        PartlyStep(before, now, next, done, s, live, plan);
      } else {
        FillingReached(before, now, empty, next, done, s, plan, CreatedAt(before, now.nextOid, s, Filled, plan));
      }
    }
  }

  function SwapSet(swaps: seq<Swap>): set<Swap> {
    set s | s in swaps
  }

  /** A committed publication: every target published, no staging table left,
      every other relation as it was, and the queued state work applied. */
  ghost predicate Committed(before: Database, after: Database, swaps: seq<Swap>, plan: Plan, state: State) {
    && Partly(before, after, SwapSet(swaps), plan)
    && after.state == state
  }

  // -- publication order ------------------------------------------------------------------

  predicate StringLe(a: string, b: string) {
    if a == "" then true
    else if b == "" then false
    else if a[0] != b[0] then a[0] < b[0]
    else StringLe(a[1..], b[1..])
  }

  predicate KeyLe(a: Key, b: Key) {
    if a.schema != b.schema then StringLe(a.schema, b.schema) else StringLe(a.name, b.name)
  }

  /** a comes before b: a prefix of it, or smaller at the first difference. */
  lemma {:induction false} StringOrder(a: string, b: string)
    ensures StringLe(a, b) <==>
      a <= b || exists i :: 0 <= i < |a| && i < |b| && a[..i] == b[..i] && a[i] < b[i]
  {
    if a != "" && b != "" && a[0] == b[0] {
      StringOrder(a[1..], b[1..]);
      if i :| 0 <= i < |a| && i < |b| && a[..i] == b[..i] && a[i] < b[i] {
        assert i > 0 && a[1..][..i - 1] == b[1..][..i - 1] by {
          assert a[1..][..i - 1] == a[..i][1..] && b[1..][..i - 1] == b[..i][1..];
        }
      }
      if i :| 0 <= i < |a[1..]| && i < |b[1..]| && a[1..][..i] == b[1..][..i] && a[1..][i] < b[1..][i] {
        assert a[..i + 1] == [a[0]] + a[1..][..i] && b[..i + 1] == [b[0]] + b[1..][..i];
        assert a[i + 1] < b[i + 1];
      }
      assert a <= b <==> a[1..] <= b[1..];
    } else if a != "" && b != "" {
      assert a[..0] == b[..0];
    }
  }

  /** sorted() on (schema, name): by schema, and within one by name. */
  lemma KeyOrder(a: Key, b: Key)
    ensures a.schema == b.schema ==> (KeyLe(a, b) <==> StringLe(a.name, b.name))
    ensures a.schema != b.schema ==> (KeyLe(a, b) <==> StringLe(a.schema, b.schema))
  {
  }

  function Insert(s: Swap, sorted: seq<Swap>): (r: seq<Swap>)
    ensures multiset(r) == multiset(sorted) + multiset{s}
  {
    if sorted == [] || KeyLe(s.target, sorted[0].target) then [s] + sorted
    else
      assert sorted == [sorted[0]] + sorted[1..];
      [sorted[0]] + Insert(s, sorted[1..])
  }

  /** sorted(pending, key=(schema, name)) */
  function Sorted(swaps: seq<Swap>): (r: seq<Swap>)
    ensures multiset(r) == multiset(swaps)
  {
    if swaps == [] then []
    else
      assert swaps == [swaps[0]] + swaps[1..];
      Insert(swaps[0], Sorted(swaps[1..]))
  }

  lemma {:induction false} StringLeTotal(a: string, b: string)
    ensures StringLe(a, b) || StringLe(b, a)
    ensures StringLe(a, b) && StringLe(b, a) ==> a == b
  {
    if a != "" && b != "" && a[0] == b[0] {
      StringLeTotal(a[1..], b[1..]);
      assert a == [a[0]] + a[1..] && b == [b[0]] + b[1..];
    }
  }

  lemma {:induction false} StringLeTransitive(a: string, b: string, c: string)
    requires StringLe(a, b) && StringLe(b, c)
    ensures StringLe(a, c)
  {
    if a != "" && a[0] == b[0] == c[0] {
      StringLeTransitive(a[1..], b[1..], c[1..]);
    }
  }

  lemma KeyLeTotal(a: Key, b: Key)
    ensures KeyLe(a, b) || KeyLe(b, a)
    ensures KeyLe(a, b) && KeyLe(b, a) ==> a == b
  {
    StringLeTotal(a.schema, b.schema);
    StringLeTotal(a.name, b.name);
  }

  lemma KeyLeTransitive(a: Key, b: Key, c: Key)
    requires KeyLe(a, b) && KeyLe(b, c)
    ensures KeyLe(a, c)
  {
    if a.schema == b.schema == c.schema {
      StringLeTransitive(a.name, b.name, c.name);
    } else if a.schema != b.schema && b.schema != c.schema {
      StringLeTransitive(a.schema, b.schema, c.schema);
      StringLeTotal(a.schema, b.schema);
    }
  }

  predicate Ordered(swaps: seq<Swap>) {
    forall i, j | 0 <= i < j < |swaps| :: KeyLe(swaps[i].target, swaps[j].target)
  }

  lemma {:induction false} InsertOrdered(s: Swap, sorted: seq<Swap>)
    requires Ordered(sorted)
    ensures Ordered(Insert(s, sorted))
  {
    if sorted == [] {
    } else if KeyLe(s.target, sorted[0].target) {
      forall j | 0 < j < |sorted|
        ensures KeyLe(s.target, sorted[j].target)
      {
        KeyLeTransitive(s.target, sorted[0].target, sorted[j].target);
      }
    } else {
      KeyLeTotal(s.target, sorted[0].target);
      InsertOrdered(s, sorted[1..]);
      var rest := Insert(s, sorted[1..]);
      forall j | 0 <= j < |rest|
        ensures KeyLe(sorted[0].target, rest[j].target)
      {
        assert rest[j] in multiset(rest);
        assert rest[j] == s || rest[j] in sorted[1..];
      }
    }
  }

  /** Every publication takes its targets in one global order. */
  lemma {:induction false} SortedIsOrdered(swaps: seq<Swap>)
    ensures Ordered(Sorted(swaps))
  {
    if swaps != [] {
      SortedIsOrdered(swaps[1..]);
      InsertOrdered(swaps[0], Sorted(swaps[1..]));
    }
  }

  // -- why one global order ------------------------------------------------------------------

  predicate KeyLt(a: Key, b: Key) { KeyLe(a, b) && a != b }

  lemma KeyLtTransitive(a: Key, b: Key, c: Key)
    requires KeyLt(a, b) && KeyLt(b, c)
    ensures KeyLt(a, c)
  {
    KeyLeTransitive(a, b, c);
    KeyLeTotal(a, b);
  }

  predicate Ascending(names: seq<Key>) {
    forall i, j | 0 <= i < j < |names| :: KeyLt(names[i], names[j])
  }

  /** A session in the middle of its LOCK TABLE: it holds the first `granted`
      names, and waits for the next. */
  datatype Waiter = Waiter(names: seq<Key>, granted: nat) {
    predicate Waiting() { granted < |names| }
  }

  ghost predicate WaitsFor(a: Waiter, b: Waiter) {
    a.Waiting() && b.granted <= |b.names| && a.names[a.granted] in b.names[..b.granted]
  }

  ghost predicate WaitRing(ring: seq<Waiter>) {
    forall i | 0 <= i < |ring| :: WaitsFor(ring[i], ring[if i + 1 < |ring| then i + 1 else 0])
  }

  lemma WaitingRaises(a: Waiter, b: Waiter)
    requires WaitsFor(a, b) && b.Waiting() && Ascending(b.names)
    ensures KeyLt(a.names[a.granted], b.names[b.granted])
  {
  }

  lemma {:induction false} RingRaises(ring: seq<Waiter>, k: nat)
    requires WaitRing(ring) && 0 < k < |ring| && forall i | 0 <= i < |ring| :: Ascending(ring[i].names)
    ensures ring[0].Waiting() && ring[k].Waiting()
    ensures KeyLt(ring[0].names[ring[0].granted], ring[k].names[ring[k].granted])
  {
    var a, b, c := ring[0], ring[k - 1], ring[k];
    assert WaitsFor(a, ring[1]) && WaitsFor(b, c);
    assert WaitsFor(c, ring[if k + 1 < |ring| then k + 1 else 0]);
    WaitingRaises(b, c);
    if k > 1 {
      RingRaises(ring, k - 1);
      KeyLtTransitive(a.names[a.granted], b.names[b.granted], c.names[c.granted]);
    }
  }

  /** Publishers that lock their targets in the global order never wait for one
      another in a ring, however their targets overlap. */
  lemma NoWaitRing(ring: seq<Waiter>)
    requires ring != [] && forall i | 0 <= i < |ring| :: Ascending(ring[i].names)
    ensures !WaitRing(ring)
  {
    if WaitRing(ring) {
      var last := |ring| - 1;
      var a, b := ring[0], ring[last];
      assert WaitsFor(b, a);
      assert WaitsFor(a, ring[if 1 < |ring| then 1 else 0]);
      WaitingRaises(b, a);
      if last > 0 {
        RingRaises(ring, last);
        KeyLeTotal(a.names[a.granted], b.names[b.granted]);
      }
    }
  }

  lemma SortedSame(swaps: seq<Swap>)
    ensures SwapSet(Sorted(swaps)) == SwapSet(swaps) && |Sorted(swaps)| == |swaps|
    ensures !HasDuplicates(swaps) ==> !HasDuplicates(Sorted(swaps))
  {
    var r := Sorted(swaps);
    assert |multiset(r)| == |r| && |multiset(swaps)| == |swaps|;
    forall s
      ensures s in r <==> s in swaps
    {
      assert s in r <==> s in multiset(r);
      assert s in swaps <==> s in multiset(swaps);
    }
    if HasDuplicates(r) {
      var i, j :| 0 <= i < j < |r| && r[i] == r[j];
      TwiceCounted(r, i, j);
      CountedTwice(swaps, r[i]);
    }
  }

  lemma TwiceCounted(r: seq<Swap>, i: nat, j: nat)
    requires i < j < |r| && r[i] == r[j]
    ensures multiset(r)[r[i]] >= 2
  {
    assert r == r[..j] + r[j..];
    assert multiset(r) == multiset(r[..j]) + multiset(r[j..]);
    assert r[..j][i] in multiset(r[..j]) && r[j..][0] in multiset(r[j..]);
  }

  lemma {:induction false} CountedTwice(r: seq<Swap>, s: Swap)
    requires multiset(r)[s] >= 2
    ensures HasDuplicates(r)
  {
    assert r == [r[0]] + r[1..];
    if r[0] == s {
      assert s in multiset(r[1..]);
      var j :| 0 <= j < |r[1..]| && r[1..][j] == s;
      assert r[0] == r[j + 1];
    } else {
      CountedTwice(r[1..], s);
      var i, j :| 0 <= i < j < |r[1..]| && r[1..][i] == r[1..][j];
      assert r[i + 1] == r[j + 1];
    }
  }
}
