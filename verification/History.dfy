/** Whole histories of one task with source checking on: every change any run
    commits, of this task or another, complete, partial, failed or crashed, and
    every decision to skip (task_core/runner.py, 537-570, 673-695;
    task_core/source_state.py). */
module History {
  import opened Values
  import opened Catalog
  import opened Identifiers
  import opened Lifecycle
  import opened Publication
  import opened PublicationSteps
  import opened Publisher
  import opened SourceState
  import S = Server

  /** The sources of one task and what its pipelines make of them: the targets
      they publish, and their rows as a function of the fingerprints. */
  datatype Task = Task(
    name: string,
    targets: set<Key>,
    produce: (set<(string, string)>, Key) -> Rows,
    storeSnapshot: bool)
  {
    /** No target's own name has the staging shape. */
    predicate Valid() { forall k | k in targets :: OwnedTokens(k.name).None? }
  }

  function Pairs(fps: seq<Fingerprint>): set<(string, string)> {
    set fp | fp in fps :: (fp.key, fp.signature)
  }

  function Targets(pending: seq<Swap>): set<Key> {
    set s | s in pending :: s.target
  }

  /** Skips: a run asked for some of the targets, with these fingerprints, and
      decided to do nothing.  Changes: a run committed a change; `fps` are the
      fingerprints it collected. */
  datatype Event =
    | Skips(fps: seq<Fingerprint>, requested: set<Key>)
    | Changes(c: Config, change: Change, fps: seq<Fingerprint>)
    | Stranger

  /** The update a run queues for its publication. */
  function StoreStep(name: string, fps: seq<Fingerprint>, storeSnapshot: bool): Step {
    Step("update source state", Writes(name, fps, storeSnapshot))
  }

  /** The fingerprints and the targets of a committed run. */
  datatype Commit = Commit(fps: seq<Fingerprint>, targets: set<Key>)

  /** `last`: the last run of the task to publish.  `made`: for each target, the
      fingerprints it was last published with. */
  datatype Moment = Moment(db: Database, last: Option<Commit>, made: map<Key, seq<Fingerprint>>)

  function Remember(made: map<Key, seq<Fingerprint>>, targets: set<Key>, fps: seq<Fingerprint>)
    : map<Key, seq<Fingerprint>>
  {
    map k | k in made.Keys + targets :: if k in targets then fps else made[k]
  }

  /** A publication of this task: some of its targets, with the rows the
      collected sources produce, and its source-state update. */
  ghost predicate PublishesOwn(task: Task, db: Database, p: Change, fps: seq<Fingerprint>)
    requires p.Publish?
  {
    && fps != [] && Targets(p.pending) <= task.targets
    && p.steps == [StoreStep(task.name, fps, task.storeSnapshot)]
    && forall s | s in p.pending ::
         s.staging in db.tables && db.tables[s.staging].rows == task.produce(Pairs(fps), s.target)
  }

  /** A publication of another task: its own targets and its own source state. */
  ghost predicate PublishesElsewhere(task: Task, p: Change, c: Config, fps: seq<Fingerprint>)
    requires p.Publish?
  {
    && Targets(p.pending) !! task.targets
    && (p.steps == [] || exists stores :: p.steps == [StoreStep(c.task, fps, stores)])
  }

  ghost predicate Publishes(task: Task, db: Database, change: Change, c: Config, fps: seq<Fingerprint>) {
    match PublicationOf(change)
    case None => true
    case Some(p) => if c.task == task.name then PublishesOwn(task, db, p, fps) else PublishesElsewhere(task, p, c, fps)
  }

  /** The moment a run's change leads to: only a whole publication of the task
      counts as one. */
  function Led(task: Task, m: Moment, c: Config, change: Change, fps: seq<Fingerprint>, db: Database): Moment {
    if Whole(change) && c.task == task.name then
      var targets := Targets(PublicationOf(change).value.pending);
      Moment(db, Some(Commit(fps, targets)), Remember(m.made, targets, fps))
    else m.(db := db)
  }

  /** One event.  What a run's change does is what Lifecycle says it does; only
      a stranger is taken at its word to leave this task's rows and targets
      alone. */
  ghost predicate Next(task: Task, m: Moment, e: Event, n: Moment) {
    match e
    case Skips(fps, requested) =>
      fps != [] && requested <= task.targets && Unchanged(m.db.state, task.name, fps) && n == m
    case Changes(c, change, fps) =>
      && c.Valid() && Makes(c, change, m.db, n.db) && Publishes(task, m.db, change, c, fps)
      && n == Led(task, m, c, change, fps, n.db)
    case Stranger => n == m.(db := n.db) && Aside(task, m.db, n.db)
  }

  ghost predicate Aside(task: Task, before: Database, after: Database) {
    && (forall sk: StateKey | sk.task == task.name ::
          (sk in after.state <==> sk in before.state) && (sk in before.state ==> after.state[sk] == before.state[sk]))
    && (forall k | k in task.targets :: Same(before.tables, after.tables, k))
  }

  ghost predicate Past(task: Task, moments: seq<Moment>, events: seq<Event>) {
    && task.Valid() && |moments| == |events| + 1
    && moments[0].last == None && moments[0].made == map[] && Stored(moments[0].db.state, task.name) == map[]
    && forall i | 0 <= i < |events| :: Next(task, moments[i], events[i], moments[i + 1])
  }

  // -- transactions left open ---------------------------------------------------------------

  /** What such a target shows afterwards is what it showed before: its rows, if
      the task has published it, and otherwise all of it. */
  ghost predicate Unaltered(m: Moment, s: Swap, at: Option<Point>, plan: Plan) {
    && s.target in m.db.tables && s.staging in m.db.tables && at != Some(Absent)
    && var live, now := m.db.tables[s.target], ShownAt(m.db, s, at, plan);
      if s.target in m.made then now.rows == live.rows else now == live
  }

  /** The fingerprints stored are those stored before. */
  ghost predicate SameStored(task: Task, m: Moment, writes: seq<Write>, ran: nat)
    requires ran <= |writes|
  {
    && RunWrites(writes[..ran], m.db.state).Ok?
    && Stored(RunWrites(writes[..ran], m.db.state).value, task.name) == Stored(m.db.state, task.name)
  }

  /** A part of a publication of this task that parts neither fingerprints nor
      targets from what the history says of them. */
  ghost predicate HarmlessPart(task: Task, m: Moment, left: Left)
    requires left.PartPublish? && left.extent.ran <= |WritesOf(left.steps)|
  {
    var x := left.extent;
    && SameStored(task, m, WritesOf(left.steps), x.ran)
    && (forall s | s in x.done :: Unaltered(m, s, None, left.plan))
    && (x.half.Some? ==> Unaltered(m, x.half.value.swap, Some(x.half.value.at), left.plan))
  }

  /** Anything but a part of one of the task's own publications is harmless. */
  ghost predicate Harmless(task: Task, m: Moment, e: Event) {
    e.Changes? && e.c.task == task.name && PublicationOf(e.change).Some? && !Whole(e.change) ==>
      e.change.left.extent.ran <= |WritesOf(e.change.left.steps)| && HarmlessPart(task, m, e.change.left)
  }

  ghost predicate AllHarmless(task: Task, moments: seq<Moment>, events: seq<Event>, i: nat)
    requires i <= |events| <= |moments|
  {
    forall j | 0 <= j < i :: Harmless(task, moments[j], events[j])
  }

  /** The stored fingerprints are those of the last run to publish; each target
      holds what it was last published with, or what was there at the start. */
  ghost predicate Faithful(task: Task, start: Database, m: Moment) {
    && Stored(m.db.state, task.name) == (if m.last.Some? then Signatures(m.last.value.fps) else map[])
    && (forall k | k in task.targets :: Holds(task, start, m, k))
    && (m.last.Some? ==>
          forall k | k in m.last.value.targets :: k in m.made && m.made[k] == m.last.value.fps)
  }

  ghost predicate Holds(task: Task, start: Database, m: Moment, k: Key) {
    if k in m.made then k in m.db.tables && m.db.tables[k].rows == task.produce(Pairs(m.made[k]), k)
    else Same(start.tables, m.db.tables, k)
  }

  // -- what a run's changes leave alone -------------------------------------------------------

  lemma StagingNameShape(c: Config, table: string)
    requires c.Valid()
    ensures OwnedTokens(c.StagingKey(table).name).Some?
  {
    StagingNameOwned(c.digest, Some(c.schema), table, c.token, c.maxBytes);
  }

  /** Cleaning up, staging an output and dropping it again, whole or in part,
      touch neither a task's targets nor its stored rows, whoever does it. */
  lemma PreparingAside(task: Task, c: Config, change: Change, before: Database, after: Database)
    requires task.Valid() && c.Valid() && Makes(c, change, before, after) && PublicationOf(change).None?
    ensures Aside(task, before, after)
  {
    forall k | k in task.targets
      ensures Same(before.tables, after.tables, k)
    {
      TargetUnseen(c, change, before, after, k);
    }
  }

  lemma UntouchedTarget(task: Task, c: Config, pending: seq<Swap>, some: set<Swap>, k: Key)
    requires task.Valid() && c.Valid() && OwnSwaps(c, pending) && k in task.targets && some <= SwapSet(pending)
    requires forall s | s in some :: s.target != k
    ensures Untouched(k, some)
  {
    forall s | s in some
      ensures k != s.target && k != s.staging
    {
      assert s in pending;
      StagingNameShape(c, s.target.name);
    }
  }

  /** A publication, or a part of it, leaves every other target alone. */
  lemma OtherTarget(task: Task, c: Config, change: Change, before: Database, after: Database, k: Key)
    requires task.Valid() && c.Valid() && Makes(c, change, before, after) && PublicationOf(change).Some?
    requires k in task.targets
    requires k !in Targets(PublicationOf(change).value.pending)
      || (change.LeftOpen? && forall s | s in Begun(change.left.extent) :: s.target != k)
    ensures Same(before.tables, after.tables, k)
  {
    var pending := PublicationOf(change).value.pending;
    if change.Publish? {
      forall s | s in SwapSet(pending)
        ensures s.target != k
      {
        assert s in pending && s.target in Targets(pending);
      }
      UntouchedTarget(task, c, pending, SwapSet(pending), k);
    } else {
      var x := change.left.extent;
      forall s | s in Begun(x)
        ensures s.target != k
      {
        assert s in SwapSet(pending) && s in pending && s.target in Targets(pending);
      }
      UntouchedTarget(task, c, pending, Begun(x), k);
    }
  }

  lemma OneStep(step: Step)
    ensures WritesOf([step]) == step.writes
  {
    assert [step][..0] == [];
  }

  /** The first of another task's statements leave this task's rows alone. */
  lemma WritesElsewhere(task: Task, state: State, name: string, fps: seq<Fingerprint>, stores: bool, n: nat)
    requires name != task.name && n <= |Writes(name, fps, stores)|
    ensures RunWrites(Writes(name, fps, stores)[..n], state).Ok?
    ensures forall sk: StateKey | sk.task == task.name ::
      var after := RunWrites(Writes(name, fps, stores)[..n], state).value;
      (sk in after <==> sk in state) && (sk in state ==> after[sk] == state[sk])
  {
    if n == 0 {
      assert RunWrites(Writes(name, fps, stores)[..0], state) == Ok(state);
    } else {
      WritesStore(state, name, fps, stores, n - 1);
      UpsertedKeys(Prune(state, name, Keys(fps)), name, fps[..n - 1], stores);
    }
  }

  /** Another task's publication, or a part of it, leaves this task's rows and
      targets alone. */
  lemma ElsewhereAside(task: Task, c: Config, change: Change, fps: seq<Fingerprint>, before: Database, after: Database)
    requires task.Valid() && c.Valid() && c.task != task.name && PublicationOf(change).Some?
    requires Makes(c, change, before, after) && Publishes(task, before, change, c, fps)
    ensures Aside(task, before, after)
  {
    var p := PublicationOf(change).value;
    forall k | k in task.targets
      ensures Same(before.tables, after.tables, k)
    {
      OtherTarget(task, c, change, before, after, k);
    }
    var writes := WritesOf(p.steps);
    var n := if change.Publish? then |writes| else change.left.extent.ran;
    assert writes[..|writes|] == writes;
    if p.steps == [] {
      assert RunWrites(writes[..n], before.state) == Ok(before.state);
    } else {
      var stores :| p.steps == [StoreStep(c.task, fps, stores)];
      OneStep(StoreStep(c.task, fps, stores));
      WritesElsewhere(task, before.state, c.task, fps, stores, n);
    }
  }

  lemma AsideStored(task: Task, before: Database, after: Database)
    requires Aside(task, before, after)
    ensures Stored(after.state, task.name) == Stored(before.state, task.name)
  {
    var a, b := Stored(before.state, task.name), Stored(after.state, task.name);
    forall k
      ensures k in a <==> k in b
      ensures k in a ==> a[k] == b[k]
    {
      assert StateKey(task.name, k).sourceKey == k;
    }
  }

  lemma AsideFaithful(task: Task, start: Database, m: Moment, n: Moment)
    requires Faithful(task, start, m) && Aside(task, m.db, n.db) && n.last == m.last && n.made == m.made
    ensures Faithful(task, start, n)
  {
    AsideStored(task, m.db, n.db);
    forall k | k in task.targets
      ensures Holds(task, start, n, k)
    {
      assert Holds(task, start, m, k) && Same(m.db.tables, n.db.tables, k);
    }
  }

  // -- what the task's own publications do -----------------------------------------------------

  lemma PublishedTarget(task: Task, c: Config, m: Moment, n: Moment, p: Change, fps: seq<Fingerprint>, k: Key)
    requires p.Publish? && Makes(c, p, m.db, n.db) && PublishesOwn(task, m.db, p, fps)
    requires k in Targets(p.pending)
    ensures k in n.db.tables && n.db.tables[k].rows == task.produce(Pairs(fps), k)
  {
    var s :| s in p.pending && s.target == k;
    assert s in SwapSet(p.pending);
    assert TargetDone(m.db, n.db.tables[s.target], s, p.plan);
  }

  /** A whole publication is a publication, whoever commits it. */
  lemma WholeMakes(c: Config, change: Change, before: Database, after: Database)
    requires Whole(change) && Makes(c, change, before, after)
    ensures Makes(c, PublicationOf(change).value, before, after)
  {
    if change.LeftOpen? {
      var left := change.left;
      EverythingIsAll(before, after, left.pending, left.plan, WritesOf(left.steps), left.extent);
    }
  }

  lemma OwnFaithful(task: Task, start: Database, m: Moment, n: Moment, c: Config, change: Change, fps: seq<Fingerprint>)
    requires task.Valid() && Faithful(task, start, m) && Next(task, m, Changes(c, change, fps), n)
    requires Whole(change) && c.task == task.name
    ensures Faithful(task, start, n)
  {
    var p := PublicationOf(change).value;
    WholeMakes(c, change, m.db, n.db);
    OneStep(StoreStep(task.name, fps, task.storeSnapshot));
    WritesAll(m.db.state, task.name, fps, task.storeSnapshot);
    UpsertRemembers(m.db.state, task.name, fps, task.storeSnapshot);
    forall k | k in task.targets
      ensures Holds(task, start, n, k)
    {
      if k in Targets(p.pending) {
        PublishedTarget(task, c, m, n, p, fps, k);
      } else {
        OtherTarget(task, c, p, m.db, n.db, k);
        assert Holds(task, start, m, k) && Same(m.db.tables, n.db.tables, k);
      }
    }
  }

  // a part of one of the task's own publications

  /** What a begun target shows. */
  lemma BegunShows(c: Config, left: Left, before: Database, after: Database, s: Swap)
    requires left.PartPublish? && Leaves(c, left, before, after) && s in Begun(left.extent)
    ensures var at := if s in left.extent.done then None else Some(left.extent.half.value.at);
      && s.staging in before.tables
      && (s.target in before.tables ==>
           if at == Some(Absent) then s.target !in after.tables
           else s.target in after.tables && after.tables[s.target] == ShownAt(before, s, at, left.plan))
      && (s.target !in before.tables ==> s.target in after.tables)
  {
  }

  /** Such a target is as the history says exactly when it is unaltered. */
  lemma BegunHolds(task: Task, start: Database, m: Moment, n: Moment, c: Config, left: Left, s: Swap)
    requires left.PartPublish? && Leaves(c, left, m.db, n.db) && s in Begun(left.extent)
    requires n.made == m.made && Holds(task, start, m, s.target)
    ensures var at := if s in left.extent.done then None else Some(left.extent.half.value.at);
      Holds(task, start, n, s.target) <==> Unaltered(m, s, at, left.plan)
  {
    BegunShows(c, left, m.db, n.db, s);
  }

  lemma PartFaithfulIff(task: Task, start: Database, m: Moment, n: Moment, c: Config, left: Left)
    requires task.Valid() && c.Valid() && Faithful(task, start, m) && n == m.(db := n.db)
    requires left.PartPublish? && Leaves(c, left, m.db, n.db) && Targets(left.pending) <= task.targets
    ensures Faithful(task, start, n) <==> HarmlessPart(task, m, left)
  {
    var x := left.extent;
    forall s | s in Begun(x)
      ensures var at := if s in x.done then None else Some(x.half.value.at);
        s.target in task.targets && (Holds(task, start, n, s.target) <==> Unaltered(m, s, at, left.plan))
    {
      assert s in SwapSet(left.pending) && s in left.pending && s.target in Targets(left.pending);
      BegunHolds(task, start, m, n, c, left, s);
    }
    if HarmlessPart(task, m, left) {
      forall k | k in task.targets
        ensures Holds(task, start, n, k)
      {
        if s :| s in Begun(x) && s.target == k {
          assert Unaltered(m, s, if s in x.done then None else Some(x.half.value.at), left.plan);
        } else {
          OtherTarget(task, c, LeftOpen(left), m.db, n.db, k);
          assert Holds(task, start, m, k);
        }
      }
    }
  }

  /** Every event but a harmful part of a publication keeps a history faithful,
      and such a part never does. */
  lemma NextFaithful(task: Task, start: Database, m: Moment, e: Event, n: Moment)
    requires task.Valid() && Faithful(task, start, m) && Next(task, m, e, n)
    ensures Faithful(task, start, n) <==> Harmless(task, m, e)
  {
    match e {
      case Skips(_, _) =>
      case Stranger => AsideFaithful(task, start, m, n);
      case Changes(c, change, fps) =>
        if PublicationOf(change).None? {
          PreparingAside(task, c, change, m.db, n.db);
          AsideFaithful(task, start, m, n);
        } else if c.task != task.name {
          ElsewhereAside(task, c, change, fps, m.db, n.db);
          AsideFaithful(task, start, m, n);
        } else if Whole(change) {
          OwnFaithful(task, start, m, n, c, change, fps);
        } else {
          PartFaithfulIff(task, start, m, n, c, change.left);
        }
    }
  }

  /** When everything a publication makes is new, a part of it is harmless
      exactly when it stores no other fingerprints and has begun no target. */
  lemma PartHarmlessIff(task: Task, m: Moment, c: Config, left: Left, after: Database)
    requires left.PartPublish? && Leaves(c, left, m.db, after)
    requires forall s | s in left.pending && s.target in m.db.tables && s.staging in m.db.tables ::
      m.db.tables[s.target].rows != [] && m.db.tables[s.target].rows != m.db.tables[s.staging].rows
    ensures var x := left.extent;
      HarmlessPart(task, m, left) <==> Begun(x) == {} && SameStored(task, m, WritesOf(left.steps), x.ran)
  {
    var x := left.extent;
    forall s | s in Begun(x)
      ensures !Unaltered(m, s, if s in x.done then None else Some(x.half.value.at), left.plan)
    {
      assert s in SwapSet(left.pending) && s in left.pending;
    }
    if x.half.Some? {
      assert x.half.value.swap in Begun(x) && x.half.value.swap !in x.done;
    }
    assert forall s | s in x.done :: s in Begun(x);
  }

  /** At every moment of every history in which no harmful part of a publication
      was committed. */
  lemma {:induction false} AlwaysFaithful(task: Task, moments: seq<Moment>, events: seq<Event>, i: nat)
    requires Past(task, moments, events) && i < |moments| && AllHarmless(task, moments, events, i)
    ensures Faithful(task, moments[0].db, moments[i])
  {
    if i > 0 {
      AlwaysFaithful(task, moments, events, i - 1);
      assert Next(task, moments[i - 1], events[i - 1], moments[i]) && Harmless(task, moments[i - 1], events[i - 1]);
      NextFaithful(task, moments[0].db, moments[i - 1], events[i - 1], moments[i]);
    }
  }

  // -- runs make histories -------------------------------------------------------------------

  /** Every change this run publishes, or part of one, is a publication of its
      task. */
  ghost predicate Publications(task: Task, c: Config, t: Trail, fps: seq<Fingerprint>)
    requires Runs(c, t)
  {
    forall i | 0 <= i < |t.changes| :: Publishes(task, t.dbs[i], t.changes[i], c, fps)
  }

  /** The outputs and the step a run is given: of this task, what its pipelines
      make of the fingerprints and their update; of another, its own. */
  ghost predicate Supplies(
    task: Task, c: Config, payloads: seq<Payload>, step: Option<Step>, fps: seq<Fingerprint>)
  {
    if c.task == task.name then
      && fps != [] && step == Some(StoreStep(task.name, fps, task.storeSnapshot))
      && forall p | p in payloads ::
           Key(p.schema, p.table) in task.targets && p.rows == task.produce(Pairs(fps), Key(p.schema, p.table))
    else
      && (forall p | p in payloads :: Key(p.schema, p.table) !in task.targets)
      && (step.None? || exists stores :: step == Some(StoreStep(c.task, fps, stores)))
  }

  lemma SuppliesPublishes(task: Task, c: Config, db: Database, change: Change, payloads: seq<Payload>,
      step: Option<Step>, fps: seq<Fingerprint>)
    requires Supplies(task, c, payloads, step, fps)
    requires PublicationOf(change) == Some(WholePublish(c, payloads, step))
    requires forall j | 0 <= j < |payloads| :: StagedIn(db, SwapOf(c, payloads[j]), payloads[j])
    ensures Publishes(task, db, change, c, fps)
  {
    var p := WholePublish(c, payloads, step);
    forall s | s in p.pending
      ensures exists q :: q in payloads && s.target == Key(q.schema, q.table) && StagedIn(db, s, q)
    {
      var j :| 0 <= j < |payloads| && p.pending[j] == s;
      assert payloads[j] in payloads && StagedIn(db, SwapOf(c, payloads[j]), payloads[j]);
    }
  }

  lemma RunPublishesAt(task: Task, c: Config, t: Trail, payloads: seq<Payload>, step: Option<Step>,
      fps: seq<Fingerprint>, i: nat)
    requires Runs(c, t) && Supplies(task, c, payloads, step, fps) && i < |t.changes|
    requires PublicationOf(t.changes[i]) == Some(WholePublish(c, payloads, step)) && i == |payloads| + 1
    requires t.changes[..i] == Outputs(c, payloads)
    ensures Publishes(task, t.dbs[i], t.changes[i], c, fps)
  {
    StagesAll(c, t, payloads);
    forall j | 0 <= j < |payloads|
      ensures StagedIn(t.dbs[i], SwapOf(c, payloads[j]), payloads[j])
    {
      StagedStill(c, t.dbs, payloads, j, |payloads|);
    }
    SuppliesPublishes(task, c, t.dbs[i], t.changes[i], payloads, step, fps);
  }

  /** A run given its task's outputs publishes them, however it ends. */
  lemma RunPublishes(task: Task, c: Config, t: Trail, payloads: seq<Payload>, step: Option<Step>, fps: seq<Fingerprint>)
    requires Runs(c, t) && Ended(c, t.changes, payloads, step) && Supplies(task, c, payloads, step, fps)
    ensures Publications(task, c, t, fps)
  {
    forall i | 0 <= i < |t.changes|
      ensures Publishes(task, t.dbs[i], t.changes[i], c, fps)
    {
      ShapeOf(c, t.changes, payloads, step, i);
      if PublicationOf(t.changes[i]).Some? {
        RunPublishesAt(task, c, t, payloads, step, fps, i);
      }
    }
  }

  function Events(c: Config, changes: seq<Change>, fps: seq<Fingerprint>): (r: seq<Event>)
    ensures |r| == |changes|
    ensures forall i | 0 <= i < |changes| :: r[i] == Changes(c, changes[i], fps)
  {
    seq(|changes|, i requires 0 <= i < |changes| => Changes(c, changes[i], fps))
  }

  lemma OneMoreEvent(task: Task, moments: seq<Moment>, events: seq<Event>, e: Event, n: Moment)
    requires Past(task, moments, events) && Next(task, moments[|events|], e, n)
    ensures Past(task, moments + [n], events + [e])
  {
    var more, all := events + [e], moments + [n];
    forall i | 0 <= i < |more|
      ensures Next(task, all[i], more[i], all[i + 1])
    {
      if i < |events| {
        assert Next(task, moments[i], events[i], moments[i + 1]);
      }
    }
  }

  lemma EventsNext(c: Config, changes: seq<Change>, fps: seq<Fingerprint>, j: nat)
    requires j < |changes|
    ensures Events(c, changes[..j + 1], fps) == Events(c, changes[..j], fps) + [Changes(c, changes[j], fps)]
  {
  }

  lemma OneMoreChange(task: Task, moments: seq<Moment>, events: seq<Event>, c: Config, change: Change,
      fps: seq<Fingerprint>, db: Database) returns (all: seq<Moment>)
    requires Past(task, moments, events) && c.Valid() && Makes(c, change, moments[|events|].db, db)
    requires Publishes(task, moments[|events|].db, change, c, fps)
    ensures Past(task, all, events + [Changes(c, change, fps)])
    ensures |all| == |moments| + 1 && all[..|moments|] == moments && all[|moments|].db == db
  {
    var next := Led(task, moments[|events|], c, change, fps, db);
    OneMoreEvent(task, moments, events, Changes(c, change, fps), next);
    all := moments + [next];
  }

  /** The moments of a history and then of the first j changes of a trail. */
  ghost predicate Continued(task: Task, all: seq<Moment>, moments: seq<Moment>, events: seq<Event>, c: Config,
    t: Trail, fps: seq<Fingerprint>, j: nat)
    requires Runs(c, t) && j <= |t.changes|
  {
    && Past(task, all, events + Events(c, t.changes[..j], fps)) && |moments| == |events| + 1
    && |all| == |moments| + j && all[..|moments|] == moments
    && forall i | 0 <= i <= j :: all[|events| + i].db == t.dbs[i]
  }

  lemma ContinuedNext(task: Task, before: seq<Moment>, moments: seq<Moment>, events: seq<Event>,
      c: Config, t: Trail, fps: seq<Fingerprint>, j: nat) returns (all: seq<Moment>)
    requires Runs(c, t) && j < |t.changes| && c.Valid() && Continued(task, before, moments, events, c, t, fps, j)
    requires Publishes(task, t.dbs[j], t.changes[j], c, fps)
    ensures Continued(task, all, moments, events, c, t, fps, j + 1)
  {
    var change, so := t.changes[j], events + Events(c, t.changes[..j], fps);
    assert Makes(c, change, t.dbs[j], t.dbs[j + 1]) && before[|events| + j].db == t.dbs[j];
    all := OneMoreChange(task, before, so, c, change, fps, t.dbs[j + 1]);
    EventsNext(c, t.changes, fps, j);
    assert events + Events(c, t.changes[..j + 1], fps) == so + [Changes(c, change, fps)];
    assert all == before + [all[|before|]];
  }

  lemma {:induction false} TrailContinues(task: Task, moments: seq<Moment>, events: seq<Event>,
      c: Config, t: Trail, fps: seq<Fingerprint>, j: nat) returns (all: seq<Moment>)
    requires Past(task, moments, events) && c.Valid() && Runs(c, t) && t.dbs[0] == moments[|events|].db
    requires Publications(task, c, t, fps) && j <= |t.changes|
    ensures Continued(task, all, moments, events, c, t, fps, j)
  {
    if j == 0 {
      all := moments;
      assert events + Events(c, t.changes[..0], fps) == events;
    } else {
      var before := TrailContinues(task, moments, events, c, t, fps, j - 1);
      all := ContinuedNext(task, before, moments, events, c, t, fps, j - 1);
    }
  }

  /** Whatever a run given its task's outputs committed, in whatever way it
      ended, continues a history. */
  lemma RunContinues(task: Task, moments: seq<Moment>, events: seq<Event>, c: Config, t: Trail,
      payloads: seq<Payload>, step: Option<Step>, fps: seq<Fingerprint>) returns (all: seq<Moment>)
    requires Past(task, moments, events) && c.Valid() && Runs(c, t) && t.dbs[0] == moments[|events|].db
    requires Ended(c, t.changes, payloads, step) && Supplies(task, c, payloads, step, fps)
    ensures Past(task, all, events + Events(c, t.changes, fps)) && moments <= all
    ensures forall i | 0 <= i <= |t.changes| :: all[|events| + i].db == t.dbs[i]
  {
    RunPublishes(task, c, t, payloads, step, fps);
    all := TrailContinues(task, moments, events, c, t, fps, |t.changes|);
    assert t.changes[..|t.changes|] == t.changes;
  }

  // -- when a skip is right -------------------------------------------------------------

  /** The requested targets hold what this run would have produced. */
  ghost predicate SkipRight(task: Task, db: Database, fps: seq<Fingerprint>, requested: set<Key>) {
    forall k | k in requested :: k in db.tables && db.tables[k].rows == task.produce(Pairs(fps), k)
  }

  lemma ConsistentPairs(fps: seq<Fingerprint>)
    ensures Consistent(fps) <==> Pairs(fps) == set k | k in Signatures(fps) :: (k, Signatures(fps)[k])
  {
    SignatureKeys(fps);
    ConsistentSignatures(fps);
    var listed := set k | k in Signatures(fps) :: (k, Signatures(fps)[k]);
    if Consistent(fps) {
      forall k | k in Signatures(fps)
        ensures (k, Signatures(fps)[k]) in Pairs(fps)
      {
        var i :| 0 <= i < |Keys(fps)| && Keys(fps)[i] == k;
        assert fps[i] in fps;
      }
      assert Pairs(fps) == listed;
    } else if Pairs(fps) == listed {
      forall i | 0 <= i < |fps|
        ensures fps[i].key in Signatures(fps) && Signatures(fps)[fps[i].key] == fps[i].signature
      {
        assert fps[i] in fps && (fps[i].key, fps[i].signature) in listed;
      }
    }
  }

  /** A skipping run's fingerprints have the signatures of the last run to
      publish, and are the very same exactly when that run fingerprinted no key
      with two signatures. */
  lemma SkipFollows(task: Task, moments: seq<Moment>, events: seq<Event>, i: nat)
    requires Past(task, moments, events) && i < |events| && events[i].Skips? && AllHarmless(task, moments, events, i)
    ensures var fps, m := events[i].fps, moments[i];
      && m.last.Some? && Signatures(fps) == Signatures(m.last.value.fps)
      && (Pairs(fps) == Pairs(m.last.value.fps) <==> Consistent(m.last.value.fps))
  {
    var fps, m := events[i].fps, moments[i];
    AlwaysFaithful(task, moments, events, i);
    assert Next(task, m, events[i], moments[i + 1]);
    UnchangedIff(m.db.state, task.name, fps);
    SignatureKeys(fps);
    assert Keys(fps)[0] in Signatures(fps);
    if m.last.Some? {
      ConsistentPairs(fps);
      ConsistentPairs(m.last.value.fps);
    }
  }

  /** A skip is right exactly when each requested target was last published with
      fingerprints that produce the same rows - or was never published, and
      held those rows from the start. */
  lemma SkipRightIff(task: Task, moments: seq<Moment>, events: seq<Event>, i: nat)
    requires Past(task, moments, events) && i < |events| && events[i].Skips? && AllHarmless(task, moments, events, i)
    ensures var (fps, requested, m, start) := (events[i].fps, events[i].requested, moments[i], moments[0].db);
      SkipRight(task, m.db, fps, requested) <==>
        forall k | k in requested ::
          if k in m.made then task.produce(Pairs(m.made[k]), k) == task.produce(Pairs(fps), k)
          else k in start.tables && start.tables[k].rows == task.produce(Pairs(fps), k)
  {
    AlwaysFaithful(task, moments, events, i);
    assert Next(task, moments[i], events[i], moments[i + 1]);
    forall k | k in events[i].requested
      ensures Holds(task, moments[0].db, moments[i], k)
    {
    }
  }

  /** So it is right when the last run to publish published every target this
      one was asked for, and fingerprinted no key with two signatures. */
  lemma SkipIsRight(task: Task, moments: seq<Moment>, events: seq<Event>, i: nat)
    requires Past(task, moments, events) && i < |events| && events[i].Skips? && AllHarmless(task, moments, events, i)
    requires var last := moments[i].last; last.Some? ==>
      events[i].requested <= last.value.targets && Consistent(last.value.fps)
    ensures SkipRight(task, moments[i].db, events[i].fps, events[i].requested)
  {
    AlwaysFaithful(task, moments, events, i);
    SkipFollows(task, moments, events, i);
    SkipRightIff(task, moments, events, i);
  }

  /** And when rows tell fingerprints apart, and no target was there at the
      start, only when each was last published with the same fingerprints. */
  lemma SkipRightOnlyIf(task: Task, moments: seq<Moment>, events: seq<Event>, i: nat)
    requires Past(task, moments, events) && i < |events| && events[i].Skips? && AllHarmless(task, moments, events, i)
    requires forall k | k in task.targets :: k !in moments[0].db.tables
    requires forall a, b, k :: task.produce(a, k) == task.produce(b, k) ==> a == b
    ensures SkipRight(task, moments[i].db, events[i].fps, events[i].requested) <==>
      forall k | k in events[i].requested ::
        k in moments[i].made && Pairs(moments[i].made[k]) == Pairs(events[i].fps)
  {
    SkipRightIff(task, moments, events, i);
    assert Next(task, moments[i], events[i], moments[i + 1]);
  }

  // -- histories that go wrong ------------------------------------------------------------------

  function OnlyOutput(task: Task, a: Key, fps: seq<Fingerprint>): Payload {
    Payload(a.schema, a.name, [], task.produce(Pairs(fps), a), false)
  }

  const EMPTY := Database(map[], 0, map[])

  /** A database with one table, and one where it has been published. */
  function Prepared1(c: Config, p: Payload): Database {
    var s := SwapOf(c, p);
    Database(map[s.staging := StagedRelation(c, p, s, 0)], 1, map[])
  }

  function Published1(c: Config, p: Payload, state: State): Database {
    var s := SwapOf(c, p);
    Database(map[s.target := StagedRelation(c, p, s, 0).(comment := PublishedBy(c.Run(), s))], 1, state)
  }

  lemma PublishedAlone(c: Config, p: Payload, step: Step, state: State)
    requires c.Valid() && OwnedTokens(p.table).None? && RunSteps([step], map[]) == Ok(state)
    ensures Makes(c, Stage(p, SwapOf(c, p)), EMPTY, Prepared1(c, p))
    ensures Makes(
      c, Publish([SwapOf(c, p)], Plan(c.Run(), {}, map[]), [step]), Prepared1(c, p), Published1(c, p, state))
  {
    var s, plan := SwapOf(c, p), Plan(c.Run(), {}, map[]);
    var before, after := Prepared1(c, p), Published1(c, p, state);
    StagingNameShape(c, p.table);
    assert SwapSet([s]) == {s};
    assert Partly(before, after, {s}, plan) by {
      forall k | Untouched(k, {s})
        ensures Same(before.tables, after.tables, k)
      {
        assert s in {s};
      }
    }
  }

  const ONE_SOURCE := [Fingerprint("source", "1", "", None, false)]

  function OnlyStep(task: Task): Step {
    StoreStep(task.name, ONE_SOURCE, task.storeSnapshot)
  }

  lemma OnlyStepStores(task: Task)
    ensures RunSteps([OnlyStep(task)], map[]) == Ok(StoredOnly(task))
  {
    OneStep(OnlyStep(task));
    WritesAll(map[], task.name, ONE_SOURCE, task.storeSnapshot);
  }

  function PublishOnly(task: Task, c: Config, a: Key): Change {
    var step := OnlyStep(task);
    Publish([SwapOf(c, OnlyOutput(task, a, ONE_SOURCE))], Plan(c.Run(), {}, map[]), [step])
  }

  function StoredOnly(task: Task): State {
    Upserted(map[], task.name, ONE_SOURCE, task.storeSnapshot)
  }

  lemma OnlyOnePublished(task: Task, c: Config, a: Key)
    requires task.Valid() && c.Valid() && a in task.targets
    ensures var p, change := OnlyOutput(task, a, ONE_SOURCE), PublishOnly(task, c, a);
      && PublishesOwn(task, Prepared1(c, p), change, ONE_SOURCE) && Targets(change.pending) == {a}
      && Makes(c, change, Prepared1(c, p), Published1(c, p, StoredOnly(task)))
  {
    var p := OnlyOutput(task, a, ONE_SOURCE);
    OnlyStepStores(task);
    PublishedAlone(c, p, OnlyStep(task), StoredOnly(task));
    assert SwapOf(c, p).target == a;
  }

  lemma StoredUnchanged(task: Task)
    ensures Unchanged(StoredOnly(task), task.name, ONE_SOURCE) && Consistent(ONE_SOURCE)
  {
    UpsertRemembers(map[], task.name, ONE_SOURCE, task.storeSnapshot);
    UnchangedIff(StoredOnly(task), task.name, ONE_SOURCE);
  }

  const FIRST := Moment(EMPTY, None, map[])

  function StagedOnly(task: Task, c: Config, a: Key): Moment {
    Moment(Prepared1(c, OnlyOutput(task, a, ONE_SOURCE)), None, map[])
  }

  function PublishedOnly(task: Task, c: Config, a: Key): Moment {
    Moment(
      Published1(c, OnlyOutput(task, a, ONE_SOURCE), StoredOnly(task)),
      Some(Commit(ONE_SOURCE, {a})),
      Remember(map[], {a}, ONE_SOURCE))
  }

  function StageOnly(task: Task, c: Config, a: Key): Event {
    var p := OnlyOutput(task, a, ONE_SOURCE);
    Changes(c, Stage(p, SwapOf(c, p)), ONE_SOURCE)
  }

  lemma StageOnlyNext(task: Task, c: Config, a: Key)
    requires task.Valid() && c.Valid() && a in task.targets
    ensures Next(task, FIRST, StageOnly(task, c, a), StagedOnly(task, c, a))
  {
    OnlyStepStores(task);
    PublishedAlone(c, OnlyOutput(task, a, ONE_SOURCE), OnlyStep(task), StoredOnly(task));
  }

  lemma PublishOnlyNext(task: Task, c: Config, a: Key)
    requires task.Valid() && c.Valid() && a in task.targets && c.task == task.name
    ensures Next(
      task, StagedOnly(task, c, a), Changes(c, PublishOnly(task, c, a), ONE_SOURCE), PublishedOnly(task, c, a))
  {
    OnlyOnePublished(task, c, a);
  }

  lemma SkipNext(task: Task, c: Config, a: Key, requested: set<Key>)
    requires requested <= task.targets
    ensures var m := PublishedOnly(task, c, a); Next(task, m, Skips(ONE_SOURCE, requested), m)
  {
    StoredUnchanged(task);
  }

  lemma ThreeEvents(task: Task, m0: Moment, e0: Event, m1: Moment, e1: Event, m2: Moment, e2: Event)
    requires Past(task, [m0], [])
    requires Next(task, m0, e0, m1) && Next(task, m1, e1, m2) && Next(task, m2, e2, m2)
    ensures Past(task, [m0, m1, m2, m2], [e0, e1, e2])
  {
    OneMoreEvent(task, [m0], [], e0, m1);
    assert [m0] + [m1] == [m0, m1] && [] + [e0] == [e0];
    OneMoreEvent(task, [m0, m1], [e0], e1, m2);
    assert [m0, m1] + [m2] == [m0, m1, m2] && [e0] + [e1] == [e0, e1];
    OneMoreEvent(task, [m0, m1, m2], [e0, e1], e2, m2);
    assert [m0, m1, m2] + [m2] == [m0, m1, m2, m2] && [e0, e1] + [e2] == [e0, e1, e2];
  }

  lemma NothingYet(task: Task)
    requires task.Valid()
    ensures Past(task, [FIRST], [])
  {
  }

  /** One run publishes only a; with its sources unchanged, the next run, asked
      for a and b, is skipped, and b was never published. */
  lemma PartialRunMissed(task: Task, c: Config, a: Key, b: Key)
    requires task.Valid() && c.Valid() && c.task == task.name
    requires a in task.targets && b in task.targets && a != b
    ensures var m := PublishedOnly(task, c, a);
      && Past(task,
           [FIRST, StagedOnly(task, c, a), m, m],
           [StageOnly(task, c, a), Changes(c, PublishOnly(task, c, a), ONE_SOURCE), Skips(ONE_SOURCE, {a, b})])
      && m.last == Some(Commit(ONE_SOURCE, {a})) && b !in m.db.tables && !SkipRight(task, m.db, ONE_SOURCE, {a, b})
  {
    StageOnlyNext(task, c, a);
    PublishOnlyNext(task, c, a);
    SkipNext(task, c, a, {a, b});
    var m := PublishedOnly(task, c, a);
    NothingYet(task);
    ThreeEvents(task, FIRST, StageOnly(task, c, a), StagedOnly(task, c, a),
      Changes(c, PublishOnly(task, c, a), ONE_SOURCE), m, Skips(ONE_SOURCE, {a, b}));
    NothingElse(task, c, a, b);
  }

  lemma NothingElse(task: Task, c: Config, a: Key, b: Key)
    requires a != b
    ensures var m := PublishedOnly(task, c, a); b !in m.db.tables && !SkipRight(task, m.db, ONE_SOURCE, {a, b})
  {
    assert b in {a, b};
  }

  // half a publication

  /** Two outputs, a first in publication order. */
  function TwoOutputs(task: Task, a: Key, b: Key): seq<Payload> {
    [OnlyOutput(task, a, ONE_SOURCE), OnlyOutput(task, b, ONE_SOURCE)]
  }

  /** The attempt was interrupted between a's statements and b's, its ROLLBACK
      and the rollback's were as well, and the unlocking committed. */
  function HalfLeft(task: Task, c: Config, a: Key, b: Key): Left {
    var payloads := TwoOutputs(task, a, b);
    PartPublish(SwapsOf(c, payloads), PlanFor(c, payloads), [OnlyStep(task)],
      Extent(|WritesOf([OnlyStep(task)])|, {SwapOf(c, payloads[0])}, None))
  }

  function HalfChanges(task: Task, c: Config, a: Key, b: Key): seq<Change> {
    Outputs(c, TwoOutputs(task, a, b)) + [LeftOpen(HalfLeft(task, c, a, b))]
  }

  function StagedBoth(task: Task, c: Config, a: Key, b: Key): Database {
    var p, q := OnlyOutput(task, a, ONE_SOURCE), OnlyOutput(task, b, ONE_SOURCE);
    var s, t := SwapOf(c, p), SwapOf(c, q);
    Database(map[s.staging := StagedRelation(c, p, s, 0), t.staging := StagedRelation(c, q, t, 1)], 2, map[])
  }

  /** a is published, and the fingerprints are stored; b's staging table is still
      there. */
  function HalfDone(task: Task, c: Config, a: Key, b: Key): Database {
    var p, q := OnlyOutput(task, a, ONE_SOURCE), OnlyOutput(task, b, ONE_SOURCE);
    var s, t := SwapOf(c, p), SwapOf(c, q);
    Database(
      map[
        a := StagedRelation(c, p, s, 0).(comment := PublishedBy(c.Run(), s)),
        t.staging := StagedRelation(c, q, t, 1)],
      2, StoredOnly(task))
  }

  function HalfTrail(task: Task, c: Config, a: Key, b: Key): Trail {
    Trail(HalfChanges(task, c, a, b),
      [EMPTY, EMPTY, Prepared1(c, OnlyOutput(task, a, ONE_SOURCE)), StagedBoth(task, c, a, b), HalfDone(task, c, a, b)])
  }

  predicate TwoTargets(task: Task, c: Config, a: Key, b: Key) {
    && c.task == task.name && a in task.targets && b in task.targets && KeyLt(a, b)
    && a.schema == c.schema && b.schema == c.schema && c.StagingKey(a.name) != c.StagingKey(b.name)
  }

  lemma TwoOutputsPlan(task: Task, c: Config, a: Key, b: Key)
    ensures var plan := PlanFor(c, TwoOutputs(task, a, b)); plan.run == c.Run() && plan.refills == {}
  {
    var payloads := TwoOutputs(task, a, b);
    assert payloads[..1] == [payloads[0]] && payloads[..1][..0] == [];
    assert PlanFor(c, []) == Plan(c.Run(), {}, map[]);
    assert PlanFor(c, payloads[..1]).refills == {} && PlanFor(c, payloads[..1]).run == c.Run();
  }

  lemma HalfPartly(task: Task, c: Config, a: Key, b: Key, plan: Plan)
    requires task.Valid() && c.Valid() && TwoTargets(task, c, a, b) && plan.run == c.Run() && plan.refills == {}
    ensures Partly(StagedBoth(task, c, a, b), HalfDone(task, c, a, b),
      {SwapOf(c, OnlyOutput(task, a, ONE_SOURCE))}, plan)
  {
    var before, after := StagedBoth(task, c, a, b), HalfDone(task, c, a, b);
    var s := SwapOf(c, OnlyOutput(task, a, ONE_SOURCE));
    StagingNameShape(c, a.name);
    StagingNameShape(c, b.name);
    forall k | Untouched(k, {s})
      ensures Same(before.tables, after.tables, k)
    {
      assert s in {s};
    }
  }

  lemma HalfOwn(task: Task, c: Config, a: Key, b: Key)
    requires task.Valid() && c.Valid() && TwoTargets(task, c, a, b)
    ensures OwnSwaps(c, HalfLeft(task, c, a, b).pending)
  {
    var payloads := TwoOutputs(task, a, b);
    assert forall p | p in payloads :: p == payloads[0] || p == payloads[1];
    NamesOwn(c, payloads);
  }

  lemma HalfWritten(task: Task)
    ensures var writes := WritesOf([OnlyStep(task)]);
      writes[..|writes|] == writes && RunWrites(writes, map[]) == Ok(StoredOnly(task))
  {
    OnlyStepStores(task);
  }

  lemma HalfAttempted(task: Task, c: Config, a: Key, b: Key)
    requires task.Valid() && c.Valid() && TwoTargets(task, c, a, b)
    ensures Leaves(c, HalfLeft(task, c, a, b), StagedBoth(task, c, a, b), HalfDone(task, c, a, b))
  {
    var left := HalfLeft(task, c, a, b);
    TwoOutputsPlan(task, c, a, b);
    HalfWritten(task);
    HalfPartly(task, c, a, b, left.plan);
    HalfOwn(task, c, a, b);
    assert left.pending[0] in left.pending;
    assert Begun(left.extent) == {left.pending[0]};
  }

  lemma StagedMakes(task: Task, c: Config, a: Key, b: Key)
    requires c.Valid() && TwoTargets(task, c, a, b)
    ensures var p, q := OnlyOutput(task, a, ONE_SOURCE), OnlyOutput(task, b, ONE_SOURCE);
      && Makes(c, Clean, EMPTY, EMPTY)
      && Makes(c, Stage(p, SwapOf(c, p)), EMPTY, Prepared1(c, p))
      && Makes(c, Stage(q, SwapOf(c, q)), Prepared1(c, p), StagedBoth(task, c, a, b))
  {
    var p, q := OnlyOutput(task, a, ONE_SOURCE), OnlyOutput(task, b, ONE_SOURCE);
    assert StagedBoth(task, c, a, b).tables
        == Prepared1(c, p).tables[SwapOf(c, q).staging := StagedRelation(c, q, SwapOf(c, q), 1)];
  }

  /** That is a trail of a run that gave up with its ROLLBACK interrupted. */
  lemma HalfRuns(task: Task, c: Config, a: Key, b: Key)
    requires task.Valid() && c.Valid() && TwoTargets(task, c, a, b)
    ensures Runs(c, HalfTrail(task, c, a, b))
  {
    var t := HalfTrail(task, c, a, b);
    forall i | 0 <= i < |t.changes|
      ensures Makes(c, t.changes[i], t.dbs[i], t.dbs[i + 1])
    {
      HalfRunsAt(task, c, a, b, i);
    }
  }

  lemma HalfRunsAt(task: Task, c: Config, a: Key, b: Key, i: nat)
    requires task.Valid() && c.Valid() && TwoTargets(task, c, a, b) && i < 4
    ensures var t := HalfTrail(task, c, a, b); Makes(c, t.changes[i], t.dbs[i], t.dbs[i + 1])
  {
    if i == 3 {
      HalfAttempted(task, c, a, b);
    } else {
      StagedMakes(task, c, a, b);
    }
  }

  lemma HalfGivenUp(task: Task, c: Config, a: Key, b: Key)
    ensures GivenUp(c, HalfChanges(task, c, a, b), TwoOutputs(task, a, b), Some(OnlyStep(task)), S.Interrupted, true)
  {
    var payloads := TwoOutputs(task, a, b);
    assert payloads[..2] == payloads;
    var done := Outputs(c, payloads);
    assert Stopped(c, done, payloads, Some(OnlyStep(task)), S.Interrupted, 2);
    ClosedCut(c, HalfChanges(task, c, a, b), done, payloads, Some(OnlyStep(task)), S.Interrupted, 2,
      HalfLeft(task, c, a, b));
  }

  lemma HalfSupplies(task: Task, c: Config, a: Key, b: Key)
    requires TwoTargets(task, c, a, b)
    ensures Supplies(task, c, TwoOutputs(task, a, b), Some(OnlyStep(task)), ONE_SOURCE)
  {
    var payloads := TwoOutputs(task, a, b);
    forall p | p in payloads
      ensures p == payloads[0] || p == payloads[1]
    {
    }
    assert Key(a.schema, a.name) == a && Key(b.schema, b.name) == b;
  }

  lemma HalfEnded(task: Task, c: Config, a: Key, b: Key)
    ensures Ended(c, HalfChanges(task, c, a, b), TwoOutputs(task, a, b), Some(OnlyStep(task)))
  {
    HalfGivenUp(task, c, a, b);
  }

  lemma FirstRun(task: Task, c: Config, t: Trail, payloads: seq<Payload>, step: Option<Step>,
      fps: seq<Fingerprint>) returns (moments: seq<Moment>)
    requires task.Valid() && c.Valid() && Runs(c, t) && t.dbs[0] == EMPTY
    requires Ended(c, t.changes, payloads, step) && Supplies(task, c, payloads, step, fps)
    ensures Past(task, moments, Events(c, t.changes, fps))
    ensures forall i | 0 <= i <= |t.changes| :: moments[i].db == t.dbs[i]
  {
    NothingYet(task);
    moments := RunContinues(task, [FIRST], [], c, t, payloads, step, fps);
    assert [] + Events(c, t.changes, fps) == Events(c, t.changes, fps);
    forall i | 0 <= i <= |t.changes|
      ensures moments[i].db == t.dbs[i]
    {
      assert moments[0 + i].db == t.dbs[i];
    }
  }

  lemma HalfContinues(task: Task, c: Config, a: Key, b: Key) returns (moments: seq<Moment>)
    requires task.Valid() && c.Valid() && TwoTargets(task, c, a, b)
    ensures Past(task, moments, Events(c, HalfChanges(task, c, a, b), ONE_SOURCE))
    ensures moments[3].db == StagedBoth(task, c, a, b) && moments[4].db == HalfDone(task, c, a, b)
  {
    var t := HalfTrail(task, c, a, b);
    HalfRuns(task, c, a, b);
    HalfEnded(task, c, a, b);
    HalfSupplies(task, c, a, b);
    moments := FirstRun(task, c, t, TwoOutputs(task, a, b), Some(OnlyStep(task)), ONE_SOURCE);
    assert moments[3].db == t.dbs[3] && moments[4].db == t.dbs[4];
  }

  lemma HalfSkipped(task: Task, c: Config, a: Key, b: Key, m: Moment)
    requires c.Valid() && task.Valid() && TwoTargets(task, c, a, b) && m.db == HalfDone(task, c, a, b)
    ensures Next(task, m, Skips(ONE_SOURCE, {a, b}), m)
    ensures a in m.db.tables && m.db.tables[a].rows == task.produce(Pairs(ONE_SOURCE), a) && b !in m.db.tables
    ensures !SkipRight(task, m.db, ONE_SOURCE, {a, b})
  {
    StoredUnchanged(task);
    StagingNameShape(c, b.name);
    assert OwnedTokens(b.name).None?;
    assert Key(a.schema, a.name) == a && b in {a, b};
  }

  lemma HalfHarmful(task: Task, c: Config, a: Key, b: Key, m: Moment)
    requires task.Valid() && c.Valid() && TwoTargets(task, c, a, b) && m.db == StagedBoth(task, c, a, b)
    ensures !Harmless(task, m, Changes(c, LeftOpen(HalfLeft(task, c, a, b)), ONE_SOURCE))
  {
    var left := HalfLeft(task, c, a, b);
    HalfOnly(task, c, a, b);
    NotThere(task, c, a, b);
    var s :| s in left.extent.done;
    assert s.target == a;
  }

  lemma NotThere(task: Task, c: Config, a: Key, b: Key)
    requires task.Valid() && c.Valid() && TwoTargets(task, c, a, b)
    ensures a !in StagedBoth(task, c, a, b).tables
  {
    StagingNameShape(c, a.name);
    StagingNameShape(c, b.name);
  }

  lemma HalfOnly(task: Task, c: Config, a: Key, b: Key)
    requires TwoTargets(task, c, a, b)
    ensures !Whole(LeftOpen(HalfLeft(task, c, a, b)))
  {
    var left := HalfLeft(task, c, a, b);
    var t := left.pending[1];
    assert t in SwapSet(left.pending) && t !in left.extent.done;
  }

  lemma HalfUnfaithful(task: Task, c: Config, a: Key, b: Key, moments: seq<Moment>, events: seq<Event>)
    requires task.Valid() && c.Valid() && TwoTargets(task, c, a, b) && Past(task, moments, events)
    requires events == Events(c, HalfChanges(task, c, a, b), ONE_SOURCE)
    requires moments[3].db == StagedBoth(task, c, a, b)
    ensures !Faithful(task, moments[0].db, moments[4])
  {
    forall j | 0 <= j < 3
      ensures Harmless(task, moments[j], events[j])
    {
      assert PublicationOf(HalfChanges(task, c, a, b)[j]).None?;
    }
    AlwaysFaithful(task, moments, events, 3);
    assert Next(task, moments[3], events[3], moments[4]);
    HalfHarmful(task, c, a, b, moments[3]);
    NextFaithful(task, moments[0].db, moments[3], events[3], moments[4]);
  }

  /** Such a run breaks the history: other sessions see a published and b not,
      the fingerprints are stored, and the next run, its sources unchanged, is
      skipped with b never published. */
  lemma HalfPublished(task: Task, c: Config, a: Key, b: Key) returns (moments: seq<Moment>, events: seq<Event>)
    requires task.Valid() && c.Valid() && TwoTargets(task, c, a, b)
    ensures Past(task, moments, events)
    ensures events == Events(c, HalfChanges(task, c, a, b), ONE_SOURCE) + [Skips(ONE_SOURCE, {a, b})]
    ensures !Faithful(task, moments[0].db, moments[4])
    ensures var db := moments[4].db;
      && a in db.tables && db.tables[a].rows == task.produce(Pairs(ONE_SOURCE), a) && b !in db.tables
      && !SkipRight(task, db, ONE_SOURCE, {a, b})
  {
    moments := HalfContinues(task, c, a, b);
    events := Events(c, HalfChanges(task, c, a, b), ONE_SOURCE);
    HalfUnfaithful(task, c, a, b, moments, events);
    var last := moments[4];
    HalfSkipped(task, c, a, b, last);
    OneMoreEvent(task, moments, events, Skips(ONE_SOURCE, {a, b}), last);
    moments, events := moments + [last], events + [Skips(ONE_SOURCE, {a, b})];
  }

  /** The case the comparison cannot see: one key fingerprinted as 1 and as 2,
      then only as 2, is judged unchanged after the commit. */
  lemma DuplicateKeyHidesChange(task: string, key: string, details: string, state: State)
    ensures var one := Fingerprint(key, "1", details, None, false);
      var two := Fingerprint(key, "2", details, None, false);
      && Unchanged(Upserted(state, task, [one, two], false), task, [two])
      && Pairs([one, two]) != Pairs([two])
  {
    var one := Fingerprint(key, "1", details, None, false);
    var two := Fingerprint(key, "2", details, None, false);
    UpsertRemembers(state, task, [one, two], false);
    assert [one, two][..1] == [one] && [one][..0] == [] && [two][..0] == [];
    assert Signatures([]) == map[];
    assert Signatures([one]) == map[key := "1"];
    assert Signatures([two]) == map[key := "2"];
    assert Signatures([one, two]) == map[key := "2"];
    UnchangedIff(Upserted(state, task, [one, two], false), task, [two]);
    assert one in [one, two];
    assert (key, "1") in Pairs([one, two]);
    assert Pairs([two]) == {(key, "2")};
  }
}
