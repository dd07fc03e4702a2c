/** Any number of runs of any tasks, interleaved statement by statement, with
    lost sessions and crashes at every step.  Advisory locks are those of
    section 13.3.5 of the PostgreSQL documentation: held by a session, released
    when it ends (task_core/db/publish.py, 343-494, 527-610, 1719-1887). */
module Protocol {
  import opened Values
  import opened Catalog
  import opened Identifiers
  import opened Publication
  import opened Publisher

  type LockKey = (int, int)

  /** The lock key a task name hashes to; two tasks may share one. */
  datatype Env = Env(lockKey: string -> LockKey, digest: Digest)

  /** A run that has not claimed its task, one that believes it holds it, one
      that is dropping what it prepared, and one that issues nothing more. */
  datatype Status = Waiting | Owning | RollingBack | Over

  /** A run's connection.  Up: the server has the session it was opened with.
      Gone: the server has ended it, and the client does not know.  Invalidated:
      a statement has met the loss, and the driver will reconnect for the next.
      Replaced: it has. */
  datatype Link = Up | Gone | Invalidated | Replaced

  /** What a session's open transaction will do to the committed tables. */
  datatype Tx =
    | Cleaning(scan: map<Key, Relation>, dropped: set<Key>)
    | Staging(swap: Swap, relation: Relation)
    | Publishing(removed: set<Key>, targets: map<Key, Relation>)

  /** `lost`: the publisher has noticed the loss, and records it for good. */
  datatype RunState = RunState(
    config: Config,
    status: Status,
    link: Link,
    lost: bool,
    tx: Option<Tx>,
    generated: set<Key>,
    pending: set<Swap>)

  /** History: which run committed a staging table under a name, and the table. */
  datatype Origin = Origin(run: string, relation: Relation)

  datatype World = World(
    env: Env,
    tables: map<Key, Relation>,
    runs: map<string, RunState>,
    locks: map<LockKey, string>,
    origin: map<Key, Origin>)

  /** What happens to a run.  A rollback issues a ROLLBACK when the client has a
      transaction open; a close may commit one, with its unlocking. */
  datatype Event = TryLock | Rollback(open: bool) | Close(commits: bool) | Lose | Notice | Crash

  /** What a run's session executes inside a transaction. */
  datatype Statement =
    | Scan
    | Drop(key: Key)
    | Stage(swap: Swap, relation: Relation)
    | BeginPublish
    | Move(swap: Swap, live: Relation)
    | Abort

  datatype Step =
    | Start(token: string, config: Config)
    | Session(token: string, event: Event)
    | Execute(token: string, statement: Statement)
    | Commit(token: string, acknowledged: bool)
    | DropOwn(token: string, own: Key)
    | External(key: Key, becomes: Option<Relation>)

  /** The run a table name's staging suffix names, if it has one. */
  function TokenOf(k: Key): Option<string> {
    match OwnedTokens(k.name)
    case None => None
    case Some((_, run)) => Some(run)
  }

  /** The server's session of this run holds its task's lock. */
  predicate Holding(r: RunState) {
    r.link == Up && (r.status == Owning || r.status == RollingBack)
  }

  ghost predicate Live(w: World, t: string) {
    t in w.runs && Holding(w.runs[t])
  }

  // -- the driver ---------------------------------------------------------------------

  /** The connection after any statement: one on a session that is gone fails
      and invalidates it; one on an invalidated connection is preceded by a
      reconnection. */
  function Reached(link: Link): Link {
    match link
    case Up => Up
    case Gone => Invalidated
    case Invalidated => Replaced
    case Replaced => Replaced
  }

  /** The publisher's own check, ensure_connection(): it refuses a connection it
      knows to be lost, or finds invalidated.  Every method but rollback() makes
      it before its first statement, and a failed statement ends the method. */
  predicate Checked(r: RunState) {
    !r.lost && r.link != Invalidated
  }

  function KeyOf(w: World, t: string): LockKey
    requires t in w.runs
  {
    w.env.lockKey(w.runs[t].config.task)
  }

  function Unlock(locks: map<LockKey, string>, t: string): map<LockKey, string> {
    map k | k in locks && locks[k] != t :: locks[k]
  }

  // -- the steps ---------------------------------------------------------------------

  ghost predicate CanStart(w: World, t: string, c: Config) {
    && t !in w.runs && c.Valid() && c.token == t && c.digest == w.env.digest && c.lockKey == w.env.lockKey(c.task)
    && forall k | k in w.tables :: TokenOf(k) != Some(t)
  }

  /** The lock is tried once, behind the check; a rollback follows the claim, or
      the failure to claim. */
  ghost predicate CanHappen(w: World, t: string, e: Event)
    requires t in w.runs
  {
    var r := w.runs[t];
    match e
    case TryLock => r.status == Waiting && Checked(r)
    case Rollback(open) =>
      (r.status == Waiting || r.status == Owning) && (r.link == Up ==> (open <==> r.tx.Some?))
    case Close(commits) => r.status != Over && (commits ==> r.link == Up && r.tx.Some?)
    case Lose => r.link == Up || r.link == Replaced
    case Notice => r.status != Over && r.link == Invalidated
    case Crash => r.status != Over
  }

  /** A statement is issued by an owner, behind the check; whether the server
      still has the session is not for the client to know.  What the statement
      needs of the transaction it needs only where it executes. */
  ghost predicate CanExecute(w: World, t: string, s: Statement) {
    && t in w.runs && w.runs[t].status == Owning && Checked(w.runs[t])
    && (w.runs[t].link != Gone ==> Fits(w, t, s))
  }

  ghost predicate Fits(w: World, t: string, s: Statement)
    requires t in w.runs
  {
    var r := w.runs[t];
    match s
    case Scan => r.tx == None
    case Drop(k) =>
      && r.tx.Some? && r.tx.value.Cleaning?
      && k in r.tx.value.scan && Abandoned(r.config, k, r.tx.value.scan[k])
    case Stage(swap, relation) =>
      && r.tx == None && swap.staging !in w.origin && swap.staging !in w.tables
      && StagesFor(r.config, swap, relation)
    case BeginPublish => r.tx == None
    case Move(swap, live) =>
      && r.tx.Some? && r.tx.value.Publishing?
      && swap in r.pending && live.comment == PublishedBy(r.config.Run(), swap)
    case Abort => true
  }

  ghost predicate CanCommit(w: World, t: string) {
    && t in w.runs && w.runs[t].status == Owning && Checked(w.runs[t])
    && (w.runs[t].link != Gone ==> w.runs[t].tx.Some? && Committable(w.runs[t]))
  }

  /** A rollback drops its own staging tables one by one; nothing is checked
      again after its ROLLBACK. */
  ghost predicate CanDropOwn(w: World, t: string, k: Key) {
    t in w.runs && w.runs[t].status == RollingBack && k in w.runs[t].generated
  }

  /** Strangers stay away from names of known runs and write no staging comment. */
  ghost predicate CanChange(w: World, k: Key, r: Option<Relation>) {
    && (TokenOf(k).Some? ==> TokenOf(k).value !in w.runs)
    && (r.Some? ==> !NamesOwner(r.value.comment))
  }

  ghost predicate Enabled(w: World, step: Step) {
    match step
    case Start(t, c) => CanStart(w, t, c)
    case Session(t, e) => t in w.runs && CanHappen(w, t, e)
    case Execute(t, s) => CanExecute(w, t, s)
    case Commit(t, _) => CanCommit(w, t)
    case DropOwn(t, k) => CanDropOwn(w, t, k)
    case External(k, r) => CanChange(w, k, r)
  }

  /** A staging table as this run's publish() makes it, for an ordinary target. */
  ghost predicate StagesFor(c: Config, s: Swap, r: Relation) {
    && s.target.schema == c.schema && s.target.name != "" && OwnedTokens(s.target.name).None?
    && s.staging == c.StagingKey(s.target.name)
    && r.comment == StagingComment(OwnerOf(c.Run(), s))
  }

  /** A publication commits only with every pending target moved. */
  ghost predicate Committable(r: RunState)
    requires r.tx.Some?
  {
    r.tx.value.Publishing? ==> forall s | s in r.pending :: s.staging in r.tx.value.removed
  }

  function TablesAfter(tables: map<Key, Relation>, tx: Tx): map<Key, Relation> {
    match tx
    case Cleaning(_, dropped) => tables - dropped
    case Staging(s, r) => tables[s.staging := r]
    case Publishing(removed, targets) => (tables - removed) + targets
  }

  function RunAfter(r: RunState, tx: Tx): RunState {
    match tx
    case Cleaning(_, _) => r.(tx := None)
    case Staging(s, _) => r.(tx := None, generated := r.generated + {s.staging}, pending := r.pending + {s})
    case Publishing(_, _) => r.(tx := None, pending := {})
  }

  function OriginAfter(origin: map<Key, Origin>, t: string, tx: Tx): map<Key, Origin> {
    if tx.Staging? then origin[tx.swap.staging := Origin(t, tx.relation)] else origin
  }

  function WithRun(w: World, t: string, r: RunState): World {
    w.(runs := w.runs[t := r])
  }

  /** The session is gone: its transaction and its locks with it. */
  function Ended(w: World, t: string, status: Status): World
    requires t in w.runs
  {
    w.(runs := w.runs[t := w.runs[t].(status := status, link := Gone, tx := None)],
       locks := Unlock(w.locks, t))
  }

  /** A statement that met the loss of its session. */
  function MetLoss(w: World, t: string): World
    requires t in w.runs
  {
    WithRun(w, t, w.runs[t].(link := Invalidated, tx := None))
  }

  function Claimed(w: World, t: string): World
    requires t in w.runs
  {
    WithRun(w, t, w.runs[t].(status := Owning)).(locks := w.locks[KeyOf(w, t) := t])
  }

  function Committed(w: World, t: string): World
    requires t in w.runs && w.runs[t].tx.Some?
  {
    var tx := w.runs[t].tx.value;
    w.(tables := TablesAfter(w.tables, tx), runs := w.runs[t := RunAfter(w.runs[t], tx)],
       origin := OriginAfter(w.origin, t, tx))
  }

  /** One of a run's own staging tables dropped, by whatever session the driver
      has for it now; a failed drop ends the rollback. */
  function Dropped(w: World, t: string, k: Key): World
    requires t in w.runs
  {
    if w.runs[t].link == Gone then WithRun(w, t, DropFailed(w.runs[t])) else DropDone(w, t, k)
  }

  function DropFailed(r: RunState): RunState { r.(link := Invalidated, status := Over) }

  function DropDone(w: World, t: string, k: Key): World
    requires t in w.runs
  {
    WithRun(w, t, w.runs[t].(link := Reached(w.runs[t].link))).(tables := w.tables - {k})
  }

  /** A rollback begins: with no statement on a connection known to be lost;
      otherwise the open transaction is rolled back, and the queue forgotten.  A
      run that never claimed its task has nothing to drop. */
  function RolledBack(r: RunState, open: bool): RunState {
    if !Checked(r) then r.(lost := true, status := Over, tx := None, pending := {})
    else if r.status == Waiting then r.(status := Over, tx := None)
    else
      r.(status := RollingBack, tx := None, pending := {}, link := if open then Reached(r.link) else r.link)
  }

  function Changed(w: World, k: Key, r: Option<Relation>): World {
    w.(tables := if r.Some? then w.tables[k := r.value] else w.tables - {k})
  }

  function Started(w: World, t: string, c: Config): World {
    WithRun(w, t, RunState(c, Waiting, Up, false, None, {}, {}))
  }

  function Happened(w: World, t: string, e: Event): World
    requires t in w.runs
  {
    var r := w.runs[t];
    match e
    case TryLock =>
      if r.link == Gone then MetLoss(w, t)
      else if KeyOf(w, t) in w.locks then Ended(w, t, Over)
      else Claimed(w, t)
    case Rollback(open) => WithRun(w, t, RolledBack(r, open))
    case Close(commits) => if commits && r.tx.Some? then Ended(Committed(w, t), t, Over) else Ended(w, t, Over)
    case Lose => Ended(w, t, r.status)
    case Notice => WithRun(w, t, r.(lost := true))
    case Crash => Ended(w, t, Over)
  }

  /** The transaction after a statement. */
  function TxAfter(w: World, t: string, s: Statement): Option<Tx>
    requires t in w.runs && Fits(w, t, s)
  {
    var tx := w.runs[t].tx;
    match s
    case Scan => Some(Cleaning(w.tables, {}))
    case Drop(k) => Some(tx.value.(dropped := tx.value.dropped + {k}))
    case Stage(swap, relation) => Some(Staging(swap, relation))
    case BeginPublish => Some(Publishing({}, map[]))
    case Move(swap, live) =>
      Some(Publishing(tx.value.removed + {swap.staging}, tx.value.targets[swap.target := live]))
    case Abort => None
  }

  function WithTx(w: World, t: string, tx: Option<Tx>): World
    requires t in w.runs
  {
    WithRun(w, t, w.runs[t].(tx := tx))
  }

  function Apply(w: World, step: Step): World
    requires Enabled(w, step)
  {
    match step
    case Start(t, c) => Started(w, t, c)
    case Session(t, e) => Happened(w, t, e)
    case Execute(t, s) => if w.runs[t].link == Gone then MetLoss(w, t) else WithTx(w, t, TxAfter(w, t, s))
    case Commit(t, acknowledged) =>
      if w.runs[t].link == Gone then MetLoss(w, t)
      else if acknowledged then Committed(w, t)
      else Ended(Committed(w, t), t, w.runs[t].status)
    case DropOwn(t, k) => Dropped(w, t, k)
    case External(k, r) => Changed(w, k, r)
  }

  lemma Unnamed(c: Comment)
    ensures !NamesOwner(c) ==> ParseStagingComment(c) == None
  {
    ParsedIffNamed(c, Owner("", "", None, "", ""));
  }

  // -- what every step keeps ------------------------------------------------------------

  /** The server's lock table is exactly the live owners' claims. */
  ghost predicate LocksOk(w: World) {
    && (forall l | l in w.locks :: Live(w, w.locks[l]) && KeyOf(w, w.locks[l]) == l)
    && (forall t | Live(w, t) :: KeyOf(w, t) in w.locks && w.locks[KeyOf(w, t)] == t)
  }

  /** A name in the history names its run, and still holds the table that run
      committed there, or nothing. */
  ghost predicate OriginOk(w: World, k: Key)
    requires k in w.origin
  {
    var o := w.origin[k];
    && o.run in w.runs && TokenOf(k) == Some(o.run)
    && (var owner := ParseStagingComment(o.relation.comment);
        owner.Some? && owner.value.run == o.run && owner.value.task == w.runs[o.run].config.task)
    && (k in w.tables ==> w.tables[k] == o.relation)
  }

  ghost predicate Mine(w: World, t: string, k: Key) {
    k in w.origin && w.origin[k].run == t
  }

  /** k was prepared by another run of t's task, and is what was prepared. */
  ghost predicate Predecessors(w: World, t: string, k: Key, r: Relation)
    requires t in w.runs
  {
    && k in w.origin && w.origin[k].relation == r
    && w.origin[k].run != t && w.origin[k].run in w.runs
    && w.runs[w.origin[k].run].config.task == w.runs[t].config.task
  }

  ghost predicate TxOk(w: World, t: string, tx: Tx)
    requires t in w.runs
  {
    match tx
    case Cleaning(scan, dropped) =>
      && (forall k | k in scan && Abandoned(w.runs[t].config, k, scan[k]) :: Predecessors(w, t, k, scan[k]))
      && (forall k | k in dropped :: k in scan && Abandoned(w.runs[t].config, k, scan[k]))
    case Staging(s, r) => s.staging !in w.origin && StagesFor(w.runs[t].config, s, r)
    case Publishing(removed, targets) =>
      && (forall k | k in removed :: Mine(w, t, k))
      && (forall k | k in targets :: TokenOf(k) == None && ParseStagingComment(targets[k].comment) == None)
  }

  ghost predicate RunOk(w: World, t: string)
    requires t in w.runs
  {
    var r := w.runs[t];
    && r.config.Valid() && r.config.token == t && r.config.digest == w.env.digest
    && r.config.lockKey == w.env.lockKey(r.config.task)
    && (r.status.Waiting? || r.status.RollingBack? ==> r.pending == {})
    && (r.link.Replaced? ==> r.status.RollingBack?) && (r.status.RollingBack? ==> r.tx == None)
    && (r.lost ==> r.link != Up)
    && (r.tx.Some? ==> Live(w, t) && TxOk(w, t, r.tx.value))
    && (forall k | k in r.generated :: Mine(w, t, k))
    && (forall s | s in r.pending :: Mine(w, t, s.staging) && OwnedTokens(s.target.name).None?
          && (Live(w, t) ==> s.staging in w.tables))
  }

  /** The history is right, and every other table is nobody's staging table. */
  ghost predicate TablesOk(w: World) {
    && (forall k | k in w.origin :: OriginOk(w, k))
    && (forall k | k in w.tables && k !in w.origin :: ParseStagingComment(w.tables[k].comment) == None)
  }

  ghost predicate RunsOk(w: World) {
    forall t | t in w.runs :: RunOk(w, t)
  }

  ghost predicate Inv(w: World) {
    w.env.digest.Valid() && LocksOk(w) && TablesOk(w) && RunsOk(w)
  }

  ghost predicate Init(w: World) {
    && w.env.digest.Valid()
    && w.runs == map[] && w.locks == map[] && w.origin == map[]
    && forall k | k in w.tables :: !NamesOwner(w.tables[k].comment)
  }

  /** Two live runs never share a lock key, hence never a task. */
  lemma OneLiveOwner(w: World, a: string, b: string)
    requires LocksOk(w) && Live(w, a) && Live(w, b) && KeyOf(w, a) == KeyOf(w, b)
    ensures a == b
  {
  }

  lemma PredecessorNotLive(w: World, t: string, k: Key, r: Relation)
    requires LocksOk(w) && Live(w, t) && Predecessors(w, t, k, r)
    ensures !Live(w, w.origin[k].run)
  {
    if Live(w, w.origin[k].run) {
      OneLiveOwner(w, t, w.origin[k].run);
    }
  }

  // -- one step at a time ------------------------------------------------------------------

  /** The history only grows, and runs keep their configuration. */
  ghost predicate Extends(w: World, next: World) {
    && next.env == w.env
    && (forall k | k in w.origin :: k in next.origin && next.origin[k] == w.origin[k])
    && (forall t | t in w.runs :: t in next.runs && next.runs[t].config == w.runs[t].config)
  }

  /** Only run t differs, and no table another live run has pending is gone. */
  ghost predicate OnlyRun(w: World, next: World, t: string) {
    && Extends(w, next) && t in next.runs && next.runs == w.runs[t := next.runs[t]]
    && (forall k | k in next.origin && k !in w.origin :: TokenOf(k) == Some(t))
    && (forall k | k in w.origin && w.origin[k].run != t && Live(w, w.origin[k].run) && k in w.tables ::
          k in next.tables)
  }

  lemma OwnToken(c: Config, table: string)
    requires c.Valid()
    ensures TokenOf(c.StagingKey(table)) == Some(c.token)
  {
    StagingNameOwned(c.digest, Some(c.schema), table, c.token, c.maxBytes);
  }

  /** What the record of t says about the history survives. */
  lemma RecordKept(w: World, next: World, t: string)
    requires Extends(w, next) && t in w.runs && RunOk(w, t)
    ensures forall k | k in w.runs[t].generated :: Mine(next, t, k)
    ensures forall s | s in w.runs[t].pending :: Mine(next, t, s.staging) && OwnedTokens(s.target.name).None?
  {
    forall k | k in w.runs[t].generated
      ensures Mine(next, t, k)
    {
      assert Mine(w, t, k);
    }
    forall s | s in w.runs[t].pending
      ensures Mine(next, t, s.staging)
    {
      assert Mine(w, t, s.staging);
    }
  }

  lemma TxKept(w: World, next: World, t: string, tx: Tx)
    requires Extends(w, next) && t in w.runs && w.runs[t].config.Valid() && w.runs[t].config.token == t
    requires TxOk(w, t, tx)
    requires forall k | k in next.origin && k !in w.origin :: TokenOf(k) != Some(t)
    ensures TxOk(next, t, tx)
  {
    match tx {
      case Cleaning(scan, _) =>
        forall k | k in scan && Abandoned(w.runs[t].config, k, scan[k])
          ensures Predecessors(next, t, k, scan[k])
        {
          assert Predecessors(w, t, k, scan[k]);
        }
      case Staging(s, _) => OwnToken(w.runs[t].config, s.target.name);
      case Publishing(removed, _) =>
        forall k | k in removed
          ensures Mine(next, t, k)
        {
          assert Mine(w, t, k);
        }
    }
  }

  /** A run the step does not change stays as it should be. */
  lemma OtherRun(w: World, next: World, t: string)
    requires Extends(w, next) && t in w.runs && RunOk(w, t) && next.runs[t] == w.runs[t]
    requires forall s | s in w.runs[t].pending && Live(w, t) :: s.staging in next.tables
    requires forall k | k in next.origin && k !in w.origin :: TokenOf(k) != Some(t)
    ensures RunOk(next, t)
  {
    if w.runs[t].tx.Some? {
      TxKept(w, next, t, w.runs[t].tx.value);
    }
    RecordKept(w, next, t);
  }

  lemma OthersKept(w: World, next: World, t: string)
    requires OnlyRun(w, next, t) && RunsOk(w)
    ensures forall u | u in next.runs && u != t :: RunOk(next, u)
  {
    forall u | u in next.runs && u != t
      ensures RunOk(next, u)
    {
      assert RunOk(w, u);
      forall s | s in w.runs[u].pending && Live(w, u)
        ensures s.staging in next.tables
      {
        assert Mine(w, u, s.staging);
      }
      OtherRun(w, next, u);
    }
  }

  lemma Assemble(w: World, next: World, t: string)
    requires next.env.digest.Valid() && RunsOk(w) && OnlyRun(w, next, t)
    requires LocksOk(next) && TablesOk(next) && RunOk(next, t)
    ensures Inv(next)
  {
    OthersKept(w, next, t);
  }

  /** Fewer tables, or only strangers changed: the history is still right. */
  lemma TablesKept(w: World, next: World)
    requires TablesOk(w) && Extends(w, next) && next.origin == w.origin
    requires forall k | k in w.origin && k in next.tables :: k in w.tables && next.tables[k] == w.tables[k]
    requires forall k | k in next.tables && k !in w.origin && !(k in w.tables && next.tables[k] == w.tables[k]) ::
      ParseStagingComment(next.tables[k].comment) == None
    ensures TablesOk(next)
  {
    forall k | k in next.origin
      ensures OriginOk(next, k)
    {
      assert OriginOk(w, k);
    }
  }

  // -- locks -----------------------------------------------------------------------------------

  lemma LocksKept(w: World, next: World, t: string)
    requires LocksOk(w) && next.env == w.env && next.locks == w.locks
    requires t in next.runs && next.runs == w.runs[t := next.runs[t]]
    requires t in w.runs ==> next.runs[t].config == w.runs[t].config
    requires Live(w, t) <==> Live(next, t)
    ensures LocksOk(next)
  {
    forall l | l in next.locks
      ensures Live(next, next.locks[l]) && KeyOf(next, next.locks[l]) == l
    {
      assert Live(w, w.locks[l]);
    }
    forall u | Live(next, u)
      ensures KeyOf(next, u) in next.locks && next.locks[KeyOf(next, u)] == u
    {
      assert Live(w, u);
    }
  }

  lemma LocksReleased(w: World, t: string, status: Status)
    requires LocksOk(w) && t in w.runs
    ensures LocksOk(Ended(w, t, status))
  {
    var next := Ended(w, t, status);
    forall l | l in next.locks
      ensures Live(next, next.locks[l]) && KeyOf(next, next.locks[l]) == l
    {
      assert Live(w, w.locks[l]);
    }
    forall u | Live(next, u)
      ensures KeyOf(next, u) in next.locks && next.locks[KeyOf(next, u)] == u
    {
      assert Live(w, u) && w.locks[KeyOf(w, u)] == u && u != t;
    }
  }

  lemma LocksClaimed(w: World, t: string)
    requires LocksOk(w) && t in w.runs && w.runs[t].status == Waiting && w.runs[t].link == Up && KeyOf(w, t) !in w.locks
    ensures LocksOk(Claimed(w, t))
  {
    var next := Claimed(w, t);
    forall l | l in next.locks
      ensures Live(next, next.locks[l]) && KeyOf(next, next.locks[l]) == l
    {
      if l != KeyOf(w, t) {
        assert Live(w, w.locks[l]) && w.locks[l] != t;
      }
    }
    forall u | Live(next, u)
      ensures KeyOf(next, u) in next.locks && next.locks[KeyOf(next, u)] == u
    {
      if u != t {
        assert Live(w, u);
      }
    }
  }

  // -- steps that touch no table ---------------------------------------------------------------

  lemma PrivateStep(w: World, t: string, r: RunState)
    requires Inv(w)
    requires t in w.runs ==> r.config == w.runs[t].config
    requires Live(w, t) <==> Holding(r)
    requires RunOk(WithRun(w, t, r), t)
    ensures Inv(WithRun(w, t, r))
  {
    var next := WithRun(w, t, r);
    TablesKept(w, next);
    LocksKept(w, next, t);
    Assemble(w, next, t);
  }

  lemma EndedRun(w: World, t: string, status: Status)
    requires t in w.runs && RunOk(w, t) && (status == Over || status == w.runs[t].status)
    ensures RunOk(Ended(w, t, status), t)
  {
    RecordKept(w, Ended(w, t, status), t);
  }

  /** A session ending takes its claim with it, and nothing else. */
  lemma EndedKeeps(w: World, t: string, status: Status)
    requires Inv(w) && t in w.runs && (status == Over || status == w.runs[t].status)
    ensures Inv(Ended(w, t, status))
  {
    var next := Ended(w, t, status);
    TablesKept(w, next);
    LocksReleased(w, t, status);
    EndedRun(w, t, status);
    Assemble(w, next, t);
  }

  lemma ClaimedRun(w: World, t: string)
    requires t in w.runs && RunOk(w, t) && w.runs[t].status == Waiting && w.runs[t].link == Up
    ensures RunOk(Claimed(w, t), t)
  {
    RecordKept(w, Claimed(w, t), t);
  }

  lemma ClaimKeeps(w: World, t: string)
    requires Inv(w) && t in w.runs && w.runs[t].status == Waiting && w.runs[t].link == Up && KeyOf(w, t) !in w.locks
    ensures Inv(Claimed(w, t))
  {
    var next := Claimed(w, t);
    TablesKept(w, next);
    LocksClaimed(w, t);
    ClaimedRun(w, t);
    Assemble(w, next, t);
  }

  // -- commits ---------------------------------------------------------------------------------

  /** The transaction of a live run that may commit. */
  ghost predicate Committing(w: World, t: string) {
    Live(w, t) && w.runs[t].tx.Some? && RunOk(w, t)
  }

  /** A transaction removes only its own run's staging tables, while publishing,
      or those of predecessors; whatever else it writes has an ordinary name. */
  lemma CommitTouches(w: World, t: string, k: Key)
    requires LocksOk(w) && Committing(w, t) && k in w.origin && OriginOk(w, k)
    ensures var after := TablesAfter(w.tables, w.runs[t].tx.value);
      && (k in after ==> k in w.tables && after[k] == w.tables[k])
      && (k in w.tables && k !in after ==>
            (Mine(w, t, k) && w.runs[t].tx.value.Publishing?) || !Live(w, w.origin[k].run))
  {
    var tx := w.runs[t].tx.value;
    assert TxOk(w, t, tx);
    match tx {
      case Cleaning(scan, dropped) =>
        if k in dropped {
          PredecessorNotLive(w, t, k, scan[k]);
        }
      case Staging(_, _) =>
      case Publishing(removed, _) =>
        if k in removed {
          assert Mine(w, t, k);
        }
    }
  }

  lemma CommitOldOrigin(w: World, t: string, k: Key)
    requires LocksOk(w) && Committing(w, t) && k in w.origin && OriginOk(w, k)
    ensures k in Committed(w, t).origin && OriginOk(Committed(w, t), k)
  {
    assert TxOk(w, t, w.runs[t].tx.value);
    CommitTouches(w, t, k);
  }

  lemma CommitNewOrigin(w: World, t: string)
    requires Committing(w, t) && w.runs[t].tx.value.Staging?
    ensures var k := w.runs[t].tx.value.swap.staging;
      && TokenOf(k) == Some(t) && k !in w.origin
      && k in Committed(w, t).origin && OriginOk(Committed(w, t), k)
  {
    var tx := w.runs[t].tx.value;
    assert TxOk(w, t, tx);
    OwnToken(w.runs[t].config, tx.swap.target.name);
    StagingCommentRead(OwnerOf(w.runs[t].config.Run(), tx.swap));
  }

  lemma CommitStranger(w: World, t: string, k: Key)
    requires TablesOk(w) && Committing(w, t)
    requires k in Committed(w, t).tables && k !in Committed(w, t).origin
    ensures ParseStagingComment(Committed(w, t).tables[k].comment) == None
  {
    assert TxOk(w, t, w.runs[t].tx.value);
  }

  lemma CommitTables(w: World, t: string)
    requires LocksOk(w) && TablesOk(w) && Committing(w, t)
    ensures TablesOk(Committed(w, t))
  {
    var next := Committed(w, t);
    forall k | k in next.origin
      ensures OriginOk(next, k)
    {
      if k in w.origin {
        CommitOldOrigin(w, t, k);
      } else {
        CommitNewOrigin(w, t);
      }
    }
    forall k | k in next.tables && k !in next.origin
      ensures ParseStagingComment(next.tables[k].comment) == None
    {
      CommitStranger(w, t, k);
    }
  }

  lemma CommitExtends(w: World, t: string)
    requires Committing(w, t)
    ensures Extends(w, Committed(w, t))
  {
    assert TxOk(w, t, w.runs[t].tx.value);
  }

  lemma CommitSpares(w: World, t: string, k: Key)
    requires LocksOk(w) && Committing(w, t) && k in w.origin && OriginOk(w, k)
    requires w.origin[k].run != t && Live(w, w.origin[k].run) && k in w.tables
    ensures k in Committed(w, t).tables
  {
    CommitTouches(w, t, k);
  }

  lemma CommitOnlyRun(w: World, t: string)
    requires LocksOk(w) && TablesOk(w) && Committing(w, t)
    ensures OnlyRun(w, Committed(w, t), t)
  {
    var next, tx := Committed(w, t), w.runs[t].tx.value;
    CommitExtends(w, t);
    if tx.Staging? {
      CommitNewOrigin(w, t);
    }
    forall k | k in w.origin && w.origin[k].run != t && Live(w, w.origin[k].run) && k in w.tables
      ensures k in next.tables
    {
      CommitSpares(w, t, k);
    }
  }

  lemma CommitPending(w: World, t: string, s: Swap)
    requires LocksOk(w) && TablesOk(w) && Committing(w, t) && !w.runs[t].tx.value.Publishing?
    requires s in w.runs[t].pending
    ensures s.staging in Committed(w, t).tables
  {
    assert Mine(w, t, s.staging) && OriginOk(w, s.staging);
    CommitTouches(w, t, s.staging);
  }

  lemma CommitRecord(w: World, t: string)
    requires Committing(w, t)
    ensures var next := Committed(w, t);
      && (forall k | k in next.runs[t].generated :: Mine(next, t, k))
      && (forall s | s in next.runs[t].pending :: Mine(next, t, s.staging) && OwnedTokens(s.target.name).None?)
  {
    var next, tx := Committed(w, t), w.runs[t].tx.value;
    CommitExtends(w, t);
    RecordKept(w, next, t);
    assert TxOk(w, t, tx);
    if tx.Staging? {
      assert Mine(next, t, tx.swap.staging);
    }
  }

  lemma CommitRun(w: World, t: string)
    requires LocksOk(w) && TablesOk(w) && Committing(w, t)
    ensures RunOk(Committed(w, t), t)
  {
    var next, tx := Committed(w, t), w.runs[t].tx.value;
    CommitRecord(w, t);
    forall s | s in next.runs[t].pending
      ensures s.staging in next.tables
    {
      if s in w.runs[t].pending {
        CommitPending(w, t, s);
      }
    }
  }

  lemma CommitKeeps(w: World, t: string)
    requires Inv(w) && Committing(w, t)
    ensures Inv(Committed(w, t))
  {
    var next := Committed(w, t);
    CommitTables(w, t);
    CommitOnlyRun(w, t);
    LocksKept(w, next, t);
    CommitRun(w, t);
    Assemble(w, next, t);
  }

  // -- drops and strangers ------------------------------------------------------------------------

  lemma DropFailedKeeps(w: World, t: string)
    requires Inv(w) && t in w.runs && w.runs[t].link == Gone && w.runs[t].status == RollingBack
    ensures Inv(WithRun(w, t, DropFailed(w.runs[t])))
  {
    assert RunOk(w, t);
    RecordKept(w, WithRun(w, t, DropFailed(w.runs[t])), t);
    PrivateStep(w, t, DropFailed(w.runs[t]));
  }

  lemma DropDoneRun(w: World, t: string, k: Key)
    requires t in w.runs && RunOk(w, t) && w.runs[t].status == RollingBack
    ensures RunOk(DropDone(w, t, k), t)
  {
    RecordKept(w, DropDone(w, t, k), t);
  }

  lemma DropDoneTables(w: World, t: string, k: Key)
    requires TablesOk(w) && t in w.runs
    ensures TablesOk(DropDone(w, t, k))
  {
    TablesKept(w, DropDone(w, t, k));
  }

  lemma DropDoneOnly(w: World, t: string, k: Key)
    requires t in w.runs && Mine(w, t, k)
    ensures OnlyRun(w, DropDone(w, t, k), t)
  {
  }

  lemma DropDoneKeeps(w: World, t: string, k: Key)
    requires Inv(w) && CanDropOwn(w, t, k) && w.runs[t].link != Gone
    ensures Inv(DropDone(w, t, k))
  {
    assert RunOk(w, t) && Mine(w, t, k);
    DropDoneTables(w, t, k);
    DropDoneOnly(w, t, k);
    LocksKept(w, DropDone(w, t, k), t);
    DropDoneRun(w, t, k);
    Assemble(w, DropDone(w, t, k), t);
  }

  lemma DroppedKeeps(w: World, t: string, k: Key)
    requires Inv(w) && CanDropOwn(w, t, k)
    ensures Inv(Dropped(w, t, k))
  {
    if w.runs[t].link == Gone {
      DropFailedKeeps(w, t);
    } else {
      DropDoneKeeps(w, t, k);
    }
  }

  lemma ChangedLocks(w: World, next: World)
    requires LocksOk(w) && next.env == w.env && next.runs == w.runs && next.locks == w.locks
    ensures LocksOk(next)
  {
    assert forall u {:trigger Live(next, u)} :: Live(next, u) == Live(w, u);
    forall l | l in next.locks
      ensures Live(next, next.locks[l]) && KeyOf(next, next.locks[l]) == l
    {
      assert Live(w, w.locks[l]);
    }
  }

  lemma ChangedRuns(w: World, next: World)
    requires RunsOk(w) && Extends(w, next) && next.origin == w.origin && next.runs == w.runs
    requires forall k | k in w.origin && k in w.tables :: k in next.tables
    ensures RunsOk(next)
  {
    forall u | u in next.runs
      ensures RunOk(next, u)
    {
      assert RunOk(w, u);
      forall s | s in w.runs[u].pending && Live(w, u)
        ensures s.staging in next.tables
      {
        assert Mine(w, u, s.staging);
      }
      OtherRun(w, next, u);
    }
  }

  lemma ChangedTables(w: World, k: Key, r: Option<Relation>)
    requires TablesOk(w) && k !in w.origin && (r.Some? ==> ParseStagingComment(r.value.comment) == None)
    ensures TablesOk(Changed(w, k, r))
  {
    TablesKept(w, Changed(w, k, r));
  }

  lemma StrangerUnknown(w: World, k: Key)
    requires TablesOk(w) && (TokenOf(k).Some? ==> TokenOf(k).value !in w.runs)
    ensures k !in w.origin
  {
    assert forall j | j in w.origin :: OriginOk(w, j);
  }

  lemma ChangedExtends(w: World, k: Key, r: Option<Relation>)
    requires k !in w.origin
    ensures Extends(w, Changed(w, k, r))
    ensures forall j | j in w.origin && j in w.tables :: j in Changed(w, k, r).tables
  {
  }

  lemma ChangedKeeps(w: World, k: Key, r: Option<Relation>)
    requires Inv(w) && CanChange(w, k, r)
    ensures Inv(Changed(w, k, r))
  {
    StrangerUnknown(w, k);
    ChangedTables(w, k, r);
    ChangedExtends(w, k, r);
    ChangedLocks(w, Changed(w, k, r));
    ChangedRuns(w, Changed(w, k, r));
  }

  // -- transactions in progress ------------------------------------------------------------------

  /** Whatever a scan identifies as abandoned was prepared by another run of the
      same task. */
  lemma ScannedIsPredecessors(w: World, t: string, k: Key)
    requires TablesOk(w) && t in w.runs && RunOk(w, t)
    requires k in w.tables && Abandoned(w.runs[t].config, k, w.tables[k])
    ensures Predecessors(w, t, k, w.tables[k])
  {
    assert k in w.origin && OriginOk(w, k);
  }

  lemma ScanTx(w: World, t: string)
    requires TablesOk(w) && t in w.runs && RunOk(w, t)
    ensures TxOk(w, t, Cleaning(w.tables, {}))
  {
    forall k | k in w.tables && Abandoned(w.runs[t].config, k, w.tables[k])
      ensures Predecessors(w, t, k, w.tables[k])
    {
      ScannedIsPredecessors(w, t, k);
    }
  }

  lemma DropTx(w: World, t: string, k: Key)
    requires t in w.runs && Fits(w, t, Drop(k)) && TxOk(w, t, w.runs[t].tx.value)
    ensures TxOk(w, t, TxAfter(w, t, Drop(k)).value)
  {
  }

  lemma MoveTx(w: World, t: string, s: Swap, live: Relation)
    requires t in w.runs && RunOk(w, t) && Fits(w, t, Move(s, live)) && TxOk(w, t, w.runs[t].tx.value)
    ensures TxOk(w, t, TxAfter(w, t, Move(s, live)).value)
  {
    assert Mine(w, t, s.staging);
    var run := w.runs[t].config.Run();
    PublishedNotStaging(run.task, run.token, s.rows, run.at);
  }

  lemma StatementTx(w: World, t: string, s: Statement)
    requires TablesOk(w) && t in w.runs && Fits(w, t, s) && RunOk(w, t) && !s.Abort?
    ensures TxOk(w, t, TxAfter(w, t, s).value)
  {
    match s {
      case Scan => ScanTx(w, t);
      case Drop(k) => DropTx(w, t, k);
      case Move(swap, live) => MoveTx(w, t, swap, live);
      case _ =>
    }
  }

  lemma WithTxRun(w: World, t: string, tx: Option<Tx>)
    requires Live(w, t) && w.runs[t].status == Owning && RunOk(w, t) && (tx.Some? ==> TxOk(w, t, tx.value))
    ensures RunOk(WithTx(w, t, tx), t)
  {
    var next := WithTx(w, t, tx);
    RecordKept(w, next, t);
    if tx.Some? {
      TxKept(w, next, t, tx.value);
    }
  }

  /** Behind the check a connection is up, or gone unnoticed: the driver has not
      replaced it. */
  lemma CheckedIsFirst(w: World, t: string)
    requires t in w.runs && RunOk(w, t) && Checked(w.runs[t]) && !w.runs[t].status.RollingBack?
    ensures w.runs[t].link == Up || w.runs[t].link == Gone
  {
  }

  lemma MetLossRun(w: World, t: string)
    requires t in w.runs && RunOk(w, t) && w.runs[t].link == Gone
    ensures RunOk(MetLoss(w, t), t)
  {
    RecordKept(w, MetLoss(w, t), t);
  }

  lemma MetLossKeeps(w: World, t: string)
    requires Inv(w) && t in w.runs && w.runs[t].link == Gone
    ensures Inv(MetLoss(w, t))
  {
    assert RunOk(w, t);
    MetLossRun(w, t);
    PrivateStep(w, t, w.runs[t].(link := Invalidated, tx := None));
  }

  lemma StatementKeeps(w: World, t: string, s: Statement)
    requires Inv(w) && CanExecute(w, t, s) && w.runs[t].link != Gone
    ensures Inv(WithTx(w, t, TxAfter(w, t, s)))
  {
    assert RunOk(w, t);
    CheckedIsFirst(w, t);
    if !s.Abort? {
      StatementTx(w, t, s);
    }
    WithTxRun(w, t, TxAfter(w, t, s));
    PrivateStep(w, t, w.runs[t].(tx := TxAfter(w, t, s)));
  }

  lemma RolledBackRun(w: World, t: string, open: bool)
    requires t in w.runs && RunOk(w, t) && CanHappen(w, t, Rollback(open))
    ensures RunOk(WithRun(w, t, RolledBack(w.runs[t], open)), t)
    ensures Holding(w.runs[t]) <==> Holding(RolledBack(w.runs[t], open))
  {
    RecordKept(w, WithRun(w, t, RolledBack(w.runs[t], open)), t);
  }

  lemma RollbackKeeps(w: World, t: string, open: bool)
    requires Inv(w) && t in w.runs && CanHappen(w, t, Rollback(open))
    ensures Inv(WithRun(w, t, RolledBack(w.runs[t], open)))
  {
    assert RunOk(w, t);
    RolledBackRun(w, t, open);
    PrivateStep(w, t, RolledBack(w.runs[t], open));
  }

  lemma ClosedKeeps(w: World, t: string, commits: bool)
    requires Inv(w) && t in w.runs && CanHappen(w, t, Close(commits))
    ensures Inv(Happened(w, t, Close(commits)))
  {
    assert RunOk(w, t);
    if commits && w.runs[t].tx.Some? {
      CommitKeeps(w, t);
      EndedKeeps(Committed(w, t), t, Over);
    } else {
      EndedKeeps(w, t, Over);
    }
  }

  lemma TryLockKeeps(w: World, t: string)
    requires Inv(w) && t in w.runs && CanHappen(w, t, TryLock)
    ensures Inv(Happened(w, t, TryLock))
  {
    assert RunOk(w, t);
    CheckedIsFirst(w, t);
    if w.runs[t].link == Gone {
      MetLossKeeps(w, t);
    } else if KeyOf(w, t) in w.locks {
      EndedKeeps(w, t, Over);
    } else {
      ClaimKeeps(w, t);
    }
  }

  lemma NoticedRun(w: World, t: string)
    requires t in w.runs && RunOk(w, t) && w.runs[t].link == Invalidated
    ensures RunOk(WithRun(w, t, w.runs[t].(lost := true)), t)
  {
    RecordKept(w, WithRun(w, t, w.runs[t].(lost := true)), t);
  }

  lemma NoticeKeeps(w: World, t: string)
    requires Inv(w) && t in w.runs && CanHappen(w, t, Notice)
    ensures Inv(Happened(w, t, Notice))
  {
    assert RunOk(w, t);
    NoticedRun(w, t);
    PrivateStep(w, t, w.runs[t].(lost := true));
  }

  lemma EventKeeps(w: World, t: string, e: Event)
    requires Inv(w) && t in w.runs && CanHappen(w, t, e)
    ensures Inv(Happened(w, t, e))
  {
    match e {
      case TryLock => TryLockKeeps(w, t);
      case Rollback(open) => RollbackKeeps(w, t, open);
      case Close(commits) => ClosedKeeps(w, t, commits);
      case Notice => NoticeKeeps(w, t);
      case Lose => EndedKeeps(w, t, w.runs[t].status);
      case Crash => EndedKeeps(w, t, Over);
    }
  }

  lemma StartKeeps(w: World, t: string, c: Config)
    requires Inv(w) && CanStart(w, t, c)
    ensures Inv(Started(w, t, c))
  {
    PrivateStep(w, t, RunState(c, Waiting, Up, false, None, {}, {}));
  }

  lemma CommitStepKeeps(w: World, t: string, acknowledged: bool)
    requires Inv(w) && CanCommit(w, t) && w.runs[t].link != Gone
    ensures Inv(if acknowledged then Committed(w, t) else Ended(Committed(w, t), t, w.runs[t].status))
  {
    assert RunOk(w, t);
    CommitKeeps(w, t);
    if !acknowledged {
      EndedKeeps(Committed(w, t), t, w.runs[t].status);
    }
  }

  /** Every step of every run, every loss and crash, and every stranger's
      statement keeps the invariant. */
  lemma StepKeeps(w: World, step: Step)
    requires Inv(w) && Enabled(w, step)
    ensures Inv(Apply(w, step))
  {
    match step {
      case Start(t, c) => StartKeeps(w, t, c);
      case Session(t, e) => EventKeeps(w, t, e);
      case Execute(t, s) =>
        if w.runs[t].link == Gone {
          MetLossKeeps(w, t);
        } else {
          StatementKeeps(w, t, s);
        }
      case Commit(t, acknowledged) =>
        if w.runs[t].link == Gone {
          MetLossKeeps(w, t);
        } else {
          CommitStepKeeps(w, t, acknowledged);
        }
      case DropOwn(t, k) => DroppedKeeps(w, t, k);
      case External(k, r) => ChangedKeeps(w, k, r);
    }
  }

  // -- whole behaviours ---------------------------------------------------------------------------

  /** worlds[i + 1] is worlds[i] after steps[i]. */
  ghost predicate Behaviour(worlds: seq<World>, steps: seq<Step>) {
    && |worlds| == |steps| + 1 && Init(worlds[0])
    && forall i | 0 <= i < |steps| :: Enabled(worlds[i], steps[i]) && worlds[i + 1] == Apply(worlds[i], steps[i])
  }

  lemma {:induction false} Reachable(worlds: seq<World>, steps: seq<Step>, i: nat)
    requires Behaviour(worlds, steps) && i < |worlds|
    ensures Inv(worlds[i])
  {
    if i > 0 {
      Reachable(worlds, steps, i - 1);
      StepKeeps(worlds[i - 1], steps[i - 1]);
    }
  }

  /** The run a step belongs to. */
  function Actor(step: Step): Option<string> {
    if step.External? then None else Some(step.token)
  }

  /** The staging table under k was prepared by run o and is still there. */
  ghost predicate PreparedTable(w: World, o: string, k: Key) {
    k in w.tables && k in w.origin && w.origin[k].run == o
  }

  lemma CommitSparesOthers(w: World, t: string, o: string, k: Key)
    requires LocksOk(w) && TablesOk(w) && Committing(w, t)
    requires PreparedTable(w, o, k) && Live(w, o) && o != t
    ensures k in Committed(w, t).tables && Committed(w, t).tables[k] == w.tables[k]
  {
    assert OriginOk(w, k);
    CommitTouches(w, t, k);
  }

  lemma DropStepSpares(w: World, step: Step, o: string, k: Key)
    requires RunsOk(w) && step.DropOwn? && CanDropOwn(w, step.token, step.own)
    requires PreparedTable(w, o, k) && o != step.token
    ensures k in Apply(w, step).tables && Apply(w, step).tables[k] == w.tables[k]
  {
    assert RunOk(w, step.token) && Mine(w, step.token, step.own);
  }

  lemma ExternalStepSpares(w: World, step: Step, o: string, k: Key)
    requires step.External? && CanChange(w, step.key, step.becomes) && PreparedTable(w, o, k)
    requires step.key !in w.origin
    ensures k in Apply(w, step).tables && Apply(w, step).tables[k] == w.tables[k]
  {
  }

  lemma CommitStepTables(w: World, step: Step)
    requires step.Commit? && CanCommit(w, step.token)
    ensures Apply(w, step).tables == w.tables || Apply(w, step).tables == Committed(w, step.token).tables
  {
  }

  lemma CommitStepSpares(w: World, step: Step, o: string, k: Key)
    requires LocksOk(w) && TablesOk(w) && RunsOk(w) && step.Commit? && CanCommit(w, step.token)
    requires PreparedTable(w, o, k) && Live(w, o) && o != step.token
    ensures k in Apply(w, step).tables && Apply(w, step).tables[k] == w.tables[k]
  {
    assert RunOk(w, step.token);
    CommitStepTables(w, step);
    if Apply(w, step).tables != w.tables {
      CheckedIsFirst(w, step.token);
      CommitSparesOthers(w, step.token, o, k);
    }
  }

  lemma EventTables(w: World, t: string, e: Event)
    requires t in w.runs && CanHappen(w, t, e)
    ensures Happened(w, t, e).tables == if e == Close(true) then Committed(w, t).tables else w.tables
  {
  }

  lemma SessionStepSpares(w: World, step: Step, o: string, k: Key)
    requires LocksOk(w) && TablesOk(w) && RunsOk(w) && step.Session? && step.token in w.runs
    requires CanHappen(w, step.token, step.event)
    requires PreparedTable(w, o, k) && Live(w, o) && o != step.token
    ensures k in Apply(w, step).tables && Apply(w, step).tables[k] == w.tables[k]
  {
    assert RunOk(w, step.token);
    EventTables(w, step.token, step.event);
    if step.event == Close(true) {
      CommitSparesOthers(w, step.token, o, k);
    }
  }

  lemma StepSparesLive(w: World, step: Step, o: string, k: Key)
    requires Inv(w) && Enabled(w, step) && PreparedTable(w, o, k) && Live(w, o) && Actor(step) != Some(o)
    ensures k in Apply(w, step).tables && Apply(w, step).tables[k] == w.tables[k]
  {
    match step {
      case Commit(_, _) => CommitStepSpares(w, step, o, k);
      case Session(_, _) => SessionStepSpares(w, step, o, k);
      case DropOwn(_, _) => DropStepSpares(w, step, o, k);
      case External(j, _) =>
        StrangerUnknown(w, j);
        ExternalStepSpares(w, step, o, k);
      case _ =>
    }
  }

  /** No step of a behaviour drops, renames or alters the staging table of a run
      that still owns its task, unless that run takes the step. */
  lemma LiveStagingSafe(worlds: seq<World>, steps: seq<Step>, i: nat, o: string, k: Key)
    requires Behaviour(worlds, steps) && i < |steps|
    requires PreparedTable(worlds[i], o, k) && Live(worlds[i], o) && Actor(steps[i]) != Some(o)
    ensures k in worlds[i + 1].tables && worlds[i + 1].tables[k] == worlds[i].tables[k]
  {
    Reachable(worlds, steps, i);
    StepSparesLive(worlds[i], steps[i], o, k);
  }

  /** Everything a predecessor cleanup drops was prepared by another run of the
      same task, which no longer owns it; the table under the name is the one
      that run prepared, or already gone. */
  lemma CleanupDropsOnlyDead(worlds: seq<World>, steps: seq<Step>, i: nat, t: string, k: Key)
    requires Behaviour(worlds, steps) && i < |worlds|
    requires var w := worlds[i];
      && t in w.runs && w.runs[t].tx.Some? && w.runs[t].tx.value.Cleaning? && k in w.runs[t].tx.value.dropped
    ensures var w := worlds[i];
      && k in w.origin && w.origin[k].run != t && w.origin[k].run in w.runs
      && w.runs[w.origin[k].run].config.task == w.runs[t].config.task
      && !Live(w, w.origin[k].run)
      && (k in w.tables ==> w.tables[k] == w.origin[k].relation)
  {
    Reachable(worlds, steps, i);
    var w := worlds[i];
    assert RunOk(w, t) && TxOk(w, t, w.runs[t].tx.value);
    var r := w.runs[t].tx.value.scan[k];
    assert Predecessors(w, t, k, r);
    PredecessorNotLive(w, t, k, r);
    assert OriginOk(w, k);
  }

  /** A table whose comment does not name an owner in the documented format -
      none, unreadable, of another version, lacking a field, or a published
      table's - is in no cleanup's drops. */
  lemma UnknownNeverDropped(worlds: seq<World>, steps: seq<Step>, i: nat, t: string, k: Key)
    requires Behaviour(worlds, steps) && i < |worlds|
    requires k in worlds[i].tables && !NamesOwner(worlds[i].tables[k].comment)
    requires var w := worlds[i]; t in w.runs && w.runs[t].tx.Some? && w.runs[t].tx.value.Cleaning?
    ensures k !in worlds[i].runs[t].tx.value.dropped
  {
    var w := worlds[i];
    Reachable(worlds, steps, i);
    Unnamed(w.tables[k].comment);
    assert forall j | j in w.origin :: OriginOk(w, j);
    if k in w.runs[t].tx.value.dropped {
      CleanupDropsOnlyDead(worlds, steps, i, t, k);
    }
  }

  /** No table changed, no lock gained, no session replaced. */
  ghost predicate Silent(w: World, next: World, t: string) {
    && next.tables == w.tables && t in next.runs && next.runs[t].link != Replaced
    && forall l | l in next.locks :: l in w.locks && next.locks[l] == w.locks[l]
  }

  lemma LostEvent(w: World, t: string, e: Event)
    requires t in w.runs && RunOk(w, t) && w.runs[t].link != Up && CanHappen(w, t, e)
    ensures w.runs[t].link == Replaced ==> Happened(w, t, e).tables == w.tables
    ensures w.runs[t].link != Replaced ==> Silent(w, Happened(w, t, e), t)
    ensures forall l | l in Happened(w, t, e).locks :: l in w.locks && Happened(w, t, e).locks[l] == w.locks[l]
  {
    if e.TryLock? {
      CheckedIsFirst(w, t);
    }
  }

  lemma LostStatement(w: World, t: string, s: Statement)
    requires CanExecute(w, t, s) && RunOk(w, t) && w.runs[t].link != Up
    ensures w.runs[t].link == Gone && Silent(w, MetLoss(w, t), t)
  {
    CheckedIsFirst(w, t);
  }

  lemma LostCommit(w: World, t: string)
    requires CanCommit(w, t) && RunOk(w, t) && w.runs[t].link != Up
    ensures w.runs[t].link == Gone && Silent(w, MetLoss(w, t), t)
  {
    CheckedIsFirst(w, t);
  }

  lemma LostStepSilent(w: World, step: Step, t: string)
    requires RunsOk(w) && Enabled(w, step) && Actor(step) == Some(t) && t in w.runs && w.runs[t].link != Up
    ensures !step.DropOwn? ==> Apply(w, step).tables == w.tables
    ensures !step.DropOwn? && w.runs[t].link != Replaced ==> Apply(w, step).runs[t].link != Replaced
    ensures forall l | l in Apply(w, step).locks :: l in w.locks && Apply(w, step).locks[l] == w.locks[l]
  {
    assert RunOk(w, t);
    match step {
      case Session(_, e) => LostEvent(w, t, e);
      case Execute(_, s) => LostStatement(w, t, s);
      case Commit(_, _) => LostCommit(w, t);
      case DropOwn(_, _) =>
    }
  }

  /** A run whose session is gone changes no table and claims no lock, though
      any statement it still issued would go out on a new session: except for
      the drops of a rollback, which are not checked - and those are of tables
      it prepared itself. */
  lemma LostRunIsSilent(worlds: seq<World>, steps: seq<Step>, i: nat, t: string)
    requires Behaviour(worlds, steps) && i < |steps|
    requires Actor(steps[i]) == Some(t) && t in worlds[i].runs && worlds[i].runs[t].link != Up
    ensures !steps[i].DropOwn? ==> worlds[i + 1].tables == worlds[i].tables
    ensures steps[i].DropOwn? ==>
      && PreparedBy(worlds[i], t, steps[i].own)
      && worlds[i + 1].tables
           == if worlds[i].runs[t].link == Gone then worlds[i].tables else worlds[i].tables - {steps[i].own}
    ensures forall l | l in worlds[i + 1].locks :: l in worlds[i].locks && worlds[i + 1].locks[l] == worlds[i].locks[l]
  {
    Reachable(worlds, steps, i);
    LostStepSilent(worlds[i], steps[i], t);
    if steps[i].DropOwn? {
      assert RunOk(worlds[i], t) && Mine(worlds[i], t, steps[i].own);
    }
  }

  lemma EventLeaves(w: World, t: string, e: Event, u: string)
    requires t in w.runs && CanHappen(w, t, e) && u != t
    ensures u in Happened(w, t, e).runs <==> u in w.runs
    ensures u in w.runs ==> Happened(w, t, e).runs[u] == w.runs[u]
  {
  }

  /** A step leaves other runs as they are. */
  lemma OthersUntouched(w: World, step: Step, t: string)
    requires Enabled(w, step) && Actor(step) != Some(t)
    ensures t in Apply(w, step).runs <==> t in w.runs
    ensures t in w.runs ==> Apply(w, step).runs[t] == w.runs[t]
  {
    match step {
      case Session(u, e) => EventLeaves(w, u, e, t);
      case Execute(u, s) =>
      case Commit(u, a) =>
      case DropOwn(u, k) =>
      case _ =>
    }
  }

  lemma UpEvent(w: World, t: string, e: Event)
    requires t in w.runs && w.runs[t].link == Up && CanHappen(w, t, e)
    ensures t in Happened(w, t, e).runs && Happened(w, t, e).runs[t].link in {Up, Gone}
  {
  }

  /** One step of a connection that is up leaves it up or gone. */
  lemma UpStep(w: World, step: Step, t: string)
    requires Enabled(w, step) && Actor(step) == Some(t) && t in w.runs && w.runs[t].link == Up
    ensures t in Apply(w, step).runs && Apply(w, step).runs[t].link in {Up, Gone}
  {
    match step {
      case Session(_, e) => UpEvent(w, t, e);
      case _ =>
    }
  }

  lemma ReplacedBy(w: World, step: Step, t: string)
    requires RunsOk(w) && Enabled(w, step) && t in w.runs && w.runs[t].link != Replaced
    requires t in Apply(w, step).runs && Apply(w, step).runs[t].link == Replaced
    ensures step.DropOwn? && step.token == t && w.runs[t].link == Invalidated && w.runs[t].status == RollingBack
  {
    if Actor(step) != Some(t) {
      OthersUntouched(w, step, t);
    } else if w.runs[t].link == Up {
      UpStep(w, step, t);
    } else {
      LostStepSilent(w, step, t);
    }
  }

  /** The driver reconnects for nothing but the drops of a rollback whose
      connection was invalidated after the check: by its own ROLLBACK, since a
      drop that meets the loss ends it. */
  lemma OnlyRollbackReconnects(worlds: seq<World>, steps: seq<Step>, i: nat, t: string)
    requires Behaviour(worlds, steps) && i < |steps| && t in worlds[i].runs && t in worlds[i + 1].runs
    requires worlds[i].runs[t].link != Replaced && worlds[i + 1].runs[t].link == Replaced
    ensures steps[i].DropOwn? && steps[i].token == t
    ensures worlds[i].runs[t].link == Invalidated && worlds[i].runs[t].status == RollingBack
  {
    Reachable(worlds, steps, i);
    ReplacedBy(worlds[i], steps[i], t);
  }

  /** Rolling back on a connection known to the driver to be invalid. */
  predicate Unchecked(w: World, t: string) {
    t in w.runs && w.runs[t].status == RollingBack && w.runs[t].link == Invalidated
  }

  lemma UncheckedEvent(w: World, t: string, e: Event)
    requires t in w.runs && CanHappen(w, t, e) && !Unchecked(w, t) && Unchecked(Happened(w, t, e), t)
    ensures e == Rollback(true) && w.runs[t].link == Gone
  {
  }

  /** Only the steps of a session lead there. */
  lemma UncheckedStep(w: World, step: Step, t: string)
    requires Enabled(w, step) && Actor(step) == Some(t) && !step.Session?
    ensures !Unchecked(Apply(w, step), t)
  {
    match step {
      case Execute(_, s) =>
      case Commit(_, a) =>
      case DropOwn(_, k) =>
      case Start(_, c) =>
    }
  }

  lemma InvalidatedBy(w: World, step: Step, t: string)
    requires Enabled(w, step) && Unchecked(Apply(w, step), t) && !Unchecked(w, t)
    ensures step == Session(t, Rollback(true)) && t in w.runs && w.runs[t].link == Gone
  {
    if Actor(step) != Some(t) {
      OthersUntouched(w, step, t);
    } else if step.Session? {
      UncheckedEvent(w, t, step.event);
    } else {
      UncheckedStep(w, step, t);
    }
  }

  /** That loss was met by the ROLLBACK of an open transaction. */
  lemma RollbackMetLoss(worlds: seq<World>, steps: seq<Step>, i: nat, t: string)
    requires Behaviour(worlds, steps) && i < |steps|
    requires Unchecked(worlds[i + 1], t) && !Unchecked(worlds[i], t)
    ensures steps[i] == Session(t, Rollback(true)) && t in worlds[i].runs && worlds[i].runs[t].link == Gone
  {
    InvalidatedBy(worlds[i], steps[i], t);
  }

  ghost predicate PreparedBy(w: World, t: string, k: Key) {
    k in w.origin && w.origin[k].run == t
  }

  /** What a live run has pending is in the database as it prepared it. */
  lemma PendingIntact(worlds: seq<World>, steps: seq<Step>, i: nat, t: string, s: Swap)
    requires Behaviour(worlds, steps) && i < |worlds| && Live(worlds[i], t) && s in worlds[i].runs[t].pending
    ensures var w := worlds[i];
      && s.staging in w.tables && s.staging in w.origin && w.origin[s.staging].run == t
      && w.tables[s.staging] == w.origin[s.staging].relation
  {
    Reachable(worlds, steps, i);
    assert RunOk(worlds[i], t) && Mine(worlds[i], t, s.staging) && OriginOk(worlds[i], s.staging);
  }

  /** At no time do two runs own one task. */
  lemma OneOwnerPerTask(worlds: seq<World>, steps: seq<Step>, i: nat, a: string, b: string)
    requires Behaviour(worlds, steps) && i < |worlds| && Live(worlds[i], a) && Live(worlds[i], b)
    requires worlds[i].runs[a].config.task == worlds[i].runs[b].config.task
    ensures a == b
  {
    Reachable(worlds, steps, i);
    OneLiveOwner(worlds[i], a, b);
  }

  // -- the drop without the lock -----------------------------------------------------------------

  lemma Extend(worlds: seq<World>, steps: seq<Step>, step: Step) returns (all: seq<World>)
    requires Behaviour(worlds, steps) && Enabled(worlds[|steps|], step)
    ensures all == worlds + [Apply(worlds[|steps|], step)] && Behaviour(all, steps + [step])
  {
    all := worlds + [Apply(worlds[|steps|], step)];
    var more := steps + [step];
    forall i | 0 <= i < |more|
      ensures Enabled(all[i], more[i]) && all[i + 1] == Apply(all[i], more[i])
    {
      if i < |steps| {
        assert Enabled(worlds[i], steps[i]) && worlds[i + 1] == Apply(worlds[i], steps[i]);
      }
    }
  }

  /** A first run of c's task, and one output of its. */
  ghost predicate FirstRun(w: World, c: Config, s: Swap, r: Relation) {
    && Init(w) && CanStart(w, c.token, c) && StagesFor(c, s, r)
  }

  function Alone(w: World, c: Config, status: Status, tx: Option<Tx>): World {
    w.(runs := map[c.token := RunState(c, status, Up, false, tx, {}, {})],
       locks := if status == Owning then map[w.env.lockKey(c.task) := c.token] else map[])
  }

  /** The output is prepared. */
  function Ready(w: World, c: Config, s: Swap, r: Relation, tx: Option<Tx>): World {
    w.(tables := w.tables[s.staging := r],
       runs := map[c.token := RunState(c, Owning, Up, false, tx, {s.staging}, {s})],
       locks := map[w.env.lockKey(c.task) := c.token],
       origin := map[s.staging := Origin(c.token, r)])
  }

  /** Its session is lost, and another run of the task has got this far. */
  function Lost(w: World, c: Config, s: Swap, r: Relation, others: map<string, RunState>, locks: map<LockKey, string>)
    : World
  {
    w.(tables := w.tables[s.staging := r],
       runs := map[c.token := RunState(c, Owning, Gone, false, None, {s.staging}, {s})] + others,
       locks := locks,
       origin := map[s.staging := Origin(c.token, r)])
  }

  lemma Starts(w: World, c: Config, s: Swap, r: Relation)
    requires FirstRun(w, c, s, r)
    ensures Enabled(w, Start(c.token, c)) && Apply(w, Start(c.token, c)) == Alone(w, c, Waiting, None)
    ensures var v := Alone(w, c, Waiting, None);
      Enabled(v, Session(c.token, TryLock)) && Apply(v, Session(c.token, TryLock)) == Alone(w, c, Owning, None)
  {
  }

  lemma StagesIt(w: World, c: Config, s: Swap, r: Relation)
    requires FirstRun(w, c, s, r)
    ensures var v := Alone(w, c, Owning, None);
      && Enabled(v, Execute(c.token, Stage(s, r)))
      && Apply(v, Execute(c.token, Stage(s, r))) == Alone(w, c, Owning, Some(Staging(s, r)))
  {
    OwnToken(c, s.target.name);
  }

  lemma CommitsIt(w: World, c: Config, s: Swap, r: Relation)
    requires w.origin == map[]
    ensures var v := Alone(w, c, Owning, Some(Staging(s, r)));
      Enabled(v, Commit(c.token, true)) && Apply(v, Commit(c.token, true)) == Ready(w, c, s, r, None)
  {
    var v := Alone(w, c, Owning, Some(Staging(s, r)));
    assert {} + {s.staging} == {s.staging} && {} + {s} == {s};
    assert Committed(v, c.token).runs == Ready(w, c, s, r, None).runs;
    assert Committed(v, c.token).origin == Ready(w, c, s, r, None).origin;
  }

  lemma LosesIt(w: World, c: Config, s: Swap, r: Relation)
    requires FirstRun(w, c, s, r)
    ensures var v, begun := Ready(w, c, s, r, None), Ready(w, c, s, r, Some(Publishing({}, map[])));
      && Enabled(v, Execute(c.token, BeginPublish)) && Apply(v, Execute(c.token, BeginPublish)) == begun
      && Enabled(begun, Session(c.token, Lose))
      && Apply(begun, Session(c.token, Lose)) == Lost(w, c, s, r, map[], map[])
  {
  }

  lemma AnotherMayStart(w: World, c: Config, d: Config, s: Swap, r: Relation)
    requires FirstRun(w, c, s, r) && CanStart(w, d.token, d) && d.token != c.token
    ensures CanStart(Lost(w, c, s, r, map[], map[]), d.token, d)
  {
    OwnToken(c, s.target.name);
  }

  lemma AnotherStarts(w: World, c: Config, d: Config, s: Swap, r: Relation)
    requires FirstRun(w, c, s, r) && CanStart(w, d.token, d) && d.token != c.token
    ensures var v := Lost(w, c, s, r, map[], map[]);
      var started := Lost(w, c, s, r, map[d.token := RunState(d, Waiting, Up, false, None, {}, {})], map[]);
      Enabled(v, Start(d.token, d)) && Apply(v, Start(d.token, d)) == started
  {
    AnotherMayStart(w, c, d, s, r);
    var v := Lost(w, c, s, r, map[], map[]);
    var other := RunState(d, Waiting, Up, false, None, {}, {});
    assert v.runs[d.token := other] == Lost(w, c, s, r, map[d.token := other], map[]).runs;
  }

  lemma AnotherClaims(w: World, c: Config, d: Config, s: Swap, r: Relation)
    requires d.token != c.token && d.task == c.task
    ensures var other := RunState(d, Waiting, Up, false, None, {}, {});
      var started := Lost(w, c, s, r, map[d.token := other], map[]);
      var claimed := Lost(w, c, s, r, map[d.token := other.(status := Owning)], map[w.env.lockKey(c.task) := d.token]);
      Enabled(started, Session(d.token, TryLock)) && Apply(started, Session(d.token, TryLock)) == claimed
  {
    var other := RunState(d, Waiting, Up, false, None, {}, {});
    var started := Lost(w, c, s, r, map[d.token := other], map[]);
    assert started.runs[d.token := other.(status := Owning)]
        == Lost(w, c, s, r, map[d.token := other.(status := Owning)], map[]).runs;
  }

  /** It starts, claims its task, and prepares the output. */
  lemma Prepares(w: World, c: Config, s: Swap, r: Relation) returns (worlds: seq<World>, steps: seq<Step>)
    requires FirstRun(w, c, s, r)
    ensures Behaviour(worlds, steps) && worlds[|steps|] == Ready(w, c, s, r, None)
  {
    var t := c.token;
    Starts(w, c, s, r);
    StagesIt(w, c, s, r);
    CommitsIt(w, c, s, r);
    worlds := Extend([w], [], Start(t, c));
    steps := [] + [Start(t, c)];
    worlds := Extend(worlds, steps, Session(t, TryLock));
    steps := steps + [Session(t, TryLock)];
    worlds := Extend(worlds, steps, Execute(t, Stage(s, r)));
    steps := steps + [Execute(t, Stage(s, r))];
    worlds := Extend(worlds, steps, Commit(t, true));
    steps := steps + [Commit(t, true)];
  }

  /** It begins to publish and loses its session; another run of the task
      claims the lock. */
  lemma IsReplaced(w: World, c: Config, d: Config, s: Swap, r: Relation) returns (worlds: seq<World>, steps: seq<Step>)
    requires FirstRun(w, c, s, r) && CanStart(w, d.token, d) && d.token != c.token && d.task == c.task
    ensures Behaviour(worlds, steps)
    ensures var other := RunState(d, Owning, Up, false, None, {}, {});
      worlds[|steps|] == Lost(w, c, s, r, map[d.token := other], map[w.env.lockKey(c.task) := d.token])
  {
    var t, u := c.token, d.token;
    worlds, steps := Prepares(w, c, s, r);
    LosesIt(w, c, s, r);
    AnotherStarts(w, c, d, s, r);
    AnotherClaims(w, c, d, s, r);
    worlds := Extend(worlds, steps, Execute(t, BeginPublish));
    steps := steps + [Execute(t, BeginPublish)];
    worlds := Extend(worlds, steps, Session(t, Lose));
    steps := steps + [Session(t, Lose)];
    worlds := Extend(worlds, steps, Start(u, d));
    steps := steps + [Start(u, d)];
    worlds := Extend(worlds, steps, Session(u, TryLock));
    steps := steps + [Session(u, TryLock)];
  }

  /** So it happens: a rollback that meets the loss in its own ROLLBACK drops
      its staging table on a new session, while another run owns the task. */
  lemma DropsWithoutLock(w: World, c: Config, d: Config, s: Swap, r: Relation)
    returns (worlds: seq<World>, steps: seq<Step>)
    requires FirstRun(w, c, s, r) && CanStart(w, d.token, d) && d.token != c.token && d.task == c.task
    ensures Behaviour(worlds, steps) && |steps| > 0 && steps[|steps| - 1] == DropOwn(c.token, s.staging)
    ensures var before, after := worlds[|steps| - 1], worlds[|steps|];
      && Live(before, d.token) && c.token in before.runs && before.runs[c.token].config.task == d.task
      && before.runs[c.token].link == Invalidated && after.runs[c.token].link == Replaced
      && s.staging in before.tables && s.staging !in after.tables
  {
    var t := c.token;
    worlds, steps := IsReplaced(w, c, d, s, r);
    worlds := Extend(worlds, steps, Session(t, Rollback(true)));
    steps := steps + [Session(t, Rollback(true))];
    worlds := Extend(worlds, steps, DropOwn(t, s.staging));
    steps := steps + [DropOwn(t, s.staging)];
  }
}
