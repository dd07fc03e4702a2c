/** DbPublisher: one run's staged publication over one session
    (task_core/db/publish.py, 254-1941). */
module Publisher {
  import opened Values
  import opened Catalog
  import opened Identifiers
  import opened Publication
  import opened PublicationSteps
  import opened Server
  import LockPolicy
  import Utf8

  /** An output resolved and loaded in memory or in a spool: its name, columns
      and rows, and whether it refills a stable target. */
  datatype Payload = Payload(schema: string, table: string, columns: seq<Column>, rows: Rows, refill: bool)

  /** What a publisher is constructed with. */
  datatype Config = Config(
    task: string,
    schema: string,
    token: string,
    at: string,
    digest: Digest,
    lockKey: LockKey,
    maxBytes: int,
    chunkSize: nat,
    policy: LockPolicy.Policy)
  {
    ghost predicate Valid() {
      && task != "" && schema != "" && at != ""
      && RunToken(token) && digest.Valid()
      && chunkSize >= 1 && policy.Valid()
    }

    function Run(): Publication.Run { Publication.Run(task, token, at) }

    function StagingKey(table: string): Key {
      Key(schema, StagingName(digest, Some(schema), table, token, maxBytes))
    }
  }

  /** A predecessor's staging table, positively identified: its name has the
      staging shape, its comment is this task's, it names another run, and name
      and comment agree on schema, run and target. */
  predicate Abandoned(c: Config, k: Key, r: Relation) {
    && k.schema == c.schema && r.kind == OrdinaryTable
    && OwnedTokens(k.name).Some?
    && ParseStagingComment(r.comment).Some?
    && var (targetToken, run) := OwnedTokens(k.name).value;
      var owner := ParseStagingComment(r.comment).value;
      && owner.task == c.task
      && run != c.token
      && owner.schema == Some(c.schema)
      && owner.run == run
      && TargetToken(c.digest, owner.schema, owner.table) == targetToken
  }

  /** Whatever a run of the same task in the same schema prepared, a later run
      recognises as abandoned; what another task prepared, or this run, never. */
  lemma StagingAbandonedIff(c: Config, other: Config, p: Payload, oid: nat)
    requires c.Valid() && other.Valid() && other.schema == c.schema && other.digest == c.digest
    requires p.schema == other.schema && p.table != ""
    ensures var s := Swap(Key(p.schema, p.table), other.StagingKey(p.table), |p.rows|);
      Abandoned(c, s.staging, StagedRelation(other, p, s, oid)) <==> other.task == c.task && other.token != c.token
  {
    var s := Swap(Key(p.schema, p.table), other.StagingKey(p.table), |p.rows|);
    StagingNameOwned(other.digest, Some(other.schema), p.table, other.token, other.maxBytes);
    StagingCommentRead(OwnerOf(other.Run(), s));
  }

  /** The table is what a run of this task other than this one prepared for
      o's target: an ordinary table of the schema, whose comment names o in the
      documented format, and whose name ends in o's tokens. */
  ghost predicate PreparedBefore(c: Config, k: Key, r: Relation, o: Owner, prefix: string) {
    && k.schema == c.schema && r.kind.OrdinaryTable?
    && NamesThis(r.comment, o) && o.task == c.task && o.schema == Some(c.schema)
    && EightHex(o.run) && o.run != c.token
    && k.name == prefix + "__stg_" + c.digest.hex(c.schema + "\U{1F}" + o.table + "\U{1F}" + "stg") + "_" + o.run
  }

  lemma TargetMaterial(c: Config, table: string)
    ensures TargetToken(c.digest, Some(c.schema), table)
         == c.digest.hex(c.schema + "\U{1F}" + table + "\U{1F}" + "stg")
  {
    var parts := Material(Some(c.schema), table);
    assert parts[1..] == [table, "stg"] && parts[1..][1..] == ["stg"];
    assert Join(["stg"]) == "stg" && Join(parts[1..]) == table + "\U{1F}" + "stg";
    assert Join(parts) == c.schema + "\U{1F}" + Join(parts[1..]);
    assert c.schema + "\U{1F}" + (table + "\U{1F}" + "stg") == c.schema + "\U{1F}" + table + "\U{1F}" + "stg";
  }

  lemma PreparedBeforeAbandoned(c: Config, k: Key, r: Relation, o: Owner, prefix: string)
    requires c.Valid() && PreparedBefore(c, k, r, o, prefix)
    ensures Abandoned(c, k, r)
  {
    var target := TargetToken(c.digest, Some(c.schema), o.table);
    TargetMaterial(c, o.table);
    ParsedIffNamed(r.comment, o);
    assert RunToken(target);
    assert |"__stg_" + target + "_" + o.run| == 23;
    assert k.name == prefix + ("__stg_" + target + "_" + o.run);
    assert k.name[..|k.name| - 23] == prefix;
    StagingShapeIff(k.name, target, o.run);
  }

  /** Cleanup takes a table for abandoned exactly when there is such an owner:
      whatever else its name and comment may look like, it stays. */
  lemma AbandonedIff(c: Config, k: Key, r: Relation)
    requires c.Valid()
    ensures Abandoned(c, k, r) <==> exists o, prefix :: PreparedBefore(c, k, r, o, prefix)
  {
    if Abandoned(c, k, r) {
      var (target, run) := OwnedTokens(k.name).value;
      var o := ParseStagingComment(r.comment).value;
      ParsedIffNamed(r.comment, o);
      StagingShapeIff(k.name, target, run);
      TargetMaterial(c, o.table);
      assert PreparedBefore(c, k, r, o, k.name[..|k.name| - 23]);
    } else if o, prefix :| PreparedBefore(c, k, r, o, prefix) {
      PreparedBeforeAbandoned(c, k, r, o, prefix);
    }
  }

  /** A table without a comment, with one that is not a JSON object, or with one
      that lacks the marker or the integer 1 for a version - of a version not
      yet known, say - is never abandoned; nor is one any task has published. */
  lemma UnknownNeverAbandoned(c: Config, k: Key, r: Relation, run: Run, s: Swap)
    requires
      || !r.comment.Parsed? || !r.comment.json.JsonObject? || r.comment == PublishedBy(run, s)
      || var f := r.comment.json.fields; !Says(f, "marker", JsonString("task_core")) || !Says(f, "v", JsonInt(1))
    ensures !Abandoned(c, k, r)
  {
    if r.comment == PublishedBy(run, s) {
      PublishedNotStaging(run.task, run.token, s.rows, run.at);
    } else {
      assert !NamesOwner(r.comment);
      ParsedIffNamed(r.comment, Owner("", "", None, "", ""));
    }
  }

  /** A staging table added, and nothing else. */
  ghost predicate Staged(c: Config, before: Database, after: Database, p: Payload, s: Swap) {
    && s == Swap(Key(p.schema, p.table), c.StagingKey(p.table), |p.rows|)
    && s.staging !in before.tables
    && after.tables == before.tables[s.staging := StagedRelation(c, p, s, before.nextOid)]
    && after.state == before.state
  }

  function StagedRelation(c: Config, p: Payload, s: Swap, oid: nat): Relation {
    Relation(oid, OrdinaryTable, Attributes(p.columns), p.rows, StagingComment(OwnerOf(c.Run(), s)), false)
  }

  /** A staging table begun: created, holding the first of its rows, and
      commented last; or nothing yet. */
  ghost predicate PartStaged(c: Config, before: Database, now: Database, p: Payload, s: Swap) {
    && now.state == before.state
    && (now.tables == before.tables
        || (s.staging !in before.tables && s.staging in now.tables
            && now.tables == before.tables[s.staging := now.tables[s.staging]]
            && StagedPart(c, p, s, before.nextOid, now.tables[s.staging])))
  }

  ghost predicate StagedPart(c: Config, p: Payload, s: Swap, oid: nat, r: Relation) {
    var whole := StagedRelation(c, p, s, oid);
    && r == whole.(rows := r.rows, comment := r.comment)
    && r.rows <= whole.rows && (r.comment == NoComment || r == whole)
  }

  predicate RowShape(p: Payload) {
    && !HasDuplicates(ColumnNames(Attributes(p.columns)))
    && forall i | 0 <= i < |p.rows| :: |p.rows[i]| == |p.columns|
  }

  /** What publish() refuses before it touches the database: a wrong schema, a
      misshapen row, a staging name too long or used before. */
  predicate Unpublishable(c: Config, generated: set<Key>, p: Payload) {
    || p.schema != c.schema
    || (exists i, j | 0 <= i < j < |p.columns| :: p.columns[i].name == p.columns[j].name)
    || (exists i | 0 <= i < |p.rows| :: |p.rows[i]| != |p.columns|)
    || |Utf8.Encode(c.StagingKey(p.table).name)| > c.maxBytes || c.StagingKey(p.table) in generated
  }

  /** Staging one more output leaves the others prepared, and prepares its own
      once the plan knows its columns. */
  lemma StagedPrepares(c: Config, before: Database, after: Database, p: Payload, s: Swap, pending: seq<Swap>,
      plan: Plan, next: Plan)
    requires forall t | t in pending :: Prepared(before, t, plan) && t.staging != s.staging && t.target != s.target
    requires Staged(c, before, after, p, s) && RowShape(p)
    requires plan.run == next.run == c.Run()
    ensures next.resolved == plan.resolved ==> forall t | t in pending :: Prepared(after, t, next)
    ensures next.resolved == plan.resolved[s.target := p.columns] ==>
      Prepared(after, s, next) && forall t | t in pending :: Prepared(after, t, next)
  {
  }

  /** Some of these names gone, and nothing else changed. */
  ghost predicate OnlyDropped(before: Database, after: Database, names: set<Key>) {
    && after.state == before.state && after.tables.Keys <= before.tables.Keys
    && forall k | k in before.tables ::
         if k in after.tables then after.tables[k] == before.tables[k] else k in names
  }

  lemma DropOneMore(before: Database, now: Database, names: set<Key>, k: Key)
    requires OnlyDropped(before, now, names) && k in names
    ensures DropIfExists(now, k).Ok? ==> OnlyDropped(before, DropIfExists(now, k).value, names)
  {
  }

  /** Some of the abandoned tables gone, and nothing else changed. */
  ghost predicate PartCleaned(c: Config, before: Database, now: Database) {
    OnlyDropped(before, now, AbandonedAmong(c, before, before.tables.Keys))
  }

  ghost predicate WithoutAbandoned(c: Config, before: Database, after: Database) {
    && after.state == before.state
    && after.tables == map k | k in before.tables && !Abandoned(c, k, before.tables[k]) :: before.tables[k]
  }

  /** A cleanup leaves this run's own staging tables as they were. */
  lemma OwnKept(c: Config, before: Database, after: Database, s: Swap, plan: Plan)
    requires c.Valid() && WithoutAbandoned(c, before, after) && Prepared(before, s, plan)
    requires s.staging == c.StagingKey(s.target.name)
    ensures Prepared(after, s, plan)
  {
    StagingNameOwned(c.digest, Some(c.schema), s.target.name, c.token, c.maxBytes);
    assert !Abandoned(c, s.staging, before.tables[s.staging]);
  }

  /** What a publisher has queued. */
  datatype Queue = Queue(pending: seq<Swap>, plan: Plan, steps: seq<Step>, generated: set<Key>, written: seq<Swap>)

  /** All a publication starts from. */
  datatype Snapshot = Snapshot(db: Database, versions: seq<Database>, queue: Queue)

  ghost function AbandonedAmong(c: Config, db: Database, keys: set<Key>): set<Key> {
    set k | k in keys && k in db.tables && Abandoned(c, k, db.tables[k])
  }

  /** The tables once the names in `seen` have been looked at. */
  ghost predicate CleanedTo(c: Config, before: Database, now: Database, seen: set<Key>, dropped: set<Key>) {
    && now.state == before.state
    && dropped == AbandonedAmong(c, before, seen)
    && now.tables == before.tables - dropped
  }

  lemma CleanedStart(c: Config, db: Database)
    ensures CleanedTo(c, db, db, {}, {})
  {
    assert db.tables - {} == db.tables;
  }

  lemma CleanedNext(c: Config, before: Database, now: Database, seen: set<Key>, dropped: set<Key>, k: Key)
    requires CleanedTo(c, before, now, seen, dropped) && k in before.tables && k !in seen
    ensures !Abandoned(c, k, before.tables[k]) ==> CleanedTo(c, before, now, seen + {k}, dropped)
    ensures Abandoned(c, k, before.tables[k]) && DropIfExists(now, k).Ok? ==>
      CleanedTo(c, before, DropIfExists(now, k).value, seen + {k}, dropped + {k})
  {
    assert before.tables - dropped - {k} == before.tables - (dropped + {k});
  }

  lemma CleanedPart(c: Config, before: Database, now: Database, seen: set<Key>, dropped: set<Key>, k: Key)
    requires CleanedTo(c, before, now, seen, dropped) && k in before.tables && seen <= before.tables.Keys
    ensures PartCleaned(c, before, now)
    ensures Abandoned(c, k, before.tables[k]) && DropIfExists(now, k).Ok? ==>
      PartCleaned(c, before, DropIfExists(now, k).value)
  {
  }

  lemma CleanedAll(c: Config, before: Database, after: Database, dropped: set<Key>)
    requires CleanedTo(c, before, after, before.tables.Keys, dropped)
    ensures WithoutAbandoned(c, before, after)
    ensures dropped == set k | k in before.tables && Abandoned(c, k, before.tables[k])
  {
  }

  class DbPublisher {
    const server: Server
    const config: Config
    const publicationPlan: PublicationPlan
    const others: OtherSessions
    var session: Session?
    var connectionLost: bool
    var lockedTask: Option<string>
    var explicitTx: bool
    var pending: seq<Swap>
    var resolved: map<Key, seq<Column>>
    var refills: set<Key>
    var generated: set<Key>
    var written: seq<Swap>
    var committedTables: seq<Swap>
    var committed: bool
    /** The publication attempts of the last commit(). */
    ghost var attempts: seq<LockPolicy.Attempt>

    /** A lock this publisher takes itself to hold is one its session holds,
        unless the driver has replaced that session. */
    ghost predicate Valid()
      reads this, server, session, if session != null then {session.link} else {}
    {
      && config.Valid() && server.Valid()
      && (session != null ==> session.server == server && session.Valid())
      && (lockedTask.Some? ==> session != null && (session.invalidated || Covered(session)))
      && (connectionLost ==> session == null || session.invalidated)
      && (forall s | s in pending :: Pending(s))
      && (forall i, j | 0 <= i < j < |pending| ::
            pending[i].target != pending[j].target && pending[i].staging != pending[j].staging)
    }

    ghost predicate Covered(conn: Session)
      reads conn, conn.link
    {
      conn.link.reconnects == 0 ==> conn.Holds(config.lockKey)
    }

    /** A pending swap's names come from this run, and its target is no staging
        name. */
    ghost predicate Pending(s: Swap)
      reads this
    {
      && s.target.schema == config.schema && OwnedTokens(s.target.name).None?
      && s.staging == config.StagingKey(s.target.name) && s.staging in generated
    }

    function PlanOf(): Plan
      reads this
    {
      Plan(config.Run(), refills, resolved)
    }

    /** Every prepared staging table is as publish() left it. */
    ghost predicate Intact()
      reads this, server
    {
      forall s | s in pending :: Prepared(server.committed, s, PlanOf())
    }

    /** No explicit transaction, and nothing unwritten in an automatic one. */
    ghost predicate Idle()
      reads this, server, session
    {
      !explicitTx && (session != null ==> session.server == server && session.Quiet())
    }

    /** What a COMMIT of the open transaction would install. */
    ghost function Leftover(): Option<Database>
      reads this`session, session
    {
      if session != null && session.Committable() then session.work else None
    }

    ghost function Queued(): Queue
      reads this, publicationPlan
    {
      Queue(pending, PlanOf(), publicationPlan.steps, generated, written)
    }

    /** This publisher holds its own task's lock, on a session still alive. */
    ghost predicate Authorized()
      reads this, session
    {
      && lockedTask == Some(config.task) && !connectionLost
      && (session != null ==> !session.invalidated)
    }

    twostate predicate SameServer()
      reads server
    {
      server.committed == old(server.committed) && server.versions == old(server.versions)
    }

    constructor (on: Server, c: Config, plan: PublicationPlan, otherSessions: OtherSessions)
      requires c.Valid() && on.Valid()
      ensures Valid() && Intact() && Idle() && session == null && pending == [] && generated == {}
      ensures server == on && config == c && publicationPlan == plan && !connectionLost && lockedTask == None
      ensures others == otherSessions && attempts == [] && resolved == map[] && refills == {}
    {
      server := on;
      others := otherSessions;
      config := c;
      publicationPlan := plan;
      session := null;
      connectionLost := false;
      lockedTask := None;
      explicitTx := false;
      pending := [];
      resolved := map[];
      refills := {};
      generated := {};
      written := [];
      committedTables := [];
      committed := false;
      attempts := [];
    }

    /** The session is lost, whether that has been noticed or not. */
    ghost predicate Lost()
      reads this`connectionLost, this`session, session
    {
      connectionLost || (session != null && session.invalidated)
    }

    // -- the session ---------------------------------------------------------------

    /** Never connected, connected, or lost; a lost session is never replaced. */
    method EnsureConnection() returns (r: Outcome<Session>)
      requires Valid()
      modifies this`session, this`connectionLost, this`lockedTask
      ensures Valid()
      ensures r.Done? ==>
        && r.value == session && session != null && !session.invalidated && !connectionLost
        && lockedTask == old(lockedTask) && !old(connectionLost)
        && (old(session) != null ==> session == old(session))
        && (old(session) == null ==> fresh(session) && fresh(session.link) && session.work == None && session.Quiet())
      ensures r.Raised? ==> session == old(session)
      ensures r.Raised? ==> if r.error.Refused? then connectionLost else session == null
      ensures old(connectionLost) || (old(session) != null && old(session.invalidated)) ==>
        r == Raised(Refused) && (old(session) != null && old(session.invalidated) && !old(connectionLost) ==>
          connectionLost && lockedTask == None)
      ensures connectionLost == (old(connectionLost) || (old(session) != null && old(session.invalidated)))
    {
      if connectionLost {
        return Raised(Refused);
      }
      if session != null && session.invalidated {
        MarkConnectionLost();
        return Raised(Refused);
      }
      if session == null {
        var fails: bool := *;
        if fails {
          var e := AnyError();
          return Raised(e);
        }
        session := new Session(server);
      }
      r := Done(session);
    }

    method MarkConnectionLost()
      modifies this`connectionLost, this`lockedTask
      ensures connectionLost && lockedTask == None
    {
      connectionLost := true;
      lockedTask := None;
    }

    method NoteConnectionLoss() returns (lost: bool)
      requires Valid()
      modifies this`connectionLost, this`lockedTask
      ensures lost == (old(connectionLost) || (session != null && session.invalidated)) == connectionLost
      ensures !lost ==> lockedTask == old(lockedTask)
      ensures lockedTask.Some? ==> lockedTask == old(lockedTask)
    {
      if connectionLost {
        return true;
      }
      if session != null && session.invalidated {
        MarkConnectionLost();
        return true;
      }
      lost := false;
    }

    method RequireTaskLock() returns (r: Outcome<()>)
      requires Valid()
      modifies this`session, this`connectionLost, this`lockedTask
      ensures Valid()
      ensures r.Done? <==> old(Authorized()) && session != null
      ensures r.Done? ==>
        && lockedTask == Some(config.task) && lockedTask == old(lockedTask)
        && session == old(session) && !session.invalidated && !connectionLost
      ensures session == old(session)
        || (old(session) == null && fresh(session) && fresh(session.link) && session.Quiet())
      ensures r == Raised(Refused) ==> !old(Authorized())
      ensures r.Raised? && !r.error.Refused? ==> session == null
    {
      var _ :- EnsureConnection();
      if lockedTask.None? || lockedTask.value != config.task {
        return Raised(Refused);
      }
      r := Done(());
    }

    method EnsureTransaction(conn: Session) returns (r: Outcome<()>)
      requires Valid() && conn == session && !conn.invalidated && Idle()
      modifies this`explicitTx, conn, server
      ensures Valid() && SameServer() && Blamed(conn.trace, r)
      ensures r.Done? ==>
        && explicitTx && !conn.invalidated && !conn.aborted
        && conn.work == Some(server.committed)
      ensures r.Raised? ==> !explicitTx && !r.error.Refused? && OnlyRead(conn, Some(server.committed))
    {
      if conn.work.Some? {
        var _ :- conn.Commit();
      }
      var _ :- conn.Query();
      explicitTx := true;
      r := Done(());
    }

    method CommitTransaction(conn: Session) returns (r: Outcome<()>)
      requires Valid() && conn == session && !conn.invalidated
      modifies this`explicitTx, conn, server
      ensures Valid() && Blamed(conn.trace, r)
      ensures r != Raised(Interrupted) ==> conn.work == None && !conn.aborted
      ensures r.Done? ==> !explicitTx && !conn.invalidated
      ensures r.Done? ==> conn.Applied(old(conn.work), old(conn.aborted), old(server.committed), old(server.versions))
      ensures r.Raised? ==> !r.error.Refused?
      ensures r.Raised? ==>
        || (SameServer() && conn.Kept())
        || (Unacknowledged(r.error) && conn.work == None
            && conn.Applied(old(conn.work), old(conn.aborted), old(server.committed), old(server.versions)))
    {
      var _ :- conn.Commit();
      explicitTx := false;
      r := Done(());
    }

    /** The server has a transaction open for this publisher. */
    ghost predicate Open()
      reads this, session
    {
      session != null && !session.invalidated && session.work.Some?
    }

    /** The statements a session issued since. */
    ghost function Since(conn: Session, before: seq<Issued>): seq<Issued>
      reads conn
    {
      if |before| <= |conn.trace| then conn.trace[|before|..] else []
    }

    /** ROLLBACK, of a transaction that is open and no other.  Its failure is
        swallowed; interrupted, it escapes before the transaction is forgotten,
        which may then still be open at the server. */
    method DropOpenTransaction() returns (r: Outcome<()>)
      requires Valid()
      modifies this`explicitTx, session
      ensures Valid() && session == old(session)
      ensures r.Done? ==> Idle() && (session != null ==> session.work == None)
      ensures session != null && !old(Open()) ==> session.trace == old(session.trace) && r.Done?
      ensures session != null && !old(Open()) ==> session.invalidated == old(session.invalidated)
      ensures session == null ==> r.Done?
      ensures old(Open()) ==>
        && |session.trace| == |old(session.trace)| + 1 && old(session.trace) <= session.trace
        && var last := session.trace[|old(session.trace)|];
          && last.statement == RollbackSql
          && (session.invalidated <==> last.fault == Some(Driver(ConnectionLost)))
          && r == (if last.fault == Some(Interrupted) then Raised(Interrupted) else Done(()))
      ensures r.Raised? ==> explicitTx == old(explicitTx)
      ensures r.Raised? && session.work.Some? ==>
        session.work == old(session.work) && session.aborted == old(session.aborted)
    {
      if session != null && !session.invalidated && session.work.Some? {
        r := session.Rollback();
        if r == Raised(Interrupted) {
          return;
        }
      }
      explicitTx := false;
      r := Done(());
    }

    // -- preparing an output --------------------------------------------------------

    /** A fresh target name makes a fresh staging name, apart from everything
        pending. */
    lemma FreshSwap(s: Swap)
      requires Valid() && s.target.schema == config.schema && OwnedTokens(s.target.name).None?
      requires s.staging == config.StagingKey(s.target.name) && s.staging !in generated
      ensures forall t | t in pending :: t.target != s.target && t.staging != s.staging
      ensures s.target != s.staging && forall t | t in pending :: t.target != s.staging && s.target != t.staging
    {
      StagingShape(s.target.name);
      forall t | t in pending
        ensures t.target != s.target && t.staging != s.staging && t.target != s.staging && s.target != t.staging
      {
        StagingShape(t.target.name);
      }
    }

    lemma StagingShape(table: string)
      requires config.Valid()
      ensures OwnedTokens(config.StagingKey(table).name)
           == Some((TargetToken(config.digest, Some(config.schema), table), config.token))
    {
      StagingNameOwned(config.digest, Some(config.schema), table, config.token, config.maxBytes);
    }

    lemma PendingSeparate()
      requires Valid()
      ensures Separate(SwapSet(pending)) && !HasDuplicates(pending)
    {
      forall s, t | s in pending && t in pending
        ensures s.target != t.staging
        ensures s != t ==> s.target != t.target && s.staging != t.staging
      {
        StagingShape(t.target.name);
        if s != t {
          var i :| 0 <= i < |pending| && pending[i] == s;
          var j :| 0 <= j < |pending| && pending[j] == t;
          assert i != j;
        }
      }
    }

    /** The statements of one preparation transaction. */
    method Stage(conn: Session, p: Payload, s: Swap) returns (r: Outcome<()>)
      requires config.Valid() && conn.Valid() && !conn.invalidated && !conn.aborted && conn.work.Some?
      requires RowShape(p) && s == Swap(Key(p.schema, p.table), config.StagingKey(p.table), |p.rows|)
      modifies conn
      ensures conn.Valid() && Blamed(conn.trace, r) && r != Raised(Refused)
      ensures r.Done? ==>
        && !conn.invalidated && !conn.aborted && conn.work.Some?
        && Staged(config, old(conn.work).value, conn.work.value, p, s)
      ensures r.Raised? && conn.Committable() ==> PartStaged(config, old(conn.work).value, conn.work.value, p, s)
    {
      ghost var before := conn.work.value;
      var columns := Attributes(p.columns);
      var _ :- conn.Execute(CreateTable(conn.work.value, s.staging, columns));
      var loaded :- LoadRows(conn, s.staging, p.rows, config.chunkSize);
      assert [] + p.rows == p.rows;
      if loaded != |p.rows| {
        return Raised(Refused);
      }
      var actual :- FindRelation(conn, s.staging);
      if actual.None? || ColumnNames(actual.value.columns) != ColumnNames(columns) {
        return Raised(Refused);
      }
      var _ :- conn.Execute(CommentOn(conn.work.value, s.staging, StagingComment(OwnerOf(config.Run(), s))));
      r := Done(());
    }

    /** One preparation transaction, begun and committed. */
    method StageCommitted(conn: Session, p: Payload, s: Swap) returns (r: Outcome<()>)
      requires Valid() && Idle() && conn == session && !conn.invalidated
      requires RowShape(p) && s == Swap(Key(p.schema, p.table), config.StagingKey(p.table), |p.rows|)
      modifies this`explicitTx, conn, server
      ensures Valid() && Blamed(conn.trace, r) && r != Raised(Refused)
      ensures r.Done? ==> Idle() && !conn.invalidated && Staged(config, old(server.committed), server.committed, p, s)
      ensures r.Raised? ==> Unpublished(r.error, p, s)
    {
      var _ :- EnsureTransaction(conn);
      var _ :- Stage(conn, p, s);
      var _ :- CommitTransaction(conn);
      r := Done(());
    }

    /** A failed preparation: nothing committed, and at most that table begun in
        the open transaction; or the table committed, unacknowledged. */
    twostate predicate Unpublished(e: Error, p: Payload, s: Swap)
      reads this, server, session
    {
      || (SameServer() && (Leftover().Some? ==> PartStaged(config, server.committed, Leftover().value, p, s)))
      || (Unacknowledged(e) && Leftover().None? && Staged(config, old(server.committed), server.committed, p, s))
    }

    method Record(p: Payload, s: Swap)
      requires Valid() && s.staging !in generated
      requires s == Swap(Key(config.schema, p.table), config.StagingKey(p.table), |p.rows|)
      requires OwnedTokens(p.table).None?
      modifies this`generated, this`written, this`resolved, this`refills, this`pending
      ensures Valid() && Recorded(p, s)
    {
      FreshSwap(s);
      ghost var before := pending;
      generated := generated + {s.staging};
      written := written + [s];
      resolved := resolved[s.target := p.columns];
      if p.refill {
        refills := refills + {s.target};
      }
      pending := pending + [s];
      forall t | t in pending
        ensures Pending(t)
      {
        assert t in before || t == s;
      }
      forall i, j | 0 <= i < j < |pending|
        ensures pending[i].target != pending[j].target && pending[i].staging != pending[j].staging
      {
        assert pending[i] in before;
      }
    }

    twostate predicate Recorded(p: Payload, s: Swap)
      reads this
    {
      && pending == old(pending) + [s]
      && resolved == old(resolved)[s.target := p.columns]
      && refills == (if p.refill then old(refills) + {s.target} else old(refills))
      && generated == old(generated) + {s.staging}
      && written == old(written) + [s]
    }

    /** Prepare one output in its own committed transaction.  The live table is
        not touched; a failure may leave the transaction open. */
    method Publish(p: Payload) returns (r: Outcome<Swap>)
      requires Valid() && Intact() && Idle() && OwnedTokens(p.table).None?
      modifies this, server, session
      ensures Valid() && Intact()
      ensures !old(Authorized()) ==> r.Raised? && SameServer()
      ensures r.Done? ==>
        && Idle() && Authorized() && Recorded(p, r.value)
        && Staged(config, old(server.committed), server.committed, p, r.value)
      ensures r.Raised? ==>
        && Queued() == old(Queued())
        && Unpublished(r.error, p, Swap(Key(p.schema, p.table), config.StagingKey(p.table), |p.rows|))
      ensures r == Raised(Refused) ==> !old(Authorized()) || Unpublishable(config, old(generated), p)
      ensures Unpublishable(config, old(generated), p) ==> r.Raised? && SameServer()
      ensures session == old(session) || (old(session) == null && fresh(session))
      ensures session != null ==> Blamed(session.trace, r)
    {
      var _ :- RequireTaskLock();
      if p.schema != config.schema || !RowShape(p) {
        return Raised(Refused);
      }
      var s := Swap(Key(p.schema, p.table), config.StagingKey(p.table), |p.rows|);
      if |Utf8.Encode(s.staging.name)| > config.maxBytes || s.staging in generated {
        return Raised(Refused);
      }
      FreshSwap(s);
      var conn := EnsureConnection();
      r := StageThenRecord(conn.value, p, s);
    }

    method StageThenRecord(conn: Session, p: Payload, s: Swap) returns (r: Outcome<Swap>)
      requires Valid() && Intact() && Idle() && conn == session && !conn.invalidated
      requires RowShape(p) && p.schema == config.schema && OwnedTokens(p.table).None?
      requires s == Swap(Key(p.schema, p.table), config.StagingKey(p.table), |p.rows|) && s.staging !in generated
      requires forall t | t in pending :: t.target != s.target && t.staging != s.staging
      modifies this, server, conn
      ensures Valid() && Intact() && Blamed(conn.trace, r) && r != Raised(Refused)
      ensures session == old(session)
      ensures r.Done? ==> (Authorized() <==> old(Authorized()))
      ensures r.Done? ==>
        && r.value == s && Idle() && Recorded(p, s)
        && Staged(config, old(server.committed), server.committed, p, s)
      ensures r.Raised? ==> Queued() == old(Queued()) && Unpublished(r.error, p, s)
    {
      ghost var before, plan := server.committed, PlanOf();
      var staged := StageCommitted(conn, p, s);
      if staged.Raised? {
        if server.committed != before {
          StagedPrepares(config, before, server.committed, p, s, pending, plan, plan);
        }
        return Raised(staged.error);
      }
      Record(p, s);
      StagedPrepares(config, before, server.committed, p, s, old(pending), plan, PlanOf());
      r := Done(s);
    }

    // -- publishing ------------------------------------------------------------------

    ghost function Start(): Snapshot
      reads this, server, publicationPlan
    {
      Snapshot(server.committed, server.versions, Queued())
    }

    /** Every pending target and all queued state work, committed at once: other
        sessions go from the old version straight to this one. */
    ghost predicate PublishedFrom(b: Snapshot)
      reads server
    {
      && RunSteps(b.queue.steps, b.db.state).Ok?
      && Committed(b.db, server.committed, b.queue.pending, b.queue.plan, RunSteps(b.queue.steps, b.db.state).value)
      && server.versions == Extended(b.versions, b.db, server.committed)
    }

    method RunQueued(conn: Session, plan: Plan, ghost before: Database, ghost done: set<Swap>, ghost swaps: set<Swap>)
      returns (r: Outcome<()>)
      requires Progress(conn, before, done, plan, before.state)
      modifies conn
      ensures conn.Valid() && Blamed(conn.trace, r) && r != Raised(Refused)
      ensures r.Done? ==>
        && RunSteps(publicationPlan.steps, before.state).Ok?
        && Progress(conn, before, done, plan, RunSteps(publicationPlan.steps, before.state).value)
      ensures r.Raised? && conn.Committable() && done <= swaps && OnlyCreating(before, Extent(0, done, None), plan) ==>
        Attempted(before, conn.work.value, swaps, plan, WritesOf(publicationPlan.steps))
    {
      ghost var now, writes := conn.work.value, WritesOf(publicationPlan.steps);
      r := publicationPlan.Run(conn);
      if r.Raised? && conn.Committable() {
        ghost var n :| 0 <= n <= |writes| && WrittenTo(now, conn.work.value, writes, n);
        PartlyState(before, now, conn.work.value, done, plan);
        assert done <= swaps && OnlyCreating(before, Extent(0, done, None), plan) ==>
          AttemptedTo(before, conn.work.value, swaps, plan, writes, Extent(n, done, None));
      }
    }

    /** The pending swaps in publication order, all prepared and separate. */
    lemma OrderedPending()
      requires Valid() && Intact()
      ensures var order := Sorted(pending);
        && SwapSet(order) == SwapSet(pending) && Separate(SwapSet(order)) && !HasDuplicates(order)
        && Ordered(order) && |order| == |pending|
        && forall s | s in order :: Prepared(server.committed, s, PlanOf())
    {
      PendingSeparate();
      SortedSame(pending);
      SortedIsOrdered(pending);
      assert forall s | s in Sorted(pending) :: s in SwapSet(Sorted(pending)) && s in SwapSet(pending);
    }

    /** A reason to refuse an attempt: an artifact no longer its own, a live
        relation in the way, or no budget left to lock in at some time. */
    ghost predicate Refusal(b: Snapshot, deadline: real, from: real, to: real)
      requires config.policy.Valid()
    {
      || (exists s | s in b.queue.pending :: !Owned(b.db, s, b.queue.plan.run) || Unfit(b.db, s, b.queue.plan))
      || (exists t, n: nat | from <= t <= to && n <= |b.queue.pending| :: SpentAt(config.policy, deadline, t, n))
    }

    /** What an attempt does before it asks for a lock: verify, build absent
        refill targets, run the queued steps. */
    method BeforeLocks(conn: Session, plan: Plan, order: seq<Swap>) returns (r: Outcome<set<Swap>>)
      requires Valid() && Intact() && conn == session && !conn.invalidated && !conn.aborted
      requires conn.work == Some(server.committed) && plan == PlanOf()
      requires Separate(SwapSet(order)) && !HasDuplicates(order) && SwapSet(order) == SwapSet(pending)
      requires forall s | s in order :: Prepared(server.committed, s, plan)
      modifies conn
      ensures Valid() && Blamed(conn.trace, r)
      ensures r.Done? ==>
        && RunSteps(publicationPlan.steps, server.committed.state).Ok?
        && Progress(conn, server.committed, r.value, plan,
             RunSteps(publicationPlan.steps, server.committed.state).value)
        && r.value <= SwapSet(order) && (forall s | s in r.value :: plan.Refill(s))
        && Preflighted(server.committed, order, r.value, plan)
      ensures r.Raised? ==> LeftOf(conn, plan)
      ensures r == Raised(Refused) ==>
        exists s | s in pending :: !Owned(server.committed, s, plan.run) || Unfit(server.committed, s, plan)
    {
      ghost var before, swaps, writes := server.committed, SwapSet(pending), WritesOf(publicationPlan.steps);
      AttemptedNothing(before, swaps, plan, writes);
      var _ :- VerifyArtifacts(conn, pending, plan.run);
      var created := PrepareRefills(conn, order, plan);
      if created.Raised? {
        if conn.Committable() {
          AttemptedBuilding(before, conn.work.value, swaps, plan, writes);
        }
        if created.error.Refused? {
          ghost var s :| s in order && Unfit(before, s, plan);
          assert s in SwapSet(order) && s in SwapSet(pending);
        }
        return created;
      }
      var _ :- RunQueued(conn, plan, before, created.value, swaps);
      r := created;
    }

    /** What a failed attempt leaves in its transaction: part of its work. */
    ghost predicate LeftOf(conn: Session, plan: Plan)
      reads this, server, publicationPlan, conn
    {
      conn.Committable() ==>
        Attempted(server.committed, conn.work.value, SwapSet(pending), plan, WritesOf(publicationPlan.steps))
    }

    /** The locks of one attempt, and the work under them. */
    method LockAndPublish(conn: Session, plan: Plan, order: seq<Swap>, created: set<Swap>,
        deadline: real, start: real)
      returns (r: Outcome<()>, end: real)
      requires Valid() && conn == session
      requires conn.work.Some? && Progress(conn, server.committed, created, plan, conn.work.value.state)
      requires Ordered(order) && Separate(SwapSet(order)) && !HasDuplicates(order) && created <= SwapSet(order)
      requires forall s | s in order :: Prepared(server.committed, s, plan)
      requires Preflighted(server.committed, order, created, plan) && forall s | s in created :: plan.Refill(s)
      modifies conn
      ensures Valid() && end >= start && Blamed(conn.trace, r)
      ensures r.Done? ==>
        Progress(conn, server.committed, SwapSet(order), plan, old(conn.work).value.state)
      ensures r.Raised? && conn.Committable() ==>
        && Swapping(server.committed, conn.work.value, SwapSet(order), plan)
        && conn.work.value.state == old(conn.work).value.state
      ensures r == Raised(Refused) ==>
        || (exists s | s in order :: Unfit(server.committed, s, plan))
        || (exists t, n: nat | start <= t <= end && n <= |order| :: SpentAt(config.policy, deadline, t, n))
    {
      ghost var now := conn.work.value;
      var locked, locksEnd, asked, budgets := LockTargets(conn, order, created, config.policy, deadline, start);
      end := locksEnd;
      if locked.Raised? {
        assert Reached(server.committed, now, Extent(0, created, None), plan);
        if locked.error.Refused? {
          LockRefused(server.committed, now, order, created, plan);
          ghost var names := ToLock(now, order, created);
          assert !AllOrdinary(now, names) || SpentAt(config.policy, deadline, asked, |names|);
        }
        return Raised(locked.error), end;
      }
      LockedEnough(server.committed, conn.work.value, order, created, plan, conn.locks);
      r := PublishTargets(conn, order, plan, created, server.committed);
    }

    /** Everything of an attempt up to its COMMIT. */
    method AttemptWork(conn: Session, deadline: real, start: real) returns (r: Outcome<()>, end: real)
      requires Valid() && Intact() && conn == session && !conn.invalidated && !conn.aborted
      requires conn.work == Some(server.committed)
      modifies conn
      ensures Valid() && end >= start && Blamed(conn.trace, r)
      ensures r.Done? ==>
        && !conn.invalidated && !conn.aborted && conn.work.Some?
        && RunSteps(publicationPlan.steps, server.committed.state).Ok?
        && Committed(server.committed, conn.work.value, pending, PlanOf(),
             RunSteps(publicationPlan.steps, server.committed.state).value)
      ensures r.Raised? ==> LeftOf(conn, PlanOf())
      ensures r == Raised(Refused) ==> Refusal(Start(), deadline, start, end)
    {
      end := start;
      var plan, order := PlanOf(), Sorted(pending);
      OrderedPending();
      var created := BeforeLocks(conn, plan, order);
      if created.Raised? {
        return Raised(created.error), end;
      }
      r, end := LockAndPublish(conn, plan, order, created.value, deadline, start);
      if r.Raised? && conn.Committable() {
        AttemptedSwapping(
          server.committed, conn.work.value, SwapSet(pending), plan, WritesOf(publicationPlan.steps));
      }
      assert r == Raised(Refused) ==> forall s | s in order :: s in SwapSet(order) && s in SwapSet(pending);
    }

    /** A failed attempt: nothing visible, and at most part of its work left in
        the open transaction; unless its COMMIT took effect without being
        acknowledged. */
    ghost predicate FailedFrom(b: Snapshot, e: Error)
      reads this`session, server, session
    {
      || (server.committed == b.db && server.versions == b.versions && LeftFrom(b))
      || (Unacknowledged(e) && PublishedFrom(b) && Leftover().None?)
    }

    ghost predicate LeftFrom(b: Snapshot)
      reads this`session, session
    {
      Leftover().Some? ==>
        Attempted(b.db, Leftover().value, SwapSet(b.queue.pending), b.queue.plan, WritesOf(b.queue.steps))
    }

    method Transact(conn: Session, deadline: real, start: real) returns (r: Outcome<()>, end: real)
      requires Valid() && Intact() && Idle() && conn == session && !conn.invalidated
      modifies this`explicitTx, conn, server
      ensures Valid() && end >= start
      ensures r.Done? ==> Idle() && PublishedFrom(old(Start()))
      ensures r.Raised? ==> FailedFrom(old(Start()), r.error) && Blamed(conn.trace, r)
      ensures r == Raised(Refused) ==> Refusal(old(Start()), deadline, start, end)
    {
      end := start;
      ghost var b, writes := Start(), WritesOf(publicationPlan.steps);
      AttemptedNothing(b.db, SwapSet(pending), PlanOf(), writes);
      var begun := EnsureTransaction(conn);
      if begun.Raised? {
        return Raised(begun.error), end;
      }
      var worked, workEnd := AttemptWork(conn, deadline, start);
      end := workEnd;
      if worked.Raised? {
        return Raised(worked.error), end;
      }
      r := CommitAttempt(conn, b);
    }

    /** The COMMIT of an attempt that got through everything. */
    method CommitAttempt(conn: Session, ghost b: Snapshot) returns (r: Outcome<()>)
      requires Valid() && conn == session && !conn.invalidated && conn.Committable() && Start() == b
      requires RunSteps(b.queue.steps, b.db.state).Ok?
      requires Committed(b.db, conn.work.value, b.queue.pending, b.queue.plan,
        RunSteps(b.queue.steps, b.db.state).value)
      modifies this`explicitTx, conn, server
      ensures Valid()
      ensures r.Done? ==> Idle() && PublishedFrom(b)
      ensures r.Raised? ==> FailedFrom(b, r.error) && Blamed(conn.trace, r) && !r.error.Refused?
    {
      AttemptedAll(b.db, conn.work.value, b.queue.pending, b.queue.plan, WritesOf(b.queue.steps));
      r := CommitTransaction(conn);
    }

    twostate predicate QueueDone()
      reads this, publicationPlan
    {
      && pending == [] && resolved == map[] && refills == {} && publicationPlan.steps == []
      && generated == old(generated) && written == old(written)
      && committed && committedTables == written
    }

    /** A statement of this session raised that, or there is no session. */
    ghost predicate Faulted(e: Error)
      reads this`session, session
    {
      session != null ==> exists i | 0 <= i < |session.trace| :: session.trace[i].fault == Some(e)
    }

    /** Where a raised error comes from: refused for a lost session or one of
        the reasons above, raised by connecting, or raised by a statement. */
    ghost predicate Caused(e: Error, b: Snapshot, deadline: real, from: real, to: real)
      requires config.policy.Valid()
      reads this`connectionLost, this`session, session
    {
      if e.Refused? then connectionLost || Refusal(b, deadline, from, to) else Faulted(e)
    }

    method PublishOnce(deadline: real, start: real) returns (r: Outcome<seq<Swap>>, end: real)
      requires Valid() && Intact() && Idle()
      modifies this, server, session, publicationPlan
      ensures Valid() && end >= start && attempts == old(attempts)
      ensures session == old(session) || (old(session) == null && fresh(session))
      ensures r.Done? ==> Idle() && PublishedFrom(old(Start())) && QueueDone() && r.value == committedTables
      ensures r.Raised? ==> Queued() == old(Queued()) && FailedFrom(old(Start()), r.error)
      ensures r.Raised? ==> Caused(r.error, old(Start()), deadline, start, end)
    {
      end := start;
      AttemptedNothing(server.committed, SwapSet(pending), PlanOf(), WritesOf(publicationPlan.steps));
      var conn := EnsureConnection();
      if conn.Raised? {
        return Raised(conn.error), end;
      }
      r, end := PublishOn(conn.value, deadline, start);
    }

    method PublishOn(conn: Session, deadline: real, start: real) returns (r: Outcome<seq<Swap>>, end: real)
      requires Valid() && Intact() && Idle() && conn == session && !conn.invalidated
      modifies this, server, conn, publicationPlan
      ensures Valid() && end >= start && attempts == old(attempts) && session == old(session)
      ensures r.Done? ==> Idle() && PublishedFrom(old(Start())) && QueueDone() && r.value == committedTables
      ensures r.Raised? ==> Queued() == old(Queued()) && FailedFrom(old(Start()), r.error)
      ensures r.Raised? ==> Caused(r.error, old(Start()), deadline, start, end)
    {
      var done, doneEnd := Transact(conn, deadline, start);
      end := doneEnd;
      if done.Raised? {
        assert done.error.Refused? || session.trace[|session.trace| - 1].fault == Some(done.error);
        return Raised(done.error), end;
      }
      FinishQueue();
      r := Done(committedTables);
    }

    method FinishQueue()
      requires Valid()
      modifies this`pending, this`resolved, this`refills, this`committed, this`committedTables, publicationPlan
      ensures Valid() && QueueDone()
    {
      pending := [];
      resolved := map[];
      refills := {};
      publicationPlan.Clear();
      committed := true;
      committedTables := written;
    }

    /** Roll a failed attempt back; an interruption of that replaces what it
        raised, and may leave what there was. */
    method Undo(e: Error, ghost b: Snapshot, ghost deadline: real, ghost from: real, ghost to: real)
      returns (raised: Error)
      requires Valid() && Caused(e, b, deadline, from, to) && FailedFrom(b, e)
      modifies this`explicitTx, session
      ensures Valid() && session == old(session)
      ensures raised == e || raised == Interrupted
      ensures Caused(raised, b, deadline, from, to) && FailedFrom(b, raised)
      ensures raised != Interrupted ==> Idle()
    {
      ghost var before := if session != null then session.trace else [];
      var dropped := DropOpenTransaction();
      raised := if dropped.Raised? then dropped.error else e;
      if session != null && !raised.Refused? {
        if dropped.Raised? {
          assert session.trace[|before|].fault == Some(Interrupted);
        } else {
          ghost var i :| 0 <= i < |before| && before[i].fault == Some(e);
          assert session.trace[i] == before[i];
        }
      }
    }

    /** One attempt, rolled back when it fails, before anything is classified. */
    method Attempt(deadline: real, start: real, ghost slept: real) returns (r: Outcome<seq<Swap>>, end: real)
      requires Valid() && Intact() && Idle()
      modifies this, server, session, publicationPlan
      ensures Valid() && end >= start && (session == old(session) || (old(session) == null && fresh(session)))
      ensures attempts
        == old(attempts) + [LockPolicy.Attempt(start, end, r == Raised(Driver(LockUnavailable)), slept)]
      ensures r.Done? ==> Idle() && PublishedFrom(old(Start())) && QueueDone() && r.value == committedTables
      ensures r.Raised? ==> Queued() == old(Queued()) && FailedFrom(old(Start()), r.error)
      ensures r.Raised? ==> Caused(r.error, old(Start()), deadline, start, end)
      ensures r.Raised? && r.error != Interrupted ==> Idle()
      ensures r == Raised(Driver(LockUnavailable)) ==> Start() == old(Start()) && Intact()
    {
      ghost var b := Start();
      r, end := PublishOnce(deadline, start);
      if r.Raised? {
        var raised := Undo(r.error, b, deadline, start, end);
        end := Now(end);
        r := Raised(raised);
      }
      attempts := attempts + [LockPolicy.Attempt(start, end, r == Raised(Driver(LockUnavailable)), slept)];
    }

    /** Publish every prepared target and queued step atomically, retrying only
        while a target lock is unavailable.  Failed attempts leave no trace; the
        attempts made keep to the retry policy. */
    method Commit() returns (r: Outcome<seq<Swap>>, ghost started: real)
      requires Valid() && Intact() && Idle()
      modifies this, server, session, publicationPlan
      ensures Valid()
      ensures session == old(session) || (old(session) == null && fresh(session))
      ensures r.Done? ==> Idle() && PublishedFrom(old(Start())) && QueueDone() && r.value == committedTables
      ensures r.Raised? ==> Queued() == old(Queued()) && FailedFrom(old(Start()), r.error)
      ensures r.Raised? && r.error != Interrupted ==> Idle()
      ensures old(NeedsLock() && !Authorized()) ==> r.Raised? && SameServer()
      ensures attempts == [] ==> r.Raised? && old(NeedsLock()) && (r == Raised(Refused) ==> !old(Authorized()))
      ensures attempts == [] ==> !old(Authorized()) || session == null
      ensures attempts != [] ==> Settled(r, old(Start()), started)
      ensures |attempts| >= 2 ==>
        (|attempts| - 1) as real * config.policy.delayMin <= config.policy.horizon - config.policy.AcquisitionSeconds()
    {
      attempts, started := [], 0.0;
      if pending != [] || publicationPlan.steps != [] {
        var locked := RequireLockToCommit();
        if locked.Raised? {
          return Raised(locked.error), started;
        }
      }
      r, started := RetryUntilPublished();
      if |attempts| >= 2 {
        LockPolicy.RetryRunBounded(config.policy, started, attempts);
      }
    }

    method RequireLockToCommit() returns (r: Outcome<()>)
      requires Valid() && Idle()
      modifies this`session, this`connectionLost, this`lockedTask
      ensures Valid() && Idle() && Start() == old(Start())
      ensures session == old(session) || (old(session) == null && fresh(session))
      ensures r.Done? ==> session == old(session)
      ensures r.Done? <==> old(Authorized()) && session != null
      ensures r == Raised(Refused) ==> !old(Authorized())
      ensures r.Raised? ==> FailedFrom(old(Start()), r.error)
    {
      AttemptedNothing(server.committed, SwapSet(pending), PlanOf(), WritesOf(publicationPlan.steps));
      r := RequireTaskLock();
    }

    ghost predicate NeedsLock()
      reads this, publicationPlan
    {
      pending != [] || publicationPlan.steps != []
    }

    /** How the attempts ended: within the policy, each but the last failed for
        an unavailable lock; then published, given up with neither attempts nor
        horizon left, or raised for the cause the last attempt met. */
    ghost predicate Settled(r: Outcome<seq<Swap>>, b: Snapshot, started: real)
      requires config.policy.Valid() && attempts != []
      reads this`attempts, this`connectionLost, this`session, session
    {
      var last := attempts[|attempts| - 1];
      var deadline := started + config.policy.horizon;
      && LockPolicy.RetryRun(config.policy, started, attempts) && |attempts| <= config.policy.maxAttempts
      && (r.Done? ==> !last.retryable)
      && (r.Raised? && last.retryable ==>
            && r == Raised(Refused)
            && (|attempts| == config.policy.maxAttempts
                || deadline - last.failed < config.policy.acquisitionMs as real / 1000.0 + config.policy.delayMin))
      && (r.Raised? && !last.retryable ==> Caused(r.error, b, deadline, last.start, last.failed))
    }

    method RetryUntilPublished() returns (r: Outcome<seq<Swap>>, ghost started: real)
      requires Valid() && Intact() && Idle() && attempts == []
      modifies this, server, session, publicationPlan
      ensures Valid()
      ensures session == old(session) || (old(session) == null && fresh(session))
      ensures r.Done? ==> Idle() && PublishedFrom(old(Start())) && QueueDone() && r.value == committedTables
      ensures r.Raised? ==> Queued() == old(Queued()) && FailedFrom(old(Start()), r.error)
      ensures r.Raised? && r.error != Interrupted ==> Idle()
      ensures attempts != [] && Settled(r, old(Start()), started)
    {
      var begun := Now(0.0);
      started := begun;
      var deadline := begun + config.policy.horizon;
      var start := begun;
      var attempt := 0;
      ghost var b, slept := Start(), 0.0;
      while true
        invariant 0 <= attempt < config.policy.maxAttempts && |attempts| == attempt
        invariant Valid() && Intact() && Idle() && Start() == b
        invariant session == old(session) || (old(session) == null && fresh(session))
        invariant Ready(config.policy, started, attempts, start, slept)
        decreases config.policy.maxAttempts - attempt
      {
        attempt := attempt + 1;
        var ended, next, pause := Try(deadline, start, attempt, started, slept);
        if ended.Some? {
          return ended.value, started;
        }
        start, slept := next, pause;
      }
    }

    /** One attempt, then, if it failed on an unavailable lock, the wait for the
        next, if there is to be one. */
    method Try(deadline: real, start: real, attempt: nat, ghost started: real, ghost slept: real)
      returns (ended: Option<Outcome<seq<Swap>>>, next: real, ghost pause: real)
      requires Valid() && Intact() && Idle() && |attempts| < config.policy.maxAttempts && attempt == |attempts| + 1
      requires deadline == started + config.policy.horizon && Ready(config.policy, started, attempts, start, slept)
      modifies this, server, session, publicationPlan
      ensures Valid() && |attempts| == attempt
      ensures session == old(session) || (old(session) == null && fresh(session))
      ensures ended.None? ==>
        && Intact() && Idle() && Start() == old(Start())
        && attempt < config.policy.maxAttempts && Ready(config.policy, started, attempts, next, pause)
      ensures ended.Some? ==> Concluded(ended.value, old(Start()), started)
      ensures ended.Some? && ended.value.Done? ==> QueueDone()
      ensures ended.Some? && ended.value.Raised? ==> Queued() == old(Queued())
    {
      ghost var before := attempts;
      next, pause := start, slept;
      var once, end := Attempt(deadline, start, slept);
      MadeAttempt(config.policy, started, before, start, end, once == Raised(Driver(LockUnavailable)), slept);
      if once.Done? || once.error != Driver(LockUnavailable) {
        return Some(once), next, pause;
      }
      var later;
      later, pause := Backoff(config.policy, attempt, deadline - end, end);
      if later.None? {
        return Some(Raised(Refused)), next, pause;
      }
      next := later.value;
      ended := None;
    }

    /** What a commit that made attempts ends with. */
    ghost predicate Concluded(r: Outcome<seq<Swap>>, b: Snapshot, started: real)
      requires config.policy.Valid()
      reads this, server, session
    {
      && attempts != [] && Settled(r, b, started)
      && (r.Done? ==> Idle() && PublishedFrom(b) && r.value == committedTables)
      && (r.Raised? ==> FailedFrom(b, r.error) && (r.error != Interrupted ==> Idle()))
    }

    // -- claiming and cleaning up ------------------------------------------------------

    /** pg_try_advisory_lock: granted exactly when no other session holds the
        task's lock; acquiring twice is refused, since the server counts session
        locks. */
    method TryAcquireTaskLock() returns (r: Outcome<bool>)
      requires Valid() && Idle()
      modifies this`session, this`connectionLost, this`lockedTask, session,
        if session != null then {session.link} else {}
      ensures Valid()
      ensures session == old(session) || (old(session) == null && fresh(session) && fresh(session.link))
      ensures old(lockedTask).Some? ==> r == Raised(Refused) && lockedTask == old(lockedTask)
      ensures r.Done? ==>
        && session != null && !session.invalidated && !connectionLost && Idle()
        && (r.value <==> config.lockKey !in others.held)
        && lockedTask == (if r.value then Some(config.task) else None)
        && (r.value ==> session.Holds(config.lockKey))
      ensures r.Raised? ==> Nothing()
      ensures r == Raised(Refused) ==> old(lockedTask.Some? || Lost())
      ensures session != null ==> Blamed(session.trace, r)
    {
      if lockedTask.Some? {
        return Raised(Refused);
      }
      var conn :- EnsureConnection();
      var acquired :- conn.TryLock(others, config.lockKey);
      lockedTask := if acquired then Some(config.task) else None;
      r := Done(acquired);
    }

    /** A COMMIT would install nothing new. */
    ghost predicate Nothing()
      reads this`session, server, session
    {
      Leftover().Some? ==> Leftover().value == server.committed
    }

    /** A failed cleanup: nothing committed, and at most part of it left in the
        open transaction; or all of it committed, unacknowledged. */
    twostate predicate Unclean(e: Error)
      reads this, server, session
    {
      || (SameServer() && (Leftover().Some? ==> PartCleaned(config, server.committed, Leftover().value)))
      || (Unacknowledged(e) && Leftover().None? && WithoutAbandoned(config, old(server.committed), server.committed))
    }

    /** Drop the staging tables of dead predecessors: exactly those positively
        identified, and nothing else. */
    method CleanupPredecessorArtifacts() returns (r: Outcome<set<Key>>)
      requires Valid() && Idle()
      modifies this`session, this`connectionLost, this`lockedTask, session, server
      ensures Valid()
      ensures session == old(session) || (old(session) == null && fresh(session) && fresh(session.link))
      ensures !old(Authorized()) ==> r.Raised? && SameServer()
      ensures r.Done? ==>
        && Idle() && Authorized() && WithoutAbandoned(config, old(server.committed), server.committed)
        && r.value == set k | k in old(server.committed.tables) && Abandoned(config, k, old(server.committed.tables)[k])
      ensures r.Raised? ==> Unclean(r.error)
      ensures r == Raised(Refused) ==> !old(Authorized())
      ensures session != null ==> Blamed(session.trace, r)
    {
      var _ :- RequireTaskLock();
      var ensured := EnsureConnection();
      var conn := ensured.value;
      var _ :- conn.Query();
      var dropped :- DropAbandoned(conn);
      var _ :- conn.Commit();
      r := Done(dropped);
    }

    /** One scanned table: dropped if abandoned, else passed over. */
    method CleanOne(conn: Session, k: Key, scan: Database, ghost seen: set<Key>, dropped: set<Key>)
      returns (r: Outcome<set<Key>>)
      requires conn.Valid() && !conn.invalidated && !conn.aborted && conn.work.Some?
      requires k in scan.tables && k !in seen && seen <= scan.tables.Keys
      requires CleanedTo(config, scan, conn.work.value, seen, dropped)
      modifies conn
      ensures conn.Valid() && r != Raised(Refused) && Blamed(conn.trace, r)
      ensures r.Done? ==>
        && !conn.invalidated && !conn.aborted && conn.work.Some?
        && CleanedTo(config, scan, conn.work.value, seen + {k}, r.value)
      ensures r.Raised? && conn.Committable() ==> PartCleaned(config, scan, conn.work.value)
    {
      CleanedNext(config, scan, conn.work.value, seen, dropped, k);
      CleanedPart(config, scan, conn.work.value, seen, dropped, k);
      if !Abandoned(config, k, scan.tables[k]) {
        return Done(dropped);
      }
      var _ :- conn.Execute(DropIfExists(conn.work.value, k));
      r := Done(dropped + {k});
    }

    method DropAbandoned(conn: Session) returns (r: Outcome<set<Key>>)
      requires conn.Valid() && !conn.invalidated && !conn.aborted && conn.work.Some?
      modifies conn
      ensures conn.Valid() && r != Raised(Refused) && Blamed(conn.trace, r)
      ensures r.Raised? && conn.Committable() ==> PartCleaned(config, old(conn.work).value, conn.work.value)
      ensures r.Done? ==>
        && !conn.invalidated && !conn.aborted && conn.work.Some?
        && WithoutAbandoned(config, old(conn.work).value, conn.work.value)
        && r.value == set k | k in old(conn.work).value.tables && Abandoned(config, k, old(conn.work).value.tables[k])
    {
      var before := conn.work.value;
      var rest := before.tables.Keys;
      var dropped: set<Key> := {};
      ghost var seen: set<Key> := {};
      CleanedStart(config, before);
      while rest != {}
        invariant conn.Valid() && !conn.invalidated && !conn.aborted && conn.work.Some?
        invariant rest + seen == before.tables.Keys && rest !! seen
        invariant CleanedTo(config, before, conn.work.value, seen, dropped)
        decreases |rest|
      {
        var k :| k in rest;
        dropped :- CleanOne(conn, k, before, seen, dropped);
        rest := rest - {k};
        seen := seen + {k};
      }
      CleanedAll(config, before, conn.work.value, dropped);
      r := Done(dropped);
    }

    /** Cleaning up after predecessors leaves what this run has prepared. */
    twostate lemma PreparedKept()
      requires Valid() && old(Intact()) && Queued() == old(Queued())
      requires SameServer() || WithoutAbandoned(config, old(server.committed), server.committed)
      ensures Intact()
    {
      if !SameServer() {
        forall s | s in pending
          ensures Prepared(server.committed, s, PlanOf())
        {
          OwnKept(config, old(server.committed), server.committed, s, PlanOf());
        }
      }
    }

    /** Connect, read the server's identifier limit, and ask for the lock. */
    method Claim() returns (r: Outcome<bool>)
      requires Valid() && Idle() && lockedTask.None?
      modifies this`session, this`connectionLost, this`lockedTask, session,
        if session != null then {session.link} else {}
      ensures Valid() && (session == old(session) || (old(session) == null && fresh(session) && fresh(session.link)))
      ensures r.Done? ==> Idle() && (r.value <==> config.lockKey !in others.held)
      ensures r == Done(true) ==> Authorized() && session != null && session.Holds(config.lockKey)
      ensures r == Done(false) ==> lockedTask == None
      ensures r.Raised? ==> Nothing()
      ensures r == Raised(Refused) ==> old(Lost())
      ensures session != null ==> Blamed(session.trace, r)
    {
      var conn :- EnsureConnection();
      var _ :- conn.Query();
      r := TryAcquireTaskLock();
    }

    /** Claim this task for this run: true exactly when no other session holds
        it, with every predecessor's staging table gone. */
    method BeginRun() returns (r: Outcome<bool>)
      requires Valid() && Intact() && Idle() && lockedTask.None?
      modifies this`session, this`connectionLost, this`lockedTask, session, server,
        if session != null then {session.link} else {}
      ensures Valid() && Intact()
      ensures session == old(session) || (old(session) == null && fresh(session) && fresh(session.link))
      ensures r.Done? ==> Idle() && (r.value <==> config.lockKey !in others.held)
      ensures r == Done(true) ==>
        && Authorized() && session != null && session.Holds(config.lockKey)
        && WithoutAbandoned(config, old(server.committed), server.committed)
      ensures r == Done(false) ==> lockedTask == None && SameServer()
      ensures r.Raised? ==> Unclean(r.error)
      ensures r == Raised(Refused) ==> old(Lost())
      ensures session != null ==> Blamed(session.trace, r)
    {
      r := Claim();
      if r != Done(true) {
        return;
      }
      var cleaned := CleanupPredecessorArtifacts();
      PreparedKept();
      if cleaned.Raised? {
        r := Raised(cleaned.error);
      }
    }

    // -- giving up and closing --------------------------------------------------------------

    /** A statement failed. */
    ghost predicate Faulty(issued: seq<Issued>) {
      exists i | 0 <= i < |issued| :: issued[i].fault.Some?
    }

    /** Abort: forget the queue, roll the open transaction back, drop this run's
        staging tables, and raise nothing but an interruption.  A session known
        to be lost gets no statement.  When it is the ROLLBACK that meets the
        loss, nothing looks again: the driver reconnects for the drops, which
        then run without the advisory lock. */
    method Rollback() returns (r: Outcome<()>)
      requires Valid()
      modifies this, server, session, publicationPlan, if session != null then {session.link} else {}
      ensures Valid() && pending == [] && publicationPlan.steps == [] && !committed
      ensures lockedTask.Some? ==> lockedTask == old(lockedTask)
      ensures session == old(session)
      ensures OnlyDropped(old(server.committed), server.committed, old(generated))
      ensures session == null || old(connectionLost || session.invalidated) ==>
        r.Done? && SameServer() && (session != null ==> session.trace == old(session.trace) && session.invalidated)
      ensures session != null && !old(connectionLost || session.invalidated) ==> RolledBack(r)
      ensures r.Raised? ==> r.error == Interrupted
    {
      ForgetQueue();
      var lost := NoteConnectionLoss();
      var dropped := DropOpenTransaction();
      if lost || session == null || dropped.Raised? {
        return dropped;
      }
      ghost var middle := session.trace;
      r := DropOwn(session);
      RollbackParts(old(session.trace), middle, session.trace, old(Open()));
    }

    /** The ROLLBACK, if any, and the statements after it. */
    lemma RollbackParts(before: seq<Issued>, middle: seq<Issued>, after: seq<Issued>, open: bool)
      requires before <= middle <= after && |middle| == |before| + if open then 1 else 0
      ensures after[|before|..][if open then 1 else 0..] == after[|middle|..]
      ensures open ==> after[|before|..][0] == middle[|before|]
    {
    }

    /** What a rollback on a live session did: the ROLLBACK if a transaction was
        open; then, unless that was interrupted, the drops, on a new session
        exactly when the ROLLBACK met the loss and there was something to drop;
        and every name is gone unless one of its statements failed.  An
        interruption may leave the transaction as it was, or one DROP in it. */
    twostate predicate RolledBack(new r: Outcome<()>)
      requires session != null && old(session) == session
      reads this, server, session, session.link
    {
      var issued := Since(session, old(session.trace));
      var open := old(Open());
      && old(session.trace) <= session.trace && (open ==> issued != [] && issued[0].statement == RollbackSql)
      && var fault := if open then issued[0].fault else None;
        var rest := issued[if open then 1 else 0..];
        && session.link.reconnects == old(session.link.reconnects)
             + (if fault == Some(Driver(ConnectionLost)) && old(generated) != {} then 1 else 0)
        && if fault == Some(Interrupted) then r.Raised? && rest == [] && SameServer() && LeftAsWas()
           else
             && (r.Raised? <==> InterruptedBy(rest)) && LeftDropping(old(generated))
             && (Faulty(rest) || forall k | k in old(generated) :: k !in server.committed.tables)
    }

    ghost predicate InterruptedBy(issued: seq<Issued>) {
      issued != [] && issued[|issued| - 1].fault == Some(Interrupted)
    }

    /** The open transaction survived, or is gone. */
    twostate predicate LeftAsWas()
      requires session != null && old(session) == session
      reads this, session
    {
      session.work.Some? ==> session.work == old(session.work) && session.aborted == old(session.aborted)
    }

    /** Anything a COMMIT could still install is one more drop of these names. */
    ghost predicate LeftDropping(names: set<Key>)
      requires session != null
      reads this, server, session
    {
      session.work.Some? && !session.aborted ==> OnlyDropped(server.committed, session.work.value, names)
    }

    method ForgetQueue()
      requires Valid()
      modifies this`pending, this`resolved, this`refills, this`committed, this`committedTables, this`written,
        publicationPlan
      ensures Valid() && pending == [] && publicationPlan.steps == [] && !committed
    {
      pending := [];
      resolved := map[];
      refills := {};
      publicationPlan.Clear();
      committed := false;
      committedTables := [];
      written := [];
    }

    method DropOwn(conn: Session) returns (r: Outcome<()>)
      requires Valid() && conn == session && conn.work == None && !conn.aborted && pending == [] && !connectionLost
      modifies this`generated, server, conn, conn.link
      ensures Valid()
      ensures OnlyDropped(old(server.committed), server.committed, old(generated))
      ensures conn.link.reconnects ==
        old(conn.link.reconnects) + if old(conn.invalidated) && old(generated) != {} then 1 else 0
      ensures r.Raised? ==> r.error == Interrupted
      ensures Dropped(conn, old(conn.trace), r, old(generated)) && LeftDropping(old(generated))
    {
      if generated != {} && conn.invalidated {
        conn.Reconnect();
      }
      r := DropGenerated(conn);
      if r.Done? {
        generated := {};
      }
    }

    /** The drops issued since: interrupted exactly when that is raised, and
        complete unless one failed. */
    ghost predicate Dropped(conn: Session, before: seq<Issued>, r: Outcome<()>, names: set<Key>)
      reads conn, server
    {
      && before <= conn.trace
      && (r.Raised? <==> InterruptedBy(conn.trace[|before|..]))
      && (Faulty(conn.trace[|before|..]) || forall k | k in names :: k !in server.committed.tables)
    }

    /** One DROP and its COMMIT. */
    method DropOne(conn: Session, k: Key) returns (r: Outcome<()>)
      requires Valid() && conn == session && conn.work == None && !conn.aborted && !conn.invalidated
      modifies server, conn
      ensures Valid()
      ensures r.Done? ==> conn.work == None && !conn.aborted && !conn.invalidated
      ensures old(conn.trace) < conn.trace && conn.trace[|conn.trace| - 1].fault == FaultOf(r)
      ensures server.committed == old(server.committed)
        || DropIfExists(old(server.committed), k) == Ok(server.committed)
      ensures r.Done? ==> DropIfExists(old(server.committed), k) == Ok(server.committed)
      ensures conn.work.Some? && !conn.aborted ==>
        && server.committed == old(server.committed)
        && (conn.work.value == server.committed || DropIfExists(server.committed, k) == Ok(conn.work.value))
    {
      r := conn.Execute(DropIfExists(conn.View(), k));
      if r.Done? {
        r := conn.Commit();
      }
    }

    /** One committed DROP per name, until a statement fails. */
    method DropGenerated(conn: Session) returns (r: Outcome<()>)
      requires Valid() && conn == session && conn.work == None && !conn.aborted
      requires generated != {} ==> !conn.invalidated
      modifies server, conn
      ensures Valid()
      ensures OnlyDropped(old(server.committed), server.committed, generated)
      ensures r.Raised? ==> r.error == Interrupted
      ensures Dropped(conn, old(conn.trace), r, generated) && LeftDropping(generated)
    {
      var rest := generated;
      while rest != {}
        invariant rest <= generated
        invariant Valid() && conn.work == None && !conn.aborted && (rest != {} ==> !conn.invalidated)
        invariant OnlyDropped(old(server.committed), server.committed, generated)
        invariant forall k | k in generated && k !in rest :: k !in server.committed.tables
        invariant old(conn.trace) <= conn.trace
        invariant conn.trace != old(conn.trace) ==> conn.trace[|conn.trace| - 1].fault.None?
        decreases |rest|
      {
        var k :| k in rest;
        DropOneMore(old(server.committed), server.committed, generated, k);
        DropOneMore(server.committed, server.committed, generated, k);
        var dropped := DropOne(conn, k);
        if dropped.Raised? {
          assert conn.trace[|old(conn.trace)|..][|conn.trace| - |old(conn.trace)| - 1].fault.Some?;
          return if dropped.error == Interrupted then dropped else Done(());
        }
        rest := rest - {k};
      }
      r := Done(());
    }

    /** Unlock and commit: whatever transaction is open goes with it. */
    method ReleaseTaskLock() returns (r: Outcome<()>)
      requires Valid()
      modifies this`connectionLost, this`lockedTask, session, server, if session != null then {session.link} else {}
      ensures Valid() && lockedTask == None && session == old(session)
      ensures old(lockedTask).None? || session == null || old(connectionLost || session.invalidated) ==>
        r.Done? && SameServer() && (session != null ==> session.trace == old(session.trace))
      ensures old(lockedTask).Some? && session != null && !old(connectionLost || session.invalidated) ==> Released(r)
    {
      var lost := NoteConnectionLoss();
      if lockedTask.None? || session == null || lost {
        lockedTask := None;
        return Done(());
      }
      r := session.Unlock(config.lockKey);
      if r.Done? {
        r := session.Commit();
      }
      lockedTask := None;
    }

    /** The unlock, and if it went through the COMMIT; the last of them is what
        raised, and only that COMMIT changes the database, to what the open
        transaction held. */
    twostate predicate Released(new r: Outcome<()>)
      requires session != null && old(session) == session
      reads this, server, session, session.link
    {
      var issued := Since(session, old(session.trace));
      && old(session.trace) <= session.trace && 1 <= |issued| <= 2
      && issued[|issued| - 1].fault == FaultOf(r)
      && (r.Done? ==> !session.Holds(config.lockKey) && Installed())
      && (SameServer() || (|issued| == 2 && Installed()))
    }

    /** The database is what the open transaction held. */
    twostate predicate Installed()
      requires session != null && old(session) == session
      reads this, server, session
    {
      server.committed == old(session.View()) && !old(session.aborted)
    }

    /** Unlock, then close the connection and the engine, attempting each.  An
        interruption of the unlocking escapes with the session still there;
        anything else leaves none, and no lock.  The unlocking commits whatever
        transaction is open. */
    method Close() returns (r: Outcome<()>)
      requires Valid()
      modifies this`connectionLost, this`lockedTask, this`session, session, server,
        if session != null then {session.link} else {}
      ensures Valid() && lockedTask == None
      ensures old(session) == null ==> session == null && SameServer()
      ensures old(session) != null ==> Closed(old(session), r)
    {
      r := Done(());
      if lockedTask.Some? {
        var released := ReleaseTaskLock();
        if released == Raised(Interrupted) {
          return released;
        }
      }
      var conn := session;
      session := null;
      if conn != null {
        r := conn.Disconnect();
      }
      var disposes: bool := *;
      if !disposes && r.Done? {
        var e := AnyError();
        r := Raised(e);
      }
    }

    /** How a close left the session it had, and the database. */
    twostate predicate Closed(conn: Session, new r: Outcome<()>)
      reads this, server, conn, conn.link
    {
      var unlocks := old(lockedTask.Some? && !connectionLost && !conn.invalidated);
      var issued := Since(conn, old(conn.trace));
      && old(conn.trace) <= conn.trace
      && (!unlocks ==> issued == []) && (unlocks ==> 1 <= |issued| <= 2)
      && (session == if InterruptedBy(issued) then conn else null)
      && (session != null ==> r == Raised(Interrupted))
      && (session == null ==> conn.work == None && conn.link.granted == {})
      && (SameServer() || (|issued| == 2 && server.committed == old(conn.View()) && !old(conn.aborted)))
      && (unlocks && !Faulty(issued) ==> server.committed == old(conn.View()))
    }
  }

  /** No budget was left to lock so many targets in at that time. */
  predicate SpentAt(policy: LockPolicy.Policy, deadline: real, t: real, targets: nat)
    requires policy.Valid()
  {
    NoBudget(policy, deadline - t, targets)
  }

  /** Wait out a delay drawn from the range, if a retry is due. */
  method Backoff(policy: LockPolicy.Policy, attempt: nat, remaining: real, failed: real)
    returns (next: Option<real>, ghost slept: real)
    requires policy.Valid()
    ensures next.Some? <==> LockPolicy.RetryDue(policy, attempt, remaining)
    ensures next.Some? ==> LockPolicy.MayDelay(policy, remaining, slept) && next.value >= failed + slept
  {
    var range := LockPolicy.DelayRange(policy, attempt, remaining);
    LockPolicy.DelayLeavesBudget(policy, attempt, remaining, 0.0);
    slept := 0.0;
    if range.None? {
      return None, slept;
    }
    var delay: real := *;
    if !(range.value.0 <= delay <= range.value.1) {
      delay := range.value.0;
    }
    LockPolicy.DelayLeavesBudget(policy, attempt, remaining, delay);
    var woken := Sleep(failed, delay);
    next, slept := Some(woken), delay;
  }

  /** An attempt may start now. */
  ghost predicate Ready(policy: LockPolicy.Policy, started: real, attempts: seq<LockPolicy.Attempt>, start: real,
    slept: real)
  {
    && LockPolicy.RetryRun(policy, started, attempts)
    && (attempts == [] ==> start >= started)
    && (attempts != [] ==>
          var last := attempts[|attempts| - 1];
          var remaining := started + policy.horizon - last.failed;
          && last.retryable && LockPolicy.RetryDue(policy, |attempts|, remaining)
          && LockPolicy.MayDelay(policy, remaining, slept) && start >= last.failed + slept)
  }

  lemma MadeAttempt(policy: LockPolicy.Policy, started: real, attempts: seq<LockPolicy.Attempt>,
      start: real, end: real, retryable: bool, slept: real)
    requires Ready(policy, started, attempts, start, slept) && start <= end
    ensures LockPolicy.RetryRun(policy, started, attempts + [LockPolicy.Attempt(start, end, retryable, slept)])
  {
    var more := attempts + [LockPolicy.Attempt(start, end, retryable, slept)];
    forall i | 0 < i < |more|
      ensures LockPolicy.RetriedAfter(policy, started, more, i)
    {
      if i < |attempts| {
        assert LockPolicy.RetriedAfter(policy, started, attempts, i);
      }
    }
  }
}
