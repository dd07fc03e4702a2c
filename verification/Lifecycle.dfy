/** A whole run of one publisher in the runner's order - claim, prepare each
    output, publish, roll back after a failure, close - and everything it may
    commit on the way (task_core/runner.py, 504-761;
    task_core/db/publish.py, 527-1932). */
module Lifecycle {
  import opened Values
  import opened Catalog
  import opened Identifiers
  import opened Publication
  import opened PublicationSteps
  import opened Publisher
  import opened Server
  import LockPolicy

  /** What a transaction held that an interrupted ROLLBACK left open: part of a
      cleanup, of one output's staging table, or of a publication. */
  datatype Left =
    | PartClean
    | PartStage(payload: Payload)
    | PartPublish(pending: seq<Swap>, plan: Plan, steps: seq<Step>, extent: Extent)

  /** One committed change of the database. */
  datatype Change =
    | Clean
    | Stage(payload: Payload, swap: Swap)
    | Publish(pending: seq<Swap>, plan: Plan, steps: seq<Step>)
    | DropOwn(names: set<Key>)
    | LeftOpen(left: Left)

  /** A staging name of this very run. */
  predicate OwnName(c: Config, k: Key) {
    OwnedTokens(k.name).Some? && OwnedTokens(k.name).value.1 == c.token
  }

  ghost predicate OwnNames(c: Config, names: set<Key>) {
    forall k | k in names :: OwnName(c, k)
  }

  ghost predicate OwnSwaps(c: Config, pending: seq<Swap>) {
    forall s | s in pending :: s.staging == c.StagingKey(s.target.name) && OwnedTokens(s.target.name).None?
  }

  function SwapOf(c: Config, p: Payload): Swap {
    Swap(Key(p.schema, p.table), c.StagingKey(p.table), |p.rows|)
  }

  /** What each change does. */
  ghost predicate Makes(c: Config, change: Change, before: Database, after: Database) {
    match change
    case Clean => WithoutAbandoned(c, before, after)
    case Stage(p, s) => Staged(c, before, after, p, s)
    case Publish(pending, plan, steps) =>
      && plan.run == c.Run() && OwnSwaps(c, pending)
      && RunSteps(steps, before.state).Ok?
      && Committed(before, after, pending, plan, RunSteps(steps, before.state).value)
    case DropOwn(names) => OnlyDropped(before, after, names) && OwnNames(c, names)
    case LeftOpen(left) => Leaves(c, left, before, after)
  }

  ghost predicate Leaves(c: Config, left: Left, before: Database, after: Database) {
    match left
    case PartClean => PartCleaned(c, before, after)
    case PartStage(p) => PartStaged(c, before, after, p, SwapOf(c, p))
    case PartPublish(pending, plan, steps, x) =>
      && plan.run == c.Run() && OwnSwaps(c, pending)
      && AttemptedTo(before, after, SwapSet(pending), plan, WritesOf(steps), x)
  }

  /** The changes a run committed, and the databases between them. */
  datatype Trail = Trail(changes: seq<Change>, dbs: seq<Database>)

  ghost predicate Runs(c: Config, t: Trail) {
    && |t.dbs| == |t.changes| + 1
    && forall i | 0 <= i < |t.changes| :: Makes(c, t.changes[i], t.dbs[i], t.dbs[i + 1])
  }

  /** From the first database to the last. */
  ghost predicate From(c: Config, t: Trail, before: Database, now: Database) {
    Runs(c, t) && t.dbs[0] == before && t.dbs[|t.dbs| - 1] == now
  }

  ghost function After(t: Trail, change: Change, db: Database): Trail {
    Trail(t.changes + [change], t.dbs + [db])
  }

  lemma OneMore(c: Config, t: Trail, before: Database, now: Database, change: Change, next: Database)
    requires From(c, t, before, now) && Makes(c, change, now, next)
    ensures From(c, After(t, change, next), before, next)
  {
    var u := After(t, change, next);
    forall i | 0 <= i < |u.changes|
      ensures Makes(c, u.changes[i], u.dbs[i], u.dbs[i + 1])
    {
      if i < |t.changes| {
        assert Makes(c, t.changes[i], t.dbs[i], t.dbs[i + 1]);
      }
    }
  }

  // -- what a run of these outputs does -------------------------------------------------------

  function SwapsOf(c: Config, payloads: seq<Payload>): (r: seq<Swap>)
    ensures |r| == |payloads|
    ensures forall i | 0 <= i < |payloads| :: r[i] == SwapOf(c, payloads[i])
  {
    seq(|payloads|, i requires 0 <= i < |payloads| => SwapOf(c, payloads[i]))
  }

  /** The staging names of these outputs. */
  function NamesOf(c: Config, payloads: seq<Payload>): set<Key> {
    set p | p in payloads :: c.StagingKey(p.table)
  }

  /** What the publisher has resolved of them. */
  function PlanFor(c: Config, payloads: seq<Payload>): Plan {
    if payloads == [] then Plan(c.Run(), {}, map[])
    else PlanWith(PlanFor(c, payloads[..|payloads| - 1]), payloads[|payloads| - 1])
  }

  function StepsOf(step: Option<Step>): seq<Step> {
    if step.Some? then [step.value] else []
  }

  /** The changes up to the publication: the cleanup, and one staging table per
      output, in order. */
  function Outputs(c: Config, payloads: seq<Payload>): (r: seq<Change>)
    ensures |r| == |payloads| + 1 && r[0] == Clean
    ensures forall i | 0 <= i < |payloads| :: r[i + 1] == Stage(payloads[i], SwapOf(c, payloads[i]))
  {
    [Clean] + seq(|payloads|, i requires 0 <= i < |payloads| => Stage(payloads[i], SwapOf(c, payloads[i])))
  }

  /** The publication of all of them, with the queued step. */
  function WholePublish(c: Config, payloads: seq<Payload>, step: Option<Step>): Change {
    Publish(SwapsOf(c, payloads), PlanFor(c, payloads), StepsOf(step))
  }

  /** A run that did everything. */
  ghost predicate Complete(c: Config, changes: seq<Change>, payloads: seq<Payload>, step: Option<Step>) {
    changes == Outputs(c, payloads) + [WholePublish(c, payloads, step)]
  }

  lemma OutputsNext(c: Config, payloads: seq<Payload>, i: nat)
    requires i < |payloads|
    ensures Outputs(c, payloads[..i + 1]) == Outputs(c, payloads[..i]) + [Stage(payloads[i], SwapOf(c, payloads[i]))]
    ensures SwapsOf(c, payloads[..i + 1]) == SwapsOf(c, payloads[..i]) + [SwapOf(c, payloads[i])]
    ensures NamesOf(c, payloads[..i + 1]) == NamesOf(c, payloads[..i]) + {c.StagingKey(payloads[i].table)}
  {
    var front, next := payloads[..i], payloads[..i + 1];
    assert next == front + [payloads[i]];
  }

  lemma PlanNext(c: Config, payloads: seq<Payload>, i: nat)
    requires i < |payloads|
    ensures PlanFor(c, payloads[..i + 1]) == PlanWith(PlanFor(c, payloads[..i]), payloads[i])
  {
    assert payloads[..i + 1][..i] == payloads[..i];
  }

  lemma PlanRun(c: Config, payloads: seq<Payload>)
    ensures PlanFor(c, payloads).run == c.Run()
  {
  }

  /** None of them has a name of the staging shape. */
  predicate Named(payloads: seq<Payload>) {
    forall p | p in payloads :: OwnedTokens(p.table).None?
  }

  lemma NamesOwn(c: Config, payloads: seq<Payload>)
    requires c.Valid() && Named(payloads)
    ensures OwnNames(c, NamesOf(c, payloads)) && OwnSwaps(c, SwapsOf(c, payloads))
  {
    forall k | k in NamesOf(c, payloads)
      ensures OwnName(c, k)
    {
      var p :| p in payloads && k == c.StagingKey(p.table);
      StagingNameOwned(c.digest, Some(c.schema), p.table, c.token, c.maxBytes);
    }
  }

  // -- how a run stops -----------------------------------------------------------------------

  /** The changes of a run that raised, before it gave up, n outputs being
      recorded: all of them acknowledged, or all but the last. */
  ghost predicate Stopped(
    c: Config, changes: seq<Change>, payloads: seq<Payload>, step: Option<Step>, e: Error, n: nat)
  {
    && n <= |payloads|
    && (|| (n == 0 && changes == [])
        || changes == Outputs(c, payloads[..n])
        || (Unacknowledged(e) && n < |payloads| && changes == Outputs(c, payloads[..n + 1]))
        || (Unacknowledged(e) && n == |payloads| && Complete(c, changes, payloads, step)))
  }

  /** What the open transaction may hold after those changes: part of the next. */
  ghost predicate Fits(c: Config, changes: seq<Change>, payloads: seq<Payload>, step: Option<Step>, left: Left) {
    match left
    case PartClean => changes == []
    case PartStage(p) => exists i :: 0 <= i < |payloads| && p == payloads[i] && changes == Outputs(c, payloads[..i])
    case PartPublish(pending, plan, steps, x) =>
      changes == Outputs(c, payloads) && Publish(pending, plan, steps) == WholePublish(c, payloads, step)
  }

  /** How it ends: with the drops of what was recorded, and perhaps one more of
      them committed by the closing; or, its ROLLBACK interrupted, with nothing
      more, or what the open transaction held. */
  ghost predicate Closing(
    c: Config, changes: seq<Change>, done: seq<Change>, payloads: seq<Payload>, step: Option<Step>, n: nat, cut: bool)
    requires n <= |payloads|
  {
    var drops := DropOwn(NamesOf(c, payloads[..n]));
    if cut then changes == done || LeftLast(c, changes, done, payloads, step)
    else changes == done + [drops] || changes == done + [drops, drops]
  }

  ghost predicate LeftLast(
    c: Config, changes: seq<Change>, done: seq<Change>, payloads: seq<Payload>, step: Option<Step>)
  {
    && |changes| == |done| + 1 && changes[..|done|] == done && changes[|done|].LeftOpen?
    && Fits(c, done, payloads, step, changes[|done|].left)
  }

  /** The changes of a run that raised. */
  ghost predicate GivenUp(
    c: Config, changes: seq<Change>, payloads: seq<Payload>, step: Option<Step>, e: Error, cut: bool)
  {
    exists done, n: nat ::
      Stopped(c, done, payloads, step, e, n) && Closing(c, changes, done, payloads, step, n, cut)
  }

  /** Where a raised error comes from. */
  datatype Cause =
    | Connecting
    | Issuing(i: nat)
    | BadOutput(output: nat)
    | SessionLost(i: nat)
    | BadTarget(swap: Swap)
    | OutOfTime(started: real, attempts: seq<LockPolicy.Attempt>)

  /** What publish() refuses before it touches the database. */
  ghost predicate Unacceptable(c: Config, payloads: seq<Payload>, i: nat)
    requires i < |payloads|
  {
    Unpublishable(c, NamesOf(c, payloads[..i]), payloads[i])
  }

  /** The attempts kept to the policy, and neither attempts nor horizon are left. */
  ghost predicate Exhausted(c: Config, targets: nat, started: real, attempts: seq<LockPolicy.Attempt>)
    requires c.policy.Valid()
  {
    var deadline := started + c.policy.horizon;
    && attempts != [] && LockPolicy.RetryRun(c.policy, started, attempts)
    && var last := attempts[|attempts| - 1];
      if last.retryable then !LockPolicy.RetryDue(c.policy, |attempts|, deadline - last.failed)
      else exists at, n: nat | last.start <= at <= last.failed && n <= targets ::
        SpentAt(c.policy, deadline, at, n)
  }

  /** The statement that raised it, or the reason it was refused. */
  ghost predicate Because(c: Config, trace: seq<Issued>, connected: bool, dbs: seq<Database>, payloads: seq<Payload>,
    e: Error, why: Cause)
    requires c.policy.Valid()
  {
    match why
    case Connecting => !connected && !e.Refused?
    case Issuing(i) => i < |trace| && trace[i].fault == Some(e)
    case BadOutput(i) => e.Refused? && i < |payloads| && Unacceptable(c, payloads, i)
    case SessionLost(i) => e.Refused? && i < |trace| && trace[i].fault == Some(Driver(ConnectionLost))
    case BadTarget(s) =>
      && e.Refused? && s in SwapsOf(c, payloads) && |payloads| + 1 < |dbs|
      && (!Owned(dbs[|payloads| + 1], s, c.Run()) || Unfit(dbs[|payloads| + 1], s, PlanFor(c, payloads)))
    case OutOfTime(started, attempts) => e.Refused? && Exhausted(c, |payloads|, started, attempts)
  }

  // -- the run ---------------------------------------------------------------------------------

  /** Ready for the next step of the run. */
  ghost predicate Ready(pub: DbPublisher)
    reads pub, pub.server, pub.session, if pub.session != null then {pub.session.link} else {}
  {
    pub.Valid() && pub.Intact() && pub.Idle()
  }

  /** These outputs recorded, and no others. */
  ghost predicate Recorded(pub: DbPublisher, payloads: seq<Payload>)
    reads pub
  {
    && pub.pending == SwapsOf(pub.config, payloads) && pub.generated == NamesOf(pub.config, payloads)
    && pub.PlanOf() == PlanFor(pub.config, payloads)
  }

  /** These outputs prepared by an authorized publisher, from that database on. */
  ghost predicate Staging(pub: DbPublisher, payloads: seq<Payload>, t: Trail, before: Database)
    reads pub, pub.server, pub.session, if pub.session != null then {pub.session.link} else {}
  {
    && Ready(pub) && pub.Authorized() && pub.session != null && Recorded(pub, payloads)
    && t.changes == Outputs(pub.config, payloads) && From(pub.config, t, before, pub.server.committed)
  }

  /** The open transaction holds something a COMMIT would install. */
  ghost predicate Held(pub: DbPublisher)
    reads pub, pub.server, pub.session
  {
    pub.Leftover().Some? && pub.Leftover().value != pub.server.committed
  }

  /** What the open transaction holds is part of the next change. */
  ghost predicate LeftBy(pub: DbPublisher, changes: seq<Change>, payloads: seq<Payload>, step: Option<Step>, left: Left)
    reads pub, pub.server, pub.session
  {
    Held(pub) ==>
      && Fits(pub.config, changes, payloads, step, left)
      && Leaves(pub.config, left, pub.server.committed, pub.Leftover().value)
  }

  ghost predicate Explains(pub: DbPublisher, t: Trail, payloads: seq<Payload>, e: Error, why: Cause)
    requires pub.config.policy.Valid()
    reads pub, pub.session
  {
    Because(pub.config, if pub.session != null then pub.session.trace else [], pub.session != null,
      t.dbs, payloads, e, why)
  }

  /** Of a run that raised: how many outputs were recorded, what its transaction
      holds part of, and what raised it. */
  datatype Halt = Halt(recorded: nat, left: Left, why: Cause)

  ghost predicate Halted(
    pub: DbPublisher, t: Trail, before: Database, payloads: seq<Payload>, step: Option<Step>, e: Error, h: Halt)
    requires pub.config.policy.Valid()
    reads pub, pub.server, pub.session
  {
    && From(pub.config, t, before, pub.server.committed)
    && Stopped(pub.config, t.changes, payloads, step, e, h.recorded)
    && pub.generated == NamesOf(pub.config, payloads[..h.recorded])
    && LeftBy(pub, t.changes, payloads, step, h.left)
    && Explains(pub, t, payloads, e, h.why)
  }

  /** The plan once one more output is recorded. */
  function PlanWith(plan: Plan, p: Payload): Plan {
    var key := Key(p.schema, p.table);
    Plan(plan.run, if p.refill then plan.refills + {key} else plan.refills, plan.resolved[key := p.columns])
  }

  /** publish(), and what it committed. */
  method StageOutput(pub: DbPublisher, p: Payload, ghost t: Trail, ghost before: Database)
    returns (failed: Option<Error>, ghost u: Trail)
    requires Ready(pub) && pub.Authorized() && pub.session != null && OwnedTokens(p.table).None?
    requires From(pub.config, t, before, pub.server.committed)
    modifies pub, pub.server, pub.session
    ensures pub.Valid() && pub.session == old(pub.session)
    ensures From(pub.config, u, before, pub.server.committed)
    ensures failed.None? ==>
      && Ready(pub) && pub.Authorized()
      && pub.pending == old(pub.pending) + [SwapOf(pub.config, p)] && pub.PlanOf() == PlanWith(old(pub.PlanOf()), p)
      && pub.generated == old(pub.generated) + {pub.config.StagingKey(p.table)}
      && u.changes == t.changes + [Stage(p, SwapOf(pub.config, p))]
    ensures failed.Some? ==>
      && pub.Queued() == old(pub.Queued())
      && ((u == t && (pub.Leftover().Some? ==>
             Leaves(pub.config, PartStage(p), pub.server.committed, pub.Leftover().value)))
          || (Unacknowledged(failed.value) && pub.Leftover().None?
              && u.changes == t.changes + [Stage(p, SwapOf(pub.config, p))]))
    ensures failed.Some? ==>
      if failed.value.Refused? then Unpublishable(pub.config, old(pub.generated), p)
      else pub.session.trace != [] && pub.session.trace[|pub.session.trace| - 1].fault == failed
  {
    u := t;
    ghost var now, c := pub.server.committed, pub.config;
    var done := pub.Publish(p);
    if done.Done? || pub.server.committed != now {
      OneMore(c, t, before, now, Stage(p, SwapOf(c, p)), pub.server.committed);
      u := After(t, Stage(p, SwapOf(c, p)), pub.server.committed);
    }
    failed := if done.Done? then None else Some(done.error);
  }

  lemma StoppedStaging(c: Config, changes: seq<Change>, payloads: seq<Payload>, step: Option<Step>, e: Error, i: nat)
    requires i < |payloads|
    requires changes == Outputs(c, payloads[..i]) || (Unacknowledged(e) && changes == Outputs(c, payloads[..i + 1]))
    ensures Stopped(c, changes, payloads, step, e, i)
  {
  }

  lemma OutputExplained(pub: DbPublisher, t: Trail, payloads: seq<Payload>, i: nat, e: Error) returns (why: Cause)
    requires i < |payloads| && pub.session != null && pub.config.policy.Valid()
    requires
      if e.Refused? then Unpublishable(pub.config, NamesOf(pub.config, payloads[..i]), payloads[i])
      else pub.session.trace != [] && pub.session.trace[|pub.session.trace| - 1].fault == Some(e)
    ensures Explains(pub, t, payloads, e, why)
  {
    why := if e.Refused? then BadOutput(i) else Issuing(|pub.session.trace| - 1);
  }

  lemma OutputLeft(pub: DbPublisher, changes: seq<Change>, payloads: seq<Payload>, i: nat, step: Option<Step>)
    requires i < |payloads|
    requires pub.Leftover().Some? ==>
      && changes == Outputs(pub.config, payloads[..i])
      && Leaves(pub.config, PartStage(payloads[i]), pub.server.committed, pub.Leftover().value)
    ensures LeftBy(pub, changes, payloads, step, PartStage(payloads[i]))
  {
  }

  /** Prepare one output. */
  method PrepareOne(pub: DbPublisher, payloads: seq<Payload>, i: nat, ghost step: Option<Step>, ghost t: Trail,
      ghost before: Database)
    returns (failed: Option<Error>, ghost u: Trail, ghost h: Halt)
    requires i < |payloads| && Named(payloads) && Staging(pub, payloads[..i], t, before)
    modifies pub, pub.server, pub.session
    ensures pub.Valid() && pub.session == old(pub.session)
    ensures failed.None? ==> Staging(pub, payloads[..i + 1], u, before)
    ensures failed.Some? ==> Halted(pub, u, before, payloads, step, failed.value, h)
  {
    h := Halt(i, PartStage(payloads[i]), Connecting);
    OutputsNext(pub.config, payloads, i);
    PlanNext(pub.config, payloads, i);
    failed, u := StageOutput(pub, payloads[i], t, before);
    if failed.Some? {
      ghost var why := OutputExplained(pub, u, payloads, i, failed.value);
      h := h.(why := why);
      StoppedStaging(pub.config, u.changes, payloads, step, failed.value, i);
      OutputLeft(pub, u.changes, payloads, i, step);
    }
  }

  /** Prepare every output, stopping at the first failure. */
  method PrepareAll(pub: DbPublisher, payloads: seq<Payload>, ghost step: Option<Step>, ghost t: Trail,
      ghost before: Database)
    returns (failed: Option<Error>, ghost u: Trail, ghost h: Halt)
    requires Named(payloads) && Staging(pub, [], t, before)
    modifies pub, pub.server, pub.session
    ensures pub.Valid() && pub.session == old(pub.session)
    ensures failed.None? ==> Staging(pub, payloads, u, before)
    ensures failed.Some? ==> Halted(pub, u, before, payloads, step, failed.value, h)
  {
    u, h, failed := t, Halt(0, PartClean, Connecting), None;
    var i := 0;
    assert payloads[..0] == [];
    while i < |payloads|
      invariant 0 <= i <= |payloads| && failed.None? && pub.session == old(pub.session)
      invariant Staging(pub, payloads[..i], u, before)
    {
      failed, u, h := PrepareOne(pub, payloads, i, step, u, before);
      if failed.Some? {
        return;
      }
      i := i + 1;
    }
    assert payloads[..i] == payloads;
  }

  // -- publishing ------------------------------------------------------------------------------

  /** No budget was left in the last attempt. */
  lemma TimeSpent(pub: DbPublisher, b: Snapshot, started: real, targets: nat)
    requires pub.Valid() && pub.attempts != [] && targets == |b.queue.pending|
    requires pub.Settled(Raised(Refused), b, started) && !pub.attempts[|pub.attempts| - 1].retryable
    requires !pub.connectionLost
    requires forall s | s in b.queue.pending :: Owned(b.db, s, b.queue.plan.run) && !Unfit(b.db, s, b.queue.plan)
    ensures Exhausted(pub.config, targets, started, pub.attempts)
  {
  }

  /** Why a commit made by an authorized publisher was refused. */
  lemma RefusalExplained(pub: DbPublisher, t: Trail, payloads: seq<Payload>, b: Snapshot, started: real)
    returns (why: Cause)
    requires pub.Valid() && pub.session != null && pub.attempts != []
    requires pub.Settled(Raised(Refused), b, started) && b.queue.pending == SwapsOf(pub.config, payloads)
    requires b.queue.plan == PlanFor(pub.config, payloads)
    requires |t.dbs| > |payloads| + 1 && t.dbs[|payloads| + 1] == b.db
    ensures Explains(pub, t, payloads, Refused, why)
  {
    PlanRun(pub.config, payloads);
    if pub.attempts[|pub.attempts| - 1].retryable {
      why := OutOfTime(started, pub.attempts);
    } else if pub.connectionLost {
      why := SessionLost(|pub.session.trace| - 1);
    } else if s :| s in b.queue.pending && (!Owned(b.db, s, b.queue.plan.run) || Unfit(b.db, s, b.queue.plan)) {
      why := BadTarget(s);
    } else {
      TimeSpent(pub, b, started, |payloads|);
      why := OutOfTime(started, pub.attempts);
    }
  }

  lemma CommitExplained(pub: DbPublisher, t: Trail, payloads: seq<Payload>, b: Snapshot, started: real, e: Error)
    returns (why: Cause)
    requires pub.Valid() && pub.session != null && pub.attempts != []
    requires pub.Settled(Raised(e), b, started) && b.queue.pending == SwapsOf(pub.config, payloads)
    requires b.queue.plan == PlanFor(pub.config, payloads)
    requires e.Refused? ==> |t.dbs| > |payloads| + 1 && t.dbs[|payloads| + 1] == b.db
    ensures Explains(pub, t, payloads, e, why)
  {
    if e.Refused? {
      why := RefusalExplained(pub, t, payloads, b, started);
    } else {
      assert pub.Faulted(e);
      var i :| 0 <= i < |pub.session.trace| && pub.session.trace[i].fault == Some(e);
      why := Issuing(i);
    }
  }

  lemma PublicationLeft(pub: DbPublisher, changes: seq<Change>, payloads: seq<Payload>, step: Option<Step>, b: Snapshot)
    returns (left: Left)
    requires pub.Valid() && pub.LeftFrom(b) && pub.server.committed == b.db && Named(payloads)
    requires changes == Outputs(pub.config, payloads)
    requires b.queue.pending == SwapsOf(pub.config, payloads) && b.queue.plan == PlanFor(pub.config, payloads)
    requires b.queue.steps == StepsOf(step)
    ensures LeftBy(pub, changes, payloads, step, left)
  {
    left := PartClean;
    if pub.Leftover().Some? {
      var x :| AttemptedTo(b.db, pub.Leftover().value, SwapSet(b.queue.pending), b.queue.plan,
        WritesOf(b.queue.steps), x);
      left := PartPublish(b.queue.pending, b.queue.plan, b.queue.steps, x);
      PlanRun(pub.config, payloads);
      NamesOwn(pub.config, payloads);
    }
  }

  lemma WholeMade(pub: DbPublisher, payloads: seq<Payload>, step: Option<Step>, b: Snapshot)
    requires pub.Valid() && pub.PublishedFrom(b) && Named(payloads)
    requires b.queue.pending == SwapsOf(pub.config, payloads) && b.queue.plan == PlanFor(pub.config, payloads)
    requires b.queue.steps == StepsOf(step)
    ensures Makes(pub.config, WholePublish(pub.config, payloads, step), b.db, pub.server.committed)
  {
    PlanRun(pub.config, payloads);
    NamesOwn(pub.config, payloads);
  }

  lemma PublishingHalted(pub: DbPublisher, u: Trail, before: Database, payloads: seq<Payload>, step: Option<Step>,
      b: Snapshot, started: real, e: Error)
    returns (h: Halt)
    requires pub.Valid() && pub.session != null && pub.attempts != [] && Named(payloads)
    requires pub.Settled(Raised(e), b, started) && pub.FailedFrom(b, e)
    requires From(pub.config, u, before, pub.server.committed)
    requires pub.generated == NamesOf(pub.config, payloads)
    requires b.queue.pending == SwapsOf(pub.config, payloads) && b.queue.plan == PlanFor(pub.config, payloads)
    requires b.queue.steps == StepsOf(step)
    requires if pub.server.committed == b.db then u.changes == Outputs(pub.config, payloads)
             else Complete(pub.config, u.changes, payloads, step)
    ensures Halted(pub, u, before, payloads, step, e, h)
  {
    assert payloads[..|payloads|] == payloads;
    var why := CommitExplained(pub, u, payloads, b, started, e);
    var left := PartClean;
    if pub.server.committed == b.db {
      left := PublicationLeft(pub, u.changes, payloads, step, b);
    }
    h := Halt(|payloads|, left, why);
  }

  lemma PublishedTrail(pub: DbPublisher, t: Trail, before: Database, payloads: seq<Payload>, step: Option<Step>,
      b: Snapshot)
    returns (u: Trail)
    requires pub.Valid() && pub.PublishedFrom(b) && Named(payloads)
    requires b.queue.pending == SwapsOf(pub.config, payloads) && b.queue.plan == PlanFor(pub.config, payloads)
    requires b.queue.steps == StepsOf(step)
    requires From(pub.config, t, before, b.db) && t.changes == Outputs(pub.config, payloads)
    ensures From(pub.config, u, before, pub.server.committed) && Complete(pub.config, u.changes, payloads, step)
  {
    WholeMade(pub, payloads, step, b);
    OneMore(pub.config, t, before, b.db, WholePublish(pub.config, payloads, step), pub.server.committed);
    u := After(t, WholePublish(pub.config, payloads, step), pub.server.committed);
  }

  /** Publish what is prepared, with the queued step. */
  method PublishAll(pub: DbPublisher, payloads: seq<Payload>, step: Option<Step>, ghost t: Trail,
      ghost before: Database)
    returns (failed: Option<Error>, ghost u: Trail, ghost h: Halt)
    requires Named(payloads) && Staging(pub, payloads, t, before) && pub.publicationPlan.steps == []
    modifies pub, pub.server, pub.session, pub.publicationPlan
    ensures pub.Valid() && pub.session == old(pub.session)
    ensures failed.None? ==>
      && pub.Idle() && From(pub.config, u, before, pub.server.committed)
      && Complete(pub.config, u.changes, payloads, step)
    ensures failed.Some? ==> Halted(pub, u, before, payloads, step, failed.value, h)
  {
    if step.Some? {
      pub.publicationPlan.Add(step.value);
    }
    ghost var b := pub.Start();
    assert b.queue.steps == StepsOf(step);
    var done, started := pub.Commit();
    u, h := t, Halt(|payloads|, PartClean, Connecting);
    if done.Done? || pub.server.committed != b.db {
      u := PublishedTrail(pub, t, before, payloads, step, b);
    }
    failed := if done.Raised? then Some(done.error) else None;
    if done.Raised? {
      h := PublishingHalted(pub, u, before, payloads, step, b, started, done.error);
    }
  }

  // -- claiming ---------------------------------------------------------------------------------

  /** A publisher nothing has been asked of. */
  ghost predicate New(pub: DbPublisher)
    reads pub, pub.server, pub.session, if pub.session != null then {pub.session.link} else {}
  {
    && Ready(pub) && pub.session == null && pub.lockedTask.None? && !pub.connectionLost
    && pub.pending == [] && pub.generated == {} && pub.resolved == map[] && pub.refills == {}
  }

  lemma ClaimHalted(pub: DbPublisher, t: Trail, before: Database, payloads: seq<Payload>, step: Option<Step>,
      r: Outcome<bool>)
    returns (h: Halt)
    requires pub.Valid() && From(pub.config, t, before, pub.server.committed) && pub.generated == {}
    requires r.Raised? && !r.error.Refused? && (pub.session != null ==> Blamed(pub.session.trace, r))
    requires
      || (t.changes == [] && (pub.Leftover().Some? ==>
            PartCleaned(pub.config, pub.server.committed, pub.Leftover().value)))
      || (t.changes == [Clean] && pub.Leftover().None?)
    ensures Halted(pub, t, before, payloads, step, r.error, h)
  {
    h := Halt(0, PartClean, if pub.session == null then Connecting else Issuing(|pub.session.trace| - 1));
    assert payloads[..0] == [];
  }

  /** Claim the task, and clean up after its predecessors. */
  method Begin(pub: DbPublisher, ghost payloads: seq<Payload>, ghost step: Option<Step>)
    returns (r: Outcome<bool>, ghost t: Trail, ghost h: Halt)
    requires New(pub)
    modifies pub`session, pub`connectionLost, pub`lockedTask, pub.server
    ensures pub.Valid() && (pub.session == null || (fresh(pub.session) && fresh(pub.session.link)))
    ensures r.Done? ==> pub.Idle() && (r.value <==> pub.config.lockKey !in pub.others.held)
    ensures r == Done(true) ==> Staging(pub, [], t, old(pub.server.committed))
    ensures r == Done(false) ==> t.changes == [] && From(pub.config, t, old(pub.server.committed), pub.server.committed)
    ensures r.Raised? ==> Halted(pub, t, old(pub.server.committed), payloads, step, r.error, h)
  {
    ghost var before := pub.server.committed;
    t, h := Trail([], [before]), Halt(0, PartClean, Connecting);
    r := pub.BeginRun();
    if r == Done(true) || (r.Raised? && pub.server.committed != before) {
      OneMore(pub.config, t, before, before, Clean, pub.server.committed);
      t := After(t, Clean, pub.server.committed);
    }
    if r.Raised? {
      h := ClaimHalted(pub, t, before, payloads, step, r);
    }
  }

  /** The try block. */
  method Work(pub: DbPublisher, payloads: seq<Payload>, step: Option<Step>)
    returns (r: Outcome<bool>, ghost t: Trail, ghost h: Halt)
    requires New(pub) && pub.publicationPlan.steps == [] && Named(payloads)
    modifies pub, pub.server, pub.publicationPlan
    ensures pub.Valid() && (pub.session == null || (fresh(pub.session) && fresh(pub.session.link)))
    ensures r.Done? ==>
      && pub.Idle() && (r.value <==> pub.config.lockKey !in pub.others.held)
      && From(pub.config, t, old(pub.server.committed), pub.server.committed)
    ensures r == Done(false) ==> t.changes == []
    ensures r == Done(true) ==> Complete(pub.config, t.changes, payloads, step)
    ensures r.Raised? ==> Halted(pub, t, old(pub.server.committed), payloads, step, r.error, h)
  {
    ghost var before := pub.server.committed;
    r, t, h := Begin(pub, payloads, step);
    if r != Done(true) {
      return;
    }
    var failed;
    failed, t, h := PrepareAll(pub, payloads, step, t, before);
    if failed.None? {
      failed, t, h := PublishAll(pub, payloads, step, t, before);
    }
    if failed.Some? {
      r := Raised(failed.value);
    }
  }

  // -- giving up and closing -----------------------------------------------------------------------

  /** The ROLLBACK of a rollback on this session was interrupted. */
  twostate predicate Cut(pub: DbPublisher)
    requires pub.session != null && pub.session == old(pub.session)
    reads pub, pub.session
  {
    && old(pub.Open()) && |pub.session.trace| > |old(pub.session.trace)|
    && pub.session.trace[|old(pub.session.trace)|] == Issued(RollbackSql, Some(Interrupted))
  }

  /** What closing may still commit: one more drop, or, after an interrupted
      ROLLBACK, what the transaction held. */
  ghost predicate Remains(pub: DbPublisher, rest: Change)
    reads pub, pub.server, pub.session
  {
    Held(pub) ==> Makes(pub.config, rest, pub.server.committed, pub.Leftover().value)
  }

  /** Give up: drop what this run recorded, unless the ROLLBACK is interrupted;
      then nothing more happens, and the transaction may be as it was. */
  method GiveUp(pub: DbPublisher, ghost t: Trail, ghost before: Database, ghost left: Left)
    returns (ghost u: Trail, ghost rest: Change, ghost cut: bool)
    requires pub.Valid() && OwnNames(pub.config, pub.generated)
    requires From(pub.config, t, before, pub.server.committed)
    requires Remains(pub, LeftOpen(left))
    modifies pub, pub.server, pub.session, pub.publicationPlan, if pub.session != null then {pub.session.link} else {}
    ensures pub.Valid() && pub.session == old(pub.session)
    ensures pub.session != null ==> old(pub.session.trace) <= pub.session.trace
    ensures From(pub.config, u, before, pub.server.committed) && t.dbs <= u.dbs && Remains(pub, rest)
    ensures cut <==> pub.session != null && !old(pub.Lost()) && Cut(pub)
    ensures cut ==> pub.session != null && Issued(RollbackSql, Some(Interrupted)) in pub.session.trace
    ensures cut ==>
      && u == t && rest == LeftOpen(left) && pub.server.committed == old(pub.server.committed)
      && (Held(pub) ==> old(Held(pub)))
    ensures !cut ==> rest == DropOwn(old(pub.generated)) && u.changes == t.changes + [rest]
  {
    ghost var now, names := pub.server.committed, pub.generated;
    u := t;
    var rolled := pub.Rollback();
    cut := pub.session != null && old(!pub.Lost()) && Cut(pub);
    rest := if cut then LeftOpen(left) else DropOwn(names);
    if !cut {
      OneMore(pub.config, t, before, now, DropOwn(names), pub.server.committed);
      u := After(t, DropOwn(names), pub.server.committed);
    }
  }

  /** Close: it may still commit what is left of the open transaction. */
  method Shut(pub: DbPublisher, ghost t: Trail, ghost before: Database, ghost rest: Change)
    returns (closed: Outcome<()>, ghost u: Trail)
    requires pub.Valid() && From(pub.config, t, before, pub.server.committed)
    requires Remains(pub, rest)
    modifies pub, pub.server, pub.session, if pub.session != null then {pub.session.link} else {}
    ensures pub.Valid() && From(pub.config, u, before, pub.server.committed) && t.dbs <= u.dbs
    ensures old(pub.session) != null ==> old(pub.session.trace) <= old(pub.session).trace
    ensures u == t || (old(Held(pub)) && u.changes == t.changes + [rest])
    ensures old(pub.lockedTask.None? || pub.Idle()) ==> u == t
  {
    u := t;
    ghost var now := pub.server.committed;
    closed := pub.Close();
    if pub.server.committed != now {
      OneMore(pub.config, t, before, now, rest, pub.server.committed);
      u := After(t, rest, pub.server.committed);
    }
  }

  lemma ClosedDropping(c: Config, changes: seq<Change>, done: seq<Change>, payloads: seq<Payload>, step: Option<Step>,
      e: Error, n: nat)
    requires Stopped(c, done, payloads, step, e, n)
    requires var drops := DropOwn(NamesOf(c, payloads[..n]));
      changes == done + [drops] || changes == done + [drops, drops]
    ensures GivenUp(c, changes, payloads, step, e, false)
  {
    assert Closing(c, changes, done, payloads, step, n, false);
  }

  lemma ClosedCut(c: Config, changes: seq<Change>, done: seq<Change>, payloads: seq<Payload>, step: Option<Step>,
      e: Error, n: nat, left: Left)
    requires Stopped(c, done, payloads, step, e, n)
    requires changes == done || (changes == done + [LeftOpen(left)] && Fits(c, done, payloads, step, left))
    ensures GivenUp(c, changes, payloads, step, e, true)
  {
    assert changes != done ==> changes[..|done|] == done && changes[|done|] == LeftOpen(left);
    assert Closing(c, changes, done, payloads, step, n, true);
  }

  lemma ClosedAs(c: Config, changes: seq<Change>, given: seq<Change>, done: seq<Change>, payloads: seq<Payload>,
      step: Option<Step>, e: Error, h: Halt, rest: Change, cut: bool)
    requires Stopped(c, done, payloads, step, e, h.recorded) && (changes == given || changes == given + [rest])
    requires cut ==> given == done && rest == LeftOpen(h.left)
    requires cut && changes != given ==> Fits(c, done, payloads, step, h.left)
    requires !cut ==> given == done + [rest] && rest == DropOwn(NamesOf(c, payloads[..h.recorded]))
    ensures GivenUp(c, changes, payloads, step, e, cut)
  {
    if cut {
      ClosedCut(c, changes, done, payloads, step, e, h.recorded, h.left);
    } else {
      assert done + [rest] + [rest] == done + [rest, rest];
      ClosedDropping(c, changes, done, payloads, step, e, h.recorded);
    }
  }

  lemma StillIssued(trace: seq<Issued>, more: seq<Issued>, e: Issued)
    requires trace <= more && e in trace
    ensures e in more
  {
  }

  /** The cleanup of a run that raised. */
  method AbandonRun(pub: DbPublisher, ghost t: Trail, ghost before: Database, ghost payloads: seq<Payload>,
      ghost step: Option<Step>, ghost e: Error, ghost h: Halt)
    returns (closed: Outcome<()>, ghost u: Trail, ghost cut: bool)
    requires pub.Valid() && Named(payloads) && Halted(pub, t, before, payloads, step, e, h)
    modifies pub, pub.server, pub.session, pub.publicationPlan, if pub.session != null then {pub.session.link} else {}
    ensures pub.Valid() && From(pub.config, u, before, pub.server.committed) && t.dbs <= u.dbs
    ensures GivenUp(pub.config, u.changes, payloads, step, e, cut)
    ensures old(pub.session) != null ==> old(pub.session.trace) <= old(pub.session).trace
    ensures cut ==> old(pub.session) != null && Issued(RollbackSql, Some(Interrupted)) in old(pub.session).trace
  {
    NamesOwn(pub.config, payloads[..h.recorded]);
    ghost var rest, given;
    given, rest, cut := GiveUp(pub, t, before, h.left);
    ghost var trace := if pub.session != null then pub.session.trace else [];
    closed, u := Shut(pub, given, before, rest);
    if cut {
      StillIssued(trace, old(pub.session).trace, Issued(RollbackSql, Some(Interrupted)));
    }
    ClosedAs(pub.config, u.changes, given.changes, t.changes, payloads, step, e, h, rest, cut);
  }

  lemma StillBecause(c: Config, trace: seq<Issued>, more: seq<Issued>, connected: bool, dbs: seq<Database>,
      longer: seq<Database>, payloads: seq<Payload>, e: Error, why: Cause)
    requires c.policy.Valid() && trace <= more && dbs <= longer
    requires Because(c, trace, connected, dbs, payloads, e, why)
    ensures Because(c, more, connected, longer, payloads, e, why)
  {
  }

  /** The whole run: whatever fails, and wherever, it has committed exactly the
      changes of its trail, in that order, and they are those of these outputs
      and this step.  Only a ROLLBACK that was interrupted leaves anything but
      drops of its own to the closing. */
  method Run(pub: DbPublisher, payloads: seq<Payload>, step: Option<Step>)
    returns (r: Outcome<bool>, closed: Outcome<()>, ghost t: Trail, ghost conn: Session?, ghost cut: bool,
      ghost why: Cause)
    requires New(pub) && pub.publicationPlan.steps == [] && Named(payloads)
    modifies pub, pub.server, pub.publicationPlan
    ensures pub.Valid()
    ensures From(pub.config, t, old(pub.server.committed), pub.server.committed)
    ensures r.Done? ==> !cut && (r.value <==> pub.config.lockKey !in pub.others.held)
    ensures r == Done(false) ==> t.changes == []
    ensures r == Done(true) ==> Complete(pub.config, t.changes, payloads, step)
    ensures r.Raised? ==> GivenUp(pub.config, t.changes, payloads, step, r.error, cut)
    ensures cut ==> conn != null && Issued(RollbackSql, Some(Interrupted)) in conn.trace
    ensures r.Raised? ==>
      Because(pub.config, if conn != null then conn.trace else [], conn != null, t.dbs, payloads, r.error, why)
  {
    ghost var before, h := pub.server.committed, Halt(0, PartClean, Connecting);
    r, t, h := Work(pub, payloads, step);
    conn, cut, why := pub.session, false, h.why;
    ghost var trace, dbs := if conn != null then conn.trace else [], t.dbs;
    if r.Raised? {
      closed, t, cut := AbandonRun(pub, t, before, payloads, step, r.error, h);
      StillBecause(pub.config, trace, if conn != null then conn.trace else [], conn != null, dbs, t.dbs, payloads,
        r.error, why);
    } else {
      closed, t := Shut(pub, t, before, LeftOpen(PartClean));
    }
  }

  // -- what other sessions see of a run ------------------------------------------------------------

  /** What a run may have committed when it is over. */
  ghost predicate Ended(c: Config, changes: seq<Change>, payloads: seq<Payload>, step: Option<Step>) {
    || changes == [] || Complete(c, changes, payloads, step)
    || exists e, cut :: GivenUp(c, changes, payloads, step, e, cut)
  }

  /** The publication a change is, or, committed by the unlocking, is part of. */
  function PublicationOf(change: Change): Option<Change> {
    match change
    case Publish(_, _, _) => Some(change)
    case LeftOpen(PartPublish(pending, plan, steps, _)) => Some(Publish(pending, plan, steps))
    case _ => None
  }

  /** All of it. */
  predicate Whole(change: Change) {
    || change.Publish?
    || (change.LeftOpen? && change.left.PartPublish?
        && Everything(SwapSet(change.left.pending), WritesOf(change.left.steps), change.left.extent))
  }

  ghost predicate Shaped(c: Config, changes: seq<Change>, payloads: seq<Payload>, step: Option<Step>, j: nat)
    requires j < |changes|
  {
    PublicationOf(changes[j]).Some? ==>
      && j == |payloads| + 1 && PublicationOf(changes[j]) == Some(WholePublish(c, payloads, step))
      && (changes[j].LeftOpen? ==> |changes| == j + 1)
  }

  lemma StoppedShape(c: Config, done: seq<Change>, payloads: seq<Payload>, step: Option<Step>, e: Error, n: nat, j: nat)
    requires Stopped(c, done, payloads, step, e, n) && j < |done|
    ensures PublicationOf(done[j]).None?
      || (j == |payloads| + 1 == |done| - 1
          && done[j] == WholePublish(c, payloads, step) && done[..j] == Outputs(c, payloads))
  {
    if done == Outputs(c, payloads[..n]) {
    } else if n < |payloads| && done == Outputs(c, payloads[..n + 1]) {
    } else {
      assert Complete(c, done, payloads, step);
    }
  }

  lemma ClosingShape(c: Config, changes: seq<Change>, done: seq<Change>, payloads: seq<Payload>, step: Option<Step>,
      n: nat, cut: bool, j: nat)
    requires n <= |payloads| && Closing(c, changes, done, payloads, step, n, cut) && j < |changes|
    ensures done <= changes
    ensures j >= |done| && PublicationOf(changes[j]).Some? ==>
      done == Outputs(c, payloads) && Shaped(c, changes, payloads, step, j)
  {
    if cut && changes != done {
      assert changes == changes[..|done|] + changes[|done|..];
    }
  }

  lemma GivenUpShape(c: Config, changes: seq<Change>, done: seq<Change>, payloads: seq<Payload>, step: Option<Step>,
      e: Error, n: nat, cut: bool, j: nat)
    requires Stopped(c, done, payloads, step, e, n) && Closing(c, changes, done, payloads, step, n, cut)
    requires j < |changes|
    ensures Shaped(c, changes, payloads, step, j)
    ensures PublicationOf(changes[j]).Some? ==> changes[..j] == Outputs(c, payloads)
  {
    ClosingShape(c, changes, done, payloads, step, n, cut, j);
    if j < |done| {
      StoppedShape(c, done, payloads, step, e, n, j);
      assert changes[..j] == done[..j];
    } else if PublicationOf(changes[j]).Some? {
      assert |done| == |payloads| + 1;
      assert changes[..|done|] == done;
    }
  }

  /** Every change of a run is preparatory, but for the publication of all its
      outputs, or, last of all, a part of that; and then it has staged them. */
  lemma ShapeOf(c: Config, changes: seq<Change>, payloads: seq<Payload>, step: Option<Step>, j: nat)
    requires Ended(c, changes, payloads, step) && j < |changes|
    ensures Shaped(c, changes, payloads, step, j)
    ensures PublicationOf(changes[j]).Some? ==> changes[..j] == Outputs(c, payloads)
  {
    if Complete(c, changes, payloads, step) {
      assert changes[..|payloads| + 1] == Outputs(c, payloads);
    } else {
      var e, cut :| GivenUp(c, changes, payloads, step, e, cut);
      var done, n: nat :| Stopped(c, done, payloads, step, e, n) && Closing(c, changes, done, payloads, step, n, cut);
      GivenUpShape(c, changes, done, payloads, step, e, n, cut, j);
    }
  }

  /** Preparing touches nobody's targets. */
  lemma TargetUnseen(c: Config, change: Change, before: Database, after: Database, k: Key)
    requires c.Valid() && Makes(c, change, before, after) && PublicationOf(change).None? && OwnedTokens(k.name).None?
    ensures Same(before.tables, after.tables, k)
  {
    match change {
      case Clean =>
      case Stage(p, s) => StagingNameOwned(c.digest, Some(c.schema), p.table, c.token, c.maxBytes);
      case DropOwn(names) =>
        assert k in names ==> OwnName(c, k);
      case LeftOpen(left) =>
        match left {
          case PartClean =>
          case PartStage(p) => StagingNameOwned(c.digest, Some(c.schema), p.table, c.token, c.maxBytes);
        }
    }
  }

  ghost predicate AllOld(start: Database, now: Database, swaps: seq<Swap>) {
    forall s | s in swaps :: Same(start.tables, now.tables, s.target)
  }

  ghost predicate AllNew(at: Database, now: Database, swaps: seq<Swap>, plan: Plan) {
    forall s | s in swaps ::
      s.staging in at.tables && s.target in now.tables && TargetDone(at, now.tables[s.target], s, plan)
  }

  /** The last change is a part of a publication. */
  ghost predicate Torn(changes: seq<Change>) {
    changes != [] && PublicationOf(changes[|changes| - 1]).Some? && !Whole(changes[|changes| - 1])
  }

  lemma PublishedNew(c: Config, t: Trail, payloads: seq<Payload>, step: Option<Step>, j: nat)
    requires Runs(c, t) && j < |t.changes| && Shaped(c, t.changes, payloads, step, j)
    requires PublicationOf(t.changes[j]).Some?
    requires j + 1 == |t.changes| ==> !Torn(t.changes)
    ensures AllNew(t.dbs[j], t.dbs[j + 1], SwapsOf(c, payloads), PlanFor(c, payloads))
  {
    var change, swaps := t.changes[j], SwapsOf(c, payloads);
    assert Makes(c, change, t.dbs[j], t.dbs[j + 1]);
    if change.LeftOpen? {
      EverythingIsAll(t.dbs[j], t.dbs[j + 1], swaps, PlanFor(c, payloads), WritesOf(change.left.steps),
        change.left.extent);
    }
    assert forall s | s in swaps :: s in SwapSet(swaps);
  }

  /** At every moment of a run, however it ends, another session sees all its
      targets as they were or all of them published - unless the unlocking
      commits a part of the publication. */
  lemma {:induction false} SeenWhole(c: Config, t: Trail, payloads: seq<Payload>, step: Option<Step>, i: nat)
    requires c.Valid() && Named(payloads) && Runs(c, t) && Ended(c, t.changes, payloads, step) && i < |t.dbs|
    requires i == |t.changes| ==> !Torn(t.changes)
    ensures AllOld(t.dbs[0], t.dbs[i], SwapsOf(c, payloads))
      || (|payloads| + 1 < i && AllNew(t.dbs[|payloads| + 1], t.dbs[i], SwapsOf(c, payloads), PlanFor(c, payloads)))
  {
    if i > 0 {
      var j := i - 1;
      SeenWhole(c, t, payloads, step, j);
      ShapeOf(c, t.changes, payloads, step, j);
      assert Makes(c, t.changes[j], t.dbs[j], t.dbs[i]);
      if PublicationOf(t.changes[j]).None? {
        forall s | s in SwapsOf(c, payloads)
          ensures Same(t.dbs[j].tables, t.dbs[i].tables, s.target)
        {
          TargetUnseen(c, t.changes[j], t.dbs[j], t.dbs[i], s.target);
        }
      } else {
        PublishedNew(c, t, payloads, step, j);
      }
    }
  }

  /** Each output staged in turn. */
  ghost predicate AllStaged(c: Config, dbs: seq<Database>, payloads: seq<Payload>) {
    && |dbs| > |payloads| + 1
    && forall i | 0 <= i < |payloads| :: StagedInTurn(c, dbs, payloads, i)
  }

  ghost predicate StagedInTurn(c: Config, dbs: seq<Database>, payloads: seq<Payload>, i: nat)
    requires i < |payloads| && |dbs| > |payloads| + 1
  {
    Staged(c, dbs[i + 1], dbs[i + 2], payloads[i], SwapOf(c, payloads[i]))
  }

  lemma StagesAll(c: Config, t: Trail, payloads: seq<Payload>)
    requires Runs(c, t) && |payloads| < |t.changes| && t.changes[..|payloads| + 1] == Outputs(c, payloads)
    ensures AllStaged(c, t.dbs, payloads)
  {
    forall i | 0 <= i < |payloads|
      ensures StagedInTurn(c, t.dbs, payloads, i)
    {
      assert t.changes[i + 1] == t.changes[..|payloads| + 1][i + 1] == Stage(payloads[i], SwapOf(c, payloads[i]));
      assert Makes(c, t.changes[i + 1], t.dbs[i + 1], t.dbs[i + 2]);
    }
  }

  /** The staging table of an output stays as it was prepared while the others
      are. */
  lemma {:induction false} StagedStill(c: Config, dbs: seq<Database>, payloads: seq<Payload>, i: nat, n: nat)
    requires AllStaged(c, dbs, payloads) && i < n <= |payloads|
    ensures StagedIn(dbs[n + 1], SwapOf(c, payloads[i]), payloads[i])
  {
    assert StagedInTurn(c, dbs, payloads, n - 1);
    if i == n - 1 {
      StagedHere(c, dbs[n], dbs[n + 1], payloads[i]);
    } else {
      StagedStill(c, dbs, payloads, i, n - 1);
      StagedBeside(c, dbs[n], dbs[n + 1], payloads[n - 1], SwapOf(c, payloads[i]), payloads[i]);
    }
  }

  ghost predicate StagedIn(db: Database, s: Swap, p: Payload) {
    s.staging in db.tables && db.tables[s.staging].rows == p.rows
  }

  lemma StagedHere(c: Config, before: Database, after: Database, p: Payload)
    requires Staged(c, before, after, p, SwapOf(c, p))
    ensures StagedIn(after, SwapOf(c, p), p)
  {
  }

  lemma StagedBeside(c: Config, before: Database, after: Database, p: Payload, other: Swap, q: Payload)
    requires Staged(c, before, after, p, SwapOf(c, p)) && StagedIn(before, other, q)
    ensures StagedIn(after, other, q)
  {
  }

  /** No two outputs of a run that staged them share a name. */
  lemma StagedApart(c: Config, dbs: seq<Database>, payloads: seq<Payload>, i: nat, j: nat)
    requires AllStaged(c, dbs, payloads) && i < j < |payloads|
    ensures payloads[i].table != payloads[j].table
  {
    StagedStill(c, dbs, payloads, i, j);
    assert StagedInTurn(c, dbs, payloads, j);
  }

  lemma TargetApart(c: Config, dbs: seq<Database>, payloads: seq<Payload>, i: nat, j: nat)
    requires c.Valid() && Named(payloads) && AllStaged(c, dbs, payloads)
    requires i < |payloads| && j < |payloads| && i != j
    ensures SwapOf(c, payloads[i]).target != SwapOf(c, payloads[j]).target
    ensures SwapOf(c, payloads[i]).target != SwapOf(c, payloads[j]).staging
  {
    StagedApart(c, dbs, payloads, if i < j then i else j, if i < j then j else i);
    StagingNameOwned(c.digest, Some(c.schema), payloads[j].table, c.token, c.maxBytes);
    assert payloads[i] in payloads;
  }

  lemma UnbegunUntouched(c: Config, dbs: seq<Database>, payloads: seq<Payload>, begun: set<Swap>, i: nat)
    requires c.Valid() && Named(payloads) && AllStaged(c, dbs, payloads) && i < |payloads|
    requires begun <= SwapSet(SwapsOf(c, payloads)) && SwapOf(c, payloads[i]) !in begun
    ensures Untouched(SwapOf(c, payloads[i]).target, begun)
  {
    var s := SwapOf(c, payloads[i]);
    forall o | o in begun
      ensures s.target != o.target && s.target != o.staging
    {
      var j :| 0 <= j < |payloads| && SwapsOf(c, payloads)[j] == o;
      TargetApart(c, dbs, payloads, i, j);
    }
  }

  /** s is published in the one database, if it is one of those done from the
      other. */
  ghost predicate PartShown(at: Database, now: Database, s: Swap, left: Left)
    requires left.PartPublish?
  {
    s in left.extent.done ==>
      && s.target in now.tables && s.staging in at.tables
      && TargetDone(at, now.tables[s.target], s, left.plan)
  }

  lemma PartShows(c: Config, at: Database, now: Database, left: Left, s: Swap)
    requires left.PartPublish? && Leaves(c, left, at, now)
    ensures PartShown(at, now, s, left)
  {
  }

  lemma PartHides(c: Config, t: Trail, payloads: seq<Payload>, left: Left, i: nat)
    requires c.Valid() && Named(payloads) && Runs(c, t) && i < |payloads| && |t.changes| == |payloads| + 2
    requires t.changes[..|payloads| + 1] == Outputs(c, payloads) && t.changes[|payloads| + 1] == LeftOpen(left)
    requires left.PartPublish? && left.pending == SwapsOf(c, payloads)
    requires SwapOf(c, payloads[i]) !in Begun(left.extent)
    ensures Same(t.dbs[|payloads| + 1].tables, t.dbs[|payloads| + 2].tables, SwapOf(c, payloads[i]).target)
  {
    assert Makes(c, t.changes[|payloads| + 1], t.dbs[|payloads| + 1], t.dbs[|payloads| + 2]);
    StagesAll(c, t, payloads);
    UnbegunUntouched(c, t.dbs, payloads, Begun(left.extent), i);
  }

  /** What another session sees of a part: the targets done are published, and
      those not begun are as they were before the run. */
  lemma TornShows(c: Config, t: Trail, payloads: seq<Payload>, step: Option<Step>, i: nat) returns (left: Left)
    requires c.Valid() && Named(payloads) && Runs(c, t) && Ended(c, t.changes, payloads, step)
    requires Torn(t.changes) && i < |payloads|
    ensures left.PartPublish? && t.changes == Outputs(c, payloads) + [LeftOpen(left)]
    ensures PartShown(t.dbs[|t.dbs| - 2], t.dbs[|t.dbs| - 1], SwapOf(c, payloads[i]), left)
    ensures SwapOf(c, payloads[i]) !in Begun(left.extent) ==>
      Same(t.dbs[0].tables, t.dbs[|t.dbs| - 1].tables, SwapOf(c, payloads[i]).target)
  {
    left := TornLeft(c, t.changes, payloads, step);
    LastLeaves(c, t, left);
    PartShows(c, t.dbs[|t.dbs| - 2], t.dbs[|t.dbs| - 1], left, SwapOf(c, payloads[i]));
    if SwapOf(c, payloads[i]) !in Begun(left.extent) {
      TornHides(c, t, payloads, step, left, i);
    }
  }

  lemma LastLeaves(c: Config, t: Trail, left: Left)
    requires Runs(c, t) && t.changes != [] && t.changes[|t.changes| - 1] == LeftOpen(left)
    ensures Leaves(c, left, t.dbs[|t.dbs| - 2], t.dbs[|t.dbs| - 1])
  {
    assert Makes(c, t.changes[|t.changes| - 1], t.dbs[|t.changes| - 1], t.dbs[|t.changes|]);
  }

  lemma TornHides(c: Config, t: Trail, payloads: seq<Payload>, step: Option<Step>, left: Left, i: nat)
    requires c.Valid() && Named(payloads) && Runs(c, t) && Ended(c, t.changes, payloads, step) && i < |payloads|
    requires t.changes == Outputs(c, payloads) + [LeftOpen(left)]
    requires left.PartPublish? && left.pending == SwapsOf(c, payloads) && SwapOf(c, payloads[i]) !in Begun(left.extent)
    ensures Same(t.dbs[0].tables, t.dbs[|t.dbs| - 1].tables, SwapOf(c, payloads[i]).target)
  {
    var j := |payloads| + 1;
    assert t.changes[..j] == Outputs(c, payloads) && t.changes[j] == LeftOpen(left);
    PartHides(c, t, payloads, left, i);
    SeenWhole(c, t, payloads, step, j);
    assert SwapOf(c, payloads[i]) == SwapsOf(c, payloads)[i];
  }

  lemma TornLeft(c: Config, changes: seq<Change>, payloads: seq<Payload>, step: Option<Step>) returns (left: Left)
    requires Ended(c, changes, payloads, step) && Torn(changes)
    ensures left.PartPublish? && left.pending == SwapsOf(c, payloads)
    ensures |changes| == |payloads| + 2 && changes[|payloads| + 1] == LeftOpen(left)
    ensures changes == Outputs(c, payloads) + [LeftOpen(left)]
  {
    ShapeOf(c, changes, payloads, step, |changes| - 1);
    left := ShapedLeft(c, changes, payloads, step);
  }

  lemma ShapedLeft(c: Config, changes: seq<Change>, payloads: seq<Payload>, step: Option<Step>) returns (left: Left)
    requires Torn(changes) && Shaped(c, changes, payloads, step, |changes| - 1)
    requires changes[..|changes| - 1] == Outputs(c, payloads)
    ensures left.PartPublish? && left.pending == SwapsOf(c, payloads)
    ensures |changes| == |payloads| + 2 && changes[|payloads| + 1] == LeftOpen(left)
    ensures changes == Outputs(c, payloads) + [LeftOpen(left)]
  {
    var j := |changes| - 1;
    left := changes[j].left;
    assert changes == changes[..j] + [changes[j]];
  }
}
