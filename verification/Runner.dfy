/** Running a task and cleaning up after it: every resource is closed once, and
    no cleanup failure hides the primary one (task_core/runner.py, 447-761;
    task_core/context.py, 143-218; task_core/cleanup.py, 40-80). */
module Runner {
  import opened Values

  datatype Failure = Failure(id: int) | FailureGroup(members: seq<Failure>)

  /** What raising a list of collected failures amounts to. */
  function Raising(errors: seq<Failure>): Option<Failure> {
    if errors == [] then None
    else if |errors| == 1 then Some(errors[0])
    else Some(FailureGroup(errors))
  }

  // -- what a run asks of the world around it ------------------------------------------

  /** `Refusal` is the runner's and the context's own raising; an answer the run
      depends on is part of its call. */
  datatype Call =
    | Refusal
    | Load(name: string)
    | BuildPublisher
    | BeginRun(claimed: bool)
    | Fingerprint
    | Compare(same: bool)
    | RunPipeline(name: string)
    | Publish(name: string)
    | Commit
    | Rollback
    | ClosePublisher
    | CloseResource(resource: Resource)
  {
    predicate Cleanup() { Rollback? || ClosePublisher? || CloseResource? }
  }

  /** One call, and what it raised. */
  datatype Event = Event(call: Call, failure: Option<Failure>)

  /** Every call made, in order; nothing but the calls themselves writes here. */
  class Journal {
    ghost var events: seq<Event>

    constructor ()
      ensures events == []
    {
      events := [];
    }

    /** A call that may fail. */
    method Make(ghost call: Call) returns (e: Option<Failure>)
      modifies this
      ensures events == old(events) + [Event(call, e)]
    {
      var fails: bool := *;
      var id: int := *;
      e := if fails then Some(Failure(id)) else None;
      events := events + [Event(call, e)];
    }

    method Refuse() returns (f: Failure)
      modifies this
      ensures events == old(events) + [Event(Refusal, Some(f))]
    {
      var id: int := *;
      f := Failure(id);
      events := events + [Event(Refusal, Some(f))];
    }
  }

  ghost function Failures(events: seq<Event>): seq<Failure> {
    if events == [] then []
    else
      var n := |events| - 1;
      Failures(events[..n]) + if events[n].failure.Some? then [events[n].failure.value] else []
  }

  lemma FailuresSnoc(events: seq<Event>, e: Event)
    ensures Failures(events + [e]) == Failures(events) + if e.failure.Some? then [e.failure.value] else []
  {
    assert (events + [e])[..|events|] == events;
  }

  /** No call failed, and none was cleanup. */
  ghost predicate Clean(events: seq<Event>) {
    forall e | e in events :: e.failure.None? && !e.call.Cleanup()
  }

  /** The last call is the first that failed, with f. */
  ghost predicate StoppedBy(events: seq<Event>, f: Failure) {
    && events != [] && Clean(events[..|events| - 1])
    && events[|events| - 1].failure == Some(f) && !events[|events| - 1].call.Cleanup()
  }

  lemma StopsHere(events: seq<Event>, call: Call, f: Failure)
    requires Clean(events) && !call.Cleanup()
    ensures StoppedBy(events + [Event(call, Some(f))], f)
  {
    assert (events + [Event(call, Some(f))])[..|events|] == events;
  }

  // -- resources -------------------------------------------------------------------------

  /** An object a loader built; not every one has a close method. */
  class Resource {
    const journal: Journal
    const closable: bool
    var closeAttempts: nat

    constructor (j: Journal, hasClose: bool)
      ensures journal == j && closable == hasClose && closeAttempts == 0
    {
      journal := j;
      closable := hasClose;
      closeAttempts := 0;
    }

    method Close() returns (e: Option<Failure>)
      modifies this, journal
      ensures closeAttempts == old(closeAttempts) + 1
      ensures journal.events == old(journal.events) + [Event(CloseResource(this), e)]
    {
      closeAttempts := closeAttempts + 1;
      e := journal.Make(CloseResource(this));
    }
  }

  predicate Distinct(items: seq<Resource>) {
    forall i, j | 0 <= i < j < |items| :: items[i] != items[j]
  }

  /** One closing of each item, in order. */
  ghost predicate Closings(events: seq<Event>, items: seq<Resource>) {
    |events| == |items| && forall i | 0 <= i < |items| :: events[i].call == CloseResource(items[i])
  }

  /** Every item is attempted whatever the others do; exactly what failed is
      raised at the end. */
  method AttemptAllCleanup(journal: Journal, items: seq<Resource>)
    returns (raised: Option<Failure>, ghost closings: seq<Event>)
    requires Distinct(items) && forall item | item in items :: item.journal == journal
    modifies items, journal
    ensures forall item | item in items :: item.closeAttempts == old(item.closeAttempts) + 1
    ensures journal.events == old(journal.events) + closings && Closings(closings, items)
    ensures raised == Raising(Failures(closings))
  {
    var collected: seq<Failure> := [];
    closings := [];
    var i := 0;
    while i < |items|
      invariant 0 <= i <= |items|
      invariant forall j | 0 <= j < i :: items[j].closeAttempts == old(items[j].closeAttempts) + 1
      invariant forall j | i <= j < |items| :: items[j].closeAttempts == old(items[j].closeAttempts)
      invariant journal.events == old(journal.events) + closings && Closings(closings, items[..i])
      invariant collected == Failures(closings)
    {
      var e := items[i].Close();
      FailuresSnoc(closings, Event(CloseResource(items[i]), e));
      closings := closings + [Event(CloseResource(items[i]), e)];
      if e.Some? {
        collected := collected + [e.value];
      }
      i := i + 1;
    }
    assert items[..i] == items;
    raised := if collected == [] then None
              else if |collected| == 1 then Some(collected[0])
              else Some(FailureGroup(collected));
  }

  datatype Entry = Entry(name: string, resource: Resource)

  function Resources(cache: seq<Entry>): set<Resource> {
    if cache == [] then {} else Resources(cache[..|cache| - 1]) + {cache[|cache| - 1].resource}
  }

  lemma {:induction false} ResourceAt(cache: seq<Entry>, k: nat)
    requires k < |cache|
    ensures cache[k].resource in Resources(cache)
  {
    if k < |cache| - 1 {
      ResourceAt(cache[..|cache| - 1], k);
    }
  }

  /** The distinct objects with a close method, in the order first cached. */
  function Closables(cache: seq<Entry>): seq<Resource> {
    if cache == [] then []
    else
      var front := Closables(cache[..|cache| - 1]);
      var r := cache[|cache| - 1].resource;
      if r.closable && r !in front then front + [r] else front
  }

  lemma {:induction false} ClosablesAre(cache: seq<Entry>)
    ensures Distinct(Closables(cache)) && ClosesAll(Closables(cache), Resources(cache))
  {
    if cache != [] {
      ClosablesAre(cache[..|cache| - 1]);
    }
  }

  /** Exactly the closable ones. */
  ghost predicate ClosesAll(items: seq<Resource>, built: set<Resource>) {
    && (forall r | r in items :: r in built)
    && (forall r | r in built :: r in items <==> r.closable)
  }

  /** task_context: loaders run once per name, and everything they built is
      cached until close. */
  class TaskContext {
    const journal: Journal
    const loaders: set<string>
    var cache: seq<Entry>
    var closed: bool
    ghost var constructed: set<Resource>

    ghost predicate Valid()
      reads this, constructed
    {
      && (forall r | r in constructed :: r.journal == journal)
      && Resources(cache) <= constructed
      && (!closed ==> constructed == Resources(cache) && forall r | r in constructed :: r.closeAttempts == 0)
      && (closed ==> forall r | r in constructed :: r.closeAttempts == if r.closable then 1 else 0)
    }

    constructor (j: Journal, names: set<string>)
      ensures Valid() && cache == [] && !closed && constructed == {} && loaders == names && journal == j
    {
      journal := j;
      loaders := names;
      cache := [];
      closed := false;
      constructed := {};
    }

    function Cached(name: string): Option<Resource>
      reads this
    {
      FindEntry(cache, name)
    }

    /** A loader may build a new object, hand out one it built before, or fail;
        it runs only for a name not yet cached. */
    method GetResource(name: string) returns (r: Option<Resource>, e: Option<Failure>)
      requires Valid()
      modifies this, journal
      ensures Valid() && closed == old(closed)
      ensures r.Some? <==> e.None?
      ensures old(closed) ==> e.Some?
      ensures r.Some? ==> r.value in constructed && Cached(name) == r
      ensures !old(closed) && old(Cached(name)).Some? ==>
        r == old(Cached(name)) && cache == old(cache) && journal.events == old(journal.events)
      ensures !old(closed) && old(Cached(name)).None? && name !in loaders ==> e.Some?
      ensures old(constructed) <= constructed && fresh(constructed - old(constructed))
      ensures old(closed) || old(Cached(name)).None? ==>
        journal.events == old(journal.events)
          + [Event(if old(closed) || name !in loaders then Refusal else Load(name), e)]
    {
      if closed {
        var f := journal.Refuse();
        return None, Some(f);
      }
      var hit := Cached(name);
      if hit.Some? {
        FindEntryIn(cache, name);
        ghost var k :| 0 <= k < |cache| && cache[k].resource == hit.value;
        ResourceAt(cache, k);
        return hit, None;
      }
      if name !in loaders {
        var f := journal.Refuse();
        return None, Some(f);
      }
      var failed := journal.Make(Load(name));
      if failed.Some? {
        return None, failed;
      }
      var shares: int := *;
      var built: Resource;
      if 0 <= shares < |cache| {
        built := cache[shares].resource;
        ResourceAt(cache, shares);
      } else {
        var hasClose: bool := *;
        built := new Resource(journal, hasClose);
        constructed := constructed + {built};
      }
      FindEntryAppend(cache, Entry(name, built));
      ghost var before := cache;
      cache := cache + [Entry(name, built)];
      assert cache[..|before|] == before;
      r, e := Some(built), None;
    }

    /** The distinct objects to close, by identity. */
    method ToClose() returns (toClose: seq<Resource>)
      requires Valid()
      ensures toClose == Closables(cache) && Distinct(toClose)
    {
      var seen: set<Resource> := {};
      toClose := [];
      var i := 0;
      while i < |cache|
        invariant 0 <= i <= |cache|
        invariant seen == Resources(cache[..i])
        invariant toClose == Closables(cache[..i])
      {
        var r := cache[i].resource;
        assert cache[..i + 1][..i] == cache[..i];
        ClosablesAre(cache[..i]);
        if r !in seen {
          seen := seen + {r};
          if r.closable {
            toClose := toClose + [r];
          }
        }
        i := i + 1;
      }
      assert cache[..i] == cache;
      ClosablesAre(cache);
    }

    /** Close each distinct object once, whatever fails, and raise exactly what
        failed; a second close does nothing. */
    method Close() returns (raised: Option<Failure>, ghost closings: seq<Event>)
      requires Valid()
      modifies this, constructed, journal
      ensures Valid() && closed && constructed == old(constructed)
      ensures journal.events == old(journal.events) + closings && raised == Raising(Failures(closings))
      ensures Closings(closings, if old(closed) then [] else Closables(old(cache)))
    {
      if closed {
        return None, [];
      }
      var toClose := ToClose();
      ClosablesAre(cache);
      closed := true;
      cache := [];
      raised, closings := AttemptAllCleanup(journal, toClose);
    }
  }

  function FindEntry(cache: seq<Entry>, name: string): Option<Resource> {
    if cache == [] then None
    else if cache[0].name == name then Some(cache[0].resource)
    else FindEntry(cache[1..], name)
  }

  lemma {:induction false} FindEntryIn(cache: seq<Entry>, name: string)
    requires FindEntry(cache, name).Some?
    ensures exists k | 0 <= k < |cache| :: cache[k].resource == FindEntry(cache, name).value
  {
    if cache[0].name != name {
      FindEntryIn(cache[1..], name);
      var k :| 0 <= k < |cache| - 1 && cache[1..][k].resource == FindEntry(cache, name).value;
      assert cache[k + 1].resource == FindEntry(cache, name).value;
    }
  }

  lemma {:induction false} FindEntryAppend(cache: seq<Entry>, e: Entry)
    requires FindEntry(cache, e.name).None?
    ensures FindEntry(cache + [e], e.name) == Some(e.resource)
  {
    if cache == [] {
      assert [] + [e] == [e];
    } else {
      assert (cache + [e])[1..] == cache[1..] + [e];
      FindEntryAppend(cache[1..], e);
    }
  }

  // -- the publisher and the request ----------------------------------------------------

  /** The publisher as the runner uses it; any call may fail. */
  class PublisherHandle {
    const journal: Journal

    constructor (j: Journal)
      ensures journal == j
    {
      journal := j;
    }

    method BeginRun() returns (claimed: bool, e: Option<Failure>)
      modifies journal
      ensures journal.events == old(journal.events) + [Event(Call.BeginRun(claimed), e)]
    {
      claimed := *;
      e := journal.Make(Call.BeginRun(claimed));
    }

    method Publish(name: string) returns (e: Option<Failure>)
      modifies journal
      ensures journal.events == old(journal.events) + [Event(Call.Publish(name), e)]
    {
      e := journal.Make(Call.Publish(name));
    }

    method Commit() returns (e: Option<Failure>)
      modifies journal
      ensures journal.events == old(journal.events) + [Event(Call.Commit, e)]
    {
      e := journal.Make(Call.Commit);
    }

    method Rollback() returns (e: Option<Failure>)
      modifies journal
      ensures journal.events == old(journal.events) + [Event(Call.Rollback, e)]
    {
      e := journal.Make(Call.Rollback);
    }

    method Close() returns (e: Option<Failure>)
      modifies journal
      ensures journal.events == old(journal.events) + [Event(ClosePublisher, e)]
    {
      e := journal.Make(ClosePublisher);
    }
  }

  /** One pipeline of the sequence: the resources it is bound to, and whether it
      declares a table. */
  datatype Pipeline = Pipeline(name: string, resources: seq<string>, publishes: bool)

  datatype Request = Request(
    pipelines: seq<Pipeline>,
    tracked: seq<string>,
    outputDb: bool,
    sourceCheck: bool,
    force: bool)
  {
    predicate HasDbOutputs() { outputDb && exists i | 0 <= i < |pipelines| :: pipelines[i].publishes }
    predicate SourceCheckEnabled() { outputDb && sourceCheck }
  }

  /** What the calls of a run did: the pipelines run and the tables published,
      in order; the answers it depended on; the commits asked for. */
  datatype Tally = Tally(ran: seq<string>, published: seq<string>, asked: seq<Call>, commits: nat)

  ghost function Counted(t: Tally, call: Call): Tally {
    match call
    case RunPipeline(name) => t.(ran := t.ran + [name])
    case Publish(name) => t.(published := t.published + [name])
    case BeginRun(_) => t.(asked := t.asked + [call])
    case Compare(_) => t.(asked := t.asked + [call])
    case Commit => t.(commits := t.commits + 1)
    case _ => t
  }

  ghost function TallyOf(events: seq<Event>): Tally {
    if events == [] then Tally([], [], [], 0)
    else Counted(TallyOf(events[..|events| - 1]), events[|events| - 1].call)
  }

  ghost function Names(pipelines: seq<Pipeline>): seq<string> {
    if pipelines == [] then [] else Names(pipelines[..|pipelines| - 1]) + [pipelines[|pipelines| - 1].name]
  }

  ghost function Publishing(pipelines: seq<Pipeline>, outputDb: bool): seq<string> {
    if pipelines == [] then []
    else
      var n := |pipelines| - 1;
      Publishing(pipelines[..n], outputDb)
        + if outputDb && pipelines[n].publishes then [pipelines[n].name] else []
  }

  /** The record of a run, one more call later. */
  lemma OneMore(events: seq<Event>, e: Event)
    ensures TallyOf(events + [e]) == Counted(TallyOf(events), e.call)
    ensures Clean(events) && e.failure.None? && !e.call.Cleanup() ==> Clean(events + [e])
    ensures Clean(events) && e.failure.Some? && !e.call.Cleanup() ==> StoppedBy(events + [e], e.failure.value)
  {
    assert (events + [e])[..|events|] == events;
  }

  datatype SkipReason = AlreadyRunning | SourcesUnchanged

  datatype RunResult = Skipped(reason: SkipReason) | Completed

  datatype Completion = Returned(result: RunResult) | Raised(failure: Failure)

  /** How the calls of the try block end: with the failure of the last, with a
      lock another run holds, with sources found unchanged, or complete. */
  ghost function WorkEnd(work: seq<Event>, force: bool): Completion {
    if work == [] then Returned(Completed)
    else
      var last := work[|work| - 1];
      if last.failure.Some? then Raised(last.failure.value)
      else if last.call == BeginRun(false) then Returned(Skipped(AlreadyRunning))
      else if last.call == Compare(true) && !force then Returned(Skipped(SourcesUnchanged))
      else Returned(Completed)
  }

  /** A rollback is owed after a failure and before a skip for unchanged
      sources. */
  predicate RollsBack(c: Completion) {
    c.Raised? || c == Returned(Skipped(SourcesUnchanged))
  }

  /** A cleanup call that may or may not be made: None is no call, Some what it
      raised. */
  type Attempt = Option<Option<Failure>>

  ghost function Attempted(call: Call, a: Attempt): seq<Event> {
    if a.None? then [] else [Event(call, a.value)]
  }

  function Errors(a: Attempt): seq<Failure> {
    if a.Some? && a.value.Some? then [a.value.value] else []
  }

  /** The failures of cleanup as they are collected: the context's count as the
      one it raises. */
  ghost function Collected(rollback: Attempt, close: Attempt, closings: seq<Event>): seq<Failure> {
    Errors(rollback) + Errors(close) + Errors(Some(Raising(Failures(closings))))
  }

  /** What run_pipelines() comes to. */
  function Settled(end: Completion, cleanupErrors: seq<Failure>): Completion {
    if end.Raised? || cleanupErrors == [] then end
    else Raised(if |cleanupErrors| == 1 then cleanupErrors[0] else FailureGroup(cleanupErrors))
  }

  // -- one run ------------------------------------------------------------------------------

  /** One run_pipelines() call after its context was built. */
  class Run {
    const ctx: TaskContext
    const journal: Journal
    const request: Request
    var publisher: PublisherHandle?
    var primary: Option<Failure>
    var cleanupErrors: seq<Failure>
    var rollbackAttempted: bool

    ghost predicate Valid()
      reads this, ctx, ctx.constructed
    {
      && ctx.Valid() && !ctx.closed && ctx.journal == journal
      && (publisher != null ==> publisher.journal == journal)
      && (publisher == null ==> !rollbackAttempted)
    }

    /** Only work so far. */
    ghost predicate Working()
      reads this, ctx, ctx.constructed, journal
    {
      Valid() && !rollbackAttempted && cleanupErrors == [] && Clean(journal.events)
    }

    constructor (context: TaskContext, r: Request)
      requires context.Valid() && !context.closed
      ensures Valid() && publisher == null && primary == None && cleanupErrors == [] && !rollbackAttempted
      ensures ctx == context && request == r && journal == context.journal
    {
      ctx := context;
      journal := context.journal;
      request := r;
      publisher := null;
      primary := None;
      cleanupErrors := [];
      rollbackAttempted := false;
    }

    /** At most once, and only when there is something to roll back; its failure
        is kept. */
    method TryRollback() returns (ghost a: Attempt)
      requires Valid()
      modifies this`rollbackAttempted, this`cleanupErrors, journal
      ensures Valid() && rollbackAttempted == (old(rollbackAttempted) || publisher != null)
      ensures a.Some? <==> !old(rollbackAttempted) && publisher != null
      ensures journal.events == old(journal.events) + Attempted(Rollback, a)
      ensures cleanupErrors == old(cleanupErrors) + Errors(a)
    {
      if rollbackAttempted || publisher == null {
        return None;
      }
      rollbackAttempted := true;
      var e := publisher.Rollback();
      if e.Some? {
        cleanupErrors := cleanupErrors + [e.value];
      }
      a := Some(e);
    }

    /** The work went on without a failure, or stopped at its first. */
    twostate predicate Went(new e: Option<Failure>)
      reads this, ctx, ctx.constructed, journal
    {
      && Valid() && old(ctx.constructed) <= ctx.constructed && fresh(ctx.constructed - old(ctx.constructed))
      && (e.None? ==> Clean(journal.events))
      && (e.Some? ==> StoppedBy(journal.events, e.value))
    }

    ghost function Done(): Tally
      reads journal
    {
      TallyOf(journal.events)
    }

    /** Fetch resources through the context's cache. */
    method GetAll(names: seq<string>) returns (e: Option<Failure>)
      requires Working()
      modifies ctx, journal
      ensures Went(e) && Done() == old(Done())
    {
      var i := 0;
      while i < |names|
        invariant 0 <= i <= |names| && Went(None) && Done() == old(Done())
      {
        ghost var before := journal.events;
        var r, failed := ctx.GetResource(names[i]);
        if journal.events != before {
          OneMore(before, journal.events[|before|]);
        }
        if failed.Some? {
          return failed;
        }
        i := i + 1;
      }
      e := None;
    }

    /** One call of the work. */
    method Step(ghost call: Call) returns (e: Option<Failure>)
      requires Working() && !call.Cleanup()
      modifies journal
      ensures Went(e) && journal.events == old(journal.events) + [Event(call, e)]
      ensures Done() == Counted(old(Done()), call)
    {
      e := journal.Make(call);
      OneMore(old(journal.events), Event(call, e));
    }

    /** One pipeline: its resources, its run, and its table. */
    method RunOne(p: Pipeline) returns (e: Option<Failure>)
      requires Working() && (request.outputDb && p.publishes ==> publisher != null)
      modifies ctx, journal
      ensures Went(e)
      ensures e.None? ==> Done() == AfterOne(old(Done()), p)
    {
      e := GetAll(p.resources);
      if e.Some? {
        return;
      }
      e := Step(RunPipeline(p.name));  // with its validation and export
      if e.Some? {
        return;
      }
      if request.outputDb && p.publishes {
        ghost var before := journal.events;
        e := publisher.Publish(p.name);
        OneMore(before, Event(Publish(p.name), e));
      }
    }

    ghost function AfterOne(t: Tally, p: Pipeline): Tally {
      t.(ran := t.ran + [p.name],
         published := t.published + if request.outputDb && p.publishes then [p.name] else [])
    }

    /** Run and publish the sequence, stopping at the first failure. */
    method RunSequence() returns (e: Option<Failure>)
      requires Working() && (request.HasDbOutputs() ==> publisher != null)
      requires Done().ran == [] && Done().published == []
      modifies ctx, journal
      ensures Went(e)
      ensures e.None? ==>
        Done() == old(Done()).(
          ran := Names(request.pipelines), published := Publishing(request.pipelines, request.outputDb))
    {
      var i := 0;
      while i < |request.pipelines|
        invariant 0 <= i <= |request.pipelines| && Went(None)
        invariant Done() == old(Done()).(
          ran := Names(request.pipelines[..i]), published := Publishing(request.pipelines[..i], request.outputDb))
      {
        assert request.pipelines[..i + 1][..i] == request.pipelines[..i];
        e := RunOne(request.pipelines[i]);
        if e.Some? {
          return;
        }
        i := i + 1;
      }
      assert request.pipelines[..i] == request.pipelines;
      e := None;
    }

    /** Claim the task: Some is how the run ends here. */
    method Claim() returns (end: Option<Completion>)
      requires Working() && publisher != null && Done() == Tally([], [], [], 0)
      requires request.HasDbOutputs() || request.SourceCheckEnabled()
      modifies journal
      ensures Valid()
      ensures end.None? ==> Working() && Done() == Tally([], [], [BeginRun(true)], 0)
      ensures end.Some? ==> Ended(end.value)
    {
      ghost var before := journal.events;
      var claimed, e := publisher.BeginRun();
      OneMore(before, Event(BeginRun(claimed), e));
      if e.Some? {
        return Some(Raised(e.value));
      }
      end := if claimed then None else Some(Returned(Skipped(AlreadyRunning)));
    }

    /** The run ends before its pipelines, as its last call says. */
    ghost predicate Ended(end: Completion)
      reads this, ctx, ctx.constructed, journal
    {
      && end == WorkEnd(journal.events, request.force)
      && (end.Raised? ==> StoppedBy(journal.events, end.failure))
      && (end.Returned? ==>
            Working() && publisher != null && end == Returned(Skipped(AlreadyRunning)) && Warranted(end))
    }

    /** Build the publisher and claim the task with it. */
    method BuildAndClaim() returns (end: Option<Completion>)
      requires Working() && publisher == null && journal.events == []
      requires request.HasDbOutputs() || request.SourceCheckEnabled()
      modifies this`publisher, journal
      ensures Valid() && (publisher != null ==> fresh(publisher))
      ensures end.None? ==> Working() && publisher != null && Done() == Tally([], [], [BeginRun(true)], 0)
      ensures end.Some? ==> Ended(end.value)
    {
      var e := Step(BuildPublisher);
      if e.Some? {
        return Some(Raised(e.value));
      }
      publisher := new PublisherHandle(journal);
      end := Claim();
    }

    /** Claim the task, when this run has anything to do with the database. */
    method Begin() returns (end: Option<Completion>)
      requires Working() && publisher == null && journal.events == []
      modifies this`publisher, journal
      ensures Valid() && (publisher != null ==> fresh(publisher))
      ensures end.None? ==>
        && Working() && (publisher != null <==> request.HasDbOutputs() || request.SourceCheckEnabled())
        && Done() == Tally([], [], if publisher != null then [BeginRun(true)] else [], 0)
      ensures end.None? && request.SourceCheckEnabled() ==> request.tracked != []
      ensures end.Some? ==> Ended(end.value)
    {
      if request.SourceCheckEnabled() && request.tracked == [] {
        var f := journal.Refuse();
        StopsHere([], Refusal, f);
        return Some(Raised(f));
      }
      if !request.HasDbOutputs() && !request.SourceCheckEnabled() {
        return None;
      }
      end := BuildAndClaim();
    }

    /** Compare the tracked sources with those stored; true ends the run. */
    method Check() returns (skips: bool, e: Option<Failure>)
      requires Working() && request.SourceCheckEnabled()
      modifies ctx, journal
      ensures Went(e) && (e.Some? ==> !skips)
      ensures e.None? ==> exists same ::
        && journal.events != [] && journal.events[|journal.events| - 1] == Event(Compare(same), None)
        && Done() == Counted(old(Done()), Compare(same))
        && (skips <==> same && !request.force)
    {
      skips := false;
      e := GetAll(request.tracked);
      if e.Some? {
        return;
      }
      e := Step(Fingerprint);
      if e.Some? {
        return;
      }
      var same: bool := *;
      e := Step(Compare(same));  // with the state table
      skips := e.None? && same && !request.force;
    }

    /** The answers a run that goes to its end was given: its task claimed, and
        its sources changed or the run forced. */
    ghost predicate Answered(asked: seq<Call>)
      reads this
    {
      if publisher == null then asked == []
      else
        && |asked| == (if request.outputDb && request.sourceCheck then 2 else 1) && asked[0] == BeginRun(true)
        && (|asked| == 2 ==> asked[1] == Compare(false) || (asked[1] == Compare(true) && request.force))
    }

    /** Every pipeline run once, in order; every declared table published once,
        in order; one commit, last of all. */
    ghost predicate Completes(work: seq<Event>)
      reads this
    {
      var t := TallyOf(work);
      && t.ran == Names(request.pipelines) && t.published == Publishing(request.pipelines, request.outputDb)
      && Answered(t.asked)
      && t.commits == (if publisher != null then 1 else 0)
      && (publisher != null ==> work != [] && work[|work| - 1].call == Commit)
      && Warranted(Returned(Completed))
    }

    /** The database is used exactly by a run that was asked to output to it and
        either checks its sources or has a table to publish: only such a run can
        find another in its way, and only one that checks its sources, has some
        and is not forced is skipped for them. */
    ghost predicate Warranted(c: Completion)
      reads this
    {
      var some := exists i | 0 <= i < |request.pipelines| :: request.pipelines[i].publishes;
      && (c == Returned(Completed) ==> (publisher != null <==> request.outputDb && (request.sourceCheck || some)))
      && (c == Returned(Skipped(AlreadyRunning)) ==> request.outputDb && (request.sourceCheck || some))
      && (c == Returned(Skipped(SourcesUnchanged)) ==>
            request.outputDb && request.sourceCheck && request.tracked != [] && !request.force)
    }

    /** Run the sequence, and commit. */
    method Finish() returns (c: Completion)
      requires Working() && (publisher != null <==> request.HasDbOutputs() || request.SourceCheckEnabled())
      requires Done().ran == [] && Done().published == [] && Done().commits == 0 && Answered(Done().asked)
      modifies ctx, journal
      ensures Valid() && old(ctx.constructed) <= ctx.constructed && fresh(ctx.constructed - old(ctx.constructed))
      ensures c == WorkEnd(journal.events, request.force)
      ensures c.Raised? ==> StoppedBy(journal.events, c.failure)
      ensures c.Returned? ==> Clean(journal.events) && c == Returned(Completed) && Completes(journal.events)
    {
      var e := RunSequence();
      if e.Some? {
        return Raised(e.value);
      }
      if publisher != null {
        ghost var before := journal.events;
        e := publisher.Commit();
        OneMore(before, Event(Commit, e));
        if e.Some? {
          return Raised(e.value);
        }
      }
      c := Returned(Completed);
    }

    /** The try block: the work, and the rollback before a skip for unchanged
        sources. */
    method Body() returns (c: Completion, ghost work: seq<Event>, ghost early: Attempt)
      requires Working() && publisher == null && journal.events == []
      modifies this`publisher, this`rollbackAttempted, this`cleanupErrors, ctx, journal
      ensures Valid() && (publisher != null ==> fresh(publisher))
      ensures old(ctx.constructed) <= ctx.constructed && fresh(ctx.constructed - old(ctx.constructed))
      ensures c == WorkEnd(work, request.force)
      ensures (c.Raised? ==> StoppedBy(work, c.failure)) && (c.Returned? ==> Clean(work))
      ensures (c == Returned(Completed) ==> Completes(work)) && Warranted(c)
      ensures rollbackAttempted == early.Some? == (c == Returned(Skipped(SourcesUnchanged)))
      ensures journal.events == work + Attempted(Rollback, early) && cleanupErrors == Errors(early)
    {
      early := None;
      var end := Begin();
      work := journal.events;
      if end.Some? {
        return end.value, work, early;
      }
      if request.SourceCheckEnabled() {
        var skips, e := Check();
        work := journal.events;
        if e.Some? {
          return Raised(e.value), work, early;
        }
        if skips {
          early := TryRollback();
          return Returned(Skipped(SourcesUnchanged)), work, early;
        }
      }
      c := Finish();
      work := journal.events;
    }

    /** The rollback a failure owes, then the publisher. */
    method EndPublisher(failed: bool, ghost work: seq<Event>, ghost early: Attempt)
      returns (ghost rollback: Attempt, ghost close: Attempt)
      requires Valid() && rollbackAttempted == early.Some? && (failed ==> early.None?)
      requires journal.events == work + Attempted(Rollback, early) && cleanupErrors == Errors(early)
      modifies this`rollbackAttempted, this`cleanupErrors, journal
      ensures Valid()
      ensures rollback.Some? <==> (failed || early.Some?) && publisher != null
      ensures close.Some? <==> publisher != null
      ensures journal.events == work + Attempted(Rollback, rollback) + Attempted(ClosePublisher, close)
      ensures cleanupErrors == Errors(rollback) + Errors(close)
    {
      rollback, close := early, None;
      if failed {
        rollback := TryRollback();
      }
      if publisher != null {
        var e := publisher.Close();
        if e.Some? {
          cleanupErrors := cleanupErrors + [e.value];
        }
        close := Some(e);
      }
    }

    /** The context last; what it raises is kept. */
    method EndContext() returns (ghost closings: seq<Event>)
      requires Valid()
      modifies this`cleanupErrors, ctx, ctx.constructed, journal
      ensures ctx.Valid() && ctx.closed && ctx.constructed == old(ctx.constructed)
      ensures journal.events == old(journal.events) + closings
      ensures exists items :: Closings(closings, items) && ClosesAll(items, ctx.constructed)
      ensures cleanupErrors == old(cleanupErrors) + Errors(Some(Raising(Failures(closings))))
    {
      ghost var items := Closables(ctx.cache);
      ClosablesAre(ctx.cache);
      var e;
      e, closings := ctx.Close();
      assert Closings(closings, items) && ClosesAll(items, ctx.constructed);
      if e.Some? {
        cleanupErrors := cleanupErrors + [e.value];
      }
    }

    /** run_pipelines(): the try block, the rollback of a failure, and the
        cleanup of everything.  The calls made are the work, up to its first
        failure, then the cleanup; what comes out is settled by them alone. */
    method Execute()
      returns (c: Completion, ghost work: seq<Event>, ghost rollback: Attempt, ghost close: Attempt,
               ghost closings: seq<Event>)
      requires Working() && publisher == null && journal.events == [] && primary == None && ctx.constructed == {}
      modifies this, ctx, journal
      ensures ctx.Valid() && ctx.closed
      ensures journal.events == work + Attempted(Rollback, rollback) + Attempted(ClosePublisher, close) + closings
      ensures var end := WorkEnd(work, request.force);
        && (end.Raised? ==> StoppedBy(work, end.failure)) && (end.Returned? ==> Clean(work))
        && (end == Returned(Completed) ==> Completes(work)) && Warranted(end)
        && primary == (if end.Raised? then Some(end.failure) else None)
        && (rollback.Some? <==> RollsBack(end) && publisher != null) && (close.Some? <==> publisher != null)
        && c == Settled(end, Collected(rollback, close, closings))
      ensures exists items :: Closings(closings, items) && ClosesAll(items, ctx.constructed)
    {
      ghost var early;
      c, work, early := Body();
      if c.Raised? {
        primary := Some(c.failure);
      }
      rollback, close := EndPublisher(primary.Some?, work, early);
      closings := EndContext();
      if cleanupErrors != [] && primary.None? {
        c := Raised(if |cleanupErrors| == 1 then cleanupErrors[0] else FailureGroup(cleanupErrors));
      }
    }
  }
}
