/** Whether other sessions can see part of a publication, whatever the
    interleaving (task_core/db/publish.py, 469-494, 1633-1717). */
module Visibility {
  import opened Values
  import opened Catalog
  import opened Identifiers
  import opened Publication
  import opened Publisher
  import opened P = Protocol

  /** The staging table of s has been taken: it is under its target now. */
  predicate Taken(w: World, next: World, s: Swap) {
    s.staging in w.tables && s.staging !in next.tables
  }

  /** Of the targets t has pending, one is taken and another is not. */
  ghost predicate ShowsPart(w: World, next: World, t: string)
    requires t in w.runs
  {
    && (exists s | s in w.runs[t].pending :: Taken(w, next, s))
    && (exists s | s in w.runs[t].pending :: s.staging in next.tables)
  }

  /** t's open transaction has moved some of them, and not all. */
  ghost predicate PartMoved(w: World, t: string)
    requires t in w.runs
  {
    var r := w.runs[t];
    && r.tx.Some? && r.tx.value.Publishing?
    && (exists s | s in r.pending :: s.staging in r.tx.value.removed)
    && (exists s | s in r.pending :: s.staging !in r.tx.value.removed)
  }

  lemma PendingThere(w: World, t: string, s: Swap)
    requires Inv(w) && Live(w, t) && s in w.runs[t].pending
    ensures s.staging in w.tables && Mine(w, t, s.staging) && TokenOf(s.staging) == Some(t)
  {
    assert RunOk(w, t) && Mine(w, t, s.staging) && OriginOk(w, s.staging);
  }

  /** Committing a publication takes exactly what it has moved. */
  lemma PublishingTakes(w: World, t: string, s: Swap)
    requires Inv(w) && Live(w, t) && s in w.runs[t].pending && w.runs[t].tx.Some? && w.runs[t].tx.value.Publishing?
    ensures var tx := w.runs[t].tx.value;
      s.staging in TablesAfter(w.tables, tx) <==> s.staging !in tx.removed
  {
    PendingThere(w, t, s);
    assert RunOk(w, t) && TxOk(w, t, w.runs[t].tx.value);
  }

  /** No other transaction takes anything of the run's own. */
  lemma OtherTxTakesNothing(w: World, t: string, s: Swap)
    requires Inv(w) && Live(w, t) && s in w.runs[t].pending && w.runs[t].tx.Some? && !w.runs[t].tx.value.Publishing?
    ensures s.staging in TablesAfter(w.tables, w.runs[t].tx.value)
  {
    PendingThere(w, t, s);
    assert RunOk(w, t) && TxOk(w, t, w.runs[t].tx.value);
  }

  /** The step commits t's open transaction. */
  predicate Commits(step: Step, t: string) {
    step == Session(t, Close(true)) || (step.Commit? && step.token == t)
  }

  lemma EventTakes(w: World, t: string, e: Event)
    requires Live(w, t) && CanHappen(w, t, e)
    ensures e != Close(true) ==> Happened(w, t, e).tables == w.tables
    ensures e == Close(true) ==>
      w.runs[t].tx.Some? && Happened(w, t, e).tables == TablesAfter(w.tables, w.runs[t].tx.value)
  {
  }

  lemma CommitTakes(w: World, t: string, acknowledged: bool)
    requires Live(w, t) && CanCommit(w, t)
    ensures w.runs[t].tx.Some?
    ensures Apply(w, Commit(t, acknowledged)).tables == TablesAfter(w.tables, w.runs[t].tx.value)
  {
  }

  lemma ExecuteTakes(w: World, t: string, s: Statement)
    requires CanExecute(w, t, s)
    ensures Apply(w, Execute(t, s)).tables == w.tables
  {
  }

  /** A run with something pending is not dropping what it prepared. */
  lemma NotDropping(w: World, t: string, s: Swap)
    requires Inv(w) && t in w.runs && s in w.runs[t].pending
    ensures w.runs[t].status != RollingBack
  {
    assert RunOk(w, t);
  }

  lemma OwnStepTakes(w: World, step: Step, t: string)
    requires Enabled(w, step) && Live(w, t) && Actor(step) == Some(t) && w.runs[t].status != RollingBack
    ensures !Commits(step, t) ==> Apply(w, step).tables == w.tables
    ensures Commits(step, t) ==>
      w.runs[t].tx.Some? && Apply(w, step).tables == TablesAfter(w.tables, w.runs[t].tx.value)
  {
    match step {
      case Session(_, e) => EventTakes(w, t, e);
      case Commit(_, acknowledged) => CommitTakes(w, t, acknowledged);
      case Execute(_, statement) => ExecuteTakes(w, t, statement);
      case _ =>
    }
  }

  lemma TakesByCommit(w: World, step: Step, t: string, s: Swap)
    requires Inv(w) && Enabled(w, step) && Live(w, t) && s in w.runs[t].pending && Taken(w, Apply(w, step), s)
    ensures Commits(step, t) && w.runs[t].tx.Some? && Apply(w, step).tables == TablesAfter(w.tables, w.runs[t].tx.value)
  {
    PendingThere(w, t, s);
    if Actor(step) != Some(t) {
      StepSparesLive(w, step, t, s.staging);
    } else {
      NotDropping(w, t, s);
      OwnStepTakes(w, step, t);
    }
  }

  lemma PartByClose(w: World, step: Step, t: string)
    requires Inv(w) && Enabled(w, step) && Live(w, t) && ShowsPart(w, Apply(w, step), t)
    ensures step == Session(t, Close(true)) && PartMoved(w, t)
  {
    var s :| s in w.runs[t].pending && Taken(w, Apply(w, step), s);
    TakesByCommit(w, step, t, s);
    if !w.runs[t].tx.value.Publishing? {
      OtherTxTakesNothing(w, t, s);
    } else {
      PublishingTakes(w, t, s);
      var u :| u in w.runs[t].pending && u.staging in Apply(w, step).tables;
      PublishingTakes(w, t, u);
    }
  }

  lemma CloseShowsPart(w: World, t: string)
    requires Inv(w) && Live(w, t) && PartMoved(w, t)
    ensures Enabled(w, Session(t, Close(true))) && ShowsPart(w, Apply(w, Session(t, Close(true))), t)
  {
    var next := Apply(w, Session(t, Close(true)));
    var s :| s in w.runs[t].pending && s.staging in w.runs[t].tx.value.removed;
    var u :| u in w.runs[t].pending && u.staging !in w.runs[t].tx.value.removed;
    PublishingTakes(w, t, s);
    PublishingTakes(w, t, u);
    PendingThere(w, t, s);
    assert Taken(w, next, s) && u.staging in next.tables;
  }

  /** Exactly one kind of step ever shows other sessions part of a publication:
      a close that finds the publication's transaction open, with some of its
      targets moved and others not. */
  lemma PartShownIff(worlds: seq<World>, steps: seq<Step>, i: nat, t: string)
    requires Behaviour(worlds, steps) && i < |steps| && Live(worlds[i], t)
    ensures ShowsPart(worlds[i], worlds[i + 1], t) <==> steps[i] == Session(t, Close(true)) && PartMoved(worlds[i], t)
  {
    Reachable(worlds, steps, i);
    assert worlds[i + 1] == Apply(worlds[i], steps[i]);
    if ShowsPart(worlds[i], worlds[i + 1], t) {
      PartByClose(worlds[i], steps[i], t);
    } else if steps[i] == Session(t, Close(true)) && PartMoved(worlds[i], t) {
      CloseShowsPart(worlds[i], t);
    }
  }

  // -- half a publication, seen -------------------------------------------------------------------

  /** Two outputs prepared. */
  function Both(w: World, c: Config, s: Swap, r: Relation, u: Swap, q: Relation, tx: Option<Tx>): World {
    w.(tables := w.tables[s.staging := r][u.staging := q],
       runs := map[c.token := RunState(c, Owning, Up, false, tx, {s.staging, u.staging}, {s, u})],
       locks := map[w.env.lockKey(c.task) := c.token],
       origin := map[s.staging := Origin(c.token, r), u.staging := Origin(c.token, q)])
  }

  lemma StagesAnother(w: World, c: Config, s: Swap, r: Relation, u: Swap, q: Relation)
    requires FirstRun(w, c, s, r) && StagesFor(c, u, q) && s.staging != u.staging
    ensures var v, staging := P.Ready(w, c, s, r, None), P.Ready(w, c, s, r, Some(P.Staging(u, q)));
      Enabled(v, Execute(c.token, Stage(u, q))) && Apply(v, Execute(c.token, Stage(u, q))) == staging
  {
    OwnToken(c, u.target.name);
  }

  lemma CommitsAnother(w: World, c: Config, s: Swap, r: Relation, u: Swap, q: Relation)
    requires s.staging != u.staging
    ensures var v := P.Ready(w, c, s, r, Some(P.Staging(u, q)));
      Enabled(v, Commit(c.token, true)) && Apply(v, Commit(c.token, true)) == Both(w, c, s, r, u, q, None)
  {
    var v, both := P.Ready(w, c, s, r, Some(P.Staging(u, q))), Both(w, c, s, r, u, q, None);
    assert {s.staging} + {u.staging} == {s.staging, u.staging} && {s} + {u} == {s, u};
    assert P.Committed(v, c.token).runs == both.runs;
    assert P.Committed(v, c.token).origin == both.origin;
  }

  function OneMoved(w: World, c: Config, s: Swap, r: Relation, u: Swap, q: Relation, live: Relation): World {
    Both(w, c, s, r, u, q, Some(Publishing({s.staging}, map[s.target := live])))
  }

  lemma MovesOne(w: World, c: Config, s: Swap, r: Relation, u: Swap, q: Relation, live: Relation)
    requires live.comment == PublishedBy(c.Run(), s)
    ensures var v, begun := Both(w, c, s, r, u, q, None), Both(w, c, s, r, u, q, Some(Publishing({}, map[])));
      && Enabled(v, Execute(c.token, BeginPublish)) && Apply(v, Execute(c.token, BeginPublish)) == begun
      && Enabled(begun, Execute(c.token, Move(s, live)))
      && Apply(begun, Execute(c.token, Move(s, live))) == OneMoved(w, c, s, r, u, q, live)
  {
    var begun := Both(w, c, s, r, u, q, Some(Publishing({}, map[])));
    assert {} + {s.staging} == {s.staging};
    assert WithTx(begun, c.token, Some(Publishing({s.staging}, map[s.target := live]))).runs
        == OneMoved(w, c, s, r, u, q, live).runs;
  }

  lemma MovesHalf(w: World, c: Config, s: Swap, r: Relation, u: Swap, q: Relation, live: Relation)
      returns (worlds: seq<World>, steps: seq<Step>)
    requires FirstRun(w, c, s, r) && StagesFor(c, u, q) && s.staging != u.staging
    requires live.comment == PublishedBy(c.Run(), s)
    ensures Behaviour(worlds, steps) && worlds[|steps|] == OneMoved(w, c, s, r, u, q, live)
  {
    var t := c.token;
    worlds, steps := Prepares(w, c, s, r);
    StagesAnother(w, c, s, r, u, q);
    CommitsAnother(w, c, s, r, u, q);
    MovesOne(w, c, s, r, u, q, live);
    worlds := Extend(worlds, steps, Execute(t, Stage(u, q)));
    steps := steps + [Execute(t, Stage(u, q))];
    worlds := Extend(worlds, steps, Commit(t, true));
    steps := steps + [Commit(t, true)];
    worlds := Extend(worlds, steps, Execute(t, BeginPublish));
    steps := steps + [Execute(t, BeginPublish)];
    worlds := Extend(worlds, steps, Execute(t, Move(s, live)));
    steps := steps + [Execute(t, Move(s, live))];
  }

  lemma ClosesHalf(w: World, c: Config, s: Swap, r: Relation, u: Swap, q: Relation, live: Relation)
    requires s.staging != u.staging && Inv(OneMoved(w, c, s, r, u, q, live))
    ensures var v, close := OneMoved(w, c, s, r, u, q, live), Session(c.token, Close(true));
      Live(v, c.token) && Enabled(v, close) && ShowsPart(v, Apply(v, close), c.token)
  {
    var v := OneMoved(w, c, s, r, u, q, live);
    assert s in v.runs[c.token].pending && u in v.runs[c.token].pending;
    CloseShowsPart(v, c.token);
  }

  lemma ClosedHalf(w: World, c: Config, s: Swap, r: Relation, u: Swap, q: Relation, live: Relation)
    requires s.staging != u.staging && Inv(OneMoved(w, c, s, r, u, q, live))
    ensures var next := Happened(OneMoved(w, c, s, r, u, q, live), c.token, Close(true)).tables;
      s.target in next && next[s.target] == live && u.staging in next
  {
    var v := OneMoved(w, c, s, r, u, q, live);
    assert u in v.runs[c.token].pending;
    PublishingTakes(v, c.token, u);
    EventTakes(v, c.token, Close(true));
  }

  /** So it happens: a run prepares two outputs, moves one, and closes with its
      transaction open; others then see the one published and the other not. */
  lemma PartIsShown(w: World, c: Config, s: Swap, r: Relation, u: Swap, q: Relation, live: Relation)
      returns (worlds: seq<World>, steps: seq<Step>)
    requires FirstRun(w, c, s, r) && StagesFor(c, u, q) && s.staging != u.staging
    requires live.comment == PublishedBy(c.Run(), s)
    ensures Behaviour(worlds, steps) && |steps| > 0 && steps[|steps| - 1] == Session(c.token, Close(true))
    ensures var before, after := worlds[|steps| - 1], worlds[|steps|];
      && Live(before, c.token) && ShowsPart(before, after, c.token)
      && s.target in after.tables && after.tables[s.target] == live && u.staging in after.tables
  {
    worlds, steps := MovesHalf(w, c, s, r, u, q, live);
    Reachable(worlds, steps, |steps|);
    ClosesHalf(w, c, s, r, u, q, live);
    ClosedHalf(w, c, s, r, u, q, live);
    worlds := Extend(worlds, steps, Session(c.token, Close(true)));
    steps := steps + [Session(c.token, Close(true))];
  }
}
