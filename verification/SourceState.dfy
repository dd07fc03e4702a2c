/** The stored fingerprints of a task's sources
    (task_core/source_state.py, 174-312). */
module SourceState {
  import opened Values
  import opened Catalog
  import opened Server

  datatype Fingerprint = Fingerprint(
    key: string,
    signature: string,
    details: string,
    snapshot: Option<string>,
    storeSnapshot: bool)

  // -- statements ----------------------------------------------------------------------

  function RowOf(fp: Fingerprint, storeSnapshot: bool): StateRow {
    StateRow(fp.signature, fp.details, if storeSnapshot && fp.storeSnapshot then fp.snapshot else None)
  }

  function Keys(fps: seq<Fingerprint>): (r: seq<string>)
    ensures |r| == |fps|
    ensures forall k | 0 <= k < |fps| :: r[k] == fps[k].key
  {
    seq(|fps|, k requires 0 <= k < |fps| => fps[k].key)
  }

  /** DELETE of one task's rows whose key is not kept; all of them when the list
      is empty. */
  function Prune(state: State, task: string, keep: seq<string>): State {
    map sk | sk in state && (sk.task != task || sk.sourceKey in keep) :: state[sk]
  }

  function UpsertOne(state: State, task: string, fp: Fingerprint, storeSnapshot: bool): State {
    state[StateKey(task, fp.key) := RowOf(fp, storeSnapshot)]
  }

  function UpsertRows(state: State, task: string, fps: seq<Fingerprint>, storeSnapshot: bool): State {
    if fps == [] then state
    else
      var n := |fps| - 1;
      UpsertOne(UpsertRows(state, task, fps[..n], storeSnapshot), task, fps[n], storeSnapshot)
  }

  /** The rows after upsert_state. */
  function Upserted(state: State, task: string, fps: seq<Fingerprint>, storeSnapshot: bool): State {
    UpsertRows(Prune(state, task, Keys(fps)), task, fps, storeSnapshot)
  }

  /** The statements of upsert_state: the delete, then one upsert a source. */
  function Writes(task: string, fps: seq<Fingerprint>, storeSnapshot: bool): seq<Write> {
    [PruneWrite(task, Keys(fps))]
      + seq(|fps|, i requires 0 <= i < |fps| => UpsertWrite(task, fps[i], storeSnapshot))
  }

  function PruneWrite(task: string, keep: seq<string>): Write {
    (state: State) => Ok(Prune(state, task, keep))
  }

  function UpsertWrite(task: string, fp: Fingerprint, storeSnapshot: bool): Write {
    (state: State) => Ok(UpsertOne(state, task, fp, storeSnapshot))
  }

  /** What the first of them have stored. */
  lemma {:induction false} WritesStore(state: State, task: string, fps: seq<Fingerprint>, storeSnapshot: bool, n: nat)
    requires n <= |fps|
    ensures RunWrites(Writes(task, fps, storeSnapshot)[..n + 1], state)
         == Ok(UpsertRows(Prune(state, task, Keys(fps)), task, fps[..n], storeSnapshot))
  {
    var writes := Writes(task, fps, storeSnapshot);
    assert writes[..n + 1][..n] == writes[..n] && writes[..n + 1][n] == writes[n];
    if n == 0 {
      assert RunWrites(writes[..0], state) == Ok(state);
    } else {
      WritesStore(state, task, fps, storeSnapshot, n - 1);
      assert fps[..n][..n - 1] == fps[..n - 1];
    }
  }

  /** All of them store what upsert_state is to leave. */
  lemma WritesAll(state: State, task: string, fps: seq<Fingerprint>, storeSnapshot: bool)
    ensures RunWrites(Writes(task, fps, storeSnapshot), state) == Ok(Upserted(state, task, fps, storeSnapshot))
  {
    WritesStore(state, task, fps, storeSnapshot, |fps|);
    assert fps[..|fps|] == fps;
    assert Writes(task, fps, storeSnapshot)[..|fps| + 1] == Writes(task, fps, storeSnapshot);
  }

  /** read_state: source_key to signature. */
  function Stored(state: State, task: string): map<string, string> {
    map sk | sk in state && sk.task == task :: sk.sourceKey := state[sk].signature
  }

  method UpsertState(conn: Session, task: string, fps: seq<Fingerprint>, storeSnapshot: bool)
    returns (r: Outcome<()>)
    requires conn.Valid() && !conn.invalidated
    modifies conn
    ensures conn.Valid()
    ensures r.Done? ==>
      && !conn.invalidated && !conn.aborted
      && conn.work == Some(old(conn.View()).(state := Upserted(old(conn.View()).state, task, fps, storeSnapshot)))
    ensures r.Raised? ==> !r.error.Refused? && (conn.invalidated <==> r.error == Driver(ConnectionLost))
    ensures r.Raised? && conn.Committable() ==>
      WrittenPart(old(conn.View()), conn.work.value, Writes(task, fps, storeSnapshot))
  {
    ghost var before, writes := conn.View(), Writes(task, fps, storeSnapshot);
    ghost var pruned := Prune(before.state, task, Keys(fps));
    var view := conn.View();
    assert RunWrites(writes[..0], before.state) == Ok(before.state);
    WritesStore(before.state, task, fps, storeSnapshot, 0);
    assert fps[..0] == [];
    r := conn.Execute(Ok(view.(state := Prune(view.state, task, Keys(fps)))));
    if r.Raised? {
      assert conn.Committable() ==>
        WrittenTo(before, conn.work.value, writes, 0) || WrittenTo(before, conn.work.value, writes, 1);
      return;
    }
    var i := 0;
    while i < |fps|
      invariant 0 <= i <= |fps|
      invariant conn.Valid() && !conn.invalidated && !conn.aborted
      invariant conn.work == Some(before.(state := UpsertRows(pruned, task, fps[..i], storeSnapshot)))
    {
      view := conn.View();
      assert fps[..i + 1][..i] == fps[..i];
      WritesStore(before.state, task, fps, storeSnapshot, i);
      WritesStore(before.state, task, fps, storeSnapshot, i + 1);
      r := conn.Execute(Ok(view.(state := UpsertOne(view.state, task, fps[i], storeSnapshot))));
      if r.Raised? {
        assert conn.Committable() ==>
          WrittenTo(before, conn.work.value, writes, i + 1) || WrittenTo(before, conn.work.value, writes, i + 2);
        return;
      }
      i := i + 1;
    }
    assert fps[..i] == fps;
    r := Done(());
  }

  /** The same keys first, then every signature. */
  method Compare(stored: map<string, string>, fps: seq<Fingerprint>) returns (same: bool)
    ensures same <==>
      && (forall k :: k in stored <==> k in Keys(fps))
      && (forall i | 0 <= i < |fps| :: fps[i].key in stored && stored[fps[i].key] == fps[i].signature)
  {
    if (set k | k in Keys(fps)) != stored.Keys {
      return false;
    }
    assert forall i | 0 <= i < |fps| :: Keys(fps)[i] in stored;
    var i := 0;
    while i < |fps|
      invariant 0 <= i <= |fps|
      invariant forall j | 0 <= j < i :: stored[fps[j].key] == fps[j].signature
    {
      if stored[fps[i].key] != fps[i].signature {
        return false;
      }
      i := i + 1;
    }
    same := true;
  }

  /** Compare, then end the read phase; a read phase that cannot be closed is an
      error, not an answer. */
  method SourcesUnchanged(conn: Session, task: string, fps: seq<Fingerprint>) returns (r: Outcome<bool>)
    requires conn.Valid() && !conn.invalidated && conn.server.Valid() && conn.Quiet()
    modifies conn, conn.server
    ensures conn.Valid() && conn.server.Valid()
    ensures conn.server.committed == old(conn.server.committed)
    ensures conn.server.versions == old(conn.server.versions)
    ensures r.Done? ==>
      && conn.work == None && !conn.invalidated
      && r.value == Unchanged(conn.server.committed.state, task, fps)
  {
    var _ :- conn.Query();
    var same := Compare(Stored(conn.View().state, task), fps);
    var _ :- conn.Commit();
    r := Done(same);
  }

  /** The comparison: the same keys, and every fingerprint's stored signature. */
  ghost predicate Unchanged(state: State, task: string, fps: seq<Fingerprint>) {
    var stored := Stored(state, task);
    && (forall k :: k in stored <==> k in Keys(fps))
    && (forall i | 0 <= i < |fps| :: fps[i].key in stored && stored[fps[i].key] == fps[i].signature)
  }

  // -- what is remembered ------------------------------------------------------------------

  /** Source key to signature; a repeated key keeps its last signature. */
  function Signatures(fps: seq<Fingerprint>): map<string, string> {
    if fps == [] then map[]
    else Signatures(fps[..|fps| - 1])[fps[|fps| - 1].key := fps[|fps| - 1].signature]
  }

  /** No key is fingerprinted with two signatures. */
  ghost predicate Consistent(fps: seq<Fingerprint>) {
    forall i, j | 0 <= i < j < |fps| && fps[i].key == fps[j].key :: fps[i].signature == fps[j].signature
  }

  lemma {:induction false} SignatureKeys(fps: seq<Fingerprint>)
    ensures forall k :: k in Signatures(fps) <==> k in Keys(fps)
  {
    if fps != [] {
      var n := |fps| - 1;
      SignatureKeys(fps[..n]);
      assert Keys(fps) == Keys(fps[..n]) + [fps[n].key];
    }
  }

  lemma {:induction false} ConsistentSignatures(fps: seq<Fingerprint>)
    ensures Consistent(fps) <==> forall i | 0 <= i < |fps| ::
      fps[i].key in Signatures(fps) && Signatures(fps)[fps[i].key] == fps[i].signature
  {
    SignatureKeys(fps);
    forall i | 0 <= i < |fps|
      ensures fps[i].key in Signatures(fps)
    {
      assert Keys(fps)[i] in Keys(fps);
    }
    if fps != [] {
      var n := |fps| - 1;
      var front := fps[..n];
      ConsistentSignatures(front);
      if Consistent(fps) {
        assert Consistent(front);
        forall i | 0 <= i < n
          ensures Signatures(fps)[fps[i].key] == fps[i].signature
        {
          assert front[i] == fps[i];
        }
      } else {
        var i, j :| 0 <= i < j < |fps| && fps[i].key == fps[j].key && fps[i].signature != fps[j].signature;
        assert Signatures(fps)[fps[i].key] == Signatures(fps)[fps[j].key];
      }
    }
  }

  /** Judged unchanged exactly when the sources agree with themselves and with
      what is stored. */
  lemma UnchangedIff(state: State, task: string, fps: seq<Fingerprint>)
    ensures Unchanged(state, task, fps) <==> Consistent(fps) && Stored(state, task) == Signatures(fps)
  {
    SignatureKeys(fps);
    ConsistentSignatures(fps);
    var stored, signatures := Stored(state, task), Signatures(fps);
    if Unchanged(state, task, fps) {
      StoredEverywhere(fps, stored);
    }
  }

  /** The signature kept for a key is one of its fingerprints'. */
  lemma {:induction false} KeptSignature(fps: seq<Fingerprint>, k: string) returns (i: nat)
    requires k in Signatures(fps)
    ensures i < |fps| && fps[i].key == k && fps[i].signature == Signatures(fps)[k]
  {
    i := |fps| - 1;
    if fps[i].key != k {
      i := KeptSignature(fps[..i], k);
    }
  }

  lemma StoredConsistent(fps: seq<Fingerprint>, stored: map<string, string>)
    requires forall i | 0 <= i < |fps| :: fps[i].key in stored && stored[fps[i].key] == fps[i].signature
    ensures Consistent(fps)
  {
  }

  lemma StoredSignature(fps: seq<Fingerprint>, stored: map<string, string>, k: string)
    requires forall i | 0 <= i < |fps| :: fps[i].key in stored && stored[fps[i].key] == fps[i].signature
    requires k in Signatures(fps)
    ensures k in stored && stored[k] == Signatures(fps)[k]
  {
    var i := KeptSignature(fps, k);
  }

  /** A map holding every fingerprint's signature, and no other key, is their
      signature map, and they are consistent. */
  lemma StoredKeys(fps: seq<Fingerprint>, stored: map<string, string>)
    requires forall k :: k in stored <==> k in Keys(fps)
    ensures stored.Keys == Signatures(fps).Keys
  {
    SignatureKeys(fps);
  }

  lemma StoredSignatures(fps: seq<Fingerprint>, stored: map<string, string>)
    requires stored.Keys == Signatures(fps).Keys
    requires forall i | 0 <= i < |fps| :: fps[i].key in stored && stored[fps[i].key] == fps[i].signature
    ensures stored == Signatures(fps)
  {
    forall k | k in Signatures(fps)
      ensures stored[k] == Signatures(fps)[k]
    {
      StoredSignature(fps, stored, k);
    }
  }

  lemma StoredEverywhere(fps: seq<Fingerprint>, stored: map<string, string>)
    requires forall k :: k in stored <==> k in Keys(fps)
    requires forall i | 0 <= i < |fps| :: fps[i].key in stored && stored[fps[i].key] == fps[i].signature
    ensures Consistent(fps) && stored == Signatures(fps)
  {
    StoredConsistent(fps, stored);
    StoredKeys(fps, stored);
    StoredSignatures(fps, stored);
  }

  lemma {:induction false} UpsertedKeys(state: State, task: string, fps: seq<Fingerprint>, storeSnapshot: bool)
    ensures var r := UpsertRows(state, task, fps, storeSnapshot);
      && (forall sk: StateKey | sk.task != task :: (sk in r <==> sk in state) && (sk in r ==> r[sk] == state[sk]))
      && (forall k :: StateKey(task, k) in r <==> StateKey(task, k) in state || k in Keys(fps))
      && (forall k | k in Keys(fps) :: StateKey(task, k) in r && k in Signatures(fps)
           && r[StateKey(task, k)].signature == Signatures(fps)[k])
  {
    if fps != [] {
      var n := |fps| - 1;
      UpsertedKeys(state, task, fps[..n], storeSnapshot);
      assert Keys(fps) == Keys(fps[..n]) + [fps[n].key];
    }
  }

  /** After an upsert its task's stored signatures are those of its current
      sources, and no other task's rows have changed. */
  lemma UpsertRemembers(state: State, task: string, fps: seq<Fingerprint>, storeSnapshot: bool)
    ensures Stored(Upserted(state, task, fps, storeSnapshot), task) == Signatures(fps)
    ensures forall sk: StateKey | sk.task != task ::
      && (sk in Upserted(state, task, fps, storeSnapshot) <==> sk in state)
      && (sk in state ==> Upserted(state, task, fps, storeSnapshot)[sk] == state[sk])
  {
    UpsertedKeys(Prune(state, task, Keys(fps)), task, fps, storeSnapshot);
    SignatureKeys(fps);
    var after := Upserted(state, task, fps, storeSnapshot);
    var stored := Stored(after, task);
    forall k
      ensures k in stored <==> k in Signatures(fps)
      ensures k in stored ==> stored[k] == Signatures(fps)[k]
    {
      assert StateKey(task, k).sourceKey == k;
    }
  }

  /** The last of these fingerprints with this key. */
  ghost predicate LastOf(fps: seq<Fingerprint>, i: nat, key: string) {
    i < |fps| && fps[i].key == key && forall j | i < j < |fps| :: fps[j].key != key
  }

  /** What the row of a fingerprint holds: its signature and its details; and its
      snapshot exactly when the task and the source both allow one and there is
      one. */
  predicate RowHolds(row: StateRow, fp: Fingerprint, storeSnapshot: bool) {
    && row.signature == fp.signature && row.details == fp.details
    && (row.snapshot.Some? <==> storeSnapshot && fp.storeSnapshot && fp.snapshot.Some?)
    && (row.snapshot.Some? ==> row.snapshot == fp.snapshot)
  }

  lemma {:induction false} UpsertedRow(state: State, task: string, fps: seq<Fingerprint>, storeSnapshot: bool, i: nat,
      key: string)
    requires LastOf(fps, i, key)
    ensures var r := UpsertRows(state, task, fps, storeSnapshot);
      StateKey(task, key) in r && RowHolds(r[StateKey(task, key)], fps[i], storeSnapshot)
  {
    var n := |fps| - 1;
    if i < n {
      assert LastOf(fps[..n], i, key);
      UpsertedRow(state, task, fps[..n], storeSnapshot, i, key);
      assert fps[n].key != key;
    }
  }

  /** After an upsert the task has a row for exactly the keys of its current
      sources, and each holds what the last fingerprint of its key says. */
  lemma UpsertStores(state: State, task: string, fps: seq<Fingerprint>, storeSnapshot: bool, key: string)
    ensures var r := Upserted(state, task, fps, storeSnapshot);
      && (StateKey(task, key) in r <==> exists i :: 0 <= i < |fps| && fps[i].key == key)
      && (forall i: nat | LastOf(fps, i, key) :: RowHolds(r[StateKey(task, key)], fps[i], storeSnapshot))
  {
    UpsertedKeys(Prune(state, task, Keys(fps)), task, fps, storeSnapshot);
    assert (exists i :: 0 <= i < |fps| && fps[i].key == key) <==> key in Keys(fps) by {
      if i :| 0 <= i < |fps| && fps[i].key == key {
        assert Keys(fps)[i] == key;
      }
    }
    forall i: nat | LastOf(fps, i, key)
      ensures var r := Upserted(state, task, fps, storeSnapshot);
        StateKey(task, key) in r && RowHolds(r[StateKey(task, key)], fps[i], storeSnapshot)
    {
      UpsertedRow(Prune(state, task, Keys(fps)), task, fps, storeSnapshot, i, key);
    }
  }

  /** Sources fingerprinted twice with different signatures are never judged
      unchanged, not even right after they were stored. */
  lemma ConflictNeverUnchanged(state: State, task: string, fps: seq<Fingerprint>, storeSnapshot: bool)
    ensures Unchanged(Upserted(state, task, fps, storeSnapshot), task, fps) <==> Consistent(fps)
  {
    UpsertRemembers(state, task, fps, storeSnapshot);
    UnchangedIff(Upserted(state, task, fps, storeSnapshot), task, fps);
  }
}
