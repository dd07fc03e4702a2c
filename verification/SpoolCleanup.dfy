/** Removing spool files: a run's own, and those a dead run of the same task
    left behind (task_core/db/spool_io.py, 478-610). */
module SpoolCleanup {
  import opened Values
  import opened Identifiers

  datatype Header = Header(token: string, stage: Stage, task: string)

  /** A directory entry: something other than a regular file, one that cannot be
      opened, one without a readable header, or a spool. */
  datatype Entry = NotAFile | Unreadable | BadHeader | Spool(header: Header)

  /** Positive ownership: a spool name, a header, and the two agreeing on token
      and stage, for this task. */
  predicate OwnedSpool(name: string, e: Entry, task: string) {
    && e.Spool? && ParseSpoolName(name) == Some((e.header.token, e.header.stage)) && e.header.task == task
  }

  datatype Unlinked = Removed | Missing | Refused

  class Directory {
    var files: map<string, Entry>
    /** Every unlink tried, and what came of it. */
    ghost var tried: seq<(string, Unlinked)>

    method Unlink(name: string) returns (u: Unlinked)
      modifies this
      ensures u == Missing <==> name !in old(files)
      ensures files == if u == Refused then old(files) else old(files) - {name}
      ensures tried == old(tried) + [(name, u)]
    {
      var refused: bool := *;
      u := if name !in files then Missing else if refused then Refused else Removed;
      tried := tried + [(name, u)];
      if u != Refused {
        files := files - {name};
      }
    }
  }

  /** The tries spent on one path: refusals, up to the one that succeeds or up
      to the limit. */
  ghost predicate Spent(tries: seq<Unlinked>, attempts: nat) {
    && 1 <= |tries| <= attempts
    && (forall k | 0 <= k < |tries| - 1 :: tries[k] == Refused)
    && (GaveUp(tries) ==> |tries| == attempts)
  }

  ghost predicate GaveUp(tries: seq<Unlinked>) {
    tries != [] && tries[|tries| - 1] == Refused
  }

  ghost function On(path: string, tries: seq<Unlinked>): seq<(string, Unlinked)> {
    seq(|tries|, k requires 0 <= k < |tries| => (path, tries[k]))
  }

  method RemoveOne(dir: Directory, path: string, attempts: nat) returns (removed: bool, ghost tries: seq<Unlinked>)
    requires attempts >= 1
    modifies dir
    ensures dir.files == if removed then old(dir.files) - {path} else old(dir.files)
    ensures !removed ==> path in dir.files
    ensures dir.tried == old(dir.tried) + On(path, tries) && Spent(tries, attempts)
    ensures removed <==> !GaveUp(tries)
  {
    removed, tries := false, [];
    var attempt := 1;
    while attempt <= attempts && !removed
      invariant 1 <= attempt <= attempts + 1 && |tries| == attempt - 1 && (removed ==> tries != [])
      invariant dir.files == if removed then old(dir.files) - {path} else old(dir.files)
      invariant tries != [] && !removed ==> path in dir.files
      invariant dir.tried == old(dir.tried) + On(path, tries)
      invariant forall k | 0 <= k < |tries| - 1 :: tries[k] == Refused
      invariant tries != [] ==> (removed <==> !GaveUp(tries))
      decreases attempts + 1 - attempt, !removed
    {
      var u := dir.Unlink(path);
      assert On(path, tries + [u]) == On(path, tries) + [(path, u)];
      tries := tries + [u];
      removed := u != Refused;
      attempt := attempt + 1;
    }
  }

  /** The tries of all paths, one path after the other. */
  ghost function Flat(paths: seq<string>, tries: seq<seq<Unlinked>>): seq<(string, Unlinked)>
    requires |paths| == |tries|
  {
    if paths == [] then []
    else
      var n := |paths| - 1;
      Flat(paths[..n], tries[..n]) + On(paths[n], tries[n])
  }

  /** The paths given up on. */
  ghost function Residue(paths: seq<string>, tries: seq<seq<Unlinked>>): seq<string>
    requires |paths| == |tries|
  {
    if paths == [] then []
    else
      var n := |paths| - 1;
      Residue(paths[..n], tries[..n]) + if GaveUp(tries[n]) then [paths[n]] else []
  }

  lemma NextTried(paths: seq<string>, tries: seq<seq<Unlinked>>, path: string, more: seq<Unlinked>)
    requires |paths| == |tries|
    ensures Flat(paths + [path], tries + [more]) == Flat(paths, tries) + On(path, more)
    ensures Residue(paths + [path], tries + [more]) == Residue(paths, tries) + if GaveUp(more) then [path] else []
  {
    assert (paths + [path])[..|paths|] == paths && (tries + [more])[..|tries|] == tries;
  }

  /** Each path gets its tries, in order, until it is gone or `attempts` were
      refused; one already gone counts as removed.  Exactly the paths given up
      on are returned, and they are what is left. */
  method CleanupSpoolPaths(dir: Directory, paths: seq<string>, attempts: nat)
    returns (failed: seq<string>, ghost tries: seq<seq<Unlinked>>)
    requires attempts >= 1
    modifies dir
    ensures |tries| == |paths| && (forall t | t in tries :: Spent(t, attempts))
    ensures dir.tried == old(dir.tried) + Flat(paths, tries) && failed == Residue(paths, tries)
    ensures forall p | p in paths && p !in failed :: p !in dir.files
    ensures forall p | p in failed :: p in paths
    ensures !HasDuplicates(paths) ==> forall p | p in failed :: p in dir.files
    ensures forall p | p in dir.files :: p in old(dir.files) && dir.files[p] == old(dir.files)[p]
    ensures forall p | p in old(dir.files) && p !in paths :: p in dir.files
  {
    failed, tries := [], [];
    var i := 0;
    while i < |paths|
      invariant 0 <= i <= |paths| && |tries| == i && forall t | t in tries :: Spent(t, attempts)
      invariant dir.tried == old(dir.tried) + Flat(paths[..i], tries) && failed == Residue(paths[..i], tries)
      invariant forall p | p in paths[..i] && p !in failed :: p !in dir.files
      invariant forall p | p in failed :: p in paths[..i]
      invariant !HasDuplicates(paths) ==> forall p | p in failed :: p in dir.files
      invariant forall p | p in dir.files :: p in old(dir.files) && dir.files[p] == old(dir.files)[p]
      invariant forall p | p in old(dir.files) && p !in paths[..i] :: p in dir.files
    {
      assert paths[..i + 1] == paths[..i] + [paths[i]];
      var removed, more := RemoveOne(dir, paths[i], attempts);
      NextTried(paths[..i], tries, paths[i], more);
      tries := tries + [more];
      if !removed {
        failed := failed + [paths[i]];
      }
      i := i + 1;
    }
    assert paths[..i] == paths;
  }

  /** Dead runs' spools are deleted, exactly those positively identified; every
      other entry is kept; it is an error exactly when one of them remains. */
  method CleanupPredecessorSpools(dir: Directory, task: string, names: seq<string>)
    returns (r: Result<(seq<string>, seq<string>)>)
    requires !HasDuplicates(names) && forall name :: name in names <==> name in dir.files
    modifies dir
    ensures forall name | name in dir.files :: name in old(dir.files) && dir.files[name] == old(dir.files)[name]
    ensures forall name | name in old(dir.files) && !OwnedSpool(name, old(dir.files)[name], task) :: name in dir.files
    ensures r.Ok? ==>
      && (forall name :: name in r.value.0 <==> name in old(dir.files) && OwnedSpool(name, old(dir.files)[name], task))
      && (forall name :: name in r.value.1 <==> name in old(dir.files) && !OwnedSpool(name, old(dir.files)[name], task))
    ensures r.Ok? <==> forall name | name in dir.files :: !OwnedSpool(name, dir.files[name], task)
  {
    var owned, preserved := Sort(dir.files, task, names);
    var failed, _ := CleanupSpoolPaths(dir, owned, 3);
    if failed != [] {
      assert failed[0] in owned;
      return Err;
    }
    r := Ok((owned, preserved));
  }

  /** One pass over the entries: each is owned or preserved. */
  method Sort(files: map<string, Entry>, task: string, names: seq<string>)
    returns (owned: seq<string>, preserved: seq<string>)
    requires !HasDuplicates(names) && forall name | name in names :: name in files
    ensures forall name :: name in owned <==> name in names && OwnedSpool(name, files[name], task)
    ensures forall name :: name in preserved <==> name in names && !OwnedSpool(name, files[name], task)
    ensures !HasDuplicates(owned)
  {
    owned, preserved := [], [];
    var i := 0;
    while i < |names|
      invariant 0 <= i <= |names|
      invariant forall name :: name in owned <==> name in names[..i] && OwnedSpool(name, files[name], task)
      invariant forall name :: name in preserved <==> name in names[..i] && !OwnedSpool(name, files[name], task)
      invariant !HasDuplicates(owned)
    {
      assert names[..i + 1] == names[..i] + [names[i]];
      var mine := Identify(names[i], files[names[i]], task);
      if mine {
        owned := owned + [names[i]];
      } else {
        preserved := preserved + [names[i]];
      }
      i := i + 1;
    }
    assert names[..i] == names;
  }

  /** The checks in order, each of them preserving on doubt. */
  method Identify(name: string, entry: Entry, task: string) returns (mine: bool)
    ensures mine == OwnedSpool(name, entry, task)
  {
    if entry.NotAFile? {
      return false;
    }
    var parsed := ParseSpoolName(name);
    if parsed.None? {
      return false;
    }
    if !entry.Spool? {
      return false;
    }
    if entry.header.token != parsed.value.0 || entry.header.stage != parsed.value.1 {
      return false;
    }
    mine := entry.header.task == task;
  }

  /** An owned spool has the name its header composes to, or that name with a
      newline after it. */
  lemma OwnedSpoolName(name: string, e: Entry, task: string)
    requires OwnedSpool(name, e, task)
    ensures SpoolToken(e.header.token)
    ensures var composed := SpoolName(e.header.token, e.header.stage);
      name == composed || name == composed + "\n"
  {
    SpoolNamesComposed(name, e.header.token, e.header.stage);
  }
}
