/** One server and one client session on it.  Every statement may fail; a lost
    session is never used again. */
module Server {
  import opened Values
  import opened Catalog

  /** A driver error, by what its SQLSTATE means to the publisher. */
  datatype Fault = LockUnavailable | Deadlock | ConnectionLost | OtherFault

  /** A driver error, an error the program raises, or an interruption. */
  datatype Error = Driver(fault: Fault) | Refused | Interrupted

  datatype Outcome<+T> = Done(value: T) | Raised(error: Error) {
    predicate IsFailure() { Raised? }
    function PropagateFailure<U>(): Outcome<U>
      requires Raised?
    {
      Raised(error)
    }
    function Extract(): T
      requires Done?
    {
      value
    }
  }

  method AnyError() returns (e: Error)
    ensures !e.Refused?
  {
    var n: int := *;
    e := if n == 0 then Driver(LockUnavailable)
         else if n == 1 then Driver(Deadlock)
         else if n == 2 then Driver(ConnectionLost)
         else if n == 3 then Interrupted
         else Driver(OtherFault);
  }

  /** The committed database, and every distinct version other sessions could
      have read. */
  class Server {
    var committed: Database
    ghost var versions: seq<Database>

    ghost predicate Valid()
      reads this
    {
      versions != [] && versions[|versions| - 1] == committed
    }

    method Install(db: Database)
      requires Valid()
      modifies this
      ensures Valid()
      ensures committed == db && versions == Extended(old(versions), old(committed), db)
    {
      versions := Extended(versions, committed, db);
      committed := db;
    }
  }

  ghost function Extended(versions: seq<Database>, committed: Database, next: Database): seq<Database> {
    if next == committed then versions else versions + [next]
  }

  /** The task locks that sessions other than ours hold. */
  class OtherSessions {
    var held: set<LockKey>
  }

  /** The server's side of a connection: the advisory locks granted to its
      session, and how often the driver has replaced a lost session. */
  class Link {
    ghost var granted: set<LockKey>
    ghost var reconnects: nat

    constructor ()
      ensures granted == {} && reconnects == 0
    {
      granted, reconnects := {}, 0;
    }
  }

  type LockKey = (int, int)

  datatype Statement = Sql | LockSql(names: seq<Key>) | CommitSql | RollbackSql

  /** A statement issued, and what it raised. */
  datatype Issued = Issued(statement: Statement, fault: Option<Error>)

  /** What a raised driver error or interruption comes from: the last statement
      issued. */
  ghost predicate Blamed<T>(trace: seq<Issued>, r: Outcome<T>) {
    r.Raised? && !r.error.Refused? ==> trace != [] && trace[|trace| - 1].fault == Some(r.error)
  }

  function FaultOf<T>(r: Outcome<T>): Option<Error> {
    if r.Raised? then Some(r.error) else None
  }

  class Session {
    const server: Server
    const link: Link
    var work: Option<Database>  // the open transaction's view
    var aborted: bool
    var invalidated: bool
    /** The relations the open transaction holds in ACCESS EXCLUSIVE mode. */
    ghost var locks: set<Key>
    /** Every statement issued on this connection, in order. */
    ghost var trace: seq<Issued>

    /** A connection is invalidated by the last statement issued on it. */
    ghost predicate Valid()
      reads this
    {
      && (aborted ==> work.Some?) && (invalidated ==> work.None?)
      && (invalidated ==> trace != [] && trace[|trace| - 1].fault == Some(Driver(ConnectionLost)))
    }

    constructor (on: Server)
      ensures Valid() && server == on && work == None && !invalidated && !aborted
      ensures trace == [] && fresh(link) && link.granted == {} && link.reconnects == 0
    {
      server := on;
      link := new Link();
      work := None;
      aborted := false;
      invalidated := false;
      locks := {};
      trace := [];
    }

    /** What a statement issued now would see. */
    function View(): Database
      reads this, server
    {
      if work.Some? then work.value else server.committed
    }

    /** There is an open transaction whose effects a COMMIT would install. */
    ghost predicate Committable()
      reads this
    {
      work.Some? && !aborted
    }

    /** No open transaction, or one that has only read. */
    ghost predicate Quiet()
      reads this, server
    {
      !aborted && (work.Some? ==> work.value == server.committed)
    }

    /** One statement with the given effect; a transaction is begun if none is
        open.  A raising statement leaves the transaction's view unspecified,
        and the committed database alone. */
    method Issue(effect: Result<Database>, ghost statement: Statement) returns (r: Outcome<()>)
      requires Valid() && !invalidated
      modifies this
      ensures Valid() && trace == old(trace) + [Issued(statement, FaultOf(r))]
      ensures r.Done? ==> effect.Ok? && work == Some(effect.value) && !aborted && !old(aborted) && !invalidated
      ensures r.Done? ==> locks == old(locks)
      ensures r.Raised? ==> !r.error.Refused? && (invalidated <==> r.error == Driver(ConnectionLost))
      ensures r.Raised? && Committable() ==>
        && r.error == Interrupted && !old(aborted)
        && (work == Some(old(View())) || (effect.Ok? && work == Some(effect.value)))
    {
      var fails: bool := *;
      if fails || effect.Err? || aborted {
        var e := AnyError();
        trace := trace + [Issued(statement, Some(e))];
        if e == Driver(ConnectionLost) {
          work, aborted, invalidated := None, false, true;
        } else {
          var half: bool := *;
          work := Some(if half && effect.Ok? then effect.value else View());
          aborted := e != Interrupted || aborted;
        }
        return Raised(e);
      }
      trace := trace + [Issued(statement, None)];
      work := Some(effect.value);
      r := Done(());
    }

    method Execute(effect: Result<Database>) returns (r: Outcome<()>)
      requires Valid() && !invalidated
      modifies this
      ensures Valid() && trace == old(trace) + [Issued(Sql, FaultOf(r))]
      ensures r.Done? ==> effect.Ok? && work == Some(effect.value) && !aborted && !old(aborted) && !invalidated
      ensures r.Done? ==> locks == old(locks)
      ensures r.Raised? ==> !r.error.Refused? && (invalidated <==> r.error == Driver(ConnectionLost))
      ensures r.Raised? && Committable() ==>
        && r.error == Interrupted && !old(aborted)
        && (work == Some(old(View())) || (effect.Ok? && work == Some(effect.value)))
    {
      r := Issue(effect, Sql);
    }

    /** A statement that only reads. */
    method Query() returns (r: Outcome<()>)
      requires Valid() && !invalidated
      modifies this
      ensures Valid() && trace == old(trace) + [Issued(Sql, FaultOf(r))]
      ensures r.Done? ==> work == Some(old(View())) && !aborted && !old(aborted) && !invalidated
      ensures r.Done? ==> locks == old(locks)
      ensures r.Raised? ==> !r.error.Refused? && (invalidated <==> r.error == Driver(ConnectionLost))
      ensures r.Raised? && Committable() ==> work == Some(old(View())) && !old(aborted)
    {
      r := Issue(Ok(View()), Sql);
    }

    /** LOCK TABLE ... IN ACCESS EXCLUSIVE MODE: all of the names, or an error. */
    method LockTables(names: seq<Key>) returns (r: Outcome<()>)
      requires Valid() && !invalidated
      modifies this
      ensures Valid() && trace == old(trace) + [Issued(LockSql(names), FaultOf(r))]
      ensures r.Done? ==> work == Some(old(View())) && !aborted && !old(aborted) && !invalidated
      ensures r.Done? ==> locks == old(locks) + set k | k in names
      ensures r.Raised? ==> !r.error.Refused? && (invalidated <==> r.error == Driver(ConnectionLost))
      ensures r.Raised? && Committable() ==> work == Some(old(View())) && !old(aborted)
    {
      r := Issue(Ok(View()), LockSql(names));
      if r.Done? {
        locks := locks + set k | k in names;
      }
    }

    /** The server has this session, and has granted it the lock. */
    ghost predicate Holds(key: LockKey)
      reads this, link
    {
      !invalidated && key in link.granted
    }

    /** pg_try_advisory_lock: granted exactly when no other session holds it.
        Interrupted, it may be held all the same. */
    method TryLock(others: OtherSessions, key: LockKey) returns (r: Outcome<bool>)
      requires Valid() && !invalidated
      modifies this, link
      ensures Valid() && trace == old(trace) + [Issued(Sql, FaultOf(r))]
      ensures r.Done? ==> work == Some(old(View())) && !aborted && !old(aborted) && !invalidated
      ensures r.Done? ==> (r.value <==> key !in others.held)
      ensures r.Done? ==> link.granted == old(link.granted) + if r.value then {key} else {}
      ensures r.Raised? ==> !r.error.Refused? && (invalidated <==> r.error == Driver(ConnectionLost))
      ensures r.Raised? && Committable() ==> work == Some(old(View())) && !old(aborted)
      ensures old(link.granted) <= link.granted && link.reconnects == old(link.reconnects)
    {
      var asked := Query();
      if asked.Raised? {
        var granted: bool := *;
        if asked.error == Interrupted && granted && key !in others.held {
          link.granted := link.granted + {key};
        }
        return Raised(asked.error);
      }
      if key !in others.held {
        link.granted := link.granted + {key};
      }
      r := Done(key !in others.held);
    }

    /** pg_advisory_unlock; it takes effect at once. */
    method Unlock(key: LockKey) returns (r: Outcome<()>)
      requires Valid() && !invalidated
      modifies this, link
      ensures Valid() && trace == old(trace) + [Issued(Sql, FaultOf(r))]
      ensures r.Done? ==> work == Some(old(View())) && !aborted && !old(aborted) && !invalidated
      ensures r.Done? ==> link.granted == old(link.granted) - {key}
      ensures r.Raised? ==> !r.error.Refused? && (invalidated <==> r.error == Driver(ConnectionLost))
      ensures r.Raised? && Committable() ==> work == Some(old(View())) && !old(aborted)
      ensures link.reconnects == old(link.reconnects)
    {
      r := Query();
      if r.Done? {
        link.granted := link.granted - {key};
      }
    }

    /** The driver opens a new session for the next statement; whatever locks the
        lost one held are gone. */
    method Reconnect()
      requires Valid() && invalidated
      modifies this`invalidated, link
      ensures Valid() && !invalidated && work == None && !aborted
      ensures link.granted == {} && link.reconnects == old(link.reconnects) + 1
    {
      invalidated := false;
      link.granted := {};
      link.reconnects := link.reconnects + 1;
    }

    /** COMMIT.  When it raises on a lost connection or an interruption, the
        server may have committed all the same; interrupted, it may not have
        reached the server, and then the transaction stays open. */
    method Commit() returns (r: Outcome<()>)
      requires Valid() && !invalidated && server.Valid()
      modifies this, server
      ensures Valid() && server.Valid()
      ensures trace == old(trace) + [Issued(CommitSql, FaultOf(r))]
      ensures r.Done? ==> !invalidated
      ensures r.Raised? ==> !r.error.Refused? && (invalidated <==> r.error == Driver(ConnectionLost))
      ensures r != Raised(Interrupted) ==> work == None && !aborted
      ensures r.Done? ==> Applied(old(work), old(aborted), old(server.committed), old(server.versions))
      ensures r.Raised? ==>
        || (server.committed == old(server.committed) && server.versions == old(server.versions) && Kept())
        || (Unacknowledged(r.error) && work == None
            && Applied(old(work), old(aborted), old(server.committed), old(server.versions)))
    {
      var wrote := if aborted then None else work;
      var fails: bool := *;
      if !fails {
        trace := trace + [Issued(CommitSql, None)];
        work, aborted, locks := None, false, {};
        if wrote.Some? {
          server.Install(wrote.value);
        }
        return Done(());
      }
      var e := AnyError();
      trace := trace + [Issued(CommitSql, Some(e))];
      var reached: bool := *;
      if reached || e != Interrupted {
        work, aborted, locks := None, false, {};
        var commits: bool := *;
        if commits && Unacknowledged(e) && wrote.Some? {
          server.Install(wrote.value);
        }
      }
      invalidated := e == Driver(ConnectionLost);
      r := Raised(e);
    }

    /** The open transaction is as it was, or gone. */
    twostate predicate Kept()
      reads this
    {
      (work == None && !aborted) || (work == old(work) && aborted == old(aborted))
    }

    /** The committed state after COMMIT of that transaction took effect. */
    ghost predicate Applied(work: Option<Database>, aborted: bool, committed: Database, versions: seq<Database>)
      reads server
    {
      if work.Some? && !aborted
      then server.committed == work.value && server.versions == Extended(versions, committed, work.value)
      else server.committed == committed && server.versions == versions
    }

    /** ROLLBACK of the open transaction.  Interrupted, it may not have reached
        the server, and the transaction stays open. */
    method Rollback() returns (r: Outcome<()>)
      requires Valid() && !invalidated && work.Some?
      modifies this
      ensures Valid() && trace == old(trace) + [Issued(RollbackSql, FaultOf(r))]
      ensures r.Done? ==> !invalidated
      ensures r.Raised? ==> !r.error.Refused? && (invalidated <==> r.error == Driver(ConnectionLost))
      ensures r == Raised(Interrupted) && work.Some? ==>
        work == old(work) && aborted == old(aborted) && locks == old(locks)
      ensures r != Raised(Interrupted) ==> work == None && !aborted
    {
      var fails: bool := *;
      if !fails {
        trace := trace + [Issued(RollbackSql, None)];
        work, aborted, locks := None, false, {};
        return Done(());
      }
      var e := AnyError();
      trace := trace + [Issued(RollbackSql, Some(e))];
      var reached: bool := *;
      if reached || e != Interrupted {
        work, aborted, locks := None, false, {};
      }
      invalidated := e == Driver(ConnectionLost);
      r := Raised(e);
    }

    /** The connection's close: the server ends the session, and with it its
        transaction and its locks. */
    method Disconnect() returns (r: Outcome<()>)
      requires Valid()
      modifies this`work, this`aborted, this`locks, link
      ensures Valid() && work == None && link.granted == {}
    {
      work, aborted, locks := None, false, {};
      link.granted := {};
      var fails: bool := *;
      if fails {
        var e := AnyError();
        return Raised(e);
      }
      r := Done(());
    }
  }

  /** The errors that can hide a COMMIT that took effect. */
  predicate Unacknowledged(e: Error) {
    e == Driver(ConnectionLost) || e == Interrupted
  }

  method Now(after: real) returns (t: real)
    ensures t >= after
  {
    t := *;
    if t < after {
      t := after;
    }
  }

  /** time.sleep: never short, possibly long. */
  method Sleep(from: real, seconds: real) returns (t: real)
    ensures t >= from + seconds
  {
    t := Now(from + seconds);
  }
}
