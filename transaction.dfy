/**
 * Database transactions over a shared connection. The connection is reduced to what the
 * transaction logic observes: its kind, the driver's answer to each call (success or an error
 * message), a log of the calls made, and whether its lock is held elsewhere (by a row stream).
 */
module Transactions {
  import opened Wrappers
  import opened DbErrors

  datatype Backend = MySql | Postgres | Sqlite

  /** The connection behind the lock: a driver connection, a mock, a proxy, or none usable. */
  datatype ConnKind = MySqlConn | PostgresConn | SqliteConn | MockConn | ProxyConn | Disconnected

  datatype IsolationLevel = RepeatableRead | ReadCommitted | ReadUncommitted | Serializable
  datatype AccessMode = ReadOnly | ReadWrite

  /** A call made on the connection, as its log records it. */
  datatype DriverCall =
    | SetConfig(isolation: Option<IsolationLevel>, access: Option<AccessMode>)  // set_transaction_config
    | Begin | Commit | Rollback | StartRollback
    | Execute(stmt: string) | QueryAll(stmt: string)

  /** A call into code that may panic: it returns a value or panics with a message. */
  datatype Outcome<T> = Returned(value: T) | Panicked(message: string)

  /** The message `Drop` panics with when the queued rollback fails. */
  const DropPanic := "Fail to rollback transaction"

  /** The real database drivers; mocks and proxies never fail to begin, commit or roll back. */
  predicate Driven(kind: ConnKind) {
    kind.MySqlConn? || kind.PostgresConn? || kind.SqliteConn?
  }

  /** The calls an operation made, in order, and the error it stopped with, if any. */
  datatype Attempt = Attempt(calls: seq<DriverCall>, err: Option<DbErr>)

  /**
   * What `begin` does on each kind of connection. MySQL and SQLite apply the isolation level and
   * access mode before BEGIN, Postgres after BEGIN (inside the transaction); a mock or proxy
   * only records the begin; any other connection fails with "Disconnected". A driver failure of
   * BEGIN is a query error; a failure of the configuration statement is an execution error.
   */
  function BeginAttempt(kind: ConnKind, driver: DriverCall -> Option<string>,
                        iso: Option<IsolationLevel>, mode: Option<AccessMode>): (a: Attempt)
    ensures Driven(kind) ==> 1 <= |a.calls| <= 2
    ensures Driven(kind) && a.err.None? ==> |a.calls| == 2 && SetConfig(iso, mode) in a.calls && Begin in a.calls
    ensures (kind.MySqlConn? || kind.SqliteConn?) ==> a.calls[0] == SetConfig(iso, mode)
    ensures kind.PostgresConn? ==> a.calls[0] == Begin
    ensures (kind.MockConn? || kind.ProxyConn?) ==> a == Attempt([Begin], None)
    ensures kind.Disconnected? ==> a == Attempt([], Some(Conn("Disconnected")))
    ensures a.err.None? <==> !kind.Disconnected? && forall c :: c in a.calls && Driven(kind) ==> driver(c).None?
  {
    var cfg := SetConfig(iso, mode);
    match kind
    case MySqlConn => ConfigThenBegin(cfg, driver)
    case SqliteConn => ConfigThenBegin(cfg, driver)
    case PostgresConn => BeginThenConfig(cfg, driver)
    case MockConn => Attempt([Begin], None)
    case ProxyConn => Attempt([Begin], None)
    case Disconnected => Attempt([], Some(Conn("Disconnected")))
  }

  function ConfigThenBegin(cfg: DriverCall, driver: DriverCall -> Option<string>): (a: Attempt)
    ensures a.calls == [cfg] || a.calls == [cfg, Begin]
  {
    if driver(cfg).Some? then Attempt([cfg], Some(Exec(driver(cfg).value)))
    else if driver(Begin).Some? then Attempt([cfg, Begin], Some(Query(driver(Begin).value)))
    else Attempt([cfg, Begin], None)
  }

  /** PostgreSQL: BEGIN first, then the configuration inside the transaction, only if BEGIN succeeded. */
  function BeginThenConfig(cfg: DriverCall, driver: DriverCall -> Option<string>): (a: Attempt)
    ensures a.calls == [Begin] || a.calls == [Begin, cfg]
  {
    if driver(Begin).Some? then Attempt([Begin], Some(Query(driver(Begin).value)))
    else if driver(cfg).Some? then Attempt([Begin, cfg], Some(Exec(driver(cfg).value)))
    else Attempt([Begin, cfg], None)
  }

  /**
   * What `commit` (call == Commit) and `rollback` (call == Rollback) do: the driver's failure is
   * a query error, a mock or proxy always succeeds, any other connection is "Disconnected".
   */
  function EndAttempt(kind: ConnKind, driver: DriverCall -> Option<string>, call: DriverCall): (a: Attempt)
    ensures !kind.Disconnected? ==> a.calls == [call]
    ensures kind.Disconnected? ==> a == Attempt([], Some(Conn("Disconnected")))
    ensures a.err.None? <==> (kind.MockConn? || kind.ProxyConn? || (Driven(kind) && driver(call).None?))
  {
    if Driven(kind) then
      if driver(call).Some? then Attempt([call], Some(Query(driver(call).value))) else Attempt([call], None)
    else if kind.MockConn? || kind.ProxyConn? then Attempt([call], None)
    else Attempt([], Some(Conn("Disconnected")))
  }

  /**
   * What a statement does: the driver's (or the mock's) failure is an execution error for
   * `Execute` and a query error for `QueryAll`; any other connection is "Disconnected".
   */
  function StatementAttempt(kind: ConnKind, driver: DriverCall -> Option<string>, call: DriverCall): (a: Attempt)
    requires call.Execute? || call.QueryAll?
    ensures !kind.Disconnected? ==> a.calls == [call]
    ensures kind.Disconnected? ==> a == Attempt([], Some(Conn("Disconnected")))
    ensures a.err.None? <==> !kind.Disconnected? && driver(call).None?
    ensures a.err.Some? && !kind.Disconnected? ==>
      a.err.value == (if call.Execute? then Exec(driver(call).value) else Query(driver(call).value))
  {
    if kind.Disconnected? then Attempt([], Some(Conn("Disconnected")))
    else if driver(call).None? then Attempt([call], None)
    else if call.Execute? then Attempt([call], Some(Exec(driver(call).value)))
    else Attempt([call], Some(Query(driver(call).value)))
  }

  /**
   * What `start_rollback` does: nothing once the transaction is closed; while open, an error if
   * the lock is held elsewhere, otherwise a queued rollback on a driver or proxy, an immediate
   * rollback on a mock, and "Disconnected" on any other connection.
   */
  function StartRollbackAttempt(kind: ConnKind, open: bool, locked: bool): (a: Attempt)
    ensures !open ==> a == Attempt([], None)
    ensures open && locked ==> a == Attempt([], Some(Conn("Dropping a locked Transaction")))
    ensures a.err.Some? <==> open && (locked || kind.Disconnected?)
    ensures |a.calls| <= 1
  {
    if !open then Attempt([], None)
    else if locked then Attempt([], Some(Conn("Dropping a locked Transaction")))
    else match kind
      case MySqlConn => Attempt([StartRollback], None)
      case PostgresConn => Attempt([StartRollback], None)
      case SqliteConn => Attempt([StartRollback], None)
      case MockConn => Attempt([Rollback], None)
      case ProxyConn => Attempt([StartRollback], None)
      case Disconnected => Attempt([], Some(Conn("Disconnected")))
  }

  /** The error of `transaction` and `run`: the connection failed, or the callback did. */
  datatype TransactionError<E> = Connection(dbErr: DbErr) | Transaction(error: E)

  /** `From<DbErr>`: a database error is always a connection error. */
  function FromDbErr<E>(e: DbErr): (r: TransactionError<E>)
    ensures r.Connection? && r.dbErr == e
  {
    Connection(e)
  }

  /** The shared connection (`Arc<Mutex<InnerConnection>>`). */
  class InnerConnection {
    const kind: ConnKind
    const driver: DriverCall -> Option<string>
    var log: seq<DriverCall>
    var locked: bool

    constructor (kind: ConnKind, driver: DriverCall -> Option<string>)
      ensures this.kind == kind && this.driver == driver
      ensures log == [] && !locked
    {
      this.kind := kind;
      this.driver := driver;
      log := [];
      locked := false;
    }

    /** Makes a call and reports the driver's failure message, if any. */
    method Call(c: DriverCall) returns (failure: Option<string>)
      modifies this
      ensures failure == driver(c)
      ensures log == old(log) + [c] && locked == old(locked)
    {
      log := log + [c];
      failure := driver(c);
    }

    /** A row stream takes the lock and keeps it until it is closed. */
    method Lock()
      requires !locked
      modifies this
      ensures locked && log == old(log)
    {
      locked := true;
    }

    method Unlock()
      requires locked
      modifies this
      ensures !locked && log == old(log)
    {
      locked := false;
    }
  }

  class DatabaseTransaction {
    const conn: InnerConnection
    const backend: Backend
    var open: bool
    /** Set once the value is gone: committed, rolled back or dropped. */
    var consumed: bool

    constructor (conn: InnerConnection, backend: Backend)
      ensures this.conn == conn && this.backend == backend
      ensures open && !consumed
    {
      this.conn := conn;
      this.backend := backend;
      open := true;
      consumed := false;
    }

    /** A transaction value that still exists is open until commit or rollback takes it. */
    predicate Live()
      reads this
    {
      open && !consumed
    }

    /** `start_rollback`, run by `Drop`. */
    method QueueRollback() returns (r: Result<(), DbErr>)
      modifies conn
      ensures var a := StartRollbackAttempt(conn.kind, open, old(conn.locked));
        && conn.log == old(conn.log) + a.calls
        && (r.Err? <==> a.err.Some?) && (r.Err? ==> r.error == a.err.value)
      ensures conn.locked == old(conn.locked)
    {
      if open {
        if !conn.locked {
          match conn.kind {
            case MySqlConn => var _ := conn.Call(StartRollback);
            case PostgresConn => var _ := conn.Call(StartRollback);
            case SqliteConn => var _ := conn.Call(StartRollback);
            case MockConn => var _ := conn.Call(Rollback);
            case ProxyConn => var _ := conn.Call(StartRollback);
            case Disconnected => return Err(Conn("Disconnected"));
          }
        } else {
          return Err(Conn("Dropping a locked Transaction"));
        }
      }
      r := Ok(());
    }

    /** `Drop`: `start_rollback`, panicking if it fails. */
    method Drop() returns (o: Outcome<()>)
      requires !consumed
      modifies this, conn
      ensures consumed && open == old(open)
      ensures var a := StartRollbackAttempt(conn.kind, open, old(conn.locked));
        && conn.log == old(conn.log) + a.calls
        && (o.Panicked? <==> a.err.Some?) && (o.Panicked? ==> o.message == DropPanic)
      ensures conn.locked == old(conn.locked)
    {
      var r := QueueRollback();
      consumed := true;
      if r.Err? {
        return Panicked(DropPanic);
      }
      o := Returned(());
    }

    /**
     * `begin`: a new open transaction on the shared connection. If the backend fails, the
     * half-built value is dropped while still open, which queues a rollback; on a connection
     * that is neither a driver, a mock nor a proxy that rollback fails too and `Drop` panics.
     */
    static method BeginOn(conn: InnerConnection, backend: Backend, iso: Option<IsolationLevel>, mode: Option<AccessMode>)
      returns (r: Outcome<Result<DatabaseTransaction, DbErr>>)
      requires !conn.locked
      modifies conn
      ensures !conn.locked
      ensures var a := BeginAttempt(conn.kind, conn.driver, iso, mode);
        && (a.err.None? ==>
              && r.Returned? && r.value.Ok? && fresh(r.value.value) && r.value.value.Live()
              && r.value.value.conn == conn && r.value.value.backend == backend
              && conn.log == old(conn.log) + a.calls)
        && (a.err.Some? && conn.kind.Disconnected? ==> r == Panicked(DropPanic) && conn.log == old(conn.log))
        && (a.err.Some? && !conn.kind.Disconnected? ==>
              r == Returned(Err(a.err.value)) && conn.log == old(conn.log) + a.calls + [StartRollback])
    {
      var res := new DatabaseTransaction(conn, backend);
      var cfg := SetConfig(iso, mode);
      var err: Option<DbErr> := None;
      match conn.kind {
        case MySqlConn => err := ConfigThenBeginOn(conn, cfg);
        case SqliteConn => err := ConfigThenBeginOn(conn, cfg);
        case PostgresConn => err := BeginThenConfigOn(conn, cfg);
        case MockConn => var _ := conn.Call(Begin);
        case ProxyConn => var _ := conn.Call(Begin);
        case Disconnected => err := Some(Conn("Disconnected"));
      }
      if err.Some? {
        var dropped := res.Drop();
        if dropped.Panicked? {
          return Panicked(dropped.message);
        }
        return Returned(Err(err.value));
      }
      r := Returned(Ok(res));
    }

    static method ConfigThenBeginOn(conn: InnerConnection, cfg: DriverCall) returns (err: Option<DbErr>)
      modifies conn
      ensures var a := ConfigThenBegin(cfg, conn.driver);
        err == a.err && conn.log == old(conn.log) + a.calls
      ensures conn.locked == old(conn.locked)
    {
      var f := conn.Call(cfg);
      if f.Some? {
        return Some(Exec(f.value));
      }
      var g := conn.Call(Begin);
      if g.Some? {
        return Some(Query(g.value));
      }
      err := None;
    }

    static method BeginThenConfigOn(conn: InnerConnection, cfg: DriverCall) returns (err: Option<DbErr>)
      modifies conn
      ensures var a := BeginThenConfig(cfg, conn.driver);
        err == a.err && conn.log == old(conn.log) + a.calls
      ensures conn.locked == old(conn.locked)
    {
      var f := conn.Call(Begin);
      if f.Some? {
        return Some(Query(f.value));
      }
      var g := conn.Call(cfg);
      if g.Some? {
        return Some(Exec(g.value));
      }
      err := None;
    }

    /** The common shape of `commit` and `rollback`; `open` is cleared only once the backend has succeeded. */
    method Finish(call: DriverCall) returns (r: Outcome<Result<(), DbErr>>)
      requires call == Commit || call == Rollback
      requires Live() && !conn.locked
      modifies this, conn
      ensures consumed && !conn.locked
      ensures var a := EndAttempt(conn.kind, conn.driver, call);
        && (a.err.None? ==> r == Returned(Ok(())) && !open && conn.log == old(conn.log) + a.calls)
        && (a.err.Some? ==> open)
        && (a.err.Some? && conn.kind.Disconnected? ==> r == Panicked(DropPanic) && conn.log == old(conn.log))
        && (a.err.Some? && !conn.kind.Disconnected? ==>
              r == Returned(Err(a.err.value)) && conn.log == old(conn.log) + a.calls + [StartRollback])
    {
      var err: Option<DbErr> := None;
      if Driven(conn.kind) {
        var f := conn.Call(call);
        if f.Some? {
          err := Some(Query(f.value));
        }
      } else if conn.kind.MockConn? || conn.kind.ProxyConn? {
        var _ := conn.Call(call);
      } else {
        err := Some(Conn("Disconnected"));
      }
      if err.None? {
        open := false;
      }
      var dropped := Drop();
      if dropped.Panicked? {
        return Panicked(dropped.message);
      }
      r := Returned(if err.Some? then Err(err.value) else Ok(()));
    }

    /** `commit`. */
    method CommitTx() returns (r: Outcome<Result<(), DbErr>>)
      requires Live() && !conn.locked
      modifies this, conn
      ensures consumed && !conn.locked
      ensures var a := EndAttempt(conn.kind, conn.driver, Commit);
        && (!open <==> a.err.None?)
        && (a.err.None? ==> r == Returned(Ok(())) && conn.log == old(conn.log) + [Commit])
        && (a.err.Some? && conn.kind.Disconnected? ==> r == Panicked(DropPanic) && conn.log == old(conn.log))
        && (a.err.Some? && !conn.kind.Disconnected? ==>
              r == Returned(Err(a.err.value)) && conn.log == old(conn.log) + [Commit, StartRollback])
    {
      r := Finish(Commit);
    }

    /** `rollback`. */
    method RollbackTx() returns (r: Outcome<Result<(), DbErr>>)
      requires Live() && !conn.locked
      modifies this, conn
      ensures consumed && !conn.locked
      ensures var a := EndAttempt(conn.kind, conn.driver, Rollback);
        && (!open <==> a.err.None?)
        && (a.err.None? ==> r == Returned(Ok(())) && conn.log == old(conn.log) + [Rollback])
        && (a.err.Some? && conn.kind.Disconnected? ==> r == Panicked(DropPanic) && conn.log == old(conn.log))
        && (a.err.Some? && !conn.kind.Disconnected? ==>
              r == Returned(Err(a.err.value)) && conn.log == old(conn.log) + [Rollback, StartRollback])
    {
      r := Finish(Rollback);
    }

    /** `execute_raw` (call is `Execute`) and `query_all_raw` (call is `QueryAll`) under the lock. */
    method RunStatement(call: DriverCall) returns (r: Result<(), DbErr>)
      requires call.Execute? || call.QueryAll?
      requires Live() && !conn.locked
      modifies conn
      ensures !conn.locked
      ensures var a := StatementAttempt(conn.kind, conn.driver, call);
        conn.log == old(conn.log) + a.calls && (r.Err? <==> a.err.Some?) && (r.Err? ==> r.error == a.err.value)
    {
      if conn.kind.Disconnected? {
        return Err(Conn("Disconnected"));
      }
      var f := conn.Call(call);
      if f.None? {
        return Ok(());
      }
      r := Err(if call.Execute? then Exec(f.value) else Query(f.value));
    }

    /** `stream_raw`: the stream holds the connection's lock for as long as it lives. */
    method StreamRaw()
      requires Live() && !conn.locked
      modifies conn
      ensures conn.locked && conn.log == old(conn.log)
    {
      conn.Lock();
    }

    /** Nested `begin` / `begin_with_config`: a transaction on the same connection handle and backend. */
    method BeginNested(iso: Option<IsolationLevel>, mode: Option<AccessMode>)
      returns (r: Outcome<Result<DatabaseTransaction, DbErr>>)
      requires Live() && !conn.locked
      modifies conn
      ensures !conn.locked
      ensures r.Returned? && r.value.Ok? ==>
        fresh(r.value.value) && r.value.value.Live() && r.value.value.conn == conn && r.value.value.backend == backend
      ensures var a := BeginAttempt(conn.kind, conn.driver, iso, mode);
        && (a.err.None? ==> r.Returned? && r.value.Ok? && conn.log == old(conn.log) + a.calls)
        && (a.err.Some? && !conn.kind.Disconnected? ==>
              r == Returned(Err(a.err.value)) && conn.log == old(conn.log) + a.calls + [StartRollback])
        && (a.err.Some? && conn.kind.Disconnected? ==> r == Panicked(DropPanic) && conn.log == old(conn.log))
    {
      r := BeginOn(conn, backend, iso, mode);
    }

    /**
     * `run`: the callback's error becomes `Transaction`; success commits and failure rolls back,
     * a failing commit or rollback becoming `Connection`. What the callback does on the
     * connection is not modelled: `work` is its result.
     */
    method Run<T, E>(work: Result<T, E>) returns (r: Outcome<Result<T, TransactionError<E>>>)
      requires Live() && !conn.locked
      modifies this, conn
      ensures consumed && !conn.locked
      ensures var call := if work.Ok? then Commit else Rollback;
        var a := EndAttempt(conn.kind, conn.driver, call);
        && (a.err.None? ==> r == Returned(if work.Ok? then Ok(work.value) else Err(Transaction(work.error))))
        && (a.err.Some? && !conn.kind.Disconnected? ==> r == Returned(Err(Connection(a.err.value))))
        && (a.err.Some? && conn.kind.Disconnected? ==> r == Panicked(DropPanic))
        && conn.log == old(conn.log) + a.calls + (if a.err.Some? && !conn.kind.Disconnected? then [StartRollback] else [])
    {
      var res: Result<T, TransactionError<E>> := if work.Ok? then Ok(work.value) else Err(Transaction(work.error));
      var done: Outcome<Result<(), DbErr>>;
      if res.Ok? {
        done := CommitTx();
      } else {
        done := RollbackTx();
      }
      match done {
        case Panicked(m) => return Panicked(m);
        case Returned(Err(e)) => return Returned(Err(Connection(e)));
        case Returned(Ok(_)) => return Returned(res);
      }
    }

    /**
     * `transaction_with_config` (and `transaction`, with no configuration): a nested transaction is
     * begun, a failure to begin is reported as `Connection` without running the callback, and the
     * rest is `run` on the nested transaction.
     */
    method TransactionWithConfig<T, E>(work: Result<T, E>, iso: Option<IsolationLevel>, mode: Option<AccessMode>)
      returns (r: Outcome<Result<T, TransactionError<E>>>, ranCallback: bool)
      requires Live() && !conn.locked
      modifies conn
      ensures !conn.locked
      ensures var a := BeginAttempt(conn.kind, conn.driver, iso, mode);
        && (ranCallback <==> a.err.None?)
        && (a.err.Some? && !conn.kind.Disconnected? ==>
              r == Returned(Err(Connection(a.err.value))) && conn.log == old(conn.log) + a.calls + [StartRollback])
        && (a.err.Some? && conn.kind.Disconnected? ==> r == Panicked(DropPanic) && conn.log == old(conn.log))
      ensures var a := BeginAttempt(conn.kind, conn.driver, iso, mode);
        var e := EndAttempt(conn.kind, conn.driver, if work.Ok? then Commit else Rollback);
        a.err.None? ==>
          && (e.err.None? ==> r == Returned(if work.Ok? then Ok(work.value) else Err(Transaction(work.error))))
          && (e.err.Some? && !conn.kind.Disconnected? ==> r == Returned(Err(Connection(e.err.value))))
          && (e.err.Some? && conn.kind.Disconnected? ==> r == Panicked(DropPanic))
          && conn.log == old(conn.log) + a.calls + e.calls
                         + (if e.err.Some? && !conn.kind.Disconnected? then [StartRollback] else [])
    {
      var begun := BeginNested(iso, mode);
      match begun {
        case Panicked(m) =>
          return Panicked(m), false;
        case Returned(Err(e)) =>
          return Returned(Err(Connection(e))), false;
        case Returned(Ok(tx)) =>
          r := tx.Run(work);
          ranCallback := true;
      }
    }
  }

  /** Postgres configures the transaction after BEGIN, MySQL and SQLite before it, a mock not at all. */
  lemma BackendOrdering(driver: DriverCall -> Option<string>, iso: Option<IsolationLevel>, mode: Option<AccessMode>)
    requires forall c: DriverCall :: driver(c).None?
    ensures BeginAttempt(PostgresConn, driver, iso, mode) == Attempt([Begin, SetConfig(iso, mode)], None)
    ensures BeginAttempt(MySqlConn, driver, iso, mode) == Attempt([SetConfig(iso, mode), Begin], None)
    ensures BeginAttempt(SqliteConn, driver, iso, mode) == Attempt([SetConfig(iso, mode), Begin], None)
    ensures BeginAttempt(MockConn, driver, iso, mode) == Attempt([Begin], None)
  {
  }

  /** A begin that fails at the configuration step never sends BEGIN on MySQL or SQLite. */
  lemma ConfigFailureSkipsBegin(kind: ConnKind, driver: DriverCall -> Option<string>,
                                iso: Option<IsolationLevel>, mode: Option<AccessMode>)
    requires kind.MySqlConn? || kind.SqliteConn?
    requires driver(SetConfig(iso, mode)).Some?
    ensures BeginAttempt(kind, driver, iso, mode) == Attempt([SetConfig(iso, mode)], Some(Exec(driver(SetConfig(iso, mode)).value)))
    ensures Begin !in BeginAttempt(kind, driver, iso, mode).calls
  {
  }

  /** A mock connection: begin, a statement and commit are logged in order, and the transaction ends closed. */
  method MockCommitScenario(stmt: string) returns (log: seq<DriverCall>, openAfter: bool, result: Outcome<Result<(), DbErr>>)
    ensures log == [Begin, Execute(stmt), Commit]
    ensures !openAfter && result == Returned(Ok(()))
  {
    var conn := new InnerConnection(MockConn, c => None);
    var begun := DatabaseTransaction.BeginOn(conn, Postgres, None, None);
    var tx := begun.value.value;
    var _ := tx.RunStatement(Execute(stmt));
    result := tx.CommitTx();
    log := conn.log;
    openAfter := tx.open;
  }

  /**
   * Dropping an open transaction while a nested transaction's stream holds the shared lock:
   * `start_rollback` cannot take the lock and `Drop` panics.
   */
  method LockedDropScenario() returns (outcome: Outcome<()>, log: seq<DriverCall>)
    ensures outcome == Panicked(DropPanic)
    ensures log == [Begin, Begin]
  {
    var conn := new InnerConnection(MockConn, c => None);
    var begun := DatabaseTransaction.BeginOn(conn, Sqlite, None, None);
    var outer := begun.value.value;
    var nested := outer.BeginNested(None, None);
    var inner := nested.value.value;
    inner.StreamRaw();
    outcome := outer.Drop();
    log := conn.log;
  }

  /** A failed COMMIT on a driver connection: a query error, the flag still set, and a queued rollback. */
  method FailedCommitScenario() returns (result: Outcome<Result<(), DbErr>>, openAfter: bool, log: seq<DriverCall>)
    ensures result == Returned(Err(Query("commit failed")))
    ensures openAfter
    ensures log == [SetConfig(None, None), Begin, Commit, StartRollback]
  {
    var conn := new InnerConnection(MySqlConn, c => if c == Commit then Some("commit failed") else None);
    var begun := DatabaseTransaction.BeginOn(conn, MySql, None, None);
    var tx := begun.value.value;
    result := tx.CommitTx();
    openAfter := tx.open;
    log := conn.log;
  }
}
