/**
 * The older relational wrapper of db/db.go: Postgres only, the mapper's default table naming,
 * failures logged with the error as the `error` field, and ordering always requested.
 */
module Db {
  import opened Options
  import opened Values
  import opened Logging
  import opened Relational

  datatype NewPostgresOpts = NewPostgresOpts(
    table: string, host: string, port: string, dbName: string, user: string, password: string,
    logger: Logger)

  class DB {
    const table: string
    const logger: Logger
    const handle: Handle

    /** The struct literal. */
    constructor (table: string, logger: Logger, handle: Handle)
      ensures this.table == table && this.logger == logger && this.handle == handle
    {
      this.table := table;
      this.logger := logger;
      this.handle := handle;
    }

    /** Drops the wrapper's table; the migrator's error is returned. */
    method DropTable(outcome: Option<Err>) returns (err: Option<Err>)
      modifies handle
      ensures handle.issued == old(handle.issued) + [Direct(Statement.DropTable(table))]
      ensures err == outcome
    {
      err := handle.Run(Statement.DropTable(table), outcome);
    }

    /** Migrates the given models; the migrator's error is returned. */
    method AutoMigrate(models: seq<Value>, outcome: Option<Err>) returns (err: Option<Err>)
      modifies handle
      ensures handle.issued == old(handle.issued) + [Direct(Statement.AutoMigrate(models))]
      ensures err == outcome
    {
      err := handle.Run(Statement.AutoMigrate(models), outcome);
    }

    /**
     * Runs `stmt` in a transaction whose callback logs the statement's failure and returns
     * it; the transaction's result is discarded and nil returned.
     */
    method Transact(op: Operation, stmt: Statement, outcome: Option<Err>) returns (err: Option<Err>)
      modifies handle, logger
      ensures err == None
      ensures handle.issued == old(handle.issued) + [InTransaction(stmt)]
      ensures logger.entries == old(logger.entries) + FailureLog(ErrorField, op, outcome)
    {
      var txErr := handle.RunInTransaction(stmt, outcome);
      if outcome.Some? {
        logger.Log(Error, FailureMessage(op), ErrorFields(ErrorField, outcome.value));
      }
      err := None;
    }

    method Create(target: Value, outcome: Option<Err>) returns (err: Option<Err>)
      modifies handle, logger
      ensures err == None
      ensures handle.issued == old(handle.issued) + [InTransaction(Statement.Create(table, target))]
      ensures logger.entries == old(logger.entries) + FailureLog(ErrorField, CreateOp, outcome)
    {
      err := Transact(CreateOp, Statement.Create(table, target), outcome);
    }

    method Update(target: Value, newValues: Value, outcome: Option<Err>) returns (err: Option<Err>)
      modifies handle, logger
      ensures err == None
      ensures handle.issued == old(handle.issued) + [InTransaction(Updates(table, target, newValues))]
      ensures logger.entries == old(logger.entries) + FailureLog(ErrorField, UpdateOp, outcome)
    {
      err := Transact(UpdateOp, Updates(table, target, newValues), outcome);
    }

    method Delete(target: Value, outcome: Option<Err>) returns (err: Option<Err>)
      modifies handle, logger
      ensures err == None
      ensures handle.issued == old(handle.issued) + [InTransaction(Statement.Delete(table, target))]
      ensures logger.entries == old(logger.entries) + FailureLog(ErrorField, DeleteOp, outcome)
    {
      err := Transact(DeleteOp, Statement.Delete(table, target), outcome);
    }

    /** Loads the first row whose id is `id`. */
    method FindByID(target: Value, id: string, outcome: Option<Err>) returns (err: Option<Err>)
      modifies handle, logger
      ensures err == None
      ensures handle.issued == old(handle.issued) + [InTransaction(First(table, target, "id = ?", id))]
      ensures logger.entries == old(logger.entries) + FailureLog(ErrorField, FindByIDOp, outcome)
    {
      err := Transact(FindByIDOp, First(table, target, "id = ?", id), outcome);
    }

    /** Finds the rows matching `query`. Passes `orderBy` to the ordering clause even when it is empty. */
    method Query(target: Value, query: string, orderBy: string, args: seq<Value>, outcome: Option<Err>)
      returns (err: Option<Err>)
      modifies handle, logger
      ensures err == None
      ensures handle.issued == old(handle.issued) + [InTransaction(Find(table, target, query, args, Some(orderBy)))]
      ensures logger.entries == old(logger.entries) + FailureLog(ErrorField, QueryOp, outcome)
    {
      err := Transact(QueryOp, Find(table, target, query, args, Some(orderBy)), outcome);
    }

    /** Runs raw SQL; its failure is logged with Create's message. */
    method Exec(raw: string, args: seq<Value>, outcome: Option<Err>) returns (err: Option<Err>)
      modifies handle, logger
      ensures err == None
      ensures handle.issued == old(handle.issued) + [InTransaction(Statement.Exec(raw, args))]
      ensures logger.entries == old(logger.entries) + FailureLog(ErrorField, ExecOp, outcome)
    {
      err := Transact(ExecOp, Statement.Exec(raw, args), outcome);
    }

    /** A new identifier for a row: `suffix` stands for the random short UUID. */
    method NewID(prefix: string, suffix: string) returns (id: string)
      ensures id == Relational.NewID(prefix, suffix)
      ensures '_' !in suffix ==> ParseID(id) == (prefix, suffix)
    {
      var p := prefix;
      if p != "" {
        p := p + "_";
      }
      id := p + suffix;
      if '_' !in suffix {
        ParseNewID(prefix, suffix);
      }
    }
  }

  /** Opens a Postgres store; on failure the error is logged and returned. */
  method NewPostgres(opts: NewPostgresOpts, openErr: Option<Err>) returns (db: DB?, err: Option<Err>)
    modifies opts.logger
    ensures openErr.Some? ==>
              db == null && err == openErr &&
              opts.logger.entries == old(opts.logger.entries) + [Entry(Error, InitFailureMessage, ErrorFields(ErrorField, openErr.value))]
    ensures openErr.None? ==>
              err == None && db != null && fresh(db) && fresh(db.handle) &&
              db.handle.dialector == Postgres(Dsn(opts.host, opts.port, opts.user, opts.password, opts.dbName)) &&
              db.handle.singularTable == false && db.handle.issued == [] &&
              db.table == opts.table && db.logger == opts.logger &&
              opts.logger.entries == old(opts.logger.entries)
  {
    if openErr.Some? {
      opts.logger.Log(Error, InitFailureMessage, ErrorFields(ErrorField, openErr.value));
      return null, openErr;
    }
    var handle := new Handle(Postgres(Dsn(opts.host, opts.port, opts.user, opts.password, opts.dbName)), false);
    db := new DB(opts.table, opts.logger, handle);
    err := None;
  }
}
