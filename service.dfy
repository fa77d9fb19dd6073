/**
 * The gRPC service bootstrap (service/service.go): default options, the choice of storage
 * backend from the environment, the listen address and the client dial address.
 *
 * The process environment is a map from variable names to values; a variable that is not
 * in the map reads as the empty string, as `os.Getenv` returns it.
 */
module Service {
  import opened Options
  import opened Strings
  import opened Values
  import opened Logging
  import opened Relational
  import Database

  /** `defaultPORT`, an int32. */
  const DefaultPort: int := 50051

  const Production := "PRODUCTION"
  const Test := "TEST"
  const Development := "DEVELOPMENT"

  type Environment = map<string, string>

  /** `os.Getenv`. */
  function Getenv(env: Environment, name: string): string {
    if name in env then env[name] else ""
  }

  /**
   * `getEnv`: the default replaces an empty variable, but only when the default is not empty.
   * So the result is the variable when it is set and not empty, and the default otherwise
   * (an empty default and an empty variable agree).
   */
  function GetEnv(env: Environment, name: string, defaultValue: string): (value: string)
    ensures name in env && env[name] != "" ==> value == env[name]
    ensures !(name in env && env[name] != "") ==> value == defaultValue
  {
    var value := Getenv(env, name);
    if defaultValue != "" && value == "" then defaultValue else value
  }

  /** `getPortAsString`: a colon and the decimal port, the listen address on every interface. */
  function PortAsString(port: int): (s: string)
    ensures |s| >= 2 && s[0] == ':'
    ensures port >= 0 ==> AllDigits(s[1..]) && ParseNat(s[1..]) == port
  {
    ":" + IntToString(port)
  }

  /** The default port prints as `:50051`. */
  lemma DefaultPortAsString()
    ensures PortAsString(DefaultPort) == ":50051"
  {
    assert NatToString(5) == "5";
    assert NatToString(50) == "50";
    assert NatToString(500) == "500";
    assert NatToString(5005) == "5005";
    assert NatToString(50051) == "50051";
  }

  /** The address `ClientConnection` dials: the service name, a colon and the default port. */
  function ClientAddress(name: string): (address: string)
    ensures address == name + ":50051"
  {
    DefaultPortAsString();
    name + PortAsString(DefaultPort)
  }

  datatype DatabaseOpts = DatabaseOpts(disabled: bool, autoMigration: bool, migrations: Option<seq<Value>>)

  datatype NewServiceOpts = NewServiceOpts(serviceName: string, environment: string, database: DatabaseOpts)

  /** The options `NewService` uses when none are given: development, with the database disabled. */
  const DefaultOpts := NewServiceOpts("", Development, DatabaseOpts(true, false, None))

  /** `NewService(opts...)` uses the first options given, whole, or the defaults. */
  function EffectiveOpts(opts: seq<NewServiceOpts>): (opt: NewServiceOpts)
    ensures |opts| == 0 ==> opt.environment == Development && opt.database.disabled
    ensures |opts| > 0 ==> opt == opts[0]
  {
    if |opts| > 0 then opts[0] else DefaultOpts
  }

  /** The store `dbInitialize` opens. */
  datatype Backend =
    | PostgresBackend(table: string, host: string, port: string, dbName: string, user: string, password: string)
    | SqliteBackend(table: string, file: string)

  /**
   * Postgres in production, configured from the environment; a SQLite file otherwise.
   * Exactly one backend: Postgres iff the environment is PRODUCTION. The table is the
   * lower-cased service name, and the SQLite file is that table name with `.db` appended.
   */
  function ChooseBackend(environment: string, name: string, env: Environment): (b: Backend)
    ensures b.PostgresBackend? <==> environment == Production
    ensures b.table == ToLower(name) && NoUpper(b.table)
    ensures b.SqliteBackend? ==> b.file == b.table + ".db"
  {
    ToLowerAppend(name, ".db");
    ToLowerKeepsLowerText(".db");
    if environment == Production then
      PostgresBackend(ToLower(name),
                      GetEnv(env, "POSTGRES_HOST", "localhost"),
                      GetEnv(env, "POSTGRES_PORT", "5432"),
                      GetEnv(env, "POSTGRES_DBNAME", "MyDB"),
                      GetEnv(env, "POSTGRES_DBUSER", "root"),
                      GetEnv(env, "POSTGRES_DBPASSWORD", "qwerty"))
    else
      SqliteBackend(ToLower(name), ToLower(name + ".db"))
  }

  /** With none of the five variables set, Postgres gets localhost:5432, database MyDB, user root, password qwerty. */
  lemma PostgresDefaults(name: string, env: Environment)
    requires forall v | v in env :: v !in {"POSTGRES_HOST", "POSTGRES_PORT", "POSTGRES_DBNAME", "POSTGRES_DBUSER", "POSTGRES_DBPASSWORD"}
    ensures ChooseBackend(Production, name, env) == PostgresBackend(ToLower(name), "localhost", "5432", "MyDB", "root", "qwerty")
  {
  }

  /** Migrations run only when asked for and given (a non-nil list, possibly empty). */
  predicate Migrates(opts: DatabaseOpts) {
    opts.autoMigration && opts.migrations.Some?
  }

  /** The gRPC server: the addresses it has served on, and whether it was stopped. */
  class GrpcServer {
    var servedOn: seq<string>
    var stopped: bool

    constructor ()
      ensures servedOn == [] && !stopped
    {
      servedOn := [];
      stopped := false;
    }

    method Serve(address: string)
      modifies this
      ensures servedOn == old(servedOn) + [address] && stopped == old(stopped)
    {
      servedOn := servedOn + [address];
    }

    /** `GracefulStop`. */
    method Stop()
      modifies this
      ensures stopped && servedOn == old(servedOn)
    {
      stopped := true;
    }
  }

  class Service {
    const name: string
    const port: int
    const environment: string
    const server: GrpcServer
    const logger: Logger
    var db: Database.DB?

    constructor (name: string, environment: string, server: GrpcServer, logger: Logger)
      ensures this.name == name && this.port == DefaultPort && this.environment == environment
      ensures this.server == server && this.logger == logger && db == null
    {
      this.name := name;
      this.port := DefaultPort;
      this.environment := environment;
      this.server := server;
      this.logger := logger;
      db := null;
    }

    /**
     * `dbInitialize`: opens the backend `ChooseBackend` picks (`openErr` is the open error),
     * migrates when asked (`migrateErr` is the migration error), and only when every step
     * succeeded stores the new database.
     */
    method DbInitialize(opt: NewServiceOpts, env: Environment, openErr: Option<Err>, migrateErr: Option<Err>)
      returns (err: Option<Err>)
      modifies this, logger
      ensures err == (if openErr.Some? then openErr
                      else if Migrates(opt.database) then migrateErr
                      else None)
      ensures err.Some? ==> db == old(db)
      ensures err.None? ==>
                db != null && fresh(db) && fresh(db.handle) &&
                db.table == ToLower(name) && db.logger == logger &&
                DialectorOf(ChooseBackend(opt.environment, name, env)) == db.handle.dialector &&
                db.handle.issued == (if Migrates(opt.database)
                                     then [Direct(AutoMigrate(opt.database.migrations.value))] else [])
      ensures logger.entries == old(logger.entries) +
                (if openErr.Some? then [Entry(Error, InitFailureMessage, [ErrValue(openErr.value)])] else [])
    {
      var backend := ChooseBackend(opt.environment, name, env);
      var idb: Database.DB?;
      var e: Option<Err>;
      match backend {
        case PostgresBackend(table, host, port, dbName, user, password) =>
          idb, e := Database.NewPostgres(Database.NewPostgresOpts(table, host, port, dbName, user, password, logger), openErr);
        case SqliteBackend(table, file) =>
          idb, e := Database.NewSqlite(Database.NewSqliteOpts(table, file, logger), openErr);
      }
      if e.Some? {
        return e;
      }
      if Migrates(opt.database) {
        e := idb.AutoMigrate(opt.database.migrations.value, migrateErr);
        if e.Some? {
          return e;
        }
      }
      db := idb;
      err := None;
    }

    /** `ListenAndServe`: the listen and serve errors are parameters; both are logged and returned. */
    method ListenAndServe(listenErr: Option<Err>, serveErr: Option<Err>) returns (err: Option<Err>)
      modifies server, logger
      ensures listenErr.Some? ==>
                (err == listenErr && server.servedOn == old(server.servedOn) &&
                 logger.entries == old(logger.entries) + [Entry(Error, "failed to listen", [ErrValue(listenErr.value)])])
      ensures listenErr.None? ==> server.servedOn == old(server.servedOn) + [PortAsString(port)]
      ensures listenErr.None? && serveErr.Some? ==>
                (err == serveErr &&
                 logger.entries == old(logger.entries) + [Entry(Error, "failed to serve", [ErrValue(serveErr.value)])])
      ensures listenErr.None? && serveErr.None? ==>
                (err == None &&
                 logger.entries == old(logger.entries) + [Entry(Info, "Listen port " + IntToString(port), [])])
      ensures server.stopped == old(server.stopped)
    {
      if listenErr.Some? {
        logger.Log(Error, "failed to listen", [ErrValue(listenErr.value)]);
        return listenErr;
      }
      server.Serve(PortAsString(port));
      if serveErr.Some? {
        logger.Log(Error, "failed to serve", [ErrValue(serveErr.value)]);
        return serveErr;
      }
      logger.Log(Info, "Listen port " + IntToString(port), []);
      err := None;
    }

    /** `ClientConnection`: dials `name:50051`; a dial error is logged at fatal level and no connection returned. */
    method ClientConnection(name: string, dialErr: Option<Err>) returns (conn: Option<string>)
      modifies logger
      ensures dialErr.None? ==> conn == Some(name + ":50051") && logger.entries == old(logger.entries)
      ensures dialErr.Some? ==>
                (conn == None &&
                 logger.entries == old(logger.entries) +
                   [Entry(Fatal, "could not create client connection",
                          [Str("name"), Str(name), Str("address"), Str(name + ":50051"), Str("port"), Int(DefaultPort)])])
    {
      var address := ClientAddress(name);
      if dialErr.Some? {
        logger.Log(Fatal, "could not create client connection",
                   [Str("name"), Str(name), Str("address"), Str(address), Str("port"), Int(DefaultPort)]);
        return None;
      }
      conn := Some(address);
    }

    /** `Stop`. */
    method Stop()
      modifies server
      ensures server.stopped && server.servedOn == old(server.servedOn)
    {
      server.Stop();
    }
  }

  /** The dialector a backend is opened with. */
  function DialectorOf(b: Backend): Dialector {
    match b
    case PostgresBackend(_, host, port, dbName, user, password) => Postgres(Dsn(host, port, user, password, dbName))
    case SqliteBackend(_, file) => Sqlite(file)
  }

  /**
   * `NewService`: builds the service from the first options given or the defaults, and
   * initialises its database unless disabled; an initialisation error discards the service.
   */
  method NewService(opts: seq<NewServiceOpts>, env: Environment, openErr: Option<Err>, migrateErr: Option<Err>)
    returns (svc: Service?, err: Option<Err>)
    ensures var opt := EffectiveOpts(opts);
            var initErr := if opt.database.disabled then None
                           else if openErr.Some? then openErr
                           else if Migrates(opt.database) then migrateErr
                           else None;
            err == initErr &&
            (err.Some? ==> svc == null) &&
            (err.None? ==> svc != null && fresh(svc) &&
                           svc.name == opt.serviceName && svc.port == DefaultPort &&
                           svc.environment == opt.environment &&
                           fresh(svc.logger) && svc.logger.name == opt.serviceName && svc.logger.threshold == Info &&
                           (svc.db == null <==> opt.database.disabled))
  {
    var opt := EffectiveOpts(opts);
    var lg := new Logger(opt.serviceName, Info);
    var server := new GrpcServer();
    var s := new Service(opt.serviceName, opt.environment, server, lg);
    if !opt.database.disabled {
      var e := s.DbInitialize(opt, env, openErr, migrateErr);
      if e.Some? {
        return null, e;
      }
    }
    svc, err := s, None;
  }
}
