/**
 * What the three relational wrappers (database/database.go, db/db.go and
 * database/gorm/gorm.go) share: the Postgres connection string, the identifier format,
 * the statements they hand to the object-relational mapper, and the error log written when
 * a statement fails.
 */
module Relational {
  import opened Options
  import opened Strings
  import opened Values
  import opened Logging

  /** One `key=value` setting of a keyword/value connection string. */
  function Setting(key: string, value: string): string {
    key + "=" + value
  }

  /**
   * The Postgres connection string, `fmt.Sprintf("host=%v port=%v user=%v password=%v dbname=%v", ...)`:
   * five settings in a fixed order, separated by single spaces.
   */
  function Dsn(host: string, port: string, user: string, password: string, dbName: string): (dsn: string)
    ensures HasPrefix(dsn, "host=")
    ensures |dsn| == 35 + |host| + |port| + |user| + |password| + |dbName|
  {
    Setting("host", host) + [' '] + (Setting("port", port) + [' '] + (Setting("user", user) + [' '] +
      (Setting("password", password) + [' '] + Setting("dbname", dbName))))
  }

  /** The value of a setting, if `part` is a setting of `key`. */
  function SettingValue(part: string, key: string): Option<string> {
    match SplitAt(part, '=')
    case None => None
    case Some(p) => if p.0 == key then Some(p.1) else None
  }

  /** Reads the settings of `keys`, in order and separated by single spaces, from `s`. */
  function ParseSettings(s: string, keys: seq<string>): Option<seq<string>>
    requires |keys| > 0
    decreases keys
  {
    if |keys| == 1 then
      if ' ' in s then None
      else match SettingValue(s, keys[0]) case None => None case Some(v) => Some([v])
    else
      match SplitAt(s, ' ')
      case None => None
      case Some(p) =>
        match (SettingValue(p.0, keys[0]), ParseSettings(p.1, keys[1..]))
        case (Some(v), Some(vs)) => Some([v] + vs)
        case _ => None
  }

  /** Reads host, port, user, password and database name back out of a connection string. */
  function ParseDsn(dsn: string): Option<(string, string, string, string, string)> {
    match ParseSettings(dsn, ["host", "port", "user", "password", "dbname"])
    case Some(vs) => if |vs| == 5 then Some((vs[0], vs[1], vs[2], vs[3], vs[4])) else None
    case None => None
  }

  lemma SettingRoundTrip(key: string, value: string)
    requires '=' !in key
    ensures SettingValue(Setting(key, value), key) == Some(value)
  {
    assert Setting(key, value) == key + ['='] + value;
    SplitAtJoin(key, '=', value);
  }

  /** One setting, then the rest: reading the first setting leaves the rest to read. */
  lemma ParseSettingsStep(key: string, value: string, rest: string, keys: seq<string>)
    requires ' ' !in key && '=' !in key && ' ' !in value && |keys| > 0
    ensures ParseSettings(Setting(key, value) + [' '] + rest, [key] + keys)
            == match ParseSettings(rest, keys) case Some(vs) => Some([value] + vs) case None => None
  {
    assert ' ' !in Setting(key, value);
    SplitAtJoin(Setting(key, value), ' ', rest);
    SettingRoundTrip(key, value);
    assert ([key] + keys)[1..] == keys;
  }

  lemma ParseSettingsLast(key: string, value: string)
    requires ' ' !in key && '=' !in key && ' ' !in value
    ensures ParseSettings(Setting(key, value), [key]) == Some([value])
  {
    assert ' ' !in Setting(key, value);
    SettingRoundTrip(key, value);
  }

  /** The keys hold neither a space nor an equals sign. */
  lemma KeysAreWords()
    ensures ' ' !in "host" && '=' !in "host"
    ensures ' ' !in "port" && '=' !in "port"
    ensures ' ' !in "user" && '=' !in "user"
    ensures ' ' !in "password" && '=' !in "password"
    ensures ' ' !in "dbname" && '=' !in "dbname"
  {
  }

  /** Settings separated by single spaces. */
  function Settings(k: seq<string>, v: seq<string>): string
    requires |k| == |v| > 0
    decreases |k|
  {
    if |k| == 1 then Setting(k[0], v[0])
    else Setting(k[0], v[0]) + [' '] + Settings(k[1..], v[1..])
  }

  lemma {:induction false} ParseSettingsRoundTrip(k: seq<string>, v: seq<string>)
    requires |k| == |v| > 0
    requires forall i | 0 <= i < |k| :: ' ' !in k[i] && '=' !in k[i] && ' ' !in v[i]
    ensures ParseSettings(Settings(k, v), k) == Some(v)
    decreases |k|
  {
    if |k| == 1 {
      ParseSettingsLast(k[0], v[0]);
      assert v == [v[0]];
    } else {
      ParseSettingsRoundTrip(k[1..], v[1..]);
      ParseSettingsStep(k[0], v[0], Settings(k[1..], v[1..]), k[1..]);
      assert k == [k[0]] + k[1..] && v == [v[0]] + v[1..];
    }
  }

  /**
   * The connection string determines the five settings when none of them holds a space;
   * a value may hold `=`.
   */
  lemma ParseDsnRoundTrip(host: string, port: string, user: string, password: string, dbName: string)
    requires ' ' !in host && ' ' !in port && ' ' !in user && ' ' !in password && ' ' !in dbName
    ensures ParseDsn(Dsn(host, port, user, password, dbName)) == Some((host, port, user, password, dbName))
  {
    KeysAreWords();
    var k := ["host", "port", "user", "password", "dbname"];
    var v := [host, port, user, password, dbName];
    assert Settings(k[4..], v[4..]) == Setting("dbname", dbName);
    assert Settings(k[3..], v[3..]) == Setting("password", password) + [' '] + Settings(k[4..], v[4..]);
    assert Settings(k[2..], v[2..]) == Setting("user", user) + [' '] + Settings(k[3..], v[3..]);
    assert Settings(k[1..], v[1..]) == Setting("port", port) + [' '] + Settings(k[2..], v[2..]);
    assert Dsn(host, port, user, password, dbName) == Settings(k, v);
    ParseSettingsRoundTrip(k, v);
  }

  /** `NewID`: the prefix and an underscore when the prefix is not empty, then the random suffix. */
  function NewID(prefix: string, suffix: string): (id: string)
    ensures prefix == "" ==> id == suffix
    ensures prefix != "" ==> id == prefix + "_" + suffix
  {
    (if prefix != "" then prefix + "_" else "") + suffix
  }

  /** Splits an identifier at its last underscore into prefix and suffix. */
  function ParseID(id: string): (string, string) {
    match LastIndexOf(id, '_')
    case None => ("", id)
    case Some(i) => (id[..i], id[i + 1..])
  }

  /**
   * The random suffix (a short UUID, whose alphabet has no underscore) and the prefix are
   * recovered from the identifier; the prefix itself may hold underscores.
   */
  lemma ParseNewID(prefix: string, suffix: string)
    requires '_' !in suffix
    ensures ParseID(NewID(prefix, suffix)) == (prefix, suffix)
  {
    if prefix != "" {
      assert NewID(prefix, suffix) == prefix + ['_'] + suffix;
      LastIndexOfJoin(prefix, '_', suffix);
      var id := NewID(prefix, suffix);
      assert id[..|prefix|] == prefix;
      assert id[|prefix| + 1..] == suffix;
    }
  }

  /** How the three constructors open the store. */
  datatype Dialector = Postgres(dsn: string) | Sqlite(file: string)

  /** The statements the wrappers build on the mapper's handle. */
  datatype Statement =
    | Create(table: string, target: Value)
    | Updates(table: string, model: Value, newValues: Value)
    | Delete(table: string, target: Value)
    | First(table: string, target: Value, condition: string, id: string)
    | Find(table: string, target: Value, query: string, args: seq<Value>, order: Option<string>)
    | Exec(sql: string, args: seq<Value>)
    | DropTable(table: string)
    | AutoMigrate(models: seq<Value>)

  /** A statement as issued: inside a transaction of its own, or directly. */
  datatype Issued = InTransaction(stmt: Statement) | Direct(stmt: Statement)

  /** The mapper's database handle: how it was opened, and every statement issued on it. */
  class Handle {
    const dialector: Dialector
    const singularTable: bool
    var issued: seq<Issued>

    constructor (dialector: Dialector, singularTable: bool)
      ensures this.dialector == dialector && this.singularTable == singularTable && issued == []
    {
      this.dialector := dialector;
      this.singularTable := singularTable;
      issued := [];
    }

    /**
     * `Transaction(fc)` whose callback issues `stmt`; `outcome` is the statement's error,
     * which the callback returns and the transaction passes on.
     */
    method RunInTransaction(stmt: Statement, outcome: Option<Err>) returns (err: Option<Err>)
      modifies this
      ensures issued == old(issued) + [InTransaction(stmt)]
      ensures err == outcome
    {
      issued := issued + [InTransaction(stmt)];
      err := outcome;
    }

    /** A statement issued outside any transaction, such as a migration. */
    method Run(stmt: Statement, outcome: Option<Err>) returns (err: Option<Err>)
      modifies this
      ensures issued == old(issued) + [Direct(stmt)]
      ensures err == outcome
    {
      issued := issued + [Direct(stmt)];
      err := outcome;
    }
  }

  /** The six operations that run in a transaction and log their failure. */
  datatype Operation = CreateOp | UpdateOp | DeleteOp | FindByIDOp | QueryOp | ExecOp

  /** The message logged when an operation fails; Exec reuses Create's. */
  function FailureMessage(op: Operation): (m: string)
    ensures HasPrefix(m, "db error when ")
  {
    match op
    case CreateOp => "db error when create entity"
    case UpdateOp => "db error when update entity"
    case DeleteOp => "db error when delete entity"
    case FindByIDOp => "db error when find by id entity"
    case QueryOp => "db error when query first entity"
    case ExecOp => "db error when create entity"
  }

  /** The message logged when opening the store fails. */
  const InitFailureMessage := "db error when initialize the database"

  /**
   * How the error is attached to a log entry: as a trailing argument of `Error(msg, err)`
   * (database.go, gorm.go) or as the `error` field of `ErrorWithError(msg, err)` (db.go).
   */
  datatype ErrorStyle = Argument | ErrorField

  function ErrorFields(style: ErrorStyle, err: Err): (fields: seq<Value>)
    ensures |fields| > 0 && fields[|fields| - 1] == ErrValue(err)
  {
    match style
    case Argument => [ErrValue(err)]
    case ErrorField => [Str("error"), ErrValue(err)]
  }

  /** What a transactional operation logs: one error entry when its statement failed, nothing otherwise. */
  function FailureLog(style: ErrorStyle, op: Operation, outcome: Option<Err>): (log: seq<Entry>)
    ensures outcome.None? ==> log == []
    ensures outcome.Some? ==> |log| == 1 && log[0].level == Error && log[0].message == FailureMessage(op) &&
                              log[0].fields == ErrorFields(style, outcome.value)
  {
    match outcome
    case None => []
    case Some(err) => [Entry(Error, FailureMessage(op), ErrorFields(style, err))]
  }

  /** A failure log names its operation, except that Exec and Create cannot be told apart. */
  lemma FailureMessageNamesOperation(a: Operation, b: Operation)
    ensures FailureMessage(a) == FailureMessage(b) <==> a == b || {a, b} == {CreateOp, ExecOp}
  {
  }
}
