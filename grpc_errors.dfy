/**
 * The error translator (errors/error.go): four error kinds, each turned into a gRPC status
 * error for the remote caller and one structured log entry.
 */
module GrpcErrors {
  import opened Options
  import opened Values
  import opened Logging

  /** The gRPC status codes the translator returns (google.golang.org/grpc/codes). */
  const InvalidArgumentCode := 3
  const NotFoundCode := 5
  const AlreadyExistsCode := 6
  const InternalCode := 13

  datatype Kind = Validation | Internal | NotFound | AlreadyExists

  /** The kind's name as the log shows it. */
  function KindName(k: Kind): string {
    match k
    case Validation => "ValidationError"
    case Internal => "InternalError"
    case NotFound => "NotFoundError"
    case AlreadyExists => "AlreadyExistsError"
  }

  /** The field `"<KindName> error.kind"` appended to every translated log entry. */
  function KindTag(k: Kind): Value {
    Str(KindName(k) + " error.kind")
  }

  /** A gRPC status error, `status.Error(code, message)`. */
  datatype Status = Status(code: int, message: string)

  /** What one translation produces: the status returned and the entry logged. */
  datatype Report = Report(status: Status, entry: Entry)

  /** `NotFound(fields...)`. */
  function NotFoundReport(serviceName: string, fields: seq<Value>): (r: Report)
    ensures r.status == Status(NotFoundCode, serviceName + " not found")
    ensures r.entry == Entry(Warn, r.status.message, fields + [KindTag(NotFound)])
  {
    var msg := serviceName + " not found";
    Report(Status(NotFoundCode, msg), Entry(Warn, msg, fields + [KindTag(NotFound)]))
  }

  /**
   * `Internal(err, fields...)`: the summary goes to the log, at error level, with the cause
   * attached; the remote caller receives the cause's own text.
   */
  function InternalReport(serviceName: string, err: Err, fields: seq<Value>): (r: Report)
    ensures r.status == Status(InternalCode, ErrorText(err))
    ensures r.entry.level == Error
    ensures r.entry.message == serviceName + " got an internal error"
    ensures r.entry.fields == fields + [KindTag(Internal), Str("error"), ErrValue(err)]
  {
    var msg := serviceName + " got an internal error";
    Report(Status(InternalCode, ErrorText(err)),
           Entry(Error, msg, fields + [KindTag(Internal)] + [Str("error")] + [ErrValue(err)]))
  }

  /** `AlreadyExists(fields...)`: note the code is Internal's, not AlreadyExists. */
  function AlreadyExistsReport(serviceName: string, fields: seq<Value>): (r: Report)
    ensures r.status == Status(InternalCode, serviceName + " already exists")
    ensures r.entry == Entry(Warn, r.status.message, fields + [KindTag(AlreadyExists)])
  {
    var msg := serviceName + " already exists";
    Report(Status(InternalCode, msg), Entry(Warn, msg, fields + [KindTag(AlreadyExists)]))
  }

  /** `InvalidArgument(ctx, err, fields...)`: a fixed log message; the context is not used. */
  function InvalidArgumentReport(err: Err, fields: seq<Value>): (r: Report)
    ensures r.status == Status(InvalidArgumentCode, ErrorText(err))
    ensures r.entry == Entry(Warn, "request validation failed", fields + [KindTag(Validation)])
  {
    var msg := "request validation failed";
    Report(Status(InvalidArgumentCode, ErrorText(err)), Entry(Warn, msg, fields + [KindTag(Validation)]))
  }

  /**
   * The translation of kind `k`; `err` is the cause, which NotFound and AlreadyExists do not take.
   * A remote caller reads the kind back from the status code, except that AlreadyExists reads
   * as Internal; only Internal is logged at error level; the caller's fields come first and
   * unchanged, directly followed by the kind's tag.
   */
  function ReportFor(k: Kind, serviceName: string, err: Err, fields: seq<Value>): (r: Report)
    ensures KindOfCode(r.status.code) == (if k == AlreadyExists then Internal else k)
    ensures r.entry.level == (if k == Internal then Error else Warn)
    ensures |r.entry.fields| > |fields| && r.entry.fields[..|fields|] == fields
    ensures r.entry.fields[|fields|] == KindTag(k)
  {
    match k
    case Validation => InvalidArgumentReport(err, fields)
    case Internal => InternalReport(serviceName, err, fields)
    case NotFound => NotFoundReport(serviceName, fields)
    case AlreadyExists => AlreadyExistsReport(serviceName, fields)
  }

  /** How a remote caller reads a status code back as a kind. */
  function KindOfCode(code: int): Kind {
    if code == InvalidArgumentCode then Validation
    else if code == NotFoundCode then NotFound
    else if code == AlreadyExistsCode then AlreadyExists
    else Internal
  }

  /** The kind a log tag names, if it is a kind tag. */
  function KindOfTag(v: Value): Option<Kind> {
    if v == KindTag(Validation) then Some(Validation)
    else if v == KindTag(Internal) then Some(Internal)
    else if v == KindTag(NotFound) then Some(NotFound)
    else if v == KindTag(AlreadyExists) then Some(AlreadyExists)
    else None
  }

  /** Distinct kinds have distinct tags, so a tag names exactly one kind. */
  lemma KindTagsDiffer(a: Kind, b: Kind)
    requires a != b
    ensures KindTag(a) != KindTag(b)
  {
    var x, y := KindName(a) + " error.kind", KindName(b) + " error.kind";
    assert x[0] == KindName(a)[0] && y[0] == KindName(b)[0];
  }

  lemma KindOfOwnTag(k: Kind)
    ensures KindOfTag(KindTag(k)) == Some(k)
  {
    forall j: Kind | j != k ensures KindTag(j) != KindTag(k) {
      KindTagsDiffer(j, k);
    }
  }

  /** The kind named by the last kind tag among the fields of a log entry. */
  function LoggedKind(fields: seq<Value>): Option<Kind> {
    if fields == [] then None
    else
      match KindOfTag(fields[|fields| - 1])
      case Some(k) => Some(k)
      case None => LoggedKind(fields[..|fields| - 1])
  }

  /** The log entry names its kind in its last kind tag, whatever fields the caller passed. */
  lemma LogNamesKind(k: Kind, serviceName: string, err: Err, fields: seq<Value>)
    ensures LoggedKind(ReportFor(k, serviceName, err, fields).entry.fields) == Some(k)
  {
    var fs := ReportFor(k, serviceName, err, fields).entry.fields;
    KindOfOwnTag(k);
    if k == Internal {
      var n := |fs|;
      assert KindOfTag(fs[n - 1]) == None;
      assert KindOfTag(Str("error")) == None by {
        assert |"error"| != |KindName(Validation) + " error.kind"|;
        assert |"error"| != |KindName(Internal) + " error.kind"|;
        assert |"error"| != |KindName(NotFound) + " error.kind"|;
        assert |"error"| != |KindName(AlreadyExists) + " error.kind"|;
      }
      var f1 := fs[..n - 1];
      var f2 := f1[..n - 2];
      assert f1[n - 2] == Str("error");
      assert f2[n - 3] == KindTag(Internal);
      assert LoggedKind(f2) == Some(Internal);
      assert LoggedKind(f1) == LoggedKind(f2);
    } else {
      assert fs[|fs| - 1] == KindTag(k);
    }
  }

  datatype ClientOptions = ClientOptions(serviceName: string, logger: Logger)

  class Client {
    const serviceName: string
    const logger: Logger

    /** `NewClient`. */
    constructor (opts: ClientOptions)
      ensures serviceName == opts.serviceName && logger == opts.logger
    {
      serviceName := opts.serviceName;
      logger := opts.logger;
    }

    method NotFound(fields: seq<Value>) returns (st: Status)
      modifies logger
      ensures st == NotFoundReport(serviceName, fields).status
      ensures logger.entries == old(logger.entries) + [NotFoundReport(serviceName, fields).entry]
    {
      var msg := serviceName + " not found";
      var logFields := fields + [KindTag(Kind.NotFound)];
      logger.Log(Warn, msg, logFields);
      st := Status(NotFoundCode, msg);
    }

    method Internal(err: Err, fields: seq<Value>) returns (st: Status)
      modifies logger
      ensures st == InternalReport(serviceName, err, fields).status
      ensures logger.entries == old(logger.entries) + [InternalReport(serviceName, err, fields).entry]
    {
      var msg := serviceName + " got an internal error";
      var logFields := fields + [KindTag(Kind.Internal)];
      logFields := logFields + [Str("error")];
      logFields := logFields + [ErrValue(err)];
      logger.Log(Error, msg, logFields);
      st := Status(InternalCode, ErrorText(err));
    }

    method AlreadyExists(fields: seq<Value>) returns (st: Status)
      modifies logger
      ensures st == AlreadyExistsReport(serviceName, fields).status
      ensures logger.entries == old(logger.entries) + [AlreadyExistsReport(serviceName, fields).entry]
    {
      var msg := serviceName + " already exists";
      var logFields := fields + [KindTag(Kind.AlreadyExists)];
      logger.Log(Warn, msg, logFields);
      st := Status(InternalCode, msg);
    }

    method InvalidArgument(err: Err, fields: seq<Value>) returns (st: Status)
      modifies logger
      ensures st == InvalidArgumentReport(err, fields).status
      ensures logger.entries == old(logger.entries) + [InvalidArgumentReport(err, fields).entry]
    {
      var msg := "request validation failed";
      var logFields := fields + [KindTag(Validation)];
      logger.Log(Warn, msg, logFields);
      st := Status(InvalidArgumentCode, ErrorText(err));
    }
  }
}
