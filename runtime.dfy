/**
 * Go values as the wrappers see them: `error` values, `interface{}` arguments, and the
 * outcome of a call into a library the model does not contain.
 */
module Values {
  import opened Options

  /**
   * A Go `error`. `NoDocuments` is the document driver's sentinel `mongo.ErrNoDocuments`,
   * which callers recognise by identity; every other error is `Failure`.
   */
  datatype Err = NoDocuments | Failure(text: string)

  /** `err.Error()`. */
  function ErrorText(e: Err): string {
    match e
    case NoDocuments => "mongo: no documents in result"
    case Failure(text) => text
  }

  /** An `interface{}` value handed through a wrapper: a string, an integer, an error, or anything else. */
  datatype Value = Str(s: string) | Int(i: int) | ErrValue(e: Err) | Opaque(tag: string)

  /** What a library call produced: a value, or an error. */
  datatype Outcome<+T> = Done(value: T) | Failed(err: Err)

  /** The error of an outcome, nil when it succeeded. */
  function ErrorOf<T>(o: Outcome<T>): (e: Option<Err>)
    ensures e.Some? <==> o.Failed?
    ensures o.Failed? ==> e.value == o.err
  {
    if o.Failed? then Some(o.err) else None
  }
}

/**
 * Loggers. Every logger in the repository forwards each call to a structured logging
 * library; a logger is modelled as the sequence of entries it has been asked to write.
 */
module Logging {
  import opened Values

  datatype Level = Debug | Info | Warn | Error | Fatal

  /** One call to a logger: the level, the message and the key/value fields, in order. */
  datatype Entry = Entry(level: Level, message: string, fields: seq<Value>)

  class Logger {
    const name: string
    const threshold: Level
    var entries: seq<Entry>

    constructor (name: string, threshold: Level)
      ensures this.name == name && this.threshold == threshold && entries == []
    {
      this.name := name;
      this.threshold := threshold;
      entries := [];
    }

    method Log(level: Level, message: string, fields: seq<Value>)
      modifies this
      ensures entries == old(entries) + [Entry(level, message, fields)]
    {
      entries := entries + [Entry(level, message, fields)];
    }
  }
}
