/**
 * The outbound HTTP caller (http/client/http.go): client defaults, joining a request path
 * to the base URI, the content-type choice, merging the response headers, and the elapsed
 * time in milliseconds.
 *
 * Times are nanosecond instants; the clock readings `time.Now()` are parameters. The
 * transport records the requests it is asked to send; its answer is a parameter.
 */
module HttpClient {
  import opened Options
  import opened Strings
  import opened Values

  const Post := "POST"
  const Get := "GET"
  const Put := "PUT"
  const Delete := "DELETE"

  /** One second, in nanoseconds (`time.Second`). */
  const Second: int := 1_000_000_000

  datatype HTTPRequest = HTTPRequest(url: string, httpMethod: string, contentType: string,
                                     headers: map<string, string>, body: string)

  datatype HTTPResponse = HTTPResponse(body: string, headers: map<string, string>, statusCode: int, time: int)

  datatype NewOpts = NewOpts(baseURI: string, defaultContentType: string, timeout: int, attempts: int, tlsCert: string)

  /** The options used when none are given. */
  const DefaultOpts := NewOpts("", "application/json", 30 * Second, 5, "")

  /** `NewHTTPClient(opts...)` uses the first options given, whole, or the defaults. */
  function EffectiveOpts(opts: seq<NewOpts>): (opt: NewOpts)
    ensures |opts| == 0 ==> opt.defaultContentType == "application/json" && opt.timeout == 30_000_000_000 &&
                            opt.attempts == 5 && opt.baseURI == ""
    ensures |opts| > 0 ==> opt == opts[0]
  {
    if |opts| > 0 then opts[0] else DefaultOpts
  }

  /**
   * Options given replace the defaults wholesale: an empty content type or a zero timeout
   * in them is kept, not filled in from the defaults.
   */
  lemma NoMerging(o: NewOpts, rest: seq<NewOpts>)
    ensures EffectiveOpts([o] + rest).defaultContentType == o.defaultContentType
    ensures EffectiveOpts([o] + rest).timeout == o.timeout
    ensures EffectiveOpts([o] + rest).attempts == o.attempts
  {
  }

  /**
   * `getURI`: a URL starting with "http" is used as is; anything else is appended to the base
   * URI. The "https" test adds nothing: the join is plain concatenation unless the URL starts
   * with "http".
   */
  function GetURI(baseURI: string, rURI: string): (uri: string)
    ensures HasPrefix(rURI, "http") ==> uri == rURI
    ensures !HasPrefix(rURI, "http") ==> uri == baseURI + rURI
  {
    assert HasPrefix(rURI, "https") ==> rURI[..4] == rURI[..5][..4];
    if HasPrefix(rURI, "http") || HasPrefix(rURI, "https") then rURI else baseURI + rURI
  }

  /** A relative path that merely begins with the letters "http" is not joined to the base URI. */
  lemma HttpLookingPathNotJoined(baseURI: string, rest: string)
    ensures GetURI(baseURI, "http" + rest) == "http" + rest
  {
    assert ("http" + rest)[..4] == "http";
  }

  /** Joining is idempotent when the base URI is empty or itself starts with "http". */
  lemma GetURIIdempotent(baseURI: string, rURI: string)
    requires baseURI == "" || HasPrefix(baseURI, "http")
    ensures GetURI(baseURI, GetURI(baseURI, rURI)) == GetURI(baseURI, rURI)
  {
    var u := GetURI(baseURI, rURI);
    if !HasPrefix(rURI, "http") && baseURI != "" {
      assert u[..4] == baseURI[..4];
    }
  }

  /** The request's content type when it has one, the client's default otherwise. */
  function ContentTypeFor(clientDefault: string, requested: string): (c: string)
    ensures requested != "" ==> c == requested
    ensures requested == "" ==> c == clientDefault
  {
    if requested != "" then requested else clientDefault
  }

  /** The range of `time.Duration`, an int64 count of nanoseconds. */
  const MinDuration: int := -0x8000_0000_0000_0000
  const MaxDuration: int := 0x7fff_ffff_ffff_ffff

  /** `end.Sub(start)`: the elapsed nanoseconds, saturated to the range of a Duration. */
  function Sub(end: int, start: int): (d: int)
    ensures MinDuration <= d <= MaxDuration
    ensures MinDuration <= end - start <= MaxDuration ==> d == end - start
    ensures end - start > MaxDuration ==> d == MaxDuration
    ensures end - start < MinDuration ==> d == MinDuration
  {
    if end - start > MaxDuration then MaxDuration
    else if end - start < MinDuration then MinDuration
    else end - start
  }

  /**
   * `Duration.Milliseconds()`: Go's integer division, which truncates toward zero: whole
   * milliseconds rounded down for a positive duration and up for a negative one.
   */
  function Milliseconds(d: int): (ms: int)
    ensures d >= 0 ==> 0 <= ms && ms * 1_000_000 <= d < (ms + 1) * 1_000_000
    ensures d < 0 ==> ms <= 0 && (ms - 1) * 1_000_000 < d <= ms * 1_000_000
  {
    if d >= 0 then d / 1_000_000 else -((-d) / 1_000_000)
  }

  /**
   * `getResponseTime`: the elapsed time in whole milliseconds, truncated toward zero (rounded
   * down when the clock went forward, up when it went back); an elapsed time beyond the
   * range of a Duration counts as the largest or smallest one.
   */
  function ResponseTime(start: int, end: int): (ms: int)
    ensures MinDuration <= end - start <= MaxDuration && end >= start ==>
              0 <= ms && ms * 1_000_000 <= end - start < (ms + 1) * 1_000_000
    ensures MinDuration <= end - start <= MaxDuration && end < start ==>
              ms <= 0 && (ms - 1) * 1_000_000 < end - start <= ms * 1_000_000
    ensures end - start > MaxDuration ==> ms == MaxDuration / 1_000_000
    ensures end - start < MinDuration ==> ms == -((-MinDuration) / 1_000_000)
  {
    Milliseconds(Sub(end, start))
  }

  /**
   * The merge of the visited header pairs: each key is mapped to the value visited last.
   * Every visited key is mapped, and every mapping is one of the visited pairs.
   */
  function Merged(visited: seq<(string, string)>): (headers: map<string, string>)
    ensures forall p | p in visited :: p.0 in headers
    ensures forall k | k in headers :: (k, headers[k]) in visited
  {
    if visited == [] then map[]
    else Merged(visited[..|visited| - 1])[visited[|visited| - 1].0 := visited[|visited| - 1].1]
  }

  /** Every visited key is mapped, and nothing else. */
  lemma {:induction false} MergedKeys(visited: seq<(string, string)>)
    ensures Merged(visited).Keys == set i | 0 <= i < |visited| :: visited[i].0
  {
    if visited != [] {
      var n := |visited|;
      var prev := visited[..n - 1];
      MergedKeys(prev);
      var keys := set i | 0 <= i < n :: visited[i].0;
      forall k | k in Merged(visited) ensures k in keys {
        if k != visited[n - 1].0 {
          var i :| 0 <= i < n - 1 && prev[i].0 == k;
          assert visited[i].0 == k;
        }
      }
      forall k | k in keys ensures k in Merged(visited) {
        var i :| 0 <= i < n && visited[i].0 == k;
        if i < n - 1 {
          assert prev[i].0 == k;
        }
      }
    }
  }

  /** A key's value is the one visited last for that key. */
  lemma {:induction false} MergedLastWins(visited: seq<(string, string)>, i: int)
    requires 0 <= i < |visited|
    requires forall j | i < j < |visited| :: visited[j].0 != visited[i].0
    ensures visited[i].0 in Merged(visited) && Merged(visited)[visited[i].0] == visited[i].1
  {
    var n := |visited|;
    var prev := visited[..n - 1];
    assert Merged(visited) == Merged(prev)[visited[n - 1].0 := visited[n - 1].1];
    if i < n - 1 {
      assert prev[i] == visited[i];
      assert forall j | i < j < |prev| :: prev[j].0 != prev[i].0 by {
        forall j | i < j < |prev| ensures prev[j].0 != prev[i].0 {
          assert prev[j] == visited[j];
        }
      }
      MergedLastWins(prev, i);
      assert visited[n - 1].0 != visited[i].0;
    }
  }

  /** `mergeResponseHeaders`: visits the response headers in order, each one overwriting any earlier value. */
  method MergeResponseHeaders(visited: seq<(string, string)>) returns (headers: map<string, string>)
    ensures headers == Merged(visited)
  {
    headers := map[];
    var i := 0;
    while i < |visited|
      invariant 0 <= i <= |visited|
      invariant headers == Merged(visited[..i])
    {
      assert visited[..i + 1][..i] == visited[..i];
      headers := headers[visited[i].0 := visited[i].1];
      i := i + 1;
    }
    assert visited[..i] == visited;
  }

  /** The request as handed to the transport, with the client's timeout. */
  datatype Outgoing = Outgoing(uri: string, httpMethod: string, contentType: string, body: string,
                               headers: map<string, string>, timeout: int)

  /** What the transport answers: status code, body and the response headers in visiting order. */
  datatype RawResponse = RawResponse(statusCode: int, body: string, visited: seq<(string, string)>)

  /** The transport: every request it was asked to send. */
  class Transport {
    var sent: seq<Outgoing>

    constructor ()
      ensures sent == []
    {
      sent := [];
    }

    method Send(request: Outgoing)
      modifies this
      ensures sent == old(sent) + [request]
    {
      sent := sent + [request];
    }
  }

  /** `SendRequestOpts`: the start time is filled in by `SendRequest` when the caller left it nil. */
  class SendRequestOpts {
    var startTime: Option<int>
    const request: HTTPRequest

    constructor (startTime: Option<int>, request: HTTPRequest)
      ensures this.startTime == startTime && this.request == request
    {
      this.startTime := startTime;
      this.request := request;
    }
  }

  class HTTPClient {
    const transport: Transport
    const baseURI: string
    const contentType: string
    const timeout: int
    const maxAttempts: int

    constructor (transport: Transport, opt: NewOpts)
      ensures this.transport == transport && baseURI == opt.baseURI && contentType == opt.defaultContentType
      ensures timeout == opt.timeout && maxAttempts == opt.attempts
    {
      this.transport := transport;
      baseURI := opt.baseURI;
      contentType := opt.defaultContentType;
      timeout := opt.timeout;
      maxAttempts := opt.attempts;
    }

    /**
     * `SendRequest`: `now` and `endNow` are the clock readings before and after the call,
     * `outcome` the transport's answer.
     */
    method SendRequest(opts: SendRequestOpts, now: int, endNow: int, outcome: Outcome<RawResponse>)
      returns (response: Option<HTTPResponse>, err: Option<Err>)
      modifies opts, transport
      ensures old(opts.startTime).Some? ==> opts.startTime == old(opts.startTime)
      ensures old(opts.startTime).None? ==> opts.startTime == Some(now)
      ensures transport.sent == old(transport.sent) +
                [Outgoing(GetURI(baseURI, opts.request.url), opts.request.httpMethod,
                          ContentTypeFor(contentType, opts.request.contentType),
                          opts.request.body, opts.request.headers, timeout)]
      ensures outcome.Failed? ==> response == None && err == Some(outcome.err)
      ensures outcome.Done? ==>
                err == None &&
                response == Some(HTTPResponse(outcome.value.body, Merged(outcome.value.visited),
                                              outcome.value.statusCode,
                                              ResponseTime(opts.startTime.value, endNow)))
    {
      if opts.startTime.None? {
        opts.startTime := Some(now);
      }
      var cType := contentType;
      if opts.request.contentType != "" {
        cType := opts.request.contentType;
      }
      transport.Send(Outgoing(GetURI(baseURI, opts.request.url), opts.request.httpMethod, cType,
                              opts.request.body, opts.request.headers, timeout));
      match outcome
      case Failed(e) =>
        response, err := None, Some(e);
      case Done(raw) =>
        var headers := MergeResponseHeaders(raw.visited);
        response := Some(HTTPResponse(raw.body, headers, raw.statusCode, ResponseTime(opts.startTime.value, endNow)));
        err := None;
    }
  }

  /** `NewHTTPClient`: a client from the first options given, or from the defaults. */
  method NewHTTPClient(opts: seq<NewOpts>) returns (c: HTTPClient)
    ensures fresh(c) && fresh(c.transport) && c.transport.sent == []
    ensures var o := EffectiveOpts(opts);
            c.baseURI == o.baseURI && c.contentType == o.defaultContentType &&
            c.timeout == o.timeout && c.maxAttempts == o.attempts
  {
    var opt := EffectiveOpts(opts);
    var transport := new Transport();
    c := new HTTPClient(transport, opt);
  }
}
