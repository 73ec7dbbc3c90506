/**
 * internal/actions/connector.go: the HTTP connector of the command-line actions. Options
 * configure a `Connector` in order; `buildURL` resolves a path against the endpoint;
 * `DoRequestWithRetry` sends a request up to `retryAttempts` times, retrying transient failures
 * and server errors after a doubling back-off; `prepareBody` turns a request body into a reader.
 *
 * The network is an oracle: a `Network` value says what each attempt's request returns, whether
 * the context is found cancelled before an attempt or during the wait after it, and which errors
 * `isTransientError` calls transient. `url.Parse` and `json.Marshal` are oracles as well.
 */
module ActionsConnector {
  import opened Wrappers
  import opened GoContext
  import GoErrors
  import GoStrings
  import JsonValues
  import GoDuration

  const DefaultHttpTimeout: int := 30 * Second
  const DefaultEndpoint: string := "localhost:8080"
  const DefaultRetryAttempts: int := 3
  const DefaultRetryBackoff: int := 500 * Millisecond

  /** The part of `http.Client` the connector configures. */
  datatype HttpClient = HttpClient(timeout: int)

  datatype ConnectorOption =
      /** `None` stands for a nil context. */
    | WithContext(ctx: Option<Context>)
    | WithTimeout(d: int)
    | WithEndpoint(ep: string)
    | WithRetryAttempts(attempts: int)
    | WithRetryBackoff(backoff: int)
    | WithHttpClient(client: HttpClient)

  /** The fields of a `Connector`, as one value. */
  datatype Settings = Settings(endpoint: string, client: HttpClient, retryAttempts: int, retryBackoff: int,
                               ctx: Context)

  /** The connector `NewConnector` starts from, before any option. */
  const DefaultSettings := Settings(DefaultEndpoint, HttpClient(DefaultHttpTimeout), DefaultRetryAttempts,
                                    DefaultRetryBackoff, Background)

  const ErrNilContext := GoErrors.Plain("context cannot be nil")
  const ErrEmptyEndpoint := GoErrors.Plain("endpoint cannot be empty")

  /** The refusals that name a duration print it as `%v` does. */
  function TimeoutError(d: int): GoErrors.Error
  {
    GoErrors.Plain("timeout must be positive, got: " + GoDuration.DurationString(d))
  }

  function BackoffError(backoff: int): GoErrors.Error
  {
    GoErrors.Plain("backoff must be non-negative, got: " + GoDuration.DurationString(backoff))
  }

  function AttemptsError(attempts: int): GoErrors.Error
  {
    GoErrors.Plain("retry attempts must be non-negative, got: " + GoStrings.Itoa(attempts))
  }

  /** One option closure applied to the connector's fields. */
  function ApplyOption(opt: ConnectorOption, s: Settings): Result<Settings, GoErrors.Error>
  {
    match opt
    case WithContext(ctx) =>
      if ctx.None? then Fail(ErrNilContext) else Ok(s.(ctx := ctx.value))
    case WithTimeout(d) =>
      if d <= 0 then Fail(TimeoutError(d)) else Ok(s.(client := s.client.(timeout := d)))
    case WithEndpoint(ep) =>
      var trimmed := GoStrings.TrimSpace(ep);
      if trimmed == [] then Fail(ErrEmptyEndpoint) else Ok(s.(endpoint := trimmed))
    case WithRetryAttempts(n) =>
      if n < 0 then Fail(AttemptsError(n)) else Ok(s.(retryAttempts := n))
    case WithRetryBackoff(b) =>
      if b < 0 then Fail(BackoffError(b)) else Ok(s.(retryBackoff := b))
    case WithHttpClient(c) => Ok(s.(client := c))
  }

  /** The arguments an option refuses: a nil context, a timeout ≤ 0, a blank endpoint, negative counts. */
  predicate Refused(opt: ConnectorOption)
  {
    match opt
    case WithContext(ctx) => ctx.None?
    case WithTimeout(d) => d <= 0
    case WithEndpoint(ep) => GoStrings.TrimSpace(ep) == []
    case WithRetryAttempts(n) => n < 0
    case WithRetryBackoff(b) => b < 0
    case WithHttpClient(_) => false
  }

  /** What a connector that the options can produce satisfies. */
  predicate Valid(s: Settings)
  {
    s.retryAttempts >= 0 && s.retryBackoff >= 0 && s.endpoint != []
  }

  /**
   * An option fails exactly on the arguments `Refused` names, whatever the connector; an
   * accepted endpoint is stored trimmed, an accepted count or duration as given, and a
   * connector that was `Valid` stays so.
   */
  lemma ApplyOptionProperties(opt: ConnectorOption, s: Settings)
    ensures ApplyOption(opt, s).Fail? <==> Refused(opt)
    ensures opt.WithEndpoint? && !Refused(opt) ==> ApplyOption(opt, s).value.endpoint == GoStrings.TrimSpace(opt.ep)
    ensures opt.WithTimeout? && !Refused(opt) ==> ApplyOption(opt, s).value.client.timeout == opt.d
    ensures opt.WithRetryAttempts? && !Refused(opt) ==> ApplyOption(opt, s).value.retryAttempts == opt.attempts
    ensures opt.WithRetryBackoff? && !Refused(opt) ==> ApplyOption(opt, s).value.retryBackoff == opt.backoff
    ensures Valid(s) && ApplyOption(opt, s).Ok? ==> Valid(ApplyOption(opt, s).value)
  {
  }

  /** The options applied in order, stopping at the first refusal. */
  function ApplyAll(opts: seq<ConnectorOption>, s: Settings): Result<Settings, GoErrors.Error>
  {
    if opts == [] then Ok(s)
    else match ApplyOption(opts[0], s)
      case Fail(e) => Fail(e)
      case Ok(s1) => ApplyAll(opts[1..], s1)
  }

  /**
   * The options accept exactly when none of them is refused, and then every connector they
   * build from a valid one, the defaults included, is valid; a refusal reports the first
   * refused option's error.
   */
  lemma {:induction false} ApplyAllProperties(opts: seq<ConnectorOption>, s: Settings)
    ensures ApplyAll(opts, s).Ok? <==> forall k :: 0 <= k < |opts| ==> !Refused(opts[k])
    ensures Valid(s) && ApplyAll(opts, s).Ok? ==> Valid(ApplyAll(opts, s).value)
    ensures ApplyAll(opts, s).Fail? ==>
      exists k :: 0 <= k < |opts| && Refused(opts[k]) && (forall j :: 0 <= j < k ==> !Refused(opts[j]))
        && ApplyAll(opts, s).error == ApplyOption(opts[k], s).error
  {
    if opts != [] {
      ApplyOptionProperties(opts[0], s);
      if ApplyOption(opts[0], s).Ok? {
        var s1 := ApplyOption(opts[0], s).value;
        ApplyAllProperties(opts[1..], s1);
        if ApplyAll(opts[1..], s1).Fail? {
          var k :| 0 <= k < |opts[1..]| && Refused(opts[1..][k]) && (forall j :: 0 <= j < k ==> !Refused(opts[1..][j]))
            && ApplyAll(opts[1..], s1).error == ApplyOption(opts[1..][k], s1).error;
          assert opts[k + 1] == opts[1..][k];
          ApplyOptionErrorIndependent(opts[k + 1], s, s1);
          forall j | 0 <= j < k + 1
            ensures !Refused(opts[j])
          {
            if j > 0 {
              assert opts[j] == opts[1..][j - 1];
            }
          }
        } else {
          forall k | 0 <= k < |opts|
            ensures !Refused(opts[k])
          {
            if k > 0 {
              assert opts[k] == opts[1..][k - 1];
            }
          }
        }
      } else {
        assert Refused(opts[0]);
      }
    }
  }

  /** A refusal's error depends on the option alone, not on the connector it meets. */
  lemma ApplyOptionErrorIndependent(opt: ConnectorOption, s: Settings, t: Settings)
    requires Refused(opt)
    ensures ApplyOption(opt, s).Fail? && ApplyOption(opt, t).Fail?
    ensures ApplyOption(opt, s).error == ApplyOption(opt, t).error
  {
  }

  /** One step of `ApplyAll`. */
  lemma ApplyAllCons(opts: seq<ConnectorOption>, s: Settings)
    requires opts != []
    ensures ApplyAll(opts, s) ==
      match ApplyOption(opts[0], s)
      case Fail(e) => Fail(e)
      case Ok(s1) => ApplyAll(opts[1..], s1)
  {
  }

  // ---------------------------------------------------------------- buildURL

  /** What `url.Parse` yields for the base: the path, and what `String()` writes before and after it. */
  datatype Url = Url(head: string, path: string, tail: string)

  /** The base text handed to `url.Parse`: the trimmed endpoint or the default, given a scheme. */
  function BaseOf(endpoint: string): string
  {
    var trimmed := GoStrings.TrimSpace(endpoint);
    WithScheme(if trimmed == [] then DefaultEndpoint else trimmed)
  }

  /** The base as it is when it names a scheme, else with "http://" in front. */
  function WithScheme(base: string): string
  {
    if GoStrings.Contains(base, "://") then base else "http://" + base
  }

  /** `strings.TrimRight(s, "/")`: every trailing '/' removed. */
  function TrimTrailingSlashes(s: string): (r: string)
    ensures |r| <= |s| && r == s[..|r|]
    ensures r == [] || r[|r| - 1] != '/'
    ensures forall i :: |r| <= i < |s| ==> s[i] == '/'
  {
    if s != [] && s[|s| - 1] == '/' then TrimTrailingSlashes(s[..|s| - 1]) else s
  }

  /** The request path with a leading '/' added when it is not empty and lacks one. */
  function Rooted(path: string): string
  {
    if path != [] && !GoStrings.HasPrefix(path, "/") then "/" + path else path
  }

  /** The new path of the URL: the base path without trailing '/', then the rooted request path. */
  function JoinPath(basePath: string, path: string): string
  {
    TrimTrailingSlashes(basePath) + Rooted(path)
  }

  /**
   * `buildURL`: the parsed base rendered again with its path replaced by the joined path, or
   * the parse error wrapped as an invalid endpoint; the base parsed is always `BaseOf(endpoint)`.
   */
  function BuildUrl(endpoint: string, path: string, parse: string -> Result<Url, GoErrors.Error>): (r: Result<string, GoErrors.Error>)
    ensures parse(BaseOf(endpoint)).Fail? ==>
      r == Fail(GoErrors.Wrapf("invalid endpoint", parse(BaseOf(endpoint)).error))
    ensures parse(BaseOf(endpoint)).Ok? ==>
      var u := parse(BaseOf(endpoint)).value;
      r == Ok(u.head + JoinPath(u.path, path) + u.tail)
  {
    match parse(BaseOf(endpoint))
    case Fail(e) => Fail(GoErrors.Wrapf("invalid endpoint", e))
    case Ok(u) => Ok(u.head + JoinPath(u.path, path) + u.tail)
  }

  /** "http://" occurs at the start of the prefixed base. */
  lemma SchemePrefixed(base: string)
    ensures GoStrings.Contains("http://" + base, "://")
  {
    assert GoStrings.OccursAt("http://" + base, "://", 4);
  }

  /** The default endpoint carries no scheme. */
  lemma DefaultEndpointHasNoScheme()
    ensures !GoStrings.Contains(DefaultEndpoint, "://")
  {
    forall i | 0 <= i <= |DefaultEndpoint|
      ensures !GoStrings.OccursAt(DefaultEndpoint, "://", i)
    {
      if i + 3 <= |DefaultEndpoint| {
        assert DefaultEndpoint[i..i + 3][1] == DefaultEndpoint[i + 1];
      }
    }
  }

  /** The default endpoint gets "http://" in front. */
  lemma DefaultBase()
    ensures WithScheme(DefaultEndpoint) == "http://localhost:8080"
    ensures GoStrings.Contains(WithScheme(DefaultEndpoint), "://")
  {
    DefaultEndpointHasNoScheme();
    WithSchemeHasScheme(DefaultEndpoint);
  }

  /** Whatever the base, the text handed to `url.Parse` names a scheme. */
  lemma WithSchemeHasScheme(base: string)
    ensures GoStrings.Contains(WithScheme(base), "://")
  {
    if !GoStrings.Contains(base, "://") {
      SchemePrefixed(base);
    }
  }

  /**
   * The base always carries a scheme: a blank endpoint gives "http://localhost:8080", a
   * trimmed endpoint with "://" is used as it is, and any other gets "http://" in front.
   */
  lemma BaseOfProperties(endpoint: string)
    ensures GoStrings.Contains(BaseOf(endpoint), "://")
    ensures GoStrings.TrimSpace(endpoint) == [] ==> BaseOf(endpoint) == "http://localhost:8080"
    ensures GoStrings.TrimSpace(endpoint) != [] ==> BaseOf(endpoint) == WithScheme(GoStrings.TrimSpace(endpoint))
  {
    var t := GoStrings.TrimSpace(endpoint);
    if t == [] {
      DefaultBase();
    } else {
      WithSchemeHasScheme(t);
    }
  }

  /**
   * The joined path is the base path without its trailing slashes, then the request path with
   * exactly one '/' at the joint: a path given with or without its leading '/' joins the same,
   * and an empty path leaves the trimmed base path.
   */
  lemma JoinPathProperties(basePath: string, path: string)
    ensures var b := TrimTrailingSlashes(basePath);
      GoStrings.HasPrefix(JoinPath(basePath, path), b) && (b == [] || b[|b| - 1] != '/')
    ensures path == [] ==> JoinPath(basePath, path) == TrimTrailingSlashes(basePath)
    ensures path != [] ==>
      var b := TrimTrailingSlashes(basePath);
      JoinPath(basePath, path)[|b|] == '/' && GoStrings.HasSuffix(JoinPath(basePath, path), path)
    ensures path != [] && path[0] != '/' ==> JoinPath(basePath, path) == JoinPath(basePath, "/" + path)
  {
    var b := TrimTrailingSlashes(basePath);
    assert JoinPath(basePath, path)[..|b|] == b;
    if path != [] && path[0] != '/' {
      assert !GoStrings.HasPrefix(path, "/");
      assert GoStrings.HasPrefix("/" + path, "/");
    }
  }

  // ---------------------------------------------------------------- shouldRetry

  /**
   * `shouldRetry`: never once the attempts are used up; otherwise an error is retried when it
   * is transient and a response when its status is 500 or more.
   */
  function ShouldRetry(resp: Option<int>, err: Option<GoErrors.Error>, isTransient: GoErrors.Error -> bool,
                       attemptNum: int, maxAttempts: int): (r: bool)
    ensures attemptNum >= maxAttempts ==> !r
    ensures attemptNum < maxAttempts && err.Some? ==> (r <==> isTransient(err.value))
    ensures attemptNum < maxAttempts && err.None? ==> (r <==> resp.Some? && resp.value >= 500)
  {
    if attemptNum >= maxAttempts then false
    else if err.Some? then isTransient(err.value)
    else resp.Some? && resp.value >= 500
  }

  // ---------------------------------------------------------------- DoRequestWithRetry

  /** What `client.Do` gives back for one attempt: a response with its status, or an error. */
  datatype Outcome = Response(status: int) | Failure(err: GoErrors.Error)

  /**
   * The network and the context as seen by the retry loop: the outcome of each attempt (by its
   * number, from 1), whether the context is found done before the attempt or during the wait
   * after it, the context's error, and `isTransientError`.
   */
  datatype Network = Network(outcome: nat -> Outcome, cancelledBefore: nat -> bool, cancelledDuring: nat -> bool,
                             ctxErr: GoErrors.Error, isTransient: GoErrors.Error -> bool)

  /** The error recorded for a non-success outcome. */
  function ServerError(status: int): GoErrors.Error
  {
    GoErrors.Plain("server error: " + GoStrings.Itoa(status))
  }

  /** An outcome the loop returns at once: a response below 500. */
  predicate Succeeded(o: Outcome)
  {
    o.Response? && o.status < 500
  }

  /**
   * The run of the retry loop: the response or error it returns, the number of requests sent,
   * and the back-off of every wait it began, in order.
   */
  datatype RetryRun = RetryRun(resp: Option<int>, err: Option<GoErrors.Error>, sent: nat, waits: seq<int>)

  /** The loop from attempt `attempt` on, with the current back-off and last error. */
  function Run(net: Network, maxAttempts: int, attempt: nat, backoff: int, lastErr: Option<GoErrors.Error>): RetryRun
    requires attempt >= 1
    decreases maxAttempts - attempt + 1
  {
    if attempt > maxAttempts then RetryRun(None, lastErr, attempt - 1, [])
    else if net.cancelledBefore(attempt) then RetryRun(None, Some(net.ctxErr), attempt - 1, [])
    else
      var o := net.outcome(attempt);
      if Succeeded(o) then RetryRun(Some(o.status), None, attempt, [])
      else
        var last := AttemptError(o);
        var resp := if o.Response? then Some(o.status) else None;
        var err := if o.Failure? then Some(o.err) else None;
        if !ShouldRetry(resp, err, net.isTransient, attempt, maxAttempts) then RetryRun(None, Some(last), attempt, [])
        else if net.cancelledDuring(attempt) then RetryRun(None, Some(net.ctxErr), attempt, [backoff])
        else
          var rest := Run(net, maxAttempts, attempt + 1, 2 * backoff, Some(last));
          rest.(waits := [backoff] + rest.waits)
  }

  function Pow2(k: nat): nat
  {
    if k == 0 then 1 else 2 * Pow2(k - 1)
  }

  /** Whether attempt `attempt` is made, fails, is allowed a retry, and its wait runs out. */
  predicate Retries(net: Network, maxAttempts: int, attempt: nat)
  {
    && 1 <= attempt <= maxAttempts && !net.cancelledBefore(attempt) && !Succeeded(net.outcome(attempt))
    && (var o := net.outcome(attempt);
        ShouldRetry(if o.Response? then Some(o.status) else None, if o.Failure? then Some(o.err) else None,
                    net.isTransient, attempt, maxAttempts))
    && !net.cancelledDuring(attempt)
  }

  /**
   * From attempt `attempt` on, no request beyond `maxAttempts` is sent, one wait at most follows
   * each request sent, and none follows the last allowed attempt.
   */
  lemma {:induction false} RunCounts(net: Network, maxAttempts: int, attempt: nat, backoff: int,
                                     lastErr: Option<GoErrors.Error>)
    requires attempt >= 1
    ensures var r := Run(net, maxAttempts, attempt, backoff, lastErr);
      && attempt - 1 <= r.sent
      && (attempt <= maxAttempts + 1 ==> r.sent <= maxAttempts)
      && r.sent - attempt <= |r.waits| <= r.sent - attempt + 1
      && (|r.waits| > 0 ==> attempt - 1 + |r.waits| < maxAttempts)
    decreases maxAttempts - attempt + 1
  {
    if Retries(net, maxAttempts, attempt) {
      RunStep(net, maxAttempts, attempt, backoff, lastErr);
      RunCounts(net, maxAttempts, attempt + 1, 2 * backoff, Some(AttemptError(net.outcome(attempt))));
    }
  }

  /** Each wait is twice the one before it, starting from the current back-off. */
  lemma {:induction false} RunWaits(net: Network, maxAttempts: int, attempt: nat, backoff: int,
                                    lastErr: Option<GoErrors.Error>)
    requires attempt >= 1
    ensures var r := Run(net, maxAttempts, attempt, backoff, lastErr);
      forall k :: 0 <= k < |r.waits| ==> r.waits[k] == backoff * Pow2(k)
    decreases maxAttempts - attempt + 1
  {
    if Retries(net, maxAttempts, attempt) {
      var r := Run(net, maxAttempts, attempt, backoff, lastErr);
      var rest := Run(net, maxAttempts, attempt + 1, 2 * backoff, Some(AttemptError(net.outcome(attempt))));
      RunStep(net, maxAttempts, attempt, backoff, lastErr);
      RunWaits(net, maxAttempts, attempt + 1, 2 * backoff, Some(AttemptError(net.outcome(attempt))));
      forall k | 0 <= k < |r.waits|
        ensures r.waits[k] == backoff * Pow2(k)
      {
        if k > 0 {
          assert r.waits[k] == rest.waits[k - 1] == 2 * backoff * Pow2(k - 1);
        }
      }
    }
  }

  /**
   * Every request before the last one sent failed or answered 500 or more, and a response is
   * returned exactly when the last one sent succeeded, and then it is that response.
   */
  lemma {:induction false} RunOutcome(net: Network, maxAttempts: int, attempt: nat, backoff: int,
                                      lastErr: Option<GoErrors.Error>)
    requires attempt >= 1
    ensures var r := Run(net, maxAttempts, attempt, backoff, lastErr);
      && (forall k :: attempt <= k < r.sent ==> !Succeeded(net.outcome(k)))
      && (r.resp.Some? ==> r.sent >= attempt && net.outcome(r.sent) == Response(r.resp.value) && r.resp.value < 500)
      && (r.sent >= attempt ==> (r.resp.Some? <==> Succeeded(net.outcome(r.sent))))
    decreases maxAttempts - attempt + 1
  {
    if Retries(net, maxAttempts, attempt) {
      RunStep(net, maxAttempts, attempt, backoff, lastErr);
      RunOutcome(net, maxAttempts, attempt + 1, 2 * backoff, Some(AttemptError(net.outcome(attempt))));
      RunCounts(net, maxAttempts, attempt + 1, 2 * backoff, Some(AttemptError(net.outcome(attempt))));
    }
  }

  /**
   * A run returns a response or an error, never both, and never neither once an attempt was
   * allowed or an error recorded.
   */
  lemma {:induction false} RunEnds(net: Network, maxAttempts: int, attempt: nat, backoff: int,
                                   lastErr: Option<GoErrors.Error>)
    requires attempt >= 1
    ensures var r := Run(net, maxAttempts, attempt, backoff, lastErr);
      && (r.resp.Some? ==> r.err.None?)
      && (attempt <= maxAttempts || lastErr.Some? ==> (r.resp.Some? <==> r.err.None?))
    decreases maxAttempts - attempt + 1
  {
    if Retries(net, maxAttempts, attempt) {
      RunStep(net, maxAttempts, attempt, backoff, lastErr);
      RunEnds(net, maxAttempts, attempt + 1, 2 * backoff, Some(AttemptError(net.outcome(attempt))));
    }
  }

  /**
   * From the first attempt: at most `maxAttempts` requests; the k-th wait (from 0) is
   * `backoff · 2^k` and there are at most `maxAttempts - 1` of them; the response returned is the
   * first one below 500; and the run ends with exactly one of a response and an error unless
   * no attempt is allowed, when it ends with neither and sends nothing.
   */
  lemma RetryProperties(net: Network, maxAttempts: int, backoff: int)
    ensures var r := Run(net, maxAttempts, 1, backoff, None);
      && r.sent <= (if maxAttempts > 0 then maxAttempts else 0)
      && (maxAttempts > 0 ==> |r.waits| <= maxAttempts - 1)
      && r.sent - 1 <= |r.waits| <= r.sent
      && (forall k :: 0 <= k < |r.waits| ==> r.waits[k] == backoff * Pow2(k))
      && (r.resp.Some? ==> r.sent >= 1 && net.outcome(r.sent) == Response(r.resp.value) && r.resp.value < 500
                           && forall k :: 1 <= k < r.sent ==> !Succeeded(net.outcome(k)))
      && (maxAttempts > 0 ==> (r.resp.Some? <==> r.err.None?))
      && (maxAttempts <= 0 ==> r == RetryRun(None, None, 0, []))
  {
    RunCounts(net, maxAttempts, 1, backoff, None);
    RunWaits(net, maxAttempts, 1, backoff, None);
    RunOutcome(net, maxAttempts, 1, backoff, None);
    RunEnds(net, maxAttempts, 1, backoff, None);
  }

  /** Prepends the waits already begun to the rest of a run. */
  function AfterWaits(waits: seq<int>, r: RetryRun): RetryRun
  {
    r.(waits := waits + r.waits)
  }

  /** The error recorded for a failed attempt: the transport error, or the server status. */
  function AttemptError(o: Outcome): GoErrors.Error
  {
    if o.Failure? then o.err else ServerError(o.status)
  }

  /** An attempt that is retried and waited out hands on to the next with the back-off doubled. */
  lemma RunStep(net: Network, maxAttempts: int, attempt: nat, backoff: int, lastErr: Option<GoErrors.Error>)
    requires Retries(net, maxAttempts, attempt)
    ensures Run(net, maxAttempts, attempt, backoff, lastErr) ==
      AfterWaits([backoff], Run(net, maxAttempts, attempt + 1, 2 * backoff, Some(AttemptError(net.outcome(attempt)))))
  {
  }

  /** Waits begun in two stretches are the waits of both, in order. */
  lemma AfterWaitsTwice(w1: seq<int>, w2: seq<int>, r: RetryRun)
    ensures AfterWaits(w1, AfterWaits(w2, r)) == AfterWaits(w1 + w2, r)
  {
    assert w1 + (w2 + r.waits) == (w1 + w2) + r.waits;
  }

  // ---------------------------------------------------------------- prepareBody

  /** A request body as `prepareBody` distinguishes it. */
  datatype Body =
    | NilBody
      /** An `io.Reader`, known by an identity. */
    | ReaderBody(id: nat)
    | StringBody(s: string)
    | BytesBody(b: seq<bv8>)
      /** Any other value `json.Marshal` encodes. */
    | ValueBody(v: JsonValues.Value)
      /** A value `json.Marshal` refuses (a channel, a function), with the error it gives. */
    | UnencodableBody(marshalErr: GoErrors.Error)

  /** The reader handed to the request. */
  datatype BodyReader =
    | SameReader(id: nat)
    | StringReader(s: string)
    | BytesReader(b: seq<bv8>)
      /** A reader over the marshalled document. */
    | JsonReader(doc: JsonValues.Value)

  datatype PreparedBody = PreparedBody(reader: Option<BodyReader>, contentType: string)

  const JsonContentType := "application/json"

  /**
   * `prepareBody`: nil, a reader, a string and bytes pass through with the content type as
   * given; anything else is marshalled to JSON, the content type defaulting to
   * "application/json", and a marshal failure is wrapped.
   */
  function PrepareBody(body: Body, contentType: string): (r: Result<PreparedBody, GoErrors.Error>)
    ensures r.Fail? <==> body.UnencodableBody?
    ensures r.Fail? ==> r.error == GoErrors.Wrapf("failed to marshal body", body.marshalErr)
    ensures body.NilBody? ==> r == Ok(PreparedBody(None, contentType))
    ensures (body.ReaderBody? || body.StringBody? || body.BytesBody?) ==>
      r.Ok? && r.value.contentType == contentType && r.value.reader.Some? && SameContent(body, r.value.reader.value)
    ensures body.ValueBody? ==>
      r.Ok? && r.value.reader == Some(JsonReader(body.v))
      && r.value.contentType == (if contentType == [] then JsonContentType else contentType)
  {
    match body
    case NilBody => Ok(PreparedBody(None, contentType))
    case ReaderBody(id) => Ok(PreparedBody(Some(SameReader(id)), contentType))
    case StringBody(s) => Ok(PreparedBody(Some(StringReader(s)), contentType))
    case BytesBody(b) => Ok(PreparedBody(Some(BytesReader(b)), contentType))
    case ValueBody(v) =>
      var ct := if contentType == [] then JsonContentType else contentType;
      Ok(PreparedBody(Some(JsonReader(v)), ct))
    case UnencodableBody(e) => Fail(GoErrors.Wrapf("failed to marshal body", e))
  }

  /** The reader yields exactly what the body held: the same reader, string or bytes. */
  predicate SameContent(body: Body, reader: BodyReader)
  {
    match body
    case ReaderBody(id) => reader == SameReader(id)
    case StringBody(s) => reader == StringReader(s)
    case BytesBody(b) => reader == BytesReader(b)
    case _ => false
  }

  // ---------------------------------------------------------------- Connector

  class Connector {
    var endpoint: string
    var client: HttpClient
    var retryAttempts: int
    var retryBackoff: int
    var ctx: Context

    function Fields(): Settings
      reads this
    {
      Settings(endpoint, client, retryAttempts, retryBackoff, ctx)
    }

    /** The literal `NewConnector` starts from. */
    constructor ()
      ensures Fields() == DefaultSettings
    {
      endpoint := DefaultEndpoint;
      client := HttpClient(DefaultHttpTimeout);
      retryAttempts := DefaultRetryAttempts;
      retryBackoff := DefaultRetryBackoff;
      ctx := Background;
    }

    /** Runs one option closure: a refused option leaves the connector as it was. */
    method Apply(opt: ConnectorOption) returns (err: Option<GoErrors.Error>)
      modifies this
      ensures match ApplyOption(opt, old(Fields()))
        case Fail(e) => err == Some(e) && Fields() == old(Fields())
        case Ok(s) => err.None? && Fields() == s
    {
      match ApplyOption(opt, Fields()) {
        case Fail(e) =>
          return Some(e);
        case Ok(s) =>
          endpoint, client, retryAttempts, retryBackoff, ctx := s.endpoint, s.client, s.retryAttempts, s.retryBackoff, s.ctx;
          return None;
      }
    }

    /**
     * `DoRequestWithRetry`: attempts 1 to `retryAttempts`, each checking the context, sending the
     * request and returning a response below 500 at once; a failure is recorded and, when
     * `shouldRetry` allows, waited out with the current back-off, which then doubles. What it
     * returns, how many requests it sent and the waits it began are those of `Run`.
     */
    method DoRequestWithRetry(net: Network) returns (resp: Option<int>, err: Option<GoErrors.Error>, sent: nat, waits: seq<int>)
      ensures RetryRun(resp, err, sent, waits) == Run(net, retryAttempts, 1, retryBackoff, None)
    {
      var lastErr: Option<GoErrors.Error> := None;
      var backoff := retryBackoff;
      waits := [];
      var attempt: nat := 1;
      while attempt <= retryAttempts
        invariant attempt >= 1
        invariant Run(net, retryAttempts, 1, retryBackoff, None) == AfterWaits(waits, Run(net, retryAttempts, attempt, backoff, lastErr))
        decreases retryAttempts - attempt + 1
      {
        ghost var prevErr := lastErr;
        if net.cancelledBefore(attempt) {
          return None, Some(net.ctxErr), attempt - 1, waits;
        }
        var o := net.outcome(attempt);
        if o.Response? && o.status < 500 {
          return Some(o.status), None, attempt, waits;
        }
        var r: Option<int> := None;
        var e: Option<GoErrors.Error> := None;
        if o.Failure? {
          e := Some(o.err);
        } else {
          r := Some(o.status);
        }
        lastErr := Some(AttemptError(o));
        if !ShouldRetry(r, e, net.isTransient, attempt, retryAttempts) {
          return None, lastErr, attempt, waits;
        }
        if net.cancelledDuring(attempt) {
          return None, Some(net.ctxErr), attempt, waits + [backoff];
        }
        RunStep(net, retryAttempts, attempt, backoff, prevErr);
        AfterWaitsTwice(waits, [backoff], Run(net, retryAttempts, attempt + 1, 2 * backoff, lastErr));
        waits := waits + [backoff];
        backoff := backoff * 2;
        attempt := attempt + 1;
      }
      return None, lastErr, attempt - 1, waits;
    }
  }

  /**
   * `NewConnector`: the defaults, then every option in order; the first refusal is returned
   * wrapped as "failed to apply option" with no connector.
   */
  method NewConnector(opts: seq<ConnectorOption>) returns (conn: Connector?, err: Option<GoErrors.Error>)
    ensures match ApplyAll(opts, DefaultSettings)
      case Fail(e) => conn == null && err == Some(GoErrors.Wrapf("failed to apply option", e))
      case Ok(s) => err.None? && conn != null && fresh(conn) && conn.Fields() == s
  {
    var c := new Connector();
    var i := 0;
    while i < |opts|
      invariant 0 <= i <= |opts|
      invariant fresh(c)
      invariant ApplyAll(opts, DefaultSettings) == ApplyAll(opts[i..], c.Fields())
    {
      ApplyAllCons(opts[i..], c.Fields());
      assert opts[i..][1..] == opts[i + 1..];
      var e := c.Apply(opts[i]);
      if e.Some? {
        return null, Some(GoErrors.Wrapf("failed to apply option", e.value));
      }
      i := i + 1;
    }
    return c, None;
  }
}
