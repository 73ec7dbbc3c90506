/**
 * internal/actions/client.go: the command-line client. Its options set the endpoint, the
 * timeout and the interactive mode, each checked before it is stored; `NewClient` applies them
 * in order to the defaults and gives up at the first refusal. Whether `url.ParseRequestURI`
 * accepts an endpoint is an oracle.
 */
module ActionsClient {
  import opened Wrappers
  import opened GoContext
  import GoErrors

  const DefaultEndpoint: string := "http://localhost:8080"
  const DefaultTimeout: int := 30 * Minute
  const MinTimeout: int := 1 * Second
  const MaxTimeout: int := 24 * Hour

  datatype ClientOption = WithTimeout(timeout: int) | WithEndpoint(endpoint: string) | WithMode(interactive: bool)

  /** The fields of a `Client`, as one value. */
  datatype Settings = Settings(endpoint: string, timeout: int, interactive: bool)

  const DefaultSettings := Settings(DefaultEndpoint, DefaultTimeout, false)

  /** The bounds rendered by `%v` (see `GoDuration.ClientBoundsText`): one second and 24 hours. */
  const ErrTimeoutRange := GoErrors.Plain("timeout must be between 1s and 24h0m0s")
  const ErrEmptyEndpoint := GoErrors.Plain("endpoint cannot be empty")

  /**
   * One option closure applied to the client's fields. `parseRequestUri` gives the error of
   * `url.ParseRequestURI`, or none when it accepts the text.
   */
  function ApplyOption(opt: ClientOption, s: Settings, parseRequestUri: string -> Option<GoErrors.Error>)
    : Result<Settings, GoErrors.Error>
  {
    match opt
    case WithTimeout(t) =>
      if t < MinTimeout || t > MaxTimeout then Fail(ErrTimeoutRange) else Ok(s.(timeout := t))
    case WithEndpoint(e) =>
      if e == [] then Fail(ErrEmptyEndpoint)
      else if parseRequestUri(e).Some? then Fail(GoErrors.Wrapf("invalid endpoint URL", parseRequestUri(e).value))
      else Ok(s.(endpoint := e))
    case WithMode(b) => Ok(s.(interactive := b))
  }

  /** What every client the options can build satisfies. */
  predicate Valid(s: Settings, parseRequestUri: string -> Option<GoErrors.Error>)
  {
    MinTimeout <= s.timeout <= MaxTimeout && s.endpoint != [] && parseRequestUri(s.endpoint).None?
  }

  /**
   * `WithTimeout` accepts exactly the durations from one second to 24 hours and stores them;
   * `WithEndpoint` refuses "" and what `ParseRequestURI` refuses, wrapping the parse error, and
   * stores anything else as given; `WithMode` sets the interactive flag and nothing else. A
   * valid client stays valid.
   */
  lemma ApplyOptionProperties(opt: ClientOption, s: Settings, parseRequestUri: string -> Option<GoErrors.Error>)
    ensures opt.WithTimeout? ==>
      (ApplyOption(opt, s, parseRequestUri).Ok? <==> MinTimeout <= opt.timeout <= MaxTimeout)
      && (ApplyOption(opt, s, parseRequestUri).Ok? ==> ApplyOption(opt, s, parseRequestUri).value == s.(timeout := opt.timeout))
      && (ApplyOption(opt, s, parseRequestUri).Fail? ==> ApplyOption(opt, s, parseRequestUri).error == ErrTimeoutRange)
    ensures opt.WithEndpoint? ==>
      (ApplyOption(opt, s, parseRequestUri).Ok? <==> opt.endpoint != [] && parseRequestUri(opt.endpoint).None?)
      && (ApplyOption(opt, s, parseRequestUri).Ok? ==> ApplyOption(opt, s, parseRequestUri).value == s.(endpoint := opt.endpoint))
      && (opt.endpoint != [] && parseRequestUri(opt.endpoint).Some? ==>
            GoErrors.Is(ApplyOption(opt, s, parseRequestUri).error, parseRequestUri(opt.endpoint).value))
    ensures opt.WithMode? ==> ApplyOption(opt, s, parseRequestUri) == Ok(s.(interactive := opt.interactive))
    ensures Valid(s, parseRequestUri) && ApplyOption(opt, s, parseRequestUri).Ok? ==>
      Valid(ApplyOption(opt, s, parseRequestUri).value, parseRequestUri)
  {
  }

  /** The options applied in order, stopping at the first refusal. */
  function ApplyAll(opts: seq<ClientOption>, s: Settings, parseRequestUri: string -> Option<GoErrors.Error>)
    : Result<Settings, GoErrors.Error>
  {
    if opts == [] then Ok(s)
    else match ApplyOption(opts[0], s, parseRequestUri)
      case Fail(e) => Fail(e)
      case Ok(s1) => ApplyAll(opts[1..], s1, parseRequestUri)
  }

  /** Options applied in order keep a valid client valid, whatever they are. */
  lemma {:induction false} ApplyAllValid(opts: seq<ClientOption>, s: Settings, parseRequestUri: string -> Option<GoErrors.Error>)
    requires Valid(s, parseRequestUri)
    ensures ApplyAll(opts, s, parseRequestUri).Ok? ==> Valid(ApplyAll(opts, s, parseRequestUri).value, parseRequestUri)
  {
    if opts != [] {
      ApplyOptionProperties(opts[0], s, parseRequestUri);
      if ApplyOption(opts[0], s, parseRequestUri).Ok? {
        ApplyAllValid(opts[1..], ApplyOption(opts[0], s, parseRequestUri).value, parseRequestUri);
      }
    }
  }

  /**
   * Every client `NewClient` returns has a timeout within the bounds and a non-empty endpoint
   * the parser accepts, provided it accepts the default endpoint.
   */
  lemma NewClientValid(opts: seq<ClientOption>, parseRequestUri: string -> Option<GoErrors.Error>)
    requires parseRequestUri(DefaultEndpoint).None?
    ensures ApplyAll(opts, DefaultSettings, parseRequestUri).Ok? ==>
      Valid(ApplyAll(opts, DefaultSettings, parseRequestUri).value, parseRequestUri)
  {
    ApplyAllValid(opts, DefaultSettings, parseRequestUri);
  }

  /** The mode options alone never fail, and the last one decides the mode. */
  lemma {:induction false} LastModeWins(modes: seq<bool>, s: Settings, parseRequestUri: string -> Option<GoErrors.Error>)
    requires modes != []
    ensures var opts := seq(|modes|, i requires 0 <= i < |modes| => WithMode(modes[i]));
      ApplyAll(opts, s, parseRequestUri) == Ok(s.(interactive := modes[|modes| - 1]))
  {
    var opts := seq(|modes|, i requires 0 <= i < |modes| => WithMode(modes[i]));
    if |modes| > 1 {
      LastModeWins(modes[1..], s.(interactive := modes[0]), parseRequestUri);
      var rest := seq(|modes[1..]|, i requires 0 <= i < |modes[1..]| => WithMode(modes[1..][i]));
      assert opts[1..] == rest;
    }
  }

  /** One step of `ApplyAll`. */
  lemma ApplyAllCons(opts: seq<ClientOption>, s: Settings, parseRequestUri: string -> Option<GoErrors.Error>)
    requires opts != []
    ensures ApplyAll(opts, s, parseRequestUri) ==
      match ApplyOption(opts[0], s, parseRequestUri)
      case Fail(e) => Fail(e)
      case Ok(s1) => ApplyAll(opts[1..], s1, parseRequestUri)
  {
  }

  class Client {
    var endpoint: string
    var timeout: int
    var interactive: bool

    function Fields(): Settings
      reads this
    {
      Settings(endpoint, timeout, interactive)
    }

    /** The literal `NewClient` starts from. */
    constructor ()
      ensures Fields() == DefaultSettings
    {
      endpoint := DefaultEndpoint;
      timeout := DefaultTimeout;
      interactive := false;
    }

    /** Runs one option closure: a refused option leaves the client as it was. */
    method Apply(opt: ClientOption, parseRequestUri: string -> Option<GoErrors.Error>) returns (err: Option<GoErrors.Error>)
      modifies this
      ensures match ApplyOption(opt, old(Fields()), parseRequestUri)
        case Fail(e) => err == Some(e) && Fields() == old(Fields())
        case Ok(s) => err.None? && Fields() == s
    {
      match opt {
        case WithTimeout(t) =>
          if t < MinTimeout || t > MaxTimeout {
            return Some(ErrTimeoutRange);
          }
          timeout := t;
        case WithEndpoint(e) =>
          if e == [] {
            return Some(ErrEmptyEndpoint);
          }
          var parseErr := parseRequestUri(e);
          if parseErr.Some? {
            return Some(GoErrors.Wrapf("invalid endpoint URL", parseErr.value));
          }
          endpoint := e;
        case WithMode(b) =>
          interactive := b;
      }
      return None;
    }
  }

  /**
   * `NewClient`: the defaults, then every option in order; the first refusal is returned
   * wrapped as "failed to apply option" with no client.
   */
  method NewClient(opts: seq<ClientOption>, parseRequestUri: string -> Option<GoErrors.Error>)
      returns (c: Client?, err: Option<GoErrors.Error>)
    ensures match ApplyAll(opts, DefaultSettings, parseRequestUri)
      case Fail(e) => c == null && err == Some(GoErrors.Wrapf("failed to apply option", e))
      case Ok(s) => err.None? && c != null && fresh(c) && c.Fields() == s
  {
    var client := new Client();
    var i := 0;
    while i < |opts|
      invariant 0 <= i <= |opts|
      invariant fresh(client)
      invariant ApplyAll(opts, DefaultSettings, parseRequestUri) == ApplyAll(opts[i..], client.Fields(), parseRequestUri)
    {
      ApplyAllCons(opts[i..], client.Fields(), parseRequestUri);
      assert opts[i..][1..] == opts[i + 1..];
      var e := client.Apply(opts[i], parseRequestUri);
      if e.Some? {
        return null, Some(GoErrors.Wrapf("failed to apply option", e.value));
      }
      i := i + 1;
    }
    return client, None;
  }
}
