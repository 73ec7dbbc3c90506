/**
 * internal/logging/log.go: the process-wide logging setup. A `Log` holds a mode, a level and a
 * colour switch; options and setters change one field each, and `Apply` installs the handler
 * the mode calls for as slog's default (modelled as the handler it returns).
 */
module LoggingLog {
  import Slog
  import GoStrings
  import LoggingLogging
  import LoggingCasual
  import LoggingJson

  const BaseMode: string := "base"
  const CliMode: string := "cli"
  const ServerMode: string := "server"

  /**
   * `parseLogLevel`: debug, info, warn or warning, and error, in any case; anything else,
   * "err" included, is Info.
   */
  function ParseLogLevel(levelStr: string): (r: int)
    ensures r == Slog.Debug || r == Slog.Info || r == Slog.Warn || r == Slog.Error
  {
    var w := GoStrings.ToLower(levelStr);
    if w == "debug" then Slog.Debug
    else if w == "info" then Slog.Info
    else if w == "warn" || w == "warning" then Slog.Warn
    else if w == "error" then Slog.Error
    else Slog.Info
  }

  /**
   * The setup's parser and the service logger's `LevelFromString` agree on every name but the
   * alias "err" (in any case), which only the service logger reads as Error.
   */
  lemma ParseLogLevelAgreesWithLevelFromString(levelStr: string)
    ensures GoStrings.ToLower(levelStr) != "err" ==> ParseLogLevel(levelStr) == LoggingLogging.LevelFromString(levelStr)
    ensures GoStrings.ToLower(levelStr) == "err" ==>
      ParseLogLevel(levelStr) == Slog.Info && LoggingLogging.LevelFromString(levelStr) == Slog.Error
  {
  }

  /** The names slog prints for the four levels read back as those levels. */
  lemma ParseLogLevelReadsLevelNames(l: int)
    requires l == Slog.Debug || l == Slog.Info || l == Slog.Warn || l == Slog.Error
    ensures ParseLogLevel(Slog.LevelString(l)) == l
  {
    LoggingLogging.LevelFromStringReadsLevelNames(l);
    ParseLogLevelAgreesWithLevelFromString(Slog.LevelString(l));
  }

  datatype LogOption = WithMode(mode: string) | WithLevelString(level: string)

  /** The fields of a `Log`, as one value. */
  datatype Settings = Settings(mode: string, level: int, colored: bool)

  const DefaultSettings := Settings(BaseMode, Slog.Info, false)

  /** One option closure applied to the fields. */
  function ApplyOption(opt: LogOption, s: Settings): Settings
  {
    match opt
    case WithMode(m) => s.(mode := m)
    case WithLevelString(l) => s.(level := ParseLogLevel(l))
  }

  /** The options applied in order. */
  function ApplyAll(opts: seq<LogOption>, s: Settings): Settings
  {
    if opts == [] then s else ApplyOption(opts[|opts| - 1], ApplyAll(opts[..|opts| - 1], s))
  }

  /** `opts[i]` is a mode option and no later one is. */
  predicate LastModeAt(opts: seq<LogOption>, i: int)
  {
    0 <= i < |opts| && opts[i].WithMode? && forall j :: i < j < |opts| ==> !opts[j].WithMode?
  }

  /** `opts[i]` is a level option and no later one is. */
  predicate LastLevelAt(opts: seq<LogOption>, i: int)
  {
    0 <= i < |opts| && opts[i].WithLevelString? && forall j :: i < j < |opts| ==> !opts[j].WithLevelString?
  }

  /** No option touches the colour switch. */
  lemma {:induction false} OptionsKeepColour(opts: seq<LogOption>, s: Settings)
    ensures ApplyAll(opts, s).colored == s.colored
  {
    if opts != [] {
      OptionsKeepColour(opts[..|opts| - 1], s);
    }
  }

  /**
   * Later options override earlier ones: the mode is that of the last mode option, or the one
   * before when there is none.
   */
  lemma {:induction false} LastModeWins(opts: seq<LogOption>, s: Settings, i: int)
    requires LastModeAt(opts, i) || (i == -1 && forall j :: 0 <= j < |opts| ==> !opts[j].WithMode?)
    ensures ApplyAll(opts, s).mode == if i == -1 then s.mode else opts[i].mode
  {
    if opts != [] && i != |opts| - 1 {
      var n := |opts| - 1;
      assert !opts[n].WithMode?;
      assert forall j :: 0 <= j < n ==> opts[..n][j] == opts[j];
      LastModeWins(opts[..n], s, i);
    }
  }

  /** Likewise the level: that of the last level option, or the one before when there is none. */
  lemma {:induction false} LastLevelWins(opts: seq<LogOption>, s: Settings, i: int)
    requires LastLevelAt(opts, i) || (i == -1 && forall j :: 0 <= j < |opts| ==> !opts[j].WithLevelString?)
    ensures ApplyAll(opts, s).level == if i == -1 then s.level else ParseLogLevel(opts[i].level)
  {
    if opts != [] && i != |opts| - 1 {
      var n := |opts| - 1;
      assert !opts[n].WithLevelString?;
      assert forall j :: 0 <= j < n ==> opts[..n][j] == opts[j];
      LastLevelWins(opts[..n], s, i);
    }
  }

  /** The handler `Apply` installs. */
  datatype Installed =
    | Casual(casual: LoggingCasual.CasualHandler)
    | Json(json: LoggingJson.JsonHandler)
      /** slog's own text handler on standard output at the given level. */
    | Text(level: int)

  /** The handler for the fields: CLI and server modes get their own, any other mode the text handler. */
  function HandlerFor(s: Settings, stdout: nat): Installed
  {
    if s.mode == CliMode then Casual(LoggingCasual.NewCliHandler(s.level, stdout))
    else if s.mode == ServerMode then Json(LoggingJson.NewJsonHandler(s.level, s.colored))
    else Text(s.level)
  }

  /**
   * Every installed handler runs at the configured level; the colour switch matters only in
   * server mode; and an unknown mode falls back to the text handler.
   */
  lemma HandlerForProperties(s: Settings, stdout: nat)
    ensures match HandlerFor(s, stdout)
      case Casual(h) => h.level == s.level && s.mode == CliMode
      case Json(h) => h.level == s.level && h.useColors == s.colored && s.mode == ServerMode
      case Text(l) => l == s.level && s.mode != CliMode && s.mode != ServerMode
    ensures s.mode != ServerMode ==> HandlerFor(s.(colored := !s.colored), stdout) == HandlerFor(s, stdout)
  {
  }

  class Log {
    var mode: string
    var level: int
    var colored: bool

    function Fields(): Settings
      reads this
    {
      Settings(mode, level, colored)
    }

    /** The literal `NewLog` starts from: base mode, Info, no colour. */
    constructor ()
      ensures Fields() == DefaultSettings
    {
      mode := BaseMode;
      level := Slog.Info;
      colored := false;
    }

    /** Runs one option closure. */
    method ApplyOpt(opt: LogOption)
      modifies this
      ensures Fields() == ApplyOption(opt, old(Fields()))
    {
      match opt {
        case WithMode(m) => mode := m;
        case WithLevelString(l) => level := ParseLogLevel(l);
      }
    }

    /** `SetMode`: only the mode changes. */
    method SetMode(m: string)
      modifies this
      ensures mode == m && level == old(level) && colored == old(colored)
    {
      mode := m;
    }

    /** `SetLevel`: only the level changes, to the parsed name. */
    method SetLevel(levelStr: string)
      modifies this
      ensures level == ParseLogLevel(levelStr) && mode == old(mode) && colored == old(colored)
    {
      level := ParseLogLevel(levelStr);
    }

    /** `EnableColor`: only the colour switch changes, to on. */
    method EnableColor()
      modifies this
      ensures colored && mode == old(mode) && level == old(level)
    {
      colored := true;
    }

    /** `Apply`: the handler the fields call for; `stdout` names standard output. */
    method Apply(stdout: nat) returns (installed: Installed)
      ensures installed == HandlerFor(Fields(), stdout)
    {
      if mode == CliMode {
        installed := Casual(LoggingCasual.NewCliHandler(level, stdout));
      } else if mode == ServerMode {
        installed := Json(LoggingJson.NewJsonHandler(level, colored));
      } else {
        installed := Text(level);
      }
    }
  }

  /** `NewLog`: the defaults, then every option in order. */
  method NewLog(opts: seq<LogOption>) returns (l: Log)
    ensures fresh(l) && l.Fields() == ApplyAll(opts, DefaultSettings)
  {
    l := new Log();
    var i := 0;
    while i < |opts|
      invariant 0 <= i <= |opts|
      invariant fresh(l)
      invariant l.Fields() == ApplyAll(opts[..i], DefaultSettings)
    {
      assert opts[..i + 1][..i] == opts[..i];
      l.ApplyOpt(opts[i]);
      i := i + 1;
    }
    assert opts[..i] == opts;
  }
}
