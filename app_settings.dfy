/**
 * internal/settings/settings.go: the part of configuration start-up that concerns logging. The
 * level read from configuration is validated against a fixed list, an invalid one is replaced by
 * "info", and the logger options always ask for call sites. Reading configuration through
 * viper and cobra is not part of this model: the level text and the production switch it yields
 * are parameters.
 */
module AppSettings {
  import opened Wrappers
  import GoStrings
  import GoErrors
  import Slog
  import Logger
  import LoggingLogging
  import LoggingLog

  /** The names `validateLogLevel` accepts, once lower-cased. */
  const AllowedLevels: set<string> := {"debug", "info", "warn", "warning", "error"}

  /**
   * `validateLogLevel`: no error exactly when the lower-cased name is allowed; otherwise an error
   * quoting the name as given.
   */
  function ValidateLogLevel(level: string): (r: Option<GoErrors.Error>)
    ensures r.None? <==> GoStrings.ToLower(level) in AllowedLevels
    ensures r.Some? ==>
      GoErrors.Message(r.value) == "invalid log level " + GoStrings.Quote(level) + ", must be one of: debug, info, warn, error"
  {
    if GoStrings.ToLower(level) in AllowedLevels then None
    else Some(GoErrors.Plain("invalid log level " + GoStrings.Quote(level) + ", must be one of: debug, info, warn, error"))
  }

  /** Validation ignores case: a name and its lower-case form are accepted alike. */
  lemma ValidateIgnoresCase(level: string)
    ensures ValidateLogLevel(level).None? <==> ValidateLogLevel(GoStrings.ToLower(level)).None?
  {
    GoStrings.ToLowerIdempotent(level);
  }

  /**
   * Every accepted name means the same level to all three parsers of the program; the alias
   * "err", which the service logger reads as Error, is refused.
   */
  lemma AcceptedLevelsAgree(level: string)
    ensures ValidateLogLevel(level).None? ==>
      Logger.ParseLevel(level) == LoggingLog.ParseLogLevel(level)
      && Logger.ParseLevel(level) == LoggingLogging.LevelFromString(level)
    ensures ValidateLogLevel("err").Some? && LoggingLogging.LevelFromString("err") == Slog.Error
  {
    Logger.ParseLevelAgrees(level);
    assert GoStrings.ToLower("err") == "err";
  }

  /**
   * The logger options `Init` builds: the configured level, or "info" when it does not
   * validate; the production switch as configured; call sites always on.
   */
  function LoggingOptions(level: string, production: bool): (r: Logger.Options)
    ensures r.addSource && r.production == production
    ensures ValidateLogLevel(level).None? ==> r.level == level
    ensures ValidateLogLevel(level).Some? ==> r.level == "info"
    ensures ValidateLogLevel(r.level).None?
  {
    var logLevel := if ValidateLogLevel(level).Some? then "info" else level;
    assert GoStrings.ToLower("info") == "info";
    Logger.Options(true, production, logLevel)
  }

  /**
   * The fallback never changes the level the logger runs at: an invalid name would have been
   * read as Info anyway. So an invalid level neither fails start-up nor is reported.
   */
  lemma FallbackKeepsLevel(level: string, production: bool)
    ensures Logger.ParseLevel(LoggingOptions(level, production).level) == Logger.ParseLevel(level)
    ensures ValidateLogLevel(level).Some? ==> Logger.ParseLevel(level) == Slog.Info
  {
    assert GoStrings.ToLower("info") == "info";
  }
}
