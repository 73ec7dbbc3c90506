/**
 * internal/logging/helpers.go: the per-level colouring shared by the CLI and JSON handlers,
 * and the "file:line" text of a record's call site. The colouring functions of the
 * `fatih/color` package are an oracle `paint(code, text)`, since that package decides by itself
 * whether the terminal gets escape sequences at all; what the runtime reports about the call
 * site is given as parameters.
 */
module LoggingHelpers {
  import Slog
  import GoStrings
  import LoggingLogging

  /** The colour of a named level; other levels have none. */
  function ColorOf(level: int): (c: int)
    ensures level == Slog.Debug ==> c == LoggingLogging.Blue
    ensures level == Slog.Info ==> c == LoggingLogging.Green
    ensures level == Slog.Warn ==> c == LoggingLogging.Yellow
    ensures level == Slog.Error ==> c == LoggingLogging.Red
  {
    if level == Slog.Debug then LoggingLogging.Blue
    else if level == Slog.Info then LoggingLogging.Green
    else if level == Slog.Warn then LoggingLogging.Yellow
    else if level == Slog.Error then LoggingLogging.Red
    else 0
  }

  predicate Named(level: int)
  {
    level == Slog.Debug || level == Slog.Info || level == Slog.Warn || level == Slog.Error
  }

  /** `colorizeString`: a named level paints the text in its colour; any other leaves it as it is. */
  function ColorizeString(level: int, text: string, paint: (int, string) -> string): (r: string)
    ensures Named(level) ==> r == paint(ColorOf(level), text)
    ensures !Named(level) ==> r == text
  {
    if Named(level) then paint(ColorOf(level), text) else text
  }

  /** `colorizeByLevel`: the level name and the message painted alike. */
  function ColorizeByLevel(level: int, levelString: string, message: string, paint: (int, string) -> string)
    : (r: (string, string))
    ensures r == (ColorizeString(level, levelString, paint), ColorizeString(level, message, paint))
  {
    if Named(level) then (paint(ColorOf(level), levelString), paint(ColorOf(level), message))
    else (levelString, message)
  }

  /**
   * The colours agree with the service logger's thresholds on the four named levels (between
   * them the service logger still colours, while these helpers leave the text plain).
   */
  lemma ColorOfAgreesWithLevelColor(level: int)
    requires Named(level)
    ensures ColorOf(level) == LoggingLogging.LevelColor(level)
  {
  }

  /**
   * `extractSourceInfo`: nothing when the record has no program counter or the runtime knows no
   * file; otherwise the file's base name, a colon and the line.
   */
  function SourceInfo(pc: nat, file: string, line: int): (r: string)
    ensures r == "" <==> pc == 0 || file == ""
    ensures r != "" ==> GoStrings.HasSuffix(r, ":" + GoStrings.Itoa(line))
    ensures r != "" ==> '/' !in r[..|r| - |GoStrings.Itoa(line)| - 1]
  {
    if pc == 0 || file == "" then ""
    else
      var slash := GoStrings.LastIndexChar(file, '/');
      var base := if slash != -1 then file[slash + 1..] else file;
      var r := base + ":" + GoStrings.Itoa(line);
      assert r[..|r| - |GoStrings.Itoa(line)| - 1] == base;
      r
  }
}
