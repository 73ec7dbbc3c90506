/**
 * internal/api/middleware/logger.go: the writer that forwards Gin's own output to slog, and the
 * client address the request logger reports. The record `Write` hands to slog is returned; the
 * request headers are given as the values `Header.Get` finds. The text written is taken as
 * ASCII.
 */
module MiddlewareLogger {
  import opened Wrappers
  import GoStrings
  import GoErrors
  import Slog

  /** The record `Write` sends to slog's default logger. */
  datatype Entry = Entry(level: int, message: string)

  const GinDebugPrefix: string := "[GIN-debug] "
  const GinPrefix: string := "[GIN] "

  /**
   * The level picked by the heuristic: Error when the line mentions an error or a panic, else
   * Warn when it mentions a warning, else Info.
   */
  function LevelOf(line: string): (r: int)
    ensures r == Slog.Error || r == Slog.Warn || r == Slog.Info
  {
    if GoStrings.Contains(line, "ERROR") || GoStrings.Contains(line, "[ERROR]") || GoStrings.Contains(line, "panic") then Slog.Error
    else if GoStrings.Contains(line, "WARN") || GoStrings.Contains(line, "[WARNING]") then Slog.Warn
    else Slog.Info
  }

  /** A text found inside a longer one is found wherever the longer one is. */
  lemma ContainsInner(s: string, outer: string, inner: string, k: nat)
    requires k + |inner| <= |outer| && outer[k..k + |inner|] == inner
    requires GoStrings.Contains(s, outer)
    ensures GoStrings.Contains(s, inner)
  {
    var i :| 0 <= i <= |s| && GoStrings.OccursAt(s, outer, i);
    assert s[i..i + |outer|] == outer;
    forall j | 0 <= j < |inner|
      ensures s[i + k + j] == inner[j]
    {
      assert s[i + k + j] == s[i..i + |outer|][k + j];
    }
    assert s[i + k..i + k + |inner|] == inner;
    assert GoStrings.OccursAt(s, inner, i + k);
  }

  /**
   * The bracketed forms add nothing: "[ERROR]" contains "ERROR" and "[WARNING]" contains "WARN",
   * so the level is decided by "ERROR" or "panic", then by "WARN"; an error always beats a
   * warning.
   */
  lemma LevelOfPlainWords(line: string)
    ensures LevelOf(line) == Slog.Error <==> GoStrings.Contains(line, "ERROR") || GoStrings.Contains(line, "panic")
    ensures LevelOf(line) == Slog.Warn <==>
      !GoStrings.Contains(line, "ERROR") && !GoStrings.Contains(line, "panic") && GoStrings.Contains(line, "WARN")
  {
    if GoStrings.Contains(line, "[ERROR]") {
      ContainsInner(line, "[ERROR]", "ERROR", 1);
    }
    if GoStrings.Contains(line, "[WARNING]") {
      ContainsInner(line, "[WARNING]", "WARN", 1);
    }
  }

  /** The message left of a non-blank line: trimmed, the Gin prefixes stripped, trimmed again. */
  function Cleaned(p: string): string
  {
    var line := GoStrings.TrimSpace(p);
    var line := GoStrings.TrimPrefix(line, GinDebugPrefix);
    var line := GoStrings.TrimPrefix(line, GinPrefix);
    GoStrings.TrimSpace(line)
  }

  /** Stripping a prefix that ends in a space from text that does not end in one leaves text. */
  lemma StripKeepsText(s: string, prefix: string)
    requires s != [] && !GoStrings.IsSpace(s[|s| - 1])
    requires prefix != [] && GoStrings.IsSpace(prefix[|prefix| - 1])
    ensures var r := GoStrings.TrimPrefix(s, prefix); r != [] && !GoStrings.IsSpace(r[|r| - 1])
  {
    var r := GoStrings.TrimPrefix(s, prefix);
    if GoStrings.HasPrefix(s, prefix) {
      assert s == prefix + r;
      if r != [] {
        assert r[|r| - 1] == s[|s| - 1];
      }
    }
  }

  /** Stripping two prefixes that end in a space from text that ends in a non-space, then trimming, leaves text. */
  lemma StripTwiceKeepsText(t: string, first: string, second: string)
    requires t != [] && !GoStrings.IsSpace(t[|t| - 1])
    requires first != [] && GoStrings.IsSpace(first[|first| - 1])
    requires second != [] && GoStrings.IsSpace(second[|second| - 1])
    ensures GoStrings.TrimSpace(GoStrings.TrimPrefix(GoStrings.TrimPrefix(t, first), second)) != []
  {
    StripKeepsText(t, first);
    var u := GoStrings.TrimPrefix(t, first);
    StripKeepsText(u, second);
    var v := GoStrings.TrimPrefix(u, second);
    GoStrings.TrimSpaceEmpty(v);
    assert !GoStrings.IsSpace(v[|v| - 1]);
  }

  /** The message of a non-blank line is never empty and has no white space at either end. */
  lemma CleanedNonEmpty(p: string)
    requires GoStrings.TrimSpace(p) != []
    ensures var m := Cleaned(p); m != [] && !GoStrings.IsSpace(m[0]) && !GoStrings.IsSpace(m[|m| - 1])
  {
    assert GinDebugPrefix[|GinDebugPrefix| - 1] == ' ' && GinPrefix[|GinPrefix| - 1] == ' ';
    StripTwiceKeepsText(GoStrings.TrimSpace(p), GinDebugPrefix, GinPrefix);
  }

  /** A line that did not start with a Gin prefix is logged as it was, trimmed. */
  lemma CleanedWithoutPrefix(p: string)
    requires !GoStrings.HasPrefix(GoStrings.TrimSpace(p), GinDebugPrefix)
    requires !GoStrings.HasPrefix(GoStrings.TrimSpace(p), GinPrefix)
    ensures Cleaned(p) == GoStrings.TrimSpace(p)
  {
    GoStrings.TrimSpaceIdempotent(p);
  }

  /**
   * `slogWriter.Write`: all of `p` is always reported written without error; a blank write logs
   * nothing; any other logs its cleaned text at the heuristic's level.
   */
  method Write(p: string) returns (n: nat, err: Option<GoErrors.Error>, logged: Option<Entry>)
    ensures n == |p| && err.None?
    ensures logged.None? <==> GoStrings.TrimSpace(p) == []
    ensures logged.Some? ==> logged.value.message == Cleaned(p) && logged.value.level == LevelOf(Cleaned(p))
  {
    var line := GoStrings.TrimSpace(p);
    if line == [] {
      return |p|, None, None;
    }
    line := GoStrings.TrimPrefix(line, GinDebugPrefix);
    line := GoStrings.TrimPrefix(line, GinPrefix);
    line := GoStrings.TrimSpace(line);
    var level;
    if GoStrings.Contains(line, "ERROR") || GoStrings.Contains(line, "[ERROR]") || GoStrings.Contains(line, "panic") {
      level := Slog.Error;
    } else if GoStrings.Contains(line, "WARN") || GoStrings.Contains(line, "[WARNING]") {
      level := Slog.Warn;
    } else {
      level := Slog.Info;
    }
    return |p|, None, Some(Entry(level, line));
  }

  /**
   * `getClientIP`: the X-Forwarded-For header when set, else X-Real-IP when set, else the
   * connection's remote address; each argument is what `Header.Get` returns ("" when absent).
   */
  function ClientIP(forwardedFor: string, realIP: string, remoteAddr: string): (r: string)
    ensures forwardedFor != "" ==> r == forwardedFor
    ensures forwardedFor == "" && realIP != "" ==> r == realIP
    ensures forwardedFor == "" && realIP == "" ==> r == remoteAddr
  {
    if forwardedFor != "" then forwardedFor
    else if realIP != "" then realIP
    else remoteAddr
  }

  /**
   * The address is one of the three sources, and empty only when all three are: a header that is
   * set always wins over the remote address, whatever its content.
   */
  lemma ClientIPProperties(forwardedFor: string, realIP: string, remoteAddr: string)
    ensures ClientIP(forwardedFor, realIP, remoteAddr) in {forwardedFor, realIP, remoteAddr}
    ensures ClientIP(forwardedFor, realIP, remoteAddr) == "" <==> forwardedFor == "" && realIP == "" && remoteAddr == ""
    ensures forwardedFor != "" || realIP != "" ==> ClientIP(forwardedFor, realIP, "") == ClientIP(forwardedFor, realIP, remoteAddr)
  {
  }
}
