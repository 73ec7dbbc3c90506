/**
 * internal/logging/logging.go: the level names the service logger accepts, the terminal
 * colours, the one-line rendering of `simpleHandler`, and `multiHandler`, which hands a record
 * to several handlers. The write to standard error and each inner handler's `Handle` are
 * oracles.
 */
module LoggingLogging {
  import opened Wrappers
  import Slog
  import GoStrings
  import GoErrors

  /**
   * `LevelFromString`: debug, info, warn or warning, and err or error, in any case; anything
   * else is Info.
   */
  function LevelFromString(level: string): (r: int)
    ensures r == Slog.Debug || r == Slog.Info || r == Slog.Warn || r == Slog.Error
  {
    var w := GoStrings.ToLower(level);
    if w == "debug" then Slog.Debug
    else if w == "info" then Slog.Info
    else if w == "warn" || w == "warning" then Slog.Warn
    else if w == "err" || w == "error" then Slog.Error
    else Slog.Info
  }

  /** Only the lower-case form of the name matters. */
  lemma LevelFromStringCaseInsensitive(level: string)
    ensures LevelFromString(level) == LevelFromString(GoStrings.ToLower(level))
  {
    GoStrings.ToLowerIdempotent(level);
  }

  /**
   * The names slog prints for the four levels ("DEBUG", "INFO", "WARN", "ERROR") read back as
   * those levels, and the short alias "err" is Error in any case.
   */
  lemma LevelFromStringReadsLevelNames(l: int)
    requires l == Slog.Debug || l == Slog.Info || l == Slog.Warn || l == Slog.Error
    ensures LevelFromString(Slog.LevelString(l)) == l
    ensures LevelFromString("err") == Slog.Error && LevelFromString("ERR") == Slog.Error
  {
    var name := Slog.LevelString(l);
    var w := GoStrings.ToLower(name);
    if l == Slog.Debug {
      assert w == "debug";
    } else if l == Slog.Info {
      assert w == "info";
    } else if l == Slog.Warn {
      assert w == "warn";
    } else {
      assert w == "error";
    }
    assert GoStrings.ToLower("err") == "err";
    assert GoStrings.ToLower("ERR") == "err";
  }

  /** The SGR colour codes. */
  const Red: int := 31
  const Green: int := 32
  const Yellow: int := 33
  const Blue: int := 34
  const Magenta: int := 35
  const Cyan: int := 36
  const Gray: int := 37
  const White: int := 97

  const Esc: char := '\U{1B}'

  /** The escape sequence that resets the terminal colour. */
  const Reset: string := [Esc, '[', '0', 'm']

  /** `colorize`: the text between the escape sequence selecting the colour and the reset. */
  function Colorize(code: int, text: string): (r: string)
    ensures |r| == |GoStrings.Itoa(code)| + |text| + 7
    ensures r[..2] == [Esc, '['] && r[|r| - 4..] == Reset
  {
    [Esc, '['] + GoStrings.Itoa(code) + "m" + text + Reset
  }

  /**
   * Reading a coloured text back: the colour code between the opening escape and the first
   * 'm', and the text between that 'm' and the reset.
   */
  function Uncolorize(r: string): Option<(int, string)>
  {
    if |r| < 6 || r[..2] != [Esc, '['] || r[|r| - 4..] != Reset then None
    else
      var body := r[2..|r| - 4];
      var m := GoStrings.IndexChar(body, 'm');
      if m < 0 then None
      else match GoStrings.Atoi(body[..m])
        case None => None
        case Some(code) => Some((code, body[m + 1..]))
  }

  /** The decimal rendering of a number holds no 'm'. */
  lemma NoMInItoa(n: int)
    ensures 'm' !in GoStrings.Itoa(n)
  {
    var d := GoStrings.NatToString(if n < 0 then -n else n);
    assert forall i :: 0 <= i < |d| ==> GoStrings.IsDigit(d[i]);
    if n < 0 {
      assert GoStrings.Itoa(n) == "-" + d;
    }
  }

  /** Colouring loses nothing: the code and the text, whatever it holds, read back. */
  lemma UncolorizeColorize(code: int, text: string)
    requires GoStrings.MinInt64 <= code <= GoStrings.MaxInt64
    ensures Uncolorize(Colorize(code, text)) == Some((code, text))
  {
    var digits := GoStrings.Itoa(code);
    var r := Colorize(code, text);
    var body := r[2..|r| - 4];
    assert body == digits + "m" + text;
    NoMInItoa(code);
    assert body[..|digits|] == digits && body[|digits|] == 'm';
    GoStrings.AtoiItoa(code);
    assert body[|digits| + 1..] == text;
  }

  /** `levelColor`: red from Error up, yellow from Warn, green from Info, blue below. */
  function LevelColor(level: int): (c: int)
    ensures c == Red || c == Yellow || c == Green || c == Blue
    ensures Slog.Error <= level ==> c == Red
    ensures level < Slog.Info ==> c == Blue
  {
    if level >= Slog.Error then Red
    else if level >= Slog.Warn then Yellow
    else if level >= Slog.Info then Green
    else Blue
  }

  /**
   * The colour agrees with the name slog prints for the level: red for every ERROR level,
   * yellow for WARN, green for INFO and blue for DEBUG, offsets included ("WARN+2").
   */
  lemma LevelColorMatchesName(level: int)
    ensures LevelColor(level) == Red <==> GoStrings.HasPrefix(Slog.LevelString(level), "ERROR")
    ensures LevelColor(level) == Yellow <==> GoStrings.HasPrefix(Slog.LevelString(level), "WARN")
    ensures LevelColor(level) == Green <==> GoStrings.HasPrefix(Slog.LevelString(level), "INFO")
    ensures LevelColor(level) == Blue <==> GoStrings.HasPrefix(Slog.LevelString(level), "DEBUG")
  {
    var name := Slog.LevelString(level);
    var base := if level < Slog.Info then "DEBUG"
      else if level < Slog.Warn then "INFO"
      else if level < Slog.Error then "WARN"
      else "ERROR";
    assert name[..|base|] == base;
    assert name[0] == base[0];
  }

  /** A value `formatAttr` renders as the bare key: nil or the empty string. */
  predicate Bare(v: Slog.Value)
  {
    v.NilValue? || v == Slog.StringValue("")
  }

  /**
   * `formatAttr`: the bare key for nil and for the empty string; otherwise "key=" followed by
   * the quoted string, error text or `String()` result, or by the `%v` text of any other value.
   */
  function FormatAttr(a: Slog.Attr): (r: string)
    ensures Bare(a.value) <==> r == a.key
    ensures !Bare(a.value) ==> GoStrings.HasPrefix(r, a.key + "=")
    ensures a.value.StringValue? && !Bare(a.value) ==> r[|a.key| + 1..] == GoStrings.Quote(a.value.s)
    ensures a.value.ErrorValue? ==> r[|a.key| + 1..] == GoStrings.Quote(GoErrors.Message(a.value.err))
  {
    match a.value
    case NilValue => a.key
    case StringValue(s) => if s == "" then a.key else a.key + "=" + GoStrings.Quote(s)
    case ErrorValue(e) => a.key + "=" + GoStrings.Quote(GoErrors.Message(e))
    case StringerValue(t) => a.key + "=" + GoStrings.Quote(t)
    case OtherValue(t) => a.key + "=" + t
  }

  /** The attributes `simpleHandler` shows: any key but "", "level" and "time". */
  predicate Shown(a: Slog.Attr)
  {
    a.key != "" && a.key != Slog.LevelKey && a.key != Slog.TimeKey
  }

  /** The shown attributes, formatted and coloured, in record order. */
  function ShownAttrs(attrs: seq<Slog.Attr>, color: int): (r: seq<string>)
    ensures |r| <= |attrs|
    ensures r == [] <==> forall i :: 0 <= i < |attrs| ==> !Shown(attrs[i])
  {
    if attrs == [] then []
    else
      var last := attrs[|attrs| - 1];
      ShownAttrs(attrs[..|attrs| - 1], color) + (if Shown(last) then [Colorize(color, FormatAttr(last))] else [])
  }

  /**
   * The line `simpleHandler.Handle` writes: the message in the level's colour, then the shown
   * attributes in brackets, separated by commas, when there are any, then a newline.
   */
  function Line(r: Slog.Record): string
  {
    var color := LevelColor(r.level);
    var shown := ShownAttrs(r.attrs, color);
    Colorize(color, r.message) + (if shown == [] then "" else " [" + GoStrings.Join(shown, ", ") + "]") + "\n"
  }

  /**
   * Every line starts with the coloured message and ends with a newline; it ends in "]\n"
   * exactly when some attribute is shown.
   */
  lemma LineShape(r: Slog.Record)
    ensures GoStrings.HasPrefix(Line(r), Colorize(LevelColor(r.level), r.message))
    ensures Line(r)[|Line(r)| - 1] == '\n'
    ensures GoStrings.HasSuffix(Line(r), "]\n") <==> exists i :: 0 <= i < |r.attrs| && Shown(r.attrs[i])
  {
    var color := LevelColor(r.level);
    var head := Colorize(color, r.message);
    var shown := ShownAttrs(r.attrs, color);
    var tail := if shown == [] then "\n" else " [" + GoStrings.Join(shown, ", ") + "]\n";
    assert Line(r) == head + tail;
    if shown != [] {
      BracketTail(GoStrings.Join(shown, ", "));
    }
    ColouredLine(head, tail, shown != []);
  }

  lemma BracketTail(joined: string)
    ensures GoStrings.HasSuffix(" [" + joined + "]\n", "]\n")
  {
    var t := " [" + joined + "]\n";
    assert t[|t| - 2..] == "]\n";
  }

  /** A coloured head followed by a tail that is a bare newline or ends in "]\n". */
  lemma ColouredLine(head: string, tail: string, bracket: bool)
    requires |head| >= 4 && head[|head| - 4..] == Reset
    requires bracket ==> GoStrings.HasSuffix(tail, "]\n")
    requires !bracket ==> tail == "\n"
    ensures GoStrings.HasPrefix(head + tail, head)
    ensures (head + tail)[|head + tail| - 1] == '\n'
    ensures GoStrings.HasSuffix(head + tail, "]\n") <==> bracket
  {
    var line := head + tail;
    assert line[..|head|] == head;
    assert head[|head| - 1] == head[|head| - 4..][3] == 'm';
    if bracket {
      assert line[|line| - 2..] == tail[|tail| - 2..];
    } else {
      assert line[|line| - 2] == head[|head| - 1];
    }
  }

  /** Attributes with an empty, "level" or "time" key change nothing in the line. */
  lemma HiddenAttrsIgnored(r: Slog.Record)
    requires forall i :: 0 <= i < |r.attrs| ==> !Shown(r.attrs[i])
    ensures Line(r) == Line(r.(attrs := []))
  {
  }

  /** One more attribute adds its formatted text when it is shown, and nothing otherwise. */
  lemma ShownAttrsSnoc(attrs: seq<Slog.Attr>, i: nat, color: int)
    requires i < |attrs|
    ensures ShownAttrs(attrs[..i + 1], color)
         == ShownAttrs(attrs[..i], color) + (if Shown(attrs[i]) then [Colorize(color, FormatAttr(attrs[i]))] else [])
  {
    assert attrs[..i + 1][..i] == attrs[..i];
  }

  /**
   * `simpleHandler.Handle`: builds the line step by step and writes it to standard error;
   * `writeErr` is what that write returns, and it is returned as it is.
   */
  method SimpleHandle(r: Slog.Record, writeErr: Option<GoErrors.Error>) returns (written: string, err: Option<GoErrors.Error>)
    ensures written == Line(r)
    ensures err == writeErr
  {
    var color := LevelColor(r.level);
    var line := Colorize(color, r.message);
    var parts := FormatShownAttrs(r.attrs, color);
    if |parts| > 0 {
      line := line + " [" + GoStrings.Join(parts, ", ") + "]";
    }
    line := line + "\n";
    return line, writeErr;
  }

  /** The loop of `simpleHandler.Handle` that formats and colours the shown attributes. */
  method FormatShownAttrs(attrs: seq<Slog.Attr>, color: int) returns (parts: seq<string>)
    ensures parts == ShownAttrs(attrs, color)
  {
    parts := [];
    var i := 0;
    while i < |attrs|
      invariant 0 <= i <= |attrs|
      invariant parts == ShownAttrs(attrs[..i], color)
    {
      var a := attrs[i];
      ShownAttrsSnoc(attrs, i, color);
      if a.key != "" && a.key != Slog.LevelKey && a.key != Slog.TimeKey {
        parts := parts + [Colorize(color, FormatAttr(a))];
      }
      i := i + 1;
    }
    assert attrs[..i] == attrs;
  }

  /** `multiHandler.Enabled`: some handler is enabled for the level. */
  method MultiEnabled(handlers: seq<Slog.Handler>, level: int) returns (enabled: bool)
    ensures enabled <==> exists i :: 0 <= i < |handlers| && Slog.Enabled(handlers[i], level)
  {
    var i := 0;
    while i < |handlers|
      invariant 0 <= i <= |handlers|
      invariant forall j :: 0 <= j < i ==> !Slog.Enabled(handlers[j], level)
    {
      if Slog.Enabled(handlers[i], level) {
        return true;
      }
      i := i + 1;
    }
    return false;
  }

  /** The positions of the handlers enabled for a level, in order. */
  function EnabledIndices(handlers: seq<Slog.Handler>, level: int): seq<nat>
  {
    if handlers == [] then []
    else
      var k := |handlers| - 1;
      EnabledIndices(handlers[..k], level) + (if Slog.Enabled(handlers[k], level) then [k] else [])
  }

  /** Exactly the enabled handlers are listed, each once, in increasing order. */
  lemma {:induction false} EnabledIndicesProperties(handlers: seq<Slog.Handler>, level: int)
    ensures forall j: nat :: j in EnabledIndices(handlers, level) <==> j < |handlers| && Slog.Enabled(handlers[j], level)
    ensures forall a, b :: 0 <= a < b < |EnabledIndices(handlers, level)| ==>
      EnabledIndices(handlers, level)[a] < EnabledIndices(handlers, level)[b]
  {
    if handlers != [] {
      var k := |handlers| - 1;
      EnabledIndicesProperties(handlers[..k], level);
      var e := EnabledIndices(handlers[..k], level);
      forall j | 0 <= j < |e|
        ensures e[j] < k
      {
        assert e[j] in e;
      }
    }
  }

  /** The handlers enabled among the first ones come first among all the enabled ones. */
  lemma {:induction false} EnabledIndicesPrefix(handlers: seq<Slog.Handler>, level: int, i: nat)
    requires i <= |handlers|
    ensures EnabledIndices(handlers[..i], level) <= EnabledIndices(handlers, level)
    decreases |handlers| - i
  {
    if i < |handlers| {
      EnabledIndicesPrefix(handlers, level, i + 1);
      assert handlers[..i + 1][..i] == handlers[..i];
    } else {
      assert handlers[..i] == handlers;
    }
  }

  /**
   * `multiHandler.Handle`: the enabled handlers handle the record in order, and the first
   * error stops the walk and is returned. `handle(i)` is what the i-th handler's `Handle`
   * returns; `called` lists the handlers asked, in order.
   */
  method MultiHandle(handlers: seq<Slog.Handler>, r: Slog.Record, handle: nat -> Option<GoErrors.Error>)
      returns (called: seq<nat>, err: Option<GoErrors.Error>)
    ensures called <= EnabledIndices(handlers, r.level)
    ensures err.None? ==> called == EnabledIndices(handlers, r.level)
    ensures err.Some? ==> called != [] && err == handle(called[|called| - 1])
    ensures forall k :: 0 <= k < |called| - 1 ==> handle(called[k]).None?
    ensures err.None? ==> forall k :: 0 <= k < |called| ==> handle(called[k]).None?
  {
    called := [];
    var i := 0;
    while i < |handlers|
      invariant 0 <= i <= |handlers|
      invariant called == EnabledIndices(handlers[..i], r.level)
      invariant forall k :: 0 <= k < |called| ==> handle(called[k]).None?
    {
      assert handlers[..i + 1][..i] == handlers[..i];
      if Slog.Enabled(handlers[i], r.level) {
        called := called + [i];
        var e := handle(i);
        if e.Some? {
          EnabledIndicesPrefix(handlers, r.level, i + 1);
          return called, e;
        }
      }
      i := i + 1;
    }
    assert handlers[..i] == handlers;
    return called, None;
  }

  /** `multiHandler.WithAttrs`: every handler given the attributes, in the same order. */
  method MultiWithAttrs(handlers: seq<Slog.Handler>, attrs: seq<Slog.Attr>) returns (r: seq<Slog.Handler>)
    ensures |r| == |handlers|
    ensures forall i :: 0 <= i < |handlers| ==> r[i] == Slog.WithAttrs(handlers[i], attrs)
  {
    var a := new Slog.Handler[|handlers|];
    var i := 0;
    while i < |handlers|
      invariant 0 <= i <= |handlers|
      invariant forall j :: 0 <= j < i ==> a[j] == Slog.WithAttrs(handlers[j], attrs)
    {
      a[i] := Slog.WithAttrs(handlers[i], attrs);
      i := i + 1;
    }
    return a[..];
  }

  /** `multiHandler.WithGroup`: every handler put inside the group, in the same order. */
  method MultiWithGroup(handlers: seq<Slog.Handler>, name: string) returns (r: seq<Slog.Handler>)
    ensures |r| == |handlers|
    ensures forall i :: 0 <= i < |handlers| ==> r[i] == Slog.WithGroup(handlers[i], name)
  {
    var a := new Slog.Handler[|handlers|];
    var i := 0;
    while i < |handlers|
      invariant 0 <= i <= |handlers|
      invariant forall j :: 0 <= j < i ==> a[j] == Slog.WithGroup(handlers[j], name)
    {
      a[i] := Slog.WithGroup(handlers[i], name);
      i := i + 1;
    }
    return a[..];
  }

  /**
   * Deriving the handlers, with attributes or inside a group, keeps which of them are enabled,
   * so the fan-out still reaches the same ones.
   */
  lemma {:induction false} DerivedHandlersKeepLevels(handlers: seq<Slog.Handler>, attrs: seq<Slog.Attr>, name: string, level: int)
    ensures EnabledIndices(seq(|handlers|, i requires 0 <= i < |handlers| => Slog.WithAttrs(handlers[i], attrs)), level)
         == EnabledIndices(handlers, level)
    ensures EnabledIndices(seq(|handlers|, i requires 0 <= i < |handlers| => Slog.WithGroup(handlers[i], name)), level)
         == EnabledIndices(handlers, level)
  {
    var withAttrs := seq(|handlers|, i requires 0 <= i < |handlers| => Slog.WithAttrs(handlers[i], attrs));
    var inGroup := seq(|handlers|, i requires 0 <= i < |handlers| => Slog.WithGroup(handlers[i], name));
    if handlers != [] {
      var k := |handlers| - 1;
      DerivedHandlersKeepLevels(handlers[..k], attrs, name, level);
      assert withAttrs[..k] == seq(k, i requires 0 <= i < k => Slog.WithAttrs(handlers[..k][i], attrs));
      assert inGroup[..k] == seq(k, i requires 0 <= i < k => Slog.WithGroup(handlers[..k][i], name));
    }
  }
}
