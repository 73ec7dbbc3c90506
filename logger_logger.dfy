/**
 * internal/logger/logger.go: the application logger. `Init` installs slog's JSON handler in
 * production and a colourful console handler otherwise, both at the level parsed from the
 * options. The colouring of `fatih/color` and the rendering of a value (`formatValue`) are
 * parameters.
 */
module Logger {
  import Slog
  import GoStrings
  import LoggingLogging
  import LoggingLog

  datatype Options = Options(addSource: bool, production: bool, level: string)

  /**
   * `parseLevel`: debug, warn or warning, and error, in any case; anything else, "info" and
   * "err" included, is Info.
   */
  function ParseLevel(level: string): (r: int)
    ensures r == Slog.Debug || r == Slog.Info || r == Slog.Warn || r == Slog.Error
  {
    var w := GoStrings.ToLower(level);
    if w == "debug" then Slog.Debug
    else if w == "warn" || w == "warning" then Slog.Warn
    else if w == "error" then Slog.Error
    else Slog.Info
  }

  /**
   * Although it lists no "info" case, `parseLevel` reads every name as the logging setup's
   * `parseLogLevel` does; it differs from the service logger only on the alias "err".
   */
  lemma ParseLevelAgrees(level: string)
    ensures ParseLevel(level) == LoggingLog.ParseLogLevel(level)
    ensures GoStrings.ToLower(level) != "err" <==> ParseLevel(level) == LoggingLogging.LevelFromString(level)
  {
  }

  /** The console handler for development: the text handler it derives from, and its level. */
  datatype ColorfulHandler = ColorfulHandler(handler: Slog.Handler, level: int)

  /** `colorfulHandler.Enabled`: the level reaches the configured one. */
  predicate Enabled(h: ColorfulHandler, level: int)
  {
    level >= h.level
  }

  /** `WithAttrs`: the wrapped handler derived, the level kept, so the same levels are enabled. */
  function WithAttrs(h: ColorfulHandler, attrs: seq<Slog.Attr>): (r: ColorfulHandler)
    ensures r.level == h.level && r.handler.attrs == h.handler.attrs + attrs
    ensures forall l :: Enabled(r, l) <==> Enabled(h, l)
  {
    ColorfulHandler(Slog.WithAttrs(h.handler, attrs), h.level)
  }

  /** `WithGroup`: the wrapped handler derived, the level kept, so the same levels are enabled. */
  function WithGroup(h: ColorfulHandler, name: string): (r: ColorfulHandler)
    ensures r.level == h.level && r.handler.groups == h.handler.groups + [name]
    ensures forall l :: Enabled(r, l) <==> Enabled(h, l)
  {
    ColorfulHandler(Slog.WithGroup(h.handler, name), h.level)
  }

  /** The bright SGR colours the console handler uses. */
  const HiRed: int := 91
  const HiGreen: int := 92
  const HiYellow: int := 93
  const HiCyan: int := 96
  const White: int := 37

  /** The colour of a message: one per named level, white for any other. */
  function MessageColor(level: int): int
  {
    if level == Slog.Debug then HiCyan
    else if level == Slog.Info then HiGreen
    else if level == Slog.Warn then HiYellow
    else if level == Slog.Error then HiRed
    else White
  }

  /** One attribute on its own indented line: the key in cyan, a colon, the rendered value. */
  function AttrLines(attrs: seq<Slog.Attr>, paint: (int, string) -> string, render: Slog.Value -> string): string
  {
    if attrs == [] then ""
    else paint(HiCyan, "  " + attrs[0].key + ":") + " " + render(attrs[0].value) + "\n" + AttrLines(attrs[1..], paint, render)
  }

  /** The text printed for some attributes: their lines and a blank line, or nothing when there are none. */
  function AttrBlock(attrs: seq<Slog.Attr>, paint: (int, string) -> string, render: Slog.Value -> string): string
  {
    if attrs == [] then "" else AttrLines(attrs, paint, render) + "\n"
  }

  /**
   * `colorfulHandler.Handle` as written: the message in its level's colour on one line, then the
   * record's attributes. The attributes the handler itself was derived with are not printed.
   */
  function HandleAsWritten(h: ColorfulHandler, r: Slog.Record, paint: (int, string) -> string,
                           render: Slog.Value -> string): (out: string)
    ensures GoStrings.HasPrefix(out, paint(MessageColor(r.level), r.message) + "\n")
  {
    var head := paint(MessageColor(r.level), r.message) + "\n";
    var out := head + AttrBlock(r.attrs, paint, render);
    assert out[..|head|] == head;
    out
  }

  /**
   * So attributes attached with `With` (the package's own contextual logging) never reach the
   * console: a derived handler prints exactly what the plain one prints.
   */
  lemma WithAttrsDroppedAsWritten(h: ColorfulHandler, attrs: seq<Slog.Attr>, r: Slog.Record,
                                  paint: (int, string) -> string, render: Slog.Value -> string)
    ensures HandleAsWritten(WithAttrs(h, attrs), r, paint, render) == HandleAsWritten(h, r, paint, render)
    ensures attrs != [] && r.attrs == [] ==>
      HandleAsWritten(WithAttrs(h, attrs), r, paint, render) == paint(MessageColor(r.level), r.message) + "\n"
  {
  }

  /**
   * The console output the handler is meant to give: the message line, then the handler's own
   * attributes followed by the record's, as slog's handler contract asks of `WithAttrs`.
   */
  function Handle(h: ColorfulHandler, r: Slog.Record, paint: (int, string) -> string,
                  render: Slog.Value -> string): (out: string)
    ensures GoStrings.HasPrefix(out, paint(MessageColor(r.level), r.message) + "\n")
    ensures h.handler.attrs == [] ==> out == HandleAsWritten(h, r, paint, render)
  {
    var head := paint(MessageColor(r.level), r.message) + "\n";
    var out := head + AttrBlock(h.handler.attrs + r.attrs, paint, render);
    assert out[..|head|] == head;
    assert h.handler.attrs == [] ==> h.handler.attrs + r.attrs == r.attrs;
    out
  }

  /** The attribute lines of a concatenation are those of each part in turn. */
  lemma {:induction false} AttrLinesConcat(a: seq<Slog.Attr>, b: seq<Slog.Attr>, paint: (int, string) -> string,
                                           render: Slog.Value -> string)
    ensures AttrLines(a + b, paint, render) == AttrLines(a, paint, render) + AttrLines(b, paint, render)
  {
    if a != [] {
      assert (a + b)[0] == a[0] && (a + b)[1..] == a[1..] + b;
      AttrLinesConcat(a[1..], b, paint, render);
    } else {
      assert a + b == b;
    }
  }

  /**
   * With the intended output, attributes attached with `With` come first, each on its line,
   * ahead of the record's own.
   */
  lemma WithAttrsShown(h: ColorfulHandler, attrs: seq<Slog.Attr>, r: Slog.Record,
                       paint: (int, string) -> string, render: Slog.Value -> string)
    requires h.handler.attrs == [] && attrs != []
    ensures Handle(WithAttrs(h, attrs), r, paint, render)
         == paint(MessageColor(r.level), r.message) + "\n" + AttrLines(attrs, paint, render) + AttrLines(r.attrs, paint, render) + "\n"
  {
    assert WithAttrs(h, attrs).handler.attrs == attrs;
    AttrLinesConcat(attrs, r.attrs, paint, render);
  }

  /** The handler `Init` installs. */
  datatype Installed =
      /** slog's JSON handler at the level, with times in RFC 3339. */
    | ProductionJson(level: int)
    | Colorful(colorful: ColorfulHandler)

  /**
   * `Init`: JSON in production, otherwise the console handler over a text handler with the
   * requested call-site reporting; both at the parsed level. `stdout` names standard output.
   */
  function Init(cfg: Options, stdout: nat): (r: Installed)
    ensures cfg.production <==> r.ProductionJson?
    ensures r.ProductionJson? ==> r.level == ParseLevel(cfg.level)
    ensures r.Colorful? ==>
      r.colorful.level == ParseLevel(cfg.level) && r.colorful.handler.level == ParseLevel(cfg.level)
      && r.colorful.handler.addSource == cfg.addSource
  {
    var level := ParseLevel(cfg.level);
    if cfg.production then ProductionJson(level)
    else Colorful(ColorfulHandler(Slog.Handler(stdout, level, cfg.addSource, [], []), level))
  }

  /** `InitDefault`'s options. */
  const DefaultOptions := Options(false, false, "info")

  /** `InitDefault`: the console handler at Info, without call sites. */
  lemma InitDefaultProperties(stdout: nat)
    ensures Init(DefaultOptions, stdout).Colorful?
    ensures Init(DefaultOptions, stdout).colorful.level == Slog.Info
    ensures !Init(DefaultOptions, stdout).colorful.handler.addSource
  {
    assert GoStrings.ToLower("info") == "info";
  }
}
