/**
 * internal/logging/casual.go: the CLI-mode handler. It prints the message with its first letter
 * capitalised, the record's attributes as a small JSON object, and, at debug level only, the
 * level, time and call site in front, separated by " | ". The time text, the call site,
 * `json.Marshal`, `json.MarshalIndent` and the colouring of `fatih/color` are parameters.
 */
module LoggingCasual {
  import opened Wrappers
  import Slog
  import GoStrings
  import GoErrors
  import LoggingLogging
  import LoggingHelpers

  /** The CLI handler: the slog text handler it wraps and the level it was made with. */
  datatype CasualHandler = CasualHandler(inner: Slog.Handler, level: int)

  /** `NewCliHandler`: the wrapped handler reports the call site only at debug level. */
  function NewCliHandler(level: int, out: nat): (h: CasualHandler)
    ensures h.level == level && h.inner.level == level
    ensures h.inner.addSource <==> level == Slog.Debug
    ensures h.inner.attrs == [] && h.inner.groups == []
  {
    CasualHandler(Slog.Handler(out, level, level == Slog.Debug, [], []), level)
  }

  /** `Enabled`: what the wrapped handler says. */
  predicate Enabled(h: CasualHandler, level: int)
  {
    Slog.Enabled(h.inner, level)
  }

  /** `WithAttrs`: the wrapped handler derived, the level kept, so the same levels are enabled. */
  function WithAttrs(h: CasualHandler, attrs: seq<Slog.Attr>): (r: CasualHandler)
    ensures r.level == h.level && r.inner.attrs == h.inner.attrs + attrs
    ensures forall l :: Enabled(r, l) <==> Enabled(h, l)
  {
    CasualHandler(Slog.WithAttrs(h.inner, attrs), h.level)
  }

  /** `WithGroup`: the wrapped handler derived, the level kept, so the same levels are enabled. */
  function WithGroup(h: CasualHandler, name: string): (r: CasualHandler)
    ensures r.level == h.level && r.inner.groups == h.inner.groups + [name]
    ensures forall l :: Enabled(r, l) <==> Enabled(h, l)
  {
    CasualHandler(Slog.WithGroup(h.inner, name), h.level)
  }

  /** A byte of a Go string. */
  type Byte = b: int | 0 <= b < 256

  /** `string(r)` for one rune: its UTF-8 encoding, with U+FFFD for what is not a scalar value. */
  function EncodeRune(r: int): (b: seq<Byte>)
    ensures 1 <= |b| <= 4
    ensures 0 <= r < 0x80 <==> |b| == 1
  {
    if 0 <= r < 0x80 then [r]
    else if 0x80 <= r < 0x800 then [0xC0 + r / 64, 0x80 + r % 64]
    else if 0x800 <= r < 0x10000 && !(0xD800 <= r < 0xE000) then [0xE0 + r / 4096, 0x80 + (r / 64) % 64, 0x80 + r % 64]
    else if 0x10000 <= r <= 0x10FFFF then [0xF0 + r / 262144, 0x80 + (r / 4096) % 64, 0x80 + (r / 64) % 64, 0x80 + r % 64]
    else [0xEF, 0xBF, 0xBD]
  }

  /** The bytes of a Go string holding the text. */
  function Utf8(s: string): seq<Byte>
  {
    if s == [] then [] else EncodeRune(s[0] as int) + Utf8(s[1..])
  }

  /**
   * The capitalisation in `formatLevelAndMessage` as written: the first BYTE is taken for a rune,
   * and when `unicode.IsLower` holds for that rune it is replaced by the UTF-8 encoding of
   * `unicode.ToUpper` of it. `isLower` and `toUpper` are those two tables.
   */
  function CapitalizeAsWritten(msg: seq<Byte>, isLower: int -> bool, toUpper: int -> int): (r: seq<Byte>)
    ensures |msg| == 0 || !isLower(msg[0]) ==> r == msg
    ensures |r| >= |msg|
    ensures |msg| > 0 ==> r[|r| - |msg| + 1..] == msg[1..]
  {
    if |msg| > 0 && isLower(msg[0]) then EncodeRune(toUpper(msg[0])) + msg[1..] else msg
  }

  /**
   * A message that starts with "€" (bytes E2 82 AC) does not start with a lower-case letter, yet
   * its first byte reads as 'â' (U+00E2), which Unicode counts as lower case with upper case
   * 'Â' (U+00C2). So the message comes back as C3 82 82 AC: 'Â' and a stray continuation byte,
   * one byte longer.
   */
  lemma MultiByteFirstCharacterCorrupted(isLower: int -> bool, toUpper: int -> int, rest: string)
    requires isLower(0xE2) && toUpper(0xE2) == 0xC2
    ensures !GoStrings.IsLowerLetter('€')
    ensures Utf8("€" + rest) == [0xE2, 0x82, 0xAC] + Utf8(rest)
    ensures CapitalizeAsWritten(Utf8("€" + rest), isLower, toUpper) == [0xC3, 0x82, 0x82, 0xAC] + Utf8(rest)
    ensures CapitalizeAsWritten(Utf8("€" + rest), isLower, toUpper) != Utf8("€" + rest)
  {
    var s := "€" + rest;
    assert s[0] == '€' && s[1..] == rest;
    assert EncodeRune('€' as int) == [0xE2, 0x82, 0xAC];
    assert EncodeRune(0xC2) == [0xC3, 0x82];
    var out := CapitalizeAsWritten(Utf8(s), isLower, toUpper);
    assert out[0] != Utf8(s)[0];
  }

  /**
   * The capitalisation the handler is meant to do, on characters: a lower-case first letter is
   * upper-cased and nothing else changes. (Only ASCII letters are recognised.)
   */
  function CapitalizeFirst(message: string): (r: string)
    ensures |r| == |message|
    ensures |message| > 0 ==> r[1..] == message[1..]
    ensures |message| > 0 && GoStrings.IsLowerLetter(message[0]) ==>
      GoStrings.IsUpper(r[0]) && GoStrings.Lower(r[0]) == message[0]
    ensures |message| == 0 || !GoStrings.IsLowerLetter(message[0]) ==> r == message
  {
    if |message| > 0 && GoStrings.IsLowerLetter(message[0]) then [GoStrings.Upper(message[0])] + message[1..]
    else message
  }

  /**
   * Capitalising changes at most the first byte of the message as Go stores it: the bytes keep
   * their number, and all but the first stay as they were.
   */
  lemma CapitalizeFirstKeepsBytes(message: string)
    ensures |Utf8(CapitalizeFirst(message))| == |Utf8(message)|
    ensures |message| > 0 ==> Utf8(CapitalizeFirst(message))[1..] == Utf8(message)[1..]
  {
    if |message| > 0 && GoStrings.IsLowerLetter(message[0]) {
      var r := CapitalizeFirst(message);
      assert r[0] == GoStrings.Upper(message[0]) && r[1..] == message[1..];
      assert EncodeRune(r[0] as int) == [r[0] as int];
      assert EncodeRune(message[0] as int) == [message[0] as int];
    }
  }

  /**
   * `formatLevelAndMessage`: the level's name and the capitalised message, both coloured by
   * level.
   */
  function FormatLevelAndMessage(level: int, message: string, paint: (int, string) -> string): (r: (string, string))
    ensures r.0 == LoggingHelpers.ColorizeString(level, Slog.LevelString(level), paint)
    ensures r.1 == LoggingHelpers.ColorizeString(level, CapitalizeFirst(message), paint)
  {
    LoggingHelpers.ColorizeByLevel(level, Slog.LevelString(level), CapitalizeFirst(message), paint)
  }

  /** The fixed text `formatFields` shows when marshalling fails, in red. */
  const MarshalFailure: string := "[ERROR marshaling fields]"

  /** The keys of the filled map are exactly the attributes' keys. */
  lemma {:induction false} FieldKeys(attrs: seq<Slog.Attr>)
    ensures Slog.Overlay(map[], attrs).Keys == set i | 0 <= i < |attrs| :: attrs[i].key
  {
    if attrs != [] {
      var n := |attrs| - 1;
      FieldKeys(attrs[..n]);
      assert forall i :: 0 <= i < n ==> attrs[..n][i] == attrs[i];
      assert (set i | 0 <= i < |attrs| :: attrs[i].key) == (set i | 0 <= i < n :: attrs[..n][i].key) + {attrs[n].key};
    }
  }

  /**
   * The text `formatFields` renders for `attrs`: nothing without attributes; otherwise, with
   * later keys winning, one distinct key on one line as {"key": value} and several as a newline
   * and the indented object, both in magenta, or the fixed failure text in red.
   */
  predicate FieldsText(attrs: seq<Slog.Attr>, r: string, marshal: Slog.Value -> Result<string, GoErrors.Error>,
                       marshalIndent: map<string, Slog.Value> -> Result<string, GoErrors.Error>,
                       paint: (int, string) -> string)
  {
    var fields := Slog.Overlay(map[], attrs);
    && (attrs == [] ==> r == "")
    && (|fields| == 1 ==> forall k :: k in fields ==>
          r == match marshal(fields[k])
               case Fail(_) => paint(LoggingLogging.Red, MarshalFailure)
               case Ok(v) => paint(LoggingLogging.Magenta, "{\"" + k + "\": " + v + "}"))
    && (|fields| > 1 ==>
          r == match marshalIndent(fields)
               case Fail(_) => paint(LoggingLogging.Red, MarshalFailure)
               case Ok(v) => paint(LoggingLogging.Magenta, "\n" + v))
  }

  /**
   * `formatFields`: nothing for a record without attributes; otherwise the attributes go into a
   * map, later keys winning. One distinct key renders on one line as {"key": value}; several
   * render as a newline and a two-space-indented object; both in magenta. A marshal failure
   * shows a fixed text in red. `marshal` and `marshalIndent` stand for `json.Marshal` and
   * `json.MarshalIndent(fields, "", "  ")`.
   */
  method FormatFields(attrs: seq<Slog.Attr>, marshal: Slog.Value -> Result<string, GoErrors.Error>,
                      marshalIndent: map<string, Slog.Value> -> Result<string, GoErrors.Error>,
                      paint: (int, string) -> string)
      returns (r: string)
    ensures FieldsText(attrs, r, marshal, marshalIndent, paint)
  {
    if |attrs| == 0 {
      return "";
    }
    var fields: map<string, Slog.Value> := map[];
    var i := 0;
    while i < |attrs|
      invariant 0 <= i <= |attrs|
      invariant fields == Slog.Overlay(map[], attrs[..i])
    {
      Slog.OverlayStep(map[], attrs, i);
      fields := fields[attrs[i].key := attrs[i].value];
      i := i + 1;
    }
    assert attrs[..i] == attrs;
    if |fields| == 1 {
      var key :| key in fields;
      assert fields.Keys == {key} by {
        var others := fields.Keys - {key};
        assert fields.Keys == others + {key};
        assert |others| == 0;
      }
      var value := marshal(fields[key]);
      if value.Fail? {
        return paint(LoggingLogging.Red, MarshalFailure);
      }
      return paint(LoggingLogging.Magenta, "{\"" + key + "\": " + value.value + "}");
    }
    var indented := marshalIndent(fields);
    if indented.Fail? {
      return paint(LoggingLogging.Red, MarshalFailure);
    }
    return paint(LoggingLogging.Magenta, "\n" + indented.value);
  }

  /** A single distinct key, however often repeated, takes the one-line form. */
  lemma SingleKeyMeansOneField(attrs: seq<Slog.Attr>, k: string)
    requires attrs != [] && forall i :: 0 <= i < |attrs| ==> attrs[i].key == k
    ensures Slog.Overlay(map[], attrs).Keys == {k}
  {
    FieldKeys(attrs);
    assert attrs[0].key == k;
  }

  /** `log.Println(a)` or `log.Println(a, b)` for a non-empty `b`: space-separated, one newline. */
  function Println(line: string, fields: string): string
  {
    if fields != "" then line + " " + fields + "\n" else line + "\n"
  }

  /** Three parts joined: each separator between two of them. */
  lemma JoinThree(a: string, b: string, c: string, sep: string)
    ensures GoStrings.Join([a, b, c], sep) == a + sep + b + sep + c
  {
    assert [a, b, c][1..] == [b, c] && [b, c][1..] == [c];
    assert GoStrings.Join([b, c], sep) == b + sep + c;
  }

  /** Four parts joined: each separator between two of them. */
  lemma JoinFour(a: string, b: string, c: string, d: string, sep: string)
    ensures GoStrings.Join([a, b, c, d], sep) == a + sep + b + sep + c + sep + d
  {
    assert [a, b, c, d][1..] == [b, c, d];
    JoinThree(b, c, d, sep);
  }

  /**
   * `printWithMetadata`: level, time, the call site when known, and message, joined by " | ",
   * with the time and call site coloured by level; then the fields, if any.
   */
  method PrintWithMetadata(level: int, levelString: string, message: string, formattedFields: string,
                           time: string, source: string, paint: (int, string) -> string)
      returns (out: string)
    ensures var t := LoggingHelpers.ColorizeString(level, time, paint);
      source == "" ==> out == Println(levelString + " | " + t + " | " + message, formattedFields)
    ensures var t := LoggingHelpers.ColorizeString(level, time, paint);
      var src := LoggingHelpers.ColorizeString(level, source, paint);
      source != "" ==> out == Println(levelString + " | " + t + " | " + src + " | " + message, formattedFields)
  {
    var timeString := LoggingHelpers.ColorizeString(level, time, paint);
    var sourceInfo := source;
    if sourceInfo != "" {
      sourceInfo := LoggingHelpers.ColorizeString(level, sourceInfo, paint);
    }
    var logParts: seq<string> := [];
    logParts := logParts + [levelString, timeString];
    if source != "" {
      logParts := logParts + [sourceInfo];
    }
    logParts := logParts + [message];
    var logLine := GoStrings.Join(logParts, " | ");
    if source == "" {
      assert logParts == [levelString, timeString, message];
      JoinThree(levelString, timeString, message, " | ");
    } else {
      assert logParts == [levelString, timeString, sourceInfo, message];
      JoinFour(levelString, timeString, sourceInfo, message, " | ");
    }
    return Println(logLine, formattedFields);
  }

  /**
   * `Handle`: at debug level the metadata line, otherwise the message and the fields alone,
   * both with the capitalised, coloured message and the fields as `FieldsText` renders them;
   * it never fails.
   */
  method Handle(h: CasualHandler, record: Slog.Record, time: string, source: string,
                marshal: Slog.Value -> Result<string, GoErrors.Error>,
                marshalIndent: map<string, Slog.Value> -> Result<string, GoErrors.Error>,
                paint: (int, string) -> string)
      returns (out: string, err: Option<GoErrors.Error>)
    ensures err.None?
    ensures var (levelString, message) := FormatLevelAndMessage(record.level, record.message, paint);
      var t := LoggingHelpers.ColorizeString(record.level, time, paint);
      var src := LoggingHelpers.ColorizeString(record.level, source, paint);
      exists fields ::
        && FieldsText(record.attrs, fields, marshal, marshalIndent, paint)
        && (h.level != Slog.Debug ==> out == Println(message, fields))
        && (h.level == Slog.Debug && source == "" ==> out == Println(levelString + " | " + t + " | " + message, fields))
        && (h.level == Slog.Debug && source != "" ==> out == Println(levelString + " | " + t + " | " + src + " | " + message, fields))
  {
    var (levelString, message) := FormatLevelAndMessage(record.level, record.message, paint);
    var formattedFields := FormatFields(record.attrs, marshal, marshalIndent, paint);
    if h.level == Slog.Debug {
      out := PrintWithMetadata(record.level, levelString, message, formattedFields, time, source, paint);
    } else {
      out := Println(message, formattedFields);
    }
    return out, None;
  }
}
