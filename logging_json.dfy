/**
 * internal/logging/json.go: the server-mode handler. It keeps its level, the attributes and
 * groups it was derived with, and whether to colour; a record becomes a map of fields, marshalled
 * as one JSON line. The time text, the call site, `json.Marshal`, the colouring of
 * `fatih/color` and the write to standard output are parameters.
 */
module LoggingJson {
  import opened Wrappers
  import Slog
  import GoErrors
  import LoggingHelpers

  datatype JsonHandler = JsonHandler(level: int, addSource: bool, attrs: seq<Slog.Attr>, groups: seq<string>, useColors: bool)

  /** `NewJSONHandler`: no attributes, no groups, and the call site always asked for. */
  function NewJsonHandler(level: int, useColors: bool): (h: JsonHandler)
    ensures h.addSource && h.attrs == [] && h.groups == []
    ensures h.level == level && h.useColors == useColors
  {
    JsonHandler(level, true, [], [], useColors)
  }

  /** `Enabled`: the level reaches the configured one. */
  predicate Enabled(h: JsonHandler, level: int)
  {
    level >= h.level
  }

  /**
   * `WithAttrs`: a new handler whose attributes are a fresh copy of the old ones followed by
   * the new ones; everything else is shared, so it is enabled for the same levels.
   */
  method WithAttrs(h: JsonHandler, attrs: seq<Slog.Attr>) returns (r: JsonHandler)
    ensures r.attrs == h.attrs + attrs
    ensures r.level == h.level && r.addSource == h.addSource && r.groups == h.groups && r.useColors == h.useColors
    ensures forall l :: Enabled(r, l) <==> Enabled(h, l)
  {
    var n := |h.attrs|;
    var a := new Slog.Attr[n + |attrs|];
    var i := 0;
    while i < n
      invariant 0 <= i <= n
      invariant forall j :: 0 <= j < i ==> a[j] == h.attrs[j]
    {
      a[i] := h.attrs[i];
      i := i + 1;
    }
    i := 0;
    while i < |attrs|
      invariant 0 <= i <= |attrs|
      invariant forall j :: 0 <= j < n ==> a[j] == h.attrs[j]
      invariant forall j :: 0 <= j < i ==> a[n + j] == attrs[j]
    {
      a[n + i] := attrs[i];
      i := i + 1;
    }
    assert a[..] == h.attrs + attrs;
    return h.(attrs := a[..]);
  }

  /** `WithGroup`: a new handler whose groups are the old ones followed by the name. */
  method WithGroup(h: JsonHandler, name: string) returns (r: JsonHandler)
    ensures r.groups == h.groups + [name]
    ensures r.level == h.level && r.addSource == h.addSource && r.attrs == h.attrs && r.useColors == h.useColors
    ensures forall l :: Enabled(r, l) <==> Enabled(h, l)
  {
    var n := |h.groups|;
    var g := new string[n + 1];
    var i := 0;
    while i < n
      invariant 0 <= i <= n
      invariant forall j :: 0 <= j < i ==> g[j] == h.groups[j]
    {
      g[i] := h.groups[i];
      i := i + 1;
    }
    g[n] := name;
    assert g[..] == h.groups + [name];
    return h.(groups := g[..]);
  }

  /** The fields every record starts with: level, time, message, and the call site when known. */
  function BuiltIns(r: Slog.Record, time: string, source: string): map<string, Slog.Value>
  {
    var m := map["level" := Slog.StringValue(Slog.LevelString(r.level)), "time" := Slog.StringValue(time)];
    var m := if source != "" then m["source" := Slog.StringValue(source)] else m;
    m["msg" := Slog.StringValue(r.message)]
  }

  /** The first steps of `buildFields`: level, time, the call site when known, and the message. */
  method BuiltInFields(r: Slog.Record, time: string, source: string) returns (fields: map<string, Slog.Value>)
    ensures fields == BuiltIns(r, time, source)
  {
    fields := map[];
    fields := fields["level" := Slog.StringValue(Slog.LevelString(r.level))];
    fields := fields["time" := Slog.StringValue(time)];
    if source != "" {
      fields := fields["source" := Slog.StringValue(source)];
    }
    fields := fields["msg" := Slog.StringValue(r.message)];
  }

  /**
   * `buildFields`: the built-in fields, then the handler's attributes, then the record's, each
   * written over what came before. `time` is the formatted record time and `source` what
   * `extractSourceInfo` gives.
   */
  method BuildFields(h: JsonHandler, r: Slog.Record, time: string, source: string) returns (fields: map<string, Slog.Value>)
    ensures fields == Slog.Overlay(BuiltIns(r, time, source), h.attrs + r.attrs)
  {
    fields := BuiltInFields(r, time, source);
    fields := SetAttrs(fields, BuiltIns(r, time, source), [], h.attrs);
    assert [] + h.attrs == h.attrs;
    fields := SetAttrs(fields, BuiltIns(r, time, source), h.attrs, r.attrs);
  }

  /**
   * One loop of `buildFields`: each attribute's value written under its key, in order, over
   * fields that already hold the overlay of `done` on the built-ins.
   */
  method SetAttrs(fields: map<string, Slog.Value>, ghost base: map<string, Slog.Value>, ghost done: seq<Slog.Attr>,
                  attrs: seq<Slog.Attr>) returns (out: map<string, Slog.Value>)
    requires fields == Slog.Overlay(base, done)
    ensures out == Slog.Overlay(base, done + attrs)
  {
    out := fields;
    var i := 0;
    assert done + attrs[..0] == done;
    while i < |attrs|
      invariant 0 <= i <= |attrs|
      invariant out == Slog.Overlay(base, done + attrs[..i])
    {
      OverlayAppendStep(base, done, attrs, i);
      out := out[attrs[i].key := attrs[i].value];
      i := i + 1;
    }
    assert attrs[..i] == attrs;
  }

  /** Writing one more attribute of the second part extends the overlay by it. */
  lemma OverlayAppendStep(base: map<string, Slog.Value>, done: seq<Slog.Attr>, attrs: seq<Slog.Attr>, i: nat)
    requires i < |attrs|
    ensures Slog.Overlay(base, done + attrs[..i + 1])
         == Slog.Overlay(base, done + attrs[..i])[attrs[i].key := attrs[i].value]
  {
    var all := done + attrs[..i + 1];
    assert all[..|all| - 1] == done + attrs[..i];
    assert all[|all| - 1] == attrs[i];
  }

  /**
   * The built-in keys are always present; "source" is present when the call site is known or
   * some attribute has that key; any other key only when some attribute has it.
   */
  lemma BuildFieldsKeys(h: JsonHandler, r: Slog.Record, time: string, source: string, k: string)
    ensures var fields := Slog.Overlay(BuiltIns(r, time, source), h.attrs + r.attrs);
      && "level" in fields && "time" in fields && "msg" in fields
      && (source != "" ==> "source" in fields)
      && (k in fields <==> k in BuiltIns(r, time, source) || exists i :: 0 <= i < |h.attrs + r.attrs| && (h.attrs + r.attrs)[i].key == k)
  {
    var all := h.attrs + r.attrs;
    Slog.OverlayLookup(BuiltIns(r, time, source), all, k);
    Slog.OverlayLookup(BuiltIns(r, time, source), all, "level");
    Slog.OverlayLookup(BuiltIns(r, time, source), all, "time");
    Slog.OverlayLookup(BuiltIns(r, time, source), all, "msg");
    Slog.OverlayLookup(BuiltIns(r, time, source), all, "source");
  }

  /** Without attributes on either side the fields are exactly the built-ins. */
  lemma BuildFieldsPlain(h: JsonHandler, r: Slog.Record, time: string, source: string)
    requires h.attrs == [] && r.attrs == []
    ensures var fields := Slog.Overlay(BuiltIns(r, time, source), h.attrs + r.attrs);
      && fields["msg"] == Slog.StringValue(r.message)
      && fields["level"] == Slog.StringValue(Slog.LevelString(r.level))
      && ("source" in fields <==> source != "")
  {
    assert h.attrs + r.attrs == [];
  }

  /**
   * A record attribute beats every handler attribute and every built-in with the same key, even
   * "msg": the last record attribute with the key gives the value.
   */
  lemma RecordAttrsWin(h: JsonHandler, r: Slog.Record, time: string, source: string, i: nat)
    requires i < |r.attrs|
    requires forall j :: i < j < |r.attrs| ==> r.attrs[j].key != r.attrs[i].key
    ensures var fields := Slog.Overlay(BuiltIns(r, time, source), h.attrs + r.attrs);
      r.attrs[i].key in fields && fields[r.attrs[i].key] == r.attrs[i].value
  {
    var all := h.attrs + r.attrs;
    var k := r.attrs[i].key;
    var p := |h.attrs| + i;
    assert all[p] == r.attrs[i];
    forall j | p < j < |all|
      ensures all[j].key != k
    {
      assert all[j] == r.attrs[j - |h.attrs|];
    }
    Slog.LastIndexOfKeyAt(all, k, p);
    Slog.OverlayLookup(BuiltIns(r, time, source), all, k);
  }

  /** A handler attribute beats the built-ins when no record attribute has its key. */
  lemma HandlerAttrsBeatBuiltIns(h: JsonHandler, r: Slog.Record, time: string, source: string, i: nat)
    requires i < |h.attrs|
    requires forall j :: i < j < |h.attrs| ==> h.attrs[j].key != h.attrs[i].key
    requires forall j :: 0 <= j < |r.attrs| ==> r.attrs[j].key != h.attrs[i].key
    ensures var fields := Slog.Overlay(BuiltIns(r, time, source), h.attrs + r.attrs);
      h.attrs[i].key in fields && fields[h.attrs[i].key] == h.attrs[i].value
  {
    var all := h.attrs + r.attrs;
    var k := h.attrs[i].key;
    assert all[i] == h.attrs[i];
    forall j | i < j < |all|
      ensures all[j].key != k
    {
      if j < |h.attrs| {
        assert all[j] == h.attrs[j];
      } else {
        assert all[j] == r.attrs[j - |h.attrs|];
      }
    }
    Slog.LastIndexOfKeyAt(all, k, i);
    Slog.OverlayLookup(BuiltIns(r, time, source), all, k);
  }

  /**
   * `formatOutput`: the marshalled JSON, coloured by level when the handler colours, then a
   * newline.
   */
  function FormatOutput(h: JsonHandler, json: string, level: int, paint: (int, string) -> string): (r: string)
    ensures |r| >= 1 && r[|r| - 1] == '\n'
    ensures !h.useColors ==> r[..|r| - 1] == json
    ensures h.useColors ==> r[..|r| - 1] == LoggingHelpers.ColorizeString(level, json, paint)
  {
    if !h.useColors then json + "\n"
    else LoggingHelpers.ColorizeString(level, json, paint) + "\n"
  }

  /**
   * Each record is exactly one line: the output ends in the only newline, provided the JSON has
   * none (compact `json.Marshal` output never has) and the colouring adds none.
   */
  lemma FormatOutputOneLine(h: JsonHandler, json: string, level: int, paint: (int, string) -> string)
    requires '\n' !in json
    requires forall c, t :: '\n' !in t ==> '\n' !in paint(c, t)
    ensures var r := FormatOutput(h, json, level, paint);
      forall i :: 0 <= i < |r| - 1 ==> r[i] != '\n'
  {
    var r := FormatOutput(h, json, level, paint);
    assert r[..|r| - 1] == json || r[..|r| - 1] == LoggingHelpers.ColorizeString(level, json, paint);
    forall i | 0 <= i < |r| - 1
      ensures r[i] != '\n'
    {
      assert r[i] == r[..|r| - 1][i];
    }
  }

  /**
   * `Handle`: the fields are marshalled (`marshal` is `json.Marshal`); a marshal error is
   * returned and nothing is written; otherwise the formatted line is written and the write's
   * error (`writeErr`) returned.
   */
  method Handle(h: JsonHandler, r: Slog.Record, time: string, source: string,
                marshal: map<string, Slog.Value> -> Result<string, GoErrors.Error>,
                paint: (int, string) -> string, writeErr: Option<GoErrors.Error>)
      returns (written: Option<string>, err: Option<GoErrors.Error>)
    ensures var fields := Slog.Overlay(BuiltIns(r, time, source), h.attrs + r.attrs);
      match marshal(fields)
      case Fail(e) => written.None? && err == Some(e)
      case Ok(json) => written == Some(FormatOutput(h, json, r.level, paint)) && err == writeErr
  {
    var fields := BuildFields(h, r, time, source);
    var encoded := marshal(fields);
    if encoded.Fail? {
      return None, Some(encoded.error);
    }
    var output := FormatOutput(h, encoded.value, r.level, paint);
    return Some(output), writeErr;
  }
}
