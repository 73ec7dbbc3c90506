/**
 * The parts of `log/slog` the logging code relies on: the levels and their `Level.String()`
 * rendering, attributes, records, and a built-in handler (`TextHandler`, `JSONHandler`) as the
 * configuration it carries.
 */
module Slog {
  import GoStrings
  import GoErrors

  const Debug: int := -4
  const Info: int := 0
  const Warn: int := 4
  const Error: int := 8

  /** `%+d`: a decimal with an explicit sign. */
  function SignedDecimal(n: int): (r: string)
    ensures |r| >= 2 && (r[0] == '+' || r[0] == '-')
  {
    if n < 0 then GoStrings.Itoa(n) else "+" + GoStrings.Itoa(n)
  }

  /**
   * `slog.Level.String()`: the name of the nearest named level at or below l, followed by
   * the signed offset from it when that is not zero ("INFO+2", "DEBUG-1").
   */
  function LevelString(l: int): (r: string)
    ensures l == Debug ==> r == "DEBUG"
    ensures l == Info ==> r == "INFO"
    ensures l == Warn ==> r == "WARN"
    ensures l == Error ==> r == "ERROR"
  {
    var (base, offset) :=
      if l < Info then ("DEBUG", l - Debug)
      else if l < Warn then ("INFO", l - Info)
      else if l < Error then ("WARN", l - Warn)
      else ("ERROR", l - Error);
    if offset == 0 then base else base + SignedDecimal(offset)
  }

  /** The value of an attribute, as far as the handlers tell values apart. */
  datatype Value =
    | NilValue
    | StringValue(s: string)
    | ErrorValue(err: GoErrors.Error)
      /** A value with a `String()` method (a time, a duration); `text` is what it returns. */
    | StringerValue(text: string)
      /** Any other value (a number, a boolean); `text` is its `%v` rendering. */
    | OtherValue(text: string)

  datatype Attr = Attr(key: string, value: Value)

  /** The keys slog itself uses for the level and the time of a record. */
  const LevelKey: string := "level"
  const TimeKey: string := "time"

  /** A log record: its level, its message and its attributes in the order they were added. */
  datatype Record = Record(level: int, message: string, attrs: seq<Attr>)

  /**
   * A built-in slog handler: its minimum level, whether it reports the call site, the
   * attributes and groups it was derived with, and an identity telling apart handlers that
   * write to different places.
   */
  datatype Handler = Handler(id: nat, level: int, addSource: bool, attrs: seq<Attr>, groups: seq<string>)

  /** `Handler.Enabled`: the level reaches the configured minimum. */
  predicate Enabled(h: Handler, level: int)
  {
    level >= h.level
  }

  /** `Handler.WithAttrs`: the same handler with more attributes. */
  function WithAttrs(h: Handler, attrs: seq<Attr>): Handler
  {
    h.(attrs := h.attrs + attrs)
  }

  /** `Handler.WithGroup`: the same handler inside one more group. */
  function WithGroup(h: Handler, name: string): Handler
  {
    h.(groups := h.groups + [name])
  }

  /**
   * The map a handler fills with `fields[a.Key] = a.Value.Any()`, one attribute after another
   * on top of `m`: a later attribute overwrites an earlier one with the same key.
   */
  function Overlay(m: map<string, Value>, attrs: seq<Attr>): map<string, Value>
  {
    if attrs == [] then m
    else
      var last := attrs[|attrs| - 1];
      Overlay(m, attrs[..|attrs| - 1])[last.key := last.value]
  }

  /** The position of the last attribute with key k, or -1. */
  function LastIndexOfKey(attrs: seq<Attr>, k: string): (r: int)
    ensures -1 <= r < |attrs|
    ensures r == -1 <==> forall i :: 0 <= i < |attrs| ==> attrs[i].key != k
    ensures r >= 0 ==> attrs[r].key == k && forall j :: r < j < |attrs| ==> attrs[j].key != k
  {
    if attrs == [] then -1
    else if attrs[|attrs| - 1].key == k then |attrs| - 1
    else LastIndexOfKey(attrs[..|attrs| - 1], k)
  }

  /**
   * A key is in the filled map when it was there before or some attribute has it, and its value
   * is that of the last attribute with it, or the one from before.
   */
  lemma {:induction false} OverlayLookup(m: map<string, Value>, attrs: seq<Attr>, k: string)
    ensures k in Overlay(m, attrs) <==> k in m || LastIndexOfKey(attrs, k) >= 0
    ensures LastIndexOfKey(attrs, k) >= 0 ==> Overlay(m, attrs)[k] == attrs[LastIndexOfKey(attrs, k)].value
    ensures LastIndexOfKey(attrs, k) < 0 && k in m ==> Overlay(m, attrs)[k] == m[k]
  {
    if attrs != [] {
      OverlayLookup(m, attrs[..|attrs| - 1], k);
    }
  }

  /** One more attribute written over the map. */
  lemma OverlayStep(m: map<string, Value>, attrs: seq<Attr>, i: nat)
    requires i < |attrs|
    ensures Overlay(m, attrs[..i + 1]) == Overlay(m, attrs[..i])[attrs[i].key := attrs[i].value]
  {
    assert attrs[..i + 1][..i] == attrs[..i];
  }

  /** The attribute at p has key k and none after it does: p is the last position of k. */
  lemma LastIndexOfKeyAt(attrs: seq<Attr>, k: string, p: nat)
    requires p < |attrs| && attrs[p].key == k
    requires forall j :: p < j < |attrs| ==> attrs[j].key != k
    ensures LastIndexOfKey(attrs, k) == p
  {
  }
}
