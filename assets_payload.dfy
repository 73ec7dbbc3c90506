/**
 * scripts/generate_assets_payload.py: builds JSON test payloads for the batch asset
 * endpoint. Random choices are parameters: a `Draw` says which alphabet entries and which
 * length `random.choices` and `random.randint` picked, reduced modulo the alphabet size and
 * the range, so every draw is one the script could make.
 */
module AssetsPayload {
  import opened Wrappers
  import opened JsonValues
  import GoStrings

  const HexAlphabet: string := "0123456789abcdef"

  /** `string.ascii_letters + string.digits + " "`. */
  const DisplayAlphabet: string :=
    "abcdefghijklmnopqrstuvwxyzABCDEFGHIJKLMNOPQRSTUVWXYZ0123456789 "

  const Tiers: seq<string> := ["none", "small", "medium", "large"]

  /** One asset's random choices. */
  datatype Draw = Draw(hex: nat -> nat, length: nat, chars: nat -> nat)

  /** `generate_hex_checksum`: 64 picks from the lower-case hex alphabet. */
  function HexChecksum(d: Draw): (r: string)
    ensures |r| == 64
    ensures forall i :: 0 <= i < |r| ==> r[i] in HexAlphabet
  {
    seq(64, i requires 0 <= i => HexAlphabet[d.hex(i) % 16])
  }

  /** `random.randint(10, 120)`. */
  function DisplayLength(d: Draw): (n: nat)
    ensures 10 <= n <= 120
  {
    10 + d.length % 111
  }

  /** The `random.choices` part of `generate_display`, before stripping. */
  function RawDisplay(d: Draw): (r: string)
    ensures |r| == DisplayLength(d)
    ensures forall i :: 0 <= i < |r| ==> r[i] in DisplayAlphabet
  {
    seq(DisplayLength(d), i requires 0 <= i => DisplayAlphabet[d.chars(i) % 63])
  }

  /** `generate_display`: a picked length of alphabet characters, then `.strip()`. */
  function Display(d: Draw): (r: string)
    ensures |r| <= DisplayLength(d) <= 120
    ensures forall i :: 0 <= i < |r| ==> r[i] in DisplayAlphabet
    ensures r == [] || (r[0] != ' ' && r[|r| - 1] != ' ')
  {
    var raw := RawDisplay(d);
    TrimmedWithin(raw, DisplayAlphabet);
    GoStrings.TrimSpace(raw)
  }

  /** Trimming keeps only characters of the text, and none of the spaces at either end. */
  lemma TrimmedWithin(raw: string, alphabet: string)
    requires forall i :: 0 <= i < |raw| ==> raw[i] in alphabet
    ensures var r := GoStrings.TrimSpace(raw);
      |r| <= |raw| && (forall i :: 0 <= i < |r| ==> r[i] in alphabet)
      && (r == [] || (r[0] != ' ' && r[|r| - 1] != ' '))
  {
    var t := GoStrings.TrimLeft(raw);
    var r := GoStrings.TrimRight(t);
    assert r == GoStrings.TrimSpace(raw);
    var l := |raw| - |t|;
    forall i | 0 <= i < |r| ensures r[i] in alphabet {
      assert r[i] == t[i] == raw[l + i];
    }
  }

  function Strs(xs: seq<string>): (r: seq<Value>)
    ensures |r| == |xs| && forall i :: 0 <= i < |xs| ==> r[i] == Str(xs[i])
  {
    seq(|xs|, i requires 0 <= i < |xs| => Str(xs[i]))
  }

  /** A string of n copies of c (`c * n`). */
  function Repeat(c: char, n: nat): (r: string)
    ensures |r| == n && forall i :: 0 <= i < n ==> r[i] == c
  {
    seq(n, _ => c)
  }

  /** `[f"tag_{i}" for i in range(20)]`. */
  function NumberedTags(): (r: seq<string>)
    ensures |r| == 20
  {
    seq(20, i => "tag_" + GoStrings.Itoa(i))
  }

  lemma ItoaInjective(i: nat, j: nat)
    requires i <= GoStrings.MaxInt64 && j <= GoStrings.MaxInt64
    requires GoStrings.Itoa(i) == GoStrings.Itoa(j)
    ensures i == j
  {
    GoStrings.AtoiItoa(i);
    GoStrings.AtoiItoa(j);
  }

  lemma PrefixedItoaInjective(p: string, i: nat, j: nat)
    requires i <= GoStrings.MaxInt64 && j <= GoStrings.MaxInt64
    requires p + GoStrings.Itoa(i) == p + GoStrings.Itoa(j)
    ensures i == j
  {
    assert GoStrings.Itoa(i) == (p + GoStrings.Itoa(i))[|p|..];
    ItoaInjective(i, j);
  }

  function ConfigKey(i: nat): string { "key_" + GoStrings.Itoa(i) }

  function ConfigValue(i: nat): string { "value_" + GoStrings.Itoa(i) }

  /** The pairs key_i -> value_i for i < n, added in order as the dict comprehension does. */
  function ConfigUpTo(n: nat): map<string, Value>
  {
    if n == 0 then map[] else ConfigUpTo(n - 1)[ConfigKey(n - 1) := Str(ConfigValue(n - 1))]
  }

  /** Holds every pair, and nothing collides: `ConfigUpTo(n)` has exactly n entries. */
  lemma {:induction false} ConfigUpToKeys(n: nat)
    ensures forall k :: k in ConfigUpTo(n) ==> exists i :: 0 <= i < n && k == ConfigKey(i)
  {
    if n > 0 {
      ConfigUpToKeys(n - 1);
    }
  }

  /** No key of the first n pairs is the key of pair n. */
  lemma ConfigKeyFresh(n: nat)
    requires n <= GoStrings.MaxInt64
    ensures ConfigKey(n) !in ConfigUpTo(n)
  {
    ConfigUpToKeys(n);
    if ConfigKey(n) in ConfigUpTo(n) {
      var i :| 0 <= i < n && ConfigKey(n) == ConfigKey(i);
      PrefixedItoaInjective("key_", n, i);
    }
  }

  lemma {:induction false} ConfigUpToContents(n: nat)
    requires n <= GoStrings.MaxInt64
    ensures |ConfigUpTo(n)| == n
    ensures forall i :: 0 <= i < n ==> ConfigKey(i) in ConfigUpTo(n) && ConfigUpTo(n)[ConfigKey(i)] == Str(ConfigValue(i))
  {
    if n > 0 {
      ConfigUpToContents(n - 1);
      ConfigKeyFresh(n - 1);
      var prev := ConfigUpTo(n - 1);
      var k := ConfigKey(n - 1);
      var v := Str(ConfigValue(n - 1));
      assert ConfigUpTo(n) == prev[k := v];
      assert |prev[k := v]| == |prev| + 1;
    }
  }

  /** `{f"key_{i}": f"value_{i}" for i in range(50)}`. */
  function Config(): map<string, Value>
  {
    ConfigUpTo(50)
  }

  lemma ConfigContents()
    ensures |Config()| == 50
    ensures forall i :: 0 <= i < 50 ==> ConfigKey(i) in Config() && Config()[ConfigKey(i)] == Str(ConfigValue(i))
    ensures forall k :: k in Config() ==> exists i :: 0 <= i < 50 && k == ConfigKey(i)
  {
    ConfigUpToContents(50);
    ConfigUpToKeys(50);
  }

  function BaseMetadata(): map<string, Value>
  {
    map["created_by" := Str("test_user"), "project" := Str("asset_testing"),
        "environment" := Str("development")]
  }

  /** `generate_extra(size)`: the fixed extra document of each tier, `{}` for any other size. */
  function Extra(size: string): Value
  {
    if size == "none" then Object(map[])
    else if size == "small" then Object(SmallExtra())
    else if size == "medium" then Object(MediumExtra())
    else if size == "large" then Object(LargeExtra())
    else Object(map[])
  }

  function SmallExtra(): map<string, Value>
  {
    map["source" := Str("test_script"), "version" := Str("1.0"),
        "tags" := List(Strs(["test", "generated"]))]
  }

  function MediumExtra(): map<string, Value>
  {
    map["source" := Str("test_script"), "version" := Str("1.0"),
        "tags" := List(Strs(["test", "generated", "medium"])),
        "metadata" := Object(BaseMetadata()),
        "description" := Str(Repeat('A', 200))]
  }

  function LargeExtra(): map<string, Value>
  {
    map["source" := Str("test_script"), "version" := Str("1.0"),
        "tags" := List(Strs(["test", "generated", "large"] + NumberedTags())),
        "metadata" := Object(BaseMetadata()["config" := Object(Config())]),
        "description" := Str(Repeat('B', 500)),
        "notes" := Str(Repeat('C', 300))]
  }

  /** "none" and every unknown size give the empty object. */
  lemma ExtraEmpty(size: string)
    ensures Extra(size) == Object(map[]) <==> size !in ["small", "medium", "large"]
  {
    if size in ["small", "medium", "large"] {
      assert "source" in Extra(size).fields;
    }
  }

  lemma ExtraSmall()
    ensures Extra("small").Object? && Extra("small").fields.Keys == {"source", "version", "tags"}
    ensures Extra("small").fields["tags"] == List([Str("test"), Str("generated")])
  {
  }

  lemma ExtraMedium()
    ensures Extra("medium").Object?
    ensures Extra("medium").fields.Keys == {"source", "version", "tags", "metadata", "description"}
  {
    assert Extra("medium") == Object(MediumExtra());
  }

  lemma ExtraMediumValues()
    ensures var f := MediumExtra();
      f["tags"].List? && |f["tags"].items| == 3 && f["tags"].items[2] == Str("medium")
      && f["metadata"] == Object(BaseMetadata()) && |f["metadata"].fields| == 3
      && f["description"] == Str(Repeat('A', 200)) && |f["description"].s| == 200
  {
    assert BaseMetadata().Keys == {"created_by", "project", "environment"};
  }

  lemma ExtraLarge()
    ensures var f := Extra("large").fields;
      f.Keys == {"source", "version", "tags", "metadata", "description", "notes"}
      && f["tags"].List? && |f["tags"].items| == 23
      && f["tags"].items[..3] == [Str("test"), Str("generated"), Str("large")]
      && (forall i :: 0 <= i < 20 ==> f["tags"].items[3 + i] == Str("tag_" + GoStrings.Itoa(i)))
      && f["metadata"].fields["config"] == Object(Config())
      && |f["description"].s| == 500 && |f["notes"].s| == 300
  {
    assert Extra("large") == Object(LargeExtra());
  }

  /** `generate_asset_payload`. */
  function AssetPayload(size: string, d: Draw): (r: Value)
    ensures r.Object? && r.fields.Keys == {"checksum", "display", "extra"}
    ensures r.fields["extra"] == Extra(size)
  {
    Object(map["checksum" := Str(HexChecksum(d)), "display" := Str(Display(d)),
               "extra" := Extra(size)])
  }

  /** `range(n)` is empty for n <= 0. */
  function RangeLength(n: int): nat { if n < 0 then 0 else n }

  /** `generate_batch_payload(n, size)`: `{"assets": [...]}` with one payload per draw. */
  function BatchPayload(n: int, size: string, draws: nat -> Draw): (r: Value)
    ensures r.Object? && r.fields.Keys == {"assets"} && r.fields["assets"].List?
    ensures |r.fields["assets"].items| == RangeLength(n)
    ensures forall i :: 0 <= i < RangeLength(n) ==>
      r.fields["assets"].items[i] == AssetPayload(size, draws(i))
  {
    Object(map["assets" := List(seq(RangeLength(n), i requires 0 <= i => AssetPayload(size, draws(i))))])
  }

  /** What `main` does: exit with status 1, or write the payload to a file. */
  datatype Outcome = Exit(code: int) | Written(filename: string, payload: Value)

  /**
   * `main` with `args = sys.argv[1:]`. `parsedCount` is Python's `int(args[0])`, None when
   * it raises (which ends the script with status 1, before the size is looked at).
   */
  function Run(args: seq<string>, parsedCount: Option<int>, draws: nat -> Draw): (o: Outcome)
    ensures |args| > 1 && args[1] !in Tiers ==> o.Exit? && o.code == 1
    ensures |args| > 0 && parsedCount.None? ==> o == Exit(1)
    ensures o.Written? ==>
      var n := if |args| > 0 && parsedCount.Some? then parsedCount.value else 1000;
      var size := if |args| > 1 then args[1] else "small";
      size in Tiers
      && o.filename == "assets_" + GoStrings.Itoa(n) + "_" + size + ".json"
      && o.payload == BatchPayload(n, size, draws)
  {
    if |args| > 0 && parsedCount.None? then Exit(1)
    else
      var n := if |args| > 0 then parsedCount.value else 1000;
      var size := if |args| > 1 then args[1] else "small";
      if size !in Tiers then Exit(1)
      else Written("assets_" + GoStrings.Itoa(n) + "_" + size + ".json", BatchPayload(n, size, draws))
  }

  /** With no arguments the script writes 1000 small assets to assets_1000_small.json. */
  lemma RunDefaults(draws: nat -> Draw)
    ensures Run([], None, draws) == Written("assets_1000_small.json", BatchPayload(1000, "small", draws))
  {
    Itoa1000();
    assert "small" in Tiers;
    assert "assets_" + "1000" + "_" + "small" + ".json" == "assets_1000_small.json";
  }

  lemma Itoa1000()
    ensures GoStrings.Itoa(1000) == "1000"
  {
    assert GoStrings.NatToString(1) == "1";
    assert GoStrings.NatToString(10) == "10";
    assert GoStrings.NatToString(100) == "100";
  }
}
