/**
 * internal/utils/helpers.go: the SHA-256 text check and `HexToBase64SHA256`, which turns a
 * hex digest (Base16, RFC 4648 section 8) into the standard padded Base64 of RFC 4648
 * section 4 that S3 expects for a checksum header.
 */
module UtilsHelpers {
  import opened Wrappers
  import opened GoStrings
  import GoErrors
  import opened HexCodec
  import RegistryHooks

  /** `ValidateSHA256`, the same check as the registry package's. */
  function ValidateSHA256(hash: string): (err: Option<GoErrors.Error>)
    ensures err.None? <==> |TrimSpace(hash)| == 64 && AllHex(TrimSpace(hash))
  {
    RegistryHooks.ValidateSHA256Accepts(hash);
    RegistryHooks.ValidateSHA256(hash)
  }

  /** The character of a 6-bit value in the Base64 alphabet of RFC 4648 section 4, table 1. */
  function Symbol(v: nat): (c: char)
    requires v < 64
    ensures c != '='
  {
    if v < 26 then ('A' as int + v) as char
    else if v < 52 then ('a' as int + v - 26) as char
    else if v < 62 then ('0' as int + v - 52) as char
    else if v == 62 then '+'
    else '/'
  }

  predicate IsBase64Char(c: char)
  {
    ('A' <= c <= 'Z') || ('a' <= c <= 'z') || ('0' <= c <= '9') || c == '+' || c == '/'
  }

  /** The 6-bit value of an alphabet character: the inverse of Symbol. */
  function CharValue(c: char): (v: nat)
    requires IsBase64Char(c)
    ensures v < 64 && Symbol(v) == c
  {
    if 'A' <= c <= 'Z' then c as int - 'A' as int
    else if 'a' <= c <= 'z' then c as int - 'a' as int + 26
    else if '0' <= c <= '9' then c as int - '0' as int + 52
    else if c == '+' then 62
    else 63
  }

  lemma SymbolValue(v: nat)
    requires v < 64
    ensures IsBase64Char(Symbol(v)) && CharValue(Symbol(v)) == v
  {
  }

  /** `base64.StdEncoding.EncodeToString`: four characters per three bytes, '=' padding. */
  function Base64Encode(b: seq<byte>): (r: string)
    ensures |r| == 4 * ((|b| + 2) / 3)
  {
    if |b| == 0 then ""
    else if |b| == 1 then Single(b[0])
    else if |b| == 2 then Pair(b[0], b[1])
    else Group(b[0], b[1], b[2]) + Base64Encode(b[3..])
  }

  /** A last byte alone: two symbols and "==". */
  function Single(x: byte): (r: string)
    ensures |r| == 4 && r[2] == '=' && r[3] == '='
  {
    [Symbol(x / 4), Symbol((x % 4) * 16), '=', '=']
  }

  /** Two last bytes: three symbols and one '='. */
  function Pair(x: byte, y: byte): (r: string)
    ensures |r| == 4 && r[2] != '=' && r[3] == '='
  {
    [Symbol(x / 4), Symbol((x % 4) * 16 + y / 16), Symbol((y % 16) * 4), '=']
  }

  /** Three bytes as four 6-bit symbols. */
  function Group(x: byte, y: byte, z: byte): (r: string)
    ensures |r| == 4 && '=' !in r
  {
    [Symbol(x / 4), Symbol((x % 4) * 16 + y / 16), Symbol((y % 16) * 4 + z / 64), Symbol(z % 64)]
  }

  /**
   * One group of four characters: three bytes, or fewer when it ends in "=" or "==";
   * None when a character is outside the alphabet or the padding is misplaced.
   */
  function DecodeQuad(q: string): (r: Option<seq<byte>>)
    requires |q| == 4
  {
    if !IsBase64Char(q[0]) || !IsBase64Char(q[1]) then None
    else
      var v0, v1 := CharValue(q[0]), CharValue(q[1]);
      var b0: byte := v0 * 4 + v1 / 16;
      if q[2] == '=' then (if q[3] == '=' then Some([b0]) else None)
      else if !IsBase64Char(q[2]) then None
      else
        var v2 := CharValue(q[2]);
        var b1: byte := (v1 % 16) * 16 + v2 / 4;
        if q[3] == '=' then Some([b0, b1])
        else if !IsBase64Char(q[3]) then None
        else Some([b0, b1, (v2 % 4) * 64 + CharValue(q[3])])
  }

  /** Decoding of standard padded Base64; padding is allowed in the last group only. */
  function Base64Decode(s: string): (r: Option<seq<byte>>)
    decreases |s|
  {
    if |s| == 0 then Some([])
    else if |s| < 4 then None
    else match DecodeQuad(s[..4])
      case None => None
      case Some(bytes) =>
        if s[3] == '=' then (if |s| == 4 then Some(bytes) else None)
        else match Base64Decode(s[4..])
          case None => None
          case Some(rest) => Some(bytes + rest)
  }

  /** Decoding the encoding of any bytes gives them back. */
  lemma {:induction false} Base64RoundTrip(b: seq<byte>)
    ensures Base64Decode(Base64Encode(b)) == Some(b)
  {
    if |b| > 2 {
      Base64RoundTrip(b[3..]);
      Base64RoundTripStep(b);
    } else {
      ShortRoundTrip(b);
    }
  }

  /** Up to two bytes: one padded group. */
  lemma ShortRoundTrip(b: seq<byte>)
    requires |b| <= 2
    ensures Base64Decode(Base64Encode(b)) == Some(b)
  {
    if |b| == 1 {
      OneByteCase(b);
    } else if |b| == 2 {
      TwoBytesCase(b);
    }
  }

  lemma OneByteCase(b: seq<byte>)
    requires |b| == 1
    ensures Base64Decode(Base64Encode(b)) == Some(b)
  {
    var x := b[0];
    assert b == [x];
    assert Base64Encode(b) == Single(x);
    OneByteRoundTrip(x);
  }

  lemma TwoBytesCase(b: seq<byte>)
    requires |b| == 2
    ensures Base64Decode(Base64Encode(b)) == Some(b)
  {
    var x, y := b[0], b[1];
    assert b == [x, y];
    assert Base64Encode(b) == Pair(x, y);
    TwoBytesRoundTrip(x, y);
  }

  /** A full group followed by bytes that already round-trip. */
  lemma Base64RoundTripStep(b: seq<byte>)
    requires |b| > 2 && Base64Decode(Base64Encode(b[3..])) == Some(b[3..])
    ensures Base64Decode(Base64Encode(b)) == Some(b)
  {
    var g := Group(b[0], b[1], b[2]);
    DecodeGroup(b[0], b[1], b[2]);
    DecodeAfterGroup(g, Base64Encode(b[3..]));
    SplitThree(b);
  }

  /** An unpadded group in front of any text decodes to its bytes in front of that text's. */
  lemma DecodeAfterGroup(g: string, tail: string)
    requires |g| == 4 && g[3] != '=' && DecodeQuad(g).Some?
    ensures Base64Decode(g + tail) ==
      match Base64Decode(tail) case None => None case Some(rest) => Some(DecodeQuad(g).value + rest)
  {
    var s := g + tail;
    assert s[..4] == g && s[4..] == tail;
  }

  lemma SplitThree(b: seq<byte>)
    requires |b| > 2
    ensures b == [b[0], b[1], b[2]] + b[3..]
  {
  }

  lemma OneByteRoundTrip(x: byte)
    ensures Base64Decode(Single(x)) == Some([x])
  {
    var i0, i1 := x / 4, (x % 4) * 16;
    SymbolValue(i0);
    SymbolValue(i1);
    assert i0 * 4 + i1 / 16 == x;
    var q := Single(x);
    assert DecodeQuad(q) == Some([x]);
    assert q[..4] == q;
  }

  lemma TwoBytesRoundTrip(x: byte, y: byte)
    ensures Base64Decode(Pair(x, y)) == Some([x, y])
  {
    var q := Pair(x, y);
    DecodePair(x, y);
    assert q[..4] == q;
  }

  /** The padded group of two bytes decodes to them. */
  lemma DecodePair(x: byte, y: byte)
    ensures DecodeQuad(Pair(x, y)) == Some([x, y])
  {
    var i0, i1, i2 := x / 4, (x % 4) * 16 + y / 16, (y % 16) * 4;
    SymbolValue(i0);
    SymbolValue(i1);
    SymbolValue(i2);
    PairArithmetic(x, y);
  }

  /** Splitting two bytes into three 6-bit pieces and joining them again. */
  lemma PairArithmetic(x: byte, y: byte)
    ensures var i0, i1, i2 := x / 4, (x % 4) * 16 + y / 16, (y % 16) * 4;
      i0 * 4 + i1 / 16 == x && (i1 % 16) * 16 + i2 / 4 == y
  {
    var i1 := (x % 4) * 16 + y / 16;
    assert i1 / 16 == x % 4 && i1 % 16 == y / 16;
  }

  /** Splitting three bytes into 6-bit pieces and joining them again. */
  lemma GroupArithmetic(x: byte, y: byte, z: byte)
    ensures var i0, i1 := x / 4, (x % 4) * 16 + y / 16;
      var i2, i3 := (y % 16) * 4 + z / 64, z % 64;
      i0 * 4 + i1 / 16 == x && (i1 % 16) * 16 + i2 / 4 == y && (i2 % 4) * 64 + i3 == z
  {
    var i1 := (x % 4) * 16 + y / 16;
    assert i1 / 16 == x % 4 && i1 % 16 == y / 16;
    var i2 := (y % 16) * 4 + z / 64;
    assert i2 / 4 == y % 16 && i2 % 4 == z / 64;
  }

  /** A full group decodes to its three bytes. */
  lemma DecodeGroup(x: byte, y: byte, z: byte)
    ensures DecodeQuad(Group(x, y, z)) == Some([x, y, z])
  {
    var i0, i1 := x / 4, (x % 4) * 16 + y / 16;
    var i2, i3 := (y % 16) * 4 + z / 64, z % 64;
    SymbolValue(i0);
    SymbolValue(i1);
    SymbolValue(i2);
    SymbolValue(i3);
    GroupArithmetic(x, y, z);
  }

  /** The last group of an encoding of 3k+2 bytes carries exactly one '='. */
  lemma {:induction false} Base64TwoBytePadding(b: seq<byte>)
    requires |b| % 3 == 2
    ensures var r := Base64Encode(b); r[|r| - 1] == '=' && r[|r| - 2] != '='
  {
    var r := Base64Encode(b);
    if |b| == 2 {
      assert r == Pair(b[0], b[1]);
    } else {
      Base64TwoBytePadding(b[3..]);
      var rest := Base64Encode(b[3..]);
      assert r == Group(b[0], b[1], b[2]) + rest;
      assert r[|r| - 1] == rest[|rest| - 1] && r[|r| - 2] == rest[|rest| - 2];
    }
  }

  /** `HexToBase64SHA256`: an invalid hex string is an error wrapping the decoder's. */
  function HexToBase64SHA256(hexSHA256: string): (r: Result<string, GoErrors.Error>)
    ensures r.Ok? <==> |hexSHA256| % 2 == 0 && AllHex(hexSHA256)
    ensures r.Fail? ==> r.error == GoErrors.Wrap("invalid hex: ", ErrorOf(Decode(hexSHA256).error), "")
  {
    match Decode(hexSHA256)
    case Fail(e) => Fail(GoErrors.Wrap("invalid hex: ", ErrorOf(e), ""))
    case Ok(bytes) => Ok(Base64Encode(bytes))
  }

  /** A 64-digit digest gives 44 characters ending in exactly one '='. */
  lemma DigestLength(hexSHA256: string)
    requires |hexSHA256| == 64 && AllHex(hexSHA256)
    ensures var r := HexToBase64SHA256(hexSHA256).value;
      |r| == 44 && r[43] == '=' && r[42] != '='
  {
    var bytes := Decode(hexSHA256).value;
    assert |bytes| == 32;
    Base64TwoBytePadding(bytes);
  }

  /** Base64-decoding the result and hex-encoding it gives back the input in lower case. */
  lemma HexBase64RoundTrip(hexSHA256: string)
    requires HexToBase64SHA256(hexSHA256).Ok?
    ensures var bytes := Base64Decode(HexToBase64SHA256(hexSHA256).value);
      bytes.Some? && Encode(bytes.value) == ToLower(hexSHA256)
  {
    var bytes := Decode(hexSHA256).value;
    Base64RoundTrip(bytes);
    EncodeDecode(hexSHA256);
  }
}
