/**
 * Go's `encoding/hex` (Base16 of RFC 4648 section 8): `hex.DecodeString` accepts digits of
 * either case and reports the first invalid character before an odd length; `EncodeToString`
 * writes lower-case digits.
 */
module HexCodec {
  import opened Wrappers
  import GoStrings
  import GoErrors

  type byte = x: int | 0 <= x < 256

  predicate IsHexDigit(c: char)
  {
    ('0' <= c <= '9') || ('a' <= c <= 'f') || ('A' <= c <= 'F')
  }

  predicate AllHex(s: string) { forall i :: 0 <= i < |s| ==> IsHexDigit(s[i]) }

  function HexValue(c: char): (v: nat)
    requires IsHexDigit(c)
    ensures v < 16
  {
    if '0' <= c <= '9' then c as int - '0' as int
    else if 'a' <= c <= 'f' then c as int - 'a' as int + 10
    else c as int - 'A' as int + 10
  }

  const LowerDigits: string := "0123456789abcdef"

  datatype DecodeError = InvalidByte(c: char) | OddLength

  /** Go's rendering of the decode error (`%#U` of the offending byte for an invalid one). */
  function ErrorOf(e: DecodeError): GoErrors.Error
  {
    match e
    case OddLength => GoErrors.Plain("encoding/hex: odd length hex string")
    case InvalidByte(c) => GoErrors.Plain("encoding/hex: invalid byte: " + CodePoint(c))
  }

  /** `%#U`: "U+" and at least four upper-case hex digits, then the quoted character if printable. */
  function CodePoint(c: char): string
  {
    var n := c as int;
    var digits := if n < 0x1000 then "0" + (if n < 0x100 then "0" + (if n < 0x10 then "0" else "") else "") else "";
    "U+" + digits + UpperHex(n) + (if ' ' <= c <= '~' then " '" + [c] + "'" else "")
  }

  function UpperHex(n: nat): string
  {
    if n < 16 then ["0123456789ABCDEF"[n]] else UpperHex(n / 16) + ["0123456789ABCDEF"[n % 16]]
  }

  /** Index of the first non-hex character, or -1. */
  function FirstNonHex(s: string): (r: int)
    ensures -1 <= r < |s|
    ensures r == -1 <==> AllHex(s)
    ensures r >= 0 ==> !IsHexDigit(s[r]) && forall i :: 0 <= i < r ==> IsHexDigit(s[i])
  {
    if s == [] then -1
    else if !IsHexDigit(s[0]) then 0
    else
      var k := FirstNonHex(s[1..]);
      if k == -1 then -1 else k + 1
  }

  /** The bytes of a well-formed hex string, one per pair of digits. */
  function Pairs(s: string): (r: seq<byte>)
    requires |s| % 2 == 0 && AllHex(s)
    ensures |r| == |s| / 2
  {
    if s == [] then []
    else [16 * HexValue(s[0]) + HexValue(s[1])] + Pairs(s[2..])
  }

  /** `hex.DecodeString`. */
  function Decode(s: string): (r: Result<seq<byte>, DecodeError>)
    ensures r.Ok? <==> |s| % 2 == 0 && AllHex(s)
    ensures r.Ok? ==> |r.value| == |s| / 2
    ensures r.Fail? && !AllHex(s) ==> r.error == InvalidByte(s[FirstNonHex(s)])
    ensures r.Fail? && AllHex(s) ==> r.error == OddLength
  {
    var bad := FirstNonHex(s);
    if bad >= 0 then Fail(InvalidByte(s[bad]))
    else if |s| % 2 == 1 then Fail(OddLength)
    else Ok(Pairs(s))
  }

  /** `hex.EncodeToString`: two lower-case digits per byte. */
  function Encode(b: seq<byte>): (r: string)
    ensures |r| == 2 * |b| && AllHex(r)
  {
    if b == [] then []
    else [Digit(b[0] / 16), Digit(b[0] % 16)] + Encode(b[1..])
  }

  /** The lower-case digit of a value below 16: entry `k` of the encoder's table `LowerDigits`. */
  function Digit(k: nat): (c: char)
    requires k < 16
    ensures IsHexDigit(c) && HexValue(c) == k && !GoStrings.IsUpper(c)
  {
    if k < 10 then ('0' as int + k) as char else ('a' as int + k - 10) as char
  }

  lemma DigitValue(k: nat)
    requires k < 16
    ensures LowerDigits[k] == Digit(k)
  {
    if k < 10 {
      assert LowerDigits[k] as int == '0' as int + k;
    } else {
      assert LowerDigits[k] as int == 'a' as int + k - 10;
    }
  }

  lemma {:induction false} PairsEncode(b: seq<byte>)
    ensures Pairs(Encode(b)) == b
  {
    if b != [] {
      PairsEncode(b[1..]);
      var hi, lo := b[0] / 16, b[0] % 16;
      var s := Encode(b);
      assert s[0] == Digit(hi) && s[1] == Digit(lo);
      assert s[2..] == Encode(b[1..]);
    }
  }

  /** Decoding what was encoded gives the bytes back. */
  lemma DecodeEncode(b: seq<byte>)
    ensures Decode(Encode(b)) == Ok(b)
  {
    PairsEncode(b);
  }

  lemma LowerDigit(c: char)
    requires IsHexDigit(c)
    ensures Digit(HexValue(c)) == GoStrings.Lower(c)
  {
    if '0' <= c <= '9' {
      assert LowerDigits[HexValue(c)] as int == '0' as int + HexValue(c);
    } else {
      assert LowerDigits[HexValue(c)] as int == 'a' as int + HexValue(c) - 10;
    }
  }

  /** A hex digit that is not an upper-case letter is one of the sixteen encoder digits. */
  lemma LowerHexDigit(c: char)
    requires IsHexDigit(c) && !GoStrings.IsUpper(c)
    ensures c in LowerDigits
  {
    LowerDigit(c);
    DigitValue(HexValue(c));
  }

  /** Encoding what was decoded gives the input back in lower case. */
  lemma {:induction false} EncodeDecode(s: string)
    requires Decode(s).Ok?
    ensures Encode(Decode(s).value) == GoStrings.ToLower(s)
  {
    if s != [] {
      assert Decode(s[2..]).Ok?;
      EncodeDecode(s[2..]);
      var v := 16 * HexValue(s[0]) + HexValue(s[1]);
      assert Pairs(s) == [v] + Pairs(s[2..]);
      LowerDigit(s[0]);
      LowerDigit(s[1]);
      assert v / 16 == HexValue(s[0]) && v % 16 == HexValue(s[1]);
      assert GoStrings.ToLower(s) == [GoStrings.Lower(s[0]), GoStrings.Lower(s[1])] + GoStrings.ToLower(s[2..]);
    }
  }
}
