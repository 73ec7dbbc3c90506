/**
 * `time.Duration.String`, the text `%v` gives a duration: hours, minutes and seconds with a
 * decimal fraction ("1h2m3.5s") from one second up, and a single unit of ns, µs or ms with a
 * fraction below it; zero is "0s", and a negative duration is its magnitude after a '-'.
 */
module GoDuration {
  import GoStrings
  import opened GoContext

  const Microsecond: int := 1000

  function Pow10(n: nat): (r: nat)
    ensures r >= 1
  {
    if n == 0 then 1 else 10 * Pow10(n - 1)
  }

  /** `r` in exactly `width` decimal digits, zero-padded on the left. */
  function PadDigits(r: nat, width: nat): (s: string)
    ensures |s| == width && GoStrings.AllDigits(s)
  {
    if width == 0 then "" else PadDigits(r / 10, width - 1) + [GoStrings.DigitChar(r % 10)]
  }

  function TrimTrailingZeros(s: string): (t: string)
    ensures |t| <= |s| && t == s[..|t|]
    ensures t == [] || t[|t| - 1] != '0'
    ensures forall i :: |t| <= i < |s| ==> s[i] == '0'
  {
    if s == [] || s[|s| - 1] != '0' then s
    else
      var t := TrimTrailingZeros(s[..|s| - 1]);
      assert forall i :: |t| <= i < |s| - 1 ==> s[i] == s[..|s| - 1][i];
      t
  }

  /**
   * `fmtFrac`: the last `prec` digits of `v` as a decimal fraction without trailing zeros,
   * and nothing at all, not even the point, when they are all zero.
   */
  function Frac(v: nat, prec: nat): (f: string)
    ensures f == [] || (f[0] == '.' && f[|f| - 1] != '0' && |f| <= prec + 1)
  {
    var t := TrimTrailingZeros(PadDigits(v % Pow10(prec), prec));
    if t == [] then "" else "." + t
  }

  /** The magnitude of a duration, rendered as `Duration.format` does before the sign. */
  function Magnitude(u: nat): (s: string)
    ensures |s| >= 2 && s[|s| - 1] == 's'
  {
    if u == 0 then "0s"
    else if u < Microsecond then GoStrings.Itoa(u) + "ns"
    else if u < Millisecond then GoStrings.Itoa(u / Microsecond) + Frac(u, 3) + "µs"
    else if u < Second then GoStrings.Itoa(u / Millisecond) + Frac(u, 6) + "ms"
    else
      var secs := u / Second;
      var minutes := secs / 60;
      var tail := GoStrings.Itoa(secs % 60) + Frac(u, 9) + "s";
      if minutes == 0 then tail
      else
        var hours := minutes / 60;
        (if hours == 0 then "" else GoStrings.Itoa(hours) + "h") + GoStrings.Itoa(minutes % 60) + "m" + tail
  }

  /** `Duration.String`. */
  function DurationString(d: int): (s: string)
    ensures |s| >= 2 && s[|s| - 1] == 's'
    ensures s[0] == '-' <==> d < 0
  {
    if d < 0 then "-" + Magnitude(-d)
    else
      var m := Magnitude(d);
      MagnitudeUnsigned(d);
      m
  }

  /** The magnitude's text never starts with a sign. */
  lemma MagnitudeUnsigned(u: nat)
    ensures Magnitude(u)[0] != '-'
  {
    if u != 0 {
      var a: nat := if u < Microsecond then u else if u < Millisecond then u / Microsecond
                    else if u < Second then u / Millisecond else if u / Second / 60 == 0 then u / Second % 60
                    else if u / Second / 60 / 60 == 0 then u / Second / 60 % 60 else u / Second / 60 / 60;
      assert GoStrings.Itoa(a) == GoStrings.NatToString(a);
    }
  }

  /** Zero digits leave no fraction. */
  lemma {:induction false} ZeroPadTrimmed(width: nat)
    ensures TrimTrailingZeros(PadDigits(0, width)) == []
  {
    if width > 0 {
      var s := PadDigits(0, width);
      var p := PadDigits(0, width - 1);
      assert s == p + [GoStrings.DigitChar(0)];
      assert GoStrings.DigitChar(0) == '0';
      assert s[..|s| - 1] == p;
      ZeroPadTrimmed(width - 1);
      assert TrimTrailingZeros(s) == TrimTrailingZeros(p);
    }
  }

  lemma Pow10Nine()
    ensures Pow10(9) == Second
  {
    assert Pow10(3) == 1000;
    assert Pow10(6) == 1000 * Pow10(3);
    assert Pow10(9) == 1000 * Pow10(6);
  }

  /** A multiple of 10^prec has no fraction. */
  lemma WholeHasNoFrac(v: nat, prec: nat)
    requires v % Pow10(prec) == 0
    ensures Frac(v, prec) == []
  {
    ZeroPadTrimmed(prec);
  }

  /** From one second up: [hours "h"] minutes "m", shown only when some, then seconds and "s". */
  lemma MagnitudeAboveSecond(u: nat, secs: nat, frac: string)
    requires u >= Second && secs == u / Second && frac == Frac(u, 9)
    ensures Magnitude(u) ==
      var tail := GoStrings.Itoa(secs % 60) + frac + "s";
      if secs / 60 == 0 then tail
      else (if secs / 60 / 60 == 0 then "" else GoStrings.Itoa(secs / 60 / 60) + "h") + GoStrings.Itoa(secs / 60 % 60) + "m" + tail
  {
  }

  /** Whole seconds: the seconds count and no fraction. */
  lemma WholeSecondsOf(k: nat)
    ensures (k * Second) / Second == k && Frac(k * Second, 9) == []
  {
    var u := k * 1_000_000_000;
    assert u / 1_000_000_000 == k && u % 1_000_000_000 == 0;
    Pow10Nine();
    WholeHasNoFrac(k * Second, 9);
  }

  /** Whole seconds below a minute print as "<k>s". */
  lemma WholeSeconds(k: int)
    requires 0 < k < 60
    ensures DurationString(k * Second) == GoStrings.Itoa(k) + "s"
  {
    WholeSecondsOf(k);
    MagnitudeAboveSecond(k * Second, k, []);
    assert k / 60 == 0 && k % 60 == k;
    assert Magnitude(k * Second) == GoStrings.Itoa(k) + [] + "s";
  }

  /** Whole minutes below an hour print as "<k>m0s". */
  lemma WholeMinutes(k: int)
    requires 0 < k < 60
    ensures DurationString(k * Minute) == GoStrings.Itoa(k) + "m" + GoStrings.Itoa(0) + "s"
  {
    var m := 60 * k;
    assert k * Minute == m * Second;
    WholeSecondsOf(m);
    assert m / 60 == k && m % 60 == 0 && k / 60 == 0 && k % 60 == k;
    MagnitudeAboveSecond(m * Second, m, []);
    assert Magnitude(m * Second) == "" + GoStrings.Itoa(k) + "m" + (GoStrings.Itoa(0) + [] + "s");
  }

  /**
   * What `%v` prints for the durations a caller is likely to pass: "0s" for zero, the
   * magnitude after a '-' for a negative duration, "<n>ns" below a microsecond, "<k>s" for
   * whole seconds below a minute and "<k>m0s" for whole minutes below an hour.
   */
  lemma DurationStringProperties(d: int)
    ensures DurationString(0) == "0s"
    ensures d < 0 ==> DurationString(d) == "-" + DurationString(-d)
    ensures 0 < d < Microsecond ==> DurationString(d) == GoStrings.Itoa(d) + "ns"
    ensures 0 < d < 60 ==> DurationString(d * Second) == GoStrings.Itoa(d) + "s"
    ensures 0 < d < 60 ==> DurationString(d * Minute) == GoStrings.Itoa(d) + "m" + GoStrings.Itoa(0) + "s"
  {
    if 0 < d < 60 {
      WholeSeconds(d);
      WholeMinutes(d);
    }
  }

  /** A whole day prints as "24h0m0s". */
  lemma DayText()
    ensures DurationString(24 * Hour) == "24h0m0s"
  {
    var u := 24 * Hour;
    assert u == 86400 * Second;
    WholeSecondsOf(86400);
    assert u / Second == 86400;
    assert 86400 / 60 == 1440 && 1440 / 60 == 24 && 1440 % 60 == 0 && 86400 % 60 == 0;
    MagnitudeAboveSecond(u, 86400, []);
    assert GoStrings.Itoa(24) == "24" && GoStrings.Itoa(0) == "0";
    assert Magnitude(u) == GoStrings.Itoa(24) + "h" + GoStrings.Itoa(0) + "m" + (GoStrings.Itoa(0) + [] + "s");
  }

  /** The client's timeout bounds print as "1s" and "24h0m0s". */
  lemma ClientBoundsText()
    ensures DurationString(Second) == "1s"
    ensures DurationString(24 * Hour) == "24h0m0s"
  {
    WholeSeconds(1);
    assert GoStrings.Itoa(1) == "1";
    DayText();
  }
}
