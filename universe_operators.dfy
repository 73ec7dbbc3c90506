/**
 * pkg/universe/operators.go: the envelope-level stream operators. `Map` and `Filter` see whole
 * envelopes (value and error), `Tap` calls an observer on each envelope and forwards it, and
 * `UntilDone` stops a stream when the context is cancelled. A channel is modelled by the finite
 * sequence sent on it, and the observer's side effect by the sequence of what it observed.
 */
module UniverseOperators {
  import opened Wrappers
  import UniverseContext
  import opened UniverseTransform

  /** `Map(fn)` run over a stream. */
  function Map<T>(fn: Envelope<T> -> Envelope<T>, s: seq<Envelope<T>>): (r: seq<Envelope<T>>)
    ensures |r| == |s|
    ensures forall i :: 0 <= i < |s| ==> r[i] == fn(s[i])
  {
    if s == [] then [] else [fn(s[0])] + Map(fn, s[1..])
  }

  /** `Filter(p)` run over a stream. */
  function Filter<T>(p: Envelope<T> -> bool, s: seq<Envelope<T>>): (r: seq<Envelope<T>>)
    ensures |r| <= |s|
  {
    if s == [] then [] else (if p(s[0]) then [s[0]] else []) + Filter(p, s[1..])
  }

  /**
   * `Tap(fn)` run over a stream: what it forwards, and the envelopes the observer was called
   * with, in call order.
   */
  function Tap<T>(s: seq<Envelope<T>>): (r: (seq<Envelope<T>>, seq<Envelope<T>>))
  {
    if s == [] then ([], [])
    else
      var rest := Tap(s[1..]);
      ([s[0]] + rest.0, [s[0]] + rest.1)
  }

  /** `UntilDone()`: the stream as `OrDone` passes it on. */
  function UntilDone<T>(ctx: UniverseContext.Ctx, s: seq<Envelope<T>>): seq<Envelope<T>>
  {
    UniverseContext.OrDone(ctx, s)
  }

  /** `Tap` forwards every envelope unchanged and observes each one once, in order. */
  lemma {:induction false} TapForwardsAndObserves<T>(s: seq<Envelope<T>>)
    ensures Tap(s).0 == s && Tap(s).1 == s
  {
    if s != [] {
      TapForwardsAndObserves(s[1..]);
      assert s == [s[0]] + s[1..];
    }
  }

  /** Without cancellation `UntilDone` passes the stream on untouched; with it, a prefix. */
  lemma UntilDoneProperties<T>(ctx: UniverseContext.Ctx, s: seq<Envelope<T>>)
    ensures ctx.Background? ==> UntilDone(ctx, s) == s
    ensures exists k :: 0 <= k <= |s| && UntilDone(ctx, s) == s[..k]
  {
    var r := UntilDone(ctx, s);
    assert r == s[..|r|];
  }

  /** `Filter` keeps exactly the envelopes that pass, in input order. */
  lemma {:induction false} FilterMembers<T>(p: Envelope<T> -> bool, s: seq<Envelope<T>>)
    ensures forall e :: e in Filter(p, s) <==> e in s && p(e)
  {
    if s != [] {
      FilterMembers(p, s[1..]);
      assert s == [s[0]] + s[1..];
    }
  }

  lemma {:induction false} FilterConcat<T>(p: Envelope<T> -> bool, s: seq<Envelope<T>>, t: seq<Envelope<T>>)
    ensures Filter(p, s + t) == Filter(p, s) + Filter(p, t)
  {
    if s == [] {
      assert s + t == t;
    } else {
      var head := if p(s[0]) then [s[0]] else [];
      assert (s + t)[0] == s[0] && (s + t)[1..] == s[1..] + t;
      assert Filter(p, s + t) == head + Filter(p, s[1..] + t);
      FilterConcat(p, s[1..], t);
      assert Filter(p, s) == head + Filter(p, s[1..]);
    }
  }

  /** `Source(ctx, 0, 1, ..., n-1)` without cancellation: each value in an error-free envelope. */
  function Numbers(n: nat): (r: seq<Envelope<int>>)
    ensures |r| == n && forall i :: 0 <= i < n ==> r[i] == Envelope(i, None)
  {
    if n == 0 then [] else Numbers(n - 1) + [Envelope(n - 1, None)]
  }

  predicate IsOdd(e: Envelope<int>) { e.value % 2 == 1 }

  /** Filtering 0..n-1 for odd values keeps n/2 envelopes, every one odd. */
  lemma {:induction false} OddNumbers(n: nat)
    ensures |Filter(IsOdd, Numbers(n))| == n / 2
    ensures forall e :: e in Filter(IsOdd, Numbers(n)) ==> e.value % 2 == 1
  {
    FilterMembers(IsOdd, Numbers(n));
    if n > 0 {
      OddNumbers(n - 1);
      FilterConcat(IsOdd, Numbers(n - 1), [Envelope(n - 1, None)]);
    }
  }

  /** The operator test's case: 0..99 filtered for odd values gives 50 odd values. */
  lemma FilterOddHundred()
    ensures |Filter(IsOdd, Numbers(100))| == 50
    ensures forall e :: e in Filter(IsOdd, Numbers(100)) ==> e.value % 2 == 1
  {
    OddNumbers(100);
  }

  /** The tap test's case: 200 forwarded envelopes give 200 observations. */
  lemma TapTwoHundred(s: seq<Envelope<string>>)
    requires |s| == 200
    ensures |Tap(s).1| == 200
  {
    TapForwardsAndObserves(s);
  }
}
