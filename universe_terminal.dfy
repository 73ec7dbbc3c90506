/**
 * pkg/universe/terminal.go: the terminals that read a stream to its end. Each reads what
 * `OrDone` lets through and reports `ctx.Err()` unless it stopped earlier for a reason of its own.
 * The loops are methods, each proved against a function that says what it returns.
 */
module UniverseTerminal {
  import opened Wrappers
  import GoErrors
  import opened UniverseContext
  import opened UniverseTransform

  /** `Drain`: reads and discards the stream; only the context decides the error. */
  function Drain<T>(ctx: Ctx, s: seq<T>): (err: Option<GoErrors.Error>)
    ensures err.Some? <==> ctx.CancelledAfter?
  {
    var _ := OrDone(ctx, s);
    Err(ctx)
  }

  /** Draining two different streams under one context reports the same error. */
  lemma DrainIgnoresStream<T>(ctx: Ctx, s: seq<T>, t: seq<T>)
    ensures Drain(ctx, s) == Drain(ctx, t)
  {
  }

  /** What `Collect` keeps of `xs`: everything when `cap` is 0, else the first `cap` values. */
  function Collected<T>(xs: seq<T>, cap: nat): seq<T>
  {
    if cap == 0 || |xs| <= cap then xs else xs[..cap]
  }

  /**
   * `Collect`. A negative `cap` makes `make` panic; a `cap` of 0 never equals the length of a
   * slice that was just appended to, so it collects everything.
   */
  method Collect<T>(ctx: Ctx, s: seq<T>, cap: int) returns (out: seq<T>, err: Option<GoErrors.Error>)
    requires cap >= 0
    ensures out == Collected(OrDone(ctx, s), cap)
    ensures err == Err(ctx)
  {
    var xs := OrDone(ctx, s);
    out := [];
    var i := 0;
    while i < |xs|
      invariant 0 <= i <= |xs| && out == xs[..i]
      invariant cap == 0 || i < cap
    {
      out := out + [xs[i]];
      i := i + 1;
      if |out| == cap {
        break;
      }
    }
    if cap != 0 && |xs| > cap {
      assert out == xs[..cap];
    } else {
      assert out == xs[..|xs|];
    }
    err := Err(ctx);
  }

  /** `Collected` is a prefix of the stream, at most `cap` long when `cap` is positive. */
  lemma CollectedProperties<T>(xs: seq<T>, cap: nat)
    ensures Collected(xs, cap) <= xs
    ensures cap > 0 ==> |Collected(xs, cap)| == if |xs| < cap then |xs| else cap
    ensures cap == 0 ==> Collected(xs, cap) == xs
  {
  }

  /** A `Consumer`: an error or none, for each envelope. */
  type Consumer<!T> = Envelope<T> -> Option<GoErrors.Error>

  /** The first consumer error over `xs`, if there is one. */
  function FirstConsumerError<T>(fn: Consumer<T>, xs: seq<Envelope<T>>): Option<GoErrors.Error>
  {
    if xs == [] then None
    else if fn(xs[0]).Some? then fn(xs[0])
    else FirstConsumerError(fn, xs[1..])
  }

  /** `Consume`: stops at the first envelope the consumer refuses and returns that error. */
  method Consume<T>(ctx: Ctx, s: seq<Envelope<T>>, fn: Consumer<T>) returns (err: Option<GoErrors.Error>)
    ensures err == if FirstConsumerError(fn, OrDone(ctx, s)).Some? then FirstConsumerError(fn, OrDone(ctx, s)) else Err(ctx)
  {
    var xs := OrDone(ctx, s);
    var i := 0;
    while i < |xs|
      invariant 0 <= i <= |xs|
      invariant FirstConsumerError(fn, xs) == FirstConsumerError(fn, xs[i..])
    {
      assert xs[i..][1..] == xs[i + 1..];
      var e := fn(xs[i]);
      if e.Some? {
        return e;
      }
      i := i + 1;
    }
    assert xs[i..] == [];
    err := Err(ctx);
  }

  /** The consumer's error is the error it gave for the earliest envelope it refused. */
  lemma {:induction false} FirstConsumerErrorAt<T>(fn: Consumer<T>, xs: seq<Envelope<T>>)
    ensures FirstConsumerError(fn, xs).None? <==> forall i :: 0 <= i < |xs| ==> fn(xs[i]).None?
    ensures FirstConsumerError(fn, xs).Some? ==>
      exists k :: 0 <= k < |xs| && FirstConsumerError(fn, xs) == fn(xs[k]) && forall i :: 0 <= i < k ==> fn(xs[i]).None?
  {
    if xs != [] && fn(xs[0]).None? {
      FirstConsumerErrorAt(fn, xs[1..]);
      if FirstConsumerError(fn, xs).Some? {
        var k :| 0 <= k < |xs[1..]| && FirstConsumerError(fn, xs[1..]) == fn(xs[1..][k])
          && forall i :: 0 <= i < k ==> fn(xs[1..][i]).None?;
        assert forall i :: 0 <= i < k + 1 ==> fn(xs[i]).None? by {
          forall i | 0 <= i < k + 1 ensures fn(xs[i]).None? {
            if i > 0 { assert xs[i] == xs[1..][i - 1]; }
          }
        }
        assert FirstConsumerError(fn, xs) == fn(xs[k + 1]);
      }
      assert forall i :: 0 < i < |xs| ==> xs[i] == xs[1..][i - 1];
    }
  }

  /** How many leading envelopes carry no error: the index of the first one that does. */
  function ErrorFreePrefix<T>(xs: seq<Envelope<T>>): (k: nat)
    ensures k <= |xs|
    ensures forall i :: 0 <= i < k ==> xs[i].err.None?
    ensures k < |xs| ==> xs[k].err.Some?
  {
    if xs == [] || xs[0].err.Some? then 0 else 1 + ErrorFreePrefix(xs[1..])
  }

  /** A `Reducer` folded over envelopes, left to right. */
  function Fold<T, R>(fn: (R, Envelope<T>) -> R, init: R, xs: seq<Envelope<T>>): R
  {
    if xs == [] then init else fn(Fold(fn, init, xs[..|xs| - 1]), xs[|xs| - 1])
  }

  /**
   * What `Reduce` and `Count` report after reading `xs`: the error of the first envelope that
   * carries one, else the context's error.
   */
  function StreamError<T>(ctx: Ctx, xs: seq<Envelope<T>>): Option<GoErrors.Error>
  {
    var k := ErrorFreePrefix(xs);
    if k < |xs| then xs[k].err else Err(ctx)
  }

  /**
   * `Reduce`: folds the envelopes up to the first one with an error, and returns the fold so far
   * together with that error.
   */
  method Reduce<T, R>(ctx: Ctx, s: seq<Envelope<T>>, fn: (R, Envelope<T>) -> R, init: R) returns (out: R, err: Option<GoErrors.Error>)
    ensures var xs := OrDone(ctx, s);
      out == Fold(fn, init, xs[..ErrorFreePrefix(xs)]) && err == StreamError(ctx, xs)
  {
    var xs := OrDone(ctx, s);
    out := init;
    var i := 0;
    while i < |xs|
      invariant 0 <= i <= ErrorFreePrefix(xs)
      invariant out == Fold(fn, init, xs[..i])
    {
      if xs[i].err.Some? {
        return out, xs[i].err;
      }
      assert xs[..i + 1][..i] == xs[..i];
      out := fn(out, xs[i]);
      i := i + 1;
    }
    err := Err(ctx);
  }

  /** `Count`: the number of envelopes read before the first error, and that error. */
  method Count<T>(ctx: Ctx, s: seq<Envelope<T>>) returns (count: int, err: Option<GoErrors.Error>)
    ensures var xs := OrDone(ctx, s); count == ErrorFreePrefix(xs) && err == StreamError(ctx, xs)
  {
    var xs := OrDone(ctx, s);
    count := 0;
    while count < |xs|
      invariant 0 <= count <= ErrorFreePrefix(xs)
    {
      if xs[count].err.Some? {
        return count, xs[count].err;
      }
      count := count + 1;
    }
    err := Err(ctx);
  }

  function Increment<T>(n: int, e: Envelope<T>): int { n + 1 }

  /** `Count` is `Reduce` with a reducer that adds one per envelope, started at 0. */
  lemma {:induction false} CountIsReduce<T>(xs: seq<Envelope<T>>)
    ensures Fold(Increment, 0, xs) == |xs|
  {
    if xs != [] {
      CountIsReduce(xs[..|xs| - 1]);
    }
  }

  /** Without cancellation and without error envelopes, `Count` counts the whole stream. */
  lemma CountAll<T>(s: seq<Envelope<T>>)
    requires forall i :: 0 <= i < |s| ==> s[i].err.None?
    ensures ErrorFreePrefix(OrDone(Background, s)) == |s| && StreamError(Background, s).None?
  {
  }
}
