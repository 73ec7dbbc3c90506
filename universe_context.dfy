/**
 * The part of Go's `context.Context` and of `OrDone` (pkg/universe/topology.go) that the stream
 * operators and terminals rely on. A stream is a finite sequence. A context is either never
 * cancelled, or cancelled once a given number of values has passed through `OrDone`; Go leaves
 * the exact moment to the scheduler, and this fixes it as a parameter.
 */
module UniverseContext {
  import opened Wrappers
  import GoErrors

  datatype Ctx = Background | CancelledAfter(delivered: nat)

  /** `context.Canceled`. */
  const Canceled := GoErrors.Sentinel("context.Canceled", "context canceled")

  /** `ctx.Err()` once the stream has been read. */
  function Err(ctx: Ctx): Option<GoErrors.Error>
  {
    if ctx.CancelledAfter? then Some(Canceled) else None
  }

  /** What `OrDone(ctx, stream)` lets through: everything, or what came before the cancellation. */
  function OrDone<T>(ctx: Ctx, s: seq<T>): (r: seq<T>)
    ensures |r| <= |s| && r == s[..|r|]
    ensures ctx.Background? ==> r == s
  {
    match ctx
    case Background => s
    case CancelledAfter(n) => if n < |s| then s[..n] else s
  }
}
