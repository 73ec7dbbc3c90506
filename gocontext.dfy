/**
 * Go `context.Context` values as the actions package builds them: the background context, a
 * context handed in by the caller, and the contexts derived by `context.WithTimeout` and
 * `context.WithCancel`. Deadlines and cancellation signals themselves are not modelled.
 */
module GoContext {
  datatype Context =
    | Background
      /** A context supplied by the caller, known only by an identity. */
    | Supplied(id: nat)
    | WithTimeout(parent: Context, timeout: int)
    | WithCancel(parent: Context)

  const Nanosecond: int := 1
  const Millisecond: int := 1_000_000
  const Second: int := 1_000_000_000
  const Minute: int := 60 * Second
  const Hour: int := 60 * Minute
}
