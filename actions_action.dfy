/**
 * internal/actions/action.go: the generic parallel `Action`. It holds a context and the bounds
 * on its worker count; the setters check their argument, and the parallelism setters keep the
 * minimum at or below a positive maximum by lowering the minimum. `workers` sizes a run: a tier
 * by input count, capped at the count and the maximum, then raised to the minimum.
 * `runtime.NumCPU()` is a parameter.
 */
module ActionsAction {
  import opened Wrappers
  import opened GoContext
  import GoErrors
  import GoStrings
  import ActionsBase
  import GoDuration

  const DefaultTimeout: int := 10 * Minute
  const DefaultMinParallelism: int := 2
  const DefaultMaxParallelism: int := -1

  const ErrNilContext := GoErrors.Plain("context cannot be nil")
  /** The refusal of `SetTimeout`, naming the duration as `%v` prints it. */
  function TimeoutError(timeout: int): GoErrors.Error
  {
    GoErrors.Plain("timeout must be positive, got: " + GoDuration.DurationString(timeout))
  }

  function MaxError(max: int): GoErrors.Error
  {
    GoErrors.Plain("maxParallelism must be -1 or greater, got: " + GoStrings.Itoa(max))
  }

  function MinError(min: int): GoErrors.Error
  {
    GoErrors.Plain("minParallelism must be positive, got: " + GoStrings.Itoa(min))
  }

  /** `max` with `min` lowered to it when `max` is positive and `min` exceeds it. */
  function LoweredMin(min: int, max: int): (r: int)
    ensures max > 0 ==> r <= max
    ensures r <= min && (r == min || r == max)
    ensures max <= 0 || min <= max ==> r == min
  {
    if max > 0 && min > max then max else min
  }

  class Action {
    var ctx: Context
    /** The contexts whose cancel function has been called, oldest first. */
    var released: seq<Context>
    var maxParallelism: int
    var minParallelism: int

    /**
     * The bounds the setters maintain: a positive minimum, a maximum of -1 or more, and the
     * minimum at or below the maximum whenever the maximum is positive.
     */
    predicate Valid()
      reads this
    {
      minParallelism >= 1 && maxParallelism >= -1 && Ordered()
    }

    /** The invariant both parallelism setters restore: the minimum at or below a positive maximum. */
    predicate Ordered()
      reads this
    {
      maxParallelism > 0 ==> minParallelism <= maxParallelism
    }

    /** `NewAction`: a ten-minute context, at least 2 workers and no maximum. */
    constructor ()
      ensures ctx == WithTimeout(Background, DefaultTimeout) && released == []
      ensures minParallelism == DefaultMinParallelism && maxParallelism == DefaultMaxParallelism
      ensures Valid()
    {
      ctx := WithTimeout(Background, DefaultTimeout);
      released := [];
      minParallelism := DefaultMinParallelism;
      maxParallelism := DefaultMaxParallelism;
    }

    /** `SetContext`: a nil context is refused; otherwise the old context is cancelled and replaced. */
    method SetContext(c: Option<Context>) returns (err: Option<GoErrors.Error>)
      modifies this
      ensures c.None? ==> err == Some(ErrNilContext) && ctx == old(ctx) && released == old(released)
      ensures c.Some? ==> err.None? && ctx == WithCancel(c.value) && released == old(released) + [old(ctx)]
      ensures minParallelism == old(minParallelism) && maxParallelism == old(maxParallelism)
    {
      if c.None? {
        return Some(ErrNilContext);
      }
      released := released + [ctx];
      ctx := WithCancel(c.value);
      return None;
    }

    /**
     * `SetTimeout`: a duration of zero or less is refused; otherwise the old context is
     * cancelled and replaced by a fresh one from the background with that timeout.
     */
    method SetTimeout(timeout: int) returns (err: Option<GoErrors.Error>)
      modifies this
      ensures timeout <= 0 ==> err == Some(TimeoutError(timeout)) && ctx == old(ctx) && released == old(released)
      ensures timeout > 0 ==> err.None? && ctx == WithTimeout(Background, timeout) && released == old(released) + [old(ctx)]
      ensures minParallelism == old(minParallelism) && maxParallelism == old(maxParallelism)
    {
      if timeout <= 0 {
        return Some(TimeoutError(timeout));
      }
      released := released + [ctx];
      ctx := WithTimeout(Background, timeout);
      return None;
    }

    /**
     * `SetMaxParallelism`: a value below -1 is refused; otherwise it is stored and the minimum
     * is lowered to it when it is positive and smaller. Afterwards the minimum is at or below a positive maximum.
     */
    method SetMaxParallelism(max: int) returns (err: Option<GoErrors.Error>)
      modifies this
      ensures max < -1 ==> err == Some(MaxError(max)) && maxParallelism == old(maxParallelism)
                           && minParallelism == old(minParallelism)
      ensures max >= -1 ==> err.None? && maxParallelism == max && minParallelism == LoweredMin(old(minParallelism), max)
      ensures err.None? ==> Ordered()
      ensures old(Valid()) ==> Valid()
      ensures ctx == old(ctx) && released == old(released)
    {
      if max < -1 {
        return Some(MaxError(max));
      }
      maxParallelism := max;
      if maxParallelism > 0 && minParallelism > maxParallelism {
        minParallelism := maxParallelism;
      }
      return None;
    }

    /**
     * `SetMinParallelism`: a value of zero or less is refused; otherwise it is stored, lowered
     * to the maximum when that is positive and smaller. Afterwards the minimum is at or below a positive maximum.
     */
    method SetMinParallelism(min: int) returns (err: Option<GoErrors.Error>)
      modifies this
      ensures min <= 0 ==> err == Some(MinError(min)) && maxParallelism == old(maxParallelism)
                           && minParallelism == old(minParallelism)
      ensures min > 0 ==> err.None? && maxParallelism == old(maxParallelism)
                          && minParallelism == LoweredMin(min, old(maxParallelism))
      ensures err.None? ==> Ordered()
      ensures old(Valid()) ==> Valid()
      ensures ctx == old(ctx) && released == old(released)
    {
      if min <= 0 {
        return Some(MinError(min));
      }
      minParallelism := min;
      if maxParallelism > 0 && minParallelism > maxParallelism {
        minParallelism := maxParallelism;
      }
      return None;
    }

    /**
     * `workers`: one worker for no input; otherwise the tier for the count, capped at the count
     * and at a positive maximum, then raised to the minimum. So the result is at least the
     * minimum, and, with the bounds kept, at most a positive maximum.
     */
    method Workers(total: int, numCPU: int) returns (w: int)
      ensures total <= 0 ==> w == 1
      ensures total > 0 ==> w == WorkersFor(total, numCPU, minParallelism, maxParallelism)
      ensures total > 0 ==> w >= minParallelism
      ensures total > 0 && Valid() && maxParallelism > 0 ==> w <= maxParallelism
    {
      if total <= 0 {
        return 1;
      }
      w := ActionsBase.Tier(total, numCPU);
      if w > total {
        w := total;
      }
      if maxParallelism > 0 && w > maxParallelism {
        w := maxParallelism;
      }
      if w < minParallelism {
        w := minParallelism;
      }
    }
  }

  /**
   * The worker count for a positive input count: the tier, unless that exceeds the count, a
   * positive maximum, or falls below the minimum.
   */
  function WorkersFor(total: int, numCPU: int, min: int, max: int): (w: int)
    requires total > 0
    ensures w >= min
    ensures max > 0 && min <= max ==> w <= max
    ensures w == min || w <= total
    ensures w > min ==> w == ActionsBase.Tier(total, numCPU) || w == total || w == max
  {
    var capped := if ActionsBase.Tier(total, numCPU) > total then total else ActionsBase.Tier(total, numCPU);
    var bounded := if max > 0 && capped > max then max else capped;
    if bounded < min then min else bounded
  }

  /**
   * The minimum wins over the input count: with no maximum, an action asked to run one input
   * starts its default two workers.
   */
  lemma MinimumAboveTotal(numCPU: int)
    ensures WorkersFor(1, numCPU, DefaultMinParallelism, DefaultMaxParallelism) == 2
  {
  }

  /**
   * With no maximum and a minimum of one, `workers` agrees with `CalculateNumOfRoutines` of the
   * other action type whenever that is at least one.
   */
  lemma AgreesWithRoutines(total: int, numCPU: int)
    requires total > 0 && numCPU >= 1
    ensures WorkersFor(total, numCPU, 1, -1) == ActionsBase.NumOfRoutines(total, numCPU)
  {
  }
}
