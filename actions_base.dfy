/**
 * internal/actions/base.go: the untyped `Action` with its timeout context, and the sizing of a
 * parallel run: a routine count by tier, capped at the number of operations, and an error
 * buffer as large as the queue. `runtime.NumCPU()` is a parameter.
 */
module ActionsBase {
  import opened Wrappers
  import opened GoContext

  const DefaultQueueSize: nat := 100
  const DefaultTimeout: int := 10 * Minute

  /** The routine count by size: 2 up to 10, the CPUs up to 100, twice them up to 1000, else four times. */
  function Tier(total: int, numCPU: int): int
  {
    if total <= 10 then 2
    else if total <= 100 then numCPU
    else if total <= 1000 then 2 * numCPU
    else 4 * numCPU
  }

  /**
   * The routine count `CalculateNumOfRoutines` gives: one for no operations, else the tier,
   * never more than the operations, and at least one when there is a CPU.
   */
  function NumOfRoutines(total: int, numCPU: int): (r: int)
    ensures total <= 0 ==> r == 1
    ensures total > 0 ==> r <= total && (r == total || r == Tier(total, numCPU))
    ensures total > 0 ==> (r == total <==> Tier(total, numCPU) >= total)
    ensures numCPU >= 1 ==> r >= 1
  {
    if total <= 0 then 1
    else if Tier(total, numCPU) > total then total
    else Tier(total, numCPU)
  }

  /** The timeout `NewAction` uses: the first one given when it is positive, else ten minutes. */
  function TimeoutOf(timeout: seq<int>): (t: int)
    ensures t > 0
    ensures |timeout| > 0 && timeout[0] > 0 ==> t == timeout[0]
    ensures |timeout| == 0 || timeout[0] <= 0 ==> t == DefaultTimeout
  {
    if |timeout| > 0 && timeout[0] > 0 then timeout[0] else DefaultTimeout
  }

  /** The parent context `NewAction` uses: the one given, or the background for nil. */
  function ParentOf(ctx: Option<Context>): (c: Context)
    ensures ctx.Some? ==> c == ctx.value
    ensures ctx.None? ==> c == Background
  {
    if ctx.None? then Background else ctx.value
  }

  /** Only the first timeout counts: later ones are ignored, and a non-positive first one gives the default. */
  lemma OnlyFirstTimeoutCounts(first: int, rest: seq<int>)
    ensures TimeoutOf([first] + rest) == TimeoutOf([first])
    ensures first <= 0 ==> TimeoutOf([first] + rest) == DefaultTimeout
  {
  }

  class Action {
    var ctx: Context
    /** The contexts whose cancel function has been called, oldest first. */
    var released: seq<Context>

    /** `NewAction`: a context with the chosen timeout under the given or background parent. */
    constructor (parent: Option<Context>, timeout: seq<int>)
      ensures ctx == WithTimeout(ParentOf(parent), TimeoutOf(timeout)) && released == []
    {
      var c := parent;
      if c.None? {
        c := Some(Background);
      }
      var t := DefaultTimeout;
      if |timeout| > 0 && timeout[0] > 0 {
        t := timeout[0];
      }
      ctx := WithTimeout(c.value, t);
      released := [];
    }

    /** `Cancel`: the context's cancel function is called. */
    method Cancel()
      modifies this
      ensures released == old(released) + [ctx] && ctx == old(ctx)
    {
      released := released + [ctx];
    }

    /** `CalculateNumOfRoutines`: the tier for the count, lowered to the count. */
    method CalculateNumOfRoutines(totalOperations: int, numCPU: int) returns (totalRoutines: int)
      ensures totalRoutines == NumOfRoutines(totalOperations, numCPU)
    {
      if totalOperations <= 0 {
        return 1;
      }
      if totalOperations <= 10 {
        totalRoutines := 2;
      } else if totalOperations <= 100 {
        totalRoutines := numCPU;
      } else if totalOperations <= 1000 {
        totalRoutines := numCPU * 2;
      } else {
        totalRoutines := numCPU * 4;
      }
      if totalRoutines > totalOperations {
        totalRoutines := totalOperations;
      }
    }

    /**
     * The sizing in `Parallel`: the queue's capacity, or 100 for an unbuffered queue, sizes both
     * the routine count and the error buffer. So the routines never outnumber the buffer, and
     * there is at least one when there is a CPU.
     */
    method ParallelSizing(queueCapacity: nat, numCPU: int) returns (routines: int, errorsCapacity: nat)
      ensures errorsCapacity == if queueCapacity == 0 then DefaultQueueSize else queueCapacity
      ensures routines == NumOfRoutines(errorsCapacity, numCPU)
      ensures 1 <= errorsCapacity && routines <= errorsCapacity
      ensures numCPU >= 1 ==> routines >= 1
    {
      var queueSize := queueCapacity;
      if queueSize == 0 {
        queueSize := DefaultQueueSize;
      }
      routines := CalculateNumOfRoutines(queueSize, numCPU);
      errorsCapacity := queueSize;
    }
  }
}
