/**
 * pkg/universe/stage.go: a pipeline stage's configuration and its status machine. The stage is
 * a class whose methods update its fields in place. A Go `panic` in a setter is an `Outcome`,
 * and the stage is left as it was. The worker pool that `startProcessing` runs is not modelled:
 * `Run` is given the error it returned and the context's error after it.
 */
module UniverseStage {
  import opened Wrappers
  import opened GoStrings
  import GoErrors
  import UniverseErrors

  /** `StageState`. */
  datatype Status = Pending | Running | Aborted | Failed | Succeeded

  /** A setter's outcome: it returned, or it panicked with this message. */
  datatype Outcome = Done | Panic(message: string)

  /** `MaxConcurrency()`: 1.5 times the CPU count, rounded up. */
  function MaxConcurrency(numCPU: nat): (r: nat)
    requires numCPU >= 1
    ensures 2 * r >= 3 * numCPU && 2 * r < 3 * numCPU + 2
    ensures r > numCPU
  {
    (3 * numCPU + 1) / 2
  }

  /** The worker count `Concurrency(c)` stores: `c` moved into `[1, max]`. */
  function ClampConcurrency(c: int, max: nat): (r: int)
    requires max >= 1
    ensures 1 <= r <= max
    ensures 1 <= c <= max ==> r == c
    ensures c < 1 ==> r == 1
    ensures c > max ==> r == max
  {
    if c < 1 then 1 else if c > max then max else c
  }

  /** `updateStatus`: once Aborted, a stage keeps that status. */
  function Updated(cur: Status, next: Status): Status
  {
    if cur == Aborted then Aborted else next
  }

  /** A run of `updateStatus` calls, in order. */
  function UpdatedAll(cur: Status, nexts: seq<Status>): Status
    decreases |nexts|
  {
    if nexts == [] then cur else UpdatedAll(Updated(cur, nexts[0]), nexts[1..])
  }

  /**
   * After any run of updates the status is Aborted exactly when it was Aborted before or one of
   * the updates asked for Aborted; otherwise it is the last status asked for.
   */
  lemma {:induction false} UpdatedAllProperties(cur: Status, nexts: seq<Status>)
    ensures UpdatedAll(cur, nexts) == Aborted <==> cur == Aborted || Aborted in nexts
    ensures cur != Aborted && Aborted !in nexts && nexts != [] ==> UpdatedAll(cur, nexts) == nexts[|nexts| - 1]
    decreases |nexts|
  {
    if nexts != [] {
      UpdatedAllProperties(Updated(cur, nexts[0]), nexts[1..]);
      assert nexts == [nexts[0]] + nexts[1..];
    }
  }

  const ErrDeadlineRequired := GoErrors.Plain("deadline required")
  const ErrQueueNil := GoErrors.Plain("input queue is nil")
  const ErrFunctionNil := GoErrors.Plain("stage function is nil")

  /** `validate`: the first thing missing among the deadline, the input queue and the function. */
  function ValidationError(hasDeadline: bool, hasQueue: bool, hasFn: bool): Option<GoErrors.Error>
  {
    if !hasDeadline then Some(ErrDeadlineRequired)
    else if !hasQueue then Some(ErrQueueNil)
    else if !hasFn then Some(ErrFunctionNil)
    else None
  }

  /**
   * Validation passes exactly when all three are present, and the deadline is checked before
   * the queue, the queue before the function.
   */
  lemma ValidationOrder(hasDeadline: bool, hasQueue: bool, hasFn: bool)
    ensures ValidationError(hasDeadline, hasQueue, hasFn).None? <==> hasDeadline && hasQueue && hasFn
    ensures !hasDeadline ==> ValidationError(hasDeadline, hasQueue, hasFn) == Some(ErrDeadlineRequired)
    ensures hasDeadline && !hasQueue ==> ValidationError(hasDeadline, hasQueue, hasFn) == Some(ErrQueueNil)
    ensures hasDeadline && hasQueue && !hasFn ==> ValidationError(hasDeadline, hasQueue, hasFn) == Some(ErrFunctionNil)
  {
  }

  /** The status `finalize` asks for: the context's error wins over the processing error. */
  function FinalStatus(processErr: Option<GoErrors.Error>, ctxErr: Option<GoErrors.Error>): (r: Status)
    ensures r == Succeeded <==> processErr.None? && ctxErr.None?
    ensures r == Aborted <==> ctxErr.Some?
    ensures r != Pending && r != Running
  {
    if ctxErr.Some? then Aborted else if processErr.Some? then Failed else Succeeded
  }

  /** Why `Run` returned an error. */
  datatype RunError =
    | AlreadyStarted(err: GoErrors.Error)
    | NotRunnable(stageErr: UniverseErrors.StageError)
    | Processing(err: GoErrors.Error)

  /** The fields of a stage, as one value. */
  datatype Snapshot<In> = Snapshot(
    name: string, hasFn: bool, durable: bool, concurrency: int, status: Status,
    queue: Option<seq<In>>, artifactsBuffer: nat, errorsBuffer: nat,
    errors: seq<UniverseErrors.StageError>, closed: bool, channelCloses: nat, abortSent: bool)

  function StartedMessage(name: string, what: string): string
  {
    "stage " + Quote(name) + ": cannot set " + what + " after stage has started"
  }

  /**
   * `Stage`. `queue` is the input channel (`None` for nil), `errors` what the modelled code put in
   * the buffered Errors channel, `closed` the `closeOnce` flag and `channelCloses` how many times
   * the channels were closed.
   */
  class Stage<In> {
    var name: string
    var hasFn: bool
    var durable: bool
    var concurrency: int
    var status: Status
    var queue: Option<seq<In>>
    var artifactsBuffer: nat
    var errorsBuffer: nat
    var errors: seq<UniverseErrors.StageError>
    var closed: bool
    var channelCloses: nat
    var abortSent: bool

    function State(): Snapshot<In>
      reads this
    {
      Snapshot(name, hasFn, durable, concurrency, status, queue, artifactsBuffer, errorsBuffer,
               errors, closed, channelCloses, abortSent)
    }

    /**
     * The channels are closed at most once, only after the stage left Pending, and the Errors
     * channel never holds more than its buffer.
     */
    predicate Valid()
      reads this
    {
      concurrency >= 1
      && channelCloses == (if closed then 1 else 0)
      && (closed ==> status != Pending)
      && |errors| <= errorsBuffer
    }

    /** `NewStage`: Pending, one worker, not durable, an unbuffered Artifacts channel and 100 error slots. */
    constructor (name: string, hasFn: bool)
      ensures State() == Snapshot(name, hasFn, false, 1, Pending, None, 0, 100, [], false, 0, false)
      ensures Valid()
    {
      this.name := name;
      this.hasFn := hasFn;
      durable := false;
      concurrency := 1;
      status := Pending;
      queue := None;
      artifactsBuffer := 0;
      errorsBuffer := 100;
      errors := [];
      closed := false;
      channelCloses := 0;
      abortSent := false;
    }

    /** `GetStatus`. */
    function GetStatus(): Status
      reads this
    {
      status
    }

    /** `IsRunning`. */
    predicate IsRunning()
      reads this
    {
      status == Running
    }

    /** `IsRunnable`: validation would pass. */
    predicate IsRunnable(hasDeadline: bool)
      reads this
    {
      ValidationError(hasDeadline, queue.Some?, hasFn).None?
    }

    /** `Durable`: takes effect only while Pending. */
    method Durable()
      modifies this
      ensures State() == old(State()).(durable := old(durable) || old(status) == Pending)
      ensures old(Valid()) ==> Valid()
    {
      if status == Pending {
        durable := true;
      }
    }

    /** `Concurrency(c)`, with the host's CPU count as a parameter. */
    method Concurrency(c: int, numCPU: nat) returns (outcome: Outcome)
      requires numCPU >= 1
      modifies this
      ensures old(status) != Pending ==>
        outcome == Panic(StartedMessage(name, "concurrency")) && State() == old(State())
      ensures old(status) == Pending ==>
        outcome == Done && State() == old(State()).(concurrency := ClampConcurrency(c, MaxConcurrency(numCPU)))
      ensures old(Valid()) ==> Valid()
    {
      if status != Pending {
        return Panic(StartedMessage(name, "concurrency"));
      }
      var n := c;
      if n < 1 {
        n := 1;
      }
      var max := MaxConcurrency(numCPU);
      if n > max {
        n := max;
      }
      concurrency := n;
      return Done;
    }

    /** `BufferedArtifacts(b)`: a new Artifacts channel; a negative size counts as 0. */
    method BufferedArtifacts(b: int) returns (outcome: Outcome)
      modifies this
      ensures old(status) != Pending ==>
        outcome == Panic(StartedMessage(name, "artifact buffer")) && State() == old(State())
      ensures old(status) == Pending ==>
        outcome == Done && State() == old(State()).(artifactsBuffer := if b < 0 then 0 else b)
      ensures old(Valid()) ==> Valid()
    {
      if status != Pending {
        return Panic(StartedMessage(name, "artifact buffer"));
      }
      artifactsBuffer := if b < 0 then 0 else b;
      return Done;
    }

    /** `BufferedErrors(b)`: a new, empty Errors channel; a negative size counts as 0. */
    method BufferedErrors(b: int) returns (outcome: Outcome)
      modifies this
      ensures old(status) != Pending ==>
        outcome == Panic(StartedMessage(name, "error buffer")) && State() == old(State())
      ensures old(status) == Pending ==>
        outcome == Done && State() == old(State()).(errorsBuffer := if b < 0 then 0 else b, errors := [])
      ensures old(Valid()) ==> Valid()
    {
      if status != Pending {
        return Panic(StartedMessage(name, "error buffer"));
      }
      errorsBuffer := if b < 0 then 0 else b;
      errors := [];
      return Done;
    }

    /** `Stream(queue)`: a nil channel panics. */
    method Stream(q: Option<seq<In>>) returns (outcome: Outcome)
      modifies this
      ensures q.None? ==> outcome == Panic("stage " + Quote(name) + ": input stream is nil") && State() == old(State())
      ensures q.Some? ==> outcome == Done && State() == old(State()).(queue := q)
      ensures old(Valid()) ==> Valid()
    {
      if q.None? {
        return Panic("stage " + Quote(name) + ": input stream is nil");
      }
      queue := q;
      return Done;
    }

    /** `Populate(items...)`: a queue holding the items; no items panics. */
    method Populate(items: seq<In>) returns (outcome: Outcome)
      modifies this
      ensures items == [] ==> outcome == Panic("stage " + Quote(name) + ": empty input") && State() == old(State())
      ensures items != [] ==> outcome == Done && State() == old(State()).(queue := Some(items))
      ensures old(Valid()) ==> Valid()
    {
      if items == [] {
        return Panic("stage " + Quote(name) + ": empty input");
      }
      queue := Some(items);
      return Done;
    }

    /** `updateStatus`. */
    method UpdateStatus(next: Status)
      modifies this
      ensures State() == old(State()).(status := Updated(old(status), next))
    {
      if status == Aborted {
        return;
      }
      status := next;
    }

    /** `sendError`: a send that never blocks; the error is dropped when the buffer is full. */
    method SendError(e: UniverseErrors.StageError)
      modifies this
      ensures State() == old(State()).(errors := if |old(errors)| < errorsBuffer then old(errors) + [e] else old(errors))
      ensures old(Valid()) ==> Valid()
    {
      if |errors| < errorsBuffer {
        errors := errors + [e];
      }
    }

    /** `abortStage`: the status becomes Aborted, and the first abort reports an aborted-kind stage error. */
    method AbortStage(cause: GoErrors.Error)
      modifies this
      ensures var e := UniverseErrors.StageError(old(name), cause, UniverseErrors.StageAborted);
        State() == old(State()).(status := Aborted, abortSent := true,
          errors := if !old(abortSent) && |old(errors)| < errorsBuffer then old(errors) + [e] else old(errors))
      ensures old(Valid()) ==> Valid()
    {
      UpdateStatus(Aborted);
      if !abortSent {
        abortSent := true;
        SendError(UniverseErrors.NewStageError(name, cause, UniverseErrors.StageAborted));
      }
    }

    /** `Close`: refused while Pending; otherwise the channels are closed, at most once. */
    method Close() returns (err: Option<GoErrors.Error>)
      requires Valid()
      modifies this
      ensures old(status) == Pending ==>
        err == Some(GoErrors.Plain("stage " + Quote(name) + ": cannot close - stage not started"))
        && State() == old(State())
      ensures old(status) != Pending ==>
        err.None? && State() == old(State()).(closed := true, channelCloses := 1)
      ensures Valid() && channelCloses <= 1
    {
      if status == Pending {
        return Some(GoErrors.Plain("stage " + Quote(name) + ": cannot close - stage not started"));
      }
      if !closed {
        closed := true;
        channelCloses := channelCloses + 1;
      }
      return None;
    }

    /**
     * `finalize`: Aborted (through `abortStage`) on a context error, else Failed on a processing
     * error, else Succeeded; then the channels are closed.
     */
    method Finalize(processErr: Option<GoErrors.Error>, ctxErr: Option<GoErrors.Error>)
      requires Valid() && status != Pending
      modifies this
      ensures Valid() && closed && channelCloses == 1
      ensures status == Updated(old(status), FinalStatus(processErr, ctxErr))
      ensures ctxErr.Some? ==> abortSent
      ensures ctxErr.None? ==> errors == old(errors) && abortSent == old(abortSent)
      ensures ctxErr.Some? && !old(abortSent) && |old(errors)| < errorsBuffer ==>
        errors == old(errors) + [UniverseErrors.StageError(name, ctxErr.value, UniverseErrors.StageAborted)]
      ensures name == old(name) && hasFn == old(hasFn) && durable == old(durable)
      ensures concurrency == old(concurrency) && queue == old(queue)
      ensures artifactsBuffer == old(artifactsBuffer) && errorsBuffer == old(errorsBuffer)
    {
      if ctxErr.Some? {
        AbortStage(ctxErr.value);
      } else if processErr.Some? {
        UpdateStatus(Failed);
      } else {
        UpdateStatus(Succeeded);
      }
      var _ := Close();
    }

    /**
     * `Run`: refused unless Pending; otherwise Running, then Failed with a not-runnable stage
     * error when validation fails, else the processing result handed to `finalize` and returned.
     */
    method Run(hasDeadline: bool, processErr: Option<GoErrors.Error>, ctxErr: Option<GoErrors.Error>)
      returns (err: Option<RunError>)
      requires Valid()
      modifies this
      ensures Valid()
      ensures old(status) != Pending ==>
        err == Some(AlreadyStarted(GoErrors.Plain("stage " + Quote(name) + " already started")))
        && State() == old(State())
      ensures old(status) == Pending && ValidationError(hasDeadline, old(queue).Some?, hasFn).Some? ==>
        err == Some(NotRunnable(UniverseErrors.StageError(name,
          ValidationError(hasDeadline, old(queue).Some?, hasFn).value, UniverseErrors.StageNotRunnable)))
        && State() == old(State()).(status := Failed)
      ensures old(status) == Pending && ValidationError(hasDeadline, old(queue).Some?, hasFn).None? ==>
        (if processErr.Some? then err == Some(Processing(processErr.value)) else err.None?)
        && status == FinalStatus(processErr, ctxErr) && closed && channelCloses == 1
      ensures name == old(name) && hasFn == old(hasFn) && durable == old(durable)
      ensures concurrency == old(concurrency) && queue == old(queue)
    {
      if status != Pending {
        return Some(AlreadyStarted(GoErrors.Plain("stage " + Quote(name) + " already started")));
      }
      UpdateStatus(Running);
      var v := ValidationError(hasDeadline, queue.Some?, hasFn);
      if v.Some? {
        UpdateStatus(Failed);
        return Some(NotRunnable(UniverseErrors.NewStageError(name, v.value, UniverseErrors.StageNotRunnable)));
      }
      Finalize(processErr, ctxErr);
      err := if processErr.Some? then Some(Processing(processErr.value)) else None;
    }
  }

  /**
   * A fresh stage given a queue and a function runs once: a second `Run` is refused and leaves
   * the stage as the first run left it.
   */
  method RunTwice<In>(name: string, items: seq<In>, processErr: Option<GoErrors.Error>)
    returns (first: Option<RunError>, second: Option<RunError>)
    requires items != []
    ensures processErr.None? ==> first.None?
    ensures second.Some? && second.value.AlreadyStarted?
  {
    var s := new Stage<In>(name, true);
    var _ := s.Populate(items);
    first := s.Run(true, processErr, None);
    assert s.status == FinalStatus(processErr, None);
    second := s.Run(true, processErr, None);
  }
}
