/**
 * internal/actions/analyze.go: the decision `handleAnalysisResult` takes once the analysed files
 * are split into successes and failures, and the approval it may ask for
 * (internal/actions/interactive.go). The partition of the stream is given as its result; what
 * the terminal answers is an oracle.
 */
module ActionsAnalyze {
  import opened Wrappers
  import GoErrors
  import GoStrings

  const ErrNoSuccess := GoErrors.Plain("no files were successfully analyzed")
  const ErrNotInteractive := GoErrors.Plain("approval required but stdin is not interactive")

  function AbortError(failures: nat): GoErrors.Error
  {
    GoErrors.Plain("aborted due to " + GoStrings.Itoa(failures) + " analysis failures")
  }

  /** What the terminal gives when approval is asked for. */
  datatype Stdin =
    | StatFailed(statErr: GoErrors.Error)
      /** Standard input is not a character device. */
    | NotInteractive
      /** The context ends before an answer arrives. */
    | Cancelled(ctxErr: GoErrors.Error)
      /** The word read from the terminal. */
    | Answered(word: string)

  /**
   * `AskForApproval`: approved at once when `assumeYes`; otherwise the terminal is asked, and
   * only "y" or "yes", in any case and surrounded by any white space, approves.
   */
  function AskForApproval(assumeYes: bool, stdin: Stdin): (r: Result<bool, GoErrors.Error>)
    ensures assumeYes ==> r == Ok(true)
    ensures !assumeYes && stdin.Answered? ==>
      r == Ok(var w := GoStrings.ToLower(GoStrings.TrimSpace(stdin.word)); w == "y" || w == "yes")
    ensures !assumeYes && !stdin.Answered? ==> r.Fail?
  {
    if assumeYes then Ok(true)
    else match stdin
      case StatFailed(e) => Fail(e)
      case NotInteractive => Fail(ErrNotInteractive)
      case Cancelled(e) => Fail(e)
      case Answered(word) =>
        var w := GoStrings.ToLower(GoStrings.TrimSpace(word));
        Ok(w == "y" || w == "yes")
  }

  /** The three results of `handleAnalysisResult`. */
  datatype AnalysisResult<T> = AnalysisResult(success: seq<T>, failure: seq<T>, err: Option<GoErrors.Error>)

  /**
   * `handleAnalysisResult`: a partition error is returned as it is; no success is an error; no
   * failure is accepted; a mixed result is put to the user, with `interactive` passed as
   * `assumeYes`, and a refusal is an error naming the failure count.
   */
  function HandleAnalysisResult<T>(success: seq<T>, failures: seq<T>, partitionErr: Option<GoErrors.Error>,
                                   interactive: bool, stdin: Stdin): AnalysisResult<T>
  {
    if partitionErr.Some? then AnalysisResult(success, failures, partitionErr)
    else if |success| == 0 then AnalysisResult(success, failures, Some(ErrNoSuccess))
    else if |failures| == 0 then AnalysisResult(success, failures, None)
    else match AskForApproval(interactive, stdin)
      case Fail(e) => AnalysisResult(success, failures, Some(e))
      case Ok(approved) =>
        if !approved then AnalysisResult(success, failures, Some(AbortError(|failures|)))
        else AnalysisResult(success, failures, None)
  }

  /**
   * Every branch hands back the partition unchanged; the run is accepted exactly when the
   * partition succeeded, something was analysed, and either nothing failed or the user
   * approved; a refusal names the number of failures.
   */
  lemma HandleAnalysisProperties<T>(success: seq<T>, failures: seq<T>, partitionErr: Option<GoErrors.Error>,
                                    interactive: bool, stdin: Stdin)
    ensures var r := HandleAnalysisResult(success, failures, partitionErr, interactive, stdin);
      && r.success == success && r.failure == failures
      && (partitionErr.Some? ==> r.err == partitionErr)
      && (partitionErr.None? && |success| == 0 ==> r.err == Some(ErrNoSuccess))
      && (r.err.None? <==>
            partitionErr.None? && |success| > 0
            && (|failures| == 0 || AskForApproval(interactive, stdin) == Ok(true)))
      && (partitionErr.None? && |success| > 0 && |failures| > 0 && AskForApproval(interactive, stdin) == Ok(false) ==>
            r.err == Some(AbortError(|failures|)))
  {
  }

  /** With nothing failed, or nothing to accept, the terminal is never consulted. */
  lemma NoPromptWithoutMixedResult<T>(success: seq<T>, failures: seq<T>, partitionErr: Option<GoErrors.Error>,
                                      interactive: bool, stdin1: Stdin, stdin2: Stdin)
    requires partitionErr.Some? || |success| == 0 || |failures| == 0
    ensures HandleAnalysisResult(success, failures, partitionErr, interactive, stdin1)
         == HandleAnalysisResult(success, failures, partitionErr, interactive, stdin2)
  {
  }

  /**
   * Interactive runs approve a mixed result without asking, whatever the terminal would say;
   * only non-interactive runs ask.
   */
  lemma InteractiveAutoApproves<T>(success: seq<T>, failures: seq<T>, stdin: Stdin)
    requires |success| > 0 && |failures| > 0
    ensures HandleAnalysisResult(success, failures, None, true, stdin).err.None?
    ensures HandleAnalysisResult(success, failures, None, false, NotInteractive).err == Some(ErrNotInteractive)
  {
  }
}
