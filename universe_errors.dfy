/**
 * pkg/universe/errors.go: the error a pipeline stage reports, carrying the stage name, the cause
 * and a kind. The kind is a `uint8`; the four declared kinds are 0..3 and any other value is
 * rendered with the generic word "error".
 */
module UniverseErrors {
  import opened GoStrings
  import GoErrors

  type Kind = k: int | 0 <= k < 256

  const StageNotRunnable: Kind := 0
  const StageExecutionFailed: Kind := 1
  const StageAborted: Kind := 2
  const StagePanic: Kind := 3

  datatype StageError = StageError(stage: string, cause: GoErrors.Error, kind: Kind)

  /** The words `Error()` puts between the quoted stage name and the cause. */
  function KindText(kind: Kind): string
  {
    if kind == StageNotRunnable then "is not runnable"
    else if kind == StageExecutionFailed then "failed"
    else if kind == StageAborted then "aborted"
    else if kind == StagePanic then "panic"
    else "error"
  }

  /** `(*StageError).Error`: `%q <words>: %v`. */
  function Message(e: StageError): (r: string)
    ensures HasPrefix(r, Quote(e.stage) + " ")
    ensures HasSuffix(r, ": " + GoErrors.Message(e.cause))
  {
    Quote(e.stage) + " " + KindText(e.kind) + ": " + GoErrors.Message(e.cause)
  }

  /** `NewStageError`: the constructor's arguments, all kept. */
  function NewStageError(stage: string, cause: GoErrors.Error, kind: Kind): (e: StageError)
    ensures Stage(e) == stage && Unwrap(e) == cause && KindOf(e) == kind
  {
    StageError(stage, cause, kind)
  }

  /** `Unwrap`: the cause, so `errors.Is` sees through a stage error. */
  function Unwrap(e: StageError): GoErrors.Error { e.cause }

  /** `Stage()`. */
  function Stage(e: StageError): string { e.stage }

  /** `Kind()`. */
  function KindOf(e: StageError): Kind { e.kind }

  /**
   * Two stage errors with the same name and cause render differently whenever their kinds are
   * different declared kinds, or one is declared and the other is not.
   */
  lemma MessageTellsKinds(stage: string, cause: GoErrors.Error, k1: Kind, k2: Kind)
    requires k1 != k2 && (k1 <= StagePanic || k2 <= StagePanic)
    ensures Message(StageError(stage, cause, k1)) != Message(StageError(stage, cause, k2))
  {
    var p := Quote(stage) + " ";
    var s := ": " + GoErrors.Message(cause);
    var m1, m2 := Message(StageError(stage, cause, k1)), Message(StageError(stage, cause, k2));
    assert m1 == p + KindText(k1) + s && m2 == p + KindText(k2) + s;
    KindTextsDistinct(k1, k2);
    AffixesKeepDifference(p, KindText(k1), KindText(k2), s);
  }

  lemma AffixesKeepDifference(p: string, a: string, b: string, s: string)
    requires a != b
    ensures p + a + s != p + b + s
  {
    if |a| == |b| {
      var i :| 0 <= i < |a| && a[i] != b[i];
      assert (p + a + s)[|p| + i] == a[i];
      assert (p + b + s)[|p| + i] == b[i];
    }
  }

  lemma KindTextsDistinct(k1: Kind, k2: Kind)
    requires k1 != k2 && (k1 <= StagePanic || k2 <= StagePanic)
    ensures KindText(k1) != KindText(k2)
  {
  }

  /** Every undeclared kind renders the same way as kind 4. */
  lemma UnknownKindsAlike(stage: string, cause: GoErrors.Error, k: Kind)
    requires k > StagePanic
    ensures Message(StageError(stage, cause, k)) == Quote(stage) + " error: " + GoErrors.Message(cause)
  {
  }
}
