/**
 * internal/web/api/dto/response.go: the web API's error responses. `HandleErrorResponse` builds
 * the error body from the error's text and answers with the status of the first class the
 * error falls in: an oversized body, a client mistake, a missing asset or tag, existing assets,
 * an existing asset, tag or dataset, or else an internal error.
 */
module WebDto {
  import opened Wrappers
  import GoErrors
  import D = WebDataAssets

  const ErrInvalidUri := GoErrors.Sentinel("web/api/dto.ErrInvalidUri", "Invalid URI parameters")
  const ErrInvalidPayload := GoErrors.Sentinel("web/api/dto.ErrInvalidPayload", "Invalid payload")

  /**
   * The `ErrValidation` of internal/registry. That package's hooks file is not part of this
   * model: only the sentinel's identity is used, and its text is taken to be the same as the
   * public registry's.
   */
  const ErrInternalValidation := GoErrors.Sentinel("internal/registry.ErrValidation", "validation error")

  const StatusBadRequest: nat := 400
  const StatusNotFound: nat := 404
  const StatusConflict: nat := 409
  const StatusContentTooLarge: nat := 413
  const StatusInternalError: nat := 500

  /** The optional `details` map: absent, `max_bytes`, or `checksums`. */
  datatype Details = NoDetails | MaxBytesLimit(maxBytes: int) | ExistingChecksums(checksums: seq<string>)

  datatype ErrorDetails = ErrorDetails(message: string, details: Details)

  /** `ResponseMetadata`; the clock and the request context supply it, so it is a parameter. */
  datatype ResponseMetadata = ResponseMetadata(timestamp: string, requestId: string, path: string)

  datatype ErrorResponse = ErrorResponse(message: string, error: ErrorDetails, meta: ResponseMetadata)

  /** `NewErrorResponse`: the caller's message, and the error's own text as the details message. */
  function NewErrorResponse(meta: ResponseMetadata, msg: string, err: GoErrors.Error): (r: ErrorResponse)
    ensures r.message == msg && r.meta == meta
    ensures r.error.message == GoErrors.Message(err) && r.error.details == NoDetails
  {
    ErrorResponse(msg, ErrorDetails(GoErrors.Message(err), NoDetails), meta)
  }

  /** The client-mistake class: an invalid URI or payload, or a failed validation. */
  predicate IsBadRequest(err: GoErrors.Error)
  {
    GoErrors.Is(err, ErrInvalidUri) || GoErrors.Is(err, ErrInvalidPayload) || GoErrors.Is(err, ErrInternalValidation)
  }

  predicate IsNotFound(err: GoErrors.Error)
  {
    GoErrors.Is(err, D.ErrAssetNotFound) || GoErrors.Is(err, D.ErrTagNotFound)
  }

  predicate IsAlreadyExists(err: GoErrors.Error)
  {
    GoErrors.Is(err, D.ErrAssetAlreadyExists) || GoErrors.Is(err, D.ErrTagAlreadyExists)
    || GoErrors.Is(err, D.ErrDatasetAlreadyExists)
  }

  /** The status of the first class, in the `switch`'s order, that the error falls in. */
  function StatusOf(err: GoErrors.Error): nat
  {
    if GoErrors.AsMaxBytes(err).Some? then StatusContentTooLarge
    else if IsBadRequest(err) then StatusBadRequest
    else if IsNotFound(err) then StatusNotFound
    else if GoErrors.AsAssetsExists(err).Some? then StatusConflict
    else if IsAlreadyExists(err) then StatusConflict
    else StatusInternalError
  }

  /**
   * Each status answers exactly its class once the earlier classes are ruled out: an oversized
   * body wins over everything, and 500 is left for an error in no class at all.
   */
  lemma StatusOfProperties(err: GoErrors.Error)
    ensures StatusOf(err) in {413, 400, 404, 409, 500}
    ensures StatusOf(err) == 413 <==> GoErrors.AsMaxBytes(err).Some?
    ensures StatusOf(err) == 400 <==> GoErrors.AsMaxBytes(err).None? && IsBadRequest(err)
    ensures StatusOf(err) == 404 <==> GoErrors.AsMaxBytes(err).None? && !IsBadRequest(err) && IsNotFound(err)
    ensures StatusOf(err) == 409 <==>
      (GoErrors.AsMaxBytes(err).None? && !IsBadRequest(err) && !IsNotFound(err)
       && (GoErrors.AsAssetsExists(err).Some? || IsAlreadyExists(err)))
    ensures StatusOf(err) == 500 <==>
      (GoErrors.AsMaxBytes(err).None? && !IsBadRequest(err) && !IsNotFound(err)
       && GoErrors.AsAssetsExists(err).None? && !IsAlreadyExists(err))
  {
  }

  /** The error details the response carries: rewritten for an oversized body, extended for existing assets. */
  function DetailsOf(err: GoErrors.Error): ErrorDetails
  {
    match GoErrors.AsMaxBytes(err)
    case Some(limit) => ErrorDetails(GoErrors.Message(GoErrors.MaxBytes(limit)), MaxBytesLimit(limit))
    case None =>
      if !IsBadRequest(err) && !IsNotFound(err) && GoErrors.AsAssetsExists(err).Some? then
        ErrorDetails(GoErrors.Message(err), ExistingChecksums(GoErrors.AsAssetsExists(err).value))
      else ErrorDetails(GoErrors.Message(err), NoDetails)
  }

  /**
   * `HandleErrorResponse`: one status, from `StatusOf`, and one body: the caller's message, the
   * metadata, and the details `DetailsOf` gives.
   */
  method HandleErrorResponse(meta: ResponseMetadata, msg: string, err: GoErrors.Error)
      returns (status: nat, response: ErrorResponse)
    ensures status == StatusOf(err)
    ensures response == ErrorResponse(msg, DetailsOf(err), meta)
  {
    response := NewErrorResponse(meta, msg, err);
    var maxBytes := GoErrors.AsMaxBytes(err);
    var exists_ := GoErrors.AsAssetsExists(err);
    if maxBytes.Some? {
      response := response.(error := response.error.(message := GoErrors.Message(GoErrors.MaxBytes(maxBytes.value)),
                                                     details := MaxBytesLimit(maxBytes.value)));
      status := StatusContentTooLarge;
    } else if IsBadRequest(err) {
      status := StatusBadRequest;
    } else if IsNotFound(err) {
      status := StatusNotFound;
    } else if exists_.Some? {
      response := response.(error := response.error.(details := ExistingChecksums(exists_.value)));
      status := StatusConflict;
    } else if IsAlreadyExists(err) {
      status := StatusConflict;
    } else {
      status := StatusInternalError;
    }
  }

  /** The details message is the error's text, except for an oversized body, whose is the limit error's. */
  lemma DetailsMessage(err: GoErrors.Error)
    ensures GoErrors.AsMaxBytes(err).None? ==> DetailsOf(err).message == GoErrors.Message(err)
    ensures GoErrors.AsMaxBytes(err).Some? ==>
      DetailsOf(err) == ErrorDetails("http: request body too large", MaxBytesLimit(GoErrors.AsMaxBytes(err).value))
    ensures StatusOf(err) == 409 && GoErrors.AsAssetsExists(err).Some? ==>
      DetailsOf(err).details == ExistingChecksums(GoErrors.AsAssetsExists(err).value)
  {
  }

  /** None of the handled sentinels is a prefixed wrap, so wrapping an error keeps its class. */
  lemma {:induction false} StatusSeesThroughWrap(prefix: string, err: GoErrors.Error)
    ensures StatusOf(GoErrors.Wrapf(prefix, err)) == StatusOf(err)
    ensures GoErrors.AsAssetsExists(GoErrors.Wrapf(prefix, err)) == GoErrors.AsAssetsExists(err)
  {
  }

  /**
   * A bind failure joined after `ErrInvalidPayload` is answered with 413 when the body was too
   * large and with 400 otherwise, never with 500.
   */
  lemma BindFailureStatus(bindErr: GoErrors.Error)
    ensures StatusOf(GoErrors.Joinf(ErrInvalidPayload, bindErr)) ==
      if GoErrors.AsMaxBytes(bindErr).Some? then 413 else 400
  {
  }
}
