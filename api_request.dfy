/**
 * internal/api/models/request.go: the body and path parameter of `POST /data/:sha256`, whose
 * `Normalize` rewrites the checksum in place and then checks it.
 */
module ApiRequest {
  import opened Wrappers
  import opened GoStrings
  import GoErrors
  import HexCodec
  import UtilsHelpers
  import RegistryHooks

  class CreateDataRequest {
    var sha256: string
    var tag: string

    constructor (sha256: string, tag: string)
      ensures this.sha256 == sha256 && this.tag == tag
    {
      this.sha256 := sha256;
      this.tag := tag;
    }

    /** `Normalize`: stores the trimmed, lower-cased checksum and returns its check. */
    method Normalize() returns (err: Option<GoErrors.Error>)
      modifies this
      ensures sha256 == ToLower(TrimSpace(old(sha256)))
      ensures tag == old(tag)
      ensures err == UtilsHelpers.ValidateSHA256(sha256)
      ensures err.None? <==> |sha256| == 64 && HexCodec.AllHex(sha256)
    {
      var normal := ToLower(TrimSpace(sha256));
      sha256 := normal;
      NormalFormIsTrimmed(old(sha256));
      err := UtilsHelpers.ValidateSHA256(normal);
    }
  }

  /** The normal form has nothing left to trim. */
  lemma NormalFormIsTrimmed(s: string)
    ensures TrimSpace(ToLower(TrimSpace(s))) == ToLower(TrimSpace(s))
  {
    RegistryHooks.NormalizeStringShape(s);
    TrimSpaceOfTrimmed(ToLower(TrimSpace(s)));
  }

  /**
   * A second `Normalize` changes nothing: the stored value is already normal, so the
   * check it returns is the same.
   */
  lemma NormalizeIdempotent(s: string)
    ensures ToLower(TrimSpace(ToLower(TrimSpace(s)))) == ToLower(TrimSpace(s))
    ensures UtilsHelpers.ValidateSHA256(ToLower(TrimSpace(ToLower(TrimSpace(s)))))
         == UtilsHelpers.ValidateSHA256(ToLower(TrimSpace(s)))
  {
    RegistryHooks.NormalizeStringIdempotent(s);
  }

  /** A normalised request that passes holds 64 lower-case hex digits. */
  lemma NormalizedIsLowerHex(s: string)
    requires UtilsHelpers.ValidateSHA256(ToLower(TrimSpace(s))).None?
    ensures var c := ToLower(TrimSpace(s));
      |c| == 64 && forall i :: 0 <= i < 64 ==> c[i] in HexCodec.LowerDigits
  {
    RegistryHooks.NormalChecksumIsLowerHex(s);
  }
}
