/**
 * pkg/registry/models/metadata.go: `AssetMetadata.Validate`, a chain of guards on the MIME
 * type and the size; the extra map is carried but never looked at.
 */
module AssetMetadata {
  import opened Wrappers
  import opened JsonValues
  import GoErrors

  datatype Metadata = Metadata(mimeType: string, sizeBytes: int, extra: map<string, Value>)

  const ErrMimeRequired := GoErrors.Plain("mime_type is required")
  const ErrMimeFormat := GoErrors.Plain("mime_type must be in format 'type/subtype'")
  const ErrSize := GoErrors.Plain("size_bytes must be greater than 0")

  /** `Validate`: the first failing guard, in the order MIME present, MIME has '/', size positive. */
  function Validate(m: Metadata): (err: Option<GoErrors.Error>)
    ensures err.None? <==> m.mimeType != "" && '/' in m.mimeType && m.sizeBytes > 0
    ensures m.mimeType == "" ==> err == Some(ErrMimeRequired)
    ensures m.mimeType != "" && '/' !in m.mimeType ==> err == Some(ErrMimeFormat)
    ensures '/' in m.mimeType && m.sizeBytes <= 0 ==> err == Some(ErrSize)
  {
    if m.mimeType == "" then Some(ErrMimeRequired)
    else if '/' !in m.mimeType then Some(ErrMimeFormat)
    else if m.sizeBytes <= 0 then Some(ErrSize)
    else None
  }

  /** The verdict does not depend on Extra. */
  lemma ValidateIgnoresExtra(m: Metadata, extra: map<string, Value>)
    ensures Validate(m.(extra := extra)) == Validate(m)
  {
  }
}
