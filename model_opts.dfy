/**
 * pkg/registry/models/opts.go: the search options record of the models package, its limit
 * defaults, its validation and the normalisation of its tag lists.
 */
module ModelOpts {
  import opened Wrappers
  import opened GoStrings
  import GoErrors
  import ModelHooks
  import TagLists

  const DefaultLimit: nat := 150
  const MaxLimit: nat := 1000

  /** The limit `Validate` leaves behind: 0 means the default, anything above 1000 is cut. */
  function ClampLimit(limit: nat): (r: nat)
    ensures 1 <= r <= MaxLimit
    ensures 1 <= limit <= MaxLimit ==> r == limit
    ensures limit == 0 ==> r == DefaultLimit
    ensures limit > MaxLimit ==> r == MaxLimit
  {
    if limit == 0 then DefaultLimit else if limit > MaxLimit then MaxLimit else limit
  }

  /** What `normalizeTags` returns: the non-blank normalised tags, each kept once, first copy first. */
  function CleanTags(tags: seq<string>): seq<string>
  {
    TagLists.CleanList(tags, ModelHooks.NormalizeName)
  }

  /**
   * The cleaned list holds no duplicate and no blank, every entry is already normal, and a name
   * is in it exactly when some input tag normalises to it.
   */
  lemma CleanTagsProperties(tags: seq<string>)
    ensures TagLists.NoDup(CleanTags(tags))
    ensures |CleanTags(tags)| <= |tags|
    ensures forall x :: x in CleanTags(tags) <==>
      (x != [] && exists t :: t in tags && ModelHooks.NormalizeName(t) == x)
    ensures forall x :: x in CleanTags(tags) ==> ModelHooks.NormalizeName(x) == x
  {
    TagLists.CleanListProperties(tags, ModelHooks.NormalizeName);
    forall x | x in CleanTags(tags)
      ensures ModelHooks.NormalizeName(x) == x
    {
      var t :| t in tags && ModelHooks.NormalizeName(t) == x;
      ModelHooks.NormalizeNameProperties(t);
    }
  }

  /** Normalising a list that is already clean changes nothing. */
  lemma CleanTagsIdempotent(tags: seq<string>)
    ensures CleanTags(CleanTags(tags)) == CleanTags(tags)
  {
    forall x
      ensures ModelHooks.NormalizeName(ModelHooks.NormalizeName(x)) == ModelHooks.NormalizeName(x)
    {
      ModelHooks.NormalizeNameProperties(x);
    }
    TagLists.CleanListIdempotent(tags, ModelHooks.NormalizeName);
  }

  /** `normalizeTags`: one pass with a `seen` set. */
  method NormalizeTags(tags: seq<string>) returns (result: seq<string>)
    ensures result == CleanTags(tags)
  {
    if |tags| == 0 {
      return tags;
    }
    var seen: set<string> := {};
    result := [];
    var i := 0;
    while i < |tags|
      invariant 0 <= i <= |tags|
      invariant result == TagLists.CleanList(tags[..i], ModelHooks.NormalizeName)
      invariant seen == set x | x in result
    {
      var normalized := ModelHooks.NormalizeName(tags[i]);
      assert tags[..i + 1] == tags[..i] + [tags[i]];
      TagLists.CleanListSnoc(tags[..i], tags[i], ModelHooks.NormalizeName);
      TagLists.SeenSnoc(result, seen, normalized);
      if normalized != [] && normalized !in seen {
        seen := seen + {normalized};
        result := result + [normalized];
      }
      i := i + 1;
    }
    assert tags[..i] == tags;
  }

  /** The fields of the options record, as one value. */
  datatype SearchState = SearchState(cursor: nat, limit: nat, mimeType: string, state: string,
                                     includedTags: seq<string>, excludedTags: seq<string>)

  /** What `NewSearchAssetsOptions` returns. */
  const DefaultSearch := SearchState(0, DefaultLimit, [], [], [], [])

  class SearchAssetsOptions {
    var cursor: nat
    var limit: nat
    var mimeType: string
    var state: string
    var includedTags: seq<string>
    var excludedTags: seq<string>

    function Snapshot(): SearchState
      reads this
    {
      SearchState(cursor, limit, mimeType, state, includedTags, excludedTags)
    }

    /** `NewSearchAssetsOptions`: first page, default limit, no filter. */
    constructor ()
      ensures Snapshot() == DefaultSearch
    {
      cursor := 0;
      limit := DefaultLimit;
      mimeType := [];
      state := [];
      includedTags := [];
      excludedTags := [];
    }

    /**
     * `Validate`: the limit is defaulted and capped (even when an error follows), then a
     * non-empty MIME type must be a valid name, then every included and excluded tag must be.
     */
    method Validate() returns (err: Option<GoErrors.Error>)
      modifies this
      ensures limit == ClampLimit(old(limit))
      ensures cursor == old(cursor) && mimeType == old(mimeType) && state == old(state)
      ensures includedTags == old(includedTags) && excludedTags == old(excludedTags)
      ensures err == ValidationError(mimeType, includedTags + excludedTags)
    {
      limit := ClampLimit(limit);
      err := CheckNames(mimeType, includedTags + excludedTags);
    }

    /** `Normalize`: the MIME type is normalised and both tag lists are cleaned. */
    method Normalize()
      modifies this
      ensures mimeType == ModelHooks.NormalizeName(old(mimeType))
      ensures includedTags == CleanTags(old(includedTags))
      ensures excludedTags == CleanTags(old(excludedTags))
      ensures cursor == old(cursor) && limit == old(limit) && state == old(state)
    {
      mimeType := ModelHooks.NormalizeName(mimeType);
      includedTags := NormalizeTags(includedTags);
      excludedTags := NormalizeTags(excludedTags);
    }

    /** `IsEmpty`: the first page with no filter at all (the limit is not looked at). */
    predicate IsEmpty()
      reads this
    {
      IsEmptySearch(cursor, mimeType, state, includedTags, excludedTags)
    }
  }

  predicate IsEmptySearch(cursor: nat, mimeType: string, state: string, included: seq<string>,
                          excluded: seq<string>)
  {
    cursor == 0 && mimeType == [] && state == [] && |included| == 0 && |excluded| == 0
  }

  /** The name checks of `Validate`, in its order: the MIME type, then each tag. */
  method CheckNames(mimeType: string, tags: seq<string>) returns (err: Option<GoErrors.Error>)
    ensures err == ValidationError(mimeType, tags)
  {
    if mimeType != [] && !ModelHooks.ValidateName(mimeType) {
      return Some(MimeTypeError(mimeType));
    }
    var bad := FindInvalid(tags);
    if bad.Some? {
      return Some(TagNameError(bad.value));
    }
    return None;
  }

  /** The scan over the tags, stopping at the first one that is not a valid name. */
  method FindInvalid(tags: seq<string>) returns (r: Option<string>)
    ensures r == FirstInvalid(tags)
  {
    var i := 0;
    while i < |tags|
      invariant 0 <= i <= |tags|
      invariant FirstInvalid(tags) == FirstInvalid(tags[i..])
    {
      assert tags[i..][1..] == tags[i + 1..];
      if !ModelHooks.ValidateName(tags[i]) {
        return Some(tags[i]);
      }
      i := i + 1;
    }
    return None;
  }

  function MimeTypeError(mimeType: string): GoErrors.Error
  {
    GoErrors.Plain("invalid MIME type format: " + mimeType)
  }

  function TagNameError(tag: string): GoErrors.Error
  {
    GoErrors.Plain("invalid tag name: " + tag)
  }

  /** The first tag that is not a valid name, if any. */
  function FirstInvalid(tags: seq<string>): (r: Option<string>)
    ensures r.None? <==> forall i :: 0 <= i < |tags| ==> ModelHooks.ValidateName(tags[i])
    ensures r.Some? ==> r.value in tags && !ModelHooks.ValidateName(r.value)
  {
    if tags == [] then None
    else if !ModelHooks.ValidateName(tags[0]) then Some(tags[0])
    else FirstInvalid(tags[1..])
  }

  /** The error `Validate` reports for a MIME type and the concatenated tag lists. */
  function ValidationError(mimeType: string, tags: seq<string>): (err: Option<GoErrors.Error>)
    ensures err.None? <==> ((mimeType == [] || ModelHooks.ValidateName(mimeType))
      && forall i :: 0 <= i < |tags| ==> ModelHooks.ValidateName(tags[i]))
  {
    if mimeType != [] && !ModelHooks.ValidateName(mimeType) then
      Some(MimeTypeError(mimeType))
    else match FirstInvalid(tags)
      case None => None
      case Some(t) => Some(TagNameError(t))
  }

  /** A tag list made only of white space normalises to the empty list. */
  lemma BlankTagsNormalizeAway(tags: seq<string>)
    requires forall i :: 0 <= i < |tags| ==> forall k :: 0 <= k < |tags[i]| ==> IsSpace(tags[i][k])
    ensures CleanTags(tags) == []
  {
    CleanTagsProperties(tags);
    if CleanTags(tags) != [] {
      var x := CleanTags(tags)[0];
      assert x in CleanTags(tags);
      var t :| t in tags && ModelHooks.NormalizeName(t) == x;
      TrimSpaceEmpty(t);
    }
  }

  /**
   * After `Normalize`, the options are empty exactly when the cursor is 0, the MIME type and the
   * state are blank once normalised (the state is not normalised, so it must be ""), and every
   * tag normalises to "".
   */
  lemma NormalizedIsEmpty(s: SearchState)
    ensures IsEmptySearch(s.cursor, ModelHooks.NormalizeName(s.mimeType), s.state,
                          CleanTags(s.includedTags), CleanTags(s.excludedTags))
      <==> (s.cursor == 0 && ModelHooks.NormalizeName(s.mimeType) == [] && s.state == []
            && (forall t :: t in s.includedTags ==> ModelHooks.NormalizeName(t) == [])
            && (forall t :: t in s.excludedTags ==> ModelHooks.NormalizeName(t) == []))
  {
    BlankIffCleanEmpty(s.includedTags);
    BlankIffCleanEmpty(s.excludedTags);
  }

  /** A tag list cleans to nothing exactly when every tag in it normalises to "". */
  lemma BlankIffCleanEmpty(tags: seq<string>)
    ensures CleanTags(tags) == [] <==> forall t :: t in tags ==> ModelHooks.NormalizeName(t) == []
  {
    CleanTagsProperties(tags);
    if CleanTags(tags) != [] {
      assert CleanTags(tags)[0] in CleanTags(tags);
    }
    forall t | t in tags
      ensures ModelHooks.NormalizeName(t) == [] || ModelHooks.NormalizeName(t) in CleanTags(tags)
    {
    }
  }
}
