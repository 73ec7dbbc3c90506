/**
 * pkg/registry/search.go: the asset search query and the functional options that fill it in.
 * A Go option is a closure over its arguments; here it is a value of `SearchAssetsOption` that
 * `SearchAssetsQuery.Apply` interprets.
 */
module RegistrySearch {
  import opened Wrappers
  import GoErrors
  import RegistryHooks
  import TagLists

  const SearchDefaultLimit: nat := 150
  const SearchMaxLimit: nat := 1000

  datatype SearchAssetsOption =
    | WithCursor(cursor: nat)
    | WithLimit(limit: nat)
    | WithMimeType(mimeType: string)
    | WithState(state: string)
    | WithIncludedTags(tags: seq<string>)
    | WithExcludedTags(tags: seq<string>)
    | WithChecksums(checksums: seq<string>)

  const ErrBlankTag := GoErrors.Plain("tag cannot be empty or whitespace")
  const ErrLimitZero := GoErrors.Plain("limit must be greater than 0")
  const ErrLimitTooLarge := GoErrors.Plain("limit cannot exceed 1000")
  const ErrBlankMimeType := GoErrors.Plain("mime type cannot be empty")
  const ErrNoIncludedTag := GoErrors.Plain("at least one included tag must be provided")
  const ErrNoExcludedTag := GoErrors.Plain("at least one excluded tag must be provided")
  const ErrNoChecksum := GoErrors.Plain("at least one excluded checksum must be provided")

  /** A cleaned tag list: no blank, nothing left to normalise, no duplicate. */
  predicate CleanTagList(tags: seq<string>)
  {
    TagLists.IsClean(tags, RegistryHooks.NormalizeString)
  }

  /**
   * The tag arguments of WithIncludedTags/WithExcludedTags: refused when any of them normalises
   * to "", otherwise normalised and deduplicated keeping first occurrences.
   */
  function CleanTagArgs(tags: seq<string>): (r: Result<seq<string>, GoErrors.Error>)
    ensures r.Fail? ==> r.error == ErrBlankTag
  {
    if TagLists.FirstBlank(tags, RegistryHooks.NormalizeString) < |tags| then Fail(ErrBlankTag)
    else Ok(TagLists.CleanList(tags, RegistryHooks.NormalizeString))
  }

  /**
   * The tag arguments are refused exactly when one of them is blank once normalised; otherwise
   * the result is clean, no longer than the input, and holds exactly the normalised arguments.
   */
  lemma CleanTagArgsProperties(tags: seq<string>)
    ensures CleanTagArgs(tags).Fail? <==> exists i :: 0 <= i < |tags| && RegistryHooks.NormalizeString(tags[i]) == []
    ensures var r := CleanTagArgs(tags);
      r.Ok? ==> (CleanTagList(r.value) && |r.value| <= |tags|
        && forall x :: x in r.value <==> exists t :: t in tags && RegistryHooks.NormalizeString(t) == x)
  {
    CleanProperties(tags);
    TagLists.FirstBlankSpec(tags, RegistryHooks.NormalizeString);
  }

  /** A non-empty tag argument list is accepted exactly when no tag in it is blank. */
  lemma CleanTagArgsAccepts(tags: seq<string>)
    requires tags != []
    ensures CleanTagArgs(tags).Ok? <==> NoBlankTag(tags)
  {
    TagLists.FirstBlankSpec(tags, RegistryHooks.NormalizeString);
  }

  lemma CleanProperties(tags: seq<string>)
    ensures var c := TagLists.CleanList(tags, RegistryHooks.NormalizeString);
      CleanTagList(c) && |c| <= |tags|
      && forall x :: x in c <==> x != [] && exists t :: t in tags && RegistryHooks.NormalizeString(t) == x
  {
    forall x
      ensures RegistryHooks.NormalizeString(RegistryHooks.NormalizeString(x)) == RegistryHooks.NormalizeString(x)
    {
      RegistryHooks.NormalizeStringIdempotent(x);
    }
    TagLists.CleanListProperties(tags, RegistryHooks.NormalizeString);
    TagLists.CleanListIsClean(tags, RegistryHooks.NormalizeString);
  }

  /** The fields of a query, as one value. */
  datatype Query = Query(cursor: nat, limit: nat, mimeType: string, state: string,
                         includedTags: seq<string>, excludedTags: seq<string>, checkSums: seq<string>)

  /** What every accepted option keeps: a limit in 1..1000, a normal MIME type, clean tag lists. */
  predicate ValidQuery(q: Query)
  {
    1 <= q.limit <= SearchMaxLimit
    && RegistryHooks.NormalizeString(q.mimeType) == q.mimeType
    && CleanTagList(q.includedTags) && CleanTagList(q.excludedTags)
  }

  /** The query `NewSearchAssetsQuery` starts from. */
  const DefaultQuery := Query(0, SearchDefaultLimit, [], [], [], [], [])

  /**
   * One option applied to a query: its error, or the query with that option's own field set.
   */
  function ApplyOption(opt: SearchAssetsOption, q: Query): Result<Query, GoErrors.Error>
  {
    match opt
    case WithCursor(c) => Ok(q.(cursor := c))
    case WithLimit(l) =>
      if l == 0 then Fail(ErrLimitZero)
      else if l > SearchMaxLimit then Fail(ErrLimitTooLarge)
      else Ok(q.(limit := l))
    case WithMimeType(m) =>
      var normalized := RegistryHooks.NormalizeString(m);
      if normalized == [] then Fail(ErrBlankMimeType)
      else Ok(q.(mimeType := normalized))
    case WithState(st) => Ok(q.(state := st))
    case WithIncludedTags(tags) =>
      (match TagOption(tags, ErrNoIncludedTag)
        case Fail(e) => Fail(e)
        case Ok(c) => Ok(q.(includedTags := c)))
    case WithExcludedTags(tags) =>
      (match TagOption(tags, ErrNoExcludedTag)
        case Fail(e) => Fail(e)
        case Ok(c) => Ok(q.(excludedTags := c)))
    case WithChecksums(sums) =>
      if |sums| == 0 then Fail(ErrNoChecksum)
      else Ok(q.(checkSums := sums))
  }

  /** The argument check shared by the two tag options: an empty list, then a blank tag. */
  function TagOption(tags: seq<string>, errEmpty: GoErrors.Error): Result<seq<string>, GoErrors.Error>
  {
    if |tags| == 0 then Fail(errEmpty) else CleanTagArgs(tags)
  }

  /**
   * What each option demands of its argument: a limit in 1..1000, a MIME type that is not blank,
   * a non-empty tag list without a blank tag, a non-empty checksum list; the cursor and state
   * options take anything.
   */
  predicate Acceptable(opt: SearchAssetsOption)
  {
    match opt
    case WithLimit(l) => 1 <= l <= SearchMaxLimit
    case WithMimeType(m) => RegistryHooks.NormalizeString(m) != []
    case WithIncludedTags(tags) => NoBlankTag(tags)
    case WithExcludedTags(tags) => NoBlankTag(tags)
    case WithChecksums(sums) => sums != []
    case _ => true
  }

  predicate NoBlankTag(tags: seq<string>)
  {
    tags != [] && forall i :: 0 <= i < |tags| ==> RegistryHooks.NormalizeString(tags[i]) != []
  }

  /**
   * Every option is refused exactly when its argument is not acceptable, and keeps a valid
   * query valid.
   */
  lemma ApplyOptionProperties(opt: SearchAssetsOption, q: Query)
    requires ValidQuery(q)
    ensures ApplyOption(opt, q).Ok? <==> Acceptable(opt)
    ensures ApplyOption(opt, q).Ok? ==> ValidQuery(ApplyOption(opt, q).value)
  {
    ApplyOptionKeepsValid(opt, q);
    match opt
    case WithIncludedTags(tags) =>
      TagOptionProperties(tags, ErrNoIncludedTag);
    case WithExcludedTags(tags) =>
      TagOptionProperties(tags, ErrNoExcludedTag);
    case _ =>
  }

  lemma ApplyOptionKeepsValid(opt: SearchAssetsOption, q: Query)
    requires ValidQuery(q)
    ensures ApplyOption(opt, q).Ok? ==> ValidQuery(ApplyOption(opt, q).value)
  {
    match opt
    case WithMimeType(m) =>
      RegistryHooks.NormalizeStringIdempotent(m);
    case WithIncludedTags(tags) =>
      TagOptionProperties(tags, ErrNoIncludedTag);
    case WithExcludedTags(tags) =>
      TagOptionProperties(tags, ErrNoExcludedTag);
    case _ =>
  }

  /** On a non-empty list the tag options' check is the blank-tag check alone. */
  lemma TagOptionNonEmpty(tags: seq<string>, errEmpty: GoErrors.Error)
    requires tags != []
    ensures TagOption(tags, errEmpty) == CleanTagArgs(tags)
  {
  }

  /** The included-tags option writes the checked list into `includedTags`, or passes the refusal on. */
  lemma IncludedTagsUnfold(tags: seq<string>, q: Query)
    ensures ApplyOption(WithIncludedTags(tags), q)
         == match TagOption(tags, ErrNoIncludedTag) case Fail(e) => Fail(e) case Ok(c) => Ok(q.(includedTags := c))
  {
  }

  /** The excluded-tags option writes the checked list into `excludedTags`, or passes the refusal on. */
  lemma ExcludedTagsUnfold(tags: seq<string>, q: Query)
    ensures ApplyOption(WithExcludedTags(tags), q)
         == match TagOption(tags, ErrNoExcludedTag) case Fail(e) => Fail(e) case Ok(c) => Ok(q.(excludedTags := c))
  {
  }

  /** On a non-empty list, the included-tags option sets that list to the cleaned arguments or is refused. */
  lemma IncludedTagsApplied(tags: seq<string>, q: Query)
    requires tags != []
    ensures ApplyOption(WithIncludedTags(tags), q)
         == if CleanTagArgs(tags).Fail? then Fail(ErrBlankTag) else Ok(q.(includedTags := CleanTagArgs(tags).value))
  {
    TagOptionNonEmpty(tags, ErrNoIncludedTag);
    IncludedTagsUnfold(tags, q);
  }

  /** Likewise the excluded-tags option. */
  lemma ExcludedTagsApplied(tags: seq<string>, q: Query)
    requires tags != []
    ensures ApplyOption(WithExcludedTags(tags), q)
         == if CleanTagArgs(tags).Fail? then Fail(ErrBlankTag) else Ok(q.(excludedTags := CleanTagArgs(tags).value))
  {
    TagOptionNonEmpty(tags, ErrNoExcludedTag);
    ExcludedTagsUnfold(tags, q);
  }

  /** A tag option is accepted exactly on a non-empty list without a blank, and yields a clean list. */
  lemma TagOptionProperties(tags: seq<string>, errEmpty: GoErrors.Error)
    ensures TagOption(tags, errEmpty).Ok? <==> NoBlankTag(tags)
    ensures TagOption(tags, errEmpty).Ok? ==> CleanTagList(TagOption(tags, errEmpty).value)
  {
    CleanTagArgsProperties(tags);
  }

  class SearchAssetsQuery {
    var cursor: nat
    var limit: nat
    var mimeType: string
    var state: string
    var includedTags: seq<string>
    var excludedTags: seq<string>
    var checkSums: seq<string>

    function Fields(): Query
      reads this
    {
      Query(cursor, limit, mimeType, state, includedTags, excludedTags, checkSums)
    }

    /** The defaults `NewSearchAssetsQuery` starts from. */
    constructor ()
      ensures Fields() == DefaultQuery
    {
      cursor := 0;
      limit := SearchDefaultLimit;
      mimeType := [];
      state := [];
      includedTags := [];
      excludedTags := [];
      checkSums := [];
    }

    /** Runs one option: a refused option leaves the query as it was. */
    method Apply(opt: SearchAssetsOption) returns (err: Option<GoErrors.Error>)
      modifies this
      ensures match ApplyOption(opt, old(Fields()))
        case Fail(e) => err == Some(e) && Fields() == old(Fields())
        case Ok(q) => err.None? && Fields() == q
    {
      match opt {
        case WithCursor(c) =>
          cursor := c;
        case WithLimit(l) =>
          if l == 0 {
            return Some(ErrLimitZero);
          }
          if l > SearchMaxLimit {
            return Some(ErrLimitTooLarge);
          }
          limit := l;
        case WithMimeType(m) =>
          var normalized := RegistryHooks.NormalizeString(m);
          if normalized == [] {
            return Some(ErrBlankMimeType);
          }
          mimeType := normalized;
        case WithState(s) =>
          state := s;
        case WithIncludedTags(tags) =>
          var r := CheckTags(tags, ErrNoIncludedTag);
          if r.Fail? {
            return Some(r.error);
          }
          includedTags := r.value;
        case WithExcludedTags(tags) =>
          var r := CheckTags(tags, ErrNoExcludedTag);
          if r.Fail? {
            return Some(r.error);
          }
          excludedTags := r.value;
        case WithChecksums(sums) =>
          if |sums| == 0 {
            return Some(ErrNoChecksum);
          }
          checkSums := sums;
      }
      return None;
    }
  }

  /** The tag options' argument check, cleaning the list in one pass. */
  method CheckTags(tags: seq<string>, errEmpty: GoErrors.Error) returns (r: Result<seq<string>, GoErrors.Error>)
    ensures r == TagOption(tags, errEmpty)
  {
    if |tags| == 0 {
      return Fail(errEmpty);
    }
    var cleaned := TagLists.CleanOrBlank(tags, RegistryHooks.NormalizeString);
    if cleaned.None? {
      return Fail(ErrBlankTag);
    }
    return Ok(cleaned.value);
  }

  /** The options applied in order, stopping at the first refusal. */
  function ApplyAll(opts: seq<SearchAssetsOption>, q: Query): Result<Query, GoErrors.Error>
  {
    if opts == [] then Ok(q)
    else match ApplyOption(opts[0], q)
      case Fail(e) => Fail(e)
      case Ok(q1) => ApplyAll(opts[1..], q1)
  }

  /** Whatever options are given, a query that comes out is valid. */
  lemma {:induction false} ApplyAllValid(opts: seq<SearchAssetsOption>, q: Query)
    requires ValidQuery(q)
    ensures ApplyAll(opts, q).Ok? ==> ValidQuery(ApplyAll(opts, q).value)
  {
    if opts != [] {
      ApplyOptionKeepsValid(opts[0], q);
      if ApplyOption(opts[0], q).Ok? {
        ApplyAllValid(opts[1..], ApplyOption(opts[0], q).value);
      }
    }
  }

  /**
   * `NewSearchAssetsQuery`: the defaults, then every option in order; the first refused option
   * ends the call with its error wrapped in "failed to apply option".
   */
  method NewSearchAssetsQuery(opts: seq<SearchAssetsOption>) returns (q: SearchAssetsQuery?, err: Option<GoErrors.Error>)
    ensures match ApplyAll(opts, DefaultQuery)
      case Fail(e) => q == null && err == Some(GoErrors.Wrapf("failed to apply option", e))
      case Ok(v) => err.None? && q != null && fresh(q) && q.Fields() == v
  {
    var query := new SearchAssetsQuery();
    var i := 0;
    while i < |opts|
      invariant 0 <= i <= |opts|
      invariant fresh(query)
      invariant ApplyAll(opts, DefaultQuery) == ApplyAll(opts[i..], query.Fields())
    {
      assert opts[i..][1..] == opts[i + 1..];
      var e := query.Apply(opts[i]);
      if e.Some? {
        return null, Some(GoErrors.Wrapf("failed to apply option", e.value));
      }
      i := i + 1;
    }
    return query, None;
  }

  /** A query `NewSearchAssetsQuery` returns has a limit in 1..1000 and clean tag lists. */
  lemma NewQueryValid(opts: seq<SearchAssetsOption>, v: Query)
    requires ApplyAll(opts, DefaultQuery) == Ok(v)
    ensures ValidQuery(v)
  {
    UnfilteredValid(DefaultQuery);
    ApplyAllValid(opts, DefaultQuery);
  }

  /** A query with a limit in range, no MIME type and no tag filter is valid. */
  lemma UnfilteredValid(q: Query)
    requires 1 <= q.limit <= SearchMaxLimit && q.mimeType == [] && q.includedTags == [] && q.excludedTags == []
    ensures ValidQuery(q)
  {
    NormalizeEmpty();
    assert CleanTagList(q.includedTags) && CleanTagList(q.excludedTags);
  }

  lemma NormalizeEmpty()
    ensures RegistryHooks.NormalizeString([]) == []
  {
    RegistryHooks.NormalizeStringShape([]);
  }
}
