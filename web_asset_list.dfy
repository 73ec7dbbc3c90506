/**
 * internal/web/api/handlers/v1/asset_get_list.go: the web asset-list endpoint's two helpers.
 * `NewAssetListGetResponseData` turns the listed assets into response items and decides the
 * next cursor; `ToSearchOptions` turns the bound payload into search options.
 */
module WebAssetList {
  import opened Wrappers
  import RegistryHooks
  import GoErrors
  import RegistrySearch
  import Pagination
  import S = RegistryStore
  import R = RegistryRecords

  /** `AssetListGetPayload` once bound: a zero or empty field was not supplied. */
  datatype AssetListGetPayload = AssetListGetPayload(cursor: nat, limit: nat, mimeType: string, state: string,
                                                     includedTags: seq<string>, excludedTags: seq<string>)

  /** A `registry.Asset` as the service lists it, with its tags preloaded. */
  datatype ListedAsset = ListedAsset(id: nat, checksum: string, display: string, extra: R.JsonBytes,
                                     mimeType: string, sizeBytes: int, state: string, tags: seq<S.TagRow>)

  /** `AssetListItem`. */
  datatype AssetListItem = AssetListItem(id: nat, checksum: string, display: string, extra: R.JsonBytes,
                                         mimeType: string, sizeBytes: int, state: string, tags: seq<string>)

  /** `AssetListGetResponseData`. */
  datatype ResponseData = ResponseData(total: nat, nextCursor: Option<nat>, assets: seq<AssetListItem>)

  function ListedId(a: ListedAsset): nat { a.id }

  /** The tags' names, in the order the tags came. */
  method TagNamesOf(tags: seq<S.TagRow>) returns (names: seq<string>)
    ensures |names| == |tags|
    ensures forall k :: 0 <= k < |tags| ==> names[k] == tags[k].name
  {
    names := [];
    var i := 0;
    while i < |tags|
      invariant 0 <= i <= |tags| && |names| == i
      invariant forall k :: 0 <= k < i ==> names[k] == tags[k].name
    {
      names := names + [tags[i].name];
      i := i + 1;
    }
  }

  /** The item an asset becomes: every field copied, the tags as names. */
  predicate ItemOf(item: AssetListItem, a: ListedAsset)
  {
    && item.id == a.id && item.checksum == a.checksum && item.display == a.display
    && item.extra == a.extra && item.mimeType == a.mimeType && item.sizeBytes == a.sizeBytes
    && item.state == a.state && |item.tags| == |a.tags|
    && forall k :: 0 <= k < |a.tags| ==> item.tags[k] == a.tags[k].name
  }

  /**
   * The web rule for `next_cursor`: present only after a full, non-empty page, and then the
   * last asset's id.
   */
  function FullPageCursor(assets: seq<ListedAsset>, limit: nat): Option<nat>
  {
    if |assets| == limit && |assets| > 0 then Some(assets[|assets| - 1].id) else None
  }

  /**
   * A next cursor appears exactly after a full, non-empty page, so never for limit 0 nor for
   * a short page; over a page in ascending id order it is the page's largest id, so listing
   * again from it skips the whole page.
   */
  lemma FullPageCursorProperties(assets: seq<ListedAsset>, limit: nat)
    ensures FullPageCursor(assets, limit).Some? <==> |assets| == limit > 0
    ensures limit == 0 ==> FullPageCursor(assets, limit).None?
    ensures FullPageCursor(assets, limit).Some? && Pagination.Ascending(assets, ListedId) ==>
      && (forall a :: a in assets ==> a.id <= FullPageCursor(assets, limit).value)
      && Pagination.After(assets, ListedId, FullPageCursor(assets, limit).value) == []
  {
    if FullPageCursor(assets, limit).Some? && Pagination.Ascending(assets, ListedId) {
      CursorSkipsPage(assets);
    }
  }

  /** Over an ascending non-empty page, the last id bounds every id and nothing lies after it. */
  lemma CursorSkipsPage(assets: seq<ListedAsset>)
    requires assets != [] && Pagination.Ascending(assets, ListedId)
    ensures forall a :: a in assets ==> a.id <= assets[|assets| - 1].id
    ensures Pagination.After(assets, ListedId, assets[|assets| - 1].id) == []
  {
    var c := assets[|assets| - 1].id;
    forall k | 0 <= k < |assets|
      ensures ListedId(assets[k]) <= c
    {
      if k < |assets| - 1 {
        assert ListedId(assets[k]) < ListedId(assets[|assets| - 1]);
      }
    }
    Pagination.AfterNoneAbove(assets, ListedId, c);
  }

  /**
   * `NewAssetListGetResponseData`: one item per asset, in order, each copying its asset and
   * naming its tags in order; the total is the number of assets; the next cursor follows
   * `FullPageCursor`.
   */
  method NewAssetListGetResponseData(assets: seq<ListedAsset>, limit: nat) returns (data: ResponseData)
    ensures data.total == |assets| && |data.assets| == |assets|
    ensures forall k :: 0 <= k < |assets| ==> ItemOf(data.assets[k], assets[k])
    ensures data.nextCursor == FullPageCursor(assets, limit)
  {
    var items: seq<AssetListItem> := [];
    var i := 0;
    while i < |assets|
      invariant 0 <= i <= |assets| && |items| == i
      invariant forall k :: 0 <= k < i ==> ItemOf(items[k], assets[k])
    {
      var a := assets[i];
      var tags := TagNamesOf(a.tags);
      items := items + [AssetListItem(a.id, a.checksum, a.display, a.extra, a.mimeType, a.sizeBytes, a.state, tags)];
      i := i + 1;
    }
    var nextCursor: Option<nat> := None;
    if |assets| == limit && |assets| > 0 {
      nextCursor := Some(assets[|assets| - 1].id);
    }
    data := ResponseData(|assets|, nextCursor, items);
  }

  // ---------------------------------------------------------------- ToSearchOptions

  type Option_ = RegistrySearch.SearchAssetsOption

  /** The `addIfSet` closure: `opt` appended when `condition` holds. */
  function AddIfSet(opts: seq<Option_>, condition: bool, opt: Option_): seq<Option_>
  {
    if condition then opts + [opt] else opts
  }

  /** The options for the cursor and the limit. */
  function UpToLimit(req: AssetListGetPayload): seq<Option_>
  {
    var c := AddIfSet([], req.cursor > 0, RegistrySearch.WithCursor(req.cursor));
    AddIfSet(c, req.limit > 0, RegistrySearch.WithLimit(req.limit))
  }

  /** The options up to the state. */
  function UpToState(req: AssetListGetPayload): seq<Option_>
  {
    var m := AddIfSet(UpToLimit(req), req.mimeType != [], RegistrySearch.WithMimeType(req.mimeType));
    AddIfSet(m, req.state != [], RegistrySearch.WithState(req.state))
  }

  /** The options up to the included tags. */
  function UpToIncluded(req: AssetListGetPayload): seq<Option_>
  {
    AddIfSet(UpToState(req), |req.includedTags| > 0, RegistrySearch.WithIncludedTags(req.includedTags))
  }

  /** The option list for a payload: one option per supplied field, in the fixed field order. */
  function SearchOptions(req: AssetListGetPayload): seq<Option_>
  {
    AddIfSet(UpToIncluded(req), |req.excludedTags| > 0, RegistrySearch.WithExcludedTags(req.excludedTags))
  }

  /** `ToSearchOptions`: `addIfSet` once per field, appending the option when the field is set. */
  method ToSearchOptions(req: AssetListGetPayload) returns (opts: seq<Option_>)
    ensures opts == SearchOptions(req)
  {
    opts := [];
    if req.cursor > 0 {
      opts := opts + [RegistrySearch.WithCursor(req.cursor)];
    }
    assert opts == AddIfSet([], req.cursor > 0, RegistrySearch.WithCursor(req.cursor));
    ghost var c := opts;
    if req.limit > 0 {
      opts := opts + [RegistrySearch.WithLimit(req.limit)];
    }
    assert opts == AddIfSet(c, req.limit > 0, RegistrySearch.WithLimit(req.limit));
    ghost var l := opts;
    if req.mimeType != [] {
      opts := opts + [RegistrySearch.WithMimeType(req.mimeType)];
    }
    assert opts == AddIfSet(l, req.mimeType != [], RegistrySearch.WithMimeType(req.mimeType));
    ghost var m := opts;
    if req.state != [] {
      opts := opts + [RegistrySearch.WithState(req.state)];
    }
    assert opts == AddIfSet(m, req.state != [], RegistrySearch.WithState(req.state));
    ghost var st := opts;
    if |req.includedTags| > 0 {
      opts := opts + [RegistrySearch.WithIncludedTags(req.includedTags)];
    }
    assert opts == AddIfSet(st, |req.includedTags| > 0, RegistrySearch.WithIncludedTags(req.includedTags));
    ghost var i := opts;
    if |req.excludedTags| > 0 {
      opts := opts + [RegistrySearch.WithExcludedTags(req.excludedTags)];
    }
    assert opts == AddIfSet(i, |req.excludedTags| > 0, RegistrySearch.WithExcludedTags(req.excludedTags));
  }

  /** The position of an option kind in the order `ToSearchOptions` adds them. */
  function Rank(o: Option_): nat
  {
    match o
    case WithCursor(_) => 0
    case WithLimit(_) => 1
    case WithMimeType(_) => 2
    case WithState(_) => 3
    case WithIncludedTags(_) => 4
    case WithExcludedTags(_) => 5
    case WithChecksums(_) => 6
  }

  /** Kinds strictly ascending by rank, all below `bound`. */
  predicate RankedBelow(opts: seq<Option_>, bound: nat)
  {
    (forall i, j :: 0 <= i < j < |opts| ==> Rank(opts[i]) < Rank(opts[j]))
    && forall i :: 0 <= i < |opts| ==> Rank(opts[i]) < bound
  }

  /** One `addIfSet` step: membership grows by the option alone, and the rank order is kept. */
  lemma AddIfSetStep(opts: seq<Option_>, condition: bool, opt: Option_)
    requires RankedBelow(opts, Rank(opt))
    ensures forall x :: x in AddIfSet(opts, condition, opt) <==> x in opts || (condition && x == opt)
    ensures RankedBelow(AddIfSet(opts, condition, opt), Rank(opt) + 1)
  {
  }

  /** `x` is the option of one of the supplied fields up to the state. */
  predicate SuppliedUpToState(req: AssetListGetPayload, x: Option_)
  {
    (req.cursor > 0 && x == RegistrySearch.WithCursor(req.cursor))
    || (req.limit > 0 && x == RegistrySearch.WithLimit(req.limit))
    || (req.mimeType != [] && x == RegistrySearch.WithMimeType(req.mimeType))
    || (req.state != [] && x == RegistrySearch.WithState(req.state))
  }

  /** `x` is the option of one of the supplied fields. */
  predicate Supplied(req: AssetListGetPayload, x: Option_)
  {
    SuppliedUpToState(req, x)
    || (|req.includedTags| > 0 && x == RegistrySearch.WithIncludedTags(req.includedTags))
    || (|req.excludedTags| > 0 && x == RegistrySearch.WithExcludedTags(req.excludedTags))
  }

  lemma UpToLimitShape(req: AssetListGetPayload)
    ensures forall x :: x in UpToLimit(req) <==>
      (req.cursor > 0 && x == RegistrySearch.WithCursor(req.cursor)) || (req.limit > 0 && x == RegistrySearch.WithLimit(req.limit))
    ensures RankedBelow(UpToLimit(req), 2)
  {
    var c := AddIfSet([], req.cursor > 0, RegistrySearch.WithCursor(req.cursor));
    AddIfSetStep([], req.cursor > 0, RegistrySearch.WithCursor(req.cursor));
    AddIfSetStep(c, req.limit > 0, RegistrySearch.WithLimit(req.limit));
  }

  lemma UpToStateShape(req: AssetListGetPayload)
    ensures forall x :: x in UpToState(req) <==> SuppliedUpToState(req, x)
    ensures RankedBelow(UpToState(req), 4)
  {
    UpToLimitShape(req);
    var m := AddIfSet(UpToLimit(req), req.mimeType != [], RegistrySearch.WithMimeType(req.mimeType));
    AddIfSetStep(UpToLimit(req), req.mimeType != [], RegistrySearch.WithMimeType(req.mimeType));
    AddIfSetStep(m, req.state != [], RegistrySearch.WithState(req.state));
  }

  /**
   * Each option is present exactly when its field is set and carries that field; the kinds
   * come in the fixed order cursor, limit, MIME type, state, included, excluded, each at most
   * once; no checksum option is ever made.
   */
  lemma SearchOptionsShape(req: AssetListGetPayload)
    ensures forall x :: x in SearchOptions(req) <==> Supplied(req, x)
    ensures RankedBelow(SearchOptions(req), 6)
  {
    UpToStateShape(req);
    AddIfSetStep(UpToState(req), |req.includedTags| > 0, RegistrySearch.WithIncludedTags(req.includedTags));
    AddIfSetStep(UpToIncluded(req), |req.excludedTags| > 0, RegistrySearch.WithExcludedTags(req.excludedTags));
  }

  /** Applying one more option is applying it to what the earlier ones left. */
  lemma {:induction false} ApplyAllSnoc(a: seq<Option_>, opt: Option_, q: RegistrySearch.Query)
    ensures RegistrySearch.ApplyAll(a + [opt], q) ==
      match RegistrySearch.ApplyAll(a, q)
      case Fail(e) => Fail(e)
      case Ok(q1) => RegistrySearch.ApplyOption(opt, q1)
  {
    if a != [] {
      assert (a + [opt])[0] == a[0] && (a + [opt])[1..] == a[1..] + [opt];
      if RegistrySearch.ApplyOption(a[0], q).Ok? {
        ApplyAllSnoc(a[1..], opt, RegistrySearch.ApplyOption(a[0], q).value);
      }
    } else {
      assert a + [opt] == [opt];
    }
  }

  /** One `addIfSet` step as the search applies it: nothing when not added, the option when added. */
  lemma ApplyAddIfSet(opts: seq<Option_>, condition: bool, opt: Option_, q: RegistrySearch.Query)
    ensures RegistrySearch.ApplyAll(AddIfSet(opts, condition, opt), q) ==
      match RegistrySearch.ApplyAll(opts, q)
      case Fail(e) => Fail(e)
      case Ok(q1) => if condition then RegistrySearch.ApplyOption(opt, q1) else Ok(q1)
  {
    if condition {
      ApplyAllSnoc(opts, opt, q);
    }
  }

  /** The tag list a supplied tag filter leaves in the query, or none when not supplied. */
  function TagFilter(tags: seq<string>): seq<string>
  {
    if tags != [] && RegistrySearch.CleanTagArgs(tags).Ok? then RegistrySearch.CleanTagArgs(tags).value else []
  }

  /** What a supplied field demands for the search to accept it. */
  predicate SearchAccepts(req: AssetListGetPayload)
  {
    && req.limit <= RegistrySearch.SearchMaxLimit
    && (req.mimeType == [] || RegistryHooks.NormalizeString(req.mimeType) != [])
    && (req.includedTags == [] || RegistrySearch.NoBlankTag(req.includedTags))
    && (req.excludedTags == [] || RegistrySearch.NoBlankTag(req.excludedTags))
  }

  /** A refusal stays: options added after it change nothing. */
  lemma FailureStays(opts: seq<Option_>, condition: bool, opt: Option_, q: RegistrySearch.Query)
    requires RegistrySearch.ApplyAll(opts, q).Fail?
    ensures RegistrySearch.ApplyAll(AddIfSet(opts, condition, opt), q) == RegistrySearch.ApplyAll(opts, q)
  {
    ApplyAddIfSet(opts, condition, opt, q);
  }

  /** The query after the cursor and limit options. */
  function QueryUpToLimit(req: AssetListGetPayload): RegistrySearch.Query
  {
    RegistrySearch.DefaultQuery.(cursor := req.cursor,
      limit := if req.limit == 0 then RegistrySearch.SearchDefaultLimit else req.limit)
  }

  lemma ApplyUpToLimit(req: AssetListGetPayload)
    ensures RegistrySearch.ApplyAll(UpToLimit(req), RegistrySearch.DefaultQuery) ==
      if req.limit > RegistrySearch.SearchMaxLimit then Fail(RegistrySearch.ErrLimitTooLarge) else Ok(QueryUpToLimit(req))
  {
    var q0 := RegistrySearch.DefaultQuery;
    var c := AddIfSet([], req.cursor > 0, RegistrySearch.WithCursor(req.cursor));
    ApplyAddIfSet([], req.cursor > 0, RegistrySearch.WithCursor(req.cursor), q0);
    assert RegistrySearch.ApplyAll(c, q0) == Ok(q0.(cursor := req.cursor));
    ApplyAddIfSet(c, req.limit > 0, RegistrySearch.WithLimit(req.limit), q0);
  }

  /** The query after the options up to the state. */
  function QueryUpToState(req: AssetListGetPayload): RegistrySearch.Query
  {
    QueryUpToLimit(req).(mimeType := RegistryHooks.NormalizeString(req.mimeType), state := req.state)
  }

  /** The MIME-type step after any prefix that left `q`. */
  lemma MimeStep(l: seq<Option_>, q: RegistrySearch.Query, mime: string)
    requires RegistrySearch.ApplyAll(l, RegistrySearch.DefaultQuery) == Ok(q)
    ensures RegistrySearch.ApplyAll(AddIfSet(l, mime != [], RegistrySearch.WithMimeType(mime)), RegistrySearch.DefaultQuery) ==
      if mime == [] then Ok(q)
      else if RegistryHooks.NormalizeString(mime) == [] then Fail(RegistrySearch.ErrBlankMimeType)
      else Ok(q.(mimeType := RegistryHooks.NormalizeString(mime)))
  {
    if mime != [] {
      ApplyAllSnoc(l, RegistrySearch.WithMimeType(mime), RegistrySearch.DefaultQuery);
    }
  }

  /** The state step after any prefix that left `q`. */
  lemma StateStep(m: seq<Option_>, q: RegistrySearch.Query, state: string)
    requires RegistrySearch.ApplyAll(m, RegistrySearch.DefaultQuery) == Ok(q)
    ensures RegistrySearch.ApplyAll(AddIfSet(m, state != [], RegistrySearch.WithState(state)), RegistrySearch.DefaultQuery) ==
      Ok(if state == [] then q else q.(state := state))
  {
    if state != [] {
      ApplyAllSnoc(m, RegistrySearch.WithState(state), RegistrySearch.DefaultQuery);
    }
  }

  /** The tag option a payload's tag list adds, included or excluded. */
  function TagStepOption(tags: seq<string>, included: bool): Option_
  {
    if included then RegistrySearch.WithIncludedTags(tags) else RegistrySearch.WithExcludedTags(tags)
  }

  /** The tag option sets its own list to the cleaned arguments, or is refused with the blank-tag error. */
  lemma TagOptionResult(tags: seq<string>, included: bool, q: RegistrySearch.Query)
    requires tags != []
    ensures RegistrySearch.ApplyOption(TagStepOption(tags, included), q)
         == if RegistrySearch.CleanTagArgs(tags).Fail? then Fail(RegistrySearch.ErrBlankTag)
            else if included then Ok(q.(includedTags := RegistrySearch.CleanTagArgs(tags).value))
            else Ok(q.(excludedTags := RegistrySearch.CleanTagArgs(tags).value))
  {
    if included {
      RegistrySearch.IncludedTagsApplied(tags, q);
    } else {
      RegistrySearch.ExcludedTagsApplied(tags, q);
    }
  }

  /** The tag step on a query: nothing without tags, else the tag option's own outcome. */
  lemma TagStepOutcome(tags: seq<string>, included: bool, q: RegistrySearch.Query)
    requires tags != []
    ensures var r := RegistrySearch.ApplyOption(TagStepOption(tags, included), q);
      && (r.Ok? <==> RegistrySearch.NoBlankTag(tags))
      && (r.Fail? ==> r == Fail(RegistrySearch.ErrBlankTag))
      && (r.Ok? ==> r.value == if included then q.(includedTags := TagFilter(tags)) else q.(excludedTags := TagFilter(tags)))
  {
    RegistrySearch.CleanTagArgsAccepts(tags);
    TagOptionResult(tags, included, q);
  }

  /** A tag step after a prefix that left `q`: refused on a blank tag, else the cleaned list. */
  lemma ApplyTagStep(tags: seq<string>, included: bool, pre: seq<Option_>, q: RegistrySearch.Query)
    requires RegistrySearch.ApplyAll(pre, RegistrySearch.DefaultQuery) == Ok(q)
    ensures var r := RegistrySearch.ApplyAll(AddIfSet(pre, |tags| > 0, TagStepOption(tags, included)), RegistrySearch.DefaultQuery);
      && (r.Ok? <==> tags == [] || RegistrySearch.NoBlankTag(tags))
      && (r.Fail? ==> r == Fail(RegistrySearch.ErrBlankTag))
      && (r.Ok? ==> r.value == if included then q.(includedTags := if tags == [] then q.includedTags else TagFilter(tags))
                               else q.(excludedTags := if tags == [] then q.excludedTags else TagFilter(tags)))
  {
    if tags != [] {
      ApplyAllSnoc(pre, TagStepOption(tags, included), RegistrySearch.DefaultQuery);
      TagStepOutcome(tags, included, q);
    }
  }

  /** The search after the options up to the state: a refused limit or MIME type, or the query. */
  function ExpectedUpToState(req: AssetListGetPayload): Result<RegistrySearch.Query, GoErrors.Error>
  {
    if req.limit > RegistrySearch.SearchMaxLimit then Fail(RegistrySearch.ErrLimitTooLarge)
    else if req.mimeType != [] && RegistryHooks.NormalizeString(req.mimeType) == [] then Fail(RegistrySearch.ErrBlankMimeType)
    else Ok(QueryUpToState(req))
  }

  /**
   * The search a payload's options build, field by field: the first refusal in field order
   * (a limit above 1000, a blank MIME type, a blank tag among the included, then among the
   * excluded), or the query with every supplied field.
   */
  function ExpectedQuery(req: AssetListGetPayload): Result<RegistrySearch.Query, GoErrors.Error>
  {
    match ExpectedUpToState(req)
    case Fail(e) => Fail(e)
    case Ok(q) =>
      if req.includedTags != [] && !RegistrySearch.NoBlankTag(req.includedTags) then Fail(RegistrySearch.ErrBlankTag)
      else if req.excludedTags != [] && !RegistrySearch.NoBlankTag(req.excludedTags) then Fail(RegistrySearch.ErrBlankTag)
      else Ok(q.(includedTags := TagFilter(req.includedTags), excludedTags := TagFilter(req.excludedTags)))
  }

  /** The MIME-type and state steps after a prefix that already failed keep that failure. */
  lemma MimeAndStateAfterFailure(l: seq<Option_>, mime: string, state: string)
    requires RegistrySearch.ApplyAll(l, RegistrySearch.DefaultQuery).Fail?
    ensures var m := AddIfSet(l, mime != [], RegistrySearch.WithMimeType(mime));
      RegistrySearch.ApplyAll(AddIfSet(m, state != [], RegistrySearch.WithState(state)), RegistrySearch.DefaultQuery)
      == RegistrySearch.ApplyAll(l, RegistrySearch.DefaultQuery)
  {
    var m := AddIfSet(l, mime != [], RegistrySearch.WithMimeType(mime));
    FailureStays(l, mime != [], RegistrySearch.WithMimeType(mime), RegistrySearch.DefaultQuery);
    FailureStays(m, state != [], RegistrySearch.WithState(state), RegistrySearch.DefaultQuery);
  }

  /** The MIME-type and state steps after a prefix that left `q`. */
  lemma MimeAndStateAfterQuery(l: seq<Option_>, q: RegistrySearch.Query, mime: string, state: string)
    requires RegistrySearch.ApplyAll(l, RegistrySearch.DefaultQuery) == Ok(q)
    ensures var m := AddIfSet(l, mime != [], RegistrySearch.WithMimeType(mime));
      RegistrySearch.ApplyAll(AddIfSet(m, state != [], RegistrySearch.WithState(state)), RegistrySearch.DefaultQuery)
      == if mime != [] && RegistryHooks.NormalizeString(mime) == [] then Fail(RegistrySearch.ErrBlankMimeType)
         else Ok(q.(mimeType := if mime == [] then q.mimeType else RegistryHooks.NormalizeString(mime),
                    state := if state == [] then q.state else state))
  {
    var m := AddIfSet(l, mime != [], RegistrySearch.WithMimeType(mime));
    MimeStep(l, q, mime);
    if mime != [] && RegistryHooks.NormalizeString(mime) == [] {
      FailureStays(m, state != [], RegistrySearch.WithState(state), RegistrySearch.DefaultQuery);
    } else {
      var qm := if mime == [] then q else q.(mimeType := RegistryHooks.NormalizeString(mime));
      StateStep(m, qm, state);
    }
  }

  /** Within the limit, the expected search is the MIME-type and state steps applied to the limit's query. */
  lemma ExpectedUpToStateWithinLimit(req: AssetListGetPayload)
    requires req.limit <= RegistrySearch.SearchMaxLimit
    ensures var q := QueryUpToLimit(req);
      ExpectedUpToState(req) ==
        if req.mimeType != [] && RegistryHooks.NormalizeString(req.mimeType) == [] then Fail(RegistrySearch.ErrBlankMimeType)
        else Ok(q.(mimeType := if req.mimeType == [] then q.mimeType else RegistryHooks.NormalizeString(req.mimeType),
                   state := if req.state == [] then q.state else req.state))
  {
    if req.mimeType == [] {
      RegistrySearch.NormalizeEmpty();
    }
  }

  /** The MIME-type and state steps after any prefix that left what the cursor and limit leave. */
  lemma MimeAndStateSteps(req: AssetListGetPayload, l: seq<Option_>)
    requires RegistrySearch.ApplyAll(l, RegistrySearch.DefaultQuery) ==
      if req.limit > RegistrySearch.SearchMaxLimit then Fail(RegistrySearch.ErrLimitTooLarge) else Ok(QueryUpToLimit(req))
    ensures var m := AddIfSet(l, req.mimeType != [], RegistrySearch.WithMimeType(req.mimeType));
      RegistrySearch.ApplyAll(AddIfSet(m, req.state != [], RegistrySearch.WithState(req.state)), RegistrySearch.DefaultQuery)
      == ExpectedUpToState(req)
  {
    if req.limit > RegistrySearch.SearchMaxLimit {
      MimeAndStateAfterFailure(l, req.mimeType, req.state);
    } else {
      MimeAndStateAfterQuery(l, QueryUpToLimit(req), req.mimeType, req.state);
      ExpectedUpToStateWithinLimit(req);
    }
  }

  lemma ApplyUpToState(req: AssetListGetPayload)
    ensures RegistrySearch.ApplyAll(UpToState(req), RegistrySearch.DefaultQuery) == ExpectedUpToState(req)
  {
    ApplyUpToLimit(req);
    MimeAndStateSteps(req, UpToLimit(req));
  }

  /** The two tag steps after any prefix that left `ExpectedUpToState(req)`. */
  lemma ApplyTagSteps(req: AssetListGetPayload, st: seq<Option_>)
    requires RegistrySearch.ApplyAll(st, RegistrySearch.DefaultQuery) == ExpectedUpToState(req)
    ensures var i := AddIfSet(st, |req.includedTags| > 0, RegistrySearch.WithIncludedTags(req.includedTags));
      RegistrySearch.ApplyAll(AddIfSet(i, |req.excludedTags| > 0, RegistrySearch.WithExcludedTags(req.excludedTags)), RegistrySearch.DefaultQuery)
      == ExpectedQuery(req)
  {
    var q0 := RegistrySearch.DefaultQuery;
    var i := AddIfSet(st, |req.includedTags| > 0, RegistrySearch.WithIncludedTags(req.includedTags));
    if ExpectedUpToState(req).Fail? {
      FailureStays(st, |req.includedTags| > 0, RegistrySearch.WithIncludedTags(req.includedTags), q0);
      FailureStays(i, |req.excludedTags| > 0, RegistrySearch.WithExcludedTags(req.excludedTags), q0);
      return;
    }
    var q := ExpectedUpToState(req).value;
    ApplyTagStep(req.includedTags, true, st, q);
    if req.includedTags != [] && !RegistrySearch.NoBlankTag(req.includedTags) {
      FailureStays(i, |req.excludedTags| > 0, RegistrySearch.WithExcludedTags(req.excludedTags), q0);
      return;
    }
    ApplyTagStep(req.excludedTags, false, i, q.(includedTags := TagFilter(req.includedTags)));
  }

  /** Applying the payload's options in order gives `ExpectedQuery`. */
  lemma ApplySearchOptions(req: AssetListGetPayload)
    ensures RegistrySearch.ApplyAll(SearchOptions(req), RegistrySearch.DefaultQuery) == ExpectedQuery(req)
  {
    ApplyUpToState(req);
    ApplyTagSteps(req, UpToState(req));
  }

  /**
   * The search built from a payload's options: refused exactly when a supplied limit is above
   * 1000, a supplied MIME type is blank, or a supplied tag list holds a blank tag (the limit
   * checked first); otherwise the cursor and state as given, the limit as given or the default
   * 150, the MIME type normalised, the tag filters cleaned, and no checksum filter.
   */
  lemma SearchOptionsQuery(req: AssetListGetPayload)
    ensures var r := RegistrySearch.ApplyAll(SearchOptions(req), RegistrySearch.DefaultQuery);
      && (r.Ok? <==> SearchAccepts(req))
      && (req.limit > RegistrySearch.SearchMaxLimit ==> r == Fail(RegistrySearch.ErrLimitTooLarge))
      && (r.Ok? ==>
            && r.value.cursor == req.cursor && r.value.state == req.state
            && r.value.limit == (if req.limit == 0 then RegistrySearch.SearchDefaultLimit else req.limit)
            && r.value.mimeType == RegistryHooks.NormalizeString(req.mimeType)
            && r.value.includedTags == TagFilter(req.includedTags)
            && r.value.excludedTags == TagFilter(req.excludedTags)
            && r.value.checkSums == [])
  {
    ApplySearchOptions(req);
  }
}
