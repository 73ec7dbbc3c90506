/**
 * internal/api/handlers/v1/asset_get_list.go: the API asset-list endpoint's helpers. The
 * payload, the listed assets and the items are the same shapes as on the web side; what differs
 * is the next-cursor rule (any non-empty page gets one) and the error reply of the handler.
 */
module ApiAssetList {
  import opened Wrappers
  import GoErrors
  import GoStrings
  import RegistryHooks
  import RegistrySearch
  import Pagination
  import W = WebAssetList

  /** `AssetListGetResponse`. */
  datatype AssetListGetResponse = AssetListGetResponse(total: nat, nextCursor: Option<nat>, assets: seq<W.AssetListItem>)

  /** The API rule for `next_cursor`: the last asset's id whenever the page is not empty. */
  function LastIdCursor(assets: seq<W.ListedAsset>): Option<nat>
  {
    if |assets| > 0 then Some(assets[|assets| - 1].id) else None
  }

  /**
   * A cursor appears exactly for a non-empty page, whatever the limit; where the web rule gives
   * one the two agree, and a short non-empty page has one here and none on the web side. Over an
   * ascending page, listing again from the cursor skips the whole page.
   */
  lemma LastIdCursorProperties(assets: seq<W.ListedAsset>, limit: nat)
    ensures LastIdCursor(assets).Some? <==> assets != []
    ensures W.FullPageCursor(assets, limit).Some? ==> W.FullPageCursor(assets, limit) == LastIdCursor(assets)
    ensures 0 < |assets| < limit ==> LastIdCursor(assets).Some? && W.FullPageCursor(assets, limit).None?
    ensures assets != [] && Pagination.Ascending(assets, W.ListedId) ==>
      Pagination.After(assets, W.ListedId, LastIdCursor(assets).value) == []
  {
    if assets != [] && Pagination.Ascending(assets, W.ListedId) {
      W.CursorSkipsPage(assets);
    }
  }

  /**
   * `NewAssetListGetResponse`: one item per asset, in order, each copying its asset and naming
   * its tags in order; the total is the number of assets; the next cursor follows `LastIdCursor`.
   */
  method NewAssetListGetResponse(assets: seq<W.ListedAsset>) returns (resp: AssetListGetResponse)
    ensures resp.total == |assets| && |resp.assets| == |assets|
    ensures forall k :: 0 <= k < |assets| ==> W.ItemOf(resp.assets[k], assets[k])
    ensures resp.nextCursor == LastIdCursor(assets)
  {
    var items: seq<W.AssetListItem> := [];
    var i := 0;
    while i < |assets|
      invariant 0 <= i <= |assets| && |items| == i
      invariant forall k :: 0 <= k < i ==> W.ItemOf(items[k], assets[k])
    {
      var a := assets[i];
      var tags := W.TagNamesOf(a.tags);
      items := items + [W.AssetListItem(a.id, a.checksum, a.display, a.extra, a.mimeType, a.sizeBytes, a.state, tags)];
      i := i + 1;
    }
    var nextCursor: Option<nat> := None;
    if |assets| > 0 {
      nextCursor := Some(assets[|assets| - 1].id);
    }
    resp := AssetListGetResponse(|assets|, nextCursor, items);
  }

  /**
   * `ToSearchOptions`: the same `addIfSet` sequence as the web handler, so the same option list:
   * one option per supplied field and no other, in the fixed field order.
   */
  method ToSearchOptions(req: W.AssetListGetPayload) returns (opts: seq<W.Option_>)
    ensures opts == W.SearchOptions(req)
    ensures forall x :: x in opts <==> W.Supplied(req, x)
    ensures W.RankedBelow(opts, 6)
  {
    opts := [];
    opts := W.AddIfSet(opts, req.cursor > 0, RegistrySearch.WithCursor(req.cursor));
    opts := W.AddIfSet(opts, req.limit > 0, RegistrySearch.WithLimit(req.limit));
    opts := W.AddIfSet(opts, req.mimeType != [], RegistrySearch.WithMimeType(req.mimeType));
    opts := W.AddIfSet(opts, req.state != [], RegistrySearch.WithState(req.state));
    opts := W.AddIfSet(opts, |req.includedTags| > 0, RegistrySearch.WithIncludedTags(req.includedTags));
    opts := W.AddIfSet(opts, |req.excludedTags| > 0, RegistrySearch.WithExcludedTags(req.excludedTags));
    W.SearchOptionsShape(req);
  }

  // ---------------------------------------------------------------- handleListAssetsError

  /** The status and message the handler answers a failed listing with. */
  datatype ErrorReply = ErrorReply(code: nat, message: string)

  const ListFailedMessage := "Failed to list assets"

  /** `handleListAssetsError`: a registry validation error is the client's (400), all else 500. */
  function ListAssetsErrorReply(err: GoErrors.Error): (r: ErrorReply)
    ensures r.code == 400 || r.code == 500
    ensures r.code == 400 <==> GoErrors.Is(err, RegistryHooks.ErrValidation)
    ensures r.code == 400 ==> r.message == GoErrors.Message(err)
    ensures r.code == 500 ==> r.message == ListFailedMessage
  {
    if GoErrors.Is(err, RegistryHooks.ErrValidation) then ErrorReply(400, GoErrors.Message(err))
    else ErrorReply(500, ListFailedMessage)
  }

  /** The error the listing returns when the search options are refused. */
  function RefusalError(e: GoErrors.Error): GoErrors.Error
  {
    GoErrors.Wrapf("failed to apply option", e)
  }

  /** The three refusals the payload's search options can meet. */
  predicate IsSearchRefusal(err: GoErrors.Error)
  {
    GoErrors.Is(err, RegistrySearch.ErrLimitTooLarge) || GoErrors.Is(err, RegistrySearch.ErrBlankMimeType)
    || GoErrors.Is(err, RegistrySearch.ErrBlankTag)
  }

  /** A refused search fails with one of the three refusals, and only an unacceptable payload is refused. */
  lemma RefusedSearchErrors(req: W.AssetListGetPayload)
    ensures var r := RegistrySearch.ApplyAll(W.SearchOptions(req), RegistrySearch.DefaultQuery);
      (r.Fail? <==> !W.SearchAccepts(req)) && (r.Fail? ==> IsSearchRefusal(RefusalError(r.error)))
  {
    W.ApplySearchOptions(req);
    W.SearchOptionsQuery(req);
    var r := RegistrySearch.ApplyAll(W.SearchOptions(req), RegistrySearch.DefaultQuery);
    if r.Fail? {
      assert r.error == RegistrySearch.ErrLimitTooLarge || r.error == RegistrySearch.ErrBlankMimeType
        || r.error == RegistrySearch.ErrBlankTag;
    }
  }

  /**
   * A MIME type of one space passes binding (it is not empty) but normalises to nothing, so the
   * search is refused; the refusal does not wrap the registry's validation error, and the
   * client's mistake is answered with 500.
   */
  lemma BlankMimeTypeAnsweredAsInternal()
    ensures var req := W.AssetListGetPayload(0, 0, " ", "", [], []);
      var r := RegistrySearch.ApplyAll(W.SearchOptions(req), RegistrySearch.DefaultQuery);
      r == Fail(RegistrySearch.ErrBlankMimeType) && ListAssetsErrorReply(RefusalError(r.error)).code == 500
  {
    var req := W.AssetListGetPayload(0, 0, " ", "", [], []);
    assert GoStrings.TrimLeft(" ") == [] by {
      assert " "[1..] == [];
    }
    W.ApplySearchOptions(req);
  }

  /**
   * The evidently intended reply: a refused search is a bad request like a validation error;
   * every other error is still answered with 500.
   */
  function ListAssetsErrorReplyIntended(err: GoErrors.Error): (r: ErrorReply)
    ensures r.code == 400 <==> GoErrors.Is(err, RegistryHooks.ErrValidation) || IsSearchRefusal(err)
    ensures r.code == 400 ==> r.message == GoErrors.Message(err)
    ensures r.code != 400 ==> r == ErrorReply(500, ListFailedMessage)
  {
    if GoErrors.Is(err, RegistryHooks.ErrValidation) || IsSearchRefusal(err) then ErrorReply(400, GoErrors.Message(err))
    else ErrorReply(500, ListFailedMessage)
  }

  /** With the intended reply, every refused search is answered with 400 and the refusal's text. */
  lemma RefusedSearchIsBadRequest(req: W.AssetListGetPayload)
    requires !W.SearchAccepts(req)
    ensures var r := RegistrySearch.ApplyAll(W.SearchOptions(req), RegistrySearch.DefaultQuery);
      r.Fail? && ListAssetsErrorReplyIntended(RefusalError(r.error)) ==
        ErrorReply(400, "failed to apply option: " + GoErrors.Message(r.error))
  {
    RefusedSearchErrors(req);
  }
}
