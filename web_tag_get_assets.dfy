/**
 * internal/web/api/handlers/v1/tag_get_assets.go: the response of the web endpoint that lists
 * the assets carrying a tag. The handler passes the payload's limit as bound, before the
 * service's `Validate` repairs it, so an omitted limit (0) is compared with pages of up to 100.
 */
module WebTagGetAssets {
  import opened Wrappers
  import S = RegistryStore
  import T = WebDataTags

  /** `ListTagAssetsResponseData`. */
  datatype ListTagAssetsResponseData = ListTagAssetsResponseData(total: nat, nextOffset: Option<nat>, assets: seq<string>)

  /** The binding rule on `limit`: omitted, or within 1..1000. */
  predicate PayloadLimitBound(limit: nat)
  {
    limit == 0 || (T.MinLimit <= limit <= T.MaxLimit)
  }

  /** A bound payload limit reaches the service unchanged, except that 0 becomes 100. */
  lemma BoundLimitClamp(limit: nat)
    requires PayloadLimitBound(limit)
    ensures T.ClampedLimit(limit) == if limit == 0 then T.DefaultLimit else limit
  {
  }

  /** The rule for `next_offset`: present only after a page as long as `limit`, past that page. */
  function NextOffset(count: nat, limit: nat, offset: nat): Option<nat>
  {
    if count == limit then Some(offset + count) else None
  }

  /**
   * The next offset is present exactly when the page length equals the limit, and then lies
   * just past the page; with limit 0 an empty page still gets one, equal to the offset.
   */
  lemma NextOffsetProperties(count: nat, limit: nat, offset: nat)
    ensures NextOffset(count, limit, offset).Some? <==> count == limit
    ensures NextOffset(count, limit, offset).Some? ==> NextOffset(count, limit, offset).value == offset + count
    ensures limit == 0 && count == 0 ==> NextOffset(count, limit, offset) == Some(offset)
  {
  }

  /**
   * `NewListTagAssetsResponseData`: the checksums of the assets in order, written slot by slot
   * into a slice of the same length; the total is the number of assets; the next offset follows
   * `NextOffset` with the limit as given.
   */
  method NewListTagAssetsResponseData(assets: seq<S.AssetRow>, limit: nat, offset: nat)
      returns (data: ListTagAssetsResponseData)
    ensures data.total == |assets| && |data.assets| == |assets|
    ensures forall i :: 0 <= i < |assets| ==> data.assets[i] == assets[i].checksum
    ensures data.nextOffset == NextOffset(|assets|, limit, offset)
  {
    var checksums := new string[|assets|];
    var i := 0;
    while i < |assets|
      invariant 0 <= i <= |assets|
      invariant forall k :: 0 <= k < i ==> checksums[k] == assets[k].checksum
    {
      checksums[i] := assets[i].checksum;
      i := i + 1;
    }
    var next: Option<nat> := None;
    if |assets| == limit {
      next := Some(offset + |assets|);
    }
    data := ListTagAssetsResponseData(|assets|, next, checksums[..]);
  }

  /**
   * With the limit omitted the service serves pages of 100, but the handler compares with 0: a
   * full page of 100 gets no next offset, and an empty page gets one equal to the offset it
   * came from, so a client following it asks for the same empty page again.
   */
  lemma OmittedLimitMisleads(offset: nat)
    ensures T.ClampedLimit(0) == 100
    ensures NextOffset(100, 0, offset).None?
    ensures NextOffset(0, 0, offset) == Some(offset)
  {
  }

  /** The evidently intended rule: compare the page with the limit the service applied. */
  function NextOffsetIntended(count: nat, limit: nat, offset: nat): Option<nat>
  {
    NextOffset(count, T.ClampedLimit(limit), offset)
  }

  /**
   * For the pages the service can return (at most its repaired limit long), the intended rule
   * gives a next offset exactly after a full page, always strictly past the offset, and it
   * agrees with the handler's rule whenever the payload named a limit.
   */
  lemma NextOffsetIntendedProperties(count: nat, limit: nat, offset: nat)
    requires PayloadLimitBound(limit) && count <= T.ClampedLimit(limit)
    ensures NextOffsetIntended(count, limit, offset).Some? <==> count == T.ClampedLimit(limit)
    ensures NextOffsetIntended(count, limit, offset).Some? ==> NextOffsetIntended(count, limit, offset).value > offset
    ensures limit != 0 ==> NextOffsetIntended(count, limit, offset) == NextOffset(count, limit, offset)
  {
    BoundLimitClamp(limit);
  }
}
