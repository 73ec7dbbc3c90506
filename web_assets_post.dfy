/**
 * internal/web/api/handlers/v1/assets_post.go: the helpers of the older web batch endpoint.
 * Its response pairs each record with the last presigned URL carrying its checksum, as the
 * newer batch endpoint does; its conversion calls `SetExtra` for every asset, so an asset sent
 * without extra metadata makes the whole conversion fail.
 */
module WebAssetsPost {
  import opened Wrappers
  import GoErrors
  import R = RegistryRecords
  import RT = RegistryTypes
  import B = WebBatchPostAsset

  /** `AssetPostResponseData`; `expiresAt` is the URL's expiry, `None` for nil. */
  datatype AssetPostResponseData = AssetPostResponseData(id: nat, checksum: string, state: string, uploadUrl: string,
                                                         expiresAt: Option<int>)

  /** `AssetBatchResponseData`. */
  datatype AssetBatchResponseData = AssetBatchResponseData(assets: seq<AssetPostResponseData>)

  /**
   * `NewAssetPostResponseData` for a record and its URL: the record's id, checksum and state;
   * the URL and its expiry only when there is a URL.
   */
  function NewAssetPostResponseData(asset: R.Asset, uploadUrl: Option<RT.PresignedUrl>): (d: AssetPostResponseData)
    reads asset
    ensures d.id == asset.id && d.checksum == asset.checksum && d.state == asset.state
    ensures d.expiresAt.Some? <==> uploadUrl.Some?
    ensures uploadUrl.None? ==> d.uploadUrl == ""
    ensures uploadUrl.Some? ==> d.uploadUrl == uploadUrl.value.url && d.expiresAt == Some(uploadUrl.value.expiresAt)
  {
    var d := AssetPostResponseData(asset.id, asset.checksum, asset.state, "", None);
    if uploadUrl.Some? then d.(uploadUrl := uploadUrl.value.url, expiresAt := Some(uploadUrl.value.expiresAt)) else d
  }

  /**
   * `NewAssetBatchResponseData`: one entry per record, in order, each from the record and the
   * last URL carrying its checksum.
   */
  method NewAssetBatchResponseData(assets: seq<R.Asset>, urls: seq<RT.PresignedUrl>) returns (data: AssetBatchResponseData)
    ensures |data.assets| == |assets|
    ensures forall i :: 0 <= i < |assets| ==>
      data.assets[i] == NewAssetPostResponseData(assets[i], B.LastUrlFor(urls, assets[i].checksum))
  {
    var urlMap := B.UrlMap(urls);
    var dataAssets := new AssetPostResponseData[|assets|](_ => AssetPostResponseData(0, "", "", "", None));
    var i := 0;
    while i < |assets|
      invariant 0 <= i <= |assets|
      invariant forall k :: 0 <= k < i ==>
        dataAssets[k] == NewAssetPostResponseData(assets[k], B.LastUrlFor(urls, assets[k].checksum))
    {
      var uploadUrl := B.Lookup(urlMap, assets[i].checksum);
      dataAssets[i] := NewAssetPostResponseData(assets[i], uploadUrl);
      i := i + 1;
    }
    data := AssetBatchResponseData(dataAssets[..]);
  }

  /**
   * An entry carries an upload URL exactly when some URL has the record's checksum, and then
   * the last such URL's; it is the newer endpoint's entry under other field names.
   */
  lemma EntryUrlProperties(asset: R.Asset, urls: seq<RT.PresignedUrl>)
    ensures var d := NewAssetPostResponseData(asset, B.LastUrlFor(urls, asset.checksum));
      && (d.expiresAt.Some? <==> exists i :: 0 <= i < |urls| && urls[i].checksum == asset.checksum)
      && (d.expiresAt.Some? ==>
            exists i :: 0 <= i < |urls| && urls[i].checksum == asset.checksum && d.uploadUrl == urls[i].url
              && forall j :: i < j < |urls| ==> urls[j].checksum != asset.checksum)
      && var b := B.NewBatchAsset(asset, B.LastUrlFor(urls, asset.checksum));
         d == AssetPostResponseData(b.id, b.checksum, b.state, b.ingressUrl, b.expiresAt)
  {
    B.LastUrlForProperties(urls, asset.checksum);
  }

  // ---------------------------------------------------------------- batchRequestToRecords

  /** The conversion as written is refused when some asset came without extra metadata. */
  predicate RefusedAsWritten(assets: seq<B.AssetPayload>)
  {
    exists i :: 0 <= i < |assets| && |assets[i].extra| == 0
  }

  /**
   * `batchRequestToRecords`: `SetExtra` is called for every asset, so the first asset with an
   * empty extra ends the conversion with `SetExtra`'s refusal and no records; otherwise one
   * fresh record per asset, in order, as the newer endpoint builds it.
   */
  method BatchRequestToRecords(assets: seq<B.AssetPayload>, now: int)
      returns (records: seq<R.Asset>, err: Option<GoErrors.Error>)
    ensures err.Some? <==> RefusedAsWritten(assets)
    ensures err.Some? ==> err == Some(R.ErrEmptyExtra) && records == []
    ensures err.None? ==> |records| == |assets|
    ensures err.None? ==> forall i :: 0 <= i < |assets| ==> fresh(records[i]) && B.RecordOf(records[i], assets[i], now)
    ensures err.None? ==> forall i, j :: 0 <= i < j < |records| ==> records[i] != records[j]
  {
    records := [];
    var i := 0;
    while i < |assets|
      invariant 0 <= i <= |assets| && |records| == i
      invariant forall k :: 0 <= k < i ==> |assets[k].extra| > 0
      invariant forall k :: 0 <= k < i ==> fresh(records[k]) && B.RecordOf(records[k], assets[k], now)
      invariant forall k, l :: 0 <= k < l < i ==> records[k] != records[l]
    {
      var record := B.NewRecord(assets[i]);
      var extra := new R.ExtraMap(assets[i].extra);
      var e := record.SetExtra(extra, now);
      if e.Some? {
        return [], e;
      }
      records := records + [record];
      i := i + 1;
    }
    err := None;
  }

  /**
   * Handed one asset without extra metadata, the conversion as written fails. The handler never
   * reaches this case, since binding leaves the unexported `assets` field empty.
   */
  lemma AbsentExtraRefused(checksum: string, display: string)
    ensures RefusedAsWritten([B.AssetPayload(checksum, display, map[])])
  {
    assert |[B.AssetPayload(checksum, display, map[])][0].extra| == 0;
  }
}
