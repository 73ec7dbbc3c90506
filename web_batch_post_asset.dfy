/**
 * internal/web/api/handlers/v1/batch_post_asset.go: the helpers of the web batch-create
 * endpoint. The payload's assets become fresh `registry.Asset` records, with the extra metadata
 * set only when a non-empty map was sent; after creation each record is answered with the
 * presigned upload URL whose checksum matches its own, the last such URL when several match.
 */
module WebBatchPostAsset {
  import opened Wrappers
  import opened JsonValues
  import GoErrors
  import R = RegistryRecords
  import RT = RegistryTypes

  /** `AssetPayload` once bound; an absent `extra` is the empty map. */
  datatype AssetPayload = AssetPayload(checksum: string, display: string, extra: map<string, Value>)

  /** `BatchAsset`; `expiresAt` is the URL's expiry, `None` for nil. */
  datatype BatchAsset = BatchAsset(id: nat, checksum: string, state: string, ingressUrl: string, expiresAt: Option<int>)

  /** `AssetsBatchResponseData`. */
  datatype AssetsBatchResponseData = AssetsBatchResponseData(assets: seq<BatchAsset>)

  /**
   * `NewBatchAsset`: the record's id, checksum and state; the URL and its expiry only when
   * there is a URL, else an empty URL and no expiry.
   */
  function NewBatchAsset(asset: R.Asset, uploadUrl: Option<RT.PresignedUrl>): (b: BatchAsset)
    reads asset
    ensures b.id == asset.id && b.checksum == asset.checksum && b.state == asset.state
    ensures b.expiresAt.Some? <==> uploadUrl.Some?
    ensures uploadUrl.None? ==> b.ingressUrl == ""
    ensures uploadUrl.Some? ==> b.ingressUrl == uploadUrl.value.url && b.expiresAt == Some(uploadUrl.value.expiresAt)
  {
    var b := BatchAsset(asset.id, asset.checksum, asset.state, "", None);
    if uploadUrl.Some? then b.(ingressUrl := uploadUrl.value.url, expiresAt := Some(uploadUrl.value.expiresAt)) else b
  }

  /** The URL a checksum maps to once every URL has been put in the map in order: the last match. */
  function LastUrlFor(urls: seq<RT.PresignedUrl>, checksum: string): Option<RT.PresignedUrl>
  {
    if urls == [] then None
    else if urls[|urls| - 1].checksum == checksum then Some(urls[|urls| - 1])
    else LastUrlFor(urls[..|urls| - 1], checksum)
  }

  /** A URL that is found carries the checksum, and no later URL does. */
  lemma {:induction false} LastUrlForFound(urls: seq<RT.PresignedUrl>, checksum: string)
    requires LastUrlFor(urls, checksum).Some?
    ensures exists i ::
      0 <= i < |urls| && urls[i] == LastUrlFor(urls, checksum).value && urls[i].checksum == checksum
      && forall j :: i < j < |urls| ==> urls[j].checksum != checksum
  {
    var n := |urls| - 1;
    if urls[n].checksum != checksum {
      var init := urls[..n];
      LastUrlForFound(init, checksum);
      var i :| 0 <= i < n && init[i] == LastUrlFor(init, checksum).value && init[i].checksum == checksum
        && forall j :: i < j < n ==> init[j].checksum != checksum;
      assert urls[i] == init[i];
      forall j | i < j < |urls|
        ensures urls[j].checksum != checksum
      {
        if j < n {
          assert urls[j] == init[j];
        }
      }
    }
  }

  /** Without a URL found, no URL carries the checksum. */
  lemma {:induction false} LastUrlForMissing(urls: seq<RT.PresignedUrl>, checksum: string)
    requires LastUrlFor(urls, checksum).None?
    ensures forall i :: 0 <= i < |urls| ==> urls[i].checksum != checksum
  {
    if urls != [] {
      var n := |urls| - 1;
      var init := urls[..n];
      LastUrlForMissing(init, checksum);
      forall i | 0 <= i < n
        ensures urls[i].checksum != checksum
      {
        assert urls[i] == init[i];
      }
    }
  }

  /**
   * A checksum finds a URL exactly when some URL carries it, and then the one it finds carries
   * it and no later URL does.
   */
  lemma LastUrlForProperties(urls: seq<RT.PresignedUrl>, checksum: string)
    ensures LastUrlFor(urls, checksum).Some? <==> exists i :: 0 <= i < |urls| && urls[i].checksum == checksum
    ensures LastUrlFor(urls, checksum).Some? ==>
      exists i :: 0 <= i < |urls| && urls[i] == LastUrlFor(urls, checksum).value && urls[i].checksum == checksum
        && forall j :: i < j < |urls| ==> urls[j].checksum != checksum
  {
    if LastUrlFor(urls, checksum).Some? {
      LastUrlForFound(urls, checksum);
    } else {
      LastUrlForMissing(urls, checksum);
    }
  }

  /** The `urlMap` loop: each URL stored under its checksum, a later one replacing an earlier one. */
  method UrlMap(urls: seq<RT.PresignedUrl>) returns (m: map<string, RT.PresignedUrl>)
    ensures forall c :: c in m <==> LastUrlFor(urls, c).Some?
    ensures forall c :: c in m ==> m[c] == LastUrlFor(urls, c).value
  {
    m := map[];
    var i := 0;
    while i < |urls|
      invariant 0 <= i <= |urls|
      invariant forall c :: c in m <==> LastUrlFor(urls[..i], c).Some?
      invariant forall c :: c in m ==> m[c] == LastUrlFor(urls[..i], c).value
    {
      assert urls[..i + 1][..i] == urls[..i];
      m := m[urls[i].checksum := urls[i]];
      i := i + 1;
    }
    assert urls[..|urls|] == urls;
  }

  /** Go's map index: the stored URL, or nil. */
  function Lookup(m: map<string, RT.PresignedUrl>, checksum: string): Option<RT.PresignedUrl>
  {
    if checksum in m then Some(m[checksum]) else None
  }

  /**
   * `NewCreateAssetsBatchResponseData`: one entry per record, in order, each built by
   * `NewBatchAsset` from the record and the last URL carrying its checksum.
   */
  method NewCreateAssetsBatchResponseData(assets: seq<R.Asset>, urls: seq<RT.PresignedUrl>)
      returns (data: AssetsBatchResponseData)
    ensures |data.assets| == |assets|
    ensures forall i :: 0 <= i < |assets| ==> data.assets[i] == NewBatchAsset(assets[i], LastUrlFor(urls, assets[i].checksum))
  {
    var urlMap := UrlMap(urls);
    var batchAssets := new BatchAsset[|assets|](_ => BatchAsset(0, "", "", "", None));
    var i := 0;
    while i < |assets|
      invariant 0 <= i <= |assets|
      invariant forall k :: 0 <= k < i ==> batchAssets[k] == NewBatchAsset(assets[k], LastUrlFor(urls, assets[k].checksum))
    {
      var uploadUrl := Lookup(urlMap, assets[i].checksum);
      batchAssets[i] := NewBatchAsset(assets[i], uploadUrl);
      i := i + 1;
    }
    data := AssetsBatchResponseData(batchAssets[..]);
  }

  /**
   * An entry carries an upload URL exactly when some URL has the record's checksum, and then
   * it is the last such URL's.
   */
  lemma EntryUrlProperties(asset: R.Asset, urls: seq<RT.PresignedUrl>)
    ensures var b := NewBatchAsset(asset, LastUrlFor(urls, asset.checksum));
      (b.expiresAt.Some? <==> exists i :: 0 <= i < |urls| && urls[i].checksum == asset.checksum)
      && (b.expiresAt.Some? ==>
            exists i :: 0 <= i < |urls| && urls[i].checksum == asset.checksum && b.ingressUrl == urls[i].url
              && forall j :: i < j < |urls| ==> urls[j].checksum != asset.checksum)
  {
    LastUrlForProperties(urls, asset.checksum);
  }

  // ---------------------------------------------------------------- assetsBatchPayloadToRecords

  /** The stored extra of a new record given `extra` at time `now`: a one-entry list, stamped. */
  function ExtraOf(extra: map<string, Value>, now: int): R.JsonBytes
  {
    if |extra| == 0 then R.Empty else R.EncodeList([Some(extra["date" := Time(now)])])
  }

  /** The record a payload asset becomes: its checksum and display, every other field zero. */
  predicate RecordOf(r: R.Asset, p: AssetPayload, now: int)
    reads r
  {
    && r.id == 0 && r.checksum == p.checksum && r.display == p.display && r.extra == ExtraOf(p.extra, now)
    && r.mimeType == "" && r.sizeBytes == 0 && r.state == ""
  }

  /** A fresh record with the payload's checksum and display and no extra. */
  method NewRecord(p: AssetPayload) returns (record: R.Asset)
    ensures fresh(record) && RecordOf(record, p.(extra := map[]), 0)
  {
    record := new R.Asset(0, p.checksum, p.display, R.Empty, "", 0, "");
  }

  /**
   * `assetsBatchPayloadToRecords`: one fresh record per payload asset, in order, the extra set
   * through `SetExtra` only for a non-empty map. `SetExtra` refuses only an empty map, so the
   * conversion never fails and the source's error return is never taken.
   */
  method AssetsBatchPayloadToRecords(payload: seq<AssetPayload>, now: int)
      returns (records: seq<R.Asset>, err: Option<GoErrors.Error>)
    ensures err.None? && |records| == |payload|
    ensures forall i :: 0 <= i < |payload| ==> fresh(records[i]) && RecordOf(records[i], payload[i], now)
    ensures forall i, j :: 0 <= i < j < |records| ==> records[i] != records[j]
  {
    records := [];
    var i := 0;
    while i < |payload|
      invariant 0 <= i <= |payload| && |records| == i
      invariant forall k :: 0 <= k < i ==> fresh(records[k]) && RecordOf(records[k], payload[k], now)
      invariant forall k, l :: 0 <= k < l < i ==> records[k] != records[l]
    {
      var record := NewRecord(payload[i]);
      if |payload[i].extra| > 0 {
        var extra := new R.ExtraMap(payload[i].extra);
        var _ := record.SetExtra(extra, now);
      }
      records := records + [record];
      i := i + 1;
    }
    err := None;
  }
}
