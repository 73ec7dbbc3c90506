/**
 * internal/api/services/data/assets.go: the API service's copy of the asset operations, over
 * the registry of pkg/registry reached through a context. It differs from the web service in
 * its sentinels, in looking tags up by the names as given, and in wrapping the association's
 * failure and every other lookup failure.
 */
module ApiDataAssets {
  import opened Wrappers
  import GoErrors
  import TagLists
  import RegistryHooks
  import RegistryTypes
  import R = RegistryRecords
  import S = RegistryStore
  import D = RegistryDatabase
  import W = WebDataAssets

  const ErrAssetNotFound := GoErrors.Sentinel("api/services/data.ErrAssetNotFound", "asset not found")
  const ErrTagNotFound := GoErrors.Sentinel("api/services/data.ErrTagNotFound", "tag not found")
  const ErrAssetAlreadyExists := GoErrors.Sentinel("api/services/data.ErrAssetAlreadyExists", "asset already exists")
  const ErrTagAlreadyExists := GoErrors.Sentinel("api/services/data.ErrTagAlreadyExists", "tag already exists")
  const ErrAssetIsReady := GoErrors.Sentinel("api/services/data.ErrAssetIsReady", "reuploading a ready asset is not allowed")

  function TagsFoundError(names: seq<string>, tags: seq<S.TagRow>): Option<GoErrors.Error>
  {
    W.MissingTagsError(ErrTagNotFound, names, tags)
  }

  /**
   * `validateAllTagsFound`: nil exactly when as many tags came back as names were asked for;
   * otherwise this package's `ErrTagNotFound` listing the unmatched names in request order.
   */
  method ValidateAllTagsFound(names: seq<string>, tags: seq<S.TagRow>) returns (err: Option<GoErrors.Error>)
    ensures err.None? <==> |tags| == |names|
    ensures err.Some? ==>
      GoErrors.Is(err.value, ErrTagNotFound) && err.value == W.Detailed(ErrTagNotFound, W.ListText(W.Missing(names, W.FoundNames(tags))))
  {
    err := W.FindMissingTags(ErrTagNotFound, names, tags);
  }

  /** `fmt.Errorf("failed associating tags with asset: %w", e)`. */
  function AssociationFailed(e: GoErrors.Error): GoErrors.Error
  {
    GoErrors.Wrapf("failed associating tags with asset", e)
  }

  /**
   * What `handleCreateAssetTags` returns: nothing to do, the lookup's failure, the unmatched
   * names, then the association's or the re-read's failure, wrapped.
   */
  function TagStepError(stored: seq<S.TagRow>, tagNames: seq<string>, checksum: string,
                        lookupFail: Option<GoErrors.Error>, attachFail: Option<GoErrors.Error>,
                        reloadFail: Option<GoErrors.Error>): Option<GoErrors.Error>
  {
    var normalized := S.NormalizedNames(tagNames);
    var found := W.FoundTags(stored, normalized);
    if tagNames == [] then None
    else if normalized != [] && lookupFail.Some? then lookupFail
    else if TagsFoundError(normalized, found).Some? then TagsFoundError(normalized, found)
    else if found == [] then None
    else if attachFail.Some? then Some(AssociationFailed(GoErrors.Wrapf("failed to attach tags to asset " + checksum, attachFail.value)))
    else if reloadFail.Some? then Some(AssociationFailed(reloadFail.value))
    else None
  }

  /**
   * The lookup by the names as given returns what a lookup by the normalised, blank-free names
   * returns, so checking the result against the normalised names compares like with like.
   */
  lemma RawLookupMatchesNormalized(stored: seq<S.TagRow>, tagNames: seq<string>)
    requires exists n :: n in tagNames && RegistryHooks.NormalizeString(n) != []
    ensures S.NormalizedNames(tagNames) != []
    ensures S.TagsNamed(stored, S.NormalizedNames(tagNames)) == W.FoundTags(stored, S.NormalizedNames(S.NormalizedNames(tagNames)))
  {
    S.TagsByNames(stored, tagNames);
    W.NormalizedTwice(tagNames);
  }

  /**
   * `handleCreateAssetTags`: nothing, and no lookup, for an empty list; otherwise the names as
   * given are looked up, the result is checked against the normalised names, and the tags found
   * are attached. A name with no stored tag fails the step before anything is attached.
   */
  method HandleCreateAssetTags(db: S.Database, asset: S.AssetRow, tagNames: seq<string>,
                               lookupFail: Option<GoErrors.Error>, attachFail: Option<GoErrors.Error>,
                               reloadFail: Option<GoErrors.Error>) returns (err: Option<GoErrors.Error>, lookedUp: bool)
    requires db.Valid()
    requires S.IndexOfId(db.assets, S.AssetId, asset.id).Some?
    modifies db
    ensures db.Valid()
    ensures db.tags == old(db.tags) && db.datasets == old(db.datasets) && db.versions == old(db.versions)
    ensures lookedUp <==> tagNames != []
    ensures err == TagStepError(old(db.tags), tagNames, asset.checksum, lookupFail, attachFail, reloadFail)
    ensures db.assets ==
      if W.Attaches(old(db.tags), tagNames, lookupFail) && attachFail.None? then
        var i := S.IndexOfId(old(db.assets), S.AssetId, asset.id).value;
        S.Retag(old(db.assets), i, old(db.assets)[i].tagIds + S.TagIds(W.FoundTags(old(db.tags), S.NormalizedNames(tagNames))))
      else old(db.assets)
  {
    if |tagNames| == 0 {
      return None, false;
    }
    var normalized := TagLists.MapNonBlank(tagNames, RegistryHooks.NormalizeString);
    S.TagsByNames(db.tags, tagNames);
    var found, lookupErr := D.GetTagsByNames(db, tagNames, lookupFail);
    if lookupErr.Some? {
      return lookupErr, true;
    }
    var tags := if found.Some? then found.value else [];
    if normalized != [] {
      assert normalized[0] in normalized;
      RawLookupMatchesNormalized(db.tags, tagNames);
    }
    assert tags == W.FoundTags(db.tags, normalized);
    err := ValidateAllTagsFound(normalized, tags);
    if err.Some? {
      return err, true;
    }
    S.TagsNamedMembers(db.tags, normalized);
    var _, attachErr := D.AttachTags(db, asset, tags, attachFail, reloadFail);
    if attachErr.Some? {
      return Some(AssociationFailed(attachErr.value)), true;
    }
    return None, true;
  }

  /**
   * Over stored tags with unique names, a successful lookup leads to an association only when
   * every normalised name has a stored tag, and a name with none fails the step.
   */
  lemma TagStepErrorCases(stored: seq<S.TagRow>, tagNames: seq<string>, checksum: string,
                          lookupFail: Option<GoErrors.Error>, attachFail: Option<GoErrors.Error>,
                          reloadFail: Option<GoErrors.Error>)
    requires S.Keyed(stored, S.TagId) && S.UniqueTagNames(stored)
    ensures tagNames == [] ==> TagStepError(stored, tagNames, checksum, lookupFail, attachFail, reloadFail).None?
    ensures W.Attaches(stored, tagNames, lookupFail) ==>
      forall n :: n in S.NormalizedNames(tagNames) ==> exists t :: t in stored && t.name == n
    ensures tagNames != [] && (exists n :: n in S.NormalizedNames(tagNames) && forall t :: t in stored ==> t.name != n) ==>
      TagStepError(stored, tagNames, checksum, lookupFail, attachFail, reloadFail).Some?
  {
    var normalized := S.NormalizedNames(tagNames);
    if normalized != [] && |S.TagsNamed(stored, normalized)| == |normalized| {
      W.CountMatchMeansFound(stored, normalized);
    }
  }

  /** The tag half of the transaction closure, rolling the asset table back on failure. */
  method TagNewAsset(db: S.Database, saved: seq<S.AssetRow>, row: S.AssetRow, tagNames: seq<string>,
                     lookupFail: Option<GoErrors.Error>, attachFail: Option<GoErrors.Error>,
                     reloadFail: Option<GoErrors.Error>) returns (committed: Option<S.AssetRow>, err: Option<GoErrors.Error>)
    requires db.Valid() && db.assets == saved + [row] && row.tagIds == {}
    requires S.Keyed(saved, S.AssetId) && S.UniqueChecksums(saved)
    requires forall i :: 0 <= i < |saved| ==> saved[i].tagIds <= S.TagIds(db.tags)
    modifies db
    ensures db.Valid()
    ensures db.tags == old(db.tags) && db.datasets == old(db.datasets) && db.versions == old(db.versions)
    ensures err == TagStepError(old(db.tags), tagNames, row.checksum, lookupFail, attachFail, reloadFail)
    ensures err.Some? ==> committed.None? && db.assets == saved
    ensures err.None? ==> committed == Some(row.(tagIds := S.TagIds(W.FoundTags(old(db.tags), S.NormalizedNames(tagNames)))))
                          && db.assets == saved + [committed.value]
  {
    var last := |saved|;
    W.IndexOfKeyed(db.assets, last);
    var lookedUp;
    err, lookedUp := HandleCreateAssetTags(db, row, tagNames, lookupFail, attachFail, reloadFail);
    if err.Some? {
      db.RestoreAssets(saved);
      return None, err;
    }
    TaggedRowCommitted(old(db.tags), saved, row, tagNames, lookupFail, attachFail, reloadFail, db.assets);
    committed := Some(db.assets[last]);
  }

  /**
   * After a successful tag step the new asset is the last row, carrying exactly the ids of the
   * tags found for the normalised names (none when no name was given), and the rows before it
   * are untouched.
   */
  lemma TaggedRowCommitted(tags: seq<S.TagRow>, saved: seq<S.AssetRow>, row: S.AssetRow, tagNames: seq<string>,
                           lookupFail: Option<GoErrors.Error>, attachFail: Option<GoErrors.Error>,
                           reloadFail: Option<GoErrors.Error>, assets: seq<S.AssetRow>)
    requires row.tagIds == {}
    requires TagStepError(tags, tagNames, row.checksum, lookupFail, attachFail, reloadFail).None?
    requires assets ==
      if W.Attaches(tags, tagNames, lookupFail) && attachFail.None? then
        S.Retag(saved + [row], |saved|, row.tagIds + S.TagIds(W.FoundTags(tags, S.NormalizedNames(tagNames))))
      else saved + [row]
    ensures assets == saved + [row.(tagIds := S.TagIds(W.FoundTags(tags, S.NormalizedNames(tagNames))))]
  {
    var normalized := S.NormalizedNames(tagNames);
    var found := W.FoundTags(tags, normalized);
    if tagNames == [] || found == [] {
      if tagNames == [] {
        assert normalized == [];
      }
      assert found == [] && S.TagIds(found) == {};
      assert row.(tagIds := S.TagIds(found)) == row;
    } else {
      assert W.Attaches(tags, tagNames, lookupFail) && attachFail.None?;
      assert (saved + [row])[|saved|] == row && row.tagIds + S.TagIds(found) == S.TagIds(found);
      assert assets == (saved + [row])[|saved| := row.(tagIds := S.TagIds(found))];
    }
  }

  /** How `CreateAsset` reports a failed transaction: a unique violation becomes "already exists". */
  function TransactionError(sha256: string, e: GoErrors.Error): GoErrors.Error
  {
    if GoErrors.IsUniqueViolation(e) then W.Detailed(ErrAssetAlreadyExists, sha256) else e
  }

  /** The error of the transaction closure: the create's, else the tag step's. */
  function CreateTransactionError(assets: seq<S.AssetRow>, stored: seq<S.TagRow>, sha256: string, tagNames: seq<string>,
                                  extraEmpty: bool, insertFail: Option<GoErrors.Error>, lookupFail: Option<GoErrors.Error>,
                                  attachFail: Option<GoErrors.Error>, reloadFail: Option<GoErrors.Error>): Option<GoErrors.Error>
  {
    var normalized := RegistryHooks.NormalizeString(sha256);
    var createErr := D.CreateAssetError(assets, sha256, normalized, extraEmpty, insertFail);
    if createErr.Some? then createErr
    else TagStepError(stored, tagNames, normalized, lookupFail, attachFail, reloadFail)
  }

  /** A stored checksum, with everything else in order, is reported as `ErrAssetAlreadyExists`. */
  lemma ExistingChecksumReported(assets: seq<S.AssetRow>, stored: seq<S.TagRow>, sha256: string, tagNames: seq<string>,
                                 lookupFail: Option<GoErrors.Error>, attachFail: Option<GoErrors.Error>,
                                 reloadFail: Option<GoErrors.Error>)
    requires RegistryHooks.ValidateSHA256(RegistryHooks.NormalizeString(sha256)).None?
    requires exists a :: a in assets && a.checksum == RegistryHooks.NormalizeString(sha256)
    ensures var e := CreateTransactionError(assets, stored, sha256, tagNames, false, None, lookupFail, attachFail, reloadFail);
      e.Some? && TransactionError(sha256, e.value) == W.Detailed(ErrAssetAlreadyExists, sha256)
  {
    D.CreateAssetErrorCases(assets, sha256, RegistryHooks.NormalizeString(sha256), false, None);
  }

  /** The transaction closure of `CreateAsset`: the create, then the tags. */
  method CreateTransaction(db: S.Database, sha256: string, display: string, tagNames: seq<string>, extra: R.ExtraMap?,
                           now: int, insertFail: Option<GoErrors.Error>, lookupFail: Option<GoErrors.Error>,
                           attachFail: Option<GoErrors.Error>, reloadFail: Option<GoErrors.Error>)
      returns (committed: Option<S.AssetRow>, err: Option<GoErrors.Error>)
    requires db.Valid()
    modifies db, extra
    ensures db.Valid()
    ensures db.tags == old(db.tags) && db.datasets == old(db.datasets) && db.versions == old(db.versions)
    ensures err == CreateTransactionError(old(db.assets), old(db.tags), sha256, tagNames,
                                          extra != null && |old(extra.entries)| == 0, insertFail, lookupFail,
                                          attachFail, reloadFail)
    ensures err.Some? ==> committed.None? && db.assets == old(db.assets)
    ensures err.None? ==>
      && committed.Some? && db.assets == old(db.assets) + [committed.value]
      && committed.value.checksum == RegistryHooks.NormalizeString(sha256)
      && committed.value.display == display && committed.value.state == RegistryTypes.StatusPending
      && committed.value.tagIds == S.TagIds(W.FoundTags(old(db.tags), S.NormalizedNames(tagNames)))
  {
    var saved := db.assets;
    var created, createErr := D.CreateAssetRecord(db, sha256, display, extra, now, insertFail);
    if createErr.Some? {
      return None, createErr;
    }
    var row := db.assets[|saved|];
    committed, err := TagNewAsset(db, saved, row, tagNames, lookupFail, attachFail, reloadFail);
  }

  /**
   * `CreateAsset`: a failed transaction leaves the asset table as it was and reports a unique
   * violation as "already exists"; the upload URL (`PutURL`, whose outcome is `put`) is
   * requested only after the commit.
   */
  method CreateAsset(db: S.Database, sha256: string, display: string, tagNames: seq<string>, extra: R.ExtraMap?,
                     now: int, insertFail: Option<GoErrors.Error>, lookupFail: Option<GoErrors.Error>,
                     attachFail: Option<GoErrors.Error>, reloadFail: Option<GoErrors.Error>,
                     put: Result<RegistryTypes.PresignedUrl, GoErrors.Error>)
      returns (result: W.CreateAssetResult, urlRequested: bool)
    requires db.Valid()
    modifies db, extra
    ensures db.Valid()
    ensures db.tags == old(db.tags) && db.datasets == old(db.datasets) && db.versions == old(db.versions)
    ensures var txErr := CreateTransactionError(old(db.assets), old(db.tags), sha256, tagNames,
                                                extra != null && |old(extra.entries)| == 0, insertFail, lookupFail,
                                                attachFail, reloadFail);
      && (urlRequested <==> txErr.None?)
      && (txErr.Some? ==> result == W.CreateAssetResult(None, None, Some(TransactionError(sha256, txErr.value)))
                          && db.assets == old(db.assets))
    ensures urlRequested ==>
      && result.asset.Some? && db.assets == old(db.assets) + [result.asset.value]
      && result.asset.value.checksum == RegistryHooks.NormalizeString(sha256)
      && result.asset.value.tagIds == S.TagIds(W.FoundTags(old(db.tags), S.NormalizedNames(tagNames)))
      && result.uploadURL == (if put.Ok? then Some(put.value) else None)
      && result.err == (if put.Ok? then None else Some(W.IngressFailed(put.error)))
  {
    var committed, txErr := CreateTransaction(db, sha256, display, tagNames, extra, now, insertFail, lookupFail,
                                              attachFail, reloadFail);
    if txErr.Some? {
      return W.CreateAssetResult(None, None, Some(TransactionError(sha256, txErr.value))), false;
    }
    if put.Fail? {
      return W.CreateAssetResult(committed, None, Some(W.IngressFailed(put.error))), true;
    }
    return W.CreateAssetResult(committed, Some(put.value), None), true;
  }

  /**
   * `GetAsset`: record-not-found becomes `ErrAssetNotFound` naming the checksum, any other
   * failure is wrapped as "failed to get asset".
   */
  function GetAsset(db: S.Database, sha256: string, fail: Option<GoErrors.Error>): (r: Result<S.AssetRow, GoErrors.Error>)
    reads db
    ensures r.Ok? <==> fail.None? && exists a :: a in db.assets && a.checksum == RegistryHooks.NormalizeString(sha256)
    ensures r.Ok? ==> r.value in db.assets && r.value.checksum == RegistryHooks.NormalizeString(sha256)
    ensures fail.None? && r.Fail? ==> r.error == W.Detailed(ErrAssetNotFound, sha256)
    ensures fail.Some? && !GoErrors.Is(fail.value, GoErrors.RecordNotFound) ==>
      r == Fail(GoErrors.Wrapf("failed to get asset", GoErrors.Wrapf("failed to get asset " + sha256, fail.value)))
  {
    match D.GetAssetRecord(db, sha256, fail)
    case Fail(e) =>
      if GoErrors.Is(e, GoErrors.RecordNotFound) then Fail(W.Detailed(ErrAssetNotFound, sha256))
      else Fail(GoErrors.Wrapf("failed to get asset", e))
    case Ok(a) => Ok(a)
  }

  /**
   * `GetAssetPresignedUrl`: not found, other lookup failure, ready asset, else the `PutURL`
   * outcome `put`.
   */
  function GetAssetPresignedUrl(db: S.Database, sha256: string, fail: Option<GoErrors.Error>,
                                put: Result<RegistryTypes.PresignedUrl, GoErrors.Error>): (r: Result<RegistryTypes.PresignedUrl, GoErrors.Error>)
    reads db
  {
    match D.GetAssetRecord(db, sha256, fail)
    case Fail(e) =>
      if GoErrors.Is(e, GoErrors.RecordNotFound) then Fail(W.Detailed(ErrAssetNotFound, sha256))
      else Fail(GoErrors.Wrapf("failed to get asset presigned url", e))
    case Ok(a) =>
      if a.state == RegistryTypes.StatusReady then Fail(W.Detailed(ErrAssetIsReady, sha256))
      else put
  }

  /**
   * Over a table with unique checksums: a ready asset is refused with `ErrAssetIsReady`, a
   * missing one with `ErrAssetNotFound`, and any other stored asset gets the URL.
   */
  lemma GetAssetPresignedUrlCases(db: S.Database, sha256: string, put: Result<RegistryTypes.PresignedUrl, GoErrors.Error>)
    requires S.UniqueChecksums(db.assets)
    ensures var n := RegistryHooks.NormalizeString(sha256);
      && ((forall a :: a in db.assets ==> a.checksum != n) ==>
            GetAssetPresignedUrl(db, sha256, None, put) == Fail(W.Detailed(ErrAssetNotFound, sha256)))
      && ((exists a :: a in db.assets && a.checksum == n && a.state == RegistryTypes.StatusReady) ==>
            GetAssetPresignedUrl(db, sha256, None, put) == Fail(W.Detailed(ErrAssetIsReady, sha256)))
      && ((exists a :: a in db.assets && a.checksum == n && a.state != RegistryTypes.StatusReady) ==>
            GetAssetPresignedUrl(db, sha256, None, put) == put)
  {
    var n := RegistryHooks.NormalizeString(sha256);
    var r := D.GetAssetRecord(db, sha256, None);
    if r.Ok? {
      forall a | a in db.assets && a.checksum == n
        ensures a == r.value
      {
        var i :| 0 <= i < |db.assets| && db.assets[i] == a;
        var j :| 0 <= j < |db.assets| && db.assets[j] == r.value;
      }
    } else {
      assert GoErrors.Is(r.error, GoErrors.RecordNotFound);
    }
  }
}
