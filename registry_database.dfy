/**
 * pkg/registry/database.go: the record operations that take the database handle (a transaction
 * or the engine's client) as an argument. GORM runs the hooks of pkg/registry/hooks.go on each
 * create and update; a failure of the database itself is a parameter of each operation.
 */
module RegistryDatabase {
  import opened Wrappers
  import GoErrors
  import RegistryHooks
  import RegistrySearch
  import Pagination
  import TagLists
  import R = RegistryRecords
  import S = RegistryStore
  import I = InternalRegistryDatabase

  const ErrChecksumRequired := GoErrors.Plain("asset checksum is required for update")

  /** The error of a failed lookup: the database's own failure, else record-not-found. */
  function LookupCause(fail: Option<GoErrors.Error>): GoErrors.Error
  {
    if fail.Some? then fail.value else GoErrors.RecordNotFound
  }

  /** `GetAssetRecord(db, sha256)`: the asset whose checksum is the normalised argument. */
  function GetAssetRecord(db: S.Database, sha256: string, fail: Option<GoErrors.Error>): (r: Result<S.AssetRow, GoErrors.Error>)
    reads db
    ensures r.Ok? ==> r.value in db.assets && r.value.checksum == RegistryHooks.NormalizeString(sha256)
    ensures r.Fail? <==> fail.Some? || forall a :: a in db.assets ==> a.checksum != RegistryHooks.NormalizeString(sha256)
    ensures r.Fail? ==> r.error == GoErrors.Wrapf("failed to get asset " + sha256, LookupCause(fail))
  {
    if fail.Some? then Fail(GoErrors.Wrapf("failed to get asset " + sha256, fail.value))
    else match S.AssetByChecksum(db.assets, RegistryHooks.NormalizeString(sha256))
      case Fail(e) => Fail(GoErrors.Wrapf("failed to get asset " + sha256, e))
      case Ok(a) => Ok(a)
  }

  /** `GetAssetRecordTags(db, sha256)`: the asset's stored tags, after the asset lookup. */
  function GetAssetRecordTags(db: S.Database, sha256: string, fail: Option<GoErrors.Error>, findFail: Option<GoErrors.Error>): (r: Result<seq<S.TagRow>, GoErrors.Error>)
    reads db
    ensures GetAssetRecord(db, sha256, fail).Fail? ==> r == Fail(GetAssetRecord(db, sha256, fail).error)
    ensures GetAssetRecord(db, sha256, fail).Ok? && findFail.Some? ==>
      r == Fail(GoErrors.Wrapf("failed to get asset " + sha256 + " tags", findFail.value))
    ensures r.Ok? ==> (set t | t in r.value :: t.name) == S.TagNames(db.tags, GetAssetRecord(db, sha256, fail).value)
  {
    match GetAssetRecord(db, sha256, fail)
    case Fail(e) => Fail(e)
    case Ok(a) =>
      if findFail.Some? then Fail(GoErrors.Wrapf("failed to get asset " + sha256 + " tags", findFail.value))
      else Ok(S.TagsOf(db.tags, a))
  }

  /** `fmt.Errorf("failed setting new asset %s extra field: %w", sha256, cause)`. */
  function SetExtraFailed(sha256: string, cause: GoErrors.Error): GoErrors.Error
  {
    GoErrors.Wrapf("failed setting new asset " + sha256 + " extra field", cause)
  }

  /** `fmt.Errorf("failed creating new asset %s: %w", sha256, cause)`. */
  function CreateFailed(sha256: string, cause: GoErrors.Error): GoErrors.Error
  {
    GoErrors.Wrapf("failed creating new asset " + sha256, cause)
  }

  /** Why the record cannot be built: an empty extra map, then the create hook's checksum check. */
  function RecordError(sha256: string, checksum: string, extraEmpty: bool): Option<GoErrors.Error>
  {
    if extraEmpty then Some(SetExtraFailed(sha256, R.ErrEmptyExtra))
    else match RegistryHooks.ValidateSHA256(checksum)
      case Some(e) => Some(CreateFailed(sha256, e))
      case None => None
  }

  /** Why `CreateAssetRecord` fails, in the order it checks: the record, then the insert. */
  function CreateAssetError(assets: seq<S.AssetRow>, sha256: string, checksum: string, extraEmpty: bool,
                            fail: Option<GoErrors.Error>): Option<GoErrors.Error>
  {
    if RecordError(sha256, checksum, extraEmpty).Some? then RecordError(sha256, checksum, extraEmpty)
    else match S.InsertAssetError(assets, checksum, fail)
      case Some(e) => Some(CreateFailed(sha256, e))
      case None => None
  }

  /**
   * A create goes through only for a non-empty extra (or none), a checksum that is 64 hex
   * digits once normalised and not yet stored, and a database that does not fail; a checksum
   * already stored is reported as a unique violation.
   */
  lemma CreateAssetErrorCases(assets: seq<S.AssetRow>, sha256: string, checksum: string, extraEmpty: bool,
                              fail: Option<GoErrors.Error>)
    ensures CreateAssetError(assets, sha256, checksum, extraEmpty, fail).None? <==>
      !extraEmpty && RegistryHooks.ValidateSHA256(checksum).None? && fail.None?
      && forall a :: a in assets ==> a.checksum != checksum
    ensures (!extraEmpty && RegistryHooks.ValidateSHA256(checksum).None? && fail.None?
      && exists a :: a in assets && a.checksum == checksum) ==>
        GoErrors.IsUniqueViolation(CreateAssetError(assets, sha256, checksum, extraEmpty, fail).value)
  {
    var record := RecordError(sha256, checksum, extraEmpty);
    if !extraEmpty && RegistryHooks.ValidateSHA256(checksum).None? {
      assert record.None?;
      RegistryHooks.ValidateSHA256Accepts(checksum);
      assert checksum != [];
      var insert := S.InsertAssetError(assets, checksum, fail);
      if insert.Some? {
        CreateFailedKeepsUnique(sha256, insert.value);
      }
    } else {
      assert record.Some?;
    }
  }

  lemma CreateFailedKeepsUnique(sha256: string, e: GoErrors.Error)
    ensures GoErrors.IsUniqueViolation(CreateFailed(sha256, e)) == GoErrors.IsUniqueViolation(e)
  {
    assert CreateFailed(sha256, e) == GoErrors.Wrap("failed creating new asset " + sha256 + ": ", e, "");
  }

  /** The extra column of a new asset: empty, or the one-element list holding the given map. */
  function RecordedExtra(extra: R.ExtraMap?): R.JsonBytes
    reads extra
  {
    if extra == null then R.Empty else R.EncodeList([Some(extra.entries)])
  }

  /**
   * The record `CreateAssetRecord` builds before the insert: the extra map recorded only when
   * one is given, then the create hook's normalisation, checksum check and "pending" state.
   */
  method NewAssetRecord(sha256: string, display: string, extra: R.ExtraMap?, now: int) returns (asset: R.Asset?, err: Option<GoErrors.Error>)
    modifies extra
    ensures err == RecordError(sha256, RegistryHooks.NormalizeString(sha256), extra != null && |old(extra.entries)| == 0)
    ensures err.Some? <==> asset == null
    ensures err.None? ==>
      && asset != null && fresh(asset)
      && asset.checksum == RegistryHooks.NormalizeString(sha256) && asset.state == "pending"
      && asset.display == display && asset.mimeType == ""
      && asset.extra == RecordedExtra(extra)
  {
    var a := new R.Asset(0, sha256, display, R.Empty, "", 0, "");
    if extra != null {
      var e := a.SetExtra(extra, now);
      if e.Some? {
        return null, Some(SetExtraFailed(sha256, e.value));
      }
      assert R.DecodeList(R.Empty) + [Some(extra.entries)] == [Some(extra.entries)];
    }
    var hookErr := RegistryHooks.AssetBeforeCreate(a);
    if hookErr.Some? {
      return null, Some(CreateFailed(sha256, hookErr.value));
    }
    return a, None;
  }

  /**
   * `CreateAssetRecord`: `SetExtra` runs only for a non-nil extra and its refusal stops the
   * create; then the create hook normalises and checks the checksum and sets the state to
   * "pending", and the row is inserted.
   */
  method CreateAssetRecord(db: S.Database, sha256: string, display: string, extra: R.ExtraMap?, now: int,
                           fail: Option<GoErrors.Error>) returns (asset: R.Asset?, err: Option<GoErrors.Error>)
    requires db.Valid()
    modifies db, extra
    ensures db.Valid()
    ensures db.tags == old(db.tags) && db.datasets == old(db.datasets) && db.versions == old(db.versions)
    ensures err == CreateAssetError(old(db.assets), sha256, RegistryHooks.NormalizeString(sha256),
                                    extra != null && |old(extra.entries)| == 0, fail)
    ensures err.Some? ==> asset == null && db.assets == old(db.assets)
    ensures err.None? ==>
      && asset != null && fresh(asset)
      && asset.checksum == RegistryHooks.NormalizeString(sha256) && asset.state == "pending"
      && asset.extra == RecordedExtra(extra)
      && db.assets == old(db.assets) + [S.AssetRow(asset.id, asset.checksum, display, "", "pending", {})]
  {
    assert extra != null ==> extra as object != db as object;
    var a, e := NewAssetRecord(sha256, display, extra, now);
    if e.Some? {
      return null, e;
    }
    assert a as object != db as object;
    err := InsertNewAsset(db, a, sha256, fail);
    if err.Some? {
      return null, err;
    }
    return a, None;
  }

  /** The insert half of `CreateAssetRecord`: the row gets the asset's fields and its new id. */
  method InsertNewAsset(db: S.Database, a: R.Asset, sha256: string, fail: Option<GoErrors.Error>)
      returns (err: Option<GoErrors.Error>)
    requires db.Valid()
    modifies db, a
    ensures db.Valid()
    ensures db.tags == old(db.tags) && db.datasets == old(db.datasets) && db.versions == old(db.versions)
    ensures a.checksum == old(a.checksum) && a.display == old(a.display) && a.mimeType == old(a.mimeType)
    ensures a.state == old(a.state) && a.extra == old(a.extra)
    ensures err == match S.InsertAssetError(old(db.assets), a.checksum, fail)
      case Some(e) => Some(CreateFailed(sha256, e))
      case None => None
    ensures err.Some? ==> db.assets == old(db.assets)
    ensures err.None? ==> db.assets == old(db.assets) + [S.AssetRow(a.id, a.checksum, a.display, a.mimeType, a.state, {})]
  {
    assert a as object != db as object;
    var id, insertErr := db.InsertAsset(a.checksum, a.display, a.mimeType, a.state, fail);
    if insertErr.Some? {
      return Some(CreateFailed(sha256, insertErr.value));
    }
    a.id := id;
    return None;
  }


  /**
   * GORM's `Statement.Changed("Checksum")` in an update with a struct: the destination's
   * non-empty checksum differs from the model's.
   */
  function ChecksumChanged(model: string, dest: string): bool
  {
    dest != [] && dest != model
  }

  /**
   * The update of the row with id `id` to an asset's fields, given what the update hook is
   * told about the checksum column: an empty checksum is refused before the database is
   * touched; then the hook's refusal; GORM refuses an id of 0 for want of a `WHERE`; then
   * the database's failure; a missing row updates nothing and the re-read finds nothing;
   * otherwise the unique index on checksum decides, and the row takes the non-empty fields.
   */
  function UpdateWith(assets: seq<S.AssetRow>, id: nat, checksum: string, display: string, mimeType: string,
                      state: string, checksumChanged: bool, fail: Option<GoErrors.Error>): Result<seq<S.AssetRow>, GoErrors.Error>
  {
    var prefix := "failed to update asset " + checksum;
    var hookErr := RegistryHooks.AssetBeforeUpdate(state, checksumChanged);
    if checksum == [] then Fail(ErrChecksumRequired)
    else if hookErr.Some? then Fail(GoErrors.Wrapf(prefix, hookErr.value))
    else if id == 0 then Fail(GoErrors.Wrapf(prefix, GoErrors.MissingWhereClause))
    else if fail.Some? then Fail(GoErrors.Wrapf(prefix, fail.value))
    else match S.IndexOfId(assets, S.AssetId, id)
      case None => Fail(GoErrors.RecordNotFound)
      case Some(i) =>
        var e := S.UpdateAssetError(assets, i, checksum, None);
        if e.Some? then Fail(GoErrors.Wrapf(prefix, e.value))
        else Ok(assets[i := S.Updated(assets[i], checksum, display, mimeType, state)])
  }

  /**
   * `UpdateAssetRecord` as written: `Model(asset).Updates(asset)` makes the asset both the
   * model and the destination, so `Changed("Checksum")` compares the asset with itself.
   */
  function UpdateOutcome(assets: seq<S.AssetRow>, id: nat, checksum: string, display: string, mimeType: string,
                         state: string, fail: Option<GoErrors.Error>): Result<seq<S.AssetRow>, GoErrors.Error>
  {
    UpdateWith(assets, id, checksum, display, mimeType, state, ChecksumChanged(checksum, checksum), fail)
  }

  /** The intended guard: the checksum is compared with the stored row's. */
  function UpdateOutcomeIntended(assets: seq<S.AssetRow>, id: nat, checksum: string, display: string, mimeType: string,
                                 state: string, fail: Option<GoErrors.Error>): Result<seq<S.AssetRow>, GoErrors.Error>
  {
    var stored := match S.IndexOfId(assets, S.AssetId, id) case Some(i) => assets[i].checksum case None => checksum;
    UpdateWith(assets, id, checksum, display, mimeType, state, ChecksumChanged(stored, checksum), fail)
  }

  /**
   * The update, as written: it goes through exactly when the checksum and state are set, the
   * id is not 0, the database does not fail, the row exists and no other row holds the
   * checksum; the row then takes the asset's non-empty fields, the checksum included, and
   * the table keeps its keys and unique checksums.
   */
  lemma UpdateOutcomeProperties(assets: seq<S.AssetRow>, id: nat, checksum: string, display: string, mimeType: string,
                                state: string, fail: Option<GoErrors.Error>)
    requires S.Keyed(assets, S.AssetId) && S.UniqueChecksums(assets)
    ensures var r := UpdateOutcome(assets, id, checksum, display, mimeType, state, fail);
      (r.Ok? <==> checksum != [] && state != [] && id != 0 && fail.None? && S.IndexOfId(assets, S.AssetId, id).Some?
                  && forall k :: 0 <= k < |assets| && assets[k].id != id ==> assets[k].checksum != checksum)
      && (r.Ok? ==>
            |r.value| == |assets| && S.Keyed(r.value, S.AssetId) && S.UniqueChecksums(r.value)
            && forall k :: 0 <= k < |assets| ==>
                 r.value[k] == if assets[k].id == id then S.Updated(assets[k], checksum, display, mimeType, state) else assets[k])
    ensures checksum != [] && state != [] && id == 0 ==>
      UpdateOutcome(assets, id, checksum, display, mimeType, state, fail)
        == Fail(GoErrors.Wrapf("failed to update asset " + checksum, GoErrors.MissingWhereClause))
    ensures checksum != [] && state != [] && id != 0 && fail.None? && S.IndexOfId(assets, S.AssetId, id).None? ==>
      UpdateOutcome(assets, id, checksum, display, mimeType, state, fail) == Fail(GoErrors.RecordNotFound)
  {
    var r := UpdateOutcome(assets, id, checksum, display, mimeType, state, fail);
    assert !ChecksumChanged(checksum, checksum);
    if checksum != [] && state != [] && id != 0 && fail.None? && S.IndexOfId(assets, S.AssetId, id).Some? {
      var i := S.IndexOfId(assets, S.AssetId, id).value;
      OtherRowsOtherIds(assets, i);
      if r.Ok? {
        UpdatedRowKeeps(assets, i, checksum, display, mimeType, state);
      }
    }
  }

  /** In a keyed table only the row at `i` has that row's id. */
  lemma OtherRowsOtherIds(assets: seq<S.AssetRow>, i: nat)
    requires S.Keyed(assets, S.AssetId) && i < |assets|
    ensures forall k :: 0 <= k < |assets| ==> (assets[k].id == assets[i].id <==> k == i)
  {
    forall k | 0 <= k < |assets|
      ensures assets[k].id == assets[i].id <==> k == i
    {
      if k < i { assert S.AssetId(assets[k]) < S.AssetId(assets[i]); }
      else if k > i { assert S.AssetId(assets[i]) < S.AssetId(assets[k]); }
    }
  }

  /** Writing a checksum no other row holds into row `i` keeps the keys and the unique index. */
  lemma UpdatedRowKeeps(assets: seq<S.AssetRow>, i: nat, checksum: string, display: string, mimeType: string, state: string)
    requires S.Keyed(assets, S.AssetId) && S.UniqueChecksums(assets) && i < |assets|
    requires checksum == [] || forall k :: 0 <= k < |assets| && k != i ==> assets[k].checksum != checksum
    ensures var u := assets[i := S.Updated(assets[i], checksum, display, mimeType, state)];
      S.Keyed(u, S.AssetId) && S.UniqueChecksums(u)
  {
    var u := assets[i := S.Updated(assets[i], checksum, display, mimeType, state)];
    assert forall k :: 0 <= k < |u| ==> S.AssetId(u[k]) == S.AssetId(assets[k]);
  }

  /**
   * As written the checksum guard never fires: a stored row with checksum `c1`, updated with
   * a different valid checksum `c2` that no other row holds, ends up holding `c2`.
   */
  lemma ChecksumOverwrittenAsWritten(assets: seq<S.AssetRow>, i: nat, checksum: string, display: string, mimeType: string, state: string)
    requires S.Keyed(assets, S.AssetId) && S.UniqueChecksums(assets) && i < |assets|
    requires checksum != [] && state != [] && checksum != assets[i].checksum
    requires forall k :: 0 <= k < |assets| ==> assets[k].checksum != checksum
    ensures var r := UpdateOutcome(assets, assets[i].id, checksum, display, mimeType, state, None);
      r.Ok? && r.value[i].checksum == checksum != assets[i].checksum
  {
    OtherRowsOtherIds(assets, i);
    UpdateOutcomeProperties(assets, assets[i].id, checksum, display, mimeType, state, None);
  }

  /**
   * With the intended guard the checksum column is fixed: an update that goes through keeps
   * every row's checksum, and a different checksum for a stored row is refused by the hook.
   */
  lemma IntendedChecksumFixed(assets: seq<S.AssetRow>, id: nat, checksum: string, display: string, mimeType: string,
                              state: string, fail: Option<GoErrors.Error>)
    requires S.Keyed(assets, S.AssetId)
    ensures var r := UpdateOutcomeIntended(assets, id, checksum, display, mimeType, state, fail);
      r.Ok? ==> |r.value| == |assets| && forall k :: 0 <= k < |assets| ==> r.value[k].checksum == assets[k].checksum
    ensures match S.IndexOfId(assets, S.AssetId, id)
      case Some(i) =>
        state != [] && checksum != [] && checksum != assets[i].checksum ==>
          UpdateOutcomeIntended(assets, id, checksum, display, mimeType, state, fail)
            == Fail(GoErrors.Wrapf("failed to update asset " + checksum, RegistryHooks.Invalid("checksum cannot be modified after creation")))
      case None => true
  {
    match S.IndexOfId(assets, S.AssetId, id)
    case None =>
    case Some(i) =>
  }

  /**
   * `UpdateAssetRecord`: the outcome `UpdateOutcome` gives, as written. On success the
   * caller's asset is re-read: it takes the row's display and MIME type, which are its own
   * where it had them; on failure nothing changes.
   */
  method UpdateAssetRecord(db: S.Database, asset: R.Asset, fail: Option<GoErrors.Error>)
      returns (err: Option<GoErrors.Error>)
    requires db.Valid()
    modifies db, asset
    ensures db.Valid()
    ensures db.tags == old(db.tags) && db.datasets == old(db.datasets) && db.versions == old(db.versions)
    ensures asset.id == old(asset.id) && asset.checksum == old(asset.checksum) && asset.state == old(asset.state)
    ensures asset.extra == old(asset.extra) && asset.sizeBytes == old(asset.sizeBytes)
    ensures match UpdateOutcome(old(db.assets), old(asset.id), old(asset.checksum), old(asset.display),
                                old(asset.mimeType), old(asset.state), fail)
      case Fail(e) =>
        err == Some(e) && db.assets == old(db.assets)
        && asset.display == old(asset.display) && asset.mimeType == old(asset.mimeType)
      case Ok(rows) =>
        err.None? && db.assets == rows
        && forall k :: 0 <= k < |rows| && rows[k].id == asset.id ==>
             rows[k].display == asset.display && rows[k].mimeType == asset.mimeType
  {
    ghost var outcome := UpdateOutcome(db.assets, asset.id, asset.checksum, asset.display, asset.mimeType, asset.state, fail);
    if asset.checksum == [] {
      return Some(ErrChecksumRequired);
    }
    var prefix := "failed to update asset " + asset.checksum;
    var hookErr := RegistryHooks.AssetBeforeUpdate(asset.state, ChecksumChanged(asset.checksum, asset.checksum));
    if hookErr.Some? {
      return Some(GoErrors.Wrapf(prefix, hookErr.value));
    }
    if asset.id == 0 {
      return Some(GoErrors.Wrapf(prefix, GoErrors.MissingWhereClause));
    }
    if fail.Some? {
      return Some(GoErrors.Wrapf(prefix, fail.value));
    }
    var found := S.IndexOfId(db.assets, S.AssetId, asset.id);
    if found.None? {
      return Some(GoErrors.RecordNotFound);
    }
    var i := found.value;
    assert asset as object != db as object;
    var updateErr := db.UpdateAsset(i, asset.checksum, asset.display, asset.mimeType, asset.state, None);
    if updateErr.Some? {
      assert outcome == Fail(GoErrors.Wrapf(prefix, updateErr.value));
      return Some(GoErrors.Wrapf(prefix, updateErr.value));
    }
    assert outcome == Ok(db.assets);
    OtherRowsOtherIds(db.assets, i);
    Reload(asset, db.assets[i]);
    return None;
  }

  /** `First(asset, asset.ID)` into the caller's asset: it takes the row's display and MIME type. */
  method Reload(asset: R.Asset, row: S.AssetRow)
    modifies asset
    ensures asset.display == row.display && asset.mimeType == row.mimeType
    ensures asset.id == old(asset.id) && asset.checksum == old(asset.checksum) && asset.state == old(asset.state)
    ensures asset.extra == old(asset.extra) && asset.sizeBytes == old(asset.sizeBytes)
  {
    asset.display := row.display;
    asset.mimeType := row.mimeType;
  }

  /**
   * `AttachTags`: nothing at all for an empty list; otherwise the asset's tag set gains the
   * given tags, and the caller's asset is re-read.
   */
  method AttachTags(db: S.Database, asset: S.AssetRow, tags: seq<S.TagRow>, fail: Option<GoErrors.Error>,
                    reloadFail: Option<GoErrors.Error>) returns (reloaded: S.AssetRow, err: Option<GoErrors.Error>)
    requires db.Valid()
    requires S.IndexOfId(db.assets, S.AssetId, asset.id).Some?
    requires forall t :: t in tags ==> t in db.tags
    modifies db
    ensures db.Valid()
    ensures db.tags == old(db.tags) && db.datasets == old(db.datasets) && db.versions == old(db.versions)
    ensures tags == [] ==> err.None? && reloaded == asset && db.assets == old(db.assets)
    ensures tags != [] && fail.Some? ==>
      err == Some(GoErrors.Wrapf("failed to attach tags to asset " + asset.checksum, fail.value))
      && db.assets == old(db.assets)
    ensures tags != [] && fail.None? ==>
      var i := S.IndexOfId(old(db.assets), S.AssetId, asset.id).value;
      && db.assets == S.Retag(old(db.assets), i, old(db.assets)[i].tagIds + S.TagIds(tags))
      && err == reloadFail
      && (reloadFail.None? ==> reloaded == db.assets[i])
  {
    if |tags| == 0 {
      return asset, None;
    }
    var e := db.AttachTags(asset.id, tags, fail);
    if e.Some? {
      return asset, Some(GoErrors.Wrapf("failed to attach tags to asset " + asset.checksum, e.value));
    }
    if reloadFail.Some? {
      return asset, reloadFail;
    }
    var i := S.IndexOfId(db.assets, S.AssetId, asset.id).value;
    return db.assets[i], None;
  }

  /**
   * `DetachTags`: nothing at all for an empty list; otherwise the asset's tag set loses exactly
   * the given tags, and the caller's asset is re-read.
   */
  method DetachTags(db: S.Database, asset: S.AssetRow, tags: seq<S.TagRow>, fail: Option<GoErrors.Error>,
                    reloadFail: Option<GoErrors.Error>) returns (reloaded: S.AssetRow, err: Option<GoErrors.Error>)
    requires db.Valid()
    requires S.IndexOfId(db.assets, S.AssetId, asset.id).Some?
    modifies db
    ensures db.Valid()
    ensures db.tags == old(db.tags) && db.datasets == old(db.datasets) && db.versions == old(db.versions)
    ensures tags == [] ==> err.None? && reloaded == asset && db.assets == old(db.assets)
    ensures tags != [] && fail.Some? ==>
      err == Some(GoErrors.Wrapf("failed to detach tags from asset " + asset.checksum, fail.value))
      && db.assets == old(db.assets)
    ensures tags != [] && fail.None? ==>
      var i := S.IndexOfId(old(db.assets), S.AssetId, asset.id).value;
      && db.assets == S.Retag(old(db.assets), i, old(db.assets)[i].tagIds - S.TagIds(tags))
      && err == reloadFail
      && (reloadFail.None? ==> reloaded == db.assets[i])
  {
    if |tags| == 0 {
      return asset, None;
    }
    var e := db.DetachTags(asset.id, tags, fail);
    if e.Some? {
      return asset, Some(GoErrors.Wrapf("failed to detach tags from asset " + asset.checksum, e.value));
    }
    if reloadFail.Some? {
      return asset, reloadFail;
    }
    var i := S.IndexOfId(db.assets, S.AssetId, asset.id).value;
    return db.assets[i], None;
  }

  /**
   * `CreateTagRecord`: the save hook stores the normalised name and refuses an invalid one;
   * then the insert, which refuses a stored name.
   */
  method CreateTagRecord(db: S.Database, name: string, fail: Option<GoErrors.Error>) returns (tag: Option<S.TagRow>, err: Option<GoErrors.Error>)
    requires db.Valid()
    modifies db
    ensures db.Valid()
    ensures db.assets == old(db.assets) && db.datasets == old(db.datasets) && db.versions == old(db.versions)
    ensures !RegistryHooks.ValidateString(RegistryHooks.NormalizeString(name)) ==>
      err == Some(GoErrors.Wrapf("failed to create tag " + name, RegistryHooks.Invalid("tag name contains invalid characters")))
    ensures err.None? <==>
      RegistryHooks.ValidateString(RegistryHooks.NormalizeString(name)) && fail.None?
      && forall t :: t in old(db.tags) ==> t.name != RegistryHooks.NormalizeString(name)
    ensures err.Some? ==> tag.None? && db.tags == old(db.tags)
    ensures err.None? ==> tag.Some? && tag.value.name == RegistryHooks.NormalizeString(name) && db.tags == old(db.tags) + [tag.value]
  {
    var t := new R.Tag(name);
    var hookErr := RegistryHooks.TagBeforeSave(t);
    if hookErr.Some? {
      return None, Some(GoErrors.Wrapf("failed to create tag " + name, hookErr.value));
    }
    assert t as object != db as object;
    var id, e := db.InsertTag(t.name, fail);
    if e.Some? {
      return None, Some(GoErrors.Wrapf("failed to create tag " + name, e.value));
    }
    return Some(S.TagRow(id, t.name)), None;
  }

  /**
   * `GetTagsByNames`: nil without a query for an empty list or one whose names all normalise
   * to ""; otherwise the stored tags named by the non-blank normalised names.
   */
  method GetTagsByNames(db: S.Database, names: seq<string>, fail: Option<GoErrors.Error>) returns (tags: Option<seq<S.TagRow>>, err: Option<GoErrors.Error>)
    ensures (forall n :: n in names ==> RegistryHooks.NormalizeString(n) == []) ==> tags.None? && err.None?
    ensures (exists n :: n in names && RegistryHooks.NormalizeString(n) != []) ==>
      if fail.Some? then tags.None? && err == fail
      else err.None? && tags == Some(S.TagsNamed(db.tags, S.NormalizedNames(names)))
  {
    if |names| == 0 {
      return None, None;
    }
    var normalized := TagLists.MapNonBlank(names, RegistryHooks.NormalizeString);
    S.TagsByNames(db.tags, names);
    if |normalized| == 0 {
      return None, None;
    }
    if fail.Some? {
      return None, fail;
    }
    return Some(S.TagsNamed(db.tags, normalized)), None;
  }

  /** The filters of this `ListAssetsRecords`: `id > cursor` is always applied, even for 0. */
  predicate Listed(q: RegistrySearch.Query, tags: seq<S.TagRow>, a: S.AssetRow)
  {
    S.QueryMatches(q, tags, a) && a.id > q.cursor
  }

  function ListedFn(q: RegistrySearch.Query, tags: seq<S.TagRow>): S.AssetRow -> bool
  {
    a => Listed(q, tags, a)
  }

  function ListResult(q: RegistrySearch.Query, tags: seq<S.TagRow>, assets: seq<S.AssetRow>): seq<S.AssetRow>
  {
    Pagination.Take(Pagination.Where(assets, ListedFn(q, tags)), q.limit)
  }

  /**
   * Over a table whose ids are all at least 1, always filtering `id > cursor` returns what the
   * older engine's "only when cursor > 0" returns.
   */
  lemma SameAsConditionalCursor(q: RegistrySearch.Query, tags: seq<S.TagRow>, assets: seq<S.AssetRow>)
    requires S.Keyed(assets, S.AssetId)
    ensures ListResult(q, tags, assets) == I.ListResult(q, tags, assets)
  {
    forall i | 0 <= i < |assets|
      ensures ListedFn(q, tags)(assets[i]) == I.ListedFn(q, tags)(assets[i])
    {
      assert S.AssetId(assets[i]) >= 1;
    }
    Pagination.WhereAgree(assets, ListedFn(q, tags), I.ListedFn(q, tags));
  }

  /**
   * What `ListAssetsRecords` returns for options the query accepts: at most `limit` assets in
   * ascending id order, every one above the cursor and carrying all included and none of the
   * excluded tags.
   */
  lemma ListResultProperties(opts: seq<RegistrySearch.SearchAssetsOption>, tags: seq<S.TagRow>, assets: seq<S.AssetRow>)
    requires S.Keyed(assets, S.AssetId)
    requires RegistrySearch.ApplyAll(opts, RegistrySearch.DefaultQuery).Ok?
    ensures var q := RegistrySearch.ApplyAll(opts, RegistrySearch.DefaultQuery).value;
      var r := ListResult(q, tags, assets);
      && |r| <= q.limit
      && Pagination.Ascending(r, S.AssetId)
      && (forall a :: a in r ==> a in assets && a.id > q.cursor)
      && (forall a, n :: a in r && n in q.includedTags ==> n in S.TagNames(tags, a))
      && (forall a, n :: a in r && n in q.excludedTags ==> n !in S.TagNames(tags, a))
  {
    var q := RegistrySearch.ApplyAll(opts, RegistrySearch.DefaultQuery).value;
    SameAsConditionalCursor(q, tags, assets);
    I.ListResultProperties(opts, tags, assets);
    var r := ListResult(q, tags, assets);
    forall a | a in r
      ensures a.id > q.cursor
    {
      assert a.id >= 1 by {
        var i :| 0 <= i < |assets| && assets[i] == a;
        assert S.AssetId(assets[i]) >= 1;
      }
    }
  }

  /**
   * `ListAssetsRecords`: the options' first refusal, wrapped as `NewSearchAssetsQuery` wraps
   * it; else the database's failure; else the query's rows.
   */
  method ListAssetsRecords(db: S.Database, opts: seq<RegistrySearch.SearchAssetsOption>, fail: Option<GoErrors.Error>)
      returns (assets: seq<S.AssetRow>, err: Option<GoErrors.Error>)
    ensures match RegistrySearch.ApplyAll(opts, RegistrySearch.DefaultQuery)
      case Fail(e) => assets == [] && err == Some(GoErrors.Wrapf("failed to apply option", e))
      case Ok(q) =>
        if fail.Some? then assets == [] && err == fail
        else err.None? && assets == ListResult(q, db.tags, db.assets)
  {
    var query, qerr := RegistrySearch.NewSearchAssetsQuery(opts);
    if qerr.Some? {
      return [], qerr;
    }
    if fail.Some? {
      return [], fail;
    }
    return ListResult(query.Fields(), db.tags, db.assets), None;
  }

  /** The version table as the numbering hook's query sees it. */
  function NumberRows(versions: seq<S.VersionRow>): (r: seq<RegistryHooks.VersionRow>)
    ensures |r| == |versions|
    ensures forall i :: 0 <= i < |r| ==> r[i].datasetID == versions[i].datasetId && r[i].number == versions[i].number
  {
    seq(|versions|, i requires 0 <= i < |versions| => RegistryHooks.VersionRow(versions[i].datasetId, versions[i].number))
  }

  /**
   * `CreateDatasetVersionRecord`: fails when no dataset matches the name; otherwise the save
   * hook normalises and checks the display, the create hook numbers the version one above the
   * dataset's highest, and the version is inserted linked to that dataset's id.
   */
  method CreateDatasetVersionRecord(db: S.Database, datasetName: string, versionDisplay: string, description: string,
                                    lookupFail: Option<GoErrors.Error>, numberFail: Option<GoErrors.Error>,
                                    insertFail: Option<GoErrors.Error>) returns (version: Option<S.VersionRow>, err: Option<GoErrors.Error>)
    requires db.Valid()
    modifies db
    ensures db.Valid()
    ensures db.assets == old(db.assets) && db.tags == old(db.tags) && db.datasets == old(db.datasets)
    ensures err.Some? ==> version.None? && db.versions == old(db.versions)
    ensures lookupFail.Some? ==> err == Some(GoErrors.Wrapf("failed to get dataset " + datasetName, lookupFail.value))
    ensures lookupFail.None? && S.DatasetWhere(old(db.datasets), datasetName).Fail? ==>
      err == Some(GoErrors.Wrapf("failed to get dataset " + datasetName, GoErrors.RecordNotFound))
    ensures (lookupFail.None? && S.DatasetWhere(old(db.datasets), datasetName).Ok?
      && !RegistryHooks.ValidateString(RegistryHooks.NormalizeString(versionDisplay))) ==> err.Some?
    ensures err.None? ==>
      var ds := S.DatasetWhere(old(db.datasets), datasetName).value;
      && lookupFail.None? && S.DatasetWhere(old(db.datasets), datasetName).Ok?
      && version.Some?
      && version.value.datasetId == ds.id
      && version.value.display == RegistryHooks.NormalizeString(versionDisplay)
      && version.value.number == RegistryHooks.MaxNumber(NumberRows(old(db.versions)), ds.id) + 1
      && version.value.description == description
      && db.versions == old(db.versions) + [version.value]
  {
    if lookupFail.Some? {
      return None, Some(GoErrors.Wrapf("failed to get dataset " + datasetName, lookupFail.value));
    }
    var found := S.DatasetWhere(db.datasets, datasetName);
    if found.Fail? {
      return None, Some(GoErrors.Wrapf("failed to get dataset " + datasetName, found.error));
    }
    var dv := new R.DatasetVersion(found.value.id, versionDisplay, description);
    var saveErr := RegistryHooks.DatasetVersionBeforeSave(dv);
    if saveErr.Some? {
      return None, Some(GoErrors.Wrapf("failed to create a new dataset version for " + datasetName, saveErr.value));
    }
    assert dv as object != db as object;
    var numberErr := RegistryHooks.DatasetVersionBeforeCreate(dv, NumberRows(db.versions), numberFail);
    if numberErr.Some? {
      return None, Some(GoErrors.Wrapf("failed to create a new dataset version for " + datasetName, numberErr.value));
    }
    var id, e := db.InsertVersion(dv.datasetID, dv.display, dv.number, dv.description, insertFail);
    if e.Some? {
      return None, Some(GoErrors.Wrapf("failed to create a new dataset version for " + datasetName, e.value));
    }
    return Some(S.VersionRow(id, dv.datasetID, dv.display, dv.number, dv.description)), None;
  }

  /**
   * The lookup's struct condition drops an empty name, so with an empty dataset name the new
   * version is linked to the first dataset stored, whatever its name.
   */
  lemma EmptyNameTakesFirstDataset(datasets: seq<S.DatasetRow>)
    requires datasets != []
    ensures S.DatasetWhere(datasets, "") == Ok(datasets[0])
  {
  }

  /**
   * `CreateDatasetRecord`: the save hook stores the normalised name and refuses an invalid one;
   * then the insert, which refuses a stored name. Either refusal is wrapped as "failed to
   * create dataset".
   */
  method CreateDatasetRecord(db: S.Database, name: string, description: string, fail: Option<GoErrors.Error>)
      returns (ds: Option<S.DatasetRow>, err: Option<GoErrors.Error>)
    requires db.Valid()
    modifies db
    ensures db.Valid()
    ensures db.assets == old(db.assets) && db.tags == old(db.tags) && db.versions == old(db.versions)
    ensures !RegistryHooks.ValidateString(RegistryHooks.NormalizeString(name)) ==>
      err == Some(GoErrors.Wrapf("failed to create dataset", RegistryHooks.Invalid("dataset name contains invalid characters")))
    ensures RegistryHooks.ValidateString(RegistryHooks.NormalizeString(name)) && fail.Some? ==>
      err == Some(GoErrors.Wrapf("failed to create dataset", fail.value))
    ensures err.None? <==>
      RegistryHooks.ValidateString(RegistryHooks.NormalizeString(name)) && fail.None?
      && forall d :: d in old(db.datasets) ==> d.name != RegistryHooks.NormalizeString(name)
    ensures RegistryHooks.ValidateString(RegistryHooks.NormalizeString(name)) && fail.None? && err.Some? ==>
      GoErrors.IsUniqueViolation(err.value)
    ensures err.Some? ==> ds.None? && db.datasets == old(db.datasets)
    ensures err.None? ==>
      && ds.Some? && ds.value.name == RegistryHooks.NormalizeString(name) && ds.value.description == description
      && db.datasets == old(db.datasets) + [ds.value]
  {
    var d := new R.Dataset(name, description);
    var hookErr := RegistryHooks.DatasetBeforeSave(d);
    if hookErr.Some? {
      return None, Some(GoErrors.Wrapf("failed to create dataset", hookErr.value));
    }
    assert d as object != db as object;
    var id, e := db.InsertDataset(d.name, d.description, fail);
    if e.Some? {
      assert GoErrors.IsUniqueViolation(e.value) ==>
        GoErrors.IsUniqueViolation(GoErrors.Wrapf("failed to create dataset", e.value));
      return None, Some(GoErrors.Wrapf("failed to create dataset", e.value));
    }
    return Some(S.DatasetRow(id, d.name, d.description)), None;
  }

  /**
   * One record of a batch after `Asset.BeforeCreate`: MIME type and checksum normalised, and
   * the state "pending" once the checksum passes.
   */
  function BatchHooked(a: S.AssetRow): S.AssetRow
  {
    var checksum := RegistryHooks.NormalizeString(a.checksum);
    a.(checksum := checksum, mimeType := RegistryHooks.NormalizeString(a.mimeType),
       state := if RegistryHooks.ValidateSHA256(checksum).None? then "pending" else a.state)
  }

  function HookedBatch(batch: seq<S.AssetRow>): seq<S.AssetRow>
  {
    seq(|batch|, i requires 0 <= i < |batch| => BatchHooked(batch[i]))
  }

  /** The create hook's refusal of one record: its normalised checksum fails the check. */
  function HookError(a: S.AssetRow): Option<GoErrors.Error>
  {
    RegistryHooks.ValidateSHA256(RegistryHooks.NormalizeString(a.checksum))
  }

  /** GORM's `AddError`: the first error as it is, each later one after the text so far and "; ". */
  function AddError(acc: Option<GoErrors.Error>, e: Option<GoErrors.Error>): Option<GoErrors.Error>
  {
    if e.None? then acc
    else if acc.None? then e
    else Some(GoErrors.Wrap(GoErrors.Message(acc.value) + "; ", e.value, ""))
  }

  /** The hook outcomes of a batch, record by record. */
  function HookErrorList(batch: seq<S.AssetRow>): (r: seq<Option<GoErrors.Error>>)
    ensures |r| == |batch| && forall i :: 0 <= i < |batch| ==> r[i] == HookError(batch[i])
  {
    seq(|batch|, i requires 0 <= i < |batch| => HookError(batch[i]))
  }

  /** GORM runs the create hook on every record in order and collects the errors with `AddError`. */
  function Collected(errs: seq<Option<GoErrors.Error>>): Option<GoErrors.Error>
  {
    if errs == [] then None
    else AddError(Collected(errs[..|errs| - 1]), errs[|errs| - 1])
  }

  /** The collected error is absent exactly when no record's hook fails. */
  lemma {:induction false} CollectedNone(errs: seq<Option<GoErrors.Error>>)
    ensures Collected(errs).None? <==> forall i :: 0 <= i < |errs| ==> errs[i].None?
  {
    if errs != [] {
      var init := errs[..|errs| - 1];
      CollectedNone(init);
      assert forall i :: 0 <= i < |init| ==> init[i] == errs[i];
    }
  }

  /** The first failing hook gives the head of the collected error's text. */
  lemma {:induction false} CollectedFirst(errs: seq<Option<GoErrors.Error>>, i: nat)
    requires i < |errs| && errs[i].Some?
    requires forall k :: 0 <= k < i ==> errs[k].None?
    ensures Collected(errs).Some?
    ensures GoErrors.Message(errs[i].value) <= GoErrors.Message(Collected(errs).value)
  {
    var init := errs[..|errs| - 1];
    var e := errs[|errs| - 1];
    if i < |init| {
      assert forall k :: 0 <= k <= i ==> init[k] == errs[k];
      CollectedFirst(init, i);
      var acc := Collected(init).value;
      if e.Some? {
        assert GoErrors.Message(Collected(errs).value) == GoErrors.Message(acc) + ("; " + GoErrors.Message(e.value));
      }
    } else {
      assert forall k :: 0 <= k < |init| ==> init[k] == errs[k];
      CollectedNone(init);
    }
  }

  /**
   * `db.Create(assets)` on a batch: the create hooks run on every record, and any refusal among
   * them stops the statement; then GORM's own refusal of an empty slice, the database's failure
   * and the multi-row insert of the hooked records.
   */
  function CreateBatchOutcome(assets: seq<S.AssetRow>, batch: seq<S.AssetRow>, fail: Option<GoErrors.Error>): Result<seq<S.AssetRow>, GoErrors.Error>
  {
    var hookErr := Collected(HookErrorList(batch));
    if hookErr.Some? then Fail(hookErr.value)
    else S.CreateBatch(assets, HookedBatch(batch), fail)
  }

  /** One stored row of a hooked batch: the hook's fields, "pending" and no tags. */
  lemma HookedRow(assets: seq<S.AssetRow>, batch: seq<S.AssetRow>, rows: seq<S.AssetRow>, i: nat)
    requires i < |batch| && HookError(batch[i]).None?
    requires |rows| == |assets| + |batch|
    requires rows[|assets| + i] == S.Stored(rows[..|assets| + i], HookedBatch(batch)[i])
    ensures rows[|assets| + i].checksum == RegistryHooks.NormalizeString(batch[i].checksum)
    ensures rows[|assets| + i].mimeType == RegistryHooks.NormalizeString(batch[i].mimeType)
    ensures rows[|assets| + i].display == batch[i].display
    ensures rows[|assets| + i].state == "pending" && rows[|assets| + i].tagIds == {}
  {
  }

  /** The hooked rows as the insert stores them: the hook's fields, "pending" and no tags. */
  lemma HookedRows(assets: seq<S.AssetRow>, batch: seq<S.AssetRow>, fail: Option<GoErrors.Error>)
    requires CreateBatchOutcome(assets, batch, fail).Ok?
    ensures var rows := CreateBatchOutcome(assets, batch, fail).value;
      && |rows| == |assets| + |batch| && rows[..|assets|] == assets
      && forall i :: 0 <= i < |batch| ==>
        && rows[|assets| + i].checksum == RegistryHooks.NormalizeString(batch[i].checksum)
        && rows[|assets| + i].mimeType == RegistryHooks.NormalizeString(batch[i].mimeType)
        && rows[|assets| + i].display == batch[i].display
        && rows[|assets| + i].state == "pending" && rows[|assets| + i].tagIds == {}
  {
    var errs := HookErrorList(batch);
    CollectedNone(errs);
    var hooked := HookedBatch(batch);
    assert CreateBatchOutcome(assets, batch, fail) == S.BatchInsert(assets, hooked);
    S.BatchInsertRows(assets, hooked);
    var rows := S.BatchInsert(assets, hooked).value;
    forall i | 0 <= i < |batch|
      ensures rows[|assets| + i].checksum == RegistryHooks.NormalizeString(batch[i].checksum)
      ensures rows[|assets| + i].mimeType == RegistryHooks.NormalizeString(batch[i].mimeType)
      ensures rows[|assets| + i].display == batch[i].display
      ensures rows[|assets| + i].state == "pending" && rows[|assets| + i].tagIds == {}
    {
      assert errs[i].None?;
      HookedRow(assets, batch, rows, i);
    }
  }

  /**
   * A batch goes in exactly when it is non-empty, the database does not fail, every checksum
   * passes the check once normalised, and the normalised checksums are neither stored nor
   * repeated in the batch (so two that differ only in case collide). Then the table gains one
   * row per record, in order, with the normalised checksum and MIME type, the state "pending"
   * and no tags.
   */
  lemma CreateBatchOutcomeProperties(assets: seq<S.AssetRow>, batch: seq<S.AssetRow>, fail: Option<GoErrors.Error>)
    ensures CreateBatchOutcome(assets, batch, fail).Ok? <==>
      && batch != [] && fail.None?
      && (forall i :: 0 <= i < |batch| ==> HookError(batch[i]).None?)
      && (forall i :: 0 <= i < |batch| ==> RegistryHooks.NormalizeString(batch[i].checksum) !in S.Checksums(assets))
      && (forall i, j :: 0 <= i < j < |batch| ==>
            RegistryHooks.NormalizeString(batch[i].checksum) != RegistryHooks.NormalizeString(batch[j].checksum))
    ensures CreateBatchOutcome(assets, batch, fail).Ok? ==>
      var rows := CreateBatchOutcome(assets, batch, fail).value;
      && |rows| == |assets| + |batch| && rows[..|assets|] == assets
      && forall i :: 0 <= i < |batch| ==>
        && rows[|assets| + i].checksum == RegistryHooks.NormalizeString(batch[i].checksum)
        && rows[|assets| + i].mimeType == RegistryHooks.NormalizeString(batch[i].mimeType)
        && rows[|assets| + i].display == batch[i].display
        && rows[|assets| + i].state == "pending" && rows[|assets| + i].tagIds == {}
  {
    CollectedNone(HookErrorList(batch));
    if batch != [] && fail.None? && Collected(HookErrorList(batch)).None? {
      S.BatchInsertAccepts(assets, HookedBatch(batch));
      HookedInsertable(assets, batch);
    }
    if CreateBatchOutcome(assets, batch, fail).Ok? {
      HookedRows(assets, batch, fail);
    }
  }

  /** With every record passing its hook, the hooked batch is insertable exactly when the normalised checksums are new and distinct. */
  lemma HookedInsertable(assets: seq<S.AssetRow>, batch: seq<S.AssetRow>)
    requires forall i :: 0 <= i < |batch| ==> HookError(batch[i]).None?
    ensures S.Insertable(assets, HookedBatch(batch)) <==>
      && (forall i :: 0 <= i < |batch| ==> RegistryHooks.NormalizeString(batch[i].checksum) !in S.Checksums(assets))
      && (forall i, j :: 0 <= i < j < |batch| ==>
            RegistryHooks.NormalizeString(batch[i].checksum) != RegistryHooks.NormalizeString(batch[j].checksum))
  {
    var hooked := HookedBatch(batch);
    forall i | 0 <= i < |batch|
      ensures hooked[i].checksum == RegistryHooks.NormalizeString(batch[i].checksum) != []
    {
      RegistryHooks.ValidateSHA256Accepts(RegistryHooks.NormalizeString(batch[i].checksum));
    }
    forall i | 0 <= i < |batch| && RegistryHooks.NormalizeString(batch[i].checksum) in S.Checksums(assets)
      ensures exists a :: a in assets && a.checksum == hooked[i].checksum
    {
    }
  }

  /**
   * `CreateAssetRecords`: the batch's outcome as `CreateBatchOutcome` says, its refusal wrapped
   * as "failed creating assets"; on any refusal the table is as it was.
   */
  method CreateAssetRecords(db: S.Database, batch: seq<S.AssetRow>, fail: Option<GoErrors.Error>)
      returns (err: Option<GoErrors.Error>)
    requires db.Valid()
    modifies db
    ensures db.Valid()
    ensures db.tags == old(db.tags) && db.datasets == old(db.datasets) && db.versions == old(db.versions)
    ensures match CreateBatchOutcome(old(db.assets), batch, fail)
      case Fail(e) => err == Some(GoErrors.Wrapf("failed creating assets", e)) && db.assets == old(db.assets)
      case Ok(rows) => err.None? && db.assets == rows
  {
    var hookErr := Collected(HookErrorList(batch));
    if hookErr.Some? {
      return Some(GoErrors.Wrapf("failed creating assets", hookErr.value));
    }
    var hooked := HookedBatch(batch);
    if hooked == [] {
      return Some(GoErrors.Wrapf("failed creating assets", GoErrors.EmptySlice));
    }
    var e := db.InsertAssets(hooked, fail);
    if e.Some? {
      return Some(GoErrors.Wrapf("failed creating assets", e.value));
    }
    return None;
  }
}
