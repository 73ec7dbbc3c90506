/**
 * internal/registry/database.go: the record operations of the older registry engine, each run on
 * the engine's current database client. The package's own record types, hooks and search
 * options are not part of this model; the pkg/registry normaliser and search options, which the
 * code calls by the same names, stand in for them. A failure of the database itself is a
 * parameter of each operation.
 */
module InternalRegistryDatabase {
  import opened Wrappers
  import opened GoStrings
  import GoErrors
  import RegistryHooks
  import RegistrySearch
  import RegistryOptions
  import Pagination
  import TagLists
  import S = RegistryStore

  /** GORM's `ErrInvalidValue`: the destination of a query is not something it can fill. */
  const InvalidValue := GoErrors.Sentinel("gorm.ErrInvalidValue", "invalid value, should be pointer to struct or slice")

  /** `fmt.Errorf("<verb> %q: %w", key, cause)`. */
  function Wrapq(verb: string, key: string, cause: GoErrors.Error): (e: GoErrors.Error)
    ensures GoErrors.Is(e, cause)
  {
    GoErrors.Wrap(verb + " " + Quote(key) + ": ", cause, "")
  }

  /** The error of a failed lookup: the database's own failure, else record-not-found. */
  function LookupCause(fail: Option<GoErrors.Error>): GoErrors.Error
  {
    if fail.Some? then fail.value else GoErrors.RecordNotFound
  }

  /** The filters of `ListAssetsRecords`; the cursor applies only when it is positive. */
  predicate Listed(q: RegistrySearch.Query, tags: seq<S.TagRow>, a: S.AssetRow)
  {
    S.QueryMatches(q, tags, a) && (q.cursor > 0 ==> a.id > q.cursor)
  }

  function ListedFn(q: RegistrySearch.Query, tags: seq<S.TagRow>): S.AssetRow -> bool
  {
    a => Listed(q, tags, a)
  }

  /** The rows the query returns: the matching assets in id order, at most `limit` of them. */
  function ListResult(q: RegistrySearch.Query, tags: seq<S.TagRow>, assets: seq<S.AssetRow>): seq<S.AssetRow>
  {
    Pagination.Take(Pagination.Where(assets, ListedFn(q, tags)), q.limit)
  }

  /**
   * What `ListAssetsRecords` returns for options the query accepts: at most `limit` (1..1000)
   * assets in ascending id order, each with a listed checksum when checksums are given, the MIME
   * type and state asked for, every included tag, none of the excluded tags, and an id above a
   * positive cursor; a short page holds every matching asset.
   */
  lemma ListResultProperties(opts: seq<RegistrySearch.SearchAssetsOption>, tags: seq<S.TagRow>, assets: seq<S.AssetRow>)
    requires S.Keyed(assets, S.AssetId)
    requires RegistrySearch.ApplyAll(opts, RegistrySearch.DefaultQuery).Ok?
    ensures var q := RegistrySearch.ApplyAll(opts, RegistrySearch.DefaultQuery).value;
      var r := ListResult(q, tags, assets);
      && |r| <= q.limit <= RegistrySearch.SearchMaxLimit
      && Pagination.Ascending(r, S.AssetId)
      && (forall a :: a in r ==> a in assets && (q.cursor > 0 ==> a.id > q.cursor))
      && (forall a :: a in r ==> Filtered(q, tags, a))
      && (|r| < q.limit ==> forall a :: a in assets && Listed(q, tags, a) ==> a in r)
  {
    RegistrySearch.NewQueryValid(opts, RegistrySearch.ApplyAll(opts, RegistrySearch.DefaultQuery).value);
    ListResultOf(RegistrySearch.ApplyAll(opts, RegistrySearch.DefaultQuery).value, tags, assets);
  }

  /** The same for any valid query. */
  lemma ListResultOf(q: RegistrySearch.Query, tags: seq<S.TagRow>, assets: seq<S.AssetRow>)
    requires S.Keyed(assets, S.AssetId)
    requires RegistrySearch.ValidQuery(q)
    ensures var r := ListResult(q, tags, assets);
      && |r| <= q.limit <= RegistrySearch.SearchMaxLimit
      && Pagination.Ascending(r, S.AssetId)
      && (forall a :: a in r ==> a in assets && (q.cursor > 0 ==> a.id > q.cursor))
      && (forall a :: a in r ==> Filtered(q, tags, a))
      && (|r| < q.limit ==> forall a :: a in assets && Listed(q, tags, a) ==> a in r)
  {
    ListResultShape(q, tags, assets);
    var r := ListResult(q, tags, assets);
    assert TagLists.NoDup(q.includedTags);
    forall a | a in r
      ensures Filtered(q, tags, a)
    {
      ListedFiltered(q, tags, a);
    }
  }

  lemma ListedFiltered(q: RegistrySearch.Query, tags: seq<S.TagRow>, a: S.AssetRow)
    requires TagLists.NoDup(q.includedTags) && Listed(q, tags, a)
    ensures Filtered(q, tags, a)
  {
    S.IncludedCount(q, tags, a);
  }

  /** The filters a listed asset passes, with the included-tag count read as "every tag". */
  predicate Filtered(q: RegistrySearch.Query, tags: seq<S.TagRow>, a: S.AssetRow)
  {
    (q.mimeType == [] || a.mimeType == q.mimeType) && (q.state == [] || a.state == q.state)
    && (q.checkSums == [] || a.checksum in q.checkSums)
    && (forall n :: n in q.includedTags ==> n in S.TagNames(tags, a))
    && (forall n :: n in q.excludedTags ==> n !in S.TagNames(tags, a))
  }

  /**
   * The page is a prefix of the matching assets in id order: no longer than the limit, each row a
   * listed asset, and every listed asset when the page is short.
   */
  lemma ListResultShape(q: RegistrySearch.Query, tags: seq<S.TagRow>, assets: seq<S.AssetRow>)
    requires S.Keyed(assets, S.AssetId)
    ensures var r := ListResult(q, tags, assets);
      && |r| <= q.limit
      && Pagination.Ascending(r, S.AssetId)
      && (forall a :: a in r ==> a in assets && Listed(q, tags, a))
      && (|r| < q.limit ==> forall a :: a in assets && Listed(q, tags, a) ==> a in r)
  {
    var m := Pagination.Where(assets, ListedFn(q, tags));
    Pagination.WhereMembers(assets, ListedFn(q, tags));
    Pagination.WhereAscending(assets, S.AssetId, ListedFn(q, tags));
    Pagination.TakeFacts(m, S.AssetId, q.limit);
    var r := ListResult(q, tags, assets);
    if |r| < q.limit {
      assert r == m;
    }
  }

  class Engine {
    var settings: RegistryOptions.Settings
    var client: S.Database

    constructor (settings: RegistryOptions.Settings, client: S.Database)
      ensures this.settings == settings && this.client == client
    {
      this.settings := settings;
      this.client := client;
    }

    /**
     * `WithTx(tx)`: the engine itself when there is no transaction, otherwise a new engine that
     * differs only in its client. The receiver is never changed.
     */
    method WithTx(tx: S.Database?) returns (r: Engine)
      ensures tx == null ==> r == this
      ensures tx != null ==> fresh(r) && r.settings == settings && r.client == tx
    {
      if tx == null {
        return this;
      }
      r := new Engine(settings, tx);
    }

    /** `GetAssetRecord`: the asset whose checksum is the normalised argument. */
    function GetAssetRecord(sha256: string, fail: Option<GoErrors.Error>): (r: Result<S.AssetRow, GoErrors.Error>)
      reads this, client
      ensures r.Ok? ==> r.value in client.assets && r.value.checksum == RegistryHooks.NormalizeString(sha256)
      ensures r.Fail? <==> fail.Some? || forall a :: a in client.assets ==> a.checksum != RegistryHooks.NormalizeString(sha256)
      ensures r.Fail? ==> r.error == Wrapq("get asset", sha256, LookupCause(fail))
    {
      if fail.Some? then Fail(Wrapq("get asset", sha256, fail.value))
      else match S.AssetByChecksum(client.assets, RegistryHooks.NormalizeString(sha256))
        case Fail(e) => Fail(Wrapq("get asset", sha256, e))
        case Ok(a) => Ok(a)
    }

    /** `GetAssetRecordTags`: the asset's stored tags, after the asset lookup. */
    function GetAssetRecordTags(sha256: string, fail: Option<GoErrors.Error>, findFail: Option<GoErrors.Error>): (r: Result<seq<S.TagRow>, GoErrors.Error>)
      reads this, client
      ensures GetAssetRecord(sha256, fail).Fail? ==> r == Fail(GetAssetRecord(sha256, fail).error)
      ensures GetAssetRecord(sha256, fail).Ok? && findFail.Some? ==> r == Fail(GoErrors.Wrap("get asset " + Quote(sha256) + " tags: ", findFail.value, ""))
      ensures r.Ok? ==> (set t | t in r.value :: t.name) == S.TagNames(client.tags, GetAssetRecord(sha256, fail).value)
    {
      match GetAssetRecord(sha256, fail)
      case Fail(e) => Fail(e)
      case Ok(a) =>
        if findFail.Some? then Fail(GoErrors.Wrap("get asset " + Quote(sha256) + " tags: ", findFail.value, ""))
        else Ok(S.TagsOf(client.tags, a))
    }

    /** `GetTagRecord`: the tag whose name is the normalised argument. */
    function GetTagRecord(name: string, fail: Option<GoErrors.Error>): (r: Result<S.TagRow, GoErrors.Error>)
      reads this, client
      ensures r.Ok? ==> r.value in client.tags && r.value.name == RegistryHooks.NormalizeString(name)
      ensures r.Fail? <==> fail.Some? || forall t :: t in client.tags ==> t.name != RegistryHooks.NormalizeString(name)
      ensures r.Fail? ==> r.error == Wrapq("get tag", name, LookupCause(fail))
    {
      if fail.Some? then Fail(Wrapq("get tag", name, fail.value))
      else match S.TagByName(client.tags, RegistryHooks.NormalizeString(name))
        case Fail(e) => Fail(Wrapq("get tag", name, e))
        case Ok(t) => Ok(t)
    }

    /** `GetTagRecordById`: lookup by primary key, the error naming the id in decimal. */
    function GetTagRecordById(id: nat, fail: Option<GoErrors.Error>): (r: Result<S.TagRow, GoErrors.Error>)
      reads this, client
      ensures r.Ok? ==> r.value in client.tags && r.value.id == id
      ensures r.Fail? <==> fail.Some? || forall t :: t in client.tags ==> t.id != id
      ensures r.Fail? ==> r.error == GoErrors.Wrap("get tag by ID " + Itoa(id) + ": ", LookupCause(fail), "")
    {
      var cause := if fail.Some? then fail else
        match S.TagById(client.tags, id)
        case Fail(e) => Some(e)
        case Ok(_) => None;
      if cause.Some? then Fail(GoErrors.Wrap("get tag by ID " + Itoa(id) + ": ", cause.value, ""))
      else Ok(S.TagById(client.tags, id).value)
    }

    /** `GetTagRecordAssets`: a window of the assets carrying the named tag. */
    function GetTagRecordAssets(name: string, limit: int, offset: int, fail: Option<GoErrors.Error>, findFail: Option<GoErrors.Error>): (r: Result<seq<S.AssetRow>, GoErrors.Error>)
      reads this, client
      ensures GetTagRecord(name, fail).Fail? ==> r == Fail(GetTagRecord(name, fail).error)
      ensures r.Ok? ==> forall a :: a in r.value ==> a in client.assets && GetTagRecord(name, fail).value.id in a.tagIds
      ensures r.Ok? && limit >= 0 ==> |r.value| <= limit
    {
      match GetTagRecord(name, fail)
      case Fail(e) => Fail(e)
      case Ok(t) =>
        if findFail.Some? then Fail(GoErrors.Wrap("get tag " + Quote(name) + " assets: ", findFail.value, ""))
        else Ok(S.AssetsTagged(client.assets, t.id, limit, offset))
    }

    /**
     * `AttachTags`: nothing at all for an empty list; otherwise the asset's tag set gains the
     * given tags, and the caller's asset is re-read.
     */
    method AttachTags(asset: S.AssetRow, tags: seq<S.TagRow>, fail: Option<GoErrors.Error>, reloadFail: Option<GoErrors.Error>)
        returns (reloaded: S.AssetRow, err: Option<GoErrors.Error>)
      requires client.Valid()
      requires S.IndexOfId(client.assets, S.AssetId, asset.id).Some?
      requires forall t :: t in tags ==> t in client.tags
      modifies client
      ensures client.Valid()
      ensures client.tags == old(client.tags) && client.datasets == old(client.datasets)
      ensures client.versions == old(client.versions)
      ensures tags == [] ==> err.None? && reloaded == asset && client.assets == old(client.assets)
      ensures tags != [] && fail.Some? ==>
        err == Some(Wrapq("attach tags", asset.checksum, fail.value)) && client.assets == old(client.assets)
      ensures tags != [] && fail.None? ==>
        var i := S.IndexOfId(old(client.assets), S.AssetId, asset.id).value;
        && client.assets == S.Retag(old(client.assets), i, old(client.assets)[i].tagIds + S.TagIds(tags))
        && err == reloadFail
        && (reloadFail.None? ==> reloaded == client.assets[i])
    {
      if |tags| == 0 {
        return asset, None;
      }
      var e := client.AttachTags(asset.id, tags, fail);
      if e.Some? {
        return asset, Some(Wrapq("attach tags", asset.checksum, e.value));
      }
      if reloadFail.Some? {
        return asset, reloadFail;
      }
      var i := S.IndexOfId(client.assets, S.AssetId, asset.id).value;
      return client.assets[i], None;
    }

    /**
     * `CreateTagRecord`: the insert of a tag with the name as given; a stored name is refused by
     * the unique index, and either refusal is wrapped as "create tag <name>".
     */
    method CreateTagRecord(name: string, fail: Option<GoErrors.Error>) returns (tag: Option<S.TagRow>, err: Option<GoErrors.Error>)
      requires client.Valid()
      modifies client
      ensures client.Valid()
      ensures client.assets == old(client.assets) && client.datasets == old(client.datasets)
      ensures client.versions == old(client.versions)
      ensures err.None? <==> fail.None? && forall t :: t in old(client.tags) ==> t.name != name
      ensures fail.Some? ==> err == Some(Wrapq("create tag", name, fail.value))
      ensures fail.None? && err.Some? ==> GoErrors.IsUniqueViolation(err.value)
      ensures err.Some? ==> tag.None? && client.tags == old(client.tags)
      ensures err.None? ==> tag.Some? && tag.value.name == name && client.tags == old(client.tags) + [tag.value]
    {
      var id, e := client.InsertTag(name, fail);
      if e.Some? {
        assert GoErrors.IsUniqueViolation(e.value) ==> GoErrors.IsUniqueViolation(Wrapq("create tag", name, e.value));
        return None, Some(Wrapq("create tag", name, e.value));
      }
      return Some(S.TagRow(id, name)), None;
    }

    /**
     * `CreateDatasetRecord`: the insert of a dataset with the name as given; a stored name is
     * refused by the unique index, and either refusal is wrapped as "create dataset <name>".
     */
    method CreateDatasetRecord(name: string, description: string, fail: Option<GoErrors.Error>)
        returns (ds: Option<S.DatasetRow>, err: Option<GoErrors.Error>)
      requires client.Valid()
      modifies client
      ensures client.Valid()
      ensures client.assets == old(client.assets) && client.tags == old(client.tags)
      ensures client.versions == old(client.versions)
      ensures err.None? <==> fail.None? && forall d :: d in old(client.datasets) ==> d.name != name
      ensures fail.Some? ==> err == Some(Wrapq("create dataset", name, fail.value))
      ensures fail.None? && err.Some? ==> GoErrors.IsUniqueViolation(err.value)
      ensures err.Some? ==> ds.None? && client.datasets == old(client.datasets)
      ensures err.None? ==>
        && ds.Some? && ds.value.name == name && ds.value.description == description
        && client.datasets == old(client.datasets) + [ds.value]
    {
      var id, e := client.InsertDataset(name, description, fail);
      if e.Some? {
        assert GoErrors.IsUniqueViolation(e.value) ==> GoErrors.IsUniqueViolation(Wrapq("create dataset", name, e.value));
        return None, Some(Wrapq("create dataset", name, e.value));
      }
      return Some(S.DatasetRow(id, name, description)), None;
    }

    /**
     * `CreateAssetRecords`: one multi-row insert of the records as given, refused with GORM's
     * empty-slice error for an empty batch; any refusal is wrapped as "create assets" and
     * leaves the table as it was.
     */
    method CreateAssetRecords(batch: seq<S.AssetRow>, fail: Option<GoErrors.Error>) returns (err: Option<GoErrors.Error>)
      requires client.Valid()
      modifies client
      ensures client.Valid()
      ensures client.tags == old(client.tags) && client.datasets == old(client.datasets)
      ensures client.versions == old(client.versions)
      ensures match S.CreateBatch(old(client.assets), batch, fail)
        case Fail(e) => err == Some(GoErrors.Wrapf("create assets", e)) && client.assets == old(client.assets)
        case Ok(rows) => err.None? && client.assets == rows
    {
      if batch == [] {
        return Some(GoErrors.Wrapf("create assets", GoErrors.EmptySlice));
      }
      var e := client.InsertAssets(batch, fail);
      if e.Some? {
        return Some(GoErrors.Wrapf("create assets", e.value));
      }
      return None;
    }

    /**
     * `DetachTags`: nothing at all for an empty list; otherwise the asset's tag set loses
     * exactly the given tags, and the caller's asset is re-read.
     */
    method DetachTags(asset: S.AssetRow, tags: seq<S.TagRow>, fail: Option<GoErrors.Error>, reloadFail: Option<GoErrors.Error>)
        returns (reloaded: S.AssetRow, err: Option<GoErrors.Error>)
      requires client.Valid()
      requires S.IndexOfId(client.assets, S.AssetId, asset.id).Some?
      modifies client
      ensures client.Valid()
      ensures client.tags == old(client.tags) && client.datasets == old(client.datasets)
      ensures client.versions == old(client.versions)
      ensures tags == [] ==> err.None? && reloaded == asset && client.assets == old(client.assets)
      ensures tags != [] && fail.Some? ==>
        err == Some(Wrapq("detach tags", asset.checksum, fail.value)) && client.assets == old(client.assets)
      ensures tags != [] && fail.None? ==>
        var i := S.IndexOfId(old(client.assets), S.AssetId, asset.id).value;
        && client.assets == S.Retag(old(client.assets), i, old(client.assets)[i].tagIds - S.TagIds(tags))
        && err == reloadFail
        && (reloadFail.None? ==> reloaded == client.assets[i])
    {
      if |tags| == 0 {
        return asset, None;
      }
      var e := client.DetachTags(asset.id, tags, fail);
      if e.Some? {
        return asset, Some(Wrapq("detach tags", asset.checksum, e.value));
      }
      if reloadFail.Some? {
        return asset, reloadFail;
      }
      var i := S.IndexOfId(client.assets, S.AssetId, asset.id).value;
      return client.assets[i], None;
    }

    /**
     * `GetTagsByNames`: nil without a query for an empty list or one whose names all normalise
     * to ""; otherwise the stored tags named by the non-blank normalised names.
     */
    method GetTagsByNames(names: seq<string>, fail: Option<GoErrors.Error>) returns (tags: Option<seq<S.TagRow>>, err: Option<GoErrors.Error>)
      ensures (forall n :: n in names ==> RegistryHooks.NormalizeString(n) == []) ==> tags.None? && err.None?
      ensures (exists n :: n in names && RegistryHooks.NormalizeString(n) != []) ==>
        if fail.Some? then tags.None? && err == fail
        else err.None? && tags == Some(S.TagsNamed(client.tags, S.NormalizedNames(names)))
    {
      if |names| == 0 {
        return None, None;
      }
      var normalized := TagLists.MapNonBlank(names, RegistryHooks.NormalizeString);
      S.TagsByNames(client.tags, names);
      if |normalized| == 0 {
        return None, None;
      }
      if fail.Some? {
        return None, fail;
      }
      return Some(S.TagsNamed(client.tags, normalized)), None;
    }

    /**
     * `ListAssetsRecords`: the options' first refusal, wrapped as `NewSearchAssetsQuery` wraps
     * it; else the database's failure; else the query's rows.
     */
    method ListAssetsRecords(opts: seq<RegistrySearch.SearchAssetsOption>, fail: Option<GoErrors.Error>)
        returns (assets: seq<S.AssetRow>, err: Option<GoErrors.Error>)
      ensures match RegistrySearch.ApplyAll(opts, RegistrySearch.DefaultQuery)
        case Fail(e) => assets == [] && err == Some(GoErrors.Wrapf("failed to apply option", e))
        case Ok(q) =>
          if fail.Some? then assets == [] && err == fail
          else err.None? && assets == ListResult(q, client.tags, client.assets)
    {
      var query, qerr := RegistrySearch.NewSearchAssetsQuery(opts);
      if qerr.Some? {
        return [], qerr;
      }
      if fail.Some? {
        return [], fail;
      }
      return ListResult(query.Fields(), client.tags, client.assets), None;
    }

    /** The lookup `CreateDatasetVersionRecord` needs: the dataset named `name`. */
    function GetDatasetRecord(name: string, fail: Option<GoErrors.Error>): (r: Result<S.DatasetRow, GoErrors.Error>)
      reads this, client
      ensures r.Ok? ==> r.value in client.datasets && (name != [] ==> r.value.name == name)
      ensures fail.None? && name != [] ==> (r.Ok? <==> exists d :: d in client.datasets && d.name == name)
      ensures r.Fail? ==> r.error == Wrapq("get dataset", name, LookupCause(fail))
    {
      if fail.Some? then Fail(Wrapq("get dataset", name, fail.value))
      else match S.DatasetWhere(client.datasets, name)
        case Fail(e) => Fail(Wrapq("get dataset", name, e))
        case Ok(d) => Ok(d)
    }

    /**
     * `CreateDatasetVersionRecord`: fails with the lookup's error when there is no such dataset;
     * otherwise inserts a version linked to that dataset's id.
     */
    method CreateDatasetVersionRecord(datasetName: string, description: string, fail: Option<GoErrors.Error>,
                                      insertFail: Option<GoErrors.Error>) returns (version: Option<S.VersionRow>, err: Option<GoErrors.Error>)
      requires client.Valid()
      modifies client
      ensures client.Valid()
      ensures client.assets == old(client.assets) && client.tags == old(client.tags)
      ensures client.datasets == old(client.datasets)
      ensures match old(GetDatasetRecord(datasetName, fail))
        case Fail(e) => err == Some(e) && version.None? && client.versions == old(client.versions)
        case Ok(ds) =>
          if insertFail.Some? then
            err == Some(Wrapq("create dataset version", datasetName, insertFail.value))
            && version.None? && client.versions == old(client.versions)
          else
            err.None? && version.Some? && version.value.datasetId == ds.id
            && client.versions == old(client.versions) + [version.value]
    {
      var found := GetDatasetRecord(datasetName, fail);
      if found.Fail? {
        return None, Some(found.error);
      }
      var id, e := client.InsertVersion(found.value.id, "", 0, description, insertFail);
      if e.Some? {
        return None, Some(Wrapq("create dataset version", datasetName, e.value));
      }
      return Some(S.VersionRow(id, found.value.id, "", 0, description)), None;
    }
  }

  /**
   * Looking up a checksum and looking up its normalisation find the same asset, since
   * normalising is idempotent; with unique checksums it is the only asset with that checksum.
   */
  lemma AssetLookupNormalises(e: Engine, key: string)
    requires S.UniqueChecksums(e.client.assets)
    ensures e.GetAssetRecord(key, None).Ok? == e.GetAssetRecord(RegistryHooks.NormalizeString(key), None).Ok?
    ensures e.GetAssetRecord(key, None).Ok? ==>
      forall a :: a in e.client.assets && a.checksum == RegistryHooks.NormalizeString(key) ==> a == e.GetAssetRecord(key, None).value
  {
    var n := RegistryHooks.NormalizeString(key);
    RegistryHooks.NormalizeStringIdempotent(key);
    AssetLookupSameKey(e, key, n);
    S.AssetByChecksumUnique(e.client.assets, n);
  }

  /** Two keys with the same normal form find the same asset. */
  lemma AssetLookupSameKey(e: Engine, k1: string, k2: string)
    requires RegistryHooks.NormalizeString(k1) == RegistryHooks.NormalizeString(k2)
    ensures e.GetAssetRecord(k1, None).Ok? == e.GetAssetRecord(k2, None).Ok?
    ensures e.GetAssetRecord(k1, None).Ok? ==> e.GetAssetRecord(k1, None).value == e.GetAssetRecord(k2, None).value
    ensures e.GetAssetRecord(k1, None).Ok? ==> e.GetAssetRecord(k1, None).value == S.AssetByChecksum(e.client.assets, RegistryHooks.NormalizeString(k1)).value
  {
  }

  /** The same for tag names, which are unique too. */
  lemma TagLookupNormalises(e: Engine, key: string)
    requires S.UniqueTagNames(e.client.tags)
    ensures e.GetTagRecord(key, None).Ok? == e.GetTagRecord(RegistryHooks.NormalizeString(key), None).Ok?
    ensures e.GetTagRecord(key, None).Ok? ==>
      forall t :: t in e.client.tags && t.name == RegistryHooks.NormalizeString(key) ==> t == e.GetTagRecord(key, None).value
  {
    var n := RegistryHooks.NormalizeString(key);
    RegistryHooks.NormalizeStringIdempotent(key);
    TagLookupSameKey(e, key, n);
    S.TagByNameUnique(e.client.tags, n);
  }

  /** Two names with the same normal form find the same tag. */
  lemma TagLookupSameKey(e: Engine, k1: string, k2: string)
    requires RegistryHooks.NormalizeString(k1) == RegistryHooks.NormalizeString(k2)
    ensures e.GetTagRecord(k1, None).Ok? == e.GetTagRecord(k2, None).Ok?
    ensures e.GetTagRecord(k1, None).Ok? ==> e.GetTagRecord(k1, None).value == e.GetTagRecord(k2, None).value
    ensures e.GetTagRecord(k1, None).Ok? ==> e.GetTagRecord(k1, None).value == S.TagByName(e.client.tags, RegistryHooks.NormalizeString(k1)).value
  {
  }

  /**
   * GetDatasetRecord as written passes a nil `*Dataset` to `First`; GORM refuses it with
   * `ErrInvalidValue` whatever is stored, so the lookup, and with it every
   * `CreateDatasetVersionRecord`, fails.
   */
  function GetDatasetRecordAsWritten(name: string): (r: Result<S.DatasetRow, GoErrors.Error>)
    ensures r.Fail? && GoErrors.Is(r.error, InvalidValue)
  {
    Fail(Wrapq("get dataset", name, InvalidValue))
  }

  /** A stored dataset that the corrected lookup finds and the lookup as written does not. */
  lemma AsWrittenMissesStoredDataset(e: Engine, name: string)
    requires name != [] && exists d :: d in e.client.datasets && d.name == name
    ensures e.GetDatasetRecord(name, None).Ok? && e.GetDatasetRecord(name, None).value.name == name
    ensures GetDatasetRecordAsWritten(name).Fail?
  {
  }
}
