/**
 * The registry's PostgreSQL tables as the Go code uses them through GORM, held in memory: assets,
 * tags, datasets and dataset versions, each ordered by its auto-increment id, with the asset_tags
 * join folded into each asset's set of tag ids. The unique indexes of pkg/registry/records.go are
 * part of the invariant; a failure of the database itself is a parameter of the operation.
 */
module RegistryStore {
  import opened Wrappers
  import GoErrors
  import Pagination
  import TagLists
  import RegistryHooks
  import RegistrySearch

  datatype TagRow = TagRow(id: nat, name: string)
  datatype AssetRow = AssetRow(id: nat, checksum: string, display: string, mimeType: string,
                               state: string, tagIds: set<nat>)
  datatype DatasetRow = DatasetRow(id: nat, name: string, description: string)
  datatype VersionRow = VersionRow(id: nat, datasetId: nat, display: string, number: int,
                                   description: string)

  function TagId(t: TagRow): nat { t.id }
  function AssetId(a: AssetRow): nat { a.id }
  function DatasetId(d: DatasetRow): nat { d.id }
  function VersionId(v: VersionRow): nat { v.id }

  /** Primary keys: ascending and at least 1. */
  predicate Keyed<T(!new)>(rows: seq<T>, key: T -> nat)
  {
    Pagination.Ascending(rows, key) && forall i :: 0 <= i < |rows| ==> key(rows[i]) >= 1
  }

  /** The id the next insert receives: one past the largest id so far. */
  function NextId<T>(rows: seq<T>, key: T -> nat): (id: nat)
    ensures id >= 1
    ensures forall i :: 0 <= i < |rows| ==> key(rows[i]) < id
  {
    if rows == [] then 1
    else
      var rest := NextId(rows[..|rows| - 1], key);
      if key(rows[|rows| - 1]) + 1 > rest then key(rows[|rows| - 1]) + 1 else rest
  }

  /** Appending a row whose id is above every stored id keeps the table keyed. */
  lemma AppendKeyed<T(!new)>(rows: seq<T>, key: T -> nat, row: T)
    requires Keyed(rows, key)
    requires key(row) == NextId(rows, key)
    ensures Keyed(rows + [row], key)
  {
  }

  function TagIds(tags: seq<TagRow>): set<nat>
  {
    set t | t in tags :: t.id
  }

  /** The names of the tags an asset carries: the asset_tags join. */
  function TagNames(tags: seq<TagRow>, a: AssetRow): set<string>
  {
    set t | t in tags && t.id in a.tagIds :: t.name
  }

  predicate UniqueTagNames(tags: seq<TagRow>)
  {
    forall i, j :: 0 <= i < |tags| && 0 <= j < |tags| && tags[i].name == tags[j].name ==> i == j
  }

  predicate UniqueChecksums(assets: seq<AssetRow>)
  {
    forall i, j :: 0 <= i < |assets| && 0 <= j < |assets| && assets[i].checksum == assets[j].checksum ==> i == j
  }

  predicate UniqueDatasetNames(datasets: seq<DatasetRow>)
  {
    forall i, j :: 0 <= i < |datasets| && 0 <= j < |datasets| && datasets[i].name == datasets[j].name ==> i == j
  }

  /** Position of the row with the given id, if any. */
  function IndexOfId<T>(rows: seq<T>, key: T -> nat, id: nat): (r: Option<nat>)
    ensures r.Some? ==> r.value < |rows| && key(rows[r.value]) == id
    ensures r.None? ==> forall i :: 0 <= i < |rows| ==> key(rows[i]) != id
  {
    if rows == [] then None
    else if key(rows[0]) == id then Some(0)
    else match IndexOfId(rows[1..], key, id)
      case None => None
      case Some(k) => Some(k + 1)
  }

  /** `First` after a `WHERE`: the matching row with the lowest id, or record-not-found. */
  function First<T>(rows: seq<T>, p: T -> bool): (r: Result<T, GoErrors.Error>)
    ensures r.Ok? ==> r.value in rows && p(r.value)
    ensures r.Fail? ==> r.error == GoErrors.RecordNotFound && forall i :: 0 <= i < |rows| ==> !p(rows[i])
  {
    if rows == [] then Fail(GoErrors.RecordNotFound)
    else if p(rows[0]) then Ok(rows[0])
    else First(rows[1..], p)
  }

  /** `WHERE name IN names`, in id order. */
  function TagsNamed(tags: seq<TagRow>, names: seq<string>): seq<TagRow>
  {
    Pagination.Where(tags, (t: TagRow) => t.name in names)
  }

  /** The rows `WHERE name IN names` returns are exactly the stored tags with a listed name. */
  lemma TagsNamedMembers(tags: seq<TagRow>, names: seq<string>)
    ensures forall t :: t in TagsNamed(tags, names) <==> t in tags && t.name in names
  {
    Pagination.WhereMembers(tags, (t: TagRow) => t.name in names);
  }

  /** With unique tag names, every requested name that exists is found exactly once. */
  lemma TagsNamedFound(tags: seq<TagRow>, names: seq<string>)
    requires UniqueTagNames(tags)
    ensures forall n :: n in names ==>
      ((exists t :: t in tags && t.name == n) <==> exists t :: t in TagsNamed(tags, names) && t.name == n)
    ensures |TagsNamed(tags, names)| <= |tags|
  {
    TagsNamedMembers(tags, names);
  }

  /** Over a keyed table the rows found come out in ascending id order. */
  lemma TagsNamedAscending(tags: seq<TagRow>, names: seq<string>)
    requires Keyed(tags, TagId)
    ensures Pagination.Ascending(TagsNamed(tags, names), TagId)
  {
    Pagination.WhereAscending(tags, TagId, (t: TagRow) => t.name in names);
  }

  /** The asset with its tag-id set replaced. */
  function Retag(assets: seq<AssetRow>, i: nat, ids: set<nat>): (r: seq<AssetRow>)
    requires i < |assets|
    ensures |r| == |assets| && r[i].tagIds == ids
    ensures forall k :: 0 <= k < |r| ==> r[k].id == assets[k].id && r[k].checksum == assets[k].checksum
    ensures forall k :: 0 <= k < |r| && k != i ==> r[k] == assets[k]
  {
    assets[i := assets[i].(tagIds := ids)]
  }

  /**
   * Attaching tags that are stored rows adds exactly their names to the asset's tag names.
   */
  lemma AttachNames(tags: seq<TagRow>, a: AssetRow, add: seq<TagRow>)
    requires Keyed(tags, TagId)
    requires forall t :: t in add ==> t in tags
    ensures TagNames(tags, a.(tagIds := a.tagIds + TagIds(add))) == TagNames(tags, a) + set t | t in add :: t.name
  {
    var after := a.(tagIds := a.tagIds + TagIds(add));
    forall n | n in TagNames(tags, after)
      ensures n in TagNames(tags, a) + set t | t in add :: t.name
    {
      var t :| t in tags && t.id in after.tagIds && t.name == n;
      if t.id !in a.tagIds {
        var u :| u in add && u.id == t.id;
        SameIdSameRow(tags, t, u);
      }
    }
  }

  /**
   * Detaching stored tags removes exactly their names, given that ids and names are unique.
   */
  lemma DetachNames(tags: seq<TagRow>, a: AssetRow, remove: seq<TagRow>)
    requires Keyed(tags, TagId) && UniqueTagNames(tags)
    requires forall t :: t in remove ==> t in tags
    ensures TagNames(tags, a.(tagIds := a.tagIds - TagIds(remove))) == TagNames(tags, a) - set t | t in remove :: t.name
  {
    var after := a.(tagIds := a.tagIds - TagIds(remove));
    forall n | n in TagNames(tags, a) - (set t | t in remove :: t.name)
      ensures n in TagNames(tags, after)
    {
      var t :| t in tags && t.id in a.tagIds && t.name == n;
      if t.id in TagIds(remove) {
        var u :| u in remove && u.id == t.id;
        SameIdSameRow(tags, t, u);
      }
    }
    forall n | n in TagNames(tags, after)
      ensures n !in (set t | t in remove :: t.name)
    {
      var t :| t in tags && t.id in after.tagIds && t.name == n;
      if u :| u in remove && u.name == n {
        SameNameSameRow(tags, t, u);
      }
    }
  }

  lemma SameIdSameRow(tags: seq<TagRow>, t: TagRow, u: TagRow)
    requires Keyed(tags, TagId) && t in tags && u in tags && t.id == u.id
    ensures t == u
  {
    var i :| 0 <= i < |tags| && tags[i] == t;
    var j :| 0 <= j < |tags| && tags[j] == u;
    assert TagId(tags[i]) == TagId(tags[j]);
  }

  lemma SameNameSameRow(tags: seq<TagRow>, t: TagRow, u: TagRow)
    requires UniqueTagNames(tags) && t in tags && u in tags && t.name == u.name
    ensures t == u
  {
    var i :| 0 <= i < |tags| && tags[i] == t;
    var j :| 0 <= j < |tags| && tags[j] == u;
  }

  class Database {
    var assets: seq<AssetRow>
    var tags: seq<TagRow>
    var datasets: seq<DatasetRow>
    var versions: seq<VersionRow>

    /** Keys, unique indexes and the asset_tags foreign key. */
    predicate Valid()
      reads this
    {
      Keyed(assets, AssetId) && Keyed(tags, TagId) && Keyed(datasets, DatasetId) && Keyed(versions, VersionId)
      && UniqueChecksums(assets) && UniqueTagNames(tags) && UniqueDatasetNames(datasets)
      && forall i :: 0 <= i < |assets| ==> assets[i].tagIds <= TagIds(tags)
    }

    constructor ()
      ensures Valid()
      ensures assets == [] && tags == [] && datasets == [] && versions == []
    {
      assets := [];
      tags := [];
      datasets := [];
      versions := [];
    }

    /**
     * Association("Tags").Append: the asset gains the given stored tags. `fail` is what the
     * database reports; when it reports an error nothing changes.
     */
    method AttachTags(assetId: nat, add: seq<TagRow>, fail: Option<GoErrors.Error>) returns (err: Option<GoErrors.Error>)
      requires Valid()
      requires IndexOfId(assets, AssetId, assetId).Some?
      requires forall t :: t in add ==> t in tags
      modifies this
      ensures Valid()
      ensures err == fail
      ensures tags == old(tags) && datasets == old(datasets) && versions == old(versions)
      ensures var i := IndexOfId(old(assets), AssetId, assetId).value;
        assets == if fail.Some? then old(assets) else Retag(old(assets), i, old(assets)[i].tagIds + TagIds(add))
    {
      if fail.Some? {
        return fail;
      }
      var i := IndexOfId(assets, AssetId, assetId).value;
      assets := Retag(assets, i, assets[i].tagIds + TagIds(add));
      return None;
    }

    /** ROLLBACK of the asset table to rows it held earlier, with the other tables as they are. */
    method RestoreAssets(saved: seq<AssetRow>)
      requires Valid()
      requires Keyed(saved, AssetId) && UniqueChecksums(saved)
      requires forall i :: 0 <= i < |saved| ==> saved[i].tagIds <= TagIds(tags)
      modifies this
      ensures Valid()
      ensures assets == saved
      ensures tags == old(tags) && datasets == old(datasets) && versions == old(versions)
    {
      assets := saved;
    }

    /** Association("Tags").Delete: the asset loses exactly the given tags. */
    method DetachTags(assetId: nat, remove: seq<TagRow>, fail: Option<GoErrors.Error>) returns (err: Option<GoErrors.Error>)
      requires Valid()
      requires IndexOfId(assets, AssetId, assetId).Some?
      modifies this
      ensures Valid()
      ensures err == fail
      ensures tags == old(tags) && datasets == old(datasets) && versions == old(versions)
      ensures var i := IndexOfId(old(assets), AssetId, assetId).value;
        assets == if fail.Some? then old(assets) else Retag(old(assets), i, old(assets)[i].tagIds - TagIds(remove))
    {
      if fail.Some? {
        return fail;
      }
      var i := IndexOfId(assets, AssetId, assetId).value;
      assets := Retag(assets, i, assets[i].tagIds - TagIds(remove));
      return None;
    }

    /**
     * INSERT INTO assets: refused by the `checksum <> ''` check (23514) or the unique index on
     * checksum (23505); otherwise the row gets the next id and no tags.
     */
    method InsertAsset(checksum: string, display: string, mimeType: string, state: string,
                       fail: Option<GoErrors.Error>) returns (id: nat, err: Option<GoErrors.Error>)
      requires Valid()
      modifies this
      ensures Valid()
      ensures tags == old(tags) && datasets == old(datasets) && versions == old(versions)
      ensures err == InsertAssetError(old(assets), checksum, fail)
      ensures err.Some? ==> assets == old(assets)
      ensures err.None? ==> (id == NextId(old(assets), AssetId)
        && assets == old(assets) + [AssetRow(id, checksum, display, mimeType, state, {})])
    {
      err := InsertAssetError(assets, checksum, fail);
      if err.Some? {
        return 0, err;
      }
      id := NextId(assets, AssetId);
      AppendKeyed(assets, AssetId, AssetRow(id, checksum, display, mimeType, state, {}));
      assets := assets + [AssetRow(id, checksum, display, mimeType, state, {})];
    }

    /**
     * The multi-row insert `BatchInsert` describes: `fail` is what the database reports; the
     * rows are stored all together or, on any refusal, none of them.
     */
    method InsertAssets(batch: seq<AssetRow>, fail: Option<GoErrors.Error>) returns (err: Option<GoErrors.Error>)
      requires Valid()
      modifies this
      ensures Valid()
      ensures tags == old(tags) && datasets == old(datasets) && versions == old(versions)
      ensures fail.Some? ==> err == fail && assets == old(assets)
      ensures fail.None? ==> match BatchInsert(old(assets), batch)
        case Fail(e) => err == Some(e) && assets == old(assets)
        case Ok(rows) => err.None? && assets == rows
    {
      if fail.Some? {
        return fail;
      }
      var saved := assets;
      var i := 0;
      while i < |batch|
        invariant 0 <= i <= |batch|
        invariant Valid()
        invariant tags == old(tags) && datasets == old(datasets) && versions == old(versions)
        invariant saved == old(assets)
        invariant BatchInsert(saved, batch[..i]) == Ok(assets)
      {
        assert batch[..i + 1][..i] == batch[..i];
        var _, e := InsertAsset(batch[i].checksum, batch[i].display, batch[i].mimeType, batch[i].state, None);
        if e.Some? {
          BatchInsertFailKept(saved, batch, i + 1);
          RestoreAssets(saved);
          return e;
        }
        i := i + 1;
      }
      assert batch[..i] == batch;
      err := None;
    }

    /** INSERT INTO tags: the unique index on name refuses a name already stored. */
    method InsertTag(name: string, fail: Option<GoErrors.Error>) returns (id: nat, err: Option<GoErrors.Error>)
      requires Valid()
      modifies this
      ensures Valid()
      ensures assets == old(assets) && datasets == old(datasets) && versions == old(versions)
      ensures err.None? <==> fail.None? && forall t :: t in old(tags) ==> t.name != name
      ensures fail.Some? ==> err == fail
      ensures fail.None? && err.Some? ==> GoErrors.IsUniqueViolation(err.value)
      ensures err.Some? ==> tags == old(tags)
      ensures err.None? ==> id == NextId(old(tags), TagId) && tags == old(tags) + [TagRow(id, name)]
    {
      if fail.Some? {
        return 0, fail;
      }
      if exists t :: t in tags && t.name == name {
        return 0, Some(UniqueViolation("tags"));
      }
      id := NextId(tags, TagId);
      AppendKeyed(tags, TagId, TagRow(id, name));
      assert TagIds(tags) <= TagIds(tags + [TagRow(id, name)]);
      tags := tags + [TagRow(id, name)];
      err := None;
    }

    /** INSERT INTO dataset_versions for a stored dataset. */
    method InsertVersion(datasetId: nat, display: string, number: int, description: string,
                         fail: Option<GoErrors.Error>) returns (id: nat, err: Option<GoErrors.Error>)
      requires Valid()
      modifies this
      ensures Valid()
      ensures assets == old(assets) && tags == old(tags) && datasets == old(datasets)
      ensures err == fail
      ensures err.Some? ==> versions == old(versions)
      ensures err.None? ==> (id == NextId(old(versions), VersionId)
        && versions == old(versions) + [VersionRow(id, datasetId, display, number, description)])
    {
      if fail.Some? {
        return 0, fail;
      }
      id := NextId(versions, VersionId);
      AppendKeyed(versions, VersionId, VersionRow(id, datasetId, display, number, description));
      versions := versions + [VersionRow(id, datasetId, display, number, description)];
      err := None;
    }
    /** INSERT INTO datasets: the unique index on name refuses a name already stored. */
    method InsertDataset(name: string, description: string, fail: Option<GoErrors.Error>) returns (id: nat, err: Option<GoErrors.Error>)
      requires Valid()
      modifies this
      ensures Valid()
      ensures assets == old(assets) && tags == old(tags) && versions == old(versions)
      ensures err.None? <==> fail.None? && forall d :: d in old(datasets) ==> d.name != name
      ensures fail.Some? ==> err == fail
      ensures fail.None? && err.Some? ==> GoErrors.IsUniqueViolation(err.value)
      ensures err.Some? ==> datasets == old(datasets)
      ensures err.None? ==> id == NextId(old(datasets), DatasetId) && datasets == old(datasets) + [DatasetRow(id, name, description)]
    {
      if fail.Some? {
        return 0, fail;
      }
      if exists d :: d in datasets && d.name == name {
        return 0, Some(UniqueViolation("datasets"));
      }
      id := NextId(datasets, DatasetId);
      AppendKeyed(datasets, DatasetId, DatasetRow(id, name, description));
      datasets := datasets + [DatasetRow(id, name, description)];
      err := None;
    }

    /**
     * `Updates` with a struct: the non-empty ones of display, MIME type and state are written
     * to the row; its id, checksum and tags stay.
     */
    /**
     * `UPDATE assets SET ... WHERE id = ?` with a struct, on the row at index `i`: `fail` is
     * what the database reports, and the unique index on checksum refuses a checksum another
     * row holds. On a refusal nothing changes.
     */
    method UpdateAsset(i: nat, checksum: string, display: string, mimeType: string, state: string,
                       fail: Option<GoErrors.Error>) returns (err: Option<GoErrors.Error>)
      requires Valid() && i < |assets|
      modifies this
      ensures Valid()
      ensures tags == old(tags) && datasets == old(datasets) && versions == old(versions)
      ensures err == UpdateAssetError(old(assets), i, checksum, fail)
      ensures err.Some? ==> assets == old(assets)
      ensures err.None? ==> assets == old(assets)[i := Updated(old(assets)[i], checksum, display, mimeType, state)]
    {
      err := UpdateAssetError(assets, i, checksum, fail);
      if err.Some? {
        return;
      }
      var before := assets;
      assets := assets[i := Updated(assets[i], checksum, display, mimeType, state)];
      assert forall k :: 0 <= k < |assets| ==> AssetId(assets[k]) == AssetId(before[k]) && assets[k].tagIds == before[k].tagIds;
      assert forall k :: 0 <= k < |assets| && k != i ==> assets[k] == before[k];
    }
  }

  /** A row after a struct update: a field given as "" keeps its stored value, the checksum included. */
  function Updated(a: AssetRow, checksum: string, display: string, mimeType: string, state: string): (r: AssetRow)
    ensures r.id == a.id && r.tagIds == a.tagIds
    ensures r.checksum == (if checksum == [] then a.checksum else checksum)
    ensures r.display == (if display == [] then a.display else display)
    ensures r.mimeType == (if mimeType == [] then a.mimeType else mimeType)
    ensures r.state == (if state == [] then a.state else state)
  {
    a.(checksum := if checksum == [] then a.checksum else checksum,
       display := if display == [] then a.display else display,
       mimeType := if mimeType == [] then a.mimeType else mimeType,
       state := if state == [] then a.state else state)
  }

  /**
   * Why an update of the row at `i` is refused: the database's own failure, or a non-empty
   * checksum that some other row already holds.
   */
  function UpdateAssetError(assets: seq<AssetRow>, i: nat, checksum: string, fail: Option<GoErrors.Error>): (err: Option<GoErrors.Error>)
    requires i < |assets|
    ensures err.None? <==> fail.None? && (checksum == [] || forall k :: 0 <= k < |assets| && k != i ==> assets[k].checksum != checksum)
    ensures fail.None? && checksum != [] && (exists k :: 0 <= k < |assets| && k != i && assets[k].checksum == checksum) ==>
      err.Some? && GoErrors.IsUniqueViolation(err.value)
  {
    if fail.Some? then fail
    else if checksum != [] && exists k :: 0 <= k < |assets| && k != i && assets[k].checksum == checksum then Some(UniqueViolation("assets"))
    else None
  }

  /** The error PostgreSQL reports for a duplicate key. */
  function UniqueViolation(table: string): (e: GoErrors.Error)
    ensures GoErrors.IsUniqueViolation(e)
  {
    GoErrors.Pg("23505", "duplicate key value violates unique constraint on " + table)
  }

  /** Why an asset insert is refused: the database's own failure, an empty checksum, a duplicate. */
  function InsertAssetError(assets: seq<AssetRow>, checksum: string, fail: Option<GoErrors.Error>): (err: Option<GoErrors.Error>)
    ensures err.None? <==> fail.None? && checksum != [] && forall a :: a in assets ==> a.checksum != checksum
    ensures fail.None? && checksum != [] && (exists a :: a in assets && a.checksum == checksum) ==>
      err.Some? && GoErrors.IsUniqueViolation(err.value)
  {
    if fail.Some? then fail
    else if checksum == [] then Some(GoErrors.Pg("23514", "new row violates check constraint on checksum"))
    else if exists a :: a in assets && a.checksum == checksum then Some(UniqueViolation("assets"))
    else None
  }

  /**
   * The row a new asset becomes in a table holding `rows`: the next id and no tags. A new record
   * has id zero and no tags, so neither is read from the given row.
   */
  function Stored(rows: seq<AssetRow>, n: AssetRow): (r: AssetRow)
    ensures r.id == NextId(rows, AssetId) && r.tagIds == {}
    ensures r.checksum == n.checksum && r.display == n.display && r.mimeType == n.mimeType && r.state == n.state
  {
    n.(id := NextId(rows, AssetId), tagIds := {})
  }

  /**
   * A multi-row INSERT INTO assets, one statement: each row in order is checked against the
   * table and the rows before it, the first refusal is the statement's error and then nothing
   * is stored.
   */
  function BatchInsert(assets: seq<AssetRow>, batch: seq<AssetRow>): Result<seq<AssetRow>, GoErrors.Error>
  {
    if batch == [] then Ok(assets)
    else match BatchInsert(assets, batch[..|batch| - 1])
      case Fail(e) => Fail(e)
      case Ok(rows) =>
        match InsertAssetError(rows, batch[|batch| - 1].checksum, None)
        case Some(e) => Fail(e)
        case None => Ok(rows + [Stored(rows, batch[|batch| - 1])])
  }

  /**
   * `db.Create(rows)` with a slice and no hooks: GORM refuses an empty slice before any
   * statement; otherwise `fail` is what the database reports, and then the multi-row insert.
   */
  function CreateBatch(assets: seq<AssetRow>, batch: seq<AssetRow>, fail: Option<GoErrors.Error>): Result<seq<AssetRow>, GoErrors.Error>
  {
    if batch == [] then Fail(GoErrors.EmptySlice)
    else if fail.Some? then Fail(fail.value)
    else BatchInsert(assets, batch)
  }

  /** Every checksum of the batch is non-empty, not stored and not repeated in the batch. */
  predicate Insertable(assets: seq<AssetRow>, batch: seq<AssetRow>)
  {
    && (forall i :: 0 <= i < |batch| ==> batch[i].checksum != [])
    && (forall i, a :: 0 <= i < |batch| && a in assets ==> a.checksum != batch[i].checksum)
    && (forall i, j :: 0 <= i < j < |batch| ==> batch[i].checksum != batch[j].checksum)
  }

  function Checksums(rows: seq<AssetRow>): set<string>
  {
    set a | a in rows :: a.checksum
  }

  function BatchChecksums(batch: seq<AssetRow>): set<string>
  {
    set i | 0 <= i < |batch| :: batch[i].checksum
  }

  /** One more row: the batch so far went in, and the last row is checked against its result. */
  lemma BatchInsertStep(assets: seq<AssetRow>, batch: seq<AssetRow>)
    requires batch != [] && BatchInsert(assets, batch[..|batch| - 1]).Ok?
    ensures var rows := BatchInsert(assets, batch[..|batch| - 1]).value;
      var last := batch[|batch| - 1];
      BatchInsert(assets, batch) ==
        if InsertAssetError(rows, last.checksum, None).None? then Ok(rows + [Stored(rows, last)])
        else Fail(InsertAssetError(rows, last.checksum, None).value)
  {
  }

  lemma ChecksumsSnoc(rows: seq<AssetRow>, x: AssetRow)
    ensures Checksums(rows + [x]) == Checksums(rows) + {x.checksum}
  {
    assert forall a :: a in rows + [x] <==> a in rows || a == x;
  }

  lemma BatchChecksumsSnoc(batch: seq<AssetRow>)
    requires batch != []
    ensures BatchChecksums(batch) == BatchChecksums(batch[..|batch| - 1]) + {batch[|batch| - 1].checksum}
  {
    var init := batch[..|batch| - 1];
    forall c | c in BatchChecksums(batch)
      ensures c in BatchChecksums(init) + {batch[|batch| - 1].checksum}
    {
      var i :| 0 <= i < |batch| && batch[i].checksum == c;
      if i < |init| {
        assert init[i] == batch[i];
      }
    }
    forall c | c in BatchChecksums(init)
      ensures c in BatchChecksums(batch)
    {
      var i :| 0 <= i < |init| && init[i].checksum == c;
      assert batch[i] == init[i];
    }
  }

  /** A stored row refuses a later row with its checksum. */
  lemma InsertRefusesStored(rows: seq<AssetRow>, checksum: string)
    ensures InsertAssetError(rows, checksum, None).None? <==> checksum != [] && checksum !in Checksums(rows)
  {
    if checksum in Checksums(rows) {
      var a :| a in rows && a.checksum == checksum;
    }
  }

  /** The rows a successful batch appends: in order, with the batch's fields and fresh ids. */
  lemma {:induction false} BatchInsertRows(assets: seq<AssetRow>, batch: seq<AssetRow>)
    requires BatchInsert(assets, batch).Ok?
    ensures var rows := BatchInsert(assets, batch).value;
      && |rows| == |assets| + |batch| && rows[..|assets|] == assets
      && (forall i :: 0 <= i < |batch| ==> rows[|assets| + i] == Stored(rows[..|assets| + i], batch[i]))
  {
    if batch != [] {
      var init := batch[..|batch| - 1];
      BatchInsertRows(assets, init);
      var rows := BatchInsert(assets, init).value;
      var all := rows + [Stored(rows, batch[|batch| - 1])];
      BatchInsertStep(assets, batch);
      assert BatchInsert(assets, batch).value == all;
      assert all[..|rows|] == rows;
      assert all[..|assets|] == rows[..|assets|];
      forall i | 0 <= i < |init|
        ensures all[|assets| + i] == Stored(all[..|assets| + i], batch[i])
      {
        assert all[..|assets| + i] == rows[..|assets| + i];
        assert init[i] == batch[i];
      }
    }
  }

  /** The stored checksums after a successful batch: the old ones and the batch's. */
  lemma {:induction false} BatchInsertChecksums(assets: seq<AssetRow>, batch: seq<AssetRow>)
    requires BatchInsert(assets, batch).Ok?
    ensures Checksums(BatchInsert(assets, batch).value) == Checksums(assets) + BatchChecksums(batch)
  {
    if batch != [] {
      var init := batch[..|batch| - 1];
      BatchInsertChecksums(assets, init);
      var rows := BatchInsert(assets, init).value;
      BatchInsertStep(assets, batch);
      ChecksumsSnoc(rows, Stored(rows, batch[|batch| - 1]));
      BatchChecksumsSnoc(batch);
    }
  }

  /** The batch goes in exactly when it is insertable. */
  lemma {:induction false} BatchInsertAccepts(assets: seq<AssetRow>, batch: seq<AssetRow>)
    ensures BatchInsert(assets, batch).Ok? <==> Insertable(assets, batch)
  {
    if batch != [] {
      var init := batch[..|batch| - 1];
      var last := batch[|batch| - 1];
      BatchInsertAccepts(assets, init);
      if BatchInsert(assets, init).Ok? {
        var rows := BatchInsert(assets, init).value;
        BatchInsertChecksums(assets, init);
        BatchInsertStep(assets, batch);
        InsertRefusesStored(rows, last.checksum);
        InsertableSnoc(assets, batch);
      } else {
        assert !Insertable(assets, init);
        InsertableSnoc(assets, batch);
      }
    }
  }

  /** A batch is insertable when its first rows are and its last checksum is new and non-empty. */
  lemma InsertableSnoc(assets: seq<AssetRow>, batch: seq<AssetRow>)
    requires batch != []
    ensures var last := batch[|batch| - 1].checksum;
      Insertable(assets, batch) <==>
        Insertable(assets, batch[..|batch| - 1]) && last != [] && last !in Checksums(assets) + BatchChecksums(batch[..|batch| - 1])
  {
    var init := batch[..|batch| - 1];
    var last := batch[|batch| - 1].checksum;
    assert forall i :: 0 <= i < |init| ==> init[i] == batch[i];
    if last in BatchChecksums(init) {
      var i :| 0 <= i < |init| && init[i].checksum == last;
      assert batch[i].checksum == batch[|batch| - 1].checksum;
    }
    if last in Checksums(assets) {
      var a :| a in assets && a.checksum == last;
    }
  }

  /** A refusal partway through is the statement's outcome. */
  lemma {:induction false} BatchInsertFailKept(assets: seq<AssetRow>, batch: seq<AssetRow>, k: nat)
    requires k <= |batch| && BatchInsert(assets, batch[..k]).Fail?
    ensures BatchInsert(assets, batch) == BatchInsert(assets, batch[..k])
    decreases |batch| - k
  {
    if k < |batch| {
      assert batch[..k + 1][..k] == batch[..k];
      BatchInsertFailKept(assets, batch, k + 1);
    } else {
      assert batch[..k] == batch;
    }
  }

  /**
   * The batch goes in exactly when it is insertable; then the table is the old one followed by
   * one row per batch entry, in order, each with that entry's fields, no tags and the next id.
   */
  lemma BatchInsertProperties(assets: seq<AssetRow>, batch: seq<AssetRow>)
    ensures BatchInsert(assets, batch).Ok? <==> Insertable(assets, batch)
    ensures BatchInsert(assets, batch).Ok? ==>
      var rows := BatchInsert(assets, batch).value;
      && |rows| == |assets| + |batch| && rows[..|assets|] == assets
      && forall i :: 0 <= i < |batch| ==> rows[|assets| + i] == Stored(rows[..|assets| + i], batch[i])
  {
    BatchInsertAccepts(assets, batch);
    if BatchInsert(assets, batch).Ok? {
      BatchInsertRows(assets, batch);
    }
  }

  /** `Where("checksum = ?", checksum).First(&asset)`. */
  function AssetByChecksum(assets: seq<AssetRow>, checksum: string): (r: Result<AssetRow, GoErrors.Error>)
    ensures r.Ok? ==> r.value in assets && r.value.checksum == checksum
    ensures r.Fail? <==> forall a :: a in assets ==> a.checksum != checksum
    ensures r.Fail? ==> r.error == GoErrors.RecordNotFound
  {
    First(assets, (a: AssetRow) => a.checksum == checksum)
  }

  /** `Where("name = ?", name).First(&tag)`. */
  function TagByName(tags: seq<TagRow>, name: string): (r: Result<TagRow, GoErrors.Error>)
    ensures r.Ok? ==> r.value in tags && r.value.name == name
    ensures r.Fail? <==> forall t :: t in tags ==> t.name != name
    ensures r.Fail? ==> r.error == GoErrors.RecordNotFound
  {
    First(tags, (t: TagRow) => t.name == name)
  }

  /** `First(&tag, id)`: lookup by primary key. */
  function TagById(tags: seq<TagRow>, id: nat): (r: Result<TagRow, GoErrors.Error>)
    ensures r.Ok? ==> r.value in tags && r.value.id == id
    ensures r.Fail? <==> forall t :: t in tags ==> t.id != id
    ensures r.Fail? ==> r.error == GoErrors.RecordNotFound
  {
    First(tags, (t: TagRow) => t.id == id)
  }

  /**
   * `Where(&Dataset{Name: name}).First(&ds)`: GORM leaves a zero-valued struct field out of the
   * condition, so an empty name matches the first dataset.
   */
  function DatasetWhere(datasets: seq<DatasetRow>, name: string): (r: Result<DatasetRow, GoErrors.Error>)
    ensures r.Ok? ==> r.value in datasets && (name != [] ==> r.value.name == name)
    ensures r.Fail? <==> datasets == [] || (name != [] && forall d :: d in datasets ==> d.name != name)
    ensures r.Fail? ==> r.error == GoErrors.RecordNotFound
    ensures name == [] && datasets != [] ==> r == Ok(datasets[0])
  {
    First(datasets, (d: DatasetRow) => name == [] || d.name == name)
  }

  /** `Model(asset).Association("Tags").Find(&tags)`: the stored tags the asset carries. */
  function TagsOf(tags: seq<TagRow>, a: AssetRow): (r: seq<TagRow>)
    ensures forall t :: t in r <==> t in tags && t.id in a.tagIds
    ensures (set t | t in r :: t.name) == TagNames(tags, a)
  {
    Pagination.WhereMembers(tags, (t: TagRow) => t.id in a.tagIds);
    Pagination.Where(tags, (t: TagRow) => t.id in a.tagIds)
  }

  /**
   * `Model(tag).Association("Assets")` under `Limit(limit).Offset(offset)`: the assets carrying
   * the tag, in id order, windowed.
   */
  function AssetsTagged(assets: seq<AssetRow>, tagId: nat, limit: int, offset: int): (r: seq<AssetRow>)
    ensures forall a :: a in r ==> a in assets && tagId in a.tagIds
    ensures limit >= 0 ==> |r| <= limit
  {
    Pagination.WhereMembers(assets, (a: AssetRow) => tagId in a.tagIds);
    Pagination.Window(Pagination.Where(assets, (a: AssetRow) => tagId in a.tagIds), limit, offset)
  }

  /** The normalisation loop of `GetTagsByNames`: non-blank normalised names, in order. */
  function NormalizedNames(names: seq<string>): seq<string>
  {
    TagLists.NonBlankMapped(names, RegistryHooks.NormalizeString)
  }

  /**
   * `WHERE name IN normalized` finds exactly the stored tags whose name is the normalisation of
   * some requested name; nothing is looked up when every name is blank.
   */
  lemma TagsByNames(tags: seq<TagRow>, names: seq<string>)
    ensures forall t :: t in TagsNamed(tags, NormalizedNames(names)) <==>
      t in tags && t.name != [] && exists n :: n in names && RegistryHooks.NormalizeString(n) == t.name
    ensures NormalizedNames(names) == [] <==> forall n :: n in names ==> RegistryHooks.NormalizeString(n) == []
  {
    TagLists.NonBlankMappedElements(names, RegistryHooks.NormalizeString);
    TagLists.NonBlankMappedEmpty(names, RegistryHooks.NormalizeString);
    TagsNamedMembers(tags, NormalizedNames(names));
  }

  /**
   * The asset filters of `ListAssetsRecords` before the cursor: the struct condition on MIME type
   * and state (an empty field adds nothing), `checksum IN`, the included-tags sub-query
   * (`COUNT(*) = len` over the joined rows) and the excluded-tags sub-query.
   */
  predicate QueryMatches(q: RegistrySearch.Query, tags: seq<TagRow>, a: AssetRow)
  {
    (q.mimeType == [] || a.mimeType == q.mimeType)
    && (q.state == [] || a.state == q.state)
    && (q.checkSums == [] || a.checksum in q.checkSums)
    && (q.includedTags == [] || |TagNames(tags, a) * (set n | n in q.includedTags)| == |q.includedTags|)
    && (forall n :: n in q.excludedTags ==> n !in TagNames(tags, a))
  }

  /**
   * With the included names free of duplicates, as every option-built query has them, the count
   * test holds exactly when the asset carries every included tag. Without that, a repeated name
   * could never be matched (`TagLists.CountWithDuplicate`).
   */
  lemma IncludedCount(q: RegistrySearch.Query, tags: seq<TagRow>, a: AssetRow)
    requires TagLists.NoDup(q.includedTags)
    ensures (q.includedTags == [] || |TagNames(tags, a) * (set n | n in q.includedTags)| == |q.includedTags|) <==>
      (forall n :: n in q.includedTags ==> n in TagNames(tags, a))
  {
    TagLists.CountMeansAll(q.includedTags, TagNames(tags, a));
  }

  /** With unique checksums the asset found is the only one with that checksum. */
  lemma AssetByChecksumUnique(assets: seq<AssetRow>, checksum: string)
    requires UniqueChecksums(assets)
    ensures AssetByChecksum(assets, checksum).Ok? ==>
      forall a :: a in assets && a.checksum == checksum ==> a == AssetByChecksum(assets, checksum).value
  {
    var r := AssetByChecksum(assets, checksum);
    if r.Ok? {
      forall a | a in assets && a.checksum == checksum
        ensures a == r.value
      {
        var i :| 0 <= i < |assets| && assets[i] == a;
        var j :| 0 <= j < |assets| && assets[j] == r.value;
        assert assets[i].checksum == assets[j].checksum;
      }
    }
  }

  /** With unique names the tag found is the only one with that name. */
  lemma TagByNameUnique(tags: seq<TagRow>, name: string)
    requires UniqueTagNames(tags)
    ensures TagByName(tags, name).Ok? ==>
      forall t :: t in tags && t.name == name ==> t == TagByName(tags, name).value
  {
    var r := TagByName(tags, name);
    if r.Ok? {
      forall t | t in tags && t.name == name
        ensures t == r.value
      {
        SameNameSameRow(tags, t, r.value);
      }
    }
  }
}
