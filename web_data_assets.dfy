/**
 * internal/web/services/data/assets.go: the web service's asset operations over the registry
 * engine of pkg/registry. The database is the in-memory store; a failure of the database or of
 * the S3 presigner is a parameter of the operation. A GORM transaction is modelled by keeping
 * the asset table as it was before and putting it back when the closure returns an error.
 */
module WebDataAssets {
  import opened Wrappers
  import opened GoStrings
  import GoErrors
  import TagLists
  import Pagination
  import RegistryHooks
  import RegistryTypes
  import RegistrySearch
  import R = RegistryRecords
  import S = RegistryStore
  import D = RegistryDatabase

  const ErrAssetNotFound := GoErrors.Sentinel("web/services/data.ErrAssetNotFound", "asset not found")
  const ErrTagNotFound := GoErrors.Sentinel("web/services/data.ErrTagNotFound", "tag not found")
  const ErrAssetAlreadyExists := GoErrors.Sentinel("web/services/data.ErrAssetAlreadyExists", "asset already exists")
  const ErrTagAlreadyExists := GoErrors.Sentinel("web/services/data.ErrTagAlreadyExists", "tag already exists")
  const ErrDatasetAlreadyExists := GoErrors.Sentinel("web/services/data.ErrDatasetAlreadyExists", "dataset already exists")
  const ErrAssetIsReady := GoErrors.Sentinel("web/services/data.ErrAssetIsReady", "reuploading a ready asset is not allowed")

  /** `fmt.Errorf("%w: %s", sentinel, detail)`. */
  function Detailed(sentinel: GoErrors.Error, detail: string): (e: GoErrors.Error)
    ensures GoErrors.Is(e, sentinel)
    ensures GoErrors.Message(e) == GoErrors.Message(sentinel) + ": " + detail
  {
    GoErrors.Wrap("", sentinel, ": " + detail)
  }

  /** `%v` of a `[]string`: the entries separated by spaces, in brackets. */
  function ListText(xs: seq<string>): string
  {
    "[" + Join(xs, " ") + "]"
  }

  function FoundNames(tags: seq<S.TagRow>): set<string>
  {
    set t | t in tags :: t.name
  }

  /** The requested names that no found tag carries, in request order. */
  function Missing(names: seq<string>, found: set<string>): seq<string>
  {
    if names == [] then []
    else
      var last := names[|names| - 1];
      Missing(names[..|names| - 1], found) + (if last in found then [] else [last])
  }

  /**
   * What a `validateAllTagsFound` returns: nil when the counts agree, else `notFound` with the
   * missing names. The web and the API services each have a copy, with their own sentinel.
   */
  function MissingTagsError(notFound: GoErrors.Error, names: seq<string>, tags: seq<S.TagRow>): Option<GoErrors.Error>
  {
    if |tags| == |names| then None
    else Some(Detailed(notFound, ListText(Missing(names, FoundNames(tags)))))
  }

  /** The body of `validateAllTagsFound`: the `found` map and the `missing` slice, each built in a loop. */
  method FindMissingTags(notFound: GoErrors.Error, names: seq<string>, tags: seq<S.TagRow>) returns (err: Option<GoErrors.Error>)
    ensures err == MissingTagsError(notFound, names, tags)
  {
    if |tags| == |names| {
      return None;
    }
    var found: set<string> := {};
    var i := 0;
    while i < |tags|
      invariant 0 <= i <= |tags|
      invariant found == FoundNames(tags[..i])
    {
      assert tags[..i + 1] == tags[..i] + [tags[i]];
      found := found + {tags[i].name};
      i := i + 1;
    }
    assert tags[..i] == tags;
    var missing: seq<string> := [];
    var j := 0;
    while j < |names|
      invariant 0 <= j <= |names|
      invariant missing == Missing(names[..j], found)
    {
      assert names[..j + 1][..j] == names[..j];
      if names[j] !in found {
        missing := missing + [names[j]];
      }
      j := j + 1;
    }
    assert names[..j] == names;
    return Some(Detailed(notFound, ListText(missing)));
  }

  function TagsFoundError(names: seq<string>, tags: seq<S.TagRow>): Option<GoErrors.Error>
  {
    MissingTagsError(ErrTagNotFound, names, tags)
  }

  /**
   * `validateAllTagsFound`: nil exactly when as many tags came back as names were asked for;
   * otherwise `ErrTagNotFound` listing, in request order, the names no found tag carries.
   */
  method ValidateAllTagsFound(names: seq<string>, tags: seq<S.TagRow>) returns (err: Option<GoErrors.Error>)
    ensures err.None? <==> |tags| == |names|
    ensures err.Some? ==>
      GoErrors.Is(err.value, ErrTagNotFound) && err.value == Detailed(ErrTagNotFound, ListText(Missing(names, FoundNames(tags))))
  {
    err := FindMissingTags(ErrTagNotFound, names, tags);
  }

  /** A name is reported missing exactly when it was requested and no found tag carries it. */
  lemma {:induction false} MissingMembers(names: seq<string>, found: set<string>)
    ensures forall n :: n in Missing(names, found) <==> n in names && n !in found
    ensures |Missing(names, found)| <= |names|
    ensures (forall n :: n in names ==> n in found) ==> Missing(names, found) == []
  {
    if names != [] {
      MissingMembers(names[..|names| - 1], found);
      assert names == names[..|names| - 1] + [names[|names| - 1]];
    }
  }

  /** The missing names keep the request order: the list splits over concatenation. */
  lemma {:induction false} MissingConcat(a: seq<string>, b: seq<string>, found: set<string>)
    ensures Missing(a + b, found) == Missing(a, found) + Missing(b, found)
  {
    if b == [] {
      assert a + b == a;
    } else {
      MissingConcat(a, b[..|b| - 1], found);
      assert (a + b)[..|a + b| - 1] == a + b[..|b| - 1];
    }
  }

  /** Tags with pairwise different names carry as many names as there are tags. */
  lemma DistinctNamesCount(tags: seq<S.TagRow>)
    requires forall i, j :: 0 <= i < j < |tags| ==> tags[i].name != tags[j].name
    ensures |FoundNames(tags)| == |tags|
  {
    var ns := seq(|tags|, i requires 0 <= i < |tags| => tags[i].name);
    TagLists.NoDupCardinality(ns);
    forall x | x in FoundNames(tags)
      ensures x in ns
    {
      var t :| t in tags && t.name == x;
      var i :| 0 <= i < |tags| && tags[i] == t;
      assert ns[i] == x;
    }
    assert (set x | x in ns) == FoundNames(tags);
  }

  /**
   * Asking for a name twice fails the count check even when every name exists, since the lookup
   * returns each stored tag once; the error then lists no missing name.
   */
  lemma DuplicateNamesFail(names: seq<string>, tags: seq<S.TagRow>)
    requires forall i, j :: 0 <= i < j < |tags| ==> tags[i].name != tags[j].name
    requires forall t :: t in tags ==> t.name in names
    requires forall n :: n in names ==> n in FoundNames(tags)
    requires !TagLists.NoDup(names)
    ensures TagsFoundError(names, tags) == Some(Detailed(ErrTagNotFound, ListText([])))
  {
    DistinctNamesCount(tags);
    assert FoundNames(tags) == set n | n in names;
    TagLists.CountWithDuplicate(names, FoundNames(tags));
    assert FoundNames(tags) * (set n | n in names) == FoundNames(tags);
    MissingMembers(names, FoundNames(tags));
  }

  /** The rows `WHERE name IN names` returns have pairwise different names. */
  lemma TagsNamedDistinct(stored: seq<S.TagRow>, names: seq<string>)
    requires S.Keyed(stored, S.TagId) && S.UniqueTagNames(stored)
    ensures var f := S.TagsNamed(stored, names);
      forall i, j :: 0 <= i < j < |f| ==> f[i].name != f[j].name
  {
    var f := S.TagsNamed(stored, names);
    S.TagsNamedAscending(stored, names);
    S.TagsNamedMembers(stored, names);
    forall i, j | 0 <= i < j < |f|
      ensures f[i].name != f[j].name
    {
      assert S.TagId(f[i]) < S.TagId(f[j]);
      assert f[i] in stored && f[j] in stored;
      var a :| 0 <= a < |stored| && stored[a] == f[i];
      var b :| 0 <= b < |stored| && stored[b] == f[j];
      assert a != b;
    }
  }

  /** Over stored tags with unique names, the count check passes only if every name was found. */
  lemma CountMatchMeansFound(stored: seq<S.TagRow>, names: seq<string>)
    requires S.Keyed(stored, S.TagId) && S.UniqueTagNames(stored)
    requires |S.TagsNamed(stored, names)| == |names|
    ensures forall n :: n in names ==> exists t :: t in stored && t.name == n
  {
    var f := S.TagsNamed(stored, names);
    TagsNamedDistinct(stored, names);
    DistinctNamesCount(f);
    S.TagsNamedMembers(stored, names);
    TagLists.SetBelowLength(names);
    forall n | n in names
      ensures exists t :: t in stored && t.name == n
    {
      if forall t :: t in stored ==> t.name != n {
        assert FoundNames(f) <= (set m | m in names) - {n};
        TagLists.SubsetCardinality(FoundNames(f), (set m | m in names) - {n});
      }
    }
  }

  /** Normalising names a second time changes nothing. */
  lemma NormalizedTwice(names: seq<string>)
    ensures S.NormalizedNames(S.NormalizedNames(names)) == S.NormalizedNames(names)
    ensures forall n :: n in S.NormalizedNames(names) ==> n != [] && RegistryHooks.NormalizeString(n) == n
  {
    var c := S.NormalizedNames(names);
    TagLists.NonBlankMappedElements(names, RegistryHooks.NormalizeString);
    forall i | 0 <= i < |c|
      ensures c[i] != [] && RegistryHooks.NormalizeString(c[i]) == c[i]
    {
      assert c[i] in c;
      var t :| t in names && RegistryHooks.NormalizeString(t) == c[i];
      RegistryHooks.NormalizeStringIdempotent(t);
    }
    TagLists.NonBlankMappedFixed(c, RegistryHooks.NormalizeString);
  }

  /** The tags `GetTagsByNames` returns for names that are already normalised and non-blank. */
  function FoundTags(stored: seq<S.TagRow>, normalized: seq<string>): seq<S.TagRow>
  {
    if normalized == [] then [] else S.TagsNamed(stored, normalized)
  }

  /** Whether `attachTagsToAsset` reaches the association step with a non-empty tag list. */
  predicate Attaches(stored: seq<S.TagRow>, tagNames: seq<string>, lookupFail: Option<GoErrors.Error>)
  {
    var normalized := S.NormalizedNames(tagNames);
    tagNames != [] && (normalized == [] || lookupFail.None?)
    && TagsFoundError(normalized, FoundTags(stored, normalized)).None?
    && FoundTags(stored, normalized) != []
  }

  /**
   * What `attachTagsToAsset` returns, step by step: nothing to do, the lookup's failure, the
   * missing names, the association's failure (named after the asset's checksum), the re-read's.
   */
  function AttachTagsError(stored: seq<S.TagRow>, tagNames: seq<string>, checksum: string,
                           lookupFail: Option<GoErrors.Error>, attachFail: Option<GoErrors.Error>,
                           reloadFail: Option<GoErrors.Error>): Option<GoErrors.Error>
  {
    var normalized := S.NormalizedNames(tagNames);
    var found := FoundTags(stored, normalized);
    if tagNames == [] then None
    else if normalized != [] && lookupFail.Some? then lookupFail
    else if TagsFoundError(normalized, found).Some? then TagsFoundError(normalized, found)
    else if found == [] then None
    else if attachFail.Some? then Some(GoErrors.Wrapf("failed to attach tags to asset " + checksum, attachFail.value))
    else reloadFail
  }

  /**
   * `attachTagsToAsset` succeeds without a request for an empty list. A successful lookup leads
   * to an association only when every normalised name has a stored tag; conversely, when every
   * name has one and no name is asked twice, the count check passes.
   */
  lemma AttachTagsErrorCases(stored: seq<S.TagRow>, tagNames: seq<string>, checksum: string,
                             lookupFail: Option<GoErrors.Error>, attachFail: Option<GoErrors.Error>,
                             reloadFail: Option<GoErrors.Error>)
    requires S.Keyed(stored, S.TagId) && S.UniqueTagNames(stored)
    ensures tagNames == [] ==> AttachTagsError(stored, tagNames, checksum, lookupFail, attachFail, reloadFail).None?
    ensures Attaches(stored, tagNames, lookupFail) ==>
      forall n :: n in S.NormalizedNames(tagNames) ==> exists t :: t in stored && t.name == n
    ensures tagNames != [] && (exists n :: n in S.NormalizedNames(tagNames) && forall t :: t in stored ==> t.name != n) ==>
      AttachTagsError(stored, tagNames, checksum, lookupFail, attachFail, reloadFail).Some?
    ensures (tagNames != [] && lookupFail.None? && TagLists.NoDup(S.NormalizedNames(tagNames))
             && forall n :: n in S.NormalizedNames(tagNames) ==> exists t :: t in stored && t.name == n) ==>
      TagsFoundError(S.NormalizedNames(tagNames), FoundTags(stored, S.NormalizedNames(tagNames))).None?
  {
    var normalized := S.NormalizedNames(tagNames);
    if normalized != [] {
      if |S.TagsNamed(stored, normalized)| == |normalized| {
        CountMatchMeansFound(stored, normalized);
      }
      if TagLists.NoDup(normalized) && forall n :: n in normalized ==> exists t :: t in stored && t.name == n {
        AllFoundCount(stored, normalized);
      }
    }
  }

  /** Every one of pairwise different names has a stored tag: the lookup returns one per name. */
  lemma AllFoundCount(stored: seq<S.TagRow>, names: seq<string>)
    requires S.Keyed(stored, S.TagId) && S.UniqueTagNames(stored)
    requires TagLists.NoDup(names)
    requires forall n :: n in names ==> exists t :: t in stored && t.name == n
    ensures |S.TagsNamed(stored, names)| == |names|
  {
    var f := S.TagsNamed(stored, names);
    TagsNamedDistinct(stored, names);
    DistinctNamesCount(f);
    S.TagsNamedMembers(stored, names);
    TagLists.NoDupCardinality(names);
    forall n | n in names
      ensures n in FoundNames(f)
    {
      var t :| t in stored && t.name == n;
      assert t in f;
    }
    assert FoundNames(f) == set n | n in names;
  }

  /**
   * `attachTagsToAsset`: nothing for an empty list; otherwise the names are normalised with the
   * blank ones dropped, looked up, checked by count, and the tags found are attached. A name with
   * no stored tag fails the whole step before anything is attached.
   */
  method AttachTagsToAsset(db: S.Database, asset: S.AssetRow, tagNames: seq<string>,
                           lookupFail: Option<GoErrors.Error>, attachFail: Option<GoErrors.Error>,
                           reloadFail: Option<GoErrors.Error>) returns (err: Option<GoErrors.Error>)
    requires db.Valid()
    requires S.IndexOfId(db.assets, S.AssetId, asset.id).Some?
    modifies db
    ensures db.Valid()
    ensures db.tags == old(db.tags) && db.datasets == old(db.datasets) && db.versions == old(db.versions)
    ensures err == AttachTagsError(old(db.tags), tagNames, asset.checksum, lookupFail, attachFail, reloadFail)
    ensures db.assets ==
      if Attaches(old(db.tags), tagNames, lookupFail) && attachFail.None? then
        var i := S.IndexOfId(old(db.assets), S.AssetId, asset.id).value;
        S.Retag(old(db.assets), i, old(db.assets)[i].tagIds + S.TagIds(FoundTags(old(db.tags), S.NormalizedNames(tagNames))))
      else old(db.assets)
  {
    if |tagNames| == 0 {
      return None;
    }
    var normalized := TagLists.MapNonBlank(tagNames, RegistryHooks.NormalizeString);
    NormalizedTwice(tagNames);
    if normalized != [] {
      assert normalized[0] in normalized;
    }
    var lookedUp, lookupErr := D.GetTagsByNames(db, normalized, lookupFail);
    if lookupErr.Some? {
      return lookupErr;
    }
    var tags := if lookedUp.Some? then lookedUp.value else [];
    assert tags == FoundTags(db.tags, normalized);
    err := ValidateAllTagsFound(normalized, tags);
    if err.Some? {
      return err;
    }
    S.TagsNamedMembers(db.tags, normalized);
    var _, attachErr := D.AttachTags(db, asset, tags, attachFail, reloadFail);
    return attachErr;
  }

  /** `CreateAssetResult`: the asset as committed, the upload URL, the error. */
  datatype CreateAssetResult = CreateAssetResult(asset: Option<S.AssetRow>, uploadURL: Option<RegistryTypes.PresignedUrl>,
                                                 err: Option<GoErrors.Error>)

  /** How `CreateAsset` reports a failed transaction: a unique violation becomes "already exists". */
  function TransactionError(checksum: string, e: GoErrors.Error): GoErrors.Error
  {
    if GoErrors.IsUniqueViolation(e) then Detailed(ErrAssetAlreadyExists, checksum) else e
  }

  /** `fmt.Errorf("failed generating presigned URL: %w", e)`. */
  function IngressFailed(e: GoErrors.Error): GoErrors.Error
  {
    GoErrors.Wrapf("failed generating presigned URL", e)
  }

  /** The error of the transaction closure: the create's, else the tag step's. */
  function CreateTransactionError(assets: seq<S.AssetRow>, stored: seq<S.TagRow>, checksum: string, tagNames: seq<string>,
                                  extraEmpty: bool, insertFail: Option<GoErrors.Error>, lookupFail: Option<GoErrors.Error>,
                                  attachFail: Option<GoErrors.Error>, reloadFail: Option<GoErrors.Error>): Option<GoErrors.Error>
  {
    var normalized := RegistryHooks.NormalizeString(checksum);
    var createErr := D.CreateAssetError(assets, checksum, normalized, extraEmpty, insertFail);
    if createErr.Some? then createErr
    else AttachTagsError(stored, tagNames, normalized, lookupFail, attachFail, reloadFail)
  }

  /**
   * A checksum that is already stored, with everything else in order, is reported as
   * `ErrAssetAlreadyExists` naming the checksum as given.
   */
  lemma ExistingChecksumReported(assets: seq<S.AssetRow>, stored: seq<S.TagRow>, checksum: string, tagNames: seq<string>,
                                 lookupFail: Option<GoErrors.Error>, attachFail: Option<GoErrors.Error>,
                                 reloadFail: Option<GoErrors.Error>)
    requires RegistryHooks.ValidateSHA256(RegistryHooks.NormalizeString(checksum)).None?
    requires exists a :: a in assets && a.checksum == RegistryHooks.NormalizeString(checksum)
    ensures var e := CreateTransactionError(assets, stored, checksum, tagNames, false, None, lookupFail, attachFail, reloadFail);
      e.Some? && TransactionError(checksum, e.value) == Detailed(ErrAssetAlreadyExists, checksum)
  {
    D.CreateAssetErrorCases(assets, checksum, RegistryHooks.NormalizeString(checksum), false, None);
  }

  /** In a table with ascending ids, a row's id leads back to its own position. */
  lemma IndexOfKeyed(rows: seq<S.AssetRow>, k: nat)
    requires S.Keyed(rows, S.AssetId) && k < |rows|
    ensures S.IndexOfId(rows, S.AssetId, rows[k].id) == Some(k)
  {
  }

  /**
   * The tag half of the transaction closure, on a table whose last row is the asset just
   * inserted: on failure the table is rolled back to `saved`, on success the committed row
   * carries the ids of the tags found.
   */
  method TagNewAsset(db: S.Database, saved: seq<S.AssetRow>, row: S.AssetRow, tagNames: seq<string>,
                     lookupFail: Option<GoErrors.Error>, attachFail: Option<GoErrors.Error>,
                     reloadFail: Option<GoErrors.Error>) returns (committed: Option<S.AssetRow>, err: Option<GoErrors.Error>)
    requires db.Valid() && db.assets == saved + [row] && row.tagIds == {}
    requires S.Keyed(saved, S.AssetId) && S.UniqueChecksums(saved)
    requires forall i :: 0 <= i < |saved| ==> saved[i].tagIds <= S.TagIds(db.tags)
    modifies db
    ensures db.Valid()
    ensures db.tags == old(db.tags) && db.datasets == old(db.datasets) && db.versions == old(db.versions)
    ensures err == AttachTagsError(old(db.tags), tagNames, row.checksum, lookupFail, attachFail, reloadFail)
    ensures err.Some? ==> committed.None? && db.assets == saved
    ensures err.None? ==> committed == Some(row.(tagIds := S.TagIds(FoundTags(old(db.tags), S.NormalizedNames(tagNames)))))
                          && db.assets == saved + [committed.value]
  {
    var last := |saved|;
    IndexOfKeyed(db.assets, last);
    err := AttachTagsToAsset(db, row, tagNames, lookupFail, attachFail, reloadFail);
    if err.Some? {
      db.RestoreAssets(saved);
      return None, err;
    }
    CommittedRow(old(db.tags), saved, row, tagNames, lookupFail, attachFail, reloadFail, db.assets);
    committed := Some(db.assets[last]);
  }

  /** What a successful tag step leaves: the new row, carrying the ids of the tags found. */
  lemma CommittedRow(tags: seq<S.TagRow>, saved: seq<S.AssetRow>, row: S.AssetRow, tagNames: seq<string>,
                     lookupFail: Option<GoErrors.Error>, attachFail: Option<GoErrors.Error>,
                     reloadFail: Option<GoErrors.Error>, after: seq<S.AssetRow>)
    requires row.tagIds == {}
    requires AttachTagsError(tags, tagNames, row.checksum, lookupFail, attachFail, reloadFail).None?
    requires after ==
      if Attaches(tags, tagNames, lookupFail) && attachFail.None? then
        S.Retag(saved + [row], |saved|, row.tagIds + S.TagIds(FoundTags(tags, S.NormalizedNames(tagNames))))
      else saved + [row]
    ensures after == saved + [row.(tagIds := S.TagIds(FoundTags(tags, S.NormalizedNames(tagNames))))]
    ensures after[|saved|] == row.(tagIds := S.TagIds(FoundTags(tags, S.NormalizedNames(tagNames))))
  {
    var found := FoundTags(tags, S.NormalizedNames(tagNames));
    var last := |saved|;
    if !(Attaches(tags, tagNames, lookupFail) && attachFail.None?) {
      if tagNames == [] {
        assert S.NormalizedNames(tagNames) == [];
      }
      assert found == [];
      assert S.TagIds(found) == {};
      assert after[last] == row;
    } else {
      assert after[last] == S.Retag(saved + [row], last, row.tagIds + S.TagIds(found))[last];
    }
    assert after[last] == row.(tagIds := S.TagIds(found));
    assert after == saved + [after[last]];
  }

  /**
   * The transaction closure of `CreateAsset`: the create, then the tags; a failure of either
   * leaves the asset table as it was.
   */
  method CreateTransaction(db: S.Database, checksum: string, display: string, tagNames: seq<string>, extra: R.ExtraMap?,
                           now: int, insertFail: Option<GoErrors.Error>, lookupFail: Option<GoErrors.Error>,
                           attachFail: Option<GoErrors.Error>, reloadFail: Option<GoErrors.Error>)
      returns (committed: Option<S.AssetRow>, err: Option<GoErrors.Error>)
    requires db.Valid()
    modifies db, extra
    ensures db.Valid()
    ensures db.tags == old(db.tags) && db.datasets == old(db.datasets) && db.versions == old(db.versions)
    ensures err == CreateTransactionError(old(db.assets), old(db.tags), checksum, tagNames,
                                          extra != null && |old(extra.entries)| == 0, insertFail, lookupFail,
                                          attachFail, reloadFail)
    ensures err.Some? ==> committed.None? && db.assets == old(db.assets)
    ensures err.None? ==>
      && committed.Some? && db.assets == old(db.assets) + [committed.value]
      && committed.value.checksum == RegistryHooks.NormalizeString(checksum)
      && committed.value.display == display && committed.value.state == RegistryTypes.StatusPending
      && committed.value.tagIds == S.TagIds(FoundTags(old(db.tags), S.NormalizedNames(tagNames)))
  {
    var saved := db.assets;
    var created, createErr := D.CreateAssetRecord(db, checksum, display, extra, now, insertFail);
    if createErr.Some? {
      return None, createErr;
    }
    var row := db.assets[|saved|];
    committed, err := TagNewAsset(db, saved, row, tagNames, lookupFail, attachFail, reloadFail);
  }

  /**
   * `CreateAsset`: a failed transaction leaves the asset table as it was and reports a unique
   * violation as "already exists"; the upload URL is requested only once the transaction has
   * committed, and its failure still returns the committed asset.
   */
  method CreateAsset(db: S.Database, checksum: string, display: string, tagNames: seq<string>, extra: R.ExtraMap?,
                     now: int, insertFail: Option<GoErrors.Error>, lookupFail: Option<GoErrors.Error>,
                     attachFail: Option<GoErrors.Error>, reloadFail: Option<GoErrors.Error>,
                     ingress: Result<RegistryTypes.PresignedUrl, GoErrors.Error>)
      returns (result: CreateAssetResult, urlRequested: bool)
    requires db.Valid()
    modifies db, extra
    ensures db.Valid()
    ensures db.tags == old(db.tags) && db.datasets == old(db.datasets) && db.versions == old(db.versions)
    ensures var txErr := CreateTransactionError(old(db.assets), old(db.tags), checksum, tagNames,
                                                extra != null && |old(extra.entries)| == 0, insertFail, lookupFail,
                                                attachFail, reloadFail);
      && (urlRequested <==> txErr.None?)
      && (txErr.Some? ==> result == CreateAssetResult(None, None, Some(TransactionError(checksum, txErr.value)))
                          && db.assets == old(db.assets))
    ensures urlRequested ==>
      && result.asset.Some? && db.assets == old(db.assets) + [result.asset.value]
      && result.asset.value.checksum == RegistryHooks.NormalizeString(checksum)
      && result.asset.value.display == display && result.asset.value.state == RegistryTypes.StatusPending
      && result.asset.value.tagIds == S.TagIds(FoundTags(old(db.tags), S.NormalizedNames(tagNames)))
      && result.uploadURL == (if ingress.Ok? then Some(ingress.value) else None)
      && result.err == (if ingress.Ok? then None else Some(IngressFailed(ingress.error)))
  {
    var committed, txErr := CreateTransaction(db, checksum, display, tagNames, extra, now, insertFail, lookupFail,
                                              attachFail, reloadFail);
    if txErr.Some? {
      return CreateAssetResult(None, None, Some(TransactionError(checksum, txErr.value))), false;
    }
    if ingress.Fail? {
      return CreateAssetResult(committed, None, Some(IngressFailed(ingress.error))), true;
    }
    return CreateAssetResult(committed, Some(ingress.value), None), true;
  }

  /**
   * `GetAsset`: the stored asset with the normalised checksum; a lookup that ends in
   * record-not-found becomes `ErrAssetNotFound` naming the checksum, any other failure passes
   * through as the registry reports it.
   */
  function GetAsset(db: S.Database, checksum: string, fail: Option<GoErrors.Error>): (r: Result<S.AssetRow, GoErrors.Error>)
    reads db
    ensures r.Ok? <==> fail.None? && exists a :: a in db.assets && a.checksum == RegistryHooks.NormalizeString(checksum)
    ensures r.Ok? ==> r.value in db.assets && r.value.checksum == RegistryHooks.NormalizeString(checksum)
    ensures fail.None? && r.Fail? ==> r.error == Detailed(ErrAssetNotFound, checksum)
    ensures fail.Some? && !GoErrors.Is(fail.value, GoErrors.RecordNotFound) ==>
      r == Fail(GoErrors.Wrapf("failed to get asset " + checksum, fail.value))
  {
    match D.GetAssetRecord(db, checksum, fail)
    case Fail(e) => if GoErrors.Is(e, GoErrors.RecordNotFound) then Fail(Detailed(ErrAssetNotFound, checksum)) else Fail(e)
    case Ok(a) => Ok(a)
  }

  /**
   * `GetAssetIngressUrl`: a missing asset gives `ErrAssetNotFound`, another lookup failure is
   * wrapped, a ready asset gives `ErrAssetIsReady`; only a stored asset that is not ready gets
   * the upload URL, whose own outcome is `ingress`.
   */
  function GetAssetIngressUrl(db: S.Database, checksum: string, fail: Option<GoErrors.Error>,
                              ingress: Result<RegistryTypes.PresignedUrl, GoErrors.Error>): (r: Result<RegistryTypes.PresignedUrl, GoErrors.Error>)
    reads db
  {
    match D.GetAssetRecord(db, checksum, fail)
    case Fail(e) =>
      if GoErrors.Is(e, GoErrors.RecordNotFound) then Fail(Detailed(ErrAssetNotFound, checksum))
      else Fail(GoErrors.Wrapf("failed to get asset presigned url", e))
    case Ok(a) =>
      if a.state == RegistryTypes.StatusReady then Fail(Detailed(ErrAssetIsReady, checksum))
      else ingress
  }

  /**
   * Over a table with unique checksums: no URL for a missing asset or a ready one, each with its
   * own error, and the upload URL exactly for a stored asset in any other state.
   */
  lemma GetAssetIngressUrlCases(db: S.Database, checksum: string, ingress: Result<RegistryTypes.PresignedUrl, GoErrors.Error>)
    requires S.UniqueChecksums(db.assets)
    ensures var n := RegistryHooks.NormalizeString(checksum);
      && ((forall a :: a in db.assets ==> a.checksum != n) ==>
            GetAssetIngressUrl(db, checksum, None, ingress) == Fail(Detailed(ErrAssetNotFound, checksum)))
      && ((exists a :: a in db.assets && a.checksum == n && a.state == RegistryTypes.StatusReady) ==>
            GetAssetIngressUrl(db, checksum, None, ingress) == Fail(Detailed(ErrAssetIsReady, checksum)))
      && ((exists a :: a in db.assets && a.checksum == n && a.state != RegistryTypes.StatusReady) ==>
            GetAssetIngressUrl(db, checksum, None, ingress) == ingress)
  {
    var n := RegistryHooks.NormalizeString(checksum);
    var r := D.GetAssetRecord(db, checksum, None);
    if r.Ok? {
      forall a | a in db.assets && a.checksum == n
        ensures a == r.value
      {
        var i :| 0 <= i < |db.assets| && db.assets[i] == a;
        var j :| 0 <= j < |db.assets| && db.assets[j] == r.value;
      }
    } else {
      assert GoErrors.Is(r.error, GoErrors.RecordNotFound);
    }
  }

  /** The checksums of the given records, in order. */
  function ChecksumsOf(rows: seq<S.AssetRow>): (r: seq<string>)
    ensures |r| == |rows| && forall k :: 0 <= k < |rows| ==> r[k] == rows[k].checksum
  {
    seq(|rows|, k requires 0 <= k < |rows| => rows[k].checksum)
  }

  /** The query `ListAssetsRecords(WithChecksums(checksums...))` runs. */
  function ChecksumQuery(checksums: seq<string>): RegistrySearch.Query
  {
    RegistrySearch.DefaultQuery.(checkSums := checksums)
  }

  /** The stored assets the existence check finds. */
  function ExistingRecords(db: S.Database, checksums: seq<string>): seq<S.AssetRow>
    reads db
  {
    D.ListResult(ChecksumQuery(checksums), db.tags, db.assets)
  }

  /**
   * The existence check finds something exactly when one of the checksums is stored, and what it
   * finds are stored assets with one of the checksums.
   */
  lemma ExistingRecordsFound(db: S.Database, checksums: seq<string>)
    requires S.Keyed(db.assets, S.AssetId) && checksums != []
    ensures ExistingRecords(db, checksums) != [] <==> exists a :: a in db.assets && a.checksum in checksums
    ensures forall a :: a in ExistingRecords(db, checksums) ==> a in db.assets && a.checksum in checksums
  {
    var q := ChecksumQuery(checksums);
    var w := Pagination.Where(db.assets, D.ListedFn(q, db.tags));
    Pagination.WhereMembers(db.assets, D.ListedFn(q, db.tags));
    if a :| a in db.assets && a.checksum in checksums {
      var i :| 0 <= i < |db.assets| && db.assets[i] == a;
      assert S.AssetId(db.assets[i]) >= 1;
      assert D.Listed(q, db.tags, a);
      assert a in w;
      assert q.limit > 0 && |w| > 0;
      assert |ExistingRecords(db, checksums)| > 0;
    }
    forall a | a in ExistingRecords(db, checksums)
      ensures a in w
    {
    }
    if ExistingRecords(db, checksums) != [] {
      var a := ExistingRecords(db, checksums)[0];
      assert a in w;
      assert a in db.assets && a.checksum in checksums;
    }
  }

  /** `CreateAssets` with `existingChecksums` as long as the list of existing records. */
  function ExistingChecksums(existing: seq<S.AssetRow>): (r: seq<string>)
    ensures |r| == |existing| && forall k :: 0 <= k < |r| ==> r[k] == existing[k].checksum
  {
    ChecksumsOf(existing)
  }

  /**
   * `CreateAssets` as written: `existingChecksums` is made as long as the request and only its
   * first entries are filled, so the rest stay "".
   */
  function PaddedExistingChecksums(existing: seq<S.AssetRow>, requested: nat): (r: seq<string>)
    requires |existing| <= requested
  {
    ChecksumsOf(existing) + seq(requested - |existing|, _ => "")
  }

  /**
   * The padded list always has the request's length, so the error's message counts the whole
   * request and its tail holds empty checksums whenever fewer records exist.
   */
  lemma PaddedCountsRequest(existing: seq<S.AssetRow>, requested: nat)
    requires |existing| <= requested
    ensures |PaddedExistingChecksums(existing, requested)| == requested
    ensures |existing| < requested ==> PaddedExistingChecksums(existing, requested)[requested - 1] == ""
    ensures GoErrors.Message(GoErrors.AssetsExists(PaddedExistingChecksums(existing, requested)))
      == GoStrings.Itoa(requested) + " asset(s) already exist"
  {
  }

  /**
   * Two checksums asked for, one stored: as written the list has an empty second entry and the
   * message counts 2; the corrected list holds the one stored checksum and the message counts 1.
   */
  lemma PaddedOvercountsExample(stored: S.AssetRow)
    ensures PaddedExistingChecksums([stored], 2) == [stored.checksum, ""]
    ensures ExistingChecksums([stored]) == [stored.checksum]
    ensures GoErrors.Message(GoErrors.AssetsExists(PaddedExistingChecksums([stored], 2)))[0] == '2'
    ensures GoErrors.Message(GoErrors.AssetsExists(ExistingChecksums([stored])))[0] == '1'
  {
    var padded := PaddedExistingChecksums([stored], 2);
    var found := ExistingChecksums([stored]);
    assert padded == [stored.checksum, ""];
    assert GoStrings.Itoa(|padded|)[0] == '2' && GoStrings.Itoa(|found|)[0] == '1';
  }

  /** `fmt.Errorf("failed to get records: %w", e)`. */
  function RecordsFailed(e: GoErrors.Error): GoErrors.Error
  {
    GoErrors.Wrapf("failed to get records", e)
  }

  /** The loops of `CreateAssets` that copy each record's checksum, in order. */
  method CollectChecksums(rows: seq<S.AssetRow>) returns (checksums: seq<string>)
    ensures checksums == ChecksumsOf(rows)
  {
    checksums := [];
    var i := 0;
    while i < |rows|
      invariant 0 <= i <= |rows|
      invariant checksums == ChecksumsOf(rows[..i])
    {
      assert rows[..i + 1][..i] == rows[..i];
      checksums := checksums + [rows[i].checksum];
      i := i + 1;
    }
    assert rows[..i] == rows;
  }

  /**
   * The records the existence check finds are distinct stored rows, so with unique checksums
   * there are no more of them than checksums asked for: the list as written, made as long as
   * the request, always has room for them.
   */
  lemma ExistingFitsRequest(db: S.Database, checksums: seq<string>)
    requires S.Keyed(db.assets, S.AssetId) && S.UniqueChecksums(db.assets) && checksums != []
    ensures |ExistingRecords(db, checksums)| <= |checksums|
  {
    var opts := [RegistrySearch.WithChecksums(checksums)];
    assert RegistrySearch.ApplyAll(opts, RegistrySearch.DefaultQuery) == Ok(ChecksumQuery(checksums));
    D.ListResultProperties(opts, db.tags, db.assets);
    ExistingRecordsFound(db, checksums);
    DistinctRowsFit(db.assets, ExistingRecords(db, checksums), checksums);
  }

  /** Rows in ascending id order, stored with unique checksums, each with one of the given checksums. */
  lemma DistinctRowsFit(stored: seq<S.AssetRow>, rows: seq<S.AssetRow>, checksums: seq<string>)
    requires S.UniqueChecksums(stored) && Pagination.Ascending(rows, S.AssetId)
    requires forall a :: a in rows ==> a in stored && a.checksum in checksums
    ensures |rows| <= |checksums|
  {
    var found := ChecksumsOf(rows);
    forall i, j | 0 <= i < j < |found|
      ensures found[i] != found[j]
    {
      assert rows[i].id < rows[j].id;
      var p :| 0 <= p < |stored| && stored[p] == rows[i];
      var q :| 0 <= q < |stored| && stored[q] == rows[j];
    }
    TagLists.NoDupCardinality(found);
    assert (set c | c in found) <= (set c | c in checksums) by {
      forall c | c in found
        ensures c in checksums
      {
        var k :| 0 <= k < |found| && found[k] == c;
        assert rows[k] in rows;
      }
    }
    TagLists.SubsetCardinality(set c | c in found, set c | c in checksums);
    TagLists.SetBelowLength(checksums);
  }

  /**
   * `CreateAssets`: the batch insert is issued only when none of the given checksums is stored;
   * otherwise the error lists the stored ones (the corrected list: one entry per stored
   * record). An empty batch is refused by the checksum option. An issued insert is
   * `CreateAssetRecords`: all the records or, on any refusal, none.
   */
  method CreateAssets(db: S.Database, assets: seq<S.AssetRow>, listFail: Option<GoErrors.Error>,
                      createFail: Option<GoErrors.Error>) returns (err: Option<GoErrors.Error>, batchIssued: bool)
    requires db.Valid()
    modifies db
    ensures db.Valid()
    ensures db.tags == old(db.tags) && db.datasets == old(db.datasets) && db.versions == old(db.versions)
    ensures !batchIssued ==> db.assets == old(db.assets)
    ensures assets == [] ==>
      !batchIssued && err == Some(RecordsFailed(GoErrors.Wrapf("failed to apply option", RegistrySearch.ErrNoChecksum)))
    ensures assets != [] && listFail.Some? ==> !batchIssued && err == Some(RecordsFailed(listFail.value))
    ensures batchIssued <==>
      (assets != [] && listFail.None? && forall a :: a in old(db.assets) ==> a.checksum !in ChecksumsOf(assets))
    ensures batchIssued ==> match D.CreateBatchOutcome(old(db.assets), assets, createFail)
      case Fail(e) => err == Some(GoErrors.Wrapf("failed creating assets", e)) && db.assets == old(db.assets)
      case Ok(rows) => err.None? && db.assets == rows
    ensures assets != [] ==> |old(ExistingRecords(db, ChecksumsOf(assets)))| <= |assets|
    ensures assets != [] && listFail.None? && !batchIssued ==>
      err == Some(GoErrors.AssetsExists(ExistingChecksums(old(ExistingRecords(db, ChecksumsOf(assets))))))
  {
    var checksums := CollectChecksums(assets);
    if assets != [] {
      ExistingFitsRequest(db, checksums);
    }
    var existing, e := D.ListAssetsRecords(db, [RegistrySearch.WithChecksums(checksums)], listFail);
    assert RegistrySearch.ApplyAll([RegistrySearch.WithChecksums(checksums)], RegistrySearch.DefaultQuery)
      == if checksums == [] then Fail(RegistrySearch.ErrNoChecksum) else Ok(ChecksumQuery(checksums));
    if e.Some? {
      return Some(RecordsFailed(e.value)), false;
    }
    ExistingRecordsFound(db, checksums);
    if |existing| > 0 {
      var existingChecksums := CollectChecksums(existing);
      return Some(GoErrors.AssetsExists(existingChecksums)), false;
    }
    err := D.CreateAssetRecords(db, assets, createFail);
    batchIssued := true;
  }
}
