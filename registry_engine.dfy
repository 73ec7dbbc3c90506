/**
 * pkg/registry/engine.go: building an engine from options, its connection string, the S3 object
 * keys, and the two keyset-paginated listings (tags, and assets under a search filter). The
 * store is `RegistryStore.Database`; what the SDKs report (AWS configuration, opening the
 * database, migrating it, counting and fetching rows) is passed in.
 */
module RegistryEngine {
  import opened Wrappers
  import opened GoStrings
  import GoErrors
  import RegistryTypes
  import RegistryConfig
  import RegistryOptions
  import RegistryStore
  import Pagination
  import ModelOpts
  import ModelHooks

  // ---------------------------------------------------------------- New

  /**
   * `New`: the defaults, then every option in order (the first refusal is returned wrapped in
   * "failed to apply option"), then the S3 client, then the database client and its migration.
   */
  method New(opts: seq<RegistryOptions.EngineOption>, knownZone: string -> bool,
             awsErr: Option<GoErrors.Error>, openErr: Option<GoErrors.Error>,
             migrateErr: Option<GoErrors.Error>)
    returns (engine: RegistryOptions.Engine?, err: Option<GoErrors.Error>)
    ensures match RegistryOptions.ApplyAll(opts, RegistryOptions.DefaultSettings, knownZone)
      case Fail(e) => engine == null && err == Some(GoErrors.Wrapf("failed to apply option", e))
      case Ok(s) =>
        err == ConnectError(awsErr, openErr, migrateErr)
        && (err.Some? ==> engine == null)
        && (err.None? ==> engine != null && fresh(engine) && engine.Fields() == s)
  {
    var e := new RegistryOptions.Engine();
    var i := 0;
    while i < |opts|
      invariant 0 <= i <= |opts|
      invariant fresh(e)
      invariant RegistryOptions.ApplyAll(opts, RegistryOptions.DefaultSettings, knownZone)
        == RegistryOptions.ApplyAll(opts[i..], e.Fields(), knownZone)
    {
      assert opts[i..][0] == opts[i] && opts[i..][1..] == opts[i + 1..];
      RegistryOptions.ApplyAllCons(opts[i..], e.Fields(), knownZone);
      var optErr := e.Apply(opts[i], knownZone);
      if optErr.Some? {
        return null, Some(GoErrors.Wrapf("failed to apply option", optErr.value));
      }
      i := i + 1;
    }
    assert opts[i..] == [];
    if awsErr.Some? {
      return null, Some(GoErrors.Wrapf("aws config", awsErr.value));
    }
    if openErr.Some? {
      return null, openErr;
    }
    if migrateErr.Some? {
      return null, Some(GoErrors.Wrapf("migration failed", migrateErr.value));
    }
    return e, None;
  }

  /** What creating the clients reports: the AWS configuration first, then opening, then migrating. */
  function ConnectError(awsErr: Option<GoErrors.Error>, openErr: Option<GoErrors.Error>,
                        migrateErr: Option<GoErrors.Error>): (err: Option<GoErrors.Error>)
    ensures err.None? <==> awsErr.None? && openErr.None? && migrateErr.None?
    ensures awsErr.Some? ==> err == Some(GoErrors.Wrapf("aws config", awsErr.value))
  {
    if awsErr.Some? then Some(GoErrors.Wrapf("aws config", awsErr.value))
    else if openErr.Some? then openErr
    else if migrateErr.Some? then Some(GoErrors.Wrapf("migration failed", migrateErr.value))
    else None
  }

  // ---------------------------------------------------------------- dsn

  /** `dsn`: host and port from the database endpoint (defaults localhost and 5432), then the rest. */
  function EngineDsn(s: RegistryOptions.Settings): string
  {
    Join(RegistryConfig.DsnFields(RegistryTypes.GetHost(s.database, "localhost"),
                                  RegistryTypes.GetPort(s.database, 5432),
                                  s.databaseUser, s.databasePassword, s.databaseName,
                                  s.databaseSslMode, s.timeZone), " ")
  }

  /**
   * For a "host:port" endpoint and values without spaces, the connection string splits back into
   * its seven fields: that host and port, "sslmode=require" exactly when SSL is on, and the
   * password as given.
   */
  lemma EngineDsnFields(s: RegistryOptions.Settings, host: string, port: int)
    requires s.database == host + ":" + Itoa(port)
    requires ':' !in host && '/' !in host && ' ' !in host
    requires host == [] || (!IsSpace(host[0]) && host[0] != '[')
    requires 1 <= port <= 65535
    requires ' ' !in s.databaseUser && ' ' !in s.databasePassword && ' ' !in s.databaseName
    requires ' ' !in s.timeZone
    ensures var f := Split(EngineDsn(s), ' ');
      f == RegistryConfig.DsnFields(host, port, s.databaseUser, s.databasePassword, s.databaseName,
                                    s.databaseSslMode, s.timeZone)
      && (f[5] == "sslmode=require" <==> s.databaseSslMode)
      && f[3] == "password=" + s.databasePassword
  {
    RegistryTypes.HostPortRoundTrip(host, port, "localhost", 5432);
    RegistryConfig.DsnRoundTrip(host, port, s.databaseUser, s.databasePassword, s.databaseName,
                                s.databaseSslMode, s.timeZone);
  }

  // ---------------------------------------------------------------- object keys

  /** A path element that `path.Clean` leaves alone: non-empty, no '/', not "." or "..". */
  predicate PlainSegment(s: string)
  {
    s != [] && '/' !in s && s != "." && s != ".."
  }

  /** One step of `path.Clean` over the '/'-separated elements, with the kept elements so far. */
  function CleanStep(kept: seq<string>, elem: string, rooted: bool): seq<string>
  {
    if elem == [] || elem == "." then kept
    else if elem == ".." then
      if |kept| > 0 && kept[|kept| - 1] != ".." then kept[..|kept| - 1]
      else if rooted then kept
      else kept + [".."]
    else kept + [elem]
  }

  function CleanElems(elems: seq<string>, rooted: bool): seq<string>
  {
    if elems == [] then [] else CleanStep(CleanElems(elems[..|elems| - 1], rooted), elems[|elems| - 1], rooted)
  }

  /**
   * `path.Clean`: empty and "." elements dropped, ".." removing the element before it (or kept,
   * for a relative path with nothing to remove), "." for an empty result.
   */
  function CleanPath(p: string): string
  {
    if p == [] then "."
    else
      var rooted := p[0] == '/';
      var r := (if rooted then "/" else "") + Join(CleanElems(Split(p, '/'), rooted), "/");
      if r == [] then "." else r
  }

  function NonEmpty(parts: seq<string>): (r: seq<string>)
    ensures forall k :: 0 <= k < |r| ==> r[k] != []
  {
    if parts == [] then []
    else (if parts[0] == [] then [] else [parts[0]]) + NonEmpty(parts[1..])
  }

  /** `path.Join`: the non-empty elements joined by '/' and cleaned; "" when all are empty. */
  function PathJoin(parts: seq<string>): string
  {
    var ne := NonEmpty(parts);
    if ne == [] then "" else CleanPath(Join(ne, "/"))
  }

  lemma {:induction false} CleanElemsPlain(elems: seq<string>, rooted: bool)
    requires forall k :: 0 <= k < |elems| ==> PlainSegment(elems[k])
    ensures CleanElems(elems, rooted) == elems
  {
    if elems != [] {
      CleanElemsPlain(elems[..|elems| - 1], rooted);
      assert elems == elems[..|elems| - 1] + [elems[|elems| - 1]];
    }
  }

  /** Plain elements are joined with single slashes and nothing else. */
  lemma PathJoinPlain(parts: seq<string>)
    requires parts != []
    requires forall k :: 0 <= k < |parts| ==> PlainSegment(parts[k])
    ensures NonEmpty(parts) == parts
    ensures PathJoin(parts) == Join(parts, "/")
  {
    NonEmptyOfNonEmpty(parts);
    CleanPathPlain(parts);
  }

  /** Plain elements joined by '/' are already clean. */
  lemma CleanPathPlain(parts: seq<string>)
    requires parts != []
    requires forall k :: 0 <= k < |parts| ==> PlainSegment(parts[k])
    ensures CleanPath(Join(parts, "/")) == Join(parts, "/")
  {
    var j := Join(parts, "/");
    JoinHead(parts, "/");
    SplitJoin(parts, '/');
    CleanElemsPlain(parts, false);
  }

  lemma {:induction false} NonEmptyOfNonEmpty(parts: seq<string>)
    requires forall k :: 0 <= k < |parts| ==> parts[k] != []
    ensures NonEmpty(parts) == parts
  {
    if parts != [] {
      NonEmptyOfNonEmpty(parts[1..]);
    }
  }

  /** A join starts with its first part. */
  lemma {:induction false} JoinHead(parts: seq<string>, sep: string)
    requires parts != [] && parts[0] != []
    ensures Join(parts, sep) != [] && Join(parts, sep)[0] == parts[0][0]
  {
  }

  const Ingress: string := "ingress"
  const Curated: string := "curated"

  /** `IngressKey`: `path.Join(prefix, "ingress", sha256)`. */
  function IngressKey(prefix: string, sha256: string): string
  {
    PathJoin([prefix, Ingress, sha256])
  }

  /** `CuratedKey`: `path.Join(prefix, "curated", sha256)`. */
  function CuratedKey(prefix: string, sha256: string): string
  {
    PathJoin([prefix, Curated, sha256])
  }

  /** `path.Join(prefix, word, sha)` for plain elements and a prefix that is plain or empty. */
  lemma {:induction false} KeyOf(prefix: string, word: string, sha256: string)
    requires PlainSegment(word) && PlainSegment(sha256)
    requires prefix == [] || PlainSegment(prefix)
    ensures PathJoin([prefix, word, sha256]) == if prefix == [] then word + "/" + sha256 else prefix + "/" + word + "/" + sha256
  {
    assert [word, sha256][1..] == [sha256];
    assert Join([sha256], "/") == sha256;
    assert Join([word, sha256], "/") == word + "/" + sha256;
    assert [prefix, word, sha256][1..] == [word, sha256];
    if prefix == [] {
      assert NonEmpty([prefix, word, sha256]) == NonEmpty([word, sha256]);
      PathJoinPlain([word, sha256]);
    } else {
      PathJoinPlain([prefix, word, sha256]);
      assert Join([prefix, word, sha256], "/") == prefix + "/" + Join([word, sha256], "/");
    }
  }

  /**
   * With no prefix the keys are "ingress/<sha>" and "curated/<sha>"; with a one-element prefix
   * they are "<prefix>/ingress/<sha>" and "<prefix>/curated/<sha>". Either way the two differ.
   */
  lemma KeyShapes(prefix: string, sha256: string)
    requires PlainSegment(sha256)
    requires prefix == [] || PlainSegment(prefix)
    ensures prefix == [] ==> (IngressKey(prefix, sha256) == Ingress + "/" + sha256
      && CuratedKey(prefix, sha256) == Curated + "/" + sha256)
    ensures prefix != [] ==> (IngressKey(prefix, sha256) == prefix + "/" + Ingress + "/" + sha256
      && CuratedKey(prefix, sha256) == prefix + "/" + Curated + "/" + sha256)
    ensures IngressKey(prefix, sha256) != CuratedKey(prefix, sha256)
  {
    assert PlainSegment(Ingress) && PlainSegment(Curated);
    KeyOf(prefix, Ingress, sha256);
    KeyOf(prefix, Curated, sha256);
    var n := if prefix == [] then 0 else |prefix| + 1;
    assert IngressKey(prefix, sha256)[n] == 'i';
    assert CuratedKey(prefix, sha256)[n] == 'c';
  }

  // ---------------------------------------------------------------- ListTags

  const DefaultTagLimit: nat := 50

  /** The limit `ListTags` uses: a non-positive request means 50. */
  function TagLimit(limit: int): (r: nat)
    ensures r >= 1
    ensures limit > 0 ==> r == limit
  {
    if limit <= 0 then DefaultTagLimit else limit
  }

  /** The rows `ListTags` queries: `WHERE id > cursor` only for a positive cursor. */
  function TagsAfter(tags: seq<RegistryStore.TagRow>, cursor: nat): seq<RegistryStore.TagRow>
  {
    if cursor > 0 then Pagination.After(tags, RegistryStore.TagId, cursor) else tags
  }

  /**
   * `ListTags`: fetch `limit+1` tags past the cursor in id order, report whether the extra one
   * came back, cut to the limit and take the last id as the next cursor.
   */
  method ListTags(db: RegistryStore.Database, cursor: nat, limit: int, fail: Option<GoErrors.Error>)
    returns (page: Pagination.Page<RegistryStore.TagRow>, err: Option<GoErrors.Error>)
    ensures err == fail
    ensures fail.None? ==> page == Pagination.PageOf(TagsAfter(db.tags, cursor), RegistryStore.TagId, TagLimit(limit))
  {
    var lim := limit;
    if lim <= 0 {
      lim := DefaultTagLimit;
    }
    var fetchLimit := lim + 1;
    var matching := TagsAfter(db.tags, cursor);
    if fail.Some? {
      return Pagination.Page([], 0, false), fail;
    }
    var fetched := Pagination.Take(matching, fetchLimit);
    page := Pagination.CutPage(fetched, RegistryStore.TagId, lim);
    Pagination.CutFetchIsPage(matching, RegistryStore.TagId, lim, page);
    err := None;
  }

  /**
   * Over a keyed tag table, a page holds at most the limit, in ascending id order, every tag
   * past the cursor; `hasMore` says exactly whether more than the limit matched; and the page
   * is one step of the walk, so following `nextCursor` returns every tag past the cursor once.
   */
  lemma ListTagsProperties(tags: seq<RegistryStore.TagRow>, cursor: nat, limit: int)
    requires RegistryStore.Keyed(tags, RegistryStore.TagId)
    ensures var lim := TagLimit(limit);
      var p := Pagination.PageOf(TagsAfter(tags, cursor), RegistryStore.TagId, lim);
      |p.items| <= lim
      && Pagination.Ascending(p.items, RegistryStore.TagId)
      && (forall t :: t in p.items ==> t in tags && t.id > cursor)
      && (p.hasMore <==> |Pagination.After(tags, RegistryStore.TagId, cursor)| > lim)
      && Pagination.Walk(tags, RegistryStore.TagId, cursor, lim)
         == p.items + (if p.hasMore then Pagination.Walk(tags, RegistryStore.TagId, p.nextCursor, lim) else [])
      && Pagination.Walk(tags, RegistryStore.TagId, cursor, lim) == Pagination.After(tags, RegistryStore.TagId, cursor)
  {
    var lim := TagLimit(limit);
    if cursor == 0 {
      Pagination.ZeroCursorKeepsAll(tags, RegistryStore.TagId);
    }
    assert TagsAfter(tags, cursor) == Pagination.After(tags, RegistryStore.TagId, cursor);
    Pagination.PageRows(tags, RegistryStore.TagId, cursor, lim);
    Pagination.WalkStep(tags, RegistryStore.TagId, cursor, lim);
    Pagination.WalkCovers(tags, RegistryStore.TagId, cursor, lim);
  }

  // ---------------------------------------------------------------- ListAssets

  /**
   * The options after `Normalize` and then `Validate`'s defaulting: MIME type normalised, tag
   * lists cleaned, limit defaulted and capped.
   */
  function Prepared(s: ModelOpts.SearchState): (p: ModelOpts.SearchState)
    ensures 1 <= p.limit <= ModelOpts.MaxLimit
  {
    ModelOpts.SearchState(s.cursor, ModelOpts.ClampLimit(s.limit), ModelHooks.NormalizeName(s.mimeType),
                          s.state, ModelOpts.CleanTags(s.includedTags), ModelOpts.CleanTags(s.excludedTags))
  }

  /** What `Validate` reports once `Normalize` has run. */
  function PreparedError(s: ModelOpts.SearchState): Option<GoErrors.Error>
  {
    var p := Prepared(s);
    ModelOpts.ValidationError(p.mimeType, p.includedTags + p.excludedTags)
  }

  /**
   * The meaning of `buildSearchAssetQuery` for one asset: the MIME type and the state when set,
   * the cursor when positive, every included tag attached, and no excluded tag attached.
   */
  predicate SearchMatches(s: ModelOpts.SearchState, tags: seq<RegistryStore.TagRow>, a: RegistryStore.AssetRow)
  {
    (s.mimeType == [] || a.mimeType == s.mimeType)
    && (s.state == [] || a.state == s.state)
    && (s.cursor == 0 || a.id > s.cursor)
    && (forall n :: n in s.includedTags ==> n in RegistryStore.TagNames(tags, a))
    && (forall n :: n in s.excludedTags ==> n !in RegistryStore.TagNames(tags, a))
  }

  function MatchFn(s: ModelOpts.SearchState, tags: seq<RegistryStore.TagRow>): RegistryStore.AssetRow -> bool
  {
    (a: RegistryStore.AssetRow) => SearchMatches(s, tags, a)
  }

  /** The rows the built query selects, in id order. */
  function SearchRows(s: ModelOpts.SearchState, assets: seq<RegistryStore.AssetRow>,
                      tags: seq<RegistryStore.TagRow>): seq<RegistryStore.AssetRow>
  {
    Pagination.Where(assets, MatchFn(s, tags))
  }

  const InvalidOptions: string := "invalid search options"
  const CountFailed: string := "failed to count assets"
  const FetchFailed: string := "failed to fetch assets"

  /**
   * The outcome of `ListAssets` for the options `s` (the defaults when none are given): a
   * validation error wrapped before any query, then the count's error, then the fetch's, then
   * the page of the matching rows.
   */
  function ListAssetsResult(s: ModelOpts.SearchState, assets: seq<RegistryStore.AssetRow>,
                            tags: seq<RegistryStore.TagRow>, countErr: Option<GoErrors.Error>,
                            fetchErr: Option<GoErrors.Error>): Result<Pagination.Page<RegistryStore.AssetRow>, GoErrors.Error>
  {
    match PreparedError(s)
    case Some(e) => Fail(GoErrors.Wrapf(InvalidOptions, e))
    case None =>
      if countErr.Some? then Fail(GoErrors.Wrapf(CountFailed, countErr.value))
      else if fetchErr.Some? then Fail(GoErrors.Wrapf(FetchFailed, fetchErr.value))
      else
        var p := Prepared(s);
        Ok(Pagination.PageOf(SearchRows(p, assets, tags), RegistryStore.AssetId, p.limit))
  }

  /**
   * `ListAssets`: options default when absent; they are normalised and then validated (the
   * caller's options object is changed in place), and the page is cut from a `limit+1` fetch.
   */
  method ListAssets(cfg: ModelOpts.SearchAssetsOptions?, db: RegistryStore.Database,
                    countErr: Option<GoErrors.Error>, fetchErr: Option<GoErrors.Error>)
    returns (page: Pagination.Page<RegistryStore.AssetRow>, err: Option<GoErrors.Error>)
    modifies cfg
    ensures cfg != null ==> cfg.Snapshot() == Prepared(old(cfg.Snapshot()))
    ensures match ListAssetsResult(if cfg == null then ModelOpts.DefaultSearch else old(cfg.Snapshot()),
                                   db.assets, db.tags, countErr, fetchErr)
      case Fail(e) => err == Some(e)
      case Ok(p) => err.None? && page == p
  {
    var opts := cfg;
    if opts == null {
      opts := new ModelOpts.SearchAssetsOptions();
    }
    assert opts as object != db as object;
    ghost var before := opts.Snapshot();
    opts.Normalize();
    var verr := opts.Validate();
    assert opts.Snapshot() == Prepared(before);
    if verr.Some? {
      return Pagination.Page([], 0, false), Some(GoErrors.Wrapf(InvalidOptions, verr.value));
    }
    if countErr.Some? {
      return Pagination.Page([], 0, false), Some(GoErrors.Wrapf(CountFailed, countErr.value));
    }
    var limit := opts.limit;
    var matching := SearchRows(opts.Snapshot(), db.assets, db.tags);
    if fetchErr.Some? {
      return Pagination.Page([], 0, false), Some(GoErrors.Wrapf(FetchFailed, fetchErr.value));
    }
    var fetched := Pagination.Take(matching, limit + 1);
    page := Pagination.CutPage(fetched, RegistryStore.AssetId, limit);
    Pagination.CutFetchIsPage(matching, RegistryStore.AssetId, limit, page);
    err := None;
  }

  /**
   * Invalid options fail the call whatever the store would have said, so nothing is queried;
   * a returned page holds at most the limit (never above 1000), in id order, only stored assets
   * that match the prepared filter, and `hasMore` says whether more than the limit matched.
   */
  lemma ListAssetsProperties(s: ModelOpts.SearchState, assets: seq<RegistryStore.AssetRow>,
                             tags: seq<RegistryStore.TagRow>, countErr: Option<GoErrors.Error>,
                             fetchErr: Option<GoErrors.Error>, countErr2: Option<GoErrors.Error>,
                             fetchErr2: Option<GoErrors.Error>)
    requires RegistryStore.Keyed(assets, RegistryStore.AssetId)
    ensures PreparedError(s).Some? ==>
      ListAssetsResult(s, assets, tags, countErr, fetchErr) == ListAssetsResult(s, assets, tags, countErr2, fetchErr2)
    ensures var r := ListAssetsResult(s, assets, tags, countErr, fetchErr);
      r.Ok? ==> (|r.value.items| <= Prepared(s).limit <= ModelOpts.MaxLimit
        && Pagination.Ascending(r.value.items, RegistryStore.AssetId)
        && (forall a :: a in r.value.items ==> a in assets && SearchMatches(Prepared(s), tags, a))
        && (r.value.hasMore <==> |SearchRows(Prepared(s), assets, tags)| > Prepared(s).limit))
  {
    var p := Prepared(s);
    var rows := SearchRows(p, assets, tags);
    Pagination.WhereMembers(assets, MatchFn(p, tags));
    Pagination.WhereAscending(assets, RegistryStore.AssetId, MatchFn(p, tags));
    var items := Pagination.Take(rows, p.limit);
    forall a | a in items
      ensures a in rows
    {
      var j :| 0 <= j < |items| && items[j] == a;
      assert rows[j] == a;
    }
    forall i, j | 0 <= i < j < |items|
      ensures items[i].id < items[j].id
    {
      assert items[i] == rows[i] && items[j] == rows[j];
    }
  }

  /** The filter without its cursor condition. */
  function WithoutCursor(s: ModelOpts.SearchState): ModelOpts.SearchState
  {
    s.(cursor := 0)
  }

  /** The cursor condition of the query is the pagination's `id > cursor`. */
  lemma {:induction false} SearchRowsAfter(s: ModelOpts.SearchState, assets: seq<RegistryStore.AssetRow>,
                                           tags: seq<RegistryStore.TagRow>)
    requires s.cursor > 0
    ensures SearchRows(s, assets, tags) == Pagination.After(SearchRows(WithoutCursor(s), assets, tags), RegistryStore.AssetId, s.cursor)
  {
    if assets != [] {
      SearchRowsAfter(s, assets[1..], tags);
      var head := if SearchMatches(WithoutCursor(s), tags, assets[0]) then [assets[0]] else [];
      Pagination.AfterConcat(head, SearchRows(WithoutCursor(s), assets[1..], tags), RegistryStore.AssetId, s.cursor);
    }
  }

  /**
   * A `ListAssets` page is one step of walking the filtered assets by cursor: the walk from the
   * page's cursor is the page followed by the walk from its next cursor, and the whole walk is
   * every matching asset past the cursor, each once and in id order.
   */
  lemma ListAssetsWalk(s: ModelOpts.SearchState, assets: seq<RegistryStore.AssetRow>,
                       tags: seq<RegistryStore.TagRow>)
    requires RegistryStore.Keyed(assets, RegistryStore.AssetId)
    ensures var p := Prepared(s);
      var all := SearchRows(WithoutCursor(p), assets, tags);
      var page := Pagination.PageOf(SearchRows(p, assets, tags), RegistryStore.AssetId, p.limit);
      Pagination.Ascending(all, RegistryStore.AssetId)
      && Pagination.Walk(all, RegistryStore.AssetId, p.cursor, p.limit)
         == page.items + (if page.hasMore then Pagination.Walk(all, RegistryStore.AssetId, page.nextCursor, p.limit) else [])
      && Pagination.Walk(all, RegistryStore.AssetId, p.cursor, p.limit) == Pagination.After(all, RegistryStore.AssetId, p.cursor)
  {
    var p := Prepared(s);
    var all := SearchRows(WithoutCursor(p), assets, tags);
    Pagination.WhereAscending(assets, RegistryStore.AssetId, MatchFn(WithoutCursor(p), tags));
    if p.cursor > 0 {
      SearchRowsAfter(p, assets, tags);
    } else {
      assert WithoutCursor(p) == p;
      Pagination.WhereMembers(assets, MatchFn(p, tags));
      forall i | 0 <= i < |all|
        ensures RegistryStore.AssetId(all[i]) >= 1
      {
        assert all[i] in assets;
      }
      Pagination.ZeroCursorKeepsAll(all, RegistryStore.AssetId);
    }
    Pagination.WalkStep(all, RegistryStore.AssetId, p.cursor, p.limit);
    Pagination.WalkCovers(all, RegistryStore.AssetId, p.cursor, p.limit);
  }
}
