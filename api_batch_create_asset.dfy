/**
 * internal/api/v1/handlers/batch_create_asset.go: the batch endpoint that creates or re-tags
 * many assets in one request. Every asset is processed on its own; a failure becomes an entry
 * of the response list instead of an error of the batch. The registry calls each asset makes
 * (existence check, presigned PUT URL, the transaction) are given as outcomes per asset.
 */
module ApiBatchCreateAsset {
  import opened Wrappers
  import opened GoStrings
  import GoErrors
  import TagLists
  import RegistryTypes

  /** The sentinel the handler returns for a ready asset: "asset already exists and is ready". */
  const ErrAssetAlreadyReady := GoErrors.Sentinel("api/handlers.ErrAssetAlreadyReady", "asset already exists and is ready")

  datatype AssetRequest = AssetRequest(sha256: string, display: string, tags: seq<nat>)

  datatype BatchRequest = BatchRequest(assets: seq<AssetRequest>, tags: seq<nat>)

  /** `BatchCreateAssetResponse`: the single-asset response plus the error text. */
  datatype BatchResponse = BatchResponse(sha256: string, presignedUrl: string, expiry: string, assetId: nat, error: string)

  /** A stored asset as the existence check returns it. */
  datatype Existing = Existing(id: nat, state: string)

  /**
   * What the registry answers for one asset: the existence check (nil for a new asset), the
   * presigned PUT URL, the insert of a new record (its id, or its failure) and the tag
   * association inside the transaction.
   */
  datatype AssetOutcomes = AssetOutcomes(lookup: Result<Option<Existing>, GoErrors.Error>,
                                         put: Result<string, GoErrors.Error>,
                                         create: Result<nat, GoErrors.Error>,
                                         associate: Option<GoErrors.Error>)

  /** The registry calls one asset makes, in order; an association names the asset and the tags. */
  datatype Step = Lookup | PresignPut | CreateRecord | AssociateTags(assetId: nat, tags: seq<nat>)

  // ---------------------------------------------------------------- mergeTags

  /**
   * `mergeTags`: the global and the per-asset tag ids, each once. The ids are collected in a
   * set and read back in an order the model leaves open, as Go's map iteration does.
   */
  method MergeTags(globalTags: seq<nat>, assetTags: seq<nat>) returns (result: seq<nat>)
    ensures MergeOf(result, globalTags, assetTags)
  {
    var tagSet: set<nat> := {};
    var i := 0;
    while i < |globalTags|
      invariant 0 <= i <= |globalTags|
      invariant tagSet == set k | 0 <= k < i :: globalTags[k]
    {
      tagSet := tagSet + {globalTags[i]};
      i := i + 1;
    }
    var j := 0;
    while j < |assetTags|
      invariant 0 <= j <= |assetTags|
      invariant tagSet == (set k | 0 <= k < |globalTags| :: globalTags[k]) + (set k | 0 <= k < j :: assetTags[k])
    {
      tagSet := tagSet + {assetTags[j]};
      j := j + 1;
    }
    result := [];
    var rest := tagSet;
    while rest != {}
      invariant rest <= tagSet
      invariant TagLists.NoDup(result)
      invariant forall t :: t in result <==> t in tagSet && t !in rest
      decreases |rest|
    {
      var t :| t in rest;
      result := result + [t];
      rest := rest - {t};
    }
    forall t | t in globalTags
      ensures t in tagSet
    {
      var k :| 0 <= k < |globalTags| && globalTags[k] == t;
    }
    forall t | t in assetTags
      ensures t in tagSet
    {
      var k :| 0 <= k < |assetTags| && assetTags[k] == t;
    }
  }

  // ---------------------------------------------------------------- one asset

  const ReadyState: string := RegistryTypes.StatusReady

  /** `fmt.Errorf("checking asset existence: %w", e)`. */
  function LookupFailed(e: GoErrors.Error): GoErrors.Error
  {
    GoErrors.Wrapf("checking asset existence", e)
  }

  /** `fmt.Errorf("generating presigned URL: %w", e)`. */
  function PresignFailed(e: GoErrors.Error): GoErrors.Error
  {
    GoErrors.Wrapf("generating presigned URL", e)
  }

  /** `fmt.Errorf("creating asset record: %w", e)`. */
  function CreateFailed(e: GoErrors.Error): GoErrors.Error
  {
    GoErrors.Wrapf("creating asset record", e)
  }

  /**
   * `processSingleAssetInBatch` with its two branches: an existing asset that is ready is
   * refused; another existing asset is re-tagged and then gets a URL; a new asset gets its URL
   * first and is created and tagged afterwards. `allTags` is what `mergeTags` gave; the second
   * component lists the registry calls made.
   */
  function ProcessSingle(req: AssetRequest, allTags: seq<nat>, o: AssetOutcomes, expiry: string): (Result<BatchResponse, GoErrors.Error>, seq<Step>)
  {
    match o.lookup
    case Fail(e) => (Fail(LookupFailed(e)), [Lookup])
    case Ok(Some(x)) =>
      var tagged := [Lookup, AssociateTags(x.id, allTags)];
      if x.state == ReadyState then (Fail(ErrAssetAlreadyReady), [Lookup])
      else if o.associate.Some? then (Fail(o.associate.value), tagged)
      else if o.put.Fail? then (Fail(PresignFailed(o.put.error)), tagged + [PresignPut])
      else (Ok(BatchResponse(req.sha256, o.put.value, expiry, x.id, "")), tagged + [PresignPut])
    case Ok(None) =>
      if o.put.Fail? then (Fail(PresignFailed(o.put.error)), [Lookup, PresignPut])
      else if o.create.Fail? then (Fail(CreateFailed(o.create.error)), [Lookup, PresignPut, CreateRecord])
      else
        var created := [Lookup, PresignPut, CreateRecord, AssociateTags(o.create.value, allTags)];
        if o.associate.Some? then (Fail(o.associate.value), created)
        else (Ok(BatchResponse(req.sha256, o.put.value, expiry, o.create.value, "")), created)
  }

  /** Whether a trace holds an association, with any asset and tags. */
  predicate Associates(steps: seq<Step>)
  {
    exists i :: 0 <= i < |steps| && steps[i].AssociateTags?
  }

  /**
   * A ready asset is refused with `ErrAssetAlreadyReady` before any tag association; a new
   * asset whose URL cannot be made creates no record; every association uses the merged tags
   * and the id of the asset the response names; a success names the requested SHA256, the PUT
   * URL, and carries no error.
   */
  lemma ProcessSingleProperties(req: AssetRequest, allTags: seq<nat>, o: AssetOutcomes, expiry: string)
    ensures o.lookup.Ok? && o.lookup.value.Some? && o.lookup.value.value.state == ReadyState ==>
      ProcessSingle(req, allTags, o, expiry).0 == Fail(ErrAssetAlreadyReady) && !Associates(ProcessSingle(req, allTags, o, expiry).1)
    ensures o.lookup == Ok(None) && o.put.Fail? ==>
      ProcessSingle(req, allTags, o, expiry).0.Fail? && CreateRecord !in ProcessSingle(req, allTags, o, expiry).1
    ensures o.lookup.Fail? ==> ProcessSingle(req, allTags, o, expiry).1 == [Lookup]
    ensures forall s :: s in ProcessSingle(req, allTags, o, expiry).1 && s.AssociateTags? ==> s.tags == allTags
    ensures ProcessSingle(req, allTags, o, expiry).0.Ok? ==>
      var r := ProcessSingle(req, allTags, o, expiry).0.value;
      && r.sha256 == req.sha256 && r.error == "" && o.put.Ok? && r.presignedUrl == o.put.value
      && AssociateTags(r.assetId, allTags) in ProcessSingle(req, allTags, o, expiry).1
    ensures ProcessSingle(req, allTags, o, expiry).0.Ok? <==>
      (o.lookup.Ok? && o.put.Ok? && o.associate.None?
       && (o.lookup.value.Some? ==> o.lookup.value.value.state != ReadyState)
       && (o.lookup.value.None? ==> o.create.Ok?))
  {
  }

  /** The entry of the response list for one asset: its response, or its SHA256 and error text. */
  function Entry(req: AssetRequest, allTags: seq<nat>, o: AssetOutcomes, expiry: string): BatchResponse
  {
    match ProcessSingle(req, allTags, o, expiry).0
    case Ok(r) => r
    case Fail(e) => BatchResponse(req.sha256, "", "", 0, GoErrors.Message(e))
  }

  /** `tags` is a merge of `globalTags` and `assetTags`: each id of either list, once. */
  ghost predicate MergeOf(tags: seq<nat>, globalTags: seq<nat>, assetTags: seq<nat>)
  {
    TagLists.NoDup(tags) && forall t :: t in tags <==> t in globalTags || t in assetTags
  }

  /**
   * `createAssets`: one entry per requested asset, in request order, each from that asset
   * alone and the merge of the batch's and its own tags (`merged[i]`, the list `mergeTags`
   * gave it); the batch itself never fails.
   */
  method CreateAssets(req: BatchRequest, outcomes: seq<AssetOutcomes>, expiry: string)
      returns (responses: seq<BatchResponse>, merged: seq<seq<nat>>, err: Option<GoErrors.Error>)
    requires |outcomes| == |req.assets|
    ensures err.None?
    ensures |responses| == |req.assets| && |merged| == |req.assets|
    ensures forall i :: 0 <= i < |responses| ==>
      && MergeOf(merged[i], req.tags, req.assets[i].tags)
      && responses[i] == Entry(req.assets[i], merged[i], outcomes[i], expiry)
    ensures forall i :: 0 <= i < |responses| ==> responses[i].sha256 == req.assets[i].sha256
  {
    var a := new BatchResponse[|req.assets|](_ => BatchResponse("", "", "", 0, ""));
    merged := [];
    var i := 0;
    while i < |req.assets|
      invariant 0 <= i <= |req.assets| && |merged| == i
      invariant forall k :: 0 <= k < i ==>
        && MergeOf(merged[k], req.tags, req.assets[k].tags)
        && a[k] == Entry(req.assets[k], merged[k], outcomes[k], expiry)
    {
      var allTags := MergeTags(req.tags, req.assets[i].tags);
      var (result, _) := ProcessSingle(req.assets[i], allTags, outcomes[i], expiry);
      if result.Fail? {
        a[i] := BatchResponse(req.assets[i].sha256, "", "", 0, GoErrors.Message(result.error));
      } else {
        a[i] := result.value;
      }
      merged := merged + [allTags];
      i := i + 1;
    }
    responses := a[..];
    forall k | 0 <= k < |responses|
      ensures responses[k].sha256 == req.assets[k].sha256
    {
      ProcessSingleProperties(req.assets[k], merged[k], outcomes[k], expiry);
    }
    err := None;
  }

  // ---------------------------------------------------------------- counting and status

  predicate Succeeded(r: BatchResponse) { r.error == "" }

  /** The number of entries without an error. */
  function SuccessCount(rs: seq<BatchResponse>): (n: nat)
    ensures n <= |rs|
  {
    if rs == [] then 0 else SuccessCount(rs[..|rs| - 1]) + (if Succeeded(rs[|rs| - 1]) then 1 else 0)
  }

  /** The number of entries with an error. */
  function FailureCount(rs: seq<BatchResponse>): (n: nat)
    ensures n <= |rs|
  {
    if rs == [] then 0 else FailureCount(rs[..|rs| - 1]) + (if Succeeded(rs[|rs| - 1]) then 0 else 1)
  }

  /**
   * Every entry is counted exactly once: successes and failures add up to the total, there are
   * no failures exactly when every entry succeeded, and no successes exactly when every entry
   * failed.
   */
  lemma {:induction false} CountsPartition(rs: seq<BatchResponse>)
    ensures SuccessCount(rs) + FailureCount(rs) == |rs|
    ensures FailureCount(rs) == 0 <==> forall i :: 0 <= i < |rs| ==> Succeeded(rs[i])
    ensures SuccessCount(rs) == 0 <==> forall i :: 0 <= i < |rs| ==> !Succeeded(rs[i])
  {
    if rs != [] {
      var init := rs[..|rs| - 1];
      CountsPartition(init);
      assert forall i :: 0 <= i < |init| ==> init[i] == rs[i];
    }
  }

  /** `countSuccessful`. */
  method CountSuccessful(rs: seq<BatchResponse>) returns (count: nat)
    ensures count == SuccessCount(rs)
  {
    count := 0;
    var i := 0;
    while i < |rs|
      invariant 0 <= i <= |rs|
      invariant count == SuccessCount(rs[..i])
    {
      assert rs[..i + 1][..i] == rs[..i];
      if rs[i].error == "" {
        count := count + 1;
      }
      i := i + 1;
    }
    assert rs[..i] == rs;
  }

  /** `countFailed`. */
  method CountFailed(rs: seq<BatchResponse>) returns (count: nat)
    ensures count == FailureCount(rs)
  {
    count := 0;
    var i := 0;
    while i < |rs|
      invariant 0 <= i <= |rs|
      invariant count == FailureCount(rs[..i])
    {
      assert rs[..i + 1][..i] == rs[..i];
      if rs[i].error != "" {
        count := count + 1;
      }
      i := i + 1;
    }
    assert rs[..i] == rs;
  }

  /** The status line of a batch from its counts. */
  function BatchStatus(total: nat, successful: nat, failed: nat): (int, string)
  {
    if failed == 0 then (201, "All " + Itoa(total) + " assets created successfully")
    else if successful == 0 then (400, "All " + Itoa(total) + " assets failed to create")
    else (207, "Created " + Itoa(successful) + " assets, " + Itoa(failed) + " failed")
  }

  /**
   * `determineBatchStatus`: both counters in one loop, then 201 when nothing failed (an empty
   * batch included), 400 when nothing succeeded, 207 for a mix.
   */
  method DetermineBatchStatus(rs: seq<BatchResponse>) returns (code: int, message: string)
    ensures (code, message) == BatchStatus(|rs|, SuccessCount(rs), FailureCount(rs))
    ensures code == 201 <==> forall i :: 0 <= i < |rs| ==> Succeeded(rs[i])
    ensures code == 400 <==> rs != [] && forall i :: 0 <= i < |rs| ==> !Succeeded(rs[i])
    ensures code == 207 <==> (exists i :: 0 <= i < |rs| && Succeeded(rs[i])) && (exists i :: 0 <= i < |rs| && !Succeeded(rs[i]))
  {
    var successful, failed := 0, 0;
    var i := 0;
    while i < |rs|
      invariant 0 <= i <= |rs|
      invariant successful == SuccessCount(rs[..i]) && failed == FailureCount(rs[..i])
    {
      assert rs[..i + 1][..i] == rs[..i];
      if rs[i].error == "" {
        successful := successful + 1;
      } else {
        failed := failed + 1;
      }
      i := i + 1;
    }
    assert rs[..i] == rs;
    CountsPartition(rs);
    code, message := BatchStatus(|rs|, successful, failed).0, BatchStatus(|rs|, successful, failed).1;
  }

  /** `r` is the entry of `req` for one of the orders `mergeTags` may give the merged tags. */
  ghost predicate EntryOfSomeMerge(r: BatchResponse, req: AssetRequest, globalTags: seq<nat>, o: AssetOutcomes, expiry: string)
  {
    exists tags :: MergeOf(tags, globalTags, req.tags) && r == Entry(req, tags, o, expiry)
  }

  /**
   * `BatchCreateAsset`: a body that does not bind is a 400 with "Invalid request payload";
   * otherwise the entries and the status `determineBatchStatus` gives them.
   */
  method BatchCreateAsset(bound: Option<BatchRequest>, outcomes: seq<AssetOutcomes>, expiry: string)
      returns (code: int, message: string, data: seq<BatchResponse>)
    requires bound.Some? ==> |outcomes| == |bound.value.assets|
    ensures bound.None? ==> code == 400 && message == "Invalid request payload" && data == []
    ensures bound.Some? ==>
      && |data| == |bound.value.assets|
      && (forall i :: 0 <= i < |data| ==> EntryOfSomeMerge(data[i], bound.value.assets[i], bound.value.tags, outcomes[i], expiry))
      && (code, message) == BatchStatus(|data|, SuccessCount(data), FailureCount(data))
  {
    if bound.None? {
      return 400, "Invalid request payload", [];
    }
    var merged, err;
    data, merged, err := CreateAssets(bound.value, outcomes, expiry);
    forall i | 0 <= i < |data|
      ensures EntryOfSomeMerge(data[i], bound.value.assets[i], bound.value.tags, outcomes[i], expiry)
    {
      assert MergeOf(merged[i], bound.value.tags, bound.value.assets[i].tags);
    }
    code, message := DetermineBatchStatus(data);
  }
}
