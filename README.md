# Aether asset registry: a Dafny model

Aether keeps a registry of binary assets. An asset is identified by the SHA-256 checksum of its
content and stored in S3-compatible storage under a key derived from that checksum. Its record
lives in PostgreSQL and carries a display name, a MIME type, a size, a state (pending or ready)
and an append-only list of extra metadata. Assets are grouped by tags. Datasets carry numbered
versions. Clients upload and download through presigned URLs.

Around the registry sit:

- a web and an API service with their HTTP handlers, which create, list, tag and look up assets;
- the command-line actions, which talk to the service over HTTP with retries;
- two logging packages and the settings that configure them;
- the `universe` package, a small stream-processing library of stages, operators and terminals;
- a Python script that generates JSON payloads for the batch endpoint.

This project models that core in Dafny and proves properties of the model. Each Dafny module
follows one source file. Several Go packages declare the same names in more than one file, so no
module merges two files.

- Stateful Go code is imperative Dafny:
  - records whose hooks rewrite their fields are classes;
  - configuration objects updated by option closures are classes;
  - the pipeline stage with its status machine is a class;
  - loops that build slices and maps are methods with loop invariants.
- Pure code is datatypes, functions and lemmas: validators, normalisers, endpoint parsing, the
  error classification and the stream operators.
- The PostgreSQL tables are in-memory tables (`RegistryStore.Database`) that keep the unique
  indexes of the GORM records as an invariant.
- Things the code only calls out to are parameters of the operation that uses them:
  - a failure of the database or of S3;
  - the network;
  - the clock;
  - random draws;
  - the terminal's answer;
  - JSON marshalling;
  - terminal colouring.

| module | source file |
|---|---|
| `Wrappers`, `GoStrings`, `GoErrors`, `GoContext`, `GoDuration`, `HexCodec`, `JsonValues`, `Slog` | the parts of Go's standard library the code relies on (strings and strconv on ASCII text, wrapped errors, contexts, `time.Duration`'s `%v` text, `encoding/hex`, JSON values, `log/slog`) |
| `RegistryStore`, `Pagination`, `TagLists` | the registry's tables, keyset pagination, and tag-name list cleaning, shared by the registry files below |
| `RegistryConfig`, `RegistryDatabase`, `RegistryEngine`, `RegistryHooks`, `RegistryOptions`, `RegistryRecords`, `RegistrySearch`, `RegistryTypes` | pkg/registry/config.go, database.go, engine.go, hooks.go, options.go, records.go, search.go, types.go |
| `ModelHooks`, `ModelOpts`, `AssetMetadata` | pkg/registry/models/hooks.go, opts.go, metadata.go |
| `InternalRegistryDatabase` | internal/registry/database.go |
| `WebDataAssets`, `WebDataTags` | internal/web/services/data/assets.go, tags.go |
| `WebAssetList`, `WebAssetsPost`, `WebBatchPostAsset`, `WebTagGetAssets` | internal/web/api/handlers/v1/asset_get_list.go, assets_post.go, batch_post_asset.go, tag_get_assets.go |
| `WebDto` | internal/web/api/dto/response.go |
| `ApiDataAssets`, `ApiAssetList`, `ApiBatchCreateAsset`, `ApiRequest` | internal/api/services/data/assets.go, internal/api/handlers/v1/asset_get_list.go, internal/api/v1/handlers/batch_create_asset.go, internal/api/models/request.go |
| `MiddlewareLogger` | internal/api/middleware/logger.go |
| `ActionsAction`, `ActionsAnalyze`, `ActionsBase`, `ActionsClient`, `ActionsConnector` | internal/actions/action.go, analyze.go (with interactive.go), base.go, client.go, connector.go |
| `LoggingLogging`, `LoggingHelpers`, `LoggingCasual`, `LoggingJson`, `LoggingLog` | internal/logging/logging.go, helpers.go, casual.go, json.go, log.go |
| `Logger` | internal/logger/logger.go |
| `AppSettings` | internal/settings/settings.go |
| `UniverseContext`, `UniverseErrors`, `UniverseOperators`, `UniverseStage`, `UniverseTerminal`, `UniverseTransform` | pkg/universe/topology.go (`OrDone`), errors.go, operators.go, stage.go, terminal.go, transform.go |
| `UtilsHelpers` | internal/utils/helpers.go |
| `AssetsPayload` | scripts/generate_assets_payload.py |

## Model

| member | source | states |
|---|---|---|
| ActionsAction.LoweredMin | internal/actions/action.go:73-82 | the minimum after a maximum is set: lowered to a positive maximum it exceeds, otherwise unchanged |
| ActionsAction.Action.constructor | internal/actions/action.go:38-46 | `NewAction`: a ten-minute context from the background, a minimum of 2 workers and no maximum |
| ActionsAction.Action.SetContext | internal/actions/action.go:49-58 | a nil context is refused and nothing changes; otherwise the old context is cancelled and replaced |
| ActionsAction.Action.SetTimeout | internal/actions/action.go:61-70 | a duration of zero or less is refused with "timeout must be positive, got: " and the duration as `%v` prints it; otherwise the old context is cancelled and replaced by a background context with that timeout |
| GoDuration.DurationStringProperties | internal/actions/action.go:62-64 | the `%v` text of a refused duration: "0s" for zero, a '-' before the magnitude for a negative one, "<n>ns" below a microsecond, "<k>s" for whole seconds and "<k>m0s" for whole minutes |
| GoDuration.ClientBoundsText | internal/actions/client.go:27-30 | the client's bounds print as "1s" and "24h0m0s", the text its range error carries |
| ActionsAction.Action.SetMaxParallelism | internal/actions/action.go:73-82 | a value below -1 is refused; otherwise it is stored and the minimum lowered to a smaller positive maximum, so the minimum never exceeds a positive maximum |
| ActionsAction.Action.SetMinParallelism | internal/actions/action.go:85-94 | a value of zero or less is refused; otherwise it is stored, lowered to a smaller positive maximum |
| ActionsAction.Action.Workers | internal/actions/action.go:97-127 | one worker for no input; otherwise the CPU tier, capped at the count and a positive maximum, then raised to the minimum; the result is at least the minimum |
| ActionsAction.WorkersFor | internal/actions/action.go:97-127 | the worker count for a positive input count, as a reference definition the method is proved against |
| ActionsAction.MinimumAboveTotal | internal/actions/action.go:97-127 | the minimum wins over the input count: one input still starts the default two workers |
| ActionsAction.AgreesWithRoutines | internal/actions/action.go:97-127 | with no maximum and a minimum of one, `workers` agrees with `CalculateNumOfRoutines` of base.go whenever that is at least one |
| ActionsAnalyze.AskForApproval | internal/actions/interactive.go:10-43 | approved at once with `assumeYes`; otherwise only "y" or "yes", in any case and with any surrounding space, approves; a terminal failure is an error |
| ActionsAnalyze.HandleAnalysisProperties | internal/actions/analyze.go:101-143 | the partition is handed back unchanged on every branch; the run is accepted exactly when the partition succeeded, something was analysed, and nothing failed or the user approved; a refusal names the failure count |
| ActionsAnalyze.NoPromptWithoutMixedResult | internal/actions/analyze.go:107-121 | with nothing failed, or nothing succeeded, the terminal is never consulted |
| ActionsAnalyze.InteractiveAutoApproves | internal/actions/analyze.go:123-131 | `interactive` is passed as `assumeYes`, so interactive runs approve a mixed result without asking and only non-interactive ones ask |
| ActionsBase.NumOfRoutines | internal/actions/base.go:50-74 | the routine count: one for no operations, else the CPU tier, never more than the operations, at least one when there is a CPU |
| ActionsBase.TimeoutOf | internal/actions/base.go:25-41 | the timeout `NewAction` uses: the first one given when positive, else ten minutes |
| ActionsBase.ParentOf | internal/actions/base.go:25-41 | the parent context: the one given, or the background for nil |
| ActionsBase.OnlyFirstTimeoutCounts | internal/actions/base.go:25-41 | timeouts after the first are ignored, and a non-positive first one gives the default |
| ActionsBase.Action.constructor | internal/actions/base.go:25-41 | `NewAction`: a context with the chosen timeout under the given or background parent |
| ActionsBase.Action.Cancel | internal/actions/base.go:44-48 | the context's cancel function is called and nothing else changes |
| ActionsBase.Action.CalculateNumOfRoutines | internal/actions/base.go:50-74 | the tier for the count, lowered to the count; equals `NumOfRoutines` |
| ActionsBase.Action.ParallelSizing | internal/actions/base.go:104-126 | the queue's capacity, or 100 when unbuffered, sizes both the routine count and the error buffer, so routines never outnumber the buffer |
| ActionsClient.ApplyOptionProperties | internal/actions/client.go:26-58 | `WithTimeout` accepts exactly 1 s to 24 h; `WithEndpoint` refuses "" and what the URI parser refuses, wrapping its error; `WithMode` sets only the interactive flag; a valid client stays valid |
| ActionsClient.ApplyAllValid | internal/actions/client.go:60-74 | options applied in order keep a valid client valid, whatever they are |
| ActionsClient.NewClientValid | internal/actions/client.go:60-74 | every client `NewClient` returns has a timeout within bounds and an endpoint the parser accepts |
| ActionsClient.LastModeWins | internal/actions/client.go:52-74 | mode options never fail and the last one decides the mode |
| ActionsClient.Client.constructor | internal/actions/client.go:61-65 | the default client `NewClient` starts from |
| ActionsClient.Client.Apply | internal/actions/client.go:67-71 | one option closure; a refused option leaves the client as it was |
| ActionsClient.NewClient | internal/actions/client.go:60-74 | the defaults, then every option in order; the first refusal is returned wrapped as "failed to apply option" with no client |
| ActionsConnector.ApplyOptionProperties | internal/actions/connector.go:41-108 | an option fails exactly on the arguments its guard names (nil context, non-positive timeout, blank endpoint, negative attempts or back-off); an accepted endpoint is stored trimmed; a valid connector stays valid |
| ActionsConnector.ApplyAllProperties | internal/actions/connector.go:111-129 | the options succeed exactly when none is refused, and then the connector is valid; a refusal reports the first refused option's error |
| ActionsConnector.ApplyOptionErrorIndependent | internal/actions/connector.go:41-108 | a refusal's error depends on the option alone, not on the connector |
| ActionsConnector.TrimTrailingSlashes | internal/actions/connector.go:150 | `strings.TrimRight(path, "/")`: a prefix of the input with every trailing '/' removed |
| ActionsConnector.BuildUrl | internal/actions/connector.go:132-153 | the parsed base rendered with its path replaced by the joined path, or the parse error wrapped as "invalid endpoint" |
| ActionsConnector.DefaultBase | internal/actions/connector.go:133-140 | the default endpoint gets "http://" in front |
| ActionsConnector.WithSchemeHasScheme | internal/actions/connector.go:138-140 | whatever the base, the text handed to `url.Parse` names a scheme |
| ActionsConnector.BaseOfProperties | internal/actions/connector.go:133-140 | a blank endpoint gives "http://localhost:8080", one with "://" is used trimmed, any other gets "http://" in front |
| ActionsConnector.JoinPathProperties | internal/actions/connector.go:147-150 | the base path without trailing slashes, then the request path with exactly one '/' at the joint; a path with or without its leading '/' joins the same |
| ActionsConnector.ShouldRetry | internal/actions/connector.go:208-218 | never once the attempts are used up; otherwise an error is retried when transient and a response when its status is 500 or more |
| ActionsConnector.RunCounts | internal/actions/connector.go:220-266 | no request beyond `maxAttempts` is sent, at most one wait follows each request, and none follows the last allowed attempt |
| ActionsConnector.RunWaits | internal/actions/connector.go:226-262 | each wait is twice the one before, starting from the configured back-off |
| ActionsConnector.RunOutcome | internal/actions/connector.go:220-266 | every request before the last sent failed or answered 500 or more; a response is returned exactly when the last one succeeded |
| ActionsConnector.RunEnds | internal/actions/connector.go:220-266 | a run returns a response or an error, never both, and never neither once an attempt was allowed |
| ActionsConnector.RetryProperties | internal/actions/connector.go:220-266 | at most `maxAttempts` requests; the k-th wait is `backoff * 2^k`; the response returned is the first below 500; exactly one of response and error unless no attempt is allowed |
| ActionsConnector.PrepareBody | internal/actions/connector.go:269-291 | nil, a reader, a string and bytes pass through with the content type as given; anything else is marshalled to JSON, defaulting the type to "application/json"; a marshal failure is wrapped |
| ActionsConnector.Connector.constructor | internal/actions/connector.go:113-119 | the defaults `NewConnector` starts from |
| ActionsConnector.Connector.Apply | internal/actions/connector.go:122-126 | one option closure; a refused option leaves the connector as it was |
| ActionsConnector.Connector.DoRequestWithRetry | internal/actions/connector.go:220-266 | attempts 1 to `retryAttempts`, each checking the context, returning a response below 500 at once, and waiting out a retry with a doubling back-off; its result, requests and waits are those of the retry run |
| ActionsConnector.NewConnector | internal/actions/connector.go:111-129 | the defaults, then every option in order; the first refusal is returned wrapped as "failed to apply option" with no connector |
| ApiAssetList.LastIdCursorProperties | internal/api/handlers/v1/asset_get_list.go:65-69 | a next cursor appears exactly for a non-empty page, whatever the limit; where the web handler's rule gives one the two agree; listing again from the cursor skips the whole ascending page |
| ApiAssetList.NewAssetListGetResponse | internal/api/handlers/v1/asset_get_list.go:44-76 | one item per asset, in order, copying the asset and naming its tags in order; the total is the number of assets; the cursor is the last id of a non-empty page |
| ApiAssetList.ToSearchOptions | internal/api/handlers/v1/asset_get_list.go:103-121 | one search option per supplied field and no other, in the fixed field order, the same list the web handler builds |
| ApiAssetList.ListAssetsErrorReply | internal/api/handlers/v1/asset_get_list.go:123-134 | as written: a registry validation error is answered 400, every other error 500 |
| ApiAssetList.RefusedSearchErrors | internal/api/handlers/v1/asset_get_list.go:78-101 | a refused search fails with one of the three refusal errors, and only an unacceptable payload is refused |
| ApiAssetList.BlankMimeTypeAnsweredAsInternal | internal/api/handlers/v1/asset_get_list.go:123-134 | a MIME type of one space passes binding but normalises to nothing; the refusal is not a validation error, so the client's mistake is answered 500 |
| ApiAssetList.ListAssetsErrorReplyIntended | internal/api/handlers/v1/asset_get_list.go:123-134 | the intended reply: a refused search is a 400 like a validation error; every other error stays 500 |
| ApiAssetList.RefusedSearchIsBadRequest | internal/api/handlers/v1/asset_get_list.go:123-134 | with the intended reply every refused search is answered 400 with the refusal's text |
| ApiBatchCreateAsset.MergeTags | internal/api/v1/handlers/batch_create_asset.go:174-191 | the global and per-asset tag ids, each exactly once, in an order the model leaves open as Go's map iteration does |
| ApiBatchCreateAsset.ProcessSingleProperties | internal/api/v1/handlers/batch_create_asset.go:75-171 | a ready asset is refused with `ErrAssetAlreadyReady` before any tag association; a new asset whose URL cannot be made creates no record; associations use the merged tags and the named asset's id; a success carries the SHA256 and PUT URL and no error |
| ApiBatchCreateAsset.CreateAssets | internal/api/v1/handlers/batch_create_asset.go:53-72 | one entry per requested asset in request order, each from that asset and its merged tags alone; the batch itself never fails |
| ApiBatchCreateAsset.CountsPartition | internal/api/v1/handlers/batch_create_asset.go:193-233 | successes and failures add up to the total; no failures exactly when every entry succeeded, no successes exactly when every entry failed |
| ApiBatchCreateAsset.CountSuccessful | internal/api/v1/handlers/batch_create_asset.go:215-223 | the loop's count equals the number of entries without an error |
| ApiBatchCreateAsset.CountFailed | internal/api/v1/handlers/batch_create_asset.go:225-233 | the loop's count equals the number of entries with an error |
| ApiBatchCreateAsset.DetermineBatchStatus | internal/api/v1/handlers/batch_create_asset.go:193-213 | 201 when nothing failed (an empty batch included), 400 when nothing succeeded, 207 for a mix, with the matching message |
| ApiBatchCreateAsset.BatchCreateAsset | internal/api/v1/handlers/batch_create_asset.go:16-50 | a body that does not bind is a 400 "Invalid request payload"; otherwise the entries and the status `determineBatchStatus` gives them |
| ApiDataAssets.ValidateAllTagsFound | internal/api/services/data/assets.go:82-102 | nil exactly when as many tags came back as names were asked for; otherwise `ErrTagNotFound` listing the unmatched names in request order |
| ApiDataAssets.RawLookupMatchesNormalized | internal/api/services/data/assets.go:105-121 | the lookup by the names as given returns what a lookup by the normalised names returns, so the validation compares like with like |
| ApiDataAssets.HandleCreateAssetTags | internal/api/services/data/assets.go:105-136 | nothing and no lookup for an empty list; otherwise the names are looked up and checked against the normalised names, and a missing tag fails the step before anything is attached |
| ApiDataAssets.TagStepErrorCases | internal/api/services/data/assets.go:105-136 | over stored tags with unique names, an association happens only when every normalised name has a stored tag, and a name with none fails the step |
| ApiDataAssets.TagNewAsset | internal/api/services/data/assets.go:44-47 | the tag half of the transaction: a tag failure rolls the asset table back |
| ApiDataAssets.TaggedRowCommitted | internal/api/services/data/assets.go:44-47 | after a successful tag step the new asset is the last row with exactly the ids of the tags found for the normalised names, and the rows before it are untouched |
| ApiDataAssets.ExistingChecksumReported | internal/api/services/data/assets.go:53-63 | a stored checksum, everything else in order, is reported as `ErrAssetAlreadyExists` |
| ApiDataAssets.CreateTransaction | internal/api/services/data/assets.go:36-51 | the transaction closure: the create, then the tags; the asset table changes only when both succeed |
| ApiDataAssets.CreateAsset | internal/api/services/data/assets.go:28-79 | a failed transaction leaves the asset table as it was and reports a unique violation as "already exists"; the upload URL is requested only after the commit |
| ApiDataAssets.GetAsset | internal/api/services/data/assets.go:138-151 | record-not-found becomes `ErrAssetNotFound` naming the checksum; any other failure is wrapped as "failed to get asset" |
| ApiDataAssets.GetAssetPresignedUrlCases | internal/api/services/data/assets.go:207-227 | over unique checksums: a ready asset is refused with `ErrAssetIsReady`, a missing one with `ErrAssetNotFound`, any other gets the URL |
| ApiRequest.CreateDataRequest.constructor | internal/api/models/request.go:10-13 | a request holding the checksum as given |
| ApiRequest.CreateDataRequest.Normalize | internal/api/models/request.go:16-19 | stores the trimmed, lower-cased checksum and returns its SHA256 check |
| ApiRequest.NormalFormIsTrimmed | internal/api/models/request.go:16-19 | the normal form has nothing left to trim or lower-case |
| ApiRequest.NormalizeIdempotent | internal/api/models/request.go:16-19 | a second `Normalize` changes nothing and returns the same check |
| ApiRequest.NormalizedIsLowerHex | internal/api/models/request.go:16-19 | a normalised request that passes holds 64 lower-case hex digits |
| AppSettings.ValidateLogLevel | internal/settings/settings.go:98-113 | no error exactly when the lower-cased name is debug, info, warn, warning or error; otherwise the error quoting the name as given |
| AppSettings.ValidateIgnoresCase | internal/settings/settings.go:98-113 | a name and its lower-case form are accepted alike |
| AppSettings.AcceptedLevelsAgree | internal/settings/settings.go:98-113 | every accepted name means the same level to `parseLevel`, `parseLogLevel` and `LevelFromString`; "err", which `LevelFromString` reads as Error, is refused |
| AppSettings.LoggingOptions | internal/settings/settings.go:68-82 | the configured level, or "info" when it does not validate; production as configured; AddSource always true; the level it passes always validates |
| AppSettings.FallbackKeepsLevel | internal/settings/settings.go:68-82 | the fallback never changes the level the logger runs at, since an invalid name parses as Info anyway |
| AssetMetadata.Validate | pkg/registry/models/metadata.go:14-25 | the first failing guard, in the order MIME present, MIME has '/', size positive; nil when all pass |
| AssetMetadata.ValidateIgnoresExtra | pkg/registry/models/metadata.go:14-25 | the verdict does not depend on Extra |
| AssetsPayload.HexChecksum | scripts/generate_assets_payload.py:13-15 | 64 characters, each a lower-case hex digit |
| AssetsPayload.DisplayLength | scripts/generate_assets_payload.py:20 | the drawn length lies in 10..120 |
| AssetsPayload.RawDisplay | scripts/generate_assets_payload.py:21-22 | the drawn length of characters from letters, digits and space |
| AssetsPayload.Display | scripts/generate_assets_payload.py:18-23 | at most 120 characters of the display alphabet, with no space at either end |
| AssetsPayload.TrimmedWithin | scripts/generate_assets_payload.py:21-23 | stripping keeps only characters of the text, and none of the spaces at either end |
| AssetsPayload.Repeat | scripts/generate_assets_payload.py:46 | `c * n`: n copies of c |
| AssetsPayload.NumberedTags | scripts/generate_assets_payload.py:52 | the comprehension `tag_0` .. `tag_19` has 20 names |
| AssetsPayload.ConfigUpToKeys | scripts/generate_assets_payload.py:57 | every key of the config dictionary is some `key_i` with i below the bound |
| AssetsPayload.ConfigKeyFresh | scripts/generate_assets_payload.py:57 | no earlier pair has the key of pair n, so nothing collides |
| AssetsPayload.ConfigUpToContents | scripts/generate_assets_payload.py:57 | the first n pairs give exactly n entries, `key_i` mapped to `value_i` |
| AssetsPayload.ConfigContents | scripts/generate_assets_payload.py:57 | the config dictionary has exactly the 50 entries `key_i: value_i` |
| AssetsPayload.ExtraEmpty | scripts/generate_assets_payload.py:26-62 | "none" and every unknown size give the empty object, and only those |
| AssetsPayload.ExtraSmall | scripts/generate_assets_payload.py:30-35 | the small extra has keys source, version, tags, with tags ["test", "generated"] |
| AssetsPayload.ExtraMedium | scripts/generate_assets_payload.py:36-47 | the medium extra has keys source, version, tags, metadata, description |
| AssetsPayload.ExtraMediumValues | scripts/generate_assets_payload.py:36-47 | the medium description is 200 'A's and its metadata has the three fixed entries |
| AssetsPayload.ExtraLarge | scripts/generate_assets_payload.py:48-61 | the large extra has 23 tags, a 500-character description, 300-character notes and the 50-entry config |
| AssetsPayload.AssetPayload | scripts/generate_assets_payload.py:65-71 | an object with exactly checksum, display and extra, the extra for the requested size |
| AssetsPayload.BatchPayload | scripts/generate_assets_payload.py:74-76 | `{"assets": [...]}` with one asset payload per draw, none for a negative count |
| AssetsPayload.Run | scripts/generate_assets_payload.py:88-114 | a count `int()` cannot read, or an unknown size, exits with status 1; otherwise the batch is written to `assets_<n>_<size>.json` |
| AssetsPayload.RunDefaults | scripts/generate_assets_payload.py:89-90 | with no arguments the script writes 1000 small assets to assets_1000_small.json |
| InternalRegistryDatabase.Wrapq | internal/registry/database.go:28 | `fmt.Errorf("<verb> %q: %w", key, cause)`: the message quotes the key and the cause stays on the chain |
| InternalRegistryDatabase.ListResultProperties | internal/registry/database.go:177-237 | for accepted options: at most `limit` (1..1000) assets in ascending id order, each matching every filter (checksums, MIME type, state, included and excluded tags, cursor); a short page holds every match |
| InternalRegistryDatabase.ListResultOf | internal/registry/database.go:177-237 | the same properties for any valid query |
| InternalRegistryDatabase.ListResultShape | internal/registry/database.go:225-236 | the page is a prefix of the matching assets in id order, no longer than the limit |
| InternalRegistryDatabase.Engine.constructor | internal/registry/database.go:10-19 | an engine over the given client and stored tables |
| InternalRegistryDatabase.Engine.WithTx | internal/registry/database.go:10-19 | the engine itself without a transaction, otherwise a new engine differing only in its client; the receiver never changes |
| InternalRegistryDatabase.Engine.GetAssetRecord | internal/registry/database.go:21-31 | the asset whose checksum is the normalised argument, or the wrapped not-found error |
| InternalRegistryDatabase.Engine.GetAssetRecordTags | internal/registry/database.go:33-47 | the asset's stored tags, after the asset lookup; a failed lookup is the error |
| InternalRegistryDatabase.Engine.GetTagRecord | internal/registry/database.go:110-120 | the tag whose name is the normalised argument |
| InternalRegistryDatabase.Engine.GetTagRecordById | internal/registry/database.go:136-145 | lookup by primary key, the error naming the id in decimal |
| InternalRegistryDatabase.Engine.GetTagRecordAssets | internal/registry/database.go:122-134 | a window of the assets carrying the named tag, at the given limit and offset |
| InternalRegistryDatabase.Engine.AttachTags | internal/registry/database.go:59-77 | nothing at all for an empty list; otherwise the asset's tag set gains the given tags and the caller's asset is re-read |
| InternalRegistryDatabase.Engine.CreateTagRecord | internal/registry/database.go:99-108 | inserts a tag with the name as given; a stored name is refused by the unique index, wrapped as "create tag <name>" |
| InternalRegistryDatabase.Engine.DetachTags | internal/registry/database.go:79-97 | nothing at all for an empty list; otherwise the asset's tag set loses exactly the given tags and the asset is re-read |
| InternalRegistryDatabase.Engine.GetTagsByNames | internal/registry/database.go:148-175 | nil without a query when every name normalises to ""; otherwise the stored tags named by the non-blank normalised names |
| InternalRegistryDatabase.Engine.ListAssetsRecords | internal/registry/database.go:177-237 | the options' first refusal, wrapped as `NewSearchAssetsQuery` wraps it; else the database failure; else the query's rows |
| InternalRegistryDatabase.Engine.GetDatasetRecord | internal/registry/database.go:250-259 | corrected lookup: the stored dataset with the given name, or record-not-found |
| InternalRegistryDatabase.Engine.CreateDatasetVersionRecord | internal/registry/database.go:261-282 | fails with the lookup's error when there is no such dataset; otherwise inserts a version linked to that dataset's id |
| InternalRegistryDatabase.Engine.CreateDatasetRecord | internal/registry/database.go:239-247 | inserts a dataset with the name as given; a stored name is refused by the unique index as a unique violation; any refusal is wrapped as "create dataset <name>" and leaves the table unchanged |
| InternalRegistryDatabase.Engine.CreateAssetRecords | internal/registry/database.go:284-291 | GORM's empty-slice refusal for an empty batch, else the store's error, else the multi-row insert of the records as given; any refusal is wrapped as "create assets" and leaves the table unchanged |
| InternalRegistryDatabase.AssetLookupNormalises | internal/registry/database.go:21-31 | looking up a checksum and its normalisation find the same asset, the only one with that checksum |
| InternalRegistryDatabase.AssetLookupSameKey | internal/registry/database.go:21-31 | two keys with the same normal form find the same asset |
| InternalRegistryDatabase.TagLookupNormalises | internal/registry/database.go:110-120 | the same for tag names, which are unique too |
| InternalRegistryDatabase.TagLookupSameKey | internal/registry/database.go:110-120 | two names with the same normal form find the same tag |
| InternalRegistryDatabase.GetDatasetRecordAsWritten | internal/registry/database.go:250-259 | as written a nil `*Dataset` is handed to `First`, which GORM refuses with `ErrInvalidValue`, whatever is stored |
| InternalRegistryDatabase.AsWrittenMissesStoredDataset | internal/registry/database.go:250-282 | a stored dataset that the corrected lookup finds and the lookup as written does not, so every `CreateDatasetVersionRecord` fails |
| Logger.ParseLevel | internal/logger/logger.go:99-110 | debug, warn or warning, and error in any case give their levels; anything else, "info" and "err" included, is Info |
| Logger.ParseLevelAgrees | internal/logger/logger.go:99-110 | `parseLevel` equals log.go's `parseLogLevel` on every input, and equals `LevelFromString` exactly when the lower-cased name is not "err" |
| Logger.WithAttrs | internal/logger/logger.go:85-90 | the wrapped handler gains the attributes, the level is kept, so the same levels are enabled |
| Logger.WithGroup | internal/logger/logger.go:92-97 | the wrapped handler gains the group, the level is kept, so the same levels are enabled |
| Logger.HandleAsWritten | internal/logger/logger.go:33-65 | as written: the message in its level's colour on one line, then only the record's attributes |
| Logger.WithAttrsDroppedAsWritten | internal/logger/logger.go:33-65 | as written, a handler derived with `With` attributes prints exactly what the plain one prints, so contextual attributes never reach the console |
| Logger.Handle | internal/logger/logger.go:33-65 | the intended output: the message line, then the handler's own attributes followed by the record's; identical to the output as written when the handler has none |
| Logger.AttrLinesConcat | internal/logger/logger.go:53-59 | the attribute lines of a concatenation are the lines of each part in turn |
| Logger.WithAttrsShown | internal/logger/logger.go:85-90 | with the intended output, attributes attached with `With` are printed first, each on its line, ahead of the record's own |
| Logger.Init | internal/logger/logger.go:112-142 | production installs the JSON handler, otherwise the colourful handler over a text handler with the requested call-site reporting; both at the parsed level |
| Logger.InitDefaultProperties | internal/logger/logger.go:144-150 | `InitDefault` installs the colourful handler at Info without call sites |
| LoggingCasual.NewCliHandler | internal/logging/casual.go:22-33 | the wrapped handler reports the call site exactly at debug level; the level is kept |
| LoggingCasual.WithAttrs | internal/logging/casual.go:53-59 | the wrapped handler derived, the level kept, so the same levels are enabled |
| LoggingCasual.WithGroup | internal/logging/casual.go:61-67 | the wrapped handler derived, the level kept, so the same levels are enabled |
| LoggingCasual.EncodeRune | internal/logging/casual.go:75 | `string(r)`: the UTF-8 encoding of a rune, one to four bytes, U+FFFD for what is not a scalar value |
| LoggingCasual.CapitalizeAsWritten | internal/logging/casual.go:73-76 | as written: the first byte is taken for a rune and, when lower case, replaced by the UTF-8 encoding of its upper case; the rest of the bytes follow unchanged |
| LoggingCasual.MultiByteFirstCharacterCorrupted | internal/logging/casual.go:73-76 | a message starting with "€" (E2 82 AC) comes out starting C3 82 82 AC: one byte longer and no longer the same text |
| LoggingCasual.CapitalizeFirst | internal/logging/casual.go:73-76 | the intended capitalisation: a lower-case first letter upper-cased, nothing else changed |
| LoggingCasual.CapitalizeFirstKeepsBytes | internal/logging/casual.go:73-76 | the intended capitalisation keeps the UTF-8 length and every byte after the first |
| LoggingCasual.FormatLevelAndMessage | internal/logging/casual.go:69-82 | the level's name and the capitalised message, both coloured by level |
| LoggingCasual.FieldKeys | internal/logging/casual.go:90-94 | the keys of the filled map are exactly the attributes' keys |
| LoggingCasual.FormatFields | internal/logging/casual.go:84-119 | nothing without attributes; one distinct key renders on one line as `{"key": value}`; several render as a newline and an indented object; a marshal failure renders "[ERROR marshaling fields]" |
| LoggingCasual.SingleKeyMeansOneField | internal/logging/casual.go:100-110 | a single distinct key, however often repeated, takes the one-line form |
| LoggingCasual.PrintWithMetadata | internal/logging/casual.go:121-146 | level, time, the call site when known and the message joined by a vertical bar between spaces, time and call site coloured; then the fields, if any |
| LoggingCasual.Handle | internal/logging/casual.go:35-47 | at debug level the metadata line, otherwise the message and fields alone (`printWithoutMetadata`, 148-154), both with the capitalised, coloured message and the fields rendered as `formatFields` renders them; it never fails |
| LoggingHelpers.ColorOf | internal/logging/helpers.go:30-43 | blue for Debug, green for Info, yellow for Warn, red for Error |
| LoggingHelpers.ColorizeString | internal/logging/helpers.go:30-43 | a named level paints the text in its colour; any other level leaves it as it is |
| LoggingHelpers.ColorizeByLevel | internal/logging/helpers.go:14-27 | the level name and the message are painted exactly as `colorizeString` paints each |
| LoggingHelpers.ColorOfAgreesWithLevelColor | internal/logging/helpers.go:30-43 | on the four named levels the colours agree with logging.go's `levelColor` |
| LoggingHelpers.SourceInfo | internal/logging/helpers.go:46-67 | "" exactly when there is no program counter or no file; otherwise a slash-free base name, ':' and the line |
| LoggingJson.NewJsonHandler | internal/logging/json.go:20-31 | no attributes, no groups, the call site always asked for, the level and colour switch as given |
| LoggingJson.WithAttrs | internal/logging/json.go:37-49 | the copied attributes followed by the new ones; every other field the same, so the same levels are enabled |
| LoggingJson.WithGroup | internal/logging/json.go:51-63 | the copied groups followed by the name; every other field the same |
| LoggingJson.BuildFields | internal/logging/json.go:79-103 | the built-in fields, then the handler's attributes, then the record's, each written over what came before |
| LoggingJson.BuiltInFields | internal/logging/json.go:80-89 | the level's name, the time, the call site only when it is known, and the message |
| LoggingJson.SetAttrs | internal/logging/json.go:92-100 | each attribute's value written under its key in order, so the last attribute with a key wins over everything before it |
| LoggingJson.OverlayAppendStep | internal/logging/json.go:92-100 | writing one more attribute of a later group extends the fields by that one key |
| LoggingJson.BuildFieldsKeys | internal/logging/json.go:79-103 | level, time and msg are always present, source when the call site is known; any other key exactly when some attribute has it |
| LoggingJson.BuildFieldsPlain | internal/logging/json.go:79-103 | without attributes the fields are the built-ins: msg and level as the record gives them, source exactly when known |
| LoggingJson.RecordAttrsWin | internal/logging/json.go:98-101 | the last record attribute with a key gives its value, over handler attributes and built-ins, even "msg" |
| LoggingJson.HandlerAttrsBeatBuiltIns | internal/logging/json.go:93-96 | a handler attribute overrides a built-in when no record attribute has its key |
| LoggingJson.FormatOutput | internal/logging/json.go:105-113 | the JSON, coloured by level when the handler colours, then a newline |
| LoggingJson.FormatOutputOneLine | internal/logging/json.go:105-113 | each record is exactly one line when the JSON and the colouring hold no newline |
| LoggingJson.Handle | internal/logging/json.go:65-77 | a marshal error is returned and nothing is written; otherwise the formatted line is written and the write's error returned |
| LoggingLog.ParseLogLevel | internal/logging/log.go:81-94 | debug, info, warn or warning, and error in any case; anything else, "err" included, is Info |
| LoggingLog.ParseLogLevelAgreesWithLevelFromString | internal/logging/log.go:81-94 | agrees with `LevelFromString` on every name but "err", which only `LevelFromString` reads as Error |
| LoggingLog.ParseLogLevelReadsLevelNames | internal/logging/log.go:81-94 | the names slog prints for the four levels read back as those levels |
| LoggingLog.OptionsKeepColour | internal/logging/log.go:67-78 | no option touches the colour switch |
| LoggingLog.LastModeWins | internal/logging/log.go:52-71 | the mode is that of the last mode option, or the starting one when there is none |
| LoggingLog.LastLevelWins | internal/logging/log.go:52-78 | the level is that of the last level option, parsed, or the starting one when there is none |
| LoggingLog.HandlerForProperties | internal/logging/log.go:25-38 | cli mode gets the casual handler, server mode the JSON handler with the colour switch, any other mode the text handler; all at the configured level |
| LoggingLog.Log.constructor | internal/logging/log.go:53-57 | the defaults `NewLog` starts from: base mode, Info, no colour |
| LoggingLog.Log.ApplyOpt | internal/logging/log.go:67-78 | one option closure: `WithMode` sets the mode, `WithLevelString` the parsed level |
| LoggingLog.Log.SetMode | internal/logging/log.go:40-42 | only the mode changes |
| LoggingLog.Log.SetLevel | internal/logging/log.go:44-46 | only the level changes, to the parsed name |
| LoggingLog.Log.EnableColor | internal/logging/log.go:48-50 | only the colour switch changes, to on |
| LoggingLog.Log.Apply | internal/logging/log.go:25-38 | the handler the fields call for |
| LoggingLog.NewLog | internal/logging/log.go:52-64 | the defaults, then every option in order |
| LoggingLogging.LevelFromString | internal/logging/logging.go:99-112 | debug, info, warn or warning, and err or error in any case; anything else is Info |
| LoggingLogging.LevelFromStringCaseInsensitive | internal/logging/logging.go:99-112 | only the lower-case form of the name matters |
| LoggingLogging.LevelFromStringReadsLevelNames | internal/logging/logging.go:99-112 | "DEBUG", "INFO", "WARN" and "ERROR" read back as their levels, and "err" is Error in any case |
| LoggingLogging.Colorize | internal/logging/logging.go:146-148 | the text between the escape sequence selecting the colour and the reset |
| LoggingLogging.NoMInItoa | internal/logging/logging.go:146-148 | the decimal rendering of a colour code holds no 'm', so the escape sequence ends where it should |
| LoggingLogging.UncolorizeColorize | internal/logging/logging.go:146-148 | colouring loses nothing: the code and the text, whatever it holds, read back |
| LoggingLogging.LevelColor | internal/logging/logging.go:150-161 | red from Error up, yellow from Warn, green from Info, blue below |
| LoggingLogging.LevelColorMatchesName | internal/logging/logging.go:150-161 | the colour agrees with the level name slog prints: red for every ERROR level, yellow for WARN, green for INFO, blue for DEBUG, offsets included |
| LoggingLogging.FormatAttr | internal/logging/logging.go:164-191 | the bare key for nil and the empty string; otherwise "key=" then the quoted string, error text or `String()` result, or the `%v` text |
| LoggingLogging.ShownAttrs | internal/logging/logging.go:214-231 | at most one entry per attribute, and none exactly when every attribute is hidden |
| LoggingLogging.LineShape | internal/logging/logging.go:202-237 | every line starts with the coloured message and ends with a newline; it ends in "]\n" exactly when some attribute is shown |
| LoggingLogging.HiddenAttrsIgnored | internal/logging/logging.go:214-231 | attributes with an empty, "level" or "time" key change nothing in the line |
| LoggingLogging.SimpleHandle | internal/logging/logging.go:202-237 | writes exactly the line `Line` describes and returns the write's error |
| LoggingLogging.FormatShownAttrs | internal/logging/logging.go:213-222 | the attributes with a key other than empty, "level" and "time", each formatted and coloured, in record order |
| LoggingLogging.MultiEnabled | internal/logging/logging.go:256-263 | true exactly when some handler is enabled for the level |
| LoggingLogging.EnabledIndicesProperties | internal/logging/logging.go:265-274 | exactly the enabled handlers are listed, each once, in increasing order |
| LoggingLogging.EnabledIndicesPrefix | internal/logging/logging.go:265-274 | the handlers enabled among the first ones come first among all enabled ones |
| LoggingLogging.MultiHandle | internal/logging/logging.go:265-274 | the enabled handlers are asked in order; all are asked when none fails, otherwise the walk stops at the first error, which is returned |
| LoggingLogging.MultiWithAttrs | internal/logging/logging.go:276-282 | every handler given the attributes, in the same order |
| LoggingLogging.MultiWithGroup | internal/logging/logging.go:284-290 | every handler put inside the group, in the same order |
| LoggingLogging.DerivedHandlersKeepLevels | internal/logging/logging.go:276-290 | deriving the handlers with attributes, or inside a group, keeps which of them are enabled |
| MiddlewareLogger.LevelOf | internal/api/middleware/logger.go:46-54 | always Error, Warn or Info |
| MiddlewareLogger.LevelOfPlainWords | internal/api/middleware/logger.go:46-54 | Error exactly when the line holds "ERROR" or "panic"; Warn exactly when it holds "WARN" and neither of those; the bracketed forms add nothing |
| MiddlewareLogger.CleanedNonEmpty | internal/api/middleware/logger.go:35-43 | the message of a non-blank write is never empty and has no white space at either end |
| MiddlewareLogger.CleanedWithoutPrefix | internal/api/middleware/logger.go:35-43 | a line without a Gin prefix is logged as it was, trimmed |
| MiddlewareLogger.Write | internal/api/middleware/logger.go:34-57 | always reports all of `p` written and no error; a blank write logs nothing; any other logs its cleaned text at the heuristic's level |
| MiddlewareLogger.ClientIP | internal/api/middleware/logger.go:78-87 | X-Forwarded-For when set, else X-Real-IP when set, else the remote address |
| MiddlewareLogger.ClientIPProperties | internal/api/middleware/logger.go:78-87 | the result is one of the three sources, empty only when all are; a set header wins whatever the remote address |
| Slog.OverlayLookup | internal/logging/json.go:92-101 | after attributes are written over a map in order, a key is present when it was before or some attribute has it, with the value of the last such attribute |
| Slog.OverlayStep | internal/logging/json.go:92-101 | writing one more attribute is one map update |
| ModelHooks.Invalid | pkg/registry/models/hooks.go:76-78 | `fmt.Errorf("%w: ...", ErrValidation)`: the error is on `ErrValidation`'s chain and reads "validation error: " then the detail |
| ModelHooks.RejectedIsNotValid | pkg/registry/models/hooks.go:25-40 | of the four declared statuses only "rejected" is not valid, and nothing outside pending, ready and deleted is |
| ModelHooks.ValidateName | pkg/registry/models/hooks.go:42-48 | true exactly for a non-empty name of the characters a-z, 0-9, '/', '.', ':', '_' and '-' |
| ModelHooks.NormalizeNameProperties | pkg/registry/models/hooks.go:51-53 | normalising twice is normalising once, a valid name is already normal, and a blank name never normalises to a valid one |
| ModelHooks.PeerNameId | pkg/registry/models/hooks.go:55-60 | the text after the last dash of a generated peer name is the id in decimal and parses back to it |
| ModelHooks.ValidateSHA256 | pkg/registry/models/hooks.go:62-71 | no error exactly when the trimmed hash is 64 hex digits |
| ModelHooks.AssetBeforeSave | pkg/registry/models/hooks.go:74-95 | Display is normalised and refused unless a valid name; then an empty state becomes "pending" and must be valid; then the checksum must pass; the first failure is returned |
| ModelHooks.NeverSaveable | pkg/registry/models/hooks.go:74-95 | an asset in state "rejected", or with a blank Display, can never be saved |
| ModelHooks.AssetBeforeUpdate | pkg/registry/models/hooks.go:97-107 | an empty MIME type is refused first, then a size of zero or less; nothing changes |
| ModelHooks.TagBeforeSave | pkg/registry/models/hooks.go:110-116 | the name is normalised and refused unless valid |
| ModelHooks.DatasetBeforeSave | pkg/registry/models/hooks.go:119-125 | the name is normalised and refused unless valid |
| ModelHooks.DatasetVersionBeforeSave | pkg/registry/models/hooks.go:128-134 | the display is normalised and refused unless a valid name; number, description and dataset are unchanged |
| ModelHooks.DatasetVersionBeforeCreate | pkg/registry/models/hooks.go:137-150 | only a version without a number (0) is numbered, one above the dataset's current highest; an explicit number is kept and nothing is asked |
| ModelHooks.PeerBeforeCreate | pkg/registry/models/hooks.go:165-178 | defaults the type, then normalises the Display and requires a valid name |
| ModelHooks.PeerAfterCreate | pkg/registry/models/hooks.go:181-189 | names an unnamed peer with `GeneratePeerName` and returns the result of storing the name |
| ModelOpts.ClampLimit | pkg/registry/models/opts.go:29-35 | 0 becomes the default limit, anything above 1000 becomes 1000, the rest is kept |
| ModelOpts.CleanTagsProperties | pkg/registry/models/opts.go:62-79 | the cleaned list holds no duplicate and no blank, every entry is normal, and a name is in it exactly when some input tag normalises to it |
| ModelOpts.CleanTagsIdempotent | pkg/registry/models/opts.go:62-79 | cleaning a clean list changes nothing |
| ModelOpts.NormalizeTags | pkg/registry/models/opts.go:62-79 | the loop with a `seen` set computes the clean list |
| ModelOpts.SearchAssetsOptions.constructor | pkg/registry/models/opts.go:16-25 | first page, default limit, no filter |
| ModelOpts.SearchAssetsOptions.Validate | pkg/registry/models/opts.go:28-52 | the limit is defaulted and capped even when an error follows; then a non-empty MIME type must be a valid name, then every included and excluded tag |
| ModelOpts.SearchAssetsOptions.Normalize | pkg/registry/models/opts.go:55-59 | the MIME type is normalised and both tag lists are cleaned; nothing else changes |
| ModelOpts.CheckNames | pkg/registry/models/opts.go:37-49 | the name checks of `Validate` in its order: the MIME type, then each tag |
| ModelOpts.FindInvalid | pkg/registry/models/opts.go:43-49 | the scan stops at the first tag that is not a valid name |
| ModelOpts.FirstInvalid | pkg/registry/models/opts.go:43-49 | the first tag that is not a valid name, if any, and every tag before it is valid |
| ModelOpts.ValidationError | pkg/registry/models/opts.go:37-49 | the error `Validate` reports for a MIME type and the tag lists |
| ModelOpts.BlankTagsNormalizeAway | pkg/registry/models/opts.go:62-79 | a tag list of white space alone normalises to the empty list |
| ModelOpts.NormalizedIsEmpty | pkg/registry/models/opts.go:82-88 | after `Normalize`, `IsEmpty` holds exactly when the cursor is 0, the MIME type normalises to "", the state is "" and every tag normalises to "" |
| ModelOpts.BlankIffCleanEmpty | pkg/registry/models/opts.go:62-79 | a tag list cleans to nothing exactly when every tag normalises to "" |
| Pagination.After | pkg/registry/engine.go:350-352 | `WHERE id > cursor`: the rows above the cursor, order kept |
| Pagination.Take | pkg/registry/engine.go:348 | `LIMIT n`: the first n rows |
| Pagination.AfterIsSuffix | pkg/registry/engine.go:350-354 | over ascending rows, `id > cursor` keeps a suffix |
| Pagination.AfterMembers | pkg/registry/engine.go:350-352 | `WHERE id > cursor` keeps exactly the rows above the cursor |
| Pagination.PageRows | pkg/registry/engine.go:340-369 | a page cut past a cursor holds only stored rows above the cursor, in ascending id order |
| Pagination.TakeFacts | pkg/registry/engine.go:348-354 | a prefix of ascending rows is ascending and holds only rows of the original |
| Pagination.ZeroCursorKeepsAll | pkg/registry/engine.go:350-352 | with ids of at least 1, cursor 0 filters nothing, so no cursor and cursor 0 agree |
| Pagination.AfterRow | pkg/registry/engine.go:363-366 | the cursor taken from row j-1 restarts exactly at row j |
| Pagination.PageSplit | pkg/registry/engine.go:340-369 | a non-empty page followed by everything after its last id is exactly what it was taken from |
| Pagination.WalkCovers | pkg/registry/engine.go:340-369 | walking page by page from a cursor yields every row after it exactly once, in id order |
| Pagination.WalkFromStart | pkg/registry/engine.go:340-369 | from cursor 0 over ids of at least 1 the walk returns the whole table |
| Pagination.CutPage | pkg/registry/engine.go:358-368 | from a `LIMIT limit+1` fetch: more rows exactly when the fetch exceeds the limit, the page cut to the limit, the next cursor the last id or 0 |
| Pagination.WalkStep | pkg/registry/engine.go:340-369 | one listing call's items, followed by the walk from its next cursor when it reports more, are the whole walk from its cursor |
| Pagination.CutFetchIsPage | pkg/registry/engine.go:345-368 | what `CutPage` makes of a `LIMIT limit+1` fetch is the page of everything that matched |
| Pagination.FetchOneMore | pkg/registry/engine.go:345-359 | fetching one row more than the limit tells exactly whether more than `limit` rows match |
| Pagination.LastPage | pkg/registry/engine.go:358-368 | on the last page the next cursor leads to nothing more |
| Pagination.Where | pkg/registry/engine.go:422-460 | a `WHERE` clause: the rows satisfying the condition, order kept |
| Pagination.WhereAscending | pkg/registry/engine.go:422-460 | filtering keeps ascending rows ascending |
| Pagination.WhereAfter | pkg/registry/engine.go:422-460 | the cursor condition and any other condition can be applied in either order |
| Pagination.Skipped | internal/registry/database.go:122-134 | `OFFSET offset` skips none unless the offset is positive, and at most every row |
| Pagination.Window | internal/registry/database.go:129 | `Limit(limit).Offset(offset)`: a contiguous run of rows starting after the skipped ones, at most `limit` long, and running to the end when the limit is negative or reaches it |
| RegistryConfig.GetHost | pkg/registry/config.go:41-53 | never empty: "localhost" for a blank endpoint or a blank first ':'-field, else that trimmed field |
| RegistryConfig.GetPort | pkg/registry/config.go:55-69 | always in 1..65535: 5432 for a blank endpoint or one without ':', else the trimmed second field when it is such a number |
| RegistryConfig.HostPortRoundTrip | pkg/registry/config.go:41-69 | a trimmed "host:port" endpoint gives back that host and that port |
| RegistryConfig.HostDigitsFields | pkg/registry/config.go:41-69 | for "host:digits" the host field is the host and the port is the digits' value when it is in range, else 5432 |
| RegistryConfig.PasswordMatch | pkg/registry/config.go:24-32 | `password=[^ ]*`'s first match: empty, or "password=" followed by no space |
| RegistryConfig.NonSpaceRun | pkg/registry/config.go:30 | the longest space-free prefix: what follows it, if anything, is a space |
| RegistryConfig.DsnStringWithoutPassword | pkg/registry/config.go:24-32 | with no "password=" in the text the empty match makes `ReplaceAll` insert the replacement before every character and at the end |
| RegistryConfig.StorageCFG.constructor | pkg/registry/config.go:93-98 | the four storage fields as given |
| RegistryConfig.StorageCFG.Normalize | pkg/registry/config.go:143-153 | trims endpoint, bucket and prefix and turns a zero TTL into 15 minutes; never fails |
| RegistryConfig.ValidateStorage | pkg/registry/config.go:155-166 | passes exactly for a non-empty bucket and a TTL from one minute to seven days; otherwise the first failing check's message |
| RegistryConfig.DefaultTTLValid | pkg/registry/config.go:143-166 | the default TTL passes validation |
| RegistryConfig.DatabaseCFG.constructor | pkg/registry/config.go:83-90 | the six database fields as given |
| RegistryConfig.DatabaseCFG.Normalize | pkg/registry/config.go:175-190 | trims user, name and zone, a blank zone becoming "UTC"; fails with "invalid timezone" exactly when the zone is unknown; endpoint, password and SSL unchanged |
| RegistryConfig.ZoneError | pkg/registry/config.go:184-187 | no error exactly when `time.LoadLocation` knows the zone; otherwise "invalid timezone: " and the zone |
| RegistryConfig.ValidateDatabase | pkg/registry/config.go:192-209 | passes exactly when user, password and name are non-empty; otherwise the first missing one's message |
| RegistryConfig.EndpointNeverRejected | pkg/registry/config.go:201-206 | the host and port checks can never fire, since `GetHost` is never empty and `GetPort` always in range |
| RegistryConfig.DsnFields | pkg/registry/config.go:211-226 | the seven key=value fields of the connection string |
| RegistryConfig.DsnRoundTrip | pkg/registry/config.go:211-226 | when no value holds a space, splitting the DSN on spaces gives back the seven fields; the sixth is "sslmode=require" exactly when SSL is on, and the real password is in the fourth |
| RegistryConfig.Config.constructor | pkg/registry/config.go:77-80 | the storage and database parts as given |
| RegistryConfig.Config.Normalize | pkg/registry/config.go:131-139 | storage then database normalised; fails exactly when the zone is unknown, with a "database: " prefix |
| RegistryConfig.Config.Validate | pkg/registry/config.go:114-128 | the normalisation's failure, else the storage check's with "storage: ", else the database check's with "database: ", else none |
| RegistryConfig.NewConfig | pkg/registry/config.go:101-111 | a 15-minute TTL, SSL off, zone "UTC", every text empty |
| RegistryDatabase.GetAssetRecord | pkg/registry/database.go:10-20 | a found asset is stored and has the normalised checksum; the lookup fails exactly when the database fails or no asset has that checksum, wrapped in "failed to get asset" |
| RegistryDatabase.GetAssetRecordTags | pkg/registry/database.go:22-36 | the asset lookup's failure is passed on; then the association's failure is wrapped; otherwise the names returned are exactly the asset's stored tag names |
| RegistryDatabase.CreateAssetErrorCases | pkg/registry/database.go:38-63 | a create succeeds exactly for a non-empty or absent extra, a checksum that validates and is not yet stored, and a database that does not fail; a stored checksum is reported as a unique violation |
| RegistryDatabase.CreateFailedKeepsUnique | pkg/registry/database.go:59-61 | wrapping the insert error keeps it recognisable as a unique violation |
| RegistryDatabase.NewAssetRecord | pkg/registry/database.go:38-58 | the record built before the insert: the extra is recorded only when given, an empty one refused; the create hook then sets the normalised checksum and "pending" |
| RegistryDatabase.CreateAssetRecord | pkg/registry/database.go:38-63 | `SetExtra` runs only for a non-nil extra and its refusal stops the create; on success the table gains exactly the new pending row; on failure nothing changes |
| RegistryDatabase.InsertNewAsset | pkg/registry/database.go:59-62 | the insert: one new row carrying the asset's fields, or the insert's refusal wrapped in "failed creating new asset" with the table unchanged |
| RegistryDatabase.UpdateAssetRecord | pkg/registry/database.go:65-77 | the outcome `UpdateOutcome` gives, as written: the table is unchanged on every refusal, and on success the table is the updated one and the caller's asset is re-read from its row |
| RegistryDatabase.UpdateOutcomeProperties | pkg/registry/database.go:65-77 | as written, an update goes through exactly when the checksum and state are set, the id is not 0, the database does not fail, the row exists and no other row holds the checksum. Only that row changes, taking the asset's non-empty fields, the checksum included, and the table keeps its keys and unique checksums. An id of 0 is GORM's missing-WHERE refusal, and a missing row is record-not-found |
| RegistryDatabase.ChecksumOverwrittenAsWritten | pkg/registry/hooks.go:67-70 | as written, a stored row given a different valid checksum that no other row holds ends up holding it: the guard never fires |
| RegistryDatabase.IntendedChecksumFixed | pkg/registry/hooks.go:67-70 | with the guard comparing against the stored row, an update that goes through keeps every row's checksum, and a different checksum for a stored row is refused with "checksum cannot be modified after creation" |
| RegistryDatabase.AttachTags | pkg/registry/database.go:79-97 | an empty list changes nothing and returns no error; otherwise the asset's tag set gains exactly the given tags, or nothing changes when the store fails |
| RegistryDatabase.DetachTags | pkg/registry/database.go:99-117 | an empty list changes nothing and returns no error; otherwise the asset's tag set loses exactly the given tags, or nothing changes when the store fails |
| RegistryDatabase.CreateTagRecord | pkg/registry/database.go:119-128 | succeeds exactly when the normalised name is valid, not yet stored and the store does not fail; then the table gains exactly that tag, else it is unchanged |
| RegistryDatabase.GetTagsByNames | pkg/registry/database.go:168-195 | nil with no query when every name normalises to ""; otherwise the stored tags named by the non-blank normalised names, or the store's failure |
| RegistryDatabase.SameAsConditionalCursor | pkg/registry/database.go:241-246 | over ids of at least 1, filtering `id > cursor` always gives what filtering only when the cursor is positive gives |
| RegistryDatabase.ListResultProperties | pkg/registry/database.go:197-250 | for accepted options: at most `limit` assets, ascending by id, each stored, above the cursor, carrying every included tag and no excluded tag |
| RegistryDatabase.ListAssetsRecords | pkg/registry/database.go:197-250 | an option's refusal wrapped in "failed to apply option" and no rows; else the store's failure; else the filtered page |
| RegistryDatabase.NumberRows | pkg/registry/database.go:271-279 | the version rows seen by the numbering hook, one per stored version, with the same dataset id and number |
| RegistryDatabase.CreateDatasetVersionRecord | pkg/registry/database.go:263-285 | fails when no dataset matches the name; otherwise the new version is linked to that dataset's id, its display normalised and its number one above the dataset's highest, and it is the only row added |
| RegistryDatabase.EmptyNameTakesFirstDataset | pkg/registry/database.go:267-268 | the struct condition drops an empty name, so an empty dataset name matches the first stored dataset |
| RegistryDatabase.CreateDatasetRecord | pkg/registry/database.go:252-261 | the save hook stores the normalised name and refuses an invalid one; the insert then refuses a stored name as a unique violation; a success adds exactly that dataset, and every refusal is wrapped in "failed to create dataset" with the table unchanged |
| RegistryDatabase.CollectedNone | pkg/registry/database.go:289 | the hook error GORM collects over a batch is absent exactly when every record passes its hook |
| RegistryDatabase.CollectedFirst | pkg/registry/database.go:289 | the first record that fails its hook heads the collected error's text, later failures following after "; " |
| RegistryDatabase.HookedInsertable | pkg/registry/hooks.go:48-60 | with every record past its create hook, the batch is insertable exactly when the normalised checksums are neither stored nor repeated |
| RegistryDatabase.CreateBatchOutcomeProperties | pkg/registry/database.go:287-294 | a batch goes in exactly when it is non-empty, the store does not fail, and every normalised checksum is valid, not stored and not repeated (two that differ only in case collide); then the table gains one row per record, in order, with the normalised checksum and MIME type, "pending" and no tags |
| RegistryDatabase.CreateAssetRecords | pkg/registry/database.go:287-294 | the batch's outcome, a refusal wrapped in "failed creating assets"; all the records or none, the other tables untouched |
| RegistryEngine.New | pkg/registry/engine.go:50-75 | starts from the defaults and applies the options in order, the first refusal returned wrapped in "failed to apply option" with no engine; then the client errors in order; on success a new engine holding the options' settings |
| RegistryEngine.ConnectError | pkg/registry/engine.go:92-129 | no error exactly when the AWS configuration, the database opening and the migration all succeed; an AWS failure comes first, wrapped in "aws config" |
| RegistryEngine.EngineDsnFields | pkg/registry/engine.go:77-90 | for a "host:port" database endpoint and values without spaces, the connection string splits back into its seven fields: that host and port, "sslmode=require" exactly when SSL is on, and the real password |
| RegistryEngine.PathJoinPlain | pkg/registry/engine.go:143-150 | `path.Join` of plain elements is those elements joined by single slashes |
| RegistryEngine.CleanPathPlain | pkg/registry/engine.go:143-150 | `path.Clean` leaves plain elements joined by slashes unchanged |
| RegistryEngine.KeyOf | pkg/registry/engine.go:143-150 | `path.Join(prefix, word, sha)` is "word/sha" with an empty prefix and "prefix/word/sha" with a plain one |
| RegistryEngine.KeyShapes | pkg/registry/engine.go:143-150 | the ingress and curated keys are "ingress/<sha>" and "curated/<sha>" under the prefix, if any, and never the same key |
| RegistryEngine.TagLimit | pkg/registry/engine.go:341-343 | a positive limit is kept and any other becomes 50 |
| RegistryEngine.ListTags | pkg/registry/engine.go:340-369 | the store's failure, or the page cut at the limit from the tags past the cursor in id order |
| RegistryEngine.ListTagsProperties | pkg/registry/engine.go:340-369 | at most the limit, in ascending id order, each stored and past the cursor; `hasMore` exactly when more than the limit match; following `nextCursor` returns every tag past the cursor once |
| RegistryEngine.Prepared | pkg/registry/engine.go:373-382 | the options after `Normalize` and `Validate`: the limit always in 1..1000 |
| RegistryEngine.ListAssets | pkg/registry/engine.go:371-420 | absent options become the defaults; given ones are normalised and defaulted in place; then the validation error, the count's, the fetch's, or the page |
| RegistryEngine.ListAssetsProperties | pkg/registry/engine.go:371-460 | invalid options fail whatever the store would answer; a page holds at most the limit (never over 1000), in id order, only stored assets matching the prepared filter; `hasMore` exactly when more than the limit match |
| RegistryEngine.SearchRowsAfter | pkg/registry/engine.go:433-435 | the query's cursor condition is the listing's `id > cursor` |
| RegistryEngine.ListAssetsWalk | pkg/registry/engine.go:371-460 | a page is one step of the cursor walk over the matching assets, and the walk returns every match past the cursor once, in id order |
| RegistryHooks.Invalid | pkg/registry/hooks.go:14-16 | `fmt.Errorf("%w: ...", ErrValidation)`: on `ErrValidation`'s chain, reading "validation error: " then the detail |
| RegistryHooks.ValidateString | pkg/registry/hooks.go:19-22 | `^[a-z0-9/.:_-]+$`: true exactly for a non-empty string of those characters |
| RegistryHooks.NormalizeStringShape | pkg/registry/hooks.go:25-27 | the normalised text is no longer than the input, has no upper-case letter and no white space at either end |
| RegistryHooks.NormalizeStringIdempotent | pkg/registry/hooks.go:25-27 | normalising twice is normalising once |
| RegistryHooks.ValidNameIsNormal | pkg/registry/hooks.go:19-27 | a valid name is left unchanged by normalisation |
| RegistryHooks.PeerNameId | pkg/registry/hooks.go:29-34 | the text after the last dash of a generated peer name is the id in decimal and parses back to it |
| RegistryHooks.PeerNameBaseHasNoSpace | pkg/registry/hooks.go:29-34 | the cleaned base name has no space |
| RegistryHooks.NormalizeKeepsNoSpace | pkg/registry/hooks.go:25-27 | normalising text without spaces adds none |
| RegistryHooks.ValidateSHA256Accepts | pkg/registry/hooks.go:36-45 | passes exactly when the trimmed hash is 64 hex digits of either case |
| RegistryHooks.ValidateSHA256Errors | pkg/registry/hooks.go:36-45 | the length is checked first, with the length in the message; a 64-character hash fails with `hex.DecodeString`'s error for its first non-hex byte |
| RegistryHooks.NormalChecksumIsLowerHex | pkg/registry/hooks.go:25-45 | a normalised checksum that passes is 64 lower-case hex digits |
| RegistryHooks.AssetBeforeCreate | pkg/registry/hooks.go:48-60 | MIME type and checksum normalised, then the checksum check's error; on success the state is "pending", on failure unchanged |
| RegistryHooks.CheckAndMarkPending | pkg/registry/hooks.go:53-59 | the checksum check, then the "pending" state only when it passes |
| RegistryHooks.NormalizeAsset | pkg/registry/hooks.go:49-50 | MIME type and checksum normalised, every other field unchanged |
| RegistryHooks.AssetBeforeUpdate | pkg/registry/hooks.go:62-72 | passes exactly when the state is set and the checksum column is not changed; an empty state is reported first |
| RegistryHooks.TagBeforeSave | pkg/registry/hooks.go:75-81 | the name normalised, then refused exactly when it is not a valid name |
| RegistryHooks.DatasetBeforeSave | pkg/registry/hooks.go:84-90 | the name normalised, then refused exactly when it is not a valid name |
| RegistryHooks.DatasetVersionBeforeSave | pkg/registry/hooks.go:93-99 | the display normalised, then refused exactly when it is not a valid name |
| RegistryHooks.MaxNumber | pkg/registry/hooks.go:104-107 | `COALESCE(MAX(number), 0)` over the dataset's rows: at least each of their numbers, 0 with none, and otherwise one of them |
| RegistryHooks.DatasetVersionBeforeCreate | pkg/registry/hooks.go:102-115 | the query's error with the number unchanged, or the number one above the dataset's highest |
| RegistryHooks.NextVersionNumberFresh | pkg/registry/hooks.go:102-115 | the new number exceeds every number of the same dataset and is 1 for its first version |
| RegistryHooks.PeerBeforeCreate | pkg/registry/hooks.go:118-131 | an empty type becomes "default", the type is normalised and refused exactly when not a valid name |
| RegistryHooks.PeerDefaultType | pkg/registry/hooks.go:120-128 | the default type is normal and valid |
| RegistryHooks.PeerAfterCreate | pkg/registry/hooks.go:134-142 | an unnamed peer gets the generated name and the write-back's result is returned; a named peer is left alone |
| RegistryOptions.ApplyOptionProperties | pkg/registry/options.go:11-94 | the storage endpoint, bucket, database endpoint, user and password options refuse exactly an empty argument; the prefix and name options never fail; each stores its argument trimmed; the zone option fails exactly for an unknown zone; every option writes only its own field |
| RegistryOptions.WhitespaceStoredEmpty | pkg/registry/options.go:11-77 | the emptiness test comes before the trim, so an argument of white space alone is accepted and stores "" |
| RegistryOptions.ApplyAllFirstFailure | pkg/registry/engine.go:58-62 | when every earlier option passes, the first refusing option's error is the result of applying the list |
| RegistryOptions.Engine.constructor | pkg/registry/engine.go:51-55 | database "localhost:5432", name "postgres", zone "UTC", nothing else set |
| RegistryOptions.Engine.Apply | pkg/registry/options.go:11-94 | a refused option leaves the engine as it was; an accepted one leaves it holding the option's result |
| RegistryRecords.DecodeList | pkg/registry/records.go:33-37 | `json.Unmarshal` into a list of maps: one element per element of a stored JSON list, nothing for any other document or for bytes that are not JSON |
| RegistryRecords.EncodeList | pkg/registry/records.go:45-51 | `json.Marshal` of the list: a JSON list of the same length |
| RegistryRecords.DecodeEncodeList | pkg/registry/records.go:33-51 | decoding what was encoded gives the list back |
| RegistryRecords.ExtraMap.constructor | pkg/registry/records.go:28 | the caller's map with the given entries |
| RegistryRecords.Asset.constructor | pkg/registry/records.go:13-26 | an asset holding the given fields |
| RegistryRecords.Asset.SetExtra | pkg/registry/records.go:28-53 | an empty map is refused and nothing changes; otherwise the caller's map gains "date" and the stored list is the old one plus that map; no other field changes |
| RegistryRecords.SetExtraAppends | pkg/registry/records.go:28-53 | after a successful `SetExtra` the stored list reads back as the old list plus exactly the new map |
| RegistryRecords.Tag.constructor | pkg/registry/records.go:55-59 | an unsaved tag with the given name |
| RegistryRecords.DatasetVersion.constructor | pkg/registry/records.go:68-76 | an unsaved version of the dataset, number 0 |
| RegistryStore.NextId | pkg/registry/records.go:13-14 | `gorm.Model`'s auto-increment key: at least 1 and above every stored id |
| RegistryStore.AppendKeyed | pkg/registry/records.go:13-14 | a row inserted with the next id keeps the table's ids ascending and positive |
| RegistryStore.IndexOfId | pkg/registry/database.go:76 | the position of the row with the id, or none exactly when no row has it |
| RegistryStore.First | pkg/registry/database.go:15 | `First` after a `WHERE`: a stored matching row, or record-not-found exactly when none matches |
| RegistryStore.TagsNamedMembers | pkg/registry/database.go:188 | `WHERE name IN names` returns exactly the stored tags with a listed name |
| RegistryStore.TagsNamedFound | pkg/registry/database.go:188 | with unique tag names each requested name that is stored is found, and never more rows than the table holds |
| RegistryStore.TagsNamedAscending | pkg/registry/database.go:188 | over a keyed table the rows come out in ascending id order |
| RegistryStore.Retag | pkg/registry/database.go:79-117 | only the one asset's tag set changes; ids and checksums stay |
| RegistryStore.AttachNames | pkg/registry/database.go:87 | appending stored tags adds exactly their names to the asset's tag names |
| RegistryStore.DetachNames | pkg/registry/database.go:107 | deleting stored tags removes exactly their names, given unique ids and names |
| RegistryStore.SameIdSameRow | pkg/registry/records.go:13-14 | the primary key identifies a row |
| RegistryStore.SameNameSameRow | pkg/registry/records.go:57 | the unique index on tag names identifies a row |
| RegistryStore.Database.constructor | pkg/registry/records.go:13-84 | empty tables satisfy every key and index |
| RegistryStore.Database.AttachTags | pkg/registry/database.go:87 | `Association("Tags").Append`: the store's error, or the asset's tag set gains exactly the given ids; every invariant kept |
| RegistryStore.Database.RestoreAssets | internal/web/services/data/assets.go:36 | a rollback restores the asset table to an earlier valid state and leaves the others |
| RegistryStore.Database.DetachTags | pkg/registry/database.go:107 | `Association("Tags").Delete`: the store's error, or the asset's tag set loses exactly the given ids |
| RegistryStore.Database.InsertAsset | pkg/registry/records.go:15 | the `checksum <> ''` check and the unique index refuse the insert; otherwise one new row with the next id and no tags |
| RegistryStore.Database.InsertAssets | pkg/registry/database.go:289 | one multi-row insert: the store's error, or the outcome `BatchInsert` states; all the rows or none, every key and index kept |
| RegistryStore.Database.InsertTag | pkg/registry/records.go:57 | the unique index on name refuses a stored name as a unique violation; otherwise one new row with the next id |
| RegistryStore.Database.InsertVersion | pkg/registry/database.go:279 | the store's error, or one new version row with the next id |
| RegistryStore.Database.InsertDataset | pkg/registry/records.go:63 | the unique index on name refuses a stored name; otherwise one new row with the next id |
| RegistryStore.Database.UpdateAsset | pkg/registry/database.go:70 | `Updates` with a struct writes only the row at the index, and only its non-empty fields, the checksum included; a checksum another row holds is refused by the unique index and changes nothing |
| RegistryStore.UpdateAssetError | pkg/registry/records.go:15 | an update is refused exactly when the database fails or another row already holds the non-empty checksum, the unique index's violation |
| RegistryStore.Updated | pkg/registry/database.go:70 | a field given as "" keeps its stored value, the checksum too; id and tags always stay |
| RegistryStore.UniqueViolation | pkg/registry/records.go:15 | the duplicate-key error is recognised as a unique violation |
| RegistryStore.InsertAssetError | pkg/registry/records.go:15 | an insert goes through exactly when the store does not fail, the checksum is non-empty and not yet stored; a stored checksum is a unique violation |
| RegistryStore.Stored | pkg/registry/records.go:13-14 | a new row takes the next id and no tags, and keeps the record's checksum, display, MIME type and state |
| RegistryStore.BatchInsertProperties | pkg/registry/database.go:287-294 | a multi-row insert goes in exactly when every checksum is non-empty, not stored and not repeated in the batch; then the table is the old one followed by one row per record, in order, each with its fields, no tags and the next id |
| RegistryStore.BatchInsertRows | pkg/registry/database.go:289 | the rows a successful batch appends: in order, each with its record's fields, no tags and an id above every earlier one |
| RegistryStore.BatchInsertChecksums | pkg/registry/database.go:289 | after a successful batch the stored checksums are exactly the old ones and the batch's |
| RegistryStore.BatchInsertAccepts | pkg/registry/database.go:289 | the batch goes in exactly when its checksums are non-empty, new and distinct |
| RegistryStore.BatchInsertFailKept | pkg/registry/database.go:289 | a refusal partway through the batch is the outcome of the whole statement |
| RegistryStore.AssetByChecksum | pkg/registry/database.go:15 | a stored asset with that checksum, or record-not-found exactly when there is none |
| RegistryStore.TagByName | pkg/registry/database.go:135 | a stored tag with that name, or record-not-found exactly when there is none |
| RegistryStore.TagById | pkg/registry/database.go:160 | a stored tag with that id, or record-not-found exactly when there is none |
| RegistryStore.DatasetWhere | pkg/registry/database.go:267 | a struct condition drops an empty name: the first dataset for "", else one with that name; record-not-found exactly when none qualifies |
| RegistryStore.TagsOf | pkg/registry/database.go:31 | the association's rows are exactly the stored tags whose ids the asset carries |
| RegistryStore.AssetsTagged | pkg/registry/database.go:149 | only stored assets carrying the tag, and at most `limit` of them for a non-negative limit |
| RegistryStore.TagsByNames | pkg/registry/database.go:174-188 | the normalised non-blank names find exactly the stored non-blank tags named by the normalisation of some requested name; nothing remains exactly when every name is blank |
| RegistryStore.IncludedCount | pkg/registry/database.go:214-226 | with duplicate-free included names, `COUNT(*) = len` holds exactly when the asset carries every included tag |
| RegistryStore.AssetByChecksumUnique | pkg/registry/records.go:15 | with unique checksums the asset found is the only one with that checksum |
| RegistryStore.TagByNameUnique | pkg/registry/records.go:57 | with unique names the tag found is the only one with that name |
| RegistrySearch.CleanTagArgs | pkg/registry/search.go:76-91 | a blank tag is refused with "tag cannot be empty or whitespace" |
| RegistrySearch.CleanTagArgsProperties | pkg/registry/search.go:70-122 | refused exactly when some tag normalises to ""; otherwise the list is normal, duplicate-free, no longer than the input, and holds exactly the normalised arguments |
| RegistrySearch.CleanProperties | pkg/registry/search.go:76-91 | the cleaning loop's result is clean, no longer than its input, and holds exactly the non-blank normalised tags |
| RegistrySearch.ApplyOptionProperties | pkg/registry/search.go:31-133 | an option is refused exactly when its argument is unacceptable (a limit outside 1..1000, a blank MIME type, an empty tag list or a blank tag, no checksum), and an accepted one keeps the query valid |
| RegistrySearch.ApplyOptionKeepsValid | pkg/registry/search.go:31-133 | an accepted option keeps the limit in 1..1000, the MIME type normal and the tag lists clean |
| RegistrySearch.TagOptionProperties | pkg/registry/search.go:70-122 | a tag option is accepted exactly on a non-empty list without a blank tag, and yields a clean list |
| RegistrySearch.IncludedTagsApplied | pkg/registry/search.go:70-95 | on a non-empty list, `WithIncludedTags` is refused with the blank-tag error exactly when the argument check fails, and otherwise changes only `IncludedTags`, to the cleaned arguments |
| RegistrySearch.ExcludedTagsApplied | pkg/registry/search.go:97-122 | on a non-empty list, `WithExcludedTags` is refused with the blank-tag error exactly when the argument check fails, and otherwise changes only `ExcludedTags`, to the cleaned arguments |
| RegistrySearch.SearchAssetsQuery.constructor | pkg/registry/search.go:137-142 | cursor 0, limit 150, no filter |
| RegistrySearch.SearchAssetsQuery.Apply | pkg/registry/search.go:145-149 | a refused option leaves the query as it was; an accepted one leaves it holding the option's result |
| RegistrySearch.CheckTags | pkg/registry/search.go:70-122 | the loop with its `seen` map computes the tag options' check and cleaning |
| RegistrySearch.ApplyAllValid | pkg/registry/search.go:135-152 | whatever options are given, a query that comes out is valid |
| RegistrySearch.NewSearchAssetsQuery | pkg/registry/search.go:135-152 | the defaults, then every option in order; the first refusal is returned wrapped in "failed to apply option" with no query |
| RegistrySearch.NewQueryValid | pkg/registry/search.go:135-152 | a returned query has a limit in 1..1000 and clean tag lists |
| RegistrySearch.UnfilteredValid | pkg/registry/search.go:137-142 | a query with a limit in range and no MIME type or tag filter is valid |
| RegistryTypes.BytesToString | pkg/registry/types.go:22-23 | `string(v)` of a byte slice: one character per byte, same length |
| RegistryTypes.StatusCell.constructor | pkg/registry/types.go:13 | a status cell holding the given text |
| RegistryTypes.StatusCell.Scan | pkg/registry/types.go:15-31 | NULL reads as "pending"; text and bytes are copied as they are; any other type fails naming it, leaving the status unchanged |
| RegistryTypes.ScanValueRoundTrip | pkg/registry/types.go:15-35 | scanning back what `Value` wrote gives the same status with no error |
| RegistryTypes.SecretString | pkg/registry/types.go:47-49 | always "REDACTED" |
| RegistryTypes.SecretValue | pkg/registry/types.go:51-53 | the raw text |
| RegistryTypes.SecretHidesValue | pkg/registry/types.go:47-53 | printing never tells two secrets apart, while `Value` always does |
| RegistryTypes.RemoveScheme | pkg/registry/types.go:163-169 | the text after the first "://", or the whole text when there is none |
| RegistryTypes.PortOr | pkg/registry/types.go:111-143 | a parsed port in 1..65535, or the default |
| RegistryTypes.GetHost | pkg/registry/types.go:77-108 | a blank endpoint gives the default; otherwise the host of the scheme-less trimmed text |
| RegistryTypes.HostOfBracketed | pkg/registry/types.go:87-94 | for "[..." the text strictly between '[' and the first ']', or the default without a ']' |
| RegistryTypes.HostOfPlain | pkg/registry/types.go:97-107 | otherwise the part before the last ':' when an integer follows it, else everything |
| RegistryTypes.GetPort | pkg/registry/types.go:111-143 | the default or a port in 1..65535; the default for a blank endpoint; otherwise the port of the scheme-less trimmed text |
| RegistryTypes.PortOf | pkg/registry/types.go:121-142 | the default or a port in 1..65535 |
| RegistryTypes.PortOfMissing | pkg/registry/types.go:121-142 | without a ':' (or, for "[...", without a ']') the default |
| RegistryTypes.GetScheme | pkg/registry/types.go:146-160 | the default without "://"; otherwise the text before it, lower-cased |
| RegistryTypes.PlainEndpoint | pkg/registry/types.go:77-143 | a trimmed endpoint without '/' has no scheme to remove |
| RegistryTypes.PortDigits | pkg/registry/types.go:137 | the decimal text of a port in range parses back to it |
| RegistryTypes.HostPortRoundTrip | pkg/registry/types.go:77-143 | "host:port" gives back the host and the port, for a host with no ':', '/' or leading '[' |
| RegistryTypes.HostDigitsRoundTrip | pkg/registry/types.go:77-143 | likewise for any digit text of the port, leading zeros included |
| RegistryTypes.BracketedRoundTrip | pkg/registry/types.go:87-131 | "[addr]:port" gives back the address and the port; "[addr]" the address and the default |
| RegistryTypes.BracketedDigitsRoundTrip | pkg/registry/types.go:87-131 | likewise for any digit text of the port |
| RegistryTypes.SchemeIgnored | pkg/registry/types.go:84-118 | a leading "scheme://" changes neither host nor port |
| RegistryTypes.SchemeLowered | pkg/registry/types.go:146-160 | the scheme is returned lower-cased |
| RegistryTypes.SchemeHostPort | pkg/registry/types.go:77-169 | for "scheme://host:port", as in "http://db:5432", host, port and lower-cased scheme all come back |
| RegistryTypes.SchemeOnlyHost | pkg/registry/types.go:77-108 | a bare "scheme://" is not blank, so its host is "" rather than the default, and its port the default |
| TagLists.DedupElements | pkg/registry/search.go:85-90 | dropping later copies keeps exactly the input's elements, each once |
| TagLists.DedupOfNoDup | pkg/registry/search.go:85-90 | a duplicate-free list is left as it is |
| TagLists.CountMeansAll | pkg/registry/database.go:214-226 | for duplicate-free names, `COUNT(*) = len(names)` over the names an asset carries holds exactly when it carries every name |
| TagLists.CountWithDuplicate | pkg/registry/database.go:214-226 | with a repeated name the count can never reach the list's length |
| TagLists.CleanListProperties | pkg/registry/models/opts.go:62-79 | the cleaned list is duplicate-free, no longer than the input, and holds exactly the non-blank images of the tags |
| TagLists.CleanListSnoc | pkg/registry/models/opts.go:66-76 | one more tag is appended exactly when its image is non-blank and not yet present |
| TagLists.CleanListIdempotent | pkg/registry/models/opts.go:62-79 | with an idempotent normaliser, cleaning a cleaned list changes nothing |
| TagLists.NoBlankMapped | pkg/registry/search.go:76-91 | when no tag maps to "", dropping blanks drops nothing: every tag's image, in order |
| TagLists.FirstBlankSpec | pkg/registry/search.go:80-83 | every tag before the first blank one is non-blank, and the one at it is blank |
| TagLists.CleanListIsClean | pkg/registry/search.go:76-91 | with an idempotent normaliser the cleaned list is clean: normal, no blank, no duplicate |
| TagLists.CleanOrBlank | pkg/registry/search.go:76-91 | the `seen`-map loop gives up exactly when some tag maps to "", and otherwise returns the cleaned list |
| TagLists.NonBlankMappedEmpty | pkg/registry/database.go:183-185 | nothing survives exactly when every name maps to "" |
| TagLists.MapNonBlank | pkg/registry/database.go:174-181 | the `normalized` loop: each name mapped, blanks dropped, order kept |
| UniverseContext.OrDone | pkg/universe/topology.go:25-48 | what passes through is a prefix of the stream, and the whole stream when the context is never cancelled |
| UniverseErrors.Message | pkg/universe/errors.go:20-33 | the message starts with the quoted stage name and ends with ": " and the cause's message |
| UniverseErrors.NewStageError | pkg/universe/errors.go:35-53 | the accessors `Stage`, `Unwrap` and `Kind` give back exactly the constructor's arguments |
| UniverseErrors.MessageTellsKinds | pkg/universe/errors.go:20-33 | for one stage and cause, two different kinds give different messages whenever at least one of them is a declared kind |
| UniverseErrors.KindTextsDistinct | pkg/universe/errors.go:21-31 | the four declared kinds and the default each have their own words |
| UniverseErrors.UnknownKindsAlike | pkg/universe/errors.go:30-31 | every kind above `StagePanic` renders as `"<stage>" error: <cause>` |
| UniverseOperators.Map | pkg/universe/operators.go:9-29 | one output envelope per input, in order: the function applied to the whole envelope |
| UniverseOperators.FilterMembers | pkg/universe/operators.go:31-51 | an envelope is in the output exactly when it is in the input and passes the predicate |
| UniverseOperators.FilterConcat | pkg/universe/operators.go:38-46 | filtering keeps input order: the filter of a concatenation is the concatenation of the filters |
| UniverseOperators.TapForwardsAndObserves | pkg/universe/operators.go:53-72 | every envelope is forwarded unchanged, and the observer sees each one once, in order |
| UniverseOperators.UntilDoneProperties | pkg/universe/operators.go:80-84 | the identity without cancellation, and a prefix of the stream with it |
| UniverseOperators.Numbers | pkg/universe/tests/operators_test.go:55-66 | the source of 0..n-1 gives n error-free envelopes, holding i at position i |
| UniverseOperators.OddNumbers | pkg/universe/tests/operators_test.go:63-82 | filtering 0..n-1 for odd values keeps n/2 envelopes, and every one is odd |
| UniverseOperators.FilterOddHundred | pkg/universe/tests/operators_test.go:63-82 | the filter test's case: 0..99 gives 50 values, all odd |
| UniverseOperators.TapTwoHundred | pkg/universe/tests/operators_test.go:101-116 | the tap test's case: 200 inputs give 200 observations |
| UniverseStage.MaxConcurrency | pkg/universe/stage.go:17-19 | the ceiling of 1.5 times the CPU count, and so more than the CPU count |
| UniverseStage.ClampConcurrency | pkg/universe/stage.go:85-97 | the stored worker count lies in [1, max]; a count already in range is kept, below it becomes 1, above it becomes max |
| UniverseStage.UpdatedAllProperties | pkg/universe/stage.go:230-240 | after any run of status updates, the status is Aborted exactly when it was Aborted before or some update asked for Aborted; otherwise it is the last one asked for |
| UniverseStage.ValidationOrder | pkg/universe/stage.go:350-361 | validation passes exactly when there is a deadline, a queue and a function; the deadline is checked first, then the queue, then the function |
| UniverseStage.FinalStatus | pkg/universe/stage.go:304-317 | Succeeded exactly when there is neither a processing nor a context error; Aborted exactly when the context has an error; never Pending or Running |
| UniverseStage.Stage.constructor | pkg/universe/stage.go:61-70 | a new stage is Pending with one worker, not durable, no queue, an unbuffered artifacts channel and 100 error slots |
| UniverseStage.Stage.Durable | pkg/universe/stage.go:75-80 | durable is switched on only while Pending; nothing else changes |
| UniverseStage.Stage.Concurrency | pkg/universe/stage.go:85-97 | panics with the "cannot set concurrency" message and changes nothing unless Pending; otherwise stores the clamped count and nothing else |
| UniverseStage.Stage.BufferedArtifacts | pkg/universe/stage.go:101-110 | panics and changes nothing unless Pending; otherwise the buffer is the size, with a negative size read as 0 |
| UniverseStage.Stage.BufferedErrors | pkg/universe/stage.go:115-124 | panics and changes nothing unless Pending; otherwise a new, empty error channel with the size, a negative size read as 0 |
| UniverseStage.Stage.Stream | pkg/universe/stage.go:127-133 | a nil queue panics and changes nothing; otherwise it becomes the input queue |
| UniverseStage.Stage.Populate | pkg/universe/stage.go:137-153 | no items panics with "empty input" and changes nothing; otherwise the queue holds the items |
| UniverseStage.Stage.UpdateStatus | pkg/universe/stage.go:230-240 | the status becomes the one asked for unless it is Aborted, which is kept; nothing else changes |
| UniverseStage.Stage.SendError | pkg/universe/stage.go:245-253 | the error is appended while the buffer has room and dropped when it is full; the send never blocks |
| UniverseStage.Stage.AbortStage | pkg/universe/stage.go:256-262 | the status becomes Aborted, and only the first abort sends an aborted-kind stage error naming the stage |
| UniverseStage.Stage.Close | pkg/universe/stage.go:205-216 | refused with "cannot close - stage not started" while Pending; otherwise succeeds and the channels end up closed exactly once, however often it is called |
| UniverseStage.Stage.Finalize | pkg/universe/stage.go:304-322 | the status is updated to the final status (the context error wins), a context error aborts the stage, and the channels are then closed exactly once; configuration is untouched |
| UniverseStage.Stage.Run | pkg/universe/stage.go:179-201 | a stage that is not Pending is refused with "already started" and left as it was; a stage that fails validation ends Failed with a not-runnable stage error; otherwise it ends in the final status with the channels closed, returning the processing error |
| UniverseStage.RunTwice | pkg/universe/stage.go:182-185 | a stage runs at most once: a second `Run` on a stage that has already run is refused as already started |
| UniverseTerminal.Drain | pkg/universe/terminal.go:5-13 | the error is the context's error, whatever the stream held |
| UniverseTerminal.DrainIgnoresStream | pkg/universe/terminal.go:9-12 | draining two different streams under one context gives the same result |
| UniverseTerminal.Collect | pkg/universe/terminal.go:15-31 | the values collected are those `OrDone` let through, cut to the first `cap` when `cap` is positive; the error is the context's |
| UniverseTerminal.CollectedProperties | pkg/universe/terminal.go:20-28 | what is collected is a prefix of the stream, min(cap, length) long for a positive cap and the whole stream for cap 0 |
| UniverseTerminal.Consume | pkg/universe/terminal.go:33-44 | the first error the consumer returns, in stream order, else the context's error |
| UniverseTerminal.FirstConsumerErrorAt | pkg/universe/terminal.go:38-42 | there is no consumer error exactly when the consumer accepts every envelope; otherwise the error is the one for the earliest refused envelope |
| UniverseTerminal.ErrorFreePrefix | pkg/universe/terminal.go:55-61 | the number of leading envelopes without an error: every one before it has none and the one at it has one |
| UniverseTerminal.Reduce | pkg/universe/terminal.go:47-64 | the left fold of the envelopes before the first one with an error, together with that error, else the context's error |
| UniverseTerminal.Count | pkg/universe/terminal.go:67-81 | the number of envelopes before the first one with an error, together with that error, else the context's error |
| UniverseTerminal.CountIsReduce | pkg/universe/terminal.go:67-81 | counting is reducing with a reducer that adds one per envelope, from 0 |
| UniverseTerminal.CountAll | pkg/universe/terminal.go:67-81 | without cancellation and without error envelopes the count is the stream's length and there is no error |
| UniverseTransform.Map | pkg/universe/transform.go:19-40 | one output envelope per input, in order, whose value and error are the transformer's on the input's value |
| UniverseTransform.MapIgnoresInputErr | pkg/universe/transform.go:28-33 | the errors the input envelopes carry do not affect the output: streams with the same values map alike |
| UniverseTransform.MapConcat | pkg/universe/transform.go:28-35 | mapping keeps order: the map of a concatenation is the concatenation of the maps |
| UniverseTransform.FilterMembers | pkg/universe/transform.go:44-64 | an envelope is kept exactly when it is in the input and its value passes, whatever its error |
| UniverseTransform.FilterConcat | pkg/universe/transform.go:51-58 | filtering keeps input order: the filter of a concatenation is the concatenation of the filters |
| UtilsHelpers.ValidateSHA256 | internal/utils/helpers.go:84-93 | succeeds exactly when the trimmed text is 64 hexadecimal digits |
| UtilsHelpers.Base64Encode | internal/utils/helpers.go:101 | standard Base64 of RFC 4648 section 4: four characters for every three bytes or part of three |
| UtilsHelpers.Base64RoundTrip | internal/utils/helpers.go:101 | decoding the encoding of any bytes gives those bytes back |
| UtilsHelpers.Base64TwoBytePadding | internal/utils/helpers.go:101 | the encoding of 3k+2 bytes ends in exactly one '=' |
| UtilsHelpers.HexToBase64SHA256 | internal/utils/helpers.go:96-102 | succeeds exactly for even-length hexadecimal text; otherwise the error is "invalid hex: " wrapping the decoder's error |
| UtilsHelpers.DigestLength | internal/utils/helpers.go:96-102 | a 64-digit hex digest gives 44 characters ending in exactly one '=' |
| UtilsHelpers.HexBase64RoundTrip | internal/utils/helpers.go:96-102 | Base64-decoding the result and hex-encoding it gives back the input in lower case |
| WebAssetList.TagNamesOf | internal/web/api/handlers/v1/asset_get_list.go:78-81 | the tags' names, one per tag, in the order the tags came |
| WebAssetList.FullPageCursorProperties | internal/web/api/handlers/v1/asset_get_list.go:95-99 | a next cursor appears exactly after a full, non-empty page, so never for limit 0; over a page in ascending id order it is the largest id, and listing from it skips the whole page |
| WebAssetList.CursorSkipsPage | internal/web/api/handlers/v1/asset_get_list.go:97-98 | over a non-empty page in ascending id order, the last id bounds every id and no row of the page lies after it |
| WebAssetList.NewAssetListGetResponseData | internal/web/api/handlers/v1/asset_get_list.go:74-106 | one item per asset, in order, copying every field and naming the asset's tags in order; the total is the number of assets; the next cursor follows the full-page rule |
| WebAssetList.ToSearchOptions | internal/web/api/handlers/v1/asset_get_list.go:108-126 | the closure-built option list equals the list of one option per supplied field, in field order |
| WebAssetList.AddIfSetStep | internal/web/api/handlers/v1/asset_get_list.go:112-116 | one `addIfSet` call adds the option, and only it, exactly when the condition holds, and keeps the kinds in order |
| WebAssetList.SearchOptionsShape | internal/web/api/handlers/v1/asset_get_list.go:118-123 | an option is present exactly when its field is supplied and carries that field; the kinds come in the order cursor, limit, MIME type, state, included tags, excluded tags, each at most once; no checksum option is made |
| WebAssetList.FailureStays | internal/web/api/handlers/v1/asset_get_list.go:112-116 | once the search refuses an option, adding more options changes nothing |
| WebAssetList.ApplySearchOptions | internal/web/api/handlers/v1/asset_get_list.go:108-126 | applying the options in order gives the field-by-field expected search |
| WebAssetList.SearchOptionsQuery | internal/web/api/handlers/v1/asset_get_list.go:108-126 | the search is refused exactly when a supplied limit is above 1000, a supplied MIME type is blank or a supplied tag list holds a blank tag, the limit checked first; otherwise it has the cursor and state as given, the limit as given or 150, the MIME type normalised, the tag filters cleaned and no checksum filter |
| WebAssetsPost.NewAssetPostResponseData | internal/web/api/handlers/v1/asset_post.go:86-99 | the record's id, checksum and state; the URL and its expiry exactly when there is a URL, else an empty URL and no expiry |
| WebAssetsPost.NewAssetBatchResponseData | internal/web/api/handlers/v1/assets_post.go:69-90 | one entry per record, in order, built from the record and the last URL carrying its checksum |
| WebAssetsPost.EntryUrlProperties | internal/web/api/handlers/v1/assets_post.go:75-84 | an entry carries an upload URL exactly when some URL has the record's checksum, and then it is the last such URL; the entry matches the newer endpoint's entry field for field |
| WebAssetsPost.BatchRequestToRecords | internal/web/api/handlers/v1/assets_post.go:92-109 | refused with the empty-extra error and no records exactly when some asset has no extra; otherwise one fresh, distinct record per asset, in order, built as the newer endpoint builds it |
| WebAssetsPost.AbsentExtraRefused | internal/web/api/handlers/v1/assets_post.go:101-103 | a single asset sent without extra metadata is enough for the conversion as written to fail |
| WebBatchPostAsset.NewBatchAsset | internal/web/api/handlers/v1/batch_post_asset.go:76-89 | the record's id, checksum and state; the URL and its expiry exactly when there is a URL, else an empty URL and no expiry |
| WebBatchPostAsset.LastUrlForFound | internal/web/api/handlers/v1/batch_post_asset.go:97-100 | a URL that is found carries the checksum, and no later URL does |
| WebBatchPostAsset.LastUrlForMissing | internal/web/api/handlers/v1/batch_post_asset.go:97-100 | when no URL is found, no URL carries the checksum |
| WebBatchPostAsset.LastUrlForProperties | internal/web/api/handlers/v1/batch_post_asset.go:97-106 | a checksum finds a URL exactly when some URL carries it, and then the last URL carrying it wins |
| WebBatchPostAsset.UrlMap | internal/web/api/handlers/v1/batch_post_asset.go:97-100 | the map holds a checksum exactly when some URL carries it, mapped to the last such URL |
| WebBatchPostAsset.NewCreateAssetsBatchResponseData | internal/web/api/handlers/v1/batch_post_asset.go:91-112 | one entry per record, in order, each the `NewBatchAsset` of the record and the last URL carrying its checksum |
| WebBatchPostAsset.EntryUrlProperties | internal/web/api/handlers/v1/batch_post_asset.go:103-107 | an entry carries an ingress URL exactly when some URL has the record's checksum, and then it is the last such URL |
| WebBatchPostAsset.NewRecord | internal/web/api/handlers/v1/batch_post_asset.go:118-121 | a fresh record holding the payload's checksum and display and nothing else |
| WebBatchPostAsset.AssetsBatchPayloadToRecords | internal/web/api/handlers/v1/batch_post_asset.go:114-133 | one fresh, distinct record per payload asset, in order, with its checksum and display, and its extra stored only when the map is non-empty; the conversion never fails |
| WebDataAssets.Detailed | internal/web/services/data/assets.go:63 | the error is the sentinel for `errors.Is`, and its message is the sentinel's, a colon and the detail |
| WebDataAssets.FindMissingTags | internal/web/services/data/assets.go:123-135 | the `found` set holds exactly the found tags' names, and `missing` the requested names not in it, in request order |
| WebDataAssets.ValidateAllTagsFound | internal/web/services/data/assets.go:118-138 | nil exactly when as many tags came back as names were asked for; otherwise `ErrTagNotFound` listing the missing names in request order |
| WebDataAssets.MissingMembers | internal/web/services/data/assets.go:130-135 | a name is reported missing exactly when it was requested and no found tag carries it |
| WebDataAssets.MissingConcat | internal/web/services/data/assets.go:130-135 | the missing names keep request order: the list splits over concatenation |
| WebDataAssets.DistinctNamesCount | internal/web/services/data/assets.go:119 | tags with pairwise different names carry as many names as there are tags |
| WebDataAssets.DuplicateNamesFail | internal/web/services/data/assets.go:118-138 | a name asked for twice fails the count check even when every name exists, and the error then lists no missing name |
| WebDataAssets.TagsNamedDistinct | pkg/registry/database.go:168-195 | the tags the name lookup returns have pairwise different names |
| WebDataAssets.CountMatchMeansFound | internal/web/services/data/assets.go:119-121 | over stored tags with unique names, the count check passes only when every name was found |
| WebDataAssets.NormalizedTwice | internal/web/services/data/assets.go:91-96 | normalising the names a second time changes nothing, and no normalised name is blank |
| WebDataAssets.AttachTagsErrorCases | internal/web/services/data/assets.go:84-115 | an empty list succeeds without a lookup; a successful lookup leads to attaching only when every normalised name has a stored tag; when every name has one and none is asked twice, the count check passes |
| WebDataAssets.AllFoundCount | internal/web/services/data/assets.go:99-107 | when each of some pairwise different names has a stored tag, the lookup returns one tag per name |
| WebDataAssets.AttachTagsToAsset | internal/web/services/data/assets.go:84-115 | nothing for an empty list; otherwise the names are normalised with blanks dropped, looked up and checked by count, and the tags found are attached; a name without a stored tag fails the step before anything is attached |
| WebDataAssets.ExistingChecksumReported | internal/web/services/data/assets.go:59-65 | a checksum that is already stored is reported as `ErrAssetAlreadyExists` naming the checksum as given |
| WebDataAssets.TagNewAsset | internal/web/services/data/assets.go:46-52 | on failure the asset table is rolled back to what it was before the transaction; on success the new row carries the ids of the tags found |
| WebDataAssets.CommittedRow | internal/web/services/data/assets.go:46-52 | after a successful tag step the table is the rows from before the transaction followed by the new row, which carries the ids of the tags found |
| WebDataAssets.CreateTransaction | internal/web/services/data/assets.go:36-53 | the create, then the tags; a failure of either leaves the asset table as it was |
| WebDataAssets.CreateAsset | internal/web/services/data/assets.go:28-81 | a failed transaction leaves the table unchanged and reports a unique violation as "already exists"; the upload URL is requested only after commit, and a URL failure still returns the committed asset |
| WebDataAssets.GetAsset | internal/web/services/data/assets.go:140-153 | the stored asset with the normalised checksum; record-not-found becomes `ErrAssetNotFound` naming the checksum, and any other failure passes through |
| WebDataAssets.GetAssetIngressUrlCases | internal/web/services/data/assets.go:210-230 | over a table with unique checksums: a missing asset gives `ErrAssetNotFound` and a ready one `ErrAssetIsReady`, each without a URL; any other stored asset gets the upload URL |
| WebDataAssets.ChecksumsOf | internal/web/services/data/assets.go:241-244 | the records' checksums, one per record, in order |
| WebDataAssets.ExistingRecordsFound | internal/web/services/data/assets.go:246-251 | the existence check finds something exactly when one of the checksums is stored, and everything it finds is a stored asset with one of them |
| WebDataAssets.ExistingChecksums | internal/web/services/data/assets.go:251-257 | the corrected list: as long as the list of existing records, holding their checksums in order |
| WebDataAssets.PaddedCountsRequest | internal/web/services/data/assets.go:252-255 | as written, the list always has the request's length, with empty checksums after the existing ones |
| WebDataAssets.PaddedOvercountsExample | internal/web/services/data/assets.go:252-255 | with two checksums asked for and one stored, the list as written is the stored checksum and an empty one, and its message counts 2; the corrected list is the stored checksum alone, and its message counts 1 |
| WebDataAssets.DistinctRowsFit | internal/web/services/data/assets.go:251-255 | stored rows in id order, each carrying one of the requested checksums, are no more than the checksums requested |
| WebDataAssets.ExistingFitsRequest | internal/web/services/data/assets.go:251-255 | the existing records never outnumber the request, so the list as written, made as long as the request, has room for every one |
| WebDataAssets.CreateAssets | internal/web/services/data/assets.go:237-262 | the batch insert runs only when none of the checksums is stored, and then all the records go in or none; otherwise nothing changes and the error lists the stored checksums, one entry per stored record (the corrected list, see Findings); the stored records never outnumber the request |
| WebDataAssets.CollectChecksums | internal/web/services/data/assets.go:241-255 | the checksum of every record, in record order, one each |
| WebDataTags.ValidatedProperties | internal/web/services/data/tags.go:26-51 | refuses exactly the names that are blank after trimming; an accepted value keeps its name and offset and has a limit in 1..1000 (100 for 0, 1000 above the range, otherwise unchanged); validating twice changes nothing more |
| WebDataTags.GetTagAssetsParams.constructor | internal/web/services/data/tags.go:20-24 | the parameters hold the given name, offset and limit |
| WebDataTags.GetTagAssetsParams.Validate | internal/web/services/data/tags.go:26-51 | a blank name is refused and nothing changes; otherwise the fields become the validated value: the limit repaired, the name and offset kept |
| WebDataTags.GetTag | internal/web/services/data/tags.go:72-86 | the stored tag with the normalised name; a missing tag gives `ErrTagNotFound` naming the name as given, and any other failure passes through |
| WebDataTags.GetTagAssets | internal/web/services/data/tags.go:88-110 | the parameters are validated before any query, and a refusal means no query; otherwise the page of assets carrying the tag, at most the repaired limit long, with a missing tag reported as `ErrTagNotFound` |
| WebDataTags.CreateTag | internal/web/services/data/tags.go:57-70 | the new tag; a name that is already stored gives `ErrTagAlreadyExists` naming it; any other failure passes through |
| WebDto.NewErrorResponse | internal/web/api/dto/response.go:47-55 | the caller's message, and the error's own text as the details message |
| WebDto.StatusOfProperties | internal/web/api/dto/response.go:93-123 | the first matching case decides: an oversized body gives 413 before everything else, then 400, 404, 409 for existing checksums, 409 for already-exists errors, and 500 for anything else |
| WebDto.HandleErrorResponse | internal/web/api/dto/response.go:82-124 | exactly one status is written, with the caller's message, the metadata and the details for the error's class |
| WebDto.DetailsMessage | internal/web/api/dto/response.go:83-99 | the details message is the error's text, except for an oversized body, whose message and details are the limit error's; a 409 for existing checksums lists them in the details |
| WebDto.StatusSeesThroughWrap | internal/web/api/dto/response.go:101-119 | wrapping an error with a prefix keeps its status, as `errors.Is` sees through the wrap |
| WebDto.BindFailureStatus | internal/web/api/dto/response.go:93-104 | a bind failure joined after `ErrInvalidPayload` gets 413 when the body was too large and 400 otherwise, never 500 |
| WebTagGetAssets.BoundLimitClamp | internal/web/api/handlers/v1/tag_get_assets.go:14 | a limit the binding accepts reaches the service unchanged, except that 0 becomes 100 |
| WebTagGetAssets.NextOffsetProperties | internal/web/api/handlers/v1/tag_get_assets.go:84-88 | a next offset appears exactly when the page length equals the limit, and is then just past the page; with limit 0 an empty page gets one equal to the offset |
| WebTagGetAssets.NewListTagAssetsResponseData | internal/web/api/handlers/v1/tag_get_assets.go:72-91 | the assets' checksums, one per asset, in order; the total is the number of assets; the next offset follows the full-page rule with the limit as given |
| WebTagGetAssets.OmittedLimitMisleads | internal/web/api/handlers/v1/tag_get_assets.go:62 | with the limit omitted, a full page of 100 gets no next offset, and an empty page gets one equal to its own offset |
| WebTagGetAssets.NextOffsetIntendedProperties | internal/web/api/handlers/v1/tag_get_assets.go:84-88 | for every page the service can return, the intended rule gives a next offset exactly after a full page, always past the offset, and agrees with the handler's rule whenever the payload named a limit |

## Left out

Outside the sequential semantics:

- Databases, storage and HTTP.
  - GORM query building, migrations and hook dispatch: the tables are in-memory and the hooks are called by the operations that trigger them.
  - A GORM transaction is the table as it was, put back when the closure fails.
  - S3 presigning (`PutURL`, `PutURLExpire`, `GetURL`, `GetURLExpire`) and `PingStorage`: a presigned URL or its failure is a parameter.
  - gin binding, route registration and the response writes.
  - `http.Client.Do`: a `Network` value says what each attempt returns.
  - pkg/registry/client.go, pkg/registry/storage.go and internal/registry/engine.go are not part of this model: their pagination and key logic is that of pkg/registry/engine.go, and the rest is SDK calls.
- Goroutines and channels.
  - A channel is the finite sequence sent on it.
  - `Stage.Collect`, its panic recovery, `startProcessing`, `process` and the worker pool are not modelled.
  - Neither are `Action.Run`, `worker`, `Collect`, `Parallel`'s workers, `governedOPS`, `LoadAssets.processFiles` and `ParallelProcess`.
  - pkg/universe/stream.go, `FanIn`, `FanOut`, `Tee`, `Bridge`, `Repeat`, `Concurrent`, `AdaptConsume` and pkg/pipelines/stage.go are not part of this model.
- Floating point.
  - `format_size` in the payload script.
  - `MaxConcurrency`'s `math.Ceil(NumCPU * 1.5)` is the integer ⌈3n/2⌉, with the CPU count as a parameter of at least 1.
- Randomness.
  - The random choices of the payload script are parameters reduced into the stated alphabet and bounds.
  - pkg/universe/utils.go `RandomList` is not part of this model.
- File, standard input and terminal I/O.
  - `CalculateSHA256`, `checksum`, `analyzeFile`, glob and stat, and `GenerateManifest*`.
  - Log files, progress bars, the prompt text `AskForApproval` prints, and its read of standard input (the answer is a parameter).
  - The payload script's file write in `main`.
- Foreign library calls: each is a parameter with the contract the code relies on.
  - `time.LoadLocation`, `url.Parse`, `url.ParseRequestURI`, and the network and syscall classification of `isTransientError`.
  - `json.Marshal`, `json.MarshalIndent` and `json.Unmarshal`: abstract JSON values.
  - The colouring of `fatih/color`, which decides by itself whether the terminal gets escape sequences.
  - slog's internals and the runtime's report of a call site.
- Text and time.
  - Text is ASCII, except in the capitalisation finding, which models UTF-8 bytes.
  - `time.Now` is an opaque timestamp, and so the time text of a log line is a parameter.
  - `PresignedUrl.IsExpired` and `TimeUntilExpiry` need the clock and are not modelled.
- Plumbing and wiring.
  - The viper and cobra plumbing of `settings.Init` and of `cmd/*`; the commented-out internal/actions/loadassets.go; internal/registry/utils.go.
  - The `String()` debug printers, and slog debug calls made only for tracing.
  - The middleware's `init()` and its per-request `Logger()` line.
  - The gin handlers whose only work is binding and answering: `HandleListAssets`, `HandleCreateAssetBatch`, `CreateAssetsBatchHandler`, `ListTagAssetsHandler` and `HandleCreateAsset`.
  - dto `NewResponse`, `buildMeta` and the status writers.
  - The logger's `Info`, `Error`, `Debug`, `Warn`, `With`, `ErrorErr`, `DebugWithCaller`, `Get` and `Sync` wrappers over slog.
- Thin wrappers.
  - The web data service's `TagAsset`, `UntagAsset`, `GetAssetTags` and `ListAssets` pass through to the modelled engine and record operations.
  - `GetTagRecord`, `GetTagRecordAssets` and `GetTagRecordById` of pkg/registry/database.go are modelled once, through `InternalRegistryDatabase`, since both files run the same query.
  - internal/registry/database.go uses record types that its package does not declare, so its creates insert the records as given, without the hooks of pkg/registry/hooks.go.
  - pkg/registry/database.go's `GetTagRecordAssets` calls a package-level `GetTagRecord` that the package does not declare.
  - The `ctx` variants of the record operations differ only in the context they pass on.
- Logging details.
  - `simpleHandler`'s delegation of `Enabled`, `WithAttrs` and `WithGroup`.
  - The `replaceDevAttributes` and `replaceProdAttributes` hooks and `NewService`'s log file.
  - The production JSON handler's RFC 3339 time rewrite, and the console logger's rendering of a value (`formatValue`), which is a parameter.
  - The unreachable `len(fields) == 0` branch of the CLI handler.
- The model fixes three choices the code leaves open.
  - `AskForApproval` is called with the `interactive` switch as `assumeYes` (internal/actions/assets.go:28-29), and the model does the same.
  - cmd/cli/commands/asset.go calls an `actions.Interactive()` option that the actions package does not declare.
  - `Artifact.Unwrap` is not modelled.

Contracts stated weaker than the source, or inputs restricted:

- UniverseTerminal.Collect: requires a capacity of at least 0, because Go's `make` panics on a negative one.
- UniverseOperators.Map: modelled without cancellation in the middle of the stream. The Go operator stops as soon as the context is done; the model maps the whole stream. `Filter` and `Tap` are the same.
- UniverseTransform.Map: modelled without cancellation in the middle of the stream, as for the operators. `Filter` is the same.
- UniverseContext.OrDone: the moment of cancellation is a parameter (after a given number of values), since Go leaves it to the scheduler.
- UniverseStage.Stage.Run: takes the worker pool's error and the context's error as parameters. The stage's function is a flag saying whether one was set, and the error channel is a sequence nobody reads. `GetStatus`, `IsRunning` and `IsRunnable` are plain readers with no contract of their own.
- ActionsConnector.Connector.DoRequestWithRetry: the doubling back-off is unbounded, while Go's `time.Duration` would overflow after about 63 doublings.
- GoStrings.Quote: `%q` is exact only for text without quotes, backslashes or control characters.
- MiddlewareLogger.Write: treats the bytes written as ASCII text, and `Header.Get`'s canonicalisation of header names is not modelled.
- WebAssetsPost.NewAssetPostResponseData: modelled with the asset and URL that assets_post.go passes. The declaration in asset_post.go takes a `CreateAssetResult` instead.
- WebAssetsPost.BatchRequestToRecords: takes the payload's assets as given. The payload's `assets` field is unexported, so JSON binding never fills it.
- WebDataAssets.CreateAssets: returns the corrected list of existing checksums, one entry per stored record. As written, the list is padded with empty strings to the request's length; `WebDataAssets.PaddedExistingChecksums` models that list (see Findings).
- RegistryDatabase.ListAssetsRecords: the included-tag and excluded-tag sub-queries are modelled as intended, each an independent query over the asset and tag tables. As written (pkg/registry/database.go:207-236) they are built by chaining on the reassigned `db`, which is the main statement itself. So they rewrite its table, select list, joins, grouping and `HAVING`, and then embed it in its own `id IN (?)` condition. What the database makes of that statement is not modelled. `RegistryDatabase.ListResultProperties` likewise states the intended filtering. internal/registry/database.go builds its sub-queries from a fresh client, and `InternalRegistryDatabase` models it as written.
- RegistryDatabase.UpdateAssetRecord: writes the asset's display, MIME type, state and checksum. It does not model `Updates` writing `SizeBytes` and `Extra`, the timestamps, or the upsert of loaded associations. The re-read refreshes only display and MIME type. The checksum guard that never fires is a finding, and `UpdateOutcomeIntended` is the intended update.
- WebDataAssets: internal/web/services/data/service.go holds internal/registry's engine, but assets.go uses pkg/registry's record types and calls `CreateAssetRecord(checksum, display, extra)` and `IngressURL`, which only pkg/registry declares. The model follows assets.go and runs the asset operations on `RegistryDatabase`. So `GetAsset`'s lookup failure reads "failed to get asset <c>: …" rather than internal/registry's `get asset "<c>": …`. Likewise `CreateAssets` runs the create hooks and wraps a refusal as "failed creating assets", where internal/registry's `CreateAssetRecords` inserts without hooks and wraps as "create assets". `WebDataTags` uses `InternalRegistryDatabase`, whose tag operations carry no such clash.
- RegistryDatabase.CreateAssetRecords: the create hook is applied to row values, so the caller's records do not receive their normalised fields, their state or their new ids in place.

## Findings

| source | as written | input that shows it | evidently intended | confidence | as-written member | corrected member |
|---|---|---|---|---|---|---|
| internal/web/services/data/assets.go:251-256 | `ErrAssetsExists` lists one slot per asset asked for, not one per asset found. The slots no stored record fills are empty strings | two checksums asked for, one of them stored: the error lists that checksum and an empty string (the existing records never outnumber the request, so the padding is always long enough) | the checksums of the stored records, one each | not executed | WebDataAssets.PaddedOvercountsExample | WebDataAssets.ExistingChecksums |
| internal/registry/database.go:250-259 | `GetDatasetRecord` hands a nil `*Dataset` to `First`, which GORM refuses with `ErrInvalidValue` | any stored dataset name: the lookup fails, and so does every `CreateDatasetVersionRecord` | the stored dataset with that name | not executed | InternalRegistryDatabase.AsWrittenMissesStoredDataset | InternalRegistryDatabase.Engine.GetDatasetRecord |
| internal/api/handlers/v1/asset_get_list.go:123-134 | only `registry.ErrValidation` is answered as a bad request. The search options' own refusal of a blank MIME type falls through to the internal-error reply | a list request whose MIME type is one space, which passes binding: 500 Internal Server Error | 400 Bad Request for every refusal of the client's filter | not executed | ApiAssetList.BlankMimeTypeAnsweredAsInternal | ApiAssetList.RefusedSearchIsBadRequest |
| internal/web/api/handlers/v1/tag_get_assets.go:62-88 | the next offset is decided by comparing the page with the payload's raw limit, while the service repairs an omitted limit to 100 | no limit given and a tag with 150 assets: a full page of 100 comes back with no next offset | the page compared with the limit the service used | not executed | WebTagGetAssets.OmittedLimitMisleads | WebTagGetAssets.NextOffsetIntendedProperties |
| internal/web/api/handlers/v1/assets_post.go:92-109 | `SetExtra` is called for every asset, and it refuses an empty map | a direct call of `batchRequestToRecords` with one asset that carries no extra metadata: the whole batch is refused. Through `HandleCreateAssetBatch` the unexported `assets` field is never bound, so that endpoint converts no assets at all | extra metadata set only when some was sent, as batch_post_asset.go does | not executed | WebAssetsPost.AbsentExtraRefused | WebBatchPostAsset.AssetsBatchPayloadToRecords |
| internal/logging/casual.go:73-76 | the first byte of the message is read as a rune and capitalised | a message starting with "€" (E2 82 AC) is printed as C3 82 82 AC: "Â" and a stray byte | only a lower-case first letter is capitalised, and the other bytes are kept | not executed | LoggingCasual.MultiByteFirstCharacterCorrupted | LoggingCasual.CapitalizeFirstKeepsBytes |
| pkg/registry/hooks.go:67-70 | `Model(asset).Updates(asset)` (database.go:70) makes the asset both model and destination, so `Statement.Changed("Checksum")` compares it with itself and the guard never fires; the new checksum is written | stored row {id 1, checksum c1}, asset {ID 1, Checksum c2 (a valid digest no row holds), State "pending"}: the row now holds c2 | a checksum different from the stored one is refused | not executed | RegistryDatabase.ChecksumOverwrittenAsWritten | RegistryDatabase.IntendedChecksumFixed |
| internal/logger/logger.go:33-90 | `WithAttrs` derives the wrapped handler, but `Handle` prints only the record's attributes | a logger from `With("request", id)`: the line has no request attribute | the handler's own attributes printed before the record's | not executed | Logger.WithAttrsDroppedAsWritten | Logger.WithAttrsShown |
