# Cloudflare back end of SeBS, modelled in Dafny

This project models the Cloudflare port of the SeBS serverless benchmark
suite and proves properties of it. It covers:

- the deployment side: worker names, credentials and configuration, triggers
  and cached workers, the Durable Objects table registry, and the
  `wrangler.toml` generation for native and container workers;
- the Python packaging decisions: the dependency filter, the pyproject name,
  the entries moved under `function/`, import and torch-wheel rewrites, and
  image names in the container registry;
- Analytics Engine metrics: decoding the newline-delimited rows, enriching
  the invocation results, and the summary written into the experiment;
- the Python wrappers that run next to the benchmark: the worker's `fetch`,
  the container's HTTP handler with its User-Agent patches, and the R2
  storage and NoSQL proxy clients;
- the experiment-name parser of the comparison plots.

One Dafny module stands for one source file. Shared helpers are:

- `Wrappers`: Option and Result.
- `Text`: split, join, strip, replace, ASCII case.
- `Json`: the decoded value type.
- `Dicts`: insertion-ordered dicts as association lists.
- `Http`: requests, replies and the User-Agent rule.
- `Wrangler`: the vars and R2 rules shared by both `generate_wrangler_toml`
  methods.

Objects whose fields the code updates in place are classes:

- the credentials, resources and configuration objects;
- the HTTP trigger and the cached worker;
- the Durable Objects registry;
- the class-level singletons of the storage and NoSQL clients;
- the caller's `requests` and `metrics` dicts of `download_metrics`.

Code made of loops is written as methods whose `ensures` ties the result to
a specification function. Properties of that function are proved as
lemmas. This applies to:

- the dependency filter and the move loop of `package_code`;
- the NoSQL binding loop;
- the metrics loop and the line decoder;
- the query loops of both handlers;
- the registry search;
- the directory download.

The network, the file system, `json.loads`/`json.dumps`, `str()`,
`urlencode`, `parse_qs`, UUIDs, clocks and the benchmark function itself
are parameters: oracles passed as functions, or plain values. The model
follows the code where it departs from its comments:

- The Python worker's `fetch` parses the body only when the body text is
  `None`. `json.loads(None)` then raises, and any other body is ignored.
- `container.py` defines `find_image` twice. The second definition is the
  one Python keeps, and the one modelled.
- `get_tables` inserts an empty dict for an unknown benchmark. A later
  `retrieve_cache` then answers true without reading the cache
  (`DurableObjects.GetTablesThenRetrieve`).

## Model

| member | source | states |
|---|---|---|
| Cloudflare.KeepAllowed | sebs/cloudflare/cloudflare.py:428 | only ASCII letters, digits and '-' survive, and every kept character was in the input |
| Cloudflare.Normalize | sebs/cloudflare/cloudflare.py:427 | lower-casing with '_' and '.' turned into '-' leaves no upper-case letter |
| Cloudflare.FormatFunctionName | sebs/cloudflare/cloudflare.py:410-432 | the formatted name is a valid worker name: lower-case letters, digits and '-', not starting or ending with '-' |
| Cloudflare.StripKeeps | sebs/cloudflare/cloudflare.py:430 | stripping '-' from both ends keeps every remaining character allowed |
| Cloudflare.KeepAllowedNormalize | sebs/cloudflare/cloudflare.py:427-428 | normalising then filtering equals one per-character rule |
| Cloudflare.FormatIsPerCharacter | sebs/cloudflare/cloudflare.py:427-430 | the name formatter is the per-character rule followed by stripping '-' |
| Cloudflare.MapCharsOfNameChars | sebs/cloudflare/cloudflare.py:427-428 | the per-character rule leaves a string of allowed characters unchanged |
| Cloudflare.FormatKeepsValidName | sebs/cloudflare/cloudflare.py:410-432 | a name that already follows the rules comes back unchanged |
| Cloudflare.FormatIdempotent | sebs/cloudflare/cloudflare.py:410-432 | formatting twice equals formatting once |
| Cloudflare.DefaultFunctionName | sebs/cloudflare/cloudflare.py:393-408 | the name is benchmark, language and dot-free version joined by '-' and lower-cased, with no upper-case letter |
| Cloudflare.AuthHeadersSchemes | sebs/cloudflare/cloudflare.py:88-102 | headers exist iff a token or both e-mail and key are set; the token wins; the schemes never mix; the content type is JSON; otherwise the fixed error |
| Cloudflare.AuthHeaders | sebs/cloudflare/cloudflare.py:88-102 | the headers always carry the JSON content type; the only failure is the invalid-credentials error |
| Cloudflare.TriggerAccount | sebs/cloudflare/cloudflare.py:703 | the worker's own non-empty account id wins over the configured one |
| Cloudflare.WorkerUrl | sebs/cloudflare/cloudflare.py:704 | the URL is https://name.account.workers.dev |
| Cloudflare.CreateTrigger | sebs/cloudflare/cloudflare.py:681-711 | a library trigger bound to this system, or a new HTTP trigger at the worker's URL; any other type fails |
| Config.Lookup | sebs/cloudflare/config.py:50-53 | `.get`: present exactly when the key is, with its value |
| Config.InitializeCredentials | sebs/cloudflare/config.py:48-54 | each credential field is the section's entry, or None when missing |
| Config.CredentialSource | sebs/cloudflare/config.py:67-85 | configured credentials first, then an environment token, then e-mail and key, else none |
| Config.DeserializeCredentials | sebs/cloudflare/config.py:57-98 | no credential source gives the missing-credentials error; without a cached section it succeeds exactly when some source exists |
| Config.SerializeCredentials | sebs/cloudflare/config.py:105-109 | only a non-empty account id is written |
| Config.ConfigCredentialsWin | sebs/cloudflare/config.py:67-68 | a configured credentials section is used as is, whatever the environment holds |
| Config.EnvironmentPrecedence | sebs/cloudflare/config.py:69-73 | without configured credentials an environment token wins over e-mail and key |
| Config.EmailKeyCredentials | sebs/cloudflare/config.py:74-79 | without configured credentials or a token, the credentials are the environment's e-mail and API key with its optional account id |
| Config.NoSourceFails | sebs/cloudflare/config.py:80-85 | with no credential source, deserialisation fails with the missing-credentials message |
| Config.CachedAccountCheck | sebs/cloudflare/config.py:62-95 | a cached account id rejects the credentials exactly when both ids are known and differ |
| Config.SerializedCredentialsRoundTrip | sebs/cloudflare/config.py:105-109 | serialised credentials read back as configuration keep exactly the account id |
| Config.Resources.constructor | sebs/cloudflare/config.py:117-119 | a new resources object has no namespace id |
| Config.Resources.Initialize | sebs/cloudflare/config.py:134-141 | a present "namespace_id" replaces the namespace id; otherwise nothing changes |
| Config.Resources.Serialize | sebs/cloudflare/config.py:143-147 | the base-class entries, with the namespace id written over them only when non-empty |
| Config.ResourcesRoundTrip | sebs/cloudflare/config.py:134-147 | a non-empty namespace id survives serialising, whatever the base entries, and initialising a new object |
| Config.DeserializeResources | sebs/cloudflare/config.py:158-178 | the cached section wins over the user's; with neither, no namespace id |
| Config.CloudflareConfig.constructor | sebs/cloudflare/config.py:186-189 | the object holds the given credentials and resources |
| Config.CloudflareConfig.Initialize | sebs/cloudflare/config.py:204-207 | the region is the document's, or "global" |
| Config.CloudflareConfig.Serialize | sebs/cloudflare/config.py:235-242 | name "cloudflare", the region, and the serialised credentials and resources (over the resources' base entries) |
| Config.DeserializeConfig | sebs/cloudflare/config.py:210-228 | fails exactly when the credentials fail; otherwise the region comes from a truthy cache, else the user's document, and is copied into the resources |
| Triggers.LibraryTrigger.TriggerKind | sebs/cloudflare/triggers.py:20-22 | a library trigger is of type LIBRARY |
| Triggers.LibraryTrigger.SyncInvoke | sebs/cloudflare/triggers.py:24-35 | synchronous library invocation always raises "not yet implemented" |
| Triggers.LibraryTrigger.AsyncInvoke | sebs/cloudflare/triggers.py:37-42 | asynchronous library invocation always raises |
| Triggers.StringField | sebs/cloudflare/triggers.py:48-49 | succeeds exactly for a present string entry, and returns it |
| Triggers.DeserializeLibrary | sebs/cloudflare/triggers.py:47-49 | the trigger keeps only the name, with no deployment client |
| Triggers.UrlValue | sebs/cloudflare/triggers.py:102-106 | a stored URL is null (None) or a string |
| Triggers.HttpFields | sebs/cloudflare/triggers.py:108-113 | the name is required; the URL is read only when "url" is present |
| Triggers.HttpTrigger.constructor | sebs/cloudflare/triggers.py:58-60 | the trigger holds the worker name and the URL |
| Triggers.HttpTrigger.TriggerKind | sebs/cloudflare/triggers.py:66-68 | an HTTP trigger is of type HTTP |
| Triggers.HttpTrigger.Url | sebs/cloudflare/triggers.py:70-73 | reading the URL fails exactly while none is set |
| Triggers.HttpTrigger.SetUrl | sebs/cloudflare/triggers.py:75-77 | the URL becomes the new one |
| Triggers.HttpTrigger.AsyncInvoke | sebs/cloudflare/triggers.py:95-100 | asynchronous HTTP invocation always raises |
| Triggers.HttpTrigger.Serialize | sebs/cloudflare/triggers.py:102-106 | the base fields plus "url", null while unset |
| Triggers.DeserializeHttp | sebs/cloudflare/triggers.py:108-113 | fails exactly when the fields are malformed; otherwise a new trigger with the stored name and URL |
| Triggers.HttpRoundTrip | sebs/cloudflare/triggers.py:102-113 | serialising then deserialising keeps the name and the URL |
| Worker.CloudflareWorker.constructor | sebs/cloudflare/function.py:13-26 | the worker holds the given fields and no triggers |
| Worker.CloudflareWorker.AddTrigger | sebs/cloudflare/function.py:60 | the trigger is appended to the list |
| Worker.CloudflareWorker.Serialize | sebs/cloudflare/function.py:32-38 | the base fields plus script id, runtime and account id (null when None) |
| Worker.AccountField | sebs/cloudflare/function.py:51 | a missing account id reads as None |
| Worker.CheckTrigger | sebs/cloudflare/function.py:56-57 | only triggers typed "Cloudflare.HTTPTrigger" are accepted |
| Worker.Deserialize | sebs/cloudflare/function.py:40-61 | a restored worker has the cached fields and one new HTTP trigger per cached trigger, in order; with well-formed triggers it fails only on a missing or mistyped field |
| DurableObjects.TableNameIn | sebs/cloudflare/durable_objects.py:67-81 | None for an unknown benchmark, else the table's entry |
| DurableObjects.WithTableFinds | sebs/cloudflare/durable_objects.py:135 | after registering, the table is found under its own name, and the registry stays well formed |
| DurableObjects.WithTable | sebs/cloudflare/durable_objects.py:135 | the registration `_tables[benchmark][name] = name`; its properties are WithTableFinds, WithTableWellFormed, WithTableFrame and WithTableIdempotent |
| DurableObjects.WithTableWellFormed | sebs/cloudflare/durable_objects.py:135 | registering keeps benchmarks and table names distinct |
| DurableObjects.WithTableFrame | sebs/cloudflare/durable_objects.py:135 | registering touches no other benchmark and no other table |
| DurableObjects.WithTableIdempotent | sebs/cloudflare/durable_objects.py:135 | registering twice equals registering once |
| DurableObjects.FirstHolding | sebs/cloudflare/durable_objects.py:198-199 | the first benchmark, in dict order, having a table bound to the name |
| DurableObjects.ValuesOf | sebs/cloudflare/durable_objects.py:199 | `tables.values()` in order |
| DurableObjects.FirstBound | sebs/cloudflare/durable_objects.py:201-205 | the first table, in dict order, bound to the name |
| DurableObjects.RemoveDeletesAtMostOne | sebs/cloudflare/durable_objects.py:186-213 | removal deletes one table when some table is bound to the name, none otherwise, and keeps the benchmarks |
| DurableObjects.RemoveFirstBound | sebs/cloudflare/durable_objects.py:186-213 | the benchmarks stay, in order; what is deleted is stated by RemoveDeletesAtMostOne |
| DurableObjects.RemoveWellFormed | sebs/cloudflare/durable_objects.py:186-213 | removal keeps the registry well formed |
| DurableObjects.DurableObjectsRegistry.constructor | sebs/cloudflare/durable_objects.py:40 | the registry starts empty |
| DurableObjects.DurableObjectsRegistry.GetTables | sebs/cloudflare/durable_objects.py:58-65 | the benchmark's tables; an unknown benchmark gets an empty dict appended |
| DurableObjects.DurableObjectsRegistry.TableName | sebs/cloudflare/durable_objects.py:67-81 | `_get_table_name` over the current registry |
| DurableObjects.DurableObjectsRegistry.RetrieveCache | sebs/cloudflare/durable_objects.py:83-99 | true for a known benchmark; otherwise the cached tables are loaded when present, else false |
| DurableObjects.DurableObjectsRegistry.UpdateCache | sebs/cloudflare/durable_objects.py:101-114 | the entry written holds the benchmark's tables, with the same default insertion |
| DurableObjects.DurableObjectsRegistry.CreateTable | sebs/cloudflare/durable_objects.py:116-141 | the table is registered under its own name, and the name is returned |
| DurableObjects.DurableObjectsRegistry.WriteToTable | sebs/cloudflare/durable_objects.py:143-172 | fails with "Table … not found" exactly when the table name is missing or empty |
| DurableObjects.DurableObjectsRegistry.ClearTable | sebs/cloudflare/durable_objects.py:174-184 | returns the name |
| DurableObjects.DurableObjectsRegistry.RemoveTable | sebs/cloudflare/durable_objects.py:186-213 | deletes the first table bound to the name in the first benchmark holding one, and returns the name |
| DurableObjects.DurableObjectsRegistry.Envs | sebs/cloudflare/durable_objects.py:215-229 | exactly the NOSQL_STORAGE_DATABASE marker |
| DurableObjects.GetTablesThenRetrieve | sebs/cloudflare/durable_objects.py:58-99 | after `get_tables`, `retrieve_cache` answers true without the cache |
| Metrics.DecodeLines | sebs/cloudflare/cloudflare.py:659-665 | no more rows than lines |
| Metrics.DecodeLinesAppend | sebs/cloudflare/cloudflare.py:660-665 | decoding distributes over concatenation of lines |
| Metrics.DecodeLinesAllValid | sebs/cloudflare/cloudflare.py:660-665 | when every line is non-empty and decodes, row i is line i decoded |
| Metrics.DecodeLinesSound | sebs/cloudflare/cloudflare.py:660-665 | every row is the decoding of some non-empty line |
| Metrics.ParseLines | sebs/cloudflare/cloudflare.py:659-668 | the loop returns the decoded lines |
| Metrics.QueryAnalyticsEngine | sebs/cloudflare/cloudflare.py:592-679 | the headers are built first and their failure propagates; a 200 reply gives the decoded lines of its stripped text |
| Metrics.QueryRows | sebs/cloudflare/cloudflare.py:592-679 | fails exactly when the headers cannot be built; rows come only from a 200 reply |
| Metrics.QueryFailureIsEmpty | sebs/cloudflare/cloudflare.py:669-679 | a non-200 reply, a time-out or a transport error gives no rows |
| Metrics.Enrich | sebs/cloudflare/cloudflare.py:514-532 | execution and billed time are the truncated CPU microseconds; cold start iff "cold"; 128 MB; micro GB-seconds truncated |
| Metrics.CpuValue | sebs/cloudflare/cloudflare.py:515-532 | a number exactly for a missing, integer, float or boolean CPU time, which both `* 1000` and `/ 1000.0` accept |
| Metrics.TextMicros | sebs/cloudflare/cloudflare.py:515-517 | `int()` of a string CPU time repeated a thousand times |
| Metrics.Classify | sebs/cloudflare/cloudflare.py:507-536 | a tracked or partial row names a tracked request; a tracked row carries its numeric CPU time, a partial one the parsed repeated text |
| Metrics.PartialEnrich | sebs/cloudflare/cloudflare.py:517-528 | execution and billed time set, initialisation 0, cold start iff "cold", 128 MB, GB-seconds kept from before |
| Metrics.EnrichCompletesPartial | sebs/cloudflare/cloudflare.py:517-532 | a numeric row makes the partial assignments and then the GB-seconds one |
| Metrics.EnrichLastWins | sebs/cloudflare/cloudflare.py:510-532 | enriching again overwrites everything the first enrichment set |
| Metrics.GbSecondsFromBilledTime | sebs/cloudflare/cloudflare.py:528-532 | for a non-negative CPU time, GB-seconds are the billed time divided by 8, rounded down |
| Metrics.Step | sebs/cloudflare/cloudflare.py:507-536 | one row never adds or removes a tracked request |
| Metrics.Fold | sebs/cloudflare/cloudflare.py:507-536 | the rows never add or remove a tracked request |
| Metrics.UntrackedRow | sebs/cloudflare/cloudflare.py:535-536 | an untracked id changes no result and counts one unmatched metric |
| Metrics.RowWithoutId | sebs/cloudflare/cloudflare.py:508-510 | a row without a request id changes nothing |
| Metrics.TrackedRow | sebs/cloudflare/cloudflare.py:510-534 | a tracked row replaces that result by its enrichment, counts one match and touches no other result |
| Metrics.FoldDistinct | sebs/cloudflare/cloudflare.py:507-536 | the request ids stay distinct |
| Metrics.MatchedCountsTrackedRows | sebs/cloudflare/cloudflare.py:504-536 | without an exception, matched counts the rows naming a tracked request |
| Metrics.LastRowWins | sebs/cloudflare/cloudflare.py:510-534 | a request named by two rows holds the second row's values |
| Metrics.DigitTextRow | sebs/cloudflare/cloudflare.py:510-531 | a tracked row with a decimal-text CPU time keeps the assignments made before the division raises, counts no match and stops the loop |
| Metrics.RejectedTextRow | sebs/cloudflare/cloudflare.py:515-517 | a tracked row whose CPU text `int()` rejects raises before any assignment |
| Metrics.AbortStaysAborted | sebs/cloudflare/cloudflare.py:585-590 | once a row raises, the remaining rows change nothing |
| Metrics.CpuTimes | sebs/cloudflare/cloudflare.py:540-544 | only strictly positive execution times are kept |
| Metrics.ColdStarts | sebs/cloudflare/cloudflare.py:545-547 | the cold starts are at most the requests |
| Metrics.Min | sebs/cloudflare/cloudflare.py:562 | the minimum is an element and below every element |
| Metrics.Max | sebs/cloudflare/cloudflare.py:563 | the maximum is an element and above every element |
| Metrics.SumBounds | sebs/cloudflare/cloudflare.py:561 | a sum of n values in [lo, hi] lies in [n·lo, n·hi] |
| Metrics.DivBetween | sebs/cloudflare/cloudflare.py:561 | floor division of a total between n·lo and n·hi lies between lo and hi |
| Metrics.AverageBetweenMinAndMax | sebs/cloudflare/cloudflare.py:560-563 | the floor average lies between the minimum and the maximum |
| Metrics.Summarize | sebs/cloudflare/cloudflare.py:539-563 | the counters as written, warm = matched − cold, and CPU statistics iff some time is positive, with 0 < min ≤ avg ≤ max |
| Metrics.Requests.constructor | sebs/cloudflare/cloudflare.py:456 | the caller's requests dict |
| Metrics.MetricsDict.constructor | sebs/cloudflare/cloudflare.py:457 | the caller's metrics dict |
| Metrics.Outcome | sebs/cloudflare/cloudflare.py:507-563 | the final results and metrics; Fold, Summarize and DownloadMetrics state what the row loop keeps and what the summary holds |
| Metrics.DownloadMetrics | sebs/cloudflare/cloudflare.py:451-590 | nothing changes without requests, without an account id in the credentials, or with no rows; otherwise the rows are folded into the results, keeping the partial assignments of a row that raised midway, and the summary is written when any matched and no row raised |
| Metrics.FoldRows | sebs/cloudflare/cloudflare.py:507-536 | the loop reaches the fold of the rows and leaves its results in the caller's dict |
| NoSql.NoSqlClass.constructor | benchmarks/wrappers/cloudflare/python/container/nosql.py:14-15 | no instance and no worker URL |
| NoSql.NoSqlClass.InitInstance | benchmarks/wrappers/cloudflare/python/container/nosql.py:17-22 | the singleton is created on the first call only |
| NoSql.NoSqlClass.GetInstance | benchmarks/wrappers/cloudflare/python/container/nosql.py:113-117 | the same singleton rule |
| NoSql.NoSqlClass.SetWorkerUrl | benchmarks/wrappers/cloudflare/python/container/nosql.py:24-27 | one URL shared by every instance |
| NoSql.SingletonStable | benchmarks/wrappers/cloudflare/python/container/nosql.py:113-117 | two calls return the same object |
| NoSql.Str | benchmarks/wrappers/cloudflare/python/container/nosql.py:47 | `str` of a string is the string |
| NoSql.ProxyRequest | benchmarks/wrappers/cloudflare/python/container/nosql.py:34-38 | a JSON POST to worker_url/nosql/operation |
| NoSql.HttpErrorOf | benchmarks/wrappers/cloudflare/python/container/nosql.py:43-49 | an HTTP error becomes "NoSQL operation failed: " with the body's 'error', or the raw body when it is not JSON |
| NoSql.MakeRequest | benchmarks/wrappers/cloudflare/python/container/nosql.py:29-51 | nothing is sent without a worker URL; otherwise one patched POST whose decoded reply is returned, and every failure is a "NoSQL operation failed" error |
| NoSql.WriteParams | benchmarks/wrappers/cloudflare/python/container/nosql.py:60-65 | the body of insert and update: table, both keys as pairs, and the data |
| NoSql.KeyParams | benchmarks/wrappers/cloudflare/python/container/nosql.py:86-90 | the body of get and delete: table and both keys |
| NoSql.QueryParams | benchmarks/wrappers/cloudflare/python/container/nosql.py:97-101 | the body of query: table, primary key and the secondary key's name |
| NoSql.Insert | benchmarks/wrappers/cloudflare/python/container/nosql.py:53-66 | one request to the insert endpoint with the write body |
| NoSql.Update | benchmarks/wrappers/cloudflare/python/container/nosql.py:68-81 | one request to the update endpoint with the write body |
| NoSql.GetField | benchmarks/wrappers/cloudflare/python/container/nosql.py:92 | `.get` on the reply: a non-dict reply raises |
| NoSql.Get | benchmarks/wrappers/cloudflare/python/container/nosql.py:83-92 | the reply's 'data', or None |
| NoSql.Query | benchmarks/wrappers/cloudflare/python/container/nosql.py:94-103 | the reply's 'items', or [] |
| NoSql.Delete | benchmarks/wrappers/cloudflare/python/container/nosql.py:105-111 | one request to the delete endpoint with the key body |
| NoSql.NoUrlSendsNothing | benchmarks/wrappers/cloudflare/python/container/nosql.py:31-32 | without a worker URL every operation raises the same error and sends nothing |
| NoSql.InsertUpdateSameBody | benchmarks/wrappers/cloudflare/python/container/nosql.py:53-81 | insert and update send the same body and differ only in the endpoint |
| NoSql.ProxyRequestHeaders | benchmarks/wrappers/cloudflare/python/container/nosql.py:37-41 | the request leaves with the JSON content type and the SeBS User-Agent |
| NoSql.GetDeleteQueryBodies | benchmarks/wrappers/cloudflare/python/container/nosql.py:83-111 | get and delete send the same body; query names the secondary key instead |
| Http.CapitalizedNeverUserAgent | benchmarks/wrappers/cloudflare/python/container/handler.py:43-44 | a header added through `add_header` is never stored as "User-Agent" |
| Http.PatchedUrlopenSetsAgent | benchmarks/wrappers/cloudflare/python/container/handler.py:37-47 | for a URL string, or a Request whose headers came through `add_header`, the request leaves with the SeBS User-Agent and the same URL |
| Http.AddHeader | benchmarks/wrappers/cloudflare/python/container/handler.py:40 | the capitalised name is set to the value; verb, URL and body are kept |
| Http.PatchedUrlopen | benchmarks/wrappers/cloudflare/python/container/handler.py:37-47 | the patched `urlopen` request; its properties are PatchedUrlopenSetsAgent and CapitalizedNeverUserAgent |
| Http.PatchedRequestHeaders | benchmarks/wrappers/cloudflare/python/container/handler.py:21-26 | the header dict is created when absent and gets the User-Agent unless it has one |
| Envelope.LogData | benchmarks/wrappers/cloudflare/python/container/handler.py:143-148 | the result as 'output', the measurement when present, and 'time' 0 when asked for |
| Envelope.Wrap | benchmarks/wrappers/cloudflare/python/container/handler.py:149-159 | the fixed placeholders plus the log data under 'result' |
| Envelope.WrapOnlyResultVaries | benchmarks/wrappers/cloudflare/python/container/handler.py:149-159 | two envelopes differ only under 'result', and are equal iff their log data are |
| ContainerHandler.Coerce | benchmarks/wrappers/cloudflare/python/container/handler.py:114-117 | `int(v)` when it parses, else the text |
| ContainerHandler.FillFromQuery | benchmarks/wrappers/cloudflare/python/container/handler.py:111-117 | the loop computes the query fill |
| ContainerHandler.QueryFill | benchmarks/wrappers/cloudflare/python/container/handler.py:109-117 | the query fill; BodyKeysWin, QueryFillKeys and QueryFillsAbsent state that body keys are kept, only query names are added, and an absent name takes its first value |
| ContainerHandler.BodyKeysWin | benchmarks/wrappers/cloudflare/python/container/handler.py:112 | a key from the body is never replaced by a query parameter |
| ContainerHandler.QueryFillKeys | benchmarks/wrappers/cloudflare/python/container/handler.py:111-117 | the filled keys are the event's plus every parameter name with a value |
| ContainerHandler.QueryFillsAbsent | benchmarks/wrappers/cloudflare/python/container/handler.py:112-117 | an absent name takes its first value, coerced |
| ContainerHandler.ContentLength | benchmarks/wrappers/cloudflare/python/container/handler.py:97 | 0 without the header, else its integer value |
| ContainerHandler.BodyText | benchmarks/wrappers/cloudflare/python/container/handler.py:98 | '' for a non-positive length, else the first bytes decoded |
| ContainerHandler.BodyEvent | benchmarks/wrappers/cloudflare/python/container/handler.py:101-106 | the body's JSON, or {} when empty or undecodable |
| ContainerHandler.EventOf | benchmarks/wrappers/cloudflare/python/container/handler.py:96-124 | the event carries the request id and timestamp, and fails exactly on a bad length, a bad encoding or a non-object JSON body |
| ContainerHandler.Reply | benchmarks/wrappers/cloudflare/python/container/handler.py:143-174 | succeeds iff the result has 'result'; HTML for a truthy 'html', else the JSON envelope |
| ContainerHandler.ErrorReply | benchmarks/wrappers/cloudflare/python/container/handler.py:176-186 | status 500 with the error text and the traceback as JSON |
| ContainerHandler.Handle | benchmarks/wrappers/cloudflare/python/container/handler.py:78-186 | the favicon stub, the error reply for any exception, or the benchmark's reply |
| ContainerHandler.FaviconIgnoresBenchmark | benchmarks/wrappers/cloudflare/python/container/handler.py:80-84 | a favicon request is answered without the body, the query or the benchmark |
| ContainerHandler.InvalidJsonBodyIsEmpty | benchmarks/wrappers/cloudflare/python/container/handler.py:101-106 | an undecodable body gives the event a query-only start |
| ContainerHandler.HandleRequest | benchmarks/wrappers/cloudflare/python/container/handler.py:78-186 | the reply is `Handle`'s; a worker URL header goes to both proxy clients and nothing else changes |
| WorkerHandler.QueryText | benchmarks/wrappers/cloudflare/python/handler.py:17-19 | a query text exactly when the URL holds a '?', and the text holds no '?' |
| WorkerHandler.QueryTextBetween | benchmarks/wrappers/cloudflare/python/handler.py:17-19 | the query text is what lies between the first '?' and the next '?' or the end of the URL |
| WorkerHandler.ChunkEntry | benchmarks/wrappers/cloudflare/python/handler.py:20-27 | a chunk without '=' gives the name with None |
| WorkerHandler.ChunkEntryValue | benchmarks/wrappers/cloudflare/python/handler.py:22-25 | "name=value" gives the name with `int(value)` when that parses and with the text otherwise |
| WorkerHandler.LastChunkValue | benchmarks/wrappers/cloudflare/python/handler.py:21-25 | the event's value for a name is the one its last "name=value" chunk gives |
| WorkerHandler.AssignChunks | benchmarks/wrappers/cloudflare/python/handler.py:21-27 | the loop computes the chunk assignment |
| WorkerHandler.Assign | benchmarks/wrappers/cloudflare/python/handler.py:21-27 | chunk by chunk assignment; no key of the event is lost |
| WorkerHandler.LastChunkWins | benchmarks/wrappers/cloudflare/python/handler.py:21-27 | the last chunk decides its name's value |
| WorkerHandler.AssignFrame | benchmarks/wrappers/cloudflare/python/handler.py:21-27 | a name no chunk mentions keeps its value |
| WorkerHandler.ExtraEqualsIgnored | benchmarks/wrappers/cloudflare/python/handler.py:20-25 | everything after a second '=' is ignored |
| WorkerHandler.QueryEvent | benchmarks/wrappers/cloudflare/python/handler.py:16-27 | no parameters without a '?' |
| WorkerHandler.EventOf | benchmarks/wrappers/cloudflare/python/handler.py:13-40 | fails iff the body text is None; otherwise the query event plus request id 0 and the timestamp |
| WorkerHandler.ReplyOf | benchmarks/wrappers/cloudflare/python/handler.py:50-72 | succeeds iff the result has 'result'; HTML when 'html' is a key, else the envelope |
| WorkerHandler.Fetch | benchmarks/wrappers/cloudflare/python/handler.py:10-72 | the favicon stub, the reply to the event, or the exception when the body text is None |
| WorkerHandler.FetchRequest | benchmarks/wrappers/cloudflare/python/handler.py:10-72 | `fetch` with its loop computes `Fetch` |
| WorkerHandler.HtmlKeyPresenceSuffices | benchmarks/wrappers/cloudflare/python/handler.py:58-60 | an 'html' key selects HTML whatever its value |
| Storage.StorageClient.constructor | benchmarks/wrappers/cloudflare/python/container/storage.py:16-19 | R2 is enabled |
| Storage.StorageClass.constructor | benchmarks/wrappers/cloudflare/python/container/storage.py:13-14 | no instance and no worker URL |
| Storage.StorageClass.InitInstance | benchmarks/wrappers/cloudflare/python/container/storage.py:21-26 | the singleton is created on the first call only, with R2 enabled |
| Storage.StorageClass.GetInstance | benchmarks/wrappers/cloudflare/python/container/storage.py:28-33 | the same singleton rule |
| Storage.StorageClass.SetWorkerUrl | benchmarks/wrappers/cloudflare/python/container/storage.py:35-38 | one URL shared by every instance |
| Storage.UniqueName | benchmarks/wrappers/cloudflare/python/container/storage.py:40-45 | the stem, '.', the first UUID group, then the extension |
| Storage.UuidTag | benchmarks/wrappers/cloudflare/python/container/storage.py:45 | the first dash-separated group of the UUID; UniqueNameKeepsExtension relies on it |
| Storage.SplitFirstPart | benchmarks/wrappers/cloudflare/python/container/storage.py:45 | the first split part is a prefix, non-empty when the text starts with another character |
| Storage.UniqueNameKeepsExtension | benchmarks/wrappers/cloudflare/python/container/storage.py:40-45 | the extension survives and the stem gains the UUID group |
| Storage.PayloadBytes | benchmarks/wrappers/cloudflare/python/container/storage.py:56-62 | a buffer's value, a string's UTF-8 encoding, or the bytes |
| Storage.Exchange | benchmarks/wrappers/cloudflare/python/container/storage.py:71-77 | the decoded reply, or the text of what failed |
| Storage.UploadRequest | benchmarks/wrappers/cloudflare/python/container/storage.py:65-69 | a POST of the bytes to /r2/upload with the bucket and key |
| Storage.UploadResult | benchmarks/wrappers/cloudflare/python/container/storage.py:71-77 | the reply's 'key', or "Failed to upload to R2" |
| Storage.UploadStream | benchmarks/wrappers/cloudflare/python/container/storage.py:47-77 | the key when R2 is off; an error without a URL; otherwise one POST |
| Storage.UploadWithKey | benchmarks/wrappers/cloudflare/python/container/storage.py:116-146 | the same request, returning nothing |
| Storage.UploadsAgree | benchmarks/wrappers/cloudflare/python/container/storage.py:47-146 | both uploads send the same request and fail together |
| Storage.Upload | benchmarks/wrappers/cloudflare/python/container/storage.py:103-114 | an unreadable file raises before sending; otherwise the unique key is returned |
| Storage.DownloadRequest | benchmarks/wrappers/cloudflare/python/container/storage.py:88-92 | a GET of /r2/download with the SeBS User-Agent |
| Storage.DownloadStream | benchmarks/wrappers/cloudflare/python/container/storage.py:79-101 | the bytes; 404 is "Object not found", every other failure "Failed to download from R2" |
| Storage.DownloadAsWritten | benchmarks/wrappers/cloudflare/python/container/storage.py:148-153 | succeeds iff the fetch does, the path has a directory part and `open` accepts the path |
| Storage.BareFileNameFails | benchmarks/wrappers/cloudflare/python/container/storage.py:151 | a bare file name is fetched and then never written |
| Storage.Download | benchmarks/wrappers/cloudflare/python/container/storage.py:148-153 | succeeds iff the fetch does and `open` accepts the path; then the fetched bytes are written to it, otherwise nothing is written, and an empty path or one ending in '/' raises `open`'s error after the fetch |
| Storage.DownloadAgreesWithAsWritten | benchmarks/wrappers/cloudflare/python/container/storage.py:148-153 | wherever the path has a directory part, both definitions agree |
| Storage.RelPath | benchmarks/wrappers/cloudflare/python/container/storage.py:184-186 | a suffix of the key: the prefix and leading '/' removed when the key starts with a non-empty prefix |
| Storage.RelPathOf | benchmarks/wrappers/cloudflare/python/container/storage.py:186 | a key made of a non-empty prefix, any number of '/' and a name not starting with '/' gives exactly that name |
| Text.StripLeftRun | benchmarks/wrappers/cloudflare/python/container/storage.py:186 | `lstrip` removes a run of stripped characters and stops at the first kept one |
| Storage.ListRequest | benchmarks/wrappers/cloudflare/python/container/storage.py:167-172 | a GET of /r2/list with the SeBS User-Agent |
| Storage.ObjectList | benchmarks/wrappers/cloudflare/python/container/storage.py:176 | the 'objects' entry, [] when missing; a non-dict reply raises |
| Storage.ObjectKey | benchmarks/wrappers/cloudflare/python/container/storage.py:182 | an object's string 'key' |
| Storage.DownloadAll | benchmarks/wrappers/cloudflare/python/container/storage.py:181-203 | any failure becomes "Failed to download directory"; each object goes through `download`, in its corrected form, which DirectoryDownloadAgrees shows is the same here |
| Storage.DownloadDirectorySpec | benchmarks/wrappers/cloudflare/python/container/storage.py:155-203 | an error without a URL or local path; otherwise the list request first, the local path on success, and every failure a RuntimeError starting "Failed to download directory: " |
| Storage.DownloadObjects | benchmarks/wrappers/cloudflare/python/container/storage.py:181-197 | the loop's requests, written files and result equal those of the specification function DownloadAll |
| Storage.DownloadDirectory | benchmarks/wrappers/cloudflare/python/container/storage.py:155-203 | `download_directory` with its loop computes the specification |
| Storage.DownloadAllCounts | benchmarks/wrappers/cloudflare/python/container/storage.py:181-197 | on success each object is fetched once and written once |
| Storage.DownloadAllFirst | benchmarks/wrappers/cloudflare/python/container/storage.py:182-197 | the first file written is the local file of the first object's key and holds that object's fetched bytes, and the rest come from the remaining objects |
| Storage.DownloadAllTargets | benchmarks/wrappers/cloudflare/python/container/storage.py:182-197 | the k-th file written is the local file of the k-th object's key and holds that object's fetched bytes |
| Storage.DirectoryMarkerFails | benchmarks/wrappers/cloudflare/python/container/storage.py:184-203 | a directory-marker key (the prefix and a '/') maps to the local directory itself, so the directory download fails after the fetch with nothing written |
| Storage.LocalFileUnderPath | benchmarks/wrappers/cloudflare/python/container/storage.py:184-188 | a key under a non-empty prefix lands inside the local directory |
| Storage.LocalFile | benchmarks/wrappers/cloudflare/python/container/storage.py:184-188 | `os.path.join` of the directory and the key relative to the prefix |
| Storage.LocalFileHasDirectory | benchmarks/wrappers/cloudflare/python/container/storage.py:187-191 | under a non-empty directory every local file has a directory part |
| Storage.DirectoryDownloadAgrees | benchmarks/wrappers/cloudflare/python/container/storage.py:187-196 | inside `download_directory` the as-written `download` equals the corrected one |
| ContainerRegistry.AuthHeaders | sebs/cloudflare/container.py:48-60 | only an API token is accepted, as a bearer token |
| ContainerRegistry.EmailKeyRefused | sebs/cloudflare/container.py:54-60 | e-mail and key alone are refused |
| ContainerRegistry.RegistryName | sebs/cloudflare/container.py:62-95 | fails iff the account id is missing; otherwise the registry, repository, tag and URI |
| ContainerRegistry.RegistryNameShape | sebs/cloudflare/container.py:85-90 | the repository starts "sebs-" with no '_', the tag has no '.', neither has upper case |
| ContainerRegistry.PushName | sebs/cloudflare/container.py:198-205 | the URI up to its first ':', then the tag |
| ContainerRegistry.PushNameReplacesTag | sebs/cloudflare/container.py:198-205 | a tag already in the URI is dropped |
| ContainerRegistry.PushNameOfRegistryUri | sebs/cloudflare/container.py:198-205 | pushing a registry URI with its own tag pushes exactly that URI |
| ContainerRegistry.PushImage | sebs/cloudflare/container.py:186-245 | fails without a token; otherwise runs the push of the full name and reports its failure |
| ContainerRegistry.TagIn | sebs/cloudflare/container.py:174 | `in` on the 'tags' entry: list membership, substring or dict key |
| ContainerRegistry.SearchFindsTag | sebs/cloudflare/container.py:173-179 | with well-formed images, the search answers whether some image lists the tag |
| ContainerRegistry.Search | sebs/cloudflare/container.py:173-179 | true only when some image lists the tag; false only when none does; a failure comes from some image |
| ContainerRegistry.ImagesOf | sebs/cloudflare/container.py:173 | the images under 'result', [] when missing |
| ContainerRegistry.FindImageSpec | sebs/cloudflare/container.py:143-184 | fails without a token; a 404, an error status, a bad body or a failed request give false; otherwise the tag search over the images |
| ContainerRegistry.ImagesUrl | sebs/cloudflare/container.py:155-158 | the images endpoint of the account and repository |
| ContainerRegistry.FindImage | sebs/cloudflare/container.py:143-184 | the loop computes the specification |
| Wrangler.Vars | sebs/cloudflare/workers.py:116-121 | the benchmark name when set, the NoSQL backend when used, nothing else |
| Wrangler.R2Buckets | sebs/cloudflare/workers.py:129-132 | one binding named R2 for the bucket |
| Wrangler.WithVars | sebs/cloudflare/workers.py:116-121 | the vars rule holds, and every other key is kept |
| Wrangler.WithR2 | sebs/cloudflare/workers.py:124-138 | the R2 rule holds, and every other key is kept |
| Wrangler.WithVarsAndR2 | sebs/cloudflare/workers.py:115-138 | both rules hold, and every key other than vars and r2_buckets is kept |
| Workers.MainFile | sebs/cloudflare/workers.py:92 | dist/handler.js exactly for nodejs, handler.py otherwise |
| Workers.ApplyLanguage | sebs/cloudflare/workers.py:96-113 | nodejs gets its flag, no_bundle, build and rules; python its flag; others nothing; other keys kept |
| Workers.GenerateWorkerConfig | sebs/cloudflare/workers.py:90-138 | the config built step by step equals the specification function WorkerConfig |
| Workers.LanguageBlockKept | sebs/cloudflare/workers.py:96-113 | a later step that keeps the language entries keeps the language block |
| Workers.WorkerConfig | sebs/cloudflare/workers.py:90-138 | the native-worker config; its properties are stated by WorkerConfigBasics, WorkerConfigLanguage and WorkerConfigVarsAndR2 |
| Workers.WorkerConfigBasics | sebs/cloudflare/workers.py:90-93 | name, main and account set; every other template entry kept |
| Workers.WorkerConfigLanguage | sebs/cloudflare/workers.py:95-113 | the language block holds in the final config; an unknown language keeps the template's compatibility flags |
| Workers.WorkerConfigVarsAndR2 | sebs/cloudflare/workers.py:115-138 | the vars and R2 rules hold between the template and the final config |
| Workers.KeysDistinct | sebs/cloudflare/workers.py:91-129 | the keys the method sets are pairwise different |
| Workers.NeededPackages | sebs/cloudflare/workers.py:294-297 | the loop computes the filter |
| Workers.Needed | sebs/cloudflare/workers.py:294-297 | the filter; NeededMembers and AllMentionedAllNeeded state what it keeps |
| Workers.NeededMembers | sebs/cloudflare/workers.py:263-297 | a package is needed iff it is supported and mentioned case-insensitively |
| Workers.AllMentionedAllNeeded | sebs/cloudflare/workers.py:294-297 | when all are mentioned, all are needed, in list order |
| Workers.ReplaceCharConcat | sebs/cloudflare/workers.py:300 | replacing a character distributes over concatenation |
| Workers.ReplaceCharJoin | sebs/cloudflare/workers.py:300 | replacing quotes in a joined list replaces them in each element |
| Workers.DependencyString | sebs/cloudflare/workers.py:300 | the dependency text; DependencyStringIsTomlArray states that it is a TOML array of double-quoted names |
| Workers.DependencyStringIsTomlArray | sebs/cloudflare/workers.py:300-308 | the dependency list is a TOML array of double-quoted names |
| Workers.ProjectName | sebs/cloudflare/workers.py:304 | no '.', the "<benchmark>-python-" prefix, then the version with its dots removed |
| Workers.ProjectNameOfVersion | sebs/cloudflare/workers.py:304 | a "major.minor" version appears as major followed by minor ("3.11" gives "311") |
| Text.RemoveCharConcat | sebs/cloudflare/workers.py:304 | `replace(c, "")` distributes over concatenation |
| Text.RemoveCharAbsent | sebs/cloudflare/workers.py:304 | `replace(c, "")` leaves a string without `c` unchanged |
| Text.RemoveDot | sebs/cloudflare/workers.py:304 | removing '.' from "major.minor" gives major followed by minor |
| Workers.PyprojectFor | sebs/cloudflare/workers.py:300-308 | the project name, the Python requirement and the dependency array of the generated file |
| Workers.MoveIntoFunction | sebs/cloudflare/workers.py:321-325 | the loop computes the moves |
| Workers.Moves | sebs/cloudflare/workers.py:321-325 | the moves; MovedExactly and PathJoinInjective state which entries move and where |
| Workers.MovedExactly | sebs/cloudflare/workers.py:321-325 | an entry is moved under function/ iff listed and not kept |
| Workers.PathJoinInjective | sebs/cloudflare/workers.py:324-325 | joining one directory to two names gives two paths |
| Workers.CheckPackage | sebs/cloudflare/workers.py:329-364 | unsupported languages fail with their message; otherwise it succeeds iff the handler file exists, and returns the package directory |
| Containers.SetInFirst | sebs/cloudflare/containers.py:105 | sets the key in the first table only |
| Containers.Bindings | sebs/cloudflare/containers.py:115-119 | one KVApiObject binding per table, in order |
| Containers.InstanceTyped | sebs/cloudflare/containers.py:101-105 | "standard-4" for high-resource benchmarks, failing on a template without containers; other keys kept |
| Containers.AppendBindings | sebs/cloudflare/containers.py:116 | bindings appended; the rest kept |
| Containers.AppendNothing | sebs/cloudflare/containers.py:115-119 | appending nothing changes nothing |
| Containers.AppendTwice | sebs/cloudflare/containers.py:115-119 | two appends are one append of both |
| Containers.Bound | sebs/cloudflare/containers.py:115-119 | fails iff some table exists and the bindings list does not |
| Containers.BindTables | sebs/cloudflare/containers.py:115-119 | the loop computes `Bound` |
| Containers.WithKVClass | sebs/cloudflare/containers.py:122 | KVApiObject appended to the SQLite classes; failure iff missing; other keys kept |
| Containers.KeysDistinct | sebs/cloudflare/containers.py:97-138 | the keys the method sets are pairwise different |
| Containers.Prepare | sebs/cloudflare/containers.py:96-122 | the name, account, instance-type and NoSQL steps, step by step, equal the specification function Prepared |
| Containers.GenerateContainerConfig | sebs/cloudflare/containers.py:96-147 | the container config built step by step equals the specification function ContainerConfig |
| Containers.PreparedNamed | sebs/cloudflare/containers.py:97-98 | when the early steps succeed, the name and account are set |
| Containers.PreparedTables | sebs/cloudflare/containers.py:107-122 | the early steps append one binding per table in order and register KVApiObject once; without tables both entries are kept |
| Containers.SameShapes | sebs/cloudflare/containers.py:105-122 | each shape test depends only on the entry it indexes |
| Containers.PreparedFits | sebs/cloudflare/containers.py:97-122 | the steps before vars and R2 succeed iff the template fits |
| Containers.PreparedKeeps | sebs/cloudflare/containers.py:97-122 | those steps touch only their own keys |
| Containers.ContainerConfigFails | sebs/cloudflare/containers.py:61-161 | fails iff the template lacks an entry a running step indexes |
| Containers.Prepared | sebs/cloudflare/containers.py:96-122 | the name, account, instance-type and NoSQL steps; PreparedNamed, PreparedTables, PreparedFits and PreparedKeeps state them |
| Containers.ContainerConfig | sebs/cloudflare/containers.py:96-147 | the vars and R2 steps never fail: it succeeds exactly when the prepared config does |
| Containers.ContainerConfigBasics | sebs/cloudflare/containers.py:97-98 | name and account set; every other key kept |
| Containers.ContainerConfigInstanceType | sebs/cloudflare/containers.py:101-105 | "standard-4" exactly for the high-resource benchmarks |
| Containers.ContainerConfigTables | sebs/cloudflare/containers.py:108-122 | with NoSQL tables, one binding per table is appended in order; without, 'durable_objects' is kept |
| Containers.ContainerConfigVarsAndR2 | sebs/cloudflare/containers.py:125-147 | the vars and R2 rules hold |
| Containers.LocalImageTag | sebs/cloudflare/containers.py:432-433 | the benchmark-language prefix, the version with its dots removed, then ":latest" |
| Containers.LocalImageTagOfVersion | sebs/cloudflare/containers.py:432-433 | a "major.minor" version appears as major followed by minor before ":latest" |
| Containers.PythonTagIsProjectName | sebs/cloudflare/containers.py:432-433 | the Python image is named like the worker's pyproject project |
| Containers.RewriteFile | sebs/cloudflare/containers.py:287-294 | the name is kept, wrapper files are unchanged, the text never grows |
| Containers.ReplaceAllShrinks | sebs/cloudflare/containers.py:292 | replacing by a shorter text never lengthens |
| Containers.RewriteImports | sebs/cloudflare/containers.py:286-294 | every file is rewritten by the rule |
| Containers.NoRelativeImportUnchanged | sebs/cloudflare/containers.py:292 | a file without relative imports keeps its text |
| Containers.LeadingRelativeImport | sebs/cloudflare/containers.py:292 | a leading relative import becomes a plain import |
| Containers.RunLength | sebs/cloudflare/containers.py:386 | the leading run of non-whitespace |
| Containers.LastWheelEnd | sebs/cloudflare/containers.py:386 | the last ".whl" end within the run |
| Containers.WheelMatch | sebs/cloudflare/containers.py:386 | the greedy match: the longest non-whitespace stretch ending in ".whl" |
| Containers.SubWheelsWithoutPrefix | sebs/cloudflare/containers.py:385-389 | text without the wheel host is unchanged |
| Containers.WheelLine | sebs/cloudflare/containers.py:385-389 | a wheel URL followed by whitespace becomes "torch" |
| Containers.SubWheels | sebs/cloudflare/containers.py:385-389 | the substitution never lengthens the text |
| Containers.FixTorchUrls | sebs/cloudflare/containers.py:383-390 | the requirements rewrite never lengthens the text |
| Containers.WheelMatchOf | sebs/cloudflare/containers.py:385-389 | the greedy wheel pattern matches the whole wheel name, up to the whitespace after it |
| Containers.RunLengthOf | sebs/cloudflare/containers.py:386 | the run length is the first whitespace position |
| Containers.FixTorchUrlsNoWheel | sebs/cloudflare/containers.py:383-390 | requirements without a wheel URL are unchanged |
| PlotComparison.Components | plot_comparison.py:20 | no empty or "." component survives |
| PlotComparison.ComponentsConcat | plot_comparison.py:20 | component filtering distributes over concatenation |
| PlotComparison.ExperimentName | plot_comparison.py:20-22 | succeeds iff the path has at least three parts |
| PlotComparison.BenchmarkAndRemainder | plot_comparison.py:25-26 | the benchmark has no '-', and benchmark-'-'-remainder rebuilds the name |
| PlotComparison.ParseExperiment | plot_comparison.py:25-36 | python before nodejs before unknown; container iff mentioned, for a known language |
| PlotComparison.ExtractExperimentInfo | plot_comparison.py:18-38 | succeeds iff the path has at least three parts |
| PlotComparison.ExperimentDirectory | plot_comparison.py:20-22 | the experiment is the third component from the end |
| PlotComparison.LabelParts | plot_comparison.py:25-26 | a label splits back into benchmark and remainder |
| PlotComparison.Label | plot_comparison.py:63 | the experiment label; LabelParts and LabelRoundTrip state that it parses back |
| PlotComparison.RemainderMentions | plot_comparison.py:28-33 | what a label's remainder mentions |
| PlotComparison.LabelRoundTrip | plot_comparison.py:25-38 | a label of a known experiment parses back to it |
| PlotComparison.ResultFileInfo | plot_comparison.py:18-38 | a result file in the usual layout is attributed to the experiment its directory names |

## Left out

- File system, subprocess and network effects appear only as oracle parameters or as recorded requests and writes. This covers the writing of `wrangler.toml`, `wrangler deploy`/`containers push`, Docker builds, `os.walk` size totals and logging.
- Package size: the directory walk at sebs/cloudflare/workers.py:354-362 is not modelled.
- Dockerfile rewrites, the `package.json` merge, npm/esbuild steps, the `requirements.txt.<version>` moves, the function_cloudflare.py → function.py move and the `init.sh` copy are not modelled.
- The R2 `Bucket` look-up is an input (`Wrangler.BucketLookup`), because `system_resources.get_storage()` is outside these files.
- A missing `code_package` is modelled as `usesNosql` false.
- Containers.GenerateContainerConfig: the NoSQL tables are passed in as the result of `retrieve_cache` (`Option<Tables>`) instead of calling the registry.
- Containers.ContainerConfigFails: a template missing an entry collapses KeyError, IndexError and TypeError into one failure string.
- HTTPTrigger.sync_invoke is not modelled: it is a network POST.
- `wait_for_durable_object_ready` and the other polling loops are not modelled.
- Python's `str()` of a value, `json.dumps`, `json.loads`, `urlencode`, `parse_qs` and `traceback.format_exc` are oracle functions, not definitions.
- Exception messages that Python writes itself are placeholder strings, such as the KeyError text and "tuple index out of range".
- `lower`, `upper` and `isalnum` are ASCII only.
- `int()` of a string is a plain decimal parser with an optional sign: it does not accept surrounding whitespace, '_' separators or non-ASCII digits.
- `IsPySpace` is Python's Unicode whitespace set, the same for `str.isspace` and the regular-expression class `\s`.
- Triggers.StringField, Triggers.UrlValue, Worker.AccountField, Worker.Deserialize: cached values must have the types `serialize` writes; a non-string name, URL or account id, or an empty `{}` or `""` under "triggers", fails in the model where Python stores or iterates it.
- Storage.Download, Storage.DownloadAll: a write fails only for a path `open` refuses by its text (empty, or ending in '/'); a path that names an existing directory without a trailing '/', a read-only location or a full disk is file-system state and is not modelled.
- Header look-ups in the container handler are case-sensitive; `BaseHTTPRequestHandler` headers are not.
- Metrics: `cpu_time_ms` is a real, not a float; rounding of floating-point products is not modelled.
- Metrics.Classify: a string CPU time is read with the plain decimal `int()` above, so a text with '_' separators (which Python's `int()` accepts once repeated) is treated as raising before any assignment, and the limit on the number of digits `int()` converts in recent Python versions is not modelled.
- Aliasing is not modelled: the dict returned by `get_tables`, and `ExecutionResult` objects shared between requests, are copies.
- Base-class fields of `serialize` in `Function`, `Trigger` and `Resources` are passed in as the `base` map (`Config.Resources.Serialize` takes it as `base`, `Config.CloudflareConfig.Serialize` as `resourcesBase`).
- Config.Resources.Initialize: the base-class `Resources.initialize` call at sebs/cloudflare/config.py:136 is not modelled, because the base class and its fields are not part of this model; only the namespace id is read.
- The storage client's `r2_enabled` is always true after construction and is not otherwise changed.
- UTF-8 decoding errors are oracle results.
- The non-container `storage.py` and `nosql.py` of the worker are not modelled, and neither is `storage.init_instance(self)` in the worker's `fetch`.
- pathlib's special "//" root is not modelled.
- DurableObjects: `_get_auth_headers` at sebs/cloudflare/durable_objects.py:42-56 is the same rule as sebs/cloudflare/cloudflare.py:88-102 and is modelled once, as `Cloudflare.AuthHeaders`.

## Findings

| source | as written | input that shows it | evidently intended | confidence | as-written member | corrected member |
|---|---|---|---|---|---|---|
| benchmarks/wrappers/cloudflare/python/container/storage.py:148-153 | `download` calls `os.makedirs(os.path.dirname(filepath))`, which raises for a file name without a directory, after the object has been fetched | filepath "out.bin" | create the parent directory only when there is one, as `download_directory` does at lines 191-193 | medium, not executed | Storage.DownloadAsWritten, Storage.BareFileNameFails | Storage.Download, Storage.DownloadAgreesWithAsWritten |
