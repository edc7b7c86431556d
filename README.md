# Trae Agent performance registries, modelled in Dafny

This project models the five in-memory registries that Trae Agent's utility
layer uses to speed up start-up and repeated work, and proves what each one
promises:

- **Configuration cache** (`config_cache.dfy`, module `ConfigCache`). It maps an
  absolute path to a cached configuration and keeps hit, miss, invalidation
  and eviction counters. A lookup hits only when four checks pass in order:
  age within the TTL, the file exists, its mtime matches, its content hash
  matches. Any failed check deletes the entry. Storing into a full cache first
  evicts a least recently accessed entry. `optimize_cache` drops entries that
  are too old or idle for more than half the TTL.
- **Lazy tool loading** (`lazy_tools.dfy`, module `LazyTools`). The loader builds a
  registered tool on its first request and keeps that one instance while it
  stays instantiated. It counts every access, rejects unknown names, passes on
  a constructor's exception without storing anything, and evicts rarely used
  instances. A later request for an evicted tool builds it anew. A proxy gives its name without
  loading and caches the instance it resolves. The manager hands out one
  proxy per name and prunes proxies whose tool is gone.
- **Optimised trajectory recorder** (`trajectory_recorder.dfy`, module
  `TrajectoryRecorder`). It is an append-only journal of one agent run. LLM
  interactions are kept in an oldest-first window bounded by
  `max_interactions`. A batch counter triggers a whole-trajectory save every
  `batch_size` records and resets to 0. Finalising always saves. It also holds
  the JSON serialisation of messages, tool calls and tool results, each proved
  to read back unchanged.
- **Connection pool** (`connection_pool.dfy`, module `ConnectionPool`). It is a
  get-or-create registry of HTTP clients keyed by `provider:base_url`. Other
  parts:
  - the per-provider authentication header table (Bearer credentials as in
    section 2.1 of RFC 6750; Anthropic's `x-api-key` and version header);
  - the timeout table;
  - `close_all`;
  - the Server-Sent Events `data: ` line filter of the streaming call;
  - the request counters.
- **Dynamic client imports** (`dynamic_imports.dfy`, module `DynamicImports`).
  It holds the static table of seven providers, an availability cache and a
  loaded-class cache.
  - Available and missing providers partition the table.
  - Loading reports its errors in a fixed order.
  - Install suggestions skip unknown names.

`common.dfy` (module `Common`) holds the shared `Option` type, `Max` and
`StartsWith`.

The outside world is replaced by inputs:
- The clock is an integer `now` parameter in whole seconds.
- The filesystem is a `FileView` value: missing, or present with an mtime and
  an optional content digest.
- The time a tool takes to build is a `loadDuration` function.
- Which registered tool classes raise when constructed is a fixed set
  `unbuildable`.
- Whether constructing an HTTP client returns or raises is a `constructs`
  argument of each call that may build one.
- How the n-th trajectory write ends is a `writeOutcome` function: the file
  cannot be opened, the snapshot is written in full, or the file was opened
  (which empties it) and the JSON dump then failed part way.
- `importlib` is a `packageImportable` predicate plus an `importModule`
  function; a module import succeeds, raises `ImportError`, or raises another
  exception.
- Building a `Config` from the file is an optional `loaded` argument, absent
  when the constructor raises.
- An LLM response is an opaque type parameter.
- A save of the trajectory appends a snapshot to the ghost sequence `saves`.
  The ghost `file` is what the trajectory file holds: untouched, a complete
  snapshot, or the truncated start of one.

Each registry is a class. Its methods update the fields in place, and each
method's postcondition gives every field it may change (including the ghost
logs `constructed`, `probes`, `saves` and `file`) in terms of the old state.
The pure decisions (validation
order, key formation, header and timeout tables, sliding window, batch
cadence, serialisation, provider partition) are functions with lemmas
relating them to their partners.

Two consequences of the code that the model states outright:
- An entry stored for a file that does not exist (hash "", mtime 0) is
  deleted by any lookup made while the file is still missing
  (config_cache.py:86-90), so it never hits. `ConfigCache.StoredEntryValidation`
  states this.
- A file that cannot be read hashes to "" (config_cache.py:156-160). If it is
  unreadable both when stored and when looked up, the two hashes are equal and
  the lookup hits (config_cache.py:100-101).

## Model

| member | source | states |
|---|---|---|
| `ConfigCache.FileHash` | trae_agent/utils/config_cache.py:154-160 | A readable file hashes to its digest; a non-empty hash only comes from a readable file, so a missing or unreadable file hashes to "" |
| `ConfigCache.Validate` | trae_agent/utils/config_cache.py:78-105 | Each verdict holds exactly when its check is the first to fail, in the order TTL, existence, mtime, hash; a hit means all four passed; an age equal to the TTL still passes |
| `ConfigCache.NewEntry` | trae_agent/utils/config_cache.py:127-146 | The stored entry holds the configuration, the file's hash ("" when missing or unreadable), its mtime (0 when missing), cache time and last access now, and access count 1 |
| `ConfigCache.StoredEntryValidation` | trae_agent/utils/config_cache.py:128-146 | An entry stored from an existing file hits while the file is unchanged until its age passes the TTL; an entry stored for a missing file never hits while the file stays missing |
| `ConfigCache.OldestKey` | trae_agent/utils/config_cache.py:197 | Returns a key of a non-empty cache whose `last_access` is minimal |
| `ConfigCache.ConfigurationCache.constructor` | trae_agent/utils/config_cache.py:39-55 | Empty cache, all four counters 0, given size bound and TTL |
| `ConfigCache.ConfigurationCache.GetConfig` | trae_agent/utils/config_cache.py:57-113 | Absent key: None, only `misses` +1, cache unchanged. Hit: the payload; only that entry's access count +1 and last access = now, `hits` +1. Any failed check: None, only that entry deleted, `invalidations` and `misses` +1. Keeps the size bound |
| `ConfigCache.ConfigurationCache.EvictOldestEntry` | trae_agent/utils/config_cache.py:192-199 | No-op on an empty cache; otherwise exactly one entry with minimal last access is removed and `evictions` +1 |
| `ConfigCache.ConfigurationCache.CacheConfig` | trae_agent/utils/config_cache.py:115-152 | With size at least the maximum, a least recently accessed entry is evicted first (also when the key is already present); the new entry has access count 1 and last access now, hash "" and mtime 0 for a missing file; the size never exceeds max(maximum, 1) |
| `ConfigCache.ConfigurationCache.ClearCache` | trae_agent/utils/config_cache.py:201-203 | Empties the cache and keeps the counters |
| `ConfigCache.ConfigurationCache.CollectStale` | trae_agent/utils/config_cache.py:232-238 | The collected keys are exactly those of the entries older than the TTL or idle for more than half of it |
| `ConfigCache.ConfigurationCache.RemoveKeys` | trae_agent/utils/config_cache.py:240-241 | Exactly the given keys are deleted from the cache; counters unchanged |
| `ConfigCache.ConfigurationCache.OptimizeCache` | trae_agent/utils/config_cache.py:229-246 | Removes exactly the entries older than the TTL or idle for more than half of it; removed + remaining equals the previous size; counters unchanged |
| `ConfigCache.LoadConfigCached` | trae_agent/utils/config_cache.py:259-283 | A valid cached entry is returned; only its access count +1 and last access now, `hits` +1. Otherwise `misses` +1, `invalidations` +1 when a stale entry was dropped, and the entry (if any) is deleted. Then, when building the configuration raises, nothing is returned and nothing more changes; otherwise a least recently accessed entry is evicted when the rest is full (`evictions` +1), and the fresh configuration is stored as a new entry and returned. A configuration is returned exactly when the key is cached afterwards |
| `LazyTools.Tool.constructor` | trae_agent/utils/lazy_tools.py:40-41 | The tool is built from the given class with the given model provider |
| `LazyTools.KnownPrefix` | trae_agent/utils/lazy_tools.py:60-63 | The number of leading names that all lie in the given set; the next name, if any, does not |
| `LazyTools.FirstUsesBuildOnce` | trae_agent/utils/lazy_tools.py:33-46 | Within one run of lookups the tools built are distinct, and are exactly the requested names that were not instantiated before |
| `LazyTools.ConsistentAfterLoad` | trae_agent/utils/lazy_tools.py:39-49 | Building a registered tool with the registered class and counting it once keeps the loader invariant |
| `LazyTools.ConsistentAfterAccess` | trae_agent/utils/lazy_tools.py:49 | One more access to an instantiated tool keeps the loader invariant |
| `LazyTools.ConsistentAfterRemoval` | trae_agent/utils/lazy_tools.py:94-99 | Removing the same names from instances, counters and load times keeps the loader invariant |
| `LazyTools.LazyToolLoader.constructor` | trae_agent/utils/lazy_tools.py:24-29 | Given registry, provider and the classes that raise when constructed; nothing instantiated, counted or timed |
| `LazyTools.LazyToolLoader.LoadTool` | trae_agent/utils/lazy_tools.py:39-46 | A fresh instance of the registered class for the loader's provider is stored, its load time recorded; its access counter is left absent, which reads as 0, and the caller `get_tool` then stores 1 |
| `LazyTools.LazyToolLoader.GetTool` | trae_agent/utils/lazy_tools.py:31-50 | An instantiated name returns the identical instance with one more access. Otherwise an unknown name fails with the registered names, and a registered one whose constructor raises fails with that error; both change nothing. Succeeds exactly for a registered name whose class constructs; a new one is built exactly once, with count 1. Instances stay within the registry, never include a class that raises, and counters and load times cover exactly the instances |
| `LazyTools.LazyToolLoader.ResolveCounted` | trae_agent/utils/lazy_tools.py:62-63 | One `get_tool` call: succeeds exactly for a registered name whose class constructs, which is added to the instances with one more access to that name only; a name not yet instantiated is built (fresh, logged once, with its load time), an instantiated one keeps its instance and load time; failure (unknown name or raising constructor) changes nothing |
| `LazyTools.LazyToolLoader.ResolvePrefix` | trae_agent/utils/lazy_tools.py:62-63 | The loop of `preload_tools`: resolves exactly the longest prefix of the names that are registered and construct, stopping at the first that raises, with the same effects on instances, counts, load times and the build log as `PreloadTools` |
| `LazyTools.LazyToolLoader.PreloadTools` | trae_agent/utils/lazy_tools.py:60-63 | Resolves names in order up to the first one that raises, whose error is passed on: unknown (with the registered names) or a constructor failure; none when all resolve. The instances gain exactly the names before it, each count rises by its occurrences among them, existing instances and load times stay, and the build log grows by exactly the newly instantiated names in order of first request, each fresh with its load duration |
| `LazyTools.LazyToolLoader.DropTool` | trae_agent/utils/lazy_tools.py:94-99 | An instantiated name loses its instance, counter and load time; any other name changes nothing |
| `LazyTools.LazyToolLoader.DropAll` | trae_agent/utils/lazy_tools.py:94-99 | Instances, counters and load times each lose exactly the given names |
| `LazyTools.LazyToolLoader.CleanupUnusedTools` | trae_agent/utils/lazy_tools.py:87-101 | Removes exactly the tools counted below the threshold with their counters and load times, leaves the others untouched, returns the number selected, keeps the invariant |
| `LazyTools.LazyToolProxy.constructor` | trae_agent/utils/lazy_tools.py:112-115 | Name and loader recorded, nothing loaded |
| `LazyTools.LazyToolProxy.Name` | trae_agent/utils/lazy_tools.py:123-126 | Returns the name and changes nothing, so it never loads |
| `LazyTools.LazyToolProxy.EnsureLoaded` | trae_agent/utils/lazy_tools.py:117-121 | A cached instance is returned without consulting the loader. Otherwise the loader is asked once: an unknown name or a raising constructor passes its error on, leaves the proxy unloaded and the loader unchanged; success (exactly for a registered name whose class constructs) caches the instance with `get_tool`'s effects: an existing instance keeps its load time and is not rebuilt, a new one is fresh, of the registered class, timed and logged once |
| `LazyTools.OptimizedToolManager.constructor` | trae_agent/utils/lazy_tools.py:152-155 | A fresh empty loader over the registry, provider, load durations and raising classes given, and no proxies |
| `LazyTools.OptimizedToolManager.GetToolsList` | trae_agent/utils/lazy_tools.py:157-164 | One proxy per requested name, in order; existing proxies are reused, new ones are fresh and unloaded; the proxy map gains exactly the requested names |
| `LazyTools.OptimizedToolManager.GetToolByName` | trae_agent/utils/lazy_tools.py:166-168 | The loader's `get_tool`, proxies untouched: an unknown name and a raising constructor fail with their errors and change nothing; success exactly for a registered name whose class constructs; an instantiated one is returned with one more access and no rebuild; a new one is built fresh once, timed and logged |
| `LazyTools.OptimizedToolManager.DropProxies` | trae_agent/utils/lazy_tools.py:209-211 | The proxy map loses exactly the given names |
| `LazyTools.OptimizedToolManager.OptimizeMemory` | trae_agent/utils/lazy_tools.py:200-216 | Cleans up with threshold 2, then drops exactly the proxies whose name is no longer instantiated, returning both counts |
| `TrajectoryRecorder.ToolCallRoundTrip` | trae_agent/utils/trajectory_recorder_optimized.py:259-266 | A serialised tool call reads back as the same call |
| `TrajectoryRecorder.ToolResultRoundTrip` | trae_agent/utils/trajectory_recorder_optimized.py:268-276 | A serialised tool result reads back as the same result |
| `TrajectoryRecorder.SerializeMessage` | trae_agent/utils/trajectory_recorder_optimized.py:247-257 | `role` and `content` always come first; `tool_call` and `tool_result` keys appear exactly when the message has them; the object reads back as the same message |
| `TrajectoryRecorder.SerializeMessages` | trae_agent/utils/trajectory_recorder_optimized.py:103 | One serialised object per message, in order, each reading back as its message |
| `TrajectoryRecorder.NonEmpty` | trae_agent/utils/trajectory_recorder_optimized.py:158-160 | A list is recorded exactly when present and non-empty, and then unchanged |
| `TrajectoryRecorder.Window` | trae_agent/utils/trajectory_recorder_optimized.py:132-137 | Without a truthy limit the item is appended; with one, a list within the limit stays within it, and when full the oldest item is dropped and the rest keep their order |
| `TrajectoryRecorder.AppendAllKeepsNewest` | trae_agent/utils/trajectory_recorder_optimized.py:132-137 | With limit k, any sequence of appends to a list that fits leaves exactly the newest k items of everything, in order |
| `TrajectoryRecorder.RecordedWindow` | trae_agent/utils/trajectory_recorder_optimized.py:135-137 | From an empty list, the window holds the last min(k, n) of n recorded interactions |
| `TrajectoryRecorder.BatchCadence` | trae_agent/utils/trajectory_recorder_optimized.py:193-201 | After n record calls from a counter c below the batch size, the number of saves and the counter are the quotient and remainder of c + n by the batch size |
| `TrajectoryRecorder.Tick` | trae_agent/utils/trajectory_recorder_optimized.py:190-201 | After one record call the counter is either one more and still below the batch size, or back to 0 exactly when it reached the batch size |
| `TrajectoryRecorder.Ticks` | trae_agent/utils/trajectory_recorder_optimized.py:190-201 | n record calls save at most n times and keep a non-negative counter non-negative |
| `TrajectoryRecorder.FileAfterWrites` | trae_agent/utils/trajectory_recorder_optimized.py:223-233 | After a series of saves the file is untouched exactly when no attempt got it open; otherwise it holds the snapshot of the last attempt that did, complete exactly when that attempt finished writing |
| `TrajectoryRecorder.SerializeToolCalls` | trae_agent/utils/trajectory_recorder_optimized.py:179-181 | One object per tool call, in order, each reading back as its call |
| `TrajectoryRecorder.SerializeToolResults` | trae_agent/utils/trajectory_recorder_optimized.py:182-184 | One object per tool result, in order, each reading back as its result |
| `TrajectoryRecorder.DefaultPath` | trae_agent/utils/trajectory_recorder_optimized.py:42-44 | The default file name is `trajectory_`, the timestamp, then `.json` |
| `TrajectoryRecorder.StepRecord` | trae_agent/utils/trajectory_recorder_optimized.py:154-187 | Empty or absent lists are recorded as None; messages, tool calls and tool results are serialised one per element, each reading back unchanged; step number, state, timestamp, response, reflection and error are kept |
| `TrajectoryRecorder.ExecutionTime` | trae_agent/utils/trajectory_recorder_optimized.py:211-213 | 0 when recording never started, otherwise start time + result = end time |
| `TrajectoryRecorder.OptimizedTrajectoryRecorder.constructor` | trae_agent/utils/trajectory_recorder_optimized.py:27-71 | The given or default path, counter 0, the empty trajectory, no start time, nothing saved, the file untouched |
| `TrajectoryRecorder.OptimizedTrajectoryRecorder.SaveTrajectory` | trae_agent/utils/trajectory_recorder_optimized.py:223-233 | Writes a snapshot of the whole trajectory: the file holds it when the write completes, is unchanged when it cannot be opened, and holds a truncated snapshot when the dump fails; no failure is reported; the file stays the fold of all write attempts; nothing else changes |
| `TrajectoryRecorder.OptimizedTrajectoryRecorder.MaybeSaveTrajectory` | trae_agent/utils/trajectory_recorder_optimized.py:193-201 | Saves (with the file as after one write attempt) and resets the counter to 0 exactly when it has reached the batch size; otherwise changes nothing |
| `TrajectoryRecorder.OptimizedTrajectoryRecorder.StartRecording` | trae_agent/utils/trajectory_recorder_optimized.py:73-88 | Sets the header, empties both lists, keeps the counter and saves only if the counter already calls for it; then the file is as after that write attempt (complete, unchanged or truncated), and otherwise unchanged |
| `TrajectoryRecorder.OptimizedTrajectoryRecorder.RecordLlmInteraction` | trae_agent/utils/trajectory_recorder_optimized.py:90-140 | The interaction enters the window at the end, the counter ticks once before the save check, and the window bound and counter bound are kept; when a save happens the file is as after that write attempt, and otherwise unchanged |
| `TrajectoryRecorder.OptimizedTrajectoryRecorder.RecordAgentStep` | trae_agent/utils/trajectory_recorder_optimized.py:142-191 | The step is appended (steps are never dropped) and the counter ticks once before the save check; when a save happens the file is as after that write attempt, and otherwise unchanged |
| `TrajectoryRecorder.OptimizedTrajectoryRecorder.FinalizeRecording` | trae_agent/utils/trajectory_recorder_optimized.py:203-221 | Sets end time, success, result and elapsed time, and always saves whatever the counter; the file is as after that write attempt |
| `TrajectoryRecorder.OptimizedTrajectoryRecorder.GetTrajectoryPath` | trae_agent/utils/trajectory_recorder_optimized.py:278-280 | The recorder's path |
| `ConnectionPool.EffectiveUrl` | trae_agent/utils/connection_pool.py:46 | An absent or empty base URL becomes "default"; any other is kept |
| `ConnectionPool.ClientKey` | trae_agent/utils/connection_pool.py:46 | The key is the provider, a colon, then the effective URL |
| `ConnectionPool.ClientKeyInjective` | trae_agent/utils/connection_pool.py:46-48 | For providers without ':', two requests share a pool key exactly when provider and effective URL agree |
| `ConnectionPool.BearerRoundTrip` | trae_agent/utils/connection_pool.py:53 | The token is read back unchanged from the Bearer credential |
| `ConnectionPool.AuthHeaders` | trae_agent/utils/connection_pool.py:50-58 | No or empty key: no headers; openai and google: only `Authorization` carrying the key as a Bearer token; anthropic: only `x-api-key` with the key and `anthropic-version` 2023-06-01; other providers: no headers |
| `ConnectionPool.TimeoutFor` | trae_agent/utils/connection_pool.py:61-83 | openai, anthropic and google read 60, 120 and 90 seconds with connect 10, write 10, pool 5; any other provider gets the caller's timeout throughout |
| `ConnectionPool.TimeoutIgnoresCallerForKnownProviders` | trae_agent/utils/connection_pool.py:80-83 | The caller's timeout changes the profile only for providers outside the table |
| `ConnectionPool.Client.constructor` | trae_agent/utils/connection_pool.py:85-98 | The client keeps its base URL, headers, timeout and limits as passed, with HTTP/2 requested, 3 transport retries, open |
| `ConnectionPool.ConnectionPoolManager.constructor` | trae_agent/utils/connection_pool.py:24 | An empty registry |
| `ConnectionPool.ConnectionPoolManager.GetClient` | trae_agent/utils/connection_pool.py:33-100 | A stored key returns its client whatever the other arguments and changes nothing. For an absent key, a construction that raises returns nothing and stores nothing; otherwise one fresh open client is stored under that key alone, with the provider's headers, timeout profile, the requested limits with 30-second keep-alive, HTTP/2 requested and 3 retries. A client is returned exactly when the key was stored or construction succeeds |
| `ConnectionPool.ConnectionPoolManager.CloseAll` | trae_agent/utils/connection_pool.py:102-108 | Every registered client is closed and the registry is empty |
| `ConnectionPool.PooledOpenAIClient.constructor` | trae_agent/utils/connection_pool.py:126-129 | An absent or empty base URL becomes the OpenAI API URL; no client yet |
| `ConnectionPool.PooledOpenAIClient.GetPooledClient` | trae_agent/utils/connection_pool.py:131-141 | Later calls reuse the kept client without touching the pool. The first call takes the pool's "openai" client for its URL: a stored one leaves the pool unchanged; a construction that raises leaves the wrapper without a client and the pool unchanged; otherwise exactly one fresh open client is added and kept, with the OpenAI Bearer header for its key, the openai timeout profile, 15 connections, 8 keep-alive, 30-second expiry, HTTP/2 requested and 3 retries |
| `ConnectionPool.DataPayloads` | trae_agent/utils/connection_pool.py:167-169 | At most one payload per response line |
| `ConnectionPool.PayloadsRestore` | trae_agent/utils/connection_pool.py:167-169 | Putting `data: ` back on every payload gives exactly the response's data lines, in order |
| `ConnectionPool.StreamPayloads` | trae_agent/utils/connection_pool.py:155-169 | The streaming loop yields exactly the payloads of the data lines, in order |
| `ConnectionPool.ReuseRate` | trae_agent/utils/connection_pool.py:191-193 | 0 without requests; otherwise between 0 and 100 percent when reuses do not exceed requests, 100 when every request reused |
| `ConnectionPool.ConnectionPoolMetrics.constructor` | trae_agent/utils/connection_pool.py:176-180 | All counters and times 0 |
| `ConnectionPool.ConnectionPoolMetrics.RecordRequest` | trae_agent/utils/connection_pool.py:182-189 | One more request, one more reuse exactly when reused, duration added; reuses never exceed requests and the average is total over count |
| `DynamicImports.TableShape` | trae_agent/utils/dynamic_imports.py:44-87 | Seven distinct providers in table order, exactly those with a row |
| `DynamicImports.OpenAICompatibleShareOpenAIPackage` | trae_agent/utils/dynamic_imports.py:69-86 | azure, openrouter and doubao have rows that need the openai package and its install command |
| `DynamicImports.ProvidersPartition` | trae_agent/utils/dynamic_imports.py:111-124 | Available and missing providers partition the table (sizes add up to 7, membership by availability), and each missing provider carries its own install command |
| `DynamicImports.DetailRows` | trae_agent/utils/dynamic_imports.py:184-191 | One detail row per provider in table order with its availability |
| `DynamicImports.RecordFirstContents` | trae_agent/utils/dynamic_imports.py:93-109 | Asking in turn for names records exactly the table providers among them, each with its oracle answer, and keeps what was recorded |
| `DynamicImports.TablePassRecordsAll` | trae_agent/utils/dynamic_imports.py:111-124 | After a pass over the whole table the availability cache holds exactly the seven providers |
| `DynamicImports.RecordedProbesNothing` | trae_agent/utils/dynamic_imports.py:99-100 | Asking again for recorded names probes no package and leaves the cache as it is |
| `DynamicImports.ErrorText` | trae_agent/utils/dynamic_imports.py:22-28 | The exception text is empty for a successful load and otherwise only for a passed-on exception with empty text; it starts with the message raised: unknown provider (line 132), missing dependency (lines 22-28) or missing class (line 163); a passed-on exception keeps its own text |
| `DynamicImports.DynamicLLMClientLoader.constructor` | trae_agent/utils/dynamic_imports.py:89-91 | Both caches empty |
| `DynamicImports.DynamicLLMClientLoader.IsProviderAvailable` | trae_agent/utils/dynamic_imports.py:93-109 | False for a name outside the table; otherwise whether its package imports; a recorded answer is reused without probing, and a new one probes once and is recorded |
| `DynamicImports.DynamicLLMClientLoader.NoteIfAvailable` | trae_agent/utils/dynamic_imports.py:113-116 | One step of the comprehension: the provider is appended exactly when available; its availability is recorded and probed at most once |
| `DynamicImports.DynamicLLMClientLoader.AvailableAmong` | trae_agent/utils/dynamic_imports.py:113-116 | The loop of `get_available_providers`: the available names of the list, in order; the cache and probe log are those of asking for each name in turn |
| `DynamicImports.DynamicLLMClientLoader.GetAvailableProviders` | trae_agent/utils/dynamic_imports.py:111-116 | The available providers in table order; loaded classes unchanged; afterwards every provider's availability is recorded (the cache holds exactly the table), each unrecorded package probed once |
| `DynamicImports.DynamicLLMClientLoader.MissingAmong` | trae_agent/utils/dynamic_imports.py:120-124 | The loop of `get_missing_providers`: the unavailable names of the list with their install commands, in order; the cache and probe log are those of asking for each name in turn |
| `DynamicImports.DynamicLLMClientLoader.NoteIfMissing` | trae_agent/utils/dynamic_imports.py:120-124 | One step of the loop: the provider and its install command are appended exactly when unavailable; its availability is recorded and probed at most once |
| `DynamicImports.DynamicLLMClientLoader.GetMissingProviders` | trae_agent/utils/dynamic_imports.py:118-124 | The unavailable providers with their install commands, in table order; loaded classes unchanged; afterwards every provider's availability is recorded, each unrecorded package probed once |
| `DynamicImports.DynamicLLMClientLoader.AvailableThenMissing` | trae_agent/utils/dynamic_imports.py:172-173 | Both lists; the second pass finds everything recorded by the first and probes nothing more |
| `DynamicImports.DynamicLLMClientLoader.GetDependencyInfo` | trae_agent/utils/dynamic_imports.py:170-192 | Both lists; the counts are their lengths and add up to total = 7; one detail row per provider; loaded classes unchanged; each unrecorded package probed once in all |
| `DynamicImports.DynamicLLMClientLoader.LoadClientClass` | trae_agent/utils/dynamic_imports.py:126-163 | The answer is `LoadOutcome` of the classes loaded before. A loaded class is returned before any check and nothing changes; an unknown name changes nothing; then missing dependency (with the provider's package and install command), a module import raising `ImportError` (also a missing dependency) or any other exception (passed on with its text), missing class, in that order; only a successful load is recorded; the availability check records and probes as `is_provider_available` does |
| `DynamicImports.DynamicLLMClientLoader.ValidateProviderSetup` | trae_agent/utils/dynamic_imports.py:194-223 | Invalid with fixed messages for an unknown or unavailable provider. Otherwise valid exactly when the class loads, with the fixed success message; when it does not load, the whole report: error "Failed to load <provider> client: " followed by the text of whatever `load_client_class` raised (an exception other than `ImportError` from the module import included), the reinstall suggestion, no message. A valid result leaves the table's class loaded, an invalid one leaves loaded classes unchanged; availability recorded and probed at most once |
| `DynamicImports.Suggestions` | trae_agent/utils/dynamic_imports.py:279-286 | At most one suggestion per input name |
| `DynamicImports.SuggestionsConcat` | trae_agent/utils/dynamic_imports.py:281-285 | Suggestions of a concatenation are the suggestions of each part, in input order |
| `DynamicImports.SuggestionOfOne` | trae_agent/utils/dynamic_imports.py:282-285 | A table provider yields exactly its `For <provider>: <command>` line; an unknown name yields nothing |
| `DynamicImports.InstallSuggestions` | trae_agent/utils/dynamic_imports.py:279-286 | The loop yields exactly the suggestions of the input, in order |

## Left out

- Concurrency is not modelled: the `asyncio.Lock` of the pool, the thread-pool executor of the recorder, `run_in_executor` and `cleanup`'s executor shutdown. The model is sequential; a background save is modelled as a snapshot taken when it is scheduled.
- `asyncio.create_task` raises when no event loop is running. The model treats a scheduled background save like a synchronous one and does not model that failure.
- Real I/O is replaced by inputs: SHA-256 hashing, `Path.stat`, `Path.exists`, `json.dump`, `mkdir` and the console warnings. So are `time.time`, `time.perf_counter`, `datetime.now` and ISO timestamp formatting, and `strftime` for the default trajectory name.
- Path normalisation (`Path.absolute`, `str(Path(...))`) is not modelled; keys and paths are taken as given.
- `httpx`: client and transport construction is an opaque `Client` handle, and the HTTP requests of `chat_completion` and the streaming call are not modelled. The streaming filter works on the lines the response delivered.
- `Client`: `http2` and `limits` record what `get_client` passes to `httpx.AsyncClient`. Whether httpx applies them when a `transport` is also passed is decided inside httpx, which is not part of this model.
- `GetClient`: whether client construction raises is the `constructs` argument; the kind of exception is not modelled, only that it reaches the caller and nothing is stored.
- `LazyTools.LazyToolLoader.GetTool`: whether a tool class raises when constructed is a fixed set per loader (`unbuildable`), so a class that fails once fails on every attempt; a constructor that fails only sometimes is not modelled. The exception's text is not modelled.
- `get_pooled_client` (connection_pool.py:110-119) is a context manager that only forwards to `get_client`; it is not modelled separately.
- `importlib.import_module` and `getattr` are the `packageImportable` and `importModule` inputs. Importing a client module may succeed, raise `ImportError`, or raise any other exception with its text. Instantiating the loaded class in `create_client` calls code outside this model.
- `IsProviderAvailable`: the package probe either imports or raises `ImportError`. A probe raising another exception would propagate from `is_provider_available` (dynamic_imports.py:104-109) with nothing recorded, and so from `get_available_providers`, `get_missing_providers`, `get_dependency_info`, `load_client_class` and `validate_provider_setup`; that outcome is not modelled.
- The `Config` class and `_config_to_dict` are an opaque configuration value (whose construction may fail, see `LoadConfigCached`); the LLM response and usage dictionaries are the opaque `R`.
- The `lru_cache` decorators and `_get_config_file_key` are left out; they only memoise.
- The global singletons and their module-level wrappers are left out: `load_config_cached`'s global cache, `get_config_cache_stats`, `clear_config_cache`, `optimize_config_cache`, `get_client_loader`, `load_llm_client`, `check_provider_availability`, `get_dependency_report`, `validate_all_providers`, `print_dependency_report` and `pool_metrics`. `LoadConfigCached` takes the cache as a parameter instead.
- Floating-point statistics and their rounding are left out: `get_cache_stats`, `ConfigLoadTimer`, `get_loading_stats`, `get_performance_report` and `get_stats`. `ReuseRate` is the exact rate without rounding, and timeouts are exact reals.
- `get_available_tools`, `get_instantiated_tools` and `preload_frequently_used_tools` are left out; they only read the registry or call `preload_tools` on a fixed list.
- Times are whole seconds (`int`), not floats. The TTL test `idle > ttl / 2` is stated exactly as `2 * idle > ttl`.
- `OldestKey`: Python's `min` picks the first minimal key in insertion order; the model picks any key with minimal `last_access`, and the map has no insertion order.
- `LoadConfigCached`: building the configuration is the `loaded` input, `None` when the `Config` constructor raises; the kind and text of that exception are not modelled.
- `LoadConfigCached`: the source reads the clock separately in the lookup and in the store; the model uses one `now` for both.
- `LazyTools.LazyToolLoader.GetTool`: load times are the `loadDuration` input rather than a measured clock difference.
