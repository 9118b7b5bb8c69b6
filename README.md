# wasmninja module resolution, in Dafny

wasmninja is a small HTTP service that runs WebAssembly modules on request.
Before a module can run it must be resolved: it is looked up by name in a
Redis-backed module cache, and on any cache error it is fetched from one of
two backends. The "fs" loader reads `<module_directory>/<name>.wasm` from
the local disk. The "objectstore" loader reads object `<name>.wasm` from a
MinIO bucket. Fetched bytes are written back to the cache under the bare
module name. At startup the service can preload every `.wasm` file of the
module directory. Before that it builds its configuration, with host and
port fallbacks and tag-driven validation. It also connects to Redis and to
MinIO, each with five attempts and exponential backoff.

The model covers these pieces, one Dafny module per source file:

- `Base`: bytes, `Option`, `Result` and the error values.
- `Platform`: the parts of the Go standard library the loader uses.
  - `filepath.Join`, `filepath.Ext` and `strings.TrimSuffix`.
  - An abstract `World` standing for the file system and the bucket contents.
- `Config`: the configuration records, `NewConfig` and the validity that
  the struct tags define.
- `Retry`: the backoff schedule shared by both connection loops.
- `Redis`: `connectRedisWithRetry`.
- `ObjectStore`: `ConnectMinio`.
- `Caching`: `ModuleCache`. It is a class over the key space it reads and
  writes, and `Get`/`Set` specify it.
- `Loading`: `ModuleLoader`, `NewModuleLoader`, `LoadModule` and
  `loadModuleFromObjectStore`. `Load` specifies one `LoadModule` call.
- `Preloading`: `Preload`. `LoadAll` and `PreloadSpec` specify it.

The cache is a class whose `entries` map `CacheModule` reassigns. The
loader is a class holding its cache, its configuration and its optional
MinIO client. Two ghost logs on the loader record the names `LoadModule`
was called with and the backend paths it read. The connection loops,
`LoadModule` and `Preload` are methods that mirror the Go control flow.
`LoadModule` and `Preload` are proved equal to the specification functions
`Load` and `PreloadSpec`, and the lemmas state what the service promises
about those functions. The postconditions of the two connection loops
describe their results directly, in terms of the sequence of attempt
outcomes. Only their sleeps are tied to a specification function, `Backoff`.

## Model

| member | source | states |
|---|---|---|
| Config.NewConfig | internal/config/config.go:62-76 | succeeds exactly when the tags accept the configuration. Otherwise it fails with InvalidConfig carrying the non-empty list of failed tags. An empty host becomes "localhost", a zero port becomes 8080, and non-empty values and every other section are kept. |
| Config.ValidateConfig | internal/config/config.go:78-86 | the list of failed tags is empty exactly when the configuration satisfies every tag: required address, db >= 0, required loader kind, and the four MinIO fields required only when the section is present |
| Config.ValidateConfigReports | internal/config/config.go:20-42 | a tag is in the list exactly when it fails for the value its field holds, with the MinIO tags reported only for a present section |
| Config.ValidIgnoresServer | internal/config/config.go:20-23 | host and port are `omitempty`, so validation never depends on the server section |
| Config.EmptyMinioFieldRejected | internal/config/config.go:32-42 | a MinIO section that is present but has an empty endpoint, access key, secret key or bucket is rejected |
| Config.AnyLoaderKindAccepted | internal/config/config.go:33 | `module_loader` is only `required`: every non-empty kind is accepted alike, and the empty kind is rejected |
| Retry.BackoffAt | internal/cache/cache.go:35-55 | the k-th sleep of the retry loop is 2^k seconds |
| Retry.BackoffDoubles | internal/cache/cache.go:55 | each sleep is twice the previous one |
| Retry.BackoffPrefix | internal/objectstore/minio.go:22-37 | a run with fewer failures sleeps a prefix of the schedule of a longer run |
| Retry.FullFailureSchedule | internal/cache/cache.go:35-56 | five failed attempts sleep 1, 2, 4, 8 and 16 seconds, 31 seconds in all, including a sleep after the last attempt |
| Redis.ConnectRedisWithRetry | internal/cache/cache.go:28-63 | one client per attempt with the configured address, password and DB, for at most 5 attempts. It stops at the first successful ping. It succeeds iff some ping among the first five succeeds, and then returns that attempt's client. Otherwise it returns the 5th ping's error. The sleeps taken are the backoff schedule, with one sleep per failed attempt. |
| ObjectStore.ConnectMinio | internal/objectstore/minio.go:12-44 | at most 5 attempts, stopping at the first success. It succeeds iff some attempt among the first five succeeds. The client uses the configured endpoint, static credentials with an empty session token, and `Secure: false`. On failure it returns the 5th attempt's error. The sleeps follow the same backoff schedule. |
| Caching.ModuleCache.constructor | internal/module/cache.go:15-19 | the new cache works on the given Redis key space |
| Caching.ModuleCache.GetModule | internal/module/cache.go:21-31 | returns the stored bytes on a hit. An absent key yields the distinct "not found in cache" error, and any other GET failure yields a different error. |
| Caching.ModuleCache.CacheModule | internal/module/cache.go:33-40 | succeeds iff the SET succeeds. The key then maps to exactly the given bytes, with nothing else changed and no expiry. On failure it reports the error and changes nothing. |
| Caching.GetMissIsDistinct | internal/module/cache.go:23-27 | a miss, another GET failure and a hit are told apart, each exactly characterised |
| Caching.SetThenGet | internal/module/cache.go:33-40 | after a successful SET of bytes under a name, GET of that name returns those bytes |
| Caching.SetFrame | internal/module/cache.go:34 | a SET changes only its own key, and it fails exactly on an unwritable key |
| Loading.NewModuleLoader | internal/module/loader.go:29-45 | a MinIO client is created only for the "objectstore" kind, and every other kind always succeeds. For "objectstore" construction succeeds iff some connection attempt succeeds; on failure it returns the wrapped last connection error. |
| Loading.ModuleLoader.LoadModuleFromObjectStore | internal/module/loader.go:81-94 | reads object `objectPath` from the configured bucket. It returns the object's bytes when the object exists, and the fetch error otherwise. |
| Loading.ModuleLoader.LoadModule | internal/module/loader.go:47-79 | its result, the cache afterwards and the backend paths it reads are exactly those of `Load` on the cache before the call |
| Loading.LoadHit | internal/module/loader.go:48-78 | a cache hit returns the cached bytes under the requested name, reads no backend and writes nothing |
| Loading.LoadFallsBack | internal/module/loader.go:49-62 | every cache error, miss or not, sends a known kind to its backend exactly once. "fs" reads `Join(dir, name + ".wasm")` and "objectstore" reads `name + ".wasm"`. |
| Loading.LoadBackendFailure | internal/module/loader.go:64-66 | a failed backend read fails the load with the object path, and the cache is unchanged |
| Loading.LoadWriteBack | internal/module/loader.go:68-72 | fetched bytes are cached under the bare module name and returned unchanged, and no other key changes |
| Loading.LoadWriteFailure | internal/module/loader.go:68-70 | a failed cache write fails the load although the bytes were fetched |
| Loading.LoadUnknownKind | internal/module/loader.go:53-65 | for a kind other than "fs" and "objectstore" a hit still succeeds. A cache error comes back as a load failure with an empty object path that wraps that same cache error, and nothing is read. |
| Loading.LoadFrame | internal/module/loader.go:47-79 | one load reads at most one backend path and changes at most the requested key. On success the cache holds exactly the returned bytes under that name. |
| Loading.SetThenLoad | internal/module/loader.go:48-49 | once a module is cached, loading it returns the cached bytes with no backend access |
| Loading.LoadTwice | internal/module/loader.go:47-79 | after a successful load, loading the same name again is a hit that returns the same module |
| Loading.ValidationAdmitsMissingMinio | internal/config/config.go:32 | the tags accept the "objectstore" kind without a MinIO section, which the loader then needs (see Findings) |
| Loading.IntendedValidationIsReady | internal/module/loader.go:36-37 | under the intended validation the "objectstore" kind always has a valid MinIO section |
| Platform.ExtIsWasmIff | internal/module/preload.go:20 | for every file name, `filepath.Ext(name) == ".wasm"` holds exactly when the name ends in ".wasm" |
| Preloading.IsModuleFileIff | internal/module/preload.go:20 | an entry is preloaded iff it is not a directory and its name ends in ".wasm" |
| Preloading.ModuleNames | internal/module/preload.go:19-21 | a name is produced exactly when some listed entry is a module file with that name, and there are no more names than entries |
| Preloading.ModuleNameStrips | internal/module/preload.go:21 | the module name is the file name minus its final ".wasm", and nothing more |
| Preloading.ModuleNameExample | internal/module/preload.go:21 | only the last extension is stripped: "a.b.wasm" is module "a.b" |
| Preloading.ModuleNamesConcat | internal/module/preload.go:19-20 | the filter works entry by entry, in listing order |
| Preloading.PreloadReadsListedFile | internal/module/preload.go:21-23 | with the "fs" kind, the path derived from a stripped name is exactly the listed file in the module directory |
| Preloading.LoadAllFailureSticks | internal/module/preload.go:23-25 | once a module fails, no later module is loaded |
| Preloading.LoadAllSuccess | internal/module/preload.go:19-33 | a successful preload loads every module name once, in order, and counts them all. Every module is then cached. |
| Preloading.LoadAllFailure | internal/module/preload.go:23-25 | a failed preload stopped at the first failing module. The modules tried are a prefix of the list ending with that one, the error names it, and every module before it is cached. |
| Preloading.PreloadDirFailure | internal/module/preload.go:12-15 | an unreadable module directory fails before any load, whatever the loader kind |
| Preloading.PreloadStopsAt | internal/module/preload.go:19-25 | a failure at one entry decides the whole preload, whatever entries follow |
| Preloading.Preload | internal/module/preload.go:11-34 | the result, cache and logs are exactly those of `PreloadSpec`. The directory is read from `module_directory` whatever the loader kind, and the count is the number of modules loaded. |

## Left out

- Module execution (invoke.go, runtime.go), the HTTP server (app.go,
  handler.go) and process start-up (main.go) are not part of this model.
- Loading the raw configuration with koanf is not modelled. `NewConfig`
  takes the unmarshalled configuration as a parameter, and a koanf load or
  unmarshal error is not modelled.
- go-playground's validator is modelled by the tags of the configuration
  records only. It reports each failure as a field and a tag, without the
  validator's message text.
- Config.ValidateConfigReports states which tags are reported, not that
  each is reported once or in struct order, although the list is built in
  struct order.
- Redis, MinIO, the disk and the clock are abstracted:
  - The Redis key space is a `Store`: entries plus the keys whose GET or
    SET fails with a non-miss error.
  - Files, directory listings and objects are a `World` passed as a
    parameter. An absent path or object stands for any read failure,
    including an `io.ReadAll` failure.
  - A ping or `minio.New` outcome is an element of an outcome sequence.
  - `time.Sleep` is recorded as a sequence of delays in whole seconds.
  - The log lines are not modelled, so neither are the messages of the
    wrapped errors beyond their structure.
- The Redis client of `ModuleCache` is not a separate object: the class
  holds the key space itself, so aliasing between two caches over one
  Redis is not captured.
- Platform.Join: `filepath.Join` also cleans the path (removes `.` and `..`
  elements and duplicate separators). The model only concatenates with a
  `/`, which agrees with Go when neither part needs cleaning.
- Platform.Ext uses `/` as the only separator, as on Unix.
- Loading.NewModuleLoader requires that the "objectstore" kind come with a
  MinIO section. The source dereferences a nil pointer there (see Findings).
  The connection outcomes must cover the five attempts.
- Loading.ModuleLoader.LoadModuleFromObjectStore: the MinIO endpoint does
  not take part in the object lookup; objects are keyed by bucket and key only.
- The order of `os.ReadDir` (sorted by file name) is taken as given: the
  listing in the `World` is used in its stored order.
- Concurrency (two loads of the same module at once) is not modelled: each
  operation runs to completion.
- The tags do not restrict `module_loader` to "fs" and "objectstore", and
  do not require `module_directory` for "fs" (internal/config/config.go:33-34).
  The model follows the tags (`AnyLoaderKindAccepted`, `LoadUnknownKind`).

## Findings

| source | as written | input that shows it | evidently intended | confidence | as-written member | corrected member |
|---|---|---|---|---|---|---|
| internal/config/config.go:32 | `minio_config` is `omitempty,dive`, so a configuration with the "objectstore" kind and no MinIO section passes validation. `NewModuleLoader` (internal/module/loader.go:36-37) then passes the nil section to `ConnectMinio`, which dereferences it and panics. | `module_loader: objectstore`, `cache.address` set, no `minio_config` section | validation rejects the "objectstore" kind without a MinIO section | medium, not executed | Loading.ValidationAdmitsMissingMinio | Loading.IntendedValidationIsReady |
