/**
 * internal/module/loader.go: the module loader. LoadModule is cache-aside
 * with write-back: a cache hit is returned as is; any cache error falls
 * back to the backend selected by the loader kind ("fs" reads
 * <module_directory>/<name>.wasm, "objectstore" reads object <name>.wasm
 * of the configured bucket), and fetched bytes are written back to the
 * cache under the bare module name before they are returned.
 */
module Loading {
  import opened Base
  import opened Platform
  import opened Config
  import opened Retry
  import opened Caching
  import opened ObjectStore

  const FileSystemLoader: string := "fs"
  const ObjectStoreLoader: string := "objectstore"
  const ModuleExt: string := ".wasm"

  datatype Module = Module(name: string, bytes: Bytes)

  /**
   * What the loader needs of its configuration: the "objectstore" kind
   * dereferences the MinIO section, so it must be present.
   */
  predicate Ready(cfg: LoaderConfig) {
    cfg.moduleLoader == ObjectStoreLoader ==> cfg.minioConfig.Some?
  }

  predicate KnownKind(cfg: LoaderConfig) {
    cfg.moduleLoader == FileSystemLoader || cfg.moduleLoader == ObjectStoreLoader
  }

  /** The `objectPath` the switch settles on; it stays "" for an unknown kind. */
  function ObjectPath(cfg: LoaderConfig, name: string): string {
    if cfg.moduleLoader == FileSystemLoader then Join(cfg.moduleDirectory, name + ModuleExt)
    else if cfg.moduleLoader == ObjectStoreLoader then name + ModuleExt
    else ""
  }

  /**
   * The `err` after the switch, or the fetched bytes. For an unknown kind
   * no case runs and the cache error is still in `err`.
   */
  function Fetch(cfg: LoaderConfig, w: World, name: string, cacheErr: Error): Result<Bytes>
    requires Ready(cfg)
  {
    if cfg.moduleLoader == FileSystemLoader then ReadFile(w, ObjectPath(cfg, name))
    else if cfg.moduleLoader == ObjectStoreLoader then
      GetObject(w, cfg.minioConfig.value.bucketName, ObjectPath(cfg, name))
    else Failure(cacheErr)
  }

  /** One LoadModule call: its result, the cache afterwards, and the backend paths it read. */
  datatype LoadStep = LoadStep(result: Result<Module>, store: Store, fetched: seq<string>)

  function Load(st: Store, cfg: LoaderConfig, w: World, name: string): LoadStep
    requires Ready(cfg)
  {
    match Get(st, name)
    case Success(bytes) => LoadStep(Success(Module(name, bytes)), st, [])
    case Failure(cacheErr) =>
      var path := ObjectPath(cfg, name);
      var fetched := if KnownKind(cfg) then [path] else [];
      match Fetch(cfg, w, name, cacheErr)
      case Failure(e) => LoadStep(Failure(LoadFailed(path, e)), st, fetched)
      case Success(bytes) =>
        match Set(st, name, bytes)
        case Failure(e) => LoadStep(Failure(CacheWriteFailed(path, e)), st, fetched)
        case Success(st') => LoadStep(Success(Module(name, bytes)), st', fetched)
  }

  // ---------------------------------------------------------------------
  // Properties of one load

  /** A cache hit returns the cached bytes under the requested name, reads no backend and writes nothing. */
  lemma LoadHit(st: Store, cfg: LoaderConfig, w: World, name: string)
    requires Ready(cfg)
    requires name in st.entries && name !in st.unreadable
    ensures Load(st, cfg, w, name) == LoadStep(Success(Module(name, st.entries[name])), st, [])
  {
  }

  /**
   * Every cache error, a miss or any other GET failure, sends a known
   * loader kind to its backend, exactly once, at the derived path.
   */
  lemma LoadFallsBack(st: Store, cfg: LoaderConfig, w: World, name: string)
    requires Ready(cfg) && KnownKind(cfg)
    requires name !in st.entries || name in st.unreadable
    ensures Load(st, cfg, w, name).fetched == [ObjectPath(cfg, name)]
    ensures cfg.moduleLoader == FileSystemLoader ==>
      Load(st, cfg, w, name).fetched == [Join(cfg.moduleDirectory, name + ".wasm")]
    ensures cfg.moduleLoader == ObjectStoreLoader ==>
      Load(st, cfg, w, name).fetched == [name + ".wasm"]
  {
  }

  /** A failed backend read is reported with the object path and leaves the cache alone. */
  lemma LoadBackendFailure(st: Store, cfg: LoaderConfig, w: World, name: string)
    requires Ready(cfg) && KnownKind(cfg)
    requires Get(st, name).Failure?
    requires Fetch(cfg, w, name, Get(st, name).error).Failure?
    ensures Load(st, cfg, w, name).result.Failure?
    ensures Load(st, cfg, w, name).result.error.LoadFailed?
    ensures Load(st, cfg, w, name).result.error.objectPath == ObjectPath(cfg, name)
    ensures Load(st, cfg, w, name).store == st
  {
  }

  /**
   * A successful backend read is written back under the bare module name
   * (not <name>.wasm) with exactly the fetched bytes, which are returned;
   * no other key changes.
   */
  lemma LoadWriteBack(st: Store, cfg: LoaderConfig, w: World, name: string, bytes: Bytes)
    requires Ready(cfg) && KnownKind(cfg)
    requires Get(st, name).Failure?
    requires Fetch(cfg, w, name, Get(st, name).error) == Success(bytes)
    requires name !in st.unwritable
    ensures Load(st, cfg, w, name).result == Success(Module(name, bytes))
    ensures Load(st, cfg, w, name).store == st.(entries := st.entries[name := bytes])
  {
  }

  /** A failed cache write fails the whole load even though the bytes were fetched. */
  lemma LoadWriteFailure(st: Store, cfg: LoaderConfig, w: World, name: string)
    requires Ready(cfg) && KnownKind(cfg)
    requires Get(st, name).Failure?
    requires Fetch(cfg, w, name, Get(st, name).error).Success?
    requires name in st.unwritable
    ensures Load(st, cfg, w, name).result == Failure(CacheWriteFailed(ObjectPath(cfg, name), CacheSetFailed))
    ensures Load(st, cfg, w, name).store == st
  {
  }

  /**
   * For a loader kind other than "fs" and "objectstore" a hit still
   * succeeds, but every cache error comes back as a load failure with an
   * empty object path wrapping that same cache error, and nothing is read.
   */
  lemma LoadUnknownKind(st: Store, cfg: LoaderConfig, w: World, name: string)
    requires Ready(cfg) && !KnownKind(cfg)
    ensures Get(st, name).Success? ==> Load(st, cfg, w, name).result == Success(Module(name, Get(st, name).value))
    ensures Get(st, name).Failure? ==>
      Load(st, cfg, w, name) == LoadStep(Failure(LoadFailed("", Get(st, name).error)), st, [])
  {
  }

  /**
   * What a load leaves behind: at most one backend read; only key `name`
   * may change; fault sets unchanged; and on success the cache holds
   * exactly the returned bytes under `name`.
   */
  lemma LoadFrame(st: Store, cfg: LoaderConfig, w: World, name: string)
    requires Ready(cfg)
    ensures var s := Load(st, cfg, w, name);
      && |s.fetched| <= 1
      && s.store.unreadable == st.unreadable && s.store.unwritable == st.unwritable
      && s.store.entries.Keys <= st.entries.Keys + {name}
      && st.entries.Keys <= s.store.entries.Keys
      && (forall k :: k in st.entries && k != name ==> s.store.entries[k] == st.entries[k])
      && (s.result.Success? ==>
            s.result.value.name == name && name in s.store.entries
            && s.store.entries[name] == s.result.value.bytes)
  {
  }

  /** Once `set(n, b)` has succeeded, loading `n` returns `Module{n, b}` without any backend access. */
  lemma SetThenLoad(st: Store, cfg: LoaderConfig, w: World, name: string, bytes: Bytes)
    requires Ready(cfg)
    requires Set(st, name, bytes).Success? && name !in st.unreadable
    ensures var st' := Set(st, name, bytes).value;
      Load(st', cfg, w, name) == LoadStep(Success(Module(name, bytes)), st', [])
  {
    SetThenGet(st, name, bytes);
  }

  /** After a successful load, loading the same name again is a hit: same module, no backend access. */
  lemma LoadTwice(st: Store, cfg: LoaderConfig, w: World, name: string)
    requires Ready(cfg) && name !in st.unreadable
    requires Load(st, cfg, w, name).result.Success?
    ensures var s := Load(st, cfg, w, name);
      Load(s.store, cfg, w, name) == LoadStep(s.result, s.store, [])
  {
    LoadFrame(st, cfg, w, name);
  }

  // ---------------------------------------------------------------------
  // The configuration the loader is built from

  /** A configuration the validation tags accept although its loader is not Ready. */
  const NilMinioExample: Config := Config(
    ServerConfig("", 0), CacheConfig("localhost:6379", "", 0), LoaderConfig(None, ObjectStoreLoader, ""))

  /**
   * As written, validation accepts the "objectstore" kind without a MinIO
   * section (`omitempty` skips the nil pointer), and NewModuleLoader would
   * then dereference it.
   */
  lemma ValidationAdmitsMissingMinio()
    ensures ValidConfig(NilMinioExample) && !Ready(NilMinioExample.loader)
  {
  }

  /** The intended validation always yields a configuration the loader can be built from. */
  lemma IntendedValidationIsReady(c: Config)
    requires ValidConfigIntended(c)
    ensures Ready(c.loader)
    ensures c.loader.moduleLoader == ObjectStoreLoader ==> ValidMinio(c.loader.minioConfig.value)
  {
  }

  // ---------------------------------------------------------------------
  // The loader object

  class ModuleLoader {
    const cache: ModuleCache
    const config: LoaderConfig
    const objectClient: Option<MinioClient>
    /** The names LoadModule was called with, in order. */
    ghost var loadCalls: seq<string>
    /** The backend paths read, in order. */
    ghost var fetches: seq<string>

    ghost predicate Valid() {
      Ready(config) && (objectClient.Some? <==> config.moduleLoader == ObjectStoreLoader)
    }

    constructor (cfg: LoaderConfig, cache: ModuleCache, objectClient: Option<MinioClient>)
      requires Ready(cfg) && (objectClient.Some? <==> cfg.moduleLoader == ObjectStoreLoader)
      ensures Valid()
      ensures this.config == cfg && this.cache == cache && this.objectClient == objectClient
      ensures loadCalls == [] && fetches == []
    {
      this.cache := cache;
      this.config := cfg;
      this.objectClient := objectClient;
      loadCalls, fetches := [], [];
    }

    /** loadModuleFromObjectStore: GetObject from the configured bucket, then ReadAll. */
    method LoadModuleFromObjectStore(objectPath: string, w: World) returns (r: Result<Bytes>)
      requires Valid() && config.moduleLoader == ObjectStoreLoader
      ensures r.Success? <==> (config.minioConfig.value.bucketName, objectPath) in w.objects
      ensures r.Success? ==> r.value == w.objects[(config.minioConfig.value.bucketName, objectPath)]
      ensures r.Failure? ==> r.error == ObjectFetchFailed(config.minioConfig.value.bucketName, objectPath)
    {
      r := GetObject(w, config.minioConfig.value.bucketName, objectPath);
    }

    method LoadModule(name: string, w: World) returns (r: Result<Module>)
      requires Valid()
      modifies this`loadCalls, this`fetches, cache`entries
      ensures var s := Load(old(cache.State()), config, w, name);
        r == s.result && cache.State() == s.store
        && fetches == old(fetches) + s.fetched && loadCalls == old(loadCalls) + [name]
    {
      loadCalls := loadCalls + [name];
      var cached := cache.GetModule(name);
      if cached.Success? {
        return Success(Module(name, cached.value));
      }
      var moduleObject: Bytes := [];
      var objectPath := "";
      var err: Option<Error> := Some(cached.error);
      if config.moduleLoader == FileSystemLoader {
        var modulePath := Join(config.moduleDirectory, name + ModuleExt);
        var read := ReadFile(w, modulePath);
        fetches := fetches + [modulePath];
        moduleObject, err := if read.Success? then read.value else [], if read.Success? then None else Some(read.error);
        objectPath := modulePath;
      } else if config.moduleLoader == ObjectStoreLoader {
        objectPath := name + ModuleExt;
        var read := LoadModuleFromObjectStore(objectPath, w);
        fetches := fetches + [objectPath];
        moduleObject, err := if read.Success? then read.value else [], if read.Success? then None else Some(read.error);
      }
      if err.Some? {
        return Failure(LoadFailed(objectPath, err.value));
      }
      var written := cache.CacheModule(name, moduleObject);
      if written.Some? {
        return Failure(CacheWriteFailed(objectPath, written.value));
      }
      return Success(Module(name, moduleObject));
    }
  }

  /**
   * NewModuleLoader: the MinIO client is created, with retries, only for
   * the "objectstore" kind, and construction fails when it cannot be.
   */
  method NewModuleLoader(cfg: LoaderConfig, cache: ModuleCache, minioAttempts: seq<Outcome>)
    returns (r: Result<ModuleLoader>)
    requires Ready(cfg)
    requires |minioAttempts| >= RetryAttempts
    ensures r.Success? ==> fresh(r.value) && r.value.Valid()
    ensures r.Success? ==> r.value.config == cfg && r.value.cache == cache
    ensures r.Success? ==> r.value.loadCalls == [] && r.value.fetches == []
    ensures r.Success? ==> (r.value.objectClient.Some? <==> cfg.moduleLoader == ObjectStoreLoader)
    ensures cfg.moduleLoader != ObjectStoreLoader ==> r.Success?
    ensures cfg.moduleLoader == ObjectStoreLoader ==> (r.Success? <==> SomeAttemptSucceeds(minioAttempts))
    ensures r.Failure? ==> r.error == MinioClientFailed(ConnectFailed(minioAttempts[RetryAttempts - 1].reason))
  {
    var objectClient: Option<MinioClient> := None;
    if cfg.moduleLoader == ObjectStoreLoader {
      var client, _, _ := ConnectMinio(cfg.minioConfig.value, minioAttempts);
      if client.Failure? {
        return Failure(MinioClientFailed(client.error));
      }
      objectClient := Some(client.value);
    }
    var loader := new ModuleLoader(cfg, cache, objectClient);
    return Success(loader);
  }
}
