/**
 * internal/module/preload.go: the startup sweep. It lists the module
 * directory, keeps the entries that are not directories and whose
 * extension is ".wasm", strips that extension to get each module name,
 * loads the modules one by one in listing order, stops at the first
 * failure, and reports how many modules it loaded.
 */
module Preloading {
  import opened Base
  import opened Platform
  import opened Caching
  import opened Config
  import opened Loading

  predicate IsModuleFile(e: DirEntry) {
    !e.isDir && Ext(e.name) == ModuleExt
  }

  function ModuleName(e: DirEntry): string {
    TrimSuffix(e.name, Ext(e.name))
  }

  /** The module names of the qualifying entries of a listing, in listing order. */
  function ModuleNames(es: seq<DirEntry>): (names: seq<string>)
    ensures |names| <= |es|
    ensures forall n :: n in names <==> exists e :: e in es && IsModuleFile(e) && ModuleName(e) == n
  {
    if es == [] then []
    else ModuleNames(es[..|es| - 1]) + (if IsModuleFile(es[|es| - 1]) then [ModuleName(es[|es| - 1])] else [])
  }

  /** The outcome of loading a list of names: result, cache, names loaded and backend paths read. */
  datatype Sweep = Sweep(result: Result<nat>, store: Store, loaded: seq<string>, fetched: seq<string>)

  /** Load `names` in order, stopping at the first failure. */
  function LoadAll(st: Store, cfg: LoaderConfig, w: World, names: seq<string>): Sweep
    requires Ready(cfg)
    decreases |names|
  {
    if names == [] then Sweep(Success(0), st, [], [])
    else
      var prev := LoadAll(st, cfg, w, names[..|names| - 1]);
      if prev.result.Failure? then prev
      else
        var name := names[|names| - 1];
        var s := Load(prev.store, cfg, w, name);
        var loaded := prev.loaded + [name];
        var fetched := prev.fetched + s.fetched;
        if s.result.Failure? then Sweep(Failure(PreloadFailed(name, s.result.error)), s.store, loaded, fetched)
        else Sweep(Success(prev.result.value + 1), s.store, loaded, fetched)
  }

  /** Preload as a whole: the module directory is listed whatever the loader kind. */
  function PreloadSpec(st: Store, cfg: LoaderConfig, w: World): Sweep
    requires Ready(cfg)
  {
    match ReadDir(w, cfg.moduleDirectory)
    case Failure(e) => Sweep(Failure(ModuleDirFailed(e)), st, [], [])
    case Success(files) => LoadAll(st, cfg, w, ModuleNames(files))
  }

  // ---------------------------------------------------------------------
  // Which entries are modules, and their names

  /** For the names a listing holds, "extension is .wasm" is "ends with .wasm". */
  lemma IsModuleFileIff(e: DirEntry)
    ensures IsModuleFile(e) <==> !e.isDir && EndsWith(e.name, ".wasm")
  {
    ExtIsWasmIff(e.name);
  }

  /** The module name is the file name minus its trailing ".wasm", and nothing else. */
  lemma ModuleNameStrips(e: DirEntry)
    requires IsModuleFile(e)
    ensures ModuleName(e) + ".wasm" == e.name
    ensures |ModuleName(e)| == |e.name| - 5
  {
    TrimSuffixRestores(e.name, Ext(e.name));
  }

  /** Only the last extension goes: "a.b.wasm" names module "a.b". */
  lemma ModuleNameExample()
    ensures IsModuleFile(DirEntry("a.b.wasm", false))
    ensures ModuleName(DirEntry("a.b.wasm", false)) == "a.b"
  {
    var e := DirEntry("a.b.wasm", false);
    IsModuleFileIff(e);
    assert EndsWith(e.name, ".wasm");
    ModuleNameStrips(e);
  }

  /** The filter works entry by entry: listing a + b yields a's names, then b's. */
  lemma {:induction false} ModuleNamesConcat(a: seq<DirEntry>, b: seq<DirEntry>)
    ensures ModuleNames(a + b) == ModuleNames(a) + ModuleNames(b)
  {
    if b != [] {
      var b' := b[..|b| - 1];
      assert (a + b)[..|a + b| - 1] == a + b';
      ModuleNamesConcat(a, b');
    } else {
      assert a + b == a;
    }
  }

  /**
   * With the "fs" kind the loader reads exactly the listed file: the path
   * derived from the stripped name is <module_directory>/<file name>.
   */
  lemma PreloadReadsListedFile(cfg: LoaderConfig, e: DirEntry)
    requires cfg.moduleLoader == FileSystemLoader && IsModuleFile(e)
    ensures ObjectPath(cfg, ModuleName(e)) == Join(cfg.moduleDirectory, e.name)
  {
    ModuleNameStrips(e);
  }

  // ---------------------------------------------------------------------
  // The sweep

  /** Once a sweep has failed, later names change nothing. */
  lemma {:induction false} LoadAllFailureSticks(st: Store, cfg: LoaderConfig, w: World, a: seq<string>, b: seq<string>)
    requires Ready(cfg) && LoadAll(st, cfg, w, a).result.Failure?
    ensures LoadAll(st, cfg, w, a + b) == LoadAll(st, cfg, w, a)
    decreases |b|
  {
    if b == [] {
      assert a + b == a;
    } else {
      var b' := b[..|b| - 1];
      assert (a + b)[..|a + b| - 1] == a + b';
      LoadAllFailureSticks(st, cfg, w, a, b');
    }
  }

  /**
   * A sweep that succeeds made one load per name, in order, and counts
   * them all; every name is then in the cache.
   */
  lemma {:induction false} LoadAllSuccess(st: Store, cfg: LoaderConfig, w: World, names: seq<string>)
    requires Ready(cfg) && LoadAll(st, cfg, w, names).result.Success?
    ensures var s := LoadAll(st, cfg, w, names);
      && s.result.value == |names|
      && s.loaded == names
      && |s.fetched| <= |names|
      && forall n :: n in names ==> n in s.store.entries
    decreases |names|
  {
    if names != [] {
      var prefix, name := names[..|names| - 1], names[|names| - 1];
      assert names == prefix + [name];
      var prev := LoadAll(st, cfg, w, prefix);
      LoadAllSuccess(st, cfg, w, prefix);
      LoadAllSnoc(st, cfg, w, prefix, name, prev.result.value, prev.store, prev.loaded, prev.fetched);
      LoadFrame(prev.store, cfg, w, name);
    }
  }

  /** A sweep whose first failure is its last name. */
  lemma LoadAllFailsLast(st: Store, cfg: LoaderConfig, w: World, prefix: seq<string>, name: string)
    requires Ready(cfg) && LoadAll(st, cfg, w, prefix).result.Success?
    requires LoadAll(st, cfg, w, prefix + [name]).result.Failure?
    ensures var s := LoadAll(st, cfg, w, prefix + [name]);
      && s.loaded == prefix + [name]
      && s.result.error.PreloadFailed? && s.result.error.moduleName == name
      && |s.fetched| <= |s.loaded|
      && forall n :: n in prefix ==> n in s.store.entries
  {
    var prev := LoadAll(st, cfg, w, prefix);
    LoadAllSuccess(st, cfg, w, prefix);
    LoadAllSnoc(st, cfg, w, prefix, name, prev.result.value, prev.store, prev.loaded, prev.fetched);
    LoadFrame(prev.store, cfg, w, name);
  }

  /**
   * A sweep that fails stopped at the first failing load: the names loaded
   * are a prefix of the list ending with the failing one, the error names
   * that module, and every module loaded before it is in the cache.
   */
  lemma {:induction false} LoadAllFailure(st: Store, cfg: LoaderConfig, w: World, names: seq<string>)
    requires Ready(cfg) && LoadAll(st, cfg, w, names).result.Failure?
    ensures var s := LoadAll(st, cfg, w, names);
      && 1 <= |s.loaded| <= |names|
      && s.loaded == names[..|s.loaded|]
      && s.result.error.PreloadFailed?
      && s.result.error.moduleName == names[|s.loaded| - 1]
      && |s.fetched| <= |s.loaded|
      && forall i :: 0 <= i < |s.loaded| - 1 ==> names[i] in s.store.entries
    decreases |names|
  {
    var prefix, name := names[..|names| - 1], names[|names| - 1];
    assert names == prefix + [name];
    if LoadAll(st, cfg, w, prefix).result.Failure? {
      LoadAllFailure(st, cfg, w, prefix);
      LoadAllFailureSticks(st, cfg, w, prefix, [name]);
    } else {
      LoadAllFailsLast(st, cfg, w, prefix, name);
      assert forall i :: 0 <= i < |names| - 1 ==> names[i] == prefix[i];
    }
  }

  /** An unreadable module directory fails before any module is loaded, whatever the loader kind. */
  lemma PreloadDirFailure(st: Store, cfg: LoaderConfig, w: World)
    requires Ready(cfg) && cfg.moduleDirectory !in w.dirs
    ensures PreloadSpec(st, cfg, w) ==
      Sweep(Failure(ModuleDirFailed(DirReadFailed(cfg.moduleDirectory))), st, [], [])
  {
  }

  /** The sweep over the first `i` entries of `files` succeeded with this count, cache and logs. */
  ghost predicate Swept(st0: Store, cfg: LoaderConfig, w: World, files: seq<DirEntry>, i: nat,
                        count: nat, store: Store, loaded: seq<string>, fetched: seq<string>)
    requires Ready(cfg) && i <= |files|
  {
    LoadAll(st0, cfg, w, ModuleNames(files[..i])) == Sweep(Success(count), store, loaded, fetched)
  }

  lemma ModuleNamesSnoc(files: seq<DirEntry>, i: nat)
    requires i < |files|
    ensures ModuleNames(files[..i + 1]) ==
      ModuleNames(files[..i]) + (if IsModuleFile(files[i]) then [ModuleName(files[i])] else [])
  {
    assert files[..i + 1][..i] == files[..i];
  }

  /** One more name after a sweep that succeeded with this count, cache and logs. */
  lemma LoadAllSnoc(st: Store, cfg: LoaderConfig, w: World, names: seq<string>, name: string,
                    count: nat, store: Store, loaded: seq<string>, fetched: seq<string>)
    requires Ready(cfg) && LoadAll(st, cfg, w, names) == Sweep(Success(count), store, loaded, fetched)
    ensures var s := Load(store, cfg, w, name);
      LoadAll(st, cfg, w, names + [name]) ==
        Sweep(if s.result.Failure? then Failure(PreloadFailed(name, s.result.error)) else Success(count + 1),
              s.store, loaded + [name], fetched + s.fetched)
  {
    assert (names + [name])[..|names|] == names;
  }

  lemma AppendAssoc<T>(a: seq<T>, b: seq<T>, c: seq<T>)
    ensures (a + b) + c == a + (b + c)
  {
  }

  /** An entry that is not a module file is skipped. */
  lemma SweepSkip(st0: Store, cfg: LoaderConfig, w: World, files: seq<DirEntry>, i: nat,
                  count: nat, store: Store, loaded: seq<string>, fetched: seq<string>)
    requires Ready(cfg) && i < |files| && !IsModuleFile(files[i])
    requires Swept(st0, cfg, w, files, i, count, store, loaded, fetched)
    ensures Swept(st0, cfg, w, files, i + 1, count, store, loaded, fetched)
  {
    ModuleNamesSnoc(files, i);
    assert ModuleNames(files[..i + 1]) == ModuleNames(files[..i]);
  }

  /** A module file is loaded; after a successful load the sweep goes on with the count one higher. */
  lemma SweepLoaded(st0: Store, cfg: LoaderConfig, w: World, files: seq<DirEntry>, i: nat,
                    count: nat, store: Store, loaded: seq<string>, fetched: seq<string>)
    requires Ready(cfg) && i < |files| && IsModuleFile(files[i])
    requires Swept(st0, cfg, w, files, i, count, store, loaded, fetched)
    ensures var name := ModuleName(files[i]);
      var s := Load(store, cfg, w, name);
      s.result.Success? ==>
        Swept(st0, cfg, w, files, i + 1, count + 1, s.store, loaded + [name], fetched + s.fetched)
  {
    var names, name := ModuleNames(files[..i]), ModuleName(files[i]);
    ModuleNamesSnoc(files, i);
    LoadAllSnoc(st0, cfg, w, names, name, count, store, loaded, fetched);
  }

  /** A failed load ends the sweep over the whole listing. */
  lemma SweepStopped(st0: Store, cfg: LoaderConfig, w: World, files: seq<DirEntry>, i: nat,
                     count: nat, store: Store, loaded: seq<string>, fetched: seq<string>)
    requires Ready(cfg) && i < |files| && IsModuleFile(files[i])
    requires Swept(st0, cfg, w, files, i, count, store, loaded, fetched)
    ensures var name := ModuleName(files[i]);
      var s := Load(store, cfg, w, name);
      s.result.Failure? ==>
        LoadAll(st0, cfg, w, ModuleNames(files)) ==
          Sweep(Failure(PreloadFailed(name, s.result.error)), s.store, loaded + [name], fetched + s.fetched)
  {
    ModuleNamesSnoc(files, i);
    var name := ModuleName(files[i]);
    LoadAllSnoc(st0, cfg, w, ModuleNames(files[..i]), name, count, store, loaded, fetched);
    if Load(store, cfg, w, name).result.Failure? {
      PreloadStopsAt(st0, cfg, w, files, i);
    }
  }

  lemma SweepDone(st0: Store, cfg: LoaderConfig, w: World, files: seq<DirEntry>,
                  count: nat, store: Store, loaded: seq<string>, fetched: seq<string>)
    requires Ready(cfg) && Swept(st0, cfg, w, files, |files|, count, store, loaded, fetched)
    ensures LoadAll(st0, cfg, w, ModuleNames(files)) == Sweep(Success(count), store, loaded, fetched)
  {
    assert files[..|files|] == files;
  }

  lemma PreloadStopsAt(st: Store, cfg: LoaderConfig, w: World, files: seq<DirEntry>, i: nat)
    requires Ready(cfg) && i < |files|
    requires LoadAll(st, cfg, w, ModuleNames(files[..i + 1])).result.Failure?
    ensures LoadAll(st, cfg, w, ModuleNames(files)) == LoadAll(st, cfg, w, ModuleNames(files[..i + 1]))
  {
    LoadAllFailureSticks(st, cfg, w, ModuleNames(files[..i + 1]), ModuleNames(files[i + 1..]));
    ModuleNamesConcat(files[..i + 1], files[i + 1..]);
    assert files[..i + 1] + files[i + 1..] == files;
  }

  /**
   * Preload. The count it returns is the one the source logs as
   * "preloaded %d modules."
   */
  method Preload(m: ModuleLoader, w: World) returns (r: Result<nat>)
    requires m.Valid()
    modifies m`loadCalls, m`fetches, m.cache`entries
    ensures var s := PreloadSpec(old(m.cache.State()), m.config, w);
      && r == s.result && m.cache.State() == s.store
      && m.loadCalls == old(m.loadCalls) + s.loaded && m.fetches == old(m.fetches) + s.fetched
  {
    var moduleFiles := ReadDir(w, m.config.moduleDirectory);
    if moduleFiles.Failure? {
      return Failure(ModuleDirFailed(moduleFiles.error));
    }
    var files := moduleFiles.value;
    ghost var st0, calls0, fetches0 := m.cache.State(), m.loadCalls, m.fetches;
    ghost var loaded: seq<string>, fetched: seq<string> := [], [];
    var preloadCount := 0;
    var i := 0;
    while i < |files|
      invariant 0 <= i <= |files|
      invariant Swept(st0, m.config, w, files, i, preloadCount, m.cache.State(), loaded, fetched)
      invariant m.loadCalls == calls0 + loaded && m.fetches == fetches0 + fetched
    {
      var file := files[i];
      if !file.isDir && Ext(file.name) == ModuleExt {
        var moduleName := TrimSuffix(file.name, Ext(file.name));
        ghost var before := m.cache.State();
        ghost var step := Load(before, m.config, w, moduleName);
        var result := m.LoadModule(moduleName, w);
        AppendAssoc(calls0, loaded, [moduleName]);
        AppendAssoc(fetches0, fetched, step.fetched);
        if result.Failure? {
          SweepStopped(st0, m.config, w, files, i, preloadCount, before, loaded, fetched);
          return Failure(PreloadFailed(moduleName, result.error));
        }
        SweepLoaded(st0, m.config, w, files, i, preloadCount, before, loaded, fetched);
        loaded, fetched := loaded + [moduleName], fetched + step.fetched;
        preloadCount := preloadCount + 1;
      } else {
        SweepSkip(st0, m.config, w, files, i, preloadCount, m.cache.State(), loaded, fetched);
      }
      i := i + 1;
    }
    SweepDone(st0, m.config, w, files, preloadCount, m.cache.State(), loaded, fetched);
    return Success(preloadCount);
  }
}
