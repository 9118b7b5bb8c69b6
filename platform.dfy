/**
 * The parts of Go's standard library and of the outside world that the
 * module loader relies on: path helpers (filepath.Join, filepath.Ext,
 * strings.TrimSuffix) and an abstract World holding the local file system
 * and the object-store bucket contents, read by os.ReadFile, os.ReadDir and
 * the MinIO client's GetObject.
 */
module Platform {
  import opened Base

  const Separator: char := '/'

  predicate EndsWith(s: string, suffix: string) {
    |suffix| <= |s| && s[|s| - |suffix|..] == suffix
  }

  /** filepath.Join(dir, file) for a single file name below dir. */
  function Join(dir: string, file: string): (p: string)
    ensures EndsWith(p, file)
    ensures dir != "" ==> |dir| < |p| && p[..|dir|] == dir && p[|dir|] == Separator
    ensures dir == "" ==> p == file
  {
    if dir == "" then file else dir + [Separator] + file
  }

  /**
   * filepath.Ext: the suffix of `path` that starts at the last '.' of its
   * final element, or "" when that element has no '.'.
   */
  function Ext(path: string): (e: string)
    ensures e == "" || (e[0] == '.' && EndsWith(path, e))
    ensures forall i :: 0 < i < |e| ==> e[i] != '.' && e[i] != Separator
  {
    if path == [] || path[|path| - 1] == Separator then ""
    else if path[|path| - 1] == '.' then "."
    else
      var e := Ext(path[..|path| - 1]);
      if e == "" then "" else e + [path[|path| - 1]]
  }

  /** strings.TrimSuffix: `s` without its trailing `suffix`, or `s` unchanged. */
  function TrimSuffix(s: string, suffix: string): string {
    if EndsWith(s, suffix) then s[..|s| - |suffix|] else s
  }

  lemma TrimSuffixRestores(s: string, suffix: string)
    requires EndsWith(s, suffix)
    ensures TrimSuffix(s, suffix) + suffix == s
  {
  }

  lemma ExtAfterDot(p: string)
    ensures Ext(p + ['.']) == "."
  {
  }

  lemma ExtExtends(p: string, c: char)
    requires c != '.' && c != Separator && Ext(p) != ""
    ensures Ext(p + [c]) == Ext(p) + [c]
  {
    assert (p + [c])[..|p|] == p;
  }

  /**
   * For every path, filepath.Ext(path) == ".wasm" holds exactly when the
   * path ends with ".wasm": "wasm" has no '.' and no separator, so the last
   * '.' of such a path is the one that starts the suffix.
   */
  lemma ExtIsWasmIff(path: string)
    ensures Ext(path) == ".wasm" <==> EndsWith(path, ".wasm")
  {
    if EndsWith(path, ".wasm") {
      var q := path[..|path| - 5];
      assert path == q + ['.'] + ['w'] + ['a'] + ['s'] + ['m'];
      ExtAfterDot(q);
      ExtExtends(q + ['.'], 'w');
      ExtExtends(q + ['.'] + ['w'], 'a');
      ExtExtends(q + ['.'] + ['w'] + ['a'], 's');
      ExtExtends(q + ['.'] + ['w'] + ['a'] + ['s'], 'm');
    }
  }

  /** One entry of an os.ReadDir listing. */
  datatype DirEntry = DirEntry(name: string, isDir: bool)

  /**
   * The external state the loader reads: regular files by path, directory
   * listings in the order os.ReadDir returns them, and object-store objects
   * by (bucket, key). A path, directory or object that is absent stands for
   * any read failure.
   */
  datatype World = World(
    files: map<string, Bytes>,
    dirs: map<string, seq<DirEntry>>,
    objects: map<(string, string), Bytes>)

  /** os.ReadFile */
  function ReadFile(w: World, path: string): Result<Bytes> {
    if path in w.files then Success(w.files[path]) else Failure(FileReadFailed(path))
  }

  /** os.ReadDir */
  function ReadDir(w: World, dir: string): Result<seq<DirEntry>> {
    if dir in w.dirs then Success(w.dirs[dir]) else Failure(DirReadFailed(dir))
  }

  /** GetObject on the MinIO client followed by io.ReadAll of the object. */
  function GetObject(w: World, bucket: string, key: string): Result<Bytes> {
    if (bucket, key) in w.objects then Success(w.objects[(bucket, key)])
    else Failure(ObjectFetchFailed(bucket, key))
  }
}
