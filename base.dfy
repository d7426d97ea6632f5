/**
  Shared vocabulary of the model: results and errors, paths as sequences of
  components, an abstract filesystem, the outside world an apply runs in
  (filesystem, operator answers, trace of observable events) and the host
  capabilities the program only calls (template rendering, TOML decoding,
  glob matching, UTF-8 conversion, the executables on PATH).
*/
module Base {

  // ---------------------------------------------------------------------
  // Results
  // ---------------------------------------------------------------------

  datatype Option<T> = None | Some(value: T)

  /** The error kinds the program reports (all carry enough to tell them apart). */
  datatype Error =
    | NotFound(path: Path)              // a path that had to exist does not
    | Io(path: Path)                    // open/read/write/create failed at path
    | Panic                             // an `unwrap` on a missing value
    | RenderFailed(template: string)    // the template engine rejected a template
    | BadMetadata(path: Path)           // a metadata file is not valid TOML for RootDirData
    | SpawnFailed(tool: string)         // the diff tool could not be started
    | PromptFailed                      // the confirmation prompt could not be shown
    | HookFailed(script: Path, callback: Callback)
    | BadConfig                         // the merged configuration cannot be extracted
    | ScriptFailed(path: Path)          // a Lua configuration script or a hook script failed to load
    | NoCurrentDir                      // the process working directory is unavailable

  datatype Result<T> = Ok(value: T) | Err(error: Error) {
    predicate IsFailure() { Err? }
    function PropagateFailure<U>(): Result<U> requires Err? { Err(error) }
    function Extract(): T requires Ok? { value }
  }

  // ---------------------------------------------------------------------
  // Paths
  // ---------------------------------------------------------------------

  /** A path is its sequence of components; [] is the filesystem root. */
  type Path = seq<string>
  type Bytes = seq<bv8>
  type Perm = nat

  function Join(p: Path, name: string): (r: Path)
    ensures |r| == |p| + 1 && r[..|p|] == p && r[|p|] == name
  {
    p + [name]
  }

  /** `Path::file_name`: the last component, absent for the root and for `..`. */
  function FileName(p: Path): (r: Option<string>)
    ensures r.Some? <==> |p| > 0 && p[|p| - 1] != ".."
    ensures r.Some? ==> r.value == p[|p| - 1]
  {
    if |p| == 0 || p[|p| - 1] == ".." then None else Some(p[|p| - 1])
  }

  function Parent(p: Path): Path
    requires |p| > 0
  {
    p[..|p| - 1]
  }

  predicate IsPrefix(p: Path, q: Path) {
    |p| <= |q| && q[..|p|] == p
  }

  /** Index of the last '.' in a name, if any. */
  function LastDot(name: string): (r: Option<nat>)
    ensures r.Some? ==> r.value < |name| && name[r.value] == '.'
    ensures r.Some? ==> forall j :: r.value < j < |name| ==> name[j] != '.'
    ensures r.None? ==> forall j :: 0 <= j < |name| ==> name[j] != '.'
  {
    if |name| == 0 then None
    else if name[|name| - 1] == '.' then Some(|name| - 1)
    else LastDot(name[..|name| - 1])
  }

  /**
    `Path::extension` of a file name: the text after the last dot, except
    that `..`, a name without a dot and a name whose only dot is its first
    character (`.bashrc`) have none.
  */
  function Extension(name: string): (r: Option<string>)
    ensures r.Some? <==> name != ".." && LastDot(name).Some? && LastDot(name).value > 0
    ensures r.Some? ==> name == name[..LastDot(name).value] + "." + r.value
  {
    if name == ".." then None
    else match LastDot(name)
      case None => None
      case Some(k) => if k == 0 then None else Some(name[k + 1..])
  }

  /** `path.with_extension("")` applied to a name: drops ".<ext>" when there is an extension. */
  function WithoutExtension(name: string): (r: string)
    ensures Extension(name).None? ==> r == name
    ensures Extension(name).Some? ==> name == r + "." + Extension(name).value && |r| > 0
  {
    match Extension(name)
    case None => name
    case Some(_) => name[..LastDot(name).value]
  }

  /** Position of the first '/' in s, or |s|. */
  function NameEnd(s: string): (k: nat)
    ensures k <= |s|
    ensures forall j :: 0 <= j < k ==> s[j] != '/'
    ensures k < |s| ==> s[k] == '/'
  {
    if |s| == 0 || s[0] == '/' then 0 else 1 + NameEnd(s[1..])
  }

  /** `PathBuf::from(s)`: the components between '/' separators, empty ones dropped. */
  function ToPath(s: string): (r: Path)
    decreases |s|
  {
    if |s| == 0 then []
    else if s[0] == '/' then ToPath(s[1..])
    else [s[..NameEnd(s)]] + ToPath(s[NameEnd(s)..])
  }

  /** A component as the filesystem knows it: non-empty and without a separator. */
  predicate IsName(c: string) {
    |c| > 0 && forall j :: 0 <= j < |c| ==> c[j] != '/'
  }

  /** The absolute textual form "/a/b/c" of a path. */
  function PathString(p: Path): string {
    if |p| == 0 then [] else "/" + p[0] + PathString(p[1..])
  }

  lemma {:induction false} ToPathNames(s: string)
    ensures forall j :: 0 <= j < |ToPath(s)| ==> IsName(ToPath(s)[j])
    decreases |s|
  {
    if |s| == 0 {
    } else if s[0] == '/' {
      ToPathNames(s[1..]);
    } else {
      var k := NameEnd(s);
      ToPathNames(s[k..]);
      assert ToPath(s) == [s[..k]] + ToPath(s[k..]);
      forall j | 0 <= j < |ToPath(s)| ensures IsName(ToPath(s)[j]) {
        if j > 0 { assert ToPath(s)[j] == ToPath(s[k..])[j - 1]; }
      }
    }
  }

  lemma NameEndOf(c: string, rest: string)
    requires IsName(c)
    requires |rest| == 0 || rest[0] == '/'
    ensures NameEnd(c + rest) == |c|
    decreases |c|
  {
    if |c| > 1 {
      assert (c + rest)[1..] == c[1..] + rest;
      NameEndOf(c[1..], rest);
    } else {
      assert (c + rest)[1..] == rest;
    }
  }

  /** Reading back the textual form of a path of proper names gives the path. */
  lemma {:induction false} ToPathRoundTrip(p: Path)
    requires forall j :: 0 <= j < |p| ==> IsName(p[j])
    ensures ToPath(PathString(p)) == p
  {
    if |p| > 0 {
      var s := PathString(p);
      var tail := PathString(p[1..]);
      assert s == "/" + (p[0] + tail);
      assert s[1..] == p[0] + tail;
      assert |tail| == 0 || tail[0] == '/' by {
        if |p[1..]| > 0 { assert tail == "/" + p[1..][0] + PathString(p[1..][1..]); }
      }
      NameEndOf(p[0], tail);
      assert (p[0] + tail)[..|p[0]|] == p[0];
      assert (p[0] + tail)[|p[0]|..] == tail;
      ToPathRoundTrip(p[1..]);
      assert ToPath(s) == ToPath(p[0] + tail);
      assert [p[0]] + p[1..] == p;
    }
  }

  // ---------------------------------------------------------------------
  // Abstract filesystem
  // ---------------------------------------------------------------------

  datatype File = File(data: Bytes, perm: Perm)

  /**
    Regular files by path, and directories by path with the names of their
    entries in the order a directory read yields them.
  */
  datatype Fs = Fs(files: map<Path, File>, dirs: map<Path, seq<string>>)

  /** Permission bits of a file created by a plain write (0o644 under umask 022). */
  const CreatedFilePerm: Perm := 420

  predicate IsDir(fs: Fs, p: Path) { |p| == 0 || p in fs.dirs }

  /** `Path::exists`: a file or a directory is at p. */
  predicate Exists(fs: Fs, p: Path) { IsDir(fs, p) || p in fs.files }

  /** Record a new entry name in its parent's listing. */
  function AddName(dirs: map<Path, seq<string>>, parent: Path, name: string): (r: map<Path, seq<string>>)
    ensures r.Keys == dirs.Keys
  {
    if parent in dirs then dirs[parent := dirs[parent] + [name]] else dirs
  }

  /**
    Store a file at p (the common part of `fs::write` and `fs::copy`): fails
    when p is the root or a directory or its parent is not a directory.
  */
  function Put(fs: Fs, p: Path, f: File): (r: Result<Fs>)
    ensures r.Ok? <==> |p| > 0 && p !in fs.dirs && IsDir(fs, Parent(p))
    ensures r.Ok? ==> r.value.files == fs.files[p := f] && r.value.dirs.Keys == fs.dirs.Keys
  {
    if |p| == 0 || p in fs.dirs || !IsDir(fs, Parent(p)) then Err(Io(p))
    else if p in fs.files then Ok(Fs(fs.files[p := f], fs.dirs))
    else Ok(Fs(fs.files[p := f], AddName(fs.dirs, Parent(p), p[|p| - 1])))
  }

  /** `fs::write`: new content, an existing file keeps its permissions. */
  function WriteFile(fs: Fs, p: Path, data: Bytes): (r: Result<Fs>)
    ensures r.Ok? ==> p in r.value.files && r.value.files[p].data == data
  {
    Put(fs, p, File(data, if p in fs.files then fs.files[p].perm else CreatedFilePerm))
  }

  /** `fs::copy`: content and permission bits of src, which must be a file. */
  function CopyFile(fs: Fs, src: Path, dst: Path): (r: Result<Fs>)
    ensures r.Ok? ==> src in fs.files && dst in r.value.files && r.value.files[dst] == fs.files[src]
  {
    if src !in fs.files then Err(Io(src)) else Put(fs, dst, fs.files[src])
  }

  /**
    `fs::create_dir_all`: creates p and its missing ancestors; fails when p
    or an ancestor is a file.
  */
  function CreateDirAll(fs: Fs, p: Path): (r: Result<Fs>)
    ensures r.Ok? ==> IsDir(r.value, p) && r.value.files == fs.files
    ensures r.Ok? ==> forall d :: d in fs.dirs ==> d in r.value.dirs
    ensures r.Ok? ==> forall d :: d in r.value.dirs && d !in fs.dirs ==> IsPrefix(d, p)
    ensures r.Err? ==> exists d :: IsPrefix(d, p) && d in fs.files
    decreases |p|
  {
    if IsDir(fs, p) then Ok(fs)
    else if p in fs.files then Err(Io(p))
    else
      match CreateDirAll(fs, Parent(p))
      case Err(e) => Err(e)
      case Ok(fs1) =>
        Ok(Fs(fs1.files, AddName(fs1.dirs, Parent(p), p[|p| - 1])[p := []]))
  }

  /** Creating a directory that already exists changes nothing. */
  lemma CreateDirAllExisting(fs: Fs, p: Path)
    requires IsDir(fs, p)
    ensures CreateDirAll(fs, p) == Ok(fs)
  {
  }

  // ---------------------------------------------------------------------
  // Hook payloads (src/repo/hooks.rs:26-37) and observable events
  // ---------------------------------------------------------------------

  datatype Callback = BeforeApplyAll | AfterApplyAll | BeforeApplyEach | AfterApplyEach

  /** ApplyAllContext and ApplyEachContext; a staged temp file is named by its number. */
  datatype HookCtx =
    | AllCtx(repo: Path, paths: seq<Path>)
    | EachCtx(repo: Path, src: nat, dst: Path)

  /** What an observer of a run can see, in order. */
  datatype Event =
    | DirCreated(dir: Path)
    | DiffShown(dest: Path, staged: Bytes)
    | Prompted(dst: Path, answer: bool)
    | Written(dst: Path)
    | HookRan(script: Path, callback: Callback, ctx: HookCtx)

  /** The world an apply runs in: the disk, the operator's answers still to come, the trace so far. */
  datatype World = World(fs: Fs, answers: seq<bool>, events: seq<Event>)

  /** The outcome of one step that changes the world and may fail. */
  datatype Step<T> = Step(world: World, result: Result<T>)

  /** `ensure_cwd` and `ensure_parent`: create the directory unless something exists there. */
  function EnsureDir(w: World, p: Path): (s: Step<()>)
    ensures s.result.Ok? ==> Exists(s.world.fs, p) && s.world.fs.files == w.fs.files
    ensures s.world.answers == w.answers
  {
    if Exists(w.fs, p) then Step(w, Ok(()))
    else
      match CreateDirAll(w.fs, p)
      case Err(e) => Step(w, Err(e))
      case Ok(fs1) => Step(World(fs1, w.answers, w.events + [DirCreated(p)]), Ok(()))
  }

  /** Ensuring a directory twice is the same as ensuring it once. */
  lemma EnsureDirIdempotent(w: World, p: Path)
    requires EnsureDir(w, p).result.Ok?
    ensures EnsureDir(EnsureDir(w, p).world, p) == EnsureDir(w, p)
  {
  }

  // ---------------------------------------------------------------------
  // Host capabilities
  // ---------------------------------------------------------------------

  /** A serialisable value: template contexts and configuration entries. */
  datatype Value =
    | Unit
    | Str(s: string)
    | Int(i: int)
    | Bool(b: bool)
    | Table(entries: map<string, Value>)

  /** A set of globs (`globset::GlobSet`). */
  datatype GlobSet = GlobSet(globs: seq<string>)

  /** The decoded form of a directory's metadata file: destination template and ignore set. */
  datatype RootDirData = RootDirData(path: string, ignored: GlobSet)

  /**
    What the program only calls and never inspects: the template engine, TOML
    decoding into RootDirData, glob matching of one glob against a relative
    path, UTF-8 conversion, and which executables are on PATH.
  */
  datatype Host = Host(
    render: (string, Value) -> Option<string>,
    decodeMetadata: string -> Option<RootDirData>,
    globMatch: (string, string) -> bool,
    utf8Decode: Bytes -> Option<string>,
    utf8Encode: string -> Bytes,
    installed: set<string>)

  /** `GlobSet::is_match`: some glob of the set matches. */
  predicate IsMatch(host: Host, g: GlobSet, rel: string) {
    exists i :: 0 <= i < |g.globs| && host.globMatch(g.globs[i], rel)
  }

  /** `templating::render`. */
  function Render(host: Host, template: string, ctx: Value): (r: Result<string>)
    ensures r.Ok? <==> host.render(template, ctx).Some?
  {
    match host.render(template, ctx)
    case Some(s) => Ok(s)
    case None => Err(RenderFailed(template))
  }

  /** `fs::read_to_string`: the file must exist and hold UTF-8. */
  function ReadToString(host: Host, fs: Fs, p: Path): (r: Result<string>)
    ensures r.Ok? <==> p in fs.files && host.utf8Decode(fs.files[p].data).Some?
    ensures r.Ok? ==> r.value == host.utf8Decode(fs.files[p].data).value
    ensures r.Err? ==> r == Err(Io(p))
  {
    if p !in fs.files then Err(Io(p))
    else match host.utf8Decode(fs.files[p].data)
      case None => Err(Io(p))
      case Some(s) => Ok(s)
  }
}
