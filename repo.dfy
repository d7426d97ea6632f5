/**
  The repository (src/repo/mod.rs): opening resolves the configuration and
  parses the content tree under an empty ignore set; applying walks that tree
  from the home directory.
*/
module Repo {
  import opened Base
  import opened Config
  import opened Contents

  /** `SiloRepo`: the resolved configuration and the parsed content tree. */
  datatype SiloRepo = SiloRepo(config: SiloConfig, root: DirEntry)

  /** The state of the disk after opening, and the repository or the error. */
  datatype Opened = Opened(fs: Fs, repo: Result<SiloRepo>)

  /** `ParseContext::new(GlobSet::empty(), config)`: the context the walk starts from. */
  function RootContext(config: SiloConfig): (ctx: ParseContext)
    ensures ctx.config == config && |ctx.ignored.globs| == 0
  {
    ParseContext(GlobSet([]), config)
  }

  /** `SiloRepo::open`: the path must exist; configuration first, then the tree. */
  function OpenSpec(host: Host, fs: Fs, configDir: Option<Path>, prov: Providers, path: Path): Opened {
    if !Exists(fs, path) then Opened(fs, Err(NotFound(path)))
    else
      var l := ReadConfigSpec(host, fs, configDir, path, prov);
      match l.config
      case Err(e) => Opened(l.fs, Err(e))
      case Ok(c) =>
        match ParseEntry(host, l.fs, RootContext(c), path)
        case Err(e) => Opened(l.fs, Err(e))
        case Ok(root) => Opened(l.fs, Ok(SiloRepo(c, root)))
  }

  /**
    A missing repository fails before anything is read or written; a
    successful open holds the configuration read_config resolved and the
    tree parsed from the path with no inherited ignore set.
  */
  lemma OpenOutcome(host: Host, fs: Fs, configDir: Option<Path>, prov: Providers, path: Path)
    ensures var o := OpenSpec(host, fs, configDir, prov, path);
      (!Exists(fs, path) ==> o == Opened(fs, Err(NotFound(path)))) &&
      (o.repo.Ok? ==>
        var l := ReadConfigSpec(host, fs, configDir, path, prov);
        l.config == Ok(o.repo.value.config) && o.fs == l.fs &&
        ParseEntry(host, l.fs, RootContext(o.repo.value.config), path) == Ok(o.repo.value.root))
  {
  }

  /** Where `apply` starts: the home directory when known, else the current directory. */
  function ApplyCwd(home: Option<Path>, currentDir: Option<Path>): (r: Result<Path>)
    ensures currentDir.None? ==> r == Err(NoCurrentDir)
    ensures currentDir.Some? && home.Some? ==> r == Ok(home.value)
    ensures currentDir.Some? && home.None? ==> r == Ok(currentDir.value)
  {
    // the fallback is evaluated before the home directory is looked at
    match currentDir
    case None => Err(NoCurrentDir)
    case Some(cd) => Ok(if home.Some? then home.value else cd)
  }

  /** `SiloRepo::apply`. */
  function ApplySpec(host: Host, repo: SiloRepo, home: Option<Path>, currentDir: Option<Path>, w: World): Step<()> {
    match ApplyCwd(home, currentDir)
    case Err(e) => Step(w, Err(e))
    case Ok(cwd) => ApplyEntry(host, repo.config, repo.root, cwd, w)
  }

  /** `SiloRepo::open`. */
  method Open(host: Host, fs: Fs, configDir: Option<Path>, prov: Providers, path: Path)
    returns (fs': Fs, r: Result<SiloRepo>)
    ensures Opened(fs', r) == OpenSpec(host, fs, configDir, prov, path)
  {
    if !Exists(fs, path) {
      return fs, Err(NotFound(path));
    }
    var config;
    fs', config := ReadConfig(host, fs, configDir, path, prov);
    if config.Err? {
      return fs', Err(config.error);
    }
    var root := Parse(host, fs', RootContext(config.value), path);
    if root.Err? {
      return fs', Err(root.error);
    }
    r := Ok(SiloRepo(config.value, root.value));
  }

  /** `SiloRepo::apply`. */
  method Apply(host: Host, repo: SiloRepo, home: Option<Path>, currentDir: Option<Path>, w: World)
    returns (w': World, r: Result<()>)
    ensures Step(w', r) == ApplySpec(host, repo, home, currentDir, w)
  {
    if currentDir.None? {
      return w, Err(NoCurrentDir);
    }
    var cwd := if home.Some? then home.value else currentDir.value;
    w', r := Contents.Apply(host, repo.config, repo.root, cwd, w);
  }
}
