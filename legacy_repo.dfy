/**
  The earlier repository implementation (src/repo.rs), still in the tree
  beside the current one. It parses the same tree in the same way, except
  that a metadata template is rendered against an empty context; it
  applies from the current directory, creates the directory of every root,
  and writes every file without asking.
*/
module LegacyRepo {
  import opened Base
  import opened Config
  import opened Contents
  import Repo

  /** A configuration whose template context is empty, which is all the legacy parse consults. */
  const BlankConfig: SiloConfig := SiloConfig("", map[])

  /** `ParseContext::new(ignored)`: only an ignore set, metadata templates see the unit context. */
  function LegacyContext(ignored: GlobSet): (ctx: ParseContext)
    ensures ctx.ignored == ignored && TemplateContext(ctx.config) == Unit
  {
    ParseContext(ignored, BlankConfig)
  }

  /**
    The legacy parse is the current parse under any configuration that
    defines no template context.
  */
  lemma LegacyParseIsCurrentParse(host: Host, fs: Fs, ignored: GlobSet, c: SiloConfig, p: Path)
    requires "template_context" !in c.userdata
    ensures ParseEntry(host, fs, LegacyContext(ignored), p) == ParseEntry(host, fs, ParseContext(ignored, c), p)
  {
    ParseNeedsOnlyTemplateContext(host, fs, ignored, BlankConfig, c, p);
  }

  /** `DirEntry::parse` of the legacy module. */
  method Parse(host: Host, fs: Fs, ignored: GlobSet, p: Path) returns (r: Result<DirEntry>)
    ensures r == ParseEntry(host, fs, LegacyContext(ignored), p)
  {
    r := Contents.Parse(host, fs, LegacyContext(ignored), p);
  }

  // ---------------------------------------------------------------------
  // Applying
  // ---------------------------------------------------------------------

  /** `FileEntry::apply` of the legacy module: render or copy, and write unconditionally. */
  function ApplyFile(host: Host, cfg: SiloConfig, f: FileEntry, cwd: Path, w: World): Step<()> {
    match f
    case Template(p) =>
      (match ReadToString(host, w.fs, p)
       case Err(e) => Step(w, Err(e))
       case Ok(text) =>
         match Render(host, text, TemplateContext(cfg))
         case Err(e) => Step(w, Err(e))
         case Ok(rendered) =>
           match FileDest(f, cwd)
           case Err(e) => Step(w, Err(e))
           case Ok(dest) =>
             match WriteFile(w.fs, dest, host.utf8Encode(rendered))
             case Err(e) => Step(w, Err(e))
             case Ok(fs1) => Step(World(fs1, w.answers, w.events + [Written(dest)]), Ok(())))
    case Plain(p) =>
      match FileDest(f, cwd)
      case Err(e) => Step(w, Err(e))
      case Ok(dest) =>
        match CopyFile(w.fs, p, dest)
        case Err(e) => Step(w, Err(e))
        case Ok(fs1) => Step(World(fs1, w.answers, w.events + [Written(dest)]), Ok(()))
  }

  /** `DirEntry::apply` of the legacy module. */
  function ApplyEntry(host: Host, cfg: SiloConfig, e: DirEntry, cwd: Path, w: World): Step<()>
    decreases e, 1
  {
    match e
    case File(f) => ApplyFile(host, cfg, f, cwd, w)
    case Dir(p, cs) =>
      (match DirCursor(p, cwd)
       case Err(err) => Step(w, Err(err))
       case Ok(c) =>
         var s := if p != cwd then EnsureDir(w, c) else Step(w, Ok(()));
         if s.result.Err? then s else ApplyChildren(host, cfg, cs, c, s.world))
    case Root(_, data, cs) =>
      match Render(host, data.path, TemplateContext(cfg))
      case Err(err) => Step(w, Err(err))
      case Ok(rendered) =>
        var s := EnsureDir(w, ToPath(rendered));
        if s.result.Err? then s else ApplyChildren(host, cfg, cs, ToPath(rendered), s.world)
  }

  function ApplyChildren(host: Host, cfg: SiloConfig, cs: seq<DirEntry>, cwd: Path, w: World): Step<()>
    decreases cs, 0
  {
    if |cs| == 0 then Step(w, Ok(()))
    else
      var s := ApplyChildren(host, cfg, cs[..|cs| - 1], cwd, w);
      if s.result.Err? then s else ApplyEntry(host, cfg, cs[|cs| - 1], cwd, s.world)
  }

  /** Only directory creations and writes can be observed. */
  predicate Unattended(evs: seq<Event>) {
    forall i :: 0 <= i < |evs| ==> evs[i].DirCreated? || evs[i].Written?
  }

  /**
    The legacy apply never consults the operator: no answer is consumed and
    nothing but directory creations and writes is recorded.
  */
  lemma {:induction false} NeverAsks(host: Host, cfg: SiloConfig, e: DirEntry, cwd: Path, w: World)
    ensures var s := ApplyEntry(host, cfg, e, cwd, w);
      s.world.answers == w.answers && |w.events| <= |s.world.events| &&
      s.world.events[..|w.events|] == w.events && Unattended(s.world.events[|w.events|..])
    decreases e, 1
  {
    match e
    case File(f) =>
      NeverAsksFile(host, cfg, f, cwd, w);
    case Dir(p, cs) =>
      if p != cwd && FileName(p).Some? {
        NeverAsksBelow(host, cfg, cs, Join(cwd, FileName(p).value), w, e);
      } else if p == cwd {
        NeverAsksChildren(host, cfg, cs, p, w, e);
      }
    case Root(_, data, cs) =>
      var rendered := Render(host, data.path, TemplateContext(cfg));
      if rendered.Ok? {
        NeverAsksBelow(host, cfg, cs, ToPath(rendered.value), w, e);
      }
  }

  /** Creating a directory and applying children inside it asks nothing either. */
  lemma {:induction false} NeverAsksBelow(host: Host, cfg: SiloConfig, cs: seq<DirEntry>, c: Path, w: World,
                                         parent: DirEntry)
    requires forall x :: x in cs ==> x < parent
    ensures var s := EnsureDir(w, c);
      var t := if s.result.Err? then s else ApplyChildren(host, cfg, cs, c, s.world);
      t.world.answers == w.answers && |w.events| <= |t.world.events| &&
      t.world.events[..|w.events|] == w.events && Unattended(t.world.events[|w.events|..])
    decreases parent, 0, |cs| + 1
  {
    var s := EnsureDir(w, c);
    if s.result.Ok? {
      NeverAsksChildren(host, cfg, cs, c, s.world, parent);
      Concat(w.events, s.world.events, ApplyChildren(host, cfg, cs, c, s.world).world.events);
    } else {
      assert w.events[|w.events|..] == [];
    }
  }

  /** One file: at most a write is recorded, and no answer is consumed. */
  lemma NeverAsksFile(host: Host, cfg: SiloConfig, f: FileEntry, cwd: Path, w: World)
    ensures var s := ApplyFile(host, cfg, f, cwd, w);
      s.world.answers == w.answers && |w.events| <= |s.world.events| &&
      s.world.events[..|w.events|] == w.events && Unattended(s.world.events[|w.events|..])
  {
    var s := ApplyFile(host, cfg, f, cwd, w);
    if s.world.events != w.events {
      var dest := FileDest(f, cwd).value;
      assert s.world.events == w.events + [Written(dest)];
      assert s.world.events[|w.events|..] == [Written(dest)];
    }
  }

  lemma {:induction false} NeverAsksChildren(host: Host, cfg: SiloConfig, cs: seq<DirEntry>, cwd: Path, w: World,
                                            parent: DirEntry)
    requires forall c :: c in cs ==> c < parent
    ensures var s := ApplyChildren(host, cfg, cs, cwd, w);
      s.world.answers == w.answers && |w.events| <= |s.world.events| &&
      s.world.events[..|w.events|] == w.events && Unattended(s.world.events[|w.events|..])
    decreases parent, 0, |cs|
  {
    if |cs| > 0 {
      var front := cs[..|cs| - 1];
      assert forall c :: c in front ==> c in cs;
      NeverAsksChildren(host, cfg, front, cwd, w, parent);
      var s := ApplyChildren(host, cfg, front, cwd, w);
      if s.result.Ok? {
        assert cs[|cs| - 1] in cs;
        NeverAsks(host, cfg, cs[|cs| - 1], cwd, s.world);
        Concat(w.events, s.world.events, ApplyEntry(host, cfg, cs[|cs| - 1], cwd, s.world).world.events);
      }
    } else {
      assert w.events[|w.events|..] == [];
    }
  }

  /** Unattended extensions compose. */
  lemma Concat(a: seq<Event>, b: seq<Event>, c: seq<Event>)
    requires |a| <= |b| && b[..|a|] == a && Unattended(b[|a|..])
    requires |b| <= |c| && c[..|b|] == b && Unattended(c[|b|..])
    ensures |a| <= |c| && c[..|a|] == a && Unattended(c[|a|..])
  {
    assert c[..|a|] == c[..|b|][..|a|];
    forall i | 0 <= i < |c| - |a| ensures c[|a|..][i].DirCreated? || c[|a|..][i].Written? {
      if |a| + i < |b| {
        assert c[|a|..][i] == b[|a|..][i];
      } else {
        assert c[|a|..][i] == c[|b|..][|a| + i - |b|];
      }
    }
  }

  /**
    The legacy apply creates the directory a root renders to even when the
    root has no children; the current apply leaves it alone.
  */
  lemma RootDirCreatedOnlyByLegacy(host: Host, cfg: SiloConfig, q: Path, data: RootDirData, cwd: Path, w: World)
    requires host.render(data.path, TemplateContext(cfg)).Some?
    ensures var target := ToPath(host.render(data.path, TemplateContext(cfg)).value);
      var s := ApplyEntry(host, cfg, Root(q, data, []), cwd, w);
      (s.result.Ok? ==> Exists(s.world.fs, target)) &&
      Contents.ApplyEntry(host, cfg, Root(q, data, []), cwd, w) == Step(w, Ok(()))
  {
  }

  /**
    A plain file overwrites its destination without a question, even when
    the destination holds different bytes.
  */
  lemma OverwritesWithoutAsking(host: Host, cfg: SiloConfig, p: Path, cwd: Path, w: World)
    requires FileDest(Plain(p), cwd).Ok?
    requires var dest := FileDest(Plain(p), cwd).value;
      p in w.fs.files && dest !in w.fs.dirs && IsDir(w.fs, cwd)
    ensures var dest := FileDest(Plain(p), cwd).value;
      var s := ApplyFile(host, cfg, Plain(p), cwd, w);
      s.result.Ok? && s.world.fs.files == w.fs.files[dest := w.fs.files[p]] && s.world.answers == w.answers
  {
  }

  // ---------------------------------------------------------------------
  // The repository
  // ---------------------------------------------------------------------

  /** `SiloRepo::open` of the legacy module: configuration first, then the tree from the default context. */
  function OpenSpec(host: Host, fs: Fs, configDir: Option<Path>, prov: Providers, path: Path): Repo.Opened {
    if !Exists(fs, path) then Repo.Opened(fs, Err(NotFound(path)))
    else
      var l := ReadConfigSpec(host, fs, configDir, path, prov);
      match l.config
      case Err(e) => Repo.Opened(l.fs, Err(e))
      case Ok(c) =>
        match ParseEntry(host, l.fs, LegacyContext(GlobSet([])), path)
        case Err(e) => Repo.Opened(l.fs, Err(e))
        case Ok(root) => Repo.Opened(l.fs, Ok(Repo.SiloRepo(c, root)))
  }

  /** When the configuration defines no template context, both implementations open the same repository. */
  lemma OpenAgreesWithCurrent(host: Host, fs: Fs, configDir: Option<Path>, prov: Providers, path: Path)
    requires var l := ReadConfigSpec(host, fs, configDir, path, prov);
      l.config.Ok? ==> "template_context" !in l.config.value.userdata
    ensures OpenSpec(host, fs, configDir, prov, path) == Repo.OpenSpec(host, fs, configDir, prov, path)
  {
    var l := ReadConfigSpec(host, fs, configDir, path, prov);
    if Exists(fs, path) && l.config.Ok? {
      LegacyParseIsCurrentParse(host, l.fs, GlobSet([]), l.config.value, path);
    }
  }

  /** `SiloRepo::apply` of the legacy module: from the current directory. */
  function ApplySpec(host: Host, repo: Repo.SiloRepo, currentDir: Option<Path>, w: World): Step<()> {
    match currentDir
    case None => Step(w, Err(NoCurrentDir))
    case Some(cwd) => ApplyEntry(host, repo.config, repo.root, cwd, w)
  }

  method Open(host: Host, fs: Fs, configDir: Option<Path>, prov: Providers, path: Path)
    returns (fs': Fs, r: Result<Repo.SiloRepo>)
    ensures Repo.Opened(fs', r) == OpenSpec(host, fs, configDir, prov, path)
  {
    if !Exists(fs, path) {
      return fs, Err(NotFound(path));
    }
    var config;
    fs', config := ReadConfig(host, fs, configDir, path, prov);
    if config.Err? {
      return fs', Err(config.error);
    }
    var root := Parse(host, fs', GlobSet([]), path);
    if root.Err? {
      return fs', Err(root.error);
    }
    r := Ok(Repo.SiloRepo(config.value, root.value));
  }

  method Apply(host: Host, repo: Repo.SiloRepo, currentDir: Option<Path>, w: World) returns (w': World, r: Result<()>)
    ensures Step(w', r) == ApplySpec(host, repo, currentDir, w)
  {
    if currentDir.None? {
      return w, Err(NoCurrentDir);
    }
    w', r := ApplyTree(host, repo.config, repo.root, currentDir.value, w);
  }

  /** The legacy walk: directories are created as needed, files written as they come. */
  method ApplyTree(host: Host, cfg: SiloConfig, e: DirEntry, cwd: Path, w: World) returns (w': World, r: Result<()>)
    ensures Step(w', r) == ApplyEntry(host, cfg, e, cwd, w)
    decreases e
  {
    match e
    case File(f) =>
      var s := ApplyFile(host, cfg, f, cwd, w);
      w', r := s.world, s.result;
    case Dir(p, cs) =>
      var c := p;
      w' := w;
      if p != cwd {
        var name := FileName(p);
        if name.None? {
          return w, Err(Panic);
        }
        c := Join(cwd, name.value);
        w', r := EnsureCwd(w, c);
        if r.Err? {
          return;
        }
      }
      w', r := ApplyEach(host, cfg, cs, c, w', e);
    case Root(_, data, cs) =>
      var rendered := Render(host, data.path, TemplateContext(cfg));
      if rendered.Err? {
        return w, Err(rendered.error);
      }
      var c := ToPath(rendered.value);
      w', r := EnsureCwd(w, c);
      if r.Err? {
        return;
      }
      w', r := ApplyEach(host, cfg, cs, c, w', e);
  }

  method ApplyEach(host: Host, cfg: SiloConfig, cs: seq<DirEntry>, cwd: Path, w: World, ghost parent: DirEntry)
    returns (w': World, r: Result<()>)
    requires forall c :: c in cs ==> c < parent
    ensures Step(w', r) == ApplyChildren(host, cfg, cs, cwd, w)
    decreases parent, 0
  {
    w', r := w, Ok(());
    var i := 0;
    while i < |cs|
      invariant 0 <= i <= |cs|
      invariant r.Ok? && Step(w', r) == ApplyChildren(host, cfg, cs[..i], cwd, w)
    {
      assert cs[..i + 1][..i] == cs[..i];
      assert cs[i] in cs;
      ghost var before := w';
      w', r := ApplyTree(host, cfg, cs[i], cwd, w');
      assert ApplyChildren(host, cfg, cs[..i + 1], cwd, w) == ApplyEntry(host, cfg, cs[i], cwd, before);
      if r.Err? {
        FailedPrefixStops(host, cfg, cs, i + 1, cwd, w);
        return;
      }
      i := i + 1;
    }
    assert cs[..|cs|] == cs;
  }

  /** After the first failing child no later sibling is applied. */
  lemma {:induction false} FirstErrorStops(host: Host, cfg: SiloConfig, cs: seq<DirEntry>, rest: seq<DirEntry>,
                                          cwd: Path, w: World)
    requires ApplyChildren(host, cfg, cs, cwd, w).result.Err?
    ensures ApplyChildren(host, cfg, cs + rest, cwd, w) == ApplyChildren(host, cfg, cs, cwd, w)
    decreases |rest|
  {
    if |rest| > 0 {
      var all := cs + rest;
      assert all[..|all| - 1] == cs + rest[..|rest| - 1];
      FirstErrorStops(host, cfg, cs, rest[..|rest| - 1], cwd, w);
      ApplyChildrenErrStep(host, cfg, all, cwd, w);
    } else {
      assert cs + rest == cs;
    }
  }

  /** A list whose front has failed has failed the same way. */
  lemma ApplyChildrenErrStep(host: Host, cfg: SiloConfig, cs: seq<DirEntry>, cwd: Path, w: World)
    requires |cs| > 0 && ApplyChildren(host, cfg, cs[..|cs| - 1], cwd, w).result.Err?
    ensures ApplyChildren(host, cfg, cs, cwd, w) == ApplyChildren(host, cfg, cs[..|cs| - 1], cwd, w)
  {
  }

  /** A failing prefix decides the whole list. */
  lemma FailedPrefixStops(host: Host, cfg: SiloConfig, cs: seq<DirEntry>, k: nat, cwd: Path, w: World)
    requires k <= |cs| && ApplyChildren(host, cfg, cs[..k], cwd, w).result.Err?
    ensures ApplyChildren(host, cfg, cs, cwd, w) == ApplyChildren(host, cfg, cs[..k], cwd, w)
  {
    var front, rest := cs[..k], cs[k..];
    assert cs == front + rest;
    FirstErrorStops(host, cfg, front, rest, cwd, w);
  }
}
