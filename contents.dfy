/**
  The content tree (src/repo/contents.rs): parsing a repository directory
  into a tree of files, plain directories and root directories, and applying
  that tree to the disk with a confirmation gate in front of every write.

  Each operation has a specification function (the value it computes) and,
  where the source works step by step, a method that does the same with
  loops and early returns and is proved equal to the function.
*/
module Contents {
  import opened Base
  import opened Gate
  import opened Config

  // ---------------------------------------------------------------------
  // Data model
  // ---------------------------------------------------------------------

  /** What parsing inherits top-down: the active ignore set and the resolved configuration. */
  datatype ParseContext = ParseContext(ignored: GlobSet, config: SiloConfig)

  datatype FileEntry = Template(path: Path) | Plain(path: Path)

  datatype DirEntry =
    | File(file: FileEntry)
    | Dir(path: Path, children: seq<DirEntry>)
    | Root(path: Path, data: RootDirData, children: seq<DirEntry>)

  /**
    IGNORED_PATHS (".git" and "dir.toml" / "dir.toml.tmpl" at any depth) as
    it applies here: the path tested is the entry's path relative to the
    directory being read, which is the entry's own name, and the leading
    any-depth wildcard also matches zero directories.
  */
  predicate FixedIgnored(name: string) {
    name == ".git" || name == "dir.toml" || name == "dir.toml.tmpl"
  }

  /** A directory entry is parsed only if neither the fixed set nor the context's set matches it. */
  predicate Visible(host: Host, ctx: ParseContext, name: string) {
    !FixedIgnored(name) && !IsMatch(host, ctx.ignored, name)
  }

  /** The entries of a directory in read order (none for anything that is not a directory). */
  function Listing(fs: Fs, p: Path): seq<string> {
    if p in fs.dirs then fs.dirs[p] else []
  }

  // ---------------------------------------------------------------------
  // Parsing: specification
  // ---------------------------------------------------------------------

  /** `FileEntry::parse`: a template exactly when the extension is "tmpl". */
  function ParseFile(p: Path): (f: FileEntry)
    ensures f.path == p
    ensures f.Template? <==> FileName(p).Some? && Extension(FileName(p).value) == Some("tmpl")
  {
    if FileName(p).Some? && Extension(FileName(p).value) == Some("tmpl") then Template(p) else Plain(p)
  }

  /**
    `RootDirData::read`: the metadata decoded from the file's text; an
    unreadable file is an I/O error, undecodable text a metadata error.
  */
  function ReadMetadata(host: Host, fs: Fs, p: Path): (r: Result<RootDirData>)
    ensures r.Ok? <==> ReadToString(host, fs, p).Ok? && host.decodeMetadata(ReadToString(host, fs, p).value).Some?
    ensures r.Ok? ==> p in fs.files && r.value == host.decodeMetadata(host.utf8Decode(fs.files[p].data).value).value
    ensures r.Err? ==> r == Err(Io(p)) || r == Err(BadMetadata(p))
  {
    match ReadToString(host, fs, p)
    case Err(e) => Err(e)
    case Ok(text) =>
      match host.decodeMetadata(text)
      case None => Err(BadMetadata(p))
      case Some(d) => Ok(d)
  }

  /** `RootDirData::read_template`: the file is rendered against `tctx` before decoding. */
  function ReadMetadataTemplate(host: Host, fs: Fs, p: Path, tctx: Value): (r: Result<RootDirData>)
    ensures var text := ReadToString(host, fs, p);
      r.Ok? <==> text.Ok? && host.render(text.value, tctx).Some? &&
                 host.decodeMetadata(host.render(text.value, tctx).value).Some?
    ensures r.Ok? ==>
      p in fs.files &&
      r.value == host.decodeMetadata(host.render(host.utf8Decode(fs.files[p].data).value, tctx).value).value
    ensures ReadToString(host, fs, p).Ok? && host.render(ReadToString(host, fs, p).value, tctx).None? ==>
      r == Err(RenderFailed(ReadToString(host, fs, p).value))
  {
    match ReadToString(host, fs, p)
    case Err(e) => Err(e)
    case Ok(text) =>
      match Render(host, text, tctx)
      case Err(e) => Err(e)
      case Ok(rendered) =>
        match host.decodeMetadata(rendered)
        case None => Err(BadMetadata(p))
        case Some(d) => Ok(d)
  }

  /** The metadata of directory p: `dir.toml` first, then `dir.toml.tmpl`, else none. */
  function Metadata(host: Host, fs: Fs, tctx: Value, p: Path): Result<Option<RootDirData>> {
    var metaFile := Join(p, "dir.toml");
    var metaTmpl := Join(p, "dir.toml.tmpl");
    if Exists(fs, metaFile) then
      match ReadMetadata(host, fs, metaFile)
      case Err(e) => Err(e)
      case Ok(d) => Ok(Some(d))
    else if Exists(fs, metaTmpl) then
      match ReadMetadataTemplate(host, fs, metaTmpl, tctx)
      case Err(e) => Err(e)
      case Ok(d) => Ok(Some(d))
    else Ok(None)
  }

  /** The context a directory hands to its children. */
  function ChildContext(ctx: ParseContext, meta: Option<RootDirData>): ParseContext {
    if meta.Some? then ParseContext(meta.value.ignored, ctx.config) else ctx
  }

  /** The directories at or below p; it shrinks on every step down the tree. */
  ghost function Scope(fs: Fs, p: Path): set<Path> {
    set d | d in fs.dirs && IsPrefix(p, d)
  }

  lemma ScopeShrinks(fs: Fs, p: Path, n: string)
    requires p in fs.dirs
    ensures Scope(fs, Join(p, n)) < Scope(fs, p)
  {
    forall d | d in Scope(fs, Join(p, n)) ensures d in Scope(fs, p) {
      assert d[..|p|] == d[..|p| + 1][..|p|];
    }
    assert p in Scope(fs, p);
  }

  /** `DirEntry::parse`: the tree rooted at p, or the first error met. */
  function ParseEntry(host: Host, fs: Fs, ctx: ParseContext, p: Path): Result<DirEntry>
    decreases Scope(fs, p), 1
  {
    if p !in fs.dirs then Ok(DirEntry.File(ParseFile(p)))
    else
      match Metadata(host, fs, TemplateContext(ctx.config), p)
      case Err(e) => Err(e)
      case Ok(meta) =>
        match ParseChildren(host, fs, ChildContext(ctx, meta), p, Listing(fs, p))
        case Err(e) => Err(e)
        case Ok(cs) => Ok(if meta.Some? then Root(p, meta.value, cs) else Dir(p, cs))
  }

  /** The children parsed from the names of dir, in order, skipping the invisible ones. */
  function ParseChildren(host: Host, fs: Fs, ctx: ParseContext, dir: Path, names: seq<string>)
    : Result<seq<DirEntry>>
    requires dir in fs.dirs || |names| == 0
    decreases Scope(fs, dir), 0, |names|
  {
    if |names| == 0 then Ok([])
    else
      match ParseChildren(host, fs, ctx, dir, names[..|names| - 1])
      case Err(e) => Err(e)
      case Ok(cs) =>
        var n := names[|names| - 1];
        if !Visible(host, ctx, n) then Ok(cs)
        else
          ScopeShrinks(fs, dir, n);
          match ParseEntry(host, fs, ctx, Join(dir, n))
          case Err(e) => Err(e)
          case Ok(c) => Ok(cs + [c])
  }

  // ---------------------------------------------------------------------
  // Parsing: properties
  // ---------------------------------------------------------------------

  /** The names that pass both filters, in their original order. */
  function VisibleNames(host: Host, ctx: ParseContext, names: seq<string>): (vs: seq<string>)
    ensures |vs| <= |names|
    ensures forall n :: n in vs <==> n in names && Visible(host, ctx, n)
  {
    if |names| == 0 then []
    else
      var front := VisibleNames(host, ctx, names[..|names| - 1]);
      var n := names[|names| - 1];
      assert forall m :: m in names <==> m in names[..|names| - 1] || m == n;
      if Visible(host, ctx, n) then front + [n] else front
  }

  /**
    Filtering keeps the listing order: the visible names of a listing are
    those of its first part followed by those of the rest.
  */
  lemma {:induction false} VisibleNamesKeepOrder(host: Host, ctx: ParseContext, a: seq<string>, b: seq<string>)
    ensures VisibleNames(host, ctx, a + b) == VisibleNames(host, ctx, a) + VisibleNames(host, ctx, b)
    decreases |b|
  {
    if |b| == 0 {
      assert a + b == a;
    } else {
      var front := b[..|b| - 1];
      assert (a + b)[..|a + b| - 1] == a + front;
      VisibleNamesKeepOrder(host, ctx, a, front);
    }
  }

  /** Once a prefix of the names fails, the whole list fails with that error. */
  lemma {:induction false} ChildrenErrorSticks(host: Host, fs: Fs, ctx: ParseContext, dir: Path,
                                              names: seq<string>, k: nat)
    requires dir in fs.dirs
    requires k <= |names|
    requires ParseChildren(host, fs, ctx, dir, names[..k]).Err?
    ensures ParseChildren(host, fs, ctx, dir, names) == ParseChildren(host, fs, ctx, dir, names[..k])
    decreases |names| - k
  {
    if k < |names| {
      var front := names[..|names| - 1];
      assert front[..k] == names[..k];
      ChildrenErrorSticks(host, fs, ctx, dir, front, k);
    } else {
      assert names[..k] == names;
    }
  }

  /**
    Excluded entries are never parsed: the children of a name list are those
    of its visible names alone, whatever the excluded entries hold.
  */
  lemma {:induction false} ChildrenOnlyVisible(host: Host, fs: Fs, ctx: ParseContext, dir: Path,
                                              names: seq<string>)
    requires dir in fs.dirs
    ensures ParseChildren(host, fs, ctx, dir, names) ==
      ParseChildren(host, fs, ctx, dir, VisibleNames(host, ctx, names))
  {
    if |names| > 0 {
      var front := names[..|names| - 1];
      var n := names[|names| - 1];
      ChildrenOnlyVisible(host, fs, ctx, dir, front);
      var vf := VisibleNames(host, ctx, front);
      if Visible(host, ctx, n) {
        assert (vf + [n])[..|vf + [n]| - 1] == vf;
      }
    }
  }

  /**
    Children keep their order: a successful parse of a name list holds, in
    order, one parsed entry per visible name, and it succeeds exactly when
    every visible name parses.
  */
  lemma ChildrenInOrder(host: Host, fs: Fs, ctx: ParseContext, dir: Path, names: seq<string>)
    requires dir in fs.dirs
    ensures var vs := VisibleNames(host, ctx, names);
      var r := ParseChildren(host, fs, ctx, dir, names);
      (r.Ok? <==> forall i :: 0 <= i < |vs| ==> ParseEntry(host, fs, ctx, Join(dir, vs[i])).Ok?) &&
      (r.Ok? ==>
        |r.value| == |vs| &&
        forall i :: 0 <= i < |vs| ==> r.value[i] == ParseEntry(host, fs, ctx, Join(dir, vs[i])).value)
  {
    ChildrenOkIff(host, fs, ctx, dir, names);
    ChildrenValues(host, fs, ctx, dir, names);
  }

  lemma {:induction false} ChildrenOkIff(host: Host, fs: Fs, ctx: ParseContext, dir: Path, names: seq<string>)
    requires dir in fs.dirs
    ensures var vs := VisibleNames(host, ctx, names);
      ParseChildren(host, fs, ctx, dir, names).Ok? <==>
        forall i :: 0 <= i < |vs| ==> ParseEntry(host, fs, ctx, Join(dir, vs[i])).Ok?
  {
    if |names| > 0 {
      var front := names[..|names| - 1];
      var n := names[|names| - 1];
      ChildrenOkIff(host, fs, ctx, dir, front);
      var vf := VisibleNames(host, ctx, front);
      assert ParseChildren(host, fs, ctx, dir, front).Ok? ==>
        forall j :: 0 <= j < |VisibleNames(host, ctx, front)| ==>
          ParseEntry(host, fs, ctx, Join(dir, VisibleNames(host, ctx, front)[j])).Ok?;
      if Visible(host, ctx, n) {
        var vs := vf + [n];
        assert VisibleNames(host, ctx, names) == vs;
        assert forall i :: 0 <= i < |vf| ==> vs[i] == vf[i];
        if ParseChildren(host, fs, ctx, dir, front).Err? {
          var i :| 0 <= i < |vf| && ParseEntry(host, fs, ctx, Join(dir, vf[i])).Err?;
          assert ParseEntry(host, fs, ctx, Join(dir, vs[i])).Err?;
        } else if ParseEntry(host, fs, ctx, Join(dir, n)).Err? {
          assert ParseEntry(host, fs, ctx, Join(dir, vs[|vf|])).Err?;
        } else {
          forall i | 0 <= i < |vs| ensures ParseEntry(host, fs, ctx, Join(dir, vs[i])).Ok? {
            if i < |vf| {
              assert vs[i] == vf[i];
            } else {
              assert vs[i] == n;
            }
          }
        }
      } else {
        assert VisibleNames(host, ctx, names) == vf;
      }
    }
  }

  lemma {:induction false} ChildrenValues(host: Host, fs: Fs, ctx: ParseContext, dir: Path, names: seq<string>)
    requires dir in fs.dirs
    ensures var vs := VisibleNames(host, ctx, names);
      var r := ParseChildren(host, fs, ctx, dir, names);
      r.Ok? ==>
        |r.value| == |vs| &&
        forall i :: 0 <= i < |vs| ==> Ok(r.value[i]) == ParseEntry(host, fs, ctx, Join(dir, vs[i]))
  {
    if |names| > 0 {
      var front := names[..|names| - 1];
      var n := names[|names| - 1];
      ChildrenValues(host, fs, ctx, dir, front);
      var vf := VisibleNames(host, ctx, front);
      if Visible(host, ctx, n) {
        var vs := vf + [n];
        assert VisibleNames(host, ctx, names) == vs;
        assert forall i :: 0 <= i < |vf| ==> vs[i] == vf[i];
      } else {
        assert VisibleNames(host, ctx, names) == vf;
      }
    }
  }

  /**
    Metadata precedence: `dir.toml` wins over `dir.toml.tmpl`; with only the
    template the rendered template is decoded; with neither there is none.
  */
  lemma MetadataPrecedence(host: Host, fs: Fs, tctx: Value, p: Path)
    ensures Exists(fs, Join(p, "dir.toml")) ==>
      Metadata(host, fs, tctx, p).Ok? == ReadMetadata(host, fs, Join(p, "dir.toml")).Ok? &&
      (Metadata(host, fs, tctx, p).Ok? ==>
        Metadata(host, fs, tctx, p).value == Some(ReadMetadata(host, fs, Join(p, "dir.toml")).value))
    ensures !Exists(fs, Join(p, "dir.toml")) && Exists(fs, Join(p, "dir.toml.tmpl")) ==>
      Metadata(host, fs, tctx, p).Ok? == ReadMetadataTemplate(host, fs, Join(p, "dir.toml.tmpl"), tctx).Ok? &&
      (Metadata(host, fs, tctx, p).Ok? ==>
        Metadata(host, fs, tctx, p).value == Some(ReadMetadataTemplate(host, fs, Join(p, "dir.toml.tmpl"), tctx).value))
    ensures !Exists(fs, Join(p, "dir.toml")) && !Exists(fs, Join(p, "dir.toml.tmpl")) ==>
      Metadata(host, fs, tctx, p) == Ok(None)
  {
  }

  /**
    A directory becomes a root exactly when it has a metadata file or
    template, and the root carries the decoded metadata; anything that is not
    a directory becomes a file entry.
  */
  lemma RootIffMetadata(host: Host, fs: Fs, ctx: ParseContext, p: Path)
    requires ParseEntry(host, fs, ctx, p).Ok?
    ensures var e := ParseEntry(host, fs, ctx, p).value;
      (e.File? <==> p !in fs.dirs) &&
      (e.Root? <==> p in fs.dirs && (Exists(fs, Join(p, "dir.toml")) || Exists(fs, Join(p, "dir.toml.tmpl")))) &&
      (e.Root? ==> Metadata(host, fs, TemplateContext(ctx.config), p) == Ok(Some(e.data))) &&
      (!e.File? ==> e.path == p)
  {
  }

  /**
    Metadata replaces the inherited ignore set instead of adding to it: below
    a root, what the parent context ignored no longer matters.
  */
  lemma MetadataReplacesIgnored(host: Host, fs: Fs, ctx1: ParseContext, ctx2: ParseContext, p: Path)
    requires p in fs.dirs
    requires ctx1.config == ctx2.config
    requires Exists(fs, Join(p, "dir.toml")) || Exists(fs, Join(p, "dir.toml.tmpl"))
    ensures ParseEntry(host, fs, ctx1, p) == ParseEntry(host, fs, ctx2, p)
  {
    var m := Metadata(host, fs, TemplateContext(ctx1.config), p);
    if m.Ok? {
      assert m.value.Some?;
      assert ChildContext(ctx1, m.value) == ChildContext(ctx2, m.value);
    }
  }

  /** A directory without metadata hands its own context, unchanged, to its children. */
  lemma PlainDirInherits(host: Host, fs: Fs, ctx: ParseContext, p: Path)
    requires p in fs.dirs
    requires !Exists(fs, Join(p, "dir.toml")) && !Exists(fs, Join(p, "dir.toml.tmpl"))
    ensures var r := ParseEntry(host, fs, ctx, p);
      var cs := ParseChildren(host, fs, ctx, p, fs.dirs[p]);
      (r.Ok? <==> cs.Ok?) && (r.Ok? ==> r.value == Dir(p, cs.value))
  {
  }

  /**
    The configuration reaches parsing only as the context metadata templates
    are rendered against: two configurations with the same template context
    parse every tree the same way.
  */
  lemma {:induction false} ParseNeedsOnlyTemplateContext(host: Host, fs: Fs, ignored: GlobSet,
                                                        c1: SiloConfig, c2: SiloConfig, p: Path)
    requires TemplateContext(c1) == TemplateContext(c2)
    ensures ParseEntry(host, fs, ParseContext(ignored, c1), p) == ParseEntry(host, fs, ParseContext(ignored, c2), p)
    decreases Scope(fs, p), 1
  {
    if p in fs.dirs {
      var m := Metadata(host, fs, TemplateContext(c1), p);
      if m.Ok? {
        var inner := if m.value.Some? then m.value.value.ignored else ignored;
        ChildrenNeedOnlyTemplateContext(host, fs, inner, c1, c2, p, fs.dirs[p]);
      }
    }
  }

  lemma {:induction false} ChildrenNeedOnlyTemplateContext(host: Host, fs: Fs, ignored: GlobSet,
                                                          c1: SiloConfig, c2: SiloConfig, dir: Path, names: seq<string>)
    requires dir in fs.dirs
    requires TemplateContext(c1) == TemplateContext(c2)
    ensures ParseChildren(host, fs, ParseContext(ignored, c1), dir, names) ==
      ParseChildren(host, fs, ParseContext(ignored, c2), dir, names)
    decreases Scope(fs, dir), 0, |names|
  {
    if |names| > 0 {
      ChildrenNeedOnlyTemplateContext(host, fs, ignored, c1, c2, dir, names[..|names| - 1]);
      var n := names[|names| - 1];
      ScopeShrinks(fs, dir, n);
      ParseNeedsOnlyTemplateContext(host, fs, ignored, c1, c2, Join(dir, n));
    }
  }

  // ---------------------------------------------------------------------
  // Parsing: the imperative walk
  // ---------------------------------------------------------------------

  /** `DirEntry::parse`: probe the metadata, then read the directory entry by entry. */
  method Parse(host: Host, fs: Fs, ctx: ParseContext, p: Path) returns (r: Result<DirEntry>)
    ensures r == ParseEntry(host, fs, ctx, p)
    decreases Scope(fs, p)
  {
    if p !in fs.dirs {
      return Ok(DirEntry.File(ParseFile(p)));
    }
    var metaFile := Join(p, "dir.toml");
    var metaTmpl := Join(p, "dir.toml.tmpl");
    var metadata: Option<RootDirData> := None;
    var cctx := ctx;
    if Exists(fs, metaFile) {
      var m := ReadMetadata(host, fs, metaFile);
      if m.Err? {
        return Err(m.error);
      }
      cctx := ParseContext(m.value.ignored, ctx.config);
      metadata := Some(m.value);
    } else if Exists(fs, metaTmpl) {
      var m := ReadMetadataTemplate(host, fs, metaTmpl, TemplateContext(ctx.config));
      if m.Err? {
        return Err(m.error);
      }
      cctx := ParseContext(m.value.ignored, ctx.config);
      metadata := Some(m.value);
    }
    assert Metadata(host, fs, TemplateContext(ctx.config), p) == Ok(metadata);
    assert cctx == ChildContext(ctx, metadata);

    var names := fs.dirs[p];
    var children: seq<DirEntry> := [];
    var i := 0;
    while i < |names|
      invariant 0 <= i <= |names|
      invariant ParseChildren(host, fs, cctx, p, names[..i]) == Ok(children)
    {
      var n := names[i];
      assert names[..i + 1][..i] == names[..i];
      if Visible(host, cctx, n) {
        ScopeShrinks(fs, p, n);
        var c := Parse(host, fs, cctx, Join(p, n));
        if c.Err? {
          ChildrenErrorSticks(host, fs, cctx, p, names, i + 1);
          return Err(c.error);
        }
        children := children + [c.value];
      }
      i := i + 1;
    }
    assert names[..|names|] == names;
    if metadata.Some? {
      r := Ok(Root(p, metadata.value, children));
    } else {
      r := Ok(Dir(p, children));
    }
  }

  // ---------------------------------------------------------------------
  // Applying: specification
  // ---------------------------------------------------------------------

  /** The cursor inside `Dir(p, _)`: the incoming cursor plus p's name, unless p is the cursor. */
  function DirCursor(p: Path, cwd: Path): (r: Result<Path>)
    ensures p == cwd ==> r == Ok(p)
    ensures p != cwd && FileName(p).Some? ==>
      r.Ok? && |r.value| == |cwd| + 1 && Parent(r.value) == cwd && r.value[|cwd|] == p[|p| - 1]
    ensures p != cwd && FileName(p).None? ==> r == Err(Panic)
  {
    if p != cwd then
      match FileName(p)
      case None => Err(Panic)
      case Some(n) => Ok(Join(cwd, n))
    else Ok(p)
  }

  /**
    The name of `path.with_extension("")`: the stem of the file name, except
    that a stem `.` leaves a path ending in `/.`, whose name is the parent
    directory's, and a stem `..` leaves a path with no name at all.
  */
  function StrippedName(p: Path): (r: Option<string>)
    ensures r.Some? ==> FileName(p).Some?
    ensures FileName(p).Some? && WithoutExtension(FileName(p).value) !in {".", ".."} ==>
      r == Some(WithoutExtension(FileName(p).value))
  {
    match FileName(p)
    case None => None
    case Some(n) =>
      var stem := WithoutExtension(n);
      if stem == ".." then None
      else if stem == "." then FileName(Parent(p))
      else Some(stem)
  }

  /**
    Where a file entry lands: directly under the cursor, a plain file under
    its own name, a template under the name of its path without the last
    extension; a missing name panics (`unwrap`).
  */
  function FileDest(f: FileEntry, cwd: Path): (r: Result<Path>)
    ensures r.Ok? ==> |r.value| == |cwd| + 1 && Parent(r.value) == cwd
    ensures r.Err? ==> r == Err(Panic)
    ensures f.Plain? ==> (r.Ok? <==> FileName(f.path).Some?)
    ensures f.Plain? && r.Ok? ==> r.value[|cwd|] == FileName(f.path).value
  {
    var name := if f.Template? then StrippedName(f.path) else FileName(f.path);
    match name
    case None => Err(Panic)
    case Some(n) => Ok(Join(cwd, n))
  }

  /**
    A template `x.tmpl` lands at cursor/x, so the destination name plus
    `.tmpl` is the source name; `..tmpl` lands under the name of the
    directory holding it, and `...tmpl` panics.
  */
  lemma TemplateDropsSuffix(p: Path, cwd: Path)
    requires ParseFile(p).Template?
    ensures var r := FileDest(ParseFile(p), cwd);
      var n := FileName(p).value;
      var stem := WithoutExtension(n);
      stem + ".tmpl" == n &&
      (stem != "." && stem != ".." ==> r.Ok? && r.value[|cwd|] + ".tmpl" == n) &&
      (stem == ".." ==> r == Err(Panic)) &&
      (stem == "." ==> (r.Ok? <==> |p| >= 2 && p[|p| - 2] != "..") && (r.Ok? ==> r.value[|cwd|] == p[|p| - 2]))
  {
  }

  /** `confirm_write(diff_tool, a, b)`: may the file at a replace b? */
  function ConfirmPaths(host: Host, tool: string, a: Path, b: Path, w: World): (s: Step<bool>)
    ensures s.world.fs == w.fs
  {
    if !Exists(w.fs, b) then Step(w, Ok(true))
    else if a !in w.fs.files then Step(w, Err(Io(a)))
    else Confirm(host, tool, w.fs.files[a].data, b, w)
  }

  /** `FileEntry::apply`: render or copy one file to its destination if the gate allows. */
  function ApplyFile(host: Host, cfg: SiloConfig, f: FileEntry, cwd: Path, w: World): Step<()> {
    match f
    case Template(p) =>
      (match ReadToString(host, w.fs, p)
      case Err(e) => Step(w, Err(e))
      case Ok(text) =>
        match FileDest(f, cwd)
        case Err(e) => Step(w, Err(e))
        case Ok(dest) =>
          match Render(host, text, TemplateContext(cfg))
          case Err(e) => Step(w, Err(e))
          case Ok(rendered) =>
            var data := host.utf8Encode(rendered);
            var g := Confirm(host, cfg.diffTool, data, dest, w);
            if g.result.Err? then Step(g.world, Err(g.result.error))
            else if !g.result.value then Step(g.world, Ok(()))
            else
              (match WriteFile(g.world.fs, dest, data)
               case Err(e) => Step(g.world, Err(e))
               case Ok(fs1) => Step(World(fs1, g.world.answers, g.world.events + [Written(dest)]), Ok(()))))
    case Plain(p) =>
      match FileDest(f, cwd)
      case Err(e) => Step(w, Err(e))
      case Ok(dest) =>
        var g := ConfirmPaths(host, cfg.diffTool, p, dest, w);
        if g.result.Err? then Step(g.world, Err(g.result.error))
        else if !g.result.value then Step(g.world, Ok(()))
        else
          match CopyFile(g.world.fs, p, dest)
          case Err(e) => Step(g.world, Err(e))
          case Ok(fs1) => Step(World(fs1, g.world.answers, g.world.events + [Written(dest)]), Ok(()))
  }

  /** `DirEntry::apply`. */
  function ApplyEntry(host: Host, cfg: SiloConfig, e: DirEntry, cwd: Path, w: World): Step<()>
    decreases e, 1
  {
    match e
    case File(f) =>
      var s := EnsureDir(w, cwd);
      if s.result.Err? then s else ApplyFile(host, cfg, f, cwd, s.world)
    case Dir(p, cs) =>
      (match DirCursor(p, cwd)
       case Err(err) => Step(w, Err(err))
       case Ok(c) =>
         var s := if p != cwd then EnsureDir(w, c) else Step(w, Ok(()));
         if s.result.Err? then s else ApplyChildren(host, cfg, cs, c, s.world))
    case Root(_, data, cs) =>
      match Render(host, data.path, TemplateContext(cfg))
      case Err(err) => Step(w, Err(err))
      case Ok(rendered) => ApplyChildren(host, cfg, cs, ToPath(rendered), w)
  }

  /** The children in order; the first error stops the rest. */
  function ApplyChildren(host: Host, cfg: SiloConfig, cs: seq<DirEntry>, cwd: Path, w: World): Step<()>
    decreases cs, 0
  {
    if |cs| == 0 then Step(w, Ok(()))
    else
      var s := ApplyChildren(host, cfg, cs[..|cs| - 1], cwd, w);
      if s.result.Err? then s else ApplyEntry(host, cfg, cs[|cs| - 1], cwd, s.world)
  }

  // ---------------------------------------------------------------------
  // Applying: properties
  // ---------------------------------------------------------------------

  /** A root's children land under its rendered path, whatever the incoming cursor. */
  lemma RootRebases(host: Host, cfg: SiloConfig, q: Path, data: RootDirData, cs: seq<DirEntry>,
                    cwd1: Path, cwd2: Path, w: World)
    ensures ApplyEntry(host, cfg, Root(q, data, cs), cwd1, w) == ApplyEntry(host, cfg, Root(q, data, cs), cwd2, w)
    ensures host.render(data.path, TemplateContext(cfg)).Some? ==>
      ApplyEntry(host, cfg, Root(q, data, cs), cwd1, w) ==
        ApplyChildren(host, cfg, cs, ToPath(host.render(data.path, TemplateContext(cfg)).value), w)
  {
  }

  /**
    The confirmation a file entry reaches, if it reaches one: a template
    is read, placed and rendered first and asks about the rendered bytes; a
    plain file asks about its own bytes.
  */
  function GateOf(host: Host, cfg: SiloConfig, f: FileEntry, cwd: Path, w: World): Option<Step<bool>> {
    match FileDest(f, cwd)
    case Err(_) => None
    case Ok(dest) =>
      if f.Plain? then Some(ConfirmPaths(host, cfg.diffTool, f.path, dest, w))
      else match ReadToString(host, w.fs, f.path)
        case Err(_) => None
        case Ok(text) =>
          match Render(host, text, TemplateContext(cfg))
          case Err(_) => None
          case Ok(rendered) => Some(Confirm(host, cfg.diffTool, host.utf8Encode(rendered), dest, w))
  }

  /**
    The write gate: the disk changes only at the destination, and only when
    the gate accepted; a declined file leaves the disk as it was; a file
    that fails before the gate changes nothing at all.
  */
  lemma FileWrittenOnlyIfAccepted(host: Host, cfg: SiloConfig, f: FileEntry, cwd: Path, w: World)
    ensures var s := ApplyFile(host, cfg, f, cwd, w);
      var g := GateOf(host, cfg, f, cwd, w);
      (s.world.fs != w.fs ==>
        g.Some? && g.value.result == Ok(true) && FileDest(f, cwd).Ok? && s.result.Ok? &&
        var dest := FileDest(f, cwd).value;
        dest in s.world.fs.files &&
        s.world.fs.files == w.fs.files[dest := s.world.fs.files[dest]] &&
        s.world.events[|s.world.events| - 1] == Written(dest)) &&
      (g.Some? && g.value.result == Ok(false) ==> s == Step(g.value.world, Ok(())) && s.world.fs == w.fs) &&
      (g.None? ==> s.world == w && s.result.Err?) &&
      (s.world.answers != w.answers ==> |w.answers| > 0 && s.world.answers == w.answers[1..])
  {
    var g := GateOf(host, cfg, f, cwd, w);
    if g.Some? {
      var dest := FileDest(f, cwd).value;
      var gs := g.value;
      assert gs.world.fs == w.fs;
      if f.Plain? {
        assert ApplyFile(host, cfg, f, cwd, w) ==
          if gs.result.Err? then Step(gs.world, Err(gs.result.error))
          else if !gs.result.value then Step(gs.world, Ok(()))
          else match CopyFile(gs.world.fs, f.path, dest)
            case Err(e) => Step(gs.world, Err(e))
            case Ok(fs1) => Step(World(fs1, gs.world.answers, gs.world.events + [Written(dest)]), Ok(()));
      } else {
        var data := host.utf8Encode(Render(host, ReadToString(host, w.fs, f.path).value, TemplateContext(cfg)).value);
        assert ApplyFile(host, cfg, f, cwd, w) ==
          if gs.result.Err? then Step(gs.world, Err(gs.result.error))
          else if !gs.result.value then Step(gs.world, Ok(()))
          else match WriteFile(gs.world.fs, dest, data)
            case Err(e) => Step(gs.world, Err(e))
            case Ok(fs1) => Step(World(fs1, gs.world.answers, gs.world.events + [Written(dest)]), Ok(()));
      }
    }
  }

  /**
    What an accepted file leaves behind: the write is the last event, and
    the destination holds the source file (a plain file, with its mode) or
    the UTF-8 bytes of the rendered template.
  */
  lemma AcceptedFileContent(host: Host, cfg: SiloConfig, f: FileEntry, cwd: Path, w: World)
    ensures var s := ApplyFile(host, cfg, f, cwd, w);
      var g := GateOf(host, cfg, f, cwd, w);
      g.Some? && g.value.result == Ok(true) && s.result.Ok? ==>
        FileDest(f, cwd).Ok? &&
        var dest := FileDest(f, cwd).value;
        s.world.events == g.value.world.events + [Written(dest)] && dest in s.world.fs.files &&
        (f.Plain? ==> f.path in w.fs.files && s.world.fs.files[dest] == w.fs.files[f.path]) &&
        (f.Template? ==>
          ReadToString(host, w.fs, f.path).Ok? &&
          Render(host, ReadToString(host, w.fs, f.path).value, TemplateContext(cfg)).Ok? &&
          s.world.fs.files[dest].data ==
            host.utf8Encode(Render(host, ReadToString(host, w.fs, f.path).value, TemplateContext(cfg)).value))
  {
    var g := GateOf(host, cfg, f, cwd, w);
    if g.Some? {
      var dest := FileDest(f, cwd).value;
      var gs := g.value;
      assert gs.world.fs == w.fs;
      if f.Plain? {
        assert ApplyFile(host, cfg, f, cwd, w) ==
          if gs.result.Err? then Step(gs.world, Err(gs.result.error))
          else if !gs.result.value then Step(gs.world, Ok(()))
          else match CopyFile(gs.world.fs, f.path, dest)
            case Err(e) => Step(gs.world, Err(e))
            case Ok(fs1) => Step(World(fs1, gs.world.answers, gs.world.events + [Written(dest)]), Ok(()));
      } else {
        var data := host.utf8Encode(Render(host, ReadToString(host, w.fs, f.path).value, TemplateContext(cfg)).value);
        assert ApplyFile(host, cfg, f, cwd, w) ==
          if gs.result.Err? then Step(gs.world, Err(gs.result.error))
          else if !gs.result.value then Step(gs.world, Ok(()))
          else match WriteFile(gs.world.fs, dest, data)
            case Err(e) => Step(gs.world, Err(e))
            case Ok(fs1) => Step(World(fs1, gs.world.answers, gs.world.events + [Written(dest)]), Ok(()));
      }
    }
  }

  /** A plain file whose destination already holds the same bytes is copied without any question. */
  lemma SameContentIsSilent(host: Host, cfg: SiloConfig, p: Path, cwd: Path, w: World)
    requires FileDest(Plain(p), cwd).Ok?
    requires var dest := FileDest(Plain(p), cwd).value;
      p in w.fs.files && dest in w.fs.files && w.fs.files[dest].data == w.fs.files[p].data &&
      dest !in w.fs.dirs && IsDir(w.fs, cwd)
    ensures var s := ApplyFile(host, cfg, Plain(p), cwd, w);
      s.world.answers == w.answers &&
      s.world.events == w.events + [Written(FileDest(Plain(p), cwd).value)]
  {
  }

  /**
    Applying a plain file a second time asks nothing and leaves the disk as
    the first application left it.
  */
  lemma PlainApplyTwiceIsQuiet(host: Host, cfg: SiloConfig, p: Path, cwd: Path, w: World)
    requires FileDest(Plain(p), cwd).Ok? && FileDest(Plain(p), cwd).value != p
    requires ApplyFile(host, cfg, Plain(p), cwd, w).result.Ok?
    requires Written(FileDest(Plain(p), cwd).value) in ApplyFile(host, cfg, Plain(p), cwd, w).world.events[|w.events|..]
    ensures var w1 := ApplyFile(host, cfg, Plain(p), cwd, w).world;
      var w2 := ApplyFile(host, cfg, Plain(p), cwd, w1).world;
      w2.fs == w1.fs && w2.answers == w1.answers
  {
    var dest := FileDest(Plain(p), cwd).value;
    var s := ApplyFile(host, cfg, Plain(p), cwd, w);
    var g := ConfirmPaths(host, cfg.diffTool, p, dest, w);
    assert s.world.events != g.world.events;
    assert g.result == Ok(true);
    var w1 := s.world;
    assert w1.fs.files[dest] == w1.fs.files[p];
    assert w1.fs.files[dest := w1.fs.files[p]] == w1.fs.files;
  }

  /** One more child: the front's failure, or the last child applied after the front. */
  lemma ApplyChildrenSnoc(host: Host, cfg: SiloConfig, cs: seq<DirEntry>, cwd: Path, w: World)
    requires |cs| > 0
    ensures var s := ApplyChildren(host, cfg, cs[..|cs| - 1], cwd, w);
      ApplyChildren(host, cfg, cs, cwd, w) == if s.result.Err? then s else ApplyEntry(host, cfg, cs[|cs| - 1], cwd, s.world)
  {
  }

  /** After the first failing child nothing more happens: later siblings are never applied. */
  lemma {:induction false} FirstErrorStops(host: Host, cfg: SiloConfig, cs: seq<DirEntry>, rest: seq<DirEntry>,
                                          cwd: Path, w: World)
    requires ApplyChildren(host, cfg, cs, cwd, w).result.Err?
    ensures ApplyChildren(host, cfg, cs + rest, cwd, w) == ApplyChildren(host, cfg, cs, cwd, w)
    decreases |rest|
  {
    if |rest| > 0 {
      var all := cs + rest;
      assert all[..|all| - 1] == cs + rest[..|rest| - 1];
      FirstErrorStops(host, cfg, cs, rest[..|rest| - 1], cwd, w);
      ApplyChildrenSnoc(host, cfg, all, cwd, w);
    } else {
      assert cs + rest == cs;
    }
  }

  /** A failing prefix decides the whole list. */
  lemma FailedPrefixStops(host: Host, cfg: SiloConfig, cs: seq<DirEntry>, k: nat, cwd: Path, w: World)
    requires k <= |cs| && ApplyChildren(host, cfg, cs[..k], cwd, w).result.Err?
    ensures ApplyChildren(host, cfg, cs, cwd, w) == ApplyChildren(host, cfg, cs[..k], cwd, w)
  {
    var front, rest := cs[..k], cs[k..];
    assert cs == front + rest;
    FirstErrorStops(host, cfg, front, rest, cwd, w);
  }

  // ---------------------------------------------------------------------
  // Applying: the imperative walk
  // ---------------------------------------------------------------------

  /** `ensure_cwd`; buffered.rs repeats the same helper as `ensure_parent`. */
  method EnsureCwd(w: World, p: Path) returns (w': World, r: Result<()>)
    ensures Step(w', r) == EnsureDir(w, p)
  {
    if Exists(w.fs, p) {
      return w, Ok(());
    }
    var created := CreateDirAll(w.fs, p);
    if created.Err? {
      return w, Err(created.error);
    }
    w' := World(created.value, w.answers, w.events + [DirCreated(p)]);
    r := Ok(());
  }

  /**
    `confirm_write`: a sequence of early returns, ending in the diff and the
    prompt; buffered.rs repeats it on staged bytes.
  */
  method ConfirmWrite(host: Host, tool: string, a: Path, b: Path, w: World) returns (w': World, r: Result<bool>)
    ensures Step(w', r) == ConfirmPaths(host, tool, a, b, w)
  {
    w' := w;
    if !Exists(w.fs, b) {
      return w, Ok(true);
    }
    if a !in w.fs.files {
      return w, Err(Io(a));
    }
    if b !in w.fs.files {
      return w, Err(Io(b));
    }
    if w.fs.files[a].data == w.fs.files[b].data {
      return w, Ok(true);
    }
    if tool !in host.installed {
      return w, Err(SpawnFailed(tool));
    }
    w' := w'.(events := w'.events + [DiffShown(b, w.fs.files[a].data)]);
    if |w'.answers| == 0 {
      return w', Err(PromptFailed);
    }
    var answer := w'.answers[0];
    w' := World(w'.fs, w'.answers[1..], w'.events + [Prompted(b, answer)]);
    r := Ok(answer);
  }

  /** `DirEntry::apply`: walk the tree, creating directories and writing files as it goes. */
  method Apply(host: Host, cfg: SiloConfig, e: DirEntry, cwd: Path, w: World) returns (w': World, r: Result<()>)
    ensures Step(w', r) == ApplyEntry(host, cfg, e, cwd, w)
    decreases e
  {
    match e
    case File(f) =>
      w', r := EnsureCwd(w, cwd);
      if r.Err? {
        return;
      }
      var s := ApplyFile(host, cfg, f, cwd, w');
      w', r := s.world, s.result;
    case Dir(p, cs) =>
      var c := p;
      w' := w;
      if p != cwd {
        var name := FileName(p);
        if name.None? {
          return w, Err(Panic);
        }
        c := Join(cwd, name.value);
        w', r := EnsureCwd(w, c);
        if r.Err? {
          return;
        }
      }
      w', r := ApplyEach(host, cfg, cs, c, w', e);
    case Root(_, data, cs) =>
      var rendered := Render(host, data.path, TemplateContext(cfg));
      if rendered.Err? {
        return w, Err(rendered.error);
      }
      w', r := ApplyEach(host, cfg, cs, ToPath(rendered.value), w, e);
  }

  /** The loop over a directory's children, stopping at the first error. */
  method ApplyEach(host: Host, cfg: SiloConfig, cs: seq<DirEntry>, cwd: Path, w: World, ghost parent: DirEntry)
    returns (w': World, r: Result<()>)
    requires forall c :: c in cs ==> c < parent
    ensures Step(w', r) == ApplyChildren(host, cfg, cs, cwd, w)
    decreases parent, 0
  {
    w', r := w, Ok(());
    var i := 0;
    while i < |cs|
      invariant 0 <= i <= |cs|
      invariant r.Ok? && Step(w', r) == ApplyChildren(host, cfg, cs[..i], cwd, w)
    {
      assert cs[..i + 1][..i] == cs[..i];
      assert cs[i] in cs;
      ghost var before := w';
      w', r := Apply(host, cfg, cs[i], cwd, w');
      ApplyChildrenSnoc(host, cfg, cs[..i + 1], cwd, w);
      if r.Err? {
        FailedPrefixStops(host, cfg, cs, i + 1, cwd, w);
        return;
      }
      i := i + 1;
    }
    assert cs[..|cs|] == cs;
  }
}
