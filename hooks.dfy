/**
  Lifecycle hooks (src/repo/hooks.rs): every `.nu` file of a hook directory
  is a script that may define any of four callbacks. Dispatching a callback
  calls it on each script in order; a script that does not define the
  callback is skipped, and the first failing call stops the dispatch.
*/
module Hooks {
  import opened Base

  /** What compiling a script yields: the callbacks it defines and whether a call succeeds. */
  datatype Compiled = Compiled(defines: set<Callback>, succeeds: (Callback, HookCtx) -> bool)

  /** A loaded hook script. */
  datatype HookScript = HookScript(path: Path, code: Compiled)

  // ---------------------------------------------------------------------
  // One script
  // ---------------------------------------------------------------------

  /**
    The four `HookScript` callback methods: call the callback if the script
    defines it, otherwise do nothing. Only the trace records the call.
  */
  function CallScript(s: HookScript, cb: Callback, ctx: HookCtx, w: World): (r: Step<()>)
    ensures r.world.fs == w.fs && r.world.answers == w.answers
    ensures cb !in s.code.defines ==> r == Step(w, Ok(()))
    ensures cb in s.code.defines ==> r.world.events == w.events + [HookRan(s.path, cb, ctx)]
    ensures r.result.Err? <==> cb in s.code.defines && !s.code.succeeds(cb, ctx)
    ensures r.result.Err? ==> r.result.error == HookFailed(s.path, cb)
  {
    if cb !in s.code.defines then Step(w, Ok(()))
    else
      var w1 := w.(events := w.events + [HookRan(s.path, cb, ctx)]);
      if s.code.succeeds(cb, ctx) then Step(w1, Ok(())) else Step(w1, Err(HookFailed(s.path, cb)))
  }

  // ---------------------------------------------------------------------
  // Dispatch over all scripts
  // ---------------------------------------------------------------------

  /** Call cb on each script in order, stopping at the first failure. */
  function Dispatch(scripts: seq<HookScript>, cb: Callback, ctx: HookCtx, w: World): (r: Step<()>)
    ensures r.world.fs == w.fs && r.world.answers == w.answers
  {
    if |scripts| == 0 then Step(w, Ok(()))
    else
      var s := Dispatch(scripts[..|scripts| - 1], cb, ctx, w);
      if s.result.Err? then s else CallScript(scripts[|scripts| - 1], cb, ctx, s.world)
  }

  /** A dispatch only appends to the record: what happened before it stays as it was. */
  lemma {:induction false} DispatchExtends(scripts: seq<HookScript>, cb: Callback, ctx: HookCtx, w: World)
    ensures var r := Dispatch(scripts, cb, ctx, w);
      |w.events| <= |r.world.events| && r.world.events[..|w.events|] == w.events
  {
    if |scripts| > 0 {
      var front := scripts[..|scripts| - 1];
      DispatchExtends(front, cb, ctx, w);
      var s := Dispatch(front, cb, ctx, w);
      if s.result.Ok? {
        var r := CallScript(scripts[|scripts| - 1], cb, ctx, s.world);
        assert r.world.events[..|s.world.events|] == s.world.events;
        assert r.world.events[..|w.events|] == r.world.events[..|s.world.events|][..|w.events|];
      }
    }
  }

  /** The calls a dispatch makes when every script succeeds: one per script defining cb, in order. */
  function Calls(scripts: seq<HookScript>, cb: Callback, ctx: HookCtx): (evs: seq<Event>)
    ensures |evs| <= |scripts|
  {
    if |scripts| == 0 then []
    else
      var s := scripts[|scripts| - 1];
      Calls(scripts[..|scripts| - 1], cb, ctx) + (if cb in s.code.defines then [HookRan(s.path, cb, ctx)] else [])
  }

  /** Whether calling cb fails on script s. */
  predicate Fails(s: HookScript, cb: Callback, ctx: HookCtx) {
    cb in s.code.defines && !s.code.succeeds(cb, ctx)
  }

  /**
    When no script fails, the dispatch succeeds and calls exactly the
    scripts that define the callback, in order; and conversely a dispatch
    fails only if some script fails.
  */
  lemma {:induction false} DispatchAllSucceed(scripts: seq<HookScript>, cb: Callback, ctx: HookCtx, w: World)
    ensures (forall i :: 0 <= i < |scripts| ==> !Fails(scripts[i], cb, ctx)) <==>
      Dispatch(scripts, cb, ctx, w).result.Ok?
    ensures Dispatch(scripts, cb, ctx, w).result.Ok? ==>
      Dispatch(scripts, cb, ctx, w).world.events == w.events + Calls(scripts, cb, ctx)
  {
    if |scripts| > 0 {
      var front := scripts[..|scripts| - 1];
      DispatchAllSucceed(front, cb, ctx, w);
      assert forall i :: 0 <= i < |front| ==> front[i] == scripts[i];
      var s := Dispatch(front, cb, ctx, w);
      if s.result.Ok? {
        if cb in scripts[|scripts| - 1].code.defines {
          assert s.world.events + [HookRan(scripts[|scripts| - 1].path, cb, ctx)] ==
            w.events + Calls(scripts, cb, ctx);
        } else {
          assert Calls(scripts, cb, ctx) == Calls(front, cb, ctx) + [];
        }
      } else {
        var i :| 0 <= i < |front| && Fails(front[i], cb, ctx);
        assert Fails(scripts[i], cb, ctx);
      }
    }
  }

  /**
    The first failing script ends the dispatch with its error: the scripts
    before it ran as usual and no later script is called.
  */
  lemma {:induction false} DispatchStopsAtFailure(scripts: seq<HookScript>, cb: Callback, ctx: HookCtx,
                                                 w: World, k: nat)
    requires k < |scripts| && Fails(scripts[k], cb, ctx)
    requires forall i :: 0 <= i < k ==> !Fails(scripts[i], cb, ctx)
    ensures var r := Dispatch(scripts, cb, ctx, w);
      r.result == Err(HookFailed(scripts[k].path, cb)) &&
      r.world.events == w.events + Calls(scripts[..k + 1], cb, ctx)
    decreases |scripts|
  {
    var front := scripts[..|scripts| - 1];
    if k < |scripts| - 1 {
      assert forall i :: 0 <= i <= k ==> front[i] == scripts[i];
      assert front[..k + 1] == scripts[..k + 1];
      DispatchStopsAtFailure(front, cb, ctx, w, k);
      assert Dispatch(front, cb, ctx, w).result.Err?;
    } else {
      assert front == scripts[..k];
      assert forall i :: 0 <= i < |front| ==> front[i] == scripts[i];
      DispatchAllSucceed(front, cb, ctx, w);
      var s := Dispatch(front, cb, ctx, w);
      var last := scripts[|scripts| - 1];
      assert s.result.Ok? && s.world.events == w.events + Calls(front, cb, ctx);
      assert Calls(scripts, cb, ctx) == Calls(front, cb, ctx) + [HookRan(last.path, cb, ctx)];
      assert scripts[..k + 1] == scripts;
    }
  }

  /** A callback no script defines is a no-op. */
  lemma {:induction false} UndefinedIsNoop(scripts: seq<HookScript>, cb: Callback, ctx: HookCtx, w: World)
    requires forall i :: 0 <= i < |scripts| ==> cb !in scripts[i].code.defines
    ensures Dispatch(scripts, cb, ctx, w) == Step(w, Ok(()))
  {
    if |scripts| > 0 {
      UndefinedIsNoop(scripts[..|scripts| - 1], cb, ctx, w);
    }
  }

  // ---------------------------------------------------------------------
  // The script set
  // ---------------------------------------------------------------------

  class Hooks {
    var scripts: seq<HookScript>

    /** `Hooks::empty`. */
    constructor Empty()
      ensures scripts == []
    {
      scripts := [];
    }

    constructor Of(scripts: seq<HookScript>)
      ensures this.scripts == scripts
    {
      this.scripts := scripts;
    }

    /** `Hooks::take`: move the scripts into a new set, leaving this one empty. */
    method Take() returns (taken: Hooks)
      modifies this
      ensures fresh(taken) && taken.scripts == old(scripts)
      ensures scripts == []
    {
      taken := new Hooks.Of(scripts);
      scripts := [];
    }

    /** The loop shared by the four dispatchers. */
    method Run(cb: Callback, ctx: HookCtx, w: World) returns (w': World, r: Result<()>)
      ensures Step(w', r) == Dispatch(scripts, cb, ctx, w)
    {
      w', r := w, Ok(());
      var i := 0;
      while i < |scripts|
        invariant 0 <= i <= |scripts|
        invariant r.Ok? && Step(w', r) == Dispatch(scripts[..i], cb, ctx, w)
      {
        assert scripts[..i + 1][..i] == scripts[..i];
        var s := CallScript(scripts[i], cb, ctx, w');
        w', r := s.world, s.result;
        if r.Err? {
          DispatchTail(scripts, cb, ctx, w, i + 1);
          return;
        }
        i := i + 1;
      }
      assert scripts[..|scripts|] == scripts;
    }

    method BeforeApplyAll(ctx: HookCtx, w: World) returns (w': World, r: Result<()>)
      requires ctx.AllCtx?
      ensures Step(w', r) == Dispatch(scripts, Callback.BeforeApplyAll, ctx, w)
    {
      w', r := Run(Callback.BeforeApplyAll, ctx, w);
    }

    method AfterApplyAll(ctx: HookCtx, w: World) returns (w': World, r: Result<()>)
      requires ctx.AllCtx?
      ensures Step(w', r) == Dispatch(scripts, Callback.AfterApplyAll, ctx, w)
    {
      w', r := Run(Callback.AfterApplyAll, ctx, w);
    }

    method BeforeApplyEach(ctx: HookCtx, w: World) returns (w': World, r: Result<()>)
      requires ctx.EachCtx?
      ensures Step(w', r) == Dispatch(scripts, Callback.BeforeApplyEach, ctx, w)
    {
      w', r := Run(Callback.BeforeApplyEach, ctx, w);
    }

    method AfterApplyEach(ctx: HookCtx, w: World) returns (w': World, r: Result<()>)
      requires ctx.EachCtx?
      ensures Step(w', r) == Dispatch(scripts, Callback.AfterApplyEach, ctx, w)
    {
      w', r := Run(Callback.AfterApplyEach, ctx, w);
    }
  }

  /** Once a prefix of the scripts fails, the whole dispatch fails the same way. */
  lemma {:induction false} DispatchTail(scripts: seq<HookScript>, cb: Callback, ctx: HookCtx, w: World, k: nat)
    requires k <= |scripts|
    requires Dispatch(scripts[..k], cb, ctx, w).result.Err?
    ensures Dispatch(scripts, cb, ctx, w) == Dispatch(scripts[..k], cb, ctx, w)
    decreases |scripts| - k
  {
    if k < |scripts| {
      var front := scripts[..|scripts| - 1];
      assert front[..k] == scripts[..k];
      DispatchTail(front, cb, ctx, w, k);
    } else {
      assert scripts[..k] == scripts;
    }
  }

  // ---------------------------------------------------------------------
  // Loading
  // ---------------------------------------------------------------------

  /** `HookScript::parse`: read the file and compile it. */
  function LoadScript(host: Host, compile: string -> Option<Compiled>, fs: Fs, p: Path): (r: Result<HookScript>)
    ensures r.Ok? <==> ReadToString(host, fs, p).Ok? && compile(ReadToString(host, fs, p).value).Some?
    ensures r.Ok? ==> r.value.path == p && p in fs.files &&
                      r.value.code == compile(host.utf8Decode(fs.files[p].data).value).value
    ensures r.Err? ==> r == Err(Io(p)) || r == Err(ScriptFailed(p))
  {
    match ReadToString(host, fs, p)
    case Err(e) => Err(e)
    case Ok(text) =>
      match compile(text)
      case None => Err(ScriptFailed(p))
      case Some(c) => Ok(HookScript(p, c))
  }

  /** Whether a directory entry is a hook script: a regular file with extension "nu". */
  predicate IsHookFile(fs: Fs, p: Path) {
    p in fs.files && FileName(p).Some? && Extension(FileName(p).value) == Some("nu")
  }

  /** The hook files among the entries named in dir, in listing order. */
  function HookFiles(fs: Fs, dir: Path, names: seq<string>): (ps: seq<Path>)
    ensures |ps| <= |names|
    ensures forall i :: 0 <= i < |ps| ==> IsHookFile(fs, ps[i]) && |ps[i]| == |dir| + 1 && ps[i][..|dir|] == dir
  {
    if |names| == 0 then []
    else
      var p := Join(dir, names[|names| - 1]);
      HookFiles(fs, dir, names[..|names| - 1]) + (if IsHookFile(fs, p) then [p] else [])
  }

  /** The scripts loaded from the first names of dir, in listing order. */
  function LoadAll(host: Host, compile: string -> Option<Compiled>, fs: Fs, dir: Path, names: seq<string>)
    : (r: Result<seq<HookScript>>)
    ensures r.Ok? ==> forall i :: 0 <= i < |r.value| ==> IsHookFile(fs, r.value[i].path)
  {
    if |names| == 0 then Ok([])
    else
      match LoadAll(host, compile, fs, dir, names[..|names| - 1])
      case Err(e) => Err(e)
      case Ok(ss) =>
        var p := Join(dir, names[|names| - 1]);
        if !IsHookFile(fs, p) then Ok(ss)
        else
          match LoadScript(host, compile, fs, p)
          case Err(e) => Err(e)
          case Ok(s) => Ok(ss + [s])
  }

  /** Load each path in turn; the first failure aborts. */
  function LoadEach(host: Host, compile: string -> Option<Compiled>, fs: Fs, ps: seq<Path>): Result<seq<HookScript>> {
    if |ps| == 0 then Ok([])
    else
      match LoadEach(host, compile, fs, ps[..|ps| - 1])
      case Err(e) => Err(e)
      case Ok(ss) =>
        match LoadScript(host, compile, fs, ps[|ps| - 1])
        case Err(e) => Err(e)
        case Ok(s) => Ok(ss + [s])
  }

  /** One more path: the front's failure, or the last path loaded after the front. */
  lemma LoadEachSnoc(host: Host, compile: string -> Option<Compiled>, fs: Fs, ps: seq<Path>)
    requires |ps| > 0
    ensures LoadEach(host, compile, fs, ps) ==
      match LoadEach(host, compile, fs, ps[..|ps| - 1])
      case Err(e) => Err(e)
      case Ok(ss) =>
        match LoadScript(host, compile, fs, ps[|ps| - 1])
        case Err(e) => Err(e)
        case Ok(s) => Ok(ss + [s])
  {
  }

  /** Loading a path list succeeds exactly when every path loads, and yields those scripts in order. */
  lemma {:induction false} LoadEachLoadsAll(host: Host, compile: string -> Option<Compiled>, fs: Fs, ps: seq<Path>)
    ensures var r := LoadEach(host, compile, fs, ps);
      (r.Ok? <==> forall i :: 0 <= i < |ps| ==> LoadScript(host, compile, fs, ps[i]).Ok?) &&
      (r.Ok? ==>
        |r.value| == |ps| &&
        forall i :: 0 <= i < |ps| ==> LoadScript(host, compile, fs, ps[i]) == Ok(r.value[i]))
  {
    if |ps| > 0 {
      var front := ps[..|ps| - 1];
      LoadEachLoadsAll(host, compile, fs, front);
      var rf := LoadEach(host, compile, fs, front);
      var last := LoadScript(host, compile, fs, ps[|ps| - 1]);
      if rf.Err? {
        var i :| 0 <= i < |front| && LoadScript(host, compile, fs, front[i]).Err?;
        assert ps[i] == front[i];
      } else if last.Ok? {
        var ss := rf.value + [last.value];
        assert LoadEach(host, compile, fs, ps) == Ok(ss);
        forall i | 0 <= i < |ps| ensures LoadScript(host, compile, fs, ps[i]) == Ok(ss[i]) {
          if i < |front| {
            assert ps[i] == front[i];
          }
        }
      }
    }
  }

  /**
    Loading a directory listing is loading exactly its hook files, in
    listing order: the other entries are never read.
  */
  lemma {:induction false} LoadAllLoadsHookFiles(host: Host, compile: string -> Option<Compiled>, fs: Fs, dir: Path,
                                                names: seq<string>)
    ensures LoadAll(host, compile, fs, dir, names) == LoadEach(host, compile, fs, HookFiles(fs, dir, names))
  {
    if |names| > 0 {
      var front := names[..|names| - 1];
      LoadAllLoadsHookFiles(host, compile, fs, dir, front);
      var p := Join(dir, names[|names| - 1]);
      var pf := HookFiles(fs, dir, front);
      var ps := HookFiles(fs, dir, names);
      var rf := LoadAll(host, compile, fs, dir, front);
      if IsHookFile(fs, p) {
        assert ps == pf + [p];
        assert ps[..|ps| - 1] == pf && ps[|ps| - 1] == p;
        LoadEachSnoc(host, compile, fs, ps);
      } else {
        assert ps == pf;
      }
    }
  }

  /** `Hooks::parse` on directory dir: its hook scripts in listing order; any failure aborts. */
  function ParseSpec(host: Host, compile: string -> Option<Compiled>, fs: Fs, dir: Path): (r: Result<seq<HookScript>>)
    ensures dir !in fs.dirs ==> r == Err(Io(dir))
    ensures r.Ok? ==>
      dir in fs.dirs && |r.value| == |HookFiles(fs, dir, fs.dirs[dir])| &&
      forall i :: 0 <= i < |r.value| ==>
        LoadScript(host, compile, fs, HookFiles(fs, dir, fs.dirs[dir])[i]) == Ok(r.value[i])
  {
    if dir !in fs.dirs then Err(Io(dir))
    else
      LoadAllLoadsHookFiles(host, compile, fs, dir, fs.dirs[dir]);
      LoadEachLoadsAll(host, compile, fs, HookFiles(fs, dir, fs.dirs[dir]));
      LoadAll(host, compile, fs, dir, fs.dirs[dir])
  }

  /** Every listed hook file is loaded: a successful parse misses none. */
  lemma {:induction false} LoadAllComplete(host: Host, compile: string -> Option<Compiled>, fs: Fs, dir: Path,
                                          names: seq<string>)
    requires LoadAll(host, compile, fs, dir, names).Ok?
    ensures forall n :: n in names && IsHookFile(fs, Join(dir, n)) ==>
      exists i :: 0 <= i < |LoadAll(host, compile, fs, dir, names).value| &&
        LoadAll(host, compile, fs, dir, names).value[i].path == Join(dir, n)
  {
    if |names| > 0 {
      var front := names[..|names| - 1];
      LoadAllComplete(host, compile, fs, dir, front);
      var ss := LoadAll(host, compile, fs, dir, front).value;
      var all := LoadAll(host, compile, fs, dir, names).value;
      assert forall i :: 0 <= i < |ss| ==> all[i] == ss[i];
      forall n | n in names && IsHookFile(fs, Join(dir, n))
        ensures exists i :: 0 <= i < |all| && all[i].path == Join(dir, n)
      {
        if n in front {
          var i :| 0 <= i < |ss| && ss[i].path == Join(dir, n);
          assert all[i].path == Join(dir, n);
        } else {
          assert n == names[|names| - 1];
          assert all[|all| - 1].path == Join(dir, n);
        }
      }
    }
  }

  /** `Hooks::parse`: walk the listing, loading each hook file. */
  method Parse(host: Host, compile: string -> Option<Compiled>, fs: Fs, dir: Path) returns (r: Result<seq<HookScript>>)
    ensures r == ParseSpec(host, compile, fs, dir)
  {
    if dir !in fs.dirs {
      return Err(Io(dir));
    }
    var names := fs.dirs[dir];
    var scripts: seq<HookScript> := [];
    var i := 0;
    while i < |names|
      invariant 0 <= i <= |names|
      invariant LoadAll(host, compile, fs, dir, names[..i]) == Ok(scripts)
    {
      assert names[..i + 1][..i] == names[..i];
      var p := Join(dir, names[i]);
      if IsHookFile(fs, p) {
        var s := LoadScript(host, compile, fs, p);
        if s.Err? {
          LoadAllTail(host, compile, fs, dir, names, i + 1);
          return Err(s.error);
        }
        scripts := scripts + [s.value];
      }
      i := i + 1;
    }
    assert names[..|names|] == names;
    r := Ok(scripts);
  }

  lemma {:induction false} LoadAllTail(host: Host, compile: string -> Option<Compiled>, fs: Fs, dir: Path,
                                      names: seq<string>, k: nat)
    requires k <= |names|
    requires LoadAll(host, compile, fs, dir, names[..k]).Err?
    ensures LoadAll(host, compile, fs, dir, names) == LoadAll(host, compile, fs, dir, names[..k])
    decreases |names| - k
  {
    if k < |names| {
      var front := names[..|names| - 1];
      assert front[..k] == names[..k];
      LoadAllTail(host, compile, fs, dir, front, k);
    } else {
      assert names[..k] == names;
    }
  }
}
