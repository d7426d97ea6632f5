/**
  The buffered writer (src/fs_access/buffered.rs): writes and copies are
  staged into temporary files paired with their destinations; `persist`
  drains the staged list, asks before each overwrite, runs the hooks around
  the whole batch and around every accepted write, and stops at the first
  error without undoing what was already written.
*/
module Buffered {
  import opened Base
  import opened Gate
  import Hooks

  /** Permission bits of a fresh temporary file (0o600). */
  const TempFilePerm: Perm := 384

  /** One staged write: the temporary file (numbered id) and its destination. */
  datatype Staged = Staged(id: nat, data: Bytes, perm: Perm, dst: Path)

  /** The destinations of a staged list, in staging order. */
  function Dsts(ms: seq<Staged>): (ps: seq<Path>)
    ensures |ps| == |ms| && forall i :: 0 <= i < |ms| ==> ps[i] == ms[i].dst
  {
    if |ms| == 0 then [] else Dsts(ms[..|ms| - 1]) + [ms[|ms| - 1].dst]
  }

  /** `set_permissions` on the staged list: only the first entry for dst takes the new bits. */
  function SetPerm(ms: seq<Staged>, dst: Path, perm: Perm): (r: seq<Staged>)
    ensures |r| == |ms|
    ensures forall i :: 0 <= i < |ms| ==>
      r[i] == (if ms[i].dst == dst && forall j :: 0 <= j < i ==> ms[j].dst != dst
               then ms[i].(perm := perm) else ms[i])
  {
    if |ms| == 0 then []
    else if ms[0].dst == dst then [ms[0].(perm := perm)] + ms[1..]
    else [ms[0]] + SetPerm(ms[1..], dst, perm)
  }

  /** No two staged entries share a temporary file. */
  predicate DistinctTemps(ms: seq<Staged>) {
    forall i, j :: 0 <= i < j < |ms| ==> ms[i].id != ms[j].id
  }

  /**
    Each entry's hooks see their own temporary file: with distinct
    temporaries, the per-entry hook contexts of two staged entries differ,
    even when both are bound for the same destination.
  */
  lemma EachHookSeesOwnTemp(repo: Path, ms: seq<Staged>, i: nat, j: nat)
    requires DistinctTemps(ms) && i < j < |ms|
    ensures EachCtx(repo, ms[i].id, ms[i].dst) != EachCtx(repo, ms[j].id, ms[j].dst)
  {
  }

  // ---------------------------------------------------------------------
  // Persisting: specification
  // ---------------------------------------------------------------------

  /**
    One staged entry: confirm, then (when accepted) create the parent,
    run the before-each hooks, copy the temporary file over the
    destination, run the after-each hooks. A declined entry is skipped.
  */
  function PersistOne(host: Host, tool: string, repo: Path, scripts: seq<Hooks.HookScript>, m: Staged, w: World)
    : (s: Step<()>)
  {
    var g := Confirm(host, tool, m.data, m.dst, w);
    if g.result.Err? then Step(g.world, Err(g.result.error))
    else if !g.result.value then Step(g.world, Ok(()))
    else if |m.dst| == 0 then Step(g.world, Err(Panic))
    else
      var e := EnsureDir(g.world, Parent(m.dst));
      if e.result.Err? then e
      else
        var ctx := EachCtx(repo, m.id, m.dst);
        var b := Hooks.Dispatch(scripts, BeforeApplyEach, ctx, e.world);
        if b.result.Err? then b
        else
          match Put(b.world.fs, m.dst, File(m.data, m.perm))
          case Err(err) => Step(b.world, Err(err))
          case Ok(fs1) =>
            Hooks.Dispatch(scripts, AfterApplyEach, ctx, World(fs1, b.world.answers, b.world.events + [Written(m.dst)]))
  }

  /** The staged entries in order; the first error stops the rest. */
  function PersistEach(host: Host, tool: string, repo: Path, scripts: seq<Hooks.HookScript>, ms: seq<Staged>, w: World)
    : Step<()>
  {
    if |ms| == 0 then Step(w, Ok(()))
    else
      var s := PersistEach(host, tool, repo, scripts, ms[..|ms| - 1], w);
      if s.result.Err? then s else PersistOne(host, tool, repo, scripts, ms[|ms| - 1], s.world)
  }

  /** `persist`: before-all hooks, every entry, after-all hooks, all with the same destination list. */
  function PersistSpec(host: Host, tool: string, repo: Path, scripts: seq<Hooks.HookScript>, ms: seq<Staged>, w: World)
    : Step<()>
  {
    var ctx := AllCtx(repo, Dsts(ms));
    var b := Hooks.Dispatch(scripts, BeforeApplyAll, ctx, w);
    if b.result.Err? then b
    else
      var s := PersistEach(host, tool, repo, scripts, ms, b.world);
      if s.result.Err? then s
      else Hooks.Dispatch(scripts, AfterApplyAll, ctx, s.world)
  }

  // ---------------------------------------------------------------------
  // Persisting: properties
  // ---------------------------------------------------------------------

  /**
    The write gate: the disk changes only when the operator (or the silent
    rule) accepted the entry, and a declined entry runs no hook and leaves
    the disk as it was.
  */
  lemma PersistOneGate(host: Host, tool: string, repo: Path, scripts: seq<Hooks.HookScript>, m: Staged, w: World)
    ensures var s := PersistOne(host, tool, repo, scripts, m, w);
      var g := Confirm(host, tool, m.data, m.dst, w);
      (s.world.fs != w.fs ==> g.result == Ok(true)) &&
      (g.result == Ok(false) ==>
        s == Step(g.world, Ok(())) && s.world.fs == w.fs &&
        forall e :: e in s.world.events[|w.events|..] ==> !e.HookRan?)
  {
    var g := Confirm(host, tool, m.data, m.dst, w);
    if g.result == Ok(false) {
      var s := PersistOne(host, tool, repo, scripts, m, w);
      if |w.answers| > 0 {
        assert s.world.events[|w.events|..] == [DiffShown(m.dst, m.data), Prompted(m.dst, false)];
      }
    }
  }

  /**
    A destination that already holds the staged bytes is written without a
    diff or a question, and its per-entry hooks still run around the write.
  */
  lemma EqualContentStillRunsHooks(host: Host, tool: string, repo: Path, scripts: seq<Hooks.HookScript>,
                                   m: Staged, w: World)
    requires m.dst in w.fs.files && w.fs.files[m.dst].data == m.data
    requires m.dst !in w.fs.dirs && |m.dst| > 0 && IsDir(w.fs, Parent(m.dst))
    requires forall i :: 0 <= i < |scripts| ==> !Hooks.Fails(scripts[i], BeforeApplyEach, EachCtx(repo, m.id, m.dst))
    requires forall i :: 0 <= i < |scripts| ==> !Hooks.Fails(scripts[i], AfterApplyEach, EachCtx(repo, m.id, m.dst))
    ensures var s := PersistOne(host, tool, repo, scripts, m, w);
      var ctx := EachCtx(repo, m.id, m.dst);
      s.result.Ok? && s.world.answers == w.answers &&
      s.world.fs.files == w.fs.files[m.dst := File(m.data, m.perm)] &&
      s.world.events == w.events + Hooks.Calls(scripts, BeforeApplyEach, ctx) + [Written(m.dst)] +
        Hooks.Calls(scripts, AfterApplyEach, ctx)
  {
    var ctx := EachCtx(repo, m.id, m.dst);
    assert Exists(w.fs, Parent(m.dst));
    Hooks.DispatchAllSucceed(scripts, BeforeApplyEach, ctx, w);
    var b := Hooks.Dispatch(scripts, BeforeApplyEach, ctx, w);
    var fs1 := Put(b.world.fs, m.dst, File(m.data, m.perm)).value;
    Hooks.DispatchAllSucceed(scripts, AfterApplyEach, ctx, World(fs1, b.world.answers, b.world.events + [Written(m.dst)]));
  }

  /**
    An accepted entry, whatever the gate had to do to accept it: the parent
    is ensured first, and the entry goes through exactly when that leaves a
    directory above a destination that is not itself a directory; then the
    destination holds the staged bytes and mode, and the trace is the gate's
    and the parent's, the before-each hooks, the write, the after-each hooks.
  */
  lemma AcceptedEntryWritten(host: Host, tool: string, repo: Path, scripts: seq<Hooks.HookScript>,
                             m: Staged, w: World)
    requires Confirm(host, tool, m.data, m.dst, w).result == Ok(true) && |m.dst| > 0
    requires forall i :: 0 <= i < |scripts| ==> !Hooks.Fails(scripts[i], BeforeApplyEach, EachCtx(repo, m.id, m.dst))
    requires forall i :: 0 <= i < |scripts| ==> !Hooks.Fails(scripts[i], AfterApplyEach, EachCtx(repo, m.id, m.dst))
    ensures var s := PersistOne(host, tool, repo, scripts, m, w);
      var e := EnsureDir(Confirm(host, tool, m.data, m.dst, w).world, Parent(m.dst));
      var ctx := EachCtx(repo, m.id, m.dst);
      (s.result.Ok? <==> e.result.Ok? && m.dst !in e.world.fs.dirs && IsDir(e.world.fs, Parent(m.dst))) &&
      (s.result.Ok? ==>
        s.world.fs.files == w.fs.files[m.dst := File(m.data, m.perm)] &&
        s.world.events == e.world.events + Hooks.Calls(scripts, BeforeApplyEach, ctx) + [Written(m.dst)] +
          Hooks.Calls(scripts, AfterApplyEach, ctx))
  {
    var g := Confirm(host, tool, m.data, m.dst, w);
    var e := EnsureDir(g.world, Parent(m.dst));
    if e.result.Ok? {
      var ctx := EachCtx(repo, m.id, m.dst);
      Hooks.DispatchAllSucceed(scripts, BeforeApplyEach, ctx, e.world);
      var b := Hooks.Dispatch(scripts, BeforeApplyEach, ctx, e.world);
      match Put(b.world.fs, m.dst, File(m.data, m.perm))
      case Err(_) =>
      case Ok(fs1) =>
        Hooks.DispatchAllSucceed(scripts, AfterApplyEach, ctx, World(fs1, b.world.answers, b.world.events + [Written(m.dst)]));
    }
  }

  /** A batch whose front has failed has failed the same way. */
  lemma PersistEachErrStep(host: Host, tool: string, repo: Path, scripts: seq<Hooks.HookScript>, ms: seq<Staged>, w: World)
    requires |ms| > 0 && PersistEach(host, tool, repo, scripts, ms[..|ms| - 1], w).result.Err?
    ensures PersistEach(host, tool, repo, scripts, ms, w) == PersistEach(host, tool, repo, scripts, ms[..|ms| - 1], w)
  {
  }

  /** Once an entry fails, later entries are never confirmed, hooked or written. */
  lemma {:induction false} PersistStopsAtFirstError(host: Host, tool: string, repo: Path, scripts: seq<Hooks.HookScript>,
                                                   ms: seq<Staged>, rest: seq<Staged>, w: World)
    requires PersistEach(host, tool, repo, scripts, ms, w).result.Err?
    ensures PersistEach(host, tool, repo, scripts, ms + rest, w) == PersistEach(host, tool, repo, scripts, ms, w)
    decreases |rest|
  {
    if |rest| > 0 {
      var all := ms + rest;
      var front := all[..|all| - 1];
      assert front == ms + rest[..|rest| - 1];
      PersistStopsAtFirstError(host, tool, repo, scripts, ms, rest[..|rest| - 1], w);
      PersistEachErrStep(host, tool, repo, scripts, all, w);
    } else {
      assert ms + rest == ms;
    }
  }

  /** A failing prefix decides the whole batch. */
  lemma PersistFailedPrefix(host: Host, tool: string, repo: Path, scripts: seq<Hooks.HookScript>, ms: seq<Staged>,
                            k: nat, w: World)
    requires k <= |ms| && PersistEach(host, tool, repo, scripts, ms[..k], w).result.Err?
    ensures PersistEach(host, tool, repo, scripts, ms, w) == PersistEach(host, tool, repo, scripts, ms[..k], w)
  {
    var front, rest := ms[..k], ms[k..];
    assert ms == front + rest;
    PersistStopsAtFirstError(host, tool, repo, scripts, front, rest, w);
  }

  /** Nothing is rolled back: every file present after one entry is still present after it fails. */
  lemma PersistOneKeepsFiles(host: Host, tool: string, repo: Path, scripts: seq<Hooks.HookScript>, m: Staged, w: World)
    ensures w.fs.files.Keys <= PersistOne(host, tool, repo, scripts, m, w).world.fs.files.Keys
  {
  }

  /** Across a whole batch, successful or not, no file that existed disappears. */
  lemma {:induction false} PersistEachKeepsFiles(host: Host, tool: string, repo: Path, scripts: seq<Hooks.HookScript>,
                                                ms: seq<Staged>, w: World)
    ensures w.fs.files.Keys <= PersistEach(host, tool, repo, scripts, ms, w).world.fs.files.Keys
  {
    if |ms| > 0 {
      PersistEachKeepsFiles(host, tool, repo, scripts, ms[..|ms| - 1], w);
      var s := PersistEach(host, tool, repo, scripts, ms[..|ms| - 1], w);
      PersistOneKeepsFiles(host, tool, repo, scripts, ms[|ms| - 1], s.world);
    }
  }

  /** The after-all hooks run only when every entry went through. */
  lemma AfterAllNeedsEveryEntry(host: Host, tool: string, repo: Path, scripts: seq<Hooks.HookScript>,
                                ms: seq<Staged>, w: World)
    requires var b := Hooks.Dispatch(scripts, BeforeApplyAll, AllCtx(repo, Dsts(ms)), w);
      b.result.Ok? && PersistEach(host, tool, repo, scripts, ms, b.world).result.Err?
    ensures var b := Hooks.Dispatch(scripts, BeforeApplyAll, AllCtx(repo, Dsts(ms)), w);
      PersistSpec(host, tool, repo, scripts, ms, w) == PersistEach(host, tool, repo, scripts, ms, b.world)
  {
  }

  /** Persisting an empty batch writes nothing and asks nothing; only the batch hooks run. */
  lemma PersistEmpty(host: Host, tool: string, repo: Path, scripts: seq<Hooks.HookScript>, w: World)
    ensures var s := PersistSpec(host, tool, repo, scripts, [], w);
      s.world.fs == w.fs && s.world.answers == w.answers
  {
  }

  /** Appending twice is appending. */
  lemma ExtendsTrans(a: seq<Event>, b: seq<Event>, c: seq<Event>)
    requires |a| <= |b| && b[..|a|] == a && |b| <= |c| && c[..|b|] == b
    ensures |a| <= |c| && c[..|a|] == a
  {
    assert c[..|a|] == c[..|b|][..|a|];
  }

  /** One entry only appends to the record. */
  lemma PersistOneExtends(host: Host, tool: string, repo: Path, scripts: seq<Hooks.HookScript>, m: Staged, w: World)
    ensures var s := PersistOne(host, tool, repo, scripts, m, w);
      |w.events| <= |s.world.events| && s.world.events[..|w.events|] == w.events
  {
    var g := Confirm(host, tool, m.data, m.dst, w);
    assert |w.events| <= |g.world.events| && g.world.events[..|w.events|] == w.events;
    if g.result == Ok(true) && |m.dst| > 0 {
      var e := EnsureDir(g.world, Parent(m.dst));
      if e.result.Ok? {
        ExtendsTrans(w.events, g.world.events, e.world.events);
        var ctx := EachCtx(repo, m.id, m.dst);
        Hooks.DispatchExtends(scripts, BeforeApplyEach, ctx, e.world);
        var b := Hooks.Dispatch(scripts, BeforeApplyEach, ctx, e.world);
        ExtendsTrans(w.events, e.world.events, b.world.events);
        if b.result.Ok? {
          var put := Put(b.world.fs, m.dst, File(m.data, m.perm));
          if put.Ok? {
            var w1 := World(put.value, b.world.answers, b.world.events + [Written(m.dst)]);
            ExtendsTrans(w.events, b.world.events, w1.events);
            Hooks.DispatchExtends(scripts, AfterApplyEach, ctx, w1);
            ExtendsTrans(w.events, w1.events, Hooks.Dispatch(scripts, AfterApplyEach, ctx, w1).world.events);
          }
        }
      }
    }
  }

  /** A batch only appends to the record. */
  lemma {:induction false} PersistEachExtends(host: Host, tool: string, repo: Path, scripts: seq<Hooks.HookScript>,
                                             ms: seq<Staged>, w: World)
    ensures var s := PersistEach(host, tool, repo, scripts, ms, w);
      |w.events| <= |s.world.events| && s.world.events[..|w.events|] == w.events
  {
    if |ms| > 0 {
      PersistEachExtends(host, tool, repo, scripts, ms[..|ms| - 1], w);
      var s := PersistEach(host, tool, repo, scripts, ms[..|ms| - 1], w);
      if s.result.Ok? {
        PersistOneExtends(host, tool, repo, scripts, ms[|ms| - 1], s.world);
        ExtendsTrans(w.events, s.world.events,
                     PersistOne(host, tool, repo, scripts, ms[|ms| - 1], s.world).world.events);
      }
    }
  }

  /**
    A successful `persist` is bracketed by the batch hooks: the before-all
    calls come first and the after-all calls last, both with the same
    destination list, and the entries' own record lies between them. It
    succeeds exactly when neither batch callback fails and every entry
    succeeds.
  */
  lemma PersistBracket(host: Host, tool: string, repo: Path, scripts: seq<Hooks.HookScript>, ms: seq<Staged>, w: World)
    ensures var ctx := AllCtx(repo, Dsts(ms));
      var s := PersistSpec(host, tool, repo, scripts, ms, w);
      var b := Hooks.Dispatch(scripts, BeforeApplyAll, ctx, w);
      var e := PersistEach(host, tool, repo, scripts, ms, b.world);
      (s.result.Ok? <==>
        (forall i :: 0 <= i < |scripts| ==> !Hooks.Fails(scripts[i], BeforeApplyAll, ctx)) && e.result.Ok? &&
        (forall i :: 0 <= i < |scripts| ==> !Hooks.Fails(scripts[i], AfterApplyAll, ctx))) &&
      (s.result.Ok? ==>
        |b.world.events| <= |e.world.events| &&
        s.world.events == w.events + Hooks.Calls(scripts, BeforeApplyAll, ctx) + e.world.events[|b.world.events|..] +
          Hooks.Calls(scripts, AfterApplyAll, ctx))
  {
    var ctx := AllCtx(repo, Dsts(ms));
    var b := Hooks.Dispatch(scripts, BeforeApplyAll, ctx, w);
    var e := PersistEach(host, tool, repo, scripts, ms, b.world);
    Hooks.DispatchAllSucceed(scripts, BeforeApplyAll, ctx, w);
    Hooks.DispatchAllSucceed(scripts, AfterApplyAll, ctx, e.world);
    PersistEachExtends(host, tool, repo, scripts, ms, b.world);
    if PersistSpec(host, tool, repo, scripts, ms, w).result.Ok? {
      calc {
        e.world.events;
        e.world.events[..|b.world.events|] + e.world.events[|b.world.events|..];
        w.events + Hooks.Calls(scripts, BeforeApplyAll, ctx) + e.world.events[|b.world.events|..];
      }
    }
  }

  // ---------------------------------------------------------------------
  // The writer
  // ---------------------------------------------------------------------

  class BufferedFsAccess {
    var repo: Path
    var mappings: seq<Staged>
    var diffTool: string
    var hooks: Hooks.Hooks
    /** Number of the next temporary file (distinct temporary files get distinct numbers). */
    var nextTemp: nat

    /** `BufferedFsAccess::new`: nothing staged. */
    constructor (repo: Path, diffTool: string, hooks: Hooks.Hooks)
      ensures this.repo == repo && this.diffTool == diffTool && this.hooks == hooks
      ensures mappings == [] && nextTemp == 0
    {
      this.repo := repo;
      this.mappings := [];
      this.diffTool := diffTool;
      this.hooks := hooks;
      this.nextTemp := 0;
    }

    /** Every staged entry names a temporary file numbered below nextTemp, each a different one. */
    predicate Valid()
      reads this
    {
      (forall i :: 0 <= i < |mappings| ==> mappings[i].id < nextTemp) && DistinctTemps(mappings)
    }

    /** `write_all`: stage the bytes in a fresh temporary file bound for dst. */
    method WriteAll(dst: Path, buf: Bytes)
      requires Valid()
      modifies this
      ensures Valid()
      ensures mappings == old(mappings) + [Staged(old(nextTemp), buf, TempFilePerm, dst)]
      ensures nextTemp == old(nextTemp) + 1
      ensures repo == old(repo) && diffTool == old(diffTool) && hooks == old(hooks)
    {
      mappings := mappings + [Staged(nextTemp, buf, TempFilePerm, dst)];
      nextTemp := nextTemp + 1;
    }

    /** `copy`: stage the content and permission bits of the file at src; src must be a file. */
    method Copy(fs: Fs, src: Path, dst: Path) returns (r: Result<()>)
      requires Valid()
      modifies this
      ensures Valid()
      ensures r.Ok? <==> src in fs.files
      ensures r.Ok? ==> mappings == old(mappings) + [Staged(old(nextTemp), fs.files[src].data, fs.files[src].perm, dst)]
      ensures r.Err? ==> r.error == Io(src) && mappings == old(mappings)
      ensures nextTemp == old(nextTemp) + 1
      ensures repo == old(repo) && diffTool == old(diffTool) && hooks == old(hooks)
    {
      var id := nextTemp;
      nextTemp := nextTemp + 1;
      if src !in fs.files {
        return Err(Io(src));
      }
      mappings := mappings + [Staged(id, fs.files[src].data, fs.files[src].perm, dst)];
      r := Ok(());
    }

    /** `set_permissions`: find the first entry for dst and set the bits of its temporary file. */
    method SetPermissions(dst: Path, perm: Perm)
      requires Valid()
      modifies this
      ensures Valid()
      ensures mappings == SetPerm(old(mappings), dst, perm)
      ensures nextTemp == old(nextTemp) && repo == old(repo) && diffTool == old(diffTool) && hooks == old(hooks)
    {
      var i := 0;
      while i < |mappings| && mappings[i].dst != dst
        invariant 0 <= i <= |mappings|
        invariant forall j :: 0 <= j < i ==> mappings[j].dst != dst
      {
        i := i + 1;
      }
      if i < |mappings| {
        SetPermAt(mappings, dst, perm, i);
        mappings := mappings[i := mappings[i].(perm := perm)];
      } else {
        SetPermAbsent(mappings, dst, perm);
      }
    }

    /** `persist`: drain the staged list and apply it to the world. */
    method Persist(host: Host, w: World) returns (w': World, r: Result<()>)
      requires Valid()
      modifies this
      ensures Valid()
      ensures mappings == []
      ensures Step(w', r) == PersistSpec(host, diffTool, repo, hooks.scripts, old(mappings), w)
      ensures forall i, j :: 0 <= i < j < |old(mappings)| ==>
        EachCtx(repo, old(mappings)[i].id, old(mappings)[i].dst) != EachCtx(repo, old(mappings)[j].id, old(mappings)[j].dst)
      ensures nextTemp == old(nextTemp) && repo == old(repo) && diffTool == old(diffTool) && hooks == old(hooks)
    {
      var ms := mappings;
      forall i, j | 0 <= i < j < |ms| ensures EachCtx(repo, ms[i].id, ms[i].dst) != EachCtx(repo, ms[j].id, ms[j].dst) {
        EachHookSeesOwnTemp(repo, ms, i, j);
      }
      mappings := [];
      var ctx := AllCtx(repo, Dsts(ms));
      w', r := hooks.BeforeApplyAll(ctx, w);
      if r.Err? {
        return;
      }
      w', r := PersistAll(host, ms, w');
      if r.Err? {
        return;
      }
      w', r := hooks.AfterApplyAll(ctx, w');
    }

    /** The loop of `persist` over the drained entries. */
    method PersistAll(host: Host, ms: seq<Staged>, w: World) returns (w': World, r: Result<()>)
      ensures Step(w', r) == PersistEach(host, diffTool, repo, hooks.scripts, ms, w)
    {
      w', r := w, Ok(());
      var i := 0;
      while i < |ms|
        invariant 0 <= i <= |ms|
        invariant r.Ok? && Step(w', r) == PersistEach(host, diffTool, repo, hooks.scripts, ms[..i], w)
      {
        assert ms[..i + 1][..i] == ms[..i];
        w', r := PersistEntry(host, ms[i], w');
        if r.Err? {
          PersistFailedPrefix(host, diffTool, repo, hooks.scripts, ms, i + 1, w);
          return;
        }
        i := i + 1;
      }
      assert ms[..|ms|] == ms;
    }

    /** The body of the persist loop for one entry. */
    method PersistEntry(host: Host, m: Staged, w: World) returns (w': World, r: Result<()>)
      ensures Step(w', r) == PersistOne(host, diffTool, repo, hooks.scripts, m, w)
    {
      var accept;
      w', accept := ConfirmWrite(host, diffTool, m.data, m.dst, w);
      if accept.Err? {
        return w', Err(accept.error);
      }
      if !accept.value {
        return w', Ok(());
      }
      if |m.dst| == 0 {
        return w', Err(Panic);
      }
      w', r := EnsureParent(w', Parent(m.dst));
      if r.Err? {
        return;
      }
      var ctx := EachCtx(repo, m.id, m.dst);
      w', r := hooks.BeforeApplyEach(ctx, w');
      if r.Err? {
        return;
      }
      var put := Put(w'.fs, m.dst, File(m.data, m.perm));
      if put.Err? {
        return w', Err(put.error);
      }
      w' := World(put.value, w'.answers, w'.events + [Written(m.dst)]);
      w', r := hooks.AfterApplyEach(ctx, w');
    }
  }

  lemma SetPermAt(ms: seq<Staged>, dst: Path, perm: Perm, i: nat)
    requires i < |ms| && ms[i].dst == dst
    requires forall j :: 0 <= j < i ==> ms[j].dst != dst
    ensures SetPerm(ms, dst, perm) == ms[i := ms[i].(perm := perm)]
  {
  }

  lemma SetPermAbsent(ms: seq<Staged>, dst: Path, perm: Perm)
    requires forall j :: 0 <= j < |ms| ==> ms[j].dst != dst
    ensures SetPerm(ms, dst, perm) == ms
  {
  }

  /**
    `confirm_write` of the buffered writer: the staged bytes against the
    destination; contents.rs has its own copy on two paths.
  */
  method ConfirmWrite(host: Host, tool: string, staged: Bytes, dest: Path, w: World) returns (w': World, r: Result<bool>)
    ensures Step(w', r) == Confirm(host, tool, staged, dest, w)
  {
    if !Exists(w.fs, dest) {
      return w, Ok(true);
    }
    if dest !in w.fs.files {
      return w, Err(Io(dest));
    }
    if w.fs.files[dest].data == staged {
      return w, Ok(true);
    }
    if tool !in host.installed {
      return w, Err(SpawnFailed(tool));
    }
    w' := w.(events := w.events + [DiffShown(dest, staged)]);
    if |w'.answers| == 0 {
      return w', Err(PromptFailed);
    }
    var answer := w'.answers[0];
    w' := World(w'.fs, w'.answers[1..], w'.events + [Prompted(dest, answer)]);
    r := Ok(answer);
  }

  /** `ensure_parent`, the same helper as `ensure_cwd` in contents.rs. */
  method EnsureParent(w: World, parent: Path) returns (w': World, r: Result<()>)
    ensures Step(w', r) == EnsureDir(w, parent)
  {
    if Exists(w.fs, parent) {
      return w, Ok(());
    }
    var created := CreateDirAll(w.fs, parent);
    if created.Err? {
      return w, Err(created.error);
    }
    w' := World(created.value, w.answers, w.events + [DirCreated(parent)]);
    r := Ok(());
  }
}
