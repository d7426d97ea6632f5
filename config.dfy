/**
  The resolved configuration (src/config.rs): the diff-tool choice, the
  default configuration script written on first use, and the order in which
  the configuration layers override each other.
*/
module Config {
  import opened Base

  /** `SiloConfig`: the diff tool plus every other entry, kept as userdata. */
  datatype SiloConfig = SiloConfig(diffTool: string, userdata: map<string, Value>)

  /** One configuration source as a table of top-level entries. */
  type Layer = map<string, Value>

  /** The diff tools in order of preference. */
  const DiffTools: seq<string> := ["difft", "delta", "diff"]

  /** The first candidate that is installed, if any (`filter(...).next()`). */
  function FirstInstalled(candidates: seq<string>, installed: set<string>): (r: Option<nat>)
    ensures r.Some? ==> r.value < |candidates| && candidates[r.value] in installed
    ensures r.Some? ==> forall k :: 0 <= k < r.value ==> candidates[k] !in installed
    ensures r.None? ==> forall k :: 0 <= k < |candidates| ==> candidates[k] !in installed
  {
    if |candidates| == 0 then None
    else if candidates[0] in installed then Some(0)
    else
      match FirstInstalled(candidates[1..], installed)
      case None => None
      case Some(i) => Some(i + 1)
  }

  /** `detect_difftool`: the first of difft, delta, diff found on PATH, else "diff". */
  function DetectDifftool(installed: set<string>): (r: string)
    ensures r == "difft" || r == "delta" || r == "diff"
    ensures "difft" in installed ==> r == "difft"
    ensures "difft" !in installed && "delta" in installed ==> r == "delta"
    ensures "difft" !in installed && "delta" !in installed ==> r == "diff"
  {
    match FirstInstalled(DiffTools, installed)
    case Some(i) =>
      assert DiffTools[0] == "difft" && DiffTools[1] == "delta" && DiffTools[2] == "diff";
      assert i > 0 ==> DiffTools[0] !in installed;
      assert i > 1 ==> DiffTools[1] !in installed;
      DiffTools[i]
    case None => "diff"
  }

  /** `SiloConfig::default`. */
  function DefaultConfig(installed: set<string>): (c: SiloConfig)
    ensures c.userdata == map[]
    ensures c.diffTool == DetectDifftool(installed)
  {
    SiloConfig(DetectDifftool(installed), map[])
  }

  /** The context templates are rendered against: the `template_context` entry, if any. */
  function TemplateContext(c: SiloConfig): Value {
    if "template_context" in c.userdata then c.userdata["template_context"] else Unit
  }

  // ---------------------------------------------------------------------
  // The default configuration script
  // ---------------------------------------------------------------------

  const Prelude: seq<string> := [
    "local silo = require 'silo'",
    "local utils = require 'utils'",
    "local config = silo.default_config"]

  const Epilogue: seq<string> := [
    "-- Changes can be added to the `config` object",
    "",
    "return config"]

  /** The line merging the old TOML configuration, naming it as Rust's `{:?}` prints a path. */
  function MergeOldLine(oldConfig: Path): string {
    "config = utils.merge(config, utils.load_toml \"" + PathString(oldConfig) + "\")"
  }

  const MergeContextLine: string := "config = utils.merge(config, config.template_context)"

  /**
    The lines of the generated `silo.config.lua`: the fixed prelude, the two
    merge lines exactly when the old `silo.toml` exists, and the epilogue.
  */
  function ScriptLines(oldExists: bool, oldConfig: Path): (lines: seq<string>)
    ensures |lines| == if oldExists then 10 else 6
    ensures lines[..3] == Prelude
    ensures lines[|lines| - 1] == "return config"
    ensures oldExists <==> MergeOldLine(oldConfig) in lines
    ensures oldExists <==> MergeContextLine in lines
  {
    var lines := Prelude + (if oldExists then ["", "-- merge with old toml config", MergeOldLine(oldConfig), MergeContextLine] else []) + Epilogue;
    assert (oldExists <==> MergeOldLine(oldConfig) in lines) && (oldExists <==> MergeContextLine in lines) by {
      if oldExists {
        assert lines[5] == MergeOldLine(oldConfig) && lines[6] == MergeContextLine;
      } else {
        // every fixed line is shorter than either merge line
        assert lines == Prelude + Epilogue;
        assert |MergeOldLine(oldConfig)| > 46 && |MergeContextLine| > 46;
        assert forall i :: 0 <= i < |lines| ==> |lines[i]| <= 46;
      }
    }
    lines
  }

  /** `read_config` building the default script line by line. */
  method DefaultScriptLines(oldExists: bool, oldConfig: Path) returns (lines: seq<string>)
    ensures lines == ScriptLines(oldExists, oldConfig)
  {
    lines := [Prelude[0], Prelude[1], Prelude[2]];
    if oldExists {
      lines := lines + [""];
      lines := lines + ["-- merge with old toml config"];
      lines := lines + [MergeOldLine(oldConfig)];
      lines := lines + [MergeContextLine];
    }
    lines := lines + [Epilogue[0]];
    lines := lines + [Epilogue[1]];
    lines := lines + [Epilogue[2]];
  }

  /** `lines.join("\n")`. */
  function JoinLines(lines: seq<string>): string {
    if |lines| == 0 then ""
    else if |lines| == 1 then lines[0]
    else lines[0] + "\n" + JoinLines(lines[1..])
  }

  // ---------------------------------------------------------------------
  // Layered configuration
  // ---------------------------------------------------------------------

  /** Figment's `merge` over the layers in order: later entries replace earlier ones. */
  function MergeLayers(layers: seq<Layer>): Layer {
    if |layers| == 0 then map[]
    else MergeLayers(layers[..|layers| - 1]) + layers[|layers| - 1]
  }

  /** An entry of the merged configuration is present exactly when some layer sets it. */
  lemma {:induction false} MergeKeys(layers: seq<Layer>, k: string)
    ensures k in MergeLayers(layers) <==> exists i :: 0 <= i < |layers| && k in layers[i]
  {
    if |layers| > 0 {
      var front := layers[..|layers| - 1];
      MergeKeys(front, k);
      if exists i :: 0 <= i < |front| && k in front[i] {
        var i :| 0 <= i < |front| && k in front[i];
        assert k in layers[i];
      }
      if exists i :: 0 <= i < |layers| && k in layers[i] {
        var i :| 0 <= i < |layers| && k in layers[i];
        if i < |front| { assert k in front[i]; }
      }
    }
  }

  /** Each entry takes its value from the last layer that sets it. */
  lemma {:induction false} MergeLastWins(layers: seq<Layer>, k: string, i: nat)
    requires i < |layers| && k in layers[i]
    requires forall j :: i < j < |layers| ==> k !in layers[j]
    ensures k in MergeLayers(layers) && MergeLayers(layers)[k] == layers[i][k]
  {
    var front := layers[..|layers| - 1];
    if i < |front| {
      assert forall j :: i < j < |front| ==> front[j] == layers[j];
      MergeLastWins(front, k, i);
    }
  }

  /** The entries of a configuration value (`Serialized::globals`). */
  function ConfigLayer(c: SiloConfig): (l: Layer)
    ensures "diff_tool" in l && l["diff_tool"] == Str(c.diffTool)
  {
    c.userdata["diff_tool" := Str(c.diffTool)]
  }

  /** `extract`: diff_tool must be a string; every other entry is userdata. */
  function Extract(l: Layer): (r: Result<SiloConfig>)
    ensures r.Ok? <==> "diff_tool" in l && l["diff_tool"].Str?
    ensures r.Ok? ==> r.value.diffTool == l["diff_tool"].s && r.value.userdata == l - {"diff_tool"}
  {
    if "diff_tool" in l && l["diff_tool"].Str? then Ok(SiloConfig(l["diff_tool"].s, l - {"diff_tool"}))
    else Err(BadConfig)
  }

  /**
    The layers of figment's default profile, in merge order: the serialized
    defaults, the old `silo.toml`, the repository's `repo.toml` and
    `repo.local.toml`, and the `SILO_` environment variables.
  */
  function DefaultProfile(defaults: Layer, oldToml: Layer, repoToml: Layer, repoLocal: Layer, env: Layer)
    : (ls: seq<Layer>)
    ensures |ls| == 5 && ls[0] == defaults && ls[1] == oldToml && ls[2] == repoToml && ls[3] == repoLocal
    ensures ls[4] == env
  {
    [defaults, oldToml, repoToml, repoLocal, env]
  }

  /**
    The layers of figment's global profile (`Serialized::globals`), in merge
    order: the repository's `silo.config.lua` when there is one, then the
    user's.
  */
  function GlobalProfile(repoLua: Option<Layer>, userLua: Layer): (ls: seq<Layer>)
    ensures |ls| == if repoLua.Some? then 2 else 1
    ensures ls[|ls| - 1] == userLua && (repoLua.Some? ==> ls[0] == repoLua.value)
  {
    (if repoLua.Some? then [repoLua.value] else []) + [userLua]
  }

  /** Overlaying layers is associative. */
  lemma UnionAssoc(a: Layer, b: Layer, c: Layer)
    ensures a + (b + c) == (a + b) + c
  {
    forall k | k in a + (b + c) ensures k in (a + b) + c && (a + (b + c))[k] == ((a + b) + c)[k] {
    }
  }

  /**
    `extract` on the default profile: its own layers merged, then the
    global profile merged over them. That is one merge of all layers with
    every global layer after every default one.
  */
  lemma {:induction false} ProfilesFlatten(defaults: seq<Layer>, globals: seq<Layer>)
    ensures MergeLayers(defaults) + MergeLayers(globals) == MergeLayers(defaults + globals)
    decreases |globals|
  {
    if |globals| > 0 {
      var front := globals[..|globals| - 1];
      var all := defaults + globals;
      assert all[..|all| - 1] == defaults + front;
      ProfilesFlatten(defaults, front);
      UnionAssoc(MergeLayers(defaults), MergeLayers(front), globals[|globals| - 1]);
    } else {
      assert defaults + globals == defaults;
    }
  }

  // ---------------------------------------------------------------------
  // read_config
  // ---------------------------------------------------------------------

  /** The host side of configuration loading: TOML decoding, Lua evaluation, the environment. */
  datatype Providers = Providers(
    decodeToml: Bytes -> Option<Layer>,
    evalLua: Bytes -> Option<SiloConfig>,
    env: Layer)

  /** `Toml::file`: a missing file contributes nothing; a malformed one fails at extraction. */
  function TomlLayer(fs: Fs, p: Path, prov: Providers): Option<Layer> {
    if p in fs.files then prov.decodeToml(fs.files[p].data) else Some(map[])
  }

  /** `read_lua_config` turned into a layer. */
  function LuaLayer(fs: Fs, p: Path, prov: Providers): (r: Result<Layer>)
    ensures r.Ok? ==> "diff_tool" in r.value
  {
    if p !in fs.files then Err(ScriptFailed(p))
    else match prov.evalLua(fs.files[p].data)
      case None => Err(ScriptFailed(p))
      case Some(c) => Ok(ConfigLayer(c))
  }

  datatype Loaded = Loaded(fs: Fs, config: Result<SiloConfig>)

  /** What `read_config` does to the disk and what it returns. */
  function ReadConfigSpec(host: Host, fs: Fs, configDir: Option<Path>, repo: Path, prov: Providers): Loaded {
    if configDir.None? then Loaded(fs, Err(Panic))
    else
      var script := Join(configDir.value, "silo.config.lua");
      var oldToml := Join(configDir.value, "silo.toml");
      var written :=
        if Exists(fs, script) then Ok(fs)
        else WriteFile(fs, script, host.utf8Encode(JoinLines(ScriptLines(Exists(fs, oldToml), oldToml))));
      if written.Err? then Loaded(fs, Err(written.error))
      else Loaded(written.value, Resolve(host, written.value, configDir.value, repo, prov))
  }

  /**
    Every layer read and merged: the repository script fails first, then the
    user script, then a malformed TOML file; otherwise the default profile
    with the global profile merged over it.
  */
  function Merged(host: Host, fs: Fs, configDir: Path, repo: Path, prov: Providers): Result<Layer> {
    var repoScript := Join(repo, "silo.config.lua");
    var repoLua := if Exists(fs, repoScript) then LuaLayer(fs, repoScript, prov) else Ok(map[]);
    var userLua := LuaLayer(fs, Join(configDir, "silo.config.lua"), prov);
    var oldLayer := TomlLayer(fs, Join(configDir, "silo.toml"), prov);
    var repoToml := TomlLayer(fs, Join(repo, "repo.toml"), prov);
    var repoLocal := TomlLayer(fs, Join(repo, "repo.local.toml"), prov);
    if repoLua.Err? then Err(repoLua.error)
    else if userLua.Err? then Err(userLua.error)
    else if oldLayer.None? || repoToml.None? || repoLocal.None? then Err(BadConfig)
    else Ok(
      MergeLayers(DefaultProfile(ConfigLayer(DefaultConfig(host.installed)), oldLayer.value, repoToml.value,
                                 repoLocal.value, prov.env)) +
      MergeLayers(GlobalProfile(if Exists(fs, repoScript) then Some(repoLua.value) else None, userLua.value)))
  }

  /** The merged layers extracted into a configuration. */
  function Resolve(host: Host, fs: Fs, configDir: Path, repo: Path, prov: Providers): Result<SiloConfig> {
    match Merged(host, fs, configDir, repo, prov)
    case Err(e) => Err(e)
    case Ok(l) => Extract(l)
  }

  /** `read_config`. */
  method ReadConfig(host: Host, fs: Fs, configDir: Option<Path>, repo: Path, prov: Providers)
    returns (fs': Fs, r: Result<SiloConfig>)
    ensures Loaded(fs', r) == ReadConfigSpec(host, fs, configDir, repo, prov)
  {
    if configDir.None? {
      return fs, Err(Panic);
    }
    var script := Join(configDir.value, "silo.config.lua");
    var oldToml := Join(configDir.value, "silo.toml");
    fs' := fs;
    if !Exists(fs, script) {
      var lines := DefaultScriptLines(Exists(fs, oldToml), oldToml);
      var w := WriteFile(fs, script, host.utf8Encode(JoinLines(lines)));
      if w.Err? {
        return fs, Err(w.error);
      }
      fs' := w.value;
    }
    r := Resolve(host, fs', configDir.value, repo, prov);
  }

  /** The default script is written only when there is none; an existing one is left as it is. */
  lemma DefaultScriptOnlyWhenMissing(host: Host, fs: Fs, dir: Path, repo: Path, prov: Providers)
    ensures var l := ReadConfigSpec(host, fs, Some(dir), repo, prov);
      (Exists(fs, Join(dir, "silo.config.lua")) ==> l.fs == fs) &&
      (!Exists(fs, Join(dir, "silo.config.lua")) && l.config.Ok? ==>
        l.fs.files[Join(dir, "silo.config.lua")].data ==
          host.utf8Encode(JoinLines(ScriptLines(Exists(fs, Join(dir, "silo.toml")), Join(dir, "silo.toml")))))
  {
  }

  /**
    Precedence of the merged configuration: an entry the user's script sets
    comes from it; otherwise one the repository's script sets comes from
    that; otherwise an environment entry decides it.
  */
  lemma ScriptsOverEnv(host: Host, fs: Fs, dir: Path, repo: Path, prov: Providers, k: string)
    ensures var m := Merged(host, fs, dir, repo, prov);
      var user := LuaLayer(fs, Join(dir, "silo.config.lua"), prov);
      var repoScript := Join(repo, "silo.config.lua");
      var repoLua := LuaLayer(fs, repoScript, prov);
      m.Ok? ==>
        user.Ok? && (Exists(fs, repoScript) ==> repoLua.Ok?) &&
        (k in user.value ==> k in m.value && m.value[k] == user.value[k]) &&
        (k !in user.value && Exists(fs, repoScript) && k in repoLua.value ==>
          k in m.value && m.value[k] == repoLua.value[k]) &&
        (k !in user.value && (!Exists(fs, repoScript) || k !in repoLua.value) && k in prov.env ==>
          k in m.value && m.value[k] == prov.env[k])
  {
    var m := Merged(host, fs, dir, repo, prov);
    if m.Ok? {
      var repoScript := Join(repo, "silo.config.lua");
      var user := LuaLayer(fs, Join(dir, "silo.config.lua"), prov).value;
      var repoLua := if Exists(fs, repoScript) then Some(LuaLayer(fs, repoScript, prov).value) else None;
      var d := DefaultProfile(ConfigLayer(DefaultConfig(host.installed)),
                              TomlLayer(fs, Join(dir, "silo.toml"), prov).value,
                              TomlLayer(fs, Join(repo, "repo.toml"), prov).value,
                              TomlLayer(fs, Join(repo, "repo.local.toml"), prov).value, prov.env);
      var g := GlobalProfile(repoLua, user);
      assert m.value == MergeLayers(d) + MergeLayers(g);
      ProfilePrecedence(d, g, k);
    }
  }

  /**
    The precedence of the two profiles for one entry: the last global layer
    that sets it, else the environment (the last default layer).
  */
  lemma ProfilePrecedence(d: seq<Layer>, g: seq<Layer>, k: string)
    requires |d| == 5 && 1 <= |g| <= 2
    ensures var m := MergeLayers(d) + MergeLayers(g);
      (k in g[|g| - 1] ==> k in m && m[k] == g[|g| - 1][k]) &&
      (|g| == 2 && k !in g[1] && k in g[0] ==> k in m && m[k] == g[0][k]) &&
      (k !in g[|g| - 1] && (|g| == 1 || k !in g[0]) && k in d[4] ==> k in m && m[k] == d[4][k])
  {
    if k in g[|g| - 1] {
      MergeLastWins(g, k, |g| - 1);
    } else if |g| == 2 && k in g[0] {
      MergeLastWins(g, k, 0);
    } else if k in d[4] {
      MergeKeys(g, k);
      MergeLastWins(d, k, 4);
    }
  }

  /**
    Whatever the TOML files and the `SILO_` variables say, the diff tool in
    effect is the one the user's `silo.config.lua` returns, and the
    configuration resolves exactly when every layer could be read.
  */
  lemma UserScriptDecidesDiffTool(host: Host, fs: Fs, dir: Path, repo: Path, prov: Providers)
    ensures var r := Resolve(host, fs, dir, repo, prov);
      var p := Join(dir, "silo.config.lua");
      (r.Ok? <==> Merged(host, fs, dir, repo, prov).Ok?) &&
      (r.Ok? ==> p in fs.files && prov.evalLua(fs.files[p].data).Some? &&
                 r.value.diffTool == prov.evalLua(fs.files[p].data).value.diffTool)
  {
    var m := Merged(host, fs, dir, repo, prov);
    if m.Ok? {
      ScriptsOverEnv(host, fs, dir, repo, prov, "diff_tool");
    }
  }
}
