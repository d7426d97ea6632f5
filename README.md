# silo, modelled in Dafny

silo manages dotfiles. A repository is a directory tree of plain files and
templates. Directories that carry a `dir.toml` (or a `dir.toml.tmpl`) are
*roots*: their metadata names the target directory (itself a template) and
an ignore set. Opening a repository resolves a layered configuration and
parses the tree. Applying it walks the tree, renders templates, and copies or
writes each file to its destination. Before any existing file is replaced,
the configured diff tool is shown and the operator is asked.

The model covers:

- **Base** (`base.dfy`): shared vocabulary.
  - Paths are sequences of components.
  - The filesystem is files plus directories with their listing in read order.
  - A `World` is the disk, the operator's answers still to come, and a trace of
    observable events (directory created, diff shown, prompt answered, file
    written, hook run).
  - Host capabilities are parameters: template rendering, TOML decoding, glob
    matching, UTF-8 conversion and the executables on `PATH`.
- **Gate** (`gate.dfy`): the rule that guards every write (`confirm_write`).
- **Config** (`config.dfy`): `detect_difftool`, `SiloConfig::default`, and the
  default `silo.config.lua` written on first use. Also figment's default and
  global profiles with the override order of the layers in each, and
  `read_config` as a whole.
- **Contents** (`contents.dfy`): the content tree of `src/repo/contents.rs`.
  - `DirEntry::parse` is a specification function plus a recursive method with
    a loop over the directory listing.
  - `DirEntry::apply` and `FileEntry::apply` are handled the same way.
  - Their properties are lemmas: ignore filtering, metadata precedence,
    replacement of the ignore set, the write gate, root rebasing, and the
    first error stopping the walk.
- **Hooks** (`hooks.dfy`): hook scripts, the four dispatchers as methods of a
  `Hooks` class over a `scripts` field, `take`, `empty` and loading a hook
  directory.
- **Buffered** (`buffered.dfy`): `BufferedFsAccess`, a class whose `mappings`
  field is the staged list. `write_all`, `copy` and `set_permissions` update
  it, and `persist` drains it through the gate and the hooks.
- **Repo** (`repo.dfy`): `SiloRepo::open` and `SiloRepo::apply` of
  `src/repo/mod.rs`.
- **LegacyRepo** (`legacy_repo.dfy`): the older `src/repo.rs`. Its parse is
  proved to be the current parse under a configuration without a template
  context. Its apply never asks and always creates a root's directory.

Where the prose description of silo and the code differ, the model follows
the code:

- **Ignore patterns** are tested against the entry's path relative to the
  directory being read. That path is the entry's own name (`strip_prefix` of
  the parent). It is not relative to the nearest root. So `IGNORED_PATHS`
  excludes exactly the entries named `.git`, `dir.toml` and `dir.toml.tmpl`,
  and a metadata glob is matched against single names.
- **The template context** is read as `config.template_context` in
  `src/repo/contents.rs`, but `SiloConfig` in `src/config.rs` has no such
  field, only flattened `userdata`. The model takes the `template_context`
  entry of `userdata`, and the unit value when there is none.
- **The current `apply`** writes directly to the disk, through its own
  `confirm_write`, without the buffered writer and without hooks. The buffered
  writer and the hooks are modelled on their own.
- **`SiloRepo::apply`** evaluates the current-directory fallback before it
  looks at the home directory. An unreadable current directory therefore
  fails the apply even when the home directory is known
  (`Repo.ApplyCwd`).
- **Configuration precedence.** The comment on `read_config` presents the
  `SILO_` environment variables as overrides. In the code the two Lua
  configurations are merged with `Serialized::globals`, into figment's global
  profile, and that profile wins over the default profile, which holds the
  defaults, the TOML files and the environment. So an entry a Lua script sets
  beats the environment, and the diff tool is always the user script's
  (`Config.ScriptsOverEnv`, `Config.UserScriptDecidesDiffTool`).

## Model

| member | source | states |
|---|---|---|
| Base.FileName | src/repo/contents.rs:179 | `file_name()`: present exactly when the last component exists and is not `..`, and then it is that component |
| Base.Extension | src/repo/contents.rs:147-148 | `extension()`: none for `..`, for a name without a dot and for a name whose only dot leads; otherwise the name is stem + "." + extension |
| Base.WithoutExtension | src/repo/contents.rs:163 | `with_extension("")`: the non-empty stem, so that stem + "." + extension is the name |
| Base.ToPathRoundTrip | src/repo/contents.rs:128-129 | a path written out as text and read back with `PathBuf::from` is the same path |
| Base.Put | src/fs_access/buffered.rs:95-97 | storing a file succeeds exactly when the target is not the root or a directory and its parent is a directory; only that file changes |
| Base.WriteFile | src/repo/contents.rs:171-173 | `fs::write`: the destination then holds exactly the new bytes |
| Base.CopyFile | src/repo/contents.rs:182-184 | `fs::copy`: fails unless the source is a file; the destination then holds the source's bytes and permission bits |
| Base.CreateDirAll | src/repo/contents.rs:268-271 | `create_dir_all`: on success the directory exists, no file changed, old directories stay and new ones are ancestors of the target; on failure some ancestor is a file |
| Base.CreateDirAllExisting | src/repo/contents.rs:264-267 | creating a directory that exists changes nothing |
| Base.EnsureDir | src/repo/contents.rs:264-272 | `ensure_cwd`/`ensure_parent`: on success the path exists (as a directory, or as whatever already stood there) and no file changed; no answer is consumed |
| Base.EnsureDirIdempotent | src/repo/contents.rs:264-272 | ensuring a directory a second time changes nothing more |
| Base.Render | src/repo/contents.rs:166-167 | rendering fails exactly when the template engine rejects the template |
| Base.ReadToString | src/repo/contents.rs:161 | `read_to_string` succeeds exactly when the path is a file holding UTF-8, and yields that text; otherwise an I/O error for the path |
| Gate.Confirm | src/fs_access/buffered.rs:127-157 | the gate never touches the disk; a refusal consumes exactly one "no"; an error consumes no answer |
| Gate.ConfirmSilent | src/fs_access/buffered.rs:128-140 | a missing destination or identical content is accepted with nothing shown and nothing asked |
| Gate.ConfirmAsks | src/fs_access/buffered.rs:142-156 | otherwise the diff of (destination, staged) is shown and the next answer decides; with no answer the prompt fails |
| Gate.ConfirmShowsIffDiffers | src/fs_access/buffered.rs:138-150 | the operator sees something exactly when the destination is a file with other content and the diff tool can start |
| Config.FirstInstalled | src/config.rs:33-37 | the index found is installed and every earlier candidate is not; none only when no candidate is installed |
| Config.DetectDifftool | src/config.rs:32-39 | difft if installed, else delta if installed, else diff |
| Config.DefaultConfig | src/config.rs:23-30 | the default configuration has the detected diff tool and no userdata |
| Config.ScriptLines | src/config.rs:50-66 | the generated script has the fixed prelude and ends with `return config`; the two merge lines are present exactly when the old `silo.toml` exists (10 lines with them, 6 without) |
| Config.DefaultScriptLines | src/config.rs:51-66 | pushing the lines one by one yields exactly `ScriptLines` |
| Config.MergeKeys | src/config.rs:71-85 | the merged configuration has an entry exactly when some layer sets it |
| Config.MergeLastWins | src/config.rs:71-85 | each entry takes its value from the last layer that sets it |
| Config.ConfigLayer | src/config.rs:79-83 | a configuration as a layer (`Serialized::globals`, placed in the global profile by `Merged`) always sets `diff_tool` to its diff tool |
| Config.Extract | src/config.rs:85-87 | extraction succeeds exactly when `diff_tool` is a string; every other entry becomes userdata |
| Config.DefaultProfile | src/config.rs:71-74 | the default profile merges defaults, old `silo.toml`, `repo.toml`, `repo.local.toml` and the environment, in that order |
| Config.GlobalProfile | src/config.rs:76-83 | the global profile merges the repository script (when present) and then the user script |
| Config.ProfilesFlatten | src/config.rs:71-85 | extracting the default profile with the global one over it is a single merge with every global layer after every default layer |
| Config.LuaLayer | src/config.rs:90-101 | a script that evaluates yields a layer that sets `diff_tool` |
| Config.ReadConfig | src/config.rs:45-88 | writes the default script only when missing, then merges the default profile and the global profile over it and extracts, as `ReadConfigSpec` says |
| Config.DefaultScriptOnlyWhenMissing | src/config.rs:50-69 | an existing `silo.config.lua` leaves the disk untouched; a missing one is written with exactly the generated lines |
| Config.ScriptsOverEnv | src/config.rs:71-85 | an entry the user script sets comes from it; else one the repository script sets comes from that; else an environment entry decides |
| Config.UserScriptDecidesDiffTool | src/config.rs:82-85 | a resolved configuration always has the diff tool the user's `silo.config.lua` returns, whatever the TOML files and the environment say |
| Contents.ParseFile | src/repo/contents.rs:147-155 | a file is a template exactly when its extension is `tmpl` |
| Contents.ReadMetadata | src/repo/contents.rs:205-212 | succeeds exactly when the file reads as text that decodes, and yields the decoded metadata; otherwise an I/O or metadata error |
| Contents.ReadMetadataTemplate | src/repo/contents.rs:214-222 | succeeds exactly when the file reads, renders against the context and decodes, and yields the metadata decoded from the rendered text; a render failure is reported as such |
| Contents.VisibleNames | src/repo/contents.rs:90 | a name survives filtering exactly when it is listed and neither the fixed nor the inherited ignore set matches it |
| Contents.ChildrenErrorSticks | src/repo/contents.rs:85-93 | once one child fails, the directory fails with that error |
| Contents.ChildrenOnlyVisible | src/repo/contents.rs:90-94 | excluded entries are never parsed: the children are those of the visible names alone |
| Contents.VisibleNamesKeepOrder | src/repo/contents.rs:85-95 | filtering keeps listing order: the visible names of a concatenation are those of each part, in order |
| Contents.ChildrenInOrder | src/repo/contents.rs:85-95 | children keep listing order, one per visible name; the parse succeeds exactly when every visible child parses |
| Contents.MetadataPrecedence | src/repo/contents.rs:56-81 | `dir.toml` wins over `dir.toml.tmpl`; the template is rendered then decoded; with neither there is no metadata |
| Contents.RootIffMetadata | src/repo/contents.rs:53-105 | a directory becomes a root exactly when it has a metadata file or template, carrying the decoded metadata; a non-directory becomes a file entry |
| Contents.MetadataReplacesIgnored | src/repo/contents.rs:59-77 | below a root the inherited ignore set no longer matters: it is replaced, not extended |
| Contents.PlainDirInherits | src/repo/contents.rs:78-101 | a directory without metadata parses its children with its own context and becomes a plain directory |
| Contents.ParseNeedsOnlyTemplateContext | src/repo/contents.rs:69-70 | the configuration reaches parsing only through the template context |
| Contents.ChildrenNeedOnlyTemplateContext | src/repo/contents.rs:83-95 | the same for a list of children |
| Contents.Parse | src/repo/contents.rs:52-106 | the recursive walk with its loop computes exactly `ParseEntry` |
| Contents.DirCursor | src/repo/contents.rs:114-121 | inside a directory other than the cursor, the new cursor is the old one plus the directory's name; panics on a nameless path |
| Contents.StrippedName | src/repo/contents.rs:163-164 | the name of `with_extension("")`: the stem, when it is neither `.` nor `..` |
| Contents.FileDest | src/repo/contents.rs:163-165 | a file lands directly under the cursor: a plain file under its own name, exactly when it has one; otherwise the `unwrap` panics |
| Contents.TemplateDropsSuffix | src/repo/contents.rs:163-165 | a template `x.tmpl` lands at cursor/x (the destination name plus `.tmpl` is the source name); `..tmpl` lands under the name of its own directory, and `...tmpl` panics |
| Contents.ConfirmPaths | src/repo/contents.rs:235-262 | the gate between two paths never changes the disk |
| Contents.RootRebases | src/repo/contents.rs:127-135 | a root's children land under its rendered path whatever the incoming cursor |
| Contents.FileWrittenOnlyIfAccepted | src/repo/contents.rs:157-194 | the disk changes only at the destination and only when the gate (`GateOf`) answered yes; a no leaves the disk as the gate left it; failing before the gate changes nothing; at most one answer is consumed |
| Contents.AcceptedFileContent | src/repo/contents.rs:163-189 | an accepted file that goes through ends with the write as its last event; the destination then holds the source file (a plain file) or the UTF-8 bytes of the rendered template |
| Contents.SameContentIsSilent | src/repo/contents.rs:178-186 | a plain file identical to its destination is copied without a diff or a question |
| Contents.PlainApplyTwiceIsQuiet | src/repo/contents.rs:178-186 | applying a copied plain file again asks nothing and leaves the disk unchanged |
| Contents.FirstErrorStops | src/repo/contents.rs:122-125 | after the first failing child no later sibling is applied |
| Contents.EnsureCwd | src/repo/contents.rs:264-272 | the early-return method computes exactly `EnsureDir` |
| Contents.ConfirmWrite | src/repo/contents.rs:235-262 | the early-return method computes exactly `ConfirmPaths` (gate on the source file's bytes) |
| Contents.Apply | src/repo/contents.rs:108-137 | the recursive walk computes exactly `ApplyEntry` |
| Contents.ApplyEach | src/repo/contents.rs:122-125 | the loop over children computes exactly `ApplyChildren` |
| Hooks.CallScript | src/repo/hooks.rs:117-129 | an undefined callback is a no-op; a defined one is called once and fails exactly when the script fails; the disk and answers are untouched |
| Hooks.Dispatch | src/repo/hooks.rs:63-69 | dispatching never changes the disk or the answers |
| Hooks.Calls | src/repo/hooks.rs:64-66 | at most one call per script |
| Hooks.DispatchExtends | src/repo/hooks.rs:63-69 | a dispatch only appends to the record |
| Hooks.DispatchAllSucceed | src/repo/hooks.rs:63-69 | a dispatch succeeds exactly when no script fails, and then calls exactly the scripts that define the callback, in order |
| Hooks.DispatchStopsAtFailure | src/repo/hooks.rs:64-66 | the first failing script ends the dispatch with its error; no later script is called |
| Hooks.UndefinedIsNoop | src/repo/hooks.rs:117-128 | a callback no script defines changes nothing |
| Hooks.DispatchTail | src/repo/hooks.rs:64-66 | once a prefix of the scripts fails, the whole dispatch fails the same way |
| Hooks.Hooks.Empty | src/repo/hooks.rs:95-99 | the empty set has no scripts |
| Hooks.Hooks.Take | src/repo/hooks.rs:40-44 | the taken set holds the old scripts and this one is left empty |
| Hooks.Hooks.Run | src/repo/hooks.rs:63-69 | the loop over scripts computes exactly `Dispatch` |
| Hooks.Hooks.BeforeApplyAll | src/repo/hooks.rs:63-69 | `Dispatch` of the before-all callback |
| Hooks.Hooks.AfterApplyAll | src/repo/hooks.rs:71-77 | `Dispatch` of the after-all callback |
| Hooks.Hooks.BeforeApplyEach | src/repo/hooks.rs:79-85 | `Dispatch` of the before-each callback |
| Hooks.Hooks.AfterApplyEach | src/repo/hooks.rs:87-93 | `Dispatch` of the after-each callback |
| Hooks.LoadScript | src/repo/hooks.rs:103-115 | loading succeeds exactly when the file reads as text and compiles, and yields the script compiled from that text; otherwise an I/O or script error |
| Hooks.LoadAll | src/repo/hooks.rs:51-58 | every loaded script is a regular file with extension `nu` |
| Hooks.ParseSpec | src/repo/hooks.rs:46-61 | a hook path that is not a directory fails to read; a successful parse holds one script per hook file of the directory, in listing order, each loaded from that file |
| Hooks.HookFiles | src/repo/hooks.rs:51-55 | the hook files of a listing: regular files with extension `nu` directly inside the directory |
| Hooks.LoadAllLoadsHookFiles | src/repo/hooks.rs:46-61 | loading succeeds exactly when every hook file loads, and yields one script per hook file in listing order, each the one loaded from that file |
| Hooks.LoadAllComplete | src/repo/hooks.rs:51-58 | a successful load misses no hook file of the listing |
| Hooks.Parse | src/repo/hooks.rs:46-61 | the loop over the listing computes exactly `ParseSpec` |
| Hooks.LoadAllTail | src/repo/hooks.rs:51-56 | the first script that fails to load fails the whole directory |
| Buffered.Dsts | src/fs_access/buffered.rs:78 | the batch's path list is the destinations in staging order |
| Buffered.SetPerm | src/fs_access/buffered.rs:63-73 | only the first staged entry for the path takes the new permission bits; nothing else changes |
| Buffered.PersistOneGate | src/fs_access/buffered.rs:86-107 | an entry changes the disk only after acceptance; a declined entry leaves the disk alone and runs no hook |
| Buffered.EqualContentStillRunsHooks | src/fs_access/buffered.rs:86-104 | identical content is written with no diff and no question, and the per-entry hooks still run around the write |
| Buffered.AcceptedEntryWritten | src/fs_access/buffered.rs:86-107 | for any accepted entry (a missing destination, identical bytes or a prompted yes) whose each-hooks do not fail: it goes through exactly when ensuring the parent succeeds and leaves a directory above a destination that is not a directory; then the destination holds the staged bytes and mode, nothing else changes on disk, and the trace is the gate's and the parent's, the before-each calls, the write, the after-each calls |
| Buffered.EachHookSeesOwnTemp | src/fs_access/buffered.rs:89-103 | with distinct temporaries, two staged entries give their each-hooks different contexts, even for the same destination |
| Buffered.PersistStopsAtFirstError | src/fs_access/buffered.rs:85-109 | after a failing entry no later entry is confirmed, hooked or written |
| Buffered.PersistOneKeepsFiles | src/fs_access/buffered.rs:85-109 | nothing is rolled back: no file disappears |
| Buffered.PersistEachKeepsFiles | src/fs_access/buffered.rs:85-110 | across a whole batch, successful or not, no file that existed disappears |
| Buffered.AfterAllNeedsEveryEntry | src/fs_access/buffered.rs:112-115 | the after-all hooks run only when every entry went through |
| Buffered.PersistBracket | src/fs_access/buffered.rs:75-118 | a persist succeeds exactly when neither batch callback fails and every entry succeeds; it then records the before-all calls, the entries' own record and the after-all calls, both batches with the same destination list |
| Buffered.PersistEachExtends | src/fs_access/buffered.rs:85-110 | persisting entries only appends to the record |
| Buffered.PersistEmpty | src/fs_access/buffered.rs:75-118 | an empty batch writes nothing and asks nothing |
| Buffered.BufferedFsAccess.constructor | src/fs_access/buffered.rs:28-35 | a new writer has nothing staged |
| Buffered.BufferedFsAccess.WriteAll | src/fs_access/buffered.rs:39-51 | appends one entry holding the bytes, with temporary-file bits 0600, bound for the destination |
| Buffered.BufferedFsAccess.Copy | src/fs_access/buffered.rs:53-61 | fails unless the source is a file; otherwise appends one entry with the source's bytes and permission bits |
| Buffered.BufferedFsAccess.SetPermissions | src/fs_access/buffered.rs:63-73 | the search loop leaves the staged list as `SetPerm` says |
| Buffered.BufferedFsAccess.Persist | src/fs_access/buffered.rs:75-118 | drains the staged list and does exactly `PersistSpec`: before-all, every entry, after-all, with the same path list (the bracket is `PersistBracket`); the staged entries' each-hook contexts are pairwise different |
| Buffered.BufferedFsAccess.PersistAll | src/fs_access/buffered.rs:85-109 | the loop over entries computes exactly `PersistEach` |
| Buffered.BufferedFsAccess.PersistEntry | src/fs_access/buffered.rs:86-107 | one entry: confirm, create the parent, before-each, copy, after-each, exactly as `PersistOne`; what an accepted entry does is `AcceptedEntryWritten` |
| Buffered.ConfirmWrite | src/fs_access/buffered.rs:127-157 | the early-return method computes exactly `Confirm` |
| Buffered.EnsureParent | src/fs_access/buffered.rs:159-167 | the early-return method computes exactly `EnsureDir` |
| Repo.RootContext | src/repo/mod.rs:24 | the walk starts with the resolved configuration and an empty ignore set |
| Repo.OpenOutcome | src/repo/mod.rs:19-30 | a missing repository fails before anything is read or written; a successful open holds what `read_config` resolved and the tree parsed from the path |
| Repo.ApplyCwd | src/repo/mod.rs:33 | the home directory when known, else the current directory; an unreadable current directory fails even with a home directory |
| Repo.Open | src/repo/mod.rs:19-30 | computes exactly `OpenSpec` |
| Repo.Apply | src/repo/mod.rs:32-38 | computes exactly `ApplySpec` |
| LegacyRepo.LegacyContext | src/repo.rs:46-62 | the legacy context is only an ignore set; metadata templates see the unit context |
| LegacyRepo.LegacyParseIsCurrentParse | src/repo.rs:84-131 | the legacy parse is the current parse under any configuration without a template context |
| LegacyRepo.Parse | src/repo.rs:84-131 | computes exactly the parse under the legacy context |
| LegacyRepo.NeverAsks | src/repo.rs:133-233 | the legacy apply consumes no answer and records only directory creations and writes |
| LegacyRepo.NeverAsksChildren | src/repo.rs:149-151 | the same for a list of children |
| LegacyRepo.RootDirCreatedOnlyByLegacy | src/repo.rs:154-176 | the legacy apply creates a root's rendered directory even with no children; the current one does not |
| LegacyRepo.OverwritesWithoutAsking | src/repo.rs:221-229 | a plain file replaces its destination without a question |
| LegacyRepo.OpenAgreesWithCurrent | src/repo.rs:24-33 | without a template context both implementations open the same repository |
| LegacyRepo.Open | src/repo.rs:24-33 | computes exactly the legacy `OpenSpec` |
| LegacyRepo.Apply | src/repo.rs:35-43 | from the current directory, or fails when it is unavailable |
| LegacyRepo.ApplyTree | src/repo.rs:133-178 | the recursive walk computes exactly the legacy `ApplyEntry` |
| LegacyRepo.ApplyEach | src/repo.rs:149-152 | the loop over children computes exactly the legacy `ApplyChildren` |
| LegacyRepo.FirstErrorStops | src/repo.rs:172-175 | after the first failing child no later sibling is applied |

## Left out

- The template engine, TOML decoding, glob matching, Lua evaluation, Nushell compilation and UTF-8 conversion are host functions the model only calls. Their own behaviour is not modelled.
- Hook scripts act only through the trace. A script that changes the disk is not modelled. Failures of `call_fn` and `print_pipeline` are one "call fails" outcome.
- SHA-256 checksum equality is modelled as byte equality. Checksum collisions are not modelled.
- Creating or writing a temporary file (`NamedTempFile::new`, `write_all` on it) never fails in the model. Nor does `fs::set_permissions` on a staged temporary file. Temporary files live outside the modelled disk, and dropping them is not modelled.
- These never fail in the model: `read_dir`, its per-entry results, `strip_prefix` and `try_exists`. Only the cases where the path is not a directory or does not exist are modelled.
- The diff tool's own run and exit status, and a failure waiting for it, are not modelled. Only a tool that cannot be started (not on `PATH`) fails.
- Figment merges nested tables deeply. The model merges top-level entries with the later layer winning. Of figment's profiles only the default one (which `extract` selects) and the global one are modelled. The `SILO_` prefix stripping and key mapping of environment variables are part of the environment layer given as input.
- `dirs::config_dir()` and `dirs::home_dir()` are inputs. `env::current_dir()` is an optional input.
- Config.ScriptLines: the old TOML path is written in plain double quotes. Rust's `{:?}` escaping of quotes and backslashes inside the path is not modelled.
- Paths given as input have no `.` or empty components. The `.` left by a `..tmpl` template is resolved in `Contents.StrippedName`. A rendered root path is read as absolute. Its `.` and `..` components are kept as literal names and not resolved, so `{{dirs.home}}/../shared` names a different key of the modelled file system from the directory the operating system would write into. A relative rendered path is not resolved against the process's current directory.
- Base.CreateDirAll: a `create_dir_all` that fails part way leaves the disk as it was. The model does not keep the ancestors it created before the failure.
- Base.WriteFile: a newly created file gets mode 0644, which assumes umask 022.
- `Contents::parse` and `Contents::apply` only forward to the root entry, so `Repo.Open` and `Repo.Apply` call the tree functions directly. `ApplyContext` is represented by the configuration it holds.
- `FileEntry::parse` cannot fail, so `Contents.ParseFile` is total.
- Logging is not modelled.
