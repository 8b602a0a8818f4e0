# file_organizer: rule resolution, the organizer engines and configuration, in Dafny

The organizer sorts the regular files of a source folder into sub-folders
named by their extension, under the source or a separate destination. An
extension-to-folder rule table decides where each file goes. A file whose
name is already taken gets the first free name `stem_(n)suffix`. A dry run
only counts what it would do. A clean-up pass afterwards removes the
directories the run left empty.

This project models that core:

- both engines: `src/core.py` and the older `core.py`;
- the three rule managers: `src/rules.py`, `src/rule_manager/` with its
  `RuleLoader`, and `src/rule_manager.py`, which goes through the tools
  loader;
- `ConfigNormalizer`;
- the two configuration managers and the logging-configuration validator.

Everything is pure functions over immutable data. Each Python exception that
can escape becomes an `Error` value:

- `ConfigError`, `RuleError` and `PathError` are the three `OrganizerError`
  kinds, which derive from `BaseException`, so no `except Exception`
  swallows them.
- `Unhandled(name)` is any other exception, such as `AttributeError` or
  `KeyError`.

Modules, in dependency order:

| module | models |
|---|---|
| `Wrappers`, `Exceptions` | `Option`/`Result`; the exception kinds |
| `Seqs` | sequences without repetitions, and their count of elements |
| `Text` | ASCII `str.lower()`, the "lower-case, prefix a dot" key normalisation, decimal rendering of the collision counter |
| `Json` | decoded JSON values, Python truthiness, dicts as pair sequences, `dict.update`, files on disk (`Disk`) |
| `Paths`, `FileSystem` | paths as component sequences, `suffix`/`stem`, collision names; a tree of files and directories with `mkdir(parents=True)` and `move` |
| `RuleTable` | `get_folder`, `normalize_dict`, the built-in rules |
| `Planner` | `_process_file` shared by both engines: target folder, skip test, first free name, move; the traversal over a listing; outcome counts |
| `Reaper` | `_rm_empty_dirs`: deepest-first removal of empty directories |
| `Organizer`, `LegacyOrganizer` | `Organizer.organize` of `src/core.py` and of `core.py` |
| `Rules`, `RuleLoader`, `CachedRuleManager`, `ToolsRuleManager`, `Loader` | the three rule managers and the two loaders |
| `Normalizer`, `Configs`, `ConfigManager`, `Validator` | `ConfigNormalizer`, `src/configs.py`, `src/config_manager.py`, `src/validator.py` |

Modelling choices:

- The traversal order (`iterdir`/`rglob`) is a parameter. `listing` is
  any duplicate-free enumeration of exactly the entries in scope.
- An entry is handled when it is a regular file at its turn in the
  traversal. The listing is a snapshot of the entries taken before the
  first move. `Planner.WalkProcessesSnapshot` proves that, over such a
  snapshot, the walk handles exactly the regular files present at the
  start. Python's `rglob` is lazy, so a real recursive walk can also reach
  files that earlier moves created (see "Left out").
- Which directories refuse `rmdir` with `PermissionError` is a parameter,
  `locked`.
- `ast.literal_eval` is a parameter of `ConfigManager`.
- A `Disk` maps a path to its decoded content. A path that is absent cannot
  be opened. `Unparsable` stands for invalid JSON or a read error, which the
  loaders catch. `Undecodable` stands for bytes that are not UTF-8: no
  loader catches the resulting `UnicodeDecodeError`, so it escapes as
  `Unhandled("UnicodeDecodeError")`.
- The packaged default files are parameters, because their paths depend on
  the installation.

The file-based `ConfigManager` of `src/configs.py` never assigns its
`__configs` slot, so on real Python its constructor cannot succeed.
`Configs.InitAsWritten` models that, and `Configs.Init` starts from an
empty dict.

## Model

| member | source | states |
|---|---|---|
| Text.Lower | file_organizer/organizer/src/rules.py:108 | lower-casing keeps the length, maps every character to its lower-case form, leaves no upper-case letter, and changes nothing in a string that is already lower-case |
| Text.LowerIsLower | file_organizer/organizer/src/rules.py:108 | a lower-cased string has no upper-case letter left |
| Text.LowerOfLower | file_organizer/organizer/src/rules.py:108 | lower-casing a lower-case string changes nothing (idempotence) |
| Text.Dotted | file_organizer/organizer/src/rules.py:52-54 | a normalised key is lower-case and starts with a dot; it is the lower-cased key, with a dot prepended when it had none |
| Text.DottedFixedPoints | file_organizer/organizer/src/rules.py:48-56 | normalisation leaves a key unchanged exactly when it is already lower-case and dotted |
| Text.DottedIdempotent | file_organizer/organizer/src/rules.py:48-56 | normalising a key twice is the same as once |
| Text.DottedIgnoresCase | file_organizer/organizer/src/rules.py:52 | keys differing only in letter case normalise to the same key |
| Text.NatToString | file_organizer/organizer/src/core.py:122 | the counter renders as a non-empty string of decimal digits |
| Text.ParseNatToString | file_organizer/organizer/src/core.py:122 | parsing the rendered counter gives the counter back |
| Text.NatToStringInjective | file_organizer/organizer/src/core.py:122 | distinct counters render differently |
| Json.Truthy | file_organizer/organizer/src/rule_manager/rule_loader.py:31 | Python's truth value of a decoded value: `None`, `False`, zero, and empty strings, dicts and lists are false. It has no contract of its own; RuleLoader.EmptyDictNotCached and RuleLoader.CachedIgnoresPath state what the cache test decides with it |
| Json.Update | file_organizer/organizer/src/rules.py:35 | `m.update(d)` keeps every key of `m` and adds those of `d`; a key of `d` takes the value of its last pair in `d`; every other key of `m` keeps its value |
| Json.UpdateTwice | file_organizer/organizer/src/rule_manager/rule_manager.py:25-33 | two successive updates add both dicts' keys, and the later dict wins over the earlier one, which wins over the original entries |
| Json.Get | file_organizer/organizer/src/validator.py:15 | `d.get(k, default)`. It has no contract of its own; Json.GetValue states it |
| Json.GetValue | file_organizer/organizer/src/validator.py:37 | `get` answers with the value of the last pair whose key is `k`, and with the default only when no pair has that key |
| Paths.LastDot | file_organizer/organizer/src/core.py:118-119 | the index of the last dot of a name, with no dot after it, or -1 |
| Paths.StemSuffixSplit | file_organizer/organizer/src/core.py:118-119 | a name is its stem followed by its suffix; a non-empty suffix is a dot plus at least one non-dot character, after a non-empty stem |
| Paths.Components | file_organizer/organizer/src/core.py:104 | a folder name joined under the destination contributes only proper path components |
| Paths.CandidateInjective | file_organizer/organizer/src/core.py:121-124 | different counters give different collision names |
| Paths.CandidateKeepsSuffix | file_organizer/organizer/src/core.py:118-123 | a collision name keeps the original's suffix |
| Paths.Candidate | file_organizer/organizer/src/core.py:121-123 | a collision name is at least four characters longer than the original name |
| Paths.TrailingDotCandidateGainsSuffix | file_organizer/organizer/src/core.py:118-123 | a name ending in a dot has no suffix, yet its collision name `a._(1)` has the suffix `._(1)` |
| FileSystem.MakeDirs | file_organizer/organizer/src/core.py:134 | creating the folder fails exactly when a regular file blocks its path; otherwise the folder exists, nothing existing changes, and only directories on its path are added |
| FileSystem.MakeDirsKeepsFiles | file_organizer/organizer/src/core.py:134 | creating folders adds or removes no regular file |
| FileSystem.MakeDirsWellFormed | file_organizer/organizer/src/core.py:134 | creating folders keeps the tree well formed |
| FileSystem.Rename | file_organizer/organizer/src/core.py:137 | a move succeeds exactly when the source is a file and the target's parent is a directory; the content moves to the target and every other entry is unchanged |
| FileSystem.RenameKeepsFileCount | file_organizer/organizer/src/core.py:137 | a move swaps the source for the target among the files, so the number of files is unchanged |
| FileSystem.RenameWellFormed | file_organizer/organizer/src/core.py:137 | a move keeps the tree well formed |
| RuleTable.GetFolderIgnoresCase | file_organizer/organizer/src/rules.py:106-109 | lookups ignore the letter case of the queried extension |
| RuleTable.GetFolderFallback | file_organizer/organizer/src/rules.py:106-109 | a lookup returns the stored folder when the lower-cased extension is a key, and `Others` otherwise |
| RuleTable.GetFolder | file_organizer/organizer/src/rules.py:106-109 | a lookup returns `Others` or a folder of the table, and a folder only when the lower-cased extension is a key |
| RuleTable.UndottedQueryFallsBack | file_organizer/organizer/src/rules.py:106-109 | in a normalised table, an extension without a leading dot always gets `Others` |
| RuleTable.NormalizeKeys | file_organizer/organizer/src/rules.py:48-56 | each pair keeps its folder and gets its extension normalised, in order; the table it denotes is normalised, and its keys are exactly the normalised forms of the input's keys |
| RuleTable.DottedKeys | file_organizer/organizer/src/rules.py:48-56 | a dict whose keys are the normalised forms of another dict's keys, place by place, denotes a normalised table keyed by exactly those forms |
| RuleTable.NormalizeKeysNormalised | file_organizer/organizer/src/rules.py:48-56 | every key of a normalised dict is lower-case and dotted |
| RuleTable.NormalizeKeysIdempotent | file_organizer/organizer/src/rules.py:48-56 | normalising a dict twice is the same as once |
| RuleTable.NormalizeKeysOfNormal | file_organizer/organizer/src/rules.py:48-56 | a dict whose keys are already normal is unchanged |
| RuleTable.NormalizeKeysMergesCase | file_organizer/organizer/src/rules.py:48-56 | two keys differing only in case merge into one entry, and the later value wins |
| RuleTable.BuiltinRulesNormalised | file_organizer/organizer/src/rules.py:86-103 | the built-in rules are all normalised |
| RuleTable.BuiltinRulesLookups | file_organizer/organizer/src/rules.py:86-109 | with the built-in rules `.PNG` resolves to `Images` and `.md` to `Others` |
| RuleTable.BuiltinRulesSize | file_organizer/organizer/src/rules.py:86-103 | there are thirteen built-in rules |
| Planner.CandidatePathsCount | file_organizer/organizer/src/core.py:121-124 | the first n collision names are n distinct paths |
| Planner.TakenBound | file_organizer/organizer/src/core.py:121-124 | no more collision names can be taken than the tree has entries, so the search ends |
| Planner.FirstFree | file_organizer/organizer/src/core.py:121-124 | the counter found is free, and every counter from the start up to it is taken |
| Planner.Target | file_organizer/organizer/src/core.py:105-124 | the chosen path does not exist yet and lies directly in the target folder |
| Planner.TargetIsLeastFree | file_organizer/organizer/src/core.py:117-124 | the file keeps its own name when free; otherwise it gets `stem_(n)suffix` for the least n >= 1 whose path is free |
| Planner.FindTarget | file_organizer/organizer/src/core.py:117-124 | the counting loop lands on the least free name and never on an existing path |
| Planner.Plan | file_organizer/organizer/src/core.py:101-124 | a non-string folder cannot be routed; a file already in its folder is skipped; otherwise it moves to a fresh path inside a different folder |
| Planner.FolderOf | file_organizer/organizer/src/core.py:101-105 | a target folder exists exactly when the rule for the suffix is a string, and it lies under the destination unless the rule names an absolute folder |
| Planner.Relocate | file_organizer/organizer/src/core.py:133-143 | creating the folder and then moving either succeeds or counts as an error |
| Planner.Handle | file_organizer/organizer/src/core.py:98-143 | skipped exactly when already placed; simulated exactly in dry-run with a move planned; never moved in dry-run; a dry run changes nothing |
| Planner.HandleEffect | file_organizer/organizer/src/core.py:133-139 | a real move puts the file's content at a fresh target and removes the original; every other entry is kept; anything new is the target or a folder on its path |
| Planner.HandleFails | file_organizer/organizer/src/core.py:141-143 | a file counts as an error exactly when its folder is not a string, or in a real run when a file blocks the folder's path |
| Planner.HandleKeepsFileCount | file_organizer/organizer/src/core.py:98-143 | processing a file never creates or loses a file |
| Planner.HandleWellFormed | file_organizer/organizer/src/core.py:98-143 | processing a file keeps the tree well formed |
| Planner.TargetKeepsSuffix | file_organizer/organizer/src/core.py:117-124 | the chosen target keeps a suffixed file's suffix |
| Planner.MovedFileIsPlaced | file_organizer/organizer/src/core.py:101-113 | a moved file whose target kept its suffix is, where it landed, already in its folder, and processing it again skips it |
| Planner.SecondRunSkipsMovedFile | file_organizer/organizer/src/core.py:98-124 | processing a moved file with a suffix again, at its target, skips it: a second run does not move it again |
| Planner.Walk | file_organizer/organizer/src/core.py:69-78 | the traversal handles at most one file per entry; a dry run changes nothing; the file count and well-formedness are kept |
| Planner.WalkDryRunMovesNothing | file_organizer/organizer/src/core.py:126-131 | no outcome of a dry traversal is a real move |
| Planner.RegularFiles | file_organizer/organizer/src/core.py:71-78 | the listed entries that are regular files, and only those |
| Planner.WalkProcessesSnapshot | file_organizer/organizer/src/core.py:69-78 | the lazy traversal handles exactly as many files as the listing held regular files at the start |
| Planner.Count | file_organizer/organizer/src/core.py:42-47 | a counter never exceeds the number of handled files |
| Planner.CountsAddUp | file_organizer/organizer/src/core.py:98-143 | every handled file lands in exactly one of the four outcomes |
| Reaper.MaxDepth | file_organizer/organizer/src/core.py:154 | the deepest level of the tree bounds every entry's depth |
| Reaper.ReapLevels | file_organizer/organizer/src/core.py:154-165 | one pass over the levels from the deepest up to the root's children, removing the empty unlocked directories of each level. It has no contract of its own; Reaper.ReapLevelsPrunes, Reaper.ReapLevelsClears and Reaper.ReapLevelsDry state it |
| Reaper.Reap | file_organizer/organizer/src/core.py:146-167 | `_rm_empty_dirs`: the pass over every level of the tree. It has no contract of its own; Reaper.ReapPrunes, Reaper.ReapRemovesClearable, Reaper.ReapDryRun and Reaper.ReapKeepsFiles state it |
| Reaper.ReapLevelsPrunes | file_organizer/organizer/src/core.py:146-167 | a pass over any levels removes only unlocked directories strictly below the root, leaves every other entry as it was, and removes nothing in dry run |
| Reaper.ReapPrunes | file_organizer/organizer/src/core.py:146-167 | the whole clean-up removes only unlocked directories below the root, keeps every other entry, and changes nothing in dry run |
| Reaper.ClearableUnfold | file_organizer/organizer/src/core.py:155-158 | a directory is cleared exactly when it is not locked and all its children are cleared |
| Reaper.LevelGone | file_organizer/organizer/src/core.py:154-165 | once the deeper levels are cleared, the empty unlocked directories at a level are exactly the clearable ones there |
| Reaper.ReapRemovesClearable | file_organizer/organizer/src/core.py:146-167 | the pass removes exactly the directories whose whole subtree holds only unlocked directories, and counts each removal once |
| Reaper.ReapWellFormed | file_organizer/organizer/src/core.py:146-167 | removing empty directories keeps the tree well formed |
| Reaper.ReapDryRun | file_organizer/organizer/src/core.py:159-162 | a dry pass changes nothing and counts the directories that are empty now |
| Reaper.ReapKeepsFiles | file_organizer/organizer/src/core.py:146-167 | the pass never removes a regular file |
| Organizer.InScope | file_organizer/organizer/src/core.py:69-78 | the entries a traversal visits: everything strictly below the source with `rglob('*')` in recursive mode, only its direct children with `iterdir()` otherwise. It has no contract of its own; Organizer.ListedEntries and Organizer.OrganizeCountsEveryFile range over exactly these entries |
| Organizer.Tally | file_organizer/organizer/src/core.py:111-143 | moved, skipped and errors add up to the number of files handled; removals are counted apart |
| Organizer.Organize | file_organizer/organizer/src/core.py:50-83 | the run fails with `PathError` exactly when the source is not a directory; without clean nothing is removed; a dry run changes nothing |
| Organizer.OrganizeCountsEveryFile | file_organizer/organizer/src/core.py:69-78 | every regular file in scope is counted exactly once as moved, skipped or error |
| Organizer.OrganizeKeepsFiles | file_organizer/organizer/src/core.py:50-83 | a run never creates or loses files and keeps the tree well formed |
| Organizer.OrganizeCleans | file_organizer/organizer/src/core.py:80-83 | a real run with clean removes exactly the clearable directories left by the moves, and counts them |
| Organizer.OrganizeDryRunCounts | file_organizer/organizer/src/core.py:159-162 | a dry run with clean counts the directories that are empty before the run |
| LegacyOrganizer.LegacyTally | file_organizer/organizer/core.py:43 | the four file counters add up to the files handled; removal counters are kept apart |
| LegacyOrganizer.ReapAsWritten | file_organizer/organizer/core.py:130-148 | as written, `removed` stays 0 and a dry pass counts at most one directory, yet the pass removes what the corrected pass removes |
| LegacyOrganizer.ReapCounted | file_organizer/organizer/core.py:130-148 | the corrected pass counts every directory a real run removes and every empty directory a dry run sees |
| LegacyOrganizer.ReapAsWrittenUndercounts | file_organizer/organizer/core.py:140-146 | two empty folders: as written 0 are counted as removed and 1 in dry run; corrected, 2 and 2 |
| LegacyOrganizer.LegacyOrganizeWith | file_organizer/organizer/core.py:46-83 | `PathError` exactly when the source is not a directory; a dry run changes nothing and fills only `moves`/`removes`; a real run only `moved`/`removed` |
| LegacyOrganizer.LegacyOrganizeAsWritten | file_organizer/organizer/core.py:46-83 | as written: `removed` is always 0 and `removes` at most 1; a dry run changes nothing; a real run fills no dry-run counter |
| LegacyOrganizer.LegacyOrganize | file_organizer/organizer/core.py:46-83 | corrected counting: `PathError` exactly when the source is not a directory; a dry run changes nothing and fills only `moves`/`removes`; a real run only `moved`/`removed` |
| LegacyOrganizer.AsWrittenDiffersOnlyInPassCounts | file_organizer/organizer/core.py:130-148 | the engine as written leaves the same tree and file counts as the corrected one; it counts no removal, and in dry run one would-be removal exactly when there is any |
| LegacyOrganizer.WalkNeverSimulates | file_organizer/organizer/core.py:112-124 | a real run records no simulated move |
| LegacyOrganizer.LegacyCountsEveryFile | file_organizer/organizer/core.py:59-70 | every regular file in scope is counted once across moved, moves, skipped and errors |
| LegacyOrganizer.LegacyMatchesOrganizer | file_organizer/organizer/core.py:46-128 | with corrected counting, the older engine leaves the same tree as the newer one with clean, and its counters sum to the newer ones |
| Rules.ReadRules | file_organizer/organizer/src/rules.py:59-72 | a rules file is read exactly when it exists, decodes and holds a dict; its pairs come back in order with keys normalised and folders kept; a missing file, invalid JSON or a non-dict is `RuleError`, and bytes that are not UTF-8 let `UnicodeDecodeError` escape |
| Rules.LoadFromFile | file_organizer/organizer/src/rules.py:59-72 | loading fails exactly when reading does, with the same error; on success the table holds the old keys and the file's, the file's folders win, every other entry is kept, and normalisation is preserved |
| Rules.LoadDefaults | file_organizer/organizer/src/rules.py:75-103 | the default file when it exists; otherwise the built-in rules are added and win |
| Rules.Merged | file_organizer/organizer/src/rules.py:24-35 | the three layers leave a normalised table |
| Rules.MergedLayers | file_organizer/organizer/src/rules.py:24-35 | the layers hold exactly the keys the defaults, the rules file and the explicit rules supply, and the defaults survive where no later layer overrides them |
| Rules.MergedOverrides | file_organizer/organizer/src/rules.py:28-35 | an explicit rule beats the rules file, which beats what came before it |
| Rules.Build | file_organizer/organizer/src/rules.py:16-38 | the only errors are `RuleError` and an escaping `UnicodeDecodeError`; the table is normalised; it is empty only when the default file holds `{}` |
| Rules.BuildPrecedence | file_organizer/organizer/src/rules.py:16-38 | explicit rules win, then the rules file, then the defaults merged by `combine`; the table holds exactly the keys the layers supply, and only when they supply none is it what `load_defaults` gives |
| Rules.BuildFallback | file_organizer/organizer/src/rules.py:36-38 | when every layer is empty, the table is what `load_defaults` gives for an empty table |
| Rules.BuildFallsBackOnDefaults | file_organizer/organizer/src/rules.py:36-38 | with nothing given, the defaults are used; the built-in rules when there is no default file |
| Rules.BuildRejectsBadRulesFile | file_organizer/organizer/src/rules.py:28-30 | an unusable rules file fails the build: `RuleError`, or the escaping `UnicodeDecodeError` when its bytes are not UTF-8 |
| RuleLoader.NewLoader | file_organizer/organizer/src/rule_manager/rule_loader.py:16-21 | a given, existing default path is used, otherwise the packaged file; the cache starts as an empty dict |
| RuleLoader.ChoosePath | file_organizer/organizer/src/rule_manager/rule_loader.py:26-29 | a given existing custom path is chosen; otherwise the default file |
| RuleLoader.LoadRules | file_organizer/organizer/src/rule_manager/rule_loader.py:23-41 | a filled cache answers without reading; otherwise the chosen file decides: missing or invalid JSON is `PathError`, non-UTF-8 bytes let `UnicodeDecodeError` escape, a non-dict is cached and `RuleError`, a dict is cached and returned |
| RuleLoader.CachedIgnoresPath | file_organizer/organizer/src/rule_manager/rule_loader.py:30-32 | with a filled cache, neither the path nor the disk matters |
| RuleLoader.SecondCallRepeatsFirst | file_organizer/organizer/src/rule_manager/rule_loader.py:30-39 | after a non-empty load, every later call returns the same rules, whatever path it names |
| RuleLoader.EmptyDictNotCached | file_organizer/organizer/src/rule_manager/rule_loader.py:31 | an empty dict does not fill the cache, so the next call reads its own file |
| RuleLoader.NonDictStaysCached | file_organizer/organizer/src/rule_manager/rule_loader.py:35-38 | a truthy non-dict fails with `RuleError` but stays cached and is returned by the next call |
| CachedRuleManager.CombineStep | file_organizer/organizer/src/rule_manager/rule_manager.py:24-25 | merging the defaults only adds keys, and is skipped without combine |
| CachedRuleManager.PathStep | file_organizer/organizer/src/rule_manager/rule_manager.py:27-29 | loading the rules path only adds keys, and is skipped when no path is given |
| CachedRuleManager.FallbackStep | file_organizer/organizer/src/rule_manager/rule_manager.py:34-36 | a non-empty table is kept as it is; an empty one becomes the loader's answer for the default file, un-normalised, or fails with the loader's error |
| CachedRuleManager.Layered | file_organizer/organizer/src/rule_manager/rule_manager.py:21-33 | the layers leave the loader holding a dict in its cache and its default file unchanged |
| CachedRuleManager.EmptyLayersLeaveLoaderFresh | file_organizer/organizer/src/rule_manager/rule_manager.py:21-33 | when the layers leave the table empty, the loader is exactly as the constructor made it |
| CachedRuleManager.EmptyLayersFallBack | file_organizer/organizer/src/rule_manager/rule_manager.py:34-36 | in either variant, empty layers give a fresh loader's answer for the default file, which is that file's dict, raw, when it is one |
| CachedRuleManager.BuildWith | file_organizer/organizer/src/rule_manager/rule_manager.py:17-36 | the only errors are `PathError`, `RuleError` and an escaping `UnicodeDecodeError` |
| CachedRuleManager.BuildAsWritten | file_organizer/organizer/src/rule_manager/rule_manager.py:17-36 | as written, the only errors are `PathError`, `RuleError` and an escaping `UnicodeDecodeError` |
| CachedRuleManager.Build | file_organizer/organizer/src/rule_manager/rule_manager.py:17-36 | with its own loader for the rules path, the only errors are `PathError`, `RuleError` and an escaping `UnicodeDecodeError` |
| CachedRuleManager.AsWrittenKeepsDefault | file_organizer/organizer/src/rule_manager/rule_manager.py:24-29 | defaults `{".png": "Images"}`, rules file `{"png": "Pictures"}`, combine on: as written the table is exactly the defaults |
| CachedRuleManager.CorrectedReadsRulesFile | file_organizer/organizer/src/rule_manager/rule_manager.py:24-29 | the same input, corrected: the table is exactly `{".png": "Pictures"}` |
| CachedRuleManager.RulesFileIgnoredWithCombine | file_organizer/organizer/src/rule_manager/rule_manager.py:24-29 | defaults map `.png` to Images and the rules file maps `png` to Pictures: as written `.png` resolves to Images, corrected to Pictures |
| CachedRuleManager.AsWrittenIgnoresRulesPath | file_organizer/organizer/src/rule_manager/rule_manager.py:24-29 | as written with combine and non-empty defaults, any two rules paths build the same table |
| CachedRuleManager.CombineRaw | file_organizer/organizer/src/rule_manager/rule_manager.py:24-25 | on a fresh loader, `combine` makes the table exactly the default file's dict, raw, which must then be a dict; without it the table stays empty |
| CachedRuleManager.PathStepOwn | file_organizer/organizer/src/rule_manager/rule_manager.py:27-29 | read with a loader of its own, a given rules path resolves to a dict whose normalised pairs go over the table |
| CachedRuleManager.LayeredPrecedence | file_organizer/organizer/src/rule_manager/rule_manager.py:21-33 | corrected: the layers hold exactly the raw defaults, the normalised rules file and the explicit rules, each later one winning |
| CachedRuleManager.BuildPrecedence | file_organizer/organizer/src/rule_manager/rule_manager.py:17-36 | corrected: explicit rules win over the rules file, which wins over the raw defaults; the table holds exactly the keys the layers supply, and only when they supply none is it a fresh loader's answer for the default file |
| CachedRuleManager.DefaultsMergedRaw | file_organizer/organizer/src/rule_manager/rule_manager.py:24-25 | with combine alone, the table is the default file's dict with keys not normalised |
| CachedRuleManager.MissingRulesPathReadsDefaults | file_organizer/organizer/src/rule_manager/rule_loader.py:26-29 | a rules path that does not exist reads the default file in its place, with no error |
| Normalizer.RuleMg | file_organizer/organizer/tools/normalizer.py:27-33 | a string folder becomes lower-case and dotted; anything else raises `AttributeError` |
| Normalizer.RuleMgIdempotent | file_organizer/organizer/tools/normalizer.py:27-33 | applying `rule_mg` twice equals applying it once |
| Normalizer.ConfigMg | file_organizer/organizer/tools/normalizer.py:35-46 | boolean options become booleans, from booleans or `true`/`false` in any case; other strings are `ConfigError`, other types `AttributeError`; other keys pass through |
| Normalizer.ConfigMgIdempotent | file_organizer/organizer/tools/normalizer.py:35-46 | an accepted pair is a fixed point |
| Normalizer.ConfigMgIgnoresCase | file_organizer/organizer/tools/normalizer.py:39-45 | the case of a boolean option's text does not matter |
| Normalizer.LogMgAsWritten | file_organizer/organizer/tools/normalizer.py:48-78 | as written: accepts by returning the handler unchanged; rejects with `ConfigError` |
| Normalizer.LogMgAsWrittenAccepts | file_organizer/organizer/tools/normalizer.py:48-78 | as written, only a console handler without an `enabled` key is accepted: no file handler, no disabled handler |
| Normalizer.FileHandlerRejected | file_organizer/organizer/tools/normalizer.py:58-75 | an enabled file handler with a path is rejected as written and accepted as intended |
| Normalizer.LogMg | file_organizer/organizer/tools/normalizer.py:48-78 | corrected handler check: returns the handler unchanged or `ConfigError`; unknown sinks are rejected |
| Normalizer.LogMgAccepts | file_organizer/organizer/tools/normalizer.py:48-78 | corrected: accepts disabled handlers, enabled handlers with allowed parameters, and an enabled file handler only with a path |
| Normalizer.LogMgExtendsAsWritten | file_organizer/organizer/tools/normalizer.py:48-78 | whatever the written check accepts, the corrected one accepts identically |
| Normalizer.NormalizePair | file_organizer/organizer/tools/normalizer.py:14-24 | as written, `log_mg` included: the key survives normalisation; an unknown manager leaves the pair alone |
| Normalizer.DataNormalizer | file_organizer/organizer/tools/normalizer.py:11-25 | as written: on success, pair i of the result is pair i normalised; on failure, the error is that of the first pair that fails |
| Normalizer.DataNormalizerFails | file_organizer/organizer/tools/normalizer.py:11-25 | normalisation fails exactly when some pair fails |
| Normalizer.RuleMgKeepsKeys | file_organizer/organizer/tools/normalizer.py:15-16 | `rule_mg` keeps keys and turns every value into a dotted lower-case string |
| Normalizer.UnknownManagerIsIdentity | file_organizer/organizer/tools/normalizer.py:13-25 | with an unknown manager name, the data comes back unchanged |
| Normalizer.LogMgNeedsDicts | file_organizer/organizer/tools/normalizer.py:19-21 | a non-dict handler, reached first, fails with `ConfigError` |
| Normalizer.LogHandlersAccepted | file_organizer/organizer/tools/normalizer.py:11-78 | as written, `log_mg` accepts a handler dict exactly when every entry is a console handler dict without `enabled` and with only console parameters |
| Normalizer.NormalizerRejectsEnabledFileHandler | file_organizer/organizer/tools/normalizer.py:11-78 | as written, an enabled file handler with a path stops normalisation with `ConfigError` |
| Loader.ReadDict | file_organizer/organizer/tools/loader.py:38-47 | a file is read exactly when it exists, decodes and holds a dict, and then its pairs come back; missing or invalid JSON is `PathError`, a non-dict `ConfigError`, and non-UTF-8 bytes let `UnicodeDecodeError` escape |
| Loader.LoadFromFile | file_organizer/organizer/tools/loader.py:21-47 | the file read is the custom path whenever one is given, even an empty one, and otherwise the packaged file for the purpose; the call succeeds exactly when that file holds a JSON dict, and then returns that dict; a missing file or invalid JSON is `PathError`, a non-dict is `ConfigError`, and bytes that are not UTF-8 escape as `UnicodeDecodeError` |
| Loader.CustomPathIsBinding | file_organizer/organizer/tools/loader.py:25-28 | a given custom path is never replaced by a packaged file: the result and any error are that file's |
| Loader.PurposeIrrelevantWithCustomPath | file_organizer/organizer/tools/loader.py:25-37 | with a custom path, which purpose is named does not matter |
| Loader.PackagedFileByPurpose | file_organizer/organizer/tools/loader.py:29-37 | without one, styles, rules and config read their own packaged files, and anything else reads the config file |
| ToolsRuleManager.NormalizeLayer | file_organizer/organizer/src/rule_manager.py:30-34 | as written, `rule_mg` keeps every key and dots each folder, failing with `AttributeError` exactly when some folder is not a string; corrected, every key is normalised and every folder kept, and it never fails |
| ToolsRuleManager.DottedValuesMap | file_organizer/organizer/src/rule_manager.py:33-35 | a dict and its copy with every folder dotted map each key to the original folder and its dotted form |
| ToolsRuleManager.CombineLayer | file_organizer/organizer/src/rule_manager.py:25-26 | with `combine` the packaged rules are merged raw, and fail exactly when loading them does; without it the layer is empty |
| ToolsRuleManager.PathLayer | file_organizer/organizer/src/rule_manager.py:28-31 | a given rules path succeeds exactly when it loads and normalises; its normalised pairs go over the table |
| ToolsRuleManager.ExplicitStep | file_organizer/organizer/src/rule_manager.py:33-35 | the explicit rules succeed exactly when they normalise, and then go over the table; the only error is `AttributeError` |
| ToolsRuleManager.Layered | file_organizer/organizer/src/rule_manager.py:21-35 | the layers fail only with `PathError`, `ConfigError`, `AttributeError` or an escaping `UnicodeDecodeError` |
| ToolsRuleManager.LayeredPrecedence | file_organizer/organizer/src/rule_manager.py:21-35 | in both variants the layers hold exactly the keys they supply: explicit over rules path over raw packaged rules |
| ToolsRuleManager.BuildWith | file_organizer/organizer/src/rule_manager.py:17-38 | the constructor fails only with `PathError`, `ConfigError`, `AttributeError` or an escaping `UnicodeDecodeError`, and never with `AttributeError` when keys are normalised |
| ToolsRuleManager.BuildAsWritten | file_organizer/organizer/src/rule_manager.py:17-38 | as written, a successful construction had only string folders among its explicit rules |
| ToolsRuleManager.Build | file_organizer/organizer/src/rule_manager.py:17-38 | corrected: fails only with `PathError`, `ConfigError` or an escaping `UnicodeDecodeError`, and every explicit rule is found under its normalised key |
| ToolsRuleManager.DefaultsMergedRaw | file_organizer/organizer/src/rule_manager.py:25-26 | with `combine` alone, either variant holds the packaged rules exactly as decoded, keys not normalised |
| ToolsRuleManager.AsWrittenStoresDottedValues | file_organizer/organizer/src/rule_manager.py:33-35 | as written, every explicit rule is stored under its key as given and maps to `rule_mg` of its folder, a dotted string instead of the folder |
| ToolsRuleManager.AsWrittenRejectsNonStringFolders | file_organizer/organizer/src/rule_manager.py:33-34 | as written, an explicit rule whose folder is not a string fails with `AttributeError` |
| ToolsRuleManager.ValuesNormalisedInsteadOfKeys | file_organizer/organizer/src/rule_manager.py:28-43 | rule `png -> Images`: as written `.png` resolves to `Others`; corrected to `Images` |
| ToolsRuleManager.BuildPrecedence | file_organizer/organizer/src/rule_manager.py:17-38 | as written and corrected: explicit rules win over the rules path, which wins over the raw packaged rules; the table holds exactly the keys the layers supply, and only when they supply none is it the packaged rules as decoded |
| ToolsRuleManager.MissingRulesPathFails | file_organizer/organizer/src/rule_manager.py:28-29 | a rules path that does not exist is a `PathError`, as written and corrected |
| Configs.NormalizeDict | file_organizer/organizer/src/configs.py:35-44 | accepted exactly when every boolean option holds a boolean, and then returned as decoded; otherwise `ConfigError` |
| Configs.LoadFromFile | file_organizer/organizer/src/configs.py:46-60 | succeeds exactly when the slot is set and the file decodes to a dict with boolean options boolean; the file's entries then win; failures are `ConfigError`, `AttributeError` for an unset slot, or an escaping `UnicodeDecodeError` exactly when the bytes are not UTF-8 |
| Configs.LoadDefaults | file_organizer/organizer/src/configs.py:62-87 | succeeds exactly when the slot is set and, if the defaults file exists, that file holds a dict whose boolean options are booleans; the defaults file when it exists, otherwise the built-in settings; every key already set survives, boolean options stay boolean, and any failure is `ConfigError`, `AttributeError` or `UnicodeDecodeError` |
| Configs.InitWith | file_organizer/organizer/src/configs.py:15-26 | a successful construction started from a set slot and keeps its keys; the user file, when given, is a dict whose entries win; failures are `ConfigError`, `AttributeError` or an escaping `UnicodeDecodeError` |
| Configs.InitAsWritten | file_organizer/organizer/src/configs.py:15-26 | as written, construction never succeeds |
| Configs.Init | file_organizer/organizer/src/configs.py:15-26 | corrected: the settings keep boolean options boolean; failures are `ConfigError` or an escaping `UnicodeDecodeError` |
| Configs.InitAsWrittenNeverSucceeds | file_organizer/organizer/src/configs.py:15-26 | as written, construction always fails, with `ConfigError`, `AttributeError` or an escaping `UnicodeDecodeError` |
| Configs.InitBuiltin | file_organizer/organizer/src/configs.py:73-87 | corrected: no defaults file and no user file give exactly the ten built-in settings |
| Configs.InitErrors | file_organizer/organizer/src/configs.py:15-60 | corrected: succeeds exactly when each file read exists, decodes to a dict and has boolean options boolean; fails with `ConfigError`, or with an escaping `UnicodeDecodeError` only when one of the files is not UTF-8 |
| Configs.BuiltinBooleans | file_organizer/organizer/src/configs.py:74-87 | the built-in boolean options are booleans |
| Configs.DefaultsBooleans | file_organizer/organizer/src/configs.py:62-87 | whatever the defaults step yields has boolean options boolean |
| Configs.InitPrecedence | file_organizer/organizer/src/configs.py:15-26 | corrected: user entries win, defaults fill the rest, booleans stay booleans |
| ConfigManager.Layers | file_organizer/organizer/src/config_manager.py:27-38 | layering fails only with `PathError`, `ConfigError`, `AttributeError` or an escaping `UnicodeDecodeError` |
| ConfigManager.InitWith | file_organizer/organizer/src/config_manager.py:17-44 | a constructed manager has a set `source` and a `rules` entry, and a non-null `rules` value passed the rules check |
| ConfigManager.InitAsWritten | file_organizer/organizer/src/config_manager.py:17-63 | as written, a constructed manager has a set `source`, a `rules` entry, and non-null rules that are text parsing to a dict |
| ConfigManager.Init | file_organizer/organizer/src/config_manager.py:17-63 | corrected: the same guarantees, and once the layers succeed every failure is `ConfigError` or `KeyError` |
| ConfigManager.UnparsableRulesEscape | file_organizer/organizer/src/config_manager.py:56-63 | rules text that does not parse raises the parser's exception as written, and `ConfigError` corrected |
| ConfigManager.ArgRulesAgree | file_organizer/organizer/src/config_manager.py:56-63 | both rules checks accept the same values and agree on every parsed value |
| ConfigManager.InitDiffersOnlyOnParse | file_organizer/organizer/src/config_manager.py:17-63 | written and corrected constructors succeed together and differ only where the rules text does not parse |
| ConfigManager.LayersPrecedence | file_organizer/organizer/src/config_manager.py:27-38 | arguments (except `config`, which is dropped) win over the user file, which wins over the packaged config |
| ConfigManager.FileBooleansNormalised | file_organizer/organizer/src/config_manager.py:30-33 | boolean options read from the user file end up booleans |
| ConfigManager.ConfigMgBooleans | file_organizer/organizer/tools/normalizer.py:11-25 | normalising a whole dict with `config_mg` keeps every key, and every boolean option in it ends up a boolean |
| ConfigManager.SourceChecker | file_organizer/organizer/src/config_manager.py:51-54 | accepted exactly when `source` is present and set; a missing key is `KeyError`, an unset one `ConfigError` |
| ConfigManager.ArgRules | file_organizer/organizer/src/config_manager.py:56-63 | corrected: accepted exactly when the value is text that parses to a dict; otherwise `ConfigError` |
| ConfigManager.ArgRulesAsWritten | file_organizer/organizer/src/config_manager.py:56-63 | as written: accepted exactly when the value is text that parses to a dict; non-text is `ValueError`, a parse failure escapes as the parser's exception, a non-dict is `ConfigError` |
| Validator.ConsoleAsWritten | file_organizer/organizer/src/validator.py:15-19 | as written, the console check fails only with `ConfigError` or `AttributeError` |
| Validator.FileAsWritten | file_organizer/organizer/src/validator.py:21-38 | as written, the file check fails only with `ConfigError` or `AttributeError` |
| Validator.SectionCheck | file_organizer/organizer/src/validator.py:15-38 | corrected: a section passes exactly when it is a dict the corrected handler check accepts |
| Validator.ValidateWith | file_organizer/organizer/src/validator.py:11-40 | the configuration comes back unchanged; a failing console section decides the error; a failing file section fails the whole; every error comes from one of the two checks |
| Validator.ValidateAsWritten | file_organizer/organizer/src/validator.py:11-40 | as written: the configuration comes back unchanged; errors are `ConfigError` or `AttributeError`; every enabled file section is rejected |
| Validator.Validate | file_organizer/organizer/src/validator.py:11-40 | corrected: unchanged on success, with the same error kinds; accepted exactly when each present section is a dict the corrected handler check accepts |
| Validator.ValidateAsWrittenAccepts | file_organizer/organizer/src/validator.py:11-40 | as written, accepted exactly when the console is disabled or uses only console parameters and the file sink is disabled: every enabled file sink is rejected |
| Validator.ValidateAccepts | file_organizer/organizer/src/validator.py:11-40 | corrected: accepted exactly when each present section is a dict the corrected handler check accepts |
| Validator.ValidateExtendsAsWritten | file_organizer/organizer/src/validator.py:11-40 | whatever the written validator accepts, the corrected one accepts identically |
| Validator.EnabledFileLoggerRejected | file_organizer/organizer/src/validator.py:21-38 | an enabled file logger with a path is rejected as written and accepted corrected |

## Left out

- Logging and the final log lines of both engines: only the counters they print are modelled.
- Symbolic links, permissions on listing a directory, and directories that cannot be read: `iterdir` and `rglob` raising are not modelled.
- The destination's resolution (`Path.resolve`, the working directory): the destination is given as a component path.
- Real Unicode case folding: `str.lower()` is modelled on ASCII letters only.
- Floating-point JSON values: `Value` has integers only.
- The order in which the traversal yields entries: it is a parameter, and every count is proved for every order.
- Python dicts with repeated keys: a dict from outside is a sequence of pairs where the last pair wins a lookup, but `data_normalizer` still visits every pair, even those a Python dict would have collapsed.
- The style loader, the loggers, `LogManager` and the command-line front ends: they are callers of the core, not part of it.
- `ast.literal_eval`: it is a parameter, returning a value or the name of the exception it raises.
- The packaged files' paths, including the misspelled `deafult_configs.json` in `src/configs.py`: they are parameters, so whether that file exists is left open.
- Planner.Walk: the traversal is a snapshot, while `rglob` is lazy. With the destination inside the source, a recursive real run may yield a file it already moved. For example, `/s/a.png` moved to `/s/Images/a.png` can be yielded again and counted as skipped, giving moved 1 and skipped 1 for one file; the model counts it once.
- Organizer.Organize: its counts inherit the snapshot traversal of `Planner.Walk`, so they do not include files that the lazy `rglob` re-yields after a move (the example above).
- Paths.JoinStr: a rule folder is split into components lexically, so `..` and `.` stay as components instead of being resolved. A rule such as `../x` is modelled as a folder literally named `..` under the destination.
- Whole-run idempotence: a second organize run leaving the tree unchanged is not proved. Only the per-file form is proved, by `Planner.SecondRunSkipsMovedFile`, and it needs the file name to have a suffix. A name ending in a dot can gain a suffix from its collision counter (`Paths.TrailingDotCandidateGainsSuffix`), and such a file may then be routed elsewhere by a second run.
- A `Path` argument given as an empty string: the engines and `src/configs.py` treat any given path as given, as a `Path` object is always true.
- Reaper.ReapLevels: `_rm_empty_dirs` catches only `PermissionError` (`src/core.py:166`, `core.py:147`). Any other `rmdir` failure, such as a read-only file system or a busy directory, escapes `organize`. In the model the only refusal is a directory in `locked`, so the pass cannot fail.
- Planner.HandleFails: `_process_file` counts any exception from `mkdir` or `move` as an error (`src/core.py:141-143`). The model's only such failure is a regular file blocking the destination path. Failures from the operating system, such as missing permissions or a full disk, are not modelled, so "fails exactly when a file blocks the path" holds only within that abstraction.
- `organizer/rules.py`: the older engine imports its `RuleManager` from there (`core.py:5`), and that file is not part of this model. `LegacyOrganizer` looks folders up through the `src/rules.py` table, via `Planner.FolderOf` and `RuleTable.GetFolder`.

## Findings

| source | as written | input that shows it | evidently intended | confidence | as-written member | corrected member |
|---|---|---|---|---|---|---|
| file_organizer/organizer/core.py:140-146 | a real run removes empty directories without ever incrementing `removed`; a dry run `return`s after the first empty directory | two empty folders `a`, `b` under the source | count every removal, and `continue` in dry run as `src/core.py` does | high, not executed | LegacyOrganizer.ReapAsWrittenUndercounts | LegacyOrganizer.ReapCounted |
| file_organizer/organizer/src/rule_manager/rule_manager.py:24-29 | the single `RuleLoader` caches the defaults loaded for `combine`, so the rules path is answered from the cache | defaults `{".png": "Images"}`, rules file `{"png": "Pictures"}`, combine on | the rules file overrides the defaults ("user rules always priority higher") | high, not executed | CachedRuleManager.RulesFileIgnoredWithCombine | CachedRuleManager.BuildPrecedence |
| file_organizer/organizer/src/rule_manager.py:30-34 | `rule_mg` normalises the folder values and leaves the extension keys as given | rules `{"png": "Images"}` | keys normalised as by the other rule managers, so `.png` goes to `Images` | high, not executed | ToolsRuleManager.ValuesNormalisedInsteadOfKeys | ToolsRuleManager.Build |
| file_organizer/organizer/tools/normalizer.py:52-77 | `enabled` is not an accepted parameter, and a disabled handler falls through to the rejection | handler `file: {"enabled": true, "path": "log.txt"}` | accept `enabled`, let disabled handlers through, require a path for an enabled file handler | high, not executed | Normalizer.FileHandlerRejected | Normalizer.LogMgAccepts |
| file_organizer/organizer/src/validator.py:22-38 | an enabled file section always carries `enabled`, which is not an accepted parameter; and the path test is inverted | `{"file": {"enabled": true, "path": "log.txt"}}` | accept `enabled`, reject an enabled file sink without a path | high, not executed | Validator.EnabledFileLoggerRejected | Validator.ValidateAccepts |
| file_organizer/organizer/src/config_manager.py:56-63 | `literal_eval` runs before the `try`, so its `SyntaxError`/`ValueError` escape | rules argument `"{png"` | report malformed rules as `ConfigError` | high, not executed | ConfigManager.UnparsableRulesEscape | ConfigManager.InitDiffersOnlyOnParse |
| file_organizer/organizer/src/configs.py:15-26 | `__configs` is declared in `__slots__` but never assigned before its first `update` | any call, e.g. no defaults file and no user file | start from an empty dict | high, not executed | Configs.InitAsWrittenNeverSucceeds | Configs.InitBuiltin |
