# python-cli-bootstrap: command discovery, packaging filter and plugin scaffolders, in Dafny

The command-line tool `your-cli` finds its commands on disk. The commands directory holds one
directory per command group. Inside each group, one directory per subcommand holds an
`entry.py` that exports a click command `cli` and a `meta.yaml` descriptor whose `shortHelp`
is a non-blank string. This project models four parts of the repository:

- **Discovery and lazy loading** (`src/your_cli/loader.py`, modules `Loader`, `Tree`,
  `Ordering`):
  - the walk over the commands directory in sorted order;
  - the checks on each subcommand directory, which collect every problem and fail once with
    a message that lists them all;
  - loading one subcommand's command from its descriptor and its imported module;
  - the root command, which lists and resolves names over what discovery found, with the
    built-in `dev` group taking precedence.
- **The packaging filter** (`scripts/filter_commands.py`, module `Packaging`): the scan that
  decides which command directories a build leaves out. A top-level group whose `meta.yaml`
  exists and does not say `packaged: true` is left out whole; a group without one is scanned.
  Below a group only directories holding both `entry.py` and `meta.yaml` count: such a
  directory is left out when its descriptor does not say `packaged: true`, and otherwise the
  scan descends into it, to a fixed depth. The scan does not look inside what it excludes.
- **`dev new-plugin`** (`src/your_cli/dev.py`, modules `Dev`, `Scaffolding`) and
  **`admin new-command`** (`src/your_cli/commands/admin/new_command/entry.py`, module
  `NewCommand`): the scaffolders that write a new plugin's `meta.yaml` and stub `entry.py`.
  Each works in three steps:
  - guards, in the source's order: the name rule `^[A-Za-z0-9_-]+$` (`Scaffolding.ValidName`),
    containment in the commands directory, and refusal to overwrite without `--force`;
  - a plan of `mkdir`/`write_text` calls;
  - that plan carried out on a filesystem value (`Scaffolding.Execute`), which can fail part
    way as the real calls can.
- **How these parts meet** (module `Interplay`): what discovery and packaging make of the
  descriptors the scaffolders write.

Directory listings are sequences in arbitrary order. The model sorts them as Python's `sorted`
does (`Ordering.SortBy`, proved sorted and a permutation). YAML parsing is abstract: a file
reads as `Unloadable`, `NonMapping` or `Mapping(fields)`.

Two behaviours of the code are easy to miss, and the model follows the code:

- `discover_specs` does not skip hidden (`.x`) or dunder (`__x`) directories; only the
  packaging filter skips them.
- `dev new-plugin` writes into the package's own commands directory, `Metadata.COMMANDS_DIR`.
  It ignores the `YOUR_CLI_COMMANDS_DIR` override that `admin new-command` honours. In the
  model the commands directory is a parameter of both.

Some consequences the proofs make explicit:

- A discovered group called `dev` is listed twice but can never be reached
  (`Loader.DevGroupShadowed`).
- `new-command` writes descriptors with `HelpSummary` and no `shortHelp`. Discovery therefore
  rejects every subcommand directory it creates (`Interplay.NewCommandNotDiscovered`). When
  the help is plain (it holds no `": "`), packaging keeps them (`Interplay.ScaffoldedPackaging`).
- Every placeholder help (`TODO: describe …`) contains `": "`. On the descriptor line
  `shortHelp: TODO: describe …` that is a second mapping value, which a YAML loader refuses
  (`Interplay.PlaceholdersHoldColonSpace`); this is a fact about the text written, since the
  model does not parse YAML. A descriptor that cannot be read is reported by
  discovery and never packaged (`Interplay.UnreadableDescriptor`).

## Model

| member | source | states |
|---|---|---|
| Ordering.SortByFacts | src/your_cli/loader.py:46-49 | `sorted(...)` of a listing: the result is ordered by name under Python's string order and is a permutation of its input (same multiset, same length) |
| Ordering.SortedSet | src/your_cli/loader.py:107 | `sorted` of the keys of a dict: ordered, each key exactly once, nothing else |
| Tree.Dirs | src/your_cli/loader.py:46 | `p for p in iterdir() if p.is_dir()`: exactly the directory entries of the listing |
| Loader.SafeName | src/your_cli/loader.py:23-24 | every `_` becomes `-` and nothing else changes; the length is kept and no `_` remains |
| Loader.LoadMeta | src/your_cli/loader.py:27-37 | accepts exactly a mapping whose `shortHelp` is a string with a non-whitespace character, and returns that mapping unchanged; otherwise the error is "unparsable", "expected mapping" or "shortHelp must be a non-empty string", matching what failed |
| Loader.CheckPlugin | src/your_cli/loader.py:52-74 | a subcommand directory yields a spec exactly when it holds `entry.py` and `meta.yaml` as regular files and `load_meta` accepts the descriptor |
| Loader.MissingFilesReported | src/your_cli/loader.py:54-61 | a directory lacking a file yields one error `group/sub: missing …`, naming `entry.py` before `meta.yaml`, joined by ", " |
| Loader.ReportListsEveryError | src/your_cli/loader.py:76-78 | the raised message contains `- <error>` for every problem collected |
| Loader.CheckPluginDir | src/your_cli/loader.py:47-74 | the per-directory body of the loop computes exactly `CheckPlugin` |
| Loader.WalkGroupDir | src/your_cli/loader.py:49-74 | the inner loop over one group's sorted subdirectories records errors and specs exactly as `WalkPlugins` |
| Loader.Discover | src/your_cli/loader.py:40-79 | `discover_specs` equals `DiscoverSpecs`; a commands directory that does not exist gives no specs and no error |
| Loader.DiscoverReportsEachBrokenPlugin | src/your_cli/loader.py:59-78 | discovery fails exactly when some subcommand directory is broken, and then the number of problems it reports is the number of broken directories (problems are collected, not reported one at a time) |
| Loader.DiscoverListsBrokenPlugins | src/your_cli/loader.py:59-78 | when discovery fails, its list holds the error of every broken subcommand directory of every group directory, and no other error |
| Loader.DiscoverOkIffAllValid | src/your_cli/loader.py:40-79 | discovery succeeds exactly when every subcommand directory of every group directory is valid |
| Loader.DiscoverSpecsSound | src/your_cli/loader.py:67-74 | every spec returned is filed under its own display names and is backed by a valid directory with those import names and with the recorded `entry.py` and `meta.yaml` paths; every group in the table has at least one subcommand |
| Loader.DiscoverSpecsComplete | src/your_cli/loader.py:46-74 | after a successful discovery every subcommand directory is listed under `SafeName(group)` / `SafeName(sub)` |
| Loader.LoadClickCommand | src/your_cli/loader.py:82-98 | the error is the descriptor's when it is invalid; otherwise "failed to import" (with or without detail) or "must export 'cli'", per the import outcome. On success the exported command is returned with both help fields set to the descriptor's non-blank `shortHelp`; on failure it is untouched |
| Loader.LazySubGroup.ListCommands | src/your_cli/loader.py:106-107 | the subcommand names, sorted, each once |
| Loader.LazySubGroup.GetCommand | src/your_cli/loader.py:109-113 | an unknown name gives nothing; a known one never gives nothing: it gives the imported `cli` with `short_help` and `help` set to the descriptor's `shortHelp`, or the descriptor's error, or "failed to import" with the spec's `entry.py` path (with the import's detail when the module raised), or "must export 'cli'". The command keeps its name, and it is left untouched unless it is returned |
| Loader.SubGroupListsItsSpecs | src/your_cli/loader.py:106-113 | a lazy group lists exactly the names it can load |
| Loader.NewRootCommand | src/your_cli/loader.py:116-121 | construction succeeds exactly when discovery does, keeps the directory and the `dev` group, and carries discovery's specs or its error |
| Loader.RootCommand.ListCommands | src/your_cli/loader.py:123-125 | the sorted group names plus "dev" (as a multiset: the groups and one more "dev") |
| Loader.RootCommand.GetCommand | src/your_cli/loader.py:127-133 | "dev" is always the built-in group; any other name resolves exactly when discovered, and then always to the lazy group over that name and its specs |
| Loader.RootListsWhatResolves | src/your_cli/loader.py:123-133 | a name is listed exactly when it resolves |
| Loader.DevGroupShadowed | src/your_cli/loader.py:123-133 | a discovered group called "dev" is listed twice and still resolves to the built-in group |
| Loader.DiscoveredPluginReachable | src/your_cli/loader.py:116-133 | after a successful discovery every subcommand directory can be reached from the root under its display names, unless its group's display name is "dev" |
| Packaging.LenientMeta | scripts/filter_commands.py:20-28 | the script's own `load_meta`: a readable mapping in `meta.yaml` is returned as read; a missing, unreadable or non-mapping descriptor gives `{}` |
| Packaging.NotPackagedByDefault | scripts/filter_commands.py:31-37 | a directory is packaged exactly when its `meta.yaml` is a readable mapping whose `packaged` is the boolean `true`. A missing, unreadable or non-mapping descriptor, a missing key or any other value leaves it out |
| Packaging.ScanSubcommands | scripts/filter_commands.py:67-93 | `scan_subcommands` computes exactly `Scan`: entries visited in name order, each one reported or descended into |
| Packaging.FindCommandsToExclude | scripts/filter_commands.py:40-64 | `find_commands_to_exclude` computes exactly `Exclusions`; a commands directory that does not exist excludes nothing |
| Packaging.ScanIff | scripts/filter_commands.py:67-93 | a scan reports path `p` exactly when `p` lies below the scanned directory and `ReportedUnder` holds for its relative part within the remaining depth |
| Packaging.ExclusionsIff | scripts/filter_commands.py:40-93 | the excluded paths are exactly the commands-directory paths `ExcludedRel` describes: an opted-out visible group itself, or a chain of visible, packaged plugin directories ending at one that is not packaged |
| Packaging.ReportedDepth | scripts/filter_commands.py:67-70 | a scan with `budget` levels to go reports nothing deeper than `budget` levels |
| Packaging.ReportedVisible | scripts/filter_commands.py:74-78 | no reported path passes through or ends at a name starting with "." or "__" |
| Packaging.ReportedAntichain | scripts/filter_commands.py:84-91 | in a well-formed tree no reported path lies strictly below another: the scan does not look inside what it excludes |
| Packaging.ExcludedShape | scripts/filter_commands.py:40-93 | every excluded path is 1 to `MaxDepth + 1` (6) levels below the commands directory, with no hidden segment |
| Packaging.ExcludedAntichain | scripts/filter_commands.py:54-91 | no excluded path lies strictly inside another |
| Packaging.OptedOutGroupExcludedWhole | scripts/filter_commands.py:54-59 | a visible group whose descriptor exists and does not ask to be packaged is excluded itself, and nothing inside it is |
| Scaffolding.ValidNameIsPlainSegment | src/your_cli/dev.py:11 | a name that passes `VALID_NAME.match` has no "/" and no ".", and is not empty, "." or ".." |
| Scaffolding.ValidNameExamples | src/your_cli/dev.py:11 | "bad!name", "", "..", "a/b" fail the rule; "compute" and "my_cmd-2" pass; one trailing newline passes (Python's `$`), two do not |
| Scaffolding.Resolve | src/your_cli/dev.py:32-33 | lexical `resolve()` leaves no empty, "." or ".." segment |
| Scaffolding.JoinValidName | src/your_cli/dev.py:30 | `base / name` for a valid name appends exactly that one segment |
| Scaffolding.ResolveResolved | src/your_cli/dev.py:32-33 | resolving is idempotent |
| Scaffolding.ValidNamesStayWithin | src/your_cli/dev.py:30-36 | for valid names, `commands/a/b` resolves to the resolved commands directory plus `[a, b]`, so the containment guard never fires |
| Scaffolding.ValidNameStaysWithin | src/your_cli/commands/admin/new_command/entry.py:61-66 | the same for the single name of a standalone command |
| Scaffolding.ParentTokenEscapes | src/your_cli/dev.py:31-36 | without the name rule the guard would matter: `..` leads out of any non-root commands directory |
| Scaffolding.MakeDirs | src/your_cli/dev.py:43 | `mkdir(parents=True, exist_ok=True)` fails exactly when the path or an ancestor is a regular file (the error names the topmost such file, a choice of the model: Python's exception names the path); otherwise it adds the path and every ancestor to the directories |
| Scaffolding.WriteText | src/your_cli/dev.py:50-51 | `write_text` fails exactly on a directory; otherwise it sets that one file's text and changes nothing else |
| Scaffolding.ExecuteOutcome | src/your_cli/dev.py:43-54 | past the guards a run never aborts. It finishes exactly when no file blocks a directory it creates and no directory blocks a file it writes. A finished run has created every planned directory with its ancestors, applied the writes in order and echoed the planned paths |
| Scaffolding.CarryAborts | src/your_cli/dev.py:57-59 | a run aborts (status 2, message to stderr) exactly when its guards refuse, for the guard's reason, before any change |
| Scaffolding.CreateFiles | src/your_cli/dev.py:43-54 | the shared tail (mkdir, `meta.yaml`, stub `entry.py`, echo both) does exactly what executing its plan does, stopping at the first failing call |
| Scaffolding.ThenParent | src/your_cli/commands/admin/new_command/entry.py:108-121 | creating the group directory after the subcommand's adds no directory and no failure |
| Dev.NewPlugin | src/your_cli/dev.py:24-54 | `new_plugin` does exactly `PluginRun`: its guards in order, then its plan |
| Dev.PluginDecisionOfValidNames | src/your_cli/dev.py:26-49 | with valid names the run is refused only for an existing `entry.py`/`meta.yaml` without `--force`; otherwise it plans `commands/c/s` with descriptor and stub |
| Dev.PluginRefusals | src/your_cli/dev.py:26-41 | refused exactly for an invalid command or subcommand name, or, without `--force`, an existing `entry.py` or `meta.yaml` |
| Dev.PluginRefusalReasons | src/your_cli/dev.py:26-41 | the command name is checked first, then the subcommand name; any other refusal is "Plugin already exists" |
| Dev.PluginRunWrites | src/your_cli/dev.py:43-54 | a finished run wrote `shortHelp: <help>\n` and the stub, left every other file as it was, created the target and its ancestors, and echoed the `meta.yaml` path then the `entry.py` path |
| Dev.PluginRunNeverOverwrites | src/your_cli/dev.py:40-41 | without `--force` a finished run wrote only files that did not exist |
| Dev.PluginRunRaises | src/your_cli/dev.py:43-51 | past the guards a run fails in the filesystem exactly when a file stands on the target's path, or, with `--force`, a directory stands where a file goes |
| Dev.PluginHelpChoice | src/your_cli/dev.py:44 | the help `new-plugin` writes is never empty |
| NewCommand.NewCommand | src/your_cli/commands/admin/new_command/entry.py:31-128 | `cli` does exactly `CommandRun`: legacy help folded in, then the command name checked, then the standalone or subcommand branch |
| NewCommand.CreateStandalone | src/your_cli/commands/admin/new_command/entry.py:56-87 | the standalone branch does exactly what its guards and plan prescribe |
| NewCommand.CreateSubcommand | src/your_cli/commands/admin/new_command/entry.py:89-128 | the subcommand branch does exactly what its guards and plan prescribe |
| NewCommand.CreateGroupFiles | src/your_cli/commands/admin/new_command/entry.py:108-128 | two mkdirs, three writes and three echoes do exactly what executing that plan does |
| NewCommand.SubcommandHelpChoice | src/your_cli/commands/admin/new_command/entry.py:44-46 | the subcommand help is `--subcommand-short-help` if given, else the legacy `--short-help` if given, else `TODO: describe c s.`; never empty |
| NewCommand.StandaloneOfValidName | src/your_cli/commands/admin/new_command/entry.py:61-80 | with a valid name and a help the standalone run is refused only for existing files without `--force`; otherwise it plans `commands/c` with descriptor and stub |
| NewCommand.SubcommandOfValidNames | src/your_cli/commands/admin/new_command/entry.py:93-119 | with valid names the run is refused only for an existing file among the three without `--force`; otherwise it plans both directories and the three files |
| NewCommand.StandaloneAborts | src/your_cli/commands/admin/new_command/entry.py:48-72 | a standalone run is refused exactly for an invalid name, a missing `--command-short-help` (an empty one passes) or existing files without `--force`, with the matching reason: `InvalidName("command", …)` for the name, then "missing help", then "already exists" |
| NewCommand.SubcommandAborts | src/your_cli/commands/admin/new_command/entry.py:48-106 | a run with a subcommand is refused exactly for an invalid name (command first) or, without `--force`, an existing subcommand `entry.py`/`meta.yaml` or group `meta.yaml`, with the matching reason |
| NewCommand.StandaloneWrites | src/your_cli/commands/admin/new_command/entry.py:74-86 | a finished standalone run wrote the descriptor with exactly the given help and the stub, nothing else, created `commands/c` and its ancestors, and echoed both paths; without `--force` neither existed |
| NewCommand.SubcommandWrites | src/your_cli/commands/admin/new_command/entry.py:108-128 | a finished run wrote the group descriptor, the subcommand descriptor and the stub, nothing else, created the target and its ancestors, and echoed the three paths in order; without `--force` none existed |
| Interplay.PluginReadingAccepted | src/your_cli/loader.py:34-36 | the one-key `shortHelp` reading passes `load_meta` exactly when the help is not blank |
| Interplay.PluginHelpBlank | src/your_cli/dev.py:44 | `new-plugin`'s help is blank exactly when `--short-help` was given as non-empty whitespace |
| Interplay.NewPluginDiscovered | src/your_cli/loader.py:52-74 | a directory whose descriptor reads as `new-plugin` writes it is discovered exactly when the help is not blank, under its display names; otherwise discovery reports it as invalid |
| Interplay.PlaceholdersHoldColonSpace | src/your_cli/dev.py:44-46 | every placeholder help of both scaffolders contains ": " |
| Interplay.UnreadableDescriptor | src/your_cli/loader.py:28-31 | a descriptor that cannot be read is reported by discovery with the parser's detail, and its directory is not packaged |
| Interplay.CommandReadingRefused | src/your_cli/commands/admin/new_command/entry.py:113-116 | the `new-command` descriptor, read as written, never passes `load_meta` (it has no `shortHelp`) |
| Interplay.NewCommandNotDiscovered | src/your_cli/loader.py:62-66 | a subcommand directory as `new-command` writes it is always reported as invalid by discovery |
| Interplay.ScaffoldedPackaging | scripts/filter_commands.py:31-37 | a directory with `new-command`'s descriptor is packaged; one with `new-plugin`'s is not |

## Left out

- YAML parsing: a descriptor is given already read, as `Unloadable(detail)`, `NonMapping` or `Mapping(fields)`. The readings of the written descriptors (`Interplay.PluginReading`, `Interplay.CommandReading`) are the mappings a YAML loader gives for a plain one-line help. Which help texts are plain is not modelled; only the `": "` in the placeholders is.
- Importing `entry.py` (`importlib` spec, module execution, the `cli` attribute) is a parameter of `Loader.LoadClickCommand`, `Import`. The descriptor re-read at load time is its `doc` parameter.
- click itself: parsing arguments and options, contexts, printing help, invoking commands. Only the fields `load_click_command` sets (`short_help`, `help`) are modelled, on `Loader.ClickCommand`.
- Output: what the scaffolders echo is the `echoed` path list, and what they print before exiting with status 2 is `Scaffolding.Message` of the abort `Reason`. The warning the packaging filter prints for an unreadable descriptor is left out.
- The filesystem is a value. It holds `Tree.Node` trees for discovery and packaging, and a map of files plus a set of directories for the scaffolders. Symbolic links, permissions and concurrent changes are not modelled, and `Path.resolve()` is lexical (`Scaffolding.Resolve`).
- The two filesystem views are not derived from each other. The interplay lemmas state what the tree holds after a scaffolder ran as their hypothesis (`Interplay.Scaffolded`).
- Paths are sequences of segments. The commands directory is taken as given, already resolved, as `Metadata.COMMANDS_DIR` is. `_commands_dir` in `new_command` (the `YOUR_CLI_COMMANDS_DIR` override, or three levels above the module) is not modelled: the directory is a parameter.
- `iterdir` failing on a group entry is not modelled: the walk over a group reads its listing as given.
- Loader.DiscoverSpecs, Packaging.Exclusions: the commands directory is either absent (`None`) or a listing. A commands path that exists as a regular file passes the `exists()` test and then makes `iterdir()` raise `NotADirectoryError`; that exception path is not modelled.
- The rest of `scripts/filter_commands.py` is not modelled: `create_backup_dir`, `move_excluded_commands`, `restore_excluded_commands` and `main`. They move directories and print; the model covers which directories are chosen.
- `src/your_cli/main.py`, `src/your_cli/utils/metadata.py`, `src/hello-world.py` and the sample commands are not part of this model.
- Tree well-formedness (no two entries of a listing share a name) is assumed where needed (`Tree.WellFormed`), as every real filesystem guarantees.
- Scaffolding.ExecuteOutcome: states when a run raises, but not the partial filesystem a raising run leaves behind (the directories and files created before the failing call). `Scaffolding.Execute` computes that state; no lemma characterises it.
