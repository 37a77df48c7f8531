/**
 * `dev new-plugin COMMAND SUBCOMMAND [--short-help TEXT] [--force]` (src/your_cli/dev.py):
 * check both names, keep the target inside the commands directory, refuse to overwrite
 * unless forced, then write `meta.yaml` and the stub `entry.py` and echo both paths.
 */
module Dev {
  import opened Base
  import opened Tree
  import opened Scaffolding

  /** `short_help or f"TODO: describe {command} {subcommand}."`: an empty help counts as none. */
  function PluginHelp(command: string, subcommand: string, shortHelp: Option<string>): string
  {
    if shortHelp.Some? && shortHelp.value != "" then shortHelp.value
    else "TODO: describe " + command + " " + subcommand + "."
  }

  /** The descriptor `new-plugin` writes. */
  function PluginDescriptor(help: string): string
  {
    "shortHelp: " + help + "\n"
  }

  /** `commands_dir / command / subcommand`. */
  function PluginDir(commandsDir: Path, command: string, subcommand: string): Path
  {
    Join(Join(commandsDir, command), subcommand)
  }

  /**
   * The guards of `new-plugin`, in order, and the plan they let through: create the target and
   * its parents, write `meta.yaml`, then `entry.py`, and echo both paths.
   */
  function PluginDecision(commandsDir: Path, command: string, subcommand: string, shortHelp: Option<string>,
                          force: bool, fs: Fs): Decision
  {
    if !ValidName(command) then Refuse(InvalidName("command", command))
    else if !ValidName(subcommand) then Refuse(InvalidName("subcommand", subcommand))
    else
      var target := PluginDir(commandsDir, command, subcommand);
      if !Within(Resolve(commandsDir), Resolve(target)) then Refuse(Outside)
      else
        var entry := target + [EntryFile];
        var meta := target + [MetaFile];
        if !force && (Exists(fs, entry) || Exists(fs, meta)) then Refuse(PluginExists)
        else
          Proceed(Plan([target],
                       [Write(meta, PluginDescriptor(PluginHelp(command, subcommand, shortHelp))), Write(entry, EntryStub)],
                       [meta, entry]))
  }

  /** What one run of `new-plugin` does; `NewPlugin` is proved to do exactly this. */
  function PluginRun(commandsDir: Path, command: string, subcommand: string, shortHelp: Option<string>,
                     force: bool, fs: Fs): Outcome
  {
    Carry(fs, PluginDecision(commandsDir, command, subcommand, shortHelp, force, fs))
  }

  /** `new_plugin`, with the filesystem as a value in and out. */
  method NewPlugin(commandsDir: Path, command: string, subcommand: string, shortHelp: Option<string>,
                   force: bool, fs: Fs) returns (r: Outcome)
    ensures r == PluginRun(commandsDir, command, subcommand, shortHelp, force, fs)
  {
    var tokens := [("command", command), ("subcommand", subcommand)];
    var k := 0;
    while k < |tokens|
      invariant 0 <= k <= |tokens|
      invariant forall j :: 0 <= j < k ==> ValidName(tokens[j].1)
      invariant k > 0 ==> ValidName(command)
    {
      var (tokenName, token) := tokens[k];
      if !ValidName(token) {
        return Aborted(InvalidName(tokenName, token));
      }
      k := k + 1;
    }
    assert ValidName(tokens[1].1);
    var targetDir := Join(Join(commandsDir, command), subcommand);
    if !Within(Resolve(commandsDir), Resolve(targetDir)) {
      return Aborted(Outside);
    }
    var entryPath := targetDir + [EntryFile];
    var metaPath := targetDir + [MetaFile];
    if !force && (Exists(fs, entryPath) || Exists(fs, metaPath)) {
      return Aborted(PluginExists);
    }
    var helpText := PluginHelp(command, subcommand, shortHelp);
    r := CreateFiles(fs, targetDir, metaPath, PluginDescriptor(helpText), entryPath);
  }

  // ---------------------------------------------------------------------------------------
  // What a run promises

  /**
   * With valid names the containment guard never fires: the run is refused only for an existing
   * file without `--force`, and otherwise creates `COMMANDS_DIR/command/subcommand` and writes
   * its descriptor and stub.
   */
  lemma PluginDecisionOfValidNames(commandsDir: Path, command: string, subcommand: string, shortHelp: Option<string>,
                                   force: bool, fs: Fs)
    requires ValidName(command) && ValidName(subcommand)
    ensures var target := commandsDir + [command, subcommand];
      var meta := target + [MetaFile];
      var entry := target + [EntryFile];
      PluginDecision(commandsDir, command, subcommand, shortHelp, force, fs) ==
        if !force && (Exists(fs, entry) || Exists(fs, meta)) then Refuse(PluginExists)
        else Proceed(Plan([target],
                          [Write(meta, PluginDescriptor(PluginHelp(command, subcommand, shortHelp))), Write(entry, EntryStub)],
                          [meta, entry]))
  {
    ValidNamesStayWithin(commandsDir, command, subcommand);
    TargetOfValidNames(commandsDir, command, subcommand);
  }

  lemma TargetOfValidNames(commandsDir: Path, command: string, subcommand: string)
    requires ValidName(command) && ValidName(subcommand)
    ensures PluginDir(commandsDir, command, subcommand) == commandsDir + [command, subcommand]
  {
    JoinValidName(commandsDir, command);
    JoinValidName(commandsDir + [command], subcommand);
  }

  lemma PluginFiles(commandsDir: Path, command: string, subcommand: string)
    ensures commandsDir + [command, subcommand] + [EntryFile] == commandsDir + [command, subcommand, EntryFile]
    ensures commandsDir + [command, subcommand] + [MetaFile] == commandsDir + [command, subcommand, MetaFile]
  {
  }

  /**
   * The guards refuse a run (which then aborts, by `CarryAborts`) exactly for an invalid name
   * or, without `--force`, for an `entry.py` or `meta.yaml` already at the target.
   */
  lemma PluginRefusals(commandsDir: Path, command: string, subcommand: string, shortHelp: Option<string>,
                       force: bool, fs: Fs)
    ensures PluginDecision(commandsDir, command, subcommand, shortHelp, force, fs).Refuse? <==>
      || !ValidName(command) || !ValidName(subcommand)
      || (!force && (Exists(fs, commandsDir + [command, subcommand, EntryFile])
                     || Exists(fs, commandsDir + [command, subcommand, MetaFile])))
  {
    if ValidName(command) && ValidName(subcommand) {
      PluginDecisionOfValidNames(commandsDir, command, subcommand, shortHelp, force, fs);
      PluginFiles(commandsDir, command, subcommand);
    }
  }

  /** The command name is checked first, then the subcommand name; any later abort is the overwrite refusal. */
  lemma PluginRefusalReasons(commandsDir: Path, command: string, subcommand: string, shortHelp: Option<string>,
                              force: bool, fs: Fs)
    requires PluginDecision(commandsDir, command, subcommand, shortHelp, force, fs).Refuse?
    ensures var why := PluginDecision(commandsDir, command, subcommand, shortHelp, force, fs).reason;
      && (!ValidName(command) ==> why == InvalidName("command", command))
      && (ValidName(command) && !ValidName(subcommand) ==> why == InvalidName("subcommand", subcommand))
      && (ValidName(command) && ValidName(subcommand) ==> why == PluginExists)
  {
    if ValidName(command) && ValidName(subcommand) {
      PluginDecisionOfValidNames(commandsDir, command, subcommand, shortHelp, force, fs);
    }
  }

  /**
   * A finished run has written exactly the descriptor and the stub, created the target and its
   * parents, left every other file as it was, and echoed the `meta.yaml` path, then the `entry.py` path.
   */
  lemma PluginRunWrites(commandsDir: Path, command: string, subcommand: string, shortHelp: Option<string>,
                        force: bool, fs: Fs)
    requires PluginRun(commandsDir, command, subcommand, shortHelp, force, fs).Done?
    ensures var r := PluginRun(commandsDir, command, subcommand, shortHelp, force, fs);
      var target := commandsDir + [command, subcommand];
      && r.fs.files == fs.files[target + [MetaFile] := PluginDescriptor(PluginHelp(command, subcommand, shortHelp))]
                               [target + [EntryFile] := EntryStub]
      && r.fs.dirs == fs.dirs + Ancestry(target)
      && r.echoed == [target + [MetaFile], target + [EntryFile]]
  {
    PluginDecisionOfValidNames(commandsDir, command, subcommand, shortHelp, force, fs);
    var target := commandsDir + [command, subcommand];
    var meta := Write(target + [MetaFile], PluginDescriptor(PluginHelp(command, subcommand, shortHelp)));
    var entry := Write(target + [EntryFile], EntryStub);
    ExecuteOutcome(fs, PluginDecision(commandsDir, command, subcommand, shortHelp, force, fs).plan);
    OverwriteTwo(fs.files, meta, entry);
    AncestryOne(target);
  }

  /** Without `--force` a run never replaces a file: whatever it writes did not exist before. */
  lemma PluginRunNeverOverwrites(commandsDir: Path, command: string, subcommand: string, shortHelp: Option<string>,
                                 fs: Fs)
    requires PluginRun(commandsDir, command, subcommand, shortHelp, false, fs).Done?
    ensures commandsDir + [command, subcommand, MetaFile] !in fs.files
    ensures commandsDir + [command, subcommand, EntryFile] !in fs.files
  {
    PluginRefusals(commandsDir, command, subcommand, shortHelp, false, fs);
    CarryAborts(fs, PluginDecision(commandsDir, command, subcommand, shortHelp, false, fs));
  }

  /**
   * Past its guards, a run fails in the filesystem exactly when a regular file stands where a
   * directory of the target's path must be, or a directory stands where one of the two files
   * goes (which only `--force` lets through).
   */
  lemma PluginRunRaises(commandsDir: Path, command: string, subcommand: string, shortHelp: Option<string>,
                        force: bool, fs: Fs)
    requires ValidName(command) && ValidName(subcommand)
    requires force || (!Exists(fs, commandsDir + [command, subcommand, EntryFile])
                       && !Exists(fs, commandsDir + [command, subcommand, MetaFile]))
    ensures var target := commandsDir + [command, subcommand];
      PluginRun(commandsDir, command, subcommand, shortHelp, force, fs).Raised? <==>
      || (exists i :: 1 <= i <= |target| && target[..i] in fs.files)
      || (force && (target + [MetaFile] in fs.dirs || target + [EntryFile] in fs.dirs))
  {
    PluginDecisionOfValidNames(commandsDir, command, subcommand, shortHelp, force, fs);
    PluginFiles(commandsDir, command, subcommand);
    var target := commandsDir + [command, subcommand];
    ExecuteOutcome(fs, PluginDecision(commandsDir, command, subcommand, shortHelp, force, fs).plan);
    var ws := [Write(target + [MetaFile], PluginDescriptor(PluginHelp(command, subcommand, shortHelp))),
               Write(target + [EntryFile], EntryStub)];
    AncestryOne(target);
    FileInTheWayOne(fs.files, target);
    DirInTheWayTwo(fs.dirs + Ancestry(target), ws[0], ws[1]);
    assert ws == [ws[0], ws[1]];
    AncestryShorter(target, target + [MetaFile]);
    AncestryShorter(target, target + [EntryFile]);
  }

  /** The help `new-plugin` writes is never empty: an empty option falls back to the placeholder. */
  lemma PluginHelpChoice(command: string, subcommand: string, shortHelp: Option<string>)
    ensures PluginHelp(command, subcommand, shortHelp) != ""
  {
  }
}
