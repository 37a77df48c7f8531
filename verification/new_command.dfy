/**
 * `admin new-command COMMAND [SUBCOMMAND] [--command-short-help T] [--subcommand-short-help T]
 * [--short-help T] [--force]` (src/your_cli/commands/admin/new_command/entry.py): without a
 * subcommand it writes a standalone command (`meta.yaml` and `entry.py` in the command's own
 * directory); with one it writes the group's `meta.yaml` and the subcommand's two files.
 */
module NewCommand {
  import opened Base
  import opened Tree
  import opened Scaffolding

  /** Python truthiness of an optional string: given and not empty. */
  predicate Given(text: Option<string>)
  {
    text.Some? && text.value != ""
  }

  /** The descriptor every branch writes, whatever the help text. */
  function CommandDescriptor(help: string): string
  {
    "HelpSummary: " + help + "\nhidden: false\nenabled: true\nHelpGroup: Commands\npackaged: true\n"
  }

  /** The subcommand help after the legacy `--short-help` has been folded in. */
  function SubcommandHelpOption(subcommandShortHelp: Option<string>, shortHelp: Option<string>): Option<string>
  {
    if Given(shortHelp) && !Given(subcommandShortHelp) then shortHelp else subcommandShortHelp
  }

  /** `command_short_help or f"TODO: describe {command}."`. */
  function GroupHelp(command: string, commandShortHelp: Option<string>): string
  {
    if Given(commandShortHelp) then commandShortHelp.value else "TODO: describe " + command + "."
  }

  /** `subcommand_short_help or f"TODO: describe {command} {subcommand}."`. */
  function SubcommandHelp(command: string, subcommand: string, subcommandShortHelp: Option<string>): string
  {
    if Given(subcommandShortHelp) then subcommandShortHelp.value
    else "TODO: describe " + command + " " + subcommand + "."
  }

  /**
   * The guards of a standalone command once its name is checked, and the plan they let through:
   * create the command's directory, write its `meta.yaml` with exactly the given help, then the
   * stub, and echo both paths.
   */
  function StandaloneDecision(commandsDir: Path, command: string, commandShortHelp: Option<string>,
                              force: bool, fs: Fs): Decision
  {
    if commandShortHelp.None? then Refuse(StandaloneHelpMissing)
    else
      var commandDir := Join(commandsDir, command);
      if !Within(Resolve(commandsDir), Resolve(commandDir)) then Refuse(Outside)
      else
        var entry := commandDir + [EntryFile];
        var meta := commandDir + [MetaFile];
        if !force && (Exists(fs, entry) || Exists(fs, meta)) then Refuse(CommandExists)
        else
          Proceed(Plan([commandDir], [Write(meta, CommandDescriptor(commandShortHelp.value)), Write(entry, EntryStub)],
                       [meta, entry]))
  }

  /**
   * The guards of a group with one subcommand once the command name is checked, and the plan
   * they let through: create the subcommand's directory, then the group's (already there by
   * then), write the group's `meta.yaml`, the subcommand's `meta.yaml` and `entry.py`, and echo all three.
   */
  function SubcommandDecision(commandsDir: Path, command: string, subcommand: string, groupHelp: string,
                              subHelp: string, force: bool, fs: Fs): Decision
  {
    if !ValidName(subcommand) then Refuse(InvalidName("subcommand", subcommand))
    else
      var commandDir := Join(commandsDir, command);
      var target := Join(commandDir, subcommand);
      if !Within(Resolve(commandsDir), Resolve(target)) then Refuse(Outside)
      else
        var entry := target + [EntryFile];
        var meta := target + [MetaFile];
        var groupMeta := commandDir + [MetaFile];
        if !force && (Exists(fs, entry) || Exists(fs, meta) || Exists(fs, groupMeta)) then
          Refuse(SubcommandExists)
        else
          Proceed(Plan([target, commandDir],
                       [Write(groupMeta, CommandDescriptor(groupHelp)), Write(meta, CommandDescriptor(subHelp)), Write(entry, EntryStub)],
                       [groupMeta, meta, entry]))
  }

  /** The guards of `new-command`, in order, and the plan they let through. */
  function CommandDecision(commandsDir: Path, command: string, subcommand: Option<string>,
                           commandShortHelp: Option<string>, subcommandShortHelp: Option<string>,
                           shortHelp: Option<string>, force: bool, fs: Fs): Decision
  {
    if !ValidName(command) then Refuse(InvalidName("command", command))
    else if subcommand.None? then StandaloneDecision(commandsDir, command, commandShortHelp, force, fs)
    else
      SubcommandDecision(commandsDir, command, subcommand.value, GroupHelp(command, commandShortHelp),
                         SubcommandHelp(command, subcommand.value, SubcommandHelpOption(subcommandShortHelp, shortHelp)),
                         force, fs)
  }

  /** What one run of `new-command` does; `NewCommand` is proved to do exactly this. */
  function CommandRun(commandsDir: Path, command: string, subcommand: Option<string>,
                      commandShortHelp: Option<string>, subcommandShortHelp: Option<string>,
                      shortHelp: Option<string>, force: bool, fs: Fs): Outcome
  {
    Carry(fs, CommandDecision(commandsDir, command, subcommand, commandShortHelp, subcommandShortHelp, shortHelp, force, fs))
  }

  /** `cli` of `new_command`, with the filesystem as a value in and out. */
  method NewCommand(commandsDir: Path, command: string, subcommand: Option<string>,
                    commandShortHelp: Option<string>, subcommandShortHelp: Option<string>,
                    shortHelp: Option<string>, force: bool, fs: Fs) returns (r: Outcome)
    ensures r == CommandRun(commandsDir, command, subcommand, commandShortHelp, subcommandShortHelp,
                            shortHelp, force, fs)
  {
    var subcommandHelp := subcommandShortHelp;
    if Given(shortHelp) && !Given(subcommandHelp) {
      subcommandHelp := shortHelp;
    }
    assert subcommandHelp == SubcommandHelpOption(subcommandShortHelp, shortHelp);
    if !ValidName(command) {
      return Aborted(InvalidName("command", command));
    }
    if subcommand.None? {
      r := CreateStandalone(commandsDir, command, commandShortHelp, force, fs);
      return;
    }
    var sub := subcommand.value;
    var groupHelpText := GroupHelp(command, commandShortHelp);
    var subHelpText := SubcommandHelp(command, sub, subcommandHelp);
    r := CreateSubcommand(commandsDir, command, sub, groupHelpText, subHelpText, force, fs);
  }

  /** The standalone branch: the command's own directory gets `meta.yaml` and `entry.py`. */
  method CreateStandalone(commandsDir: Path, command: string, commandShortHelp: Option<string>, force: bool, fs: Fs)
    returns (r: Outcome)
    ensures r == Carry(fs, StandaloneDecision(commandsDir, command, commandShortHelp, force, fs))
  {
    if commandShortHelp.None? {
      return Aborted(StandaloneHelpMissing);
    }
    var commandDir := Join(commandsDir, command);
    if !Within(Resolve(commandsDir), Resolve(commandDir)) {
      return Aborted(Outside);
    }
    var entryPath := commandDir + [EntryFile];
    var metaPath := commandDir + [MetaFile];
    if !force && (Exists(fs, entryPath) || Exists(fs, metaPath)) {
      return Aborted(CommandExists);
    }
    var helpText := commandShortHelp.value;
    r := CreateFiles(fs, commandDir, metaPath, CommandDescriptor(helpText), entryPath);
  }

  /** The subcommand branch: the guards, then `CreateGroupFiles`. */
  method CreateSubcommand(commandsDir: Path, command: string, sub: string, groupHelpText: string,
                          subHelpText: string, force: bool, fs: Fs) returns (r: Outcome)
    ensures r == Carry(fs, SubcommandDecision(commandsDir, command, sub, groupHelpText, subHelpText, force, fs))
  {
    if !ValidName(sub) {
      return Aborted(InvalidName("subcommand", sub));
    }
    var commandDir := Join(commandsDir, command);
    var targetDir := Join(commandDir, sub);
    if !Within(Resolve(commandsDir), Resolve(targetDir)) {
      return Aborted(Outside);
    }
    var entryPath := targetDir + [EntryFile];
    var metaPath := targetDir + [MetaFile];
    var groupMetaPath := commandDir + [MetaFile];
    if !force && (Exists(fs, entryPath) || Exists(fs, metaPath) || Exists(fs, groupMetaPath)) {
      return Aborted(SubcommandExists);
    }
    r := CreateGroupFiles(fs, targetDir, commandDir, groupMetaPath, CommandDescriptor(groupHelpText),
                          metaPath, CommandDescriptor(subHelpText), entryPath);
  }

  /**
   * `target_dir.mkdir`, `group_meta_path.parent.mkdir`, then the group's `meta.yaml`, the
   * subcommand's `meta.yaml` and the stub, then the three paths echoed.
   */
  method CreateGroupFiles(fs: Fs, targetDir: Path, commandDir: Path, groupMetaPath: Path, groupText: string,
                          metaPath: Path, metaText: string, entryPath: Path) returns (r: Outcome)
    ensures r == Execute(fs, Plan([targetDir, commandDir],
                                  [Write(groupMetaPath, groupText), Write(metaPath, metaText), Write(entryPath, EntryStub)],
                                  [groupMetaPath, metaPath, entryPath]))
  {
    ghost var plan := Plan([targetDir, commandDir],
                           [Write(groupMetaPath, groupText), Write(metaPath, metaText), Write(entryPath, EntryStub)],
                           [groupMetaPath, metaPath, entryPath]);
    var made := MakeDirs(fs, targetDir);
    if made.Err? {
      return Raised(fs, made.error);
    }
    ghost var rest := plan.(dirs := [commandDir]);
    assert Execute(fs, plan) == Execute(made.value, rest);
    var madeGroup := MakeDirs(made.value, commandDir);
    if madeGroup.Err? {
      return Raised(made.value, madeGroup.error);
    }
    assert Execute(made.value, rest) == Execute(madeGroup.value, rest.(dirs := []));
    rest := rest.(dirs := []);
    var wroteGroup := WriteText(madeGroup.value, groupMetaPath, groupText);
    if wroteGroup.Err? {
      return Raised(madeGroup.value, wroteGroup.error);
    }
    assert Execute(madeGroup.value, rest) == Execute(wroteGroup.value, rest.(writes := rest.writes[1..]));
    rest := rest.(writes := rest.writes[1..]);
    var wroteMeta := WriteText(wroteGroup.value, metaPath, metaText);
    if wroteMeta.Err? {
      return Raised(wroteGroup.value, wroteMeta.error);
    }
    assert Execute(wroteGroup.value, rest) == Execute(wroteMeta.value, rest.(writes := rest.writes[1..]));
    rest := rest.(writes := rest.writes[1..]);
    var wroteEntry := WriteText(wroteMeta.value, entryPath, EntryStub);
    if wroteEntry.Err? {
      return Raised(wroteMeta.value, wroteEntry.error);
    }
    assert Execute(wroteMeta.value, rest) == Execute(wroteEntry.value, rest.(writes := []));
    return Done(wroteEntry.value, [groupMetaPath, metaPath, entryPath]);
  }

  // ---------------------------------------------------------------------------------------
  // What a run promises

  /**
   * The subcommand's help is `--subcommand-short-help` when given; otherwise the legacy
   * `--short-help` when given; otherwise a placeholder naming the command and the subcommand.
   */
  lemma SubcommandHelpChoice(command: string, subcommand: string, subcommandShortHelp: Option<string>,
                             shortHelp: Option<string>)
    ensures var h := SubcommandHelp(command, subcommand, SubcommandHelpOption(subcommandShortHelp, shortHelp));
      && (Given(subcommandShortHelp) ==> h == subcommandShortHelp.value)
      && (!Given(subcommandShortHelp) && Given(shortHelp) ==> h == shortHelp.value)
      && (!Given(subcommandShortHelp) && !Given(shortHelp) ==> h == "TODO: describe " + command + " " + subcommand + ".")
      && h != ""
  {
  }

  /**
   * With a valid name and a given help the containment guard never fires: a standalone run is
   * refused only for an existing file without `--force`, and otherwise creates
   * `COMMANDS_DIR/command` and writes its descriptor and stub.
   */
  lemma StandaloneOfValidName(commandsDir: Path, command: string, help: string, force: bool, fs: Fs)
    requires ValidName(command)
    ensures var dir := commandsDir + [command];
      var meta := dir + [MetaFile];
      var entry := dir + [EntryFile];
      StandaloneDecision(commandsDir, command, Some(help), force, fs) ==
        if !force && (Exists(fs, entry) || Exists(fs, meta)) then Refuse(CommandExists)
        else Proceed(Plan([dir], [Write(meta, CommandDescriptor(help)), Write(entry, EntryStub)], [meta, entry]))
  {
    JoinValidName(commandsDir, command);
    ValidNameStaysWithin(commandsDir, command);
  }

  /**
   * With valid names the containment guard never fires: a run with a subcommand is refused
   * only for an existing file without `--force`, and otherwise creates
   * `COMMANDS_DIR/command/subcommand` and writes the three files.
   */
  lemma SubcommandOfValidNames(commandsDir: Path, command: string, subcommand: string, groupHelp: string,
                               subHelp: string, force: bool, fs: Fs)
    requires ValidName(command) && ValidName(subcommand)
    ensures var group := commandsDir + [command];
      var target := group + [subcommand];
      var groupMeta := group + [MetaFile];
      var meta := target + [MetaFile];
      var entry := target + [EntryFile];
      SubcommandDecision(commandsDir, command, subcommand, groupHelp, subHelp, force, fs) ==
        if !force && (Exists(fs, entry) || Exists(fs, meta) || Exists(fs, groupMeta)) then Refuse(SubcommandExists)
        else Proceed(Plan([target, group],
                          [Write(groupMeta, CommandDescriptor(groupHelp)), Write(meta, CommandDescriptor(subHelp)), Write(entry, EntryStub)],
                          [groupMeta, meta, entry]))
  {
    JoinValidName(commandsDir, command);
    JoinValidName(commandsDir + [command], subcommand);
    ValidNamesStayWithin(commandsDir, command, subcommand);
  }

  /**
   * The guards refuse a standalone run (which then aborts, by `CarryAborts`) exactly for an invalid name, a missing `--command-short-help` (an
   * empty one is accepted), or, without `--force`, an `entry.py` or `meta.yaml` already there.
   */
  lemma StandaloneAborts(commandsDir: Path, command: string, commandShortHelp: Option<string>,
                         subcommandShortHelp: Option<string>, shortHelp: Option<string>, force: bool, fs: Fs)
    ensures var d := CommandDecision(commandsDir, command, None, commandShortHelp, subcommandShortHelp, shortHelp, force, fs);
      var dir := commandsDir + [command];
      && (d.Refuse? <==>
            || !ValidName(command) || commandShortHelp.None?
            || (!force && (Exists(fs, dir + [EntryFile]) || Exists(fs, dir + [MetaFile]))))
      && (!ValidName(command) ==> d.reason == InvalidName("command", command))
      && (d.Refuse? && ValidName(command) ==>
            d.reason == (if commandShortHelp.None? then StandaloneHelpMissing else CommandExists))
  {
    var d := CommandDecision(commandsDir, command, None, commandShortHelp, subcommandShortHelp, shortHelp, force, fs);
    if ValidName(command) && commandShortHelp.Some? {
      assert d == StandaloneDecision(commandsDir, command, Some(commandShortHelp.value), force, fs);
      StandaloneOfValidName(commandsDir, command, commandShortHelp.value, force, fs);
    }
  }

  /**
   * The guards refuse a run with a subcommand exactly for an invalid name, command first, or, without
   * `--force`, when the subcommand's `entry.py` or `meta.yaml` or the group's `meta.yaml` exists.
   */
  lemma SubcommandAborts(commandsDir: Path, command: string, subcommand: string, commandShortHelp: Option<string>,
                         subcommandShortHelp: Option<string>, shortHelp: Option<string>, force: bool, fs: Fs)
    ensures var d := CommandDecision(commandsDir, command, Some(subcommand), commandShortHelp, subcommandShortHelp,
                                     shortHelp, force, fs);
      var group := commandsDir + [command];
      var target := group + [subcommand];
      && (d.Refuse? <==>
            || !ValidName(command) || !ValidName(subcommand)
            || (!force && (Exists(fs, target + [EntryFile]) || Exists(fs, target + [MetaFile])
                           || Exists(fs, group + [MetaFile]))))
      && (!ValidName(command) ==> d.reason == InvalidName("command", command))
      && (ValidName(command) && !ValidName(subcommand) ==> d.reason == InvalidName("subcommand", subcommand))
      && (ValidName(command) && ValidName(subcommand) && d.Refuse? ==> d.reason == SubcommandExists)
  {
    var d := CommandDecision(commandsDir, command, Some(subcommand), commandShortHelp, subcommandShortHelp, shortHelp, force, fs);
    if ValidName(command) {
      var groupHelp := GroupHelp(command, commandShortHelp);
      var subHelp := SubcommandHelp(command, subcommand, SubcommandHelpOption(subcommandShortHelp, shortHelp));
      assert d == SubcommandDecision(commandsDir, command, subcommand, groupHelp, subHelp, force, fs);
      if ValidName(subcommand) {
        SubcommandOfValidNames(commandsDir, command, subcommand, groupHelp, subHelp, force, fs);
      }
    }
  }

  /**
   * A finished standalone run has written the descriptor with exactly the given help (possibly
   * empty) and the stub, changed no other file, and echoed `meta.yaml`, then `entry.py`; without
   * `--force` neither file existed before.
   */
  lemma StandaloneWrites(commandsDir: Path, command: string, commandShortHelp: Option<string>,
                         subcommandShortHelp: Option<string>, shortHelp: Option<string>, force: bool, fs: Fs)
    requires CommandRun(commandsDir, command, None, commandShortHelp, subcommandShortHelp, shortHelp, force, fs).Done?
    ensures var r := CommandRun(commandsDir, command, None, commandShortHelp, subcommandShortHelp, shortHelp, force, fs);
      var dir := commandsDir + [command];
      && commandShortHelp.Some?
      && r.fs.files == fs.files[dir + [MetaFile] := CommandDescriptor(commandShortHelp.value)][dir + [EntryFile] := EntryStub]
      && r.fs.dirs == fs.dirs + Ancestry(dir)
      && r.echoed == [dir + [MetaFile], dir + [EntryFile]]
      && (!force ==> dir + [MetaFile] !in fs.files && dir + [EntryFile] !in fs.files)
  {
    StandaloneOfValidName(commandsDir, command, commandShortHelp.value, force, fs);
    var dir := commandsDir + [command];
    ExecuteOutcome(fs, CommandDecision(commandsDir, command, None, commandShortHelp, subcommandShortHelp, shortHelp, force, fs).plan);
    OverwriteTwo(fs.files, Write(dir + [MetaFile], CommandDescriptor(commandShortHelp.value)), Write(dir + [EntryFile], EntryStub));
    AncestryOne(dir);
  }

  /**
   * A finished run with a subcommand has written the group descriptor, the subcommand
   * descriptor and the stub, changed no other file, created the subcommand's directory and its
   * parents, and echoed the three paths in that order; without `--force` none of them existed before.
   */
  lemma SubcommandWrites(commandsDir: Path, command: string, subcommand: string, commandShortHelp: Option<string>,
                         subcommandShortHelp: Option<string>, shortHelp: Option<string>, force: bool, fs: Fs)
    requires CommandRun(commandsDir, command, Some(subcommand), commandShortHelp, subcommandShortHelp,
                        shortHelp, force, fs).Done?
    ensures var r := CommandRun(commandsDir, command, Some(subcommand), commandShortHelp, subcommandShortHelp,
                                shortHelp, force, fs);
      var group := commandsDir + [command];
      var target := group + [subcommand];
      var subHelp := SubcommandHelp(command, subcommand, SubcommandHelpOption(subcommandShortHelp, shortHelp));
      && r.fs.files == fs.files[group + [MetaFile] := CommandDescriptor(GroupHelp(command, commandShortHelp))]
                               [target + [MetaFile] := CommandDescriptor(subHelp)]
                               [target + [EntryFile] := EntryStub]
      && r.fs.dirs == fs.dirs + Ancestry(target)
      && r.echoed == [group + [MetaFile], target + [MetaFile], target + [EntryFile]]
      && (!force ==> group + [MetaFile] !in fs.files && target + [MetaFile] !in fs.files && target + [EntryFile] !in fs.files)
  {
    var group := commandsDir + [command];
    var target := group + [subcommand];
    var groupHelp := GroupHelp(command, commandShortHelp);
    var subHelp := SubcommandHelp(command, subcommand, SubcommandHelpOption(subcommandShortHelp, shortHelp));
    SubcommandOfValidNames(commandsDir, command, subcommand, groupHelp, subHelp, force, fs);
    ExecuteOutcome(fs, CommandDecision(commandsDir, command, Some(subcommand), commandShortHelp, subcommandShortHelp,
                                       shortHelp, force, fs).plan);
    OverwriteThree(fs.files, Write(group + [MetaFile], CommandDescriptor(groupHelp)),
                   Write(target + [MetaFile], CommandDescriptor(subHelp)), Write(target + [EntryFile], EntryStub));
    ThenParent(fs.files, group, subcommand);
  }
}
