/**
 * How the scaffolders' output meets discovery and packaging: what `load_meta` and
 * `should_package` make of the descriptors `dev new-plugin` and `admin new-command` write.
 * YAML parsing is not modelled, so the reading of each descriptor is stated as the mapping a
 * YAML loader yields for it when the help text is a plain one-line scalar.
 */
module Interplay {
  import opened Base
  import opened Tree
  import opened Loader
  import opened Packaging
  import opened Dev
  import opened NewCommand

  /** The mapping read from `shortHelp: <help>\n`. */
  function PluginReading(help: string): Yaml
  {
    Mapping(map["shortHelp" := YStr(help)])
  }

  /** The mapping read from the `new-command` descriptor with `HelpSummary: <help>`. */
  function CommandReading(help: string): Yaml
  {
    Mapping(map["HelpSummary" := YStr(help), "hidden" := YBool(false), "enabled" := YBool(true),
                "HelpGroup" := YStr("Commands"), "packaged" := YBool(true)])
  }

  /** A subcommand directory as discovery lists it: `meta.yaml` read as `doc`, next to a regular `entry.py`. */
  predicate Scaffolded(sub: Node, doc: Yaml)
  {
    && IsFileAt(Children(sub), EntryFile)
    && Lookup(Children(sub), MetaFile) == Some(File(MetaFile, doc))
  }

  /** The `new-plugin` descriptor passes `load_meta` exactly when its help is not blank. */
  lemma PluginReadingAccepted(help: string)
    ensures LoadMeta(PluginReading(help)).Ok? <==> !Blank(help)
    ensures Blank(help) ==> LoadMeta(PluginReading(help)) == Err(ShortHelpInvalid)
  {
    assert "shortHelp" in PluginReading(help).fields;
  }

  /**
   * The help `new-plugin` writes is blank only when `--short-help` was given as whitespace:
   * the placeholder starts with `T`, and an empty option falls back to it.
   */
  lemma PluginHelpBlank(command: string, subcommand: string, shortHelp: Option<string>)
    ensures Blank(PluginHelp(command, subcommand, shortHelp)) <==>
      shortHelp.Some? && shortHelp.value != "" && Blank(shortHelp.value)
  {
    var help := PluginHelp(command, subcommand, shortHelp);
    if !(shortHelp.Some? && shortHelp.value != "") {
      assert help[0] == 'T';
      assert !IsSpace(help[0]);
    }
  }

  /**
   * A directory whose descriptor reads as `new-plugin` writes it is discovered exactly when the
   * help is not blank; otherwise discovery reports the descriptor as invalid.
   */
  lemma NewPluginDiscovered(commandsDir: Path, group: string, sub: Node, help: string)
    requires Scaffolded(sub, PluginReading(help))
    ensures var r := CheckPlugin(commandsDir, group, sub);
      && (r.Ok? <==> !Blank(help))
      && (r.Ok? ==> r.value.command == SafeName(group) && r.value.subcommand == SafeName(sub.name))
      && (r.Err? ==> r.error == InvalidMeta(commandsDir + [group, sub.name, MetaFile], ShortHelpInvalid))
  {
    PluginReadingAccepted(help);
    assert MetaDoc(Children(sub)) == PluginReading(help);
  }

  /** `s` holds a colon followed by a space: on a YAML line after `key: ` this starts a second mapping value. */
  predicate ColonSpace(s: string)
  {
    exists i :: 0 <= i < |s| - 1 && s[i] == ':' && s[i + 1] == ' '
  }

  /**
   * Every placeholder help holds `": "`, so a descriptor written with one is a line a YAML loader
   * refuses (`mapping values are not allowed here`) rather than the one-key reading above.
   */
  lemma PlaceholdersHoldColonSpace(command: string, subcommand: string)
    ensures ColonSpace(PluginHelp(command, subcommand, None))
    ensures ColonSpace(GroupHelp(command, None))
    ensures ColonSpace(SubcommandHelp(command, subcommand, None))
  {
    var p := PluginHelp(command, subcommand, None);
    assert p[4] == ':' && p[5] == ' ';
    var g := GroupHelp(command, None);
    assert g[4] == ':' && g[5] == ' ';
    var q := SubcommandHelp(command, subcommand, None);
    assert q[4] == ':' && q[5] == ' ';
  }

  /** A descriptor that cannot be read makes discovery fail on it and keeps its directory out of packaging. */
  lemma UnreadableDescriptor(commandsDir: Path, group: string, sub: Node, detail: string)
    requires Scaffolded(sub, Unloadable(detail))
    ensures CheckPlugin(commandsDir, group, sub) == Err(InvalidMeta(commandsDir + [group, sub.name, MetaFile], Unparsable(detail)))
    ensures !ShouldPackage(Children(sub))
  {
    assert MetaDoc(Children(sub)) == Unloadable(detail);
    assert LenientMeta(Lookup(Children(sub), MetaFile)) == map[];
  }

  /** The `new-command` descriptor never passes `load_meta`: it has no `shortHelp` key. */
  lemma CommandReadingRefused(help: string)
    ensures LoadMeta(CommandReading(help)) == Err(ShortHelpInvalid)
  {
    assert "shortHelp" !in CommandReading(help).fields;
  }

  /**
   * A subcommand directory `new-command` has just written is never discovered: discovery
   * reports its descriptor as invalid, whatever the help.
   */
  lemma NewCommandNotDiscovered(commandsDir: Path, group: string, sub: Node, help: string)
    requires Scaffolded(sub, CommandReading(help))
    ensures CheckPlugin(commandsDir, group, sub) == Err(InvalidMeta(commandsDir + [group, sub.name, MetaFile], ShortHelpInvalid))
  {
    CommandReadingRefused(help);
    assert MetaDoc(Children(sub)) == CommandReading(help);
  }

  /** Every directory `new-command` writes a descriptor into is packaged; one `new-plugin` writes into is not. */
  lemma ScaffoldedPackaging(sub: Node, help: string)
    ensures Lookup(Children(sub), MetaFile) == Some(File(MetaFile, CommandReading(help))) ==> ShouldPackage(Children(sub))
    ensures Lookup(Children(sub), MetaFile) == Some(File(MetaFile, PluginReading(help))) ==> !ShouldPackage(Children(sub))
  {
    if Lookup(Children(sub), MetaFile) == Some(File(MetaFile, CommandReading(help))) {
      assert LenientMeta(Lookup(Children(sub), MetaFile)) == CommandReading(help).fields;
    }
    if Lookup(Children(sub), MetaFile) == Some(File(MetaFile, PluginReading(help))) {
      assert LenientMeta(Lookup(Children(sub), MetaFile)) == PluginReading(help).fields;
    }
  }
}
