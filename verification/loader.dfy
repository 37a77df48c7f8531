/**
 * Command discovery and lazy loading (src/your_cli/loader.py): the commands directory holds
 * one directory per command group and, inside it, one directory per subcommand with an
 * `entry.py` and a `meta.yaml`. Discovery validates every subcommand directory, collects all
 * problems, and fails once at the end; the root command then lists and resolves names over
 * what discovery found, with the built-in `dev` group taking precedence.
 */
module Loader {
  import opened Base
  import opened Ordering
  import opened Tree

  /** Where one discovered subcommand lives and under which names it is shown. */
  datatype CommandSpec = CommandSpec(
    command: string,
    subcommand: string,
    entryPath: Path,
    metaPath: Path,
    importCommand: string,
    importSubcommand: string)

  /** Display name of the group -> display name of the subcommand -> spec. */
  type Specs = map<string, map<string, CommandSpec>>

  /** Display name of a directory: every `_` becomes `-`. */
  function SafeName(name: string): (r: string)
    ensures |r| == |name|
    ensures forall i :: 0 <= i < |name| ==> r[i] == (if name[i] == '_' then '-' else name[i])
    ensures '_' !in r
  {
    if name == [] then []
    else [if name[0] == '_' then '-' else name[0]] + SafeName(name[1..])
  }

  /** Python's `str.isspace` for one character, the set `str.strip()` removes. */
  predicate IsSpace(c: char)
  {
    || c == ' '
    || ('\t' <= c <= '\r')
    || ('\U{1C}' <= c <= '\U{1F}')
    || c == '\U{85}' || c == '\U{A0}' || c == '\U{1680}'
    || ('\U{2000}' <= c <= '\U{200A}')
    || c == '\U{2028}' || c == '\U{2029}' || c == '\U{202F}' || c == '\U{205F}' || c == '\U{3000}'
  }

  /** `not text.strip()`. */
  predicate Blank(text: string)
  {
    forall i :: 0 <= i < |text| ==> IsSpace(text[i])
  }

  /** Why a descriptor was refused. */
  datatype MetaError = Unparsable(detail: string) | ExpectedMapping | ShortHelpInvalid

  /** A descriptor carries a `shortHelp` string with at least one non-whitespace character. */
  predicate HasShortHelp(fields: map<string, YamlValue>)
  {
    "shortHelp" in fields && fields["shortHelp"].YStr? && !Blank(fields["shortHelp"].text)
  }

  /** `load_meta`: validate a parsed descriptor and hand back the mapping as it is. */
  function LoadMeta(doc: Yaml): (r: Result<map<string, YamlValue>, MetaError>)
    ensures r.Ok? <==> doc.Mapping? && HasShortHelp(doc.fields)
    ensures r.Ok? ==> r.value == doc.fields
    ensures doc.Unloadable? ==> r == Err(Unparsable(doc.detail))
    ensures doc.NonMapping? ==> r == Err(ExpectedMapping)
    ensures doc.Mapping? && !HasShortHelp(doc.fields) ==> r == Err(ShortHelpInvalid)
  {
    match doc
    case Unloadable(detail) => Err(Unparsable(detail))
    case NonMapping => Err(ExpectedMapping)
    case Mapping(fields) =>
      var shortHelp := if "shortHelp" in fields then Some(fields["shortHelp"]) else None;
      if shortHelp.None? || !shortHelp.value.YStr? || Blank(shortHelp.value.text) then Err(ShortHelpInvalid)
      else Ok(fields)
  }

  /** The message of the error `load_meta` raises for the descriptor at `path`. */
  function MetaErrorText(path: Path, e: MetaError): (r: string)
  {
    "Invalid meta.yaml at " + PathText(path) + ": " +
    match e
    case Unparsable(detail) => detail
    case ExpectedMapping => "expected mapping"
    case ShortHelpInvalid => "shortHelp must be a non-empty string"
  }

  /** One structural problem found by discovery. */
  datatype PluginError =
    | MissingFiles(command: string, subcommand: string, missing: seq<string>)
    | InvalidMeta(metaPath: Path, reason: MetaError)

  /** `", ".join(items)`. */
  function JoinComma(items: seq<string>): string
  {
    if items == [] then "" else if |items| == 1 then items[0]
    else JoinComma(items[..|items| - 1]) + ", " + items[|items| - 1]
  }

  function ErrorText(e: PluginError): string
  {
    match e
    case MissingFiles(c, s, missing) => c + "/" + s + ": missing " + JoinComma(missing)
    case InvalidMeta(path, reason) => MetaErrorText(path, reason)
  }

  /** The single error discovery raises, carrying every problem it found. */
  datatype DiscoveryError = DiscoveryError(errors: seq<PluginError>)

  const ReportHeader := "Invalid command plugins detected:\n"

  /** One line of the report: `f"- {err}"`. */
  function Bullet(e: PluginError): string
  {
    "- " + ErrorText(e)
  }

  /** `"\n".join(f"- {err}" for err in errors)`. */
  function Bullets(errors: seq<PluginError>): string
  {
    if errors == [] then ""
    else if |errors| == 1 then Bullet(errors[0])
    else Bullets(errors[..|errors| - 1]) + ("\n" + Bullet(errors[|errors| - 1]))
  }

  function ReportText(errors: seq<PluginError>): string
  {
    ReportHeader + Bullets(errors)
  }

  lemma InfixShift(piece: string, a: string, b: string)
    requires IsInfix(piece, b)
    ensures IsInfix(piece, a + b) && IsInfix(piece, b + a)
  {
    var i :| 0 <= i <= |b| - |piece| && b[i..][..|piece|] == piece;
    assert (a + b)[|a| + i..][..|piece|] == piece;
    assert (b + a)[i..][..|piece|] == piece;
  }

  lemma InfixLast(piece: string, front: string)
    ensures IsInfix(piece, front + piece)
  {
    assert (front + piece)[|front|..][..|piece|] == piece;
  }

  lemma {:induction false} BulletsListEveryError(errors: seq<PluginError>, k: nat)
    requires k < |errors|
    ensures IsInfix(Bullet(errors[k]), Bullets(errors))
    decreases |errors|
  {
    var n := |errors|;
    if n == 1 {
      InfixLast(Bullet(errors[0]), "");
      assert "" + Bullet(errors[0]) == Bullet(errors[0]);
    } else {
      var init := Bullets(errors[..n - 1]);
      var tail := "\n" + Bullet(errors[n - 1]);
      assert Bullets(errors) == init + tail;
      if k == n - 1 {
        InfixLast(Bullet(errors[k]), "\n");
        InfixShift(Bullet(errors[k]), init, tail);
      } else {
        BulletsListEveryError(errors[..n - 1], k);
        assert errors[..n - 1][k] == errors[k];
        InfixShift(Bullet(errors[k]), tail, init);
      }
    }
  }

  /** The raised message names every problem, each on a line of its own after "- ". */
  lemma ReportListsEveryError(errors: seq<PluginError>, k: nat)
    requires k < |errors|
    ensures IsInfix("- " + ErrorText(errors[k]), ReportText(errors))
  {
    BulletsListEveryError(errors, k);
    InfixShift(Bullet(errors[k]), ReportHeader, Bullets(errors));
  }

  // ---------------------------------------------------------------------------------------
  // The walk over the commands directory

  /** The required files a subcommand directory lacks, `entry.py` before `meta.yaml`. */
  function MissingFilesOf(entries: seq<Node>): seq<string>
  {
    (if IsFileAt(entries, EntryFile) then [] else [EntryFile]) +
    (if IsFileAt(entries, MetaFile) then [] else [MetaFile])
  }

  /** The parsed content of `meta.yaml` in a listing that has it as a file. */
  function MetaDoc(entries: seq<Node>): Yaml
    requires IsFileAt(entries, MetaFile)
  {
    Lookup(entries, MetaFile).value.doc
  }

  /** A subcommand directory discovery accepts: both files, and a descriptor `load_meta` accepts. */
  predicate ValidPlugin(sub: Node)
  {
    IsFileAt(Children(sub), EntryFile) && IsFileAt(Children(sub), MetaFile) &&
    LoadMeta(MetaDoc(Children(sub))).Ok?
  }

  /** What discovery makes of subdirectory `sub` of the group directory called `group`. */
  function CheckPlugin(commandsDir: Path, group: string, sub: Node): (r: Result<CommandSpec, PluginError>)
    ensures r.Ok? <==> ValidPlugin(sub)
  {
    var missing := MissingFilesOf(Children(sub));
    if missing != [] then Err(MissingFiles(group, sub.name, missing))
    else match LoadMeta(MetaDoc(Children(sub)))
      case Err(e) => Err(InvalidMeta(commandsDir + [group, sub.name, MetaFile], e))
      case Ok(_) =>
        Ok(CommandSpec(SafeName(group), SafeName(sub.name),
                       commandsDir + [group, sub.name, EntryFile], commandsDir + [group, sub.name, MetaFile],
                       group, sub.name))
  }

  /** A subcommand directory lacking a file yields exactly one error naming what is missing. */
  lemma MissingFilesReported(commandsDir: Path, group: string, sub: Node)
    requires !IsFileAt(Children(sub), EntryFile) || !IsFileAt(Children(sub), MetaFile)
    ensures CheckPlugin(commandsDir, group, sub) == Err(MissingFiles(group, sub.name, MissingFilesOf(Children(sub))))
    ensures !IsFileAt(Children(sub), EntryFile) && !IsFileAt(Children(sub), MetaFile) ==>
      ErrorText(CheckPlugin(commandsDir, group, sub).error) == group + "/" + sub.name + ": missing " + EntryFile + ", " + MetaFile
    ensures !IsFileAt(Children(sub), EntryFile) && IsFileAt(Children(sub), MetaFile) ==>
      ErrorText(CheckPlugin(commandsDir, group, sub).error) == group + "/" + sub.name + ": missing " + EntryFile
    ensures IsFileAt(Children(sub), EntryFile) && !IsFileAt(Children(sub), MetaFile) ==>
      ErrorText(CheckPlugin(commandsDir, group, sub).error) == group + "/" + sub.name + ": missing " + MetaFile
  {
    var m := MissingFilesOf(Children(sub));
    if m == [EntryFile, MetaFile] {
      BothMissingText(group, sub.name);
    } else if m == [EntryFile] {
      OneMissingText(group, sub.name, EntryFile);
    } else if m == [MetaFile] {
      OneMissingText(group, sub.name, MetaFile);
    }
  }

  lemma BothMissingText(group: string, name: string)
    ensures ErrorText(MissingFiles(group, name, [EntryFile, MetaFile])) == group + "/" + name + ": missing " + EntryFile + ", " + MetaFile
  {
    assert [EntryFile, MetaFile][..1] == [EntryFile];
    var head := group + "/" + name + ": missing ";
    assert JoinComma([EntryFile, MetaFile]) == EntryFile + ", " + MetaFile;
    assert head + (EntryFile + ", " + MetaFile) == head + EntryFile + ", " + MetaFile;
  }

  lemma OneMissingText(group: string, name: string, file: string)
    ensures ErrorText(MissingFiles(group, name, [file])) == group + "/" + name + ": missing " + file
  {
  }

  /** Discovery's running state: the problems so far and the specs so far. */
  datatype Walk = Walk(errors: seq<PluginError>, specs: Specs)

  /** `specs.setdefault(spec.command, {})[spec.subcommand] = spec`. */
  function AddSpec(specs: Specs, spec: CommandSpec): Specs
  {
    var group := if spec.command in specs then specs[spec.command] else map[];
    specs[spec.command := group[spec.subcommand := spec]]
  }

  function Record(w: Walk, outcome: Result<CommandSpec, PluginError>): Walk
  {
    match outcome
    case Err(e) => w.(errors := w.errors + [e])
    case Ok(spec) => w.(specs := AddSpec(w.specs, spec))
  }

  /** The directories of a listing in the order discovery visits them. */
  function SortedDirs(entries: seq<Node>): seq<Node>
  {
    SortBy(Dirs(entries), NameOf)
  }

  /** The walk over the subcommand directories `subs` of the group directory `group`. */
  function WalkPlugins(w: Walk, commandsDir: Path, group: string, subs: seq<Node>): Walk
  {
    if subs == [] then w
    else Record(WalkPlugins(w, commandsDir, group, subs[..|subs| - 1]),
                CheckPlugin(commandsDir, group, subs[|subs| - 1]))
  }

  /** The walk over the group directories `groups`. */
  function WalkGroups(w: Walk, commandsDir: Path, groups: seq<Node>): Walk
  {
    if groups == [] then w
    else
      var g := groups[|groups| - 1];
      WalkPlugins(WalkGroups(w, commandsDir, groups[..|groups| - 1]), commandsDir, g.name, SortedDirs(Children(g)))
  }

  /** `discover_specs`: `None` stands for a commands directory that does not exist. */
  function DiscoverSpecs(commandsDir: Path, root: Option<seq<Node>>): Result<Specs, DiscoveryError>
  {
    if root.None? then Ok(map[])
    else
      var w := WalkGroups(Walk([], map[]), commandsDir, SortedDirs(root.value));
      if w.errors != [] then Err(DiscoveryError(w.errors)) else Ok(w.specs)
  }

  /** The checks `discover_specs` makes of one subcommand directory before recording it. */
  method CheckPluginDir(commandsDir: Path, importCommand: string, subDir: Node)
    returns (outcome: Result<CommandSpec, PluginError>)
    ensures outcome == CheckPlugin(commandsDir, importCommand, subDir)
  {
    var commandName := SafeName(importCommand);
    var subName := SafeName(subDir.name);
    var importSubcommand := subDir.name;
    var entryPath := commandsDir + [importCommand, importSubcommand, EntryFile];
    var metaPath := commandsDir + [importCommand, importSubcommand, MetaFile];
    var missing: seq<string> := [];
    if !IsFileAt(Children(subDir), EntryFile) {
      missing := missing + [EntryFile];
    }
    if !IsFileAt(Children(subDir), MetaFile) {
      missing := missing + [MetaFile];
    }
    assert missing == MissingFilesOf(Children(subDir));
    if missing != [] {
      return Err(MissingFiles(importCommand, importSubcommand, missing));
    }
    var meta := LoadMeta(MetaDoc(Children(subDir)));
    if meta.Err? {
      return Err(InvalidMeta(metaPath, meta.error));
    }
    return Ok(CommandSpec(commandName, subName, entryPath, metaPath, importCommand, importSubcommand));
  }

  /** One group directory's subcommands, in the order discovery visits them. */
  method WalkGroupDir(commandsDir: Path, importCommand: string, subs: seq<Node>,
                      errors0: seq<PluginError>, specs0: Specs)
    returns (errors: seq<PluginError>, specs: Specs)
    ensures Walk(errors, specs) == WalkPlugins(Walk(errors0, specs0), commandsDir, importCommand, subs)
  {
    errors, specs := errors0, specs0;
    var j := 0;
    while j < |subs|
      invariant 0 <= j <= |subs|
      invariant Walk(errors, specs) == WalkPlugins(Walk(errors0, specs0), commandsDir, importCommand, subs[..j])
    {
      assert subs[..j + 1][..j] == subs[..j];
      var outcome := CheckPluginDir(commandsDir, importCommand, subs[j]);
      match outcome {
        case Err(e) =>
          errors := errors + [e];
        case Ok(spec) =>
          var group := if spec.command in specs then specs[spec.command] else map[];
          specs := specs[spec.command := group[spec.subcommand := spec]];
      }
      j := j + 1;
    }
    assert subs[..j] == subs;
  }

  /** `discover_specs`: `root` is the listing of the commands directory, `None` if it does not exist. */
  method Discover(commandsDir: Path, root: Option<seq<Node>>) returns (r: Result<Specs, DiscoveryError>)
    ensures r == DiscoverSpecs(commandsDir, root)
    ensures root.None? ==> r == Ok(map[])
  {
    var errors: seq<PluginError> := [];
    var specs: Specs := map[];
    if root.None? {
      return Ok(specs);
    }
    var groups := SortedDirs(root.value);
    var i := 0;
    while i < |groups|
      invariant 0 <= i <= |groups|
      invariant Walk(errors, specs) == WalkGroups(Walk([], map[]), commandsDir, groups[..i])
    {
      assert groups[..i + 1][..i] == groups[..i];
      errors, specs := WalkGroupDir(commandsDir, groups[i].name, SortedDirs(Children(groups[i])), errors, specs);
      i := i + 1;
    }
    assert groups[..i] == groups;
    if errors != [] {
      return Err(DiscoveryError(errors));
    }
    return Ok(specs);
  }

  // ---------------------------------------------------------------------------------------
  // What discovery finds

  lemma SortedDirsMembers(entries: seq<Node>)
    ensures forall n :: n in SortedDirs(entries) <==> n in Dirs(entries)
  {
    SortByFacts(Dirs(entries), NameOf);
    forall n ensures n in SortedDirs(entries) <==> n in Dirs(entries) {
      assert n in SortedDirs(entries) <==> n in multiset(SortedDirs(entries));
      assert n in Dirs(entries) <==> n in multiset(Dirs(entries));
    }
  }

  /** 1 for a subcommand directory discovery reports, 0 for one it records. */
  function BrokenOne(sub: Node): nat
  {
    if ValidPlugin(sub) then 0 else 1
  }

  /** How many subcommand directories of group directory `g` discovery reports. */
  function BrokenIn(g: Node): nat
  {
    Sum(Dirs(Children(g)), BrokenOne)
  }

  /** How many subcommand directories under the commands directory discovery reports. */
  function BrokenCount(root: seq<Node>): nat
  {
    Sum(Dirs(root), BrokenIn)
  }

  lemma {:induction false} WalkPluginsErrors(w: Walk, commandsDir: Path, group: string, subs: seq<Node>)
    ensures |WalkPlugins(w, commandsDir, group, subs).errors| == |w.errors| + Sum(subs, BrokenOne)
    decreases |subs|
  {
    if subs != [] {
      WalkPluginsErrors(w, commandsDir, group, subs[..|subs| - 1]);
      WalkPluginsLastError(w, commandsDir, group, subs);
      SumLast(subs, BrokenOne);
    }
  }

  lemma WalkPluginsLastError(w: Walk, commandsDir: Path, group: string, subs: seq<Node>)
    requires subs != []
    ensures |WalkPlugins(w, commandsDir, group, subs).errors|
         == |WalkPlugins(w, commandsDir, group, subs[..|subs| - 1]).errors| + BrokenOne(subs[|subs| - 1])
  {
  }

  lemma {:induction false} WalkGroupsErrors(w: Walk, commandsDir: Path, groups: seq<Node>)
    ensures |WalkGroups(w, commandsDir, groups).errors| == |w.errors| + Sum(groups, BrokenIn)
    decreases |groups|
  {
    if groups != [] {
      var n := |groups|;
      var g := groups[n - 1];
      WalkGroupsErrors(w, commandsDir, groups[..n - 1]);
      WalkPluginsErrors(WalkGroups(w, commandsDir, groups[..n - 1]), commandsDir, g.name, SortedDirs(Children(g)));
      BrokenInSorted(g);
      SumAppend(groups[..n - 1], g, BrokenIn);
      assert groups[..n - 1] + [g] == groups;
    }
  }

  lemma BrokenInSorted(g: Node)
    ensures Sum(SortedDirs(Children(g)), BrokenOne) == BrokenIn(g)
  {
    SortByFacts(Dirs(Children(g)), NameOf);
    SumPermutation(SortedDirs(Children(g)), Dirs(Children(g)), BrokenOne);
  }

  /**
   * Discovery fails exactly when some subcommand directory is broken, and its error then lists
   * one problem per broken directory: problems are collected, not reported one at a time.
   */
  lemma DiscoverReportsEachBrokenPlugin(commandsDir: Path, root: seq<Node>)
    ensures DiscoverSpecs(commandsDir, Some(root)).Err? <==> BrokenCount(root) > 0
    ensures DiscoverSpecs(commandsDir, Some(root)).Err? ==>
      |DiscoverSpecs(commandsDir, Some(root)).error.errors| == BrokenCount(root)
  {
    WalkGroupsErrors(Walk([], map[]), commandsDir, SortedDirs(root));
    SortByFacts(Dirs(root), NameOf);
    SumPermutation(SortedDirs(root), Dirs(root), BrokenIn);
  }

  /** The walk over one group's subdirectories keeps the earlier problems and adds exactly the broken directories' own. */
  lemma {:induction false} WalkPluginsErrorsFrom(w: Walk, commandsDir: Path, group: string, subs: seq<Node>, e: PluginError)
    ensures e in WalkPlugins(w, commandsDir, group, subs).errors <==>
      || e in w.errors
      || exists x :: x in subs && !ValidPlugin(x) && e == CheckPlugin(commandsDir, group, x).error
    decreases |subs|
  {
    if subs != [] {
      var n := |subs|;
      var x := subs[n - 1];
      WalkPluginsErrorsFrom(w, commandsDir, group, subs[..n - 1], e);
      assert subs == subs[..n - 1] + [x];
      if exists y :: y in subs && !ValidPlugin(y) && e == CheckPlugin(commandsDir, group, y).error {
        var y :| y in subs && !ValidPlugin(y) && e == CheckPlugin(commandsDir, group, y).error;
        if y != x {
          InInit(subs, y);
        }
      }
    }
  }

  /** `e` is the error of a broken subcommand directory of group directory `g`. */
  ghost predicate BrokenErrorIn(commandsDir: Path, g: Node, e: PluginError)
  {
    exists x :: x in Dirs(Children(g)) && !ValidPlugin(x) && e == CheckPlugin(commandsDir, g.name, x).error
  }

  lemma SortedBrokenError(commandsDir: Path, g: Node, e: PluginError)
    ensures (exists x :: x in SortedDirs(Children(g)) && !ValidPlugin(x) && e == CheckPlugin(commandsDir, g.name, x).error)
        <==> BrokenErrorIn(commandsDir, g, e)
  {
    SortedDirsMembers(Children(g));
  }

  /** The walk over the group directories keeps the earlier problems and adds exactly the broken directories' own. */
  lemma {:induction false} WalkGroupsErrorsFrom(w: Walk, commandsDir: Path, groups: seq<Node>, e: PluginError)
    ensures e in WalkGroups(w, commandsDir, groups).errors <==>
      e in w.errors || exists g :: g in groups && BrokenErrorIn(commandsDir, g, e)
    decreases |groups|
  {
    if groups != [] {
      var n := |groups|;
      var g := groups[n - 1];
      WalkGroupsErrorsFrom(w, commandsDir, groups[..n - 1], e);
      WalkPluginsErrorsFrom(WalkGroups(w, commandsDir, groups[..n - 1]), commandsDir, g.name, SortedDirs(Children(g)), e);
      SortedBrokenError(commandsDir, g, e);
      if exists h :: h in groups && BrokenErrorIn(commandsDir, h, e) {
        var h :| h in groups && BrokenErrorIn(commandsDir, h, e);
        if h != g {
          InInit(groups, h);
        }
      }
      if exists h :: h in groups[..n - 1] && BrokenErrorIn(commandsDir, h, e) {
        var h :| h in groups[..n - 1] && BrokenErrorIn(commandsDir, h, e);
        assert h in groups;
      }
    }
  }

  lemma SortedBrokenGroups(commandsDir: Path, root: seq<Node>, e: PluginError)
    ensures (exists g :: g in SortedDirs(root) && BrokenErrorIn(commandsDir, g, e)) <==>
      exists g, x :: g in Dirs(root) && x in Dirs(Children(g)) && !ValidPlugin(x) && e == CheckPlugin(commandsDir, g.name, x).error
  {
    if exists g :: g in SortedDirs(root) && BrokenErrorIn(commandsDir, g, e) {
      var g :| g in SortedDirs(root) && BrokenErrorIn(commandsDir, g, e);
      SortedGroupBroken(commandsDir, root, g, e);
    }
    if exists g, x :: g in Dirs(root) && x in Dirs(Children(g)) && !ValidPlugin(x) && e == CheckPlugin(commandsDir, g.name, x).error {
      var g, x :| g in Dirs(root) && x in Dirs(Children(g)) && !ValidPlugin(x) && e == CheckPlugin(commandsDir, g.name, x).error;
      BrokenSortedGroup(commandsDir, root, g, x, e);
    }
  }

  lemma SortedGroupBroken(commandsDir: Path, root: seq<Node>, g: Node, e: PluginError)
    requires g in SortedDirs(root) && BrokenErrorIn(commandsDir, g, e)
    ensures exists g, x :: g in Dirs(root) && x in Dirs(Children(g)) && !ValidPlugin(x) && e == CheckPlugin(commandsDir, g.name, x).error
  {
    SortedDirsMembers(root);
    var x :| x in Dirs(Children(g)) && !ValidPlugin(x) && e == CheckPlugin(commandsDir, g.name, x).error;
    assert g in Dirs(root);
  }

  lemma BrokenSortedGroup(commandsDir: Path, root: seq<Node>, g: Node, x: Node, e: PluginError)
    requires g in Dirs(root) && x in Dirs(Children(g)) && !ValidPlugin(x) && e == CheckPlugin(commandsDir, g.name, x).error
    ensures exists g :: g in SortedDirs(root) && BrokenErrorIn(commandsDir, g, e)
  {
    SortedDirsMembers(root);
    assert g in SortedDirs(root);
    assert BrokenErrorIn(commandsDir, g, e);
  }

  /**
   * When discovery fails, the problems it lists are exactly the broken subcommand directories'
   * own errors: each broken directory's error is there, and nothing else is.
   */
  lemma DiscoverListsBrokenPlugins(commandsDir: Path, root: seq<Node>, e: PluginError)
    requires DiscoverSpecs(commandsDir, Some(root)).Err?
    ensures e in DiscoverSpecs(commandsDir, Some(root)).error.errors <==>
      exists g, x :: g in Dirs(root) && x in Dirs(Children(g)) && !ValidPlugin(x) && e == CheckPlugin(commandsDir, g.name, x).error
  {
    var w := WalkGroups(Walk([], map[]), commandsDir, SortedDirs(root));
    assert DiscoverSpecs(commandsDir, Some(root)).error.errors == w.errors;
    WalkGroupsErrorsFrom(Walk([], map[]), commandsDir, SortedDirs(root), e);
    SortedBrokenGroups(commandsDir, root, e);
  }

  /** Discovery succeeds exactly when every subcommand directory holds both files and a valid descriptor. */
  lemma DiscoverOkIffAllValid(commandsDir: Path, root: seq<Node>)
    ensures DiscoverSpecs(commandsDir, Some(root)).Ok? <==>
      forall g, sub :: g in Dirs(root) && sub in Dirs(Children(g)) ==> ValidPlugin(sub)
  {
    DiscoverReportsEachBrokenPlugin(commandsDir, root);
    SumZero(Dirs(root), BrokenIn);
    forall g | g in Dirs(root)
      ensures BrokenIn(g) == 0 <==> forall sub :: sub in Dirs(Children(g)) ==> ValidPlugin(sub)
    {
      SumZero(Dirs(Children(g)), BrokenOne);
    }
  }

  /** Some group directory called `group` holds a subcommand directory called `sub` that discovery accepts. */
  ghost predicate HasValidPlugin(root: seq<Node>, group: string, sub: string)
  {
    exists g, s :: g in Dirs(root) && s in Dirs(Children(g)) && g.name == group && s.name == sub && ValidPlugin(s)
  }

  /** What a spec recorded under `c` / `s` promises: matching names and paths, and a valid directory behind it. */
  ghost predicate Backed(commandsDir: Path, root: seq<Node>, c: string, s: string, spec: CommandSpec)
  {
    && spec.command == c && spec.subcommand == s
    && c == SafeName(spec.importCommand) && s == SafeName(spec.importSubcommand)
    && spec.entryPath == commandsDir + [spec.importCommand, spec.importSubcommand, EntryFile]
    && spec.metaPath == commandsDir + [spec.importCommand, spec.importSubcommand, MetaFile]
    && HasValidPlugin(root, spec.importCommand, spec.importSubcommand)
  }

  /** Every recorded spec is backed, and every group in the table has at least one subcommand. */
  ghost predicate Sound(commandsDir: Path, root: seq<Node>, specs: Specs)
  {
    && (forall c :: c in specs ==> specs[c] != map[])
    && (forall c, s :: c in specs && s in specs[c] ==> Backed(commandsDir, root, c, s, specs[c][s]))
  }

  /** `c` / `s` is a name pair the table answers. */
  ghost predicate Listed(specs: Specs, c: string, s: string)
  {
    c in specs && s in specs[c]
  }

  /** Recording a spec leaves no group without subcommands. */
  lemma AddSpecNonEmpty(specs: Specs, spec: CommandSpec)
    requires forall c :: c in specs ==> specs[c] != map[]
    ensures forall c :: c in AddSpec(specs, spec) ==> AddSpec(specs, spec)[c] != map[]
  {
    var after := AddSpec(specs, spec);
    forall c | c in after
      ensures after[c] != map[]
    {
      if c == spec.command {
        assert spec.subcommand in after[c];
      } else {
        assert after[c] == specs[c];
      }
    }
  }

  lemma AddSpecSound(commandsDir: Path, root: seq<Node>, specs: Specs, spec: CommandSpec)
    requires Sound(commandsDir, root, specs)
    requires Backed(commandsDir, root, spec.command, spec.subcommand, spec)
    ensures Sound(commandsDir, root, AddSpec(specs, spec))
  {
    var after := AddSpec(specs, spec);
    AddSpecNonEmpty(specs, spec);
    forall c, s | c in after && s in after[c]
      ensures Backed(commandsDir, root, c, s, after[c][s])
    {
      if c != spec.command || s != spec.subcommand {
        assert after[c][s] == specs[c][s];
      }
    }
  }

  lemma AddSpecListed(specs: Specs, spec: CommandSpec)
    ensures Listed(AddSpec(specs, spec), spec.command, spec.subcommand)
    ensures forall c, s :: Listed(specs, c, s) ==> Listed(AddSpec(specs, spec), c, s)
  {
  }

  lemma {:induction false} WalkPluginsSound(w: Walk, commandsDir: Path, root: seq<Node>, g: Node, subs: seq<Node>)
    requires g in Dirs(root)
    requires forall x :: x in subs ==> x in Dirs(Children(g))
    requires Sound(commandsDir, root, w.specs)
    ensures Sound(commandsDir, root, WalkPlugins(w, commandsDir, g.name, subs).specs)
    decreases |subs|
  {
    if subs != [] {
      var n := |subs|;
      var x := subs[n - 1];
      WalkPluginsSound(w, commandsDir, root, g, subs[..n - 1]);
      var outcome := CheckPlugin(commandsDir, g.name, x);
      if outcome.Ok? {
        assert x in subs;
        PluginBacked(commandsDir, root, g, x);
        AddSpecSound(commandsDir, root, WalkPlugins(w, commandsDir, g.name, subs[..n - 1]).specs, outcome.value);
      }
    }
  }

  lemma PluginBacked(commandsDir: Path, root: seq<Node>, g: Node, x: Node)
    requires g in Dirs(root) && x in Dirs(Children(g))
    requires CheckPlugin(commandsDir, g.name, x).Ok?
    ensures Backed(commandsDir, root, CheckPlugin(commandsDir, g.name, x).value.command,
                   CheckPlugin(commandsDir, g.name, x).value.subcommand, CheckPlugin(commandsDir, g.name, x).value)
  {
    assert ValidPlugin(x);
    assert HasValidPlugin(root, g.name, x.name);
  }

  lemma {:induction false} WalkPluginsListed(w: Walk, commandsDir: Path, group: string, subs: seq<Node>)
    ensures forall c, s :: Listed(w.specs, c, s) ==> Listed(WalkPlugins(w, commandsDir, group, subs).specs, c, s)
    ensures forall x :: x in subs && ValidPlugin(x) ==>
      Listed(WalkPlugins(w, commandsDir, group, subs).specs, SafeName(group), SafeName(x.name))
  {
    forall c, s | Listed(w.specs, c, s)
      ensures Listed(WalkPlugins(w, commandsDir, group, subs).specs, c, s)
    {
      WalkPluginsKeepsListed(w, commandsDir, group, subs, c, s);
    }
    forall x | x in subs && ValidPlugin(x)
      ensures Listed(WalkPlugins(w, commandsDir, group, subs).specs, SafeName(group), SafeName(x.name))
    {
      WalkPluginsListsValid(w, commandsDir, group, subs, x);
    }
  }

  lemma {:induction false} WalkPluginsKeepsListed(w: Walk, commandsDir: Path, group: string, subs: seq<Node>, c: string, s: string)
    requires Listed(w.specs, c, s)
    ensures Listed(WalkPlugins(w, commandsDir, group, subs).specs, c, s)
    decreases |subs|
  {
    if subs != [] {
      WalkPluginsKeepsListed(w, commandsDir, group, subs[..|subs| - 1], c, s);
      WalkPluginsLastListed(w, commandsDir, group, subs);
    }
  }

  lemma {:induction false} WalkPluginsListsValid(w: Walk, commandsDir: Path, group: string, subs: seq<Node>, x: Node)
    requires x in subs && ValidPlugin(x)
    ensures Listed(WalkPlugins(w, commandsDir, group, subs).specs, SafeName(group), SafeName(x.name))
    decreases |subs|
  {
    WalkPluginsLastListed(w, commandsDir, group, subs);
    if x != subs[|subs| - 1] {
      InInit(subs, x);
      WalkPluginsListsValid(w, commandsDir, group, subs[..|subs| - 1], x);
    }
  }

  lemma WalkPluginsLastListed(w: Walk, commandsDir: Path, group: string, subs: seq<Node>)
    requires subs != []
    ensures forall c, s :: Listed(WalkPlugins(w, commandsDir, group, subs[..|subs| - 1]).specs, c, s) ==>
      Listed(WalkPlugins(w, commandsDir, group, subs).specs, c, s)
    ensures ValidPlugin(subs[|subs| - 1]) ==>
      Listed(WalkPlugins(w, commandsDir, group, subs).specs, SafeName(group), SafeName(subs[|subs| - 1].name))
  {
    var outcome := CheckPlugin(commandsDir, group, subs[|subs| - 1]);
    if outcome.Ok? {
      AddSpecListed(WalkPlugins(w, commandsDir, group, subs[..|subs| - 1]).specs, outcome.value);
    }
  }

  lemma {:induction false} WalkGroupsSound(w: Walk, commandsDir: Path, root: seq<Node>, groups: seq<Node>)
    requires forall g :: g in groups ==> g in Dirs(root)
    requires Sound(commandsDir, root, w.specs)
    ensures Sound(commandsDir, root, WalkGroups(w, commandsDir, groups).specs)
    decreases |groups|
  {
    if groups != [] {
      var n := |groups|;
      var g := groups[n - 1];
      WalkGroupsSound(w, commandsDir, root, groups[..n - 1]);
      SortedDirsMembers(Children(g));
      WalkPluginsSound(WalkGroups(w, commandsDir, groups[..n - 1]), commandsDir, root, g, SortedDirs(Children(g)));
    }
  }

  lemma {:induction false} WalkGroupsListed(w: Walk, commandsDir: Path, groups: seq<Node>)
    ensures forall g, x :: g in groups && x in Dirs(Children(g)) && ValidPlugin(x) ==>
      Listed(WalkGroups(w, commandsDir, groups).specs, SafeName(g.name), SafeName(x.name))
    decreases |groups|
  {
    if groups != [] {
      var n := |groups|;
      var g := groups[n - 1];
      var before := WalkGroups(w, commandsDir, groups[..n - 1]);
      WalkGroupsListed(w, commandsDir, groups[..n - 1]);
      SortedDirsMembers(Children(g));
      WalkPluginsListed(before, commandsDir, g.name, SortedDirs(Children(g)));
      forall h, x | h in groups && x in Dirs(Children(h)) && ValidPlugin(x)
        ensures Listed(WalkGroups(w, commandsDir, groups).specs, SafeName(h.name), SafeName(x.name))
      {
        if h != g {
          InInit(groups, h);
        }
      }
    }
  }

  /**
   * Every entry discovery returns is backed by a valid subcommand directory with the names and
   * paths it records.
   */
  lemma DiscoverSpecsSound(commandsDir: Path, root: seq<Node>)
    requires DiscoverSpecs(commandsDir, Some(root)).Ok?
    ensures Sound(commandsDir, root, DiscoverSpecs(commandsDir, Some(root)).value)
  {
    SortedDirsMembers(root);
    WalkGroupsSound(Walk([], map[]), commandsDir, root, SortedDirs(root));
  }

  /** Every subcommand directory under every group directory is reachable under its display names. */
  lemma DiscoverSpecsComplete(commandsDir: Path, root: seq<Node>)
    requires DiscoverSpecs(commandsDir, Some(root)).Ok?
    ensures forall g, sub :: g in Dirs(root) && sub in Dirs(Children(g)) ==>
      Listed(DiscoverSpecs(commandsDir, Some(root)).value, SafeName(g.name), SafeName(sub.name))
  {
    SortedDirsMembers(root);
    WalkGroupsListed(Walk([], map[]), commandsDir, SortedDirs(root));
    DiscoverOkIffAllValid(commandsDir, root);
  }

  // ---------------------------------------------------------------------------------------
  // Loading one subcommand and resolving names

  /** The parts of a click command this code reads or sets. */
  class ClickCommand {
    var name: string
    var shortHelp: Option<string>
    var help: Option<string>
  }

  /**
   * What importing `entry.py` yields: no loader for the file, an exception while executing it,
   * or a module whose `cli` attribute is a click command (`Some`) or is missing or something else (`None`).
   */
  datatype Import = NoLoader | ExecFailed(detail: string) | Loaded(cli: Option<ClickCommand>)

  /** Why a subcommand could not be loaded. */
  datatype LoadError =
    | BadMeta(metaPath: Path, reason: MetaError)
    | ImportFailed(entryPath: Path, detail: Option<string>)
    | BadExport(entryPath: Path)

  function LoadErrorText(e: LoadError): string
  {
    match e
    case BadMeta(path, reason) => MetaErrorText(path, reason)
    case ImportFailed(path, None) => "Failed to import entry.py at " + PathText(path)
    case ImportFailed(path, Some(detail)) => "Failed to import entry.py at " + PathText(path) + ": " + detail
    case BadExport(path) => PathText(path) + " must export 'cli' as a click.Command"
  }

  /**
   * `load_click_command`: `doc` is the descriptor as read now, `imported` what importing the
   * entry module `your_cli.commands.<group>.<subcommand>.entry` yields. On success the exported command carries the
   * descriptor's `shortHelp` as both its short help and its help.
   */
  method LoadClickCommand(spec: CommandSpec, doc: Yaml, imported: Import) returns (r: Result<ClickCommand, LoadError>)
    modifies if imported.Loaded? && imported.cli.Some? then {imported.cli.value} else {}
    ensures r.Ok? <==> LoadMeta(doc).Ok? && imported.Loaded? && imported.cli.Some?
    ensures LoadMeta(doc).Err? ==> r == Err(BadMeta(spec.metaPath, LoadMeta(doc).error))
    ensures LoadMeta(doc).Ok? && imported == NoLoader ==> r == Err(ImportFailed(spec.entryPath, None))
    ensures LoadMeta(doc).Ok? && imported.ExecFailed? ==> r == Err(ImportFailed(spec.entryPath, Some(imported.detail)))
    ensures LoadMeta(doc).Ok? && imported == Loaded(None) ==> r == Err(BadExport(spec.entryPath))
    ensures r.Ok? ==> r.value == imported.cli.value && r.value.name == old(r.value.name)
    ensures r.Ok? ==> r.value.shortHelp == r.value.help == Some(doc.fields["shortHelp"].text)
    ensures r.Ok? ==> !Blank(r.value.shortHelp.value)
    ensures r.Err? && imported.Loaded? && imported.cli.Some? ==> unchanged(imported.cli.value)
  {
    var meta := LoadMeta(doc);
    if meta.Err? {
      return Err(BadMeta(spec.metaPath, meta.error));
    }
    match imported {
      case NoLoader =>
        return Err(ImportFailed(spec.entryPath, None));
      case ExecFailed(detail) =>
        return Err(ImportFailed(spec.entryPath, Some(detail)));
      case Loaded(cli) =>
        if cli.None? {
          return Err(BadExport(spec.entryPath));
        }
        var command := cli.value;
        command.shortHelp := Some(meta.value["shortHelp"].text);
        command.help := Some(meta.value["shortHelp"].text);
        return Ok(command);
    }
  }

  /** `LazySubGroup`: the subcommands of one discovered group, loaded only when asked for. */
  datatype LazySubGroup = LazySubGroup(name: string, specs: map<string, CommandSpec>)
  {
    /** `list_commands`: the subcommand names in sorted order, each once. */
    ghost function ListCommands(): (r: seq<string>)
      ensures SortedBy(r, Id)
      ensures multiset(r) == multiset(specs.Keys)
    {
      SortedSet(specs.Keys)
    }

    /** `get_command`: nothing for an unknown name, else the loaded command (or why loading failed). */
    method GetCommand(cmdName: string, doc: Yaml, imported: Import) returns (r: Result<Option<ClickCommand>, LoadError>)
      modifies if imported.Loaded? && imported.cli.Some? then {imported.cli.value} else {}
      ensures cmdName !in specs ==> r == Ok(None)
      ensures cmdName in specs && LoadMeta(doc).Err? ==> r == Err(BadMeta(specs[cmdName].metaPath, LoadMeta(doc).error))
      ensures cmdName in specs && r.Ok? ==> r.value.Some?
      ensures r.Ok? && r.value.Some? <==> cmdName in specs && LoadMeta(doc).Ok? && imported.Loaded? && imported.cli.Some?
      ensures cmdName in specs && LoadMeta(doc).Ok? && imported == NoLoader ==>
        r == Err(ImportFailed(specs[cmdName].entryPath, None))
      ensures cmdName in specs && LoadMeta(doc).Ok? && imported.ExecFailed? ==>
        r == Err(ImportFailed(specs[cmdName].entryPath, Some(imported.detail)))
      ensures cmdName in specs && LoadMeta(doc).Ok? && imported == Loaded(None) ==>
        r == Err(BadExport(specs[cmdName].entryPath))
      ensures r.Ok? && r.value.Some? ==>
        && r.value.value == imported.cli.value
        && r.value.value.name == old(r.value.value.name)
        && r.value.value.shortHelp == r.value.value.help == Some(doc.fields["shortHelp"].text)
      ensures !(r.Ok? && r.value.Some?) && imported.Loaded? && imported.cli.Some? ==> unchanged(imported.cli.value)
    {
      if cmdName !in specs {
        return Ok(None);
      }
      var loaded := LoadClickCommand(specs[cmdName], doc, imported);
      if loaded.Err? {
        return Err(loaded.error);
      }
      return Ok(Some(loaded.value));
    }
  }

  /** A name the root command resolves: the built-in group, or a discovered one. */
  datatype Resolved = BuiltinDev(group: ClickCommand) | Discovered(sub: LazySubGroup)

  /** `RootCommand` once constructed: where it looked, the built-in `dev` group, and what it discovered. */
  datatype RootCommand = RootCommand(commandsDir: Path, devGroup: ClickCommand, specs: Specs)
  {
    /** `list_commands`: every discovered group and "dev", sorted; "dev" appears twice if a group is also called so. */
    ghost function ListCommands(): (r: seq<string>)
      ensures SortedBy(r, Id)
      ensures multiset(r) == multiset(specs.Keys) + multiset{"dev"}
    {
      var dynamic := SortedSet(specs.Keys);
      SortByFacts(dynamic + ["dev"], Id);
      SortBy(dynamic + ["dev"], Id)
    }

    /** `get_command`: "dev" is always the built-in group; other names resolve to discovered groups. */
    function GetCommand(cmdName: string): (r: Option<Resolved>)
      ensures cmdName == "dev" ==> r == Some(BuiltinDev(devGroup))
      ensures r.None? <==> cmdName != "dev" && cmdName !in specs
      ensures r.Some? && r.value.Discovered? ==>
        cmdName != "dev" && r.value.sub == LazySubGroup(cmdName, specs[cmdName])
      ensures cmdName != "dev" && cmdName in specs ==> r == Some(Discovered(LazySubGroup(cmdName, specs[cmdName])))
    {
      if cmdName == "dev" then Some(BuiltinDev(devGroup))
      else if cmdName !in specs then None
      else Some(Discovered(LazySubGroup(cmdName, specs[cmdName])))
    }
  }

  /** `RootCommand(commands_dir, dev_group)`: construction runs discovery and fails when it fails. */
  method NewRootCommand(commandsDir: Path, devGroup: ClickCommand, root: Option<seq<Node>>)
    returns (r: Result<RootCommand, DiscoveryError>)
    ensures r.Ok? <==> DiscoverSpecs(commandsDir, root).Ok?
    ensures r.Ok? ==> r.value == RootCommand(commandsDir, devGroup, DiscoverSpecs(commandsDir, root).value)
    ensures r.Err? ==> r.error == DiscoverSpecs(commandsDir, root).error
  {
    var specs := Discover(commandsDir, root);
    if specs.Err? {
      return Err(specs.error);
    }
    return Ok(RootCommand(commandsDir, devGroup, specs.value));
  }

  /** Every name the root command lists resolves to something, and nothing else does. */
  lemma RootListsWhatResolves(cmd: RootCommand, cmdName: string)
    ensures cmdName in cmd.ListCommands() <==> cmd.GetCommand(cmdName).Some?
  {
    var r := cmd.ListCommands();
    assert cmdName in r <==> cmdName in multiset(r);
  }

  /** A discovered group called "dev" is listed twice yet can never be reached. */
  lemma DevGroupShadowed(cmd: RootCommand)
    requires "dev" in cmd.specs
    ensures multiset(cmd.ListCommands())["dev"] == 2
    ensures cmd.GetCommand("dev") == Some(BuiltinDev(cmd.devGroup))
  {
  }

  /** Every subcommand name a lazy group lists loads from its own spec, and no other name does. */
  lemma SubGroupListsItsSpecs(g: LazySubGroup, cmdName: string)
    ensures cmdName in g.ListCommands() <==> cmdName in g.specs
  {
    var r := g.ListCommands();
    assert cmdName in r <==> cmdName in multiset(r);
  }

  /**
   * After a successful discovery, every subcommand directory is reachable from the root command
   * under its display names, except under a group directory whose display name is "dev".
   */
  lemma DiscoveredPluginReachable(commandsDir: Path, devGroup: ClickCommand, root: seq<Node>, g: Node, sub: Node)
    requires DiscoverSpecs(commandsDir, Some(root)).Ok?
    requires g in Dirs(root) && sub in Dirs(Children(g))
    ensures var cmd := RootCommand(commandsDir, devGroup, DiscoverSpecs(commandsDir, Some(root)).value);
      var found := cmd.GetCommand(SafeName(g.name));
      && found.Some?
      && (SafeName(g.name) != "dev" ==> found.value.Discovered? && SafeName(sub.name) in found.value.sub.specs)
  {
    DiscoverSpecsComplete(commandsDir, root);
  }
}
