/**
 * The packaging filter (scripts/filter_commands.py): before a build, find the command
 * directories whose descriptor does not say `packaged: true`, so that they can be moved out
 * of the package. A top-level group with such a descriptor is excluded whole; below it,
 * subcommand directories are scanned recursively, to a fixed depth, and a directory that is
 * excluded is not looked into.
 */
module Packaging {
  import opened Base
  import opened Ordering
  import opened Tree

  /** The default `max_depth` of `scan_subcommands`, the one the top-level scan uses. */
  const MaxDepth := 5

  /** The lenient `load_meta`: the parsed mapping, or `{}` when the file cannot be read or is not a mapping. */
  function LenientMeta(meta: Option<Node>): (r: map<string, YamlValue>)
    ensures meta.Some? && meta.value.File? && meta.value.doc.Mapping? ==> r == meta.value.doc.fields
    ensures !(meta.Some? && meta.value.File? && meta.value.doc.Mapping?) ==> r == map[]
  {
    match meta
    case Some(File(_, Mapping(fields))) => fields
    case _ => map[]
  }

  /** `should_package` for the `meta.yaml` of a listing: `packaged` is the boolean `true` itself. */
  predicate ShouldPackage(entries: seq<Node>)
  {
    var meta := LenientMeta(Lookup(entries, MetaFile));
    "packaged" in meta && meta["packaged"] == YBool(true)
  }

  /** Anything but a readable mapping with `packaged: true` leaves a directory out of the package. */
  lemma NotPackagedByDefault(entries: seq<Node>)
    ensures !ShouldPackage(entries) <==>
      || Lookup(entries, MetaFile).None?
      || Lookup(entries, MetaFile).value.Dir?
      || !Lookup(entries, MetaFile).value.doc.Mapping?
      || "packaged" !in Lookup(entries, MetaFile).value.doc.fields
      || Lookup(entries, MetaFile).value.doc.fields["packaged"] != YBool(true)
  {
    var m := Lookup(entries, MetaFile);
    if m.Some? && m.value.File? && m.value.doc.Mapping? {
      assert LenientMeta(m) == m.value.doc.fields;
    }
  }

  /** `entry.py` and `meta.yaml` both exist (as anything) in a listing. */
  predicate HasPluginFiles(entries: seq<Node>)
  {
    ExistsAt(entries, EntryFile) && ExistsAt(entries, MetaFile)
  }

  /** A top-level group whose descriptor exists and does not ask to be packaged. */
  predicate GroupOptedOut(g: Node)
  {
    ExistsAt(Children(g), MetaFile) && !ShouldPackage(Children(g))
  }

  lemma SortedMembers(entries: seq<Node>)
    ensures forall n :: n in SortBy(entries, NameOf) <==> n in entries
  {
    SortByFacts(entries, NameOf);
    forall n ensures n in SortBy(entries, NameOf) <==> n in entries {
      assert n in SortBy(entries, NameOf) <==> n in multiset(SortBy(entries, NameOf));
      assert n in entries <==> n in multiset(entries);
    }
  }

  // ---------------------------------------------------------------------------------------
  // The scan, as functions

  /** `scan_subcommands(parent, max_depth, depth)` over the listing `entries` of `parent`. */
  ghost function Scan(parent: Path, entries: seq<Node>, maxDepth: int, depth: int): seq<Path>
    decreases entries, 2
  {
    if depth >= maxDepth then []
    else
      SortedMembers(entries);
      ScanList(parent, entries, SortBy(entries, NameOf), maxDepth, depth)
  }

  /** The scan's output for the first entries `subs` it visits. */
  ghost function ScanList(parent: Path, entries: seq<Node>, subs: seq<Node>, maxDepth: int, depth: int): seq<Path>
    requires forall n :: n in subs ==> n in entries
    decreases entries, 1, |subs|
  {
    if subs == [] then []
    else
      ScanList(parent, entries, subs[..|subs| - 1], maxDepth, depth)
      + ScanOne(parent, entries, subs[|subs| - 1], maxDepth, depth)
  }

  /** What the scan reports for one entry `n` of `parent`. */
  ghost function ScanOne(parent: Path, entries: seq<Node>, n: Node, maxDepth: int, depth: int): seq<Path>
    requires n in entries
    decreases entries, 0
  {
    if !n.Dir? || Hidden(n.name) then []
    else if HasPluginFiles(n.children) && !ShouldPackage(n.children) then [parent + [n.name]]
    else if HasPluginFiles(n.children) then Scan(parent + [n.name], n.children, maxDepth, depth + 1)
    else []
  }

  /** What the top-level scan reports for one entry `g` of the commands directory. */
  ghost function TopOne(commandsDir: Path, g: Node): seq<Path>
  {
    if !g.Dir? || Hidden(g.name) then []
    else if GroupOptedOut(g) then [commandsDir + [g.name]]
    else Scan(commandsDir + [g.name], g.children, MaxDepth, 0)
  }

  ghost function TopList(commandsDir: Path, groups: seq<Node>): seq<Path>
  {
    if groups == [] then []
    else TopList(commandsDir, groups[..|groups| - 1]) + TopOne(commandsDir, groups[|groups| - 1])
  }

  /** `find_commands_to_exclude`: `root` is the listing of the commands directory, `None` if it does not exist. */
  ghost function Exclusions(commandsDir: Path, root: Option<seq<Node>>): seq<Path>
  {
    if root.None? then [] else TopList(commandsDir, SortBy(root.value, NameOf))
  }

  // ---------------------------------------------------------------------------------------
  // The scan, as the script runs it

  /** `scan_subcommands`: visit the entries in name order, report or descend, collect the paths. */
  method ScanSubcommands(parentDir: Path, entries: seq<Node>, maxDepth: int, currentDepth: int)
    returns (excluded: seq<Path>)
    ensures excluded == Scan(parentDir, entries, maxDepth, currentDepth)
    decreases entries
  {
    if currentDepth >= maxDepth {
      return [];
    }
    excluded := [];
    var subs := SortBy(entries, NameOf);
    SortedMembers(entries);
    var i := 0;
    while i < |subs|
      invariant 0 <= i <= |subs|
      invariant excluded == ScanList(parentDir, entries, subs[..i], maxDepth, currentDepth)
    {
      var subDir := subs[i];
      assert subs[..i + 1][..i] == subs[..i];
      if subDir.Dir? && !Hidden(subDir.name) {
        var entryExists := ExistsAt(subDir.children, EntryFile);
        var metaExists := ExistsAt(subDir.children, MetaFile);
        if entryExists && metaExists && !ShouldPackage(subDir.children) {
          excluded := excluded + [parentDir + [subDir.name]];
        } else if entryExists && metaExists {
          assert subDir in entries;
          var nested := ScanSubcommands(parentDir + [subDir.name], subDir.children, maxDepth, currentDepth + 1);
          excluded := excluded + nested;
        }
      }
      i := i + 1;
    }
    assert subs[..i] == subs;
  }

  /** `find_commands_to_exclude`. */
  method FindCommandsToExclude(commandsDir: Path, root: Option<seq<Node>>) returns (excluded: seq<Path>)
    ensures excluded == Exclusions(commandsDir, root)
    ensures root.None? ==> excluded == []
  {
    if root.None? {
      return [];
    }
    excluded := [];
    var groups := SortBy(root.value, NameOf);
    var i := 0;
    while i < |groups|
      invariant 0 <= i <= |groups|
      invariant excluded == TopList(commandsDir, groups[..i])
    {
      var commandDir := groups[i];
      assert groups[..i + 1][..i] == groups[..i];
      if commandDir.Dir? && !Hidden(commandDir.name) {
        var metaExists := ExistsAt(commandDir.children, MetaFile);
        if metaExists && !ShouldPackage(commandDir.children) {
          excluded := excluded + [commandsDir + [commandDir.name]];
        } else {
          var nested := ScanSubcommands(commandsDir + [commandDir.name], commandDir.children, MaxDepth, 0);
          excluded := excluded + nested;
        }
      }
      i := i + 1;
    }
    assert groups[..i] == groups;
  }

  // ---------------------------------------------------------------------------------------
  // Which paths are reported, stated directly

  /** Entry `n` of a listing scanned with `budget` levels to go reports the relative path `rel`. */
  ghost predicate NodeReports(n: Node, rel: seq<string>, budget: int)
    decreases n
  {
    && n.Dir? && !Hidden(n.name) && HasPluginFiles(n.children)
    && |rel| >= 1 && rel[0] == n.name
    && if |rel| == 1 then !ShouldPackage(n.children)
       else ShouldPackage(n.children) && ReportedUnder(n.children, rel[1..], budget - 1)
  }

  /**
   * A scan of `entries` with `budget` levels to go reports the relative path `rel`: it walks down
   * visible directories that hold both files and ask to be packaged, and ends at a visible
   * directory that holds both files and does not, at most `budget` levels down.
   */
  ghost predicate ReportedUnder(entries: seq<Node>, rel: seq<string>, budget: int)
    decreases entries
  {
    budget >= 1 && exists n {:trigger NodeReports(n, rel, budget)} :: n in entries && NodeReports(n, rel, budget)
  }

  /** Top-level entry `g` reports `rel`: itself when it opts out, else what the scan below it reports. */
  ghost predicate GroupReports(g: Node, rel: seq<string>)
  {
    && g.Dir? && !Hidden(g.name)
    && |rel| >= 1 && rel[0] == g.name
    && if |rel| == 1 then GroupOptedOut(g)
       else !GroupOptedOut(g) && ReportedUnder(g.children, rel[1..], MaxDepth)
  }

  /** The commands directory with listing `root` has `rel` excluded from the package. */
  ghost predicate ExcludedRel(root: seq<Node>, rel: seq<string>)
  {
    exists g :: g in root && GroupReports(g, rel)
  }

  /** `p` is `base` followed by the relative path `p[|base|..]`, which is not empty. */
  predicate Below(base: Path, p: Path)
  {
    |p| > |base| && p[..|base|] == base
  }

  lemma BelowStep(base: Path, x: string, p: Path)
    ensures Below(base + [x], p) <==> Below(base, p) && p[|base|] == x && |p| > |base| + 1
    ensures Below(base + [x], p) ==> p[|base| + 1..] == p[|base|..][1..]
  {
    if |p| > |base| + 1 && p[..|base|] == base && p[|base|] == x {
      assert p[..|base| + 1] == p[..|base|] + [p[|base|]];
    }
    if Below(base + [x], p) {
      assert p[..|base|] == p[..|base| + 1][..|base|];
      assert p[|base|] == p[..|base| + 1][|base|];
    }
  }

  lemma OneStep(base: Path, x: string, p: Path)
    ensures p == base + [x] <==> Below(base, p) && |p| == |base| + 1 && p[|base|] == x
  {
    if Below(base, p) && |p| == |base| + 1 && p[|base|] == x {
      assert p == p[..|base|] + [p[|base|]];
    }
  }

  lemma {:induction false} ScanIff(parent: Path, entries: seq<Node>, maxDepth: int, depth: int, p: Path)
    ensures p in Scan(parent, entries, maxDepth, depth) <==>
      Below(parent, p) && ReportedUnder(entries, p[|parent|..], maxDepth - depth)
    decreases entries, 3
  {
    if depth < maxDepth {
      var subs := SortBy(entries, NameOf);
      SortedMembers(entries);
      ScanListIff(parent, entries, subs, maxDepth, depth, p);
      if p in Scan(parent, entries, maxDepth, depth) {
        var n :| n in subs && Below(parent, p) && NodeReports(n, p[|parent|..], maxDepth - depth);
      }
      if Below(parent, p) && ReportedUnder(entries, p[|parent|..], maxDepth - depth) {
        var n :| n in entries && NodeReports(n, p[|parent|..], maxDepth - depth);
        assert n in subs;
      }
    }
  }

  lemma {:induction false} ScanListIff(parent: Path, entries: seq<Node>, subs: seq<Node>, maxDepth: int, depth: int, p: Path)
    requires forall n :: n in subs ==> n in entries
    requires depth < maxDepth
    ensures p in ScanList(parent, entries, subs, maxDepth, depth) <==>
      exists n :: n in subs && Below(parent, p) && NodeReports(n, p[|parent|..], maxDepth - depth)
    decreases entries, 2, |subs|
  {
    if subs != [] {
      var k := |subs| - 1;
      var last := subs[k];
      assert forall n :: n in subs[..k] ==> n in subs;
      ScanListIff(parent, entries, subs[..k], maxDepth, depth, p);
      ScanOneIff(parent, entries, last, maxDepth, depth, p);
      assert ScanList(parent, entries, subs, maxDepth, depth)
          == ScanList(parent, entries, subs[..k], maxDepth, depth) + ScanOne(parent, entries, last, maxDepth, depth);
      if exists n :: n in subs && Below(parent, p) && NodeReports(n, p[|parent|..], maxDepth - depth) {
        var n :| n in subs && Below(parent, p) && NodeReports(n, p[|parent|..], maxDepth - depth);
        if n != last {
          InInit(subs, n);
        }
      }
    }
  }

  lemma {:induction false} ScanOneIff(parent: Path, entries: seq<Node>, n: Node, maxDepth: int, depth: int, p: Path)
    requires n in entries
    requires depth < maxDepth
    ensures p in ScanOne(parent, entries, n, maxDepth, depth) <==>
      Below(parent, p) && NodeReports(n, p[|parent|..], maxDepth - depth)
    decreases entries, 1
  {
    if n.Dir? && !Hidden(n.name) && HasPluginFiles(n.children) {
      if !ShouldPackage(n.children) {
        assert ScanOne(parent, entries, n, maxDepth, depth) == [parent + [n.name]];
        ReportIff(parent, n, maxDepth - depth, p);
      } else {
        assert ScanOne(parent, entries, n, maxDepth, depth) == Scan(parent + [n.name], n.children, maxDepth, depth + 1);
        DescendIff(parent, entries, n, maxDepth, depth, p);
      }
    } else {
      assert ScanOne(parent, entries, n, maxDepth, depth) == [];
    }
  }

  lemma ReportIff(parent: Path, n: Node, budget: int, p: Path)
    requires n.Dir? && !Hidden(n.name) && HasPluginFiles(n.children) && !ShouldPackage(n.children)
    ensures p == parent + [n.name] <==> Below(parent, p) && NodeReports(n, p[|parent|..], budget)
  {
    OneStep(parent, n.name, p);
    if Below(parent, p) {
      var rel := p[|parent|..];
      assert |rel| == |p| - |parent| && rel[0] == p[|parent|];
    }
  }

  lemma {:induction false} DescendIff(parent: Path, entries: seq<Node>, n: Node, maxDepth: int, depth: int, p: Path)
    requires n in entries && n.Dir? && !Hidden(n.name) && HasPluginFiles(n.children) && ShouldPackage(n.children)
    ensures p in Scan(parent + [n.name], n.children, maxDepth, depth + 1) <==>
      Below(parent, p) && NodeReports(n, p[|parent|..], maxDepth - depth)
    decreases entries, 0
  {
    calc {
      p in Scan(parent + [n.name], n.children, maxDepth, depth + 1);
    == { ScanIff(parent + [n.name], n.children, maxDepth, depth + 1, p); }
      Below(parent + [n.name], p) && ReportedUnder(n.children, p[|parent + [n.name]|..], maxDepth - (depth + 1));
    == { DescendRel(parent, n, maxDepth - (depth + 1), maxDepth - depth, p); }
      Below(parent, p) && NodeReports(n, p[|parent|..], maxDepth - depth);
    }
  }

  lemma DescendRel(parent: Path, n: Node, inner: int, outer: int, p: Path)
    requires n.Dir? && !Hidden(n.name) && HasPluginFiles(n.children) && ShouldPackage(n.children)
    requires inner == outer - 1
    ensures Below(parent + [n.name], p) && ReportedUnder(n.children, p[|parent + [n.name]|..], inner)
      <==> Below(parent, p) && NodeReports(n, p[|parent|..], outer)
  {
    BelowStep(parent, n.name, p);
    if Below(parent, p) {
      var rel := p[|parent|..];
      assert |rel| == |p| - |parent| && rel[0] == p[|parent|];
      if |p| > |parent| + 1 {
        assert rel[1..] == p[|parent| + 1..];
      }
    }
  }

  lemma TopOneIff(commandsDir: Path, g: Node, p: Path)
    ensures p in TopOne(commandsDir, g) <==> Below(commandsDir, p) && GroupReports(g, p[|commandsDir|..])
  {
    if g.Dir? && !Hidden(g.name) {
      if GroupOptedOut(g) {
        OneStep(commandsDir, g.name, p);
        if Below(commandsDir, p) {
          var rel := p[|commandsDir|..];
          assert |rel| == |p| - |commandsDir| && rel[0] == p[|commandsDir|];
        }
      } else {
        assert TopOne(commandsDir, g) == Scan(commandsDir + [g.name], g.children, MaxDepth, 0);
        ScanIff(commandsDir + [g.name], g.children, MaxDepth, 0, p);
        TopDescendRel(commandsDir, g, p);
      }
    }
  }

  lemma TopDescendRel(commandsDir: Path, g: Node, p: Path)
    requires g.Dir? && !Hidden(g.name) && !GroupOptedOut(g)
    ensures Below(commandsDir + [g.name], p) && ReportedUnder(g.children, p[|commandsDir + [g.name]|..], MaxDepth - 0)
      <==> Below(commandsDir, p) && GroupReports(g, p[|commandsDir|..])
  {
    BelowStep(commandsDir, g.name, p);
    if Below(commandsDir, p) {
      var rel := p[|commandsDir|..];
      assert |rel| == |p| - |commandsDir| && rel[0] == p[|commandsDir|];
      if |p| > |commandsDir| + 1 {
        assert rel[1..] == p[|commandsDir| + 1..];
      }
    }
  }

  lemma {:induction false} TopListIff(commandsDir: Path, groups: seq<Node>, p: Path)
    ensures p in TopList(commandsDir, groups) <==>
      exists g :: g in groups && Below(commandsDir, p) && GroupReports(g, p[|commandsDir|..])
    decreases |groups|
  {
    if groups != [] {
      var k := |groups| - 1;
      TopListIff(commandsDir, groups[..k], p);
      TopOneIff(commandsDir, groups[k], p);
      assert forall g :: g in groups[..k] ==> g in groups;
      if exists g :: g in groups && Below(commandsDir, p) && GroupReports(g, p[|commandsDir|..]) {
        var g :| g in groups && Below(commandsDir, p) && GroupReports(g, p[|commandsDir|..]);
        if g != groups[k] {
          InInit(groups, g);
        }
      }
    }
  }

  /**
   * The paths the scan reports are exactly the ones `ExcludedRel` describes, under the commands
   * directory; a commands directory that does not exist excludes nothing.
   */
  lemma ExclusionsIff(commandsDir: Path, root: seq<Node>, p: Path)
    ensures p in Exclusions(commandsDir, Some(root)) <==>
      Below(commandsDir, p) && ExcludedRel(root, p[|commandsDir|..])
  {
    SortedMembers(root);
    TopListIff(commandsDir, SortBy(root, NameOf), p);
    if Below(commandsDir, p) && ExcludedRel(root, p[|commandsDir|..]) {
      var g :| g in root && GroupReports(g, p[|commandsDir|..]);
      assert g in SortBy(root, NameOf);
    }
  }

  // ---------------------------------------------------------------------------------------
  // Properties of what is reported

  /** A scan with `budget` levels to go reports nothing more than `budget` levels down. */
  lemma {:induction false} ReportedDepth(entries: seq<Node>, rel: seq<string>, budget: int)
    requires ReportedUnder(entries, rel, budget)
    ensures 1 <= |rel| <= budget
    decreases entries
  {
    var n :| n in entries && NodeReports(n, rel, budget);
    if |rel| > 1 {
      ReportedDepth(n.children, rel[1..], budget - 1);
    }
  }

  /** No reported path goes through, or ends at, a hidden name. */
  lemma {:induction false} ReportedVisible(entries: seq<Node>, rel: seq<string>, budget: int)
    requires ReportedUnder(entries, rel, budget)
    ensures forall i :: 0 <= i < |rel| ==> !Hidden(rel[i])
    decreases entries
  {
    var n :| n in entries && NodeReports(n, rel, budget);
    if |rel| > 1 {
      ReportedVisible(n.children, rel[1..], budget - 1);
      forall i | 1 <= i < |rel| ensures !Hidden(rel[i]) {
        assert rel[i] == rel[1..][i - 1];
      }
    }
  }

  /** The entry of a well-formed listing with a given name is unique. */
  lemma SameName(entries: seq<Node>, a: Node, b: Node)
    requires WellFormed(entries) && a in entries && b in entries && a.name == b.name
    ensures a == b
  {
    var i :| 0 <= i < |entries| && entries[i] == a;
    var j :| 0 <= j < |entries| && entries[j] == b;
    if i != j {
      assert false;
    }
  }

  /** Below a reported path nothing else is reported: the scan stops where it excludes. */
  lemma {:induction false} ReportedAntichain(entries: seq<Node>, a: seq<string>, b: seq<string>, budget: int)
    requires WellFormed(entries)
    requires ReportedUnder(entries, a, budget) && ReportedUnder(entries, b, budget)
    ensures !(|a| < |b| && b[..|a|] == a)
    decreases entries
  {
    if |a| < |b| && b[..|a|] == a {
      var n :| n in entries && NodeReports(n, a, budget);
      var m :| m in entries && NodeReports(m, b, budget);
      assert b[0] == a[0];
      SameName(entries, n, m);
      assert |a| > 1;
      assert b[1..][..|a| - 1] == a[1..];
      ReportedAntichain(n.children, a[1..], b[1..], budget - 1);
    }
  }

  /** Every excluded path is a visible directory one to `MaxDepth + 1` levels below the commands directory. */
  lemma ExcludedShape(root: seq<Node>, rel: seq<string>)
    requires ExcludedRel(root, rel)
    ensures 1 <= |rel| <= MaxDepth + 1
    ensures forall i :: 0 <= i < |rel| ==> !Hidden(rel[i])
  {
    var g :| g in root && GroupReports(g, rel);
    if |rel| > 1 {
      ReportedDepth(g.children, rel[1..], MaxDepth);
      ReportedVisible(g.children, rel[1..], MaxDepth);
      forall i | 1 <= i < |rel| ensures !Hidden(rel[i]) {
        assert rel[i] == rel[1..][i - 1];
      }
    }
  }

  /** No excluded path lies inside another excluded path. */
  lemma ExcludedAntichain(root: seq<Node>, a: seq<string>, b: seq<string>)
    requires WellFormed(root)
    requires ExcludedRel(root, a) && ExcludedRel(root, b)
    ensures !(|a| < |b| && b[..|a|] == a)
  {
    if |a| < |b| && b[..|a|] == a {
      var g :| g in root && GroupReports(g, a);
      var h :| h in root && GroupReports(h, b);
      assert b[0] == a[0];
      SameName(root, g, h);
      assert g in root;
      InnerAntichain(g, a, b);
    }
  }

  lemma InnerAntichain(g: Node, a: seq<string>, b: seq<string>)
    requires WellFormed([g])
    requires GroupReports(g, a) && GroupReports(g, b)
    ensures !(|a| < |b| && b[..|a|] == a)
  {
    if |a| < |b| && b[..|a|] == a {
      assert g in [g];
      assert WellFormed(g.children);
      assert b[1..][..|a| - 1] == a[1..];
      ReportedAntichain(g.children, a[1..], b[1..], MaxDepth);
    }
  }

  /** A visible top-level group that opts out is excluded as a whole, and nothing inside it is listed. */
  lemma OptedOutGroupExcludedWhole(root: seq<Node>, g: Node, rel: seq<string>)
    requires WellFormed(root)
    requires g in root && g.Dir? && !Hidden(g.name) && GroupOptedOut(g)
    ensures ExcludedRel(root, [g.name])
    ensures |rel| > 1 && rel[0] == g.name ==> !ExcludedRel(root, rel)
  {
    assert GroupReports(g, [g.name]);
    if |rel| > 1 && rel[0] == g.name {
      forall h | h in root && GroupReports(h, rel) ensures false {
        SameName(root, g, h);
      }
    }
  }
}
