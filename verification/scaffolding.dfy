/**
 * What the two plugin scaffolders share: the name rule `^[A-Za-z0-9_-]+$` they check every
 * name against, the lexical path handling behind their "must stay inside the commands
 * directory" guard, the stub `entry.py` they write, and the small filesystem they write into.
 */
module Scaffolding {
  import opened Base
  import opened Tree

  // ---------------------------------------------------------------------------------------
  // Names

  /** One character of the class `[A-Za-z0-9_-]`. */
  predicate NameChar(c: char)
  {
    ('A' <= c <= 'Z') || ('a' <= c <= 'z') || ('0' <= c <= '9') || c == '_' || c == '-'
  }

  predicate AllNameChars(s: string)
  {
    forall i :: 0 <= i < |s| ==> NameChar(s[i])
  }

  /**
   * `VALID_NAME.match(token)` for `^[A-Za-z0-9_-]+$`: one or more name characters, and,
   * because Python's `$` also matches just before a final newline, optionally one `\n` after them.
   */
  predicate ValidName(token: string)
  {
    || (|token| >= 1 && AllNameChars(token))
    || (|token| >= 2 && token[|token| - 1] == '\n' && AllNameChars(token[..|token| - 1]))
  }

  /** A segment pathlib keeps and resolution does not fold away. */
  predicate Plain(segment: string)
  {
    segment != "" && segment != "." && segment != ".."
  }

  /** A valid name is one ordinary path segment: not empty, no `/`, no `.` at all. */
  lemma ValidNameIsPlainSegment(token: string)
    requires ValidName(token)
    ensures forall i :: 0 <= i < |token| ==> token[i] != '/' && token[i] != '.'
    ensures Plain(token)
  {
    forall i | 0 <= i < |token| ensures token[i] != '/' && token[i] != '.' {
      if !AllNameChars(token) && i < |token| - 1 {
        assert token[..|token| - 1][i] == token[i];
      }
    }
    assert token[0] != '.';
  }

  /** The name the tests use to show the rule: `bad!name` fails it, as do the empty name and `..`. */
  lemma ValidNameExamples()
    ensures !ValidName("bad!name") && !ValidName("") && !ValidName("..") && !ValidName("a/b")
    ensures ValidName("compute") && ValidName("my_cmd-2")
    ensures ValidName("mul\n") && !ValidName("mul\n\n")
  {
    assert !NameChar("bad!name"[3]);
    assert !NameChar("bad!name"[..7][3]);
    assert !NameChar(".."[0]);
    assert !NameChar("a/b"[1]) && !NameChar("a/b"[..2][1]);
    assert "mul\n"[..3] == "mul";
    assert !NameChar("mul\n\n"[3]);
    assert !NameChar("mul\n\n"[..4][3]);
  }

  // ---------------------------------------------------------------------------------------
  // What the scaffolders print and write

  /** Why a scaffolder aborts before touching the filesystem. */
  datatype Reason =
    | InvalidName(kind: string, token: string)   // a name fails the rule (both scaffolders)
    | Outside                                    // the target leaves the commands directory (both)
    | PluginExists                               // `new-plugin` without `--force`
    | StandaloneHelpMissing                      // `new-command` without a subcommand or its help
    | CommandExists                              // `new-command`, standalone, without `--force`
    | SubcommandExists                           // `new-command` with a subcommand, without `--force`

  /** The message a scaffolder prints to stderr before exiting with status 2. */
  function Message(reason: Reason): string
  {
    match reason
    case InvalidName(kind, token) =>
      "Invalid " + kind + " '" + token + "'. Use only letters, numbers, underscore, and hyphen."
    case Outside => "Target path must be within commands directory."
    case PluginExists => "Plugin already exists. Use --force to overwrite existing entry.py and meta.yaml."
    case StandaloneHelpMissing => "--command-short-help is required when creating a standalone command (no subcommand)."
    case CommandExists => "Command already exists. Use --force to overwrite existing entry.py/meta.yaml."
    case SubcommandExists =>
      "Plugin already exists. Use --force to overwrite existing entry.py/meta.yaml and command meta.yaml."
  }

  /** The stub `entry.py` both scaffolders write, the same whatever the names. */
  const EntryStub := "import click\n\n@click.command()\ndef cli():\n    click.echo(\"not implemented\")\n    raise SystemExit(2)\n"

  // ---------------------------------------------------------------------------------------
  // Paths

  /** `text.split("/")`: always at least one part. */
  function SplitSlash(text: string): (r: seq<string>)
    ensures |r| >= 1
  {
    if text == [] then [""]
    else
      var parts := SplitSlash(text[..|text| - 1]);
      var c := text[|text| - 1];
      if c == '/' then parts + [""]
      else parts[..|parts| - 1] + [parts[|parts| - 1] + [c]]
  }

  /** The segments pathlib keeps of a relative piece: empty and `.` segments are dropped. */
  function Kept(parts: seq<string>): seq<string>
  {
    if parts == [] then []
    else Kept(parts[..|parts| - 1]) + (if parts[|parts| - 1] in {"", "."} then [] else [parts[|parts| - 1]])
  }

  /** `base / token`: a token starting with `/` replaces the base. */
  function Join(base: Path, token: string): Path
  {
    if |token| > 0 && token[0] == '/' then Kept(SplitSlash(token))
    else base + Kept(SplitSlash(token))
  }

  /** One segment of lexical resolution: `..` drops the last segment, and stays at the root. */
  function Resolve1(stack: Path, segment: string): Path
  {
    if segment == "" || segment == "." then stack
    else if segment == ".." then (if stack == [] then [] else stack[..|stack| - 1])
    else stack + [segment]
  }

  /** `Path.resolve()` for an absolute path, read lexically (no symbolic links). */
  function Resolve(p: Path): (r: Path)
    ensures forall i :: 0 <= i < |r| ==> Plain(r[i])
  {
    if p == [] then [] else Resolve1(Resolve(p[..|p| - 1]), p[|p| - 1])
  }

  /** `target.relative_to(root)` succeeds. */
  predicate Within(root: Path, target: Path)
  {
    |target| >= |root| && target[..|root|] == root
  }

  lemma {:induction false} SplitSlashPlain(text: string)
    requires forall i :: 0 <= i < |text| ==> text[i] != '/'
    ensures SplitSlash(text) == [text]
    decreases |text|
  {
    if text != [] {
      var front := text[..|text| - 1];
      forall i | 0 <= i < |front| ensures front[i] != '/' {
        assert front[i] == text[i];
      }
      SplitSlashPlain(front);
      assert text[..|text| - 1] + [text[|text| - 1]] == text;
    }
  }

  /** Joining a valid name adds exactly that name as one segment. */
  lemma JoinValidName(base: Path, token: string)
    requires ValidName(token)
    ensures Join(base, token) == base + [token]
  {
    ValidNameIsPlainSegment(token);
    SplitSlashPlain(token);
    assert [token][..0] == [];
    assert Kept([token]) == [token];
    assert token[0] != '/';
  }

  lemma ResolveResolved(p: Path)
    ensures Resolve(Resolve(p)) == Resolve(p)
  {
    ResolveIdle(Resolve(p));
  }

  /** A path without `""`, `.` or `..` segments resolves to itself. */
  lemma {:induction false} ResolveIdle(p: Path)
    requires forall i :: 0 <= i < |p| ==> Plain(p[i])
    ensures Resolve(p) == p
    decreases |p|
  {
    if p != [] {
      ResolveIdle(p[..|p| - 1]);
      assert p[..|p| - 1] + [p[|p| - 1]] == p;
    }
  }

  /**
   * The guard both scaffolders put in front of their writes can only fire for a name that
   * already failed the rule: resolving `commands / a / b` for valid names `a`, `b` stays inside.
   */
  lemma ValidNamesStayWithin(commandsDir: Path, a: string, b: string)
    requires ValidName(a) && ValidName(b)
    ensures Within(Resolve(commandsDir), Resolve(Join(Join(commandsDir, a), b)))
    ensures Resolve(Join(Join(commandsDir, a), b)) == Resolve(commandsDir) + [a, b]
  {
    ValidNameStaysWithin(commandsDir, a);
    JoinValidName(commandsDir, a);
    ValidNameStaysWithin(commandsDir + [a], b);
    assert Resolve(commandsDir) + [a] + [b] == Resolve(commandsDir) + [a, b];
    assert (Resolve(commandsDir) + [a, b])[..|Resolve(commandsDir)|] == Resolve(commandsDir);
  }

  /** The same for one valid name. */
  lemma ValidNameStaysWithin(commandsDir: Path, a: string)
    requires ValidName(a)
    ensures Within(Resolve(commandsDir), Resolve(Join(commandsDir, a)))
    ensures Resolve(Join(commandsDir, a)) == Resolve(commandsDir) + [a]
  {
    JoinValidName(commandsDir, a);
    ValidNameIsPlainSegment(a);
    assert (commandsDir + [a])[..|commandsDir|] == commandsDir;
  }

  /** Without the name rule the guard would matter: the name `..` leads out of the commands directory. */
  lemma ParentTokenEscapes(commandsDir: Path)
    requires Resolve(commandsDir) != []
    ensures !Within(Resolve(commandsDir), Resolve(Join(commandsDir, "..")))
  {
    JoinParent(commandsDir);
    ResolveSnoc(commandsDir, "..");
  }

  lemma JoinParent(base: Path)
    ensures Join(base, "..") == base + [".."]
  {
    var dots := "..";
    assert dots[0] == '.' && dots[1] == '.' && |dots| == 2;
    SplitSlashPlain(dots);
    assert Kept([dots]) == Kept([]) + [dots] by { assert [dots][..0] == []; }
  }

  lemma ResolveSnoc(p: Path, segment: string)
    ensures Resolve(p + [segment]) == Resolve1(Resolve(p), segment)
  {
    assert (p + [segment])[..|p|] == p;
  }

  // ---------------------------------------------------------------------------------------
  // The filesystem the scaffolders write into

  /** Regular files with their text, and the directories that exist. */
  datatype Fs = Fs(files: map<Path, string>, dirs: set<Path>)

  /** `path.exists()`. */
  predicate Exists(fs: Fs, p: Path)
  {
    p in fs.files || p in fs.dirs
  }

  /** The directories `p.mkdir(parents=True)` creates or finds: `p` and every ancestor. */
  function Ancestry(p: Path): set<Path>
  {
    set i | 1 <= i <= |p| :: p[..i]
  }

  /**
   * `p.mkdir(parents=True, exist_ok=True)`: it fails when `p` or one of its ancestors is a file.
   * The error names the topmost regular file in the way; the exception Python raises names `p`
   * itself, and nothing in the model reads this path.
   */
  function MakeDirs(fs: Fs, p: Path): (r: Result<Fs, Path>)
    ensures r.Err? <==> exists i :: 1 <= i <= |p| && p[..i] in fs.files
    ensures r.Err? ==> r.error in fs.files && Within(r.error, p)
    ensures r.Ok? ==> r.value == Fs(fs.files, fs.dirs + Ancestry(p))
  {
    if p == [] then Ok(fs)
    else
      var up := p[..|p| - 1];
      AncestryLast(p);
      assert forall i :: 1 <= i <= |p| - 1 ==> up[..i] == p[..i];
      match MakeDirs(fs, up)
      case Err(q) =>
        assert up[..|q|] == p[..|q|];
        Err(q)
      case Ok(parent) =>
        assert p[..|p|] == p;
        if p in fs.files then Err(p)
        else Ok(Fs(fs.files, parent.dirs + {p}))
  }

  lemma AncestryLast(p: Path)
    requires p != []
    ensures Ancestry(p) == Ancestry(p[..|p| - 1]) + {p}
  {
    var up := p[..|p| - 1];
    forall q | q in Ancestry(p) ensures q in Ancestry(up) + {p} {
      var i :| 1 <= i <= |p| && q == p[..i];
      if i < |p| {
        assert up[..i] == q;
      } else {
        assert p[..|p|] == p;
      }
    }
    forall q | q in Ancestry(up) ensures q in Ancestry(p) {
      var i :| 1 <= i <= |up| && q == up[..i];
      assert p[..i] == q;
    }
    assert p[..|p|] == p;
  }

  /** `p.write_text(content)`: it fails when `p` is a directory. */
  function WriteText(fs: Fs, p: Path, content: string): (r: Result<Fs, Path>)
    ensures r.Err? <==> p in fs.dirs
    ensures r.Err? ==> r.error == p
    ensures r.Ok? ==> r.value.files == fs.files[p := content] && r.value.dirs == fs.dirs
  {
    if p in fs.dirs then Err(p) else Ok(Fs(fs.files[p := content], fs.dirs))
  }

  /**
   * How one run of a scaffolder ends: an abort (exit status 2, printing `Message(reason)`), before any
   * change; a finished run with the new filesystem and the paths it echoed; or an error from the
   * filesystem (a file where a directory is needed, or the reverse) after the changes made so far.
   */
  datatype Outcome =
    | Aborted(reason: Reason)
    | Done(fs: Fs, echoed: seq<Path>)
    | Raised(fs: Fs, at: Path)

  /** One `write_text` call. */
  datatype Write = Write(path: Path, text: string)

  /** What a run that passed its guards does: create directories, write files, echo paths, in that order. */
  datatype Plan = Plan(dirs: seq<Path>, writes: seq<Write>, echoed: seq<Path>)

  /** The guards' verdict: refuse for a reason, or go ahead with a plan. */
  datatype Decision = Refuse(reason: Reason) | Proceed(plan: Plan)

  /** Every ancestor-or-self of every path in `dirs`. */
  function AncestryAll(dirs: seq<Path>): set<Path>
  {
    if dirs == [] then {} else Ancestry(dirs[0]) + AncestryAll(dirs[1..])
  }

  /** A regular file stands where one of the directories `dirs` (or an ancestor) must be. */
  predicate FileInTheWay(files: map<Path, string>, dirs: seq<Path>)
  {
    exists k, i :: 0 <= k < |dirs| && 1 <= i <= |dirs[k]| && dirs[k][..i] in files
  }

  lemma FileInTheWaySplit(files: map<Path, string>, dirs: seq<Path>)
    requires dirs != []
    ensures FileInTheWay(files, dirs) <==> FileInTheWay(files, [dirs[0]]) || FileInTheWay(files, dirs[1..])
  {
    if FileInTheWay(files, dirs) {
      var k, i :| 0 <= k < |dirs| && 1 <= i <= |dirs[k]| && dirs[k][..i] in files;
      if k == 0 {
        assert [dirs[0]][0] == dirs[0];
      } else {
        assert dirs[1..][k - 1] == dirs[k];
      }
    }
    if FileInTheWay(files, dirs[1..]) {
      var k, i :| 0 <= k < |dirs[1..]| && 1 <= i <= |dirs[1..][k]| && dirs[1..][k][..i] in files;
      assert dirs[k + 1] == dirs[1..][k];
    }
    if FileInTheWay(files, [dirs[0]]) {
      var k, i :| 0 <= k < 1 && 1 <= i <= |[dirs[0]][k]| && [dirs[0]][k][..i] in files;
      assert dirs[0] == [dirs[0]][k];
    }
  }

  /** The files after the writes `ws`, in order: a later write to a path wins. */
  function Overwrite(files: map<Path, string>, ws: seq<Write>): map<Path, string>
    decreases ws
  {
    if ws == [] then files else Overwrite(files[ws[0].path := ws[0].text], ws[1..])
  }

  /** A directory stands where one of the writes goes. */
  predicate DirInTheWay(dirs: set<Path>, ws: seq<Write>)
  {
    exists k :: 0 <= k < |ws| && ws[k].path in dirs
  }

  lemma DirInTheWaySplit(dirs: set<Path>, ws: seq<Write>)
    requires ws != []
    ensures DirInTheWay(dirs, ws) <==> ws[0].path in dirs || DirInTheWay(dirs, ws[1..])
  {
    if DirInTheWay(dirs, ws[1..]) {
      var k :| 0 <= k < |ws[1..]| && ws[1..][k].path in dirs;
      assert ws[k + 1] == ws[1..][k];
    }
    if DirInTheWay(dirs, ws) {
      var k :| 0 <= k < |ws| && ws[k].path in dirs;
      if k > 0 { assert ws[1..][k - 1] == ws[k]; }
    }
  }

  /**
   * Carry out a plan one call at a time: each `mkdir`, then each `write_text`, stopping at the
   * first that fails; a finished run echoes the plan's paths.
   */
  function Execute(fs: Fs, plan: Plan): Outcome
    decreases |plan.dirs| + |plan.writes|
  {
    if plan.dirs != [] then
      match MakeDirs(fs, plan.dirs[0])
      case Err(at) => Raised(fs, at)
      case Ok(fs1) => Execute(fs1, plan.(dirs := plan.dirs[1..]))
    else if plan.writes != [] then
      match WriteText(fs, plan.writes[0].path, plan.writes[0].text)
      case Err(at) => Raised(fs, at)
      case Ok(fs1) => Execute(fs1, plan.(writes := plan.writes[1..]))
    else Done(fs, plan.echoed)
  }

  /**
   * Executing a plan never aborts; it finishes exactly when no regular file stands where one of
   * its directories must be and no directory stands where one of its files goes; and a finished
   * run has created every directory of the plan with its parents, applied the writes in order,
   * and echoed the plan's paths.
   */
  lemma {:induction false} ExecuteOutcome(fs: Fs, plan: Plan)
    ensures !Execute(fs, plan).Aborted?
    ensures Execute(fs, plan).Done? <==>
      !FileInTheWay(fs.files, plan.dirs) && !DirInTheWay(fs.dirs + AncestryAll(plan.dirs), plan.writes)
    ensures Execute(fs, plan).Done? ==>
      Execute(fs, plan) == Done(Fs(Overwrite(fs.files, plan.writes), fs.dirs + AncestryAll(plan.dirs)), plan.echoed)
    decreases |plan.dirs| + |plan.writes|
  {
    if plan.dirs != [] {
      FileInTheWaySplit(fs.files, plan.dirs);
      FileInTheWayOne(fs.files, plan.dirs[0]);
      match MakeDirs(fs, plan.dirs[0])
      case Err(at) =>
      case Ok(fs1) =>
        ExecuteOutcome(fs1, plan.(dirs := plan.dirs[1..]));
        assert fs1.dirs + AncestryAll(plan.dirs[1..]) == fs.dirs + AncestryAll(plan.dirs);
    } else if plan.writes != [] {
      DirInTheWaySplit(fs.dirs, plan.writes);
      match WriteText(fs, plan.writes[0].path, plan.writes[0].text)
      case Err(at) =>
      case Ok(fs1) =>
        ExecuteOutcome(fs1, plan.(writes := plan.writes[1..]));
    } else {
      assert !DirInTheWay(fs.dirs, plan.writes);
      assert !FileInTheWay(fs.files, plan.dirs);
    }
  }

  /** The run a decision leads to. */
  function Carry(fs: Fs, d: Decision): Outcome
  {
    match d
    case Refuse(reason) => Aborted(reason)
    case Proceed(plan) => Execute(fs, plan)
  }

  /** A run aborts exactly when its guards refuse it, for their reason. */
  lemma CarryAborts(fs: Fs, d: Decision)
    ensures Carry(fs, d).Aborted? <==> d.Refuse?
    ensures d.Refuse? ==> Carry(fs, d).reason == d.reason
  {
    if d.Proceed? {
      ExecuteOutcome(fs, d.plan);
    }
  }

  /** Two writes to different paths leave each path with its own text and every other file as it was. */
  lemma OverwriteTwo(files: map<Path, string>, a: Write, b: Write)
    ensures Overwrite(files, [a, b]) == files[a.path := a.text][b.path := b.text]
  {
    var m := files[a.path := a.text];
    assert [a, b][1..] == [b];
    assert Overwrite(files, [a, b]) == Overwrite(m, [b]);
    assert [b][1..] == [];
    assert Overwrite(m, [b]) == Overwrite(m[b.path := b.text], []);
  }

  lemma OverwriteThree(files: map<Path, string>, a: Write, b: Write, c: Write)
    ensures Overwrite(files, [a, b, c]) == files[a.path := a.text][b.path := b.text][c.path := c.text]
  {
    assert [a, b, c][1..] == [b, c];
    OverwriteTwo(files[a.path := a.text], b, c);
  }

  lemma AncestryOne(d: Path)
    ensures AncestryAll([d]) == Ancestry(d)
  {
    assert [d][1..] == [];
  }

  /**
   * `mkdir(parents=True, exist_ok=True)` on `dir`, then `meta.yaml` and the stub `entry.py`
   * written in that order, then both paths echoed: the tail that `new-plugin` and a standalone
   * `new-command` share.
   */
  method CreateFiles(fs: Fs, dir: Path, metaPath: Path, metaText: string, entryPath: Path) returns (r: Outcome)
    ensures r == Execute(fs, Plan([dir], [Write(metaPath, metaText), Write(entryPath, EntryStub)], [metaPath, entryPath]))
  {
    ghost var plan := Plan([dir], [Write(metaPath, metaText), Write(entryPath, EntryStub)], [metaPath, entryPath]);
    var made := MakeDirs(fs, dir);
    if made.Err? {
      return Raised(fs, made.error);
    }
    ghost var rest := plan.(dirs := []);
    assert Execute(fs, plan) == Execute(made.value, rest);
    var wroteMeta := WriteText(made.value, metaPath, metaText);
    if wroteMeta.Err? {
      return Raised(made.value, wroteMeta.error);
    }
    assert Execute(made.value, rest) == Execute(wroteMeta.value, rest.(writes := rest.writes[1..]));
    rest := rest.(writes := rest.writes[1..]);
    var wroteEntry := WriteText(wroteMeta.value, entryPath, EntryStub);
    if wroteEntry.Err? {
      return Raised(wroteMeta.value, wroteEntry.error);
    }
    assert Execute(wroteMeta.value, rest) == Execute(wroteEntry.value, rest.(writes := []));
    return Done(wroteEntry.value, [metaPath, entryPath]);
  }

  lemma FileInTheWayOne(files: map<Path, string>, d: Path)
    ensures FileInTheWay(files, [d]) <==> exists i :: 1 <= i <= |d| && d[..i] in files
  {
    if exists i :: 1 <= i <= |d| && d[..i] in files {
      var i :| 1 <= i <= |d| && d[..i] in files;
      assert [d][0] == d;
    }
  }

  lemma DirInTheWayTwo(dirs: set<Path>, a: Write, b: Write)
    ensures DirInTheWay(dirs, [a, b]) <==> a.path in dirs || b.path in dirs
  {
    var ws := [a, b];
    if DirInTheWay(dirs, ws) {
      var k :| 0 <= k < |ws| && ws[k].path in dirs;
      assert ws[k] == a || ws[k] == b;
    }
    if a.path in dirs {
      assert ws[0] == a;
    }
    if b.path in dirs {
      assert ws[1] == b;
    }
  }

  /** A path is never among the ancestors of a shorter path. */
  lemma AncestryShorter(d: Path, p: Path)
    requires |d| < |p|
    ensures p !in Ancestry(d)
  {
    assert forall i :: 1 <= i <= |d| ==> |d[..i]| == i;
  }

  /** Creating a directory and then its parent creates nothing more, and fails no more, than the directory alone. */
  lemma ThenParent(files: map<Path, string>, d: Path, name: string)
    ensures AncestryAll([d + [name], d]) == Ancestry(d + [name])
    ensures FileInTheWay(files, [d + [name], d]) <==> FileInTheWay(files, [d + [name]])
  {
    var x := d + [name];
    assert x[..|x| - 1] == d;
    AncestryLast(x);
    assert [x, d][1..] == [d];
    assert AncestryAll([x, d]) == Ancestry(x) + AncestryAll([d]);
    AncestryOne(d);
    FileInTheWaySplit(files, [x, d]);
    FileInTheWayOne(files, d);
    FileInTheWayOne(files, x);
    if FileInTheWay(files, [d]) {
      var i :| 1 <= i <= |d| && d[..i] in files;
      assert x[..i] == d[..i];
    }
  }
}
