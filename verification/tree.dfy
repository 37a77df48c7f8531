/**
 * The commands directory as the scripts see it: a tree of named files and directories.
 * What a YAML loader makes of a file is kept abstract: it fails, or yields something that is
 * not a mapping (a list, a scalar, nothing), or yields a mapping from keys to values.
 */
module Tree {
  import opened Base

  /** A value in a parsed descriptor; only strings and booleans are ever inspected. */
  datatype YamlValue = YStr(text: string) | YBool(flag: bool) | YOther

  /** The result of reading a file and parsing it as YAML. */
  datatype Yaml = Unloadable(detail: string) | NonMapping | Mapping(fields: map<string, YamlValue>)

  /**
   * One directory entry. A directory's `children` are its listing in the (arbitrary) order
   * the operating system returns it.
   */
  datatype Node = File(name: string, doc: Yaml) | Dir(name: string, children: seq<Node>)

  const EntryFile := "entry.py"
  const MetaFile := "meta.yaml"

  function NameOf(n: Node): string { n.name }

  /** The listing of a directory; a file lists as empty. */
  function Children(n: Node): seq<Node>
  {
    if n.Dir? then n.children else []
  }

  /** The entry called `name` in a listing (`parent / name`), if there is one. */
  function Lookup(entries: seq<Node>, name: string): (r: Option<Node>)
    ensures r.Some? ==> r.value.name == name
    ensures r.None? <==> forall n :: n in entries ==> n.name != name
  {
    if entries == [] then None
    else if entries[0].name == name then Some(entries[0])
    else Lookup(entries[1..], name)
  }

  /** `(parent / name).is_file()`. */
  predicate IsFileAt(entries: seq<Node>, name: string)
  {
    Lookup(entries, name).Some? && Lookup(entries, name).value.File?
  }

  /** `(parent / name).exists()`: a file or a directory. */
  predicate ExistsAt(entries: seq<Node>, name: string)
  {
    Lookup(entries, name).Some?
  }

  /** The subdirectories of a listing, in listing order (`p for p in iterdir() if p.is_dir()`). */
  function Dirs(entries: seq<Node>): (r: seq<Node>)
    ensures forall n :: n in r <==> n in entries && n.Dir?
  {
    if entries == [] then []
    else (if entries[0].Dir? then [entries[0]] else []) + Dirs(entries[1..])
  }

  /** `name.startswith(".") or name.startswith("__")`. */
  predicate Hidden(name: string)
  {
    (|name| >= 1 && name[0] == '.') || (|name| >= 2 && name[..2] == "__")
  }

  /** No two entries of any listing in the tree share a name, as on every filesystem. */
  ghost predicate WellFormed(entries: seq<Node>)
  {
    && (forall i, j :: 0 <= i < j < |entries| ==> entries[i].name != entries[j].name)
    && (forall n :: n in entries && n.Dir? ==> WellFormed(n.children))
  }
}
