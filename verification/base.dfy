/** Small shared vocabulary: optional values, results with an error, and paths. */
module Base {

  datatype Option<+T> = None | Some(value: T)

  /** The outcome of an operation that the source can abort by raising an exception. */
  datatype Result<+T, +E> = Ok(value: T) | Err(error: E)

  /** A filesystem path as its list of segments: `commands/alpha/bravo` is ["commands", "alpha", "bravo"]. */
  type Path = seq<string>

  /** The text `str(path)` gives: the segments joined by "/". */
  function PathText(p: Path): string
  {
    if p == [] then "" else if |p| == 1 then p[0] else PathText(p[..|p| - 1]) + "/" + p[|p| - 1]
  }

  /** `piece in text` for strings. */
  ghost predicate IsInfix(piece: string, text: string)
  {
    exists i :: 0 <= i <= |text| - |piece| && text[i..][..|piece|] == piece
  }

  /** An element other than the last one is in the sequence without its last element. */
  lemma InInit<T>(s: seq<T>, y: T)
    requires y in s && y != s[|s| - 1]
    ensures y in s[..|s| - 1]
  {
    var i :| 0 <= i < |s| && s[i] == y;
    assert s[..|s| - 1][i] == y;
  }
}
