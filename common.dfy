/** Types shared by the registry layer: results, the one error kind the layer
    raises, the numeric levels of the logging library and a model of paths. */
module Common {

  datatype Option<+T> = None | Some(value: T)

  /** Every failure the layer surfaces is a RuntimeError carrying a fixed message. */
  datatype Error = RuntimeError(message: string)

  datatype Result<+T> = Ok(value: T) | Err(error: Error)

  /** The result of an operation that returns nothing (Python's `None`) or raises. */
  datatype Outcome = Pass | Fail(error: Error)

  /** Numeric levels of the logging library. */
  const NOTSET: int := 0
  const DEBUG: int := 10

  /** A file-system path: an anchor (drive and root, or "" for a relative path)
      followed by its components, as pathlib splits it. */
  datatype Path = Path(anchor: string, parts: seq<string>) {

    /** `self / name` for a single component `name`. */
    function Join(name: string): (p: Path)
      ensures p.anchor == anchor && |p.parts| == |parts| + 1
      ensures p.parts[..|parts|] == parts && p.parts[|parts|] == name
    {
      Path(anchor, parts + [name])
    }

    /** `self.parent`: the path without its last component; an anchor alone
        (or the empty relative path) is its own parent. */
    function Parent(): (p: Path)
      ensures p.anchor == anchor
      ensures parts == [] ==> p == this
      ensures parts != [] ==> |p.parts| == |parts| - 1 && p.parts == parts[..|parts| - 1]
    {
      if parts == [] then this else Path(anchor, parts[..|parts| - 1])
    }
  }

  /** Parent undoes Join: the directory of `dir / name` is `dir`. */
  lemma ParentOfJoin(dir: Path, name: string)
    ensures dir.Join(name).Parent() == dir
  {
    assert dir.Join(name).parts[..|dir.parts|] == dir.parts;
  }
}
