/** Values shared by the whole model: Python's error outcomes, Python sequence
    indexing, file-system paths and the set of files that exist on disk. */
module Common {

  datatype Option<T> = None | Some(value: T)

  /** The Python exceptions the modelled code can raise. */
  datatype Error = IndexError | KeyError(key: string) | ValueError

  /** The outcome of a Python expression that either yields a value or raises. */
  datatype Result<T> = Ok(value: T) | Err(error: Error)

  /** Python's `s[i]` on a list: a negative index counts from the end, and an
      index outside `-len(s) .. len(s)-1` raises IndexError. */
  function PyIndex<T>(s: seq<T>, i: int): (r: Result<T>)
    ensures r.Ok? <==> -|s| <= i < |s|
    ensures r.Err? ==> r.error == IndexError
    ensures 0 <= i < |s| ==> r == Ok(s[i])
    ensures r.Ok? ==> r.value in s
  {
    if 0 <= i < |s| then Ok(s[i])
    else if -|s| <= i < 0 then Ok(s[|s| + i])
    else Err(IndexError)
  }

  /** A negative index names the same element as the index `len(s)` higher. */
  lemma PyIndexWraps<T>(s: seq<T>, i: int)
    requires 0 <= i < |s|
    ensures PyIndex(s, i - |s|) == PyIndex(s, i)
  {
  }

  /** A relative `pathlib.Path`, as its components; no components is ".". */
  datatype Path = Path(parts: seq<string>)

  /** `p.name`: the last component, "" for ".". */
  function Name(p: Path): string
  {
    if p.parts == [] then "" else p.parts[|p.parts| - 1]
  }

  /** `p.parent`: all but the last component; the parent of "." is ".". */
  function Parent(p: Path): Path
  {
    if p.parts == [] then p else Path(p.parts[..|p.parts| - 1])
  }

  /** `p / name` for a single component `name`. */
  function Join(p: Path, name: string): (q: Path)
    ensures Name(q) == name
    ensures Parent(q) == p
    ensures |q.parts| == |p.parts| + 1
  {
    Path(p.parts + [name])
  }

  /** The files that exist on disk; `path.exists()` is membership in `files`. */
  class FileSystem {
    var files: set<Path>

    constructor (files: set<Path>)
      ensures this.files == files
    {
      this.files := files;
    }
  }
}
