/** The file system as the scanner sees it, reduced to two oracles: `os.Stat` of a path and
    the listing of one directory by the non-recursive lister (basic.go). */
module FileSystem {
  import opened Wrappers
  import opened Items

  /** `os.Stat(path)`: an error, or the kind of what is there. */
  datatype Stat = Missing(err: Error) | Found(kind: Kind)

  /** Listing one directory: its immediate entries in lister order, or the error that
      prevented opening or reading it. */
  datatype Listing = Listed(entries: seq<Info>) | Unreadable(err: Error)

  /** `height` bounds how deep the directory graph goes below each path; `Ranked` below
      says it strictly decreases from a directory to each subdirectory it lists. */
  datatype FileSystem = FileSystem(stat: Path -> Stat, list: Path -> Listing, height: Path -> nat)

  /** The directories reachable by listing form a well-founded graph (no cycles). */
  ghost predicate Ranked(fs: FileSystem) {
    forall d: Path, i: int ::
      fs.list(d).Listed? && 0 <= i < |fs.list(d).entries| && fs.list(d).entries[i].kind == Directory
      ==> fs.height(Join(d, fs.list(d).entries[i].name)) < fs.height(d)
  }

  /** Every subdirectory among `es`, listed from `d`, sits strictly lower than `d`. */
  ghost predicate ChildrenBelow(fs: FileSystem, d: Path, es: seq<Info>) {
    forall i :: 0 <= i < |es| && es[i].kind == Directory ==> fs.height(Join(d, es[i].name)) < fs.height(d)
  }

  lemma RankedChildren(fs: FileSystem, d: Path)
    requires Ranked(fs) && fs.list(d).Listed?
    ensures ChildrenBelow(fs, d, fs.list(d).entries)
  {
    var es := fs.list(d).entries;
    forall i | 0 <= i < |es| && es[i].kind == Directory
      ensures fs.height(Join(d, es[i].name)) < fs.height(d)
    {
      assert fs.list(d).entries[i] == es[i];
    }
  }

  /** The item the lister emits for an entry of `dir` (basic.go wraps it with `NewFile`). */
  function EntryItem(dir: Path, info: Info): FileItem {
    FileItem(Some(NewFile(info, dir)), None)
  }

  /** The item that carries one error. */
  function ErrorItem(err: Error): FileItem {
    FileItem(None, Some(err))
  }
}
