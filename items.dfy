/** The item and path types of pkg/scanner/scanner.go: a file as the scanner reports it,
    the item a stream carries (file or error), and the `Must*` helpers. */
module Items {
  import opened Wrappers

  type Path = string

  /** A Go `error` value; only its `Error()` text is observable. */
  datatype Error = Error(text: string)

  /** `ErrNotDirectory`: the error returned when a configured path is not a directory. */
  const ErrNotDirectory: Error := Error("not a directory")

  /** The kind bits of an `os.FileMode`, as far as this package tests them. */
  datatype Kind = Regular | Directory | Other

  /** An `os.FileInfo`, reduced to what the package reads: `Name()` and the mode's kind. */
  datatype Info = Info(name: string, kind: Kind)

  /** `File`: an `os.FileInfo` together with the path of the directory it was listed from. */
  datatype File = File(info: Info, parent: Path)

  /** `FileItem`: one stream element; `FileInfo` and `Err` are nil-able interfaces in Go. */
  datatype FileItem = FileItem(fileInfo: Option<File>, err: Option<Error>)

  /** A scanner's `Scan` result with its channel read to the end: the items it delivers, or
      the synchronous error returned instead of a channel. */
  datatype ScanResult = Streamed(items: seq<FileItem>) | ScanFailed(err: Error)

  function NewFile(info: Info, pathName: Path): File {
    File(info, pathName)
  }

  /** `path.Join` of a directory and one entry name (path cleaning is not modelled). */
  function Join(dir: Path, name: string): Path {
    dir + "/" + name
  }

  function PathName(f: File): Path {
    Join(f.parent, f.info.name)
  }

  predicate NoSlash(name: string) {
    forall i :: 0 <= i < |name| ==> name[i] != '/'
  }

  /** Index of the last '/' in `p`, or -1 when there is none. */
  function LastSlash(p: Path): (i: int)
    ensures -1 <= i < |p|
    ensures 0 <= i ==> p[i] == '/'
    ensures NoSlash(p[i + 1..])
  {
    if p == [] then -1
    else if p[|p| - 1] == '/' then |p| - 1
    else
      var i := LastSlash(p[..|p| - 1]);
      NoSlashExtend(p, i);
      i
  }

  /** A slash-free tail of all but the last character stays slash-free with it. */
  lemma NoSlashExtend(p: Path, i: int)
    requires p != [] && -1 <= i < |p| - 1 && p[|p| - 1] != '/'
    requires NoSlash(p[..|p| - 1][i + 1..])
    ensures NoSlash(p[i + 1..])
  {
    var t, u := p[i + 1..], p[..|p| - 1][i + 1..];
    forall k | 0 <= k < |t|
      ensures t[k] != '/'
    {
      if k < |u| {
        assert t[k] == u[k];
      }
    }
  }

  /** Splits a path at its last '/' into the directory and the entry name; the reference
      definition that `PathName` is checked against. */
  function SplitPath(p: Path): (Path, string) {
    var i := LastSlash(p);
    if i < 0 then ("", p) else (p[..i], p[i + 1..])
  }

  /** A name without '/' is recovered from the joined path: `Join` is the inverse of `SplitPath`. */
  lemma {:induction false} SplitJoin(dir: Path, name: string)
    requires NoSlash(name)
    ensures SplitPath(Join(dir, name)) == (dir, name)
  {
    var p := Join(dir, name);
    LastSlashAfter(dir, name);
    assert p[..|dir|] == dir;
    assert p[|dir| + 1..] == name;
  }

  lemma {:induction false} LastSlashAfter(dir: Path, name: string)
    requires NoSlash(name)
    ensures LastSlash(Join(dir, name)) == |dir|
    decreases |name|
  {
    var p := Join(dir, name);
    if name == [] {
      assert p[|p| - 1] == '/';
    } else {
      assert p[|p| - 1] == name[|name| - 1];
      assert p[..|p| - 1] == Join(dir, name[..|name| - 1]);
      LastSlashAfter(dir, name[..|name| - 1]);
    }
  }

  /** Within one directory, distinct entry names give distinct path names. */
  lemma PathNameInjective(f: File, g: File)
    requires f.parent == g.parent && NoSlash(f.info.name) && NoSlash(g.info.name)
    requires PathName(f) == PathName(g)
    ensures f.info.name == g.info.name
  {
    SplitJoin(f.parent, f.info.name);
    SplitJoin(g.parent, g.info.name);
  }

  /** `PathName` (scanner.go:22-24) of a file made by `NewFile` (scanner.go:26-28) is
      its parent joined with its own name: splitting it gives both back. */
  lemma PathNameOfNewFile(info: Info, dir: Path)
    requires NoSlash(info.name)
    ensures SplitPath(PathName(NewFile(info, dir))) == (dir, info.name)
  {
    SplitJoin(dir, info.name);
  }

  /** `FileItem.String`. */
  function String(item: FileItem): string {
    if item.err.Some? then item.err.value.text
    else if item.fileInfo.Some? then PathName(item.fileInfo.value)
    else ""
  }

  /** The error text wins over the file: an item with `Err` set prints its error even when
      `FileInfo` is set too; a file item prints its path; an empty item prints "". */
  lemma StringCases(item: FileItem)
    ensures item.err.Some? ==> String(item) == item.err.value.text
    ensures item.err.None? && item.fileInfo.Some? && NoSlash(item.fileInfo.value.info.name) ==>
              SplitPath(String(item)) == (item.fileInfo.value.parent, item.fileInfo.value.info.name)
    ensures item.err.None? && item.fileInfo.None? ==> String(item) == ""
  {
    if item.err.None? && item.fileInfo.Some? && NoSlash(item.fileInfo.value.info.name) {
      SplitJoin(item.fileInfo.value.parent, item.fileInfo.value.info.name);
    }
  }

  /** `MustScanner` and `MustScan` (scanner.go:53-67), which differ only in what they pass
      through: the value unchanged when there is no error, a panic with the error otherwise. */
  function Must<T>(value: T, err: Option<Error>): (r: Outcome<T, Error>)
    ensures r.Returned? <==> err.None?
    ensures r.Returned? ==> r.value == value
    ensures r.Panicked? ==> r.reason == err.value
  {
    if err.Some? then Panicked(err.value) else Returned(value)
  }
}
