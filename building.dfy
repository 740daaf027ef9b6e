/** `Builder` (pkg/scanner/builder.go): a fluent configuration object whose setters update
    its fields, and `Build`, which composes concrete scanners and filter wrappers from them.
    A built scanner is described by the `Scanner` tree it composes. */
module Building {
  import opened Wrappers
  import opened Items
  import opened FileSystem
  import opened RecursiveOptions
  import opened Sequences

  datatype Mode = ModeFiles | ModeDirectories | ModeAll

  datatype Penetration = PenetrationFlat | PenetrationRecursive

  /** A `Filter` value. Its constructors live outside this package's shown files; here they
      are just names in the built tree, and `UserFilter` stands for the caller's own. */
  datatype Filter = RegularFilesFilter | DirectoriesFilter | AndFilter(filters: seq<Filter>) | UserFilter(name: string)

  /** The composition `Build` returns. `Basic("")` is a basic scanner with no directory. */
  datatype Scanner =
    | Basic(directory: Path)
    | Multi(scanners: seq<Scanner>)
    | Recursive(config: RecursiveScanner)
    | Filtered(inner: Scanner, filter: Filter)

  /** `NewBasicScanner(WithDir(d))`: refused exactly as a recursive root would be. */
  function BasicIn(stat: Path -> Stat, d: Path): Result<Scanner, Error> {
    if PathError(stat, d).Some? then Err(PathError(stat, d).value) else Ok(Basic(d))
  }

  /** What `buildConcreteScanner` returns (builder.go:80-109). */
  function Concrete(stat: Path -> Stat, numCPU: nat, penetration: Penetration, dirs: seq<Path>): Result<Scanner, Error> {
    if penetration == PenetrationFlat then
      if |dirs| == 0 then Ok(Basic(""))
      else if |dirs| == 1 then BasicIn(stat, dirs[0])
      else if FirstInvalid(stat, dirs).Some? then Err(FirstInvalid(stat, dirs).value)
      else Ok(Multi(seq(|dirs|, i requires 0 <= i < |dirs| => Basic(dirs[i]))))
    else
      var options := if |dirs| == 0 then [] else [WithDirectories(dirs)];
      match Configure(stat, RecursiveScanner([], numCPU), options)
      case Err(e) => Err(e)
      case Ok(s) => Ok(Recursive(s))
  }

  /** The filters `buildFilterScanner` collects (builder.go:112-124): the kind filter of the
      mode, then the caller's filter. */
  function Filters(mode: Mode, filter: Option<Filter>): seq<Filter> {
    (if mode == ModeFiles then [RegularFilesFilter] else [])
    + (if mode == ModeDirectories then [DirectoriesFilter] else [])
    + (if filter.Some? then [filter.value] else [])
  }

  /** `buildFilterScanner` (builder.go:111-134). */
  function WrapFilters(scanner: Scanner, filters: seq<Filter>): Scanner {
    if |filters| == 0 then scanner
    else if |filters| == 1 then Filtered(scanner, filters[0])
    else Filtered(scanner, AndFilter(filters))
  }

  /** What `Build` returns (builder.go:55-69) for a builder with these fields. */
  function Built(stat: Path -> Stat, numCPU: nat, mode: Mode, penetration: Penetration, dirs: seq<Path>,
                 filter: Option<Filter>): Result<Scanner, Error> {
    match Concrete(stat, numCPU, penetration, dirs)
    case Err(e) => Err(e)
    case Ok(s) => Ok(WrapFilters(s, Filters(mode, filter)))
  }

  class Builder {
    var mode: Mode
    var penetration: Penetration
    var directories: seq<Path>
    var filter: Option<Filter>

    /** `NewBuilder` (builder.go:136-141): all kinds, flat, no directories, no filter. */
    constructor ()
      ensures mode == ModeAll && penetration == PenetrationFlat && directories == [] && filter == None
    {
      mode := ModeAll;
      penetration := PenetrationFlat;
      directories := [];
      filter := None;
    }

    /** `Files` (builder.go:25-28). */
    method Files() returns (b: Builder)
      modifies this
      ensures b == this && mode == ModeFiles
      ensures penetration == old(penetration) && directories == old(directories) && filter == old(filter)
    {
      mode := ModeFiles;
      return this;
    }

    /** `Directories` (builder.go:30-33). */
    method Directories() returns (b: Builder)
      modifies this
      ensures b == this && mode == ModeDirectories
      ensures penetration == old(penetration) && directories == old(directories) && filter == old(filter)
    {
      mode := ModeDirectories;
      return this;
    }

    /** `Flat` (builder.go:35-38). */
    method Flat() returns (b: Builder)
      modifies this
      ensures b == this && penetration == PenetrationFlat
      ensures mode == old(mode) && directories == old(directories) && filter == old(filter)
    {
      penetration := PenetrationFlat;
      return this;
    }

    /** `Recursive` (builder.go:40-43). */
    method Recursive() returns (b: Builder)
      modifies this
      ensures b == this && penetration == PenetrationRecursive
      ensures mode == old(mode) && directories == old(directories) && filter == old(filter)
    {
      penetration := PenetrationRecursive;
      return this;
    }

    /** `In` (builder.go:45-48): appends, so directories accumulate across calls in order. */
    method In(dirs: seq<Path>) returns (b: Builder)
      modifies this
      ensures b == this && directories == old(directories) + dirs
      ensures mode == old(mode) && penetration == old(penetration) && filter == old(filter)
    {
      directories := directories + dirs;
      return this;
    }

    /** `Match` (builder.go:50-53): replaces the filter; `None` is a nil filter. */
    method Match(f: Option<Filter>) returns (b: Builder)
      modifies this
      ensures b == this && filter == f
      ensures mode == old(mode) && penetration == old(penetration) && directories == old(directories)
    {
      filter := f;
      return this;
    }

    /** `buildConcreteScanner` (builder.go:80-109). */
    method BuildConcreteScanner(stat: Path -> Stat, numCPU: nat) returns (r: Result<Scanner, Error>)
      requires numCPU >= 1
      ensures r == Concrete(stat, numCPU, penetration, directories)
    {
      var dirs := directories;
      if penetration == PenetrationFlat {
        if |dirs| == 0 {
          return Ok(Basic(""));
        } else if |dirs| == 1 {
          return BasicIn(stat, dirs[0]);
        }
        var scanners: seq<Scanner> := [];
        var i := 0;
        while i < |dirs|
          invariant 0 <= i <= |dirs|
          invariant FirstInvalid(stat, dirs[..i]) == None
          invariant scanners == seq(i, j requires 0 <= j < i => Basic(dirs[j]))
        {
          FirstInvalidSplit(stat, dirs[..i], dirs[i..]);
          assert dirs[..i] + dirs[i..] == dirs;
          var basic := BasicIn(stat, dirs[i]);
          if basic.Err? {
            return Err(basic.error);
          }
          PrefixSnoc(dirs, i);
          FirstInvalidSplit(stat, dirs[..i], [dirs[i]]);
          scanners := scanners + [basic.value];
          i := i + 1;
        }
        assert dirs[..i] == dirs;
        return Ok(Multi(scanners));
      }
      var options := if |dirs| == 0 then [] else [WithDirectories(dirs)];
      var res := NewRecursiveScanner(stat, numCPU, options);
      if res.Err? {
        return Err(res.error);
      }
      return Ok(Scanner.Recursive(res.value));
    }

    /** `buildFilterScanner` (builder.go:111-134). */
    method BuildFilterScanner(scanner: Scanner) returns (r: Scanner)
      ensures r == WrapFilters(scanner, Filters(mode, filter))
    {
      var filters: seq<Filter> := [];
      if mode == ModeFiles {
        filters := filters + [RegularFilesFilter];
      }
      if mode == ModeDirectories {
        filters := filters + [DirectoriesFilter];
      }
      if filter.Some? {
        filters := filters + [filter.value];
      }
      assert filters == Filters(mode, filter);
      if |filters| == 0 {
        return scanner;
      } else if |filters| == 1 {
        return Filtered(scanner, filters[0]);
      }
      return Filtered(scanner, AndFilter(filters));
    }

    /** `Build` (builder.go:55-69): the concrete scanner, or its error, wrapped in filters. */
    method Build(stat: Path -> Stat, numCPU: nat) returns (r: Result<Scanner, Error>)
      requires numCPU >= 1
      ensures r == Built(stat, numCPU, mode, penetration, directories, filter)
    {
      var concrete := BuildConcreteScanner(stat, numCPU);
      if concrete.Err? {
        return Err(concrete.error);
      }
      var s := BuildFilterScanner(concrete.value);
      return Ok(s);
    }

    /** `MustBuild` (builder.go:71-78): panics exactly when `Build` fails. */
    method MustBuild(stat: Path -> Stat, numCPU: nat) returns (r: Outcome<Scanner, Error>)
      requires numCPU >= 1
      ensures r.Panicked? <==> Built(stat, numCPU, mode, penetration, directories, filter).Err?
      ensures r.Panicked? ==> r.reason == Built(stat, numCPU, mode, penetration, directories, filter).error
      ensures r.Returned? ==> r.value == Built(stat, numCPU, mode, penetration, directories, filter).value
    {
      var built := Build(stat, numCPU);
      if built.Err? {
        return Panicked(built.error);
      }
      return Returned(built.value);
    }
  }

  /** Setters chain on one builder: the last mode and penetration set win, and `In`
      accumulates directories in call order. */
  method ChainedSetters(a: Path, b: Path, c: Path) returns (builder: Builder)
    ensures builder.mode == ModeDirectories && builder.penetration == PenetrationRecursive
    ensures builder.directories == [a, b, c] && builder.filter == None
  {
    builder := new Builder();
    var _ := builder.Files();
    var _ := builder.In([a]);
    var _ := builder.Recursive();
    var _ := builder.Directories();
    var _ := builder.In([b, c]);
  }

  /** Flat mode: no directory gives an unconfigured basic scanner, one gives a basic scanner
      on it, several give a multi scanner of basic scanners in the same order; any refused
      directory makes the first refusal the error. */
  lemma FlatCases(stat: Path -> Stat, numCPU: nat, dirs: seq<Path>)
    ensures var r := Concrete(stat, numCPU, PenetrationFlat, dirs);
      && (|dirs| == 0 ==> r == Ok(Basic("")))
      && (r.Err? <==> FirstInvalid(stat, dirs).Some?)
      && (r.Err? ==> r.error == FirstInvalid(stat, dirs).value)
      && (|dirs| == 1 && r.Ok? ==> r.value == Basic(dirs[0]))
      && (|dirs| >= 2 && r.Ok? ==>
            && r.value.Multi? && |r.value.scanners| == |dirs|
            && forall i :: 0 <= i < |dirs| ==> r.value.scanners[i] == Basic(dirs[i]))
  {
    if |dirs| == 1 {
      assert dirs[1..] == [];
    }
  }

  /** Flat mode keeps repeated directories: each gets its own basic scanner. */
  lemma FlatKeepsRepeats(stat: Path -> Stat, numCPU: nat, d: Path)
    requires stat(d) == Found(Directory)
    ensures Concrete(stat, numCPU, PenetrationFlat, [d, d]) == Ok(Multi([Basic(d), Basic(d)]))
  {
    assert [d, d][1..] == [d];
    assert [d][1..] == [];
    assert FirstInvalid(stat, [d]) == None;
    assert FirstInvalid(stat, [d, d]) == None;
    assert seq(2, i requires 0 <= i < 2 => Basic([d, d][i])) == [Basic(d), Basic(d)];
  }

  /** Recursive mode: one recursive scanner over all the directories without repeats and
      with the default worker cap, or no roots when none were given. */
  lemma RecursiveCase(stat: Path -> Stat, numCPU: nat, dirs: seq<Path>)
    ensures var r := Concrete(stat, numCPU, PenetrationRecursive, dirs);
      && (r.Err? <==> FirstInvalid(stat, dirs).Some?)
      && (r.Err? ==> r.error == FirstInvalid(stat, dirs).value)
      && (r.Ok? ==> r.value == Recursive(RecursiveScanner(Dedup(dirs), numCPU)))
  {
    var init := RecursiveScanner([], numCPU);
    if |dirs| == 0 {
      assert Dedup(dirs) == [];
      assert Configure(stat, init, []) == Ok(init);
    } else {
      var o := WithDirectories(dirs);
      assert [o][1..] == [];
      assert Configure(stat, init, [o]) == match Apply(stat, init, o) case Err(e) => Err(e) case Ok(t) => Configure(stat, t, []);
    }
  }

  /** The filter decision table: all kinds and no filter return the scanner unwrapped; one
      filter wraps it once; a kind filter and a caller's filter are combined with `AndFilter`. */
  lemma FilterTable(s: Scanner, mode: Mode, filter: Option<Filter>)
    ensures mode == ModeAll && filter.None? ==> WrapFilters(s, Filters(mode, filter)) == s
    ensures mode == ModeAll && filter.Some? ==> WrapFilters(s, Filters(mode, filter)) == Filtered(s, filter.value)
    ensures mode == ModeFiles && filter.None? ==> WrapFilters(s, Filters(mode, filter)) == Filtered(s, RegularFilesFilter)
    ensures mode == ModeDirectories && filter.None? ==> WrapFilters(s, Filters(mode, filter)) == Filtered(s, DirectoriesFilter)
    ensures mode == ModeFiles && filter.Some? ==>
      WrapFilters(s, Filters(mode, filter)) == Filtered(s, AndFilter([RegularFilesFilter, filter.value]))
    ensures mode == ModeDirectories && filter.Some? ==>
      WrapFilters(s, Filters(mode, filter)) == Filtered(s, AndFilter([DirectoriesFilter, filter.value]))
  {
    if filter.Some? {
      assert Filters(ModeFiles, filter) == [RegularFilesFilter, filter.value];
      assert Filters(ModeDirectories, filter) == [DirectoriesFilter, filter.value];
    }
  }

  /** `Build` fails exactly when the concrete scanner fails, with its error: wrapping in
      filters never fails. */
  lemma BuildFailsOnlyOnConcrete(stat: Path -> Stat, numCPU: nat, mode: Mode, penetration: Penetration,
                                 dirs: seq<Path>, filter: Option<Filter>)
    ensures Built(stat, numCPU, mode, penetration, dirs, filter).Err? <==> Concrete(stat, numCPU, penetration, dirs).Err?
    ensures Concrete(stat, numCPU, penetration, dirs).Err? ==>
      Built(stat, numCPU, mode, penetration, dirs, filter).error == Concrete(stat, numCPU, penetration, dirs).error
  {
  }

  /** A new builder with no directories builds an unconfigured, unfiltered basic scanner. */
  lemma DefaultBuild(stat: Path -> Stat, numCPU: nat)
    ensures Built(stat, numCPU, ModeAll, PenetrationFlat, [], None) == Ok(Basic(""))
  {
  }
}
