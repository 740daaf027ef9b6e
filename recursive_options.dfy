/** Configuring a `RecursiveScanner` (pkg/scanner/recursive.go:9-66): the functional
    options `WithDirectories` and `WithWorkers`, and `NewRecursiveScanner`, which applies
    options in order to a scanner with the default worker cap and stops at the first error.
    `os.Stat` is the oracle `stat`, and `runtime.NumCPU()` is the parameter `numCPU`. */
module RecursiveOptions {
  import opened Wrappers
  import opened Items
  import opened FileSystem
  import opened Sequences

  /** `RecursiveScanner` (recursive.go:49-52): the roots and the worker cap W. */
  datatype RecursiveScanner = RecursiveScanner(directories: seq<Path>, workers: nat)

  /** A `RecursiveScannerOptionFn`: one of the two the package provides, or a caller's own
      function, which either updates the scanner or fails. */
  datatype RecursiveOption =
    | WithDirectories(dirs: seq<Path>)
    | WithWorkers(count: nat)
    | Custom(apply: RecursiveScanner -> Result<RecursiveScanner, Error>)

  predicate NoDuplicates(s: seq<Path>) {
    forall i, j :: 0 <= i < j < |s| ==> s[i] != s[j]
  }

  /** `dirs` without repeats, each path kept where it was first seen. */
  function Dedup(dirs: seq<Path>): seq<Path>
    decreases |dirs|
  {
    if dirs == [] then []
    else
      var init, last := dirs[..|dirs| - 1], dirs[|dirs| - 1];
      if last in init then Dedup(init) else Dedup(init) + [last]
  }

  /** Why one path is refused as a root: `os.Stat`'s error, or `ErrNotDirectory`. */
  function PathError(stat: Path -> Stat, d: Path): Option<Error> {
    match stat(d)
    case Missing(e) => Some(e)
    case Found(k) => if k == Directory then None else Some(ErrNotDirectory)
  }

  /** The error of the first refused path in `dirs`, if any. */
  function FirstInvalid(stat: Path -> Stat, dirs: seq<Path>): Option<Error>
    decreases |dirs|
  {
    if dirs == [] then None
    else if PathError(stat, dirs[0]).Some? then PathError(stat, dirs[0])
    else FirstInvalid(stat, dirs[1..])
  }

  /** Where `x` first occurs in `s`. */
  function FirstIndex(s: seq<Path>, x: Path): (i: nat)
    requires x in s
    ensures i < |s| && s[i] == x && x !in s[..i]
    decreases |s|
  {
    if s[0] == x then 0
    else
      var i := FirstIndex(s[1..], x);
      assert s[..i + 1] == [s[0]] + s[1..][..i];
      i + 1
  }

  /** `WithDirectories(directories...)` applied to `s` (recursive.go:11-40): every path is
      stat'ed in order, repeats included; the first missing path or non-directory returns
      its error and leaves `s` as it was; otherwise the roots become the paths without
      repeats, in first-seen order. */
  method ApplyDirectories(stat: Path -> Stat, directories: seq<Path>, s: RecursiveScanner)
    returns (t: RecursiveScanner, err: Option<Error>)
    ensures err == FirstInvalid(stat, directories)
    ensures err.Some? ==> t == s
    ensures err.None? ==> t == s.(directories := Dedup(directories))
  {
    var unique: seq<Path> := [];
    var seen: set<Path> := {};
    var i := 0;
    while i < |directories|
      invariant 0 <= i <= |directories|
      invariant FirstInvalid(stat, directories[..i]) == None
      invariant unique == Dedup(directories[..i])
      invariant seen == Elems(directories[..i])
    {
      var d := directories[i];
      FirstInvalidSplit(stat, directories[..i], directories[i..]);
      assert directories[..i] + directories[i..] == directories;
      match stat(d) {
        case Missing(e) =>
          return s, Some(e);
        case Found(k) =>
          if k != Directory {
            return s, Some(ErrNotDirectory);
          }
      }
      PrefixSnoc(directories, i);
      FirstInvalidSplit(stat, directories[..i], [d]);
      if d !in seen {
        seen := seen + {d};
        unique := unique + [d];
      }
      i := i + 1;
    }
    assert directories[..i] == directories;
    t, err := s.(directories := unique), None;
  }

  /** The first refused path of `a + b` is the first of `a`, or failing that the first of `b`. */
  lemma {:induction false} FirstInvalidSplit(stat: Path -> Stat, a: seq<Path>, b: seq<Path>)
    ensures FirstInvalid(stat, a + b) == if FirstInvalid(stat, a).Some? then FirstInvalid(stat, a) else FirstInvalid(stat, b)
    decreases |a|
  {
    if a != [] {
      assert (a + b)[0] == a[0];
      assert (a + b)[1..] == a[1..] + b;
      FirstInvalidSplit(stat, a[1..], b);
    } else {
      assert a + b == b;
    }
  }

  /** All paths are accepted exactly when each one is an existing directory. */
  lemma {:induction false} FirstInvalidNone(stat: Path -> Stat, dirs: seq<Path>)
    ensures FirstInvalid(stat, dirs) == None <==> forall d <- dirs :: stat(d) == Found(Directory)
    decreases |dirs|
  {
    if dirs != [] {
      FirstInvalidNone(stat, dirs[1..]);
      assert forall d <- dirs :: d == dirs[0] || d in dirs[1..];
    }
  }

  /** A refusal is the error of some path of the list, and that path is refused. */
  lemma {:induction false} FirstInvalidNames(stat: Path -> Stat, dirs: seq<Path>)
    requires FirstInvalid(stat, dirs).Some?
    ensures exists i :: 0 <= i < |dirs| && PathError(stat, dirs[i]) == FirstInvalid(stat, dirs)
                        && forall j :: 0 <= j < i ==> PathError(stat, dirs[j]) == None
    decreases |dirs|
  {
    if PathError(stat, dirs[0]).None? {
      FirstInvalidNames(stat, dirs[1..]);
      var i :| 0 <= i < |dirs[1..]| && PathError(stat, dirs[1..][i]) == FirstInvalid(stat, dirs[1..])
               && forall j :: 0 <= j < i ==> PathError(stat, dirs[1..][j]) == None;
      assert PathError(stat, dirs[i + 1]) == FirstInvalid(stat, dirs);
      forall j | 0 <= j < i + 1
        ensures PathError(stat, dirs[j]) == None
      {
        if j > 0 {
          assert dirs[j] == dirs[1..][j - 1];
        }
      }
    }
  }

  /** Removing repeats keeps exactly the same paths. */
  lemma {:induction false} DedupElems(dirs: seq<Path>)
    ensures Elems(Dedup(dirs)) == Elems(dirs)
    decreases |dirs|
  {
    if dirs != [] {
      var init, last := dirs[..|dirs| - 1], dirs[|dirs| - 1];
      DedupElems(init);
      assert dirs == init + [last];
      forall x
        ensures x in Elems(Dedup(dirs)) <==> x in Elems(dirs)
      {
        assert x in Elems(dirs) <==> x in init || x == last;
        assert x in Elems(init) <==> x in init;
        assert x in Elems(Dedup(init)) <==> x in Dedup(init);
      }
    }
  }

  /** No path appears twice among the roots. */
  lemma {:induction false} DedupNoDuplicates(dirs: seq<Path>)
    ensures NoDuplicates(Dedup(dirs))
    decreases |dirs|
  {
    if dirs != [] {
      var init, last := dirs[..|dirs| - 1], dirs[|dirs| - 1];
      DedupNoDuplicates(init);
      DedupElems(init);
      if last !in init {
        assert last !in Elems(Dedup(init));
      }
    }
  }

  /** A list without repeats is kept as it is; in particular removing repeats twice is the
      same as once. */
  lemma {:induction false} DedupOfDistinct(dirs: seq<Path>)
    requires NoDuplicates(dirs)
    ensures Dedup(dirs) == dirs
    decreases |dirs|
  {
    if dirs != [] {
      var init, last := dirs[..|dirs| - 1], dirs[|dirs| - 1];
      assert NoDuplicates(init);
      assert last !in init;
      DedupOfDistinct(init);
    }
  }

  lemma DedupIdempotent(dirs: seq<Path>)
    ensures Dedup(Dedup(dirs)) == Dedup(dirs)
  {
    DedupNoDuplicates(dirs);
    DedupOfDistinct(Dedup(dirs));
  }

  lemma FirstIndexSnoc(s: seq<Path>, y: Path, x: Path)
    requires x in s
    ensures FirstIndex(s + [y], x) == FirstIndex(s, x)
  {
    var i := FirstIndex(s, x);
    var j := FirstIndex(s + [y], x);
    assert forall k :: 0 <= k < |s| ==> (s + [y])[k] == s[k];
    assert forall k :: 0 <= k < i ==> s[..i][k] == s[k];
    assert forall k :: 0 <= k < j ==> (s + [y])[..j][k] == (s + [y])[k];
  }

  lemma LastFirstIndex(s: seq<Path>, x: Path)
    requires x !in s
    ensures FirstIndex(s + [x], x) == |s|
  {
    assert forall k :: 0 <= k < |s| ==> (s + [x])[k] == s[k];
  }

  /** The roots keep first-seen order: a root listed before another was first seen before it. */
  lemma {:induction false} DedupFirstSeen(dirs: seq<Path>, i: nat, j: nat)
    requires i < j < |Dedup(dirs)|
    ensures Dedup(dirs)[i] in dirs && Dedup(dirs)[j] in dirs
    ensures FirstIndex(dirs, Dedup(dirs)[i]) < FirstIndex(dirs, Dedup(dirs)[j])
    decreases |dirs|
  {
    var init, last := dirs[..|dirs| - 1], dirs[|dirs| - 1];
    assert dirs == init + [last];
    var u := Dedup(init);
    DedupElems(init);
    assert u[i] in Elems(u);
    FirstIndexSnoc(init, last, u[i]);
    if j < |u| {
      assert u[j] in Elems(u);
      DedupFirstSeen(init, i, j);
      FirstIndexSnoc(init, last, u[j]);
    } else {
      assert last !in init && Dedup(dirs)[j] == last;
      LastFirstIndex(init, last);
    }
  }

  /** Paths already given add nothing when given again. */
  lemma {:induction false} DedupAbsorbsRepeats(dirs: seq<Path>, again: seq<Path>)
    requires Elems(again) <= Elems(dirs)
    ensures Dedup(dirs + again) == Dedup(dirs)
    decreases |again|
  {
    if again != [] {
      var init, last := again[..|again| - 1], again[|again| - 1];
      assert (dirs + again)[..|dirs + again| - 1] == dirs + init;
      assert last in Elems(again);
      assert last in dirs + init;
      assert (dirs + again)[|dirs + again| - 1] == last;
      assert Elems(init) <= Elems(again);
      DedupAbsorbsRepeats(dirs, init);
    } else {
      assert dirs + again == dirs;
    }
  }

  /** Naming paths again changes neither the outcome nor the roots of `WithDirectories`:
      giving a root once or three times is the same. */
  lemma RepeatsChangeNothing(stat: Path -> Stat, dirs: seq<Path>, again: seq<Path>)
    requires Elems(again) <= Elems(dirs)
    ensures FirstInvalid(stat, dirs + again) == FirstInvalid(stat, dirs)
    ensures Dedup(dirs + again) == Dedup(dirs)
  {
    FirstInvalidSplit(stat, dirs, again);
    if FirstInvalid(stat, dirs).None? {
      FirstInvalidNone(stat, dirs);
      forall d <- again
        ensures stat(d) == Found(Directory)
      {
        assert d in Elems(again);
      }
      FirstInvalidNone(stat, again);
    }
    DedupAbsorbsRepeats(dirs, again);
  }

  lemma RootThriceIsRootOnce(stat: Path -> Stat, d: Path)
    ensures FirstInvalid(stat, [d, d, d]) == FirstInvalid(stat, [d])
    ensures Dedup([d, d, d]) == [d]
  {
    RepeatsChangeNothing(stat, [d], [d, d]);
    assert [d] + [d, d] == [d, d, d];
    assert Dedup([d]) == Dedup([]) + [d];
  }

  /** One option applied to the scanner under construction. */
  function Apply(stat: Path -> Stat, s: RecursiveScanner, option: RecursiveOption): Result<RecursiveScanner, Error> {
    match option
    case WithDirectories(dirs) =>
      if FirstInvalid(stat, dirs).Some? then Err(FirstInvalid(stat, dirs).value)
      else Ok(s.(directories := Dedup(dirs)))
    case WithWorkers(n) => Ok(s.(workers := n))
    case Custom(f) => f(s)
  }

  /** The options applied in order; the first failure ends construction with its error. */
  function Configure(stat: Path -> Stat, s: RecursiveScanner, options: seq<RecursiveOption>): Result<RecursiveScanner, Error>
    decreases |options|
  {
    if options == [] then Ok(s)
    else
      match Apply(stat, s, options[0])
      case Err(e) => Err(e)
      case Ok(t) => Configure(stat, t, options[1..])
  }

  /** `NewRecursiveScanner` (recursive.go:54-66): no roots, W = `runtime.NumCPU()`, then the
      options in order; a failing option yields no scanner and its error. */
  method NewRecursiveScanner(stat: Path -> Stat, numCPU: nat, options: seq<RecursiveOption>)
    returns (r: Result<RecursiveScanner, Error>)
    requires numCPU >= 1
    ensures r == Configure(stat, RecursiveScanner([], numCPU), options)
  {
    var s := RecursiveScanner([], numCPU);
    var i := 0;
    while i < |options|
      invariant 0 <= i <= |options|
      invariant Configure(stat, RecursiveScanner([], numCPU), options) == Configure(stat, s, options[i..])
    {
      assert options[i..][1..] == options[i + 1..];
      match options[i] {
        case WithDirectories(dirs) =>
          var t, err := ApplyDirectories(stat, dirs, s);
          if err.Some? {
            return Err(err.value);
          }
          s := t;
        case WithWorkers(n) =>
          s := s.(workers := n);
        case Custom(f) =>
          var res := f(s);
          if res.Err? {
            return Err(res.error);
          }
          s := res.value;
      }
      i := i + 1;
    }
    return Ok(s);
  }

  /** Applying `a` then `b` is applying `a + b`: construction stops at the first failure
      and later options are never applied. */
  lemma {:induction false} ConfigureSplit(stat: Path -> Stat, s: RecursiveScanner, a: seq<RecursiveOption>, b: seq<RecursiveOption>)
    ensures Configure(stat, s, a + b) ==
      match Configure(stat, s, a)
      case Err(e) => Err(e)
      case Ok(t) => Configure(stat, t, b)
    decreases |a|
  {
    if a == [] {
      assert a + b == b;
    } else {
      assert (a + b)[0] == a[0];
      assert (a + b)[1..] == a[1..] + b;
      match Apply(stat, s, a[0]) {
        case Err(e) =>
        case Ok(t) => ConfigureSplit(stat, t, a[1..], b);
      }
    }
  }

  /** Without options the scanner has no roots and a positive worker cap. */
  lemma DefaultScanner(stat: Path -> Stat, numCPU: nat)
    requires numCPU >= 1
    ensures Configure(stat, RecursiveScanner([], numCPU), []) == Ok(RecursiveScanner([], numCPU))
    ensures Configure(stat, RecursiveScanner([], numCPU), []).value.workers >= 1
  {
  }

  /** The first failing option decides the error, whatever follows it. */
  lemma FirstFailureWins(stat: Path -> Stat, s: RecursiveScanner, a: seq<RecursiveOption>, failing: RecursiveOption,
                         b: seq<RecursiveOption>, e: Error)
    requires Configure(stat, s, a).Ok? && Apply(stat, Configure(stat, s, a).value, failing) == Err(e)
    ensures Configure(stat, s, a + [failing] + b) == Err(e)
  {
    ConfigureSplit(stat, s, a, [failing] + b);
    assert a + [failing] + b == a + ([failing] + b);
    assert ([failing] + b)[1..] == b;
  }

  /** `WithWorkers` options leave the roots alone and never fail. */
  lemma {:induction false} WorkersOnlyKeepRoots(stat: Path -> Stat, s: RecursiveScanner, b: seq<RecursiveOption>)
    requires forall i :: 0 <= i < |b| ==> b[i].WithWorkers?
    ensures Configure(stat, s, b).Ok? && Configure(stat, s, b).value.directories == s.directories
    decreases |b|
  {
    if b != [] {
      WorkersOnlyKeepRoots(stat, s.(workers := b[0].count), b[1..]);
    }
  }

  /** A later `WithDirectories` overwrites an earlier one: the roots are those of the last
      one, without repeats. */
  lemma LastDirectoriesWin(stat: Path -> Stat, s: RecursiveScanner, a: seq<RecursiveOption>, dirs: seq<Path>,
                           b: seq<RecursiveOption>)
    requires forall i :: 0 <= i < |b| ==> b[i].WithWorkers?
    requires Configure(stat, s, a + [WithDirectories(dirs)] + b).Ok?
    ensures Configure(stat, s, a + [WithDirectories(dirs)] + b).value.directories == Dedup(dirs)
  {
    var d := WithDirectories(dirs);
    ConfigureSplit(stat, s, a + [d], b);
    ConfigureSplit(stat, s, a, [d]);
    var t := Configure(stat, s, a).value;
    assert [d][1..] == [];
    WorkersOnlyKeepRoots(stat, Configure(stat, s, a + [d]).value, b);
  }

  /** The option-function test: an option that always fails yields no scanner. */
  lemma FailingOptionYieldsNoScanner(stat: Path -> Stat, numCPU: nat, e: Error)
    ensures Configure(stat, RecursiveScanner([], numCPU), [Custom(_ => Err(e))]) == Err(e)
  {
  }

  /** With no paths `WithDirectories` succeeds and leaves no roots. */
  lemma NoDirectoriesSucceeds(stat: Path -> Stat, s: RecursiveScanner)
    ensures Apply(stat, s, WithDirectories([])) == Ok(s.(directories := []))
  {
  }
}
