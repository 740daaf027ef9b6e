/** `FilterScanner` (pkg/scanner/filter.go): forwards the items of an inner scanner that a
    predicate accepts. A scanner's result is its `Scan` outcome with the channel read to the
    end (`Items.ScanResult`). */
module Filtering {
  import opened Wrappers
  import opened Items

  /** `FilterRegularFilesFn` (filter.go:7-13). */
  function FilterRegularFilesFn(item: FileItem): bool {
    if item.fileInfo.None? then false else item.fileInfo.value.info.kind == Regular
  }

  /** `FilterDirectoriesFn` (filter.go:15-21). */
  function FilterDirectoriesFn(item: FileItem): bool {
    if item.fileInfo.None? then false else item.fileInfo.value.info.kind == Directory
  }

  /** The items of `items` that `keep` accepts, in their original order. */
  function Filter(items: seq<FileItem>, keep: FileItem -> bool): seq<FileItem>
    decreases |items|
  {
    if items == [] then []
    else
      var last := items[|items| - 1];
      Filter(items[..|items| - 1], keep) + (if keep(last) then [last] else [])
  }

  /** `FilterScanner.Scan` (filter.go:28-48): an inner failure is returned as it is, with no
      stream; otherwise every inner item is read and the accepted ones are forwarded. */
  method FilterScan(inner: ScanResult, keep: FileItem -> bool) returns (r: ScanResult)
    ensures inner.ScanFailed? ==> r == inner
    ensures inner.Streamed? ==> r == Streamed(Filter(inner.items, keep))
  {
    if inner.ScanFailed? {
      return inner;
    }
    var items := inner.items;
    var out: seq<FileItem> := [];
    var i := 0;
    while i < |items|
      invariant 0 <= i <= |items|
      invariant out == Filter(items[..i], keep)
    {
      var item := items[i];
      assert items[..i + 1] == items[..i] + [item];
      assert items[..i + 1][..i] == items[..i];
      if keep(item) {
        out := out + [item];
      }
      i := i + 1;
    }
    assert items[..i] == items;
    return Streamed(out);
  }

  /** `NewFilterRegularFilesScanner` (filter.go:50-52): only regular files pass. */
  method FilterRegularFilesScan(inner: ScanResult) returns (r: ScanResult)
    ensures inner.ScanFailed? ==> r == inner
    ensures inner.Streamed? ==> r.Streamed? && forall x <- r.items :: x.fileInfo.Some? && x.fileInfo.value.info.kind == Regular
    ensures inner.Streamed? ==> r == Streamed(Filter(inner.items, FilterRegularFilesFn))
  {
    r := FilterScan(inner, FilterRegularFilesFn);
    if inner.Streamed? {
      FilterAccepted(inner.items, FilterRegularFilesFn);
    }
  }

  /** `NewFilterDirectoriesScanner` (filter.go:54-56): only directories pass. */
  method FilterDirectoriesScan(inner: ScanResult) returns (r: ScanResult)
    ensures inner.ScanFailed? ==> r == inner
    ensures inner.Streamed? ==> r.Streamed? && forall x <- r.items :: x.fileInfo.Some? && x.fileInfo.value.info.kind == Directory
    ensures inner.Streamed? ==> r == Streamed(Filter(inner.items, FilterDirectoriesFn))
  {
    r := FilterScan(inner, FilterDirectoriesFn);
    if inner.Streamed? {
      FilterAccepted(inner.items, FilterDirectoriesFn);
    }
  }

  /** Filtering a concatenation filters each part: the relative order of kept items is the
      inner order. */
  lemma {:induction false} FilterAppend(a: seq<FileItem>, b: seq<FileItem>, keep: FileItem -> bool)
    ensures Filter(a + b, keep) == Filter(a, keep) + Filter(b, keep)
    decreases |b|
  {
    if b == [] {
      assert a + b == a;
    } else {
      var init := b[..|b| - 1];
      assert (a + b)[..|a + b| - 1] == a + init;
      assert (a + b)[|a + b| - 1] == b[|b| - 1];
      FilterAppend(a, init, keep);
    }
  }

  /** Every item is kept as many times as it occurs when accepted, and dropped otherwise. */
  lemma {:induction false} FilterCount(items: seq<FileItem>, keep: FileItem -> bool, x: FileItem)
    ensures multiset(Filter(items, keep))[x] == if keep(x) then multiset(items)[x] else 0
    decreases |items|
  {
    if items != [] {
      var init, last := items[..|items| - 1], items[|items| - 1];
      assert items == init + [last];
      FilterCount(init, keep, x);
    }
  }

  /** Everything forwarded was accepted and came from the inner stream. */
  lemma FilterAccepted(items: seq<FileItem>, keep: FileItem -> bool)
    ensures forall x <- Filter(items, keep) :: keep(x) && x in items
  {
    forall x <- Filter(items, keep)
      ensures keep(x) && x in items
    {
      FilterCount(items, keep, x);
    }
  }

  /** A predicate that accepts every item forwards the stream unchanged. */
  lemma {:induction false} FilterKeepsAll(items: seq<FileItem>, keep: FileItem -> bool)
    requires forall i :: 0 <= i < |items| ==> keep(items[i])
    ensures Filter(items, keep) == items
    decreases |items|
  {
    if items != [] {
      var init := items[..|items| - 1];
      forall i | 0 <= i < |init|
        ensures keep(init[i])
      {
        assert init[i] == items[i];
      }
      FilterKeepsAll(init, keep);
      assert init + [items[|items| - 1]] == items;
    }
  }

  /** Error items carry no file and are dropped by both kind filters; no item passes both;
      a file passes exactly the filter of its kind. */
  lemma KindFilters(item: FileItem)
    ensures item.fileInfo.None? ==> !FilterRegularFilesFn(item) && !FilterDirectoriesFn(item)
    ensures !(FilterRegularFilesFn(item) && FilterDirectoriesFn(item))
    ensures item.fileInfo.Some? ==>
      (FilterRegularFilesFn(item) <==> item.fileInfo.value.info.kind == Regular) &&
      (FilterDirectoriesFn(item) <==> item.fileInfo.value.info.kind == Directory)
  {
  }

  lemma FilterPair(x: FileItem, y: FileItem, keep: FileItem -> bool)
    ensures Filter([x, y], keep) == (if keep(x) then [x] else []) + (if keep(y) then [y] else [])
  {
    assert [x, y][..1] == [x];
    assert [x][..0] == [];
    assert Filter([x], keep) == Filter([], keep) + (if keep(x) then [x] else []);
    assert Filter([x, y], keep) == Filter([x], keep) + (if keep(y) then [y] else []);
  }

  /** Six items in pairs, filtered pair by pair. */
  lemma {:induction false} ThreePairs(a1: FileItem, b1: FileItem, a2: FileItem, b2: FileItem, a3: FileItem, b3: FileItem,
                                      keep: FileItem -> bool)
    ensures Filter([a1, b1, a2, b2, a3, b3], keep) ==
      Filter([a1, b1], keep) + Filter([a2, b2], keep) + Filter([a3, b3], keep)
  {
    var x, y, z := [a1, b1], [a2, b2], [a3, b3];
    assert [a1, b1, a2, b2, a3, b3] == (x + y) + z;
    FilterAppend(x + y, z, keep);
    FilterAppend(x, y, keep);
  }

  /** Three files and three directories, listed alternately: each kind filter yields its
      three, in listing order. */
  lemma ThreeFilesThreeDirectories(f1: FileItem, d1: FileItem, f2: FileItem, d2: FileItem, f3: FileItem, d3: FileItem)
    requires forall f <- [f1, f2, f3] :: f.err.None? && f.fileInfo.Some? && f.fileInfo.value.info.kind == Regular
    requires forall d <- [d1, d2, d3] :: d.err.None? && d.fileInfo.Some? && d.fileInfo.value.info.kind == Directory
    ensures Filter([f1, d1, f2, d2, f3, d3], FilterRegularFilesFn) == [f1, f2, f3]
    ensures Filter([f1, d1, f2, d2, f3, d3], FilterDirectoriesFn) == [d1, d2, d3]
  {
    assert f1 in [f1, f2, f3] && f2 in [f1, f2, f3] && f3 in [f1, f2, f3];
    assert d1 in [d1, d2, d3] && d2 in [d1, d2, d3] && d3 in [d1, d2, d3];
    ThreePairs(f1, d1, f2, d2, f3, d3, FilterRegularFilesFn);
    ThreePairs(f1, d1, f2, d2, f3, d3, FilterDirectoriesFn);
    FilterPair(f1, d1, FilterRegularFilesFn);
    FilterPair(f2, d2, FilterRegularFilesFn);
    FilterPair(f3, d3, FilterRegularFilesFn);
    FilterPair(f1, d1, FilterDirectoriesFn);
    FilterPair(f2, d2, FilterDirectoriesFn);
    FilterPair(f3, d3, FilterDirectoriesFn);
  }
}
