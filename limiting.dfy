/** `LimitScanner` (pkg/scanner/limit.go): forwards at most `limit` items of an inner scanner
    and drains the rest. */
module Limiting {
  import opened Wrappers
  import opened Items

  /** The run-time panic of `make(FileItemChan, n)` with a negative buffer size. */
  const MakeChanSizeOutOfRange: Error := Error("makechan: size out of range")

  /** `LimitScanner{scanner, limit}`, as `NewLimitScanner` builds it (limit.go:9-18); the
      inner scanner is represented by its result. */
  datatype LimitScanner = LimitScanner(inner: ScanResult, limit: int)

  /** The first `limit` items of `items`, or all of them when there are fewer. */
  function Take(items: seq<FileItem>, limit: nat): seq<FileItem> {
    if limit < |items| then items[..limit] else items
  }

  /** `LimitScanner.Scan` (limit.go:20-43): an inner failure is returned with no stream; a
      negative limit makes the buffered channel's creation panic; otherwise every inner item
      is read and counted, and only those counted up to `limit` are forwarded. `read` is the
      number of inner items consumed. */
  method LimitScan(s: LimitScanner) returns (r: Outcome<ScanResult, Error>, ghost read: nat)
    ensures s.inner.ScanFailed? ==> r == Returned(s.inner)
    ensures s.inner.Streamed? && s.limit < 0 ==> r == Panicked(MakeChanSizeOutOfRange)
    ensures s.inner.Streamed? && s.limit >= 0 ==>
      r == Returned(Streamed(Take(s.inner.items, s.limit))) && read == |s.inner.items|
  {
    read := 0;
    if s.inner.ScanFailed? {
      return Returned(s.inner), read;
    }
    if s.limit < 0 {
      return Panicked(MakeChanSizeOutOfRange), read;
    }
    var items := s.inner.items;
    var out: seq<FileItem> := [];
    var count := 0;
    var i := 0;
    while i < |items|
      invariant 0 <= i <= |items|
      invariant count == i
      invariant out == Take(items[..i], s.limit)
    {
      var item := items[i];
      assert items[..i + 1] == items[..i] + [item];
      count := count + 1;
      if count <= s.limit {
        out := out + [item];
      }
      i := i + 1;
    }
    assert items[..i] == items;
    return Returned(Streamed(out)), i;
  }

  function Min(a: nat, b: nat): nat {
    if a < b then a else b
  }

  /** The output is the prefix of the input of length min(limit, n), in order; a stream no
      longer than the limit passes unchanged. */
  lemma TakeIsPrefix(items: seq<FileItem>, limit: nat)
    ensures |Take(items, limit)| == Min(limit, |items|)
    ensures Take(items, limit) == items[..Min(limit, |items|)]
    ensures |items| <= limit ==> Take(items, limit) == items
  {
  }

  /** Seven items under a limit of five: the first five are forwarded. */
  lemma SevenUnderFive(items: seq<FileItem>)
    requires |items| == 7
    ensures Take(items, 5) == items[..5] && |Take(items, 5)| == 5
  {
  }
}
