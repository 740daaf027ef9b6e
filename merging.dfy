/** `MultiScanner` (pkg/scanner/multi.go): starts every inner scanner in order, failing on
    the first that cannot start, then merges their streams into one. Each inner stream is
    drained by its own goroutine, so the merged order is any interleaving; the model's merge
    loop takes its next item from any stream that still has one, and a ghost tag records
    which stream each merged item came from. */
module Merging {
  import opened Wrappers
  import opened Items

  /** The items of `out` tagged with source `k`, in merged order. */
  function Pick(out: seq<FileItem>, tags: seq<nat>, k: nat): seq<FileItem>
    requires |tags| == |out|
    decreases |out|
  {
    if out == [] then []
    else
      var n := |out| - 1;
      Pick(out[..n], tags[..n], k) + (if tags[n] == k then [out[n]] else [])
  }

  /** `out` interleaves `streams`: every merged item is tagged with a source, and the items
      of each source appear complete and in that source's order. */
  ghost predicate Interleaves(out: seq<FileItem>, tags: seq<nat>, streams: seq<seq<FileItem>>) {
    && |tags| == |out|
    && (forall i :: 0 <= i < |tags| ==> tags[i] < |streams|)
    && (forall k :: 0 <= k < |streams| ==> Pick(out, tags, k) == streams[k])
  }

  /** The multiset sum of the streams. */
  function Sum(streams: seq<seq<FileItem>>): multiset<FileItem>
    decreases |streams|
  {
    if streams == [] then multiset{}
    else Sum(streams[..|streams| - 1]) + multiset(streams[|streams| - 1])
  }

  function TotalLength(streams: seq<seq<FileItem>>): nat
    decreases |streams|
  {
    if streams == [] then 0
    else TotalLength(streams[..|streams| - 1]) + |streams[|streams| - 1]|
  }

  /** The first loop of `MultiScanner.Scan` (multi.go:22-36): the inner scanners are started
      in list order; the first failure returns its error, and `started` counts the `Scan`
      calls made, so the scanners after it are never started. */
  method StartAll(inners: seq<ScanResult>) returns (r: Result<seq<seq<FileItem>>, Error>, ghost started: nat)
    ensures started <= |inners|
    ensures forall j :: 0 <= j < started - 1 ==> inners[j].Streamed?
    ensures r.Err? ==> 0 < started && inners[started - 1] == ScanFailed(r.error)
    ensures r.Ok? ==> started == |inners| && (forall j :: 0 <= j < |inners| ==> inners[j].Streamed?)
    ensures r.Ok? ==> |r.value| == |inners| && forall j :: 0 <= j < |inners| ==> r.value[j] == inners[j].items
  {
    var streams: seq<seq<FileItem>> := [];
    var i := 0;
    while i < |inners|
      invariant 0 <= i <= |inners|
      invariant |streams| == i
      invariant forall j :: 0 <= j < i ==> inners[j].Streamed? && streams[j] == inners[j].items
    {
      if inners[i].ScanFailed? {
        return Err(inners[i].err), i + 1;
      }
      streams := streams + [inners[i].items];
      i := i + 1;
    }
    return Ok(streams), i;
  }

  lemma PickSnoc(out: seq<FileItem>, tags: seq<nat>, x: FileItem, t: nat, k: nat)
    requires |tags| == |out|
    ensures Pick(out + [x], tags + [t], k) == Pick(out, tags, k) + (if t == k then [x] else [])
  {
    assert (out + [x])[..|out|] == out;
    assert (tags + [t])[..|out|] == tags;
  }

  lemma {:induction false} TotalLengthUpdate(streams: seq<seq<FileItem>>, k: nat, s: seq<FileItem>)
    requires k < |streams|
    ensures TotalLength(streams[k := s]) + |streams[k]| == TotalLength(streams) + |s|
    decreases |streams|
  {
    var n := |streams| - 1;
    assert streams[k := s][..n] == if k < n then streams[..n][k := s] else streams[..n];
    if k < n {
      TotalLengthUpdate(streams[..n], k, s);
    }
  }

  lemma {:induction false} TotalLengthZero(streams: seq<seq<FileItem>>)
    requires TotalLength(streams) == 0
    ensures forall k :: 0 <= k < |streams| ==> streams[k] == []
    decreases |streams|
  {
    if streams != [] {
      TotalLengthZero(streams[..|streams| - 1]);
      assert forall k :: 0 <= k < |streams| - 1 ==> streams[..|streams| - 1][k] == streams[k];
    }
  }

  /** The merge so far: `out` holds, per source, a prefix of that source, and `pending` the
      rest of it. */
  ghost predicate Merging(out: seq<FileItem>, tags: seq<nat>, pending: seq<seq<FileItem>>, streams: seq<seq<FileItem>>) {
    && |pending| == |streams|
    && |tags| == |out|
    && (forall i :: 0 <= i < |tags| ==> tags[i] < |streams|)
    && (forall k :: 0 <= k < |streams| ==> Pick(out, tags, k) + pending[k] == streams[k])
  }

  /** Sending the head of one pending stream keeps the merge consistent. */
  lemma MergeStep(out: seq<FileItem>, tags: seq<nat>, pending: seq<seq<FileItem>>, streams: seq<seq<FileItem>>, k: nat)
    requires Merging(out, tags, pending, streams)
    requires k < |pending| && pending[k] != []
    ensures Merging(out + [pending[k][0]], tags + [k], pending[k := pending[k][1..]], streams)
    ensures TotalLength(pending[k := pending[k][1..]]) < TotalLength(pending)
  {
    var x := pending[k][0];
    forall j | 0 <= j < |streams|
      ensures Pick(out + [x], tags + [k], j) + pending[k := pending[k][1..]][j] == streams[j]
    {
      PickSnoc(out, tags, x, k, j);
      if j == k {
        assert [x] + pending[k][1..] == pending[k];
      }
    }
    TotalLengthUpdate(pending, k, pending[k][1..]);
  }

  /** The merging goroutines of `MultiScanner.Scan` (multi.go:28-41): until every stream is
      exhausted, an item is taken from the head of some non-empty stream and sent; the
      merged stream closes only once all are empty. */
  method Merge(streams: seq<seq<FileItem>>) returns (out: seq<FileItem>, ghost tags: seq<nat>)
    ensures Interleaves(out, tags, streams)
    ensures multiset(out) == Sum(streams) && |out| == TotalLength(streams)
  {
    var pending := streams;
    out, tags := [], [];
    while exists k :: 0 <= k < |pending| && pending[k] != []
      invariant Merging(out, tags, pending, streams)
      decreases TotalLength(pending)
    {
      var k :| 0 <= k < |pending| && pending[k] != [];
      MergeStep(out, tags, pending, streams, k);
      out, tags := out + [pending[k][0]], tags + [k];
      pending := pending[k := pending[k][1..]];
    }
    forall j | 0 <= j < |streams|
      ensures Pick(out, tags, j) == streams[j]
    {
      assert pending[j] == [];
    }
    MergeIsSum(out, tags, streams);
  }

  /** `MultiScanner.Scan` (multi.go:16-44): the first inner failure, with no stream; or an
      interleaving of all inner streams. */
  method MultiScan(inners: seq<ScanResult>) returns (r: ScanResult, ghost tags: seq<nat>, ghost started: nat)
    ensures started <= |inners|
    ensures forall j :: 0 <= j < started - 1 ==> inners[j].Streamed?
    ensures r.ScanFailed? ==> 0 < started && inners[started - 1] == ScanFailed(r.err)
    ensures r.Streamed? <==> forall j :: 0 <= j < |inners| ==> inners[j].Streamed?
    ensures r.Streamed? ==> Interleaves(r.items, tags, seq(|inners|, j requires 0 <= j < |inners| => inners[j].items))
    ensures r.Streamed? ==> multiset(r.items) == Sum(seq(|inners|, j requires 0 <= j < |inners| => inners[j].items))
  {
    var res;
    res, started := StartAll(inners);
    if res.Err? {
      return ScanFailed(res.error), [], started;
    }
    var streams := res.value;
    assert streams == seq(|inners|, j requires 0 <= j < |inners| => inners[j].items);
    var out;
    out, tags := Merge(streams);
    return Streamed(out), tags, started;
  }

  lemma {:induction false} PickAll(out: seq<FileItem>, tags: seq<nat>, n: nat)
    requires |tags| == |out| && forall i :: 0 <= i < |tags| ==> tags[i] < n
    ensures multiset(out) == SumPicks(out, tags, n)
    decreases |out|
  {
    if out == [] {
      SumOfEmpties(seq(n, k requires 0 <= k < n => Pick(out, tags, k)));
    } else {
      var m := |out| - 1;
      PickAll(out[..m], tags[..m], n);
      SumPicksSnoc(out[..m], tags[..m], out[m], tags[m], n);
      assert out[..m] + [out[m]] == out;
      assert tags[..m] + [tags[m]] == tags;
    }
  }

  /** The picks for sources 0 .. n-1, added up. */
  function SumPicks(out: seq<FileItem>, tags: seq<nat>, n: nat): multiset<FileItem>
    requires |tags| == |out|
  {
    Sum(seq(n, k requires 0 <= k < n => Pick(out, tags, k)))
  }

  lemma {:induction false} SumPicksSnoc(out: seq<FileItem>, tags: seq<nat>, x: FileItem, t: nat, n: nat)
    requires |tags| == |out| && t < n
    ensures SumPicks(out + [x], tags + [t], n) == SumPicks(out, tags, n) + multiset{x}
    decreases n
  {
    var before := seq(n, k requires 0 <= k < n => Pick(out, tags, k));
    var after := seq(n, k requires 0 <= k < n => Pick(out + [x], tags + [t], k));
    SumSnocAt(before, after, t, x);
    forall k | 0 <= k < n
      ensures after[k] == before[k] + (if k == t then [x] else [])
    {
      PickSnoc(out, tags, x, t, k);
    }
  }

  lemma {:induction false} SumOfEmpties(streams: seq<seq<FileItem>>)
    requires forall k :: 0 <= k < |streams| ==> streams[k] == []
    ensures Sum(streams) == multiset{}
    decreases |streams|
  {
    if streams != [] {
      SumOfEmpties(streams[..|streams| - 1]);
    }
  }

  /** Appending `x` to one stream adds `x` to the sum. */
  lemma {:induction false} SumSnocAt(before: seq<seq<FileItem>>, after: seq<seq<FileItem>>, t: nat, x: FileItem)
    requires |before| == |after| && t < |before|
    requires forall k :: 0 <= k < |before| ==> after[k] == before[k] + (if k == t then [x] else [])
    ensures Sum(after) == Sum(before) + multiset{x}
    decreases |before|
  {
    var n := |before| - 1;
    assert Sum(after) == Sum(after[..n]) + multiset(after[n]);
    assert Sum(before) == Sum(before[..n]) + multiset(before[n]);
    if t < n {
      forall k | 0 <= k < n
        ensures after[..n][k] == before[..n][k] + (if k == t then [x] else [])
      {
        assert after[..n][k] == after[k] && before[..n][k] == before[k];
      }
      SumSnocAt(before[..n], after[..n], t, x);
      assert after[n] == before[n] + [];
    } else {
      SameUpTo(before, after, t, x);
      assert multiset(after[n]) == multiset(before[n]) + multiset{x} by {
        assert after[n] == before[n] + [x];
      }
    }
  }

  lemma SameUpTo(before: seq<seq<FileItem>>, after: seq<seq<FileItem>>, t: nat, x: FileItem)
    requires |before| == |after| == t + 1
    requires forall k :: 0 <= k < |before| ==> after[k] == before[k] + (if k == t then [x] else [])
    ensures after[..t] == before[..t]
  {
    forall k | 0 <= k < t
      ensures after[k] == before[k]
    {
      assert after[k] == before[k] + [];
    }
  }

  lemma SumOfPicks(out: seq<FileItem>, tags: seq<nat>, streams: seq<seq<FileItem>>)
    requires Interleaves(out, tags, streams)
    ensures SumPicks(out, tags, |streams|) == Sum(streams)
  {
    var n := |streams|;
    assert seq(n, k requires 0 <= k < n => Pick(out, tags, k)) == streams;
  }

  /** The merged stream is the multiset sum of the inner streams, so its length is theirs
      added up: nothing is lost or duplicated by the merge. */
  lemma MergeIsSum(out: seq<FileItem>, tags: seq<nat>, streams: seq<seq<FileItem>>)
    requires Interleaves(out, tags, streams)
    ensures multiset(out) == Sum(streams)
    ensures |out| == TotalLength(streams)
  {
    PickAll(out, tags, |streams|);
    SumOfPicks(out, tags, streams);
    SumLength(streams);
  }

  lemma {:induction false} SumLength(streams: seq<seq<FileItem>>)
    ensures |Sum(streams)| == TotalLength(streams)
    decreases |streams|
  {
    if streams != [] {
      SumLength(streams[..|streams| - 1]);
    }
  }

  /** Three scanners of three items each merge into nine items. */
  lemma ThreeTimesThree(out: seq<FileItem>, tags: seq<nat>, a: seq<FileItem>, b: seq<FileItem>, c: seq<FileItem>)
    requires |a| == 3 && |b| == 3 && |c| == 3
    requires Interleaves(out, tags, [a, b, c])
    ensures |out| == 9
  {
    MergeIsSum(out, tags, [a, b, c]);
    assert [a, b, c][..2] == [a, b];
    assert [a, b][..1] == [a];
    assert [a][..0] == [];
    assert TotalLength([a]) == 3;
    assert TotalLength([a, b]) == 6;
  }

  /** With no inner scanners, the merged stream is empty. */
  lemma NoScannersNoItems(out: seq<FileItem>, tags: seq<nat>)
    ensures Interleaves(out, tags, []) <==> out == [] && tags == []
  {
    if |tags| > 0 {
      assert tags[0] >= 0;
    }
  }
}
