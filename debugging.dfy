/** `DebugScanner` (pkg/scanner/debug.go): forwards an inner scanner's items unchanged and
    hands each one to a callback first. The callback's effect is recorded as what it
    observes of the item, so a run is described by its trace of callback calls and sends. */
module Debugging {
  import opened Wrappers
  import opened Items

  /** One step of the forwarding goroutine: the callback saw an item, or an item was sent. */
  datatype DebugEvent<T> = Observed(seen: T) | Forwarded(item: FileItem)

  /** The trace of forwarding `items`: for each item, the callback and then the send. */
  function DebugTrace<T>(items: seq<FileItem>, debugFn: FileItem -> T): seq<DebugEvent<T>>
    decreases |items|
  {
    if items == [] then []
    else DebugTrace(items[..|items| - 1], debugFn) + [Observed(debugFn(items[|items| - 1])), Forwarded(items[|items| - 1])]
  }

  /** The items a trace sends, in order. */
  function Sent<T>(trace: seq<DebugEvent<T>>): seq<FileItem>
    decreases |trace|
  {
    if trace == [] then []
    else Sent(trace[..|trace| - 1]) + (if trace[|trace| - 1].Forwarded? then [trace[|trace| - 1].item] else [])
  }

  /** `DebugScanner.Scan` (debug.go:15-33): an inner failure is returned with no stream and
      no callback; otherwise each inner item is passed to the callback and then forwarded. */
  method DebugScan<T>(inner: ScanResult, debugFn: FileItem -> T) returns (r: ScanResult, trace: seq<DebugEvent<T>>)
    ensures inner.ScanFailed? ==> r == inner && trace == []
    ensures inner.Streamed? ==> r == inner && trace == DebugTrace(inner.items, debugFn)
  {
    trace := [];
    if inner.ScanFailed? {
      return inner, trace;
    }
    var items := inner.items;
    var out: seq<FileItem> := [];
    var i := 0;
    while i < |items|
      invariant 0 <= i <= |items|
      invariant trace == DebugTrace(items[..i], debugFn)
      invariant out == items[..i]
    {
      var item := items[i];
      assert items[..i + 1] == items[..i] + [item];
      assert items[..i + 1][..i] == items[..i];
      trace := trace + [Observed(debugFn(item))];
      trace := trace + [Forwarded(item)];
      out := out + [item];
      i := i + 1;
    }
    assert items[..i] == items;
    return Streamed(out), trace;
  }

  /** The trace is item by item: the callback sees item `i` just before item `i` is sent. */
  lemma {:induction false} TraceShape<T>(items: seq<FileItem>, debugFn: FileItem -> T)
    ensures |DebugTrace(items, debugFn)| == 2 * |items|
    ensures forall i :: 0 <= i < |items| ==>
      DebugTrace(items, debugFn)[2 * i] == Observed(debugFn(items[i])) &&
      DebugTrace(items, debugFn)[2 * i + 1] == Forwarded(items[i])
    decreases |items|
  {
    if items != [] {
      var init := items[..|items| - 1];
      TraceShape(init, debugFn);
    }
  }

  lemma {:induction false} SentAppend<T>(a: seq<DebugEvent<T>>, b: seq<DebugEvent<T>>)
    ensures Sent(a + b) == Sent(a) + Sent(b)
    decreases |b|
  {
    if b == [] {
      assert a + b == a;
    } else {
      assert (a + b)[..|a + b| - 1] == a + b[..|b| - 1];
      SentAppend(a, b[..|b| - 1]);
    }
  }

  /** The debug scanner is the identity on items: what it sends is what it read. */
  lemma {:induction false} DebugForwardsAll<T>(items: seq<FileItem>, debugFn: FileItem -> T)
    ensures Sent(DebugTrace(items, debugFn)) == items
    decreases |items|
  {
    if items != [] {
      var init, last := items[..|items| - 1], items[|items| - 1];
      DebugForwardsAll(init, debugFn);
      SentAppend(DebugTrace(init, debugFn), [Observed(debugFn(last)), Forwarded(last)]);
      assert [Observed(debugFn(last)), Forwarded(last)][..1] == [Observed(debugFn(last))];
      assert Sent([Observed(debugFn(last))]) == Sent<T>([]);
      assert items == init + [last];
    }
  }

  /** `NewPrintPathNameDebugScanner` (debug.go:35-39): the callback prints `item.String()`,
      so what it observes of each item is that text. */
  method PrintPathNameDebugScan(inner: ScanResult) returns (r: ScanResult, trace: seq<DebugEvent<string>>)
    ensures inner.ScanFailed? ==> r == inner && trace == []
    ensures inner.Streamed? ==> r == inner && trace == DebugTrace(inner.items, String)
  {
    r, trace := DebugScan(inner, String);
  }

  /** Every item is printed, error items included: an error item prints its error text. */
  lemma PrintsEveryItem(items: seq<FileItem>, i: nat)
    requires i < |items|
    ensures |DebugTrace(items, String)| == 2 * |items| && DebugTrace(items, String)[2 * i] == Observed(String(items[i]))
    ensures items[i].err.Some? ==> DebugTrace(items, String)[2 * i] == Observed(items[i].err.value.text)
  {
    TraceShape(items, String);
  }
}
