# scanner — a Dafny model of the file-system scanners

This project models the core of the Go package `pkg/scanner`. That package walks directories and streams
`FileItem`s (a file with its parent directory, or an error) on a channel. Scanners compose:

- a **recursive scanner** walks directory trees with a bounded pool of listing tasks, run by a coordinator
  goroutine;
- the **filter**, **limit**, **debug** and **multi** scanners wrap other scanners;
- a fluent **builder** assembles these scanners from a mode, a penetration, a list of directories and an
  optional filter.

How the model represents them:

- **Streams and failures.** A channel read to its end is a finite sequence. A scanner's `Scan` result is
  `Items.ScanResult`: `Streamed(items)` or `ScanFailed(err)`. A Go `panic` is `Wrappers.Outcome.Panicked`.
- **The file system.** It is a value, `FileSystem.FileSystem`. Its `list(dir)` gives a directory's entries
  in listing order, or the error that opening or reading it raises. `Ranked` says that every subdirectory
  lies strictly deeper than its parent, so the tree is finite. `os.Stat` becomes a function parameter
  `stat: Path -> Stat`.
- **The recursive scanner's coordinator.** It is a state value, `Scheduler.CoordState`, with the worker
  cap, the FIFO queue, the set of running directories and a status. Each `select` case is a pure handler.
  The concurrent run is `Traversal.Scan`, a driver that feeds the roots and then, one at a time, runs the
  listing task of some in-flight directory to completion. That listing task's items reach the output,
  and its schedule requests reach the coordinator, in the order it sent them. It is proved to emit every
  item of the reference traversal
  `Traversal.Flat`, with multiplicity.
- **The recursive scanner's options.** Option functions are values of `RecursiveOptions.RecursiveOption`.
  Each either returns the updated scanner or fails.
- **The builder.** It is a class whose setters update its four fields. `Build` is proved to return the
  scanner tree that the pure function `Building.Built` describes.

## Model

| member | source | states |
|---|---|---|
| Items.NewFile | pkg/scanner/scanner.go:26-28 | builds a file from its info and its parent directory; its contract is stated by `Items.PathNameOfNewFile` |
| Items.PathName | pkg/scanner/scanner.go:22-24 | joins the parent directory and the entry name; `Items.PathNameOfNewFile` and `Items.PathNameInjective` state that the join splits back and is injective per directory |
| Items.PathNameOfNewFile | pkg/scanner/scanner.go:22-28 | the path name of a file made by `NewFile` splits back into its parent directory and its own name |
| Items.PathNameInjective | pkg/scanner/scanner.go:22-24 | two files of one directory whose names hold no slash have the same path name only if they have the same name |
| Items.String | pkg/scanner/scanner.go:35-45 | the item's text; its cases are stated by `Items.StringCases` |
| Items.StringCases | pkg/scanner/scanner.go:35-45 | an item with an error prints the error text, even when a file is also set; otherwise a file item prints its path, which splits back into parent and name; an empty item prints "" |
| Items.Must | pkg/scanner/scanner.go:53-67 | `MustScanner` and `MustScan`: return the value unchanged exactly when there is no error, and otherwise panic with that error |
| Scheduler.OnSchedule | pkg/scanner/recursive.go:88-97 | a schedule request keeps the cap and status, loses no running directory, and the directory is either started or appended to the queue; the full case split is `Scheduler.ScheduleAdmitsIffRoom` |
| Scheduler.OnFinish | pkg/scanner/recursive.go:98-114 | a finish notice keeps the cap; a non-empty queue loses its head, which is started; completion is signalled only with an empty queue and no workers; the full case split is `Scheduler.FinishAdmitsHead` |
| Scheduler.OnCancel | pkg/scanner/recursive.go:86-87 | cancellation leaves the coordinator stopped, with cap, queue and workers untouched |
| Scheduler.InitialInv | pkg/scanner/recursive.go:75-81 | the coordinator starts with an empty queue and no workers, which satisfies its invariant: no more workers than the cap, and nothing queued while a slot is free |
| Scheduler.ScheduleAdmitsIffRoom | pkg/scanner/recursive.go:88-97 | a schedule request starts the directory exactly when fewer than `cap` tasks run; otherwise it is appended at the tail of the queue; nothing else changes |
| Scheduler.ScheduleKeepsInv | pkg/scanner/recursive.go:88-97 | a schedule request keeps the coordinator invariant |
| Scheduler.FinishAdmitsHead | pkg/scanner/recursive.go:98-114 | a finish notice removes the finished directory; a non-empty queue hands the freed slot to its head (FIFO); with an empty queue and no workers left the coordinator is done, and otherwise it keeps running |
| Scheduler.FinishKeepsInv | pkg/scanner/recursive.go:98-114 | a finish notice keeps the coordinator invariant |
| Scheduler.CancelStops | pkg/scanner/recursive.go:86-87 | cancellation stops the loop with queue and workers untouched and without signalling completion |
| Scheduler.RunKeepsInv | pkg/scanner/recursive.go:83-117 | after any sequence of legal events the invariant holds and at most `cap` tasks run |
| Scheduler.StoppedIsFinal | pkg/scanner/recursive.go:86-87 | a stopped coordinator (done or cancelled) reads nothing more: state unchanged, no further signal |
| Scheduler.SignalledAtMostOnce | pkg/scanner/recursive.go:110-113 | `doneChan` is closed at most once over any legal run, and only when the queue and the worker set are both empty |
| Scheduler.CancelNeverSignals | pkg/scanner/recursive.go:85-87 | after cancellation no event signals completion and the coordinator stays cancelled |
| Scheduler.ZeroWorkersNeverStart | pkg/scanner/recursive.go:88-97 | with a cap of 0 (`WithWorkers(0)`) schedule requests only grow the queue: no task ever starts, completion is never signalled and the coordinator keeps running |
| Scheduler.FinishOvertakesSchedule | pkg/scanner/recursive.go:98-114 | as written: if a task's finish notice is read before the schedule request it sent for a subdirectory, the coordinator is done with that subdirectory never started; read in send order it is started |
| Scheduler.FinishOvertakesRoot | pkg/scanner/recursive.go:132-136 | as written: if the first root's task finishes before the feeder's second root is read, the coordinator is done and the second root is never started |
| ListingTask.DoScan | pkg/scanner/recursive.go:141-157 | the listing task's sends are exactly its reference trace, and the last one is its own completion notice |
| ListingTask.TaskFinishesOnce | pkg/scanner/recursive.go:142 | the completion notice is sent exactly once, as the last message, on success and failure alike |
| ListingTask.TaskSendsOutput | pkg/scanner/recursive.go:150-156 | the items forwarded are the directory's entries in listing order, or its one error item; the paths scheduled are its subdirectories in listing order |
| ListingTask.TaskFailure | pkg/scanner/recursive.go:144-148 | a directory that cannot be listed yields exactly one error item, then the completion notice, and schedules nothing |
| ListingTask.TaskSchedulesBeforeForwarding | pkg/scanner/recursive.go:151-155 | a subdirectory's schedule request comes right before the forwarding of its entry |
| ListingTask.TaskOutputRecovered | pkg/scanner/recursive.go:144-150 | the items a listing task forwards are its listing passed through `MustScanner`/`MustScan`, with their panic on an unreadable directory recovered as that directory's one error item |
| Traversal.TaskOwes | pkg/scanner/recursive.go:141-157 | what a task forwards, plus the traversals below the directories it schedules, is the whole traversal below its directory, both as items and as scheduled directories |
| Traversal.FlatPerm | pkg/scanner/recursive.go:132-136 | what traversing a list of roots emits does not depend on the order the roots are scheduled in (equal as multisets) |
| Traversal.Deliver | pkg/scanner/recursive.go:88-97 | one listing task's body is delivered in send order: its items reach the output stream directly, and the coordinator admits or queues each directory it schedules; the invariant holds and the work still owed is conserved |
| Traversal.RunTask | pkg/scanner/recursive.go:98-114 | one task runs and its notice is read: the invariant and cap hold, the status is done exactly when no worker is left, output plus the work still owed is conserved, and the number of pending directories strictly decreases |
| Traversal.Feed | pkg/scanner/recursive.go:132-136 | feeding the roots leaves the coordinator running with the roots queued or running, and they owe exactly the whole traversal |
| Traversal.Scan | pkg/scanner/recursive.go:68-139 | with no roots the stream is empty and closed; otherwise the stream is closed once completion is signalled, and it holds exactly the items of the reference traversal of all roots (each entry below each root once, and one error item per unreadable directory) |
| RecursiveOptions.ApplyDirectories | pkg/scanner/recursive.go:11-40 | fails with the first path's `Stat` error or `ErrNotDirectory`, leaving the scanner unchanged; otherwise sets the directories to the list without repeats |
| RecursiveOptions.FirstInvalidNone | pkg/scanner/recursive.go:18-26 | validation passes exactly when every path stats to a directory |
| RecursiveOptions.FirstInvalidNames | pkg/scanner/recursive.go:18-26 | a validation failure is the `Stat` error or `ErrNotDirectory` of a path that precedes only valid paths |
| RecursiveOptions.DedupElems | pkg/scanner/recursive.go:28-33 | removing repeats keeps exactly the same set of paths |
| RecursiveOptions.DedupNoDuplicates | pkg/scanner/recursive.go:28-33 | the list without repeats has no duplicates |
| RecursiveOptions.DedupOfDistinct | pkg/scanner/recursive.go:28-33 | a list without duplicates is unchanged |
| RecursiveOptions.DedupIdempotent | pkg/scanner/recursive.go:28-33 | removing repeats twice is removing them once |
| RecursiveOptions.DedupFirstSeen | pkg/scanner/recursive.go:28-33 | paths keep the order of their first occurrence |
| RecursiveOptions.DedupAbsorbsRepeats | pkg/scanner/recursive.go:28-30 | appending paths already present changes nothing |
| RecursiveOptions.RepeatsChangeNothing | pkg/scanner/recursive.go:11-40 | `WithDirectories` with repeats of valid directories appended gives the same scanner as without them |
| RecursiveOptions.RootThriceIsRootOnce | pkg/scanner/recursive.go:18-34 | the same directory given three times is kept once |
| RecursiveOptions.NewRecursiveScanner | pkg/scanner/recursive.go:54-66 | starts from no directories and `NumCPU` workers and applies the options in order, stopping at the first failure: equals the fold `Configure` |
| RecursiveOptions.ConfigureSplit | pkg/scanner/recursive.go:59-63 | applying two option lists one after the other is applying their concatenation, and a failure in the first skips the second |
| RecursiveOptions.DefaultScanner | pkg/scanner/recursive.go:55-57 | with no options the scanner has no directories and `NumCPU` workers, at least one |
| RecursiveOptions.FirstFailureWins | pkg/scanner/recursive.go:59-62 | a failing option ends construction with its own error, whatever follows it |
| RecursiveOptions.WorkersOnlyKeepRoots | pkg/scanner/recursive.go:42-47 | a run of `WithWorkers` options never fails and leaves the directories untouched |
| RecursiveOptions.LastDirectoriesWin | pkg/scanner/recursive.go:36 | the directories are those of the last `WithDirectories`, without repeats, whatever earlier options set; only `WithWorkers` options may follow it |
| RecursiveOptions.FailingOptionYieldsNoScanner | pkg/scanner/recursive.go:60-62 | an option returning an error makes construction fail with that error |
| RecursiveOptions.NoDirectoriesSucceeds | pkg/scanner/recursive.go:11-40 | `WithDirectories()` with no paths succeeds and leaves no directories |
| Filtering.FilterRegularFilesFn | pkg/scanner/filter.go:7-13 | accepts exactly the items that carry a regular file; stated by `Filtering.KindFilters` |
| Filtering.FilterDirectoriesFn | pkg/scanner/filter.go:15-21 | accepts exactly the items that carry a directory; stated by `Filtering.KindFilters` |
| Filtering.FilterScan | pkg/scanner/filter.go:28-48 | an inner failure is returned unchanged; otherwise the output is the inner items the predicate accepts, in order |
| Filtering.FilterRegularFilesScan | pkg/scanner/filter.go:50-52 | every forwarded item is a regular file, and the output is the inner stream filtered by `FilterRegularFilesFn` |
| Filtering.FilterDirectoriesScan | pkg/scanner/filter.go:54-56 | every forwarded item is a directory, and the output is the inner stream filtered by `FilterDirectoriesFn` |
| Filtering.FilterAppend | pkg/scanner/filter.go:39-44 | filtering distributes over concatenation, so the order of kept items is the inner order |
| Filtering.FilterCount | pkg/scanner/filter.go:39-44 | an accepted item is kept as often as it occurs, and a rejected item never appears |
| Filtering.FilterAccepted | pkg/scanner/filter.go:39-44 | every forwarded item is accepted and comes from the inner stream |
| Filtering.FilterKeepsAll | pkg/scanner/filter.go:39-44 | a predicate accepting every item forwards the stream unchanged |
| Filtering.KindFilters | pkg/scanner/filter.go:7-21 | error items pass neither kind filter; no item passes both; a file passes exactly the filter of its kind |
| Filtering.ThreeFilesThreeDirectories | pkg/scanner/filter.go:7-21 | three files and three directories listed alternately: each kind filter yields its three, in listing order |
| Limiting.LimitScan | pkg/scanner/limit.go:20-43 | an inner failure is returned; a negative limit panics at channel creation; otherwise every inner item is read and the first `limit` items are forwarded |
| Limiting.TakeIsPrefix | pkg/scanner/limit.go:32-39 | the output is the prefix of length min(limit, n), and a stream no longer than the limit passes unchanged |
| Limiting.SevenUnderFive | pkg/scanner/limit.go:32-39 | seven items under a limit of five: the first five pass |
| Debugging.DebugScan | pkg/scanner/debug.go:15-33 | an inner failure is returned without calling the callback; otherwise the stream is forwarded unchanged and the trace is the callback then the send, item by item |
| Debugging.TraceShape | pkg/scanner/debug.go:26-29 | the trace has two steps per item: the callback sees item i, and then item i is sent |
| Debugging.DebugForwardsAll | pkg/scanner/debug.go:26-29 | what the debug scanner sends is exactly what it read |
| Debugging.PrintPathNameDebugScan | pkg/scanner/debug.go:35-39 | the callback observes each item's `String()`, and the stream is unchanged |
| Debugging.PrintsEveryItem | pkg/scanner/debug.go:35-38 | every item is printed before it is sent, and an error item prints its error text |
| Merging.StartAll | pkg/scanner/multi.go:22-27 | inner scanners start in order; the first failure is returned and no later scanner starts; otherwise every inner stream is returned |
| Merging.Merge | pkg/scanner/multi.go:28-41 | the merged stream interleaves the inner streams: the items taken from each source, in order, are exactly that source's stream; so it holds their union with multiplicity, and its length is their total length |
| Merging.MultiScan | pkg/scanner/multi.go:16-44 | fails exactly when some inner scanner fails, with the error of the first one, starting none after it; otherwise the output interleaves all inner streams and holds their union with multiplicity |
| Merging.MergeIsSum | pkg/scanner/multi.go:28-41 | the merged stream holds the union of the inner streams with multiplicity, and its length is their total length |
| Merging.ThreeTimesThree | pkg/scanner/multi.go:28-35 | merging three streams of three items gives nine items |
| Merging.NoScannersNoItems | pkg/scanner/multi.go:16-43 | a multi scanner over no scanners yields an empty, closed stream, and that is the only interleaving |
| Building.Builder.constructor | pkg/scanner/builder.go:136-141 | a new builder selects all kinds, flat penetration, no directories and no filter |
| Building.Builder.Files | pkg/scanner/builder.go:25-28 | sets the mode to files and leaves every other field |
| Building.Builder.Directories | pkg/scanner/builder.go:30-33 | sets the mode to directories and leaves every other field |
| Building.Builder.Flat | pkg/scanner/builder.go:35-38 | sets flat penetration and leaves every other field |
| Building.Builder.Recursive | pkg/scanner/builder.go:40-43 | sets recursive penetration and leaves every other field |
| Building.Builder.In | pkg/scanner/builder.go:45-48 | appends the directories to those already set, and leaves every other field |
| Building.Builder.Match | pkg/scanner/builder.go:50-53 | replaces the filter and leaves every other field |
| Building.Builder.BuildConcreteScanner | pkg/scanner/builder.go:80-109 | returns the concrete scanner for the builder's fields, as `Concrete` describes |
| Building.Builder.BuildFilterScanner | pkg/scanner/builder.go:111-134 | wraps the scanner in the mode's kind filter and the caller's filter, as `WrapFilters` describes |
| Building.Builder.Build | pkg/scanner/builder.go:55-69 | returns the concrete scanner's error, or the concrete scanner wrapped in its filters |
| Building.Builder.MustBuild | pkg/scanner/builder.go:71-78 | panics with the error exactly when `Build` fails, and otherwise returns the built scanner |
| Building.ChainedSetters | pkg/scanner/builder.go:25-48 | chained setters on one builder: the last mode and penetration win, and `In` accumulates |
| Building.FlatCases | pkg/scanner/builder.go:81-98 | flat mode: no directory gives an unconfigured basic scanner; one gives a basic scanner in it, refused if it is missing or not a directory; several give a multi scanner of basic scanners, failing on the first invalid one |
| Building.FlatKeepsRepeats | pkg/scanner/builder.go:88-97 | flat mode keeps a repeated directory: each occurrence gets its own basic scanner |
| Building.RecursiveCase | pkg/scanner/builder.go:101-108 | recursive mode: one recursive scanner over the directories without repeats and with `NumCPU` workers, or the first validation error |
| Building.FilterTable | pkg/scanner/builder.go:111-134 | all kinds and no filter leave the scanner unwrapped; a single filter wraps it alone; a kind plus a filter wraps it in an `AndFilter` of both, in that order |
| Building.BuildFailsOnlyOnConcrete | pkg/scanner/builder.go:55-69 | `Build` fails exactly when the concrete scanner fails, with its error; wrapping in filters never fails |
| Building.DefaultBuild | pkg/scanner/builder.go:136-141 | a new builder builds an unconfigured, unfiltered basic scanner |

## Left out

- Directory I/O: the basic and simple scanners (`basic.go`, `simple.go`), `os.Open`, `Readdir` in bulks and `os.Stat` are not part of this model. A directory listing is a value of the file system, and `stat` is a parameter.
- A `Readdir` error part way through a listing is not modelled: a listing either succeeds whole or fails with one error. In the source, such an error item has a nil `FileInfo`, so `doScan` panics on `IsDir()`, and the recover turns this into one error item, which drops the rest of the listing.
- Goroutines, channels and `select`: each scanner's result is its channel read to the end. `Traversal.Scan` follows one fixed interleaving, described under "Findings". Channel buffer sizes and back-pressure are not modelled.
- The shutdown goroutine (recursive.go:120-129) and its closing of the channels are modelled only as the `closed` result. Sends that tasks still make after a cancellation are not modelled.
- Traversal.Scan: the driver never cancels. Cancellation is modelled in the coordinator alone (`Scheduler.CancelStops`, `Scheduler.CancelNeverSignals`).
- Traversal.Scan: requires a worker cap of at least 1 when there are roots. With a cap of 0 the source never starts a task and never completes (`Scheduler.ZeroWorkersNeverStart`).
- Traversal.Scan: requires the reachable directories to form a tree (`TreeShaped`). Overlapping roots, or paths reached twice through links, would collide in the coordinator's `workers` map; that is not modelled.
- Traversal.Scan: states the output as a multiset, not its order, because the order depends on the schedule.
- `runtime.NumCPU()` is a parameter `numCPU`.
- Go's `uint` worker count and `int` limit widths are not modelled.
- Limiting.LimitScan: does not model the wrap-around of its `count` after 2^63 - 1 items.
- `path.Join` cleaning of `..` and `.` is not modelled. Joining is the parent, "/" and the name.
- The `Filter` type's constructors (`RegularFilesFilter`, `DirectoriesFilter`, `AndFilter`) are not part of this model's source. In the built tree they are names, and a built scanner tree is not executed end to end.
- An option function mutates `*RecursiveScanner` in Go. Here it returns the updated value, and on failure the partly configured scanner is discarded, as the source discards it.
- Debugging: the callback's side effect (printing) is recorded as the value it observes of each item.
- Merging: the `WaitGroup`, and the forwarding goroutines that keep running after a later inner scanner fails to start, are not modelled.

## Findings

| source | as written | input that shows it | evidently intended | confidence | as-written member | corrected member |
|---|---|---|---|---|---|---|
| pkg/scanner/recursive.go:86-114, 142, 152 | A listing task sends its subdirectories on the buffered `scheduleScanningChan` and then its completion notice on `finishedScanningChan`. The coordinator's `select` may read the notice first, find no workers and an empty queue, and signal completion, which closes the output with the subdirectory never scanned. The same race exists between the root feeder (132-136) and the first root's task. | one root holding one subdirectory, a cap of at least 1, and `select` picking the finish case while the schedule request is buffered | completion is signalled only after every scheduled directory has been scanned | not executed (depends on the scheduler's choice) | Scheduler.FinishOvertakesSchedule | Traversal.Scan |
