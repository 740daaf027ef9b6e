/** The coordinator goroutine of `RecursiveScanner.Scan` (pkg/scanner/recursive.go:83-117):
    the single owner of the FIFO of directories waiting for a worker and of the in-flight
    set, reacting to one event at a time. Its local variables are a `CoordState` value and
    each `select` case is a pure handler over it; the traversal driver applies them. */
module Scheduler {
  import opened Wrappers
  import opened Items

  /** `Running` while the loop runs; `Done` once `doneChan` is closed; `Cancelled` once
      the loop returned because the context was cancelled. */
  datatype Status = Running | Done | Cancelled

  /** `queue` is `directoriesToScanQueue`, `workers` the key set of the `workers` map,
      `cap` the worker cap W. */
  datatype CoordState = CoordState(cap: nat, queue: seq<Path>, workers: set<Path>, status: Status)

  function Initial(cap: nat): CoordState {
    CoordState(cap, [], {}, Running)
  }

  /** A schedule request (recursive.go:88-97): admit the directory when fewer than W tasks
      run, otherwise append it to the queue's tail. A stopped coordinator reads no more. */
  function OnSchedule(s: CoordState, dir: Path): (t: CoordState)
    ensures t.cap == s.cap && t.status == s.status
    ensures s.status == Running ==> s.workers <= t.workers && (dir in t.workers || t.queue == s.queue + [dir])
  {
    if s.status != Running then s
    else if |s.workers| < s.cap then s.(workers := s.workers + {dir})
    else s.(queue := s.queue + [dir])
  }

  /** A finish notification (recursive.go:98-114): drop the directory from the in-flight
      set; admit the queue's head if there is one; otherwise, with nothing in flight,
      signal completion (close `doneChan`) and stop. */
  function OnFinish(s: CoordState, dir: Path): (t: CoordState)
    ensures t.cap == s.cap
    ensures s.status == Running && t.status == Done ==> t.queue == [] && t.workers == {}
    ensures s.status == Running && s.queue != [] ==> t.queue == s.queue[1..] && s.queue[0] in t.workers
  {
    if s.status != Running then s
    else
      var rest := s.workers - {dir};
      if |s.queue| > 0 then s.(queue := s.queue[1..], workers := rest + {s.queue[0]})
      else if |rest| == 0 then s.(workers := rest, status := Done)
      else s.(workers := rest)
  }

  /** Cancellation (recursive.go:86-87): the loop returns without signalling completion. */
  function OnCancel(s: CoordState): (t: CoordState)
    ensures t.status != Running
    ensures t.cap == s.cap && t.queue == s.queue && t.workers == s.workers
  {
    if s.status != Running then s else s.(status := Cancelled)
  }

  datatype Event = ScheduleReq(dir: Path) | FinishedReq(dir: Path) | CancelReq

  function Step(s: CoordState, e: Event): CoordState {
    match e
    case ScheduleReq(d) => OnSchedule(s, d)
    case FinishedReq(d) => OnFinish(s, d)
    case CancelReq => OnCancel(s)
  }

  /** The state after the coordinator has read `events` in order. */
  function Run(s: CoordState, events: seq<Event>): CoordState
    decreases |events|
  {
    if events == [] then s else Run(Step(s, events[0]), events[1..])
  }

  /** How many times reading `events` closes `doneChan`. */
  function Signals(s: CoordState, events: seq<Event>): nat
    decreases |events|
  {
    if events == [] then 0
    else
      var t := Step(s, events[0]);
      (if s.status != Done && t.status == Done then 1 else 0) + Signals(t, events[1..])
  }

  /** The coordinator's invariant: never more than W tasks in flight; a waiting directory
      means every slot is taken; waiting and running directories are distinct; completion
      leaves nothing behind. */
  ghost predicate Inv(s: CoordState) {
    && |s.workers| <= s.cap
    && (s.queue != [] ==> |s.workers| == s.cap)
    && (forall i, j :: 0 <= i < j < |s.queue| ==> s.queue[i] != s.queue[j])
    && (forall i :: 0 <= i < |s.queue| ==> s.queue[i] !in s.workers)
    && (s.status == Done ==> s.queue == [] && s.workers == {})
  }

  /** An event the model lets happen in state `s`: a newly scheduled directory is neither
      waiting nor running (directories form a tree), and a finishing directory is in flight. */
  predicate Legal(s: CoordState, e: Event) {
    match e
    case ScheduleReq(d) => d !in s.workers && d !in s.queue
    case FinishedReq(d) => s.status == Running ==> d in s.workers
    case CancelReq => true
  }

  predicate LegalRun(s: CoordState, events: seq<Event>)
    decreases |events|
  {
    events == [] || (Legal(s, events[0]) && LegalRun(Step(s, events[0]), events[1..]))
  }

  lemma InitialInv(cap: nat)
    ensures Inv(Initial(cap))
  {
  }

  /** Schedule admits exactly when a slot is free, and otherwise queues at the tail. */
  lemma ScheduleAdmitsIffRoom(s: CoordState, dir: Path)
    requires Inv(s) && s.status == Running && Legal(s, ScheduleReq(dir))
    ensures var t := OnSchedule(s, dir);
      && t.cap == s.cap && t.status == s.status
      && (dir in t.workers <==> |s.workers| < s.cap)
      && (|s.workers| < s.cap ==> t.workers == s.workers + {dir} && |t.workers| == |s.workers| + 1
                                  && t.queue == s.queue == [])
      && (|s.workers| >= s.cap ==> t.workers == s.workers && t.queue == s.queue + [dir])
  {
  }

  lemma ScheduleKeepsInv(s: CoordState, dir: Path)
    requires Inv(s) && Legal(s, ScheduleReq(dir))
    ensures Inv(OnSchedule(s, dir))
  {
  }

  /** Finish hands the freed slot to the queue's head, first in first out, and completion
      is signalled exactly when neither a queued nor another running directory is left. */
  lemma FinishAdmitsHead(s: CoordState, dir: Path)
    requires Inv(s) && s.status == Running && Legal(s, FinishedReq(dir))
    ensures var t := OnFinish(s, dir);
      && t.cap == s.cap
      && (s.queue != [] ==> t.workers == s.workers - {dir} + {s.queue[0]} && t.queue == s.queue[1..]
                            && |t.workers| == |s.workers| && t.status == Running)
      && (s.queue == [] ==> t.workers == s.workers - {dir} && t.queue == [])
      && (t.status == Done <==> s.queue == [] && s.workers == {dir})
      && (t.status == Running <==> !(s.queue == [] && s.workers == {dir}))
  {
    var t := OnFinish(s, dir);
    if s.queue != [] {
      assert s.queue[0] !in s.workers;
    }
    if s.queue == [] && |s.workers - {dir}| == 0 {
      assert s.workers == {dir};
    }
  }

  lemma FinishKeepsInv(s: CoordState, dir: Path)
    requires Inv(s) && Legal(s, FinishedReq(dir))
    ensures Inv(OnFinish(s, dir))
  {
    if s.status == Running && s.queue != [] {
      var t := OnFinish(s, dir);
      assert s.queue[0] !in s.workers;
      assert forall i :: 0 <= i < |t.queue| ==> t.queue[i] == s.queue[i + 1];
    }
  }

  /** Cancel stops the loop without signalling completion. */
  lemma CancelStops(s: CoordState)
    requires s.status == Running
    ensures OnCancel(s).status == Cancelled
    ensures OnCancel(s).queue == s.queue && OnCancel(s).workers == s.workers
  {
  }

  /** Whatever sequence of legal events the coordinator reads, its invariant holds: in
      particular at most W directories are ever in flight. */
  lemma {:induction false} RunKeepsInv(s: CoordState, events: seq<Event>)
    requires Inv(s) && LegalRun(s, events)
    ensures Inv(Run(s, events))
    ensures |Run(s, events).workers| <= s.cap
    decreases |events|
  {
    if events != [] {
      var t := Step(s, events[0]);
      match events[0] {
        case ScheduleReq(d) => ScheduleKeepsInv(s, d);
        case FinishedReq(d) => FinishKeepsInv(s, d);
        case CancelReq =>
      }
      RunKeepsInv(t, events[1..]);
    }
  }

  /** A stopped coordinator reads nothing more: its state no longer changes. */
  lemma {:induction false} StoppedIsFinal(s: CoordState, events: seq<Event>)
    requires s.status != Running
    ensures Run(s, events) == s
    ensures Signals(s, events) == 0
    decreases |events|
  {
    if events != [] {
      assert Step(s, events[0]) == s;
      StoppedIsFinal(s, events[1..]);
    }
  }

  /** Completion is signalled at most once, and only when nothing is queued or in flight. */
  lemma {:induction false} SignalledAtMostOnce(s: CoordState, events: seq<Event>)
    requires Inv(s) && LegalRun(s, events)
    ensures Signals(s, events) <= 1
    ensures Run(s, events).status == Done ==> Run(s, events).queue == [] && Run(s, events).workers == {}
    decreases |events|
  {
    RunKeepsInv(s, events);
    if events != [] {
      var t := Step(s, events[0]);
      match events[0] {
        case ScheduleReq(d) => ScheduleKeepsInv(s, d);
        case FinishedReq(d) => FinishKeepsInv(s, d);
        case CancelReq =>
      }
      if s.status == Running && t.status == Done {
        StoppedIsFinal(t, events[1..]);
      } else {
        SignalledAtMostOnce(t, events[1..]);
      }
    }
  }

  /** After cancellation no event ever signals completion. */
  lemma CancelNeverSignals(s: CoordState, events: seq<Event>)
    requires s.status == Running
    ensures Signals(OnCancel(s), events) == 0
    ensures Run(OnCancel(s), events).status == Cancelled
  {
    StoppedIsFinal(OnCancel(s), events);
  }

  /** Schedule requests only, as the root feeder and listing tasks send them. */
  predicate AllSchedules(events: seq<Event>) {
    forall i :: 0 <= i < |events| ==> events[i].ScheduleReq?
  }

  /** With a worker cap of 0 (`WithWorkers(0)` is accepted), no directory is ever admitted:
      every schedule request is queued, no task runs, so no finish notice can ever arrive
      and completion is never signalled. */
  lemma {:induction false} ZeroWorkersNeverStart(s: CoordState, events: seq<Event>)
    requires s.cap == 0 && s.workers == {} && s.status == Running
    requires AllSchedules(events)
    ensures Run(s, events).workers == {} && Run(s, events).status == Running
    ensures Signals(s, events) == 0
    ensures |Run(s, events).queue| == |s.queue| + |events|
    decreases |events|
  {
    if events != [] {
      var t := Step(s, events[0]);
      assert t == s.(queue := s.queue + [events[0].dir]);
      assert AllSchedules(events[1..]) by {
        forall i | 0 <= i < |events[1..]|
          ensures events[1..][i].ScheduleReq?
        {
          assert events[1..][i] == events[i + 1];
        }
      }
      ZeroWorkersNeverStart(t, events[1..]);
    }
  }

  /** As written, the coordinator may read a listing task's finish notice before the
      schedule request that task sent earlier: both channels are ready and `select` picks
      either. Read in that order, the finish of the only running directory finds an empty
      queue and signals completion; the scheduled subdirectory `c` is never scanned. Read in
      the order the listing task sent them, `c` is admitted and nothing completes. The same happens
      to a second root `r` when the first root's task finishes before the feeder's send of
      `r` is read. */
  lemma FinishOvertakesSchedule(cap: nat, d: Path, c: Path)
    requires cap >= 1 && c != d
    ensures var s := CoordState(cap, [], {d}, Running);
      && Run(s, [FinishedReq(d), ScheduleReq(c)]).status == Done
      && c !in Run(s, [FinishedReq(d), ScheduleReq(c)]).workers
      && Signals(s, [FinishedReq(d), ScheduleReq(c)]) == 1
      && Run(s, [ScheduleReq(c), FinishedReq(d)]).status == Running
      && Run(s, [ScheduleReq(c), FinishedReq(d)]).workers == {c}
      && Signals(s, [ScheduleReq(c), FinishedReq(d)]) == 0
  {
    var s := CoordState(cap, [], {d}, Running);
    var done := s.(workers := {}, status := Done);
    assert OnFinish(s, d) == done;
    assert [FinishedReq(d), ScheduleReq(c)][1..] == [ScheduleReq(c)];
    assert [ScheduleReq(c)][1..] == [];
    StoppedIsFinal(done, [ScheduleReq(c)]);
    if cap == 1 {
      var queued := s.(queue := [c]);
      assert OnSchedule(s, c) == queued;
      assert OnFinish(queued, d) == s.(workers := {c});
    } else {
      assert |s.workers| == 1;
      var both := s.(workers := {d, c});
      assert OnSchedule(s, c) == both;
      assert both.workers - {d} == {c};
      assert OnFinish(both, d) == s.(workers := {c});
    }
    var ordered := [ScheduleReq(c), FinishedReq(d)];
    assert ordered[1..] == [FinishedReq(d)];
    assert [FinishedReq(d)][1..] == [];
    var mid := OnSchedule(s, c);
    var fin := s.(workers := {c});
    assert OnFinish(mid, d) == fin;
    assert Run(mid, [FinishedReq(d)]) == Run(fin, []) == fin;
    assert Run(s, ordered) == Run(mid, [FinishedReq(d)]);
    assert Signals(mid, [FinishedReq(d)]) == 0 + Signals(fin, []);
    assert Signals(s, ordered) == 0 + Signals(mid, [FinishedReq(d)]);
  }

  /** The root-feeder variant: the first root finishes before the second is read. */
  lemma FinishOvertakesRoot(cap: nat, r1: Path, r2: Path)
    requires cap >= 1 && r1 != r2
    ensures var events := [ScheduleReq(r1), FinishedReq(r1), ScheduleReq(r2)];
      && Run(Initial(cap), events).status == Done
      && r2 !in Run(Initial(cap), events).workers
  {
    var s1 := Initial(cap).(workers := {r1});
    assert Step(Initial(cap), ScheduleReq(r1)) == s1;
    assert [ScheduleReq(r1), FinishedReq(r1), ScheduleReq(r2)][1..] == [FinishedReq(r1), ScheduleReq(r2)];
    FinishOvertakesSchedule(cap, r1, r2);
  }
}
