/** One listing task, `doScan` (pkg/scanner/recursive.go:141-157): list one directory,
    ask the coordinator to schedule every subdirectory, forward every entry to the merged
    stream, turn a failure into one error entry, and always report its own completion.
    The listing task's channel sends are modelled as the sequence of messages it produces. */
module ListingTask {
  import opened Wrappers
  import opened Items
  import opened FileSystem

  /** A send on `scheduleScanningChan`, on `outFileItemChan` or on `finishedScanningChan`. */
  datatype TaskMsg = ScheduleDir(dir: Path) | Send(item: FileItem) | Finished(dir: Path)

  /** The sends for one listed entry: its path is scheduled first when it is a directory,
      then the entry itself is forwarded (recursive.go:151-155). */
  function EntryMsgs(dir: Path, info: Info): seq<TaskMsg> {
    (if info.kind == Directory then [ScheduleDir(Join(dir, info.name))] else []) + [Send(EntryItem(dir, info))]
  }

  function EntriesMsgs(dir: Path, infos: seq<Info>): seq<TaskMsg>
    decreases |infos|
  {
    if infos == [] then []
    else EntriesMsgs(dir, infos[..|infos| - 1]) + EntryMsgs(dir, infos[|infos| - 1])
  }

  /** Everything the listing task sends before its completion notice. A directory that cannot be
      opened makes `Must` panic; the deferred `recover` turns that into
      one error item (recursive.go:144-148). */
  function TaskBody(fs: FileSystem, dir: Path): seq<TaskMsg> {
    match fs.list(dir)
    case Unreadable(e) => [Send(ErrorItem(e))]
    case Listed(es) => EntriesMsgs(dir, es)
  }

  /** The whole task: its body, then the deferred completion notice (recursive.go:142). */
  function TaskTrace(fs: FileSystem, dir: Path): seq<TaskMsg> {
    TaskBody(fs, dir) + [Finished(dir)]
  }

  /** What the lister yields for `dir`: its entries as items, or the one error item. */
  function TaskOutput(fs: FileSystem, dir: Path): seq<FileItem> {
    match fs.list(dir)
    case Unreadable(e) => [ErrorItem(e)]
    case Listed(es) => seq(|es|, i requires 0 <= i < |es| => EntryItem(dir, es[i]))
  }

  /** The subdirectories of `dir` that the listing task asks to schedule, in listing order. */
  function DirChildren(dir: Path, infos: seq<Info>): seq<Path>
    decreases |infos|
  {
    if infos == [] then []
    else
      var last := infos[|infos| - 1];
      DirChildren(dir, infos[..|infos| - 1]) + (if last.kind == Directory then [Join(dir, last.name)] else [])
  }

  function Sends(msgs: seq<TaskMsg>): seq<FileItem>
    decreases |msgs|
  {
    if msgs == [] then []
    else Sends(msgs[..|msgs| - 1]) + (if msgs[|msgs| - 1].Send? then [msgs[|msgs| - 1].item] else [])
  }

  function Schedules(msgs: seq<TaskMsg>): seq<Path>
    decreases |msgs|
  {
    if msgs == [] then []
    else Schedules(msgs[..|msgs| - 1]) + (if msgs[|msgs| - 1].ScheduleDir? then [msgs[|msgs| - 1].dir] else [])
  }

  /** `doScan`, one send at a time. */
  method DoScan(fs: FileSystem, dir: Path) returns (msgs: seq<TaskMsg>)
    ensures msgs == TaskTrace(fs, dir)
    ensures msgs[|msgs| - 1] == Finished(dir)
  {
    msgs := [];
    match fs.list(dir) {
      case Unreadable(e) =>
        msgs := msgs + [Send(ErrorItem(e))];
      case Listed(es) =>
        var i := 0;
        while i < |es|
          invariant 0 <= i <= |es|
          invariant msgs == EntriesMsgs(dir, es[..i])
        {
          var info := es[i];
          if info.kind == Directory {
            msgs := msgs + [ScheduleDir(Join(dir, info.name))];
          }
          msgs := msgs + [Send(EntryItem(dir, info))];
          assert es[..i + 1][..i] == es[..i];
          i := i + 1;
        }
        assert es[..i] == es;
    }
    msgs := msgs + [Finished(dir)];
  }

  lemma {:induction false} SendsAppend(a: seq<TaskMsg>, b: seq<TaskMsg>)
    ensures Sends(a + b) == Sends(a) + Sends(b)
    ensures Schedules(a + b) == Schedules(a) + Schedules(b)
    decreases |b|
  {
    if b == [] {
      assert a + b == a;
    } else {
      assert (a + b)[..|a + b| - 1] == a + b[..|b| - 1];
      SendsAppend(a, b[..|b| - 1]);
    }
  }

  lemma {:induction false} EntriesNoFinish(dir: Path, infos: seq<Info>)
    ensures forall m <- EntriesMsgs(dir, infos) :: !m.Finished?
    decreases |infos|
  {
    if infos != [] {
      EntriesNoFinish(dir, infos[..|infos| - 1]);
    }
  }

  /** The completion notice is sent exactly once, as the listing task's very last message, on
      success and on failure alike. */
  lemma TaskFinishesOnce(fs: FileSystem, dir: Path)
    ensures var t := TaskTrace(fs, dir);
      && t[|t| - 1] == Finished(dir)
      && forall i :: 0 <= i < |t| - 1 ==> !t[i].Finished?
  {
    var t := TaskTrace(fs, dir);
    match fs.list(dir)
    case Unreadable(e) =>
    case Listed(es) =>
      EntriesNoFinish(dir, es);
      assert forall i :: 0 <= i < |t| - 1 ==> t[i] in EntriesMsgs(dir, es);
  }

  /** One entry's messages forward its item and schedule it when it is a directory. */
  lemma EntrySends(dir: Path, e: Info)
    ensures Sends(EntryMsgs(dir, e)) == [EntryItem(dir, e)]
    ensures Schedules(EntryMsgs(dir, e)) == (if e.kind == Directory then [Join(dir, e.name)] else [])
  {
    var item := EntryItem(dir, e);
    assert Sends([Send(item)]) == Sends([]) + [item];
    assert Schedules([Send(item)]) == Schedules([]);
    if e.kind == Directory {
      var c := Join(dir, e.name);
      SendsAppend([ScheduleDir(c)], [Send(item)]);
      assert Sends([ScheduleDir(c)]) == Sends([]);
      assert Schedules([ScheduleDir(c)]) == Schedules([]) + [c];
    } else {
      assert EntryMsgs(dir, e) == [Send(item)];
    }
  }

  /** The messages of all but the last entry, then the last entry's. */
  lemma EntriesSnoc(dir: Path, infos: seq<Info>)
    requires infos != []
    ensures var init, last := infos[..|infos| - 1], infos[|infos| - 1];
      Sends(EntriesMsgs(dir, infos)) == Sends(EntriesMsgs(dir, init)) + [EntryItem(dir, last)]
  {
    var init, last := infos[..|infos| - 1], infos[|infos| - 1];
    SendsAppend(EntriesMsgs(dir, init), EntryMsgs(dir, last));
    EntrySends(dir, last);
  }

  lemma {:induction false} EntriesSends(dir: Path, infos: seq<Info>)
    ensures Sends(EntriesMsgs(dir, infos)) == seq(|infos|, i requires 0 <= i < |infos| => EntryItem(dir, infos[i]))
    decreases |infos|
  {
    if infos != [] {
      var init := infos[..|infos| - 1];
      EntriesSends(dir, init);
      EntriesSnoc(dir, infos);
      var whole := seq(|infos|, i requires 0 <= i < |infos| => EntryItem(dir, infos[i]));
      var front := seq(|init|, i requires 0 <= i < |init| => EntryItem(dir, init[i]));
      assert whole == front + [EntryItem(dir, infos[|infos| - 1])];
    }
  }

  lemma {:induction false} EntriesSchedules(dir: Path, infos: seq<Info>)
    ensures Schedules(EntriesMsgs(dir, infos)) == DirChildren(dir, infos)
    decreases |infos|
  {
    if infos != [] {
      var init := infos[..|infos| - 1];
      var last := infos[|infos| - 1];
      EntriesSchedules(dir, init);
      SendsAppend(EntriesMsgs(dir, init), EntryMsgs(dir, last));
      EntrySends(dir, last);
    }
  }

  /** The listing task forwards exactly what the lister yields, in listing order: every entry of a
      readable directory, or the one error item of an unreadable one. */
  lemma TaskSendsOutput(fs: FileSystem, dir: Path)
    ensures Sends(TaskTrace(fs, dir)) == TaskOutput(fs, dir)
    ensures Schedules(TaskTrace(fs, dir)) == (if fs.list(dir).Listed? then DirChildren(dir, fs.list(dir).entries) else [])
  {
    SendsAppend(TaskBody(fs, dir), [Finished(dir)]);
    assert Sends([Finished(dir)]) == [] && Schedules([Finished(dir)]) == [];
    match fs.list(dir)
    case Unreadable(e) =>
      assert Sends([Send(ErrorItem(e))]) == Sends([]) + [ErrorItem(e)];
    case Listed(es) =>
      EntriesSends(dir, es);
      EntriesSchedules(dir, es);
  }

  /** A failure becomes exactly one error item, sent before the completion notice, and
      nothing is scheduled. */
  lemma TaskFailure(fs: FileSystem, dir: Path)
    requires fs.list(dir).Unreadable?
    ensures TaskTrace(fs, dir) == [Send(ErrorItem(fs.list(dir).err)), Finished(dir)]
    ensures |Sends(TaskTrace(fs, dir))| == 1 && Schedules(TaskTrace(fs, dir)) == []
  {
    TaskSendsOutput(fs, dir);
  }

  /** A scheduled path is immediately followed by the forwarding of the directory entry it
      came from. */
  ghost predicate ScheduleBeforeSend(t: seq<TaskMsg>) {
    forall i :: 0 <= i < |t| && t[i].ScheduleDir? ==>
      && i + 1 < |t| && t[i + 1].Send?
      && t[i + 1].item.fileInfo.Some?
      && t[i + 1].item.fileInfo.value.info.kind == Directory
      && PathName(t[i + 1].item.fileInfo.value) == t[i].dir
  }

  lemma {:induction false} EntriesScheduleBeforeSend(dir: Path, infos: seq<Info>)
    ensures ScheduleBeforeSend(EntriesMsgs(dir, infos))
    decreases |infos|
  {
    if infos != [] {
      var init := EntriesMsgs(dir, infos[..|infos| - 1]);
      var tail := EntryMsgs(dir, infos[|infos| - 1]);
      EntriesScheduleBeforeSend(dir, infos[..|infos| - 1]);
      var t := init + tail;
      forall i | 0 <= i < |t| && t[i].ScheduleDir?
        ensures i + 1 < |t| && t[i + 1].Send? && t[i + 1].item.fileInfo.Some?
          && t[i + 1].item.fileInfo.value.info.kind == Directory
          && PathName(t[i + 1].item.fileInfo.value) == t[i].dir
      {
        if i < |init| {
          assert t[i] == init[i];
          assert t[i + 1] == init[i + 1];
        } else {
          assert t[i] == tail[i - |init|];
        }
      }
    }
  }

  /** Each subdirectory is scheduled before its own entry is forwarded. */
  lemma TaskSchedulesBeforeForwarding(fs: FileSystem, dir: Path)
    ensures ScheduleBeforeSend(TaskTrace(fs, dir))
  {
    var t := TaskTrace(fs, dir);
    var body := TaskBody(fs, dir);
    if fs.list(dir).Listed? {
      EntriesScheduleBeforeSend(dir, fs.list(dir).entries);
    }
    assert ScheduleBeforeSend(body);
    forall i | 0 <= i < |t| && t[i].ScheduleDir?
      ensures i + 1 < |t| && t[i + 1].Send? && t[i + 1].item.fileInfo.Some?
        && t[i + 1].item.fileInfo.value.info.kind == Directory
        && PathName(t[i + 1].item.fileInfo.value) == t[i].dir
    {
      assert i < |body| && t[i] == body[i];
      assert t[i + 1] == body[i + 1];
    }
  }

  /** The trace splits into the body, which holds no completion notice, and the notice. */
  lemma TraceSplit(fs: FileSystem, dir: Path)
    ensures var t := TaskTrace(fs, dir);
      && t[..|t| - 1] == TaskBody(fs, dir) && t[|t| - 1] == Finished(dir)
      && forall m <- TaskBody(fs, dir) :: !m.Finished?
  {
    match fs.list(dir)
    case Unreadable(e) =>
    case Listed(es) =>
      EntriesNoFinish(dir, es);
  }

  /** What the listing task forwards once the deferred `recover` has run: the stream `Must`
      passed through, or one error item for its panic (recursive.go:144-150). */
  function Recovered(o: Outcome<seq<FileItem>, Error>): seq<FileItem> {
    match o
    case Returned(items) => items
    case Panicked(e) => [ErrorItem(e)]
  }

  /** The listing task's forwarded items are the listing guarded by `Must`, recovered: an unreadable
      directory panics and becomes its error item, a readable one streams its entries. */
  lemma TaskOutputRecovered(fs: FileSystem, dir: Path)
    ensures fs.list(dir).Unreadable? ==>
      Sends(TaskTrace(fs, dir)) == Recovered(Must([], Some(fs.list(dir).err)))
    ensures fs.list(dir).Listed? ==>
      Sends(TaskTrace(fs, dir)) == Recovered(Must(TaskOutput(fs, dir), None))
  {
    TaskSendsOutput(fs, dir);
  }
}
