/** The whole recursive traversal of `RecursiveScanner.Scan` (pkg/scanner/recursive.go:68-157)
    under one fixed interleaving: roots are scheduled first; then, repeatedly, one in-flight
    directory's task runs and the coordinator reads its messages in the order the listing task sent
    them (schedule requests before the completion notice). The reference `Sub` says what a
    traversal below one directory must emit; `Scan` is proved to emit exactly that. */
module Traversal {
  import opened Wrappers
  import opened Items
  import opened FileSystem
  import opened ListingTask
  import opened Scheduler
  import opened Sequences

  /** Everything a traversal of directory `d` emits: each entry of `d` in listing order,
      each subdirectory entry followed by everything below it; an unreadable directory
      contributes its one error item and nothing below it. `d` itself is not emitted. */
  ghost function Sub(fs: FileSystem, d: Path): seq<FileItem>
    requires Ranked(fs)
    decreases fs.height(d), 1
  {
    match fs.list(d)
    case Unreadable(e) => [ErrorItem(e)]
    case Listed(es) => RankedChildren(fs, d); SubEntries(fs, d, es)
  }

  ghost function SubEntries(fs: FileSystem, d: Path, es: seq<Info>): seq<FileItem>
    requires Ranked(fs) && ChildrenBelow(fs, d, es)
    decreases fs.height(d), 0, |es|
  {
    if es == [] then []
    else
      var last := es[|es| - 1];
      SubEntries(fs, d, es[..|es| - 1]) + [EntryItem(d, last)]
      + (if last.kind == Directory then Sub(fs, Join(d, last.name)) else [])
  }

  /** Every directory path a traversal of `d` schedules, `d` itself excluded. */
  ghost function SubDirs(fs: FileSystem, d: Path): seq<Path>
    requires Ranked(fs)
    decreases fs.height(d), 1
  {
    match fs.list(d)
    case Unreadable(e) => []
    case Listed(es) => RankedChildren(fs, d); EntriesDirs(fs, d, es)
  }

  ghost function EntriesDirs(fs: FileSystem, d: Path, es: seq<Info>): seq<Path>
    requires Ranked(fs) && ChildrenBelow(fs, d, es)
    decreases fs.height(d), 0, |es|
  {
    if es == [] then []
    else
      var last := es[|es| - 1];
      EntriesDirs(fs, d, es[..|es| - 1])
      + (if last.kind == Directory then [Join(d, last.name)] + SubDirs(fs, Join(d, last.name)) else [])
  }

  /** What traversing each of `ds` emits, one after the other. */
  ghost function Flat(fs: FileSystem, ds: seq<Path>): seq<FileItem>
    requires Ranked(fs)
    decreases |ds|
  {
    if ds == [] then [] else Sub(fs, ds[0]) + Flat(fs, ds[1..])
  }

  ghost function FlatDirs(fs: FileSystem, ds: seq<Path>): seq<Path>
    requires Ranked(fs)
    decreases |ds|
  {
    if ds == [] then [] else SubDirs(fs, ds[0]) + FlatDirs(fs, ds[1..])
  }

  ghost predicate Distinct(m: multiset<Path>) {
    forall x :: m[x] <= 1
  }

  /** The directories reachable from the roots form a tree: no directory path is reached
      twice, neither as a root nor below one. */
  ghost predicate TreeShaped(fs: FileSystem, roots: seq<Path>)
    requires Ranked(fs)
  {
    Distinct(multiset(roots + FlatDirs(fs, roots)))
  }

  /** What the messages still to be read will add to the output: a forwarded item, or the
      whole traversal below a scheduled directory. */
  ghost function Owed(fs: FileSystem, msgs: seq<TaskMsg>): seq<FileItem>
    requires Ranked(fs)
    decreases |msgs|
  {
    if msgs == [] then []
    else
      (match msgs[0]
       case ScheduleDir(p) => Sub(fs, p)
       case Send(item) => [item]
       case Finished(_) => [])
      + Owed(fs, msgs[1..])
  }

  /** The directories the messages still to be read will make the coordinator schedule. */
  ghost function OwedDirs(fs: FileSystem, msgs: seq<TaskMsg>): seq<Path>
    requires Ranked(fs)
    decreases |msgs|
  {
    if msgs == [] then []
    else
      (if msgs[0].ScheduleDir? then [msgs[0].dir] + SubDirs(fs, msgs[0].dir) else [])
      + OwedDirs(fs, msgs[1..])
  }

  // ---------------------------------------------------------------- lemmas on the reference

  lemma {:induction false} FlatAppend(fs: FileSystem, a: seq<Path>, b: seq<Path>)
    requires Ranked(fs)
    ensures Flat(fs, a + b) == Flat(fs, a) + Flat(fs, b)
    ensures FlatDirs(fs, a + b) == FlatDirs(fs, a) + FlatDirs(fs, b)
    decreases |a|
  {
    if a == [] {
      assert a + b == b;
    } else {
      assert (a + b)[0] == a[0] && (a + b)[1..] == a[1..] + b;
      FlatAppend(fs, a[1..], b);
    }
  }

  lemma FlatSplit(fs: FileSystem, a: seq<Path>, x: Path, b: seq<Path>)
    requires Ranked(fs)
    ensures multiset(Flat(fs, a + [x] + b)) == multiset(Flat(fs, a + b)) + multiset(Sub(fs, x))
  {
    FlatAppend(fs, a + [x], b);
    FlatAppend(fs, a, [x]);
    FlatAppend(fs, a, b);
    assert Flat(fs, [x]) == Sub(fs, x) + Flat(fs, []);
  }

  /** What a collection of traversals emits does not depend on the order they run in. */
  lemma {:induction false} FlatPerm(fs: FileSystem, a: seq<Path>, b: seq<Path>)
    requires Ranked(fs) && multiset(a) == multiset(b)
    ensures multiset(Flat(fs, a)) == multiset(Flat(fs, b))
    decreases |a|
  {
    if a != [] {
      var x := a[0];
      assert x in multiset(b);
      var j :| 0 <= j < |b| && b[j] == x;
      var b' := b[..j] + b[j + 1..];
      DropMatching(a, b, j);
      FlatPerm(fs, a[1..], b');
      FlatSplit(fs, b[..j], x, b[j + 1..]);
    }
  }

  /** Removing the head of `a` and a matching element of `b` keeps two permutations so. */
  lemma DropMatching<T>(a: seq<T>, b: seq<T>, j: nat)
    requires a != [] && j < |b| && b[j] == a[0] && multiset(a) == multiset(b)
    ensures b == b[..j] + [a[0]] + b[j + 1..]
    ensures multiset(a[1..]) == multiset(b[..j] + b[j + 1..])
  {
    assert b == b[..j] + [a[0]] + b[j + 1..];
    assert a == [a[0]] + a[1..];
    assert multiset(a[1..]) == multiset(a) - multiset{a[0]};
    assert multiset(b[..j] + b[j + 1..]) == multiset(b) - multiset{a[0]};
  }

  lemma {:induction false} OwedAppend(fs: FileSystem, a: seq<TaskMsg>, b: seq<TaskMsg>)
    requires Ranked(fs)
    ensures Owed(fs, a + b) == Owed(fs, a) + Owed(fs, b)
    ensures OwedDirs(fs, a + b) == OwedDirs(fs, a) + OwedDirs(fs, b)
    decreases |a|
  {
    if a == [] {
      assert a + b == b;
    } else {
      assert (a + b)[0] == a[0] && (a + b)[1..] == a[1..] + b;
      OwedAppend(fs, a[1..], b);
    }
  }

  /** The messages one entry produces owe the entry's item and the traversal below it. */
  lemma EntryOwes(fs: FileSystem, d: Path, e: Info)
    requires Ranked(fs)
    ensures multiset(Owed(fs, EntryMsgs(d, e)))
            == multiset([EntryItem(d, e)] + (if e.kind == Directory then Sub(fs, Join(d, e.name)) else []))
    ensures OwedDirs(fs, EntryMsgs(d, e))
            == (if e.kind == Directory then [Join(d, e.name)] + SubDirs(fs, Join(d, e.name)) else [])
  {
    var item := EntryItem(d, e);
    assert Owed(fs, [Send(item)]) == [item] + Owed(fs, []);
    assert OwedDirs(fs, [Send(item)]) == [] + OwedDirs(fs, []);
    if e.kind == Directory {
      var c := Join(d, e.name);
      OwedAppend(fs, [ScheduleDir(c)], [Send(item)]);
      assert Owed(fs, [ScheduleDir(c)]) == Sub(fs, c) + Owed(fs, []);
      assert OwedDirs(fs, [ScheduleDir(c)]) == [c] + SubDirs(fs, c) + OwedDirs(fs, []);
    }
  }

  lemma {:induction false} EntriesOwe(fs: FileSystem, d: Path, es: seq<Info>)
    requires Ranked(fs) && ChildrenBelow(fs, d, es)
    ensures multiset(Owed(fs, EntriesMsgs(d, es))) == multiset(SubEntries(fs, d, es))
    ensures OwedDirs(fs, EntriesMsgs(d, es)) == EntriesDirs(fs, d, es)
    decreases |es|
  {
    if es != [] {
      var init := es[..|es| - 1];
      var last := es[|es| - 1];
      assert ChildrenBelow(fs, d, init);
      EntriesOwe(fs, d, init);
      OwedAppend(fs, EntriesMsgs(d, init), EntryMsgs(d, last));
      EntryOwes(fs, d, last);
    }
  }

  /** A task's messages owe exactly the traversal below its directory. */
  lemma TaskOwes(fs: FileSystem, d: Path)
    requires Ranked(fs)
    ensures multiset(Owed(fs, TaskBody(fs, d))) == multiset(Sub(fs, d))
    ensures multiset(OwedDirs(fs, TaskBody(fs, d))) == multiset(SubDirs(fs, d))
  {
    match fs.list(d)
    case Unreadable(e) =>
      assert Owed(fs, [Send(ErrorItem(e))]) == [ErrorItem(e)] + Owed(fs, []);
    case Listed(es) =>
      RankedChildren(fs, d);
      EntriesOwe(fs, d, es);
  }

  /** The items still owed by the queued directories `q` and the running ones `r`. */
  ghost function Work(fs: FileSystem, q: seq<Path>, r: seq<Path>): multiset<FileItem>
    requires Ranked(fs)
  {
    multiset(Flat(fs, q)) + multiset(Flat(fs, r))
  }

  /** The directory paths the coordinator holds or will still be asked to schedule. */
  ghost function Dirs(fs: FileSystem, q: seq<Path>, r: seq<Path>): multiset<Path>
    requires Ranked(fs)
  {
    multiset(q) + multiset(r) + multiset(FlatDirs(fs, q)) + multiset(FlatDirs(fs, r))
  }

  lemma FlatSnoc(fs: FileSystem, s: seq<Path>, p: Path)
    requires Ranked(fs)
    ensures Flat(fs, s + [p]) == Flat(fs, s) + Sub(fs, p)
    ensures FlatDirs(fs, s + [p]) == FlatDirs(fs, s) + SubDirs(fs, p)
  {
    FlatAppend(fs, s, [p]);
    assert Flat(fs, [p]) == Sub(fs, p) + Flat(fs, []);
    assert FlatDirs(fs, [p]) == SubDirs(fs, p) + FlatDirs(fs, []);
  }

  /** A schedule request at the head of the unread messages: what it owes, and that its
      directory is neither running nor queued (the coordinator's map is keyed by path). */
  lemma ScheduleOwes(fs: FileSystem, d: Path, q: seq<Path>, r: seq<Path>, msgs: seq<TaskMsg>, p: Path)
    requires Ranked(fs) && msgs != [] && msgs[0] == ScheduleDir(p)
    requires Distinct(multiset{d} + Dirs(fs, q, r) + multiset(OwedDirs(fs, msgs)))
    ensures Owed(fs, msgs) == Sub(fs, p) + Owed(fs, msgs[1..])
    ensures multiset(OwedDirs(fs, msgs)) == multiset{p} + multiset(SubDirs(fs, p)) + multiset(OwedDirs(fs, msgs[1..]))
    ensures p !in q && p !in r && p != d
  {
    var all := multiset{d} + Dirs(fs, q, r) + multiset(OwedDirs(fs, msgs));
    assert OwedDirs(fs, msgs) == [p] + SubDirs(fs, p) + OwedDirs(fs, msgs[1..]);
    assert all[p] <= 1;
  }

  /** The directory of a schedule request joins either the running set or the queue. */
  lemma ScheduleStep(fs: FileSystem, q: seq<Path>, r: seq<Path>, q': seq<Path>, r': seq<Path>, p: Path)
    requires Ranked(fs)
    requires (q' == q && r' == r + [p]) || (q' == q + [p] && r' == r)
    ensures multiset(q') + multiset(r') == multiset(q) + multiset(r) + multiset{p}
    ensures Work(fs, q', r') == Work(fs, q, r) + multiset(Sub(fs, p))
    ensures Dirs(fs, q', r') == Dirs(fs, q, r) + (multiset{p} + multiset(SubDirs(fs, p)))
  {
    if r' == r + [p] {
      FlatSnoc(fs, r, p);
    } else {
      FlatSnoc(fs, q, p);
    }
  }

  /** Taking the `j`-th running directory's task out of the pending work. */
  lemma StartTask(fs: FileSystem, q: seq<Path>, running: seq<Path>, j: nat)
    requires Ranked(fs) && j < |running|
    ensures var d := running[j];
      var others := running[..j] + running[j + 1..];
      && Elems(running) == Elems(others) + {d}
      && Work(fs, q, running) == Work(fs, q, others) + multiset(Owed(fs, TaskBody(fs, d)))
      && Dirs(fs, q, running) == multiset{d} + Dirs(fs, q, others) + multiset(OwedDirs(fs, TaskBody(fs, d)))
  {
    var d := running[j];
    var a, b := running[..j], running[j + 1..];
    assert running == a + [d] + b;
    FlatAppend(fs, a + [d], b);
    FlatSnoc(fs, a, d);
    FlatAppend(fs, a, b);
    TaskOwes(fs, d);
  }

  /** Reading the completion notice moves the queue's head, if any, into the running set. */
  lemma EndTask(fs: FileSystem, q1: seq<Path>, r1: seq<Path>, q2: seq<Path>, r2: seq<Path>)
    requires Ranked(fs)
    requires (q1 == [] && q2 == [] && r2 == r1) || (q1 != [] && q2 == q1[1..] && r2 == r1 + [q1[0]])
    ensures Work(fs, q2, r2) == Work(fs, q1, r1)
    ensures Dirs(fs, q2, r2) == Dirs(fs, q1, r1)
  {
    if q1 != [] {
      assert q1 == [q1[0]] + q2;
      FlatSnoc(fs, r1, q1[0]);
    }
  }

  /** Moving the part `x` of what is still owed into the pending work keeps the total. */
  lemma Rebalance<T>(done: multiset<T>, w: multiset<T>, w': multiset<T>, x: multiset<T>,
                     owed: multiset<T>, owed': multiset<T>, total: multiset<T>)
    requires w' == w + x && owed == x + owed' && done + w + owed == total
    ensures done + w' + owed' == total
  {
  }

  /** Moving the part `x` of what is still owed into the output keeps the total. */
  lemma Forward<T>(done: multiset<T>, done': multiset<T>, w: multiset<T>, x: multiset<T>,
                   owed: multiset<T>, owed': multiset<T>, total: multiset<T>)
    requires done' == done + x && owed == x + owed' && done + w + owed == total
    ensures done' + w + owed' == total
  {
  }

  // ---------------------------------------------------------------- the traversal

  /** The coordinator's bookkeeping while it reads the body of the listing task for `d`: `r` lists
      the other running directories, `sent` the items forwarded so far, `unread` the
      messages not yet read; `total` and `dirs` are what was owed when reading started. */
  ghost predicate Reading(fs: FileSystem, d: Path, s: CoordState, r: seq<Path>, sent: seq<FileItem>,
                          unread: seq<TaskMsg>, total: multiset<FileItem>, dirs: multiset<Path>)
    requires Ranked(fs)
  {
    && Inv(s) && s.status == Running
    && s.workers == Elems(r) + {d}
    && (forall m <- unread :: !m.Finished?)
    && multiset(sent) + Work(fs, s.queue, r) + multiset(Owed(fs, unread)) == total
    && multiset{d} + Dirs(fs, s.queue, r) + multiset(OwedDirs(fs, unread)) == dirs
    && Distinct(dirs)
  }

  /** Reading a schedule request keeps the bookkeeping: the directory is admitted when a
      slot is free and queued otherwise, and what it owes moves into the pending work. */
  lemma ReadSchedule(fs: FileSystem, d: Path, s: CoordState, r: seq<Path>, sent: seq<FileItem>,
                     unread: seq<TaskMsg>, total: multiset<FileItem>, dirs: multiset<Path>, p: Path)
    requires Ranked(fs) && Reading(fs, d, s, r, sent, unread, total, dirs)
    requires unread != [] && unread[0] == ScheduleDir(p)
    ensures Legal(s, ScheduleReq(p))
    ensures Reading(fs, d, OnSchedule(s, p), if |s.workers| < s.cap then r + [p] else r, sent,
                    unread[1..], total, dirs)
  {
    ScheduleOwes(fs, d, s.queue, r, unread, p);
    ScheduleState(s, r, d, p);
    var t := OnSchedule(s, p);
    var r' := if |s.workers| < s.cap then r + [p] else r;
    ScheduleStep(fs, s.queue, r, t.queue, r', p);
    Rebalance(multiset(sent), Work(fs, s.queue, r), Work(fs, t.queue, r'), multiset(Sub(fs, p)),
              multiset(Owed(fs, unread)), multiset(Owed(fs, unread[1..])), total);
    Rebalance(multiset{d}, Dirs(fs, s.queue, r), Dirs(fs, t.queue, r'), multiset{p} + multiset(SubDirs(fs, p)),
              multiset(OwedDirs(fs, unread)), multiset(OwedDirs(fs, unread[1..])), dirs);
  }

  /** The schedule handler on the coordinator's side, for a directory neither running nor
      queued: it joins the in-flight set when a slot is free, the queue otherwise. */
  lemma ScheduleState(s: CoordState, r: seq<Path>, d: Path, p: Path)
    requires Inv(s) && s.status == Running && s.workers == Elems(r) + {d}
    requires p !in s.queue && p !in s.workers
    ensures var t := OnSchedule(s, p);
      var r' := if |s.workers| < s.cap then r + [p] else r;
      && Inv(t) && t.status == Running && t.cap == s.cap
      && t.workers == Elems(r') + {d}
      && ((t.queue == s.queue && r' == r + [p]) || (t.queue == s.queue + [p] && r' == r))
  {
    ScheduleAdmitsIffRoom(s, p);
    ScheduleKeepsInv(s, p);
    ElemsSnoc(r, p);
  }

  /** Reading a forwarded item keeps the bookkeeping: the item moves into the output. */
  lemma ReadSend(fs: FileSystem, d: Path, s: CoordState, r: seq<Path>, sent: seq<FileItem>,
                 unread: seq<TaskMsg>, total: multiset<FileItem>, dirs: multiset<Path>, item: FileItem)
    requires Ranked(fs) && Reading(fs, d, s, r, sent, unread, total, dirs)
    requires unread != [] && unread[0] == Send(item)
    ensures Reading(fs, d, s, r, sent + [item], unread[1..], total, dirs)
  {
    assert Owed(fs, unread) == [item] + Owed(fs, unread[1..]);
    assert OwedDirs(fs, unread) == OwedDirs(fs, unread[1..]);
    Forward(multiset(sent), multiset(sent + [item]), Work(fs, s.queue, r), multiset{item},
            multiset(Owed(fs, unread)), multiset(Owed(fs, unread[1..])), total);
  }

  /** The body of one listing task (everything before its completion notice) is delivered
      in send order, starting from coordinator state `s0`: each item goes straight to the
      output stream, and each schedule request goes through the coordinator's schedule handler. */
  method Deliver(s0: CoordState, ghost fs: FileSystem, body: seq<TaskMsg>, ghost d: Path, ghost others: seq<Path>)
    returns (s: CoordState, sent: seq<FileItem>, ghost running: seq<Path>)
    requires Ranked(fs) && Inv(s0) && s0.status == Running
    requires forall m <- body :: !m.Finished?
    requires s0.workers == Elems(others) + {d}
    requires Distinct(multiset{d} + Dirs(fs, s0.queue, others) + multiset(OwedDirs(fs, body)))
    ensures s.cap == s0.cap
    ensures Reading(fs, d, s, running, sent, [], multiset(Owed(fs, body)) + Work(fs, s0.queue, others),
                    multiset{d} + Dirs(fs, s0.queue, others) + multiset(OwedDirs(fs, body)))
  {
    s, sent, running := s0, [], others;
    ghost var total := multiset(Owed(fs, body)) + Work(fs, s0.queue, others);
    ghost var dirs := multiset{d} + Dirs(fs, s0.queue, others) + multiset(OwedDirs(fs, body));
    var unread := body;
    while unread != []
      invariant s.cap == s0.cap
      invariant Reading(fs, d, s, running, sent, unread, total, dirs)
      decreases |unread|
    {
      var msg := unread[0];
      if msg.ScheduleDir? {
        ReadSchedule(fs, d, s, running, sent, unread, total, dirs, msg.dir);
        running := if |s.workers| < s.cap then running + [msg.dir] else running;
        s := OnSchedule(s, msg.dir);
      } else {
        assert msg in unread;
        ReadSend(fs, d, s, running, sent, unread, total, dirs, msg.item);
        sent := sent + [msg.item];
      }
      unread := unread[1..];
    }
  }

  /** One directory's task runs to completion and the coordinator reads all it sent: the
      items it forwards plus what is still owed equal what was owed before, and the
      directory leaves the pending work. */
  method RunTask(s0: CoordState, fs: FileSystem, d: Path, ghost running: seq<Path>)
    returns (s: CoordState, sent: seq<FileItem>, ghost running': seq<Path>)
    requires Ranked(fs) && Inv(s0) && s0.status == Running
    requires s0.workers == Elems(running) && d in s0.workers
    requires Distinct(Dirs(fs, s0.queue, running))
    ensures Inv(s) && s.cap == s0.cap
    ensures s.workers == Elems(running')
    ensures s.status == (if s.workers == {} then Done else Running)
    ensures multiset(sent) + Work(fs, s.queue, running') == Work(fs, s0.queue, running)
    ensures Distinct(Dirs(fs, s.queue, running'))
    ensures |Dirs(fs, s.queue, running')| < |Dirs(fs, s0.queue, running)|
  {
    ghost var j :| 0 <= j < |running| && running[j] == d;
    ghost var others := running[..j] + running[j + 1..];
    StartTask(fs, s0.queue, running, j);
    var msgs := DoScan(fs, d);
    var body := msgs[..|msgs| - 1];
    TraceSplit(fs, d);
    var s1;
    ghost var r1;
    s1, sent, r1 := Deliver(s0, fs, body, d, others);
    running' := r1 + (if s1.queue != [] then [s1.queue[0]] else []);
    s := OnFinish(s1, msgs[|msgs| - 1].dir);
    ReadFinish(fs, d, s0, running, j, s1, r1, sent);
  }

  /** Reading the completion notice of `d`'s task, once its body is read, frees the slot
      (handing it to the queue's head, if any) and settles the accounts: `d` has left the
      pending work and its forwarded items replace what its task owed. */
  lemma ReadFinish(fs: FileSystem, d: Path, s0: CoordState, running: seq<Path>, j: nat,
                   s1: CoordState, r1: seq<Path>, sent: seq<FileItem>)
    requires Ranked(fs) && j < |running| && running[j] == d
    requires Distinct(Dirs(fs, s0.queue, running))
    requires var others := running[..j] + running[j + 1..];
      Reading(fs, d, s1, r1, sent, [], multiset(Owed(fs, TaskBody(fs, d))) + Work(fs, s0.queue, others),
              multiset{d} + Dirs(fs, s0.queue, others) + multiset(OwedDirs(fs, TaskBody(fs, d))))
    ensures var s := OnFinish(s1, d);
      var running' := r1 + (if s1.queue != [] then [s1.queue[0]] else []);
      && Inv(s) && s.cap == s1.cap
      && s.workers == Elems(running')
      && s.status == (if s.workers == {} then Done else Running)
      && multiset(sent) + Work(fs, s.queue, running') == Work(fs, s0.queue, running)
      && Distinct(Dirs(fs, s.queue, running'))
      && |Dirs(fs, s.queue, running')| < |Dirs(fs, s0.queue, running)|
  {
    TaskLeaves(fs, d, s0, running, j, s1, r1, sent);
    FinishState(s1, r1, d);
    var s := OnFinish(s1, d);
    var running' := r1 + (if s1.queue != [] then [s1.queue[0]] else []);
    EndTask(fs, s1.queue, r1, s.queue, running');
    Shrink(Dirs(fs, s.queue, running'), d, Dirs(fs, s0.queue, running));
  }

  /** Once the body of `d`'s task is read, `d` is the only difference between the
      directories pending before and after, and the forwarded items stand in for what the
      task owed. */
  lemma TaskLeaves(fs: FileSystem, d: Path, s0: CoordState, running: seq<Path>, j: nat,
                   s1: CoordState, r1: seq<Path>, sent: seq<FileItem>)
    requires Ranked(fs) && j < |running| && running[j] == d
    requires Distinct(Dirs(fs, s0.queue, running))
    requires var others := running[..j] + running[j + 1..];
      && multiset(sent) + Work(fs, s1.queue, r1) + multiset(Owed(fs, []))
         == multiset(Owed(fs, TaskBody(fs, d))) + Work(fs, s0.queue, others)
      && multiset{d} + Dirs(fs, s1.queue, r1) + multiset(OwedDirs(fs, []))
         == multiset{d} + Dirs(fs, s0.queue, others) + multiset(OwedDirs(fs, TaskBody(fs, d)))
    ensures d !in r1
    ensures Dirs(fs, s1.queue, r1) + multiset{d} == Dirs(fs, s0.queue, running)
    ensures multiset(sent) + Work(fs, s1.queue, r1) == Work(fs, s0.queue, running)
  {
    var others := running[..j] + running[j + 1..];
    StartTask(fs, s0.queue, running, j);
    assert Owed(fs, []) == [] && OwedDirs(fs, []) == [];
    DirsLeave(multiset{d}, Dirs(fs, s1.queue, r1), Dirs(fs, s0.queue, others),
              multiset(OwedDirs(fs, TaskBody(fs, d))), Dirs(fs, s0.queue, running));
    assert d !in r1 by {
      assert Dirs(fs, s0.queue, running)[d] <= 1;
      assert multiset(r1) <= Dirs(fs, s1.queue, r1);
    }
    Settle(multiset(sent), Work(fs, s1.queue, r1), Work(fs, s1.queue, r1), multiset(Owed(fs, [])),
           multiset(Owed(fs, TaskBody(fs, d))), Work(fs, s0.queue, others), Work(fs, s0.queue, running));
  }

  lemma DirsLeave<T>(one: multiset<T>, now: multiset<T>, rest: multiset<T>, owed: multiset<T>, before: multiset<T>)
    requires one + now + multiset{} == one + rest + owed && before == one + rest + owed
    ensures now + one == before
  {
    forall x ensures (now + one)[x] == before[x] {
      assert (one + now + multiset{})[x] == (one + rest + owed)[x];
    }
  }

  /** Removing one element keeps a multiset duplicate-free and makes it smaller. */
  lemma Shrink(m: multiset<Path>, d: Path, m0: multiset<Path>)
    requires Distinct(m0) && m + multiset{d} == m0
    ensures Distinct(m) && |m| < |m0|
  {
    forall x ensures m[x] <= 1 {
      assert m0[x] <= 1;
    }
  }

  /** The finish handler on the coordinator's side: the in-flight set loses `d` and gains
      the queue's head, if any; completion is signalled exactly when it becomes empty. */
  lemma FinishState(s1: CoordState, r1: seq<Path>, d: Path)
    requires Inv(s1) && s1.status == Running && s1.workers == Elems(r1) + {d} && d !in r1
    ensures var s := OnFinish(s1, d);
      var running' := r1 + (if s1.queue != [] then [s1.queue[0]] else []);
      && Inv(s) && s.cap == s1.cap
      && s.workers == Elems(running')
      && s.status == (if s.workers == {} then Done else Running)
      && (s1.queue != [] ==> s.queue == s1.queue[1..]) && (s1.queue == [] ==> s.queue == [])
  {
    FinishAdmitsHead(s1, d);
    FinishKeepsInv(s1, d);
    if s1.queue != [] {
      ElemsSnoc(r1, s1.queue[0]);
    }
    assert Elems(r1) + {d} - {d} == Elems(r1);
  }

  /** Once the listing task's body is read, its forwarded items stand in for what it owed. */
  lemma Settle<T>(sent: multiset<T>, w1: multiset<T>, w2: multiset<T>, none: multiset<T>,
                  owed: multiset<T>, rest: multiset<T>, all: multiset<T>)
    requires sent + w1 + none == owed + rest && none == multiset{} && all == rest + owed && w2 == w1
    ensures sent + w2 == all
  {
    forall x ensures (sent + w2)[x] == all[x] {
      assert (sent + w1 + none)[x] == (owed + rest)[x];
    }
  }

  /** The roots feeder has sent the first `i` roots and the coordinator has read them:
      the running and queued directories are exactly those roots. */
  ghost predicate Seeding(fs: FileSystem, roots: seq<Path>, i: nat, s: CoordState, running: seq<Path>)
    requires Ranked(fs) && i <= |roots|
  {
    && TreeShaped(fs, roots)
    && Inv(s) && s.status == Running
    && multiset(s.queue) + multiset(running) == multiset(roots[..i])
    && Work(fs, s.queue, running) == multiset(Flat(fs, roots[..i]))
    && Dirs(fs, s.queue, running) == multiset(roots[..i]) + multiset(FlatDirs(fs, roots[..i]))
    && s.workers == Elems(running)
    && (i > 0 ==> s.workers != {})
    && (roots != [] ==> s.cap >= 1)
  }

  /** Reading the schedule request for the next root. */
  lemma AddRoot(fs: FileSystem, roots: seq<Path>, i: nat, s: CoordState, running: seq<Path>)
    requires Ranked(fs) && i < |roots| && Seeding(fs, roots, i, s, running)
    ensures Seeding(fs, roots, i + 1, OnSchedule(s, roots[i]),
                    if |s.workers| < s.cap then running + [roots[i]] else running)
  {
    var root := roots[i];
    RootIsNew(fs, roots, i, s, running);
    ScheduleAdmitsIffRoom(s, root);
    ScheduleKeepsInv(s, root);
    ElemsSnoc(running, root);
    RootAccounts(fs, roots, i, s, running);
  }

  /** A root not yet read is neither running nor queued. */
  lemma RootIsNew(fs: FileSystem, roots: seq<Path>, i: nat, s: CoordState, running: seq<Path>)
    requires Ranked(fs) && i < |roots| && TreeShaped(fs, roots)
    requires multiset(s.queue) + multiset(running) == multiset(roots[..i])
    requires s.workers == Elems(running)
    ensures roots[i] !in s.queue && roots[i] !in s.workers
  {
    var root := roots[i];
    var m := multiset(roots + FlatDirs(fs, roots));
    assert m[root] <= 1;
    assert roots == roots[..i] + ([root] + roots[i + 1..]);
    assert multiset(roots)[root] == multiset(roots[..i])[root] + multiset([root] + roots[i + 1..])[root];
    assert multiset(roots[..i])[root] == 0;
  }

  /** After reading the next root the pending work covers one root more. */
  lemma RootAccounts(fs: FileSystem, roots: seq<Path>, i: nat, s: CoordState, running: seq<Path>)
    requires Ranked(fs) && i < |roots| && s.status == Running
    requires multiset(s.queue) + multiset(running) == multiset(roots[..i])
    requires Work(fs, s.queue, running) == multiset(Flat(fs, roots[..i]))
    requires Dirs(fs, s.queue, running) == multiset(roots[..i]) + multiset(FlatDirs(fs, roots[..i]))
    ensures var t := OnSchedule(s, roots[i]);
      var r := if |s.workers| < s.cap then running + [roots[i]] else running;
      && multiset(t.queue) + multiset(r) == multiset(roots[..i + 1])
      && Work(fs, t.queue, r) == multiset(Flat(fs, roots[..i + 1]))
      && Dirs(fs, t.queue, r) == multiset(roots[..i + 1]) + multiset(FlatDirs(fs, roots[..i + 1]))
  {
    var root := roots[i];
    var t := OnSchedule(s, root);
    var r := if |s.workers| < s.cap then running + [root] else running;
    var before := roots[..i];
    PrefixSnoc(roots, i);
    ScheduleStep(fs, s.queue, running, t.queue, r, root);
    FlatSnoc(fs, before, root);
    Swap(multiset(before), multiset(FlatDirs(fs, before)), multiset{root}, multiset(SubDirs(fs, root)));
  }

  lemma Swap<T>(a: multiset<T>, b: multiset<T>, x: multiset<T>, y: multiset<T>)
    ensures (a + b) + (x + y) == (a + x) + (b + y)
  {
    forall e ensures ((a + b) + (x + y))[e] == ((a + x) + (b + y))[e] {
    }
  }

  /** Once every root is read, the pending work is exactly the traversal of the roots. */
  lemma SeedingDone(fs: FileSystem, roots: seq<Path>, s: CoordState, running: seq<Path>)
    requires Ranked(fs) && Seeding(fs, roots, |roots|, s, running)
    ensures multiset(s.queue) + multiset(running) == multiset(roots)
    ensures Work(fs, s.queue, running) == multiset(Flat(fs, roots))
    ensures Distinct(Dirs(fs, s.queue, running))
  {
    assert roots[..|roots|] == roots;
  }

  /** The roots feeder (recursive.go:132-136) sends one schedule request per root, in
      order, and the coordinator reads them before any task reports back: the running and
      queued directories are then exactly the roots, and they owe the whole traversal. */
  method Feed(fs: FileSystem, roots: seq<Path>, cap: nat) returns (s: CoordState, ghost running: seq<Path>)
    requires Ranked(fs) && TreeShaped(fs, roots) && roots != [] && cap >= 1
    ensures Inv(s) && s.cap == cap && s.status == Running
    ensures s.workers == Elems(running) && s.workers != {}
    ensures multiset(s.queue) + multiset(running) == multiset(roots)
    ensures Work(fs, s.queue, running) == multiset(Flat(fs, roots))
    ensures Distinct(Dirs(fs, s.queue, running))
  {
    s, running := Initial(cap), [];
    var i := 0;
    while i < |roots|
      invariant i <= |roots| && s.cap == cap
      invariant Seeding(fs, roots, i, s, running)
    {
      AddRoot(fs, roots, i, s, running);
      running := if |s.workers| < s.cap then running + [roots[i]] else running;
      s := OnSchedule(s, roots[i]);
      i := i + 1;
    }
    SeedingDone(fs, roots, s, running);
  }

  /** `RecursiveScanner.Scan` for the roots `roots` and worker cap `cap`: with no roots the
      stream is closed at once and empty (recursive.go:69-73); otherwise every item below
      the roots is emitted exactly as often as the reference traversal has it, and the
      coordinator signals completion. */
  method Scan(fs: FileSystem, roots: seq<Path>, cap: nat) returns (out: seq<FileItem>, closed: bool)
    requires Ranked(fs) && TreeShaped(fs, roots)
    requires roots != [] ==> cap >= 1
    ensures multiset(out) == multiset(Flat(fs, roots))
    ensures closed
  {
    if |roots| == 0 {
      return [], true;
    }
    var s;
    ghost var running;
    s, running := Feed(fs, roots, cap);
    out := [];
    while s.workers != {}
      invariant Inv(s) && s.cap == cap && cap >= 1
      invariant s.workers == Elems(running)
      invariant s.status == (if s.workers == {} then Done else Running)
      invariant multiset(out) + Work(fs, s.queue, running) == multiset(Flat(fs, roots))
      invariant Distinct(Dirs(fs, s.queue, running))
      decreases |Dirs(fs, s.queue, running)|
    {
      var d :| d in s.workers;
      var sent;
      ghost var w := Work(fs, s.queue, running);
      s, sent, running := RunTask(s, fs, d, running);
      Absorb(multiset(out), multiset(sent), w, Work(fs, s.queue, running), multiset(Flat(fs, roots)));
      out := out + sent;
    }
    Drained(fs, s, running);
    closed := s.status == Done;
  }

  lemma Absorb<T>(out: multiset<T>, sent: multiset<T>, w: multiset<T>, w': multiset<T>, total: multiset<T>)
    requires sent + w' == w && out + w == total
    ensures out + sent + w' == total
  {
    forall e ensures (out + sent + w')[e] == total[e] {
      assert (sent + w')[e] == w[e];
    }
  }

  /** With no task in flight the coordinator holds no work at all. */
  lemma Drained(fs: FileSystem, s: CoordState, running: seq<Path>)
    requires Ranked(fs) && Inv(s) && s.cap >= 1 && s.workers == {} && s.workers == Elems(running)
    ensures Work(fs, s.queue, running) == multiset{}
  {
    ElemsEmpty(running);
  }
}
