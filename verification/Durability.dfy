/**
  A published blob lasts. Once a publish has synced the directory, the blob of its
  session is visible in every continuation, crashes included, with this save or a
  later one, until the quota removes it. Without that sync a crash may lose it.
 */
module Durability {
  import opened Options
  import opened Registry
  import opened Steps
  import opened GateTheorems
  import opened BlobTheorems

  // The blob of `s` is there, and no older than save `v`.
  ghost predicate AtLeast(d: Disk, p: Directory, s: Session, v: SaveId) {
    && Blob(s) in p && p[Blob(s)] in d.inodes && d.inodes[p[Blob(s)]].content.Whole?
    && d.inodes[p[Blob(s)]].content.save >= v
  }

  // In whatever directory a crash may fall back to.
  ghost predicate Everywhere(d: Disk, s: Session, v: SaveId) {
    v < d.nextSave && forall p | p in d.past :: AtLeast(d, p, s, v)
  }

  // A publish of `s` on the way to its rename carries a save no older.
  ghost predicate NoOlder(k: Task, s: Session, v: SaveId) {
    InSave(k.pc) && !k.pc.EndSave? && k.job.session == s ==> k.job.save.Some? && k.job.save.value >= v
  }

  ghost predicate Lasting(st: State, s: Session, v: SaveId) {
    Safe(st) && Everywhere(st.disk, s, v) && forall t | t in st.tasks :: NoOlder(st.tasks[t], s, v)
  }

  predicate Removes(k: Task, ch: Choice, s: Session) {
    k.pc.Delete? && ch.ok && k.plan != [] && k.plan[0] == Blob(s)
  }

  // The quota leaves the blob of `s` alone.
  ghost predicate Spares(st: State, acts: seq<Action>, s: Session)
    requires IsRun(st, acts)
    decreases |acts|
  {
    acts == [] ||
    ((acts[0].Act? ==> !Removes(st.tasks[acts[0].t], acts[0].choice, s)) && Spares(Do(st, acts[0]), acts[1..], s))
  }

  // ------------------------------------------------------------- one step of the disk

  // Every directory, old or new, still shows a blob of `s`, in a file as it was or
  // in the file just renamed.
  lemma DirsAfter(d: Disk, k: Task, ch: Choice, s: Session, p: Directory)
    requires Sound(d) && Knows(d, k) && !Removes(k, ch, s) && p in DiskAfter(d, k, ch).past
    requires forall q | q in d.past :: Blob(s) in q
    ensures Blob(s) in p
    ensures (exists q | q in d.past :: q[Blob(s)] == p[Blob(s)])
            || (k.pc.RenameBlob? && k.job.session == s && p[Blob(s)] == k.job.ino)
  {
    assert d.dir in d.past;
    if p in d.past {
      assert p[Blob(s)] == p[Blob(s)];
    } else {
      assert p == DiskAfter(d, k, ch).dir;
    }
  }

  lemma FileStays(d: Disk, k: Task, ch: Choice, s: Session, q: Directory)
    requires Sound(d) && Knows(d, k) && q in d.past && Blob(s) in q
    ensures var i := q[Blob(s)];
            i in d.inodes && i in DiskAfter(d, k, ch).inodes && DiskAfter(d, k, ch).inodes[i] == d.inodes[i]
  {
    assert PublishedAs(d, q[Blob(s)], s) && !NoBlobOn(d, q[Blob(s)]);
    StepKeepsInode(d, k, ch, q[Blob(s)]);
  }

  lemma RenameKeepsInodes(d: Disk, k: Task, ch: Choice)
    requires k.pc.RenameBlob?
    ensures DiskAfter(d, k, ch).inodes == d.inodes
  {
  }

  lemma SavesCount(d: Disk, k: Task, ch: Choice)
    ensures DiskAfter(d, k, ch).nextSave >= d.nextSave
  {
  }

  lemma EverywhereAfter(d: Disk, k: Task, ch: Choice, s: Session, v: SaveId)
    requires Sound(d) && Knows(d, k) && Everywhere(d, s, v) && NoOlder(k, s, v) && !Removes(k, ch, s)
    ensures Everywhere(DiskAfter(d, k, ch), s, v)
  {
    hide Sound, DiskAfter, Knows, Removes;
    var d' := DiskAfter(d, k, ch);
    SavesCount(d, k, ch);
    forall p | p in d'.past ensures AtLeast(d', p, s, v) {
      DirsAfter(d, k, ch, s, p);
      if q :| q in d.past && q[Blob(s)] == p[Blob(s)] {
        FileStays(d, k, ch, s, q);
        assert AtLeast(d, q, s, v);
      } else {
        RenameKeepsInodes(d, k, ch);
        KnowsSaved(d, k);
      }
    }
  }

  lemma KnowsSaved(d: Disk, k: Task)
    requires k.pc.RenameBlob? && Knows(d, k)
    ensures Saved(d, k.job)
  {
  }

  // ------------------------------------------------------------- the requests

  lemma PublishNoOlder(d: Disk, k: Task, ch: Choice, s: Session, v: SaveId)
    requires HoldsWrite(k.pc) && NoOlder(k, s, v) && v < d.nextSave
    ensures NoOlder(PublishNext(d, k, ch), s, v)
  {
  }

  lemma NextNoOlder(st: State, k: Task, ch: Choice, s: Session, v: SaveId)
    requires NoOlder(k, s, v) && v < st.disk.nextSave
    ensures NoOlder(TaskAfter(st, k, ch), s, v)
  {
    hide LookupNext, EvictNext, PublishNext, TurnNext;
    if HoldsWrite(k.pc) {
      PublishNoOlder(st.disk, k, ch, s, v);
    } else {
      EntersAtBegin(st, k, ch);
    }
  }

  lemma ActLasts(st: State, t: TaskId, ch: Choice, s: Session, v: SaveId)
    requires Lasting(st, s, v) && Enabled(st, t) && !Removes(st.tasks[t], ch, s)
    ensures Lasting(Step(st, t, ch), s, v)
  {
    hide Everywhere, NoOlder, Removes, DiskAfter, TaskAfter, SlotsAfter, GateAfter, MutexAfter;
    StepSafe(st, t, ch);
    EverywhereAfter(st.disk, st.tasks[t], ch, s, v);
    assert v < st.disk.nextSave by {
      Counted(st.disk, s, v);
    }
    NextNoOlder(st, st.tasks[t], ch, s, v);
  }

  lemma Counted(d: Disk, s: Session, v: SaveId)
    requires Everywhere(d, s, v)
    ensures v < d.nextSave
  {
  }

  lemma CrashLasts(st: State, dir: Directory, garbage: map<Ino, Content>, s: Session, v: SaveId)
    requires Lasting(st, s, v) && dir in st.disk.past
    ensures Lasting(Do(st, Crash(dir, garbage)), s, v)
  {
    hide Sound;
    DoSafe(st, Crash(dir, garbage));
    assert AtLeast(st.disk, dir, s, v);
    SyncedBlob(st.disk, dir, s);
  }

  lemma SyncedBlob(d: Disk, p: Directory, s: Session)
    requires Sound(d) && p in d.past && Blob(s) in p
    ensures p[Blob(s)] in d.inodes && d.inodes[p[Blob(s)]].synced
  {
    assert PublishedAs(d, p[Blob(s)], s);
  }

  lemma DoLasts(st: State, a: Action, s: Session, v: SaveId)
    requires Lasting(st, s, v) && Possible(st, a) && (a.Act? ==> !Removes(st.tasks[a.t], a.choice, s))
    ensures Lasting(Do(st, a), s, v)
  {
    hide Sound, LocksHeld, Knows, Everywhere, Step, CrashDisk;
    match a
    case Arrive(_, _) => DoSafe(st, a);
    case Act(t, ch) => ActLasts(st, t, ch, s, v);
    case Drop(_) => DoSafe(st, a);
    case Crash(dir, garbage) => CrashLasts(st, dir, garbage, s, v);
  }

  lemma {:induction false} RunLasts(st: State, acts: seq<Action>, s: Session, v: SaveId)
    requires Lasting(st, s, v) && IsRun(st, acts) && Spares(st, acts, s)
    ensures Lasting(Run(st, acts), s, v)
    decreases |acts|
  {
    hide Lasting, Do, Possible, Removes;
    if acts != [] {
      DoLasts(st, acts[0], s, v);
      RunLasts(Do(st, acts[0]), acts[1..], s, v);
    }
  }

  // ------------------------------------------------------------- the theorem

  // Nobody else is in a save while one request syncs the directory.
  lemma SyncStarts(st: State, t: TaskId, ch: Choice)
    requires Safe(st) && Enabled(st, t) && st.tasks[t].pc == SyncDir && ch.ok
    requires Blob(st.tasks[t].job.session) in st.disk.dir
    ensures var job := st.tasks[t].job;
            job.save.Some? && Lasting(Step(st, t, ch), job.session, job.save.value)
  {
    var k := st.tasks[t];
    assert Showing(st.disk, k);
    StepSafe(st, t, ch);
    var st' := Step(st, t, ch);
    SavedIsCounted(st.disk, k.job);
    assert st'.disk.past == {st.disk.dir};
    forall u | u in st'.tasks ensures NoOlder(st'.tasks[u], k.job.session, k.job.save.value) {
      if u != t && HoldsWrite(st.tasks[u].pc) {
        assert false;
      }
    }
  }

  lemma SavedIsCounted(d: Disk, job: Job)
    requires Sound(d) && Saved(d, job)
    ensures job.save.value < d.nextSave
  {
  }

  /**
    Durability: after a publish has synced the directory, its session's blob is
    visible at the end of every continuation, whatever crashes, with this save or a
    later one of the same session, as long as the quota does not remove it.
   */
  lemma PublishedLasts(acts: seq<Action>, t: TaskId, ch: Choice, more: seq<Action>)
    requires IsRun(INIT, acts) && Enabled(Run(INIT, acts), t)
    requires Run(INIT, acts).tasks[t].pc == SyncDir && ch.ok
    requires Blob(Run(INIT, acts).tasks[t].job.session) in Run(INIT, acts).disk.dir
    requires IsRun(Step(Run(INIT, acts), t, ch), more)
    requires Spares(Step(Run(INIT, acts), t, ch), more, Run(INIT, acts).tasks[t].job.session)
    ensures var job := Run(INIT, acts).tasks[t].job;
            var d := Run(Step(Run(INIT, acts), t, ch), more).disk;
            && job.save.Some? && AtLeast(d, d.dir, job.session, job.save.value)
            && PublishedAs(d, d.dir[Blob(job.session)], job.session)
  {
    hide Run, IsRun, Spares, Step;
    InitSafe();
    RunSafe(INIT, acts);
    var st := Run(INIT, acts);
    var job := st.tasks[t].job;
    SyncStarts(st, t, ch);
    RunLasts(Step(st, t, ch), more, job.session, job.save.value);
  }

  // --------------------------------------------------------------- and only then

  // Some directory a crash may fall back to does not show the file `i`.
  ghost predicate CanVanish(d: Disk, s: Session, i: Ino) {
    exists p | p in d.past :: Blob(s) !in p || p[Blob(s)] != i
  }

  // A publish between its rename and its directory sync.
  ghost predicate Unsettled(d: Disk, k: Task) {
    k.pc.RenameSidecar? || k.pc.SyncDir? ==> CanVanish(d, k.job.session, k.job.ino)
  }

  ghost predicate Fragile(st: State) {
    Safe(st) && forall t | t in st.tasks :: Unsettled(st.disk, st.tasks[t])
  }

  lemma PastGrows(d: Disk, k: Task, ch: Choice)
    requires !(k.pc.SyncDir? && ch.ok)
    ensures d.past <= DiskAfter(d, k, ch).past
  {
  }

  lemma VanishesStill(d: Disk, d': Disk, s: Session, i: Ino)
    requires CanVanish(d, s, i) && d.past <= d'.past
    ensures CanVanish(d', s, i)
  {
  }

  // The rename: the directory before it does not show the new file.
  lemma RenamedUnsettled(st: State, k: Task, ch: Choice)
    requires Sound(st.disk) && Knows(st.disk, k) && Unsettled(st.disk, k)
    ensures Unsettled(DiskAfter(st.disk, k, ch), TaskAfter(st, k, ch))
  {
    hide LookupNext, EvictNext, TurnNext, DiskAfter, Sound;
    var d', k' := DiskAfter(st.disk, k, ch), TaskAfter(st, k, ch);
    if k'.pc.RenameSidecar? || k'.pc.SyncDir? {
      OnlyByPublish(st, k, ch);
      PastGrows(st.disk, k, ch);
      if k.pc.RenameBlob? {
        HasDirectory(st.disk);
        assert NoBlobOn(st.disk, k.job.ino);
        assert CanVanish(st.disk, k.job.session, k.job.ino);
      }
      VanishesStill(st.disk, d', k.job.session, k.job.ino);
    }
  }

  lemma HasDirectory(d: Disk)
    requires Sound(d)
    ensures d.dir in d.past
  {
  }

  lemma OnlyByPublish(st: State, k: Task, ch: Choice)
    requires TaskAfter(st, k, ch).pc.RenameSidecar? || TaskAfter(st, k, ch).pc.SyncDir?
    ensures k.pc.RenameBlob? || k.pc.RenameSidecar?
    ensures TaskAfter(st, k, ch).job.session == k.job.session && TaskAfter(st, k, ch).job.ino == k.job.ino
  {
    hide LookupNext, EvictNext, PublishNext, TurnNext;
    TaskMoves(st, k, ch);
    assert Publishing(k.pc);
    RenamesThenSyncs(st.disk, k, ch);
  }

  lemma RenamesThenSyncs(d: Disk, k: Task, ch: Choice)
    requires Publishing(k.pc)
    requires PublishNext(d, k, ch).pc.RenameSidecar? || PublishNext(d, k, ch).pc.SyncDir?
    ensures k.pc.RenameBlob? || k.pc.RenameSidecar?
    ensures PublishNext(d, k, ch).job.session == k.job.session && PublishNext(d, k, ch).job.ino == k.job.ino
  {
  }

  lemma ActFragile(st: State, t: TaskId, ch: Choice)
    requires Fragile(st) && Enabled(st, t)
    ensures Fragile(Step(st, t, ch))
  {
    hide Unsettled, DiskAfter, TaskAfter, SlotsAfter, GateAfter, MutexAfter, Sound, Knows;
    StepSafe(st, t, ch);
    var k, st' := st.tasks[t], Step(st, t, ch);
    RenamedUnsettled(st, k, ch);
    forall u | u in st'.tasks ensures Unsettled(st'.disk, st'.tasks[u]) {
      if u != t {
        if HoldsWrite(st.tasks[u].pc) {
          assert !HoldsWrite(k.pc);
          OthersUnsettled(st.disk, k, ch, st.tasks[u]);
        } else {
          NotUnsettled(st'.disk, st.tasks[u]);
        }
      }
    }
  }

  lemma OthersUnsettled(d: Disk, k: Task, ch: Choice, w: Task)
    requires Unsettled(d, w) && !HoldsWrite(k.pc)
    ensures Unsettled(DiskAfter(d, k, ch), w)
  {
    hide DiskAfter, CanVanish;
    PastGrows(d, k, ch);
    if w.pc.RenameSidecar? || w.pc.SyncDir? {
      VanishesStill(d, DiskAfter(d, k, ch), w.job.session, w.job.ino);
    }
  }

  lemma NotUnsettled(d: Disk, k: Task)
    requires !HoldsWrite(k.pc)
    ensures Unsettled(d, k)
  {
  }

  lemma DoFragile(st: State, a: Action)
    requires Fragile(st) && Possible(st, a)
    ensures Fragile(Do(st, a))
  {
    hide Safe, Step, CrashDisk, Unsettled;
    DoSafe(st, a);
    match a
    case Arrive(_, s) => NotUnsettled(st.disk, NewTask(s));
    case Act(t, ch) => ActFragile(st, t, ch);
    case Drop(t) => NotUnsettled(st.disk, At(st.tasks[t], Finished));
    case Crash(_, _) =>
  }

  lemma {:induction false} RunFragile(st: State, acts: seq<Action>)
    requires Fragile(st) && IsRun(st, acts)
    ensures Fragile(Run(st, acts))
    decreases |acts|
  {
    hide Fragile, Do, Possible;
    if acts != [] {
      DoFragile(st, acts[0]);
      RunFragile(Do(st, acts[0]), acts[1..]);
    }
  }

  /**
    A publish whose blob is visible survives every crash from here on exactly when
    its directory sync has succeeded. The code goes on, and marks the slot clean, in
    either case.
   */
  lemma SurvivesExactlyWhenSynced(acts: seq<Action>, t: TaskId, ch: Choice)
    requires IsRun(INIT, acts) && Enabled(Run(INIT, acts), t)
    requires Run(INIT, acts).tasks[t].pc == SyncDir && ch.joined
    requires Blob(Run(INIT, acts).tasks[t].job.session) in Run(INIT, acts).disk.dir
    ensures var job := Run(INIT, acts).tasks[t].job;
            var next := Step(Run(INIT, acts), t, ch);
            && next.tasks[t].pc == Touch
            && ((forall dir, garbage | Possible(next, Crash(dir, garbage)) ::
                   var d := Do(next, Crash(dir, garbage)).disk;
                   Blob(job.session) in d.dir && d.dir[Blob(job.session)] == job.ino) <==> ch.ok)
  {
    hide Run, IsRun, Safe;
    NothingUnsettled();
    RunFragile(INIT, acts);
    var st := Run(INIT, acts);
    var job, next := st.tasks[t].job, Step(st, t, ch);
    assert Unsettled(st.disk, st.tasks[t]);
    if ch.ok {
      ShownAtSync(st, t);
      assert next.disk.past == {st.disk.dir};
    } else {
      assert next.disk == st.disk;
      var p :| p in st.disk.past && (Blob(job.session) !in p || p[Blob(job.session)] != job.ino);
      var none: map<Ino, Content> := map[];
      assert Possible(next, Crash(p, none));
      assert Do(next, Crash(p, none)).disk.dir == p;
    }
  }

  lemma ShownAtSync(st: State, t: TaskId)
    requires Safe(st) && t in st.tasks && st.tasks[t].pc == SyncDir
    requires Blob(st.tasks[t].job.session) in st.disk.dir
    ensures st.disk.dir[Blob(st.tasks[t].job.session)] == st.tasks[t].job.ino
  {
    assert Showing(st.disk, st.tasks[t]);
  }

  lemma NothingUnsettled()
    ensures Fragile(INIT)
  {
    InitSafe();
  }

  /** In every run what is in a file survives every crash exactly when the file was synced. */
  lemma ContentSurvivesExactlyWhenSynced(acts: seq<Action>, i: Ino)
    requires IsRun(INIT, acts) && i in Run(INIT, acts).disk.inodes
    ensures var st := Run(INIT, acts);
            (forall dir, garbage | Possible(st, Crash(dir, garbage)) ::
               var d := Do(st, Crash(dir, garbage)).disk;
               i in d.inodes && d.inodes[i].content == st.disk.inodes[i].content) <==> st.disk.inodes[i].synced
  {
    hide Run, IsRun;
    InitSafe();
    RunSafe(INIT, acts);
    var st := Run(INIT, acts);
    HasDirectory(st.disk);
    if !st.disk.inodes[i].synced {
      var other := if st.disk.inodes[i].content.Torn? then Whole(0) else Torn;
      var garbage := map[i := other];
      assert Possible(st, Crash(st.disk.dir, garbage));
      assert Do(st, Crash(st.disk.dir, garbage)).disk.inodes[i].content == other;
    }
  }
}
