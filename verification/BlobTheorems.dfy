/**
  Torn blobs are impossible: in every run of the small-step protocol, crashes
  included, a visible blob is exactly one complete save made for its session.
  (The sidecar is renamed by a step of its own, so nothing of the kind is said
  of sidecars.)
 */
module BlobTheorems {
  import opened Options
  import opened Registry
  import opened Steps
  import opened GateTheorems

  ghost predicate OneName(p: Directory) {
    forall m, n | m in p && n in p && p[m] == p[n] :: m == n
  }

  ghost predicate PublishedAs(d: Disk, i: Ino, s: Session) {
    && i in d.inodes && d.inodes[i].synced && d.inodes[i].content.Whole?
    && d.inodes[i].content.save in d.saves && d.saves[d.inodes[i].content.save].session == s
  }

  ghost predicate NoBlobOn(d: Disk, i: Ino) {
    forall p, s | p in d.past && Blob(s) in p :: p[Blob(s)] != i
  }

  // Holds of every directory a crash could fall back to, not just the present one.
  ghost predicate Sound(d: Disk) {
    && d.dir in d.past
    && (forall p | p in d.past :: OneName(p))
    && (forall p, n | p in d.past && n in p :: p[n] < d.nextIno)
    && (forall p, s | p in d.past && Blob(s) in p :: PublishedAs(d, p[Blob(s)], s))
    && (forall s | Scratch(s) in d.dir :: NoBlobOn(d, d.dir[Scratch(s)]))
    && (forall k | k in d.saves :: k < d.nextSave)
  }

  predicate InSave(pc: Pc) {
    pc.EndSave? || pc.OpenScratch? || pc.SyncFile? || pc.RenameBlob?
  }

  // The file of a publish holds the one save that the backend made for it.
  ghost predicate Saved(d: Disk, job: Job) {
    && job.save.Some? && job.save.value in d.saves && d.saves[job.save.value] == Save(job.session, job.slot)
    && job.ino in d.inodes && d.inodes[job.ino].content == Whole(job.save.value)
  }

  // What a publish in progress knows of its scratch file.
  ghost predicate Writing(d: Disk, k: Task) {
    var i, s := k.job.ino, k.job.session;
    && i < d.nextIno && NoBlobOn(d, i)
    && (Scratch(s) in d.dir ==> d.dir[Scratch(s)] == i)
    && (!k.pc.EndSave? ==> Saved(d, k.job))
    && (k.pc.RenameBlob? ==> d.inodes[i].synced)
  }

  predicate Renamed(pc: Pc) {
    pc.RenameSidecar? || pc.SyncDir? || pc.Touch? || pc.CleanLock? || pc.Clean?
  }

  // After its rename: the blob's name shows this publish's own file, unless the
  // quota has removed it.
  ghost predicate Showing(d: Disk, k: Task) {
    var i, s := k.job.ino, k.job.session;
    && Saved(d, k.job)
    && (Blob(s) in d.dir ==> d.dir[Blob(s)] == i)
  }

  ghost predicate Knows(d: Disk, k: Task) {
    && (InSave(k.pc) ==> Writing(d, k))
    && (Renamed(k.pc) ==> Showing(d, k))
  }

  // -------------------------------------------------------- one operation each

  lemma BindSound(d: Disk, dir: Directory)
    requires Sound(d) && OneName(dir)
    requires forall n | n in dir :: dir[n] < d.nextIno
    requires forall s | Blob(s) in dir :: PublishedAs(d, dir[Blob(s)], s)
    requires forall s | Scratch(s) in dir :: NoBlobOn(d, dir[Scratch(s)])
    ensures Sound(Bind(d, dir))
  {
    var d' := Bind(d, dir);
    forall p | p in d'.past ensures p in d.past || p == dir {
    }
    forall s | Scratch(s) in dir ensures NoBlobOn(d', dir[Scratch(s)]) {
      forall p, s' | p in d'.past && Blob(s') in p ensures p[Blob(s')] != dir[Scratch(s)] {
      }
    }
  }

  // Giving an inode that no blob uses new content disturbs no blob.
  lemma WriteSound(d: Disk, i: Ino, node: Inode)
    requires Sound(d) && NoBlobOn(d, i)
    ensures Sound(d.(inodes := d.inodes[i := node]))
  {
    var d' := d.(inodes := d.inodes[i := node]);
    forall s | Scratch(s) in d'.dir ensures NoBlobOn(d', d'.dir[Scratch(s)]) {
      assert NoBlobOn(d, d.dir[Scratch(s)]);
    }
  }

  lemma GrowSound(d: Disk, next: Ino)
    requires Sound(d) && next >= d.nextIno
    ensures Sound(d.(nextIno := next))
  {
    var d' := d.(nextIno := next);
    forall s | Scratch(s) in d'.dir ensures NoBlobOn(d', d'.dir[Scratch(s)]) {
      assert NoBlobOn(d, d.dir[Scratch(s)]);
    }
  }

  lemma FreshIno(d: Disk)
    requires Sound(d)
    ensures NoBlobOn(d, d.nextIno)
  {
  }

  lemma BeginSound(d: Disk, s: Session)
    requires Sound(d)
    ensures var d' := BeginScratch(d, s);
            && Sound(d') && ScratchIno(d, s) < d'.nextIno && NoBlobOn(d', ScratchIno(d, s))
            && Scratch(s) in d'.dir && d'.dir[Scratch(s)] == ScratchIno(d, s)
  {
    var ino := ScratchIno(d, s);
    FreshIno(d);
    assert NoBlobOn(d, ino);
    var d1 := d.(inodes := d.inodes[ino := Inode(Torn, false)]);
    WriteSound(d, ino, Inode(Torn, false));
    assert NoBlobOn(d1, ino);
    if Scratch(s) !in d.dir {
      var d2 := d1.(nextIno := ino + 1);
      GrowSound(d1, ino + 1);
      assert NoBlobOn(d2, ino);
      BindScratch(d2, s, ino);
      assert BeginScratch(d, s) == Bind(d2, d.dir[Scratch(s) := ino]);
    }
  }

  lemma BindScratch(d: Disk, s: Session, ino: Ino)
    requires Sound(d) && ino < d.nextIno && NoBlobOn(d, ino)
    requires forall n | n in d.dir :: d.dir[n] != ino
    ensures Sound(Bind(d, d.dir[Scratch(s) := ino]))
    ensures NoBlobOn(Bind(d, d.dir[Scratch(s) := ino]), ino)
  {
    var dir := d.dir[Scratch(s) := ino];
    forall s' | Scratch(s') in dir ensures NoBlobOn(d, dir[Scratch(s')]) {
      if s' != s {
        assert Scratch(s') in d.dir;
      }
    }
    BindSound(d, dir);
  }

  lemma SaveSound(d: Disk, job: Job)
    requires Sound(d) && NoBlobOn(d, job.ino)
    ensures var d' := EndScratch(d, job, false);
            && Sound(d') && NoBlobOn(d', job.ino) && Saved(d', job.(save := Some(d.nextSave)))
  {
    WriteSound(d, job.ino, Inode(Whole(d.nextSave), false));
    var d1 := d.(inodes := d.inodes[job.ino := Inode(Whole(d.nextSave), false)]);
    var d' := EndScratch(d, job, false);
    assert d' == d1.(saves := d.saves[d.nextSave := Save(job.session, job.slot)], nextSave := d.nextSave + 1);
    forall p, s | p in d'.past && Blob(s) in p ensures PublishedAs(d', p[Blob(s)], s) {
      assert PublishedAs(d1, p[Blob(s)], s);
    }
    forall s | Scratch(s) in d'.dir ensures NoBlobOn(d', d'.dir[Scratch(s)]) {
      assert NoBlobOn(d1, d1.dir[Scratch(s)]);
    }
  }

  lemma SidecarSound(d: Disk, s: Session, i: Ino)
    requires Sound(d) && NoBlobOn(d, i) && i < d.nextIno
    ensures var d' := Bind(d.(inodes := d.inodes[d.nextIno := Inode(Torn, false)], nextIno := d.nextIno + 1),
                           d.dir[ScratchSidecar(s) := d.nextIno]);
            && Sound(d') && NoBlobOn(d', i)
            && (forall j | j in d.inodes && j < d.nextIno :: j in d'.inodes && d'.inodes[j] == d.inodes[j])
  {
    FreshIno(d);
    WriteSound(d, d.nextIno, Inode(Torn, false));
    var d1 := d.(inodes := d.inodes[d.nextIno := Inode(Torn, false)]);
    GrowSound(d1, d.nextIno + 1);
    BindSidecar(d1.(nextIno := d.nextIno + 1), s, d.nextIno);
  }

  lemma BindSidecar(d: Disk, s: Session, ino: Ino)
    requires Sound(d) && ino < d.nextIno
    requires forall n | n in d.dir :: d.dir[n] != ino
    ensures Sound(Bind(d, d.dir[ScratchSidecar(s) := ino]))
    ensures forall i | NoBlobOn(d, i) :: NoBlobOn(Bind(d, d.dir[ScratchSidecar(s) := ino]), i)
  {
    var dir := d.dir[ScratchSidecar(s) := ino];
    forall s' | Scratch(s') in dir ensures NoBlobOn(d, dir[Scratch(s')]) {
      assert Scratch(s') in d.dir;
    }
    BindSound(d, dir);
  }

  lemma EndSound(d: Disk, job: Job, sidecar: bool)
    requires Sound(d) && NoBlobOn(d, job.ino) && job.ino < d.nextIno
    ensures var d' := EndScratch(d, job, sidecar);
            && Sound(d') && NoBlobOn(d', job.ino) && job.ino < d'.nextIno && Saved(d', job.(save := Some(d.nextSave)))
            && (Scratch(job.session) in d'.dir ==>
                  Scratch(job.session) in d.dir && d'.dir[Scratch(job.session)] == d.dir[Scratch(job.session)])
  {
    SaveSound(d, job);
    if sidecar {
      var d1 := EndScratch(d, job, false);
      SidecarSound(d1, job.session, job.ino);
    }
  }

  lemma SyncSound(d: Disk, i: Ino)
    requires Sound(d) && NoBlobOn(d, i)
    ensures Sound(Sync(d, i)) && NoBlobOn(Sync(d, i), i)
  {
    if i in d.inodes {
      WriteSound(d, i, d.inodes[i].(synced := true));
    }
  }

  lemma RenameBlobSound(d: Disk, s: Session)
    requires Sound(d) && Scratch(s) in d.dir && PublishedAs(d, d.dir[Scratch(s)], s)
    ensures Sound(Rename(d, Scratch(s), Blob(s)))
  {
    var ino := d.dir[Scratch(s)];
    var dir := (d.dir - {Scratch(s)})[Blob(s) := ino];
    var d' := Bind(d, dir);
    assert OneName(d.dir);
    assert OneName(dir);
    forall s' | Scratch(s') in dir ensures NoBlobOn(d', dir[Scratch(s')]) {
      assert NoBlobOn(d, d.dir[Scratch(s')]);
      assert d.dir[Scratch(s')] != ino;
    }
    forall p | p in d'.past ensures p in d.past || p == dir {
    }
  }

  lemma RenameSidecarSound(d: Disk, s: Session)
    requires Sound(d) && ScratchSidecar(s) in d.dir
    ensures Sound(Rename(d, ScratchSidecar(s), Sidecar(s)))
  {
    var dir := (d.dir - {ScratchSidecar(s)})[Sidecar(s) := d.dir[ScratchSidecar(s)]];
    assert OneName(d.dir);
    forall s' | Scratch(s') in dir ensures NoBlobOn(d, dir[Scratch(s')]) {
      assert Scratch(s') in d.dir;
    }
    forall s' | Blob(s') in dir ensures PublishedAs(d, dir[Blob(s')], s') {
      assert Blob(s') in d.dir;
    }
    BindSound(d, dir);
  }

  lemma ForgetSound(d: Disk)
    requires Sound(d)
    ensures Sound(d.(past := {d.dir}))
  {
    var d' := d.(past := {d.dir});
    forall s | Scratch(s) in d'.dir ensures NoBlobOn(d', d'.dir[Scratch(s)]) {
      assert NoBlobOn(d, d.dir[Scratch(s)]);
    }
  }

  lemma DeleteSound(d: Disk, n: Name)
    requires Sound(d) && n in d.dir
    ensures Sound(Bind(d, d.dir - {n}))
    ensures forall i | NoBlobOn(d, i) :: NoBlobOn(Bind(d, d.dir - {n}), i)
  {
    assert OneName(d.dir);
    BindSound(d, d.dir - {n});
  }

  /** A crash keeps whatever a visible blob says: it was synced before its rename. */
  lemma CrashSound(d: Disk, dir: Directory, garbage: map<Ino, Content>)
    requires Sound(d) && dir in d.past
    ensures Sound(CrashDisk(d, dir, garbage))
  {
    var d' := CrashDisk(d, dir, garbage);
    assert OneName(dir);
    forall s | Blob(s) in dir ensures PublishedAs(d', dir[Blob(s)], s) {
      assert PublishedAs(d, dir[Blob(s)], s);
    }
  }

  // ------------------------------------------------------------- whole steps

  ghost predicate Safe(st: State) {
    && LocksHeld(st) && Sound(st.disk)
    && (forall t | t in st.tasks :: Knows(st.disk, st.tasks[t]))
  }

  lemma ScratchStep(d: Disk, k: Task, ch: Choice)
    requires Sound(d) && (k.pc.BeginSave? || k.pc.EndSave?)
    requires k.pc.EndSave? ==> Writing(d, k)
    ensures Sound(DiskAfter(d, k, ch))
    ensures Knows(DiskAfter(d, k, ch), PublishNext(d, k, ch))
  {
    hide Sound;
    if k.pc.BeginSave? {
      BeginSound(d, k.job.session);
    } else if ch.ok {
      EndSound(d, k.job, ch.sidecar);
    }
  }

  lemma SettleStep(d: Disk, k: Task, ch: Choice)
    requires Sound(d) && (k.pc.OpenScratch? || k.pc.SyncFile? || k.pc.RenameBlob?) && Writing(d, k)
    ensures Sound(DiskAfter(d, k, ch))
    ensures Knows(DiskAfter(d, k, ch), PublishNext(d, k, ch))
  {
    hide Sound;
    if k.pc.SyncFile? && ch.ok {
      SyncSound(d, k.job.ino);
    } else if k.pc.RenameBlob? && ch.ok && Scratch(k.job.session) in d.dir {
      RenameBlobSound(d, k.job.session);
    }
  }

  lemma TailStep(d: Disk, k: Task, ch: Choice)
    requires Sound(d) && HoldsWrite(k.pc)
    requires !k.pc.BeginSave? && !k.pc.EndSave? && !k.pc.OpenScratch? && !k.pc.SyncFile? && !k.pc.RenameBlob?
    requires Knows(d, k)
    ensures Sound(DiskAfter(d, k, ch))
    ensures Knows(DiskAfter(d, k, ch), PublishNext(d, k, ch))
  {
    hide Sound;
    if k.pc.RenameSidecar? && ch.ok && ScratchSidecar(k.job.session) in d.dir {
      RenameSidecarSound(d, k.job.session);
    } else if k.pc.SyncDir? && ch.ok {
      ForgetSound(d);
    }
  }

  lemma WriterStep(d: Disk, k: Task, ch: Choice)
    requires Sound(d) && HoldsWrite(k.pc) && Knows(d, k)
    ensures Sound(DiskAfter(d, k, ch))
    ensures Knows(DiskAfter(d, k, ch), PublishNext(d, k, ch))
  {
    hide Sound, Writing, Showing, DiskAfter, PublishNext;
    match k.pc
    case BeginSave => ScratchStep(d, k, ch);
    case EndSave => ScratchStep(d, k, ch);
    case OpenScratch => SettleStep(d, k, ch);
    case SyncFile => SettleStep(d, k, ch);
    case RenameBlob => SettleStep(d, k, ch);
    case _ => TailStep(d, k, ch);
  }

  lemma OtherStep(d: Disk, k: Task, ch: Choice, w: Task)
    requires Sound(d) && !HoldsWrite(k.pc)
    ensures Sound(DiskAfter(d, k, ch))
    ensures Knows(d, w) ==> Knows(DiskAfter(d, k, ch), w)
  {
    if k.pc.Delete? && ch.ok && k.plan != [] && k.plan[0] in d.dir {
      DeleteSound(d, k.plan[0]);
    }
  }

  lemma StepSafe(st: State, t: TaskId, ch: Choice)
    requires Safe(st) && Enabled(st, t)
    ensures Safe(Step(st, t, ch))
  {
    hide LocksHeld, Sound, Knows, DiskAfter, SlotsAfter, PublishNext, LookupNext, EvictNext, TurnNext;
    StepHeld(st, t, ch);
    var k := st.tasks[t];
    var st' := Step(st, t, ch);
    if HoldsWrite(k.pc) {
      WriterStep(st.disk, k, ch);
    } else {
      OtherStep(st.disk, k, ch, k);
    }
    forall u | u in st'.tasks ensures Knows(st'.disk, st'.tasks[u]) {
      StepKnows(st, t, ch, u);
    }
  }

  lemma StepKnows(st: State, t: TaskId, ch: Choice, u: TaskId)
    requires Safe(st) && Enabled(st, t) && u in Step(st, t, ch).tasks
    ensures Knows(Step(st, t, ch).disk, Step(st, t, ch).tasks[u])
  {
    hide Sound, Writing, Showing, DiskAfter, SlotsAfter, PublishNext, LookupNext, EvictNext, TurnNext;
    var k := st.tasks[t];
    TaskMoves(st, k, ch);
    if u != t {
      if HoldsWrite(st.tasks[u].pc) {
        assert st.gate.writer == Some(u);
        assert !HoldsWrite(k.pc);
        OtherStep(st.disk, k, ch, st.tasks[u]);
      }
    } else if HoldsWrite(k.pc) {
      WriterStep(st.disk, k, ch);
    } else {
      EntersAtBegin(st, k, ch);
    }
  }

  lemma EntersAtBegin(st: State, k: Task, ch: Choice)
    requires !HoldsWrite(k.pc)
    ensures !InSave(TaskAfter(st, k, ch).pc) && !Renamed(TaskAfter(st, k, ch).pc)
  {
    TaskMoves(st, k, ch);
  }

  lemma DoSafe(st: State, a: Action)
    requires Safe(st) && Possible(st, a)
    ensures Safe(Do(st, a))
  {
    DoHeld(st, a);
    match a
    case Arrive(_, _) =>
    case Act(t, ch) => StepSafe(st, t, ch);
    case Drop(_) =>
    case Crash(dir, garbage) => CrashSound(st.disk, dir, garbage);
  }

  lemma {:induction false} RunSafe(st: State, acts: seq<Action>)
    requires Safe(st) && IsRun(st, acts)
    ensures Safe(Run(st, acts))
    decreases |acts|
  {
    if acts != [] {
      DoSafe(st, acts[0]);
      RunSafe(Do(st, acts[0]), acts[1..]);
    }
  }

  lemma InitSafe()
    ensures Safe(INIT)
  {
  }

  /**
    Whatever interleaves and wherever it crashes: a visible blob is one complete
    save that the backend made for that session.
   */
  lemma TornBlobsImpossible(acts: seq<Action>, s: Session)
    requires IsRun(INIT, acts) && Blob(s) in Run(INIT, acts).disk.dir
    ensures var d := Run(INIT, acts).disk;
            var i := d.dir[Blob(s)];
            && i in d.inodes && d.inodes[i].content.Whole?
            && d.inodes[i].content.save in d.saves && d.saves[d.inodes[i].content.save].session == s
  {
    hide Run, IsRun;
    InitSafe();
    RunSafe(INIT, acts);
    var d := Run(INIT, acts).disk;
    assert PublishedAs(d, d.dir[Blob(s)], s);
  }

  /** And it stays that save: no step and no crash changes the file of a visible blob. */
  lemma VisibleBlobNeverChanges(acts: seq<Action>, a: Action, s: Session)
    requires IsRun(INIT, acts) && Possible(Run(INIT, acts), a)
    requires Blob(s) in Run(INIT, acts).disk.dir
    ensures var d, d' := Run(INIT, acts).disk, Do(Run(INIT, acts), a).disk;
            var i := d.dir[Blob(s)];
            i in d.inodes && i in d'.inodes && d'.inodes[i] == d.inodes[i]
  {
    hide Run, IsRun;
    InitSafe();
    RunSafe(INIT, acts);
    BlobStays(Run(INIT, acts), a, s);
  }

  lemma BlobStays(st: State, a: Action, s: Session)
    requires Safe(st) && Possible(st, a) && Blob(s) in st.disk.dir
    ensures var i := st.disk.dir[Blob(s)];
            i in st.disk.inodes && i in Do(st, a).disk.inodes && Do(st, a).disk.inodes[i] == st.disk.inodes[i]
  {
    var d := st.disk;
    var i := d.dir[Blob(s)];
    assert PublishedAs(d, i, s);
    if a.Act? {
      StepKeepsInode(d, st.tasks[a.t], a.choice, i);
    }
  }

  lemma StepKeepsInode(d: Disk, k: Task, ch: Choice, i: Ino)
    requires Sound(d) && Knows(d, k)
    requires i in d.inodes && i < d.nextIno && !NoBlobOn(d, i)
    ensures i in DiskAfter(d, k, ch).inodes && DiskAfter(d, k, ch).inodes[i] == d.inodes[i]
  {
    if k.pc.BeginSave? {
      FreshIno(d);
    }
  }

  // Nobody can write to this file any more.
  ghost predicate Fixed(st: State, i: Ino) {
    && i in st.disk.inodes && i < st.disk.nextIno
    && (forall s | Scratch(s) in st.disk.dir :: st.disk.dir[Scratch(s)] != i)
    && (forall t | t in st.tasks && InSave(st.tasks[t].pc) :: st.tasks[t].job.ino != i)
  }

  lemma FixedWriter(d: Disk, k: Task, ch: Choice, i: Ino)
    requires i in d.inodes && i < d.nextIno && (forall s | Scratch(s) in d.dir :: d.dir[Scratch(s)] != i)
    requires InSave(k.pc) ==> k.job.ino != i
    ensures var d' := DiskAfter(d, k, ch);
            && i in d'.inodes && d'.inodes[i] == d.inodes[i] && i < d'.nextIno
            && (forall s | Scratch(s) in d'.dir :: d'.dir[Scratch(s)] != i)
  {
  }

  lemma FixedJob(d: Disk, k: Task, ch: Choice, i: Ino)
    requires HoldsWrite(k.pc) && i < d.nextIno && (forall s | Scratch(s) in d.dir :: d.dir[Scratch(s)] != i)
    requires InSave(k.pc) ==> k.job.ino != i
    ensures InSave(PublishNext(d, k, ch).pc) ==> PublishNext(d, k, ch).job.ino != i
  {
  }

  lemma FixedStep(st: State, a: Action, i: Ino)
    requires Fixed(st, i) && Possible(st, a) && !a.Crash?
    ensures Fixed(Do(st, a), i) && Do(st, a).disk.inodes[i] == st.disk.inodes[i]
  {
    hide DiskAfter, TaskAfter, SlotsAfter, GateAfter, MutexAfter;
    if a.Act? {
      var k := st.tasks[a.t];
      FixedWriter(st.disk, k, a.choice, i);
      FixedOwn(st, k, a.choice, i);
    }
  }

  lemma FixedOwn(st: State, k: Task, ch: Choice, i: Ino)
    requires i < st.disk.nextIno && (forall s | Scratch(s) in st.disk.dir :: st.disk.dir[Scratch(s)] != i)
    requires InSave(k.pc) ==> k.job.ino != i
    ensures InSave(TaskAfter(st, k, ch).pc) ==> TaskAfter(st, k, ch).job.ino != i
  {
    hide LookupNext, EvictNext, PublishNext, TurnNext;
    if HoldsWrite(k.pc) {
      FixedJob(st.disk, k, ch, i);
    } else {
      EntersAtBegin(st, k, ch);
    }
  }

  lemma {:induction false} FixedRun(st: State, acts: seq<Action>, i: Ino)
    requires Fixed(st, i) && IsRun(st, acts) && forall a | a in acts :: !a.Crash?
    ensures i in Run(st, acts).disk.inodes && Run(st, acts).disk.inodes[i] == st.disk.inodes[i]
    decreases |acts|
  {
    if acts != [] {
      FixedStep(st, acts[0], i);
      FixedRun(Do(st, acts[0]), acts[1..], i);
    }
  }

  lemma VisibleIsFixed(st: State, s: Session)
    requires Safe(st) && Blob(s) in st.disk.dir
    ensures Fixed(st, st.disk.dir[Blob(s)])
  {
    var i := st.disk.dir[Blob(s)];
    assert PublishedAs(st.disk, i, s);
    forall t | t in st.tasks && InSave(st.tasks[t].pc) ensures st.tasks[t].job.ino != i {
      assert Writing(st.disk, st.tasks[t]);
    }
  }

  /**
    A reader that has a visible blob open reads one save to the end: as long as the
    machine does not crash, its file stays as it is, whatever runs, also once the
    name has been given to a newer save or removed by the quota.
   */
  lemma OpenBlobNeverChanges(acts: seq<Action>, more: seq<Action>, s: Session)
    requires IsRun(INIT, acts) && Blob(s) in Run(INIT, acts).disk.dir
    requires IsRun(Run(INIT, acts), more) && forall a | a in more :: !a.Crash?
    ensures var st := Run(INIT, acts);
            var i := st.disk.dir[Blob(s)];
            var end := Run(st, more);
            && i in st.disk.inodes && i in end.disk.inodes && end.disk.inodes[i] == st.disk.inodes[i]
  {
    hide Run, IsRun, Fixed;
    InitSafe();
    RunSafe(INIT, acts);
    var st := Run(INIT, acts);
    VisibleIsFixed(st, s);
    assert PublishedAs(st.disk, st.disk.dir[Blob(s)], s);
    FixedRun(st, more, st.disk.dir[Blob(s)]);
  }

  /**
    A slot is marked clean only when the save just made of it is whole and is
    what its session's blob shows (or the quota has already removed the blob).
   */
  lemma CleanMeansPublished(acts: seq<Action>, t: TaskId)
    requires IsRun(INIT, acts) && t in Run(INIT, acts).tasks
    requires Run(INIT, acts).tasks[t].pc == Clean
    ensures var d, job := Run(INIT, acts).disk, Run(INIT, acts).tasks[t].job;
            && Saved(d, job)
            && (Blob(job.session) in d.dir ==> d.dir[Blob(job.session)] == job.ino)
  {
    hide Run, IsRun;
    InitSafe();
    RunSafe(INIT, acts);
    assert Knows(Run(INIT, acts).disk, Run(INIT, acts).tasks[t]);
  }
}
