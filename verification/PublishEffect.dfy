/**
  What one publish leaves in the directory that nothing interrupts and in which
  nothing fails, but for the rename of the sidecar: the new save under the blob's
  name, a sidecar beside it (and exactly when an older one), no scratch file, and
  every other session's files as they were.
 */
module PublishEffect {
  import opened Options
  import opened Registry
  import opened Steps
  import opened BlobTheorems

  function Bound(d: Disk, n: Name): Option<Ino> {
    if n in d.dir then Some(d.dir[n]) else None
  }

  // Only the names in `ns` may be bound otherwise.
  ghost predicate KeepsBut(d: Disk, d': Disk, ns: set<Name>) {
    forall n | n !in ns :: Bound(d', n) == Bound(d, n)
  }

  // The next step of a publish. The save writes a sidecar or not, and the rename of
  // the sidecar, whose failure the publish ignores, works or not.
  function PublishStep(d: Disk, k: Task, sidecar: bool, moves: bool): (Disk, Task) {
    var ch := Choice(moves || !k.pc.RenameSidecar?, true, [], [], sidecar, Ended, []);
    (DiskAfter(d, k, ch), PublishNext(d, k, ch))
  }

  function PublishSteps(d: Disk, k: Task, n: nat, sidecar: bool, moves: bool): (Disk, Task)
    decreases n
  {
    if n == 0 then (d, k)
    else PublishSteps(PublishStep(d, k, sidecar, moves).0, PublishStep(d, k, sidecar, moves).1, n - 1, sidecar, moves)
  }

  lemma {:induction false} StepsCompose(d: Disk, k: Task, m: nat, n: nat, sidecar: bool, moves: bool)
    ensures var (d', k') := PublishSteps(d, k, m, sidecar, moves);
            PublishSteps(d, k, m + n, sidecar, moves) == PublishSteps(d', k', n, sidecar, moves)
    decreases m
  {
    hide PublishStep;
    if m > 0 {
      var (d1, k1) := PublishStep(d, k, sidecar, moves);
      StepsCompose(d1, k1, m - 1, n, sidecar, moves);
    }
  }

  // The scratch file begun.
  lemma BeginEffect(d: Disk, k: Task, sidecar: bool, moves: bool)
    requires Sound(d) && k.pc == BeginSave
    ensures var (d', k') := PublishStep(d, k, sidecar, moves);
            var s, i := k.job.session, k'.job.ino;
            && k'.pc == EndSave && k'.job.session == s && k'.job.slot == k.job.slot
            && KeepsBut(d, d', {Scratch(s)}) && Bound(d', Scratch(s)) == Some(i)
            && d.nextIno <= d'.nextIno && i < d'.nextIno
            && d'.saves == d.saves && d'.nextSave == d.nextSave
  {
    hide Sound;
    BeginSound(d, k.job.session);
  }

  // Completed by the backend, with or without a sidecar.
  lemma EndEffect(d: Disk, k: Task, sidecar: bool, moves: bool)
    requires k.pc == EndSave && k.job.ino < d.nextIno
    ensures var (d', k') := PublishStep(d, k, sidecar, moves);
            var s, i := k.job.session, k.job.ino;
            && k' == k.(pc := OpenScratch, job := k.job.(save := Some(d.nextSave)))
            && i in d'.inodes && d'.inodes[i].content == Whole(d.nextSave)
            && d'.saves == d.saves[d.nextSave := Save(s, k.job.slot)]
            && KeepsBut(d, d', {ScratchSidecar(s)})
            && Bound(d', ScratchSidecar(s)) == if sidecar then Some(d.nextIno) else Bound(d, ScratchSidecar(s))
  {
  }

  lemma SyncEffect(d: Disk, k: Task, sidecar: bool, moves: bool)
    requires k.pc == OpenScratch && Bound(d, Scratch(k.job.session)) == Some(k.job.ino) && k.job.ino in d.inodes
    ensures var (d', k') := PublishSteps(d, k, 2, sidecar, moves);
            var i := k.job.ino;
            && k' == k.(pc := RenameBlob) && KeepsBut(d, d', {}) && d'.saves == d.saves
            && i in d'.inodes && d'.inodes[i] == d.inodes[i].(synced := true)
  {
    var (d1, k1) := PublishStep(d, k, sidecar, moves);
    assert d1 == d && k1 == k.(pc := SyncFile);
    assert PublishSteps(d, k, 2, sidecar, moves) == PublishSteps(d1, k1, 1, sidecar, moves);
    assert PublishSteps(d1, k1, 1, sidecar, moves) == PublishStep(d1, k1, sidecar, moves);
  }

  lemma RenameEffect(d: Disk, k: Task, sidecar: bool, moves: bool)
    requires k.pc == RenameBlob && Scratch(k.job.session) in d.dir
    ensures var (d', k') := PublishStep(d, k, sidecar, moves);
            var s := k.job.session;
            && k' == k.(pc := RenameSidecar) && d'.inodes == d.inodes && d'.saves == d.saves
            && KeepsBut(d, d', {Scratch(s), Blob(s)})
            && Bound(d', Scratch(s)) == None && Bound(d', Blob(s)) == Bound(d, Scratch(s))
  {
  }

  lemma SidecarEffect(d: Disk, k: Task, sidecar: bool, moves: bool)
    requires k.pc == RenameSidecar
    ensures var (d', k') := PublishSteps(d, k, 2, sidecar, moves);
            var s := k.job.session;
            && k' == k.(pc := Touch) && d'.inodes == d.inodes && d'.saves == d.saves && d'.past == {d'.dir}
            && KeepsBut(d, d', {ScratchSidecar(s), Sidecar(s)})
            && (if moves && ScratchSidecar(s) in d.dir
                then Bound(d', ScratchSidecar(s)) == None && Bound(d', Sidecar(s)) == Bound(d, ScratchSidecar(s))
                else Bound(d', ScratchSidecar(s)) == Bound(d, ScratchSidecar(s))
                     && Bound(d', Sidecar(s)) == Bound(d, Sidecar(s)))
  {
    var (d1, k1) := PublishStep(d, k, sidecar, moves);
    assert k1 == k.(pc := SyncDir);
    assert PublishSteps(d, k, 2, sidecar, moves) == PublishSteps(d1, k1, 1, sidecar, moves);
    assert PublishSteps(d1, k1, 1, sidecar, moves) == PublishStep(d1, k1, sidecar, moves);
  }

  // Saved and synced under the scratch name: four steps.
  lemma SavedEffect(d: Disk, k: Task, sidecar: bool, moves: bool)
    requires Sound(d) && k.pc == BeginSave
    ensures var (d', k') := PublishSteps(d, k, 4, sidecar, moves);
            var s, i := k.job.session, k'.job.ino;
            && k'.pc == RenameBlob && k'.job.session == s
            && KeepsBut(d, d', {Scratch(s), ScratchSidecar(s)})
            && Bound(d', Scratch(s)) == Some(i) && i in d'.inodes && d'.inodes[i] == Inode(Whole(d.nextSave), true)
            && d'.saves == d.saves[d.nextSave := Save(s, k.job.slot)]
            && (sidecar ==> Bound(d', ScratchSidecar(s)).Some? && Bound(d', ScratchSidecar(s)).value >= d.nextIno)
            && (!sidecar ==> Bound(d', ScratchSidecar(s)) == Bound(d, ScratchSidecar(s)))
  {
    hide Sound, PublishStep, PublishSteps;
    BeginEffect(d, k, sidecar, moves);
    var (d1, k1) := PublishStep(d, k, sidecar, moves);
    EndEffect(d1, k1, sidecar, moves);
    var (d2, k2) := PublishStep(d1, k1, sidecar, moves);
    SyncEffect(d2, k2, sidecar, moves);
    FourSteps(d, k, sidecar, moves);
  }

  lemma FourSteps(d: Disk, k: Task, sidecar: bool, moves: bool)
    ensures var (d1, k1) := PublishStep(d, k, sidecar, moves);
            var (d2, k2) := PublishStep(d1, k1, sidecar, moves);
            PublishSteps(d, k, 4, sidecar, moves) == PublishSteps(d2, k2, 2, sidecar, moves)
  {
    hide PublishStep;
    var (d1, k1) := PublishStep(d, k, sidecar, moves);
    assert PublishSteps(d, k, 4, sidecar, moves) == PublishSteps(d1, k1, 3, sidecar, moves);
  }

  // Renamed, blob first, then the directory synced: three steps.
  lemma RenamedEffect(d: Disk, k: Task, sidecar: bool, moves: bool)
    requires k.pc == RenameBlob && Scratch(k.job.session) in d.dir
    ensures var (d', k') := PublishSteps(d, k, 3, sidecar, moves);
            var s := k.job.session;
            && k' == k.(pc := Touch) && d'.inodes == d.inodes && d'.saves == d.saves && d'.past == {d'.dir}
            && KeepsBut(d, d', {Scratch(s), Blob(s), ScratchSidecar(s), Sidecar(s)})
            && Bound(d', Scratch(s)) == None && Bound(d', Blob(s)) == Bound(d, Scratch(s))
            && (if moves && ScratchSidecar(s) in d.dir
                then Bound(d', ScratchSidecar(s)) == None && Bound(d', Sidecar(s)) == Bound(d, ScratchSidecar(s))
                else Bound(d', ScratchSidecar(s)) == Bound(d, ScratchSidecar(s))
                     && Bound(d', Sidecar(s)) == Bound(d, Sidecar(s)))
  {
    hide PublishStep;
    RenameEffect(d, k, sidecar, moves);
    var (d1, k1) := PublishStep(d, k, sidecar, moves);
    SidecarEffect(d1, k1, sidecar, moves);
    assert PublishSteps(d, k, 3, sidecar, moves) == PublishSteps(d1, k1, 2, sidecar, moves);
  }

  /** The seven steps together: what every name of the session shows, and the others'. */
  lemma UninterruptedPublish(d: Disk, k: Task, sidecar: bool, moves: bool)
    requires Sound(d) && k.pc == BeginSave
    ensures var (d', k') := PublishSteps(d, k, 7, sidecar, moves);
            var s, i := k.job.session, k'.job.ino;
            var waiting := if sidecar then Bound(d', if moves then Sidecar(s) else ScratchSidecar(s))
                           else Bound(d, ScratchSidecar(s));
            && k'.pc == Touch
            && Bound(d', Blob(s)) == Some(i) && i in d'.inodes && d'.inodes[i] == Inode(Whole(d.nextSave), true)
            && d'.saves == d.saves[d.nextSave := Save(s, k.job.slot)]
            && Bound(d', Scratch(s)) == None
            && (sidecar ==> waiting.Some? && waiting.value >= d.nextIno)
            && (if moves && waiting.Some?
                then Bound(d', Sidecar(s)) == waiting && Bound(d', ScratchSidecar(s)) == None
                else Bound(d', Sidecar(s)) == Bound(d, Sidecar(s)) && Bound(d', ScratchSidecar(s)) == waiting)
            && (forall n: Name | n.s != s :: Bound(d', n) == Bound(d, n))
            && d'.past == {d'.dir}
  {
    hide Sound, PublishStep, PublishSteps;
    SavedEffect(d, k, sidecar, moves);
    var (d1, k1) := PublishSteps(d, k, 4, sidecar, moves);
    RenamedEffect(d1, k1, sidecar, moves);
    StepsCompose(d, k, 4, 3, sidecar, moves);
  }

  // The blob stands beside a sidecar that was there before its save was begun.
  predicate BesideOld(d: Disk, d': Disk, s: Session) {
    Bound(d', Sidecar(s)).Some? && Bound(d', Sidecar(s)).value < d.nextIno
  }

  /**
    Exactly when a new blob gets an older save's sidecar: one was published and is
    not replaced, because the rename fails or there is none to rename; or this save
    writes none and an earlier failed one left its scratch sidecar behind.
   */
  lemma OldSidecarExactlyWhen(d: Disk, k: Task, sidecar: bool, moves: bool)
    requires Sound(d) && k.pc == BeginSave
    ensures var s := k.job.session;
            BesideOld(d, PublishSteps(d, k, 7, sidecar, moves).0, s) <==>
            || (Sidecar(s) in d.dir && (!moves || (!sidecar && ScratchSidecar(s) !in d.dir)))
            || (moves && !sidecar && ScratchSidecar(s) in d.dir)
  {
    hide PublishSteps;
    UninterruptedPublish(d, k, sidecar, moves);
  }
}
