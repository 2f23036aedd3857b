/**
  What lies behind a slot taken by eviction: the scan that chose it, the save the
  backend made of it, and the moment that save was shown as its owner's blob.
 */
module EvictionHistory {
  import opened Options
  import opened Registry
  import opened Steps
  import opened GateTheorems
  import opened BlobTheorems
  import opened EvictionTheorems

  // ------------------------------------------------------------ runs, from the end

  lemma {:induction false} RunSnoc(st: State, acts: seq<Action>, a: Action)
    requires IsRun(st, acts + [a])
    ensures IsRun(st, acts) && Possible(Run(st, acts), a) && Run(st, acts + [a]) == Do(Run(st, acts), a)
    decreases |acts|
  {
    hide Do, Possible;
    if acts == [] {
      assert ([] + [a])[1..] == [];
    } else {
      assert (acts + [a])[1..] == acts[1..] + [a];
      RunSnoc(Do(st, acts[0]), acts[1..], a);
    }
  }

  // The request was scanning, and found the slot of its present job, dirty, under
  // the owner it publishes for; `saves` saves had been made by then.
  ghost predicate Chosen(acts: seq<Action>, n: nat, t: TaskId, job: Job, saves: nat) {
    && n <= |acts| && IsRun(INIT, acts[..n])
    && var st := Run(INIT, acts[..n]);
       && t in st.tasks && st.tasks[t].pc == VictimScan && st.disk.nextSave == saves
       && FirstDirty(st.slots, st.tasks[t].report).1 == Victim(job.slot, Some(job.session))
  }

  // The request was about to mark the slot clean, its own save shown as the blob
  // (unless the quota had already removed the blob).
  ghost predicate Shown(acts: seq<Action>, n: nat, t: TaskId, job: Job) {
    && n <= |acts| && IsRun(INIT, acts[..n])
    && var st := Run(INIT, acts[..n]);
       && t in st.tasks && st.tasks[t].pc == Clean && st.tasks[t].job == job.(published := false)
       && Saved(st.disk, job)
       && (Blob(job.session) in st.disk.dir ==> st.disk.dir[Blob(job.session)] == job.ino)
  }

  lemma ChosenLater(acts: seq<Action>, m: nat, n: nat, t: TaskId, job: Job, job': Job, saves: nat)
    requires m <= |acts| && Chosen(acts[..m], n, t, job, saves)
    requires job'.slot == job.slot && job'.session == job.session
    ensures Chosen(acts, n, t, job', saves)
  {
    assert acts[..m][..n] == acts[..n];
  }

  lemma ShownLater(acts: seq<Action>, m: nat, n: nat, t: TaskId, job: Job)
    requires m <= |acts| && Shown(acts[..m], n, t, job)
    ensures Shown(acts, n, t, job)
  {
    assert acts[..m][..n] == acts[..n];
  }

  // ------------------------------------------------------------ one step of a job

  // A publish not yet ended does not count as published.
  predicate Unpublished(k: Task) {
    Publishing(k.pc) && !k.pc.LeaveWrite? ==> !k.job.published
  }

  predicate SaveKnown(d: Disk, k: Task) {
    k.job.save.Some? ==>
      k.job.save.value in d.saves && d.saves[k.job.save.value] == Save(k.job.session, k.job.slot)
  }

  datatype Move = Same | Goes | Completes | Marks | Starts | Claims

  function MoveOf(k: Task, k': Task): Move {
    if k.pc.VictimScan? && k'.pc.WantWrite? then Starts
    else if k.pc.Claim? then Claims
    else if k.pc.Clean? then Marks
    else if k.pc.EndSave? && k'.pc.OpenScratch? then Completes
    else if Publishing(k.pc) then Goes
    else Same
  }

  // What each kind of step does to the job.
  predicate JobMoves(d: Disk, k: Task, k': Task) {
    match MoveOf(k, k')
    case Same => k'.job == k.job
    case Goes =>
      && k'.job == k.job.(ino := k'.job.ino, published := k'.job.published)
      && (k'.job.published ==> k.job.published) && (k.pc.LeaveWrite? ==> k'.job == k.job)
    case Completes => k'.job == k.job.(save := Some(d.nextSave))
    case Marks => k'.job == k.job.(published := true)
    case Starts => k'.job.evicting && k'.job.save == None && !k'.job.published
    case Claims => k'.job == k.job || (!k'.job.evicting && k'.job.save == None && !k'.job.published)
  }

  lemma SaveJob(d: Disk, k: Task, ch: Choice)
    requires k.pc.WantWrite? || k.pc.QueueWrite? || k.pc.BeginSave? || k.pc.EndSave? || k.pc.OpenScratch?
             || k.pc.SyncFile?
    ensures JobMoves(d, k, PublishNext(d, k, ch))
    ensures Unpublished(k) ==> Unpublished(PublishNext(d, k, ch))
    ensures MoveOf(k, PublishNext(d, k, ch)).Completes? ==> ch.ok
  {
  }

  lemma SettleJob(d: Disk, k: Task, ch: Choice)
    requires k.pc.RenameBlob? || k.pc.RenameSidecar? || k.pc.SyncDir? || k.pc.Touch? || k.pc.CleanLock?
             || k.pc.Clean? || k.pc.LeaveWrite?
    ensures JobMoves(d, k, PublishNext(d, k, ch))
    ensures Unpublished(k) ==> Unpublished(PublishNext(d, k, ch))
    ensures MoveOf(k, PublishNext(d, k, ch)).Completes? ==> ch.ok
  {
  }

  lemma PublishJob(d: Disk, k: Task, ch: Choice)
    requires Publishing(k.pc)
    ensures JobMoves(d, k, PublishNext(d, k, ch))
    ensures Unpublished(k) ==> Unpublished(PublishNext(d, k, ch))
    ensures MoveOf(k, PublishNext(d, k, ch)).Completes? ==> ch.ok
  {
    hide JobMoves, Unpublished, PublishNext, MoveOf;
    if k.pc.WantWrite? || k.pc.QueueWrite? || k.pc.BeginSave? || k.pc.EndSave? || k.pc.OpenScratch?
       || k.pc.SyncFile? {
      SaveJob(d, k, ch);
    } else {
      SettleJob(d, k, ch);
    }
  }

  lemma LookupJob(st: State, k: Task, ch: Choice)
    requires LookingUp(k.pc)
    ensures JobMoves(st.disk, k, LookupNext(st, k, ch)) && Unpublished(LookupNext(st, k, ch))
  {
  }

  lemma EvictJob(st: State, k: Task, ch: Choice)
    requires Evicting(k.pc)
    ensures JobMoves(st.disk, k, EvictNext(st, k, ch)) && Unpublished(EvictNext(st, k, ch))
  {
  }

  lemma TurnJob(d: Disk, k: Task, ch: Choice)
    requires !LookingUp(k.pc) && !Evicting(k.pc) && !Publishing(k.pc)
    ensures JobMoves(d, k, TurnNext(k, ch)) && Unpublished(TurnNext(k, ch))
  {
  }

  lemma TaskJob(st: State, k: Task, ch: Choice)
    ensures JobMoves(st.disk, k, TaskAfter(st, k, ch))
    ensures Unpublished(k) ==> Unpublished(TaskAfter(st, k, ch))
    ensures MoveOf(k, TaskAfter(st, k, ch)).Completes? ==> ch.ok
  {
    hide JobMoves, Unpublished, LookupNext, EvictNext, PublishNext, TurnNext;
    if LookingUp(k.pc) {
      LookupJob(st, k, ch);
    } else if Evicting(k.pc) {
      EvictJob(st, k, ch);
    } else if Publishing(k.pc) {
      PublishJob(st.disk, k, ch);
    } else {
      TurnJob(st.disk, k, ch);
    }
  }

  lemma VictimOf(st: State, k: Task, ch: Choice)
    requires MoveOf(k, TaskAfter(st, k, ch)) == Starts
    ensures var job := TaskAfter(st, k, ch).job;
            FirstDirty(st.slots, k.report).1 == Victim(job.slot, Some(job.session))
  {
  }

  // Records of saves only grow.
  lemma DiskSaves(d: Disk, k: Task, ch: Choice)
    requires forall v | v in d.saves :: v < d.nextSave
    ensures var d' := DiskAfter(d, k, ch);
            && d.nextSave <= d'.nextSave
            && (forall v | v in d.saves :: v in d'.saves && d'.saves[v] == d.saves[v])
            && (k.pc.EndSave? && ch.ok ==>
                  d.nextSave in d'.saves && d'.saves[d.nextSave] == Save(k.job.session, k.job.slot))
  {
  }

  // ------------------------------------------------------------------ histories

  ghost predicate Told(acts: seq<Action>, d: Disk, k: Task, t: TaskId, scan: nat, saves: nat, shown: nat) {
    && Unpublished(k) && SaveKnown(d, k)
    && (k.job.evicting ==> Chosen(acts, scan, t, k.job, saves) && saves <= d.nextSave)
    && (k.job.evicting && k.job.save.Some? ==> saves <= k.job.save.value)
    && (k.job.evicting && k.job.published ==> scan < shown && Shown(acts, shown, t, k.job))
  }

  lemma ToldStays(acts: seq<Action>, d: Disk, d': Disk, k: Task, t: TaskId, scan: nat, saves: nat, shown: nat)
    requires acts != [] && Told(acts[..|acts| - 1], d, k, t, scan, saves, shown)
    requires d.nextSave <= d'.nextSave && forall v | v in d.saves :: v in d'.saves && d'.saves[v] == d.saves[v]
    ensures Told(acts, d', k, t, scan, saves, shown)
  {
    hide Chosen, Shown;
    if k.job.evicting {
      ChosenLater(acts, |acts| - 1, scan, t, k.job, k.job, saves);
      if k.job.published {
        ShownLater(acts, |acts| - 1, shown, t, k.job);
      }
    }
  }

  // A job that goes on: the scan behind it, and what it showed, stay what they were.
  lemma ToldGoesOn(
      acts: seq<Action>, d: Disk, d': Disk, k: Task, k': Task, t: TaskId, scan: nat, saves: nat, shown: nat)
    requires acts != [] && Told(acts[..|acts| - 1], d, k, t, scan, saves, shown)
    requires d.nextSave <= d'.nextSave && Unpublished(k') && SaveKnown(d', k')
    requires k'.job.slot == k.job.slot && k'.job.session == k.job.session && k'.job.evicting == k.job.evicting
    requires k'.job.save == k.job.save || k'.job.save == Some(d.nextSave)
    requires k'.job.published ==> k'.job == k.job
    ensures Told(acts, d', k', t, scan, saves, shown)
  {
    hide Chosen, Shown;
    if k.job.evicting {
      ChosenLater(acts, |acts| - 1, scan, t, k.job, k'.job, saves);
      if k'.job.published {
        ShownLater(acts, |acts| - 1, shown, t, k.job);
      }
    }
  }

  // The mark: this is the moment at which the save is shown.
  lemma ToldMarked(acts: seq<Action>, st: State, t: TaskId, k': Task, d': Disk, scan: nat, saves: nat, shown: nat)
    requires acts != [] && IsRun(INIT, acts[..|acts| - 1]) && st == Run(INIT, acts[..|acts| - 1])
    requires t in st.tasks && st.tasks[t].pc == Clean && Knows(st.disk, st.tasks[t])
    requires Told(acts[..|acts| - 1], st.disk, st.tasks[t], t, scan, saves, shown)
    requires k'.job == st.tasks[t].job.(published := true) && k'.pc == LeaveWrite
    requires st.disk.nextSave <= d'.nextSave && SaveKnown(d', k')
    ensures Told(acts, d', k', t, scan, saves, |acts| - 1)
  {
    hide Run, IsRun;
    var n := |acts| - 1;
    assert acts[..n][..n] == acts[..n];
    assert Shown(acts, n, t, k'.job);
    if k'.job.evicting {
      ChosenLater(acts, n, scan, t, st.tasks[t].job, k'.job, saves);
      assert scan != n;
    }
  }

  lemma ChosenNow(acts: seq<Action>, st: State, t: TaskId, job: Job)
    requires acts != [] && IsRun(INIT, acts[..|acts| - 1]) && st == Run(INIT, acts[..|acts| - 1])
    requires t in st.tasks && st.tasks[t].pc == VictimScan
    requires FirstDirty(st.slots, st.tasks[t].report).1 == Victim(job.slot, Some(job.session))
    ensures Chosen(acts, |acts| - 1, t, job, st.disk.nextSave)
  {
  }

  // The step of the request itself, from the state before the last action.
  lemma ToldMoves(acts: seq<Action>, st: State, t: TaskId, ch: Choice, scan: nat, saves: nat, shown: nat)
      returns (scan': nat, saves': nat, shown': nat)
    requires acts != [] && IsRun(INIT, acts[..|acts| - 1]) && st == Run(INIT, acts[..|acts| - 1])
    requires Safe(st) && t in st.tasks && Told(acts[..|acts| - 1], st.disk, st.tasks[t], t, scan, saves, shown)
    ensures var k := st.tasks[t];
            Told(acts, DiskAfter(st.disk, k, ch), TaskAfter(st, k, ch), t, scan', saves', shown')
  {
    hide Run, IsRun, TaskAfter, DiskAfter, Sound, LocksHeld, Chosen, Shown, Knows;
    var k, n, d := st.tasks[t], |acts| - 1, st.disk;
    var k', d' := TaskAfter(st, k, ch), DiskAfter(st.disk, k, ch);
    scan', saves', shown' := scan, saves, shown;
    TaskJob(st, k, ch);
    SavesBounded(d);
    DiskSaves(d, k, ch);
    match MoveOf(k, k')
    case Marks =>
      MarkLeaves(st, k, ch);
      shown' := n;
      ToldMarked(acts, st, t, k', d', scan, saves, shown);
    case Starts =>
      VictimOf(st, k, ch);
      scan', saves' := n, d.nextSave;
      ChosenNow(acts, st, t, k'.job);
    case Claims =>
      if k'.job == k.job {
        ToldGoesOn(acts, d, d', k, k', t, scan, saves, shown);
      }
    case _ =>
      ToldGoesOn(acts, d, d', k, k', t, scan, saves, shown);
  }

  lemma MarkLeaves(st: State, k: Task, ch: Choice)
    requires k.pc == Clean
    ensures TaskAfter(st, k, ch).pc == LeaveWrite
  {
  }

  lemma SavesBounded(d: Disk)
    requires Sound(d)
    ensures forall v | v in d.saves :: v < d.nextSave
  {
  }

  lemma NewcomerTold(acts: seq<Action>, d: Disk, s: Session, t: TaskId)
    ensures Told(acts, d, NewTask(s), t, 0, 0, 0)
  {
  }

  /** The history of any request, in any run. */
  lemma {:induction false} History(acts: seq<Action>, t: TaskId) returns (scan: nat, saves: nat, shown: nat)
    requires IsRun(INIT, acts) && t in Run(INIT, acts).tasks
    ensures Told(acts, Run(INIT, acts).disk, Run(INIT, acts).tasks[t], t, scan, saves, shown)
    decreases |acts|
  {
    hide Told, Run, IsRun, Do, Possible;
    scan, saves, shown := 0, 0, 0;
    if acts == [] {
      NobodyAtFirst();
    } else {
      var front, last := acts[..|acts| - 1], acts[|acts| - 1];
      assert acts == front + [last];
      RunSnoc(INIT, front, last);
      var st := Run(INIT, front);
      if last.Crash? || (last.Arrive? && last.t == t) {
        Arrivals(st, last, t);
        NewcomerTold(acts, Run(INIT, acts).disk, last.session, t);
      } else {
        OthersStay(st, last, t);
        scan, saves, shown := History(front, t);
        InitSafe();
        RunSafe(INIT, front);
        scan, saves, shown := ToldStep(acts, st, last, t, scan, saves, shown);
      }
    }
  }

  lemma NobodyAtFirst()
    ensures IsRun(INIT, []) && Run(INIT, []).tasks == map[]
  {
  }

  lemma Arrivals(st: State, a: Action, t: TaskId)
    requires Possible(st, a) && t in Do(st, a).tasks && (a.Crash? || (a.Arrive? && a.t == t))
    ensures a.Arrive? && Do(st, a).tasks[t] == NewTask(a.session)
  {
  }

  lemma OthersStay(st: State, a: Action, t: TaskId)
    requires Possible(st, a) && t in Do(st, a).tasks && !a.Crash? && (a.Arrive? ==> a.t != t)
    ensures t in st.tasks && (a.Arrive? || a.t != t ==> Do(st, a).tasks[t] == st.tasks[t])
    ensures a.Drop? && a.t == t ==> Do(st, a).tasks[t] == At(st.tasks[t], Finished)
  {
    hide TaskAfter;
  }

  lemma ToldDropped(acts: seq<Action>, d: Disk, k: Task, t: TaskId, scan: nat, saves: nat, shown: nat)
    requires acts != [] && Told(acts[..|acts| - 1], d, k, t, scan, saves, shown)
    ensures Told(acts, d, At(k, Finished), t, scan, saves, shown)
  {
    hide Chosen, Shown;
    ToldStays(acts, d, d, k, t, scan, saves, shown);
  }

  lemma ToldStep(acts: seq<Action>, st: State, a: Action, t: TaskId, scan: nat, saves: nat, shown: nat)
      returns (scan': nat, saves': nat, shown': nat)
    requires acts != [] && IsRun(INIT, acts[..|acts| - 1]) && st == Run(INIT, acts[..|acts| - 1])
    requires Safe(st) && t in st.tasks && Told(acts[..|acts| - 1], st.disk, st.tasks[t], t, scan, saves, shown)
    requires Possible(st, a) && t in Do(st, a).tasks && !a.Crash? && (a.Arrive? ==> a.t != t)
    ensures Told(acts, Do(st, a).disk, Do(st, a).tasks[t], t, scan', saves', shown')
  {
    hide Run, IsRun, Told, TaskAfter, DiskAfter, SlotsAfter, Sound, LocksHeld;
    if a.Act? && a.t == t {
      scan', saves', shown' := ToldMoves(acts, st, t, a.choice, scan, saves, shown);
    } else if a.Drop? && a.t == t {
      scan', saves', shown' := scan, saves, shown;
      var k := st.tasks[t];
      ToldDropped(acts, st.disk, k, t, scan, saves, shown);
    } else {
      scan', saves', shown' := scan, saves, shown;
      SavesBounded(st.disk);
      if a.Act? {
        DiskSaves(st.disk, st.tasks[a.t], a.choice);
      }
      ToldStays(acts, st.disk, Do(st, a).disk, st.tasks[t], t, scan, saves, shown);
    }
  }

  /**
    A request about to take a slot by eviction has behind it, in this order: the
    scan in which it found that slot dirty under some owner; a save that the
    backend made of that slot for that owner after the scan; and the moment when
    that save, whole, was what the owner's blob showed (unless the quota had
    already removed the blob), just before the slot was marked clean.
   */
  lemma NeverTakenUnsaved(acts: seq<Action>, t: TaskId) returns (scan: nat, saves: nat, shown: nat)
    requires IsRun(INIT, acts) && t in Run(INIT, acts).tasks
    requires TakenByEviction(Run(INIT, acts).tasks[t])
    ensures var end := Run(INIT, acts);
            var k := end.tasks[t];
            && k.steer == Some(k.job.slot)
            && Chosen(acts, scan, t, k.job, saves) && scan < shown && Shown(acts, shown, t, k.job)
            && k.job.save.Some? && saves <= k.job.save.value
            && k.job.save.value in end.disk.saves
            && end.disk.saves[k.job.save.value] == Save(k.job.session, k.job.slot)
  {
    hide Run, IsRun, Chosen;
    FlagsSayPublished(acts, t);
    scan, saves, shown := History(acts, t);
  }
}
