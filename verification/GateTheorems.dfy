/**
  The gate and the mutex in every run: publishes exclude lookups and each other,
  nobody waits for the gate while holding anything, and nothing ever deadlocks.
 */
module GateTheorems {
  import opened Options
  import opened Registry
  import opened Steps

  type Tasks = map<TaskId, Task>

  ghost predicate GateHeld(tasks: Tasks, g: Gate) {
    && (forall t :: g.writer == Some(t) <==> t in tasks && HoldsWrite(tasks[t].pc))
    && (forall t :: t in g.readers <==> t in tasks && HoldsRead(tasks[t].pc))
    && (g.writer.Some? ==> g.readers == {})
  }

  ghost predicate MutexHeld(tasks: Tasks, m: Option<TaskId>) {
    forall t :: m == Some(t) <==> t in tasks && HoldsMutex(tasks[t].pc)
  }

  ghost predicate QueueHeld(tasks: Tasks, q: seq<TaskId>) {
    && (forall t :: t in q <==> t in tasks && Queued(tasks[t].pc))
    && (forall i, j | 0 <= i < j < |q| :: q[i] != q[j])
  }

  ghost predicate LocksHeld(st: State) {
    GateHeld(st.tasks, st.gate) && MutexHeld(st.tasks, st.mutex) && QueueHeld(st.tasks, st.gate.queue)
  }

  // Holdings change only where the protocol acquires or releases.

  ghost predicate Moves(pc: Pc, pc': Pc) {
    && (HoldsRead(pc') <==> pc.QueueRead? || (HoldsRead(pc) && !pc.LeaveRead?))
    && (HoldsWrite(pc') <==> pc.QueueWrite? || (HoldsWrite(pc) && !pc.LeaveWrite?))
    && (HoldsMutex(pc') <==> WantsMutex(pc))
    && (Queued(pc') <==> pc.WantRead? || pc.WantWrite?)
  }

  lemma LookupMoves(st: State, k: Task, ch: Choice)
    requires LookingUp(k.pc)
    ensures Moves(k.pc, LookupNext(st, k, ch).pc)
  {
  }

  lemma EvictMoves(st: State, k: Task, ch: Choice)
    requires Evicting(k.pc)
    ensures Moves(k.pc, EvictNext(st, k, ch).pc)
  {
  }

  lemma PublishMoves(d: Disk, k: Task, ch: Choice)
    requires Publishing(k.pc)
    ensures Moves(k.pc, PublishNext(d, k, ch).pc)
  {
  }

  // Until it is over, a publish stays with its slot and session.
  lemma PublishKeepsJob(d: Disk, k: Task, ch: Choice)
    requires Publishing(k.pc) && !k.pc.LeaveWrite?
    ensures var k' := PublishNext(d, k, ch);
            && Publishing(k'.pc) && k'.session == k.session && k'.steer == k.steer && k'.diskHit == k.diskHit
            && k'.job.slot == k.job.slot && k'.job.session == k.job.session && k'.job.evicting == k.job.evicting
            && k'.pick == k.pick
  {
  }

  lemma ServeMoves(k: Task, ch: Choice)
    requires k.pc.Restore? || k.pc.MarkLock? || k.pc.Mark? || k.pc.Dispatch? || k.pc.Serve?
    ensures Moves(k.pc, TurnNext(k, ch).pc)
  {
  }

  lemma CloseMoves(k: Task, ch: Choice)
    requires k.pc.ClaimLock? || k.pc.Claim? || k.pc.QuitLock? || k.pc.Quit? || k.pc.ScanDir? || k.pc.Delete?
             || k.pc.Finished?
    ensures Moves(k.pc, TurnNext(k, ch).pc)
  {
  }

  lemma TurnMoves(k: Task, ch: Choice)
    requires !LookingUp(k.pc) && !Evicting(k.pc) && !Publishing(k.pc)
    ensures Moves(k.pc, TurnNext(k, ch).pc)
  {
    hide TurnNext, Moves;
    if k.pc.Restore? || k.pc.MarkLock? || k.pc.Mark? || k.pc.Dispatch? || k.pc.Serve? {
      ServeMoves(k, ch);
    } else {
      CloseMoves(k, ch);
    }
  }

  lemma TaskMoves(st: State, k: Task, ch: Choice)
    ensures Moves(k.pc, TaskAfter(st, k, ch).pc)
  {
    hide LookupNext, EvictNext, PublishNext, TurnNext, Moves;
    if LookingUp(k.pc) {
      LookupMoves(st, k, ch);
    } else if Evicting(k.pc) {
      EvictMoves(st, k, ch);
    } else if Publishing(k.pc) {
      PublishMoves(st.disk, k, ch);
    } else {
      TurnMoves(k, ch);
    }
  }

  lemma StepGate(st: State, t: TaskId, k': Task)
    requires LocksHeld(st) && Enabled(st, t) && Moves(st.tasks[t].pc, k'.pc)
    ensures GateHeld(st.tasks[t := k'], GateAfter(st.gate, t, st.tasks[t].pc))
  {
  }

  lemma StepMutex(st: State, t: TaskId, k': Task)
    requires LocksHeld(st) && Enabled(st, t) && Moves(st.tasks[t].pc, k'.pc)
    ensures MutexHeld(st.tasks[t := k'], MutexAfter(st.mutex, t, st.tasks[t].pc))
  {
  }

  lemma StepQueue(st: State, t: TaskId, k': Task)
    requires LocksHeld(st) && Enabled(st, t) && Moves(st.tasks[t].pc, k'.pc)
    ensures QueueHeld(st.tasks[t := k'], GateAfter(st.gate, t, st.tasks[t].pc).queue)
  {
    var q, pc := st.gate.queue, st.tasks[t].pc;
    if Queued(pc) {
      assert q == [t] + q[1..];
    }
  }

  lemma StepHeld(st: State, t: TaskId, ch: Choice)
    requires LocksHeld(st) && Enabled(st, t)
    ensures LocksHeld(Step(st, t, ch))
  {
    hide TaskAfter, SlotsAfter, DiskAfter, GateAfter, MutexAfter, GateHeld, MutexHeld, QueueHeld, Moves;
    var k' := TaskAfter(st, st.tasks[t], ch);
    TaskMoves(st, st.tasks[t], ch);
    StepGate(st, t, k');
    StepMutex(st, t, k');
    StepQueue(st, t, k');
  }

  lemma DoHeld(st: State, a: Action)
    requires LocksHeld(st) && Possible(st, a)
    ensures LocksHeld(Do(st, a))
  {
    hide Step, Enabled;
    match a
    case Arrive(_, _) =>
    case Act(t, ch) => ActHeld(st, t, ch);
    case Drop(t) => DropHeld(st, t);
    case Crash(_, _) =>
  }

  lemma {:induction false} RemovedFacts(q: seq<TaskId>, t: TaskId)
    requires forall i, j | 0 <= i < j < |q| :: q[i] != q[j]
    ensures forall u :: u in Removed(q, t) <==> u in q && u != t
    ensures forall i, j | 0 <= i < j < |Removed(q, t)| :: Removed(q, t)[i] != Removed(q, t)[j]
  {
    if q != [] {
      RemovedFacts(q[1..], t);
      assert q == [q[0]] + q[1..];
      var r := Removed(q[1..], t);
      forall j | 0 <= j < |r| ensures r[j] != q[0] {
        assert r[j] in q[1..];
      }
    }
  }

  lemma DropHeld(st: State, t: TaskId)
    requires LocksHeld(st) && t in st.tasks && Droppable(st.tasks[t])
    ensures LocksHeld(Dropped(st, t))
  {
    RemovedFacts(st.gate.queue, t);
  }

  lemma ActHeld(st: State, t: TaskId, ch: Choice)
    requires LocksHeld(st) && Enabled(st, t)
    ensures LocksHeld(Do(st, Act(t, ch)))
  {
    hide LocksHeld, Step, Enabled;
    StepHeld(st, t, ch);
  }

  lemma {:induction false} RunHeld(st: State, acts: seq<Action>)
    requires LocksHeld(st) && IsRun(st, acts)
    ensures LocksHeld(Run(st, acts))
    decreases |acts|
  {
    if acts != [] {
      DoHeld(st, acts[0]);
      RunHeld(Do(st, acts[0]), acts[1..]);
    }
  }

  /**
    In every run: one publish at a time, and no lookup between its first byte
    and the mark that ends it.
   */
  lemma GateExclusion(acts: seq<Action>, t: TaskId, u: TaskId)
    requires IsRun(INIT, acts)
    requires t in Run(INIT, acts).tasks && u in Run(INIT, acts).tasks && t != u
    requires Run(INIT, acts).tasks[t].pc in
               {BeginSave, EndSave, OpenScratch, SyncFile, RenameBlob, RenameSidecar, SyncDir, Touch, CleanLock, Clean,
                LeaveWrite}
    ensures Run(INIT, acts).tasks[u].pc !in
               {BeginSave, EndSave, OpenScratch, SyncFile, RenameBlob, RenameSidecar, SyncDir, Touch, CleanLock, Clean,
                LeaveWrite}
    ensures Run(INIT, acts).tasks[u].pc !in {CheckBlob, HotLock, HotScan, AskSlots, FreeLock, FreeScan, LeaveRead}
  {
    RunHeld(INIT, acts);
    var end := Run(INIT, acts);
    assert end.gate.writer == Some(t);
    assert u !in end.gate.readers;
  }

  /** In every run: one request at a time reads or changes the registry. */
  lemma MutexExclusion(acts: seq<Action>, t: TaskId, u: TaskId)
    requires IsRun(INIT, acts)
    requires t in Run(INIT, acts).tasks && u in Run(INIT, acts).tasks && t != u
    requires Run(INIT, acts).tasks[t].pc in {HotScan, FreeScan, VictimScan, Mark, Clean, Claim, Quit}
    ensures Run(INIT, acts).tasks[u].pc !in {HotScan, FreeScan, VictimScan, Mark, Clean, Claim, Quit}
  {
    RunHeld(INIT, acts);
    assert Run(INIT, acts).mutex == Some(t);
  }

  /** A request queued for the gate holds neither the mutex nor the gate. */
  lemma WaitersHoldNothing(acts: seq<Action>, t: TaskId)
    requires IsRun(INIT, acts) && t in Run(INIT, acts).gate.queue
    ensures var end := Run(INIT, acts);
            end.mutex != Some(t) && t !in end.gate.readers && end.gate.writer != Some(t)
  {
    RunHeld(INIT, acts);
  }

  /** While any request is unfinished, some request can take a step. */
  lemma NeverStuck(acts: seq<Action>, t: TaskId) returns (next: TaskId)
    requires IsRun(INIT, acts)
    requires t in Run(INIT, acts).tasks && Run(INIT, acts).tasks[t].pc != Finished
    ensures Enabled(Run(INIT, acts), next)
  {
    RunHeld(INIT, acts);
    next := SomeEnabled(Run(INIT, acts), t);
  }

  lemma SomeEnabled(st: State, t: TaskId) returns (next: TaskId)
    requires LocksHeld(st) && t in st.tasks && st.tasks[t].pc != Finished
    ensures Enabled(st, next)
  {
    if m :| st.mutex == Some(m) {
      next := m;                                   // inside a critical section: never waits
    } else if w :| st.gate.writer == Some(w) {
      next := w;                                   // publishing: the mutex is free
    } else if r :| r in st.gate.readers {
      next := r;                                   // looking up: the mutex is free
    } else if st.gate.queue != [] {
      next := st.gate.queue[0];                    // the gate is free for its first waiter
      assert next in st.gate.queue;
    } else {
      next := t;
    }
  }

  /**
    In every run a client may leave while its handler waits in its admission, outside
    the exclusive gate: the handler is then gone for good and neither holds nor awaits
    the gate or the mutex, and nothing else has changed.
   */
  lemma DroppedHoldsNothing(acts: seq<Action>, t: TaskId)
    requires IsRun(INIT, acts) && t in Run(INIT, acts).tasks
    requires var k := Run(INIT, acts).tasks[t];
             || k.pc in {WantRead, QueueRead, CheckBlob, HotLock, AskSlots, FreeLock, LeaveRead, AskVictims, VictimLock,
                         Restore, MarkLock, Dispatch}
             || (k.pc in {WantWrite, QueueWrite} && k.job.evicting)
    ensures Possible(Run(INIT, acts), Drop(t))
    ensures var st, st' := Run(INIT, acts), Do(Run(INIT, acts), Drop(t));
            && t in st'.tasks && st'.tasks[t].pc == Finished && !Enabled(st', t)
            && t !in st'.gate.readers && t !in st'.gate.queue && st'.gate.writer != Some(t) && st'.mutex != Some(t)
            && st' == st.(tasks := st.tasks[t := st'.tasks[t]], gate := st'.gate)
            && st'.gate.writer == st.gate.writer && st'.gate.readers == st.gate.readers - {t}
            && (forall u | u != t :: u in st.gate.queue <==> u in st'.gate.queue)
  {
    hide Run, IsRun, LocksHeld, Droppable, Dropped;
    InitHeld();
    RunHeld(INIT, acts);
    var st := Run(INIT, acts);
    MayLeave(st.tasks[t]);
    DropHeld(st, t);
    DropLeaves(st, t);
    FinishedHoldsNothing(Dropped(st, t), t);
  }

  lemma MayLeave(k: Task)
    requires || k.pc in {WantRead, QueueRead, CheckBlob, HotLock, AskSlots, FreeLock, LeaveRead, AskVictims, VictimLock,
                         Restore, MarkLock, Dispatch}
             || (k.pc in {WantWrite, QueueWrite} && k.job.evicting)
    ensures Droppable(k)
  {
  }

  lemma DropLeaves(st: State, t: TaskId)
    requires LocksHeld(st) && t in st.tasks
    ensures var st' := Dropped(st, t);
            && t in st'.tasks && st'.tasks[t].pc == Finished
            && st' == st.(tasks := st.tasks[t := st'.tasks[t]], gate := st'.gate)
            && st'.gate.writer == st.gate.writer && st'.gate.readers == st.gate.readers - {t}
            && (forall u | u != t :: u in st.gate.queue <==> u in st'.gate.queue)
  {
    RemovedFacts(st.gate.queue, t);
  }

  lemma FinishedHoldsNothing(st: State, t: TaskId)
    requires LocksHeld(st) && t in st.tasks && st.tasks[t].pc == Finished
    ensures t !in st.gate.readers && t !in st.gate.queue && st.gate.writer != Some(t) && st.mutex != Some(t)
    ensures !Enabled(st, t)
  {
  }

  lemma InitHeld()
    ensures LocksHeld(INIT)
  {
  }

  // ----------------------------------------------------------------- fairness

  // `t` waits for the gate, and `u` does not wait in front of it.
  ghost predicate WaitsBehind(q: seq<TaskId>, t: TaskId, u: TaskId) {
    exists i | 0 <= i < |q| :: q[i] == t && forall j | 0 <= j <= i :: q[j] != u
  }

  // The action is not a step of `t`, and no crash.
  predicate ByOthers(a: Action, t: TaskId) {
    match a
    case Arrive(_, _) => true
    case Act(u, _) => u != t
    case Drop(u) => u != t
    case Crash(_, _) => false
  }

  lemma {:induction false} RemovedBehind(q: seq<TaskId>, t: TaskId, u: TaskId, v: TaskId)
    requires WaitsBehind(q, t, u) && v != t
    ensures WaitsBehind(Removed(q, v), t, u)
  {
    var i :| 0 <= i < |q| && q[i] == t && forall j | 0 <= j <= i :: q[j] != u;
    var rest := Removed(q[1..], v);
    if i == 0 {
      assert Removed(q, v)[0] == t;
    } else {
      assert q[1..][i - 1] == t && forall j | 0 <= j <= i - 1 :: q[1..][j] == q[j + 1];
      RemovedBehind(q[1..], t, u, v);
      var k :| 0 <= k < |rest| && rest[k] == t && forall j | 0 <= j <= k :: rest[j] != u;
      if q[0] != v {
        var all := [q[0]] + rest;
        assert all[k + 1] == t && forall j | 0 < j <= k + 1 :: all[j] == rest[j - 1];
      }
    }
  }

  lemma BehindStays(st: State, a: Action, t: TaskId, u: TaskId)
    requires LocksHeld(st) && Possible(st, a) && ByOthers(a, t) && t != u
    requires WaitsBehind(st.gate.queue, t, u)
    ensures WaitsBehind(Do(st, a).gate.queue, t, u)
  {
    hide TaskAfter, SlotsAfter, DiskAfter, LocksHeld;
    var q := st.gate.queue;
    var i :| 0 <= i < |q| && q[i] == t && forall j | 0 <= j <= i :: q[j] != u;
    match a
    case Arrive(_, _) =>
    case Act(v, _) =>
      var q' := GateAfter(st.gate, v, st.tasks[v].pc).queue;
      if Queued(st.tasks[v].pc) {
        assert q[0] == v && i > 0 && q'[i - 1] == t && forall j | 0 <= j <= i - 1 :: q'[j] == q[j + 1];
      } else {
        assert q'[i] == t && forall j | 0 <= j <= i :: q'[j] == q[j];
      }
    case Drop(v) => RemovedBehind(q, t, u, v);
  }

  /**
    First come, first served: while a request waits for the gate, none that was not
    waiting in front of it is let in, whatever others do.
   */
  lemma {:induction false} NoOvertaking(st: State, acts: seq<Action>, t: TaskId, u: TaskId)
    requires LocksHeld(st) && IsRun(st, acts) && t != u && WaitsBehind(st.gate.queue, t, u)
    requires forall a | a in acts :: ByOthers(a, t)
    ensures WaitsBehind(Run(st, acts).gate.queue, t, u)
    ensures u in Run(st, acts).tasks && Queued(Run(st, acts).tasks[u].pc) ==> !Enabled(Run(st, acts), u)
    decreases |acts|
  {
    hide LocksHeld, Do, Possible, WaitsBehind;
    if acts == [] {
      NotLetIn(st, t, u);
    } else {
      assert acts[0] in acts;
      DoHeld(st, acts[0]);
      BehindStays(st, acts[0], t, u);
      NoOvertaking(Do(st, acts[0]), acts[1..], t, u);
    }
  }

  lemma NotLetIn(st: State, t: TaskId, u: TaskId)
    requires WaitsBehind(st.gate.queue, t, u)
    ensures u in st.tasks && Queued(st.tasks[u].pc) ==> !Enabled(st, u)
  {
  }

  // --------------------------------------------------------------- progress

  function PublishPosition(pc: Pc): nat {
    match pc
    case WantWrite => 13
    case QueueWrite => 12
    case BeginSave => 11
    case EndSave => 10
    case OpenScratch => 9
    case SyncFile => 8
    case RenameBlob => 7
    case RenameSidecar => 6
    case SyncDir => 5
    case Touch => 4
    case CleanLock => 3
    case Clean => 2
    case _ => 1
  }

  // How far a request is from its end. An eviction's publish comes before the
  // turn, the request's own after it.
  function Position(k: Task): nat {
    if Publishing(k.pc) then PublishPosition(k.pc) + if k.job.evicting then 35 else 15
    else
      match k.pc
      case WantRead => 60
      case QueueRead => 59
      case CheckBlob => 58
      case HotLock => 57
      case HotScan => 56
      case AskSlots => 55
      case FreeLock => 54
      case FreeScan => 53
      case LeaveRead => 52
      case AskVictims => 51
      case VictimLock => 50
      case VictimScan => 49
      case Restore => 35
      case MarkLock => 34
      case Mark => 33
      case Dispatch => 32
      case Serve => 31
      case ClaimLock => 30
      case Claim => 29
      case QuitLock => 30
      case Quit => 29
      case ScanDir => 15
      case Delete => 14
      case _ => 0
  }

  predicate Nearer(k': Task, k: Task) {
    Position(k') < Position(k) || (Position(k') == Position(k) && |k'.plan| < |k.plan|)
  }

  lemma LookupNearer(st: State, k: Task, ch: Choice)
    requires LookingUp(k.pc)
    ensures Nearer(LookupNext(st, k, ch), k)
  {
  }

  lemma EvictNearer(st: State, k: Task, ch: Choice)
    requires Evicting(k.pc)
    ensures Nearer(EvictNext(st, k, ch), k)
  {
  }

  lemma SaveNearer(d: Disk, k: Task, ch: Choice)
    requires k.pc.WantWrite? || k.pc.QueueWrite? || k.pc.BeginSave? || k.pc.EndSave? || k.pc.OpenScratch?
             || k.pc.SyncFile?
    ensures Nearer(PublishNext(d, k, ch), k)
  {
  }

  lemma SettleNearer(d: Disk, k: Task, ch: Choice)
    requires k.pc.RenameBlob? || k.pc.RenameSidecar? || k.pc.SyncDir? || k.pc.Touch? || k.pc.CleanLock?
             || k.pc.Clean? || k.pc.LeaveWrite?
    ensures Nearer(PublishNext(d, k, ch), k)
  {
  }

  lemma PublishNearer(d: Disk, k: Task, ch: Choice)
    requires Publishing(k.pc)
    ensures Nearer(PublishNext(d, k, ch), k)
  {
    hide PublishNext, Nearer;
    if k.pc.WantWrite? || k.pc.QueueWrite? || k.pc.BeginSave? || k.pc.EndSave? || k.pc.OpenScratch?
       || k.pc.SyncFile? {
      SaveNearer(d, k, ch);
    } else {
      SettleNearer(d, k, ch);
    }
  }

  lemma TurnNearer(k: Task, ch: Choice)
    requires !LookingUp(k.pc) && !Evicting(k.pc) && !Publishing(k.pc) && !k.pc.Finished?
    ensures Nearer(TurnNext(k, ch), k)
  {
  }

  /**
    No livelock: every step brings its request strictly nearer to its end, in a
    well-founded order, and leaves the other requests where they are.
   */
  lemma EveryStepAdvances(st: State, t: TaskId, ch: Choice)
    requires Enabled(st, t)
    ensures var st' := Step(st, t, ch);
            && Nearer(st'.tasks[t], st.tasks[t])
            && st'.tasks.Keys == st.tasks.Keys
            && (forall u | u in st.tasks && u != t :: st'.tasks[u] == st.tasks[u])
  {
    hide LookupNext, EvictNext, PublishNext, TurnNext, SlotsAfter, DiskAfter, GateAfter, MutexAfter, Nearer;
    var k := st.tasks[t];
    if LookingUp(k.pc) {
      LookupNearer(st, k, ch);
    } else if Evicting(k.pc) {
      EvictNearer(st, k, ch);
    } else if Publishing(k.pc) {
      PublishNearer(st.disk, k, ch);
    } else {
      TurnNearer(k, ch);
    }
  }

  // How many steps of a run are those of `t`.
  ghost function StepsOf(acts: seq<Action>, t: TaskId): nat {
    if acts == [] then 0
    else (if acts[0].Act? && acts[0].t == t then 1 else 0) + StepsOf(acts[1..], t)
  }

  // How many files the quota pass of `t` plans to delete at this action.
  ghost function PlannedNow(st: State, a: Action, t: TaskId): nat {
    if a.Act? && a.t == t && t in st.tasks && st.tasks[t].pc.ScanDir? then |a.choice.plan| else 0
  }

  ghost function PlannedBy(st: State, acts: seq<Action>, t: TaskId): nat
    requires IsRun(st, acts)
    decreases |acts|
  {
    if acts == [] then 0 else PlannedNow(st, acts[0], t) + PlannedBy(Do(st, acts[0]), acts[1..], t)
  }

  lemma PlanNext(st: State, k: Task, ch: Choice)
    ensures |TaskAfter(st, k, ch).plan| <= |k.plan| + |ch.plan|
    ensures !k.pc.ScanDir? ==> |TaskAfter(st, k, ch).plan| <= |k.plan|
  {
    hide HotSlot, FirstFree, FirstDirty;
  }

  lemma StepCosts(st: State, a: Action, t: TaskId)
    requires Possible(st, a) && !a.Crash? && t in st.tasks
    ensures t in Do(st, a).tasks
    ensures var before, after := st.tasks[t], Do(st, a).tasks[t];
            (if a.Act? && a.t == t then 1 else 0) + Position(after) + |after.plan|
            <= Position(before) + |before.plan| + PlannedNow(st, a, t)
  {
    hide TaskAfter, SlotsAfter, DiskAfter, GateAfter, MutexAfter, Position, Enabled;
    if a.Act? && a.t == t {
      var k, ch := st.tasks[t], a.choice;
      EveryStepAdvances(st, t, ch);
      PlanNext(st, k, ch);
      assert Step(st, t, ch).tasks[t] == TaskAfter(st, k, ch);
    } else if a.Drop? && a.t == t {
      EndIsNearest(st.tasks[t]);
    }
  }

  lemma EndIsNearest(k: Task)
    ensures Position(At(k, Finished)) == 0
  {
  }

  /**
    From its arrival on, a request takes at most sixty steps of its own and one for
    each file its quota pass planned to delete, whatever the others do.
   */
  lemma FinitelyManySteps(st: State, acts: seq<Action>, t: TaskId, s: Session)
    requires t in st.tasks && st.tasks[t] == NewTask(s)
    requires IsRun(st, acts) && forall a | a in acts :: !a.Crash?
    ensures StepsOf(acts, t) <= 60 + PlannedBy(st, acts, t)
  {
    CostOf(st, acts, t);
  }

  lemma {:induction false} CostOf(st: State, acts: seq<Action>, t: TaskId)
    requires t in st.tasks && IsRun(st, acts) && forall a | a in acts :: !a.Crash?
    ensures StepsOf(acts, t) <= Position(st.tasks[t]) + |st.tasks[t].plan| + PlannedBy(st, acts, t)
    decreases |acts|
  {
    hide Do, Possible, Position, PlannedNow;
    if acts != [] {
      assert acts[0] in acts;
      StepCosts(st, acts[0], t);
      CostOf(Do(st, acts[0]), acts[1..], t);
    }
  }
}
