/**
  The same protocol in small steps: every critical section of the gate or of the
  registry's mutex, every backend call and every file-system call is one step,
  and any number of requests interleave. A crash may come after any step.

  The gate is a fair reader/writer lock: waiters are served in order. A directory
  maps names to inodes; `past` holds the directory states a crash may fall back
  to, back to the last successful directory sync; an inode not synced may hold
  anything after a crash. Assumed of the backend: it answers Ok to a save only
  once the scratch file is written, it does not write to it after answering, and
  no save outlives a crash.
 */
module Steps {
  import opened Options
  import opened Registry

  type TaskId = nat
  type Ino = nat
  type SaveId = nat

  // The four names of a session never meet, nor do those of two sessions:
  // `Names.FileNameInjective`.
  datatype Name = Blob(s: Session) | Scratch(s: Session) | Sidecar(s: Session) | ScratchSidecar(s: Session)

  datatype Content = Torn | Whole(save: SaveId)

  datatype Inode = Inode(content: Content, synced: bool)

  type Directory = map<Name, Ino>

  /** A save the backend completed: of which slot, asked for under which session. */
  datatype Save = Save(session: Session, slot: SlotId)

  datatype Disk = Disk(
    dir: Directory, past: set<Directory>, inodes: map<Ino, Inode>, nextIno: Ino,
    saves: map<SaveId, Save>, nextSave: SaveId)

  datatype Gate = Gate(writer: Option<TaskId>, readers: set<TaskId>, queue: seq<TaskId>)

  /** Where a request stands. */
  datatype Pc =
    // lookup, under the shared gate
    | WantRead | QueueRead | CheckBlob
    | HotLock | HotScan | AskSlots | FreeLock | FreeScan | LeaveRead
    // eviction
    | AskVictims | VictimLock | VictimScan
    // publishing, under the exclusive gate
    | WantWrite | QueueWrite | BeginSave | EndSave | OpenScratch | SyncFile
    | RenameBlob | RenameSidecar | SyncDir | Touch | CleanLock | Clean | LeaveWrite
    // steering and serving
    | Restore | MarkLock | Mark | Dispatch | Serve
    | ClaimLock | Claim | QuitLock | Quit
    // quota
    | ScanDir | Delete
    | Finished

  /**
    The publish a request is engaged in: for itself, or for the slot's owner.
    `save` is the save the backend completed for it.
   */
  datatype Job = Job(
    slot: SlotId, session: Session, ino: Ino, save: Option<SaveId>, evicting: bool, published: bool)

  datatype Task = Task(
    session: Session, pc: Pc, diskHit: bool, pick: Pick, steer: Option<SlotId>,
    report: seq<SlotState>, job: Job, plan: seq<Name>)

  datatype State = State(
    tasks: map<TaskId, Task>, gate: Gate, mutex: Option<TaskId>, slots: Slots, disk: Disk)

  datatype TurnEnd = Ended | Disconnected | Broken

  /** What the backend, the file system and the client answer at one step. */
  datatype Choice = Choice(
    ok: bool, joined: bool, order: seq<SlotId>, report: seq<SlotState>,
    sidecar: bool, turn: TurnEnd, plan: seq<Name>)

  /** `Drop`: the client is gone and the request's handler is dropped where it waits. */
  datatype Action =
    | Arrive(t: TaskId, session: Session)
    | Act(t: TaskId, choice: Choice)
    | Drop(t: TaskId)
    | Crash(dir: Directory, garbage: map<Ino, Content>)

  const NO_JOB := Job(0, "", 0, None, false, false)

  function NewTask(s: Session): Task {
    Task(s, WantRead, false, NoSlot, None, [], NO_JOB, [])
  }

  // -------------------------------------------------- who holds what, when

  predicate HoldsRead(pc: Pc) {
    pc.CheckBlob? || pc.HotLock? || pc.HotScan? || pc.AskSlots? || pc.FreeLock? || pc.FreeScan? ||
    pc.LeaveRead?
  }

  predicate HoldsWrite(pc: Pc) {
    pc.BeginSave? || pc.EndSave? || pc.OpenScratch? || pc.SyncFile? || pc.RenameBlob? ||
    pc.RenameSidecar? || pc.SyncDir? || pc.Touch? || pc.CleanLock? || pc.Clean? || pc.LeaveWrite?
  }

  predicate HoldsMutex(pc: Pc) {
    pc.HotScan? || pc.FreeScan? || pc.VictimScan? || pc.Mark? || pc.Clean? || pc.Claim? || pc.Quit?
  }

  predicate WantsMutex(pc: Pc) {
    pc.HotLock? || pc.FreeLock? || pc.VictimLock? || pc.MarkLock? || pc.CleanLock? ||
    pc.ClaimLock? || pc.QuitLock?
  }

  predicate Queued(pc: Pc) {
    pc.QueueRead? || pc.QueueWrite?
  }

  predicate Enabled(st: State, t: TaskId) {
    && t in st.tasks
    && var pc := st.tasks[t].pc;
       if pc == QueueRead then st.gate.queue != [] && st.gate.queue[0] == t && st.gate.writer == None
       else if pc == QueueWrite then
         st.gate.queue != [] && st.gate.queue[0] == t && st.gate.writer == None && st.gate.readers == {}
       else if WantsMutex(pc) then st.mutex == None
       else pc != Finished
  }

  // ------------------------------------------------------- effects of a step

  function GateAfter(g: Gate, t: TaskId, pc: Pc): Gate {
    match pc
    case WantRead => g.(queue := g.queue + [t])
    case WantWrite => g.(queue := g.queue + [t])
    case QueueRead => if g.queue == [] then g else g.(queue := g.queue[1..], readers := g.readers + {t})
    case QueueWrite => if g.queue == [] then g else g.(queue := g.queue[1..], writer := Some(t))
    case LeaveRead => g.(readers := g.readers - {t})
    case LeaveWrite => g.(writer := None)
    case _ => g
  }

  function MutexAfter(m: Option<TaskId>, t: TaskId, pc: Pc): Option<TaskId> {
    if WantsMutex(pc) then Some(t) else if HoldsMutex(pc) then None else m
  }

  function SlotsAfter(slots: Slots, k: Task): Slots {
    match k.pc
    case FreeScan => FirstFree(slots, k.report).0
    case VictimScan => FirstDirty(slots, k.report).0
    case Mark => (match k.steer case Some(id) => MarkDirty(slots, id, k.session) case None => slots)
    case Clean => MarkClean(slots, k.job.slot)
    case Claim => (match k.steer case Some(id) => SetSession(slots, id, k.session) case None => slots)
    case Quit => (match k.steer case Some(id) => Abandon(slots, id) case None => slots)
    case _ => slots
  }

  function Bind(d: Disk, dir: Directory): Disk {
    d.(dir := dir, past := d.past + {dir})
  }

  // The inode the backend writes the scratch file to: an existing scratch file
  // is overwritten in place.
  function ScratchIno(d: Disk, s: Session): Ino {
    if Scratch(s) in d.dir then d.dir[Scratch(s)] else d.nextIno
  }

  function BeginScratch(d: Disk, s: Session): Disk {
    var ino := ScratchIno(d, s);
    var d' := d.(inodes := d.inodes[ino := Inode(Torn, false)]);
    if Scratch(s) in d.dir then d'
    else Bind(d', d.dir[Scratch(s) := ino]).(nextIno := ino + 1)
  }

  function EndScratch(d: Disk, job: Job, sidecar: bool): Disk {
    var d1 := d.(inodes := d.inodes[job.ino := Inode(Whole(d.nextSave), false)],
                 saves := d.saves[d.nextSave := Save(job.session, job.slot)], nextSave := d.nextSave + 1);
    if sidecar then
      Bind(d1.(inodes := d1.inodes[d.nextIno := Inode(Torn, false)], nextIno := d.nextIno + 1),
           d1.dir[ScratchSidecar(job.session) := d.nextIno])
    else d1
  }

  function Rename(d: Disk, from: Name, to: Name): Disk
    requires from in d.dir
  {
    Bind(d, (d.dir - {from})[to := d.dir[from]])
  }

  function Sync(d: Disk, ino: Ino): Disk {
    if ino in d.inodes then d.(inodes := d.inodes[ino := d.inodes[ino].(synced := true)]) else d
  }

  function DiskAfter(d: Disk, k: Task, ch: Choice): Disk {
    var s := k.job.session;
    match k.pc
    case BeginSave => BeginScratch(d, s)
    case EndSave => if ch.ok then EndScratch(d, k.job, ch.sidecar) else d
    case SyncFile => if ch.ok then Sync(d, k.job.ino) else d
    case RenameBlob => if ch.ok && Scratch(s) in d.dir then Rename(d, Scratch(s), Blob(s)) else d
    case RenameSidecar =>
      if ch.ok && ScratchSidecar(s) in d.dir then Rename(d, ScratchSidecar(s), Sidecar(s)) else d
    case SyncDir => if ch.ok then d.(past := {d.dir}) else d
    case Delete => if ch.ok && k.plan != [] && k.plan[0] in d.dir then Bind(d, d.dir - {k.plan[0]}) else d
    case _ => d
  }

  // ------------------------------------------------------ the request itself

  function At(k: Task, pc: Pc): Task {
    k.(pc := pc)
  }

  function GiveUpSave(k: Task): Task {
    k.(pc := LeaveWrite, job := k.job.(published := false))
  }

  function StartJob(k: Task, id: SlotId, s: Session, evicting: bool): Task {
    k.(pc := WantWrite, job := Job(id, s, 0, None, evicting, false))
  }

  function SteerTo(k: Task, id: SlotId, restore: bool): Task {
    k.(steer := Some(id), pc := if restore then Restore else MarkLock)
  }

  predicate LookingUp(pc: Pc) {
    pc.WantRead? || pc.QueueRead? || HoldsRead(pc)
  }

  predicate Evicting(pc: Pc) {
    pc.AskVictims? || pc.VictimLock? || pc.VictimScan?
  }

  predicate Publishing(pc: Pc) {
    pc.WantWrite? || pc.QueueWrite? || HoldsWrite(pc)
  }

  function LookupNext(st: State, k: Task, ch: Choice): Task {
    match k.pc
    case WantRead => At(k, QueueRead)
    case QueueRead => At(k, CheckBlob)
    case CheckBlob => k.(diskHit := Blob(k.session) in st.disk.dir, pc := HotLock)
    case HotLock => At(k, HotScan)
    case HotScan =>
      (match HotSlot(st.slots, ch.order, k.session)
       case Some(id) => k.(pick := Hot(id), pc := LeaveRead)
       case None => At(k, AskSlots))
    case AskSlots => if ch.ok then k.(report := ch.report, pc := FreeLock) else k.(pick := NoSlot, pc := LeaveRead)
    case FreeLock => At(k, FreeScan)
    case FreeScan => k.(pick := FirstFree(st.slots, k.report).1, pc := LeaveRead)
    case LeaveRead =>
      (match k.pick
       case Hot(id) => SteerTo(k, id, false)
       case Free(id) => SteerTo(k, id, k.diskHit)
       case NoSlot => At(k, AskVictims))
    case _ => k
  }

  function EvictNext(st: State, k: Task, ch: Choice): Task {
    match k.pc
    case AskVictims => if ch.ok then k.(report := ch.report, pc := VictimLock) else At(k, Dispatch)
    case VictimLock => At(k, VictimScan)
    case VictimScan =>
      (match FirstDirty(st.slots, k.report).1
       case NoVictim => At(k, Dispatch)
       case Victim(id, Some(owner)) => StartJob(k, id, owner, true)
       case Victim(id, None) => SteerTo(k, id, k.diskHit))
    case _ => k
  }

  function PublishNext(d: Disk, k: Task, ch: Choice): Task {
    var s := k.job.session;
    match k.pc
    case WantWrite => At(k, QueueWrite)
    case QueueWrite => At(k, BeginSave)
    case BeginSave => k.(job := k.job.(ino := ScratchIno(d, s)), pc := EndSave)
    case EndSave =>
      if ch.ok then k.(job := k.job.(save := Some(d.nextSave)), pc := OpenScratch) else GiveUpSave(k)
    case OpenScratch =>
      if ch.ok && Scratch(s) in d.dir then k.(job := k.job.(ino := d.dir[Scratch(s)]), pc := SyncFile)
      else GiveUpSave(k)
    case SyncFile => if ch.ok then At(k, RenameBlob) else GiveUpSave(k)
    case RenameBlob => if ch.ok && Scratch(s) in d.dir then At(k, RenameSidecar) else GiveUpSave(k)
    case RenameSidecar => At(k, SyncDir)
    case SyncDir => if ch.joined then At(k, Touch) else GiveUpSave(k)
    case Touch => At(k, CleanLock)
    case CleanLock => At(k, Clean)
    case Clean => k.(job := k.job.(published := true), pc := LeaveWrite)
    case LeaveWrite =>
      if !k.job.evicting then At(k, ScanDir)
      else if k.job.published then SteerTo(k, k.job.slot, k.diskHit)
      else At(k, Dispatch)
    case _ => k
  }

  function TurnNext(k: Task, ch: Choice): Task {
    match k.pc
    case Restore => At(k, MarkLock)
    case MarkLock => At(k, Mark)
    case Mark => At(k, Dispatch)
    case Dispatch => At(k, if ch.ok then Serve else Finished)
    case Serve =>
      if k.steer == None || ch.turn == Broken then At(k, Finished)
      else if ch.turn == Ended then At(k, ClaimLock)
      else At(k, QuitLock)
    case ClaimLock => At(k, Claim)
    case Claim => (match k.steer case Some(id) => StartJob(k, id, k.session, false) case None => At(k, Finished))
    case QuitLock => At(k, Quit)
    case Quit => At(k, Finished)
    case ScanDir => k.(plan := ch.plan, pc := Delete)
    case Delete => if k.plan == [] then At(k, Finished) else k.(plan := k.plan[1..])
    case _ => k
  }

  function TaskAfter(st: State, k: Task, ch: Choice): Task {
    if LookingUp(k.pc) then LookupNext(st, k, ch)
    else if Evicting(k.pc) then EvictNext(st, k, ch)
    else if Publishing(k.pc) then PublishNext(st.disk, k, ch)
    else TurnNext(k, ch)
  }

  function Step(st: State, t: TaskId, ch: Choice): State
    requires t in st.tasks
  {
    var k := st.tasks[t];
    State(st.tasks[t := TaskAfter(st, k, ch)],
          GateAfter(st.gate, t, k.pc),
          MutexAfter(st.mutex, t, k.pc),
          SlotsAfter(st.slots, k),
          DiskAfter(st.disk, k, ch))
  }

  function CrashDisk(d: Disk, dir: Directory, garbage: map<Ino, Content>): Disk {
    d.(dir := dir, past := {dir},
       inodes := map i | i in d.inodes ::
         if d.inodes[i].synced then d.inodes[i]
         else Inode(if i in garbage then garbage[i] else Torn, false))
  }

  // A handler waits in its admission, outside the exclusive gate. A critical
  // section of the mutex has no point at which a handler could be dropped.
  predicate Droppable(k: Task) {
    && !HoldsMutex(k.pc) && !HoldsWrite(k.pc)
    && (LookingUp(k.pc) || Evicting(k.pc) || (Publishing(k.pc) && k.job.evicting)
        || k.pc.Restore? || k.pc.MarkLock? || k.pc.Dispatch?)
  }

  function Removed(q: seq<TaskId>, t: TaskId): seq<TaskId> {
    if q == [] then []
    else if q[0] == t then Removed(q[1..], t)
    else [q[0]] + Removed(q[1..], t)
  }

  // What a dropped handler held or awaited is given up.
  function Dropped(st: State, t: TaskId): State
    requires t in st.tasks
  {
    st.(tasks := st.tasks[t := At(st.tasks[t], Finished)],
        gate := st.gate.(readers := st.gate.readers - {t}, queue := Removed(st.gate.queue, t)))
  }

  ghost predicate Possible(st: State, a: Action) {
    match a
    case Arrive(t, _) => t !in st.tasks
    case Act(t, _) => Enabled(st, t)
    case Drop(t) => t in st.tasks && Droppable(st.tasks[t])
    case Crash(dir, _) => dir in st.disk.past
  }

  function Do(st: State, a: Action): State
    requires Possible(st, a)
  {
    match a
    case Arrive(t, s) => st.(tasks := st.tasks[t := NewTask(s)])
    case Act(t, ch) => Step(st, t, ch)
    case Drop(t) => Dropped(st, t)
    case Crash(dir, garbage) =>
      State(map[], Gate(None, {}, []), None, map[], CrashDisk(st.disk, dir, garbage))
  }

  const INIT := State(map[], Gate(None, {}, []), None, map[], Disk(map[], {map[]}, map[], 0, map[], 0))

  ghost predicate IsRun(st: State, acts: seq<Action>)
    decreases |acts|
  {
    acts == [] || (Possible(st, acts[0]) && IsRun(Do(st, acts[0]), acts[1..]))
  }

  ghost function Run(st: State, acts: seq<Action>): State
    requires IsRun(st, acts)
    decreases |acts|
  {
    if acts == [] then st else Run(Do(st, acts[0]), acts[1..])
  }
}
