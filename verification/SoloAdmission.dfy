/**
  The two grains agree, first half: whatever the environment answers, there is a way
  for a request to run its small steps undisturbed and to end its admission with
  the registry, the slot and the set of visible blobs that `Registry.Admit`
  computes in one step, and its turn with those of `Registry.FinishTurn` or
  `Registry.AbandonTurn`. `SoloRequest` has the other half: there is no other way.
 */
module SoloAdmission {
  import opened Options
  import opened Registry
  import opened Steps

  // Only steps of request `t`, leading from `st` to `end`.
  ghost predicate Path(st: State, t: TaskId, acts: seq<Action>, end: State) {
    && IsRun(st, acts) && Run(st, acts) == end
    && forall a | a in acts :: a.Act? && a.t == t
  }

  lemma {:induction false} RunThen(st: State, a: seq<Action>, b: seq<Action>)
    requires IsRun(st, a) && IsRun(Run(st, a), b)
    ensures IsRun(st, a + b) && Run(st, a + b) == Run(Run(st, a), b)
    decreases |a|
  {
    hide Do, Possible;
    if a == [] {
      assert a + b == b;
    } else {
      assert (a + b)[1..] == a[1..] + b;
      RunThen(Do(st, a[0]), a[1..], b);
    }
  }

  // No step that carries a report of the slots.
  predicate Mute(acts: seq<Action>) {
    forall a | a in acts :: a.Act? ==> a.choice.report == []
  }

  lemma PathNone(st: State, t: TaskId)
    ensures Path(st, t, [], st)
  {
  }

  lemma PathOne(st: State, t: TaskId, ch: Choice)
    requires Enabled(st, t)
    ensures Path(st, t, [Act(t, ch)], Step(st, t, ch))
  {
    assert [Act(t, ch)][1..] == [];
    assert Do(st, Act(t, ch)) == Step(st, t, ch);
    assert Run(st, [Act(t, ch)]) == Run(Step(st, t, ch), []);
  }

  lemma PathThen(st: State, t: TaskId, a: seq<Action>, mid: State, b: seq<Action>, end: State)
    requires Path(st, t, a, mid) && Path(mid, t, b, end)
    ensures Path(st, t, a + b, end)
  {
    RunThen(st, a, b);
  }

  lemma MuteThen(a: seq<Action>, b: seq<Action>)
    ensures Mute(a) && Mute(b) ==> Mute(a + b)
  {
  }

  // One more step at the end of a path, to the state it is said to reach.
  lemma Extend(st: State, t: TaskId, acts: seq<Action>, mid: State, ch: Choice, end: State) returns (acts': seq<Action>)
    requires Path(st, t, acts, mid) && Enabled(mid, t) && Step(mid, t, ch) == end
    ensures Path(st, t, acts', end)
    ensures Mute(acts) && ch.report == [] ==> Mute(acts')
  {
    PathOne(mid, t, ch);
    PathThen(st, t, acts, mid, [Act(t, ch)], end);
    acts' := acts + [Act(t, ch)];
  }

  // The state in which `t` stands at `k`, everything else as given.
  function Place(st: State, t: TaskId, k: Task, g: Gate, m: Option<TaskId>, slots: Slots, d: Disk): State {
    State(st.tasks[t := k], g, m, slots, d)
  }

  lemma Placed(st: State, t: TaskId, k: Task, g: Gate, m: Option<TaskId>, slots: Slots, d: Disk)
    ensures var at := Place(st, t, k, g, m, slots, d);
            && t in at.tasks && at.tasks[t] == k
            && at.gate == g && at.mutex == m && at.slots == slots && at.disk == d
  {
  }

  lemma StepPlace(st: State, t: TaskId, k: Task, g: Gate, m: Option<TaskId>, slots: Slots, d: Disk, ch: Choice)
    ensures var at := Place(st, t, k, g, m, slots, d);
            Step(at, t, ch) == Place(st, t, TaskAfter(at, k, ch), GateAfter(g, t, k.pc), MutexAfter(m, t, k.pc),
                                     SlotsAfter(slots, k), DiskAfter(d, k, ch))
  {
    var at := Place(st, t, k, g, m, slots, d);
    assert st.tasks[t := k][t := TaskAfter(at, k, ch)] == st.tasks[t := TaskAfter(at, k, ch)];
  }

  // What the step of a request reads of the state, besides the request itself.
  function View(slots: Slots, d: Disk): State {
    State(map[], FREE, None, slots, d)
  }

  predicate Ready(t: TaskId, pc: Pc, g: Gate, m: Option<TaskId>) {
    if pc == QueueRead || pc == QueueWrite then g == Gate(None, {}, [t])
    else if WantsMutex(pc) then m == None
    else pc != Finished
  }

  // One more step of `t`.
  lemma Advance(st: State, t: TaskId, acts: seq<Action>, k: Task, g: Gate, m: Option<TaskId>, sl: Slots, d: Disk,
                ch: Choice)
      returns (acts': seq<Action>)
    requires Path(st, t, acts, Place(st, t, k, g, m, sl, d)) && Ready(t, k.pc, g, m)
    ensures Path(st, t, acts', Place(st, t, TaskAfter(View(sl, d), k, ch), GateAfter(g, t, k.pc),
                                     MutexAfter(m, t, k.pc), SlotsAfter(sl, k), DiskAfter(d, k, ch)))
    ensures Mute(acts) && ch.report == [] ==> Mute(acts')
  {
    hide Path, Mute, GateAfter, MutexAfter, SlotsAfter, DiskAfter;
    StepPlace(st, t, k, g, m, sl, d, ch);
    var at := Place(st, t, k, g, m, sl, d);
    assert TaskAfter(at, k, ch) == TaskAfter(View(sl, d), k, ch);
    acts' := Extend(st, t, acts, at, ch, Step(at, t, ch));
  }

  // One more step of a turn, which neither the gate nor the disk sees.
  lemma AdvanceTurn(st: State, t: TaskId, acts: seq<Action>, k: Task, m: Option<TaskId>, sl: Slots, d: Disk, ch: Choice)
      returns (acts': seq<Action>)
    requires Path(st, t, acts, Place(st, t, k, FREE, m, sl, d)) && Ready(t, k.pc, FREE, m)
    requires !LookingUp(k.pc) && !Evicting(k.pc) && !Publishing(k.pc) && !k.pc.Delete?
    ensures Path(st, t, acts', Place(st, t, TurnNext(k, ch), FREE, MutexAfter(m, t, k.pc), SlotsAfter(sl, k), d))
    ensures Mute(acts) && ch.report == [] ==> Mute(acts')
  {
    hide Path, Mute, Place, Step, TurnNext, MutexAfter, SlotsAfter;
    acts' := Advance(st, t, acts, k, FREE, m, sl, d, ch);
  }

  lemma Stands(st: State, t: TaskId, k: Task)
    requires t in st.tasks && st.tasks[t] == k
    ensures Path(st, t, [], Place(st, t, k, st.gate, st.mutex, st.slots, st.disk))
    ensures Mute([])
  {
    assert st.tasks[t := k] == st.tasks;
    PathNone(st, t);
  }

  predicate Saving(pc: Pc) {
    pc.BeginSave? || pc.EndSave? || pc.OpenScratch? || pc.SyncFile? || pc.RenameBlob? || pc.RenameSidecar? ||
    pc.SyncDir? || pc.Touch?
  }

  const FREE := Gate(None, {}, [])
  const NO_CHOICE := Choice(true, true, [], [], false, Ended, [])

  function ReadHeld(t: TaskId): Gate {
    Gate(None, {t}, [])
  }

  function WriteHeld(t: TaskId): Gate {
    Gate(Some(t), {}, [])
  }

  lemma GateCycle(t: TaskId)
    ensures GateAfter(GateAfter(FREE, t, WantRead), t, QueueRead) == ReadHeld(t)
    ensures GateAfter(ReadHeld(t), t, LeaveRead) == FREE
    ensures GateAfter(GateAfter(FREE, t, WantWrite), t, QueueWrite) == WriteHeld(t)
    ensures GateAfter(WriteHeld(t), t, LeaveWrite) == FREE
  {
    assert [] + [t] == [t] && [t][1..] == [];
    assert {} + {t} == {t} && {t} - {t} == {};
  }

  // ------------------------------------------------------------- the lookup

  function Fresh(s: Session, hit: bool, pc: Pc): Task {
    NewTask(s).(diskHit := hit, pc := pc)
  }

  lemma Enters(st: State, t: TaskId, s: Session) returns (acts: seq<Action>)
    requires t in st.tasks && st.tasks[t] == NewTask(s) && st.gate == FREE && st.mutex == None
    ensures Path(st, t, acts,
                 Place(st, t, Fresh(s, Blob(s) in st.disk.dir, HotLock), ReadHeld(t), None, st.slots, st.disk))
    ensures Mute(acts)
  {
    hide Path, Mute, Place, Step, EvictNext, PublishNext, TurnNext;
    var ch, k, sl, d := NO_CHOICE, NewTask(s), st.slots, st.disk;
    var queued := GateAfter(FREE, t, WantRead);
    GateCycle(t);
    Stands(st, t, k);
    acts := Advance(st, t, [], k, FREE, None, sl, d, ch);
    assert queued.queue == [t];
    acts := Advance(st, t, acts, k.(pc := QueueRead), queued, None, sl, d, ch);
    acts := Advance(st, t, acts, k.(pc := CheckBlob), ReadHeld(t), None, sl, d, ch);
  }

  // Up to the release of the gate: the pick, and the registry it leaves.
  function Looked(s: Session, hit: bool, pick: Pick, report: seq<SlotState>): Task {
    Fresh(s, hit, LeaveRead).(pick := pick, report := report)
  }

  function ReportOf(r: Option<seq<SlotState>>): seq<SlotState> {
    match r
    case Some(report) => report
    case None => []
  }

  lemma LooksHot(st: State, t: TaskId, s: Session, hit: bool, order: seq<SlotId>) returns (acts: seq<Action>)
    requires t in st.tasks && st.tasks[t] == Fresh(s, hit, HotLock) && st.gate == ReadHeld(t) && st.mutex == None
    ensures Path(st, t, acts,
                 Place(st, t,
                       match HotSlot(st.slots, order, s)
                       case Some(id) => Looked(s, hit, Hot(id), [])
                       case None => Fresh(s, hit, AskSlots),
                       ReadHeld(t), None, st.slots, st.disk))
    ensures Mute(acts)
  {
    hide Path, Mute, Place, Step, EvictNext, PublishNext, TurnNext;
    var ch, g, sl, d := NO_CHOICE.(order := order), ReadHeld(t), st.slots, st.disk;
    Stands(st, t, Fresh(s, hit, HotLock));
    acts := Advance(st, t, [], Fresh(s, hit, HotLock), g, None, sl, d, ch);
    acts := Advance(st, t, acts, Fresh(s, hit, HotScan), g, Some(t), sl, d, ch);
  }

  lemma LooksFree(st: State, t: TaskId, s: Session, hit: bool, r: Option<seq<SlotState>>) returns (acts: seq<Action>)
    requires t in st.tasks && st.tasks[t] == Fresh(s, hit, AskSlots) && st.gate == ReadHeld(t) && st.mutex == None
    ensures r == None ==>
              Path(st, t, acts, Place(st, t, Looked(s, hit, NoSlot, []), ReadHeld(t), None, st.slots, st.disk))
    ensures r.Some? ==>
              Path(st, t, acts, Place(st, t, Looked(s, hit, FirstFree(st.slots, r.value).1, r.value), ReadHeld(t), None,
                                      FirstFree(st.slots, r.value).0, st.disk))
  {
    hide Path, Place, Step, EvictNext, PublishNext, TurnNext, FirstFree;
    var ch, g, sl, d := NO_CHOICE.(ok := r.Some?, report := ReportOf(r)), ReadHeld(t), st.slots, st.disk;
    var k := Fresh(s, hit, AskSlots);
    Stands(st, t, k);
    acts := Advance(st, t, [], k, g, None, sl, d, ch);
    if r.Some? {
      var asked := k.(report := r.value, pc := FreeLock);
      acts := Advance(st, t, acts, asked, g, None, sl, d, ch);
      acts := Advance(st, t, acts, asked.(pc := FreeScan), g, Some(t), sl, d, ch);
    }
  }

  function AfterLookup(k: Task): Task {
    match k.pick
    case Hot(id) => SteerTo(k, id, false)
    case Free(id) => SteerTo(k, id, k.diskHit)
    case NoSlot => At(k, AskVictims)
  }

  /** The whole lookup, under the gate. */
  lemma LooksUp(st: State, t: TaskId, s: Session, e: Env) returns (acts: seq<Action>, k: Task)
    requires t in st.tasks && st.tasks[t] == NewTask(s) && st.gate == FREE && st.mutex == None
    ensures Path(st, t, acts, Place(st, t, AfterLookup(k), FREE, None, PickSlot(st.slots, s, e).0, st.disk))
    ensures k.session == s && k.diskHit == (Blob(s) in st.disk.dir) && k.pick == PickSlot(st.slots, s, e).1
    ensures k.steer == None && k.job == NO_JOB
    ensures HotSlot(st.slots, e.order, s).Some? ==> Mute(acts)
  {
    hide Path, Mute, HotSlot, FirstFree, LookupNext, EvictNext, PublishNext, TurnNext;
    var hit, d := Blob(s) in st.disk.dir, st.disk;
    acts := Enters(st, t, s);
    var s1 := Place(st, t, Fresh(s, hit, HotLock), ReadHeld(t), None, st.slots, d);
    var more := LooksHot(s1, t, s, hit, e.order);
    var hot := HotSlot(st.slots, e.order, s);
    k := if hot.Some? then Looked(s, hit, Hot(hot.value), []) else Fresh(s, hit, AskSlots);
    var s2 := Place(st, t, k, ReadHeld(t), None, st.slots, d);
    assert s1.tasks[t := k] == s2.tasks;
    PathThen(st, t, acts, s1, more, s2);
    MuteThen(acts, more);
    acts := acts + more;
    if hot == None {
      more := LooksFree(s2, t, s, hit, e.firstReport);
      var k' := Looked(s, hit, PickSlot(st.slots, s, e).1, ReportOf(e.firstReport));
      var s3 := Place(st, t, k', ReadHeld(t), None, PickSlot(st.slots, s, e).0, d);
      assert s2.tasks[t := k'] == s3.tasks;
      PathThen(st, t, acts, s2, more, s3);
      acts, k, s2 := acts + more, k', s3;
    }
    acts := Leaves(st, t, k, PickSlot(st.slots, s, e).0, d, acts);
  }

  lemma Leaves(st: State, t: TaskId, k: Task, sl: Slots, d: Disk, acts: seq<Action>) returns (acts': seq<Action>)
    requires k.pc == LeaveRead && Path(st, t, acts, Place(st, t, k, ReadHeld(t), None, sl, d))
    ensures Path(st, t, acts', Place(st, t, AfterLookup(k), FREE, None, sl, d))
    ensures Mute(acts) ==> Mute(acts')
  {
    hide Path, Mute, Place, Step, EvictNext, PublishNext, TurnNext;
    GateCycle(t);
    acts' := Advance(st, t, acts, k, ReadHeld(t), None, sl, d, NO_CHOICE);
  }

  // ------------------------------------------------------------ the eviction

  function AfterScan(k: Task, v: Victim): Task {
    match v
    case NoVictim => At(k, Dispatch)
    case Victim(id, Some(owner)) => StartJob(k, id, owner, true)
    case Victim(id, None) => SteerTo(k, id, k.diskHit)
  }

  lemma FindsVictim(st: State, t: TaskId, k: Task, e: Env) returns (acts: seq<Action>, k': Task)
    requires t in st.tasks && st.tasks[t] == k && k.pc == AskVictims && st.gate == FREE && st.mutex == None
    ensures Path(st, t, acts, Place(st, t, AfterScan(k', FindEvictable(st.slots, e).1), FREE, None,
                                    FindEvictable(st.slots, e).0, st.disk))
    ensures k'.session == k.session && k'.diskHit == k.diskHit && k'.steer == k.steer && k'.pick == k.pick
  {
    hide Path, Place, Step, LookupNext, PublishNext, TurnNext, FirstDirty;
    var r, sl, d := e.secondReport, st.slots, st.disk;
    var ch := NO_CHOICE.(ok := r.Some?, report := ReportOf(r));
    Stands(st, t, k);
    acts := Advance(st, t, [], k, FREE, None, sl, d, ch);
    k' := k;
    if r.Some? {
      k' := k.(report := r.value, pc := VictimScan);
      acts := Advance(st, t, acts, k'.(pc := VictimLock), FREE, None, sl, d, ch);
      acts := Advance(st, t, acts, k', FREE, Some(t), sl, d, ch);
    }
  }

  // ----------------------------------------------------------- the publish

  function SaveOf(job: Job): Save {
    Save(job.session, job.slot)
  }

  // The blobs visible in `d'` are those of `d`, and that of the save if it was
  // shown; whatever was saved on the way is that save.
  ghost predicate Shows(d: Disk, d': Disk, save: Save, shown: bool) {
    && (forall x :: Blob(x) in d'.dir <==> Blob(x) in d.dir || (shown && x == save.session))
    && (forall v | v in d'.saves :: (v in d.saves && d'.saves[v] == d.saves[v]) || d'.saves[v] == save)
  }

  lemma ShowsThen(d: Disk, d1: Disk, d2: Disk, s: Save, a: bool, b: bool)
    requires Shows(d, d1, s, a) && Shows(d1, d2, s, b)
    ensures Shows(d, d2, s, a || b)
  {
  }

  // What a step of a publish does to the names: only a renamed blob appears, and
  // a scratch file begun stays until it is renamed.
  lemma SaveMoves(d: Disk, k: Task, ch: Choice)
    requires Saving(k.pc)
    ensures var s := k.job.session; var d' := DiskAfter(d, k, ch);
            && Shows(d, d', SaveOf(k.job), k.pc.RenameBlob? && ch.ok && Scratch(s) in d.dir)
            && ((k.pc.BeginSave? || (Scratch(s) in d.dir && !k.pc.RenameBlob?)) ==> Scratch(s) in d'.dir)
            && ((k.pc.EndSave? && ch.ok && ch.sidecar) || (ScratchSidecar(s) in d.dir && !k.pc.RenameSidecar?) ==>
                  ScratchSidecar(s) in d'.dir)
  {
  }

  lemma Queues(st: State, t: TaskId, k: Task) returns (acts: seq<Action>)
    requires t in st.tasks && st.tasks[t] == k && k.pc == WantWrite && st.gate == FREE && st.mutex == None
    ensures Path(st, t, acts, Place(st, t, At(k, BeginSave), WriteHeld(t), None, st.slots, st.disk))
  {
    hide Path, Place, Step, LookupNext, EvictNext, TurnNext;
    var ch, sl, d := NO_CHOICE, st.slots, st.disk;
    var queued := GateAfter(FREE, t, WantWrite);
    GateCycle(t);
    Stands(st, t, k);
    acts := Advance(st, t, [], k, FREE, None, sl, d, ch);
    assert queued.queue == [t];
    acts := Advance(st, t, acts, At(k, QueueWrite), queued, None, sl, d, ch);
  }

  // One step of a publish: only the request and the disk move.
  lemma SaveStep(st: State, t: TaskId, acts: seq<Action>, k: Task, sl: Slots, d: Disk, ch: Choice)
      returns (acts': seq<Action>, k': Task, d': Disk)
    requires Saving(k.pc) && Path(st, t, acts, Place(st, t, k, WriteHeld(t), None, sl, d))
    ensures k' == PublishNext(d, k, ch) && Path(st, t, acts', Place(st, t, k', WriteHeld(t), None, sl, d'))
    ensures Shows(d, d', SaveOf(k.job), k.pc.RenameBlob? && ch.ok && Scratch(k.job.session) in d.dir)
    ensures (k.pc.BeginSave? || (Scratch(k.job.session) in d.dir && !k.pc.RenameBlob?)) ==>
              Scratch(k.job.session) in d'.dir
    ensures (k.pc.EndSave? && ch.ok && ch.sidecar)
            || (ScratchSidecar(k.job.session) in d.dir && !k.pc.RenameSidecar?) ==>
              ScratchSidecar(k.job.session) in d'.dir
  {
    hide Path, Place, Step, LookupNext, EvictNext, TurnNext, PublishNext, DiskAfter, Shows;
    SaveMoves(d, k, ch);
    k', d' := PublishNext(d, k, ch), DiskAfter(d, k, ch);
    acts' := Advance(st, t, acts, k, WriteHeld(t), None, sl, d, ch);
  }

  // A request engaged in the same publish, wherever it stands in it.
  predicate SameJob(k: Task, k': Task) {
    k' == k.(pc := k'.pc, job := k.job.(ino := k'.job.ino, save := k'.job.save, published := k'.job.published))
  }

  // The failed save: the scratch file is begun and given up.
  lemma SavesBadly(st: State, t: TaskId, acts: seq<Action>, k: Task, sl: Slots, d: Disk)
      returns (acts': seq<Action>, k': Task, d': Disk)
    requires k.pc == BeginSave && Path(st, t, acts, Place(st, t, k, WriteHeld(t), None, sl, d))
    ensures Path(st, t, acts', Place(st, t, k', WriteHeld(t), None, sl, d'))
    ensures k'.pc == LeaveWrite && !k'.job.published && SameJob(k, k') && Shows(d, d', SaveOf(k.job), false)
  {
    hide Path, Place, Shows;
    var d1;
    acts', k', d1 := SaveStep(st, t, acts, k, sl, d, NO_CHOICE);
    acts', k', d' := SaveStep(st, t, acts', k', sl, d1, NO_CHOICE.(ok := false));
    ShowsThen(d, d1, d', SaveOf(k.job), false, false);
  }

  // Saved, under the scratch name still.
  lemma Saves(st: State, t: TaskId, acts: seq<Action>, k: Task, sl: Slots, d: Disk, sidecar: bool)
      returns (acts': seq<Action>, k': Task, d': Disk)
    requires k.pc == BeginSave && Path(st, t, acts, Place(st, t, k, WriteHeld(t), None, sl, d))
    ensures Path(st, t, acts', Place(st, t, k', WriteHeld(t), None, sl, d'))
    ensures k'.pc == OpenScratch && SameJob(k, k') && Shows(d, d', SaveOf(k.job), false)
    ensures Scratch(k.job.session) in d'.dir
    ensures sidecar ==> ScratchSidecar(k.job.session) in d'.dir
  {
    hide Path, Place, Shows;
    var d1;
    acts', k', d1 := SaveStep(st, t, acts, k, sl, d, NO_CHOICE);
    acts', k', d' := SaveStep(st, t, acts', k', sl, d1, NO_CHOICE.(sidecar := sidecar));
    ShowsThen(d, d1, d', SaveOf(k.job), false, false);
  }

  lemma Syncs(st: State, t: TaskId, acts: seq<Action>, k: Task, sl: Slots, d: Disk)
      returns (acts': seq<Action>, k': Task, d': Disk)
    requires k.pc == OpenScratch && Path(st, t, acts, Place(st, t, k, WriteHeld(t), None, sl, d))
    requires Scratch(k.job.session) in d.dir
    ensures Path(st, t, acts', Place(st, t, k', WriteHeld(t), None, sl, d'))
    ensures k'.pc == RenameBlob && SameJob(k, k') && Shows(d, d', SaveOf(k.job), false)
    ensures Scratch(k.job.session) in d'.dir
  {
    hide Path, Place, Shows;
    var d1;
    acts', k', d1 := SaveStep(st, t, acts, k, sl, d, NO_CHOICE);
    acts', k', d' := SaveStep(st, t, acts', k', sl, d1, NO_CHOICE);
    ShowsThen(d, d1, d', SaveOf(k.job), false, false);
  }

  // Renamed, sidecar and all; then the task that syncs the directory reports or not.
  lemma Renames(st: State, t: TaskId, acts: seq<Action>, k: Task, sl: Slots, d: Disk, joined: bool)
      returns (acts': seq<Action>, k': Task, d': Disk)
    requires k.pc == RenameBlob && Scratch(k.job.session) in d.dir
    requires Path(st, t, acts, Place(st, t, k, WriteHeld(t), None, sl, d))
    ensures Path(st, t, acts', Place(st, t, k', WriteHeld(t), None, sl, d'))
    ensures SameJob(k, k') && Shows(d, d', SaveOf(k.job), true)
    ensures if joined then k'.pc == Touch else k'.pc == LeaveWrite && !k'.job.published
  {
    hide Path, Place, Shows;
    var d1, d2;
    acts', k', d1 := SaveStep(st, t, acts, k, sl, d, NO_CHOICE);
    acts', k', d2 := SaveStep(st, t, acts', k', sl, d1, NO_CHOICE);
    ShowsThen(d, d1, d2, SaveOf(k.job), true, false);
    acts', k', d' := SaveStep(st, t, acts', k', sl, d2, NO_CHOICE.(joined := joined));
    ShowsThen(d, d2, d', SaveOf(k.job), true, false);
  }

  // The registry marked clean, still under the gate.
  lemma Cleans(st: State, t: TaskId, acts: seq<Action>, k: Task, sl: Slots, d: Disk)
      returns (acts': seq<Action>)
    requires k.pc == Touch && Path(st, t, acts, Place(st, t, k, WriteHeld(t), None, sl, d))
    ensures Path(st, t, acts', Place(st, t, k.(pc := LeaveWrite, job := k.job.(published := true)),
                                     WriteHeld(t), None, MarkClean(sl, k.job.slot), d))
  {
    hide Path, Place, Step, LookupNext, EvictNext, TurnNext;
    var ch, g := NO_CHOICE, WriteHeld(t);
    acts' := Advance(st, t, acts, k, g, None, sl, d, ch);
    acts' := Advance(st, t, acts', At(k, CleanLock), g, None, sl, d, ch);
    acts' := Advance(st, t, acts', At(k, Clean), g, Some(t), sl, d, ch);
  }

  // An eviction goes on to steer, or to forward; a turn's end to the quota.
  function AfterPublish(k: Task, published: bool): Task {
    if !k.job.evicting then At(k, ScanDir)
    else if published then SteerTo(k, k.job.slot, k.diskHit)
    else At(k, Dispatch)
  }

  /** A whole publish ends as `SaveSlot` says, then the gate is left. */
  lemma Publishes(st: State, t: TaskId, k: Task, outcome: SaveOutcome)
      returns (acts: seq<Action>, k': Task, d': Disk)
    requires t in st.tasks && st.tasks[t] == k && k.pc == WantWrite
    requires st.gate == FREE && st.mutex == None
    ensures var sl := if outcome.Published? then MarkClean(st.slots, k.job.slot) else st.slots;
            Path(st, t, acts, Place(st, t, k', FREE, None, sl, d'))
    ensures Shows(st.disk, d', SaveOf(k.job), !outcome.SaveFailed?)
    ensures k' == AfterPublish(k, outcome.Published?).(job := k'.job)
  {
    hide Path, Place, Step, Shows, PublishNext;
    acts := Queues(st, t, k);
    var k0, sl := At(k, BeginSave), st.slots;
    if outcome.SaveFailed? {
      acts, k', d' := SavesBadly(st, t, acts, k0, sl, st.disk);
    } else {
      acts, k', d' := Saves(st, t, acts, k0, sl, st.disk, true);
      var d1 := d';
      acts, k', d' := Syncs(st, t, acts, k', sl, d1);
      ShowsThen(st.disk, d1, d', SaveOf(k.job), false, false);
      var d2 := d';
      acts, k', d' := Renames(st, t, acts, k', sl, d2, outcome.Published?);
      ShowsThen(st.disk, d2, d', SaveOf(k.job), false, true);
      if outcome.Published? {
        acts := Cleans(st, t, acts, k', sl, d');
        k', sl := k'.(pc := LeaveWrite, job := k'.job.(published := true)), MarkClean(sl, k'.job.slot);
      }
    }
    acts, k' := LeavesWrite(st, t, acts, k', sl, d');
  }

  lemma LeavesWrite(st: State, t: TaskId, acts: seq<Action>, k: Task, sl: Slots, d: Disk)
      returns (acts': seq<Action>, k': Task)
    requires k.pc == LeaveWrite && Path(st, t, acts, Place(st, t, k, WriteHeld(t), None, sl, d))
    ensures k' == AfterPublish(k, k.job.published)
    ensures Path(st, t, acts', Place(st, t, k', FREE, None, sl, d))
  {
    hide Path, Place, Step, LookupNext, EvictNext, TurnNext;
    GateCycle(t);
    k' := PublishNext(d, k, NO_CHOICE);
    acts' := Advance(st, t, acts, k, WriteHeld(t), None, sl, d, NO_CHOICE);
  }

  // --------------------------------------------------- restore, mark, dispatch

  lemma Marks(st: State, t: TaskId, k: Task, id: SlotId, restore: bool) returns (acts: seq<Action>)
    requires t in st.tasks && st.gate == FREE && st.mutex == None
    requires st.tasks[t] == SteerTo(k, id, restore)
    ensures Path(st, t, acts, Place(st, t, k.(steer := Some(id), pc := Dispatch), FREE, None,
                                    MarkDirty(st.slots, id, k.session), st.disk))
    ensures Mute(acts)
  {
    hide Path, Mute, Place, MarkDirty;
    Stands(st, t, SteerTo(k, id, restore));
    acts := [];
    if restore {
      acts := AdvanceTurn(st, t, acts, SteerTo(k, id, true), None, st.slots, st.disk, NO_CHOICE);
    }
    acts := MarksNow(st, t, acts, k, id);
  }

  lemma MarksNow(st: State, t: TaskId, acts: seq<Action>, k: Task, id: SlotId) returns (acts': seq<Action>)
    requires Path(st, t, acts, Place(st, t, SteerTo(k, id, false), FREE, None, st.slots, st.disk))
    ensures Path(st, t, acts', Place(st, t, k.(steer := Some(id), pc := Dispatch), FREE, None,
                                     MarkDirty(st.slots, id, k.session), st.disk))
    ensures Mute(acts) ==> Mute(acts')
  {
    hide Path, Mute, Place, MarkDirty;
    var k1 := SteerTo(k, id, false);
    acts' := AdvanceTurn(st, t, acts, k1, None, st.slots, st.disk, NO_CHOICE);
    acts' := AdvanceTurn(st, t, acts', At(k1, Mark), Some(t), st.slots, st.disk, NO_CHOICE);
  }

  /** A session with a slot of its own: no report is asked for, the disk is left alone. */
  lemma AdmitHot(st: State, t: TaskId, s: Session, order: seq<SlotId>, id: SlotId) returns (acts: seq<Action>, k: Task)
    requires t in st.tasks && st.tasks[t] == NewTask(s) && st.gate == FREE && st.mutex == None
    requires HotSlot(st.slots, order, s) == Some(id)
    ensures Path(st, t, acts, Place(st, t, k, FREE, None, MarkDirty(st.slots, id, s), st.disk)) && Mute(acts)
    ensures k.session == s && k.pc == Dispatch && k.steer == Some(id)
  {
    hide Path, Mute, HotSlot, MarkDirty;
    var e := Env(order, None, None, SaveFailed, true);
    acts, k := LooksUp(st, t, s, e);
    var mid := Place(st, t, AfterLookup(k), FREE, None, st.slots, st.disk);
    Placed(st, t, AfterLookup(k), FREE, None, st.slots, st.disk);
    var more := Marks(mid, t, k, id, false);
    MuteThen(acts, more);
    var end := Place(st, t, k.(steer := Some(id), pc := Dispatch), FREE, None, MarkDirty(st.slots, id, s), st.disk);
    PlaceAgain(st, t, AfterLookup(k), k.(steer := Some(id), pc := Dispatch), st.slots, MarkDirty(st.slots, id, s),
               st.disk);
    PathThen(st, t, acts, mid, more, end);
    acts, k := acts + more, k.(steer := Some(id), pc := Dispatch);
  }

  lemma PlaceAgain(st: State, t: TaskId, k: Task, k': Task, sl: Slots, sl': Slots, d: Disk)
    ensures Place(Place(st, t, k, FREE, None, sl, d), t, k', FREE, None, sl', d) == Place(st, t, k', FREE, None, sl', d)
  {
    assert st.tasks[t := k][t := k'] == st.tasks[t := k'];
  }

  // ------------------------------------------------------------ the theorem

  // The registry and the visible blobs of `st` are those of `c`.
  ghost predicate Agrees(st: State, c: Core) {
    && st.slots == c.slots
    && forall x :: Blob(x) in st.disk.dir <==> x in c.disk
  }

  predicate Quiet(st: State) {
    st.gate == FREE && st.mutex == None
  }

  function SteerOf(a: Admission): Option<SlotId> {
    match a
    case Steered(id, _, _) => Some(id)
    case Forwarded => None
  }

  /** Where the small steps arrive: at the dispatch, with what `Admit` computes. */
  ghost predicate Admitted(end: State, t: TaskId, admitted: (Core, Admission)) {
    && t in end.tasks && end.tasks[t].pc == Dispatch && end.tasks[t].steer == SteerOf(admitted.1)
    && Quiet(end) && Agrees(end, admitted.0)
  }

  /** A request that runs undisturbed is admitted exactly as `Registry.Admit` says. */
  lemma AdmitAlone(st: State, t: TaskId, s: Session, c: Core, e: Env) returns (acts: seq<Action>, end: State)
    requires t in st.tasks && st.tasks[t] == NewTask(s) && Quiet(st) && Agrees(st, c)
    ensures Path(st, t, acts, end) && Admitted(end, t, Admit(c, s, e))
  {
    hide Path, PickSlot, FindEvictable, Admit, AfterPick;
    AdmitSplits(c, s, e);
    var k: Task;
    acts, k := LooksUp(st, t, s, e);
    var (picked, pick) := PickSlot(c.slots, s, e);
    var mid := Place(st, t, AfterLookup(k), FREE, None, picked, st.disk);
    assert k.diskHit == (s in c.disk);
    var more: seq<Action>;
    more, end := AdmitAfterLookup(mid, t, k, c.(slots := picked), e);
    PathThen(st, t, acts, mid, more, end);
    acts := acts + more;
  }

  // The lookup behind it, the request goes where its pick sends it.
  lemma AdmitAfterLookup(st: State, t: TaskId, k: Task, c: Core, e: Env) returns (acts: seq<Action>, end: State)
    requires t in st.tasks && st.tasks[t] == AfterLookup(k) && k.steer == None
    requires Quiet(st) && Agrees(st, c) && k.diskHit == (k.session in c.disk)
    ensures Path(st, t, acts, end) && Admitted(end, t, AfterPick(c, k.session, k.pick, e))
  {
    hide Path, FindEvictable, Rest;
    match k.pick
    case Hot(id) =>
      acts := Marks(st, t, k, id, false);
      end := Place(st, t, k.(steer := Some(id), pc := Dispatch), FREE, None, MarkDirty(st.slots, id, k.session),
                   st.disk);
    case Free(id) =>
      acts := Marks(st, t, k, id, k.diskHit);
      end := Place(st, t, k.(steer := Some(id), pc := Dispatch), FREE, None, MarkDirty(st.slots, id, k.session),
                   st.disk);
    case NoSlot =>
      acts, end := AdmitByEviction(st, t, At(k, AskVictims), c, e);
  }

  // No slot was free: the second half of `Admit`.
  function Rest(c: Core, s: Session, e: Env): (Core, Admission) {
    var (scanned, victim) := FindEvictable(c.slots, e);
    var c2 := c.(slots := scanned);
    match victim
    case NoVictim => (c2, Forwarded)
    case Victim(id, owner) =>
      var c3 := Evict(c2, id, owner, e.save);
      if !EvictionWorks(owner, e.save) then (c3, Forwarded)
      else
        var c4 := if s in c.disk then RestoreSlot(c3, id, s, e) else c3;
        (Steer(c4, id, s), Steered(id, false, s in c.disk && Restores(c3, s, e)))
  }

  function AfterPick(c: Core, s: Session, pick: Pick, e: Env): (Core, Admission) {
    match pick
    case Hot(id) => (Steer(c, id, s), Steered(id, true, false))
    case Free(id) =>
      (Steer(if s in c.disk then RestoreSlot(c, id, s, e) else c, id, s), Steered(id, false, Restores(c, s, e)))
    case NoSlot => Rest(c, s, e)
  }

  lemma AdmitSplits(c: Core, s: Session, e: Env)
    ensures var (picked, pick) := PickSlot(c.slots, s, e); Admit(c, s, e) == AfterPick(c.(slots := picked), s, pick, e)
  {
    hide PickSlot, FindEvictable, SaveSlot, RestoreSlot, Evict, Steer;
  }

  lemma RestSplits(c: Core, s: Session, e: Env)
    ensures var (scanned, victim) := FindEvictable(c.slots, e);
            var c2 := c.(slots := scanned);
            var (end, a) := Rest(c, s, e);
            match victim
            case NoVictim => end == c2 && a == Forwarded
            case Victim(id, None) =>
              end.slots == MarkDirty(scanned, id, s) && end.disk == c.disk && SteerOf(a) == Some(id)
            case Victim(id, Some(owner)) =>
              var saved := SaveSlot(c2, id, owner, e.save);
              if e.save.Published? then
                end.slots == MarkDirty(saved.slots, id, s) && end.disk == saved.disk && SteerOf(a) == Some(id)
              else end == saved && a == Forwarded
  {
    hide FindEvictable, MarkDirty, SaveSlot;
    var (scanned, victim) := FindEvictable(c.slots, e);
    if victim.Victim? && victim.session.Some? && !e.save.Published? {
      assert !EvictionWorks(victim.session, e.save);
    }
  }

  lemma AdmitByEviction(st: State, t: TaskId, k: Task, c: Core, e: Env) returns (acts: seq<Action>, end: State)
    requires t in st.tasks && st.tasks[t] == k && k.pc == AskVictims && k.steer == None
    requires Quiet(st) && Agrees(st, c) && k.diskHit == (k.session in c.disk)
    ensures Path(st, t, acts, end) && Admitted(end, t, Rest(c, k.session, e))
  {
    hide Path, Place, FindEvictable, Rest, Agrees, Admitted, AfterScan;
    var k': Task;
    acts, k' := FindsVictim(st, t, k, e);
    var (scanned, victim) := FindEvictable(c.slots, e);
    assert c.slots == st.slots by {
      SameSlots(st, c);
    }
    var mid := Place(st, t, AfterScan(k', victim), FREE, None, scanned, st.disk);
    Placed(st, t, AfterScan(k', victim), FREE, None, scanned, st.disk);
    StillAgrees(st, mid, c, scanned);
    var more: seq<Action>;
    more, end := AdmitVictim(mid, t, k', victim, c, e);
    PathThen(st, t, acts, mid, more, end);
    acts := acts + more;
  }

  lemma SameSlots(st: State, c: Core)
    requires Agrees(st, c)
    ensures st.slots == c.slots
  {
  }

  lemma StillAgrees(st: State, st': State, c: Core, slots: Slots)
    requires Agrees(st, c) && st'.disk == st.disk && st'.slots == slots
    ensures Agrees(st', c.(slots := slots))
  {
  }

  // The scan is over: nobody, a victim to publish, or one with nothing to publish.
  lemma AdmitVictim(st: State, t: TaskId, k: Task, victim: Registry.Victim, c: Core, e: Env)
      returns (acts: seq<Action>, end: State)
    requires t in st.tasks && st.tasks[t] == AfterScan(k, victim) && k.steer == None
    requires Quiet(st) && Agrees(st, c.(slots := st.slots)) && k.diskHit == (k.session in c.disk)
    requires (st.slots, victim) == FindEvictable(c.slots, e)
    ensures Path(st, t, acts, end) && Admitted(end, t, Rest(c, k.session, e))
  {
    hide Path, FindEvictable, MarkDirty, Rest, SaveSlot, Agrees;
    RestSplits(c, k.session, e);
    var c2 := c.(slots := st.slots);
    if victim == NoVictim {
      PathNone(st, t);
      acts, end := [], st;
    } else if victim.session == None {
      acts, end := AdmitUnpublished(st, t, k, victim.id);
      StillAgrees(st, end, c2, end.slots);
      AgreesAs(end, c2.(slots := end.slots), Rest(c, k.session, e).0);
    } else {
      acts, end := AdmitByPublish(st, t, AfterScan(k, victim), c2, e);
      if e.save.Published? {
        var saved := SaveSlot(c2, victim.id, victim.session.value, e.save);
        AgreesAs(end, Steer(saved, victim.id, k.session), Rest(c, k.session, e).0);
      }
    }
  }

  lemma AgreesAs(st: State, c: Core, c': Core)
    requires Agrees(st, c) && c'.slots == c.slots && c'.disk == c.disk
    ensures Agrees(st, c')
  {
  }

  // A victim with nothing to publish is taken at once.
  lemma AdmitUnpublished(st: State, t: TaskId, k: Task, id: SlotId) returns (acts: seq<Action>, end: State)
    requires t in st.tasks && st.tasks[t] == SteerTo(k, id, k.diskHit) && Quiet(st)
    ensures Path(st, t, acts, end) && t in end.tasks && end.tasks[t].pc == Dispatch && end.tasks[t].steer == Some(id)
    ensures Quiet(end) && end.slots == MarkDirty(st.slots, id, k.session) && end.disk == st.disk
  {
    hide Path, Place, MarkDirty, Mute;
    acts := Marks(st, t, k, id, k.diskHit);
    var k' := k.(steer := Some(id), pc := Dispatch);
    end := Place(st, t, k', FREE, None, MarkDirty(st.slots, id, k.session), st.disk);
    Placed(st, t, k', FREE, None, MarkDirty(st.slots, id, k.session), st.disk);
  }

  lemma AdmitByPublish(st: State, t: TaskId, k: Task, c: Core, e: Env) returns (acts: seq<Action>, end: State)
    requires t in st.tasks && st.tasks[t] == k && k.pc == WantWrite && k.steer == None && k.job.evicting
    requires Quiet(st) && Agrees(st, c) && k.diskHit == (k.session in c.disk)
    ensures var saved := SaveSlot(c, k.job.slot, k.job.session, e.save);
            Path(st, t, acts, end) &&
            if e.save.Published? then
              Admitted(end, t, (Steer(saved, k.job.slot, k.session), Steered(k.job.slot, false, false)))
            else Admitted(end, t, (saved, Forwarded))
  {
    hide Path, Place, MarkDirty, Agrees, Shows, SaveSlot, AfterPublish;
    var k', d';
    acts, k', d' := Publishes(st, t, k, e.save);
    var saved := SaveSlot(c, k.job.slot, k.job.session, e.save);
    PublishAgrees(st, c, k, e.save, d');
    var mid := Place(st, t, k', FREE, None, saved.slots, d');
    Placed(st, t, k', FREE, None, saved.slots, d');
    end := mid;
    WhereToNext(k, k', e.save.Published?);
    if e.save.Published? {
      var id := k.job.slot;
      var more := Marks(mid, t, k.(job := k'.job), id, k.diskHit);
      var k'' := k.(job := k'.job, steer := Some(id), pc := Dispatch);
      end := Place(mid, t, k'', FREE, None, MarkDirty(saved.slots, id, k.session), d');
      Placed(mid, t, k'', FREE, None, MarkDirty(saved.slots, id, k.session), d');
      PathThen(st, t, acts, mid, more, end);
      acts := acts + more;
    }
    AgreesBy(st, end, c, saved, k, e.save, d');
  }

  lemma WhereToNext(k: Task, k': Task, published: bool)
    requires k.job.evicting && k' == AfterPublish(k, published).(job := k'.job)
    ensures published ==> k' == SteerTo(k.(job := k'.job), k.job.slot, k.diskHit)
    ensures !published ==> k' == At(k, Dispatch).(job := k'.job)
  {
  }

  lemma PublishAgrees(st: State, c: Core, k: Task, outcome: SaveOutcome, d': Disk)
    requires Agrees(st, c) && Shows(st.disk, d', SaveOf(k.job), !outcome.SaveFailed?)
    ensures var saved := SaveSlot(c, k.job.slot, k.job.session, outcome);
            && saved.slots == (if outcome.Published? then MarkClean(st.slots, k.job.slot) else st.slots)
            && forall x :: Blob(x) in d'.dir <==> x in saved.disk
  {
  }

  lemma AgreesBy(st: State, end: State, c: Core, saved: Core, k: Task, outcome: SaveOutcome, d': Disk)
    requires saved == SaveSlot(c, k.job.slot, k.job.session, outcome)
    requires end.disk == d' && forall x :: Blob(x) in d'.dir <==> x in saved.disk
    requires end.slots == if outcome.Published? then MarkDirty(saved.slots, k.job.slot, k.session) else saved.slots
    ensures Agrees(end, if outcome.Published? then Steer(saved, k.job.slot, k.session) else saved)
  {
  }

  // ------------------------------------------------------------- the turn's end

  lemma ClaimSteps(k: Task, id: SlotId, t: TaskId, sl: Slots)
    requires k.pc == Serve && k.steer == Some(id)
    ensures TurnNext(k, NO_CHOICE) == At(k, ClaimLock) && SlotsAfter(sl, k) == sl && MutexAfter(None, t, k.pc) == None
    ensures TurnNext(At(k, ClaimLock), NO_CHOICE) == At(k, Claim) && SlotsAfter(sl, At(k, ClaimLock)) == sl
    ensures TurnNext(At(k, Claim), NO_CHOICE) == StartJob(k, id, k.session, false)
    ensures SlotsAfter(sl, At(k, Claim)) == SetSession(sl, id, k.session)
    ensures MutexAfter(None, t, ClaimLock) == Some(t) && MutexAfter(Some(t), t, Claim) == None
  {
    hide SetSession;
  }

  lemma Claims(st: State, t: TaskId, k: Task, id: SlotId) returns (acts: seq<Action>)
    requires t in st.tasks && st.tasks[t] == k && k.pc == Serve && k.steer == Some(id) && Quiet(st)
    ensures Path(st, t, acts, Place(st, t, StartJob(k, id, k.session, false), FREE, None,
                                    SetSession(st.slots, id, k.session), st.disk))
  {
    hide Path, Place, SetSession, TurnNext, SlotsAfter, MutexAfter, Mute;
    ClaimSteps(k, id, t, st.slots);
    Stands(st, t, k);
    acts := AdvanceTurn(st, t, [], k, None, st.slots, st.disk, NO_CHOICE);
    acts := AdvanceTurn(st, t, acts, At(k, ClaimLock), None, st.slots, st.disk, NO_CHOICE);
    acts := AdvanceTurn(st, t, acts, At(k, Claim), Some(t), st.slots, st.disk, NO_CHOICE);
  }

  /** A turn that ends undisturbed leaves the registry and the blobs of `Registry.FinishTurn`. */
  lemma FinishAlone(st: State, t: TaskId, id: SlotId, c: Core, save: SaveOutcome)
      returns (acts: seq<Action>, end: State)
    requires t in st.tasks && st.tasks[t].pc == Serve && st.tasks[t].steer == Some(id)
    requires Quiet(st) && Agrees(st, c)
    ensures Path(st, t, acts, end) && t in end.tasks && end.tasks[t].pc == ScanDir && Quiet(end)
    ensures Agrees(end, FinishTurn(c, id, st.tasks[t].session, save))
  {
    hide Path, Place, SetSession;
    var k := st.tasks[t];
    acts := Claims(st, t, k, id);
    var k1, claimed := StartJob(k, id, k.session, false), SetSession(st.slots, id, k.session);
    var mid := Place(st, t, k1, FREE, None, claimed, st.disk);
    Placed(st, t, k1, FREE, None, claimed, st.disk);
    var more, k', d' := Publishes(mid, t, k1, save);
    var sl := if save.Published? then MarkClean(claimed, id) else claimed;
    end := Place(mid, t, k', FREE, None, sl, d');
    Placed(mid, t, k', FREE, None, sl, d');
    PathThen(st, t, acts, mid, more, end);
    acts := acts + more;
  }

  lemma QuitSteps(k: Task, id: SlotId, t: TaskId, sl: Slots)
    requires k.pc == Serve && k.steer == Some(id)
    ensures TurnNext(k, NO_CHOICE.(turn := Disconnected)) == At(k, QuitLock)
    ensures SlotsAfter(sl, k) == sl && MutexAfter(None, t, k.pc) == None
    ensures TurnNext(At(k, QuitLock), NO_CHOICE) == At(k, Quit) && SlotsAfter(sl, At(k, QuitLock)) == sl
    ensures TurnNext(At(k, Quit), NO_CHOICE) == At(k, Finished) && SlotsAfter(sl, At(k, Quit)) == Abandon(sl, id)
    ensures MutexAfter(None, t, QuitLock) == Some(t) && MutexAfter(Some(t), t, Quit) == None
  {
    hide Abandon;
  }

  lemma Quits(st: State, t: TaskId, k: Task, id: SlotId) returns (acts: seq<Action>)
    requires t in st.tasks && st.tasks[t] == k && k.pc == Serve && k.steer == Some(id) && Quiet(st)
    ensures Path(st, t, acts, Place(st, t, At(k, Finished), FREE, None, Abandon(st.slots, id), st.disk))
  {
    hide Path, Place, Abandon, TurnNext, SlotsAfter, MutexAfter, Mute;
    QuitSteps(k, id, t, st.slots);
    Stands(st, t, k);
    acts := AdvanceTurn(st, t, [], k, None, st.slots, st.disk, NO_CHOICE.(turn := Disconnected));
    acts := AdvanceTurn(st, t, acts, At(k, QuitLock), None, st.slots, st.disk, NO_CHOICE);
    acts := AdvanceTurn(st, t, acts, At(k, Quit), Some(t), st.slots, st.disk, NO_CHOICE);
  }

  /** A disconnected client leaves the registry of `Registry.AbandonTurn`, and the disk alone. */
  lemma HangUpAlone(st: State, t: TaskId, id: SlotId, c: Core) returns (acts: seq<Action>, end: State)
    requires t in st.tasks && st.tasks[t].pc == Serve && st.tasks[t].steer == Some(id)
    requires Quiet(st) && Agrees(st, c)
    ensures Path(st, t, acts, end) && t in end.tasks && end.tasks[t].pc == Finished && Quiet(end)
    ensures Agrees(end, AbandonTurn(c, id)) && end.disk == st.disk
  {
    hide Path, Place, Abandon;
    var k := st.tasks[t];
    acts := Quits(st, t, k, id);
    end := Place(st, t, At(k, Finished), FREE, None, Abandon(st.slots, id), st.disk);
    Placed(st, t, At(k, Finished), FREE, None, Abandon(st.slots, id), st.disk);
  }

  // ------------------------------------------------------------ building a run

  ghost predicate Reaches(acts: seq<Action>, end: State) {
    IsRun(INIT, acts) && Run(INIT, acts) == end && forall a | a in acts :: !a.Crash?
  }

  lemma ThenPath(acts: seq<Action>, cur: State, t: TaskId, more: seq<Action>, end: State) returns (acts': seq<Action>)
    requires Reaches(acts, cur) && Path(cur, t, more, end)
    ensures Reaches(acts', end)
  {
    RunThen(INIT, acts, more);
    acts' := acts + more;
  }

  lemma ThenArrive(acts: seq<Action>, cur: State, t: TaskId, s: Session) returns (acts': seq<Action>)
    requires Reaches(acts, cur) && t !in cur.tasks
    ensures Reaches(acts', cur.(tasks := cur.tasks[t := NewTask(s)]))
  {
    var a := Arrive(t, s);
    assert [a][1..] == [] && IsRun(Do(cur, a), []) && Run(Do(cur, a), []) == Do(cur, a);
    assert IsRun(cur, [a]) && Run(cur, [a]) == Do(cur, a);
    RunThen(INIT, acts, [a]);
    acts' := acts + [a];
  }

  lemma PlaceOver(st: State, t: TaskId, k: Task, k': Task, g: Gate, g': Gate, sl: Slots, d: Disk)
    ensures Place(Place(st, t, k, g, None, sl, d), t, k', g', None, sl, d) == Place(st, t, k', g', None, sl, d)
  {
    assert st.tasks[t := k][t := k'] == st.tasks[t := k'];
  }

  lemma PlaceKeys(st: State, t: TaskId, k: Task, g: Gate, sl: Slots, d: Disk)
    requires t in st.tasks
    ensures Place(st, t, k, g, None, sl, d).tasks.Keys == st.tasks.Keys
  {
  }

  lemma StartsAt() returns (acts: seq<Action>)
    ensures Reaches(acts, INIT)
  {
    acts := [];
  }
}
