/**
  What the dirty marks are worth in small steps. With admissions that overlap
  neither each other nor a claim, no mark ever falls on another session's dirty
  slot. That the slot a request is served on stays marked asks for more: see
  `LatePublish` for what a late publish does. It holds when admissions overlap
  nothing of a turn's end, and a session runs one turn at a time.
 */
module SerialMarks {
  import opened Options
  import opened Registry
  import opened AdmissionFacts
  import opened Steps
  import opened GateTheorems
  import opened EvictionTheorems
  import opened SerialAdmission

  // ------------------------------------------------ marks never fall on dirty slots

  // The slot a request is about to mark.
  function MarkTarget(k: Task): Option<SlotId> {
    if k.pc.LeaveRead? then
      match k.pick
      case Hot(id) => Some(id)
      case Free(id) => Some(id)
      case NoSlot => None
    else if k.pc.LeaveWrite? && k.job.evicting && k.job.published then Some(k.job.slot)
    else if k.pc.Restore? || k.pc.MarkLock? || k.pc.Mark? then k.steer
    else None
  }

  predicate CleanFor(slots: Slots, id: SlotId, s: Session) {
    Dirty(slots, id) ==> Label(slots, id) == Some(s)
  }

  predicate MarksCleanly(slots: Slots, k: Task) {
    MarkTarget(k).Some? ==> CleanFor(slots, MarkTarget(k).value, k.session)
  }

  ghost predicate AllMarkCleanly(st: State) {
    DirtyHasOwner(st.slots) && forall t | t in st.tasks :: MarksCleanly(st.slots, st.tasks[t])
  }

  lemma CleanForStays(slots: Slots, k: Task, id: SlotId, s: Session)
    requires CleanFor(slots, id, s) && !k.pc.Mark? && !k.pc.Claim?
    ensures CleanFor(SlotsAfter(slots, k), id, s)
  {
    if k.pc.FreeScan? {
      FirstFreeFacts(slots, k.report);
    } else if k.pc.VictimScan? {
      FirstDirtyFacts(slots, k.report);
    }
  }

  lemma LookMarksCleanly(st: State, k: Task, ch: Choice)
    requires LookingUp(k.pc) && MarksCleanly(st.slots, k)
    ensures MarksCleanly(SlotsAfter(st.slots, k), LookupNext(st, k, ch))
  {
    hide HotSlot, FirstFree;
    if k.pc.HotScan? {
      HotSlotFacts(st.slots, ch.order, k.session);
    } else if k.pc.FreeScan? {
      FirstFreeFacts(st.slots, k.report);
    }
  }

  lemma EvictMarksCleanly(st: State, k: Task, ch: Choice)
    requires Evicting(k.pc) && DirtyHasOwner(st.slots)
    ensures MarksCleanly(SlotsAfter(st.slots, k), EvictNext(st, k, ch))
  {
    hide FirstDirty;
    VictimIsNamed(st.slots, k.report);
  }

  // A publish has no slot to mark before it is over, and is then about a clean one.
  lemma PublishTargets(d: Disk, k: Task, ch: Choice)
    requires Publishing(k.pc) && !k.pc.LeaveWrite?
    ensures MarkTarget(PublishNext(d, k, ch)).Some? ==>
              k.pc.Clean? && MarkTarget(PublishNext(d, k, ch)) == Some(k.job.slot)
  {
  }

  lemma PublishMarksCleanly(d: Disk, slots: Slots, k: Task, ch: Choice)
    requires Publishing(k.pc) && MarksCleanly(slots, k)
    ensures MarksCleanly(SlotsAfter(slots, k), PublishNext(d, k, ch))
  {
    if k.pc.LeaveWrite? {
      LeaveMarksCleanly(d, slots, k, ch);
    } else {
      hide PublishNext;
      PublishTargets(d, k, ch);
    }
  }

  lemma LeaveMarksCleanly(d: Disk, slots: Slots, k: Task, ch: Choice)
    requires k.pc.LeaveWrite? && MarksCleanly(slots, k)
    ensures MarksCleanly(SlotsAfter(slots, k), PublishNext(d, k, ch))
  {
  }

  lemma TurnMarksCleanly(slots: Slots, k: Task, ch: Choice)
    requires !LookingUp(k.pc) && !Evicting(k.pc) && !Publishing(k.pc) && MarksCleanly(slots, k)
    ensures MarksCleanly(SlotsAfter(slots, k), TurnNext(k, ch))
  {
  }

  lemma OwnMarksCleanly(st: State, k: Task, ch: Choice)
    requires DirtyHasOwner(st.slots) && MarksCleanly(st.slots, k)
    ensures MarksCleanly(SlotsAfter(st.slots, k), TaskAfter(st, k, ch))
  {
    hide MarksCleanly, LookupNext, EvictNext, PublishNext, TurnNext, SlotsAfter;
    if LookingUp(k.pc) {
      LookMarksCleanly(st, k, ch);
    } else if Evicting(k.pc) {
      EvictMarksCleanly(st, k, ch);
    } else if Publishing(k.pc) {
      PublishMarksCleanly(st.disk, st.slots, k, ch);
    } else {
      TurnMarksCleanly(st.slots, k, ch);
    }
  }

  lemma ActMarksCleanly(st: State, t: TaskId, ch: Choice)
    requires Serial(st) && AllMarkCleanly(st) && t in st.tasks
    ensures AllMarkCleanly(Step(st, t, ch))
  {
    hide DirtyHasOwner, SlotsAfter, TaskAfter, DiskAfter, GateAfter, MutexAfter;
    var k := st.tasks[t];
    SlotsKeepOwners(st.slots, k);
    OwnMarksCleanly(st, k, ch);
    forall u | u in st.tasks && u != t ensures MarksCleanly(SlotsAfter(st.slots, k), st.tasks[u]) {
      var w := st.tasks[u];
      if MarkTarget(w).Some? {
        assert Admitting(w);
        CleanForStays(st.slots, k, MarkTarget(w).value, w.session);
      }
    }
  }

  lemma DoMarksCleanly(st: State, a: Action)
    requires Serial(st) && AllMarkCleanly(st) && Possible(st, a)
    ensures AllMarkCleanly(Do(st, a))
  {
    hide Serial, Step;
    match a
    case Arrive(_, _) =>
    case Act(t, ch) => ActMarksCleanly(st, t, ch);
    case Drop(_) =>
    case Crash(_, _) =>
  }

  lemma {:induction false} RunMarksCleanly(st: State, acts: seq<Action>)
    requires AllMarkCleanly(st) && IsSerialRun(st, acts) && IsRun(st, acts)
    ensures AllMarkCleanly(Run(st, acts))
    decreases |acts|
  {
    hide AllMarkCleanly, Do, Possible, HonestAct, Serial;
    if acts != [] {
      DoMarksCleanly(st, acts[0]);
      RunMarksCleanly(Do(st, acts[0]), acts[1..]);
    }
  }

  /**
    Save-before-steal in small steps: where admissions overlap neither each other
    nor a claim, a request that marks a slot never finds it dirty under another
    session.
   */
  lemma NeverMarkedOverDirty(acts: seq<Action>, t: TaskId, id: SlotId)
    requires IsRun(INIT, acts) && IsSerialRun(INIT, acts) && t in Run(INIT, acts).tasks
    requires Run(INIT, acts).tasks[t].pc == Mark && Run(INIT, acts).tasks[t].steer == Some(id)
    ensures var end := Run(INIT, acts);
            Dirty(end.slots, id) ==> Label(end.slots, id) == Some(end.tasks[t].session)
  {
    hide Run, IsRun, IsSerialRun;
    RunMarksCleanly(INIT, acts);
    var end := Run(INIT, acts);
    assert MarksCleanly(end.slots, end.tasks[t]);
  }

  // ------------------------------------------------------- served slots stay marked

  /** Its response has ended, and it is not done with its slot. */
  predicate Ending(k: Task) {
    Claiming(k) || k.pc.QuitLock? || k.pc.Quit? || (Publishing(k.pc) && !k.job.evicting)
  }

  predicate InTurn(k: Task) {
    Admitting(k) || k.pc.Serve? || Ending(k)
  }

  /** Admissions overlap nothing but turns being served; a session runs one turn at a time. */
  ghost predicate Strict(st: State) {
    && (forall t, u | t in st.tasks && u in st.tasks && t != u ::
          Admitting(st.tasks[t]) ==> !Admitting(st.tasks[u]) && !Ending(st.tasks[u]))
    && (forall t, u | t in st.tasks && u in st.tasks && t != u && InTurn(st.tasks[t]) && InTurn(st.tasks[u]) ::
          st.tasks[t].session != st.tasks[u].session)
  }

  ghost predicate IsStrictRun(st: State, acts: seq<Action>)
    decreases |acts|
  {
    && Strict(st)
    && (acts == [] ||
        (Possible(st, acts[0]) && HonestAct(st, acts[0]) && IsStrictRun(Do(st, acts[0]), acts[1..])))
  }

  // The slot that the end of a turn is about.
  function EndSlot(k: Task): Option<SlotId> {
    if Claiming(k) || k.pc.QuitLock? || k.pc.Quit? then k.steer
    else if Publishing(k.pc) && !k.job.evicting then Some(k.job.slot)
    else None
  }

  predicate MarkedFor(slots: Slots, id: SlotId, s: Session) {
    Label(slots, id) == Some(s) && Dirty(slots, id)
  }

  predicate ServedMarked(slots: Slots, k: Task) {
    (k.pc.Serve? || k.pc.Dispatch?) && k.steer.Some? ==> MarkedFor(slots, k.steer.value, k.session)
  }

  // Whoever ends a turn on a slot is of the session served there.
  ghost predicate EndsWith(tasks: map<TaskId, Task>, u: Task) {
    forall t | t in tasks && EndSlot(u).Some? && Serves(tasks[t], EndSlot(u).value) :: tasks[t].session == u.session
  }

  ghost predicate AllMarked(st: State) {
    && Fits(st)
    && (forall t | t in st.tasks :: ServedMarked(st.slots, st.tasks[t]) && EndsWith(st.tasks, st.tasks[t]))
  }

  // The steps that change the label or the mark of a slot.
  predicate Touches(k: Task, id: SlotId) {
    ((k.pc.Mark? || k.pc.Claim? || k.pc.Quit?) && k.steer == Some(id)) || (k.pc.Clean? && k.job.slot == id)
  }

  lemma UntouchedStays(slots: Slots, k: Task, id: SlotId)
    requires !Touches(k, id)
    ensures Label(SlotsAfter(slots, k), id) == Label(slots, id) && Dirty(SlotsAfter(slots, k), id) == Dirty(slots, id)
  {
    if k.pc.FreeScan? {
      FirstFreeFacts(slots, k.report);
    } else if k.pc.VictimScan? {
      FirstDirtyFacts(slots, k.report);
    }
  }

  // Only a request of the same session could touch a slot being served.
  lemma TouchesOwn(st: State, m: TaskId, t: TaskId, id: SlotId)
    requires AllMarked(st) && m in st.tasks && t in st.tasks && Serves(st.tasks[t], id) && Touches(st.tasks[m], id)
    ensures st.tasks[m].session == st.tasks[t].session && InTurn(st.tasks[m])
  {
    var k := st.tasks[m];
    assert TaskFits(st.tasks, st.slots, k) && EndsWith(st.tasks, k) && Uses(st.tasks[t], id);
  }

  lemma OtherMarked(st: State, m: TaskId, ch: Choice, t: TaskId)
    requires Strict(st) && AllMarked(st) && m in st.tasks && t in st.tasks && t != m
    ensures ServedMarked(SlotsAfter(st.slots, st.tasks[m]), st.tasks[t])
  {
    hide SlotsAfter, Fits;
    var k, w := st.tasks[m], st.tasks[t];
    if (w.pc.Serve? || w.pc.Dispatch?) && w.steer.Some? {
      var id := w.steer.value;
      if Touches(k, id) {
        if w.pc.Serve? {
          TouchesOwn(st, m, t, id);
        }
        assert false;
      }
      UntouchedStays(st.slots, k, id);
    }
  }

  lemma TurnMarked(slots: Slots, k: Task, ch: Choice)
    requires !LookingUp(k.pc) && !Evicting(k.pc) && !Publishing(k.pc) && ServedMarked(slots, k)
    ensures ServedMarked(SlotsAfter(slots, k), TurnNext(k, ch))
  {
  }

  lemma PublishMarked(slots: Slots, d: Disk, k: Task, ch: Choice)
    requires Publishing(k.pc) && (k.job.evicting ==> k.steer == None)
    ensures ServedMarked(slots, PublishNext(d, k, ch))
  {
  }

  lemma EvictMarked(st: State, slots: Slots, k: Task, ch: Choice)
    requires Evicting(k.pc) && k.steer == None
    ensures ServedMarked(slots, EvictNext(st, k, ch))
  {
  }

  lemma LookMarked(st: State, slots: Slots, k: Task, ch: Choice)
    requires LookingUp(k.pc)
    ensures ServedMarked(slots, LookupNext(st, k, ch))
  {
  }

  lemma OwnMarked(st: State, k: Task, ch: Choice)
    requires TaskFits(st.tasks, st.slots, k) && ServedMarked(st.slots, k)
    ensures ServedMarked(SlotsAfter(st.slots, k), TaskAfter(st, k, ch))
  {
    hide ServedMarked, LookupNext, EvictNext, PublishNext, TurnNext, SlotsAfter;
    if LookingUp(k.pc) {
      LookMarked(st, SlotsAfter(st.slots, k), k, ch);
    } else if Evicting(k.pc) {
      EvictMarked(st, SlotsAfter(st.slots, k), k, ch);
    } else if Publishing(k.pc) {
      PublishMarked(SlotsAfter(st.slots, k), st.disk, k, ch);
    } else {
      TurnMarked(st.slots, k, ch);
    }
  }

  // ------------------------------------------------------------ the ends of turns

  lemma EndSlotAfter(st: State, k: Task, ch: Choice)
    ensures var k' := TaskAfter(st, k, ch);
            EndSlot(k').Some? ==> EndSlot(k) == EndSlot(k') || (k.pc.Serve? && k.steer == EndSlot(k'))
  {
    hide LookupNext, EvictNext, PublishNext, TurnNext;
    if LookingUp(k.pc) {
      LookEnds(st, k, ch);
    } else if Evicting(k.pc) {
      EvictEnds(st, k, ch);
    } else if Publishing(k.pc) {
      PublishEndSlot(st.disk, k, ch);
    } else {
      TurnEndSlot(k, ch);
    }
  }

  lemma LookEnds(st: State, k: Task, ch: Choice)
    requires LookingUp(k.pc)
    ensures EndSlot(LookupNext(st, k, ch)) == None
  {
  }

  lemma EvictEnds(st: State, k: Task, ch: Choice)
    requires Evicting(k.pc)
    ensures EndSlot(EvictNext(st, k, ch)) == None
  {
  }

  lemma PublishEndSlot(d: Disk, k: Task, ch: Choice)
    requires Publishing(k.pc)
    ensures var k' := PublishNext(d, k, ch); EndSlot(k').Some? ==> EndSlot(k) == EndSlot(k')
  {
    if !k.pc.LeaveWrite? {
      PublishKeepsJob(d, k, ch);
    }
  }

  lemma TurnEndSlot(k: Task, ch: Choice)
    requires !LookingUp(k.pc) && !Evicting(k.pc) && !Publishing(k.pc)
    ensures var k' := TurnNext(k, ch);
            EndSlot(k').Some? ==> EndSlot(k) == EndSlot(k') || (k.pc.Serve? && k.steer == EndSlot(k'))
  {
  }

  lemma ServesAfter(st: State, k: Task, ch: Choice, id: SlotId)
    requires Serves(TaskAfter(st, k, ch), id)
    ensures k.pc.Dispatch? && k.steer == Some(id)
  {
    hide LookupNext, EvictNext, PublishNext;
    if LookingUp(k.pc) {
      LookupUses(st, k, ch);
    } else if Evicting(k.pc) {
      EvictUses(st, k, ch);
    } else if Publishing(k.pc) {
      PublishUses(st.disk, k, ch);
    }
  }

  // While a request is dispatched nobody is ending; otherwise nobody new is served.
  lemma EndsStay(st: State, m: TaskId, ch: Choice, u: TaskId)
    requires Strict(st) && AllMarked(st) && m in st.tasks && u in st.tasks
    ensures EndsWith(Step(st, m, ch).tasks, Step(st, m, ch).tasks[u])
  {
    hide TaskAfter, SlotsAfter, DiskAfter, GateAfter, MutexAfter;
    var k, st' := st.tasks[m], Step(st, m, ch);
    var w := st'.tasks[u];
    SessionStays(st, k, ch);
    forall t | t in st'.tasks && EndSlot(w).Some? && Serves(st'.tasks[t], EndSlot(w).value)
      ensures st'.tasks[t].session == w.session
    {
      var id := EndSlot(w).value;
      if t == m {
        ServesAfter(st, k, ch, id);
      } else {
        assert Uses(st.tasks[t], id);
        assert TaskFits(st.tasks, st.slots, st.tasks[u]) && EndsWith(st.tasks, st.tasks[u]);
        if u == m {
          EndSlotAfter(st, k, ch);
        }
      }
    }
  }

  lemma ActMarked(st: State, m: TaskId, ch: Choice)
    requires Strict(st) && AllMarked(st) && m in st.tasks && HonestAct(st, Act(m, ch))
    ensures AllMarked(Step(st, m, ch))
  {
    hide Fits, ServedMarked, EndsWith, HonestAct, TaskAfter, SlotsAfter, DiskAfter, GateAfter, MutexAfter;
    StrictIsSerial(st);
    ActFits(st, m, ch);
    FitsAt(st, m);
    OwnMarked(st, st.tasks[m], ch);
    forall u | u in st.tasks ensures EndsWith(Step(st, m, ch).tasks, Step(st, m, ch).tasks[u]) {
      EndsStay(st, m, ch, u);
    }
    forall u | u in st.tasks && u != m ensures ServedMarked(SlotsAfter(st.slots, st.tasks[m]), st.tasks[u]) {
      OtherMarked(st, m, ch, u);
    }
  }

  lemma StrictIsSerial(st: State)
    requires Strict(st)
    ensures Serial(st)
  {
  }

  lemma EntryMarked(st: State, t: TaskId, k: Task)
    requires AllMarked(st) && Fits(st.(tasks := st.tasks[t := k]))
    requires !k.pc.Serve? && !k.pc.Dispatch? && EndSlot(k) == None
    ensures var tasks' := st.tasks[t := k];
            forall u | u in tasks' :: ServedMarked(st.slots, tasks'[u]) && EndsWith(tasks', tasks'[u])
  {
    var tasks' := st.tasks[t := k];
    forall u | u in tasks' ensures ServedMarked(st.slots, tasks'[u]) && EndsWith(tasks', tasks'[u]) {
      if u != t {
        assert ServedMarked(st.slots, st.tasks[u]) && EndsWith(st.tasks, st.tasks[u]);
      }
    }
  }

  lemma DoMarked(st: State, a: Action)
    requires Strict(st) && AllMarked(st) && Possible(st, a) && HonestAct(st, a)
    ensures AllMarked(Do(st, a))
  {
    hide Strict, Step, HonestAct, Fits, TaskFits, ServedMarked, EndsWith;
    match a
    case Arrive(t, s) =>
      ArriveFits(st, t, s);
      EntryMarked(st, t, NewTask(s));
    case Act(t, ch) => ActMarked(st, t, ch);
    case Drop(t) =>
      DropFits(st, t);
      FitsIgnoresGate(Dropped(st, t), st.(tasks := st.tasks[t := At(st.tasks[t], Finished)]));
      EntryMarked(st, t, At(st.tasks[t], Finished));
    case Crash(_, _) => NobodyFits(Do(st, a));
  }

  lemma FitsIgnoresGate(st: State, st': State)
    requires Fits(st) && st'.tasks == st.tasks && st'.slots == st.slots
    ensures Fits(st')
  {
  }

  lemma NobodyFits(st: State)
    requires st.tasks == map[]
    ensures Fits(st)
  {
  }

  lemma {:induction false} RunMarked(st: State, acts: seq<Action>)
    requires AllMarked(st) && IsStrictRun(st, acts) && IsRun(st, acts)
    ensures AllMarked(Run(st, acts))
    decreases |acts|
  {
    hide AllMarked, Do, Possible, HonestAct, Strict;
    if acts != [] {
      DoMarked(st, acts[0]);
      RunMarked(Do(st, acts[0]), acts[1..]);
    }
  }

  /**
    Where admissions overlap nothing of a turn's end and a session runs one turn at
    a time, a request being served on a slot has that slot to itself: labelled with
    its session, and dirty.
   */
  lemma ServedIsMarked(acts: seq<Action>, t: TaskId, id: SlotId)
    requires IsRun(INIT, acts) && IsStrictRun(INIT, acts)
    requires t in Run(INIT, acts).tasks && Serves(Run(INIT, acts).tasks[t], id)
    ensures var end := Run(INIT, acts);
            && MarkedFor(end.slots, id, end.tasks[t].session)
            && forall u | u in end.tasks && Serves(end.tasks[u], id) :: u == t
  {
    hide Run, IsRun;
    RunMarked(INIT, acts);
    EndsStrict(INIT, acts);
    var end := Run(INIT, acts);
    FitsAt(end, t);
    assert ServedMarked(end.slots, end.tasks[t]);
    forall u | u in end.tasks && Serves(end.tasks[u], id) ensures u == t {
      assert Uses(end.tasks[u], id) && InTurn(end.tasks[u]) && InTurn(end.tasks[t]);
    }
  }

  lemma {:induction false} EndsStrict(st: State, acts: seq<Action>)
    requires IsStrictRun(st, acts) && IsRun(st, acts)
    ensures Strict(Run(st, acts))
    decreases |acts|
  {
    hide Do, Possible, HonestAct, Strict;
    if acts != [] {
      EndsStrict(Do(st, acts[0]), acts[1..]);
    }
  }
}
