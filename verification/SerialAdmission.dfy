/**
  When the small steps do have slot exclusion: in every run in which no request is
  being admitted (from its pick to its dispatch) while another is, or is claiming
  its slot at the end of its turn, and in which the backend reports every slot that
  is being served as processing. `AdmissionRace` has a run for each of the two
  overlaps that must be excluded.
 */
module SerialAdmission {
  import opened Options
  import opened Registry
  import opened AdmissionFacts
  import opened Steps
  import opened GateTheorems

  // ---------------------------------------------------------------- the hypotheses

  /** Its pick is made or being made from a report, and it is not yet dispatched. */
  predicate Admitting(k: Task) {
    || k.pc.AskSlots? || k.pc.FreeLock? || k.pc.FreeScan? || k.pc.LeaveRead?
    || Evicting(k.pc) || (Publishing(k.pc) && k.job.evicting)
    || k.pc.Restore? || k.pc.MarkLock? || k.pc.Mark? || k.pc.Dispatch?
  }

  /** Its response has ended; it has yet to put its session back on the slot. */
  predicate Claiming(k: Task) {
    k.pc.ClaimLock? || k.pc.Claim?
  }

  predicate Serves(k: Task, id: SlotId) {
    k.pc.Serve? && k.steer == Some(id)
  }

  ghost predicate Serial(st: State) {
    forall t, u | t in st.tasks && u in st.tasks && t != u ::
      Admitting(st.tasks[t]) ==> !Admitting(st.tasks[u]) && !Claiming(st.tasks[u])
  }

  // A report lists every slot being served as processing.
  ghost predicate HonestAct(st: State, a: Action) {
    a.Act? && a.t in st.tasks && (st.tasks[a.t].pc.AskSlots? || st.tasks[a.t].pc.AskVictims?) && a.choice.ok ==>
      forall r, u | r in a.choice.report && u in st.tasks && Serves(st.tasks[u], r.id) :: r.processing
  }

  ghost predicate IsSerialRun(st: State, acts: seq<Action>)
    decreases |acts|
  {
    && Serial(st)
    && (acts == [] ||
        (Possible(st, acts[0]) && HonestAct(st, acts[0]) && IsSerialRun(Do(st, acts[0]), acts[1..])))
  }

  // ------------------------------------------------------------------ the invariant

  // It serves the slot, or is about to claim it back.
  predicate Uses(k: Task, id: SlotId) {
    (k.pc.Serve? || Claiming(k)) && k.steer == Some(id)
  }

  // The slot an admission has settled on.
  function Target(k: Task): Option<SlotId> {
    if k.pc.LeaveRead? then
      match k.pick
      case Hot(id) => Some(id)
      case Free(id) => Some(id)
      case NoSlot => None
    else if Publishing(k.pc) && k.job.evicting then Some(k.job.slot)
    else if k.pc.Restore? || k.pc.MarkLock? || k.pc.Mark? || k.pc.Dispatch? then k.steer
    else None
  }

  predicate HasReport(pc: Pc) {
    pc.FreeLock? || pc.FreeScan? || pc.VictimLock? || pc.VictimScan?
  }

  predicate LabelAllows(slots: Slots, id: SlotId, s: Session) {
    Label(slots, id) in {None, Some(s)}
  }

  // Whoever uses the slot is of this session.
  ghost predicate OnlyUsedBy(tasks: map<TaskId, Task>, id: SlotId, s: Session) {
    forall u | u in tasks && Uses(tasks[u], id) :: tasks[u].session == s
  }

  ghost predicate TaskFits(tasks: map<TaskId, Task>, slots: Slots, k: Task) {
    && (forall id | Uses(k, id) :: OnlyUsedBy(tasks, id, k.session) && LabelAllows(slots, id, k.session))
    && (Target(k).Some? ==> OnlyUsedBy(tasks, Target(k).value, k.session))
    && (LookingUp(k.pc) || Evicting(k.pc) || (Publishing(k.pc) && k.job.evicting) ==> k.steer == None)
    && (k.pc.Dispatch? && k.steer.Some? ==> LabelAllows(slots, k.steer.value, k.session))
    && (HasReport(k.pc) ==>
          forall r, u | r in k.report && u in tasks && Uses(tasks[u], r.id) :: r.processing)
  }

  ghost predicate Fits(st: State) {
    forall t | t in st.tasks :: TaskFits(st.tasks, st.slots, st.tasks[t])
  }

  // ------------------------------------------------------- what one step changes

  predicate Relabels(k: Task, id: SlotId) {
    (k.pc.Mark? || k.pc.Claim? || k.pc.Quit?) && k.steer == Some(id)
  }

  lemma LabelsAfter(slots: Slots, k: Task, id: SlotId)
    ensures var was, now := Label(slots, id), Label(SlotsAfter(slots, k), id);
            && (!Relabels(k, id) ==> now == was)
            && (Relabels(k, id) && k.pc.Mark? ==> now == Some(k.session))
            && (Relabels(k, id) && k.pc.Claim? ==> now in {was, Some(k.session)})
            && (Relabels(k, id) && k.pc.Quit? ==> now == None)
  {
    if k.pc.FreeScan? {
      FirstFreeFacts(slots, k.report);
    } else if k.pc.VictimScan? {
      FirstDirtyFacts(slots, k.report);
    }
  }

  lemma SessionStays(st: State, k: Task, ch: Choice)
    ensures TaskAfter(st, k, ch).session == k.session
  {
  }

  lemma UsesAfter(st: State, k: Task, ch: Choice, id: SlotId)
    requires Uses(TaskAfter(st, k, ch), id)
    ensures Uses(k, id) || (k.pc.Dispatch? && k.steer == Some(id))
  {
    hide LookupNext, EvictNext, PublishNext;
    if LookingUp(k.pc) {
      LookupUses(st, k, ch);
    } else if Evicting(k.pc) {
      EvictUses(st, k, ch);
    } else if Publishing(k.pc) {
      PublishUses(st.disk, k, ch);
    }
  }

  lemma LookupUses(st: State, k: Task, ch: Choice)
    requires LookingUp(k.pc)
    ensures !LookupNext(st, k, ch).pc.Serve? && !Claiming(LookupNext(st, k, ch))
  {
  }

  lemma EvictUses(st: State, k: Task, ch: Choice)
    requires Evicting(k.pc)
    ensures !EvictNext(st, k, ch).pc.Serve? && !Claiming(EvictNext(st, k, ch))
  {
  }

  lemma PublishUses(d: Disk, k: Task, ch: Choice)
    requires Publishing(k.pc)
    ensures !PublishNext(d, k, ch).pc.Serve? && !Claiming(PublishNext(d, k, ch))
  {
  }

  // ------------------------------------------------------------ the others

  // A step of `t` leaves what is known of another request.
  lemma OtherFits(st: State, t: TaskId, ch: Choice, u: TaskId)
    requires Serial(st) && Fits(st) && t in st.tasks && u in st.tasks && u != t
    ensures TaskFits(Step(st, t, ch).tasks, Step(st, t, ch).slots, st.tasks[u])
  {
    hide TaskAfter, SlotsAfter, DiskAfter, GateAfter, MutexAfter;
    var k, w := st.tasks[t], st.tasks[u];
    var st' := Step(st, t, ch);
    assert TaskFits(st.tasks, st.slots, k) && TaskFits(st.tasks, st.slots, w);
    SessionStays(st, k, ch);
    forall id | Uses(w, id)
      ensures OnlyUsedBy(st'.tasks, id, w.session) && LabelAllows(st'.slots, id, w.session)
    {
      OtherUses(st, t, ch, u, id);
      LabelsAfter(st.slots, k, id);
    }
    if Target(w).Some? {
      OtherTargets(st, t, ch, u, Target(w).value);
      LabelsAfter(st.slots, k, Target(w).value);
    }
    if HasReport(w.pc) {
      forall r, v | r in w.report && v in st'.tasks && Uses(st'.tasks[v], r.id) ensures r.processing {
        if v == t {
          UsesAfter(st, k, ch, r.id);
        }
      }
    }
  }

  // If the step lets `t` use the slot of `u`, it is of the same session.
  lemma OtherUses(st: State, t: TaskId, ch: Choice, u: TaskId, id: SlotId)
    requires Fits(st) && t in st.tasks && u in st.tasks && u != t && Uses(st.tasks[u], id)
    ensures OnlyUsedBy(Step(st, t, ch).tasks, id, st.tasks[u].session)
    ensures Relabels(st.tasks[t], id) && !st.tasks[t].pc.Quit? ==> st.tasks[t].session == st.tasks[u].session
  {
    hide TaskAfter, SlotsAfter, DiskAfter, GateAfter, MutexAfter;
    var k, w := st.tasks[t], st.tasks[u];
    assert TaskFits(st.tasks, st.slots, k) && TaskFits(st.tasks, st.slots, w);
    SessionStays(st, k, ch);
    if Uses(TaskAfter(st, k, ch), id) {
      UsesAfter(st, k, ch, id);
    }
  }

  // An admission's slot is not given to anybody else meanwhile.
  lemma OtherTargets(st: State, t: TaskId, ch: Choice, u: TaskId, id: SlotId)
    requires Serial(st) && Fits(st) && t in st.tasks && u in st.tasks && u != t && Target(st.tasks[u]) == Some(id)
    ensures OnlyUsedBy(Step(st, t, ch).tasks, id, st.tasks[u].session)
    ensures Relabels(st.tasks[t], id) ==> st.tasks[t].pc.Quit?
  {
    hide TaskAfter, SlotsAfter, DiskAfter, GateAfter, MutexAfter;
    var k, w := st.tasks[t], st.tasks[u];
    assert TaskFits(st.tasks, st.slots, w) && Admitting(w);
    SessionStays(st, k, ch);
    if Uses(TaskAfter(st, k, ch), id) {
      UsesAfter(st, k, ch, id);
    }
  }

  // --------------------------------------------------------- the request itself

  // A slot carrying a session is used by that session alone.
  lemma LabelledIsOwn(st: State, id: SlotId, s: Session)
    requires Fits(st) && Label(st.slots, id) == Some(s)
    ensures OnlyUsedBy(st.tasks, id, s)
  {
    forall u | u in st.tasks && Uses(st.tasks[u], id) ensures st.tasks[u].session == s {
      assert TaskFits(st.tasks, st.slots, st.tasks[u]);
    }
  }

  // While `t` is being admitted nobody claims, so an honest report covers all users.
  lemma ReportCovers(st: State, t: TaskId, ch: Choice)
    requires Serial(st) && t in st.tasks && HonestAct(st, Act(t, ch)) && ch.ok
    requires st.tasks[t].pc.AskSlots? || st.tasks[t].pc.AskVictims?
    ensures forall r, u | r in ch.report && u in st.tasks && Uses(st.tasks[u], r.id) :: r.processing
  {
    forall r, u | r in ch.report && u in st.tasks && Uses(st.tasks[u], r.id) ensures r.processing {
      assert Admitting(st.tasks[t]) && u != t;
      assert Serves(st.tasks[u], r.id);
    }
  }

  lemma FitsAt(st: State, t: TaskId)
    requires Fits(st) && t in st.tasks
    ensures TaskFits(st.tasks, st.slots, st.tasks[t])
  {
  }

  // A request that neither serves nor claims, and has no slot in view.
  lemma NothingInView(tasks: map<TaskId, Task>, slots: Slots, k: Task)
    requires !k.pc.Serve? && !Claiming(k) && Target(k) == None && !HasReport(k.pc)
    requires LookingUp(k.pc) || Evicting(k.pc) || (Publishing(k.pc) && k.job.evicting) ==> k.steer == None
    ensures TaskFits(tasks, slots, k)
  {
  }

  lemma HotFits(st: State, t: TaskId, ch: Choice)
    requires Fits(st) && t in st.tasks && st.tasks[t].pc.HotScan?
    ensures TaskFits(st.tasks, st.slots, LookupNext(st, st.tasks[t], ch))
  {
    hide Fits, HotSlot;
    var k := st.tasks[t];
    FitsAt(st, t);
    HotSlotFacts(st.slots, ch.order, k.session);
    match HotSlot(st.slots, ch.order, k.session)
    case Some(id) => LabelledIsOwn(st, id, k.session);
    case None => NothingInView(st.tasks, st.slots, At(k, AskSlots));
  }

  lemma AskFits(st: State, t: TaskId, ch: Choice)
    requires Serial(st) && Fits(st) && t in st.tasks && st.tasks[t].pc.AskSlots? && HonestAct(st, Act(t, ch))
    ensures TaskFits(st.tasks, st.slots, LookupNext(st, st.tasks[t], ch))
  {
    hide HonestAct, Serial, Fits;
    FitsAt(st, t);
    if ch.ok {
      ReportCovers(st, t, ch);
    } else {
      NothingInView(st.tasks, st.slots, st.tasks[t].(pick := NoSlot, pc := LeaveRead));
    }
  }

  lemma FreeFits(st: State, t: TaskId, ch: Choice)
    requires Fits(st) && t in st.tasks && st.tasks[t].pc.FreeScan?
    ensures TaskFits(st.tasks, FirstFree(st.slots, st.tasks[t].report).0, LookupNext(st, st.tasks[t], ch))
  {
    hide Fits, FirstFree;
    FitsAt(st, t);
    FirstFreeFacts(st.slots, st.tasks[t].report);
  }

  lemma LookGoesOn(st: State, t: TaskId, ch: Choice)
    requires Fits(st) && t in st.tasks && LookingUp(st.tasks[t].pc)
    requires !st.tasks[t].pc.HotScan? && !st.tasks[t].pc.AskSlots? && !st.tasks[t].pc.FreeScan?
    ensures TaskFits(st.tasks, st.slots, LookupNext(st, st.tasks[t], ch))
  {
    hide Fits, OnlyUsedBy;
    FitsAt(st, t);
    var k := st.tasks[t];
    if !k.pc.LeaveRead? && !k.pc.FreeLock? {
      NothingInView(st.tasks, st.slots, LookupNext(st, k, ch));
    }
  }

  lemma LookFits(st: State, t: TaskId, ch: Choice)
    requires Serial(st) && Fits(st) && t in st.tasks && LookingUp(st.tasks[t].pc) && HonestAct(st, Act(t, ch))
    ensures TaskFits(st.tasks, SlotsAfter(st.slots, st.tasks[t]), LookupNext(st, st.tasks[t], ch))
  {
    hide HonestAct, Serial, Fits, TaskFits, LookupNext;
    match st.tasks[t].pc
    case HotScan => HotFits(st, t, ch);
    case AskSlots => AskFits(st, t, ch);
    case FreeScan => FreeFits(st, t, ch);
    case _ => LookGoesOn(st, t, ch);
  }

  lemma EvictFits(st: State, t: TaskId, ch: Choice)
    requires Serial(st) && Fits(st) && t in st.tasks && Evicting(st.tasks[t].pc) && HonestAct(st, Act(t, ch))
    ensures TaskFits(st.tasks, SlotsAfter(st.slots, st.tasks[t]), EvictNext(st, st.tasks[t], ch))
  {
    hide HonestAct, Serial, Fits, FirstDirty;
    var k := st.tasks[t];
    FitsAt(st, t);
    if k.pc.AskVictims? && ch.ok {
      ReportCovers(st, t, ch);
    } else if k.pc.VictimScan? {
      FirstDirtyFacts(st.slots, k.report);
    }
  }

  lemma PublishFits(st: State, k: Task, ch: Choice)
    requires Publishing(k.pc) && TaskFits(st.tasks, st.slots, k)
    ensures TaskFits(st.tasks, SlotsAfter(st.slots, k), PublishNext(st.disk, k, ch))
  {
    hide OnlyUsedBy, PublishNext, SlotsAfter;
    if k.pc.LeaveWrite? {
      PublishEnds(st, k, ch);
    } else {
      PublishKeepsJob(st.disk, k, ch);
    }
  }

  lemma PublishEnds(st: State, k: Task, ch: Choice)
    requires k.pc.LeaveWrite? && TaskFits(st.tasks, st.slots, k)
    ensures TaskFits(st.tasks, SlotsAfter(st.slots, k), PublishNext(st.disk, k, ch))
  {
    hide OnlyUsedBy;
  }

  lemma SteerFits(tasks: map<TaskId, Task>, slots: Slots, k: Task, ch: Choice)
    requires (k.pc.Restore? || k.pc.MarkLock? || k.pc.Mark?) && TaskFits(tasks, slots, k)
    ensures TaskFits(tasks, SlotsAfter(slots, k), TurnNext(k, ch))
  {
    hide OnlyUsedBy, SlotsAfter;
    if k.steer.Some? {
      LabelsAfter(slots, k, k.steer.value);
    }
  }

  lemma ServeFits(tasks: map<TaskId, Task>, slots: Slots, k: Task, ch: Choice)
    requires (k.pc.Serve? || Claiming(k)) && TaskFits(tasks, slots, k)
    ensures TaskFits(tasks, SlotsAfter(slots, k), TurnNext(k, ch))
  {
    hide OnlyUsedBy, SlotsAfter;
    var k' := TurnNext(k, ch);
    if Claiming(k') {
      forall id | Uses(k', id)
        ensures OnlyUsedBy(tasks, id, k.session) && LabelAllows(SlotsAfter(slots, k), id, k.session)
      {
        assert Uses(k, id);
        LabelsAfter(slots, k, id);
      }
    } else {
      NothingInView(tasks, SlotsAfter(slots, k), k');
    }
  }

  lemma RestFits(tasks: map<TaskId, Task>, slots: Slots, k: Task, ch: Choice)
    requires k.pc.QuitLock? || k.pc.Quit? || k.pc.ScanDir? || k.pc.Delete? || k.pc.Finished?
    ensures TaskFits(tasks, slots, TurnNext(k, ch))
  {
    NothingInView(tasks, slots, TurnNext(k, ch));
  }

  // The dispatch: the one step by which a request comes to use a slot.
  lemma DispatchFits(st: State, t: TaskId, ch: Choice)
    requires Fits(st) && t in st.tasks && st.tasks[t].pc.Dispatch?
    ensures TaskFits(st.tasks[t := TurnNext(st.tasks[t], ch)], st.slots, TurnNext(st.tasks[t], ch))
  {
    var k := st.tasks[t];
    FitsAt(st, t);
    if ch.ok {
      ServedFits(st, t, k);
    } else {
      NothingInView(st.tasks[t := At(k, Finished)], st.slots, At(k, Finished));
    }
  }

  lemma ServedFits(st: State, t: TaskId, k: Task)
    requires t in st.tasks && st.tasks[t] == k && k.pc.Dispatch? && TaskFits(st.tasks, st.slots, k)
    ensures TaskFits(st.tasks[t := At(k, Serve)], st.slots, At(k, Serve))
  {
    var tasks' := st.tasks[t := At(k, Serve)];
    forall id | Uses(At(k, Serve), id)
      ensures OnlyUsedBy(tasks', id, k.session) && LabelAllows(st.slots, id, k.session)
    {
    }
  }

  // The request's own entry adds nothing new, unless it is the dispatch.
  lemma SelfFits(st: State, t: TaskId, ch: Choice, slots: Slots)
    requires t in st.tasks && !st.tasks[t].pc.Dispatch? && Fits(st)
    requires TaskFits(st.tasks, slots, TaskAfter(st, st.tasks[t], ch))
    requires HasReport(TaskAfter(st, st.tasks[t], ch).pc) ==> Admitting(st.tasks[t])
    ensures TaskFits(st.tasks[t := TaskAfter(st, st.tasks[t], ch)], slots, TaskAfter(st, st.tasks[t], ch))
  {
    hide TaskAfter;
    var k, k' := st.tasks[t], TaskAfter(st, st.tasks[t], ch);
    var tasks' := st.tasks[t := k'];
    SessionStays(st, k, ch);
    forall id | OnlyUsedBy(st.tasks, id, k'.session) ensures OnlyUsedBy(tasks', id, k'.session) {
    }
    if HasReport(k'.pc) {
      forall r, u | r in k'.report && u in tasks' && Uses(tasks'[u], r.id) ensures r.processing {
        assert u != t;
      }
    }
  }

  lemma ReportsWhileAdmitting(st: State, k: Task, ch: Choice)
    ensures HasReport(TaskAfter(st, k, ch).pc) ==> Admitting(k)
  {
    hide TurnNext, PublishNext;
    if Publishing(k.pc) {
      PublishReports(st.disk, k, ch);
    } else if !LookingUp(k.pc) && !Evicting(k.pc) {
      TurnReports(k, ch);
    }
  }

  lemma PublishReports(d: Disk, k: Task, ch: Choice)
    requires Publishing(k.pc)
    ensures !HasReport(PublishNext(d, k, ch).pc)
  {
  }

  lemma TurnReports(k: Task, ch: Choice)
    requires !LookingUp(k.pc) && !Evicting(k.pc) && !Publishing(k.pc)
    ensures !HasReport(TurnNext(k, ch).pc)
  {
  }

  lemma OwnFits(st: State, t: TaskId, ch: Choice)
    requires Serial(st) && Fits(st) && t in st.tasks && HonestAct(st, Act(t, ch))
    ensures TaskFits(Step(st, t, ch).tasks, Step(st, t, ch).slots, TaskAfter(st, st.tasks[t], ch))
  {
    hide Serial, Fits, TaskFits, HonestAct, LookupNext, EvictNext, PublishNext, TurnNext, DiskAfter, GateAfter,
      MutexAfter, SlotsAfter;
    var k := st.tasks[t];
    FitsAt(st, t);
    var slots' := SlotsAfter(st.slots, k);
    if k.pc.Dispatch? {
      DispatchFits(st, t, ch);
      DispatchKeepsSlots(st.slots, k);
    } else {
      if LookingUp(k.pc) {
        LookFits(st, t, ch);
      } else if Evicting(k.pc) {
        EvictFits(st, t, ch);
      } else if Publishing(k.pc) {
        PublishFits(st, k, ch);
      } else if k.pc.Serve? || Claiming(k) {
        ServeFits(st.tasks, st.slots, k, ch);
      } else if k.pc.Restore? || k.pc.MarkLock? || k.pc.Mark? {
        SteerFits(st.tasks, st.slots, k, ch);
      } else {
        RestFits(st.tasks, slots', k, ch);
      }
      ReportsWhileAdmitting(st, k, ch);
      SelfFits(st, t, ch, slots');
    }
  }

  lemma DispatchKeepsSlots(slots: Slots, k: Task)
    requires k.pc.Dispatch?
    ensures SlotsAfter(slots, k) == slots
  {
  }

  lemma DoFits(st: State, a: Action)
    requires Serial(st) && Fits(st) && Possible(st, a) && HonestAct(st, a)
    ensures Fits(Do(st, a))
  {
    hide Serial, TaskFits, HonestAct, Step;
    match a
    case Arrive(t, s) => ArriveFits(st, t, s);
    case Act(t, ch) => ActFits(st, t, ch);
    case Drop(t) => DropFits(st, t);
    case Crash(_, _) =>
  }

  lemma ArriveFits(st: State, t: TaskId, s: Session)
    requires Fits(st) && t !in st.tasks
    ensures Fits(st.(tasks := st.tasks[t := NewTask(s)]))
  {
    var tasks' := st.tasks[t := NewTask(s)];
    forall u | u in tasks' ensures TaskFits(tasks', st.slots, tasks'[u]) {
      if u != t {
        assert TaskFits(st.tasks, st.slots, st.tasks[u]);
      }
    }
  }

  lemma DropFits(st: State, t: TaskId)
    requires Fits(st) && t in st.tasks && Droppable(st.tasks[t])
    ensures Fits(Dropped(st, t))
  {
    var tasks' := st.tasks[t := At(st.tasks[t], Finished)];
    forall u | u in tasks' ensures TaskFits(tasks', st.slots, tasks'[u]) {
      if u == t {
        NothingInView(tasks', st.slots, tasks'[u]);
      } else {
        assert TaskFits(st.tasks, st.slots, st.tasks[u]);
      }
    }
  }

  lemma ActFits(st: State, t: TaskId, ch: Choice)
    requires Serial(st) && Fits(st) && t in st.tasks && HonestAct(st, Act(t, ch))
    ensures Fits(Step(st, t, ch))
  {
    hide Serial, TaskFits, HonestAct, TaskAfter, SlotsAfter, DiskAfter, GateAfter, MutexAfter;
    forall u | u in Step(st, t, ch).tasks
      ensures TaskFits(Step(st, t, ch).tasks, Step(st, t, ch).slots, Step(st, t, ch).tasks[u])
    {
      if u == t {
        OwnFits(st, t, ch);
      } else {
        OtherFits(st, t, ch, u);
      }
    }
  }

  lemma {:induction false} RunFits(st: State, acts: seq<Action>)
    requires Fits(st) && IsSerialRun(st, acts)
    ensures IsRun(st, acts) && Fits(Run(st, acts))
    decreases |acts|
  {
    hide Fits, Do, Possible, HonestAct, Serial;
    if acts != [] {
      DoFits(st, acts[0]);
      RunFits(Do(st, acts[0]), acts[1..]);
    }
  }

  /**
    Slot exclusion in small steps, for every run whose admissions overlap neither
    each other nor a claim at a turn's end: requests being served on one slot are
    of one session, and the registry names that session there or none.
   */
  lemma SerialExclusion(acts: seq<Action>, t: TaskId, u: TaskId, id: SlotId)
    requires IsRun(INIT, acts) && IsSerialRun(INIT, acts)
    requires t in Run(INIT, acts).tasks && u in Run(INIT, acts).tasks
    requires Serves(Run(INIT, acts).tasks[t], id) && Serves(Run(INIT, acts).tasks[u], id)
    ensures var end := Run(INIT, acts);
            && end.tasks[t].session == end.tasks[u].session
            && LabelAllows(end.slots, id, end.tasks[t].session)
  {
    hide Run, IsRun, IsSerialRun;
    RunFits(INIT, acts);
    var end := Run(INIT, acts);
    FitsAt(end, t);
  }
}
