/**
  An undisturbed request from its arrival to its end. What it hears on its way, step
  by step, decides everything: its admission is `Registry.Admit` for those answers;
  a refused dispatch ends it there; an accepted one ends as `Registry.FinishTurn`,
  as `Registry.AbandonTurn` or with nothing changed, as the stream ended.
 */
module SoloRequest {
  import opened Options
  import opened Registry
  import opened Steps
  import opened GateTheorems
  import opened BlobTheorems
  import opened SoloAdmission
  import opened SoloRuns

  // --------------------------------------------------------- what was answered

  predicate OnlyOf(acts: seq<Action>, t: TaskId) {
    forall a | a in acts :: a.Act? && a.t == t
  }

  /** The answer to the first step taken at `pc`, if there is one. */
  function ChoiceAt(st: State, t: TaskId, acts: seq<Action>, pc: Pc): Option<Choice>
    requires t in st.tasks && OnlyOf(acts, t)
    decreases |acts|
  {
    if acts == [] then None
    else if st.tasks[t].pc == pc then Some(acts[0].choice)
    else ChoiceAt(Step(st, t, acts[0].choice), t, acts[1..], pc)
  }

  function ReportHeard(answer: Option<Choice>): Option<seq<SlotState>> {
    match answer
    case Some(ch) => if ch.ok then Some(ch.report) else None
    case None => None
  }

  predicate CanFailSave(pc: Pc) {
    pc.EndSave? || pc.OpenScratch? || pc.SyncFile? || pc.RenameBlob?
  }

  /** How the next publish ends: at the first call that fails, or at its mark. */
  function SaveHeard(st: State, t: TaskId, acts: seq<Action>): SaveOutcome
    requires t in st.tasks && OnlyOf(acts, t)
    decreases |acts|
  {
    if acts == [] || st.tasks[t].pc.Clean? then Published
    else if CanFailSave(st.tasks[t].pc) && !acts[0].choice.ok then SaveFailed
    else if st.tasks[t].pc.SyncDir? && !acts[0].choice.joined then RenamedOnly
    else SaveHeard(Step(st, t, acts[0].choice), t, acts[1..])
  }

  /** The environment of an admission, as these steps have met it. */
  function Heard(st: State, t: TaskId, acts: seq<Action>): Env
    requires t in st.tasks && OnlyOf(acts, t)
  {
    var scan, restore := ChoiceAt(st, t, acts, HotScan), ChoiceAt(st, t, acts, Restore);
    Env(if scan.Some? then scan.value.order else [],
        ReportHeard(ChoiceAt(st, t, acts, AskSlots)),
        ReportHeard(ChoiceAt(st, t, acts, AskVictims)),
        SaveHeard(st, t, acts),
        restore.Some? && restore.value.ok)
  }

  /** The sessions whose blobs these deletions, one for each planned name, remove. */
  function Removals(acts: seq<Action>, plan: seq<Name>): set<Session> {
    if acts == [] || plan == [] then {}
    else
      (if acts[0].Act? && acts[0].choice.ok && plan[0].Blob? then {plan[0].s} else {})
      + Removals(acts[1..], plan[1..])
  }

  function GoneHeard(st: State, t: TaskId, acts: seq<Action>): set<Session>
    requires t in st.tasks && OnlyOf(acts, t)
    decreases |acts|
  {
    if acts == [] then {}
    else if st.tasks[t].pc.ScanDir? then Removals(acts[1..], acts[0].choice.plan)
    else GoneHeard(Step(st, t, acts[0].choice), t, acts[1..])
  }

  /** How a turn ends, as these steps have met it. */
  function FateHeard(st: State, t: TaskId, acts: seq<Action>): Fate
    requires t in st.tasks && OnlyOf(acts, t)
  {
    match ChoiceAt(st, t, acts, Serve)
    case None => Breaks
    case Some(ch) =>
      match ch.turn
      case Ended => Finishes(SaveHeard(st, t, acts), GoneHeard(st, t, acts))
      case Disconnected => HangsUp
      case Broken => Breaks
  }

  // ------------------------------------------------------------------- paths

  lemma PathHead(st: State, t: TaskId, acts: seq<Action>, end: State) returns (ch: Choice, next: State)
    requires Path(st, t, acts, end) && acts != []
    ensures acts[0] == Act(t, ch) && Enabled(st, t) && next == Step(st, t, ch)
    ensures OnlyOf(acts, t) && OnlyOf(acts[1..], t) && Path(next, t, acts[1..], end)
  {
    assert acts[0] in acts;
    ch := acts[0].choice;
    next := Step(st, t, ch);
    assert Do(st, acts[0]) == next;
  }

  lemma PathOnly(st: State, t: TaskId, acts: seq<Action>, end: State)
    requires Path(st, t, acts, end)
    ensures OnlyOf(acts, t) && (acts == [] ==> end == st)
  {
  }

  // A request never comes back to a place behind it.
  lemma {:induction false} Unheard(st: State, t: TaskId, acts: seq<Action>, end: State, pc: Pc)
    requires Path(st, t, acts, end) && t in st.tasks && OnlyOf(acts, t)
    requires !Publishing(pc) && Position(st.tasks[t]) < Position(At(st.tasks[t], pc))
    ensures ChoiceAt(st, t, acts, pc) == None
    decreases |acts|
  {
    if acts != [] {
      hide Path, Step, Position;
      var ch, next := PathHead(st, t, acts, end);
      EveryStepAdvances(st, t, ch);
      SamePosition(st.tasks[t], next.tasks[t], pc);
      NotThere(st.tasks[t], pc);
      Unheard(next, t, acts[1..], end, pc);
    }
  }

  lemma NotThere(k: Task, pc: Pc)
    requires Position(k) < Position(At(k, pc))
    ensures k.pc != pc
  {
    assert k.pc == pc ==> At(k, pc) == k;
  }

  lemma SamePosition(k: Task, k': Task, pc: Pc)
    requires !Publishing(pc)
    ensures Position(At(k, pc)) == Position(At(k', pc))
  {
  }

  // ------------------------------------------------- an admission and its answers

  // Until its publish for the victim is over.
  predicate Undecided(k: Task) {
    LookingUp(k.pc) || Evicting(k.pc) || (Publishing(k.pc) && k.job.evicting && !k.pc.LeaveWrite?)
  }

  // These steps tell what `e` says of the slots.
  ghost predicate AgreeOnSlots(e: Env, st: State, t: TaskId, acts: seq<Action>)
    requires t in st.tasks && OnlyOf(acts, t)
  {
    var scan := ChoiceAt(st, t, acts, HotScan);
    var slots, victims := ChoiceAt(st, t, acts, AskSlots), ChoiceAt(st, t, acts, AskVictims);
    && (scan.Some? ==> e.order == scan.value.order)
    && (slots.Some? ==> e.firstReport == ReportHeard(slots))
    && (victims.Some? ==> e.secondReport == ReportHeard(victims))
  }

  // And what it says of the save.
  ghost predicate AgreeOnSave(e: Env, st: State, t: TaskId, acts: seq<Action>)
    requires t in st.tasks && OnlyOf(acts, t)
  {
    Undecided(st.tasks[t]) ==> e.save == SaveHeard(st, t, acts)
  }

  ghost predicate Agree(e: Env, st: State, t: TaskId, acts: seq<Action>)
    requires t in st.tasks && OnlyOf(acts, t)
  {
    AgreeOnSlots(e, st, t, acts) && AgreeOnSave(e, st, t, acts)
  }

  // A publish keeps its scratch file until it renames it.
  predicate HasScratch(d: Disk, k: Task) {
    CanFailSave(k.pc) ==> Scratch(k.job.session) in d.dir
  }

  lemma ScratchNext(st: State, k: Task, ch: Choice)
    requires HasScratch(st.disk, k)
    ensures HasScratch(DiskAfter(st.disk, k, ch), TaskAfter(st, k, ch))
  {
    hide LookupNext, EvictNext, PublishNext, TurnNext, DiskAfter;
    if LookingUp(k.pc) {
      LookupNeverSaves(st, k, ch);
    } else if Evicting(k.pc) {
      EvictNeverSaves(st, k, ch);
    } else if Publishing(k.pc) {
      PublishScratch(st.disk, k, ch);
    } else {
      TurnNeverSaves(k, ch);
    }
  }

  lemma PublishScratch(d: Disk, k: Task, ch: Choice)
    requires Publishing(k.pc) && HasScratch(d, k)
    ensures HasScratch(DiskAfter(d, k, ch), PublishNext(d, k, ch))
  {
    if k.pc.LeaveWrite? {
      LeavesSaving(d, k, ch);
    }
  }

  lemma LeavesSaving(d: Disk, k: Task, ch: Choice)
    requires k.pc.LeaveWrite?
    ensures !CanFailSave(PublishNext(d, k, ch).pc)
  {
  }

  lemma LookupNeverSaves(st: State, k: Task, ch: Choice)
    requires LookingUp(k.pc)
    ensures !CanFailSave(LookupNext(st, k, ch).pc)
  {
  }

  lemma EvictNeverSaves(st: State, k: Task, ch: Choice)
    requires Evicting(k.pc)
    ensures !CanFailSave(EvictNext(st, k, ch).pc)
  {
  }

  lemma TurnNeverSaves(k: Task, ch: Choice)
    requires !LookingUp(k.pc) && !Evicting(k.pc) && !Publishing(k.pc)
    ensures !CanFailSave(TurnNext(k, ch).pc)
  {
  }

  // Which steps end a publish, and how.
  lemma PublishEnds(d: Disk, k: Task, ch: Choice)
    requires Publishing(k.pc) && !k.pc.LeaveWrite? && HasScratch(d, k)
    ensures PublishNext(d, k, ch).pc.LeaveWrite? <==>
              || (CanFailSave(k.pc) && !ch.ok) || (k.pc.SyncDir? && !ch.joined) || k.pc.Clean?
    ensures CanFailSave(k.pc) ==> OutcomeAt(k) == SaveFailed
    ensures k.pc.SyncDir? ==> OutcomeAt(k) == RenamedOnly
    ensures k.pc.Clean? ==> OutcomeAt(k) == Published
  {
  }

  lemma StepOfPublish(st: State, k: Task, ch: Choice)
    requires Publishing(k.pc)
    ensures TaskAfter(st, k, ch) == PublishNext(st.disk, k, ch)
  {
    hide PublishNext;
  }

  // The same environment but for how the save ends, which is not yet known.
  predicate SaveApart(e: Env, e': Env) {
    e' == e.(save := e'.save)
  }

  lemma SlotsNext(e: Env, st: State, t: TaskId, acts: seq<Action>, end: State, ch: Choice, next: State)
    requires acts != [] && acts[0] == Act(t, ch) && t in st.tasks && next == Step(st, t, ch)
    requires OnlyOf(acts, t) && OnlyOf(acts[1..], t) && Path(next, t, acts[1..], end)
    requires AgreeOnSlots(e, st, t, acts)
    ensures AgreeOnSlots(e, next, t, acts[1..])
    ensures !Publishing(st.tasks[t].pc) || st.tasks[t].pc.LeaveWrite? ==> Hears(e, st.tasks[t], ch) == e
  {
    hide Path, TaskAfter, SlotsAfter, DiskAfter, GateAfter, MutexAfter, Position, Enabled, OutcomeAt;
    var k := st.tasks[t];
    if k.pc.HotScan? || k.pc.AskSlots? || k.pc.AskVictims? {
      Ahead(st, k, ch);
      Unheard(next, t, acts[1..], end, k.pc);
    }
  }

  lemma SaveNext(e: Env, st: State, t: TaskId, acts: seq<Action>, ch: Choice, next: State)
    requires acts != [] && acts[0] == Act(t, ch) && t in st.tasks && next == Step(st, t, ch)
    requires OnlyOf(acts, t) && OnlyOf(acts[1..], t)
    requires AgreeOnSave(e, st, t, acts) && HasScratch(st.disk, st.tasks[t])
    ensures AgreeOnSave(e, next, t, acts[1..])
    ensures Publishing(st.tasks[t].pc) ==> SaveApart(e, Hears(e, st.tasks[t], ch))
    ensures Undecided(st.tasks[t]) && next.tasks[t].pc.LeaveWrite? ==> Hears(e, st.tasks[t], ch) == e
  {
    hide TaskAfter, PublishNext, SlotsAfter, DiskAfter, GateAfter, MutexAfter, OutcomeAt;
    var k := st.tasks[t];
    Undone(st, k, ch);
    if Publishing(k.pc) && !k.pc.LeaveWrite? {
      PublishEnds(st.disk, k, ch);
      StepOfPublish(st, k, ch);
    } else if Undecided(k) {
      NotYetLeaving(st, k, ch);
    }
  }

  lemma NotYetLeaving(st: State, k: Task, ch: Choice)
    requires Undecided(k) && !Publishing(k.pc)
    ensures !TaskAfter(st, k, ch).pc.LeaveWrite?
  {
    hide HotSlot, FirstFree, FirstDirty;
  }

  lemma Ahead(st: State, k: Task, ch: Choice)
    requires k.pc.HotScan? || k.pc.AskSlots? || k.pc.AskVictims?
    ensures Position(TaskAfter(st, k, ch)) < Position(At(TaskAfter(st, k, ch), k.pc))
  {
    hide HotSlot;
  }

  lemma Undone(st: State, k: Task, ch: Choice)
    ensures Undecided(TaskAfter(st, k, ch)) ==> Undecided(k)
  {
    hide LookupNext, EvictNext, PublishNext, TurnNext;
    if Publishing(k.pc) {
      if k.pc.LeaveWrite? {
        LeaveDecides(st.disk, k, ch);
      } else {
        PublishKeepsJob(st.disk, k, ch);
      }
    } else if !LookingUp(k.pc) && !Evicting(k.pc) {
      TurnDecided(k, ch);
    }
  }

  lemma LeaveDecides(d: Disk, k: Task, ch: Choice)
    requires k.pc.LeaveWrite?
    ensures !Undecided(PublishNext(d, k, ch))
  {
  }

  lemma TurnDecided(k: Task, ch: Choice)
    requires !LookingUp(k.pc) && !Evicting(k.pc) && !Publishing(k.pc)
    ensures !Undecided(TurnNext(k, ch))
  {
  }

  lemma StepIsNext(st: State, t: TaskId, ch: Choice)
    requires t in st.tasks
    ensures t in Step(st, t, ch).tasks && Step(st, t, ch).tasks[t] == TaskAfter(st, st.tasks[t], ch)
    ensures Step(st, t, ch).slots == SlotsAfter(st.slots, st.tasks[t])
    ensures Step(st, t, ch).disk == DiskAfter(st.disk, st.tasks[t], ch)
  {
  }

  // ------------------------------------------------------------- the admission

  // The state an undisturbed request has reached.
  ghost predicate Reached(c: Core, s: Session, e: Env, st: State, t: TaskId, held: Memory) {
    && Alone(st, t) && Sound(st.disk) && Knows(st.disk, st.tasks[t]) && HasScratch(st.disk, st.tasks[t])
    && held.Keys == st.disk.saves.Keys && Said(c, s, e, st.tasks[t], st.slots, st.disk, held)
  }

  // How a save ends matters only once it has ended.
  lemma SaidApart(
      c: Core, s: Session, e: Env, e': Env, k: Task, slots: Slots, d: Disk, held: Memory)
    requires Said(c, s, e', k, slots, d, held) && SaveApart(e', e)
    requires Publishing(k.pc) && (k.pc.LeaveWrite? ==> e' == e)
    ensures Said(c, s, e, k, slots, d, held)
  {
    hide Reads, HotSlot, FirstFree, FirstDirty, SaveSlot;
    assert EvictionBase(c, s, e) == EvictionBase(c, s, e');
  }

  // Told of all answers, `Said` is kept by every step.
  lemma SaidOnward(c: Core, s: Session, e: Env, st: State, k: Task, held: Memory, ch: Choice)
    requires Said(c, s, e, k, st.slots, st.disk, held) && Sound(st.disk) && Knows(st.disk, k)
    requires !Publishing(k.pc) || k.pc.LeaveWrite? ==> Hears(e, k, ch) == e
    requires Publishing(k.pc) ==> SaveApart(e, Hears(e, k, ch))
    requires Undecided(k) && TaskAfter(st, k, ch).pc.LeaveWrite? ==> Hears(e, k, ch) == e
    ensures Said(c, s, e, TaskAfter(st, k, ch), SlotsAfter(st.slots, k), DiskAfter(st.disk, k, ch),
                 HeldAfter(held, st.disk, k, ch, Held(c.kv, k.job.slot)))
  {
    hide Said, Sound, Knows, TaskAfter, SlotsAfter, DiskAfter, HeldAfter, Hears, PublishNext;
    var k', e' := TaskAfter(st, k, ch), Hears(e, k, ch);
    var slots, d := SlotsAfter(st.slots, k), DiskAfter(st.disk, k, ch);
    var later := HeldAfter(held, st.disk, k, ch, Held(c.kv, k.job.slot));
    SaidNext(c, s, e, st, k, held, ch);
    if Publishing(k.pc) && !k.pc.LeaveWrite? {
      StepOfPublish(st, k, ch);
      PublishKeepsJob(st.disk, k, ch);
      if k.job.evicting {
        SaidApart(c, s, e, e', k', slots, d, later);
      } else {
        SaidParts(c, s, e, st, k, held);
        PastNext(st, k, ch);
        PastSaid(c, s, e, e, k', slots, d, later);
      }
    }
  }

  lemma ReachedNext(
      c: Core, s: Session, e: Env, st: State, t: TaskId, held: Memory, acts: seq<Action>, end: State)
      returns (next: State, later: Memory)
    requires Reached(c, s, e, st, t, held) && Path(st, t, acts, end) && acts != [] && OnlyOf(acts, t)
    requires t in st.tasks && Agree(e, st, t, acts)
    ensures OnlyOf(acts[1..], t) && Path(next, t, acts[1..], end)
    ensures t in next.tasks && Reached(c, s, e, next, t, later) && Agree(e, next, t, acts[1..])
    ensures Learns(held, later, next.disk, c.kv) && SavesGrow(st.disk, next.disk)
  {
    hide Path, Alone, Enabled, Sound, Knows, HasScratch, Said, DiskAfter, SlotsAfter, TaskAfter, HeldAfter, Hears,
      GateAfter, MutexAfter, Learns, SavesGrow, AgreeOnSlots, AgreeOnSave, SaveApart, Undecided;
    var k := st.tasks[t];
    var ch, after := PathHead(st, t, acts, end);
    next, later := after, HeldAfter(held, st.disk, k, ch, Held(c.kv, k.job.slot));
    SlotsNext(e, st, t, acts, end, ch, next);
    SaveNext(e, st, t, acts, ch, next);
    AloneStep(st, t, ch);
    SoundNext(st, k, ch);
    ScratchNext(st, k, ch);
    SaidOnward(c, s, e, st, k, held, ch);
    LearnsNext(st.disk, k, ch, held, c.kv);
  }

  lemma {:induction false} ReachedEnd(
      c: Core, s: Session, e: Env, st: State, t: TaskId, held: Memory, acts: seq<Action>, end: State)
      returns (later: Memory)
    requires Reached(c, s, e, st, t, held) && Path(st, t, acts, end) && OnlyOf(acts, t)
    requires t in st.tasks && Agree(e, st, t, acts)
    ensures Reached(c, s, e, end, t, later)
    ensures Learns(held, later, end.disk, c.kv) && SavesGrow(st.disk, end.disk)
    decreases |acts|
  {
    hide Reached, Learns, SavesGrow, Agree, Path;
    if acts == [] {
      later := held;
      PathOnly(st, t, acts, end);
      LearnsNothing(held, end.disk, c.kv);
    } else {
      var next, h1 := ReachedNext(c, s, e, st, t, held, acts, end);
      later := ReachedEnd(c, s, e, next, t, h1, acts[1..], end);
      LearnsMore(held, h1, later, st.disk, next.disk, end.disk, c.kv);
    }
  }

  lemma LearnsNothing(held: Memory, d: Disk, kv: map<SlotId, KV>)
    ensures Learns(held, held, d, kv) && SavesGrow(d, d)
  {
  }

  lemma LearnsMore(held: Memory, mid: Memory, later: Memory, d: Disk, d1: Disk, d2: Disk, kv: map<SlotId, KV>)
    requires Learns(held, mid, d1, kv) && Learns(mid, later, d2, kv) && SavesGrow(d, d1) && SavesGrow(d1, d2)
    ensures Learns(held, later, d2, kv) && SavesGrow(d, d2)
  {
    LearnsThen(held, mid, later, d1, d2, kv);
  }

  // ----------------------------------------------------------- the restore step

  // Not yet on the way to a slot.
  predicate Deciding(k: Task) {
    && (LookingUp(k.pc) || Evicting(k.pc) || (Publishing(k.pc) && k.job.evicting))
    && k.steer == None && (LookingUp(k.pc) || k.pick == NoSlot)
  }

  predicate Cold(k: Task) {
    k.steer.Some? && !k.pick.Hot? && k.diskHit
  }

  predicate SameSteer(k: Task, k': Task) {
    k'.steer == k.steer && k'.pick == k.pick && k'.diskHit == k.diskHit
  }

  lemma DecidesNext(st: State, k: Task, ch: Choice)
    requires Deciding(k)
    ensures var k' := TaskAfter(st, k, ch);
            || Deciding(k') || (k'.pc.Restore? && Cold(k'))
            || (k'.pc.MarkLock? && k'.steer.Some? && !Cold(k')) || (k'.pc.Dispatch? && !Cold(k'))
  {
    hide LookupNext, EvictNext, PublishNext;
    if LookingUp(k.pc) {
      LookupDecides(st, k, ch);
    } else if Evicting(k.pc) {
      EvictDecides(st, k, ch);
    } else {
      PublishDecides(st.disk, k, ch);
    }
  }

  lemma LookupDecides(st: State, k: Task, ch: Choice)
    requires LookingUp(k.pc) && Deciding(k)
    ensures var k' := LookupNext(st, k, ch);
            Deciding(k') || (k'.pc.Restore? && Cold(k')) || (k'.pc.MarkLock? && k'.steer.Some? && !Cold(k'))
  {
    hide HotSlot, FirstFree;
  }

  lemma EvictDecides(st: State, k: Task, ch: Choice)
    requires Evicting(k.pc) && Deciding(k)
    ensures var k' := EvictNext(st, k, ch);
            || Deciding(k') || (k'.pc.Restore? && Cold(k'))
            || (k'.pc.MarkLock? && k'.steer.Some? && !Cold(k')) || (k'.pc.Dispatch? && !Cold(k'))
  {
    hide FirstDirty;
  }

  lemma PublishDecides(d: Disk, k: Task, ch: Choice)
    requires Publishing(k.pc) && Deciding(k)
    ensures var k' := PublishNext(d, k, ch);
            || Deciding(k') || (k'.pc.Restore? && Cold(k'))
            || (k'.pc.MarkLock? && k'.steer.Some? && !Cold(k')) || (k'.pc.Dispatch? && !Cold(k'))
  {
    if !k.pc.LeaveWrite? {
      PublishKeepsJob(d, k, ch);
    }
  }

  lemma SteeringNext(st: State, k: Task, ch: Choice)
    requires SteeringPc(k.pc)
    ensures var k' := TaskAfter(st, k, ch);
            SameSteer(k, k') && (k'.pc.MarkLock? || k'.pc.Mark? || k'.pc.Dispatch?)
  {
  }

  // On the way to the dispatch a restore is sent exactly to a slot taken cold for
  // a session that has a blob.
  lemma {:induction false} RestoreSent(st: State, t: TaskId, acts: seq<Action>, end: State)
    requires Path(st, t, acts, end) && t in st.tasks && OnlyOf(acts, t)
    requires t in end.tasks && end.tasks[t].pc == Dispatch
    ensures Deciding(st.tasks[t]) ==> (ChoiceAt(st, t, acts, Restore).Some? <==> Cold(end.tasks[t]))
    ensures SteeringPc(st.tasks[t].pc) || st.tasks[t].pc.Dispatch? ==>
              && SameSteer(st.tasks[t], end.tasks[t])
              && (ChoiceAt(st, t, acts, Restore).Some? <==> st.tasks[t].pc.Restore?)
    decreases |acts|
  {
    hide Path, TaskAfter, SlotsAfter, DiskAfter, GateAfter, MutexAfter, Enabled, Deciding;
    var k := st.tasks[t];
    if acts == [] {
      PathOnly(st, t, acts, end);
      NotDeciding(k);
    } else {
      var ch, next := PathHead(st, t, acts, end);
      if k.pc.Dispatch? {
        DispatchIsLast(st, t, acts, end);
      } else {
        RestoreSent(next, t, acts[1..], end);
        if Deciding(k) {
          NotDeciding(k);
          DecidesNext(st, k, ch);
        } else if SteeringPc(k.pc) {
          SteeringNext(st, k, ch);
        }
      }
    }
  }

  lemma NotDeciding(k: Task)
    ensures Deciding(k) ==> !k.pc.Dispatch? && !SteeringPc(k.pc)
  {
  }

  // No path leads from a dispatch to a dispatch.
  lemma DispatchIsLast(st: State, t: TaskId, acts: seq<Action>, end: State)
    requires Path(st, t, acts, end) && t in st.tasks && st.tasks[t].pc == Dispatch
    requires t in end.tasks && end.tasks[t].pc == Dispatch
    ensures acts == []
  {
    hide Path, TaskAfter, Step, Enabled;
    if acts != [] {
      var ch, next := PathHead(st, t, acts, end);
      StepIsNext(st, t, ch);
      PastNext(st, st.tasks[t], ch);
      StaysPast(next, t, acts[1..], end);
    }
  }

  lemma {:induction false} StaysPast(st: State, t: TaskId, acts: seq<Action>, end: State)
    requires Path(st, t, acts, end) && t in st.tasks && Past(st.tasks[t])
    ensures t in end.tasks && Past(end.tasks[t])
    decreases |acts|
  {
    hide Path, TaskAfter, Step, Past, Enabled;
    if acts == [] {
      PathOnly(st, t, acts, end);
    } else {
      var ch, next := PathHead(st, t, acts, end);
      StepIsNext(st, t, ch);
      PastNext(st, st.tasks[t], ch);
      StaysPast(next, t, acts[1..], end);
    }
  }

  lemma AdmissionKinds(c: Core, s: Session, e: Env)
    ensures var a := Admit(c, s, e).1;
            a.Steered? ==>
              && (a.hot <==> PickSlot(c.slots, s, e).1.Hot?)
              && (a.restored <==> !a.hot && s in c.disk && e.restoreWorks)
              && Label(Admit(c, s, e).0.slots, a.id) == Some(s) && Dirty(Admit(c, s, e).0.slots, a.id)
  {
    hide PickSlot, FindEvictable;
  }

  lemma Begins(c: Core, s: Session, e: Env, st: State, t: TaskId, held: Memory)
    requires t in st.tasks && st.tasks[t] == NewTask(s) && Quiet(st) && Sound(st.disk)
    requires st.slots == c.slots && Reads(st.disk, c.disk, held)
    ensures Reached(c, s, e, st, t, held)
  {
    hide Reads, Sound, PickSlot;
    ReadsSaves(st.disk, c.disk, held);
    assert LookSaid(c, s, e, st.tasks[t], st.slots);
  }

  lemma AtDispatch(c: Core, s: Session, e: Env, st: State, t: TaskId, held: Memory)
    requires Reached(c, s, e, st, t, held) && t in st.tasks && st.tasks[t].pc == Dispatch
    ensures Quiet(st) && Sound(st.disk) && Knows(st.disk, st.tasks[t]) && HasScratch(st.disk, st.tasks[t])
    ensures var (c', a) := Admit(c, s, e);
            && st.tasks[t].steer == SteerOf(a) && Kept(c, s, e, st.tasks[t])
            && st.slots == c'.slots && Reads(st.disk, c'.disk, held) && st.tasks[t].session == s
  {
    hide Reads, Sound, Admit, PickSlot;
  }

  /**
    Every undisturbed way to the dispatch is the admission for the answers heard on
    it: the slot, the registry and the content of every visible blob are those of
    `Registry.Admit`, and every save made on the way holds what its slot held. A
    restore is sent exactly to a slot not found hot, for a session that had a blob.
   */
  lemma EverySoloAdmission(
      st: State, t: TaskId, s: Session, c: Core, held: Memory, acts: seq<Action>, end: State)
      returns (later: Memory)
    requires t in st.tasks && st.tasks[t] == NewTask(s) && Quiet(st) && Sound(st.disk)
    requires st.slots == c.slots && Reads(st.disk, c.disk, held)
    requires Path(st, t, acts, end) && t in end.tasks && end.tasks[t].pc == Dispatch
    ensures OnlyOf(acts, t)
    ensures var (c', a) := Admit(c, s, Heard(st, t, acts));
            && Quiet(end) && end.tasks[t].steer == SteerOf(a)
            && end.slots == c'.slots && Reads(end.disk, c'.disk, later)
            && (ChoiceAt(st, t, acts, Restore).Some? <==> a.Steered? && !a.hot && s in c.disk)
            && (a.Steered? && a.restored <==>
                  ChoiceAt(st, t, acts, Restore).Some? && ChoiceAt(st, t, acts, Restore).value.ok)
    ensures Learns(held, later, end.disk, c.kv)
    ensures Sound(end.disk) && end.tasks[t].session == s
  {
    hide Path, Reads, Learns, Sound, Admit, Reached, ChoiceAt, SaveHeard, PickSlot, SavesGrow;
    PathOnly(st, t, acts, end);
    var e := Heard(st, t, acts);
    Begins(c, s, e, st, t, held);
    later := ReachedEnd(c, s, e, st, t, held, acts, end);
    AtDispatch(c, s, e, end, t, later);
    AdmissionKinds(c, s, e);
    RestoreSent(st, t, acts, end);
  }

  // ------------------------------------------------------------------- the turn

  /** `goal` is how it will have ended, by these steps; `fate` what is settled of it. */
  ghost predicate Toward(goal: Fate, fate: Fate, st: State, t: TaskId, acts: seq<Action>)
    requires t in st.tasks && OnlyOf(acts, t)
  {
    var k := st.tasks[t];
    match k.pc
    case Serve => acts != [] && k.steer.Some? && goal == FateHeard(st, t, acts)
    case ClaimLock => k.steer.Some? && goal == Finishes(SaveHeard(st, t, acts), GoneHeard(st, t, acts))
    case Claim => k.steer.Some? && goal == Finishes(SaveHeard(st, t, acts), GoneHeard(st, t, acts))
    case QuitLock => goal == HangsUp
    case Quit => goal == HangsUp
    case ScanDir => goal.Finishes? && fate == Finishes(goal.save, {}) && goal.gone == GoneHeard(st, t, acts)
    case Delete =>
      && goal.Finishes? && fate.Finishes? && fate.save == goal.save
      && goal.gone == fate.gone + Removals(acts, k.plan)
    case Finished => fate == goal
    case LeaveWrite =>
      && !k.job.evicting
      && goal.Finishes? && fate == Finishes(goal.save, {}) && goal.gone == GoneHeard(st, t, acts)
    case _ =>
      && Publishing(k.pc) && !k.job.evicting
      && goal == Finishes(SaveHeard(st, t, acts), GoneHeard(st, t, acts))
  }

  lemma TowardFromServing(goal: Fate, fate: Fate, st: State, t: TaskId, acts: seq<Action>, ch: Choice, next: State)
    requires acts != [] && acts[0] == Act(t, ch) && t in st.tasks && next == Step(st, t, ch)
    requires OnlyOf(acts, t) && OnlyOf(acts[1..], t)
    requires Toward(goal, fate, st, t, acts) && Serving(st.tasks[t].pc)
    ensures Toward(goal, FateAfter(fate, st.tasks[t], ch), next, t, acts[1..])
  {
    hide SlotsAfter, DiskAfter, GateAfter, MutexAfter;
  }

  lemma TowardFromPublish(goal: Fate, fate: Fate, st: State, t: TaskId, acts: seq<Action>, ch: Choice, next: State)
    requires acts != [] && acts[0] == Act(t, ch) && t in st.tasks && next == Step(st, t, ch)
    requires OnlyOf(acts, t) && OnlyOf(acts[1..], t) && HasScratch(st.disk, st.tasks[t])
    requires Toward(goal, fate, st, t, acts) && Publishing(st.tasks[t].pc)
    ensures Toward(goal, FateAfter(fate, st.tasks[t], ch), next, t, acts[1..])
  {
    hide PublishNext, TaskAfter, SlotsAfter, DiskAfter, GateAfter, MutexAfter, OutcomeAt;
    var k := st.tasks[t];
    StepOfPublish(st, k, ch);
    if k.pc.LeaveWrite? {
      assert PublishNext(st.disk, k, ch) == At(k, ScanDir) by {
        OwnLeaves(st.disk, k, ch);
      }
    } else {
      PublishEnds(st.disk, k, ch);
      PublishKeepsJob(st.disk, k, ch);
    }
  }

  lemma OwnLeaves(d: Disk, k: Task, ch: Choice)
    requires k.pc.LeaveWrite? && !k.job.evicting
    ensures PublishNext(d, k, ch) == At(k, ScanDir)
  {
  }

  lemma TowardFromCleaning(goal: Fate, fate: Fate, st: State, t: TaskId, acts: seq<Action>, ch: Choice, next: State)
    requires acts != [] && acts[0] == Act(t, ch) && t in st.tasks && next == Step(st, t, ch)
    requires OnlyOf(acts, t) && OnlyOf(acts[1..], t)
    requires Toward(goal, fate, st, t, acts) && Cleaning(st.tasks[t].pc)
    ensures Toward(goal, FateAfter(fate, st.tasks[t], ch), next, t, acts[1..])
  {
    hide SlotsAfter, DiskAfter, GateAfter, MutexAfter;
    var k := st.tasks[t];
    if k.pc.ScanDir? {
      assert {} + Removals(acts[1..], ch.plan) == Removals(acts[1..], ch.plan);
    } else if k.plan == [] {
      assert fate.gone + {} == fate.gone;
    }
  }

  ghost predicate TurnReached(c: Core, id: SlotId, s: Session, fate: Fate, st: State, t: TaskId, held: Memory) {
    && Alone(st, t) && Sound(st.disk) && Knows(st.disk, st.tasks[t]) && HasScratch(st.disk, st.tasks[t])
    && held.Keys == st.disk.saves.Keys && TurnSaid(c, id, s, fate, st.tasks[t], st.slots, st.disk, held)
  }

  lemma TurnReachedNext(
      c: Core, id: SlotId, s: Session, goal: Fate, fate: Fate, st: State, t: TaskId, held: Memory,
      acts: seq<Action>, end: State)
      returns (fate': Fate, next: State, later: Memory)
    requires TurnReached(c, id, s, fate, st, t, held) && Path(st, t, acts, end) && acts != [] && OnlyOf(acts, t)
    requires t in st.tasks && Toward(goal, fate, st, t, acts)
    ensures OnlyOf(acts[1..], t) && Path(next, t, acts[1..], end)
    ensures t in next.tasks && TurnReached(c, id, s, fate', next, t, later)
    ensures Toward(goal, fate', next, t, acts[1..])
    ensures Learns(held, later, next.disk, c.kv) && SavesGrow(st.disk, next.disk)
  {
    hide Path, Alone, Sound, Knows, HasScratch, TurnSaid, DiskAfter, SlotsAfter, TaskAfter, HeldAfter, FateAfter,
      GateAfter, MutexAfter, Learns, SavesGrow, Toward;
    var k := st.tasks[t];
    var ch, after := PathHead(st, t, acts, end);
    next := after;
    fate', later := FateAfter(fate, k, ch), HeldAfter(held, st.disk, k, ch, Held(c.kv, k.job.slot));
    AloneStep(st, t, ch);
    SoundNext(st, k, ch);
    ScratchNext(st, k, ch);
    TurnPcs(c, id, s, fate, k, st.slots, st.disk, held);
    TurnSaidNext(c, id, s, fate, st, k, held, ch);
    LearnsNext(st.disk, k, ch, held, c.kv);
    if Serving(k.pc) {
      TowardFromServing(goal, fate, st, t, acts, ch, next);
    } else if Cleaning(k.pc) {
      TowardFromCleaning(goal, fate, st, t, acts, ch, next);
    } else {
      TowardFromPublish(goal, fate, st, t, acts, ch, next);
    }
  }

  lemma {:induction false} TurnReachedEnd(
      c: Core, id: SlotId, s: Session, goal: Fate, fate: Fate, st: State, t: TaskId, held: Memory,
      acts: seq<Action>, end: State)
      returns (fate': Fate, later: Memory)
    requires TurnReached(c, id, s, fate, st, t, held) && Path(st, t, acts, end) && OnlyOf(acts, t)
    requires t in st.tasks && Toward(goal, fate, st, t, acts)
    ensures t in end.tasks && TurnReached(c, id, s, fate', end, t, later)
    ensures OnlyOf([], t) && Toward(goal, fate', end, t, [])
    ensures Learns(held, later, end.disk, c.kv) && SavesGrow(st.disk, end.disk)
    decreases |acts|
  {
    hide TurnReached, Learns, SavesGrow, Toward, Path;
    if acts == [] {
      fate', later := fate, held;
      PathOnly(st, t, acts, end);
      LearnsNothing(held, end.disk, c.kv);
    } else {
      var f1, next, h1 := TurnReachedNext(c, id, s, goal, fate, st, t, held, acts, end);
      fate', later := TurnReachedEnd(c, id, s, goal, f1, next, t, h1, acts[1..], end);
      LearnsMore(held, h1, later, st.disk, next.disk, end.disk, c.kv);
    }
  }

  predicate AtRest(st: State, t: TaskId) {
    t in st.tasks && (st.tasks[t].pc == ScanDir || st.tasks[t].pc == Finished)
  }

  lemma TurnBegins(c: Core, id: SlotId, st: State, t: TaskId, held: Memory)
    requires t in st.tasks && st.tasks[t].pc == Serve && st.tasks[t].steer == Some(id)
    requires Quiet(st) && Sound(st.disk) && st.slots == c.slots && Reads(st.disk, c.disk, held)
    ensures TurnReached(c, id, st.tasks[t].session, Breaks, st, t, held)
  {
    hide Reads, Sound, AfterTurn;
    ReadsSaves(st.disk, c.disk, held);
  }

  lemma TowardItself(st: State, t: TaskId, acts: seq<Action>)
    requires t in st.tasks && OnlyOf(acts, t) && acts != [] && st.tasks[t].pc == Serve && st.tasks[t].steer.Some?
    ensures Toward(FateHeard(st, t, acts), Breaks, st, t, acts)
  {
  }

  lemma TurnEnds(c: Core, id: SlotId, s: Session, goal: Fate, fate: Fate, st: State, t: TaskId, held: Memory)
    requires TurnReached(c, id, s, fate, st, t, held) && AtRest(st, t)
    requires OnlyOf([], t) && Toward(goal, fate, st, t, [])
    ensures var c' := AfterTurn(c, id, s, goal);
            Quiet(st) && st.slots == c'.slots && Reads(st.disk, c'.disk, held)
  {
    hide Reads, Sound, AfterTurn;
    assert GoneHeard(st, t, []) == {};
  }

  /**
    Every undisturbed way from the first chunk to the end of a request ends as its
    stream did. After the last chunk the slot is claimed and published, as far as
    the calls of the publish worked, and the quota pass removes what it planned;
    on a disconnect the slot is abandoned; a broken stream changes nothing.
   */
  lemma EverySoloTurn(
      st: State, t: TaskId, id: SlotId, c: Core, held: Memory, acts: seq<Action>, end: State)
      returns (later: Memory)
    requires t in st.tasks && st.tasks[t].pc == Serve && st.tasks[t].steer == Some(id)
    requires Quiet(st) && Sound(st.disk) && st.slots == c.slots && Reads(st.disk, c.disk, held)
    requires Path(st, t, acts, end) && AtRest(end, t)
    ensures OnlyOf(acts, t)
    ensures var c' := AfterTurn(c, id, st.tasks[t].session, FateHeard(st, t, acts));
            Quiet(end) && end.slots == c'.slots && Reads(end.disk, c'.disk, later)
    ensures Learns(held, later, end.disk, c.kv)
  {
    hide Path, Reads, Learns, Sound, AfterTurn, FateHeard, SavesGrow, TurnReached, Toward;
    PathOnly(st, t, acts, end);
    var s, goal := st.tasks[t].session, FateHeard(st, t, acts);
    TurnBegins(c, id, st, t, held);
    assert acts != [];
    assert Toward(goal, Breaks, st, t, acts) by {
      TowardItself(st, t, acts);
    }
    var fate;
    fate, later := TurnReachedEnd(c, id, s, goal, Breaks, st, t, held, acts, end);
    TurnEnds(c, id, s, goal, fate, end, t, later);
  }

  // ---------------------------------------------------------- the whole request

  lemma NotPastNext(st: State, k: Task, ch: Choice)
    requires !Past(k) && !k.pc.Dispatch?
    ensures !Past(TaskAfter(st, k, ch))
  {
    hide LookupNext, EvictNext, PublishNext;
    if LookingUp(k.pc) {
      LookupNotPast(st, k, ch);
    } else if Evicting(k.pc) {
      EvictNotPast(st, k, ch);
    } else if Publishing(k.pc) {
      PublishNotPast(st.disk, k, ch);
    }
  }

  lemma LookupNotPast(st: State, k: Task, ch: Choice)
    requires LookingUp(k.pc)
    ensures !Past(LookupNext(st, k, ch))
  {
    hide HotSlot, FirstFree;
  }

  lemma EvictNotPast(st: State, k: Task, ch: Choice)
    requires Evicting(k.pc)
    ensures !Past(EvictNext(st, k, ch))
  {
    hide FirstDirty;
  }

  lemma PublishNotPast(d: Disk, k: Task, ch: Choice)
    requires Publishing(k.pc) && k.job.evicting
    ensures !Past(PublishNext(d, k, ch))
  {
    if !k.pc.LeaveWrite? {
      PublishKeepsJob(d, k, ch);
    }
  }

  lemma PathCons(st: State, t: TaskId, acts: seq<Action>, ch: Choice, next: State, n: nat, mid: State)
    requires acts != [] && acts[0] == Act(t, ch) && Enabled(st, t) && next == Step(st, t, ch)
    requires n < |acts| && Path(next, t, acts[1..][..n], mid)
    ensures Path(st, t, acts[..n + 1], mid)
  {
    hide Path, Step, Enabled;
    PathOne(st, t, ch);
    PathThen(st, t, [Act(t, ch)], next, acts[1..][..n], mid);
    assert acts[..n + 1] == [Act(t, ch)] + acts[1..][..n];
  }

  // A request that gets beyond its dispatch passes through it.
  lemma {:induction false} PassesDispatch(st: State, t: TaskId, acts: seq<Action>, end: State)
      returns (n: nat, mid: State)
    requires Path(st, t, acts, end) && t in st.tasks && !Past(st.tasks[t])
    requires t in end.tasks && Past(end.tasks[t])
    ensures n < |acts| && Path(st, t, acts[..n], mid) && Path(mid, t, acts[n..], end)
    ensures t in mid.tasks && mid.tasks[t].pc == Dispatch
    decreases |acts|
  {
    hide Path, Past, TaskAfter, Step, Enabled;
    if acts == [] {
      PathOnly(st, t, acts, end);
    } else if st.tasks[t].pc == Dispatch {
      n, mid := 0, st;
      PathNone(st, t);
      assert acts[..0] == [] && acts[0..] == acts;
    } else {
      var ch, next := PathHead(st, t, acts, end);
      StepIsNext(st, t, ch);
      NotPastNext(st, st.tasks[t], ch);
      var m;
      m, mid := PassesDispatch(next, t, acts[1..], end);
      n := m + 1;
      PathCons(st, t, acts, ch, next, m, mid);
      assert acts[1..][m..] == acts[n..];
    }
  }

  // The dispatch: nothing but the request's own place changes.
  lemma Dispatches(st: State, t: TaskId, ch: Choice)
    requires t in st.tasks && st.tasks[t].pc == Dispatch
    ensures var next := Step(st, t, ch);
            && t in next.tasks && next.gate == st.gate && next.mutex == st.mutex
            && next.slots == st.slots && next.disk == st.disk
            && next.tasks[t] == At(st.tasks[t], if ch.ok then Serve else Finished)
  {
  }

  // A request at its end takes no further step.
  lemma Rests(st: State, t: TaskId, acts: seq<Action>, end: State)
    requires Path(st, t, acts, end) && t in st.tasks && st.tasks[t].pc == Finished
    ensures acts == [] && end == st
  {
    hide Path;
    if acts != [] {
      var ch, next := PathHead(st, t, acts, end);
    }
    PathOnly(st, t, acts, end);
  }

  // Without a slot there is nothing to do after the response.
  lemma UnsteeredRests(st: State, t: TaskId, acts: seq<Action>, end: State)
    requires Path(st, t, acts, end) && t in st.tasks && st.tasks[t].pc == Serve && st.tasks[t].steer == None
    requires t in end.tasks && end.tasks[t].pc != Serve
    ensures end.tasks[t].pc == Finished && end.slots == st.slots && end.disk == st.disk
    ensures end.gate == st.gate && end.mutex == st.mutex
  {
    hide Path, Enabled;
    if acts == [] {
      PathOnly(st, t, acts, end);
    } else {
      var ch, next := PathHead(st, t, acts, end);
      Rests(next, t, acts[1..], end);
    }
  }

  /** The request's session still owns the slot, which waits to be published. */
  predicate LeftDirty(slots: Slots, a: Admission, s: Session) {
    a.Steered? ==> Label(slots, a.id) == Some(s) && Dirty(slots, a.id)
  }

  /**
    A whole request that runs undisturbed, from its arrival to its end, is its
    admission, its dispatch and its turn, each as its own answers say; `content` is
    what the turn leaves in the slot.

    If the dispatch is refused the request rests there and then: slots and blobs are
    those of `Registry.Admit`, the slot it was steered to stays labelled and dirty,
    and nothing is written. If it is accepted without a slot, nothing changes either.
    Otherwise the turn ends as `AfterTurn` says.
   */
  lemma EverySoloRequest(
      st: State, t: TaskId, s: Session, c: Core, content: KV, held: Memory, acts: seq<Action>, end: State)
      returns (n: nat, answer: Choice, served: State, mid: Memory, later: Memory)
    requires t in st.tasks && st.tasks[t] == NewTask(s) && Quiet(st) && Sound(st.disk)
    requires st.slots == c.slots && Reads(st.disk, c.disk, held)
    requires Path(st, t, acts, end) && AtRest(end, t)
    ensures n < |acts| && acts[n] == Act(t, answer) && OnlyOf(acts[..n], t) && OnlyOf(acts[n + 1..], t)
    ensures IsRun(st, acts[..n + 1]) && served == Run(st, acts[..n + 1]) && t in served.tasks
    ensures served.tasks[t].pc == (if answer.ok then Serve else Finished)
    ensures var (c1, a) := Admit(c, s, Heard(st, t, acts[..n]));
            && served.slots == c1.slots && Reads(served.disk, c1.disk, mid) && LeftDirty(c1.slots, a, s)
            && (!answer.ok ==> n + 1 == |acts| && end == served)
            && (answer.ok && a.Forwarded? ==>
                  end.tasks[t].pc == Finished && end.slots == served.slots && end.disk == served.disk)
            && (answer.ok && a.Steered? ==>
                  var fate := FateHeard(served, t, acts[n + 1..]);
                  var c2 := AfterTurn(c1.(kv := c1.kv[a.id := content]), a.id, s, fate);
                  && end.slots == c2.slots && Reads(end.disk, c2.disk, later)
                  && Learns(mid, later, end.disk, c1.kv[a.id := content]))
    ensures Quiet(end) && Learns(held, mid, served.disk, c.kv)
  {
    hide Path, Reads, Learns, Sound, Admit, AfterTurn, Heard, FateHeard, Past, Step, Run, IsRun, Enabled;
    RestIsPast(end, t);
    NewIsNotPast(s);
    var before;
    n, before := PassesDispatch(st, t, acts, end);
    mid := EverySoloAdmission(st, t, s, c, held, acts[..n], before);
    var ch, next := PathHead(before, t, acts[n..], end);
    answer, served, later := ch, next, mid;
    assert acts[n..][1..] == acts[n + 1..];
    Dispatches(before, t, ch);
    SplitRun(st, t, acts, n, before, ch, served);
    AdmissionKinds(c, s, Heard(st, t, acts[..n]));
    var (c1, a) := Admit(c, s, Heard(st, t, acts[..n]));
    if !ch.ok {
      Rests(served, t, acts[n + 1..], end);
    } else if a.Forwarded? {
      UnsteeredRests(served, t, acts[n + 1..], end);
    } else {
      var c2 := c1.(kv := c1.kv[a.id := content]);
      later := EverySoloTurn(served, t, a.id, c2, mid, acts[n + 1..], end);
    }
  }

  lemma RestIsPast(st: State, t: TaskId)
    requires AtRest(st, t)
    ensures Past(st.tasks[t])
  {
  }

  lemma NewIsNotPast(s: Session)
    ensures !Past(NewTask(s))
  {
  }

  lemma SplitRun(st: State, t: TaskId, acts: seq<Action>, n: nat, before: State, ch: Choice, served: State)
    requires n < |acts| && Path(st, t, acts[..n], before) && acts[n] == Act(t, ch)
    requires Enabled(before, t) && served == Step(before, t, ch)
    ensures IsRun(st, acts[..n + 1]) && served == Run(st, acts[..n + 1])
  {
    hide Step, Enabled;
    PathOne(before, t, ch);
    PathThen(st, t, acts[..n], before, [Act(t, ch)], served);
    assert acts[..n + 1] == acts[..n] + [Act(t, ch)];
  }
}
