/**
  Towards the other direction of `SoloAdmission`: each single step of a request that
  runs undisturbed is accounted for by the turn-grained functions `Registry.Admit`,
  `Registry.FinishTurn` and `Registry.AbandonTurn`. `SoloRequest` follows a whole
  request.

  Blobs are compared by content: `held` says, for every save the backend made, what
  its slot held at the time.
 */
module SoloRuns {
  import opened Options
  import opened Registry
  import opened Steps
  import opened GateTheorems
  import opened BlobTheorems
  import opened SoloAdmission

  type Memory = map<SaveId, KV>

  // ------------------------------------------------------------- gate and mutex

  function GateAt(t: TaskId, pc: Pc): Gate {
    if Queued(pc) then Gate(None, {}, [t])
    else if HoldsRead(pc) then ReadHeld(t)
    else if HoldsWrite(pc) then WriteHeld(t)
    else FREE
  }

  function MutexAt(t: TaskId, pc: Pc): Option<TaskId> {
    if HoldsMutex(pc) then Some(t) else None
  }

  // Nobody else holds or awaits anything.
  predicate Alone(st: State, t: TaskId) {
    && t in st.tasks
    && st.gate == GateAt(t, st.tasks[t].pc) && st.mutex == MutexAt(t, st.tasks[t].pc)
  }

  lemma AloneStep(st: State, t: TaskId, ch: Choice)
    requires Alone(st, t) && Enabled(st, t)
    ensures Alone(Step(st, t, ch), t)
  {
    hide TaskAfter, SlotsAfter, DiskAfter;
    TaskMoves(st, st.tasks[t], ch);
    GateCycle(t);
  }

  // -------------------------------------------------------------- what blobs hold

  ghost predicate HoldsSave(d: Disk, i: Ino, held: Memory, kv: KV) {
    && i in d.inodes && d.inodes[i].content.Whole?
    && d.inodes[i].content.save in held && held[d.inodes[i].content.save] == kv
  }

  /** The visible blobs are those of `disk`, with that content. */
  ghost predicate Reads(d: Disk, disk: map<Session, KV>, held: Memory) {
    && held.Keys == d.saves.Keys
    && (forall x :: Blob(x) in d.dir <==> x in disk)
    && (forall x | Blob(x) in d.dir && x in disk :: HoldsSave(d, d.dir[Blob(x)], held, disk[x]))
  }

  /** `later` knows the saves of `held`, and of each new one what `kv` says of its slot. */
  ghost predicate Learns(held: Memory, later: Memory, d: Disk, kv: map<SlotId, KV>) {
    && (forall v | v in held :: v in later && later[v] == held[v])
    && (forall v | v in later && v !in held ::
          v in d.saves && later[v] == Held(kv, d.saves[v].slot))
  }

  // Every visible blob is in the file it was in, and that file is as it was.
  ghost predicate SameBlobs(d: Disk, d': Disk) {
    && (forall x :: Blob(x) in d'.dir <==> Blob(x) in d.dir)
    && (forall x | Blob(x) in d.dir && Blob(x) in d'.dir ::
          && d'.dir[Blob(x)] == d.dir[Blob(x)]
          && d.dir[Blob(x)] in d.inodes && d.dir[Blob(x)] in d'.inodes
          && d'.inodes[d.dir[Blob(x)]] == d.inodes[d.dir[Blob(x)]])
  }

  lemma StepSameBlobs(d: Disk, k: Task, ch: Choice)
    requires Sound(d) && Knows(d, k) && !k.pc.RenameBlob? && !k.pc.Delete?
    ensures SameBlobs(d, DiskAfter(d, k, ch))
  {
    var d' := DiskAfter(d, k, ch);
    NamesStay(d, k, ch);
    forall x | Blob(x) in d.dir
      ensures d.dir[Blob(x)] in d.inodes && d.dir[Blob(x)] in d'.inodes
      ensures d'.inodes[d.dir[Blob(x)]] == d.inodes[d.dir[Blob(x)]]
    {
      var i := d.dir[Blob(x)];
      assert PublishedAs(d, i, x) && !NoBlobOn(d, i);
      StepKeepsInode(d, k, ch, i);
    }
  }

  lemma NamesStay(d: Disk, k: Task, ch: Choice)
    requires !k.pc.RenameBlob? && !k.pc.Delete?
    ensures forall x :: Blob(x) in DiskAfter(d, k, ch).dir <==> Blob(x) in d.dir
    ensures forall x | Blob(x) in d.dir :: DiskAfter(d, k, ch).dir[Blob(x)] == d.dir[Blob(x)]
  {
  }

  lemma ReadsFrame(d: Disk, d': Disk, disk: map<Session, KV>, held: Memory, later: Memory)
    requires Reads(d, disk, held) && SameBlobs(d, d') && later.Keys == d'.saves.Keys
    requires forall v | v in held :: v in later && later[v] == held[v]
    ensures Reads(d', disk, later)
  {
    forall x | Blob(x) in d'.dir && x in disk ensures HoldsSave(d', d'.dir[Blob(x)], later, disk[x]) {
      assert HoldsSave(d, d.dir[Blob(x)], held, disk[x]);
    }
  }

  // ------------------------------------------------------------------ a publish

  predicate BeforeRename(pc: Pc) {
    pc.WantWrite? || pc.QueueWrite? || pc.BeginSave? || pc.EndSave? || pc.OpenScratch? || pc.SyncFile?
  }

  predicate Written(pc: Pc) {
    pc.OpenScratch? || pc.SyncFile? || pc.RenameBlob?
  }

  // The slot's content is in the file of the publish.
  ghost predicate SaveIs(k: Task, held: Memory, kv: KV) {
    k.job.save.Some? && k.job.save.value in held && held[k.job.save.value] == kv
  }

  // A publish begun with registry and disk `b`; once it is over, `o` is its outcome.
  ghost predicate PublishSaid(b: Core, o: SaveOutcome, k: Task, slots: Slots, d: Disk, held: Memory) {
    var kv := Held(b.kv, k.job.slot);
    if k.pc.LeaveWrite? then
      var saved := SaveSlot(b, k.job.slot, k.job.session, o);
      (k.job.published <==> o.Published?) && slots == saved.slots && Reads(d, saved.disk, held)
    else if Renamed(k.pc) then
      slots == b.slots && Reads(d, b.disk[k.job.session := kv], held)
    else
      && Publishing(k.pc) && slots == b.slots && Reads(d, b.disk, held)
      && (Written(k.pc) ==> SaveIs(k, held, kv))
  }

  // What a publish learns at this step.
  function HeldAfter(held: Memory, d: Disk, k: Task, ch: Choice, kv: KV): Memory {
    if k.pc.EndSave? && ch.ok then held[d.nextSave := kv] else held
  }

  function OutcomeAt(k: Task): SaveOutcome {
    if k.pc.Clean? then Published else if k.pc.SyncDir? then RenamedOnly else SaveFailed
  }

  lemma SavesAfter(d: Disk, k: Task, ch: Choice, held: Memory, kv: KV)
    requires held.Keys == d.saves.Keys && (forall v | v in d.saves :: v < d.nextSave)
    ensures HeldAfter(held, d, k, ch, kv).Keys == DiskAfter(d, k, ch).saves.Keys
    ensures forall v | v in held :: v in HeldAfter(held, d, k, ch, kv) && HeldAfter(held, d, k, ch, kv)[v] == held[v]
    ensures forall v | v in d.saves :: v in DiskAfter(d, k, ch).saves && DiskAfter(d, k, ch).saves[v] == d.saves[v]
    ensures k.pc.EndSave? && ch.ok ==> DiskAfter(d, k, ch).saves[d.nextSave] == Save(k.job.session, k.job.slot)
  {
  }

  lemma SavesBelow(d: Disk)
    requires Sound(d)
    ensures forall v | v in d.saves :: v < d.nextSave
  {
  }

  lemma ReadsSaves(d: Disk, disk: map<Session, KV>, held: Memory)
    requires Reads(d, disk, held)
    ensures held.Keys == d.saves.Keys
  {
  }

  // Up to the rename: where the request goes, and what it has saved by then.
  lemma SavingMoves(d: Disk, k: Task, ch: Choice, slots: Slots, held: Memory, kv: KV)
    requires BeforeRename(k.pc) && (Written(k.pc) ==> SaveIs(k, held, kv))
    requires forall v | v in held :: v < d.nextSave
    ensures var k' := PublishNext(d, k, ch);
            && k'.job.slot == k.job.slot && k'.job.session == k.job.session
            && SlotsAfter(slots, k) == slots && !Renamed(k'.pc)
            && (if k'.pc.LeaveWrite? then !k'.job.published else Publishing(k'.pc))
            && (Written(k'.pc) ==> SaveIs(k', HeldAfter(held, d, k, ch, kv), kv))
  {
  }

  lemma SavingSaid(b: Core, o: SaveOutcome, k: Task, slots: Slots, d: Disk, held: Memory, ch: Choice)
    requires BeforeRename(k.pc) && PublishSaid(b, o, k, slots, d, held) && Sound(d) && Knows(d, k)
    ensures PublishSaid(b, SaveFailed, PublishNext(d, k, ch), SlotsAfter(slots, k), DiskAfter(d, k, ch),
                        HeldAfter(held, d, k, ch, Held(b.kv, k.job.slot)))
  {
    hide Sound, Knows, DiskAfter, Reads, SameBlobs, PublishNext, SlotsAfter, HeldAfter;
    var kv := Held(b.kv, k.job.slot);
    SavesBelow(d);
    ReadsSaves(d, b.disk, held);
    SavingMoves(d, k, ch, slots, held, kv);
    SavesAfter(d, k, ch, held, kv);
    StepSameBlobs(d, k, ch);
    ReadsFrame(d, DiskAfter(d, k, ch), b.disk, held, HeldAfter(held, d, k, ch, kv));
  }

  // The rename.
  lemma RenameReads(b: Core, k: Task, d: Disk, held: Memory, kv: KV)
    requires k.pc.RenameBlob? && Scratch(k.job.session) in d.dir && Knows(d, k)
    requires Reads(d, b.disk, held) && SaveIs(k, held, kv)
    ensures Reads(Rename(d, Scratch(k.job.session), Blob(k.job.session)), b.disk[k.job.session := kv], held)
  {
    var s := k.job.session;
    var d', disk := Rename(d, Scratch(s), Blob(s)), b.disk[s := kv];
    assert HoldsSave(d', k.job.ino, held, disk[s]);
    forall x | Blob(x) in d'.dir && x in disk ensures HoldsSave(d', d'.dir[Blob(x)], held, disk[x]) {
      if x != s {
        assert HoldsSave(d, d.dir[Blob(x)], held, b.disk[x]);
      }
    }
  }

  lemma RenameSaid(b: Core, o: SaveOutcome, k: Task, slots: Slots, d: Disk, held: Memory, ch: Choice)
    requires k.pc.RenameBlob? && PublishSaid(b, o, k, slots, d, held) && Sound(d) && Knows(d, k)
    ensures PublishSaid(b, SaveFailed, PublishNext(d, k, ch), SlotsAfter(slots, k), DiskAfter(d, k, ch), held)
  {
    hide Sound, Knows, Reads, Rename;
    if ch.ok && Scratch(k.job.session) in d.dir {
      RenameReads(b, k, d, held, Held(b.kv, k.job.slot));
    }
  }

  // After it.
  lemma RenamedSaid(b: Core, o: SaveOutcome, k: Task, slots: Slots, d: Disk, held: Memory, ch: Choice)
    requires Renamed(k.pc) && PublishSaid(b, o, k, slots, d, held) && Sound(d) && Knows(d, k)
    ensures PublishSaid(b, OutcomeAt(k), PublishNext(d, k, ch), SlotsAfter(slots, k), DiskAfter(d, k, ch), held)
  {
    hide Sound, Knows, DiskAfter, Reads, SameBlobs, MarkClean;
    var kv := Held(b.kv, k.job.slot);
    var disk := b.disk[k.job.session := kv];
    SavesBelow(d);
    ReadsSaves(d, disk, held);
    SavesAfter(d, k, ch, held, kv);
    StepSameBlobs(d, k, ch);
    ReadsFrame(d, DiskAfter(d, k, ch), disk, held, held);
  }

  // One step of a publish not yet over.
  lemma PublishStepSaid(b: Core, o: SaveOutcome, k: Task, slots: Slots, d: Disk, held: Memory, ch: Choice)
    requires PublishSaid(b, o, k, slots, d, held) && !k.pc.LeaveWrite? && Sound(d) && Knows(d, k)
    ensures PublishSaid(b, OutcomeAt(k), PublishNext(d, k, ch), SlotsAfter(slots, k), DiskAfter(d, k, ch),
                        HeldAfter(held, d, k, ch, Held(b.kv, k.job.slot)))
  {
    hide PublishSaid, PublishNext, SlotsAfter, DiskAfter, Sound, Knows;
    PublishPcs(b, o, k, slots, d, held);
    if BeforeRename(k.pc) {
      SavingSaid(b, o, k, slots, d, held, ch);
    } else if k.pc.RenameBlob? {
      RenameSaid(b, o, k, slots, d, held, ch);
    } else {
      RenamedSaid(b, o, k, slots, d, held, ch);
    }
  }

  lemma PublishPcs(b: Core, o: SaveOutcome, k: Task, slots: Slots, d: Disk, held: Memory)
    requires PublishSaid(b, o, k, slots, d, held) && !k.pc.LeaveWrite?
    ensures BeforeRename(k.pc) || k.pc.RenameBlob? || Renamed(k.pc)
  {
  }

  // ---------------------------------------------------------------- an admission

  // Whatever the step, `e` only gains the answer that this step has heard.
  function Hears(e: Env, k: Task, ch: Choice): Env {
    var answer := if ch.ok then Some(ch.report) else None;
    match k.pc
    case HotScan => e.(order := ch.order)
    case AskSlots => e.(firstReport := answer)
    case AskVictims => e.(secondReport := answer)
    case _ => if Publishing(k.pc) && !k.pc.LeaveWrite? then e.(save := OutcomeAt(k)) else e
  }

  ghost predicate LookSaid(c: Core, s: Session, e: Env, k: Task, slots: Slots) {
    && k.steer == None
    && (HoldsRead(k.pc) && !k.pc.CheckBlob? ==> k.diskHit == (s in c.disk))
    && (k.pc.AskSlots? || k.pc.FreeLock? || k.pc.FreeScan? ==> HotSlot(c.slots, e.order, s) == None)
    && (k.pc.FreeLock? || k.pc.FreeScan? ==> e.firstReport == Some(k.report))
    && (if k.pc.LeaveRead? then (slots, k.pick) == PickSlot(c.slots, s, e) else slots == c.slots)
  }

  // No slot was free.
  ghost predicate EvictSaid(c: Core, s: Session, e: Env, k: Task, slots: Slots) {
    && k.steer == None && k.pick == NoSlot && k.diskHit == (s in c.disk)
    && (slots, NoSlot) == PickSlot(c.slots, s, e)
    && (!k.pc.AskVictims? ==> e.secondReport == Some(k.report))
  }

  // A victim was found; `b` is the state its publish began with.
  ghost predicate VictimSaid(c: Core, s: Session, e: Env, k: Task, b: Core) {
    && k.steer == None && k.pick == NoSlot && k.diskHit == (s in c.disk)
    && var (picked, pick) := PickSlot(c.slots, s, e);
       && pick == NoSlot
       && (b.slots, Victim(k.job.slot, Some(k.job.session))) == FindEvictable(picked, e)
       && b == c.(slots := b.slots)
  }

  // What the lookup found.
  ghost predicate Kept(c: Core, s: Session, e: Env, k: Task) {
    k.diskHit == (s in c.disk) && k.pick == PickSlot(c.slots, s, e).1
  }

  // On the way to its slot: only the mark is missing.
  ghost predicate SteerSaid(c: Core, s: Session, e: Env, k: Task, slots: Slots) {
    && k.steer.Some? && k.steer == SteerOf(Admit(c, s, e).1) && Kept(c, s, e, k)
    && Admit(c, s, e).0.slots == MarkDirty(slots, k.steer.value, s)
  }

  predicate SteeringPc(pc: Pc) {
    pc.Restore? || pc.MarkLock? || pc.Mark?
  }

  function EvictionBase(c: Core, s: Session, e: Env): Core {
    c.(slots := FindEvictable(PickSlot(c.slots, s, e).0, e).0)
  }

  /** What an undisturbed request has done so far, told in the terms of `Admit`. */
  ghost predicate Said(c: Core, s: Session, e: Env, k: Task, slots: Slots, d: Disk, held: Memory) {
    && k.session == s
    && (LookingUp(k.pc) ==> LookSaid(c, s, e, k, slots) && Reads(d, c.disk, held))
    && (Evicting(k.pc) ==> EvictSaid(c, s, e, k, slots) && Reads(d, c.disk, held))
    && (Publishing(k.pc) && k.job.evicting ==>
          && VictimSaid(c, s, e, k, EvictionBase(c, s, e))
          && PublishSaid(EvictionBase(c, s, e), e.save, k, slots, d, held))
    && (SteeringPc(k.pc) ==> SteerSaid(c, s, e, k, slots) && Reads(d, Admit(c, s, e).0.disk, held))
    && (k.pc.Dispatch? ==>
          && k.steer == SteerOf(Admit(c, s, e).1) && Kept(c, s, e, k) && slots == Admit(c, s, e).0.slots
          && Reads(d, Admit(c, s, e).0.disk, held))
  }

  lemma LookSaidNext(c: Core, s: Session, e: Env, st: State, k: Task, held: Memory, ch: Choice)
    requires LookingUp(k.pc) && !k.pc.LeaveRead? && k.session == s
    requires LookSaid(c, s, e, k, st.slots) && Reads(st.disk, c.disk, held)
    ensures var k' := LookupNext(st, k, ch);
            && LookingUp(k'.pc) && k'.session == s
            && LookSaid(c, s, Hears(e, k, ch), k', SlotsAfter(st.slots, k))
  {
    hide HotSlot, FirstFree;
  }

  // The pick is made: steer to it, or look for a victim.
  lemma PickSaid(c: Core, s: Session, e: Env, st: State, k: Task, held: Memory, ch: Choice)
    requires k.pc.LeaveRead? && k.session == s && LookSaid(c, s, e, k, st.slots) && Reads(st.disk, c.disk, held)
    ensures Said(c, s, e, LookupNext(st, k, ch), st.slots, st.disk, held)
  {
    hide PickSlot, FindEvictable, Reads, MarkDirty, PublishSaid, Rest, Admit;
    AdmitSplits(c, s, e);
  }

  // What `Admit` says once no slot was free, by the victim found.
  lemma AdmitByVictim(c: Core, s: Session, e: Env)
    requires PickSlot(c.slots, s, e).1 == NoSlot
    ensures var (scanned, victim) := FindEvictable(PickSlot(c.slots, s, e).0, e);
            var (end, a) := Admit(c, s, e);
            match victim
            case NoVictim => end == c.(slots := scanned) && a == Forwarded
            case Victim(id, None) =>
              end.slots == MarkDirty(scanned, id, s) && end.disk == c.disk && SteerOf(a) == Some(id)
            case Victim(id, Some(owner)) =>
              var saved := SaveSlot(c.(slots := scanned), id, owner, e.save);
              if e.save.Published? then
                end.slots == MarkDirty(saved.slots, id, s) && end.disk == saved.disk && SteerOf(a) == Some(id)
              else end == saved && a == Forwarded
  {
    hide PickSlot, FindEvictable, MarkDirty, SaveSlot, Rest, Admit;
    AdmitSplits(c, s, e);
    RestSplits(c.(slots := PickSlot(c.slots, s, e).0), s, e);
  }

  lemma AskSaid(c: Core, s: Session, e: Env, st: State, k: Task, held: Memory, ch: Choice)
    requires k.pc.AskVictims? && k.session == s && EvictSaid(c, s, e, k, st.slots) && Reads(st.disk, c.disk, held)
    ensures Said(c, s, Hears(e, k, ch), EvictNext(st, k, ch), st.slots, st.disk, held)
  {
    hide Reads, MarkDirty, FirstDirty, HotSlot, FirstFree, Rest, Admit, SaveSlot;
    AdmitByVictim(c, s, Hears(e, k, ch));
  }

  // The scan: nobody, or a victim to publish, or one with nothing to publish.
  lemma ScanSaid(c: Core, s: Session, e: Env, st: State, k: Task, held: Memory, ch: Choice)
    requires k.pc.VictimScan? && k.session == s && EvictSaid(c, s, e, k, st.slots) && Reads(st.disk, c.disk, held)
    ensures Said(c, s, e, EvictNext(st, k, ch), FirstDirty(st.slots, k.report).0, st.disk, held)
  {
    hide Reads, MarkDirty, FirstDirty, PickSlot, Rest, Admit, SaveSlot;
    AdmitByVictim(c, s, e);
  }

  lemma EvictSaidNext(c: Core, s: Session, e: Env, st: State, k: Task, held: Memory, ch: Choice)
    requires Evicting(k.pc) && k.session == s && EvictSaid(c, s, e, k, st.slots) && Reads(st.disk, c.disk, held)
    ensures Said(c, s, Hears(e, k, ch), EvictNext(st, k, ch), SlotsAfter(st.slots, k), st.disk, held)
  {
    hide Reads, PickSlot, FirstDirty, Said, Admit;
    match k.pc
    case AskVictims => AskSaid(c, s, e, st, k, held, ch);
    case VictimScan => ScanSaid(c, s, e, st, k, held, ch);
    case VictimLock => ScanIsNext(c, s, e, st, k, held, ch);
  }

  lemma ScanIsNext(c: Core, s: Session, e: Env, st: State, k: Task, held: Memory, ch: Choice)
    requires k.pc.VictimLock? && k.session == s && EvictSaid(c, s, e, k, st.slots) && Reads(st.disk, c.disk, held)
    ensures Said(c, s, e, EvictNext(st, k, ch), st.slots, st.disk, held)
  {
    hide Reads, PickSlot, Admit;
  }

  // The victim's publish goes on; its outcome is heard when it ends.
  lemma VictimSaidNext(c: Core, s: Session, e: Env, k: Task, slots: Slots, d: Disk, held: Memory, ch: Choice)
    requires Publishing(k.pc) && k.job.evicting && !k.pc.LeaveWrite? && Said(c, s, e, k, slots, d, held)
    requires Sound(d) && Knows(d, k)
    ensures Said(c, s, Hears(e, k, ch), PublishNext(d, k, ch), SlotsAfter(slots, k), DiskAfter(d, k, ch),
                 HeldAfter(held, d, k, ch, Held(c.kv, k.job.slot)))
  {
    hide Reads, PublishSaid, Sound, Knows, SlotsAfter, DiskAfter, HeldAfter, PublishNext, HotSlot, FirstFree,
      FirstDirty;
    var b := EvictionBase(c, s, e);
    PublishStepSaid(b, e.save, k, slots, d, held, ch);
    PublishKeepsJob(d, k, ch);
    assert EvictionBase(c, s, Hears(e, k, ch)) == b;
  }

  // The publish over, the request is steered to the slot, or forwarded.
  lemma LeaveSaid(c: Core, s: Session, e: Env, k: Task, slots: Slots, d: Disk, held: Memory, ch: Choice)
    requires k.pc.LeaveWrite? && k.job.evicting && Said(c, s, e, k, slots, d, held)
    ensures Said(c, s, e, PublishNext(d, k, ch), slots, d, held)
  {
    hide Reads, PickSlot, FindEvictable, MarkDirty, Admit, SaveSlot;
    AdmitByVictim(c, s, e);
  }

  lemma SteerSaidNext(c: Core, s: Session, e: Env, k: Task, slots: Slots, d: Disk, held: Memory, ch: Choice)
    requires SteeringPc(k.pc) && Said(c, s, e, k, slots, d, held)
    ensures Said(c, s, e, TurnNext(k, ch), SlotsAfter(slots, k), d, held)
  {
    hide Reads, Admit, MarkDirty, PublishSaid;
  }

  // From its dispatch on a request never comes back to its admission.
  predicate Past(k: Task) {
    && !LookingUp(k.pc) && !Evicting(k.pc) && !SteeringPc(k.pc) && !k.pc.Dispatch?
    && (Publishing(k.pc) ==> !k.job.evicting)
  }

  lemma PastNext(st: State, k: Task, ch: Choice)
    requires Past(k) || k.pc.Dispatch?
    ensures Past(TaskAfter(st, k, ch)) && TaskAfter(st, k, ch).session == k.session
  {
    hide LookupNext, EvictNext, PublishNext, TurnNext;
    if Publishing(k.pc) {
      OwnPublishNext(st.disk, k, ch);
    } else {
      TurnGoesOn(k, ch);
    }
  }

  lemma OwnPublishNext(d: Disk, k: Task, ch: Choice)
    requires Publishing(k.pc) && !k.job.evicting
    ensures Past(PublishNext(d, k, ch)) && PublishNext(d, k, ch).session == k.session
  {
    if k.pc.LeaveWrite? {
      assert PublishNext(d, k, ch) == At(k, ScanDir);
    } else {
      PublishKeepsJob(d, k, ch);
    }
  }

  lemma TurnGoesOn(k: Task, ch: Choice)
    requires !Publishing(k.pc) && (Past(k) || k.pc.Dispatch?)
    ensures Past(TurnNext(k, ch)) && TurnNext(k, ch).session == k.session
  {
  }

  lemma HearsNothing(e: Env, k: Task, ch: Choice)
    requires SteeringPc(k.pc) || k.pc.LeaveWrite? || k.pc.LeaveRead?
    ensures Hears(e, k, ch) == e
  {
  }

  lemma PastSaid(c: Core, s: Session, e: Env, e': Env, k: Task, slots: Slots, d: Disk, held: Memory)
    requires Past(k) && k.session == s
    ensures Said(c, s, e', k, slots, d, held)
  {
  }

  lemma LookStepSaid(c: Core, s: Session, e: Env, st: State, k: Task, held: Memory, ch: Choice)
    requires LookingUp(k.pc) && k.session == s
    requires LookSaid(c, s, e, k, st.slots) && Reads(st.disk, c.disk, held)
    ensures Said(c, s, Hears(e, k, ch), LookupNext(st, k, ch), SlotsAfter(st.slots, k), st.disk, held)
  {
    hide LookupNext, LookSaid, Reads, Said, SlotsAfter;
    if k.pc.LeaveRead? {
      HearsNothing(e, k, ch);
      LeavingKeepsSlots(st.slots, k);
      PickSaid(c, s, e, st, k, held, ch);
    } else {
      LookSaidNext(c, s, e, st, k, held, ch);
      LookIsSaid(c, s, Hears(e, k, ch), LookupNext(st, k, ch), SlotsAfter(st.slots, k), st.disk, held);
    }
  }

  lemma LeavingKeepsSlots(slots: Slots, k: Task)
    requires k.pc.LeaveRead? || k.pc.LeaveWrite?
    ensures SlotsAfter(slots, k) == slots
  {
  }

  lemma LookIsSaid(c: Core, s: Session, e: Env, k: Task, slots: Slots, d: Disk, held: Memory)
    requires LookingUp(k.pc) && k.session == s && LookSaid(c, s, e, k, slots) && Reads(d, c.disk, held)
    ensures Said(c, s, e, k, slots, d, held)
  {
  }

  lemma SaidNext(c: Core, s: Session, e: Env, st: State, k: Task, held: Memory, ch: Choice)
    requires Said(c, s, e, k, st.slots, st.disk, held) && Sound(st.disk) && Knows(st.disk, k)
    ensures Said(c, s, Hears(e, k, ch), TaskAfter(st, k, ch), SlotsAfter(st.slots, k), DiskAfter(st.disk, k, ch),
                 HeldAfter(held, st.disk, k, ch, Held(c.kv, k.job.slot)))
  {
    hide Said, LookSaid, EvictSaid, Reads, LookupNext, EvictNext, PublishNext, TurnNext, DiskAfter, SlotsAfter, Sound,
      Knows;
    if Past(k) || k.pc.Dispatch? {
      SaidParts(c, s, e, st, k, held);
      PastNext(st, k, ch);
      PastSaid(c, s, e, Hears(e, k, ch), TaskAfter(st, k, ch), SlotsAfter(st.slots, k), DiskAfter(st.disk, k, ch),
               HeldAfter(held, st.disk, k, ch, Held(c.kv, k.job.slot)));
    } else if LookingUp(k.pc) {
      SaidParts(c, s, e, st, k, held);
      Quiets(st.disk, st.slots, k, ch, held, Held(c.kv, k.job.slot));
      LookStepSaid(c, s, e, st, k, held, ch);
    } else if Evicting(k.pc) {
      SaidParts(c, s, e, st, k, held);
      Quiets(st.disk, st.slots, k, ch, held, Held(c.kv, k.job.slot));
      EvictSaidNext(c, s, e, st, k, held, ch);
    } else if SteeringPc(k.pc) {
      Quiets(st.disk, st.slots, k, ch, held, Held(c.kv, k.job.slot));
      HearsNothing(e, k, ch);
      SteerSaidNext(c, s, e, k, st.slots, st.disk, held, ch);
    } else if k.pc.LeaveWrite? {
      Quiets(st.disk, st.slots, k, ch, held, Held(c.kv, k.job.slot));
      HearsNothing(e, k, ch);
      LeaveSaid(c, s, e, k, st.slots, st.disk, held, ch);
    } else {
      VictimSaidNext(c, s, e, k, st.slots, st.disk, held, ch);
    }
  }

  lemma SaidParts(c: Core, s: Session, e: Env, st: State, k: Task, held: Memory)
    requires Said(c, s, e, k, st.slots, st.disk, held)
    ensures k.session == s
    ensures LookingUp(k.pc) ==> LookSaid(c, s, e, k, st.slots) && Reads(st.disk, c.disk, held)
    ensures Evicting(k.pc) ==> EvictSaid(c, s, e, k, st.slots) && Reads(st.disk, c.disk, held)
  {
  }

  // Steps that touch neither the disk nor, but for the scans, the registry.
  lemma Quiets(d: Disk, slots: Slots, k: Task, ch: Choice, held: Memory, kv: KV)
    requires !(Publishing(k.pc) && !k.pc.LeaveWrite?) && !k.pc.Delete?
    ensures DiskAfter(d, k, ch) == d && HeldAfter(held, d, k, ch, kv) == held
    ensures k.pc.LeaveWrite? ==> SlotsAfter(slots, k) == slots
  {
  }

  // -------------------------------------------------------------- whole paths

  lemma SoundNext(st: State, k: Task, ch: Choice)
    requires Sound(st.disk) && Knows(st.disk, k)
    ensures Sound(DiskAfter(st.disk, k, ch)) && Knows(DiskAfter(st.disk, k, ch), TaskAfter(st, k, ch))
  {
    hide Sound, Writing, Showing, DiskAfter, PublishNext, LookupNext, EvictNext, TurnNext;
    if HoldsWrite(k.pc) {
      WriterStep(st.disk, k, ch);
    } else {
      OtherStep(st.disk, k, ch, k);
      EntersAtBegin(st, k, ch);
    }
  }

  predicate SavesGrow(d: Disk, d': Disk) {
    forall v | v in d.saves :: v in d'.saves && d'.saves[v] == d.saves[v]
  }

  lemma LearnsThen(held: Memory, mid: Memory, later: Memory, d: Disk, d': Disk, kv: map<SlotId, KV>)
    requires Learns(held, mid, d, kv) && Learns(mid, later, d', kv) && SavesGrow(d, d')
    ensures Learns(held, later, d', kv)
  {
  }

  lemma LearnsNext(d: Disk, k: Task, ch: Choice, held: Memory, kv: map<SlotId, KV>)
    requires held.Keys == d.saves.Keys && Sound(d)
    ensures var later := HeldAfter(held, d, k, ch, Held(kv, k.job.slot));
            && Learns(held, later, DiskAfter(d, k, ch), kv) && SavesGrow(d, DiskAfter(d, k, ch))
            && later.Keys == DiskAfter(d, k, ch).saves.Keys
  {
    hide DiskAfter, Sound;
    SavesBelow(d);
    SavesAfter(d, k, ch, held, Held(kv, k.job.slot));
  }

  // ------------------------------------------------------------- a turn's end

  /** How a turn ends, and which blobs its quota pass has removed so far. */
  datatype Fate = Finishes(save: SaveOutcome, gone: set<Session>) | HangsUp | Breaks

  function AfterTurn(c: Core, id: SlotId, s: Session, fate: Fate): Core {
    match fate
    case Finishes(save, gone) => var f := FinishTurn(c, id, s, save); f.(disk := f.disk - gone)
    case HangsUp => AbandonTurn(c, id)
    case Breaks => c
  }

  predicate Serving(pc: Pc) {
    pc.Serve? || pc.ClaimLock? || pc.Claim? || pc.QuitLock? || pc.Quit?
  }

  predicate Cleaning(pc: Pc) {
    pc.ScanDir? || pc.Delete?
  }

  /** What an undisturbed turn has done so far. */
  ghost predicate TurnSaid(
      c: Core, id: SlotId, s: Session, fate: Fate, k: Task, slots: Slots, d: Disk, held: Memory) {
    && k.session == s
    && (Serving(k.pc) || Cleaning(k.pc) || k.pc.Finished? || (Publishing(k.pc) && !k.job.evicting))
    && (Serving(k.pc) ==> k.steer == Some(id) && slots == c.slots && Reads(d, c.disk, held))
    && (Publishing(k.pc) ==>
          && k.job.slot == id && k.job.session == s && fate.Finishes? && fate.gone == {}
          && PublishSaid(c.(slots := SetSession(c.slots, id, s)), fate.save, k, slots, d, held))
    && (Cleaning(k.pc) ==> fate.Finishes? && (k.pc.ScanDir? ==> fate.gone == {}))
    && (Cleaning(k.pc) || k.pc.Finished? ==>
          slots == AfterTurn(c, id, s, fate).slots && Reads(d, AfterTurn(c, id, s, fate).disk, held))
  }

  // The fate, as far as this step settles it.
  function FateAfter(fate: Fate, k: Task, ch: Choice): Fate {
    if k.pc.Claim? then Finishes(SaveFailed, {})
    else if k.pc.Serve? then Breaks
    else if k.pc.Quit? then HangsUp
    else if Publishing(k.pc) && !k.pc.LeaveWrite? then Finishes(OutcomeAt(k), {})
    else if k.pc.Delete? && ch.ok && k.plan != [] && k.plan[0].Blob? && fate.Finishes?
    then Finishes(fate.save, fate.gone + {k.plan[0].s})
    else fate
  }

  lemma ServingSaid(
      c: Core, id: SlotId, s: Session, fate: Fate, k: Task, slots: Slots, d: Disk, held: Memory, ch: Choice)
    requires Serving(k.pc) && TurnSaid(c, id, s, fate, k, slots, d, held)
    ensures TurnSaid(c, id, s, FateAfter(fate, k, ch), TurnNext(k, ch), SlotsAfter(slots, k), d, held)
  {
    hide Reads, SetSession, Abandon;
  }

  lemma OwnPublishSaid(
      c: Core, id: SlotId, s: Session, fate: Fate, k: Task, slots: Slots, d: Disk, held: Memory, ch: Choice)
    requires Publishing(k.pc) && !k.pc.LeaveWrite? && TurnSaid(c, id, s, fate, k, slots, d, held)
    requires Sound(d) && Knows(d, k)
    ensures TurnSaid(c, id, s, FateAfter(fate, k, ch), PublishNext(d, k, ch), SlotsAfter(slots, k),
                     DiskAfter(d, k, ch), HeldAfter(held, d, k, ch, Held(c.kv, k.job.slot)))
  {
    hide Reads, PublishSaid, Sound, Knows, SlotsAfter, DiskAfter, HeldAfter, PublishNext;
    PublishStepSaid(c.(slots := SetSession(c.slots, id, s)), fate.save, k, slots, d, held, ch);
    PublishKeepsJob(d, k, ch);
  }

  lemma OwnLeaveSaid(
      c: Core, id: SlotId, s: Session, fate: Fate, k: Task, slots: Slots, d: Disk, held: Memory, ch: Choice)
    requires k.pc.LeaveWrite? && TurnSaid(c, id, s, fate, k, slots, d, held)
    ensures TurnSaid(c, id, s, fate, PublishNext(d, k, ch), slots, d, held)
  {
    hide Reads, SaveSlot;
    var f := FinishTurn(c, id, s, fate.save);
    assert f.disk - {} == f.disk;
  }

  lemma DeleteReads(d: Disk, n: Name, disk: map<Session, KV>, held: Memory)
    requires n in d.dir && Reads(d, disk, held)
    ensures Reads(Bind(d, d.dir - {n}), if n.Blob? then disk - {n.s} else disk, held)
  {
    var d', disk' := Bind(d, d.dir - {n}), if n.Blob? then disk - {n.s} else disk;
    forall x | Blob(x) in d'.dir && x in disk' ensures HoldsSave(d', d'.dir[Blob(x)], held, disk'[x]) {
      assert HoldsSave(d, d.dir[Blob(x)], held, disk[x]);
    }
  }

  // A file already gone.
  lemma AbsentReads(d: Disk, n: Name, disk: map<Session, KV>, held: Memory)
    requires n !in d.dir && Reads(d, disk, held)
    ensures n.Blob? ==> disk - {n.s} == disk
  {
  }

  lemma CleaningSaid(
      c: Core, id: SlotId, s: Session, fate: Fate, k: Task, slots: Slots, d: Disk, held: Memory, ch: Choice)
    requires Cleaning(k.pc) && TurnSaid(c, id, s, fate, k, slots, d, held)
    ensures TurnSaid(c, id, s, FateAfter(fate, k, ch), TurnNext(k, ch), slots, DiskAfter(d, k, ch), held)
  {
    hide Reads, FinishTurn;
    if k.pc.Delete? && ch.ok && k.plan != [] {
      var f := FinishTurn(c, id, s, fate.save);
      if k.plan[0] in d.dir {
        DeleteReads(d, k.plan[0], f.disk - fate.gone, held);
      } else {
        AbsentReads(d, k.plan[0], f.disk - fate.gone, held);
      }
      if k.plan[0].Blob? {
        assert f.disk - fate.gone - {k.plan[0].s} == f.disk - (fate.gone + {k.plan[0].s});
      }
    }
  }

  lemma QuietTurn(d: Disk, slots: Slots, k: Task, ch: Choice, held: Memory, kv: KV, fate: Fate)
    ensures Serving(k.pc) || k.pc.LeaveWrite? ==> DiskAfter(d, k, ch) == d
    ensures k.pc.LeaveWrite? || Cleaning(k.pc) ==> SlotsAfter(slots, k) == slots
    ensures Serving(k.pc) || Cleaning(k.pc) || k.pc.LeaveWrite? ==> HeldAfter(held, d, k, ch, kv) == held
    ensures k.pc.LeaveWrite? ==> FateAfter(fate, k, ch) == fate
  {
  }

  lemma TurnStepKind(st: State, k: Task, ch: Choice)
    ensures Publishing(k.pc) ==> TaskAfter(st, k, ch) == PublishNext(st.disk, k, ch)
    ensures Serving(k.pc) || Cleaning(k.pc) ==> TaskAfter(st, k, ch) == TurnNext(k, ch)
  {
    hide LookupNext, EvictNext, PublishNext, TurnNext;
  }

  lemma TurnSaidNext(
      c: Core, id: SlotId, s: Session, fate: Fate, st: State, k: Task, held: Memory, ch: Choice)
    requires TurnSaid(c, id, s, fate, k, st.slots, st.disk, held) && !k.pc.Finished?
    requires Sound(st.disk) && Knows(st.disk, k)
    ensures TurnSaid(c, id, s, FateAfter(fate, k, ch), TaskAfter(st, k, ch), SlotsAfter(st.slots, k),
                     DiskAfter(st.disk, k, ch), HeldAfter(held, st.disk, k, ch, Held(c.kv, k.job.slot)))
  {
    hide TurnSaid, PublishNext, TurnNext, TaskAfter, SlotsAfter, DiskAfter, HeldAfter, FateAfter, Sound, Knows;
    TurnPcs(c, id, s, fate, k, st.slots, st.disk, held);
    TurnStepKind(st, k, ch);
    QuietTurn(st.disk, st.slots, k, ch, held, Held(c.kv, k.job.slot), fate);
    if Serving(k.pc) {
      ServingSaid(c, id, s, fate, k, st.slots, st.disk, held, ch);
    } else if Cleaning(k.pc) {
      CleaningSaid(c, id, s, fate, k, st.slots, st.disk, held, ch);
    } else if k.pc.LeaveWrite? {
      OwnLeaveSaid(c, id, s, fate, k, st.slots, st.disk, held, ch);
    } else {
      OwnPublishSaid(c, id, s, fate, k, st.slots, st.disk, held, ch);
    }
  }

  lemma TurnPcs(c: Core, id: SlotId, s: Session, fate: Fate, k: Task, slots: Slots, d: Disk, held: Memory)
    requires TurnSaid(c, id, s, fate, k, slots, d, held)
    ensures Serving(k.pc) || Cleaning(k.pc) || k.pc.Finished? || Publishing(k.pc)
  {
  }
}
