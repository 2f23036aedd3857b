/**
  Eviction at the small-step grain: a dirty slot always names its session, so an
  eviction always has something to publish, and a slot is taken by eviction only
  after that publish went through to its end.
 */
module EvictionTheorems {
  import opened Options
  import opened Registry
  import opened AdmissionFacts
  import opened Steps

  predicate Steering(pc: Pc) {
    pc.Restore? || pc.MarkLock? || pc.Mark?
  }

  // A request on its way to a slot that it did not find hot or free.
  predicate TakenByEviction(k: Task) {
    Steering(k.pc) && k.pick.NoSlot?
  }

  predicate PublishedFirst(k: Task) {
    TakenByEviction(k) ==> k.job.evicting && k.job.published && k.steer == Some(k.job.slot)
  }

  ghost predicate Evictable(st: State) {
    DirtyHasOwner(st.slots) && forall t | t in st.tasks :: PublishedFirst(st.tasks[t])
  }

  lemma SlotsKeepOwners(slots: Slots, k: Task)
    requires DirtyHasOwner(slots)
    ensures DirtyHasOwner(SlotsAfter(slots, k))
  {
    if k.pc.FreeScan? {
      FirstFreeFacts(slots, k.report);
    } else if k.pc.VictimScan? {
      FirstDirtyFacts(slots, k.report);
    }
    forall id | Dirty(SlotsAfter(slots, k), id) ensures Label(SlotsAfter(slots, k), id).Some? {
      assert Dirty(slots, id) ==> Label(slots, id).Some?;
    }
  }

  lemma VictimIsNamed(slots: Slots, report: seq<SlotState>)
    requires DirtyHasOwner(slots)
    ensures FirstDirty(slots, report).1.Victim? ==> FirstDirty(slots, report).1.session.Some?
  {
    FirstDirtyFacts(slots, report);
  }

  lemma LookupPublishesFirst(st: State, k: Task, ch: Choice)
    requires LookingUp(k.pc)
    ensures PublishedFirst(LookupNext(st, k, ch))
  {
  }

  lemma EvictPublishesFirst(st: State, k: Task, ch: Choice)
    requires Evicting(k.pc) && DirtyHasOwner(st.slots)
    ensures PublishedFirst(EvictNext(st, k, ch))
  {
    VictimIsNamed(st.slots, k.report);
  }

  lemma PublishPublishesFirst(d: Disk, k: Task, ch: Choice)
    requires Publishing(k.pc)
    ensures PublishedFirst(PublishNext(d, k, ch))
  {
  }

  lemma TurnPublishesFirst(k: Task, ch: Choice)
    requires !LookingUp(k.pc) && !Evicting(k.pc) && !Publishing(k.pc) && PublishedFirst(k)
    ensures PublishedFirst(TurnNext(k, ch))
  {
  }

  lemma DoEvictable(st: State, a: Action)
    requires Evictable(st) && Possible(st, a)
    ensures Evictable(Do(st, a))
  {
    hide SlotsAfter, DiskAfter, LookupNext, EvictNext, PublishNext, TurnNext, PublishedFirst, DirtyHasOwner;
    match a
    case Arrive(t, s) => NewcomerPublishesFirst(s);
    case Act(t, ch) =>
      var k := st.tasks[t];
      SlotsKeepOwners(st.slots, k);
      if LookingUp(k.pc) {
        LookupPublishesFirst(st, k, ch);
      } else if Evicting(k.pc) {
        EvictPublishesFirst(st, k, ch);
      } else if Publishing(k.pc) {
        PublishPublishesFirst(st.disk, k, ch);
      } else {
        TurnPublishesFirst(k, ch);
      }
    case Drop(t) => DroppedPublishesNothing(st.tasks[t]);
    case Crash(_, _) => NothingOwned();
  }

  lemma NewcomerPublishesFirst(s: Session)
    ensures PublishedFirst(NewTask(s))
  {
  }

  lemma DroppedPublishesNothing(k: Task)
    ensures PublishedFirst(At(k, Finished))
  {
  }

  lemma NothingOwned()
    ensures DirtyHasOwner(map[])
  {
  }

  lemma {:induction false} RunEvictable(st: State, acts: seq<Action>)
    requires Evictable(st) && IsRun(st, acts)
    ensures Evictable(Run(st, acts))
    decreases |acts|
  {
    if acts != [] {
      DoEvictable(st, acts[0]);
      RunEvictable(Do(st, acts[0]), acts[1..]);
    }
  }

  /** A scan for a victim never comes back with a slot that has no session. */
  lemma EvictionAlwaysHasAVictim(acts: seq<Action>, t: TaskId)
    requires IsRun(INIT, acts) && t in Run(INIT, acts).tasks
    requires Run(INIT, acts).tasks[t].pc == VictimScan
    ensures var end := Run(INIT, acts);
            var v := FirstDirty(end.slots, end.tasks[t].report).1;
            v.NoVictim? || v.session.Some?
  {
    RunEvictable(INIT, acts);
    var end := Run(INIT, acts);
    VictimIsNamed(end.slots, end.tasks[t].report);
  }

  // The flags alone; `EvictionHistory.NeverTakenUnsaved` says what they stand for.
  lemma FlagsSayPublished(acts: seq<Action>, t: TaskId)
    requires IsRun(INIT, acts) && t in Run(INIT, acts).tasks
    requires TakenByEviction(Run(INIT, acts).tasks[t])
    ensures var k := Run(INIT, acts).tasks[t];
            k.job.evicting && k.job.published && k.steer == Some(k.job.slot)
  {
    RunEvictable(INIT, acts);
    var k := Run(INIT, acts).tasks[t];
    assert PublishedFirst(k);
  }
}
