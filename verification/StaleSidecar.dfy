/**
  How a blob comes to be published with the sidecar of an older save: that save
  left its scratch sidecar behind when its publish failed, and the next save of the
  session writes none.
 */
module StaleSidecar {
  import opened Options
  import opened Registry
  import opened Steps
  import opened SoloAdmission
  import opened OneSlot
  import BlobTheorems
  import opened PublishEffect

  // A dispatched request is taken up, its turn ends, and its publish begins.
  lemma TurnEnds(acts: seq<Action>, cur: State, t: TaskId, id: SlotId) returns (acts': seq<Action>, end: State, k: Task)
    requires Reaches(acts, cur) && t in cur.tasks && Quiet(cur)
    requires cur.tasks[t].pc == Dispatch && cur.tasks[t].steer == Some(id)
    ensures Reaches(acts', end)
    ensures end == Place(cur, t, k, WriteHeld(t), None, SetSession(cur.slots, id, k.session), cur.disk)
    ensures k == At(StartJob(cur.tasks[t], id, cur.tasks[t].session, false), BeginSave)
  {
    hide Path, Reaches, Place, SetSession, Step, LookupNext, EvictNext, PublishNext;
    var k0 := cur.tasks[t];
    Stands(cur, t, k0);
    var more := AdvanceTurn(cur, t, [], k0, None, cur.slots, cur.disk, NO_CHOICE);
    var served := Place(cur, t, At(k0, Serve), FREE, None, cur.slots, cur.disk);
    Placed(cur, t, At(k0, Serve), FREE, None, cur.slots, cur.disk);
    acts' := ThenPath(acts, cur, t, more, served);
    more := Claims(served, t, At(k0, Serve), id);
    var k1, sl := StartJob(k0, id, k0.session, false), SetSession(cur.slots, id, k0.session);
    PlaceAgain(cur, t, At(k0, Serve), k1, cur.slots, sl, cur.disk);
    var claimed := Place(cur, t, k1, FREE, None, sl, cur.disk);
    Placed(cur, t, k1, FREE, None, sl, cur.disk);
    acts' := ThenPath(acts', served, t, more, claimed);
    more := Queues(claimed, t, k1);
    k := At(k1, BeginSave);
    end := Place(cur, t, k, WriteHeld(t), None, sl, cur.disk);
    PlaceOver(cur, t, k1, k, FREE, WriteHeld(t), sl, cur.disk);
    acts' := ThenPath(acts', claimed, t, more, end);
  }

  // The backend saves with a sidecar, then the scratch file cannot be opened.
  lemma SaveFails(acts: seq<Action>, cur: State, t: TaskId, k: Task, sl: Slots) returns (acts': seq<Action>, end: State)
    requires t in cur.tasks && k.pc == BeginSave && !k.job.evicting && cur.slots == sl
    requires Reaches(acts, Place(cur, t, k, WriteHeld(t), None, sl, cur.disk))
    ensures Reaches(acts', end) && Quiet(end) && end.slots == sl && end.tasks.Keys == cur.tasks.Keys
    ensures ScratchSidecar(k.job.session) in end.disk.dir
  {
    hide Path, Reaches, Place, Shows;
    var at := Place(cur, t, k, WriteHeld(t), None, sl, cur.disk);
    Placed(cur, t, k, WriteHeld(t), None, sl, cur.disk);
    var more: seq<Action>, k', d';
    Stands(at, t, k);
    more, k', d' := Saves(at, t, [], k, sl, cur.disk, true);
    more, k', d' := SaveStep(at, t, more, k', sl, d', NO_CHOICE.(ok := false));
    more, k' := LeavesWrite(at, t, more, k', sl, d');
    end := Place(at, t, k', FREE, None, sl, d');
    Placed(at, t, k', FREE, None, sl, d');
    acts' := ThenPath(acts, at, t, more, end);
    assert end.tasks.Keys == cur.tasks.Keys by {
      PlaceKeys(cur, t, k, WriteHeld(t), sl, cur.disk);
      PlaceKeys(at, t, k', FREE, sl, d');
    }
  }

  // Its turn ends, and its publish fails.
  lemma FirstTurn() returns (acts: seq<Action>, end: State)
    ensures Reaches(acts, end) && Quiet(end) && end.tasks.Keys == {0} && Label(end.slots, 0) == Some("a")
    ensures ScratchSidecar("a") in end.disk.dir
  {
    hide Reaches, MarkDirty, SetSession;
    acts, end := FirstAdmitted();
    acts, end := FailedTurn(acts, end, 0);
    MarkedLabel();
  }

  lemma MarkedLabel()
    ensures Label(SetSession(MarkDirty(SEEN, 0, "a"), 0, "a"), 0) == Some("a")
    ensures Label(MarkDirty(SEEN, 0, "a"), 0) == Some("a")
  {
  }

  lemma FailedTurn(acts: seq<Action>, cur: State, t: TaskId) returns (acts': seq<Action>, end: State)
    requires Reaches(acts, cur) && t in cur.tasks && Quiet(cur)
    requires cur.tasks[t].pc == Dispatch && cur.tasks[t].steer == Some(0)
    ensures Reaches(acts', end) && Quiet(end) && end.tasks.Keys == cur.tasks.Keys
    ensures end.slots == SetSession(cur.slots, 0, cur.tasks[t].session)
    ensures ScratchSidecar(cur.tasks[t].session) in end.disk.dir
  {
    hide Reaches, Place, SetSession;
    var mid, k;
    acts', mid, k := TurnEnds(acts, cur, t, 0);
    var sl := SetSession(cur.slots, 0, k.session);
    Placed(cur, t, k, WriteHeld(t), None, sl, cur.disk);
    PlaceKeys(cur, t, k, WriteHeld(t), sl, cur.disk);
    var at := Place(mid, t, k, WriteHeld(t), None, sl, cur.disk);
    PlaceOver(cur, t, k, k, WriteHeld(t), WriteHeld(t), sl, cur.disk);
    acts', end := SaveFails(acts', mid, t, k, sl);
  }

  /**
    A run at whose end the second turn of a session is about to save, with the
    scratch sidecar of the first still there; should that save write no sidecar and
    nothing else fail, the new blob is shown beside the old save's sidecar.
   */
  lemma OldSidecarRidesAlong() returns (acts: seq<Action>, end: State)
    ensures IsRun(INIT, acts) && end == Run(INIT, acts)
    ensures 1 in end.tasks && end.tasks[1].pc == BeginSave && end.tasks[1].job.session == "a"
    ensures ScratchSidecar("a") in end.disk.dir
    ensures var (d', _) := PublishSteps(end.disk, end.tasks[1], 7, false, true);
            && Bound(d', Blob("a")).Some? && Bound(d', Sidecar("a")) == Bound(end.disk, ScratchSidecar("a"))
  {
    hide Path, Place, MarkDirty, SetSession, IsRun, Run, BlobTheorems.Sound, PublishSteps;
    var cur: State;
    acts, cur := FirstTurn();
    acts := ThenArrive(acts, cur, 1, "a");
    var met := cur.(tasks := cur.tasks[1 := NewTask("a")]);
    HotZero(cur.slots);
    var more, k := AdmitHot(met, 1, "a", [0], 0);
    var sl := MarkDirty(met.slots, 0, "a");
    var mid := Place(met, 1, k, FREE, None, sl, met.disk);
    Placed(met, 1, k, FREE, None, sl, met.disk);
    acts := ThenPath(acts, met, 1, more, mid);
    var k';
    acts, end, k' := TurnEnds(acts, mid, 1, 0);
    Placed(mid, 1, k', WriteHeld(1), None, SetSession(sl, 0, k'.session), met.disk);
    BlobTheorems.InitSafe();
    BlobTheorems.RunSafe(INIT, acts);
    UninterruptedPublish(end.disk, end.tasks[1], false, true);
  }

  lemma HotZero(slots: Slots)
    requires Label(slots, 0) == Some("a")
    ensures HotSlot(slots, [0], "a") == Some(0)
  {
  }
}
