/**
  The scenes of the runs that show what can go wrong: a backend with one slot,
  always reported idle, and what a request finds there.
 */
module OneSlot {
  import opened Options
  import opened Registry
  import opened Steps
  import opened SoloAdmission

  const IDLE := Some([SlotState(0, false)])

  // Slot 0 seen, and nobody's; or dirty with the state of "a".
  const SEEN: Slots := map[0 := UNKNOWN]
  const HELD_BY_A: Slots := map[0 := SlotInfo(Some("a"), true, false)]

  function Asks(order: seq<SlotId>): Env {
    Env(order, IDLE, IDLE, Published, true)
  }

  lemma FreeForAnyone(slots: Slots, order: seq<SlotId>, s: Session)
    requires (slots == map[] && order == []) || (slots == SEEN && order == [0])
    ensures PickSlot(slots, s, Asks(order)) == (SEEN, Free(0))
  {
    assert order == [0] ==> [0][1..] == [];
    assert HotSlot(slots, order, s) == None;
    assert Observe(slots, SlotState(0, false)) == SEEN;
    assert FirstFree(slots, [SlotState(0, false)]) == (SEEN, Free(0));
  }

  lemma NothingFree(s: Session)
    requires s != "a"
    ensures PickSlot(HELD_BY_A, s, Asks([0])) == (HELD_BY_A, NoSlot)
    ensures FindEvictable(HELD_BY_A, Asks([0])) == (HELD_BY_A, Victim(0, Some("a")))
  {
    var r := SlotState(0, false);
    assert HotSlot(HELD_BY_A, [0], s) == None;
    assert Observe(HELD_BY_A, r) == HELD_BY_A;
    assert FirstFree(HELD_BY_A, [r]) == (HELD_BY_A, NoSlot);
    assert FirstDirty(HELD_BY_A, [r]) == (HELD_BY_A, Victim(0, Some("a")));
  }

  lemma MarkedByA()
    ensures MarkDirty(SEEN, 0, "a") == HELD_BY_A
  {
  }

  // The first request of the session "a" is admitted to slot 0.
  lemma FirstAdmitted() returns (acts: seq<Action>, end: State)
    ensures Reaches(acts, end) && Quiet(end) && end.tasks.Keys == {0} && end.slots == MarkDirty(SEEN, 0, "a")
    ensures end.tasks[0].session == "a" && end.tasks[0].pc == Dispatch && end.tasks[0].steer == Some(0)
  {
    hide Path, Reaches, Place, MarkDirty;
    acts := StartsAt();
    acts := ThenArrive(acts, INIT, 0, "a");
    var cur := INIT.(tasks := INIT.tasks[0 := NewTask("a")]);
    FreeForAnyone(map[], [], "a");
    var more, k := LooksUp(cur, 0, "a", Asks([]));
    var mid := Place(cur, 0, AfterLookup(k), FREE, None, SEEN, cur.disk);
    Placed(cur, 0, AfterLookup(k), FREE, None, SEEN, cur.disk);
    acts := ThenPath(acts, cur, 0, more, mid);
    more := Marks(mid, 0, k, 0, false);
    var k1, sl := k.(steer := Some(0), pc := Dispatch), MarkDirty(SEEN, 0, "a");
    end := Place(mid, 0, k1, FREE, None, sl, cur.disk);
    Placed(mid, 0, k1, FREE, None, sl, cur.disk);
    PlaceKeys(cur, 0, AfterLookup(k), FREE, SEEN, cur.disk);
    PlaceKeys(mid, 0, k1, FREE, sl, cur.disk);
    acts := ThenPath(acts, mid, 0, more, end);
  }

  // A request of another session finds slot 0 to publish for "a".
  lemma FindsA(st: State, t: TaskId, s: Session) returns (acts: seq<Action>, job: Task)
    requires t in st.tasks && st.tasks[t] == NewTask(s) && s != "a" && Quiet(st) && st.slots == HELD_BY_A
    ensures Path(st, t, acts, Place(st, t, job, FREE, None, HELD_BY_A, st.disk))
    ensures job.pc == WantWrite && job.job == Job(0, "a", 0, None, true, false)
    ensures job.session == s && job.diskHit == (Blob(s) in st.disk.dir) && job.steer == None
  {
    hide Path, Place, PickSlot, FindEvictable;
    NothingFree(s);
    var k1, k2;
    acts, k1 := LooksUp(st, t, s, Asks([0]));
    var asked := At(k1, AskVictims);
    var mid := Place(st, t, asked, FREE, None, HELD_BY_A, st.disk);
    Placed(st, t, asked, FREE, None, HELD_BY_A, st.disk);
    var more;
    more, k2 := FindsVictim(mid, t, asked, Asks([0]));
    job := StartJob(k2, 0, "a", true);
    PlaceOver(st, t, asked, job, FREE, FREE, HELD_BY_A, st.disk);
    var found := Place(st, t, job, FREE, None, HELD_BY_A, st.disk);
    PathThen(st, t, acts, mid, more, found);
    acts := acts + more;
  }
}
