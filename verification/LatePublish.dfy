/**
  Why slot exclusion alone does not keep a session's state: a run in which no
  admission overlaps another or a claim, and reports are honest, and yet a session
  loses its turn. A request whose turn has ended publishes its slot late, after
  another session has taken it: its save files the other session's state under its
  own name, and its mark calls the other session's slot clean. That slot is then
  free for a third session, with nothing saved for the second.
 */
module LatePublish {
  import opened Options
  import opened Registry
  import opened Steps
  import opened SoloAdmission
  import opened SerialAdmission
  import opened OneSlot
  import opened AdmissionRace
  import BlobTheorems

  // Every save so far is one of slot 0 for "a", and so is every visible blob.
  ghost predicate OnlyASaved(d: Disk) {
    && (forall v | v in d.saves :: d.saves[v] == Save("a", 0))
    && (forall x | Blob(x) in d.dir :: x == "a")
  }

  lemma ShowsA(d: Disk, d': Disk, shown: bool)
    requires OnlyASaved(d) && Shows(d, d', Save("a", 0), shown)
    ensures OnlyASaved(d')
  {
  }

  // Task 0, of "a", served slot 0, ended and claimed it, and is to publish.
  ghost predicate Claimed(cur: State) {
    && cur.tasks.Keys == {0} && cur.tasks[0].pc == WantWrite && cur.tasks[0].job == Job(0, "a", 0, None, false, false)
    && Quiet(cur) && cur.slots == HELD_BY_A && OnlyASaved(cur.disk)
  }

  lemma FirstServes() returns (acts: seq<Action>, cur: State)
    ensures Raced(acts, cur, OfNothing) && cur.tasks.Keys == {0} && Serves(cur.tasks[0], 0)
    ensures cur.tasks[0].session == "a" && Quiet(cur) && cur.slots == HELD_BY_A && OnlyASaved(cur.disk)
  {
    hide Raced, MarkDirty;
    acts, cur := OneArrives();
    var k;
    acts, k, cur := FindsFree(acts, cur, 0, "a", [], OfNothing);
    acts, cur := MarksAndServes(acts, cur, 0, k, OfNothing);
    MarkedByA();
  }

  lemma OneArrives() returns (acts: seq<Action>, cur: State)
    ensures cur == INIT.(tasks := map[0 := NewTask("a")]) && Raced(acts, cur, OfNothing)
  {
    assert Raced([], INIT, OfNothing);
    acts, cur := RaceArrive([], INIT, 0, "a", OfNothing);
  }

  lemma FirstClaims() returns (acts: seq<Action>, cur: State)
    ensures Raced(acts, cur, OfNothing) && Claimed(cur)
  {
    hide Raced, Path, Place;
    acts, cur := FirstServes();
    var k := cur.tasks[0];
    var more := Claims(cur, 0, k, 0);
    var k', sl := StartJob(k, 0, "a", false), SetSession(HELD_BY_A, 0, "a");
    assert sl == HELD_BY_A;
    var end := Place(cur, 0, k', FREE, None, HELD_BY_A, cur.disk);
    Placed(cur, 0, k', FREE, None, HELD_BY_A, cur.disk);
    acts := RacePast(acts, cur, 0, more, end);
    cur := end;
  }

  const HELD_BY_B: Slots := map[0 := SlotInfo(Some("b"), true, false)]
  const CLEAN_OF_B: Slots := map[0 := SlotInfo(Some("b"), false, false)]

  // Task 1, of "b", has taken slot 0 by eviction and is served.
  ghost predicate Taken1(cur: State) {
    && cur.tasks.Keys == {0, 1}
    && cur.tasks[0].pc == WantWrite && cur.tasks[0].job == Job(0, "a", 0, None, false, false)
    && Serves(cur.tasks[1], 0) && cur.tasks[1].session == "b" && Quiet(cur) && OnlyASaved(cur.disk)
  }

  // The eviction: found, published, marked.
  lemma TakesFromA(st: State, t: TaskId) returns (acts: seq<Action>, end: State)
    requires t in st.tasks && st.tasks[t] == NewTask("b") && Quiet(st) && st.slots == HELD_BY_A && OnlyASaved(st.disk)
    ensures Path(st, t, acts, end) && Quiet(end) && end.slots == HELD_BY_B && OnlyASaved(end.disk)
    ensures t in end.tasks && end.tasks[t].pc == Dispatch && end.tasks[t].steer == Some(0)
  {
    hide Path, Place, Shows;
    var job, more, k', d';
    acts, job := FindsA(st, t, "b");
    var found := Place(st, t, job, FREE, None, HELD_BY_A, st.disk);
    Placed(st, t, job, FREE, None, HELD_BY_A, st.disk);
    more, k', d' := Publishes(found, t, job, Published);
    ShowsA(st.disk, d', true);
    var clean := MarkClean(HELD_BY_A, 0);
    var mid := Place(found, t, k', FREE, None, clean, d');
    Placed(found, t, k', FREE, None, clean, d');
    PathThen(st, t, acts, found, more, mid);
    acts := acts + more;
    var k := job.(job := k'.job);
    more := Marks(mid, t, k, 0, job.diskHit);
    assert MarkDirty(clean, 0, "b") == HELD_BY_B;
    end := Place(mid, t, k.(steer := Some(0), pc := Dispatch), FREE, None, HELD_BY_B, d');
    Placed(mid, t, k.(steer := Some(0), pc := Dispatch), FREE, None, HELD_BY_B, d');
    PathThen(st, t, acts, mid, more, end);
    acts := acts + more;
  }

  lemma SecondServes() returns (acts: seq<Action>, cur: State)
    ensures Raced(acts, cur, OfNothing) && Taken1(cur) && cur.slots == HELD_BY_B
  {
    hide Raced, Path, Mute, Only, OnlyASaved;
    acts, cur := FirstClaims();
    acts, cur := RaceArrive(acts, cur, 1, "b", OfNothing);
    var more, end := TakesFromA(cur, 1);
    acts := RacePath(acts, cur, 1, more, end, OfNothing);
    acts := RaceServes(acts, end, 1, OfNothing);
    cur := Taken(end, 1);
  }

  // Task 0 publishes at last: the slot of "b" is marked clean.
  lemma FirstPublishes() returns (acts: seq<Action>, cur: State)
    ensures Raced(acts, cur, OfNothing) && cur.tasks.Keys == {0, 1} && cur.tasks[0].pc == ScanDir
    ensures Serves(cur.tasks[1], 0) && cur.tasks[1].session == "b"
    ensures Quiet(cur) && cur.slots == CLEAN_OF_B && OnlyASaved(cur.disk)
  {
    hide Raced, Path, Place, Shows;
    acts, cur := SecondServes();
    var more, k', d' := Publishes(cur, 0, cur.tasks[0], Published);
    ShowsA(cur.disk, d', true);
    assert MarkClean(HELD_BY_B, 0) == CLEAN_OF_B;
    var end := Place(cur, 0, k', FREE, None, CLEAN_OF_B, d');
    Placed(cur, 0, k', FREE, None, CLEAN_OF_B, d');
    acts := RacePast(acts, cur, 0, more, end);
    cur := end;
  }

  // The turn of "b" ends, and it claims the slot.
  lemma SecondClaims() returns (acts: seq<Action>, cur: State)
    ensures Raced(acts, cur, OfNothing) && cur.tasks.Keys == {0, 1} && cur.tasks[0].pc == ScanDir
    ensures cur.tasks[1].pc == WantWrite && cur.tasks[1].job == Job(0, "b", 0, None, false, false)
    ensures Quiet(cur) && cur.slots == CLEAN_OF_B && OnlyASaved(cur.disk)
  {
    hide Raced, Path, Place;
    acts, cur := FirstPublishes();
    var k := cur.tasks[1];
    var more := Claims(cur, 1, k, 0);
    var k' := StartJob(k, 0, "b", false);
    assert SetSession(CLEAN_OF_B, 0, "b") == CLEAN_OF_B;
    var end := Place(cur, 1, k', FREE, None, CLEAN_OF_B, cur.disk);
    Placed(cur, 1, k', FREE, None, CLEAN_OF_B, cur.disk);
    acts := RacePast(acts, cur, 1, more, end);
    cur := end;
  }

  lemma FreeForC()
    ensures PickSlot(CLEAN_OF_B, "c", Asks([0])) == (CLEAN_OF_B, Free(0))
  {
    var r := SlotState(0, false);
    assert HotSlot(CLEAN_OF_B, [0], "c") == None;
    assert Observe(CLEAN_OF_B, r) == CLEAN_OF_B;
    assert FirstFree(CLEAN_OF_B, [r]) == (CLEAN_OF_B, Free(0));
  }

  // A third session's lookup finds the slot free and clean.
  lemma ThirdLooks() returns (acts: seq<Action>, cur: State, k: Task)
    ensures Raced(acts, cur, OfNothing) && cur.tasks.Keys == {0, 1, 2} && cur.tasks[0].pc == ScanDir
    ensures cur.tasks[1].pc == WantWrite && cur.tasks[1].job == Job(0, "b", 0, None, false, false)
    ensures cur.tasks[2] == SteerTo(k, 0, false) && k.session == "c" && Quiet(cur) && OnlyASaved(cur.disk)
  {
    hide Raced, Path, Mute, Place, PickSlot, MarkDirty, Claimed, Taken1;
    acts, cur := SecondClaims();
    acts, cur := RaceArrive(acts, cur, 2, "c", OfNothing);
    FreeForC();
    var more;
    more, k := LooksUp(cur, 2, "c", Asks([0]));
    var mid := Place(cur, 2, SteerTo(k, 0, false), FREE, None, CLEAN_OF_B, cur.disk);
    Placed(cur, 2, SteerTo(k, 0, false), FREE, None, CLEAN_OF_B, cur.disk);
    acts := RacePath(acts, cur, 2, more, mid, OfNothing);
    cur := mid;
  }

  // It is served there.
  lemma ThirdServes() returns (acts: seq<Action>, cur: State)
    ensures Raced(acts, cur, OfNothing) && cur.tasks.Keys == {0, 1, 2} && cur.tasks[0].pc == ScanDir
    ensures cur.tasks[1].pc == WantWrite && cur.tasks[1].job == Job(0, "b", 0, None, false, false)
    ensures Serves(cur.tasks[2], 0) && cur.tasks[2].session == "c" && Quiet(cur) && OnlyASaved(cur.disk)
  {
    hide Raced, MarkDirty;
    var mid, k;
    acts, mid, k := ThirdLooks();
    acts, cur := MarksAndServes(acts, mid, 2, k, OfNothing);
  }

  /**
    In this run "b" has completed a turn on slot 0, "c" is being served there, and
    nothing was ever saved for "b"; whereupon b's own publish makes what "c" is
    doing the blob of "b".
   */
  lemma LatePublishLosesTurn()
      returns (acts: seq<Action>, cur: State, more: seq<Action>, end: State)
    ensures IsRun(INIT, acts) && cur == Run(INIT, acts) && IsSerialRun(INIT, acts)
    ensures acts <= more && IsRun(INIT, more) && end == Run(INIT, more) && IsSerialRun(INIT, more)
    ensures 1 in cur.tasks && cur.tasks[1].pc == WantWrite && cur.tasks[1].job == Job(0, "b", 0, None, false, false)
    ensures 2 in cur.tasks && Serves(cur.tasks[2], 0) && cur.tasks[2].session == "c"
    ensures forall v | v in cur.disk.saves :: cur.disk.saves[v] != Save("b", 0)
    ensures 2 in end.tasks && Serves(end.tasks[2], 0) && Blob("b") in end.disk.dir
    ensures exists v | v in end.disk.saves :: end.disk.saves[v] == Save("b", 0)
  {
    hide IsRun, Run, IsRace, IsSerialRun, Path, Place, Shows;
    acts, cur := ThirdServes();
    var path, k', d' := Publishes(cur, 1, cur.tasks[1], Published);
    var sl := MarkClean(cur.slots, 0);
    end := Place(cur, 1, k', FREE, None, sl, d');
    Placed(cur, 1, k', FREE, None, sl, d');
    more := RacePast(acts, cur, 1, path, end);
    RaceIsSerial(INIT, acts);
    RaceIsSerial(INIT, more);
    ShowsB(cur.disk, d');
    SomeSaveOfB(more, end, cur.disk);
  }

  lemma ShowsB(d: Disk, d': Disk)
    requires OnlyASaved(d) && Shows(d, d', Save("b", 0), true)
    ensures Blob("b") in d'.dir && forall v | v in d'.saves :: d'.saves[v] in {Save("a", 0), Save("b", 0)}
  {
  }

  lemma SomeSaveOfB(acts: seq<Action>, end: State, d: Disk)
    requires IsRun(INIT, acts) && end == Run(INIT, acts) && Blob("b") in end.disk.dir
    requires forall v | v in end.disk.saves :: end.disk.saves[v] in {Save("a", 0), Save("b", 0)}
    ensures exists v | v in end.disk.saves :: end.disk.saves[v] == Save("b", 0)
  {
    BlobTheorems.TornBlobsImpossible(acts, "b");
    var v := end.disk.inodes[end.disk.dir[Blob("b")]].content.save;
    assert end.disk.saves[v] == Save("b", 0);
  }

  lemma {:induction false} RaceIsSerial(st: State, acts: seq<Action>)
    requires IsRace(st, acts, OfNothing)
    ensures IsSerialRun(st, acts)
    decreases |acts|
  {
    hide Serial, HonestAct, Possible, Do;
    if acts != [] {
      RaceIsSerial(Do(st, acts[0]), acts[1..]);
    }
  }
}
