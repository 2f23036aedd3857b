/**
  Why slot exclusion asks for admissions that overlap neither each other nor the
  claim at a turn's end. In small steps two lookups can both find a slot free
  before either marks it (docs/REVIEW-2026-09-30.md:54). And a request whose
  response has just ended can put its session back on a slot that another session
  has taken by eviction in the meantime. In either run two sessions then share a
  slot, with every report honest.
 */
module AdmissionRace {
  import opened Options
  import opened Registry
  import opened AdmissionFacts
  import opened Steps
  import opened SoloAdmission
  import opened SerialAdmission
  import opened OneSlot
  import SoloRuns

  /** The one kind of overlap that a run is allowed, if any. */
  datatype Overlap = OfAdmissions | OfClaims | OfNothing

  ghost predicate Only(st: State, o: Overlap) {
    match o
    case OfAdmissions => forall t | t in st.tasks :: !Claiming(st.tasks[t])
    case OfClaims =>
      forall t, u | t in st.tasks && u in st.tasks && t != u :: !(Admitting(st.tasks[t]) && Admitting(st.tasks[u]))
    case OfNothing => Serial(st)
  }

  /** A run with honest reports and no other overlap. */
  ghost predicate IsRace(st: State, acts: seq<Action>, o: Overlap)
    decreases |acts|
  {
    && Only(st, o)
    && (acts == [] || (Possible(st, acts[0]) && HonestAct(st, acts[0]) && IsRace(Do(st, acts[0]), acts[1..], o)))
  }

  ghost predicate Raced(acts: seq<Action>, cur: State, o: Overlap) {
    IsRun(INIT, acts) && Run(INIT, acts) == cur && IsRace(INIT, acts, o)
  }

  lemma RaceConcat(st: State, a: seq<Action>, b: seq<Action>, o: Overlap)
    requires IsRun(st, a) && IsRun(Run(st, a), b) && IsRace(st, a, o) && IsRace(Run(st, a), b, o)
    ensures IsRace(st, a + b, o) && IsRun(st, a + b) && Run(st, a + b) == Run(Run(st, a), b)
  {
    RunThen(st, a, b);
    RacesThen(st, a, b, o);
  }

  lemma {:induction false} RacesThen(st: State, a: seq<Action>, b: seq<Action>, o: Overlap)
    requires IsRun(st, a) && IsRace(st, a, o) && IsRace(Run(st, a), b, o)
    ensures IsRace(st, a + b, o)
    decreases |a|
  {
    hide Only, HonestAct, Possible, Do;
    if a == [] {
      assert a + b == b;
    } else {
      assert (a + b)[1..] == a[1..] + b;
      RacesThen(Do(st, a[0]), a[1..], b, o);
    }
  }

  // --------------------------------------------------- the path of one request

  lemma {:induction false} PastPath(st: State, t: TaskId, acts: seq<Action>, end: State)
    requires Path(st, t, acts, end) && t in st.tasks && SoloRuns.Past(st.tasks[t])
    ensures t in end.tasks && SoloRuns.Past(end.tasks[t])
    decreases |acts|
  {
    hide SoloRuns.Past, TaskAfter, SlotsAfter, DiskAfter, GateAfter, MutexAfter;
    if acts != [] {
      assert acts[0].Act? && acts[0].t == t;
      SoloRuns.PastNext(st, st.tasks[t], acts[0].choice);
      PastPath(Step(st, t, acts[0].choice), t, acts[1..], end);
    }
  }

  lemma {:induction false} PathFrame(st: State, t: TaskId, acts: seq<Action>, end: State)
    requires Path(st, t, acts, end) && t in st.tasks
    ensures end.tasks.Keys == st.tasks.Keys && end.tasks[t].session == st.tasks[t].session
    ensures forall u | u in st.tasks && u != t :: end.tasks[u] == st.tasks[u]
    decreases |acts|
  {
    hide TaskAfter, SlotsAfter, DiskAfter, GateAfter, MutexAfter;
    if acts != [] {
      assert acts[0].Act? && acts[0].t == t;
      SessionStays(st, st.tasks[t], acts[0].choice);
      PathFrame(Step(st, t, acts[0].choice), t, acts[1..], end);
    }
  }

  predicate OthersQuiet(st: State, t: TaskId, o: Overlap) {
    forall u | u in st.tasks && u != t ::
      && (!o.OfClaims? ==> !Claiming(st.tasks[u]))
      && (!o.OfAdmissions? ==> !Admitting(st.tasks[u]))
  }

  predicate NobodyServes(st: State, t: TaskId) {
    forall u | u in st.tasks && u != t :: !st.tasks[u].pc.Serve?
  }

  // A request on its way through its admission, while the others do nothing.
  lemma {:induction false} PathRaces(st: State, t: TaskId, acts: seq<Action>, end: State, o: Overlap)
    requires Path(st, t, acts, end) && t in st.tasks && t in end.tasks && !SoloRuns.Past(end.tasks[t])
    requires OthersQuiet(st, t, o) && (Mute(acts) || NobodyServes(st, t))
    ensures IsRace(st, acts, o)
    decreases |acts|
  {
    hide TaskAfter, SlotsAfter, DiskAfter, GateAfter, MutexAfter;
    if Claiming(st.tasks[t]) {
      PastPath(st, t, acts, end);
      assert false;
    }
    if acts != [] {
      var a := acts[0];
      assert a.Act? && a.t == t && a in acts;
      assert HonestAct(st, a);
      PathRaces(Step(st, t, a.choice), t, acts[1..], end, o);
    }
  }

  // A request past its dispatch, while the others do nothing.
  lemma {:induction false} PastRaces(st: State, t: TaskId, acts: seq<Action>, end: State)
    requires Path(st, t, acts, end) && t in st.tasks && SoloRuns.Past(st.tasks[t]) && OthersQuiet(st, t, OfNothing)
    ensures IsRace(st, acts, OfNothing)
    decreases |acts|
  {
    hide TaskAfter, SlotsAfter, DiskAfter, GateAfter, MutexAfter;
    if acts != [] {
      var a := acts[0];
      assert a.Act? && a.t == t && a in acts;
      SoloRuns.PastNext(st, st.tasks[t], a.choice);
      PastRaces(Step(st, t, a.choice), t, acts[1..], end);
    }
  }

  // ------------------------------------------------------------ building a run

  lemma RacePast(acts: seq<Action>, cur: State, t: TaskId, more: seq<Action>, end: State) returns (acts': seq<Action>)
    requires Raced(acts, cur, OfNothing) && Path(cur, t, more, end) && t in cur.tasks
    requires SoloRuns.Past(cur.tasks[t]) && OthersQuiet(cur, t, OfNothing)
    ensures Raced(acts', end, OfNothing) && acts <= acts'
    ensures end.tasks.Keys == cur.tasks.Keys && end.tasks[t].session == cur.tasks[t].session
    ensures forall u | u in cur.tasks && u != t :: end.tasks[u] == cur.tasks[u]
  {
    hide IsRun, Run, IsRace, SoloRuns.Past, OthersQuiet;
    PastRaces(cur, t, more, end);
    PathFrame(cur, t, more, end);
    RaceConcat(INIT, acts, more, OfNothing);
    acts' := acts + more;
  }

  lemma RacePath(acts: seq<Action>, cur: State, t: TaskId, more: seq<Action>, end: State, o: Overlap)
      returns (acts': seq<Action>)
    requires Raced(acts, cur, o) && Path(cur, t, more, end) && t in cur.tasks && t in end.tasks
    requires !SoloRuns.Past(end.tasks[t]) && OthersQuiet(cur, t, o) && (Mute(more) || NobodyServes(cur, t))
    ensures Raced(acts', end, o) && acts <= acts'
    ensures end.tasks.Keys == cur.tasks.Keys && end.tasks[t].session == cur.tasks[t].session
    ensures forall u | u in cur.tasks && u != t :: end.tasks[u] == cur.tasks[u]
  {
    hide IsRun, Run, IsRace, SoloRuns.Past, OthersQuiet, Mute, NobodyServes;
    PathRaces(cur, t, more, end, o);
    PathFrame(cur, t, more, end);
    RaceConcat(INIT, acts, more, o);
    acts' := acts + more;
  }

  lemma RaceAct(acts: seq<Action>, cur: State, a: Action, o: Overlap) returns (acts': seq<Action>, end: State)
    requires Raced(acts, cur, o) && Possible(cur, a) && HonestAct(cur, a)
    requires Only(cur, o) && Only(Do(cur, a), o)
    ensures end == Do(cur, a) && Raced(acts', end, o) && acts <= acts'
  {
    hide Only, HonestAct;
    end := Do(cur, a);
    assert [a][1..] == [];
    assert IsRace(end, [], o) && Run(end, []) == end;
    assert IsRace(cur, [a], o) && Run(cur, [a]) == end;
    RaceConcat(INIT, acts, [a], o);
    acts' := acts + [a];
  }

  lemma ArrivalIsFair(cur: State, t: TaskId, s: Session, o: Overlap)
    requires Only(cur, o) && t !in cur.tasks
    ensures Possible(cur, Arrive(t, s)) && HonestAct(cur, Arrive(t, s)) && Only(Do(cur, Arrive(t, s)), o)
  {
  }

  lemma {:induction false} RaceEnds(st: State, acts: seq<Action>, o: Overlap)
    requires IsRun(st, acts) && IsRace(st, acts, o)
    ensures Only(Run(st, acts), o)
    decreases |acts|
  {
    hide Only, HonestAct, Possible, Do;
    if acts != [] {
      RaceEnds(Do(st, acts[0]), acts[1..], o);
    }
  }

  lemma RaceArrive(acts: seq<Action>, cur: State, t: TaskId, s: Session, o: Overlap)
      returns (acts': seq<Action>, end: State)
    requires Raced(acts, cur, o) && t !in cur.tasks
    ensures end == cur.(tasks := cur.tasks[t := NewTask(s)]) && Raced(acts', end, o) && acts <= acts'
  {
    hide IsRun, Run, IsRace, Only, HonestAct;
    RaceEnds(INIT, acts, o);
    ArrivalIsFair(cur, t, s, o);
    acts', end := RaceAct(acts, cur, Arrive(t, s), o);
  }

  // A dispatched request is taken up.
  function Taken(st: State, t: TaskId): State
    requires t in st.tasks
  {
    st.(tasks := st.tasks[t := At(st.tasks[t], Serve)])
  }

  lemma ServingIsFair(cur: State, t: TaskId, o: Overlap)
    requires Only(cur, o) && t in cur.tasks && cur.tasks[t].pc == Dispatch
    ensures Possible(cur, Act(t, NO_CHOICE)) && HonestAct(cur, Act(t, NO_CHOICE))
    ensures Do(cur, Act(t, NO_CHOICE)) == Taken(cur, t) && Only(Taken(cur, t), o)
  {
  }

  lemma RaceServes(acts: seq<Action>, cur: State, t: TaskId, o: Overlap) returns (acts': seq<Action>)
    requires Raced(acts, cur, o) && t in cur.tasks && cur.tasks[t].pc == Dispatch
    ensures Raced(acts', Taken(cur, t), o) && acts <= acts'
  {
    hide IsRun, Run, IsRace, Only, HonestAct, Do, Possible, Taken;
    RaceEnds(INIT, acts, o);
    ServingIsFair(cur, t, o);
    var end: State;
    acts', end := RaceAct(acts, cur, Act(t, NO_CHOICE), o);
  }

  // ------------------------------------------------- two admissions that overlap

  // A lookup that finds slot 0 free, while nobody is served.
  lemma FindsFree(acts: seq<Action>, cur: State, t: TaskId, s: Session, order: seq<SlotId>, o: Overlap)
      returns (acts': seq<Action>, k: Task, end: State)
    requires Raced(acts, cur, o) && t in cur.tasks && cur.tasks[t] == NewTask(s)
    requires cur.gate == FREE && cur.mutex == None && Blob(s) !in cur.disk.dir
    requires OthersQuiet(cur, t, o) && NobodyServes(cur, t)
    requires (cur.slots == map[] && order == []) || (cur.slots == SEEN && order == [0])
    ensures k.session == s && end == Place(cur, t, SteerTo(k, 0, false), FREE, None, SEEN, cur.disk)
    ensures Raced(acts', end, o) && acts <= acts'
  {
    hide Raced, Path, OthersQuiet, NobodyServes, PickSlot, Mute;
    FreeForAnyone(cur.slots, order, s);
    var more: seq<Action>;
    more, k := LooksUp(cur, t, s, Asks(order));
    end := Place(cur, t, SteerTo(k, 0, false), FREE, None, SEEN, cur.disk);
    acts' := RacePath(acts, cur, t, more, end, o);
  }

  // A request steered to slot 0 marks it and is served.
  lemma MarksAndServes(acts: seq<Action>, cur: State, t: TaskId, k: Task, o: Overlap)
      returns (acts': seq<Action>, end: State)
    requires Raced(acts, cur, o) && t in cur.tasks && cur.tasks[t] == SteerTo(k, 0, false)
    requires cur.gate == FREE && cur.mutex == None && OthersQuiet(cur, t, o)
    ensures end == Place(cur, t, k.(steer := Some(0), pc := Serve), FREE, None,
                         MarkDirty(cur.slots, 0, k.session), cur.disk)
    ensures Raced(acts', end, o) && acts <= acts'
  {
    hide Raced, Path, Mute, NobodyServes, MarkDirty;
    var more := Marks(cur, t, k, 0, false);
    var mid := Place(cur, t, k.(steer := Some(0), pc := Dispatch), FREE, None,
                     MarkDirty(cur.slots, 0, k.session), cur.disk);
    acts' := RacePath(acts, cur, t, more, mid, o);
    acts' := RaceServes(acts', mid, t, o);
    end := Place(cur, t, k.(steer := Some(0), pc := Serve), FREE, None, MarkDirty(cur.slots, 0, k.session), cur.disk);
    assert Taken(mid, t).tasks == end.tasks;
  }

  lemma BothArrive() returns (acts: seq<Action>, cur: State)
    ensures cur == INIT.(tasks := map[0 := NewTask("a"), 1 := NewTask("b")]) && Raced(acts, cur, OfAdmissions)
  {
    assert Raced([], INIT, OfAdmissions);
    acts, cur := RaceArrive([], INIT, 0, "a", OfAdmissions);
    acts, cur := RaceArrive(acts, cur, 1, "b", OfAdmissions);
    assert cur.tasks == map[0 := NewTask("a"), 1 := NewTask("b")];
  }

  /** Two sessions served on one slot at once: their admissions overlapped. */
  lemma TwoSessionsOnOneSlot() returns (acts: seq<Action>, end: State)
    ensures IsRun(INIT, acts) && end == Run(INIT, acts) && IsRace(INIT, acts, OfAdmissions)
    ensures 0 in end.tasks && 1 in end.tasks && Serves(end.tasks[0], 0) && Serves(end.tasks[1], 0)
    ensures end.tasks[0].session == "a" && end.tasks[1].session == "b"
  {
    hide IsRun, Run, IsRace, MarkDirty;
    acts, end := BothArrive();
    var k0, k1;
    acts, k0, end := FindsFree(acts, end, 0, "a", [], OfAdmissions);
    acts, k1, end := FindsFree(acts, end, 1, "b", [0], OfAdmissions);
    acts, end := MarksAndServes(acts, end, 0, k0, OfAdmissions);
    acts, end := MarksAndServes(acts, end, 1, k1, OfAdmissions);
  }

  /**
    The same run, looked at before the last mark: slot 0 is dirty, "a" is being
    served on it, and nothing was ever saved; afterwards the registry says "b".
   */
  lemma DirtySlotIsTaken() returns (acts: seq<Action>, cur: State, more: seq<Action>, end: State)
    ensures IsRun(INIT, acts) && cur == Run(INIT, acts) && IsRace(INIT, acts, OfAdmissions)
    ensures acts <= more && IsRun(INIT, more) && end == Run(INIT, more) && IsRace(INIT, more, OfAdmissions)
    ensures 0 in cur.tasks && 0 in end.tasks && Serves(cur.tasks[0], 0) && Serves(end.tasks[0], 0)
    ensures Label(cur.slots, 0) == Some("a") && Dirty(cur.slots, 0) && Label(end.slots, 0) == Some("b")
    ensures cur.disk.saves == end.disk.saves == map[]
  {
    hide IsRun, Run, IsRace, MarkDirty;
    acts, cur := BothArrive();
    var k0, k1;
    acts, k0, cur := FindsFree(acts, cur, 0, "a", [], OfAdmissions);
    acts, k1, cur := FindsFree(acts, cur, 1, "b", [0], OfAdmissions);
    acts, cur := MarksAndServes(acts, cur, 0, k0, OfAdmissions);
    more, end := MarksAndServes(acts, cur, 1, k1, OfAdmissions);
    MarkLabels(SEEN, 0, "a");
    MarkLabels(cur.slots, 0, "b");
  }

  lemma MarkLabels(slots: Slots, id: SlotId, s: Session)
    ensures Label(MarkDirty(slots, id, s), id) == Some(s) && Dirty(MarkDirty(slots, id, s), id)
  {
  }

  // --------------------------------------- an admission that overlaps a claim

  // A request admitted and taken up while nobody is served and nobody admitted.
  lemma AdmitsAndServes(acts: seq<Action>, cur: State, t: TaskId, s: Session, c: Core, e: Env)
      returns (acts': seq<Action>, end: State)
    requires Raced(acts, cur, OfClaims) && t in cur.tasks && cur.tasks[t] == NewTask(s)
    requires SoloAdmission.Quiet(cur) && Agrees(cur, c) && OthersQuiet(cur, t, OfClaims) && NobodyServes(cur, t)
    ensures Raced(acts', end, OfClaims) && end.tasks.Keys == cur.tasks.Keys
    ensures forall u | u in cur.tasks && u != t :: end.tasks[u] == cur.tasks[u]
    ensures var k := end.tasks[t];
            k.pc == Serve && k.session == s && k.steer == SteerOf(Admit(c, s, e).1)
    ensures SoloAdmission.Quiet(end) && Agrees(end, Admit(c, s, e).0)
  {
    hide Raced, Path, Mute, NobodyServes, Admit, Agrees;
    var more, mid := AdmitAlone(cur, t, s, c, e);
    acts' := RacePath(acts, cur, t, more, mid, OfClaims);
    acts' := RaceServes(acts', mid, t, OfClaims);
    end := Taken(mid, t);
    SameAgrees(mid, end, Admit(c, s, e).0);
  }

  lemma SameAgrees(st: State, st': State, c: Core)
    requires Agrees(st, c) && st'.slots == st.slots && st'.disk == st.disk
    ensures Agrees(st', c)
  {
  }

  // Task 0 served slot 0 for "a"; its response has ended and it has yet to claim.
  ghost predicate Ended(cur: State) {
    && cur.tasks.Keys == {0} && cur.tasks[0].pc == ClaimLock && cur.tasks[0].steer == Some(0)
    && cur.tasks[0].session == "a" && SoloAdmission.Quiet(cur)
    && Agrees(cur, Core(HELD_BY_A, map[], map[]))
  }

  lemma FirstEnds() returns (acts: seq<Action>, cur: State)
    ensures Raced(acts, cur, OfClaims) && Ended(cur)
  {
    hide Raced, Admit;
    Begins();
    acts, cur := RaceArrive([], INIT, 0, "a", OfClaims);
    var c := Core(map[], map[], map[]);
    FirstAdmission();
    acts, cur := AdmitsAndServes(acts, cur, 0, "a", c, Asks([]));
    acts, cur := RaceAct(acts, cur, Act(0, NO_CHOICE), OfClaims);
  }

  lemma FirstAdmission()
    ensures Admit(Core(map[], map[], map[]), "a", Asks([])) == (Core(HELD_BY_A, map[], map[]), Steered(0, false, false))
  {
    FreeForAnyone(map[], [], "a");
    assert MarkDirty(SEEN, 0, "a") == HELD_BY_A;
  }

  lemma Begins()
    ensures Raced([], INIT, OfClaims)
  {
  }

  // "b" takes the slot by eviction.
  lemma SecondAdmission()
    ensures var (c, a) := Admit(Core(HELD_BY_A, map[], map[]), "b", Asks([0]));
            a == Steered(0, false, false) && Label(c.slots, 0) == Some("b") && c.slots.Keys == {0}
  {
    var r := SlotState(0, false);
    assert HotSlot(HELD_BY_A, [0], "b") == None;
    assert Observe(HELD_BY_A, r) == HELD_BY_A;
    assert FirstFree(HELD_BY_A, [r]) == (HELD_BY_A, NoSlot);
    assert FirstDirty(HELD_BY_A, [r]) == (HELD_BY_A, Victim(0, Some("a")));
  }

  // Task 1 serves slot 0 for "b", task 0 is still about to claim it.
  ghost predicate Stolen(cur: State) {
    && cur.tasks.Keys == {0, 1} && cur.tasks[0].pc == ClaimLock && cur.tasks[0].steer == Some(0)
    && cur.tasks[0].session == "a" && cur.tasks[1].session == "b" && Serves(cur.tasks[1], 0)
    && SoloAdmission.Quiet(cur) && cur.slots.Keys == {0}
  }

  lemma SecondArrives() returns (acts: seq<Action>, cur: State)
    ensures Raced(acts, cur, OfClaims) && cur.tasks.Keys == {0, 1} && cur.tasks[1] == NewTask("b")
    ensures cur.tasks[0].pc == ClaimLock && cur.tasks[0].steer == Some(0) && cur.tasks[0].session == "a"
    ensures SoloAdmission.Quiet(cur) && Agrees(cur, Core(HELD_BY_A, map[], map[]))
  {
    hide Raced;
    acts, cur := FirstEnds();
    acts, cur := RaceArrive(acts, cur, 1, "b", OfClaims);
  }

  lemma SecondServes() returns (acts: seq<Action>, cur: State)
    ensures Raced(acts, cur, OfClaims) && Stolen(cur)
  {
    hide Raced, Admit;
    acts, cur := SecondArrives();
    SecondAdmission();
    acts, cur := AdmitsAndServes(acts, cur, 1, "b", Core(HELD_BY_A, map[], map[]), Asks([0]));
  }

  // Task 0 claims: the registry says "a" again.
  lemma FirstClaims() returns (acts: seq<Action>, cur: State)
    ensures Raced(acts, cur, OfClaims) && Reclaimed(cur)
  {
    hide Raced, Do, HonestAct, Only, Possible;
    acts, cur := SecondServes();
    var mid := ClaimLocks(cur);
    acts, cur := RaceAct(acts, cur, Act(0, NO_CHOICE), OfClaims);
    var end := ClaimWrites(mid);
    acts, cur := RaceAct(acts, cur, Act(0, NO_CHOICE), OfClaims);
  }

  ghost predicate Reclaimed(cur: State) {
    && cur.tasks.Keys == {0, 1} && cur.tasks[0].pc == WantWrite && !cur.tasks[0].job.evicting
    && cur.tasks[1].session == "b" && Serves(cur.tasks[1], 0)
    && SoloAdmission.Quiet(cur) && Label(cur.slots, 0) == Some("a")
  }

  // In between, task 0 holds the registry's mutex.
  ghost predicate Locked(cur: State) {
    && cur.tasks.Keys == {0, 1} && cur.tasks[0].pc == Claim && cur.tasks[0].steer == Some(0)
    && cur.tasks[0].session == "a" && cur.tasks[1].session == "b" && Serves(cur.tasks[1], 0)
    && cur.gate == FREE && cur.mutex == Some(0) && cur.slots.Keys == {0}
  }

  lemma ClaimLocks(cur: State) returns (end: State)
    requires Stolen(cur)
    ensures Possible(cur, Act(0, NO_CHOICE)) && end == Do(cur, Act(0, NO_CHOICE)) && Locked(end)
    ensures HonestAct(cur, Act(0, NO_CHOICE)) && Only(cur, OfClaims) && Only(end, OfClaims)
  {
    hide LookupNext, EvictNext, PublishNext;
    end := Do(cur, Act(0, NO_CHOICE));
  }

  lemma ClaimWrites(cur: State) returns (end: State)
    requires Locked(cur)
    ensures Possible(cur, Act(0, NO_CHOICE)) && end == Do(cur, Act(0, NO_CHOICE)) && Reclaimed(end)
    ensures HonestAct(cur, Act(0, NO_CHOICE)) && Only(cur, OfClaims) && Only(end, OfClaims)
  {
    hide LookupNext, EvictNext, PublishNext;
    end := Do(cur, Act(0, NO_CHOICE));
  }

  lemma ThirdArrives() returns (acts: seq<Action>, cur: State)
    ensures Raced(acts, cur, OfClaims) && cur.tasks.Keys == {0, 1, 2} && cur.tasks[2] == NewTask("a")
    ensures cur.tasks[0].pc == WantWrite && !cur.tasks[0].job.evicting
    ensures cur.tasks[1].session == "b" && Serves(cur.tasks[1], 0)
    ensures SoloAdmission.Quiet(cur) && Label(cur.slots, 0) == Some("a")
  {
    hide Raced;
    acts, cur := FirstClaims();
    acts, cur := RaceArrive(acts, cur, 2, "a", OfClaims);
  }

  /** Two sessions served on one slot at once, no two admissions ever overlapping. */
  lemma TwoSessionsAfterLateClaim() returns (acts: seq<Action>, end: State)
    ensures IsRun(INIT, acts) && end == Run(INIT, acts) && IsRace(INIT, acts, OfClaims)
    ensures 1 in end.tasks && 2 in end.tasks && Serves(end.tasks[1], 0) && Serves(end.tasks[2], 0)
    ensures end.tasks[1].session == "b" && end.tasks[2].session == "a"
  {
    hide IsRun, Run, IsRace, MarkDirty, Path, Mute;
    acts, end := ThirdArrives();
    var more, k := AdmitHot(end, 2, "a", [0], 0);
    var mid := Place(end, 2, k, FREE, None, MarkDirty(end.slots, 0, "a"), end.disk);
    acts := RacePath(acts, end, 2, more, mid, OfClaims);
    acts := RaceServes(acts, mid, 2, OfClaims);
    end := Taken(mid, 2);
  }
}
