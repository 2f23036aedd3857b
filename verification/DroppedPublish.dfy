/**
  A handler dropped in the middle of its eviction's publish. Dropping it gives the
  gate up (src/lib.rs:335), but the blocking part of the publish, from the open of
  the scratch file to the sync of the directory (src/lib.rs:352-365), goes on
  without it. Dropped after its rename it does no harm; dropped before, it can
  show a torn blob.
 */
module DroppedPublish {
  import opened Options
  import opened Registry
  import opened Steps
  import opened GateTheorems
  import opened BlobTheorems
  import opened SoloAdmission
  import opened OneSlot

  /** `rest` is the publish, if any, that goes on without its handler. */
  datatype Proxy = Proxy(st: State, rest: Option<Task>)

  datatype Event =
    | Plain(a: Action)
    | Forsake(t: TaskId)       // the handler is dropped, its blocking part is not
    | GoesOn(choice: Choice)   // one step of that part

  predicate InBlocking(pc: Pc) {
    pc.OpenScratch? || pc.SyncFile? || pc.RenameBlob? || pc.RenameSidecar? || pc.SyncDir?
  }

  predicate PastRename(pc: Pc) {
    pc.RenameSidecar? || pc.SyncDir?
  }

  ghost predicate Can(w: Proxy, ev: Event) {
    match ev
    case Plain(a) => Possible(w.st, a)
    case Forsake(t) =>
      t in w.st.tasks && w.st.tasks[t].job.evicting && InBlocking(w.st.tasks[t].pc) && w.rest == None
    case GoesOn(_) => w.rest.Some? && InBlocking(w.rest.value.pc)
  }

  function Then(w: Proxy, ev: Event): Proxy
    requires Can(w, ev)
  {
    match ev
    case Plain(a) => Proxy(Do(w.st, a), if a.Crash? then None else w.rest)
    case Forsake(t) =>
      Proxy(w.st.(tasks := w.st.tasks[t := At(w.st.tasks[t], Finished)], gate := w.st.gate.(writer := None)),
            Some(w.st.tasks[t]))
    case GoesOn(ch) =>
      var k := w.rest.value;
      Proxy(w.st.(disk := DiskAfter(w.st.disk, k, ch)), Some(PublishNext(w.st.disk, k, ch)))
  }

  ghost predicate IsHistory(w: Proxy, evs: seq<Event>)
    decreases |evs|
  {
    evs == [] || (Can(w, evs[0]) && IsHistory(Then(w, evs[0]), evs[1..]))
  }

  ghost function After(w: Proxy, evs: seq<Event>): Proxy
    requires IsHistory(w, evs)
    decreases |evs|
  {
    if evs == [] then w else After(Then(w, evs[0]), evs[1..])
  }

  // No handler is dropped between the end of its save and its rename.
  ghost predicate DropsLate(w: Proxy, evs: seq<Event>)
    requires IsHistory(w, evs)
    decreases |evs|
  {
    evs == [] ||
    ((evs[0].Forsake? ==> PastRename(w.st.tasks[evs[0].t].pc)) && DropsLate(Then(w, evs[0]), evs[1..]))
  }

  const START := Proxy(INIT, None)

  // ------------------------------------------------------- dropped after its rename

  ghost predicate Fine(w: Proxy) {
    Safe(w.st) && (w.rest.Some? ==> !InBlocking(w.rest.value.pc) || PastRename(w.rest.value.pc))
  }

  lemma LateStep(d: Disk, k: Task, ch: Choice)
    requires Sound(d) && PastRename(k.pc)
    ensures Sound(DiskAfter(d, k, ch))
    ensures var pc := PublishNext(d, k, ch).pc; !InBlocking(pc) || PastRename(pc)
  {
    hide Sound;
    if k.pc.RenameSidecar? && ch.ok && ScratchSidecar(k.job.session) in d.dir {
      RenameSidecarSound(d, k.job.session);
    } else if k.pc.SyncDir? && ch.ok {
      ForgetSound(d);
    }
  }

  lemma LateLeavesOthers(d: Disk, k: Task, ch: Choice, u: Task)
    requires Sound(d) && PastRename(k.pc) && Knows(d, u)
    ensures Knows(DiskAfter(d, k, ch), u)
  {
  }

  lemma ForsakeFine(w: Proxy, t: TaskId)
    requires Fine(w) && Can(w, Forsake(t)) && PastRename(w.st.tasks[t].pc)
    ensures Fine(Then(w, Forsake(t)))
  {
    hide Sound, Knows;
    ForsakeLocks(w.st, t);
    FinishedKnows(w.st.disk, w.st.tasks[t]);
  }

  lemma ForsakeLocks(st: State, t: TaskId)
    requires LocksHeld(st) && t in st.tasks && InBlocking(st.tasks[t].pc)
    ensures LocksHeld(st.(tasks := st.tasks[t := At(st.tasks[t], Finished)], gate := st.gate.(writer := None)))
  {
  }

  lemma FinishedKnows(d: Disk, k: Task)
    ensures Knows(d, At(k, Finished))
  {
  }

  lemma StepFine(w: Proxy, ev: Event)
    requires Fine(w) && Can(w, ev) && (ev.Forsake? ==> PastRename(w.st.tasks[ev.t].pc))
    ensures Fine(Then(w, ev))
  {
    hide Sound, Knows, LocksHeld, DiskAfter, PublishNext;
    match ev
    case Plain(a) => DoSafe(w.st, a);
    case Forsake(t) => ForsakeFine(w, t);
    case GoesOn(ch) =>
      var k := w.rest.value;
      LateStep(w.st.disk, k, ch);
      forall u | u in w.st.tasks ensures Knows(DiskAfter(w.st.disk, k, ch), w.st.tasks[u]) {
        LateLeavesOthers(w.st.disk, k, ch, w.st.tasks[u]);
      }
      SameLocks(w.st, DiskAfter(w.st.disk, k, ch));
  }

  lemma SameLocks(st: State, d: Disk)
    requires LocksHeld(st)
    ensures LocksHeld(st.(disk := d))
  {
  }

  lemma {:induction false} HistoryFine(w: Proxy, evs: seq<Event>)
    requires Fine(w) && IsHistory(w, evs) && DropsLate(w, evs)
    ensures Fine(After(w, evs))
    decreases |evs|
  {
    hide Fine, Can, Then;
    if evs != [] {
      StepFine(w, evs[0]);
      HistoryFine(Then(w, evs[0]), evs[1..]);
    }
  }

  /** As long as handlers are dropped after their rename, visible blobs stay whole. */
  lemma LateDropsAreHarmless(evs: seq<Event>, s: Session)
    requires IsHistory(START, evs) && DropsLate(START, evs)
    requires Blob(s) in After(START, evs).st.disk.dir
    ensures PublishedAs(After(START, evs).st.disk, After(START, evs).st.disk.dir[Blob(s)], s)
  {
    hide After, IsHistory, DropsLate;
    InitSafe();
    HistoryFine(START, evs);
  }

  // ------------------------------------------------------ dropped before its rename

  // A request of another session comes to publish slot 0 for "a".
  lemma Evicts(st: State, t: TaskId, s: Session) returns (acts: seq<Action>, k: Task)
    requires t in st.tasks && st.tasks[t] == NewTask(s) && s != "a" && Quiet(st) && st.slots == HELD_BY_A
    ensures Path(st, t, acts, Place(st, t, k, WriteHeld(t), None, HELD_BY_A, st.disk))
    ensures k.pc == BeginSave && k.job.session == "a" && k.job.evicting
  {
    hide Path, Place;
    var job, more;
    acts, job := FindsA(st, t, s);
    var found := Place(st, t, job, FREE, None, HELD_BY_A, st.disk);
    Placed(st, t, job, FREE, None, HELD_BY_A, st.disk);
    more := Queues(found, t, job);
    k := At(job, BeginSave);
    PlaceOver(st, t, job, k, FREE, WriteHeld(t), HELD_BY_A, st.disk);
    PathThen(st, t, acts, found, more, Place(st, t, k, WriteHeld(t), None, HELD_BY_A, st.disk));
    acts := acts + more;
  }

  // ------------------------------------------------------------ the history

  function Plains(acts: seq<Action>): seq<Event> {
    if acts == [] then [] else [Plain(acts[0])] + Plains(acts[1..])
  }

  lemma {:induction false} PlainHistory(st: State, rest: Option<Task>, acts: seq<Action>)
    requires IsRun(st, acts) && forall a | a in acts :: !a.Crash?
    ensures IsHistory(Proxy(st, rest), Plains(acts))
    ensures After(Proxy(st, rest), Plains(acts)) == Proxy(Run(st, acts), rest)
    decreases |acts|
  {
    hide Do, Possible;
    if acts != [] {
      assert Plains(acts)[1..] == Plains(acts[1..]);
      assert Then(Proxy(st, rest), Plain(acts[0])) == Proxy(Do(st, acts[0]), rest);
      PlainHistory(Do(st, acts[0]), rest, acts[1..]);
    }
  }

  lemma {:induction false} HistoryThen(w: Proxy, a: seq<Event>, b: seq<Event>)
    requires IsHistory(w, a) && IsHistory(After(w, a), b)
    ensures IsHistory(w, a + b) && After(w, a + b) == After(After(w, a), b)
    decreases |a|
  {
    hide Can, Then;
    if a == [] {
      assert a + b == b;
    } else {
      assert (a + b)[1..] == a[1..] + b;
      HistoryThen(Then(w, a[0]), a[1..], b);
    }
  }

  ghost predicate Leads(evs: seq<Event>, w: Proxy) {
    IsHistory(START, evs) && After(START, evs) == w
  }

  lemma LeadsByPath(evs: seq<Event>, w: Proxy, t: TaskId, acts: seq<Action>, end: State) returns (evs': seq<Event>)
    requires Leads(evs, w) && Path(w.st, t, acts, end)
    ensures Leads(evs', Proxy(end, w.rest))
  {
    PlainHistory(w.st, w.rest, acts);
    HistoryThen(START, evs, Plains(acts));
    evs' := evs + Plains(acts);
  }

  lemma LeadsBy(evs: seq<Event>, w: Proxy, ev: Event) returns (evs': seq<Event>, end: Proxy)
    requires Leads(evs, w) && Can(w, ev)
    ensures end == Then(w, ev) && Leads(evs', end)
  {
    end := Then(w, ev);
    assert [ev][1..] == [];
    assert IsHistory(end, []) && After(end, []) == end;
    assert IsHistory(w, [ev]) && After(w, [ev]) == end;
    HistoryThen(START, evs, [ev]);
    evs' := evs + [ev];
  }

  lemma FromReaches(acts: seq<Action>, st: State) returns (evs: seq<Event>)
    requires Reaches(acts, st)
    ensures Leads(evs, Proxy(st, None))
  {
    PlainHistory(INIT, None, acts);
    evs := Plains(acts);
  }

  lemma BreaksOff(k: Task, t: TaskId, sl: Slots)
    requires k.pc == Dispatch && k.steer.Some?
    ensures TurnNext(k, NO_CHOICE) == At(k, Serve) && SlotsAfter(sl, k) == sl && MutexAfter(None, t, k.pc) == None
    ensures TurnNext(At(k, Serve), NO_CHOICE.(turn := Broken)) == At(k, Finished)
    ensures SlotsAfter(sl, At(k, Serve)) == sl && MutexAfter(None, t, Serve) == None
  {
  }

  // A turn of "a" broke off: slot 0 is dirty and idle.
  lemma BrokenTurn() returns (evs: seq<Event>, w: Proxy)
    ensures Leads(evs, w) && w.rest == None && Quiet(w.st) && w.st.slots == HELD_BY_A && w.st.tasks.Keys == {0}
  {
    hide Leads, Place, Path, TurnNext, SlotsAfter, MutexAfter, Mute, MarkDirty;
    var acts, st := FirstAdmitted();
    evs := FromReaches(acts, st);
    MarkedByA();
    var k := st.tasks[0];
    BreaksOff(k, 0, HELD_BY_A);
    Stands(st, 0, k);
    var more := AdvanceTurn(st, 0, [], k, None, st.slots, st.disk, NO_CHOICE);
    more := AdvanceTurn(st, 0, more, At(k, Serve), None, st.slots, st.disk, NO_CHOICE.(turn := Broken));
    var end := Place(st, 0, At(k, Finished), FREE, None, st.slots, st.disk);
    Placed(st, 0, At(k, Finished), FREE, None, st.slots, st.disk);
    PlaceKeys(st, 0, At(k, Finished), FREE, st.slots, st.disk);
    evs := LeadsByPath(evs, Proxy(st, None), 0, more, end);
    w := Proxy(end, None);
  }

  // A second session is about to save slot 0 for "a".
  lemma EvictsForA(evs: seq<Event>, w: Proxy) returns (evs': seq<Event>, w': Proxy, k: Task)
    requires Leads(evs, w) && w.rest == None && Quiet(w.st) && w.st.slots == HELD_BY_A && w.st.tasks.Keys == {0}
    ensures Leads(evs', w') && w'.rest == None && w'.st.slots == HELD_BY_A && w'.st.tasks.Keys == {0, 1}
    ensures w'.st.gate == WriteHeld(1) && w'.st.mutex == None && w'.st.tasks[1] == k
    ensures k.pc == BeginSave && k.job.session == "a" && k.job.evicting
  {
    hide Leads, Place, Path;
    var arrived;
    evs', arrived := LeadsBy(evs, w, Plain(Arrive(1, "b")));
    var st := arrived.st;
    var acts;
    acts, k := Evicts(st, 1, "b");
    var at := Place(st, 1, k, WriteHeld(1), None, HELD_BY_A, st.disk);
    Placed(st, 1, k, WriteHeld(1), None, HELD_BY_A, st.disk);
    PlaceKeys(st, 1, k, WriteHeld(1), HELD_BY_A, st.disk);
    evs' := LeadsByPath(evs', arrived, 1, acts, at);
    w' := Proxy(at, None);
  }

  // It has saved and synced, and is about to rename.
  lemma SavesForA(evs: seq<Event>, w: Proxy) returns (evs': seq<Event>, w': Proxy)
    requires Leads(evs, w) && w.rest == None && Quiet(w.st) && w.st.slots == HELD_BY_A && w.st.tasks.Keys == {0}
    ensures Leads(evs', w') && w'.rest == None && w'.st.slots == HELD_BY_A && w'.st.tasks.Keys == {0, 1}
    ensures w'.st.gate == WriteHeld(1) && w'.st.mutex == None && Scratch("a") in w'.st.disk.dir
    ensures var k := w'.st.tasks[1]; k.pc == RenameBlob && k.job.session == "a" && k.job.evicting
  {
    hide Leads, Place, Path, Shows;
    var begun, k;
    evs', begun, k := EvictsForA(evs, w);
    var at := begun.st;
    Stands(at, 1, k);
    var more, k1, d1 := Saves(at, 1, [], k, HELD_BY_A, at.disk, false);
    var k2, d2;
    more, k2, d2 := Syncs(at, 1, more, k1, HELD_BY_A, d1);
    var end := Place(at, 1, k2, WriteHeld(1), None, HELD_BY_A, d2);
    Placed(at, 1, k2, WriteHeld(1), None, HELD_BY_A, d2);
    PlaceKeys(at, 1, k2, WriteHeld(1), HELD_BY_A, d2);
    evs' := LeadsByPath(evs', begun, 1, more, end);
    w' := Proxy(end, None);
  }

  // Its handler is dropped; a third session evicts "a" and its save has begun.
  lemma SavesAgain(evs: seq<Event>, w: Proxy) returns (evs': seq<Event>, w': Proxy)
    requires Leads(evs, w) && w.rest == None && w.st.slots == HELD_BY_A && w.st.tasks.Keys == {0, 1}
    requires w.st.gate == WriteHeld(1) && w.st.mutex == None
    requires var k := w.st.tasks[1]; k.pc == RenameBlob && k.job.session == "a" && k.job.evicting
    ensures Leads(evs', w') && w'.rest.Some? && w'.rest.value.pc == RenameBlob && w'.rest.value.job.session == "a"
    ensures Scratch("a") in w'.st.disk.dir && w'.st.disk.dir[Scratch("a")] in w'.st.disk.inodes
    ensures w'.st.disk.inodes[w'.st.disk.dir[Scratch("a")]].content == Torn
  {
    hide Leads, Place, Path;
    var dropped, arrived;
    evs', dropped := LeadsBy(evs, w, Forsake(1));
    evs', arrived := LeadsBy(evs', dropped, Plain(Arrive(2, "c")));
    var st := arrived.st;
    var acts, k := Evicts(st, 2, "c");
    var at := Place(st, 2, k, WriteHeld(2), None, HELD_BY_A, st.disk);
    Placed(st, 2, k, WriteHeld(2), None, HELD_BY_A, st.disk);
    evs' := LeadsByPath(evs', arrived, 2, acts, at);
    Stands(at, 2, k);
    var more := Advance(at, 2, [], k, WriteHeld(2), None, HELD_BY_A, st.disk, NO_CHOICE);
    var d := BeginScratch(st.disk, "a");
    var k1 := k.(job := k.job.(ino := ScratchIno(st.disk, "a")), pc := EndSave);
    var end := Place(at, 2, k1, WriteHeld(2), None, HELD_BY_A, d);
    Placed(at, 2, k1, WriteHeld(2), None, HELD_BY_A, d);
    evs' := LeadsByPath(evs', Proxy(at, arrived.rest), 2, more, end);
    w' := Proxy(end, arrived.rest);
  }

  /**
    A history in which a handler dropped before its rename shows a torn blob: what
    is left of its publish renames the scratch file that a later save is writing.
   */
  lemma EarlyDropShowsTorn() returns (evs: seq<Event>, w: Proxy)
    ensures IsHistory(START, evs) && w == After(START, evs)
    ensures Blob("a") in w.st.disk.dir && w.st.disk.dir[Blob("a")] in w.st.disk.inodes
    ensures w.st.disk.inodes[w.st.disk.dir[Blob("a")]].content == Torn
  {
    hide IsHistory, After;
    evs, w := BrokenTurn();
    evs, w := SavesForA(evs, w);
    evs, w := SavesAgain(evs, w);
    evs, w := LeadsBy(evs, w, GoesOn(NO_CHOICE));
  }
}
