/**
  Whole runs of the proxy, one turn at a time: any number of turns interleave,
  with admission (lookup to dispatch) as one step and turn end as one step. The
  atomicity of each is an assumption of this module, not something the code
  enforces (docs/REVIEW-2026-09-30.md:54).

  What the backend is assumed to do: report a slot that serves a steered turn as
  processing, and keep unsteered requests off the slots that carry a session.
 */
module Turns {
  import opened Options
  import opened Registry
  import opened AdmissionFacts

  type TurnId = nat

  datatype Flight = Flight(session: Session, slot: SlotId)

  /**
    `versions` counts the completed turns of each session; `evicted` is the last
    blob the quota removed. `broken` are the sessions one of whose steered turns
    did not run normally to its end; `crossed` those whose dispatch was rejected
    on a slot that still held something else.
   */
  datatype State = State(
    core: Core,
    flights: map<TurnId, Flight>,
    versions: map<Session, nat>,
    evicted: map<Session, KV>,
    broken: set<Session>,
    crossed: set<Session>)

  /** The backend takes the request, or rejects it with or without having begun. */
  datatype Dispatch = Accepted | Rejected(touched: bool)

  datatype Event =
    | Start(turn: TurnId, session: Session, env: Env, dispatch: Dispatch)
    | Finish(turn: TurnId, save: SaveOutcome)     // the response ended
    | Truncate(turn: TurnId, save: SaveOutcome)   // a non-streamed body broke off; published all the same
    | HangUp(turn: TurnId)                        // the client disconnected
    | Break(turn: TurnId)                         // the stream broke off
    | Quota(gone: set<Session>)
    | UnsteeredWrite(slot: SlotId)

  function Version(st: State, s: Session): nat {
    if s in st.versions then st.versions[s] else 0
  }

  predicate Busy(st: State, id: SlotId) {
    exists t | t in st.flights :: st.flights[t].slot == id
  }

  predicate InFlight(st: State, s: Session) {
    exists t | t in st.flights :: st.flights[t].session == s
  }

  predicate OwnedBy(kv: KV, s: Session) {
    (kv.Complete? || kv.Partial?) && kv.owner == s
  }

  // ------------------------------------------------------------------ steps

  ghost predicate Honest(st: State, report: Option<seq<SlotState>>) {
    report.Some? ==> forall r | r in report.value :: Busy(st, r.id) ==> r.processing
  }

  ghost predicate Enabled(st: State, ev: Event) {
    match ev
    case Start(t, _, e, _) =>
      && t !in st.flights
      && Covers(e.order, st.core.slots)
      && Honest(st, e.firstReport) && Honest(st, e.secondReport)
    case Finish(t, _) => t in st.flights
    case Truncate(t, _) => t in st.flights
    case HangUp(t) => t in st.flights
    case Break(t) => t in st.flights
    case Quota(_) => true
    case UnsteeredWrite(id) => !Busy(st, id) && Label(st.core.slots, id) == None
  }

  function WriteKv(c: Core, id: SlotId, kv: KV): Core {
    c.(kv := c.kv[id := kv])
  }

  // Refused before the backend began, on a slot that holds something else than the
  // session's own state.
  predicate LeftForeign(st: State, s: Session, a: Admission, d: Dispatch) {
    && a.Steered? && d == Rejected(false) && !a.hot && !a.restored
    && !OwnedBy(Held(st.core.kv, a.id), s)
  }

  // Refused, and the slot is not left with the session's newest state.
  predicate LeftSpoiled(st: State, s: Session, a: Admission, d: Dispatch) {
    && a.Steered? && d.Rejected?
    && (d.touched || !(a.hot || a.restored || Held(st.core.kv, a.id) == Complete(s, Version(st, s))))
  }

  predicate Breaks(st: State, s: Session, a: Admission, d: Dispatch) {
    a.Steered? && (InFlight(st, s) || LeftSpoiled(st, s, a, d))
  }

  function StartNext(st: State, t: TurnId, s: Session, e: Env, d: Dispatch): State {
    var (c, a) := Admit(st.core, s, e);
    match a
    case Forwarded => st.(core := c)
    case Steered(id, _, _) =>
      st.(core := if d == Rejected(false) then c else WriteKv(c, id, Partial(s, Version(st, s))),
          flights := if d.Accepted? then st.flights[t := Flight(s, id)] else st.flights,
          broken := if Breaks(st, s, a, d) then st.broken + {s} else st.broken,
          crossed := if LeftForeign(st, s, a, d) then st.crossed + {s} else st.crossed)
  }

  function EndNext(st: State, t: TurnId, save: SaveOutcome, whole: bool): State
    requires t in st.flights
  {
    var f := st.flights[t];
    var v := Version(st, f.session) + 1;
    var c := if whole then WriteKv(st.core, f.slot, Complete(f.session, v)) else st.core;
    st.(core := FinishTurn(c, f.slot, f.session, save),
        flights := st.flights - {t},
        versions := if whole then st.versions[f.session := v] else st.versions,
        broken := if whole then st.broken else st.broken + {f.session})
  }

  function Next(st: State, ev: Event): State
    requires Enabled(st, ev)
  {
    match ev
    case Start(t, s, e, d) => StartNext(st, t, s, e, d)
    case Finish(t, save) => EndNext(st, t, save, true)
    case Truncate(t, save) => EndNext(st, t, save, false)
    case HangUp(t) =>
      st.(core := AbandonTurn(st.core, st.flights[t].slot),
          flights := st.flights - {t},
          broken := st.broken + {st.flights[t].session})
    case Break(t) =>
      st.(flights := st.flights - {t}, broken := st.broken + {st.flights[t].session})
    case Quota(gone) =>
      st.(core := st.core.(disk := st.core.disk - gone),
          evicted := st.evicted + map s | s in st.core.disk && s in gone :: st.core.disk[s])
    case UnsteeredWrite(id) => st.(core := WriteKv(st.core, id, Unsteered))
  }

  /** A fresh proxy over whatever blobs earlier runs left. */
  ghost predicate Init(st: State) {
    && st.core.slots == map[] && st.flights == map[]
    && st.broken == {} && st.crossed == {} && st.evicted == map[]
    && (forall s | s in st.core.disk :: st.core.disk[s] == Complete(s, Version(st, s)))
    && (forall s | Version(st, s) > 0 :: s in st.core.disk)
  }

  ghost predicate IsRun(st: State, evs: seq<Event>)
    decreases |evs|
  {
    evs == [] || (Enabled(st, evs[0]) && IsRun(Next(st, evs[0]), evs[1..]))
  }

  ghost function Run(st: State, evs: seq<Event>): State
    requires IsRun(st, evs)
    decreases |evs|
  {
    if evs == [] then st else Run(Next(st, evs[0]), evs[1..])
  }

  // ------------------------------------------------------------- what is counted

  // The session's turns that ended normally in this run.
  ghost function TurnsFinished(st: State, evs: seq<Event>, s: Session): nat
    requires IsRun(st, evs)
    decreases |evs|
  {
    if evs == [] then 0
    else
      (if evs[0].Finish? && st.flights[evs[0].turn].session == s then 1 else 0)
      + TurnsFinished(Next(st, evs[0]), evs[1..], s)
  }

  lemma VersionNext(st: State, ev: Event, s: Session)
    requires Enabled(st, ev)
    ensures Version(Next(st, ev), s)
         == Version(st, s) + if ev.Finish? && st.flights[ev.turn].session == s then 1 else 0
  {
    hide Admit, FinishTurn, AbandonTurn;
  }

  /** A session's version is the number of its completed turns. */
  lemma {:induction false} VersionsCount(st: State, evs: seq<Event>, s: Session)
    requires IsRun(st, evs)
    ensures Version(Run(st, evs), s) == Version(st, s) + TurnsFinished(st, evs, s)
    decreases |evs|
  {
    hide Next, Enabled, Version;
    if evs != [] {
      VersionNext(st, evs[0], s);
      VersionsCount(Next(st, evs[0]), evs[1..], s);
    }
  }

  // ---------------------------------------------------------- slot exclusion

  /**
    In-flight turns on one slot belong to one session, and the registry says so
    or says nothing.
   */
  ghost predicate Exclusive(st: State) {
    && (forall t, u | t in st.flights && u in st.flights && st.flights[t].slot == st.flights[u].slot ::
          st.flights[t].session == st.flights[u].session)
    && (forall t | t in st.flights ::
          Label(st.core.slots, st.flights[t].slot) in {None, Some(st.flights[t].session)})
  }

  lemma IdleIsFree(st: State, e: Env, id: SlotId)
    requires Honest(st, e.firstReport) && Honest(st, e.secondReport) && Idle(e, id)
    ensures !Busy(st, id)
  {
  }

  lemma StartExclusive(st: State, t: TurnId, s: Session, e: Env, d: Dispatch)
    requires Enabled(st, Start(t, s, e, d)) && Exclusive(st)
    ensures Exclusive(StartNext(st, t, s, e, d))
  {
    var st' := StartNext(st, t, s, e, d);
    var (c, a) := Admit(st.core, s, e);
    if a.Forwarded? {
      ForwardedFacts(st.core, s, e);
    } else {
      SteeredFacts(st.core, s, e);
      if !a.hot {
        ColdFacts(st.core, s, e);
        IdleIsFree(st, e, a.id);
      }
      forall u | u in st.flights ensures st.flights[u].slot == a.id ==> st.flights[u].session == s {
      }
      assert st'.core.slots == c.slots;
    }
  }

  lemma EndExclusive(st: State, t: TurnId, save: SaveOutcome, whole: bool)
    requires t in st.flights && Exclusive(st)
    ensures Exclusive(EndNext(st, t, save, whole))
  {
    var st' := EndNext(st, t, save, whole);
    var f := st.flights[t];
    assert forall i | i != f.slot :: Label(st'.core.slots, i) == Label(st.core.slots, i);
    assert Label(st'.core.slots, f.slot) in {None, Some(f.session)};
  }

  lemma StepExclusive(st: State, ev: Event)
    requires Enabled(st, ev) && Exclusive(st)
    ensures Exclusive(Next(st, ev))
  {
    match ev
    case Start(t, s, e, d) => StartExclusive(st, t, s, e, d);
    case Finish(t, save) => EndExclusive(st, t, save, true);
    case Truncate(t, save) => EndExclusive(st, t, save, false);
    case HangUp(t) =>
      var slots := Next(st, ev).core.slots;
      assert forall i :: Label(slots, i) == Label(st.core.slots, i) || Label(slots, i) == None;
    case Break(_) =>
    case Quota(_) =>
    case UnsteeredWrite(_) =>
  }

  /** Two sessions are never in flight on one slot, in any run. */
  lemma {:induction false} SlotExclusion(st: State, evs: seq<Event>)
    requires IsRun(st, evs) && (Init(st) || Exclusive(st))
    ensures Exclusive(Run(st, evs))
    decreases |evs|
  {
    if evs != [] {
      StepExclusive(st, evs[0]);
      SlotExclusion(Next(st, evs[0]), evs[1..]);
    }
  }

  // ------------------------------------------------------ ownership of state

  /** Everything filed under `s`, in a slot or on disk, is the session's own. */
  ghost predicate Isolated(st: State, s: Session) {
    && (forall i | Label(st.core.slots, i) == Some(s) :: OwnedBy(Held(st.core.kv, i), s))
    && (s in st.core.disk ==> OwnedBy(st.core.disk[s], s))
    && (forall t | t in st.flights && st.flights[t].session == s :: OwnedBy(Held(st.core.kv, st.flights[t].slot), s))
  }

  lemma StartIsolated(st: State, t: TurnId, s: Session, e: Env, d: Dispatch, me: Session)
    requires Enabled(st, Start(t, s, e, d)) && Exclusive(st)
    requires me !in StartNext(st, t, s, e, d).crossed && Isolated(st, me)
    ensures Isolated(StartNext(st, t, s, e, d), me)
  {
    var st' := StartNext(st, t, s, e, d);
    var (c, a) := Admit(st.core, s, e);
    if a.Forwarded? {
      ForwardedFacts(st.core, s, e);
    } else {
      SteeredFacts(st.core, s, e);
      if !a.hot {
        ColdFacts(st.core, s, e);
        IdleIsFree(st, e, a.id);
      }
      assert st'.core.slots == c.slots && st'.core.disk == c.disk;
      forall i | i != a.id
        ensures Held(st'.core.kv, i) == Held(st.core.kv, i)
        ensures Label(st'.core.slots, i) == Label(st.core.slots, i)
      {
      }
    }
  }

  lemma EndIsolated(st: State, t: TurnId, save: SaveOutcome, whole: bool, me: Session)
    requires t in st.flights && Exclusive(st) && Isolated(st, me)
    ensures Isolated(EndNext(st, t, save, whole), me)
  {
    var st' := EndNext(st, t, save, whole);
    var f := st.flights[t];
    assert forall i | i != f.slot ::
        Held(st'.core.kv, i) == Held(st.core.kv, i) && Label(st'.core.slots, i) == Label(st.core.slots, i);
    assert f.session == me ==> OwnedBy(Held(st'.core.kv, f.slot), me);
    assert Label(st'.core.slots, f.slot) in {None, Some(f.session)};
    assert forall u | u in st'.flights && st'.flights[u].slot == f.slot :: st'.flights[u].session == f.session;
  }

  lemma UnsteeredIsolated(st: State, id: SlotId, me: Session)
    requires Enabled(st, UnsteeredWrite(id)) && Isolated(st, me)
    ensures Isolated(Next(st, UnsteeredWrite(id)), me)
  {
    var st' := Next(st, UnsteeredWrite(id));
    assert forall i | i != id :: Held(st'.core.kv, i) == Held(st.core.kv, i);
    assert forall t | t in st.flights :: st.flights[t].slot != id;
  }

  lemma StepIsolated(st: State, ev: Event, me: Session)
    requires Enabled(st, ev) && Exclusive(st)
    requires me !in Next(st, ev).crossed && Isolated(st, me)
    ensures Isolated(Next(st, ev), me)
  {
    match ev
    case Start(t, s, e, d) => StartIsolated(st, t, s, e, d, me);
    case Finish(t, save) => EndIsolated(st, t, save, true, me);
    case Truncate(t, save) => EndIsolated(st, t, save, false, me);
    case HangUp(t) =>
      var slots := Next(st, ev).core.slots;
      assert forall i :: Label(slots, i) == Label(st.core.slots, i) || Label(slots, i) == None;
    case Break(_) =>
    case Quota(_) =>
    case UnsteeredWrite(id) => UnsteeredIsolated(st, id, me);
  }

  lemma CrossedGrows(st: State, ev: Event)
    requires Enabled(st, ev)
    ensures st.crossed <= Next(st, ev).crossed && st.broken <= Next(st, ev).broken
  {
  }

  lemma {:induction false} HistoryGrows(st: State, evs: seq<Event>)
    requires IsRun(st, evs)
    ensures st.crossed <= Run(st, evs).crossed && st.broken <= Run(st, evs).broken
    decreases |evs|
  {
    if evs != [] {
      CrossedGrows(st, evs[0]);
      HistoryGrows(Next(st, evs[0]), evs[1..]);
    }
  }

  lemma {:induction false} RunIsolated(st: State, evs: seq<Event>, me: Session)
    requires IsRun(st, evs) && Exclusive(st) && Isolated(st, me)
    requires me !in Run(st, evs).crossed
    ensures Isolated(Run(st, evs), me)
    decreases |evs|
  {
    if evs != [] {
      HistoryGrows(Next(st, evs[0]), evs[1..]);
      StepIsolated(st, evs[0], me);
      StepExclusive(st, evs[0]);
      RunIsolated(Next(st, evs[0]), evs[1..], me);
    }
  }

  lemma InitIsolated(st: State, me: Session)
    requires Init(st)
    ensures Exclusive(st) && Isolated(st, me)
  {
  }

  /**
    No session is ever served from, or saved as, another session's state, unless
    a dispatch of its own was rejected on a slot that held something else and
    could not be restored.
   */
  lemma StateIsolation(st: State, evs: seq<Event>, me: Session)
    requires Init(st) && IsRun(st, evs)
    requires me !in Run(st, evs).crossed
    ensures Isolated(Run(st, evs), me)
  {
    InitIsolated(st, me);
    RunIsolated(st, evs, me);
  }

  /**
    Exactly when a rejected dispatch leaves the chosen slot holding the session's
    own state.
   */
  lemma RejectedDispatch(st: State, t: TurnId, s: Session, e: Env, touched: bool)
    requires Enabled(st, Start(t, s, e, Rejected(touched))) && Exclusive(st) && Isolated(st, s)
    requires Admit(st.core, s, e).1.Steered?
    ensures var a := Admit(st.core, s, e).1;
            var st' := StartNext(st, t, s, e, Rejected(touched));
            && Label(st'.core.slots, a.id) == Some(s) && Dirty(st'.core.slots, a.id)
            && (OwnedBy(Held(st'.core.kv, a.id), s) <==>
                touched || a.hot || a.restored || OwnedBy(Held(st.core.kv, a.id), s))
  {
    SteeredFacts(st.core, s, e);
    if !Admit(st.core, s, e).1.hot {
      ColdFacts(st.core, s, e);
    }
  }

  // ----------------------------------------------------------- no lost state

  ghost predicate NoneDirty(st: State, s: Session) {
    forall i | Label(st.core.slots, i) == Some(s) :: !Dirty(st.core.slots, i)
  }

  // The newest state is the blob, or the blob was removed by the quota.
  ghost predicate OnDisk(st: State, s: Session) {
    if s in st.core.disk then st.core.disk[s] == Complete(s, Version(st, s))
    else Version(st, s) > 0 ==> s in st.evicted && st.evicted[s] == Complete(s, Version(st, s))
  }

  /**
    For a session all of whose turns ran normally: one slot at most carries it;
    that slot holds its newest state, or the turn that extends it; and when the
    slot is not dirty, the newest state is on disk, or was.
   */
  ghost predicate Kept(st: State, s: Session) {
    && (forall i, j | Label(st.core.slots, i) == Some(s) && Label(st.core.slots, j) == Some(s) :: i == j)
    && (forall t, u | t in st.flights && u in st.flights
                      && st.flights[t].session == s && st.flights[u].session == s :: t == u)
    && (forall t | t in st.flights && st.flights[t].session == s ::
          var id := st.flights[t].slot;
          && Label(st.core.slots, id) == Some(s) && Dirty(st.core.slots, id)
          && Held(st.core.kv, id) == Partial(s, Version(st, s)))
    && (forall i | Label(st.core.slots, i) == Some(s) && !Busy(st, i) ::
          Held(st.core.kv, i) == Complete(s, Version(st, s)))
    && (NoneDirty(st, s) ==> OnDisk(st, s))
  }

  // A step that leaves the session's slot and flight alone keeps the invariant
  // if it keeps its disk part.
  lemma KeptFrame(st: State, st': State, s: Session)
    requires Kept(st, s) && Version(st', s) == Version(st, s)
    requires forall i | Label(st'.core.slots, i) == Some(s) ::
               && Label(st.core.slots, i) == Some(s) && Held(st'.core.kv, i) == Held(st.core.kv, i)
               && (Busy(st, i) ==> Busy(st', i))
    requires forall t | t in st'.flights && st'.flights[t].session == s ::
               && t in st.flights && st'.flights[t] == st.flights[t]
               && Label(st'.core.slots, st.flights[t].slot) == Some(s) && Dirty(st'.core.slots, st.flights[t].slot)
    requires NoneDirty(st', s) ==> OnDisk(st', s)
    ensures Kept(st', s)
  {
  }

  lemma ForwardedKept(st: State, t: TurnId, s: Session, e: Env, d: Dispatch, me: Session)
    requires Enabled(st, Start(t, s, e, d)) && Exclusive(st) && Kept(st, me)
    requires Admit(st.core, s, e).1.Forwarded?
    ensures Kept(StartNext(st, t, s, e, d), me)
  {
    ForwardedFacts(st.core, s, e);
    var st' := StartNext(st, t, s, e, d);
    assert forall i :: Busy(st', i) <==> Busy(st, i);
    if st'.core.disk != st.core.disk {
      var id :| Dirty(st.core.slots, id) && Idle(e, id) && Written(st.core, st'.core, id);
      IdleIsFree(st, e, id);
      assert Label(st'.core.slots, id) == Label(st.core.slots, id) && Dirty(st'.core.slots, id);
    }
  }

  // Another session is steered: it may take this session's slot, but only clean
  // or published.
  lemma OtherKept(st: State, t: TurnId, s: Session, e: Env, d: Dispatch, me: Session)
    requires Enabled(st, Start(t, s, e, d)) && Exclusive(st) && Kept(st, me)
    requires Admit(st.core, s, e).1.Steered? && s != me
    ensures Kept(StartNext(st, t, s, e, d), me)
  {
    var st' := StartNext(st, t, s, e, d);
    var id := Admit(st.core, s, e).1.id;
    SteeredElsewhere(st, t, s, e, d);
    forall i | i != id ensures Busy(st', i) <==> Busy(st, i) {
      OtherSlotsBusy(st, t, s, e, d, i);
    }
    if NoneDirty(st', me) {
      OtherOnDisk(st, t, s, e, d, me);
    }
    KeptFrame(st, st', me);
  }

  lemma SteeredElsewhere(st: State, t: TurnId, s: Session, e: Env, d: Dispatch)
    requires Enabled(st, Start(t, s, e, d)) && Exclusive(st)
    requires Admit(st.core, s, e).1.Steered?
    ensures var st' := StartNext(st, t, s, e, d);
            var id := Admit(st.core, s, e).1.id;
            && Label(st'.core.slots, id) == Some(s)
            && OnlyRegistryAt(st.core, st'.core, id)
            && (forall i | i != id :: Held(st'.core.kv, i) == Held(st.core.kv, i))
            && (forall u | u in st.flights && st.flights[u].slot == id :: st.flights[u].session == s)
  {
    SteeredFacts(st.core, s, e);
    if !Admit(st.core, s, e).1.hot {
      ColdFacts(st.core, s, e);
      IdleIsFree(st, e, Admit(st.core, s, e).1.id);
    }
  }

  // Its slot was taken clean, or published before it was taken.
  lemma OtherOnDisk(st: State, t: TurnId, s: Session, e: Env, d: Dispatch, me: Session)
    requires Enabled(st, Start(t, s, e, d)) && Exclusive(st) && Kept(st, me)
    requires Admit(st.core, s, e).1.Steered? && s != me
    requires NoneDirty(StartNext(st, t, s, e, d), me)
    ensures OnDisk(StartNext(st, t, s, e, d), me)
  {
    var st' := StartNext(st, t, s, e, d);
    var (c, a) := Admit(st.core, s, e);
    SteeredFacts(st.core, s, e);
    if !a.hot {
      ColdFacts(st.core, s, e);
      IdleIsFree(st, e, a.id);
    }
    assert st'.core.disk == c.disk && st'.core.slots == c.slots;
    if Label(st.core.slots, a.id) == Some(me) && Dirty(st.core.slots, a.id) {
      assert c.disk[me] == Held(st.core.kv, a.id) == Complete(me, Version(st, me));
    } else {
      assert NoneDirty(st, me);
    }
  }

  lemma OtherSlotsBusy(st: State, t: TurnId, s: Session, e: Env, d: Dispatch, i: SlotId)
    requires t !in st.flights
    requires Admit(st.core, s, e).1.Steered? && i != Admit(st.core, s, e).1.id
    ensures Busy(StartNext(st, t, s, e, d), i) <==> Busy(st, i)
  {
    var st' := StartNext(st, t, s, e, d);
    if Busy(st, i) {
      var u :| u in st.flights && st.flights[u].slot == i;
      assert u in st'.flights && st'.flights[u].slot == i;
    }
    if Busy(st', i) {
      var u :| u in st'.flights && st'.flights[u].slot == i;
      assert u in st.flights;
    }
  }

  lemma OwnKept(st: State, t: TurnId, e: Env, d: Dispatch, me: Session)
    requires Enabled(st, Start(t, me, e, d)) && Exclusive(st) && Kept(st, me)
    requires Admit(st.core, me, e).1.Steered? && !Breaks(st, me, Admit(st.core, me, e).1, d)
    ensures Kept(StartNext(st, t, me, e, d), me)
  {
    var st' := StartNext(st, t, me, e, d);
    var id := Admit(st.core, me, e).1.id;
    SteeredElsewhere(st, t, me, e, d);
    OwnHeld(st, t, e, d, me);
    assert Dirty(st'.core.slots, id) by {
      SteeredFacts(st.core, me, e);
    }
    assert !InFlight(st, me);
    assert d.Accepted? ==> t in st'.flights && st'.flights[t].slot == id;
  }

  // The slot carries the turn, or still the newest state.
  lemma OwnHeld(st: State, t: TurnId, e: Env, d: Dispatch, me: Session)
    requires Enabled(st, Start(t, me, e, d)) && Exclusive(st) && Kept(st, me)
    requires Admit(st.core, me, e).1.Steered? && !Breaks(st, me, Admit(st.core, me, e).1, d)
    ensures var st' := StartNext(st, t, me, e, d);
            var id := Admit(st.core, me, e).1.id;
            && (forall i | i != id :: Label(st.core.slots, i) != Some(me))
            && Held(st'.core.kv, id) ==
               if d.Accepted? then Partial(me, Version(st, me)) else Complete(me, Version(st, me))
  {
    var a := Admit(st.core, me, e).1;
    SteeredFacts(st.core, me, e);
    SteeredElsewhere(st, t, me, e, d);
    assert !InFlight(st, me);
    if !a.hot {
      ColdFacts(st.core, me, e);
      assert NoneDirty(st, me);
    }
  }

  lemma EndKept(st: State, t: TurnId, save: SaveOutcome, whole: bool, me: Session)
    requires t in st.flights && Exclusive(st) && Kept(st, me)
    requires me !in EndNext(st, t, save, whole).broken
    ensures Kept(EndNext(st, t, save, whole), me)
  {
    var st' := EndNext(st, t, save, whole);
    var f := st.flights[t];
    EndElsewhere(st, t, save, whole);
    forall i | i != f.slot ensures Busy(st', i) <==> Busy(st, i) {
      OtherSlotsStay(st, st', t, i);
    }
    if f.session == me {
      assert whole && f.slot in st.core.slots;
      OwnEndKept(st, t, save, me);
    } else {
      assert NoneDirty(st', me) ==> NoneDirty(st, me);
      KeptFrame(st, st', me);
    }
  }

  lemma EndElsewhere(st: State, t: TurnId, save: SaveOutcome, whole: bool)
    requires t in st.flights && Exclusive(st)
    ensures var st' := EndNext(st, t, save, whole);
            var f := st.flights[t];
            && OnlyRegistryAt(st.core, st'.core, f.slot)
            && (forall i | i != f.slot :: Held(st'.core.kv, i) == Held(st.core.kv, i))
            && Label(st.core.slots, f.slot) in {None, Some(f.session)}
            && Label(st'.core.slots, f.slot) in {None, Some(f.session)}
            && (forall s | s != f.session ::
                  && (s in st'.core.disk <==> s in st.core.disk)
                  && (s in st.core.disk ==> st'.core.disk[s] == st.core.disk[s]))
  {
  }

  lemma OwnEndKept(st: State, t: TurnId, save: SaveOutcome, me: Session)
    requires t in st.flights && Exclusive(st) && Kept(st, me)
    requires st.flights[t].session == me && st.flights[t].slot in st.core.slots
    ensures Kept(EndNext(st, t, save, true), me)
  {
    var st' := EndNext(st, t, save, true);
    var id := st.flights[t].slot;
    EndElsewhere(st, t, save, true);
    assert forall i | Label(st'.core.slots, i) == Some(me) :: i == id;
    assert forall u | u in st'.flights :: st'.flights[u].session != me;
    assert Held(st'.core.kv, id) == Complete(me, Version(st', me));
    assert Dirty(st'.core.slots, id) || st'.core.disk[me] == Held(st'.core.kv, id);
  }

  lemma OtherSlotsStay(st: State, st': State, t: TurnId, i: SlotId)
    requires t in st.flights && st'.flights == st.flights - {t} && i != st.flights[t].slot
    ensures Busy(st', i) <==> Busy(st, i)
  {
    if Busy(st, i) {
      var u :| u in st.flights && st.flights[u].slot == i;
      assert u in st'.flights && st'.flights[u].slot == i;
    }
  }

  lemma QuitKept(st: State, ev: Event, me: Session)
    requires ev.HangUp? || ev.Break?
    requires Enabled(st, ev) && Exclusive(st) && Kept(st, me)
    requires me !in Next(st, ev).broken
    ensures Kept(Next(st, ev), me)
  {
    var st' := Next(st, ev);
    var t := ev.turn;
    var f := st.flights[t];
    forall i | i != f.slot ensures Busy(st', i) <==> Busy(st, i) {
      OtherSlotsStay(st, st', t, i);
    }
    assert OnlyRegistryAt(st.core, st'.core, f.slot);
    assert Label(st.core.slots, f.slot) != Some(me) && Label(st'.core.slots, f.slot) != Some(me);
    assert NoneDirty(st', me) ==> NoneDirty(st, me);
    KeptFrame(st, st', me);
  }

  lemma QuotaKept(st: State, gone: set<Session>, me: Session)
    requires Kept(st, me)
    ensures Kept(Next(st, Quota(gone)), me)
  {
    var st' := Next(st, Quota(gone));
    assert forall i :: Busy(st', i) <==> Busy(st, i);
    assert NoneDirty(st', me) <==> NoneDirty(st, me);
  }

  lemma UnsteeredKept(st: State, id: SlotId, me: Session)
    requires Enabled(st, UnsteeredWrite(id)) && Kept(st, me)
    ensures Kept(Next(st, UnsteeredWrite(id)), me)
  {
    var st' := Next(st, UnsteeredWrite(id));
    assert forall i | i != id :: Held(st'.core.kv, i) == Held(st.core.kv, i);
    assert forall t | t in st.flights :: st.flights[t].slot != id;
    assert forall i :: Busy(st', i) <==> Busy(st, i);
    assert NoneDirty(st', me) <==> NoneDirty(st, me);
  }

  lemma StepKept(st: State, ev: Event, me: Session)
    requires Enabled(st, ev) && Exclusive(st) && Kept(st, me)
    requires me !in Next(st, ev).broken
    ensures Kept(Next(st, ev), me)
  {
    match ev
    case Start(t, s, e, d) =>
      if Admit(st.core, s, e).1.Forwarded? {
        ForwardedKept(st, t, s, e, d, me);
      } else if s != me {
        OtherKept(st, t, s, e, d, me);
      } else {
        OwnKept(st, t, e, d, me);
      }
    case Finish(t, save) => EndKept(st, t, save, true, me);
    case Truncate(t, save) => EndKept(st, t, save, false, me);
    case HangUp(_) => QuitKept(st, ev, me);
    case Break(_) => QuitKept(st, ev, me);
    case Quota(gone) => QuotaKept(st, gone, me);
    case UnsteeredWrite(id) => UnsteeredKept(st, id, me);
  }

  lemma InitKept(st: State, me: Session)
    requires Init(st)
    ensures Exclusive(st) && Kept(st, me)
  {
  }

  lemma {:induction false} RunKept(st: State, evs: seq<Event>, me: Session)
    requires IsRun(st, evs) && Exclusive(st) && Kept(st, me)
    requires me !in Run(st, evs).broken
    ensures Exclusive(Run(st, evs)) && Kept(Run(st, evs), me)
    decreases |evs|
  {
    if evs != [] {
      HistoryGrows(Next(st, evs[0]), evs[1..]);
      StepKept(st, evs[0], me);
      StepExclusive(st, evs[0]);
      RunKept(Next(st, evs[0]), evs[1..], me);
    }
  }

  // The slot registered to `s`, dirty, with its newest state or the turn that
  // extends it.
  ghost predicate HeldBySlot(st: State, s: Session, id: SlotId) {
    && Label(st.core.slots, id) == Some(s) && Dirty(st.core.slots, id)
    && (forall j | Label(st.core.slots, j) == Some(s) :: j == id)
    && (Held(st.core.kv, id) == Complete(s, Version(st, s))
        || (Held(st.core.kv, id) == Partial(s, Version(st, s))
            && exists t | t in st.flights :: st.flights[t] == Flight(s, id)))
  }

  /**
    No completed turn is lost: in every reachable state, for every session whose
    steered turns all ran normally and one at a time, the newest completed state
    is its blob, or was and the quota removed it, or sits in the one slot
    registered to the session. Failed saves, evictions and whatever happens to
    other sessions make no difference.
   */
  lemma NoLostState(st: State, evs: seq<Event>, s: Session)
    requires Init(st) && IsRun(st, evs)
    requires s !in Run(st, evs).broken && Version(Run(st, evs), s) > 0
    ensures var end := Run(st, evs);
            var newest := Complete(s, Version(end, s));
            || (s in end.core.disk && end.core.disk[s] == newest)
            || (s in end.evicted && end.evicted[s] == newest)
            || exists id :: HeldBySlot(end, s, id)
  {
    InitKept(st, s);
    RunKept(st, evs, s);
    var end := Run(st, evs);
    if !NoneDirty(end, s) {
      var id :| Label(end.core.slots, id) == Some(s) && Dirty(end.core.slots, id);
      if Busy(end, id) {
        var t :| t in end.flights && end.flights[t].slot == id;
        assert end.flights[t].session == s;
      }
      assert HeldBySlot(end, s, id);
    }
  }

  /**
    A turn resumes from the newest state. In every reachable state, a session
    whose turns all ran normally, and that has none in flight, finds in its slot
    what its last turn left, hot or restored; and it is restored whenever a cold
    slot was chosen, its blob is there and the backend can read it.
   */
  lemma ResumesFromNewest(st: State, evs: seq<Event>, s: Session, e: Env)
    requires Init(st) && IsRun(st, evs)
    requires s !in Run(st, evs).broken && !InFlight(Run(st, evs), s)
    requires Covers(e.order, Run(st, evs).core.slots) && Admit(Run(st, evs).core, s, e).1.Steered?
    ensures var end := Run(st, evs);
            var (c, a) := Admit(end.core, s, e);
            && (a.hot || a.restored ==> Held(c.kv, a.id) == Complete(s, Version(end, s)))
            && (a.hot || (a.restored <==> s in end.core.disk && e.restoreWorks))
  {
    InitKept(st, s);
    RunKept(st, evs, s);
    var end := Run(st, evs);
    var a := Admit(end.core, s, e).1;
    SteeredFacts(end.core, s, e);
    if !a.hot {
      ColdFacts(end.core, s, e);
      assert NoneDirty(end, s);
    }
  }

  // ------------------------------------------- what a rejected dispatch costs

  lemma RejectedKv(st: State, t: TurnId, s: Session, e: Env, touched: bool)
    requires Enabled(st, Start(t, s, e, Rejected(touched))) && Exclusive(st) && Kept(st, s)
    requires Admit(st.core, s, e).1.Steered? && !InFlight(st, s)
    ensures var a := Admit(st.core, s, e).1;
            var st' := StartNext(st, t, s, e, Rejected(touched));
            Held(st'.core.kv, a.id) == Complete(s, Version(st, s)) <==>
            !touched && (a.hot || a.restored || Held(st.core.kv, a.id) == Complete(s, Version(st, s)))
  {
    SteeredFacts(st.core, s, e);
    if !Admit(st.core, s, e).1.hot {
      ColdFacts(st.core, s, e);
      assert NoneDirty(st, s);
    }
  }

  /**
    Exactly when a rejected dispatch keeps the session's newest state where the
    invariant has it: the backend had not begun, and the slot was the session's
    own, or restored, or held that state already.
   */
  lemma RejectedKeepsExactly(st: State, t: TurnId, s: Session, e: Env, touched: bool)
    requires Enabled(st, Start(t, s, e, Rejected(touched))) && Exclusive(st) && Kept(st, s)
    requires Admit(st.core, s, e).1.Steered? && !InFlight(st, s)
    ensures var a := Admit(st.core, s, e).1;
            Kept(StartNext(st, t, s, e, Rejected(touched)), s) <==>
            !touched && (a.hot || a.restored || Held(st.core.kv, a.id) == Complete(s, Version(st, s)))
  {
    var a := Admit(st.core, s, e).1;
    if !Breaks(st, s, a, Rejected(touched)) {
      OwnKept(st, t, e, Rejected(touched), s);
    } else {
      RejectedKv(st, t, s, e, touched);
      RejectedIdle(st, t, s, e, touched);
    }
  }

  // The slot is the session's, dirty, and serves nobody.
  lemma RejectedIdle(st: State, t: TurnId, s: Session, e: Env, touched: bool)
    requires Enabled(st, Start(t, s, e, Rejected(touched))) && Exclusive(st) && Kept(st, s)
    requires Admit(st.core, s, e).1.Steered? && !InFlight(st, s)
    ensures var id := Admit(st.core, s, e).1.id;
            var st' := StartNext(st, t, s, e, Rejected(touched));
            && !Busy(st', id) && Label(st'.core.slots, id) == Some(s) && Dirty(st'.core.slots, id)
            && st'.flights == st.flights && Version(st', s) == Version(st, s)
            && (forall i | i != id :: Label(st'.core.slots, i) != Some(s))
  {
    var st' := StartNext(st, t, s, e, Rejected(touched));
    var a := Admit(st.core, s, e).1;
    SteeredFacts(st.core, s, e);
    SteeredElsewhere(st, t, s, e, Rejected(touched));
    if !a.hot {
      ColdFacts(st.core, s, e);
    }
  }

  // Two sessions are admitted, the second by evicting the first.
  function EvictingEnv(order: seq<SlotId>, id: SlotId): Env {
    Env(order, Some([SlotState(id, false)]), Some([SlotState(id, false)]), Published, true)
  }

  lemma EvictionAdmits(c: Core, id: SlotId, owner: Session, other: Session, order: seq<SlotId>)
    requires Dirty(c.slots, id) && Label(c.slots, id) == Some(owner)
    requires Covers(order, c.slots) && other !in c.disk && forall i :: Label(c.slots, i) != Some(other)
    ensures var (c', a) := Admit(c, other, EvictingEnv(order, id));
            && a == Steered(id, false, false) && c'.disk == c.disk[owner := Held(c.kv, id)]
            && Label(c'.slots, id) == Some(other)
            && (forall i | i != id :: Label(c'.slots, i) == Label(c.slots, i))
  {
    var e := EvictingEnv(order, id);
    var report := [SlotState(id, false)];
    HotSlotFacts(c.slots, order, other);
    assert HotSlot(c.slots, order, other) == None;
    var seen := Observe(c.slots, report[0]);
    assert report[1..] == [];
    assert FirstFree(c.slots, report) == (seen, NoSlot);
    var again := Observe(seen, report[0]);
    assert FirstDirty(seen, report) == (again, Victim(id, Some(owner)));
  }

  /**
    Otherwise the newest state can be lost: the next turn of another session may
    evict the slot, and then neither the blob nor any slot has it.
   */
  lemma RejectedCanCostNewest(
      st: State, t: TurnId, s: Session, e: Env, touched: bool, u: TurnId, other: Session, order: seq<SlotId>)
    requires Enabled(st, Start(t, s, e, Rejected(touched))) && Exclusive(st) && Kept(st, s)
    requires Admit(st.core, s, e).1.Steered? && !InFlight(st, s)
    requires !Kept(StartNext(st, t, s, e, Rejected(touched)), s)
    requires u !in st.flights && other != s && other !in Admit(st.core, s, e).0.disk
    requires var slots := StartNext(st, t, s, e, Rejected(touched)).core.slots;
             Covers(order, slots) && forall i :: Label(slots, i) != Some(other)
    ensures var st' := StartNext(st, t, s, e, Rejected(touched));
            var ev := Start(u, other, EvictingEnv(order, Admit(st.core, s, e).1.id), Accepted);
            && Enabled(st', ev)
            && var end := Next(st', ev);
               && Version(end, s) == Version(st, s)
               && s in end.core.disk && end.core.disk[s] != Complete(s, Version(st, s))
               && forall i :: Label(end.core.slots, i) != Some(s)
  {
    hide Kept;
    RejectedKeepsExactly(st, t, s, e, touched);
    RejectedKv(st, t, s, e, touched);
    RejectedIdle(st, t, s, e, touched);
    var id := Admit(st.core, s, e).1.id;
    var st' := StartNext(st, t, s, e, Rejected(touched));
    EvictionAdmits(st'.core, id, s, other, order);
  }

  // ------------------------------------------ turns that do not end normally

  lemma FlightOwnsSlot(st: State, t: TurnId)
    requires t in st.flights && Exclusive(st) && Kept(st, st.flights[t].session)
    ensures var f := st.flights[t];
            && f.slot in st.core.slots
            && Label(st.core.slots, f.slot) == Some(f.session) && Dirty(st.core.slots, f.slot)
            && Held(st.core.kv, f.slot) == Partial(f.session, Version(st, f.session))
            && (forall u | u in st.flights && u != t ::
                  st.flights[u].slot != f.slot && st.flights[u].session != f.session)
            && (forall i | i != f.slot :: Label(st.core.slots, i) != Some(f.session))
  {
  }

  /** A disconnect keeps the invariant exactly when the newest state is on disk, or was. */
  lemma HangUpKeepsExactly(st: State, t: TurnId)
    requires t in st.flights && Exclusive(st) && Kept(st, st.flights[t].session)
    ensures Kept(Next(st, HangUp(t)), st.flights[t].session) <==> OnDisk(st, st.flights[t].session)
  {
    hide Kept;
    var s, st' := st.flights[t].session, Next(st, HangUp(t));
    FlightOwnsSlot(st, t);
    var id := st.flights[t].slot;
    forall i ensures Label(st'.core.slots, i) != Some(s) {
      assert st'.core.slots == Abandon(st.core.slots, id);
      if i != id {
        assert Label(st'.core.slots, i) == Label(st.core.slots, i);
      }
    }
    assert Kept(st', s) <==> OnDisk(st', s) by {
      NowhereKept(st', s);
    }
  }

  // With no slot and no turn in flight, everything is a matter of the disk.
  lemma NowhereKept(st: State, s: Session)
    requires (forall i :: Label(st.core.slots, i) != Some(s)) && !InFlight(st, s)
    ensures Kept(st, s) <==> OnDisk(st, s)
  {
  }

  predicate CutOff(ev: Event) {
    ev.Break? || ev.Truncate?
  }

  // The slot stays the session's, and holds a turn cut off in the middle.
  lemma CutOffSlot(st: State, ev: Event)
    requires CutOff(ev) && ev.turn in st.flights && Exclusive(st) && Kept(st, st.flights[ev.turn].session)
    ensures var f, st' := st.flights[ev.turn], Next(st, ev);
            && Label(st'.core.slots, f.slot) == Some(f.session) && !Busy(st', f.slot)
            && Held(st'.core.kv, f.slot) == Partial(f.session, Version(st', f.session))
            && (ev.Break? ==> Dirty(st'.core.slots, f.slot) && st'.core == st.core)
            && Version(st', f.session) == Version(st, f.session) && st'.flights == st.flights - {ev.turn}
            && (ev.Truncate? && !ev.save.SaveFailed? ==>
                  f.session in st'.core.disk && st'.core.disk[f.session] == Partial(f.session, Version(st, f.session)))
  {
    hide Kept;
    FlightOwnsSlot(st, ev.turn);
  }

  /**
    A response that breaks off never keeps the invariant, however the save of a
    non-streamed one ends; and that save, unless it fails, makes the half-written
    turn the session's blob.
   */
  lemma CutOffNeverKeeps(st: State, ev: Event)
    requires CutOff(ev) && ev.turn in st.flights && Exclusive(st) && Kept(st, st.flights[ev.turn].session)
    ensures var s, st' := st.flights[ev.turn].session, Next(st, ev);
            && !Kept(st', s)
            && (ev.Truncate? && !ev.save.SaveFailed? ==>
                  s in st'.core.disk && st'.core.disk[s] == Partial(s, Version(st, s)))
  {
    CutOffSlot(st, ev);
  }

  /**
    After a broken stream the next eviction writes the half-written turn over the
    newest blob.
   */
  lemma BrokenTurnIsPublished(st: State, t: TurnId, u: TurnId, other: Session, order: seq<SlotId>)
    requires t in st.flights && Exclusive(st) && Kept(st, st.flights[t].session)
    requires u !in st.flights && other != st.flights[t].session && other !in st.core.disk
    requires Covers(order, st.core.slots) && forall i :: Label(st.core.slots, i) != Some(other)
    ensures var s, st' := st.flights[t].session, Next(st, Break(t));
            var ev := Start(u, other, EvictingEnv(order, st.flights[t].slot), Accepted);
            && Enabled(st', ev)
            && s in Next(st', ev).core.disk && Next(st', ev).core.disk[s] == Partial(s, Version(st, s))
  {
    hide Kept, Exclusive;
    FlightOwnsSlot(st, t);
    CutOffSlot(st, Break(t));
    var f, st' := st.flights[t], Next(st, Break(t));
    EvictionAdmits(st'.core, f.slot, f.session, other, order);
  }
}
