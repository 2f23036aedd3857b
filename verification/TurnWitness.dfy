/**
  What a rejected dispatch can cost, in one concrete run: a session loses its
  newest state, and another session's state is filed under its name. The exact
  conditions are `Turns.RejectedKeepsExactly` and `Turns.RejectedDispatch`.
 */
module TurnWitness {
  import opened Options
  import opened Registry
  import opened AdmissionFacts
  import opened Turns

  const ONE_IDLE := Some([SlotState(0, false)])

  function Answers(order: seq<SlotId>, save: SaveOutcome, restoreWorks: bool): Env {
    Env(order, ONE_IDLE, ONE_IDLE, save, restoreWorks)
  }

  function TheRun(): seq<Event> {
    [ Start(0, "b", Answers([], SaveFailed, true), Accepted), Finish(0, Published),
      Start(1, "a", Answers([0], SaveFailed, true), Accepted), Finish(1, Published),
      Start(2, "b", Answers([0], SaveFailed, false), Rejected(false)),
      Start(3, "c", Answers([0], Published, true), Accepted) ]
  }

  function Slot(s: Session, dirty: bool): Slots {
    map[0 := SlotInfo(Some(s), dirty, false)]
  }

  const START := State(Core(map[], map[], map[]), map[], map[], map[], {}, {})

  // One slot, idle and either unknown or clean under another session.
  ghost predicate Takeable(slots: Slots, order: seq<SlotId>, s: Session) {
    || (slots == map[] && order == [])
    || (order == [0] && 0 in slots && slots == Slot(Owner(slots), false) && Owner(slots) != s)
  }

  function Owner(slots: Slots): Session {
    match Label(slots, 0)
    case Some(s) => s
    case None => ""
  }

  lemma AdmitFree(c: Core, s: Session, order: seq<SlotId>, works: bool)
    requires Takeable(c.slots, order, s)
    requires works ==> s !in c.disk
    ensures Admit(c, s, Answers(order, SaveFailed, works)) == (c.(slots := Slot(s, true)), Steered(0, false, false))
  {
    var e := Answers(order, SaveFailed, works);
    var r := SlotState(0, false);
    assert order == [0] ==> HotSlot(c.slots, [], s) == None && [0][1..] == [];
    assert HotSlot(c.slots, order, s) == None;
    var seen := Observe(c.slots, r);
    assert !Dirty(seen, 0);
    assert FirstFree(c.slots, [r]) == (seen, Free(0));
    assert MarkDirty(seen, 0, s) == Slot(s, true);
  }

  lemma FirstTurn(t: TurnId, s: Session, st: State, order: seq<SlotId>)
    requires st.flights == map[] && s !in st.core.disk && s !in st.versions && st.broken == {}
    requires Takeable(st.core.slots, order, s)
    ensures var ev := Start(t, s, Answers(order, SaveFailed, true), Accepted);
            && Enabled(st, ev)
            && Next(st, ev) == st.(core := Core(Slot(s, true), st.core.kv[0 := Partial(s, 0)], st.core.disk),
                                   flights := map[t := Flight(s, 0)])
  {
    AdmitFree(st.core, s, order, true);
  }

  lemma FirstEnd(t: TurnId, s: Session, st: State)
    requires st.flights == map[t := Flight(s, 0)] && st.core.slots == Slot(s, true) && s !in st.versions
    ensures Enabled(st, Finish(t, Published))
    ensures Next(st, Finish(t, Published))
         == st.(core := Core(Slot(s, false), st.core.kv[0 := Complete(s, 1)], st.core.disk[s := Complete(s, 1)]),
                flights := map[], versions := st.versions[s := 1])
  {
    var end := Next(st, Finish(t, Published));
    assert end.core.slots == Slot(s, false);
    assert end.flights == map[];
  }

  lemma RejectedTurn(st: State)
    requires st.flights == map[] && st.broken == {} && st.crossed == {}
    requires st.core.slots == Slot("a", false) && Held(st.core.kv, 0) == Complete("a", 1)
    ensures var ev := Start(2, "b", Answers([0], SaveFailed, false), Rejected(false));
            && Enabled(st, ev)
            && Next(st, ev) == st.(core := st.core.(slots := Slot("b", true)), broken := {"b"}, crossed := {"b"})
  {
    AdmitFree(st.core, "b", [0], false);
  }

  lemma EvictingTurn(st: State)
    requires st.flights == map[] && st.core.slots == Slot("b", true) && "c" !in st.core.disk
    ensures var ev := Start(3, "c", Answers([0], Published, true), Accepted);
            && Enabled(st, ev)
            && Next(st, ev).core.disk == st.core.disk["b" := Held(st.core.kv, 0)]
            && Next(st, ev).core.slots == Slot("c", true)
            && Next(st, ev).versions == st.versions && Next(st, ev).evicted == st.evicted
            && Next(st, ev).broken == st.broken
  {
    var e := Answers([0], Published, true);
    var report := [SlotState(0, false)];
    assert HotSlot(st.core.slots, [0], "c") == None;
    var seen := Observe(st.core.slots, report[0]);
    assert seen == Slot("b", true);
    assert FirstFree(st.core.slots, report) == (seen, NoSlot);
    assert FirstDirty(seen, report) == (seen, Victim(0, Some("b")));
    var end := Next(st, Start(3, "c", e, Accepted));
    assert end.core.slots == Slot("c", true);
  }

  lemma RunOne(st: State, ev: Event, rest: seq<Event>)
    requires Enabled(st, ev) && IsRun(Next(st, ev), rest)
    ensures IsRun(st, [ev] + rest)
    ensures Run(st, [ev] + rest) == Run(Next(st, ev), rest)
  {
    assert ([ev] + rest)[1..] == rest;
  }

  /**
    After the run, "b" has completed one turn, its blob is the state of "a", no
    slot carries it and the quota removed nothing.
   */
  lemma RejectedDispatchLosesState() returns (evs: seq<Event>, end: State)
    ensures Init(START) && IsRun(START, evs) && end == Run(START, evs)
    ensures Version(end, "b") == 1
    ensures "b" in end.core.disk && end.core.disk["b"] == Complete("a", 1)
    ensures forall i :: Label(end.core.slots, i) != Some("b")
    ensures end.evicted == map[]
    ensures end.broken == {"b"}
    ensures evs == TheRun()
  {
    hide Run, IsRun, Next, Enabled, Admit, Init;
    assert Init(START) by {
      StartIsFresh();
    }
    var all := TheRun();
    var s2, s4 := FourTurns();
    var s1, s3 := Next(START, all[0]), Next(s2, all[2]);
    RejectedTurn(s4);
    var s5 := Next(s4, all[4]);
    EvictingTurn(s5);
    end := Next(s5, all[5]);
    evs := SixSteps(START, s1, s2, s3, s4, s5, end, all[0], all[1], all[2], all[3], all[4], all[5]);
  }

  lemma StartIsFresh()
    ensures Init(START)
  {
  }

  // "b" and then "a" run a turn each on the one slot.
  lemma FourTurns() returns (s2: State, s4: State)
    ensures var all := TheRun();
            && Enabled(START, all[0]) && Enabled(Next(START, all[0]), all[1])
            && s2 == Next(Next(START, all[0]), all[1])
            && Enabled(s2, all[2]) && Enabled(Next(s2, all[2]), all[3])
            && s4 == Next(Next(s2, all[2]), all[3])
    ensures s4.flights == map[] && s4.broken == {} && s4.crossed == {} && s4.evicted == map[]
    ensures s4.core.slots == Slot("a", false) && Held(s4.core.kv, 0) == Complete("a", 1) && "c" !in s4.core.disk
    ensures s4.versions == map["b" := 1, "a" := 1]
  {
    hide Next, Enabled, Admit;
    var all := TheRun();
    FirstTurn(0, "b", START, []);
    var s1 := Next(START, all[0]);
    FirstEnd(0, "b", s1);
    s2 := Next(s1, all[1]);
    FirstTurn(1, "a", s2, [0]);
    var s3 := Next(s2, all[2]);
    FirstEnd(1, "a", s3);
    s4 := Next(s3, all[3]);
  }

  lemma SixSteps(s0: State, s1: State, s2: State, s3: State, s4: State, s5: State, s6: State,
                 e0: Event, e1: Event, e2: Event, e3: Event, e4: Event, e5: Event) returns (evs: seq<Event>)
    requires Enabled(s0, e0) && Next(s0, e0) == s1
    requires Enabled(s1, e1) && Next(s1, e1) == s2
    requires Enabled(s2, e2) && Next(s2, e2) == s3
    requires Enabled(s3, e3) && Next(s3, e3) == s4
    requires Enabled(s4, e4) && Next(s4, e4) == s5
    requires Enabled(s5, e5) && Next(s5, e5) == s6
    ensures evs == [e0, e1, e2, e3, e4, e5] && IsRun(s0, evs) && Run(s0, evs) == s6
  {
    evs := [];
    RunOne(s5, e5, evs);
    evs := [e5] + evs;
    RunOne(s4, e4, evs);
    evs := [e4] + evs;
    RunOne(s3, e3, evs);
    evs := [e3] + evs;
    RunOne(s2, e2, evs);
    evs := [e2] + evs;
    RunOne(s1, e1, evs);
    evs := [e1] + evs;
    RunOne(s0, e0, evs);
    evs := [e0] + evs;
  }
}
