/**
  What one admission does to the registry, the slots and the disk, whatever the
  backend answers.
 */
module AdmissionFacts {
  import opened Options
  import opened Registry

  // Entries added by a scan are unlabelled and clean, like absent ones.
  ghost predicate SameRegistry(a: Slots, b: Slots) {
    forall id :: Label(a, id) == Label(b, id) && Dirty(a, id) == Dirty(b, id)
  }

  predicate Idle(e: Env, id: SlotId) {
    || (e.firstReport.Some? && SlotState(id, false) in e.firstReport.value)
    || (e.secondReport.Some? && SlotState(id, false) in e.secondReport.value)
  }

  ghost predicate Covers(order: seq<SlotId>, slots: Slots) {
    forall id | id in slots :: id in order
  }

  lemma {:induction false} HotSlotFacts(slots: Slots, order: seq<SlotId>, session: Session)
    ensures HotSlot(slots, order, session).Some? ==>
              Label(slots, HotSlot(slots, order, session).value) == Some(session)
    ensures HotSlot(slots, order, session).None? ==>
              forall id | id in order :: Label(slots, id) != Some(session)
  {
    if order != [] {
      HotSlotFacts(slots, order[1..], session);
    }
  }

  lemma {:induction false} FirstFreeFacts(slots: Slots, report: seq<SlotState>)
    ensures SameRegistry(slots, FirstFree(slots, report).0)
    ensures FirstFree(slots, report).1.Free? ==>
              var id := FirstFree(slots, report).1.id;
              !Dirty(slots, id) && SlotState(id, false) in report
    ensures !FirstFree(slots, report).1.Hot?
    decreases |report|
  {
    if report != [] {
      FirstFreeFacts(Observe(slots, report[0]), report[1..]);
      assert report[0] == SlotState(report[0].id, report[0].processing);
    }
  }

  lemma {:induction false} FirstDirtyFacts(slots: Slots, report: seq<SlotState>)
    ensures SameRegistry(slots, FirstDirty(slots, report).0)
    ensures FirstDirty(slots, report).1.Victim? ==>
              var v := FirstDirty(slots, report).1;
              && Dirty(slots, v.id) && v.session == Label(slots, v.id)
              && SlotState(v.id, false) in report
    decreases |report|
  {
    if report != [] {
      FirstDirtyFacts(Observe(slots, report[0]), report[1..]);
      assert report[0] == SlotState(report[0].id, report[0].processing);
    }
  }

  // A dirty slot that changes hands, or fails to, had its content written
  // under its owner's name.
  ghost predicate Written(c: Core, c': Core, id: SlotId) {
    Label(c.slots, id).Some? && c'.disk == c.disk[Label(c.slots, id).value := Held(c.kv, id)]
  }

  ghost predicate OnlyRegistryAt(c: Core, c': Core, id: SlotId) {
    forall i | i != id ::
      Label(c'.slots, i) == Label(c.slots, i) && Dirty(c'.slots, i) == Dirty(c.slots, i)
  }

  /** A request that is not steered leaves the registry's labels and marks alone. */
  lemma ForwardedFacts(c: Core, session: Session, e: Env)
    requires Admit(c, session, e).1.Forwarded?
    ensures var c' := Admit(c, session, e).0;
            && SameRegistry(c.slots, c'.slots) && c'.kv == c.kv
            && (c'.disk == c.disk || exists id :: Dirty(c.slots, id) && Idle(e, id) && Written(c, c', id))
  {
    HotSlotFacts(c.slots, e.order, session);
    if e.firstReport.Some? {
      FirstFreeFacts(c.slots, e.firstReport.value);
    }
    var (picked, pick) := PickSlot(c.slots, session, e);
    if e.secondReport.Some? {
      FirstDirtyFacts(picked, e.secondReport.value);
      var victim := FindEvictable(picked, e).1;
      if victim.Victim? && e.save.RenamedOnly? && victim.session.Some? {
        assert Written(c, Admit(c, session, e).0, victim.id);
      }
    }
  }

  /** Steering marks one slot for the session; nobody else's slot is touched. */
  lemma SteeredFacts(c: Core, session: Session, e: Env)
    requires Admit(c, session, e).1.Steered?
    ensures var (c', a) := Admit(c, session, e);
            && Label(c'.slots, a.id) == Some(session) && Dirty(c'.slots, a.id) && a.id in c'.slots
            && OnlyRegistryAt(c, c', a.id)
            && (a.hot ==> Label(c.slots, a.id) == Some(session) && c'.kv == c.kv && c'.disk == c.disk && !a.restored)
  {
    HotSlotFacts(c.slots, e.order, session);
    if e.firstReport.Some? {
      FirstFreeFacts(c.slots, e.firstReport.value);
    }
    var (picked, pick) := PickSlot(c.slots, session, e);
    if e.secondReport.Some? {
      FirstDirtyFacts(picked, e.secondReport.value);
    }
  }

  /**
    A slot taken cold was reported idle, and no slot held the session. If it was
    dirty, its content was published under its owner's name first. The restored
    content is the session's own blob.
   */
  lemma ColdFacts(c: Core, session: Session, e: Env)
    requires Admit(c, session, e).1.Steered? && !Admit(c, session, e).1.hot
    requires Covers(e.order, c.slots)
    ensures var (c', a) := Admit(c, session, e);
            && Idle(e, a.id)
            && (forall i :: Label(c.slots, i) != Some(session))
            && (!Dirty(c.slots, a.id) || Label(c.slots, a.id).None? ==> c'.disk == c.disk)
            && (Dirty(c.slots, a.id) && Label(c.slots, a.id).Some? ==> Written(c, c', a.id))
            && (a.restored ==> session in c.disk && c'.kv == c.kv[a.id := c.disk[session]])
            && (!a.restored ==> c'.kv == c.kv)
            && (a.restored <==> session in c.disk && e.restoreWorks)
  {
    HotSlotFacts(c.slots, e.order, session);
    if e.firstReport.Some? {
      FirstFreeFacts(c.slots, e.firstReport.value);
    }
    var (picked, pick) := PickSlot(c.slots, session, e);
    if e.secondReport.Some? {
      FirstDirtyFacts(picked, e.secondReport.value);
    }
    forall i ensures Label(c.slots, i) != Some(session) {
      if i in c.slots {
        assert i in e.order;
      }
    }
  }

  ghost predicate DirtyHasOwner(slots: Slots) {
    forall id | Dirty(slots, id) :: Label(slots, id).Some?
  }

  /**
    Save-before-steal: a dirty slot leaves its session only after its content was
    published as that session's blob.
   */
  lemma SaveBeforeSteal(c: Core, session: Session, e: Env, id: SlotId, owner: Session)
    requires DirtyHasOwner(c.slots) && Covers(e.order, c.slots)
    requires Dirty(c.slots, id) && Label(c.slots, id) == Some(owner)
    requires Label(Admit(c, session, e).0.slots, id) != Some(owner)
    ensures e.save.Published? && Idle(e, id)
    ensures owner in Admit(c, session, e).0.disk && Admit(c, session, e).0.disk[owner] == Held(c.kv, id)
  {
    if Admit(c, session, e).1.Forwarded? {
      ForwardedFacts(c, session, e);
    } else {
      SteeredFacts(c, session, e);
      if !Admit(c, session, e).1.hot {
        ColdFacts(c, session, e);
        DirtyTakenOnlyPublished(c, session, e);
      }
    }
  }

  lemma DirtyTakenOnlyPublished(c: Core, session: Session, e: Env)
    requires DirtyHasOwner(c.slots)
    requires Admit(c, session, e).1.Steered? && !Admit(c, session, e).1.hot
    requires Dirty(c.slots, Admit(c, session, e).1.id)
    ensures e.save.Published?
  {
    HotSlotFacts(c.slots, e.order, session);
    if e.firstReport.Some? {
      FirstFreeFacts(c.slots, e.firstReport.value);
    }
    var (picked, pick) := PickSlot(c.slots, session, e);
    if e.secondReport.Some? {
      FirstDirtyFacts(picked, e.secondReport.value);
    }
  }

  // -------------------------------------------------- when it goes which way

  predicate NoneFree(slots: Slots, report: seq<SlotState>) {
    forall r | r in report :: r.processing || Dirty(slots, r.id)
  }

  predicate NoneStealable(slots: Slots, report: seq<SlotState>) {
    forall r | r in report :: r.processing || !Dirty(slots, r.id)
  }

  lemma {:induction false} FreeIsFound(slots: Slots, report: seq<SlotState>)
    ensures FirstFree(slots, report).1.NoSlot? <==> NoneFree(slots, report)
    decreases |report|
  {
    if report != [] {
      var seen := Observe(slots, report[0]);
      FreeIsFound(seen, report[1..]);
      assert report == [report[0]] + report[1..];
      assert forall id :: Dirty(seen, id) == Dirty(slots, id);
    }
  }

  lemma {:induction false} DirtyIsFound(slots: Slots, report: seq<SlotState>)
    ensures FirstDirty(slots, report).1.NoVictim? <==> NoneStealable(slots, report)
    decreases |report|
  {
    if report != [] {
      var seen := Observe(slots, report[0]);
      DirtyIsFound(seen, report[1..]);
      assert report == [report[0]] + report[1..];
      assert forall id :: Dirty(seen, id) == Dirty(slots, id);
    }
  }

  // ------------------------------------------- the first of the report that will do

  predicate CleanAndIdle(slots: Slots, r: SlotState) {
    !r.processing && !(r.id in slots && slots[r.id].dirty)
  }

  predicate DirtyAndIdle(slots: Slots, r: SlotState) {
    !r.processing && r.id in slots && slots[r.id].dirty
  }

  /** A free slot is the first clean and idle one of the report. */
  lemma {:induction false} FreeIsFirst(slots: Slots, report: seq<SlotState>) returns (k: nat)
    requires FirstFree(slots, report).1.Free?
    ensures k < |report| && report[k].id == FirstFree(slots, report).1.id && CleanAndIdle(slots, report[k])
    ensures forall i | 0 <= i < k :: !CleanAndIdle(slots, report[i])
    decreases |report|
  {
    var seen := Observe(slots, report[0]);
    assert forall r: SlotState :: CleanAndIdle(seen, r) <==> CleanAndIdle(slots, r);
    if CleanAndIdle(slots, report[0]) {
      k := 0;
    } else {
      var k' := FreeIsFirst(seen, report[1..]);
      k := k' + 1;
      forall i | 0 <= i < k ensures !CleanAndIdle(slots, report[i]) {
        assert i > 0 ==> report[i] == report[1..][i - 1];
      }
    }
  }

  /** A victim is the first dirty and idle slot of the report, with its session. */
  lemma {:induction false} VictimIsFirst(slots: Slots, report: seq<SlotState>) returns (k: nat)
    requires FirstDirty(slots, report).1.Victim?
    ensures k < |report| && report[k].id == FirstDirty(slots, report).1.id && DirtyAndIdle(slots, report[k])
    ensures FirstDirty(slots, report).1.session == slots[report[k].id].session
    ensures forall i | 0 <= i < k :: !DirtyAndIdle(slots, report[i])
    decreases |report|
  {
    var seen := Observe(slots, report[0]);
    assert forall r: SlotState :: DirtyAndIdle(seen, r) <==> DirtyAndIdle(slots, r);
    assert forall id | Dirty(slots, id) :: seen[id].session == slots[id].session;
    if DirtyAndIdle(slots, report[0]) {
      k := 0;
    } else {
      var k' := VictimIsFirst(seen, report[1..]);
      k := k' + 1;
      forall i | 0 <= i < k ensures !DirtyAndIdle(slots, report[i]) {
        assert i > 0 ==> report[i] == report[1..][i - 1];
      }
    }
  }

  // What the first `n` slots of a report say of slot `id`, the last word counting.
  function LastSaid(report: seq<SlotState>, n: nat, id: SlotId): Option<bool>
    requires n <= |report|
  {
    if n == 0 then None
    else if report[n - 1].id == id then Some(report[n - 1].processing)
    else LastSaid(report, n - 1, id)
  }

  predicate NotedAt(slots: Slots, slots': Slots, id: SlotId, said: Option<bool>) {
    match said
    case None => (id in slots' <==> id in slots) && (id in slots ==> slots'[id] == slots[id])
    case Some(busy) => id in slots' && slots'[id] == SlotInfo(Label(slots, id), Dirty(slots, id), busy)
  }

  // The registry has noted the first `n` slots of a report, and nothing else.
  ghost predicate Noted(slots: Slots, slots': Slots, report: seq<SlotState>, n: nat)
    requires n <= |report|
  {
    forall id :: NotedAt(slots, slots', id, LastSaid(report, n, id))
  }

  lemma NotedMore(slots: Slots, slots': Slots, report: seq<SlotState>, n: nat)
    requires n < |report| && Noted(slots, slots', report, n)
    ensures Noted(slots, Observe(slots', report[n]), report, n + 1)
  {
    var after, m := Observe(slots', report[n]), n + 1;
    forall id ensures NotedAt(slots, after, id, LastSaid(report, m, id)) {
      assert NotedAt(slots, slots', id, LastSaid(report, n, id));
    }
  }

  /** A session goes back to a slot of its own exactly when it has one. */
  lemma HotExactlyWhen(c: Core, session: Session, e: Env)
    requires Covers(e.order, c.slots)
    ensures Admit(c, session, e).1.Steered? && Admit(c, session, e).1.hot <==>
            exists id :: Label(c.slots, id) == Some(session)
  {
    HotSlotFacts(c.slots, e.order, session);
    if id :| Label(c.slots, id) == Some(session) {
      assert id in e.order;
    } else if Admit(c, session, e).1.Steered? {
      SteeredFacts(c, session, e);
    }
  }

  /**
    A request goes unsteered exactly when the session has no slot, no idle slot
    is clean, and no idle dirty slot could be published.
   */
  lemma ForwardedExactlyWhen(c: Core, session: Session, e: Env)
    requires DirtyHasOwner(c.slots) && Covers(e.order, c.slots)
    ensures Admit(c, session, e).1.Forwarded? <==>
            && (forall id :: Label(c.slots, id) != Some(session))
            && (e.firstReport.Some? ==> NoneFree(c.slots, e.firstReport.value))
            && (e.secondReport.Some? ==> NoneStealable(c.slots, e.secondReport.value) || !e.save.Published?)
  {
    HotExactlyWhen(c, session, e);
    HotSlotFacts(c.slots, e.order, session);
    if HotSlot(c.slots, e.order, session).None? {
      if e.firstReport.Some? {
        FirstFreeFacts(c.slots, e.firstReport.value);
        FreeIsFound(c.slots, e.firstReport.value);
      }
      var picked := PickSlot(c.slots, session, e).0;
      assert SameRegistry(c.slots, picked);
      if e.secondReport.Some? {
        FirstDirtyFacts(picked, e.secondReport.value);
        DirtyIsFound(picked, e.secondReport.value);
      }
    }
  }

  lemma {:induction false} HotIsFirst(slots: Slots, order: seq<SlotId>, session: Session) returns (k: nat)
    requires HotSlot(slots, order, session).Some?
    ensures k < |order| && order[k] == HotSlot(slots, order, session).value
    ensures Label(slots, order[k]) == Some(session) && forall j | 0 <= j < k :: Label(slots, order[j]) != Some(session)
  {
    if Label(slots, order[0]) == Some(session) {
      k := 0;
    } else {
      k := HotIsFirst(slots, order[1..], session);
      k := k + 1;
    }
  }

  /** A session goes back to the first of its slots that the registry's iteration meets. */
  lemma HotTakesFirst(c: Core, session: Session, e: Env) returns (k: nat)
    requires Admit(c, session, e).1.Steered? && Admit(c, session, e).1.hot
    ensures k < |e.order| && e.order[k] == Admit(c, session, e).1.id && e.order[k] in c.slots
    ensures c.slots[e.order[k]].session == Some(session)
    ensures forall j | 0 <= j < k && e.order[j] in c.slots :: c.slots[e.order[j]].session != Some(session)
  {
    if e.firstReport.Some? {
      FirstFreeFacts(c.slots, e.firstReport.value);
    }
    k := HotIsFirst(c.slots, e.order, session);
  }

  /**
    A slot taken cold is the first clean and idle one of the first report; or, when
    that has none, the first dirty and idle one of the second, published.
   */
  lemma ColdTakesFirst(c: Core, session: Session, e: Env) returns (k: nat)
    requires Admit(c, session, e).1.Steered? && !Admit(c, session, e).1.hot
    ensures var a := Admit(c, session, e).1;
            || (e.firstReport.Some? && TakesFirst(c.slots, e.firstReport.value, k, a.id, false))
            || ((e.firstReport.Some? ==> forall r | r in e.firstReport.value :: !CleanAndIdle(c.slots, r))
                && e.secondReport.Some? && TakesFirst(c.slots, e.secondReport.value, k, a.id, true)
                && (c.slots[a.id].session.Some? ==> e.save.Published?))
  {
    HotSlotFacts(c.slots, e.order, session);
    var (picked, pick) := PickSlot(c.slots, session, e);
    if e.firstReport.Some? {
      var report := e.firstReport.value;
      FirstFreeFacts(c.slots, report);
      FreeIsFound(c.slots, report);
      if pick.Free? {
        k := FreeIsFirst(c.slots, report);
        return;
      }
    }
    assert pick.NoSlot? && SameRegistry(c.slots, picked);
    k := VictimIsFirst(picked, e.secondReport.value);
    SameForScan(c.slots, picked);
  }

  // The `k`-th slot of the report is the first that will do.
  ghost predicate TakesFirst(slots: Slots, report: seq<SlotState>, k: nat, id: SlotId, dirty: bool) {
    && k < |report| && report[k].id == id && !report[k].processing
    && (id in slots && slots[id].dirty) == dirty
    && forall i | 0 <= i < k ::
         report[i].processing || (report[i].id in slots && slots[report[i].id].dirty) != dirty
  }

  lemma SameForScan(a: Slots, b: Slots)
    requires SameRegistry(a, b)
    ensures forall r: SlotState :: DirtyAndIdle(a, r) <==> DirtyAndIdle(b, r)
    ensures forall id | Dirty(a, id) :: Dirty(b, id) && a[id].session == b[id].session
  {
    forall r: SlotState ensures DirtyAndIdle(a, r) <==> DirtyAndIdle(b, r) {
      assert Dirty(a, r.id) == Dirty(b, r.id);
    }
    forall id | Dirty(a, id) ensures Dirty(b, id) && a[id].session == b[id].session {
      assert Label(a, id) == Label(b, id);
    }
  }

  /** What a lookup leaves in the registry: the slots of its report, as far as it read. */
  lemma FreeNotes(slots: Slots, report: seq<SlotState>) returns (m: nat)
    ensures m <= |report| && Noted(slots, FirstFree(slots, report).0, report, m)
    ensures match FirstFree(slots, report).1
            case Free(id) => 0 < m && report[m - 1] == SlotState(id, false)
            case _ => m == |report|
  {
    m := FreeNotesFrom(slots, slots, report, 0);
    assert report[0..] == report;
  }

  lemma {:induction false} FreeNotesFrom(was: Slots, slots: Slots, report: seq<SlotState>, n: nat) returns (m: nat)
    requires n <= |report| && Noted(was, slots, report, n)
    ensures n <= m <= |report| && Noted(was, FirstFree(slots, report[n..]).0, report, m)
    ensures match FirstFree(slots, report[n..]).1
            case Free(id) => 0 < m && report[m - 1] == SlotState(id, false)
            case _ => m == |report|
    decreases |report| - n
  {
    hide Noted;
    m := n;
    if n < |report| {
      var seen := Observe(slots, report[n]);
      NotedMore(was, slots, report, n);
      assert report[n..][1..] == report[n + 1..] && report[n..][0] == report[n];
      if report[n].processing || Dirty(seen, report[n].id) {
        m := FreeNotesFrom(was, seen, report, n + 1);
      } else {
        m := n + 1;
        assert report[n] == SlotState(report[n].id, report[n].processing);
      }
    }
  }
}
