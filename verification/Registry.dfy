/**
  The slot registry and the admission of one request: which slot serves a
  session, what is published first, and what is restored.

  The backend answers through `Env`: the slots it reports, whether a restore
  works, how a save ends. `kv` is what each slot of the backend holds and `disk`
  the visible blobs, one per session (blob names are injective in the session,
  see `Names.BlobNameInjective`).
 */
module Registry {
  import opened Options

  type SlotId = nat
  type Session = string

  datatype SlotInfo = SlotInfo(session: Option<Session>, dirty: bool, busy: bool)

  type Slots = map<SlotId, SlotInfo>

  const UNKNOWN := SlotInfo(None, false, false)

  /** A slot as the backend reports it. */
  datatype SlotState = SlotState(id: SlotId, processing: bool)

  /**
    What a slot holds: the cache of a session after its `version`-th completed
    turn, the same cut off in mid-turn, or what an unsteered request left.
   */
  datatype KV =
    | Blank
    | Complete(owner: Session, version: nat)
    | Partial(owner: Session, version: nat)
    | Unsteered

  datatype Core = Core(slots: Slots, kv: map<SlotId, KV>, disk: map<Session, KV>)

  /**
    A save fails in the backend or before its rename; or the rename happened but
    the publishing task did not report back; or it was published.
   */
  datatype SaveOutcome = SaveFailed | RenamedOnly | Published

  /** `order` is the order in which the registry's hash map is iterated. */
  datatype Env = Env(
    order: seq<SlotId>,
    firstReport: Option<seq<SlotState>>,
    secondReport: Option<seq<SlotState>>,
    save: SaveOutcome,
    restoreWorks: bool)

  datatype Pick = Hot(id: SlotId) | Free(id: SlotId) | NoSlot

  datatype Victim = Victim(id: SlotId, session: Option<Session>) | NoVictim

  datatype Admission = Steered(id: SlotId, hot: bool, restored: bool) | Forwarded

  // ------------------------------------------------------------ the registry

  function Label(slots: Slots, id: SlotId): Option<Session> {
    if id in slots then slots[id].session else None
  }

  predicate Dirty(slots: Slots, id: SlotId) {
    id in slots && slots[id].dirty
  }

  function Held(kv: map<SlotId, KV>, id: SlotId): KV {
    if id in kv then kv[id] else Blank
  }

  // `entry(id).or_insert(..)` and the busy flag of the report.
  function Observe(slots: Slots, s: SlotState): Slots {
    slots[s.id := (if s.id in slots then slots[s.id] else UNKNOWN).(busy := s.processing)]
  }

  function HotSlot(slots: Slots, order: seq<SlotId>, session: Session): Option<SlotId> {
    if order == [] then None
    else if Label(slots, order[0]) == Some(session) then Some(order[0])
    else HotSlot(slots, order[1..], session)
  }

  function FirstFree(slots: Slots, report: seq<SlotState>): (Slots, Pick)
    decreases |report|
  {
    if report == [] then (slots, NoSlot)
    else
      var seen := Observe(slots, report[0]);
      if report[0].processing || Dirty(seen, report[0].id) then FirstFree(seen, report[1..])
      else (seen, Free(report[0].id))
  }

  function FirstDirty(slots: Slots, report: seq<SlotState>): (Slots, Victim)
    decreases |report|
  {
    if report == [] then (slots, NoVictim)
    else
      var seen := Observe(slots, report[0]);
      if !report[0].processing && Dirty(seen, report[0].id)
      then (seen, Victim(report[0].id, seen[report[0].id].session))
      else FirstDirty(seen, report[1..])
  }

  function PickSlot(slots: Slots, session: Session, e: Env): (Slots, Pick) {
    match HotSlot(slots, e.order, session)
    case Some(id) => (slots, Hot(id))
    case None =>
      match e.firstReport
      case None => (slots, NoSlot)
      case Some(report) => FirstFree(slots, report)
  }

  function FindEvictable(slots: Slots, e: Env): (Slots, Victim) {
    match e.secondReport
    case None => (slots, NoVictim)
    case Some(report) => FirstDirty(slots, report)
  }

  function MarkDirty(slots: Slots, id: SlotId, session: Session): Slots {
    slots[id := (if id in slots then slots[id] else UNKNOWN).(session := Some(session), dirty := true)]
  }

  function MarkClean(slots: Slots, id: SlotId): Slots {
    if id in slots then slots[id := slots[id].(dirty := false)] else slots
  }

  function SetSession(slots: Slots, id: SlotId, session: Session): Slots {
    if id in slots then slots[id := slots[id].(session := Some(session))] else slots
  }

  function Abandon(slots: Slots, id: SlotId): Slots {
    if id in slots then slots[id := slots[id].(session := None, dirty := false)] else slots
  }

  // ------------------------------------------------------ save and restore

  function SaveSlot(c: Core, id: SlotId, session: Session, outcome: SaveOutcome): Core {
    match outcome
    case SaveFailed => c
    case RenamedOnly => c.(disk := c.disk[session := Held(c.kv, id)])
    case Published => c.(disk := c.disk[session := Held(c.kv, id)], slots := MarkClean(c.slots, id))
  }

  // A missing blob is an error answer: the slot is left as it is.
  predicate Restores(c: Core, session: Session, e: Env) {
    session in c.disk && e.restoreWorks
  }

  function RestoreSlot(c: Core, id: SlotId, session: Session, e: Env): Core {
    if Restores(c, session, e) then c.(kv := c.kv[id := c.disk[session]]) else c
  }

  function Steer(c: Core, id: SlotId, session: Session): Core {
    c.(slots := MarkDirty(c.slots, id, session))
  }

  /** Admission, from lookup to the mark on the chosen slot. */
  function Admit(c: Core, session: Session, e: Env): (Core, Admission) {
    var diskHit := session in c.disk;
    var (picked, pick) := PickSlot(c.slots, session, e);
    var c1 := c.(slots := picked);
    match pick
    case Hot(id) => (Steer(c1, id, session), Steered(id, true, false))
    case Free(id) =>
      var c2 := if diskHit then RestoreSlot(c1, id, session, e) else c1;
      (Steer(c2, id, session), Steered(id, false, diskHit && Restores(c1, session, e)))
    case NoSlot =>
      var (scanned, victim) := FindEvictable(c1.slots, e);
      var c2 := c1.(slots := scanned);
      match victim
      case NoVictim => (c2, Forwarded)
      case Victim(id, owner) =>
        var c3 := Evict(c2, id, owner, e.save);
        if !EvictionWorks(owner, e.save) then (c3, Forwarded)
        else
          var c4 := if diskHit then RestoreSlot(c3, id, session, e) else c3;
          (Steer(c4, id, session), Steered(id, false, diskHit && Restores(c3, session, e)))
  }

  // Write-on-eviction; a victim without a session has nothing to publish.
  function Evict(c: Core, id: SlotId, owner: Option<Session>, outcome: SaveOutcome): Core {
    match owner
    case Some(v) => SaveSlot(c, id, v, outcome)
    case None => c
  }

  predicate EvictionWorks(owner: Option<Session>, outcome: SaveOutcome) {
    owner.Some? ==> outcome.Published?
  }

  /** Turn end, after the last chunk: claim the slot, then publish it. */
  function FinishTurn(c: Core, id: SlotId, session: Session, outcome: SaveOutcome): Core {
    SaveSlot(c.(slots := SetSession(c.slots, id, session)), id, session, outcome)
  }

  function AbandonTurn(c: Core, id: SlotId): Core {
    c.(slots := Abandon(c.slots, id))
  }

  // ---------------------------------------------------------- the live object

  /** The proxy's state, updated in place. */
  class App {
    var slots: Slots
    var kv: map<SlotId, KV>
    var disk: map<Session, KV>

    constructor (disk: map<Session, KV>)
      ensures State() == Core(map[], map[], disk)
    {
      this.slots, this.kv, this.disk := map[], map[], disk;
    }

    ghost function State(): Core
      reads this
    {
      Core(slots, kv, disk)
    }

    method PickForSession(session: Session, e: Env) returns (pick: Pick)
      modifies this`slots
      ensures (slots, pick) == PickSlot(old(slots), session, e)
    {
      for k := 0 to |e.order|
        invariant HotSlot(slots, e.order, session) == HotSlot(slots, e.order[k..], session)
        invariant slots == old(slots)
      {
        if Label(slots, e.order[k]) == Some(session) {
          return Hot(e.order[k]);
        }
        assert e.order[k..][1..] == e.order[k + 1..];
      }
      if e.firstReport == None {
        return NoSlot;
      }
      var report := e.firstReport.value;
      for k := 0 to |report|
        invariant FirstFree(old(slots), report) == FirstFree(slots, report[k..])
      {
        var s := report[k];
        slots := Observe(slots, s);
        assert report[k..][1..] == report[k + 1..];
        if s.processing || Dirty(slots, s.id) {
          continue;
        }
        return Free(s.id);
      }
      return NoSlot;
    }

    method FindVictim(e: Env) returns (victim: Victim)
      modifies this`slots
      ensures (slots, victim) == FindEvictable(old(slots), e)
    {
      if e.secondReport == None {
        return NoVictim;
      }
      var report := e.secondReport.value;
      for k := 0 to |report|
        invariant FirstDirty(old(slots), report) == FirstDirty(slots, report[k..])
      {
        var s := report[k];
        slots := Observe(slots, s);
        assert report[k..][1..] == report[k + 1..];
        if s.processing {
          continue;
        }
        if slots[s.id].dirty {
          return Victim(s.id, slots[s.id].session);
        }
      }
      return NoVictim;
    }

    method Save(id: SlotId, session: Session, outcome: SaveOutcome) returns (published: bool)
      modifies this
      ensures State() == SaveSlot(old(State()), id, session, outcome)
      ensures published <==> outcome.Published?
      ensures published ==> session in disk && disk[session] == Held(kv, id) && !Dirty(slots, id)
      ensures !published ==> slots == old(slots)
    {
      if outcome.SaveFailed? {
        return false;
      }
      disk := disk[session := Held(kv, id)];
      if outcome.RenamedOnly? {
        return false;
      }
      if id in slots {
        slots := slots[id := slots[id].(dirty := false)];
      }
      return true;
    }

    method EvictToDisk(id: SlotId, owner: Option<Session>, outcome: SaveOutcome) returns (ok: bool)
      modifies this
      ensures State() == Evict(old(State()), id, owner, outcome)
      ensures ok <==> owner == None || outcome.Published?
      ensures kv == old(kv) && (!ok || owner == None ==> slots == old(slots))
      ensures ok && owner.Some? ==> owner.value in disk && disk[owner.value] == Held(kv, id) && !Dirty(slots, id)
      ensures forall i :: Label(slots, i) == Label(old(slots), i)
      ensures forall i | i != id :: Dirty(slots, i) == Dirty(old(slots), i)
      ensures forall s | owner != Some(s) :: s in disk <==> s in old(disk)
      ensures forall s | owner != Some(s) && s in disk :: disk[s] == old(disk)[s]
    {
      if owner == None {
        return true;
      }
      ok := Save(id, owner.value, outcome);
    }

    method Restore(id: SlotId, session: Session, e: Env)
      modifies this`kv
      ensures State() == RestoreSlot(old(State()), id, session, e)
      ensures session in disk && e.restoreWorks ==>
                Held(kv, id) == disk[session] && forall i | i != id :: Held(kv, i) == Held(old(kv), i)
      ensures !(session in disk && e.restoreWorks) ==> kv == old(kv)
    {
      if session in disk && e.restoreWorks {
        kv := kv[id := disk[session]];
      }
    }

    method Mark(id: SlotId, session: Session)
      modifies this`slots
      ensures slots == MarkDirty(old(slots), id, session)
      ensures Label(slots, id) == Some(session) && Dirty(slots, id)
      ensures forall i | i != id :: Label(slots, i) == Label(old(slots), i) && Dirty(slots, i) == Dirty(old(slots), i)
    {
      var info := if id in slots then slots[id] else UNKNOWN;
      slots := slots[id := info.(session := Some(session), dirty := true)];
    }

    /** The admission part of `chat_completions`. */
    method AdmitRequest(session: Session, e: Env) returns (steer: Option<SlotId>)
      modifies this
      ensures State() == Admit(old(State()), session, e).0
      ensures steer == match Admit(old(State()), session, e).1
                       case Steered(id, _, _) => Some(id)
                       case Forwarded => None
    {
      var diskHit := session in disk;
      var pick := PickForSession(session, e);
      match pick
      case Hot(id) =>
        Mark(id, session);
        return Some(id);
      case Free(id) =>
        if diskHit {
          Restore(id, session, e);
        }
        Mark(id, session);
        return Some(id);
      case NoSlot =>
        var victim := FindVictim(e);
        if victim == NoVictim {
          return None;
        }
        var ok := EvictToDisk(victim.id, victim.session, e.save);
        if !ok {
          return None;
        }
        if diskHit {
          Restore(victim.id, session, e);
        }
        Mark(victim.id, session);
        return Some(victim.id);
    }

    method Finish(id: SlotId, session: Session, outcome: SaveOutcome)
      modifies this
      ensures State() == FinishTurn(old(State()), id, session, outcome)
      ensures id in old(slots) ==> Label(slots, id) == Some(session)
      ensures outcome.Published? ==> session in disk && disk[session] == Held(kv, id) && !Dirty(slots, id)
    {
      if id in slots {
        slots := slots[id := slots[id].(session := Some(session))];
      }
      var _ := Save(id, session, outcome);
    }

    method HangUp(id: SlotId)
      modifies this
      ensures State() == AbandonTurn(old(State()), id)
      ensures Label(slots, id) == None && !Dirty(slots, id) && disk == old(disk)
      ensures forall i | i != id :: Label(slots, i) == Label(old(slots), i) && Dirty(slots, i) == Dirty(old(slots), i)
    {
      if id in slots {
        slots := slots[id := slots[id].(dirty := false, session := None)];
      }
    }
  }
}
