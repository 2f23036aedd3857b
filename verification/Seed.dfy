/**
  The seed dance: on first sight of a system prompt, prefill it, confirm the
  position, save and publish; on a later sight, restore. The backend and the
  publisher answer arbitrarily, through `Answer`.

  `Next` is one step of one call: one backend or publisher call, or one critical
  section of the bag's lock. `Prepare` is a call that nothing interrupts.
 */
module Seed {
  import opened Options
  import opened Keys

  type SlotId = nat
  type Family = string

  datatype BagState = Uncached | Cached | Failed

  /** The prompt head of a family, a JSON array, or null. */
  datatype Head = Array(messages: seq<Json>) | Null

  datatype BagEntry = BagEntry(system: Head, state: BagState)

  type Bag = map<Family, BagEntry>

  datatype SlotReport = SlotReport(id: SlotId, processing: bool, tokens: nat)

  datatype SeedResult = Restored | ColdPrefill | Seeded | DanceFailed | Skipped

  /** A call to the backend or the publisher, with its answer. */
  datatype Call =
    | Slots(report: Option<SlotReport>)   // what it says of the slot, if anything
    | Prefill(slot: SlotId, system: Head, ok: bool)
    | Save(slot: SlotId, family: Family, ok: bool)
    | Restore(slot: SlotId, family: Family, ok: bool)
    | Publish(family: Family, ok: bool)

  datatype Answer = Answer(slots: Option<seq<SlotReport>>, ok: bool)

  datatype Pc =
    | Hash | Look | CheckBag | EnterBag | Prefilling | Confirm | Saving | Publishing
    | MarkCached | MarkFailed | Restoring | Done(result: SeedResult)

  /** One call of `prepare` for a request on `slot`. */
  datatype Task = Task(
    slot: SlotId, messages: seq<Message>, pc: Pc, key: Family, system: Head, trace: seq<Call>)

  function NewCall(slot: SlotId, messages: seq<Message>): Task {
    Task(slot, messages, Hash, "", Null, [])
  }

  function FindSlot(reports: seq<SlotReport>, id: SlotId): Option<SlotReport> {
    if reports == [] then None
    else if reports[0].id == id then Some(reports[0])
    else FindSlot(reports[1..], id)
  }

  // An error answer and an unreported slot come to the same.
  function Report(a: Answer, id: SlotId): Option<SlotReport> {
    match a.slots
    case None => None
    case Some(reports) => FindSlot(reports, id)
  }

  predicate Idle(r: Option<SlotReport>) {
    r.Some? && !r.value.processing
  }

  predicate Confirmed(r: Option<SlotReport>) {
    Idle(r) && r.value.tokens > 0
  }

  // --------------------------------------------------------------- the bag

  // Enter the family, retry a failed one, and note its prompt head once.
  function Entered(bag: Bag, key: Family, systems: seq<Json>): BagEntry {
    var e := if key in bag then bag[key] else BagEntry(Array([]), Uncached);
    var retried := if e.state.Failed? then e.(state := Uncached) else e;
    if retried.system == Array([]) then retried.(system := Array(systems)) else retried
  }

  function Settled(bag: Bag, key: Family): Bag {
    if key in bag then bag[key := bag[key].(state := Cached)] else bag
  }

  function Spoiled(bag: Bag, key: Family): Bag {
    if key in bag then bag[key := bag[key].(state := Failed)]
    else bag[key := BagEntry(Null, Failed)]
  }

  // --------------------------------------------------------------- one step

  function Did(k: Task, call: Call, pc: Pc): Task {
    k.(trace := k.trace + [call], pc := pc)
  }

  function BagNext(bag: Bag, k: Task): Bag {
    match k.pc
    case EnterBag => bag[k.key := Entered(bag, k.key, Systems(k.messages))]
    case MarkCached => Settled(bag, k.key)
    case MarkFailed => Spoiled(bag, k.key)
    case _ => bag
  }

  function TaskNext(digest: Digest, bag: Bag, k: Task, a: Answer): Task {
    match k.pc
    case Hash =>
      (match SystemHash(digest, k.messages)
       case None => k.(pc := Done(Skipped))
       case Some(key) => k.(key := key, pc := Look))
    case Look =>
      var r := Report(a, k.slot);
      Did(k, Slots(r), if Idle(r) then CheckBag else Done(Skipped))
    case CheckBag => k.(pc := if k.key in bag && bag[k.key].state.Cached? then Restoring else EnterBag)
    case EnterBag => k.(system := Entered(bag, k.key, Systems(k.messages)).system, pc := Prefilling)
    case Prefilling => Did(k, Prefill(k.slot, k.system, a.ok), if a.ok then Confirm else MarkFailed)
    case Confirm =>
      var r := Report(a, k.slot);
      Did(k, Slots(r), if Confirmed(r) then Saving else MarkFailed)
    case Saving => Did(k, Save(k.slot, k.key, a.ok), if a.ok then Publishing else MarkFailed)
    case Publishing => Did(k, Publish(k.key, a.ok), if a.ok then MarkCached else MarkFailed)
    case MarkCached => k.(pc := Done(Seeded))
    case MarkFailed => k.(pc := Done(DanceFailed))
    case Restoring => Did(k, Restore(k.slot, k.key, a.ok), Done(if a.ok then Restored else ColdPrefill))
    case Done(_) => k
  }

  // ------------------------------------------------------ an uninterrupted call

  datatype Answers = Answers(
    gate: Answer, restore: bool, prefill: bool, confirm: Answer, save: bool, publish: bool)

  datatype Outcome = Outcome(bag: Bag, result: SeedResult, trace: seq<Call>)

  /** What a call does, step by step in the order of the source. */
  function Prepare(digest: Digest, bag: Bag, slot: SlotId, messages: seq<Message>, a: Answers): Outcome {
    match SystemHash(digest, messages)
    case None => Outcome(bag, Skipped, [])
    case Some(key) =>
      var gate := Report(a.gate, slot);
      var t1 := [Slots(gate)];
      if !Idle(gate) then Outcome(bag, Skipped, t1)
      else if key in bag && bag[key].state.Cached? then
        Outcome(bag, if a.restore then Restored else ColdPrefill, t1 + [Restore(slot, key, a.restore)])
      else
        var entry := Entered(bag, key, Systems(messages));
        var entered := bag[key := entry];
        var t2 := t1 + [Prefill(slot, entry.system, a.prefill)];
        if !a.prefill then Outcome(Spoiled(entered, key), DanceFailed, t2)
        else
          var confirm := Report(a.confirm, slot);
          var t3 := t2 + [Slots(confirm)];
          if !Confirmed(confirm) then Outcome(Spoiled(entered, key), DanceFailed, t3)
          else
            var t4 := t3 + [Save(slot, key, a.save)];
            if !a.save then Outcome(Spoiled(entered, key), DanceFailed, t4)
            else
              var t5 := t4 + [Publish(key, a.publish)];
              if a.publish then Outcome(Settled(entered, key), Seeded, t5)
              else Outcome(Spoiled(entered, key), DanceFailed, t5)
  }

  /** The orchestrator; `bag` is its only state. */
  class SeedDance {
    var bag: Bag

    constructor ()
      ensures bag == map[]
    {
      bag := map[];
    }

    method SettleCached(key: Family)
      modifies this
      ensures bag == Settled(old(bag), key)
      ensures bag.Keys == old(bag).Keys
      ensures key in bag ==> bag[key].state == Cached && bag[key].system == old(bag)[key].system
      ensures forall k | k in bag && k != key :: bag[k] == old(bag)[k]
    {
      if key in bag {
        bag := bag[key := bag[key].(state := Cached)];
      }
    }

    method SettleFailed(key: Family) returns (r: SeedResult)
      modifies this
      ensures bag == Spoiled(old(bag), key) && r == DanceFailed
      ensures bag.Keys == old(bag).Keys + {key} && bag[key].state == Failed
      ensures bag[key].system == if key in old(bag) then old(bag)[key].system else Null
      ensures forall k | k in bag && k != key :: bag[k] == old(bag)[k]
    {
      if key in bag {
        bag := bag[key := bag[key].(state := Failed)];
      } else {
        bag := bag[key := BagEntry(Null, Failed)];
      }
      r := DanceFailed;
    }

    method EnterFamily(key: Family, messages: seq<Message>) returns (system: Head)
      modifies this
      ensures bag == old(bag)[key := Entered(old(bag), key, Systems(messages))]
      ensures system == bag[key].system && bag.Keys == old(bag).Keys + {key}
      ensures bag[key].state == if key in old(bag) && old(bag)[key].state == Cached then Cached else Uncached
      ensures key in old(bag) && old(bag)[key].system != Array([]) ==> system == old(bag)[key].system
      ensures key !in old(bag) || old(bag)[key].system == Array([]) ==> system == Array(Systems(messages))
      ensures forall k | k in bag && k != key :: bag[k] == old(bag)[k]
    {
      if key !in bag {
        bag := bag[key := BagEntry(Array([]), Uncached)];
      }
      if bag[key].state == Failed {
        bag := bag[key := bag[key].(state := Uncached)];
      }
      if bag[key].system == Array([]) {
        bag := bag[key := bag[key].(system := Array(Systems(messages)))];
      }
      system := bag[key].system;
    }

    method PrepareRequest(digest: Digest, slot: SlotId, messages: seq<Message>, a: Answers)
        returns (r: SeedResult, trace: seq<Call>)
      modifies this
      ensures Outcome(bag, r, trace) == Prepare(digest, old(bag), slot, messages, a)
    {
      trace := [];
      var hashed := SystemHash(digest, messages);
      if hashed == None {
        return Skipped, trace;
      }
      var key := hashed.value;
      var gate := Report(a.gate, slot);
      trace := trace + [Slots(gate)];
      if !Idle(gate) {
        return Skipped, trace;
      }
      if key in bag && bag[key].state == Cached {
        trace := trace + [Restore(slot, key, a.restore)];
        return if a.restore then Restored else ColdPrefill, trace;
      }
      var system := EnterFamily(key, messages);
      trace := trace + [Prefill(slot, system, a.prefill)];
      if !a.prefill {
        r := SettleFailed(key);
        return;
      }
      var confirm := Report(a.confirm, slot);
      trace := trace + [Slots(confirm)];
      if !Confirmed(confirm) {
        r := SettleFailed(key);
        return;
      }
      trace := trace + [Save(slot, key, a.save)];
      if !a.save {
        r := SettleFailed(key);
        return;
      }
      trace := trace + [Publish(key, a.publish)];
      if a.publish {
        SettleCached(key);
        return Seeded, trace;
      }
      r := SettleFailed(key);
    }
  }

  // ----------------------------------- a call run alone is a run of its steps

  function AnswerAt(a: Answers, pc: Pc): Answer {
    match pc
    case Look => a.gate
    case Confirm => a.confirm
    case Restoring => Answer(None, a.restore)
    case Prefilling => Answer(None, a.prefill)
    case Saving => Answer(None, a.save)
    case Publishing => Answer(None, a.publish)
    case _ => Answer(None, false)
  }

  function Alone(digest: Digest, bag: Bag, k: Task, a: Answers, fuel: nat): (Bag, Task)
    decreases fuel
  {
    if fuel == 0 || k.pc.Done? then (bag, k)
    else Alone(digest, BagNext(bag, k), TaskNext(digest, bag, k, AnswerAt(a, k.pc)), a, fuel - 1)
  }

  lemma AloneStep(digest: Digest, bag: Bag, k: Task, a: Answers, fuel: nat)
    requires fuel > 0 && !k.pc.Done?
    ensures Alone(digest, bag, k, a, fuel)
         == Alone(digest, BagNext(bag, k), TaskNext(digest, bag, k, AnswerAt(a, k.pc)), a, fuel - 1)
  {
  }

  lemma AloneDone(digest: Digest, bag: Bag, k: Task, a: Answers, fuel: nat)
    requires k.pc.Done?
    ensures Alone(digest, bag, k, a, fuel) == (bag, k)
  {
  }

  // The last steps of a dance: from each point, what remains of `Prepare`.
  lemma AloneFails(digest: Digest, bag: Bag, k: Task, a: Answers, fuel: nat)
    requires k.pc == MarkFailed && fuel >= 1
    ensures Alone(digest, bag, k, a, fuel) == (Spoiled(bag, k.key), k.(pc := Done(DanceFailed)))
  {
    AloneStep(digest, bag, k, a, fuel);
    AloneDone(digest, Spoiled(bag, k.key), k.(pc := Done(DanceFailed)), a, fuel - 1);
  }

  lemma AlonePublishes(digest: Digest, bag: Bag, k: Task, a: Answers, fuel: nat)
    requires k.pc == Saving && fuel >= 3
    ensures var t4 := k.trace + [Save(k.slot, k.key, a.save)];
            var t5 := t4 + [Publish(k.key, a.publish)];
            Alone(digest, bag, k, a, fuel) ==
              if !a.save then (Spoiled(bag, k.key), k.(trace := t4, pc := Done(DanceFailed)))
              else if a.publish then (Settled(bag, k.key), k.(trace := t5, pc := Done(Seeded)))
              else (Spoiled(bag, k.key), k.(trace := t5, pc := Done(DanceFailed)))
  {
    hide Alone;
    AloneStep(digest, bag, k, a, fuel);
    var k1 := TaskNext(digest, bag, k, AnswerAt(a, k.pc));
    if !a.save {
      AloneFails(digest, bag, k1, a, fuel - 1);
    } else {
      AloneStep(digest, bag, k1, a, fuel - 1);
      var k2 := TaskNext(digest, bag, k1, AnswerAt(a, k1.pc));
      if a.publish {
        AloneStep(digest, bag, k2, a, fuel - 2);
        AloneDone(digest, Settled(bag, k.key), k2.(pc := Done(Seeded)), a, fuel - 3);
      } else {
        AloneFails(digest, bag, k2, a, fuel - 2);
      }
    }
  }

  lemma AloneDances(digest: Digest, bag: Bag, k: Task, a: Answers, fuel: nat)
    requires k.pc == Prefilling && fuel >= 5
    ensures var t2 := k.trace + [Prefill(k.slot, k.system, a.prefill)];
            var confirm := Report(a.confirm, k.slot);
            var t3 := t2 + [Slots(confirm)];
            var t4 := t3 + [Save(k.slot, k.key, a.save)];
            var t5 := t4 + [Publish(k.key, a.publish)];
            Alone(digest, bag, k, a, fuel) ==
              if !a.prefill then (Spoiled(bag, k.key), k.(trace := t2, pc := Done(DanceFailed)))
              else if !Confirmed(confirm) then (Spoiled(bag, k.key), k.(trace := t3, pc := Done(DanceFailed)))
              else if !a.save then (Spoiled(bag, k.key), k.(trace := t4, pc := Done(DanceFailed)))
              else if a.publish then (Settled(bag, k.key), k.(trace := t5, pc := Done(Seeded)))
              else (Spoiled(bag, k.key), k.(trace := t5, pc := Done(DanceFailed)))
  {
    hide Alone;
    AloneStep(digest, bag, k, a, fuel);
    var k1 := TaskNext(digest, bag, k, AnswerAt(a, k.pc));
    if !a.prefill {
      AloneFails(digest, bag, k1, a, fuel - 1);
    } else {
      AloneStep(digest, bag, k1, a, fuel - 1);
      var k2 := TaskNext(digest, bag, k1, AnswerAt(a, k1.pc));
      if Confirmed(Report(a.confirm, k.slot)) {
        AlonePublishes(digest, bag, k2, a, fuel - 2);
      } else {
        AloneFails(digest, bag, k2, a, fuel - 2);
      }
    }
  }

  lemma AloneSeesAgain(digest: Digest, bag: Bag, k: Task, a: Answers, fuel: nat)
    requires k.pc == CheckBag && fuel >= 7
    requires k.key in bag && bag[k.key].state.Cached?
    ensures Alone(digest, bag, k, a, fuel)
         == (bag, k.(trace := k.trace + [Restore(k.slot, k.key, a.restore)],
                     pc := Done(if a.restore then Restored else ColdPrefill)))
  {
    hide Alone;
    AloneStep(digest, bag, k, a, fuel);
    var k1 := TaskNext(digest, bag, k, AnswerAt(a, CheckBag));
    AloneStep(digest, bag, k1, a, fuel - 1);
    var k2 := TaskNext(digest, bag, k1, AnswerAt(a, Restoring));
    AloneDone(digest, bag, k2, a, fuel - 2);
  }

  lemma AloneEnters(digest: Digest, bag: Bag, k: Task, a: Answers, fuel: nat) returns (k2: Task)
    requires k.pc == CheckBag && fuel >= 7
    requires !(k.key in bag && bag[k.key].state.Cached?)
    ensures k2 == k.(system := Entered(bag, k.key, Systems(k.messages)).system, pc := Prefilling)
    ensures Alone(digest, bag, k, a, fuel)
         == Alone(digest, bag[k.key := Entered(bag, k.key, Systems(k.messages))], k2, a, fuel - 2)
  {
    hide Alone, Entered;
    AloneStep(digest, bag, k, a, fuel);
    var k1 := TaskNext(digest, bag, k, AnswerAt(a, CheckBag));
    AloneStep(digest, bag, k1, a, fuel - 1);
    k2 := TaskNext(digest, bag, k1, AnswerAt(a, EnterBag));
  }

  lemma AloneLooks(digest: Digest, bag: Bag, slot: SlotId, messages: seq<Message>, a: Answers) returns (k2: Task)
    requires SystemHash(digest, messages).Some?
    ensures var gate := Report(a.gate, slot);
            && k2 == Task(slot, messages, if Idle(gate) then CheckBag else Done(Skipped),
                          SystemHash(digest, messages).value, Null, [Slots(gate)])
            && Alone(digest, bag, NewCall(slot, messages), a, 9) == Alone(digest, bag, k2, a, 7)
  {
    hide Alone;
    var k0 := NewCall(slot, messages);
    AloneStep(digest, bag, k0, a, 9);
    var k1 := TaskNext(digest, bag, k0, AnswerAt(a, Hash));
    AloneStep(digest, bag, k1, a, 8);
    k2 := TaskNext(digest, bag, k1, AnswerAt(a, Look));
  }

  /**
    A call that nothing interrupts computes `Prepare`: the interleaving machine
    run on that call alone ends with the same bag, result and trace.
   */
  lemma PrepareIsARun(digest: Digest, bag: Bag, slot: SlotId, messages: seq<Message>, a: Answers)
    ensures var (bag', k) := Alone(digest, bag, NewCall(slot, messages), a, 9);
            var o := Prepare(digest, bag, slot, messages, a);
            bag' == o.bag && k.pc == Done(o.result) && k.trace == o.trace
  {
    hide Alone, Entered, Spoiled, Settled, Report, Idle, Confirmed;
    if SystemHash(digest, messages).None? {
      AloneStep(digest, bag, NewCall(slot, messages), a, 9);
      AloneDone(digest, bag, NewCall(slot, messages).(pc := Done(Skipped)), a, 8);
    } else {
      var k2 := AloneLooks(digest, bag, slot, messages, a);
      if k2.pc.Done? {
        AloneDone(digest, bag, k2, a, 7);
      } else if k2.key in bag && bag[k2.key].state.Cached? {
        AloneSeesAgain(digest, bag, k2, a, 7);
      } else {
        var k4 := AloneEnters(digest, bag, k2, a, 7);
        AloneDances(digest, bag[k2.key := Entered(bag, k2.key, Systems(messages))], k4, a, 5);
      }
    }
  }
}
