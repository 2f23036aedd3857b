/**
  Seed calls that do not overlap: what one call says to the backend, and what
  any sequence of calls leaves in the bag.
 */
module SeedCalls {
  import opened Options
  import opened Keys
  import opened Seed

  // ---------------------------------------------------------- trace grammar

  predicate Looked(trace: seq<Call>) {
    |trace| >= 1 && trace[0].Slots? && Idle(trace[0].report)
  }

  predicate Prefilled(trace: seq<Call>, slot: SlotId, ok: bool) {
    Looked(trace) && |trace| >= 2 && trace[1].Prefill? && trace[1].slot == slot && trace[1].ok == ok
  }

  predicate Positioned(trace: seq<Call>, slot: SlotId, ok: bool) {
    Prefilled(trace, slot, true) && |trace| >= 3 && trace[2].Slots? && Confirmed(trace[2].report) == ok
  }

  predicate SaveTried(trace: seq<Call>, slot: SlotId, key: Family, ok: bool) {
    Positioned(trace, slot, true) && |trace| >= 4 && trace[3] == Save(slot, key, ok)
  }

  predicate PublishTried(trace: seq<Call>, slot: SlotId, key: Family, ok: bool) {
    SaveTried(trace, slot, key, true) && |trace| >= 5 && trace[4] == Publish(key, ok)
  }

  /** A dance broken off at some point, each call before it having worked. */
  predicate BrokenOff(trace: seq<Call>, slot: SlotId, key: Family) {
    || (|trace| == 2 && Prefilled(trace, slot, false))
    || (|trace| == 3 && Positioned(trace, slot, false))
    || (|trace| == 4 && SaveTried(trace, slot, key, false))
    || (|trace| == 5 && PublishTried(trace, slot, key, false))
  }

  /** The traces of each result; no trace has two results. */
  predicate Matches(result: SeedResult, trace: seq<Call>, slot: SlotId, key: Option<Family>) {
    match key
    case None => result == Skipped && trace == []
    case Some(k) =>
      match result
      case Skipped => |trace| == 1 && trace[0].Slots? && !Idle(trace[0].report)
      case Restored => |trace| == 2 && Looked(trace) && trace[1] == Restore(slot, k, true)
      case ColdPrefill => |trace| == 2 && Looked(trace) && trace[1] == Restore(slot, k, false)
      case Seeded => |trace| == 5 && PublishTried(trace, slot, k, true)
      case DanceFailed => BrokenOff(trace, slot, k)
  }

  /**
    What a call says to the backend and the publisher tells its result, for every
    bag and every pattern of answers: a prefill comes before any save, a save only
    after the slot was confirmed idle at a position above zero, a restore only on a
    slot reported idle.
   */
  lemma TraceGrammar(digest: Digest, bag: Bag, slot: SlotId, messages: seq<Message>, a: Answers)
    ensures var o := Prepare(digest, bag, slot, messages, a);
            forall r :: Matches(r, o.trace, slot, SystemHash(digest, messages)) <==> r == o.result
  {
    hide Entered, Spoiled, Settled, Report;
  }

  // ------------------------------------------------------ sequences of calls

  datatype Request = Request(slot: SlotId, messages: seq<Message>, answers: Answers)

  function Serve(digest: Digest, bag: Bag, q: Request): Outcome {
    Prepare(digest, bag, q.slot, q.messages, q.answers)
  }

  /** The bag after these calls, one after the other, from an empty bag. */
  function BagAfter(digest: Digest, qs: seq<Request>): Bag {
    if qs == [] then map[]
    else Serve(digest, BagAfter(digest, qs[..|qs| - 1]), qs[|qs| - 1]).bag
  }

  function OutcomeOf(digest: Digest, qs: seq<Request>, i: nat): Outcome
    requires i < |qs|
  {
    Serve(digest, BagAfter(digest, qs[..i]), qs[i])
  }

  predicate FamilyOf(digest: Digest, q: Request, key: Family) {
    SystemHash(digest, q.messages) == Some(key)
  }

  predicate IsCached(bag: Bag, key: Family) {
    key in bag && bag[key].state.Cached?
  }

  ghost predicate SeededBefore(digest: Digest, qs: seq<Request>, n: nat, key: Family)
    requires n <= |qs|
  {
    exists i | 0 <= i < n :: FamilyOf(digest, qs[i], key) && OutcomeOf(digest, qs, i).result == Seeded
  }

  lemma ServeStates(digest: Digest, bag: Bag, q: Request, key: Family)
    ensures var o := Serve(digest, bag, q);
            && (IsCached(o.bag, key) <==> IsCached(bag, key) || (FamilyOf(digest, q, key) && o.result == Seeded))
            && (IsCached(bag, key) && FamilyOf(digest, q, key) ==> o.result in {Skipped, Restored, ColdPrefill})
            && (!IsCached(bag, key) && FamilyOf(digest, q, key) ==> o.result in {Skipped, Seeded, DanceFailed})
            && (key in o.bag && o.bag[key].state.Uncached? ==> key in bag && bag[key].state.Uncached?)
  {
  }

  /**
    The bag says cached exactly for the families some earlier call seeded; and
    between calls no family is left half-entered.
   */
  lemma {:induction false} CachedIffSeeded(digest: Digest, qs: seq<Request>, key: Family)
    ensures IsCached(BagAfter(digest, qs), key) <==> SeededBefore(digest, qs, |qs|, key)
    ensures key in BagAfter(digest, qs) ==> !BagAfter(digest, qs)[key].state.Uncached?
  {
    if qs != [] {
      var n := |qs| - 1;
      CachedIffSeeded(digest, qs[..n], key);
      ServeStates(digest, BagAfter(digest, qs[..n]), qs[n], key);
      SeededPrefix(digest, qs, n, key);
    }
  }

  lemma SeededPrefix(digest: Digest, qs: seq<Request>, n: nat, key: Family)
    requires n <= |qs|
    ensures SeededBefore(digest, qs[..n], n, key) <==> SeededBefore(digest, qs, n, key)
  {
    forall i | 0 <= i < n ensures OutcomeOf(digest, qs[..n], i) == OutcomeOf(digest, qs, i) {
      assert qs[..n][..i] == qs[..i];
    }
  }

  lemma CallKinds(result: SeedResult, trace: seq<Call>, slot: SlotId, key: Family)
    requires Matches(result, trace, slot, Some(key))
    ensures result in {Skipped, Restored, ColdPrefill} ==> forall c | c in trace :: c.Slots? || c.Restore?
    ensures result in {Skipped, Seeded, DanceFailed} ==> forall c | c in trace :: !c.Restore?
  {
    forall c | c in trace
      ensures result in {Skipped, Restored, ColdPrefill} ==> c.Slots? || c.Restore?
      ensures result in {Skipped, Seeded, DanceFailed} ==> !c.Restore?
    {
      var i :| 0 <= i < |trace| && trace[i] == c;
      assert i == 0 || i == 1 || i == 2 || i == 3 || i == 4;
    }
  }

  /**
    Cached is for good: once a call has seeded a family, no later call for it
    prefills, saves or publishes anything. And a restore is only ever tried for a
    family that was seeded before.
   */
  lemma SeededForGood(digest: Digest, qs: seq<Request>, i: nat, key: Family)
    requires i < |qs| && FamilyOf(digest, qs[i], key)
    ensures SeededBefore(digest, qs, i, key) ==>
              forall c | c in OutcomeOf(digest, qs, i).trace :: c.Slots? || c.Restore?
    ensures !SeededBefore(digest, qs, i, key) ==>
              forall c | c in OutcomeOf(digest, qs, i).trace :: !c.Restore?
  {
    hide Prepare;
    var bag, q := BagAfter(digest, qs[..i]), qs[i];
    CachedIffSeeded(digest, qs[..i], key);
    SeededPrefix(digest, qs, i, key);
    ServeStates(digest, bag, q, key);
    TraceGrammar(digest, bag, q.slot, q.messages, q.answers);
    var o := OutcomeOf(digest, qs, i);
    CallKinds(o.result, o.trace, q.slot, key);
  }
}
