/**
  Seed calls that overlap in any way: each step of a call is one backend or
  publisher call or one critical section of the bag's lock.
 */
module SeedRuns {
  import opened Options
  import opened Keys
  import opened Seed
  import opened SeedCalls

  type TaskId = nat

  /** `published` are the families whose blob some publish has put in place. */
  datatype State = State(bag: Bag, tasks: map<TaskId, Task>, published: set<Family>)

  datatype Action =
    | Begin(t: TaskId, slot: SlotId, messages: seq<Message>)
    | Act(t: TaskId, answer: Answer)

  predicate Possible(st: State, a: Action) {
    match a
    case Begin(t, _, _) => t !in st.tasks
    case Act(t, _) => t in st.tasks
  }

  function Do(digest: Digest, st: State, a: Action): State
    requires Possible(st, a)
  {
    match a
    case Begin(t, slot, messages) => st.(tasks := st.tasks[t := NewCall(slot, messages)])
    case Act(t, answer) =>
      var k := st.tasks[t];
      State(BagNext(st.bag, k),
            st.tasks[t := TaskNext(digest, st.bag, k, answer)],
            if k.pc.Publishing? && answer.ok then st.published + {k.key} else st.published)
  }

  const INIT := State(map[], map[], {})

  predicate IsRun(digest: Digest, st: State, acts: seq<Action>)
    decreases |acts|
  {
    acts == [] || (Possible(st, acts[0]) && IsRun(digest, Do(digest, st, acts[0]), acts[1..]))
  }

  function Run(digest: Digest, st: State, acts: seq<Action>): State
    requires IsRun(digest, st, acts)
    decreases |acts|
  {
    if acts == [] then st else Run(digest, Do(digest, st, acts[0]), acts[1..])
  }

  // -------------------------------------------------------------- invariants

  predicate IsHeadOf(digest: Digest, system: Head, key: Family) {
    system.Array? && system.messages != [] && digest(Encode(system.messages)) == key
  }

  ghost predicate HeadsMatch(digest: Digest, bag: Bag) {
    forall key | key in bag :: IsHeadOf(digest, bag[key].system, key)
  }

  ghost predicate CachedPublished(bag: Bag, published: set<Family>) {
    forall key | IsCached(bag, key) :: key in published
  }

  // Every prefill so far carried the family's own prompt head.
  ghost predicate PrefillsMatch(digest: Digest, k: Task) {
    forall c | c in k.trace && c.Prefill? :: IsHeadOf(digest, c.system, k.key)
  }

  predicate Keyed(digest: Digest, k: Task) {
    SystemHash(digest, k.messages) == Some(k.key)
  }

  // Where a call stands, told by what it has said so far.
  predicate OnTrack(digest: Digest, k: Task) {
    match k.pc
    case Hash => k.trace == []
    case Look => Keyed(digest, k) && k.trace == []
    case CheckBag => Keyed(digest, k) && |k.trace| == 1 && Looked(k.trace)
    case EnterBag => Keyed(digest, k) && |k.trace| == 1 && Looked(k.trace)
    case Restoring => Keyed(digest, k) && |k.trace| == 1 && Looked(k.trace)
    case Prefilling => Keyed(digest, k) && |k.trace| == 1 && Looked(k.trace)
    case Confirm => Keyed(digest, k) && |k.trace| == 2 && Prefilled(k.trace, k.slot, true)
    case Saving => Keyed(digest, k) && |k.trace| == 3 && Positioned(k.trace, k.slot, true)
    case Publishing => Keyed(digest, k) && |k.trace| == 4 && SaveTried(k.trace, k.slot, k.key, true)
    case MarkCached => Keyed(digest, k) && |k.trace| == 5 && PublishTried(k.trace, k.slot, k.key, true)
    case MarkFailed => Keyed(digest, k) && BrokenOff(k.trace, k.slot, k.key)
    case Done(r) => Matches(r, k.trace, k.slot, SystemHash(digest, k.messages))
  }

  predicate HasEntered(pc: Pc) {
    pc.Prefilling? || pc.Confirm? || pc.Saving? || pc.Publishing? || pc.MarkCached? || pc.MarkFailed?
  }

  ghost predicate CallOk(digest: Digest, bag: Bag, published: set<Family>, k: Task) {
    && OnTrack(digest, k) && PrefillsMatch(digest, k)
    && (HasEntered(k.pc) ==> k.key in bag)
    && (k.pc.Prefilling? ==> IsHeadOf(digest, k.system, k.key))
    && (k.pc.Restoring? || k.pc.MarkCached? ==> k.key in published)
  }

  ghost predicate Ok(digest: Digest, st: State) {
    && HeadsMatch(digest, st.bag) && CachedPublished(st.bag, st.published)
    && (forall t | t in st.tasks :: CallOk(digest, st.bag, st.published, st.tasks[t]))
  }

  lemma EnteredOk(digest: Digest, bag: Bag, k: Task)
    requires HeadsMatch(digest, bag) && Keyed(digest, k)
    ensures IsHeadOf(digest, Entered(bag, k.key, Systems(k.messages)).system, k.key)
    ensures Entered(bag, k.key, Systems(k.messages)).state.Cached? ==> IsCached(bag, k.key)
  {
  }

  lemma BagOk(digest: Digest, bag: Bag, published: set<Family>, k: Task)
    requires HeadsMatch(digest, bag) && CachedPublished(bag, published)
    requires CallOk(digest, bag, published, k)
    ensures HeadsMatch(digest, BagNext(bag, k)) && CachedPublished(BagNext(bag, k), published)
    ensures bag.Keys <= BagNext(bag, k).Keys
    ensures HasEntered(TaskNext(digest, bag, k, Answer(None, true)).pc) ==> k.key in BagNext(bag, k)
  {
    if k.pc.EnterBag? {
      EnteredOk(digest, bag, k);
    }
  }

  lemma NextOnTrack(digest: Digest, bag: Bag, k: Task, a: Answer)
    requires OnTrack(digest, k)
    ensures OnTrack(digest, TaskNext(digest, bag, k, a))
  {
    hide Entered, Report, Systems, Encode;
  }

  lemma NextPrefills(digest: Digest, bag: Bag, published: set<Family>, k: Task, a: Answer)
    requires HeadsMatch(digest, bag) && CallOk(digest, bag, published, k)
    ensures PrefillsMatch(digest, TaskNext(digest, bag, k, a))
    ensures var k' := TaskNext(digest, bag, k, a);
            k'.pc.Prefilling? ==> IsHeadOf(digest, k'.system, k'.key)
  {
    hide Entered, Report, Systems, Encode;
    if k.pc.EnterBag? {
      EnteredOk(digest, bag, k);
    }
  }

  lemma NextEntered(digest: Digest, bag: Bag, published: set<Family>, k: Task, a: Answer)
    requires CachedPublished(bag, published) && CallOk(digest, bag, published, k)
    ensures var k' := TaskNext(digest, bag, k, a);
            var published' := if k.pc.Publishing? && a.ok then published + {k.key} else published;
            && (HasEntered(k'.pc) ==> k'.key in BagNext(bag, k))
            && (k'.pc.Restoring? || k'.pc.MarkCached? ==> k'.key in published')
  {
    hide Entered, Report, Systems, Encode, OnTrack;
  }

  lemma DoOk(digest: Digest, st: State, a: Action)
    requires Ok(digest, st) && Possible(st, a)
    ensures Ok(digest, Do(digest, st, a))
  {
    if a.Act? {
      hide TaskNext, BagNext, OnTrack, PrefillsMatch, HeadsMatch;
      var k := st.tasks[a.t];
      BagOk(digest, st.bag, st.published, k);
      NextOnTrack(digest, st.bag, k, a.answer);
      NextPrefills(digest, st.bag, st.published, k, a.answer);
      NextEntered(digest, st.bag, st.published, k, a.answer);
    }
  }

  lemma {:induction false} RunOk(digest: Digest, st: State, acts: seq<Action>)
    requires Ok(digest, st) && IsRun(digest, st, acts)
    ensures Ok(digest, Run(digest, st, acts))
    decreases |acts|
  {
    hide Ok;
    if acts != [] {
      DoOk(digest, st, acts[0]);
      RunOk(digest, Do(digest, st, acts[0]), acts[1..]);
    }
  }

  lemma ReachableOk(digest: Digest, acts: seq<Action>)
    requires IsRun(digest, INIT, acts)
    ensures Ok(digest, Run(digest, INIT, acts))
  {
    hide Run, IsRun;
    RunOk(digest, INIT, acts);
  }

  // ---------------------------------------------------------------- theorems

  /**
    Whatever overlaps: an entry always holds a non-empty prompt head that hashes
    to its own key, and every prefill ever issued for a call carries messages that
    hash to that call's family.
   */
  lemma HeadsAreTrue(digest: Digest, acts: seq<Action>)
    requires IsRun(digest, INIT, acts)
    ensures var end := Run(digest, INIT, acts);
            && (forall key | key in end.bag :: IsHeadOf(digest, end.bag[key].system, key))
            && (forall t, c | t in end.tasks && c in end.tasks[t].trace && c.Prefill? ::
                  IsHeadOf(digest, c.system, end.tasks[t].key))
  {
    ReachableOk(digest, acts);
    var end := Run(digest, INIT, acts);
    forall t, c | t in end.tasks && c in end.tasks[t].trace && c.Prefill?
      ensures IsHeadOf(digest, c.system, end.tasks[t].key)
    {
      assert PrefillsMatch(digest, end.tasks[t]);
    }
  }

  /** A call that fails always finds its family in the bag: no null head is ever entered. */
  lemma FailureFindsItsEntry(digest: Digest, acts: seq<Action>, t: TaskId)
    requires IsRun(digest, INIT, acts)
    requires t in Run(digest, INIT, acts).tasks && Run(digest, INIT, acts).tasks[t].pc == MarkFailed
    ensures Run(digest, INIT, acts).tasks[t].key in Run(digest, INIT, acts).bag
  {
    ReachableOk(digest, acts);
  }

  /**
    A family is marked cached, and a restore is issued for it, only after a
    publish of its blob has returned Ok.
   */
  lemma CachedImpliesPublished(digest: Digest, acts: seq<Action>)
    requires IsRun(digest, INIT, acts)
    ensures var end := Run(digest, INIT, acts);
            && (forall key | IsCached(end.bag, key) :: key in end.published)
            && (forall t | t in end.tasks && end.tasks[t].pc.Restoring? :: end.tasks[t].key in end.published)
  {
    ReachableOk(digest, acts);
    var end := Run(digest, INIT, acts);
    forall t | t in end.tasks && end.tasks[t].pc.Restoring? ensures end.tasks[t].key in end.published {
      assert CallOk(digest, end.bag, end.published, end.tasks[t]);
    }
  }

  /** The trace grammar of a single call survives every interleaving. */
  lemma GrammarSurvives(digest: Digest, acts: seq<Action>, t: TaskId)
    requires IsRun(digest, INIT, acts)
    requires t in Run(digest, INIT, acts).tasks && Run(digest, INIT, acts).tasks[t].pc.Done?
    ensures var k := Run(digest, INIT, acts).tasks[t];
            Matches(k.pc.result, k.trace, k.slot, SystemHash(digest, k.messages))
  {
    ReachableOk(digest, acts);
    var end := Run(digest, INIT, acts);
    assert CallOk(digest, end.bag, end.published, end.tasks[t]);
  }

  // ------------------------------------------ when cached is for good

  // Past its look at the bag, and not yet done seeding or failing.
  predicate InDance(pc: Pc) {
    pc.EnterBag? || pc.Prefilling? || pc.Confirm? || pc.Saving? || pc.Publishing? || pc.MarkFailed?
  }

  predicate Dancing(st: State, key: Family) {
    exists t | t in st.tasks :: st.tasks[t].key == key && InDance(st.tasks[t].pc)
  }

  // The action is a prefill, a save or a publish for the family.
  predicate Seeds(st: State, a: Action, key: Family) {
    && a.Act? && a.t in st.tasks && st.tasks[a.t].key == key
    && (st.tasks[a.t].pc.Prefilling? || st.tasks[a.t].pc.Saving? || st.tasks[a.t].pc.Publishing?)
  }

  predicate NeverSeeds(digest: Digest, st: State, acts: seq<Action>, key: Family)
    requires IsRun(digest, st, acts)
    decreases |acts|
  {
    acts == [] || (!Seeds(st, acts[0], key) && NeverSeeds(digest, Do(digest, st, acts[0]), acts[1..], key))
  }

  lemma CachedStep(digest: Digest, st: State, a: Action, key: Family)
    requires IsCached(st.bag, key) && !Dancing(st, key) && Possible(st, a)
    ensures !Seeds(st, a, key)
    ensures IsCached(Do(digest, st, a).bag, key) && !Dancing(Do(digest, st, a), key)
  {
    hide Entered, Report, SystemHash;
    var st' := Do(digest, st, a);
    forall t | t in st'.tasks ensures !(st'.tasks[t].key == key && InDance(st'.tasks[t].pc)) {
      assert t in st.tasks ==> !(st.tasks[t].key == key && InDance(st.tasks[t].pc));
    }
  }

  lemma {:induction false} CachedStays(digest: Digest, st: State, acts: seq<Action>, key: Family)
    requires IsCached(st.bag, key) && !Dancing(st, key) && IsRun(digest, st, acts)
    ensures IsCached(Run(digest, st, acts).bag, key) && NeverSeeds(digest, st, acts, key)
    decreases |acts|
  {
    hide Do, Seeds, Dancing;
    if acts != [] {
      CachedStep(digest, st, acts[0], key);
      CachedStays(digest, Do(digest, st, acts[0]), acts[1..], key);
    }
  }

  // Steps to the end of a dance in which everything from here on fails.
  function StepsToFail(pc: Pc): nat {
    if pc.MarkFailed? then 0 else if pc.EnterBag? then 2 else 1
  }

  // A dance that fails from here on takes the mark away.
  lemma {:induction false} DanceLoses(digest: Digest, st: State, t: TaskId) returns (acts: seq<Action>)
    requires t in st.tasks && InDance(st.tasks[t].pc)
    ensures IsRun(digest, st, acts) && !IsCached(Run(digest, st, acts).bag, st.tasks[t].key)
    decreases StepsToFail(st.tasks[t].pc)
  {
    var a := Act(t, NO);
    var next := Do(digest, st, a);
    if st.tasks[t].pc.MarkFailed? {
      acts := [a];
      assert Run(digest, st, acts) == Run(digest, next, []);
    } else {
      var rest := DanceLoses(digest, next, t);
      acts := [a] + rest;
      assert acts[1..] == rest;
    }
  }

  /**
    A cached family stays cached whatever happens next exactly when no call for it
    is past its look at the bag and still seeding or failing; and then it is never
    prefilled, saved or published again either.
   */
  lemma CachedForGoodExactlyWhen(digest: Digest, st: State, key: Family)
    requires IsCached(st.bag, key)
    ensures (forall acts | IsRun(digest, st, acts) :: IsCached(Run(digest, st, acts).bag, key)) <==> !Dancing(st, key)
    ensures (forall acts | IsRun(digest, st, acts) ::
               IsCached(Run(digest, st, acts).bag, key) && NeverSeeds(digest, st, acts, key)) <==> !Dancing(st, key)
  {
    hide Run, IsRun, Do, NeverSeeds;
    if t :| t in st.tasks && st.tasks[t].key == key && InDance(st.tasks[t].pc) {
      var acts := DanceLoses(digest, st, t);
      assert IsRun(digest, st, acts) && !IsCached(Run(digest, st, acts).bag, key);
    } else {
      forall acts | IsRun(digest, st, acts)
        ensures IsCached(Run(digest, st, acts).bag, key) && NeverSeeds(digest, st, acts, key)
      {
        CachedStays(digest, st, acts, key);
      }
    }
  }

  // ------------------------------------------ overlapping calls can lose it

  function IdleAt(slot: SlotId, tokens: nat): Answer {
    Answer(Some([SlotReport(slot, false, tokens)]), true)
  }

  const YES := Answer(None, true)
  const NO := Answer(None, false)

  function Acts(t: TaskId, answers: seq<Answer>): seq<Action> {
    if answers == [] then [] else [Act(t, answers[0])] + Acts(t, answers[1..])
  }

  // Call 0 seeds the family while call 1, begun before that, fails its prefill.
  function FirstHalf(m: seq<Message>): seq<Action> {
    [Begin(0, 0, m), Begin(1, 1, m)]
    + Acts(1, [YES, IdleAt(1, 0), YES, YES])
    + Acts(0, [YES, IdleAt(0, 0), YES, YES, YES, IdleAt(0, 5), YES, YES, YES])
  }

  function SecondHalf(): seq<Action> {
    Acts(1, [NO, YES])
  }

  lemma {:induction false} RunConcat(digest: Digest, st: State, a: seq<Action>, b: seq<Action>)
    requires IsRun(digest, st, a) && IsRun(digest, Run(digest, st, a), b)
    ensures IsRun(digest, st, a + b) && Run(digest, st, a + b) == Run(digest, Run(digest, st, a), b)
    decreases |a|
  {
    if a == [] {
      assert a + b == b;
    } else {
      assert (a + b)[1..] == a[1..] + b;
      RunConcat(digest, Do(digest, st, a[0]), a[1..], b);
    }
  }

  // One call taking several steps in a row.
  function Stretch(digest: Digest, st: State, t: TaskId, answers: seq<Answer>): State
    requires t in st.tasks
    decreases |answers|
  {
    if answers == [] then st else Stretch(digest, Do(digest, st, Act(t, answers[0])), t, answers[1..])
  }

  lemma {:induction false} StretchIsRun(digest: Digest, st: State, t: TaskId, answers: seq<Answer>)
    requires t in st.tasks
    ensures IsRun(digest, st, Acts(t, answers))
    ensures Run(digest, st, Acts(t, answers)) == Stretch(digest, st, t, answers)
    decreases |answers|
  {
    if answers != [] {
      assert Acts(t, answers)[1..] == Acts(t, answers[1..]);
      StretchIsRun(digest, Do(digest, st, Act(t, answers[0])), t, answers[1..]);
    }
  }

  lemma StretchOne(digest: Digest, st: State, t: TaskId, a: Answer, rest: seq<Answer>)
    requires t in st.tasks
    ensures Stretch(digest, st, t, [a] + rest) == Stretch(digest, Do(digest, st, Act(t, a)), t, rest)
  {
    assert ([a] + rest)[1..] == rest;
  }

  // What the calls of the witness know once they have hashed and entered.
  function Call1(digest: Digest, slot: SlotId, m: seq<Message>, key: Family): Task {
    Task(slot, m, Prefilling, key, Array(Systems(m)), [Seed.Slots(Some(SlotReport(slot, false, 0)))])
  }

  // A first or second call reaches its prefill.
  lemma Reaches(digest: Digest, st: State, t: TaskId, slot: SlotId, m: seq<Message>, key: Family)
    requires t in st.tasks && st.tasks[t] == NewCall(slot, m)
    requires SystemHash(digest, m) == Some(key)
    requires st.bag == map[] || st.bag == map[key := BagEntry(Array(Systems(m)), Uncached)]
    ensures var answers := [YES, IdleAt(slot, 0), YES, YES];
            && Stretch(digest, st, t, answers)
               == st.(bag := map[key := BagEntry(Array(Systems(m)), Uncached)],
                      tasks := st.tasks[t := Call1(digest, slot, m, key)])
  {
    hide Stretch;
    var a1, a2, a3, a4 := YES, IdleAt(slot, 0), YES, YES;
    var r := SlotReport(slot, false, 0);
    assert Report(a2, slot) == Some(r);
    StretchOne(digest, st, t, a1, [a2, a3, a4]);
    var s1 := Do(digest, st, Act(t, a1));
    StretchOne(digest, s1, t, a2, [a3, a4]);
    var s2 := Do(digest, s1, Act(t, a2));
    assert [Seed.Slots(Some(r))] == [] + [Seed.Slots(Some(r))];
    StretchOne(digest, s2, t, a3, [a4]);
    var s3 := Do(digest, s2, Act(t, a3));
    StretchOne(digest, s3, t, a4, []);
    var s4 := Do(digest, s3, Act(t, a4));
    StretchNone(digest, s4, t);
    assert [a1] + [a2, a3, a4] == [a1, a2, a3, a4] && [a2] + [a3, a4] == [a2, a3, a4];
    assert [a3] + [a4] == [a3, a4] && [a4] + [] == [a4];
    assert s4.bag == map[key := BagEntry(Array(Systems(m)), Uncached)];
    assert s4.tasks == st.tasks[t := Call1(digest, slot, m, key)];
  }

  lemma StretchNone(digest: Digest, st: State, t: TaskId)
    requires t in st.tasks
    ensures Stretch(digest, st, t, []) == st
  {
  }

  lemma ConfirmsFrom(digest: Digest, st: State, t: TaskId) returns (end: State)
    requires t in st.tasks && st.tasks[t].pc == Prefilling
    ensures end == Stretch(digest, st, t, [YES, IdleAt(st.tasks[t].slot, 5)])
    ensures end.bag == st.bag && end.tasks.Keys == st.tasks.Keys
    ensures end.tasks[t].pc == Saving && end.tasks[t].key == st.tasks[t].key
    ensures forall u | u in st.tasks && u != t :: end.tasks[u] == st.tasks[u]
  {
    hide Stretch;
    var slot := st.tasks[t].slot;
    var a2 := IdleAt(slot, 5);
    assert Report(a2, slot) == Some(SlotReport(slot, false, 5));
    StretchOne(digest, st, t, YES, [a2]);
    var s1 := Do(digest, st, Act(t, YES));
    StretchOne(digest, s1, t, a2, []);
    end := Do(digest, s1, Act(t, a2));
    StretchNone(digest, end, t);
    assert [YES] + [a2] == [YES, a2] && [a2] + [] == [a2];
  }

  lemma PublishesFrom(digest: Digest, st: State, t: TaskId, key: Family) returns (end: State)
    requires t in st.tasks && st.tasks[t].pc == Saving && st.tasks[t].key == key && key in st.bag
    ensures end == Stretch(digest, st, t, [YES, YES, YES])
    ensures end.bag == st.bag[key := st.bag[key].(state := Cached)] && end.tasks.Keys == st.tasks.Keys
    ensures forall u | u in st.tasks && u != t :: end.tasks[u] == st.tasks[u]
  {
    hide Stretch;
    StretchOne(digest, st, t, YES, [YES, YES]);
    var s1 := Do(digest, st, Act(t, YES));
    StretchOne(digest, s1, t, YES, [YES]);
    var s2 := Do(digest, s1, Act(t, YES));
    StretchOne(digest, s2, t, YES, []);
    end := Do(digest, s2, Act(t, YES));
    StretchNone(digest, end, t);
    assert [YES] + [YES, YES] == [YES, YES, YES] && [YES] + [YES] == [YES, YES] && [YES] + [] == [YES];
  }

  lemma SeedsFrom(digest: Digest, st: State, t: TaskId, key: Family)
    requires t in st.tasks && st.tasks[t].pc == Prefilling && st.tasks[t].key == key && key in st.bag
    ensures var end := Stretch(digest, st, t, [YES, IdleAt(st.tasks[t].slot, 5), YES, YES, YES]);
            && end.bag == st.bag[key := st.bag[key].(state := Cached)]
            && end.tasks.Keys == st.tasks.Keys
            && (forall u | u in st.tasks && u != t :: end.tasks[u] == st.tasks[u])
  {
    hide Stretch, Do;
    var a2 := IdleAt(st.tasks[t].slot, 5);
    var mid := ConfirmsFrom(digest, st, t);
    var end := PublishesFrom(digest, mid, t, key);
    StretchConcat(digest, st, t, [YES, a2], [YES, YES, YES]);
    assert [YES, a2] + [YES, YES, YES] == [YES, a2, YES, YES, YES];
  }

  lemma FailsFrom(digest: Digest, st: State, t: TaskId, key: Family)
    requires t in st.tasks && st.tasks[t].pc == Prefilling && st.tasks[t].key == key && key in st.bag
    ensures Stretch(digest, st, t, [NO, YES]).bag == st.bag[key := st.bag[key].(state := Failed)]
  {
    hide Stretch;
    StretchOne(digest, st, t, NO, [YES]);
    var s1 := Do(digest, st, Act(t, NO));
    StretchOne(digest, s1, t, YES, []);
    StretchNone(digest, Do(digest, s1, Act(t, YES)), t);
    assert [NO] + [YES] == [NO, YES] && [YES] + [] == [YES];
  }

  lemma {:induction false} StretchConcat(digest: Digest, st: State, t: TaskId, a: seq<Answer>, b: seq<Answer>)
    requires t in st.tasks
    ensures t in Stretch(digest, st, t, a).tasks
    ensures Stretch(digest, st, t, a + b) == Stretch(digest, Stretch(digest, st, t, a), t, b)
    decreases |a|
  {
    if a == [] {
      assert a + b == b;
    } else {
      assert (a + b)[1..] == a[1..] + b;
      StretchConcat(digest, Do(digest, st, Act(t, a[0])), t, a[1..], b);
    }
  }

  /**
    With overlapping calls "cached" is not for good: a run in which a family is
    seeded and cached, and then marked failed by a call that began earlier.
   */
  lemma CachedCanBeLost(digest: Digest, m: seq<Message>, key: Family) returns (cached: State, lost: State)
    requires SystemHash(digest, m) == Some(key)
    ensures IsRun(digest, INIT, FirstHalf(m)) && cached == Run(digest, INIT, FirstHalf(m))
    ensures IsRun(digest, cached, SecondHalf()) && lost == Run(digest, cached, SecondHalf())
    ensures IsCached(cached.bag, key)
    ensures key in lost.bag && lost.bag[key].state == Failed
  {
    hide Stretch, IsRun, Run, TaskNext, BagNext, Acts;
    var begun := BothBegin(digest, m);
    var w1, w0 := [YES, IdleAt(1, 0), YES, YES], [YES, IdleAt(0, 0), YES, YES];
    var tail := [YES, IdleAt(0, 5), YES, YES, YES];
    Reaches(digest, begun, 1, 1, m, key);
    var s1 := Stretch(digest, begun, 1, w1);
    Reaches(digest, s1, 0, 0, m, key);
    var s2 := Stretch(digest, s1, 0, w0);
    SeedsFrom(digest, s2, 0, key);
    StretchConcat(digest, s1, 0, w0, tail);
    cached := Stretch(digest, s1, 0, w0 + tail);
    assert w0 + tail == [YES, IdleAt(0, 0), YES, YES, YES, IdleAt(0, 5), YES, YES, YES];
    FailsFrom(digest, cached, 1, key);
    lost := Stretch(digest, cached, 1, [NO, YES]);
    StretchIsRun(digest, begun, 1, w1);
    StretchIsRun(digest, s1, 0, w0 + tail);
    StretchIsRun(digest, cached, 1, [NO, YES]);
    RunConcat(digest, INIT, [Begin(0, 0, m), Begin(1, 1, m)], Acts(1, w1));
    RunConcat(digest, INIT, [Begin(0, 0, m), Begin(1, 1, m)] + Acts(1, w1), Acts(0, w0 + tail));
  }

  lemma BothBegin(digest: Digest, m: seq<Message>) returns (begun: State)
    ensures IsRun(digest, INIT, [Begin(0, 0, m), Begin(1, 1, m)])
    ensures begun == Run(digest, INIT, [Begin(0, 0, m), Begin(1, 1, m)])
    ensures begun == State(map[], map[0 := NewCall(0, m), 1 := NewCall(1, m)], {})
  {
    var b0, b1 := Begin(0, 0, m), Begin(1, 1, m);
    var s1 := Do(digest, INIT, b0);
    begun := Do(digest, s1, b1);
    assert [b0, b1][1..] == [b1] && [b1][1..] == [];
    assert Run(digest, s1, [b1]) == Run(digest, begun, []);
    assert begun.tasks == map[0 := NewCall(0, m), 1 := NewCall(1, m)];
  }
}
