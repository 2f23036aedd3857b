/**
  The slot gate of the seed dance, told by the backend's own answers: what its list
  of slots must say of the slot before a call may restore or prefill it, and what
  a second list must say before the slot is saved.
 */
module SeedGate {
  import opened Options
  import opened Keys
  import opened Seed
  import opened SeedCalls
  import opened SeedRuns

  // ------------------------------------------------------- the backend's answer

  // Entry `i` is the first one about the slot.
  ghost predicate FirstAbout(reports: seq<SlotReport>, i: nat, slot: SlotId) {
    && i < |reports| && reports[i].id == slot
    && (forall j | 0 <= j < i :: reports[j].id != slot)
  }

  /** The backend answered, and its first entry about the slot says idle. */
  ghost predicate SaidIdle(a: Answer, slot: SlotId) {
    a.slots.Some? && exists i: nat :: FirstAbout(a.slots.value, i, slot) && !a.slots.value[i].processing
  }

  /** That entry also says that the prompt is in the slot. */
  ghost predicate SaidPlaced(a: Answer, slot: SlotId) {
    && a.slots.Some?
    && exists i: nat ::
         && FirstAbout(a.slots.value, i, slot)
         && !a.slots.value[i].processing && a.slots.value[i].tokens > 0
  }

  predicate HasSystem(messages: seq<Message>) {
    exists i | 0 <= i < |messages| :: messages[i].isSystem
  }

  lemma {:induction false} FindsFirst(reports: seq<SlotReport>, slot: SlotId)
    ensures FindSlot(reports, slot).None? ==> forall j | 0 <= j < |reports| :: reports[j].id != slot
    ensures FindSlot(reports, slot).Some? ==>
              exists i: nat :: FirstAbout(reports, i, slot) && reports[i] == FindSlot(reports, slot).value
  {
    if reports == [] {
    } else if reports[0].id == slot {
      assert FirstAbout(reports, 0, slot);
    } else {
      FindsFirst(reports[1..], slot);
      if FindSlot(reports, slot).Some? {
        var i: nat :| FirstAbout(reports[1..], i, slot) && reports[1..][i] == FindSlot(reports, slot).value;
        assert forall j | 0 < j < i + 1 :: reports[j] == reports[1..][j - 1];
        assert FirstAbout(reports, i + 1, slot);
      } else {
        assert forall j | 0 < j < |reports| :: reports[j] == reports[1..][j - 1];
      }
    }
  }

  lemma AnswerRead(a: Answer, slot: SlotId)
    ensures Idle(Report(a, slot)) <==> SaidIdle(a, slot)
    ensures Confirmed(Report(a, slot)) <==> SaidPlaced(a, slot)
  {
    hide FindSlot;
    if a.slots.Some? {
      var reports := a.slots.value;
      FindsFirst(reports, slot);
      if FindSlot(reports, slot).Some? {
        var i: nat :| FirstAbout(reports, i, slot) && reports[i] == FindSlot(reports, slot).value;
        assert forall j: nat | FirstAbout(reports, j, slot) :: j == i;
      }
    }
  }

  lemma {:induction false} SystemsWhen(messages: seq<Message>)
    ensures Systems(messages) != [] <==> HasSystem(messages)
  {
    if messages != [] {
      SystemsWhen(messages[1..]);
      if i :| 0 <= i < |messages| && messages[i].isSystem {
        assert i > 0 ==> messages[1..][i - 1].isSystem;
      }
    }
  }

  // -------------------------------------------------------------- one call alone

  predicate TouchesSlot(c: Call) {
    c.Restore? || c.Prefill?
  }

  lemma TracePlaces(trace: seq<Call>)
    requires |trace| <= 5
    ensures forall c :: c in trace <==> exists i | 0 <= i < 5 :: i < |trace| && trace[i] == c
  {
  }

  /**
    A call restores or prefills exactly when the request has a system message and
    the backend's first entry about the slot said idle; it is skipped exactly when
    it does not; and it saves exactly when, after a prefill that worked, the first
    entry about the slot also said that the prompt is in it. It touches its own
    slot only.
   */
  lemma GateDecides(digest: Digest, bag: Bag, slot: SlotId, messages: seq<Message>, a: Answers)
    ensures var o := Prepare(digest, bag, slot, messages, a);
            && ((exists c | c in o.trace :: TouchesSlot(c)) <==> HasSystem(messages) && SaidIdle(a.gate, slot))
            && (o.result == Skipped <==> !(HasSystem(messages) && SaidIdle(a.gate, slot)))
            && ((exists c | c in o.trace :: c.Save?) <==>
                  && (exists c | c in o.trace :: c.Prefill? && c.ok)
                  && SaidPlaced(a.confirm, slot))
            && (!HasSystem(messages) ==> o.trace == [])
            && (forall c | c in o.trace && (TouchesSlot(c) || c.Save?) :: c.slot == slot)
  {
    hide Entered, Spoiled, Settled, Report, Idle, Confirmed, SaidIdle, SaidPlaced, HasSystem;
    AnswerRead(a.gate, slot);
    AnswerRead(a.confirm, slot);
    SystemsWhen(messages);
    var o := Prepare(digest, bag, slot, messages, a);
    if |o.trace| >= 2 {
      assert o.trace[1] in o.trace;
    }
    if |o.trace| >= 4 {
      assert o.trace[3] in o.trace;
    }
  }

  // -------------------------------------------------------- calls that overlap

  lemma {:induction false} RunSnoc(digest: Digest, st: State, acts: seq<Action>, a: Action)
    requires IsRun(digest, st, acts + [a])
    ensures IsRun(digest, st, acts) && Possible(Run(digest, st, acts), a)
    ensures Run(digest, st, acts + [a]) == Do(digest, Run(digest, st, acts), a)
    decreases |acts|
  {
    hide Do, Possible;
    if acts == [] {
      assert ([] + [a])[1..] == [];
    } else {
      assert (acts + [a])[1..] == acts[1..] + [a];
      RunSnoc(digest, Do(digest, st, acts[0]), acts[1..], a);
    }
  }

  /** Action `n` of the run is the step of call `t` at `pc`, with this answer. */
  ghost predicate Heard(digest: Digest, acts: seq<Action>, n: nat, t: TaskId, pc: Pc, answer: Answer) {
    && n < |acts| && acts[n] == Act(t, answer) && IsRun(digest, INIT, acts[..n])
    && t in Run(digest, INIT, acts[..n]).tasks && Run(digest, INIT, acts[..n]).tasks[t].pc == pc
  }

  lemma HeardLater(digest: Digest, acts: seq<Action>, m: nat, n: nat, t: TaskId, pc: Pc, answer: Answer)
    requires m <= |acts| && Heard(digest, acts[..m], n, t, pc, answer)
    ensures Heard(digest, acts, n, t, pc, answer)
  {
    assert acts[..m][..n] == acts[..n];
  }

  // Past its look at the slot.
  predicate Admitted(pc: Pc) {
    !pc.Hash? && !pc.Look? && pc != Done(Skipped)
  }

  predicate ToSave(pc: Pc) {
    pc.Saving? || pc.Publishing? || pc.MarkCached?
  }

  predicate MaySave(pc: Pc) {
    pc.Publishing? || pc.MarkCached? || pc.MarkFailed? || pc.Done?
  }

  /** What a call has heard so far: at its look, and at its second one. */
  datatype Ears = Ears(look: nat, first: Answer, confirm: nat, second: Answer)

  // What the trace and the place of a call tell about its looks at the slot.
  predicate Sorted(k: Task) {
    && (forall c | c in k.trace && (TouchesSlot(c) || c.Save?) :: c.slot == k.slot)
    && (k.pc.Hash? || k.pc.Look? ==> k.trace == [])
    && (k.pc == Done(Skipped) ==> forall c | c in k.trace :: c.Slots?)
    && (!MaySave(k.pc) ==> forall c | c in k.trace :: !c.Save?)
  }

  ghost predicate Listened(digest: Digest, acts: seq<Action>, t: TaskId, k: Task, e: Ears) {
    && Sorted(k)
    && (Admitted(k.pc) ==> Heard(digest, acts, e.look, t, Look, e.first) && SaidIdle(e.first, k.slot))
    && (k.pc == Done(Skipped) && HasSystem(k.messages) ==>
          Heard(digest, acts, e.look, t, Look, e.first) && !SaidIdle(e.first, k.slot))
    && (k.pc.Look? ==> HasSystem(k.messages))
    && (ToSave(k.pc) || (exists c | c in k.trace :: c.Save?) ==>
          && Admitted(k.pc) && e.look < e.confirm
          && Heard(digest, acts, e.confirm, t, Confirm, e.second) && SaidPlaced(e.second, k.slot))
  }

  lemma ListenedLater(digest: Digest, acts: seq<Action>, t: TaskId, k: Task, e: Ears)
    requires acts != [] && Listened(digest, acts[..|acts| - 1], t, k, e)
    ensures Listened(digest, acts, t, k, e)
  {
    hide Heard, SaidIdle, SaidPlaced, HasSystem;
    var m := |acts| - 1;
    if Heard(digest, acts[..m], e.look, t, Look, e.first) {
      HeardLater(digest, acts, m, e.look, t, Look, e.first);
    }
    if Heard(digest, acts[..m], e.confirm, t, Confirm, e.second) {
      HeardLater(digest, acts, m, e.confirm, t, Confirm, e.second);
    }
  }

  lemma SortedNext(digest: Digest, bag: Bag, k: Task, a: Answer)
    requires Sorted(k)
    ensures Sorted(TaskNext(digest, bag, k, a))
  {
    hide Entered, Systems, Encode, Report;
  }

  // Where one step leads, as far as the gate is concerned.
  lemma NextByGate(digest: Digest, bag: Bag, k: Task, a: Answer)
    ensures var k' := TaskNext(digest, bag, k, a);
            && k'.slot == k.slot && k'.messages == k.messages
            && (k.pc.Look? ==>
                  (Admitted(k'.pc) <==> SaidIdle(a, k.slot)) && (Admitted(k'.pc) || k'.pc == Done(Skipped)))
            && (k.pc.Hash? ==> if HasSystem(k.messages) then k'.pc.Look? else k'.pc == Done(Skipped))
            && (!k.pc.Hash? && !k.pc.Look? ==>
                  (Admitted(k'.pc) <==> Admitted(k.pc)) && !k'.pc.Look? && !k'.pc.Hash?)
            && (k.pc == Done(Skipped) ==> k' == k)
            && (ToSave(k'.pc) ==> ToSave(k.pc) || (k.pc.Confirm? && SaidPlaced(a, k.slot)))
            && ((exists c | c in k'.trace :: c.Save?) ==> ToSave(k.pc) || exists c | c in k.trace :: c.Save?)
  {
    hide Entered, Encode, Report, Idle, Confirmed, SaidIdle, SaidPlaced, HasSystem, Systems;
    AnswerRead(a, k.slot);
    SystemsWhen(k.messages);
  }

  lemma ListenedNow(
      digest: Digest, acts: seq<Action>, st: State, t: TaskId, a: Answer, e: Ears) returns (e': Ears)
    requires acts != [] && IsRun(digest, INIT, acts[..|acts| - 1]) && st == Run(digest, INIT, acts[..|acts| - 1])
    requires acts[|acts| - 1] == Act(t, a) && t in st.tasks
    requires Listened(digest, acts[..|acts| - 1], t, st.tasks[t], e)
    ensures Listened(digest, acts, t, TaskNext(digest, st.bag, st.tasks[t], a), e')
  {
    hide Run, IsRun, TaskNext, SaidIdle, SaidPlaced, HasSystem, Sorted;
    var n, k := |acts| - 1, st.tasks[t];
    var k' := TaskNext(digest, st.bag, k, a);
    NextByGate(digest, st.bag, k, a);
    SortedNext(digest, st.bag, k, a);
    ListenedLater(digest, acts, t, k, e);
    e' := if k.pc.Look? then e.(look := n, first := a)
          else if k.pc.Confirm? then e.(confirm := n, second := a)
          else e;
    assert Heard(digest, acts, n, t, k.pc, a);
    NothingSaved(k);
    if Admitted(k.pc) {
      HeardBefore(digest, acts[..n], e.look, t, Look, e.first);
    }
  }

  lemma NothingSaved(k: Task)
    requires Sorted(k)
    ensures !MaySave(k.pc) || k.pc == Done(Skipped) ==> !exists c | c in k.trace :: c.Save?
  {
  }

  lemma HeardBefore(digest: Digest, acts: seq<Action>, n: nat, t: TaskId, pc: Pc, answer: Answer)
    requires Heard(digest, acts, n, t, pc, answer)
    ensures n < |acts|
  {
  }

  lemma Outsiders(digest: Digest, st: State, a: Action, t: TaskId)
    requires Possible(st, a) && t in Do(digest, st, a).tasks
    ensures a.t != t ==> t in st.tasks && Do(digest, st, a).tasks[t] == st.tasks[t]
    ensures a.t == t && a.Begin? ==> Do(digest, st, a).tasks[t] == NewCall(a.slot, a.messages)
    ensures a.t == t && a.Act? ==>
              t in st.tasks && Do(digest, st, a).tasks[t] == TaskNext(digest, st.bag, st.tasks[t], a.answer)
  {
    hide TaskNext, BagNext;
  }

  lemma NewcomerListens(digest: Digest, acts: seq<Action>, t: TaskId, slot: SlotId, messages: seq<Message>, e: Ears)
    ensures Listened(digest, acts, t, NewCall(slot, messages), e)
  {
  }

  lemma {:induction false} Listening(digest: Digest, acts: seq<Action>, t: TaskId) returns (e: Ears)
    requires IsRun(digest, INIT, acts) && t in Run(digest, INIT, acts).tasks
    ensures Listened(digest, acts, t, Run(digest, INIT, acts).tasks[t], e)
    decreases |acts|
  {
    hide Listened, Run, IsRun, Do, Possible, TaskNext;
    e := Ears(0, NO, 0, NO);
    if acts == [] {
      NoCallsAtFirst(digest);
    } else {
      var front, last := acts[..|acts| - 1], acts[|acts| - 1];
      assert acts == front + [last];
      RunSnoc(digest, INIT, front, last);
      var st := Run(digest, INIT, front);
      Outsiders(digest, st, last, t);
      if last.Begin? && last.t == t {
        NewcomerListens(digest, acts, t, last.slot, last.messages, e);
      } else {
        e := Listening(digest, front, t);
        if last.t == t {
          e := ListenedNow(digest, acts, st, t, last.answer, e);
        } else {
          ListenedLater(digest, acts, t, st.tasks[t], e);
        }
      }
    }
  }

  lemma NoCallsAtFirst(digest: Digest)
    ensures IsRun(digest, INIT, []) && Run(digest, INIT, []).tasks == map[]
  {
  }

  /**
    However calls overlap: behind a restore or a prefill there is the call's own
    look at the slots, whose first entry about its slot said idle. Behind a save
    there is also a later look, whose first entry about the slot said idle and
    placed. And a call for a system prompt was skipped only because its look said
    nothing of the kind.
   */
  lemma GateObeyed(digest: Digest, acts: seq<Action>, t: TaskId) returns (e: Ears)
    requires IsRun(digest, INIT, acts) && t in Run(digest, INIT, acts).tasks
    ensures var k := Run(digest, INIT, acts).tasks[t];
            && (forall c | c in k.trace && (TouchesSlot(c) || c.Save?) :: c.slot == k.slot)
            && ((exists c | c in k.trace :: TouchesSlot(c)) || k.pc.Restoring? || k.pc.Prefilling? ==>
                  Heard(digest, acts, e.look, t, Look, e.first) && SaidIdle(e.first, k.slot))
            && ((exists c | c in k.trace :: c.Save?) || k.pc.Saving? ==>
                  && e.look < e.confirm
                  && Heard(digest, acts, e.confirm, t, Confirm, e.second) && SaidPlaced(e.second, k.slot))
            && (k.pc == Done(Skipped) && HasSystem(k.messages) ==>
                  Heard(digest, acts, e.look, t, Look, e.first) && !SaidIdle(e.first, k.slot))
  {
    hide Run, IsRun, Heard, SaidIdle, SaidPlaced, HasSystem;
    e := Listening(digest, acts, t);
  }
}
