/**
  What lies behind a request that is being served, claims its slot or publishes it:
  a dispatch the backend accepted, and a stream that ended. And what lies ahead of
  one whose dispatch was refused: nothing. In every run.
 */
module DispatchHistory {
  import opened Options
  import opened Registry
  import opened Steps
  import opened GateTheorems
  import opened EvictionHistory

  // Past an accepted dispatch, and not yet at its end.
  predicate BeingServed(k: Task) {
    k.pc.Serve? || HasEnded(k) || k.pc.QuitLock? || k.pc.Quit?
  }

  // Claiming its slot, publishing it, or cleaning up after that.
  predicate HasEnded(k: Task) {
    k.pc.ClaimLock? || k.pc.Claim? || OwnJob(k)
  }

  predicate OwnJob(k: Task) {
    (Publishing(k.pc) && !k.job.evicting) || k.pc.ScanDir? || k.pc.Delete?
  }

  /** Action `n` is a step that this request took at `pc`, with this answer. */
  ghost predicate TookStep(acts: seq<Action>, n: nat, t: TaskId, k: Task, pc: Pc, ch: Choice) {
    && n < |acts| && acts[n] == Act(t, ch) && IsRun(INIT, acts[..n])
    && var st := Run(INIT, acts[..n]);
       && t in st.tasks && st.tasks[t].pc == pc && st.tasks[t].session == k.session && st.tasks[t].steer == k.steer
  }

  /** When it was dispatched and when its stream ended, with the answers. */
  datatype Moments = Moments(sent: nat, accepted: Choice, last: nat, ended: Choice)

  ghost predicate Behind(acts: seq<Action>, t: TaskId, k: Task, m: Moments) {
    && (BeingServed(k) ==> TookStep(acts, m.sent, t, k, Dispatch, m.accepted) && m.accepted.ok)
    && (HasEnded(k) || k.pc.QuitLock? || k.pc.Quit? ==>
          && m.sent < m.last && k.steer.Some? && TookStep(acts, m.last, t, k, Serve, m.ended)
          && m.ended.turn == if HasEnded(k) then Ended else Disconnected)
    && (OwnJob(k) ==> k.steer == Some(k.job.slot) && k.job.session == k.session)
  }

  lemma TookLater(acts: seq<Action>, m: nat, n: nat, t: TaskId, k: Task, pc: Pc, ch: Choice)
    requires m <= |acts| && TookStep(acts[..m], n, t, k, pc, ch)
    ensures TookStep(acts, n, t, k, pc, ch) && n < m
  {
    assert acts[..m][..n] == acts[..n];
  }

  lemma BehindLater(acts: seq<Action>, t: TaskId, k: Task, m: Moments)
    requires acts != [] && Behind(acts[..|acts| - 1], t, k, m)
    ensures Behind(acts, t, k, m)
    ensures BeingServed(k) ==> m.sent < |acts| - 1
  {
    hide TookStep;
    var n := |acts| - 1;
    if TookStep(acts[..n], m.sent, t, k, Dispatch, m.accepted) {
      TookLater(acts, n, m.sent, t, k, Dispatch, m.accepted);
    }
    if TookStep(acts[..n], m.last, t, k, Serve, m.ended) {
      TookLater(acts, n, m.last, t, k, Serve, m.ended);
    }
  }

  // ------------------------------------------------------------------ one step

  // Which steps lead into each stretch of a turn.
  ghost predicate TurnMoves(k: Task, k': Task, ch: Choice) {
    && (BeingServed(k') ==>
          k'.session == k.session && k'.steer == k.steer && (BeingServed(k) || (k.pc.Dispatch? && ch.ok)))
    && (k'.pc.Serve? ==> k.pc.Dispatch?)
    && (HasEnded(k') ==> HasEnded(k) || (k.pc.Serve? && ch.turn.Ended? && k.steer.Some?))
    && (k'.pc.QuitLock? || k'.pc.Quit? ==> k.pc.QuitLock? || (k.pc.Serve? && ch.turn.Disconnected? && k.steer.Some?))
    && (OwnJob(k') ==>
          || (OwnJob(k) && k'.job.slot == k.job.slot && k'.job.session == k.job.session)
          || (k.pc.Claim? && k.steer == Some(k'.job.slot) && k'.job.session == k.session))
  }

  lemma LookupTurns(st: State, k: Task, ch: Choice)
    requires LookingUp(k.pc)
    ensures !BeingServed(LookupNext(st, k, ch))
  {
    hide HotSlot, FirstFree;
  }

  lemma EvictTurns(st: State, k: Task, ch: Choice)
    requires Evicting(k.pc)
    ensures !BeingServed(EvictNext(st, k, ch))
  {
    hide FirstDirty;
  }

  lemma PublishTurns(d: Disk, k: Task, ch: Choice)
    requires Publishing(k.pc)
    ensures TurnMoves(k, PublishNext(d, k, ch), ch)
  {
    hide PublishNext;
    if k.pc.LeaveWrite? {
      LeaveTurns(d, k, ch);
    } else {
      PublishKeepsJob(d, k, ch);
      PublishMoves(d, k, ch);
    }
  }

  lemma LeaveTurns(d: Disk, k: Task, ch: Choice)
    requires k.pc.LeaveWrite?
    ensures TurnMoves(k, PublishNext(d, k, ch), ch)
  {
  }

  lemma ServeTurns(k: Task, ch: Choice)
    requires !LookingUp(k.pc) && !Evicting(k.pc) && !Publishing(k.pc)
    ensures TurnMoves(k, TurnNext(k, ch), ch)
  {
  }

  lemma StepTurns(st: State, k: Task, ch: Choice)
    ensures TurnMoves(k, TaskAfter(st, k, ch), ch)
  {
    hide LookupNext, EvictNext, PublishNext, TurnNext;
    if LookingUp(k.pc) {
      LookupTurns(st, k, ch);
    } else if Evicting(k.pc) {
      EvictTurns(st, k, ch);
    } else if Publishing(k.pc) {
      PublishTurns(st.disk, k, ch);
    } else {
      ServeTurns(k, ch);
    }
  }

  lemma BehindNow(acts: seq<Action>, st: State, t: TaskId, ch: Choice, m: Moments) returns (m': Moments)
    requires acts != [] && IsRun(INIT, acts[..|acts| - 1]) && st == Run(INIT, acts[..|acts| - 1])
    requires acts[|acts| - 1] == Act(t, ch) && t in st.tasks && Behind(acts[..|acts| - 1], t, st.tasks[t], m)
    ensures Behind(acts, t, TaskAfter(st, st.tasks[t], ch), m')
  {
    hide Run, IsRun, TaskAfter, TookStep, HasEnded;
    var n, k := |acts| - 1, st.tasks[t];
    var k' := TaskAfter(st, k, ch);
    m' := if k.pc.Dispatch? then m.(sent := n, accepted := ch)
          else if k.pc.Serve? then m.(last := n, ended := ch)
          else m;
    StepTurns(st, k, ch);
    if BeingServed(k') {
      BehindLater(acts, t, k, m);
      TookNow(acts, st, t, k', ch);
      if k'.steer == k.steer && k'.session == k.session {
        SameSteps(acts, t, k, k');
      }
      Kinds(k, k');
    } else {
      NothingBehind(acts, t, k', m');
    }
  }

  lemma TookNow(acts: seq<Action>, st: State, t: TaskId, k: Task, ch: Choice)
    requires acts != [] && IsRun(INIT, acts[..|acts| - 1]) && st == Run(INIT, acts[..|acts| - 1])
    requires acts[|acts| - 1] == Act(t, ch) && t in st.tasks
    ensures k.session == st.tasks[t].session && k.steer == st.tasks[t].steer ==>
              TookStep(acts, |acts| - 1, t, k, st.tasks[t].pc, ch)
  {
  }

  lemma SameSteps(acts: seq<Action>, t: TaskId, k: Task, k': Task)
    requires k'.session == k.session && k'.steer == k.steer
    ensures forall n, pc, ch | TookStep(acts, n, t, k, pc, ch) :: TookStep(acts, n, t, k', pc, ch)
  {
  }

  lemma Kinds(k: Task, k': Task)
    ensures HasEnded(k) || OwnJob(k) ==>
              BeingServed(k) && !k.pc.Serve? && !k.pc.Dispatch? && !k.pc.QuitLock? && !k.pc.Quit?
    ensures HasEnded(k') ==> !k'.pc.Serve? && !k'.pc.QuitLock? && !k'.pc.Quit?
    ensures OwnJob(k') ==> HasEnded(k')
    ensures k.pc.Claim? ==> HasEnded(k)
  {
  }

  lemma NothingBehind(acts: seq<Action>, t: TaskId, k: Task, m: Moments)
    requires !BeingServed(k)
    ensures Behind(acts, t, k, m)
  {
  }

  const NOTHING := Choice(false, false, [], [], false, Broken, [])

  lemma {:induction false} WhatIsBehind(acts: seq<Action>, t: TaskId) returns (m: Moments)
    requires IsRun(INIT, acts) && t in Run(INIT, acts).tasks
    ensures Behind(acts, t, Run(INIT, acts).tasks[t], m)
    decreases |acts|
  {
    hide Behind, Run, IsRun, Do, Possible, TaskAfter;
    m := Moments(0, NOTHING, 0, NOTHING);
    if acts == [] {
      NobodyAtFirst();
    } else {
      var front, last := acts[..|acts| - 1], acts[|acts| - 1];
      assert acts == front + [last];
      RunSnoc(INIT, front, last);
      var st := Run(INIT, front);
      if last.Crash? || (last.Arrive? && last.t == t) {
        Arrivals(st, last, t);
        NothingBehind(acts, t, NewTask(last.session), m);
      } else {
        OthersStay(st, last, t);
        m := WhatIsBehind(front, t);
        if last.Act? && last.t == t {
          m := BehindNow(acts, st, t, last.choice, m);
          ActIsStep(st, t, last.choice);
        } else if last.Drop? && last.t == t {
          NothingBehind(acts, t, At(st.tasks[t], Finished), m);
        } else {
          BehindLater(acts, t, st.tasks[t], m);
        }
      }
    }
  }

  lemma ActIsStep(st: State, t: TaskId, ch: Choice)
    requires Possible(st, Act(t, ch))
    ensures t in Do(st, Act(t, ch)).tasks && Do(st, Act(t, ch)).tasks[t] == TaskAfter(st, st.tasks[t], ch)
  {
    hide TaskAfter;
  }

  /**
    In every run a request is served, claims its slot, publishes it, abandons it or
    cleans up only after the backend accepted its dispatch. It claims and publishes
    only after its stream came to an end, for the slot it was steered to and under
    its own session; and it abandons its slot only after its client disconnected.
   */
  lemma OnlyAccepted(acts: seq<Action>, t: TaskId) returns (m: Moments)
    requires IsRun(INIT, acts) && t in Run(INIT, acts).tasks
    ensures var k := Run(INIT, acts).tasks[t];
            && (k.pc.Serve? || HasEnded(k) || k.pc.QuitLock? || k.pc.Quit? ==>
                  TookStep(acts, m.sent, t, k, Dispatch, m.accepted) && m.accepted.ok)
            && (HasEnded(k) ==> m.sent < m.last && TookStep(acts, m.last, t, k, Serve, m.ended) && m.ended.turn.Ended?)
            && (k.pc.QuitLock? || k.pc.Quit? ==>
                  m.sent < m.last && TookStep(acts, m.last, t, k, Serve, m.ended) && m.ended.turn.Disconnected?)
            && (OwnJob(k) ==> k.steer == Some(k.job.slot) && k.job.session == k.session)
  {
    hide Run, IsRun, TookStep;
    m := WhatIsBehind(acts, t);
  }

  // ------------------------------------------------------------------- a refusal

  lemma FinishedStays(st: State, a: Action, t: TaskId)
    requires Possible(st, a) && !a.Crash? && t in st.tasks && st.tasks[t].pc == Finished
    ensures t in Do(st, a).tasks && Do(st, a).tasks[t] == st.tasks[t]
  {
    hide TaskAfter;
  }

  lemma RefusalEnds(st: State, t: TaskId, ch: Choice)
    requires Possible(st, Act(t, ch)) && st.tasks[t].pc == Dispatch && !ch.ok
    ensures var st' := Do(st, Act(t, ch));
            && t in st'.tasks && st'.tasks[t].pc == Finished
            && st'.slots == st.slots && st'.disk == st.disk && st'.gate == st.gate && st'.mutex == st.mutex
  {
  }

  /**
    In every run a refused dispatch changes neither the registry nor the disk, and
    whatever the others do the request never takes another step.
   */
  lemma {:induction false} RefusedForGood(acts: seq<Action>, n: nat, t: TaskId, ch: Choice)
    requires IsRun(INIT, acts) && n < |acts| && acts[n] == Act(t, ch) && !ch.ok
    requires IsRun(INIT, acts[..n]) && t in Run(INIT, acts[..n]).tasks
    requires Run(INIT, acts[..n]).tasks[t].pc == Dispatch
    requires forall i | n < i < |acts| :: !acts[i].Crash?
    ensures t in Run(INIT, acts).tasks && Run(INIT, acts).tasks[t].pc == Finished
    ensures IsRun(INIT, acts[..n + 1])
    ensures Run(INIT, acts[..n + 1]).slots == Run(INIT, acts[..n]).slots
    ensures Run(INIT, acts[..n + 1]).disk == Run(INIT, acts[..n]).disk
    ensures forall i | n < i < |acts| :: acts[i].Act? || acts[i].Drop? ==> acts[i].t != t
    decreases |acts|
  {
    hide Run, IsRun, Do, Possible;
    var front, last := acts[..|acts| - 1], acts[|acts| - 1];
    assert acts == front + [last];
    RunSnoc(INIT, front, last);
    if n == |acts| - 1 {
      RefusalEnds(Run(INIT, front), t, ch);
      assert acts[..n + 1] == acts;
    } else {
      assert front[..n] == acts[..n] && front[..n + 1] == acts[..n + 1];
      RefusedForGood(front, n, t, ch);
      FinishedStays(Run(INIT, front), last, t);
      FinishedIsIdle(Run(INIT, front), last, t);
      forall i | n < i < |acts| && (acts[i].Act? || acts[i].Drop?) ensures acts[i].t != t {
        if i < |acts| - 1 {
          assert front[i] == acts[i];
        }
      }
    }
  }

  lemma FinishedIsIdle(st: State, a: Action, t: TaskId)
    requires Possible(st, a) && t in st.tasks && st.tasks[t].pc == Finished
    ensures a.Act? || a.Drop? ==> a.t != t
  {
  }
}
