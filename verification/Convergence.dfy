/**
  Repeating plan-then-delete. One round need not be enough: `x.save.ckpt`
  becomes junk only once `x.save` is gone. Rounds reach an empty plan, and there
  every file still over the limit is held by the grace window.
 */
module Convergence {
  import opened Options
  import opened Names
  import opened Planner
  import opened Quota

  function Round(es: seq<Entry>, limit: u64, now: u64, grace: u64): seq<Entry> {
    Without(es, Plan(es, limit, now, grace))
  }

  function Rounds(es: seq<Entry>, n: nat, limit: u64, now: u64, grace: u64): seq<Entry>
    decreases n
  {
    if n == 0 then es else Rounds(Round(es, limit, now, grace), n - 1, limit, now, grace)
  }

  lemma RoundShrinks(es: seq<Entry>, limit: u64, now: u64, grace: u64)
    requires Distinct(es)
    ensures Distinct(Round(es, limit, now, grace))
    ensures Usage(Round(es, limit, now, grace)) <= Usage(es)
    ensures Plan(es, limit, now, grace) != [] ==> |Round(es, limit, now, grace)| < |es|
    ensures Plan(es, limit, now, grace) == [] ==> Round(es, limit, now, grace) == es
  {
    hide Select, Sort, Files;
    var p := Plan(es, limit, now, grace);
    PlanConserves(es, limit, now, grace);
    WithoutDistinct(es, p);
    WithoutMembers(es, p);
    WithoutNothing(es);
    if p != [] {
      assert p[0] in NamesOf(es);
    }
  }

  /** The rounds settle: after at most as many rounds as files, nothing is planned. */
  lemma {:induction false} RoundsSettle(es: seq<Entry>, n: nat, limit: u64, now: u64, grace: u64)
    requires Distinct(es) && n >= |es|
    ensures Distinct(Rounds(es, n, limit, now, grace))
    ensures Plan(Rounds(es, n, limit, now, grace), limit, now, grace) == []
    decreases n
  {
    hide Select, Sort, Files, Usage;
    if n == 0 {
      assert es == [];
      NothingToPlan(es, limit, now, grace);
    } else {
      RoundShrinks(es, limit, now, grace);
      if Plan(es, limit, now, grace) == [] {
        RoundsIdle(es, n, limit, now, grace);
      } else {
        RoundsSettle(Round(es, limit, now, grace), n - 1, limit, now, grace);
      }
    }
  }

  lemma NothingToPlan(es: seq<Entry>, limit: u64, now: u64, grace: u64)
    requires es == []
    ensures Plan(es, limit, now, grace) == []
  {
  }

  lemma {:induction false} RoundsIdle(es: seq<Entry>, n: nat, limit: u64, now: u64, grace: u64)
    requires Distinct(es) && Plan(es, limit, now, grace) == []
    ensures Rounds(es, n, limit, now, grace) == es
    decreases n
  {
    hide Select, Sort, Files, Usage;
    RoundShrinks(es, limit, now, grace);
    if n > 0 {
      RoundsIdle(es, n - 1, limit, now, grace);
    }
  }

  // ------------------------------------------------------------ the fixpoint

  // What stands behind a name: strip ".ckpt" while the base file is present.
  function Root(name: string, names: set<string>): (r: string)
    ensures name in names ==> r in names
    ensures IsBlob(r) || IsJunk(r, names)
    decreases |name|
  {
    if IsBlob(name) || IsJunk(name, names) then name
    else Root(StripSuffix(name, CKPT), names)
  }

  function Ckpts(n: nat): string {
    if n == 0 then "" else Ckpts(n - 1) + CKPT
  }

  lemma {:induction false} RootStrips(name: string, names: set<string>) returns (n: nat)
    ensures name == Root(name, names) + Ckpts(n)
    decreases |name|
  {
    if IsBlob(name) || IsJunk(name, names) {
      n := 0;
    } else {
      var base := StripSuffix(name, CKPT);
      n := RootStrips(base, names);
      n := n + 1;
      ConcatAssociative(Root(base, names), Ckpts(n - 1), CKPT);
    }
  }

  ghost predicate InGraceFile(es: seq<Entry>, root: string, now: u64, grace: u64) {
    exists e | e in es ::
      && e.name == root
      && (IsJunk(root, NamesOf(es)) ==> !Expired(e.mtime, now, grace))
      && (IsBlob(root) ==> InGrace(BlobUnit(e, es), now, grace))
  }

  /**
    Where the rounds stop, usage is within the limit or every surviving file is,
    after stripping ".ckpt" some number of times, a survivor that the grace
    window protects.
   */
  lemma SettledIsHeld(es: seq<Entry>, limit: u64, now: u64, grace: u64)
    requires Distinct(es) && Plan(es, limit, now, grace) == []
    ensures Usage(es) <= limit || forall e | e in es :: InGraceFile(es, Root(e.name, NamesOf(es)), now, grace)
  {
    hide Select, Sort, Files, Usage;
    PlanComplete(es, limit, now, grace);
    WithoutNothing(es);
    if Usage(es) > limit {
      forall e | e in es ensures InGraceFile(es, Root(e.name, NamesOf(es)), now, grace) {
        var root := Root(e.name, NamesOf(es));
        assert e.name in NamesOf(es);
        var r :| r in es && r.name == root;
      }
    }
  }

  /** Quota convergence, from any directory. */
  lemma QuotaConverges(es: seq<Entry>, n: nat, limit: u64, now: u64, grace: u64)
    requires Distinct(es) && n >= |es|
    ensures var left := Rounds(es, n, limit, now, grace);
            && Plan(left, limit, now, grace) == []
            && (Usage(left) <= limit ||
                forall e | e in left :: InGraceFile(left, Root(e.name, NamesOf(left)), now, grace))
  {
    hide Select, Sort, Files, Usage;
    RoundsSettle(es, n, limit, now, grace);
    SettledIsHeld(Rounds(es, n, limit, now, grace), limit, now, grace);
  }

  // ------------------------------------------------ when one round suffices

  // A sidecar that the plan has just turned into junk.
  predicate Orphaned(es: seq<Entry>, plan: seq<string>, e: Entry) {
    && EndsWith(e.name, CKPT)
    && StripSuffix(e.name, CKPT) in NamesOf(es) && StripSuffix(e.name, CKPT) in plan
    && e.name !in plan
  }

  /**
    The second round finds nothing exactly when the first met the limit, or
    orphaned no sidecar that is past its grace window.
   */
  lemma OneRoundSuffices(es: seq<Entry>, limit: u64, now: u64, grace: u64)
    requires Distinct(es)
    ensures Plan(Round(es, limit, now, grace), limit, now, grace) == [] <==>
            || Usage(Round(es, limit, now, grace)) <= limit
            || forall e | e in es && Orphaned(es, Plan(es, limit, now, grace), e) :: !Expired(e.mtime, now, grace)
  {
    hide Select, Sort, Files, Usage;
    var p := Plan(es, limit, now, grace);
    var left := Round(es, limit, now, grace);
    RoundShrinks(es, limit, now, grace);
    WithoutMembers(es, p);
    if Usage(left) > limit {
      if Plan(left, limit, now, grace) == [] {
        PlanComplete(left, limit, now, grace);
        WithoutNothing(left);
        forall e | e in es && Orphaned(es, p, e) ensures !Expired(e.mtime, now, grace) {
          OrphanIsJunk(es, p, e);
        }
      } else if forall e | e in es && Orphaned(es, p, e) :: !Expired(e.mtime, now, grace) {
        forall e | e in left
          ensures IsJunk(e.name, NamesOf(left)) ==> !Expired(e.mtime, now, grace)
          ensures IsBlob(e.name) ==> InGrace(BlobUnit(e, left), now, grace)
        {
          PlanComplete(es, limit, now, grace);
          if IsBlob(e.name) {
            SurvivingUnit(es, limit, now, grace, e);
          }
        }
        AllHeldPlansNothing(left, limit, now, grace);
      }
    } else {
      WithinLimitPlansNothing(left, limit, now, grace);
    }
  }

  lemma WithinLimitPlansNothing(es: seq<Entry>, limit: u64, now: u64, grace: u64)
    requires Usage(es) <= limit
    ensures Plan(es, limit, now, grace) == []
  {
  }

  lemma OrphanIsJunk(es: seq<Entry>, plan: seq<string>, e: Entry)
    requires e in es && Orphaned(es, plan, e)
    ensures e in Without(es, plan) && IsJunk(e.name, NamesOf(Without(es, plan)))
  {
    WithoutMembers(es, plan);
    CkptIsNotBlob(StripSuffix(e.name, CKPT), e.name);
  }

  lemma SurvivingUnit(es: seq<Entry>, limit: u64, now: u64, grace: u64, b: Entry)
    requires Distinct(es) && b in Round(es, limit, now, grace) && IsBlob(b.name)
    ensures BlobUnit(b, Round(es, limit, now, grace)) == BlobUnit(b, es)
  {
    hide Select, Sort, Files, Usage;
    var p := Plan(es, limit, now, grace);
    WithoutMembers(es, p);
    LenOfWithout(es, p, SidecarName(b.name));
    if SidecarName(b.name) in NamesOf(es) {
      PairsTogether(es, limit, now, grace, b);
    }
  }

  lemma AllHeldPlansNothing(es: seq<Entry>, limit: u64, now: u64, grace: u64)
    requires forall e | e in es ::
               && (IsJunk(e.name, NamesOf(es)) ==> !Expired(e.mtime, now, grace))
               && (IsBlob(e.name) ==> InGrace(BlobUnit(e, es), now, grace))
    ensures Plan(es, limit, now, grace) == []
  {
    hide Sort, Usage, Select, JunkUnits, BlobUnits, BlobUnit, IsJunk, IsBlob, NamesOf;
    var js, bs := Junk(es), Blobs(es);
    forall i | 0 <= i < |js| ensures InGrace(js[i], now, grace) {
      SortMembers(JunkUnits(es, NamesOf(es)), js[i]);
      var e := JunkUnitsSource(es, NamesOf(es), js[i]);
    }
    forall i | 0 <= i < |bs| ensures InGrace(bs[i], now, grace) {
      SortMembers(BlobUnits(es, es), bs[i]);
      var e := BlobUnitsSource(es, es, bs[i]);
    }
    SelectNoneInGrace(js, es, Usage(es), limit, now, grace);
    assert JunkPart(es, limit, now, grace) == [];
    assert Files([]) == [] && Size([], es) == 0;
    SelectNoneInGrace(bs, es, Usage(es), limit, now, grace);
  }

  const SCRATCH := Entry("x.save", 1, 0)
  const ORPHAN := Entry("x.save.ckpt", 5, 0)
  const PAIR := [SCRATCH, ORPHAN]

  lemma PairNames()
    ensures NamesOf(PAIR) == {SCRATCH.name, ORPHAN.name} && SCRATCH.name != ORPHAN.name
    ensures !IsBlob(SCRATCH.name) && !IsBlob(ORPHAN.name) && !EndsWith(SCRATCH.name, CKPT)
    ensures EndsWith(ORPHAN.name, CKPT) && StripSuffix(ORPHAN.name, CKPT) == SCRATCH.name
  {
    assert SCRATCH in PAIR && ORPHAN in PAIR;
    assert |SCRATCH.name| < |ORPHAN.name|;
    assert ORPHAN.name[..6] == SCRATCH.name;
  }

  lemma PairUnits()
    ensures JunkUnits(PAIR, NamesOf(PAIR)) == [Unit(0, [SCRATCH.name])] && BlobUnits(PAIR, PAIR) == []
    ensures Usage(PAIR) == 6 && Size([SCRATCH.name], PAIR) == 1
    ensures Without(PAIR, [SCRATCH.name]) == [ORPHAN]
  {
    hide NamesOf, IsBlob, EndsWith;
    PairNames();
    assert PAIR[1..] == [ORPHAN] && [ORPHAN][1..] == [];
    assert JunkUnits([ORPHAN], NamesOf(PAIR)) == [] && BlobUnits([ORPHAN], PAIR) == [];
    assert Usage([ORPHAN]) == 5;
    assert Find(PAIR, SCRATCH.name) == Some(SCRATCH);
    assert Without([ORPHAN], [SCRATCH.name]) == [ORPHAN] + Without([], [SCRATCH.name]);
  }

  /** A directory where one round is not enough. */
  lemma OneRoundCanFallShort()
    ensures Distinct(PAIR)
    ensures Plan(PAIR, 3, 100, 60) == ["x.save"]
    ensures Plan(Round(PAIR, 3, 100, 60), 3, 100, 60) == ["x.save.ckpt"]
  {
    hide NamesOf, IsBlob, EndsWith, JunkUnits, BlobUnits, Usage, Without, Size;
    PairNames();
    PairUnits();
    var u := Unit(0, [SCRATCH.name]);
    assert [u][1..] == [] && Sort([u]) == Insert(u, Sort([]));
    assert Junk(PAIR) == [u] && Blobs(PAIR) == [];
    assert Select([u], PAIR, 6, 3, 100, 60) == [u];
    assert Files([u]) == [SCRATCH.name];
    OrphanGoes();
  }

  lemma OrphanGoes()
    ensures Plan([ORPHAN], 3, 100, 60) == [ORPHAN.name]
  {
    PairNames();
    LoneJunk(ORPHAN, 3, 100, 60);
  }

  lemma LoneJunk(e: Entry, limit: u64, now: u64, grace: u64)
    requires !IsBlob(e.name) && (EndsWith(e.name, CKPT) ==> StripSuffix(e.name, CKPT) != e.name)
    requires e.len > limit && Expired(e.mtime, now, grace)
    ensures Plan([e], limit, now, grace) == [e.name]
  {
    var es, v := [e], Unit(e.mtime, [e.name]);
    assert NamesOf(es) == {e.name} by {
      assert e in es;
    }
    assert JunkUnits(es, NamesOf(es)) == [v] && BlobUnits(es, es) == [];
    assert Find(es, e.name) == Some(e);
    assert Size([e.name], es) == LenOf(es, e.name) + Size([], es);
    assert Usage(es) == e.len;
    assert Select([v], es, e.len, limit, now, grace) == [v];
    assert Files([v]) == [e.name];
  }
}
