/**
  What the quota planner guarantees: conservation of bytes, least-recently-used
  order, completeness and minimality, blobs and sidecars together, and
  convergence when plan-then-delete is repeated.
 */
module Quota {
  import opened Options
  import opened Names
  import opened Planner

  // ------------------------------------------------------------ membership

  lemma {:induction false} FilesMember(us: seq<Unit>, u: Unit, f: string)
    requires u in us && f in u.files
    ensures f in Files(us)
  {
    if us[0] != u {
      FilesMember(us[1..], u, f);
    }
  }

  lemma {:induction false} FilesOwner(us: seq<Unit>, f: string) returns (i: nat)
    requires f in Files(us)
    ensures i < |us| && f in us[i].files
  {
    if f in us[0].files {
      i := 0;
    } else {
      i := FilesOwner(us[1..], f);
      i := i + 1;
    }
  }

  lemma {:induction false} JunkUnitsMember(es: seq<Entry>, names: set<string>, e: Entry)
    requires e in es && IsJunk(e.name, names)
    ensures Unit(e.mtime, [e.name]) in JunkUnits(es, names)
  {
    if es[0] != e {
      JunkUnitsMember(es[1..], names, e);
    }
  }

  lemma {:induction false} JunkUnitsSource(es: seq<Entry>, names: set<string>, u: Unit) returns (e: Entry)
    requires u in JunkUnits(es, names)
    ensures e in es && IsJunk(e.name, names) && u == Unit(e.mtime, [e.name])
  {
    if IsJunk(es[0].name, names) && u == Unit(es[0].mtime, [es[0].name]) {
      e := es[0];
    } else {
      e := JunkUnitsSource(es[1..], names, u);
    }
  }

  lemma {:induction false} BlobUnitsMember(bs: seq<Entry>, es: seq<Entry>, b: Entry)
    requires b in bs && IsBlob(b.name)
    ensures BlobUnit(b, es) in BlobUnits(bs, es)
  {
    if bs[0] != b {
      BlobUnitsMember(bs[1..], es, b);
    }
  }

  lemma {:induction false} BlobUnitsSource(bs: seq<Entry>, es: seq<Entry>, u: Unit) returns (b: Entry)
    requires u in BlobUnits(bs, es)
    ensures b in bs && IsBlob(b.name) && u == BlobUnit(b, es)
  {
    if IsBlob(bs[0].name) && u == BlobUnit(bs[0], es) {
      b := bs[0];
    } else {
      b := BlobUnitsSource(bs[1..], es, u);
    }
  }

  lemma EntryByName(es: seq<Entry>, a: Entry, b: Entry)
    requires Distinct(es) && a in es && b in es && a.name == b.name
    ensures a == b
  {
    var i :| 0 <= i < |es| && es[i] == a;
    var j :| 0 <= j < |es| && es[j] == b;
    assert !(i < j) && !(j < i);
  }

  // ------------------------------------------------------ shape of the plan

  /**
    The plan is a prefix of the junk in age order followed by a prefix of the
    blob units in age order, and both cuts are forced: every taken unit was past
    its grace window and taken while usage was still over the limit; the first
    one not taken is either in grace or not needed.
   */
  lemma PlanShape(es: seq<Entry>, limit: u64, now: u64, grace: u64) returns (j: nat, b: nat)
    requires Usage(es) > limit
    ensures j <= |Junk(es)| && b <= |Blobs(es)|
    ensures Plan(es, limit, now, grace) == Files(Junk(es)[..j]) + Files(Blobs(es)[..b])
    ensures StopsAt(Junk(es), j, es, Usage(es), limit, now, grace)
    ensures StopsAt(Blobs(es), b, es, Usage(es) - Size(Files(Junk(es)[..j]), es), limit, now, grace)
    ensures JunkPart(es, limit, now, grace) == Junk(es)[..j]
    ensures BlobPart(es, limit, now, grace) == Blobs(es)[..b]
  {
    j := JunkShape(es, limit, now, grace);
    b := BlobShape(es, limit, now, grace);
  }

  lemma JunkShape(es: seq<Entry>, limit: u64, now: u64, grace: u64) returns (j: nat)
    ensures j <= |Junk(es)| && JunkPart(es, limit, now, grace) == Junk(es)[..j]
    ensures StopsAt(Junk(es), j, es, Usage(es), limit, now, grace)
  {
    UnitsSorted(es);
    j := SelectIsPrefix(Junk(es), es, Usage(es), limit, now, grace);
  }

  lemma BlobShape(es: seq<Entry>, limit: u64, now: u64, grace: u64) returns (b: nat)
    ensures b <= |Blobs(es)| && BlobPart(es, limit, now, grace) == Blobs(es)[..b]
    ensures StopsAt(Blobs(es), b, es, Usage(es) - Size(Files(JunkPart(es, limit, now, grace)), es), limit, now, grace)
  {
    var freed := Size(Files(JunkPart(es, limit, now, grace)), es);
    UnitsSorted(es);
    b := SelectIsPrefix(Blobs(es), es, Usage(es) - freed, limit, now, grace);
  }

  /** The bytes accounted as freed are the bytes of the planned files. */
  lemma PlanConserves(es: seq<Entry>, limit: u64, now: u64, grace: u64)
    requires Distinct(es)
    ensures var p := Plan(es, limit, now, grace);
            && NoDuplicates(p)
            && (forall x | x in p :: x in NamesOf(es))
            && Usage(Without(es, p)) == Usage(es) - Size(p, es)
  {
    var p := Plan(es, limit, now, grace);
    if Usage(es) <= limit {
      WithoutNothing(es);
    } else {
      PlanFiles(es, limit, now, grace);
    }
    UsageWithout(es, p);
  }

  predicate Expired(mtime: u64, now: u64, grace: u64) {
    SaturatingSub(now, mtime) >= grace
  }

  lemma LaterInGrace(us: seq<Unit>, k: nat, i: nat, now: u64, grace: u64)
    requires Sorted(us) && k <= i < |us| && InGrace(us[k], now, grace)
    ensures InGrace(us[i], now, grace)
  {
    assert us[k].mtime <= us[i].mtime;
  }

  // A unit of a sorted pass either falls in the taken prefix, or is in grace,
  // or the pass stopped because the limit was met.
  lemma UnitTakenOrNot(us: seq<Unit>, k: nat, u: Unit, es: seq<Entry>, budget: int, limit: u64, now: u64, grace: u64)
    requires Sorted(us) && StopsAt(us, k, es, budget, limit, now, grace) && u in us
    ensures u in us[..k] || InGrace(u, now, grace) || budget - Size(Files(us[..k]), es) <= limit
  {
    var i :| 0 <= i < |us| && us[i] == u;
    if i < k {
      assert us[..k][i] == u;
    } else if InGrace(us[k], now, grace) {
      LaterInGrace(us, k, i, now, grace);
    }
  }

  lemma JunkIn(es: seq<Entry>, e: Entry)
    requires e in es && IsJunk(e.name, NamesOf(es))
    ensures Unit(e.mtime, [e.name]) in Junk(es)
  {
    JunkUnitsMember(es, NamesOf(es), e);
    SortMembers(JunkUnits(es, NamesOf(es)), Unit(e.mtime, [e.name]));
  }

  lemma BlobIn(es: seq<Entry>, e: Entry)
    requires e in es && IsBlob(e.name)
    ensures BlobUnit(e, es) in Blobs(es)
  {
    BlobUnitsMember(es, es, e);
    SortMembers(BlobUnits(es, es), BlobUnit(e, es));
  }

  lemma BlobUnitHead(e: Entry, es: seq<Entry>)
    ensures e.name in BlobUnit(e, es).files
  {
    assert BlobUnit(e, es).files[0] == e.name;
  }

  /**
    Nothing that could go is left: either the limit is met, or every junk file
    and every blob unit that stays is inside the grace window.
   */
  lemma PlanComplete(es: seq<Entry>, limit: u64, now: u64, grace: u64)
    requires Distinct(es)
    ensures var left := Without(es, Plan(es, limit, now, grace));
            || Usage(left) <= limit
            || forall e | e in left ::
                 && (IsJunk(e.name, NamesOf(es)) ==> !Expired(e.mtime, now, grace))
                 && (IsBlob(e.name) ==> InGrace(BlobUnit(e, es), now, grace))
  {
    var p := Plan(es, limit, now, grace);
    var left := Without(es, p);
    PlanConserves(es, limit, now, grace);
    if Usage(left) > limit {
      var j, b := PlanShape(es, limit, now, grace);
      var jf, bf := Files(Junk(es)[..j]), Files(Blobs(es)[..b]);
      SizeConcat(jf, bf, es);
      UnitsSorted(es);
      WithoutMembers(es, p);
      forall e | e in left
        ensures IsJunk(e.name, NamesOf(es)) ==> !Expired(e.mtime, now, grace)
        ensures IsBlob(e.name) ==> InGrace(BlobUnit(e, es), now, grace)
      {
        if IsJunk(e.name, NamesOf(es)) {
          JunkIn(es, e);
          var u := Unit(e.mtime, [e.name]);
          UnitTakenOrNot(Junk(es), j, u, es, Usage(es), limit, now, grace);
          if u in Junk(es)[..j] {
            FilesMember(Junk(es)[..j], u, e.name);
            assert false;
          }
        }
        if IsBlob(e.name) {
          BlobIn(es, e);
          var u := BlobUnit(e, es);
          UnitTakenOrNot(Blobs(es), b, u, es, Usage(es) - Size(jf, es), limit, now, grace);
          if u in Blobs(es)[..b] {
            BlobUnitHead(e, es);
            FilesMember(Blobs(es)[..b], u, e.name);
            assert false;
          }
        }
      }
    }
  }

  /**
    No over-eviction: without its last unit the plan would have left usage over
    the limit.
   */
  lemma PlanMinimal(es: seq<Entry>, limit: u64, now: u64, grace: u64) returns (rest: seq<string>, last: Unit)
    requires Distinct(es) && Plan(es, limit, now, grace) != []
    ensures last in Junk(es) || last in Blobs(es)
    ensures !InGrace(last, now, grace)
    ensures Plan(es, limit, now, grace) == rest + last.files
    ensures Usage(Without(es, rest)) > limit
  {
    hide Select, Sort, Usage, NoDuplicates, Size;
    var p := Plan(es, limit, now, grace);
    var j, b := PlanShape(es, limit, now, grace);
    var js, bs := Junk(es), Blobs(es);
    PlanConserves(es, limit, now, grace);
    if b > 0 {
      last := bs[b - 1];
      rest := Files(js[..j]) + Files(bs[..b - 1]);
      FilesLast(bs, b);
      SizeConcat(Files(js[..j]), Files(bs[..b - 1]), es);
      ConcatAssociative(Files(js[..j]), Files(bs[..b - 1]), last.files);
    } else {
      assert Files(bs[..0]) == [] && Files(js[..0]) == [];
      last := js[j - 1];
      rest := Files(js[..j - 1]);
      FilesLast(js, j);
    }
    assert p == rest + last.files;
    UsageBefore(es, rest, last.files);
  }

  lemma UsageBefore(es: seq<Entry>, rest: seq<string>, last: seq<string>)
    requires Distinct(es) && NoDuplicates(rest + last)
    ensures Usage(Without(es, rest)) == Usage(es) - Size(rest, es)
  {
    NoDuplicatesPart(rest, last);
    UsageWithout(es, rest);
  }

  lemma FilesLast(us: seq<Unit>, k: nat)
    requires 0 < k <= |us|
    ensures Files(us[..k]) == Files(us[..k - 1]) + us[k - 1].files
  {
    assert us[..k] == us[..k - 1] + [us[k - 1]];
    FilesConcat(us[..k - 1], [us[k - 1]]);
    FilesCons(us[k - 1], []);
  }

  lemma NoDuplicatesPart(a: seq<string>, b: seq<string>)
    requires NoDuplicates(a + b)
    ensures NoDuplicates(a)
  {
    forall x ensures multiset(a)[x] <= 1 {
      assert multiset(a + b)[x] <= 1;
    }
  }

  lemma PlannedJunkUnit(es: seq<Entry>, limit: u64, now: u64, grace: u64, e: Entry, j: nat)
    requires Distinct(es) && e in es && IsJunk(e.name, NamesOf(es))
    requires j <= |Junk(es)| && e.name in Files(Junk(es)[..j])
    ensures Unit(e.mtime, [e.name]) in Junk(es)[..j]
  {
    var i := FilesOwner(Junk(es)[..j], e.name);
    var u := Junk(es)[i];
    SortMembers(JunkUnits(es, NamesOf(es)), u);
    var e' := JunkUnitsSource(es, NamesOf(es), u);
    EntryByName(es, e, e');
    assert Junk(es)[..j][i] == u;
  }

  // A planned blob, or the sidecar of a blob, was planned through the unit of
  // that blob.
  lemma PlannedBlobUnit(es: seq<Entry>, e: Entry, x: string, b: nat)
    requires Distinct(es) && e in es && IsBlob(e.name)
    requires x == e.name || x == SidecarName(e.name)
    requires b <= |Blobs(es)| && x in Files(Blobs(es)[..b])
    ensures BlobUnit(e, es) in Blobs(es)[..b]
  {
    var i := FilesOwner(Blobs(es)[..b], x);
    var u := Blobs(es)[i];
    SortMembers(BlobUnits(es, es), u);
    var e' := BlobUnitsSource(es, es, u);
    assert x == e'.name || x == SidecarName(e'.name);
    CkptIsNotBlob(e.name, x);
    CkptIsNotBlob(e'.name, x);
    AppendEndsWith(e.name, CKPT);
    AppendEndsWith(e'.name, CKPT);
    assert e.name == e'.name;
    EntryByName(es, e, e');
    assert Blobs(es)[..b][i] == u;
  }

  lemma PrefixOlder(us: seq<Unit>, k: nat, u: Unit, v: Unit)
    requires Sorted(us) && k <= |us| && u in us[..k] && v in us && v !in us[..k]
    ensures u.mtime <= v.mtime
  {
    var i :| 0 <= i < k && us[i] == u;
    var m :| 0 <= m < |us| && us[m] == v;
    assert forall n | 0 <= n < k :: us[n] == us[..k][n];
    assert i < m;
  }

  /**
    True LRU, by the younger of blob and sidecar; and junk always goes before
    any blob does.
   */
  lemma PlanOldestFirst(es: seq<Entry>, limit: u64, now: u64, grace: u64, gone: Entry, kept: Entry)
    requires Distinct(es) && gone in es && kept in es
    requires gone.name in Plan(es, limit, now, grace) && kept.name !in Plan(es, limit, now, grace)
    ensures IsBlob(gone.name) && IsBlob(kept.name) ==> BlobUnit(gone, es).mtime <= BlobUnit(kept, es).mtime
    ensures IsJunk(gone.name, NamesOf(es)) && IsJunk(kept.name, NamesOf(es)) ==> gone.mtime <= kept.mtime
    ensures IsBlob(gone.name) && IsJunk(kept.name, NamesOf(es)) ==> !Expired(kept.mtime, now, grace)
  {
    var names := NamesOf(es);
    var j, b := PlanShape(es, limit, now, grace);
    UnitsSorted(es);
    if IsJunk(kept.name, names) {
      JunkIn(es, kept);
      var v := Unit(kept.mtime, [kept.name]);
      if v in Junk(es)[..j] {
        FilesMember(Junk(es)[..j], v, kept.name);
        assert false;
      }
      UnitTakenOrNot(Junk(es), j, v, es, Usage(es), limit, now, grace);
      if IsJunk(gone.name, names) {
        if gone.name in Files(BlobPart(es, limit, now, grace)) {
          PlannedBlob(es, limit, now, grace, gone.name);
          assert false;
        }
        PlannedJunkUnit(es, limit, now, grace, gone, j);
        PrefixOlder(Junk(es), j, Unit(gone.mtime, [gone.name]), v);
      }
    }
    if IsBlob(gone.name) {
      if gone.name in Files(JunkPart(es, limit, now, grace)) {
        PlannedJunk(es, limit, now, grace, gone.name);
        assert false;
      }
      PlannedBlobUnit(es, gone, gone.name, b);
      assert b > 0;
      assert Files(Blobs(es)[..0]) == [];
      if IsBlob(kept.name) {
        BlobIn(es, kept);
        var v := BlobUnit(kept, es);
        if v in Blobs(es)[..b] {
          BlobUnitHead(kept, es);
          FilesMember(Blobs(es)[..b], v, kept.name);
          assert false;
        }
        PrefixOlder(Blobs(es), b, BlobUnit(gone, es), v);
      }
    }
  }

  // ------------------------------------------------------ classes of names

  /**
    How the planner sees the four files of a session: the blob heads a unit, its
    sidecar belongs to that unit while the blob exists, scratch is always junk,
    and the scratch's sidecar is junk exactly once the scratch is gone.
   */
  lemma FileClasses(session: string, sig: string, names: set<string>)
    ensures IsBlob(FileName(session, sig, Blob)) && !IsJunk(FileName(session, sig, Blob), names)
    ensures IsJunk(FileName(session, sig, Scratch), names)
    ensures IsJunk(FileName(session, sig, Sidecar), names) <==> FileName(session, sig, Blob) !in names
    ensures FileName(session, sig, Blob) in names ==>
              Head(FileName(session, sig, Sidecar), names) == FileName(session, sig, Blob)
    ensures IsJunk(FileName(session, sig, ScratchSidecar), names) <==> FileName(session, sig, Scratch) !in names
  {
    var b, s := FileName(session, sig, Blob), FileName(session, sig, Scratch);
    KindEnding(session, sig, Blob);
    KindEnding(session, sig, Scratch);
    CharFromEnd(s, SAVE, 1);
    if EndsWith(s, BIN) {
      CharFromEnd(s, BIN, 1);
    }
    if EndsWith(s, CKPT) {
      CharFromEnd(s, CKPT, 1);
    }
    AppendEndsWith(b, CKPT);
    AppendEndsWith(s, CKPT);
    CkptIsNotBlob(b, SidecarName(b));
    CkptIsNotBlob(s, SidecarName(s));
  }

  // ------------------------------------------------ blobs and their sidecars

  lemma {:induction false} FilesAdjacent(us: seq<Unit>, u: Unit, a: string, c: string) returns (i: nat)
    requires u in us && u.files == [a, c]
    ensures i + 1 < |Files(us)| && Files(us)[i] == a && Files(us)[i + 1] == c
  {
    if us[0] == u {
      i := 0;
    } else {
      i := FilesAdjacent(us[1..], u, a, c);
      i := i + |us[0].files|;
    }
  }

  /**
    A blob is planned exactly when its sidecar is, and then the blob comes
    immediately before it.
   */
  lemma PairsTogether(es: seq<Entry>, limit: u64, now: u64, grace: u64, b: Entry)
    requires Distinct(es) && b in es && IsBlob(b.name) && SidecarName(b.name) in NamesOf(es)
    ensures var p := Plan(es, limit, now, grace);
            && (b.name in p <==> SidecarName(b.name) in p)
            && (b.name in p ==> exists i :: Adjacent(p, i, b.name, SidecarName(b.name)))
  {
    hide Select, Sort, Usage, Size;
    var p, sc := Plan(es, limit, now, grace), SidecarName(b.name);
    if b.name in p || sc in p {
      var x := if b.name in p then b.name else sc;
      var j, k := PlanShape(es, limit, now, grace);
      AppendEndsWith(b.name, CKPT);
      assert b.name in NamesOf(es);
      assert !IsJunk(b.name, NamesOf(es)) && !IsJunk(sc, NamesOf(es)) by {
        CkptIsNotBlob(b.name, sc);
      }
      if x in Files(JunkPart(es, limit, now, grace)) {
        PlannedJunk(es, limit, now, grace, x);
        assert false;
      }
      PlannedBlobUnit(es, b, x, k);
      var i := FilesAdjacent(Blobs(es)[..k], BlobUnit(b, es), b.name, sc);
      assert Adjacent(p, |Files(Junk(es)[..j])| + i, b.name, sc);
    }
  }

  predicate Adjacent(p: seq<string>, i: int, a: string, c: string) {
    0 <= i && i + 1 < |p| && p[i] == a && p[i + 1] == c
  }

  lemma SeenTwice(p: seq<string>, i: nat, j: nat)
    requires i < j < |p| && p[i] == p[j]
    ensures multiset(p)[p[i]] >= 2
  {
    assert p == p[..j] + p[j..];
    assert p[..j][i] == p[i] && p[j..][0] == p[i];
    assert p[i] in multiset(p[..j]) && p[i] in multiset(p[j..]);
  }

  lemma OnceOnly(p: seq<string>, i: nat, j: nat)
    requires NoDuplicates(p) && i < |p| && j < |p| && p[i] == p[j]
    ensures i == j
  {
    if i < j {
      SeenTwice(p, i, j);
    } else if j < i {
      SeenTwice(p, j, i);
    }
  }

  // `x` is a sidecar whose blob was deleted from under it.
  predicate NewOrphan(es: seq<Entry>, gone: seq<string>, b: string) {
    && IsBlob(b) && b in NamesOf(es) && b in gone
    && SidecarName(b) in NamesOf(es) && SidecarName(b) !in gone
  }

  /**
    Stopping after any number of deletions never strips a surviving blob of its
    sidecar, and leaves at most one orphan sidecar: that of the blob deleted last.
   */
  lemma PartialPlanSafe(es: seq<Entry>, limit: u64, now: u64, grace: u64, k: nat)
    requires Distinct(es) && k <= |Plan(es, limit, now, grace)|
    ensures var done := Plan(es, limit, now, grace)[..k];
            && (forall b | b in es && IsBlob(b.name) && b.name !in done && SidecarName(b.name) in NamesOf(es) ::
                  SidecarName(b.name) !in done)
            && (forall b | NewOrphan(es, done, b) :: k > 0 && b == done[k - 1])
  {
    var done := Plan(es, limit, now, grace)[..k];
    forall b | b in es && IsBlob(b.name) && b.name !in done && SidecarName(b.name) in NamesOf(es)
      ensures SidecarName(b.name) !in done
    {
      SidecarNeverFirst(es, limit, now, grace, k, b);
    }
    forall b | NewOrphan(es, done, b) ensures k > 0 && b == done[k - 1] {
      var e :| e in es && e.name == b;
      OrphanIsLast(es, limit, now, grace, k, e);
    }
  }

  lemma SidecarNeverFirst(es: seq<Entry>, limit: u64, now: u64, grace: u64, k: nat, b: Entry)
    requires Distinct(es) && k <= |Plan(es, limit, now, grace)|
    requires b in es && IsBlob(b.name) && SidecarName(b.name) in NamesOf(es)
    ensures SidecarName(b.name) in Plan(es, limit, now, grace)[..k] ==> b.name in Plan(es, limit, now, grace)[..k]
  {
    var p, sc := Plan(es, limit, now, grace), SidecarName(b.name);
    if sc in p[..k] {
      PlanConserves(es, limit, now, grace);
      PairsTogether(es, limit, now, grace, b);
      var m :| 0 <= m < k && p[..k][m] == sc;
      assert p[m] == sc;
      var i :| Adjacent(p, i, b.name, sc);
      OnceOnly(p, m, i + 1);
      assert p[..k][i] == b.name;
    }
  }

  lemma OrphanIsLast(es: seq<Entry>, limit: u64, now: u64, grace: u64, k: nat, b: Entry)
    requires Distinct(es) && k <= |Plan(es, limit, now, grace)|
    requires b in es && NewOrphan(es, Plan(es, limit, now, grace)[..k], b.name)
    ensures k > 0 && Plan(es, limit, now, grace)[k - 1] == b.name
  {
    var p, sc := Plan(es, limit, now, grace), SidecarName(b.name);
    PlanConserves(es, limit, now, grace);
    PairsTogether(es, limit, now, grace, b);
    var m :| 0 <= m < k && p[..k][m] == b.name;
    assert p[m] == b.name;
    var i :| Adjacent(p, i, b.name, sc);
    OnceOnly(p, m, i);
    assert forall n | 0 <= n < k :: p[..k][n] == p[n];
    assert m + 1 >= k;
  }
}
