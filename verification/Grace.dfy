/**
  The quota planner in plain terms: names spelt out, ages compared by addition. A
  file counts as young while fewer than `grace` seconds have gone by since its
  time, and also when its time lies in the future; with a grace of nothing no file
  is young.
 */
module Grace {
  import opened Options
  import opened Names
  import opened Planner
  import opened Quota

  predicate Young(e: Entry, now: u64, grace: u64) {
    0 < grace && now < e.mtime + grace
  }

  ghost predicate NamesBlob(name: string) {
    exists base: string :: name == base + ".bin"
  }

  /** Neither a blob nor the sidecar of a file that is present. */
  ghost predicate NamesJunk(name: string, names: set<string>) {
    !NamesBlob(name) && forall base: string | name == base + ".ckpt" :: base !in names
  }

  // `f` is the blob `b` itself or its sidecar.
  predicate OfPair(b: Entry, f: Entry) {
    f.name == b.name || f.name == b.name + ".ckpt"
  }

  lemma EndsByAppending(name: string, suffix: string)
    ensures EndsWith(name, suffix) <==> exists base: string :: name == base + suffix
    ensures forall base: string | name == base + suffix :: EndsWith(name, suffix) && StripSuffix(name, suffix) == base
  {
    if EndsWith(name, suffix) {
      assert name == StripSuffix(name, suffix) + suffix;
    }
    forall base: string | name == base + suffix
      ensures EndsWith(name, suffix) && StripSuffix(name, suffix) == base
    {
      AppendEndsWith(base, suffix);
    }
  }

  lemma BlobPlainly(name: string)
    ensures IsBlob(name) <==> NamesBlob(name)
  {
    EndsByAppending(name, ".bin");
  }

  lemma JunkPlainly(name: string, names: set<string>)
    ensures IsJunk(name, names) <==> NamesJunk(name, names)
  {
    BlobPlainly(name);
    EndsByAppending(name, ".ckpt");
    if EndsWith(name, CKPT) {
      assert name == StripSuffix(name, CKPT) + ".ckpt";
    }
  }

  lemma InGracePlainly(u: Unit, now: u64, grace: u64)
    ensures InGrace(u, now, grace) <==> 0 < grace && now < u.mtime + grace
  {
  }

  lemma BytesOf(es: seq<Entry>, e: Entry)
    requires Distinct(es) && e in es
    ensures LenOf(es, e.name) == e.len && Find(es, e.name) == Some(e)
  {
    assert e.name in NamesOf(es);
    EntryByName(es, e, Find(es, e.name).value);
  }

  /** Usage is the sum of the sizes, however the listing is cut. */
  lemma {:induction false} UsageAdds(a: seq<Entry>, b: seq<Entry>, e: Entry)
    ensures Usage(a + b) == Usage(a) + Usage(b) && Usage([e]) == e.len && Usage([]) == 0
  {
    if a == [] {
      assert a + b == b;
    } else {
      assert (a + b)[1..] == a[1..] + b;
      UsageAdds(a[1..], b, e);
    }
    assert [e][1..] == [];
  }

  // The age of a unit is that of its younger file.
  lemma UnitAge(es: seq<Entry>, b: Entry) returns (f: Entry)
    requires Distinct(es) && b in es
    ensures f in es && OfPair(b, f) && BlobUnit(b, es).mtime == f.mtime
    ensures forall g | g in es && OfPair(b, g) :: g.mtime <= f.mtime
  {
    var sc := Find(es, SidecarName(b.name));
    f := if sc.Some? && sc.value.mtime > b.mtime then sc.value else b;
    forall g | g in es && OfPair(b, g) ensures g.mtime <= f.mtime {
      if g.name == b.name {
        EntryByName(es, g, b);
      } else {
        assert g.name in NamesOf(es);
        EntryByName(es, g, sc.value);
      }
    }
  }

  // What the plan names is past its grace window.
  lemma PlannedIsOld(es: seq<Entry>, limit: u64, now: u64, grace: u64, e: Entry)
    requires Distinct(es) && e in es
    ensures IsJunk(e.name, NamesOf(es)) && e.name in Plan(es, limit, now, grace) ==> !Young(e, now, grace)
    ensures IsBlob(e.name)
            && (e.name in Plan(es, limit, now, grace) || SidecarName(e.name) in Plan(es, limit, now, grace)) ==>
              !InGrace(BlobUnit(e, es), now, grace)
  {
    hide Select, Sort, Usage, Size;
    var p := Plan(es, limit, now, grace);
    if Usage(es) > limit {
      var j, b := PlanShape(es, limit, now, grace);
      if IsJunk(e.name, NamesOf(es)) && e.name in p {
        if e.name in Files(BlobPart(es, limit, now, grace)) {
          PlannedBlob(es, limit, now, grace, e.name);
          assert false;
        }
        PlannedJunkUnit(es, limit, now, grace, e, j);
        TakenIsOld(Junk(es), j, Unit(e.mtime, [e.name]), es, Usage(es), limit, now, grace);
      }
      if IsBlob(e.name) && (e.name in p || SidecarName(e.name) in p) {
        PlannedPairIsOld(es, limit, now, grace, e, j, b);
      }
    }
  }

  lemma TakenIsOld(us: seq<Unit>, k: nat, u: Unit, es: seq<Entry>, budget: int, limit: u64, now: u64, grace: u64)
    requires StopsAt(us, k, es, budget, limit, now, grace) && u in us[..k]
    ensures !InGrace(u, now, grace)
  {
    var i :| 0 <= i < k && us[..k][i] == u;
    assert us[i] == u;
  }

  lemma PairIsNotJunk(es: seq<Entry>, b: Entry)
    requires b in es && IsBlob(b.name)
    ensures !IsJunk(b.name, NamesOf(es)) && !IsJunk(SidecarName(b.name), NamesOf(es))
  {
    CkptIsNotBlob(b.name, SidecarName(b.name));
    AppendEndsWith(b.name, CKPT);
    assert b.name in NamesOf(es);
  }

  lemma PlannedPairIsOld(es: seq<Entry>, limit: u64, now: u64, grace: u64, e: Entry, j: nat, b: nat)
    requires Distinct(es) && e in es && IsBlob(e.name) && Usage(es) > limit
    requires e.name in Plan(es, limit, now, grace) || SidecarName(e.name) in Plan(es, limit, now, grace)
    requires j <= |Junk(es)| && b <= |Blobs(es)|
    requires Plan(es, limit, now, grace) == Files(Junk(es)[..j]) + Files(Blobs(es)[..b])
    requires StopsAt(Blobs(es), b, es, Usage(es) - Size(Files(Junk(es)[..j]), es), limit, now, grace)
    requires JunkPart(es, limit, now, grace) == Junk(es)[..j]
    ensures !InGrace(BlobUnit(e, es), now, grace)
  {
    hide Select, Sort, Usage, Size, BlobUnit, IsJunk, IsBlob, SidecarName, Files, NamesOf;
    var x := if e.name in Plan(es, limit, now, grace) then e.name else SidecarName(e.name);
    PairIsNotJunk(es, e);
    if x in Files(JunkPart(es, limit, now, grace)) {
      PlannedJunk(es, limit, now, grace, x);
      assert false;
    }
    PlannedBlobUnit(es, e, x, b);
    TakenIsOld(Blobs(es), b, BlobUnit(e, es), es, Usage(es) - Size(Files(Junk(es)[..j]), es), limit, now, grace);
  }

  /** A young junk file is never planned. */
  lemma YoungJunkStays(es: seq<Entry>, limit: u64, now: u64, grace: u64, e: Entry)
    requires Distinct(es) && e in es && NamesJunk(e.name, NamesOf(es)) && Young(e, now, grace)
    ensures e.name !in Plan(es, limit, now, grace)
  {
    hide Plan;
    JunkPlainly(e.name, NamesOf(es));
    PlannedIsOld(es, limit, now, grace, e);
  }

  /** Neither file of a pair is planned while either is young. */
  lemma YoungPairStays(es: seq<Entry>, limit: u64, now: u64, grace: u64, b: Entry, f: Entry)
    requires Distinct(es) && b in es && f in es && NamesBlob(b.name) && OfPair(b, f) && Young(f, now, grace)
    ensures b.name !in Plan(es, limit, now, grace) && b.name + ".ckpt" !in Plan(es, limit, now, grace)
  {
    hide Plan;
    BlobPlainly(b.name);
    var younger := UnitAge(es, b);
    InGracePlainly(BlobUnit(b, es), now, grace);
    PlannedIsOld(es, limit, now, grace, b);
  }

  /**
    What stays while usage is over the limit is young: a junk file itself, a blob
    or its sidecar.
   */
  lemma KeptIsYoung(es: seq<Entry>, limit: u64, now: u64, grace: u64, e: Entry)
    requires Distinct(es) && e in Without(es, Plan(es, limit, now, grace))
    requires Usage(Without(es, Plan(es, limit, now, grace))) > limit
    ensures NamesJunk(e.name, NamesOf(es)) ==> Young(e, now, grace)
    ensures NamesBlob(e.name) ==> exists f | f in es :: OfPair(e, f) && Young(f, now, grace)
  {
    hide Plan, Usage;
    PlanComplete(es, limit, now, grace);
    WithoutMembers(es, Plan(es, limit, now, grace));
    JunkPlainly(e.name, NamesOf(es));
    BlobPlainly(e.name);
    if NamesBlob(e.name) {
      var f := UnitAge(es, e);
      InGracePlainly(BlobUnit(e, es), now, grace);
      assert OfPair(e, f) && Young(f, now, grace);
    }
  }

  /** Of two pairs the one planned has no file younger than the younger of the one kept. */
  lemma OldestPairFirst(es: seq<Entry>, limit: u64, now: u64, grace: u64, gone: Entry, kept: Entry) returns (f: Entry)
    requires Distinct(es) && gone in es && kept in es && NamesBlob(gone.name) && NamesBlob(kept.name)
    requires gone.name in Plan(es, limit, now, grace) && kept.name !in Plan(es, limit, now, grace)
    ensures f in es && OfPair(kept, f)
    ensures forall g | g in es && OfPair(gone, g) :: g.mtime <= f.mtime
  {
    hide Plan;
    BlobPlainly(gone.name);
    BlobPlainly(kept.name);
    PlanOldestFirst(es, limit, now, grace, gone, kept);
    f := UnitAge(es, kept);
    var g := UnitAge(es, gone);
  }

  /** A planned junk file is no younger than a kept one. */
  lemma OldestJunkFirst(es: seq<Entry>, limit: u64, now: u64, grace: u64, gone: Entry, kept: Entry)
    requires Distinct(es) && gone in es && kept in es
    requires NamesJunk(gone.name, NamesOf(es)) && NamesJunk(kept.name, NamesOf(es))
    requires gone.name in Plan(es, limit, now, grace) && kept.name !in Plan(es, limit, now, grace)
    ensures gone.mtime <= kept.mtime
  {
    hide Plan;
    JunkPlainly(gone.name, NamesOf(es));
    JunkPlainly(kept.name, NamesOf(es));
    PlanOldestFirst(es, limit, now, grace, gone, kept);
  }
}
