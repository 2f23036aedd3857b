/**
  The disk-quota planner: which files of the cache directory to delete, and in
  which order, to bring its size down to the limit.
 */
module Planner {
  import opened Options
  import opened Names

  const U64_LIMIT := 0x1_0000_0000_0000_0000

  type u64 = x: int | 0 <= x < U64_LIMIT

  /** One regular file of the cache directory. */
  datatype Entry = Entry(name: string, len: u64, mtime: u64)

  function Usage(es: seq<Entry>): nat {
    if es == [] then 0 else es[0].len + Usage(es[1..])
  }

  // A directory holds one file of each name.
  ghost predicate Distinct(es: seq<Entry>) {
    forall i, j | 0 <= i < j < |es| :: es[i].name != es[j].name
  }

  function NamesOf(es: seq<Entry>): set<string> {
    set e | e in es :: e.name
  }

  function Find(es: seq<Entry>, name: string): (r: Option<Entry>)
    ensures r.Some? <==> name in NamesOf(es)
    ensures r.Some? ==> r.value in es && r.value.name == name
  {
    if es == [] then None
    else if es[0].name == name then Some(es[0])
    else Find(es[1..], name)
  }

  function LenOf(es: seq<Entry>, name: string): nat {
    match Find(es, name)
    case Some(e) => e.len
    case None => 0
  }

  function Size(files: seq<string>, es: seq<Entry>): nat {
    if files == [] then 0 else LenOf(es, files[0]) + Size(files[1..], es)
  }

  // ------------------------------------------------- classes of files

  predicate IsBlob(name: string) {
    EndsWith(name, BIN)
  }

  /** Nothing live stands behind a junk name. */
  predicate IsJunk(name: string, names: set<string>) {
    if IsBlob(name) then false
    else if EndsWith(name, CKPT) then StripSuffix(name, CKPT) !in names
    else true
  }

  /** What is deleted together: one junk file, or a blob and its sidecar. */
  datatype Unit = Unit(mtime: u64, files: seq<string>)

  function JunkUnits(es: seq<Entry>, names: set<string>): seq<Unit> {
    if es == [] then []
    else if IsJunk(es[0].name, names) then
      [Unit(es[0].mtime, [es[0].name])] + JunkUnits(es[1..], names)
    else JunkUnits(es[1..], names)
  }

  function BlobUnit(b: Entry, es: seq<Entry>): Unit {
    match Find(es, SidecarName(b.name))
    case Some(s) => Unit(if s.mtime > b.mtime then s.mtime else b.mtime, [b.name, s.name])
    case None => Unit(b.mtime, [b.name])
  }

  function BlobUnits(bs: seq<Entry>, es: seq<Entry>): seq<Unit> {
    if bs == [] then []
    else if IsBlob(bs[0].name) then [BlobUnit(bs[0], es)] + BlobUnits(bs[1..], es)
    else BlobUnits(bs[1..], es)
  }

  function Files(us: seq<Unit>): seq<string> {
    if us == [] then [] else us[0].files + Files(us[1..])
  }

  // ---------------------------------------------- the library's stable sort

  function Insert(u: Unit, us: seq<Unit>): seq<Unit> {
    if us == [] then [u]
    else if u.mtime <= us[0].mtime then [u] + us
    else [us[0]] + Insert(u, us[1..])
  }

  /** `sort_by_key`: by mtime, equal keys keep their order. */
  function Sort(us: seq<Unit>): seq<Unit> {
    if us == [] then [] else Insert(us[0], Sort(us[1..]))
  }

  ghost predicate Sorted(us: seq<Unit>) {
    forall i, j | 0 <= i < j < |us| :: us[i].mtime <= us[j].mtime
  }

  // ------------------------------------------------------------ selection

  function SaturatingSub(a: u64, b: u64): u64 {
    if a >= b then a - b else 0
  }

  /** Just written or served: not to be touched. */
  predicate InGrace(u: Unit, now: u64, grace: u64) {
    SaturatingSub(now, u.mtime) < grace
  }

  /**
    One pass: `budget` is the projected usage. Units in grace are skipped one by
    one, as the source's `continue` does.
   */
  function Select(us: seq<Unit>, es: seq<Entry>, budget: int, limit: u64, now: u64, grace: u64): seq<Unit> {
    if us == [] || budget <= limit then []
    else if InGrace(us[0], now, grace) then Select(us[1..], es, budget, limit, now, grace)
    else [us[0]] + Select(us[1..], es, budget - Size(us[0].files, es), limit, now, grace)
  }

  function Junk(es: seq<Entry>): seq<Unit> {
    Sort(JunkUnits(es, NamesOf(es)))
  }

  function Blobs(es: seq<Entry>): seq<Unit> {
    Sort(BlobUnits(es, es))
  }

  function JunkPart(es: seq<Entry>, limit: u64, now: u64, grace: u64): seq<Unit> {
    Select(Junk(es), es, Usage(es), limit, now, grace)
  }

  function BlobPart(es: seq<Entry>, limit: u64, now: u64, grace: u64): seq<Unit> {
    var freed := Size(Files(JunkPart(es, limit, now, grace)), es);
    Select(Blobs(es), es, Usage(es) - freed, limit, now, grace)
  }

  function Plan(es: seq<Entry>, limit: u64, now: u64, grace: u64): seq<string> {
    if Usage(es) <= limit then []
    else Files(JunkPart(es, limit, now, grace)) + Files(BlobPart(es, limit, now, grace))
  }

  /** The files left after deleting `gone`. */
  function Without(es: seq<Entry>, gone: seq<string>): seq<Entry> {
    if es == [] then []
    else if es[0].name in gone then Without(es[1..], gone)
    else [es[0]] + Without(es[1..], gone)
  }

  // ------------------------------------------------------- facts on Files

  lemma FilesCons(u: Unit, us: seq<Unit>)
    ensures Files([u] + us) == u.files + Files(us)
  {
    assert ([u] + us)[1..] == us;
  }

  lemma {:induction false} FilesConcat(a: seq<Unit>, b: seq<Unit>)
    ensures Files(a + b) == Files(a) + Files(b)
  {
    if a == [] {
      assert a + b == b;
    } else {
      assert (a + b)[1..] == a[1..] + b;
      FilesConcat(a[1..], b);
    }
  }

  lemma {:induction false} SizeConcat(a: seq<string>, b: seq<string>, es: seq<Entry>)
    ensures Size(a + b, es) == Size(a, es) + Size(b, es)
  {
    if a == [] {
      assert a + b == b;
    } else {
      assert (a + b)[1..] == a[1..] + b;
      SizeConcat(a[1..], b, es);
    }
  }

  // ------------------------------------------------------- facts on Sort

  lemma {:induction false} InsertMembers(u: Unit, us: seq<Unit>, v: Unit)
    ensures multiset(Insert(u, us))[v] == multiset(us)[v] + if v == u then 1 else 0
  {
    if us != [] && u.mtime > us[0].mtime {
      InsertMembers(u, us[1..], v);
      assert us == [us[0]] + us[1..];
    }
  }

  lemma {:induction false} InsertSorted(u: Unit, us: seq<Unit>)
    requires Sorted(us)
    ensures Sorted(Insert(u, us))
  {
    if us != [] && u.mtime > us[0].mtime {
      InsertSorted(u, us[1..]);
      var r := Insert(u, us[1..]);
      forall j | 0 <= j < |r| ensures us[0].mtime <= r[j].mtime {
        InsertMembers(u, us[1..], r[j]);
        assert multiset(r)[r[j]] > 0;
        if r[j] != u {
          assert r[j] in us[1..];
        }
      }
    }
  }

  lemma {:induction false} InsertFiles(u: Unit, us: seq<Unit>, x: string)
    ensures multiset(Files(Insert(u, us)))[x] == multiset(u.files)[x] + multiset(Files(us))[x]
  {
    if us == [] {
      assert Files([u]) == u.files + Files([]);
    } else if u.mtime <= us[0].mtime {
      assert ([u] + us)[1..] == us;
    } else {
      InsertFiles(u, us[1..], x);
      assert ([us[0]] + Insert(u, us[1..]))[1..] == Insert(u, us[1..]);
    }
  }

  lemma {:induction false} SortSorted(us: seq<Unit>)
    ensures Sorted(Sort(us))
  {
    if us != [] {
      SortSorted(us[1..]);
      InsertSorted(us[0], Sort(us[1..]));
    }
  }

  /** A permutation, unit by unit. */
  lemma {:induction false} SortMembers(us: seq<Unit>, v: Unit)
    ensures multiset(Sort(us))[v] == multiset(us)[v]
    ensures v in Sort(us) <==> v in us
  {
    hide Insert;
    if us != [] {
      SortMembers(us[1..], v);
      InsertMembers(us[0], Sort(us[1..]), v);
      assert us == [us[0]] + us[1..];
    }
    assert v in Sort(us) <==> multiset(Sort(us))[v] > 0;
    assert v in us <==> multiset(us)[v] > 0;
  }

  lemma {:induction false} SortFiles(us: seq<Unit>, x: string)
    ensures multiset(Files(Sort(us)))[x] == multiset(Files(us))[x]
  {
    hide Insert;
    if us != [] {
      SortFiles(us[1..], x);
      InsertFiles(us[0], Sort(us[1..]), x);
    }
  }

  function OfTime(us: seq<Unit>, t: u64): seq<Unit> {
    if us == [] then []
    else if us[0].mtime == t then [us[0]] + OfTime(us[1..], t)
    else OfTime(us[1..], t)
  }

  lemma {:induction false} InsertStable(u: Unit, us: seq<Unit>, t: u64)
    ensures OfTime(Insert(u, us), t) == if u.mtime == t then [u] + OfTime(us, t) else OfTime(us, t)
  {
    if us == [] {
    } else if u.mtime <= us[0].mtime {
      assert ([u] + us)[1..] == us;
    } else {
      InsertStable(u, us[1..], t);
      assert ([us[0]] + Insert(u, us[1..]))[1..] == Insert(u, us[1..]);
    }
  }

  /** Files of one age go in the order the directory scan met them. */
  lemma {:induction false} SortStable(us: seq<Unit>, t: u64)
    ensures OfTime(Sort(us), t) == OfTime(us, t)
  {
    if us != [] {
      SortStable(us[1..], t);
      InsertStable(us[0], Sort(us[1..]), t);
    }
  }

  // ------------------------------------------------ selection is a prefix

  ghost predicate StopsAt(us: seq<Unit>, k: nat, es: seq<Entry>, budget: int, limit: u64, now: u64, grace: u64) {
    && k <= |us|
    && (forall i | 0 <= i < k ::
          !InGrace(us[i], now, grace) && budget - Size(Files(us[..i]), es) > limit)
    && (k < |us| ==> InGrace(us[k], now, grace) || budget - Size(Files(us[..k]), es) <= limit)
  }

  lemma {:induction false} SelectNoneInGrace(
      us: seq<Unit>, es: seq<Entry>, budget: int, limit: u64, now: u64, grace: u64)
    requires forall i | 0 <= i < |us| :: InGrace(us[i], now, grace)
    ensures Select(us, es, budget, limit, now, grace) == []
  {
    if us != [] {
      SelectNoneInGrace(us[1..], es, budget, limit, now, grace);
    }
  }

  lemma PrefixSize(us: seq<Unit>, i: nat, es: seq<Entry>)
    requires 0 < i <= |us|
    ensures Size(Files(us[..i]), es) == Size(us[0].files, es) + Size(Files(us[1..][..i - 1]), es)
  {
    assert us[..i] == [us[0]] + us[1..][..i - 1];
    FilesCons(us[0], us[1..][..i - 1]);
    SizeConcat(us[0].files, Files(us[1..][..i - 1]), es);
  }

  // The first unit is taken, and the rest stops where it does.
  lemma StopsAfter(us: seq<Unit>, k: nat, es: seq<Entry>, budget: int, limit: u64, now: u64, grace: u64)
    requires us != [] && budget > limit && !InGrace(us[0], now, grace)
    requires StopsAt(us[1..], k, es, budget - Size(us[0].files, es), limit, now, grace)
    ensures StopsAt(us, k + 1, es, budget, limit, now, grace)
  {
    hide Select, Sort, Files, Size;
    FilesOfNone();
    forall i | 0 < i <= k + 1
      ensures Size(Files(us[..i]), es) == Size(us[0].files, es) + Size(Files(us[1..][..i - 1]), es)
    {
      PrefixSize(us, i, es);
    }
    assert us[..0] == [];
    assert forall i | 0 < i < |us| :: us[i] == us[1..][i - 1];
    NoBytes(es);
  }

  lemma FilesOfNone()
    ensures Files([]) == []
  {
  }

  lemma NoBytes(es: seq<Entry>)
    ensures Size([], es) == 0
  {
  }

  /**
    On a sorted list the `continue` behaves like a `break`: the pass takes a
    prefix, and exactly the one that the limit and the grace window cut off.
   */
  lemma {:induction false} SelectIsPrefix(
      us: seq<Unit>, es: seq<Entry>, budget: int, limit: u64, now: u64, grace: u64) returns (k: nat)
    requires Sorted(us)
    ensures k <= |us| && Select(us, es, budget, limit, now, grace) == us[..k]
    ensures StopsAt(us, k, es, budget, limit, now, grace)
  {
    if us == [] || budget <= limit {
      k := 0;
      assert us[..0] == [];
    } else if InGrace(us[0], now, grace) {
      k := 0;
      SelectNoneInGrace(us, es, budget, limit, now, grace);
    } else {
      var rest := budget - Size(us[0].files, es);
      var k' := SelectIsPrefix(us[1..], es, rest, limit, now, grace);
      k := k' + 1;
      assert us[..k] == [us[0]] + us[1..][..k'];
      StopsAfter(us, k', es, budget, limit, now, grace);
    }
  }

  // ------------------------------------------- every file is taken once

  function CountName(es: seq<Entry>, name: string): nat {
    if es == [] then 0 else (if es[0].name == name then 1 else 0) + CountName(es[1..], name)
  }

  lemma {:induction false} CountNameAtMostOnce(es: seq<Entry>, name: string)
    requires Distinct(es)
    ensures CountName(es, name) <= 1
    ensures CountName(es, name) == 1 <==> name in NamesOf(es)
  {
    if es != [] {
      CountNameAtMostOnce(es[1..], name);
      forall e | e in es[1..] ensures e.name != es[0].name {
        var i :| 0 <= i < |es[1..]| && es[1..][i] == e;
        assert es[i + 1] == e;
      }
    }
  }

  // The entry a planned file belongs to: a sidecar of a present blob goes with
  // the blob, any other file goes alone.
  function Head(name: string, names: set<string>): string {
    if EndsWith(name, CKPT) && StripSuffix(name, CKPT) in names then StripSuffix(name, CKPT) else name
  }

  lemma {:induction false} JunkUnitsCount(es: seq<Entry>, names: set<string>, x: string)
    ensures multiset(Files(JunkUnits(es, names)))[x] == if IsJunk(x, names) then CountName(es, x) else 0
  {
    if es != [] {
      JunkUnitsCount(es[1..], names, x);
    }
  }

  lemma BlobUnitCount(b: Entry, es: seq<Entry>, x: string)
    requires b in es && IsBlob(b.name)
    ensures multiset(BlobUnit(b, es).files)[x]
         == if x in NamesOf(es) && !IsJunk(x, NamesOf(es)) && Head(x, NamesOf(es)) == b.name then 1 else 0
  {
    var names := NamesOf(es);
    var sc := SidecarName(b.name);
    AppendEndsWith(b.name, CKPT);
    assert b.name in names;
    CkptIsNotBlob(b.name, x);
    CkptIsNotBlob(b.name, b.name);
    if EndsWith(x, CKPT) {
      assert x == SidecarName(StripSuffix(x, CKPT));
    }
    assert b.name != sc;
  }

  lemma CkptIsNotBlob(b: string, x: string)
    ensures IsBlob(x) ==> !EndsWith(x, CKPT)
    ensures x == SidecarName(b) ==> !IsBlob(x)
  {
    if EndsWith(x, BIN) {
      CharFromEnd(x, BIN, 1);
    }
    if EndsWith(x, CKPT) {
      CharFromEnd(x, CKPT, 1);
    }
    AppendEndsWith(b, CKPT);
  }

  lemma {:induction false} BlobUnitsCount(bs: seq<Entry>, es: seq<Entry>, x: string)
    requires forall b | b in bs :: b in es
    ensures multiset(Files(BlobUnits(bs, es)))[x]
         == if x in NamesOf(es) && !IsJunk(x, NamesOf(es)) && IsBlob(Head(x, NamesOf(es)))
            then CountName(bs, Head(x, NamesOf(es))) else 0
  {
    if bs != [] {
      BlobUnitsCount(bs[1..], es, x);
      assert bs[0] in es;
      if IsBlob(bs[0].name) {
        BlobUnitCount(bs[0], es, x);
      }
    }
  }

  /** All units of both passes are pairwise disjoint and name present files. */
  lemma UnitFilesOnce(es: seq<Entry>, x: string)
    requires Distinct(es)
    ensures multiset(Files(Junk(es)))[x] + multiset(Files(Blobs(es)))[x] <= 1
    ensures multiset(Files(Junk(es)))[x] == 1 <==> x in NamesOf(es) && IsJunk(x, NamesOf(es))
    ensures multiset(Files(Blobs(es)))[x] == 1 <==>
            x in NamesOf(es) && !IsJunk(x, NamesOf(es)) && IsBlob(Head(x, NamesOf(es)))
  {
    var names := NamesOf(es);
    SortFiles(JunkUnits(es, names), x);
    SortFiles(BlobUnits(es, es), x);
    JunkUnitsCount(es, names, x);
    BlobUnitsCount(es, es, x);
    CountNameAtMostOnce(es, x);
    CountNameAtMostOnce(es, Head(x, names));
  }

  lemma SelectFilesBounded(
      us: seq<Unit>, es: seq<Entry>, budget: int, limit: u64, now: u64, grace: u64, x: string)
    requires Sorted(us)
    ensures multiset(Files(Select(us, es, budget, limit, now, grace)))[x] <= multiset(Files(us))[x]
  {
    var k := SelectIsPrefix(us, es, budget, limit, now, grace);
    assert us == us[..k] + us[k..];
    FilesConcat(us[..k], us[k..]);
  }

  lemma UnitsSorted(es: seq<Entry>)
    ensures Sorted(Junk(es)) && Sorted(Blobs(es))
  {
    SortSorted(JunkUnits(es, NamesOf(es)));
    SortSorted(BlobUnits(es, es));
  }

  ghost predicate NoDuplicates(files: seq<string>) {
    forall x :: multiset(files)[x] <= 1
  }

  lemma PlannedJunk(es: seq<Entry>, limit: u64, now: u64, grace: u64, x: string)
    requires Distinct(es)
    requires x in Files(JunkPart(es, limit, now, grace))
    ensures x in NamesOf(es) && IsJunk(x, NamesOf(es))
  {
    hide Select, Sort, Size, Usage, Files, Junk, Head;
    assert multiset(Files(JunkPart(es, limit, now, grace)))[x] > 0;
    UnitsSorted(es);
    SelectFilesBounded(Junk(es), es, Usage(es), limit, now, grace, x);
    UnitFilesOnce(es, x);
  }

  lemma PlannedBlob(es: seq<Entry>, limit: u64, now: u64, grace: u64, x: string)
    requires Distinct(es)
    requires x in Files(BlobPart(es, limit, now, grace))
    ensures x in NamesOf(es) && !IsJunk(x, NamesOf(es)) && IsBlob(Head(x, NamesOf(es)))
  {
    hide Select, Sort, Size, Usage, Files, Blobs, Head, JunkPart;
    var freed := Size(Files(JunkPart(es, limit, now, grace)), es);
    assert multiset(Files(BlobPart(es, limit, now, grace)))[x] > 0;
    UnitsSorted(es);
    SelectFilesBounded(Blobs(es), es, Usage(es) - freed, limit, now, grace, x);
    UnitFilesOnce(es, x);
  }

  lemma UnitFileOnce(es: seq<Entry>, x: string)
    requires Distinct(es)
    ensures multiset(Files(Junk(es)))[x] + multiset(Files(Blobs(es)))[x] <= 1
  {
    UnitFilesOnce(es, x);
  }

  lemma PlannedOnce(es: seq<Entry>, limit: u64, now: u64, grace: u64, x: string)
    requires Distinct(es)
    ensures multiset(Files(JunkPart(es, limit, now, grace)))[x]
          + multiset(Files(BlobPart(es, limit, now, grace)))[x] <= 1
  {
    hide Select, Sort, Size, Usage, Files, Junk, Blobs;
    var freed := Size(Files(JunkPart(es, limit, now, grace)), es);
    UnitsSorted(es);
    SelectFilesBounded(Junk(es), es, Usage(es), limit, now, grace, x);
    SelectFilesBounded(Blobs(es), es, Usage(es) - freed, limit, now, grace, x);
    UnitFileOnce(es, x);
  }

  lemma PlanFiles(es: seq<Entry>, limit: u64, now: u64, grace: u64)
    requires Distinct(es)
    ensures NoDuplicates(Files(JunkPart(es, limit, now, grace)) + Files(BlobPart(es, limit, now, grace)))
    ensures forall x | x in Files(JunkPart(es, limit, now, grace)) + Files(BlobPart(es, limit, now, grace)) ::
              x in NamesOf(es)
  {
    var jf, bf := Files(JunkPart(es, limit, now, grace)), Files(BlobPart(es, limit, now, grace));
    forall x
      ensures multiset(jf + bf)[x] <= 1
    {
      PlannedOnce(es, limit, now, grace, x);
    }
    forall x | x in jf + bf ensures x in NamesOf(es) {
      if x in jf {
        PlannedJunk(es, limit, now, grace, x);
      } else {
        PlannedBlob(es, limit, now, grace, x);
      }
    }
  }

  // --------------------------------------------------------- conservation

  lemma {:induction false} LenOfWithout(es: seq<Entry>, gone: seq<string>, name: string)
    ensures Find(Without(es, gone), name) == if name in gone then None else Find(es, name)
  {
    if es != [] {
      LenOfWithout(es[1..], gone, name);
    }
  }

  lemma {:induction false} SizeWithout(files: seq<string>, es: seq<Entry>, name: string)
    requires name !in files
    ensures Size(files, Without(es, [name])) == Size(files, es)
  {
    if files != [] {
      LenOfWithout(es, [name], files[0]);
      SizeWithout(files[1..], es, name);
    }
  }

  lemma {:induction false} WithoutAbsent(es: seq<Entry>, name: string)
    requires name !in NamesOf(es)
    ensures Without(es, [name]) == es
  {
    if es != [] {
      assert es[0].name in NamesOf(es);
      assert NamesOf(es[1..]) <= NamesOf(es);
      WithoutAbsent(es[1..], name);
    }
  }

  lemma {:induction false} UsageWithoutOne(es: seq<Entry>, name: string)
    requires Distinct(es)
    ensures Usage(es) == LenOf(es, name) + Usage(Without(es, [name]))
  {
    if es != [] {
      if es[0].name == name {
        CountNameAtMostOnce(es, name);
        CountNameAtMostOnce(es[1..], name);
        WithoutAbsent(es[1..], name);
      } else {
        UsageWithoutOne(es[1..], name);
      }
    }
  }

  lemma {:induction false} WithoutCons(es: seq<Entry>, name: string, rest: seq<string>)
    ensures Without(es, [name] + rest) == Without(Without(es, [name]), rest)
  {
    if es != [] {
      WithoutCons(es[1..], name, rest);
    }
  }

  lemma {:induction false} WithoutMembers(es: seq<Entry>, gone: seq<string>)
    ensures forall e :: e in Without(es, gone) <==> e in es && e.name !in gone
    ensures NamesOf(Without(es, gone)) == set x | x in NamesOf(es) && x !in gone
    ensures |Without(es, gone)| <= |es|
    ensures (exists e | e in es :: e.name in gone) ==> |Without(es, gone)| < |es|
  {
    if es != [] {
      WithoutMembers(es[1..], gone);
      assert forall e :: e in es <==> e == es[0] || e in es[1..];
    }
  }

  lemma {:induction false} WithoutDistinct(es: seq<Entry>, gone: seq<string>)
    requires Distinct(es)
    ensures Distinct(Without(es, gone))
  {
    if es != [] {
      WithoutDistinct(es[1..], gone);
      WithoutMembers(es[1..], gone);
      var r := Without(es[1..], gone);
      forall j | 0 <= j < |r| ensures r[j].name != es[0].name {
        assert r[j] in es[1..];
      }
    }
  }

  /** Deleting files that exist, each once, frees exactly their sizes. */
  lemma {:induction false} UsageWithout(es: seq<Entry>, gone: seq<string>)
    requires Distinct(es) && NoDuplicates(gone)
    ensures Usage(es) == Size(gone, es) + Usage(Without(es, gone))
    decreases |gone|
  {
    if gone == [] {
      WithoutNothing(es);
    } else {
      var name, rest := gone[0], gone[1..];
      assert gone == [name] + rest;
      assert name !in rest by {
        assert multiset(gone)[name] == 1 + multiset(rest)[name];
        assert multiset(gone)[name] <= 1;
      }
      forall x ensures multiset(rest)[x] <= 1 {
        assert multiset(gone)[x] <= 1;
      }
      UsageWithoutOne(es, name);
      WithoutDistinct(es, [name]);
      UsageWithout(Without(es, [name]), rest);
      WithoutCons(es, name, rest);
      SizeWithout(rest, es, name);
    }
  }

  lemma {:induction false} WithoutNothing(es: seq<Entry>)
    ensures Without(es, []) == es
  {
    if es != [] {
      WithoutNothing(es[1..]);
    }
  }

  lemma PlannedSizeBounded(es: seq<Entry>, limit: u64, now: u64, grace: u64)
    requires Distinct(es)
    ensures Size(Files(JunkPart(es, limit, now, grace)), es) + Size(Files(BlobPart(es, limit, now, grace)), es)
         <= Usage(es)
  {
    var jf, bf := Files(JunkPart(es, limit, now, grace)), Files(BlobPart(es, limit, now, grace));
    PlanFiles(es, limit, now, grace);
    UsageWithout(es, jf + bf);
    SizeConcat(jf, bf, es);
  }

  // ------------------------------------------------------------ the planner

  lemma SelectFrom(us: seq<Unit>, i: nat, es: seq<Entry>, budget: int, limit: u64, now: u64, grace: u64)
    requires i < |us| && budget > limit
    ensures Files(Select(us[i..], es, budget, limit, now, grace))
         == if InGrace(us[i], now, grace) then Files(Select(us[i + 1..], es, budget, limit, now, grace))
            else us[i].files + Files(Select(us[i + 1..], es, budget - Size(us[i].files, es), limit, now, grace))
  {
    assert us[i..][1..] == us[i + 1..];
    if !InGrace(us[i], now, grace) {
      var rest := Select(us[i + 1..], es, budget - Size(us[i].files, es), limit, now, grace);
      assert ([us[i]] + rest)[1..] == rest;
    }
  }

  // What one pass has done when it is about to look at unit `i`.
  ghost predicate PassAt(
      us: seq<Unit>, i: nat, es: seq<Entry>, total: u64, before: u64, limit: u64, now: u64, grace: u64,
      plan: seq<string>, freed: int)
    requires i <= |us|
  {
    var all := Files(Select(us, es, total - before, limit, now, grace));
    var todo := Files(Select(us[i..], es, total - freed, limit, now, grace));
    && plan + todo == all
    && freed == before + Size(plan, es)
    && freed + Size(todo, es) <= total
  }

  lemma ConcatAssociative<T>(a: seq<T>, b: seq<T>, c: seq<T>)
    ensures a + (b + c) == a + b + c
  {
  }

  lemma PassStep(us: seq<Unit>, i: nat, es: seq<Entry>, total: u64, before: u64, limit: u64, now: u64, grace: u64,
                 plan: seq<string>, freed: int)
    requires i < |us| && total - freed > limit
    requires PassAt(us, i, es, total, before, limit, now, grace, plan, freed)
    ensures InGrace(us[i], now, grace) ==>
              PassAt(us, i + 1, es, total, before, limit, now, grace, plan, freed)
    ensures !InGrace(us[i], now, grace) ==>
              && freed + Size(us[i].files, es) <= total
              && PassAt(us, i + 1, es, total, before, limit, now, grace,
                        plan + us[i].files, freed + Size(us[i].files, es))
  {
    SelectFrom(us, i, es, total - freed, limit, now, grace);
    if !InGrace(us[i], now, grace) {
      var files := us[i].files;
      var todo := Files(Select(us[i + 1..], es, total - freed - Size(files, es), limit, now, grace));
      ConcatAssociative(plan, files, todo);
      SizeConcat(files, todo, es);
      SizeConcat(plan, files, es);
    }
  }

  /** One pass over sorted units, with mutable `plan` and `freed`. */
  method Pass(us: seq<Unit>, es: seq<Entry>, total: u64, before: u64, limit: u64, now: u64, grace: u64)
      returns (plan: seq<string>, freed: u64)
    requires before + Size(Files(Select(us, es, total - before, limit, now, grace)), es) <= total
    ensures plan == Files(Select(us, es, total - before, limit, now, grace))
    ensures freed == before + Size(plan, es) && freed <= total
  {
    plan, freed := [], before;
    assert us[0..] == us;
    for i := 0 to |us|
      invariant PassAt(us, i, es, total, before, limit, now, grace, plan, freed)
    {
      var left: u64 := total - freed;
      if left <= limit {
        break;
      }
      PassStep(us, i, es, total, before, limit, now, grace, plan, freed);
      if InGrace(us[i], now, grace) {
        continue;
      }
      plan := plan + us[i].files;
      freed := freed + Size(us[i].files, es);
    }
  }

  /**
    The planner: junk first, then blob units. No subtraction underflows and no
    sum leaves `u64`.
   */
  method PlanEvictions(es: seq<Entry>, limit: u64, now: u64, grace: u64) returns (plan: seq<string>)
    requires Distinct(es) && Usage(es) < U64_LIMIT
    ensures plan == Plan(es, limit, now, grace)
  {
    hide Select, Files, Size, Sort, Usage;
    var total: u64 := Usage(es);
    if total <= limit {
      return [];
    }
    PlannedSizeBounded(es, limit, now, grace);
    var freed: u64;
    plan, freed := Pass(Junk(es), es, total, 0, limit, now, grace);
    var pairs;
    pairs, freed := Pass(Blobs(es), es, total, freed, limit, now, grace);
    plan := plan + pairs;
  }
}
