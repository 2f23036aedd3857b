/**
  The cache directory and `enforce_limit`: scan every regular file, plan, then
  delete one file at a time; a deletion may fail and is then only logged.
 */
module CacheDir {
  import opened Options
  import opened Planner
  import Grace

  const GRACE_SECS: u64 := 60

  datatype Meta = Meta(len: u64, mtime: u64)

  // The entries a scan yields when the directory lists its files in this order.
  function Scan(files: map<string, Meta>, listing: seq<string>): seq<Entry>
    requires forall x | x in listing :: x in files
  {
    if listing == [] then []
    else [Entry(listing[0], files[listing[0]].len, files[listing[0]].mtime)] + Scan(files, listing[1..])
  }

  ghost predicate IsListing(files: map<string, Meta>, listing: seq<string>) {
    && (forall x :: x in listing <==> x in files)
    && (forall i, j | 0 <= i < j < |listing| :: listing[i] != listing[j])
  }

  lemma {:induction false} ScanFacts(files: map<string, Meta>, listing: seq<string>)
    requires forall x | x in listing :: x in files
    ensures |Scan(files, listing)| == |listing|
    ensures forall i | 0 <= i < |listing| ::
              Scan(files, listing)[i] == Entry(listing[i], files[listing[i]].len, files[listing[i]].mtime)
  {
    if listing != [] {
      ScanFacts(files, listing[1..]);
    }
  }

  lemma ScanDistinct(files: map<string, Meta>, listing: seq<string>)
    requires IsListing(files, listing)
    ensures Distinct(Scan(files, listing))
  {
    ScanFacts(files, listing);
  }

  /** Written or served less than a minute ago, or with a time yet to come. */
  predicate Recent(meta: Meta, now: u64) {
    now < meta.mtime + 60
  }

  // What a minute's grace protects: recent junk, and both files of a pair of which
  // one is recent.
  ghost predicate Protected(files: map<string, Meta>, x: string, now: u64) {
    && x in files
    && (|| (Grace.NamesJunk(x, files.Keys) && Recent(files[x], now))
        || (exists b, f | b in files && f in files :: ProtectsPair(files, x, b, f, now)))
  }

  ghost predicate ProtectsPair(files: map<string, Meta>, x: string, b: string, f: string, now: u64)
    requires f in files
  {
    && Grace.NamesBlob(b) && x in {b, b + ".ckpt"} && f in {b, b + ".ckpt"} && Recent(files[f], now)
  }

  lemma ScanEntry(files: map<string, Meta>, listing: seq<string>, x: string)
    requires IsListing(files, listing) && x in files
    ensures Entry(x, files[x].len, files[x].mtime) in Scan(files, listing)
    ensures NamesOf(Scan(files, listing)) == files.Keys
  {
    ScanFacts(files, listing);
    var es := Scan(files, listing);
    forall y ensures y in NamesOf(es) <==> y in files.Keys {
      if y in files {
        var i :| 0 <= i < |listing| && listing[i] == y;
        assert es[i].name == y;
      }
    }
    var i :| 0 <= i < |listing| && listing[i] == x;
    assert es[i] == Entry(x, files[x].len, files[x].mtime);
  }

  /** The plan for a directory names nothing that a minute's grace protects. */
  lemma ProtectedStays(files: map<string, Meta>, listing: seq<string>, limit: u64, now: u64, x: string)
    requires IsListing(files, listing) && Protected(files, x, now)
    ensures x !in Plan(Scan(files, listing), limit, now, 60)
  {
    hide Plan, Scan;
    ScanDistinct(files, listing);
    var es := Scan(files, listing);
    ScanEntry(files, listing, x);
    if Grace.NamesJunk(x, files.Keys) && Recent(files[x], now) {
      Grace.YoungJunkStays(es, limit, now, 60, Entry(x, files[x].len, files[x].mtime));
    } else {
      var b, f :| b in files && f in files && ProtectsPair(files, x, b, f, now);
      ScanEntry(files, listing, b);
      ScanEntry(files, listing, f);
      Grace.YoungPairStays(es, limit, now, 60, Entry(b, files[b].len, files[b].mtime),
                           Entry(f, files[f].len, files[f].mtime));
    }
  }

  ghost predicate KeptFairly(files: map<string, Meta>, x: string, now: u64)
    requires x in files
  {
    && (Grace.NamesJunk(x, files.Keys) ==> Recent(files[x], now))
    && (Grace.NamesBlob(x) ==> exists f | f in files && f in {x, x + ".ckpt"} :: Recent(files[f], now))
  }

  /** What the plan leaves, while usage stays over the limit, is recent. */
  lemma KeptIsRecent(files: map<string, Meta>, listing: seq<string>, limit: u64, now: u64, x: string)
    requires IsListing(files, listing) && x in files && x !in Plan(Scan(files, listing), limit, now, 60)
    requires Usage(Without(Scan(files, listing), Plan(Scan(files, listing), limit, now, 60))) > limit
    ensures KeptFairly(files, x, now)
  {
    hide Plan, Scan, Usage;
    ScanDistinct(files, listing);
    var es := Scan(files, listing);
    ScanEntry(files, listing, x);
    var e := Entry(x, files[x].len, files[x].mtime);
    WithoutMembers(es, Plan(es, limit, now, 60));
    Grace.KeptIsYoung(es, limit, now, 60, e);
    if Grace.NamesBlob(x) {
      var f :| f in es && Grace.OfPair(e, f) && Grace.Young(f, now, 60);
      EntryOfScan(files, listing, f);
      assert Recent(files[f.name], now);
    }
  }

  lemma EntryOfScan(files: map<string, Meta>, listing: seq<string>, e: Entry)
    requires IsListing(files, listing) && e in Scan(files, listing)
    ensures e.name in files && e == Entry(e.name, files[e.name].len, files[e.name].mtime)
  {
    ScanFacts(files, listing);
  }

  function Remaining(listing: seq<string>, gone: seq<string>): seq<string> {
    if listing == [] then []
    else if listing[0] in gone then Remaining(listing[1..], gone)
    else [listing[0]] + Remaining(listing[1..], gone)
  }

  lemma {:induction false} RemainingMembers(listing: seq<string>, gone: seq<string>)
    ensures forall x :: x in Remaining(listing, gone) <==> x in listing && x !in gone
  {
    if listing != [] {
      RemainingMembers(listing[1..], gone);
      assert forall x :: x in listing <==> x == listing[0] || x in listing[1..];
    }
  }

  /** Scanning after the deletions finds exactly the planner's survivors. */
  lemma {:induction false} ScanAfter(
      files: map<string, Meta>, left: map<string, Meta>, listing: seq<string>, gone: seq<string>)
    requires forall x | x in listing :: x in files
    requires forall x | x in listing && x !in gone :: x in left && left[x] == files[x]
    ensures forall x | x in Remaining(listing, gone) :: x in left
    ensures Scan(left, Remaining(listing, gone)) == Without(Scan(files, listing), gone)
  {
    RemainingMembers(listing, gone);
    if listing != [] {
      RemainingMembers(listing[1..], gone);
      ScanAfter(files, left, listing[1..], gone);
      var e := Entry(listing[0], files[listing[0]].len, files[listing[0]].mtime);
      assert Scan(files, listing)[1..] == Scan(files, listing[1..]);
      if listing[0] !in gone {
        assert Remaining(listing, gone)[1..] == Remaining(listing[1..], gone);
      }
    }
  }

  class Dir {
    var files: map<string, Meta>

    constructor ()
      ensures files == map[]
    {
      files := map[];
    }

    method List(listing: seq<string>) returns (entries: seq<Entry>)
      requires forall x | x in listing :: x in files
      ensures entries == Scan(files, listing)
    {
      entries := [];
      for i := 0 to |listing|
        invariant entries == Scan(files, listing[..i])
      {
        var meta := files[listing[i]];
        entries := entries + [Entry(listing[i], meta.len, meta.mtime)];
        ScanAppend(files, listing, i);
      }
      assert listing[..|listing|] == listing;
    }

    // One file at a time; a file that is stuck is passed over.
    method DeleteAll(plan: seq<string>, stuck: set<string>)
      modifies this
      ensures files.Keys <= old(files.Keys)
      ensures forall x | x in old(files) :: x in files <==> x in stuck || x !in plan
      ensures forall x | x in files :: files[x] == old(files)[x]
    {
      var dir := files;
      for k := 0 to |plan|
        invariant files.Keys <= dir.Keys
        invariant forall x | x in dir :: x in files <==> x in stuck || x !in plan[..k]
        invariant forall x | x in files :: files[x] == dir[x]
      {
        if plan[k] !in stuck {
          files := files - {plan[k]};
        }
        assert plan[..k + 1] == plan[..k] + [plan[k]];
      }
      assert plan[..|plan|] == plan;
    }

    /**
      `stuck` are the files whose deletion fails. What the plan names and is not
      stuck goes, nothing else does.
     */
    method EnforceLimit(listing: seq<string>, limit: u64, now: u64, stuck: set<string>)
      requires IsListing(files, listing) && Usage(Scan(files, listing)) < U64_LIMIT
      modifies this
      ensures files.Keys <= old(files.Keys)
      ensures forall x | x in old(files) ::
                x in files <==> x in stuck || x !in Plan(old(Scan(files, listing)), limit, now, GRACE_SECS)
      ensures forall x | x in files :: files[x] == old(files)[x]
      ensures forall x | Protected(old(files), x, now) :: x in files
      ensures stuck == {} ==>
                var plan := Plan(old(Scan(files, listing)), limit, now, GRACE_SECS);
                && (forall x | x in Remaining(listing, plan) :: x in files)
                && Scan(files, Remaining(listing, plan)) == Without(old(Scan(files, listing)), plan)
                && (Usage(Scan(files, Remaining(listing, plan))) > limit ==>
                      forall x | x in files && x in old(files) :: KeptFairly(old(files), x, now))
    {
      hide Plan, Usage, Scan, Without, Remaining;
      var dir := files;
      var entries := List(listing);
      ScanDistinct(dir, listing);
      var plan := PlanEvictions(entries, limit, now, GRACE_SECS);
      DeleteAll(plan, stuck);
      forall x | Protected(dir, x, now) ensures x in files {
        ProtectedStays(dir, listing, limit, now, x);
      }
      if stuck == {} {
        ScanAfter(dir, files, listing, plan);
        if Usage(Without(entries, plan)) > limit {
          forall x | x in files && x in dir ensures KeptFairly(dir, x, now) {
            KeptIsRecent(dir, listing, limit, now, x);
          }
        }
      }
    }
  }

  lemma ScanAppend(files: map<string, Meta>, listing: seq<string>, i: nat)
    requires i < |listing| && forall x | x in listing :: x in files
    ensures Scan(files, listing[..i + 1])
         == Scan(files, listing[..i]) + [Entry(listing[i], files[listing[i]].len, files[listing[i]].mtime)]
  {
    ScanFacts(files, listing[..i + 1]);
    ScanFacts(files, listing[..i]);
  }
}
