# A verified model of oLLM

oLLM is a proxy in front of a llama.cpp server. It decides which of the server's
slots serves which conversation, publishes a slot's KV cache to disk as a file
(a *blob*), restores it later, and deletes old files when the cache directory is
over its quota. This project models those decisions in Dafny and proves what they
keep, in every run and for every answer of the backend, the file system and the
client.

`dafny verify dfyconfig.toml` checks everything.

## Modules

| file | what it holds |
|---|---|
| `Names.dfy` | the header sanitiser, blob, scratch and sidecar names |
| `Positions.dfy` | increasing lists of positions in a text or a list |
| `Keys.dfy` | session keys and seed-family keys, as a hash of an encoding |
| `Planner.dfy` | the quota planner: specification and the two-pass loops |
| `Quota.dfy` | conservation, completeness, minimality, LRU order, pairs |
| `Grace.dfy` | the planner told file by file: suffixes, ages and the grace window in plain arithmetic |
| `Convergence.dfy` | plan-then-delete repeated until it settles |
| `CacheDir.dfy` | the directory and `enforce_limit` |
| `Registry.dfy` | the slot registry, admission and turn end: functions, and the `App` object that updates its fields in place |
| `AdmissionFacts.dfy` | what one admission does, and exactly when it goes which way |
| `Turns.dfy`, `TurnWitness.dfy` | whole runs, one turn at a time |
| `Steps.dfy` | the same protocol in small steps: gate, mutex, inodes, crash |
| `GateTheorems.dfy`, `EvictionTheorems.dfy`, `EvictionHistory.dfy`, `DispatchHistory.dfy`, `BlobTheorems.dfy`, `Durability.dfy`, `PublishEffect.dfy` | locks, eviction, dispatch, crash safety and durability of the small steps |
| `SoloAdmission.dfy`, `SoloRuns.dfy`, `SoloRequest.dfy` | the two grains agree on a request that runs undisturbed |
| `SerialAdmission.dfy`, `SerialMarks.dfy` | when the small steps have slot exclusion, and what the dirty marks are then worth |
| `OneSlot.dfy`, `AdmissionRace.dfy`, `LatePublish.dfy`, `DroppedPublish.dfy`, `StaleSidecar.dfy` | runs of the small steps that show what goes wrong otherwise |
| `Seed.dfy`, `SeedCalls.dfy`, `SeedRuns.dfy`, `SeedGate.dfy` | the seed dance: one call, calls in sequence, calls that overlap, and its slot gate |

## Two grains

The admission and publish protocol is modelled twice.

*Small steps* (`Steps`): every critical section of the gate or of the registry's
mutex, every backend call and every file-system call is one step; any number of
requests interleave, a handler may be dropped where it waits in its admission, and
a crash may come after any step. Gate exclusion, progress, torn-blob freedom and
durability are proved here of every run. Save-before-steal is proved of every run
for a slot taken by eviction (`EvictionHistory`). That a mark never falls on
another session's dirty slot is false in general
(`AdmissionRace.DirtySlotIsTaken`); it holds where admissions overlap neither each
other nor a claim (`SerialMarks.NeverMarkedOverDirty`).

*Turns* (`Turns`): admission, from lookup to dispatch, is one step, and so is the
end of a turn. Slot exclusion, isolation and "no completed turn is lost" are
proved here. That these steps are atomic is an assumption: the code releases the
gate before it marks the slot, as docs/REVIEW-2026-09-30.md:54 records, and it
puts a session back on its slot some time after the response has ended.

In small steps slot exclusion is false, for two reasons, each with a run and with
honest reports: two admissions overlap (`AdmissionRace.TwoSessionsOnOneSlot`), or
an admission takes by eviction a slot whose last request has ended and not yet
claimed it (`AdmissionRace.TwoSessionsAfterLateClaim`).
`SerialAdmission.SerialExclusion` proves it for every run with neither overlap.

Even then a session can lose its turn: a request whose turn has ended publishes its
slot late, when another session has it, and calls that session's slot clean
(`LatePublish.LatePublishLosesTurn`). Where admissions overlap nothing of a turn's
end, its publish included, and a session runs one turn at a time,
`SerialMarks.ServedIsMarked` proves that a slot being served is labelled with its
session, dirty, and served to nobody else.

The grains agree on a request whose small steps are not interleaved with others.
`SoloRequest.EverySoloRequest`: every such request, from its arrival to its end, is
an admission, a dispatch and a turn's end of the turn functions, for exactly the
answers it heard on its way, registry and blob contents alike; a refused dispatch
ends it there. `SoloAdmission`: every answer of the environment has such a way.

## Assumptions

- Turns: the backend reports a slot that serves a steered turn as processing, and
  an unsteered request never lands on a slot that carries a session.
- Small steps: the backend answers Ok to a save only when the scratch file is
  written in full; it does not write to it afterwards; no save outlives a crash.
  No handler is dropped while its eviction's publish holds the gate: dropping it
  gives the gate up (src/lib.rs:335) while the save, or the blocking part that
  syncs and renames (src/lib.rs:352-365), goes on. `DroppedPublish` models the
  latter: harmless after the rename, but before it a torn blob can be shown.
  After a crash the directory is one of the states it went through since its last
  successful sync; a file that was not synced may hold anything.
- The gate serves its waiters in order, a writer alone, readers together.
- A restore that fails leaves the slot's content as it was.
- The digest of keys is an arbitrary function; where two keys are claimed
  different, that it does not collide on the two inputs is a hypothesis. Serialised JSON
  contains no zero byte (section 7 of RFC 8259).
- A directory holds one file of each name, and the bytes of all its files fit in
  64 bits.
- The backend, the publisher, the client, the iteration order of the registry's
  hash map, the clock and the file times are parameters: a function's arguments or
  the choices an event carries.

## What the code does against its own text

- When the backend refuses a request (src/lib.rs:520-537) the slot stays labelled
  and dirty. The session's newest state is still where it belongs exactly when the
  backend had not begun and the slot was the session's own, or was restored, or
  held that state already (`Turns.RejectedKeepsExactly`). Otherwise the next
  eviction can overwrite the session's newest blob
  (`Turns.RejectedCanCostNewest`), and, as `TurnWitness` shows, with another
  session's state. The turn theorems ask for sessions to which this has not
  happened, and whose other turns ended normally and one at a time.
- src/lib.rs:359 syncs the directory for durability of the index, and discards the
  result. When that sync fails the slot is marked clean all the same, and a crash
  may then bring back a directory without the new blob
  (`Durability.SurvivesExactlyWhenSynced`).
- src/seed.rs:189 says that a failed save leaves the family uncached; the code
  marks it failed (src/seed.rs:302-317), and so does the model. The two come to
  the same at the next sight of the family.
- src/seed.rs:9-10 says a cached family is only ever restored. That holds of calls
  that do not overlap (`SeedCalls.SeededForGood`). With overlapping calls it holds
  from a given state on exactly when no call for the family is past its look at the
  bag and not yet done (`SeedRuns.CachedForGoodExactlyWhen`);
  `SeedRuns.CachedCanBeLost` is a run in which a late failure takes the mark away.
- README.md:105 says the pump drains the stream when a client disconnects; the
  code drops the stream and abandons the slot (src/lib.rs:565-574 and 601-612).
- src/lib.rs:604-606 says a half-written turn is not published. After a client's
  disconnect it is not, and the session then keeps its newest state exactly when
  that is on disk, or was until the quota removed it (`Turns.HangUpKeepsExactly`).
  After a stream that breaks off the next eviction can publish it
  (`Turns.BrokenTurnIsPublished`), and a non-streamed body that breaks off is
  published at once (`Turns.CutOffNeverKeeps`), over the newest blob.
- src/lib.rs:166-168 says the forest only ever holds complete blobs. When the client
  of an evicting request goes away between the end of the save and the rename, a
  later save of the same session may be renamed half-written
  (`DroppedPublish.EarlyDropShowsTorn`).
- One call of the planner may stop over the limit although a file past its grace
  window could go: `x.save.ckpt` becomes junk only once `x.save` is deleted.
  `Convergence.OneRoundSuffices` says exactly when one call is enough.
- A new blob can stand beside an older save's sidecar. `PublishEffect.OldSidecarExactlyWhen`
  says exactly when: one was published and its rename fails or there is none to
  rename, or this save writes none and an earlier failed one left its scratch
  sidecar behind; `StaleSidecar.OldSidecarRidesAlong` is a run to the latter.

## Model

| member | source | states |
|---|---|---|
| Names.Sanitize | src/lib.rs:94-113 | the loop of repeated, non-overlapping replacements of ".." ends, and computes the closed form: map the characters, collapse each run of dots to one in a single pass, cut at 96, "session" for nothing |
| Names.CollapseIgnoresReplace | src/lib.rs:105-107 | one round of replacement does not change what the runs of dots collapse to |
| Names.SanitizeIsSafe | src/lib.rs:94-113 | every sanitised header is 1 to 96 characters of the allowed alphabet without ".." |
| Names.SanitizeFixpoints | src/lib.rs:94-113 | a header is left unchanged exactly when it is already safe |
| Names.SanitizeIdempotent | src/lib.rs:94-113 | sanitising twice is sanitising once |
| Names.SanitizeText | src/lib.rs:94-113 | a sanitised header position by position: the characters kept are those not followed by a second dot, letters, digits, '.', '_' and '-' as they were and '-' for anything else, at most 96 of them; the empty header gives "session" |
| Names.SanitizeShortText | src/lib.rs:97-104 | a header of at most 96 characters without ".." keeps its length, each character in its place, kept or turned into '-' |
| Names.ReplaceRun | src/lib.rs:105-107 | one round of replacement halves each run of dots, rounding up, and leaves the rest |
| Names.BlobNameInjective | src/lib.rs:260-265 | for signatures of one length, a blob name comes from one session and one signature |
| Names.FileNameInjective | src/lib.rs:260-265 | blob, scratch, sidecar and scratch sidecar of all sessions are pairwise different names |
| Keys.DecodeEncode | src/lib.rs:132-138 | the bytes fed to the hash decode back to the list of system messages |
| Keys.EncodeInjective | src/seed.rs:165-169 | equal hash inputs come from equal lists of system messages |
| Keys.KeysAreSticky | src/lib.rs:124-139 | however a conversation's other messages are inserted, removed or moved, over any number of turns, both keys stay the same |
| Keys.KeysIsolate | src/lib.rs:132-139 | unless the digest collides on their two inputs, two header-less requests share a session, and two requests a family, exactly when their system messages are the same list |
| Keys.KeysCompareMessages | src/lib.rs:132-138 | for requests whose system messages stand at the listed positions, both keys agree exactly when there are as many and the serialised messages there are equal one by one, short of a collision on the bytes hashed |
| Keys.KeysCompareSystemLists | src/seed.rs:156-171 | requests of system messages only share a session exactly when they are equally long with the same bytes at each index |
| Keys.HeaderNeverMeetsFallback | src/lib.rs:118-123 | two requests, one with a header, share a session exactly when both have one and they sanitise alike |
| Keys.PlainHeaderNames | src/lib.rs:260-262 | a header already in the allowed alphabet is found again, unchanged, in the names of its session's four files |
| Keys.SeedNamesApart | src/seed.rs:176-178 | no family's blob name is any session's blob name |
| Planner.PlanEvictions | src/lib.rs:1003-1075 | the two loops with `plan` and `freed` compute the specified plan, on sums and differences that stay within 64 bits |
| Planner.Pass | src/lib.rs:1033-1042 | one loop with break and continue returns the selected files and exactly their bytes added to `freed`, which never exceeds the total, so the subtraction in its guard never underflows |
| Planner.SortStable | src/lib.rs:1032 | sorting keeps the scan order of files of equal age |
| Planner.SortSorted | src/lib.rs:1060 | sorting orders the units by age |
| Planner.SortMembers | src/lib.rs:1060 | sorting keeps each unit exactly as often as before |
| Planner.SelectIsPrefix | src/lib.rs:1033-1042 | skipping what is in grace acts as stopping: a pass takes a prefix of its sorted units, each past its grace window and taken while usage was over the limit, and the cut is forced |
| Planner.UnitFilesOnce | src/lib.rs:1014-1059 | all units of both passes are disjoint: a file is in one junk unit exactly when it is junk, in one blob unit exactly when it is a blob or the sidecar of one present |
| Planner.UsageWithout | src/lib.rs:992-994 | deleting present files once each lowers usage by exactly their sizes |
| Planner.PlannedSizeBounded | src/lib.rs:1034 | the bytes of both passes together never exceed the total |
| Quota.PlanShape | src/lib.rs:1009-1074 | the plan is a prefix of the junk by age, then a prefix of the blob units by age, both cut where the limit or the grace window says |
| Quota.PlanConserves | src/lib.rs:1009-1074 | the plan has no duplicate and names only present files; usage after it is usage before less the planned bytes |
| Quota.PlanComplete | src/lib.rs:1033-1073 | after the plan usage is within the limit, or every junk file and blob unit left is in its grace window |
| Quota.PlanMinimal | src/lib.rs:1061-1073 | without its last unit the plan would leave usage over the limit |
| Quota.PlanOldestFirst | src/lib.rs:1043-1073 | a planned blob is no younger than a kept one, by the younger of blob and sidecar; planned junk no younger than kept junk; no blob goes while expired junk stays |
| Quota.PairsTogether | src/lib.rs:1044-1073 | a blob with a sidecar is planned exactly when the sidecar is, immediately before it |
| Quota.PartialPlanSafe | src/lib.rs:311-326 | stopping after any number of deletions strips no surviving blob of its sidecar and orphans at most the sidecar of the blob deleted last |
| Quota.FileClasses | src/lib.rs:1018-1031 | how the planner classes a session's four files: a unit, its companion, junk, and junk exactly once the scratch file is gone |
| Grace.YoungJunkStays | src/lib.rs:1033-1042 | a junk file whose time plus the grace is still to come is never planned; junk told by suffix and by what stands beside it |
| Grace.YoungPairStays | src/lib.rs:1044-1069 | neither a blob nor its sidecar is planned while either of the two is that young |
| Grace.KeptIsYoung | src/lib.rs:1033-1073 | when usage after the plan is over the limit every junk file kept is that young, and so is every blob kept or its sidecar |
| Grace.OldestPairFirst | src/lib.rs:1044-1060 | of a planned pair no file is younger than the younger file of any kept pair |
| Grace.OldestJunkFirst | src/lib.rs:1018-1032 | no planned junk file is younger than a kept one |
| Grace.UsageAdds | src/lib.rs:992-994 | usage is the sum of the file lengths |
| Convergence.RoundsSettle | src/lib.rs:279-328 | repeated plan-then-delete plans nothing after at most as many rounds as there are files |
| Convergence.SettledIsHeld | src/lib.rs:1003-1075 | where nothing is planned, usage is within the limit or every file, some ".ckpt" suffixes stripped, is a survivor held by the grace window |
| Convergence.QuotaConverges | src/lib.rs:279-328 | both together, from any directory |
| Convergence.RootStrips | src/lib.rs:1024-1027 | the survivor behind a name is that name without some number of ".ckpt" suffixes |
| Convergence.OneRoundSuffices | src/lib.rs:1024-1031 | a second round finds nothing exactly when the first met the limit or orphaned no sidecar past its grace window |
| Convergence.OneRoundCanFallShort | src/lib.rs:1024-1031 | a directory of two files where the second round deletes more |
| CacheDir.Dir.List | src/lib.rs:284-306 | the scan reports each file once with its size and time |
| CacheDir.Dir.DeleteAll | src/lib.rs:311-326 | exactly the planned files whose deletion works are gone, the rest is untouched |
| CacheDir.Dir.EnforceLimit | src/lib.rs:279-328 | scan, plan, delete: what goes is what the plan names and the file system lets go; nothing younger than 60 seconds goes; a new scan yields the planner's survivors, and while they exceed the limit each is younger than that or paired with a file that is |
| CacheDir.ProtectedStays | src/lib.rs:279-283 | with the grace of 60 seconds no junk file that young is planned, and neither file of a pair with one |
| CacheDir.KeptIsRecent | src/lib.rs:311-326 | while usage stays over the limit what is kept is less than 60 seconds old, a pair by one of its files |
| CacheDir.ScanAfter | src/lib.rs:284-306 | scanning after the deletions gives the entries the planner left |
| Registry.App.PickForSession | src/lib.rs:187-211 | the two loops compute the pick: own slot first, else the first reported slot neither processing nor dirty, noting what was seen |
| Registry.App.FindVictim | src/lib.rs:215-235 | the loop finds the first idle dirty slot of the report, with its session |
| Registry.App.Save | src/lib.rs:334-382 | a published save shows the slot's content as the session's blob and the slot clean; a failed one leaves the registry alone |
| Registry.App.EvictToDisk | src/lib.rs:237-244 | when it succeeds on a slot with an owner, the owner's blob is the slot's content and the slot clean; otherwise the registry is as before; no label, no other slot's mark, no other session's blob and no slot content changes |
| Registry.App.Restore | src/lib.rs:387-397 | with the blob there and readable the slot holds the blob's content and every other slot what it held; otherwise no slot content changes |
| Registry.App.Mark | src/lib.rs:248-252 | the slot carries the session and is dirty, no other slot changes |
| Registry.App.AdmitRequest | src/lib.rs:470-512 | lookup, restore, eviction and marking together leave the state, and steer to the slot, that the specification of admission gives |
| Registry.App.Finish | src/lib.rs:592-600 | the slot is claimed for the session; if published, its blob is the slot's content and the slot is clean |
| Registry.App.HangUp | src/lib.rs:601-612 | the slot is nobody's and clean, the disk and every other slot untouched |
| AdmissionFacts.HotExactlyWhen | src/lib.rs:188-195 | a request is steered hot exactly when some slot carries its session |
| AdmissionFacts.ForwardedExactlyWhen | src/lib.rs:482-512 | a request goes unsteered exactly when no slot carries its session, no reported slot is idle and clean, and no idle dirty slot was published |
| AdmissionFacts.ForwardedFacts | src/lib.rs:505-510 | an unsteered request changes no label, mark or slot content, and the disk at most by writing an idle dirty slot's content under its owner's name |
| AdmissionFacts.SteeredFacts | src/lib.rs:482-512 | exactly one slot is marked for the session; a hot one keeps its content and the disk is untouched |
| AdmissionFacts.ColdFacts | src/lib.rs:482-512 | a cold slot was reported idle; it was restored exactly when the blob was there and readable, with the session's own blob; a dirty one was written under its owner's name first |
| AdmissionFacts.ColdTakesFirst | src/lib.rs:200-235 | the slot taken cold is the first of the report that is idle and clean in the registry; if there is none, the first of the second report that is idle and dirty |
| AdmissionFacts.HotTakesFirst | src/lib.rs:188-195 | the slot taken hot is the first that the iteration of the registry meets with the session's label |
| AdmissionFacts.FreeIsFirst | src/lib.rs:200-209 | the lookup's free slot stands in the report after slots that are all processing or dirty |
| AdmissionFacts.VictimIsFirst | src/lib.rs:219-232 | the victim stands in the report after slots that are all processing or clean |
| AdmissionFacts.FreeNotes | src/lib.rs:200-209 | the lookup notes in the registry the slots of the report up to the one it takes, or all of them: label and mark kept, the busy flag as last said, no other slot touched |
| AdmissionFacts.SaveBeforeSteal | src/lib.rs:215-244 | a dirty slot leaves its session only idle, and after its content was published as that session's blob |
| Turns.SlotExclusion | src/lib.rs:482-512 | in every run, turns in flight on one slot are of one session, and the registry names that session there or none |
| Turns.StepExclusive | src/lib.rs:592-613 | every event keeps that: steering, eviction, failed save, disconnect, broken stream, quota |
| Turns.StateIsolation | src/lib.rs:470-512 | in every run from a fresh proxy, what is filed under a session, in slots or on disk, is its own state, unless a dispatch of its own was rejected on a slot that held something else and could not be restored |
| Turns.VersionsCount | src/lib.rs:592-600 | the version of a session is the number of its turns that ended normally in the run |
| Turns.RejectedDispatch | src/lib.rs:520-537 | a rejected dispatch leaves the slot labelled and dirty, and holding the session's own state exactly when the backend had begun, or the slot was hot, restored, or held it already |
| Turns.RejectedKeepsExactly | src/lib.rs:520-537 | a rejected dispatch keeps the invariant of the session's newest state exactly when the backend had not begun and the slot was hot, or restored, or held that state already |
| Turns.RejectedCanCostNewest | src/lib.rs:520-537 | whenever it does not, the next admission of another session can evict the slot, and then the blob is not the newest state and no slot carries the session |
| Turns.HangUpKeepsExactly | src/lib.rs:601-612 | a disconnect in mid-turn keeps the invariant of the session's newest state exactly when that state is on disk, or was until the quota removed it |
| Turns.CutOffNeverKeeps | src/lib.rs:443-458 | a response that breaks off never keeps it; a non-streamed one that breaks off is published all the same, so its half-written turn becomes the blob unless the save fails |
| Turns.BrokenTurnIsPublished | src/lib.rs:577-583 | after a broken stream the next eviction writes the half-written turn over the newest blob |
| Turns.NoLostState | src/lib.rs:482-613 | in every reachable state, for every session whose steered turns ran normally and one at a time, the newest completed state is its blob, or was until the quota removed it, or sits in the one slot carrying the session, dirty |
| Turns.StepKept | src/lib.rs:482-613 | the invariant behind it survives every event, whatever happens to saves, evictions and other sessions |
| Turns.ResumesFromNewest | src/lib.rs:474-512 | in every reachable state such a session's next turn starts from its newest completed state whenever it is hot or restored, and it is restored whenever its blob is there and readable |
| TurnWitness.RejectedDispatchLosesState | src/lib.rs:520-537 | a run of six events in which a rejected dispatch costs a session its newest state and files another's under its name |
| GateTheorems.GateExclusion | src/lib.rs:334-382 | in every run of the small steps one publish at a time, and no lookup between its first byte and the mark that ends it |
| GateTheorems.MutexExclusion | src/lib.rs:187-256 | in every run one request at a time is in a critical section of the registry |
| GateTheorems.NoOvertaking | src/lib.rs:335 | while a request waits for the gate, none that was not in front of it is let in, whatever the others do |
| GateTheorems.DroppedHoldsNothing | src/lib.rs:461-520 | in every run a handler whose client leaves during its admission can be dropped where it waits, and then neither holds nor awaits the gate or the mutex; registry, disk and the other requests stay as they are |
| GateTheorems.WaitersHoldNothing | src/lib.rs:187-211 | nobody waits for the gate while holding the mutex or the gate |
| GateTheorems.NeverStuck | src/lib.rs:334-382 | while a request is unfinished, some request can take a step |
| GateTheorems.EveryStepAdvances | src/lib.rs:461-633 | every step brings its request nearer to its end in a well-founded order and moves no other |
| GateTheorems.FinitelyManySteps | src/lib.rs:461-633 | in every crash-free run a request takes at most sixty steps, and one more for each file its quota pass plans to delete |
| EvictionTheorems.EvictionAlwaysHasAVictim | src/lib.rs:215-244 | in every run a scan never returns a dirty slot without a session, so there is always something to publish |
| EvictionHistory.NeverTakenUnsaved | src/lib.rs:496-503 | in every run a request about to take a slot by eviction has behind it, in order: the scan that found that slot dirty under its owner, a save the backend made of that slot for that owner, and the moment just before the clean mark at which that save was whole and what the owner's blob showed, unless the quota had removed it |
| EvictionHistory.History | src/lib.rs:487-503 | the same of any request in any run, as far as it has come |
| DispatchHistory.OnlyAccepted | src/lib.rs:520-633 | in every run a request that is served, claims, publishes, abandons or cleans up has an accepted dispatch behind it; to claim or publish, a later step at which its stream ended; to abandon, one at which the client was gone; and it publishes the slot it was steered to under its own session |
| DispatchHistory.RefusedForGood | src/lib.rs:520-537 | in every run a refused dispatch changes neither registry nor disk, and the request never takes another step |
| BlobTheorems.TornBlobsImpossible | src/lib.rs:334-382 | in every run with any number of requests, quota deletions and crashes, a visible blob is one complete save made for its session |
| BlobTheorems.VisibleBlobNeverChanges | src/lib.rs:384-397 | no step and no crash changes the file a visible blob names |
| BlobTheorems.OpenBlobNeverChanges | src/lib.rs:384-397 | over any crash-free run from there on that file stays as it was, also after its name went to a newer save or was removed, so a reader reads one save to the end |
| BlobTheorems.CleanMeansPublished | src/lib.rs:376-380 | a slot is marked clean only when the save just made of it is whole and is what the blob shows, unless the quota removed it |
| BlobTheorems.CrashSound | src/lib.rs:354-356 | after a crash every visible blob is still a complete, synced save |
| Durability.PublishedLasts | src/lib.rs:352-365 | once a publish has synced the directory, its session's blob is visible at the end of every continuation, with any crashes, with this save or a later one of the session, unless the quota removes it |
| Durability.SurvivesExactlyWhenSynced | src/lib.rs:357-379 | in every run a publish goes on after its directory sync whether that worked or not, and its visible blob is what every possible crash leaves exactly when it did |
| Durability.ContentSurvivesExactlyWhenSynced | src/lib.rs:354 | in every run the content of a file survives every possible crash exactly when the file was synced |
| DroppedPublish.LateDropsAreHarmless | src/lib.rs:335-366 | also when handlers are dropped in the blocking part of their publish, as long as it is after the rename, a visible blob is one complete save of its session |
| DroppedPublish.EarlyDropShowsTorn | src/lib.rs:335-366 | a history in which a handler dropped before the rename ends with a torn blob visible |
| PublishEffect.UninterruptedPublish | src/lib.rs:334-382 | a publish in which nothing fails, but perhaps the sidecar's rename, shows the new synced save as the blob and no scratch file; every name of the session is accounted for, and every other session's files are as they were |
| PublishEffect.OldSidecarExactlyWhen | src/lib.rs:408-422 | the new blob stands beside a sidecar older than its save exactly when one was published and is not replaced, or this save writes none and a leftover is taken along |
| PublishEffect.SidecarEffect | src/lib.rs:414-422 | the scratch sidecar, if there is one and its rename works, becomes the blob's sidecar; otherwise both stay as they are |
| StaleSidecar.OldSidecarRidesAlong | src/lib.rs:414-422 | a run to a second save with the first one's scratch sidecar still there; published without a sidecar of its own, the new blob stands beside the old save's |
| SoloAdmission.AdmitAlone | src/lib.rs:470-512 | for every environment there is an undisturbed run to the dispatch with the registry, the slot and the set of visible blobs of one-step admission |
| SoloAdmission.FinishAlone | src/lib.rs:592-600 | the same for the end of a turn, for each outcome of its save: registry and set of visible blobs |
| SoloAdmission.HangUpAlone | src/lib.rs:601-612 | there is such a run for a disconnected client, the disk untouched |
| SoloRequest.EverySoloAdmission | src/lib.rs:470-512 | every undisturbed run from arrival to dispatch, whatever fails on the way, ends with the slot, the registry and the content of every visible blob of one-step admission for the answers heard on the way: the order of the scan, the two reports, the first failing call of the publish; a restore is sent exactly to a slot taken cold for a session with a blob, and it worked exactly when it was answered Ok |
| SoloRequest.EverySoloTurn | src/lib.rs:539-633 | every undisturbed run from the first chunk to the quota scan or the end leaves the registry and blob contents of the end its stream had: after the last chunk claimed, published as far as the calls of the publish worked, and less the planned blobs whose deletion worked; after a disconnect abandoned; after a broken stream as they were |
| SoloRequest.EverySoloRequest | src/lib.rs:461-633 | every undisturbed run from arrival to the end is an admission, a dispatch and a turn, each for its own answers; refused, it rests there with the registry and blobs of the admission, its slot labelled and dirty; accepted without a slot, nothing changes either |
| SoloRuns.PublishStepSaid | src/lib.rs:334-382 | step by step, wherever it fails, a publish has the registry and blob contents of no save, a save only renamed, or a published one |
| SerialAdmission.SerialExclusion | src/lib.rs:470-600 | in every run of the small steps in which no admission, from its pick to its dispatch, overlaps another or a claim at a turn's end, and reports are honest, requests served on one slot are of one session and the registry names that session there or none |
| SerialMarks.NeverMarkedOverDirty | src/lib.rs:205-207 | in every such run a request about to mark a slot never finds it dirty under another session |
| SerialMarks.ServedIsMarked | src/lib.rs:248-252 | in every run in which admissions overlap nothing of a turn's end, a session runs one turn at a time and reports are honest, a slot being served is labelled with its session, dirty, and served to no other request |
| AdmissionRace.TwoSessionsOnOneSlot | src/lib.rs:470-512 | a run with honest reports and no claim in which two overlapping admissions end with two sessions served on one slot |
| AdmissionRace.TwoSessionsAfterLateClaim | src/lib.rs:592-600 | a run with honest reports and no two overlapping admissions in which a late claim ends with two sessions served on one slot |
| AdmissionRace.DirtySlotIsTaken | src/lib.rs:470-512 | the first of these runs before and after its last mark: a slot dirty for a session being served on it passes to another, nothing ever having been saved |
| LatePublish.LatePublishLosesTurn | src/lib.rs:592-600 | a run with honest reports and no admission overlapping another or a claim, in which a session has completed a turn, a third session is served on its slot and nothing was saved for it; then its own publish files the third session's state as its blob |
| Seed.SeedDance.PrepareRequest | src/seed.rs:191-293 | the call updates the bag, answers and speaks to the backend as the specified dance |
| Seed.SeedDance.EnterFamily | src/seed.rs:237-265 | the family is in the bag, cached if it was and uncached otherwise; its prompt head, which is returned, is the one it had, or the request's system messages if it had none; no other family changes |
| Seed.SeedDance.SettleCached | src/seed.rs:295-300 | a family that is in the bag becomes cached with its prompt head kept, none is added, and every other family is as it was |
| Seed.SeedDance.SettleFailed | src/seed.rs:302-317 | afterwards the family is in the bag and failed, with the prompt head it had or a null one if it was absent; every other family is as it was |
| Seed.PrepareIsARun | src/seed.rs:191-293 | a call that nothing interrupts is a run of the interleaving machine: same bag, result and trace |
| SeedCalls.TraceGrammar | src/seed.rs:191-293 | for every bag and pattern of answers, a call's trace belongs to exactly one result, its own: no save without a prefill and a report of idle above position zero on the same slot, no restore on a slot not reported idle |
| SeedGate.GateDecides | src/seed.rs:191-279 | a call restores or prefills exactly when the request has a system message and the backend's first entry about the slot says idle, and is skipped exactly otherwise; it saves exactly when, after a prefill that worked, the first entry about the slot in a second answer says idle with tokens above zero; it touches no other slot |
| SeedCalls.CachedIffSeeded | src/seed.rs:215-300 | after any sequence of calls the families cached are exactly those an earlier call seeded, and none is left uncached |
| SeedCalls.SeededForGood | src/seed.rs:215-234 | after a family was seeded no later call prefills, saves or publishes for it; before, none restores |
| SeedRuns.HeadsAreTrue | src/seed.rs:236-265 | in every interleaving each entry holds a non-empty prompt head hashing to its key, and every prefill carries messages hashing to the call's family |
| SeedRuns.FailureFindsItsEntry | src/seed.rs:302-317 | in every interleaving a failing call finds its family in the bag: the branch that enters a null head is never taken |
| SeedRuns.CachedImpliesPublished | src/seed.rs:215-293 | in every interleaving a family is cached, and restored, only after a publish of its blob returned Ok |
| SeedRuns.GrammarSurvives | src/seed.rs:191-293 | in every interleaving a finished call's trace matches its result |
| SeedGate.GateObeyed | src/seed.rs:203-279 | in every interleaving a call that restored or prefilled had itself an answer whose first entry about its slot said idle; one that saved, a later one that said idle and tokens above zero; and one skipped for a prompt had an answer that did not say idle |
| SeedRuns.CachedForGoodExactlyWhen | src/seed.rs:215-317 | a cached family stays cached over every continuation exactly when no call for it is past its look at the bag and not yet done; and then no continuation prefills, saves or publishes for it |
| SeedRuns.CachedCanBeLost | src/seed.rs:215-317 | a run of two overlapping calls in which a family is seeded, cached, and then marked failed |

## Left out

- Isolation and no-lost-state over interleaved small steps: false where an admission
  overlaps another, or a claim, or the publish at a turn's end (`AdmissionRace`,
  `LatePublish`). Slots have no content in the small steps, so where none of these
  happens the claims proved are those on labels, marks and saves.
- SerialAdmission.SerialExclusion: gives a condition under which exclusion holds; a
  run with an overlap may still keep it, so the converse is not claimed.
- Two turns of one session in flight at once: the later publish wins
  (HANDOFF.md:86-88), so `Turns.NoLostState` asks for one at a time.
- The HTTP side: routing, passthrough, health, time-to-first-token logging, and
  the chunks of a stream (only how a stream ends is modelled).
- A request whose JSON body is not an object: the code marks a slot but cannot
  add the steering field to the body.
- A connection dropped before a non-streamed body is collected: the handler just
  stops there, which both models take as a turn that breaks off. One dropped while
  the backend saves for its eviction: the save goes on in the backend, and what it
  then does to the scratch file is not modelled.
- llama.cpp: scheduling, prefix reuse, checkpoints. A slot's content is a tag, its
  owner and the number of turns completed.
- SHA-256, hex digits and serde's bytes: the digest and the serialised messages
  are parameters.
- Clocks and file times: `now`, ages and grace are numbers; touching a file on
  save and restore is not followed.
- `enforce_limit`'s product of megabytes and 1024 * 1024, which may overflow:
  the limit is given in bytes.
- A set of files that changes between the scan and the deletions of one
  `enforce_limit`: `CacheDir` runs it alone; the small steps let anything happen
  between two deletions.
- Sidecars in crashes: a sidecar is renamed by a step of its own, so nothing is
  said of the two together.
- `FsPublisher` and `MemoryPublisher` (src/seed.rs:72-120): a publish is one call
  that answers Ok or not. The first takes no gate and is not wired in
  (src/seed.rs:21-23).
- The content of seed blobs, and the seed dance's use by requests: not wired in.
- Fairness towards one request: each step advances its request and some step is
  always possible, but which request steps next is left open.
- docs/design (chain hashes, block sharing), operations and live scripts: no code
  of this repository.
