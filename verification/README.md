# tartci: what its host scripts keep

This project models nine parts of the tartci host scripts and proves what the scripts are relied on for.
Run `dafny verify dfyconfig.toml` to check all of it.

| files | subject | main results |
|---|---|---|
| `LayerProtocol`, `LayerFrames`, `LayerProvenance`, `LayerRuns` | per-job cache layers: attach, guest writes, settle, process, sweep, trim and crashes, one file operation at a time | every published entry was earned: settled green, then its VM seen gone, then linked; nobody can change it afterwards |
| `LayerOrphans`, `LayerEndings` | what a whole sweep, attach, settle or process has done by its end | a sweep comes to every layer it listed and leaves no layer of a dead supervisor; no command leaves out a step, and each turn brings it nearer to its end |
| `LayerSweep`, `LayerReuse`, `LayerReuseLimits`, `LayerLimits` | sweep against attach and settle | a sweep never moves a living owner's layer, over fresh names or over reused ones that are kept apart; exactly what must be kept apart, and exactly which names may have a dot |
| `LayerManifests`, `LayerReplacement`, `LayerPromotion`, `LayerResume`, `LayerCompletion`, `LayerTrim` | publication, resumed promotion, eviction | where no manifest lies results are immutable, where only manifests lie they only get newer, and exactly there; a layer is removed only after each of its entries was published or beaten; a run of crashing promoters equals one uninterrupted promotion; eviction is minimal and oldest first |
| `QueueListing`, `QueueScan`, `QueueAbsence`, `QueueMemo` | the fail-closed queue scan | a clean pass saw one snapshot; zero is a proof of absence, a witness settles the scan whatever fails behind it; the memo changes no answer, however scans of different lanes overlap |
| `GateElection` | fallback lanes that decide from stale reports | grants, lanes in flight and all peer lanes free or in flight never exceed the demand; exactly that many on a shared snapshot; distinct slots are exactly what it needs |
| `GuardRotation`, `GuardCursor`, `GuardScan`, `GuardVerdicts` | the resumable cache guard | no unit starves, for which progress is needed; the fate of every entry follows its evidence; no entry is lost; exactly which entries the verdict cache lets through, and exactly which changes make it |
| `IntervalTiling`, `IntervalExport`, `IntervalMeaning` | point samples to intervals | an export is refused exactly for five reasons; otherwise every instant of every key is shown once, with the latest report that is young enough |
| `TreeWalk`, `ReclaimWalks`, `ReclaimAge`, `ReclaimCandidates`, `ReclaimPass` | explicit-stack tree walks behind deletion | each walk is its recursive specification; candidates are exact, distinct and not nested; nothing is deleted without proof that it is idle, unused and no checkout; the pass splits the candidates and counts every byte once |
| `GateReserve` | VM sizing and the ratchet | division and stepping down equals trying every count; overcommit never grows over any history |
| `Watchdog`, `WatchdogDevices`, `WatchdogUmounts`, `WatchdogRuns` | the disk watchdog | bounds on unkillable probes; what a repair and a close rest on; exactly when at most one unmount hangs |
| `AlarmDedup` | alarm deduplication | a cycle announces exactly what was not found for long enough; pruning is invisible exactly below a bound |

`Sorting` holds `sorted(…)` and Python's orders on strings and paths, `Basics` what all models share.

Concurrency is modelled as interleaving: the layer protocol and the election are state machines whose
steps are single file operations or single decisions, and the theorems range over every run. What the
host answers (processes, `tart`, `gh`, `ps`, `du`, clocks) is a parameter. Time is an integer or a real;
rounding is not modelled. Scripts that update state in place are classes, loops are loops, and each
method is proved against a function or a predicate whose own meaning is proved as lemmas.

## Where the code is narrower than its comments

- Without green metadata the VM name is guessed as the text before the first dot. `DotFreeIsExact` shows
  that promotion is safe for VMs called v in every run if and only if v has no dot; the tool itself
  accepts dots.
- A sweep reads the owner and renames by name later. `ReuseBreaksTheSweep` gives, for every name, a run
  with a reused name in which a living owner's layer is moved. `MeetingsAreExact` says what reuse needs:
  an attach in progress must not meet another attach of its name, a sweep that has read its owner file
  and not yet tested the pid, a sweep that has found its owner gone, or a sweep or settle that has still
  to unlink its owner; each of the five alone breaks it.
- `publish_manifest` does not look at the kind of the entry it replaces. `ManifestOverwrites` gives, for
  every key, a run in which a manifest replaces a published result; `ResultsAreSafeExactly` and
  `TimesAreSafeExactly` say at which keys results stay, and times do not fall, in all runs.
- A watched path's issue promises to close "after 3 fast probes in a row"; a probe that gives no
  reading does not break the row (`NotInARow`; `InARow` says when it is one).
- Pruning alarms after seven days is invisible only if the re-alert time is below seven days plus the
  spacing of cycles (`ExactlyWhenInvisible`); forced cycles have spacing zero, so at equality it shows.
- The guard's verdict cache looks at the manifest's size and mtime only. `SlipsExactly` says for every
  history which suspects it lets through; `ChangesAreExact` that decisions stay as without it exactly if
  between runs no result of a proven manifest changes and no stamp is reused for another manifest.
- The guard saves the unit it was cut in, so a run that never leaves its first unit makes no headway:
  `WithoutProgressUnitsStarve` gives histories of any length that scan nothing else.
- The election needs distinct slot numbers (`SlotsMustDiffer`).
- One pass may leave several stuck unmounts and records only the last, and closing an episode forgets
  it. So any number can hang (`ClosesForget`, `OneRepairLeavesMany`); `AtMostOneHangs` is the exact
  condition for at most one, and `WatchdogRuns` runs the watchdog into it and out of it.

## Model

| member | source | states |
|---|---|---|
| `LayerProvenance.GuessIsExact` | scripts/ccache_layer.py:212-216 | the name guessed for every possible target name is the VM's if and only if the VM's name has no dot |
| `LayerProvenance.MetaNamesTheVm` | scripts/ccache_layer.py:429-434 | metadata, or the guess without it, names the VM of the green layer it stands for, also between settle's rename and its metadata write |
| `LayerProvenance.OperationKeeps` | scripts/ccache_layer.py:412-461 | every single operation of every process keeps the invariant, changes no final verdict, and touches no file of a frozen layer |
| `LayerRuns.StepKeeps` | scripts/ccache_layer.py:192-489 | so does every step of guests, VMs, supervisors, trim and crashes |
| `LayerRuns.RunKeeps` | scripts/ccache_layer.py:192-489 | the invariant holds in every reachable state of every interleaving |
| `LayerRuns.PublishedIsImmutable` | scripts/ccache_layer.py:278-330 | the bytes behind a published entry never change again and no present VM reaches them, although the entry is a hard link to a guest's file |
| `LayerRuns.GreenBySettle` | scripts/ccache_layer.py:219-244 | the only step that makes a layer green is settle's rename on a green verdict |
| `LayerRuns.SeenByAbsence` | scripts/ccache_layer.py:391-402 | the only step that marks a layer's VM gone is a promoter that asked about that VM and found it absent |
| `LayerRuns.SharedByPublication` | scripts/ccache_layer.py:333-366 | the only step that changes a key of the shared cache is the publication of an entry of a green layer by the process that holds it |
| `LayerRuns.EveryEntryIsEarned` | scripts/ccache_layer.py:412-489 | every entry in every run: its layer was settled green at step a, its VM seen absent at b, the entry linked at c, with a < b < c |
| `LayerSweep.FreshRunIsSafe` | scripts/ccache_layer.py:192-209 | over fresh names, at every point of every run an owner file names the supervisor of the layer beside it, and every process's last reading still holds |
| `LayerSweep.SweepSparesTheLiving` | scripts/ccache_layer.py:464-482 | over fresh names no sweep step ever renames a layer whose supervisor is alive; `NoDeadOwnersLayerStays` is the other half |
| `LayerOrphans.EveryNameCameTo` | scripts/ccache_layer.py:464-482 | a sweep that ends has come to every name it listed: read the owner and found it alive, or found it dead, then renamed the layer to discard, then unlinked the owner |
| `LayerOrphans.SweepAdvances` | scripts/ccache_layer.py:468-482 | every turn of its loop brings a sweep nearer to its end |
| `LayerOrphans.NoOrphanStays` | scripts/ccache_layer.py:464-482 | a listed layer whose owner on file was dead throughout, while no pid was reused, is gone from jobs/ for good when the sweep ends, in any interleaving with names reused at will |
| `LayerOrphans.NoDeadOwnersLayerStays` | scripts/ccache_layer.py:464-482 | over fresh names, while no pid is reused, no layer whose supervisor was dead when the sweep listed it is still in jobs/ when it ends |
| `LayerEndings.AttachIsWhole` | scripts/ccache_layer.py:192-209 | an attach that ends found jobs/v free, or moved what was there to discard, then wrote its owner, and leaves a directory there; or its rename failed |
| `LayerEndings.SettleIsWhole` | scripts/ccache_layer.py:219-244 | a settle that ends renamed the layer to the directory of its verdict, then unlinked the owner, and on green last wrote whose layer it was; or there was none, or its rename failed |
| `LayerEndings.ProcessIsWhole` | scripts/ccache_layer.py:412-461 | a process that ends last unlinked the metadata, after the VM on record was seen absent, the layer listed, every entry come to and the layer removed, or after a timeout and the move to discard; or it was busy, deleted a discarded layer, found none, or a file operation failed |
| `LayerEndings.EveryTurnAdvances` | scripts/ccache_layer.py:412-461 | every turn of an attach, a settle or a process that gets what it needs brings it nearer to its end |
| `LayerReuse.ApartIsEnough` | scripts/ccache_layer.py:192-209 | with names reused at will no sweep moves a living owner's layer, as long as no attach in progress meets another attach of its name, a sweep between reading its owner and testing the pid, a sweep between that test and its rename, or a sweep or settle about to unlink its owner |
| `LayerReuseLimits.TestingBreaks` | scripts/ccache_layer.py:468-477 | for every name a run in which the sweep tests the pid of the name's last owner after the name was attached again, and moves the layer of the living one |
| `LayerReuseLimits.MeetingsAreExact` | scripts/ccache_layer.py:464-482 | for any set of these five meetings that are allowed, all runs with only those spare the living if and only if none is allowed |
| `LayerLimits.ReuseBreaksTheSweep` | scripts/ccache_layer.py:468-477 | with a reused name it does, for every name and supervisor |
| `LayerLimits.DotBreaksPromotion` | scripts/ccache_layer.py:234-241 | for every dotted name some run publishes a file that its running guest can still write |
| `LayerLimits.DotFreeIsExact` | scripts/ccache_layer.py:429-434 | promotion is safe in all runs of VMs called v if and only if v has no dot |
| `LayerManifests.EntryStep` | scripts/ccache_layer.py:308-330 | at a key where only manifests lie, no step of any process puts there a file that is not strictly newer, although comparison and replacement are two operations |
| `LayerManifests.EntriesOnlyGetNewer` | scripts/ccache_layer.py:278-330 | at a key where only manifests ever lie, over any stretch of any run in which the key stays, the time never falls and every change is to a strictly newer file |
| `LayerManifests.ResultsStay` | scripts/ccache_layer.py:278-300 | at a key where no manifest ever lies the entry is the same file throughout, whatever lies at other keys |
| `LayerReplacement.ManifestOverwrites` | scripts/ccache_layer.py:308-330 | for every valid key a run in which a newer manifest replaces a published result |
| `LayerReplacement.ResultsAreSafeExactly` | scripts/ccache_layer.py:308-330 | published results at a key are safe in all runs whose manifests lie at given keys if and only if that key is not one of them |
| `LayerReplacement.ManifestAges` | scripts/ccache_layer.py:308-330 | for every valid key a run in which a manifest staged against the free key replaces a newer result linked meanwhile |
| `LayerReplacement.TimesAreSafeExactly` | scripts/ccache_layer.py:308-330 | times never fall at a key in all runs whose results lie at given keys if and only if that key is not one of them |
| `LayerPromotion.PromoteLayer` | scripts/ccache_layer.py:333-366 | every listed path is counted once, rejected are exactly those that are no entries, the reported keys are exactly the changed entries, and the reported bytes are theirs |
| `LayerPromotion.AcceptedMeans` | scripts/ccache_layer.py:340-355 | an entry is a regular file with the header of a result or a manifest, at a key of two and of 8 to 128 digits and small letters |
| `LayerPromotion.PromotionIsConfluent` | scripts/ccache_layer.py:333-366 | the cache depends only on which entries of a layer were published, not on order or repetition |
| `LayerPromotion.ResumedPromotion` | scripts/ccache_layer.py:445-455 | any number of attempts cut short anywhere, before and after one that finishes, end in the cache of a single uninterrupted promotion |
| `LayerResume.StepAttempts` | scripts/ccache_layer.py:333-366 | every step of the protocol but a trim changes the cache as one turn of the promotion loop does, or not at all |
| `LayerResume.RunIsPromotion` | scripts/ccache_layer.py:333-366 | over any stretch of any run, with promoters interleaved and crashing anywhere, the cache is the promotion of the entries they came to, in that order |
| `LayerCompletion.RemovalIsLate` | scripts/ccache_layer.py:445-455 | in every run a process that removes a green layer has listed it before and gone on promoting it ever since |
| `LayerCompletion.EveryEntryCameTo` | scripts/ccache_layer.py:333-366 | by then it has come to every publishable file it listed, which is still the same file, whatever other processes and guests did |
| `LayerCompletion.NothingIsLost` | scripts/ccache_layer.py:445-455 | so when a layer is removed every publishable file of it is in the cache, or at a manifest key something no older, unless trim removed the key since |
| `LayerCompletion.ResumedRun` | scripts/ccache_layer.py:445-455 | if promoters that crashed anywhere came to nothing but the files of one green layer of the run, any number of times, until one of them got to its removal, the cache is that of one uninterrupted promotion of that layer |
| `LayerPromotion.ManifestsKeepTheNewest` | scripts/ccache_layer.py:308-330 | any layers in any order any number of times leave at each manifest key the maximum time seen |
| `LayerPromotion.ResultSurvives` | scripts/ccache_layer.py:308-330 | a published result survives any promotions if and only if no accepted manifest at its key is newer |
| `LayerTrim.Evict` | scripts/ccache_layer.py:524-533 | the loop stops at the first point where what is left fits the target, and not before |
| `LayerTrim.Trim` | scripts/ccache_layer.py:505-537 | evicted and kept partition the entries and the reported size is that of what is left; above the limit, whatever unlinks fail, the deletable ones of the shortest oldest-first prefix go after which nine tenths of the limit hold the rest, and nothing else |
| `LayerTrim.OldestWent` | scripts/ccache_layer.py:524-533 | whatever unlinks fail: the rest fits or nothing deletable is left, nothing evicted is newer than a deletable entry kept, and before the last eviction it did not fit |
| `QueueListing.FailedPage` | scripts/assignment_scan.py:549-605 | whatever check a page fails, no number of pages of this pass can reconcile |
| `QueueListing.NothingHappened` | scripts/assignment_scan.py:588-598 | an agreeing re-read of page 1 means that at that moment no new run was listed and none had left |
| `QueueListing.PassSawOneSnapshot` | scripts/assignment_scan.py:532-608 | a pass that ends normally delivered, once each and in order, exactly the listing as it stood at every one of its reads, for any churn and any length |
| `QueueScan.ReadJobs` | scripts/assignment_scan.py:796-850 | a zero means every job was read and none matches, a failure that some queued job allows no verdict, an early hit that a match was read |
| `QueueScan.FirstsMeaning` | scripts/assignment_scan.py:884-899 | what a scan judges is exactly one record for every id it was shown, and that record was shown |
| `QueueScan.SumZero` | scripts/assignment_scan.py:859-915 | a total is zero if and only if no judged run counts, and a positive one has a witness among them |
| `QueueScan.ReadIds` | scripts/assignment_scan.py:568-578 | the id loop ends clean exactly with distinct ids over the whole pass |
| `QueueScan.CheckPage` | scripts/assignment_scan.py:549-580 | what a page must pass before it is delivered; a page that fails makes the pass hopeless |
| `QueueScan.EndOfPass` | scripts/assignment_scan.py:582-605 | a pass ends clean only when reconciled, and in a race only when hopeless |
| `QueueScan.Scanner.ScanRun` | scripts/assignment_scan.py:768-857 | a run is judged by its own jobs, classification never changes the count of the pass that makes it, and a hit refreshes nothing |
| `QueueScan.Scanner.Visit` | scripts/assignment_scan.py:884-899 | a page leaves judged exactly the first records of the ids shown so far, each once, in any order of the executor; a failure has a shown record that allows no verdict |
| `QueueScan.Scanner.WalkListingOnce` | scripts/assignment_scan.py:532-608 | clean only if the pages reconcile, a race or an error only if no number of pages could; how it ends and what it was shown by then is decided by the replies alone |
| `QueueScan.Scanner.WalkListing` | scripts/assignment_scan.py:610-627 | a restarted listing shows exactly the pages of its attempts in order, ends clean only through a clean pass, and fails only on a listing that cannot, or a record that allows no verdict |
| `QueueScan.Scanner.Scan` | scripts/assignment_scan.py:859-915 | zero only if every listing ended clean and the first record of every id shown was judged without a match or excluded; positive only if a shown record matches; the exhaustive total is the sum over the first records; failure only if a shown record allows no verdict, or the listings do not all end clean, all they show was seen, and no witness was among it or the scan is exhaustive |
| `QueueAbsence.ShownWasListed` | scripts/assignment_scan.py:859-915 | every record a scan is shown stood on a page of some listing |
| `QueueAbsence.PositiveMeansListed` | scripts/assignment_scan.py:910-915 | a positive answer names a listed run with a queued job whose labels, age and id match |
| `QueueAbsence.ZeroMeansNone` | scripts/assignment_scan.py:910-915 | after a zero every run shown shares its id with a listed record that is a fork's or remembered, or all of whose jobs were read and are not queued, for another lane or too young; and counts nothing itself if listings agree about it |
| `QueueAbsence.AbsentAsItStood` | scripts/assignment_scan.py:532-608 | after a zero every run the listing held at every read of its clean pass, under any churn, was judged and counts nothing |
| `QueueAbsence.AnswerIsDecided` | scripts/assignment_scan.py:896-914 | if all a scan was shown allows a verdict, its answer follows from what a scan that never stops early would be shown: 1 for any witness, else zero or failure as the listings end clean or not |
| `QueueAbsence.WitnessSettles` | scripts/assignment_scan.py:896-914 | if any page an attempt gets to shows a run whose first record is a witness, and all records shown allow a verdict, the answer is 1, whatever fails behind it |
| `QueueAbsence.JudgedMeans` | scripts/assignment_scan.py:796-850 | a run cannot be judged exactly when it is not left alone and its jobs cannot be read, or a queued job that may be for this lane lacks labels, age or id |
| `QueueAbsence.CountMeans` | scripts/assignment_scan.py:796-850 | a run that is not left alone counts the distinct ids of its queued jobs with this lane's labels that are old enough |
| `QueueMemo.RecordsAreConfirmations` | scripts/assignment_scan.py:246-274 | every record in every version of the file, after any history of overlapping scans with lost updates and configurations of their own, is a confirmation by a scan that was shown the run and had persisted by then, with that scan's time |
| `QueueMemo.RecordsWereSeen` | scripts/assignment_scan.py:246-274 | so its run was, at that time, an old merge-queue run whose branch was answered to be gone and all of whose jobs were read and none queued |
| `QueueMemo.HitsAreRecent` | scripts/assignment_scan.py:163-200 | a hit rests on a confirmation, by a scan that was shown the run, younger than the TTL |
| `QueueMemo.MemoKeepsVerdict` | scripts/assignment_scan.py:236-244 | a hit changes neither a run's count nor whether it is a witness, if a run any lane confirmed stale gains no match for this lane within the TTL |
| `QueueMemo.MemoIsInvisible` | scripts/assignment_scan.py:786-791 | over any such history, a scan with the loaded memo and a scan of the same listings without one return the same whenever both complete: the exhaustive count, or zero against one |
| `QueueMemo.SameAnswer` | scripts/assignment_scan.py:859-915 | two scans of the same listings whose memos leave every run's count alone answer alike, also when one stops early |
| `QueueMemo.ScanTwice` | scripts/assignment_scan.py:859-915 | the same for two scanners that are run |
| `GateElection.Decide` | scripts/gate_supply.py:542-576 | unknown if and only if there is demand and a report cannot be used; when the reports count the lanes of the peers, granted if and only if demand exceeds all peer lanes free or in flight and the siblings ahead |
| `GateElection.CoverIsStaffed` | scripts/gate_supply.py:558-562 | the cover is the number of peer lanes free or in flight, when the reports count them |
| `GateElection.RunsAreSane` | scripts/gate_supply.py:561-568 | in every run every lane's view lies between the start and the present, and only granted lanes start flying |
| `GateElection.NeverOverBoots` | scripts/gate_supply.py:542-576 | in every run, from views of any age, once anyone is granted, grants, local lanes in flight and all peer lanes free or in flight together never exceed the demand |
| `GateElection.ExactlyTheExcess` | scripts/gate_supply.py:561-576 | on one shared snapshot exactly min(free lanes, max(0, demand - staffed peer lanes - in flight)) lanes are granted |
| `GateElection.SlotsMustDiffer` | scripts/gate_supply.py:563-568 | no demand is over-booked if and only if slots are distinct |
| `GuardRotation.IterUnits` | scripts/ccache_guard.py:163-187 | exactly the fan-out units of a root, in strictly ascending order |
| `GuardRotation.AllUnits` | scripts/ccache_guard.py:254-257 | exactly the units of all roots, strictly ascending by root, directory and subdirectory |
| `GuardRotation.BelongsMeans` | scripts/ccache_guard.py:163-187 | a unit is a directory named by one hexadecimal digit, alone or with a directory in it that is not called tmp |
| `GuardCursor.IterFrom` | scripts/ccache_guard.py:246-267 | the walk is the rotation to the first unit at or after the cursor |
| `GuardCursor.RotationIsAPermutation` | scripts/ccache_guard.py:246-267 | a rotation is a permutation that begins at the least unit at or after the cursor, also a vanished one; behind the last, or at an unknown root, at the beginning |
| `GuardCursor.CutPosition` | scripts/ccache_guard.py:478-484 | wherever a budget runs out, all units before the cursor's are whole and all behind it untouched |
| `GuardCursor.ScannedSoon` | scripts/ccache_guard.py:702-713 | the unit at distance d behind the cursor is scanned whole by one of the next d + 1 runs |
| `GuardCursor.NoUnitStarves` | scripts/ccache_guard.py:702-713 | any n consecutive runs that each leave their first unit scan every one of n units whole |
| `GuardCursor.StuckRun` | scripts/ccache_guard.py:480-484 | a run cut in its first unit touches no other and leaves the walk where it was |
| `GuardCursor.StuckForever` | scripts/ccache_guard.py:480-484 | runs that are always cut in their first unit never touch another |
| `GuardCursor.WithoutProgressUnitsStarve` | scripts/ccache_guard.py:702-713 | over any two or more units there are such histories of any length, with entries in every unit |
| `GuardScan.Guard.MoveInto` | scripts/ccache_guard.py:436-440 | a quarantined entry keeps its relative path and its bytes |
| `GuardScan.Guard.ScanEntry` | scripts/ccache_guard.py:485-524 | the fate of one entry and each counter it moves: zero-include is consistent plus suspect, flagged is quarantined plus errors |
| `GuardScan.Guard.RunScan` | scripts/ccache_guard.py:458-531 | what happens to each entry follows from its size, header, includes and result keys: a suspect-only quarantine that remembers nothing keeps a movable manifest without includes if and only if it lists result keys and all are consistent; every record learned has that evidence; counters are numbers of entries, each counted once |
| `GuardScan.Guard.RunOnce` | scripts/ccache_guard.py:694-740 | only a quarantine resumes and moves the cursor, only a suspect-only run saves verdicts, each with its evidence; exactly the entries whose evidence condemns them and that can be moved leave the cache, into this batch only, and no command loses an entry |
| `GuardScan.FatesMean` | scripts/ccache_guard.py:386-396 | an entry is flagged, kept or learned exactly as its header, size, includes and result keys say |
| `GuardScan.TallyCounts` | scripts/ccache_guard.py:485-524 | each counter of a run is the number of entries it came to that have the property it counts |
| `GuardScan.ReachedConserves` | scripts/ccache_guard.py:436-440 | after any prefix of a run each entry is in the cache or in its batch at the same path, never both |
| `GuardScan.Guard.RunAll` | scripts/ccache_guard.py:694-740 | any sequence of commands, each with a batch directory of its own, loses, duplicates, alters or misplaces no entry |
| `GuardVerdicts.RecordsAreProven` | scripts/ccache_guard.py:525-529 | every record, after complete and cut runs, goes back to a run that proved that entry |
| `GuardVerdicts.RecordsStand` | scripts/ccache_guard.py:525-531 | in every history of complete and cut runs a record stands if and only if some run proved the entry with that stamp and every run since kept it |
| `GuardVerdicts.SlipsExactly` | scripts/ccache_guard.py:493-499 | in every history the cache changes a decision if and only if the entry is a suspect now, its path, size and mtime were proven by an earlier run, and no run since dropped that record |
| `GuardVerdicts.VerdictCacheIsInvisible` | scripts/ccache_guard.py:458-531 | where no result of a proven manifest changes and no stamp is reused, no decision of any run in any history changes |
| `GuardVerdicts.TurnedResultSlips` | scripts/ccache_guard.py:493-499 | a history that changes a result only, and keeps a suspect |
| `GuardVerdicts.ReusedStampSlips` | scripts/ccache_guard.py:493-499 | a history that replaces a manifest at its size and mtime only, and keeps a suspect |
| `GuardVerdicts.ChangesAreExact` | scripts/ccache_guard.py:458-531 | for any set of these changes that are allowed, all histories with only those keep every decision as without the cache if and only if none is allowed |
| `IntervalTiling.DedupKeepsEvidence` | scripts/capacity_interval.py:198-205 | dropping repeats fails exactly on conflicting evidence and otherwise loses none |
| `IntervalTiling.ExportKey` | scripts/capacity_interval.py:195-247 | sorting, deduplicating and splitting one key, loop by loop |
| `IntervalTiling.WhenAKeyFails` | scripts/capacity_interval.py:199-210 | a key fails if and only if two reports of one instant differ or `until` is not behind every sample |
| `IntervalTiling.TilesTile` | scripts/capacity_interval.py:206-247 | the intervals leave no gap and no overlap from the first sample to `until` or to an open unknown tail |
| `IntervalTiling.EveryInstantIsAnswered` | scripts/capacity_interval.py:155-251 | every instant lies in exactly one interval, which shows the latest sample at or before it while younger than the maximum gap, else unknown |
| `IntervalTiling.OnlyTheEvidenceMatters` | scripts/capacity_interval.py:195-247 | permuting the input and repeating samples changes no interval of a key and no error |
| `IntervalExport.SortKeepsKeys` | scripts/capacity_interval.py:248-248 | the final sort over all keys leaves the order within each key alone |
| `IntervalMeaning.RefusedMeans` | scripts/capacity_interval.py:170-210 | an export is refused exactly for a gap that is not positive, a malformed report, two clock fields, two different reports of one key and instant, or an end not after every report |
| `IntervalMeaning.ExportAnswers` | scripts/capacity_interval.py:155-251 | every instant from the first report of a key to the end is shown by exactly one interval of that key, with the latest report while it is younger than the maximum gap, and nothing else is shown |
| `IntervalMeaning.Export` | scripts/capacity_interval.py:155-251 | fails exactly when refused; otherwise answers every instant, ordered by start and then by place in the input, the intervals of a key being its tiling |
| `IntervalMeaning.DiagnosticsInOrder` | scripts/capacity_interval.py:176-184 | diagnostics are kept in order, and nothing else |
| `TreeWalk.VisitsBelow` | scripts/disk_reclaim.py:236-262 | an explicit stack visits exactly what the recursive definition reaches |
| `TreeWalk.EachOnce` | scripts/disk_reclaim.py:276-298 | and no path twice |
| `TreeWalk.BelowIsDirAt` | scripts/disk_reclaim.py:236-262 | which is, path by path, the listed directories whose names the walk admits |
| `ReclaimWalks.NestedSourceMarker` | scripts/disk_reclaim.py:220-262 | clear if and only if no directory within the bound is refused and no marker exists there, apart from other markers than `.git` under scratch |
| `ReclaimAge.NewestMtime` | scripts/disk_reclaim.py:382-417 | None if and only if something within the bound is refused or the root is missing; otherwise the maximum of all times shown |
| `ReclaimAge.DeeperIsStricter` | scripts/disk_reclaim.py:1302-1307 | on the same tree a deeper walk never answers where a shallower refuses, nor answers older |
| `ReclaimAge.NewestMeans` | scripts/disk_reclaim.py:382-417 | there is an answer exactly when no listing and no stat within the bound is refused and the root is there, and it is then the latest of all times there, stated path by path without the walk |
| `ReclaimCandidates.FindBelow` | scripts/disk_reclaim.py:276-298 | exactly the build-named directories within the bound with no build-named one above them, each once |
| `ReclaimCandidates.FindCandidates` | scripts/disk_reclaim.py:265-299 | the same over all roots, sorted; each once when the roots are apart |
| `ReclaimCandidates.BuildNamesAre` | scripts/disk_reclaim.py:184-189 | a build name is `build` or anything that continues `build-` |
| `ReclaimCandidates.CandidatesAreApart` | scripts/disk_reclaim.py:265-299 | candidates never lie inside one another |
| `ReclaimCandidates.RootsDoNotNest` | scripts/disk_reclaim.py:687-690 | discovered roots never nest |
| `ReclaimCandidates.EveryRootIsCovered` | scripts/disk_reclaim.py:687-690 | and every root found lies at or below a kept one |
| `ReclaimPass.Classify` | scripts/disk_reclaim.py:558-593 | delete if and only if the process scan answered and no process uses the tree, and there is positive proof that it is generated, idle and no checkout |
| `ReclaimPass.DoomedMeans` | scripts/disk_reclaim.py:558-593 | the same over the fields of the tree: its markers, what lies below it, and every time the walk is shown |
| `ReclaimPass.RecheckIsStricter` | scripts/disk_reclaim.py:1302-1307 | the recheck before a deletion is at least as strict as the scan on an unchanged tree |
| `ReclaimPass.SizesAreDisjoint` | scripts/disk_reclaim.py:1330-1335 | for trees that are apart the sum of sizes counts every file once |
| `ReclaimPass.FoundAreApart` | scripts/disk_reclaim.py:1274-1281 | what the candidate search returns is apart |
| `ReclaimPass.Reclaim` | scripts/disk_reclaim.py:1277-1335 | deleted and kept partition the candidates, a tree is deleted if and only if doomed, and the bytes are those below the deleted, each once |
| `ReclaimPass.RunPass` | scripts/disk_reclaim.py:1274-1335 | from the roots found to the report: nothing goes when the process scan failed; deleted is exactly every candidate of a discovered root that no process uses, with a generated and no source marker, no marker below the bound and nothing younger than the minimum age, rechecked; no two deleted trees meet, and the bytes are those below them, each once |
| `GateReserve.VmMemIsMonotone` | scripts/gate_reserve_fit.py:55-58 | more cores never need less memory, for any memory per job |
| `GateReserve.VmMemMeans` | scripts/gate_reserve_fit.py:55-58 | four thirds of a job's memory for every core but one, rounded down, between 8 and 16 GiB |
| `GateReserve.SmallerFits` | scripts/gate_reserve_fit.py:64-85 | if a count fits both reserves so does every smaller one |
| `GateReserve.ShareIsLargest` | scripts/gate_reserve_fit.py:64-73 | trying every count from the pool down finds the largest that fits, else 1 |
| `GateReserve.ShareCores` | scripts/gate_reserve_fit.py:64-85 | dividing first and stepping down by memory finds the same |
| `GateReserve.FitRows` | scripts/gate_reserve_fit.py:100-119 | a row is reported if and only if it compares what all VMs of a lane without a priority or with gate priority need of an axis, at the lane's own cores, the largest share that fits or the pool, with a reserve that there is |
| `GateReserve.FitMembers` | scripts/gate_reserve_fit.py:100-119 | a row is in the fit if and only if it is a row of some gate lane on some axis |
| `GateReserve.RowMeaning` | scripts/gate_reserve_fit.py:100-119 | a row compares the demand of all supervisors with the reserve of its axis and exists only if there is one |
| `GateReserve.SharedLaneFits` | scripts/gate_reserve_fit.py:88-119 | the rows a profile has for a lane sized to the reserve overcommit nothing if and only if the lane fits at one core |
| `GateReserve.SharedProfileFits` | scripts/gate_reserve_fit.py:88-119 | a profile of such lanes overcommits nothing if and only if each fits at one core |
| `GateReserve.Ratchet` | scripts/gate_reserve_fit.py:143-158 | the refusals are exactly the rows that are worse than the last installed row of their lane and axis, or than zero where there is none |
| `GateReserve.RatchetOnlyTightens` | scripts/gate_reserve_fit.py:143-158 | over any history of accepted installs no overcommit grows, also when lanes are dropped and brought back |
| `Watchdog.StreakMeaning` | scripts/disk_watchdog.py:430-436 | the streak is the number of fast probes behind the last alarm |
| `Watchdog.PathWatch.Pass` | scripts/disk_watchdog.py:411-436 | a probe that outlives SIGKILL is on record until it returns and none is started beside it, so at most one lives; slow and unanswered probes alarm, an episode opens with the first and closes only on the third fast probe behind the last |
| `Watchdog.NotInARow` | scripts/disk_watchdog.py:430-436 | any number of probes without a reading may lie between those three |
| `Watchdog.InARow` | scripts/disk_watchdog.py:430-436 | the three are the last three if and only if no probe since the first of them gave no reading |
| `WatchdogDevices.TailMeaning` | scripts/disk_watchdog.py:648-655 | a counter stands at n or more if and only if the last n passes were all of its kind |
| `WatchdogDevices.KindMeans` | scripts/disk_watchdog.py:646-653 | a pass is healthy only if every listed mount was probed and answered, silent only if every one was probed and some was silent |
| `WatchdogDevices.DeviceWatch.ProbeMounts` | scripts/disk_watchdog.py:618-644 | every probe that outlives SIGKILL is recorded and no other, never more than three, and a mount is left unprobed exactly at that limit |
| `WatchdogDevices.DeviceWatch.Repair` | scripts/disk_watchdog.py:534-572 | signals exactly the helpers in the kernel, unmounts exactly the wedged mounts still listed if one was signalled or a probe is stuck and no recorded unmount lives, and records the last unmount abandoned |
| `WatchdogUmounts.LastPidMeans` | scripts/disk_watchdog.py:555-572 | what is recorded is the last unmount that had to be abandoned |
| `WatchdogDevices.DeviceWatch.Pass` | scripts/disk_watchdog.py:612-718 | the live probes are exactly those left and not returned, at most three; a pass with an unprobed mount counts neither towards a recovery nor a confirmed silence; wedged are exactly the mounts with a probe that outlived SIGKILL in this pass, or silent in at least the second silent, fully probed pass in a row, and only those are repaired; an episode closes only after three healthy passes in a row |
| `WatchdogUmounts.ClosesForget` | scripts/disk_watchdog.py:707-711 | for every k a history of one unmount per repair that leaves k hanging, because a close forgets the record |
| `WatchdogUmounts.OneRepairLeavesMany` | scripts/disk_watchdog.py:555-572 | for every k one repair of k mounts leaves k hanging |
| `WatchdogUmounts.AtMostOneHangs` | scripts/disk_watchdog.py:555-572 | at most one unmount hangs in all histories of at most m attempts per repair if and only if m is 0, or is 1 and no episode closes while one hangs |
| `WatchdogRuns.OnePass` | scripts/disk_watchdog.py:612-718 | after any history a pass continues it with returns, a repair and a close as its outcome says |
| `WatchdogRuns.WatchAll` | scripts/disk_watchdog.py:612-718 | over any passes the record and the hanging unmounts are those of the history the outcomes tell; with one mount listed and no close while an unmount hangs, at most one hangs |
| `WatchdogRuns.HangMany` | scripts/disk_watchdog.py:707-711 | for every k the watchdog itself, run through k wedges of one mount and three healthy passes each, ends with k unmounts hanging and none on record |
| `AlarmDedup.FullMeaning` | scripts/build_disagreement_watch.py:252-270 | the unpruned state knows a key if and only if it was ever found, with its last sighting |
| `AlarmDedup.FullAlarmsAreDue` | scripts/build_disagreement_watch.py:264-270 | its alarms are exactly first sightings and sightings more than the re-alert time after the previous one |
| `AlarmDedup.DueMeans` | scripts/build_disagreement_watch.py:264-270 | while the clock does not run back, due is the first of its key in the cycle, not found in any cycle of the re-alert time |
| `AlarmDedup.OncePerCycle` | scripts/build_disagreement_watch.py:252-270 | two findings with one key in one cycle raise at most one alarm |
| `AlarmDedup.PruningIsInvisible` | scripts/build_disagreement_watch.py:271-272 | below the bound every cycle of every history raises the same alarms with and without pruning |
| `AlarmDedup.ExactlyWhenInvisible` | scripts/build_disagreement_watch.py:271-272 | and that holds for all histories with a given spacing if and only if the re-alert time is below it |
| `AlarmDedup.Watch.RunCycle` | scripts/build_disagreement_watch.py:221-276 | runs exactly when forced, first, or due; then, below the bound, announces exactly the keys found now and in no cycle of the last re-alert time, each once, and holds back the rest; a cycle that does not run leaves the alarms alone |

## Left out

- The `verdict` function of `ccache_layer.py` and the parsing of its evidence: settle's green or red is an input.
- Rename over an emptied directory: a rename onto an existing name fails in the model.
- LayerTrim.Trim: the target is nine tenths of the limit rounded down; the rounding of the floating-point product is not modelled, and neither are the interval marker, stale temporary files nor files that vanish between listing and stat.
- LayerPromotion.PromoteLayer: runs alone on values, and a result that had to be copied keeps its time there; `LayerResume` ties it to the interleaved protocol, where a copy has the time it was made.
- LayerCompletion.ResumedRun: sizes play no part in the protocol, the stretch has no trim, and no result in it had to be copied, since a copy gets another time; `NothingIsLost` covers copies and trims of other keys.
- QueueMemo.RecordsAreConfirmations: a scan has one time, at which it loads and confirms.
- LayerSweep.SweepSparesTheLiving: assumes fresh VM names; `LayerReuse` has the theorem for reused ones.
- LayerManifests.EntriesOnlyGetNewer: assumes that only manifests lie at the key, which `TimesAreSafeExactly` shows to be exact.
- The second and third loop of `sweep`: every call of `process` there is a process of its own; that they come to every name listed is not stated.
- The deletion, by an attach or a timed-out process, of what it has just moved to discard: in the model any process of that name may do it.
- Retry backoff, deadlines inside one request, the thread pool and the pagination of job lists in the queue scan: a run's job list is one answer, and the order of runs in a page is arbitrary.
- QueueScan.Scanner.Scan: workflow-id resolution and label normalisation are not modelled; listings and label sets are inputs.
- `lease_fit_count`, `classify_lane` and `build_report` of `gate_supply.py`: they only add easy members; their reports are inputs of the election.
- GateElection.NeverOverBoots: lanes move only from free to in flight, and every lane reads its siblings; `--no-local`, and a lane that finishes, are not covered.
- Pruning of old quarantine batches, the lock and the before/after counts of the guard.
- GuardScan.Guard.RunScan: builds that write into the cache during one run are not modelled; an entry that vanishes before its turn is.
- ReclaimCandidates.RootsDoNotNest: holds of discovered roots; roots declared in `TARTCI_RECLAIM_ROOTS` are not filtered for nesting by the source (scripts/disk_reclaim.py:693-697).
- Validation and formatting of reports and timestamps in the interval export: a report arrives as valid, diagnostic or malformed.
- ReclaimPass.Classify: matching of command lines is an input, and the reasons are not returned.
- ReclaimPass.Reclaim: size and removal are answers of the host; a removal that fails half-way keeps its record as kept.
- Evidence capture, alert texts and the issue handling of the watchdog; `host_off.episode_alert` is an input that closes only what is resolved.
- AlarmDedup.Watch.RunCycle: assumes that the state file can be written; a state that cannot be saved costs deduplication.
- `governor.py`, `capacity_floor.py`, `fleet_doctor.py`, `fleet_preflight.py`, `current_job_scan.py` and the metrics: mappings, rendering, or a second copy of the listing walk.
