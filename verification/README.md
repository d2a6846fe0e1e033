# Quilt package engine: what its runs keep

This project models four stateful parts of the `quilt-rs` engine and one parser, and proves what every run of them keeps.

- **The record.** All packages share `data.json`. A writer locks its package, reads its entry and works; then, under a short lock, it re-reads the record, splices one entry and renames. `Lineage.dfy` and `InstalledPackage.dfy` are the methods; `RecordProtocol.dfy` is any number of tasks running them in any interleaving, with crashes, home changes, try-locks and the locks taken inside a package's.
- **The stat cache.** A walk reads each file's stamp and trusts a saved hash when the stamp matches. `Times.dfy`, `StatCache.dfy` and `Bytes.dfy` are the arithmetic, the cache and its rows; `StatWorld.dfy` is clock ticks, edits and walks in any interleaving; `StateStore.dfy` is the store that recovers from a damaged file.
- **The ignore rules.** Three layers of gitignore lines decide level by level. `RulesText.dfy` and `RulesFile.dfy` are a rules file and its edits, `Escape.dfy` the `!` line that names one path and a small glob language to read it back, `IgnoreRules.dfy` the layers, the lines that bring a path back and the walk that prunes.
- **The tokens.** `Auth.dfy` is one host's stored tokens and credentials, the tasks that renew them under the host's lock with a server that rotates refresh tokens (section 6 of RFC 6749), the logins that write without the lock, the logouts that erase under it, and the role on record; `AuthCalls.dfy` is the calls as one task makes them, each shown to be a run of those steps. `RefreshLocks.dfy` is the map of per-host mutexes.
- **The Windows listing.** `DirChain.dfy` is the chain of `FILE_ID_EXTD_DIR_INFO` records and its parser.

A run is a sequence of enabled steps from an initial state. Flows, hash functions, glob matching outside the small language, the server's answers and storage failures are parameters: every statement holds for all of them. Methods of a class model one holder of the lock they run under; the protocol files show that this is enough.

Several promises hold only under a condition. Each is stated with its condition as an if-and-only-if where that is provable, and with a run or an input that shows it is needed:

- `Times.WholeSecsIsFloor`: floor division, except at 2^63 seconds or more from the epoch, where the saturated value is adjusted once more.
- `RulesText.AppendedTexts`: adding lines leaves the other lines' texts alone unless the file ends, with no break, in an escaped space and a bare carriage return.
- `RulesFile.SetThenRead` and `RulesFile.SetTwice`: setting the built-in rules reads back, and a second call writes nothing, unless removing lines brings a line with a byte-order mark to the top of the file that reads, past the mark, as one that was to go. `RulesFile.MarkUncovered` is such a file.
- `StatWorld.AFullSaveConfirms`: a full walk commits its time for every row in the table, those it did not hash included, so a row can be trusted for a day or more after its last check. There are two causes, each with a run: a row of an algorithm the walk did not use (`StatWorld.ALapsedRowIsTrusted`), and a row another walk saved after the full one began (`StatWorld.AnOverlappedRowIsTrusted`), since a status takes no package lock. The second costs no more than the time the full walk took (`StatWorld.OneAlgorithmADay`); counted from the hash and not from its save, twice the time walks take (`StatWorld.HashedADay`).
- `StatWorld.AnUnshownEditIsMissed`: an edit that shows in no value of the stamp is missed.
- `Auth.RetiredOnlyAfterLoss`: a retired refresh token is presented exactly when that token's own rotation was lost: its answer never came, was not stored, or was cut off by a crash. `Auth.LostIsPresented` says that it will be, unless a login comes first, and `Auth.LossLeadsToRetired` is such a run.
- `Auth.CredsPostdateFlushes`: stored credentials are older than the last flush exactly when a login wrote them that had been vended them, and not written them yet, when a flush was done, since a login takes no lock. `Auth.ALoginOutlivesAFlush` is such a run.

## Model

| member | source | states |
|---|---|---|
| Lineage.SpliceChangesOneEntry | quilt-rs/src/lineage.rs:184-199 | splicing an entry changes that entry alone, not the home, and splicing the old one back restores the record |
| Lineage.UpdateTouchesOneEntry | quilt-rs/src/lineage.rs:167-199 | an update succeeds exactly when the record reads, the edit accepts the entry on disk and a needed write lands; then only that entry changed; an error writes nothing |
| Lineage.HomeChangeSparesPackages | quilt-rs/src/lineage.rs:251-291 | a home change touches no entry, and without overwrite changes a stored home only while nothing is installed |
| Lineage.HomeChangeExactly | quilt-rs/src/lineage.rs:251-291 | when a home change refuses, keeps the record or writes, and what |
| Lineage.RecordReads | quilt-rs/src/lineage.rs:119-129 | which records read, and that one with no home is refused |
| Lineage.DomainLineageIo.WriteUnlocked | quilt-rs/src/lineage.rs:306-315 | the file holds the record, or is as it was when the write fails |
| Lineage.DomainLineageIo.Update | quilt-rs/src/lineage.rs:167-181 | re-reads, steps, and writes only when the record changed; any error leaves the file |
| Lineage.DomainLineageIo.UpdatePackageLineage | quilt-rs/src/lineage.rs:184-199 | the update whose step is one splice |
| Lineage.DomainLineageIo.EditPackageLineage | quilt-rs/src/lineage.rs:204-218 | succeeds exactly when the package is installed and a needed write lands, and then its entry is the edited one; else the file is as it was |
| Lineage.DomainLineageIo.ChangeHome | quilt-rs/src/lineage.rs:229-291 | refuses, keeps or writes as the home change says; a folder that cannot be made writes nothing |
| InstalledPackage.WithEntryReadsBack | quilt-rs/src/lineage.rs:352-389 | a written entry reads back, other packages' entries are spared, the last of two writes stays |
| InstalledPackage.LockedPackage.Read | quilt-rs/src/lineage.rs:131-147 | answers the entry the record on disk has for the package; an error is the record's own, or that the package is not installed |
| InstalledPackage.LockedPackage.Write | quilt-rs/src/lineage.rs:375-389 | succeeds exactly when the record reads and the storage writes, or the entry is there already; then the record has this entry, else the file is as it was |
| InstalledPackage.LockedPackage.PushFrom | quilt-rs/src/installed_package.rs:968-1017 | when it succeeds, and that the pushed entry is on disk exactly when the push got to its write; a push that loses the remote has written and is an error |
| InstalledPackage.LockedPackage.Pull | quilt-rs/src/installed_package.rs:1148-1197 | when it succeeds; then the pulled entry is on disk, or the refreshed one when there is nothing to pull |
| InstalledPackage.LockedPackage.CertifyLatest | quilt-rs/src/installed_package.rs:1365-1380 | for every failure which of the old, the pushed and the tagged entry is on disk, and exactly when it succeeds |
| InstalledPackage.LockedPackage.Keep | quilt-rs/src/installed_package.rs:1046-1068 | for every failure which of the old, the rescoped and the installed entry is on disk, and exactly when it succeeds |
| InstalledPackage.LockedPackage.SetRemote | quilt-rs/src/installed_package.rs:1452-1548 | a pushed package keeps its remote; for each outcome of the recommit which entry is left, whether it succeeds and whether it warns |
| RecordProtocol.GoodKept | quilt-rs/src/package_lock.rs:3-13 | every step of every task keeps exclusion, the lock order, and that what a task remembers is what is on disk |
| RecordProtocol.DataStepSparesOthers | quilt-rs/src/lineage.rs:157-199 | a write is made under the short lock over the record on disk and changes one locked package's entry, or the home alone |
| RecordProtocol.StepsAreTheMethods | quilt-rs/src/lineage.rs:167-291 | each interleaved write leaves what the method would leave, run in one piece |
| RecordProtocol.GoodRun | quilt-rs/src/package_lock.rs:46-73 | the invariant holds in every state of every run |
| RecordProtocol.EveryStepFollows | quilt-rs/src/installed_package.rs:174-189 | each step is one step, or none, of the machine with one writer at a time |
| RecordProtocol.EveryHistoryIsSerial | quilt-rs/src/lineage.rs:375-389 | in any interleaving with crashes each package's history is a serial run of its own writers: no update is lost |
| RecordProtocol.SplicedOverItsBasis | quilt-rs/src/installed_package.rs:1148-1197 | the entry a writer splices over is the one it read, or last wrote, under its package's lock |
| RecordProtocol.HomeStays | quilt-rs/src/lineage.rs:229-291 | without overwrite a stored home does not change while any package is installed |
| RecordProtocol.SomeLockToRelease | quilt-rs/src/auth.rs:182-192 | a task that holds locks and waits for none can let one go in nesting order |
| RecordProtocol.SomeoneCanStep | quilt-rs/src/package_lock.rs:11-13 | while a task waits, some task can take or release a lock |
| RecordProtocol.FinishingLightens | quilt-rs/src/package_lock.rs:11-13 | taking a waited-for lock or releasing one makes the whole load smaller |
| RecordProtocol.EveryRunDrains | quilt-rs/src/installed_package.rs:447-463 | from every reachable state all tasks can come to rest: no deadlock |
| Times.WholeSecsIsFloor | quilt-rs/src/stat_cache.rs:135-148 | floor division on both sides of the epoch, for exactly the times less than 2^63 seconds from it |
| Times.WholeSecsMonotone | quilt-rs/src/stat_cache.rs:135-148 | later times fall in no earlier second, within that range |
| Times.WholeSecsFallsAtTheEdge | quilt-rs/src/stat_cache.rs:140-145 | at the edge of the range the order breaks |
| Times.NanosRoundTrip | quilt-rs/src/state_store.rs:605-619 | a time reads back as itself exactly when it fits 64 bits, the minimum included; others read back as the nearest bound |
| Times.MillisRoundTrip | quilt-rs/src/state_store.rs:621-628 | exact for whole milliseconds from the epoch on that fit, else less than one early |
| Times.FiletimeExact | quilt-rs/src/file_stamp.rs:303-316 | a file time is refused exactly when the subtraction overflows, and is exact otherwise |
| Times.FiletimeKeepsOrder | quilt-rs/src/file_stamp.rs:761-769 | file times keep their order |
| StatCache.StatCache.constructor | quilt-rs/src/stat_cache.rs:54-60 | a walk's cache starts with what was saved and nothing seen |
| StatCache.StatCache.Lookup | quilt-rs/src/stat_cache.rs:70-83 | the saved hash for an equal, trusted stamp that is not racy, on a walk that is not full |
| StatCache.StatCache.See | quilt-rs/src/stat_cache.rs:86-88 | adds the path to those found |
| StatCache.StatCache.Record | quilt-rs/src/stat_cache.rs:92-105 | a trusted entry at a UTF-8 path becomes the last update, unless the saved one has its stamp and hash and is not racy; any other changes nothing |
| StatCache.StatCache.Gone | quilt-rs/src/stat_cache.rs:115-126 | the loop finds exactly the paths that have a saved entry, of any algorithm, and were not seen |
| StatCache.RowsRoundTrip | quilt-rs/src/state_store.rs:567-603 | which entries make a row, and that it reads back as the same entry exactly when its times fit |
| StatCache.RowHolds | quilt-rs/src/state_store.rs:567-603 | each column of a row is the field of the entry it is named for |
| StatCache.UpsertedReads | quilt-rs/src/state_store.rs:320-377 | after the updates each key holds the last one for it, or what it held |
| StatCache.ReloadAfterSave | quilt-rs/src/state_store.rs:320-377 | a reload gives the saved entries less those not found, overridden by the updates |
| StatWorld.FreshEditTimeShows | quilt-rs/src/stat_cache.rs:32-37 | an edit time from a clock whose tick divides a second is racy against every earlier save |
| StatWorld.GoodKept | quilt-rs/src/stat_cache.rs:70-105 | every step keeps that while a file shows an entry's stamp the entry has its hash or is racy |
| StatWorld.AHitIsTheHash | quilt-rs/src/stat_cache.rs:68-83 | in any run whose edits show a new stamp or the clock's time, a hit is the hash of the content the stamp was read with, even when the recording walk hashed after an edit |
| StatWorld.AnUnshownEditIsMissed | quilt-rs/src/stat_cache.rs:32-37 | an edit that shows in no value of the stamp is missed |
| StatWorld.HashedIsHit | quilt-rs/src/stat_cache.rs:68-105 | in any run a file a saved walk hashed is a hit for the next walk that is not full, with no other save in between, when its stamp reads the same and was not edited in the second it was saved |
| StatWorld.ConfirmedIsTrusted | quilt-rs/src/state_store.rs:306-315 | the table is confirmed within `d` exactly when at every later time a walk may trust it each row was checked less than 24 hours and `d` before |
| StatWorld.AFullSaveConfirms | quilt-rs/src/state_store.rs:320-377 | saving a full walk confirms the table within `d` exactly when each row it will not delete was hashed by it, with that row's algorithm, or checked in the last `d` |
| StatWorld.TrustedLessThanADay | quilt-rs/src/state_store.rs:273-318 | in a run whose full walks cover the table within `d`, what a later walk may trust was checked less than 24 hours and `d` before it began |
| StatWorld.TimelyWalksCover | quilt-rs/src/installed_package.rs:476-507 | with one algorithm a file, full walks that load the table and take at most `d`, or have it to themselves, cover it within `d`, whatever other walks save meanwhile |
| StatWorld.OneAlgorithmADay | quilt-rs/src/stat_cache.rs:20-21 | so in those runs what a walk may trust was checked less than 24 hours and `d` before |
| StatWorld.HashedADay | quilt-rs/src/stat_cache.rs:20-21 | and, when every saved walk takes at most `d`, was hashed less than 24 hours and twice `d` before |
| StatWorld.NoSaveSince | quilt-rs/src/state_store.rs:273-318 | a walk has the table to itself while no walk is saved after it loaded it |
| StatWorld.ALapsedRowIsTrusted | quilt-rs/src/state_store.rs:320-377 | a run where a row of another algorithm is trusted a day after its last check |
| StatWorld.AnOverlappedRowIsTrusted | quilt-rs/src/installed_package.rs:552-617 | a run where two walks overlap and a row is trusted a day after its last check |
| StateStore.ActivityRoundTrip | quilt-rs/src/state_store.rs:79-98 | a recorded change reads back with its source, less than a millisecond early |
| StateStore.SourceNames | quilt-rs/src/state_store.rs:65-98 | the stored name of each source, and that nothing else reads as one |
| StateStore.PackageStateStore.constructor | quilt-rs/src/state_store.rs:173-190 | a new store has opened nothing |
| StateStore.PackageStateStore.FileRemoved | quilt-rs/src/state_store.rs:381-432 | the file deleted by another keeps the store valid |
| StateStore.PackageStateStore.OpenConnection | quilt-rs/src/state_store.rs:433-467 | opens the file, a new one after damage, or memory; exactly which errors it meets and that it deletes only the damaged file it met |
| StateStore.PackageStateStore.Call | quilt-rs/src/state_store.rs:400-430 | the call on what is open: the first damage it meets on the file deletes it, any other failure goes to memory |
| StateStore.PackageStateStore.Try | quilt-rs/src/state_store.rs:381-432 | one attempt runs the call at most once; exactly which errors are met and what is deleted, and when another attempt follows |
| StateStore.PackageStateStore.Run | quilt-rs/src/state_store.rs:381-432 | runs the call once, and succeeds exactly when a run of attempts does; meets and deletes exactly what that does; memory once used is kept and the file left alone; three attempts suffice when memory opens |
| StateStore.RunCareful | quilt-rs/src/state_store.rs:381-467 | in every run each deletion comes right after an error that says the file is damaged, at most one an attempt and one more |
| StateStore.WhenRunsSucceed | quilt-rs/src/state_store.rs:381-432 | a run succeeds when memory opens and the call works at once, or after one failure on the open file; not when neither the file nor memory opens; in memory exactly when the call works |
| StateStore.WhatIsOpen | quilt-rs/src/state_store.rs:400-467 | the file is used exactly when it, or a new one after damage, opens, else memory; after a failed call the file again only for its first damage |
| StateStore.FirstDamageDeletes | quilt-rs/src/state_store.rs:381-467 | the file is deleted exactly for an error that says it is corrupt, not a database or of a newer schema, once a run |
| StateStore.PackageStateStore.RecordChange | quilt-rs/src/state_store.rs:214-227 | replaces the package's row exactly when its run succeeds, on a calm store always, and leaves the others; else changes nothing recorded |
| StateStore.PackageStateStore.RecordFirstSeen | quilt-rs/src/state_store.rs:229-243 | stores only where there is no row; on a calm store exactly there, and any run that succeeds without storing found one |
| StateStore.PackageStateStore.Forget | quilt-rs/src/state_store.rs:245-253 | removes the package's row exactly when its run succeeds, on a calm store always, and leaves the others |
| StateStore.PackageStateStore.LastChange | quilt-rs/src/state_store.rs:192-212 | the last change recorded with success or nothing, never an older one; on a calm store the row that is there |
| RulesText.FlattenPieces | quilt-rs/src/quiltignore.rs:478-493 | splitting a file into lines and joining them gives the file |
| RulesText.PiecesFlatten | quilt-rs/src/quiltignore.rs:478-493 | joining lines and splitting gives the lines |
| RulesText.AppendedPieces | quilt-rs/src/quiltignore.rs:417-428 | added lines come after the file's own, each whole |
| RulesText.EndedReads | quilt-rs/src/quiltignore.rs:88-99 | a break after the last line keeps its text exactly when it holds no bare return after an escaped space |
| RulesText.GlobTextMeans | quilt-rs/src/quiltignore.rs:88-99 | a line's glob is the line less the white space at its end, all of it or none after an escaped space; comments and blank lines have none |
| RulesText.LineOfMeans | quilt-rs/src/quiltignore.rs:124 | a line is its piece without the break, whether `\n` or `\r\n` |
| RulesText.AppendedTexts | quilt-rs/src/quiltignore.rs:121-152 | the parser sees the old texts and then the new ones exactly under that condition |
| RulesFile.RemovingUndoesAppending | quilt-rs/src/quiltignore.rs:418-493 | removing added lines gives the file back, its last line ended, exactly when none of them was there before |
| RulesFile.WithoutNone | quilt-rs/src/quiltignore.rs:462-475 | a removal leaves the text alone exactly when it has none of the lines |
| RulesFile.TidyReadings | quilt-rs/src/quiltignore.rs:483-489 | the removal and the parser read a line with no trimmable end alike |
| RulesFile.RuleLinesTrimmed | quilt-rs/src/quiltignore.rs:558-570 | reading a whole file's lines finds a rule exactly when some line trims to it |
| RulesFile.DefaultRulesAreTidy | quilt-rs/src/quiltignore.rs:15-47 | each built-in rule's `!` line reads back as written |
| RulesFile.SetThenRead | quilt-rs/src/quiltignore.rs:574-622 | exactly the chosen rules read off, if and only if the removal uncovers no removed line |
| RulesFile.SetTwice | quilt-rs/src/quiltignore.rs:589-624 | a second identical call writes nothing, under the same condition and no other |
| RulesFile.NoInnerMarkUncovers | quilt-rs/src/quiltignore.rs:484-488 | a file with no inner byte-order mark meets that condition |
| RulesFile.SetKeepsTheRest | quilt-rs/src/quiltignore.rs:585-621 | but for the built-in rules' own lines the file keeps every line and the order |
| RulesFile.MarkUncovered | quilt-rs/src/quiltignore.rs:478-493 | a file with an inner mark where a rule set on still reads off |
| RulesFile.OnDisk.AppendLines | quilt-rs/src/quiltignore.rs:432-460 | the file holds what the preview in memory shows |
| RulesFile.OnDisk.RemoveLines | quilt-rs/src/quiltignore.rs:464-475 | the file without the lines; with none to take nothing is written |
| RulesFile.OnDisk.SetDefaultRules | quilt-rs/src/quiltignore.rs:589-634 | an unknown rule or a failure leaves the file; one replacement at most, none when nothing changes |
| RulesFile.FindUnknown | quilt-rs/src/quiltignore.rs:590 | finds the first rule that is not built in, exactly when there is one |
| RulesFile.JoinLines | quilt-rs/src/quiltignore.rs:423-427 | the added text is each line with its break |
| Escape.Escape | quilt-rs/src/quiltignore.rs:394-415 | the loop computes the escaped name |
| Escape.MakeStopLine | quilt-rs/src/quiltignore.rs:361-392 | the line for a scope, or none when a name holds a break |
| Escape.EscapedParses | quilt-rs/src/quiltignore.rs:394-415 | an escaped name parses to one token a character, whatever follows |
| Escape.NameMatches | quilt-rs/src/quiltignore.rs:394-415 | those tokens match exactly the name |
| Escape.JoinInjective | quilt-rs/src/quiltignore.rs:385 | a joined path has one reading as names |
| Escape.AnchoredLineNamesItsPath | quilt-rs/src/quiltignore.rs:361-392 | the package's line accepts its path and no other, a folder's only folders |
| Escape.NameLineNamesTheName | quilt-rs/src/quiltignore.rs:353-392 | the user's line accepts exactly the paths that end in its name |
| Escape.StopLineIsTidy | quilt-rs/src/quiltignore.rs:399-407 | a stop line has nothing at its end the parser would trim |
| IgnoreRules.ParseFile | quilt-rs/src/quiltignore.rs:121-152 | each line that makes a glob, with its number; one bad glob refuses the file |
| IgnoreRules.TheLineThatDecided | quilt-rs/src/quiltignore.rs:76-86 | the line number shown is that of the glob that decided, whatever lines repeat it |
| IgnoreRules.NumberedMeans | quilt-rs/src/quiltignore.rs:121-152 | the numbers kept are those of exactly the lines that make a glob, and rise |
| IgnoreRules.FindIgnoredBy | quilt-rs/src/quiltignore.rs:286-300 | the rule of the first ignored level |
| IgnoreRules.IgnoredMeansHidden | quilt-rs/src/quiltignore.rs:286-348 | a path has a rule exactly when some level of it is hidden by the layers |
| IgnoreRules.MatchedMeans | quilt-rs/src/quiltignore.rs:303-348 | a glob ignores exactly when it is the last of the file that matches and is no `!` line |
| IgnoreRules.LevelNames | quilt-rs/src/quiltignore.rs:303-348 | the rule a level names: its pattern is the deciding line of the package's file, else of the user's, else built in, with that file and the line's number |
| IgnoreRules.IgnoredByNames | quilt-rs/src/quiltignore.rs:286-348 | the rule that ignores a path is exactly the one its first level with a rule names |
| IgnoreRules.IgnoredFolderDecides | quilt-rs/src/quiltignore.rs:272-300 | an ignored folder gives everything below it its own verdict |
| IgnoreRules.TrackedOnlySpares | quilt-rs/src/quiltignore.rs:309-325 | a tracked path is hidden only by a package rule, and then is hidden untracked too |
| IgnoreRules.WithLinesAdds | quilt-rs/src/quiltignore.rs:217-235 | adding lines adds their globs after the file's own and changes no other |
| IgnoreRules.AddedHidesNothingNew | quilt-rs/src/quiltignore.rs:303-348 | added `!` lines hide no level that was visible, and which they bring back |
| IgnoreRules.StopIgnoringLines | quilt-rs/src/quiltignore.rs:244-270 | the loop answers what the search level by level does, and no lines exactly for a path no rule ignores |
| IgnoreRules.Reopen | quilt-rs/src/quiltignore.rs:255-267 | one level: a line more exactly for a level the rules still hide, and only one that brings it back |
| IgnoreRules.StopLinesAreNeeded | quilt-rs/src/quiltignore.rs:237-270 | for either file, said with the layers and not the search: every line is the stop line of a level the rules hide with the lines before it, these levels rise, every level passed over is visible, and the last level reached decides between all the lines, refusal and error |
| IgnoreRules.NothingToStop | quilt-rs/src/quiltignore.rs:237-270 | no lines are answered exactly when no rule ignores the path, whichever file they are for |
| IgnoreRules.StoppingWorks | quilt-rs/src/quiltignore.rs:237-270 | lines that come back bring back the path and each folder above, newly hide nothing; the user's file refuses only what a package rule hides |
| IgnoreRules.PackageLinesExactly | quilt-rs/src/quiltignore.rs:244-270 | in the package the lines are one for each hidden level; an error exactly when a hidden level's path holds a line break |
| IgnoreRules.EveryLineIsNeeded | quilt-rs/src/quiltignore.rs:237-242 | without any one of them the path stays hidden |
| IgnoreRules.SmallLanguageIsFaithful | quilt-rs/src/quiltignore.rs:361-415 | the small glob language reads every stop line as the line it is meant to be |
| IgnoreRules.PrunedKeepsNothing | quilt-rs/src/flow/status.rs:99-149 | under an ignored folder no file's own verdict keeps it, and no file or folder is in a folder that is not ignored |
| IgnoreRules.WalkFolder | quilt-rs/src/flow/status.rs:120-146 | one folder: with what its queue is expected to give, what it and the folders before it were expected to |
| IgnoreRules.WalkEntry | quilt-rs/src/flow/status.rs:121-146 | one entry is kept, reported as ignored with its rule, or queued |
| IgnoreRules.WalkPackageHome | quilt-rs/src/flow/status.rs:99-149 | the pruning walk reports exactly the files their own verdicts keep, and exactly the topmost ignored folders and the ignored files outside them, each with its rule |
| IgnoreRules.EntriesExactly | quilt-rs/src/flow/status.rs:99-149 | path by path: kept exactly when it is a file of the tree that its verdict, tracked or not, keeps; reported exactly when it is outside ignored folders and ignored by that rule |
| IgnoreRules.TrackedDirs | quilt-rs/src/flow/status.rs:84-97 | exactly the folders above a tracked file |
| IgnoreRules.ClimbFrom | quilt-rs/src/flow/status.rs:88-92 | stopping the climb at a known folder loses none |
| IgnoreRules.WalkTracked | quilt-rs/src/flow/status.rs:452-461 | so it does for a package's tracked files, with the folders `TrackedDirs` finds for them |
| Auth.TokensKept | quilt-rs/src/auth.rs:327-469 | every step keeps that the stored and held refresh tokens are replaced only if their own rotation was lost, or is not stored yet |
| Auth.VendsKept | quilt-rs/src/auth.rs:856-935 | a vend is under way only while there are no valid credentials, or a login stored them |
| Auth.RolesKept | quilt-rs/src/auth.rs:519-592 | a role on record is flushed for, or its flush is in progress |
| Auth.RetiredOnlyAfterLoss | quilt-rs/src/auth.rs:327-469 | in any run a refresh token presented is retired exactly when its own rotation was lost, not stored or cut off by a crash |
| Auth.SecondRefreshIsUsable | quilt-rs/src/auth.rs:448-469 | in any run the server takes a token presented, on the forced second refresh too, exactly when its own rotation was not lost |
| Auth.StoredRetiredIsPresented | quilt-rs/src/auth.rs:325-347 | in any run, with the lock free and a replaced token stored, the next token presented before a login is that one |
| Auth.LostIsPresented | quilt-rs/src/auth.rs:325-347 | in any run, after the answer to a rotation of the stored token is lost, the next token presented before a login is that one |
| Auth.LossLeadsToRetired | quilt-rs/src/auth.rs:339-343 | a whole run where a lost answer makes the next caller present a retired token |
| Auth.OneVendServesAll | quilt-rs/src/auth.rs:856-906 | once valid credentials are stored and no vend is under way, until they run out or are flushed, replaced or erased, every caller gets them and no vend is asked for |
| Auth.OwnCredsServeAll | quilt-rs/src/auth.rs:856-906 | and so from any moment credentials that no login wrote are stored |
| Auth.NoVendWhileValid | quilt-rs/src/auth.rs:856-906 | while valid credentials are stored, whoever replaces them, no vend starts and each caller gets those stored when it looks |
| Auth.RecordedRoleWasFlushed | quilt-rs/src/auth.rs:561-592 | a role on record outside a call: the credentials were deleted since it went on record |
| Auth.FailedFlushIsRetried | quilt-rs/src/auth.rs:561-592 | in any run, after a failed flush the next role the application is told, by whichever call, is flushed for |
| Auth.RoleCallEnds | quilt-rs/src/auth.rs:561-592 | in any run a call told a role ends with it on record over deleted credentials, with none on record after a failed delete, or, never for a switch, with nothing changed because it was on record |
| Auth.CredsPostdateFlushes | quilt-rs/src/auth.rs:685-729 | stored credentials are older than the last flush exactly when they were a login's, vended and not yet written, when a flush was done |
| Auth.ALoginOutlivesAFlush | quilt-rs/src/auth.rs:194-230 | a whole run where a login writes valid credentials older than the last flush |
| Auth.Session.ObserveRole | quilt-rs/src/auth.rs:543-549 | records the role and says whether it differs |
| Auth.Session.ForgetRole | quilt-rs/src/auth.rs:554-559 | the host has no role on record |
| Auth.Session.ExpireCredentials | quilt-rs/src/auth.rs:531-537 | deletes the host's credentials, or leaves them on failure |
| Auth.Session.ReconcileRole | quilt-rs/src/auth.rs:575-592 | the role stands only when it stood before or the credentials are gone; other hosts are left alone |
| Auth.Session.AfterSwitch | quilt-rs/src/auth.rs:779-783 | after a switch the credentials are gone or the role is unknown; other hosts are left alone |
| AuthCalls.Caller.RefreshTokens | quilt-rs/src/auth.rs:325-347 | presents the token in hand and stores the answer: the new tokens, or the new access token with the refresh token presented; a first refusal keeps the same token |
| AuthCalls.Caller.RefreshTokensWithRetry | quilt-rs/src/auth.rs:349-395 | at most one retry, with the same token; the call goes on with the stored access token or ends |
| AuthCalls.Caller.AccessToken | quilt-rs/src/auth.rs:594-616 | a stored token outside its last minute is used as it is; inside it, or when forced, it is refreshed |
| AuthCalls.Caller.AskWithRetry | quilt-rs/src/auth.rs:397-446 | a refused call is made once more with a token fetched anew; nothing but the tokens changes |
| AuthCalls.Caller.GetCredentialsOrRefresh | quilt-rs/src/auth.rs:856-935 | valid stored credentials are given and nothing is asked for; others only as vended and stored; none exactly when there were none and the last step got nothing; the lock is let go |
| AuthCalls.Caller.VendNew | quilt-rs/src/auth.rs:925-933 | under the lock, credentials are given only once stored, after at most two asks; always when they are vended at once, or after one refusal and a refresh, and then stored; none exactly when the last step got nothing |
| AuthCalls.VendedIsGiven | quilt-rs/src/auth.rs:397-446 | in any run of the call that so vends, what it writes last and gives is what the server vended |
| AuthCalls.Caller.ReconcileRole | quilt-rs/src/auth.rs:575-592 | the steps one after the other leave what the session's method leaves, for this application alone; it fails exactly when the delete does |
| AuthCalls.Caller.RoleCall | quilt-rs/src/auth.rs:691-787 | a role answered was reconciled; none, exactly when the last step got nothing, leaves the credentials, and this application's role as it was or unknown |
| AuthCalls.Caller.ExpireCredentials | quilt-rs/src/auth.rs:519-537 | the credentials are gone, or as they were exactly when the delete fails |
| RefreshLocks.RefreshLocks.RefreshLockFor | quilt-rs/src/auth.rs:165-177 | the one mutex of all the host's live handles; the map then has exactly the hosts with one |
| RefreshLocks.RefreshLocks.Prune | quilt-rs/src/auth.rs:170 | drops exactly the entries whose mutex no one refers to |
| RefreshLocks.RefreshLocks.OneMutexAHost | quilt-rs/src/auth.rs:73-85 | live handles share a mutex exactly when they are of one host |
| RefreshLocks.RefreshLocks.OneLockHolderAHost | quilt-rs/src/auth.rs:73-85 | two callers never hold one host's lock at once |
| DirChain.ParseRecord | quilt-rs/src/file_stamp.rs:867-894 | one record field by field, nothing for the dots, or an error; for a record within the buffer exactly a file's negative length or a time out of range; no read passes the end |
| DirChain.ParseChain | quilt-rs/src/file_stamp.rs:859-904 | the loop ends and finds what the chain holds, after what was found before, each entry field by field from the bytes |
| DirChain.RecordFields | quilt-rs/src/file_stamp.rs:867-894 | at which offset each field of a record is read, and each unit of its name |
| DirChain.ListedShows | quilt-rs/src/file_stamp.rs:796-820 | each file listed shows its record: the name, the kind from its attribute bits, the size of a file, the edit time from the last write, the change time unless it is zero, and the id |
| DirChain.ChainOnIsChain | quilt-rs/src/file_stamp.rs:859-904 | carrying the listing along changes nothing but its front |
| DirChain.ChainLists | quilt-rs/src/file_stamp.rs:859-904 | a buffer that holds a list of records lists them in order without the dots |
| DirChain.ChainHolds | quilt-rs/src/file_stamp.rs:859-904 | a listing comes only of a buffer that holds such records |
| DirChain.EncodedLists | quilt-rs/src/file_stamp.rs:322-337 | a buffer written for records parses to their listing, whatever follows them |
| DirChain.EncodedShows | quilt-rs/src/file_stamp.rs:859-904 | and what is listed shows each written record field by field |

## Left out

- StatCache.StatCache.Gone: as a set, because only which paths are deleted matters; the source sorts them.
- StatWorld.AHitIsTheHash: a file's content is hashed in one step, so a change in the middle of reading one file is not modelled.
- RulesFile.SetKeepsTheRest: for files with no inner byte-order mark; with one a kept line can read differently at the top of the file, as `RulesFile.MarkUncovered` shows.
- RulesFile.OnDisk.AppendLines: a write that fails part-way leaves the file as it was opened, and a file that can be appended to but not read is not modelled.
- Escape.EscapedParses: the small language has literals, escapes, `?`, `*`, classes without ranges or negation, plain alternations and a leading `**/`; any other `**` is two stars, and matching keeps case.
- IgnoreRules.WalkPackageHome: what is found is sets, not lists; a folder that cannot be listed, and entries that are neither file nor folder, which the walk takes whatever the rules say, are not modelled.
- AuthCalls.Caller.VendNew: in the calls written as methods the lock is got and the store reads; a call that ends there is the `Fail` step of `Auth.dfy`, whose runs have it.
- Auth.NoVendWhileValid: a vend already under way when a login stores credentials goes on to its end, since a login takes no lock; the statement starts from a state with none under way.
- The flows themselves (push, pull, install, commit, publish, certify): arbitrary functions from entry to entry or error. Writers not shown have the same read, work, write shape as those that are.
- The stat tables in the store's own file: they go through the same calls as the activity table. Another program that puts a good file in place of an open one is not modelled.
- Names that are not UTF-8 in ignore rules: the source answers an error before any line is made.
- Symbolic links that name a rules file: a link is the file it points at.
- The bounds of the standard library's own clock type.
- The calls that fill a listing's buffer, and the other platforms' listings.
- Fairness and the order of those who wait for a lock.
- The network, JSON, SQLite and hash algorithms: abstract, as whole reads, whole writes and arbitrary answers.
- Which error the server or the storage gives: calls that fail end without an answer.
- Cancelled futures: an operation runs to its end, fails, or its process crashes.
- The set-up write of the whole record, and edits of `data.json` by hand.
- The inode of a lock file: a lock is one object for all tasks, which the never-deleted lock file gives.
- Removal of unused objects and revisions: tasks that only try a package's lock.
- The desktop application's own caches of role names and storage clients, which a logout clears after it erases the host's files.
- The command line, the user interface and log output: they call what is modelled and keep no state of their own that it depends on.
