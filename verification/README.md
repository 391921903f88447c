# Catalog, backup and capsule core: a verified model

This project models the state-changing core of a self-hosted photo and file
server: the catalog of entries, albums, folders and source mappings with its
hash-chained change journal; the backup coordinator that publishes plans into the
catalog and recovers after crashes; photo ingest, live pairs and source imports;
the encrypted stream formats; and the capsules that hand out bytes a bounded
number of times.

Functions give the meaning of each operation. Methods and classes follow the
loops, fields and early returns of the Go code and are proved to compute them.
The main results are about runs: devices following the catalog converge, backups
publish once and survive a crash at any durable write, a folder move published
late moves exactly what was planned, every reachable tree keeps its folder forest,
a capsule admits at most its limit and stays dead once dead, a mint happens once. Where the code does not
meet a property, a lemma gives a concrete state and another the exact condition.

| area | files |
|---|---|
| entries, paths | `Prelude`, `Paths`, `Entries` |
| journal and sync | `Journal`, `JournalWriter`, `Sync`, `Pages`, `BoundedPages` |
| catalog object and edits | `Catalog`, `Index`, `Edits`, `Moves`, `Trash`, `Copies`, `Revisions`, `CatalogSteps` |
| albums, folders, imports | `Albums`, `Collections`, `LivePairs`, `SourceImport`, `ImportOrder`, `CollectionStore`, `CollectionPages` |
| photos | `PhotoIngest`, `PhotoBatch` |
| backup protocol | `BackupCas`, `BackupPlan`, `BackupMoves`, `BackupPlanner`, `BackupJournal`, `BackupProtocol`, `BackupSafety`, `BackupRuns`, `BackupWrites`, `BackupRetry`, `BackupOutcomes`, `BackupReplay`, `BackupExpired`, `BackupCoordinator` |
| streams and capsules | `StreamFile`, `CapsuleStream`, `Gallery`, `GalleryRuns`, `GalleryStore`, `MobileMint` |

The outside world enters as parameters: what a disk write, the storage backend, a
permission check or the clock answers, and which fresh ids and nonces are drawn. A
process that dies is modelled by the durable states it leaves behind. Digests and
authenticated encryption are ideal: a digest is what was hashed, a sealed frame
opens only as what was sealed.

## Findings

| where | what the code does | proved by |
|---|---|---|
| `internal/cryptox/streamfile_reader.go:76-91` | A failed load clears the cached chunk but keeps its index. Going back to the chunk read before the failure then reads an empty cache: a panic inside the chunk, an endless empty read at its start. Reads are exact if and only if no load has failed since the last success or the chunk differs from the last one read. | `StreamFile.LostChunk`, `StreamFile.TornFile`, `StreamFile.ReadsExactly` |
| `internal/catalog/backup_cas.go:141-143`, `internal/backup/README.md:54-57` | When the publication proof has left the retained journal, the comment says callers fail closed. A plan with a guarded overwrite does; a plan that only created entries, all purged since, is published a second time by recovery. | `BackupExpired.ExpiredProofReplays`, `BackupReplay.RecoveryReplays`, `BackupReplay.ReplayExact` |
| `internal/catalog/photo_ingest.go:99-107` | Committing a still with its motion links the motion without looking at the albums, so an album can go on listing a linked motion, which pairing and album edits rule out. | `CatalogSteps.AlbumCanListMotion`, `PhotoIngest.IngestMotionFree` |
| `internal/catalog/mutations_copy.go:119-131` | Restore compares the entries it brings back with present ones only, not with each other: two tombstones at one path both come back. | `Trash.BothComeBack`, `Trash.RestoreKeepsPaths` |
| `internal/catalog/photo_pair_mutations.go:20-51` | Restoring a path brings back older tombstones at or below it too, so delete and restore are inverse exactly when there are none. | `Trash.OlderComesBackToo`, `Trash.DeleteRestoreExact` |
| `internal/catalog/catalog.go:243-286` | An entry can be renamed to the place of an ancestor that is only an implied folder; renaming back is then refused. | `Moves.NoWayBack`, `Moves.RenameRoundTrip` |
| `internal/catalog/mutations_copy.go:34-45` | The conflict check of a copy passes over the tree being copied and over implied folders under a copied file. Copying a tree onto a place above it can put two present entries at one path, and a copied file can come to lie above stored entries. | `CopyTree.CopyLandsOnItself`, `CopyTree.CopyKeepsPaths`, `CopyTree.CopyOverFolder`, `CopyTree.CopyKeepsShape` |
| `internal/catalog/mutations.go:42-66` | A file may be put at the path of an implied folder and then lies above the entries of that folder. | `Edits.PutOverFolder`, `Edits.PutKeepsShape` |
| `internal/capsule/store.go:131-136` | Deleting an owner removes directories without revoking first. A removal that fails half-way can leave a record that still lives without its bytes. | `GalleryRuns.TornLives`, `GalleryRuns.BytesHeld` |

## Model

| member | source | states |
|---|---|---|
| Journals.AppendValid | internal/catalog/journal.go:110-126 | appending to a valid journal gives a valid one whose hash commits to the old history followed by the one numbered change; nothing retained is lost |
| Journals.TruncateValid | internal/catalog/journal.go:102-104 | cutting to the 8192 newest records keeps the journal valid and its hash |
| Journals.AcceptsExact | internal/catalog/journal.go:169-185 | a position is accepted exactly when it lies on this history and is still retained (its own record, the current end, or an untruncated beginning) |
| Journals.BranchDetected | internal/catalog/journal.go:169-185 | a position issued by one catalog is accepted by another only if both share the whole history up to it; a position ahead of the journal is refused |
| JournalWriter.NextJournal | internal/catalog/journal.go:42-106 | the journal of a save grows by changes whose replay takes the saved tree to the candidate, each telling the truth about its entry; it fails only when the sequence number runs out |
| JournalWriter.JournalFiles | internal/catalog/journal.go:51-78 | replaying what the entry diff appends turns the old entry map into the new one, removals included, whatever order the removals were visited in |
| JournalWriter.JournalAlbums | internal/catalog/journal.go:79-98 | replaying what the album diff appends turns the old album table into the new one; every appended record is of the album kind |
| JournalWriter.JournalFolders | internal/catalog/collection_journal.go:6-25 | replaying what the folder diff appends turns the old folder table into the new one |
| JournalWriter.JournalSources | internal/catalog/collection_journal.go:26-34 | replaying what the mapping diff appends turns the old mappings into the new ones, of which none is ever removed |
| Sync.SaveKeepsSync | internal/catalog/persist.go:13-45 | a device in sync stays in sync across any save: its mirror plus the records it has not read is the catalog |
| Sync.ReplayConverges | internal/catalog/journal.go:187-209 | in any interleaving of saves and change pages of any limit, the mirror stays in sync, and equals the catalog whenever the device has caught up |
| Sync.PagesMakeProgress | internal/catalog/journal.go:187-209 | a page either catches up or closes the gap by exactly the clamped limit |
| Sync.RecentPositionsAccepted | internal/catalog/journal.go:169-185 | a device that has not fallen behind the retained records is never sent away |
| Sync.SnapshotConverges | internal/catalog/mobile_files.go:22-50 | pages by id taken over any run of saves, and then the deltas since the position noted before the first page, give exactly the live entries under the prefix |
| BoundedPages.MobileFilesSnapshot | internal/catalog/mobile_files.go:22-50 | the bounded insertion keeps exactly the first rows by id after the cursor among the eligible ones, and says whether there are more |
| BoundedPages.SnapshotIsKeyPage | internal/catalog/mobile_files.go:22-50 | so a snapshot page is the unique page of live ids after the cursor |
| BoundedPages.Push | internal/catalog/source_recovery.go:109-118 | pushing keeps heap order and adds exactly the key |
| BoundedPages.FixRoot | internal/catalog/source_recovery.go:109-118 | sifting the root down restores heap order over the same keys |
| BoundedPages.NextKeys | internal/catalog/source_recovery.go:64-88 | the bounded heap selects exactly the smallest wanted keys after the cursor, sorted, and says whether there are more |
| BoundedPages.LookupSourceCollections | internal/catalog/source_recovery.go:48-104 | every wanted mapping of the page is returned with its current folder or album, in key order, with the cursor of the next page |
| Pages.KeyPageUnique | internal/catalog/mobile_files.go:22-50 | what a page is determines it: two pages at one cursor and limit are equal |
| Pages.WalkVisitsOnce | internal/catalog/source_recovery.go:48-104 | following the cursor to the end visits every key after the start exactly once, in order |
| Catalogs.Catalog.SyncPosition | internal/catalog/journal.go:152-161 | the position of the journal; an epoch is drawn and saved first if there is none |
| Catalogs.Catalog.ValidateSync | internal/catalog/journal.go:163-167 | refuses exactly the positions that are not accepted |
| Catalogs.Catalog.ChangesAfter | internal/catalog/journal.go:187-209 | returns exactly the records after an accepted position up to the limit, the position to continue from, and whether there are more |
| Catalogs.Catalog.SaveFiles | internal/catalog/persist.go:13-45 | a save writes journal and tree together or changes nothing; it fails only if the write fails or the sequence runs out |
| Catalogs.Catalog.Commit | internal/catalog/albums.go:126-134 | new tables become current exactly when they are saved; a failed save puts every old table back |
| Catalogs.Catalog.Mkdir | internal/catalog/catalog.go:219-241 | fails with nothing changed, or commits exactly the specified tree with the journal of its change |
| Catalogs.Catalog.Rename | internal/catalog/catalog.go:243-286 | fails with nothing changed, or commits exactly the specified tree with the journal of its change; renaming to the same path is no save |
| Catalogs.Catalog.Put | internal/catalog/mutations.go:42-127 | fails with nothing changed, or commits exactly the specified tree with the journal of its change; announcing what is already stored is no save |
| Catalogs.Catalog.SwitchReference | internal/catalog/mutations.go:11-40 | fails with nothing changed, or commits exactly the specified tree with the journal of its change, the one reference switched |
| Catalogs.Catalog.CopyWith | internal/catalog/mutations_copy.go:21-75 | fails with nothing changed, or commits exactly the specified tree with the journal of its change, the copies appended |
| Catalogs.Catalog.Delete | internal/catalog/mutations_copy.go:77-105 | fails with nothing changed, or commits exactly the specified tree with the journal of its change; deleting nothing is no save |
| Catalogs.Catalog.Restore | internal/catalog/mutations_copy.go:107-146 | fails with nothing changed, or commits exactly the specified tree with the journal of its change, the selection restored |
| Catalogs.Catalog.PurgeTrash | internal/catalog/mutations_copy.go:148-168 | fails with nothing changed, or commits exactly the specified tree with the journal of its change, and reports the purged entries exactly when they are gone |
| Catalogs.Catalog.PublishBackup | internal/catalog/backup_cas.go:50-139 | fails with nothing changed, or commits exactly the specified tree with the journal of its change, the plan published |
| Catalogs.Catalog.UpdateMetadata | internal/catalog/metadata_batch.go:23-90 | one save for the batch; a failed save reports no results |
| Indexes.IndexPaths | internal/catalog/children.go:51-59 | the path index names the present entry of every path |
| Indexes.IndexChildren | internal/catalog/children.go:7-49 | the child index built ancestor by ancestor agrees with a direct scan of the entries, explicit and implied folders alike |
| Indexes.IsFolder | internal/catalog/index.go:76-94 | the indexed answer equals the scan over all entries |
| Indexes.RowsMeanTheTree | internal/catalog/index.go:97-106 | a parent lists a child exactly when something present lies at or below it; an implied folder carries the newest modification time below it |
| Paths.AncestorsExact | internal/catalog/backup_cas.go:102-109 | the ancestors walked are exactly the paths the path lies below |
| Paths.RebaseRoundTrip | internal/catalog/catalog.go:275-279 | moving a path to another root and back gives the path |
| Paths.RebaseMonotone | internal/catalog/catalog.go:275-279 | moving keeps who lies below whom, both ways |
| Entries.ReplacedInPlace | internal/catalog/persist.go:13-45 | an entry that moves to a later revision in place keeps ids unique, and present paths where its path stays |
| Moves.RenameFiles | internal/catalog/catalog.go:243-286 | the scans and the rewriting loop compute the rename with the same errors in the same order |
| Moves.RenamedSlot | internal/catalog/catalog.go:269-280 | every present entry at or below the old path is rebased, everything else stays |
| Moves.RenameEvolves | internal/catalog/catalog.go:269-280 | ids stay unique and changed entries carry later revisions |
| Moves.RenameKeepsPaths | internal/catalog/catalog.go:259-268 | a rename that is let through keeps present paths unique |
| Moves.RenameKeepsShape | internal/catalog/catalog.go:259-268 | and never puts a present entry below a present file |
| Moves.RenameRoundTrip | internal/catalog/catalog.go:243-286 | renaming back restores every entry up to its revision exactly when the old place does not lie below the new one |
| Moves.NoWayBack | internal/catalog/catalog.go:243-286 | a lone file renamed to the place of its implied parent folder cannot be renamed back |
| Trash.Select | internal/catalog/photo_pair_mutations.go:20-51 | the two sweeps select the starters and, in list order, the companions of what is selected |
| Trash.DeleteFiles | internal/catalog/mutations_copy.go:77-105 | the loop tombstones exactly the present selected entries |
| Trash.RestoreFiles | internal/catalog/mutations_copy.go:107-146 | the loops restore exactly the selected entries, with the same conflict and overflow errors |
| Trash.PurgeFiles | internal/catalog/mutations_copy.go:148-168 | splits the entries into kept and purged |
| Trash.DeleteEvolves | internal/catalog/mutations_copy.go:77-105 | a deletion keeps ids and present paths unique and moves revisions on |
| Trash.RestoreEvolves | internal/catalog/mutations_copy.go:107-146 | a restore keeps ids unique and moves revisions on |
| Trash.KeptEvolves | internal/catalog/mutations_copy.go:148-168 | emptying the trash keeps ids unique and every kept entry as it is |
| Trash.DeleteRestoreExact | internal/catalog/photo_pair_mutations.go:20-51 | delete and restore of one path bring back exactly what was there, pairs included, if and only if no older tombstone lies at or below the path |
| Trash.OlderComesBackToo | internal/catalog/photo_pair_mutations.go:20-51 | with an older tombstone at the path, restoring after a deletion does not bring back what was there |
| Trash.RestoreKeepsPaths | internal/catalog/mutations_copy.go:119-131 | a restore keeps present paths unique if and only if no two tombstones it brings back share a path |
| Trash.BothComeBack | internal/catalog/mutations_copy.go:119-131 | two tombstones at one path are both restored there |
| CopyTree.CopyFiles | internal/catalog/mutations_copy.go:21-75 | the collecting, checking and relinking loops compute the copy with the same errors |
| CopyTree.CopiesLinkToCopies | internal/catalog/photo_pair_mutations.go:53-72 | originals stay; a copy links only to copies of the same operation, never back to an original |
| CopyTree.CopyEvolves | internal/catalog/mutations_copy.go:21-75 | copies are new entries at revision one; ids stay unique |
| CopyTree.CopyKeepsPaths | internal/catalog/mutations_copy.go:34-45 | present paths stay unique if and only if no copy lands on an entry of the copied tree, which can happen only when the new place lies above the old one |
| CopyTree.CopyUnderNoFile | internal/catalog/mutations_copy.go:34-45 | no copy lands below a present file, except below a file of the copied tree when the new place lies above the old one |
| CopyTree.CopyKeepsShape | internal/catalog/mutations_copy.go:34-45 | a copy keeps files free of entries below them if and only if no copy lands below a stored file and no copied file above a stored entry |
| CopyTree.CopyLandsOnItself | internal/catalog/mutations_copy.go:34-45 | copying a tree onto its implied parent puts two present entries at one path |
| CopyTree.CopyOverFolder | internal/catalog/mutations_copy.go:34-45 | a file copied to the place of an implied folder comes to lie above its entries |
| Edits.MakeFolder | internal/catalog/catalog.go:219-241 | the scan decides the conflict exactly |
| Edits.PutFile | internal/catalog/mutations.go:42-127 | the loop computes the put: occupant replaced, newcomer appended, or nothing to do, with every revision and reference error |
| Edits.PutEvolves | internal/catalog/mutations.go:42-127 | a put touches one slot: the occupant moves one revision on or a new id joins at revision one; ids and present paths stay unique |
| Edits.PutKeepsShape | internal/catalog/mutations.go:42-66 | a put keeps files free of entries below them if and only if it stores a folder or nothing lies below its path |
| Edits.PutOverFolder | internal/catalog/mutations.go:42-66 | a file put at the path of an implied folder comes to lie above its entries |
| Edits.SwitchEvolves | internal/catalog/mutations.go:11-40 | only the storage reference of the one exact version changes |
| Edits.UpdateMetadata | internal/catalog/metadata_batch.go:23-90 | the loop computes the batch, stopping at the first error |
| Edits.BatchEvolves | internal/catalog/metadata_batch.go:23-90 | an entry whose observed version has moved on is never touched, every other changed entry moves exactly one revision on, and exactly the changed entries are reported |
| Revisions.HistoryEvolves | internal/catalog/journal.go:51-67 | over any run of saves in which purged ids are not issued again, an entry keeps its content or raises its revision |
| Revisions.RevisionNamesContent | internal/catalog/backup_cas.go:25-46 | equal id and revision at two times means equal content at both and at every time between |
| Revisions.NeverOverwrites | internal/catalog/backup_cas.go:50-139 | a plan made against an earlier state replaces an entry only if that entry never changed since, and by the next revision of what was seen |
| BackupCas.CheckBackup | internal/catalog/backup_cas.go:25-46 | the check decides guards and absent paths exactly |
| BackupCas.PublishFiles | internal/catalog/backup_cas.go:50-128 | the publication loops compute the specified entries with the same errors |
| BackupCas.PublishKeepsTree | internal/catalog/backup_cas.go:50-128 | a published plan leaves ids and present paths unique, replaces only guarded versions, adds only at absent paths, and every planned entry hangs on present folders |
| BackupCas.GuardRevision | internal/catalog/backup_cas.go:25-46 | a checked guard names the present entry at that revision, path and kind |
| BackupCas.PublishedIn | internal/catalog/backup_cas.go:62-90 | every entry of a published plan without repeated ids is in the catalog |
| BackupJournal.PublicationIsSave | internal/catalog/backup_cas.go:129-139 | the publication of the backup protocol is a save of the catalog: its journal replays the old tree to the new one |
| BackupPlanner.PlanBackup | internal/backup/plan.go:12-117 | planning over path and id maps computes the specified plan with the same refusals |
| BackupPlans.PlanDistinct | internal/backup/plan.go:12-117 | a plan names no entry twice and ends with its primary |
| BackupPlans.PlanMembers | internal/backup/plan.go:26-87 | a plan holds the missing ancestors and, for a folder move, exactly the present descendants |
| BackupPlans.PlanGuards | internal/backup/plan.go:88-116 | every guard is a present entry of the catalog planned against |
| BackupMoves.MoveRebases | internal/catalog/backup_cas.go:110-128 | whatever the catalog has become since a folder move was planned, publishing it re-bases exactly the subtree as it stands there, each entry from what was planned on and one revision on; every other entry stays, only missing parents of the target are new, ids and present paths stay unique |
| BackupMoves.MoveAlongHistory | internal/catalog/backup_cas.go:50-139 | planned at one moment of a history and published at a later one, a folder move is made as above, and no entry it takes was touched at any moment between |
| BackupMoves.AdoptAdapts | internal/backup/parents.go:13-43 | adopting parents leaves every moved entry and every guard of the plan in place, drops only missing parents and guards what it adopts |
| BackupMoves.AdoptedMoveRebases | internal/backup/parents.go:13-43 | planned at one moment, its parents adopted at a later one and published at one later still, the move is made as above |
| BackupMoves.AnnounceMoves | internal/backup/finalize.go:56-95 | every durable state of finalizing an accepted folder move leaves the catalog as it was or with the move made, whatever storage answers |
| BackupMoves.RecoverMoves | internal/backup/finalize.go:126-182 | every durable state of recovering a folder move leaves the catalog as it was or with the move made |
| BackupMoves.PlannedMoveRebases | internal/backup/plan.go:59-87 | published on the very catalog planned on, the folder and every present descendant, and no other entry, are re-based one revision on |
| BackupRuns.CallSafe | internal/backup/finalize.go:21-99 | every durable state of every call keeps the invariant, whatever storage answers |
| BackupRuns.EveryRunIsSafe | internal/backup/finalize.go:21-99 | over every run of calls, crashes and catalog edits in which proofs stay retained: no operation publishes twice, a stored one keeps its receipt for good and its whole plan was in the catalog, a cancelled one stays cancelled and unpublished, an accepted one is unpublished |
| BackupWrites.WritesOneAtATime | internal/backup/finalize.go:126-182 | between two neighbouring durable states of a call exactly one record or the catalog differs |
| BackupWrites.CatalogOnlyByPlan | internal/catalog/backup_cas.go:50-139 | entries and journal change only by publishing a plan, which is logged |
| BackupRetry.SettledMapping | internal/backup/finalize.go:126-182 | after settling, the source maps the item to the receipt, no marker is pending, and every mapped entry the plan touched is current |
| BackupRetry.MappingSettles | internal/backup/finalize.go:126-182 | mapping a settled source again changes nothing |
| BackupRetry.RetryConverges | internal/backup/finalize.go:21-99 | with storage that answers alike, finalizing again from any crash point ends like the uncrashed call, up to the pending marker |
| BackupOutcomes.FinalizeAnswers | internal/backup/finalize.go:21-99 | without an error a finalization ends stored; with one, the catalog is the one it found unless it published a plan, and every published plan is stored unless finishing the storage failed |
| BackupOutcomes.RetrySettles | internal/backup/finalize.go:21-99 | after a finalization that crashed anywhere, whatever storage answered, a retry through finalize, status, cancel or create settles: success reports the operation stored, logged once, with its receipt; failure leaves the catalog exactly unless a plan was published |
| BackupOutcomes.CallSettles | internal/backup/operations.go:13-109 | from every state in which the operation is known and, once stored, mapped by its source, a finalize, status, cancel or create settles the operation in that sense |
| BackupReplay.ReplayExact | internal/catalog/backup_cas.go:50-128 | a plan that was published can be published again on a later catalog exactly when it only created entries, all since purged, at places free again |
| BackupReplay.RecoveryReplays | internal/backup/finalize.go:126-182 | recovery publishes a logged plan again if and only if no proof of it is left, the source is active, storage agrees, the plan is replayable and the save fits |
| BackupExpired.SavesLedThere | internal/catalog/journal.go:42-106 | the later journal of the witness is reached by saves: its records replay the published tree to the later one |
| BackupExpired.ExpiredProofReplays | internal/catalog/backup_cas.go:141-171 | from a good state, a recovery that crashes after the catalog write and enough later saves lead to a good state whose recovery publishes the same plan a second time |
| BackupCoordinator.AdoptParents | internal/backup/parents.go:13-43 | planned parents that another intent created meanwhile become guards, exactly when they are unchanged and owned by the same source |
| BackupCoordinator.MapSource | internal/backup/finalize.go:126-182 | the map loops compute the new source items and the receipt |
| BackupCoordinator.Manager.Persist | internal/backup/finalize.go:126-182 | a durable write happens entirely or the process is dead |
| BackupCoordinator.Manager.SettleOperation | internal/backup/finalize.go:126-182 | a process that dies during settling leaves a prefix of mapping, receipt and marker, in that order |
| BackupCoordinator.Manager.RecoverOperation | internal/backup/finalize.go:126-182 | the running recovery leaves a prefix of the durable states of its specification, all of them if it survives |
| BackupCoordinator.Manager.RecoverMarked | internal/backup/finalize.go:101-124 | a process running the recovery of a marked source leaves a prefix of its durable states, all of them if it survives |
| BackupCoordinator.Manager.ResetStorage | internal/backup/finalize.go:191-221 | a process resetting to a new storage attempt leaves a prefix of its durable states; if it survives the operation on disk is the reset one |
| BackupCoordinator.Manager.FinalizeReader | internal/backup/finalize.go:21-99 | a process running a finalization leaves a prefix of its durable states, all of them if it survives; success returns the record on disk |
| BackupCoordinator.Manager.AskStatus | internal/backup/operations.go:13-27 | a process answering a status call leaves a prefix of its durable states; success returns the record on disk |
| BackupCoordinator.Manager.CancelOperation | internal/backup/operations.go:71-109 | a process cancelling leaves a prefix of the durable states of a cancellation, all of them if it survives |
| BackupCoordinator.Manager.CreateOperation | internal/backup/create.go:47-104 | a process admitting an intent, retried or new, leaves a prefix of its durable states, all of them if it survives |
| Collections.WalksDecideForest | internal/catalog/collections.go:41-61 | rechecking every walk to the root is exactly checking for a forest of bounded depth |
| Collections.ForestHasNoCycle | internal/catalog/collections.go:41-61 | in such a forest no folder is its own ancestor |
| Collections.MutateKeepsForest | internal/catalog/collections.go:62-111 | saving a folder keeps the forest and every attached album; only that folder changes |
| Collections.DeleteKeepsForest | internal/catalog/collections.go:125-156 | a deleted folder was a leaf without albums; nothing is left hanging |
| CollectionStore.CheckParent | internal/catalog/collections.go:41-61 | the walking loop with its seen set computes the recursive check |
| CollectionStore.SaveCollectionFolder | internal/catalog/collections.go:112-124 | saved and journalled, or nothing changes; the organisation stays sound |
| CollectionStore.DeleteCollectionFolder | internal/catalog/collections.go:125-156 | the deletion is saved and journalled, or nothing changes; the organisation stays sound |
| Albums.SaveAlbumKeeps | internal/catalog/albums.go:42-135 | a saved album hangs on a folder or the root, ids stay distinct, and no linked motion gets in |
| Albums.ChangeMembersKeeps | internal/catalog/albums.go:158-231 | the members become exactly the old minus the removed plus the added, in that album only |
| Albums.DeleteAlbumKeeps | internal/catalog/albums.go:137-156 | exactly that album goes |
| CollectionStore.StoreAlbum | internal/catalog/albums.go:42-135 | the album is saved and journalled, or nothing changes; no linked motion gets into an album |
| CollectionStore.ChangeAlbumMembers | internal/catalog/albums.go:158-231 | the new members are saved and journalled, or nothing changes; no linked motion gets into an album |
| CollectionStore.RemoveAlbum | internal/catalog/albums.go:137-156 | the removal is saved and journalled, or nothing changes |
| LivePairs.SetPairKeeps | internal/catalog/live_pairs.go:7-95 | linking and unlinking keep ids, paths and revisions in order, leave every other entry alone, and leave no linked motion in an album |
| LivePairs.PairRoundTrip | internal/catalog/live_pairs.go:7-95 | linking and then unlinking puts the motion back into exactly the albums it was in |
| LivePairs.PairRows | internal/catalog/live_pairs.go:7-95 | albums keep their ids, places and parents |
| CollectionStore.SetLivePhotoPair | internal/catalog/live_pairs.go:7-95 | both entries and every album change in one save or not at all |
| SourceImport.SafeSourceKeyInjective | internal/catalog/photo_sources.go:50-59 | the length prefixes make different pairs different keys |
| SourceImport.SourceKeyInjective | internal/catalog/photo_sources.go:60-62 | distinct source ids of one device have distinct keys |
| SourceImport.ApplyKeeps | internal/catalog/photo_sources.go:129-204 | an applied operation keeps forest, attachments and album members, adds one mapping and one receipt, and forgets none |
| ImportOrder.NextIsBuilt | internal/catalog/photo_sources.go:129-204 | in a page of fresh creations within the depth bound, an operation whose parent is mapped always applies |
| ImportOrder.NoneBlocked | internal/catalog/photo_sources.go:75-125 | such a page leaves nothing blocked, children before parents included |
| ImportOrder.OrderIrrelevant | internal/catalog/photo_sources.go:75-125 | every order of the page builds the same folders and albums under the same source keys |
| CollectionStore.ApplyOperation | internal/catalog/photo_sources.go:129-204 | one operation is saved with its receipt, replayed from it, or refused with nothing changed |
| CollectionStore.ImportSourceOperations | internal/catalog/photo_sources.go:75-125 | every operation gets one outcome; an applied one has its receipt, a blocked one misses its parent, a recorded page only replays, and a page of fresh creations is applied completely if the saves work |
| CollectionPages.CollectionPage | internal/catalog/collections.go:173-203 | a page is the next nodes after the cursor at one position, and a stale position is refused |
| CollectionPages.SamePositionSameTree | internal/catalog/collections.go:173-203 | equal positions in one history mean equal folders and albums |
| CollectionPages.ReadingListsOnce | internal/catalog/collections.go:173-203 | a reading whose pages all carry one position lists every node exactly once, whatever was saved meanwhile |
| PhotoIngest.LandGrows | internal/catalog/photo_ingest.go:43-95 | parts land in their own slots on later revisions and nothing else moves |
| PhotoIngest.JoinListedKeeps | internal/catalog/photo_ingest.go:115-140 | afterwards the primary is in every listed album, every listed album exists, and no other member changed |
| PhotoIngest.IngestKeeps | internal/catalog/photo_ingest.go:32-148 | a committed photo may be saved after the tree before; it is pending, has its components and sits in every listed album |
| PhotoIngest.IngestMotionFree | internal/catalog/photo_ingest.go:96-140 | albums are free of linked motions afterwards if and only if they were before, the motion is in no album, and an entry joining albums is no linked motion |
| PhotoBatch.IngestPhoto | internal/catalog/photo_ingest.go:32-148 | the loops compute the commit with the same errors in the same order |
| PhotoBatch.CommitPhotoIngest | internal/catalog/photo_ingest.go:32-148 | entries, albums and mappings change in one save or not at all |
| PhotoBatch.FinishBatch | internal/catalog/photo_batch.go:56-73 | one save for everything that succeeded; if it fails no member reports success and nothing changes |
| PhotoBatch.CommitPhotoIngestBatch | internal/catalog/photo_batch.go:43-54 | a batch over the shadow is the fold of single commits, failed members skipped |
| PhotoBatch.CommitInTurn | internal/catalog/photo_batch.go:43-54 | the members one at a time, each with its own save, give the same results and tree as long as saves work |
| PhotoBatch.PutPhotoComponents | internal/catalog/photo_batch.go:16-39 | a batch of staged components is the fold of single puts, saved once; if the save fails no member reports success and nothing changes |
| PhotoBatch.PutInTurn | internal/catalog/photo_batch.go:16-39 | the components one at a time, each a put with its own save, give the same results and tree as long as saves work |
| CatalogSteps.StepTidy | internal/catalog/persist.go:13-45 | every mutation modelled here, batches and imports included, keeps one row per id, named entries, the folder forest and attached albums, and may be saved after the tree before |
| CatalogSteps.EveryTreeTidy | internal/catalog/collections.go:62-111 | so in every tree these mutations reach folders form a forest of bounded depth and albums hang on it |
| CatalogSteps.EveryTreeNumbered | internal/catalog/persist.go:13-45 | and every entry carries a positive revision |
| CatalogSteps.StepFree | internal/catalog/live_pairs.go:7-95 | starting free of listed motions, a mutation ends so if and only if a condition on the tree before it holds: about the written entry for a put or a plan, about the motion for a commit; every other mutation always does |
| CatalogSteps.EveryTreeFree | internal/catalog/live_pairs.go:7-95 | no tree of a run of clear mutations lists a linked motion |
| CatalogSteps.AlbumCanListMotion | internal/catalog/photo_ingest.go:99-107 | from the empty catalog, four ordinary mutations end with an album that lists a linked motion |
| StreamFile.OpenExact | internal/cryptox/streamfile_reader.go:76-91 | a frame opens to a text exactly when it was sealed under that key at that index |
| StreamFile.FileLength | internal/cryptox/streamfile_writer.go:51-107 | the length of a file follows from the plain length |
| StreamFile.StreamFileWriter.Write | internal/cryptox/streamfile_writer.go:51-92 | success takes everything; failure finishes the writer and means that the file does not fit or something went wrong with one of its frames: no nonce, or an error of the destination, whatever it took |
| StreamFile.StreamFileWriter.Close | internal/cryptox/streamfile_writer.go:94-107 | the destination holds the file of everything written exactly when it fits and nothing went wrong with its frames |
| StreamFile.WriteAll | internal/cryptox/streamfile_writer.go:51-107 | however the text is cut into writes, the stored file is the same and the same faults stop it |
| StreamFile.OpenStreamFile | internal/cryptox/streamfile_reader.go:25-61 | opens exactly the files whose length matches the declared size |
| StreamFile.WrittenOpens | internal/cryptox/streamfile_reader.go:76-91 | every chunk of a written file opens to its part of the text |
| StreamFile.TamperedReadsExactly | internal/cryptox/streamfile_reader.go:76-91 | on altered bytes a chunk opens to its own part of the text or not at all |
| StreamFile.StreamFileReader.Read | internal/cryptox/streamfile_reader.go:63-94 | what a read answers, as a function of file, position, last chunk and whether a load has failed since |
| StreamFile.ReadsExactly | internal/cryptox/streamfile_reader.go:63-94 | a read at an intact chunk answers the slice of the text if and only if no load has failed since the last success or the chunk is not the one read last |
| StreamFile.StreamFileReader.Seek | internal/cryptox/streamfile_reader.go:96-115 | the position is the requested one, refused exactly when negative or beyond the largest integer |
| StreamFile.ReadFull | internal/cryptox/streamfile_reader.go:63-94 | on a written file, reading on collects exactly the slice of the text |
| StreamFile.TornFile | internal/cryptox/streamfile_reader.go:76-91 | flipping one byte of the second frame leaves a file that opens and whose first chunk is intact |
| StreamFile.LostChunk | internal/cryptox/streamfile_reader.go:76-91 | on such a file, reading chunk 0, failing on chunk 1 and seeking back panics, or answers an endless empty read at the chunk boundary |
| CapsuleStream.StreamRoundTrip | internal/capsule/stream.go:158-195 | decrypting an encrypted stream gives the text, whatever follows it |
| CapsuleStream.TruncationFails | internal/capsule/stream.go:158-195 | every proper prefix of a stream is refused, and what came out before is a prefix of the text |
| CapsuleStream.EncryptStream | internal/capsule/mobile_mint.go:25-46 | an error is reported exactly when the source, a nonce or the destination failed; what is stored, finished or not, decrypts well only to everything written, otherwise to a prefix covering the bytes counted, and no cut of a finished stream decrypts well |
| CapsuleStream.DecryptStream | internal/capsule/stream.go:158-195 | the reading loop computes the recursive decryption with its failures |
| CapsuleStream.MobileZIPFileWriter.Write | internal/desk/mobile_grabs_sources.go:96-126 | exactly the payload bytes seen so far are forwarded, however the archive was cut up; it fails exactly on a wrong header, a full destination, or an error of the destination it reached |
| CapsuleStream.StripAll | internal/desk/mobile_grabs_sources.go:96-126 | over any cutting, the destination ends with the file inside the archive, or a prefix of it exactly when one of these failures occurs, and the final state tells a complete one exactly |
| GalleryRuns.RunSound | internal/capsule/gallery_leases.go:17-52 | in every run of store events from the empty shelf, admissions are the recorded uses, a gallery without its bytes is revoked and an uncancelled transfer has them, unless a deletion failed half-way |
| GalleryRuns.DeadStaysDead | internal/capsule/record.go:37-42 | over every run a capsule that is revoked, expired or spent never lives again, and no later event hands out its bytes |
| GalleryRuns.RunAges | internal/capsule/gallery_leases.go:17-52 | over every run uses, revocations, removals and issued ids only move forward, limits and expiry never change |
| GalleryRuns.AdmissionsBounded | internal/capsule/gallery_access.go:128-172 | over every run a capsule admits at most as often as it was minted for, and its record counts every admission |
| GalleryRuns.BytesHeld | internal/capsule/store.go:107-145 | a live gallery, or one with an uncancelled transfer, has its bytes if and only if no deletion of its owner has failed on it |
| GalleryRuns.LastFinishRemoves | internal/capsule/gallery_leases.go:36-52 | the last transfer to end on a dead gallery takes its bytes for good when every step works |
| GalleryRuns.TornLives | internal/capsule/store.go:131-136 | a failed deletion of the owner can leave a live capsule without its bytes |
| Gallery.Reservation | internal/capsule/gallery_zip_worker.go:55-71 | the reserved size, or refusal exactly on a negative or overflowing one |
| Gallery.ReservationCovers | internal/capsule/gallery_zip_worker.go:55-71 | the reservation covers what the encrypted archive takes |
| GalleryStore.Store.Manifest | internal/capsule/gallery_access.go:23-59 | admits exactly a live record with a token, a known or readable manifest and the right phrase |
| GalleryStore.Store.Preview | internal/capsule/gallery_access.go:90-124 | a preview lease is given exactly when admissible and spends nothing |
| GalleryStore.Store.Admit | internal/capsule/gallery_access.go:128-172 | an original is admitted exactly when admissible and recorded; it spends one use, never more than the limit |
| GalleryStore.Store.AdmitZIP | internal/capsule/gallery_zip_worker.go:155-201 | a finished archive is handed out exactly when admissible and recorded; it spends one use, never more than the limit |
| GalleryStore.Store.StartZIP | internal/capsule/gallery_zip_worker.go:15-34 | a job starts exactly when the gallery is admissible, its archive unprepared, the job not running and fewer than 64 run; it takes one lease and spends nothing |
| GalleryStore.Store.CheckpointZIP | internal/capsule/gallery_zip_worker.go:203-214 | progress is written exactly under an uncancelled lease of a live record |
| GalleryStore.Store.Finish | internal/capsule/gallery_leases.go:36-52 | the last reader of a dead capsule revokes it durably, and removes its bytes when every step works |
| GalleryStore.Store.EndZIP | internal/capsule/gallery_zip_worker.go:36-139 | the end of a job gives back its lease and slot, and the last reader of a dead capsule revokes it durably and removes its bytes when every step works |
| GalleryStore.Store.Revoke | internal/capsule/grab.go:119-149 | success is exactly an owned record and working steps, and means revoked, removed and every lease cancelled |
| GalleryStore.Store.RemoveDir | internal/capsule/store.go:131-136 | the readers are cancelled, and the capsule is gone or, when the removal failed, no longer sure of its bytes |
| GalleryStore.Store.DeleteOwner | internal/capsule/store.go:107-145 | only that owner's capsules go, one deletion each, readers cancelled; it succeeds exactly when every record could be read and every removal worked, and then all of them are gone |
| GalleryStore.Store.RevokeAll | internal/capsule/store.go:103-145 | only that owner's unrevoked capsules are revoked, one revocation each; it succeeds exactly when every record could be read and every step worked, and then all of them are revoked |
| GalleryStore.Store.CleanupExpired | internal/capsule/grab.go:176-225 | expired capsules are revoked and removed with their readers cancelled, an unexpired revoked one only once its readers have ended; it succeeds exactly when every record could be read, every size measured and every step worked |
| GalleryStore.Store.Restart | internal/capsule/gallery_leases.go:17-34 | a restart forgets leases, jobs and cache and nothing durable |
| MobileMint.StepKeeps | internal/capsule/mobile_operations.go:49-173 | every durable step keeps the invariant and never unpublishes |
| MobileMint.EveryExecution | internal/capsule/mobile_operations.go:49-173 | over every execution with crashes and restarts an operation publishes at most once, keeps its id, specification and first answer, and a retry never admits a second capsule |
| MobileMint.MobileStore.Retry | internal/capsule/mobile_operations.go:49-173 | a retry answers from what is recorded or published and mints nothing |
| MobileMint.MobileStore.MintStream | internal/capsule/stream.go:27-103 | a capsule is published with its record exactly when stored and allowed |
| MobileMint.MobileStore.MobileOperation | internal/capsule/mobile_operations.go:49-173 | a new operation is reserved before minting and answered after it; a known one is retried, a running one reported busy |

## Left out

- BackupRuns.EveryRunIsSafe: assumes that the journal still proves a publication until its operation is settled; without that it is false, and BackupReplay.RecoveryReplays says exactly when.
- BackupRetry.RetryConverges: is the corollary for equal storage answers and a retried finalization; the general case is BackupOutcomes.RetrySettles.
- CatalogSteps.StepFree: is an equivalence for every mutation but the batch of component puts, where a later member may undo what an earlier one did and only sufficiency is stated.
- CollectionPages.CollectionPage: assumes that no folder and album share an id, which the different prefixes of issued ids provide.
- Collections.MutateKeepsForest: bounds the depth of folders only, as the code does; albums may hang one level deeper.
- StreamFile.StreamFileWriter.constructor: the magic is taken to be stored; a writer whose magic could not be written is never handed out.
- CapsuleStream.EncryptStream: a source is taken to stop at the first write that fails.
- CapsuleStream.DecryptStream: writing the decrypted text is taken to succeed.
- BackupExpired.ExpiredProofReplays: the later saves are given by their records and the trees they lead between, not by the calls that made them.
- GalleryStore.Store.DeleteOwner, RevokeAll and CleanupExpired: a root directory that cannot be listed ends the call before anything happens and is not modelled.
- GalleryStore.Store.CheckpointZIP: the status that is written is not modelled, only whether it may be.
- CatalogSteps.StepTidy: the other saving paths of the catalog have no constructor: visibility (mutations_visibility.go), metadata and documents outside the batch (metadata.go, document.go), deletion by exact paths (delete_paths.go), photo processing and duplicates (photo_processing.go, photo_duplicates.go), ingest cancellation (photo_ingest_cancel.go), source-recovery writes (source_recovery_write.go), checkpoints, relocation and photo reset (checkpoint.go, relocate.go, reset_photos.go), and the save while loading (catalog.go).
- MobileMint.MobileStore.MobileOperation: the minting callback is represented by what it stored, whether publication was allowed, and the status it returned.
- JSON encoding, versions of stored records, path.Clean beyond the test whether a path is clean, monotonic clock readings, Unicode case and space beyond ASCII.
- Atomic file replacement and the directory sync after it are one step; a failing sync after a publication is the failure to finish storage.
- Copying legacy entries that have a snapshot but no reference: the storage grant is an input.
- Id freshness: drawn ids are assumed new, and purged ids not to be issued again.
- The previous-entries map that the code keeps beside the saved list; the model compares with the saved list itself.
- Uploading bytes, storage backends, permission checks and quotas: their answers are inputs.
- Selection of items inside a gallery manifest, preview rendering and ZIP layout: only which entries are wanted and the sizes matter here.
- Capsules that are not galleries or streams, sharing, vault unlocking, accounts, HTTP handlers.
- Migration, relocation, reset tools, catalog summaries and visibility filters: they would add easy members.
