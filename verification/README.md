# HDF5 metadata: a verified model

This project models three stateful parts of the HDF5 library and proves what they are for.

**The parallel metadata cache** (`src/H5ACmpio.c`, `src/H5AC.c`, `src/H5Cmpio.c`). Every rank of
an MPI job holds its own cache of file metadata. Modifications are collective, reads are not.
Ranks count dirtied bytes and, at a common threshold, clean their caches together in a sync
point made of barriers, broadcasts and writes. `CacheState.dfy` gives one rank as a value and
each H5AC operation on it, beside a reference program run by a single process;
`OperationResults.dfy` says, field by field, when each succeeds and what it leaves. `Agreement.dfy`
proves that every operation keeps a rank in agreement with that program. `ParallelRun.dfy` lets
any number of ranks run, each at its own pace, through barriers, broadcasts and single writes;
`ParallelSafety.dfy` and `ParallelSync.dfy` prove the invariant step by step,
`ParallelTheorems.dfy` and `ParallelProgress.dfy` draw the conclusions about whole runs;
`ParallelExample.dfy` proves that a small job has a run through its sync point and
`WrittenOnce.dfy` that each candidate is written once. Two things can go wrong when rank 0 writes
between sync points, as the design once had it. `EarlyWrites.dfy` and `RankZeroView.dfy` are about
when such a write is safe, going by what rank 0 knows; `CleanLists.dfy` is about posting what it
has written; `FutureExample.dfy` and `ProtectedExample.dfy` are runs in which each goes wrong. `RankCache.dfy` has
the same fields updated in place, method by method, proved against the value-level operations;
`SyncEffects.dfy` and `SyncRoutines.dfy` are about the four sync point routines and their MPI
calls, failures included, with instances in `SplitRanks.dfy`; `JoinedRanks.dfy` runs two ranks'
routines together and `RoutineTrace.dfy` finds their MPI calls in the steps of a run. `AddressLists.dfy` has the sorted address lists and the split of a
candidate list among ranks.

**Proxy cache entries** (`src/H5ACproxy_entry.c` over the flush-dependency code of
`src/H5Centry.c`). A proxy stands between many children and many parents and turns what it hears
from below into dirty and serialized flags of its own, which its parents hear of in turn.
`FlushDeps.dfy` has the dependency graph, its counters, and the state in the middle of a cascade,
when some parents have not been told yet. `DependencyEdges.dfy` and `ProxyLife.dfy` are about
edges and proxies that come and go. `Proxies.dfy` is the cache itself, updated in place, and
`ProxyTheorems.dfy` says what the state between operations means.

**Dense attribute storage** (`src/H5Adense.c`, `src/H5Abtree2.c`, table code in `src/H5Aint.c`).
Attribute messages live in a heap or among the file's shared messages and are found through an
index by (hash, name) and one by creation order. `NameOrder.dfy` has the order of names under an
arbitrary hash function, `DenseStore.dfy` the storage as a value with its invariants,
`DenseSteps.dfy` what each step does to them, `DenseTables.dfy` tables, sorting and iteration,
and `DenseAttributes.dfy` the operations in place.

## What turned out not to hold

Each of these is proved, with the exact condition under which the code does what it should.

* Rank 0 may not write a dirty entry between sync points at any time it likes. There are two
  things it would have to heed (`Heedful`); the code checks neither, and the theorems about runs
  with early writes are about runs in which it heeds both. Without early writes, as the code
  stands, every run is covered.
  * The write must pass a test rank 0 can make by itself (`FitsLastSync`): at its last sync point
    the object was dirty, under modification or not there, or had the very content that is to be
    written. As far as the other ranks' reads go that is enough wherever they are; it is exact
    while one of them still stands at that sync point (`EarlyWriteIsSafeIff`), and exact without
    that proviso over all the reachable worlds rank 0 cannot tell apart
    (`SafeForAllRankZeroKnowsIff`, `UnfitWriteIsRead`). It covers the condition proposed in
    `src/H5ACpkg.h:157-160`, dirty at the previous sync point, and entries that are newer.
    `MessageFromTheFuture` is a run with a write that does not pass.
  * No entry on a clean list may be protected when the list is posted, since a receiver only flags
    such an entry. The ranks agree after the sync point if and only if that is so
    (`PostedListAgreesIff`, `CleanListAgreesIff`); modifying the entry then makes the byte counts
    differ (`ReleasingAFlaggedEntry`). `PostingAProtectedEntry` is a run in which every early
    write passes the test, a protected entry is posted, and one rank ends up in a sync point that
    the other never joins.
* When a routine fails on one rank only, that rank's byte count is not reset
  (`src/H5ACmpio.c:2034-2089`); `FailedFlushDelaysOnlyTheOthers` says when the next insertion, move
  or release then splits the ranks, and `FailedFlush` is an instance. When building or applying a
  candidate list fails on some ranks only, those skip barriers (`SameCallsIff`, with the instance
  `FailedList`).
* Marking an entry dirty also clears its image flag (`src/H5Centry.c:2405-2406`), so a proxy given
  a child that is dirty but serialized becomes unserialized although no child is. This happens in
  exactly one situation (`Strands`, in the contracts of `CreateDependency`, `AddChild` and
  `AddParent`), and `StrandedProxy` is an instance.
* Dense rename never checks whether the new name is in use, although compact storage does
  (`src/H5Oattribute.c:1120-1143`). The storage stays valid exactly when the old name is missing
  or the new one is unused (`Rename`); `RenameOntoExisting` is an instance.
* Iteration by an index and by a table report the same next position exactly when the start is
  not beyond the end (`NextAgreesIff`).

## Model

| member | source | states |
|---|---|---|
| AddressLists.IncreasingUnique | src/H5ACmpio.c:571-625 | ranks that build a candidate list apart, from equal sets of dirty entries, build the same list |
| AddressLists.Inserted | src/H5ACmpio.c:708-724 | inserting into a skip list keyed by address keeps it in order and adds just that address |
| AddressLists.ExactlyOneOwner | src/H5Cmpio.c:253-297 | each position of a candidate list belongs to exactly one rank |
| AddressLists.FillAssignmentTable | src/H5Cmpio.c:253-280 | the table filled in place holds the share boundaries, for any number of ranks and candidates |
| SyncEffects.SharesMakeTheList | src/H5ACmpio.c:1083-1089 | the ranks' shares, one after the other, are the list: nothing written twice, nothing left out |
| Agreement.OpKeepsAgreement | src/H5ACmpio.c:694-1068 | every collective operation keeps rank 0's two lists, every other rank's dirty set and all byte counts in agreement with one program, and a rank asks for a sync point exactly when the program does |
| OperationResults.AcceptedIff | src/H5AC.c:733-1605 | exactly when each operation is accepted, by the entry's own flags |
| OperationResults.SucceedsIff | src/H5Centry.c:2645-2659 | for a rank in agreement and a legal call: insertion always succeeds, a protect or a move of any cached entry, dirty or clean, a mark or a resize exactly if the entry is pinned or protected, a release unless it deletes a pinned entry |
| OperationResults.EntryAfter | src/H5Centry.c:2364-2700 | no entry but the one named changes, and of that one exactly the fields the operation is about |
| OperationResults.CountAfter | src/H5ACpkg.h:125-129 | the bytes counted: of a clean entry that is modified, or, on rank 0, of a modified or moved entry not on its dirtied list |
| OperationResults.ListsAfter | src/H5ACmpio.c:694-1068 | a modified entry is on rank 0's dirtied list and off the cleaned one, under its new address if moved; a deleted one is on neither; nothing else comes or goes |
| Agreement.DirtyingCountsOnce | src/H5ACpkg.h:125-129 | rank 0's rule and the other ranks' rule count a dirtying once and alike |
| Agreement.MoveKeepsLists | src/H5ACmpio.c:987-1068 | a move renames the entry in rank 0's dirtied list as it does in the dirty sets, and counts it once |
| Agreement.UnprotectKeepsLists | src/H5AC.c:1556-1588 | releasing an entry, modified, deleted or neither, keeps lists and counts in agreement |
| Agreement.OpOnlyUnsettles | src/H5ACpkg.h:145-155 | no operation makes readable from the file anything it does not already hold |
| ParallelSafety.RunningMeansAllWritten | src/H5ACmpio.c:1228-1233 | no rank leaves a distributed sync point before all assigned writes are done |
| ParallelSafety.LoadIsCurrent | src/H5ACpkg.h:83-99 | an independent read, whenever it happens, finds the content the program has at the reader's place |
| ParallelSync.EverybodyIsHere | src/H5ACmpio.c:1183-1187 | once one rank is past the opening barrier, all are at the same operation and none has gone on |
| ParallelSync.LocalListIsTheList | src/H5ACmpio.c:1589-1605 | in a distributed flush the list a rank builds from its own dirty entries is everybody's list |
| ParallelSync.TidyingRestoresAgreement | src/H5ACmpio.c:2138-2180 | tidying rank 0's lists after the closing barrier restores agreement with nothing left on the cleaned list |
| ParallelSync.StepKeepsSafe | src/H5ACmpio.c:1163-1254 | every step any rank can take, in any interleaving, keeps the invariant on ranks, barriers and file |
| ParallelTheorems.RunIsSafe | src/H5ACmpio.c:2009-2103 | so every world of every run, of any number of ranks and operations, is safe; a rank 0 that writes between sync points has two things to heed |
| ParallelTheorems.EveryCopyIsCurrent | src/H5ACpkg.h:145-155 | every cached copy on every rank is at every moment what a single process would have at that point |
| ParallelTheorems.RanksAgree | src/H5ACpkg.h:108-129 | at equal places, whatever was read, evicted or, heeding both conditions, written early in between, rank 0's dirtied list is the other rank's dirty set, its cleaned list is what it has itself cleaned of that, and the byte counts are equal |
| ParallelTheorems.SameSyncPoints | src/H5AC.c:771-773 | all ranks start their k-th sync point after the same collective operation |
| ParallelTheorems.ArrivesIff | src/H5AC.c:639-642 | a rank finds itself at an opening barrier exactly after an insert, move or unprotect at or above the threshold with evictions enabled, or after a flush, unless that is distributed with nothing dirty |
| ParallelTheorems.ReturnsBelowThreshold | src/H5AC.c:1036-1038 | an insert, move or unprotect that has returned leaves the byte count below the threshold |
| ParallelTheorems.NoWriteBeforeAllEntered | src/H5ACmpio.c:1183-1204 | no rank writes before all ranks have entered the sync point, and the writer has permission |
| ParallelTheorems.WritePermittedIff | src/H5AC.c:2022-2032 | a rank has write permission exactly past the opening and before the closing barrier: rank 0 while it flushes, or every rank while it applies a candidate list |
| ParallelTheorems.NoPermissionOutside | src/H5ACmpio.c:1204-1225 | outside a sync point, and at its barriers, no rank has write permission |
| ParallelTheorems.ExactlyOneWriter | src/H5Cmpio.c:384-402 | each candidate has exactly one rank to write it |
| ParallelTheorems.IdenticalLists | src/H5ACmpio.c:1189-1214 | all ranks applying a candidate list apply the same one, in increasing order, broadcast or built alone |
| ParallelTheorems.SyncPointIsAtomic | src/H5ACmpio.c:1163-1254 | each rank leaves its k-th sync point as if it had been one common step: one list of dirty entries cleaned (all for a flush), their content in the file, the dirty set of every rank and rank 0's dirtied list reduced by exactly that list, the other lists empty, count zero |
| ParallelTheorems.NotCleanBeforeWritten | src/H5ACmpio.c:1815-1851 | under process-0-only no other rank marks an entry clean before rank 0 has left the sync point and the file holds the entry's current content |
| ParallelTheorems.FlushEmptiesTheLists | src/H5AC.c:508-522 | a rank whose last operation was a flush and which is running again holds nothing dirty, and rank 0's three lists are empty, as cache destruction asserts |
| WrittenOnce.WrittenExactlyOnce | src/H5ACmpio.c:1083-1089 | once any rank has left a distributed sync point, exactly one step of the run has written each candidate to the file, by its owner and with the owner's content |
| ParallelProgress.CanRunNext | src/H5AC.c:771-773 | between sync points a rank can run its next operation once that is accepted, and rank 0 can pick any unprotected dirty entries as candidates |
| ParallelProgress.CanLoad | src/H5ACpkg.h:83-99 | and it can read any object of the program it does not hold |
| ParallelProgress.SyncPointOnlyCleans | src/H5ACmpio.c:1199-1240 | from arriving to leaving, a rank's cache changes only in that dirty entries become clean |
| ParallelProgress.ReceivedListIsUnprotected | src/H5Cmpio.c:779-803 | what a receiver marks clean is not protected on it, so nothing waits to be cleared later |
| ParallelProgress.NoDeadlock | src/H5ACmpio.c:1898-1978 | once all ranks have arrived, and until all have left, some rank in the sync point can go on |
| ParallelProgress.SyncPointCompletes | src/H5ACmpio.c:1898-1978 | the sync point completes within a bounded number of steps and every rank leaves it |
| ParallelExample.ASyncPointHappens | src/H5ACmpio.c:1898-1978 | a run of two ranks through a whole sync point: the statements about runs are not empty |
| ParallelSync.SettledSinceSync | src/H5ACpkg.h:145-160 | whatever the file may be read for at some place, it could be read for at the last sync point before it, with the same content |
| ParallelSync.FittingIsHarmless | src/H5ACpkg.h:157-163 | a content that fits what rank 0 saw at its last sync point is what every rank that may read the object expects, wherever that rank is |
| EarlyWrites.EarlyWriteIsSafeIff | src/H5ACpkg.h:145-163 | while any rank still stands at the last sync point, a write between sync points keeps the invariant exactly if it passes the test rank 0 can make by itself |
| EarlyWrites.FittingWriteIsSafe | src/H5ACpkg.h:157-163 | passing the test is enough in every case |
| RankZeroView.RunIsCareful | src/H5ACpkg.h:157-163 | in every run all that rank 0 lists as cleaned between sync points has passed the test, and still would |
| RankZeroView.OthersMayLag | src/H5ACpkg.h:145-149 | whatever run has led rank 0 to where it is, there is one with the same view of rank 0 in which no other rank has moved on from the last sync point |
| RankZeroView.SafeForAllRankZeroKnowsIff | src/H5ACpkg.h:145-163 | an early write is safe in all the reachable worlds rank 0 cannot tell from its own if and only if it passes the test |
| RankZeroView.UnfitWriteIsRead | src/H5ACpkg.h:145-149 | if it does not pass, and the entry was not protected at the last sync point, some run with the same view of rank 0 goes on to leave another rank with content the program does not have at its place |
| EarlyWrites.DirtyAtTheLastSyncIsHarmless | src/H5ACpkg.h:157-163 | writing an entry that was dirty at the previous sync point, or came later, is safe however far behind the other ranks are |
| EarlyWrites.InStepIsHarmless | src/H5ACpkg.h:145-155 | so is writing while all ranks are at the same place, which rank 0 cannot know |
| EarlyWrites.HarmfulWriteIsRead | src/H5ACpkg.h:145-149 | otherwise a rank that is behind can read content the program does not have yet |
| FutureExample.MessageFromTheFuture | src/H5ACpkg.h:145-149 | a run of two ranks and three operations: after an early write that fails the test one rank reads content from the future and starts a sync point the other, which has finished the program, never joins |
| CleanLists.PostedListAgreesIff | src/H5ACmpio.c:381-448 | in a run in which rank 0 has heeded what it has to until it posts, poster and receiver agree on leaving the sync point if and only if the posted list names no entry protected at that moment; otherwise those entries are the difference |
| CleanLists.PostedListIsReceived | src/H5Cmpio.c:760-803 | protected entries on it or not, a posted list can be received by every rank that waits for it |
| ProtectedExample.PostingAProtectedEntry | src/H5Cmpio.c:779-803 | a run of two ranks and five operations in which every early write passes the test: a protected entry is posted, dirty sets and byte counts part, and one rank waits in a sync point the other, which has finished the program, never joins |
| CleanLists.CleanListAgreesIff | src/H5Cmpio.c:779-803 | a clean list leaves the ranks in agreement if and only if no entry on it is protected |
| CleanLists.ReleasingAFlaggedEntry | src/H5Centry.c:3521-3530 | releasing a flagged entry unites the views again, and the counts stay equal if and only if it was not modified (or has no bytes) |
| RankCaches.RankCache.LogDirtied | src/H5ACmpio.c:694-753 | in place, what the value-level operation says |
| RankCaches.RankCache.LogInserted | src/H5ACmpio.c:892-940 | likewise, with the state a failing call leaves behind |
| RankCaches.RankCache.LogMoved | src/H5ACmpio.c:987-1068 | likewise, with the state a failing call leaves behind |
| RankCaches.RankCache.LogDeleted | src/H5ACmpio.c:643-672 | the address leaves both of rank 0's lists |
| RankCaches.RankCache.LogFlushed | src/H5ACmpio.c:827-871 | a cleared entry leaves both lists, a written one joins the cleaned list |
| RankCaches.RankCache.InsertEntry | src/H5AC.c:733-786 | insertion up to the threshold test, with the state a failing call leaves behind |
| RankCaches.RankCache.MarkEntryDirty | src/H5AC.c:829-867 | logs only a clean, pinned, unprotected entry; refused for an entry neither pinned nor protected |
| RankCaches.RankCache.ResizeEntry | src/H5AC.c:1332-1413 | logs the initial size of a clean entry, even when the resize is then refused |
| RankCaches.RankCache.MoveEntry | src/H5AC.c:1007-1048 | logs, then moves; refused when the target is in the cache |
| RankCaches.RankCache.UnprotectEntry | src/H5AC.c:1531-1605 | logs a modification, a deletion on rank 0, and honours the clear-on-unprotect flag |
| RankCaches.RankCache.TidyLists | src/H5ACmpio.c:2138-2180 | all candidates leave both lists |
| RankCaches.RankCache.CopyCandidateList | src/H5ACmpio.c:571-625 | the buffer is the candidate set in increasing order, and the list is empty |
| RankCaches.RankCache.BroadcastCleanList | src/H5ACmpio.c:381-448 | what is sent is the cleaned set in increasing order; it leaves the dirtied list; the two broadcasts made |
| RankCaches.RankCache.MarkEntriesAsClean | src/H5Cmpio.c:706-900 | fails exactly if a listed entry is missing or clean; otherwise unprotected ones are cleaned and protected ones flagged, no entry having dirty flush-dependency children |
| RankCaches.RankCache.ApplyCandidateList | src/H5Cmpio.c:155-485 | fails, before doing anything, exactly if a listed entry is missing, clean or protected; otherwise the rank writes its share and clears the rest |
| RankCaches.RankCache.RspZeroOnly | src/H5ACmpio.c:1791-1978 | effect, result and MPI calls of both process-0-only routines, also when rank 0's flush fails |
| RankCaches.RankCache.RspDistributedMinClean | src/H5ACmpio.c:1716-1755 | effect, result and MPI calls, also when choosing candidates or applying them fails |
| RankCaches.RankCache.RspDistributedFlush | src/H5ACmpio.c:1574-1662 | effect, result and MPI calls, also when building or applying the list fails |
| RankCaches.RankCache.RunSyncPoint | src/H5ACmpio.c:2009-2103 | dispatch, the list worked with, effect, result and MPI calls; the byte count starts again only if the routine succeeded |
| RankCaches.RankCache.SyncIfDue | src/H5AC.c:1592-1596 | below the threshold nothing happens; otherwise a sync point, after whose success the count is below the threshold |
| JoinedRanks.ZeroOnly | src/H5ACmpio.c:1791-1856 | rank 0 and another rank in agreement run the process-0-only routine, list and all: the same entries are dirty on both and on rank 0's dirtied list, the MPI calls are these and the same, and a failed flush costs rank 0 only its count |
| JoinedRanks.Spread | src/H5ACmpio.c:1163-1254 | the same for both distributed routines: the list is rank 0's choice or all that is dirty, it is clean on both afterwards, and the calls begin and end with a barrier |
| RoutineTrace.StepsMakeTheCalls | src/H5ACmpio.c:1183-1233 | in every run, the steps a rank takes from arriving at a sync point to leaving it make exactly its routine's MPI calls: opening barrier, list, closing barrier if there was a list to apply |
| SyncRoutines.CleaningEffect | src/H5Cmpio.c:342-411 | applying a list makes exactly the listed entries clean and changes nothing else about any entry |
| SyncRoutines.ApplyingKeepsAgreement | src/H5ACmpio.c:1199-1240 | whatever its share, a rank that applies the list is in agreement about the same smaller dirty set, nothing listed as cleaned |
| SyncRoutines.BroadcastingKeepsAgreement | src/H5ACmpio.c:1815-1851 | after rank 0 writes entries of its choice and broadcasts, sender and receivers agree on what is still dirty |
| SyncRoutines.SameCallsIff | src/H5ACmpio.c:1574-1662 | two ranks working with one list make the same MPI calls if and only if their local failures between the calls coincide |
| SyncRoutines.AgreeingRanksMakeTheSameCalls | src/H5ACmpio.c:1716-1978 | a sync point that begins in agreement makes the same calls on all ranks, also when rank 0's flush or its choice of candidates fails |
| SplitRanks.FailedFlush | src/H5ACmpio.c:2034-2089 | two ranks and two insertions: rank 0's flush fails in the first sync point, and after the second insertion it makes the calls of another one alone |
| SplitRanks.FailedList | src/H5ACmpio.c:1589-1605 | building the list fails on one of two ranks: the other is alone at both barriers |
| SyncRoutines.FailedFlushDelaysOnlyTheOthers | src/H5ACmpio.c:2034-2089 | after a failure on one rank the next insertion, move or release splits the ranks exactly if what it costs does not reach the threshold by itself |
| Proxies.FlushDepCache.ChildDirtied | src/H5ACproxy_entry.c:528-536 | a parent that hears of a dirty child counts it; a proxy hearing of its first becomes dirty and passes that on, and the cascade ends with every counter right |
| Proxies.FlushDepCache.ChildCleaned | src/H5ACproxy_entry.c:538-549 | the last dirty child gone, a proxy becomes clean and passes that on |
| Proxies.FlushDepCache.ChildUnserialized | src/H5ACproxy_entry.c:551-559 | likewise for unserialized children |
| Proxies.FlushDepCache.ChildSerialized | src/H5ACproxy_entry.c:561-572 | likewise for serialized children |
| Proxies.FlushDepCache.SetDirty | src/H5Centry.c:2390-2437 | marking a clean pinned entry: both flags, then the dirty notices, then the unserialized ones |
| Proxies.FlushDepCache.SetClean | src/H5Centry.c:2477-2508 | marking a dirty entry clean notifies each parent once, and leaves all image flags alone |
| Proxies.FlushDepCache.MarkUnserialized | src/H5Centry.c:2528-2558 | clears the image flag and notifies each parent once; no effect if already clear |
| Proxies.FlushDepCache.MarkSerialized | src/H5Centry.c:2571-2603 | sets the image flag and notifies each parent once; no effect if already set |
| Proxies.FlushDepCache.MarkFlushDepDirty | src/H5Centry.c:1320-1349 | all parents told, in order, and every cascade above them finished |
| Proxies.FlushDepCache.MarkFlushDepClean | src/H5Centry.c:1364-1395 | all parents told, in reverse order |
| Proxies.FlushDepCache.MarkFlushDepUnserialized | src/H5Centry.c:1455-1485 | all parents told, in order |
| Proxies.FlushDepCache.MarkFlushDepSerialized | src/H5Centry.c:1409-1441 | all parents told, in reverse order |
| Proxies.FlushDepCache.CreateDependency | src/H5Centry.c:3760-3882 | refused exactly for itself or a parent neither pinned nor protected; otherwise the edge is there, counters are right, and the proxy stays exact if and only if the child does not strand it |
| Proxies.FlushDepCache.DestroyDependency | src/H5Centry.c:3895-3999 | refused exactly if there is no such dependency; otherwise the edge is gone and counters are right |
| Proxies.FlushDepCache.EnterCache | src/H5ACproxy_entry.c:276-299 | a proxy's first child brings it into the cache pinned, clean and serialized, with a dependency on every listed parent; fails exactly if one of them is neither pinned nor protected, and then stays there with dependencies on those before it |
| Proxies.FlushDepCache.AddChild | src/H5ACproxy_entry.c:263-309 | the child, a proxy or not, depends on the proxy and is counted; all invariants hold again, and the proxy is exact if and only if the child does not strand it |
| Proxies.FlushDepCache.RemoveChild | src/H5ACproxy_entry.c:350-386 | when it succeeds, exactly; the last child gone, the proxy is out of the cache, clean, free of dependencies and serialized if it was exact |
| Proxies.FlushDepCache.LeaveCache | src/H5ACproxy_entry.c:363-380 | dependencies on all listed parents are removed, then unpinning and removal succeed exactly if nothing else is attached |
| Proxies.FlushDepCache.AddParent | src/H5ACproxy_entry.c:141-173 | the parent is listed, and has a dependency on the proxy exactly while that is cached; a parent that is a proxy stays exact if and only if this child does not strand it |
| Proxies.FlushDepCache.RemoveParent | src/H5ACproxy_entry.c:185-222 | fails exactly for a parent not listed; otherwise list entry and dependency are gone |
| Proxies.FlushDepCache.CreateFlushDependency | src/H5AC.c:1216-1243 | between a plain parent and any child the edge keeps all invariants, proxies included |
| Proxies.FlushDepCache.DestroyFlushDependency | src/H5AC.c:1465-1490 | likewise when it goes |
| Proxies.FlushDepCache.Protect | src/H5Centry.c:3235-3244 | refused for a protected entry; otherwise protected, with nothing marked yet |
| Proxies.FlushDepCache.MarkEntryDirty | src/H5Centry.c:2364-2443 | the three cases protected, pinned and neither; a protected entry is marked, which is remembered for its release, and loses its image |
| Proxies.FlushDepCache.ModifyUnderProtection | src/H5Centry.c:3454-3457 | an entry protected, marked dirty and released without a word about it is dirty all the same, and every parent counts it |
| Proxies.FlushDepCache.ReadUnderProtection | src/H5Centry.c:3235-3244 | an entry only read while protected stays as clean or dirty as it was, whatever earlier protections did |
| Proxies.FlushDepCache.SetModified | src/H5Centry.c:3536-3567 | the unprotect order, unserialized notices before dirty ones, ends in a valid state all the same |
| Proxies.FlushDepCache.Unprotect | src/H5Centry.c:3536-3590 | releasing a protected entry, modified by the caller's word, by a mark set before, or not |
| Proxies.FlushDepCache.MarkEntryClean | src/H5Centry.c:2459-2515 | refused for a protected or unpinned entry; otherwise clean, and only proxies above follow |
| Proxies.FlushDepCache.MarkEntrySerialized | src/H5Centry.c:2571-2603 | refused for a protected or unpinned entry; otherwise serialized, and only proxies above follow |
| ProxyTheorems.ProxyDirtyIffBelow | src/H5ACproxy_entry.c:476-584 | between operations a proxy is dirty if and only if a client's dirty entry is reachable below it through proxies; its counter is the number of its dirty children |
| ProxyTheorems.ProxyUnserializedIffBelow | src/H5ACproxy_entry.c:476-584 | an unserialized entry below makes it unserialized, and conversely while the proxies are exact; the counter is the number of unserialized children |
| ProxyTheorems.CachedIffChildren | src/H5ACproxy_entry.c:263-416 | a proxy is in the cache and pinned if and only if it has children; listed parents depend on it then; otherwise it is clean and free, as its destruction asserts |
| ProxyTheorems.AcyclicIsRanked | src/H5Centry.c:1501-1519 | every graph without cycles has the ranking the operations are proved with |
| ProxyTheorems.StrandedProxy | src/H5Centry.c:2405-2406 | one dirty serialized child leaves its new proxy unserialized with a count of zero |
| NameOrder.CompareIs | src/H5Abtree2.c:220-272 | names are compared by the first character in which they differ, a name that ends first coming first |
| NameOrder.BeforeIs | src/H5Abtree2.c:220-272 | the name index is ordered by increasing hash, and so by name among equal hashes |
| NameOrder.BeforeIsTotal | src/H5Abtree2.c:220-272 | under any hash function, (hash, name) is a strict order in which only equal names are not ordered |
| NameOrder.BeforeChains | src/H5Abtree2.c:220-272 | and it is transitive |
| NameOrder.PlaceDecides | src/H5Abtree2.c:230-268 | so the place found by search settles whether the name is there, and no other record has it |
| DenseAttributes.DenseStorage.Locate | src/H5Abtree2.c:220-272 | search of the name index finds that place, reading objects only where hashes are equal and only objects that exist |
| DenseAttributes.DenseStorage.Exists | src/H5Adense.c:1637-1707 | true exactly for the names the object has |
| DenseAttributes.DenseStorage.Open | src/H5Adense.c:323-396 | the attribute and its creation order, or nothing |
| DenseAttributes.DenseStorage.StoreMessage | src/H5SM.c:1225-1505 | one more reference to an equal shared message, a new shared message, or a heap object |
| DenseAttributes.DenseStorage.ReleaseMessage | src/H5SM.c:1523-1598 | one reference less; the last one gives up the message and its components |
| DenseAttributes.DenseStorage.DenseInsert | src/H5Adense.c:408-548 | succeeds exactly for an unused name; both indexes, heap and counts fit the enlarged map; a refused call leaves the message stored |
| DenseAttributes.DenseStorage.Create | src/H5Oattribute.c:310-372 | the object's map gains the attribute, and all invariants hold: reference counts of shared messages and link counts of shared components are this object's uses plus those from elsewhere, which stay as they are |
| DenseAttributes.DenseStorage.Write | src/H5Adense.c:700-779 | the map changes in that attribute's data only; refused exactly if a shared attribute would no longer be shared |
| DenseAttributes.DenseStorage.WriteShared | src/H5Adense.c:591-635 | a shared attribute gets a new message and both indexes its new heap ID, with reference and link counts right against unchanged uses from elsewhere |
| DenseAttributes.DenseStorage.Rename | src/H5Adense.c:831-1003 | succeeds exactly if the old name is in use and the new one is not, then changes one key and keeps value and creation order, in all sharing cases; the storage stays valid if and only if the old name is missing or the new one unused |
| DenseAttributes.DenseStorage.Remove | src/H5Adense.c:1308-1379 | the map loses the name; no search happens after the object is gone |
| DenseAttributes.DenseStorage.RemoveByIdx | src/H5Adense.c:1514-1624 | the map loses the n-th attribute of the table in the order asked for, by index or by table; fails exactly if there are not that many |
| DenseAttributes.DenseStorage.DeleteAll | src/H5Adense.c:1779-1835 | nothing is left; the shared messages are exactly those used elsewhere, each with that many references, and link counts no longer include this object |
| DenseAttributes.DenseStorage.BuildTable | src/H5Aint.c:1647-1707 | every attribute once, the names or creation orders themselves increasing or decreasing as asked for |
| DenseAttributes.DenseStorage.Iterate | src/H5Adense.c:1118-1236 | what is visited, the result and the next position, by index or by table |
| DenseAttributes.DenseStorage.IterateAgain | src/H5Adense.c:1118-1236 | starting each time from the position reported last, every attribute up to there is visited once and in order, and enough restarts reach the end |
| DenseAttributes.IterateIndex | src/H5Adense.c:1015-1106 | skipping and counting by callback |
| DenseAttributes.IterateTable | src/H5Aint.c:1867-1941 | counting from the start position |
| DenseAttributes.RenameOntoExisting | src/H5Adense.c:917-948 | two attributes; renaming one onto the other fails and loses a creation-order record |
| DenseSteps.InsertCore | src/H5Adense.c:408-548 | storing a message and entering it at its place keeps index, heap and reference counts in bijection with the enlarged map |
| DenseSteps.StoreLinks | src/H5Oattribute.c:338-370 | link counts are right after storing if a component is linked exactly for a new user of it |
| DenseSteps.DropLinks | src/H5Adense.c:1274-1288 | and right after releasing if the last use of a message unlinks its components, which never underflows |
| DenseSteps.RemoveCore | src/H5Adense.c:1248-1296 | releasing a message and its record keeps index, heap and reference counts in bijection with the reduced map |
| DenseSteps.RenameIsComplete | src/H5Adense.c:917-987 | after a rename the creation-order index has the new record, and only that, under the old creation order |
| DenseSteps.RewriteShared | src/H5Oattribute.c:708-765 | copy on write: store, link, release, repoint keeps all counts |
| DenseSteps.OrphanBreaks | src/H5Adense.c:946-948 | a message stored without a record leaves the storage inconsistent |
| DenseTables.TableOrder | src/H5Aint.c:1724-1854 | what the comparison routines mean: an increasing table has increasing names or creation orders, a decreasing one decreasing ones |
| DenseTables.TableUnique | src/H5Aint.c:1827-1854 | a sorted table is determined by what the object has |
| DenseTables.SortedIsTable | src/H5Aint.c:1724-1854 | sorting with the comparison routines gives a table strictly in the order asked for |
| DenseTables.ByIndexIsByTable | src/H5Adense.c:1559-1608 | read forwards or backwards, the creation-order index is the sorted table |
| DenseTables.NextAgreesIff | src/H5Aint.c:1876-1884 | index and table iteration report the same next position if and only if the start is not beyond the end |
| DenseTables.RestartsVisitAll | src/H5Adense.c:1118-1236 | however often iteration stops early, restarting from the position it reports misses nothing and repeats nothing |

## Left out

* ParallelProgress.SyncPointCompletes: with early writes, for a sync point at which nothing on rank 0's cleaned list is protected (that a list naming a protected entry is received all the same is `PostedListIsReceived`).
* ParallelSafety.LoadIsCurrent: a read only fetches the entry; that its release tests the threshold too (`src/H5AC.c:1593`), and at or above it would start a sync point on the reading rank alone, is not modelled.
* RankCaches.RankCache.ApplyCandidateList: a call that fails leaves marks on the entries listed before the one at fault; the model has it fail before doing anything.
* DenseAttributes.DenseStorage.Write: the caller's handle has the attribute's current shared location; stale handles to a rewritten shared attribute are not modelled.
* DenseAttributes.DenseStorage.BuildTable: sorting by creation order is for objects whose creation orders differ, as they do when creation order is tracked.
* ParallelTheorems.RanksAgree: with early writes, for runs in which rank 0 heeds both conditions, which the code does not check; with other early writes (`MessageFromTheFuture`) or posted lists (`PostingAProtectedEntry`, `PostedListAgreesIff`) it fails.
* ParallelTheorems.SameSyncPoints: likewise.
* ParallelTheorems.SyncPointIsAtomic: likewise.
* RankZeroView.UnfitWriteIsRead: an entry that every rank held protected at the last sync point can be read again only after it was released unmodified; whether such a place lies in between is not asked.
* RankCaches.RankCache.MarkEntriesAsClean: flush dependencies are not part of a rank here; in the code a pinned entry with dirty flush-dependency children stays flagged until those are clean (`src/H5Cmpio.c:845-870`).
* Early writes are modelled for jobs that use the process-0-only strategy throughout; without them the strategy may change between operations.
* H5AC_mark_entry_clean under MPI: its guard logs only entries that are already clean, so rank 0's lists go stale; proxies use the effect of the cache call alone.
* H5AC_expunge_entry, evictions of whole caches, and the skipped opening barrier while a file is closing.
* Which entries a partial clean picks, and the order in which entries are written: any subset and any order is allowed.
* Collective metadata writes.
* MPI errors and memory allocation failures; the interiors of skip lists, v2 B-trees, fractal heaps, the shared-message index and the C library's sort, which appear by what they promise.
* Protection, pinning and sizes of entries beyond what the operations test; rings, tags, cache images and logging.
* Inserting a message that is already shared into dense storage, conversion between compact and dense storage, attribute versions, record encoding, and reference counts of open attribute handles.
* Public wrappers, data conversion, cross-file copy and library start-up.
