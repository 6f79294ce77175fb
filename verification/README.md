# A Dafny model of pydocs-mcp's branch store, schema ladder and encodings

pydocs-mcp keeps one SQLite bundle per project. The bundle holds many indexed branches over a
shared pool of chunk rows, whose ids are rowids and come back after a delete. The model covers
the code that makes this safe, and the proofs state what it promises.

## Structure

**The branch store.** `BranchRecords` and `BundleTables` hold the tables; `ChunkDiff` the
multiset diff by content hash; `ExtractionCache` the per-file cache and the split of hits;
`ModuleIds` the two module-id rules; `BranchPass` both passes as functions of the old tables
and of a `Choice` (the order the pool is listed in and the ids the inserted rows get, so id
reuse is real); `Retirement` the lifecycle, maintenance and the operator verbs. `BranchStore` is the class whose methods change
the tables step by step; their contracts equate the new tables with those functions. The
theorems: `StoreInvariant`, `PassFacts`, `RefPass`, `TornRows`, `TreePass`, `PassTheorems`
(one pass), `MaintenanceTheorems` (one run), `Runs`, `ServedBranch`, `PurgeTiming` (whole
histories), `Counterexamples` (two reachable failures). The laws say what is left in the tables
column by column, without the functions the methods are specified by: `PassLaws` and `CacheLaws`
(one pass), `RetirementLaws` (one maintenance run), `VerbLaws` (one verb), `RunLaws` and
`Lasting` (whole histories).

**The schema ladder.** `BundleSchema` holds tables, columns, keys, rows with rowids, the one
index namespace, the statements, the sweeps and the arms; `BundleFile` is the class that
executes them; `SchemaLadder` proves what a statement, a sweep and a chain of sweeps keep for
any coherent design; `LadderTheorems` instantiates it with the bundle's own DDL, and `ArmLaws`
says what each version's upgrade writes into the rows. `SqliteErrors`
tells faults of the environment from schema errors; `Openers` is the lock-then-read-again
protocol of any number of processes, repairs without the lock included, for any ladder that
converges; `OpenerTheorems` shows that the bundle's own does.

**Encodings, exclusions and scans.** `Utf8`, `ChunkIdentity`, `Splitting`, `Excludes`,
`Fingerprint`, `ManifestWalk`, `ParenScan`; `Scratch` is the cancellation protocol of the
scratch tree.

## Findings

Two promises fail on reachable bundles. The code is modelled as it is, each failure has a
concrete run, and the exact condition is proved.

* *Cache refinement.* `_UPSERT_SQL` (python/pydocs_mcp/storage/sqlite/file_extraction_repository.py:32-41)
  keeps the stored tree when a later row brings none. A pass that extracts a file whose module
  id another file shares writes a row without a tree, so new spans can stand beside the tree of
  another layout ("torn"). A branch that returns to the old layout then keeps that hit and gets
  the other layout's chunks (`SharedIdBreaksReuse`). A pass equals a cache-free extraction
  exactly when it keeps no torn hit (`CacheRefinement`); a run makes a torn row exactly when a
  pass extracts such a file (`RunTearsExactly`), a condition on the listing and the cache
  before the pass.
* *Pass keys.* Non-Python hits are never demoted, and `a.b.md` and `a/b.md` get one module id.
  Indexed on a branch each they share a chunk row; a ref holding both then names it twice and
  its pass fails on the membership key, every time (`SharedDocIdBlocksIndexing`). A pass's keys
  are distinct exactly when no two kept hits claim one id (`PassKeys`), and files with module
  ids of their own never do (`OwnModulesNeverClash`).

Two smaller ones: the default-branch stamp breaks a branch-led key exactly when an unstamped
row collides with one already under the name (`StampKeepsUnique`), which no trusted start has;
and an exclude entry holding a NUL can share a fingerprint with another set
(`NulEntriesCollide`): nothing in `split_exclude_entries` refuses it.

## Assumptions

* Writers are serialised: a pass reads its cache hits in one unit of work and writes in a later
  one (python/pydocs_mcp/application/branch_indexer.py:117-121); the model lets no other writer
  in between.
* Extraction is a function of blob, path, module id and key; a chunk's identity names its
  module, and a file's tree is rooted at it. Hashing keeps identities apart, so a content hash
  is the identity it is made from.
* No two default rows share a stamp where a theorem about maintenance says so (`NoTie`).
* `detect_merges` answers for a branch name and head: a verdict names the branch asked about;
  the same question gets the same answer.
* The clock of working-tree passes advances where a theorem says so (`StampsAdvance`).

## Model

| member | source | states |
|---|---|---|
| `ChunkDiff.DiffChunksByContentHash` | python/pydocs_mcp/application/chunk_multiset_diff.py:45-71 | the loops over grouped hashes compute exactly the specification function `Diff` (order of kept, removed and added included) |
| `ChunkDiff.IdsByHash` | python/pydocs_mcp/application/chunk_multiset_diff.py:28-35 | the dictionary of id lists groups every non-NULL stored hash, keys in order of first appearance |
| `ChunkDiff.ChunksByHash` | python/pydocs_mcp/application/chunk_multiset_diff.py:38-42 | the dictionary of chunk lists groups every incoming hash, keys in order of first appearance |
| `ChunkDiff.DiffPartitions` | python/pydocs_mcp/application/chunk_multiset_diff.py:45-71 | kept and removed ids partition the existing ids; kept and added chunks partition the incoming chunks, as multisets |
| `ChunkDiff.DiffKeepsEqualHashes` | python/pydocs_mcp/application/chunk_multiset_diff.py:45-71 | every kept pair joins an incoming chunk with a stored row of its own hash |
| `ChunkDiff.DiffKeepsTheFirstIds` | python/pydocs_mcp/application/chunk_multiset_diff.py:45-71 | per hash exactly min(existing, incoming) rows are kept, and they are the first existing ids of that hash |
| `ChunkDiff.DiffingAgainIsInert` | python/pydocs_mcp/application/chunk_multiset_diff.py:45-71 | once the diff is applied, diffing the same chunks again removes and adds nothing |
| `ChunkDiff.ApplyingReachesIncoming` | python/pydocs_mcp/application/chunk_multiset_diff.py:45-71 | applying the diff leaves no NULL hash and, per hash, as many rows as came in |
| `BranchStore.BranchStore.DefaultBranchName` | python/pydocs_mcp/db_branch_key_migration.py:104-106 | the served name is a row stamped default with the newest stamp, or none when no row is |
| `BranchStore.BranchStore.ListIdHashPairs` | python/pydocs_mcp/storage/sqlite/chunk_repository.py:181-195 | every project row once as (id, hash), in an order the store chooses |
| `BranchStore.BranchStore.PersistAddedChunks` | python/pydocs_mcp/application/indexing_service.py:335-349 | row by row: the i-th id is one no row had (freed ones may come back) and now holds the i-th chunk's content, with a vector of it exactly when that chunk is embedded; no other row or vector changes |
| `BranchStore.BranchStore.ReplaceMembership` | python/pydocs_mcp/storage/sqlite/branch_chunk_repository.py:86-93 | the branch's rows become exactly the given ones, or the primary key refuses a repeated chunk id |
| `BranchStore.BranchStore.DeleteUnreferencedProjectChunks` | python/pydocs_mcp/storage/sqlite/chunk_repository.py:258-268 | id by id: a row is freed exactly when it is the project's and no branch's membership names it; every other row keeps its value |
| `BranchStore.BranchStore.UpsertMany` | python/pydocs_mcp/storage/sqlite/file_extraction_repository.py:32-41 | the upsert replaces the spans and keeps the stored tree when the new row has none |
| `BranchStore.BranchStore.DeleteNamingChunkIds` | python/pydocs_mcp/storage/sqlite/file_extraction_repository.py:119-126 | key by key: a row stays, with its value, exactly when none of its spans names a given id |
| `BranchStore.BranchStore.DeleteSuperseded` | python/pydocs_mcp/storage/sqlite/file_extraction_repository.py:111-117 | key by key: a row stays, with its value, exactly when it is under the pass's extraction key |
| `BranchStore.BranchStore.DeleteUnreferenced` | python/pydocs_mcp/storage/sqlite/file_extraction_repository.py:105-109 | key by key: a row stays, with its value, exactly when some branch lists its blob under its path |
| `BranchStore.BranchStore.CollectProjectGarbage` | python/pydocs_mcp/application/branch_membership.py:277-320 | the three-step collection is the specification function `CollectGarbage` |
| `BranchStore.BranchStore.PurgeBranchRows` | python/pydocs_mcp/application/branch_membership.py:323-337 | one branch's rows go, then the collection runs; returns the freed ids |
| `BranchStore.BranchStore.ReplaceBranchRows` | python/pydocs_mcp/application/branch_membership.py:185-219 | column by column: head, source, pipeline, base, merge base, worktree are the manifest's, both stamps the clock's, status ACTIVE with no retirement, the pin kept; files and membership become the given ones; no other branch changes; refused on a repeated id |
| `BranchStore.BranchStore.RefuseServedBranch` | python/pydocs_mcp/application/branch_membership.py:238-253 | refuses the served branch and landing units, in that order |
| `BranchStore.BranchStore.BranchesRetiredBy` | python/pydocs_mcp/application/branch_membership.py:134-155 | names exactly the previous checkouts of the manifest's worktree |
| `BranchStore.BranchStore.WriteBranchMembership` | python/pydocs_mcp/application/branch_membership.py:222-235 | retires the previous checkouts, then stamps the branch as default |
| `BranchStore.BranchStore.WriteFileExtractionCache` | python/pydocs_mcp/application/branch_membership.py:265-274 | the upserted rows make the specification function `CacheWith` |
| `BranchStore.BranchStore.AssignChunkRows` | python/pydocs_mcp/application/branch_pass.py:150-169 | the chunks are paired with kept and new rows by a choice the store is free to make among the valid ones |
| `BranchStore.BranchStore.CacheMisses` | python/pydocs_mcp/application/branch_pass.py:172-194 | the misses' chunks assigned outside the ids the hits claim, and cached |
| `BranchStore.BranchStore.SwapMembership` | python/pydocs_mcp/application/branch_pass.py:132-147 | the branch's membership becomes the hits' rows and the assigned rows |
| `BranchStore.BranchStore.WriteTreeTier` | python/pydocs_mcp/application/branch_pass.py:200-229 | the branch's tree rows become those of the hits and of the extraction |
| `BranchStore.BranchStore.RunBranchPass` | python/pydocs_mcp/application/branch_pass.py:91-126 | one transaction: refused over the served branch or a landing unit and told apart, rolled back whole on a repeated chunk id, or committed as `PassResult` with the counts of `OutcomeOf` |
| `BranchStore.BranchStore.ReindexProject` | python/pydocs_mcp/application/indexing_service.py:275-369 | the working-tree pass's branch step: stamp, cache write and collection over assignments that satisfy the diff, as `TreePassResult` |
| `BranchStore.BranchStore.SplitCacheHits` | python/pydocs_mcp/application/extraction_cache.py:310-331 | a hit needs a blob id and a full row, tree included, under the pass's key; the rest are misses, in listing order |
| `BranchStore.SharedModuleIds` | python/pydocs_mcp/application/branch_scratch.py:132-132 | counting finds exactly the module ids two files carry |
| `BranchStore.SplitHitsByModuleId` | python/pydocs_mcp/application/branch_scratch.py:118-147 | keeps exactly the hits whose cached tree names an unshared id this layout gives the file, or that have no module id; demotes the others |
| `BranchStore.BranchStore.ReuseOrExtract` | python/pydocs_mcp/application/branch_indexer.py:159-207 | the pass input is the kept hits read back and the extraction of misses and demoted hits |
| `BranchStore.BranchStore.IndexRef` | python/pydocs_mcp/application/branch_indexer.py:107-125 | one pass for a ref: as `RunBranchPass` over what the ref's listing and the cache give |
| `BranchStore.BranchStore.CopyMembership` | python/pydocs_mcp/storage/sqlite/branch_chunk_repository.py:117-125 | row by row: the target holds the source's rows of the slice and its own rows naming none of their chunks, no chunk twice when neither held one twice, and no other branch changes |
| `BranchStore.BranchStore.LinkLandingUnit` | python/pydocs_mcp/application/branch_retirement.py:129-144 | a branch named like the sha changes nothing; otherwise the unit's record is written once, column by column, and holds the merged branch's diff slice and its own other rows |
| `BranchStore.BranchStore.ApplyMergeVerdicts` | python/pydocs_mcp/application/branch_retirement.py:147-187 | every verdict's evidence is stamped; the branches moved to MERGED are those the policy and the pin allow |
| `BranchStore.BranchStore.RetireDeleted` | python/pydocs_mcp/application/branch_retirement.py:193-217 | exactly the unpinned live rows without a ref and unprotected become DELETED |
| `BranchStore.BranchStore.PurgeDue` | python/pydocs_mcp/application/branch_retirement.py:220-244 | purging due branches one after another is purging them together |
| `BranchStore.BranchStore.FindMerges` | python/pydocs_mcp/application/branch_maintenance.py:186-204 | one verdict for each candidate row git has a verdict for |
| `BranchStore.BranchStore.RetireLanded` | python/pydocs_mcp/application/branch_maintenance.py:171-184 | verdicts, then deleted refs, in one transaction: every row afterwards is the MERGED, DELETED, stamped or unchanged one its verdict, refs, pin and policy say; the two lists are exactly the rows that became MERGED or DELETED |
| `BranchStore.BranchStore.RunMaintenance` | python/pydocs_mcp/application/branch_maintenance.py:145-184 | skipped whole without refs; retirement skipped on a git error; the purge last and writing no record; every row afterwards as `RetireLanded` says; the report names the merged, the deleted and the purged |
| `BranchStore.BranchStore.ApplyBranchVerb` | python/pydocs_mcp/application/branch_retirement.py:250-309 | an unknown name is refused every verb, a landing unit and the served branch Retire and Purge, with nothing changed; otherwise Pin and Unpin set the pin alone, Retire dates the row and takes an ACTIVE one out of service, Purge takes the branch's rows, and every other column, record and view stands |
| `ExtractionCache.InFileOrderSorts` | python/pydocs_mcp/application/branch_membership.py:70-78 | the written spans are the file's own, start lines ascending, spans without one last, ties by chunk id |
| `ExtractionCache.CacheWithAt` | python/pydocs_mcp/application/branch_membership.py:92-131 | the written cache key by key: a file with something to cache has its own row (a row without a tree keeps the stored tree), every other key is as before |
| `BundleTables.CollectingKeepsViews` | python/pydocs_mcp/application/branch_membership.py:277-320 | the collection never takes a row a branch still names |
| `BundleTables.CollectingLeavesNothing` | python/pydocs_mcp/application/branch_membership.py:277-320 | after it every project chunk is named and every cache row is listed |
| `BundleTables.CollectingIsInert` | python/pydocs_mcp/application/branch_membership.py:277-320 | a second collection changes nothing |
| `BundleTables.PurgesBatch` | python/pydocs_mcp/application/branch_retirement.py:233-244 | purging branches one at a time ends where purging them together does |
| `BundleTables.PurgeIsolates` | python/pydocs_mcp/application/branch_membership.py:323-337 | a purge leaves every other branch's files, trees, membership and resolved rows as they were |
| `BundleTables.PurgeFreesExactly` | python/pydocs_mcp/application/branch_membership.py:323-337 | a purge frees a project chunk exactly when only purged branches named it |
| `StoreInvariant.InsertKeeps` | python/pydocs_mcp/application/indexing_service.py:335-349 | inserting under reused ids meets no stale vector or cache row |
| `StoreInvariant.CollectKeeps` | python/pydocs_mcp/application/branch_membership.py:277-320 | the collection establishes the store invariant |
| `RefPass.PassKeys` | python/pydocs_mcp/application/branch_pass.py:115-169 | a pass's rows have pairwise distinct chunk ids exactly when no two kept hits claim one id |
| `RefPass.PassKeepsInvariant` | python/pydocs_mcp/application/branch_pass.py:91-112 | a committed pass keeps the store invariant, whichever freed ids it reuses |
| `RefPass.CacheRefinement` | python/pydocs_mcp/application/branch_indexer.py:107-199 | the membership left by a committed pass equals, as a multiset of (path, span, content), a cache-free extraction of every file, exactly when no kept hit is torn |
| `Counterexamples.SharedIdBreaksReuse` | python/pydocs_mcp/application/branch_membership.py:110-131 | on a reachable bundle the refinement fails: under the two module-id rules, the three listings named in the contract end with another layout's chunks reused |
| `Counterexamples.SharedDocIdBlocksIndexing` | python/pydocs_mcp/application/branch_scratch.py:143-147 | on a reachable bundle pass keys fail: under the two module-id rules, the two notes of the listings named in the contract cannot be indexed together |
| `TornRows.RefPassTearsExactly` | python/pydocs_mcp/application/branch_membership.py:92-131 | a ref pass over untorn rows makes a torn one exactly when it extracts a file whose module id is shared over a stored tree of another module |
| `TreePass.TreePassTearsExactly` | python/pydocs_mcp/application/branch_membership.py:265-274 | the same for the working-tree pass |
| `TreePass.TreePassKeepsInvariant` | python/pydocs_mcp/application/indexing_service.py:275-369 | the working-tree pass never repeats an id and keeps the store invariant |
| `TreePass.TreePassStoresExtraction` | python/pydocs_mcp/application/indexing_service.py:275-369 | its membership is its own extraction |
| `PassTheorems.RefPassIsolates` | python/pydocs_mcp/application/branch_pass.py:91-112 | every other branch keeps its record, files, trees and membership, each id resolving to the same row |
| `PassTheorems.TreePassIsolates` | python/pydocs_mcp/application/branch_membership.py:147-175 | so does the working-tree pass, but for the branches it retires |
| `PassTheorems.TreePassRetires` | python/pydocs_mcp/application/branch_membership.py:222-235 | a retired checkout keeps no record, file, tree or membership row |
| `PassTheorems.ChunksConserved` | python/pydocs_mcp/application/branch_pass.py:115-126 | project chunks after = before + embedded - vectors removed |
| `PassTheorems.CountsAddUp` | python/pydocs_mcp/application/branch_pass.py:115-126 | embedded + shared = membership size, and shared counts exactly the rows that existed |
| `PassTheorems.OwnModulesNeverClash` | python/pydocs_mcp/application/branch_scratch.py:118-147 | a ref whose files have module ids of their own, with no torn hit, is always indexable |
| `PassTheorems.ClashMeansSharedDocModule` | python/pydocs_mcp/application/branch_scratch.py:118-147 | two untorn hits claiming one id share a module id, and not both are Python files |
| `Runs.RunKeepsInvariant` | python/pydocs_mcp/application/branch_membership.py:277-337 | over every run of passes, maintenance, purges and verbs with rowid reuse: membership, vectors and cache rows name live rows of their own content, every project chunk is named |
| `Runs.RunTearsExactly` | python/pydocs_mcp/application/branch_membership.py:92-131 | a run reaches a torn row exactly when one of its passes tears a file |
| `Runs.RunRefinesFreshExtraction` | python/pydocs_mcp/application/branch_indexer.py:107-199 | while no pass has torn a row every committed ref pass equals a cache-free extraction |
| `ServedBranch.ServedOverRuns` | python/pydocs_mcp/application/branch_retirement.py:197-290 | with an advancing clock no run retires, empties or changes the served branch |
| `ServedBranch.ServedContentOverRuns` | python/pydocs_mcp/application/branch_membership.py:222-262 | whatever ran since, the served branch is ACTIVE and reads as the last checkout's own extraction |
| `PurgeTiming.PurgeWaitsOutTheGrace` | python/pydocs_mcp/application/branch_retirement.py:220-244 | a MERGED or DELETED branch is due only when the grace window has passed since the event that last retired it |
| `PurgeTiming.ReindexCancelsThePurge` | python/pydocs_mcp/application/branch_membership.py:178-219 | a pass puts the branch back in service, no purge pending, the pin kept |
| `PurgeTiming.PassReindexes` | python/pydocs_mcp/application/branch_membership.py:256-262 | a ref pass leaves its branch in service and its pin as it was |
| `PurgeTiming.TreePassReindexes` | python/pydocs_mcp/application/branch_membership.py:222-235 | so does the working-tree pass |
| `PurgeTiming.InServiceUntilRetired` | python/pydocs_mcp/application/branch_retirement.py:64-76 | once in service a branch is never due until an event retires it again |
| `PurgeTiming.RetiredByAnEvent` | python/pydocs_mcp/application/branch_retirement.py:73-76 | a row out of service was taken out by an event and not re-stamped since |
| `PassLaws.RefPassLeavesVectors` | python/pydocs_mcp/application/indexing_service.py:335-349 | after a committed ref pass the branch names every row it inserted, and each holds its chunk, with a vector exactly when the chunk is embedded |
| `PassLaws.TreePassLeavesVectors` | python/pydocs_mcp/application/indexing_service.py:335-349 | so does the working-tree pass |
| `PassLaws.GarbageExactly` | python/pydocs_mcp/application/branch_membership.py:277-320 | a collection keeps exactly the rows that are not the project's or that some membership names, and exactly the vectors of rows it keeps |
| `PassLaws.CacheRowsLeft` | python/pydocs_mcp/application/branch_membership.py:277-320 | and exactly the cache rows under the pass's key that some branch lists and that name no row it freed |
| `PassLaws.PassLeavesOneKey` | python/pydocs_mcp/application/branch_pass.py:91-112 | a committed ref pass leaves cache rows under its own extraction key only |
| `PassLaws.TreePassLeavesOneKey` | python/pydocs_mcp/application/indexing_service.py:351-369 | so does a working-tree pass |
| `PassLaws.PurgedCacheExactly` | python/pydocs_mcp/application/branch_membership.py:323-337 | a purge keeps exactly the cache rows, under any key, that another branch lists and that name no row it freed |
| `PassLaws.RefPassStamps` | python/pydocs_mcp/application/branch_membership.py:185-219 | the record a ref pass leaves, column by column: the manifest's, ACTIVE, not default, the pin kept; the files are the manifest's |
| `PassLaws.TreePassStamps` | python/pydocs_mcp/application/branch_membership.py:222-235 | the record a working-tree pass leaves, column by column; it is default |
| `PassLaws.TreePassRetiresExactly` | python/pydocs_mcp/application/branch_membership.py:134-155 | another branch loses every row exactly when its record names the pass's worktree and no landing; any other keeps its record and rows |
| `PassLaws.RefPassTrees` | python/pydocs_mcp/application/branch_pass.py:200-229 | the branch's trees after a ref pass are one for each reused file with a cached one, then one for each extracted file that has one |
| `PassLaws.TreePassTrees` | python/pydocs_mcp/application/indexing_service.py:220-236 | after a working-tree pass they are the extraction's and the unbranched copy is gone; without any they stand |
| `PassLaws.RefPassSlices` | python/pydocs_mcp/application/branch_pass.py:132-147 | every membership row a ref pass leaves is of the tree slice |
| `PassLaws.TreePassSlices` | python/pydocs_mcp/application/branch_membership.py:222-235 | so is every row a working-tree pass leaves |
| `PassLaws.ReusedExactly` | python/pydocs_mcp/application/branch_scratch.py:118-147 | a ref pass reuses exactly the files with a blob and a full row under its key whose tree, for a Python file, is rooted at the id this layout gives it and shares with no other Python file taking part; it extracts exactly the others but the empty ones without a row |
| `PassLaws.FileCounts` | python/pydocs_mcp/application/branch_pass.py:115-126 | the counts of files are the listing, the reused and the extracted ones |
| `PassLaws.PassRefusedExactly` | python/pydocs_mcp/application/branch_membership.py:238-253 | a ref pass is refused over the served branch, as such, and over any other landing unit, as such, and over nothing else |
| `CacheLaws.ExtractedIsCached` | python/pydocs_mcp/application/branch_membership.py:92-131 | each extracted file with a blob and anything to cache has a row afterwards: its own chunks in start order, and its tree when its root is no other extracted file's, else the tree stored before |
| `CacheLaws.TreePassCaches` | python/pydocs_mcp/application/branch_membership.py:265-274 | after a working-tree pass each extracted file with a blob and a root to itself has a full row: its own chunks in start order, and its tree |
| `CacheLaws.OnlyExtractedAreWritten` | python/pydocs_mcp/application/branch_membership.py:92-131 | no other cache row is added or changed |
| `CacheLaws.ReusedStaysCached` | python/pydocs_mcp/application/branch_membership.py:277-320 | a reused file's row is still there, as it was |
| `CacheLaws.NextPassReuses` | python/pydocs_mcp/application/branch_indexer.py:159-207 | a pass over the same files after a committed one reuses every file that has a blob, content, a tree and a module id to itself, and extracts none of them |
| `RunLaws.OneBranchPerWorktree` | python/pydocs_mcp/application/branch_membership.py:222-235 | two working-tree passes of one worktree under two names, whatever ran in between but passes over the first: the first name is in none of the four tables afterwards |
| `RunLaws.PinHolds` | python/pydocs_mcp/application/branch_retirement.py:250-309 | from an accepted Pin until an Unpin, a Purge or another checkout of the worktree: the branch stays pinned, no event but a pass over it or a Retire of it moves its status, and nothing but a pass over it takes a row |
| `Lasting.LandingUnitsLast` | python/pydocs_mcp/application/branch_retirement.py:118-144 | a landing unit outlasts every run in which no working tree is checked out under its sha: its record keeps every column but the pin and it names each chunk it named |
| `Lasting.VectorsLast` | python/pydocs_mcp/application/branch_membership.py:277-320 | over every run a row that lives on keeps its content, and its vector if it has one |
| `Lasting.EmbeddedForLife` | python/pydocs_mcp/application/indexing_service.py:335-349 | a chunk a committed pass inserts has its vector from then on, exactly when the embed policy took it, for as long as its row lives |
| `RetirementLaws.FoundExactly` | python/pydocs_mcp/application/branch_maintenance.py:186-204 | a verdict is found for exactly the live rows of a branch's own name that are no landing unit, not the base, not checked out, served or tracked, and that git calls landed at their head |
| `RetirementLaws.RefKeepsItsBranch` | python/pydocs_mcp/application/branch_maintenance.py:171-184 | a row with a local head, a tracked ref or a worktree, or served, and no verdict, is unchanged |
| `RetirementLaws.DeletedExactly` | python/pydocs_mcp/application/branch_retirement.py:193-217 | a row becomes DELETED exactly when the policy retires deleted refs, it was ACTIVE or INACTIVE, unpinned, no landing unit, not synthetic, in no ref set and not served, and no verdict moved it; with its dates |
| `RetirementLaws.RetiredRows` | python/pydocs_mcp/application/branch_retirement.py:147-217 | every row through the transaction, column by column: with a verdict and without |
| `RetirementLaws.ReportedExactly` | python/pydocs_mcp/application/branch_maintenance.py:145-184 | a row is reported deleted exactly when it became DELETED and merged exactly when its verdict moved it, nobody twice |
| `RetirementLaws.LinkExactly` | python/pydocs_mcp/application/branch_retirement.py:86-144 | the landing unit column by column (kind by snapshot and parents, base before the landing, landing date) and its rows pointwise |
| `RetirementLaws.MovedIsLinked` | python/pydocs_mcp/application/branch_retirement.py:147-187 | after a run every branch it moved to MERGED has its landing's row, and a landing unit names every chunk of the branch's diff slice |
| `RetirementLaws.UnitsAreLandings` | python/pydocs_mcp/application/branch_retirement.py:147-187 | a run adds records only for landings of the branches it moved, each as one of them says, and membership rows only from their diff slices |
| `RetirementLaws.PurgedExactly` | python/pydocs_mcp/application/branch_retirement.py:220-244 | the grace purge takes a branch's rows exactly when it is INACTIVE, MERGED or DELETED, unpinned, no landing unit, neither checked out nor served, past its purge date and owns rows; every other branch keeps its view |
| `VerbLaws.VerbExactly` | python/pydocs_mcp/application/branch_retirement.py:250-309 | what each accepted verb writes, column by column and table by table |
| `VerbLaws.RefusedExactly` | python/pydocs_mcp/application/branch_retirement.py:250-309 | which verb is refused on which row, and as what |
| `MaintenanceTheorems.MaintenanceIsFixpoint` | python/pydocs_mcp/application/branch_maintenance.py:145-225 | a second run over the same refs and time changes no table and reports nothing, a grace of zero included, whatever each transaction of both runs reads as served while no two default rows share a stamp |
| `MaintenanceTheorems.MergedBeatsDeleted` | python/pydocs_mcp/application/branch_maintenance.py:171-184 | an unpinned branch with a verdict ends MERGED, never DELETED, when auto-retire is on |
| `MaintenanceTheorems.RetireSpares` | python/pydocs_mcp/application/branch_retirement.py:147-217 | no pinned, protected or landing-unit row changes but in its evidence columns |
| `MaintenanceTheorems.PurgeSpares` | python/pydocs_mcp/application/branch_retirement.py:220-244 | nor loses rows to the purge |
| `MaintenanceTheorems.VerdictsByRow` | python/pydocs_mcp/application/branch_retirement.py:169-187 | verdicts row by row: the verdict's own branch moves, other rows stand, only landing units are added |
| `MaintenanceTheorems.RunKeepsServed` | python/pydocs_mcp/application/branch_maintenance.py:104-108 | a maintenance run leaves the served choice as it was |
| `BundleFile.BundleFile.AddColumn` | python/pydocs_mcp/db.py:380-392 | a duplicate column is no error, a missing table is; old rows take the default |
| `BundleFile.BundleFile.RebuildKey` | python/pydocs_mcp/db_branch_key_migration.py:118-131 | keyed, gone or to be copied: the three cases of `KeyRebuilt` |
| `BundleFile.BundleFile.CopyIntoBranchKeyedTable` | python/pydocs_mcp/db_branch_key_migration.py:134-150 | rename, copy with rowids, drop, then the indexes, as `KeyCopied` |
| `BundleFile.BundleFile.RunSweeps` | python/pydocs_mcp/db.py:731-743 | the sweeps newer than `since`, in order, stopping at the first error |
| `BundleFile.DefaultBranchName` | python/pydocs_mcp/db_branch_key_migration.py:104-106 | the newest default row's name |
| `BundleFile.BundleFile.StampProjectRows` | python/pydocs_mcp/db_branch_key_migration.py:163-176 | the unstamped project rows of the five tables take the served name; nothing else changes |
| `BundleFile.BundleFile.FinishUpgrade` | python/pydocs_mcp/db.py:837-842 | the stamp for the branch the bundle serves, then the version |
| `BundleFile.BundleFile.MigrateInPlace` | python/pydocs_mcp/db.py:756-834 | from a trusted bundle the arm of the stamp fails nowhere and writes into every table what the version number says: which hashes are cleared, which chunks flagged, which rows take the served name |
| `BundleFile.BundleFile.BringSchemaCurrent` | python/pydocs_mcp/db.py:972-992 | a fault of the environment and a broken key roll back and are raised, any other error rolls back and rebuilds; from a trusted bundle without a fault the result has converged |
| `LadderTheorems.LadderConverges` | python/pydocs_mcp/db.py:713-842 | from every in-place version and any bundle of the shape it is trusted to have: the fresh DDL's tables, columns, keys and indexes, the current stamp, every row under its rowid with every value but the columns the arm names |
| `LadderTheorems.ReachedIsComplete` | python/pydocs_mcp/db.py:114-286 | the sweeps and the fresh DDL spell the same schema |
| `LadderTheorems.SweptConverges` | python/pydocs_mcp/db.py:713-743 | the whole chain runs without error and completes the schema, losing no row or value |
| `LadderTheorems.ReopeningIsInert` | python/pydocs_mcp/db.py:764-771 | re-opening a current bundle changes no table, index, row or stamp |
| `SchemaLadder.KeyCopySteps` | python/pydocs_mcp/db_branch_key_migration.py:134-150 | the copied table keeps every row, rowid and old value, has the fresh key and all its named indexes |
| `SchemaLadder.RebuildKeySteps` | python/pydocs_mcp/db_branch_key_migration.py:118-150 | so in each of the three cases |
| `SchemaLadder.SweepSteps` | python/pydocs_mcp/db.py:395-707 | a supported sweep runs whole, keeps every row and value, fills each new column with its default, and leaves all it names |
| `LadderTheorems.EverySweepIsSupported` | python/pydocs_mcp/db.py:713-728 | each sweep finds its tables and columns in the core or from the sweeps before it |
| `LadderTheorems.StampKeepsUnique` | python/pydocs_mcp/db_branch_key_migration.py:163-176 | the stamp keeps the branch-led key unique exactly when no unstamped row collides with one already under the name |
| `LadderTheorems.StampingTwiceIsOnce` | python/pydocs_mcp/db_branch_key_migration.py:163-176 | replaying the stamp is inert |
| `LadderTheorems.ReindexingFirstLosesEveryIndex` | python/pydocs_mcp/db_branch_key_migration.py:146-150 | with the last two steps swapped every index is skipped, then dropped with the old table |
| `ArmLaws.UpgradeWrites` | python/pydocs_mcp/db.py:756-834 | by version number: from 9 to 15 the project's package hash is cleared and every other stands, below 9 every package's is; below 12 every chunk is flagged embedded and from 12 on none is touched; below 18 the unbranched project rows of the five branch-keyed tables take the served name; every other value stands and a new column reads back its default |
| `ArmLaws.NewColumnsAfter` | python/pydocs_mcp/db.py:380-392 | a column an upgrade adds reads back, in every row it finds, the empty module, no upstream gone, or nothing |
| `ArmLaws.InPlaceVersions` | python/pydocs_mcp/db.py:764-834 | the versions upgraded in place; every other bundle starts afresh |
| `BundleFile.BundleFile.Recover` | python/pydocs_mcp/db.py:979-991 | a failed open rolls back; faults of the environment and a broken key are raised, any other error rebuilds |
| `SqliteErrors.EnvironmentalExactly` | python/pydocs_mcp/db_migration_lock.py:76-85 | the masked code is environmental exactly for the five faults, under every extension of their result codes |
| `Openers.UpgradedAtMostOnce` | python/pydocs_mcp/db_migration_lock.py:52-73 | for any ladder that converges, any number of openers, interleaving, fault, crash and lock timeout: one upgrade at most, no rebuild, the file as found or current with nothing lost since, whole once opened |
| `Openers.ForgottenFaultRebuilds` | python/pydocs_mcp/db.py:979-991 | a handler whose predicate misses one fault has a run that rebuilds, whatever the bundle held |
| `OpenerTheorems.BundleLadderConverges` | python/pydocs_mcp/db.py:756-834 | the bundle's own ladder is one the protocol is safe for, from any trusted bundle, a drifted current one included |
| `OpenerTheorems.NextStatementRuns` | python/pydocs_mcp/db.py:731-743 | whatever other openers have done, the next repair statement runs on a drifted bundle, loses nothing and leaves its effect |
| `OpenerTheorems.LastSweepCompletes` | python/pydocs_mcp/db.py:680-707 | the last sweep, in its transaction, completes the bundle once the others are in place |
| `OpenerTheorems.BundleUpgradedAtMostOnce` | python/pydocs_mcp/db.py:972-992 | so for the bundle: at most one upgrade, no rebuild, and whoever has it open has a complete, current one |
| `OpenerTheorems.NoRowIsLost` | python/pydocs_mcp/db.py:972-992 | no table loses a row, or an old value but those the one upgrade rewrites; a repair rewrites none |
| `OpenerTheorems.EmbeddedFlagsSurvive` | python/pydocs_mcp/db.py:764-799 | flags in a bundle stamped 12 or later survive every open |
| `OpenerTheorems.UpgradeArrives` | python/pydocs_mcp/db.py:756-842 | an upgrade arm ends complete, current and with every table's key unbroken |
| `OpenerTheorems.RepairArmRepairs` | python/pydocs_mcp/db.py:764-771 | the repair arm completes any shaped bundle that has its core tables |
| `OpenerTheorems.IgnoringTheCodeEmpties` | python/pydocs_mcp/db_migration_lock.py:32-44 | under a handler that looks at no code one fault leaves every table empty |
| `OpenerTheorems.RenameAloneStrandsRows` | python/pydocs_mcp/db.py:680-698 | a crash after the key rebuild's rename alone would leave an empty table at the next repair, the rows stranded beside it |
| `OpenerTheorems.StaleStampOverwritesFlags` | python/pydocs_mcp/db_migration_lock.py:52-73 | an arm run on a stamp read before the lock would flag every chunk embedded |
| `ChunkIdentity.DecodeInvertsPayload` | python/pydocs_mcp/models.py:325-326 | the decoder gives back any list of fields, NULs and digits included |
| `ChunkIdentity.DecodedPayloadPrints` | python/pydocs_mcp/models.py:325-326 | and accepts nothing but payloads |
| `ChunkIdentity.IdentityInjective` | python/pydocs_mcp/models.py:296-327 | equal hashed octets mean equal five fields |
| `ChunkIdentity.BareSeparatorCollides` | python/pydocs_mcp/models.py:316-323 | a bare NUL join realigns across a NUL inside a field |
| `Excludes.SplitExcludeEntries` | python/pydocs_mcp/project_toml.py:81-132 | the first broken entry fails the list; otherwise entries are split by whether a slash is left |
| `Excludes.NormalizedExactly` | python/pydocs_mcp/project_toml.py:81-132 | one entry: refused as no string, as absolute, as empty or for a component, each exactly when it is one; otherwise accepted as its slashed text without trailing slashes |
| `Excludes.SplitEntriesArePlain` | python/pydocs_mcp/project_toml.py:81-132 | accepted entries have plain components; a name is one, an anchored path several |
| `Excludes.SplitIsUnique` | python/pydocs_mcp/project_toml.py:81-132 | the split is a function of the list |
| `Excludes.MatchesIsClosedBelow` | python/pydocs_mcp/project_toml.py:59-74 | everything beneath a match matches |
| `Excludes.MatchesByAncestors` | python/pydocs_mcp/project_toml.py:59-74 | a path matches exactly when it or a directory above it is named or anchored |
| `Excludes.MergeExcludes` | python/pydocs_mcp/project_toml.py:188-208 | the merged set matches exactly what the floor, the scope or the loaded set matches |
| `Fingerprint.ExclusionFingerprint` | python/pydocs_mcp/project_toml.py:211-229 | None for the bare floor, otherwise the sorted, tagged, NUL-joined set |
| `Fingerprint.FingerprintIsFaithful` | python/pydocs_mcp/project_toml.py:211-229 | None exactly for the bare floor; otherwise equal fingerprints mean equal sets, for NUL-free entries |
| `Fingerprint.FingerprintIsUnique` | python/pydocs_mcp/project_toml.py:211-229 | one set has one fingerprint |
| `Fingerprint.NulEntriesCollide` | python/pydocs_mcp/project_toml.py:226-229 | with a NUL in an entry two sets share a fingerprint |
| `ManifestWalk.ListDependencyManifestFiles` | python/pydocs_mcp/deps.py:51-82 | the pruned walk finds, in the full walk's order, exactly the files named `pyproject.toml` or `requirements*.txt` that the tree holds with no never-entered or excluded name and no excluded path above them |
| `ManifestWalk.WalkFrom` | python/pydocs_mcp/deps.py:67-81 | the same below every directory the walk enters |
| `ManifestWalk.NothingWantedBelow` | python/pydocs_mcp/deps.py:71-75 | no wanted file lies beneath an excluded directory |
| `ManifestWalk.PruneTestIsExclusion` | python/pydocs_mcp/deps.py:71-88 | the pruning test agrees with exclusion for a child of a walked directory |
| `ManifestWalk.WantedAre` | python/pydocs_mcp/deps.py:76-81 | the filter keeps exactly the manifests outside excluded directories |
| `ParenScan.ScanChars` | python/pydocs_mcp/_fallback.py:86-112 | the first place within the limit where a closing parenthesis brings the depth to zero, or none |
| `ParenScan.ScanOctets` | src/lib.rs:226-254 | the same over octets |
| `ParenScan.OctetScanRefinesCharScan` | src/lib.rs:226-254 | what the octet scan finds is the offset of what the character scan finds; what the character scan finds the octet scan finds exactly within the limit counted in octets |
| `ParenScan.TruncationKeepsChars` | src/lib.rs:43-48 | the cut keeps whole characters: the octets of the fallback's slice |
| `Utf8.EncodeInjective` | python/pydocs_mcp/models.py:327-327 | distinct texts have distinct octets |
| `Scratch.CancellationIsSafe` | python/pydocs_mcp/application/branch_scratch.py:32-84 | with cancellations at any awaits: no blob is written after the removal starts, no worker and no tree is left at the return but one whose removal failed and was logged, and it returns cancelled exactly when a cancellation was received |
| `Scratch.WorkerIsWaitedOut` | python/pydocs_mcp/application/branch_scratch.py:66-84 | no step leaves `_run_to_end` before its worker is done, however many cancellations arrive |
| `Scratch.WithoutTheLoopATreeLeaks` | python/pydocs_mcp/application/branch_scratch.py:77-84 | with the wait loop dropped a tree can be leaked |
| `Scratch.WithoutTheLoopABlobIsLate` | python/pydocs_mcp/application/branch_scratch.py:77-84 | and a blob can be written after the removal started |
| `ModuleIds.AloneId` | python/pydocs_mcp/extraction/strategies/python_module_id.py:125-173 | a Python file with no marker beside it is named by its whole path |
| `ModuleIds.PackagedId` | python/pydocs_mcp/extraction/strategies/python_module_id.py:125-173 | with a marker beside it and none above it is named from its package |
| `ModuleIds.DocModuleIsDotted` | python/pydocs_mcp/extraction/strategies/chunkers/_shared.py:72-90 | another file is named by its path with slashes read as dots, so paths differing only in those share an id |

## Left out

- BranchStore.BranchStore.DefaultBranchName: a tie between default rows with one stamp is any of them; SQLite's own choice is not modelled
- BranchStore.BranchStore.ReindexProject: models the branch step of `reindex_package` (diff, stamp, cache, collection); packages, members, references, decisions and embedding calls are not modelled
- BranchStore.BranchStore.WriteTreeTier: tree rows are opaque roots; members, references, node scores, decisions and SIMILAR edges are not modelled
- BranchStore.BranchStore.WriteBranchMembership: the previous checkout of a worktree goes whether pinned or not, as in the code; the claims about pins are about maintenance
- BranchStore.BranchStore.SplitCacheHits: the error for a key `file_extraction_cache_key` did not make is not modelled
- BranchStore.BranchStore.FindMerges: git, the base lookup and the landing cache are inputs; verdicts come in the store's row order
- BundleFile.BundleFile.RunSweeps: column types, NOT NULL, CHECK and FOREIGN KEY clauses are not modelled; a column is its name and its default
- BundleFile.BundleFile.BringSchemaCurrent: a fault is one result code for the whole arm, and what the arm did before it is rolled back; the statements a repair without the lock has committed by then stay, which `Openers` models; the rebuild from scratch is one step; `executescript` commits before it, so a crash inside it leaves a partly made file, which the model does not show; the old `symbols` table is not in the model
- OpenerTheorems.BundleUpgradedAtMostOnce: starts from a bundle of the shape its stamp is trusted to have; drift beyond it (a lost core table) fails an arm and rebuilds, as in the code. A rebuild from scratch is one step
- Scratch.CancellationIsSafe: the pass's own coroutine is cancelled, not the worker future itself
- ModuleIds.PackagedId: symbolic links, absolute paths outside the root and letters beyond ASCII in a suffix are not modelled
- ManifestWalk.ListDependencyManifestFiles: a listing is a tree of names; symbolic links, unreadable directories and Windows separators are not modelled; pruning marks the names instead of shortening the list in place
- ParenScan.OctetScanRefinesCharScan: the opening index is a character boundary; the header and docstring patterns around the scan are not modelled
- Excludes.SplitExcludeEntries: reading pyproject.toml is not modelled, only the entries
- `drop_all_branches`, `clear_all` and `remove_package` beyond the branch tables: easy members
- FTS5, WAL, busy timeouts, the vector sidecar's file and the per-branch embedding counts beyond the outcome
- Git subprocesses, ref reading and the parsers: external or uninterpreted; the theorems hold for any module-id rules
- `_connect_or_recreate` on a file that is not SQLite: deletes and recreates, no property to state
- The CLI, the MCP server, retrieval, formatting and benchmarks: presentation
- LRU evictions, selector resolution and read windows: only easy members
