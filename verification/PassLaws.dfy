/** What a pass leaves, spelled table by table and column by column: vectors, the stamped
    record, trees, the files reused and extracted, the cache, and whom it spares. */
module PassLaws {
  import opened Common
  import opened BranchRecords
  import opened BundleTables
  import opened ExtractionCache
  import opened ChunkDiff
  import opened BranchPass
  import opened PassFacts
  import opened StoreInvariant
  import opened RefPass
  import opened TornRows
  import opened PassTheorems
  import opened TreePass

  // ----- vectors

  /** Each new row has its content, and a vector of it exactly when the embed policy gave
      its chunk one; every other row and vector is as it was. */
  ghost predicate InsertsExactly(s: StoreState, t: StoreState, added: seq<Chunk>, ids: seq<int>)
    requires |added| == |ids|
  {
    && (forall i :: 0 <= i < |ids| ==> ids[i] in t.chunks && t.chunks[ids[i]] == ChunkRow(PROJECT_PACKAGE, Some(added[i].hash)))
    && (forall i :: 0 <= i < |ids| && added[i].embedded ==> ids[i] in t.vectors && t.vectors[ids[i]] == added[i].hash)
    && (forall i :: 0 <= i < |ids| && !added[i].embedded ==> (ids[i] in t.vectors <==> ids[i] in s.vectors))
    && (forall id :: id !in ids ==> (id in t.chunks <==> id in s.chunks) && (id in t.vectors <==> id in s.vectors))
    && (forall id :: id !in ids && id in s.chunks ==> t.chunks[id] == s.chunks[id])
    && (forall id :: id !in ids && id in s.vectors ==> t.vectors[id] == s.vectors[id])
  }

  lemma {:induction false} InsertedVector(s: StoreState, added: seq<Chunk>, ids: seq<int>, i: nat)
    requires |added| == |ids| && Distinct(ids) && i < |ids|
    ensures var t := InsertedRows(s, added, ids);
            if added[i].embedded then ids[i] in t.vectors && t.vectors[ids[i]] == added[i].hash
            else ids[i] in t.vectors <==> ids[i] in s.vectors
  {
    var n := |ids| - 1;
    if i < n {
      assert ids[i] != ids[n];
      InsertedVector(s, added[..n], ids[..n], i);
    } else {
      assert ids[n] !in ids[..n];
      InsertedElsewhere(s, added[..n], ids[..n], ids[n]);
    }
  }

  lemma RowsAreInserted(s: StoreState, added: seq<Chunk>, ids: seq<int>)
    requires |added| == |ids| && Distinct(ids)
    ensures InsertsExactly(s, InsertedRows(s, added, ids), added, ids)
  {
    var t := InsertedRows(s, added, ids);
    forall i | 0 <= i < |ids|
      ensures ids[i] in t.chunks && t.chunks[ids[i]] == ChunkRow(PROJECT_PACKAGE, Some(added[i].hash))
      ensures if added[i].embedded then ids[i] in t.vectors && t.vectors[ids[i]] == added[i].hash else ids[i] in t.vectors <==> ids[i] in s.vectors
    {
      InsertedHere(s, added, ids, i);
      InsertedVector(s, added, ids, i);
    }
    forall id | id !in ids
      ensures (id in t.chunks <==> id in s.chunks) && (id in t.vectors <==> id in s.vectors)
      ensures id in s.chunks ==> t.chunks[id] == s.chunks[id]
      ensures id in s.vectors ==> t.vectors[id] == s.vectors[id]
    {
      InsertedElsewhere(s, added, ids, id);
    }
  }

  /** The collection frees exactly the project rows nobody names, vectors with them, and
      keeps exactly the cache rows that name no freed row, are under the pass's key when
      there is one, and are listed under their path by some branch. */
  lemma GarbageExactly(s: StoreState, key: Option<string>)
    ensures var t := CollectGarbage(s, key);
            && (forall id :: id in t.chunks <==>
                  id in s.chunks && (s.chunks[id].package != PROJECT_PACKAGE || exists b :: b in s.membership && id in ChunkIds(s.membership[b])))
            && (forall id :: id in t.chunks ==> t.chunks[id] == s.chunks[id])
            && (forall id :: id in t.vectors <==> id in s.vectors && (id in s.chunks ==> id in t.chunks))
            && (forall id :: id in t.vectors ==> t.vectors[id] == s.vectors[id])
            && (forall k :: k in t.cache ==> k in s.cache && t.cache[k] == s.cache[k])
            && t.branches == s.branches && t.files == s.files && t.membership == s.membership && t.trees == s.trees
  {
    var t := CollectGarbage(s, key);
    forall id ensures id in t.chunks <==>
        id in s.chunks && (s.chunks[id].package != PROJECT_PACKAGE || exists b :: b in s.membership && id in ChunkIds(s.membership[b])) {
      assert Named(s, id) <==> exists b :: b in s.membership && id in ChunkIds(s.membership[b]);
    }
  }

  lemma CacheRowsLeft(s: StoreState, key: Option<string>, k: CacheKey)
    ensures var t := CollectGarbage(s, key);
            k in t.cache <==>
              && k in s.cache && (key.None? || k.key == key.value)
              && (exists b :: b in s.files && BranchFile(k.path, k.blob) in s.files[b])
              && forall span :: span in s.cache[k].spans && span.chunkId in s.chunks ==> span.chunkId in t.chunks
  {
  }

  /** The row is the chunk's, with its vector exactly when the embed policy took it. */
  predicate HoldsChunk(s: StoreState, id: int, c: Chunk) {
    && id in s.chunks && s.chunks[id] == ChunkRow(PROJECT_PACKAGE, Some(c.hash))
    && (c.embedded ==> id in s.vectors && s.vectors[id] == c.hash)
    && (!c.embedded ==> id !in s.vectors)
  }

  /** Either committed pass leaves cache rows of its own extraction key only. */
  lemma PassLeavesOneKey(s: StoreState, input: PassInput, choice: Choice, k: CacheKey)
    requires Fits(choice, PassChunks(input)) && k in PassResult(s, input, choice).cache
    ensures k.key == input.manifest.cacheKey
  {
    CacheRowsLeft(PassBeforeGc(s, input, choice), Some(input.manifest.cacheKey), k);
  }

  lemma TreePassLeavesOneKey(s: StoreState, input: TreeInput, choice: Choice, k: CacheKey)
    requires Fits(choice, input.extraction.AllChunks()) && k in TreePassResult(s, input, choice).cache
    ensures k.key == input.manifest.cacheKey
  {
    CacheRowsLeft(TreePassBeforeGc(s, input, choice), Some(input.manifest.cacheKey), k);
  }

  /** A purge keeps exactly the cache rows, under any key, that another branch lists and that
      name no row it freed. */
  lemma PurgedCacheExactly(s: StoreState, names: set<string>, k: CacheKey)
    ensures var t := PurgedAll(s, names);
            && (k in t.cache <==>
                  && k in s.cache && (exists b :: b in s.files && b !in names && BranchFile(k.path, k.blob) in s.files[b])
                  && forall span :: span in s.cache[k].spans && span.chunkId in s.chunks ==> span.chunkId in t.chunks)
            && (k in t.cache ==> t.cache[k] == s.cache[k])
  {
    var w := WithoutRows(s, names);
    CacheRowsLeft(w, None, k);
    assert forall b :: b in w.files <==> b in s.files && b !in names;
  }

  lemma NewRowIsNamed(t: StoreState, name: string, id: int)
    requires id in ChunkIds(RowsOf(t.membership, name))
    ensures Named(t, id)
  {
    assert name in t.membership;
  }

  /** A ref pass leaves the vector of every embedded chunk it inserted, under the new row's
      id; the branch names the row, so the collection keeps both. */
  lemma RefPassLeavesVectors(ex: Extractor, s: StoreState, r: RefListing, choice: Choice, i: nat)
    requires TablesHold(ex, s) && ManifestWellFormed(r.manifest) && ValidPassChoice(s, RefInput(ex, s, r), choice)
    requires i < |choice.newIds|
    ensures var added := Diff(choice.pool, PassChunks(RefInput(ex, s, r))).addedChunks;
            var after, id := PassResult(s, RefInput(ex, s, r), choice), choice.newIds[i];
            id in ChunkIds(RowsOf(after.membership, r.manifest.name)) && HoldsChunk(after, id, added[i])
  {
    var input := RefInput(ex, s, r);
    var t, id := PassBeforeGc(s, input, choice), choice.newIds[i];
    RowsAreInserted(s, Added(choice, PassChunks(input)), choice.newIds);
    PassRowOrigins(ex, s, r, choice);
    RowsSurvive(s, input, choice);
    assert id in Elems(choice.newIds);
    assert RowsOf(t.membership, r.manifest.name) == PassRows(input, choice);
    NewRowIsNamed(t, r.manifest.name, id);
  }

  /** So does the working-tree pass. */
  lemma TreePassLeavesVectors(ex: Extractor, s: StoreState, input: TreeInput, choice: Choice, i: nat)
    requires TablesHold(ex, s) && ValidTreeChoice(s, input, choice) && i < |choice.newIds|
    ensures var added := Diff(choice.pool, input.extraction.AllChunks()).addedChunks;
            var after, id := TreePassResult(s, input, choice), choice.newIds[i];
            id in ChunkIds(RowsOf(after.membership, input.manifest.name)) && HoldsChunk(after, id, added[i])
  {
    var t, id := TreePassBeforeGc(s, input, choice), choice.newIds[i];
    RowsAreInserted(s, Added(choice, input.extraction.AllChunks()), choice.newIds);
    TreePassInserts(s, input, choice);
    TreePassNames(s, input, choice, i);
    NewRowIsNamed(t, input.manifest.name, id);
  }

  lemma TreePassInserts(s: StoreState, input: TreeInput, choice: Choice)
    requires Fits(choice, input.extraction.AllChunks())
    ensures var t, inserted := TreePassBeforeGc(s, input, choice), InsertedRows(s, Added(choice, input.extraction.AllChunks()), choice.newIds);
            t.chunks == inserted.chunks && t.vectors == inserted.vectors
  {
    AloneKeeps(s, input, choice);
    TreePassTables(s, input, choice);
  }

  lemma TreePassNames(s: StoreState, input: TreeInput, choice: Choice, i: nat)
    requires ValidTreeChoice(s, input, choice) && i < |choice.newIds|
    ensures choice.newIds[i] in ChunkIds(RowsOf(TreePassBeforeGc(s, input, choice).membership, input.manifest.name))
  {
    NewIdsAreAssigned(s, input.extraction.AllChunks(), choice, choice.newIds[i]);
    TreePassIds(s, input, choice);
  }

  lemma NewIdsAreAssigned(s: StoreState, chunks: seq<Chunk>, choice: Choice, id: int)
    requires ValidChoice(s, {}, chunks, choice) && id in choice.newIds
    ensures id in KeptIds(Assigned(choice, chunks))
  {
    AssignedFacts(s, {}, chunks, choice);
  }

  lemma TreePassIds(s: StoreState, input: TreeInput, choice: Choice)
    requires Fits(choice, input.extraction.AllChunks())
    ensures ChunkIds(RowsOf(TreePassBeforeGc(s, input, choice).membership, input.manifest.name))
            == KeptIds(TreeAssignments(input, choice))
  {
    var asg := TreeAssignments(input, choice);
    TreePassTables(s, input, choice);
    assert ChunkIds(MembershipRows(asg)) == KeptIds(asg);
    assert RowsOf(TreePassBeforeGc(s, input, choice).membership, input.manifest.name) == MembershipRows(asg);
  }

  // ----- the slice

  lemma {:induction false} CachedSlices(cache: map<CacheKey, Extraction>, key: string, files: seq<BranchFile>)
    requires forall f :: f in files ==> KeyOf(f, key) in cache
    ensures forall row :: row in CachedRows(ReadAll(cache, key, files)) ==> row.slice == TreeSlice
  {
    if files != [] {
      var earlier := files[..|files| - 1];
      assert forall f :: f in earlier ==> f in files;
      CachedSlices(cache, key, earlier);
      ReadAllSnoc(cache, key, files);
      assert forall row :: row in SpanRows(files[|files| - 1].path, cache[KeyOf(files[|files| - 1], key)].spans) ==> row.slice == TreeSlice;
    }
  }

  /** Every membership row a ref pass leaves its branch is of the tree slice. */
  lemma RefPassSlices(ex: Extractor, s: StoreState, r: RefListing, choice: Choice)
    requires Fits(choice, PassChunks(RefInput(ex, s, r))) && AreNewIds(s, choice.newIds)
    ensures forall row :: row in RowsOf(PassResult(s, RefInput(ex, s, r), choice).membership, r.manifest.name) ==> row.slice == TreeSlice
  {
    KeptAreHits(s.cache, r.manifest.cacheKey, RefModuleIds(ex, s, r), RefHits(s, r));
    HitsAre(s.cache, r.manifest.cacheKey, r.manifest.files);
    CachedSlices(s.cache, r.manifest.cacheKey, RefKept(ex, s, r));
    RowsSurvive(s, RefInput(ex, s, r), choice);
    AssignedSlices(PassAssignments(RefInput(ex, s, r), choice));
  }

  lemma AssignedSlices(assignments: seq<Assignment>)
    ensures forall row :: row in MembershipRows(assignments) ==> row.slice == TreeSlice
  {
  }

  /** So is every row a working-tree pass leaves. */
  lemma TreePassSlices(s: StoreState, input: TreeInput, choice: Choice)
    requires Fits(choice, input.extraction.AllChunks())
    ensures forall row :: row in RowsOf(TreePassResult(s, input, choice).membership, input.manifest.name) ==> row.slice == TreeSlice
  {
    TreePassTables(s, input, choice);
    AssignedSlices(TreeAssignments(input, choice));
  }

  // ----- refusals

  /** A ref pass is refused over the served branch, and over any other landing unit. */
  predicate PassRefusedAs(branches: map<string, BranchRecord>, served: Option<string>, name: string, error: Option<PassError>) {
    && (error == Some(ServedBranch) <==> served == Some(name))
    && (error == Some(LandingUnit) <==> served != Some(name) && name in branches && branches[name].landingKind.Some?)
  }

  lemma PassRefusedExactly(branches: map<string, BranchRecord>, served: Option<string>, name: string)
    ensures PassRefusedAs(branches, served, name, Refusal(branches, served, name))
    ensures Refusal(branches, served, name) != Some(DuplicateChunkId)
  {
  }

  // ----- the stamped record

  /** The record of a pass, column by column. */
  predicate IsStampOf(record: BranchRecord, m: Manifest, now: real, isDefault: bool, pinned: bool) {
    && record.name == m.name && record.headSha == m.headSha && record.source == m.source && record.pipelineHash == m.pipelineHash
    && record.indexedAt == now && record.lastUsedAt == now && record.isDefault == isDefault
    && record.baseName == m.baseName && record.mergeBaseSha == m.mergeBaseSha && record.worktreePath == m.worktreePath
    && record.status == Active && record.mergedInto.None? && record.retiredAt.None? && record.purgeAfter.None? && record.pinned == pinned
    && record.landingKind.None? && record.landedAt.None? && record.mergeEvidence.None? && record.landingSha.None?
  }

  predicate WasPinned(s: StoreState, name: string) { name in s.branches && s.branches[name].pinned }

  /** A ref pass's record and files are its manifest's; it is no default row. */
  lemma RefPassStamps(s: StoreState, input: PassInput, choice: Choice)
    requires Fits(choice, PassChunks(input)) && AreNewIds(s, choice.newIds)
    ensures var after, m := PassResult(s, input, choice), input.manifest;
            && m.name in after.branches && IsStampOf(after.branches[m.name], m, input.now, false, WasPinned(s, m.name))
            && RowsOf(after.files, m.name) == m.files
  {
    InsertedFrame(s, Added(choice, PassChunks(input)), choice.newIds);
  }

  /** A working-tree pass's are too; it is a default row. */
  lemma TreePassStamps(s: StoreState, input: TreeInput, choice: Choice)
    requires Fits(choice, input.extraction.AllChunks()) && AreNewIds(s, choice.newIds)
    requires forall n :: n in s.branches ==> s.branches[n].name == n
    ensures var after, m := TreePassResult(s, input, choice), input.manifest;
            && m.name in after.branches && IsStampOf(after.branches[m.name], m, input.now, true, WasPinned(s, m.name))
            && RowsOf(after.files, m.name) == m.files
  {
    AloneTables(s, input, choice);
    StampIs(TreePassAlone(s, input, choice), input.manifest, MembershipRows(TreeAssignments(input, choice)), input.now);
    TreePassTables(s, input, choice);
  }

  lemma StampIs(s: StoreState, m: Manifest, rows: seq<Membership>, now: real)
    ensures var t := Stamped(s, m, rows, now, true).branches;
            m.name in t && IsStampOf(t[m.name], m, now, true, WasPinned(s, m.name))
  {
  }

  // ----- other checkouts

  /** A working-tree pass deletes exactly the rows another name left on its worktree; a branch
      on another worktree or on none, and a landing unit, keep everything. */
  lemma TreePassRetiresExactly(s: StoreState, input: TreeInput, choice: Choice, b: string)
    requires Fits(choice, input.extraction.AllChunks()) && AreNewIds(s, choice.newIds)
    requires (forall n :: n in s.branches ==> s.branches[n].name == n) && b in s.branches && b != input.manifest.name && b != ""
    ensures var after, other := TreePassResult(s, input, choice), s.branches[b];
            if other.landingKind.None? && other.worktreePath.Some? && other.worktreePath == input.manifest.worktreePath
            then b !in after.branches && b !in after.files && b !in after.trees && b !in after.membership
            else b in after.branches && after.branches[b] == other && SameBranchView(s, after, b)
  {
    if b in RetiredBy(s, input.manifest) {
      TreePassRetires(s, input, choice, b);
    } else {
      TreePassIsolates(s, input, choice, b);
    }
  }

  // ----- trees

  function Values<T>(xs: seq<Option<T>>): seq<T> {
    if xs == [] then [] else (if xs[0].Some? then [xs[0].value] else []) + Values(xs[1..])
  }

  /** The tree cached under a file's key. */
  function CachedTree(s: StoreState, key: string, f: BranchFile): Option<TreeRow> {
    var k := CacheKey(f.blob, f.path, key);
    if k in s.cache then s.cache[k].tree else None
  }

  function CachedTreesOf(s: StoreState, key: string, files: seq<BranchFile>): seq<Option<TreeRow>> {
    seq(|files|, i requires 0 <= i < |files| => CachedTree(s, key, files[i]))
  }

  function FreshTreesOf(ex: Extractor, m: Manifest, files: seq<BranchFile>): seq<Option<TreeRow>> {
    seq(|files|, i requires 0 <= i < |files| => ex.tree(files[i].blob, files[i].path, ModuleOf(ex, m.files, files[i].path), m.cacheKey))
  }

  /** The tree of each extracted file that has one. */
  function TreesOf(files: seq<ExtractedFile>): seq<Option<TreeRow>> {
    seq(|files|, i requires 0 <= i < |files| => files[i].tree)
  }

  lemma {:induction false} CachedTreesAreValues(cached: seq<CachedFile>)
    ensures CachedTrees(cached) == Values(seq(|cached|, i requires 0 <= i < |cached| => cached[i].tree))
  {
    if cached != [] {
      CachedTreesAreValues(cached[1..]);
      var trees := seq(|cached|, i requires 0 <= i < |cached| => cached[i].tree);
      assert trees[1..] == seq(|cached[1..]|, i requires 0 <= i < |cached[1..]| => cached[1..][i].tree);
    }
  }

  /** Reading files back keeps their order. */
  lemma {:induction false} ReadInOrder(cache: map<CacheKey, Extraction>, key: string, files: seq<BranchFile>)
    requires forall f :: f in files ==> KeyOf(f, key) in cache
    ensures |ReadAll(cache, key, files)| == |files|
    ensures forall i :: 0 <= i < |files| ==> ReadAll(cache, key, files)[i] == ReadCached(cache, key, files[i])
  {
    if files != [] {
      assert forall f :: f in files[..|files| - 1] ==> f in files;
      ReadInOrder(cache, key, files[..|files| - 1]);
    }
  }

  lemma ReadTrees(s: StoreState, key: string, files: seq<BranchFile>)
    requires forall f :: f in files ==> KeyOf(f, key) in s.cache
    ensures CachedTrees(ReadAll(s.cache, key, files)) == Values(CachedTreesOf(s, key, files))
  {
    var read := ReadAll(s.cache, key, files);
    ReadInOrder(s.cache, key, files);
    CachedTreesAreValues(read);
    assert seq(|read|, i requires 0 <= i < |read| => read[i].tree) == CachedTreesOf(s, key, files);
  }

  lemma {:induction false} ExtractedTrees(ex: Extractor, m: Manifest, files: seq<BranchFile>)
    ensures TreesIn(ExtractAll(ex, m.cacheKey, m.files, files)) == Values(FreshTreesOf(ex, m, files))
  {
    if files != [] {
      ExtractedTrees(ex, m, files[1..]);
      assert FreshTreesOf(ex, m, files)[1..] == FreshTreesOf(ex, m, files[1..]);
      assert ExtractAll(ex, m.cacheKey, m.files, files)[1..] == ExtractAll(ex, m.cacheKey, m.files, files[1..]);
    }
  }

  /** After a committed ref pass the branch's trees are one for each reused file that has a
      cached one and one for each extracted file that has one. */
  lemma RefPassTrees(ex: Extractor, s: StoreState, r: RefListing, choice: Choice)
    requires Fits(choice, PassChunks(RefInput(ex, s, r))) && AreNewIds(s, choice.newIds)
    ensures RowsOf(PassResult(s, RefInput(ex, s, r), choice).trees, r.manifest.name)
            == Values(CachedTreesOf(s, r.manifest.cacheKey, RefKept(ex, s, r))) + Values(FreshTreesOf(ex, r.manifest, RefToExtract(ex, s, r)))
  {
    var input := RefInput(ex, s, r);
    KeptAreHits(s.cache, r.manifest.cacheKey, RefModuleIds(ex, s, r), RefHits(s, r));
    HitsAre(s.cache, r.manifest.cacheKey, r.manifest.files);
    ReadTrees(s, r.manifest.cacheKey, RefKept(ex, s, r));
    ExtractedTrees(ex, r.manifest, RefToExtract(ex, s, r));
    PassTables(s, input, choice);
  }

  /** A working-tree pass with trees replaces the branch's and drops the unbranched copy;
      one without leaves the branch's as they were. */
  lemma TreePassTrees(s: StoreState, input: TreeInput, choice: Choice)
    requires Fits(choice, input.extraction.AllChunks()) && AreNewIds(s, choice.newIds)
    requires forall n :: n in s.branches ==> s.branches[n].name == n
    ensures var after, name := TreePassResult(s, input, choice).trees, input.manifest.name;
            var found := Values(TreesOf(input.extraction.files));
            if found == [] then RowsOf(after, name) == RowsOf(s.trees, name)
            else RowsOf(after, name) == found && (name != "" ==> "" !in after)
  {
    TreesAreValues(input.extraction.files);
    TreesAfter(s, input, choice);
    TreeTier(s, input.manifest.name, TreesIn(input.extraction.files), RetiredBy(s, input.manifest));
  }

  lemma TreesAfter(s: StoreState, input: TreeInput, choice: Choice)
    requires Fits(choice, input.extraction.AllChunks()) && AreNewIds(s, choice.newIds)
    ensures TreePassResult(s, input, choice).trees
            == WithTrees(s, input.manifest.name, TreesIn(input.extraction.files)).trees - RetiredBy(s, input.manifest)
  {
    AloneTables(s, input, choice);
    TreePassTables(s, input, choice);
  }

  lemma TreeTier(s: StoreState, name: string, roots: seq<TreeRow>, gone: set<string>)
    requires name !in gone
    ensures var after := WithTrees(s, name, roots).trees - gone;
            if roots == [] then RowsOf(after, name) == RowsOf(s.trees, name)
            else RowsOf(after, name) == roots && (name != "" ==> "" !in after)
  {
  }

  lemma {:induction false} TreesAreValues(files: seq<ExtractedFile>)
    ensures TreesIn(files) == Values(TreesOf(files))
  {
    if files != [] {
      TreesAreValues(files[1..]);
      assert TreesOf(files)[1..] == TreesOf(files[1..]);
    }
  }

  // ----- which files are reused and which extracted

  /** A full row under the pass's key: the pass may reuse it. */
  predicate HasFullRow(s: StoreState, key: string, f: BranchFile) {
    f.blob != "" && CacheKey(f.blob, f.path, key) in s.cache && s.cache[CacheKey(f.blob, f.path, key)].tree.Some?
  }

  /** A Python file takes part in the module-id comparison when it is a marker, has a full
      row, or is not empty. */
  predicate TakesPart(s: StoreState, r: RefListing, f: BranchFile) {
    && f in r.manifest.files && IsPython(f.path)
    && (IsPackageMarker(f.path) || HasFullRow(s, r.manifest.cacheKey, f) || SizeOf(r.sizes, f.path) > 0)
  }

  /** Exactly these files are reused: a full row, and for a Python file its tree rooted at
      the id this layout gives it, which no other Python file of the pass shares. */
  ghost predicate IsReused(ex: Extractor, s: StoreState, r: RefListing, f: BranchFile) {
    && f in r.manifest.files && HasFullRow(s, r.manifest.cacheKey, f)
    && (IsPython(f.path) ==>
          && s.cache[CacheKey(f.blob, f.path, r.manifest.cacheKey)].tree.value.qualifiedName == ModuleOf(ex, r.manifest.files, f.path)
          && forall g :: TakesPart(s, r, g) && g.path != f.path ==> ModuleOf(ex, r.manifest.files, g.path) != ModuleOf(ex, r.manifest.files, f.path))
  }

  lemma IdsOfTheLayout(ex: Extractor, s: StoreState, r: RefListing)
    ensures var ids := RefModuleIds(ex, s, r);
            && (forall f :: TakesPart(s, r, f) ==> f.path in ids && ids[f.path] == ModuleOf(ex, r.manifest.files, f.path))
            && (forall p :: p in ids ==> exists f :: TakesPart(s, r, f) && f.path == p)
  {
    HitsAre(s.cache, r.manifest.cacheKey, r.manifest.files);
    NonEmptyAre(r.sizes, Misses(s.cache, r.manifest.cacheKey, r.manifest.files));
    MarkerFilesAre(r.manifest.files);
    var considered := MarkerFiles(r.manifest.files) + RefHits(s, r) + RefMisses(s, r);
    var ids := RefModuleIds(ex, s, r);
    forall f | TakesPart(s, r, f) ensures f.path in ids && ids[f.path] == ModuleOf(ex, r.manifest.files, f.path) {
      assert f in considered;
    }
    forall p | p in ids ensures exists f :: TakesPart(s, r, f) && f.path == p {
      var f :| f in considered && IsPython(f.path) && f.path == p;
      assert TakesPart(s, r, f);
    }
  }

  lemma SharedIsTakingPart(ex: Extractor, s: StoreState, r: RefListing, f: BranchFile)
    requires TakesPart(s, r, f)
    ensures Shared(RefModuleIds(ex, s, r), ModuleOf(ex, r.manifest.files, f.path))
            <==> exists g :: TakesPart(s, r, g) && g.path != f.path && ModuleOf(ex, r.manifest.files, g.path) == ModuleOf(ex, r.manifest.files, f.path)
  {
    var ids, m := RefModuleIds(ex, s, r), ModuleOf(ex, r.manifest.files, f.path);
    IdsOfTheLayout(ex, s, r);
    if Shared(ids, m) {
      var p, q :| p in ids && q in ids && p != q && ids[p] == m && ids[q] == m;
      var other := if p == f.path then q else p;
      var g :| TakesPart(s, r, g) && g.path == other;
      assert ModuleOf(ex, r.manifest.files, g.path) == m;
    }
    if g :| TakesPart(s, r, g) && g.path != f.path && ModuleOf(ex, r.manifest.files, g.path) == m {
      assert ids[f.path] == m && ids[g.path] == m;
    }
  }

  /** The pass reuses exactly those files, and extracts exactly the others but the empty
      ones that have no full row. */
  lemma ReusedExactly(ex: Extractor, s: StoreState, r: RefListing, f: BranchFile)
    ensures f in RefKept(ex, s, r) <==> IsReused(ex, s, r, f)
    ensures f in RefToExtract(ex, s, r) <==>
              f in r.manifest.files && !IsReused(ex, s, r, f) && (HasFullRow(s, r.manifest.cacheKey, f) || SizeOf(r.sizes, f.path) > 0)
  {
    var ids := RefModuleIds(ex, s, r);
    HitsAre(s.cache, r.manifest.cacheKey, r.manifest.files);
    NonEmptyAre(r.sizes, Misses(s.cache, r.manifest.cacheKey, r.manifest.files));
    KeptAreHits(s.cache, r.manifest.cacheKey, ids, RefHits(s, r));
    IdsOfTheLayout(ex, s, r);
    if f in r.manifest.files && HasFullRow(s, r.manifest.cacheKey, f) {
      if IsPython(f.path) {
        assert TakesPart(s, r, f);
        SharedIsTakingPart(ex, s, r, f);
      } else {
        NotCompared(ex, s, r, f);
      }
    }
  }

  lemma NotCompared(ex: Extractor, s: StoreState, r: RefListing, f: BranchFile)
    requires !IsPython(f.path)
    ensures f.path !in RefModuleIds(ex, s, r)
  {
    IdsOfTheLayout(ex, s, r);
    assert forall g :: TakesPart(s, r, g) ==> IsPython(g.path);
  }

  /** The counts a pass reports of its files. */
  lemma FileCounts(ex: Extractor, s: StoreState, r: RefListing, choice: Choice)
    requires Fits(choice, PassChunks(RefInput(ex, s, r)))
    ensures var counts := OutcomeOf(s, RefInput(ex, s, r), choice);
            && counts.filesTotal == |r.manifest.files| && counts.filesReused == |RefKept(ex, s, r)|
            && counts.filesExtracted == |RefToExtract(ex, s, r)|
  {
    KeptAreHits(s.cache, r.manifest.cacheKey, RefModuleIds(ex, s, r), RefHits(s, r));
    HitsAre(s.cache, r.manifest.cacheKey, r.manifest.files);
    ReadInOrder(s.cache, r.manifest.cacheKey, RefKept(ex, s, r));
    ExtractSize(ex, r.manifest.cacheKey, r.manifest.files, RefToExtract(ex, s, r));
  }

  lemma {:induction false} ExtractSize(ex: Extractor, key: string, layout: seq<BranchFile>, files: seq<BranchFile>)
    ensures |ExtractAll(ex, key, layout, files)| == |files|
  {
    if files != [] {
      ExtractSize(ex, key, layout, files[1..]);
    }
  }
}
