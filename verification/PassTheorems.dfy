/** Claims about a whole pass: who may clash, isolation and conservation. */
module PassTheorems {
  import opened Common
  import opened BranchRecords
  import opened BundleTables
  import opened ExtractionCache
  import opened ChunkDiff
  import opened BranchPass
  import opened PassFacts
  import opened StoreInvariant
  import opened RefPass
  import opened TornRows

  /** Two untorn hits that claim one id are given one module id by the branch, and
      not both are Python files: the shared-id demotion separates those. */
  lemma ClashMeansSharedDocModule(ex: Extractor, s: StoreState, r: RefListing, f: BranchFile, g: BranchFile, id: int)
    requires ex.WellFormed() && ManifestWellFormed(r.manifest) && TablesHold(ex, s)
    requires f in RefKept(ex, s, r) && g in RefKept(ex, s, r) && f != g
    requires KeyOf(f, r.manifest.cacheKey) in s.cache && KeyOf(g, r.manifest.cacheKey) in s.cache
    requires !Torn(s.chunks, s.cache[KeyOf(f, r.manifest.cacheKey)]) && !Torn(s.chunks, s.cache[KeyOf(g, r.manifest.cacheKey)])
    requires id in SpanIds(s.cache[KeyOf(f, r.manifest.cacheKey)].spans) && id in SpanIds(s.cache[KeyOf(g, r.manifest.cacheKey)].spans)
    ensures ModuleOf(ex, r.manifest.files, f.path) == ModuleOf(ex, r.manifest.files, g.path)
    ensures !(IsPython(f.path) && IsPython(g.path))
  {
    KeptIdModule(ex, s, r, f, id);
    KeptIdModule(ex, s, r, g, id);
    if IsPython(f.path) && IsPython(g.path) {
      KeptPythonModules(ex, s, r, f, g);
    }
  }

  /** Two Python hits a pass keeps have different module ids. */
  lemma KeptPythonModules(ex: Extractor, s: StoreState, r: RefListing, f: BranchFile, g: BranchFile)
    requires ManifestWellFormed(r.manifest) && f in RefKept(ex, s, r) && g in RefKept(ex, s, r) && f != g
    requires IsPython(f.path) && IsPython(g.path)
    ensures ModuleOf(ex, r.manifest.files, f.path) != ModuleOf(ex, r.manifest.files, g.path)
  {
    var ids := RefModuleIds(ex, s, r);
    RefFiles(ex, s, r);
    KeptAreHits(s.cache, r.manifest.cacheKey, ids, RefHits(s, r));
    var considered := MarkerFiles(r.manifest.files) + RefHits(s, r) + RefMisses(s, r);
    assert f in considered && g in considered;
    assert f.path in ids && g.path in ids;
    if f.path == g.path {
      SameFile(r.manifest.files, f, g);
    }
    assert HitHolds(s.cache, r.manifest.cacheKey, ids, f) && !Shared(ids, ids[f.path]);
  }

  lemma KeptIdModule(ex: Extractor, s: StoreState, r: RefListing, f: BranchFile, id: int)
    requires ex.WellFormed() && ManifestWellFormed(r.manifest) && TablesHold(ex, s) && f in RefKept(ex, s, r)
    requires KeyOf(f, r.manifest.cacheKey) in s.cache && !Torn(s.chunks, s.cache[KeyOf(f, r.manifest.cacheKey)])
    requires id in SpanIds(s.cache[KeyOf(f, r.manifest.cacheKey)].spans)
    ensures HashAt(s.chunks, id).Some? && HashAt(s.chunks, id).value.module_ == ModuleOf(ex, r.manifest.files, f.path)
  {
    KeptModule(ex, s, r, f);
    var k := KeyOf(f, r.manifest.cacheKey);
    var row := s.cache[k];
    assert RowFaithful(ex, s.chunks, k, row);
    var m :| Produced(ex, s.chunks, k, row, m);
    RowModule(ex, s.chunks, k, row, m);
    var i :| 0 <= i < |row.spans| && SpanIds(row.spans)[i] == id;
    assert row.spans[i] in row.spans;
  }

  /** Without torn hits, a ref whose files all get module ids of their own is always
      indexable: the pass cannot repeat a chunk id. */
  lemma OwnModulesNeverClash(ex: Extractor, s: StoreState, r: RefListing)
    requires ex.WellFormed() && ManifestWellFormed(r.manifest) && TablesHold(ex, s) && !KeepsTornHit(ex, s, r)
    requires forall f, g :: f in RefKept(ex, s, r) && g in RefKept(ex, s, r) && f != g ==>
               ModuleOf(ex, r.manifest.files, f.path) != ModuleOf(ex, r.manifest.files, g.path)
    ensures !HitsClash(s.cache, r.manifest.cacheKey, RefKept(ex, s, r))
  {
    var key, kept := r.manifest.cacheKey, RefKept(ex, s, r);
    if HitsClash(s.cache, key, kept) {
      var f, g, id :| f in kept && g in kept && f != g && KeyOf(f, key) in s.cache && KeyOf(g, key) in s.cache
                      && id in SpanIds(s.cache[KeyOf(f, key)].spans) && id in SpanIds(s.cache[KeyOf(g, key)].spans);
      ClashMeansSharedDocModule(ex, s, r, f, g, id);
      assert false;
    }
  }

  // ----- isolation

  lemma ViewsCompose(s: StoreState, t: StoreState, u: StoreState, b: string)
    requires SameBranchView(s, t, b) && SameBranchView(t, u, b)
    ensures SameBranchView(s, u, b)
  {
  }

  lemma PassTables(s: StoreState, input: PassInput, choice: Choice)
    requires Fits(choice, PassChunks(input)) && AreNewIds(s, choice.newIds)
    ensures var t, m := PassBeforeGc(s, input, choice), input.manifest;
            && Extends(s.chunks, t.chunks)
            && t.files == Replaced(s.files, m.name, m.files)
            && t.membership == Replaced(s.membership, m.name, PassRows(input, choice))
            && t.trees == Replaced(s.trees, m.name, CachedTrees(input.cached) + TreesIn(Extracted(input)))
            && t.branches.Keys == s.branches.Keys + {m.name}
            && (forall b :: b in s.branches && b != m.name ==> t.branches[b] == s.branches[b])
  {
    InsertedRowsAre(s, Added(choice, PassChunks(input)), choice.newIds);
  }

  /** A git-objects pass leaves every other branch's record, files, tree rows and
      membership as they were, each id still resolving to the same row. */
  lemma RefPassIsolates(s: StoreState, input: PassInput, choice: Choice, b: string)
    requires Fits(choice, PassChunks(input)) && AreNewIds(s, choice.newIds) && b != input.manifest.name
    ensures SameBranchView(s, PassResult(s, input, choice), b)
    ensures var after := PassResult(s, input, choice).branches;
            (b in after <==> b in s.branches) && (b in after ==> after[b] == s.branches[b])
  {
    PassTables(s, input, choice);
    var t := PassBeforeGc(s, input, choice);
    CollectingKeepsViews(t, Some(input.manifest.cacheKey), b);
    ViewsCompose(s, t, PassResult(s, input, choice), b);
  }

  /** The working-tree pass up to its stamp: new rows, its trees, the retired gone. */
  function TreePassAlone(s: StoreState, input: TreeInput, choice: Choice): StoreState
    requires Fits(choice, input.extraction.AllChunks())
  {
    WithoutBranches(
      WithTrees(InsertedRows(s, Added(choice, input.extraction.AllChunks()), choice.newIds),
                input.manifest.name, TreesIn(input.extraction.files)),
      RetiredBy(s, input.manifest))
  }

  lemma AloneTables(s: StoreState, input: TreeInput, choice: Choice)
    requires Fits(choice, input.extraction.AllChunks()) && AreNewIds(s, choice.newIds)
    ensures var t, gone := TreePassAlone(s, input, choice), RetiredBy(s, input.manifest);
            && Extends(s.chunks, t.chunks)
            && t.files == s.files - gone && t.membership == s.membership - gone && t.branches == s.branches - gone
            && t.trees == WithTrees(s, input.manifest.name, TreesIn(input.extraction.files)).trees - gone
  {
    InsertedFrame(s, Added(choice, input.extraction.AllChunks()), choice.newIds);
    AloneFrom(s, InsertedRows(s, Added(choice, input.extraction.AllChunks()), choice.newIds), input.manifest.name,
              TreesIn(input.extraction.files), RetiredBy(s, input.manifest));
  }

  lemma AloneFrom(s: StoreState, t: StoreState, name: string, trees: seq<TreeRow>, gone: set<string>)
    requires t == s.(chunks := t.chunks, vectors := t.vectors)
    ensures var u := WithoutBranches(WithTrees(t, name, trees), gone);
            && u.chunks == t.chunks && u.files == s.files - gone && u.membership == s.membership - gone
            && u.branches == s.branches - gone && u.trees == WithTrees(s, name, trees).trees - gone
  {
  }

  lemma InsertedFrame(s: StoreState, added: seq<Chunk>, ids: seq<int>)
    requires |added| == |ids| && AreNewIds(s, ids)
    ensures var t := InsertedRows(s, added, ids);
            Extends(s.chunks, t.chunks) && t == s.(chunks := t.chunks, vectors := t.vectors)
  {
    InsertedRowsAre(s, added, ids);
  }

  lemma TreePassTables(s: StoreState, input: TreeInput, choice: Choice)
    requires Fits(choice, input.extraction.AllChunks())
    ensures var t, m, alone := TreePassBeforeGc(s, input, choice), input.manifest, TreePassAlone(s, input, choice);
            && t.chunks == alone.chunks && t.trees == alone.trees && t.vectors == alone.vectors
            && t.files == Replaced(alone.files, m.name, m.files)
            && t.membership == Replaced(alone.membership, m.name, MembershipRows(TreeAssignments(input, choice)))
            && (exists pinned :: t.branches == alone.branches[m.name := StampedRecord(m, input.now, pinned, true)])
            && t.cache == CacheWith(s.cache, m.files, m.cacheKey, TreeAssignments(input, choice), input.extraction.files)
  {
  }

  /** The working-tree pass does too, but for the branches it retires: the previous
      checkouts of its own worktree, and the unbranched copy of the tree rows. */
  lemma TreePassIsolates(s: StoreState, input: TreeInput, choice: Choice, b: string)
    requires Fits(choice, input.extraction.AllChunks()) && AreNewIds(s, choice.newIds)
    requires b != input.manifest.name && b != "" && b !in RetiredBy(s, input.manifest)
    ensures SameBranchView(s, TreePassResult(s, input, choice), b)
    ensures var after := TreePassResult(s, input, choice).branches;
            (b in after <==> b in s.branches) && (b in after ==> after[b] == s.branches[b])
  {
    AloneTables(s, input, choice);
    TreePassTables(s, input, choice);
    var t := TreePassBeforeGc(s, input, choice);
    CollectingKeepsViews(t, Some(input.manifest.cacheKey), b);
    ViewsCompose(s, t, TreePassResult(s, input, choice), b);
  }

  /** A retired checkout keeps nothing: no record, no files, no trees, no membership. */
  lemma TreePassRetires(s: StoreState, input: TreeInput, choice: Choice, b: string)
    requires Fits(choice, input.extraction.AllChunks()) && b in RetiredBy(s, input.manifest)
    requires AreNewIds(s, choice.newIds)
    requires b in s.branches ==> s.branches[b].name == b
    ensures var after := TreePassResult(s, input, choice);
            b !in after.branches && b !in after.files && b !in after.trees && b !in after.membership
  {
    AloneTables(s, input, choice);
    TreePassTables(s, input, choice);
  }

  // ----- conservation

  function ProjectIds(s: StoreState): set<int> {
    set id | id in s.chunks && IsProjectChunk(s, id)
  }

  lemma CollectedProjectIds(s: StoreState, key: Option<string>)
    ensures ProjectIds(CollectGarbage(s, key)) == ProjectIds(s) - Unnamed(s) && Unnamed(s) <= ProjectIds(s)
  {
  }

  lemma InsertedProjectIds(s: StoreState, added: seq<Chunk>, ids: seq<int>)
    requires |added| == |ids| && AreNewIds(s, ids)
    ensures ProjectIds(InsertedRows(s, added, ids)) == ProjectIds(s) + Elems(ids) && ProjectIds(s) !! Elems(ids)
  {
    InsertedRowsAre(s, added, ids);
    var t := InsertedRows(s, added, ids);
    forall id ensures id in ProjectIds(t) <==> id in ProjectIds(s) + Elems(ids) {
      if id in Elems(ids) {
        var i :| 0 <= i < |ids| && ids[i] == id;
      }
    }
  }

  lemma PassProjectIds(s: StoreState, input: PassInput, choice: Choice)
    requires Fits(choice, PassChunks(input)) && AreNewIds(s, choice.newIds)
    ensures |ProjectIds(PassResult(s, input, choice))|
            == |ProjectIds(s)| + |choice.newIds| - |Unnamed(PassBeforeGc(s, input, choice))|
  {
    var added, t := Added(choice, PassChunks(input)), PassBeforeGc(s, input, choice);
    InsertedProjectIds(s, added, choice.newIds);
    assert ProjectIds(t) == ProjectIds(InsertedRows(s, added, choice.newIds));
    CollectedProjectIds(t, Some(input.manifest.cacheKey));
    DistinctSize(choice.newIds);
  }

  lemma CountSplit(ids: seq<int>, live: set<int>, newIds: seq<int>)
    requires Distinct(ids) && Distinct(newIds) && Elems(newIds) <= Elems(ids) && Elems(newIds) !! live
    requires Elems(ids) <= live + Elems(newIds)
    ensures |ids| - |newIds| == |Elems(ids) * live|
  {
    DistinctSize(ids);
    DistinctSize(newIds);
    assert Elems(ids) == Elems(ids) * live + Elems(newIds);
  }

  /** Conservation: project chunks after a pass are those before plus the inserted
      minus the freed, as the pass counts them. */
  lemma ChunksConserved(s: StoreState, input: PassInput, choice: Choice)
    requires Fits(choice, PassChunks(input)) && AreNewIds(s, choice.newIds)
    ensures |ProjectIds(PassResult(s, input, choice))|
            == |ProjectIds(s)| + OutcomeOf(s, input, choice).chunksEmbedded - OutcomeOf(s, input, choice).vectorsRemoved
  {
    PassProjectIds(s, input, choice);
  }

  /** The counts add up: every membership row is either embedded by this pass or
      names a row that existed, and never both. */
  lemma CountsAddUp(ex: Extractor, s: StoreState, r: RefListing, choice: Choice)
    requires TablesHold(ex, s) && ManifestWellFormed(r.manifest) && ValidPassChoice(s, RefInput(ex, s, r), choice)
    requires !HitsClash(s.cache, r.manifest.cacheKey, RefKept(ex, s, r))
    ensures var input := RefInput(ex, s, r);
            var rows, counts := PassRows(input, choice), OutcomeOf(s, input, choice);
            && RowsOf(PassResult(s, input, choice).membership, r.manifest.name) == rows
            && counts.chunksEmbedded + counts.chunksShared == |rows|
            && counts.chunksShared == |Elems(ChunkIds(rows)) * s.chunks.Keys|
  {
    RowsSurvive(s, RefInput(ex, s, r), choice);
    RowsCounted(ex, s, r, choice);
  }

  lemma RowsCounted(ex: Extractor, s: StoreState, r: RefListing, choice: Choice)
    requires TablesHold(ex, s) && ManifestWellFormed(r.manifest) && ValidPassChoice(s, RefInput(ex, s, r), choice)
    requires !HitsClash(s.cache, r.manifest.cacheKey, RefKept(ex, s, r))
    ensures var ids := ChunkIds(PassRows(RefInput(ex, s, r), choice));
            |ids| - |choice.newIds| == |Elems(ids) * s.chunks.Keys|
  {
    PassKeys(ex, s, r, choice);
    PassRowOrigins(ex, s, r, choice);
    CountSplit(ChunkIds(PassRows(RefInput(ex, s, r), choice)), s.chunks.Keys, choice.newIds);
  }

  /** Each row of a pass names a row that existed or one it inserted; each inserted
      row is named. */
  lemma PassRowOrigins(ex: Extractor, s: StoreState, r: RefListing, choice: Choice)
    requires TablesHold(ex, s) && ManifestWellFormed(r.manifest) && ValidPassChoice(s, RefInput(ex, s, r), choice)
    ensures var ids := ChunkIds(PassRows(RefInput(ex, s, r), choice));
            && Distinct(choice.newIds) && Elems(choice.newIds) !! s.chunks.Keys
            && Elems(choice.newIds) <= Elems(ids) <= s.chunks.Keys + Elems(choice.newIds)
  {
    var input := RefInput(ex, s, r);
    var ids, asg := ChunkIds(PassRows(input, choice)), PassAssignments(input, choice);
    PassAssigned(ex, s, r, choice);
    PassRowIds(input, choice);
    PassRowsLive(ex, s, r, choice);
    InsertedKeys(s, Added(choice, PassChunks(input)), choice.newIds);
    forall id | id in Elems(choice.newIds) ensures id in ids {
      assert id in KeptIds(asg);
    }
  }

  lemma InsertedKeys(s: StoreState, added: seq<Chunk>, ids: seq<int>)
    requires |added| == |ids| && AreNewIds(s, ids)
    ensures InsertedRows(s, added, ids).chunks.Keys == s.chunks.Keys + Elems(ids)
  {
    InsertedRowsAre(s, added, ids);
  }
}
