/** What one pass does to the tables: a git-objects pass (application/branch_pass.py,
    branch_indexer.py) and the working-tree pass's branch step
    (application/indexing_service.py, branch_membership.py). Both are functions of
    the tables, the pass's input and the two choices SQLite makes: the order rows
    are listed in and the ids new rows get. */
module BranchPass {
  import opened Common
  import opened BranchRecords
  import opened BundleTables
  import opened ExtractionCache
  import opened ChunkDiff

  datatype PassInput = PassInput(manifest: Manifest, cached: seq<CachedFile>, extraction: Option<BranchExtraction>, now: real)

  datatype Choice = Choice(pool: seq<Pair>, newIds: seq<int>)

  datatype PassError = ServedBranch | LandingUnit | DuplicateChunkId

  datatype PassOutcome = PassOutcome(
    filesTotal: nat, filesReused: nat, filesExtracted: nat,
    chunksEmbedded: nat, chunksShared: int, vectorsRemoved: nat)

  // ----- the served branch

  /** The row DEFAULT_BRANCH_NAME_SQL returns: default, newest stamp. A tie is SQLite's choice. */
  predicate IsServed(branches: map<string, BranchRecord>, name: string) {
    && name in branches && branches[name].isDefault
    && forall other :: other in branches && branches[other].isDefault ==> branches[other].indexedAt <= branches[name].indexedAt
  }

  predicate ServedName(branches: map<string, BranchRecord>, served: Option<string>) {
    match served
    case Some(name) => IsServed(branches, name)
    case None => forall name :: name in branches ==> !branches[name].isDefault
  }

  /** Why a git-objects pass over `name` is refused before it writes anything. */
  function Refusal(branches: map<string, BranchRecord>, served: Option<string>, name: string): Option<PassError> {
    if served == Some(name) then Some(ServedBranch)
    else if name in branches && branches[name].IsLandingUnit() then Some(LandingUnit)
    else None
  }

  // ----- chunk rows

  function CachedRows(cached: seq<CachedFile>): seq<Membership> {
    if cached == [] then [] else CachedRows(cached[..|cached| - 1]) + cached[|cached| - 1].rows
  }

  function MembershipRows(assignments: seq<Assignment>): (rows: seq<Membership>)
    ensures |rows| == |assignments|
    ensures forall i :: 0 <= i < |rows| ==> rows[i] == Membership(assignments[i].1, assignments[i].0.path, assignments[i].0.start, assignments[i].0.end, TreeSlice)
  {
    seq(|assignments|, i requires 0 <= i < |assignments| =>
      Membership(assignments[i].1, assignments[i].0.path, assignments[i].0.start, assignments[i].0.end, TreeSlice))
  }

  /** The id and hash of every project chunk row but the claimed ones, in some order. */
  ghost predicate IsPool(s: StoreState, claimed: set<int>, pool: seq<Pair>) {
    Distinct(Ids(pool))
    && forall p :: p in pool <==> IsProjectChunk(s, p.0) && p.0 !in claimed && p.1 == s.chunks[p.0].hash
  }

  /** The chunks no row of the pool serves; each needs a new row. */
  function Added(choice: Choice, chunks: seq<Chunk>): seq<Chunk> { Diff(choice.pool, chunks).addedChunks }

  /** One new id per added chunk. */
  predicate Fits(choice: Choice, chunks: seq<Chunk>) { |choice.newIds| == |Added(choice, chunks)| }

  /** Each chunk gets an existing row of its hash, else a new one. */
  function Assigned(choice: Choice, chunks: seq<Chunk>): seq<Assignment>
    requires Fits(choice, chunks)
  {
    Diff(choice.pool, chunks).kept + Zip(Added(choice, chunks), choice.newIds)
  }

  /** Any ids will do that no row has: SQLite reuses the rowids a delete freed. */
  predicate AreNewIds(s: StoreState, ids: seq<int>) {
    Distinct(ids) && forall id :: id in ids ==> id !in s.chunks
  }

  ghost predicate ValidChoice(s: StoreState, claimed: set<int>, chunks: seq<Chunk>, choice: Choice) {
    && IsPool(s, claimed, choice.pool)
    && AreNewIds(s, choice.newIds)
    && Fits(choice, chunks)
  }

  function InsertedRow(s: StoreState, c: Chunk, id: int): StoreState {
    s.(chunks := s.chunks[id := ChunkRow(PROJECT_PACKAGE, Some(c.hash))],
       vectors := if c.embedded then s.vectors[id := c.hash] else s.vectors)
  }

  function InsertedRows(s: StoreState, added: seq<Chunk>, ids: seq<int>): StoreState
    requires |added| == |ids|
  {
    if ids == [] then s
    else InsertedRow(InsertedRows(s, added[..|ids| - 1], ids[..|ids| - 1]), added[|ids| - 1], ids[|ids| - 1])
  }

  // ----- the stamp

  /** A freshly indexed, Active row: every column rewritten but the operator's pin. */
  function StampedRecord(m: Manifest, now: real, pinned: bool, isDefault: bool): BranchRecord {
    BranchRecord(m.name, m.headSha, m.source, m.pipelineHash, now, now, isDefault, m.baseName, m.mergeBaseSha,
                 m.worktreePath, Active, None, None, None, pinned, None, None, None, None)
  }

  function Stamped(s: StoreState, m: Manifest, rows: seq<Membership>, now: real, isDefault: bool): StoreState {
    var pinned := m.name in s.branches && s.branches[m.name].pinned;
    s.(branches := s.branches[m.name := StampedRecord(m, now, pinned, isDefault)],
       files := Replaced(s.files, m.name, m.files),
       membership := Replaced(s.membership, m.name, rows))
  }

  /** Another branch stamped from the manifest's own worktree. */
  predicate IsPreviousCheckout(other: BranchRecord, m: Manifest) {
    other.name != m.name && !other.IsLandingUnit() && other.worktreePath.Some? && other.worktreePath == m.worktreePath
  }

  function RetiredBy(s: StoreState, m: Manifest): set<string> {
    set name | name in s.branches && IsPreviousCheckout(s.branches[name], m)
  }

  /** The previous checkouts' records and rows, deleted outright. */
  function WithoutBranches(s: StoreState, names: set<string>): StoreState {
    WithoutRows(s, names).(branches := s.branches - names)
  }

  // ----- the git-objects pass

  function PassChunks(input: PassInput): seq<Chunk> {
    if input.extraction.Some? then input.extraction.value.AllChunks() else []
  }

  function Claimed(input: PassInput): set<int> { Elems(ChunkIds(CachedRows(input.cached))) }

  ghost predicate ValidPassChoice(s: StoreState, input: PassInput, choice: Choice) {
    ValidChoice(s, Claimed(input), PassChunks(input), choice)
  }

  function PassAssignments(input: PassInput, choice: Choice): seq<Assignment>
    requires Fits(choice, PassChunks(input))
  {
    Assigned(choice, PassChunks(input))
  }

  /** The hits' rows, then the misses' rows: what the branch's membership becomes. */
  function PassRows(input: PassInput, choice: Choice): seq<Membership>
    requires Fits(choice, PassChunks(input))
  {
    CachedRows(input.cached) + MembershipRows(PassAssignments(input, choice))
  }

  function Extracted(input: PassInput): seq<ExtractedFile> {
    if input.extraction.Some? then input.extraction.value.files else []
  }

  function CachedTrees(cached: seq<CachedFile>): seq<TreeRow> {
    if cached == [] then []
    else (if cached[0].tree.Some? then [cached[0].tree.value] else []) + CachedTrees(cached[1..])
  }

  /** The tables just before the pass's GC. */
  function PassBeforeGc(s: StoreState, input: PassInput, choice: Choice): StoreState
    requires Fits(choice, PassChunks(input))
  {
    var m := input.manifest;
    var inserted := InsertedRows(s, Added(choice, PassChunks(input)), choice.newIds);
    var cached := inserted.(cache := CacheWith(s.cache, m.files, m.cacheKey, PassAssignments(input, choice), Extracted(input)));
    var stamped := Stamped(cached, m, PassRows(input, choice), input.now, false);
    stamped.(trees := Replaced(stamped.trees, m.name, CachedTrees(input.cached) + TreesIn(Extracted(input))))
  }

  function PassResult(s: StoreState, input: PassInput, choice: Choice): StoreState
    requires Fits(choice, PassChunks(input))
  {
    CollectGarbage(PassBeforeGc(s, input, choice), Some(input.manifest.cacheKey))
  }

  function OutcomeOf(s: StoreState, input: PassInput, choice: Choice): PassOutcome
    requires Fits(choice, PassChunks(input))
  {
    PassOutcome(|input.manifest.files|, |input.cached|, |Extracted(input)|, |choice.newIds|,
                |PassRows(input, choice)| - |choice.newIds|, |Unnamed(PassBeforeGc(s, input, choice))|)
  }

  // ----- the working-tree pass

  datatype TreeInput = TreeInput(manifest: Manifest, extraction: BranchExtraction, now: real)

  function TreeAssignments(input: TreeInput, choice: Choice): seq<Assignment>
    requires Fits(choice, input.extraction.AllChunks())
  {
    Assigned(choice, input.extraction.AllChunks())
  }

  /** The branch's trees replaced, and the unbranched copy with them, when there are any. */
  function WithTrees(s: StoreState, name: string, trees: seq<TreeRow>): StoreState {
    if trees == [] then s else s.(trees := (s.trees - {""})[name := trees])
  }

  function TreePassBeforeGc(s: StoreState, input: TreeInput, choice: Choice): StoreState
    requires Fits(choice, input.extraction.AllChunks())
  {
    var m, asg := input.manifest, TreeAssignments(input, choice);
    var inserted := InsertedRows(s, Added(choice, input.extraction.AllChunks()), choice.newIds);
    var treed := WithTrees(inserted, m.name, TreesIn(input.extraction.files));
    var alone := WithoutBranches(treed, RetiredBy(s, m));
    var stamped := Stamped(alone, m, MembershipRows(asg), input.now, true);
    stamped.(cache := CacheWith(s.cache, m.files, m.cacheKey, asg, input.extraction.files))
  }

  function TreePassResult(s: StoreState, input: TreeInput, choice: Choice): StoreState
    requires Fits(choice, input.extraction.AllChunks())
  {
    CollectGarbage(TreePassBeforeGc(s, input, choice), Some(input.manifest.cacheKey))
  }

  // ----- indexing a ref: which files are reused and which extracted

  datatype RefListing = RefListing(manifest: Manifest, sizes: map<string, nat>, now: real)

  function RefHits(s: StoreState, r: RefListing): seq<BranchFile> {
    Hits(s.cache, r.manifest.cacheKey, r.manifest.files)
  }

  function RefMisses(s: StoreState, r: RefListing): seq<BranchFile> {
    NonEmpty(r.sizes, Misses(s.cache, r.manifest.cacheKey, r.manifest.files))
  }

  function MarkerFiles(files: seq<BranchFile>): seq<BranchFile> {
    if files == [] then []
    else
      var f := files[|files| - 1];
      MarkerFiles(files[..|files| - 1]) + if IsPackageMarker(f.path) then [f] else []
  }

  /** The module ids over the scratch layout: every marker, hit and non-empty miss. */
  function RefModuleIds(ex: Extractor, s: StoreState, r: RefListing): map<string, string> {
    PythonModuleIds(ex, MarkerPaths(r.manifest.files), MarkerFiles(r.manifest.files) + RefHits(s, r) + RefMisses(s, r))
  }

  function RefKept(ex: Extractor, s: StoreState, r: RefListing): seq<BranchFile> {
    Kept(s.cache, r.manifest.cacheKey, RefModuleIds(ex, s, r), RefHits(s, r))
  }

  function RefDemoted(ex: Extractor, s: StoreState, r: RefListing): seq<BranchFile> {
    Demoted(s.cache, r.manifest.cacheKey, RefModuleIds(ex, s, r), RefHits(s, r))
  }

  function RefToExtract(ex: Extractor, s: StoreState, r: RefListing): seq<BranchFile> {
    RefMisses(s, r) + RefDemoted(ex, s, r)
  }

  function ReadAll(cache: map<CacheKey, Extraction>, key: string, files: seq<BranchFile>): seq<CachedFile>
    requires forall f :: f in files ==> KeyOf(f, key) in cache
  {
    if files == [] then []
    else
      assert forall f :: f in files[..|files| - 1] ==> f in files;
      ReadAll(cache, key, files[..|files| - 1]) + [ReadCached(cache, key, files[|files| - 1])]
  }

  function ExtractAll(ex: Extractor, key: string, layout: seq<BranchFile>, files: seq<BranchFile>): seq<ExtractedFile> {
    if files == [] then []
    else [ExtractFile(ex, key, layout, files[0])] + ExtractAll(ex, key, layout, files[1..])
  }

  lemma {:induction false} KeptAreHits(cache: map<CacheKey, Extraction>, key: string, ids: map<string, string>, hits: seq<BranchFile>)
    ensures forall f :: f in Kept(cache, key, ids, hits) <==> f in hits && HitHolds(cache, key, ids, f)
    ensures forall f :: f in Demoted(cache, key, ids, hits) <==> f in hits && !HitHolds(cache, key, ids, f)
  {
    if hits != [] {
      KeptAreHits(cache, key, ids, hits[..|hits| - 1]);
      assert hits == hits[..|hits| - 1] + [hits[|hits| - 1]];
    }
  }

  lemma {:induction false} HitsAre(cache: map<CacheKey, Extraction>, key: string, files: seq<BranchFile>)
    ensures forall f :: f in Hits(cache, key, files) <==> f in files && IsHit(cache, key, f)
    ensures forall f :: f in Misses(cache, key, files) <==> f in files && !IsHit(cache, key, f)
  {
    if files != [] {
      HitsAre(cache, key, files[..|files| - 1]);
      assert files == files[..|files| - 1] + [files[|files| - 1]];
    }
  }

  lemma {:induction false} NonEmptyAre(sizes: map<string, nat>, files: seq<BranchFile>)
    ensures forall f :: f in NonEmpty(sizes, files) <==> f in files && SizeOf(sizes, f.path) > 0
  {
    if files != [] {
      NonEmptyAre(sizes, files[..|files| - 1]);
      assert files == files[..|files| - 1] + [files[|files| - 1]];
    }
  }

  lemma {:induction false} MarkerFilesAre(files: seq<BranchFile>)
    ensures forall f :: f in MarkerFiles(files) <==> f in files && IsPackageMarker(f.path)
  {
    if files != [] {
      MarkerFilesAre(files[..|files| - 1]);
      assert files == files[..|files| - 1] + [files[|files| - 1]];
    }
  }

  /** The pass input index_ref builds from the tables it read. */
  function RefInput(ex: Extractor, s: StoreState, r: RefListing): PassInput {
    var m := r.manifest;
    var toExtract := RefToExtract(ex, s, r);
    assert forall f :: f in RefKept(ex, s, r) ==> KeyOf(f, m.cacheKey) in s.cache by {
      KeptAreHits(s.cache, m.cacheKey, RefModuleIds(ex, s, r), RefHits(s, r));
      HitsAre(s.cache, m.cacheKey, m.files);
    }
    PassInput(m, ReadAll(s.cache, m.cacheKey, RefKept(ex, s, r)),
              if toExtract == [] then None
              else Some(BranchExtraction(ExtractAll(ex, m.cacheKey, m.files, toExtract), [])),
              r.now)
  }
}
