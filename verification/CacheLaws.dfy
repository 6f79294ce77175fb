/** What a committed ref pass leaves in the extraction cache, file by file, and that the
    next pass over the same files finds it there. */
module CacheLaws {
  import opened Common
  import opened BranchRecords
  import opened BundleTables
  import opened ExtractionCache
  import opened ChunkDiff
  import opened BranchPass
  import opened PassFacts
  import opened StoreInvariant
  import opened RefPass
  import opened TornRows
  import opened PassTheorems
  import opened TreePass
  import opened PassLaws

  /** The tree this layout's extraction of the file gives. */
  function TreeOfFile(ex: Extractor, m: Manifest, f: BranchFile): Option<TreeRow> {
    ex.tree(f.blob, f.path, ModuleOf(ex, m.files, f.path), m.cacheKey)
  }

  function ChunksOfFile(ex: Extractor, m: Manifest, f: BranchFile): seq<Chunk> {
    ex.chunks(f.blob, f.path, ModuleOf(ex, m.files, f.path), m.cacheKey)
  }

  /** The file has a tree, and no other extracted file's tree has its root. */
  ghost predicate RootIsItsOwn(ex: Extractor, m: Manifest, extracted: seq<BranchFile>, f: BranchFile) {
    && TreeOfFile(ex, m, f).Some?
    && forall g :: g in extracted && g != f && TreeOfFile(ex, m, g).Some? ==>
         TreeOfFile(ex, m, g).value.qualifiedName != TreeOfFile(ex, m, f).value.qualifiedName
  }

  predicate HasRoot(e: ExtractedFile, m: string) { e.tree.Some? && e.tree.value.qualifiedName == m }

  lemma {:induction false} RootsCounted(files: seq<ExtractedFile>, m: string)
    ensures RootCount(files, m) == 0 <==> forall i :: 0 <= i < |files| ==> !HasRoot(files[i], m)
  {
    if files != [] {
      RootsCounted(files[1..], m);
      assert forall i :: 0 < i < |files| ==> files[i] == files[1..][i - 1];
    }
  }

  lemma {:induction false} OneRoot(files: seq<ExtractedFile>, i: nat, m: string)
    requires i < |files| && HasRoot(files[i], m)
    ensures RootCount(files, m) == 1 <==> forall j :: 0 <= j < |files| && j != i ==> !HasRoot(files[j], m)
  {
    var rest := files[1..];
    assert forall j :: 0 < j < |files| ==> files[j] == rest[j - 1];
    RootsCounted(rest, m);
    if i > 0 {
      OneRoot(rest, i - 1, m);
      if HasRoot(files[0], m) {
        assert HasRoot(rest[i - 1], m);
      }
    }
  }

  /** The artifact of an extracted file: its tree when its root is its own. */
  lemma ArtifactIs(ex: Extractor, m: Manifest, files: seq<BranchFile>, f: BranchFile)
    requires ex.WellFormed() && DistinctPaths(files) && (forall g :: g in files ==> g in m.files) && f in files
    ensures ArtifactOf(ExtractAll(ex, m.cacheKey, m.files, files), f.path) == if RootIsItsOwn(ex, m, files, f) then TreeOfFile(ex, m, f) else None
  {
    var all := ExtractAll(ex, m.cacheKey, m.files, files);
    ExtractAllFaithful(ex, m, files);
    var i :| 0 <= i < |files| && files[i] == f;
    FindsOwn(all, all[i]);
    if TreeOfFile(ex, m, f).Some? {
      OneRoot(all, i, TreeOfFile(ex, m, f).value.qualifiedName);
      RootsApart(ex, m, files, i);
    }
  }

  lemma RootsApart(ex: Extractor, m: Manifest, files: seq<BranchFile>, i: nat)
    requires ex.WellFormed() && DistinctPaths(files) && (forall g :: g in files ==> g in m.files) && i < |files|
    requires TreeOfFile(ex, m, files[i]).Some?
    ensures var all, root := ExtractAll(ex, m.cacheKey, m.files, files), TreeOfFile(ex, m, files[i]).value.qualifiedName;
            && |all| == |files|
            && (RootIsItsOwn(ex, m, files, files[i]) <==> forall j :: 0 <= j < |all| && j != i ==> !HasRoot(all[j], root))
  {
    var all, root := ExtractAll(ex, m.cacheKey, m.files, files), TreeOfFile(ex, m, files[i]).value.qualifiedName;
    ExtractAllFaithful(ex, m, files);
    forall j | 0 <= j < |all| ensures HasRoot(all[j], root) <==>
        TreeOfFile(ex, m, files[j]).Some? && TreeOfFile(ex, m, files[j]).value.qualifiedName == root {
    }
    if RootIsItsOwn(ex, m, files, files[i]) {
      forall j | 0 <= j < |all| && j != i ensures !HasRoot(all[j], root) {
        assert files[j] in files && files[j].path != files[i].path;
      }
    } else {
      var g :| g in files && g != files[i] && TreeOfFile(ex, m, g).Some? && TreeOfFile(ex, m, g).value.qualifiedName == root;
      var j :| 0 <= j < |files| && files[j] == g;
      assert HasRoot(all[j], root);
    }
  }

  // ----- what a pass has written before it collects

  /** A ref pass's tables before the collection, as far as the cache goes. */
  ghost predicate WritesCache(s: StoreState, m: Manifest, extraction: BranchExtraction, asg: seq<Assignment>, t: StoreState) {
    && Resolves(t.chunks, asg) && multiset(KeptChunks(asg)) == multiset(extraction.AllChunks())
    && t.cache == CacheWith(s.cache, m.files, m.cacheKey, asg, extraction.files)
    && RowsOf(t.files, m.name) == m.files
    && (forall id :: id in KeptIds(asg) ==> id in ChunkIds(RowsOf(t.membership, m.name)))
  }

  lemma RefPassWrites(ex: Extractor, s: StoreState, r: RefListing, choice: Choice)
    requires ex.WellFormed() && TablesHold(ex, s) && ManifestWellFormed(r.manifest) && ValidPassChoice(s, RefInput(ex, s, r), choice)
    ensures var input := RefInput(ex, s, r);
            && WritesCache(s, r.manifest, BranchExtraction(Extracted(input), []), PassAssignments(input, choice), PassBeforeGc(s, input, choice))
            && ExtractionFaithful(ex, r.manifest, BranchExtraction(Extracted(input), []))
            && Extracted(input) == ExtractAll(ex, r.manifest.cacheKey, r.manifest.files, RefToExtract(ex, s, r))
            && DistinctPaths(RefToExtract(ex, s, r)) && (forall g :: g in RefToExtract(ex, s, r) ==> g in r.manifest.files)
  {
    var m, input := r.manifest, RefInput(ex, s, r);
    var t := PassBeforeGc(s, input, choice);
    assert BranchExtraction(Extracted(input), []).AllChunks() == PassChunks(input);
    PassAssigned(ex, s, r, choice);
    RefFiles(ex, s, r);
    ExtractAllFaithful(ex, m, RefToExtract(ex, s, r));
    PassRowIds(input, choice);
    PassTables(s, input, choice);
    InsertedFrame(s, Added(choice, PassChunks(input)), choice.newIds);
    assert RowsOf(t.membership, m.name) == PassRows(input, choice) && RowsOf(t.files, m.name) == m.files;
  }

  /** The spans written for an extracted file, read through the rows the collection leaves. */
  lemma WrittenSpansRead(ex: Extractor, s: StoreState, m: Manifest, extraction: BranchExtraction, asg: seq<Assignment>, t: StoreState, path: string)
    requires ExtractionFaithful(ex, m, extraction) && WritesCache(s, m, extraction, asg, t) && path != ""
    ensures var spans, after := InFileOrder(SpansOf(asg, path)), CollectGarbage(t, Some(m.cacheKey));
            && SpanViews(after.chunks, path, spans) == Pieces(ChunksOf(extraction.files, path)) && InStartOrder(spans)
            && (SpansOf(asg, path) == [] <==> ChunksOf(extraction.files, path) == [])
  {
    var spans, after := InFileOrder(SpansOf(asg, path)), CollectGarbage(t, Some(m.cacheKey));
    WrittenSpans(ex, m, extraction, t.chunks, asg, path);
    InFileOrderSorts(SpansOf(asg, path));
    WrittenSpansNamed(t, m.name, asg, path);
    forall span | span in spans ensures SpanPiece(after.chunks, path)(span) == SpanPiece(t.chunks, path)(span) {
      assert span.chunkId !in Unnamed(t);
    }
    ImageAgrees(SpanPiece(after.chunks, path), SpanPiece(t.chunks, path), spans);
  }

  /** An extracted file's row. */
  ghost predicate CachedAs(ex: Extractor, m: Manifest, before: StoreState, after: StoreState, extracted: seq<BranchFile>, f: BranchFile) {
    var k := CacheKey(f.blob, f.path, m.cacheKey);
    && k in after.cache
    && SpanViews(after.chunks, f.path, after.cache[k].spans) == Pieces(ChunksOfFile(ex, m, f))
    && InStartOrder(after.cache[k].spans)
    && after.cache[k].tree == if RootIsItsOwn(ex, m, extracted, f) then TreeOfFile(ex, m, f)
                              else if k in before.cache then before.cache[k].tree else None
  }

  lemma OneIsCached(ex: Extractor, s: StoreState, m: Manifest, files: seq<BranchFile>, asg: seq<Assignment>, t: StoreState, f: BranchFile)
    requires ex.WellFormed() && ManifestWellFormed(m) && DistinctPaths(files) && (forall g :: g in files ==> g in m.files)
    requires ExtractionFaithful(ex, m, BranchExtraction(ExtractAll(ex, m.cacheKey, m.files, files), []))
    requires WritesCache(s, m, BranchExtraction(ExtractAll(ex, m.cacheKey, m.files, files), []), asg, t)
    requires f in files && f.blob != "" && (RootIsItsOwn(ex, m, files, f) || ChunksOfFile(ex, m, f) != [])
    ensures CachedAs(ex, m, s, CollectGarbage(t, Some(m.cacheKey)), files, f)
  {
    var extraction := BranchExtraction(ExtractAll(ex, m.cacheKey, m.files, files), []);
    ArtifactIs(ex, m, files, f);
    ChunksFound(ex, m, files, f);
    WrittenSpansRead(ex, s, m, extraction, asg, t, f.path);
    WrittenRowStays(m, t, asg, extraction.files, s.cache, f);
  }

  lemma ChunksFound(ex: Extractor, m: Manifest, files: seq<BranchFile>, f: BranchFile)
    requires ex.WellFormed() && DistinctPaths(files) && (forall g :: g in files ==> g in m.files) && f in files
    ensures ChunksOf(ExtractAll(ex, m.cacheKey, m.files, files), f.path) == ChunksOfFile(ex, m, f)
  {
    var all := ExtractAll(ex, m.cacheKey, m.files, files);
    ExtractAllFaithful(ex, m, files);
    var i :| 0 <= i < |files| && files[i] == f;
    FindsOwn(all, all[i]);
  }

  /** After a committed ref pass each file it extracted, if it has a blob and anything to
      cache, has a row under the pass's key: its own chunks in start order, and its tree
      when no other extracted file's has the same root, otherwise the tree stored before. */
  lemma ExtractedIsCached(ex: Extractor, s: StoreState, r: RefListing, choice: Choice, f: BranchFile)
    requires ex.WellFormed() && TablesHold(ex, s) && ManifestWellFormed(r.manifest) && ValidPassChoice(s, RefInput(ex, s, r), choice)
    requires f in RefToExtract(ex, s, r) && f.blob != ""
    requires RootIsItsOwn(ex, r.manifest, RefToExtract(ex, s, r), f) || ChunksOfFile(ex, r.manifest, f) != []
    ensures CachedAs(ex, r.manifest, s, PassResult(s, RefInput(ex, s, r), choice), RefToExtract(ex, s, r), f)
  {
    var input := RefInput(ex, s, r);
    RefPassWrites(ex, s, r, choice);
    OneIsCached(ex, s, r.manifest, RefToExtract(ex, s, r), PassAssignments(input, choice), PassBeforeGc(s, input, choice), f);
  }

  /** Nothing else is written: a row the pass adds or changes is an extracted file's, with a
      blob, under the pass's key. */
  lemma OnlyExtractedAreWritten(ex: Extractor, s: StoreState, r: RefListing, choice: Choice, k: CacheKey)
    requires ex.WellFormed() && TablesHold(ex, s) && ManifestWellFormed(r.manifest) && ValidPassChoice(s, RefInput(ex, s, r), choice)
    requires var after := PassResult(s, RefInput(ex, s, r), choice); k in after.cache && !(k in s.cache && s.cache[k] == after.cache[k])
    ensures k.blob != "" && k.key == r.manifest.cacheKey && BranchFile(k.path, k.blob) in RefToExtract(ex, s, r)
  {
    var m, input, f := r.manifest, RefInput(ex, s, r), BranchFile(k.path, k.blob);
    RefPassWrites(ex, s, r, choice);
    CacheWithAt(s.cache, m.files, m.cacheKey, PassAssignments(input, choice), Extracted(input), k);
    var t := PassBeforeGc(s, input, choice);
    assert k in t.cache && t.cache[k] == PassResult(s, input, choice).cache[k];
    WrittenIsExtracted(ex, m, RefToExtract(ex, s, r), t.chunks, PassAssignments(input, choice), f);
  }

  lemma WrittenIsExtracted(ex: Extractor, m: Manifest, files: seq<BranchFile>, chunks: map<int, ChunkRow>, asg: seq<Assignment>, f: BranchFile)
    requires ex.WellFormed() && DistinctPaths(files) && (forall g :: g in files ==> g in m.files) && ManifestWellFormed(m) && f in m.files
    requires var extraction := BranchExtraction(ExtractAll(ex, m.cacheKey, m.files, files), []);
             && ExtractionFaithful(ex, m, extraction) && Resolves(chunks, asg) && multiset(KeptChunks(asg)) == multiset(extraction.AllChunks())
             && HasRow(f, asg, extraction.files)
    ensures f in files && f.blob != ""
  {
    var extraction := BranchExtraction(ExtractAll(ex, m.cacheKey, m.files, files), []);
    var e := RowMeansExtracted(ex, m, extraction, chunks, asg, f);
    ExtractAllFaithful(ex, m, files);
    var i :| 0 <= i < |extraction.files| && extraction.files[i] == e;
    assert files[i] == f;
  }

  // ----- what a working-tree pass caches

  /** The file has a tree whose root is no other extracted file's. */
  ghost predicate IsAloneAt(files: seq<ExtractedFile>, e: ExtractedFile) {
    e.tree.Some? && forall d :: d in files && d != e ==> !HasRoot(d, e.tree.value.qualifiedName)
  }

  lemma ArtifactOfAlone(files: seq<ExtractedFile>, e: ExtractedFile)
    requires FilesWellFormed(files) && e in files && IsAloneAt(files, e)
    ensures ArtifactOf(files, e.file.path) == e.tree
  {
    FindsOwn(files, e);
    var i :| 0 <= i < |files| && files[i] == e;
    OneRoot(files, i, e.tree.value.qualifiedName);
    forall j | 0 <= j < |files| && j != i ensures !HasRoot(files[j], e.tree.value.qualifiedName) {
      assert files[j].file.path != files[i].file.path;
    }
  }

  lemma TreePassWrites(ex: Extractor, s: StoreState, input: TreeInput, choice: Choice)
    requires TablesHold(ex, s) && TreeInputFaithful(ex, input) && ValidTreeChoice(s, input, choice)
    ensures WritesCache(s, input.manifest, input.extraction, TreeAssignments(input, choice), TreePassBeforeGc(s, input, choice))
  {
    TreeAssigned(ex, s, input, choice);
    TreePassTables(s, input, choice);
    TreePassIds(s, input, choice);
    assert RowsOf(TreePassBeforeGc(s, input, choice).files, input.manifest.name) == input.manifest.files;
  }

  /** After a working-tree pass each extracted file with a blob and a root to itself has a
      full row: its own chunks in start order, and its tree. */
  lemma TreePassCaches(ex: Extractor, s: StoreState, input: TreeInput, choice: Choice, e: ExtractedFile)
    requires TablesHold(ex, s) && TreeInputFaithful(ex, input) && ValidTreeChoice(s, input, choice)
    requires e in input.extraction.files && e.file.blob != "" && IsAloneAt(input.extraction.files, e)
    ensures var after, k := TreePassResult(s, input, choice), CacheKey(e.file.blob, e.file.path, input.manifest.cacheKey);
            && k in after.cache && after.cache[k].tree == e.tree && InStartOrder(after.cache[k].spans)
            && SpanViews(after.chunks, e.file.path, after.cache[k].spans) == Pieces(e.chunks)
  {
    var m, t, asg := input.manifest, TreePassBeforeGc(s, input, choice), TreeAssignments(input, choice);
    TreePassWrites(ex, s, input, choice);
    ArtifactOfAlone(input.extraction.files, e);
    FindsOwn(input.extraction.files, e);
    WrittenSpansRead(ex, s, m, input.extraction, asg, t, e.file.path);
    WrittenRowStays(m, t, asg, input.extraction.files, s.cache, e.file);
  }

  // ----- reused files keep their rows

  lemma NotExtracted(ex: Extractor, s: StoreState, r: RefListing, f: BranchFile)
    requires ManifestWellFormed(r.manifest) && f in RefKept(ex, s, r)
    ensures forall g :: g in RefToExtract(ex, s, r) ==> g.path != f.path
  {
    RefFiles(ex, s, r);
    forall g | g in RefToExtract(ex, s, r) ensures g.path != f.path {
      if g.path == f.path {
        SameFile(r.manifest.files, f, g);
        assert multiset(RefKept(ex, s, r))[f] >= 1 && multiset(RefToExtract(ex, s, r))[f] >= 1;
        ListedOnce(r.manifest.files, f);
      }
    }
  }

  lemma ListedOnce(files: seq<BranchFile>, f: BranchFile)
    requires DistinctPaths(files)
    ensures multiset(files)[f] <= 1
  {
    CountAtMostOne(files, f);
  }

  lemma NothingFound(ex: Extractor, m: Manifest, files: seq<BranchFile>, path: string)
    requires ex.WellFormed() && DistinctPaths(files) && (forall g :: g in files ==> g in m.files) && forall g :: g in files ==> g.path != path
    ensures FindExtracted(ExtractAll(ex, m.cacheKey, m.files, files), path).None?
  {
    var all := ExtractAll(ex, m.cacheKey, m.files, files);
    ExtractAllFaithful(ex, m, files);
    forall i | 0 <= i < |all| ensures all[i].file.path != path {
      assert files[i] in files;
    }
    NotFound(all, path);
  }

  lemma KeptIsUnwritten(ex: Extractor, s: StoreState, r: RefListing, choice: Choice, f: BranchFile)
    requires ex.WellFormed() && TablesHold(ex, s) && ManifestWellFormed(r.manifest) && ValidPassChoice(s, RefInput(ex, s, r), choice)
    requires f in RefKept(ex, s, r)
    ensures var t, k := PassBeforeGc(s, RefInput(ex, s, r), choice), KeyOf(f, r.manifest.cacheKey);
            k in s.cache && k in t.cache && t.cache[k] == s.cache[k] && f in r.manifest.files
  {
    var input, m, files := RefInput(ex, s, r), r.manifest, RefToExtract(ex, s, r);
    var extraction, asg := BranchExtraction(Extracted(input), []), PassAssignments(input, choice);
    RefFiles(ex, s, r);
    RefPassWrites(ex, s, r, choice);
    NotExtracted(ex, s, r, f);
    NothingFound(ex, m, files, f.path);
    WrittenSpansRead(ex, s, m, extraction, asg, PassBeforeGc(s, input, choice), f.path);
    assert f.path != "";
    CacheWithAt(s.cache, m.files, m.cacheKey, asg, extraction.files, KeyOf(f, m.cacheKey));
  }

  lemma KeptSpansNamed(ex: Extractor, s: StoreState, r: RefListing, choice: Choice, f: BranchFile)
    requires ManifestWellFormed(r.manifest) && Fits(choice, PassChunks(RefInput(ex, s, r))) && AreNewIds(s, choice.newIds)
    requires f in RefKept(ex, s, r) && KeyOf(f, r.manifest.cacheKey) in s.cache
    ensures forall span :: span in s.cache[KeyOf(f, r.manifest.cacheKey)].spans ==> Named(PassBeforeGc(s, RefInput(ex, s, r), choice), span.chunkId)
  {
    var input := RefInput(ex, s, r);
    var t := PassBeforeGc(s, input, choice);
    RefFiles(ex, s, r);
    PassTables(s, input, choice);
    PassRowIds(input, choice);
    forall span | span in s.cache[KeyOf(f, r.manifest.cacheKey)].spans ensures Named(t, span.chunkId) {
      CachedRowOf(s.cache, r.manifest.cacheKey, RefKept(ex, s, r), f, span);
      NewRowIsNamed(t, r.manifest.name, span.chunkId);
    }
  }

  /** A reused file's row is still there afterwards, as it was. */
  lemma ReusedStaysCached(ex: Extractor, s: StoreState, r: RefListing, choice: Choice, f: BranchFile)
    requires ex.WellFormed() && TablesHold(ex, s) && ManifestWellFormed(r.manifest) && ValidPassChoice(s, RefInput(ex, s, r), choice)
    requires f in RefKept(ex, s, r)
    ensures var after, k := PassResult(s, RefInput(ex, s, r), choice), CacheKey(f.blob, f.path, r.manifest.cacheKey);
            k in s.cache && k in after.cache && after.cache[k] == s.cache[k]
  {
    var t, k := PassBeforeGc(s, RefInput(ex, s, r), choice), KeyOf(f, r.manifest.cacheKey);
    KeptIsUnwritten(ex, s, r, choice, f);
    KeptSpansNamed(ex, s, r, choice, f);
    PassListing(s, RefInput(ex, s, r), choice, f);
    assert CacheRowStays(t, k, Unnamed(t), Some(r.manifest.cacheKey));
  }

  lemma PassListing(s: StoreState, input: PassInput, choice: Choice, f: BranchFile)
    requires Fits(choice, PassChunks(input)) && AreNewIds(s, choice.newIds) && f in input.manifest.files
    ensures Listed(PassBeforeGc(s, input, choice), f.blob, f.path)
  {
    PassTables(s, input, choice);
    var t := PassBeforeGc(s, input, choice);
    assert input.manifest.name in t.files && f in t.files[input.manifest.name];
    assert f == BranchFile(f.path, f.blob);
  }

  // ----- the next pass over the same files

  /** No other file of the layout is given the file's module id. */
  ghost predicate IsAlone(ex: Extractor, m: Manifest, f: BranchFile) {
    f in m.files && forall g :: g in m.files && g.path != f.path ==> ModuleOf(ex, m.files, g.path) != ModuleOf(ex, m.files, f.path)
  }

  lemma AloneIsItsOwnRoot(ex: Extractor, m: Manifest, files: seq<BranchFile>, f: BranchFile)
    requires ex.WellFormed() && ManifestWellFormed(m) && IsAlone(ex, m, f) && TreeOfFile(ex, m, f).Some? && forall g :: g in files ==> g in m.files
    ensures RootIsItsOwn(ex, m, files, f) && TreeOfFile(ex, m, f).value.qualifiedName == ModuleOf(ex, m.files, f.path)
  {
    forall g | g in files && g != f && TreeOfFile(ex, m, g).Some?
      ensures TreeOfFile(ex, m, g).value.qualifiedName != TreeOfFile(ex, m, f).value.qualifiedName
    {
      if g.path == f.path {
        SameFile(m.files, f, g);
      }
    }
  }

  lemma AloneHasFullRow(ex: Extractor, s: StoreState, r: RefListing, choice: Choice, f: BranchFile)
    requires ex.WellFormed() && TablesHold(ex, s) && ManifestWellFormed(r.manifest) && ValidPassChoice(s, RefInput(ex, s, r), choice)
    requires f.blob != "" && IsAlone(ex, r.manifest, f) && TreeOfFile(ex, r.manifest, f).Some?
    requires f in RefKept(ex, s, r) || f in RefToExtract(ex, s, r)
    ensures var after := PassResult(s, RefInput(ex, s, r), choice);
            && HasFullRow(after, r.manifest.cacheKey, f)
            && (IsPython(f.path) ==>
                  after.cache[CacheKey(f.blob, f.path, r.manifest.cacheKey)].tree.value.qualifiedName == ModuleOf(ex, r.manifest.files, f.path))
  {
    ReusedExactly(ex, s, r, f);
    if f in RefKept(ex, s, r) {
      ReusedStaysCached(ex, s, r, choice, f);
    } else {
      RefFiles(ex, s, r);
      AloneIsItsOwnRoot(ex, r.manifest, RefToExtract(ex, s, r), f);
      ExtractedIsCached(ex, s, r, choice, f);
    }
  }

  lemma AloneIsReused(ex: Extractor, s: StoreState, r: RefListing, f: BranchFile)
    requires HasFullRow(s, r.manifest.cacheKey, f) && IsAlone(ex, r.manifest, f)
    requires IsPython(f.path) ==> s.cache[CacheKey(f.blob, f.path, r.manifest.cacheKey)].tree.value.qualifiedName == ModuleOf(ex, r.manifest.files, f.path)
    ensures f in RefKept(ex, s, r)
  {
    ReusedExactly(ex, s, r, f);
  }

  /** The cache pays: a committed pass followed by a pass over the same files reuses every
      file that has a blob, content, a tree, and a module id to itself. */
  lemma NextPassReuses(ex: Extractor, s: StoreState, r: RefListing, choice: Choice, later: RefListing, f: BranchFile)
    requires ex.WellFormed() && TablesHold(ex, s) && ManifestWellFormed(r.manifest) && ValidPassChoice(s, RefInput(ex, s, r), choice)
    requires later.manifest.files == r.manifest.files && later.manifest.cacheKey == r.manifest.cacheKey
    requires f.blob != "" && SizeOf(r.sizes, f.path) > 0 && IsAlone(ex, r.manifest, f) && TreeOfFile(ex, r.manifest, f).Some?
    ensures f in RefKept(ex, PassResult(s, RefInput(ex, s, r), choice), later)
    ensures f !in RefToExtract(ex, PassResult(s, RefInput(ex, s, r), choice), later)
  {
    var after := PassResult(s, RefInput(ex, s, r), choice);
    ReusedExactly(ex, s, r, f);
    AloneHasFullRow(ex, s, r, choice, f);
    AloneIsReused(ex, after, later, f);
    ReusedExactly(ex, after, later, f);
  }
}
