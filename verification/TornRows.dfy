/** Torn cache rows: exactly which passes make one. The upsert of a row without a
    tree replaces the spans and keeps the stored tree
    (python/pydocs_mcp/storage/sqlite/file_extraction_repository.py:30-43), and a file
    whose module id another file of the pass shares is written without a tree. */
module TornRows {
  import opened Common
  import opened BranchRecords
  import opened BundleTables
  import opened ExtractionCache
  import opened ChunkDiff
  import opened BranchPass
  import opened PassFacts
  import opened StoreInvariant
  import opened RefPass

  /** The pass would rewrite the spans of `e`'s stored row, keep its tree, and the
      tree is rooted at another module: all known before the pass writes. */
  predicate Tears(cache: map<CacheKey, Extraction>, key: string, files: seq<ExtractedFile>, e: ExtractedFile) {
    && e.file.blob != "" && e.chunks != [] && ArtifactOf(files, e.file.path).None?
    && KeyOf(e.file, key) in cache && cache[KeyOf(e.file, key)].tree.Some?
    && cache[KeyOf(e.file, key)].tree.value.qualifiedName != e.module_
  }

  predicate TearsSome(cache: map<CacheKey, Extraction>, key: string, files: seq<ExtractedFile>) {
    exists e :: e in files && Tears(cache, key, files, e)
  }

  ghost predicate NoTornRow(s: StoreState) {
    forall k :: k in s.cache ==> !Torn(s.chunks, s.cache[k])
  }

  lemma {:induction false} FindsOwn(files: seq<ExtractedFile>, e: ExtractedFile)
    requires FilesWellFormed(files) && e in files
    ensures FindExtracted(files, e.file.path) == Some(e)
  {
    var i :| 0 <= i < |files| && files[i] == e;
    if i > 0 {
      assert files[0].file.path != files[i].file.path;
      assert files[1..][i - 1] == e;
      FindsOwn(files[1..], e);
    }
  }

  /** The written spans of a file carry the file's module. */
  lemma WrittenModule(ex: Extractor, m: Manifest, extraction: BranchExtraction, chunks: map<int, ChunkRow>,
                      asg: seq<Assignment>, e: ExtractedFile)
    requires ex.WellFormed() && ExtractionFaithful(ex, m, extraction) && ManifestWellFormed(m) && e in extraction.files
    requires Resolves(chunks, asg) && multiset(KeptChunks(asg)) == multiset(extraction.AllChunks())
    ensures forall span :: span in InFileOrder(SpansOf(asg, e.file.path)) ==>
              HashAt(chunks, span.chunkId).Some? && HashAt(chunks, span.chunkId).value.module_ == e.module_
    ensures InFileOrder(SpansOf(asg, e.file.path)) == [] <==> e.chunks == []
  {
    FindsOwn(extraction.files, e);
    WrittenSpans(ex, m, extraction, chunks, asg, e.file.path);
    var spans := InFileOrder(SpansOf(asg, e.file.path));
    var k := CacheKey(e.file.blob, e.file.path, m.cacheKey);
    var row := Extraction(spans, Some(TreeRow(e.module_, e.file.path)));
    assert Produced(ex, chunks, k, row, e.module_);
    RowModule(ex, chunks, k, row, e.module_);
  }

  /** After a write, the row under `k` is torn exactly when it was written torn, or was
      torn before and the pass did not write it. */
  lemma TornAfterWrite(ex: Extractor, m: Manifest, extraction: BranchExtraction, chunks: map<int, ChunkRow>,
                       asg: seq<Assignment>, cache: map<CacheKey, Extraction>, k: CacheKey)
    requires ex.WellFormed() && ExtractionFaithful(ex, m, extraction) && ManifestWellFormed(m)
    requires Resolves(chunks, asg) && multiset(KeptChunks(asg)) == multiset(extraction.AllChunks())
    requires k in CacheWith(cache, m.files, m.cacheKey, asg, extraction.files)
    requires k in cache ==> !Torn(chunks, cache[k])
    ensures Torn(chunks, CacheWith(cache, m.files, m.cacheKey, asg, extraction.files)[k])
            <==> exists e :: e in extraction.files && Tears(cache, m.cacheKey, extraction.files, e) && KeyOf(e.file, m.cacheKey) == k
  {
    CacheWithAt(cache, m.files, m.cacheKey, asg, extraction.files, k);
    var f := BranchFile(k.path, k.blob);
    var row := CacheWith(cache, m.files, m.cacheKey, asg, extraction.files)[k];
    if k.key == m.cacheKey && f in m.files && HasRow(f, asg, extraction.files) {
      var e := RowMeansExtracted(ex, m, extraction, chunks, asg, f);
      WrittenModule(ex, m, extraction, chunks, asg, e);
      assert Torn(chunks, row) <==> Tears(cache, m.cacheKey, extraction.files, e) by {
        if row.spans != [] {
          assert row.spans[0] in row.spans;
        }
      }
      forall d | d in extraction.files && KeyOf(d.file, m.cacheKey) == k ensures d == e {
        FindsOwn(extraction.files, d);
      }
    } else {
      forall d | d in extraction.files && KeyOf(d.file, m.cacheKey) == k
        ensures !Tears(cache, m.cacheKey, extraction.files, d)
      {
        WrittenModule(ex, m, extraction, chunks, asg, d);
        assert d.file == f;
        InFileOrderSorts(SpansOf(asg, f.path));
        assert SpansOf(asg, f.path) == [] ==> InFileOrder(SpansOf(asg, f.path)) == [];
      }
    }
  }

  /** The GC after a write keeps every row the write made and does not change what
      a surviving row reads. */
  lemma TornAfterCollecting(ex: Extractor, s: StoreState, key: Option<string>, k: CacheKey)
    requires TablesHold(ex, s) && k in CollectGarbage(s, key).cache
    ensures k in s.cache && (Torn(s.chunks, s.cache[k]) <==> Torn(CollectGarbage(s, key).chunks, CollectGarbage(s, key).cache[k]))
  {
    assert CacheRowStays(s, k, Unnamed(s), key);
    forall span | span in s.cache[k].spans ensures HashAt(CollectGarbage(s, key).chunks, span.chunkId) == HashAt(s.chunks, span.chunkId) {
      assert RowFaithful(ex, s.chunks, k, s.cache[k]);
    }
  }

  /** A row the pass writes survives the pass's GC: its ids are the branch's own. */
  lemma WrittenRowStays(m: Manifest, t: StoreState, asg: seq<Assignment>, extracted: seq<ExtractedFile>, cache: map<CacheKey, Extraction>, f: BranchFile)
    requires ManifestWellFormed(m) && f in m.files && HasRow(f, asg, extracted)
    requires t.cache == CacheWith(cache, m.files, m.cacheKey, asg, extracted)
    requires RowsOf(t.files, m.name) == m.files
    requires forall id :: id in KeptIds(asg) ==> id in ChunkIds(RowsOf(t.membership, m.name))
    ensures var k, after := KeyOf(f, m.cacheKey), CollectGarbage(t, Some(m.cacheKey));
            k in after.cache && after.cache[k] == Extraction(InFileOrder(SpansOf(asg, f.path)), TreeAfter(cache, k, extracted))
  {
    var k := KeyOf(f, m.cacheKey);
    WrittenSpansNamed(t, m.name, asg, k.path);
    CacheWithAt(cache, m.files, m.cacheKey, asg, extracted, k);
    assert f == BranchFile(k.path, k.blob);
    assert m.name in t.files && Listed(t, k.blob, k.path);
  }

  lemma TearingRowStays(ex: Extractor, m: Manifest, extraction: BranchExtraction, t: StoreState, asg: seq<Assignment>,
                        cache: map<CacheKey, Extraction>, e: ExtractedFile)
    requires ex.WellFormed() && ExtractionFaithful(ex, m, extraction) && ManifestWellFormed(m) && e in extraction.files
    requires Resolves(t.chunks, asg) && multiset(KeptChunks(asg)) == multiset(extraction.AllChunks())
    requires t.cache == CacheWith(cache, m.files, m.cacheKey, asg, extraction.files)
    requires RowsOf(t.files, m.name) == m.files
    requires forall id :: id in KeptIds(asg) ==> id in ChunkIds(RowsOf(t.membership, m.name))
    requires Tears(cache, m.cacheKey, extraction.files, e)
    ensures KeyOf(e.file, m.cacheKey) in CollectGarbage(t, Some(m.cacheKey)).cache
  {
    WrittenModule(ex, m, extraction, t.chunks, asg, e);
    assert SpansOf(asg, e.file.path) == [] ==> InFileOrder(SpansOf(asg, e.file.path)) == [];
    WrittenRowStays(m, t, asg, extraction.files, cache, e.file);
  }

  /** The ids written for a file are named by the branch's membership, so not freed. */
  lemma WrittenSpansNamed(t: StoreState, name: string, asg: seq<Assignment>, path: string)
    requires forall id :: id in KeptIds(asg) ==> id in ChunkIds(RowsOf(t.membership, name))
    ensures forall span :: span in InFileOrder(SpansOf(asg, path)) ==> span.chunkId !in Unnamed(t)
  {
    InFileOrderSorts(SpansOf(asg, path));
    SpansOfIds(asg, path);
    forall span | span in InFileOrder(SpansOf(asg, path)) ensures span.chunkId !in Unnamed(t) {
      assert span in multiset(SpansOf(asg, path));
      var i :| 0 <= i < |asg| && asg[i].1 == span.chunkId;
      assert KeptIds(asg)[i] == span.chunkId;
      assert span.chunkId in ChunkIds(RowsOf(t.membership, name));
      assert RowsOf(t.membership, name) != [];
    }
  }

  /** What the torn-row argument needs of a pass before its GC. */
  ghost predicate Wrote(ex: Extractor, m: Manifest, extraction: BranchExtraction, before: StoreState, asg: seq<Assignment>, t: StoreState) {
    && ex.WellFormed() && ExtractionFaithful(ex, m, extraction) && ManifestWellFormed(m) && TablesHold(ex, t)
    && Resolves(t.chunks, asg) && multiset(KeptChunks(asg)) == multiset(extraction.AllChunks())
    && t.cache == CacheWith(before.cache, m.files, m.cacheKey, asg, extraction.files)
    && RowsOf(t.files, m.name) == m.files
    && (forall id :: id in KeptIds(asg) ==> id in ChunkIds(RowsOf(t.membership, m.name)))
    && (forall k :: k in before.cache ==> !Torn(t.chunks, before.cache[k]))
  }

  lemma TornMeansTorn(ex: Extractor, m: Manifest, extraction: BranchExtraction, before: StoreState, asg: seq<Assignment>, t: StoreState, k: CacheKey)
    requires Wrote(ex, m, extraction, before, asg, t)
    requires k in CollectGarbage(t, Some(m.cacheKey)).cache
    requires Torn(CollectGarbage(t, Some(m.cacheKey)).chunks, CollectGarbage(t, Some(m.cacheKey)).cache[k])
    ensures TearsSome(before.cache, m.cacheKey, extraction.files)
  {
    TornAfterCollecting(ex, t, Some(m.cacheKey), k);
    TornAfterWrite(ex, m, extraction, t.chunks, asg, before.cache, k);
  }

  lemma TearingMakesTorn(ex: Extractor, m: Manifest, extraction: BranchExtraction, before: StoreState, asg: seq<Assignment>, t: StoreState, e: ExtractedFile)
    requires Wrote(ex, m, extraction, before, asg, t)
    requires e in extraction.files && Tears(before.cache, m.cacheKey, extraction.files, e)
    ensures var k, after := KeyOf(e.file, m.cacheKey), CollectGarbage(t, Some(m.cacheKey));
            k in after.cache && Torn(after.chunks, after.cache[k])
  {
    var k := KeyOf(e.file, m.cacheKey);
    TearingRowStays(ex, m, extraction, t, asg, before.cache, e);
    TornAfterCollecting(ex, t, Some(m.cacheKey), k);
    TornAfterWrite(ex, m, extraction, t.chunks, asg, before.cache, k);
  }

  lemma WroteTearsExactly(ex: Extractor, m: Manifest, extraction: BranchExtraction, before: StoreState, asg: seq<Assignment>, t: StoreState)
    requires Wrote(ex, m, extraction, before, asg, t)
    ensures NoTornRow(CollectGarbage(t, Some(m.cacheKey))) <==> !TearsSome(before.cache, m.cacheKey, extraction.files)
  {
    var after := CollectGarbage(t, Some(m.cacheKey));
    if !NoTornRow(after) {
      var k :| k in after.cache && Torn(after.chunks, after.cache[k]);
      TornMeansTorn(ex, m, extraction, before, asg, t, k);
    }
    if TearsSome(before.cache, m.cacheKey, extraction.files) {
      var e :| e in extraction.files && Tears(before.cache, m.cacheKey, extraction.files, e);
      TearingMakesTorn(ex, m, extraction, before, asg, t, e);
    }
  }

  lemma RefPassWrote(ex: Extractor, s: StoreState, r: RefListing, choice: Choice)
    requires StoreHolds(ex, s) && NoTornRow(s) && ex.WellFormed() && ManifestWellFormed(r.manifest)
    requires ValidPassChoice(s, RefInput(ex, s, r), choice)
    requires !HitsClash(s.cache, r.manifest.cacheKey, RefKept(ex, s, r))
    ensures var input := RefInput(ex, s, r);
            Wrote(ex, r.manifest, BranchExtraction(Extracted(input), []), s, PassAssignments(input, choice), PassBeforeGc(s, input, choice))
  {
    var m, input := r.manifest, RefInput(ex, s, r);
    var asg, t := PassAssignments(input, choice), PassBeforeGc(s, input, choice);
    var extraction := BranchExtraction(Extracted(input), []);
    assert extraction.AllChunks() == PassChunks(input);
    PassAssigned(ex, s, r, choice);
    RefFiles(ex, s, r);
    ExtractAllFaithful(ex, m, RefToExtract(ex, s, r));
    PassTablesHold(ex, s, r, choice);
    PassRowIds(input, choice);
    InsertedRowsAre(s, Added(choice, PassChunks(input)), choice.newIds);
    assert RowsOf(t.membership, m.name) == PassRows(input, choice) && RowsOf(t.files, m.name) == m.files;
    StillUntorn(ex, s, t.chunks);
  }

  /** A git-objects pass over a store with no torn row makes one exactly when it
      extracts a file it tears. */
  lemma RefPassTearsExactly(ex: Extractor, s: StoreState, r: RefListing, choice: Choice)
    requires StoreHolds(ex, s) && NoTornRow(s) && ex.WellFormed() && ManifestWellFormed(r.manifest)
    requires ValidPassChoice(s, RefInput(ex, s, r), choice)
    requires !HitsClash(s.cache, r.manifest.cacheKey, RefKept(ex, s, r))
    ensures NoTornRow(PassResult(s, RefInput(ex, s, r), choice))
            <==> !TearsSome(s.cache, r.manifest.cacheKey, Extracted(RefInput(ex, s, r)))
  {
    var input := RefInput(ex, s, r);
    RefPassWrote(ex, s, r, choice);
    WroteTearsExactly(ex, r.manifest, BranchExtraction(Extracted(input), []), s, PassAssignments(input, choice), PassBeforeGc(s, input, choice));
  }

  lemma PassTablesHold(ex: Extractor, s: StoreState, r: RefListing, choice: Choice)
    requires StoreHolds(ex, s) && ex.WellFormed() && ManifestWellFormed(r.manifest)
    requires ValidPassChoice(s, RefInput(ex, s, r), choice)
    requires !HitsClash(s.cache, r.manifest.cacheKey, RefKept(ex, s, r))
    ensures TablesHold(ex, PassBeforeGc(s, RefInput(ex, s, r), choice))
  {
    var input := RefInput(ex, s, r);
    var t := PassBeforeGc(s, input, choice);
    var inserted := InsertedRows(s, Added(choice, PassChunks(input)), choice.newIds);
    PassKeys(ex, s, r, choice);
    PassAssigned(ex, s, r, choice);
    PassCacheFaithful(ex, s, r, choice);
    PassRowsLive(ex, s, r, choice);
    InsertedRowsAre(s, Added(choice, PassChunks(input)), choice.newIds);
    ReplacingKeeps(t.chunks, inserted.membership, r.manifest.name, PassRows(input, choice));
  }

  lemma StillUntorn(ex: Extractor, s: StoreState, chunks: map<int, ChunkRow>)
    requires TablesHold(ex, s) && NoTornRow(s) && Extends(s.chunks, chunks)
    ensures forall k :: k in s.cache ==> !Torn(chunks, s.cache[k])
  {
    forall k | k in s.cache ensures !Torn(chunks, s.cache[k]) {
      assert RowFaithful(ex, s.chunks, k, s.cache[k]);
      forall span | span in s.cache[k].spans ensures HashAt(chunks, span.chunkId) == HashAt(s.chunks, span.chunkId) {
        assert Live(s.chunks, span.chunkId);
      }
    }
  }
}
