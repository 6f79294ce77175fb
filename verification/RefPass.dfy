/** Indexing a ref that is not checked out: what one pass keeps, and when its result
    is the one a cache-free extraction would give. */
module RefPass {
  import opened Common
  import opened BranchRecords
  import opened BundleTables
  import opened ExtractionCache
  import opened ChunkDiff
  import opened BranchPass
  import opened PassFacts
  import opened StoreInvariant

  // ----- the files of a ref, split

  /** The pieces extracting each file afresh gives, under the ref's own layout. */
  function FreshPieces(ex: Extractor, m: Manifest, files: seq<BranchFile>): multiset<Piece> {
    if files == [] then multiset{}
    else FreshPieces(ex, m, files[..|files| - 1]) + Pieces(ExtractFile(ex, m.cacheKey, m.files, files[|files| - 1]).chunks)
  }

  lemma FreshSnoc(ex: Extractor, m: Manifest, files: seq<BranchFile>, f: BranchFile)
    ensures FreshPieces(ex, m, files + [f]) == FreshPieces(ex, m, files) + Pieces(ExtractFile(ex, m.cacheKey, m.files, f).chunks)
  {
    assert (files + [f])[..|files|] == files;
  }

  /** Hits and misses split the files. */
  lemma {:induction false} SplitFiles(cache: map<CacheKey, Extraction>, key: string, files: seq<BranchFile>)
    ensures multiset(Hits(cache, key, files)) + multiset(Misses(cache, key, files)) == multiset(files)
  {
    if files != [] {
      SplitFiles(cache, key, files[..|files| - 1]);
      MultisetLast(files);
    }
  }

  lemma {:induction false} SplitHits(cache: map<CacheKey, Extraction>, key: string, ids: map<string, string>, hits: seq<BranchFile>)
    ensures multiset(Kept(cache, key, ids, hits)) + multiset(Demoted(cache, key, ids, hits)) == multiset(hits)
  {
    if hits != [] {
      SplitHits(cache, key, ids, hits[..|hits| - 1]);
      MultisetLast(hits);
    }
  }

  /** The fresh pieces of a listing are those of any rearrangement of it. */
  lemma {:induction false} FreshPermutes(ex: Extractor, m: Manifest, a: seq<BranchFile>, b: seq<BranchFile>)
    requires multiset(a) == multiset(b)
    ensures FreshPieces(ex, m, a) == FreshPieces(ex, m, b)
  {
    if a == [] {
      assert |multiset(b)| == |b|;
    } else {
      var n := |a| - 1;
      MultisetLast(a);
      assert a[n] in multiset(b);
      var i :| 0 <= i < |b| && b[i] == a[n];
      SameWithout(a, b, i);
      FreshPermutes(ex, m, a[..n], b[..i] + b[i + 1..]);
      FreshWithout(ex, m, b, i);
    }
  }

  lemma FreshWithout(ex: Extractor, m: Manifest, files: seq<BranchFile>, i: nat)
    requires i < |files|
    ensures FreshPieces(ex, m, files)
            == FreshPieces(ex, m, files[..i] + files[i + 1..]) + Pieces(ExtractFile(ex, m.cacheKey, m.files, files[i]).chunks)
  {
    assert files == files[..i] + [files[i]] + files[i + 1..];
    FreshMiddle(ex, m, files[..i], files[i], files[i + 1..]);
  }

  lemma FreshMiddle(ex: Extractor, m: Manifest, l: seq<BranchFile>, f: BranchFile, r: seq<BranchFile>)
    ensures FreshPieces(ex, m, l + [f] + r)
            == FreshPieces(ex, m, l + r) + Pieces(ExtractFile(ex, m.cacheKey, m.files, f).chunks)
  {
    FreshAppend(ex, m, l + [f], r);
    FreshSnoc(ex, m, l, f);
    FreshAppend(ex, m, l, r);
  }

  /** An empty file has nothing to extract. */
  ghost predicate EmptyFilesAreEmpty(ex: Extractor, r: RefListing) {
    forall f :: f in r.manifest.files && SizeOf(r.sizes, f.path) == 0 ==>
      ExtractFile(ex, r.manifest.cacheKey, r.manifest.files, f).chunks == []
  }

  lemma {:induction false} SkippedAreEmpty(ex: Extractor, r: RefListing, files: seq<BranchFile>)
    requires EmptyFilesAreEmpty(ex, r) && forall f :: f in files ==> f in r.manifest.files
    ensures multiset(NonEmpty(r.sizes, files)) <= multiset(files)
    ensures FreshPieces(ex, r.manifest, NonEmpty(r.sizes, files)) == FreshPieces(ex, r.manifest, files)
  {
    if files != [] {
      var earlier, f := files[..|files| - 1], files[|files| - 1];
      assert f in files;
      SkippedAreEmpty(ex, r, earlier);
      MultisetLast(files);
      if SizeOf(r.sizes, f.path) > 0 {
        FreshSnoc(ex, r.manifest, NonEmpty(r.sizes, earlier), f);
      } else {
        assert NonEmpty(r.sizes, files) == NonEmpty(r.sizes, earlier);
      }
    }
  }

  lemma {:induction false} NonEmptySub(sizes: map<string, nat>, files: seq<BranchFile>)
    ensures multiset(NonEmpty(sizes, files)) <= multiset(files)
  {
    if files != [] {
      NonEmptySub(sizes, files[..|files| - 1]);
      MultisetLast(files);
    }
  }

  lemma {:induction false} FreshAppend(ex: Extractor, m: Manifest, a: seq<BranchFile>, b: seq<BranchFile>)
    ensures FreshPieces(ex, m, a + b) == FreshPieces(ex, m, a) + FreshPieces(ex, m, b)
  {
    if b == [] {
      assert a + b == a;
    } else {
      FreshAppend(ex, m, a, b[..|b| - 1]);
      assert (a + b)[..|a + b| - 1] == a + b[..|b| - 1];
    }
  }

  lemma {:induction false} ExtractedPieces(ex: Extractor, m: Manifest, files: seq<BranchFile>)
    ensures Pieces(Flatten(ExtractAll(ex, m.cacheKey, m.files, files))) == FreshPieces(ex, m, files)
  {
    if files != [] {
      ExtractedPieces(ex, m, files[1..]);
      FlattenCons(ExtractFile(ex, m.cacheKey, m.files, files[0]), ExtractAll(ex, m.cacheKey, m.files, files[1..]));
      FreshCons(ex, m, files[0], files[1..]);
      assert [files[0]] + files[1..] == files;
    }
  }

  lemma FreshCons(ex: Extractor, m: Manifest, f: BranchFile, rest: seq<BranchFile>)
    ensures FreshPieces(ex, m, [f] + rest) == Pieces(ExtractFile(ex, m.cacheKey, m.files, f).chunks) + FreshPieces(ex, m, rest)
  {
    FreshAppend(ex, m, [f], rest);
    FreshSnoc(ex, m, [], f);
    assert [] + [f] == [f];
  }

  lemma FlattenCons(e: ExtractedFile, rest: seq<ExtractedFile>)
    ensures Pieces(Flatten([e] + rest)) == Pieces(e.chunks) + Pieces(Flatten(rest))
  {
    assert ([e] + rest)[1..] == rest;
    PiecesAppend(e.chunks, Flatten(rest));
  }

  lemma PiecesAppend(a: seq<Chunk>, b: seq<Chunk>)
    ensures Pieces(a + b) == Pieces(a) + Pieces(b)
  {
    ImageAppend(ChunkPiece(), a, b);
  }

  /** Files drawn from the listing without repetition have distinct paths. */
  lemma DrawnFiles(files: seq<BranchFile>, drawn: seq<BranchFile>)
    requires DistinctPaths(files) && multiset(drawn) <= multiset(files)
    ensures DistinctPaths(drawn) && forall f :: f in drawn ==> f in files
  {
    forall f | f in drawn ensures f in files {
      assert f in multiset(drawn);
    }
    assert Distinct(files);
    DistinctMultiset(files);
    DistinctMultiset(drawn);
    forall i, j | 0 <= i < j < |drawn| ensures drawn[i].path != drawn[j].path {
      if drawn[i].path == drawn[j].path {
        SameFile(files, drawn[i], drawn[j]);
      }
    }
  }

  lemma {:induction false} ExtractAllFaithful(ex: Extractor, m: Manifest, files: seq<BranchFile>)
    requires ex.WellFormed() && DistinctPaths(files) && forall f :: f in files ==> f in m.files
    ensures ExtractionFaithful(ex, m, BranchExtraction(ExtractAll(ex, m.cacheKey, m.files, files), []))
    ensures var all := ExtractAll(ex, m.cacheKey, m.files, files);
            |all| == |files| && forall i :: 0 <= i < |all| ==> all[i] == ExtractFile(ex, m.cacheKey, m.files, files[i])
  {
    if files != [] {
      ExtractAllFaithful(ex, m, files[1..]);
    }
  }

  /** What a pass over a ref draws from its files. */
  lemma RefFiles(ex: Extractor, s: StoreState, r: RefListing)
    requires ManifestWellFormed(r.manifest)
    ensures var toExtract, kept := RefToExtract(ex, s, r), RefKept(ex, s, r);
            && multiset(kept) + multiset(toExtract) <= multiset(r.manifest.files)
            && DistinctPaths(toExtract) && DistinctPaths(kept)
            && (forall f :: f in toExtract ==> f in r.manifest.files)
            && (forall f :: f in kept ==> f in r.manifest.files && IsHit(s.cache, r.manifest.cacheKey, f))
  {
    var m := r.manifest;
    var ids := RefModuleIds(ex, s, r);
    var misses := Misses(s.cache, m.cacheKey, m.files);
    SplitFiles(s.cache, m.cacheKey, m.files);
    SplitHits(s.cache, m.cacheKey, ids, RefHits(s, r));
    NonEmptySub(r.sizes, misses);
    assert multiset(RefToExtract(ex, s, r)) == multiset(RefMisses(s, r)) + multiset(RefDemoted(ex, s, r));
    DrawnFiles(m.files, RefToExtract(ex, s, r));
    DrawnFiles(m.files, RefKept(ex, s, r));
    KeptAreHits(s.cache, m.cacheKey, ids, RefHits(s, r));
    HitsAre(s.cache, m.cacheKey, m.files);
  }

  // ----- the hits' rows

  lemma ChunkIdsAppend(a: seq<Membership>, b: seq<Membership>)
    ensures ChunkIds(a + b) == ChunkIds(a) + ChunkIds(b)
  {
  }

  /** The ids the hits' rows name, one more file at a time. */
  lemma ReadAllIds(cache: map<CacheKey, Extraction>, key: string, files: seq<BranchFile>)
    requires files != [] && forall f :: f in files ==> KeyOf(f, key) in cache
    requires forall f :: f in files[..|files| - 1] ==> KeyOf(f, key) in cache
    ensures ChunkIds(CachedRows(ReadAll(cache, key, files)))
            == ChunkIds(CachedRows(ReadAll(cache, key, files[..|files| - 1]))) + SpanIds(cache[KeyOf(files[|files| - 1], key)].spans)
  {
    var f := files[|files| - 1];
    var own := SpanRows(f.path, cache[KeyOf(f, key)].spans);
    ReadAllSnoc(cache, key, files);
    ChunkIdsAppend(CachedRows(ReadAll(cache, key, files[..|files| - 1])), own);
    assert ChunkIds(own) == SpanIds(cache[KeyOf(f, key)].spans);
  }

  lemma {:induction false} ReadAllRows(cache: map<CacheKey, Extraction>, key: string, files: seq<BranchFile>)
    requires forall f :: f in files ==> KeyOf(f, key) in cache
    ensures forall id :: id in ChunkIds(CachedRows(ReadAll(cache, key, files)))
                         <==> exists f :: f in files && id in SpanIds(cache[KeyOf(f, key)].spans)
  {
    if files != [] {
      var earlier, f := files[..|files| - 1], files[|files| - 1];
      assert f in files && forall g :: g in earlier ==> g in files;
      assert forall g :: g in files <==> g in earlier || g == f;
      ReadAllRows(cache, key, earlier);
      ReadAllIds(cache, key, files);
    }
  }

  lemma ReadAllSnoc(cache: map<CacheKey, Extraction>, key: string, files: seq<BranchFile>)
    requires files != [] && forall f :: f in files ==> KeyOf(f, key) in cache
    requires forall f :: f in files[..|files| - 1] ==> KeyOf(f, key) in cache
    ensures var f := files[|files| - 1];
            CachedRows(ReadAll(cache, key, files))
            == CachedRows(ReadAll(cache, key, files[..|files| - 1])) + SpanRows(f.path, cache[KeyOf(f, key)].spans)
  {
    var all := ReadAll(cache, key, files);
    assert all[..|all| - 1] == ReadAll(cache, key, files[..|files| - 1]);
  }

  /** Two hits that claim one chunk id. */
  ghost predicate HitsClash(cache: map<CacheKey, Extraction>, key: string, files: seq<BranchFile>) {
    exists f, g, id :: f in files && g in files && f != g && KeyOf(f, key) in cache && KeyOf(g, key) in cache
                       && id in SpanIds(cache[KeyOf(f, key)].spans) && id in SpanIds(cache[KeyOf(g, key)].spans)
  }

  /** Each file's cached spans name distinct ids. */
  ghost predicate SpansDistinct(cache: map<CacheKey, Extraction>, key: string, files: seq<BranchFile>) {
    forall f :: f in files ==> KeyOf(f, key) in cache && Distinct(SpanIds(cache[KeyOf(f, key)].spans))
  }

  /** `f`'s row names an id that an earlier file's names. */
  ghost predicate ClashesWith(cache: map<CacheKey, Extraction>, key: string, earlier: seq<BranchFile>, f: BranchFile) {
    exists g, id :: g in earlier && KeyOf(g, key) in cache && KeyOf(f, key) in cache
                    && id in SpanIds(cache[KeyOf(g, key)].spans) && id in SpanIds(cache[KeyOf(f, key)].spans)
  }

  /** The hits' rows repeat an id exactly when two hits claim it. */
  lemma {:induction false} ReadAllDistinct(cache: map<CacheKey, Extraction>, key: string, files: seq<BranchFile>)
    requires SpansDistinct(cache, key, files) && Distinct(files)
    ensures Distinct(ChunkIds(CachedRows(ReadAll(cache, key, files)))) <==> !HitsClash(cache, key, files)
  {
    if files != [] {
      var earlier, f := files[..|files| - 1], files[|files| - 1];
      assert files == earlier + [f] && f in files;
      assert f !in earlier;
      ReadAllDistinct(cache, key, earlier);
      ReadAllDistinctStep(cache, key, earlier, f);
      ClashSnoc(cache, key, earlier, f);
    }
  }

  lemma ReadAllDistinctStep(cache: map<CacheKey, Extraction>, key: string, earlier: seq<BranchFile>, f: BranchFile)
    requires SpansDistinct(cache, key, earlier + [f]) && SpansDistinct(cache, key, earlier)
    ensures Distinct(ChunkIds(CachedRows(ReadAll(cache, key, earlier + [f]))))
            <==> Distinct(ChunkIds(CachedRows(ReadAll(cache, key, earlier)))) && !ClashesWith(cache, key, earlier, f)
  {
    var files := earlier + [f];
    assert f in files && files[..|files| - 1] == earlier && files[|files| - 1] == f;
    ReadAllRows(cache, key, earlier);
    ReadAllIds(cache, key, files);
    var ids, own := ChunkIds(CachedRows(ReadAll(cache, key, earlier))), SpanIds(cache[KeyOf(f, key)].spans);
    DistinctAppend(ids, own);
    if !(Elems(ids) !! Elems(own)) {
      var id :| id in ids && id in own;
      var g :| g in earlier && id in SpanIds(cache[KeyOf(g, key)].spans);
      assert KeyOf(g, key) in cache;
    }
    if ClashesWith(cache, key, earlier, f) {
      var g, id :| g in earlier && KeyOf(g, key) in cache && id in SpanIds(cache[KeyOf(g, key)].spans) && id in own;
      assert id in Elems(ids) && id in Elems(own);
    }
  }

  lemma ClashSnoc(cache: map<CacheKey, Extraction>, key: string, earlier: seq<BranchFile>, f: BranchFile)
    requires f !in earlier
    ensures HitsClash(cache, key, earlier + [f]) <==> HitsClash(cache, key, earlier) || ClashesWith(cache, key, earlier, f)
  {
    var files := earlier + [f];
    if HitsClash(cache, key, files) {
      var a, b, id :| a in files && b in files && a != b && KeyOf(a, key) in cache && KeyOf(b, key) in cache
                      && id in SpanIds(cache[KeyOf(a, key)].spans) && id in SpanIds(cache[KeyOf(b, key)].spans);
      assert a == f || a in earlier;
      assert b == f || b in earlier;
    }
    if ClashesWith(cache, key, earlier, f) {
      var g, id :| g in earlier && KeyOf(g, key) in cache && KeyOf(f, key) in cache
                   && id in SpanIds(cache[KeyOf(g, key)].spans) && id in SpanIds(cache[KeyOf(f, key)].spans);
      assert g in files && f in files && g != f;
    }
  }

  /** Every id a hit claims is a live project chunk. */
  lemma ClaimedLive(ex: Extractor, s: StoreState, r: RefListing)
    requires TablesHold(ex, s) && ManifestWellFormed(r.manifest)
    ensures forall id :: id in Claimed(RefInput(ex, s, r)) ==> Live(s.chunks, id)
  {
    RefFiles(ex, s, r);
    var key := r.manifest.cacheKey;
    ReadAllRows(s.cache, key, RefKept(ex, s, r));
    forall id | id in Claimed(RefInput(ex, s, r)) ensures Live(s.chunks, id) {
      var f :| f in RefKept(ex, s, r) && id in SpanIds(s.cache[KeyOf(f, key)].spans);
      var row := s.cache[KeyOf(f, key)];
      assert RowFaithful(ex, s.chunks, KeyOf(f, key), row);
      var i :| 0 <= i < |row.spans| && SpanIds(row.spans)[i] == id;
      assert row.spans[i] in row.spans;
    }
  }

  // ----- what the pass keeps

  /** The assignment of the pass, and the tables with its new rows. */
  lemma PassAssigned(ex: Extractor, s: StoreState, r: RefListing, choice: Choice)
    requires TablesHold(ex, s) && ManifestWellFormed(r.manifest) && ValidPassChoice(s, RefInput(ex, s, r), choice)
    ensures var input := RefInput(ex, s, r);
            var asg, t := PassAssignments(input, choice), InsertedRows(s, Added(choice, PassChunks(input)), choice.newIds);
            && multiset(KeptChunks(asg)) == multiset(PassChunks(input))
            && Distinct(KeptIds(asg)) && Elems(KeptIds(asg)) !! Claimed(input)
            && Resolves(t.chunks, asg)
            && (forall id :: id in choice.newIds ==> id in KeptIds(asg))
            && TablesHold(ex, t) && Extends(s.chunks, t.chunks)
  {
    var input := RefInput(ex, s, r);
    ClaimedLive(ex, s, r);
    AssignedFacts(s, Claimed(input), PassChunks(input), choice);
    InsertKeeps(ex, s, Added(choice, PassChunks(input)), choice.newIds);
  }

  lemma PassRowIds(input: PassInput, choice: Choice)
    requires Fits(choice, PassChunks(input))
    ensures ChunkIds(PassRows(input, choice)) == ChunkIds(CachedRows(input.cached)) + KeptIds(PassAssignments(input, choice))
  {
    ChunkIdsAppend(CachedRows(input.cached), MembershipRows(PassAssignments(input, choice)));
    assert ChunkIds(MembershipRows(PassAssignments(input, choice))) == KeptIds(PassAssignments(input, choice));
  }

  lemma KeptSpansDistinct(ex: Extractor, s: StoreState, r: RefListing)
    requires TablesHold(ex, s) && ManifestWellFormed(r.manifest)
    ensures SpansDistinct(s.cache, r.manifest.cacheKey, RefKept(ex, s, r)) && Distinct(RefKept(ex, s, r))
  {
    RefFiles(ex, s, r);
    forall f | f in RefKept(ex, s, r) ensures Distinct(SpanIds(s.cache[KeyOf(f, r.manifest.cacheKey)].spans)) {
      assert RowFaithful(ex, s.chunks, KeyOf(f, r.manifest.cacheKey), s.cache[KeyOf(f, r.manifest.cacheKey)]);
    }
  }

  /** Pass keys: a pass's rows have pairwise distinct chunk ids, so its membership
      can be inserted, exactly when its kept hits claim no id twice. The assigned
      rows never add a repetition, whatever ids the new rows reuse. */
  lemma PassKeys(ex: Extractor, s: StoreState, r: RefListing, choice: Choice)
    requires TablesHold(ex, s) && ManifestWellFormed(r.manifest) && ValidPassChoice(s, RefInput(ex, s, r), choice)
    ensures Distinct(ChunkIds(PassRows(RefInput(ex, s, r), choice)))
            <==> !HitsClash(s.cache, r.manifest.cacheKey, RefKept(ex, s, r))
  {
    var input := RefInput(ex, s, r);
    var asg := PassAssignments(input, choice);
    PassAssigned(ex, s, r, choice);
    PassRowIds(input, choice);
    DistinctAppend(ChunkIds(CachedRows(input.cached)), KeptIds(asg));
    RefFiles(ex, s, r);
    KeptSpansDistinct(ex, s, r);
    ReadAllDistinct(s.cache, r.manifest.cacheKey, RefKept(ex, s, r));
  }

  lemma PassCacheFaithful(ex: Extractor, s: StoreState, r: RefListing, choice: Choice)
    requires TablesHold(ex, s) && ex.WellFormed() && ManifestWellFormed(r.manifest)
    requires ValidPassChoice(s, RefInput(ex, s, r), choice)
    ensures var t := PassBeforeGc(s, RefInput(ex, s, r), choice);
            CacheFaithful(ex, t.chunks, t.cache)
  {
    var input, m := RefInput(ex, s, r), r.manifest;
    var t := InsertedRows(s, Added(choice, PassChunks(input)), choice.newIds);
    PassAssigned(ex, s, r, choice);
    RefFiles(ex, s, r);
    ExtractAllFaithful(ex, m, RefToExtract(ex, s, r));
    InsertedRowsAre(s, Added(choice, PassChunks(input)), choice.newIds);
    assert CacheFaithful(ex, t.chunks, s.cache);
    var extraction := BranchExtraction(Extracted(input), []);
    assert extraction.AllChunks() == PassChunks(input);
    CacheWrittenFaithful(ex, m, extraction, t.chunks, PassAssignments(input, choice), s.cache);
  }

  lemma PassRowsLive(ex: Extractor, s: StoreState, r: RefListing, choice: Choice)
    requires TablesHold(ex, s) && ManifestWellFormed(r.manifest) && ValidPassChoice(s, RefInput(ex, s, r), choice)
    ensures var t := PassBeforeGc(s, RefInput(ex, s, r), choice);
            forall id :: id in ChunkIds(PassRows(RefInput(ex, s, r), choice)) ==> Live(t.chunks, id)
  {
    var input := RefInput(ex, s, r);
    var asg, t := PassAssignments(input, choice), PassBeforeGc(s, input, choice);
    PassAssigned(ex, s, r, choice);
    ClaimedLive(ex, s, r);
    PassRowIds(input, choice);
    forall id | id in ChunkIds(PassRows(input, choice)) ensures Live(t.chunks, id) {
      if id in KeptIds(asg) {
        var i :| 0 <= i < |asg| && KeptIds(asg)[i] == id;
        assert asg[i] in asg;
      } else {
        assert id in Claimed(input) && Live(s.chunks, id);
      }
    }
  }

  /** A pass that can insert its membership keeps the store invariant, whichever
      freed ids its new rows reuse. */
  lemma PassKeepsInvariant(ex: Extractor, s: StoreState, r: RefListing, choice: Choice)
    requires StoreHolds(ex, s) && ex.WellFormed() && ManifestWellFormed(r.manifest)
    requires ValidPassChoice(s, RefInput(ex, s, r), choice)
    requires !HitsClash(s.cache, r.manifest.cacheKey, RefKept(ex, s, r))
    ensures StoreHolds(ex, PassResult(s, RefInput(ex, s, r), choice))
  {
    var input := RefInput(ex, s, r);
    var t := PassBeforeGc(s, input, choice);
    var inserted := InsertedRows(s, Added(choice, PassChunks(input)), choice.newIds);
    PassKeys(ex, s, r, choice);
    PassAssigned(ex, s, r, choice);
    PassCacheFaithful(ex, s, r, choice);
    PassRowsLive(ex, s, r, choice);
    InsertedRowsAre(s, Added(choice, PassChunks(input)), choice.newIds);
    ReplacingKeeps(t.chunks, inserted.membership, r.manifest.name, PassRows(input, choice));
    CollectKeeps(ex, t, Some(r.manifest.cacheKey));
  }

  // ----- cache refinement

  /** A torn row: the stored tree names one module, the chunks its spans name carry
      another. The upsert makes one when it rewrites the spans and keeps the tree. */
  predicate Torn(chunks: map<int, ChunkRow>, row: Extraction) {
    row.tree.Some? && exists span :: span in row.spans && HashAt(chunks, span.chunkId).Some?
                                     && HashAt(chunks, span.chunkId).value.module_ != row.tree.value.qualifiedName
  }

  /** The guard of the reuse: some hit the pass keeps is torn. */
  predicate KeepsTornHit(ex: Extractor, s: StoreState, r: RefListing) {
    exists f :: f in RefKept(ex, s, r) && KeyOf(f, r.manifest.cacheKey) in s.cache
                && Torn(s.chunks, s.cache[KeyOf(f, r.manifest.cacheKey)])
  }

  /** A Python hit the pass keeps has the branch's module id as its tree's root. */
  lemma KeptModule(ex: Extractor, s: StoreState, r: RefListing, f: BranchFile)
    requires ManifestWellFormed(r.manifest) && TablesHold(ex, s) && f in RefKept(ex, s, r)
    ensures var k := KeyOf(f, r.manifest.cacheKey);
            k in s.cache && s.cache[k].tree.Some?
            && s.cache[k].tree.value.qualifiedName == ModuleOf(ex, r.manifest.files, f.path)
  {
    RefFiles(ex, s, r);
    var m := r.manifest;
    var ids := RefModuleIds(ex, s, r);
    KeptAreHits(s.cache, m.cacheKey, ids, RefHits(s, r));
    var k := KeyOf(f, m.cacheKey);
    assert RowFaithful(ex, s.chunks, k, s.cache[k]);
    if IsPython(f.path) {
      assert f in MarkerFiles(m.files) + RefHits(s, r) + RefMisses(s, r);
      assert f.path in ids && ids[f.path] == ex.rootedModule(MarkerPaths(m.files), f.path);
    }
  }

  /** What a faithful row's chunks say about the module it was extracted under. */
  lemma RowModule(ex: Extractor, chunks: map<int, ChunkRow>, k: CacheKey, row: Extraction, m: string)
    requires ex.WellFormed() && Produced(ex, chunks, k, row, m)
    ensures forall span :: span in row.spans ==>
              HashAt(chunks, span.chunkId).Some? && HashAt(chunks, span.chunkId).value.module_ == m
  {
    forall span | span in row.spans
      ensures HashAt(chunks, span.chunkId).Some? && HashAt(chunks, span.chunkId).value.module_ == m
    {
      var piece := SpanPiece(chunks, k.path)(span);
      var i :| 0 <= i < |row.spans| && row.spans[i] == span;
      ImageMember(SpanPiece(chunks, k.path), row.spans, piece);
      var fresh_ := ex.chunks(k.blob, k.path, m, k.key);
      ImageMember(ChunkPiece(), fresh_, piece);
      var j :| 0 <= j < |fresh_| && ChunkPiece()(fresh_[j]) == piece;
      assert fresh_[j] in fresh_;
    }
  }

  /** A kept hit that is not torn gives what extracting the file afresh gives. */
  lemma UntornHit(ex: Extractor, s: StoreState, r: RefListing, f: BranchFile)
    requires ex.WellFormed() && ManifestWellFormed(r.manifest) && TablesHold(ex, s) && f in RefKept(ex, s, r)
    requires KeyOf(f, r.manifest.cacheKey) in s.cache
    requires !Torn(s.chunks, s.cache[KeyOf(f, r.manifest.cacheKey)])
    ensures SpanViews(s.chunks, f.path, s.cache[KeyOf(f, r.manifest.cacheKey)].spans)
            == Pieces(ExtractFile(ex, r.manifest.cacheKey, r.manifest.files, f).chunks)
  {
    KeptModule(ex, s, r, f);
    var k := KeyOf(f, r.manifest.cacheKey);
    var row := s.cache[k];
    assert RowFaithful(ex, s.chunks, k, row);
    var m :| Produced(ex, s.chunks, k, row, m);
    RowModule(ex, s.chunks, k, row, m);
    if row.spans != [] {
      assert row.spans[0] in row.spans;
    }
    assert m == ModuleOf(ex, r.manifest.files, f.path);
  }

  lemma {:induction false} CachedViews(ex: Extractor, s: StoreState, r: RefListing, files: seq<BranchFile>)
    requires ex.WellFormed() && ManifestWellFormed(r.manifest) && TablesHold(ex, s)
    requires forall f :: f in files ==> f in RefKept(ex, s, r) && KeyOf(f, r.manifest.cacheKey) in s.cache
                                        && !Torn(s.chunks, s.cache[KeyOf(f, r.manifest.cacheKey)])
    ensures Views(s.chunks, CachedRows(ReadAll(s.cache, r.manifest.cacheKey, files))) == FreshPieces(ex, r.manifest, files)
  {
    if files != [] {
      var key := r.manifest.cacheKey;
      var earlier, f := files[..|files| - 1], files[|files| - 1];
      assert f in files && forall g :: g in earlier ==> g in files;
      CachedViews(ex, s, r, earlier);
      UntornHit(ex, s, r, f);
      ReadAllSnoc(s.cache, key, files);
      var spans := s.cache[KeyOf(f, key)].spans;
      ImageAppend(RowPiece(s.chunks), CachedRows(ReadAll(s.cache, key, earlier)), SpanRows(f.path, spans));
      SpanRowsViews(s.chunks, f.path, spans);
    }
  }

  /** Every fresh piece carries the module this layout gives its path. */
  lemma {:induction false} FreshModules(ex: Extractor, m: Manifest, files: seq<BranchFile>, piece: Piece)
    requires ex.WellFormed() && piece in FreshPieces(ex, m, files)
    ensures piece.hash.Some? && piece.hash.value.module_ == ModuleOf(ex, m.files, piece.path)
  {
    var f := files[|files| - 1];
    var chunks := ExtractFile(ex, m.cacheKey, m.files, f).chunks;
    if piece in Pieces(chunks) {
      ImageMember(ChunkPiece(), chunks, piece);
      var j :| 0 <= j < |chunks| && ChunkPiece()(chunks[j]) == piece;
      assert chunks[j] in chunks;
    } else {
      FreshModules(ex, m, files[..|files| - 1], piece);
    }
  }

  /** A torn hit leaves a row under the file's path with another module's content. */
  lemma TornHitShows(ex: Extractor, s: StoreState, r: RefListing) returns (piece: Piece)
    requires ex.WellFormed() && ManifestWellFormed(r.manifest) && TablesHold(ex, s) && KeepsTornHit(ex, s, r)
    ensures piece in Views(s.chunks, CachedRows(RefInput(ex, s, r).cached))
    ensures piece.hash.Some? && piece.hash.value.module_ != ModuleOf(ex, r.manifest.files, piece.path)
  {
    var key, kept := r.manifest.cacheKey, RefKept(ex, s, r);
    RefFiles(ex, s, r);
    var f :| f in kept && KeyOf(f, key) in s.cache && Torn(s.chunks, s.cache[KeyOf(f, key)]);
    var row := s.cache[KeyOf(f, key)];
    KeptModule(ex, s, r, f);
    var span :| span in row.spans && HashAt(s.chunks, span.chunkId).Some?
                && HashAt(s.chunks, span.chunkId).value.module_ != row.tree.value.qualifiedName;
    piece := SpanPiece(s.chunks, f.path)(span);
    CachedRowOf(s.cache, key, kept, f, span);
    var rows := CachedRows(ReadAll(s.cache, key, kept));
    var i :| 0 <= i < |rows| && rows[i] == Membership(span.chunkId, f.path, span.start, span.end, TreeSlice);
    ImageMember(RowPiece(s.chunks), rows, piece);
  }

  lemma {:induction false} CachedRowOf(cache: map<CacheKey, Extraction>, key: string, files: seq<BranchFile>, f: BranchFile, span: Span)
    requires forall g :: g in files ==> KeyOf(g, key) in cache
    requires f in files && span in cache[KeyOf(f, key)].spans
    ensures Membership(span.chunkId, f.path, span.start, span.end, TreeSlice) in CachedRows(ReadAll(cache, key, files))
  {
    var earlier, last := files[..|files| - 1], files[|files| - 1];
    assert files == earlier + [last] && forall g :: g in earlier ==> g in files;
    ReadAllSnoc(cache, key, files);
    if f in earlier {
      CachedRowOf(cache, key, earlier, f, span);
    } else {
      var i :| 0 <= i < |cache[KeyOf(f, key)].spans| && cache[KeyOf(f, key)].spans[i] == span;
      assert SpanRows(f.path, cache[KeyOf(f, key)].spans)[i] == Membership(span.chunkId, f.path, span.start, span.end, TreeSlice);
    }
  }

  /** The pass's rows resolve to the hits' rows plus the extracted files' pieces. */
  lemma PassViews(ex: Extractor, s: StoreState, r: RefListing, choice: Choice)
    requires ex.WellFormed() && ManifestWellFormed(r.manifest) && TablesHold(ex, s)
    requires ValidPassChoice(s, RefInput(ex, s, r), choice)
    ensures var input := RefInput(ex, s, r);
            Views(PassResult(s, input, choice).chunks, PassRows(input, choice))
            == Views(s.chunks, CachedRows(input.cached)) + FreshPieces(ex, r.manifest, RefToExtract(ex, s, r))
  {
    var input := RefInput(ex, s, r);
    var asg := PassAssignments(input, choice);
    var t, after := PassBeforeGc(s, input, choice), PassResult(s, input, choice);
    PassAssigned(ex, s, r, choice);
    RowsSurvive(s, input, choice);
    var cached := CachedRows(input.cached);
    HitsKeepTheirHashes(ex, s, r, choice);
    SameHashesSameViews(after.chunks, s.chunks, cached);
    forall row | row in MembershipRows(asg) ensures HashAt(after.chunks, row.chunkId) == HashAt(t.chunks, row.chunkId) {
      assert row in PassRows(input, choice);
    }
    SameHashesSameViews(after.chunks, t.chunks, MembershipRows(asg));
    AssignedViews(t.chunks, asg);
    ImageAppend(RowPiece(after.chunks), cached, MembershipRows(asg));
    ChunksAreExtracted(ex, s, r, choice);
  }

  lemma HitsKeepTheirHashes(ex: Extractor, s: StoreState, r: RefListing, choice: Choice)
    requires ManifestWellFormed(r.manifest) && TablesHold(ex, s) && ValidPassChoice(s, RefInput(ex, s, r), choice)
    ensures var input := RefInput(ex, s, r);
            forall row :: row in CachedRows(input.cached) ==> HashAt(PassResult(s, input, choice).chunks, row.chunkId) == HashAt(s.chunks, row.chunkId)
  {
    var input := RefInput(ex, s, r);
    var cached := CachedRows(input.cached);
    PassAssigned(ex, s, r, choice);
    ClaimedLive(ex, s, r);
    RowsSurvive(s, input, choice);
    forall row | row in cached ensures HashAt(PassResult(s, input, choice).chunks, row.chunkId) == HashAt(s.chunks, row.chunkId) {
      var i :| 0 <= i < |cached| && cached[i] == row;
      assert ChunkIds(cached)[i] == row.chunkId && row.chunkId in Claimed(input);
      assert PassRows(input, choice)[i] == row;
    }
  }

  lemma SameHashesSameViews(chunks: map<int, ChunkRow>, others: map<int, ChunkRow>, rows: seq<Membership>)
    requires forall row :: row in rows ==> HashAt(chunks, row.chunkId) == HashAt(others, row.chunkId)
    ensures Views(chunks, rows) == Views(others, rows)
  {
    ImageAgrees(RowPiece(chunks), RowPiece(others), rows);
  }

  /** What the pass assigns is what it extracts. */
  lemma ChunksAreExtracted(ex: Extractor, s: StoreState, r: RefListing, choice: Choice)
    requires ex.WellFormed() && ManifestWellFormed(r.manifest) && TablesHold(ex, s)
    requires ValidPassChoice(s, RefInput(ex, s, r), choice)
    ensures Pieces(KeptChunks(PassAssignments(RefInput(ex, s, r), choice))) == FreshPieces(ex, r.manifest, RefToExtract(ex, s, r))
  {
    var input := RefInput(ex, s, r);
    var asg := PassAssignments(input, choice);
    PassAssigned(ex, s, r, choice);
    ImagePermutes(ChunkPiece(), KeptChunks(asg), PassChunks(input));
    ExtractedPieces(ex, r.manifest, RefToExtract(ex, s, r));
    assert PassChunks(input) == Flatten(ExtractAll(ex, r.manifest.cacheKey, r.manifest.files, RefToExtract(ex, s, r)));
  }

  /** The GC at the end of a pass frees nothing the pass's own rows name. */
  lemma RowsSurvive(s: StoreState, input: PassInput, choice: Choice)
    requires Fits(choice, PassChunks(input))
    ensures var t, after := PassBeforeGc(s, input, choice), PassResult(s, input, choice);
            && RowsOf(after.membership, input.manifest.name) == PassRows(input, choice)
            && forall row :: row in PassRows(input, choice) ==> HashAt(after.chunks, row.chunkId) == HashAt(t.chunks, row.chunkId)
  {
    var t := PassBeforeGc(s, input, choice);
    var rows := PassRows(input, choice);
    assert RowsOf(t.membership, input.manifest.name) == rows;
    forall row | row in rows ensures row.chunkId in t.chunks ==> Named(t, row.chunkId) {
      var i :| 0 <= i < |rows| && rows[i] == row;
      assert ChunkIds(rows)[i] == row.chunkId;
      assert input.manifest.name in t.membership && row.chunkId in ChunkIds(t.membership[input.manifest.name]);
    }
  }

  /** Cache refinement: after a committed pass the branch's membership, read as a
      multiset of path, span and content, is what extracting every file of the ref
      afresh would give, exactly when no hit the pass keeps is torn. */
  lemma CacheRefinement(ex: Extractor, s: StoreState, r: RefListing, choice: Choice)
    requires ex.WellFormed() && ManifestWellFormed(r.manifest) && EmptyFilesAreEmpty(ex, r) && TablesHold(ex, s)
    requires ValidPassChoice(s, RefInput(ex, s, r), choice)
    ensures var after := PassResult(s, RefInput(ex, s, r), choice);
            Views(after.chunks, RowsOf(after.membership, r.manifest.name)) == FreshPieces(ex, r.manifest, r.manifest.files)
            <==> !KeepsTornHit(ex, s, r)
  {
    var m, input, kept := r.manifest, RefInput(ex, s, r), RefKept(ex, s, r);
    RowsSurvive(s, input, choice);
    PassViews(ex, s, r, choice);
    if KeepsTornHit(ex, s, r) {
      var piece := TornHitShows(ex, s, r);
      if piece in FreshPieces(ex, m, m.files) {
        FreshModules(ex, m, m.files, piece);
      }
    } else {
      RefFiles(ex, s, r);
      CachedViews(ex, s, r, kept);
      RefFresh(ex, s, r);
    }
  }

  /** The kept hits' and the extracted files' fresh pieces are the whole ref's. */
  lemma RefFresh(ex: Extractor, s: StoreState, r: RefListing)
    requires ManifestWellFormed(r.manifest) && EmptyFilesAreEmpty(ex, r)
    ensures FreshPieces(ex, r.manifest, RefKept(ex, s, r)) + FreshPieces(ex, r.manifest, RefToExtract(ex, s, r))
            == FreshPieces(ex, r.manifest, r.manifest.files)
  {
    var m := r.manifest;
    var hits, misses := RefHits(s, r), Misses(s.cache, m.cacheKey, m.files);
    var kept, demoted := RefKept(ex, s, r), RefDemoted(ex, s, r);
    SplitFiles(s.cache, m.cacheKey, m.files);
    SplitHits(s.cache, m.cacheKey, RefModuleIds(ex, s, r), hits);
    HitsAre(s.cache, m.cacheKey, m.files);
    SkippedAreEmpty(ex, r, misses);
    FreshAppend(ex, m, RefMisses(s, r), demoted);
    FreshAppend(ex, m, kept, demoted);
    FreshPermutes(ex, m, kept + demoted, hits);
    FreshAppend(ex, m, hits, misses);
    FreshPermutes(ex, m, hits + misses, m.files);
  }
}
