/** What every reachable bundle satisfies although freed chunk ids are reused, and
    that both passes and the GC keep it. */
module StoreInvariant {
  import opened Common
  import opened BranchRecords
  import opened BundleTables
  import opened ExtractionCache
  import opened ChunkDiff
  import opened BranchPass
  import opened PassFacts

  predicate Live(chunks: map<int, ChunkRow>, id: int) {
    id in chunks && chunks[id].package == PROJECT_PACKAGE
  }

  /** Membership names live project chunks, each at most once per branch. */
  ghost predicate MembershipLive(chunks: map<int, ChunkRow>, membership: map<string, seq<Membership>>) {
    forall b :: b in membership ==>
      Distinct(ChunkIds(membership[b])) && forall id :: id in ChunkIds(membership[b]) ==> Live(chunks, id)
  }

  /** A vector sits under a live id and was computed from the content now at that id. */
  ghost predicate VectorsOwn(chunks: map<int, ChunkRow>, vectors: map<int, ContentHash>) {
    forall id :: id in vectors ==> id in chunks && chunks[id].hash == Some(vectors[id])
  }

  /** `row`'s spans, read through the chunk rows they name, are what extracting the
      blob at the path under module `m` gives. */
  ghost predicate Produced(ex: Extractor, chunks: map<int, ChunkRow>, k: CacheKey, row: Extraction, m: string) {
    && SpanViews(chunks, k.path, row.spans) == Pieces(ex.chunks(k.blob, k.path, m, k.key))
    && (!IsPython(k.path) ==> m == ex.docModule(k.path))
    && (row.spans == [] ==> row.tree.Some? && row.tree.value.qualifiedName == m)
  }

  /** A cache row names live chunks whose content is what was cached, never a reused id. */
  ghost predicate RowFaithful(ex: Extractor, chunks: map<int, ChunkRow>, k: CacheKey, row: Extraction) {
    && Distinct(SpanIds(row.spans))
    && (forall span :: span in row.spans ==> Live(chunks, span.chunkId))
    && (exists m :: Produced(ex, chunks, k, row, m))
    && (!IsPython(k.path) && row.tree.Some? ==> row.tree.value.qualifiedName == ex.docModule(k.path))
  }

  ghost predicate CacheFaithful(ex: Extractor, chunks: map<int, ChunkRow>, cache: map<CacheKey, Extraction>) {
    forall k :: k in cache ==> RowFaithful(ex, chunks, k, cache[k])
  }

  ghost predicate TablesHold(ex: Extractor, s: StoreState) {
    && MembershipLive(s.chunks, s.membership)
    && VectorsOwn(s.chunks, s.vectors)
    && CacheFaithful(ex, s.chunks, s.cache)
  }

  /** The invariant: the tables hold and nothing is left to collect. */
  ghost predicate StoreHolds(ex: Extractor, s: StoreState) {
    TablesHold(ex, s) && NothingToCollect(s)
  }

  /** Rows survive under the same content. */
  ghost predicate Extends(chunks: map<int, ChunkRow>, more: map<int, ChunkRow>) {
    forall id :: id in chunks ==> id in more && more[id] == chunks[id]
  }

  lemma FaithfulUnder(ex: Extractor, chunks: map<int, ChunkRow>, more: map<int, ChunkRow>, k: CacheKey, row: Extraction)
    requires RowFaithful(ex, chunks, k, row)
    requires forall span :: span in row.spans ==> span.chunkId in more && more[span.chunkId] == chunks[span.chunkId]
    ensures RowFaithful(ex, more, k, row)
  {
    var m :| Produced(ex, chunks, k, row, m);
    forall span | span in row.spans ensures SpanPiece(more, k.path)(span) == SpanPiece(chunks, k.path)(span) {
      assert Live(chunks, span.chunkId);
    }
    ImageAgrees(SpanPiece(more, k.path), SpanPiece(chunks, k.path), row.spans);
    assert Produced(ex, more, k, row, m);
  }

  /** Inserting under ids no row has keeps the tables: no stale vector or cache row
      is waiting for a reused id. */
  lemma InsertKeeps(ex: Extractor, s: StoreState, added: seq<Chunk>, ids: seq<int>)
    requires TablesHold(ex, s) && |added| == |ids| && AreNewIds(s, ids)
    ensures TablesHold(ex, InsertedRows(s, added, ids)) && Extends(s.chunks, InsertedRows(s, added, ids).chunks)
  {
    InsertedRowsAre(s, added, ids);
    var t := InsertedRows(s, added, ids);
    assert Extends(s.chunks, t.chunks);
    forall id | id in t.vectors ensures id in t.chunks && t.chunks[id].hash == Some(t.vectors[id]) {
      if id in ids {
        var i :| 0 <= i < |ids| && ids[i] == id;
      }
    }
    forall k | k in t.cache ensures RowFaithful(ex, t.chunks, k, t.cache[k]) {
      FaithfulUnder(ex, s.chunks, t.chunks, k, s.cache[k]);
    }
    forall b, id | b in t.membership && id in ChunkIds(t.membership[b]) ensures Live(t.chunks, id) {
      assert Live(s.chunks, id);
    }
  }

  /** The GC keeps what the tables hold: what it frees nothing names afterwards. */
  lemma CollectKeeps(ex: Extractor, s: StoreState, key: Option<string>)
    requires TablesHold(ex, s)
    ensures StoreHolds(ex, CollectGarbage(s, key))
  {
    var t := CollectGarbage(s, key);
    CollectingLeavesNothing(s, key);
    forall b, id | b in t.membership && id in ChunkIds(t.membership[b]) ensures Live(t.chunks, id) {
      assert Live(s.chunks, id) && Named(s, id);
    }
    forall k | k in t.cache ensures RowFaithful(ex, t.chunks, k, t.cache[k]) {
      assert CacheRowStays(s, k, Unnamed(s), key);
      assert RowFaithful(ex, s.chunks, k, s.cache[k]);
      FaithfulUnder(ex, s.chunks, t.chunks, k, s.cache[k]);
    }
  }

  // ----- the cache a pass writes

  /** The extraction is what the extractor gives for files of the manifest, under the
      module ids of the pass. */
  ghost predicate ExtractionFaithful(ex: Extractor, m: Manifest, extraction: BranchExtraction) {
    && FilesWellFormed(extraction.files)
    && (forall e :: e in extraction.files ==>
          && e.file in m.files
          && e.chunks == ex.chunks(e.file.blob, e.file.path, e.module_, m.cacheKey)
          && e.tree == ex.tree(e.file.blob, e.file.path, e.module_, m.cacheKey)
          && (!IsPython(e.file.path) ==> e.module_ == ex.docModule(e.file.path)))
    && (forall c :: c in extraction.loose ==> c.path == "")
  }

  ghost predicate ManifestWellFormed(m: Manifest) {
    DistinctPaths(m.files) && forall f :: f in m.files ==> f.path != ""
  }

  lemma SameFile(files: seq<BranchFile>, f: BranchFile, g: BranchFile)
    requires DistinctPaths(files) && f in files && g in files && f.path == g.path
    ensures f == g
  {
  }

  lemma OrderedViews(chunks: map<int, ChunkRow>, path: string, spans: seq<Span>)
    ensures SpanViews(chunks, path, InFileOrder(spans)) == SpanViews(chunks, path, spans)
    ensures |InFileOrder(spans)| == |spans|
  {
    InFileOrderSorts(spans);
    ImagePermutes(SpanPiece(chunks, path), InFileOrder(spans), spans);
    assert |multiset(InFileOrder(spans))| == |multiset(spans)|;
  }

  /** The chunks of one path among those a pass extracted. */
  lemma ExtractedByPath(ex: Extractor, m: Manifest, extraction: BranchExtraction, chunks: seq<Chunk>, path: string)
    requires ExtractionFaithful(ex, m, extraction) && path != ""
    requires multiset(chunks) == multiset(extraction.AllChunks())
    ensures multiset(PathChunks(chunks, path)) == multiset(ChunksOf(extraction.files, path))
  {
    PathChunksPermute(chunks, extraction.AllChunks(), path);
    PathChunksAppend(Flatten(extraction.files), extraction.loose, path);
    PathChunksOwn(extraction.loose, "", path);
    FlattenByPath(extraction.files, path);
    assert ChunksOf(extraction.files, path) + [] == ChunksOf(extraction.files, path);
  }

  /** The spans written for a file resolve to the file's own chunks. */
  lemma WrittenSpans(ex: Extractor, m: Manifest, extraction: BranchExtraction, chunks: map<int, ChunkRow>,
                     asg: seq<Assignment>, path: string)
    requires ExtractionFaithful(ex, m, extraction) && path != ""
    requires Resolves(chunks, asg) && multiset(KeptChunks(asg)) == multiset(extraction.AllChunks())
    ensures var spans := SpansOf(asg, path);
            && SpanViews(chunks, path, InFileOrder(spans)) == Pieces(ChunksOf(extraction.files, path))
            && |spans| == |ChunksOf(extraction.files, path)|
            && |InFileOrder(spans)| == |spans|
  {
    OrderedViews(chunks, path, SpansOf(asg, path));
    SpansOfViews(chunks, asg, path);
    var own := PathChunks(KeptChunks(asg), path);
    ExtractedByPath(ex, m, extraction, KeptChunks(asg), path);
    ImagePermutes(ChunkPiece(), own, ChunksOf(extraction.files, path));
    assert |multiset(own)| == |own|;
  }

  lemma SpansLive(chunks: map<int, ChunkRow>, asg: seq<Assignment>, path: string)
    requires Resolves(chunks, asg) && Distinct(KeptIds(asg))
    ensures var spans := InFileOrder(SpansOf(asg, path));
            Distinct(SpanIds(spans)) && forall span :: span in spans ==> Live(chunks, span.chunkId)
  {
    var spans := SpansOf(asg, path);
    InFileOrderSorts(spans);
    SpansOfDistinct(asg, path);
    SpansOfIds(asg, path);
    DistinctSpans(spans, InFileOrder(spans));
    forall span | span in InFileOrder(spans) ensures Live(chunks, span.chunkId) {
      assert span in multiset(spans);
      var i :| 0 <= i < |asg| && asg[i].1 == span.chunkId;
      assert asg[i] in asg;
    }
  }

  lemma DistinctSpans(a: seq<Span>, b: seq<Span>)
    requires multiset(a) == multiset(b) && Distinct(SpanIds(a))
    ensures Distinct(SpanIds(b))
  {
    var id := (span: Span) => span.chunkId;
    ImagePermutes(id, a, b);
    SpanIdsImage(id, a);
    SpanIdsImage(id, b);
    DistinctMultiset(SpanIds(a));
    DistinctMultiset(SpanIds(b));
  }

  lemma {:induction false} SpanIdsImage(id: Span -> int, spans: seq<Span>)
    requires forall span :: id(span) == span.chunkId
    ensures Image(id, spans) == multiset(SpanIds(spans))
  {
    if spans != [] {
      var n := |spans| - 1;
      SpanIdsImage(id, spans[..n]);
      assert SpanIds(spans) == SpanIds(spans[..n]) + [spans[n].chunkId];
    }
  }

  /** A file with a row has been extracted by this pass. */
  lemma RowMeansExtracted(ex: Extractor, m: Manifest, extraction: BranchExtraction, chunks: map<int, ChunkRow>,
                          asg: seq<Assignment>, f: BranchFile) returns (e: ExtractedFile)
    requires ExtractionFaithful(ex, m, extraction) && ManifestWellFormed(m) && f in m.files
    requires Resolves(chunks, asg) && multiset(KeptChunks(asg)) == multiset(extraction.AllChunks())
    requires HasRow(f, asg, extraction.files)
    ensures e in extraction.files && e.file == f && FindExtracted(extraction.files, f.path) == Some(e)
  {
    WrittenSpans(ex, m, extraction, chunks, asg, f.path);
    Found(extraction.files, f.path);
    e := FindExtracted(extraction.files, f.path).value;
    SameFile(m.files, e.file, f);
  }

  lemma WrittenRowFaithful(ex: Extractor, m: Manifest, extraction: BranchExtraction, chunks: map<int, ChunkRow>,
                           asg: seq<Assignment>, cache: map<CacheKey, Extraction>, f: BranchFile)
    requires ex.WellFormed() && ExtractionFaithful(ex, m, extraction) && ManifestWellFormed(m) && f in m.files
    requires Resolves(chunks, asg) && Distinct(KeptIds(asg)) && multiset(KeptChunks(asg)) == multiset(extraction.AllChunks())
    requires CacheFaithful(ex, chunks, cache) && HasRow(f, asg, extraction.files)
    ensures var k := KeyOf(f, m.cacheKey);
            RowFaithful(ex, chunks, k, Extraction(InFileOrder(SpansOf(asg, f.path)), TreeAfter(cache, k, extraction.files)))
  {
    var k := KeyOf(f, m.cacheKey);
    var e := RowMeansExtracted(ex, m, extraction, chunks, asg, f);
    WrittenSpans(ex, m, extraction, chunks, asg, f.path);
    SpansLive(chunks, asg, f.path);
    var row := Extraction(InFileOrder(SpansOf(asg, f.path)), TreeAfter(cache, k, extraction.files));
    assert Produced(ex, chunks, k, row, e.module_);
    if k in cache {
      assert RowFaithful(ex, chunks, k, cache[k]);
    }
  }

  lemma CacheWrittenFaithful(ex: Extractor, m: Manifest, extraction: BranchExtraction, chunks: map<int, ChunkRow>,
                             asg: seq<Assignment>, cache: map<CacheKey, Extraction>)
    requires ex.WellFormed() && ExtractionFaithful(ex, m, extraction) && ManifestWellFormed(m)
    requires Resolves(chunks, asg) && Distinct(KeptIds(asg)) && multiset(KeptChunks(asg)) == multiset(extraction.AllChunks())
    requires CacheFaithful(ex, chunks, cache)
    ensures CacheFaithful(ex, chunks, CacheWith(cache, m.files, m.cacheKey, asg, extraction.files))
  {
    var after := CacheWith(cache, m.files, m.cacheKey, asg, extraction.files);
    forall k | k in after ensures RowFaithful(ex, chunks, k, after[k]) {
      CacheWithAt(cache, m.files, m.cacheKey, asg, extraction.files, k);
      var f := BranchFile(k.path, k.blob);
      if k.key == m.cacheKey && f in m.files && HasRow(f, asg, extraction.files) {
        WrittenRowFaithful(ex, m, extraction, chunks, asg, cache, f);
        assert KeyOf(f, m.cacheKey) == k;
      }
    }
  }

  /** Swapping one branch's membership for distinct live rows. */
  lemma ReplacingKeeps(chunks: map<int, ChunkRow>, membership: map<string, seq<Membership>>, name: string, rows: seq<Membership>)
    requires MembershipLive(chunks, membership) && Distinct(ChunkIds(rows))
    requires forall id :: id in ChunkIds(rows) ==> Live(chunks, id)
    ensures MembershipLive(chunks, Replaced(membership, name, rows))
  {
  }
}
