/** Facts about one pass's rows: what an assignment pairs, what a membership row
    resolves to, and the file each chunk came from. */
module PassFacts {
  import opened Common
  import opened BranchRecords
  import opened BundleTables
  import opened ExtractionCache
  import opened ChunkDiff
  import opened BranchPass

  // ----- what a membership row resolves to

  /** A membership row read through the chunk it names: path, span, content. */
  datatype Piece = Piece(path: string, start: Option<int>, end: Option<int>, hash: Option<ContentHash>)

  function HashAt(chunks: map<int, ChunkRow>, id: int): Option<ContentHash> {
    if id in chunks then chunks[id].hash else None
  }

  function RowPiece(chunks: map<int, ChunkRow>): Membership -> Piece {
    (r: Membership) => Piece(r.path, r.start, r.end, HashAt(chunks, r.chunkId))
  }

  function Views(chunks: map<int, ChunkRow>, rows: seq<Membership>): multiset<Piece> {
    Image(RowPiece(chunks), rows)
  }

  function SpanPiece(chunks: map<int, ChunkRow>, path: string): Span -> Piece {
    (span: Span) => Piece(path, span.start, span.end, HashAt(chunks, span.chunkId))
  }

  function SpanViews(chunks: map<int, ChunkRow>, path: string, spans: seq<Span>): multiset<Piece> {
    Image(SpanPiece(chunks, path), spans)
  }

  function ChunkPiece(): Chunk -> Piece {
    (c: Chunk) => Piece(c.path, c.start, c.end, Some(c.hash))
  }

  function Pieces(chunks: seq<Chunk>): multiset<Piece> { Image(ChunkPiece(), chunks) }

  lemma {:induction false} SpanRowsViews(chunks: map<int, ChunkRow>, path: string, spans: seq<Span>)
    ensures Views(chunks, SpanRows(path, spans)) == SpanViews(chunks, path, spans)
  {
    if spans != [] {
      var n := |spans| - 1;
      SpanRowsViews(chunks, path, spans[..n]);
      assert SpanRows(path, spans)[..n] == SpanRows(path, spans[..n]);
    }
  }

  /** Every pair of the assignment names a row of the chunk's own hash. */
  ghost predicate Resolves(chunks: map<int, ChunkRow>, assignments: seq<Assignment>) {
    forall a :: a in assignments ==> a.1 in chunks && chunks[a.1] == ChunkRow(PROJECT_PACKAGE, Some(a.0.hash))
  }

  lemma {:induction false} AssignedViews(chunks: map<int, ChunkRow>, assignments: seq<Assignment>)
    requires Resolves(chunks, assignments)
    ensures Views(chunks, MembershipRows(assignments)) == Pieces(KeptChunks(assignments))
  {
    if assignments != [] {
      var n := |assignments| - 1;
      AssignedViews(chunks, assignments[..n]);
      assert MembershipRows(assignments)[..n] == MembershipRows(assignments[..n]);
      assert KeptChunks(assignments)[..n] == KeptChunks(assignments[..n]);
      assert assignments[n] in assignments;
    }
  }

  // ----- chunks by file

  function PathChunks(chunks: seq<Chunk>, path: string): seq<Chunk> {
    if chunks == [] then []
    else PathChunks(chunks[..|chunks| - 1], path) + if chunks[|chunks| - 1].path == path then [chunks[|chunks| - 1]] else []
  }

  lemma {:induction false} PathChunksCount(chunks: seq<Chunk>, path: string)
    ensures forall c :: multiset(PathChunks(chunks, path))[c] == if c.path == path then multiset(chunks)[c] else 0
  {
    if chunks != [] {
      PathChunksCount(chunks[..|chunks| - 1], path);
      MultisetLast(chunks);
    }
  }

  lemma PathChunksPermute(a: seq<Chunk>, b: seq<Chunk>, path: string)
    requires multiset(a) == multiset(b)
    ensures multiset(PathChunks(a, path)) == multiset(PathChunks(b, path))
  {
    PathChunksCount(a, path);
    PathChunksCount(b, path);
  }

  lemma {:induction false} PathChunksAppend(a: seq<Chunk>, b: seq<Chunk>, path: string)
    ensures PathChunks(a + b, path) == PathChunks(a, path) + PathChunks(b, path)
  {
    if b == [] {
      assert a + b == a;
    } else {
      PathChunksAppend(a, b[..|b| - 1], path);
      assert (a + b)[..|a + b| - 1] == a + b[..|b| - 1];
    }
  }

  lemma {:induction false} PathChunksOwn(chunks: seq<Chunk>, own: string, path: string)
    requires forall c :: c in chunks ==> c.path == own
    ensures PathChunks(chunks, path) == if own == path then chunks else []
  {
    if chunks != [] {
      var n := |chunks| - 1;
      PathChunksOwn(chunks[..n], own, path);
      assert chunks[n] in chunks && chunks == chunks[..n] + [chunks[n]];
    }
  }

  /** Extracted files have distinct paths and each chunk carries its file's path. */
  ghost predicate FilesWellFormed(files: seq<ExtractedFile>) {
    && (forall i, j :: 0 <= i < j < |files| ==> files[i].file.path != files[j].file.path)
    && (forall e, c :: e in files && c in e.chunks ==> c.path == e.file.path)
  }

  function ChunksOf(files: seq<ExtractedFile>, path: string): seq<Chunk> {
    var e := FindExtracted(files, path);
    if e.Some? then e.value.chunks else []
  }

  /** The chunks of one path are the chunks of the one file extracted under it. */
  lemma {:induction false} FlattenByPath(files: seq<ExtractedFile>, path: string)
    requires FilesWellFormed(files)
    ensures PathChunks(Flatten(files), path) == ChunksOf(files, path)
  {
    if files != [] {
      var rest := files[1..];
      assert files[0] in files && forall e :: e in rest ==> e in files;
      FlattenByPath(rest, path);
      PathChunksAppend(files[0].chunks, Flatten(rest), path);
      PathChunksOwn(files[0].chunks, files[0].file.path, path);
      if files[0].file.path == path {
        NotFound(rest, path);
      }
    }
  }

  lemma {:induction false} NotFound(files: seq<ExtractedFile>, path: string)
    requires forall i :: 0 <= i < |files| ==> files[i].file.path != path
    ensures FindExtracted(files, path) == None
  {
    if files != [] {
      NotFound(files[1..], path);
    }
  }

  lemma {:induction false} Found(files: seq<ExtractedFile>, path: string)
    ensures FindExtracted(files, path).Some? ==>
              FindExtracted(files, path).value in files && FindExtracted(files, path).value.file.path == path
    ensures FindExtracted(files, path).None? ==> forall e :: e in files ==> e.file.path != path
  {
    if files != [] {
      Found(files[1..], path);
      assert files == [files[0]] + files[1..];
    }
  }

  /** The spans cached for a file, read through the chunk rows, are its own chunks. */
  lemma {:induction false} SpansOfViews(chunks: map<int, ChunkRow>, assignments: seq<Assignment>, path: string)
    requires Resolves(chunks, assignments)
    ensures SpanViews(chunks, path, SpansOf(assignments, path)) == Pieces(PathChunks(KeptChunks(assignments), path))
    ensures |SpansOf(assignments, path)| == |PathChunks(KeptChunks(assignments), path)|
  {
    if assignments != [] {
      var n := |assignments| - 1;
      SpansOfViews(chunks, assignments[..n], path);
      var (c, id) := assignments[n];
      assert KeptChunks(assignments) == KeptChunks(assignments[..n]) + [c];
      PathChunksAppend(KeptChunks(assignments[..n]), [c], path);
      PathChunksOwn([c], c.path, path);
      assert assignments[n] in assignments && assignments[n] == (c, id);
      assert id in chunks && chunks[id] == ChunkRow(PROJECT_PACKAGE, Some(c.hash));
      if c.path == path {
        assert SpansOf(assignments, path) == SpansOf(assignments[..n], path) + [Span(id, c.start, c.end)];
        assert PathChunks(KeptChunks(assignments), path) == PathChunks(KeptChunks(assignments[..n]), path) + [c];
        assert SpanPiece(chunks, path)(Span(id, c.start, c.end)) == ChunkPiece()(c);
        ImageSnoc(SpanPiece(chunks, path), SpansOf(assignments[..n], path), Span(id, c.start, c.end));
        ImageSnoc(ChunkPiece(), PathChunks(KeptChunks(assignments[..n]), path), c);
      } else {
        assert SpansOf(assignments, path) == SpansOf(assignments[..n], path);
        assert PathChunks(KeptChunks(assignments), path) == PathChunks(KeptChunks(assignments[..n]), path);
      }
    }
  }

  lemma {:induction false} SpansOfIds(assignments: seq<Assignment>, path: string)
    ensures forall span :: span in SpansOf(assignments, path) ==>
              exists i :: 0 <= i < |assignments| && assignments[i].1 == span.chunkId && assignments[i].0.path == path
  {
    if assignments != [] {
      var n := |assignments| - 1;
      SpansOfIds(assignments[..n], path);
      forall span | span in SpansOf(assignments, path)
        ensures exists i :: 0 <= i < |assignments| && assignments[i].1 == span.chunkId && assignments[i].0.path == path
      {
        if span in SpansOf(assignments[..n], path) {
          var i :| 0 <= i < n && assignments[..n][i].1 == span.chunkId && assignments[..n][i].0.path == path;
          assert assignments[i].1 == span.chunkId && assignments[i].0.path == path;
        } else {
          assert assignments[n].1 == span.chunkId && assignments[n].0.path == path;
        }
      }
    }
  }

  function SpanIds(spans: seq<Span>): (ids: seq<int>)
    ensures |ids| == |spans| && forall i :: 0 <= i < |ids| ==> ids[i] == spans[i].chunkId
  {
    seq(|spans|, i requires 0 <= i < |spans| => spans[i].chunkId)
  }

  lemma {:induction false} SpansOfDistinct(assignments: seq<Assignment>, path: string)
    requires Distinct(KeptIds(assignments))
    ensures Distinct(SpanIds(SpansOf(assignments, path)))
  {
    if assignments != [] {
      var n := |assignments| - 1;
      assert KeptIds(assignments) == KeptIds(assignments[..n]) + [assignments[n].1];
      DistinctAppend(KeptIds(assignments[..n]), [assignments[n].1]);
      SpansOfDistinct(assignments[..n], path);
      SpansOfIds(assignments[..n], path);
      var spans := SpansOf(assignments[..n], path);
      forall i | 0 <= i < |spans| ensures spans[i].chunkId != assignments[n].1 {
        assert spans[i] in spans;
        var j :| 0 <= j < n && assignments[..n][j].1 == spans[i].chunkId;
        assert KeptIds(assignments[..n])[j] in Elems(KeptIds(assignments[..n]));
      }
    }
  }

  // ----- inserted rows and assignments

  /** Only the chunk rows and the vectors change; the new ids are the new rows. */
  lemma {:induction false} InsertedTables(s: StoreState, added: seq<Chunk>, ids: seq<int>)
    requires |added| == |ids|
    ensures var t := InsertedRows(s, added, ids);
            t == s.(chunks := t.chunks, vectors := t.vectors) && t.chunks.Keys == s.chunks.Keys + Elems(ids)
  {
    if ids != [] {
      var n := |ids| - 1;
      InsertedTables(s, added[..n], ids[..n]);
      assert ids == ids[..n] + [ids[n]];
      ElemsSnoc(ids[..n], ids[n]);
    }
  }

  lemma {:induction false} InsertedElsewhere(s: StoreState, added: seq<Chunk>, ids: seq<int>, id: int)
    requires |added| == |ids| && id !in ids
    ensures var t := InsertedRows(s, added, ids);
            && (id in s.chunks <==> id in t.chunks) && (id in s.chunks ==> t.chunks[id] == s.chunks[id])
            && (id in s.vectors <==> id in t.vectors) && (id in s.vectors ==> t.vectors[id] == s.vectors[id])
  {
    if ids != [] {
      var n := |ids| - 1;
      assert ids[n] in ids && id !in ids[..n];
      InsertedElsewhere(s, added[..n], ids[..n], id);
    }
  }

  lemma {:induction false} InsertedHere(s: StoreState, added: seq<Chunk>, ids: seq<int>, i: nat)
    requires |added| == |ids| && Distinct(ids) && i < |ids|
    ensures var t := InsertedRows(s, added, ids);
            && ids[i] in t.chunks && t.chunks[ids[i]] == ChunkRow(PROJECT_PACKAGE, Some(added[i].hash))
            && (ids[i] in t.vectors && ids[i] !in s.vectors ==> t.vectors[ids[i]] == added[i].hash)
  {
    var n := |ids| - 1;
    if i < n {
      InsertedHere(s, added[..n], ids[..n], i);
      assert ids[i] != ids[n];
    } else {
      InsertedElsewhere(s, added[..n], ids[..n], ids[n]);
    }
  }

  lemma InsertedRowsAre(s: StoreState, added: seq<Chunk>, ids: seq<int>)
    requires |added| == |ids| && Distinct(ids)
    ensures var t := InsertedRows(s, added, ids);
            && t == s.(chunks := t.chunks, vectors := t.vectors)
            && t.chunks.Keys == s.chunks.Keys + Elems(ids)
            && (forall i :: 0 <= i < |ids| ==> t.chunks[ids[i]] == ChunkRow(PROJECT_PACKAGE, Some(added[i].hash)))
            && (forall id :: id in s.chunks && id !in ids ==> t.chunks[id] == s.chunks[id])
            && (forall id :: id in t.vectors && id !in ids ==> id in s.vectors && t.vectors[id] == s.vectors[id])
            && (forall i :: 0 <= i < |ids| && ids[i] in t.vectors && ids[i] !in s.vectors ==> t.vectors[ids[i]] == added[i].hash)
  {
    var t := InsertedRows(s, added, ids);
    InsertedTables(s, added, ids);
    forall i | 0 <= i < |ids|
      ensures t.chunks[ids[i]] == ChunkRow(PROJECT_PACKAGE, Some(added[i].hash))
      ensures ids[i] in t.vectors && ids[i] !in s.vectors ==> t.vectors[ids[i]] == added[i].hash
    {
      InsertedHere(s, added, ids, i);
    }
    forall id | id !in ids
      ensures id in s.chunks ==> t.chunks[id] == s.chunks[id]
      ensures id in t.vectors ==> id in s.vectors && t.vectors[id] == s.vectors[id]
    {
      InsertedElsewhere(s, added, ids, id);
    }
  }

  lemma KeptFromPool(s: StoreState, claimed: set<int>, chunks: seq<Chunk>, pool: seq<Pair>)
    requires IsPool(s, claimed, pool)
    ensures var kept := Diff(pool, chunks).kept;
            && Distinct(KeptIds(kept))
            && (forall a :: a in kept ==> IsProjectChunk(s, a.1) && a.1 !in claimed && s.chunks[a.1].hash == Some(a.0.hash))
  {
    KeptOrRemoved(pool, chunks);
    DiffKeepsEqualHashes(pool, chunks);
    forall a | a in Diff(pool, chunks).kept
      ensures IsProjectChunk(s, a.1) && a.1 !in claimed && s.chunks[a.1].hash == Some(a.0.hash)
    {
      assert (a.1, Some(a.0.hash)) in pool;
    }
  }

  /** The pairing a pass makes: every chunk gets one row, rows are distinct, none is
      claimed by a hit, and each row holds the chunk's own content. */
  lemma AssignedFacts(s: StoreState, claimed: set<int>, chunks: seq<Chunk>, choice: Choice)
    requires ValidChoice(s, claimed, chunks, choice) && claimed <= s.chunks.Keys
    ensures var asg := Assigned(choice, chunks);
            && multiset(KeptChunks(asg)) == multiset(chunks)
            && Distinct(KeptIds(asg)) && Elems(KeptIds(asg)) !! claimed
            && Resolves(InsertedRows(s, Added(choice, chunks), choice.newIds).chunks, asg)
            && (forall id :: id in choice.newIds ==> id in KeptIds(asg))
  {
    var kept, added := Diff(choice.pool, chunks).kept, Added(choice, chunks);
    KeptAppend(kept, added, choice.newIds);
    DiffPartitions(choice.pool, chunks);
    KeptFromPool(s, claimed, chunks, choice.pool);
    KeptIdsDisjoint(s, kept, choice.newIds, claimed);
    InsertedRowsAre(s, added, choice.newIds);
    ResolvesZip(s, kept, added, choice.newIds);
    assert multiset(KeptChunks(kept) + added) == multiset(KeptChunks(kept)) + multiset(added);
  }

  lemma KeptIdsDisjoint(s: StoreState, kept: seq<Assignment>, ids: seq<int>, claimed: set<int>)
    requires Distinct(KeptIds(kept)) && AreNewIds(s, ids) && claimed <= s.chunks.Keys
    requires forall a :: a in kept ==> a.1 in s.chunks && a.1 !in claimed
    ensures Distinct(KeptIds(kept) + ids) && Elems(KeptIds(kept) + ids) !! claimed
  {
    forall i | 0 <= i < |kept| ensures KeptIds(kept)[i] in s.chunks && KeptIds(kept)[i] !in claimed {
      assert kept[i] in kept;
    }
    DistinctAppend(KeptIds(kept), ids);
    forall id | id in KeptIds(kept) + ids ensures id !in claimed {
      if id !in ids {
        var i :| 0 <= i < |kept| && KeptIds(kept)[i] == id;
      }
    }
  }

  lemma ResolvesZip(s: StoreState, kept: seq<Assignment>, added: seq<Chunk>, ids: seq<int>)
    requires |added| == |ids| && AreNewIds(s, ids)
    requires forall a :: a in kept ==> IsProjectChunk(s, a.1) && s.chunks[a.1].hash == Some(a.0.hash)
    ensures Resolves(InsertedRows(s, added, ids).chunks, kept + Zip(added, ids))
  {
    InsertedRowsAre(s, added, ids);
    var t := InsertedRows(s, added, ids);
    forall a | a in kept + Zip(added, ids) ensures a.1 in t.chunks && t.chunks[a.1] == ChunkRow(PROJECT_PACKAGE, Some(a.0.hash)) {
      if a in kept {
        assert a.1 !in ids;
      } else {
        var i :| 0 <= i < |ids| && a == (added[i], ids[i]);
      }
    }
  }
}
