/** The extraction cache: which files of a ref are reused, which are extracted, and
    the rows a pass writes back (application/extraction_cache.py,
    branch_scratch.py, branch_membership.py). */
module ExtractionCache {
  import opened Common
  import opened BranchRecords

  /** Extraction as the pass sees it: functions of the blob, the path, the module id
      and the extraction key, and the two module-id rules. Uninterpreted. */
  datatype Extractor = Extractor(
    rootedModule: (set<string>, string) -> string,
    docModule: string -> string,
    chunks: (string, string, string, string) -> seq<Chunk>,
    tree: (string, string, string, string) -> Option<TreeRow>)
  {
    /** A chunk carries its file's path and its module in its identity; a tree is
        rooted at the file's module. */
    ghost predicate WellFormed() {
      && (forall blob, path, m, key, c :: c in chunks(blob, path, m, key) ==>
            c.path == path && c.hash.package == PROJECT_PACKAGE && c.hash.module_ == m)
      && (forall blob, path, m, key :: tree(blob, path, m, key).Some? ==>
            tree(blob, path, m, key).value == TreeRow(m, path))
    }
  }

  // ----- module ids

  function LastComponent(path: string): string {
    if path == [] then []
    else if path[|path| - 1] == '/' then []
    else LastComponent(path[..|path| - 1]) + [path[|path| - 1]]
  }

  predicate IsPackageMarker(path: string) { LastComponent(path) == "__init__.py" }

  /** The suffix is `.py` in any letter case; a file named just `.py` has none. */
  predicate IsPython(path: string) {
    var name := LastComponent(path);
    var n := |name|;
    n >= 4 && name[n - 3] == '.' && name[n - 2] in {'p', 'P'} && name[n - 1] in {'y', 'Y'}
  }

  function MarkerPaths(files: seq<BranchFile>): set<string> {
    set f | f in files && IsPackageMarker(f.path) :: f.path
  }

  /** The module id this layout gives the file: Python files are re-rooted at their
      topmost package, other files' ids are path-derived. */
  function ModuleOf(ex: Extractor, files: seq<BranchFile>, path: string): string {
    if IsPython(path) then ex.rootedModule(MarkerPaths(files), path) else ex.docModule(path)
  }

  // ----- the cache split

  function KeyOf(f: BranchFile, key: string): CacheKey { CacheKey(f.blob, f.path, key) }

  /** A hit needs a blob id and a full row, tree included, under the pass's key. */
  predicate IsHit(cache: map<CacheKey, Extraction>, key: string, f: BranchFile) {
    f.blob != "" && KeyOf(f, key) in cache && cache[KeyOf(f, key)].tree.Some?
  }

  function Hits(cache: map<CacheKey, Extraction>, key: string, files: seq<BranchFile>): seq<BranchFile> {
    if files == [] then []
    else
      var f := files[|files| - 1];
      Hits(cache, key, files[..|files| - 1]) + if IsHit(cache, key, f) then [f] else []
  }

  function Misses(cache: map<CacheKey, Extraction>, key: string, files: seq<BranchFile>): seq<BranchFile> {
    if files == [] then []
    else
      var f := files[|files| - 1];
      Misses(cache, key, files[..|files| - 1]) + if IsHit(cache, key, f) then [] else [f]
  }

  function SizeOf(sizes: map<string, nat>, path: string): nat {
    if path in sizes then sizes[path] else 0
  }

  /** An empty file has no tree, so never a row; it is not extracted either. */
  function NonEmpty(sizes: map<string, nat>, files: seq<BranchFile>): seq<BranchFile> {
    if files == [] then []
    else
      var f := files[|files| - 1];
      NonEmpty(sizes, files[..|files| - 1]) + if SizeOf(sizes, f.path) > 0 then [f] else []
  }

  /** The module ids of the Python files among `files`, over the ref's layout. */
  function PythonModuleIds(ex: Extractor, markers: set<string>, files: seq<BranchFile>): map<string, string> {
    map f | f in files && IsPython(f.path) :: f.path := ex.rootedModule(markers, f.path)
  }

  predicate Shared(moduleIds: map<string, string>, m: string) {
    exists p, q :: p in moduleIds && q in moduleIds && p != q && moduleIds[p] == m && moduleIds[q] == m
  }

  /** A Python hit holds only when its cached tree names the module this branch
      gives the file and no other file shares that id; any other hit holds. */
  predicate ModuleIdHolds(tree: Option<TreeRow>, moduleIds: map<string, string>, path: string) {
    path in moduleIds ==>
      tree.Some? && tree.value.qualifiedName == moduleIds[path] && !Shared(moduleIds, moduleIds[path])
  }

  predicate HitHolds(cache: map<CacheKey, Extraction>, key: string, moduleIds: map<string, string>, f: BranchFile) {
    KeyOf(f, key) in cache ==> ModuleIdHolds(cache[KeyOf(f, key)].tree, moduleIds, f.path)
  }

  function Kept(cache: map<CacheKey, Extraction>, key: string, ids: map<string, string>, hits: seq<BranchFile>): seq<BranchFile> {
    if hits == [] then []
    else
      var f := hits[|hits| - 1];
      Kept(cache, key, ids, hits[..|hits| - 1]) + if HitHolds(cache, key, ids, f) then [f] else []
  }

  function Demoted(cache: map<CacheKey, Extraction>, key: string, ids: map<string, string>, hits: seq<BranchFile>): seq<BranchFile> {
    if hits == [] then []
    else
      var f := hits[|hits| - 1];
      Demoted(cache, key, ids, hits[..|hits| - 1]) + if HitHolds(cache, key, ids, f) then [] else [f]
  }

  // ----- what a pass reads back and writes

  datatype CachedFile = CachedFile(file: BranchFile, rows: seq<Membership>, tree: Option<TreeRow>)

  function SpanRows(path: string, spans: seq<Span>): seq<Membership> {
    seq(|spans|, i requires 0 <= i < |spans| => Membership(spans[i].chunkId, path, spans[i].start, spans[i].end, TreeSlice))
  }

  /** The hit's row decoded for this branch. */
  function ReadCached(cache: map<CacheKey, Extraction>, key: string, f: BranchFile): CachedFile
    requires KeyOf(f, key) in cache
  {
    var row := cache[KeyOf(f, key)];
    CachedFile(f, SpanRows(f.path, row.spans), row.tree)
  }

  /** One extracted file: its module id on this branch, its tree, its chunks. */
  datatype ExtractedFile = ExtractedFile(file: BranchFile, module_: string, tree: Option<TreeRow>, chunks: seq<Chunk>)

  function ExtractFile(ex: Extractor, key: string, files: seq<BranchFile>, f: BranchFile): ExtractedFile {
    var m := ModuleOf(ex, files, f.path);
    ExtractedFile(f, m, ex.tree(f.blob, f.path, m, key), ex.chunks(f.blob, f.path, m, key))
  }

  function Flatten(files: seq<ExtractedFile>): seq<Chunk> {
    if files == [] then [] else files[0].chunks + Flatten(files[1..])
  }

  /** A pass's extraction: the files, and the chunks no file carries (decision
      records of a working-tree pass; a git-objects pass has none). */
  datatype BranchExtraction = BranchExtraction(files: seq<ExtractedFile>, loose: seq<Chunk>) {
    function AllChunks(): seq<Chunk> { Flatten(files) + loose }
  }

  function TreesIn(files: seq<ExtractedFile>): seq<TreeRow> {
    if files == [] then []
    else (if files[0].tree.Some? then [files[0].tree.value] else []) + TreesIn(files[1..])
  }

  /** How many of the pass's trees are rooted at `m`. */
  function RootCount(files: seq<ExtractedFile>, m: string): nat {
    if files == [] then 0
    else (if files[0].tree.Some? && files[0].tree.value.qualifiedName == m then 1 else 0) + RootCount(files[1..], m)
  }

  function FindExtracted(files: seq<ExtractedFile>, path: string): Option<ExtractedFile> {
    if files == [] then None
    else if files[0].file.path == path then Some(files[0])
    else FindExtracted(files[1..], path)
  }

  /** The file's artifacts: its tree, unless another file of the pass shares the
      module id it is rooted at. */
  function ArtifactOf(files: seq<ExtractedFile>, path: string): Option<TreeRow> {
    var e := FindExtracted(files, path);
    if e.Some? && e.value.tree.Some? && RootCount(files, e.value.tree.value.qualifiedName) == 1
    then e.value.tree else None
  }

  // ----- file order: by start line, a span without one last, ties by chunk id

  predicate SpanBefore(a: Span, b: Span) {
    var sa, sb := if a.start.Some? then a.start.value else 0, if b.start.Some? then b.start.value else 0;
    if a.start.None? != b.start.None? then b.start.None?
    else if sa != sb then sa < sb
    else a.chunkId <= b.chunkId
  }

  function InsertSpan(span: Span, spans: seq<Span>): seq<Span> {
    if spans == [] then [span]
    else if SpanBefore(span, spans[0]) then [span] + spans
    else [spans[0]] + InsertSpan(span, spans[1..])
  }

  function InFileOrder(spans: seq<Span>): seq<Span> {
    if spans == [] then [] else InsertSpan(spans[0], InFileOrder(spans[1..]))
  }

  predicate FileOrdered(spans: seq<Span>) {
    forall i, j :: 0 <= i < j < |spans| ==> SpanBefore(spans[i], spans[j])
  }

  lemma {:induction false} InsertSpanOrders(span: Span, spans: seq<Span>)
    requires FileOrdered(spans)
    ensures FileOrdered(InsertSpan(span, spans))
    ensures multiset(InsertSpan(span, spans)) == multiset{span} + multiset(spans)
  {
    if spans != [] {
      MultisetHead(spans);
      if SpanBefore(span, spans[0]) {
        assert forall k :: 0 <= k < |spans| ==> SpanBefore(span, spans[k]);
      } else {
        InsertSpanOrders(span, spans[1..]);
        var rest := InsertSpan(span, spans[1..]);
        forall k | 0 <= k < |rest| ensures SpanBefore(spans[0], rest[k]) {
          assert rest[k] in multiset(rest);
          assert rest[k] == span || rest[k] in spans[1..];
        }
      }
    }
  }

  /** Start lines ascend, spans without one come last, ties go by chunk id. */
  predicate InStartOrder(spans: seq<Span>) {
    forall i, j :: 0 <= i < j < |spans| ==>
      && (spans[i].start.None? ==> spans[j].start.None?)
      && (spans[i].start.Some? && spans[j].start.Some? ==> spans[i].start.value <= spans[j].start.value)
      && (spans[i].start == spans[j].start ==> spans[i].chunkId <= spans[j].chunkId)
  }

  /** `chunk_spans` is the file's own spans, in file order. */
  lemma {:induction false} InFileOrderSorts(spans: seq<Span>)
    ensures FileOrdered(InFileOrder(spans)) && InStartOrder(InFileOrder(spans))
    ensures multiset(InFileOrder(spans)) == multiset(spans)
  {
    if spans != [] {
      MultisetHead(spans);
      InFileOrderSorts(spans[1..]);
      InsertSpanOrders(spans[0], InFileOrder(spans[1..]));
    }
  }

  // ----- cache rows

  function SpansOf(assignments: seq<Assignment>, path: string): seq<Span> {
    if assignments == [] then []
    else
      var (c, id) := assignments[|assignments| - 1];
      SpansOf(assignments[..|assignments| - 1], path) + if c.path == path then [Span(id, c.start, c.end)] else []
  }

  type CacheRow = (CacheKey, Extraction)

  /** One row per file with a blob id and something to cache: spans, a tree or both. */
  function ExtractionRows(files: seq<BranchFile>, key: string, assignments: seq<Assignment>, extracted: seq<ExtractedFile>): seq<CacheRow> {
    if files == [] then []
    else
      var f := files[|files| - 1];
      var spans, artifact := SpansOf(assignments, f.path), ArtifactOf(extracted, f.path);
      ExtractionRows(files[..|files| - 1], key, assignments, extracted)
      + if f.blob == "" || (spans == [] && artifact.None?) then [] else [(KeyOf(f, key), Extraction(InFileOrder(spans), artifact))]
  }

  /** The upsert replaces the spans; a row without a tree leaves the stored tree. */
  function Upserted(cache: map<CacheKey, Extraction>, k: CacheKey, row: Extraction): map<CacheKey, Extraction> {
    var tree := if row.tree.Some? then row.tree else if k in cache then cache[k].tree else None;
    cache[k := Extraction(row.spans, tree)]
  }

  function UpsertedAll(cache: map<CacheKey, Extraction>, rows: seq<CacheRow>): map<CacheKey, Extraction> {
    if rows == [] then cache
    else
      var (k, row) := rows[|rows| - 1];
      Upserted(UpsertedAll(cache, rows[..|rows| - 1]), k, row)
  }

  /** The cache once a pass has written its rows. */
  function CacheWith(cache: map<CacheKey, Extraction>, files: seq<BranchFile>, key: string,
                     assignments: seq<Assignment>, extracted: seq<ExtractedFile>): map<CacheKey, Extraction> {
    UpsertedAll(cache, ExtractionRows(files, key, assignments, extracted))
  }

  /** What the pass has to cache for one file. */
  predicate HasRow(f: BranchFile, assignments: seq<Assignment>, extracted: seq<ExtractedFile>) {
    f.blob != "" && (SpansOf(assignments, f.path) != [] || ArtifactOf(extracted, f.path).Some?)
  }

  function TreeAfter(cache: map<CacheKey, Extraction>, k: CacheKey, extracted: seq<ExtractedFile>): Option<TreeRow> {
    var artifact := ArtifactOf(extracted, k.path);
    if artifact.Some? then artifact else if k in cache then cache[k].tree else None
  }

  predicate DistinctPaths(files: seq<BranchFile>) {
    forall i, j :: 0 <= i < j < |files| ==> files[i].path != files[j].path
  }

  lemma RowsSnoc(files: seq<BranchFile>, f: BranchFile, key: string, assignments: seq<Assignment>, extracted: seq<ExtractedFile>)
    ensures ExtractionRows(files + [f], key, assignments, extracted)
            == ExtractionRows(files, key, assignments, extracted)
               + if HasRow(f, assignments, extracted)
                 then [(KeyOf(f, key), Extraction(InFileOrder(SpansOf(assignments, f.path)), ArtifactOf(extracted, f.path)))] else []
  {
    assert (files + [f])[..|files|] == files;
  }

  lemma UpsertedSnoc(cache: map<CacheKey, Extraction>, rows: seq<CacheRow>, k: CacheKey, row: Extraction)
    ensures UpsertedAll(cache, rows + [(k, row)]) == Upserted(UpsertedAll(cache, rows), k, row)
    ensures UpsertedAll(cache, rows + []) == UpsertedAll(cache, rows)
  {
    assert (rows + [(k, row)])[..|rows|] == rows;
    assert rows + [] == rows;
  }

  /** A key no file of the listing has is as before. */
  lemma {:induction false} CacheElsewhere(cache: map<CacheKey, Extraction>, files: seq<BranchFile>, key: string,
                                          assignments: seq<Assignment>, extracted: seq<ExtractedFile>, k: CacheKey)
    requires forall i :: 0 <= i < |files| && HasRow(files[i], assignments, extracted) ==> KeyOf(files[i], key) != k
    ensures var after := CacheWith(cache, files, key, assignments, extracted);
            (k in after <==> k in cache) && (k in cache ==> after[k] == cache[k])
  {
    if files != [] {
      var n := |files| - 1;
      var f := files[n];
      CacheElsewhere(cache, files[..n], key, assignments, extracted, k);
      assert files == files[..n] + [f];
      CacheSnoc(cache, files[..n], f, key, assignments, extracted);
    }
  }

  lemma CacheSnoc(cache: map<CacheKey, Extraction>, files: seq<BranchFile>, f: BranchFile, key: string,
                  assignments: seq<Assignment>, extracted: seq<ExtractedFile>)
    ensures CacheWith(cache, files + [f], key, assignments, extracted)
            == if HasRow(f, assignments, extracted)
               then Upserted(CacheWith(cache, files, key, assignments, extracted), KeyOf(f, key),
                             Extraction(InFileOrder(SpansOf(assignments, f.path)), ArtifactOf(extracted, f.path)))
               else CacheWith(cache, files, key, assignments, extracted)
  {
    RowsSnoc(files, f, key, assignments, extracted);
    UpsertedSnoc(cache, ExtractionRows(files, key, assignments, extracted), KeyOf(f, key),
                 Extraction(InFileOrder(SpansOf(assignments, f.path)), ArtifactOf(extracted, f.path)));
  }

  /** A file with something to cache has its own row. */
  lemma {:induction false} CacheHere(cache: map<CacheKey, Extraction>, earlier: seq<BranchFile>, f: BranchFile, later: seq<BranchFile>, key: string,
                                     assignments: seq<Assignment>, extracted: seq<ExtractedFile>)
    requires HasRow(f, assignments, extracted)
    requires forall i :: 0 <= i < |earlier| ==> earlier[i].path != f.path
    requires forall i :: 0 <= i < |later| ==> later[i].path != f.path
    ensures var after, k := CacheWith(cache, earlier + [f] + later, key, assignments, extracted), KeyOf(f, key);
            k in after && after[k] == Extraction(InFileOrder(SpansOf(assignments, k.path)), TreeAfter(cache, k, extracted))
  {
    if later == [] {
      assert earlier + [f] + later == earlier + [f];
      CacheElsewhere(cache, earlier, key, assignments, extracted, KeyOf(f, key));
      CacheSnoc(cache, earlier, f, key, assignments, extracted);
    } else {
      var n := |later| - 1;
      assert earlier + [f] + later == earlier + [f] + later[..n] + [later[n]];
      CacheHere(cache, earlier, f, later[..n], key, assignments, extracted);
      CacheSnoc(cache, earlier + [f] + later[..n], later[n], key, assignments, extracted);
    }
  }

  /** The written cache, key by key: a file with something to cache has its own
      row, every other key is as before. */
  lemma CacheWithAt(cache: map<CacheKey, Extraction>, files: seq<BranchFile>, key: string,
                    assignments: seq<Assignment>, extracted: seq<ExtractedFile>, k: CacheKey)
    requires DistinctPaths(files)
    ensures var after := CacheWith(cache, files, key, assignments, extracted);
            if k.key == key && BranchFile(k.path, k.blob) in files && HasRow(BranchFile(k.path, k.blob), assignments, extracted)
            then k in after && after[k] == Extraction(InFileOrder(SpansOf(assignments, k.path)), TreeAfter(cache, k, extracted))
            else (k in after <==> k in cache) && (k in cache ==> after[k] == cache[k])
  {
    var f := BranchFile(k.path, k.blob);
    if k.key == key && f in files && HasRow(f, assignments, extracted) {
      var i :| 0 <= i < |files| && files[i] == f;
      assert files == files[..i] + [f] + files[i + 1..];
      CacheHere(cache, files[..i], f, files[i + 1..], key, assignments, extracted);
    } else {
      forall i | 0 <= i < |files| && HasRow(files[i], assignments, extracted) ensures KeyOf(files[i], key) != k {
        assert files[i] in files && files[i] == BranchFile(files[i].path, files[i].blob);
      }
      CacheElsewhere(cache, files, key, assignments, extracted, k);
    }
  }
}
