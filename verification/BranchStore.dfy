/** The bundle as the application changes it, step by step: one table per field, one
    method per storage call and per application function. Each method's contract ties
    the new tables to a function of the old ones; the theorems are about those
    functions. */
module BranchStore {
  import opened Common
  import opened BranchRecords
  import opened BundleTables
  import opened ExtractionCache
  import opened ChunkDiff
  import opened BranchPass
  import opened PassTheorems
  import opened PassLaws
  import opened Retirement
  import opened MaintenanceTheorems
  import opened RetirementLaws
  import opened VerbLaws

  lemma {:induction false} UpperBound(ids: set<int>) returns (bound: int)
    ensures forall id :: id in ids ==> id < bound
  {
    if some :| some in ids {
      var rest := UpperBound(ids - {some});
      bound := if rest <= some then some + 1 else rest;
      forall id | id in ids ensures id < bound {
        assert id == some || id in ids - {some};
      }
    } else {
      bound := 0;
    }
  }

  lemma UnusedIdExists(ids: set<int>)
    ensures exists id :: id !in ids
  {
    var bound := UpperBound(ids);
    assert bound !in ids;
  }

  /** The project's id and hash pairs in some order: a pool with nothing claimed. */
  function Unclaimed(pairs: seq<Pair>, claimed: set<int>): seq<Pair> {
    if pairs == [] then []
    else Unclaimed(pairs[..|pairs| - 1], claimed) + if pairs[|pairs| - 1].0 in claimed then [] else [pairs[|pairs| - 1]]
  }

  lemma {:induction false} UnclaimedAre(pairs: seq<Pair>, claimed: set<int>)
    requires Distinct(Ids(pairs))
    ensures Distinct(Ids(Unclaimed(pairs, claimed)))
    ensures forall p :: p in Unclaimed(pairs, claimed) <==> p in pairs && p.0 !in claimed
  {
    if pairs != [] {
      var earlier, last := pairs[..|pairs| - 1], pairs[|pairs| - 1];
      assert pairs == earlier + [last];
      assert Ids(pairs) == Ids(earlier) + [last.0];
      DistinctAppend(Ids(earlier), [last.0]);
      UnclaimedAre(earlier, claimed);
      var kept := Unclaimed(earlier, claimed);
      forall i | 0 <= i < |kept| ensures kept[i].0 != last.0 {
        assert kept[i] in earlier;
        var j :| 0 <= j < |earlier| && earlier[j] == kept[i];
        assert Ids(earlier)[j] in Elems(Ids(earlier));
      }
    }
  }

  lemma UnclaimedIsPool(s: StoreState, pairs: seq<Pair>, claimed: set<int>)
    requires IsPool(s, {}, pairs)
    ensures IsPool(s, claimed, Unclaimed(pairs, claimed))
  {
    UnclaimedAre(pairs, claimed);
  }

  /** A pass that extracts nothing assigns and caches nothing. */
  lemma NothingExtracted(pool: seq<Pair>, cache: map<CacheKey, Extraction>, files: seq<BranchFile>, key: string)
    ensures Diff(pool, []).addedChunks == [] && Diff(pool, []).kept == []
    ensures CacheWith(cache, files, key, [], []) == cache
  {
    DiffPartitions(pool, []);
    var d := Diff(pool, []);
    assert |multiset(d.addedChunks) + multiset(KeptChunks(d.kept))| == 0;
    NoRowsToCache(files, key);
  }

  lemma {:induction false} NoRowsToCache(files: seq<BranchFile>, key: string)
    ensures ExtractionRows(files, key, [], []) == []
  {
    if files != [] {
      NoRowsToCache(files[..|files| - 1], key);
    }
  }

  // ----- the cache sweeps of one collection

  function NotNaming(cache: map<CacheKey, Extraction>, ids: set<int>): map<CacheKey, Extraction> {
    map k | k in cache && !NamesAny(cache[k], ids) :: cache[k]
  }

  function UnderKey(cache: map<CacheKey, Extraction>, key: string): map<CacheKey, Extraction> {
    map k | k in cache && k.key == key :: cache[k]
  }

  predicate ListedIn(files: map<string, seq<BranchFile>>, f: BranchFile) {
    exists b :: b in files && f in files[b]
  }

  function StillListed(cache: map<CacheKey, Extraction>, files: map<string, seq<BranchFile>>): map<CacheKey, Extraction> {
    map k | k in cache && ListedIn(files, BranchFile(k.path, k.blob)) :: cache[k]
  }

  predicate NamedIn(membership: map<string, seq<Membership>>, id: int) {
    exists b :: b in membership && id in ChunkIds(membership[b])
  }

  lemma FreedAreUnnamed(s: StoreState, freed: set<int>, chunks: map<int, ChunkRow>)
    requires forall id :: id in freed <==> id in s.chunks && s.chunks[id].package == PROJECT_PACKAGE && !NamedIn(s.membership, id)
    requires forall id :: id in chunks <==> id in s.chunks && id !in freed
    requires forall id :: id in chunks ==> chunks[id] == s.chunks[id]
    ensures freed == Unnamed(s) && chunks == s.chunks - freed
  {
    forall id ensures id in freed <==> id in Unnamed(s) {
      assert Named(s, id) <==> NamedIn(s.membership, id);
    }
    forall id ensures id in chunks <==> id in s.chunks - freed {
    }
    assert chunks == s.chunks - freed;
  }

  lemma SweptNaming(before: map<CacheKey, Extraction>, after: map<CacheKey, Extraction>, ids: set<int>)
    requires forall k :: k in after <==> k in before && forall span :: span in before[k].spans ==> span.chunkId !in ids
    requires forall k :: k in after ==> after[k] == before[k]
    ensures after == NotNaming(before, ids)
  {
  }

  lemma SweptKeys(before: map<CacheKey, Extraction>, after: map<CacheKey, Extraction>, key: string)
    requires forall k :: k in after <==> k in before && k.key == key
    requires forall k :: k in after ==> after[k] == before[k]
    ensures after == UnderKey(before, key)
  {
  }

  lemma SweptListing(before: map<CacheKey, Extraction>, after: map<CacheKey, Extraction>, files: map<string, seq<BranchFile>>)
    requires forall k :: k in after <==> k in before && ListedIn(files, BranchFile(k.path, k.blob))
    requires forall k :: k in after ==> after[k] == before[k]
    ensures after == StillListed(before, files)
  {
  }

  /** The sweeps in sequence leave what one collection keeps. */
  lemma SweptCache(s: StoreState, key: Option<string>)
    ensures var named := NotNaming(s.cache, Unnamed(s));
            StillListed(if key.Some? then UnderKey(named, key.value) else named, s.files) == CollectGarbage(s, key).cache
  {
    assert forall k: CacheKey :: ListedIn(s.files, BranchFile(k.path, k.blob)) <==> Listed(s, k.blob, k.path);
  }

  // ----- the steps of a pass

  /** The chunk rows and the cache once a pass's misses are in. */
  function WithMisses(s: StoreState, input: PassInput, choice: Choice): StoreState
    requires Fits(choice, PassChunks(input))
  {
    InsertedRows(s, Added(choice, PassChunks(input)), choice.newIds)
    .(cache := CacheWith(s.cache, input.manifest.files, input.manifest.cacheKey, PassAssignments(input, choice), Extracted(input)))
  }

  function StampedPass(s: StoreState, input: PassInput, choice: Choice): StoreState
    requires Fits(choice, PassChunks(input))
  {
    Stamped(WithMisses(s, input, choice), input.manifest, PassRows(input, choice), input.now, false)
  }

  function WithTreeTier(s: StoreState, input: PassInput): StoreState {
    s.(trees := Replaced(s.trees, input.manifest.name, CachedTrees(input.cached) + TreesIn(Extracted(input))))
  }

  lemma StampedThenTreed(s: StoreState, input: PassInput, choice: Choice)
    requires Fits(choice, PassChunks(input)) && AreNewIds(s, choice.newIds)
    ensures WithTreeTier(StampedPass(s, input, choice), input) == PassBeforeGc(s, input, choice)
  {
    InsertedFrame(s, Added(choice, PassChunks(input)), choice.newIds);
  }

  /** The working-tree pass in the order it writes: rows, trees, stamp, cache. */
  function TreeRowsIn(s: StoreState, input: TreeInput, choice: Choice): StoreState
    requires Fits(choice, input.extraction.AllChunks())
  {
    WithTrees(InsertedRows(s, Added(choice, input.extraction.AllChunks()), choice.newIds), input.manifest.name, TreesIn(input.extraction.files))
  }

  lemma SameRetired(s: StoreState, input: TreeInput, choice: Choice)
    requires Fits(choice, input.extraction.AllChunks()) && AreNewIds(s, choice.newIds)
    ensures RetiredBy(TreeRowsIn(s, input, choice), input.manifest) == RetiredBy(s, input.manifest)
    ensures TreeRowsIn(s, input, choice).cache == s.cache
  {
    InsertedFrame(s, Added(choice, input.extraction.AllChunks()), choice.newIds);
  }

  lemma StampedThenCached(s: StoreState, input: TreeInput, choice: Choice)
    requires Fits(choice, input.extraction.AllChunks()) && AreNewIds(s, choice.newIds)
    ensures var t, m, asg := TreeRowsIn(s, input, choice), input.manifest, TreeAssignments(input, choice);
            Stamped(WithoutBranches(t, RetiredBy(t, m)), m, MembershipRows(asg), input.now, true)
            .(cache := CacheWith(s.cache, m.files, m.cacheKey, asg, input.extraction.files))
            == TreePassBeforeGc(s, input, choice)
  {
    SameRetired(s, input, choice);
  }

  method FlattenCached(cached: seq<CachedFile>) returns (rows: seq<Membership>)
    ensures rows == CachedRows(cached)
  {
    rows := [];
    for i := 0 to |cached|
      invariant rows == CachedRows(cached[..i])
    {
      assert cached[..i + 1][..i] == cached[..i];
      rows := rows + cached[i].rows;
    }
    assert cached[..|cached|] == cached;
  }

  method ClaimedIds(cached: seq<CachedFile>) returns (claimed: set<int>)
    ensures claimed == Elems(ChunkIds(CachedRows(cached)))
  {
    var rows := FlattenCached(cached);
    claimed := set id | id in ChunkIds(rows);
  }

  /** The choice of a pass that extracts nothing. */
  lemma NothingToAssign(s: StoreState, claimed: set<int>) returns (choice: Choice)
    ensures ValidChoice(s, claimed, [], choice) && choice.newIds == []
  {
    PoolExists(s, set id | id in s.chunks && IsProjectChunk(s, id));
    var pairs :| IsPool(s, {}, pairs);
    UnclaimedIsPool(s, pairs, claimed);
    choice := Choice(Unclaimed(pairs, claimed), []);
    NothingExtracted(choice.pool, map[], [], "");
  }

  // ----- the split of a ref's files

  predicate SharedWithin(moduleIds: map<string, string>, paths: set<string>, m: string) {
    exists p, q :: p in paths && q in paths && p != q && p in moduleIds && q in moduleIds && moduleIds[p] == m && moduleIds[q] == m
  }

  predicate IdWithin(moduleIds: map<string, string>, paths: set<string>, m: string) {
    exists p :: p in paths && p in moduleIds && moduleIds[p] == m
  }

  /** The module ids more than one file carries, by counting. */
  method SharedModuleIds(moduleIds: map<string, string>) returns (shared: set<string>)
    ensures forall m :: m in shared <==> Shared(moduleIds, m)
  {
    var counts: map<string, nat> := map[];
    var left := moduleIds.Keys;
    ghost var done: set<string> := {};
    while left != {}
      invariant left + done == moduleIds.Keys && left !! done
      invariant forall m :: m in counts <==> IdWithin(moduleIds, done, m)
      invariant forall m :: m in counts ==> counts[m] >= 1 && (counts[m] > 1 <==> SharedWithin(moduleIds, done, m))
    {
      var p := PickOne(left);
      CountOneMore(moduleIds, done, p);
      counts := counts[moduleIds[p] := if moduleIds[p] in counts then counts[moduleIds[p]] + 1 else 1];
      left := left - {p};
      done := done + {p};
    }
    shared := set m | m in counts && counts[m] > 1;
    forall m ensures m in shared <==> Shared(moduleIds, m) {
      if SharedWithin(moduleIds, done, m) {
        assert IdWithin(moduleIds, done, m);
      }
    }
  }

  lemma CountOneMore(moduleIds: map<string, string>, done: set<string>, p: string)
    requires p in moduleIds && p !in done
    ensures forall m :: IdWithin(moduleIds, done + {p}, m) <==> IdWithin(moduleIds, done, m) || m == moduleIds[p]
    ensures forall m :: SharedWithin(moduleIds, done + {p}, m)
                        <==> SharedWithin(moduleIds, done, m) || (m == moduleIds[p] && IdWithin(moduleIds, done, m))
  {
    assert p in done + {p};
    forall m | m == moduleIds[p] && IdWithin(moduleIds, done, m) ensures SharedWithin(moduleIds, done + {p}, m) {
      var q :| q in done && q in moduleIds && moduleIds[q] == m;
      assert q in done + {p} && p != q;
    }
  }

  /** The kept hits, read back; the demoted hits, as files. */
  method SplitHitsByModuleId(hits: seq<CachedFile>, moduleIds: map<string, string>) returns (kept: seq<CachedFile>, demoted: seq<BranchFile>)
    ensures kept == Holding(hits, moduleIds) && demoted == NotHolding(hits, moduleIds)
  {
    var shared := SharedModuleIds(moduleIds);
    kept, demoted := [], [];
    for i := 0 to |hits|
      invariant kept == Holding(hits[..i], moduleIds) && demoted == NotHolding(hits[..i], moduleIds)
    {
      assert hits[..i + 1][..i] == hits[..i];
      var hit := hits[i];
      if hit.file.path !in moduleIds {
        kept := kept + [hit];
      } else if hit.tree.Some? && hit.tree.value.qualifiedName == moduleIds[hit.file.path] && moduleIds[hit.file.path] !in shared {
        kept := kept + [hit];
      } else {
        demoted := demoted + [hit.file];
      }
    }
    assert hits[..|hits|] == hits;
  }

  function Holding(hits: seq<CachedFile>, ids: map<string, string>): seq<CachedFile> {
    if hits == [] then []
    else
      var h := hits[|hits| - 1];
      Holding(hits[..|hits| - 1], ids) + if ModuleIdHolds(h.tree, ids, h.file.path) then [h] else []
  }

  function NotHolding(hits: seq<CachedFile>, ids: map<string, string>): seq<BranchFile> {
    if hits == [] then []
    else
      var h := hits[|hits| - 1];
      NotHolding(hits[..|hits| - 1], ids) + if ModuleIdHolds(h.tree, ids, h.file.path) then [] else [h.file]
  }

  /** Splitting the hits read back is reading back the split. */
  lemma {:induction false} SplitReads(cache: map<CacheKey, Extraction>, key: string, ids: map<string, string>, files: seq<BranchFile>)
    requires AllCached(cache, key, files)
    ensures AllCached(cache, key, Kept(cache, key, ids, files))
    ensures Holding(ReadAll(cache, key, files), ids) == ReadAll(cache, key, Kept(cache, key, ids, files))
    ensures NotHolding(ReadAll(cache, key, files), ids) == Demoted(cache, key, ids, files)
  {
    if files == [] {
    } else {
      var earlier, f := files[..|files| - 1], files[|files| - 1];
      assert files == earlier + [f];
      SplitReads(cache, key, ids, earlier);
      SplitReadsSnoc(cache, key, ids, earlier, f);
    }
  }

  ghost predicate AllCached(cache: map<CacheKey, Extraction>, key: string, files: seq<BranchFile>) {
    forall f :: f in files ==> KeyOf(f, key) in cache
  }

  lemma SplitReadsSnoc(cache: map<CacheKey, Extraction>, key: string, ids: map<string, string>, earlier: seq<BranchFile>, f: BranchFile)
    requires AllCached(cache, key, earlier) && KeyOf(f, key) in cache && AllCached(cache, key, Kept(cache, key, ids, earlier))
    requires Holding(ReadAll(cache, key, earlier), ids) == ReadAll(cache, key, Kept(cache, key, ids, earlier))
    requires NotHolding(ReadAll(cache, key, earlier), ids) == Demoted(cache, key, ids, earlier)
    ensures AllCached(cache, key, earlier + [f]) && AllCached(cache, key, Kept(cache, key, ids, earlier + [f]))
    ensures Holding(ReadAll(cache, key, earlier + [f]), ids) == ReadAll(cache, key, Kept(cache, key, ids, earlier + [f]))
    ensures NotHolding(ReadAll(cache, key, earlier + [f]), ids) == Demoted(cache, key, ids, earlier + [f])
  {
    var kept := Kept(cache, key, ids, earlier);
    KeptSnoc(cache, key, ids, earlier, f);
    ReadSnoc(cache, key, earlier, f);
    HoldingSnoc(ReadAll(cache, key, earlier), ReadCached(cache, key, f), ids);
    if HitHolds(cache, key, ids, f) {
      ReadSnoc(cache, key, kept, f);
    } else {
      assert kept + [] == kept;
    }
  }

  lemma KeptSnoc(cache: map<CacheKey, Extraction>, key: string, ids: map<string, string>, files: seq<BranchFile>, f: BranchFile)
    ensures Kept(cache, key, ids, files + [f]) == Kept(cache, key, ids, files) + if HitHolds(cache, key, ids, f) then [f] else []
    ensures Demoted(cache, key, ids, files + [f]) == Demoted(cache, key, ids, files) + if HitHolds(cache, key, ids, f) then [] else [f]
  {
    assert (files + [f])[..|files|] == files;
  }

  lemma ReadSnoc(cache: map<CacheKey, Extraction>, key: string, files: seq<BranchFile>, f: BranchFile)
    requires forall g :: g in files ==> KeyOf(g, key) in cache
    requires KeyOf(f, key) in cache
    ensures forall g :: g in files + [f] ==> KeyOf(g, key) in cache
    ensures ReadAll(cache, key, files + [f]) == ReadAll(cache, key, files) + [ReadCached(cache, key, f)]
  {
    assert (files + [f])[..|files|] == files;
  }

  lemma HoldingSnoc(hits: seq<CachedFile>, hit: CachedFile, ids: map<string, string>)
    ensures Holding(hits + [hit], ids) == Holding(hits, ids) + if ModuleIdHolds(hit.tree, ids, hit.file.path) then [hit] else []
    ensures NotHolding(hits + [hit], ids) == NotHolding(hits, ids) + if ModuleIdHolds(hit.tree, ids, hit.file.path) then [] else [hit.file]
  {
    assert (hits + [hit])[..|hits|] == hits;
  }

  method NonEmptyFiles(sizes: map<string, nat>, files: seq<BranchFile>) returns (some: seq<BranchFile>)
    ensures some == NonEmpty(sizes, files)
  {
    some := [];
    for i := 0 to |files|
      invariant some == NonEmpty(sizes, files[..i])
    {
      assert files[..i + 1][..i] == files[..i];
      if SizeOf(sizes, files[i].path) > 0 {
        some := some + [files[i]];
      }
    }
    assert files[..|files|] == files;
  }

  // ----- what git answers a maintenance run, and what the run reports

  /** No refs: the run is skipped. No findings: git failed while they were sought. */
  datatype GitAnswers = GitAnswers(refs: Option<RefSnapshot>, findings: Option<Option<Detection>>)

  /** A verdict names the row it was asked about. */
  ghost predicate Answers(d: Option<Detection>) {
    d.Some? ==> forall name, head :: d.value.verdictFor(name, head).Some? ==> d.value.verdictFor(name, head).value.branch == name
  }

  datatype MaintenanceReport = MaintenanceReport(merged: seq<string>, deleted: seq<string>, purged: seq<string>)

  lemma InsertedSnoc(s: StoreState, added: seq<Chunk>, ids: seq<int>, c: Chunk, id: int)
    requires |added| == |ids|
    ensures InsertedRows(s, added + [c], ids + [id]) == InsertedRow(InsertedRows(s, added, ids), c, id)
  {
    assert (added + [c])[..|ids|] == added && (ids + [id])[..|ids|] == ids;
  }

  lemma NewIdsSnoc(s: StoreState, ids: seq<int>, id: int)
    requires AreNewIds(s, ids) && id !in s.chunks && id !in Elems(ids)
    ensures AreNewIds(s, ids + [id]) && Elems(ids + [id]) == Elems(ids) + {id}
  {
    DistinctAppend(ids, [id]);
    ElemsSnoc(ids, id);
  }

  /** The target after a copy, row by row. */
  lemma CopiedRowsAre(target: seq<Membership>, source: seq<Membership>, slice: Slice)
    ensures var copied := SliceRows(source, slice);
            && (forall row :: row in copied <==> row in source && row.slice == slice)
            && (forall row :: row in RowsNotNaming(target, Elems(ChunkIds(copied))) + copied <==>
                  row in copied || (row in target && row.chunkId !in ChunkIds(copied)))
    ensures Distinct(ChunkIds(source)) && Distinct(ChunkIds(target)) ==>
              Distinct(ChunkIds(RowsNotNaming(target, Elems(ChunkIds(SliceRows(source, slice)))) + SliceRows(source, slice)))
  {
    var copied := SliceRows(source, slice);
    SliceRowsAre(source, slice);
    RowsNotNamingAre(target, Elems(ChunkIds(copied)));
    if Distinct(ChunkIds(source)) && Distinct(ChunkIds(target)) {
      SlicedRows(source, slice);
      CopiedIds(target, copied);
    }
  }

  /** The ids seen so far; one seen twice breaks the key of the whole. */
  lemma IdsOneMore(rows: seq<Membership>, i: nat)
    requires i < |rows|
    ensures Elems(ChunkIds(rows[..i + 1])) == Elems(ChunkIds(rows[..i])) + {rows[i].chunkId}
    ensures Distinct(ChunkIds(rows[..i + 1])) <==> Distinct(ChunkIds(rows[..i])) && rows[i].chunkId !in Elems(ChunkIds(rows[..i]))
    ensures Distinct(ChunkIds(rows)) ==> rows[i].chunkId !in Elems(ChunkIds(rows[..i]))
  {
    var ids := ChunkIds(rows);
    assert ChunkIds(rows[..i]) == ids[..i] && ChunkIds(rows[..i + 1]) == ids[..i] + [ids[i]];
    ElemsSnoc(ids[..i], ids[i]);
    DistinctAppend(ids[..i], [ids[i]]);
    assert ids[i] in Elems([ids[i]]);
  }

  class BranchStore {
    var chunks: map<int, ChunkRow>
    var vectors: map<int, ContentHash>
    var branches: map<string, BranchRecord>
    var files: map<string, seq<BranchFile>>
    var membership: map<string, seq<Membership>>
    var cache: map<CacheKey, Extraction>
    var trees: map<string, seq<TreeRow>>

    function State(): StoreState
      reads this
    {
      StoreState(chunks, vectors, branches, files, membership, cache, trees)
    }

    constructor ()
      ensures State() == EMPTY_STORE
    {
      chunks, vectors, branches, files, membership, cache, trees := map[], map[], map[], map[], map[], map[], map[];
    }

    /** Leaving a unit of work without a commit: every table is as it was. */
    method Rollback(saved: StoreState)
      modifies this
      ensures State() == saved
    {
      chunks, vectors, branches, files := saved.chunks, saved.vectors, saved.branches, saved.files;
      membership, cache, trees := saved.membership, saved.cache, saved.trees;
    }

    // ----- storage calls

    /** DEFAULT_BRANCH_NAME_SQL. */
    method DefaultBranchName() returns (served: Option<string>)
      ensures ServedName(branches, served)
    {
      var stamps := map n | n in branches && branches[n].isDefault :: branches[n].indexedAt;
      served := Newest(stamps);
      assert forall n :: n in branches && branches[n].isDefault ==> n in stamps;
    }

    /** Every record once; the order is left open. */
    method ListBranches() returns (names: seq<string>)
      ensures Elems(names) == branches.Keys && Distinct(names)
    {
      var left := branches.Keys;
      names := [];
      while left != {}
        invariant left <= branches.Keys && Elems(names) == branches.Keys - left && Distinct(names)
      {
        var n := PickOne(left);
        ElemsSnoc(names, n);
        names := names + [n];
        left := left - {n};
      }
    }

    /** The project's ids and hashes, each once; the order is left open. */
    method ListIdHashPairs() returns (pairs: seq<Pair>)
      ensures IsPool(State(), {}, pairs)
    {
      var left := set id | id in chunks && chunks[id].package == PROJECT_PACKAGE;
      pairs := [];
      while left != {}
        invariant forall id :: id in left ==> id in chunks && chunks[id].package == PROJECT_PACKAGE
        invariant forall p :: p in pairs <==> p.0 in chunks && chunks[p.0].package == PROJECT_PACKAGE && p.0 !in left && p.1 == chunks[p.0].hash
        invariant Distinct(Ids(pairs))
      {
        var id := PickOne(left);
        assert forall i :: 0 <= i < |pairs| ==> pairs[i] in pairs && Ids(pairs)[i] == pairs[i].0;
        assert Ids(pairs + [(id, chunks[id].hash)]) == Ids(pairs) + [id];
        pairs := pairs + [(id, chunks[id].hash)];
        left := left - {id};
      }
    }

    /** One row, under an id no row has. */
    method InsertChunk(c: Chunk) returns (id: int)
      modifies this
      ensures id !in old(chunks) && State() == InsertedRow(old(State()), c, id)
    {
      UnusedIdExists(chunks.Keys);
      id :| id !in chunks.Keys;
      chunks := chunks[id := ChunkRow(PROJECT_PACKAGE, Some(c.hash))];
      if c.embedded {
        vectors := vectors[id := c.hash];
      }
    }

    /** Insert one row per chunk under whichever ids SQLite picks, then the vectors the
        embed policy gives. Row by row: the `i`-th id is the `i`-th chunk's, with a vector
        exactly when that chunk is embedded, and no other row or vector changes. */
    method PersistAddedChunks(added: seq<Chunk>) returns (ids: seq<int>)
      modifies this
      ensures |ids| == |added| && AreNewIds(old(State()), ids)
      ensures forall i :: 0 <= i < |ids| ==> ids[i] in chunks && chunks[ids[i]] == ChunkRow(PROJECT_PACKAGE, Some(added[i].hash))
      ensures forall i :: 0 <= i < |ids| && added[i].embedded ==> ids[i] in vectors && vectors[ids[i]] == added[i].hash
      ensures InsertsExactly(old(State()), State(), added, ids)
      ensures State() == InsertedRows(old(State()), added, ids)
    {
      ghost var before := State();
      ids := [];
      for i := 0 to |added|
        invariant |ids| == i && AreNewIds(old(State()), ids)
        invariant State() == InsertedRows(old(State()), added[..i], ids)
        invariant chunks.Keys == old(chunks).Keys + Elems(ids)
      {
        assert added[..i + 1] == added[..i] + [added[i]];
        var id := InsertChunk(added[i]);
        InsertedSnoc(before, added[..i], ids, added[i], id);
        NewIdsSnoc(before, ids, id);
        ids := ids + [id];
      }
      assert added[..|added|] == added;
      RowsAreInserted(before, added, ids);
    }

    /** The branch's rows become exactly `rows`; a repeated chunk id breaks the primary
        key, and nothing is written. */
    method ReplaceMembership(name: string, rows: seq<Membership>) returns (inserted: bool)
      modifies this`membership
      ensures inserted <==> Distinct(ChunkIds(rows))
      ensures membership == if inserted then Replaced(old(membership), name, rows) else old(membership)
    {
      var seen: set<int> := {};
      inserted := true;
      for i := 0 to |rows|
        invariant seen == Elems(ChunkIds(rows[..i])) && inserted && Distinct(ChunkIds(rows[..i]))
        invariant membership == old(membership)
      {
        IdsOneMore(rows, i);
        if rows[i].chunkId in seen {
          inserted := false;
          return;
        }
        seen := seen + {rows[i].chunkId};
      }
      assert rows[..|rows|] == rows;
      membership := Replaced(membership, name, rows);
    }

    /** Frees exactly the project's rows no branch's membership names; every other row is
        as it was. */
    method DeleteUnreferencedProjectChunks() returns (freed: set<int>)
      modifies this`chunks
      ensures forall id :: id in freed <==> id in old(chunks) && old(chunks)[id].package == PROJECT_PACKAGE && !NamedIn(membership, id)
      ensures forall id :: id in chunks <==> id in old(chunks) && id !in freed
      ensures forall id :: id in chunks ==> chunks[id] == old(chunks)[id]
    {
      var left := chunks.Keys;
      freed := {};
      while left != {}
        invariant left <= old(chunks).Keys && chunks == old(chunks) - freed && freed <= old(chunks).Keys - left
        invariant forall id :: id in old(chunks) && id !in left ==>
                    (id in freed <==> old(chunks)[id].package == PROJECT_PACKAGE && !NamedIn(membership, id))
      {
        var id := PickOne(left);
        if chunks[id].package == PROJECT_PACKAGE && !NamedIn(membership, id) {
          chunks := chunks - {id};
          freed := freed + {id};
        }
        left := left - {id};
      }
    }

    method UpsertMany(rows: seq<CacheRow>)
      modifies this`cache
      ensures cache == UpsertedAll(old(cache), rows)
    {
      for i := 0 to |rows|
        invariant cache == UpsertedAll(old(cache), rows[..i])
      {
        assert rows[..i + 1][..i] == rows[..i];
        var (k, row) := rows[i];
        cache := Upserted(cache, k, row);
      }
      assert rows[..|rows|] == rows;
    }

    /** Drops exactly the rows one of whose spans names a given id. */
    method DeleteNamingChunkIds(ids: set<int>)
      modifies this`cache
      ensures forall k :: k in cache <==> k in old(cache) && forall span :: span in old(cache)[k].spans ==> span.chunkId !in ids
      ensures forall k :: k in cache ==> cache[k] == old(cache)[k]
    {
      var left := cache.Keys;
      while left != {}
        invariant left <= cache.Keys <= old(cache).Keys
        invariant forall k :: k in old(cache) && k !in left ==> (k in cache <==> !NamesAny(old(cache)[k], ids))
        invariant forall k :: k in cache ==> cache[k] == old(cache)[k]
      {
        var k := PickOne(left);
        if exists span :: span in cache[k].spans && span.chunkId in ids {
          cache := cache - {k};
        }
        left := left - {k};
      }
    }

    /** Drops exactly the rows under another extraction key. */
    method DeleteSuperseded(key: string)
      modifies this`cache
      ensures forall k :: k in cache <==> k in old(cache) && k.key == key
      ensures forall k :: k in cache ==> cache[k] == old(cache)[k]
    {
      cache := map k | k in cache && k.key == key :: cache[k];
    }

    /** Drops exactly the rows whose blob no branch lists under the row's path. */
    method DeleteUnreferenced()
      modifies this`cache
      ensures forall k :: k in cache <==> k in old(cache) && ListedIn(files, BranchFile(k.path, k.blob))
      ensures forall k :: k in cache ==> cache[k] == old(cache)[k]
    {
      cache := map k | k in cache && ListedIn(files, BranchFile(k.path, k.blob)) :: cache[k];
    }

    // ----- branch_membership.py

    /** Freed chunks, their vectors, then the cache rows: those naming a freed chunk,
        those under another key, those no manifest lists. */
    method CollectProjectGarbage(key: Option<string>) returns (freed: set<int>)
      modifies this
      ensures State() == CollectGarbage(old(State()), key) && freed == Unnamed(old(State()))
    {
      freed := DeleteUnreferencedProjectChunks();
      FreedAreUnnamed(old(State()), freed, chunks);
      vectors := vectors - freed;
      DeleteNamingChunkIds(freed);
      SweptNaming(old(cache), cache, freed);
      if key.Some? {
        DeleteSuperseded(key.value);
        SweptKeys(NotNaming(old(cache), freed), cache, key.value);
      }
      ghost var kept := cache;
      DeleteUnreferenced();
      SweptListing(kept, cache, files);
      SweptCache(old(State()), key);
    }

    method PurgeBranchRows(name: string) returns (freed: set<int>)
      modifies this
      ensures State() == Purged(old(State()), name) && freed == Unnamed(WithoutRows(old(State()), {name}))
    {
      membership := membership - {name};
      files := files - {name};
      trees := trees - {name};
      assert State() == WithoutRows(old(State()), {name});
      freed := CollectProjectGarbage(None);
    }

    /** The stamp both write paths share: the record, the manifest, the membership. Every
        column of the record is the manifest's, the clock's or the caller's but the pin. */
    method ReplaceBranchRows(m: Manifest, rows: seq<Membership>, now: real, isDefault: bool) returns (inserted: bool)
      modifies this
      ensures inserted <==> Distinct(ChunkIds(rows))
      ensures inserted ==>
                && m.name in branches && IsStampOf(branches[m.name], m, now, isDefault, WasPinned(old(State()), m.name))
                && RowsOf(files, m.name) == m.files && RowsOf(membership, m.name) == rows
      ensures inserted ==> forall n :: n != m.name ==>
                && (n in branches <==> n in old(branches)) && (n in branches ==> branches[n] == old(branches)[n])
                && RowsOf(files, n) == RowsOf(old(files), n) && RowsOf(membership, n) == RowsOf(old(membership), n)
      ensures inserted ==> State() == Stamped(old(State()), m, rows, now, isDefault)
    {
      var pinned := m.name in branches && branches[m.name].pinned;
      branches := branches[m.name := StampedRecord(m, now, pinned, isDefault)];
      files := Replaced(files, m.name, m.files);
      inserted := ReplaceMembership(m.name, rows);
    }

    /** Refused for the served row and for a landing unit. */
    method RefuseServedBranch(name: string) returns (refused: Option<PassError>, ghost served: Option<string>)
      ensures ServedName(branches, served) && refused == Refusal(branches, served, name)
    {
      var default_ := DefaultBranchName();
      served := default_;
      if default_ == Some(name) {
        refused := Some(ServedBranch);
      } else if name in branches && branches[name].IsLandingUnit() {
        refused := Some(LandingUnit);
      } else {
        refused := None;
      }
    }

    method WriteFileExtractionCache(m: Manifest, assignments: seq<Assignment>, extracted: seq<ExtractedFile>)
      modifies this`cache
      ensures cache == CacheWith(old(cache), m.files, m.cacheKey, assignments, extracted)
    {
      UpsertMany(ExtractionRows(m.files, m.cacheKey, assignments, extracted));
    }

    /** The previous working-tree branches of the manifest's root. */
    method BranchesRetiredBy(m: Manifest) returns (names: seq<string>)
      ensures Elems(names) == RetiredBy(State(), m)
    {
      var all := ListBranches();
      names := [];
      for i := 0 to |all|
        invariant forall n :: n in Elems(names) <==> n in Elems(all[..i]) && n in branches && IsPreviousCheckout(branches[n], m)
      {
        assert all[..i + 1] == all[..i] + [all[i]];
        assert all[i] in Elems(all);
        ElemsSnoc(all[..i], all[i]);
        if IsPreviousCheckout(branches[all[i]], m) {
          ElemsSnoc(names, all[i]);
          names := names + [all[i]];
        }
      }
      assert all[..|all|] == all;
    }

    /** Retire the previous checkouts outright, then stamp the working-tree branch. */
    method WriteBranchMembership(m: Manifest, assignments: seq<Assignment>, now: real) returns (inserted: bool)
      modifies this
      ensures inserted <==> Distinct(ChunkIds(MembershipRows(assignments)))
      ensures inserted ==>
                State() == Stamped(WithoutBranches(old(State()), RetiredBy(old(State()), m)), m, MembershipRows(assignments), now, true)
    {
      var retired := BranchesRetiredBy(m);
      for i := 0 to |retired|
        invariant State() == WithoutBranches(old(State()), Elems(retired[..i]))
      {
        assert Elems(retired[..i + 1]) == Elems(retired[..i]) + {retired[i]} by {
          assert retired[..i + 1] == retired[..i] + [retired[i]];
        }
        membership := membership - {retired[i]};
        files := files - {retired[i]};
        branches := branches - {retired[i]};
        trees := trees - {retired[i]};
        RemovingOneMore(old(State()), Elems(retired[..i]), retired[i]);
      }
      assert retired[..|retired|] == retired;
      inserted := ReplaceBranchRows(m, MembershipRows(assignments), now, true);
    }

    // ----- branch_pass.py

    /** An existing row of its hash for each chunk, else a new one; the pool is every
        project row but the claimed ones. */
    method AssignChunkRows(chunks_: seq<Chunk>, claimed: set<int>) returns (assignments: seq<Assignment>, inserted: nat, ghost choice: Choice)
      modifies this
      ensures ValidChoice(old(State()), claimed, chunks_, choice)
      ensures assignments == Assigned(choice, chunks_) && inserted == |choice.newIds|
      ensures State() == InsertedRows(old(State()), Added(choice, chunks_), choice.newIds)
    {
      var pairs := ListIdHashPairs();
      var pool := [];
      for i := 0 to |pairs|
        invariant pool == Unclaimed(pairs[..i], claimed)
      {
        assert pairs[..i + 1][..i] == pairs[..i];
        if pairs[i].0 !in claimed {
          pool := pool + [pairs[i]];
        }
      }
      assert pairs[..|pairs|] == pairs;
      UnclaimedIsPool(State(), pairs, claimed);
      var d := DiffChunksByContentHash(pool, chunks_);
      var ids := PersistAddedChunks(d.addedChunks);
      choice := Choice(pool, ids);
      assignments := d.kept + Zip(d.addedChunks, ids);
      inserted := |ids|;
    }

    /** Rows for the misses, and the misses' cache rows; nothing when all files hit. */
    method CacheMisses(input: PassInput) returns (assignments: seq<Assignment>, inserted: nat, ghost choice: Choice)
      modifies this
      ensures ValidPassChoice(old(State()), input, choice)
      ensures assignments == PassAssignments(input, choice) && inserted == |choice.newIds|
      ensures State() == WithMisses(old(State()), input, choice)
    {
      if input.extraction.Some? {
        var claimed := ClaimedIds(input.cached);
        assignments, inserted, choice := AssignChunkRows(input.extraction.value.AllChunks(), claimed);
        InsertedFrame(old(State()), Added(choice, PassChunks(input)), choice.newIds);
        WriteFileExtractionCache(input.manifest, assignments, input.extraction.value.files);
      } else {
        assignments, inserted := [], 0;
        choice := NothingToAssign(State(), Claimed(input));
        NothingExtracted(choice.pool, cache, input.manifest.files, input.manifest.cacheKey);
      }
    }

    /** Pair the misses with rows, cache the misses, stamp the branch with the hits'
        rows plus the misses' rows. */
    method SwapMembership(input: PassInput) returns (stamped: bool, inserted: nat, rows: nat, ghost choice: Choice)
      modifies this
      ensures ValidPassChoice(old(State()), input, choice)
      ensures stamped <==> Distinct(ChunkIds(PassRows(input, choice)))
      ensures inserted == |choice.newIds| && rows == |PassRows(input, choice)|
      ensures stamped ==> State() == StampedPass(old(State()), input, choice)
    {
      var cached := FlattenCached(input.cached);
      var assignments;
      assignments, inserted, choice := CacheMisses(input);
      var all := cached + MembershipRows(assignments);
      rows := |all|;
      stamped := ReplaceBranchRows(input.manifest, all, input.now, false);
    }

    /** The branch's rows of the tree tier replaced. */
    method WriteTreeTier(input: PassInput)
      modifies this`trees
      ensures State() == WithTreeTier(old(State()), input)
    {
      trees := trees - {input.manifest.name};
      var rows := CachedTrees(input.cached) + TreesIn(Extracted(input));
      if rows != [] {
        trees := trees[input.manifest.name := rows];
      }
      assert trees == Replaced(old(trees), input.manifest.name, rows);
    }

    /** Membership, tree tier, GC: the writes of a pass that is not refused. None when
        the membership breaks its primary key; the tables are then left for the rollback. */
    method WritePass(input: PassInput) returns (counts: Option<PassOutcome>, ghost choice: Choice)
      modifies this
      ensures ValidPassChoice(old(State()), input, choice)
      ensures counts == if Distinct(ChunkIds(PassRows(input, choice))) then Some(OutcomeOf(old(State()), input, choice)) else None
      ensures counts.Some? ==> State() == PassResult(old(State()), input, choice)
    {
      ghost var before := State();
      var stamped, inserted, rows;
      stamped, inserted, rows, choice := SwapMembership(input);
      if !stamped {
        counts := None;
        return;
      }
      WriteTreeTier(input);
      StampedThenTreed(before, input, choice);
      ghost var written := State();
      assert written == PassBeforeGc(before, input, choice);
      var freed := CollectProjectGarbage(Some(input.manifest.cacheKey));
      counts := Some(PassOutcome(|input.manifest.files|, |input.cached|, |Extracted(input)|, inserted, rows - inserted, |freed|));
    }

    /** One pass, one transaction: refused, rolled back whole, or committed whole. */
    method RunBranchPass(input: PassInput)
      returns (outcome: Result<PassOutcome, PassError>, ghost served: Option<string>, ghost choice: Choice)
      modifies this
      ensures ServedName(old(branches), served)
      ensures var refused := Refusal(old(branches), served, input.manifest.name);
              if refused.Some? then outcome == Err(refused.value)
              else
                && ValidPassChoice(old(State()), input, choice)
                && outcome == (if Distinct(ChunkIds(PassRows(input, choice))) then Ok(OutcomeOf(old(State()), input, choice))
                               else Err(DuplicateChunkId))
      ensures PassRefusedAs(old(branches), served, input.manifest.name, if outcome.Err? then Some(outcome.error) else None)
      ensures outcome.Err? ==> State() == old(State())
      ensures outcome.Ok? ==> State() == PassResult(old(State()), input, choice)
    {
      choice := Choice([], []);
      var saved := State();
      var refused;
      refused, served := RefuseServedBranch(input.manifest.name);
      PassRefusedExactly(old(branches), served, input.manifest.name);
      if refused.Some? {
        outcome := Err(refused.value);
        return;
      }
      var counts;
      counts, choice := WritePass(input);
      if counts.None? {
        Rollback(saved);
        outcome := Err(DuplicateChunkId);
        return;
      }
      outcome := Ok(counts.value);
    }

    // ----- the working-tree pass's branch step

    method ReindexProject(input: TreeInput) returns (stamped: bool, ghost choice: Choice)
      modifies this
      ensures ValidChoice(old(State()), {}, input.extraction.AllChunks(), choice)
      ensures stamped <==> Distinct(ChunkIds(MembershipRows(TreeAssignments(input, choice))))
      ensures State() == if stamped then TreePassResult(old(State()), input, choice) else old(State())
    {
      var saved := State();
      var m := input.manifest;
      var assignments, inserted;
      assignments, inserted, choice := AssignChunkRows(input.extraction.AllChunks(), {});
      var roots := TreesIn(input.extraction.files);
      if roots != [] {
        trees := (trees - {""})[m.name := roots];
      }
      assert State() == TreeRowsIn(saved, input, choice);
      SameRetired(saved, input, choice);
      stamped := WriteBranchMembership(m, assignments, input.now);
      if !stamped {
        Rollback(saved);
        return;
      }
      WriteFileExtractionCache(m, assignments, input.extraction.files);
      StampedThenCached(saved, input, choice);
      var _ := CollectProjectGarbage(Some(m.cacheKey));
    }

    // ----- branch_indexer.py

    method SplitCacheHits(listed: seq<BranchFile>, key: string) returns (hits: seq<BranchFile>, misses: seq<BranchFile>)
      ensures hits == Hits(cache, key, listed) && misses == Misses(cache, key, listed)
    {
      hits, misses := [], [];
      for i := 0 to |listed|
        invariant hits == Hits(cache, key, listed[..i]) && misses == Misses(cache, key, listed[..i])
      {
        assert listed[..i + 1][..i] == listed[..i];
        if IsHit(cache, key, listed[i]) {
          hits := hits + [listed[i]];
        } else {
          misses := misses + [listed[i]];
        }
      }
      assert listed[..|listed|] == listed;
    }

    /** The hits this layout still names, read back, and everything else extracted. */
    method ReuseOrExtract(ex: Extractor, r: RefListing) returns (input: PassInput)
      ensures input == RefInput(ex, State(), r)
    {
      var m := r.manifest;
      var hits, allMisses := SplitCacheHits(m.files, m.cacheKey);
      HitsAre(cache, m.cacheKey, m.files);
      var misses := NonEmptyFiles(r.sizes, allMisses);
      var moduleIds := PythonModuleIds(ex, MarkerPaths(m.files), MarkerFiles(m.files) + hits + misses);
      var kept, demoted := SplitHitsByModuleId(ReadAll(cache, m.cacheKey, hits), moduleIds);
      SplitReads(cache, m.cacheKey, moduleIds, hits);
      var toExtract := misses + demoted;
      var extraction := if toExtract == [] then None
                        else Some(BranchExtraction(ExtractAll(ex, m.cacheKey, m.files, toExtract), []));
      input := PassInput(m, kept, extraction, r.now);
    }

    /** One pass for a branch at a commit. */
    method IndexRef(ex: Extractor, r: RefListing)
      returns (outcome: Result<PassOutcome, PassError>, ghost served: Option<string>, ghost choice: Choice)
      modifies this
      ensures ServedName(old(branches), served)
      ensures var input := RefInput(ex, old(State()), r);
              var refused := Refusal(old(branches), served, r.manifest.name);
              if refused.Some? then outcome == Err(refused.value)
              else
                && ValidPassChoice(old(State()), input, choice)
                && outcome == (if Distinct(ChunkIds(PassRows(input, choice))) then Ok(OutcomeOf(old(State()), input, choice))
                               else Err(DuplicateChunkId))
      ensures PassRefusedAs(old(branches), served, r.manifest.name, if outcome.Err? then Some(outcome.error) else None)
      ensures outcome.Err? ==> State() == old(State())
      ensures outcome.Ok? ==> Fits(choice, PassChunks(RefInput(ex, old(State()), r)))
                              && State() == PassResult(old(State()), RefInput(ex, old(State()), r), choice)
    {
      var input := ReuseOrExtract(ex, r);
      outcome, served, choice := RunBranchPass(input);
    }

    // ----- branch_retirement.py

    /** INSERT OR REPLACE ... SELECT: the target has the source's rows of the slice, and its
        own rows that name none of their chunks; no chunk twice, no other branch touched. */
    method CopyMembership(source: string, target: string, slice: Slice)
      modifies this`membership
      ensures var copied := SliceRows(RowsOf(old(membership), source), slice);
              && (forall row :: row in copied <==> row in RowsOf(old(membership), source) && row.slice == slice)
              && (forall row :: row in RowsOf(membership, target) <==>
                    row in copied || (row in RowsOf(old(membership), target) && row.chunkId !in ChunkIds(copied)))
      ensures Distinct(ChunkIds(RowsOf(old(membership), source))) && Distinct(ChunkIds(RowsOf(old(membership), target))) ==>
                Distinct(ChunkIds(RowsOf(membership, target)))
      ensures forall b :: b != target ==> RowsOf(membership, b) == RowsOf(old(membership), b)
      ensures membership == CopiedMembership(old(membership), source, target, slice)
    {
      var copied: seq<Membership> := [];
      var from := RowsOf(membership, source);
      for i := 0 to |from|
        invariant copied == SliceRows(from[..i], slice)
      {
        assert from[..i + 1][..i] == from[..i];
        if from[i].slice == slice {
          copied := copied + [from[i]];
        }
      }
      assert from[..|from|] == from;
      CopiedRowsAre(RowsOf(membership, target), from, slice);
      membership := Replaced(membership, target, RowsNotNaming(RowsOf(membership, target), Elems(ChunkIds(copied))) + copied);
    }

    method LinkLandingUnit(verdict: MergeVerdict, index: map<string, LandingStep>, merged: BranchRecord, now: real)
      modifies this
      ensures old(verdict.landingSha in branches && branches[verdict.landingSha].landingKind.None?) ==> State() == old(State())
      ensures !old(verdict.landingSha in branches && branches[verdict.landingSha].landingKind.None?) ==>
                && verdict.landingSha in branches
                && (verdict.landingSha !in old(branches) ==>
                      IsUnitFor(branches[verdict.landingSha], verdict, index, merged.pipelineHash, merged.mergedInto, now))
                && HoldsDiffOf(old(State()), State(), verdict.branch, verdict.landingSha)
      ensures State() == LinkedLandingUnit(old(State()), verdict, index, merged, now)
    {
      var sha := verdict.landingSha;
      LinkExactly(State(), verdict, index, merged, now);
      if sha in branches && !branches[sha].IsLandingUnit() {
        return;
      }
      if sha !in branches {
        branches := branches[sha := LandingUnitRecord(verdict, index, merged, now)];
      }
      CopyMembership(verdict.branch, sha, DiffSlice);
    }

    method ApplyVerdict(verdict: MergeVerdict, baseName: string, now: real, policy: RetirementPolicy, index: map<string, LandingStep>) returns (moved: bool)
      requires verdict.branch in branches
      modifies this
      ensures State() == AppliedVerdict(old(State()), verdict, baseName, now, policy, index)
      ensures moved == Moves(old(branches)[verdict.branch], policy)
    {
      var record := branches[verdict.branch];
      var stamped := record.(mergeEvidence := Some(verdict.evidence), landingSha := Some(verdict.landingSha));
      if record.pinned || !policy.autoRetireMerged {
        branches := branches[verdict.branch := stamped];
        moved := false;
        return;
      }
      var merged := Retired(stamped, Merged, now, policy).(mergedInto := Some(baseName));
      branches := branches[verdict.branch := merged];
      LinkLandingUnit(verdict, index, merged, now);
      moved := true;
    }

    /** The verdicts in order; the names of the branches moved. */
    method ApplyMergeVerdicts(verdicts: seq<MergeVerdict>, baseName: string, now: real, policy: RetirementPolicy, index: map<string, LandingStep>)
      returns (moved: seq<string>)
      requires VerdictsKnown(branches, verdicts)
      modifies this
      ensures State() == AppliedVerdicts(old(State()), verdicts, baseName, now, policy, index)
      ensures moved == MovedBy(old(branches), verdicts, policy)
    {
      moved := [];
      ghost var saved := State();
      for i := 0 to |verdicts|
        invariant VerdictsKnown(old(branches), verdicts[..i])
        invariant State() == AppliedVerdicts(old(State()), verdicts[..i], baseName, now, policy, index)
        invariant moved == MovedBy(old(branches), verdicts[..i], policy)
      {
        assert verdicts[..i + 1] == verdicts[..i] + [verdicts[i]] && verdicts[i] in verdicts;
        PinsKept(saved, verdicts[..i], baseName, now, policy, index);
        AppliedSnoc(saved, verdicts[..i], verdicts[i], baseName, now, policy, index);
        var one := ApplyVerdict(verdicts[i], baseName, now, policy, index);
        if one {
          moved := moved + [verdicts[i].branch];
        }
      }
      assert verdicts[..|verdicts|] == verdicts;
    }

    /** DELETED for the live rows whose ref is gone. */
    method RetireDeleted(kept: set<string>, now: real, policy: RetirementPolicy) returns (gone: seq<string>)
      modifies this`branches
      ensures State() == RetiredDeleted(old(State()), kept, now, policy)
      ensures Elems(gone) == GoneNames(old(branches), kept, policy) && Distinct(gone)
    {
      gone := [];
      ghost var before := branches;
      if !policy.autoRetireDeleted {
        assert branches == RetiredDeleted(State(), kept, now, policy).branches;
        return;
      }
      var names := ListBranches();
      for i := 0 to |names|
        invariant Distinct(gone) && Elems(gone) == GoneAmong(before, kept, Elems(names[..i]))
        invariant branches == DeletedAmong(before, Elems(gone), now, policy)
      {
        var name := names[i];
        assert names[..i + 1] == names[..i] + [name] && name in Elems(names);
        assert name !in names[..i];
        ElemsSnoc(names[..i], name);
        GoneOneMore(before, kept, Elems(names[..i]), name);
        assert name !in Elems(gone);
        if IsGone(branches[name], kept) {
          DeletedOneMore(before, Elems(gone), name, now, policy);
          branches := branches[name := Retired(branches[name], Deleted, now, policy)];
          ElemsSnoc(gone, name);
          gone := gone + [name];
        }
      }
      assert names[..|names|] == names;
      assert Elems(gone) == GoneNames(before, kept, policy);
    }

    /** The rows of every retired branch past its grace window; the records stay. */
    method PurgeDue(now: real, spared: set<string>) returns (purged: seq<string>)
      modifies this
      ensures State() == PurgedDue(old(State()), now, spared)
      ensures Elems(purged) == DueNames(old(State()), now, spared) && Distinct(purged)
    {
      var names := ListBranches();
      purged := [];
      for i := 0 to |names|
        invariant Distinct(purged)
        invariant forall n :: n in Elems(purged) <==> n in Elems(names[..i]) && n in DueNames(old(State()), now, spared)
        invariant State() == if purged == [] then old(State()) else PurgedAll(old(State()), Elems(purged))
      {
        assert names[..i + 1] == names[..i] + [names[i]] && names[i] in Elems(names);
        ElemsSnoc(names[..i], names[i]);
        assert names[i] !in names[..i];
        assert names[i] !in Elems(purged);
        StillOwns(old(State()), purged, names[i]);
        if IsPurgeDue(branches[names[i]], now, spared) && OwnsRows(State(), names[i]) {
          ElemsSnoc(purged, names[i]);
          PurgedOneMore(old(State()), purged, names[i]);
          var _ := PurgeBranchRows(names[i]);
          purged := purged + [names[i]];
        }
      }
      assert names[..|names|] == names;
      assert Elems(purged) == DueNames(old(State()), now, spared);
      assert purged == [] <==> Elems(purged) == {} by {
        if purged != [] {
          assert purged[0] in Elems(purged);
        }
      }
    }

    // ----- branch_maintenance.py

    method ReadProtectedNames(checkedOut: set<string>) returns (names: set<string>, ghost served: Option<string>)
      ensures ServedName(branches, served)
      ensures names == if served.Some? then checkedOut + {served.value} else checkedOut
    {
      var name := DefaultBranchName();
      served := name;
      names := if name.Some? then checkedOut + {name.value} else checkedOut;
    }

    /** Git's verdict for every candidate row that has one. */
    method FindMerges(refs: RefSnapshot, d: Option<Detection>) returns (verdicts: seq<MergeVerdict>, ghost served: Option<string>)
      requires Answers(d)
      ensures ServedName(branches, served) && AreFindings(branches, refs, served, d, verdicts)
    {
      var protectedNames;
      protectedNames, served := ReadProtectedNames(refs.checkedOut);
      verdicts := [];
      if d.None? {
        return;
      }
      var names := ListBranches();
      for i := 0 to |names|
        invariant forall j, k :: 0 <= j < k < |verdicts| ==> verdicts[j].branch != verdicts[k].branch
        invariant forall v :: v in verdicts <==>
                    v.branch in Elems(names[..i]) && v.branch in branches && IsCandidate(branches[v.branch], refs, served, d.value.baseName)
                    && d.value.verdictFor(v.branch, branches[v.branch].headSha) == Some(v)
      {
        assert names[..i + 1] == names[..i] + [names[i]] && names[i] in Elems(names);
        ElemsSnoc(names[..i], names[i]);
        assert names[i] !in names[..i];
        var record := branches[names[i]];
        assert forall j :: 0 <= j < |verdicts| ==> verdicts[j] in verdicts;
        if IsLiveBranchRow(record) && record.name != d.value.baseName && record.name !in protectedNames + refs.tracked {
          var found := d.value.verdictFor(names[i], record.headSha);
          if found.Some? {
            verdicts := verdicts + [found.value];
          }
        }
      }
      assert names[..|names|] == names;
    }

    /** The merge verdicts, then the deleted-ref retirement, in one transaction. */
    method RetireLanded(refs: RefSnapshot, d: Option<Detection>, now: real, policy: RetirementPolicy)
      returns (merged: seq<string>, deleted: seq<string>, ghost served: Option<string>, ghost seen: Option<string>, ghost verdicts: seq<MergeVerdict>)
      requires Answers(d)
      modifies this
      ensures ServedName(old(branches), served) && ServedName(old(branches), seen)
      ensures AreFindings(old(branches), refs, seen, d, verdicts) && VerdictsKnown(old(branches), verdicts)
      ensures State() == RetireStep(old(State()), refs, served, d, verdicts, now, policy)
      ensures RowsRetired(old(State()), State(), refs, served, seen, d, verdicts, now, policy)
      ensures forall n :: n in Elems(deleted) <==>
                n in old(branches) && n in branches && old(branches)[n].status != Deleted && branches[n].status == Deleted
      ensures forall n :: n in merged <==> exists v :: v in verdicts && v.branch == n && !old(branches)[n].pinned && policy.autoRetireMerged
      ensures merged == MovedBy(old(branches), verdicts, policy)
      ensures Elems(deleted) == GoneNames(AppliedVerdicts(old(State()), verdicts, BaseNameOf(d), now, policy, IndexOf(d)).branches, KeptNames(refs, served), policy)
    {
      var found, spared;
      found, seen := FindMerges(refs, d);
      verdicts := found;
      FindingsAreCandidates(branches, refs, seen, d, found);
      spared, served := ReadProtectedNames(refs.checkedOut);
      RunRetiresRows(State(), refs, served, seen, d, found, now, policy);
      ghost var before := State();
      merged := ApplyMergeVerdicts(found, BaseNameOf(d), now, policy, IndexOf(d));
      deleted := RetireDeleted(refs.localHeads + refs.tracked + spared, now, policy);
      forall n {
        ReportedExactly(before, refs, served, seen, d, found, now, policy, n);
      }
    }

    /** One run: skipped whole without the refs; its retirement skipped when git fails
        while merges are sought; the purge last. */
    method RunMaintenance(git: GitAnswers, now: real, policy: RetirementPolicy)
      returns (report: MaintenanceReport, ghost mid: StoreState, ghost served: Option<string>, ghost seen: Option<string>,
               ghost verdicts: seq<MergeVerdict>, ghost last: Option<string>)
      requires git.findings.Some? ==> Answers(git.findings.value)
      modifies this
      ensures git.refs.None? ==> State() == old(State()) && report == MaintenanceReport([], [], [])
      ensures git.refs.Some? && git.findings.None? ==> mid == old(State()) && report.merged == [] && report.deleted == []
      ensures git.refs.Some? && git.findings.Some? ==>
                && ServedName(old(branches), served) && ServedName(old(branches), seen)
                && AreFindings(old(branches), git.refs.value, seen, git.findings.value, verdicts) && VerdictsKnown(old(branches), verdicts)
                && mid == RetireStep(old(State()), git.refs.value, served, git.findings.value, verdicts, now, policy)
                && RowsRetired(old(State()), State(), git.refs.value, served, seen, git.findings.value, verdicts, now, policy)
                && report.merged == MovedBy(old(branches), verdicts, policy)
                && Elems(report.deleted)
                   == GoneNames(AppliedVerdicts(old(State()), verdicts, BaseNameOf(git.findings.value), now, policy, IndexOf(git.findings.value)).branches,
                                KeptNames(git.refs.value, served), policy)
      ensures git.refs.Some? ==>
                && ServedName(mid.branches, last) && State() == PurgeStep(mid, git.refs.value, last, now) && branches == mid.branches
                && Elems(report.purged) == DueNames(mid, now, ProtectedNames(git.refs.value, last))
    {
      mid, served, seen, verdicts, last := State(), None, None, [], None;
      if git.refs.None? {
        report := MaintenanceReport([], [], []);
        return;
      }
      var merged, deleted := [], [];
      if git.findings.Some? {
        merged, deleted, served, seen, verdicts := RetireLanded(git.refs.value, git.findings.value, now, policy);
      }
      mid := State();
      var spared;
      spared, last := ReadProtectedNames(git.refs.value.checkedOut);
      var purged := PurgeDue(now, spared);
      report := MaintenanceReport(merged, deleted, purged);
    }

    // ----- the operator verbs

    method RefuseOutsideTheLifecycle(name: string) returns (refused: Option<VerbError>, ghost served: Option<string>)
      requires name in branches
      ensures ServedName(branches, served)
      ensures refused == if branches[name].IsLandingUnit() then Some(LandingUnitRefused)
                         else if served == Some(name) then Some(ServedRefused) else None
    {
      var default_ := DefaultBranchName();
      served := default_;
      if branches[name].IsLandingUnit() {
        refused := Some(LandingUnitRefused);
      } else if default_ == Some(name) {
        refused := Some(ServedRefused);
      } else {
        refused := None;
      }
    }

    /** One verb; the chunk ids a purge freed. */
    method ApplyBranchVerb(verb: Verb, name: string, now: real, policy: RetirementPolicy)
      returns (freed: Result<set<int>, VerbError>, ghost served: Option<string>)
      modifies this
      ensures ServedName(old(branches), served)
      ensures freed.Err? <==> VerbRefusal(old(branches), served, verb, name).Some?
      ensures freed.Err? ==> State() == old(State()) && freed.error == VerbRefusal(old(branches), served, verb, name).value
      ensures RefusedAs(old(branches), served, verb, name, if freed.Err? then Some(freed.error) else None)
      ensures freed.Ok? ==> VerbWrites(old(State()), State(), verb, name, now, policy)
      ensures freed.Ok? ==> name in old(branches) && State() == VerbResult(old(State()), verb, name, now, policy)
      ensures freed.Ok? ==> freed.value == if verb.Purge? then Unnamed(WithoutRows(old(State()), {name})) else {}
    {
      if name !in branches {
        var default_ := DefaultBranchName();
        served := default_;
        freed := Err(UnknownBranch);
        return;
      }
      var record := branches[name];
      var refused;
      refused, served := RefuseOutsideTheLifecycle(name);
      if (verb.Retire? || verb.Purge?) && refused.Some? {
        freed := Err(refused.value);
        return;
      }
      freed := Ok({});
      VerbExactly(State(), verb, name, now, policy);
      match verb {
        case Purge =>
          if record.status == Active {
            branches := branches[name := ManuallyRetired(record, now, now)];
          }
          assert Unnamed(WithoutRows(State(), {name})) == Unnamed(WithoutRows(old(State()), {name}));
          var ids := PurgeBranchRows(name);
          freed := Ok(ids);
        case Retire =>
          branches := branches[name := ManuallyRetired(record, now, policy.PurgeAfter(now))];
        case Pin =>
          branches := branches[name := record.(pinned := true)];
        case Unpin =>
          branches := branches[name := record.(pinned := false)];
      }
    }
  }

  /** The gone rows among those looked at so far. */
  ghost function GoneAmong(branches: map<string, BranchRecord>, kept: set<string>, looked: set<string>): set<string> {
    set n | n in looked && n in branches && IsGone(branches[n], kept)
  }

  lemma GoneOneMore(branches: map<string, BranchRecord>, kept: set<string>, looked: set<string>, name: string)
    requires name in branches
    ensures GoneAmong(branches, kept, looked + {name})
            == GoneAmong(branches, kept, looked) + if IsGone(branches[name], kept) then {name} else {}
  {
  }

  ghost function DeletedAmong(branches: map<string, BranchRecord>, gone: set<string>, now: real, policy: RetirementPolicy): map<string, BranchRecord> {
    map n | n in branches :: if n in gone then Retired(branches[n], Deleted, now, policy) else branches[n]
  }

  lemma DeletedOneMore(branches: map<string, BranchRecord>, gone: set<string>, name: string, now: real, policy: RetirementPolicy)
    requires name in branches && name !in gone
    ensures DeletedAmong(branches, gone + {name}, now, policy)
            == DeletedAmong(branches, gone, now, policy)[name := Retired(branches[name], Deleted, now, policy)]
  {
  }

  lemma AppliedSnoc(s: StoreState, verdicts: seq<MergeVerdict>, v: MergeVerdict, baseName: string, now: real,
                    policy: RetirementPolicy, index: map<string, LandingStep>)
    requires VerdictsKnown(s.branches, verdicts) && v.branch in s.branches
    ensures VerdictsKnown(s.branches, verdicts + [v])
    ensures AppliedVerdicts(s, verdicts + [v], baseName, now, policy, index)
            == AppliedVerdict(AppliedVerdicts(s, verdicts, baseName, now, policy, index), v, baseName, now, policy, index)
    ensures MovedBy(s.branches, verdicts + [v], policy)
            == MovedBy(s.branches, verdicts, policy) + if Moves(s.branches[v.branch], policy) then [v.branch] else []
  {
    assert (verdicts + [v])[..|verdicts|] == verdicts;
  }

  /** No verdict touches a pin. */
  lemma {:induction false} PinsKept(s: StoreState, verdicts: seq<MergeVerdict>, baseName: string, now: real,
                                    policy: RetirementPolicy, index: map<string, LandingStep>)
    requires VerdictsKnown(s.branches, verdicts)
    ensures var t := AppliedVerdicts(s, verdicts, baseName, now, policy, index);
            forall n :: n in s.branches ==> n in t.branches && t.branches[n].pinned == s.branches[n].pinned
  {
    if verdicts != [] {
      var last, earlier := verdicts[|verdicts| - 1], verdicts[..|verdicts| - 1];
      assert last in verdicts && forall v :: v in earlier ==> v in verdicts;
      PinsKept(s, earlier, baseName, now, policy, index);
      VerdictEffects(AppliedVerdicts(s, earlier, baseName, now, policy, index), last, baseName, now, policy, index);
    }
  }

  /** A branch not purged yet owns what it owned; the records are untouched. */
  lemma StillOwns(s: StoreState, purged: seq<string>, name: string)
    requires name !in Elems(purged)
    ensures var t := if purged == [] then s else PurgedAll(s, Elems(purged));
            t.branches == s.branches && (OwnsRows(t, name) <==> OwnsRows(s, name))
  {
  }

  lemma PurgedOneMore(s: StoreState, purged: seq<string>, name: string)
    ensures Purged(if purged == [] then s else PurgedAll(s, Elems(purged)), name) == PurgedAll(s, Elems(purged) + {name})
  {
    if purged == [] {
      assert Elems(purged) + {name} == {name};
    } else {
      PurgesBatch(s, Elems(purged), name);
    }
  }

  lemma RemovingOneMore(s: StoreState, names: set<string>, name: string)
    ensures var t := WithoutBranches(s, names);
            t.(membership := t.membership - {name}, files := t.files - {name}, trees := t.trees - {name}, branches := t.branches - {name})
            == WithoutBranches(s, names + {name})
  {
    assert s.membership - names - {name} == s.membership - (names + {name});
    assert s.files - names - {name} == s.files - (names + {name});
    assert s.trees - names - {name} == s.trees - (names + {name});
    assert s.branches - names - {name} == s.branches - (names + {name});
  }

  ghost predicate ListsExactly(s: StoreState, ids: set<int>, pairs: seq<Pair>) {
    Distinct(Ids(pairs)) && forall p :: p in pairs <==> p.0 in ids && p.0 in s.chunks && p.1 == s.chunks[p.0].hash
  }

  lemma {:induction false} ListingExists(s: StoreState, ids: set<int>)
    requires ids <= s.chunks.Keys
    ensures exists pairs :: ListsExactly(s, ids, pairs)
  {
    if some :| some in ids {
      ListingExists(s, ids - {some});
      var earlier :| ListsExactly(s, ids - {some}, earlier);
      var pairs := earlier + [(some, s.chunks[some].hash)];
      assert Ids(pairs) == Ids(earlier) + [some];
      forall i | 0 <= i < |earlier| ensures Ids(earlier)[i] != some {
        assert earlier[i] in earlier;
      }
      DistinctAppend(Ids(earlier), [some]);
      forall p ensures p in pairs <==> p.0 in ids && p.0 in s.chunks && p.1 == s.chunks[p.0].hash {
        assert p in pairs <==> p in earlier || p == (some, s.chunks[some].hash);
      }
      assert ListsExactly(s, ids, pairs);
    } else {
      assert forall id :: id in ids ==> false;
      assert ids == {};
      assert ListsExactly(s, ids, []);
    }
  }

  lemma PoolExists(s: StoreState, project: set<int>)
    requires project == set id | id in s.chunks && IsProjectChunk(s, id)
    ensures exists pairs :: IsPool(s, {}, pairs)
  {
    ListingExists(s, project);
    var pairs :| ListsExactly(s, project, pairs);
    assert IsPool(s, {}, pairs);
  }
}
