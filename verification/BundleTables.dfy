/** The bundle's branch tables as one value, and the refcount GC over them
    (python/pydocs_mcp/application/branch_membership.py, python/pydocs_mcp/storage/sqlite). */
module BundleTables {
  import opened Common
  import opened BranchRecords

  /** Each map is a table under its key; a branch with no rows has no entry. */
  datatype StoreState = StoreState(
    chunks: map<int, ChunkRow>,
    vectors: map<int, ContentHash>,
    branches: map<string, BranchRecord>,
    files: map<string, seq<BranchFile>>,
    membership: map<string, seq<Membership>>,
    cache: map<CacheKey, Extraction>,
    trees: map<string, seq<TreeRow>>)

  const EMPTY_STORE := StoreState(map[], map[], map[], map[], map[], map[], map[])

  /** One branch's rows of a table. */
  function RowsOf<T>(table: map<string, seq<T>>, branch: string): seq<T> {
    if branch in table then table[branch] else []
  }

  /** The table once `branch`'s rows are exactly `rows`. */
  function Replaced<T>(table: map<string, seq<T>>, branch: string, rows: seq<T>): map<string, seq<T>> {
    if rows == [] then table - {branch} else table[branch := rows]
  }

  function ChunkIds(rows: seq<Membership>): (ids: seq<int>)
    ensures |ids| == |rows| && forall i :: 0 <= i < |ids| ==> ids[i] == rows[i].chunkId
  {
    seq(|rows|, i requires 0 <= i < |rows| => rows[i].chunkId)
  }

  /** Some membership row, of some branch, names `id`. */
  predicate Named(s: StoreState, id: int) {
    exists b :: b in s.membership && id in ChunkIds(s.membership[b])
  }

  predicate IsProjectChunk(s: StoreState, id: int) {
    id in s.chunks && s.chunks[id].package == PROJECT_PACKAGE
  }

  /** Some branch's manifest lists the file. */
  predicate Listed(s: StoreState, blob: string, path: string) {
    exists b :: b in s.files && BranchFile(path, blob) in s.files[b]
  }

  /** What the project GC frees: the project chunks no membership row names. */
  function Unnamed(s: StoreState): set<int> {
    set id | id in s.chunks && IsProjectChunk(s, id) && !Named(s, id)
  }

  predicate NamesAny(row: Extraction, ids: set<int>) {
    exists span :: span in row.spans && span.chunkId in ids
  }

  /** Cache rows naming a freed chunk go, then rows under any key but the pass's
      (a purge has none), then rows no manifest lists. */
  predicate CacheRowStays(s: StoreState, k: CacheKey, gone: set<int>, key: Option<string>) {
    k in s.cache && !NamesAny(s.cache[k], gone) && (key.None? || k.key == key.value) && Listed(s, k.blob, k.path)
  }

  function CollectGarbage(s: StoreState, key: Option<string>): StoreState {
    var gone := Unnamed(s);
    s.(chunks := s.chunks - gone,
       vectors := s.vectors - gone,
       cache := map k | k in s.cache && CacheRowStays(s, k, gone, key) :: s.cache[k])
  }

  /** `names`' membership, manifest and tree-tier rows removed; the records stay. */
  function WithoutRows(s: StoreState, names: set<string>): StoreState {
    s.(membership := s.membership - names, files := s.files - names, trees := s.trees - names)
  }

  /** The per-branch purge: the branch's rows, then the GC. */
  function Purged(s: StoreState, name: string): StoreState {
    CollectGarbage(WithoutRows(s, {name}), None)
  }

  /** Purging several branches at once. */
  function PurgedAll(s: StoreState, names: set<string>): StoreState {
    CollectGarbage(WithoutRows(s, names), None)
  }

  /** Removing more branches' rows un-names and un-lists, never the reverse. */
  lemma FewerRows(s: StoreState, names: set<string>, more: set<string>)
    ensures forall id :: Named(WithoutRows(s, names + more), id) ==> Named(WithoutRows(s, names), id)
    ensures forall blob, path :: Listed(WithoutRows(s, names + more), blob, path) ==> Listed(WithoutRows(s, names), blob, path)
  {
    var few, many := WithoutRows(s, names + more), WithoutRows(s, names);
    forall id | Named(few, id) ensures Named(many, id) {
      var b :| b in few.membership && id in ChunkIds(few.membership[b]);
      assert b in many.membership;
    }
    forall blob, path | Listed(few, blob, path) ensures Listed(many, blob, path) {
      var b :| b in few.files && BranchFile(path, blob) in few.files[b];
      assert b in many.files;
    }
  }

  lemma SameRowsSameNames(s: StoreState, t: StoreState)
    requires s.membership == t.membership && s.files == t.files
    ensures forall id :: Named(s, id) <==> Named(t, id)
    ensures forall blob, path :: Listed(s, blob, path) <==> Listed(t, blob, path)
  {
  }

  lemma NamesAnyUnion(row: Extraction, a: set<int>, b: set<int>)
    ensures NamesAny(row, a + b) <==> NamesAny(row, a) || NamesAny(row, b)
  {
  }

  /** A collection followed by one over fewer rows is one collection over the fewer rows. */
  lemma TwoCollectionsAreOne(first: StoreState, second: StoreState, whole: StoreState, gone: set<int>, more: set<int>)
    requires gone == Unnamed(first) && more == Unnamed(second) && gone + more == Unnamed(whole)
    requires second == CollectGarbage(first, None).(membership := second.membership, files := second.files, trees := second.trees)
    requires whole == first.(membership := second.membership, files := second.files, trees := second.trees)
    requires forall blob, path :: Listed(second, blob, path) ==> Listed(first, blob, path)
    ensures CollectGarbage(second, None) == CollectGarbage(whole, None)
  {
    var once, twice := CollectGarbage(whole, None), CollectGarbage(second, None);
    assert first.chunks - gone - more == first.chunks - (gone + more);
    assert first.vectors - gone - more == first.vectors - (gone + more);
    assert once.chunks == twice.chunks && once.vectors == twice.vectors;
    SameRowsSameNames(second, whole);
    forall k ensures k in once.cache <==> k in twice.cache {
      if k in first.cache {
        NamesAnyUnion(first.cache[k], gone, more);
      }
    }
    assert once.cache == twice.cache;
  }

  /** Purging branches one after another ends where purging them together does:
      the chunks freed early are a subset of those freed at the end, and a cache
      row dropped early would have been dropped at the end. */
  lemma PurgesBatch(s: StoreState, names: set<string>, name: string)
    ensures Purged(PurgedAll(s, names), name) == PurgedAll(s, names + {name})
  {
    var first := WithoutRows(s, names);
    var second := WithoutRows(PurgedAll(s, names), {name});
    var whole := WithoutRows(s, names + {name});
    assert second.membership == whole.membership && second.files == whole.files && second.trees == whole.trees;
    FewerRows(s, names, {name});
    SameRowsSameNames(second, whole);
    UnnamedInSteps(first, second, whole);
    TwoCollectionsAreOne(first, second, whole, Unnamed(first), Unnamed(second));
  }

  lemma UnnamedInSteps(first: StoreState, second: StoreState, whole: StoreState)
    requires first.chunks == whole.chunks && second.chunks == first.chunks - Unnamed(first)
    requires forall id :: Named(second, id) <==> Named(whole, id)
    requires forall id :: Named(whole, id) ==> Named(first, id)
    ensures Unnamed(first) + Unnamed(second) == Unnamed(whole)
  {
  }

  /** A store the GC has nothing to do in: every project chunk is named and every
      cache row is listed. */
  predicate NothingToCollect(s: StoreState) {
    Unnamed(s) == {} && forall k :: k in s.cache ==> Listed(s, k.blob, k.path)
  }

  lemma CollectingIsInert(s: StoreState)
    requires NothingToCollect(s)
    ensures CollectGarbage(s, None) == s
  {
    assert forall k :: k in s.cache ==> !NamesAny(s.cache[k], {});
    assert CollectGarbage(s, None).cache == s.cache;
    assert s.chunks - {} == s.chunks && s.vectors - {} == s.vectors;
  }

  lemma CollectingLeavesNothing(s: StoreState, key: Option<string>)
    ensures NothingToCollect(CollectGarbage(s, key))
  {
    var after := CollectGarbage(s, key);
    assert forall id :: Named(after, id) <==> Named(s, id);
    forall k | k in after.cache ensures Listed(after, k.blob, k.path) {
      assert CacheRowStays(s, k, Unnamed(s), key);
    }
  }

  /** Two stores agree on everything another branch owns and resolves: its record
      aside, `b`'s files, tree rows and membership are the same and each id it
      names still has the same row. */
  predicate SameBranchView(s: StoreState, t: StoreState, b: string) {
    && RowsOf(s.files, b) == RowsOf(t.files, b)
    && RowsOf(s.trees, b) == RowsOf(t.trees, b)
    && RowsOf(s.membership, b) == RowsOf(t.membership, b)
    && forall id :: id in ChunkIds(RowsOf(s.membership, b)) && id in s.chunks ==> id in t.chunks && t.chunks[id] == s.chunks[id]
  }

  /** The GC never takes a row a branch still names. */
  lemma CollectingKeepsViews(s: StoreState, key: Option<string>, b: string)
    ensures SameBranchView(s, CollectGarbage(s, key), b)
  {
    forall id | id in ChunkIds(RowsOf(s.membership, b)) && id in s.chunks ensures id in CollectGarbage(s, key).chunks {
      assert Named(s, id);
    }
  }

  /** Isolation of the purge: another branch keeps its view. */
  lemma PurgeIsolates(s: StoreState, names: set<string>, b: string)
    requires b !in names
    ensures SameBranchView(s, PurgedAll(s, names), b)
  {
    CollectingKeepsViews(WithoutRows(s, names), None, b);
  }

  /** A purge frees exactly the project chunks only the purged branches named, in
      a store with nothing to collect. */
  lemma PurgeFreesExactly(s: StoreState, names: set<string>, id: int)
    requires NothingToCollect(s) && id in s.chunks
    ensures id !in PurgedAll(s, names).chunks
            <==> IsProjectChunk(s, id) && forall b :: b in s.membership && id in ChunkIds(s.membership[b]) ==> b in names
  {
    var w := WithoutRows(s, names);
    if IsProjectChunk(s, id) && !Named(w, id) {
      forall b | b in s.membership && id in ChunkIds(s.membership[b]) ensures b in names {
        assert b !in names ==> b in w.membership;
      }
    }
  }
}
