/** The working-tree pass: what it keeps, what it leaves under its branch, and when it
    tears a cache row. */
module TreePass {
  import opened Common
  import opened BranchRecords
  import opened BundleTables
  import opened ExtractionCache
  import opened ChunkDiff
  import opened BranchPass
  import opened PassFacts
  import opened StoreInvariant
  import opened RefPass
  import opened TornRows
  import opened PassTheorems

  ghost predicate ValidTreeChoice(s: StoreState, input: TreeInput, choice: Choice) {
    ValidChoice(s, {}, input.extraction.AllChunks(), choice)
  }

  ghost predicate TreeInputFaithful(ex: Extractor, input: TreeInput) {
    ex.WellFormed() && ManifestWellFormed(input.manifest) && ExtractionFaithful(ex, input.manifest, input.extraction)
  }

  lemma TreeAssigned(ex: Extractor, s: StoreState, input: TreeInput, choice: Choice)
    requires TablesHold(ex, s) && ValidTreeChoice(s, input, choice)
    ensures var asg, t := TreeAssignments(input, choice), TreePassBeforeGc(s, input, choice);
            && multiset(KeptChunks(asg)) == multiset(input.extraction.AllChunks())
            && Distinct(KeptIds(asg)) && Resolves(t.chunks, asg) && Extends(s.chunks, t.chunks)
            && VectorsOwn(t.chunks, t.vectors) && CacheFaithful(ex, t.chunks, s.cache) && MembershipLive(t.chunks, s.membership)
  {
    var chunks := input.extraction.AllChunks();
    AssignedFacts(s, {}, chunks, choice);
    InsertKeeps(ex, s, Added(choice, chunks), choice.newIds);
    InsertedFrame(s, Added(choice, chunks), choice.newIds);
    AloneKeeps(s, input, choice);
    TreePassTables(s, input, choice);
  }

  lemma AloneKeeps(s: StoreState, input: TreeInput, choice: Choice)
    requires Fits(choice, input.extraction.AllChunks())
    ensures var t, u := InsertedRows(s, Added(choice, input.extraction.AllChunks()), choice.newIds), TreePassAlone(s, input, choice);
            u.chunks == t.chunks && u.vectors == t.vectors
  {
  }

  lemma TreeTablesHold(ex: Extractor, s: StoreState, input: TreeInput, choice: Choice)
    requires TablesHold(ex, s) && TreeInputFaithful(ex, input) && ValidTreeChoice(s, input, choice)
    ensures TablesHold(ex, TreePassBeforeGc(s, input, choice))
  {
    var m, t, asg := input.manifest, TreePassBeforeGc(s, input, choice), TreeAssignments(input, choice);
    TreeAssigned(ex, s, input, choice);
    AloneTables(s, input, choice);
    TreePassTables(s, input, choice);
    CacheWrittenFaithful(ex, m, input.extraction, t.chunks, asg, s.cache);
    TreeRowsLive(t.chunks, asg);
    ReplacingKeeps(t.chunks, s.membership - RetiredBy(s, m), m.name, MembershipRows(asg));
  }

  lemma TreeRowsLive(chunks: map<int, ChunkRow>, asg: seq<Assignment>)
    requires Resolves(chunks, asg) && Distinct(KeptIds(asg))
    ensures Distinct(ChunkIds(MembershipRows(asg))) && forall id :: id in ChunkIds(MembershipRows(asg)) ==> Live(chunks, id)
  {
    assert ChunkIds(MembershipRows(asg)) == KeptIds(asg);
    forall id | id in KeptIds(asg) ensures Live(chunks, id) {
      var i :| 0 <= i < |asg| && KeptIds(asg)[i] == id;
      assert asg[i] in asg;
    }
  }

  /** The working-tree pass keeps the store invariant. It never fails on a repeated
      id: it claims no hit. */
  lemma TreePassKeepsInvariant(ex: Extractor, s: StoreState, input: TreeInput, choice: Choice)
    requires TablesHold(ex, s) && TreeInputFaithful(ex, input) && ValidTreeChoice(s, input, choice)
    ensures Distinct(ChunkIds(MembershipRows(TreeAssignments(input, choice))))
    ensures StoreHolds(ex, TreePassResult(s, input, choice))
  {
    TreeAssigned(ex, s, input, choice);
    TreeRowsLive(TreePassBeforeGc(s, input, choice).chunks, TreeAssignments(input, choice));
    TreeTablesHold(ex, s, input, choice);
    CollectKeeps(ex, TreePassBeforeGc(s, input, choice), Some(input.manifest.cacheKey));
  }

  lemma TreeRowsSurvive(s: StoreState, input: TreeInput, choice: Choice)
    requires Fits(choice, input.extraction.AllChunks())
    ensures var t, after, rows := TreePassBeforeGc(s, input, choice), TreePassResult(s, input, choice), MembershipRows(TreeAssignments(input, choice));
            && RowsOf(after.membership, input.manifest.name) == rows
            && forall row :: row in rows ==> HashAt(after.chunks, row.chunkId) == HashAt(t.chunks, row.chunkId)
  {
    TreePassTables(s, input, choice);
    var t, name := TreePassBeforeGc(s, input, choice), input.manifest.name;
    var rows := MembershipRows(TreeAssignments(input, choice));
    assert RowsOf(t.membership, name) == rows;
    forall row | row in rows ensures row.chunkId in t.chunks ==> Named(t, row.chunkId) {
      var i :| 0 <= i < |rows| && rows[i] == row;
      assert ChunkIds(rows)[i] == row.chunkId;
      assert name in t.membership && row.chunkId in ChunkIds(t.membership[name]);
    }
  }

  /** The branch's membership is the pass's own extraction, path, span and content. */
  lemma TreePassStoresExtraction(ex: Extractor, s: StoreState, input: TreeInput, choice: Choice)
    requires TablesHold(ex, s) && ValidTreeChoice(s, input, choice)
    ensures var after := TreePassResult(s, input, choice);
            Views(after.chunks, RowsOf(after.membership, input.manifest.name)) == Pieces(input.extraction.AllChunks())
  {
    var t, after := TreePassBeforeGc(s, input, choice), TreePassResult(s, input, choice);
    var asg := TreeAssignments(input, choice);
    TreeAssigned(ex, s, input, choice);
    TreeRowsSurvive(s, input, choice);
    ImageAgrees(RowPiece(after.chunks), RowPiece(t.chunks), MembershipRows(asg));
    AssignedViews(t.chunks, asg);
    ImagePermutes(ChunkPiece(), KeptChunks(asg), input.extraction.AllChunks());
  }

  /** A working-tree pass over a store with no torn row makes one exactly when it
      extracts a file it tears. */
  lemma TreePassTearsExactly(ex: Extractor, s: StoreState, input: TreeInput, choice: Choice)
    requires TablesHold(ex, s) && NoTornRow(s) && TreeInputFaithful(ex, input) && ValidTreeChoice(s, input, choice)
    ensures NoTornRow(TreePassResult(s, input, choice))
            <==> !TearsSome(s.cache, input.manifest.cacheKey, input.extraction.files)
  {
    var m, t := input.manifest, TreePassBeforeGc(s, input, choice);
    var asg := TreeAssignments(input, choice);
    TreeAssigned(ex, s, input, choice);
    TreeTablesHold(ex, s, input, choice);
    TreePassTables(s, input, choice);
    StillUntorn(ex, s, t.chunks);
    assert ChunkIds(MembershipRows(asg)) == KeptIds(asg);
    assert RowsOf(t.membership, m.name) == MembershipRows(asg) && RowsOf(t.files, m.name) == m.files;
    WroteTearsExactly(ex, m, input.extraction, s, asg, t);
  }
}
