/** The ladder's promises for the bundle's own design: convergence from every in-place
    version, re-opening, the stamp, and the order of the key rebuild's drop. */
module LadderTheorems {
  import opened Common
  import opened BundleSchema
  import opened SchemaLadder

  lemma LeastWithin(t: TableName)
    ensures LeastColumns(t) <= FreshColumns(t)
  {
  }

  lemma KeyWithin(t: TableName, i: nat)
    requires i < |LeastKey(t)|
    ensures LeastKey(t)[i] in LeastColumns(t)
  {
  }

  lemma KeyUnlessTier(t: TableName)
    requires t !in V18().tier
    ensures LeastKey(t) == FreshKey(t)
  {
  }

  lemma TreesColumns()
    ensures BRANCH !in LeastColumns(DocumentTrees) && FreshColumns(DocumentTrees) == LeastColumns(DocumentTrees) + {BRANCH}
  {
  }

  lemma ReferencesColumns()
    ensures BRANCH !in LeastColumns(NodeReferences) && FreshColumns(NodeReferences) == LeastColumns(NodeReferences) + {BRANCH}
  {
  }

  lemma ScoresColumns()
    ensures BRANCH !in LeastColumns(NodeScores) && FreshColumns(NodeScores) == LeastColumns(NodeScores) + {BRANCH}
  {
  }

  lemma TierColumns(t: TableName)
    requires t in V18().tier
    ensures BRANCH !in LeastColumns(t) && FreshColumns(t) == LeastColumns(t) + {BRANCH}
  {
    match t
    case DocumentTrees => TreesColumns();
    case NodeReferences => ReferencesColumns();
    case NodeScores => ScoresColumns();
  }

  lemma TierKey(t: TableName)
    requires t in V18().tier
    ensures FreshKey(t) == [BRANCH] + LeastKey(t) && LeastKey(t) != []
  {
  }

  lemma TierShape(t: TableName)
    requires t in V18().tier
    ensures BRANCH !in LeastColumns(t) && FreshColumns(t) == LeastColumns(t) + {BRANCH}
    ensures FreshKey(t) == [BRANCH] + LeastKey(t) && LeastKey(t) != []
  {
    TierColumns(t);
    TierKey(t);
  }

  lemma RebuildIndexesCoherent(t: TableName, k: nat)
    requires t in V18().tier && k < |RebuildIndexes(t)|
    ensures IndexOn(RebuildIndexes(t)[k]).0 == t && IndexOn(RebuildIndexes(t)[k]).1 <= LeastColumns(t)
  {
    match t
    case DocumentTrees => TreesIndexAt(k);
    case NodeReferences => ReferencesIndexAt(k);
    case NodeScores => ScoresIndexAt(k);
  }

  lemma TreesIndexAt(k: nat)
    requires k < 2
    ensures |RebuildIndexes(DocumentTrees)| == 2 && IndexOn(RebuildIndexes(DocumentTrees)[k]).0 == DocumentTrees
    ensures IndexOn(RebuildIndexes(DocumentTrees)[k]).1 <= LeastColumns(DocumentTrees)
  {
    if k == 0 {} else {}
  }

  lemma ReferencesIndexAt(k: nat)
    requires k < 3
    ensures |RebuildIndexes(NodeReferences)| == 3 && IndexOn(RebuildIndexes(NodeReferences)[k]).0 == NodeReferences
    ensures IndexOn(RebuildIndexes(NodeReferences)[k]).1 <= LeastColumns(NodeReferences)
  {
    if k == 0 {} else if k == 1 {} else {}
  }

  lemma ScoresIndexAt(k: nat)
    requires k < 2
    ensures |RebuildIndexes(NodeScores)| == 2 && IndexOn(RebuildIndexes(NodeScores)[k]).0 == NodeScores
    ensures IndexOn(RebuildIndexes(NodeScores)[k]).1 <= LeastColumns(NodeScores)
  {
    if k == 0 {} else {}
  }

  lemma IndexesCoherent(i: Index)
    ensures IndexOn(i).0 in V18().tier ==> i in RebuildIndexes(IndexOn(i).0)
  {
    IndexesOfTier(i, IndexOn(i).0);
  }

  lemma IndexesOfTier(i: Index, t: TableName)
    requires IndexOn(i).0 == t
    ensures t in V18().tier ==> i in RebuildIndexes(t)
  {
    match t
    case DocumentTrees => OnTrees(i);
    case NodeReferences => OnReferences(i);
    case NodeScores => OnScores(i);
    case _ =>
  }

  lemma OnTrees(i: Index)
    requires IndexOn(i).0 == DocumentTrees
    ensures i in RebuildIndexes(DocumentTrees)
  {
    assert i == RebuildIndexes(DocumentTrees)[0] || i == RebuildIndexes(DocumentTrees)[1];
  }

  lemma OnReferences(i: Index)
    requires IndexOn(i).0 == NodeReferences
    ensures i in RebuildIndexes(NodeReferences)
  {
    assert i == RebuildIndexes(NodeReferences)[0] || i == RebuildIndexes(NodeReferences)[1] || i == RebuildIndexes(NodeReferences)[2];
  }

  lemma OnScores(i: Index)
    requires IndexOn(i).0 == NodeScores
    ensures i in RebuildIndexes(NodeScores)
  {
    assert i == RebuildIndexes(NodeScores)[0] || i == RebuildIndexes(NodeScores)[1];
  }

  lemma V18Coherent()
    ensures Coherent(V18())
  {
    var d := V18();
    forall t: TableName
      ensures d.least(t) <= d.full(t) && (forall c :: c in d.leastKey(t) ==> c in d.least(t))
      ensures t !in d.tier ==> d.leastKey(t) == d.fullKey(t)
      ensures t in d.tier ==>
                BRANCH !in d.least(t) && d.full(t) == d.least(t) + {BRANCH} && d.fullKey(t) == [BRANCH] + d.leastKey(t) && d.leastKey(t) != []
      ensures forall i :: t in d.tier && i in d.rebuildIndexes(t) ==> d.indexOn(i).0 == t && d.indexOn(i).1 <= d.least(t)
    {
      LeastWithin(t);
      forall c | c in d.leastKey(t) ensures c in d.least(t) {
        var k :| 0 <= k < |LeastKey(t)| && LeastKey(t)[k] == c;
        KeyWithin(t, k);
      }
      if t in d.tier { TierShape(t); } else { KeyUnlessTier(t); }
      forall i | t in d.tier && i in d.rebuildIndexes(t) ensures d.indexOn(i).0 == t && d.indexOn(i).1 <= d.least(t) {
        var k :| 0 <= k < |RebuildIndexes(t)| && RebuildIndexes(t)[k] == i;
        RebuildIndexesCoherent(t, k);
      }
    }
    forall i: Index ensures d.indexOn(i).0 in d.tier ==> i in d.rebuildIndexes(d.indexOn(i).0) {
      IndexesCoherent(i);
    }
  }

  // ----- trusted starts

  /** The tables and indexes no sweep creates. */
  ghost predicate HasCore(b: Bundle) {
    && Named(Packages) in b.tables && Named(Chunks) in b.tables && Named(ChunksFts) in b.tables && Named(ModuleMembers) in b.tables
    && IxChunksPackage in b.indexes && IxModuleMembersPackage in b.indexes && IxModuleMembersName in b.indexes
  }

  /** The least shape a bundle stamped `current` is trusted to have: the core, a shape within
      the fresh one, the sweeps its arm does not replay, and below v18 no branch key. */
  ghost predicate Trusted(b: Bundle, current: int) {
    && b.version == current && ArmOf(current) != Rebuild
    && Shaped(V18(), b) && HasCore(b) && TrustsSkipped(V18(), b, SinceOf(ArmOf(current)))
    && (ArmOf(current) != Repair ==> TierUnkeyed(b))
  }

  ghost predicate TierUnkeyed(b: Bundle) {
    forall t :: t in V18().tier && Named(t) in b.tables ==> BRANCH !in b.tables[Named(t)].columns
  }

  // ----- each sweep finds what it needs

  ghost predicate Has(b: Bundle, t: TableName) { Named(t) in b.tables }

  /** A column for a table that is there. */
  lemma AddsToTable(b: Bundle, s: seq<Statement>, i: nat, t: TableName, c: Column)
    requires i < |s| && s[i] == AddColumn(t, c) && Has(b, t) && c in FreshColumns(t) && t !in V18().tier
    ensures SupportedAt(V18(), b, s, i)
  {
  }

  /** An index on a table the sweep creates, over columns it creates it with. */
  lemma IndexesOwnTable(b: Bundle, s: seq<Statement>, j: nat, i: nat, x: Index)
    requires j < i < |s| && s[i] == CreateIndex(x) && s[j] == CreateTable(IndexOn(x).0) && IndexOn(x).1 <= LeastColumns(IndexOn(x).0)
    ensures SupportedAt(V18(), b, s, i)
  {
    assert Creates(s[j], IndexOn(x).0);
  }

  lemma CreatesTable(b: Bundle, s: seq<Statement>, i: nat)
    requires i < |s| && s[i].CreateTable?
    ensures SupportedAt(V18(), b, s, i)
  {
  }

  lemma RebuildsTier(b: Bundle, s: seq<Statement>, i: nat, t: TableName)
    requires i < |s| && s[i] == RebuildKey(t) && t in V18().tier
    ensures SupportedAt(V18(), b, s, i)
  {
  }

  /** An index on a table that is there, over one column the sweep has added. */
  lemma IndexesAdded(d: Design, b: Bundle, s: seq<Statement>, j: nat, i: nat, x: Index, t: TableName, c: Column)
    requires j < i < |s| && s[i] == CreateIndex(x) && d.indexOn(x) == (t, {c}) && Has(b, t) && s[j] == AddColumn(t, c)
    ensures SupportedAt(d, b, s, i)
  {
    assert Adds(s[j], t, c);
  }

  lemma IndexesAddedPair(d: Design, b: Bundle, s: seq<Statement>, j: nat, k: nat, i: nat, x: Index, t: TableName, c: Column, e: Column)
    requires j < i < |s| && k < i && s[i] == CreateIndex(x) && d.indexOn(x) == (t, {c, e}) && Has(b, t)
    requires s[j] == AddColumn(t, c) && s[k] == AddColumn(t, e)
    ensures SupportedAt(d, b, s, i)
  {
    AddedBefore(d, b, s, j, i, t, c);
    AddedBefore(d, b, s, k, i, t, e);
  }

  lemma AddedBefore(d: Design, b: Bundle, s: seq<Statement>, j: nat, i: nat, t: TableName, c: Column)
    requires j < i < |s| && s[j] == AddColumn(t, c)
    ensures ColumnBy(d, b, s, i, t, c)
  {
    assert Adds(s[j], t, c);
  }

  lemma Sweep3Supported(b: Bundle)
    requires HasCore(b)
    ensures Supported(V18(), b, Sweep3())
  {
    forall i: nat | i < |Sweep3()| ensures SupportedAt(V18(), b, Sweep3(), i) {
      if i in {2, 3, 4} { Sweep3Columns(b, Sweep3()); } else { Sweep3Indexes(b, Sweep3()); }
    }
  }

  lemma Sweep3Columns(b: Bundle, s: seq<Statement>)
    requires s == Sweep3() && HasCore(b)
    ensures SupportedAt(V18(), b, s, 2) && SupportedAt(V18(), b, s, 3) && SupportedAt(V18(), b, s, 4)
  {
    AddsToTable(b, s, 2, Chunks, MODULE);
    AddsToTable(b, s, 3, Chunks, CONTENT_HASH);
    AddsToTable(b, s, 4, Packages, LOCAL_PATH);
  }

  lemma Sweep3Indexes(b: Bundle, s: seq<Statement>)
    requires s == Sweep3() && Has(b, Chunks)
    ensures SupportedAt(V18(), b, s, 0) && SupportedAt(V18(), b, s, 1) && SupportedAt(V18(), b, s, 5)
  {
    CreatesTable(b, s, 0);
    IndexesOwnTable(b, s, 0, 1, IdxTreesPackage);
    IndexesAdded(V18(), b, s, 2, 5, IxChunksModule, Chunks, MODULE);
  }

  lemma ReferencesIndexes()
    ensures IndexOn(IxRefsFrom).1 + IndexOn(IxRefsToName).1 + IndexOn(IxRefsToNode).1 <= LeastColumns(NodeReferences)
  {
  }

  lemma MultiVectorIndexes()
    ensures IndexOn(IdxCmvPlaidDocId).1 + IndexOn(IdxCmvPackage).1 <= LeastColumns(ChunkMultiVectorIds)
  {
  }

  lemma ScoresIndexes()
    ensures IndexOn(IxNodeScoresQname).1 + IndexOn(IxNodeScoresPackage).1 <= LeastColumns(NodeScores)
  {
  }

  /** A sweep of one new table and indexes over the columns it is created with. */
  lemma OwnTableSweep(b: Bundle, s: seq<Statement>, t: TableName, indexes: seq<Index>)
    requires |s| == |indexes| + 1 && s[0] == CreateTable(t)
    requires forall k :: 0 <= k < |indexes| ==> s[k + 1] == CreateIndex(indexes[k]) && IndexOn(indexes[k]).0 == t && IndexOn(indexes[k]).1 <= LeastColumns(t)
    ensures Supported(V18(), b, s)
  {
    forall i: nat | i < |s| ensures SupportedAt(V18(), b, s, i) {
      if i == 0 {
        CreatesTable(b, s, 0);
      } else {
        assert s[i] == s[i - 1 + 1];
        IndexesOwnTable(b, s, 0, i, indexes[i - 1]);
      }
    }
  }

  lemma Sweep4Supported(b: Bundle)
    ensures Supported(V18(), b, Sweep4())
  {
    ReferencesIndexes();
    OwnTableSweep(b, Sweep4(), NodeReferences, [IxRefsFrom, IxRefsToName, IxRefsToNode]);
  }

  lemma Sweep6Supported(b: Bundle)
    ensures Supported(V18(), b, Sweep6())
  {
    MultiVectorIndexes();
    OwnTableSweep(b, Sweep6(), ChunkMultiVectorIds, [IdxCmvPlaidDocId, IdxCmvPackage]);
  }

  lemma Sweep10Supported(b: Bundle)
    ensures Supported(V18(), b, Sweep10())
  {
    ScoresIndexes();
    OwnTableSweep(b, Sweep10(), NodeScores, [IxNodeScoresQname, IxNodeScoresPackage]);
  }

  /** The sweeps of column additions to the core tables. */
  lemma ColumnSweepsSupported(b: Bundle)
    requires HasCore(b)
    ensures Supported(V18(), b, Sweep5()) && Supported(V18(), b, Sweep7()) && Supported(V18(), b, Sweep12())
  {
    AddsToTable(b, Sweep5(), 0, Packages, EMBEDDING_MODEL);
    AddsToTable(b, Sweep7(), 0, Chunks, QUALIFIED_NAME);
    AddsToTable(b, Sweep12(), 0, Chunks, EMBEDDED);
  }

  lemma Sweep15Supported(b: Bundle)
    requires HasCore(b)
    ensures Supported(V18(), b, Sweep15())
  {
    AddsToTable(b, Sweep15(), 0, Chunks, SOURCE_PATH);
    AddsToTable(b, Sweep15(), 1, Chunks, START_LINE);
    AddsToTable(b, Sweep15(), 2, Chunks, END_LINE);
  }

  lemma Sweep11Supported(b: Bundle)
    ensures Supported(V18(), b, Sweep11())
  {
    CreatesTable(b, Sweep11(), 0);
  }

  lemma MetadataSweepsSupported(b: Bundle)
    requires Has(b, IndexMetadata)
    ensures Supported(V18(), b, Sweep13()) && Supported(V18(), b, Sweep17())
  {
    AddsToTable(b, Sweep13(), 0, IndexMetadata, GIT_HEAD);
    AddsToTable(b, Sweep17(), 0, IndexMetadata, LOADABLE_GRAMMARS);
  }

  lemma Sweep14Supported(b: Bundle)
    requires HasCore(b) && Has(b, IndexMetadata)
    ensures Supported(V18(), b, Sweep14())
  {
    DecisionTableSupported(b, Sweep14());
    DecisionColumnsSupported(b, Sweep14());
  }

  lemma DecisionTableSupported(b: Bundle, s: seq<Statement>)
    requires s == Sweep14()
    ensures SupportedAt(V18(), b, s, 0) && SupportedAt(V18(), b, s, 1)
  {
    CreatesTable(b, s, 0);
    IndexesOwnTable(b, s, 0, 1, IxDecisionsPackage);
  }

  lemma DecisionColumnsSupported(b: Bundle, s: seq<Statement>)
    requires s == Sweep14() && Has(b, Chunks) && Has(b, IndexMetadata)
    ensures SupportedAt(V18(), b, s, 2) && SupportedAt(V18(), b, s, 3) && SupportedAt(V18(), b, s, 4)
  {
    AddsToTable(b, s, 2, Chunks, DECISION_ID);
    AddsToTable(b, s, 3, IndexMetadata, ACTIVITY_SUMMARY);
    AddsToTable(b, s, 4, IndexMetadata, OVERVIEW_SUMMARY);
  }

  lemma IndexesOld(d: Design, b: Bundle, s: seq<Statement>, i: nat, x: Index, t: TableName, c: Column)
    requires i < |s| && s[i] == CreateIndex(x) && d.indexOn(x) == (t, {c}) && Has(b, t) && c in b.tables[Named(t)].columns
    ensures SupportedAt(d, b, s, i)
  {
  }

  lemma Sweep16Supported(b: Bundle)
    requires HasCore(b) && CONTENT_HASH in b.tables[Named(Chunks)].columns
    ensures Supported(V18(), b, Sweep16())
  {
    var s := Sweep16();
    IndexesOld(V18(), b, s, 4, IxChunksContentHash, Chunks, CONTENT_HASH);
    Sweep16Tables(b, s);
    Sweep16Indexes(b, s);
  }

  lemma Sweep16Tables(b: Bundle, s: seq<Statement>)
    requires s == Sweep16()
    ensures SupportedAt(V18(), b, s, 0) && SupportedAt(V18(), b, s, 1) && SupportedAt(V18(), b, s, 2) && SupportedAt(V18(), b, s, 3)
  {
    CreatesTable(b, s, 0);
    CreatesTable(b, s, 1);
    CreatesTable(b, s, 2);
    CreatesTable(b, s, 3);
  }

  lemma Sweep16Indexes(b: Bundle, s: seq<Statement>)
    requires s == Sweep16()
    ensures SupportedAt(V18(), b, s, 5) && SupportedAt(V18(), b, s, 6) && SupportedAt(V18(), b, s, 7)
  {
    IndexesBranchChunks(b, s, 5, IxBranchChunksChunk);
    IndexesBranchChunks(b, s, 6, IxBranchChunksChanged);
    IndexesBranchChunks(b, s, 7, IxBranchChunksSlice);
  }

  lemma IndexesBranchChunks(b: Bundle, s: seq<Statement>, i: nat, x: Index)
    requires 3 < i < |s| && s[3] == CreateTable(BranchChunks) && s[i] == CreateIndex(x)
    requires x in {IxBranchChunksChunk, IxBranchChunksChanged, IxBranchChunksSlice}
    ensures SupportedAt(V18(), b, s, i)
  {
    IndexesOwnTable(b, s, 3, i, x);
  }

  lemma LandingColumnsSupported(b: Bundle, s: seq<Statement>)
    requires s == Sweep18() && Has(b, Branches)
    ensures SupportedAt(V18(), b, s, 0) && SupportedAt(V18(), b, s, 1) && SupportedAt(V18(), b, s, 2)
  {
    AddsToTable(b, s, 0, Branches, LANDING_KIND);
    AddsToTable(b, s, 1, Branches, LANDED_AT);
    AddsToTable(b, s, 2, Branches, DIFF_GENERATION_KEY);
  }

  lemma MoreLandingColumnsSupported(b: Bundle, s: seq<Statement>)
    requires s == Sweep18() && Has(b, Branches)
    ensures SupportedAt(V18(), b, s, 3) && SupportedAt(V18(), b, s, 4) && SupportedAt(V18(), b, s, 5)
  {
    AddsToTable(b, s, 3, Branches, MERGE_EVIDENCE);
    AddsToTable(b, s, 4, Branches, LANDING_SHA);
    AddsToTable(b, s, 5, Branches, UPSTREAM_GONE);
  }

  lemma LandingIndexSupported(b: Bundle, s: seq<Statement>)
    requires s == Sweep18() && Has(b, Branches)
    ensures SupportedAt(V18(), b, s, 10)
  {
    IndexesAddedPair(V18(), b, s, 0, 1, 10, IxBranchesLanding, Branches, LANDING_KIND, LANDED_AT);
  }

  lemma KeyStatementsSupported(b: Bundle, s: seq<Statement>)
    requires s == Sweep18() && HasCore(b) && Has(b, IndexMetadata) && Has(b, DecisionRecords)
    ensures SupportedAt(V18(), b, s, 6) && SupportedAt(V18(), b, s, 7) && SupportedAt(V18(), b, s, 8)
  {
    assert s[6] == AddColumn(IndexMetadata, DIFF_RETAIN_HASH);
    assert s[7] == AddColumn(ModuleMembers, BRANCH);
    assert s[8] == AddColumn(DecisionRecords, BRANCH);
    AddsToTable(b, s, 6, IndexMetadata, DIFF_RETAIN_HASH);
    AddsToTable(b, s, 7, ModuleMembers, BRANCH);
    AddsToTable(b, s, 8, DecisionRecords, BRANCH);
  }

  lemma RebuildsSupported(b: Bundle, s: seq<Statement>)
    requires s == Sweep18()
    ensures SupportedAt(V18(), b, s, 9) && SupportedAt(V18(), b, s, 11) && SupportedAt(V18(), b, s, 12) && SupportedAt(V18(), b, s, 13)
  {
    CreatesTable(b, s, 9);
    RebuildsTier(b, s, 11, DocumentTrees);
    RebuildsTier(b, s, 12, NodeReferences);
    RebuildsTier(b, s, 13, NodeScores);
  }

  lemma Sweep18Supported(b: Bundle)
    requires HasCore(b) && Has(b, Branches) && Has(b, IndexMetadata) && Has(b, DecisionRecords)
    ensures Supported(V18(), b, Sweep18())
  {
    forall i: nat | i < |Sweep18()| ensures SupportedAt(V18(), b, Sweep18(), i) {
      Sweep18At(b, Sweep18(), i);
    }
  }

  lemma Sweep18At(b: Bundle, s: seq<Statement>, i: nat)
    requires s == Sweep18() && i < |s| && HasCore(b) && Has(b, Branches) && Has(b, IndexMetadata) && Has(b, DecisionRecords)
    ensures SupportedAt(V18(), b, s, i)
  {
    if i < 3 {
      LandingColumnsSupported(b, s);
    } else if i < 6 {
      MoreLandingColumnsSupported(b, s);
    } else if i < 9 {
      KeyStatementsSupported(b, s);
    } else if i == 10 {
      LandingIndexSupported(b, s);
    } else {
      RebuildsSupported(b, s);
    }
  }

  // ----- the sweeps in order

  /** The sweep at a place of the order. */
  lemma ReachedSweep(b: Bundle, since: nat, n: nat, k: nat, version: nat)
    requires n <= |SWEEP_VERSIONS| && Reached(V18(), b, since, n) && k < n && SWEEP_VERSIONS[k] == version
    ensures SweepReached(V18(), b, version <= since, Sweep(version))
  {
    assert ReachedAt(V18(), b, since, k);
  }

  lemma Gives(b: Bundle, trusted: bool, statements: seq<Statement>, j: nat, s: Statement)
    requires SweepReached(V18(), b, trusted, statements) && j < |statements| && statements[j] == s && (trusted ==> !OnTier(V18(), s))
    ensures Given(V18(), b, s)
  {
    assert StatementReached(V18(), b, trusted, statements[j]);
  }

  /** The tables and columns a sweep needs from the bundle. */
  ghost predicate HasNeeded(b: Bundle, version: nat) {
    && HasCore(b)
    && (version in {13, 14, 17, 18} ==> Has(b, IndexMetadata))
    && (version == 16 ==> CONTENT_HASH in b.tables[Named(Chunks)].columns)
    && (version == 18 ==> Has(b, Branches) && Has(b, DecisionRecords))
  }

  lemma VersionSupported(b: Bundle, version: nat)
    requires HasNeeded(b, version)
    ensures Supported(V18(), b, Sweep(version))
  {
    match version
    case 3 => Sweep3Supported(b);
    case 4 => Sweep4Supported(b);
    case 5 => ColumnSweepsSupported(b);
    case 6 => Sweep6Supported(b);
    case 7 => ColumnSweepsSupported(b);
    case 10 => Sweep10Supported(b);
    case 11 => Sweep11Supported(b);
    case 12 => ColumnSweepsSupported(b);
    case 13 => MetadataSweepsSupported(b);
    case 14 => Sweep14Supported(b);
    case 15 => Sweep15Supported(b);
    case 16 => Sweep16Supported(b);
    case 17 => MetadataSweepsSupported(b);
    case 18 => Sweep18Supported(b);
    case _ =>
  }

  lemma Versions(n: nat)
    requires n < |SWEEP_VERSIONS|
    ensures SWEEP_VERSIONS[0] == 3
    ensures SWEEP_VERSIONS[n] in {13, 14, 17, 18} ==> n > 6 && SWEEP_VERSIONS[6] == 11
    ensures SWEEP_VERSIONS[n] == 16 ==> n > 0
    ensures SWEEP_VERSIONS[n] == 18 ==> n > 11 && SWEEP_VERSIONS[9] == 14 && SWEEP_VERSIONS[11] == 16
  {
  }

  lemma MetadataReached(b: Bundle, since: nat, n: nat)
    requires n <= |SWEEP_VERSIONS| && Reached(V18(), b, since, n) && n > 6 && SWEEP_VERSIONS[6] == 11
    ensures Has(b, IndexMetadata)
  {
    ReachedSweep(b, since, n, 6, 11);
    Gives(b, 11 <= since, Sweep11(), 0, CreateTable(IndexMetadata));
  }

  lemma ContentHashReached(b: Bundle, since: nat, n: nat)
    requires n <= |SWEEP_VERSIONS| && Reached(V18(), b, since, n) && n > 0 && SWEEP_VERSIONS[0] == 3
    ensures Has(b, Chunks) && CONTENT_HASH in b.tables[Named(Chunks)].columns
  {
    ReachedSweep(b, since, n, 0, 3);
    Gives(b, 3 <= since, Sweep3(), 3, AddColumn(Chunks, CONTENT_HASH));
  }

  lemma BranchTablesReached(b: Bundle, since: nat, n: nat)
    requires n <= |SWEEP_VERSIONS| && Reached(V18(), b, since, n) && n > 11 && SWEEP_VERSIONS[9] == 14 && SWEEP_VERSIONS[11] == 16
    ensures Has(b, Branches) && Has(b, DecisionRecords)
  {
    ReachedSweep(b, since, n, 9, 14);
    Gives(b, 14 <= since, Sweep14(), 0, CreateTable(DecisionRecords));
    ReachedSweep(b, since, n, 11, 16);
    Gives(b, 16 <= since, Sweep16(), 0, CreateTable(Branches));
  }

  lemma NeededReached(b: Bundle, since: nat, n: nat)
    requires n < |SWEEP_VERSIONS| && HasCore(b) && Reached(V18(), b, since, n)
    ensures HasNeeded(b, SWEEP_VERSIONS[n])
  {
    Versions(n);
    if SWEEP_VERSIONS[n] in {13, 14, 17, 18} { MetadataReached(b, since, n); }
    if SWEEP_VERSIONS[n] == 16 { ContentHashReached(b, since, n); }
    if SWEEP_VERSIONS[n] == 18 { BranchTablesReached(b, since, n); }
  }

  lemma CoreStays(b: Bundle, out: Bundle)
    requires HasCore(b) && Grows(b, out)
    ensures HasCore(out)
  {
  }

  /** Each sweep of the ladder finds its tables and columns in the core or from the sweeps
      before it. */
  lemma EverySweepIsSupported(b: Bundle, since: nat)
    requires HasCore(b)
    ensures Climbs(V18(), b, since)
  {
    forall n: nat, mid | n < |SWEEP_VERSIONS| && Grows(b, mid) && Reached(V18(), mid, since, n)
      ensures Supported(V18(), mid, Sweep(SWEEP_VERSIONS[n]))
    {
      CoreStays(b, mid);
      NeededReached(mid, since, n);
      VersionSupported(mid, SWEEP_VERSIONS[n]);
    }
  }

  // ----- convergence

  /** The fresh DDL's tables, columns, keys and indexes. */
  ghost predicate IsComplete(b: Bundle) {
    && (forall t: TableName :: Named(t) in b.tables && b.tables[Named(t)].columns == FreshColumns(t) && b.tables[Named(t)].key == FreshKey(t))
    && (forall t: TableName :: Side(t) !in b.tables)
    && (forall i: Index :: i in b.indexes && b.indexes[i] == Named(IndexOn(i).0))
  }

  /** Every sweep is reached; the ones an arm may skip are trusted. */
  ghost predicate AllReached(b: Bundle) {
    exists since: nat :: since <= 9 && Reached(V18(), b, since, 14)
  }

  lemma SweepAt(b: Bundle, k: nat, version: nat) returns (trusted: bool)
    requires AllReached(b) && k < 14 && SWEEP_VERSIONS[k] == version
    ensures SweepReached(V18(), b, trusted, Sweep(version)) && (version > 9 ==> !trusted)
  {
    var since: nat :| since <= 9 && Reached(V18(), b, since, 14);
    ReachedSweep(b, since, 14, k, version);
    trusted := version <= since;
  }

  lemma EarlyChunkColumns(b: Bundle)
    requires AllReached(b)
    ensures Has(b, Chunks) && {MODULE, CONTENT_HASH} <= b.tables[Named(Chunks)].columns
    ensures Has(b, Packages) && LOCAL_PATH in b.tables[Named(Packages)].columns && IxChunksModule in b.indexes
  {
    var t1 := SweepAt(b, 0, 3);
    Gives(b, t1, Sweep3(), 2, AddColumn(Chunks, MODULE));
    Gives(b, t1, Sweep3(), 3, AddColumn(Chunks, CONTENT_HASH));
    Gives(b, t1, Sweep3(), 4, AddColumn(Packages, LOCAL_PATH));
    Gives(b, t1, Sweep3(), 5, CreateIndex(IxChunksModule));
  }

  lemma MiddleChunkColumns(b: Bundle)
    requires AllReached(b)
    ensures Has(b, Chunks) && {QUALIFIED_NAME, EMBEDDED} <= b.tables[Named(Chunks)].columns
    ensures Has(b, Packages) && EMBEDDING_MODEL in b.tables[Named(Packages)].columns
  {
    var t1 := SweepAt(b, 4, 7);
    Gives(b, t1, Sweep7(), 0, AddColumn(Chunks, QUALIFIED_NAME));
    var t2 := SweepAt(b, 7, 12);
    Gives(b, t2, Sweep12(), 0, AddColumn(Chunks, EMBEDDED));
    var t3 := SweepAt(b, 2, 5);
    Gives(b, t3, Sweep5(), 0, AddColumn(Packages, EMBEDDING_MODEL));
  }

  lemma LateChunkColumns(b: Bundle)
    requires AllReached(b)
    ensures Has(b, Chunks) && {SOURCE_PATH, START_LINE, END_LINE} <= b.tables[Named(Chunks)].columns
  {
    var t1 := SweepAt(b, 10, 15);
    Gives(b, t1, Sweep15(), 0, AddColumn(Chunks, SOURCE_PATH));
    Gives(b, t1, Sweep15(), 1, AddColumn(Chunks, START_LINE));
    Gives(b, t1, Sweep15(), 2, AddColumn(Chunks, END_LINE));
  }

  lemma DecisionSweep(b: Bundle)
    requires AllReached(b)
    ensures Has(b, DecisionRecords) && IxDecisionsPackage in b.indexes && Has(b, Chunks) && DECISION_ID in b.tables[Named(Chunks)].columns
    ensures Has(b, IndexMetadata) && {ACTIVITY_SUMMARY, OVERVIEW_SUMMARY} <= b.tables[Named(IndexMetadata)].columns
  {
    var t1 := SweepAt(b, 9, 14);
    Gives(b, t1, Sweep14(), 0, CreateTable(DecisionRecords));
    Gives(b, t1, Sweep14(), 1, CreateIndex(IxDecisionsPackage));
    Gives(b, t1, Sweep14(), 2, AddColumn(Chunks, DECISION_ID));
    Gives(b, t1, Sweep14(), 3, AddColumn(IndexMetadata, ACTIVITY_SUMMARY));
    Gives(b, t1, Sweep14(), 4, AddColumn(IndexMetadata, OVERVIEW_SUMMARY));
  }

  lemma MetadataColumns(b: Bundle)
    requires AllReached(b)
    ensures Has(b, IndexMetadata) && {GIT_HEAD, LOADABLE_GRAMMARS, DIFF_RETAIN_HASH} <= b.tables[Named(IndexMetadata)].columns
  {
    var t1 := SweepAt(b, 8, 13);
    Gives(b, t1, Sweep13(), 0, AddColumn(IndexMetadata, GIT_HEAD));
    var t2 := SweepAt(b, 12, 17);
    Gives(b, t2, Sweep17(), 0, AddColumn(IndexMetadata, LOADABLE_GRAMMARS));
    var t3 := SweepAt(b, 13, 18);
    Gives(b, t3, Sweep18(), 6, AddColumn(IndexMetadata, DIFF_RETAIN_HASH));
  }

  /** The six landing columns, each by its place in the sweep. */
  lemma LandingColumn(b: Bundle, trusted: bool, j: nat)
    requires SweepReached(V18(), b, trusted, Sweep18()) && j < 6
    ensures Has(b, Branches) && [LANDING_KIND, LANDED_AT, DIFF_GENERATION_KEY, MERGE_EVIDENCE, LANDING_SHA, UPSTREAM_GONE][j] in b.tables[Named(Branches)].columns
  {
    assert StatementReached(V18(), b, trusted, Sweep18()[j]);
  }

  lemma BranchColumns(b: Bundle)
    requires AllReached(b)
    ensures Has(b, Branches) && {LANDING_KIND, LANDED_AT, DIFF_GENERATION_KEY} <= b.tables[Named(Branches)].columns
    ensures {MERGE_EVIDENCE, LANDING_SHA, UPSTREAM_GONE} <= b.tables[Named(Branches)].columns
  {
    var trusted := SweepAt(b, 13, 18);
    LandingColumn(b, trusted, 0);
    LandingColumn(b, trusted, 1);
    LandingColumn(b, trusted, 2);
    LandingColumn(b, trusted, 3);
    LandingColumn(b, trusted, 4);
    LandingColumn(b, trusted, 5);
  }

  lemma KeyColumns(b: Bundle)
    requires AllReached(b)
    ensures Has(b, ModuleMembers) && BRANCH in b.tables[Named(ModuleMembers)].columns
    ensures Has(b, DecisionRecords) && BRANCH in b.tables[Named(DecisionRecords)].columns
    ensures Has(b, LandingPatchIds) && IxBranchesLanding in b.indexes
  {
    var t1 := SweepAt(b, 13, 18);
    Gives(b, t1, Sweep18(), 7, AddColumn(ModuleMembers, BRANCH));
    Gives(b, t1, Sweep18(), 8, AddColumn(DecisionRecords, BRANCH));
    Gives(b, t1, Sweep18(), 9, CreateTable(LandingPatchIds));
    Gives(b, t1, Sweep18(), 10, CreateIndex(IxBranchesLanding));
  }

  lemma MultiVectorTable(b: Bundle)
    requires AllReached(b)
    ensures Has(b, ChunkMultiVectorIds) && {IdxCmvPlaidDocId, IdxCmvPackage} <= b.indexes.Keys
  {
    var t1 := SweepAt(b, 3, 6);
    Gives(b, t1, Sweep6(), 0, CreateTable(ChunkMultiVectorIds));
    Gives(b, t1, Sweep6(), 1, CreateIndex(IdxCmvPlaidDocId));
    Gives(b, t1, Sweep6(), 2, CreateIndex(IdxCmvPackage));
  }

  lemma BranchTablesCreated(b: Bundle)
    requires AllReached(b)
    ensures Has(b, BranchFiles) && Has(b, FileExtractions) && Has(b, BranchChunks)
  {
    var t1 := SweepAt(b, 11, 16);
    Gives(b, t1, Sweep16(), 1, CreateTable(BranchFiles));
    Gives(b, t1, Sweep16(), 2, CreateTable(FileExtractions));
    Gives(b, t1, Sweep16(), 3, CreateTable(BranchChunks));
  }

  lemma BranchIndexes(b: Bundle)
    requires AllReached(b)
    ensures {IxChunksContentHash, IxBranchChunksChunk, IxBranchChunksChanged, IxBranchChunksSlice} <= b.indexes.Keys
  {
    var t1 := SweepAt(b, 11, 16);
    Gives(b, t1, Sweep16(), 4, CreateIndex(IxChunksContentHash));
    Gives(b, t1, Sweep16(), 5, CreateIndex(IxBranchChunksChunk));
    Gives(b, t1, Sweep16(), 6, CreateIndex(IxBranchChunksChanged));
    Gives(b, t1, Sweep16(), 7, CreateIndex(IxBranchChunksSlice));
  }

  lemma TierRebuilt(b: Bundle, t: TableName)
    requires AllReached(b) && t in V18().tier
    ensures Given(V18(), b, RebuildKey(t))
  {
    var trusted := SweepAt(b, 13, 18);
    match t
    case DocumentTrees => Gives(b, trusted, Sweep18(), 11, RebuildKey(DocumentTrees));
    case NodeReferences => Gives(b, trusted, Sweep18(), 12, RebuildKey(NodeReferences));
    case NodeScores => Gives(b, trusted, Sweep18(), 13, RebuildKey(NodeScores));
  }

  /** The columns no creation brings. */
  function AddedColumns(t: TableName): set<Column> { FreshColumns(t) - LeastColumns(t) }

  lemma AddedToChunks()
    ensures AddedColumns(Chunks) == {MODULE, CONTENT_HASH} + {QUALIFIED_NAME, EMBEDDED} + {DECISION_ID} + {SOURCE_PATH, START_LINE, END_LINE}
  {
  }

  lemma AddedElsewhere()
    ensures AddedColumns(Packages) == {LOCAL_PATH, EMBEDDING_MODEL} && AddedColumns(ModuleMembers) == {BRANCH} && AddedColumns(DecisionRecords) == {BRANCH}
  {
  }

  lemma AddedToMetadata()
    ensures AddedColumns(IndexMetadata) == {GIT_HEAD, LOADABLE_GRAMMARS, DIFF_RETAIN_HASH} + {ACTIVITY_SUMMARY, OVERVIEW_SUMMARY}
  {
  }

  lemma AddedToBranches()
    ensures AddedColumns(Branches) == {LANDING_KIND, LANDED_AT, DIFF_GENERATION_KEY} + {MERGE_EVIDENCE, LANDING_SHA, UPSTREAM_GONE}
  {
  }

  lemma NothingAdded(t: TableName)
    requires t in {ChunksFts, ChunkMultiVectorIds, BranchFiles, FileExtractions, BranchChunks, LandingPatchIds}
    ensures AddedColumns(t) == {}
  {
  }

  lemma TierAdded(t: TableName)
    requires t in V18().tier
    ensures AddedColumns(t) == {BRANCH}
  {
    TierShape(t);
  }

  /** Every column no creation brings has been added. */
  lemma AddedReached(b: Bundle, t: TableName)
    requires HasCore(b) && AllReached(b)
    ensures Has(b, t) && AddedColumns(t) <= b.tables[Named(t)].columns
  {
    match t
    case Chunks => EarlyChunkColumns(b); MiddleChunkColumns(b); DecisionSweep(b); LateChunkColumns(b); AddedToChunks();
    case Packages => EarlyChunkColumns(b); MiddleChunkColumns(b); AddedElsewhere();
    case ModuleMembers => KeyColumns(b); AddedElsewhere();
    case ChunksFts => NothingAdded(t);
    case DocumentTrees => TierRebuilt(b, t); TierAdded(t);
    case NodeReferences => TierRebuilt(b, t); TierAdded(t);
    case NodeScores => TierRebuilt(b, t); TierAdded(t);
    case IndexMetadata => MetadataColumns(b); DecisionSweep(b); AddedToMetadata();
    case DecisionRecords => KeyColumns(b); AddedElsewhere();
    case Branches => BranchColumns(b); AddedToBranches();
    case ChunkMultiVectorIds => MultiVectorTable(b); NothingAdded(t);
    case LandingPatchIds => KeyColumns(b); NothingAdded(t);
    case _ => BranchTablesCreated(b); NothingAdded(t);
  }

  lemma TableComplete(b: Bundle, t: TableName)
    requires HasCore(b) && Shaped(V18(), b) && AllReached(b)
    ensures Has(b, t) && b.tables[Named(t)].columns == FreshColumns(t)
  {
    AddedReached(b, t);
    ShapedTable(V18(), b, t);
    ColumnsMeet(t, b.tables[Named(t)].columns);
  }

  lemma ColumnsMeet(t: TableName, columns: set<Column>)
    requires LeastColumns(t) <= columns <= FreshColumns(t) && AddedColumns(t) <= columns
    ensures columns == FreshColumns(t)
  {
    var least, full := LeastColumns(t), FreshColumns(t);
    assert AddedColumns(t) == full - least;
    forall c | c in full ensures c in columns {
      assert c in least || c in full - least;
    }
  }

  lemma KeyComplete(b: Bundle, t: TableName)
    requires Shaped(V18(), b) && Has(b, t) && b.tables[Named(t)].columns == FreshColumns(t)
    ensures b.tables[Named(t)].key == FreshKey(t)
  {
    ShapedTable(V18(), b, t);
    if t in V18().tier { TierShape(t); } else { KeyUnlessTier(t); }
  }

  lemma IndexComplete(b: Bundle, i: Index)
    requires HasCore(b) && AllReached(b)
    ensures i in b.indexes
  {
    match i
    case IxChunksPackage =>
    case IxModuleMembersPackage =>
    case IxModuleMembersName =>
    case IxChunksModule => EarlyChunkColumns(b);
    case IdxCmvPlaidDocId => MultiVectorTable(b);
    case IdxCmvPackage => MultiVectorTable(b);
    case IxDecisionsPackage => DecisionSweep(b);
    case IxBranchesLanding => KeyColumns(b);
    case IxChunksContentHash => BranchIndexes(b);
    case IxBranchChunksChunk => BranchIndexes(b);
    case IxBranchChunksChanged => BranchIndexes(b);
    case IxBranchChunksSlice => BranchIndexes(b);
    case _ => TierRebuilt(b, IndexOn(i).0); IndexesCoherent(i);
  }

  /** A bundle every sweep has reached has the fresh DDL's schema: the sweeps and the DDL
      spell the same one. */
  lemma ReachedIsComplete(b: Bundle)
    requires HasCore(b) && Shaped(V18(), b) && AllReached(b)
    ensures IsComplete(b)
  {
    forall t: TableName ensures Has(b, t) && b.tables[Named(t)].columns == FreshColumns(t) && b.tables[Named(t)].key == FreshKey(t) {
      TableComplete(b, t);
      KeyComplete(b, t);
    }
    forall i: Index ensures i in b.indexes && b.indexes[i] == Named(IndexOn(i).0) {
      IndexComplete(b, i);
      assert IndexShaped(V18(), b, i);
    }
  }

  lemma SweptConverges(b: Bundle, since: nat)
    requires since <= 9 && Shaped(V18(), b) && HasCore(b) && TrustsSkipped(V18(), b, since)
    ensures var out := Swept(V18(), b, since, |SWEEP_VERSIONS|);
            out.Ok? && Steps(V18(), b, out.value) && IsComplete(out.value)
  {
    V18Coherent();
    EverySweepIsSupported(b, since);
    SweepsStep(V18(), b, since, 14);
    ProgressIsComplete(b, Swept(V18(), b, since, 14), since);
  }

  lemma ProgressIsComplete(b: Bundle, out: Result<Bundle, SqlError>, since: nat)
    requires since <= 9 && HasCore(b) && Progress(V18(), b, out, since, 14)
    ensures IsComplete(out.value)
  {
    CoreStays(b, out.value);
    assert AllReached(out.value);
    ReachedIsComplete(out.value);
  }

  // ----- re-opening

  lemma {:induction false} IndexesStand(d: Design, b: Bundle, indexes: seq<Index>)
    requires forall i :: 0 <= i < |indexes| ==> indexes[i] in b.indexes
    ensures IndexesCreated(d, b, indexes) == Ok(b)
  {
    if indexes != [] {
      IndexesStand(d, b, indexes[..|indexes| - 1]);
    }
  }

  /** On a complete bundle a sweep statement does nothing. */
  lemma StatementIsInert(b: Bundle, s: Statement)
    requires IsComplete(b) && IsSweepStatement(V18(), s)
    ensures Executed(V18(), b, s) == Ok(b)
  {
    match s
    case CreateTable(_) =>
    case CreateIndex(_) =>
    case AddColumn(t, c) =>
    case RebuildKey(t) => TierShape(t); IndexesStand(V18(), b, RebuildIndexes(t));
  }

  lemma {:induction false} SweepIsInert(b: Bundle, statements: seq<Statement>)
    requires IsComplete(b) && OfStatements(statements)
    ensures ExecutedAll(V18(), b, statements) == Ok(b)
  {
    if statements != [] {
      SweepIsInert(b, statements[..|statements| - 1]);
      assert IsSweepStatement(V18(), statements[|statements| - 1]);
      StatementIsInert(b, statements[|statements| - 1]);
    }
  }

  ghost predicate OfStatements(statements: seq<Statement>) {
    forall j: nat :: j < |statements| ==> IsSweepStatement(V18(), statements[j])
  }

  lemma SupportedOfStatements(b: Bundle, statements: seq<Statement>)
    requires Supported(V18(), b, statements)
    ensures OfStatements(statements)
  {
    forall j: nat | j < |statements| ensures IsSweepStatement(V18(), statements[j]) {
      assert SupportedAt(V18(), b, statements, j);
    }
  }

  /** Every statement of every sweep is within the fresh schema. */
  lemma SweepOfStatements(k: nat)
    requires k < 14
    ensures OfStatements(Sweep(SWEEP_VERSIONS[k]))
  {
    var some := Fresh();
    FreshHasTables(some);
    VersionSupported(some, SWEEP_VERSIONS[k]);
    SupportedOfStatements(some, Sweep(SWEEP_VERSIONS[k]));
  }

  lemma FreshHasTables(b: Bundle)
    requires b == Fresh()
    ensures HasCore(b) && Has(b, Branches) && Has(b, IndexMetadata) && Has(b, DecisionRecords)
    ensures CONTENT_HASH in b.tables[Named(Chunks)].columns
  {
  }

  lemma SweepsAreInert(b: Bundle, n: nat, since: nat)
    requires IsComplete(b) && n <= |SWEEP_VERSIONS|
    ensures Swept(V18(), b, since, n) == Ok(b)
  {
    forall k: nat | k < |V18().versions| ensures InertAt(V18(), b, k) {
      SweepOfStatements(k);
      SweepIsInert(b, Sweep(SWEEP_VERSIONS[k]));
    }
    InertSweepsAreInert(V18(), b, since, n);
  }

  /** Re-opening a current bundle changes no table, index, row or stamp: no hash is
      cleared, no flag overwritten. */
  lemma ReopeningIsInert(b: Bundle, served: Option<string>)
    requires IsComplete(b)
    ensures Migrated(b, SCHEMA_VERSION, served) == Ok(b)
  {
    SweepsAreInert(b, 14, 0);
  }

  // ----- the default-branch stamp

  /** An unstamped project row and a row already stamped with the name, alike but for the branch. */
  ghost predicate StampCollides(rows: map<int, Row>, t: TableName, rest: seq<Column>, name: string) {
    exists a, b :: a in rows && b in rows && IsUnstamped(rows[a], t) && Holds(rows[b], BRANCH, Text(name))
                   && Projection(rows[a], rest) == Projection(rows[b], rest)
  }

  lemma SplitKey(row: Row, rest: seq<Column>)
    ensures |Projection(row, [BRANCH] + rest)| == |rest| + 1
    ensures Projection(row, [BRANCH] + rest) == [if BRANCH in row then row[BRANCH] else Null] + Projection(row, rest)
  {
  }

  lemma StampedRowIs(rows: map<int, Row>, t: TableName, rest: seq<Column>, name: string, id: int)
    requires id in rows && BRANCH !in rest
    ensures Projection(StampedRows(rows, t, name)[id], rest) == Projection(rows[id], rest)
    ensures IsUnstamped(rows[id], t) ==> Holds(StampedRows(rows, t, name)[id], BRANCH, Text(name))
    ensures !IsUnstamped(rows[id], t) ==> StampedRows(rows, t, name)[id] == rows[id]
  {
  }

  /** The stamp keeps the branch-led key unique exactly when it collides with no row. */
  lemma StampKeepsUnique(rows: map<int, Row>, t: TableName, rest: seq<Column>, name: string)
    requires UniqueUnder(rows, [BRANCH] + rest) && BRANCH !in rest && name != ""
    ensures UniqueUnder(StampedRows(rows, t, name), [BRANCH] + rest) <==> !StampCollides(rows, t, rest, name)
  {
    var stamped := StampedRows(rows, t, name);
    if StampCollides(rows, t, rest, name) {
      var a, b :| a in rows && b in rows && IsUnstamped(rows[a], t) && Holds(rows[b], BRANCH, Text(name))
                  && Projection(rows[a], rest) == Projection(rows[b], rest);
      StampedRowIs(rows, t, rest, name, a);
      StampedRowIs(rows, t, rest, name, b);
      SplitKey(stamped[a], rest);
      SplitKey(stamped[b], rest);
      assert a != b;
      assert Projection(stamped[a], [BRANCH] + rest) == Projection(stamped[b], [BRANCH] + rest);
    } else {
      forall a, b | a in stamped && b in stamped && a != b
        ensures Projection(stamped[a], [BRANCH] + rest) != Projection(stamped[b], [BRANCH] + rest)
      {
        StampedApart(rows, t, rest, name, a, b);
      }
    }
  }

  lemma StampedApart(rows: map<int, Row>, t: TableName, rest: seq<Column>, name: string, a: int, b: int)
    requires UniqueUnder(rows, [BRANCH] + rest) && BRANCH !in rest && name != ""
    requires !StampCollides(rows, t, rest, name) && a in rows && b in rows && a != b
    ensures var stamped := StampedRows(rows, t, name);
            Projection(stamped[a], [BRANCH] + rest) != Projection(stamped[b], [BRANCH] + rest)
  {
    var stamped := StampedRows(rows, t, name);
    StampedRowIs(rows, t, rest, name, a);
    StampedRowIs(rows, t, rest, name, b);
    KeysApart(rows[a], rows[b], rest);
    KeysApart(stamped[a], stamped[b], rest);
  }

  lemma KeysApart(a: Row, b: Row, rest: seq<Column>)
    ensures Projection(a, [BRANCH] + rest) == Projection(b, [BRANCH] + rest)
            <==> (if BRANCH in a then a[BRANCH] else Null) == (if BRANCH in b then b[BRANCH] else Null) && Projection(a, rest) == Projection(b, rest)
  {
    SplitKey(a, rest);
    SplitKey(b, rest);
    var p, q := Projection(a, [BRANCH] + rest), Projection(b, [BRANCH] + rest);
    assert p[1..] == Projection(a, rest) && q[1..] == Projection(b, rest);
    assert p == [p[0]] + p[1..] && q == [q[0]] + q[1..];
  }

  /** While no row names a branch the stamp never collides. */
  lemma UnbranchedNeverCollides(rows: map<int, Row>, t: TableName, rest: seq<Column>, name: string)
    requires name != "" && forall id :: id in rows ==> Holds(rows[id], BRANCH, Text(""))
    ensures !StampCollides(rows, t, rest, name)
  {
  }

  lemma StampingTwiceIsOnce(rows: map<int, Row>, t: TableName, name: string)
    requires name != ""
    ensures StampedRows(StampedRows(rows, t, name), t, name) == StampedRows(rows, t, name)
  {
    var once := StampedRows(rows, t, name);
    forall id | id in once ensures !IsUnstamped(once[id], t) {
      assert Text(name) != Text("");
    }
  }

  /** The table can take the stamp. */
  ghost predicate Stampable(b: Bundle, t: TableName, name: string) {
    Has(b, t) &&
    var state := b.tables[Named(t)];
    BRANCH in state.columns && PackageColumn(t) in state.columns && UniqueUnder(StampedRows(state.rows, t, name), state.key)
  }

  /** Only these tables' rows differ, and they are stamped. */
  ghost predicate StampedOnly(b: Bundle, out: Bundle, tables: set<TableName>, name: string) {
    && out.tables.Keys == b.tables.Keys && out.indexes == b.indexes && out.version == b.version
    && forall t: TableName :: Has(b, t) ==>
         out.tables[Named(t)] == if t in tables then b.tables[Named(t)].(rows := StampedRows(b.tables[Named(t)].rows, t, name)) else b.tables[Named(t)]
  }

  lemma StampOneTable(b: Bundle, mid: Bundle, done: set<TableName>, t: TableName, name: string)
    requires StampedOnly(b, mid, done, name) && t !in done && Stampable(b, t, name)
    ensures StampedTable(mid, t, name).Ok? && StampedOnly(b, StampedTable(mid, t, name).value, done + {t}, name)
  {
    assert mid.tables[Named(t)] == b.tables[Named(t)];
  }

  lemma {:induction false} StampTables(b: Bundle, tables: seq<TableName>, name: string)
    requires Distinct(tables) && forall i :: 0 <= i < |tables| ==> Stampable(b, tables[i], name)
    ensures StampedTables(b, tables, name).Ok? && StampedOnly(b, StampedTables(b, tables, name).value, Elems(tables), name)
  {
    if tables == [] {
    } else {
      var n := |tables| - 1;
      assert tables == tables[..n] + [tables[n]];
      StampTables(b, tables[..n], name);
      ElemsSnoc(tables[..n], tables[n]);
      DistinctAppend(tables[..n], [tables[n]]);
      assert tables[n] in Elems([tables[n]]);
      StampOneTable(b, StampedTables(b, tables[..n], name).value, Elems(tables[..n]), tables[n], name);
    }
  }

  lemma StampAvoidsKey(rows: map<int, Row>, t: TableName, key: seq<Column>, name: string)
    requires UniqueUnder(rows, key) && BRANCH !in key
    ensures UniqueUnder(StampedRows(rows, t, name), key)
  {
    forall id | id in rows ensures Projection(StampedRows(rows, t, name)[id], key) == Projection(rows[id], key) {
      StampedRowIs(rows, t, key, name, id);
    }
  }

  lemma StampNothing(rows: map<int, Row>, t: TableName)
    ensures StampedRows(rows, t, "") == rows
  {
    var stamped := StampedRows(rows, t, "");
    forall id | id in rows ensures stamped[id] == rows[id] {
      assert IsUnstamped(rows[id], t) ==> rows[id][BRANCH := Text("")] == rows[id];
    }
  }

  lemma TierRowsStampable(t: TableName, rows: map<int, Row>, name: string)
    requires t in V18().tier && UniqueUnder(rows, FreshKey(t)) && forall id :: id in rows ==> Holds(rows[id], BRANCH, Text(""))
    ensures UniqueUnder(StampedRows(rows, t, name), FreshKey(t))
  {
    TierShape(t);
    if name == "" {
      StampNothing(rows, t);
    } else {
      forall c | c in LeastKey(t) ensures c != BRANCH {
        var k :| 0 <= k < |LeastKey(t)| && LeastKey(t)[k] == c;
        KeyWithin(t, k);
      }
      UnbranchedNeverCollides(rows, t, LeastKey(t), name);
      StampKeepsUnique(rows, t, LeastKey(t), name);
    }
  }

  lemma TierPackage(t: TableName)
    requires t in V18().tier
    ensures PackageColumn(t) in FreshColumns(t) && BRANCH in FreshColumns(t)
  {
    match t
    case DocumentTrees =>
    case NodeReferences =>
    case NodeScores =>
  }

  lemma TierStampable(b: Bundle, t: TableName, name: string)
    requires Shaped(V18(), b) && IsComplete(b) && Unbranched(V18(), b) && t in V18().tier
    ensures Stampable(b, t, name)
  {
    CompleteTable(b, t);
    ShapedUnique(b, t);
    TierPackage(t);
    TierRowsStampable(t, b.tables[Named(t)].rows, name);
  }

  lemma PlainTable(t: TableName)
    requires t in {ModuleMembers, DecisionRecords}
    ensures t !in V18().tier && FreshKey(t) == LeastKey(t) == [ID] && PackageColumn(t) == PACKAGE && {BRANCH, PACKAGE} <= FreshColumns(t)
  {
  }

  lemma CompleteTable(b: Bundle, t: TableName)
    requires IsComplete(b)
    ensures Has(b, t) && b.tables[Named(t)].columns == FreshColumns(t) && b.tables[Named(t)].key == FreshKey(t)
  {
  }

  lemma ShapedUnique(b: Bundle, t: TableName)
    requires Shaped(V18(), b) && Has(b, t)
    ensures UniqueUnder(b.tables[Named(t)].rows, b.tables[Named(t)].key)
  {
    ShapedTable(V18(), b, t);
  }

  lemma PlainRowsStampable(t: TableName, state: TableState, name: string)
    requires t in {ModuleMembers, DecisionRecords} && state.columns == FreshColumns(t) && state.key == FreshKey(t)
    requires UniqueUnder(state.rows, state.key)
    ensures BRANCH in state.columns && PackageColumn(t) in state.columns && UniqueUnder(StampedRows(state.rows, t, name), state.key)
  {
    PlainTable(t);
    StampAvoidsKey(state.rows, t, [ID], name);
  }

  lemma PlainStampable(b: Bundle, t: TableName, name: string)
    requires Shaped(V18(), b) && IsComplete(b) && t in {ModuleMembers, DecisionRecords}
    ensures Stampable(b, t, name)
  {
    CompleteTable(b, t);
    ShapedUnique(b, t);
    PlainRowsStampable(t, b.tables[Named(t)], name);
  }

  lemma BranchKeyedDistinct()
    ensures Distinct(BRANCH_KEYED)
  {
  }

  // ----- every arm

  /** Same rows under the same rowids, every old value but the freed columns' in place. */
  ghost predicate KeptBut(before: map<int, Row>, after: map<int, Row>, freed: set<Column>) {
    && before.Keys == after.Keys
    && forall id, c :: id in before && c in before[id] && c !in freed ==> c in after[id] && after[id][c] == before[id][c]
  }

  /** The columns an arm rewrites: embedded flags below v12 only, the project's or every
      package's hash below v16 only, the branch of the five branch-keyed tables. */
  function Rewritten(arm: Arm, t: TableName): set<Column> {
    (if t == Packages && arm in {BranchTables, Embeddings, Structure} then {CONTENT_HASH} else {})
    + (if t == Chunks && arm in {Embeddings, Structure} then {EMBEDDED} else {})
    + (if t in BRANCH_KEYED && arm != Repair then {BRANCH} else {})
  }

  lemma KeptWider(before: map<int, Row>, after: map<int, Row>, freed: set<Column>, wider: set<Column>)
    requires KeptBut(before, after, freed) && freed <= wider
    ensures KeptBut(before, after, wider)
  {
  }

  lemma KeptTwice(before: map<int, Row>, mid: map<int, Row>, after: map<int, Row>, freed: set<Column>)
    requires KeptBut(before, mid, freed) && KeptBut(mid, after, freed)
    ensures KeptBut(before, after, freed)
  {
  }

  lemma HashesKept(b: Bundle, projectOnly: bool)
    requires Has(b, Packages)
    ensures var out := HashesCleared(b, projectOnly).tables[Named(Packages)];
            out == b.tables[Named(Packages)].(rows := out.rows) && KeptBut(b.tables[Named(Packages)].rows, out.rows, {CONTENT_HASH})
  {
  }

  lemma FlagsKept(b: Bundle)
    requires Has(b, Chunks)
    ensures var out := EmbeddedBackfilled(b).tables[Named(Chunks)];
            out == b.tables[Named(Chunks)].(rows := out.rows) && KeptBut(b.tables[Named(Chunks)].rows, out.rows, {EMBEDDED})
  {
  }

  /** One table after the arm's updates: the schema stands, and only its freed columns moved. */
  ghost predicate UpdatedTable(before: TableState, after: TableState, freed: set<Column>) {
    after == before.(rows := after.rows) && KeptBut(before.rows, after.rows, freed)
  }

  lemma UpdatesAt(b: Bundle, arm: Arm, t: TableName)
    requires Has(b, Packages) && Has(b, Chunks) && Has(b, t)
    ensures Has(ArmUpdates(b, arm), t)
    ensures UpdatedTable(b.tables[Named(t)], ArmUpdates(b, arm).tables[Named(t)], Rewritten(arm, t))
    ensures t !in {Packages, Chunks} ==> ArmUpdates(b, arm).tables[Named(t)] == b.tables[Named(t)]
  {
    match arm
    case BranchTables => HashesKept(b, true);
    case Embeddings => FlagsKept(b); HashesKept(EmbeddedBackfilled(b), true);
    case Structure => FlagsKept(b); HashesKept(EmbeddedBackfilled(b), false);
    case _ =>
  }

  lemma UpdatesElsewhere(b: Bundle, arm: Arm)
    requires Has(b, Packages) && Has(b, Chunks)
    ensures var out := ArmUpdates(b, arm);
            out.indexes == b.indexes && out.version == b.version && out.tables.Keys == b.tables.Keys
  {
  }

  lemma UpdateStampable(b: Bundle, arm: Arm, t: TableName, name: string)
    requires HasCore(b) && Stampable(b, t, name) && t !in {Packages, Chunks}
    ensures Stampable(ArmUpdates(b, arm), t, name)
  {
    UpdatesAt(b, arm, t);
  }

  lemma BranchKeyedStampable(b: Bundle, t: TableName, name: string)
    requires Shaped(V18(), b) && IsComplete(b) && Unbranched(V18(), b) && (t in V18().tier || t in {ModuleMembers, DecisionRecords})
    ensures Stampable(b, t, name)
  {
    if t in V18().tier { TierStampable(b, t, name); } else { PlainStampable(b, t, name); }
  }

  lemma BranchKeyedAre(i: nat)
    requires i < |BRANCH_KEYED|
    ensures (BRANCH_KEYED[i] in V18().tier || BRANCH_KEYED[i] in {ModuleMembers, DecisionRecords}) && BRANCH_KEYED[i] !in {Packages, Chunks}
  {
  }

  /** What the updates leave for the stamp. */
  lemma UpdatesStampable(b: Bundle, arm: Arm, name: string)
    requires Shaped(V18(), b) && IsComplete(b) && Unbranched(V18(), b)
    ensures forall i :: 0 <= i < |BRANCH_KEYED| ==> Stampable(ArmUpdates(b, arm), BRANCH_KEYED[i], name)
  {
    forall i | 0 <= i < |BRANCH_KEYED| ensures Stampable(ArmUpdates(b, arm), BRANCH_KEYED[i], name) {
      BranchKeyedAre(i);
      BranchKeyedStampable(b, BRANCH_KEYED[i], name);
      UpdateStampable(b, arm, BRANCH_KEYED[i], name);
    }
  }

  lemma StampedResult(b: Bundle, arm: Arm, name: string)
    requires Shaped(V18(), b) && IsComplete(b) && Unbranched(V18(), b)
    ensures var updated := ArmUpdates(b, arm);
            StampedTables(updated, BRANCH_KEYED, name).Ok?
            && StampedOnly(updated, StampedTables(updated, BRANCH_KEYED, name).value, Elems(BRANCH_KEYED), name)
  {
    UpdatesStampable(b, arm, name);
    BranchKeyedDistinct();
    StampTables(ArmUpdates(b, arm), BRANCH_KEYED, name);
  }

  /** The arm's updates, stamped when a branch is served. */
  ghost function UpdatedAndStamped(b: Bundle, arm: Arm, served: Option<string>): Result<Bundle, SqlError>
    requires Has(b, Packages) && Has(b, Chunks)
  {
    ProjectStamped(ArmUpdates(b, arm), served)
  }

  lemma FinishedIs(b: Bundle, arm: Arm, served: Option<string>)
    requires Has(b, Packages) && Has(b, Chunks) && Has(b, Branches) && UpdatedAndStamped(b, arm, served).Ok? && arm != Repair
    ensures var out := ArmFinished(b, arm, served);
            && out.Ok? && out.value.version == SCHEMA_VERSION && out.value.tables == UpdatedAndStamped(b, arm, served).value.tables
            && out.value.indexes == UpdatedAndStamped(b, arm, served).value.indexes
  {
  }

  lemma UpdatesStamped(b: Bundle, arm: Arm, served: Option<string>)
    requires Shaped(V18(), b) && IsComplete(b) && Unbranched(V18(), b)
    ensures UpdatedAndStamped(b, arm, served).Ok?
  {
    if served.Some? {
      StampedResult(b, arm, served.value);
    }
  }

  lemma FinishedAt(b: Bundle, arm: Arm, served: Option<string>, t: TableName)
    requires Shaped(V18(), b) && IsComplete(b) && Unbranched(V18(), b) && arm != Repair && UpdatedAndStamped(b, arm, served).Ok?
    ensures var out := UpdatedAndStamped(b, arm, served).value;
            && out.indexes == b.indexes && out.tables.Keys == b.tables.Keys
            && Has(out, t) && UpdatedTable(b.tables[Named(t)], out.tables[Named(t)], Rewritten(arm, t))
  {
    UpdatesElsewhere(b, arm);
    UpdatesAt(b, arm, t);
    if served.Some? {
      StampedResult(b, arm, served.value);
      StampedAfterUpdates(b, ArmUpdates(b, arm), StampedTables(ArmUpdates(b, arm), BRANCH_KEYED, served.value).value, arm, served.value, t);
    }
  }

  lemma StampedAfterUpdates(b: Bundle, updated: Bundle, out: Bundle, arm: Arm, name: string, t: TableName)
    requires Has(b, t) && Has(updated, t) && UpdatedTable(b.tables[Named(t)], updated.tables[Named(t)], Rewritten(arm, t))
    requires StampedOnly(updated, out, Elems(BRANCH_KEYED), name) && arm != Repair
    ensures Has(out, t) && UpdatedTable(b.tables[Named(t)], out.tables[Named(t)], Rewritten(arm, t))
  {
    StampedAt(updated, out, arm, name, t);
    KeptTwice(b.tables[Named(t)].rows, updated.tables[Named(t)].rows, out.tables[Named(t)].rows, Rewritten(arm, t));
  }

  lemma StampedAt(b: Bundle, out: Bundle, arm: Arm, name: string, t: TableName)
    requires StampedOnly(b, out, Elems(BRANCH_KEYED), name) && Has(b, t) && arm != Repair
    ensures Has(out, t) && UpdatedTable(b.tables[Named(t)], out.tables[Named(t)], Rewritten(arm, t))
  {
    StampFrees(b.tables[Named(t)].rows, t, name);
    if t in BRANCH_KEYED {
      assert t in Elems(BRANCH_KEYED);
      KeptWider(b.tables[Named(t)].rows, out.tables[Named(t)].rows, {BRANCH}, Rewritten(arm, t));
    }
  }

  lemma StampFrees(rows: map<int, Row>, t: TableName, name: string)
    ensures KeptBut(rows, StampedRows(rows, t, name), {BRANCH})
  {
  }

  /** The arm's end: the schema stands, only its freed columns moved. */
  ghost predicate Finished(b: Bundle, out: Bundle, arm: Arm) {
    && out.indexes == b.indexes && out.tables.Keys == b.tables.Keys
    && forall t: TableName :: Has(b, t) ==> UpdatedTable(b.tables[Named(t)], out.tables[Named(t)], Rewritten(arm, t))
  }

  lemma FinishedIsComplete(b: Bundle, out: Bundle, arm: Arm)
    requires IsComplete(b) && Finished(b, out, arm)
    ensures IsComplete(out)
  {
    forall t: TableName ensures Has(out, t) && out.tables[Named(t)].columns == FreshColumns(t) && out.tables[Named(t)].key == FreshKey(t) {
      assert UpdatedTable(b.tables[Named(t)], out.tables[Named(t)], Rewritten(arm, t));
    }
  }

  lemma ArmFinishes(b: Bundle, arm: Arm, served: Option<string>)
    requires Shaped(V18(), b) && IsComplete(b) && Unbranched(V18(), b) && arm !in {Repair, Rebuild}
    ensures var out := ArmFinished(b, arm, served);
            out.Ok? && Finished(b, out.value, arm) && out.value.version == SCHEMA_VERSION
  {
    UpdatesStamped(b, arm, served);
    FinishedIs(b, arm, served);
    FinishedAt(b, arm, served, Chunks);
    var out := UpdatedAndStamped(b, arm, served).value;
    forall t: TableName | Has(b, t) ensures UpdatedTable(b.tables[Named(t)], out.tables[Named(t)], Rewritten(arm, t)) {
      FinishedAt(b, arm, served, t);
    }
  }

  lemma RepairFinishes(b: Bundle, served: Option<string>)
    requires IsComplete(b)
    ensures ArmFinished(b, Repair, served) == Ok(b) && Finished(b, b, Repair)
  {
    CompleteTable(b, Packages);
    CompleteTable(b, Chunks);
    CompleteTable(b, Branches);
    forall t: TableName | Has(b, t) ensures UpdatedTable(b.tables[Named(t)], b.tables[Named(t)], Rewritten(Repair, t)) {
      NothingUpdated(b.tables[Named(t)], Rewritten(Repair, t));
    }
  }

  lemma NothingUpdated(state: TableState, freed: set<Column>)
    ensures UpdatedTable(state, state, freed)
  {
  }

  lemma UnbranchedWithoutKey(b: Bundle)
    requires TierUnkeyed(b)
    ensures Unbranched(V18(), b)
  {
  }

  /** The fresh schema under the current stamp, with every old row under its rowid and every
      old value but those of the columns the arm names. */
  ghost predicate Converged(b: Bundle, out: Bundle, arm: Arm) {
    && IsComplete(out) && out.version == SCHEMA_VERSION
    && forall t: TableName :: Has(b, t) ==> Has(out, t) && KeptBut(b.tables[Named(t)].rows, out.tables[Named(t)].rows, Rewritten(arm, t))
  }

  lemma SweptThenFinished(b: Bundle, swept: Bundle, out: Bundle, arm: Arm)
    requires RowsKept(b, swept) && IsComplete(swept) && Finished(swept, out, arm) && out.version == SCHEMA_VERSION
    ensures Converged(b, out, arm)
  {
    FinishedIsComplete(swept, out, arm);
    forall t: TableName | Has(b, t) ensures KeptBut(b.tables[Named(t)].rows, out.tables[Named(t)].rows, Rewritten(arm, t)) {
      assert FilledIn(b.tables[Named(t)], swept.tables[Named(t)]);
      assert UpdatedTable(swept.tables[Named(t)], out.tables[Named(t)], Rewritten(arm, t));
      KeptTwice(b.tables[Named(t)].rows, swept.tables[Named(t)].rows, out.tables[Named(t)].rows, Rewritten(arm, t));
    }
  }

  lemma SweptFinishes(b: Bundle, swept: Bundle, arm: Arm, served: Option<string>)
    requires Steps(V18(), b, swept) && IsComplete(swept) && arm != Rebuild
    requires if arm == Repair then b.version == SCHEMA_VERSION else Unbranched(V18(), b)
    ensures ArmFinished(swept, arm, served).Ok? && Converged(b, ArmFinished(swept, arm, served).value, arm)
  {
    if arm == Repair {
      RepairFinishes(swept, served);
    } else {
      ArmFinishes(swept, arm, served);
    }
    SweptThenFinished(b, swept, ArmFinished(swept, arm, served).value, arm);
  }

  lemma RepairIsCurrent(current: int)
    ensures ArmOf(current) == Repair <==> current == SCHEMA_VERSION
  {
  }

  lemma TrustedStart(b: Bundle, current: int)
    requires Trusted(b, current)
    ensures var arm := ArmOf(current);
            && arm != Rebuild && Shaped(V18(), b) && HasCore(b) && TrustsSkipped(V18(), b, SinceOf(arm))
            && (if arm == Repair then b.version == SCHEMA_VERSION else Unbranched(V18(), b))
  {
    if ArmOf(current) == Repair {
      RepairIsCurrent(current);
    } else {
      UnbranchedWithoutKey(b);
    }
  }

  lemma ArmConverges(b: Bundle, arm: Arm, served: Option<string>)
    requires arm != Rebuild && Shaped(V18(), b) && HasCore(b) && TrustsSkipped(V18(), b, SinceOf(arm))
    requires if arm == Repair then b.version == SCHEMA_VERSION else Unbranched(V18(), b)
    ensures ArmResult(b, arm, served).Ok? && Converged(b, ArmResult(b, arm, served).value, arm)
  {
    SweptConverges(b, SinceOf(arm));
    AfterConverges(b, Swept(V18(), b, SinceOf(arm), |SWEEP_VERSIONS|), arm, served);
  }

  lemma AfterConverges(b: Bundle, swept: Result<Bundle, SqlError>, arm: Arm, served: Option<string>)
    requires swept.Ok? && Steps(V18(), b, swept.value) && IsComplete(swept.value) && arm != Rebuild
    requires if arm == Repair then b.version == SCHEMA_VERSION else Unbranched(V18(), b)
    ensures FinishedAfter(swept, arm, served).Ok? && Converged(b, FinishedAfter(swept, arm, served).value, arm)
  {
    SweptFinishes(b, swept.value, arm, served);
  }

  /** Schema convergence: from every in-place version, from any bundle of at least the
      shape the version is trusted to have, the arm ends with the tables, columns, keys and
      indexes of the fresh DDL and the current stamp, whatever branch is served; every row
      stays under its rowid with every value, but the columns the arm names. */
  lemma LadderConverges(b: Bundle, current: int, served: Option<string>)
    requires Trusted(b, current)
    ensures Migrated(b, current, served).Ok? && Converged(b, Migrated(b, current, served).value, ArmOf(current))
  {
    TrustedStart(b, current);
    ArmConverges(b, ArmOf(current), served);
  }

  // ----- drop before re-index

  /** The rebuild with its last two steps the other way round. */
  ghost function KeyCopiedReindexedFirst(d: Design, b: Bundle, t: TableName): Result<Bundle, SqlError>
    requires Named(t) in b.tables
  {
    var copied := WithTable(Renamed(b, t), t, KeyedCopy(d, t, b.tables[Named(t)]));
    var indexed := IndexesCreated(d, copied, d.rebuildIndexes(t));
    if indexed.Err? then indexed else Ok(Dropped(indexed.value, Side(t)))
  }

  /** Index names are global and follow the renamed table: recreated before the drop, every
      index of a fully indexed table is skipped, then lost with the side table. */
  lemma ReindexingFirstLosesEveryIndex(b: Bundle, t: TableName, i: Index)
    requires Shaped(V18(), b) && Has(b, t) && i in RebuildIndexes(t) && t in V18().tier
    requires forall x :: x in RebuildIndexes(t) ==> x in b.indexes
    ensures var out := KeyCopiedReindexedFirst(V18(), b, t);
            out.Ok? && i !in out.value.indexes
  {
    V18Coherent();
    NamesFollowTheRename(V18(), b, t, i);
  }

  lemma NamesFollowTheRename(d: Design, b: Bundle, t: TableName, i: Index)
    requires Coherent(d) && Shaped(d, b) && Has(b, t) && i in d.rebuildIndexes(t) && t in d.tier
    requires forall x :: x in d.rebuildIndexes(t) ==> x in b.indexes
    ensures var out := KeyCopiedReindexedFirst(d, b, t);
            out.Ok? && i !in out.value.indexes
  {
    var copied := WithTable(Renamed(b, t), t, KeyedCopy(d, t, b.tables[Named(t)]));
    forall k | 0 <= k < |d.rebuildIndexes(t)| ensures d.rebuildIndexes(t)[k] in copied.indexes {
      assert d.rebuildIndexes(t)[k] in d.rebuildIndexes(t);
    }
    IndexesStand(d, copied, d.rebuildIndexes(t));
    assert IndexShaped(d, b, i);
  }
}
