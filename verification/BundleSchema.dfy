/** The bundle's SQLite file as the schema ladder sees it: tables with their columns, key
    and rows, the one namespace of indexes, the version stamp; the ladder's statements,
    sweeps and arms (python/pydocs_mcp/db.py, db_branch_key_migration.py). */
module BundleSchema {
  import opened Common

  const SCHEMA_VERSION := 18
  const PROJECT := "__project__"

  datatype TableName =
    | Packages | Chunks | ChunksFts | ModuleMembers | DocumentTrees | NodeReferences | ChunkMultiVectorIds
    | NodeScores | DecisionRecords | IndexMetadata | Branches | BranchFiles | FileExtractions | BranchChunks | LandingPatchIds

  /** A table, or the renamed original of one being rebuilt. */
  datatype Table = Named(name: TableName) | Side(name: TableName)

  /** A column name, as a number. */
  type Column = nat

  const ID: Column := 0
  const NAME: Column := 1
  const PACKAGE_VERSION: Column := 2
  const SUMMARY: Column := 3
  const HOMEPAGE: Column := 4
  const DEPENDENCIES: Column := 5
  const CONTENT_HASH: Column := 6
  const ORIGIN: Column := 7
  const LOCAL_PATH: Column := 8
  const EMBEDDING_MODEL: Column := 9
  const PACKAGE: Column := 10
  const MODULE: Column := 11
  const TITLE: Column := 12
  const BODY: Column := 13
  const QUALIFIED_NAME: Column := 14
  const EMBEDDED: Column := 15
  const DECISION_ID: Column := 16
  const SOURCE_PATH: Column := 17
  const START_LINE: Column := 18
  const END_LINE: Column := 19
  const KIND: Column := 20
  const SIGNATURE: Column := 21
  const RETURN_ANNOTATION: Column := 22
  const PARAMETERS: Column := 23
  const DOCSTRING: Column := 24
  const BRANCH: Column := 25
  const TREE_JSON: Column := 26
  const UPDATED_AT: Column := 27
  const FROM_PACKAGE: Column := 28
  const FROM_NODE_ID: Column := 29
  const TO_NAME: Column := 30
  const TO_NODE_ID: Column := 31
  const CHUNK_ID: Column := 32
  const PLAID_DOC_ID: Column := 33
  const PIPELINE_HASH: Column := 34
  const IN_DEGREE: Column := 35
  const PAGERANK: Column := 36
  const COMMUNITY: Column := 37
  const STATUS: Column := 38
  const SOURCE: Column := 39
  const CONFIDENCE: Column := 40
  const EVIDENCE: Column := 41
  const AFFECTED_FILES: Column := 42
  const AFFECTED_QNAMES: Column := 43
  const STALENESS_SCORE: Column := 44
  const SUPERSEDED_BY: Column := 45
  const VERIFICATION: Column := 46
  const STRUCTURED: Column := 47
  const CREATED_AT: Column := 48
  const PROJECT_NAME: Column := 49
  const PROJECT_ROOT: Column := 50
  const EMBEDDING_PROVIDER: Column := 51
  const EMBEDDING_DIM: Column := 52
  const INDEXED_AT: Column := 53
  const GIT_HEAD: Column := 54
  const ACTIVITY_SUMMARY: Column := 55
  const OVERVIEW_SUMMARY: Column := 56
  const LOADABLE_GRAMMARS: Column := 57
  const DIFF_RETAIN_HASH: Column := 58
  const HEAD_SHA: Column := 59
  const BASE_NAME: Column := 60
  const MERGE_BASE_SHA: Column := 61
  const WORKTREE_PATH: Column := 62
  const IS_DEFAULT: Column := 63
  const LAST_USED_AT: Column := 64
  const MERGED_INTO: Column := 65
  const RETIRED_AT: Column := 66
  const PURGE_AFTER: Column := 67
  const PINNED: Column := 68
  const LANDING_KIND: Column := 69
  const LANDED_AT: Column := 70
  const DIFF_GENERATION_KEY: Column := 71
  const MERGE_EVIDENCE: Column := 72
  const LANDING_SHA: Column := 73
  const UPSTREAM_GONE: Column := 74
  const PATH: Column := 75
  const BLOB_SHA: Column := 76
  const CHANGE_KIND: Column := 77
  const CHUNK_SPANS: Column := 78
  const MEMBERS_JSON: Column := 79
  const REFERENCES_JSON: Column := 80
  const CHANGED: Column := 81
  const SLICE: Column := 82
  const SHA: Column := 83
  const PATCH_ID: Column := 84

  datatype Index =
    | IxChunksPackage | IxChunksModule | IxModuleMembersPackage | IxModuleMembersName | IdxTreesPackage | IdxTreesPackageModule
    | IxRefsFrom | IxRefsToName | IxRefsToNode | IdxCmvPlaidDocId | IdxCmvPackage | IxNodeScoresQname | IxNodeScoresPackage
    | IxDecisionsPackage | IxChunksContentHash | IxBranchChunksChunk | IxBranchChunksChanged | IxBranchChunksSlice | IxBranchesLanding

  datatype Value = Null | Int(i: int) | Text(s: string) | Real(r: real)

  type Row = map<Column, Value>

  datatype TableState = TableState(columns: set<Column>, key: seq<Column>, rows: map<int, Row>)

  datatype Bundle = Bundle(tables: map<Table, TableState>, indexes: map<Index, Table>, version: int)

  datatype SqlError = NoSuchTable | NoSuchColumn | TableExists | UniqueViolation

  // ----- the fresh DDL

  function FreshColumns(t: TableName): set<Column> {
    match t
    case Packages => {NAME, PACKAGE_VERSION, SUMMARY, HOMEPAGE, DEPENDENCIES, CONTENT_HASH, ORIGIN, LOCAL_PATH, EMBEDDING_MODEL}
    case Chunks => {ID, PACKAGE, MODULE, TITLE, BODY, ORIGIN, CONTENT_HASH, QUALIFIED_NAME, EMBEDDED, DECISION_ID, SOURCE_PATH, START_LINE, END_LINE}
    case ChunksFts => {TITLE, BODY, PACKAGE}
    case ModuleMembers => {ID, PACKAGE, MODULE, NAME, KIND, SIGNATURE, RETURN_ANNOTATION, PARAMETERS, DOCSTRING, BRANCH}
    case DocumentTrees => {BRANCH, PACKAGE, MODULE, TREE_JSON, CONTENT_HASH, UPDATED_AT}
    case NodeReferences => {BRANCH, FROM_PACKAGE, FROM_NODE_ID, TO_NAME, TO_NODE_ID, KIND}
    case ChunkMultiVectorIds => {CHUNK_ID, PLAID_DOC_ID, PACKAGE, PIPELINE_HASH}
    case NodeScores => {BRANCH, PACKAGE, QUALIFIED_NAME, IN_DEGREE, PAGERANK, COMMUNITY}
    case DecisionRecords => {ID, PACKAGE, TITLE, STATUS, SOURCE, CONFIDENCE, EVIDENCE, AFFECTED_FILES, AFFECTED_QNAMES, STALENESS_SCORE,
                             SUPERSEDED_BY, VERIFICATION, STRUCTURED, CREATED_AT, UPDATED_AT, BRANCH}
    case IndexMetadata => {ID, PROJECT_NAME, PROJECT_ROOT, EMBEDDING_PROVIDER, EMBEDDING_MODEL, EMBEDDING_DIM, PIPELINE_HASH, INDEXED_AT, GIT_HEAD,
                           ACTIVITY_SUMMARY, OVERVIEW_SUMMARY, LOADABLE_GRAMMARS, DIFF_RETAIN_HASH}
    case Branches => {NAME, HEAD_SHA, BASE_NAME, MERGE_BASE_SHA, SOURCE, WORKTREE_PATH, IS_DEFAULT, PIPELINE_HASH, INDEXED_AT, LAST_USED_AT, STATUS,
                      MERGED_INTO, RETIRED_AT, PURGE_AFTER, PINNED, LANDING_KIND, LANDED_AT, DIFF_GENERATION_KEY, MERGE_EVIDENCE, LANDING_SHA, UPSTREAM_GONE}
    case BranchFiles => {BRANCH, PATH, BLOB_SHA, CHANGE_KIND}
    case FileExtractions => {BLOB_SHA, PATH, PIPELINE_HASH, CHUNK_SPANS, TREE_JSON, MEMBERS_JSON, REFERENCES_JSON, CREATED_AT}
    case BranchChunks => {BRANCH, CHUNK_ID, SOURCE_PATH, START_LINE, END_LINE, CHANGED, SLICE}
    case LandingPatchIds => {SHA, PATCH_ID}
  }

  function FreshKey(t: TableName): seq<Column> {
    match t
    case Packages => [NAME]
    case Chunks => [ID]
    case ChunksFts => []
    case ModuleMembers => [ID]
    case DocumentTrees => [BRANCH, PACKAGE, MODULE]
    case NodeReferences => [BRANCH, FROM_PACKAGE, FROM_NODE_ID, TO_NAME, KIND]
    case ChunkMultiVectorIds => [CHUNK_ID]
    case NodeScores => [BRANCH, PACKAGE, QUALIFIED_NAME]
    case DecisionRecords => [ID]
    case IndexMetadata => [ID]
    case Branches => [NAME]
    case BranchFiles => [BRANCH, PATH]
    case FileExtractions => [BLOB_SHA, PATH, PIPELINE_HASH]
    case BranchChunks => [BRANCH, CHUNK_ID]
    case LandingPatchIds => [SHA]
  }

  /** The table an index is on, and the columns it needs. */
  function IndexOn(i: Index): (TableName, set<Column>) {
    match i
    case IxChunksPackage => (Chunks, {PACKAGE})
    case IxChunksModule => (Chunks, {MODULE})
    case IxModuleMembersPackage => (ModuleMembers, {PACKAGE})
    case IxModuleMembersName => (ModuleMembers, {NAME})
    case IdxTreesPackage => (DocumentTrees, {PACKAGE})
    case IdxTreesPackageModule => (DocumentTrees, {PACKAGE, MODULE})
    case IxRefsFrom => (NodeReferences, {FROM_PACKAGE, FROM_NODE_ID})
    case IxRefsToName => (NodeReferences, {TO_NAME})
    case IxRefsToNode => (NodeReferences, {TO_NODE_ID})
    case IdxCmvPlaidDocId => (ChunkMultiVectorIds, {PLAID_DOC_ID})
    case IdxCmvPackage => (ChunkMultiVectorIds, {PACKAGE})
    case IxNodeScoresQname => (NodeScores, {QUALIFIED_NAME})
    case IxNodeScoresPackage => (NodeScores, {PACKAGE})
    case IxDecisionsPackage => (DecisionRecords, {PACKAGE})
    case IxChunksContentHash => (Chunks, {CONTENT_HASH})
    case IxBranchChunksChunk => (BranchChunks, {CHUNK_ID})
    case IxBranchChunksChanged => (BranchChunks, {BRANCH, CHANGED})
    case IxBranchChunksSlice => (BranchChunks, {BRANCH, SLICE})
    case IxBranchesLanding => (Branches, {LANDING_KIND, LANDED_AT})
  }

  const ALL_TABLES: set<TableName> :=
    {Packages, Chunks, ChunksFts, ModuleMembers, DocumentTrees, NodeReferences, ChunkMultiVectorIds, NodeScores, DecisionRecords,
     IndexMetadata, Branches, BranchFiles, FileExtractions, BranchChunks, LandingPatchIds}

  const ALL_INDEXES: set<Index> :=
    {IxChunksPackage, IxChunksModule, IxModuleMembersPackage, IxModuleMembersName, IdxTreesPackage, IdxTreesPackageModule,
     IxRefsFrom, IxRefsToName, IxRefsToNode, IdxCmvPlaidDocId, IdxCmvPackage, IxNodeScoresQname, IxNodeScoresPackage,
     IxDecisionsPackage, IxChunksContentHash, IxBranchChunksChunk, IxBranchChunksChanged, IxBranchChunksSlice, IxBranchesLanding}

  /** The DDL as data: each table's fresh columns and key, the columns and key it has when
      a sweep creates it, each index's table and columns, and the tables whose key gains
      the branch, and the sweeps in order. Proofs take any coherent design; V18 is the
      bundle's own. */
  datatype Design = Design(
    full: TableName -> set<Column>, fullKey: TableName -> seq<Column>,
    least: TableName -> set<Column>, leastKey: TableName -> seq<Column>,
    indexOn: Index -> (TableName, set<Column>), tier: set<TableName>, rebuildIndexes: TableName -> seq<Index>,
    versions: seq<nat>, sweep: nat -> seq<Statement>)

  function V18(): Design {
    Design(FreshColumns, FreshKey, LeastColumns, LeastKey, IndexOn, {DocumentTrees, NodeReferences, NodeScores}, RebuildIndexes, SWEEP_VERSIONS, Sweep)
  }

  function EmptyTable(d: Design, t: TableName): TableState { TableState(d.full(t), d.fullKey(t), map[]) }

  /** What the fresh DDL and its stamp leave. */
  function Fresh(): Bundle {
    Bundle(map t | t in ALL_TABLES :: Named(t) := EmptyTable(V18(), t), map i | i in ALL_INDEXES :: Named(IndexOn(i).0), SCHEMA_VERSION)
  }

  // ----- the statements

  datatype Statement =
    | CreateTable(table: TableName)
    | CreateIndex(index: Index)
    | AddColumn(table: TableName, column: Column)
    | RebuildKey(table: TableName)

  /** The value a new column has in the rows already there. */
  function DefaultOf(c: Column): Value {
    if c == EMBEDDED || c == UPSTREAM_GONE then Int(0)
    else if c == MODULE || c == BRANCH then Text("")
    else Null
  }

  function WithColumn(rows: map<int, Row>, c: Column): map<int, Row> {
    map id | id in rows :: rows[id][c := DefaultOf(c)]
  }

  /** ALTER TABLE ADD COLUMN; a duplicate column is not an error. */
  function ColumnAdded(b: Bundle, t: TableName, c: Column): Result<Bundle, SqlError> {
    if Named(t) !in b.tables then Err(NoSuchTable)
    else if c in b.tables[Named(t)].columns then Ok(b)
    else Ok(WithTable(b, t, Widened(b.tables[Named(t)], c)))
  }

  function WithTable(b: Bundle, t: TableName, state: TableState): Bundle {
    b.(tables := b.tables[Named(t) := state])
  }

  function Widened(state: TableState, c: Column): TableState {
    TableState(state.columns + {c}, state.key, WithColumn(state.rows, c))
  }

  /** CREATE TABLE IF NOT EXISTS, in the shape sweeps create. */
  function TableCreated(d: Design, b: Bundle, t: TableName): Bundle {
    if Named(t) in b.tables then b else WithTable(b, t, TableState(d.least(t), d.leastKey(t), map[]))
  }

  /** CREATE INDEX IF NOT EXISTS: an index of that name on any table stands. */
  function IndexCreated(d: Design, b: Bundle, i: Index): Result<Bundle, SqlError> {
    var (t, columns) := d.indexOn(i);
    if i in b.indexes then Ok(b)
    else if Named(t) !in b.tables then Err(NoSuchTable)
    else if !(columns <= b.tables[Named(t)].columns) then Err(NoSuchColumn)
    else Ok(b.(indexes := b.indexes[i := Named(t)]))
  }

  function IndexesCreated(d: Design, b: Bundle, indexes: seq<Index>): Result<Bundle, SqlError> {
    if indexes == [] then Ok(b)
    else
      var earlier := IndexesCreated(d, b, indexes[..|indexes| - 1]);
      if earlier.Err? then earlier else IndexCreated(d, earlier.value, indexes[|indexes| - 1])
  }

  // ----- the key rebuild: rename, create, copy, drop, re-index

  function RebuildIndexes(t: TableName): seq<Index> {
    match t
    case DocumentTrees => [IdxTreesPackage, IdxTreesPackageModule]
    case NodeReferences => [IxRefsFrom, IxRefsToName, IxRefsToNode]
    case NodeScores => [IxNodeScoresQname, IxNodeScoresPackage]
    case _ => []
  }

  /** Every column the table had before v18. */
  function CopiedColumns(d: Design, t: TableName): set<Column> { d.full(t) - {BRANCH} }

  function Projection(row: Row, key: seq<Column>): seq<Value> {
    seq(|key|, i requires 0 <= i < |key| => if key[i] in row then row[key[i]] else Null)
  }

  /** No two rows agree on the whole key; a table without one has no such rule. */
  predicate UniqueUnder(rows: map<int, Row>, key: seq<Column>) {
    key != [] ==> forall a, b :: a in rows && b in rows && a != b ==> Projection(rows[a], key) != Projection(rows[b], key)
  }

  /** The copied row: the old columns, and the branch column's default. */
  function CopiedRow(row: Row, columns: set<Column>): Row {
    (map c | c in columns && c in row :: row[c])[BRANCH := Text("")]
  }

  function CopiedRows(rows: map<int, Row>, columns: set<Column>): map<int, Row> {
    map id | id in rows :: CopiedRow(rows[id], columns)
  }

  /** The re-created table with the original's rows. */
  function KeyedCopy(d: Design, t: TableName, original: TableState): TableState {
    TableState(d.full(t), d.fullKey(t), CopiedRows(original.rows, CopiedColumns(d, t)))
  }

  function Renamed(b: Bundle, t: TableName): Bundle
    requires Named(t) in b.tables
  {
    b.(tables := (b.tables - {Named(t)})[Side(t) := b.tables[Named(t)]],
       indexes := map i | i in b.indexes :: if b.indexes[i] == Named(t) then Side(t) else b.indexes[i])
  }

  /** DROP TABLE takes the table's indexes with it. */
  function Dropped(b: Bundle, t: Table): Bundle {
    b.(tables := b.tables - {t}, indexes := map i | i in b.indexes && b.indexes[i] != t :: b.indexes[i])
  }

  function KeyCopied(d: Design, b: Bundle, t: TableName): Result<Bundle, SqlError>
    requires Named(t) in b.tables
  {
    if Side(t) in b.tables then Err(TableExists)
    else if !(CopiedColumns(d, t) <= b.tables[Named(t)].columns) then Err(NoSuchColumn)
    else
      var rows := CopiedRows(b.tables[Named(t)].rows, CopiedColumns(d, t));
      if !UniqueUnder(rows, d.fullKey(t)) then Err(UniqueViolation)
      else
        var renamed := Renamed(b, t);
        var copied := WithTable(renamed, t, KeyedCopy(d, t, b.tables[Named(t)]));
        IndexesCreated(d, Dropped(copied, Side(t)), d.rebuildIndexes(t))
  }

  function KeyRebuilt(d: Design, b: Bundle, t: TableName): Result<Bundle, SqlError> {
    if Named(t) in b.tables && BRANCH in b.tables[Named(t)].columns then IndexesCreated(d, b, d.rebuildIndexes(t))
    else if Named(t) !in b.tables then
      IndexesCreated(d, WithTable(b, t, EmptyTable(d, t)), d.rebuildIndexes(t))
    else KeyCopied(d, b, t)
  }

  function Executed(d: Design, b: Bundle, s: Statement): Result<Bundle, SqlError> {
    match s
    case CreateTable(t) => Ok(TableCreated(d, b, t))
    case CreateIndex(i) => IndexCreated(d, b, i)
    case AddColumn(t, c) => ColumnAdded(b, t, c)
    case RebuildKey(t) => KeyRebuilt(d, b, t)
  }

  function ExecutedAll(d: Design, b: Bundle, statements: seq<Statement>): Result<Bundle, SqlError> {
    if statements == [] then Ok(b)
    else
      var earlier := ExecutedAll(d, b, statements[..|statements| - 1]);
      if earlier.Err? then earlier else Executed(d, earlier.value, statements[|statements| - 1])
  }

  // ----- the sweeps

  const SWEEP_VERSIONS: seq<nat> := [3, 4, 5, 6, 7, 10, 11, 12, 13, 14, 15, 16, 17, 18]

  /** The columns a table has when a sweep creates it; for the four core tables, which no
      sweep creates, the columns no sweep adds. */
  function LeastColumns(t: TableName): set<Column> {
    match t
    case Packages => {NAME, PACKAGE_VERSION, SUMMARY, HOMEPAGE, DEPENDENCIES, CONTENT_HASH, ORIGIN}
    case Chunks => {ID, PACKAGE, TITLE, BODY, ORIGIN}
    case ChunksFts => {TITLE, BODY, PACKAGE}
    case ModuleMembers => {ID, PACKAGE, MODULE, NAME, KIND, SIGNATURE, RETURN_ANNOTATION, PARAMETERS, DOCSTRING}
    case DocumentTrees => {PACKAGE, MODULE, TREE_JSON, CONTENT_HASH, UPDATED_AT}
    case NodeReferences => {FROM_PACKAGE, FROM_NODE_ID, TO_NAME, TO_NODE_ID, KIND}
    case ChunkMultiVectorIds => {CHUNK_ID, PLAID_DOC_ID, PACKAGE, PIPELINE_HASH}
    case NodeScores => {PACKAGE, QUALIFIED_NAME, IN_DEGREE, PAGERANK, COMMUNITY}
    case DecisionRecords => {ID, PACKAGE, TITLE, STATUS, SOURCE, CONFIDENCE, EVIDENCE, AFFECTED_FILES, AFFECTED_QNAMES, STALENESS_SCORE,
                             SUPERSEDED_BY, VERIFICATION, STRUCTURED, CREATED_AT, UPDATED_AT}
    case IndexMetadata => {ID, PROJECT_NAME, PROJECT_ROOT, EMBEDDING_PROVIDER, EMBEDDING_MODEL, EMBEDDING_DIM, PIPELINE_HASH, INDEXED_AT}
    case Branches => {NAME, HEAD_SHA, BASE_NAME, MERGE_BASE_SHA, SOURCE, WORKTREE_PATH, IS_DEFAULT, PIPELINE_HASH, INDEXED_AT, LAST_USED_AT, STATUS,
                      MERGED_INTO, RETIRED_AT, PURGE_AFTER, PINNED}
    case BranchFiles => {BRANCH, PATH, BLOB_SHA, CHANGE_KIND}
    case FileExtractions => {BLOB_SHA, PATH, PIPELINE_HASH, CHUNK_SPANS, TREE_JSON, MEMBERS_JSON, REFERENCES_JSON, CREATED_AT}
    case BranchChunks => {BRANCH, CHUNK_ID, SOURCE_PATH, START_LINE, END_LINE, CHANGED, SLICE}
    case LandingPatchIds => {SHA, PATCH_ID}
  }

  /** The key before v18. */
  function LeastKey(t: TableName): seq<Column> {
    match t
    case DocumentTrees => [PACKAGE, MODULE]
    case NodeReferences => [FROM_PACKAGE, FROM_NODE_ID, TO_NAME, KIND]
    case NodeScores => [PACKAGE, QUALIFIED_NAME]
    case _ => FreshKey(t)
  }

  function Sweep3(): seq<Statement> {
    [CreateTable(DocumentTrees), CreateIndex(IdxTreesPackage), AddColumn(Chunks, MODULE), AddColumn(Chunks, CONTENT_HASH),
      AddColumn(Packages, LOCAL_PATH), CreateIndex(IxChunksModule)]
  }

  function Sweep4(): seq<Statement> { [CreateTable(NodeReferences), CreateIndex(IxRefsFrom), CreateIndex(IxRefsToName), CreateIndex(IxRefsToNode)] }

  function Sweep5(): seq<Statement> { [AddColumn(Packages, EMBEDDING_MODEL)] }

  function Sweep6(): seq<Statement> { [CreateTable(ChunkMultiVectorIds), CreateIndex(IdxCmvPlaidDocId), CreateIndex(IdxCmvPackage)] }

  function Sweep7(): seq<Statement> { [AddColumn(Chunks, QUALIFIED_NAME)] }

  function Sweep10(): seq<Statement> { [CreateTable(NodeScores), CreateIndex(IxNodeScoresQname), CreateIndex(IxNodeScoresPackage)] }

  function Sweep11(): seq<Statement> { [CreateTable(IndexMetadata)] }

  function Sweep12(): seq<Statement> { [AddColumn(Chunks, EMBEDDED)] }

  function Sweep13(): seq<Statement> { [AddColumn(IndexMetadata, GIT_HEAD)] }

  function Sweep14(): seq<Statement> {
    [CreateTable(DecisionRecords), CreateIndex(IxDecisionsPackage), AddColumn(Chunks, DECISION_ID),
      AddColumn(IndexMetadata, ACTIVITY_SUMMARY), AddColumn(IndexMetadata, OVERVIEW_SUMMARY)]
  }

  function Sweep15(): seq<Statement> { [AddColumn(Chunks, SOURCE_PATH), AddColumn(Chunks, START_LINE), AddColumn(Chunks, END_LINE)] }

  function Sweep16(): seq<Statement> {
    [CreateTable(Branches), CreateTable(BranchFiles), CreateTable(FileExtractions), CreateTable(BranchChunks), CreateIndex(IxChunksContentHash),
      CreateIndex(IxBranchChunksChunk), CreateIndex(IxBranchChunksChanged), CreateIndex(IxBranchChunksSlice)]
  }

  function Sweep17(): seq<Statement> { [AddColumn(IndexMetadata, LOADABLE_GRAMMARS)] }

  function Sweep18(): seq<Statement> {
    [AddColumn(Branches, LANDING_KIND), AddColumn(Branches, LANDED_AT), AddColumn(Branches, DIFF_GENERATION_KEY),
      AddColumn(Branches, MERGE_EVIDENCE), AddColumn(Branches, LANDING_SHA), AddColumn(Branches, UPSTREAM_GONE),
      AddColumn(IndexMetadata, DIFF_RETAIN_HASH), AddColumn(ModuleMembers, BRANCH), AddColumn(DecisionRecords, BRANCH),
      CreateTable(LandingPatchIds), CreateIndex(IxBranchesLanding),
      RebuildKey(DocumentTrees), RebuildKey(NodeReferences), RebuildKey(NodeScores)]
  }

  function Sweep(version: nat): seq<Statement> {
    match version
    case 3 => Sweep3()
    case 4 => Sweep4()
    case 5 => Sweep5()
    case 6 => Sweep6()
    case 7 => Sweep7()
    case 10 => Sweep10()
    case 11 => Sweep11()
    case 12 => Sweep12()
    case 13 => Sweep13()
    case 14 => Sweep14()
    case 15 => Sweep15()
    case 16 => Sweep16()
    case 17 => Sweep17()
    case 18 => Sweep18()
    case _ => []
  }

  /** The first `n` sweeps, but those an arm need not replay. */
  function Swept(d: Design, b: Bundle, since: nat, n: nat): Result<Bundle, SqlError>
    requires n <= |d.versions|
  {
    if n == 0 then Ok(b) else SweptAfter(d, Swept(d, b, since, n - 1), since, d.versions[n - 1])
  }

  function SweptAfter(d: Design, earlier: Result<Bundle, SqlError>, since: nat, version: nat): Result<Bundle, SqlError> {
    if earlier.Err? || version <= since then earlier else ExecutedAll(d, earlier.value, d.sweep(version))
  }

  // ----- the data steps

  function WithRows(b: Bundle, t: TableName, rows: map<int, Row>): Bundle
    requires Named(t) in b.tables
  {
    b.(tables := b.tables[Named(t) := b.tables[Named(t)].(rows := rows)])
  }

  function Holds(row: Row, c: Column, v: Value): bool { c in row && row[c] == v }

  /** UPDATE packages SET content_hash = NULL, for every package or for the project. */
  function HashesCleared(b: Bundle, projectOnly: bool): Bundle
    requires Named(Packages) in b.tables
  {
    var rows := b.tables[Named(Packages)].rows;
    WithRows(b, Packages, map id | id in rows ::
      if projectOnly && !Holds(rows[id], NAME, Text(PROJECT)) then rows[id] else rows[id][CONTENT_HASH := Null])
  }

  /** UPDATE chunks SET embedded = 1. */
  function EmbeddedBackfilled(b: Bundle): Bundle
    requires Named(Chunks) in b.tables
  {
    var rows := b.tables[Named(Chunks)].rows;
    WithRows(b, Chunks, map id | id in rows :: rows[id][EMBEDDED := Int(1)])
  }

  const BRANCH_KEYED: seq<TableName> := [DocumentTrees, ModuleMembers, NodeReferences, NodeScores, DecisionRecords]

  function PackageColumn(t: TableName): Column { if t == NodeReferences then FROM_PACKAGE else PACKAGE }

  function IsUnstamped(row: Row, t: TableName): bool {
    Holds(row, PackageColumn(t), Text(PROJECT)) && Holds(row, BRANCH, Text(""))
  }

  function StampedRows(rows: map<int, Row>, t: TableName, name: string): map<int, Row> {
    map id | id in rows :: if IsUnstamped(rows[id], t) then rows[id][BRANCH := Text(name)] else rows[id]
  }

  function StampedTable(b: Bundle, t: TableName, name: string): Result<Bundle, SqlError> {
    if Named(t) !in b.tables then Err(NoSuchTable)
    else
      var state := b.tables[Named(t)];
      var rows := StampedRows(state.rows, t, name);
      if BRANCH !in state.columns || PackageColumn(t) !in state.columns then Err(NoSuchColumn)
      else if !UniqueUnder(rows, state.key) then Err(UniqueViolation)
      else Ok(WithRows(b, t, rows))
  }

  function StampedTables(b: Bundle, tables: seq<TableName>, name: string): Result<Bundle, SqlError> {
    if tables == [] then Ok(b)
    else
      var earlier := StampedTables(b, tables[..|tables| - 1], name);
      if earlier.Err? then earlier else StampedTable(earlier.value, tables[|tables| - 1], name)
  }

  /** The branches row stamped default, newest first; a tie is SQLite's choice. */
  ghost predicate ServesBranch(rows: map<int, Row>, served: Option<string>) {
    match served
    case None => forall id :: id in rows ==> !IsDefaultRow(rows[id])
    case Some(name) => exists id :: id in rows && IsNewest(rows, id) && NameOf(rows[id]) == name
  }

  predicate IsDefaultRow(row: Row) { Holds(row, IS_DEFAULT, Int(1)) }

  ghost predicate IsNewest(rows: map<int, Row>, id: int)
    requires id in rows
  {
    IsDefaultRow(rows[id]) && forall other :: other in rows && IsDefaultRow(rows[other]) ==> StampTime(rows[other]) <= StampTime(rows[id])
  }

  function NameOf(row: Row): string { if NAME in row && row[NAME].Text? then row[NAME].s else "" }

  function StampTime(row: Row): real { if INDEXED_AT in row && row[INDEXED_AT].Real? then row[INDEXED_AT].r else 0.0 }

  function ProjectStamped(b: Bundle, served: Option<string>): Result<Bundle, SqlError> {
    match served
    case None => Ok(b)
    case Some(name) => StampedTables(b, BRANCH_KEYED, name)
  }

  // ----- the arms

  datatype Arm = Repair | GrammarAndKeys | BranchTables | Embeddings | Structure | Rebuild

  function ArmOf(current: int): Arm {
    if current == SCHEMA_VERSION then Repair
    else if current in {16, 17} then GrammarAndKeys
    else if current in {12, 13, 14, 15} then BranchTables
    else if current in {9, 10, 11} then Embeddings
    else if current in {2, 3, 4, 6, 7, 8} then Structure
    else Rebuild
  }

  function SinceOf(arm: Arm): nat { if arm == Embeddings then 9 else 0 }

  /** The arm's row updates between its sweeps and the stamp. */
  function ArmUpdates(b: Bundle, arm: Arm): Bundle
    requires Named(Packages) in b.tables && Named(Chunks) in b.tables
  {
    match arm
    case BranchTables => HashesCleared(b, true)
    case Embeddings => HashesCleared(EmbeddedBackfilled(b), true)
    case Structure => HashesCleared(EmbeddedBackfilled(b), false)
    case _ => b
  }

  function ArmFinished(b: Bundle, arm: Arm, served: Option<string>): Result<Bundle, SqlError> {
    if Named(Packages) !in b.tables || Named(Chunks) !in b.tables || Named(Branches) !in b.tables then Err(NoSuchTable)
    else if arm == Repair then Ok(b)
    else
      var stamped := ProjectStamped(ArmUpdates(b, arm), served);
      if stamped.Err? then stamped else Ok(stamped.value.(version := SCHEMA_VERSION))
  }

  function FinishedAfter(swept: Result<Bundle, SqlError>, arm: Arm, served: Option<string>): Result<Bundle, SqlError> {
    if swept.Err? then swept else ArmFinished(swept.value, arm, served)
  }

  /** The sweeps, then the arm's own steps. */
  function ArmResult(b: Bundle, arm: Arm, served: Option<string>): Result<Bundle, SqlError> {
    FinishedAfter(Swept(V18(), b, SinceOf(arm), |V18().versions|), arm, served)
  }

  /** The in-place arms; every other stamp drops the known tables and starts fresh. */
  function Migrated(b: Bundle, current: int, served: Option<string>): Result<Bundle, SqlError> {
    if ArmOf(current) == Rebuild then Ok(Fresh()) else ArmResult(b, ArmOf(current), served)
  }
}
