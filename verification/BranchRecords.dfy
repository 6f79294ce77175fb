/** The rows of the bundle's branch tables and the values that flow into them. */
module BranchRecords {
  import opened Common

  const PROJECT_PACKAGE := "__project__"

  /** A chunk's SHA-256 digest, named by its preimage: the digest is taken to keep
      distinct payloads distinct, and ChunkIdentity proves that distinct identity
      tuples have distinct payloads. */
  datatype ContentHash = ContentHash(package: string, module_: string, title: string, text: string, pipelineHash: string)

  /** One extracted chunk: its file, its span, its hash, and whether the embed
      policy gave it a vector. */
  datatype Chunk = Chunk(path: string, start: Option<int>, end: Option<int>, hash: ContentHash, embedded: bool)

  /** A stored `chunks` row; the row id is the map key. A NULL or empty hash is None. */
  datatype ChunkRow = ChunkRow(package: string, hash: Option<ContentHash>)

  datatype Slice = TreeSlice | DiffSlice

  /** A `branch_chunks` row; the branch is the map key. */
  datatype Membership = Membership(chunkId: int, path: string, start: Option<int>, end: Option<int>, slice: Slice)

  /** A `branch_files` row; the branch is the map key. */
  datatype BranchFile = BranchFile(path: string, blob: string)

  /** A document tree: only the qualified name of its root matters here. */
  datatype TreeRow = TreeRow(qualifiedName: string, path: string)

  datatype CacheKey = CacheKey(blob: string, path: string, key: string)

  datatype Span = Span(chunkId: int, start: Option<int>, end: Option<int>)

  /** A `file_extractions` row under its CacheKey: the chunk spans and the tree column. */
  datatype Extraction = Extraction(spans: seq<Span>, tree: Option<TreeRow>)

  datatype Status = Active | Inactive | Merged | Deleted

  datatype Source = WorkingTree | GitObjects

  datatype LandingKind = SingleCommit | MergeCommit | LinearSnapshot

  datatype MergeEvidence = Ancestor | PatchIdMatch | RebasePatchIdMatch

  datatype BranchRecord = BranchRecord(
    name: string,
    headSha: string,
    source: Source,
    pipelineHash: string,
    indexedAt: real,
    lastUsedAt: real,
    isDefault: bool,
    baseName: Option<string>,
    mergeBaseSha: Option<string>,
    worktreePath: Option<string>,
    status: Status,
    mergedInto: Option<string>,
    retiredAt: Option<real>,
    purgeAfter: Option<real>,
    pinned: bool,
    landingKind: Option<LandingKind>,
    landedAt: Option<real>,
    mergeEvidence: Option<MergeEvidence>,
    landingSha: Option<string>)
  {
    predicate IsLandingUnit() {
      landingKind.Some?
    }
  }

  /** What one pass says about its branch: the stamp's columns, the file listing, the cache key. */
  datatype Manifest = Manifest(
    name: string,
    headSha: string,
    source: Source,
    pipelineHash: string,
    files: seq<BranchFile>,
    worktreePath: Option<string>,
    baseName: Option<string>,
    mergeBaseSha: Option<string>,
    cacheKey: string)

  /** An extracted chunk paired with the id of the row that holds it. */
  type Assignment = (Chunk, int)
}
