/** Two promises the code does not meet on every input, each with the run that breaks it:
    cache reuse after two files of one ref shared a module id, and two document files
    whose paths give one document module id. */
module Counterexamples {
  import opened Common
  import opened Splitting
  import opened ModuleIds
  import opened BranchRecords
  import opened BundleTables
  import opened ExtractionCache
  import opened ChunkDiff
  import opened BranchPass
  import opened PassFacts
  import opened StoreInvariant
  import opened RefPass
  import opened TornRows
  import opened PassTheorems
  import opened Retirement
  import opened Runs
  import opened BranchStore

  // ----- the files

  /** The paths, blobs and module ids of the two runs, the extraction key, and the two
      module-id rules. */
  datatype Names = Names(
    aMain: string, aMarker: string, bMain: string, bMarker: string,
    nestedDoc: string, flatDoc: string,
    packaged: string, aAlone: string, bAlone: string,
    aBlob: string, bBlob: string, emptyBlob: string, key: string,
    rooted: (set<string>, string) -> string, doc: string -> string)
  {
    ghost predicate Valid() {
      && Distinct([aMain, aMarker, bMain, bMarker, nestedDoc, flatDoc, ""])
      && Distinct([packaged, aAlone, bAlone]) && Distinct([aBlob, bBlob, emptyBlob, ""])
      && IsPython(aMain) && IsPython(bMain) && !IsPython(nestedDoc) && !IsPython(flatDoc)
      && IsPackageMarker(aMarker) && IsPackageMarker(bMarker) && !IsPackageMarker(aMain) && !IsPackageMarker(bMain)
      && rooted({}, aMain) == aAlone && rooted({}, bMain) == bAlone
      && rooted({aMarker, bMarker}, aMain) == packaged && rooted({aMarker, bMarker}, bMain) == packaged
      && doc(nestedDoc) == flatDoc && doc(flatDoc) == flatDoc
    }

    ghost predicate AreDistinct() {
      && aMain !in {aMarker, bMain, bMarker, ""} && aMarker !in {bMain, bMarker, ""} && bMain !in {bMarker, ""} && bMarker != ""
      && nestedDoc !in {flatDoc, ""} && flatDoc != "" && packaged != aAlone
      && aBlob !in {bBlob, emptyBlob, ""} && bBlob !in {emptyBlob, ""}
    }

    lemma Apart()
      requires Valid()
      ensures AreDistinct()
    {
      var paths, blobs := [aMain, aMarker, bMain, bMarker, nestedDoc, flatDoc, ""], [aBlob, bBlob, emptyBlob, ""];
      assert forall i, j :: 0 <= i < j < |paths| ==> paths[i] != paths[j];
      assert paths[0] == aMain && paths[1] == aMarker && paths[2] == bMain && paths[3] == bMarker && paths[4] == nestedDoc && paths[5] == flatDoc && paths[6] == "";
      assert blobs[0] == aBlob && blobs[1] == bBlob && blobs[2] == emptyBlob && blobs[3] == "";
      assert [packaged, aAlone, bAlone][0] != [packaged, aAlone, bAlone][1];
    }

    function ChunksIn(blob: string, path: string, m: string, key: string): seq<Chunk> {
      if blob == emptyBlob then [] else [Chunk(path, Some(1), Some(1), ContentHash(PROJECT_PACKAGE, m, "", "", key), true)]
    }

    function TreeIn(blob: string, path: string, m: string, key: string): Option<TreeRow> {
      if blob == emptyBlob then None else Some(TreeRow(m, path))
    }

    /** The two module-id rules, and one chunk and a tree for any file but an empty one. */
    function Example(): Extractor {
      Extractor(rooted, doc,
                (blob, path, m, key) => ChunksIn(blob, path, m, key), (blob, path, m, key) => TreeIn(blob, path, m, key))
    }

    /** A commit's listing; git gives the size of each path. */
    function Listing(branch: string, files: seq<BranchFile>, now: real): RefListing {
      RefListing(Manifest(branch, branch, GitObjects, "", files, None, None, None, key),
                 map[aMain := 9, bMain := 9, nestedDoc := 9, flatDoc := 9], now)
    }

    lemma ExampleWellFormed()
      ensures Example().WellFormed()
    {
    }
  }

  // ----- running a pass

  /** Every pass has a choice: some order of the pool and some unused ids. */
  lemma SomeChoice(s: StoreState, input: PassInput) returns (choice: Choice)
    ensures ValidPassChoice(s, input, choice)
  {
    var none := NothingToAssign(s, Claimed(input));
    var bound := UpperBound(s.chunks.Keys);
    var n := |Diff(none.pool, PassChunks(input)).addedChunks|;
    choice := Choice(none.pool, seq(n, i => bound + i));
    forall id | id in choice.newIds ensures id !in s.chunks {
      var i :| 0 <= i < n && choice.newIds[i] == id;
    }
  }

  lemma PassCommits(ex: Extractor, s: StoreState, r: RefListing) returns (choice: Choice)
    requires ex.WellFormed() && StoreHolds(ex, s) && ManifestWellFormed(r.manifest) && EmptyFilesAreEmpty(ex, r)
    requires ServedName(s.branches, None) && Refusal(s.branches, None, r.manifest.name).None?
    requires !HitsClash(s.cache, r.manifest.cacheKey, RefKept(ex, s, r))
    ensures ValidPassChoice(s, RefInput(ex, s, r), choice) && Commits(ex, s, r, choice, None)
    ensures Enabled(ex, s, IndexRef(r, choice, None))
    ensures var t := PassResult(s, RefInput(ex, s, r), choice);
            StepsTo(ex, s, IndexRef(r, choice, None), t) && StoreHolds(ex, t)
  {
    choice := SomeChoice(s, RefInput(ex, s, r));
    PassKeys(ex, s, r, choice);
    RefStepKeeps(ex, s, r, choice, None);
  }

  /** A file the pass extracts, with a blob and a chunk, has a row after it. */
  lemma ExtractedRow(ex: Extractor, s: StoreState, r: RefListing, choice: Choice, f: BranchFile)
    requires ex.WellFormed() && StoreHolds(ex, s) && NoTornRow(s) && ManifestWellFormed(r.manifest)
    requires ValidPassChoice(s, RefInput(ex, s, r), choice) && !HitsClash(s.cache, r.manifest.cacheKey, RefKept(ex, s, r))
    requires f in RefToExtract(ex, s, r) && f.blob != "" && ExtractFile(ex, r.manifest.cacheKey, r.manifest.files, f).chunks != []
    ensures var after, k := PassResult(s, RefInput(ex, s, r), choice), KeyOf(f, r.manifest.cacheKey);
            k in after.cache && after.cache[k].spans != [] && after.cache[k].tree == TreeAfter(s.cache, k, Extracted(RefInput(ex, s, r)))
  {
    var m, input := r.manifest, RefInput(ex, s, r);
    var extraction, asg, t := BranchExtraction(Extracted(input), []), PassAssignments(input, choice), PassBeforeGc(s, input, choice);
    RefPassWrote(ex, s, r, choice);
    var e := ExtractFile(ex, m.cacheKey, m.files, f);
    ExtractedIs(ex, s, r, f);
    WrittenModule(ex, m, extraction, t.chunks, asg, e);
    assert SpansOf(asg, f.path) == [] ==> InFileOrder(SpansOf(asg, f.path)) == [];
    WrittenRowStays(m, t, asg, extraction.files, s.cache, f);
  }

  lemma ExtractedIs(ex: Extractor, s: StoreState, r: RefListing, f: BranchFile)
    requires f in RefToExtract(ex, s, r)
    ensures ExtractFile(ex, r.manifest.cacheKey, r.manifest.files, f) in Extracted(RefInput(ex, s, r))
  {
    ExtractAllHas(ex, r.manifest.cacheKey, r.manifest.files, RefToExtract(ex, s, r), f);
  }

  lemma {:induction false} ExtractAllHas(ex: Extractor, key: string, layout: seq<BranchFile>, files: seq<BranchFile>, f: BranchFile)
    requires f in files
    ensures ExtractFile(ex, key, layout, f) in ExtractAll(ex, key, layout, files)
  {
    if files[0] != f {
      ExtractAllHas(ex, key, layout, files[1..], f);
    }
  }

  /** A pass over a listing of one uncached file extracts it. */
  lemma OneFileExtracted(ex: Extractor, s: StoreState, r: RefListing, f: BranchFile)
    requires r.manifest.files == [f] && !IsHit(s.cache, r.manifest.cacheKey, f) && SizeOf(r.sizes, f.path) > 0
    ensures RefKept(ex, s, r) == [] && RefToExtract(ex, s, r) == [f]
    ensures Extracted(RefInput(ex, s, r)) == [ExtractFile(ex, r.manifest.cacheKey, [f], f)]
  {
    assert [f][..0] == [];
    assert Misses(s.cache, r.manifest.cacheKey, [f]) == [] + [f];
    assert Hits(s.cache, r.manifest.cacheKey, [f]) == [] + [];
    assert NonEmpty(r.sizes, [f]) == [] + [f];
    assert RefToExtract(ex, s, r) == [f] + [] == [f];
    assert [f][1..] == [];
    assert ExtractAll(ex, r.manifest.cacheKey, [f], [f]) == [ExtractFile(ex, r.manifest.cacheKey, [f], f)] + [];
  }

  lemma OneFileNeverClashes(ex: Extractor, s: StoreState, r: RefListing, f: BranchFile)
    requires r.manifest.files == [f] && ManifestWellFormed(r.manifest)
    ensures !HitsClash(s.cache, r.manifest.cacheKey, RefKept(ex, s, r))
  {
    RefFiles(ex, s, r);
  }

  /** A bundle whose one branch lists one file, with the file's row cached. */
  ghost predicate HoldsOne(n: Names, s: StoreState, branch: string, f: BranchFile) {
    && StoreHolds(n.Example(), s) && NoTornRow(s)
    && s.files == map[branch := [f]] && s.branches.Keys == {branch} && s.membership.Keys <= {branch} && NoneServed(s.branches)
    && s.cache.Keys == {KeyOf(f, n.key)} && s.cache[KeyOf(f, n.key)].spans != []
    && s.cache[KeyOf(f, n.key)].tree == Some(TreeRow(ModuleOf(n.Example(), [f], f.path), f.path))
    && |ProjectIds(s)| <= 1
  }

  /** No row is the default and none is a landing unit. */
  predicate NoneServed(branches: map<string, BranchRecord>) {
    forall b :: b in branches ==> !branches[b].isDefault && !branches[b].IsLandingUnit()
  }

  lemma NobodyRefused(branches: map<string, BranchRecord>, name: string)
    requires NoneServed(branches)
    ensures ServedName(branches, None) && Refusal(branches, None, name).None?
  {
  }

  predicate IsExampleFile(n: Names, f: BranchFile) {
    f.blob in {n.aBlob, n.bBlob} && f.path in {n.aMain, n.bMain, n.nestedDoc, n.flatDoc}
  }

  lemma OneFileWellFormed(n: Names, branch: string, f: BranchFile, now: real)
    requires n.Valid() && IsExampleFile(n, f)
    ensures var r := n.Listing(branch, [f], now);
            ManifestWellFormed(r.manifest) && EmptyFilesAreEmpty(n.Example(), r) && SizeOf(r.sizes, f.path) > 0
    ensures f.blob != "" && f.blob != n.emptyBlob
  {
    n.Apart();
  }

  lemma FirstPass(n: Names, branch: string, f: BranchFile) returns (choice: Choice, t: StoreState)
    requires n.Valid() && IsExampleFile(n, f)
    ensures StepsTo(n.Example(), EMPTY_STORE, IndexRef(n.Listing(branch, [f], 1.0), choice, None), t)
    ensures HoldsOne(n, t, branch, f)
  {
    n.ExampleWellFormed();
    OneFileWellFormed(n, branch, f, 1.0);
    choice, t := FirstPassOver(n.Example(), n.Listing(branch, [f], 1.0), f);
  }

  /** The same facts for any extractor that gives the file one chunk and its tree. */
  lemma FirstPassOver(ex: Extractor, r: RefListing, f: BranchFile) returns (choice: Choice, t: StoreState)
    requires ex.WellFormed() && ManifestWellFormed(r.manifest) && EmptyFilesAreEmpty(ex, r) && r.manifest.files == [f]
    requires SizeOf(r.sizes, f.path) > 0 && f.blob != "" && GivesOneChunk(ex, r.manifest.cacheKey, f)
    ensures StepsTo(ex, EMPTY_STORE, IndexRef(r, choice, None), t) && StoreHolds(ex, t) && NoTornRow(t)
    ensures FirstTables(t, r, f)
    ensures var k := KeyOf(f, r.manifest.cacheKey);
            && k in t.cache && t.cache[k].spans != [] && t.cache[k].tree == Some(TreeRow(ModuleOf(ex, [f], f.path), f.path))
    ensures |ProjectIds(t)| <= 1
  {
    NewBundleHolds(ex, EMPTY_STORE);
    OneFileNeverClashes(ex, EMPTY_STORE, r, f);
    choice := PassCommits(ex, EMPTY_STORE, r);
    t := PassResult(EMPTY_STORE, RefInput(ex, EMPTY_STORE, r), choice);
    OneFileRow(ex, EMPTY_STORE, r, choice, f);
    FirstPassTables(ex, r, choice, f);
    FirstPassUntorn(ex, r, choice);
    FirstPassCount(ex, r, choice, f);
  }

  ghost predicate GivesOneChunk(ex: Extractor, key: string, f: BranchFile) {
    var m := ModuleOf(ex, [f], f.path);
    |ex.chunks(f.blob, f.path, m, key)| == 1 && ex.tree(f.blob, f.path, m, key) == Some(TreeRow(m, f.path))
  }

  /** One uncached file: its row after the pass. */
  lemma OneFileRow(ex: Extractor, s: StoreState, r: RefListing, choice: Choice, f: BranchFile)
    requires ex.WellFormed() && StoreHolds(ex, s) && NoTornRow(s) && ManifestWellFormed(r.manifest) && r.manifest.files == [f]
    requires SizeOf(r.sizes, f.path) > 0 && f.blob != "" && GivesOneChunk(ex, r.manifest.cacheKey, f)
    requires !IsHit(s.cache, r.manifest.cacheKey, f) && ValidPassChoice(s, RefInput(ex, s, r), choice)
    ensures var t, k := PassResult(s, RefInput(ex, s, r), choice), KeyOf(f, r.manifest.cacheKey);
            && k in t.cache && t.cache[k].spans != [] && t.cache[k].tree == Some(TreeRow(ModuleOf(ex, [f], f.path), f.path))
  {
    OneFileExtracted(ex, s, r, f);
    OneFileNeverClashes(ex, s, r, f);
    ExtractedRow(ex, s, r, choice, f);
    OneRootAlone(ExtractFile(ex, r.manifest.cacheKey, [f], f));
  }

  lemma OneRootAlone(e: ExtractedFile)
    requires e.tree == Some(TreeRow(e.module_, e.file.path))
    ensures ArtifactOf([e], e.file.path) == e.tree
  {
    assert [e][1..] == [];
    assert RootCount([e], e.module_) == 1 + RootCount([], e.module_);
    assert FindExtracted([e], e.file.path) == Some(e);
  }

  ghost predicate FirstTables(t: StoreState, r: RefListing, f: BranchFile) {
    && t.files == map[r.manifest.name := [f]] && t.branches.Keys == {r.manifest.name} && t.membership.Keys <= {r.manifest.name}
    && NoneServed(t.branches)
    && t.cache.Keys <= {KeyOf(f, r.manifest.cacheKey)}
  }

  lemma OnlyListedCached(t: StoreState, name: string, f: BranchFile, key: string)
    requires t.files == map[name := [f]]
    ensures CollectGarbage(t, Some(key)).cache.Keys <= {KeyOf(f, key)}
  {
    forall k | k in CollectGarbage(t, Some(key)).cache ensures k == KeyOf(f, key) {
      assert CacheRowStays(t, k, Unnamed(t), Some(key));
      var b :| b in t.files && BranchFile(k.path, k.blob) in t.files[b];
      assert b == name;
    }
  }

  /** A ref pass makes no default row and no landing unit. */
  lemma PassServesNone(s: StoreState, input: PassInput, choice: Choice)
    requires Fits(choice, PassChunks(input)) && AreNewIds(s, choice.newIds) && NoneServed(s.branches)
    ensures NoneServed(PassResult(s, input, choice).branches)
  {
    InsertedFrame(s, Added(choice, PassChunks(input)), choice.newIds);
  }

  lemma FirstPassTables(ex: Extractor, r: RefListing, choice: Choice, f: BranchFile)
    requires r.manifest.files == [f] && ValidPassChoice(EMPTY_STORE, RefInput(ex, EMPTY_STORE, r), choice)
    ensures FirstTables(PassResult(EMPTY_STORE, RefInput(ex, EMPTY_STORE, r), choice), r, f)
  {
    var input := RefInput(ex, EMPTY_STORE, r);
    PassTables(EMPTY_STORE, input, choice);
    PassServesNone(EMPTY_STORE, input, choice);
    OnlyListedCached(PassBeforeGc(EMPTY_STORE, input, choice), r.manifest.name, f, r.manifest.cacheKey);
  }

  lemma FirstPassUntorn(ex: Extractor, r: RefListing, choice: Choice)
    requires ex.WellFormed() && ManifestWellFormed(r.manifest) && ValidPassChoice(EMPTY_STORE, RefInput(ex, EMPTY_STORE, r), choice)
    requires !HitsClash(map[], r.manifest.cacheKey, RefKept(ex, EMPTY_STORE, r))
    ensures NoTornRow(PassResult(EMPTY_STORE, RefInput(ex, EMPTY_STORE, r), choice))
  {
    NewBundleHolds(ex, EMPTY_STORE);
    RefPassTearsExactly(ex, EMPTY_STORE, r, choice);
  }

  lemma FirstPassCount(ex: Extractor, r: RefListing, choice: Choice, f: BranchFile)
    requires r.manifest.files == [f] && SizeOf(r.sizes, f.path) > 0 && GivesOneChunk(ex, r.manifest.cacheKey, f)
    requires ValidPassChoice(EMPTY_STORE, RefInput(ex, EMPTY_STORE, r), choice)
    ensures |ProjectIds(PassResult(EMPTY_STORE, RefInput(ex, EMPTY_STORE, r), choice))| <= 1
  {
    var input := RefInput(ex, EMPTY_STORE, r);
    OneChunkToStore(ex, r, f);
    DiffPartitions(choice.pool, PassChunks(input));
    var d := Diff(choice.pool, PassChunks(input));
    SizesAdd(d.addedChunks, KeptChunks(d.kept), PassChunks(input));
    assert ProjectIds(EMPTY_STORE) == {};
    PassProjectIds(EMPTY_STORE, input, choice);
  }

  lemma OneChunkToStore(ex: Extractor, r: RefListing, f: BranchFile)
    requires r.manifest.files == [f] && SizeOf(r.sizes, f.path) > 0 && GivesOneChunk(ex, r.manifest.cacheKey, f)
    ensures |PassChunks(RefInput(ex, EMPTY_STORE, r))| == 1
  {
    OneFileExtracted(ex, EMPTY_STORE, r, f);
    var e := ExtractFile(ex, r.manifest.cacheKey, [f], f);
    assert [e][1..] == [];
    assert Flatten([e]) == e.chunks + [];
  }

  // ----- a shared module id, then the old layout again

  function A(n: Names): BranchFile { BranchFile(n.aMain, n.aBlob) }

  function B(n: Names): BranchFile { BranchFile(n.bMain, n.bBlob) }

  /** The ref where both files' directories are packages, so both have one module id. */
  function Packaged(n: Names): RefListing {
    n.Listing("two", [BranchFile(n.aMarker, n.emptyBlob), A(n), BranchFile(n.bMarker, n.emptyBlob), B(n)], 2.0)
  }

  lemma PackagedFiles(n: Names)
    requires n.Valid()
    ensures var r := Packaged(n);
            && ManifestWellFormed(r.manifest) && A(n) in r.manifest.files && B(n) in r.manifest.files
            && n.aMarker in MarkerPaths(r.manifest.files) && n.bMarker in MarkerPaths(r.manifest.files)
            && SizeOf(r.sizes, n.aMain) > 0 && SizeOf(r.sizes, n.bMain) > 0
  {
    n.Apart();
    var files := Packaged(n).manifest.files;
    assert files[0] in files && files[1] in files && files[2] in files && files[3] in files;
  }

  lemma PackagedEmpty(n: Names)
    requires n.Valid()
    ensures EmptyFilesAreEmpty(n.Example(), Packaged(n))
  {
    n.Apart();
  }

  lemma PackagedModules(n: Names)
    requires n.Valid()
    ensures ModuleOf(n.Example(), Packaged(n).manifest.files, n.aMain) == n.packaged
    ensures ModuleOf(n.Example(), Packaged(n).manifest.files, n.bMain) == n.packaged
  {
    n.Apart();
    PackagedFiles(n);
    PackagedMarkers(n);
  }

  lemma PackagedMarkers(n: Names)
    requires n.Valid()
    ensures MarkerPaths(Packaged(n).manifest.files) == {n.aMarker, n.bMarker}
  {
    n.Apart();
    PackagedFiles(n);
    var files := Packaged(n).manifest.files;
    forall p | p in MarkerPaths(files) ensures p in {n.aMarker, n.bMarker} {
      var f :| f in files && IsPackageMarker(f.path) && f.path == p;
    }
  }

  /** Alone, A is named from its path. */
  lemma AloneModule(n: Names)
    requires n.Valid()
    ensures ModuleOf(n.Example(), [A(n)], n.aMain) == n.aAlone && n.aAlone != n.packaged
  {
    n.Apart();
    forall f | f in [A(n)] ensures !IsPackageMarker(f.path) {
      assert f == A(n);
    }
    assert MarkerPaths([A(n)]) == {};
  }

  /** A Python hit under another module id is extracted again. */
  lemma HitUnderAnotherIdIsExtracted(ex: Extractor, s: StoreState, r: RefListing, f: BranchFile)
    requires f in r.manifest.files && IsPython(f.path) && IsHit(s.cache, r.manifest.cacheKey, f)
    requires s.cache[KeyOf(f, r.manifest.cacheKey)].tree.value.qualifiedName != ModuleOf(ex, r.manifest.files, f.path)
    ensures f in RefToExtract(ex, s, r) && f !in RefKept(ex, s, r)
  {
    HitsAre(s.cache, r.manifest.cacheKey, r.manifest.files);
    KeptAreHits(s.cache, r.manifest.cacheKey, RefModuleIds(ex, s, r), RefHits(s, r));
    assert f in MarkerFiles(r.manifest.files) + RefHits(s, r) + RefMisses(s, r);
    assert f.path in RefModuleIds(ex, s, r);
    assert f in RefDemoted(ex, s, r);
  }

  lemma MissIsExtracted(ex: Extractor, s: StoreState, r: RefListing, f: BranchFile)
    requires f in r.manifest.files && !IsHit(s.cache, r.manifest.cacheKey, f) && SizeOf(r.sizes, f.path) > 0
    ensures f in RefToExtract(ex, s, r)
  {
    HitsAre(s.cache, r.manifest.cacheKey, r.manifest.files);
    NonEmptyAre(r.sizes, Misses(s.cache, r.manifest.cacheKey, r.manifest.files));
  }

  lemma OneRowNeverClashes(cache: map<CacheKey, Extraction>, key: string, files: seq<BranchFile>, f: BranchFile)
    requires cache.Keys == {KeyOf(f, key)}
    ensures !HitsClash(cache, key, files)
  {
    forall g | KeyOf(g, key) in cache ensures g == f {
      assert g == BranchFile(KeyOf(g, key).path, KeyOf(g, key).blob);
    }
  }

  /** A's hit names its old module, so it is demoted; B was never cached. */
  lemma BothExtracted(n: Names, s: StoreState)
    requires n.Valid() && HoldsOne(n, s, "one", A(n))
    ensures A(n) in RefToExtract(n.Example(), s, Packaged(n)) && B(n) in RefToExtract(n.Example(), s, Packaged(n))
    ensures !HitsClash(s.cache, n.key, RefKept(n.Example(), s, Packaged(n)))
  {
    n.Apart();
    PackagedFiles(n);
    PackagedModules(n);
    AloneModule(n);
    HitUnderAnotherIdIsExtracted(n.Example(), s, Packaged(n), A(n));
    MissIsExtracted(n.Example(), s, Packaged(n), B(n));
    OneRowNeverClashes(s.cache, n.key, RefKept(n.Example(), s, Packaged(n)), A(n));
  }

  lemma {:induction false} TwoRoots(files: seq<ExtractedFile>, e: ExtractedFile, d: ExtractedFile, m: string)
    requires e in files && d in files && e != d
    requires e.tree.Some? && e.tree.value.qualifiedName == m && d.tree.Some? && d.tree.value.qualifiedName == m
    ensures RootCount(files, m) >= 2
  {
    if files[0] == e {
      OneRoot(files[1..], d, m);
    } else if files[0] == d {
      OneRoot(files[1..], e, m);
    } else {
      TwoRoots(files[1..], e, d, m);
    }
  }

  lemma {:induction false} OneRoot(files: seq<ExtractedFile>, e: ExtractedFile, m: string)
    requires e in files && e.tree.Some? && e.tree.value.qualifiedName == m
    ensures RootCount(files, m) >= 1
  {
    if files[0] != e {
      OneRoot(files[1..], e, m);
    }
  }

  /** A's row once the packaged ref is indexed: the spans of the shared module, the tree
      of the old one. */
  ghost predicate HoldsTornA(n: Names, s: StoreState) {
    && StoreHolds(n.Example(), s) && NoneServed(s.branches)
    && KeyOf(A(n), n.key) in s.cache && Torn(s.chunks, s.cache[KeyOf(A(n), n.key)])
    && s.cache[KeyOf(A(n), n.key)].tree == Some(TreeRow(n.aAlone, n.aMain))
  }

  lemma SharedRootNoArtifact(files: seq<ExtractedFile>, e: ExtractedFile, d: ExtractedFile)
    requires FilesWellFormed(files) && e in files && d in files && e != d
    requires e.tree.Some? && d.tree.Some? && d.tree.value.qualifiedName == e.tree.value.qualifiedName
    ensures ArtifactOf(files, e.file.path).None?
  {
    FindsOwn(files, e);
    TwoRoots(files, e, d, e.tree.value.qualifiedName);
  }

  /** `f` is extracted beside another file of its own root, over a cached tree of another. */
  ghost predicate TearsBeside(ex: Extractor, s: StoreState, r: RefListing, f: BranchFile, g: BranchFile, old_: TreeRow) {
    var key, files := r.manifest.cacheKey, r.manifest.files;
    var e, d := ExtractFile(ex, key, files, f), ExtractFile(ex, key, files, g);
    && f in RefToExtract(ex, s, r) && g in RefToExtract(ex, s, r) && f != g && f.blob != ""
    && e.chunks != [] && e.tree == Some(TreeRow(e.module_, f.path)) && d.tree == Some(TreeRow(e.module_, g.path))
    && old_.qualifiedName != e.module_
    && KeyOf(f, key) in s.cache && s.cache[KeyOf(f, key)].tree == Some(old_)
  }

  /** Two extracted files with one root: the first keeps the stored tree of another. */
  lemma SharedRootTears(ex: Extractor, s: StoreState, r: RefListing, choice: Choice, f: BranchFile, g: BranchFile, old_: TreeRow)
    requires ex.WellFormed() && StoreHolds(ex, s) && NoTornRow(s) && ManifestWellFormed(r.manifest)
    requires ValidPassChoice(s, RefInput(ex, s, r), choice) && !HitsClash(s.cache, r.manifest.cacheKey, RefKept(ex, s, r))
    requires TearsBeside(ex, s, r, f, g, old_)
    ensures var t, k := PassResult(s, RefInput(ex, s, r), choice), KeyOf(f, r.manifest.cacheKey);
            k in t.cache && Torn(t.chunks, t.cache[k])
    ensures TreeAfter(s.cache, KeyOf(f, r.manifest.cacheKey), Extracted(RefInput(ex, s, r))) == Some(old_)
  {
    var m, input := r.manifest, RefInput(ex, s, r);
    var e, d := ExtractFile(ex, m.cacheKey, m.files, f), ExtractFile(ex, m.cacheKey, m.files, g);
    ExtractedIs(ex, s, r, f);
    ExtractedIs(ex, s, r, g);
    RefPassWrote(ex, s, r, choice);
    SharedRootNoArtifact(Extracted(input), e, d);
    TearingMakesTorn(ex, m, BranchExtraction(Extracted(input), []), s, PassAssignments(input, choice), PassBeforeGc(s, input, choice), e);
  }

  lemma PackagedTearsBeside(n: Names, s: StoreState)
    requires n.Valid() && HoldsOne(n, s, "one", A(n))
    ensures TearsBeside(n.Example(), s, Packaged(n), A(n), B(n), TreeRow(n.aAlone, n.aMain))
  {
    n.Apart();
    PackagedModules(n);
    AloneModule(n);
    BothExtracted(n, s);
  }

  lemma PackagedLeavesTorn(n: Names, s: StoreState, choice: Choice)
    requires n.Valid() && HoldsOne(n, s, "one", A(n)) && ValidPassChoice(s, RefInput(n.Example(), s, Packaged(n)), choice)
    ensures var t, k := PassResult(s, RefInput(n.Example(), s, Packaged(n)), choice), KeyOf(A(n), n.key);
            && k in t.cache && Torn(t.chunks, t.cache[k]) && t.cache[k].tree == Some(TreeRow(n.aAlone, n.aMain))
  {
    n.ExampleWellFormed();
    PackagedFiles(n);
    BothExtracted(n, s);
    PackagedTearsBeside(n, s);
    SharedRootTears(n.Example(), s, Packaged(n), choice, A(n), B(n), TreeRow(n.aAlone, n.aMain));
    ExtractedRow(n.Example(), s, Packaged(n), choice, A(n));
  }

  lemma PackagedPass(n: Names, s: StoreState) returns (choice: Choice, t: StoreState)
    requires n.Valid() && HoldsOne(n, s, "one", A(n))
    ensures StepsTo(n.Example(), s, IndexRef(Packaged(n), choice, None), t) && HoldsTornA(n, t)
  {
    n.ExampleWellFormed();
    PackagedFiles(n);
    PackagedEmpty(n);
    BothExtracted(n, s);
    NobodyRefused(s.branches, "two");
    choice := PassCommits(n.Example(), s, Packaged(n));
    t := PassResult(s, RefInput(n.Example(), s, Packaged(n)), choice);
    PassServesNone(s, RefInput(n.Example(), s, Packaged(n)), choice);
    PackagedLeavesTorn(n, s, choice);
  }

  function OldLayout(n: Names): RefListing { n.Listing("three", [A(n)], 3.0) }

  /** With one file listed, the module ids are that file's alone. */
  lemma OneFileIds(ex: Extractor, s: StoreState, r: RefListing, f: BranchFile)
    requires r.manifest.files == [f] && IsPython(f.path) && f in RefHits(s, r)
    ensures RefModuleIds(ex, s, r).Keys == {f.path}
    ensures RefModuleIds(ex, s, r)[f.path] == ex.rootedModule(MarkerPaths([f]), f.path)
  {
    HitsAre(s.cache, r.manifest.cacheKey, [f]);
    MarkerFilesAre([f]);
    NonEmptyAre(r.sizes, Misses(s.cache, r.manifest.cacheKey, [f]));
    var considered := MarkerFiles([f]) + RefHits(s, r) + RefMisses(s, r);
    assert f in considered;
    forall g | g in considered ensures g == f {
      assert g in [f];
    }
  }

  lemma OneHit(s: StoreState, r: RefListing, f: BranchFile)
    requires r.manifest.files == [f] && IsHit(s.cache, r.manifest.cacheKey, f)
    ensures f in RefHits(s, r)
  {
    HitsAre(s.cache, r.manifest.cacheKey, [f]);
    assert [f][0] == f;
  }

  /** The old layout again, on a third branch: the torn row is a hit that holds. */
  lemma OldLayoutKeepsTornHit(n: Names, s: StoreState)
    requires n.Valid() && HoldsTornA(n, s)
    ensures KeepsTornHit(n.Example(), s, OldLayout(n))
  {
    var ex, r := n.Example(), OldLayout(n);
    n.Apart();
    AloneModule(n);
    OneHit(s, r, A(n));
    OneFileIds(ex, s, r, A(n));
    KeptAreHits(s.cache, n.key, RefModuleIds(ex, s, r), RefHits(s, r));
    assert HitHolds(s.cache, n.key, RefModuleIds(ex, s, r), A(n));
  }

  lemma OldLayoutPass(n: Names, s: StoreState) returns (choice: Choice, t: StoreState)
    requires n.Valid() && HoldsTornA(n, s)
    ensures StepsTo(n.Example(), s, IndexRef(OldLayout(n), choice, None), t)
    ensures Commits(n.Example(), s, OldLayout(n), choice, None)
    ensures Views(t.chunks, RowsOf(t.membership, "three")) != FreshPieces(n.Example(), OldLayout(n).manifest, [A(n)])
  {
    var ex, r := n.Example(), OldLayout(n);
    n.ExampleWellFormed();
    OneFileWellFormed(n, "three", A(n), 3.0);
    OneFileNeverClashes(ex, s, r, A(n));
    NobodyRefused(s.branches, "three");
    choice := PassCommits(ex, s, r);
    t := PassResult(s, RefInput(ex, s, r), choice);
    OldLayoutKeepsTornHit(n, s);
    CacheRefinement(ex, s, r, choice);
  }

  // ----- two documents with one document module id

  function Flat(n: Names): BranchFile { BranchFile(n.flatDoc, n.aBlob) }

  function Nested(n: Names): BranchFile { BranchFile(n.nestedDoc, n.bBlob) }

  function NestedOnly(n: Names): RefListing { n.Listing("two", [Nested(n)], 2.0) }

  function BothDocs(n: Names): RefListing { n.Listing("three", [Flat(n), Nested(n)], 3.0) }

  /** The one chunk either document gives. */
  function DocChunk(n: Names, f: BranchFile): Chunk {
    Chunk(f.path, Some(1), Some(1), ContentHash(PROJECT_PACKAGE, n.flatDoc, "", "", n.key), true)
  }

  lemma DocFiles(n: Names, f: BranchFile)
    requires n.Valid() && f in {Flat(n), Nested(n)}
    ensures IsExampleFile(n, f) && ModuleOf(n.Example(), [f], f.path) == n.flatDoc == n.Example().docModule(f.path)
    ensures n.Example().chunks(f.blob, f.path, n.flatDoc, n.key) == [DocChunk(n, f)]
    ensures Flat(n) != Nested(n) && KeyOf(Flat(n), n.key) != KeyOf(Nested(n), n.key)
  {
    n.Apart();
  }

  /** A row of one chunk names only rows of that chunk's content. */
  lemma SpanHash(ex: Extractor, chunks: map<int, ChunkRow>, k: CacheKey, row: Extraction, c: Chunk, span: Span)
    requires RowFaithful(ex, chunks, k, row) && !IsPython(k.path) && span in row.spans
    requires ex.chunks(k.blob, k.path, ex.docModule(k.path), k.key) == [c]
    ensures Live(chunks, span.chunkId) && chunks[span.chunkId].hash == Some(c.hash)
  {
    var m :| Produced(ex, chunks, k, row, m);
    var i :| 0 <= i < |row.spans| && row.spans[i] == span;
    var piece := SpanPiece(chunks, k.path)(span);
    ImageMember(SpanPiece(chunks, k.path), row.spans, piece);
    ImageMember(ChunkPiece(), [c], piece);
  }

  lemma DocSpan(n: Names, s: StoreState, f: BranchFile, span: Span)
    requires n.Valid() && StoreHolds(n.Example(), s) && f in {Flat(n), Nested(n)}
    requires KeyOf(f, n.key) in s.cache && span in s.cache[KeyOf(f, n.key)].spans
    ensures Live(s.chunks, span.chunkId) && s.chunks[span.chunkId].hash == Some(DocChunk(n, f).hash)
  {
    DocFiles(n, f);
    assert RowFaithful(n.Example(), s.chunks, KeyOf(f, n.key), s.cache[KeyOf(f, n.key)]);
    SpanHash(n.Example(), s.chunks, KeyOf(f, n.key), s.cache[KeyOf(f, n.key)], DocChunk(n, f), span);
  }

  /** A chunk whose content a pool row holds needs no new row. */
  lemma StoredChunkIsKept(pool: seq<Pair>, c: Chunk, id: int)
    requires Distinct(Ids(pool)) && (id, Some(c.hash)) in pool
    ensures Diff(pool, [c]).addedChunks == []
  {
    var d := Diff(pool, [c]);
    IdsOfExactly(pool, c.hash);
    CopiesOfSnoc([], c, c.hash);
    assert [] + [c] == [c];
    DiffKeepsTheFirstIds(pool, [c], c.hash);
    DiffPartitions(pool, [c]);
    SizesAdd(d.addedChunks, KeptChunks(d.kept), [c]);
  }

  lemma NestedChunks(n: Names, s: StoreState)
    requires n.Valid() && KeyOf(Nested(n), n.key) !in s.cache
    ensures RefToExtract(n.Example(), s, NestedOnly(n)) == [Nested(n)] && RefKept(n.Example(), s, NestedOnly(n)) == []
    ensures PassChunks(RefInput(n.Example(), s, NestedOnly(n))) == [DocChunk(n, Nested(n))]
    ensures Extracted(RefInput(n.Example(), s, NestedOnly(n))) == [ExtractFile(n.Example(), n.key, [Nested(n)], Nested(n))]
  {
    DocFiles(n, Nested(n));
    OneFileWellFormed(n, "two", Nested(n), 2.0);
    OneFileExtracted(n.Example(), s, NestedOnly(n), Nested(n));
    var e := ExtractFile(n.Example(), n.key, [Nested(n)], Nested(n));
    assert [e][1..] == [];
    assert Flatten([e]) == e.chunks + [];
  }

  /** The second pass inserts nothing: its chunk is the first one's content. */
  lemma NestedReuses(n: Names, s: StoreState, choice: Choice)
    requires n.Valid() && HoldsOne(n, s, "one", Flat(n)) && ValidPassChoice(s, RefInput(n.Example(), s, NestedOnly(n)), choice)
    ensures choice.newIds == []
  {
    var input := RefInput(n.Example(), s, NestedOnly(n));
    DocFiles(n, Flat(n));
    NestedChunks(n, s);
    var span := s.cache[KeyOf(Flat(n), n.key)].spans[0];
    DocSpan(n, s, Flat(n), span);
    NothingClaimed(s, input, choice, span.chunkId);
    StoredChunkIsKept(choice.pool, DocChunk(n, Nested(n)), span.chunkId);
  }

  lemma NothingClaimed(s: StoreState, input: PassInput, choice: Choice, id: int)
    requires ValidPassChoice(s, input, choice) && input.cached == [] && Live(s.chunks, id)
    ensures (id, s.chunks[id].hash) in choice.pool && Distinct(Ids(choice.pool))
  {
    assert Claimed(input) == {};
  }

  lemma NestedCount(s: StoreState, input: PassInput, choice: Choice)
    requires Fits(choice, PassChunks(input)) && choice.newIds == [] && |ProjectIds(s)| <= 1
    ensures |ProjectIds(PassResult(s, input, choice))| <= 1
  {
    PassProjectIds(s, input, choice);
  }

  lemma FlatUnwritten(n: Names, s: StoreState, choice: Choice)
    requires n.Valid() && Fits(choice, PassChunks(RefInput(n.Example(), s, NestedOnly(n)))) && KeyOf(Flat(n), n.key) in s.cache
    ensures var t, k := PassBeforeGc(s, RefInput(n.Example(), s, NestedOnly(n)), choice), KeyOf(Flat(n), n.key);
            k in t.cache && t.cache[k] == s.cache[k]
  {
    var input, k := RefInput(n.Example(), s, NestedOnly(n)), KeyOf(Flat(n), n.key);
    DocFiles(n, Flat(n));
    CacheElsewhere(s.cache, [Nested(n)], n.key, PassAssignments(input, choice), Extracted(input), k);
  }

  /** A listed row whose ids are all named survives the GC. */
  lemma RowSurvives(t: StoreState, k: CacheKey)
    requires k in t.cache && Listed(t, k.blob, k.path)
    requires forall span :: span in t.cache[k].spans ==> Named(t, span.chunkId)
    ensures k in CollectGarbage(t, Some(k.key)).cache && CollectGarbage(t, Some(k.key)).cache[k] == t.cache[k]
  {
    assert !NamesAny(t.cache[k], Unnamed(t));
  }

  lemma StillListed(s: StoreState, t: StoreState, f: BranchFile, files: seq<BranchFile>)
    requires s.files == map["one" := [f]] && t.files == Replaced(s.files, "two", files)
    ensures Listed(t, f.blob, f.path)
  {
    assert "one"[0] != "two"[0];
    assert "one" in t.files && t.files["one"] == [f] && [f][0] == BranchFile(f.path, f.blob);
  }

  /** The first document's row outlives the second pass. */
  lemma FlatStays(n: Names, s: StoreState, choice: Choice)
    requires n.Valid() && HoldsOne(n, s, "one", Flat(n)) && ValidPassChoice(s, RefInput(n.Example(), s, NestedOnly(n)), choice)
    ensures DocCached(n, PassResult(s, RefInput(n.Example(), s, NestedOnly(n)), choice), Flat(n))
  {
    var input, k := RefInput(n.Example(), s, NestedOnly(n)), KeyOf(Flat(n), n.key);
    var t := PassBeforeGc(s, input, choice);
    PassTables(s, input, choice);
    FlatUnwritten(n, s, choice);
    StillListed(s, t, Flat(n), input.manifest.files);
    forall span | span in t.cache[k].spans ensures Named(t, span.chunkId) {
      DocSpan(n, s, Flat(n), span);
      StillNamed(s, t, span.chunkId, PassRows(input, choice));
    }
    RowSurvives(t, k);
  }

  /** An id one branch's membership names stays named when another's is replaced. */
  lemma StillNamed(s: StoreState, t: StoreState, id: int, rows: seq<Membership>)
    requires NothingToCollect(s) && Live(s.chunks, id) && s.membership.Keys <= {"one"}
    requires t.membership == Replaced(s.membership, "two", rows)
    ensures Named(t, id)
  {
    assert id !in Unnamed(s);
    assert Named(s, id);
    assert "one"[0] != "two"[0];
    assert "one" in t.membership && t.membership["one"] == s.membership["one"];
  }

  /** Both documents cached, over one row. */
  ghost predicate HoldsBoth(n: Names, s: StoreState) {
    && StoreHolds(n.Example(), s) && NoneServed(s.branches) && |ProjectIds(s)| <= 1
    && DocCached(n, s, Flat(n)) && DocCached(n, s, Nested(n))
  }

  ghost predicate DocCached(n: Names, s: StoreState, f: BranchFile) {
    KeyOf(f, n.key) in s.cache && s.cache[KeyOf(f, n.key)].spans != [] && s.cache[KeyOf(f, n.key)].tree.Some?
  }

  lemma DocGivesOneChunk(n: Names, f: BranchFile)
    requires n.Valid() && f in {Flat(n), Nested(n)}
    ensures GivesOneChunk(n.Example(), n.key, f)
  {
    DocFiles(n, f);
    n.Apart();
  }

  lemma NestedRow(n: Names, s: StoreState, choice: Choice)
    requires n.Valid() && StoreHolds(n.Example(), s) && NoTornRow(s) && KeyOf(Nested(n), n.key) !in s.cache
    requires ValidPassChoice(s, RefInput(n.Example(), s, NestedOnly(n)), choice)
    ensures DocCached(n, PassResult(s, RefInput(n.Example(), s, NestedOnly(n)), choice), Nested(n))
  {
    n.ExampleWellFormed();
    DocGivesOneChunk(n, Nested(n));
    DocFiles(n, Nested(n));
    OneFileWellFormed(n, "two", Nested(n), 2.0);
    OneFileRow(n.Example(), s, NestedOnly(n), choice, Nested(n));
  }

  lemma NestedKeepsFew(n: Names, s: StoreState, choice: Choice)
    requires n.Valid() && HoldsOne(n, s, "one", Flat(n)) && ValidPassChoice(s, RefInput(n.Example(), s, NestedOnly(n)), choice)
    ensures |ProjectIds(PassResult(s, RefInput(n.Example(), s, NestedOnly(n)), choice))| <= 1 && NoneServed(PassResult(s, RefInput(n.Example(), s, NestedOnly(n)), choice).branches)
  {
    PassServesNone(s, RefInput(n.Example(), s, NestedOnly(n)), choice);
    NestedReuses(n, s, choice);
    NestedCount(s, RefInput(n.Example(), s, NestedOnly(n)), choice);
  }

  lemma NestedMiss(n: Names, s: StoreState)
    requires n.Valid() && HoldsOne(n, s, "one", Flat(n))
    ensures KeyOf(Nested(n), n.key) !in s.cache && StoreHolds(n.Example(), s) && NoTornRow(s)
  {
    DocFiles(n, Nested(n));
  }

  lemma BothCached(n: Names, t: StoreState)
    requires StoreHolds(n.Example(), t) && NoneServed(t.branches) && |ProjectIds(t)| <= 1
    requires DocCached(n, t, Flat(n)) && DocCached(n, t, Nested(n))
    ensures HoldsBoth(n, t)
  {
  }

  lemma NestedHoldsBoth(n: Names, s: StoreState, choice: Choice)
    requires n.Valid() && HoldsOne(n, s, "one", Flat(n)) && ValidPassChoice(s, RefInput(n.Example(), s, NestedOnly(n)), choice)
    requires StoreHolds(n.Example(), PassResult(s, RefInput(n.Example(), s, NestedOnly(n)), choice))
    ensures HoldsBoth(n, PassResult(s, RefInput(n.Example(), s, NestedOnly(n)), choice))
  {
    NestedKeepsFew(n, s, choice);
    FlatStays(n, s, choice);
    NestedMiss(n, s);
    NestedRow(n, s, choice);
    BothCached(n, PassResult(s, RefInput(n.Example(), s, NestedOnly(n)), choice));
  }

  lemma NestedPass(n: Names, s: StoreState) returns (choice: Choice, t: StoreState)
    requires n.Valid() && HoldsOne(n, s, "one", Flat(n))
    ensures StepsTo(n.Example(), s, IndexRef(NestedOnly(n), choice, None), t) && HoldsBoth(n, t)
  {
    n.ExampleWellFormed();
    DocFiles(n, Nested(n));
    OneFileWellFormed(n, "two", Nested(n), 2.0);
    OneFileNeverClashes(n.Example(), s, NestedOnly(n), Nested(n));
    NobodyRefused(s.branches, "two");
    choice := PassCommits(n.Example(), s, NestedOnly(n));
    t := PassResult(s, RefInput(n.Example(), s, NestedOnly(n)), choice);
    NestedHoldsBoth(n, s, choice);
  }

  lemma OnlyElement(ids: set<int>, a: int, b: int)
    requires |ids| <= 1 && a in ids && b in ids
    ensures a == b
  {
    var rest := ids - {a};
    assert |rest| == |ids| - 1;
    assert b !in rest;
  }

  lemma SameRow(n: Names, s: StoreState) returns (id: int)
    requires n.Valid() && HoldsBoth(n, s)
    ensures id in SpanIds(s.cache[KeyOf(Flat(n), n.key)].spans) && id in SpanIds(s.cache[KeyOf(Nested(n), n.key)].spans)
  {
    var flat, nested := s.cache[KeyOf(Flat(n), n.key)].spans, s.cache[KeyOf(Nested(n), n.key)].spans;
    id := flat[0].chunkId;
    DocSpan(n, s, Flat(n), flat[0]);
    DocSpan(n, s, Nested(n), nested[0]);
    OnlyElement(ProjectIds(s), id, nested[0].chunkId);
    assert SpanIds(flat)[0] == id && SpanIds(nested)[0] == id;
  }

  /** Both rows hold on the third branch, and claim the one row both name. */
  lemma BothDocsClash(n: Names, s: StoreState)
    requires n.Valid() && HoldsBoth(n, s)
    ensures HitsClash(s.cache, n.key, RefKept(n.Example(), s, BothDocs(n)))
  {
    DocFiles(n, Flat(n));
    DocsHold(n, s);
    var id := SameRow(n, s);
    assert KeyOf(Flat(n), n.key) in s.cache && KeyOf(Nested(n), n.key) in s.cache;
  }

  lemma DocsHold(n: Names, s: StoreState)
    requires n.Valid() && HoldsBoth(n, s)
    ensures Flat(n) in RefKept(n.Example(), s, BothDocs(n)) && Nested(n) in RefKept(n.Example(), s, BothDocs(n))
  {
    var r := BothDocs(n);
    n.Apart();
    HitsAre(s.cache, n.key, r.manifest.files);
    KeptAreHits(s.cache, n.key, RefModuleIds(n.Example(), s, r), RefHits(s, r));
    assert r.manifest.files[0] == Flat(n) && r.manifest.files[1] == Nested(n);
    assert Flat(n) in RefHits(s, r) && Nested(n) in RefHits(s, r);
  }

  /** Two kept hits that claim one id stop the pass, and the bundle is as it was. */
  lemma ClashStops(ex: Extractor, s: StoreState, r: RefListing) returns (choice: Choice)
    requires StoreHolds(ex, s) && ManifestWellFormed(r.manifest) && EmptyFilesAreEmpty(ex, r) && ServedName(s.branches, None)
    requires HitsClash(s.cache, r.manifest.cacheKey, RefKept(ex, s, r))
    ensures ValidPassChoice(s, RefInput(ex, s, r), choice) && !Commits(ex, s, r, choice, None)
    ensures StepsTo(ex, s, IndexRef(r, choice, None), s)
  {
    choice := SomeChoice(s, RefInput(ex, s, r));
    PassKeys(ex, s, r, choice);
  }

  lemma BothDocsRefused(n: Names, s: StoreState) returns (choice: Choice)
    requires n.Valid() && HoldsBoth(n, s)
    ensures StepsTo(n.Example(), s, IndexRef(BothDocs(n), choice, None), s)
    ensures Refusal(s.branches, None, "three").None? && !Commits(n.Example(), s, BothDocs(n), choice, None)
  {
    DocsWellFormed(n);
    NobodyRefused(s.branches, "three");
    BothDocsClash(n, s);
    choice := ClashStops(n.Example(), s, BothDocs(n));
  }

  lemma DocsWellFormed(n: Names)
    requires n.Valid()
    ensures ManifestWellFormed(BothDocs(n).manifest) && EmptyFilesAreEmpty(n.Example(), BothDocs(n))
  {
    n.Apart();
  }

  // ----- the two runs

  /** The names of a project with two packages and two notes. */
  function ProjectNames(): Names {
    Names("a/app" + "/" + "main.py", "a/app" + "/" + "__init__.py", "b/app" + "/" + "main.py", "b/app" + "/" + "__init__.py",
          "a" + "/" + "b.md", "a.b.md", "app.main", "a.app.main", "b.app.main", "1", "2", "0", "key",
          (markers, path) => PackageRooted("project", markers, path), path => DocModule(path))
  }

  lemma {:induction false} LastComponentOf(dir: string, name: string)
    requires '/' !in name
    ensures LastComponent(dir + "/" + name) == name
  {
    if name == [] {
      assert dir + "/" + name == dir + "/";
    } else {
      var n := |name| - 1;
      assert (dir + "/" + name)[..|dir + "/" + name| - 1] == dir + "/" + name[..n];
      assert name[n] in name;
      LastComponentOf(dir, name[..n]);
      assert name == name[..n] + [name[n]];
    }
  }

  lemma {:induction false} PlainName(name: string)
    requires '/' !in name
    ensures LastComponent(name) == name
  {
    if name != [] {
      var n := |name| - 1;
      assert name[n] in name;
      PlainName(name[..n]);
      assert name == name[..n] + [name[n]];
    }
  }

  lemma MainFile(dir: string)
    ensures IsPython(dir + "/" + "main.py") && !IsPackageMarker(dir + "/" + "main.py")
  {
    LastComponentOf(dir, "main.py");
    assert |"main.py"| != |"__init__.py"|;
  }

  lemma MarkerFile(dir: string)
    ensures IsPackageMarker(dir + "/" + "__init__.py")
  {
    LastComponentOf(dir, "__init__.py");
  }

  lemma DocFile(dir: string)
    ensures !IsPython(dir + "/" + "b.md")
  {
    LastComponentOf(dir, "b.md");
    assert "b.md"[2] == 'm';
  }

  lemma FlatDocFile()
    ensures !IsPython("a.b.md")
  {
    PlainName("a.b.md");
    assert "a.b.md"[4] == 'm';
  }

  lemma PathsDistinct(n: Names)
    requires n == ProjectNames()
    ensures Distinct([n.aMain, n.aMarker, n.bMain, n.bMarker, n.nestedDoc, n.flatDoc, ""])
  {
    assert |n.aMain| == 13 && |n.bMain| == 13 && |n.aMarker| == 17 && |n.bMarker| == 17 && |n.nestedDoc| == 6 && |n.flatDoc| == 6;
    assert n.aMain[0] != n.bMain[0] && n.aMarker[0] != n.bMarker[0] && n.nestedDoc[1] != n.flatDoc[1];
  }

  lemma IdsDistinct(n: Names)
    requires n == ProjectNames()
    ensures Distinct([n.packaged, n.aAlone, n.bAlone]) && Distinct([n.aBlob, n.bBlob, n.emptyBlob, ""])
  {
    assert |n.packaged| == 8 && |n.aAlone| == 10 && |n.bAlone| == 10 && n.aAlone[0] != n.bAlone[0];
    assert n.aBlob[0] == '1' && n.bBlob[0] == '2' && n.emptyBlob[0] == '0';
  }

  lemma ProjectNamesValid()
    ensures ProjectNames().Valid()
  {
    MainFile("a/app");
    MainFile("b/app");
    MarkerFile("a/app");
    MarkerFile("b/app");
    DocFile("a");
    FlatDocFile();
    PathsDistinct(ProjectNames());
    IdsDistinct(ProjectNames());
    RootedIds(ProjectNames());
    DocIds(ProjectNames());
  }

  /** `main.py` in a directory `app` named alone and in its package. */
  lemma MainIds(root: string, dir: string, markers: set<string>)
    requires '/' !in dir && dir + "/app" + "/" + "__init__.py" in markers && dir + "/" + "__init__.py" !in markers
    ensures PackageRooted(root, {}, dir + "/app" + "/" + "main.py") == dir + ".app.main"
    ensures PackageRooted(root, markers, dir + "/app" + "/" + "main.py") == "app.main"
  {
    MainPath(dir);
    MainStem("main");
    assert dir + "/app" + "/" + "__init__.py" == dir + "/" + "app" + "/" + "__init__.py";
    AloneId(root, dir, "app", "main");
    PackagedId(root, markers, dir, "app", "main");
    assert dir + "." + "app" + "." + "main" == dir + ".app.main";
    assert "app" + "." + "main" == "app.main";
  }

  lemma MainPath(dir: string)
    ensures dir + "/app" + "/" + "main.py" == dir + "/" + "app" + "/" + ("main" + ".py")
  {
    assert "/app" == "/" + "app" && "main.py" == "main" + ".py";
  }

  lemma MainStem(stem: string)
    requires stem == "main"
    ensures '/' !in stem && '.' !in stem && stem !in {"", "__init__"} && '/' !in "app"
  {
  }

  lemma NoUpperMarkers(n: Names)
    requires n == ProjectNames()
    ensures "a/__init__.py" !in {n.aMarker, n.bMarker} && "b/__init__.py" !in {n.aMarker, n.bMarker}
    ensures "a" + "/" + "__init__.py" == "a/__init__.py" && "b" + "/" + "__init__.py" == "b/__init__.py"
  {
    assert |n.aMarker| == 17 && |n.bMarker| == 17 && |"a/__init__.py"| == 13 && |"b/__init__.py"| == 13;
  }

  lemma RootedIds(n: Names)
    requires n == ProjectNames()
    ensures n.rooted({}, n.aMain) == n.aAlone && n.rooted({}, n.bMain) == n.bAlone
    ensures n.rooted({n.aMarker, n.bMarker}, n.aMain) == n.packaged && n.rooted({n.aMarker, n.bMarker}, n.bMain) == n.packaged
  {
    NoUpperMarkers(n);
    assert "a" + "/app" == "a/app" && "b" + "/app" == "b/app";
    assert "a" + ".app.main" == "a.app.main" && "b" + ".app.main" == "b.app.main";
    MainIds("project", "a", {n.aMarker, n.bMarker});
    MainIds("project", "b", {n.aMarker, n.bMarker});
  }

  lemma DocIds(n: Names)
    requires n == ProjectNames()
    ensures n.doc(n.nestedDoc) == n.flatDoc && n.doc(n.flatDoc) == n.flatDoc
  {
    NestedNote("b.md");
    FlatNote("a.b.md");
  }

  lemma NestedNote(name: string)
    requires name == "b.md"
    ensures DocModule("a" + "/" + name) == "a.b.md"
  {
    LowerName(name);
    NestedDocId("a", name);
    DottedNote("a" + "/" + name);
  }

  lemma DottedNote(path: string)
    requires path == "a" + "/" + "b.md"
    ensures Dotted(path) == "a.b.md"
  {
  }

  lemma FlatNote(name: string)
    requires name == "a.b.md"
    ensures DocModule(name) == name
  {
    LowerName(name);
    FlatDocId(name);
  }

  lemma LowerName(name: string)
    requires name in {"b.md", "a.b.md"}
    ensures '/' !in name && Lower(name) == name
  {
  }

  lemma NestedDocId(dir: string, name: string)
    requires '/' !in name && Lower(name) == name
    ensures DocModule(dir + "/" + name) == Dotted(dir + "/" + name)
  {
    PlainFileName(dir, name);
    DocModuleIsDotted(dir + "/" + name);
  }

  lemma FlatDocId(name: string)
    requires '/' !in name && Lower(name) == name
    ensures DocModule(name) == name
  {
    OnePartWithoutSeparator('/', name);
    DocModuleIsDotted(name);
    assert Dotted(name) == name;
  }

  lemma PlainFileName(dir: string, name: string)
    requires '/' !in name
    ensures FileName(dir + "/" + name) == name
  {
    SplitJoin('/', dir, name);
    OnePartWithoutSeparator('/', name);
  }

  predicate IndexesRef(e: Event, r: RefListing) { e.IndexRef? && e.r == r }

  /** Cache refinement fails on a reachable bundle: index a ref holding `a/app/main.py`
      alone, then one where it shares `app.main` with `b/app/main.py`, then the first
      layout again on a third branch. The third pass commits, reuses the cached row, and
      leaves the branch with other chunks than its own extraction gives. */
  lemma SharedIdBreaksReuse() returns (ex: Extractor, events: (Event, Event, Event), states: (StoreState, StoreState, StoreState))
    ensures ex == ProjectNames().Example() && ex.WellFormed()
    ensures IndexesRef(events.0, ProjectNames().Listing("one", [A(ProjectNames())], 1.0))
    ensures IndexesRef(events.1, Packaged(ProjectNames())) && IndexesRef(events.2, OldLayout(ProjectNames()))
    ensures StepsTo(ex, EMPTY_STORE, events.0, states.0)
    ensures StepsTo(ex, states.0, events.1, states.1)
    ensures StepsTo(ex, states.1, events.2, states.2)
    ensures events.2.IndexRef? && Commits(ex, states.1, events.2.r, events.2.refChoice, events.2.served)
    ensures var m := events.2.r.manifest;
            Views(states.2.chunks, RowsOf(states.2.membership, m.name)) != FreshPieces(ex, m, m.files)
  {
    var n := ProjectNames();
    ProjectNamesValid();
    ex := n.Example();
    events, states := SharedIdRun(n);
  }

  lemma SharedIdRun(n: Names) returns (events: (Event, Event, Event), states: (StoreState, StoreState, StoreState))
    requires n.Valid()
    ensures n.Example().WellFormed()
    ensures IndexesRef(events.0, n.Listing("one", [A(n)], 1.0)) && IndexesRef(events.1, Packaged(n)) && IndexesRef(events.2, OldLayout(n))
    ensures StepsTo(n.Example(), EMPTY_STORE, events.0, states.0)
    ensures StepsTo(n.Example(), states.0, events.1, states.1)
    ensures StepsTo(n.Example(), states.1, events.2, states.2)
    ensures events.2.IndexRef? && Commits(n.Example(), states.1, events.2.r, events.2.refChoice, events.2.served)
    ensures var m := events.2.r.manifest;
            Views(states.2.chunks, RowsOf(states.2.membership, m.name)) != FreshPieces(n.Example(), m, m.files)
  {
    n.ExampleWellFormed();
    OneFileWellFormed(n, "one", A(n), 1.0);
    var c1, s1 := FirstPass(n, "one", A(n));
    var c2, s2 := PackagedPass(n, s1);
    var c3, s3 := OldLayoutPass(n, s2);
    events := (IndexRef(n.Listing("one", [A(n)], 1.0), c1, None), IndexRef(Packaged(n), c2, None), IndexRef(OldLayout(n), c3, None));
    states := (s1, s2, s3);
  }

  /** Pass keys fail on a reachable bundle: `a.b.md` and `a/b.md`, indexed on a branch
      each, share one chunk row; a ref holding both can then not be indexed. Its pass is
      not refused, but breaks the membership key and leaves the bundle as it was. */
  lemma SharedDocIdBlocksIndexing() returns (ex: Extractor, events: (Event, Event, Event), states: (StoreState, StoreState))
    ensures ex == ProjectNames().Example() && ex.WellFormed()
    ensures IndexesRef(events.0, ProjectNames().Listing("one", [Flat(ProjectNames())], 1.0))
    ensures IndexesRef(events.1, NestedOnly(ProjectNames())) && IndexesRef(events.2, BothDocs(ProjectNames()))
    ensures StepsTo(ex, EMPTY_STORE, events.0, states.0)
    ensures StepsTo(ex, states.0, events.1, states.1)
    ensures StepsTo(ex, states.1, events.2, states.1)
    ensures events.2.IndexRef? && Refusal(states.1.branches, events.2.served, events.2.r.manifest.name).None?
    ensures !Commits(ex, states.1, events.2.r, events.2.refChoice, events.2.served)
  {
    var n := ProjectNames();
    ProjectNamesValid();
    ex := n.Example();
    events, states := SharedDocRun(n);
  }

  lemma SharedDocRun(n: Names) returns (events: (Event, Event, Event), states: (StoreState, StoreState))
    requires n.Valid()
    ensures n.Example().WellFormed()
    ensures IndexesRef(events.0, n.Listing("one", [Flat(n)], 1.0)) && IndexesRef(events.1, NestedOnly(n)) && IndexesRef(events.2, BothDocs(n))
    ensures StepsTo(n.Example(), EMPTY_STORE, events.0, states.0)
    ensures StepsTo(n.Example(), states.0, events.1, states.1)
    ensures StepsTo(n.Example(), states.1, events.2, states.1)
    ensures events.2.IndexRef? && Refusal(states.1.branches, events.2.served, events.2.r.manifest.name).None?
    ensures !Commits(n.Example(), states.1, events.2.r, events.2.refChoice, events.2.served)
  {
    n.ExampleWellFormed();
    DocFiles(n, Flat(n));
    var c1, s1 := FirstPass(n, "one", Flat(n));
    var c2, s2 := NestedPass(n, s1);
    var c3 := BothDocsRefused(n, s2);
    events := (IndexRef(n.Listing("one", [Flat(n)], 1.0), c1, None), IndexRef(NestedOnly(n), c2, None), IndexRef(BothDocs(n), c3, None));
    states := (s1, s2);
  }
}
