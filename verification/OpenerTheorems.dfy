/** The opening protocol over the bundle's own ladder: what any number of concurrent opens
    keep, and what the stamp read again and the error's code are for. */
module OpenerTheorems {
  import opened Common
  import opened BundleSchema
  import opened SchemaLadder
  import opened LadderTheorems
  import opened SqliteErrors
  import opened Openers

  // ----- the bundle's ladder

  /** The sweeps a repair runs statement by statement: all but the last. */
  function PlainSweeps(): seq<seq<Statement>> {
    seq(LAST_SWEEP, k requires 0 <= k < LAST_SWEEP => Sweep(SWEEP_VERSIONS[k]))
  }

  const LAST_SWEEP: nat := 13

  function BundleLadder(environmental: Option<int> -> bool): Ladder {
    Ladder(SCHEMA_VERSION, Migrated, (stamp: int) => ArmOf(stamp) !in {Repair, Rebuild}, (stamp: int) => ArmOf(stamp) == Rebuild,
           PlainSweeps(), (b, s) => Executed(V18(), b, s), b => ExecutedAll(V18(), b, Sweep18()), environmental, Fresh())
  }

  function V18Ladder(): Ladder { BundleLadder(IsEnvironmental) }

  ghost predicate StepsHere(a: Bundle, b: Bundle) { Steps(V18(), a, b) && HasCore(b) }

  ghost function V18Order(): Order {
    Order((a, b) => StepsHere(a, b), (b, s) => Given(V18(), b, s), b => IsComplete(b))
  }

  /** A bundle of the shape its stamp is trusted to have; a current one may have drifted as
      far as its repair can heal. */
  ghost predicate Sound(b: Bundle) { Trusted(b, b.version) }

  // ----- an arm's result is shaped

  predicate AlikeBut(r: Row, s: Row, c: Column) { r - {c} == s - {c} }

  lemma AlikeProjects(r: Row, s: Row, key: seq<Column>, c: Column)
    requires AlikeBut(r, s, c) && c !in key
    ensures Projection(r, key) == Projection(s, key)
  {
    forall i | 0 <= i < |key| ensures Projection(r, key)[i] == Projection(s, key)[i] {
      assert key[i] != c;
      assert key[i] in r <==> key[i] in r - {c};
      assert key[i] in s <==> key[i] in s - {c};
    }
  }

  lemma AlikeKeys(r: Row, s: Row, c: Column, columns: set<Column>)
    requires AlikeBut(r, s, c) && r.Keys <= columns && c in columns
    ensures s.Keys <= columns
  {
    forall k | k in s && k != c ensures k in r {
      assert k in s - {c};
    }
  }

  lemma AlikeUnique(rows: map<int, Row>, after: map<int, Row>, key: seq<Column>, c: Column)
    requires UniqueUnder(rows, key) && c !in key && after.Keys == rows.Keys && forall id :: id in rows ==> AlikeBut(rows[id], after[id], c)
    ensures UniqueUnder(after, key)
  {
    forall id | id in rows ensures Projection(after[id], key) == Projection(rows[id], key) {
      AlikeProjects(rows[id], after[id], key, c);
    }
  }

  lemma RowsShaped(d: Design, b: Bundle, t: TableName, rows: map<int, Row>)
    requires Shaped(d, b) && Has(b, t) && UniqueUnder(rows, b.tables[Named(t)].key)
    requires forall id :: id in rows ==> rows[id].Keys <= b.tables[Named(t)].columns
    ensures Shaped(d, WithRows(b, t, rows))
  {
    ShapedTable(d, b, t);
    ReplacedShaped(d, b, t, b.tables[Named(t)].(rows := rows));
  }

  /** Rewriting one column outside the key. */
  lemma ColumnShaped(d: Design, b: Bundle, t: TableName, rows: map<int, Row>, c: Column)
    requires Shaped(d, b) && Has(b, t) && c in b.tables[Named(t)].columns && c !in b.tables[Named(t)].key
    requires rows.Keys == b.tables[Named(t)].rows.Keys
    requires forall id :: id in rows ==> AlikeBut(b.tables[Named(t)].rows[id], rows[id], c)
    ensures Shaped(d, WithRows(b, t, rows))
  {
    var state := b.tables[Named(t)];
    ShapedTable(d, b, t);
    AlikeUnique(state.rows, rows, state.key, c);
    forall id | id in rows ensures rows[id].Keys <= state.columns {
      AlikeKeys(state.rows[id], rows[id], c, state.columns);
    }
    RowsShaped(d, b, t, rows);
  }

  lemma HashesClearedShaped(b: Bundle, projectOnly: bool)
    requires Shaped(V18(), b) && IsComplete(b)
    ensures Shaped(V18(), HashesCleared(b, projectOnly)) && IsComplete(HashesCleared(b, projectOnly))
  {
    CompleteTable(b, Packages);
    PackagesColumns();
    RewriteIsAlike(b.tables[Named(Packages)].rows, HashesCleared(b, projectOnly).tables[Named(Packages)].rows, CONTENT_HASH, Null);
    ColumnShaped(V18(), b, Packages, HashesCleared(b, projectOnly).tables[Named(Packages)].rows, CONTENT_HASH);
    RowsComplete(b, Packages, HashesCleared(b, projectOnly).tables[Named(Packages)].rows);
  }

  lemma RewriteIsAlike(rows: map<int, Row>, after: map<int, Row>, c: Column, v: Value)
    requires after.Keys == rows.Keys
    requires forall id :: id in rows ==> after[id] == rows[id] || after[id] == rows[id][c := v]
    ensures forall id :: id in rows ==> AlikeBut(rows[id], after[id], c)
  {
  }

  lemma PackagesColumns()
    ensures CONTENT_HASH in FreshColumns(Packages) && FreshKey(Packages) == [NAME] && CONTENT_HASH !in FreshKey(Packages)
  {
  }

  lemma ChunksColumns()
    ensures EMBEDDED in FreshColumns(Chunks) && FreshKey(Chunks) == [ID] && EMBEDDED !in FreshKey(Chunks)
  {
  }

  lemma BackfilledShaped(b: Bundle)
    requires Shaped(V18(), b) && IsComplete(b)
    ensures Shaped(V18(), EmbeddedBackfilled(b)) && IsComplete(EmbeddedBackfilled(b))
  {
    CompleteTable(b, Chunks);
    ChunksColumns();
    RewriteIsAlike(b.tables[Named(Chunks)].rows, EmbeddedBackfilled(b).tables[Named(Chunks)].rows, EMBEDDED, Int(1));
    ColumnShaped(V18(), b, Chunks, EmbeddedBackfilled(b).tables[Named(Chunks)].rows, EMBEDDED);
    RowsComplete(b, Chunks, EmbeddedBackfilled(b).tables[Named(Chunks)].rows);
  }

  lemma RowsComplete(b: Bundle, t: TableName, rows: map<int, Row>)
    requires IsComplete(b) && Has(b, t)
    ensures IsComplete(WithRows(b, t, rows))
  {
  }

  lemma UpdatesShaped(b: Bundle, arm: Arm)
    requires Shaped(V18(), b) && IsComplete(b)
    ensures Has(b, Packages) && Has(b, Chunks) && Shaped(V18(), ArmUpdates(b, arm))
  {
    CompleteTable(b, Packages);
    CompleteTable(b, Chunks);
    if arm == BranchTables {
      HashesClearedShaped(b, true);
    } else if arm in {Embeddings, Structure} {
      BothUpdatesShaped(b, arm == Embeddings);
    }
  }

  lemma BothUpdatesShaped(b: Bundle, projectOnly: bool)
    requires Shaped(V18(), b) && IsComplete(b) && Has(b, Packages) && Has(b, Chunks)
    ensures Has(EmbeddedBackfilled(b), Packages) && Shaped(V18(), HashesCleared(EmbeddedBackfilled(b), projectOnly))
  {
    BackfilledShaped(b);
    HashesClearedShaped(EmbeddedBackfilled(b), projectOnly);
  }

  lemma StampedTableShaped(d: Design, b: Bundle, t: TableName, name: string)
    requires Shaped(d, b) && StampedTable(b, t, name).Ok?
    ensures Shaped(d, StampedTable(b, t, name).value)
  {
    var state := b.tables[Named(t)];
    ShapedTable(d, b, t);
    forall id | id in state.rows ensures StampedRows(state.rows, t, name)[id].Keys <= state.columns {
    }
    RowsShaped(d, b, t, StampedRows(state.rows, t, name));
  }

  lemma {:induction false} StampedTablesShaped(d: Design, b: Bundle, tables: seq<TableName>, name: string)
    requires Shaped(d, b) && StampedTables(b, tables, name).Ok?
    ensures Shaped(d, StampedTables(b, tables, name).value)
  {
    if tables != [] {
      var n := |tables| - 1;
      StampedTablesShaped(d, b, tables[..n], name);
      StampedTableShaped(d, StampedTables(b, tables[..n], name).value, tables[n], name);
    }
  }

  lemma VersionShaped(d: Design, b: Bundle, version: int)
    requires Shaped(d, b)
    ensures Shaped(d, b.(version := version))
  {
    forall i | i in b.indexes ensures IndexShaped(d, b.(version := version), i) {
      assert IndexShaped(d, b, i);
    }
  }

  lemma FinishedShaped(b: Bundle, arm: Arm, served: Option<string>)
    requires Shaped(V18(), b) && IsComplete(b) && ArmFinished(b, arm, served).Ok?
    ensures Shaped(V18(), ArmFinished(b, arm, served).value)
  {
    if arm != Repair {
      UpdatesShaped(b, arm);
      var stamped := ProjectStamped(ArmUpdates(b, arm), served);
      if served.Some? {
        StampedTablesShaped(V18(), ArmUpdates(b, arm), BRANCH_KEYED, served.value);
      }
      VersionShaped(V18(), stamped.value, SCHEMA_VERSION);
    }
  }

  // ----- the promises

  lemma CompleteHasCore(b: Bundle)
    requires IsComplete(b)
    ensures HasCore(b)
  {
  }

  lemma TableStaysComplete(b: Bundle, out: Bundle, t: TableName)
    requires IsComplete(b) && Steps(V18(), b, out)
    ensures Has(out, t) && out.tables[Named(t)].columns == FreshColumns(t) && out.tables[Named(t)].key == FreshKey(t)
  {
    CompleteTable(b, t);
    ShapedTable(V18(), out, t);
    NoWider(b.tables[Named(t)].columns, out.tables[Named(t)].columns, t);
    KeyComplete(out, t);
  }

  lemma NoWider(before: set<Column>, after: set<Column>, t: TableName)
    requires before == FreshColumns(t) && before <= after <= V18().full(t)
    ensures after == FreshColumns(t)
  {
  }

  lemma StaysComplete(b: Bundle, out: Bundle)
    requires IsComplete(b) && Steps(V18(), b, out)
    ensures IsComplete(out)
  {
    forall t: TableName ensures Has(out, t) && out.tables[Named(t)].columns == FreshColumns(t) && out.tables[Named(t)].key == FreshKey(t) {
      TableStaysComplete(b, out, t);
    }
    forall i: Index ensures i in out.indexes && out.indexes[i] == Named(IndexOn(i).0) {
      assert i in b.indexes;
      assert IndexShaped(V18(), out, i);
    }
  }

  lemma OrderRegular()
    ensures Regular(V18Order())
  {
    var p := V18Order();
    forall a, b, c | p.steps(a, b) && p.steps(b, c) ensures p.steps(a, c) {
      StepsCompose(V18(), a, b, c);
    }
    forall a, b, s | p.given(a, s) && p.steps(a, b) ensures p.given(b, s) {
      GivenStays(V18(), a, b, s);
    }
    forall a, b | p.whole(a) && p.steps(a, b) ensures p.whole(b) {
      StaysComplete(a, b);
    }
  }

  /** The arm of an old stamp arrives at a whole bundle with every table shaped. */
  lemma UpgradeArrives(start: Bundle, served: Option<string>)
    requires Trusted(start, start.version) && start.version != SCHEMA_VERSION
    ensures Migrated(start, start.version, served).Ok?
    ensures var out := Migrated(start, start.version, served).value;
            IsComplete(out) && out.version == SCHEMA_VERSION && StepsHere(out, out) && Converged(start, out, ArmOf(start.version))
  {
    var arm := ArmOf(start.version);
    LadderConverges(start, start.version, served);
    TrustedStart(start, start.version);
    SweptConverges(start, SinceOf(arm));
    var swept := Swept(V18(), start, SinceOf(arm), |V18().versions|).value;
    FinishedShaped(swept, arm, served);
    var out := Migrated(start, start.version, served).value;
    CompleteHasCore(out);
    NoStep(V18(), out);
  }

  lemma RepairArmRepairs(b: Bundle, served: Option<string>)
    requires Shaped(V18(), b) && HasCore(b)
    ensures Migrated(b, SCHEMA_VERSION, served).Ok?
    ensures var out := Migrated(b, SCHEMA_VERSION, served).value; StepsHere(b, out) && IsComplete(out)
  {
    CurrentArmRepairs(b, served);
    SweptRepairs(b, served);
  }

  lemma SweptRepairs(b: Bundle, served: Option<string>)
    requires Shaped(V18(), b) && HasCore(b)
    ensures var out := FinishedAfter(Swept(V18(), b, 0, |V18().versions|), Repair, served);
            out.Ok? && StepsHere(b, out.value) && IsComplete(out.value)
  {
    NothingSkipped(b);
    SweptConverges(b, 0);
    RepairedAfter(b, Swept(V18(), b, 0, |V18().versions|), served);
  }

  /** The repair replays every sweep. */
  lemma NothingSkipped(b: Bundle)
    ensures TrustsSkipped(V18(), b, 0)
  {
  }

  lemma CurrentArmRepairs(b: Bundle, served: Option<string>)
    ensures Migrated(b, SCHEMA_VERSION, served) == FinishedAfter(Swept(V18(), b, 0, |V18().versions|), Repair, served)
  {
    assert ArmOf(SCHEMA_VERSION) == Repair && SinceOf(Repair) == 0;
  }

  lemma RepairedAfter(b: Bundle, swept: Result<Bundle, SqlError>, served: Option<string>)
    requires swept.Ok? && Steps(V18(), b, swept.value) && IsComplete(swept.value)
    ensures var out := FinishedAfter(swept, Repair, served);
            out.Ok? && StepsHere(b, out.value) && IsComplete(out.value)
  {
    RepairFinishes(swept.value, served);
    StepsStayHere(b, swept.value);
  }

  lemma StepsStayHere(b: Bundle, out: Bundle)
    requires Steps(V18(), b, out) && IsComplete(out)
    ensures StepsHere(b, out)
  {
    CompleteHasCore(out);
  }

  /** What a base and the steps since have left of a sound start. */
  ghost predicate Safe(start: Bundle, b: Bundle) {
    b.version == SCHEMA_VERSION && Workable(b) && AllKept(start, b, ArmOf(start.version))
  }

  /** Shaped, with the tables no sweep creates: all a repair needs of a bundle. */
  ghost predicate Workable(b: Bundle) { Shaped(V18(), b) && HasCore(b) }

  lemma KeptThenSame(before: map<int, Row>, mid: map<int, Row>, after: map<int, Row>, freed: set<Column>)
    requires KeptBut(before, mid, freed) && SameValues(mid, after)
    ensures KeptBut(before, after, freed)
  {
  }

  lemma BaseIsSafe(start: Bundle, base: Bundle)
    requires Sound(start) && IsBase(V18Ladder(), start, base)
    ensures AllKept(start, base, ArmOf(start.version))
  {
    if base == start {
      NothingIsRewritten(start, ArmOf(start.version));
    } else {
      var served :| Migrated(start, start.version, served) == Ok(base);
      MigratedBase(start, base, served);
    }
  }

  lemma MigratedBase(start: Bundle, base: Bundle, served: Option<string>)
    requires Trusted(start, start.version) && Migrated(start, start.version, served) == Ok(base)
    ensures AllKept(start, base, ArmOf(start.version))
  {
    MigratedIsConverged(start, base, served);
  }

  /** Every row of every table, with every value the arm does not rewrite. */
  ghost predicate AllKept(start: Bundle, b: Bundle, arm: Arm) {
    forall t: TableName :: Has(start, t) ==> Has(b, t) && KeptBut(start.tables[Named(t)].rows, b.tables[Named(t)].rows, Rewritten(arm, t))
  }

  lemma NothingIsRewritten(start: Bundle, arm: Arm)
    ensures AllKept(start, start, arm)
  {
  }

  lemma MigratedIsConverged(start: Bundle, base: Bundle, served: Option<string>)
    requires Trusted(start, start.version) && Migrated(start, start.version, served) == Ok(base)
    ensures Converged(start, base, ArmOf(start.version))
  {
    LadderConverges(start, start.version, served);
  }

  lemma SettledIsSafe(start: Bundle, b: Bundle)
    requires Sound(start) && Settled(V18Ladder(), V18Order(), start, b)
    ensures Safe(start, b)
  {
    var base :| IsBase(V18Ladder(), start, base) && V18Order().steps(base, b);
    BaseIsSafe(start, base);
    SafeFrom(start, base, b, ArmOf(start.version));
  }

  lemma SafeFrom(start: Bundle, base: Bundle, b: Bundle, arm: Arm)
    requires base.version == SCHEMA_VERSION && AllKept(start, base, arm) && StepsHere(base, b)
    ensures b.version == SCHEMA_VERSION && Workable(b) && AllKept(start, b, arm)
  {
    AllKeptStays(start, base, b, arm);
  }

  lemma AllKeptStays(start: Bundle, base: Bundle, b: Bundle, arm: Arm)
    requires AllKept(start, base, arm) && RowsKept(base, b)
    ensures AllKept(start, b, arm)
  {
    forall t: TableName | Has(start, t)
      ensures Has(b, t) && KeptBut(start.tables[Named(t)].rows, b.tables[Named(t)].rows, Rewritten(arm, t))
    {
      KeptThenSame(start.tables[Named(t)].rows, base.tables[Named(t)].rows, b.tables[Named(t)].rows, Rewritten(arm, t));
    }
  }

  // ----- a drifted bundle repaired by several at once

  lemma SweepsAre(k: nat)
    requires k < LAST_SWEEP
    ensures |PlainSweeps()| == LAST_SWEEP && PlainSweeps()[k] == Sweep(SWEEP_VERSIONS[k])
  {
  }

  lemma GivenIsReached(b: Bundle, k: nat, j: nat)
    requires GivenUpTo(V18Ladder(), V18Order(), b, k, j) && k <= LAST_SWEEP
    ensures Reached(V18(), b, 0, k)
  {
    forall x: nat | x < k ensures ReachedAt(V18(), b, 0, x) {
      SweepsAre(x);
      assert GivenPart(V18Order(), b, PlainSweeps()[x], |PlainSweeps()[x]|);
      PartIsReached(b, PlainSweeps()[x], V18().versions[x] <= 0);
    }
  }

  lemma PartIsReached(b: Bundle, statements: seq<Statement>, trusted: bool)
    requires GivenPart(V18Order(), b, statements, |statements|)
    ensures SweepReached(V18(), b, trusted, statements)
  {
    forall j: nat | j < |statements| ensures StatementReached(V18(), b, trusted, statements[j]) {
      assert V18Order().given(b, statements[j]);
    }
  }

  /** Whatever the others have done, the next statement of a sweep runs on a drifted bundle,
      loses nothing and leaves its effect. */
  lemma NextStatementRuns(b: Bundle, k: nat, j: nat)
    requires Shaped(V18(), b) && HasCore(b) && k < |SWEEP_VERSIONS| && j < |Sweep(SWEEP_VERSIONS[k])| && Reached(V18(), b, 0, k)
    requires forall y: nat :: y < j ==> Given(V18(), b, Sweep(SWEEP_VERSIONS[k])[y])
    ensures var r := Executed(V18(), b, Sweep(SWEEP_VERSIONS[k])[j]);
            r.Ok? && StepsHere(b, r.value) && Given(V18(), r.value, Sweep(SWEEP_VERSIONS[k])[j])
  {
    var statements := Sweep(SWEEP_VERSIONS[k]);
    V18Coherent();
    EverySweepIsSupported(b, 0);
    SupportedNow(b, k, statements);
    assert SupportedAt(V18(), b, statements, j);
    SupportMeansAble(V18(), b, b, statements, j);
    RunsAbly(b, statements[j]);
  }

  lemma SupportedNow(b: Bundle, k: nat, statements: seq<Statement>)
    requires Shaped(V18(), b) && k < |V18().versions| && Reached(V18(), b, 0, k) && Climbs(V18(), b, 0) && statements == V18().sweep(V18().versions[k])
    ensures Supported(V18(), b, statements)
  {
    assert Grows(b, b);
  }

  lemma RunsAbly(b: Bundle, s: Statement)
    requires Coherent(V18()) && Shaped(V18(), b) && HasCore(b) && IsSweepStatement(V18(), s) && Able(V18(), b, s)
    ensures var r := Executed(V18(), b, s);
            r.Ok? && StepsHere(b, r.value) && Given(V18(), r.value, s)
  {
    StatementSteps(V18(), b, s);
    CoreStays(b, Executed(V18(), b, s).value);
  }

  lemma RepairRunsWell(b: Bundle, k: nat, j: nat)
    requires Workable(b) && IsAt(V18Ladder(), k, j) && GivenUpTo(V18Ladder(), V18Order(), b, k, j)
    ensures RunsWell(V18Ladder(), V18Order(), b, PlainSweeps()[k][j])
  {
    SweepsAre(k);
    GivenIsReached(b, k, j);
    forall y: nat | y < j ensures Given(V18(), b, Sweep(SWEEP_VERSIONS[k])[y]) {
      assert V18Order().given(b, PlainSweeps()[k][y]);
    }
    NextStatementRuns(b, k, j);
  }

  /** The last sweep, once the others are in place, completes the bundle. */
  lemma LastSweepCompletes(b: Bundle)
    requires Workable(b) && Reached(V18(), b, 0, LAST_SWEEP)
    ensures var out := ExecutedAll(V18(), b, Sweep18());
            out.Ok? && StepsHere(b, out.value) && IsComplete(out.value)
  {
    V18Coherent();
    LastIs18();
    EverySweepIsSupported(b, 0);
    SupportedNow(b, LAST_SWEEP, Sweep18());
    SweepSteps(V18(), b, Sweep18());
    var out := ExecutedAll(V18(), b, Sweep18()).value;
    CoreStays(b, out);
    ReachedOneMore(V18(), b, out, 0, LAST_SWEEP);
    AllReachedAt14(out);
    ReachedIsComplete(out);
  }

  lemma LastIs18()
    ensures |V18().versions| == LAST_SWEEP + 1 && V18().sweep(V18().versions[LAST_SWEEP]) == Sweep18()
  {
  }

  lemma AllReachedAt14(b: Bundle)
    requires Reached(V18(), b, 0, LAST_SWEEP + 1)
    ensures AllReached(b)
  {
    assert |SWEEP_VERSIONS| == 14;
  }

  lemma BundleEndsWhole(b: Bundle)
    requires Workable(b) && GivenUpTo(V18Ladder(), V18Order(), b, LAST_SWEEP, 0)
    ensures EndsWhole(V18Ladder(), V18Order(), b)
  {
    GivenIsReached(b, LAST_SWEEP, 0);
    LastSweepCompletes(b);
  }

  lemma SettledIsWorkable(start: Bundle, b: Bundle)
    requires Settled(V18Ladder(), V18Order(), start, b)
    ensures Workable(b)
  {
    var base :| IsBase(V18Ladder(), start, base) && V18Order().steps(base, b);
  }

  lemma BundleIsRepairable(start: Bundle)
    ensures Repairable(V18Ladder(), V18Order(), start)
  {
    var m, p := V18Ladder(), V18Order();
    forall b, k: nat, j: nat | Settled(m, p, start, b) && IsAt(m, k, j) && GivenUpTo(m, p, b, k, j) ensures RunsWell(m, p, b, m.sweeps[k][j]) {
      SettledIsWorkable(start, b);
      RepairRunsWell(b, k, j);
    }
    SweepsAre(0);
    forall b | Settled(m, p, start, b) && GivenUpTo(m, p, b, |m.sweeps|, 0) ensures EndsWhole(m, p, b) {
      SettledIsWorkable(start, b);
      BundleEndsWhole(b);
    }
  }

  lemma ArmsUpgrade(current: int)
    requires ArmOf(current) != Rebuild
    ensures current != SCHEMA_VERSION ==> ArmOf(current) !in {Repair, Rebuild}
    ensures ArmOf(SCHEMA_VERSION) == Repair
  {
    RepairIsCurrent(current);
  }

  /** The bundle's ladder is one the protocol is safe for. */
  lemma BundleLadderConverges(start: Bundle)
    requires Sound(start)
    ensures Converges(V18Ladder(), V18Order(), start)
  {
    var m, p := V18Ladder(), V18Order();
    OrderRegular();
    BundleIsRepairable(start);
    ArmsUpgrade(start.version);
    StartsWell(start);
    forall b, served | Settled(m, p, start, b) ensures RepairedWhole(m, p, b, served) {
      SettledIsWorkable(start, b);
      RepairArmRepairs(b, served);
    }
    forall f, extended: nat ensures m.environmental(Some(ResultCode(f, extended))) {
      FaultIsEnvironmental(f, extended);
    }
  }

  lemma StartsWell(start: Bundle)
    requires Sound(start)
    ensures if start.version == SCHEMA_VERSION then V18Order().steps(start, start)
            else forall served :: Arrives(V18Ladder(), V18Order(), start, served)
  {
    if start.version == SCHEMA_VERSION {
      NoStep(V18(), start);
    } else {
      forall served ensures Arrives(V18Ladder(), V18Order(), start, served) {
        UpgradeArrives(start, served);
      }
    }
  }

  // ----- what every open keeps

  /** The protocol over the bundle's own ladder, a drifted current bundle included: at most
      one upgrade, no rebuild, and a complete, current file once anybody has it open. */
  lemma BundleUpgradedAtMostOnce(run: seq<World>, k: nat)
    requires IsRun(V18Ladder(), run) && Sound(run[0].disk) && k < |run|
    ensures run[k].upgrades <= 1 && run[k].rebuilds == 0
    ensures run[k].disk == run[0].disk || Safe(run[0].disk, run[k].disk)
    ensures (exists i :: i in run[k].openers && run[k].openers[i] == Opened) ==> run[k].disk.version == SCHEMA_VERSION && IsComplete(run[k].disk)
  {
    BundleLadderConverges(run[0].disk);
    UpgradedAtMostOnce(V18Ladder(), V18Order(), run, k);
    if run[k].disk != run[0].disk {
      SettledIsSafe(run[0].disk, run[k].disk);
    }
  }

  lemma SafeKeeps(start: Bundle, b: Bundle, arm: Arm, t: TableName)
    requires b == start || AllKept(start, b, arm)
    requires Has(start, t)
    ensures Has(b, t) && KeptBut(start.tables[Named(t)].rows, b.tables[Named(t)].rows, Rewritten(arm, t))
  {
  }

  /** No table loses a row, or an old value but those the one upgrade rewrites; a repair
      rewrites none. */
  lemma NoRowIsLost(run: seq<World>, k: nat, t: TableName)
    requires IsRun(V18Ladder(), run) && Sound(run[0].disk) && k < |run| && Has(run[0].disk, t)
    ensures Has(run[k].disk, t)
    ensures KeptBut(run[0].disk.tables[Named(t)].rows, run[k].disk.tables[Named(t)].rows, Rewritten(ArmOf(run[0].disk.version), t))
    ensures Rewritten(Repair, t) == {}
  {
    BundleUpgradedAtMostOnce(run, k);
    SafeKeeps(run[0].disk, run[k].disk, ArmOf(run[0].disk.version), t);
    RepairRewritesNothing(t);
  }

  lemma RepairRewritesNothing(t: TableName)
    ensures Rewritten(Repair, t) == {}
  {
  }

  /** Only the arms below version 12 rewrite the flags. */
  lemma FlagsRewritten(current: int)
    requires ArmOf(current) != Rebuild
    ensures EMBEDDED in Rewritten(ArmOf(current), Chunks) <==> current < 12
  {
    ChunksRewritten(ArmOf(current));
  }

  lemma ChunksRewritten(arm: Arm)
    ensures EMBEDDED in Rewritten(arm, Chunks) <==> arm in {Embeddings, Structure}
  {
    assert BRANCH_KEYED == [DocumentTrees, ModuleMembers, NodeReferences, NodeScores, DecisionRecords];
  }

  /** Flags written since version 12 survive every open. */
  lemma EmbeddedFlagsSurvive(run: seq<World>, k: nat, id: int)
    requires IsRun(V18Ladder(), run) && Sound(run[0].disk) && k < |run| && run[0].disk.version >= 12
    requires Has(run[0].disk, Chunks) && id in run[0].disk.tables[Named(Chunks)].rows && EMBEDDED in run[0].disk.tables[Named(Chunks)].rows[id]
    ensures Has(run[k].disk, Chunks) && id in run[k].disk.tables[Named(Chunks)].rows
    ensures Holds(run[k].disk.tables[Named(Chunks)].rows[id], EMBEDDED, run[0].disk.tables[Named(Chunks)].rows[id][EMBEDDED])
  {
    NoRowIsLost(run, k, Chunks);
    FlagsRewritten(run[0].disk.version);
    FlagKept(run[0].disk.tables[Named(Chunks)].rows, run[k].disk.tables[Named(Chunks)].rows, Rewritten(ArmOf(run[0].disk.version), Chunks), id);
  }

  lemma FlagKept(before: map<int, Row>, after: map<int, Row>, freed: set<Column>, id: int)
    requires KeptBut(before, after, freed) && EMBEDDED !in freed && id in before && EMBEDDED in before[id]
    ensures id in after && Holds(after[id], EMBEDDED, before[id][EMBEDDED])
  {
  }

  // ----- the code of an error

  /** Under a handler that looks at no code one fault empties the bundle. */
  lemma IgnoringTheCodeEmpties(start: Bundle, f: Fault, extended: nat) returns (run: seq<World>)
    ensures IsRun(BundleLadder(_ => false), run) && run[0].disk == start && run[|run| - 1].disk == Fresh()
    ensures forall t: TableName :: Has(run[|run| - 1].disk, t) ==> run[|run| - 1].disk.tables[Named(t)].rows == map[]
  {
    run := ForgottenFaultRebuilds(BundleLadder(_ => false), start, f, extended);
    FreshIsEmpty(run[|run| - 1].disk);
  }

  lemma FreshIsEmpty(b: Bundle)
    requires b == Fresh()
    ensures forall t: TableName :: Has(b, t) ==> b.tables[Named(t)].rows == map[]
  {
  }

  // ----- the last sweep's transaction

  /** Why the last sweep is one transaction: it keeps every row, but a crash after its rename
      alone would leave a file whose next repair makes an empty table, the rows stranded in
      the side table. */
  lemma RenameAloneStrandsRows(d: Design, b: Bundle, t: TableName)
    requires Coherent(d) && Shaped(d, b) && t in d.tier && Has(b, t) && BRANCH !in b.tables[Named(t)].columns
    ensures KeyRebuilt(d, b, t).Ok? && RowsKept(b, KeyRebuilt(d, b, t).value)
    ensures var repaired := KeyRebuilt(d, Renamed(b, t), t);
            repaired.Ok? ==> repaired.value.tables == b.tables[Side(t) := b.tables[Named(t)]][Named(t) := EmptyTable(d, t)]
  {
    RebuildKeySteps(d, b, t);
    StrandedBy(d, Renamed(b, t), t);
    RenamedThenCreated(b.tables, t, EmptyTable(d, t));
  }

  lemma RenamedThenCreated(tables: map<Table, TableState>, t: TableName, created: TableState)
    requires Named(t) in tables
    ensures (tables - {Named(t)})[Side(t) := tables[Named(t)]][Named(t) := created] == tables[Side(t) := tables[Named(t)]][Named(t) := created]
  {
  }

  lemma StrandedBy(d: Design, b: Bundle, t: TableName)
    requires Named(t) !in b.tables
    ensures var repaired := KeyRebuilt(d, b, t);
            repaired.Ok? ==> repaired.value.tables == b.tables[Named(t) := EmptyTable(d, t)]
  {
    IndexesLeaveTables(d, WithTable(b, t, EmptyTable(d, t)), d.rebuildIndexes(t));
  }

  lemma {:induction false} IndexesLeaveTables(d: Design, b: Bundle, indexes: seq<Index>)
    ensures IndexesCreated(d, b, indexes).Ok? ==> IndexesCreated(d, b, indexes).value.tables == b.tables
  {
    if indexes != [] {
      IndexesLeaveTables(d, b, indexes[..|indexes| - 1]);
    }
  }

  // ----- the stamp read again

  /** An opener that ran the arm of a stamp read before it had the lock would flag every
      chunk of a current bundle embedded. */
  lemma StaleStampOverwritesFlags(b: Bundle, stale: int, id: int)
    requires IsComplete(b) && ArmOf(stale) in {Embeddings, Structure} && id in b.tables[Named(Chunks)].rows
    ensures var out := Migrated(b, stale, None);
            out.Ok? && Has(out.value, Chunks) && id in out.value.tables[Named(Chunks)].rows
            && Holds(out.value.tables[Named(Chunks)].rows[id], EMBEDDED, Int(1))
  {
    StaleArm(b, ArmOf(stale), id);
  }

  lemma StaleArm(b: Bundle, arm: Arm, id: int)
    requires IsComplete(b) && arm in {Embeddings, Structure} && id in b.tables[Named(Chunks)].rows
    ensures var out := ArmResult(b, arm, None);
            out.Ok? && Has(out.value, Chunks) && id in out.value.tables[Named(Chunks)].rows
            && Holds(out.value.tables[Named(Chunks)].rows[id], EMBEDDED, Int(1))
  {
    SweepsAreInert(b, |V18().versions|, SinceOf(arm));
    CompleteTable(b, Packages);
    CompleteTable(b, Chunks);
    CompleteTable(b, Branches);
    FlagsBackfilled(b, arm, id);
  }

  lemma FlagsBackfilled(b: Bundle, arm: Arm, id: int)
    requires Has(b, Packages) && Has(b, Chunks) && Has(b, Branches) && arm in {Embeddings, Structure} && id in b.tables[Named(Chunks)].rows
    ensures var out := ArmFinished(b, arm, None);
            out.Ok? && Has(out.value, Chunks) && id in out.value.tables[Named(Chunks)].rows
            && Holds(out.value.tables[Named(Chunks)].rows[id], EMBEDDED, Int(1))
  {
  }
}
