/** What each version's upgrade writes into the rows it finds, by version number and column:
    which package hashes it clears, which chunks it flags embedded, which rows it gives to
    the served branch, and what a new column reads back. */
module ArmLaws {
  import opened Common
  import opened BundleSchema
  import opened SchemaLadder
  import opened LadderTheorems

  /** Every old value of a row but one column's is in place. */
  predicate SameButColumn(before: Row, after: Row, column: Column) {
    forall c :: c in before && c != column ==> c in after && after[c] == before[c]
  }

  /** The column holds what it held, or holds nothing as before. */
  predicate SameColumn(before: Row, after: Row, column: Column) {
    (column in after <==> column in before) && (column in before ==> after[column] == before[column])
  }

  /** Every package row, with its hash cleared when it is among those to re-extract. */
  ghost predicate HashesAfter(before: map<int, Row>, after: map<int, Row>, project: bool, all: bool) {
    && after.Keys == before.Keys
    && forall id :: id in before ==>
         && SameButColumn(before[id], after[id], CONTENT_HASH)
         && if all || (project && NAME in before[id] && before[id][NAME] == Text("__project__"))
            then CONTENT_HASH in after[id] && after[id][CONTENT_HASH] == Null
            else SameColumn(before[id], after[id], CONTENT_HASH)
  }

  /** Every chunk row, flagged embedded when its version embedded everything; otherwise with
      the flag it had, or none when flags are new to the bundle. */
  ghost predicate FlagsAfter(before: TableState, after: map<int, Row>, backfilled: bool) {
    && after.Keys == before.rows.Keys
    && forall id :: id in before.rows ==>
         && SameButColumn(before.rows[id], after[id], EMBEDDED)
         && if backfilled then EMBEDDED in after[id] && after[id][EMBEDDED] == Int(1)
            else if EMBEDDED in before.columns then SameColumn(before.rows[id], after[id], EMBEDDED)
            else EMBEDDED in after[id] && after[id][EMBEDDED] == Int(0)
  }

  /** Whose rows a branch-keyed table's row is among. */
  predicate IsProjectRow(row: Row, t: TableName) {
    if t == NodeReferences then FROM_PACKAGE in row && row[FROM_PACKAGE] == Text("__project__")
    else PACKAGE in row && row[PACKAGE] == Text("__project__")
  }

  /** Every row of a branch-keyed table: a project row that names no branch takes the served
      one's name; any other keeps its branch, or has the empty one when branches are new. */
  ghost predicate BranchesAfter(before: TableState, after: map<int, Row>, t: TableName, served: Option<string>) {
    && after.Keys == before.rows.Keys
    && forall id :: id in before.rows ==>
         && SameButColumn(before.rows[id], after[id], BRANCH)
         && var unbranched := BRANCH !in before.columns || (BRANCH in before.rows[id] && before.rows[id][BRANCH] == Text(""));
            if served.Some? && IsProjectRow(before.rows[id], t) && unbranched then BRANCH in after[id] && after[id][BRANCH] == Text(served.value)
            else if BRANCH in before.columns then SameColumn(before.rows[id], after[id], BRANCH)
            else BRANCH in after[id] && after[id][BRANCH] == Text("")
  }

  // ----- the arm's updates on swept rows

  lemma HashesUpdated(b: Bundle, arm: Arm)
    requires Has(b, Packages) && Has(b, Chunks)
    ensures HashesAfter(b.tables[Named(Packages)].rows, ArmUpdates(b, arm).tables[Named(Packages)].rows, arm in {BranchTables, Embeddings}, arm == Structure)
  {
  }

  lemma FlagsUpdated(b: Bundle, arm: Arm)
    requires Has(b, Packages) && Has(b, Chunks) && EMBEDDED in b.tables[Named(Chunks)].columns
    ensures FlagsAfter(b.tables[Named(Chunks)], ArmUpdates(b, arm).tables[Named(Chunks)].rows, arm in {Embeddings, Structure})
  {
  }

  lemma RowsStamped(state: TableState, t: TableName, served: Option<string>)
    requires BRANCH in state.columns
    ensures BranchesAfter(state, if served.Some? then StampedRows(state.rows, t, served.value) else state.rows, t, served)
  {
  }

  // ----- from the old rows

  lemma HashesSince(before: TableState, swept: TableState, after: map<int, Row>, project: bool, all: bool)
    requires FilledIn(before, swept) && HashesAfter(swept.rows, after, project, all)
    requires {NAME, CONTENT_HASH} <= before.columns && forall id :: id in before.rows ==> before.rows[id].Keys <= before.columns
    ensures HashesAfter(before.rows, after, project, all)
  {
  }

  lemma FlagsSince(before: TableState, swept: TableState, after: map<int, Row>, backfilled: bool)
    requires FilledIn(before, swept) && FlagsAfter(swept, after, backfilled) && EMBEDDED in swept.columns
    requires forall id :: id in before.rows ==> before.rows[id].Keys <= before.columns
    ensures FlagsAfter(before, after, backfilled)
  {
  }

  lemma BranchesSince(before: TableState, swept: TableState, after: map<int, Row>, t: TableName, served: Option<string>)
    requires FilledIn(before, swept) && BranchesAfter(swept, after, t, served) && BRANCH in swept.columns && PackageColumn(t) in before.columns
    requires forall id :: id in before.rows ==> before.rows[id].Keys <= before.columns
    ensures BranchesAfter(before, after, t, served)
  {
    forall id | id in before.rows
      ensures IsProjectRow(before.rows[id], t) <==> IsProjectRow(swept.rows[id], t)
      ensures SameButColumn(before.rows[id], after[id], BRANCH)
    {
      assert SameButColumn(swept.rows[id], after[id], BRANCH);
    }
    forall id | id in before.rows && BRANCH !in before.columns ensures Holds(swept.rows[id], BRANCH, Text("")) {
    }
  }

  // ----- a whole upgrade

  /** The table after the stamp is the updated one, stamped when it is branch-keyed. */
  ghost predicate FinishesAs(updated: Bundle, out: Result<Bundle, SqlError>, served: Option<string>, t: TableName) {
    && out.Ok? && Has(out.value, t) && Has(updated, t)
    && out.value.tables[Named(t)].rows == if served.Some? && t in BRANCH_KEYED then StampedRows(updated.tables[Named(t)].rows, t, served.value)
                                          else updated.tables[Named(t)].rows
  }

  /** The table once the arm has finished with what the sweeps left. */
  lemma FinishedTable(swept: Bundle, arm: Arm, served: Option<string>, t: TableName)
    requires Shaped(V18(), swept) && IsComplete(swept) && Unbranched(V18(), swept) && arm !in {Repair, Rebuild}
    requires Has(swept, Packages) && Has(swept, Chunks)
    ensures FinishesAs(ArmUpdates(swept, arm), ArmFinished(swept, arm, served), served, t)
  {
    UpdatesStamped(swept, arm, served);
    FinishedIs(swept, arm, served);
    UpdatesElsewhere(swept, arm);
    CompleteTable(swept, t);
    if served.Some? {
      StampedResult(swept, arm, served.value);
      StampedRowsAt(ArmUpdates(swept, arm), StampedTables(ArmUpdates(swept, arm), BRANCH_KEYED, served.value).value, served.value, t);
    }
  }

  lemma StampedRowsAt(updated: Bundle, out: Bundle, name: string, t: TableName)
    requires StampedOnly(updated, out, Elems(BRANCH_KEYED), name) && Has(updated, t)
    ensures Has(out, t)
    ensures out.tables[Named(t)].rows == if t in BRANCH_KEYED then StampedRows(updated.tables[Named(t)].rows, t, name) else updated.tables[Named(t)].rows
  {
    assert t in Elems(BRANCH_KEYED) <==> t in BRANCH_KEYED;
  }

  /** The sweeps ran over a shaped bundle, below v18, and an upgrade arm follows. */
  ghost predicate ToFinish(b: Bundle, swept: Bundle, arm: Arm, t: TableName) {
    && Steps(V18(), b, swept) && Shaped(V18(), b) && IsComplete(swept) && Unbranched(V18(), swept) && arm !in {Repair, Rebuild}
    && Has(b, t)
  }

  lemma FilledTable(b: Bundle, swept: Bundle, t: TableName)
    requires Steps(V18(), b, swept) && Has(b, t)
    ensures Has(swept, t) && FilledIn(b.tables[Named(t)], swept.tables[Named(t)])
  {
  }

  /** The table ends as the arm says. */
  ghost predicate EndsAs(b: Bundle, out: Result<Bundle, SqlError>, arm: Arm, served: Option<string>, t: TableName)
    requires Has(b, t)
  {
    out.Ok? && Has(out.value, t) && TableAfter(b.tables[Named(t)], out.value.tables[Named(t)].rows, t, arm, served)
  }

  predicate IsBranchKeyed(t: TableName) {
    t in {DocumentTrees, ModuleMembers, NodeReferences, NodeScores, DecisionRecords}
  }

  lemma BranchKeyedColumns(t: TableName)
    requires IsBranchKeyed(t)
    ensures BRANCH in FreshColumns(t) && PackageColumn(t) in LeastColumns(t) && t !in {Packages, Chunks} && t in BRANCH_KEYED
  {
    assert BRANCH_KEYED[0] == DocumentTrees && BRANCH_KEYED[1] == ModuleMembers && BRANCH_KEYED[2] == NodeReferences
           && BRANCH_KEYED[3] == NodeScores && BRANCH_KEYED[4] == DecisionRecords;
  }

  lemma OthersUnkeyed(t: TableName)
    requires !IsBranchKeyed(t)
    ensures t !in BRANCH_KEYED
  {
  }

  lemma OldColumns(b: Bundle, t: TableName)
    requires Shaped(V18(), b) && Has(b, t)
    ensures LeastColumns(t) <= b.tables[Named(t)].columns
    ensures forall id :: id in b.tables[Named(t)].rows ==> b.tables[Named(t)].rows[id].Keys <= b.tables[Named(t)].columns
  {
    ShapedTable(V18(), b, t);
  }

  /** What one table holds after the arm, told by the arm. */
  ghost predicate TableAfter(before: TableState, after: map<int, Row>, t: TableName, arm: Arm, served: Option<string>) {
    && (t == Packages ==> HashesAfter(before.rows, after, arm in {BranchTables, Embeddings}, arm == Structure))
    && (t == Chunks ==> FlagsAfter(before, after, arm in {Embeddings, Structure}))
    && (IsBranchKeyed(t) ==> BranchesAfter(before, after, t, if arm == Repair then None else served))
    && (t !in {Packages, Chunks} && !IsBranchKeyed(t) ==> SameValues(before.rows, after))
  }

  lemma PackagesAfterArm(b: Bundle, swept: Bundle, arm: Arm, served: Option<string>)
    requires ToFinish(b, swept, arm, Packages)
    ensures EndsAs(b, ArmFinished(swept, arm, served), arm, served, Packages)
  {
    CompleteTable(swept, Packages);
    CompleteTable(swept, Chunks);
    FinishedTable(swept, arm, served, Packages);
    OthersUnkeyed(Packages);
    HashesUpdated(swept, arm);
    OldColumns(b, Packages);
    FilledTable(b, swept, Packages);
    HashesSince(b.tables[Named(Packages)], swept.tables[Named(Packages)], ArmUpdates(swept, arm).tables[Named(Packages)].rows,
                arm in {BranchTables, Embeddings}, arm == Structure);
  }

  lemma ChunksAfterArm(b: Bundle, swept: Bundle, arm: Arm, served: Option<string>)
    requires ToFinish(b, swept, arm, Chunks)
    ensures EndsAs(b, ArmFinished(swept, arm, served), arm, served, Chunks)
  {
    CompleteTable(swept, Packages);
    CompleteTable(swept, Chunks);
    FinishedTable(swept, arm, served, Chunks);
    OthersUnkeyed(Chunks);
    CompleteTable(swept, Chunks);
    FlagsUpdated(swept, arm);
    OldColumns(b, Chunks);
    FilledTable(b, swept, Chunks);
    FlagsSince(b.tables[Named(Chunks)], swept.tables[Named(Chunks)], ArmUpdates(swept, arm).tables[Named(Chunks)].rows, arm in {Embeddings, Structure});
  }

  lemma KeyedAfterArm(b: Bundle, swept: Bundle, arm: Arm, served: Option<string>, t: TableName)
    requires ToFinish(b, swept, arm, t)
    requires IsBranchKeyed(t)
    ensures EndsAs(b, ArmFinished(swept, arm, served), arm, served, t)
  {
    BranchKeyedColumns(t);
    CompleteTable(swept, Packages);
    CompleteTable(swept, Chunks);
    FinishedTable(swept, arm, served, t);
    CompleteTable(swept, t);
    UpdatesAt(swept, arm, t);
    OldColumns(b, t);
    FilledTable(b, swept, t);
    RowsStamped(swept.tables[Named(t)], t, served);
    BranchesSince(b.tables[Named(t)], swept.tables[Named(t)], ArmFinished(swept, arm, served).value.tables[Named(t)].rows, t, served);
  }

  lemma OtherAfterArm(b: Bundle, swept: Bundle, arm: Arm, served: Option<string>, t: TableName)
    requires ToFinish(b, swept, arm, t)
    requires !IsBranchKeyed(t) && t !in {Packages, Chunks}
    ensures EndsAs(b, ArmFinished(swept, arm, served), arm, served, t)
  {
    OthersUnkeyed(t);
    CompleteTable(swept, Packages);
    CompleteTable(swept, Chunks);
    FinishedTable(swept, arm, served, t);
    CompleteTable(swept, t);
    UpdatesAt(swept, arm, t);
    FilledTable(b, swept, t);
  }

  lemma TableAfterArm(b: Bundle, swept: Bundle, arm: Arm, served: Option<string>, t: TableName)
    requires ToFinish(b, swept, arm, t)
    ensures EndsAs(b, ArmFinished(swept, arm, served), arm, served, t)
  {
    if t == Packages {
      PackagesAfterArm(b, swept, arm, served);
    } else if t == Chunks {
      ChunksAfterArm(b, swept, arm, served);
    } else if IsBranchKeyed(t) {
      KeyedAfterArm(b, swept, arm, served, t);
    } else {
      OtherAfterArm(b, swept, arm, served, t);
    }
  }

  /** A repair rewrites nothing. */
  lemma TableAfterRepair(b: Bundle, swept: Bundle, t: TableName)
    requires Steps(V18(), b, swept) && Shaped(V18(), b) && IsComplete(swept) && Has(b, t)
    ensures EndsAs(b, Ok(swept), Repair, None, t)
  {
    OldColumns(b, t);
    CompleteTable(swept, t);
    FilledTable(b, swept, t);
    var before, after := b.tables[Named(t)], swept.tables[Named(t)];
    OnlyFilled(before, after, t);
  }

  lemma OnlyFilled(before: TableState, after: TableState, t: TableName)
    requires FilledIn(before, after) && LeastColumns(t) <= before.columns && after.columns == FreshColumns(t)
    requires forall id :: id in before.rows ==> before.rows[id].Keys <= before.columns
    ensures TableAfter(before, after.rows, t, Repair, None)
  {
    if t == Packages {
      HashesSince(before, after, after.rows, false, false);
    } else if t == Chunks {
      FlagsSince(before, after, after.rows, false);
    } else if IsBranchKeyed(t) {
      BranchKeyedColumns(t);
      BranchesSince(before, after, after.rows, t, None);
    }
  }

  lemma TableAfterSweeps(b: Bundle, swept: Result<Bundle, SqlError>, arm: Arm, served: Option<string>, t: TableName)
    requires swept.Ok? && Steps(V18(), b, swept.value) && Shaped(V18(), b) && IsComplete(swept.value) && arm != Rebuild && Has(b, t)
    requires arm != Repair ==> Unbranched(V18(), b)
    ensures var out := FinishedAfter(swept, arm, served);
            EndsAs(b, out, arm, if arm == Repair then None else served, t)
  {
    if arm == Repair {
      RepairFinishes(swept.value, served);
      TableAfterRepair(b, swept.value, t);
    } else {
      TableAfterArm(b, swept.value, arm, served, t);
    }
  }

  /** What one table holds after an upgrade from version `current`: below 16 the project's
      package hash is cleared and below 9 every package's, so the next pass extracts them
      again; below 12 every chunk is flagged embedded and from 12 on none is; below 18 the
      project's rows of the five branch-keyed tables take the served branch's name. */
  ghost predicate UpgradedTable(before: TableState, after: map<int, Row>, t: TableName, current: int, served: Option<string>) {
    && (t == Packages ==> HashesAfter(before.rows, after, 9 <= current <= 15, current < 9))
    && (t == Chunks ==> FlagsAfter(before, after, current < 12))
    && (t in {DocumentTrees, ModuleMembers, NodeReferences, NodeScores, DecisionRecords} ==>
          BranchesAfter(before, after, t, if current < 18 then served else None))
    && (t !in {Packages, Chunks, DocumentTrees, ModuleMembers, NodeReferences, NodeScores, DecisionRecords} ==> SameValues(before.rows, after))
  }

  lemma ArmsByVersion(current: int)
    requires ArmOf(current) != Rebuild
    ensures ArmOf(current) in {BranchTables, Embeddings} <==> 9 <= current <= 15
    ensures ArmOf(current) == Structure <==> current < 9
    ensures ArmOf(current) in {Embeddings, Structure} <==> current < 12
    ensures ArmOf(current) == Repair <==> current >= 18
  {
  }

  lemma ByVersion(before: TableState, after: map<int, Row>, t: TableName, current: int, served: Option<string>)
    requires ArmOf(current) != Rebuild && TableAfter(before, after, t, ArmOf(current), if ArmOf(current) == Repair then None else served)
    ensures UpgradedTable(before, after, t, current, served)
  {
    ArmsByVersion(current);
  }

  lemma TableMigrated(b: Bundle, current: int, served: Option<string>, t: TableName)
    requires Trusted(b, current) && Has(b, t)
    ensures EndsAs(b, Migrated(b, current, served), ArmOf(current), if ArmOf(current) == Repair then None else served, t)
  {
    TrustedStart(b, current);
    SweptConverges(b, SinceOf(ArmOf(current)));
    TableAfterSweeps(b, Swept(V18(), b, SinceOf(ArmOf(current)), |SWEEP_VERSIONS|), ArmOf(current), served, t);
  }

  /** An upgrade writes into every table of a trusted bundle what its version number says,
      and nothing else. */
  lemma UpgradeWrites(b: Bundle, current: int, served: Option<string>, t: TableName)
    requires Trusted(b, current) && Has(b, t)
    ensures var out := Migrated(b, current, served);
            out.Ok? && Has(out.value, t) && UpgradedTable(b.tables[Named(t)], out.value.tables[Named(t)].rows, t, current, served)
  {
    TableMigrated(b, current, served, t);
    ByVersion(b.tables[Named(t)], Migrated(b, current, served).value.tables[Named(t)].rows, t, current, served);
  }

  // ----- new columns

  /** A column new to the table reads back, in every old row, the empty module, no upstream
      gone, or nothing; flags and branches are told above. */
  ghost predicate NewColumnsRead(before: TableState, after: TableState) {
    forall id, c :: id in before.rows && id in after.rows && c in after.columns && c !in before.columns && c != EMBEDDED && c != BRANCH ==>
      c in after.rows[id] && after.rows[id][c] == if c == MODULE then Text("") else if c == UPSTREAM_GONE then Int(0) else Null
  }

  lemma NewColumnsSince(before: TableState, swept: TableState, after: TableState, t: TableName, arm: Arm)
    requires FilledIn(before, swept) && UpdatedTable(swept, after, Rewritten(arm, t)) && LeastColumns(t) <= before.columns
    ensures NewColumnsRead(before, after)
  {
    forall id, c | id in before.rows && id in after.rows && c in after.columns && c !in before.columns && c != EMBEDDED && c != BRANCH
      ensures c in after.rows[id] && after.rows[id][c] == if c == MODULE then Text("") else if c == UPSTREAM_GONE then Int(0) else Null
    {
      if c in Rewritten(arm, t) { RewrittenColumns(arm, t, c); }
      assert Holds(swept.rows[id], c, DefaultOf(c));
    }
  }

  lemma RewrittenColumns(arm: Arm, t: TableName, c: Column)
    requires c in Rewritten(arm, t)
    ensures c in {EMBEDDED, BRANCH} || c in LeastColumns(t)
  {
  }

  lemma NewColumnsSwept(b: Bundle, swept: Result<Bundle, SqlError>, arm: Arm, served: Option<string>, t: TableName)
    requires swept.Ok? && Steps(V18(), b, swept.value) && Shaped(V18(), b) && IsComplete(swept.value) && arm != Rebuild && Has(b, t)
    requires arm != Repair ==> Unbranched(V18(), b)
    ensures var out := FinishedAfter(swept, arm, served);
            out.Ok? && Has(out.value, t) && NewColumnsRead(b.tables[Named(t)], out.value.tables[Named(t)])
  {
    if arm == Repair {
      RepairFinishes(swept.value, served);
    } else {
      ArmFinishes(swept.value, arm, served);
    }
    OldColumns(b, t);
    FilledTable(b, swept.value, t);
    NewColumnsSince(b.tables[Named(t)], swept.value.tables[Named(t)], ArmFinished(swept.value, arm, served).value.tables[Named(t)], t, arm);
  }

  /** What a column an upgrade adds reads back in the rows it finds. */
  lemma NewColumnsAfter(b: Bundle, current: int, served: Option<string>, t: TableName)
    requires Trusted(b, current) && Has(b, t)
    ensures var out := Migrated(b, current, served);
            out.Ok? && Has(out.value, t) && NewColumnsRead(b.tables[Named(t)], out.value.tables[Named(t)])
  {
    TrustedStart(b, current);
    SweptConverges(b, SinceOf(ArmOf(current)));
    NewColumnsSwept(b, Swept(V18(), b, SinceOf(ArmOf(current)), |SWEEP_VERSIONS|), ArmOf(current), served, t);
  }

  /** Every table of a bundle after its upgrade. */
  ghost predicate Upgraded(b: Bundle, out: Bundle, current: int, served: Option<string>) {
    forall t: TableName :: Has(b, t) ==> Has(out, t) && UpgradedTable(b.tables[Named(t)], out.tables[Named(t)].rows, t, current, served)
  }

  ghost predicate UpgradesTo(b: Bundle, out: Result<Bundle, SqlError>, current: int, served: Option<string>) {
    out.Ok? && Upgraded(b, out.value, current, served)
  }

  lemma TrustedUpgrades(b: Bundle, current: int, served: Option<string>)
    ensures Trusted(b, current) ==> UpgradesTo(b, Migrated(b, current, served), current, served)
  {
    if Trusted(b, current) {
      LadderConverges(b, current, served);
      EveryTableUpgraded(b, Migrated(b, current, served).value, current, served);
    }
  }

  lemma EveryTableUpgraded(b: Bundle, out: Bundle, current: int, served: Option<string>)
    requires Trusted(b, current) && Migrated(b, current, served) == Ok(out)
    ensures Upgraded(b, out, current, served)
  {
    forall t: TableName | Has(b, t) ensures Has(out, t) && UpgradedTable(b.tables[Named(t)], out.tables[Named(t)].rows, t, current, served) {
      UpgradeWrites(b, current, served, t);
    }
  }

  /** The versions that are upgraded in place at all; any other bundle is started afresh. */
  lemma InPlaceVersions(b: Bundle, current: int, served: Option<string>)
    ensures current !in {2, 3, 4, 6, 7, 8, 9, 10, 11, 12, 13, 14, 15, 16, 17, 18} ==> Migrated(b, current, served) == Ok(Fresh())
    ensures Trusted(b, current) ==> current in {2, 3, 4, 6, 7, 8, 9, 10, 11, 12, 13, 14, 15, 16, 17, 18}
  {
  }
}
