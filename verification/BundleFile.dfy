/** The bundle's file as the ladder changes it, statement by statement: each method's
    contract ties the new tables, indexes and stamp to the functions of BundleSchema, which
    the ladder's theorems are about (python/pydocs_mcp/db.py, db_branch_key_migration.py). */
module BundleFile {
  import opened Common
  import opened BundleSchema
  import opened SchemaLadder
  import opened LadderTheorems
  import opened ArmLaws
  import opened SqliteErrors

  /** The row DEFAULT_BRANCH_NAME_SQL reads. */
  method DefaultBranchName(rows: map<int, Row>) returns (served: Option<string>)
    ensures ServesBranch(rows, served)
  {
    var stamps := map id | id in rows && IsDefaultRow(rows[id]) :: StampTime(rows[id]);
    var newest := Newest(stamps);
    served := if newest.None? then None else Some(NameOf(rows[newest.value]));
    forall id | id in rows && IsDefaultRow(rows[id]) ensures id in stamps && stamps[id] == StampTime(rows[id]) {
    }
    assert newest.Some? ==> IsNewest(rows, newest.value);
  }

  /** What a statement came to: the new bundle, or the error it raised. */
  ghost predicate CameTo(expected: Result<Bundle, SqlError>, failed: Option<SqlError>, b: Bundle) {
    match failed
    case None => expected == Ok(b)
    case Some(error) => expected == Err(error)
  }

  lemma IndexesPrefix(d: Design, b: Bundle, wanted: seq<Index>, i: nat)
    requires i < |wanted|
    ensures IndexesCreated(d, b, wanted[..i + 1])
            == var earlier := IndexesCreated(d, b, wanted[..i]); if earlier.Err? then earlier else IndexCreated(d, earlier.value, wanted[i])
  {
    assert wanted[..i + 1][..i] == wanted[..i];
  }

  /** A failed statement fails the whole list. */
  lemma {:induction false} IndexesFail(d: Design, b: Bundle, wanted: seq<Index>, i: nat)
    requires i <= |wanted| && IndexesCreated(d, b, wanted[..i]).Err?
    ensures IndexesCreated(d, b, wanted) == IndexesCreated(d, b, wanted[..i])
    decreases |wanted| - i
  {
    if i == |wanted| {
      assert wanted[..i] == wanted;
    } else {
      IndexesPrefix(d, b, wanted, i);
      IndexesFail(d, b, wanted, i + 1);
    }
  }

  lemma {:induction false} SweepFails(d: Design, b: Bundle, statements: seq<Statement>, i: nat)
    requires i <= |statements| && ExecutedAll(d, b, statements[..i]).Err?
    ensures ExecutedAll(d, b, statements) == ExecutedAll(d, b, statements[..i])
    decreases |statements| - i
  {
    if i == |statements| {
      assert statements[..i] == statements;
    } else {
      ExecutedSnoc(d, b, statements, i);
      SweepFails(d, b, statements, i + 1);
    }
  }

  lemma {:induction false} SweepsFail(d: Design, b: Bundle, since: nat, n: nat)
    requires n <= |d.versions| && Swept(d, b, since, n).Err?
    ensures Swept(d, b, since, |d.versions|) == Swept(d, b, since, n)
    decreases |d.versions| - n
  {
    if n < |d.versions| {
      SweepsFail(d, b, since, n + 1);
    }
  }

  lemma StampedPrefix(b: Bundle, stamped: seq<TableName>, i: nat, name: string)
    requires i < |stamped|
    ensures StampedTables(b, stamped[..i + 1], name)
            == var earlier := StampedTables(b, stamped[..i], name); if earlier.Err? then earlier else StampedTable(earlier.value, stamped[i], name)
  {
    assert stamped[..i + 1][..i] == stamped[..i];
  }

  lemma {:induction false} StampsFail(b: Bundle, stamped: seq<TableName>, i: nat, name: string)
    requires i <= |stamped| && StampedTables(b, stamped[..i], name).Err?
    ensures StampedTables(b, stamped, name) == StampedTables(b, stamped[..i], name)
    decreases |stamped| - i
  {
    if i == |stamped| {
      assert stamped[..i] == stamped;
    } else {
      StampedPrefix(b, stamped, i, name);
      StampsFail(b, stamped, i + 1, name);
    }
  }

  lemma TrustedConverges(b: Bundle, served: Option<string>)
    ensures Trusted(b, b.version) ==> Migrated(b, b.version, served).Ok? && Converged(b, Migrated(b, b.version, served).value, ArmOf(b.version))
  {
    if Trusted(b, b.version) {
      LadderConverges(b, b.version, served);
    }
  }

  class BundleFile {
    var tables: map<Table, TableState>
    var indexes: map<Index, Table>
    var version: int

    function State(): Bundle reads this { Bundle(tables, indexes, version) }

    constructor (b: Bundle)
      ensures State() == b
    {
      tables, indexes, version := b.tables, b.indexes, b.version;
    }

    // ----- statements

    method AddColumn(t: TableName, c: Column) returns (failed: Option<SqlError>)
      modifies this
      ensures CameTo(ColumnAdded(old(State()), t, c), failed, State())
    {
      if Named(t) !in tables {
        return Some(NoSuchTable);
      }
      var state := tables[Named(t)];
      if c !in state.columns {
        tables := tables[Named(t) := TableState(state.columns + {c}, state.key, WithColumn(state.rows, c))];
      }
      failed := None;
    }

    method CreateTable(d: Design, t: TableName)
      modifies this
      ensures State() == TableCreated(d, old(State()), t)
    {
      if Named(t) !in tables {
        tables := tables[Named(t) := TableState(d.least(t), d.leastKey(t), map[])];
      }
    }

    method CreateIndex(d: Design, i: Index) returns (failed: Option<SqlError>)
      modifies this
      ensures CameTo(IndexCreated(d, old(State()), i), failed, State())
    {
      var (t, columns) := d.indexOn(i);
      if i in indexes {
        return None;
      }
      if Named(t) !in tables {
        return Some(NoSuchTable);
      }
      if !(columns <= tables[Named(t)].columns) {
        return Some(NoSuchColumn);
      }
      indexes := indexes[i := Named(t)];
      failed := None;
    }

    method CreateIndexes(d: Design, wanted: seq<Index>) returns (failed: Option<SqlError>)
      modifies this
      ensures CameTo(IndexesCreated(d, old(State()), wanted), failed, State())
    {
      failed := None;
      var i := 0;
      while i < |wanted|
        invariant 0 <= i <= |wanted|
        invariant failed.None? && IndexesCreated(d, old(State()), wanted[..i]) == Ok(State())
      {
        IndexesPrefix(d, old(State()), wanted, i);
        failed := CreateIndex(d, wanted[i]);
        if failed.Some? {
          IndexesFail(d, old(State()), wanted, i + 1);
          return;
        }
        i := i + 1;
      }
      assert wanted[..i] == wanted;
    }

    // ----- the key rebuild

    method RebuildKey(d: Design, t: TableName) returns (failed: Option<SqlError>)
      modifies this
      ensures CameTo(KeyRebuilt(d, old(State()), t), failed, State())
    {
      if Named(t) in tables && BRANCH in tables[Named(t)].columns {
        failed := CreateIndexes(d, d.rebuildIndexes(t));
      } else if Named(t) !in tables {
        tables := tables[Named(t) := TableState(d.full(t), d.fullKey(t), map[])];
        failed := CreateIndexes(d, d.rebuildIndexes(t));
      } else {
        failed := CopyIntoBranchKeyedTable(d, t);
      }
    }

    method RenameToSide(t: TableName)
      requires Named(t) in tables
      modifies this
      ensures State() == Renamed(old(State()), t)
    {
      var original := tables[Named(t)];
      tables := (tables - {Named(t)})[Side(t) := original];
      indexes := map i | i in indexes :: if indexes[i] == Named(t) then Side(t) else indexes[i];
    }

    /** The rows of the side table, rowids and all, into the re-created one. */
    method CopyFromSide(d: Design, t: TableName) returns (failed: Option<SqlError>)
      requires Side(t) in tables
      modifies this
      ensures failed == if !(CopiedColumns(d, t) <= old(tables)[Side(t)].columns) then Some(NoSuchColumn)
                        else if !UniqueUnder(CopiedRows(old(tables)[Side(t)].rows, CopiedColumns(d, t)), d.fullKey(t)) then Some(UniqueViolation)
                        else None
      ensures failed.None? ==> State() == WithTable(old(State()), t, KeyedCopy(d, t, old(tables)[Side(t)]))
    {
      var original := tables[Side(t)];
      if !(CopiedColumns(d, t) <= original.columns) {
        return Some(NoSuchColumn);
      }
      var rows := CopiedRows(original.rows, CopiedColumns(d, t));
      if !UniqueUnder(rows, d.fullKey(t)) {
        return Some(UniqueViolation);
      }
      tables := tables[Named(t) := TableState(d.full(t), d.fullKey(t), rows)];
      failed := None;
    }

    method DropTable(t: Table)
      modifies this
      ensures State() == Dropped(old(State()), t)
    {
      tables := tables - {t};
      indexes := map i | i in indexes && indexes[i] != t :: indexes[i];
    }

    /** Rename, create, copy with the rowids, drop, and only then the indexes. */
    method CopyIntoBranchKeyedTable(d: Design, t: TableName) returns (failed: Option<SqlError>)
      requires Named(t) in tables
      modifies this
      ensures CameTo(KeyCopied(d, old(State()), t), failed, State())
    {
      if Side(t) in tables {
        return Some(TableExists);
      }
      RenameToSide(t);
      failed := CopyFromSide(d, t);
      if failed.None? {
        DropTable(Side(t));
        failed := CreateIndexes(d, d.rebuildIndexes(t));
      }
    }

    // ----- sweeps

    method Execute(d: Design, s: Statement) returns (failed: Option<SqlError>)
      modifies this
      ensures CameTo(Executed(d, old(State()), s), failed, State())
    {
      failed := None;
      match s
      case CreateTable(t) => CreateTable(d, t);
      case CreateIndex(i) => failed := CreateIndex(d, i);
      case AddColumn(t, c) => failed := AddColumn(t, c);
      case RebuildKey(t) => failed := RebuildKey(d, t);
    }

    method RunSweep(d: Design, statements: seq<Statement>) returns (failed: Option<SqlError>)
      modifies this
      ensures CameTo(ExecutedAll(d, old(State()), statements), failed, State())
    {
      failed := None;
      var i := 0;
      while i < |statements|
        invariant 0 <= i <= |statements|
        invariant failed.None? && ExecutedAll(d, old(State()), statements[..i]) == Ok(State())
      {
        ExecutedSnoc(d, old(State()), statements, i);
        failed := Execute(d, statements[i]);
        if failed.Some? {
          SweepFails(d, old(State()), statements, i + 1);
          return;
        }
        i := i + 1;
      }
      assert statements[..i] == statements;
    }

    method RunSweeps(d: Design, since: nat) returns (failed: Option<SqlError>)
      modifies this
      ensures CameTo(Swept(d, old(State()), since, |d.versions|), failed, State())
    {
      failed := None;
      var n := 0;
      while n < |d.versions|
        invariant 0 <= n <= |d.versions|
        invariant failed.None? && Swept(d, old(State()), since, n) == Ok(State())
      {
        if d.versions[n] > since {
          failed := RunSweep(d, d.sweep(d.versions[n]));
          if failed.Some? {
            SweepsFail(d, old(State()), since, n + 1);
            return;
          }
        }
        n := n + 1;
      }
    }

    // ----- the arms

    method ClearContentHash(projectOnly: bool)
      requires Named(Packages) in tables
      modifies this
      ensures State() == HashesCleared(old(State()), projectOnly)
    {
      var state := tables[Named(Packages)];
      var rows := state.rows;
      tables := tables[Named(Packages) := state.(rows := map id | id in rows ::
        if projectOnly && !Holds(rows[id], NAME, Text(PROJECT)) then rows[id] else rows[id][CONTENT_HASH := Null])];
    }

    method BackfillEmbedded()
      requires Named(Chunks) in tables
      modifies this
      ensures State() == EmbeddedBackfilled(old(State()))
    {
      var state := tables[Named(Chunks)];
      tables := tables[Named(Chunks) := state.(rows := map id | id in state.rows :: state.rows[id][EMBEDDED := Int(1)])];
    }

    method StampTable(t: TableName, name: string) returns (failed: Option<SqlError>)
      modifies this
      ensures CameTo(StampedTable(old(State()), t, name), failed, State())
      ensures forall u :: u in old(tables) && u != Named(t) ==> u in tables && tables[u] == old(tables)[u]
    {
      if Named(t) !in tables {
        return Some(NoSuchTable);
      }
      var state := tables[Named(t)];
      if BRANCH !in state.columns || PackageColumn(t) !in state.columns {
        return Some(NoSuchColumn);
      }
      var rows := StampedRows(state.rows, t, name);
      if !UniqueUnder(rows, state.key) {
        return Some(UniqueViolation);
      }
      tables := tables[Named(t) := state.(rows := rows)];
      failed := None;
    }

    /** The project's rows take the served branch's name, in all five branch-keyed tables. */
    method StampProjectRows(served: Option<string>) returns (failed: Option<SqlError>)
      modifies this
      ensures CameTo(ProjectStamped(old(State()), served), failed, State())
      ensures Named(Branches) in old(tables) ==> Named(Branches) in tables && tables[Named(Branches)] == old(tables)[Named(Branches)]
    {
      failed := None;
      if served.None? {
        return;
      }
      var i := 0;
      while i < |BRANCH_KEYED|
        invariant 0 <= i <= |BRANCH_KEYED|
        invariant Named(Branches) in old(tables) ==> Named(Branches) in tables && tables[Named(Branches)] == old(tables)[Named(Branches)]
        invariant failed.None? && StampedTables(old(State()), BRANCH_KEYED[..i], served.value) == Ok(State())
      {
        StampedPrefix(old(State()), BRANCH_KEYED, i, served.value);
        failed := StampTable(BRANCH_KEYED[i], served.value);
        if failed.Some? {
          StampsFail(old(State()), BRANCH_KEYED, i + 1, served.value);
          return;
        }
        i := i + 1;
      }
      assert BRANCH_KEYED[..i] == BRANCH_KEYED;
    }

    /** The arm's row updates. */
    method UpdateRows(arm: Arm)
      requires Named(Packages) in tables && Named(Chunks) in tables
      modifies this
      ensures State() == ArmUpdates(old(State()), arm)
    {
      match arm
      case BranchTables =>
        ClearContentHash(true);
      case Embeddings =>
        BackfillEmbedded();
        ClearContentHash(true);
      case Structure =>
        BackfillEmbedded();
        ClearContentHash(false);
      case _ =>
    }

    /** The default-branch stamp, then the version stamp. */
    method FinishUpgrade() returns (failed: Option<SqlError>, served: Option<string>)
      requires Named(Branches) in tables
      modifies this
      ensures Named(Branches) in tables && ServesBranch(tables[Named(Branches)].rows, served)
      ensures var stamped := ProjectStamped(old(State()), served);
              CameTo(if stamped.Err? then stamped else Ok(stamped.value.(version := SCHEMA_VERSION)), failed, State())
    {
      served := DefaultBranchName(tables[Named(Branches)].rows);
      failed := StampProjectRows(served);
      if failed.None? {
        version := SCHEMA_VERSION;
      }
    }

    method RebuildFromScratch()
      modifies this
      ensures State() == Fresh()
    {
      var empty := Fresh();
      tables, indexes, version := empty.tables, empty.indexes, empty.version;
    }

    /** The arm of the stamp. From a trusted bundle it fails nowhere and writes into every
        table what the version number says, under the name of the branch it finds served. */
    method MigrateInPlace(current: int) returns (failed: Option<SqlError>, served: Option<string>)
      modifies this
      ensures CameTo(Migrated(old(State()), current, served), failed, State())
      ensures failed.None? && ArmOf(current) !in {Repair, Rebuild} ==>
                Named(Branches) in tables && ServesBranch(tables[Named(Branches)].rows, served)
      ensures Trusted(old(State()), current) ==> failed.None? && Upgraded(old(State()), State(), current, served)
    {
      ghost var before := State();
      served := None;
      failed := None;
      var arm := ArmOf(current);
      if arm == Rebuild {
        RebuildFromScratch();
      } else {
        failed := RunSweeps(V18(), SinceOf(arm));
        if failed.None? {
          if Named(Packages) !in tables || Named(Chunks) !in tables || Named(Branches) !in tables {
            failed := Some(NoSuchTable);
          } else if arm != Repair {
            UpdateRows(arm);
            failed, served := FinishUpgrade();
          }
        }
      }
      TrustedUpgrades(before, current, served);
    }

    /** A failed open rolls back; what the environment did and a broken key are raised, any
        other error rebuilds. */
    method Recover(saved: Bundle, fault: Option<int>, failed: Option<SqlError>) returns (ready: bool)
      requires fault.Some? || failed.Some?
      modifies this
      ensures ready <==> if fault.Some? then !IsEnvironmental(fault) else IsOperational(failed.value)
      ensures State() == if ready then Fresh() else saved
    {
      tables, indexes, version := saved.tables, saved.indexes, saved.version;
      var raises := if fault.Some? then IsEnvironmental(fault) else !IsOperational(failed.value) || IsEnvironmental(Some(SQLITE_ERROR));
      ready := !raises;
      if ready {
        RebuildFromScratch();
      }
    }

    /** One opener by itself: the arm of the stamp. A fault of the environment, told by the
        result code it carries, and a broken key roll back and are raised; any other error
        rolls back and rebuilds. `fault` is the code the environment fails the arm with. */
    method BringSchemaCurrent(fault: Option<int>) returns (ready: bool, served: Option<string>)
      modifies this
      ensures var migrated := Migrated(old(State()), old(version), served);
              var raised := if fault.Some? then IsEnvironmental(fault) else migrated.Err? && !IsOperational(migrated.error);
              && ready == !raised
              && State() == if raised then old(State()) else if fault.None? && migrated.Ok? then migrated.value else Fresh()
      ensures Trusted(old(State()), old(version)) && fault.None? ==> ready && Converged(old(State()), State(), ArmOf(old(version)))
    {
      var saved := State();
      var failed;
      failed, served := MigrateInPlace(version);
      ready := true;
      if fault.Some? || failed.Some? {
        ready := Recover(saved, fault, failed);
      }
      TrustedConverges(saved, served);
    }
  }
}
