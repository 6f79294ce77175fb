/** What the schema ladder reaches from every trusted start: the fresh DDL's tables,
    columns, keys and indexes, with every row and value kept but the named updates. */
module SchemaLadder {
  import opened Common
  import opened BundleSchema

  // ----- a coherent design

  /** A sweep creates a table with its old columns and key; a tree-tier table's fresh shape
      is its old one with the branch in front of the key. */
  ghost predicate Coherent(d: Design) {
    && (forall t: TableName :: d.least(t) <= d.full(t) && (forall c :: c in d.leastKey(t) ==> c in d.least(t)))
    && (forall t: TableName :: t !in d.tier ==> d.leastKey(t) == d.fullKey(t))
    && (forall t: TableName :: t in d.tier ==>
          BRANCH !in d.least(t) && d.full(t) == d.least(t) + {BRANCH} && d.fullKey(t) == [BRANCH] + d.leastKey(t) && d.leastKey(t) != [])
    && (forall t: TableName, i :: t in d.tier && i in d.rebuildIndexes(t) ==> d.indexOn(i).0 == t && d.indexOn(i).1 <= d.least(t))
    && (forall i: Index :: d.indexOn(i).0 in d.tier ==> i in d.rebuildIndexes(d.indexOn(i).0))
  }

  // ----- the shape every step keeps

  /** A table between the shape a sweep creates and the fresh one; a tree-tier table is in
      one of its two shapes; no row breaks the key. */
  ghost predicate TableShaped(d: Design, t: TableName, state: TableState) {
    && d.least(t) <= state.columns <= d.full(t)
    && (forall id :: id in state.rows ==> state.rows[id].Keys <= state.columns)
    && UniqueUnder(state.rows, state.key)
    && state.key == (if t in d.tier && BRANCH in state.columns then d.fullKey(t) else d.leastKey(t))
  }

  ghost predicate IndexShaped(d: Design, b: Bundle, i: Index) {
    var (t, columns) := d.indexOn(i);
    i in b.indexes && b.indexes[i] == Named(t) && Named(t) in b.tables && columns <= b.tables[Named(t)].columns
  }

  ghost predicate Shaped(d: Design, b: Bundle) {
    && (forall t :: Side(t) !in b.tables)
    && (forall t :: Named(t) in b.tables ==> TableShaped(d, t, b.tables[Named(t)]))
    && (forall i :: i in b.indexes ==> IndexShaped(d, b, i))
  }

  /** No tree-tier row names a branch yet. */
  ghost predicate Unbranched(d: Design, b: Bundle) {
    forall t :: t in d.tier && Named(t) in b.tables && BRANCH in b.tables[Named(t)].columns ==>
      forall id :: id in b.tables[Named(t)].rows ==> Holds(b.tables[Named(t)].rows[id], BRANCH, Text(""))
  }

  ghost predicate Grows(b: Bundle, out: Bundle) {
    && (forall t :: Named(t) in b.tables ==> Named(t) in out.tables && b.tables[Named(t)].columns <= out.tables[Named(t)].columns)
    && (forall i :: i in b.indexes ==> i in out.indexes)
  }

  /** Same rows under the same rowids, every old value in place. */
  ghost predicate SameValues(before: map<int, Row>, after: map<int, Row>) {
    && before.Keys == after.Keys
    && forall id, c :: id in before && c in before[id] ==> c in after[id] && after[id][c] == before[id][c]
  }

  /** The old columns hold what they held and no more; every column new to the table reads
      back with its default in the old rows. */
  ghost predicate FilledIn(before: TableState, after: TableState) {
    && before.columns <= after.columns && SameValues(before.rows, after.rows)
    && (forall id, c :: id in before.rows && c in before.columns && c in after.rows[id] ==> c in before.rows[id])
    && forall id, c :: id in before.rows && c in after.columns && c !in before.columns ==> Holds(after.rows[id], c, DefaultOf(c))
  }

  ghost predicate RowsKept(b: Bundle, out: Bundle) {
    forall t :: Named(t) in b.tables ==> Named(t) in out.tables && FilledIn(b.tables[Named(t)], out.tables[Named(t)])
  }

  lemma FillsCompose(before: TableState, mid: TableState, after: TableState)
    requires FilledIn(before, mid) && FilledIn(mid, after)
    ensures FilledIn(before, after)
  {
  }

  ghost predicate Steps(d: Design, b: Bundle, out: Bundle) {
    && Shaped(d, out) && Grows(b, out) && RowsKept(b, out) && (Unbranched(d, b) ==> Unbranched(d, out)) && out.version == b.version
  }

  lemma StepsCompose(d: Design, b: Bundle, mid: Bundle, out: Bundle)
    requires Steps(d, b, mid) && Steps(d, mid, out)
    ensures Steps(d, b, out)
  {
    forall t | Named(t) in b.tables ensures FilledIn(b.tables[Named(t)], out.tables[Named(t)]) {
      FillsCompose(b.tables[Named(t)], mid.tables[Named(t)], out.tables[Named(t)]);
    }
  }

  lemma NoStep(d: Design, b: Bundle)
    requires Shaped(d, b)
    ensures Steps(d, b, b)
  {
  }

  // ----- one statement

  /** What a statement leaves in place. */
  ghost predicate Given(d: Design, b: Bundle, s: Statement) {
    match s
    case CreateTable(t) => Named(t) in b.tables
    case CreateIndex(i) => i in b.indexes
    case AddColumn(t, c) => Named(t) in b.tables && c in b.tables[Named(t)].columns
    case RebuildKey(t) => Named(t) in b.tables && BRANCH in b.tables[Named(t)].columns && forall i :: i in d.rebuildIndexes(t) ==> i in b.indexes
  }

  lemma GivenStays(d: Design, b: Bundle, out: Bundle, s: Statement)
    requires Given(d, b, s) && Grows(b, out)
    ensures Given(d, out, s)
  {
  }

  /** The statement is one a sweep may hold. */
  ghost predicate IsSweepStatement(d: Design, s: Statement) {
    match s
    case CreateTable(_) => true
    case CreateIndex(_) => true
    case AddColumn(t, c) => c in d.full(t) && t !in d.tier
    case RebuildKey(t) => t in d.tier
  }

  ghost predicate Able(d: Design, b: Bundle, s: Statement) {
    match s
    case CreateTable(_) => true
    case CreateIndex(i) => Named(d.indexOn(i).0) in b.tables && d.indexOn(i).1 <= b.tables[Named(d.indexOn(i).0)].columns
    case AddColumn(t, _) => Named(t) in b.tables
    case RebuildKey(_) => true
  }

  /** A column outside the key does not change what the key tells apart. */
  lemma ColumnKeepsUnique(rows: map<int, Row>, key: seq<Column>, c: Column)
    requires UniqueUnder(rows, key) && c !in key
    ensures UniqueUnder(WithColumn(rows, c), key)
  {
    forall id | id in rows ensures Projection(WithColumn(rows, c)[id], key) == Projection(rows[id], key) {
    }
  }

  lemma ReplacedShaped(d: Design, b: Bundle, t: TableName, state: TableState)
    requires Shaped(d, b) && TableShaped(d, t, state)
    requires Named(t) in b.tables ==> b.tables[Named(t)].columns <= state.columns
    ensures Shaped(d, WithTable(b, t, state))
  {
    var out := WithTable(b, t, state);
    forall i | i in out.indexes ensures IndexShaped(d, out, i) {
      assert IndexShaped(d, b, i);
    }
    forall u | Named(u) in out.tables ensures TableShaped(d, u, out.tables[Named(u)]) {
      assert u != t ==> TableShaped(d, u, b.tables[Named(u)]);
    }
  }

  lemma ReplacedKeeps(b: Bundle, t: TableName, state: TableState)
    requires Named(t) in b.tables ==> b.tables[Named(t)].columns <= state.columns && FilledIn(b.tables[Named(t)], state)
    ensures var out := WithTable(b, t, state);
            Grows(b, out) && RowsKept(b, out)
  {
    var out := WithTable(b, t, state);
    forall u | Named(u) in b.tables ensures FilledIn(b.tables[Named(u)], out.tables[Named(u)]) {
    }
  }

  /** Replacing one table's state by a shaped one with no fewer columns and the same values. */
  lemma TableReplaced(d: Design, b: Bundle, t: TableName, state: TableState)
    requires Shaped(d, b) && TableShaped(d, t, state)
    requires Named(t) in b.tables ==> b.tables[Named(t)].columns <= state.columns && FilledIn(b.tables[Named(t)], state)
    requires t in d.tier && BRANCH in state.columns ==> forall id :: id in state.rows ==> Holds(state.rows[id], BRANCH, Text(""))
    ensures Steps(d, b, WithTable(b, t, state))
  {
    ReplacedShaped(d, b, t, state);
    ReplacedKeeps(b, t, state);
  }

  lemma WidenedShaped(d: Design, t: TableName, state: TableState, c: Column)
    requires Coherent(d) && TableShaped(d, t, state) && c in d.full(t) && t !in d.tier && c !in state.columns
    ensures TableShaped(d, t, Widened(state, c))
    ensures FilledIn(state, Widened(state, c))
  {
    forall x | x in state.key ensures x in state.columns {
      assert x in d.least(t);
    }
    ColumnKeepsUnique(state.rows, state.key, c);
  }

  lemma WidenSteps(d: Design, b: Bundle, t: TableName, c: Column)
    requires Coherent(d) && Shaped(d, b) && Named(t) in b.tables && TableShaped(d, t, b.tables[Named(t)])
    requires c in d.full(t) && t !in d.tier && c !in b.tables[Named(t)].columns
    ensures Steps(d, b, WithTable(b, t, Widened(b.tables[Named(t)], c)))
  {
    WidenedShaped(d, t, b.tables[Named(t)], c);
    TableReplaced(d, b, t, Widened(b.tables[Named(t)], c));
  }

  lemma NewColumnSteps(d: Design, b: Bundle, t: TableName, c: Column)
    requires Coherent(d) && Shaped(d, b) && Named(t) in b.tables && TableShaped(d, t, b.tables[Named(t)])
    requires c in d.full(t) && t !in d.tier && c !in b.tables[Named(t)].columns
    ensures ColumnAdded(b, t, c).Ok? && Steps(d, b, ColumnAdded(b, t, c).value)
  {
    WidenSteps(d, b, t, c);
  }

  lemma OldColumnSteps(d: Design, b: Bundle, t: TableName, c: Column)
    requires Shaped(d, b) && Named(t) in b.tables && c in b.tables[Named(t)].columns
    ensures ColumnAdded(b, t, c).Ok? && Steps(d, b, ColumnAdded(b, t, c).value)
  {
    NoStep(d, b);
  }

  lemma ColumnIsAdded(d: Design, b: Bundle, t: TableName, c: Column)
    requires Named(t) in b.tables
    ensures ColumnAdded(b, t, c).Ok? && Given(d, ColumnAdded(b, t, c).value, AddColumn(t, c))
  {
  }

  lemma ShapedTable(d: Design, b: Bundle, t: TableName)
    requires Shaped(d, b) && Named(t) in b.tables
    ensures TableShaped(d, t, b.tables[Named(t)])
  {
  }

  lemma AddColumnSteps(d: Design, b: Bundle, t: TableName, c: Column)
    requires Coherent(d) && Shaped(d, b) && Named(t) in b.tables && c in d.full(t) && t !in d.tier
    ensures ColumnAdded(b, t, c).Ok? && Steps(d, b, ColumnAdded(b, t, c).value)
    ensures Given(d, ColumnAdded(b, t, c).value, AddColumn(t, c))
  {
    ColumnIsAdded(d, b, t, c);
    ShapedTable(d, b, t);
    if c in b.tables[Named(t)].columns {
      OldColumnSteps(d, b, t, c);
    } else {
      NewColumnSteps(d, b, t, c);
    }
  }

  lemma CreateTableSteps(d: Design, b: Bundle, t: TableName)
    requires Coherent(d) && Shaped(d, b)
    ensures var out := TableCreated(d, b, t);
            Steps(d, b, out) && Named(t) in out.tables
  {
    if Named(t) in b.tables {
      NoStep(d, b);
    } else {
      TableReplaced(d, b, t, TableState(d.least(t), d.leastKey(t), map[]));
    }
  }

  lemma IndexedShaped(d: Design, b: Bundle, i: Index)
    requires Shaped(d, b) && Able(d, b, CreateIndex(i)) && i !in b.indexes
    ensures Shaped(d, b.(indexes := b.indexes[i := Named(d.indexOn(i).0)]))
  {
    var out := b.(indexes := b.indexes[i := Named(d.indexOn(i).0)]);
    forall x | x in out.indexes ensures IndexShaped(d, out, x) {
      if x != i {
        assert IndexShaped(d, b, x);
      }
    }
  }

  lemma SameTablesSteps(d: Design, b: Bundle, out: Bundle)
    requires Shaped(d, out) && out.tables == b.tables && out.version == b.version && forall i :: i in b.indexes ==> i in out.indexes
    ensures Steps(d, b, out)
  {
  }

  lemma CreateIndexSteps(d: Design, b: Bundle, i: Index)
    requires Shaped(d, b) && Able(d, b, CreateIndex(i))
    ensures var out := IndexCreated(d, b, i);
            out.Ok? && Steps(d, b, out.value) && i in out.value.indexes && out.value.tables == b.tables
  {
    if i in b.indexes {
      NoStep(d, b);
    } else {
      IndexedShaped(d, b, i);
      SameTablesSteps(d, b, b.(indexes := b.indexes[i := Named(d.indexOn(i).0)]));
    }
  }

  lemma {:induction false} CreateIndexesSteps(d: Design, b: Bundle, indexes: seq<Index>)
    requires Shaped(d, b) && forall i :: 0 <= i < |indexes| ==> Able(d, b, CreateIndex(indexes[i]))
    ensures var out := IndexesCreated(d, b, indexes);
            out.Ok? && Steps(d, b, out.value) && out.value.tables == b.tables && forall i :: i in indexes ==> i in out.value.indexes
  {
    if indexes == [] {
      NoStep(d, b);
    } else {
      var n := |indexes| - 1;
      CreateIndexesSteps(d, b, indexes[..n]);
      assert Able(d, b, CreateIndex(indexes[n]));
      OneMoreIndex(d, b, IndexesCreated(d, b, indexes[..n]).value, indexes[n]);
      assert indexes == indexes[..n] + [indexes[n]];
    }
  }

  lemma OneMoreIndex(d: Design, b: Bundle, mid: Bundle, i: Index)
    requires Able(d, b, CreateIndex(i)) && Steps(d, b, mid) && mid.tables == b.tables
    ensures var out := IndexCreated(d, mid, i);
            && out.Ok? && Steps(d, b, out.value) && out.value.tables == b.tables && i in out.value.indexes
            && forall x :: x in mid.indexes ==> x in out.value.indexes
  {
    CreateIndexSteps(d, mid, i);
    StepsCompose(d, b, mid, IndexCreated(d, mid, i).value);
  }

  // ----- the key rebuild

  /** Distinct old keys stay distinct behind the one empty branch. */
  lemma CopyKeepsUnique(rows: map<int, Row>, columns: set<Column>, key: seq<Column>)
    requires UniqueUnder(rows, key) && key != [] && BRANCH !in key && forall c :: c in key ==> c in columns
    ensures UniqueUnder(CopiedRows(rows, columns), [BRANCH] + key)
  {
    var copied := CopiedRows(rows, columns);
    forall a, b | a in copied && b in copied && a != b
      ensures Projection(copied[a], [BRANCH] + key) != Projection(copied[b], [BRANCH] + key)
    {
      var i :| 0 <= i < |key| && Projection(rows[a], key)[i] != Projection(rows[b], key)[i];
      assert key[i] in key && ([BRANCH] + key)[i + 1] == key[i];
      assert Projection(copied[a], [BRANCH] + key)[i + 1] == Projection(rows[a], key)[i];
      assert Projection(copied[b], [BRANCH] + key)[i + 1] == Projection(rows[b], key)[i];
    }
  }

  lemma CopiedShaped(d: Design, t: TableName, state: TableState)
    requires Coherent(d) && t in d.tier && TableShaped(d, t, state) && BRANCH !in state.columns
    ensures CopiedColumns(d, t) == state.columns == d.least(t)
    ensures TableShaped(d, t, KeyedCopy(d, t, state))
    ensures FilledIn(state, KeyedCopy(d, t, state))
    ensures forall id :: id in state.rows ==> Holds(CopiedRows(state.rows, CopiedColumns(d, t))[id], BRANCH, Text(""))
  {
    assert d.full(t) - {BRANCH} == d.least(t);
    CopyKeepsUnique(state.rows, d.least(t), d.leastKey(t));
    forall id | id in state.rows ensures CopiedRow(state.rows[id], d.least(t)).Keys <= d.full(t) {
    }
  }

  lemma CopiedTables(b: Bundle, t: TableName, state: TableState)
    requires Named(t) in b.tables && Side(t) !in b.tables
    ensures Dropped(WithTable(Renamed(b, t), t, state), Side(t)).tables == WithTable(b, t, state).tables
  {
  }

  lemma CopiedIndexes(b: Bundle, t: TableName, state: TableState)
    requires Named(t) in b.tables && forall i :: i in b.indexes ==> b.indexes[i] != Side(t)
    ensures Dropped(WithTable(Renamed(b, t), t, state), Side(t)).indexes == map i | i in b.indexes && b.indexes[i] != Named(t) :: b.indexes[i]
  {
  }

  /** Renaming, copying and dropping is replacing the table and losing its indexes. */
  lemma CopyIsReplace(d: Design, b: Bundle, t: TableName, state: TableState)
    requires Shaped(d, b) && Named(t) in b.tables
    ensures Dropped(WithTable(Renamed(b, t), t, state), Side(t))
            == WithTable(b, t, state).(indexes := map i | i in b.indexes && b.indexes[i] != Named(t) :: b.indexes[i])
  {
    forall i | i in b.indexes ensures b.indexes[i] != Side(t) {
      assert IndexShaped(d, b, i);
    }
    CopiedTables(b, t, state);
    CopiedIndexes(b, t, state);
  }

  /** Losing a table's indexes loses no shape. */
  lemma UnindexedShaped(d: Design, b: Bundle, t: TableName)
    requires Shaped(d, b)
    ensures Shaped(d, b.(indexes := map i | i in b.indexes && b.indexes[i] != Named(t) :: b.indexes[i]))
  {
    var out := b.(indexes := map i | i in b.indexes && b.indexes[i] != Named(t) :: b.indexes[i]);
    forall i | i in out.indexes ensures IndexShaped(d, out, i) {
      assert IndexShaped(d, b, i);
    }
  }

  /** Every index the drop took is one the rebuild recreates. */
  lemma LostIndexesReturn(d: Design, b: Bundle, t: TableName, out: Bundle)
    requires Coherent(d) && Shaped(d, b) && t in d.tier
    requires forall i :: i in b.indexes && b.indexes[i] != Named(t) ==> i in out.indexes
    requires forall i :: i in d.rebuildIndexes(t) ==> i in out.indexes
    ensures forall i :: i in b.indexes ==> i in out.indexes
  {
    forall i | i in b.indexes && b.indexes[i] == Named(t) ensures i in out.indexes {
      assert IndexShaped(d, b, i);
    }
  }

  lemma RebuildIndexesAble(d: Design, b: Bundle, t: TableName)
    requires Coherent(d) && t in d.tier && Named(t) in b.tables && d.least(t) <= b.tables[Named(t)].columns
    ensures forall k :: 0 <= k < |d.rebuildIndexes(t)| ==> Able(d, b, CreateIndex(d.rebuildIndexes(t)[k]))
  {
    forall k | 0 <= k < |d.rebuildIndexes(t)| ensures Able(d, b, CreateIndex(d.rebuildIndexes(t)[k])) {
      assert d.rebuildIndexes(t)[k] in d.rebuildIndexes(t);
    }
  }

  /** Steps over a change of indexes that is made good at the end. */
  lemma StepsAcross(d: Design, b: Bundle, v: Bundle, u: Bundle, out: Bundle)
    requires Steps(d, b, v) && u.tables == v.tables && u.version == v.version && Steps(d, u, out)
    requires forall i :: i in b.indexes ==> i in out.indexes
    ensures Steps(d, b, out)
  {
    forall t | Named(t) in b.tables ensures FilledIn(b.tables[Named(t)], out.tables[Named(t)]) {
      FillsCompose(b.tables[Named(t)], v.tables[Named(t)], out.tables[Named(t)]);
    }
  }

  /** The table replaced by its copy, before the indexes return. */
  function CopiedOver(d: Design, b: Bundle, t: TableName): Bundle
    requires Named(t) in b.tables
  {
    WithTable(b, t, KeyedCopy(d, t, b.tables[Named(t)]))
  }

  function Unindexed(b: Bundle, v: Bundle, t: TableName): Bundle {
    v.(indexes := map i | i in b.indexes && b.indexes[i] != Named(t) :: b.indexes[i])
  }

  lemma CopyReplaces(d: Design, b: Bundle, t: TableName)
    requires Coherent(d) && Shaped(d, b) && t in d.tier && Named(t) in b.tables && BRANCH !in b.tables[Named(t)].columns
    ensures Steps(d, b, CopiedOver(d, b, t)) && Shaped(d, Unindexed(b, CopiedOver(d, b, t), t))
    ensures KeyCopied(d, b, t) == IndexesCreated(d, Unindexed(b, CopiedOver(d, b, t), t), d.rebuildIndexes(t))
  {
    ShapedTable(d, b, t);
    var state := b.tables[Named(t)];
    CopiedShaped(d, t, state);
    TableReplaced(d, b, t, KeyedCopy(d, t, state));
    CopyIsReplace(d, b, t, KeyedCopy(d, t, state));
    UnindexedShaped(d, CopiedOver(d, b, t), t);
  }

  /** An unkeyed tree-tier table is rebuilt: every row under its rowid, the fresh key, all
      named indexes. */
  lemma KeyCopySteps(d: Design, b: Bundle, t: TableName)
    requires Coherent(d) && Shaped(d, b) && t in d.tier && Named(t) in b.tables && BRANCH !in b.tables[Named(t)].columns
    ensures var out := KeyCopied(d, b, t);
            out.Ok? && Steps(d, b, out.value) && Given(d, out.value, RebuildKey(t)) && out.value.tables[Named(t)].key == d.fullKey(t)
  {
    CopyReplaces(d, b, t);
    var v := CopiedOver(d, b, t);
    var u := Unindexed(b, v, t);
    RebuildIndexesAble(d, u, t);
    CreateIndexesSteps(d, u, d.rebuildIndexes(t));
    var out := IndexesCreated(d, u, d.rebuildIndexes(t)).value;
    LostIndexesReturn(d, b, t, out);
    StepsAcross(d, b, v, u, out);
  }

  lemma KeyRestoreSteps(d: Design, b: Bundle, t: TableName)
    requires Coherent(d) && Shaped(d, b) && t in d.tier && Named(t) in b.tables && BRANCH in b.tables[Named(t)].columns
    ensures var out := IndexesCreated(d, b, d.rebuildIndexes(t));
            out.Ok? && Steps(d, b, out.value) && Given(d, out.value, RebuildKey(t))
  {
    ShapedTable(d, b, t);
    RebuildIndexesAble(d, b, t);
    CreateIndexesSteps(d, b, d.rebuildIndexes(t));
    KeyIsGiven(d, b, IndexesCreated(d, b, d.rebuildIndexes(t)).value, t);
  }

  lemma KeyIsGiven(d: Design, b: Bundle, out: Bundle, t: TableName)
    requires Named(t) in b.tables && BRANCH in b.tables[Named(t)].columns && out.tables == b.tables
    requires forall i :: i in d.rebuildIndexes(t) ==> i in out.indexes
    ensures Given(d, out, RebuildKey(t))
  {
  }

  lemma KeyCreateSteps(d: Design, b: Bundle, t: TableName)
    requires Coherent(d) && Shaped(d, b) && t in d.tier && Named(t) !in b.tables
    ensures var out := IndexesCreated(d, WithTable(b, t, EmptyTable(d, t)), d.rebuildIndexes(t));
            out.Ok? && Steps(d, b, out.value) && Given(d, out.value, RebuildKey(t))
  {
    var v := WithTable(b, t, EmptyTable(d, t));
    TableReplaced(d, b, t, EmptyTable(d, t));
    IndexesRestored(d, b, v, t);
  }

  lemma IndexesRestored(d: Design, b: Bundle, v: Bundle, t: TableName)
    requires Coherent(d) && Steps(d, b, v) && t in d.tier && Named(t) in v.tables && BRANCH in v.tables[Named(t)].columns
    ensures var out := IndexesCreated(d, v, d.rebuildIndexes(t));
            out.Ok? && Steps(d, b, out.value) && Given(d, out.value, RebuildKey(t))
  {
    KeyRestoreSteps(d, v, t);
    StepsCompose(d, b, v, IndexesCreated(d, v, d.rebuildIndexes(t)).value);
  }

  /** The key rebuild in each of its three cases: keyed already, gone, or to be copied. */
  lemma RebuildKeySteps(d: Design, b: Bundle, t: TableName)
    requires Coherent(d) && Shaped(d, b) && t in d.tier
    ensures KeyRebuilt(d, b, t).Ok? && Steps(d, b, KeyRebuilt(d, b, t).value) && Given(d, KeyRebuilt(d, b, t).value, RebuildKey(t))
  {
    if Named(t) !in b.tables {
      KeyCreateSteps(d, b, t);
    } else if BRANCH in b.tables[Named(t)].columns {
      KeyRestoreSteps(d, b, t);
    } else {
      KeyCopySteps(d, b, t);
    }
  }

  /** Any sweep statement whose table is there runs, and loses nothing. */
  lemma StatementSteps(d: Design, b: Bundle, s: Statement)
    requires Coherent(d) && Shaped(d, b) && IsSweepStatement(d, s) && Able(d, b, s)
    ensures Executed(d, b, s).Ok? && Steps(d, b, Executed(d, b, s).value) && Given(d, Executed(d, b, s).value, s)
  {
    match s
    case CreateTable(t) => CreateTableSteps(d, b, t);
    case CreateIndex(i) => CreateIndexSteps(d, b, i);
    case AddColumn(t, c) => AddColumnSteps(d, b, t, c);
    case RebuildKey(t) => RebuildKeySteps(d, b, t);
  }

  // ----- a whole sweep

  /** The table is there, or an earlier statement of the sweep creates it. */
  ghost predicate TableBy(b: Bundle, statements: seq<Statement>, i: nat, t: TableName)
    requires i <= |statements|
  {
    Named(t) in b.tables || exists j :: 0 <= j < i && Creates(statements[j], t)
  }

  predicate Creates(s: Statement, t: TableName) { s.CreateTable? && s.table == t }

  predicate Adds(s: Statement, t: TableName, c: Column) { s.AddColumn? && s.table == t && s.column == c }

  ghost predicate ColumnBy(d: Design, b: Bundle, statements: seq<Statement>, i: nat, t: TableName, c: Column)
    requires i <= |statements|
  {
    || c in d.least(t)
    || (Named(t) in b.tables && c in b.tables[Named(t)].columns)
    || exists j :: 0 <= j < i && Adds(statements[j], t, c)
  }

  /** Each statement finds what it needs, in the bundle or from the statements before it. */
  ghost predicate SupportedAt(d: Design, b: Bundle, statements: seq<Statement>, i: nat)
    requires i < |statements|
  {
    && IsSweepStatement(d, statements[i])
    && match statements[i]
       case CreateTable(_) => true
       case CreateIndex(x) =>
         var (t, columns) := d.indexOn(x);
         TableBy(b, statements, i, t) && forall c :: c in columns ==> ColumnBy(d, b, statements, i, t, c)
       case AddColumn(t, _) => TableBy(b, statements, i, t)
       case RebuildKey(_) => true
  }

  ghost predicate Supported(d: Design, b: Bundle, statements: seq<Statement>) {
    forall i: nat :: i < |statements| ==> SupportedAt(d, b, statements, i)
  }

  lemma SupportMeansAble(d: Design, b: Bundle, mid: Bundle, statements: seq<Statement>, i: nat)
    requires i < |statements| && SupportedAt(d, b, statements, i) && Shaped(d, mid) && Grows(b, mid)
    requires forall j :: 0 <= j < i ==> Given(d, mid, statements[j])
    ensures Able(d, mid, statements[i])
  {
    if statements[i].CreateIndex? {
      var (t, columns) := d.indexOn(statements[i].index);
      assert Named(t) in mid.tables;
      ShapedTable(d, mid, t);
      forall c | c in columns ensures c in mid.tables[Named(t)].columns {
        assert ColumnBy(d, b, statements, i, t, c);
      }
    }
  }

  lemma ExecutedSnoc(d: Design, b: Bundle, statements: seq<Statement>, i: nat)
    requires i < |statements|
    ensures ExecutedAll(d, b, statements[..i + 1])
            == var earlier := ExecutedAll(d, b, statements[..i]); if earlier.Err? then earlier else Executed(d, earlier.value, statements[i])
  {
    assert statements[..i + 1][..i] == statements[..i];
  }

  lemma {:induction false} PrefixSteps(d: Design, b: Bundle, statements: seq<Statement>, n: nat)
    requires Coherent(d) && Shaped(d, b) && Supported(d, b, statements) && n <= |statements|
    ensures var out := ExecutedAll(d, b, statements[..n]);
            out.Ok? && Steps(d, b, out.value) && forall j :: 0 <= j < n ==> Given(d, out.value, statements[j])
  {
    if n == 0 {
      NoStep(d, b);
    } else {
      PrefixSteps(d, b, statements, n - 1);
      ExecutedSnoc(d, b, statements, n - 1);
      var mid := ExecutedAll(d, b, statements[..n - 1]).value;
      assert SupportedAt(d, b, statements, n - 1);
      SupportMeansAble(d, b, mid, statements, n - 1);
      StatementSteps(d, mid, statements[n - 1]);
      var out := Executed(d, mid, statements[n - 1]).value;
      StepsCompose(d, b, mid, out);
      forall j | 0 <= j < n - 1 ensures Given(d, out, statements[j]) {
        GivenStays(d, mid, out, statements[j]);
      }
    }
  }

  /** A supported sweep runs whole, loses nothing and leaves all it names. */
  lemma SweepSteps(d: Design, b: Bundle, statements: seq<Statement>)
    requires Coherent(d) && Shaped(d, b) && Supported(d, b, statements)
    ensures var out := ExecutedAll(d, b, statements);
            out.Ok? && Steps(d, b, out.value) && AllGiven(d, out.value, statements)
  {
    PrefixSteps(d, b, statements, |statements|);
    assert statements[..|statements|] == statements;
  }

  ghost predicate AllGiven(d: Design, b: Bundle, statements: seq<Statement>) {
    forall j :: 0 <= j < |statements| ==> Given(d, b, statements[j])
  }

  // ----- the sweeps in order

  predicate OnTier(d: Design, s: Statement) {
    match s
    case CreateTable(t) => t in d.tier
    case CreateIndex(i) => d.indexOn(i).0 in d.tier
    case _ => false
  }

  /** What a sweep leaves; one not replayed is trusted to have run, but for the tree-tier
      tables, which the key rebuild makes good. */
  ghost predicate StatementReached(d: Design, b: Bundle, trusted: bool, s: Statement) {
    Given(d, b, s) || (trusted && OnTier(d, s))
  }

  ghost predicate SweepReached(d: Design, b: Bundle, trusted: bool, statements: seq<Statement>) {
    forall j: nat :: j < |statements| ==> StatementReached(d, b, trusted, statements[j])
  }

  ghost predicate ReachedAt(d: Design, b: Bundle, since: nat, k: nat)
    requires k < |d.versions|
  {
    SweepReached(d, b, d.versions[k] <= since, d.sweep(d.versions[k]))
  }

  /** What the first `n` sweeps leave. */
  ghost predicate Reached(d: Design, b: Bundle, since: nat, n: nat)
    requires n <= |d.versions|
  {
    forall k: nat :: k < n ==> ReachedAt(d, b, since, k)
  }

  ghost predicate TrustsSkipped(d: Design, b: Bundle, since: nat) {
    forall k: nat :: k < |d.versions| && d.versions[k] <= since ==> ReachedAt(d, b, since, k)
  }

  /** From what the sweeps before it leave, each sweep finds what it needs. */
  ghost predicate Climbs(d: Design, b: Bundle, since: nat) {
    forall k: nat, mid :: k < |d.versions| && Shaped(d, mid) && Grows(b, mid) && Reached(d, mid, since, k) ==> Supported(d, mid, d.sweep(d.versions[k]))
  }

  lemma SweepStays(d: Design, b: Bundle, out: Bundle, trusted: bool, statements: seq<Statement>)
    requires SweepReached(d, b, trusted, statements) && Grows(b, out)
    ensures SweepReached(d, out, trusted, statements)
  {
    forall j: nat | j < |statements| ensures StatementReached(d, out, trusted, statements[j]) {
      assert StatementReached(d, b, trusted, statements[j]);
      if Given(d, b, statements[j]) {
        GivenStays(d, b, out, statements[j]);
      }
    }
  }

  lemma ReachedStays(d: Design, b: Bundle, out: Bundle, since: nat, n: nat)
    requires n <= |d.versions| && Reached(d, b, since, n) && Grows(b, out)
    ensures Reached(d, out, since, n)
  {
    forall k: nat | k < n ensures ReachedAt(d, out, since, k) {
      assert ReachedAt(d, b, since, k);
      SweepStays(d, b, out, d.versions[k] <= since, d.sweep(d.versions[k]));
    }
  }

  /** The first `n` sweeps have run whole, lost nothing and left all they name. */
  ghost predicate Progress(d: Design, b: Bundle, out: Result<Bundle, SqlError>, since: nat, n: nat)
    requires n <= |d.versions|
  {
    out.Ok? && Steps(d, b, out.value) && Reached(d, out.value, since, n)
  }

  lemma ProgressSkips(d: Design, b: Bundle, mid: Bundle, since: nat, n: nat)
    requires n < |d.versions| && d.versions[n] <= since && TrustsSkipped(d, b, since) && Progress(d, b, Ok(mid), since, n)
    ensures Progress(d, b, Ok(mid), since, n + 1)
  {
    assert ReachedAt(d, b, since, n);
    SweepStays(d, b, mid, d.versions[n] <= since, d.sweep(d.versions[n]));
    assert ReachedAt(d, mid, since, n);
  }

  lemma ProgressRuns(d: Design, b: Bundle, mid: Bundle, since: nat, n: nat)
    requires Coherent(d) && n < |d.versions| && Climbs(d, b, since) && Progress(d, b, Ok(mid), since, n)
    ensures Progress(d, b, ExecutedAll(d, mid, d.sweep(d.versions[n])), since, n + 1)
  {
    assert Supported(d, mid, d.sweep(d.versions[n]));
    SweepSteps(d, mid, d.sweep(d.versions[n]));
    var out := ExecutedAll(d, mid, d.sweep(d.versions[n])).value;
    StepsCompose(d, b, mid, out);
    ReachedOneMore(d, mid, out, since, n);
  }

  lemma ReachedOneMore(d: Design, mid: Bundle, out: Bundle, since: nat, n: nat)
    requires n < |d.versions| && Reached(d, mid, since, n) && Grows(mid, out) && AllGiven(d, out, d.sweep(d.versions[n]))
    ensures Reached(d, out, since, n + 1)
  {
    ReachedStays(d, mid, out, since, n);
    assert ReachedAt(d, out, since, n);
  }

  /** The sweeps run whole from a trusted start, and leave all they name. */
  lemma {:induction false} SweepsStep(d: Design, b: Bundle, since: nat, n: nat)
    requires Coherent(d) && n <= |d.versions| && Shaped(d, b) && TrustsSkipped(d, b, since) && Climbs(d, b, since)
    ensures Progress(d, b, Swept(d, b, since, n), since, n)
  {
    if n == 0 {
      ProgressStarts(d, b, since);
    } else {
      SweepsStep(d, b, since, n - 1);
      OneMoreSweep(d, b, Swept(d, b, since, n - 1), since, n);
    }
  }

  lemma ProgressStarts(d: Design, b: Bundle, since: nat)
    requires Shaped(d, b)
    ensures Progress(d, b, Ok(b), since, 0)
  {
    NoStep(d, b);
  }

  lemma OneMoreSweep(d: Design, b: Bundle, earlier: Result<Bundle, SqlError>, since: nat, n: nat)
    requires Coherent(d) && 0 < n <= |d.versions| && TrustsSkipped(d, b, since) && Climbs(d, b, since) && Progress(d, b, earlier, since, n - 1)
    ensures Progress(d, b, SweptAfter(d, earlier, since, d.versions[n - 1]), since, n)
  {
    var version := d.versions[n - 1];
    if version <= since {
      ProgressSkips(d, b, earlier.value, since, n - 1);
    } else {
      ProgressRuns(d, b, earlier.value, since, n - 1);
    }
  }

  ghost predicate InertAt(d: Design, b: Bundle, k: nat)
    requires k < |d.versions|
  {
    ExecutedAll(d, b, d.sweep(d.versions[k])) == Ok(b)
  }

  lemma {:induction false} InertSweepsAreInert(d: Design, b: Bundle, since: nat, n: nat)
    requires n <= |d.versions| && forall k: nat :: k < |d.versions| ==> InertAt(d, b, k)
    ensures Swept(d, b, since, n) == Ok(b)
  {
    if n > 0 {
      InertSweepsAreInert(d, b, since, n - 1);
      assert InertAt(d, b, n - 1);
    }
  }
}
