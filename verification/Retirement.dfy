/** Branch retirement: the soft record, the landing-unit link, the grace purge and the
    operator verbs (python/pydocs_mcp/application/branch_retirement.py), and the two
    transactions of a maintenance run (branch_maintenance.py), as functions of the
    tables. What git answers is an input. */
module Retirement {
  import opened Common
  import opened BranchRecords
  import opened BundleTables
  import opened BranchPass

  const NON_GIT_BRANCH_NAME := "no git"
  const DETACHED_PREFIX := "detached-"
  const SECONDS_IN_A_DAY := 86400.0

  datatype RetirementPolicy = RetirementPolicy(graceDays: nat, autoRetireMerged: bool, autoRetireDeleted: bool) {
    function Grace(): real { graceDays as real * SECONDS_IN_A_DAY }
    function PurgeAfter(now: real): real { now + Grace() }
  }

  function Retired(record: BranchRecord, status: Status, now: real, policy: RetirementPolicy): BranchRecord {
    record.(status := status, retiredAt := Some(now), purgeAfter := Some(policy.PurgeAfter(now)))
  }

  predicate IsSyntheticName(name: string) {
    name == NON_GIT_BRANCH_NAME || DETACHED_PREFIX <= name
  }

  /** A row the lifecycle still moves. */
  predicate IsLiveBranchRow(record: BranchRecord) {
    !record.IsLandingUnit() && record.status in {Active, Inactive} && !IsSyntheticName(record.name)
  }

  // ----- the MERGED transition and its landing unit

  datatype MergeVerdict = MergeVerdict(branch: string, evidence: MergeEvidence, landingSha: string, snapshot: Option<(string, string)>)

  datatype LandingStep = LandingStep(parentShas: seq<string>, landedAt: real)

  function KindOfLanding(parents: nat, snapshot: Option<(string, string)>): LandingKind {
    if snapshot.Some? then LinearSnapshot else if parents >= 2 then MergeCommit else SingleCommit
  }

  /** The base just before the landing: a snapshot's first sha, else the first parent. */
  function PreLandingSha(verdict: MergeVerdict, parents: seq<string>): Option<string> {
    if verdict.snapshot.Some? then Some(verdict.snapshot.value.0)
    else if parents != [] then Some(parents[0]) else None
  }

  function LandingUnitRecord(verdict: MergeVerdict, index: map<string, LandingStep>, branch: BranchRecord, now: real): BranchRecord {
    var step := if verdict.landingSha in index then Some(index[verdict.landingSha]) else None;
    var parents := if step.Some? then step.value.parentShas else [];
    BranchRecord(verdict.landingSha, verdict.landingSha, GitObjects, branch.pipelineHash, now, now, false,
                 branch.mergedInto, PreLandingSha(verdict, parents), None, Active, None, None, None, false,
                 Some(KindOfLanding(|parents|, verdict.snapshot)),
                 if step.Some? then Some(step.value.landedAt) else None, None, None)
  }

  function SliceRows(rows: seq<Membership>, slice: Slice): seq<Membership> {
    if rows == [] then []
    else SliceRows(rows[..|rows| - 1], slice) + if rows[|rows| - 1].slice == slice then [rows[|rows| - 1]] else []
  }

  function RowsNotNaming(rows: seq<Membership>, ids: set<int>): seq<Membership> {
    if rows == [] then []
    else RowsNotNaming(rows[..|rows| - 1], ids) + if rows[|rows| - 1].chunkId in ids then [] else [rows[|rows| - 1]]
  }

  /** One slice of `source` copied under `target`; a target row naming the same chunk is replaced. */
  function CopiedMembership(membership: map<string, seq<Membership>>, source: string, target: string, slice: Slice): map<string, seq<Membership>> {
    var copied := SliceRows(RowsOf(membership, source), slice);
    Replaced(membership, target, RowsNotNaming(RowsOf(membership, target), Elems(ChunkIds(copied))) + copied)
  }

  /** The rows of a slice, and the rows naming none of the ids, are what their names say. */
  lemma {:induction false} SliceRowsAre(rows: seq<Membership>, slice: Slice)
    ensures forall row :: row in SliceRows(rows, slice) <==> row in rows && row.slice == slice
  {
    if rows != [] {
      SliceRowsAre(rows[..|rows| - 1], slice);
      assert rows == rows[..|rows| - 1] + [rows[|rows| - 1]];
    }
  }

  lemma {:induction false} RowsNotNamingAre(rows: seq<Membership>, ids: set<int>)
    ensures forall row :: row in RowsNotNaming(rows, ids) <==> row in rows && row.chunkId !in ids
  {
    if rows != [] {
      RowsNotNamingAre(rows[..|rows| - 1], ids);
      assert rows == rows[..|rows| - 1] + [rows[|rows| - 1]];
    }
  }

  lemma {:induction false} SlicedRows(rows: seq<Membership>, slice: Slice)
    requires Distinct(ChunkIds(rows))
    ensures Distinct(ChunkIds(SliceRows(rows, slice)))
    ensures forall id :: id in ChunkIds(SliceRows(rows, slice)) ==> id in ChunkIds(rows)
  {
    if rows != [] {
      var earlier, last := rows[..|rows| - 1], rows[|rows| - 1];
      assert ChunkIds(rows) == ChunkIds(earlier) + [last.chunkId];
      DistinctAppend(ChunkIds(earlier), [last.chunkId]);
      SlicedRows(earlier, slice);
      SnocIds(SliceRows(earlier, slice), last);
      assert last.chunkId !in Elems(ChunkIds(earlier)) by {
        assert last.chunkId in Elems([last.chunkId]);
      }
    }
  }

  lemma SnocIds(rows: seq<Membership>, row: Membership)
    ensures ChunkIds(rows + [row]) == ChunkIds(rows) + [row.chunkId]
    ensures forall id :: id in ChunkIds(rows + [row]) <==> id in ChunkIds(rows) || id == row.chunkId
    ensures Distinct(ChunkIds(rows + [row])) <==> Distinct(ChunkIds(rows)) && row.chunkId !in ChunkIds(rows)
  {
    assert ChunkIds(rows + [row]) == ChunkIds(rows) + [row.chunkId];
    assert forall id :: id in ChunkIds(rows) + [row.chunkId] <==> id in ChunkIds(rows) || id == row.chunkId;
    DistinctAppend(ChunkIds(rows), [row.chunkId]);
    assert row.chunkId in Elems([row.chunkId]);
    assert row.chunkId in ChunkIds(rows) <==> row.chunkId in Elems(ChunkIds(rows));
  }

  lemma {:induction false} OtherRows(rows: seq<Membership>, ids: set<int>)
    requires Distinct(ChunkIds(rows))
    ensures Distinct(ChunkIds(RowsNotNaming(rows, ids)))
    ensures forall id :: id in ChunkIds(RowsNotNaming(rows, ids)) <==> id in ChunkIds(rows) && id !in ids
  {
    if rows != [] {
      var earlier, last := rows[..|rows| - 1], rows[|rows| - 1];
      assert rows == earlier + [last];
      SnocIds(earlier, last);
      OtherRows(earlier, ids);
      SnocIds(RowsNotNaming(earlier, ids), last);
      assert last.chunkId in ids ==> RowsNotNaming(rows, ids) == RowsNotNaming(earlier, ids);
    }
  }

  /** What the target holds after the copy: its own ids and the copied ones, each once. */
  lemma CopiedIds(target: seq<Membership>, copied: seq<Membership>)
    requires Distinct(ChunkIds(target)) && Distinct(ChunkIds(copied))
    ensures var rows := RowsNotNaming(target, Elems(ChunkIds(copied))) + copied;
            && Distinct(ChunkIds(rows))
            && forall id :: id in ChunkIds(rows) <==> id in ChunkIds(target) || id in ChunkIds(copied)
  {
    var others := RowsNotNaming(target, Elems(ChunkIds(copied)));
    OtherRows(target, Elems(ChunkIds(copied)));
    assert ChunkIds(others + copied) == ChunkIds(others) + ChunkIds(copied);
    DistinctAppend(ChunkIds(others), ChunkIds(copied));
  }

  /** Create or link the unit; a branch literally named like the sha keeps its row and gets no copy. */
  function LinkedLandingUnit(s: StoreState, verdict: MergeVerdict, index: map<string, LandingStep>, merged: BranchRecord, now: real): StoreState {
    var sha := verdict.landingSha;
    if sha in s.branches && !s.branches[sha].IsLandingUnit() then s
    else
      var t := if sha in s.branches then s else s.(branches := s.branches[sha := LandingUnitRecord(verdict, index, merged, now)]);
      t.(membership := CopiedMembership(t.membership, verdict.branch, sha, DiffSlice))
  }

  /** Evidence is stamped either way; an unpinned row moves when the policy allows. */
  predicate Moves(record: BranchRecord, policy: RetirementPolicy) {
    !record.pinned && policy.autoRetireMerged
  }

  function VerdictRecord(record: BranchRecord, verdict: MergeVerdict, baseName: string, now: real, policy: RetirementPolicy): BranchRecord {
    var stamped := record.(mergeEvidence := Some(verdict.evidence), landingSha := Some(verdict.landingSha));
    if Moves(record, policy) then Retired(stamped, Merged, now, policy).(mergedInto := Some(baseName)) else stamped
  }

  function AppliedVerdict(s: StoreState, verdict: MergeVerdict, baseName: string, now: real, policy: RetirementPolicy, index: map<string, LandingStep>): StoreState
    requires verdict.branch in s.branches
  {
    var record := s.branches[verdict.branch];
    var after := VerdictRecord(record, verdict, baseName, now, policy);
    var t := s.(branches := s.branches[verdict.branch := after]);
    if Moves(record, policy) then LinkedLandingUnit(t, verdict, index, after, now) else t
  }

  predicate VerdictsKnown(branches: map<string, BranchRecord>, verdicts: seq<MergeVerdict>) {
    forall v :: v in verdicts ==> v.branch in branches
  }

  /** The verdicts one after another. */
  function AppliedVerdicts(s: StoreState, verdicts: seq<MergeVerdict>, baseName: string, now: real, policy: RetirementPolicy, index: map<string, LandingStep>): (t: StoreState)
    requires VerdictsKnown(s.branches, verdicts)
    ensures s.branches.Keys <= t.branches.Keys
  {
    if verdicts == [] then s
    else
      var v := verdicts[|verdicts| - 1];
      assert v in verdicts && forall u :: u in verdicts[..|verdicts| - 1] ==> u in verdicts;
      AppliedVerdict(AppliedVerdicts(s, verdicts[..|verdicts| - 1], baseName, now, policy, index), v, baseName, now, policy, index)
  }

  /** The branches the verdicts move. */
  function MovedBy(branches: map<string, BranchRecord>, verdicts: seq<MergeVerdict>, policy: RetirementPolicy): seq<string>
    requires VerdictsKnown(branches, verdicts)
  {
    if verdicts == [] then []
    else
      var v := verdicts[|verdicts| - 1];
      assert v in verdicts && forall u :: u in verdicts[..|verdicts| - 1] ==> u in verdicts;
      MovedBy(branches, verdicts[..|verdicts| - 1], policy) + if Moves(branches[v.branch], policy) then [v.branch] else []
  }

  // ----- deleted refs and the grace purge

  /** A live, unpinned row whose local ref is gone. */
  predicate IsGone(record: BranchRecord, kept: set<string>) {
    IsLiveBranchRow(record) && !record.pinned && record.name !in kept
  }

  function GoneNames(branches: map<string, BranchRecord>, kept: set<string>, policy: RetirementPolicy): set<string> {
    if policy.autoRetireDeleted then set n | n in branches && IsGone(branches[n], kept) else {}
  }

  function RetiredDeleted(s: StoreState, kept: set<string>, now: real, policy: RetirementPolicy): StoreState {
    var gone := GoneNames(s.branches, kept, policy);
    s.(branches := map n | n in s.branches :: if n in gone then Retired(s.branches[n], Deleted, now, policy) else s.branches[n])
  }

  predicate IsPurgeDue(record: BranchRecord, now: real, spared: set<string>) {
    && !record.IsLandingUnit() && !record.pinned && record.name !in spared
    && record.purgeAfter.Some? && record.purgeAfter.value <= now
    && record.status in {Inactive, Merged, Deleted}
  }

  predicate OwnsRows(s: StoreState, name: string) {
    RowsOf(s.membership, name) != [] || RowsOf(s.files, name) != []
  }

  function DueNames(s: StoreState, now: real, spared: set<string>): set<string> {
    set n | n in s.branches && IsPurgeDue(s.branches[n], now, spared) && OwnsRows(s, n)
  }

  function PurgedDue(s: StoreState, now: real, spared: set<string>): StoreState {
    var due := DueNames(s, now, spared);
    if due == {} then s else PurgedAll(s, due)
  }

  // ----- one maintenance run

  /** The refs one run reads: local heads, the branches checked out in any worktree,
      and the remote-tracking refs the configuration tracks. */
  datatype RefSnapshot = RefSnapshot(localHeads: set<string>, checkedOut: set<string>, tracked: set<string>)

  /** What detection would say: the base, the verdict for a row's name and stored
      head, and the landings. None when no base is resolved. */
  datatype Detection = Detection(baseName: string, verdictFor: (string, string) -> Option<MergeVerdict>, index: map<string, LandingStep>)

  function ProtectedNames(refs: RefSnapshot, served: Option<string>): set<string> {
    if served.Some? then refs.checkedOut + {served.value} else refs.checkedOut
  }

  /** The rows detection examines: live, not the base, not protected, not a tracked remote ref. */
  predicate IsCandidate(record: BranchRecord, refs: RefSnapshot, served: Option<string>, baseName: string) {
    IsLiveBranchRow(record) && record.name != baseName && record.name !in ProtectedNames(refs, served) + refs.tracked
  }

  /** A verdict for exactly the candidates git finds landed, in some order. */
  ghost predicate AreFindings(branches: map<string, BranchRecord>, refs: RefSnapshot, served: Option<string>, d: Option<Detection>, verdicts: seq<MergeVerdict>) {
    && (d.None? ==> verdicts == [])
    && (forall i, j :: 0 <= i < j < |verdicts| ==> verdicts[i].branch != verdicts[j].branch)
    && (d.Some? ==>
          && (forall name, head :: d.value.verdictFor(name, head).Some? ==> d.value.verdictFor(name, head).value.branch == name)
          && (forall v :: v in verdicts <==>
                v.branch in branches && IsCandidate(branches[v.branch], refs, served, d.value.baseName)
                && d.value.verdictFor(v.branch, branches[v.branch].headSha) == Some(v)))
  }

  function BaseNameOf(d: Option<Detection>): string { if d.Some? then d.value.baseName else "" }

  function IndexOf(d: Option<Detection>): map<string, LandingStep> { if d.Some? then d.value.index else map[] }

  function KeptNames(refs: RefSnapshot, served: Option<string>): set<string> {
    refs.localHeads + refs.tracked + ProtectedNames(refs, served)
  }

  /** The run's second transaction: the verdicts, then the deleted-ref retirement. */
  function RetireStep(s: StoreState, refs: RefSnapshot, served: Option<string>, d: Option<Detection>, verdicts: seq<MergeVerdict>, now: real, policy: RetirementPolicy): StoreState
    requires VerdictsKnown(s.branches, verdicts)
  {
    RetiredDeleted(AppliedVerdicts(s, verdicts, BaseNameOf(d), now, policy, IndexOf(d)), KeptNames(refs, served), now, policy)
  }

  /** Its third: the grace purge. */
  function PurgeStep(s: StoreState, refs: RefSnapshot, served: Option<string>, now: real): StoreState {
    PurgedDue(s, now, ProtectedNames(refs, served))
  }

  // ----- the operator verbs

  datatype Verb = Retire | Purge | Pin | Unpin

  datatype VerbError = UnknownBranch | LandingUnitRefused | ServedRefused

  /** Retire and purge refuse a landing unit and the served row. */
  function VerbRefusal(branches: map<string, BranchRecord>, served: Option<string>, verb: Verb, name: string): Option<VerbError> {
    if name !in branches then Some(UnknownBranch)
    else if verb.Pin? || verb.Unpin? then None
    else if branches[name].IsLandingUnit() then Some(LandingUnitRefused)
    else if served == Some(name) then Some(ServedRefused)
    else None
  }

  function ManuallyRetired(record: BranchRecord, now: real, purgeAfter: real): BranchRecord {
    record.(status := if record.status == Active then Inactive else record.status, retiredAt := Some(now), purgeAfter := Some(purgeAfter))
  }

  function VerbResult(s: StoreState, verb: Verb, name: string, now: real, policy: RetirementPolicy): StoreState
    requires name in s.branches
  {
    var record := s.branches[name];
    match verb
    case Retire => s.(branches := s.branches[name := ManuallyRetired(record, now, policy.PurgeAfter(now))])
    case Purge =>
      var t := if record.status == Active then s.(branches := s.branches[name := ManuallyRetired(record, now, now)]) else s;
      Purged(t, name)
    case Pin => s.(branches := s.branches[name := record.(pinned := true)])
    case Unpin => s.(branches := s.branches[name := record.(pinned := false)])
  }
}
