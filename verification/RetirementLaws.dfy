/** What a maintenance run leaves, spelled row by row and column by column: which rows
    are found landed, which become MERGED or DELETED, what a landing unit holds and which
    branches the grace purge takes. */
module RetirementLaws {
  import opened Common
  import opened BranchRecords
  import opened BundleTables
  import opened BranchPass
  import opened PassTheorems
  import opened Retirement
  import opened MaintenanceTheorems

  // ----- the rows detection examines

  /** A verdict is found for exactly the Active or Inactive rows that are no landing unit,
      have a branch's own name, are neither the base nor checked out nor served nor
      tracked, and that git calls landed at their stored head. */
  lemma FoundExactly(branches: map<string, BranchRecord>, refs: RefSnapshot, served: Option<string>, d: Option<Detection>,
                     verdicts: seq<MergeVerdict>, v: MergeVerdict)
    requires AreFindings(branches, refs, served, d, verdicts) && NamesMatch(branches)
    ensures v in verdicts <==>
              && d.Some? && v.branch in branches && branches[v.branch].status in {Active, Inactive} && branches[v.branch].landingKind.None?
              && v.branch != "no git" && !("detached-" <= v.branch) && v.branch != d.value.baseName
              && v.branch !in refs.checkedOut && v.branch !in refs.tracked && served != Some(v.branch)
              && d.value.verdictFor(v.branch, branches[v.branch].headSha) == Some(v)
  {
  }

  // ----- the retirement transaction, row by row

  /** The ref a branch was indexed from is still there, or the row is in use. */
  predicate HasRef(refs: RefSnapshot, served: Option<string>, n: string) {
    n in refs.localHeads || n in refs.tracked || n in refs.checkedOut || served == Some(n)
  }

  /** A branch the deleted-ref retirement takes. */
  predicate LostItsRef(record: BranchRecord, refs: RefSnapshot, served: Option<string>) {
    && record.status in {Active, Inactive} && !record.pinned && record.landingKind.None?
    && record.name != "no git" && !("detached-" <= record.name)
    && !HasRef(refs, served, record.name)
  }

  /** The columns a retirement never writes. */
  predicate SameIdentity(a: BranchRecord, b: BranchRecord) {
    && a.name == b.name && a.headSha == b.headSha && a.source == b.source && a.pipelineHash == b.pipelineHash
    && a.indexedAt == b.indexedAt && a.lastUsedAt == b.lastUsedAt && a.isDefault == b.isDefault
    && a.baseName == b.baseName && a.mergeBaseSha == b.mergeBaseSha && a.worktreePath == b.worktreePath
    && a.pinned == b.pinned && a.landingKind == b.landingKind && a.landedAt == b.landedAt
  }

  /** Retired at `now`, to be purged once the policy's whole days of grace have passed. */
  predicate RetiredAs(after: BranchRecord, status: Status, now: real, policy: RetirementPolicy) {
    after.status == status && after.retiredAt == Some(now) && after.purgeAfter == Some(now + policy.graceDays as real * 86400.0)
  }

  predicate SameRetirement(a: BranchRecord, b: BranchRecord) {
    a.status == b.status && a.retiredAt == b.retiredAt && a.purgeAfter == b.purgeAfter
  }

  /** A row with no verdict: DELETED exactly when its ref is lost and the policy says so. */
  predicate UnlandedAfter(before: BranchRecord, after: BranchRecord, refs: RefSnapshot, served: Option<string>, now: real, policy: RetirementPolicy) {
    && SameIdentity(before, after) && after.mergedInto == before.mergedInto
    && after.mergeEvidence == before.mergeEvidence && after.landingSha == before.landingSha
    && if policy.autoRetireDeleted && LostItsRef(before, refs, served) then RetiredAs(after, Deleted, now, policy)
       else SameRetirement(before, after)
  }

  /** A row with a verdict carries its evidence; unpinned and under the policy it is MERGED
      into the base, otherwise it fares as any other row. */
  predicate LandedAfter(before: BranchRecord, after: BranchRecord, v: MergeVerdict, baseName: string, refs: RefSnapshot, served: Option<string>,
                        now: real, policy: RetirementPolicy) {
    && SameIdentity(before, after) && after.mergeEvidence == Some(v.evidence) && after.landingSha == Some(v.landingSha)
    && if policy.autoRetireMerged && !before.pinned then RetiredAs(after, Merged, now, policy) && after.mergedInto == Some(baseName)
       else
         && after.mergedInto == before.mergedInto
         && if policy.autoRetireDeleted && LostItsRef(before, refs, served) then RetiredAs(after, Deleted, now, policy)
            else SameRetirement(before, after)
  }

  /** One row through the second half of the transaction. */
  lemma DeletedRow(s: StoreState, refs: RefSnapshot, served: Option<string>, now: real, policy: RetirementPolicy, n: string)
    requires n in s.branches && s.branches[n].name == n
    ensures var t := RetiredDeleted(s, KeptNames(refs, served), now, policy).branches;
            n in t && UnlandedAfter(s.branches[n], t[n], refs, served, now, policy)
  {
    assert n in KeptNames(refs, served) <==> HasRef(refs, served, n);
  }

  lemma UnlandedRow(s: StoreState, refs: RefSnapshot, served: Option<string>, d: Option<Detection>, verdicts: seq<MergeVerdict>,
                    now: real, policy: RetirementPolicy, n: string)
    requires VerdictsKnown(s.branches, verdicts) && DistinctBranches(verdicts)
    requires n in s.branches && s.branches[n].name == n && forall v :: v in verdicts ==> v.branch != n
    ensures var t := RetireStep(s, refs, served, d, verdicts, now, policy).branches;
            n in t && UnlandedAfter(s.branches[n], t[n], refs, served, now, policy)
  {
    VerdictsByRow(s, verdicts, BaseNameOf(d), now, policy, IndexOf(d));
    DeletedRow(AppliedVerdicts(s, verdicts, BaseNameOf(d), now, policy, IndexOf(d)), refs, served, now, policy, n);
  }

  lemma LandedRow(s: StoreState, refs: RefSnapshot, served: Option<string>, d: Option<Detection>, verdicts: seq<MergeVerdict>,
                  now: real, policy: RetirementPolicy, v: MergeVerdict)
    requires VerdictsKnown(s.branches, verdicts) && DistinctBranches(verdicts)
    requires v in verdicts && s.branches[v.branch].name == v.branch
    ensures var t := RetireStep(s, refs, served, d, verdicts, now, policy).branches;
            v.branch in t && LandedAfter(s.branches[v.branch], t[v.branch], v, BaseNameOf(d), refs, served, now, policy)
  {
    var mid := AppliedVerdicts(s, verdicts, BaseNameOf(d), now, policy, IndexOf(d));
    VerdictsByRow(s, verdicts, BaseNameOf(d), now, policy, IndexOf(d));
    assert mid.branches[v.branch].name == v.branch;
    DeletedRow(mid, refs, served, now, policy, v.branch);
    VerdictThenRef(s.branches[v.branch], RetireStep(s, refs, served, d, verdicts, now, policy).branches[v.branch], v, BaseNameOf(d),
                   refs, served, now, policy);
  }

  lemma VerdictThenRef(before: BranchRecord, after: BranchRecord, v: MergeVerdict, baseName: string, refs: RefSnapshot, served: Option<string>,
                       now: real, policy: RetirementPolicy)
    requires UnlandedAfter(VerdictRecord(before, v, baseName, now, policy), after, refs, served, now, policy)
    ensures LandedAfter(before, after, v, baseName, refs, served, now, policy)
  {
  }

  /** Every row through a retirement transaction. */
  lemma RetiredRows(s: StoreState, refs: RefSnapshot, served: Option<string>, seen: Option<string>, d: Option<Detection>,
                    verdicts: seq<MergeVerdict>, now: real, policy: RetirementPolicy)
    requires AreFindings(s.branches, refs, seen, d, verdicts) && VerdictsKnown(s.branches, verdicts) && NamesMatch(s.branches)
    ensures var t := RetireStep(s, refs, served, d, verdicts, now, policy).branches;
            && (forall v :: v in verdicts ==>
                  v.branch in t && LandedAfter(s.branches[v.branch], t[v.branch], v, BaseNameOf(d), refs, served, now, policy))
            && (forall n :: n in s.branches && (forall v :: v in verdicts ==> v.branch != n) ==>
                  n in t && UnlandedAfter(s.branches[n], t[n], refs, served, now, policy))
  {
    FindingsAreCandidates(s.branches, refs, seen, d, verdicts);
    forall v | v in verdicts
      ensures var t := RetireStep(s, refs, served, d, verdicts, now, policy).branches;
              v.branch in t && LandedAfter(s.branches[v.branch], t[v.branch], v, BaseNameOf(d), refs, served, now, policy)
    {
      LandedRow(s, refs, served, d, verdicts, now, policy, v);
    }
    forall n | n in s.branches && (forall v :: v in verdicts ==> v.branch != n)
      ensures var t := RetireStep(s, refs, served, d, verdicts, now, policy).branches;
              n in t && UnlandedAfter(s.branches[n], t[n], refs, served, now, policy)
    {
      UnlandedRow(s, refs, served, d, verdicts, now, policy, n);
    }
  }

  /** A row is reported deleted exactly when it became DELETED, and reported merged exactly
      when its verdict moved it; nobody is reported twice. */
  lemma ReportedExactly(s: StoreState, refs: RefSnapshot, served: Option<string>, seen: Option<string>, d: Option<Detection>,
                        verdicts: seq<MergeVerdict>, now: real, policy: RetirementPolicy, n: string)
    requires AreFindings(s.branches, refs, seen, d, verdicts) && VerdictsKnown(s.branches, verdicts)
    ensures var t, mid := RetireStep(s, refs, served, d, verdicts, now, policy), AppliedVerdicts(s, verdicts, BaseNameOf(d), now, policy, IndexOf(d));
            n in GoneNames(mid.branches, KeptNames(refs, served), policy)
            <==> n in s.branches && n in t.branches && s.branches[n].status != Deleted && t.branches[n].status == Deleted
    ensures Distinct(MovedBy(s.branches, verdicts, policy))
    ensures n in MovedBy(s.branches, verdicts, policy)
            <==> exists v :: v in verdicts && v.branch == n && !s.branches[n].pinned && policy.autoRetireMerged
  {
    FindingsAreCandidates(s.branches, refs, seen, d, verdicts);
    MovedAre(s.branches, verdicts, policy);
    VerdictsByRow(s, verdicts, BaseNameOf(d), now, policy, IndexOf(d));
    if n in s.branches {
      VerdictStatus(s, verdicts, d, now, policy, n);
    }
  }

  /** A verdict leaves no row DELETED that was not. */
  lemma VerdictStatus(s: StoreState, verdicts: seq<MergeVerdict>, d: Option<Detection>, now: real, policy: RetirementPolicy, n: string)
    requires VerdictsKnown(s.branches, verdicts) && DistinctBranches(verdicts) && n in s.branches
    ensures var mid := AppliedVerdicts(s, verdicts, BaseNameOf(d), now, policy, IndexOf(d)).branches;
            n in mid && (mid[n].status == s.branches[n].status || mid[n].status == Merged)
  {
    VerdictsByRow(s, verdicts, BaseNameOf(d), now, policy, IndexOf(d));
    if v :| v in verdicts && v.branch == n {
      assert AppliedVerdicts(s, verdicts, BaseNameOf(d), now, policy, IndexOf(d)).branches[n] == VerdictRecord(s.branches[n], v, BaseNameOf(d), now, policy);
    }
  }

  lemma {:induction false} MovedAre(branches: map<string, BranchRecord>, verdicts: seq<MergeVerdict>, policy: RetirementPolicy)
    requires VerdictsKnown(branches, verdicts) && DistinctBranches(verdicts)
    ensures Distinct(MovedBy(branches, verdicts, policy))
    ensures forall n :: n in MovedBy(branches, verdicts, policy)
              <==> exists v :: v in verdicts && v.branch == n && !branches[n].pinned && policy.autoRetireMerged
  {
    if verdicts != [] {
      var earlier, last := verdicts[..|verdicts| - 1], verdicts[|verdicts| - 1];
      assert last in verdicts && forall u :: u in earlier ==> u in verdicts;
      MovedAre(branches, earlier, policy);
      var moved := MovedBy(branches, earlier, policy);
      assert last.branch !in moved;
      forall n ensures n in MovedBy(branches, verdicts, policy)
                       <==> exists v :: v in verdicts && v.branch == n && !branches[n].pinned && policy.autoRetireMerged {
        if v :| v in verdicts && v.branch == n && !branches[n].pinned && policy.autoRetireMerged {
          assert v in earlier || v == last;
        }
      }
    }
  }

  /** What a run's retirement leaves of rows that are keyed by their name: each row with a
      verdict, and each row without. */
  ghost predicate RowsRetired(s: StoreState, t: StoreState, refs: RefSnapshot, served: Option<string>, seen: Option<string>, d: Option<Detection>,
                              verdicts: seq<MergeVerdict>, now: real, policy: RetirementPolicy) {
    NamesMatch(s.branches) ==>
      && (forall v :: v in verdicts ==>
            && v.branch in s.branches && v.branch in t.branches
            && LandedAfter(s.branches[v.branch], t.branches[v.branch], v, BaseNameOf(d), refs, served, now, policy))
      && (forall n :: n in s.branches && (forall v :: v in verdicts ==> v.branch != n) ==>
            n in t.branches && UnlandedAfter(s.branches[n], t.branches[n], refs, served, now, policy))
  }

  lemma RunRetiresRows(s: StoreState, refs: RefSnapshot, served: Option<string>, seen: Option<string>, d: Option<Detection>,
                       verdicts: seq<MergeVerdict>, now: real, policy: RetirementPolicy)
    requires AreFindings(s.branches, refs, seen, d, verdicts) && VerdictsKnown(s.branches, verdicts)
    ensures RowsRetired(s, RetireStep(s, refs, served, d, verdicts, now, policy), refs, served, seen, d, verdicts, now, policy)
  {
    if NamesMatch(s.branches) {
      RetiredRows(s, refs, served, seen, d, verdicts, now, policy);
    }
  }

  /** A branch with a local head, a tracked remote ref, a worktree or the readers' eye on
      it, and no verdict, is left as it is. */
  lemma RefKeepsItsBranch(s: StoreState, refs: RefSnapshot, served: Option<string>, seen: Option<string>, d: Option<Detection>,
                          verdicts: seq<MergeVerdict>, now: real, policy: RetirementPolicy, n: string)
    requires AreFindings(s.branches, refs, seen, d, verdicts) && VerdictsKnown(s.branches, verdicts) && NamesMatch(s.branches)
    requires n in s.branches && (n in refs.localHeads || n in refs.tracked || n in refs.checkedOut || served == Some(n))
    requires forall v :: v in verdicts ==> v.branch != n
    ensures var t := RetireStep(s, refs, served, d, verdicts, now, policy).branches;
            n in t && t[n] == s.branches[n]
  {
    RetiredRows(s, refs, served, seen, d, verdicts, now, policy);
  }

  /** A row becomes DELETED exactly when the policy retires deleted refs, the row is live,
      unpinned, a branch's own and in no ref set, and no verdict moves it to MERGED. */
  lemma DeletedExactly(s: StoreState, refs: RefSnapshot, served: Option<string>, seen: Option<string>, d: Option<Detection>,
                       verdicts: seq<MergeVerdict>, now: real, policy: RetirementPolicy, n: string)
    requires AreFindings(s.branches, refs, seen, d, verdicts) && VerdictsKnown(s.branches, verdicts) && NamesMatch(s.branches)
    requires n in s.branches && s.branches[n].status != Deleted
    ensures var t, before := RetireStep(s, refs, served, d, verdicts, now, policy).branches, s.branches[n];
            && n in t
            && (t[n].status == Deleted <==>
                  && policy.autoRetireDeleted && before.status in {Active, Inactive} && !before.pinned && before.landingKind.None?
                  && n != "no git" && !("detached-" <= n)
                  && n !in refs.localHeads && n !in refs.tracked && n !in refs.checkedOut && served != Some(n)
                  && !(policy.autoRetireMerged && exists v :: v in verdicts && v.branch == n))
            && (t[n].status == Deleted ==>
                  t[n].retiredAt == Some(now) && t[n].purgeAfter == Some(now + policy.graceDays as real * 86400.0) && t[n].mergedInto == before.mergedInto)
  {
    assert DistinctBranches(verdicts) by { FindingsAreCandidates(s.branches, refs, seen, d, verdicts); }
    var after := RetireStep(s, refs, served, d, verdicts, now, policy).branches;
    if v :| v in verdicts && v.branch == n {
      LandedRow(s, refs, served, d, verdicts, now, policy, v);
      DeletedThoughLanded(s.branches[n], after[n], v, BaseNameOf(d), refs, served, now, policy);
    } else {
      UnlandedRow(s, refs, served, d, verdicts, now, policy, n);
      DeletedUnlanded(s.branches[n], after[n], refs, served, now, policy);
    }
    assert LostItsRef(s.branches[n], refs, served) <==>
        && s.branches[n].status in {Active, Inactive} && !s.branches[n].pinned && s.branches[n].landingKind.None?
        && n != "no git" && !("detached-" <= n)
        && n !in refs.localHeads && n !in refs.tracked && n !in refs.checkedOut && served != Some(n);
  }

  lemma DeletedUnlanded(before: BranchRecord, after: BranchRecord, refs: RefSnapshot, served: Option<string>, now: real, policy: RetirementPolicy)
    requires UnlandedAfter(before, after, refs, served, now, policy) && before.status != Deleted
    ensures after.status == Deleted <==> policy.autoRetireDeleted && LostItsRef(before, refs, served)
    ensures after.status == Deleted ==> RetiredAs(after, Deleted, now, policy) && after.mergedInto == before.mergedInto
  {
  }

  lemma DeletedThoughLanded(before: BranchRecord, after: BranchRecord, v: MergeVerdict, baseName: string, refs: RefSnapshot, served: Option<string>,
                            now: real, policy: RetirementPolicy)
    requires LandedAfter(before, after, v, baseName, refs, served, now, policy) && before.status != Deleted
    ensures after.status == Deleted <==> policy.autoRetireDeleted && LostItsRef(before, refs, served) && !policy.autoRetireMerged
    ensures after.status == Deleted ==> RetiredAs(after, Deleted, now, policy) && after.mergedInto == before.mergedInto
  {
  }

  // ----- landing units

  /** The unit of a verdict's landing, column by column: the sha is its name and its head,
      the base before it is the snapshot's first sha or the first parent, and its kind is
      a snapshot's, a merge's or a single commit's. */
  predicate IsUnitFor(unit: BranchRecord, v: MergeVerdict, index: map<string, LandingStep>, pipelineHash: string, baseName: Option<string>, now: real) {
    && unit.name == v.landingSha && unit.headSha == v.landingSha && unit.source == GitObjects && unit.pipelineHash == pipelineHash
    && unit.indexedAt == now && unit.lastUsedAt == now && !unit.isDefault && !unit.pinned
    && unit.baseName == baseName && unit.worktreePath.None?
    && unit.status == Active && unit.mergedInto.None? && unit.retiredAt.None? && unit.purgeAfter.None?
    && unit.mergeEvidence.None? && unit.landingSha.None?
    && (v.snapshot.Some? ==> unit.landingKind == Some(LinearSnapshot) && unit.mergeBaseSha == Some(v.snapshot.value.0))
    && (v.snapshot.None? && v.landingSha in index ==>
          var parents := index[v.landingSha].parentShas;
          && unit.landingKind == Some(if |parents| >= 2 then MergeCommit else SingleCommit)
          && unit.mergeBaseSha == (if |parents| > 0 then Some(parents[0]) else None))
    && (v.snapshot.None? && v.landingSha !in index ==> unit.landingKind == Some(SingleCommit) && unit.mergeBaseSha.None?)
    && unit.landedAt == (if v.landingSha in index then Some(index[v.landingSha].landedAt) else None)
  }

  /** The unit's rows after a link: the merged branch's diff slice, and its own rows that
      name none of those chunks. */
  ghost predicate HoldsDiffOf(before: StoreState, after: StoreState, branch: string, unit: string) {
    forall row :: row in RowsOf(after.membership, unit) <==>
      || (row in RowsOf(before.membership, branch) && row.slice == DiffSlice)
      || (row in RowsOf(before.membership, unit)
          && forall other :: other in RowsOf(before.membership, branch) && other.slice == DiffSlice ==> other.chunkId != row.chunkId)
  }

  lemma CopyHoldsDiff(s: StoreState, branch: string, unit: string)
    ensures HoldsDiffOf(s, s.(membership := CopiedMembership(s.membership, branch, unit, DiffSlice)), branch, unit)
  {
    var source, own := RowsOf(s.membership, branch), RowsOf(s.membership, unit);
    var copied := SliceRows(source, DiffSlice);
    SliceRowsAre(source, DiffSlice);
    RowsNotNamingAre(own, Elems(ChunkIds(copied)));
    forall row | row in own
      ensures row.chunkId in Elems(ChunkIds(copied)) <==> exists other :: other in source && other.slice == DiffSlice && other.chunkId == row.chunkId
    {
      IdIsNamed(copied, row.chunkId);
    }
    assert RowsOf(CopiedMembership(s.membership, branch, unit, DiffSlice), unit) == RowsNotNaming(own, Elems(ChunkIds(copied))) + copied;
  }

  lemma IdIsNamed(rows: seq<Membership>, id: int)
    ensures id in Elems(ChunkIds(rows)) <==> exists row :: row in rows && row.chunkId == id
  {
    if id in Elems(ChunkIds(rows)) {
      var i :| 0 <= i < |rows| && ChunkIds(rows)[i] == id;
      assert rows[i] in rows;
    }
    if row :| row in rows && row.chunkId == id {
      var i :| 0 <= i < |rows| && rows[i] == row;
      assert ChunkIds(rows)[i] == id;
    }
  }

  /** Linking a landing: a branch literally named like the sha is left alone; otherwise the
      unit is written once and gets the merged branch's diff slice, and nothing else changes. */
  lemma LinkExactly(s: StoreState, v: MergeVerdict, index: map<string, LandingStep>, merged: BranchRecord, now: real)
    ensures var t, sha := LinkedLandingUnit(s, v, index, merged, now), v.landingSha;
            if sha in s.branches && s.branches[sha].landingKind.None? then t == s
            else
              && t.branches.Keys == s.branches.Keys + {sha}
              && (sha !in s.branches ==> IsUnitFor(t.branches[sha], v, index, merged.pipelineHash, merged.mergedInto, now))
              && (forall n :: n in s.branches ==> t.branches[n] == s.branches[n])
              && HoldsDiffOf(s, t, v.branch, sha)
              && (forall n :: n != sha ==> RowsOf(t.membership, n) == RowsOf(s.membership, n))
              && t.chunks == s.chunks && t.vectors == s.vectors && t.files == s.files && t.cache == s.cache && t.trees == s.trees
  {
    CopyHoldsDiff(s, v.branch, v.landingSha);
    if v.landingSha !in s.branches {
      UnitIs(v, index, merged, now);
    }
  }

  lemma UnitIs(v: MergeVerdict, index: map<string, LandingStep>, merged: BranchRecord, now: real)
    ensures IsUnitFor(LandingUnitRecord(v, index, merged, now), v, index, merged.pipelineHash, merged.mergedInto, now)
  {
  }

  // ----- what a moved branch leaves behind

  predicate Names(membership: map<string, seq<Membership>>, b: string, id: int) {
    id in ChunkIds(RowsOf(membership, b))
  }

  /** Nobody stops naming a chunk. */
  ghost predicate NamingGrows(before: StoreState, after: StoreState) {
    forall b, id :: Names(before.membership, b, id) ==> Names(after.membership, b, id)
  }

  /** The unit names every chunk of the branch's diff slice. */
  ghost predicate NamesDiffOf(before: StoreState, after: StoreState, branch: string, unit: string) {
    forall row :: row in RowsOf(before.membership, branch) && row.slice == DiffSlice ==> Names(after.membership, unit, row.chunkId)
  }

  lemma RowNames(membership: map<string, seq<Membership>>, b: string, row: Membership)
    requires row in RowsOf(membership, b)
    ensures Names(membership, b, row.chunkId)
  {
    IdIsNamed(RowsOf(membership, b), row.chunkId);
  }

  lemma LinkNames(s: StoreState, v: MergeVerdict, index: map<string, LandingStep>, merged: BranchRecord, now: real)
    ensures var t := LinkedLandingUnit(s, v, index, merged, now);
            && NamingGrows(s, t) && v.landingSha in t.branches
            && (t.branches[v.landingSha].IsLandingUnit() ==> NamesDiffOf(s, t, v.branch, v.landingSha))
  {
    var t, sha := LinkedLandingUnit(s, v, index, merged, now), v.landingSha;
    LinkExactly(s, v, index, merged, now);
    if sha !in s.branches || s.branches[sha].landingKind.Some? {
      forall id | Names(s.membership, sha, id) ensures Names(t.membership, sha, id) {
        UnitKeepsId(s, t, v.branch, sha, id);
      }
      forall row | row in RowsOf(s.membership, v.branch) && row.slice == DiffSlice ensures Names(t.membership, sha, row.chunkId) {
        RowNames(t.membership, sha, row);
      }
    }
  }

  lemma UnitKeepsId(before: StoreState, after: StoreState, branch: string, unit: string, id: int)
    requires HoldsDiffOf(before, after, branch, unit) && Names(before.membership, unit, id)
    ensures Names(after.membership, unit, id)
  {
    IdIsNamed(RowsOf(before.membership, unit), id);
    var row :| row in RowsOf(before.membership, unit) && row.chunkId == id;
    if other :| other in RowsOf(before.membership, branch) && other.slice == DiffSlice && other.chunkId == id {
      RowNames(after.membership, unit, other);
    } else {
      RowNames(after.membership, unit, row);
    }
  }

  /** One verdict: an unpinned branch's landing has its unit afterwards, and the unit names
      the branch's diff slice. */
  lemma VerdictNames(s: StoreState, v: MergeVerdict, baseName: string, now: real, policy: RetirementPolicy, index: map<string, LandingStep>)
    requires v.branch in s.branches
    ensures var t := AppliedVerdict(s, v, baseName, now, policy, index);
            && NamingGrows(s, t)
            && (policy.autoRetireMerged && !s.branches[v.branch].pinned ==>
                  && v.landingSha in t.branches
                  && (t.branches[v.landingSha].IsLandingUnit() ==> NamesDiffOf(s, t, v.branch, v.landingSha)))
  {
    var after := VerdictRecord(s.branches[v.branch], v, baseName, now, policy);
    LinkNames(s.(branches := s.branches[v.branch := after]), v, index, after, now);
  }

  lemma {:induction false} VerdictsName(s: StoreState, verdicts: seq<MergeVerdict>, baseName: string, now: real, policy: RetirementPolicy,
                                        index: map<string, LandingStep>)
    requires VerdictsKnown(s.branches, verdicts)
    ensures NamingGrows(s, AppliedVerdicts(s, verdicts, baseName, now, policy, index))
  {
    if verdicts != [] {
      var earlier, last := verdicts[..|verdicts| - 1], verdicts[|verdicts| - 1];
      assert last in verdicts && forall u :: u in earlier ==> u in verdicts;
      VerdictsName(s, earlier, baseName, now, policy, index);
      VerdictNames(AppliedVerdicts(s, earlier, baseName, now, policy, index), last, baseName, now, policy, index);
    }
  }

  /** What a branch's unit needs once its verdict is in. */
  ghost predicate IsLinked(s: StoreState, t: StoreState, v: MergeVerdict) {
    && v.landingSha in t.branches
    && (t.branches[v.landingSha].IsLandingUnit() ==> NamesDiffOf(s, t, v.branch, v.landingSha))
  }

  lemma VerdictKeepsLink(s: StoreState, mid: StoreState, v: MergeVerdict, last: MergeVerdict, baseName: string, now: real,
                         policy: RetirementPolicy, index: map<string, LandingStep>)
    requires IsLinked(s, mid, v) && last.branch in mid.branches
    ensures IsLinked(s, AppliedVerdict(mid, last, baseName, now, policy, index), v)
  {
    VerdictNames(mid, last, baseName, now, policy, index);
    VerdictEffects(mid, last, baseName, now, policy, index);
  }

  lemma VerdictLinks(s: StoreState, mid: StoreState, v: MergeVerdict, baseName: string, now: real, policy: RetirementPolicy, index: map<string, LandingStep>)
    requires OnlyUnitsGrow(s, mid) && v.branch in mid.branches && !mid.branches[v.branch].IsLandingUnit()
    requires policy.autoRetireMerged && !mid.branches[v.branch].pinned
    ensures IsLinked(s, AppliedVerdict(mid, v, baseName, now, policy, index), v)
  {
    VerdictNames(mid, v, baseName, now, policy, index);
    assert RowsOf(mid.membership, v.branch) == RowsOf(s.membership, v.branch);
  }

  lemma {:induction false} VerdictsLink(s: StoreState, earlier: seq<MergeVerdict>, v: MergeVerdict, later: seq<MergeVerdict>, baseName: string,
                                        now: real, policy: RetirementPolicy, index: map<string, LandingStep>)
    requires VerdictsKnown(s.branches, earlier + [v] + later) && v.branch in s.branches
    requires forall i :: 0 <= i < |earlier| ==> earlier[i].branch != v.branch
    requires policy.autoRetireMerged && !s.branches[v.branch].pinned && !s.branches[v.branch].IsLandingUnit()
    ensures IsLinked(s, AppliedVerdicts(s, earlier + [v] + later, baseName, now, policy, index), v)
  {
    if later == [] {
      var all := earlier + [v];
      assert all + later == all && all[..|all| - 1] == earlier && forall u :: u in earlier ==> u in all;
      OtherRowStays(s, earlier, baseName, now, policy, index, v.branch);
      VerdictsByTable(s, earlier, baseName, now, policy, index);
      VerdictLinks(s, AppliedVerdicts(s, earlier, baseName, now, policy, index), v, baseName, now, policy, index);
    } else {
      var n := |later| - 1;
      var all, fewer := earlier + [v] + later, earlier + [v] + later[..n];
      assert all == fewer + [later[n]] && all[..|all| - 1] == fewer;
      assert later[n] in all && forall u :: u in fewer ==> u in all;
      VerdictsLink(s, earlier, v, later[..n], baseName, now, policy, index);
      VerdictKeepsLink(s, AppliedVerdicts(s, fewer, baseName, now, policy, index), v, later[n], baseName, now, policy, index);
    }
  }

  /** After a retirement transaction every branch it moved to MERGED has a row under its
      landing's sha which, when it is a landing unit, names every chunk of the branch's
      diff slice; and nobody has stopped naming a chunk. */
  lemma MovedIsLinked(s: StoreState, refs: RefSnapshot, served: Option<string>, seen: Option<string>, d: Option<Detection>,
                      verdicts: seq<MergeVerdict>, now: real, policy: RetirementPolicy, v: MergeVerdict)
    requires AreFindings(s.branches, refs, seen, d, verdicts) && VerdictsKnown(s.branches, verdicts) && NamesMatch(s.branches)
    requires v in verdicts && policy.autoRetireMerged && !s.branches[v.branch].pinned
    ensures var t := RetireStep(s, refs, served, d, verdicts, now, policy);
            && v.landingSha in t.branches
            && (t.branches[v.landingSha].IsLandingUnit() ==> NamesDiffOf(s, t, v.branch, v.landingSha))
            && NamingGrows(s, t)
  {
    FindingsAreCandidates(s.branches, refs, seen, d, verdicts);
    var i :| 0 <= i < |verdicts| && verdicts[i] == v;
    assert verdicts == verdicts[..i] + [v] + verdicts[i + 1..];
    VerdictsLink(s, verdicts[..i], v, verdicts[i + 1..], BaseNameOf(d), now, policy, IndexOf(d));
    VerdictsName(s, verdicts, BaseNameOf(d), now, policy, IndexOf(d));
    DeletingKeepsUnits(AppliedVerdicts(s, verdicts, BaseNameOf(d), now, policy, IndexOf(d)), KeptNames(refs, served), now, policy);
  }

  lemma DeletingKeepsUnits(s: StoreState, kept: set<string>, now: real, policy: RetirementPolicy)
    ensures var t := RetiredDeleted(s, kept, now, policy);
            && t.membership == s.membership && t.branches.Keys == s.branches.Keys
            && (forall n :: n in s.branches ==> (t.branches[n].IsLandingUnit() <==> s.branches[n].IsLandingUnit()))
            && forall n :: n in s.branches && s.branches[n].IsLandingUnit() ==> t.branches[n] == s.branches[n]
  {
  }

  /** What every landing of one run shares: the base, the clock, the policy and the index. */
  datatype Landings = Landings(baseName: string, now: real, policy: RetirementPolicy, index: map<string, LandingStep>)

  /** A verdict of the list moves a branch of `s`, and `unit` is its landing's record. */
  ghost predicate LandsAs(s: StoreState, verdicts: seq<MergeVerdict>, l: Landings, unit: BranchRecord) {
    exists v :: v in verdicts && v.branch in s.branches && !s.branches[v.branch].pinned && l.policy.autoRetireMerged
                && IsUnitFor(unit, v, l.index, s.branches[v.branch].pipelineHash, Some(l.baseName), l.now)
  }

  /** The row is in the diff slice of such a branch. */
  ghost predicate IsLandedDiff(s: StoreState, verdicts: seq<MergeVerdict>, l: Landings, unit: string, row: Membership) {
    exists v :: v in verdicts && v.branch in s.branches && !s.branches[v.branch].pinned && l.policy.autoRetireMerged && v.landingSha == unit
                && row in RowsOf(s.membership, v.branch) && row.slice == DiffSlice
  }

  /** New rows of `branches` are landings', new membership rows are landed diffs. */
  ghost predicate OnlyLandingsAdded(s: StoreState, t: StoreState, verdicts: seq<MergeVerdict>, l: Landings) {
    && (forall n :: n in t.branches && n !in s.branches ==> t.branches[n].name == n && LandsAs(s, verdicts, l, t.branches[n]))
    && (forall n, row :: row in RowsOf(t.membership, n) ==> row in RowsOf(s.membership, n) || IsLandedDiff(s, verdicts, l, n, row))
  }

  lemma MoreVerdictsLand(s: StoreState, t: StoreState, earlier: seq<MergeVerdict>, verdicts: seq<MergeVerdict>, l: Landings)
    requires OnlyLandingsAdded(s, t, earlier, l) && forall v :: v in earlier ==> v in verdicts
    ensures OnlyLandingsAdded(s, t, verdicts, l)
  {
    forall n | n in t.branches && n !in s.branches ensures LandsAs(s, verdicts, l, t.branches[n]) {
      assert LandsAs(s, earlier, l, t.branches[n]);
    }
    forall n, row | row in RowsOf(t.membership, n) ensures row in RowsOf(s.membership, n) || IsLandedDiff(s, verdicts, l, n, row) {
      assert IsLandedDiff(s, earlier, l, n, row) ==> IsLandedDiff(s, verdicts, l, n, row);
    }
  }

  lemma LinkAddsLandings(s: StoreState, mid: StoreState, v: MergeVerdict, merged: BranchRecord, verdicts: seq<MergeVerdict>, l: Landings)
    requires OnlyLandingsAdded(s, mid, verdicts, l) && v in verdicts
    requires v.branch in s.branches && !s.branches[v.branch].pinned && l.policy.autoRetireMerged
    requires merged.pipelineHash == s.branches[v.branch].pipelineHash && merged.mergedInto == Some(l.baseName)
    requires RowsOf(mid.membership, v.branch) == RowsOf(s.membership, v.branch)
    ensures OnlyLandingsAdded(s, LinkedLandingUnit(mid, v, l.index, merged, l.now), verdicts, l)
  {
    var t, sha := LinkedLandingUnit(mid, v, l.index, merged, l.now), v.landingSha;
    LinkExactly(mid, v, l.index, merged, l.now);
    forall n | n in t.branches && n !in s.branches ensures t.branches[n].name == n && LandsAs(s, verdicts, l, t.branches[n]) {
      if n !in mid.branches {
        assert IsUnitFor(t.branches[n], v, l.index, s.branches[v.branch].pipelineHash, Some(l.baseName), l.now);
      }
    }
    forall n, row | row in RowsOf(t.membership, n) ensures row in RowsOf(s.membership, n) || IsLandedDiff(s, verdicts, l, n, row) {
      if row !in RowsOf(mid.membership, n) {
        assert n == sha && row in RowsOf(s.membership, v.branch) && row.slice == DiffSlice;
      }
    }
  }

  lemma VerdictAddsLandings(s: StoreState, mid: StoreState, v: MergeVerdict, verdicts: seq<MergeVerdict>, l: Landings)
    requires OnlyLandingsAdded(s, mid, verdicts, l) && OnlyUnitsGrow(s, mid) && v in verdicts
    requires v.branch in s.branches && v.branch in mid.branches && mid.branches[v.branch] == s.branches[v.branch] && !s.branches[v.branch].IsLandingUnit()
    ensures OnlyLandingsAdded(s, AppliedVerdict(mid, v, l.baseName, l.now, l.policy, l.index), verdicts, l)
  {
    var after := VerdictRecord(mid.branches[v.branch], v, l.baseName, l.now, l.policy);
    var stamped := mid.(branches := mid.branches[v.branch := after]);
    assert OnlyLandingsAdded(s, stamped, verdicts, l);
    if Moves(mid.branches[v.branch], l.policy) {
      LinkAddsLandings(s, stamped, v, after, verdicts, l);
    }
  }

  lemma {:induction false} VerdictsAddLandings(s: StoreState, verdicts: seq<MergeVerdict>, l: Landings)
    requires VerdictsKnown(s.branches, verdicts) && DistinctBranches(verdicts)
    requires forall v :: v in verdicts ==> !s.branches[v.branch].IsLandingUnit()
    ensures OnlyLandingsAdded(s, AppliedVerdicts(s, verdicts, l.baseName, l.now, l.policy, l.index), verdicts, l)
  {
    if verdicts != [] {
      var earlier, last := verdicts[..|verdicts| - 1], verdicts[|verdicts| - 1];
      assert last in verdicts && forall u :: u in earlier ==> u in verdicts;
      VerdictsAddLandings(s, earlier, l);
      var mid := AppliedVerdicts(s, earlier, l.baseName, l.now, l.policy, l.index);
      OtherRowStays(s, earlier, l.baseName, l.now, l.policy, l.index, last.branch);
      VerdictsByTable(s, earlier, l.baseName, l.now, l.policy, l.index);
      MoreVerdictsLand(s, mid, earlier, verdicts, l);
      VerdictAddsLandings(s, mid, last, verdicts, l);
    }
  }

  /** A retirement transaction adds landing units only, each the record of a landing of a
      branch it moved, and to the membership only those branches' diff slices. */
  lemma UnitsAreLandings(s: StoreState, refs: RefSnapshot, served: Option<string>, seen: Option<string>, d: Option<Detection>,
                         verdicts: seq<MergeVerdict>, now: real, policy: RetirementPolicy)
    requires AreFindings(s.branches, refs, seen, d, verdicts) && VerdictsKnown(s.branches, verdicts) && NamesMatch(s.branches)
    ensures OnlyLandingsAdded(s, RetireStep(s, refs, served, d, verdicts, now, policy), verdicts, Landings(BaseNameOf(d), now, policy, IndexOf(d)))
  {
    var l := Landings(BaseNameOf(d), now, policy, IndexOf(d));
    FindingsAreCandidates(s.branches, refs, seen, d, verdicts);
    var mid := AppliedVerdicts(s, verdicts, BaseNameOf(d), now, policy, IndexOf(d));
    VerdictsAddLandings(s, verdicts, l);
    VerdictsAddUnits(s, verdicts, BaseNameOf(d), now, policy, IndexOf(d));
    DeletingKeepsUnits(mid, KeptNames(refs, served), now, policy);
    SameLandings(s, mid, RetireStep(s, refs, served, d, verdicts, now, policy), verdicts, l);
  }

  lemma SameLandings(s: StoreState, mid: StoreState, t: StoreState, verdicts: seq<MergeVerdict>, l: Landings)
    requires OnlyLandingsAdded(s, mid, verdicts, l) && OnlyUnitsAdded(s.branches, mid.branches)
    requires t.membership == mid.membership && t.branches.Keys == mid.branches.Keys
    requires forall n :: n in mid.branches && mid.branches[n].IsLandingUnit() ==> t.branches[n] == mid.branches[n]
    ensures OnlyLandingsAdded(s, t, verdicts, l)
  {
    forall n | n in t.branches && n !in s.branches ensures t.branches[n].name == n && LandsAs(s, verdicts, l, t.branches[n]) {
      assert n in mid.branches && IsNewUnit(mid.branches[n], n);
    }
  }

  // ----- the grace purge

  /** The grace purge takes exactly the rows of the unprotected, unpinned branches out of
      service whose purge date has come; it writes no record and touches nobody else. */
  lemma PurgedExactly(s: StoreState, refs: RefSnapshot, served: Option<string>, now: real, n: string)
    requires NamesMatch(s.branches)
    ensures var t := PurgeStep(s, refs, served, now);
            var due := && n in s.branches && s.branches[n].status in {Inactive, Merged, Deleted}
                       && !s.branches[n].pinned && s.branches[n].landingKind.None?
                       && n !in refs.checkedOut && served != Some(n)
                       && s.branches[n].purgeAfter.Some? && s.branches[n].purgeAfter.value <= now
                       && (RowsOf(s.membership, n) != [] || RowsOf(s.files, n) != []);
            && t.branches == s.branches
            && (due <==> n in DueNames(s, now, ProtectedNames(refs, served)))
            && (due ==> RowsOf(t.membership, n) == [] && RowsOf(t.files, n) == [] && RowsOf(t.trees, n) == [])
            && (!due ==> SameBranchView(s, t, n))
  {
    var names := DueNames(s, now, ProtectedNames(refs, served));
    if names != {} && n !in names {
      PurgeIsolates(s, names, n);
    }
  }
}
