/** Claims about one maintenance run: what it never touches, MERGED before DELETED,
    and that a second run with the same refs and time changes nothing. */
module MaintenanceTheorems {
  import opened Common
  import opened BranchRecords
  import opened BundleTables
  import opened BranchPass
  import opened StoreInvariant
  import opened Retirement

  ghost predicate NamesMatch(branches: map<string, BranchRecord>) {
    forall n :: n in branches ==> branches[n].name == n
  }

  // ----- what the verdicts do, row by row

  ghost predicate DistinctBranches(verdicts: seq<MergeVerdict>) {
    forall i, j :: 0 <= i < j < |verdicts| ==> verdicts[i].branch != verdicts[j].branch
  }

  /** A landing unit's row as the MERGED transition creates it. */
  predicate IsNewUnit(record: BranchRecord, name: string) {
    && record.name == name && record.IsLandingUnit() && !record.isDefault && record.status == Active
    && record.retiredAt == None && record.purgeAfter == None
  }

  /** No row is lost and every new one is a landing unit's. */
  ghost predicate OnlyUnitsAdded(before: map<string, BranchRecord>, after: map<string, BranchRecord>) {
    && before.Keys <= after.Keys
    && forall n :: n in after && n !in before ==> IsNewUnit(after[n], n)
  }

  /** Beside `branches`, only the membership of landing units differs. */
  ghost predicate OnlyUnitsGrow(s: StoreState, t: StoreState) {
    && t.chunks == s.chunks && t.vectors == s.vectors && t.files == s.files && t.cache == s.cache && t.trees == s.trees
    && forall b :: RowsOf(t.membership, b) == RowsOf(s.membership, b) || (b in t.branches && t.branches[b].IsLandingUnit())
  }

  lemma CopyReaches(membership: map<string, seq<Membership>>, source: string, target: string, slice: Slice)
    ensures forall b :: b != target ==> RowsOf(CopiedMembership(membership, source, target, slice), b) == RowsOf(membership, b)
  {
  }

  lemma UnitAdded(s: StoreState, sha: string, record: BranchRecord, grown: map<string, seq<Membership>>)
    requires IsNewUnit(record, sha) && sha !in s.branches
    requires forall b :: b != sha ==> RowsOf(grown, b) == RowsOf(s.membership, b)
    ensures var t := s.(branches := s.branches[sha := record]).(membership := grown);
            OnlyUnitsAdded(s.branches, t.branches) && OnlyUnitsGrow(s, t)
  {
  }

  lemma UnitGrown(s: StoreState, sha: string, grown: map<string, seq<Membership>>)
    requires sha in s.branches && s.branches[sha].IsLandingUnit()
    requires forall b :: b != sha ==> RowsOf(grown, b) == RowsOf(s.membership, b)
    ensures OnlyUnitsGrow(s, s.(membership := grown))
  {
  }

  /** Linking adds at most the unit's row and changes at most its membership. */
  lemma LinkEffects(s: StoreState, v: MergeVerdict, index: map<string, LandingStep>, merged: BranchRecord, now: real)
    ensures var t := LinkedLandingUnit(s, v, index, merged, now);
            && OnlyUnitsAdded(s.branches, t.branches) && OnlyUnitsGrow(s, t)
            && (forall n :: n in s.branches ==> t.branches[n] == s.branches[n])
  {
    var sha := v.landingSha;
    var grown := CopiedMembership(s.membership, v.branch, sha, DiffSlice);
    CopyReaches(s.membership, v.branch, sha, DiffSlice);
    if sha !in s.branches {
      UnitAdded(s, sha, LandingUnitRecord(v, index, merged, now), grown);
    } else if s.branches[sha].IsLandingUnit() {
      UnitGrown(s, sha, grown);
    }
  }

  lemma VerdictEffects(s: StoreState, v: MergeVerdict, baseName: string, now: real, policy: RetirementPolicy, index: map<string, LandingStep>)
    requires v.branch in s.branches
    ensures var t := AppliedVerdict(s, v, baseName, now, policy, index);
            && OnlyUnitsAdded(s.branches, t.branches) && OnlyUnitsGrow(s, t)
            && t.branches[v.branch] == VerdictRecord(s.branches[v.branch], v, baseName, now, policy)
            && (forall n :: n in s.branches && n != v.branch ==> t.branches[n] == s.branches[n])
  {
    var after := VerdictRecord(s.branches[v.branch], v, baseName, now, policy);
    LinkEffects(s.(branches := s.branches[v.branch := after]), v, index, after, now);
  }

  lemma {:induction false} VerdictsAddUnits(s: StoreState, verdicts: seq<MergeVerdict>, baseName: string, now: real,
                                            policy: RetirementPolicy, index: map<string, LandingStep>)
    requires VerdictsKnown(s.branches, verdicts)
    ensures OnlyUnitsAdded(s.branches, AppliedVerdicts(s, verdicts, baseName, now, policy, index).branches)
  {
    if verdicts != [] {
      var last, earlier := verdicts[|verdicts| - 1], verdicts[..|verdicts| - 1];
      assert last in verdicts && forall v :: v in earlier ==> v in verdicts;
      VerdictsAddUnits(s, earlier, baseName, now, policy, index);
      VerdictKeepsNew(s.branches, AppliedVerdicts(s, earlier, baseName, now, policy, index), last, baseName, now, policy, index);
    }
  }

  lemma VerdictKeepsNew(before: map<string, BranchRecord>, mid: StoreState, v: MergeVerdict, baseName: string, now: real,
                        policy: RetirementPolicy, index: map<string, LandingStep>)
    requires OnlyUnitsAdded(before, mid.branches) && v.branch in before
    ensures OnlyUnitsAdded(before, AppliedVerdict(mid, v, baseName, now, policy, index).branches)
  {
    VerdictEffects(mid, v, baseName, now, policy, index);
  }

  /** A row no verdict concerns is as it was. */
  lemma {:induction false} OtherRowStays(s: StoreState, verdicts: seq<MergeVerdict>, baseName: string, now: real,
                                         policy: RetirementPolicy, index: map<string, LandingStep>, n: string)
    requires VerdictsKnown(s.branches, verdicts) && n in s.branches
    requires forall i :: 0 <= i < |verdicts| ==> verdicts[i].branch != n
    ensures AppliedVerdicts(s, verdicts, baseName, now, policy, index).branches[n] == s.branches[n]
  {
    if verdicts != [] {
      var last, earlier := verdicts[|verdicts| - 1], verdicts[..|verdicts| - 1];
      assert last in verdicts && forall v :: v in earlier ==> v in verdicts;
      OtherRowStays(s, earlier, baseName, now, policy, index, n);
      VerdictEffects(AppliedVerdicts(s, earlier, baseName, now, policy, index), last, baseName, now, policy, index);
    }
  }

  /** A verdict's own row is stamped, and moved when the policy and the pin allow. */
  lemma {:induction false} VerdictRowMoves(s: StoreState, earlier: seq<MergeVerdict>, v: MergeVerdict, later: seq<MergeVerdict>, baseName: string,
                                           now: real, policy: RetirementPolicy, index: map<string, LandingStep>)
    requires VerdictsKnown(s.branches, earlier + [v] + later) && v.branch in s.branches
    requires forall i :: 0 <= i < |earlier| ==> earlier[i].branch != v.branch
    requires forall i :: 0 <= i < |later| ==> later[i].branch != v.branch
    ensures AppliedVerdicts(s, earlier + [v] + later, baseName, now, policy, index).branches[v.branch]
            == VerdictRecord(s.branches[v.branch], v, baseName, now, policy)
  {
    if later == [] {
      var all := earlier + [v];
      assert all + later == all && all[..|all| - 1] == earlier && forall u :: u in earlier ==> u in all;
      OtherRowStays(s, earlier, baseName, now, policy, index, v.branch);
      VerdictEffects(AppliedVerdicts(s, earlier, baseName, now, policy, index), v, baseName, now, policy, index);
    } else {
      var n := |later| - 1;
      var all, fewer := earlier + [v] + later, earlier + [v] + later[..n];
      assert all == fewer + [later[n]] && all[..|all| - 1] == fewer;
      assert later[n] in all && forall u :: u in fewer ==> u in all;
      VerdictRowMoves(s, earlier, v, later[..n], baseName, now, policy, index);
      VerdictEffects(AppliedVerdicts(s, fewer, baseName, now, policy, index), later[n], baseName, now, policy, index);
    }
  }

  /** The record under each name once the verdicts are applied: a verdict's own branch is
      stamped and perhaps moved, any other existing row is as it was. */
  lemma VerdictsByRow(s: StoreState, verdicts: seq<MergeVerdict>, baseName: string, now: real,
                      policy: RetirementPolicy, index: map<string, LandingStep>)
    requires VerdictsKnown(s.branches, verdicts) && DistinctBranches(verdicts)
    ensures var t := AppliedVerdicts(s, verdicts, baseName, now, policy, index);
            && OnlyUnitsAdded(s.branches, t.branches)
            && (forall v :: v in verdicts ==> t.branches[v.branch] == VerdictRecord(s.branches[v.branch], v, baseName, now, policy))
            && (forall n :: n in s.branches && (forall v :: v in verdicts ==> v.branch != n) ==> t.branches[n] == s.branches[n])
  {
    var t := AppliedVerdicts(s, verdicts, baseName, now, policy, index);
    VerdictsAddUnits(s, verdicts, baseName, now, policy, index);
    forall v | v in verdicts ensures t.branches[v.branch] == VerdictRecord(s.branches[v.branch], v, baseName, now, policy) {
      var i :| 0 <= i < |verdicts| && verdicts[i] == v;
      assert verdicts == verdicts[..i] + [v] + verdicts[i + 1..];
      VerdictRowMoves(s, verdicts[..i], v, verdicts[i + 1..], baseName, now, policy, index);
    }
    forall n | n in s.branches && (forall v :: v in verdicts ==> v.branch != n) ensures t.branches[n] == s.branches[n] {
      assert forall i :: 0 <= i < |verdicts| ==> verdicts[i] in verdicts;
      OtherRowStays(s, verdicts, baseName, now, policy, index, n);
    }
  }

  ghost predicate UnitsStay(before: map<string, BranchRecord>, after: map<string, BranchRecord>) {
    forall n :: n in before && before[n].IsLandingUnit() ==> n in after && after[n].IsLandingUnit()
  }

  lemma GrowthComposes(s: StoreState, mid: StoreState, t: StoreState)
    requires OnlyUnitsGrow(s, mid) && OnlyUnitsGrow(mid, t) && UnitsStay(mid.branches, t.branches)
    ensures OnlyUnitsGrow(s, t)
  {
  }

  lemma VerdictKeepsUnits(s: StoreState, v: MergeVerdict, baseName: string, now: real, policy: RetirementPolicy, index: map<string, LandingStep>)
    requires v.branch in s.branches
    ensures UnitsStay(s.branches, AppliedVerdict(s, v, baseName, now, policy, index).branches)
  {
    VerdictEffects(s, v, baseName, now, policy, index);
  }

  lemma {:induction false} VerdictsByTable(s: StoreState, verdicts: seq<MergeVerdict>, baseName: string, now: real,
                                           policy: RetirementPolicy, index: map<string, LandingStep>)
    requires VerdictsKnown(s.branches, verdicts)
    ensures OnlyUnitsGrow(s, AppliedVerdicts(s, verdicts, baseName, now, policy, index))
  {
    if verdicts != [] {
      var last, earlier := verdicts[|verdicts| - 1], verdicts[..|verdicts| - 1];
      assert last in verdicts && forall v :: v in earlier ==> v in verdicts;
      VerdictsByTable(s, earlier, baseName, now, policy, index);
      var mid := AppliedVerdicts(s, earlier, baseName, now, policy, index);
      VerdictEffects(mid, last, baseName, now, policy, index);
      VerdictKeepsUnits(mid, last, baseName, now, policy, index);
      GrowthComposes(s, mid, AppliedVerdicts(s, verdicts, baseName, now, policy, index));
    }
  }

  /** Findings concern candidates only, so never a landing unit. */
  lemma FindingsAreCandidates(branches: map<string, BranchRecord>, refs: RefSnapshot, served: Option<string>, d: Option<Detection>, verdicts: seq<MergeVerdict>)
    requires AreFindings(branches, refs, served, d, verdicts)
    ensures VerdictsKnown(branches, verdicts) && DistinctBranches(verdicts)
    ensures forall v :: v in verdicts ==>
              d.Some? && IsCandidate(branches[v.branch], refs, served, d.value.baseName)
              && d.value.verdictFor(v.branch, branches[v.branch].headSha) == Some(v)
  {
  }

  // ----- a landed branch whose ref is gone

  /** An unpinned branch with a verdict ends MERGED when auto-retire is on, never
      DELETED, although its ref is gone too. */
  lemma MergedBeatsDeleted(s: StoreState, refs: RefSnapshot, served: Option<string>, d: Option<Detection>, verdicts: seq<MergeVerdict>,
                           now: real, policy: RetirementPolicy, v: MergeVerdict)
    requires AreFindings(s.branches, refs, served, d, verdicts) && v in verdicts
    requires VerdictsKnown(s.branches, verdicts)
    requires policy.autoRetireMerged && !s.branches[v.branch].pinned
    ensures var t := RetireStep(s, refs, served, d, verdicts, now, policy);
            v.branch in t.branches && t.branches[v.branch].status == Merged
            && t.branches[v.branch].mergedInto == Some(BaseNameOf(d)) && t.branches[v.branch].landingSha == Some(v.landingSha)
  {
    FindingsAreCandidates(s.branches, refs, served, d, verdicts);
    VerdictsByRow(s, verdicts, BaseNameOf(d), now, policy, IndexOf(d));
  }

  // ----- what a run never touches

  /** A row the run must leave alone. */
  predicate IsSpared(s: StoreState, refs: RefSnapshot, served: Option<string>, n: string) {
    n in s.branches && (s.branches[n].pinned || n in ProtectedNames(refs, served) || s.branches[n].IsLandingUnit())
  }

  /** Two records differ at most in the evidence columns. */
  predicate SameButEvidence(a: BranchRecord, b: BranchRecord) {
    a.(mergeEvidence := None, landingSha := None) == b.(mergeEvidence := None, landingSha := None)
  }

  lemma VerdictsSpare(s: StoreState, refs: RefSnapshot, served: Option<string>, d: Option<Detection>, verdicts: seq<MergeVerdict>,
                      now: real, policy: RetirementPolicy, n: string)
    requires AreFindings(s.branches, refs, served, d, verdicts) && VerdictsKnown(s.branches, verdicts)
    requires NamesMatch(s.branches) && IsSpared(s, refs, served, n)
    ensures var mid := AppliedVerdicts(s, verdicts, BaseNameOf(d), now, policy, IndexOf(d));
            n in mid.branches && SameButEvidence(mid.branches[n], s.branches[n])
  {
    FindingsAreCandidates(s.branches, refs, served, d, verdicts);
    VerdictsByRow(s, verdicts, BaseNameOf(d), now, policy, IndexOf(d));
    if v :| v in verdicts && v.branch == n {
      assert s.branches[n].pinned;
    }
  }

  /** The retirement transaction changes no status among pinned, protected and
      landing-unit rows: at most a pinned row's evidence columns. */
  lemma RetireSpares(s: StoreState, refs: RefSnapshot, served: Option<string>, d: Option<Detection>, verdicts: seq<MergeVerdict>,
                     now: real, policy: RetirementPolicy, n: string)
    requires AreFindings(s.branches, refs, served, d, verdicts) && VerdictsKnown(s.branches, verdicts)
    requires NamesMatch(s.branches) && IsSpared(s, refs, served, n)
    ensures var t := RetireStep(s, refs, served, d, verdicts, now, policy);
            n in t.branches && SameButEvidence(t.branches[n], s.branches[n])
  {
    VerdictsSpare(s, refs, served, d, verdicts, now, policy, n);
    var mid := AppliedVerdicts(s, verdicts, BaseNameOf(d), now, policy, IndexOf(d));
    SparedIsNotGone(mid.branches[n], s.branches[n], KeptNames(refs, served));
  }

  lemma SparedIsNotGone(after: BranchRecord, before: BranchRecord, kept: set<string>)
    requires SameButEvidence(after, before)
    requires before.pinned || before.name in kept || before.IsLandingUnit()
    ensures !IsGone(after, kept)
  {
    assert after.(mergeEvidence := None, landingSha := None).pinned == after.pinned;
    assert before.(mergeEvidence := None, landingSha := None).pinned == before.pinned;
  }

  /** It takes no branch's files or trees, and nobody's membership but that a landing
      unit's may grow. */
  lemma RetireKeepsRows(s: StoreState, refs: RefSnapshot, served: Option<string>, d: Option<Detection>, verdicts: seq<MergeVerdict>,
                        now: real, policy: RetirementPolicy)
    requires VerdictsKnown(s.branches, verdicts)
    ensures OnlyUnitsGrow(s, RetireStep(s, refs, served, d, verdicts, now, policy))
  {
    VerdictsByTable(s, verdicts, BaseNameOf(d), now, policy, IndexOf(d));
  }

  /** The purge transaction takes no row from a pinned, protected or landing-unit
      branch and writes no record. */
  lemma PurgeSpares(s: StoreState, refs: RefSnapshot, served: Option<string>, now: real, n: string)
    requires NamesMatch(s.branches) && IsSpared(s, refs, served, n)
    ensures n !in DueNames(s, now, ProtectedNames(refs, served))
    ensures SameBranchView(s, PurgeStep(s, refs, served, now), n) && PurgeStep(s, refs, served, now).branches == s.branches
  {
    var due := DueNames(s, now, ProtectedNames(refs, served));
    if due != {} {
      PurgeIsolates(s, due, n);
    }
  }

  // ----- a second run is inert

  /** What no row of a store is any more, after a run's retirement. */
  ghost predicate NothingToRetire(s: StoreState, refs: RefSnapshot, served: Option<string>, d: Option<Detection>, policy: RetirementPolicy) {
    && GoneNames(s.branches, KeptNames(refs, served), policy) == {}
    && (d.Some? ==> forall n :: n in s.branches && IsCandidate(s.branches[n], refs, served, d.value.baseName) ==>
          var v := d.value.verdictFor(n, s.branches[n].headSha);
          v.Some? ==> !Moves(s.branches[n], policy) && s.branches[n].mergeEvidence == Some(v.value.evidence)
                      && s.branches[n].landingSha == Some(v.value.landingSha))
  }

  /** A candidate with a verdict after the run carried the verdict into it. */
  lemma CandidateWasFound(s: StoreState, refs: RefSnapshot, served: Option<string>, d: Detection, verdicts: seq<MergeVerdict>,
                          now: real, policy: RetirementPolicy, n: string, v: MergeVerdict)
    requires AreFindings(s.branches, refs, served, Some(d), verdicts) && VerdictsKnown(s.branches, verdicts) && NamesMatch(s.branches)
    requires var t := RetireStep(s, refs, served, Some(d), verdicts, now, policy);
             n in t.branches && IsCandidate(t.branches[n], refs, served, d.baseName) && d.verdictFor(n, t.branches[n].headSha) == Some(v)
    ensures var after := RetireStep(s, refs, served, Some(d), verdicts, now, policy).branches[n];
            !Moves(after, policy) && after.mergeEvidence == Some(v.evidence) && after.landingSha == Some(v.landingSha)
  {
    FindingsAreCandidates(s.branches, refs, served, Some(d), verdicts);
    VerdictsByRow(s, verdicts, d.baseName, now, policy, d.index);
    var mid := AppliedVerdicts(s, verdicts, d.baseName, now, policy, d.index);
    var t := RetireStep(s, refs, served, Some(d), verdicts, now, policy);
    assert t.branches[n] == mid.branches[n];
    assert v.branch == n;
    if u :| u in verdicts && u.branch == n {
      assert mid.branches[n] == VerdictRecord(s.branches[n], u, d.baseName, now, policy);
    }
  }

  /** The columns no retirement writes. */
  predicate SameStamp(before: BranchRecord, after: BranchRecord) {
    after.name == before.name && after.isDefault == before.isDefault && after.indexedAt == before.indexedAt
  }

  /** Every row keeps its stamp, and every new row is a landing unit's. */
  ghost predicate StampsKept(before: map<string, BranchRecord>, after: map<string, BranchRecord>) {
    && before.Keys <= after.Keys
    && forall n :: n in after ==> if n in before then SameStamp(before[n], after[n]) else IsNewUnit(after[n], n)
  }

  lemma VerdictsKeepStamps(s: StoreState, verdicts: seq<MergeVerdict>, baseName: string, now: real, policy: RetirementPolicy, index: map<string, LandingStep>)
    requires VerdictsKnown(s.branches, verdicts) && DistinctBranches(verdicts)
    ensures StampsKept(s.branches, AppliedVerdicts(s, verdicts, baseName, now, policy, index).branches)
  {
    VerdictsByRow(s, verdicts, baseName, now, policy, index);
    var t := AppliedVerdicts(s, verdicts, baseName, now, policy, index);
    forall n | n in s.branches ensures SameStamp(s.branches[n], t.branches[n]) {
      if v :| v in verdicts && v.branch == n {
        assert t.branches[n] == VerdictRecord(s.branches[n], v, baseName, now, policy);
      }
    }
  }

  lemma DeletedKeepStamps(s: StoreState, kept: set<string>, now: real, policy: RetirementPolicy)
    ensures StampsKept(s.branches, RetiredDeleted(s, kept, now, policy).branches)
    ensures RetiredDeleted(s, kept, now, policy).branches.Keys == s.branches.Keys
  {
  }

  lemma DeletedSparesUnits(s: StoreState, kept: set<string>, now: real, policy: RetirementPolicy)
    ensures var t := RetiredDeleted(s, kept, now, policy);
            forall n :: n in s.branches && s.branches[n].IsLandingUnit() ==> n in t.branches && t.branches[n] == s.branches[n]
  {
  }

  lemma RetireKeepsStamps(s: StoreState, refs: RefSnapshot, served: Option<string>, d: Option<Detection>, verdicts: seq<MergeVerdict>,
                          now: real, policy: RetirementPolicy)
    requires VerdictsKnown(s.branches, verdicts) && DistinctBranches(verdicts)
    ensures StampsKept(s.branches, RetireStep(s, refs, served, d, verdicts, now, policy).branches)
  {
    var mid := AppliedVerdicts(s, verdicts, BaseNameOf(d), now, policy, IndexOf(d));
    VerdictsKeepStamps(s, verdicts, BaseNameOf(d), now, policy, IndexOf(d));
    DeletedKeepStamps(mid, KeptNames(refs, served), now, policy);
    DeletedSparesUnits(mid, KeptNames(refs, served), now, policy);
  }

  lemma RetireKeepsNames(s: StoreState, refs: RefSnapshot, served: Option<string>, d: Option<Detection>, verdicts: seq<MergeVerdict>,
                         now: real, policy: RetirementPolicy)
    requires AreFindings(s.branches, refs, served, d, verdicts) && VerdictsKnown(s.branches, verdicts) && NamesMatch(s.branches)
    ensures NamesMatch(RetireStep(s, refs, served, d, verdicts, now, policy).branches)
  {
    RetireKeepsStamps(s, refs, served, d, verdicts, now, policy);
  }

  lemma NobodyGoneTwice(s: StoreState, kept: set<string>, now: real, policy: RetirementPolicy)
    ensures GoneNames(RetiredDeleted(s, kept, now, policy).branches, kept, policy) == {}
  {
  }

  lemma RetireLeavesNothing(s: StoreState, refs: RefSnapshot, served: Option<string>, d: Option<Detection>, verdicts: seq<MergeVerdict>,
                            now: real, policy: RetirementPolicy)
    requires AreFindings(s.branches, refs, served, d, verdicts) && VerdictsKnown(s.branches, verdicts) && NamesMatch(s.branches)
    ensures NothingToRetire(RetireStep(s, refs, served, d, verdicts, now, policy), refs, served, d, policy)
  {
    var mid := AppliedVerdicts(s, verdicts, BaseNameOf(d), now, policy, IndexOf(d));
    NobodyGoneTwice(mid, KeptNames(refs, served), now, policy);
    var t := RetireStep(s, refs, served, d, verdicts, now, policy);
    if d.Some? {
      forall n | n in t.branches && IsCandidate(t.branches[n], refs, served, d.value.baseName)
                 && d.value.verdictFor(n, t.branches[n].headSha).Some?
        ensures var v := d.value.verdictFor(n, t.branches[n].headSha).value;
                !Moves(t.branches[n], policy) && t.branches[n].mergeEvidence == Some(v.evidence)
                && t.branches[n].landingSha == Some(v.landingSha)
      {
        CandidateWasFound(s, refs, served, d.value, verdicts, now, policy, n, d.value.verdictFor(n, t.branches[n].headSha).value);
      }
    }
  }

  /** Verdicts for rows that do not move and carry the evidence already change nothing. */
  lemma {:induction false} RestampingIsInert(s: StoreState, verdicts: seq<MergeVerdict>, baseName: string, now: real,
                                             policy: RetirementPolicy, index: map<string, LandingStep>)
    requires VerdictsKnown(s.branches, verdicts)
    requires forall v :: v in verdicts ==>
               !Moves(s.branches[v.branch], policy) && s.branches[v.branch].mergeEvidence == Some(v.evidence)
               && s.branches[v.branch].landingSha == Some(v.landingSha)
    ensures AppliedVerdicts(s, verdicts, baseName, now, policy, index) == s
    ensures MovedBy(s.branches, verdicts, policy) == []
  {
    if verdicts != [] {
      var last, earlier := verdicts[|verdicts| - 1], verdicts[..|verdicts| - 1];
      assert last in verdicts && forall v :: v in earlier ==> v in verdicts;
      RestampingIsInert(s, earlier, baseName, now, policy, index);
      var record := s.branches[last.branch];
      assert VerdictRecord(record, last, baseName, now, policy) == record;
      assert s.branches[last.branch := record] == s.branches;
    }
  }

  /** A run's purge leaves nothing due at the same time. */
  lemma PurgeLeavesNothingDue(s: StoreState, refs: RefSnapshot, served: Option<string>, now: real)
    ensures DueNames(PurgeStep(s, refs, served, now), now, ProtectedNames(refs, served)) == {}
    ensures PurgeStep(s, refs, served, now).branches == s.branches
  {
    var spared := ProtectedNames(refs, served);
    var due, t := DueNames(s, now, spared), PurgeStep(s, refs, served, now);
    forall n | n in t.branches && IsPurgeDue(t.branches[n], now, spared) && OwnsRows(t, n) ensures false {
      assert n !in due;
      assert OwnsRows(s, n);
    }
  }

  /** The served row stays the same choice through a run. */
  lemma RunKeepsServed(s: StoreState, refs: RefSnapshot, served: Option<string>, d: Option<Detection>, verdicts: seq<MergeVerdict>,
                       now: real, policy: RetirementPolicy)
    requires AreFindings(s.branches, refs, served, d, verdicts) && VerdictsKnown(s.branches, verdicts)
    requires ServedName(s.branches, served)
    ensures ServedName(RetireStep(s, refs, served, d, verdicts, now, policy).branches, served)
    ensures var t := RetireStep(s, refs, served, d, verdicts, now, policy);
            forall n :: n in t.branches && t.branches[n].isDefault ==>
              n in s.branches && s.branches[n].isDefault && t.branches[n].indexedAt == s.branches[n].indexedAt
  {
    RetireKeepsStamps(s, refs, served, d, verdicts, now, policy);
    SameStampsSameChoice(s.branches, RetireStep(s, refs, served, d, verdicts, now, policy).branches, served);
  }

  lemma SameStampsSameChoice(before: map<string, BranchRecord>, after: map<string, BranchRecord>, served: Option<string>)
    requires StampsKept(before, after) && ServedName(before, served)
    ensures ServedName(after, served)
    ensures forall n :: n in after && after[n].isDefault ==> n in before && before[n].isDefault && after[n].indexedAt == before[n].indexedAt
  {
  }

  /** The fixpoint when every read of both runs gives one served name. */
  lemma FixpointForOneServed(s: StoreState, refs: RefSnapshot, served: Option<string>, d: Option<Detection>,
                              first: seq<MergeVerdict>, again: seq<MergeVerdict>, now: real, policy: RetirementPolicy)
    requires NamesMatch(s.branches) && ServedName(s.branches, served)
    requires AreFindings(s.branches, refs, served, d, first) && VerdictsKnown(s.branches, first)
    requires AreFindings(PurgeStep(RetireStep(s, refs, served, d, first, now, policy), refs, served, now).branches, refs, served, d, again)
    ensures var t := PurgeStep(RetireStep(s, refs, served, d, first, now, policy), refs, served, now);
            && ServedName(t.branches, served) && VerdictsKnown(t.branches, again)
            && RetireStep(t, refs, served, d, again, now, policy) == t
            && MovedBy(t.branches, again, policy) == []
            && GoneNames(t.branches, KeptNames(refs, served), policy) == {}
            && DueNames(t, now, ProtectedNames(refs, served)) == {}
            && PurgeStep(t, refs, served, now) == t
  {
    var mid := RetireStep(s, refs, served, d, first, now, policy);
    var t := PurgeStep(mid, refs, served, now);
    RetireLeavesNothing(s, refs, served, d, first, now, policy);
    RunKeepsServed(s, refs, served, d, first, now, policy);
    PurgeLeavesNothingDue(mid, refs, served, now);
    FindingsAreCandidates(t.branches, refs, served, d, again);
    RestampingIsInert(t, again, BaseNameOf(d), now, policy, IndexOf(d));
    assert RetiredDeleted(t, KeptNames(refs, served), now, policy).branches == t.branches;
  }

  /** No two default rows share a stamp, so the served row is the only one it can be. */
  predicate NoTie(branches: map<string, BranchRecord>) {
    forall m, n :: m in branches && n in branches && branches[m].isDefault && branches[n].isDefault && branches[m].indexedAt == branches[n].indexedAt ==>
      m == n
  }

  lemma NoTieOneServed(branches: map<string, BranchRecord>, a: Option<string>, b: Option<string>)
    requires NoTie(branches) && ServedName(branches, a) && ServedName(branches, b)
    ensures a == b
  {
  }

  lemma RunKeepsNoTie(s: StoreState, refs: RefSnapshot, served: Option<string>, d: Option<Detection>, verdicts: seq<MergeVerdict>,
                      now: real, policy: RetirementPolicy)
    requires AreFindings(s.branches, refs, served, d, verdicts) && VerdictsKnown(s.branches, verdicts)
    requires ServedName(s.branches, served) && NoTie(s.branches)
    ensures NoTie(RetireStep(s, refs, served, d, verdicts, now, policy).branches)
    ensures NoTie(PurgeStep(RetireStep(s, refs, served, d, verdicts, now, policy), refs, served, now).branches)
  {
    RunKeepsServed(s, refs, served, d, verdicts, now, policy);
    PurgeLeavesNothingDue(RetireStep(s, refs, served, d, verdicts, now, policy), refs, served, now);
  }

  /** One read of the served name for each transaction of a run. */
  datatype Reads = Reads(seen: Option<string>, served: Option<string>, last: Option<string>)

  /** Maintenance is a fixpoint: whatever the first run did, a second run over the same
      refs, with the same answers from git and at the same time, changes no table and
      reports nothing moved and nothing purged; a grace of zero included. Each transaction
      of both runs reads the served name for itself. */
  lemma MaintenanceIsFixpoint(s: StoreState, refs: RefSnapshot, d: Option<Detection>, one: Reads, two: Reads,
                              first: seq<MergeVerdict>, again: seq<MergeVerdict>, now: real, policy: RetirementPolicy)
    requires NamesMatch(s.branches) && NoTie(s.branches) && ServedName(s.branches, one.seen) && ServedName(s.branches, one.served)
    requires AreFindings(s.branches, refs, one.seen, d, first) && VerdictsKnown(s.branches, first)
    requires ServedName(RetireStep(s, refs, one.served, d, first, now, policy).branches, one.last)
    requires var t := PurgeStep(RetireStep(s, refs, one.served, d, first, now, policy), refs, one.last, now);
             && ServedName(t.branches, two.seen) && ServedName(t.branches, two.served)
             && AreFindings(t.branches, refs, two.seen, d, again) && VerdictsKnown(t.branches, again)
             && ServedName(RetireStep(t, refs, two.served, d, again, now, policy).branches, two.last)
    ensures var t := PurgeStep(RetireStep(s, refs, one.served, d, first, now, policy), refs, one.last, now);
            && RetireStep(t, refs, two.served, d, again, now, policy) == t
            && MovedBy(t.branches, again, policy) == []
            && GoneNames(t.branches, KeptNames(refs, two.served), policy) == {}
            && DueNames(t, now, ProtectedNames(refs, two.last)) == {}
            && PurgeStep(t, refs, two.last, now) == t
  {
    var served := one.served;
    var mid := RetireStep(s, refs, served, d, first, now, policy);
    NoTieOneServed(s.branches, one.seen, served);
    RunKeepsServed(s, refs, served, d, first, now, policy);
    RunKeepsNoTie(s, refs, served, d, first, now, policy);
    NoTieOneServed(mid.branches, one.last, served);
    var t := PurgeStep(mid, refs, served, now);
    PurgeLeavesNothingDue(mid, refs, served, now);
    NoTieOneServed(t.branches, two.seen, served);
    NoTieOneServed(t.branches, two.served, served);
    FixpointForOneServed(s, refs, served, d, first, again, now, policy);
    NoTieOneServed(t.branches, two.last, served);
  }
}
