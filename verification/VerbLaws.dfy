/** What each operator verb writes, column by column, and whom it refuses. */
module VerbLaws {
  import opened Common
  import opened BranchRecords
  import opened BundleTables
  import opened BranchPass
  import opened PassTheorems
  import opened Retirement
  import opened MaintenanceTheorems

  /** Every column but the pin and the three of the retirement. */
  predicate SameButLifecycle(a: BranchRecord, b: BranchRecord) {
    && a.name == b.name && a.headSha == b.headSha && a.source == b.source && a.pipelineHash == b.pipelineHash
    && a.indexedAt == b.indexedAt && a.lastUsedAt == b.lastUsedAt && a.isDefault == b.isDefault
    && a.baseName == b.baseName && a.mergeBaseSha == b.mergeBaseSha && a.worktreePath == b.worktreePath
    && a.mergedInto == b.mergedInto && a.landingKind == b.landingKind && a.landedAt == b.landedAt
    && a.mergeEvidence == b.mergeEvidence && a.landingSha == b.landingSha
  }

  predicate SameDates(a: BranchRecord, b: BranchRecord) {
    a.status == b.status && a.retiredAt == b.retiredAt && a.purgeAfter == b.purgeAfter
  }

  /** The row after a verb: Pin and Unpin set the pin and nothing else; Retire takes an
      Active row out of service and dates any row anew, with the policy's whole days of
      grace; Purge does so, with none, to an Active row only. */
  predicate VerbRow(before: BranchRecord, after: BranchRecord, verb: Verb, now: real, policy: RetirementPolicy) {
    && SameButLifecycle(before, after)
    && match verb
       case Pin => after.pinned && SameDates(before, after)
       case Unpin => !after.pinned && SameDates(before, after)
       case Retire =>
         && after.pinned == before.pinned
         && (before.status == Active ==> after.status == Inactive)
         && (before.status != Active ==> after.status == before.status)
         && after.retiredAt == Some(now) && after.purgeAfter == Some(now + policy.graceDays as real * 86400.0)
       case Purge =>
         && after.pinned == before.pinned
         && (before.status == Active ==> after.status == Inactive && after.retiredAt == Some(now) && after.purgeAfter == Some(now))
         && (before.status != Active ==> SameDates(before, after))
  }

  /** An accepted verb writes one row; only Purge touches another table, and it takes that
      branch's files, membership and trees and leaves every other branch its view. */
  ghost predicate VerbWrites(s: StoreState, t: StoreState, verb: Verb, name: string, now: real, policy: RetirementPolicy) {
    && name in s.branches && t.branches.Keys == s.branches.Keys
    && VerbRow(s.branches[name], t.branches[name], verb, now, policy)
    && (forall n :: n in s.branches && n != name ==> t.branches[n] == s.branches[n])
    && (!verb.Purge? ==> t == s.(branches := t.branches))
    && (verb.Purge? ==>
          && RowsOf(t.files, name) == [] && RowsOf(t.membership, name) == [] && RowsOf(t.trees, name) == []
          && forall n :: n != name ==> SameBranchView(s, t, n))
  }

  lemma VerbRowIs(s: StoreState, verb: Verb, name: string, now: real, policy: RetirementPolicy)
    requires name in s.branches
    ensures var t := VerbResult(s, verb, name, now, policy);
            name in t.branches && VerbRow(s.branches[name], t.branches[name], verb, now, policy)
  {
  }

  lemma PurgeTakes(s: StoreState, name: string)
    ensures var t := Purged(s, name);
            && RowsOf(t.files, name) == [] && RowsOf(t.membership, name) == [] && RowsOf(t.trees, name) == []
            && forall n :: n != name ==> SameBranchView(s, t, n)
  {
    forall n | n != name ensures SameBranchView(s, Purged(s, name), n) {
      PurgeIsolates(s, {name}, n);
    }
  }

  lemma RecordsAside(s: StoreState, branches: map<string, BranchRecord>, t: StoreState, n: string)
    requires SameBranchView(s.(branches := branches), t, n)
    ensures SameBranchView(s, t, n)
  {
  }

  lemma PurgeVerbTakes(s: StoreState, name: string, now: real, policy: RetirementPolicy)
    requires name in s.branches
    ensures var t := VerbResult(s, Purge, name, now, policy);
            && RowsOf(t.files, name) == [] && RowsOf(t.membership, name) == [] && RowsOf(t.trees, name) == []
            && forall n :: n != name ==> SameBranchView(s, t, n)
  {
    var t, record := VerbResult(s, Purge, name, now, policy), s.branches[name];
    var branches := if record.status == Active then s.branches[name := ManuallyRetired(record, now, now)] else s.branches;
    PurgeTakes(s.(branches := branches), name);
    assert t == Purged(s.(branches := branches), name);
    forall n | n != name ensures SameBranchView(s, t, n) {
      RecordsAside(s, branches, t, n);
    }
  }

  lemma VerbExactly(s: StoreState, verb: Verb, name: string, now: real, policy: RetirementPolicy)
    requires name in s.branches
    ensures VerbWrites(s, VerbResult(s, verb, name, now, policy), verb, name, now, policy)
  {
    VerbRowIs(s, verb, name, now, policy);
    if verb.Purge? {
      PurgeVerbTakes(s, name, now, policy);
    }
  }

  /** An unknown name is refused every verb; a landing unit and the served branch are
      refused Retire and Purge, the unit first; nothing else is. */
  predicate RefusedAs(branches: map<string, BranchRecord>, served: Option<string>, verb: Verb, name: string, error: Option<VerbError>) {
    && (error == Some(UnknownBranch) <==> name !in branches)
    && (error == Some(LandingUnitRefused) <==> name in branches && (verb.Retire? || verb.Purge?) && branches[name].landingKind.Some?)
    && (error == Some(ServedRefused) <==>
          name in branches && (verb.Retire? || verb.Purge?) && branches[name].landingKind.None? && served == Some(name))
  }

  lemma RefusedExactly(branches: map<string, BranchRecord>, served: Option<string>, verb: Verb, name: string)
    ensures RefusedAs(branches, served, verb, name, VerbRefusal(branches, served, verb, name))
  {
  }
}
