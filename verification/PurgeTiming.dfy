/** When the grace purge may take a branch's rows: over every run, only after the grace
    window of its last retirement, and not at all once a pass has re-indexed it. */
module PurgeTiming {
  import opened Common
  import opened BranchRecords
  import opened BundleTables
  import opened ExtractionCache
  import opened BranchPass
  import opened PassTheorems
  import opened Retirement
  import opened MaintenanceTheorems
  import opened Runs
  import opened ServedBranch

  predicate SameLifecycle(a: BranchRecord, b: BranchRecord) {
    a.status == b.status && a.retiredAt == b.retiredAt && a.purgeAfter == b.purgeAfter
  }

  /** A freshly stamped branch, or a new landing unit. */
  predicate InService(record: BranchRecord) {
    record.status == Active && record.retiredAt.None? && record.purgeAfter.None?
  }

  /** Retired at `now`: by a maintenance run or by the operator, with the policy's grace. */
  predicate RetiredNow(record: BranchRecord, now: real, policy: RetirementPolicy) {
    record.status != Active && record.retiredAt == Some(now) && record.purgeAfter == Some(now + policy.Grace())
  }

  predicate Retires(e: Event, record: BranchRecord) {
    (e.RetireLanded? || (e.Operator? && e.verb.Retire?)) && RetiredNow(record, e.now, e.policy)
  }

  /** The operator purged an Active branch: its rows went with the verb. */
  predicate Empties(e: Event, record: BranchRecord) {
    e.Operator? && e.verb.Purge? && record.status == Inactive && record.purgeAfter == Some(e.now)
  }

  /** All that one event can do to the lifecycle columns under one name. */
  ghost predicate Follows(before: map<string, BranchRecord>, e: Event, record: BranchRecord, n: string) {
    || (n in before && SameLifecycle(before[n], record))
    || InService(record)
    || Retires(e, record)
    || Empties(e, record)
  }

  ghost predicate AllFollow(before: map<string, BranchRecord>, e: Event, after: map<string, BranchRecord>) {
    forall n :: n in after ==> Follows(before, e, after[n], n)
  }

  lemma RefPassFollows(s: StoreState, input: PassInput, choice: Choice, e: Event)
    requires Fits(choice, PassChunks(input)) && AreNewIds(s, choice.newIds)
    ensures AllFollow(s.branches, e, PassResult(s, input, choice).branches)
  {
    InsertedFrame(s, Added(choice, PassChunks(input)), choice.newIds);
  }

  lemma TreePassFollows(s: StoreState, input: TreeInput, choice: Choice, e: Event)
    requires Fits(choice, input.extraction.AllChunks()) && AreNewIds(s, choice.newIds)
    ensures AllFollow(s.branches, e, TreePassResult(s, input, choice).branches)
  {
    AloneTables(s, input, choice);
    TreePassTables(s, input, choice);
  }

  lemma VerdictRecordFollows(record: BranchRecord, v: MergeVerdict, baseName: string, now: real, policy: RetirementPolicy)
    ensures var after := VerdictRecord(record, v, baseName, now, policy);
            SameLifecycle(record, after) || RetiredNow(after, now, policy)
  {
  }

  lemma VerdictsFollow(s: StoreState, verdicts: seq<MergeVerdict>, baseName: string, index: map<string, LandingStep>, e: Event)
    requires e.RetireLanded? && VerdictsKnown(s.branches, verdicts) && DistinctBranches(verdicts)
    ensures AllFollow(s.branches, e, AppliedVerdicts(s, verdicts, baseName, e.now, e.policy, index).branches)
  {
    var t := AppliedVerdicts(s, verdicts, baseName, e.now, e.policy, index);
    VerdictsByRow(s, verdicts, baseName, e.now, e.policy, index);
    forall n | n in t.branches ensures Follows(s.branches, e, t.branches[n], n) {
      VerdictRowFollows(s.branches, t.branches, verdicts, baseName, e, n);
    }
  }

  lemma VerdictRowFollows(before: map<string, BranchRecord>, after: map<string, BranchRecord>, verdicts: seq<MergeVerdict>, baseName: string, e: Event, n: string)
    requires e.RetireLanded? && OnlyUnitsAdded(before, after) && n in after
    requires forall v :: v in verdicts && v.branch == n ==> n in before && after[n] == VerdictRecord(before[n], v, baseName, e.now, e.policy)
    requires n in before && (forall v :: v in verdicts ==> v.branch != n) ==> after[n] == before[n]
    ensures Follows(before, e, after[n], n)
  {
    if n !in before {
      assert IsNewUnit(after[n], n);
    } else if v :| v in verdicts && v.branch == n {
      VerdictRecordFollows(before[n], v, baseName, e.now, e.policy);
    }
  }

  lemma DeletedFollow(before: map<string, BranchRecord>, s: StoreState, kept: set<string>, e: Event)
    requires e.RetireLanded? && AllFollow(before, e, s.branches)
    ensures AllFollow(before, e, RetiredDeleted(s, kept, e.now, e.policy).branches)
  {
    var t := RetiredDeleted(s, kept, e.now, e.policy);
    forall n | n in t.branches ensures Follows(before, e, t.branches[n], n) {
      assert Follows(before, e, s.branches[n], n);
    }
  }

  lemma RetireFollows(s: StoreState, e: Event)
    requires e.RetireLanded? && VerdictsKnown(s.branches, e.verdicts) && DistinctBranches(e.verdicts)
    ensures AllFollow(s.branches, e, RetireStep(s, e.refs, e.served, e.detection, e.verdicts, e.now, e.policy).branches)
  {
    VerdictsFollow(s, e.verdicts, BaseNameOf(e.detection), IndexOf(e.detection), e);
    DeletedFollow(s.branches, AppliedVerdicts(s, e.verdicts, BaseNameOf(e.detection), e.now, e.policy, IndexOf(e.detection)),
                  KeptNames(e.refs, e.served), e);
  }

  lemma RecordFollows(before: map<string, BranchRecord>, n: string, record: BranchRecord, e: Event)
    requires Follows(before, e, record, n)
    ensures AllFollow(before, e, before[n := record])
  {
  }

  lemma PinFollows(before: map<string, BranchRecord>, n: string, pinned: bool, e: Event)
    requires n in before
    ensures AllFollow(before, e, before[n := before[n].(pinned := pinned)])
  {
    assert SameLifecycle(before[n], before[n].(pinned := pinned));
  }

  lemma RetireVerbFollows(before: map<string, BranchRecord>, n: string, e: Event)
    requires n in before && e.Operator? && e.verb.Retire?
    ensures AllFollow(before, e, before[n := ManuallyRetired(before[n], e.now, e.policy.PurgeAfter(e.now))])
  {
    var record := ManuallyRetired(before[n], e.now, e.policy.PurgeAfter(e.now));
    assert Retires(e, record);
    RecordFollows(before, n, record, e);
  }

  lemma PurgeVerbFollows(before: map<string, BranchRecord>, n: string, e: Event)
    requires n in before && e.Operator? && e.verb.Purge? && before[n].status == Active
    ensures AllFollow(before, e, before[n := ManuallyRetired(before[n], e.now, e.now)])
  {
    var record := ManuallyRetired(before[n], e.now, e.now);
    assert Empties(e, record);
    RecordFollows(before, n, record, e);
  }

  lemma UnchangedFollow(before: map<string, BranchRecord>, e: Event)
    ensures AllFollow(before, e, before)
  {
  }

  lemma VerbFollows(s: StoreState, e: Event)
    requires e.Operator? && e.name in s.branches
    ensures AllFollow(s.branches, e, VerbResult(s, e.verb, e.name, e.now, e.policy).branches)
  {
    match e.verb
    case Retire => RetireVerbFollows(s.branches, e.name, e);
    case Purge =>
      if s.branches[e.name].status == Active {
        PurgeVerbFollows(s.branches, e.name, e);
      } else {
        UnchangedFollow(s.branches, e);
      }
    case Pin => PinFollows(s.branches, e.name, true, e);
    case Unpin => PinFollows(s.branches, e.name, false, e);
  }

  lemma StepFollows(ex: Extractor, s: StoreState, e: Event, t: StoreState)
    requires StepsTo(ex, s, e, t)
    ensures AllFollow(s.branches, e, t.branches)
  {
    match e
    case IndexRef(r, choice, served) =>
      if Commits(ex, s, r, choice, served) { RefPassFollows(s, RefInput(ex, s, r), choice, e); }
    case WorkingTreePass(input, choice) => TreePassFollows(s, input, choice, e);
    case RetireLanded(refs, seen, served, d, verdicts, now, policy) => RetireFollows(s, e);
    case PurgeExpired(refs, served, now) => assert PurgeStep(s, refs, served, now).branches == s.branches;
    case Operator(verb, name, served, now, policy) =>
      if VerbRefusal(s.branches, served, verb, name).None? { VerbFollows(s, e); }
  }

  lemma StepFollowsAt(ex: Extractor, states: seq<StoreState>, events: seq<Event>, i: nat)
    requires IsRun(ex, states, events) && 0 < i < |states|
    ensures AllFollow(states[i - 1].branches, events[i - 1], states[i].branches)
  {
    StepInto(ex, states, events, i);
    StepFollows(ex, states[i - 1], events[i - 1], states[i]);
  }

  // ----- over runs

  /** From the state after event `j` to the `i`-th, the lifecycle columns of `n` stand. */
  ghost predicate StandsSince(states: seq<StoreState>, j: nat, i: nat, n: string)
    requires j < i < |states|
  {
    forall k :: j < k <= i ==> n in states[k].branches && n in states[i].branches && SameLifecycle(states[k].branches[n], states[i].branches[n])
  }

  /** A row out of service was taken out by an event, and nothing has re-stamped it since. */
  lemma {:induction false} RetiredByAnEvent(ex: Extractor, states: seq<StoreState>, events: seq<Event>, i: nat, n: string) returns (j: nat)
    requires IsRun(ex, states, events) && states[0].branches == map[] && i < |states|
    requires n in states[i].branches && !InService(states[i].branches[n])
    ensures j < i && StandsSince(states, j, i, n)
    ensures Retires(events[j], states[i].branches[n]) || Empties(events[j], states[i].branches[n])
  {
    StepFollowsAt(ex, states, events, i);
    var record := states[i].branches[n];
    assert Follows(states[i - 1].branches, events[i - 1], record, n);
    if n in states[i - 1].branches && SameLifecycle(states[i - 1].branches[n], record) {
      j := RetiredByAnEvent(ex, states, events, i - 1, n);
      StandsLonger(states, j, i, n);
    } else {
      j := i - 1;
    }
  }

  lemma StandsLonger(states: seq<StoreState>, j: nat, i: nat, n: string)
    requires j + 1 < i < |states| && StandsSince(states, j, i - 1, n)
    requires n in states[i].branches && n in states[i - 1].branches && SameLifecycle(states[i - 1].branches[n], states[i].branches[n])
    ensures StandsSince(states, j, i, n)
  {
  }

  /** Purge timing over runs: the grace purge takes a Merged or Deleted branch's rows only
      when the grace window has passed since the event that last retired it, and no pass
      re-indexed it in between. */
  lemma PurgeWaitsOutTheGrace(ex: Extractor, states: seq<StoreState>, events: seq<Event>, i: nat, n: string) returns (j: nat)
    requires IsRun(ex, states, events) && states[0].branches == map[] && i < |events| && events[i].PurgeExpired?
    requires n in DueNames(states[i], events[i].now, ProtectedNames(events[i].refs, events[i].served))
    requires states[i].branches[n].status in {Merged, Deleted}
    ensures j < i && StandsSince(states, j, i, n) && Retires(events[j], states[i].branches[n])
    ensures events[j].now + events[j].policy.Grace() <= events[i].now
  {
    j := RetiredByAnEvent(ex, states, events, i, n);
  }

  /** A pass over `n` puts it back in service: no purge is pending, the pin is kept. */
  lemma ReindexCancelsThePurge(s: StoreState, m: Manifest, rows: seq<Membership>, now: real, isDefault: bool, at: real, spared: set<string>)
    ensures var t := Stamped(s, m, rows, now, isDefault);
            && InService(t.branches[m.name])
            && (t.branches[m.name].pinned <==> m.name in s.branches && s.branches[m.name].pinned)
            && m.name !in DueNames(t, at, spared)
  {
  }

  /** What either pass leaves under its branch's name. */
  lemma PassReindexes(s: StoreState, input: PassInput, choice: Choice)
    requires Fits(choice, PassChunks(input)) && AreNewIds(s, choice.newIds)
    ensures var t, n := PassResult(s, input, choice), input.manifest.name;
            && n in t.branches && InService(t.branches[n])
            && (t.branches[n].pinned <==> n in s.branches && s.branches[n].pinned)
  {
    InsertedFrame(s, Added(choice, PassChunks(input)), choice.newIds);
  }

  lemma TreePassReindexes(s: StoreState, input: TreeInput, choice: Choice)
    requires Fits(choice, input.extraction.AllChunks()) && AreNewIds(s, choice.newIds) && NamesMatch(s.branches)
    ensures var t, n := TreePassResult(s, input, choice), input.manifest.name;
            && n in t.branches && InService(t.branches[n])
            && (t.branches[n].pinned <==> n in s.branches && s.branches[n].pinned)
  {
    AloneTables(s, input, choice);
    StampedPin(TreePassAlone(s, input, choice), input.manifest, MembershipRows(TreeAssignments(input, choice)), input.now);
  }

  lemma StampedPin(s: StoreState, m: Manifest, rows: seq<Membership>, now: real)
    ensures var t := Stamped(s, m, rows, now, true).branches;
            && m.name in t && InService(t[m.name]) && (t[m.name].pinned <==> m.name in s.branches && s.branches[m.name].pinned)
  {
  }

  /** Once back in service a branch is safe from the grace purge until an event retires
      it again. */
  lemma {:induction false} InServiceUntilRetired(ex: Extractor, states: seq<StoreState>, events: seq<Event>, j: nat, i: nat, n: string)
    requires IsRun(ex, states, events) && j <= i < |states|
    requires n in states[j].branches ==> InService(states[j].branches[n])
    requires forall k :: j <= k < i && n in states[k + 1].branches ==>
               !Retires(events[k], states[k + 1].branches[n]) && !Empties(events[k], states[k + 1].branches[n])
    ensures n in states[i].branches ==> InService(states[i].branches[n])
    ensures forall at, spared :: n !in DueNames(states[i], at, spared)
  {
    if j < i {
      InServiceUntilRetired(ex, states, events, j, i - 1, n);
      StepFollowsAt(ex, states, events, i);
      if n in states[i].branches {
        assert Follows(states[i - 1].branches, events[i - 1], states[i].branches[n], n);
      }
    }
  }
}
