/** Laws over whole runs that name no function of the model's own steps: what a checkout
    leaves of the one before it, what a pin holds, what becomes of a landing unit, and how
    long a vector lives. */
module RunLaws {
  import opened Common
  import opened BranchRecords
  import opened BundleTables
  import opened ExtractionCache
  import opened BranchPass
  import opened PassFacts
  import opened StoreInvariant
  import opened PassTheorems
  import opened TreePass
  import opened PassLaws
  import opened Retirement
  import opened MaintenanceTheorems
  import opened RetirementLaws
  import opened VerbLaws
  import opened Runs

  // ----- the records' names

  lemma StepKeepsNames(ex: Extractor, s: StoreState, e: Event, t: StoreState)
    requires StepsTo(ex, s, e, t) && NamesMatch(s.branches)
    ensures NamesMatch(t.branches)
  {
    match e
    case IndexRef(r, choice, served) =>
      if Commits(ex, s, r, choice, served) { RefPassNames(s, RefInput(ex, s, r), choice); }
    case WorkingTreePass(input, choice) => TreePassNamesMatch(s, input, choice);
    case RetireLanded(refs, seen, served, d, verdicts, now, policy) => RetireNames(s, refs, served, seen, d, verdicts, now, policy);
    case PurgeExpired(refs, served, now) => PurgedExactly(s, refs, served, now, "");
    case Operator(verb, name, served, now, policy) =>
      if name in s.branches { VerbExactly(s, verb, name, now, policy); }
  }

  lemma RefPassNames(s: StoreState, input: PassInput, choice: Choice)
    requires Fits(choice, PassChunks(input)) && AreNewIds(s, choice.newIds) && NamesMatch(s.branches)
    ensures NamesMatch(PassResult(s, input, choice).branches)
  {
    RefPassStamps(s, input, choice);
    var t := PassResult(s, input, choice).branches;
    forall n | n in t ensures t[n].name == n {
      if n != input.manifest.name {
        RefPassIsolates(s, input, choice, n);
      }
    }
  }

  lemma TreePassNamesMatch(s: StoreState, input: TreeInput, choice: Choice)
    requires Fits(choice, input.extraction.AllChunks()) && AreNewIds(s, choice.newIds) && NamesMatch(s.branches)
    ensures NamesMatch(TreePassResult(s, input, choice).branches)
  {
    AloneTables(s, input, choice);
    TreePassTables(s, input, choice);
  }

  lemma RetireNames(s: StoreState, refs: RefSnapshot, served: Option<string>, seen: Option<string>, d: Option<Detection>,
                    verdicts: seq<MergeVerdict>, now: real, policy: RetirementPolicy)
    requires AreFindings(s.branches, refs, seen, d, verdicts) && VerdictsKnown(s.branches, verdicts) && NamesMatch(s.branches)
    ensures NamesMatch(RetireStep(s, refs, served, d, verdicts, now, policy).branches)
  {
    FindingsAreCandidates(s.branches, refs, seen, d, verdicts);
    RetireKeepsStamps(s, refs, served, d, verdicts, now, policy);
  }

  lemma {:induction false} RunKeepsNames(ex: Extractor, states: seq<StoreState>, events: seq<Event>, i: nat)
    requires IsRun(ex, states, events) && NamesMatch(states[0].branches) && i < |states|
    ensures NamesMatch(states[i].branches)
  {
    if i > 0 {
      RunKeepsNames(ex, states, events, i - 1);
      StepInto(ex, states, events, i);
      StepKeepsNames(ex, states[i - 1], events[i - 1], states[i]);
    }
  }

  // ----- one row through one event

  predicate IsPassOver(e: Event, n: string) {
    (e.IndexRef? && e.r.manifest.name == n) || (e.WorkingTreePass? && e.input.manifest.name == n)
  }

  /** A checkout of the row's own worktree under another name. */
  predicate IsCheckoutOver(m: Manifest, record: BranchRecord) {
    && m.name != record.name && record.landingKind.None?
    && record.worktreePath.Some? && record.worktreePath == m.worktreePath
  }

  /** Its files and trees as they were, and no chunk it names lost. */
  ghost predicate KeepsRows(s: StoreState, t: StoreState, b: string) {
    && RowsOf(t.files, b) == RowsOf(s.files, b) && RowsOf(t.trees, b) == RowsOf(s.trees, b)
    && forall id :: Names(s.membership, b, id) ==>
         Names(t.membership, b, id) && (id in s.chunks ==> id in t.chunks && t.chunks[id] == s.chunks[id])
  }

  lemma SameViewKeepsRows(s: StoreState, t: StoreState, b: string)
    requires SameBranchView(s, t, b)
    ensures KeepsRows(s, t, b)
  {
  }

  /** The name's record, files, trees and chunks are as they were. */
  ghost predicate Untouched(s: StoreState, t: StoreState, n: string) {
    KeepsRows(s, t, n) && (n in t.branches <==> n in s.branches) && (n in t.branches ==> t.branches[n] == s.branches[n])
  }

  lemma RefPassElsewhere(s: StoreState, input: PassInput, choice: Choice, n: string)
    requires Fits(choice, PassChunks(input)) && AreNewIds(s, choice.newIds) && input.manifest.name != n
    ensures Untouched(s, PassResult(s, input, choice), n)
  {
    RefPassIsolates(s, input, choice, n);
    SameViewKeepsRows(s, PassResult(s, input, choice), n);
  }

  lemma TreePassElsewhere(s: StoreState, input: TreeInput, choice: Choice, n: string)
    requires Fits(choice, input.extraction.AllChunks()) && AreNewIds(s, choice.newIds)
    requires NamesMatch(s.branches) && input.manifest.name != n && n != ""
    requires n in s.branches ==> !IsCheckoutOver(input.manifest, s.branches[n])
    ensures Untouched(s, TreePassResult(s, input, choice), n)
  {
    assert n !in RetiredBy(s, input.manifest);
    TreePassIsolates(s, input, choice, n);
    SameViewKeepsRows(s, TreePassResult(s, input, choice), n);
  }

  lemma RetireKeepsIds(s: StoreState, refs: RefSnapshot, served: Option<string>, d: Option<Detection>, verdicts: seq<MergeVerdict>,
                       now: real, policy: RetirementPolicy, n: string)
    requires VerdictsKnown(s.branches, verdicts)
    ensures KeepsRows(s, RetireStep(s, refs, served, d, verdicts, now, policy), n)
  {
    RetireKeepsRows(s, refs, served, d, verdicts, now, policy);
    VerdictsName(s, verdicts, BaseNameOf(d), now, policy, IndexOf(d));
    var mid := AppliedVerdicts(s, verdicts, BaseNameOf(d), now, policy, IndexOf(d));
    DeletingKeepsUnits(mid, KeptNames(refs, served), now, policy);
  }

  /** A row through a retirement transaction keeps its identity; pinned or a landing unit,
      its retirement columns too. */
  lemma RowThroughRetirement(s: StoreState, refs: RefSnapshot, served: Option<string>, seen: Option<string>, d: Option<Detection>,
                             verdicts: seq<MergeVerdict>, now: real, policy: RetirementPolicy, n: string)
    requires AreFindings(s.branches, refs, seen, d, verdicts) && VerdictsKnown(s.branches, verdicts) && NamesMatch(s.branches) && n in s.branches
    ensures var t := RetireStep(s, refs, served, d, verdicts, now, policy).branches;
            && n in t && SameIdentity(s.branches[n], t[n])
            && (s.branches[n].pinned || s.branches[n].landingKind.Some? ==> SameRetirement(s.branches[n], t[n]))
            && (s.branches[n].landingKind.Some? ==> t[n] == s.branches[n])
  {
    FindingsAreCandidates(s.branches, refs, seen, d, verdicts);
    var after := RetireStep(s, refs, served, d, verdicts, now, policy).branches;
    if v :| v in verdicts && v.branch == n {
      LandedRow(s, refs, served, d, verdicts, now, policy, v);
      LandedKeeps(s.branches[n], after[n], v, BaseNameOf(d), refs, served, now, policy);
    } else {
      UnlandedRow(s, refs, served, d, verdicts, now, policy, n);
      UnlandedKeeps(s.branches[n], after[n], refs, served, now, policy);
    }
  }

  lemma LandedKeeps(before: BranchRecord, after: BranchRecord, v: MergeVerdict, baseName: string, refs: RefSnapshot, served: Option<string>,
                    now: real, policy: RetirementPolicy)
    requires LandedAfter(before, after, v, baseName, refs, served, now, policy)
    ensures SameIdentity(before, after) && (before.pinned ==> SameRetirement(before, after))
  {
  }

  lemma UnlandedKeeps(before: BranchRecord, after: BranchRecord, refs: RefSnapshot, served: Option<string>, now: real, policy: RetirementPolicy)
    requires UnlandedAfter(before, after, refs, served, now, policy)
    ensures SameIdentity(before, after) && (before.pinned || before.landingKind.Some? ==> SameRetirement(before, after))
    ensures before.landingKind.Some? ==> after == before
  {
  }

  lemma VerbElsewhere(s: StoreState, verb: Verb, name: string, now: real, policy: RetirementPolicy, n: string)
    requires name in s.branches && name != n
    ensures Untouched(s, VerbResult(s, verb, name, now, policy), n)
  {
    VerbExactly(s, verb, name, now, policy);
    if verb.Purge? {
      SameViewKeepsRows(s, VerbResult(s, verb, name, now, policy), n);
    }
  }

  // ----- checkouts of one worktree

  /** The branch is on the worktree, or nothing is left of it. */
  ghost predicate OnWorktreeOrGone(s: StoreState, n: string, worktree: string) {
    if n in s.branches then s.branches[n].worktreePath == Some(worktree) && s.branches[n].landingKind.None?
    else LeavesNothing(s, n)
  }

  /** No row of any branch table is under the name. */
  ghost predicate LeavesNothing(s: StoreState, n: string) {
    n !in s.branches && RowsOf(s.files, n) == [] && RowsOf(s.trees, n) == [] && RowsOf(s.membership, n) == []
  }

  lemma TreePassOver(s: StoreState, input: TreeInput, choice: Choice, n: string, worktree: string)
    requires Fits(choice, input.extraction.AllChunks()) && AreNewIds(s, choice.newIds) && NamesMatch(s.branches) && input.manifest.name != n && n != ""
    requires OnWorktreeOrGone(s, n, worktree)
    ensures OnWorktreeOrGone(TreePassResult(s, input, choice), n, worktree)
    ensures input.manifest.worktreePath == Some(worktree) ==> LeavesNothing(TreePassResult(s, input, choice), n)
  {
    if n in s.branches {
      TreePassRetiresExactly(s, input, choice, n);
    } else {
      TreePassIsolates(s, input, choice, n);
    }
  }

  lemma RefPassBeside(s: StoreState, input: PassInput, choice: Choice, n: string, worktree: string)
    requires Fits(choice, PassChunks(input)) && AreNewIds(s, choice.newIds) && input.manifest.name != n
    requires OnWorktreeOrGone(s, n, worktree)
    ensures OnWorktreeOrGone(PassResult(s, input, choice), n, worktree)
  {
    RefPassIsolates(s, input, choice, n);
  }

  lemma RetireBeside(s: StoreState, refs: RefSnapshot, served: Option<string>, seen: Option<string>, d: Option<Detection>,
                     verdicts: seq<MergeVerdict>, now: real, policy: RetirementPolicy, n: string, worktree: string)
    requires AreFindings(s.branches, refs, seen, d, verdicts) && VerdictsKnown(s.branches, verdicts) && NamesMatch(s.branches)
    requires OnWorktreeOrGone(s, n, worktree)
    requires var t := RetireStep(s, refs, served, d, verdicts, now, policy).branches;
             n in t ==> t[n].landingKind.None?
    ensures OnWorktreeOrGone(RetireStep(s, refs, served, d, verdicts, now, policy), n, worktree)
  {
    RetireKeepsRows(s, refs, served, d, verdicts, now, policy);
    if n in s.branches {
      RowThroughRetirement(s, refs, served, seen, d, verdicts, now, policy, n);
    } else {
      FindingsAreCandidates(s.branches, refs, seen, d, verdicts);
      RetireKeepsStamps(s, refs, served, d, verdicts, now, policy);
    }
  }

  lemma PurgeBeside(s: StoreState, refs: RefSnapshot, served: Option<string>, now: real, n: string, worktree: string)
    requires NamesMatch(s.branches) && OnWorktreeOrGone(s, n, worktree)
    ensures OnWorktreeOrGone(PurgeStep(s, refs, served, now), n, worktree)
  {
    PurgedExactly(s, refs, served, now, n);
  }

  lemma VerbBeside(s: StoreState, verb: Verb, name: string, now: real, policy: RetirementPolicy, n: string, worktree: string)
    requires name in s.branches && OnWorktreeOrGone(s, n, worktree)
    ensures OnWorktreeOrGone(VerbResult(s, verb, name, now, policy), n, worktree)
  {
    if n == name {
      VerbRowIs(s, verb, name, now, policy);
    } else {
      VerbExactly(s, verb, name, now, policy);
    }
  }

  /** Only a pass under the name, or a landing of that name, takes a branch off its worktree
      without removing it. */
  lemma StepBeside(ex: Extractor, s: StoreState, e: Event, t: StoreState, n: string, worktree: string)
    requires StepsTo(ex, s, e, t) && NamesMatch(s.branches) && OnWorktreeOrGone(s, n, worktree) && n != ""
    requires !IsPassOver(e, n) && (n in t.branches ==> t.branches[n].landingKind.None?)
    ensures OnWorktreeOrGone(t, n, worktree)
    ensures e.WorkingTreePass? && e.input.manifest.worktreePath == Some(worktree) ==> LeavesNothing(t, n)
  {
    match e
    case IndexRef(r, choice, served) =>
      if Commits(ex, s, r, choice, served) { RefPassBeside(s, RefInput(ex, s, r), choice, n, worktree); }
    case WorkingTreePass(input, choice) => TreePassOver(s, input, choice, n, worktree);
    case RetireLanded(refs, seen, served, d, verdicts, now, policy) => RetireBeside(s, refs, served, seen, d, verdicts, now, policy, n, worktree);
    case PurgeExpired(refs, served, now) => PurgeBeside(s, refs, served, now, n, worktree);
    case Operator(verb, name, served, now, policy) =>
      if VerbRefusal(s.branches, served, verb, name).None? { VerbBeside(s, verb, name, now, policy, n, worktree); }
  }

  /** From event `i` on: no pass over the name, and the name is never a landing unit's. */
  ghost predicate NoPassOverBetween(states: seq<StoreState>, events: seq<Event>, i: nat, j: nat, n: string)
    requires |states| == |events| + 1 && j <= |events|
  {
    && (forall k :: i < k < j ==> !IsPassOver(events[k], n))
    && (forall k :: i < k <= j && n in states[k].branches ==> states[k].branches[n].landingKind.None?)
  }

  lemma {:induction false} StaysOnWorktree(ex: Extractor, states: seq<StoreState>, events: seq<Event>, i: nat, j: nat, n: string, worktree: string)
    requires IsRun(ex, states, events) && NamesMatch(states[0].branches) && i < j <= |events|
    requires events[i].WorkingTreePass? && events[i].input.manifest.name == n && events[i].input.manifest.worktreePath == Some(worktree)
    requires NoPassOverBetween(states, events, i, j, n)
    ensures OnWorktreeOrGone(states[j], n, worktree)
  {
    RunKeepsNames(ex, states, events, j - 1);
    if j == i + 1 {
      FirstCheckout(ex, states, events, i, worktree);
    } else {
      StaysOnWorktree(ex, states, events, i, j - 1, n, worktree);
      NamedNonEmpty(ex, states, events, i);
      NextBeside(ex, states, events, j, n, worktree);
    }
  }

  lemma NextBeside(ex: Extractor, states: seq<StoreState>, events: seq<Event>, j: nat, n: string, worktree: string)
    requires IsRun(ex, states, events) && 0 < j < |states| && NamesMatch(states[j - 1].branches) && n != ""
    requires OnWorktreeOrGone(states[j - 1], n, worktree)
    requires !IsPassOver(events[j - 1], n) && (n in states[j].branches ==> states[j].branches[n].landingKind.None?)
    ensures OnWorktreeOrGone(states[j], n, worktree)
    ensures events[j - 1].WorkingTreePass? && events[j - 1].input.manifest.worktreePath == Some(worktree) ==> LeavesNothing(states[j], n)
  {
    StepInto(ex, states, events, j);
    StepBeside(ex, states[j - 1], events[j - 1], states[j], n, worktree);
  }

  lemma FirstCheckout(ex: Extractor, states: seq<StoreState>, events: seq<Event>, i: nat, worktree: string)
    requires IsRun(ex, states, events) && i < |events| && NamesMatch(states[i].branches)
    requires events[i].WorkingTreePass? && events[i].input.manifest.worktreePath == Some(worktree)
    ensures OnWorktreeOrGone(states[i + 1], events[i].input.manifest.name, worktree)
  {
    StepInto(ex, states, events, i + 1);
    TreePassStamps(states[i], events[i].input, events[i].treeChoice);
  }

  /** One worktree has one branch: a checkout of another branch leaves nothing of the one
      checked out there before, whatever else ran in between. */
  lemma OneBranchPerWorktree(ex: Extractor, states: seq<StoreState>, events: seq<Event>, i: nat, j: nat)
    requires IsRun(ex, states, events) && NamesMatch(states[0].branches) && i < j < |events|
    requires events[i].WorkingTreePass? && events[j].WorkingTreePass?
    requires events[i].input.manifest.worktreePath.Some? && events[i].input.manifest.worktreePath == events[j].input.manifest.worktreePath
    requires events[i].input.manifest.name != events[j].input.manifest.name
    requires NoPassOverBetween(states, events, i, j + 1, events[i].input.manifest.name)
    ensures var after, first := states[j + 1], events[i].input.manifest.name;
            && first !in after.branches && RowsOf(after.files, first) == [] && RowsOf(after.trees, first) == [] && RowsOf(after.membership, first) == []
            && events[j].input.manifest.name in after.branches
  {
    var n, worktree := events[i].input.manifest.name, events[i].input.manifest.worktreePath.value;
    StaysOnWorktree(ex, states, events, i, j, n, worktree);
    RunKeepsNames(ex, states, events, j);
    NamedNonEmpty(ex, states, events, i);
    NextBeside(ex, states, events, j + 1, n, worktree);
    NamedIsThere(ex, states, events, j);
  }

  lemma NamedIsThere(ex: Extractor, states: seq<StoreState>, events: seq<Event>, i: nat)
    requires IsRun(ex, states, events) && i < |events| && events[i].WorkingTreePass? && NamesMatch(states[i].branches)
    ensures events[i].input.manifest.name in states[i + 1].branches
  {
    StepInto(ex, states, events, i + 1);
    TreePassStamps(states[i], events[i].input, events[i].treeChoice);
  }

  lemma NamedNonEmpty(ex: Extractor, states: seq<StoreState>, events: seq<Event>, i: nat)
    requires IsRun(ex, states, events) && i < |events| && events[i].WorkingTreePass?
    ensures events[i].input.manifest.name != ""
  {
    StepInto(ex, states, events, i + 1);
  }

  // ----- pins

  /** What may end a pin: an Unpin, a Purge, or another branch checked out on the worktree. */
  predicate EndsPin(s: StoreState, e: Event, n: string) {
    || (e.Operator? && e.name == n && (e.verb.Unpin? || e.verb.Purge?))
    || (e.WorkingTreePass? && n in s.branches && IsCheckoutOver(e.input.manifest, s.branches[n]))
  }

  /** A pinned branch stays pinned; its rows change by its own passes only, its status by
      those and by a Retire of it. */
  ghost predicate PinHeld(s: StoreState, e: Event, t: StoreState, n: string) {
    && n in s.branches && n in t.branches && t.branches[n].pinned
    && (!IsPassOver(e, n) ==> KeepsRows(s, t, n))
    && (!IsPassOver(e, n) && !(e.Operator? && e.verb.Retire? && e.name == n) ==> SameRetirement(s.branches[n], t.branches[n]))
  }

  lemma UntouchedHolds(s: StoreState, e: Event, t: StoreState, n: string)
    requires n in s.branches && s.branches[n].pinned && Untouched(s, t, n)
    ensures PinHeld(s, e, t, n)
  {
  }

  lemma RefPassHoldsPin(s: StoreState, e: Event, input: PassInput, choice: Choice, n: string)
    requires Fits(choice, PassChunks(input)) && AreNewIds(s, choice.newIds) && e.IndexRef? && e.r.manifest == input.manifest
    requires n in s.branches && s.branches[n].pinned
    ensures PinHeld(s, e, PassResult(s, input, choice), n)
  {
    if input.manifest.name == n {
      RefPassStamps(s, input, choice);
    } else {
      RefPassElsewhere(s, input, choice, n);
      UntouchedHolds(s, e, PassResult(s, input, choice), n);
    }
  }

  lemma TreePassHoldsPin(s: StoreState, e: Event, input: TreeInput, choice: Choice, n: string)
    requires Fits(choice, input.extraction.AllChunks()) && AreNewIds(s, choice.newIds) && e.WorkingTreePass? && e.input == input
    requires NamesMatch(s.branches) && n in s.branches && s.branches[n].pinned && n != "" && !EndsPin(s, e, n)
    ensures PinHeld(s, e, TreePassResult(s, input, choice), n)
  {
    if input.manifest.name == n {
      TreePassStamps(s, input, choice);
    } else {
      TreePassElsewhere(s, input, choice, n);
      UntouchedHolds(s, e, TreePassResult(s, input, choice), n);
    }
  }

  lemma RetireHoldsPin(s: StoreState, e: Event, n: string)
    requires e.RetireLanded? && AreFindings(s.branches, e.refs, e.seen, e.detection, e.verdicts) && VerdictsKnown(s.branches, e.verdicts)
    requires NamesMatch(s.branches) && n in s.branches && s.branches[n].pinned
    ensures PinHeld(s, e, RetireStep(s, e.refs, e.served, e.detection, e.verdicts, e.now, e.policy), n)
  {
    RowThroughRetirement(s, e.refs, e.served, e.seen, e.detection, e.verdicts, e.now, e.policy, n);
    RetireKeepsIds(s, e.refs, e.served, e.detection, e.verdicts, e.now, e.policy, n);
  }

  lemma PurgeHoldsPin(s: StoreState, e: Event, n: string)
    requires e.PurgeExpired? && NamesMatch(s.branches) && n in s.branches && s.branches[n].pinned
    ensures PinHeld(s, e, PurgeStep(s, e.refs, e.served, e.now), n)
  {
    PurgedExactly(s, e.refs, e.served, e.now, n);
    SameViewKeepsRows(s, PurgeStep(s, e.refs, e.served, e.now), n);
  }

  lemma VerbHoldsPin(s: StoreState, e: Event, n: string)
    requires e.Operator? && e.name in s.branches && n in s.branches && s.branches[n].pinned && !EndsPin(s, e, n)
    ensures PinHeld(s, e, VerbResult(s, e.verb, e.name, e.now, e.policy), n)
  {
    if e.name == n {
      VerbExactly(s, e.verb, n, e.now, e.policy);
    } else {
      VerbElsewhere(s, e.verb, e.name, e.now, e.policy, n);
      UntouchedHolds(s, e, VerbResult(s, e.verb, e.name, e.now, e.policy), n);
    }
  }

  lemma StepHoldsPin(ex: Extractor, s: StoreState, e: Event, t: StoreState, n: string)
    requires StepsTo(ex, s, e, t) && NamesMatch(s.branches) && n in s.branches && s.branches[n].pinned && n != "" && !EndsPin(s, e, n)
    ensures PinHeld(s, e, t, n)
  {
    match e
    case IndexRef(r, choice, served) =>
      if Commits(ex, s, r, choice, served) { RefPassHoldsPin(s, e, RefInput(ex, s, r), choice, n); }
    case WorkingTreePass(input, choice) => TreePassHoldsPin(s, e, input, choice, n);
    case RetireLanded(_, _, _, _, _, _, _) => RetireHoldsPin(s, e, n);
    case PurgeExpired(_, _, _) => PurgeHoldsPin(s, e, n);
    case Operator(verb, name, served, _, _) =>
      if VerbRefusal(s.branches, served, verb, name).None? { VerbHoldsPin(s, e, n); }
  }

  lemma NextHoldsPin(ex: Extractor, states: seq<StoreState>, events: seq<Event>, k: nat, n: string)
    requires IsRun(ex, states, events) && NamesMatch(states[0].branches) && k < |events|
    requires n in states[k].branches && states[k].branches[n].pinned && n != "" && !EndsPin(states[k], events[k], n)
    ensures PinHeld(states[k], events[k], states[k + 1], n)
  {
    RunKeepsNames(ex, states, events, k);
    StepInto(ex, states, events, k + 1);
    StepHoldsPin(ex, states[k], events[k], states[k + 1], n);
  }

  lemma PinPins(ex: Extractor, states: seq<StoreState>, events: seq<Event>, i: nat, n: string)
    requires IsRun(ex, states, events) && i < |events|
    requires events[i].Operator? && events[i].verb.Pin? && events[i].name == n && n in states[i].branches
    ensures n in states[i + 1].branches && states[i + 1].branches[n].pinned
  {
    StepInto(ex, states, events, i + 1);
    VerbRowIs(states[i], Pin, n, events[i].now, events[i].policy);
  }

  /** A pin holds: once set, and until something that ends it, no event retires the branch
      but a Retire of it, and no purge takes a row of it. */
  lemma {:induction false} PinHolds(ex: Extractor, states: seq<StoreState>, events: seq<Event>, i: nat, j: nat, n: string)
    requires IsRun(ex, states, events) && NamesMatch(states[0].branches) && i < j <= |events| && n != ""
    requires events[i].Operator? && events[i].verb.Pin? && events[i].name == n && n in states[i].branches
    requires forall k :: i < k < j ==> !EndsPin(states[k], events[k], n)
    ensures n in states[j].branches && states[j].branches[n].pinned
    ensures forall k :: i < k < j ==> PinHeld(states[k], events[k], states[k + 1], n)
  {
    if j == i + 1 {
      PinPins(ex, states, events, i, n);
    } else {
      PinHolds(ex, states, events, i, j - 1, n);
      NextHoldsPin(ex, states, events, j - 1, n);
    }
  }
}
