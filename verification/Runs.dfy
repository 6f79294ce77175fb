/** Whole runs: passes, maintenance transactions and operator verbs, one after another
    over one bundle. Writers are serialised: an event reads and writes one state. */
module Runs {
  import opened Common
  import opened BranchRecords
  import opened BundleTables
  import opened ExtractionCache
  import opened BranchPass
  import opened PassFacts
  import opened StoreInvariant
  import opened RefPass
  import opened TornRows
  import opened PassTheorems
  import opened TreePass
  import opened Retirement
  import opened MaintenanceTheorems

  /** One transaction. The served names are the choices the store made when it was asked. */
  datatype Event =
    | IndexRef(r: RefListing, refChoice: Choice, served: Option<string>)
    | WorkingTreePass(input: TreeInput, treeChoice: Choice)
    | RetireLanded(refs: RefSnapshot, seen: Option<string>, served: Option<string>, detection: Option<Detection>,
                   verdicts: seq<MergeVerdict>, now: real, policy: RetirementPolicy)
    | PurgeExpired(refs: RefSnapshot, served: Option<string>, now: real)
    | Operator(verb: Verb, name: string, served: Option<string>, now: real, policy: RetirementPolicy)

  ghost predicate Enabled(ex: Extractor, s: StoreState, e: Event) {
    match e
    case IndexRef(r, choice, served) =>
      && ManifestWellFormed(r.manifest) && EmptyFilesAreEmpty(ex, r) && ServedName(s.branches, served)
      && ValidPassChoice(s, RefInput(ex, s, r), choice)
    case WorkingTreePass(input, choice) =>
      TreeInputFaithful(ex, input) && input.manifest.name != "" && ValidTreeChoice(s, input, choice)
    case RetireLanded(refs, seen, served, d, verdicts, now, policy) =>
      && ServedName(s.branches, seen) && ServedName(s.branches, served)
      && AreFindings(s.branches, refs, seen, d, verdicts) && VerdictsKnown(s.branches, verdicts)
    case PurgeExpired(refs, served, now) => ServedName(s.branches, served)
    case Operator(verb, name, served, now, policy) => ServedName(s.branches, served)
  }

  /** The ref pass commits: it is not refused and its rows fit the primary key. */
  ghost predicate Commits(ex: Extractor, s: StoreState, r: RefListing, choice: Choice, served: Option<string>)
    requires ValidPassChoice(s, RefInput(ex, s, r), choice)
  {
    Refusal(s.branches, served, r.manifest.name).None? && Distinct(ChunkIds(PassRows(RefInput(ex, s, r), choice)))
  }

  ghost function Step(ex: Extractor, s: StoreState, e: Event): StoreState
    requires Enabled(ex, s, e)
  {
    match e
    case IndexRef(r, choice, served) =>
      if Commits(ex, s, r, choice, served) then PassResult(s, RefInput(ex, s, r), choice) else s
    case WorkingTreePass(input, choice) => TreePassResult(s, input, choice)
    case RetireLanded(refs, seen, served, d, verdicts, now, policy) => RetireStep(s, refs, served, d, verdicts, now, policy)
    case PurgeExpired(refs, served, now) => PurgeStep(s, refs, served, now)
    case Operator(verb, name, served, now, policy) =>
      if VerbRefusal(s.branches, served, verb, name).Some? then s else VerbResult(s, verb, name, now, policy)
  }

  /** A run: every state follows from the one before by one event. */
  ghost predicate IsRun(ex: Extractor, states: seq<StoreState>, events: seq<Event>) {
    |states| == |events| + 1 && forall i: nat :: i < |events| ==> StepAt(ex, states, events, i)
  }

  ghost predicate StepAt(ex: Extractor, states: seq<StoreState>, events: seq<Event>, i: nat)
    requires |states| == |events| + 1 && i < |events|
  {
    StepsTo(ex, states[i], events[i], states[i + 1])
  }

  /** The step into the `i`-th state. */
  lemma StepInto(ex: Extractor, states: seq<StoreState>, events: seq<Event>, i: nat)
    requires IsRun(ex, states, events) && 0 < i < |states|
    ensures StepsTo(ex, states[i - 1], events[i - 1], states[i])
  {
    assert StepAt(ex, states, events, i - 1);
  }

  ghost predicate StepsTo(ex: Extractor, s: StoreState, e: Event, t: StoreState) {
    Enabled(ex, s, e) && t == Step(ex, s, e)
  }

  /** A bundle with no project rows: dependency chunks and their vectors only. */
  ghost predicate NoProjectYet(s: StoreState) {
    && ProjectIds(s) == {} && s.branches == map[] && s.files == map[] && s.membership == map[] && s.cache == map[]
    && VectorsOwn(s.chunks, s.vectors)
  }

  lemma NewBundleHolds(ex: Extractor, s: StoreState)
    requires NoProjectYet(s)
    ensures StoreHolds(ex, s) && NoTornRow(s)
  {
    forall id ensures id !in Unnamed(s) {
      assert id !in ProjectIds(s);
    }
  }

  // ----- the landing-unit link keeps the invariant

  /** A wider naming over the same chunks leaves nothing to collect. */
  ghost predicate NamesMore(s: StoreState, t: StoreState) {
    && t.chunks == s.chunks && t.vectors == s.vectors && t.files == s.files && t.cache == s.cache
    && MembershipLive(t.chunks, t.membership)
    && forall id :: Named(s, id) ==> Named(t, id)
  }

  lemma NamingMoreKeeps(ex: Extractor, s: StoreState, t: StoreState)
    requires StoreHolds(ex, s) && NamesMore(s, t)
    ensures StoreHolds(ex, t)
  {
    forall id ensures id !in Unnamed(t) {
      assert id !in Unnamed(s);
    }
    forall k | k in t.cache ensures Listed(t, k.blob, k.path) {
      assert Listed(s, k.blob, k.path);
    }
  }

  lemma RowsLive(s: StoreState, b: string)
    requires MembershipLive(s.chunks, s.membership)
    ensures Distinct(ChunkIds(RowsOf(s.membership, b))) && forall id :: id in ChunkIds(RowsOf(s.membership, b)) ==> Live(s.chunks, id)
  {
  }

  lemma CopyNamesMore(s: StoreState, source: string, target: string, slice: Slice)
    requires MembershipLive(s.chunks, s.membership)
    ensures NamesMore(s, s.(membership := CopiedMembership(s.membership, source, target, slice)))
  {
    var copied := SliceRows(RowsOf(s.membership, source), slice);
    var own := RowsOf(s.membership, target);
    RowsLive(s, source);
    RowsLive(s, target);
    SlicedRows(RowsOf(s.membership, source), slice);
    CopiedIds(own, copied);
    var rows := RowsNotNaming(own, Elems(ChunkIds(copied))) + copied;
    ReplacingKeeps(s.chunks, s.membership, target, rows);
    var t := s.(membership := Replaced(s.membership, target, rows));
    forall id | Named(s, id) ensures Named(t, id) {
      var b :| b in s.membership && id in ChunkIds(s.membership[b]);
      if b == target {
        assert id in ChunkIds(rows) && rows != [];
        assert t.membership[target] == rows;
      } else {
        assert b in t.membership && t.membership[b] == s.membership[b];
      }
    }
  }

  /** Two stores with the same rows in every table the naming concerns. */
  lemma NamesMoreElsewhere(s: StoreState, u: StoreState, t: StoreState)
    requires NamesMore(s, u) && t == u.(branches := t.branches, trees := t.trees)
    ensures NamesMore(s, t)
  {
    assert forall id :: Named(u, id) <==> Named(t, id);
  }

  lemma SameRowsNameMore(s: StoreState, t: StoreState)
    requires MembershipLive(s.chunks, s.membership) && t == s.(branches := t.branches)
    ensures NamesMore(s, t)
  {
    assert forall id :: Named(s, id) <==> Named(t, id);
  }

  lemma LinkNamesMore(s: StoreState, v: MergeVerdict, index: map<string, LandingStep>, merged: BranchRecord, now: real)
    requires MembershipLive(s.chunks, s.membership)
    ensures NamesMore(s, LinkedLandingUnit(s, v, index, merged, now))
  {
    var sha := v.landingSha;
    var t := LinkedLandingUnit(s, v, index, merged, now);
    if sha in s.branches && !s.branches[sha].IsLandingUnit() {
      SameRowsNameMore(s, t);
    } else {
      CopyNamesMore(s, v.branch, sha, DiffSlice);
      NamesMoreElsewhere(s, s.(membership := CopiedMembership(s.membership, v.branch, sha, DiffSlice)), t);
    }
  }

  lemma VerdictKeeps(ex: Extractor, s: StoreState, v: MergeVerdict, baseName: string, now: real, policy: RetirementPolicy, index: map<string, LandingStep>)
    requires StoreHolds(ex, s) && v.branch in s.branches
    ensures StoreHolds(ex, AppliedVerdict(s, v, baseName, now, policy, index))
  {
    var after := VerdictRecord(s.branches[v.branch], v, baseName, now, policy);
    var t := s.(branches := s.branches[v.branch := after]);
    OnlyRecords(ex, s, t);
    if Moves(s.branches[v.branch], policy) {
      LinkNamesMore(t, v, index, after, now);
      NamingMoreKeeps(ex, t, LinkedLandingUnit(t, v, index, after, now));
    }
  }

  /** The records play no part in the invariant. */
  lemma OnlyRecords(ex: Extractor, s: StoreState, t: StoreState)
    requires StoreHolds(ex, s) && t == s.(branches := t.branches, trees := t.trees)
    ensures StoreHolds(ex, t)
  {
    assert forall id :: Named(s, id) <==> Named(t, id);
    NamingMoreKeeps(ex, s, t);
  }

  lemma {:induction false} VerdictsKeep(ex: Extractor, s: StoreState, verdicts: seq<MergeVerdict>, baseName: string, now: real,
                                        policy: RetirementPolicy, index: map<string, LandingStep>)
    requires StoreHolds(ex, s) && VerdictsKnown(s.branches, verdicts)
    ensures StoreHolds(ex, AppliedVerdicts(s, verdicts, baseName, now, policy, index))
  {
    if verdicts != [] {
      var earlier, last := verdicts[..|verdicts| - 1], verdicts[|verdicts| - 1];
      assert last in verdicts && forall v :: v in earlier ==> v in verdicts;
      VerdictsKeep(ex, s, earlier, baseName, now, policy, index);
      VerdictKeeps(ex, AppliedVerdicts(s, earlier, baseName, now, policy, index), last, baseName, now, policy, index);
    }
  }

  lemma PurgingKeeps(ex: Extractor, s: StoreState, names: set<string>)
    requires TablesHold(ex, s)
    ensures StoreHolds(ex, PurgedAll(s, names))
  {
    var w := WithoutRows(s, names);
    assert TablesHold(ex, w);
    CollectKeeps(ex, w, None);
  }

  lemma VerbKeeps(ex: Extractor, s: StoreState, verb: Verb, name: string, now: real, policy: RetirementPolicy)
    requires StoreHolds(ex, s) && name in s.branches
    ensures StoreHolds(ex, VerbResult(s, verb, name, now, policy))
  {
    if verb.Purge? {
      var t := if s.branches[name].status == Active then s.(branches := s.branches[name := ManuallyRetired(s.branches[name], now, now)]) else s;
      OnlyRecords(ex, s, t);
      PurgingKeeps(ex, t, {name});
    } else {
      OnlyRecords(ex, s, VerbResult(s, verb, name, now, policy));
    }
  }

  lemma RefStepKeeps(ex: Extractor, s: StoreState, r: RefListing, choice: Choice, served: Option<string>)
    requires ex.WellFormed() && StoreHolds(ex, s) && ManifestWellFormed(r.manifest) && ValidPassChoice(s, RefInput(ex, s, r), choice)
    requires Commits(ex, s, r, choice, served)
    ensures StoreHolds(ex, PassResult(s, RefInput(ex, s, r), choice))
  {
    PassKeys(ex, s, r, choice);
    PassKeepsInvariant(ex, s, r, choice);
  }

  lemma RetireStepKeeps(ex: Extractor, s: StoreState, refs: RefSnapshot, served: Option<string>, d: Option<Detection>,
                        verdicts: seq<MergeVerdict>, now: real, policy: RetirementPolicy)
    requires StoreHolds(ex, s) && VerdictsKnown(s.branches, verdicts)
    ensures StoreHolds(ex, RetireStep(s, refs, served, d, verdicts, now, policy))
  {
    VerdictsKeep(ex, s, verdicts, BaseNameOf(d), now, policy, IndexOf(d));
    OnlyRecords(ex, AppliedVerdicts(s, verdicts, BaseNameOf(d), now, policy, IndexOf(d)), RetireStep(s, refs, served, d, verdicts, now, policy));
  }

  lemma StepKeeps(ex: Extractor, s: StoreState, e: Event, t: StoreState)
    requires ex.WellFormed() && StoreHolds(ex, s) && StepsTo(ex, s, e, t)
    ensures StoreHolds(ex, t)
  {
    match e
    case IndexRef(r, choice, served) =>
      if Commits(ex, s, r, choice, served) { RefStepKeeps(ex, s, r, choice, served); }
    case WorkingTreePass(input, choice) => TreePassKeepsInvariant(ex, s, input, choice);
    case RetireLanded(refs, seen, served, d, verdicts, now, policy) => RetireStepKeeps(ex, s, refs, served, d, verdicts, now, policy);
    case PurgeExpired(refs, served, now) => PurgingKeeps(ex, s, DueNames(s, now, ProtectedNames(refs, served)));
    case Operator(verb, name, served, now, policy) =>
      if VerbRefusal(s.branches, served, verb, name).None? { VerbKeeps(ex, s, verb, name, now, policy); }
  }

  lemma StepKeepsAt(ex: Extractor, states: seq<StoreState>, events: seq<Event>, i: nat)
    requires ex.WellFormed() && IsRun(ex, states, events) && 0 < i < |states| && StoreHolds(ex, states[i - 1])
    ensures StoreHolds(ex, states[i])
  {
    StepInto(ex, states, events, i);
    StepKeeps(ex, states[i - 1], events[i - 1], states[i]);
  }

  /** The store invariant over every run, whichever freed ids the inserts reuse:
      membership and cache rows name live ids of their own content, vectors belong to
      their rows, every project chunk is named and every cache row is listed. */
  lemma {:induction false} RunKeepsInvariant(ex: Extractor, states: seq<StoreState>, events: seq<Event>, i: nat)
    requires ex.WellFormed() && IsRun(ex, states, events) && StoreHolds(ex, states[0]) && i < |states|
    ensures StoreHolds(ex, states[i])
  {
    if i > 0 {
      RunKeepsInvariant(ex, states, events, i - 1);
      StepKeepsAt(ex, states, events, i);
    }
  }

  // ----- torn rows over runs

  /** The event rewrites a cached file's spans and keeps a tree of another module. */
  ghost predicate TearsARow(ex: Extractor, s: StoreState, e: Event)
    requires Enabled(ex, s, e)
  {
    match e
    case IndexRef(r, choice, served) =>
      Commits(ex, s, r, choice, served) && TearsSome(s.cache, r.manifest.cacheKey, Extracted(RefInput(ex, s, r)))
    case WorkingTreePass(input, choice) => TearsSome(s.cache, input.manifest.cacheKey, input.extraction.files)
    case RetireLanded(_, _, _, _, _, _, _) => false
    case PurgeExpired(_, _, _) => false
    case Operator(_, _, _, _, _) => false
  }

  lemma PurgingTearsNothing(ex: Extractor, s: StoreState, names: set<string>)
    requires TablesHold(ex, s) && NoTornRow(s)
    ensures NoTornRow(PurgedAll(s, names))
  {
    var w, t := WithoutRows(s, names), PurgedAll(s, names);
    assert TablesHold(ex, w);
    forall k | k in t.cache ensures !Torn(t.chunks, t.cache[k]) {
      TornAfterCollecting(ex, w, None, k);
    }
  }

  lemma SameCacheSameTears(s: StoreState, t: StoreState)
    requires t.chunks == s.chunks && t.cache == s.cache && NoTornRow(s)
    ensures NoTornRow(t)
  {
  }

  lemma RefStepTears(ex: Extractor, s: StoreState, r: RefListing, choice: Choice, served: Option<string>)
    requires ex.WellFormed() && StoreHolds(ex, s) && NoTornRow(s) && ManifestWellFormed(r.manifest)
    requires ValidPassChoice(s, RefInput(ex, s, r), choice) && Commits(ex, s, r, choice, served)
    ensures NoTornRow(PassResult(s, RefInput(ex, s, r), choice))
            <==> !TearsSome(s.cache, r.manifest.cacheKey, Extracted(RefInput(ex, s, r)))
  {
    PassKeys(ex, s, r, choice);
    RefPassTearsExactly(ex, s, r, choice);
  }

  lemma VerbTearsNothing(ex: Extractor, s: StoreState, verb: Verb, name: string, now: real, policy: RetirementPolicy)
    requires StoreHolds(ex, s) && NoTornRow(s) && name in s.branches
    ensures NoTornRow(VerbResult(s, verb, name, now, policy))
  {
    if verb.Purge? {
      var t := if s.branches[name].status == Active then s.(branches := s.branches[name := ManuallyRetired(s.branches[name], now, now)]) else s;
      PurgingTearsNothing(ex, t, {name});
    } else {
      SameCacheSameTears(s, VerbResult(s, verb, name, now, policy));
    }
  }

  lemma RetiringTearsNothing(s: StoreState, refs: RefSnapshot, served: Option<string>, d: Option<Detection>,
                             verdicts: seq<MergeVerdict>, now: real, policy: RetirementPolicy)
    requires NoTornRow(s) && VerdictsKnown(s.branches, verdicts)
    ensures NoTornRow(RetireStep(s, refs, served, d, verdicts, now, policy))
  {
    RetireKeepsRows(s, refs, served, d, verdicts, now, policy);
    SameCacheSameTears(s, RetireStep(s, refs, served, d, verdicts, now, policy));
  }

  lemma StepTears(ex: Extractor, s: StoreState, e: Event, t: StoreState)
    requires ex.WellFormed() && StoreHolds(ex, s) && NoTornRow(s) && StepsTo(ex, s, e, t)
    ensures NoTornRow(t) <==> !TearsARow(ex, s, e)
  {
    match e
    case IndexRef(r, choice, served) =>
      if Commits(ex, s, r, choice, served) { RefStepTears(ex, s, r, choice, served); }
    case WorkingTreePass(input, choice) => TreePassTearsExactly(ex, s, input, choice);
    case RetireLanded(refs, seen, served, d, verdicts, now, policy) => RetiringTearsNothing(s, refs, served, d, verdicts, now, policy);
    case PurgeExpired(refs, served, now) => PurgingTearsNothing(ex, s, DueNames(s, now, ProtectedNames(refs, served)));
    case Operator(verb, name, served, now, policy) =>
      if VerbRefusal(s.branches, served, verb, name).None? { VerbTearsNothing(ex, s, verb, name, now, policy); }
  }

  /** Some event before the `i`-th state tore a row. */
  ghost predicate Tore(ex: Extractor, states: seq<StoreState>, events: seq<Event>, i: nat)
    requires IsRun(ex, states, events) && i < |states|
  {
    i > 0 && (Tore(ex, states, events, i - 1)
              || (StepAt(ex, states, events, i - 1) && TearsARow(ex, states[i - 1], events[i - 1])))
  }

  ghost predicate UntornUpTo(states: seq<StoreState>, i: nat)
    requires i < |states|
  {
    NoTornRow(states[i]) && (i > 0 ==> UntornUpTo(states, i - 1))
  }

  /** A run reaches a torn row exactly when one of its passes tears a file. */
  lemma {:induction false} RunTearsExactly(ex: Extractor, states: seq<StoreState>, events: seq<Event>, i: nat)
    requires ex.WellFormed() && IsRun(ex, states, events) && StoreHolds(ex, states[0]) && NoTornRow(states[0]) && i < |states|
    ensures UntornUpTo(states, i) <==> !Tore(ex, states, events, i)
  {
    if i > 0 {
      RunTearsExactly(ex, states, events, i - 1);
      if UntornUpTo(states, i - 1) {
        assert StepAt(ex, states, events, i - 1);
        RunKeepsInvariant(ex, states, events, i - 1);
        StepTears(ex, states[i - 1], events[i - 1], states[i]);
      }
    }
  }

  /** Cache refinement over runs: while no pass has torn a row, every committed ref pass
      leaves its branch with what a cache-free extraction of every file would give. */
  lemma RunRefinesFreshExtraction(ex: Extractor, states: seq<StoreState>, events: seq<Event>, i: nat)
    requires ex.WellFormed() && IsRun(ex, states, events) && StoreHolds(ex, states[0]) && NoTornRow(states[0])
    requires i < |events| && events[i].IndexRef? && StepAt(ex, states, events, i)
    requires Commits(ex, states[i], events[i].r, events[i].refChoice, events[i].served)
    requires !Tore(ex, states, events, i)
    ensures var m := events[i].r.manifest;
            Views(states[i + 1].chunks, RowsOf(states[i + 1].membership, m.name)) == FreshPieces(ex, m, m.files)
  {
    RunTearsExactly(ex, states, events, i);
    RunKeepsInvariant(ex, states, events, i);
    UntornStateKeepsNoTornHit(ex, states[i], events[i].r);
    CacheRefinement(ex, states[i], events[i].r, events[i].refChoice);
  }

  lemma UntornStateKeepsNoTornHit(ex: Extractor, s: StoreState, r: RefListing)
    requires NoTornRow(s)
    ensures !KeepsTornHit(ex, s, r)
  {
  }
}
