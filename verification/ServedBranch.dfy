/** The served branch over whole runs: the row the default-branch query picks is the last
    working-tree pass's, Active, and holds exactly what that pass stored. */
module ServedBranch {
  import opened Common
  import opened BranchRecords
  import opened BundleTables
  import opened ExtractionCache
  import opened BranchPass
  import opened PassFacts
  import opened StoreInvariant
  import opened PassTheorems
  import opened TreePass
  import opened Retirement
  import opened MaintenanceTheorems
  import opened Runs

  /** `name`, stamped at `at`, is the one row the query can pick, and it is in service. */
  ghost predicate Serves(s: StoreState, name: string, at: real) {
    && NamesMatch(s.branches) && name in s.branches && IsInService(s.branches[name], at)
    && forall n :: n in s.branches && s.branches[n].isDefault && n != name ==> s.branches[n].indexedAt < at
  }

  predicate IsInService(record: BranchRecord, at: real) {
    record.isDefault && record.indexedAt == at && record.status == Active && !record.IsLandingUnit()
  }

  ghost predicate ServesNothing(s: StoreState) {
    NamesMatch(s.branches) && forall n :: n in s.branches ==> !s.branches[n].isDefault
  }

  lemma ServedIsUnique(s: StoreState, name: string, at: real, served: Option<string>)
    requires Serves(s, name, at) && ServedName(s.branches, served)
    ensures served == Some(name)
  {
    assert s.branches[name].isDefault;
  }

  // ----- events that do not stamp the working tree

  lemma RefPassServes(s: StoreState, input: PassInput, choice: Choice, name: string, at: real)
    requires Serves(s, name, at) && Fits(choice, PassChunks(input)) && AreNewIds(s, choice.newIds) && input.manifest.name != name
    ensures Serves(PassResult(s, input, choice), name, at) && SameBranchView(s, PassResult(s, input, choice), name)
  {
    RefPassIsolates(s, input, choice, name);
    RefPassRecords(s, input, choice);
  }

  lemma RefPassRecords(s: StoreState, input: PassInput, choice: Choice)
    requires Fits(choice, PassChunks(input)) && AreNewIds(s, choice.newIds) && NamesMatch(s.branches)
    ensures var after, m := PassResult(s, input, choice).branches, input.manifest.name;
            && NamesMatch(after) && m in after && !after[m].isDefault
            && forall n :: n in after && n != m ==> n in s.branches && after[n] == s.branches[n]
  {
    InsertedFrame(s, Added(choice, PassChunks(input)), choice.newIds);
  }

  lemma RetireServes(s: StoreState, refs: RefSnapshot, d: Option<Detection>, verdicts: seq<MergeVerdict>,
                     now: real, policy: RetirementPolicy, name: string, at: real)
    requires Serves(s, name, at) && ServedName(s.branches, Some(name))
    requires AreFindings(s.branches, refs, Some(name), d, verdicts) && VerdictsKnown(s.branches, verdicts)
    ensures var t := RetireStep(s, refs, Some(name), d, verdicts, now, policy);
            Serves(t, name, at) && SameBranchView(s, t, name)
  {
    RetireSpares(s, refs, Some(name), d, verdicts, now, policy, name);
    RetireKeepsNames(s, refs, Some(name), d, verdicts, now, policy);
    RunKeepsServed(s, refs, Some(name), d, verdicts, now, policy);
    RetireKeepsRows(s, refs, Some(name), d, verdicts, now, policy);
    var t := RetireStep(s, refs, Some(name), d, verdicts, now, policy);
    StillInService(s.branches[name], t.branches[name], at);
    SameRowsSameView(s, t, name);
  }

  lemma SameRowsSameView(s: StoreState, t: StoreState, name: string)
    requires OnlyUnitsGrow(s, t) && name in t.branches && !t.branches[name].IsLandingUnit()
    ensures SameBranchView(s, t, name)
  {
  }

  lemma StillInService(before: BranchRecord, after: BranchRecord, at: real)
    requires SameButEvidence(after, before) && IsInService(before, at)
    ensures IsInService(after, at)
  {
    assert after.(mergeEvidence := None, landingSha := None).status == after.status;
    assert before.(mergeEvidence := None, landingSha := None).status == before.status;
  }

  lemma PurgeServes(s: StoreState, refs: RefSnapshot, now: real, name: string, at: real)
    requires Serves(s, name, at)
    ensures Serves(PurgeStep(s, refs, Some(name), now), name, at) && SameBranchView(s, PurgeStep(s, refs, Some(name), now), name)
  {
    PurgeSpares(s, refs, Some(name), now, name);
  }

  lemma RecordServes(s: StoreState, target: string, record: BranchRecord, name: string, at: real)
    requires Serves(s, name, at) && target in s.branches && SameStamp(s.branches[target], record)
    requires target == name ==> IsInService(record, at)
    ensures var t := s.(branches := s.branches[target := record]);
            Serves(t, name, at) && SameBranchView(s, t, name)
  {
  }

  lemma PurgeOtherServes(s: StoreState, target: string, name: string, at: real)
    requires Serves(s, name, at) && target != name
    ensures Serves(Purged(s, target), name, at) && SameBranchView(s, Purged(s, target), name)
  {
    PurgeIsolates(s, {target}, name);
  }

  lemma VerbServes(s: StoreState, verb: Verb, target: string, now: real, policy: RetirementPolicy, name: string, at: real)
    requires Serves(s, name, at) && VerbRefusal(s.branches, Some(name), verb, target).None?
    ensures var t := VerbResult(s, verb, target, now, policy);
            Serves(t, name, at) && SameBranchView(s, t, name)
  {
    var record := s.branches[target];
    match verb
    case Retire => RecordServes(s, target, ManuallyRetired(record, now, policy.PurgeAfter(now)), name, at);
    case Purge =>
      if record.status == Active {
        var retired := s.(branches := s.branches[target := ManuallyRetired(record, now, now)]);
        RecordServes(s, target, ManuallyRetired(record, now, now), name, at);
        PurgeOtherServes(retired, target, name, at);
        ViewsCompose(s, retired, Purged(retired, target), name);
      } else {
        PurgeOtherServes(s, target, name, at);
      }
    case Pin => RecordServes(s, target, record.(pinned := true), name, at);
    case Unpin => RecordServes(s, target, record.(pinned := false), name, at);
  }

  lemma OtherStepServes(ex: Extractor, s: StoreState, e: Event, t: StoreState, name: string, at: real)
    requires Serves(s, name, at) && StepsTo(ex, s, e, t) && !e.WorkingTreePass?
    ensures Serves(t, name, at) && SameBranchView(s, t, name)
  {
    match e
    case IndexRef(r, choice, served) =>
      ServedIsUnique(s, name, at, served);
      if Commits(ex, s, r, choice, served) {
        RefPassServes(s, RefInput(ex, s, r), choice, name, at);
      }
    case RetireLanded(refs, seen, served, d, verdicts, now, policy) =>
      ServedIsUnique(s, name, at, seen);
      ServedIsUnique(s, name, at, served);
      RetireServes(s, refs, d, verdicts, now, policy, name, at);
    case PurgeExpired(refs, served, now) =>
      ServedIsUnique(s, name, at, served);
      PurgeServes(s, refs, now, name, at);
    case Operator(verb, target, served, now, policy) =>
      ServedIsUnique(s, name, at, served);
      if VerbRefusal(s.branches, served, verb, target).None? {
        VerbServes(s, verb, target, now, policy, name, at);
      }
  }

  lemma RecordServesNothing(s: StoreState, target: string, record: BranchRecord)
    requires ServesNothing(s) && target in s.branches && SameStamp(s.branches[target], record)
    ensures ServesNothing(s.(branches := s.branches[target := record]))
  {
  }

  lemma VerbServesNothing(s: StoreState, verb: Verb, target: string, now: real, policy: RetirementPolicy)
    requires ServesNothing(s) && target in s.branches
    ensures ServesNothing(VerbResult(s, verb, target, now, policy))
  {
    var record := s.branches[target];
    match verb
    case Retire => RecordServesNothing(s, target, ManuallyRetired(record, now, policy.PurgeAfter(now)));
    case Purge => RecordServesNothing(s, target, ManuallyRetired(record, now, now));
    case Pin => RecordServesNothing(s, target, record.(pinned := true));
    case Unpin => RecordServesNothing(s, target, record.(pinned := false));
  }

  lemma RetireServesNothing(s: StoreState, refs: RefSnapshot, d: Option<Detection>, verdicts: seq<MergeVerdict>, now: real, policy: RetirementPolicy)
    requires ServesNothing(s) && AreFindings(s.branches, refs, None, d, verdicts) && VerdictsKnown(s.branches, verdicts)
    ensures ServesNothing(RetireStep(s, refs, None, d, verdicts, now, policy))
  {
    RetireKeepsNames(s, refs, None, d, verdicts, now, policy);
    RunKeepsServed(s, refs, None, d, verdicts, now, policy);
  }

  lemma NothingServed(s: StoreState, served: Option<string>)
    requires ServesNothing(s) && ServedName(s.branches, served)
    ensures served == None
  {
  }

  lemma OtherStepServesNothing(ex: Extractor, s: StoreState, e: Event, t: StoreState)
    requires ServesNothing(s) && StepsTo(ex, s, e, t) && !e.WorkingTreePass?
    ensures ServesNothing(t)
  {
    match e
    case IndexRef(r, choice, served) =>
      if Commits(ex, s, r, choice, served) {
        RefPassRecords(s, RefInput(ex, s, r), choice);
      }
    case RetireLanded(refs, seen, served, d, verdicts, now, policy) =>
      NothingServed(s, seen);
      NothingServed(s, served);
      RetireServesNothing(s, refs, d, verdicts, now, policy);
    case PurgeExpired(refs, served, now) =>
      assert PurgeStep(s, refs, served, now).branches == s.branches;
    case Operator(verb, target, served, now, policy) =>
      if VerbRefusal(s.branches, served, verb, target).None? {
        VerbServesNothing(s, verb, target, now, policy);
      }
  }

  // ----- the stamp

  /** A working-tree pass stamped later than every other default row is served next. */
  lemma StampServes(s: StoreState, input: TreeInput, choice: Choice)
    requires Fits(choice, input.extraction.AllChunks()) && AreNewIds(s, choice.newIds) && NamesMatch(s.branches)
    requires forall n :: n in s.branches && s.branches[n].isDefault && n != input.manifest.name ==> s.branches[n].indexedAt < input.now
    ensures Serves(TreePassResult(s, input, choice), input.manifest.name, input.now)
  {
    AloneTables(s, input, choice);
    TreePassTables(s, input, choice);
  }

  // ----- runs

  /** The last working-tree pass before the `i`-th state. */
  ghost function LastStamp(events: seq<Event>, i: nat): (last: Option<nat>)
    requires i <= |events|
    ensures last.Some? ==> last.value < i && events[last.value].WorkingTreePass?
    ensures last.Some? ==> forall j :: last.value < j < i ==> !events[j].WorkingTreePass?
    ensures last.None? ==> forall j :: 0 <= j < i ==> !events[j].WorkingTreePass?
  {
    if i == 0 then None
    else if events[i - 1].WorkingTreePass? then Some(i - 1)
    else LastStamp(events, i - 1)
  }

  /** Each working-tree stamp is later than the one before. */
  ghost predicate StampsAdvance(events: seq<Event>) {
    forall i: nat, j: nat :: i < j < |events| ==> InOrder(events, i, j)
  }

  ghost predicate InOrder(events: seq<Event>, i: nat, j: nat)
    requires i < j < |events|
  {
    events[i].WorkingTreePass? && events[j].WorkingTreePass? ==> events[i].input.now < events[j].input.now
  }

  /** What the last working-tree pass stamped is served, as that pass left it. */
  ghost predicate ServesSince(s: StoreState, input: TreeInput, left: StoreState) {
    Serves(s, input.manifest.name, input.now) && SameBranchView(left, s, input.manifest.name)
  }

  ghost predicate ServesLast(states: seq<StoreState>, events: seq<Event>, i: nat)
    requires |states| == |events| + 1 && i < |states|
  {
    match LastStamp(events, i)
    case None => ServesNothing(states[i])
    case Some(j) => ServesSince(states[i], events[j].input, states[j + 1])
  }

  lemma FirstStampStep(ex: Extractor, s: StoreState, e: Event, t: StoreState)
    requires ServesNothing(s) && StepsTo(ex, s, e, t) && e.WorkingTreePass?
    ensures ServesSince(t, e.input, t)
  {
    StampServes(s, e.input, e.treeChoice);
  }

  lemma LaterStampStep(ex: Extractor, s: StoreState, e: Event, t: StoreState, name: string, at: real)
    requires Serves(s, name, at) && StepsTo(ex, s, e, t) && e.WorkingTreePass? && at < e.input.now
    ensures ServesSince(t, e.input, t)
  {
    StampServes(s, e.input, e.treeChoice);
  }

  lemma OtherStepSince(ex: Extractor, s: StoreState, e: Event, t: StoreState, input: TreeInput, left: StoreState)
    requires ServesSince(s, input, left) && StepsTo(ex, s, e, t) && !e.WorkingTreePass?
    ensures ServesSince(t, input, left)
  {
    OtherStepServes(ex, s, e, t, input.manifest.name, input.now);
    ViewsCompose(left, s, t, input.manifest.name);
  }

  lemma NoRecordsServeNothing(s: StoreState)
    requires s.branches == map[]
    ensures ServesNothing(s)
  {
  }

  lemma NextAfterStamp(ex: Extractor, states: seq<StoreState>, events: seq<Event>, i: nat)
    requires IsRun(ex, states, events) && 0 < i < |states| && events[i - 1].WorkingTreePass?
    requires LastStamp(events, i - 1).None? ==> ServesNothing(states[i - 1])
    requires LastStamp(events, i - 1).Some? ==>
               var last := events[LastStamp(events, i - 1).value].input;
               Serves(states[i - 1], last.manifest.name, last.now) && last.now < events[i - 1].input.now
    ensures ServesSince(states[i], events[i - 1].input, states[i])
  {
    StepInto(ex, states, events, i);
    if LastStamp(events, i - 1).None? {
      FirstStampStep(ex, states[i - 1], events[i - 1], states[i]);
    } else {
      var last := events[LastStamp(events, i - 1).value].input;
      LaterStampStep(ex, states[i - 1], events[i - 1], states[i], last.manifest.name, last.now);
    }
  }

  lemma NextServesNothing(ex: Extractor, states: seq<StoreState>, events: seq<Event>, i: nat)
    requires IsRun(ex, states, events) && 0 < i < |states| && !events[i - 1].WorkingTreePass? && ServesNothing(states[i - 1])
    ensures ServesNothing(states[i])
  {
    StepInto(ex, states, events, i);
    OtherStepServesNothing(ex, states[i - 1], events[i - 1], states[i]);
  }

  lemma NextServesSince(ex: Extractor, states: seq<StoreState>, events: seq<Event>, i: nat, input: TreeInput, left: StoreState)
    requires IsRun(ex, states, events) && 0 < i < |states| && !events[i - 1].WorkingTreePass?
    requires ServesSince(states[i - 1], input, left)
    ensures ServesSince(states[i], input, left)
  {
    StepInto(ex, states, events, i);
    OtherStepSince(ex, states[i - 1], events[i - 1], states[i], input, left);
  }

  lemma ServesNext(ex: Extractor, states: seq<StoreState>, events: seq<Event>, i: nat)
    requires IsRun(ex, states, events) && StampsAdvance(events) && 0 < i < |states| && ServesLast(states, events, i - 1)
    ensures ServesLast(states, events, i)
  {
    var last := LastStamp(events, i - 1);
    if events[i - 1].WorkingTreePass? {
      assert last.Some? ==> InOrder(events, last.value, i - 1);
      NextAfterStamp(ex, states, events, i);
    } else if last.None? {
      NextServesNothing(ex, states, events, i);
    } else {
      NextServesSince(ex, states, events, i, events[last.value].input, states[last.value + 1]);
    }
  }

  /** Under an advancing clock no sequence of passes, maintenance runs and verbs retires,
      empties or changes the served branch: it is the last working-tree pass's, Active,
      with the rows that pass left. */
  lemma {:induction false} ServedOverRuns(ex: Extractor, states: seq<StoreState>, events: seq<Event>, i: nat)
    requires IsRun(ex, states, events) && states[0].branches == map[] && StampsAdvance(events) && i < |states|
    ensures ServesLast(states, events, i)
  {
    if i == 0 {
      NoRecordsServeNothing(states[0]);
    } else {
      ServedOverRuns(ex, states, events, i - 1);
      ServesNext(ex, states, events, i);
    }
  }

  /** Whatever ran since, the served branch is Active and reads, path, span and content,
      as the last checkout's own extraction. */
  lemma ServedContentOverRuns(ex: Extractor, states: seq<StoreState>, events: seq<Event>, i: nat, name: string)
    requires ex.WellFormed() && IsRun(ex, states, events) && NoProjectYet(states[0]) && StampsAdvance(events) && i < |states|
    requires IsServed(states[i].branches, name)
    ensures states[i].branches[name].status == Active && LastStamp(events, i).Some?
    ensures var input := events[LastStamp(events, i).value].input;
            && input.manifest.name == name
            && RowsOf(states[i].files, name) == input.manifest.files
            && Views(states[i].chunks, RowsOf(states[i].membership, name)) == Pieces(input.extraction.AllChunks())
  {
    ServedOverRuns(ex, states, events, i);
    ServedWasStamped(states, events, i, name);
    var j := LastStamp(events, i).value;
    StampedContent(ex, states, events, j);
    SameViewSamePieces(states[j + 1], states[i], name);
  }

  lemma ServedWasStamped(states: seq<StoreState>, events: seq<Event>, i: nat, name: string)
    requires |states| == |events| + 1 && i < |states| && ServesLast(states, events, i) && IsServed(states[i].branches, name)
    ensures LastStamp(events, i).Some?
    ensures var j := LastStamp(events, i).value;
            && events[j].input.manifest.name == name && states[i].branches[name].status == Active
            && SameBranchView(states[j + 1], states[i], name)
  {
    var j := LastStamp(events, i);
    if j.Some? {
      ServedIsUnique(states[i], events[j.value].input.manifest.name, events[j.value].input.now, Some(name));
    }
  }

  /** What the `j`-th event, a working-tree pass, left. */
  lemma StampedContent(ex: Extractor, states: seq<StoreState>, events: seq<Event>, j: nat)
    requires ex.WellFormed() && IsRun(ex, states, events) && NoProjectYet(states[0])
    requires j < |events| && events[j].WorkingTreePass?
    ensures var input, after := events[j].input, states[j + 1];
            && RowsOf(after.files, input.manifest.name) == input.manifest.files
            && Views(after.chunks, RowsOf(after.membership, input.manifest.name)) == Pieces(input.extraction.AllChunks())
            && MembershipLive(after.chunks, after.membership)
  {
    NewBundleHolds(ex, states[0]);
    RunKeepsInvariant(ex, states, events, j);
    RunKeepsInvariant(ex, states, events, j + 1);
    StampedInRun(ex, states, events, j);
  }

  lemma StampedInRun(ex: Extractor, states: seq<StoreState>, events: seq<Event>, j: nat)
    requires IsRun(ex, states, events) && j < |events| && events[j].WorkingTreePass? && TablesHold(ex, states[j])
    ensures var input, after := events[j].input, states[j + 1];
            && RowsOf(after.files, input.manifest.name) == input.manifest.files
            && Views(after.chunks, RowsOf(after.membership, input.manifest.name)) == Pieces(input.extraction.AllChunks())
  {
    assert StepAt(ex, states, events, j);
    StampedRows(ex, states[j], events[j], states[j + 1]);
  }

  lemma StampedRows(ex: Extractor, s: StoreState, e: Event, t: StoreState)
    requires TablesHold(ex, s) && StepsTo(ex, s, e, t) && e.WorkingTreePass?
    ensures var input := e.input;
            && RowsOf(t.files, input.manifest.name) == input.manifest.files
            && Views(t.chunks, RowsOf(t.membership, input.manifest.name)) == Pieces(input.extraction.AllChunks())
  {
    TreePassStoresExtraction(ex, s, e.input, e.treeChoice);
    TreePassTables(s, e.input, e.treeChoice);
  }

  lemma SameViewSamePieces(s: StoreState, t: StoreState, name: string)
    requires SameBranchView(s, t, name) && MembershipLive(s.chunks, s.membership)
    ensures Views(t.chunks, RowsOf(t.membership, name)) == Views(s.chunks, RowsOf(s.membership, name))
  {
    var rows := RowsOf(s.membership, name);
    RowsLive(s, name);
    forall row | row in rows ensures RowPiece(t.chunks)(row) == RowPiece(s.chunks)(row) {
      var i :| 0 <= i < |rows| && rows[i] == row;
      assert ChunkIds(rows)[i] == row.chunkId && Live(s.chunks, row.chunkId);
    }
    ImageAgrees(RowPiece(t.chunks), RowPiece(s.chunks), rows);
  }
}
