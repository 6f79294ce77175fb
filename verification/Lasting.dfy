/** What lasts over whole runs: a landing unit's record and chunks, and the vector of a
    chunk row for as long as the row lives. */
module Lasting {
  import opened Common
  import opened BranchRecords
  import opened BundleTables
  import opened ExtractionCache
  import opened ChunkDiff
  import opened BranchPass
  import opened PassFacts
  import opened StoreInvariant
  import opened RefPass
  import opened PassTheorems
  import opened TreePass
  import opened PassLaws
  import opened Retirement
  import opened MaintenanceTheorems
  import opened RetirementLaws
  import opened VerbLaws
  import opened Runs
  import opened RunLaws

  // ----- landing units

  /** The unit's row is as it was but for the pin, and it names what it named. */
  ghost predicate UnitLasts(s: StoreState, t: StoreState, n: string) {
    && n in s.branches && n in t.branches && KeepsRows(s, t, n)
    && t.branches[n] == s.branches[n].(pinned := t.branches[n].pinned)
  }

  lemma UntouchedLasts(s: StoreState, t: StoreState, n: string)
    requires n in s.branches && Untouched(s, t, n)
    ensures UnitLasts(s, t, n)
  {
  }

  lemma UnitThroughRefPass(s: StoreState, input: PassInput, choice: Choice, n: string)
    requires Fits(choice, PassChunks(input)) && AreNewIds(s, choice.newIds) && n in s.branches && input.manifest.name != n
    ensures UnitLasts(s, PassResult(s, input, choice), n)
  {
    RefPassElsewhere(s, input, choice, n);
    UntouchedLasts(s, PassResult(s, input, choice), n);
  }

  lemma UnitThroughTreePass(s: StoreState, input: TreeInput, choice: Choice, n: string)
    requires Fits(choice, input.extraction.AllChunks()) && AreNewIds(s, choice.newIds) && NamesMatch(s.branches)
    requires n in s.branches && s.branches[n].IsLandingUnit() && input.manifest.name != n && n != ""
    ensures UnitLasts(s, TreePassResult(s, input, choice), n)
  {
    TreePassElsewhere(s, input, choice, n);
    UntouchedLasts(s, TreePassResult(s, input, choice), n);
  }

  lemma UnitThroughRetirement(s: StoreState, refs: RefSnapshot, served: Option<string>, seen: Option<string>, d: Option<Detection>,
                              verdicts: seq<MergeVerdict>, now: real, policy: RetirementPolicy, n: string)
    requires AreFindings(s.branches, refs, seen, d, verdicts) && VerdictsKnown(s.branches, verdicts) && NamesMatch(s.branches)
    requires n in s.branches && s.branches[n].IsLandingUnit()
    ensures UnitLasts(s, RetireStep(s, refs, served, d, verdicts, now, policy), n)
  {
    RowThroughRetirement(s, refs, served, seen, d, verdicts, now, policy, n);
    RetireKeepsIds(s, refs, served, d, verdicts, now, policy, n);
  }

  lemma UnitThroughPurge(s: StoreState, refs: RefSnapshot, served: Option<string>, now: real, n: string)
    requires NamesMatch(s.branches) && n in s.branches && s.branches[n].IsLandingUnit()
    ensures UnitLasts(s, PurgeStep(s, refs, served, now), n)
  {
    PurgedExactly(s, refs, served, now, n);
    SameViewKeepsRows(s, PurgeStep(s, refs, served, now), n);
  }

  lemma UnitThroughVerb(s: StoreState, served: Option<string>, verb: Verb, name: string, now: real, policy: RetirementPolicy, n: string)
    requires n in s.branches && s.branches[n].IsLandingUnit() && VerbRefusal(s.branches, served, verb, name).None?
    ensures UnitLasts(s, VerbResult(s, verb, name, now, policy), n)
  {
    if name == n {
      PinOfUnit(s, verb, n, now, policy);
    } else {
      VerbElsewhere(s, verb, name, now, policy, n);
      UntouchedLasts(s, VerbResult(s, verb, name, now, policy), n);
    }
  }

  lemma PinOfUnit(s: StoreState, verb: Verb, n: string, now: real, policy: RetirementPolicy)
    requires n in s.branches && (verb.Pin? || verb.Unpin?)
    ensures UnitLasts(s, VerbResult(s, verb, n, now, policy), n)
  {
  }

  lemma StepKeepsUnit(ex: Extractor, s: StoreState, e: Event, t: StoreState, n: string)
    requires StepsTo(ex, s, e, t) && NamesMatch(s.branches) && n in s.branches && s.branches[n].IsLandingUnit() && n != ""
    requires !(e.WorkingTreePass? && e.input.manifest.name == n)
    ensures UnitLasts(s, t, n)
  {
    match e
    case IndexRef(r, choice, served) =>
      if Commits(ex, s, r, choice, served) {
        UnitThroughRefPass(s, RefInput(ex, s, r), choice, n);
      }
    case WorkingTreePass(input, choice) => UnitThroughTreePass(s, input, choice, n);
    case RetireLanded(refs, seen, served, d, verdicts, now, policy) => UnitThroughRetirement(s, refs, served, seen, d, verdicts, now, policy, n);
    case PurgeExpired(refs, served, now) => UnitThroughPurge(s, refs, served, now, n);
    case Operator(verb, name, served, now, policy) =>
      if VerbRefusal(s.branches, served, verb, name).None? { UnitThroughVerb(s, served, verb, name, now, policy, n); }
  }

  lemma NextKeepsUnit(ex: Extractor, states: seq<StoreState>, events: seq<Event>, k: nat, n: string)
    requires IsRun(ex, states, events) && NamesMatch(states[0].branches) && k < |events|
    requires n in states[k].branches && states[k].branches[n].IsLandingUnit() && n != ""
    requires !(events[k].WorkingTreePass? && events[k].input.manifest.name == n)
    ensures UnitLasts(states[k], states[k + 1], n)
  {
    RunKeepsNames(ex, states, events, k);
    StepInto(ex, states, events, k + 1);
    StepKeepsUnit(ex, states[k], events[k], states[k + 1], n);
  }

  lemma LastsComposes(s: StoreState, t: StoreState, u: StoreState, n: string)
    requires UnitLasts(s, t, n) && UnitLasts(t, u, n)
    ensures UnitLasts(s, u, n)
  {
  }

  /** A landing unit outlasts any run in which no working tree is checked out under its sha:
      its record keeps every column but the pin, and it goes on naming each of its chunks. */
  lemma {:induction false} LandingUnitsLast(ex: Extractor, states: seq<StoreState>, events: seq<Event>, i: nat, j: nat, n: string)
    requires IsRun(ex, states, events) && NamesMatch(states[0].branches) && i <= j <= |events| && n != ""
    requires n in states[i].branches && states[i].branches[n].IsLandingUnit()
    requires forall k :: i <= k < j ==> !(events[k].WorkingTreePass? && events[k].input.manifest.name == n)
    ensures UnitLasts(states[i], states[j], n)
  {
    if i < j {
      LandingUnitsLast(ex, states, events, i, j - 1, n);
      NextKeepsUnit(ex, states, events, j - 1, n);
      LastsComposes(states[i], states[j - 1], states[j], n);
    }
  }

  // ----- vectors

  /** A row in both stores has the same content in both, and a vector in both or neither. */
  ghost predicate SameChunk(s: StoreState, t: StoreState, id: int) {
    id in s.chunks && id in t.chunks ==>
      && t.chunks[id] == s.chunks[id] && (id in t.vectors <==> id in s.vectors) && (id in s.vectors ==> t.vectors[id] == s.vectors[id])
  }

  lemma InsertedThenCollected(s: StoreState, added: seq<Chunk>, ids: seq<int>, before: StoreState, key: Option<string>, id: int)
    requires |added| == |ids| && AreNewIds(s, ids)
    requires var inserted := InsertedRows(s, added, ids); before.chunks == inserted.chunks && before.vectors == inserted.vectors
    ensures SameChunk(s, CollectGarbage(before, key), id)
  {
    RowsAreInserted(s, added, ids);
    GarbageExactly(before, key);
    assert id in s.chunks ==> id !in ids;
  }

  lemma StepKeepsChunk(ex: Extractor, s: StoreState, e: Event, t: StoreState, id: int)
    requires StepsTo(ex, s, e, t)
    ensures SameChunk(s, t, id)
  {
    match e
    case IndexRef(r, choice, served) =>
      if Commits(ex, s, r, choice, served) { RefPassKeepsChunk(s, RefInput(ex, s, r), choice, id); }
    case WorkingTreePass(input, choice) => TreePassKeepsChunk(s, input, choice, id);
    case RetireLanded(refs, seen, served, d, verdicts, now, policy) => RetireKeepsRows(s, refs, served, d, verdicts, now, policy);
    case PurgeExpired(refs, served, now) => GraceKeepsChunk(s, refs, served, now, id);
    case Operator(verb, name, served, now, policy) =>
      if VerbRefusal(s.branches, served, verb, name).None? { VerbKeepsChunk(s, verb, name, now, policy, id); }
  }

  lemma RefPassKeepsChunk(s: StoreState, input: PassInput, choice: Choice, id: int)
    requires Fits(choice, PassChunks(input)) && AreNewIds(s, choice.newIds)
    ensures SameChunk(s, PassResult(s, input, choice), id)
  {
    InsertedThenCollected(s, Added(choice, PassChunks(input)), choice.newIds, PassBeforeGc(s, input, choice), Some(input.manifest.cacheKey), id);
  }

  lemma TreePassKeepsChunk(s: StoreState, input: TreeInput, choice: Choice, id: int)
    requires Fits(choice, input.extraction.AllChunks()) && AreNewIds(s, choice.newIds)
    ensures SameChunk(s, TreePassResult(s, input, choice), id)
  {
    TreePassInserts(s, input, choice);
    InsertedThenCollected(s, Added(choice, input.extraction.AllChunks()), choice.newIds, TreePassBeforeGc(s, input, choice),
                          Some(input.manifest.cacheKey), id);
  }

  lemma GraceKeepsChunk(s: StoreState, refs: RefSnapshot, served: Option<string>, now: real, id: int)
    ensures SameChunk(s, PurgeStep(s, refs, served, now), id)
  {
    GarbageExactly(WithoutRows(s, DueNames(s, now, ProtectedNames(refs, served))), None);
  }

  lemma VerbKeepsChunk(s: StoreState, verb: Verb, name: string, now: real, policy: RetirementPolicy, id: int)
    requires name in s.branches
    ensures SameChunk(s, VerbResult(s, verb, name, now, policy), id)
  {
    if verb.Purge? {
      var record := s.branches[name];
      var t := if record.status == Active then s.(branches := s.branches[name := ManuallyRetired(record, now, now)]) else s;
      GarbageExactly(WithoutRows(t, {name}), None);
    }
  }

  /** A vector lasts exactly as long as its row. */
  lemma {:induction false} VectorsLast(ex: Extractor, states: seq<StoreState>, events: seq<Event>, i: nat, j: nat, id: int)
    requires IsRun(ex, states, events) && i <= j <= |events|
    requires forall k :: i <= k <= j ==> id in states[k].chunks
    ensures SameChunk(states[i], states[j], id)
  {
    if i < j {
      VectorsLast(ex, states, events, i, j - 1, id);
      NextKeepsChunk(ex, states, events, j, id);
    }
  }

  lemma NextKeepsChunk(ex: Extractor, states: seq<StoreState>, events: seq<Event>, j: nat, id: int)
    requires IsRun(ex, states, events) && 0 < j < |states|
    ensures SameChunk(states[j - 1], states[j], id)
  {
    StepInto(ex, states, events, j);
    StepKeepsChunk(ex, states[j - 1], events[j - 1], states[j], id);
  }

  /** The event commits a pass that inserts `c` under `id`. */
  ghost predicate Inserts(ex: Extractor, s: StoreState, e: Event, id: int, c: Chunk) {
    && Enabled(ex, s, e)
    && match e
       case IndexRef(r, choice, served) =>
         && Commits(ex, s, r, choice, served)
         && exists q :: 0 <= q < |choice.newIds| && choice.newIds[q] == id && Diff(choice.pool, PassChunks(RefInput(ex, s, r))).addedChunks[q] == c
       case WorkingTreePass(input, choice) =>
         exists q :: 0 <= q < |choice.newIds| && choice.newIds[q] == id && Diff(choice.pool, input.extraction.AllChunks()).addedChunks[q] == c
       case _ => false
  }

  lemma InsertedAt(ex: Extractor, states: seq<StoreState>, events: seq<Event>, i: nat, id: int, c: Chunk)
    requires IsRun(ex, states, events) && i < |events| && TablesHold(ex, states[i]) && Inserts(ex, states[i], events[i], id, c)
    ensures HoldsChunk(states[i + 1], id, c)
  {
    StepInto(ex, states, events, i + 1);
    var s, e := states[i], events[i];
    if e.IndexRef? {
      var q :| 0 <= q < |e.refChoice.newIds| && e.refChoice.newIds[q] == id && Diff(e.refChoice.pool, PassChunks(RefInput(ex, s, e.r))).addedChunks[q] == c;
      RefPassLeavesVectors(ex, s, e.r, e.refChoice, q);
    } else {
      var q :| 0 <= q < |e.treeChoice.newIds| && e.treeChoice.newIds[q] == id && Diff(e.treeChoice.pool, e.input.extraction.AllChunks()).addedChunks[q] == c;
      TreePassLeavesVectors(ex, s, e.input, e.treeChoice, q);
    }
  }

  /** A chunk a committed pass inserts has a vector of its content from then on, exactly when
      the embed policy took it, for as long as its row lives. */
  lemma EmbeddedForLife(ex: Extractor, states: seq<StoreState>, events: seq<Event>, i: nat, j: nat, id: int, c: Chunk)
    requires ex.WellFormed() && IsRun(ex, states, events) && StoreHolds(ex, states[0]) && i < j <= |events|
    requires Inserts(ex, states[i], events[i], id, c) && forall k :: i < k <= j ==> id in states[k].chunks
    ensures HoldsChunk(states[j], id, c)
  {
    InsertedInRun(ex, states, events, i, id, c);
    VectorsLast(ex, states, events, i + 1, j, id);
    StillHolds(states[i + 1], states[j], id, c);
  }

  lemma InsertedInRun(ex: Extractor, states: seq<StoreState>, events: seq<Event>, i: nat, id: int, c: Chunk)
    requires ex.WellFormed() && IsRun(ex, states, events) && StoreHolds(ex, states[0]) && i < |events|
    requires Inserts(ex, states[i], events[i], id, c)
    ensures HoldsChunk(states[i + 1], id, c)
  {
    RunKeepsInvariant(ex, states, events, i);
    InsertedAt(ex, states, events, i, id, c);
  }

  lemma StillHolds(s: StoreState, t: StoreState, id: int, c: Chunk)
    requires HoldsChunk(s, id, c) && SameChunk(s, t, id) && id in t.chunks
    ensures HoldsChunk(t, id, c)
  {
  }
}
