/** The scratch tree of a pass under cancellation: worker threads, the coroutine that awaits
    each to its end, and cancellations at any await
    (python/pydocs_mcp/application/branch_scratch.py, python/pydocs_mcp/git/blob_scratch.py). */
module Scratch {

  /** A worker thread of the pass; each kind is started at most once at a time. */
  datatype Thread = Idle | Running | Done(failed: bool)

  /** The holder directory: not made, on disk, or removed. */
  datatype Tree = Unmade | Present | Removed

  datatype Outcome = Normal | Failed | Cancelled

  /** Where the coroutine is inside `_run_to_end`: suspended on the shielded worker; at the
      loop's test of `worker.done()`; suspended on `asyncio.wait`; past the loop, about to
      re-raise the cancellation. */
  datatype Await = AtShield | LoopTest | AtWait | Reraise

  /** Where the pass is: making the tree, in the block, writing blobs, removing the tree with
      an outcome in flight, or returned. */
  datatype Task = Entering(at: Await) | InBlock | Writing(at: Await) | Leaving(inFlight: Outcome, at: Await) | Returned(outcome: Outcome)

  datatype Event = Made | Wrote | RemovalStarted | RemovalFailed

  /** `received` says a cancellation has been raised in the coroutine. */
  datatype State = State(task: Task, maker: Thread, writer: Thread, remover: Thread, tree: Tree, log: seq<Event>, received: bool)

  function Initial(): State { State(Entering(AtShield), Running, Idle, Idle, Unmade, [], false) }

  // ----- the workers

  /** mkdtemp; an error after it removes the holder again in the same thread, or logs that it
      could not. */
  ghost predicate MakerSteps(s: State, out: State) {
    && s.maker == Running
    && (if s.tree == Unmade then out == s.(tree := Present, log := s.log + [Made]) || out == s.(maker := Done(true))
        else
          || out == s.(maker := Done(false))
          || out == s.(maker := Done(true), tree := Removed, log := s.log + [RemovalStarted])
          || out == s.(maker := Done(true), log := s.log + [RemovalStarted, RemovalFailed]))
  }

  /** One blob, or the end. */
  ghost predicate WriterSteps(s: State, out: State) {
    && s.writer == Running
    && (out == s.(log := s.log + [Wrote]) || out == s.(writer := Done(false)) || out == s.(writer := Done(true)))
  }

  /** The removal of the tree the stack holds; a failure is logged, never raised. */
  ghost predicate RemoverSteps(s: State, out: State) {
    && s.remover == Running
    && (if s.maker != Done(false) then out == s.(remover := Done(false))
        else if RemovalStarted !in s.log then out == s.(log := s.log + [RemovalStarted])
        else out == s.(remover := Done(false), tree := Removed) || out == s.(remover := Done(false), log := s.log + [RemovalFailed]))
  }

  // ----- awaiting a worker to its end

  /** The coroutine goes on inside `_run_to_end`; without the loop the test always passes. */
  ghost predicate AwaitGoesOn(loops: bool, worker: Thread, at: Await, next: Await) {
    || (at == LoopTest && next == if worker.Done? || !loops then Reraise else AtWait)
    || (at == AtWait && worker.Done? && next == LoopTest)
  }

  /** The await ends: with the worker's own result, or with the cancellation re-raised. */
  ghost predicate AwaitEnds(worker: Thread, at: Await, result: Outcome) {
    || (at == AtShield && worker.Done? && result == if worker.failed then Failed else Normal)
    || (at == Reraise && result == Cancelled)
  }

  /** A cancellation reaches a suspended coroutine: the except clause catches the first, the
      loop's `suppress` every further one. */
  ghost predicate AwaitCancelled(at: Await, next: Await) {
    at in {AtShield, AtWait} && next == LoopTest
  }

  // ----- the coroutine

  function Leave(s: State, inFlight: Outcome): State {
    s.(task := Leaving(inFlight, AtShield), remover := Running)
  }

  /** Out of an await: into the block, or on to the removal with what went wrong. */
  function After(s: State, result: Outcome): State {
    if result == Normal then s.(task := InBlock, writer := Idle) else Leave(s, result)
  }

  ghost predicate CoroutineResumes(loops: bool, s: State, out: State) {
    match s.task
    case Entering(at) =>
      || (exists next :: AwaitGoesOn(loops, s.maker, at, next) && out == s.(task := Entering(next)))
      || (exists result :: AwaitEnds(s.maker, at, result) && out == After(s, result))
    case Writing(at) =>
      || (exists next :: AwaitGoesOn(loops, s.writer, at, next) && out == s.(task := Writing(next)))
      || (exists result :: AwaitEnds(s.writer, at, result) && out == After(s, result))
    case Leaving(inFlight, at) =>
      || (exists next :: AwaitGoesOn(loops, s.remover, at, next) && out == s.(task := Leaving(inFlight, next)))
      || (exists result :: AwaitEnds(s.remover, at, result) && out == s.(task := Returned(if result == Normal then inFlight else result)))
    case InBlock =>
      || out == s.(task := Writing(AtShield), writer := Running)
      || out == Leave(s, Normal) || out == Leave(s, Failed)
    case Returned(_) => false
  }

  /** A cancellation arrives while the coroutine is suspended; elsewhere in the block it
      leaves the block. */
  ghost predicate CancelArrives(s: State, out: State) {
    match s.task
    case Entering(at) => exists next :: AwaitCancelled(at, next) && out == s.(task := Entering(next), received := true)
    case Writing(at) => exists next :: AwaitCancelled(at, next) && out == s.(task := Writing(next), received := true)
    case Leaving(inFlight, at) => exists next :: AwaitCancelled(at, next) && out == s.(task := Leaving(inFlight, next), received := true)
    case InBlock => out == Leave(s.(received := true), Cancelled)
    case Returned(_) => false
  }

  ghost predicate Next(loops: bool, s: State, out: State) {
    MakerSteps(s, out) || WriterSteps(s, out) || RemoverSteps(s, out) || CoroutineResumes(loops, s, out) || CancelArrives(s, out)
  }

  ghost predicate IsRun(loops: bool, run: seq<State>) {
    run != [] && run[0] == Initial() && forall k :: 0 <= k < |run| - 1 ==> StepAt(loops, run, k)
  }

  ghost predicate StepAt(loops: bool, run: seq<State>, k: nat)
    requires k + 1 < |run|
  {
    Next(loops, run[k], run[k + 1])
  }

  // ----- what every step keeps

  /** No blob is written once the removal has started. */
  ghost predicate NoLateWrite(log: seq<Event>) {
    forall i, j :: 0 <= i < j < |log| && log[i] == RemovalStarted ==> log[j] != Wrote
  }

  /** The loop is left only with its worker done. */
  ghost predicate AwaitHolds(worker: Thread, at: Await) {
    worker != Idle && (at == Reraise ==> worker.Done?)
  }

  /** No thread runs but the one awaited. */
  ghost predicate ThreadsMatch(s: State) {
    match s.task
    case Entering(at) => AwaitHolds(s.maker, at) && s.writer == Idle && s.remover == Idle
    case InBlock => s.maker == Done(false) && s.writer == Idle && s.remover == Idle
    case Writing(at) => s.maker == Done(false) && AwaitHolds(s.writer, at) && s.remover == Idle
    case Leaving(_, at) => s.maker.Done? && s.writer != Running && AwaitHolds(s.remover, at)
    case Returned(_) => s.maker.Done? && s.writer != Running && s.remover.Done?
  }

  ghost predicate TreeHolds(s: State) {
    && (s.maker == Running ==> RemovalStarted !in s.log && s.tree != Removed)
    && (s.maker == Done(false) && s.remover == Idle ==> RemovalStarted !in s.log)
    && (s.maker == Done(true) && s.tree == Present ==> RemovalFailed in s.log)
    && (s.remover.Done? ==> s.remover == Done(false) && (s.tree == Present ==> RemovalFailed in s.log))
  }

  /** The cancellation caught by the except clause is held until it is re-raised. */
  ghost predicate CancelHeld(s: State) {
    match s.task
    case Entering(at) => s.received == (at != AtShield)
    case InBlock => !s.received
    case Writing(at) => s.received == (at != AtShield)
    case Leaving(inFlight, at) => s.received == (at != AtShield || inFlight == Cancelled)
    case Returned(outcome) => s.received == (outcome == Cancelled)
  }

  ghost predicate Inv(s: State) {
    ThreadsMatch(s) && TreeHolds(s) && CancelHeld(s) && NoLateWrite(s.log)
  }

  lemma MakerKeeps(s: State, out: State)
    requires Inv(s) && MakerSteps(s, out)
    ensures Inv(out)
  {
  }

  lemma RemoverKeeps(s: State, out: State)
    requires Inv(s) && RemoverSteps(s, out)
    ensures Inv(out)
  {
  }

  lemma WriterKeeps(s: State, out: State)
    requires Inv(s) && WriterSteps(s, out)
    ensures Inv(out)
  {
    assert RemovalStarted !in s.log;
  }

  lemma ResumeKeeps(s: State, out: State)
    requires Inv(s) && CoroutineResumes(true, s, out)
    ensures Inv(out)
  {
  }

  lemma CancelKeeps(s: State, out: State)
    requires Inv(s) && CancelArrives(s, out)
    ensures Inv(out)
  {
  }

  lemma NextKeeps(s: State, out: State)
    requires Inv(s) && Next(true, s, out)
    ensures Inv(out)
  {
    if MakerSteps(s, out) {
      MakerKeeps(s, out);
    } else if WriterSteps(s, out) {
      WriterKeeps(s, out);
    } else if RemoverSteps(s, out) {
      RemoverKeeps(s, out);
    } else if CoroutineResumes(true, s, out) {
      ResumeKeeps(s, out);
    } else {
      CancelKeeps(s, out);
    }
  }

  lemma {:induction false} RunKeeps(run: seq<State>, k: nat)
    requires IsRun(true, run) && k < |run|
    ensures Inv(run[k])
  {
    if k > 0 {
      RunKeeps(run, k - 1);
      assert StepAt(true, run, k - 1);
      NextKeeps(run[k - 1], run[k]);
    }
  }

  /** Whatever cancellations arrive, and whenever: no blob is written after the removal
      starts; when the context returns no worker runs and no tree is left but one whose
      removal failed and was logged; it returns cancelled exactly when a cancellation was
      received. */
  lemma CancellationIsSafe(run: seq<State>, k: nat)
    requires IsRun(true, run) && k < |run|
    ensures NoLateWrite(run[k].log)
    ensures run[k].task.Returned? ==> Running !in {run[k].maker, run[k].writer, run[k].remover}
    ensures run[k].task.Returned? ==> (run[k].tree == Present ==> RemovalFailed in run[k].log)
    ensures run[k].task.Returned? ==> (run[k].task.outcome == Cancelled <==> run[k].received)
  {
    RunKeeps(run, k);
  }

  /** `_run_to_end` lets go of its worker only at its end: whichever step leaves an await for
      another place finds the worker done. */
  lemma WorkerIsWaitedOut(run: seq<State>, k: nat)
    requires IsRun(true, run) && k + 1 < |run|
    ensures run[k].task.Entering? && !run[k + 1].task.Entering? ==> run[k].maker.Done?
    ensures run[k].task.Writing? && !run[k + 1].task.Writing? ==> run[k].writer.Done?
    ensures run[k].task.Leaving? && !run[k + 1].task.Leaving? ==> run[k].remover.Done?
  {
    RunKeeps(run, k);
    assert StepAt(true, run, k);
  }

  // ----- without the loop

  /** Re-raised at once, a cancellation leaves a tree that is made later. */
  lemma WithoutTheLoopATreeLeaks(run: seq<State>)
    requires run == LeakingRun()
    ensures IsRun(false, run) && run[|run| - 1].task == Returned(Cancelled) && run[|run| - 1].tree == Present
    ensures RemovalFailed !in run[|run| - 1].log
  {
    LeakingSteps(run);
  }

  function LeakingRun(): seq<State> {
    var s0 := Initial();
    var s1 := s0.(task := Entering(LoopTest), received := true);
    var s2 := s1.(task := Entering(Reraise));
    var s3 := Leave(s2, Cancelled);
    var s4 := s3.(remover := Done(false));
    var s5 := s4.(task := Returned(Cancelled));
    var s6 := s5.(tree := Present, log := [] + [Made]);
    [s0, s1, s2, s3, s4, s5, s6]
  }

  lemma LeakingSteps(run: seq<State>)
    requires run == LeakingRun()
    ensures IsRun(false, run)
  {
    assert CancelArrives(run[0], run[1]) by { assert AwaitCancelled(AtShield, LoopTest); }
    assert CoroutineResumes(false, run[1], run[2]) by { assert AwaitGoesOn(false, run[1].maker, LoopTest, Reraise); }
    assert CoroutineResumes(false, run[2], run[3]) by { assert AwaitEnds(run[2].maker, Reraise, Cancelled); }
    assert RemoverSteps(run[3], run[4]);
    assert CoroutineResumes(false, run[4], run[5]) by { assert AwaitEnds(run[4].remover, AtShield, Normal); }
    assert MakerSteps(run[5], run[6]);
  }

  /** And a writer outlives the removal. */
  lemma WithoutTheLoopABlobIsLate(run: seq<State>)
    requires run == LateRun()
    ensures IsRun(false, run) && !NoLateWrite(run[|run| - 1].log)
  {
    LateSteps(run);
    var log := run[|run| - 1].log;
    assert log == [Made, RemovalStarted, Wrote];
    assert log[1] == RemovalStarted && log[2] == Wrote;
  }

  function LateRun(): seq<State> {
    var s0 := Initial();
    var s1 := s0.(tree := Present, log := [] + [Made]);
    var s2 := s1.(maker := Done(false));
    var s3 := s2.(task := InBlock, writer := Idle);
    var s4 := s3.(task := Writing(AtShield), writer := Running);
    var s5 := s4.(task := Writing(LoopTest), received := true);
    var s6 := s5.(task := Writing(Reraise));
    var s7 := Leave(s6, Cancelled);
    var s8 := s7.(log := [] + [Made] + [RemovalStarted]);
    var s9 := s8.(log := [] + [Made] + [RemovalStarted] + [Wrote]);
    [s0, s1, s2, s3, s4, s5, s6, s7, s8, s9]
  }

  lemma LateSteps(run: seq<State>)
    requires run == LateRun()
    ensures IsRun(false, run)
  {
    assert MakerSteps(run[0], run[1]);
    assert MakerSteps(run[1], run[2]);
    assert CoroutineResumes(false, run[2], run[3]) by { assert AwaitEnds(run[2].maker, AtShield, Normal); }
    assert CoroutineResumes(false, run[3], run[4]);
    assert CancelArrives(run[4], run[5]) by { assert AwaitCancelled(AtShield, LoopTest); }
    assert CoroutineResumes(false, run[5], run[6]) by { assert AwaitGoesOn(false, run[5].writer, LoopTest, Reraise); }
    assert CoroutineResumes(false, run[6], run[7]) by { assert AwaitEnds(run[6].writer, Reraise, Cancelled); }
    assert RemoverSteps(run[7], run[8]);
    assert WriterSteps(run[8], run[9]);
  }
}
