/** Any number of processes opening one bundle: a due migration takes the write lock, reads
    the stamp again under it and commits once; an up-to-date bundle is repaired without the
    lock, statement by statement, its last sweep in a transaction of its own
    (python/pydocs_mcp/db.py, db_migration_lock.py). Proved for any ladder that keeps the
    promises of `Converges`. */
module Openers {
  import opened Common
  import opened BundleSchema
  import opened SqliteErrors

  /** Where one opener stands. `Waiting` read an old stamp and asks for the lock; `Migrating`
      holds it with the stamp read under it; `Repairing` read the current stamp and runs the
      sweeps without it; `Transacting` has begun the last sweep's transaction on what it then
      read; `Rebuilding` met a schema error and has rolled back. */
  datatype Phase =
    | Starting | Waiting | Migrating(stamp: int) | Repairing(sweep: nat, statement: nat) | Transacting(snapshot: Bundle)
    | Rebuilding | Opened | Raised | Crashed

  /** The file as committed, who holds the write lock, the openers, and how often an upgrade
      arm and a rebuild have committed. */
  datatype World = World(disk: Bundle, lock: Option<nat>, openers: map<nat, Phase>, upgrades: nat, rebuilds: nat)

  /** What the protocol runs: what a stamp's transaction comes to, which stamps upgrade or
      rebuild, the sweeps a repair runs statement by statement, the last sweep, and the
      handler's error predicate. */
  datatype Ladder = Ladder(
    current: int, migrated: (Bundle, int, Option<string>) -> Result<Bundle, SqlError>, upgrades: int -> bool, rebuilds: int -> bool,
    sweeps: seq<seq<Statement>>, executed: (Bundle, Statement) -> Result<Bundle, SqlError>, last: Bundle -> Result<Bundle, SqlError>,
    environmental: Option<int> -> bool, empty: Bundle)

  function To(w: World, i: nat, p: Phase): World { w.(openers := w.openers[i := p]) }

  /** The holder's transaction ends, by commit, rollback or crash. */
  function Released(w: World, i: nat): World { if w.lock == Some(i) then w.(lock := None) else w }

  predicate IsUnderWay(p: Phase) { p !in {Opened, Raised, Crashed} }

  // ----- the handler

  /** What the handler around an arm makes of an OperationalError: raised when it is about
      the environment, else the bundle is rebuilt. */
  function Handled(m: Ladder, code: Option<int>): Phase { if m.environmental(code) then Raised else Rebuilding }

  function AfterError(m: Ladder, e: SqlError): Phase { if IsOperational(e) then Handled(m, Some(SQLITE_ERROR)) else Raised }

  // ----- the steps

  ghost predicate ReadsStamp(m: Ladder, w: World, out: World, i: nat)
    requires i in w.openers
  {
    w.openers[i] == Starting && out == To(w, i, if w.disk.version == m.current then Repairing(0, 0) else Waiting)
  }

  /** BEGIN IMMEDIATE, then the stamp again. */
  ghost predicate TakesLock(w: World, out: World, i: nat)
    requires i in w.openers
  {
    w.openers[i] == Waiting && w.lock == None && out == To(w, i, Migrating(w.disk.version)).(lock := Some(i))
  }

  /** The whole arm in one transaction, for whatever branch the bundle serves. */
  ghost predicate Commits(m: Ladder, w: World, out: World, i: nat, served: Option<string>)
    requires i in w.openers
  {
    && w.openers[i].Migrating?
    && var stamp := w.openers[i].stamp;
       var migrated := m.migrated(w.disk, stamp, served);
       migrated.Ok? &&
       out == Released(To(w, i, Opened), i).(disk := migrated.value,
         upgrades := w.upgrades + if m.upgrades(stamp) then 1 else 0, rebuilds := w.rebuilds + if m.rebuilds(stamp) then 1 else 0)
  }

  /** An arm's failed statement rolls the arm back and gives up the lock. */
  ghost predicate ArmFails(m: Ladder, w: World, out: World, i: nat, served: Option<string>)
    requires i in w.openers
  {
    && w.openers[i].Migrating?
    && var migrated := m.migrated(w.disk, w.openers[i].stamp, served);
       migrated.Err? && out == Released(To(w, i, AfterError(m, migrated.error)), i)
  }

  /** A statement without the lock, committed by itself: a write needs the lock free. */
  ghost predicate Writes(m: Ladder, w: World, out: World, i: nat, result: Result<Bundle, SqlError>, next: Phase) {
    if result.Err? then out == To(w, i, AfterError(m, result.error))
    else (result.value == w.disk || w.lock == None) && out == To(w, i, next).(disk := result.value)
  }

  /** The repair's next statement, or the last sweep's BEGIN. */
  ghost predicate Repairs(m: Ladder, w: World, out: World, i: nat)
    requires i in w.openers
  {
    && w.openers[i].Repairing?
    && var (k, j) := (w.openers[i].sweep, w.openers[i].statement);
       if k >= |m.sweeps| then out == To(w, i, Transacting(w.disk))
       else if j >= |m.sweeps[k]| then out == To(w, i, Repairing(k + 1, 0))
       else Writes(m, w, out, i, m.executed(w.disk, m.sweeps[k][j]), Repairing(k, j + 1))
  }

  /** SQLITE_BUSY_SNAPSHOT: the file has moved on since the transaction read it. */
  const SNAPSHOT_EXTENSION: nat := 2

  /** The last sweep in one transaction over what it read: it writes nothing, or commits onto
      an unchanged file with the lock free, or finds its snapshot stale. */
  ghost predicate EndsTransaction(m: Ladder, w: World, out: World, i: nat)
    requires i in w.openers
  {
    && w.openers[i].Transacting?
    && var snapshot := w.openers[i].snapshot;
       var swept := m.last(snapshot);
       if swept.Err? then out == To(w, i, AfterError(m, swept.error))
       else if swept.value == snapshot then out == To(w, i, Opened)
       else if w.disk == snapshot then w.lock == None && out == To(w, i, Opened).(disk := swept.value)
       else out == To(w, i, Handled(m, Some(ResultCode(Busy, SNAPSHOT_EXTENSION))))
  }

  /** The drop and re-create after a schema error, without the lock held before. */
  ghost predicate Rebuilds(m: Ladder, w: World, out: World, i: nat)
    requires i in w.openers
  {
    w.openers[i] == Rebuilding && w.lock == None && out == To(w, i, Opened).(disk := m.empty, rebuilds := w.rebuilds + 1)
  }

  predicate IsInArm(p: Phase) { p.Migrating? || p.Repairing? || p.Transacting? }

  /** The environment fails a statement, with any extension of its result code: inside an
      arm or a repair the handler decides, elsewhere the error is raised. */
  ghost predicate Faults(m: Ladder, w: World, out: World, i: nat, f: Fault, extended: nat)
    requires i in w.openers
  {
    && IsUnderWay(w.openers[i])
    && out == Released(To(w, i, if IsInArm(w.openers[i]) then Handled(m, Some(ResultCode(f, extended))) else Raised), i)
  }

  /** The process ends, at any point: what it had not committed is rolled back. */
  ghost predicate Crashes(w: World, out: World, i: nat)
    requires i in w.openers
  {
    IsUnderWay(w.openers[i]) && out == Released(To(w, i, Crashed), i)
  }

  ghost predicate OpenerSteps(m: Ladder, w: World, out: World, i: nat)
    requires i in w.openers
  {
    || ReadsStamp(m, w, out, i) || TakesLock(w, out, i) || Repairs(m, w, out, i) || EndsTransaction(m, w, out, i) || Rebuilds(m, w, out, i) || Crashes(w, out, i)
    || (exists served :: Commits(m, w, out, i, served) || ArmFails(m, w, out, i, served))
    || (exists f, extended: nat :: Faults(m, w, out, i, f, extended))
  }

  ghost predicate Next(m: Ladder, w: World, out: World) {
    exists i: nat :: i in w.openers && OpenerSteps(m, w, out, i)
  }

  ghost predicate Init(w: World) {
    w.lock == None && w.upgrades == 0 && w.rebuilds == 0 && forall i :: i in w.openers ==> w.openers[i] == Starting
  }

  ghost predicate IsRun(m: Ladder, run: seq<World>) {
    run != [] && Init(run[0]) && forall k: nat :: k < |run| - 1 ==> StepAt(m, run, k)
  }

  ghost predicate StepAt(m: Ladder, run: seq<World>, k: nat)
    requires k + 1 < |run|
  {
    Next(m, run[k], run[k + 1])
  }

  // ----- what the ladder promises the protocol

  /** What a proof measures a bundle by: `steps` loses nothing, `given` says a statement's
      effect is in place, `whole` says all of them are. */
  datatype Order = Order(steps: (Bundle, Bundle) -> bool, given: (Bundle, Statement) -> bool, whole: Bundle -> bool)

  ghost predicate Regular(p: Order) {
    && (forall a, b, c :: p.steps(a, b) && p.steps(b, c) ==> p.steps(a, c))
    && (forall a, b :: p.steps(a, b) ==> b.version == a.version)
    && (forall a, b, s :: p.given(a, s) && p.steps(a, b) ==> p.given(b, s))
    && (forall a, b :: p.whole(a) && p.steps(a, b) ==> p.whole(b))
  }

  ghost predicate MigratedFrom(m: Ladder, b: Bundle, out: Bundle) {
    exists served :: m.migrated(b, b.version, served) == Ok(out)
  }

  /** A current file a repair may begin with: the one found, or that one migrated. */
  ghost predicate IsBase(m: Ladder, start: Bundle, base: Bundle) {
    base.version == m.current && (base == start || MigratedFrom(m, start, base))
  }

  /** A current file some way into its repairs. */
  ghost predicate Settled(m: Ladder, p: Order, start: Bundle, b: Bundle) {
    exists base :: IsBase(m, start, base) && p.steps(base, b)
  }

  ghost predicate GivenPart(p: Order, b: Bundle, statements: seq<Statement>, j: nat) {
    forall y: nat :: y < j && y < |statements| ==> p.given(b, statements[y])
  }

  /** Every sweep before the k-th, and the first j statements of the k-th. */
  ghost predicate GivenUpTo(m: Ladder, p: Order, b: Bundle, k: nat, j: nat) {
    && (forall x: nat :: x < k && x < |m.sweeps| ==> GivenPart(p, b, m.sweeps[x], |m.sweeps[x]|))
    && (k < |m.sweeps| ==> GivenPart(p, b, m.sweeps[k], j))
  }

  ghost predicate RunsWell(m: Ladder, p: Order, b: Bundle, s: Statement) {
    var r := m.executed(b, s);
    r.Ok? && p.steps(b, r.value) && p.given(r.value, s)
  }

  predicate IsAt(m: Ladder, k: nat, j: nat) { k < |m.sweeps| && j < |m.sweeps[k]| }

  ghost predicate EndsWhole(m: Ladder, p: Order, b: Bundle) {
    var swept := m.last(b);
    swept.Ok? && p.steps(b, swept.value) && p.whole(swept.value)
  }

  /** Whatever the others have done meanwhile, a repair's next statement runs, loses nothing
      and leaves its effect, and the last sweep makes the file whole. */
  ghost predicate Repairable(m: Ladder, p: Order, start: Bundle) {
    && (forall b, k: nat, j: nat :: Settled(m, p, start, b) && IsAt(m, k, j) && GivenUpTo(m, p, b, k, j) ==> RunsWell(m, p, b, m.sweeps[k][j]))
    && (forall b :: Settled(m, p, start, b) && GivenUpTo(m, p, b, |m.sweeps|, 0) ==> EndsWhole(m, p, b))
  }

  ghost predicate Arrives(m: Ladder, p: Order, start: Bundle, served: Option<string>) {
    var migrated := m.migrated(start, start.version, served);
    migrated.Ok? && migrated.value.version == m.current && p.steps(migrated.value, migrated.value) && p.whole(migrated.value)
  }

  /** The arm of the current stamp under the lock repairs what is left. */
  ghost predicate RepairedWhole(m: Ladder, p: Order, b: Bundle, served: Option<string>) {
    var migrated := m.migrated(b, m.current, served);
    migrated.Ok? && p.steps(b, migrated.value) && p.whole(migrated.value)
  }

  ghost predicate Converges(m: Ladder, p: Order, start: Bundle) {
    && Regular(p) && Repairable(m, p, start)
    && (if start.version == m.current then p.steps(start, start)
        else m.upgrades(start.version) && !m.rebuilds(start.version) && forall served :: Arrives(m, p, start, served))
    && !m.upgrades(m.current) && !m.rebuilds(m.current)
    && (forall b, served :: Settled(m, p, start, b) ==> RepairedWhole(m, p, b, served))
    && (forall f, extended: nat :: m.environmental(Some(ResultCode(f, extended))))
  }

  // ----- the invariant

  /** The file is as found, or current and some way into its repairs after one upgrade at
      most. */
  ghost predicate DiskIs(m: Ladder, p: Order, start: Bundle, w: World) {
    if start.version != m.current && w.upgrades == 0 then w.disk == start
    else Settled(m, p, start, w.disk) && w.upgrades == if start.version == m.current then 0 else 1
  }

  ghost predicate RepairHolds(m: Ladder, p: Order, start: Bundle, disk: Bundle, k: nat, j: nat) {
    Settled(m, p, start, disk) && GivenUpTo(m, p, disk, k, j)
  }

  /** The file is what the transaction read, or has stepped on since. */
  ghost predicate SnapshotHolds(m: Ladder, p: Order, start: Bundle, disk: Bundle, snapshot: Bundle) {
    RepairHolds(m, p, start, snapshot, |m.sweeps|, 0) && (disk == snapshot || p.steps(snapshot, disk)) && Settled(m, p, start, disk)
  }

  ghost predicate PhaseHolds(m: Ladder, p: Order, start: Bundle, w: World, i: nat)
    requires i in w.openers
  {
    match w.openers[i]
    case Migrating(stamp) => w.lock == Some(i) && stamp == w.disk.version
    case Repairing(k, j) => w.lock != Some(i) && RepairHolds(m, p, start, w.disk, k, j)
    case Transacting(snapshot) => w.lock != Some(i) && SnapshotHolds(m, p, start, w.disk, snapshot)
    case Opened => w.lock != Some(i) && Settled(m, p, start, w.disk) && p.whole(w.disk)
    case Rebuilding => false
    case _ => w.lock != Some(i)
  }

  ghost predicate Inv(m: Ladder, p: Order, start: Bundle, w: World) {
    DiskIs(m, p, start, w) && w.rebuilds == 0 && forall i :: i in w.openers ==> PhaseHolds(m, p, start, w, i)
  }

  lemma SettledStays(m: Ladder, p: Order, start: Bundle, b: Bundle, out: Bundle)
    requires Regular(p) && Settled(m, p, start, b) && p.steps(b, out)
    ensures Settled(m, p, start, out) && b.version == out.version == m.current
  {
    var base :| IsBase(m, start, base) && p.steps(base, b);
    assert p.steps(base, out);
  }

  lemma SettledIsCurrent(m: Ladder, p: Order, start: Bundle, b: Bundle)
    requires Regular(p) && Settled(m, p, start, b)
    ensures b.version == m.current
  {
    var base :| IsBase(m, start, base) && p.steps(base, b);
  }

  lemma GivenUpToStays(m: Ladder, p: Order, b: Bundle, out: Bundle, k: nat, j: nat)
    requires Regular(p) && GivenUpTo(m, p, b, k, j) && p.steps(b, out)
    ensures GivenUpTo(m, p, out, k, j)
  {
    forall x: nat | x < k && x < |m.sweeps| ensures GivenPart(p, out, m.sweeps[x], |m.sweeps[x]|) {
      assert GivenPart(p, b, m.sweeps[x], |m.sweeps[x]|);
    }
  }

  lemma RepairStays(m: Ladder, p: Order, start: Bundle, b: Bundle, out: Bundle, k: nat, j: nat)
    requires Regular(p) && RepairHolds(m, p, start, b, k, j) && p.steps(b, out)
    ensures RepairHolds(m, p, start, out, k, j)
  {
    SettledStays(m, p, start, b, out);
    GivenUpToStays(m, p, b, out, k, j);
  }

  /** Another opener's phase stands while the file stands or steps and its claim on the lock
      stands. */
  lemma PhaseStays(m: Ladder, p: Order, start: Bundle, w: World, out: World, x: nat)
    requires Regular(p) && x in w.openers && x in out.openers && out.openers[x] == w.openers[x] && PhaseHolds(m, p, start, w, x)
    requires out.disk == w.disk || (Settled(m, p, start, w.disk) && p.steps(w.disk, out.disk))
    requires out.lock == Some(x) <==> w.lock == Some(x)
    ensures PhaseHolds(m, p, start, out, x)
  {
    if out.disk != w.disk {
      SettledStays(m, p, start, w.disk, out.disk);
      if w.openers[x].Repairing? {
        RepairStays(m, p, start, w.disk, out.disk, w.openers[x].sweep, w.openers[x].statement);
      }
    }
  }

  /** One opener's step that leaves the file, or steps a settled one. */
  lemma StepKeeps(m: Ladder, p: Order, start: Bundle, w: World, out: World, i: nat, phase: Phase)
    requires Regular(p) && Inv(m, p, start, w) && i in w.openers && out.openers == w.openers[i := phase]
    requires out.disk == w.disk || (Settled(m, p, start, w.disk) && p.steps(w.disk, out.disk))
    requires out.upgrades == w.upgrades && out.rebuilds == w.rebuilds
    requires forall x :: x in w.openers && x != i ==> (out.lock == Some(x) <==> w.lock == Some(x))
    requires PhaseHolds(m, p, start, out, i)
    ensures Inv(m, p, start, out)
  {
    forall x | x in out.openers ensures PhaseHolds(m, p, start, out, x) {
      if x != i {
        PhaseStays(m, p, start, w, out, x);
      }
    }
    if out.disk != w.disk {
      SettledStays(m, p, start, w.disk, out.disk);
      SettledIsCurrent(m, p, start, w.disk);
    }
  }

  lemma CurrentIsSettled(m: Ladder, p: Order, start: Bundle, w: World)
    requires DiskIs(m, p, start, w) && w.disk.version == m.current
    ensures Settled(m, p, start, w.disk)
  {
  }

  lemma FirstReadKeeps(m: Ladder, p: Order, start: Bundle, w: World, out: World, i: nat)
    requires Regular(p) && Inv(m, p, start, w) && i in w.openers && (ReadsStamp(m, w, out, i) || TakesLock(w, out, i))
    ensures Inv(m, p, start, out)
  {
    assert PhaseHolds(m, p, start, w, i);
    StepKeeps(m, p, start, w, out, i, out.openers[i]);
  }

  lemma LeavingKeeps(m: Ladder, p: Order, start: Bundle, w: World, out: World, i: nat, phase: Phase)
    requires Regular(p) && Inv(m, p, start, w) && i in w.openers && phase in {Raised, Crashed} && out == Released(To(w, i, phase), i)
    ensures Inv(m, p, start, out)
  {
    StepKeeps(m, p, start, w, out, i, phase);
  }

  lemma FaultKeeps(m: Ladder, p: Order, start: Bundle, w: World, out: World, i: nat, f: Fault, extended: nat)
    requires Converges(m, p, start) && Inv(m, p, start, w) && i in w.openers && Faults(m, w, out, i, f, extended)
    ensures Inv(m, p, start, out)
  {
    assert m.environmental(Some(ResultCode(f, extended)));
    LeavingKeeps(m, p, start, w, out, i, Raised);
  }

  // ----- the repair

  lemma PartGrows(p: Order, b: Bundle, statements: seq<Statement>, j: nat)
    requires j < |statements| && GivenPart(p, b, statements, j) && p.given(b, statements[j])
    ensures GivenPart(p, b, statements, j + 1)
  {
  }

  /** A statement that ran well keeps the repair's progress and adds itself to it. */
  lemma StatementRuns(m: Ladder, p: Order, start: Bundle, b: Bundle, k: nat, j: nat)
    requires Regular(p) && Repairable(m, p, start) && RepairHolds(m, p, start, b, k, j) && IsAt(m, k, j)
    ensures var r := m.executed(b, m.sweeps[k][j]);
            r.Ok? && p.steps(b, r.value) && RepairHolds(m, p, start, r.value, k, j + 1)
  {
    assert RunsWell(m, p, b, m.sweeps[k][j]);
    var out := m.executed(b, m.sweeps[k][j]).value;
    RepairStays(m, p, start, b, out, k, j);
    PartGrows(p, out, m.sweeps[k], j);
  }

  lemma NextSweep(m: Ladder, p: Order, start: Bundle, b: Bundle, k: nat, j: nat)
    requires RepairHolds(m, p, start, b, k, j) && k < |m.sweeps| && j >= |m.sweeps[k]|
    ensures RepairHolds(m, p, start, b, k + 1, 0)
  {
    forall x: nat | x < k + 1 && x < |m.sweeps| ensures GivenPart(p, b, m.sweeps[x], |m.sweeps[x]|) {
    }
  }

  lemma RepairKeeps(m: Ladder, p: Order, start: Bundle, w: World, out: World, i: nat)
    requires Regular(p) && Repairable(m, p, start) && Inv(m, p, start, w) && i in w.openers && Repairs(m, w, out, i)
    ensures Inv(m, p, start, out)
  {
    assert PhaseHolds(m, p, start, w, i);
    var (k, j) := (w.openers[i].sweep, w.openers[i].statement);
    if k >= |m.sweeps| {
      assert GivenUpTo(m, p, w.disk, |m.sweeps|, 0);
    } else if j >= |m.sweeps[k]| {
      NextSweep(m, p, start, w.disk, k, j);
    } else {
      StatementRuns(m, p, start, w.disk, k, j);
    }
    StepKeeps(m, p, start, w, out, i, out.openers[i]);
  }

  /** The last sweep opens a whole file, or is refused for a stale snapshot and raised. */
  lemma TransactionKeeps(m: Ladder, p: Order, start: Bundle, w: World, out: World, i: nat)
    requires Converges(m, p, start) && Inv(m, p, start, w) && i in w.openers && EndsTransaction(m, w, out, i)
    ensures Inv(m, p, start, out)
  {
    assert PhaseHolds(m, p, start, w, i);
    var snapshot := w.openers[i].snapshot;
    assert EndsWhole(m, p, snapshot);
    assert m.environmental(Some(ResultCode(Busy, SNAPSHOT_EXTENSION)));
    var swept := m.last(snapshot).value;
    if swept != snapshot && w.disk == snapshot {
      SettledStays(m, p, start, snapshot, swept);
    }
    StepKeeps(m, p, start, w, out, i, out.openers[i]);
  }

  // ----- the arm under the lock

  /** The first opener upgrades; a later one repairs under the lock. */
  lemma CommitKeeps(m: Ladder, p: Order, start: Bundle, w: World, out: World, i: nat, served: Option<string>)
    requires Converges(m, p, start) && Inv(m, p, start, w) && i in w.openers && Commits(m, w, out, i, served)
    ensures Inv(m, p, start, out)
  {
    assert PhaseHolds(m, p, start, w, i);
    if w.disk.version == m.current {
      CurrentIsSettled(m, p, start, w);
      assert RepairedWhole(m, p, w.disk, served);
      SettledStays(m, p, start, w.disk, out.disk);
      StepKeeps(m, p, start, w, out, i, Opened);
    } else {
      UpgradeKeeps(m, p, start, w, out, i, served);
    }
  }

  lemma UpgradeKeeps(m: Ladder, p: Order, start: Bundle, w: World, out: World, i: nat, served: Option<string>)
    requires Converges(m, p, start) && Inv(m, p, start, w) && i in w.openers && Commits(m, w, out, i, served) && w.disk.version != m.current
    ensures Inv(m, p, start, out)
  {
    NotYetUpgraded(m, p, start, w);
    assert PhaseHolds(m, p, start, w, i);
    assert Arrives(m, p, start, served);
    assert MigratedFrom(m, start, out.disk);
    assert IsBase(m, start, out.disk) && p.steps(out.disk, out.disk);
    forall x | x in out.openers ensures PhaseHolds(m, p, start, out, x) {
      assert x in w.openers && PhaseHolds(m, p, start, w, x);
      NotRepairing(m, p, start, w, x);
    }
  }

  lemma NotYetUpgraded(m: Ladder, p: Order, start: Bundle, w: World)
    requires Regular(p) && DiskIs(m, p, start, w) && w.disk.version != m.current
    ensures start.version != m.current && w.upgrades == 0 && w.disk == start
  {
    if Settled(m, p, start, w.disk) {
      SettledIsCurrent(m, p, start, w.disk);
    }
  }

  /** Nobody repairs or has open a file that is not current. */
  lemma NotRepairing(m: Ladder, p: Order, start: Bundle, w: World, x: nat)
    requires Regular(p) && x in w.openers && PhaseHolds(m, p, start, w, x) && w.disk.version != m.current
    ensures !w.openers[x].Repairing? && !w.openers[x].Transacting? && w.openers[x] != Opened
  {
    if Settled(m, p, start, w.disk) {
      SettledIsCurrent(m, p, start, w.disk);
    }
  }

  lemma NoArmFails(m: Ladder, p: Order, start: Bundle, w: World, out: World, i: nat, served: Option<string>)
    requires Converges(m, p, start) && Inv(m, p, start, w) && i in w.openers
    ensures !ArmFails(m, w, out, i, served)
  {
    assert PhaseHolds(m, p, start, w, i);
    if w.disk.version == m.current {
      CurrentIsSettled(m, p, start, w);
      assert RepairedWhole(m, p, w.disk, served);
    } else {
      NotYetUpgraded(m, p, start, w);
      assert Arrives(m, p, start, served);
    }
  }

  lemma NextKeeps(m: Ladder, p: Order, start: Bundle, w: World, out: World)
    requires Converges(m, p, start) && Inv(m, p, start, w) && Next(m, w, out)
    ensures Inv(m, p, start, out)
  {
    var i: nat :| i in w.openers && OpenerSteps(m, w, out, i);
    assert PhaseHolds(m, p, start, w, i);
    if ReadsStamp(m, w, out, i) || TakesLock(w, out, i) {
      FirstReadKeeps(m, p, start, w, out, i);
    } else if Repairs(m, w, out, i) {
      RepairKeeps(m, p, start, w, out, i);
    } else if EndsTransaction(m, w, out, i) {
      TransactionKeeps(m, p, start, w, out, i);
    } else if Crashes(w, out, i) {
      LeavingKeeps(m, p, start, w, out, i, Crashed);
    } else if f, extended: nat :| Faults(m, w, out, i, f, extended) {
      FaultKeeps(m, p, start, w, out, i, f, extended);
    } else {
      var served :| Commits(m, w, out, i, served) || ArmFails(m, w, out, i, served);
      NoArmFails(m, p, start, w, out, i, served);
      CommitKeeps(m, p, start, w, out, i, served);
    }
  }

  lemma InitHolds(m: Ladder, p: Order, w: World)
    requires Converges(m, p, w.disk) && Init(w)
    ensures Inv(m, p, w.disk, w)
  {
    if w.disk.version == m.current {
      assert IsBase(m, w.disk, w.disk);
    }
  }

  lemma {:induction false} RunKeeps(m: Ladder, p: Order, run: seq<World>, k: nat)
    requires IsRun(m, run) && Converges(m, p, run[0].disk) && k < |run|
    ensures Inv(m, p, run[0].disk, run[k])
  {
    if k == 0 {
      InitHolds(m, p, run[0]);
    } else {
      RunKeeps(m, p, run, k - 1);
      assert StepAt(m, run, k - 1);
      NextKeeps(m, p, run[0].disk, run[k - 1], run[k]);
    }
  }

  /** For any ladder that converges: over every run of any number of openers, whatever their
      interleaving, crashes, faults and lock timeouts, at most one upgrade commits, nobody
      rebuilds, the file is the one found or a current one that has lost nothing since, and
      once anybody has it open it is whole. */
  lemma UpgradedAtMostOnce(m: Ladder, p: Order, run: seq<World>, k: nat)
    requires IsRun(m, run) && Converges(m, p, run[0].disk) && k < |run|
    ensures run[k].upgrades <= 1 && run[k].rebuilds == 0
    ensures run[k].disk == run[0].disk || Settled(m, p, run[0].disk, run[k].disk)
    ensures (exists i :: i in run[k].openers && run[k].openers[i] == Opened) ==> run[k].disk.version == m.current && p.whole(run[k].disk)
  {
    RunKeeps(m, p, run, k);
    forall i | i in run[k].openers && run[k].openers[i] == Opened ensures run[k].disk.version == m.current && p.whole(run[k].disk) {
      assert PhaseHolds(m, p, run[0].disk, run[k], i);
      SettledIsCurrent(m, p, run[0].disk, run[k].disk);
    }
  }

  // ----- a handler that forgets a fault

  lemma Extend(m: Ladder, run: seq<World>, w: World, i: nat) returns (longer: seq<World>)
    requires IsRun(m, run) && i in run[|run| - 1].openers && OpenerSteps(m, run[|run| - 1], w, i)
    ensures longer == run + [w] && IsRun(m, longer) && longer[0] == run[0]
  {
    longer := run + [w];
    forall k: nat | k < |longer| - 1 ensures StepAt(m, longer, k) {
      if k < |run| - 1 {
        assert StepAt(m, run, k);
      }
    }
  }

  /** One opener whose handler takes a fault for the schema's rebuilds, whatever the bundle
      held: the predicate must know every fault. */
  lemma ForgottenFaultRebuilds(m: Ladder, start: Bundle, f: Fault, extended: nat) returns (run: seq<World>)
    requires !m.environmental(Some(ResultCode(f, extended)))
    ensures IsRun(m, run) && run[0].disk == start && run[|run| - 1].rebuilds == 1 && run[|run| - 1].disk == m.empty
  {
    var w0 := World(start, None, map[0 := Starting], 0, 0);
    run := [w0];
    if start.version == m.current {
      var w1 := To(w0, 0, Repairing(0, 0));
      assert ReadsStamp(m, w0, w1, 0);
      run := Extend(m, run, w1, 0);
    } else {
      var w1 := To(w0, 0, Waiting);
      assert ReadsStamp(m, w0, w1, 0);
      run := Extend(m, run, w1, 0);
      var w2 := To(w1, 0, Migrating(start.version)).(lock := Some(0));
      assert TakesLock(w1, w2, 0);
      run := Extend(m, run, w2, 0);
    }
    var before := run[|run| - 1];
    var failed := Released(To(before, 0, Rebuilding), 0);
    assert Faults(m, before, failed, 0, f, extended);
    run := Extend(m, run, failed, 0);
    var rebuilt := To(failed, 0, Opened).(disk := m.empty, rebuilds := 1);
    assert Rebuilds(m, failed, rebuilt, 0);
    run := Extend(m, run, rebuilt, 0);
  }
}
