/** What an SQLite error is about, told by its result code, and what the open's handler does
    with it (python/pydocs_mcp/db_migration_lock.py, db.py). */
module SqliteErrors {
  import opened Common
  import opened BundleSchema

  /** Lock contention, a read-only file, an I/O failure, a full disk. */
  datatype Fault = Busy | Locked | ReadOnly | IoError | Full

  function PrimaryCode(f: Fault): int {
    match f
    case Busy => 5
    case Locked => 6
    case ReadOnly => 8
    case IoError => 10
    case Full => 13
  }

  /** An extended result code has its primary one in the low byte. */
  function ResultCode(f: Fault, extended: nat): int { extended * 0x100 + PrimaryCode(f) }

  const ENVIRONMENTAL_RESULT_CODES: set<int> := {5, 6, 8, 10, 13}

  /** The masked code is one of the environment's; no code means the schema. */
  predicate IsEnvironmental(code: Option<int>) {
    code.Some? && code.value % 0x100 in ENVIRONMENTAL_RESULT_CODES
  }

  /** The predicate finds the environment's faults under every extension, and nothing else. */
  lemma EnvironmentalExactly(code: nat)
    ensures IsEnvironmental(Some(code)) <==> exists f, extended: nat :: ResultCode(f, extended) == code
  {
    if IsEnvironmental(Some(code)) {
      var f := if code % 0x100 == 5 then Busy else if code % 0x100 == 6 then Locked else if code % 0x100 == 8 then ReadOnly
               else if code % 0x100 == 10 then IoError else Full;
      assert ResultCode(f, code / 0x100) == code;
    }
    if f, extended: nat :| ResultCode(f, extended) == code {
      FaultIsEnvironmental(f, extended);
    }
  }

  lemma FaultIsEnvironmental(f: Fault, extended: nat)
    ensures IsEnvironmental(Some(ResultCode(f, extended)))
  {
    assert ResultCode(f, extended) % 0x100 == PrimaryCode(f);
  }

  const SQLITE_ERROR := 1

  /** A broken key raises IntegrityError, which the handler of OperationalError lets through;
      any other failed statement carries SQLITE_ERROR. */
  predicate IsOperational(e: SqlError) { !e.UniqueViolation? }
}
