/**
 Rows of the protected-backup tables and the phases of their work columns. The columns that the
 worker advances are the hard part: a backup goes capture, encrypt, upload_ready, upload_submitted,
 stored; a restore goes waiting, prepare, submitted, done.
 */
module BackupRecords {
  import opened Prelude

  const ATTEMPTS: nat := 5
  const DAY: nat := 86_400_000
  const HOUR: nat := 3_600_000

  /** The release of a recipe changes on deployment; retention compares the rest of it. */
  datatype Recipe = Recipe(data: Id, release: Id)
  datatype Captured = Captured(id: Id, recipe: Recipe, bytes: nat, sha256: Id)
  datatype Encryption = Encryption(plaintextBytes: nat, plaintextSha256: Id, ciphertextBytes: nat)
  datatype Intent = Intent(attempt: Id, size: nat)
  datatype Receipt = Receipt(attempt: Id, size: nat, version: Id)
  datatype Sealed = Sealed(capture: Captured, encryption: Encryption, intent: Intent)

  datatype Work =
    | Capture(attempts: nat)
    | Encrypt(capture: Captured, attempts: nat)
    | UploadReady(envelope: Sealed)
    | UploadSubmitted(envelope: Sealed, attempts: nat)
    | Stored(envelope: Sealed, receipt: Receipt, cleaned: bool, attempts: nat)

  datatype BackupState =
    | Pending
    | Available(verified: bool)  // the record kind "captured"
    | Blocked
    | PurgePending(purge: Id)
    | Purged(purge: Id)

  /** What admission fixes for good. */
  datatype Admitted = Admitted(account: Id, machine: Id, allocation: Id, recipe: Recipe, scheduled: bool,
                               createdAt: nat, retainUntil: nat, maxBytes: nat)

  datatype Backup = Backup(facts: Admitted, state: BackupState, work: Work, reserved: nat)

  datatype RestoreWork = Waiting | Prepare(attempts: nat) | Submitted(attempts: nat) | Done
  datatype RestoreState = RestorePending(waitingForKey: bool) | Restored | RestoreBlocked
  datatype Restore = Restore(backup: Id, account: Id, machine: Id, digest: Id, state: RestoreState, work: RestoreWork)

  datatype PurgeState = PurgeWaiting(notBefore: nat) | PurgeSubmitted(at: nat) | PurgeBlocked(retryAt: nat) | PurgeDone
  datatype Purge = Purge(backup: Id, account: Id, retention: bool, state: PurgeState, due: Option<nat>)

  datatype Machine = Machine(account: Id, ready: bool, destroyed: bool)

  /** The stand-in for a collision-free digest of the immutable capture, encryption and intent. */
  datatype Digest = Digest(account: Id, backup: Id, allocation: Id, envelope: Sealed)

  function ReceiptDigest(id: Id, b: Backup): (d: Option<Digest>)
    ensures d.Some? <==> b.work.UploadSubmitted? || b.work.Stored?
  {
    if b.work.UploadSubmitted? || b.work.Stored? then Some(Digest(b.facts.account, id, b.facts.allocation, b.work.envelope))
    else None
  }

  function AttemptsOf(w: Work): nat {
    match w
    case Capture(n) => n
    case Encrypt(_, n) => n
    case UploadReady(_) => 0
    case UploadSubmitted(_, n) => n
    case Stored(_, _, _, n) => n
  }

  function Left(n: nat): (r: nat) {
    if n <= ATTEMPTS then ATTEMPTS - n else 0
  }

  /** The lexicographic measure (phase, attempts left), written as one number: six values per phase. */
  function Measure(w: Work): nat {
    match w
    case Capture(n) => 30 + Left(n)
    case Encrypt(_, n) => 24 + Left(n)
    case UploadReady(_) => 18
    case UploadSubmitted(_, n) => 12 + Left(n)
    case Stored(_, _, cleaned, n) => if cleaned then 0 else 6 + Left(n)
  }

  function RestoreMeasure(w: RestoreWork): nat {
    match w
    case Waiting => 18
    case Prepare(n) => 12 + Left(n)
    case Submitted(n) => 6 + Left(n)
    case Done => 0
  }

  /** How many guest and store calls the work column still pays for. */
  function Budget(w: Work): nat {
    match w
    case Capture(n) => Left(n) + 16
    case Encrypt(_, n) => Left(n) + 11
    case UploadReady(_) => 11
    case UploadSubmitted(_, n) => Left(n) + 5
    case Stored(_, _, cleaned, n) => if cleaned then 0 else Left(n)
  }

  function RestoreBudget(w: RestoreWork): nat {
    match w
    case Waiting => 11
    case Prepare(n) => Left(n) + 6
    case Submitted(n) => Left(n)
    case Done => 0
  }

  function RestoreAttempts(w: RestoreWork): nat {
    if w.Prepare? || w.Submitted? then w.attempts else 0
  }

  predicate HasEnvelope(w: Work) {
    w.UploadReady? || w.UploadSubmitted? || w.Stored?
  }

  function Day(facts: Admitted): nat {
    facts.createdAt / DAY
  }

  /** The last whole second of the retention period, rounded up. */
  function RetainUntil(checkedAt: nat, days: nat): (until: nat)
    ensures checkedAt + days * DAY <= until < checkedAt + days * DAY + 1000
    ensures until % 1000 == 0
  {
    (checkedAt + days * DAY + 999) / 1000 * 1000
  }
}
