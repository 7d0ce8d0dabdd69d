/** What every reachable state of the backup tables keeps, and the proof that every event keeps it. */
module BackupInvariants {
  import opened Prelude
  import opened BackupRecords
  import opened BackupMachine

  predicate Settled(st: BackupState) {
    st.Available? || st.PurgePending? || st.Purged?
  }

  predicate CapturedOk(c: Captured, id: Id, facts: Admitted) {
    c.id == id && c.recipe == facts.recipe && c.bytes <= facts.maxBytes
  }

  /** The sealed file is the encryption of exactly the captured bytes. */
  predicate EnvelopeOk(v: Sealed, id: Id, facts: Admitted) {
    && CapturedOk(v.capture, id, facts)
    && v.encryption.plaintextBytes == v.capture.bytes && v.encryption.plaintextSha256 == v.capture.sha256
    && v.intent == Intent(id, v.encryption.ciphertextBytes) && v.intent.size <= facts.maxBytes
  }

  /** A row on its own: phase against state, the saved envelope, the receipt and the reservation. */
  predicate RowOk(id: Id, b: Backup) {
    && AttemptsOf(b.work) <= ATTEMPTS
    && (b.work.Stored? <==> Settled(b.state))
    && (b.work.Encrypt? ==> CapturedOk(b.work.capture, id, b.facts))
    && (HasEnvelope(b.work) ==> EnvelopeOk(b.work.envelope, id, b.facts))
    && (b.work.Stored? ==> b.work.receipt.attempt == id && b.work.receipt.size == b.work.envelope.intent.size)
    && b.reserved == (if b.state.Purged? then 0 else if b.work.Stored? then b.work.receipt.size else b.facts.maxBytes)
  }

  ghost predicate Rows(backups: map<Id, Backup>) {
    forall id {:trigger RowOk(id, backups[id])} :: id in backups ==> RowOk(id, backups[id])
  }

  predicate OwnsMachine(facts: Admitted, machines: map<Id, Machine>) {
    facts.machine in machines && machines[facts.machine].account == facts.account
  }

  /** A backup under purge belongs to one purge, and no restore needs its object any more. */
  ghost predicate LinkOk(id: Id, b: Backup, restores: map<Id, Restore>, purges: map<Id, Purge>,
                         machines: map<Id, Machine>) {
    && OwnsMachine(b.facts, machines)
    && (b.state.PurgePending? || b.state.Purged? ==>
          && b.state.purge in purges
          && purges[b.state.purge].backup == id
          && purges[b.state.purge].state.PurgeDone? == b.state.Purged?
          && Unpinned(restores, machines, id))
  }

  ghost predicate Links(backups: map<Id, Backup>, restores: map<Id, Restore>, purges: map<Id, Purge>,
                        machines: map<Id, Machine>) {
    forall id {:trigger LinkOk(id, backups[id], restores, purges, machines)} :: id in backups ==>
      LinkOk(id, backups[id], restores, purges, machines)
  }

  predicate PurgeOk(p: Id, g: Purge, backups: map<Id, Backup>, clock: nat) {
    && g.backup in backups
    && var b := backups[g.backup];
    && g.account == b.facts.account
    && b.state == (if g.state.PurgeDone? then Purged(p) else PurgePending(p))
    && (g.due.None? <==> g.state.PurgeDone?)
    && (g.due.Some? ==> b.facts.retainUntil <= Max(g.due.value, clock))
    && (g.retention ==> b.facts.scheduled && b.facts.retainUntil <= clock)
  }

  ghost predicate Purges(purges: map<Id, Purge>, backups: map<Id, Backup>, clock: nat) {
    forall p {:trigger PurgeOk(p, purges[p], backups, clock)} :: p in purges ==> PurgeOk(p, purges[p], backups, clock)
  }

  predicate RestoreOk(t: Restore, backups: map<Id, Backup>, machines: map<Id, Machine>) {
    && t.backup in backups && t.machine in machines
    && backups[t.backup].facts.account == t.account
    && backups[t.backup].work.Stored?
    && (t.work.Done? <==> t.state.Restored?)
    && RestoreAttempts(t.work) <= ATTEMPTS
  }

  ghost predicate Restores(restores: map<Id, Restore>, backups: map<Id, Backup>, machines: map<Id, Machine>) {
    forall r {:trigger RestoreOk(restores[r], backups, machines)} :: r in restores ==>
      RestoreOk(restores[r], backups, machines)
  }

  ghost predicate Targets(restores: map<Id, Restore>) {
    forall r, q :: r in restores && q in restores && restores[r].machine == restores[q].machine ==> r == q
  }

  /** How often a call was made. */
  function Count(log: seq<Effect>, e: Effect): nat {
    if log == [] then 0
    else Count(log[..|log| - 1], e) + (if log[|log| - 1] == e then 1 else 0)
  }

  function Calls(log: seq<Effect>, b: Id): nat {
    Count(log, GuestCapture(b)) + Count(log, GuestRead(b)) + Count(log, Put(b)) + Count(log, Recover(b))
    + Count(log, GuestRemove(b))
  }

  function RestoreCalls(log: seq<Effect>, r: Id, b: Id): nat {
    Count(log, Download(r, b)) + Count(log, GuestSubmit(r)) + Count(log, InspectRestore(r))
  }

  predicate ForBackup(e: Effect, b: Id) {
    e == GuestCapture(b) || e == GuestRead(b) || e == Put(b) || e == Recover(b) || e == GuestRemove(b)
  }

  predicate ForRestore(e: Effect, r: Id, b: Id) {
    e == Download(r, b) || e == GuestSubmit(r) || e == InspectRestore(r)
  }

  /** The call that is saved but not yet made. */
  function DueCall(worker: Worker): Option<Effect> {
    if worker.Running? && worker.at.Due? then Some(worker.at.effect) else None
  }

  /** Every call on a backup was paid for by its work column; a PUT follows its saved submission, once. */
  predicate Paid(calls: nat, puts: nat, deletes: nat, due: Option<Effect>, id: Id, b: Backup) {
    && calls + Budget(b.work) + (if due.Some? && ForBackup(due.value, id) then 1 else 0) <= 21
    && puts + (if due == Some(Put(id)) then 1 else 0) <= (if b.work.UploadSubmitted? || b.work.Stored? then 1 else 0)
    && (deletes > 0 || due == Some(Delete(id)) ==> b.state.PurgePending? || b.state.Purged?)
  }

  predicate CallsOk(log: seq<Effect>, due: Option<Effect>, id: Id, b: Backup) {
    Paid(Calls(log, id), Count(log, Put(id)), Count(log, Delete(id)), due, id, b)
  }

  predicate RestoreCallsOk(log: seq<Effect>, due: Option<Effect>, r: Id, t: Restore) {
    && RestoreCalls(log, r, t.backup) + RestoreBudget(t.work)
       + (if due.Some? && ForRestore(due.value, r, t.backup) then 1 else 0) <= 11
    && Count(log, GuestSubmit(r)) + (if due == Some(GuestSubmit(r)) then 1 else 0)
       <= (if t.work.Submitted? || t.work.Done? then 1 else 0)
  }

  ghost predicate BackupCalls(log: seq<Effect>, due: Option<Effect>, backups: map<Id, Backup>) {
    forall b {:trigger CallsOk(log, due, b, backups[b])} :: b in backups ==> CallsOk(log, due, b, backups[b])
  }

  ghost predicate CallsOfRestores(log: seq<Effect>, due: Option<Effect>, restores: map<Id, Restore>) {
    forall r {:trigger RestoreCallsOk(log, due, r, restores[r])} :: r in restores ==>
      RestoreCallsOk(log, due, r, restores[r])
  }

  /** Calls name rows that exist: an identifier not yet admitted has no past. */
  predicate Known(e: Effect, backups: map<Id, Backup>, restores: map<Id, Restore>) {
    match e
    case Download(r, b) => r in restores && restores[r].backup == b
    case GuestSubmit(r) => r in restores
    case InspectRestore(r) => r in restores
    case _ => e.backup in backups
  }

  ghost predicate AllKnown(log: seq<Effect>, backups: map<Id, Backup>, restores: map<Id, Restore>) {
    forall e {:trigger Known(e, backups, restores)} :: Count(log, e) > 0 ==> Known(e, backups, restores)
  }

  /** No download of an object comes after its deletion was submitted. */
  ghost predicate Ordered(log: seq<Effect>) {
    forall i, j :: 0 <= i < j < |log| && log[i].Delete? && log[j].Download? ==> log[i].backup != log[j].backup
  }

  predicate CaptureStage(id: Id, w: Work, at: Stage) {
    at.Choose? ||
    match at.effect
    case GuestCapture(b) => b == id && w.Capture?
    case GuestRead(b) => b == id && w.Encrypt?
    case Put(b) => b == id && w.UploadSubmitted?
    case Recover(b) => b == id && w.UploadSubmitted?
    case GuestRemove(b) => b == id && w.Stored? && !w.cleaned
    case _ => false
  }

  predicate RestoreStage(id: Id, backup: Id, w: RestoreWork, at: Stage) {
    at.Choose? ||
    match at.effect
    case Download(r, b) => r == id && b == backup && w.Prepare?
    case GuestSubmit(r) => r == id && w.Submitted?
    case InspectRestore(r) => r == id && w.Submitted?
    case _ => false
  }

  /** What the lock holder remembers is still what the tables say, although its writes never look again. */
  predicate WorkerOk(s: State) {
    s.worker.Running? ==>
      match s.worker.job
      case CaptureJob(id, w) =>
        && id in s.backups && s.backups[id].work == w
        && (w.Stored? || s.backups[id].state.Pending?)
        && CaptureStage(id, w, s.worker.at)
      case RestoreJob(id, w, _) =>
        && id in s.restores && s.restores[id].work == w
        && s.restores[id].state.RestorePending?
        && Count(s.log, Delete(s.restores[id].backup)) == 0
        && RestoreStage(id, s.restores[id].backup, w, s.worker.at)
      case DeleteJob(p) =>
        && p in s.purges && OwnsStoredBackup(s.purges, s.backups, p) && s.clock >= s.backups[s.purges[p].backup].facts.retainUntil
        && (s.worker.at.Choose? ==> s.purges[p].backup !in s.objects)
        && (s.worker.at.Choose? || s.worker.at.effect == Delete(s.purges[p].backup))
      case RecoverJob(id, seen, w) =>
        && id in s.backups && s.backups[id].work == w && w.UploadSubmitted? && s.worker.at.Choose?
  }

  /** An object that may exist is the one this row's envelope describes, and its bytes stay reserved. */
  predicate ObjectOk(o: Id, size: nat, backups: map<Id, Backup>) {
    && o in backups
    && (backups[o].work.UploadSubmitted? || backups[o].work.Stored?)
    && size == backups[o].work.envelope.intent.size
    && !backups[o].state.Purged?
  }

  ghost predicate Objects(objects: map<Id, nat>, backups: map<Id, Backup>) {
    forall o {:trigger ObjectOk(o, objects[o], backups)} :: o in objects ==> ObjectOk(o, objects[o], backups)
  }

  ghost predicate WithinQuota(backups: map<Id, Backup>, config: Config) {
    && Reserved(backups, None) <= config.maxGlobalBytes
    && forall a: Id :: Reserved(backups, Some(a)) <= config.maxAccountBytes
  }

  ghost predicate Tables(s: State) {
    && Rows(s.backups)
    && Links(s.backups, s.restores, s.purges, s.machines)
    && Purges(s.purges, s.backups, s.clock)
    && Restores(s.restores, s.backups, s.machines)
    && Targets(s.restores)
    && BackupCalls(s.log, DueCall(s.worker), s.backups)
    && CallsOfRestores(s.log, DueCall(s.worker), s.restores)
    && AllKnown(s.log, s.backups, s.restores)
    && Ordered(s.log)
    && Objects(s.objects, s.backups)
    && WithinQuota(s.backups, s.config)
  }

  ghost predicate Inv(s: State) {
    Tables(s) && WorkerOk(s)
  }

  // ---- counts and sums

  lemma {:induction false} CountFinds(log: seq<Effect>, e: Effect)
    ensures Count(log, e) > 0 <==> e in log
  {
    if log != [] {
      CountFinds(log[..|log| - 1], e);
      assert log == log[..|log| - 1] + [log[|log| - 1]];
    }
  }

  lemma CountAppends(log: seq<Effect>, last: Effect)
    ensures forall e :: Count(log + [last], e) == Count(log, e) + (if e == last then 1 else 0)
  {
    assert (log + [last])[..|log|] == log;
  }

  lemma {:induction false} ReservedPicks(m: map<Id, Backup>, who: Option<Id>, k: Id)
    requires k in m
    ensures Reserved(m, who) == Weight(m[k], who) + Reserved(m - {k}, who)
    decreases |m|
  {
    var id :| id in m && Reserved(m, who) == Weight(m[id], who) + Reserved(m - {id}, who);
    if id != k {
      ReservedPicks(m - {id}, who, k);
      ReservedPicks(m - {k}, who, id);
      assert m - {id} - {k} == m - {k} - {id};
    }
  }

  lemma ReservedUpdate(m: map<Id, Backup>, who: Option<Id>, k: Id, b: Backup)
    ensures Reserved(m[k := b], who)
         == Reserved(m, who) + Weight(b, who) - (if k in m then Weight(m[k], who) else 0)
  {
    ReservedPicks(m[k := b], who, k);
    assert m[k := b] - {k} == m - {k};
    if k in m { ReservedPicks(m, who, k); } else { assert m - {k} == m; }
  }

  /** Rewriting a row for no more bytes keeps both allowances. */
  lemma QuotaKept(m: map<Id, Backup>, config: Config, k: Id, b: Backup)
    requires WithinQuota(m, config) && k in m
    requires b.facts.account == m[k].facts.account && b.reserved <= m[k].reserved
    ensures WithinQuota(m[k := b], config)
  {
    ReservedUpdate(m, None, k, b);
    forall a: Id ensures Reserved(m[k := b], Some(a)) <= config.maxAccountBytes {
      ReservedUpdate(m, Some(a), k, b);
    }
  }
}
