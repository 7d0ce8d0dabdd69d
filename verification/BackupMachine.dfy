/**
 The protected-backup tables as a state machine. One event is one committed transaction, one guest or
 store call, or one reply; a crash is Abandon, and may fall between any two events. The worker lock
 admits one run at a time; admission transactions of other processes interleave with it freely.
 */
module BackupMachine {
  import opened Prelude
  import opened BackupRecords

  datatype Config = Config(maxBytes: nat, maxAccountBytes: nat, maxGlobalBytes: nat, retentionDays: nat)

  /** Calls that leave the control plane. */
  datatype Effect =
    | GuestCapture(backup: Id)
    | GuestRead(backup: Id)
    | Put(backup: Id)
    | Recover(backup: Id)
    | GuestRemove(backup: Id)
    | Download(restore: Id, backup: Id)
    | GuestSubmit(restore: Id)
    | InspectRestore(restore: Id)
    | Delete(backup: Id)

  /** What the run that owns the worker lock keeps in memory. */
  datatype Job =
    | CaptureJob(backup: Id, work: Work)
    | RestoreJob(restore: Id, restoring: RestoreWork, ready: bool)
    | DeleteJob(purge: Id)
    | RecoverJob(backup: Id, seen: BackupState, work: Work)

  /** Choose: the next branch is taken. Due: saved, the call not made. Called: the reply is awaited. */
  datatype Stage = Choose | Due(effect: Effect) | Called(effect: Effect)

  datatype Worker = Idle | Running(job: Job, at: Stage)

  datatype State = State(
    config: Config, clock: nat,
    backups: map<Id, Backup>, restores: map<Id, Restore>, purges: map<Id, Purge>, machines: map<Id, Machine>,
    objects: map<Id, nat>,  // object versions that may exist, with their sizes
    worker: Worker, log: seq<Effect>)

  datatype Progress = Provisioning | Succeeded | Unsuccessful
  datatype GuestReply = GuestRestored | GuestFailed | GuestUnknown
  datatype DeleteOutcome = DeleteFailed | Retained(until: nat, local: nat) | Absent

  datatype Event =
    | Tick(elapsed: nat)
    | MachineAdded(machine: Id, account: Id)
    | MachineReady(machine: Id)
    | MachineDestroyed(machine: Id)
    | AdmitBackup(id: Id, account: Id, machine: Id, allocation: Id, recipe: Recipe, scheduled: bool, createdAt: nat)
    | AdmitRestore(id: Id, backup: Id, account: Id, machine: Id, digest: Id)
    | RequestPurge(id: Id, backup: Id, account: Id)
    | ExpireBackup(id: Id, backup: Id)
    | BeginCapture(backup: Id)
    | BeginRestore(restore: Id)
    | BeginDeletion(purge: Id)
    | BeginRecovery(backup: Id, expected: Digest)
    | Call
    | Abandon
    | StartCapture(authorized: bool)
    | CaptureReply(captured: Captured)
    | StartRead(authorized: bool)
    | ReadReply(encryption: Encryption, intent: Intent)
    | SubmitUpload
    | StartRecover
    | UploadFound(version: Id)
    | StartCleanup
    | SkipRemove
    | CleanupDone
    | RecoveryFound(version: Id)
    | ProvisioningRead(progress: Progress)
    | StartInspect
    | KeyUnavailable(authorized: bool)
    | StartDownload(authorized: bool)
    | BeforeSubmit(authorized: bool)
    | RestoreReply(reply: GuestReply)
    | DeleteReply(outcome: DeleteOutcome)
    | CompletePurge

  // ---- sums and guards

  function Weight(b: Backup, who: Option<Id>): nat {
    if who.None? || b.facts.account == who.value then b.reserved else 0
  }

  /** sum(reserved_bytes), over every row or over one account's. */
  ghost function Reserved(backups: map<Id, Backup>, who: Option<Id>): nat
    decreases |backups|
  {
    if backups == map[] then 0
    else
      var id :| id in backups;
      Weight(backups[id], who) + Reserved(backups - {id}, who)
  }

  predicate Recent(b: Backup, clock: nat, account: Id) {
    b.facts.account == account && b.facts.createdAt + HOUR > clock
  }

  ghost function RecentAdmissions(backups: map<Id, Backup>, clock: nat, account: Id): set<Id> {
    set id | id in backups && Recent(backups[id], clock, account)
  }

  predicate Gone(machines: map<Id, Machine>, machine: Id) {
    machine in machines && machines[machine].destroyed
  }

  predicate Released(t: Restore, machines: map<Id, Machine>) {
    t.work.Done? || Gone(machines, t.machine)
  }

  /** No restore of this backup can still read its object. */
  ghost predicate Unpinned(restores: map<Id, Restore>, machines: map<Id, Machine>, backup: Id) {
    forall r :: r in restores && restores[r].backup == backup ==> Released(restores[r], machines)
  }

  ghost predicate Purgeable(s: State, id: Id) {
    && id in s.backups
    && var b := s.backups[id];
    && b.state.Available? && b.work.Stored?
    && b.work.receipt.attempt == id && b.work.envelope.capture.id == id && b.work.receipt.size == b.reserved
    && (b.work.cleaned || Gone(s.machines, b.facts.machine))
    && Unpinned(s.restores, s.machines, id)
  }

  predicate SameSeries(a: Admitted, b: Admitted) {
    a.machine == b.machine && a.account == b.account && a.recipe.data == b.recipe.data
  }

  /** A scheduled backup of this series that is captured and not under purge. */
  predicate Counts(b: Backup, series: Admitted) {
    SameSeries(b.facts, series) && b.facts.scheduled && b.state.Available?
  }

  /** The distinct UTC days of captured scheduled backups in a series. */
  ghost function Days(backups: map<Id, Backup>, series: Admitted): set<nat> {
    set o | o in backups && Counts(backups[o], series) :: Day(backups[o].facts)
  }

  ghost function Later(days: set<nat>, day: nat): set<nat> {
    set d | d in days && d > day
  }

  ghost predicate RetentionEligible(s: State, id: Id) {
    && Purgeable(s, id)
    && var b := s.backups[id];
    && b.facts.retainUntil <= s.clock
    && b.facts.scheduled
    && |Later(Days(s.backups, b.facts), Day(b.facts))| >= 7
  }

  // ---- admission transactions

  function SetBackup(s: State, id: Id, b: Backup): State {
    s.(backups := s.backups[id := b])
  }

  ghost predicate MayCapture(s: State, id: Id, account: Id, machine: Id) {
    && id !in s.backups
    && machine in s.machines && s.machines[machine] == Machine(account, true, false)
    && Reserved(s.backups, Some(account)) + s.config.maxBytes <= s.config.maxAccountBytes
    && Reserved(s.backups, None) + s.config.maxBytes <= s.config.maxGlobalBytes
    && |RecentAdmissions(s.backups, s.clock, account)| < 10
  }

  ghost function AdmitBackupStep(s: State, id: Id, account: Id, machine: Id, allocation: Id, recipe: Recipe,
                                 scheduled: bool, createdAt: nat): State {
    if !MayCapture(s, id, account, machine) || createdAt > s.clock then s
    else
      var facts := Admitted(account, machine, allocation, recipe, scheduled, createdAt,
                            RetainUntil(s.clock, s.config.retentionDays), s.config.maxBytes);
      SetBackup(s, id, Backup(facts, Pending, Capture(0), s.config.maxBytes))
  }

  /** The target is a machine that the same transaction admits. */
  function AdmitRestoreStep(s: State, id: Id, backup: Id, account: Id, machine: Id, digest: Id): State {
    if id in s.restores || backup !in s.backups || s.backups[backup].facts.account != account
       || !s.backups[backup].state.Available? || !s.backups[backup].work.Stored? || machine in s.machines then s
    else
      s.(machines := s.machines[machine := Machine(account, false, false)],
         restores := s.restores[id := Restore(backup, account, machine, digest, RestorePending(false), Waiting)])
  }

  function AdmitPurge(s: State, id: Id, backup: Id, retention: bool): State
    requires backup in s.backups
  {
    var b := s.backups[backup];
    s.(purges := s.purges[id := Purge(backup, b.facts.account, retention, PurgeWaiting(b.facts.retainUntil),
                                      Some(Max(s.clock, b.facts.retainUntil)))],
       backups := s.backups[backup := b.(state := PurgePending(id))])
  }

  ghost function RequestPurgeStep(s: State, id: Id, backup: Id, account: Id): State {
    if id in s.purges || !Purgeable(s, backup) || s.backups[backup].facts.account != account then s
    else AdmitPurge(s, id, backup, false)
  }

  ghost function ExpireBackupStep(s: State, id: Id, backup: Id): State {
    if id in s.purges || !RetentionEligible(s, backup) then s else AdmitPurge(s, id, backup, true)
  }

  // ---- runs under the worker lock

  function Release(s: State): State {
    s.(worker := Idle)
  }

  function Enter(s: State, job: Job, at: Stage): State {
    s.(worker := Running(job, at))
  }

  function SaveWork(s: State, id: Id, w: Work): State
    requires id in s.backups
  {
    SetBackup(s, id, s.backups[id].(work := w))
  }

  function SaveStored(s: State, id: Id, w: Work): State
    requires id in s.backups && w.Stored?
  {
    SetBackup(s, id, s.backups[id].(work := w, reserved := w.receipt.size, state := Available(false)))
  }

  function BlockBackup(s: State, id: Id): State
    requires id in s.backups
  {
    Release(SetBackup(s, id, s.backups[id].(state := Blocked)))
  }

  function BeginCaptureStep(s: State, id: Id): State {
    if id !in s.backups || !(s.backups[id].state.Pending? || s.backups[id].state.Available?) then s
    else Enter(s, CaptureJob(id, s.backups[id].work), Choose)
  }

  function SaveAndCall(s: State, id: Id, next: Work, effect: Effect): State
    requires id in s.backups
  {
    Enter(SaveWork(s, id, next), CaptureJob(id, next), Due(effect))
  }

  function SaveAndGoOn(s: State, id: Id, next: Work): State
    requires id in s.backups
  {
    Enter(SaveWork(s, id, next), CaptureJob(id, next), Choose)
  }

  /** A branch of advanceCapture, taken while its in-memory work is w. */
  function CaptureChoice(s: State, id: Id, w: Work, e: Event): State
    requires id in s.backups
  {
    match w
    case Capture(n) =>
      if !e.StartCapture? then s
      else if n >= ATTEMPTS || !e.authorized then BlockBackup(s, id)
      else SaveAndCall(s, id, Capture(n + 1), GuestCapture(id))
    case Encrypt(capture, n) =>
      if !e.StartRead? then s
      else if n >= ATTEMPTS || !e.authorized then BlockBackup(s, id)
      else SaveAndCall(s, id, Encrypt(capture, n + 1), GuestRead(id))
    case UploadReady(envelope) =>
      if !e.SubmitUpload? then s
      else SaveAndCall(s, id, UploadSubmitted(envelope, 0), Put(id))
    case UploadSubmitted(envelope, n) =>
      if !e.StartRecover? then s
      else if n >= ATTEMPTS then BlockBackup(s, id)
      else SaveAndCall(s, id, UploadSubmitted(envelope, n + 1), Recover(id))
    case Stored(envelope, receipt, cleaned, n) =>
      if !e.StartCleanup? || cleaned || n >= ATTEMPTS then s
      else SaveAndCall(s, id, Stored(envelope, receipt, false, n + 1), GuestRemove(id))
  }

  /** A reply to the call that advanceCapture awaits. Replies that do not match throw, which is Abandon. */
  function CaptureAnswer(s: State, id: Id, w: Work, called: Effect, e: Event): State
    requires id in s.backups
  {
    var b := s.backups[id];
    match w
    case Capture(_) =>
      if !e.CaptureReply? || called != GuestCapture(id) then s
      else if e.captured.id != id || e.captured.recipe != b.facts.recipe || e.captured.bytes > b.facts.maxBytes
      then Release(s)
      else SaveAndGoOn(s, id, Encrypt(e.captured, 0))
    case Encrypt(capture, _) =>
      // the cipher stream stops above the admitted limit; the intent names this backup and the sealed file's size
      if !e.ReadReply? || called != GuestRead(id) then s
      else if e.encryption.ciphertextBytes > b.facts.maxBytes || e.intent != Intent(id, e.encryption.ciphertextBytes)
              || e.encryption.plaintextBytes != capture.bytes || e.encryption.plaintextSha256 != capture.sha256
      then Release(s)
      else SaveAndGoOn(s, id, UploadReady(Sealed(capture, e.encryption, e.intent)))
    case UploadReady(_) => s
    case UploadSubmitted(envelope, _) =>
      if !e.UploadFound? || !(called == Put(id) || called == Recover(id)) then s
      else
        var next := Stored(envelope, Receipt(id, envelope.intent.size, e.version), false, 0);
        Enter(SaveStored(s, id, next), CaptureJob(id, next), Choose)
    case Stored(envelope, receipt, _, n) =>
      if !e.CleanupDone? || called != GuestRemove(id) then s
      else Release(SaveWork(s, id, Stored(envelope, receipt, true, n)))
  }

  function SaveRestore(s: State, id: Id, w: RestoreWork): State
    requires id in s.restores
  {
    s.(restores := s.restores[id := s.restores[id].(work := w)])
  }

  function BlockRestore(s: State, id: Id): State
    requires id in s.restores
  {
    Release(s.(restores := s.restores[id := s.restores[id].(state := RestoreBlocked)]))
  }

  function BeginRestoreStep(s: State, id: Id): State {
    if id !in s.restores || !s.restores[id].state.RestorePending? || s.restores[id].machine !in s.machines then s
    else if Gone(s.machines, s.restores[id].machine) then BlockRestore(s, id)
    else Enter(s, RestoreJob(id, s.restores[id].work, s.machines[s.restores[id].machine].ready), Choose)
  }

  /** Publication of a verified restore: one transaction over both rows, or none of it. */
  function Finish(s: State, id: Id): State
    requires id in s.restores
  {
    var r := s.restores[id];
    if r.backup !in s.backups || !s.backups[r.backup].state.Available? then Release(s)
    else
      Release(s.(restores := s.restores[id := r.(work := Done, state := Restored)],
                 backups := s.backups[r.backup := s.backups[r.backup].(state := Available(true))]))
  }

  function RestoreChoice(s: State, id: Id, w: RestoreWork, ready: bool, e: Event): State
    requires id in s.restores
  {
    var r := s.restores[id];
    if w.Waiting? then
      if !e.ProvisioningRead? then s
      else if e.progress.Unsuccessful? then BlockRestore(s, id)
      else if e.progress.Provisioning? then Release(s)
      else Enter(SaveRestore(s, id, Prepare(0)), RestoreJob(id, Prepare(0), ready), Choose)
    else if !ready then Release(s)
    else if w.Submitted? then
      if !e.StartInspect? then s
      else if w.attempts >= ATTEMPTS then BlockRestore(s, id)
      else
        var next := Submitted(w.attempts + 1);
        Enter(SaveRestore(s, id, next), RestoreJob(id, next, ready), Due(InspectRestore(id)))
    else if w.Prepare? && (e.KeyUnavailable? || e.StartDownload?) then
      if w.attempts >= ATTEMPTS || !e.authorized then BlockRestore(s, id)
      else if r.backup !in s.backups || !s.backups[r.backup].work.Stored? then Release(s)
      else if e.KeyUnavailable? then
        Release(s.(restores := s.restores[id := r.(state := RestorePending(true))]))
      else
        var next := Prepare(w.attempts + 1);
        Enter(s.(restores := s.restores[id := r.(state := RestorePending(false), work := next)]),
              RestoreJob(id, next, ready), Due(Download(id, r.backup)))
    else s
  }

  function RestoreAnswer(s: State, id: Id, w: RestoreWork, ready: bool, called: Effect, e: Event): State
    requires id in s.restores
  {
    if e.BeforeSubmit? && called.Download? && w.Prepare? then
      if !e.authorized then BlockRestore(s, id)
      else Enter(SaveRestore(s, id, Submitted(0)), RestoreJob(id, Submitted(0), ready), Due(GuestSubmit(id)))
    else if e.RestoreReply? && (called.GuestSubmit? || called.InspectRestore?) && w.Submitted? then
      if e.reply.GuestRestored? then Finish(s, id)
      else if e.reply.GuestFailed? then BlockRestore(s, id)
      else Release(s)
    else s
  }

  /** Every check advance makes before it records the submission. */
  predicate OwnsStoredBackup(purges: map<Id, Purge>, backups: map<Id, Backup>, id: Id) {
    && id in purges
    && var p := purges[id];
    && p.backup in backups
    && var b := backups[p.backup];
    && b.facts.account == p.account && b.state == PurgePending(id) && b.work.Stored? && b.work.receipt.attempt == p.backup
  }

  function BeginDeletionStep(s: State, id: Id): State {
    if id !in s.purges || s.purges[id].due.None? || s.purges[id].due.value > s.clock || s.purges[id].state.PurgeDone?
       || !OwnsStoredBackup(s.purges, s.backups, id)
    then s
    else
      Enter(s.(purges := s.purges[id := s.purges[id].(state := PurgeSubmitted(s.clock))]),
            DeleteJob(id), Due(Delete(s.purges[id].backup)))
  }

  function DeleteAnswer(s: State, id: Id, outcome: DeleteOutcome): State
    requires id in s.purges
  {
    var p := s.purges[id];
    match outcome
    case DeleteFailed =>
      Release(s.(purges := s.purges[id := p.(state := PurgeBlocked(s.clock + 300_000), due := Some(s.clock + 300_000))]))
    case Retained(until, local) =>
      Release(s.(purges := s.purges[id := p.(state := PurgeWaiting(until), due := Some(Max(until, local + 1000)))]))
    case Absent =>
      Enter(s.(objects := s.objects - {p.backup}), DeleteJob(id), Choose)
  }

  function Complete(s: State, id: Id): State
    requires id in s.purges
  {
    var p := s.purges[id];
    if p.backup !in s.backups || s.backups[p.backup].state != PurgePending(id) then Release(s)
    else
      Release(s.(backups := s.backups[p.backup := s.backups[p.backup].(reserved := 0, state := Purged(id))],
                 purges := s.purges[id := p.(state := PurgeDone, due := None)]))
  }

  /** apply up to the read-only store lookup; a stored and captured backup is a replay and changes nothing. */
  function BeginRecoveryStep(s: State, id: Id, expected: Digest): State {
    if id !in s.backups || ReceiptDigest(id, s.backups[id]) != Some(expected) then s
    else
      var b := s.backups[id];
      if !b.work.UploadSubmitted? || !(b.state.Pending? || b.state.Blocked?) then s
      else Enter(s, RecoverJob(id, b.state, b.work), Choose)
  }

  function RecoveryAnswer(s: State, id: Id, seen: BackupState, w: Work, version: Id): State {
    if id !in s.backups || !w.UploadSubmitted? || s.backups[id].state != seen || s.backups[id].work != w then Release(s)
    else Release(SaveStored(s, id, Stored(w.envelope, Receipt(id, w.envelope.intent.size, version), false, 0)))
  }

  /** The call itself. A PUT may create the object version whatever its reply. */
  function CallStep(s: State): State {
    if s.worker.Idle? || !s.worker.at.Due? then s
    else
      var e := s.worker.at.effect;
      var t := s.(worker := s.worker.(at := Called(e)), log := s.log + [e]);
      if e.Put? && s.worker.job.CaptureJob? && HasEnvelope(s.worker.job.work)
      then t.(objects := t.objects[e.backup := s.worker.job.work.envelope.intent.size])
      else t
  }

  function WorkerStep(s: State, e: Event): State
    requires s.worker.Running?
  {
    var at := s.worker.at;
    match s.worker.job
    case CaptureJob(id, w) =>
      if id !in s.backups then s
      else if at.Choose? then CaptureChoice(s, id, w, e)
      else if at.Called? then CaptureAnswer(s, id, w, at.effect, e)
      else if e.SkipRemove? && at.effect == GuestRemove(id) && Gone(s.machines, s.backups[id].facts.machine)
      then Enter(s, s.worker.job, Called(at.effect))
      else s
    case RestoreJob(id, w, ready) =>
      if id !in s.restores then s
      else if at.Choose? then RestoreChoice(s, id, w, ready, e)
      else if at.Called? then RestoreAnswer(s, id, w, ready, at.effect, e)
      else s
    case DeleteJob(id) =>
      if id !in s.purges then s
      else if at.Called? && e.DeleteReply? then DeleteAnswer(s, id, e.outcome)
      else if at.Choose? && e.CompletePurge? then Complete(s, id)
      else s
    case RecoverJob(id, seen, w) =>
      if e.RecoveryFound? then RecoveryAnswer(s, id, seen, w, e.version) else s
  }

  function BeginStep(s: State, e: Event): State {
    match e
    case BeginCapture(id) => BeginCaptureStep(s, id)
    case BeginRestore(id) => BeginRestoreStep(s, id)
    case BeginDeletion(id) => BeginDeletionStep(s, id)
    case BeginRecovery(id, expected) => BeginRecoveryStep(s, id, expected)
    case _ => s
  }

  /** Machines come and go outside this component; a destroyed one stays destroyed. */
  function MachineStep(s: State, e: Event): State {
    match e
    case MachineAdded(m, account) =>
      if m in s.machines then s else s.(machines := s.machines[m := Machine(account, false, false)])
    case MachineReady(m) =>
      if m !in s.machines then s else s.(machines := s.machines[m := s.machines[m].(ready := true)])
    case MachineDestroyed(m) =>
      if m !in s.machines then s else s.(machines := s.machines[m := s.machines[m].(destroyed := true)])
    case _ => s
  }

  ghost function AdmissionStep(s: State, e: Event): State {
    match e
    case AdmitBackup(id, account, machine, allocation, recipe, scheduled, createdAt) =>
      AdmitBackupStep(s, id, account, machine, allocation, recipe, scheduled, createdAt)
    case AdmitRestore(id, backup, account, machine, digest) => AdmitRestoreStep(s, id, backup, account, machine, digest)
    case RequestPurge(id, backup, account) => RequestPurgeStep(s, id, backup, account)
    case ExpireBackup(id, backup) => ExpireBackupStep(s, id, backup)
    case _ => s
  }

  predicate IsMachineEvent(e: Event) {
    e.MachineAdded? || e.MachineReady? || e.MachineDestroyed?
  }

  predicate IsAdmission(e: Event) {
    e.AdmitBackup? || e.AdmitRestore? || e.RequestPurge? || e.ExpireBackup?
  }

  predicate IsBegin(e: Event) {
    e.BeginCapture? || e.BeginRestore? || e.BeginDeletion? || e.BeginRecovery?
  }

  /** Events of other processes: none of them needs the worker lock. */
  predicate IsOther(e: Event) {
    e.Tick? || IsMachineEvent(e) || IsAdmission(e)
  }

  ghost function Apply(s: State, e: Event): State {
    if e.Tick? then s.(clock := s.clock + e.elapsed)
    else if IsMachineEvent(e) then MachineStep(s, e)
    else if IsAdmission(e) then AdmissionStep(s, e)
    else if IsBegin(e) then if s.worker.Idle? then BeginStep(s, e) else s
    else if e.Abandon? then Release(s)
    else if e.Call? then CallStep(s)
    else if s.worker.Running? then WorkerStep(s, e)
    else s
  }

  ghost function Run(s: State, events: seq<Event>): State
    decreases |events|
  {
    if events == [] then s else Apply(Run(s, events[..|events| - 1]), events[|events| - 1])
  }

  predicate Named(events: seq<Event>) {
    true
  }

  /** The history leads to this state. The quantifier keeps proofs from replaying histories they do not name. */
  ghost predicate Leads(s: State, events: seq<Event>, t: State) {
    forall h {:trigger Named(h)} :: Named(h) && h == events ==> t == Run(s, h)
  }

  lemma LedTo(s: State, events: seq<Event>, t: State)
    requires Leads(s, events, t)
    ensures t == Run(s, events)
  {
    assert Named(events);
  }

  ghost predicate Initial(s: State) {
    && s.backups == map[] && s.restores == map[] && s.purges == map[] && s.machines == map[] && s.objects == map[]
    && s.worker == Idle && s.log == []
  }
}
