/** What holds of protected backups in every reachable state and across every run. */
module BackupTheorems {
  import opened Prelude
  import opened BackupRecords
  import opened BackupMachine
  import opened BackupInvariants
  import opened BackupProofs

  lemma WorkerKeeps(s: State, e: Event)
    requires Inv(s) && s.worker.Running?
    ensures Inv(WorkerStep(s, e))
  {
    match s.worker.job
    case CaptureJob(_, _) => CaptureRunKeeps(s, e);
    case RestoreJob(_, _, _) =>
      if s.worker.at.Choose? { RestoreChoiceKeeps(s, e); }
      else if s.worker.at.Called? { RestoreAnswerKeeps(s, e); }
    case DeleteJob(_) =>
      if s.worker.at.Called? && e.DeleteReply? { DeleteAnswerKeeps(s, e.outcome); }
      else if s.worker.at.Choose? && e.CompletePurge? { CompleteKeeps(s); }
    case RecoverJob(_, _, _) =>
      if e.RecoveryFound? { RecoveryAnswerKeeps(s, e.version); }
  }

  lemma CaptureRunKeeps(s: State, e: Event)
    requires Inv(s) && s.worker.Running? && s.worker.job.CaptureJob?
    ensures Inv(WorkerStep(s, e))
  {
    if s.worker.at.Choose? { CaptureChoiceKeeps(s, e); }
    else if s.worker.at.Called? { CaptureAnswerKeeps(s, e); }
    else if WorkerStep(s, e) != s { SkipKeeps(s, s.worker.job.backup); }
  }

  lemma SkipKeeps(s: State, id: Id)
    requires Inv(s) && s.worker.Running? && s.worker.job.CaptureJob? && s.worker.at == Due(GuestRemove(id))
    requires s.worker.job.backup == id
    ensures Inv(Enter(s, s.worker.job, Called(GuestRemove(id))))
  {
    NothingDue(s);
  }

  lemma AdmissionKeeps(s: State, e: Event)
    requires Inv(s) && IsAdmission(e)
    ensures Inv(AdmissionStep(s, e))
  {
    match e
    case AdmitBackup(id, account, machine, allocation, recipe, scheduled, createdAt) =>
      AdmitBackupKeeps(s, id, account, machine, allocation, recipe, scheduled, createdAt);
    case AdmitRestore(id, backup, account, machine, digest) => AdmitRestoreKeeps(s, id, backup, account, machine, digest);
    case RequestPurge(id, backup, account) =>
      if RequestPurgeStep(s, id, backup, account) != s { AdmitPurgeKeeps(s, id, backup, false); }
    case ExpireBackup(id, backup) =>
      if ExpireBackupStep(s, id, backup) != s { AdmitPurgeKeeps(s, id, backup, true); }
  }

  /** Every event, admission, effect, reply or crash, keeps every invariant. */
  lemma StepKeepsInv(s: State, e: Event)
    requires Inv(s)
    ensures Inv(Apply(s, e))
  {
    if e.Tick? { TickKeeps(s, e.elapsed); }
    else if IsMachineEvent(e) { MachineKeeps(s, e); }
    else if IsAdmission(e) { AdmissionKeeps(s, e); }
    else if IsBegin(e) { if s.worker.Idle? { BeginKeeps(s, e); } }
    else if e.Abandon? { ReleaseKeeps(s); }
    else if e.Call? { CallKeeps(s); }
    else if s.worker.Running? { WorkerKeeps(s, e); }
  }

  lemma InitialInv(s: State)
    requires Initial(s)
    ensures Inv(s)
  {
  }

  lemma {:induction false} RunKeepsInv(s: State, events: seq<Event>)
    requires Inv(s)
    ensures Inv(Run(s, events))
    decreases |events|
  {
    if events != [] {
      RunKeepsInv(s, events[..|events| - 1]);
      StepKeepsInv(Run(s, events[..|events| - 1]), events[|events| - 1]);
    }
  }

  ghost predicate Reachable(s: State) {
    exists s0, events :: Initial(s0) && Leads(s0, events, s)
  }

  lemma ReachableInv(s: State)
    requires Reachable(s)
    ensures Inv(s)
  {
    var s0, events :| Initial(s0) && Leads(s0, events, s);
    LedTo(s0, events, s);
    InitialInv(s0);
    RunKeepsInv(s0, events);
  }

  // ---- every reachable state

  /** A backup under purge has no restore that can still need its object, and nothing reads after a delete. */
  lemma PurgedObjectsAreUnneeded(s: State)
    requires Reachable(s)
    ensures forall b, r :: b in s.backups && (s.backups[b].state.PurgePending? || s.backups[b].state.Purged?)
                           && r in s.restores && s.restores[r].backup == b
                           ==> s.restores[r].work.Done?
                               || (s.restores[r].machine in s.machines && s.machines[s.restores[r].machine].destroyed)
    ensures forall i, j :: 0 <= i < j < |s.log| && s.log[i].Delete? && s.log[j].Download?
                           ==> s.log[i].backup != s.log[j].backup
  {
    ReachableInv(s);
    forall b, r | b in s.backups && (s.backups[b].state.PurgePending? || s.backups[b].state.Purged?)
                  && r in s.restores && s.restores[r].backup == b
      ensures s.restores[r].work.Done? || Gone(s.machines, s.restores[r].machine)
    {
      RowOf(s, b);
      assert Released(s.restores[r], s.machines);
    }
  }

  /** One PUT per backup, whatever crashes; and it was preceded by its durable submission. */
  lemma OnePut(s: State, b: Id)
    requires Reachable(s)
    ensures Count(s.log, Put(b)) <= 1
    ensures Put(b) in s.log ==> b in s.backups && (s.backups[b].work.UploadSubmitted? || s.backups[b].work.Stored?)
  {
    ReachableInv(s);
    CountFinds(s.log, Put(b));
    if Put(b) in s.log { assert Known(Put(b), s.backups, s.restores); RowOf(s, b); }
  }

  lemma OneRestoreSubmission(s: State, r: Id)
    requires Reachable(s)
    ensures Count(s.log, GuestSubmit(r)) <= 1
    ensures GuestSubmit(r) in s.log ==> r in s.restores && (s.restores[r].work.Submitted? || s.restores[r].work.Done?)
  {
    ReachableInv(s);
    CountFinds(s.log, GuestSubmit(r));
    if GuestSubmit(r) in s.log { assert Known(GuestSubmit(r), s.backups, s.restores); RestoreOf(s, r); }
  }

  /** Each admission pays for a fixed number of guest and store calls, and attempts never pass five. */
  lemma CallsAreBounded(s: State)
    requires Reachable(s)
    ensures forall b :: b in s.backups ==> Calls(s.log, b) <= 21 && AttemptsOf(s.backups[b].work) <= 5
    ensures forall r :: r in s.restores ==>
              RestoreCalls(s.log, r, s.restores[r].backup) <= 11 && RestoreAttempts(s.restores[r].work) <= 5
  {
    ReachableInv(s);
    forall b | b in s.backups ensures Calls(s.log, b) <= 21 && AttemptsOf(s.backups[b].work) <= 5 { RowOf(s, b); }
    forall r | r in s.restores
      ensures RestoreCalls(s.log, r, s.restores[r].backup) <= 11 && RestoreAttempts(s.restores[r].work) <= 5
    {
      RestoreOf(s, r);
    }
  }

  /** Reservations stay within both allowances, and every object that may exist is covered by its row's. */
  lemma ReservationsCoverTheStore(s: State)
    requires Reachable(s)
    ensures Reserved(s.backups, None) <= s.config.maxGlobalBytes
    ensures forall a: Id :: Reserved(s.backups, Some(a)) <= s.config.maxAccountBytes
    ensures forall o :: o in s.objects ==> o in s.backups && s.objects[o] <= s.backups[o].reserved
  {
    ReachableInv(s);
    forall o | o in s.objects ensures o in s.backups && s.objects[o] <= s.backups[o].reserved {
      assert ObjectOk(o, s.objects[o], s.backups);
      RowOf(s, o);
    }
  }

  /** captured, purge_pending and purged mean exactly that the work column is stored; the reservation follows. */
  lemma SettledIffStored(s: State, id: Id)
    requires Reachable(s) && id in s.backups
    ensures var b := s.backups[id];
            && (Settled(b.state) <==> b.work.Stored?)
            && (b.state.Purged? ==> b.reserved == 0)
            && (b.work.Stored? && !b.state.Purged? ==> b.reserved == b.work.receipt.size <= b.facts.maxBytes)
            && (!b.work.Stored? ==> b.reserved == b.facts.maxBytes)
  {
    ReachableInv(s);
    RowOf(s, id);
  }

  /** An object is deleted only after its retention period, by the run that persisted the submission. */
  lemma DeletionWaitsForRetention(s: State, b: Id)
    requires Reachable(s) && s.worker.Running? && s.worker.at == Due(Delete(b))
    ensures b in s.backups && s.backups[b].facts.retainUntil <= s.clock && s.backups[b].state.PurgePending?
    ensures s.backups[b].state.purge in s.purges && s.purges[s.backups[b].state.purge].backup == b
  {
    ReachableInv(s);
    if b in s.backups { RowOf(s, b); }
  }

  /**
   The integrity errors that the source throws cannot happen: a captured backup's receipt matches its row,
   a due purge owns its stored backup, and a restore whose target still stands finds its source captured.
   */
  lemma IntegrityErrorsAreUnreachable(s: State)
    requires Reachable(s)
    ensures forall b :: b in s.backups && s.backups[b].state.Available? ==>
              var w := s.backups[b].work;
              w.Stored? && w.receipt.attempt == b && w.envelope.capture.id == b && w.receipt.size == s.backups[b].reserved
    ensures forall p :: p in s.purges && !s.purges[p].state.PurgeDone? ==> OwnsStoredBackup(s.purges, s.backups, p)
    ensures forall r :: r in s.restores && !Released(s.restores[r], s.machines) ==>
              s.restores[r].backup in s.backups && s.backups[s.restores[r].backup].state.Available?
  {
    ReachableInv(s);
    forall b | b in s.backups && s.backups[b].state.Available?
      ensures var w := s.backups[b].work;
              w.Stored? && w.receipt.attempt == b && w.envelope.capture.id == b && w.receipt.size == s.backups[b].reserved
    {
      RowOf(s, b);
    }
    forall p | p in s.purges && !s.purges[p].state.PurgeDone? ensures OwnsStoredBackup(s.purges, s.backups, p) {
      PurgeOf(s, p);
      RowOf(s, s.purges[p].backup);
    }
    forall r | r in s.restores && !Released(s.restores[r], s.machines)
      ensures s.restores[r].backup in s.backups && s.backups[s.restores[r].backup].state.Available?
    {
      RestoreOf(s, r);
      RowOf(s, s.restores[r].backup);
    }
  }

  // ---- every run

  /** How a backup row may change over any run. */
  predicate RowAdvances(a: Backup, b: Backup) {
    && b.facts == a.facts
    && b.reserved <= a.reserved
    && WorkAdvances(a.work, b.work)
    && (Uploaded(a.work) ==> Uploaded(b.work))
    && (a.state.PurgePending? ==> Purging(b.state) && b.state.purge == a.state.purge)
    && (a.state.Purged? ==> b.state == a.state)
  }

  predicate RestoreAdvances(a: Restore, b: Restore) {
    && b.backup == a.backup && b.machine == a.machine && b.account == a.account
    && (b.work == a.work || RestoreMeasure(b.work) < RestoreMeasure(a.work))
    && (a.work.Submitted? ==> b.work.Submitted? || b.work.Done?)
    && (a.state.Restored? ==> b == a)
    && (a.state.RestoreBlocked? ==> b == a)
  }

  predicate RowMoves(from: map<Id, Backup>, to: map<Id, Backup>, id: Id) {
    id in from ==> id in to && RowAdvances(from[id], to[id])
  }

  predicate RestoreMovesOn(from: map<Id, Restore>, to: map<Id, Restore>, r: Id) {
    r in from ==> r in to && RestoreAdvances(from[r], to[r])
  }

  ghost predicate Advances(s: State, t: State) {
    && (forall id :: RowMoves(s.backups, t.backups, id))
    && (forall r :: RestoreMovesOn(s.restores, t.restores, r))
    && (forall m :: Gone(s.machines, m) ==> Gone(t.machines, m))
    && t.config == s.config && t.clock >= s.clock && |t.log| >= |s.log| && t.log[..|s.log|] == s.log
  }

  /** One step rewrites at most one backup row and one restore row. */
  predicate Narrow(s: State, t: State, b: Id, r: Id) {
    && b in s.backups && b in t.backups && t.backups == s.backups[b := t.backups[b]]
    && (r in s.restores ==> r in t.restores && t.restores == s.restores[r := t.restores[r]])
    && (r !in s.restores ==> t.restores == s.restores)
    && t.machines == s.machines && t.config == s.config && t.clock == s.clock && t.log == s.log
  }

  lemma NarrowAdvances(s: State, t: State, b: Id, r: Id)
    requires Narrow(s, t, b, r) && RowAdvances(s.backups[b], t.backups[b])
    requires r in s.restores ==> RestoreAdvances(s.restores[r], t.restores[r])
    ensures Advances(s, t)
  {
  }

  lemma SameAdvances(s: State)
    ensures Advances(s, s)
  {
  }

  lemma CaptureAdvances(s: State, e: Event)
    requires Inv(s) && s.worker.Running? && s.worker.job.CaptureJob?
    ensures Advances(s, WorkerStep(s, e))
  {
    var id := s.worker.job.backup;
    RowOf(s, id);
    CaptureRowMoves(s, id, s.worker.job.work, e, Calls(s.log, id), Count(s.log, Put(id)), Count(s.log, Delete(id)));
    NarrowAdvances(s, WorkerStep(s, e), id, 0);
  }

  lemma CaptureRowMoves(s: State, id: Id, w: Work, e: Event, calls: nat, puts: nat, deletes: nat)
    requires id in s.backups && RowOk(id, s.backups[id]) && WorkerOk(s)
    requires s.worker.Running? && s.worker.job == CaptureJob(id, w)
    requires Paid(calls, puts, deletes, DueCall(s.worker), id, s.backups[id])
    ensures var t := WorkerStep(s, e);
            id in t.backups && t == s.(backups := s.backups[id := t.backups[id]], worker := t.worker)
            && RowAdvances(s.backups[id], t.backups[id])
  {
    if s.worker.at.Choose? {
      CaptureChoiceRow(s, id, w, e, calls, puts, deletes);
      ChoiceMeasure(s, id, w, e);
      ForwardAdvances(s.backups[id], CaptureChoice(s, id, w, e).backups[id]);
    } else if s.worker.at.Called? {
      CaptureAnswerRow(s, id, w, s.worker.at.effect, e, calls, puts, deletes);
      AnswerMeasure(s, id, w, s.worker.at.effect, e);
      ForwardAdvances(s.backups[id], CaptureAnswer(s, id, w, s.worker.at.effect, e).backups[id]);
    }
  }

  lemma ForwardAdvances(a: Backup, b: Backup)
    requires Forward(a, b) && WorkAdvances(a.work, b.work)
    ensures RowAdvances(a, b)
  {
  }

  predicate WorkAdvances(a: Work, b: Work) {
    && (b == a || Measure(b) < Measure(a))
    && (HasEnvelope(a) ==> HasEnvelope(b) && b.envelope == a.envelope)
    && (a.Stored? ==> b.Stored? && b.receipt == a.receipt)
  }

  lemma SaveIsSeen(s: State, id: Id, next: Work, effect: Effect)
    requires id in s.backups
    ensures var t := SaveAndCall(s, id, next, effect); id in t.backups && t.backups[id].work == next
    ensures var t := SaveAndGoOn(s, id, next); id in t.backups && t.backups[id].work == next
    ensures var t := BlockBackup(s, id); id in t.backups && t.backups[id].work == s.backups[id].work
  {
  }

  lemma ChoiceMeasure(s: State, id: Id, w: Work, e: Event)
    requires id in s.backups && s.backups[id].work == w
    ensures id in CaptureChoice(s, id, w, e).backups
    ensures WorkAdvances(w, CaptureChoice(s, id, w, e).backups[id].work)
  {
    match w
    case Capture(n) => SaveIsSeen(s, id, Capture(n + 1), GuestCapture(id));
    case Encrypt(c, n) => SaveIsSeen(s, id, Encrypt(c, n + 1), GuestRead(id));
    case UploadReady(v) => SaveIsSeen(s, id, UploadSubmitted(v, 0), Put(id));
    case UploadSubmitted(v, n) => SaveIsSeen(s, id, UploadSubmitted(v, n + 1), Recover(id));
    case Stored(v, r, _, n) => SaveIsSeen(s, id, Stored(v, r, false, n + 1), GuestRemove(id));
  }

  lemma AnswerMeasure(s: State, id: Id, w: Work, called: Effect, e: Event)
    requires id in s.backups && s.backups[id].work == w && AttemptsOf(w) <= ATTEMPTS
    ensures id in CaptureAnswer(s, id, w, called, e).backups
    ensures WorkAdvances(w, CaptureAnswer(s, id, w, called, e).backups[id].work)
  {
    if e.CaptureReply? { SaveIsSeen(s, id, Encrypt(e.captured, 0), called); }
  }

  lemma FinishAdvances(s: State, id: Id)
    requires id in s.restores && s.restores[id].work.Submitted? && s.restores[id].state.RestorePending?
    requires s.restores[id].backup in s.backups
    ensures Advances(s, Finish(s, id))
  {
    NarrowAdvances(s, Finish(s, id), s.restores[id].backup, id);
  }

  predicate RestoreMoves(s: State, t: State, id: Id)
    requires id in s.restores
  {
    && id in t.restores && RestoreAdvances(s.restores[id], t.restores[id])
    && t == s.(restores := s.restores[id := t.restores[id]], worker := t.worker)
  }

  lemma RestoreChoiceMoves(s: State, id: Id, w: RestoreWork, ready: bool, e: Event)
    requires id in s.restores && s.restores[id].work == w && s.restores[id].state.RestorePending?
    ensures RestoreMoves(s, RestoreChoice(s, id, w, ready, e), id)
  {
    if w.Prepare? { PrepareMoves(s, id, w, ready, e); }
  }

  lemma PrepareMoves(s: State, id: Id, w: RestoreWork, ready: bool, e: Event)
    requires id in s.restores && s.restores[id].work == w && s.restores[id].state.RestorePending? && w.Prepare?
    ensures RestoreMoves(s, RestoreChoice(s, id, w, ready, e), id)
  {
  }

  lemma RestoreAnswerMoves(s: State, id: Id, w: RestoreWork, ready: bool, called: Effect, e: Event)
    requires id in s.restores && s.restores[id].work == w && s.restores[id].state.RestorePending?
    requires !(w.Submitted? && e.RestoreReply? && e.reply.GuestRestored?)
    ensures RestoreMoves(s, RestoreAnswer(s, id, w, ready, called, e), id)
  {
  }

  lemma RestoreRunAdvances(s: State, e: Event)
    requires Inv(s) && s.worker.Running? && s.worker.job.RestoreJob?
    ensures Advances(s, WorkerStep(s, e))
  {
    var id := s.worker.job.restore;
    RestoreOf(s, id);
    var w, ready := s.worker.job.restoring, s.worker.job.ready;
    if s.worker.at.Choose? {
      RestoreChoiceMoves(s, id, w, ready, e);
    } else if s.worker.at.Called? {
      if w.Submitted? && e.RestoreReply? && e.reply.GuestRestored? {
        FinishAdvances(s, id);
        return;
      }
      RestoreAnswerMoves(s, id, w, ready, s.worker.at.effect, e);
    }
    NarrowAdvances(s, WorkerStep(s, e), s.restores[id].backup, id);
  }

  lemma DeletionAdvances(s: State, e: Event)
    requires Inv(s) && s.worker.Running? && s.worker.job.DeleteJob?
    ensures Advances(s, WorkerStep(s, e))
  {
    var p := s.worker.job.purge;
    var b := s.purges[p].backup;
    RowOf(s, b);
    if s.worker.at.Choose? && e.CompletePurge? {
      CompleteAdvances(s, p);
    } else if s.worker.at.Called? && e.DeleteReply? {
      AnsweredAdvances(s, p, e.outcome);
    } else {
      SameAdvances(s);
    }
  }

  lemma AnsweredAdvances(s: State, p: Id, outcome: DeleteOutcome)
    requires p in s.purges && s.purges[p].backup in s.backups
    ensures Advances(s, DeleteAnswer(s, p, outcome))
  {
    NarrowAdvances(s, DeleteAnswer(s, p, outcome), s.purges[p].backup, 0);
  }

  lemma CompleteAdvances(s: State, p: Id)
    requires p in s.purges && s.purges[p].backup in s.backups && RowOk(s.purges[p].backup, s.backups[s.purges[p].backup])
    ensures Advances(s, Complete(s, p))
  {
    NarrowAdvances(s, Complete(s, p), s.purges[p].backup, 0);
  }

  lemma RecoveryAdvances(s: State, e: Event)
    requires Inv(s) && s.worker.Running? && s.worker.job.RecoverJob?
    ensures Advances(s, WorkerStep(s, e))
  {
    var id := s.worker.job.backup;
    RowOf(s, id);
    if e.RecoveryFound? { RecoveredAdvances(s, id, s.worker.job.seen, s.worker.job.work, e.version); } else { SameAdvances(s); }
  }

  lemma RecoveredAdvances(s: State, id: Id, seen: BackupState, w: Work, version: Id)
    requires id in s.backups && RowOk(id, s.backups[id])
    ensures Advances(s, RecoveryAnswer(s, id, seen, w, version))
  {
    NarrowAdvances(s, RecoveryAnswer(s, id, seen, w, version), id, 0);
  }

  lemma AdmissionAdvances(s: State, e: Event)
    requires Inv(s) && IsAdmission(e)
    ensures Advances(s, AdmissionStep(s, e))
  {
    match e
    case AdmitBackup(id, account, machine, allocation, recipe, scheduled, createdAt) =>
      InsertAdvances(s, AdmitBackupStep(s, id, account, machine, allocation, recipe, scheduled, createdAt));
    case AdmitRestore(id, backup, account, machine, digest) =>
      RestoreInsertAdvances(s, id, backup, account, machine, digest);
    case RequestPurge(id, backup, _) =>
      if backup in s.backups { RowOf(s, backup); PurgeAdvances(s, id, backup, false); }
    case ExpireBackup(id, backup) =>
      if backup in s.backups { RowOf(s, backup); PurgeAdvances(s, id, backup, true); }
  }

  lemma RestoreInsertAdvances(s: State, id: Id, backup: Id, account: Id, machine: Id, digest: Id)
    ensures Advances(s, AdmitRestoreStep(s, id, backup, account, machine, digest))
  {
    InsertAdvances(s, AdmitRestoreStep(s, id, backup, account, machine, digest));
  }

  lemma InsertAdvances(s: State, t: State)
    requires forall i :: i in s.backups ==> i in t.backups && t.backups[i] == s.backups[i]
    requires forall r :: r in s.restores ==> r in t.restores && t.restores[r] == s.restores[r]
    requires forall m :: m in s.machines ==> m in t.machines && t.machines[m] == s.machines[m]
    requires t.config == s.config && t.clock == s.clock && t.log == s.log
    ensures Advances(s, t)
  {
  }

  lemma PurgeAdvances(s: State, id: Id, backup: Id, retention: bool)
    requires backup in s.backups
    ensures Advances(s, s)
    ensures s.backups[backup].state.Available? ==> Advances(s, AdmitPurge(s, id, backup, retention))
  {
    SameAdvances(s);
    if s.backups[backup].state.Available? { NarrowAdvances(s, AdmitPurge(s, id, backup, retention), backup, 0); }
  }

  lemma BeginAdvances(s: State, e: Event)
    requires Inv(s) && IsBegin(e) && s.worker.Idle?
    ensures Advances(s, BeginStep(s, e))
  {
    if e.BeginRestore? {
      if e.restore in s.restores {
        RestoreOf(s, e.restore);
        NarrowAdvances(s, BeginRestoreStep(s, e.restore), s.restores[e.restore].backup, e.restore);
      } else {
        SameAdvances(s);
      }
    } else {
      BeginOnlyLocks(s, e);
    }
  }

  lemma BeginOnlyLocks(s: State, e: Event)
    requires IsBegin(e) && !e.BeginRestore?
    ensures Advances(s, BeginStep(s, e))
  {
    var t := BeginStep(s, e);
    assert t.backups == s.backups && t.restores == s.restores && t.machines == s.machines && t.log == s.log;
  }

  lemma QuietAdvances(s: State, e: Event)
    requires e.Call? || e.Abandon? || e.Tick? || IsMachineEvent(e)
    ensures Advances(s, Apply(s, e))
  {
    if e.Call? { CallAdvances(s); }
    else if IsMachineEvent(e) { MachineAdvances(s, e); }
  }

  lemma CallAdvances(s: State)
    ensures Advances(s, CallStep(s))
  {
    SameAdvances(s);
    LogAdvances(s, CallStep(s));
  }

  lemma LogAdvances(s: State, t: State)
    requires Advances(s, s) && t == s.(worker := t.worker, log := t.log, objects := t.objects) && s.log <= t.log
    ensures Advances(s, t)
  {
    forall id ensures RowMoves(s.backups, t.backups, id) { assert RowMoves(s.backups, s.backups, id); }
    forall r ensures RestoreMovesOn(s.restores, t.restores, r) { assert RestoreMovesOn(s.restores, s.restores, r); }
  }

  lemma MachineAdvances(s: State, e: Event)
    requires IsMachineEvent(e)
    ensures Advances(s, MachineStep(s, e))
  {
    var t := MachineStep(s, e);
    InsertAdvances(s, s);
    MachinesAdvance(s, t);
  }

  lemma MachinesAdvance(s: State, t: State)
    requires Advances(s, s) && t == s.(machines := t.machines)
    requires forall m :: m in s.machines ==> m in t.machines && (s.machines[m].destroyed ==> t.machines[m].destroyed)
    ensures Advances(s, t)
  {
    forall id ensures RowMoves(s.backups, t.backups, id) { assert RowMoves(s.backups, s.backups, id); }
    forall r ensures RestoreMovesOn(s.restores, t.restores, r) { assert RestoreMovesOn(s.restores, s.restores, r); }
  }

  /**
   Every event moves rows forward: a rewritten work column strictly decreases its measure, a sealed envelope
   and a receipt never change, a purge is never withdrawn, and a submitted restore never prepares again.
   */
  lemma StepAdvances(s: State, e: Event)
    requires Inv(s)
    ensures Advances(s, Apply(s, e))
  {
    if e.Call? || e.Abandon? || e.Tick? || IsMachineEvent(e) {
      QuietAdvances(s, e);
    } else if IsAdmission(e) {
      AdmissionAdvances(s, e);
    } else if IsBegin(e) {
      if s.worker.Idle? { BeginAdvances(s, e); } else { SameAdvances(s); }
    } else if s.worker.Running? {
      match s.worker.job
      case CaptureJob(_, _) => CaptureAdvances(s, e);
      case RestoreJob(_, _, _) => RestoreRunAdvances(s, e);
      case DeleteJob(_) => DeletionAdvances(s, e);
      case RecoverJob(_, _, _) => RecoveryAdvances(s, e);
    } else {
      SameAdvances(s);
    }
  }

  lemma AdvancesTransitive(s: State, t: State, u: State)
    requires Advances(s, t) && Advances(t, u)
    ensures Advances(s, u)
  {
    forall id ensures RowMoves(s.backups, u.backups, id) {
      assert RowMoves(s.backups, t.backups, id) && RowMoves(t.backups, u.backups, id);
    }
    forall r ensures RestoreMovesOn(s.restores, u.restores, r) {
      assert RestoreMovesOn(s.restores, t.restores, r) && RestoreMovesOn(t.restores, u.restores, r);
    }
    assert u.log[..|s.log|] == u.log[..|t.log|][..|s.log|];
  }

  lemma {:induction false} RunAdvances(s: State, events: seq<Event>)
    requires Inv(s)
    ensures Advances(s, Run(s, events))
    decreases |events|
  {
    if events == [] {
      SameAdvances(s);
    } else {
      var before := events[..|events| - 1];
      RunAdvances(s, before);
      RunKeepsInv(s, before);
      StepAdvances(Run(s, before), events[|events| - 1]);
      AdvancesTransitive(s, Run(s, before), Run(s, events));
    }
  }

  /** How many events of a run rewrite one work column. */
  ghost function Writes(s: State, events: seq<Event>, id: Id): nat
    decreases |events|
  {
    if events == [] then 0
    else
      var t := Run(s, events[..|events| - 1]);
      var u := Run(s, events);
      Writes(s, events[..|events| - 1], id)
      + (if id in t.backups && id in u.backups && t.backups[id].work != u.backups[id].work then 1 else 0)
  }

  /** The measure pays for every write: a row in phase w is rewritten at most Measure(w) times, ever. */
  lemma {:induction false} WritesAreBounded(s: State, events: seq<Event>, id: Id)
    requires Inv(s) && id in s.backups
    ensures id in Run(s, events).backups
    ensures Writes(s, events, id) + Measure(Run(s, events).backups[id].work) <= Measure(s.backups[id].work)
    decreases |events|
  {
    if events != [] {
      var before := events[..|events| - 1];
      WritesAreBounded(s, before, id);
      RunKeepsInv(s, before);
      StepAdvances(Run(s, before), events[|events| - 1]);
      assert RowMoves(Run(s, before).backups, Run(s, events).backups, id);
    }
  }

  /** How many events of a run rewrite one restore's work column. */
  ghost function RestoreWrites(s: State, events: seq<Event>, r: Id): nat
    decreases |events|
  {
    if events == [] then 0
    else
      var t := Run(s, events[..|events| - 1]);
      var u := Run(s, events);
      RestoreWrites(s, events[..|events| - 1], r)
      + (if r in t.restores && r in u.restores && t.restores[r].work != u.restores[r].work then 1 else 0)
  }

  /** The same of restores: at most RestoreMeasure writes, so at most 18 from admission on. */
  lemma {:induction false} RestoreWritesAreBounded(s: State, events: seq<Event>, r: Id)
    requires Inv(s) && r in s.restores
    ensures r in Run(s, events).restores
    ensures RestoreWrites(s, events, r) + RestoreMeasure(Run(s, events).restores[r].work) <= RestoreMeasure(s.restores[r].work)
    decreases |events|
  {
    if events != [] {
      var before := events[..|events| - 1];
      RestoreWritesAreBounded(s, before, r);
      RunKeepsInv(s, before);
      StepAdvances(Run(s, before), events[|events| - 1]);
      assert RestoreMovesOn(Run(s, before).restores, Run(s, events).restores, r);
    }
  }

  /** A recovery request inspected once names the same sealed triple at every later time. */
  lemma InspectedDigestStaysValid(s: State, events: seq<Event>, id: Id)
    requires Reachable(s) && id in s.backups && ReceiptDigest(id, s.backups[id]).Some?
    ensures var t := Run(s, events);
            id in t.backups && ReceiptDigest(id, t.backups[id]) == ReceiptDigest(id, s.backups[id])
  {
    ReachableInv(s);
    RunAdvances(s, events);
    assert RowMoves(s.backups, Run(s, events).backups, id);
  }

  /** Applying the same recovery again, at any later time, changes nothing: the upload is already stored. */
  lemma RecoveryReplays(s: State, events: seq<Event>, id: Id, digest: Digest, version: Id)
    requires Reachable(s) && s.worker.Idle?
    requires BeginRecoveryStep(s, id, digest) != s
    ensures var done := Apply(Apply(s, BeginRecovery(id, digest)), RecoveryFound(version));
            && done.backups[id].state == Available(false)
            && done.backups[id].work == Stored(digest.envelope, Receipt(id, digest.envelope.intent.size, version), false, 0)
            && done.backups[id].reserved == digest.envelope.intent.size
            && (var later := Run(done, events); BeginRecoveryStep(later, id, digest) == later)
  {
    ReachableInv(s);
    RowOf(s, id);
    var begun := BeginRecoveryStep(s, id, digest);
    assert begun == Enter(s, RecoverJob(id, s.backups[id].state, s.backups[id].work), Choose);
    assert Apply(s, BeginRecovery(id, digest)) == begun;
    RecoveryStores(begun, id, version);
    StepKeepsInv(s, BeginRecovery(id, digest));
    StepKeepsInv(begun, RecoveryFound(version));
    var done := Apply(begun, RecoveryFound(version));
    RunAdvances(done, events);
    assert RowMoves(done.backups, Run(done, events).backups, id);
  }

  lemma RecoveryStores(s: State, id: Id, version: Id)
    requires id in s.backups && s.backups[id].work.UploadSubmitted?
    requires s.worker == Running(RecoverJob(id, s.backups[id].state, s.backups[id].work), Choose)
    ensures var b := s.backups[id];
            var next := Stored(b.work.envelope, Receipt(id, b.work.envelope.intent.size, version), false, 0);
            Apply(s, RecoveryFound(version)) == Release(SaveStored(s, id, next))
  {
  }

  /** A submitted restore is never prepared again, and a finished one never changes. */
  lemma SubmittedStaysSubmitted(s: State, events: seq<Event>, r: Id)
    requires Reachable(s) && r in s.restores && (s.restores[r].work.Submitted? || s.restores[r].work.Done?)
    ensures var t := Run(s, events);
            && r in t.restores
            && (t.restores[r].work.Submitted? || t.restores[r].work.Done?)
            && (s.restores[r].state.Restored? ==> t.restores[r] == s.restores[r])
  {
    ReachableInv(s);
    RestoreOf(s, r);
    RunAdvances(s, events);
    assert RestoreMovesOn(s.restores, Run(s, events).restores, r);
  }

  /** Once a purge is admitted no later event withdraws it or makes the backup restorable again. */
  lemma PurgeIsIrrevocable(s: State, events: seq<Event>, b: Id)
    requires Reachable(s) && b in s.backups && (s.backups[b].state.PurgePending? || s.backups[b].state.Purged?)
    ensures var t := Run(s, events);
            && b in t.backups && Purging(t.backups[b].state) && t.backups[b].state.purge == s.backups[b].state.purge
            && (forall r, account, machine, digest :: AdmitRestoreStep(t, r, b, account, machine, digest) == t)
  {
    ReachableInv(s);
    RunAdvances(s, events);
    assert RowMoves(s.backups, Run(s, events).backups, b);
  }
}
