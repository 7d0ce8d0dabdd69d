/**
 What the admissions of backups and of purges decide, and what a sealed backup holds, written out in the
 columns of the rows. Nothing here goes through the guards that the transactions themselves share.
 */
module BackupLaws {
  import opened Prelude
  import opened BackupRecords
  import opened BackupMachine
  import opened BackupInvariants
  import opened BackupProofs
  import opened BackupTheorems

  // ---- who may be purged

  lemma LaterDaysAreRows(backups: map<Id, Backup>, f: Admitted)
    ensures Later(Days(backups, f), Day(f))
         == set o | o in backups && backups[o].facts.machine == f.machine && backups[o].facts.account == f.account
                    && backups[o].facts.recipe.data == f.recipe.data && backups[o].facts.scheduled
                    && backups[o].state.Available? && backups[o].facts.createdAt / 86_400_000 > f.createdAt / 86_400_000
                    :: backups[o].facts.createdAt / 86_400_000
  {
    var rows := set o | o in backups && backups[o].facts.machine == f.machine && backups[o].facts.account == f.account
                    && backups[o].facts.recipe.data == f.recipe.data && backups[o].facts.scheduled
                    && backups[o].state.Available? && backups[o].facts.createdAt / 86_400_000 > f.createdAt / 86_400_000
                    :: backups[o].facts.createdAt / 86_400_000;
    forall d ensures d in Later(Days(backups, f), Day(f)) <==> d in rows {
      if d in Days(backups, f) {
        var o :| o in backups && Counts(backups[o], f) && Day(backups[o].facts) == d;
      }
    }
  }

  lemma RecentAreRows(backups: map<Id, Backup>, clock: nat, account: Id)
    ensures RecentAdmissions(backups, clock, account)
         == set o | o in backups && backups[o].facts.account == account && backups[o].facts.createdAt + 3_600_000 > clock
  {
  }

  lemma PurgeableIsRows(s: State, id: Id)
    ensures Purgeable(s, id) <==>
      && id in s.backups && s.backups[id].state.Available? && s.backups[id].work.Stored?
      && s.backups[id].work.receipt.attempt == id && s.backups[id].work.envelope.capture.id == id
      && s.backups[id].work.receipt.size == s.backups[id].reserved
      && (s.backups[id].work.cleaned
          || (s.backups[id].facts.machine in s.machines && s.machines[s.backups[id].facts.machine].destroyed))
      && (forall r :: r in s.restores && s.restores[r].backup == id ==>
            s.restores[r].work.Done? || (s.restores[r].machine in s.machines && s.machines[s.restores[r].machine].destroyed))
  {
  }

  /**
   Retention admits a purge exactly of a scheduled, captured, stored and released backup whose period has
   ended, which no restore needs, and after whose day seven later days of its series are captured. A backup
   made by hand never qualifies.
   */
  lemma ExpiryExactly(s: State, id: Id, backup: Id)
    requires Reachable(s) && id !in s.purges
    ensures var t := Apply(s, ExpireBackup(id, backup));
      (t != s) <==>
        && backup in s.backups
        && var b := s.backups[backup];
        && b.facts.scheduled && b.facts.retainUntil <= s.clock
        && b.state.Available? && b.work.Stored?
        && (b.work.cleaned || (b.facts.machine in s.machines && s.machines[b.facts.machine].destroyed))
        && (forall r :: r in s.restores && s.restores[r].backup == backup ==>
              s.restores[r].work.Done? || (s.restores[r].machine in s.machines && s.machines[s.restores[r].machine].destroyed))
        && |set o | o in s.backups && s.backups[o].facts.machine == b.facts.machine
                    && s.backups[o].facts.account == b.facts.account
                    && s.backups[o].facts.recipe.data == b.facts.recipe.data && s.backups[o].facts.scheduled
                    && s.backups[o].state.Available?
                    && s.backups[o].facts.createdAt / 86_400_000 > b.facts.createdAt / 86_400_000
                    :: s.backups[o].facts.createdAt / 86_400_000| >= 7
    ensures var t := Apply(s, ExpireBackup(id, backup));
      t != s ==>
        && t.backups == s.backups[backup := s.backups[backup].(state := PurgePending(id))]
        && t.purges == s.purges[id := Purge(backup, s.backups[backup].facts.account, true,
                                            PurgeWaiting(s.backups[backup].facts.retainUntil), Some(s.clock))]
  {
    ReachableInv(s);
    PurgeableIsRows(s, backup);
    if backup in s.backups {
      RowOf(s, backup);
      LaterDaysAreRows(s.backups, s.backups[backup].facts);
    }
    if ExpireBackupStep(s, id, backup) != s { assert id in ExpireBackupStep(s, id, backup).purges; }
    if RetentionEligible(s, backup) { assert ExpireBackupStep(s, id, backup) == AdmitPurge(s, id, backup, true); }
  }

  /** A customer may purge exactly their own captured, stored and released backup that no restore needs. */
  lemma RequestExactly(s: State, id: Id, backup: Id, account: Id)
    requires Reachable(s) && id !in s.purges
    ensures var t := Apply(s, RequestPurge(id, backup, account));
      (t != s) <==>
        && backup in s.backups && s.backups[backup].facts.account == account
        && var b := s.backups[backup];
        && b.state.Available? && b.work.Stored?
        && (b.work.cleaned || (b.facts.machine in s.machines && s.machines[b.facts.machine].destroyed))
        && (forall r :: r in s.restores && s.restores[r].backup == backup ==>
              s.restores[r].work.Done? || (s.restores[r].machine in s.machines && s.machines[s.restores[r].machine].destroyed))
    ensures var t := Apply(s, RequestPurge(id, backup, account));
      t != s ==>
        && t.backups == s.backups[backup := s.backups[backup].(state := PurgePending(id))]
        && t.purges == s.purges[id := Purge(backup, account, false, PurgeWaiting(s.backups[backup].facts.retainUntil),
             Some(if s.clock < s.backups[backup].facts.retainUntil then s.backups[backup].facts.retainUntil else s.clock))]
  {
    ReachableInv(s);
    PurgeableIsRows(s, backup);
    if backup in s.backups { RowOf(s, backup); }
    if Purgeable(s, backup) && s.backups[backup].facts.account == account {
      assert id in RequestPurgeStep(s, id, backup, account).purges;
    }
  }

  lemma CaptureChoiceEntersNoPurge(s: State, id: Id, w: Work, e: Event, b: Id)
    requires id in s.backups && b in s.backups
    ensures var t := CaptureChoice(s, id, w, e).backups;
            b in t && (t[b].state.PurgePending? ==> t[b].state == s.backups[b].state)
  {
    assert forall next, effect :: SaveAndCall(s, id, next, effect).backups == s.backups[id := s.backups[id].(work := next)];
  }

  lemma CaptureAnswerEntersNoPurge(s: State, id: Id, w: Work, called: Effect, e: Event, b: Id)
    requires id in s.backups && b in s.backups
    ensures var t := CaptureAnswer(s, id, w, called, e).backups;
            b in t && (t[b].state.PurgePending? ==> t[b].state == s.backups[b].state)
  {
  }

  lemma WorkerEntersNoPurge(s: State, e: Event, b: Id)
    requires s.worker.Running? && b in s.backups
    ensures var t := WorkerStep(s, e).backups;
            b in t && (t[b].state.PurgePending? ==> t[b].state == s.backups[b].state)
  {
    match s.worker.job
    case CaptureJob(id, w) =>
      if id in s.backups {
        if s.worker.at.Choose? { CaptureChoiceEntersNoPurge(s, id, w, e, b); }
        else if s.worker.at.Called? { CaptureAnswerEntersNoPurge(s, id, w, s.worker.at.effect, e, b); }
      }
    case RestoreJob(id, w, ready) =>
      if id in s.restores {
        if s.worker.at.Choose? { RestoreChoiceEntersNoPurge(s, id, w, ready, e); }
        else if s.worker.at.Called? { RestoreAnswerEntersNoPurge(s, id, w, ready, s.worker.at.effect, e, b); }
      }
    case DeleteJob(id) => if id in s.purges && e.DeleteReply? { assert DeleteAnswer(s, id, e.outcome).backups == s.backups; }
    case RecoverJob(_, _, _) =>
  }

  lemma RestoreChoiceEntersNoPurge(s: State, id: Id, w: RestoreWork, ready: bool, e: Event)
    requires id in s.restores
    ensures RestoreChoice(s, id, w, ready, e).backups == s.backups
  {
    if w.Prepare? && (e.KeyUnavailable? || e.StartDownload?) { PrepareEntersNoPurge(s, id, w, ready, e); }
  }

  lemma PrepareEntersNoPurge(s: State, id: Id, w: RestoreWork, ready: bool, e: Event)
    requires id in s.restores && w.Prepare? && (e.KeyUnavailable? || e.StartDownload?)
    ensures RestoreChoice(s, id, w, ready, e).backups == s.backups
  {
  }

  lemma RestoreAnswerEntersNoPurge(s: State, id: Id, w: RestoreWork, ready: bool, called: Effect, e: Event, b: Id)
    requires id in s.restores && b in s.backups
    ensures var t := RestoreAnswer(s, id, w, ready, called, e).backups;
            b in t && (t[b].state.PurgePending? ==> t[b].state == s.backups[b].state)
  {
  }

  /**
   Only two events take a backup into a purge. Its owner's request does, and then the purge says so; or retention
   does, and then the backup was scheduled, its period is over and seven later days of its series are captured.
   */
  lemma EntersPurgeOnlySo(s: State, e: Event, b: Id)
    requires Reachable(s) && b in s.backups && !s.backups[b].state.PurgePending?
    requires b in Apply(s, e).backups && Apply(s, e).backups[b].state.PurgePending?
    ensures var p := Apply(s, e).backups[b].state.purge;
      && p !in s.purges && p in Apply(s, e).purges && Apply(s, e).purges[p].backup == b
      && Apply(s, e).purges[p].account == s.backups[b].facts.account
      && if Apply(s, e).purges[p].retention
         then e == ExpireBackup(p, b)
              && s.backups[b].facts.scheduled && s.backups[b].facts.retainUntil <= s.clock
              && |set o | o in s.backups && s.backups[o].facts.machine == s.backups[b].facts.machine
                          && s.backups[o].facts.account == s.backups[b].facts.account
                          && s.backups[o].facts.recipe.data == s.backups[b].facts.recipe.data
                          && s.backups[o].facts.scheduled && s.backups[o].state.Available?
                          && s.backups[o].facts.createdAt / 86_400_000 > s.backups[b].facts.createdAt / 86_400_000
                          :: s.backups[o].facts.createdAt / 86_400_000| >= 7
         else e == RequestPurge(p, b, s.backups[b].facts.account)
    ensures s.backups[b].state.Available? && s.backups[b].work.Stored?
    ensures s.backups[b].work.cleaned
            || (s.backups[b].facts.machine in s.machines && s.machines[s.backups[b].facts.machine].destroyed)
    ensures forall r :: r in s.restores && s.restores[r].backup == b ==>
              s.restores[r].work.Done? || (s.restores[r].machine in s.machines && s.machines[s.restores[r].machine].destroyed)
  {
    if e.RequestPurge? {
      if e.id !in s.purges { RequestExactly(s, e.id, e.backup, e.account); }
    } else if e.ExpireBackup? {
      if e.id !in s.purges { ExpiryExactly(s, e.id, e.backup); }
    } else {
      OthersEnterNoPurge(s, e, b);
    }
  }

  lemma OthersEnterNoPurge(s: State, e: Event, b: Id)
    requires b in s.backups && !e.RequestPurge? && !e.ExpireBackup?
    ensures var t := Apply(s, e).backups;
            b in t && (t[b].state.PurgePending? ==> t[b].state == s.backups[b].state)
  {
    if IsBegin(e) { assert BeginStep(s, e).backups == s.backups; }
    else if s.worker.Running? && !IsOther(e) && !e.Abandon? && !e.Call? { WorkerEntersNoPurge(s, e, b); }
  }

  /** At every later time: a purge by retention is of a scheduled backup whose period is over, whoever owns it. */
  lemma PurgesAreLawful(s: State, p: Id)
    requires Reachable(s) && p in s.purges
    ensures s.purges[p].backup in s.backups && s.purges[p].account == s.backups[s.purges[p].backup].facts.account
    ensures s.purges[p].retention ==>
              && s.backups[s.purges[p].backup].facts.scheduled
              && s.backups[s.purges[p].backup].facts.retainUntil <= s.clock
    ensures s.backups[s.purges[p].backup].state == PurgePending(p) || s.backups[s.purges[p].backup].state == Purged(p)
  {
    ReachableInv(s);
    PurgeOf(s, p);
  }

  // ---- what is captured and sealed

  /**
   From the accepted capture on, the record names this backup, its recipe and no more bytes than admitted; a sealed
   envelope encrypts exactly those bytes, by length and digest, into the file that its upload intent names.
   */
  lemma SealedAgrees(s: State, id: Id)
    requires Reachable(s) && id in s.backups
    ensures var b := s.backups[id];
      && (b.work.Encrypt? ==>
            b.work.capture.id == id && b.work.capture.recipe == b.facts.recipe && b.work.capture.bytes <= b.facts.maxBytes)
      && (b.work.UploadReady? || b.work.UploadSubmitted? || b.work.Stored? ==>
            && b.work.envelope.capture.id == id
            && b.work.envelope.capture.recipe == b.facts.recipe
            && b.work.envelope.capture.bytes <= b.facts.maxBytes
            && b.work.envelope.encryption.plaintextSha256 == b.work.envelope.capture.sha256
            && b.work.envelope.encryption.plaintextBytes == b.work.envelope.capture.bytes
            && b.work.envelope.encryption.ciphertextBytes <= b.facts.maxBytes
            && b.work.envelope.intent.attempt == id
            && b.work.envelope.intent.size == b.work.envelope.encryption.ciphertextBytes)
      && (b.work.Stored? ==> b.work.receipt.attempt == id && b.work.receipt.size == b.work.envelope.intent.size)
  {
    ReachableInv(s);
    RowOf(s, id);
  }

  /** A backup's machine belongs to the backup's account, at every later time. */
  lemma BackupsOwnTheirMachines(s: State, id: Id)
    requires Reachable(s) && id in s.backups
    ensures s.backups[id].facts.machine in s.machines
    ensures s.machines[s.backups[id].facts.machine].account == s.backups[id].facts.account
  {
    ReachableInv(s);
    RowOf(s, id);
  }

  /**
   A capture is admitted exactly of the account's own ready machine, when a whole allowance still fits below both
   limits and the account has made fewer than ten requests in the hour; the row then starts with everything reserved.
   */
  lemma CaptureAdmittedExactly(s: State, id: Id, account: Id, machine: Id, allocation: Id, recipe: Recipe,
                               scheduled: bool, createdAt: nat)
    requires Reachable(s) && createdAt <= s.clock
    ensures var t := Apply(s, AdmitBackup(id, account, machine, allocation, recipe, scheduled, createdAt));
      (t != s) <==>
        && id !in s.backups && machine in s.machines
        && s.machines[machine].account == account && s.machines[machine].ready && !s.machines[machine].destroyed
        && Reserved(s.backups, Some(account)) + s.config.maxBytes <= s.config.maxAccountBytes
        && Reserved(s.backups, None) + s.config.maxBytes <= s.config.maxGlobalBytes
        && |set o | o in s.backups && s.backups[o].facts.account == account
                    && s.backups[o].facts.createdAt + 3_600_000 > s.clock| < 10
    ensures var t := Apply(s, AdmitBackup(id, account, machine, allocation, recipe, scheduled, createdAt));
      t != s ==>
        && id in t.backups && t.backups == s.backups[id := t.backups[id]]
        && t.backups[id].state == Pending && t.backups[id].work == Capture(0)
        && t.backups[id].reserved == t.backups[id].facts.maxBytes == s.config.maxBytes
        && t.backups[id].facts.account == account && t.backups[id].facts.machine == machine
        && t.backups[id].facts.allocation == allocation && t.backups[id].facts.recipe == recipe
        && t.backups[id].facts.scheduled == scheduled && t.backups[id].facts.createdAt == createdAt
        && s.clock + s.config.retentionDays * 86_400_000 <= t.backups[id].facts.retainUntil
        && t.backups[id].facts.retainUntil < s.clock + s.config.retentionDays * 86_400_000 + 1000
        && t.backups[id].facts.retainUntil % 1000 == 0
  {
    RecentAreRows(s.backups, s.clock, account);
    if MayCapture(s, id, account, machine) {
      assert id in AdmitBackupStep(s, id, account, machine, allocation, recipe, scheduled, createdAt).backups;
    }
  }

  /** The two sums of the allowances, one row at a time. */
  lemma ReservedCountsEachRow(s: State, id: Id, who: Option<Id>)
    requires id in s.backups
    ensures Reserved(s.backups, who) == Reserved(s.backups - {id}, who)
         + if who == None || who == Some(s.backups[id].facts.account) then s.backups[id].reserved else 0
    ensures Reserved(map[], who) == 0
  {
    ReservedPicks(s.backups, who, id);
  }
}
