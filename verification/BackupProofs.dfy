/** Every event keeps the invariants: first for a rewritten row of each table, then event by event. */
module BackupProofs {
  import opened Prelude
  import opened BackupRecords
  import opened BackupMachine
  import opened BackupInvariants

  predicate Purging(st: BackupState) {
    st.PurgePending? || st.Purged?
  }

  predicate Uploaded(w: Work) {
    w.UploadSubmitted? || w.Stored?
  }

  /** How the worker may rewrite a backup row: forward, within its reservation, and never out of a purge. */
  predicate Forward(a: Backup, b: Backup) {
    && b.facts == a.facts
    && b.reserved <= a.reserved
    && (a.work.Stored? ==> b.work.Stored?)
    && (Uploaded(a.work) ==> Uploaded(b.work) && b.work.envelope == a.work.envelope)
    && (Purging(a.state) || Purging(b.state) ==> a.state == b.state)
  }

  lemma RowOf(s: State, id: Id)
    requires Tables(s) && id in s.backups
    ensures RowOk(id, s.backups[id]) && LinkOk(id, s.backups[id], s.restores, s.purges, s.machines)
    ensures CallsOk(s.log, DueCall(s.worker), id, s.backups[id])
  {
  }

  lemma RestoreOf(s: State, r: Id)
    requires Tables(s) && r in s.restores
    ensures RestoreOk(s.restores[r], s.backups, s.machines)
    ensures RestoreCallsOk(s.log, DueCall(s.worker), r, s.restores[r])
  {
  }

  lemma PurgeOf(s: State, p: Id)
    requires Tables(s) && p in s.purges
    ensures PurgeOk(p, s.purges[p], s.backups, s.clock)
  {
  }

  /** Rows are only added, and a restore keeps its backup. */
  ghost predicate Extends(backups: map<Id, Backup>, backups': map<Id, Backup>,
                          restores: map<Id, Restore>, restores': map<Id, Restore>) {
    && (forall id :: id in backups ==> id in backups')
    && (forall r :: r in restores ==> r in restores' && restores'[r].backup == restores[r].backup)
  }

  lemma KnownKept(log: seq<Effect>, backups: map<Id, Backup>, backups': map<Id, Backup>,
                  restores: map<Id, Restore>, restores': map<Id, Restore>)
    requires AllKnown(log, backups, restores) && Extends(backups, backups', restores, restores')
    ensures AllKnown(log, backups', restores')
  {
    forall e | Count(log, e) > 0 ensures Known(e, backups', restores') { assert Known(e, backups, restores); }
  }

  lemma RowTables(s: State, k: Id, b: Backup)
    requires Tables(s) && k in s.backups && Forward(s.backups[k], b) && RowOk(k, b)
    ensures var m := s.backups[k := b];
            && Rows(m) && Links(m, s.restores, s.purges, s.machines) && Purges(s.purges, m, s.clock)
            && Restores(s.restores, m, s.machines) && Objects(s.objects, m) && WithinQuota(m, s.config)
            && AllKnown(s.log, m, s.restores)
  {
    QuotaKept(s.backups, s.config, k, b);
    var m := s.backups[k := b];
    KnownKept(s.log, s.backups, m, s.restores, s.restores);
    RowOf(s, k);
    forall id | id in m ensures RowOk(id, m[id]) && LinkOk(id, m[id], s.restores, s.purges, s.machines) {
      if id != k { RowOf(s, id); }
    }
    forall p | p in s.purges ensures PurgeOk(p, s.purges[p], m, s.clock) { PurgeOf(s, p); }
    forall r | r in s.restores ensures RestoreOk(s.restores[r], m, s.machines) { RestoreOf(s, r); }
    forall o | o in s.objects ensures ObjectOk(o, s.objects[o], m) {
      assert ObjectOk(o, s.objects[o], s.backups);
    }
  }

  lemma RowCalls(s: State, k: Id, b: Backup, due: Option<Effect>)
    requires Tables(s) && k in s.backups
    requires due.Some? ==> ForBackup(due.value, k)
    requires CallsOk(s.log, due, k, b)
    ensures BackupCalls(s.log, due, s.backups[k := b])
    ensures CallsOfRestores(s.log, due, s.restores)
  {
    forall id | id in s.backups && id != k ensures CallsOk(s.log, due, id, s.backups[id]) {
      assert CallsOk(s.log, DueCall(s.worker), id, s.backups[id]);
    }
    forall r | r in s.restores ensures RestoreCallsOk(s.log, due, r, s.restores[r]) {
      assert RestoreCallsOk(s.log, DueCall(s.worker), r, s.restores[r]);
    }
  }

  lemma RowKeeps(s: State, k: Id, b: Backup, worker: Worker)
    requires Inv(s) && k in s.backups && Forward(s.backups[k], b) && RowOk(k, b)
    requires DueCall(worker).Some? ==> ForBackup(DueCall(worker).value, k)
    requires CallsOk(s.log, DueCall(worker), k, b)
    ensures Tables(s.(backups := s.backups[k := b], worker := worker))
  {
    RowTables(s, k, b);
    RowCalls(s, k, b, DueCall(worker));
  }

  lemma RestoreTables(s: State, k: Id, t: Restore)
    requires Tables(s) && k in s.restores && RestoreOk(t, s.backups, s.machines)
    requires var a := s.restores[k];
             t == a.(state := t.state, work := t.work) && (a.work.Done? ==> t.work.Done?)
    ensures var m := s.restores[k := t];
            && Links(s.backups, m, s.purges, s.machines) && Restores(m, s.backups, s.machines) && Targets(m)
            && AllKnown(s.log, s.backups, m)
  {
    var m := s.restores[k := t];
    KnownKept(s.log, s.backups, s.backups, s.restores, m);
    forall id | id in s.backups ensures LinkOk(id, s.backups[id], m, s.purges, s.machines) { RowOf(s, id); }
    forall r | r in m ensures RestoreOk(m[r], s.backups, s.machines) {
      if r != k { RestoreOf(s, r); }
    }
  }

  lemma RestoreCallsKept(s: State, k: Id, t: Restore, due: Option<Effect>)
    requires Tables(s) && k in s.restores
    requires due.Some? ==> ForRestore(due.value, k, t.backup)
    requires RestoreCallsOk(s.log, due, k, t)
    ensures BackupCalls(s.log, due, s.backups)
    ensures CallsOfRestores(s.log, due, s.restores[k := t])
  {
    forall id | id in s.backups ensures CallsOk(s.log, due, id, s.backups[id]) {
      assert CallsOk(s.log, DueCall(s.worker), id, s.backups[id]);
    }
    forall r | r in s.restores && r != k ensures RestoreCallsOk(s.log, due, r, s.restores[r]) {
      assert RestoreCallsOk(s.log, DueCall(s.worker), r, s.restores[r]);
    }
  }

  lemma RestoreKeeps(s: State, k: Id, t: Restore, worker: Worker)
    requires Inv(s) && k in s.restores && RestoreOk(t, s.backups, s.machines)
    requires var a := s.restores[k];
             t == a.(state := t.state, work := t.work) && (a.work.Done? ==> t.work.Done?)
    requires DueCall(worker).Some? ==> ForRestore(DueCall(worker).value, k, t.backup)
    requires RestoreCallsOk(s.log, DueCall(worker), k, t)
    ensures Tables(s.(restores := s.restores[k := t], worker := worker))
  {
    RestoreTables(s, k, t);
    RestoreCallsKept(s, k, t, DueCall(worker));
  }

  // ---- events outside the worker

  lemma NothingDue(s: State)
    requires Tables(s)
    ensures BackupCalls(s.log, None, s.backups) && CallsOfRestores(s.log, None, s.restores)
  {
    forall id | id in s.backups ensures CallsOk(s.log, None, id, s.backups[id]) {
      assert CallsOk(s.log, DueCall(s.worker), id, s.backups[id]);
    }
    forall r | r in s.restores ensures RestoreCallsOk(s.log, None, r, s.restores[r]) {
      assert RestoreCallsOk(s.log, DueCall(s.worker), r, s.restores[r]);
    }
  }

  lemma ReleaseKeeps(s: State)
    requires Inv(s)
    ensures Inv(Release(s))
  {
    NothingDue(s);
  }

  lemma TickKeeps(s: State, d: nat)
    requires Inv(s)
    ensures Inv(s.(clock := s.clock + d))
  {
    forall p | p in s.purges ensures PurgeOk(p, s.purges[p], s.backups, s.clock + d) { PurgeOf(s, p); }
  }

  /** Machines keep their owner, and a destroyed one stays destroyed. */
  ghost predicate MachinesGoOn(a: map<Id, Machine>, b: map<Id, Machine>) {
    forall m :: m in a ==> m in b && b[m].account == a[m].account && (a[m].destroyed ==> b[m].destroyed)
  }

  lemma MachineKeeps(s: State, e: Event)
    requires Inv(s) && IsMachineEvent(e)
    ensures Inv(MachineStep(s, e))
  {
    MachinesKeep(s, MachineStep(s, e).machines);
  }

  /** Machines are only added, made ready or destroyed, so what a purge relied on stays true. */
  lemma MachinesKeep(s: State, machines: map<Id, Machine>)
    requires Inv(s) && MachinesGoOn(s.machines, machines)
    ensures Inv(s.(machines := machines))
  {
    forall id | id in s.backups ensures LinkOk(id, s.backups[id], s.restores, s.purges, machines) {
      MachinesKeepLink(s, machines, id);
    }
    forall r | r in s.restores ensures RestoreOk(s.restores[r], s.backups, machines) { RestoreOf(s, r); }
  }

  lemma MachinesKeepLink(s: State, machines: map<Id, Machine>, id: Id)
    requires Tables(s) && id in s.backups && MachinesGoOn(s.machines, machines)
    ensures LinkOk(id, s.backups[id], s.restores, s.purges, machines)
  {
    RowOf(s, id);
    assert forall m :: Gone(s.machines, m) ==> Gone(machines, m);
  }

  lemma AdmitBackupKeeps(s: State, id: Id, account: Id, machine: Id, allocation: Id, recipe: Recipe,
                         scheduled: bool, createdAt: nat)
    requires Inv(s)
    ensures Inv(AdmitBackupStep(s, id, account, machine, allocation, recipe, scheduled, createdAt))
  {
    var t := AdmitBackupStep(s, id, account, machine, allocation, recipe, scheduled, createdAt);
    if t != s {
      var b := t.backups[id];
      assert t == SetBackup(s, id, b);
      AdmissionFitsQuota(s, id, b);
      NewRowHasNoPast(s, id, b);
      NewRowTables(s, id, b);
      NewRowWorker(s, id, b);
    }
  }

  lemma NewRowWorker(s: State, id: Id, b: Backup)
    requires WorkerOk(s) && id !in s.backups
    ensures WorkerOk(SetBackup(s, id, b))
  {
  }

  lemma NewRowTables(s: State, id: Id, b: Backup)
    requires Tables(s) && id !in s.backups && RowOk(id, b) && b.state.Pending? && OwnsMachine(b.facts, s.machines)
    requires CallsOk(s.log, DueCall(s.worker), id, b) && WithinQuota(s.backups[id := b], s.config)
    ensures Tables(SetBackup(s, id, b))
  {
    var m := s.backups[id := b];
    KnownKept(s.log, s.backups, m, s.restores, s.restores);
    forall i | i in m ensures RowOk(i, m[i]) { NewRowOf(s, id, b, i); }
    forall i | i in m ensures LinkOk(i, m[i], s.restores, s.purges, s.machines) { NewRowOf(s, id, b, i); }
    forall i | i in m ensures CallsOk(s.log, DueCall(s.worker), i, m[i]) { NewRowOf(s, id, b, i); }
    NewRowReferences(s, id, b);
  }

  lemma NewRowOf(s: State, id: Id, b: Backup, i: Id)
    requires Tables(s) && id !in s.backups && RowOk(id, b) && b.state.Pending? && OwnsMachine(b.facts, s.machines)
    requires CallsOk(s.log, DueCall(s.worker), id, b) && (i == id || i in s.backups)
    ensures var m := s.backups[id := b];
            RowOk(i, m[i]) && LinkOk(i, m[i], s.restores, s.purges, s.machines) && CallsOk(s.log, DueCall(s.worker), i, m[i])
  {
    if i != id { RowOf(s, i); }
  }

  lemma NewRowReferences(s: State, id: Id, b: Backup)
    requires Tables(s) && id !in s.backups
    ensures var m := s.backups[id := b];
            Purges(s.purges, m, s.clock) && Restores(s.restores, m, s.machines) && Objects(s.objects, m)
  {
    var m := s.backups[id := b];
    forall p | p in s.purges ensures PurgeOk(p, s.purges[p], m, s.clock) { PurgeOf(s, p); }
    forall r | r in s.restores ensures RestoreOk(s.restores[r], m, s.machines) { RestoreOf(s, r); }
    forall o | o in s.objects ensures ObjectOk(o, s.objects[o], m) {
      assert ObjectOk(o, s.objects[o], s.backups);
    }
  }

  lemma AdmissionFitsQuota(s: State, id: Id, b: Backup)
    requires WithinQuota(s.backups, s.config) && id !in s.backups
    requires Reserved(s.backups, Some(b.facts.account)) + b.reserved <= s.config.maxAccountBytes
    requires Reserved(s.backups, None) + b.reserved <= s.config.maxGlobalBytes
    ensures WithinQuota(s.backups[id := b], s.config)
  {
    ReservedUpdate(s.backups, None, id, b);
    forall a: Id ensures Reserved(s.backups[id := b], Some(a)) <= s.config.maxAccountBytes {
      ReservedUpdate(s.backups, Some(a), id, b);
    }
  }

  lemma NewRowHasNoPast(s: State, id: Id, b: Backup)
    requires AllKnown(s.log, s.backups, s.restores) && WorkerOk(s) && id !in s.backups && b.work == Capture(0)
    ensures CallsOk(s.log, DueCall(s.worker), id, b)
  {
    assert !Known(GuestCapture(id), s.backups, s.restores) && !Known(GuestRead(id), s.backups, s.restores)
        && !Known(Put(id), s.backups, s.restores) && !Known(Recover(id), s.backups, s.restores)
        && !Known(GuestRemove(id), s.backups, s.restores) && !Known(Delete(id), s.backups, s.restores);
  }

  lemma NewRestoreHasNoPast(s: State, id: Id, t: Restore)
    requires AllKnown(s.log, s.backups, s.restores) && WorkerOk(s) && id !in s.restores && t.work == Waiting
    ensures RestoreCallsOk(s.log, DueCall(s.worker), id, t)
  {
    assert !Known(Download(id, t.backup), s.backups, s.restores) && !Known(GuestSubmit(id), s.backups, s.restores)
        && !Known(InspectRestore(id), s.backups, s.restores);
  }

  lemma AdmitRestoreKeeps(s: State, id: Id, backup: Id, account: Id, machine: Id, digest: Id)
    requires Inv(s)
    ensures Inv(AdmitRestoreStep(s, id, backup, account, machine, digest))
  {
    var t := AdmitRestoreStep(s, id, backup, account, machine, digest);
    if t != s {
      var r := Restore(backup, account, machine, digest, RestorePending(false), Waiting);
      var m := s.machines[machine := Machine(account, false, false)];
      assert t == s.(machines := m, restores := s.restores[id := r]);
      RowOf(s, backup);
      NewRestoreTables(s, id, r, m);
      NewRestoreWorker(s, id, r, m);
    }
  }

  lemma NewRestoreWorker(s: State, id: Id, r: Restore, m: map<Id, Machine>)
    requires WorkerOk(s) && id !in s.restores
    ensures WorkerOk(s.(machines := m, restores := s.restores[id := r]))
  {
  }

  lemma NewRestoreTables(s: State, id: Id, t: Restore, m: map<Id, Machine>)
    requires Tables(s) && WorkerOk(s) && id !in s.restores && t.machine !in s.machines && t.work.Waiting? && t.state.RestorePending?
    requires m == s.machines[t.machine := Machine(t.account, false, false)]
    requires t.backup in s.backups && s.backups[t.backup].state.Available? && RestoreOk(t, s.backups, m)
    ensures Tables(s.(machines := m, restores := s.restores[id := t]))
  {
    var rs := s.restores[id := t];
    NewRestoreHasNoPast(s, id, t);
    KnownKept(s.log, s.backups, s.backups, s.restores, rs);
    forall b | b in s.backups ensures LinkOk(b, s.backups[b], rs, s.purges, m) { NewRestoreLink(s, id, t, m, b); }
    forall r | r in rs ensures RestoreOk(rs[r], s.backups, m) {
      if r != id { RestoreOf(s, r); }
    }
    forall r | r in rs ensures RestoreCallsOk(s.log, DueCall(s.worker), r, rs[r]) {
      if r != id { RestoreOf(s, r); }
    }
    TargetsAreFresh(s, id, t);
  }

  lemma NewRestoreLink(s: State, id: Id, t: Restore, m: map<Id, Machine>, b: Id)
    requires Tables(s) && id !in s.restores && b in s.backups && t.machine !in s.machines
    requires m == s.machines[t.machine := Machine(t.account, false, false)]
    requires t.backup in s.backups && s.backups[t.backup].state.Available?
    ensures LinkOk(b, s.backups[b], s.restores[id := t], s.purges, m)
  {
    RowOf(s, b);
  }

  lemma TargetsAreFresh(s: State, id: Id, t: Restore)
    requires Tables(s) && t.machine !in s.machines
    ensures Targets(s.restores[id := t])
  {
    forall r | r in s.restores ensures s.restores[r].machine != t.machine { RestoreOf(s, r); }
  }

  lemma AdmitPurgeKeeps(s: State, id: Id, backup: Id, retention: bool)
    requires Inv(s) && id !in s.purges && Purgeable(s, backup)
    requires retention ==> s.backups[backup].facts.scheduled && s.backups[backup].facts.retainUntil <= s.clock
    ensures Inv(AdmitPurge(s, id, backup, retention))
  {
    var t := AdmitPurge(s, id, backup, retention);
    var b, p := t.backups[backup], t.purges[id];
    assert t == s.(purges := s.purges[id := p], backups := s.backups[backup := b]);
    RowOf(s, backup);
    QuotaKept(s.backups, s.config, backup, b);
    PurgeLinks(s, id, backup, p, b);
    PurgeCalls(s, backup, b);
    AdmitPurgeWorker(s, id, backup, retention);
  }

  lemma AdmitPurgeWorker(s: State, id: Id, backup: Id, retention: bool)
    requires WorkerOk(s) && id !in s.purges && Purgeable(s, backup)
    ensures WorkerOk(AdmitPurge(s, id, backup, retention))
  {
  }

  /** A backup that becomes, or stays, under purge keeps what its calls owe. */
  lemma PurgeCalls(s: State, backup: Id, b: Backup)
    requires Tables(s) && backup in s.backups && b.work == s.backups[backup].work && Purging(b.state)
    ensures BackupCalls(s.log, DueCall(s.worker), s.backups[backup := b])
  {
    var m := s.backups[backup := b];
    forall i | i in m ensures CallsOk(s.log, DueCall(s.worker), i, m[i]) { RowOf(s, i); }
  }

  /** Both rows of a purge move together: admission opens the link and completion closes it. */
  lemma PurgeLinks(s: State, id: Id, backup: Id, p: Purge, b: Backup)
    requires Tables(s) && backup in s.backups && p.backup == backup
    requires b.facts == s.backups[backup].facts && b.work == s.backups[backup].work && b.work.Stored?
    requires PurgeOk(id, p, map[backup := b], s.clock)
    requires Unpinned(s.restores, s.machines, backup)
    requires if id in s.purges then s.purges[id].backup == backup else s.backups[backup].state.Available?
    requires b.reserved == if b.state.Purged? then 0 else b.work.receipt.size
    requires b.state.Purged? ==> backup !in s.objects
    ensures var m := s.backups[backup := b];
            var g := s.purges[id := p];
            && Links(m, s.restores, g, s.machines) && Purges(g, m, s.clock)
            && Rows(m) && Restores(s.restores, m, s.machines) && AllKnown(s.log, m, s.restores)
            && Objects(s.objects, m)
  {
    var m, g := s.backups[backup := b], s.purges[id := p];
    KnownKept(s.log, s.backups, m, s.restores, s.restores);
    RowOf(s, backup);
    if id in s.purges { PurgeOf(s, id); }
    forall i | i in m ensures RowOk(i, m[i]) && LinkOk(i, m[i], s.restores, g, s.machines) {
      if i != backup { RowOf(s, i); }
    }
    forall q | q in g ensures PurgeOk(q, g[q], m, s.clock) {
      if q != id { PurgeOf(s, q); }
    }
    forall r | r in s.restores ensures RestoreOk(s.restores[r], m, s.machines) { RestoreOf(s, r); }
    forall o | o in s.objects ensures ObjectOk(o, s.objects[o], m) {
      assert ObjectOk(o, s.objects[o], s.backups);
    }
  }

  // ---- runs

  lemma BeginKeeps(s: State, e: Event)
    requires Inv(s) && IsBegin(e) && s.worker.Idle?
    ensures Inv(BeginStep(s, e))
  {
    match e
    case BeginCapture(id) => if id in s.backups { RowOf(s, id); }
    case BeginRestore(id) => if id in s.restores { BeginRestoreKeeps(s, id); }
    case BeginDeletion(id) => BeginDeletionKeeps(s, id);
    case BeginRecovery(_, _) =>
  }

  lemma BeginRestoreKeeps(s: State, id: Id)
    requires Inv(s) && s.worker.Idle? && id in s.restores
    ensures Inv(BeginRestoreStep(s, id))
  {
    var r := s.restores[id];
    RestoreOf(s, id);
    if r.state.RestorePending? {
      if Gone(s.machines, r.machine) {
        RestoreKeeps(s, id, r.(state := RestoreBlocked), Idle);
      } else {
        RowOf(s, r.backup);
        assert !Released(r, s.machines);
      }
    }
  }

  lemma BeginDeletionKeeps(s: State, id: Id)
    requires Inv(s) && s.worker.Idle?
    ensures Inv(BeginDeletionStep(s, id))
  {
    var t := BeginDeletionStep(s, id);
    if t != s {
      var b := s.purges[id].backup;
      PurgeOf(s, id);
      RowOf(s, b);
      assert t == s.(purges := s.purges[id := t.purges[id]], worker := t.worker);
      PurgeLinks(s, id, b, t.purges[id], s.backups[b]);
      assert s.backups[b := s.backups[b]] == s.backups;
      DeletionDue(s, b);
    }
  }

  lemma DeletionDue(s: State, b: Id)
    requires Tables(s) && s.worker.Idle? && b in s.backups && Purging(s.backups[b].state)
    ensures BackupCalls(s.log, Some(Delete(b)), s.backups) && CallsOfRestores(s.log, Some(Delete(b)), s.restores)
  {
    forall i | i in s.backups ensures CallsOk(s.log, Some(Delete(b)), i, s.backups[i]) {
      assert CallsOk(s.log, None, i, s.backups[i]);
    }
    forall r | r in s.restores ensures RestoreCallsOk(s.log, Some(Delete(b)), r, s.restores[r]) {
      assert RestoreCallsOk(s.log, None, r, s.restores[r]);
    }
  }

  lemma CallCounts(s: State, e: Effect)
    requires Tables(s) && DueCall(s.worker) == Some(e)
    ensures BackupCalls(s.log + [e], None, s.backups)
    ensures CallsOfRestores(s.log + [e], None, s.restores)
  {
    CountAppends(s.log, e);
    forall b | b in s.backups ensures CallsOk(s.log + [e], None, b, s.backups[b]) {
      assert CallsOk(s.log, Some(e), b, s.backups[b]);
    }
    forall r | r in s.restores ensures RestoreCallsOk(s.log + [e], None, r, s.restores[r]) {
      assert RestoreCallsOk(s.log, Some(e), r, s.restores[r]);
    }
  }

  lemma CallOrder(s: State, e: Effect)
    requires Ordered(s.log) && WorkerOk(s) && DueCall(s.worker) == Some(e)
    ensures Ordered(s.log + [e])
  {
    if e.Download? { CountFinds(s.log, Delete(e.backup)); }
  }

  lemma CallKnown(s: State, e: Effect)
    requires AllKnown(s.log, s.backups, s.restores) && Known(e, s.backups, s.restores)
    ensures AllKnown(s.log + [e], s.backups, s.restores)
  {
    CountAppends(s.log, e);
  }

  lemma CallWorker(s: State)
    requires WorkerOk(s) && DueCall(s.worker).Some? && Restores(s.restores, s.backups, s.machines)
    ensures WorkerOk(CallStep(s)) && Known(s.worker.at.effect, s.backups, s.restores)
  {
    if s.worker.job.RestoreJob? {
      assert RestoreOk(s.restores[s.worker.job.restore], s.backups, s.machines);
    }
    CountAppends(s.log, s.worker.at.effect);
  }

  lemma CallObjects(s: State)
    requires WorkerOk(s) && DueCall(s.worker).Some? && Objects(s.objects, s.backups)
    ensures Objects(CallStep(s).objects, s.backups)
  {
    var t := CallStep(s);
    forall o | o in t.objects ensures ObjectOk(o, t.objects[o], s.backups) {
      if o in s.objects { assert ObjectOk(o, s.objects[o], s.backups); }
    }
  }

  lemma CallKeeps(s: State)
    requires Inv(s)
    ensures Inv(CallStep(s))
  {
    if s.worker.Running? && s.worker.at.Due? {
      CallCounts(s, s.worker.at.effect);
      CallOrder(s, s.worker.at.effect);
      CallWorker(s);
      CallKnown(s, s.worker.at.effect);
      CallObjects(s);
    }
  }

  /** A step of advanceCapture rewrites its own row, forward, and nothing else. */
  predicate RewritesBackup(s: State, t: State, id: Id, calls: nat, puts: nat, deletes: nat)
    requires id in s.backups
  {
    && id in t.backups
    && t == s.(backups := s.backups[id := t.backups[id]], worker := t.worker)
    && RowOk(id, t.backups[id]) && Forward(s.backups[id], t.backups[id])
    && Paid(calls, puts, deletes, DueCall(t.worker), id, t.backups[id])
    && (DueCall(t.worker).Some? ==> ForBackup(DueCall(t.worker).value, id))
    && WorkerOk(t)
  }

  /** What a saved next phase must show for its row to be sound, paid for and forward. */
  predicate MaySave(id: Id, b: Backup, next: Work, due: Option<Effect>, calls: nat, puts: nat, deletes: nat) {
    var c := b.(work := next);
    RowOk(id, c) && Forward(b, c) && Paid(calls, puts, deletes, due, id, c)
  }

  function DueAt(at: Stage): Option<Effect> {
    if at.Due? then Some(at.effect) else None
  }

  lemma SavedRow(s: State, id: Id, next: Work, at: Stage, calls: nat, puts: nat, deletes: nat)
    requires id in s.backups && MaySave(id, s.backups[id], next, DueAt(at), calls, puts, deletes)
    requires next.Stored? || s.backups[id].state.Pending?
    requires CaptureStage(id, next, at)
    ensures RewritesBackup(s, Enter(SaveWork(s, id, next), CaptureJob(id, next), at), id, calls, puts, deletes)
  {
  }

  lemma BlockedRow(s: State, id: Id, calls: nat, puts: nat, deletes: nat)
    requires id in s.backups && RowOk(id, s.backups[id]) && s.backups[id].state.Pending?
    requires Paid(calls, puts, deletes, None, id, s.backups[id])
    ensures RewritesBackup(s, BlockBackup(s, id), id, calls, puts, deletes)
  {
  }

  lemma SameRow(s: State, id: Id, worker: Worker, calls: nat, puts: nat, deletes: nat)
    requires id in s.backups && RowOk(id, s.backups[id]) && Paid(calls, puts, deletes, None, id, s.backups[id])
    requires (worker == s.worker && DueCall(worker).None? && WorkerOk(s)) || worker.Idle?
    ensures RewritesBackup(s, s.(worker := worker), id, calls, puts, deletes)
  {
    assert s.backups[id := s.backups[id]] == s.backups;
  }

  lemma CaptureChoiceRow(s: State, id: Id, w: Work, e: Event, calls: nat, puts: nat, deletes: nat)
    requires id in s.backups && RowOk(id, s.backups[id]) && Paid(calls, puts, deletes, None, id, s.backups[id])
    requires s.worker == Running(CaptureJob(id, w), Choose) && WorkerOk(s)
    ensures RewritesBackup(s, CaptureChoice(s, id, w, e), id, calls, puts, deletes)
  {
    match w
    case Capture(_) => CapturingChoiceRow(s, id, w, e, calls, puts, deletes);
    case Encrypt(_, _) => ReadingChoiceRow(s, id, w, e, calls, puts, deletes);
    case UploadReady(_) => ReadyChoiceRow(s, id, w, e, calls, puts, deletes);
    case UploadSubmitted(_, _) => SubmittedChoiceRow(s, id, w, e, calls, puts, deletes);
    case Stored(_, _, _, _) => StoredChoiceRow(s, id, w, e, calls, puts, deletes);
  }

  lemma CapturingChoiceRow(s: State, id: Id, w: Work, e: Event, calls: nat, puts: nat, deletes: nat)
    requires id in s.backups && RowOk(id, s.backups[id]) && Paid(calls, puts, deletes, None, id, s.backups[id])
    requires s.worker == Running(CaptureJob(id, w), Choose) && WorkerOk(s) && w.Capture?
    ensures RewritesBackup(s, CaptureChoice(s, id, w, e), id, calls, puts, deletes)
  {
    SameRow(s, id, s.worker, calls, puts, deletes);
    BlockedRow(s, id, calls, puts, deletes);
    if w.attempts < ATTEMPTS { SavedRow(s, id, Capture(w.attempts + 1), Due(GuestCapture(id)), calls, puts, deletes); }
  }

  lemma ReadingChoiceRow(s: State, id: Id, w: Work, e: Event, calls: nat, puts: nat, deletes: nat)
    requires id in s.backups && RowOk(id, s.backups[id]) && Paid(calls, puts, deletes, None, id, s.backups[id])
    requires s.worker == Running(CaptureJob(id, w), Choose) && WorkerOk(s) && w.Encrypt?
    ensures RewritesBackup(s, CaptureChoice(s, id, w, e), id, calls, puts, deletes)
  {
    SameRow(s, id, s.worker, calls, puts, deletes);
    BlockedRow(s, id, calls, puts, deletes);
    if w.attempts < ATTEMPTS {
      SavedRow(s, id, Encrypt(w.capture, w.attempts + 1), Due(GuestRead(id)), calls, puts, deletes);
    }
  }

  lemma ReadyChoiceRow(s: State, id: Id, w: Work, e: Event, calls: nat, puts: nat, deletes: nat)
    requires id in s.backups && RowOk(id, s.backups[id]) && Paid(calls, puts, deletes, None, id, s.backups[id])
    requires s.worker == Running(CaptureJob(id, w), Choose) && WorkerOk(s) && w.UploadReady?
    ensures RewritesBackup(s, CaptureChoice(s, id, w, e), id, calls, puts, deletes)
  {
    SameRow(s, id, s.worker, calls, puts, deletes);
    SubmissionIsPaid(id, s.backups[id], calls, puts, deletes);
    SavedRow(s, id, UploadSubmitted(w.envelope, 0), Due(Put(id)), calls, puts, deletes);
  }

  lemma SubmittedChoiceRow(s: State, id: Id, w: Work, e: Event, calls: nat, puts: nat, deletes: nat)
    requires id in s.backups && RowOk(id, s.backups[id]) && Paid(calls, puts, deletes, None, id, s.backups[id])
    requires s.worker == Running(CaptureJob(id, w), Choose) && WorkerOk(s) && w.UploadSubmitted?
    ensures RewritesBackup(s, CaptureChoice(s, id, w, e), id, calls, puts, deletes)
  {
    SameRow(s, id, s.worker, calls, puts, deletes);
    BlockedRow(s, id, calls, puts, deletes);
    if w.attempts < ATTEMPTS {
      RecoveryIsPaid(id, s.backups[id], calls, puts, deletes);
      SavedRow(s, id, UploadSubmitted(w.envelope, w.attempts + 1), Due(Recover(id)), calls, puts, deletes);
    }
  }

  lemma StoredChoiceRow(s: State, id: Id, w: Work, e: Event, calls: nat, puts: nat, deletes: nat)
    requires id in s.backups && RowOk(id, s.backups[id]) && Paid(calls, puts, deletes, None, id, s.backups[id])
    requires s.worker == Running(CaptureJob(id, w), Choose) && WorkerOk(s) && w.Stored?
    ensures RewritesBackup(s, CaptureChoice(s, id, w, e), id, calls, puts, deletes)
  {
    if !e.StartCleanup? || w.cleaned || w.attempts >= ATTEMPTS {
      SameRow(s, id, s.worker, calls, puts, deletes);
    } else {
      RemovalIsPaid(id, s.backups[id], calls, puts, deletes);
      SavedRow(s, id, Stored(w.envelope, w.receipt, false, w.attempts + 1), Due(GuestRemove(id)), calls, puts, deletes);
    }
  }

  lemma SubmissionIsPaid(id: Id, b: Backup, calls: nat, puts: nat, deletes: nat)
    requires RowOk(id, b) && Paid(calls, puts, deletes, None, id, b) && b.work.UploadReady?
    ensures MaySave(id, b, UploadSubmitted(b.work.envelope, 0), Some(Put(id)), calls, puts, deletes)
  {
  }

  lemma RecoveryIsPaid(id: Id, b: Backup, calls: nat, puts: nat, deletes: nat)
    requires RowOk(id, b) && Paid(calls, puts, deletes, None, id, b) && b.work.UploadSubmitted? && b.work.attempts < ATTEMPTS
    ensures MaySave(id, b, UploadSubmitted(b.work.envelope, b.work.attempts + 1), Some(Recover(id)), calls, puts, deletes)
  {
  }

  lemma RemovalIsPaid(id: Id, b: Backup, calls: nat, puts: nat, deletes: nat)
    requires RowOk(id, b) && Paid(calls, puts, deletes, None, id, b)
    requires b.work.Stored? && !b.work.cleaned && b.work.attempts < ATTEMPTS
    ensures MaySave(id, b, Stored(b.work.envelope, b.work.receipt, false, b.work.attempts + 1), Some(GuestRemove(id)),
                    calls, puts, deletes)
  {
  }

  lemma CaptureChoiceKeeps(s: State, e: Event)
    requires Inv(s) && s.worker.Running? && s.worker.job.CaptureJob? && s.worker.at.Choose?
    ensures Inv(CaptureChoice(s, s.worker.job.backup, s.worker.job.work, e))
  {
    var id := s.worker.job.backup;
    RowOf(s, id);
    var t := CaptureChoice(s, id, s.worker.job.work, e);
    CaptureChoiceRow(s, id, s.worker.job.work, e, Calls(s.log, id), Count(s.log, Put(id)), Count(s.log, Delete(id)));
    RowKeeps(s, id, t.backups[id], t.worker);
  }

  lemma StoredRow(s: State, id: Id, next: Work, calls: nat, puts: nat, deletes: nat)
    requires id in s.backups && RowOk(id, s.backups[id]) && s.backups[id].work.UploadSubmitted? && s.backups[id].state.Pending?
    requires Paid(calls, puts, deletes, None, id, s.backups[id])
    requires next.Stored? && next.envelope == s.backups[id].work.envelope && !next.cleaned && next.attempts == 0
    requires next.receipt.attempt == id && next.receipt.size == next.envelope.intent.size
    ensures RewritesBackup(s, Enter(SaveStored(s, id, next), CaptureJob(id, next), Choose), id, calls, puts, deletes)
  {
  }

  lemma CleanedRow(s: State, id: Id, next: Work, calls: nat, puts: nat, deletes: nat)
    requires id in s.backups && MaySave(id, s.backups[id], next, None, calls, puts, deletes)
    ensures RewritesBackup(s, Release(SaveWork(s, id, next)), id, calls, puts, deletes)
  {
  }

  lemma CaptureAnswerRow(s: State, id: Id, w: Work, called: Effect, e: Event, calls: nat, puts: nat, deletes: nat)
    requires id in s.backups && RowOk(id, s.backups[id]) && Paid(calls, puts, deletes, None, id, s.backups[id])
    requires s.worker == Running(CaptureJob(id, w), Called(called)) && WorkerOk(s)
    ensures RewritesBackup(s, CaptureAnswer(s, id, w, called, e), id, calls, puts, deletes)
  {
    SameRow(s, id, s.worker, calls, puts, deletes);
    SameRow(s, id, Idle, calls, puts, deletes);
    match w
    case Capture(_) =>
      if e.CaptureReply? && CapturedOk(e.captured, id, s.backups[id].facts) {
        SavedRow(s, id, Encrypt(e.captured, 0), Choose, calls, puts, deletes);
      }
    case Encrypt(c, _) =>
      if e.ReadReply? && e.encryption.ciphertextBytes <= s.backups[id].facts.maxBytes
         && e.intent == Intent(id, e.encryption.ciphertextBytes)
         && e.encryption.plaintextBytes == c.bytes && e.encryption.plaintextSha256 == c.sha256 {
        SavedRow(s, id, UploadReady(Sealed(c, e.encryption, e.intent)), Choose, calls, puts, deletes);
      }
    case UploadReady(_) =>
    case UploadSubmitted(v, _) =>
      if e.UploadFound? {
        StoredRow(s, id, Stored(v, Receipt(id, v.intent.size, e.version), false, 0), calls, puts, deletes);
      }
    case Stored(v, r, _, n) => CleanedRow(s, id, Stored(v, r, true, n), calls, puts, deletes);
  }

  lemma CaptureAnswerKeeps(s: State, e: Event)
    requires Inv(s) && s.worker.Running? && s.worker.job.CaptureJob? && s.worker.at.Called?
    ensures Inv(CaptureAnswer(s, s.worker.job.backup, s.worker.job.work, s.worker.at.effect, e))
  {
    var id := s.worker.job.backup;
    RowOf(s, id);
    var t := CaptureAnswer(s, id, s.worker.job.work, s.worker.at.effect, e);
    CaptureAnswerRow(s, id, s.worker.job.work, s.worker.at.effect, e,
                     Calls(s.log, id), Count(s.log, Put(id)), Count(s.log, Delete(id)));
    RowKeeps(s, id, t.backups[id], t.worker);
  }

  lemma FinishKeeps(s: State, id: Id)
    requires Inv(s) && s.worker.Running? && s.worker.job.RestoreJob? && s.worker.at.Called? && s.worker.job.restore == id
    requires s.worker.job.restoring.Submitted?
    ensures Inv(Finish(s, id))
  {
    var r := s.restores[id];
    RestoreOf(s, id);
    RowOf(s, r.backup);
    var b := s.backups[r.backup];
    if b.state.Available? {
      var done := r.(work := Done, state := Restored);
      RestoreKeeps(s, id, done, Idle);
      RowKeeps(s.(restores := s.restores[id := done], worker := Idle), r.backup, b.(state := Available(true)), Idle);
    } else {
      ReleaseKeeps(s);
    }
  }

  predicate RewritesRestore(s: State, t: State, id: Id)
    requires id in s.restores
  {
    && id in t.restores
    && t == s.(restores := s.restores[id := t.restores[id]], worker := t.worker)
    && t.restores[id] == s.restores[id].(state := t.restores[id].state, work := t.restores[id].work)
    && (s.restores[id].work.Done? ==> t.restores[id].work.Done?)
    && RestoreOk(t.restores[id], s.backups, s.machines)
    && RestoreCallsOk(s.log, DueCall(t.worker), id, t.restores[id])
    && (DueCall(t.worker).Some? ==> ForRestore(DueCall(t.worker).value, id, t.restores[id].backup))
    && WorkerOk(t)
  }

  lemma RestoreChoiceRow(s: State, id: Id, w: RestoreWork, ready: bool, e: Event)
    requires id in s.restores && RestoreOk(s.restores[id], s.backups, s.machines)
    requires RestoreCallsOk(s.log, None, id, s.restores[id])
    requires s.worker == Running(RestoreJob(id, w, ready), Choose) && WorkerOk(s)
    ensures RewritesRestore(s, RestoreChoice(s, id, w, ready, e), id)
  {
    if w.Prepare? { PrepareChoiceRow(s, id, w, ready, e); } else { OtherChoiceRow(s, id, w, ready, e); }
  }

  lemma PrepareChoiceRow(s: State, id: Id, w: RestoreWork, ready: bool, e: Event)
    requires id in s.restores && RestoreOk(s.restores[id], s.backups, s.machines)
    requires RestoreCallsOk(s.log, None, id, s.restores[id])
    requires s.worker == Running(RestoreJob(id, w, ready), Choose) && WorkerOk(s)
    requires w.Prepare?
    ensures RewritesRestore(s, RestoreChoice(s, id, w, ready, e), id)
  {
  }

  lemma OtherChoiceRow(s: State, id: Id, w: RestoreWork, ready: bool, e: Event)
    requires id in s.restores && RestoreOk(s.restores[id], s.backups, s.machines)
    requires RestoreCallsOk(s.log, None, id, s.restores[id])
    requires s.worker == Running(RestoreJob(id, w, ready), Choose) && WorkerOk(s)
    requires !w.Prepare?
    ensures RewritesRestore(s, RestoreChoice(s, id, w, ready, e), id)
  {
  }

  lemma RestoreAnswerRow(s: State, id: Id, w: RestoreWork, ready: bool, called: Effect, e: Event)
    requires id in s.restores && RestoreOk(s.restores[id], s.backups, s.machines)
    requires RestoreCallsOk(s.log, None, id, s.restores[id])
    requires s.worker == Running(RestoreJob(id, w, ready), Called(called)) && WorkerOk(s)
    requires !(w.Submitted? && e.RestoreReply? && e.reply.GuestRestored?)
    ensures RewritesRestore(s, RestoreAnswer(s, id, w, ready, called, e), id)
  {
  }

  lemma RestoreChoiceKeeps(s: State, e: Event)
    requires Inv(s) && s.worker.Running? && s.worker.job.RestoreJob? && s.worker.at.Choose?
    ensures Inv(RestoreChoice(s, s.worker.job.restore, s.worker.job.restoring, s.worker.job.ready, e))
  {
    var id := s.worker.job.restore;
    RestoreOf(s, id);
    var t := RestoreChoice(s, id, s.worker.job.restoring, s.worker.job.ready, e);
    RestoreChoiceRow(s, id, s.worker.job.restoring, s.worker.job.ready, e);
    RestoreKeeps(s, id, t.restores[id], t.worker);
  }

  lemma RestoreAnswerKeeps(s: State, e: Event)
    requires Inv(s) && s.worker.Running? && s.worker.job.RestoreJob? && s.worker.at.Called?
    ensures Inv(RestoreAnswer(s, s.worker.job.restore, s.worker.job.restoring, s.worker.job.ready, s.worker.at.effect, e))
  {
    var id := s.worker.job.restore;
    if s.worker.job.restoring.Submitted? && e.RestoreReply? && e.reply.GuestRestored? {
      FinishKeeps(s, id);
    } else {
      RestoreOf(s, id);
      var t := RestoreAnswer(s, id, s.worker.job.restoring, s.worker.job.ready, s.worker.at.effect, e);
      RestoreAnswerRow(s, id, s.worker.job.restoring, s.worker.job.ready, s.worker.at.effect, e);
      RestoreKeeps(s, id, t.restores[id], t.worker);
    }
  }

  lemma DeleteAnswerKeeps(s: State, outcome: DeleteOutcome)
    requires Inv(s) && s.worker.Running? && s.worker.job.DeleteJob? && s.worker.at.Called?
    ensures Inv(DeleteAnswer(s, s.worker.job.purge, outcome))
  {
    var id := s.worker.job.purge;
    var t := DeleteAnswer(s, id, outcome);
    var p := s.purges[id];
    PurgeOf(s, id);
    RowOf(s, p.backup);
    PurgeLinks(s, id, p.backup, t.purges[id], s.backups[p.backup]);
    assert s.backups[p.backup := s.backups[p.backup]] == s.backups;
    forall o | o in t.objects ensures ObjectOk(o, t.objects[o], t.backups) {
      assert ObjectOk(o, s.objects[o], s.backups);
    }
    NothingDue(s);
  }

  lemma CompleteKeeps(s: State)
    requires Inv(s) && s.worker.Running? && s.worker.job.DeleteJob? && s.worker.at.Choose?
    ensures Inv(Complete(s, s.worker.job.purge))
  {
    var id := s.worker.job.purge;
    var p := s.purges[id];
    var t := Complete(s, id);
    PurgeOf(s, id);
    RowOf(s, p.backup);
    QuotaKept(s.backups, s.config, p.backup, t.backups[p.backup]);
    PurgeLinks(s, id, p.backup, t.purges[id], t.backups[p.backup]);
    assert t == s.(backups := s.backups[p.backup := t.backups[p.backup]], purges := s.purges[id := t.purges[id]], worker := Idle);
    NothingDue(s);
    PurgeCalls(s, p.backup, t.backups[p.backup]);
  }

  lemma RecoveryAnswerKeeps(s: State, version: Id)
    requires Inv(s) && s.worker.Running? && s.worker.job.RecoverJob?
    ensures Inv(RecoveryAnswer(s, s.worker.job.backup, s.worker.job.seen, s.worker.job.work, version))
  {
    var id, w := s.worker.job.backup, s.worker.job.work;
    if s.backups[id].state == s.worker.job.seen {
      RowOf(s, id);
      var next := Stored(w.envelope, Receipt(id, w.envelope.intent.size, version), false, 0);
      var b := s.backups[id].(work := next, reserved := next.receipt.size, state := Available(false));
      RecoveredRow(id, s.backups[id], b, Calls(s.log, id), Count(s.log, Put(id)), Count(s.log, Delete(id)));
      RowKeeps(s, id, b, Idle);
      assert Release(SaveStored(s, id, next)) == s.(backups := s.backups[id := b], worker := Idle);
    } else {
      ReleaseKeeps(s);
    }
  }

  lemma RecoveredRow(id: Id, a: Backup, b: Backup, calls: nat, puts: nat, deletes: nat)
    requires RowOk(id, a) && Paid(calls, puts, deletes, None, id, a) && a.work.UploadSubmitted?
    requires b.facts == a.facts && b.state == Available(false) && b.work.Stored? && b.work.envelope == a.work.envelope
    requires b.work.receipt.attempt == id && b.work.receipt.size == b.work.envelope.intent.size == b.reserved
    requires !b.work.cleaned && b.work.attempts == 0
    ensures RowOk(id, b) && Forward(a, b) && Paid(calls, puts, deletes, None, id, b)
  {
  }
}
