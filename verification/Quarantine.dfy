/**
 The backup tables and the access sessions over one database. What `current` reads of a machine's quarantine is
 the machine's own restore row, at every instant; everything else of the two components is as they are.
 */
module Quarantine {
  import opened Prelude
  import B = BackupMachine
  import R = BackupRecords
  import BackupInvariants
  import BackupProofs
  import BackupTheorems
  import S = Sessions

  datatype State = State(tables: B.State, access: S.State)

  datatype Event = OfBackups(backup: B.Event) | OfAccess(access: S.Event)

  predicate Unfinished(t: R.Restore, machine: Id) {
    t.machine == machine && !t.state.Restored?
  }

  /** assertRestoreAccessible: the machine has a restore row, and it is not restored. */
  function Seen(restores: map<Id, R.Restore>, machine: Id): S.Machine {
    if exists r :: r in restores && Unfinished(restores[r], machine) then S.Quarantined
    else if exists r :: r in restores && restores[r].machine == machine then S.Verified
    else S.Plain
  }

  function AllSeen(t: B.State): map<Id, S.Machine> {
    map m | m in t.machines :: Seen(t.restores, m)
  }

  predicate OwnsMachines(e: S.Event) {
    e.AddMachine? || e.RestoreRecorded?
  }

  ghost function Apply(s: State, e: Event): State {
    match e
    case OfBackups(b) => var t := B.Apply(s.tables, b); State(t, s.access.(machines := AllSeen(t)))
    case OfAccess(a) => if OwnsMachines(a) then s else s.(access := S.Apply(s.access, a))
  }

  ghost function Run(s: State, events: seq<Event>): State
    decreases |events|
  {
    if events == [] then s else Apply(Run(s, events[..|events| - 1]), events[|events| - 1])
  }

  ghost predicate Initial(s: State) {
    B.Initial(s.tables) && S.Initial(s.access)
  }

  /** Every lease is of a known machine all of whose restores are recorded restored. */
  ghost predicate Inv(s: State) {
    && BackupInvariants.Inv(s.tables)
    && s.access.machines == AllSeen(s.tables)
    && forall l :: l in s.access.leases ==> LeaseOk(l, s.tables)
  }

  ghost predicate LeaseOk(l: S.Lease, t: B.State) {
    && l.machine in t.machines
    && forall r :: r in t.restores && t.restores[r].machine == l.machine ==> t.restores[r].state.Restored?
  }

  // ---- what one step of the tables adds

  /** Machines stay, and a new restore's target is a new machine. */
  ghost predicate TargetsAreNew(s: B.State, t: B.State) {
    && (forall m :: m in s.machines ==> m in t.machines)
    && (forall r :: r in t.restores && r !in s.restores ==> t.restores[r].machine !in s.machines)
  }

  predicate SameTargets(s: B.State, t: B.State) {
    t.machines == s.machines && t.restores.Keys == s.restores.Keys
  }

  lemma WorkerTargets(s: B.State, e: B.Event)
    requires s.worker.Running?
    ensures SameTargets(s, B.WorkerStep(s, e))
  {
    match s.worker.job
    case CaptureJob(id, w) => CaptureTargets(s, id, w, e);
    case RestoreJob(id, w, ready) =>
      if id in s.restores {
        RestoreTargets(s, id, w, ready, e);
        if s.worker.at.Called? { AnswerTargets(s, id, w, ready, s.worker.at.effect, e); }
      }
    case DeleteJob(id) => if id in s.purges && e.DeleteReply? { DeleteTargets(s, id, e.outcome); }
    case RecoverJob(id, seen, w) => if e.RecoveryFound? { RecoveryTargets(s, id, seen, w, e.version); }
  }

  lemma CaptureTargets(s: B.State, id: Id, w: R.Work, e: B.Event)
    ensures id in s.backups ==> SameTargets(s, B.CaptureChoice(s, id, w, e))
    ensures forall called :: id in s.backups ==> SameTargets(s, B.CaptureAnswer(s, id, w, called, e))
  {
  }

  lemma RestoreTargets(s: B.State, id: Id, w: R.RestoreWork, ready: bool, e: B.Event)
    requires id in s.restores
    ensures SameTargets(s, B.RestoreChoice(s, id, w, ready, e))
  {
    if w.Prepare? { PrepareTargets(s, id, w, ready, e); }
  }

  lemma PrepareTargets(s: B.State, id: Id, w: R.RestoreWork, ready: bool, e: B.Event)
    requires id in s.restores && w.Prepare?
    ensures SameTargets(s, B.RestoreChoice(s, id, w, ready, e))
  {
  }

  lemma AnswerTargets(s: B.State, id: Id, w: R.RestoreWork, ready: bool, called: B.Effect, e: B.Event)
    requires id in s.restores
    ensures SameTargets(s, B.RestoreAnswer(s, id, w, ready, called, e))
  {
    assert SameTargets(s, B.Finish(s, id));
  }

  lemma DeleteTargets(s: B.State, id: Id, outcome: B.DeleteOutcome)
    requires id in s.purges
    ensures SameTargets(s, B.DeleteAnswer(s, id, outcome))
  {
  }

  lemma RecoveryTargets(s: B.State, id: Id, seen: R.BackupState, w: R.Work, version: Id)
    ensures SameTargets(s, B.RecoveryAnswer(s, id, seen, w, version))
  {
  }

  lemma BeginTargets(s: B.State, e: B.Event)
    ensures SameTargets(s, B.BeginStep(s, e))
  {
    match e
    case BeginRestore(id) => assert SameTargets(s, B.BeginRestoreStep(s, id));
    case BeginDeletion(id) => assert SameTargets(s, B.BeginDeletionStep(s, id));
    case BeginRecovery(id, expected) => assert SameTargets(s, B.BeginRecoveryStep(s, id, expected));
    case BeginCapture(id) => assert SameTargets(s, B.BeginCaptureStep(s, id));
    case _ =>
  }

  lemma TargetIsNew(s: B.State, id: Id, backup: Id, account: Id, machine: Id, digest: Id)
    ensures TargetsAreNew(s, B.AdmitRestoreStep(s, id, backup, account, machine, digest))
  {
  }

  lemma AdmissionTargets(s: B.State, e: B.Event)
    ensures TargetsAreNew(s, B.AdmissionStep(s, e))
  {
    match e
    case AdmitBackup(id, account, machine, allocation, recipe, scheduled, createdAt) =>
      assert SameTargets(s, B.AdmitBackupStep(s, id, account, machine, allocation, recipe, scheduled, createdAt));
    case AdmitRestore(id, backup, account, machine, digest) => TargetIsNew(s, id, backup, account, machine, digest);
    case RequestPurge(id, backup, account) => assert SameTargets(s, B.RequestPurgeStep(s, id, backup, account));
    case ExpireBackup(id, backup) => assert SameTargets(s, B.ExpireBackupStep(s, id, backup));
    case _ =>
  }

  lemma StepTargets(s: B.State, e: B.Event)
    ensures TargetsAreNew(s, B.Apply(s, e))
  {
    if e.Tick? {
    } else if B.IsMachineEvent(e) {
    } else if B.IsAdmission(e) {
      AdmissionTargets(s, e);
    } else if B.IsBegin(e) {
      BeginTargets(s, e);
    } else if e.Abandon? || e.Call? {
      assert SameTargets(s, B.Apply(s, e));
    } else if s.worker.Running? {
      WorkerTargets(s, e);
    }
  }

  // ---- what one step of the sessions adds

  /** Machines are not touched, and a new lease is of a machine that is not quarantined. */
  predicate Cautious(s: S.State, t: S.State) {
    && t.machines == s.machines
    && forall l :: l in t.leases ==> l in s.leases || (l.machine in s.machines && !s.machines[l.machine].Quarantined?)
  }

  lemma GrantIsCautious(s: S.State, id: Id, claim: S.Claim, v: S.View)
    requires id in s.sessions
    ensures Cautious(s, S.Grant(s, S.ValidConnection(s, id, claim, v)))
  {
  }

  lemma ClaimIsCautious(s: S.State, id: Id, claim: S.Claim, v: S.View, elapsed: nat, again: S.View)
    ensures Cautious(s, S.ClaimStep(s, id, claim, v, elapsed, again))
  {
    if id in s.sessions && S.MayClaim(s, s.sessions[id], v) {
      GrantIsCautious(S.Claiming(s, id, claim, elapsed), id, claim, again);
    }
  }

  lemma IssueIsCautious(s: S.State, e: S.Event)
    requires e.Prepare? || e.Observe? || e.Attempt? || e.Sign? || e.Publish?
    ensures Cautious(s, S.IssueStep(s, e))
  {
    if e.id in s.passes && e.id in s.sessions {
      if e.Prepare? { assert Cautious(s, S.PrepareStep(s, e.id, e.view)); }
      if e.Attempt? && s.passes[e.id].Observed? { assert Cautious(s, S.AttemptStep(s, e.id, e.view)); }
      if e.Publish? && s.passes[e.id].SignCalled? { assert Cautious(s, S.PublishStep(s, e.id, e.view, e.signature)); }
    }
  }

  lemma AccessIsCautious(s: S.State, e: S.Event)
    requires !OwnsMachines(e)
    ensures Cautious(s, S.Apply(s, e))
  {
    match e
    case ClaimTicket(id, claim, v, elapsed, again) => ClaimIsCautious(s, id, claim, v, elapsed, again);
    case Check(id, claim, v) => if id in s.sessions { GrantIsCautious(s, id, claim, v); }
    case Prepare(_, _) => IssueIsCautious(s, e);
    case Observe(_, _) => IssueIsCautious(s, e);
    case Attempt(_, _) => IssueIsCautious(s, e);
    case Sign(_) => IssueIsCautious(s, e);
    case Publish(_, _, _) => IssueIsCautious(s, e);
    case _ =>
  }

  // ---- the joint state

  lemma BackupsKeep(s: State, e: B.Event)
    requires Inv(s)
    ensures Inv(Apply(s, OfBackups(e)))
  {
    var a, t := s.tables, B.Apply(s.tables, e);
    BackupTheorems.StepKeepsInv(a, e);
    BackupTheorems.StepAdvances(a, e);
    StepTargets(a, e);
    forall l | l in s.access.leases ensures LeaseOk(l, t) {
      assert LeaseOk(l, a);
      forall r | r in t.restores && t.restores[r].machine == l.machine ensures t.restores[r].state.Restored? {
        assert BackupTheorems.RestoreMovesOn(a.restores, t.restores, r);
      }
    }
  }

  lemma AccessKeeps(s: State, e: S.Event)
    requires Inv(s)
    ensures Inv(Apply(s, OfAccess(e)))
  {
    if !OwnsMachines(e) {
      AccessIsCautious(s.access, e);
      var t := S.Apply(s.access, e);
      forall l | l in t.leases ensures LeaseOk(l, s.tables) {
        if l !in s.access.leases {
          assert Seen(s.tables.restores, l.machine) != S.Quarantined;
          forall r | r in s.tables.restores && s.tables.restores[r].machine == l.machine ensures s.tables.restores[r].state.Restored? {
            assert !Unfinished(s.tables.restores[r], l.machine);
          }
        }
      }
    }
  }

  lemma {:induction false} RunKeepsInv(s: State, events: seq<Event>)
    requires Inv(s)
    ensures Inv(Run(s, events))
    decreases |events|
  {
    if events != [] {
      var n := |events| - 1;
      RunKeepsInv(s, events[..n]);
      match events[n]
      case OfBackups(e) => BackupsKeep(Run(s, events[..n]), e);
      case OfAccess(e) => AccessKeeps(Run(s, events[..n]), e);
    }
  }

  /**
   In every run of both components, a machine for which any lease was ever granted has no restore that is not
   recorded restored: a restore's target is leased to nobody before its restore is published, and stays so.
   */
  lemma LeasedTargetsAreRestored(s: State, events: seq<Event>, l: S.Lease, r: Id)
    requires Initial(s) && l in Run(s, events).access.leases
    requires r in Run(s, events).tables.restores && Run(s, events).tables.restores[r].machine == l.machine
    ensures var t := Run(s, events).tables.restores[r]; t.state.Restored? && t.work.Done?
  {
    BackupTheorems.InitialInv(s.tables);
    RunKeepsInv(s, events);
    var t := Run(s, events);
    assert LeaseOk(l, t.tables);
    BackupProofs.RestoreOf(t.tables, r);
  }
}
