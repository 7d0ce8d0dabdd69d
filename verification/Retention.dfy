/**
 Scheduled retention keeps seven distinct UTC days. A candidate list may be arbitrarily stale: each
 admission repeats the policy under the admission lock, and that alone protects the newest days.
 */
module Retention {
  import opened Prelude
  import opened BackupRecords
  import opened BackupMachine
  import opened BackupInvariants
  import opened BackupProofs
  import opened BackupTheorems

  const KEPT: nat := 7

  /** The newest seven of a set of days: those with fewer than seven later ones. */
  ghost function Newest(days: set<nat>): set<nat> {
    set d | d in days && |Later(days, d)| < KEPT
  }

  ghost function Oldest(days: set<nat>): (m: nat)
    requires days != {}
    ensures m in days && forall d :: d in days ==> m <= d
    decreases |days|
  {
    var x :| x in days;
    if days == {x} then x
    else
      assert days - {x} != {} by { assert days == days - {x} + {x}; }
      var m := Oldest(days - {x});
      assert forall d :: d in days ==> d == x || d in days - {x};
      if m < x then m else x
  }

  /** There are exactly seven of them, or all when there are fewer days. */
  lemma {:induction false} NewestCount(days: set<nat>)
    ensures |Newest(days)| == Min(KEPT, |days|)
    decreases |days|
  {
    if days == {} {
      assert Newest(days) == {};
    } else {
      var m := Oldest(days);
      var rest := days - {m};
      NewestCount(rest);
      assert Later(days, m) == rest;
      forall d | d in rest ensures Later(days, d) == Later(rest, d) {}
      var oldest := if |rest| < KEPT then {m} else {};
      forall d ensures d in Newest(days) <==> d in Newest(rest) + oldest {
        assert d in days <==> d == m || d in rest;
      }
      assert Newest(days) == Newest(rest) + oldest;
    }
  }

  /** Days later than one of the newest are newest too: the seven are the last seven. */
  lemma NewestAreLatest(days: set<nat>, d: nat, e: nat)
    requires d in Newest(days) && e in days && e >= d
    ensures e in Newest(days)
  {
    SubsetCard(Later(days, e), Later(days, d));
  }

  /** Dropping a day that has seven later ones leaves the newest seven as they were. */
  lemma DroppingOldKeepsNewest(days: set<nat>, less: set<nat>, day: nat)
    requires less <= days && days <= less + {day}
    requires |Later(days, day)| >= KEPT
    ensures Newest(less) == Newest(days)
  {
    forall d | d in Newest(days) ensures d in Newest(less) {
      SubsetCard(Later(less, d), Later(days, d));
    }
    forall d | d in Newest(less) ensures d in Newest(days) {
      if day > d {
        assert Later(days, day) <= Later(less, d);
        SubsetCard(Later(days, day), Later(less, d));
        assert false;
      } else {
        assert Later(days, d) == Later(less, d);
      }
    }
  }

  /** The series' newest days, and the fact that each backup on them still counts. */
  ghost predicate SameNewest(before: map<Id, Backup>, after: map<Id, Backup>, series: Admitted) {
    && Newest(Days(after, series)) == Newest(Days(before, series))
    && forall o :: Kept(before, after, series, o)
  }

  ghost predicate Kept(before: map<Id, Backup>, after: map<Id, Backup>, series: Admitted, o: Id) {
    o in before && Counts(before[o], series) && Day(before[o].facts) in Newest(Days(before, series))
    ==> o in after && Counts(after[o], series) && after[o].facts == before[o].facts
  }

  /** One retention admission, whatever selected the candidate, keeps the seven newest days of every series. */
  lemma ExpiryKeepsNewest(s: State, id: Id, backup: Id, series: Admitted)
    ensures SameNewest(s.backups, ExpireBackupStep(s, id, backup).backups, series)
  {
    var t := ExpireBackupStep(s, id, backup);
    if t != s {
      var facts := s.backups[backup].facts;
      var before, after := Days(s.backups, series), Days(t.backups, series);
      assert forall o :: o in s.backups && o != backup ==> t.backups[o] == s.backups[o];
      if SameSeries(facts, series) {
        assert Days(s.backups, facts) == before;
        assert after <= before;
        assert before <= after + {Day(facts)};
        DroppingOldKeepsNewest(before, after, Day(facts));
        assert Day(facts) !in Newest(before);
      } else {
        assert after == before;
      }
    }
  }

  /** The step leaves every backup's availability, and hence every series' days, alone. */
  ghost predicate SameAvailability(a: map<Id, Backup>, b: map<Id, Backup>) {
    forall o :: SameAvailable(a, b, o)
  }

  predicate SameAvailable(a: map<Id, Backup>, b: map<Id, Backup>, o: Id) {
    && (o in a ==> o in b && b[o].facts == a[o].facts && b[o].state.Available? == a[o].state.Available?)
    && (o in b && o !in a ==> !b[o].state.Available?)
  }

  lemma SameAvailabilityKeepsNewest(a: map<Id, Backup>, b: map<Id, Backup>, series: Admitted)
    requires SameAvailability(a, b)
    ensures SameNewest(a, b, series)
  {
    forall o ensures (o in a && Counts(a[o], series)) <==> (o in b && Counts(b[o], series)) {
      assert SameAvailable(a, b, o);
    }
    forall o | o in a && Counts(a[o], series) ensures Day(a[o].facts) in Days(b, series) {
      assert SameAvailable(a, b, o);
      assert Day(b[o].facts) in Days(b, series);
    }
    forall o | o in b && Counts(b[o], series) ensures Day(b[o].facts) in Days(a, series) {
      assert SameAvailable(a, b, o);
      assert Day(a[o].facts) in Days(a, series);
    }
    assert Days(a, series) == Days(b, series);
    forall o ensures Kept(a, b, series, o) {
      assert SameAvailable(a, b, o);
    }
  }

  /** New captures move the window and customers may purge; everything else is neutral or retention. */
  predicate Neutral(e: Event) {
    !(e.UploadFound? || e.RecoveryFound? || e.RequestPurge? || e.ExpireBackup?)
  }

  predicate OneRowSameAvailability(a: map<Id, Backup>, b: map<Id, Backup>, id: Id) {
    id in a && id in b && b == a[id := b[id]] && SameAvailable(a, b, id)
  }

  lemma OneRowIsAll(a: map<Id, Backup>, b: map<Id, Backup>, id: Id)
    requires OneRowSameAvailability(a, b, id)
    ensures SameAvailability(a, b)
  {
  }

  lemma NeutralChoice(s: State, id: Id, w: Work, e: Event)
    requires id in s.backups && s.backups[id].work == w
    requires !w.Stored? ==> s.backups[id].state.Pending?
    ensures var b := CaptureChoice(s, id, w, e).backups;
            id in b && b[id].state.Available? == s.backups[id].state.Available?
  {
    assert forall next, effect :: SaveAndCall(s, id, next, effect).backups[id].state == s.backups[id].state;
  }

  lemma NeutralAnswer(s: State, id: Id, w: Work, called: Effect, e: Event)
    requires id in s.backups && s.backups[id].work == w && Neutral(e)
    ensures var b := CaptureAnswer(s, id, w, called, e).backups;
            id in b && b[id].state.Available? == s.backups[id].state.Available?
  {
  }

  lemma NeutralCapture(s: State, e: Event)
    requires Inv(s) && s.worker.Running? && s.worker.job.CaptureJob? && Neutral(e)
    ensures OneRowSameAvailability(s.backups, WorkerStep(s, e).backups, s.worker.job.backup)
  {
    var id, w := s.worker.job.backup, s.worker.job.work;
    RowOf(s, id);
    var calls, puts, deletes := Calls(s.log, id), Count(s.log, Put(id)), Count(s.log, Delete(id));
    if s.worker.at.Choose? {
      CaptureChoiceRow(s, id, w, e, calls, puts, deletes);
      NeutralChoice(s, id, w, e);
    } else if s.worker.at.Called? {
      CaptureAnswerRow(s, id, w, s.worker.at.effect, e, calls, puts, deletes);
      NeutralAnswer(s, id, w, s.worker.at.effect, e);
    }
  }

  lemma NeutralRestore(s: State, r: Id, w: RestoreWork, ready: bool, called: Effect, e: Event)
    requires r in s.restores && s.restores[r].backup in s.backups
    ensures OneRowSameAvailability(s.backups, RestoreAnswer(s, r, w, ready, called, e).backups, s.restores[r].backup)
  {
  }

  lemma NeutralDeletion(s: State, p: Id, e: Event)
    requires p in s.purges && PurgeOk(p, s.purges[p], s.backups, s.clock)
    requires s.worker.Running? && s.worker.job == DeleteJob(p)
    ensures OneRowSameAvailability(s.backups, WorkerStep(s, e).backups, s.purges[p].backup)
  {
    if s.worker.at.Called? && e.DeleteReply? {
      assert DeleteAnswer(s, p, e.outcome).backups == s.backups;
    }
  }

  lemma NeutralWorker(s: State, e: Event)
    requires Inv(s) && s.worker.Running? && Neutral(e)
    ensures SameAvailability(s.backups, WorkerStep(s, e).backups)
  {
    match s.worker.job
    case CaptureJob(id, _) =>
      NeutralCapture(s, e);
      OneRowIsAll(s.backups, WorkerStep(s, e).backups, id);
    case RestoreJob(r, _, _) =>
      NeutralRestoreRun(s, r, e);
    case DeleteJob(p) =>
      PurgeOf(s, p);
      NeutralDeletion(s, p, e);
      OneRowIsAll(s.backups, WorkerStep(s, e).backups, s.purges[p].backup);
    case RecoverJob(_, _, _) =>
      assert WorkerStep(s, e) == s;
  }

  lemma NeutralRestoreRun(s: State, r: Id, e: Event)
    requires Inv(s) && s.worker.Running? && s.worker.job.RestoreJob? && s.worker.job.restore == r
    ensures SameAvailability(s.backups, WorkerStep(s, e).backups)
  {
    RestoreOf(s, r);
    var w, ready := s.worker.job.restoring, s.worker.job.ready;
    if s.worker.at.Called? {
      NeutralRestore(s, r, w, ready, s.worker.at.effect, e);
      OneRowIsAll(s.backups, RestoreAnswer(s, r, w, ready, s.worker.at.effect, e).backups, s.restores[r].backup);
    } else {
      if s.worker.at.Choose? { RestoreChoiceMoves(s, r, w, ready, e); }
      assert WorkerStep(s, e).backups == s.backups;
    }
  }

  lemma NeutralElsewhere(s: State, e: Event)
    requires e.AdmitRestore? || IsBegin(e) || e.Call? || e.Tick? || IsMachineEvent(e) || e.Abandon?
    ensures Apply(s, e).backups == s.backups
  {
  }

  lemma NeutralStep(s: State, e: Event)
    requires Inv(s) && Neutral(e)
    ensures SameAvailability(s.backups, Apply(s, e).backups)
  {
    if e.AdmitBackup? {
    } else if e.AdmitRestore? || IsBegin(e) || e.Call? || e.Tick? || IsMachineEvent(e) || e.Abandon? {
      NeutralElsewhere(s, e);
    } else if s.worker.Running? {
      NeutralWorker(s, e);
    }
  }

  /**
   Over every run without a new capture or a customer purge, with any number of retention admissions of any
   candidates between any other events, the seven newest days of every series and their backups remain.
   */
  lemma {:induction false} RetentionKeepsSevenDays(s: State, events: seq<Event>, series: Admitted)
    requires Inv(s)
    requires forall i :: 0 <= i < |events| ==> Neutral(events[i]) || events[i].ExpireBackup?
    ensures SameNewest(s.backups, Run(s, events).backups, series)
    decreases |events|
  {
    if events != [] {
      var before, e := events[..|events| - 1], events[|events| - 1];
      RetentionKeepsSevenDays(s, before, series);
      RunKeepsInv(s, before);
      var mid := Run(s, before);
      if e.ExpireBackup? {
        ExpiryKeepsNewest(mid, e.id, e.backup, series);
      } else {
        NeutralStep(mid, e);
        SameAvailabilityKeepsNewest(mid.backups, Apply(mid, e).backups, series);
      }
      SameNewestTransitive(s.backups, mid.backups, Apply(mid, e).backups, series);
    }
  }

  lemma SameNewestTransitive(a: map<Id, Backup>, b: map<Id, Backup>, c: map<Id, Backup>, series: Admitted)
    requires SameNewest(a, b, series) && SameNewest(b, c, series)
    ensures SameNewest(a, c, series)
  {
    forall o ensures Kept(a, c, series, o) {
      assert Kept(a, b, series, o) && Kept(b, c, series, o);
    }
  }
}
