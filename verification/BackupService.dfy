/**
 The backup services as they run: methods that read rows, write rows and await replies, over tables
 that other processes keep changing. Each method is proved to be a run of the state machine, so every
 theorem about reachable states holds between any two of its steps, and at a crash in any of them.
 */
module BackupService {
  import opened Prelude
  import opened BackupRecords
  import opened BackupMachine
  import opened BackupInvariants
  import opened BackupProofs
  import opened BackupTheorems
  import opened BackupLaws

  datatype Refusal = Unauthenticated | IdempotencyConflict | NotFound | PermissionDenied | ResourceBusy | QuotaExceeded

  datatype RecoveryOutcome = Missing | VersionConflict | AlreadyStored | NotResolvable | Unresolved | Recovered

  /** Died: the process stopped after its save, before the call. Lost: called, and no usable reply. */
  datatype Reply<+T> = Died | Lost | Got(value: T)

  /** What an awaited call leaves in the record of calls. */
  function Made<T>(reply: Reply<T>, e: Effect): seq<Effect> {
    if reply.Died? then [] else [e]
  }

  datatype CaptureReplies = CaptureReplies(
    mayCapture: bool, captured: Reply<Captured>,
    mayRead: bool, read: Reply<(Encryption, Intent)>,
    uploaded: Reply<Id>, recovered: Reply<Id>, removed: Reply<bool>)

  predicate Matches(id: Id, facts: Admitted, c: Captured) {
    c.id == id && c.recipe == facts.recipe && c.bytes <= facts.maxBytes
  }

  predicate Sealable(id: Id, facts: Admitted, c: Captured, r: (Encryption, Intent)) {
    && r.0.ciphertextBytes <= facts.maxBytes && r.1 == Intent(id, r.0.ciphertextBytes)
    && r.0.plaintextBytes == c.bytes && r.0.plaintextSha256 == c.sha256
  }

  predicate SameRequest(f: Admitted, account: Id, machine: Id, recipe: Recipe) {
    f.account == account && f.machine == machine && f.recipe == recipe
  }

  datatype RestoreReplies = RestoreReplies(
    progress: Progress, mayRestore: bool, keyring: bool, downloaded: Reply<bool>, maySubmit: bool,
    guest: Reply<GuestReply>, inspected: Reply<GuestReply>)

  predicate WouldRestore(w: RestoreWork, ready: bool, r: RestoreReplies) {
    ready &&
    if w.Submitted? then w.attempts < ATTEMPTS && r.inspected == Got(GuestRestored)
    else
      && (if w.Waiting? then r.progress.Succeeded? else w.Prepare? && w.attempts < ATTEMPTS)
      && r.mayRestore && r.keyring && r.downloaded.Got? && r.maySubmit && r.guest == Got(GuestRestored)
  }

  predicate Restorable(t: Restore, machines: map<Id, Machine>, r: RestoreReplies) {
    && t.state.RestorePending? && t.machine in machines
    && WouldRestore(t.work, machines[t.machine].ready, r)
  }

  /** The guest's reply names the backup, its recipe and no more bytes than admitted. */
  predicate Captures(id: Id, facts: Admitted, reply: Reply<Captured>) {
    reply.Got? && reply.value.id == id && reply.value.recipe == facts.recipe && reply.value.bytes <= facts.maxBytes
  }

  /** What was read and sealed is what was captured, and its intent names this backup and the sealed size. */
  predicate Reads(id: Id, facts: Admitted, c: Captured, reply: Reply<(Encryption, Intent)>) {
    && reply.Got?
    && reply.value.0.ciphertextBytes <= facts.maxBytes && reply.value.1 == Intent(id, reply.value.0.ciphertextBytes)
    && reply.value.0.plaintextBytes == c.bytes && reply.value.0.plaintextSha256 == c.sha256
  }

  /** Nothing refuses, is lost or dies from this phase on, and no phase entered has used its attempts up. */
  predicate Cooperative(id: Id, facts: Admitted, w: Work, r: CaptureReplies) {
    match w
    case Capture(n) =>
      && n < ATTEMPTS && r.mayCapture && r.captured.Got? && Matches(id, facts, r.captured.value)
      && r.mayRead && r.read.Got? && Sealable(id, facts, r.captured.value, r.read.value)
      && r.uploaded.Got? && r.removed.Got?
    case Encrypt(c, n) =>
      && n < ATTEMPTS && r.mayRead && r.read.Got? && Sealable(id, facts, c, r.read.value)
      && r.uploaded.Got? && r.removed.Got?
    case UploadReady(_) => r.uploaded.Got? && r.removed.Got?
    case UploadSubmitted(_, n) => n < ATTEMPTS && r.recovered.Got? && r.removed.Got?
    case Stored(_, _, cleaned, n) => cleaned || (n < ATTEMPTS && r.removed.Got?)
  }

  lemma RunAppends(s: State, events: seq<Event>, e: Event)
    ensures Run(s, events + [e]) == Apply(Run(s, events), e)
  {
    assert (events + [e])[..|events|] == events;
  }

  lemma {:induction false} RunSplits(s: State, first: seq<Event>, rest: seq<Event>)
    ensures Run(s, first + rest) == Run(Run(s, first), rest)
    decreases |rest|
  {
    if rest == [] {
      assert first + rest == first;
    } else {
      var n := |rest| - 1;
      RunSplits(s, first, rest[..n]);
      assert (first + rest)[..|first + rest| - 1] == first + rest[..n];
      assert (first + rest)[|first + rest| - 1] == rest[n];
    }
  }

  lemma LeadsAppend(s: State, events: seq<Event>, t: State, e: Event)
    requires Leads(s, events, t)
    ensures Leads(s, events + [e], Apply(t, e))
  {
    LedTo(s, events, t);
    RunAppends(s, events, e);
  }

  lemma LeadsOn(s: State, first: seq<Event>, mid: State, events: seq<Event>, t: State)
    requires Leads(s, first, mid) && Leads(s, events, t) && first <= events
    ensures t == Run(mid, events[|first|..])
  {
    LedTo(s, first, mid);
    LedTo(s, events, t);
    assert events == first + events[|first|..];
    RunSplits(s, first, events[|first|..]);
  }

  /** Events that only the lock holder's own code produces. */
  predicate IsWork(e: Event) {
    !IsOther(e) && !IsBegin(e) && !e.Call? && !e.Abandon?
  }

  lemma WorkIsWorkerStep(s: State, e: Event)
    requires IsWork(e) && s.worker.Running?
    ensures Apply(s, e) == WorkerStep(s, e)
  {
  }

  lemma CallOnlyLogs(s: State)
    requires s.worker.Running? && s.worker.at.Due?
    ensures var t := Apply(s, Call);
            t == s.(worker := Running(s.worker.job, Called(s.worker.at.effect)), log := s.log + [s.worker.at.effect],
                    objects := t.objects)
  {
  }

  /** The worker's own columns are safe from everything that does not hold its lock. */
  ghost predicate WorkKept(a: map<Id, Backup>, b: map<Id, Backup>) {
    forall o :: o in a ==> o in b && b[o].work == a[o].work && b[o].facts == a[o].facts
  }

  /** A transaction of another process may only take a captured backup into a purge. */
  ghost predicate StatesKept(a: map<Id, Backup>, b: map<Id, Backup>) {
    forall o :: o in a ==> o in b && (b[o] == a[o] || (a[o].state.Available? && b[o].state.PurgePending?))
  }

  ghost predicate PurgesKept(a: map<Id, Purge>, b: map<Id, Purge>) {
    forall p :: p in a ==> p in b && b[p] == a[p]
  }

  ghost predicate RestoresKept(a: map<Id, Restore>, b: map<Id, Restore>) {
    forall r :: r in a ==> r in b && b[r] == a[r]
  }

  lemma OtherKeepsWork(s: State, e: Event)
    requires IsOther(e)
    ensures var t := Apply(s, e);
            t.worker == s.worker && t.log == s.log && t.objects == s.objects
            && StatesKept(s.backups, t.backups) && WorkKept(s.backups, t.backups) && RestoresKept(s.restores, t.restores)
            && PurgesKept(s.purges, t.purges)
  {
    if IsAdmission(e) { AdmissionKeepsWork(s, e); }
  }

  lemma AdmissionKeepsWork(s: State, e: Event)
    requires IsAdmission(e)
    ensures var t := AdmissionStep(s, e);
            t.worker == s.worker && t.log == s.log && t.objects == s.objects
            && StatesKept(s.backups, t.backups) && WorkKept(s.backups, t.backups) && RestoresKept(s.restores, t.restores)
            && PurgesKept(s.purges, t.purges)
  {
    if (e.RequestPurge? || e.ExpireBackup?) && e.backup in s.backups && s.backups[e.backup].state.Available? && e.id !in s.purges {
      PurgeKeepsWork(s, e.id, e.backup, e.ExpireBackup?);
    }
  }

  lemma PurgeKeepsWork(s: State, id: Id, backup: Id, retention: bool)
    requires backup in s.backups && s.backups[backup].state.Available? && id !in s.purges
    ensures var t := AdmitPurge(s, id, backup, retention);
            t.worker == s.worker && t.log == s.log && t.objects == s.objects
            && StatesKept(s.backups, t.backups) && WorkKept(s.backups, t.backups) && RestoresKept(s.restores, t.restores)
            && PurgesKept(s.purges, t.purges)
  {
  }

  lemma {:induction false} OthersKeepWork(s: State, events: seq<Event>)
    requires forall i :: 0 <= i < |events| ==> IsOther(events[i])
    ensures var t := Run(s, events);
            t.worker == s.worker && t.log == s.log && t.objects == s.objects
            && StatesKept(s.backups, t.backups) && WorkKept(s.backups, t.backups) && RestoresKept(s.restores, t.restores)
            && PurgesKept(s.purges, t.purges)
    decreases |events|
  {
    if events != [] {
      var n := |events| - 1;
      OthersKeepWork(s, events[..n]);
      OtherKeepsWork(Run(s, events[..n]), events[n]);
    }
  }

  lemma DaysPick(m: map<Id, Backup>, series: Admitted, o: Id)
    requires o in m
    ensures Days(m, series) == Days(m - {o}, series) + if Counts(m[o], series) then {Day(m[o].facts)} else {}
  {
    forall d | d in Days(m, series) && !(Counts(m[o], series) && d == Day(m[o].facts)) ensures d in Days(m - {o}, series) {
      var x :| x in m && Counts(m[x], series) && Day(m[x].facts) == d;
      assert x in m - {o};
    }
  }

  ghost function LaterDays(m: map<Id, Backup>, series: Admitted): set<nat> {
    Later(Days(m, series), Day(series))
  }

  lemma LaterPick(m: map<Id, Backup>, series: Admitted, o: Id)
    requires o in m
    ensures LaterDays(m, series) == LaterDays(m - {o}, series)
              + if Counts(m[o], series) && Day(m[o].facts) > Day(series) then {Day(m[o].facts)} else {}
  {
    DaysPick(m, series, o);
  }

  lemma RecentPick(m: map<Id, Backup>, clock: nat, account: Id, id: Id)
    requires id in m
    ensures |RecentAdmissions(m, clock, account)|
         == |RecentAdmissions(m - {id}, clock, account)| + if Recent(m[id], clock, account) then 1 else 0
  {
    var fewer := RecentAdmissions(m - {id}, clock, account);
    assert RecentAdmissions(m, clock, account) == fewer + if Recent(m[id], clock, account) then {id} else {};
  }

  class BackupControl {
    const config: Config
    var clock: nat
    var backups: map<Id, Backup>
    var restores: map<Id, Restore>
    var purges: map<Id, Purge>
    var machines: map<Id, Machine>
    ghost const origin: State
    ghost var model: State
    ghost var history: seq<Event>

    /** The rows are what the machine reached from empty tables through the recorded history. */
    ghost predicate Valid()
      reads this
    {
      && Initial(origin) && Leads(origin, history, model)
      && model.config == config && model.clock == clock && model.backups == backups
      && model.restores == restores && model.purges == purges && model.machines == machines
    }

    constructor (config: Config)
      ensures Valid() && model.worker == Idle && backups == map[]
    {
      this.config := config;
      clock, backups, restores, purges, machines := 0, map[], map[], map[], map[];
      origin := State(config, 0, map[], map[], map[], map[], map[], Idle, []);
      model, history := State(config, 0, map[], map[], map[], map[], map[], Idle, []), [];
    }

    /** Hence every theorem about reachable states holds of the tables, at every point of every method. */
    lemma Consistent()
      requires Valid()
      ensures Reachable(model) && Inv(model)
    {
      ReachableInv(model);
    }

    ghost method Track(e: Event)
      requires Leads(origin, history, model)
      modifies this`model, this`history
      ensures model == Apply(old(model), e) && history == old(history) + [e]
      ensures Leads(origin, history, model)
    {
      LeadsAppend(origin, history, model, e);
      model, history := Apply(model, e), history + [e];
    }

    /**
     Whatever other processes commit between two of our statements. Callers know only this contract:
     some events that need no worker lock. (An empty body is one of the behaviours it allows.)
     */
    method Interfere()
      requires Valid()
      modifies this
      ensures Valid() && old(history) <= history
      ensures forall i :: |old(history)| <= i < |history| ==> IsOther(history[i])
    {
    }

    /** An await outside a transaction: others may commit, our columns stay. */
    method Yield()
      requires Valid()
      modifies this
      ensures Valid() && old(history) <= history
      ensures model.worker == old(model.worker) && model.log == old(model.log)
      ensures StatesKept(old(backups), backups) && WorkKept(old(backups), backups)
      ensures RestoresKept(old(restores), restores) && PurgesKept(old(purges), purges)
    {
      Interfere();
      LeadsOn(origin, old(history), old(model), history, model);
      OthersKeepWork(old(model), history[|old(history)|..]);
    }

    /** The lock is released when a run returns, throws or dies. */
    method Leave()
      requires Valid()
      modifies this`model, this`history
      ensures Valid() && old(history) <= history
      ensures model == Release(old(model))
    {
      Track(Abandon);
    }

    ghost method Issue()
      requires Valid() && model.worker.Running? && model.worker.at.Due?
      modifies this`model, this`history
      ensures Valid() && old(history) <= history
      ensures model.worker == Running(old(model.worker.job), Called(old(model.worker.at.effect)))
      ensures model.log == old(model.log) + [old(model.worker.at.effect)]
    {
      CallOnlyLogs(model);
      Track(Call);
    }

    /** The awaited call of a saved step. */
    method Await<T>(reply: Reply<T>) returns (got: bool)
      requires Valid() && model.worker.Running? && model.worker.at.Due?
      modifies this
      ensures Valid() && old(history) <= history
      ensures got <==> reply.Got?
      ensures model.worker == if got then Running(old(model.worker.job), Called(old(model.worker.at.effect))) else Idle
      ensures model.log == old(model.log) + Made(reply, old(model.worker.at.effect))
      ensures StatesKept(old(backups), backups) && WorkKept(old(backups), backups)
      ensures RestoresKept(old(restores), restores) && PurgesKept(old(purges), purges)
    {
      if reply.Died? {
        Leave();
        return false;
      }
      Yield();
      Issue();
      Yield();
      if reply.Lost? {
        Leave();
        return false;
      }
      return true;
    }

    // ---- capture, encrypt, upload

    /** Where a run of advanceCapture stands, or that it ended. */
    ghost predicate At(id: Id, w: Option<Work>)
      reads this
    {
      && id in backups
      && (w.None? ==> model.worker == Idle)
      && (w.Some? ==> model.worker == Running(CaptureJob(id, w.value), Choose) && backups[id].work == w.value)
    }

    method Block(id: Id, ghost w: Work, ghost e: Event)
      requires Valid() && At(id, Some(w)) && IsWork(e) && CaptureChoice(model, id, w, e) == BlockBackup(model, id)
      modifies this
      ensures Valid() && old(history) <= history && At(id, None)
      ensures WorkKept(old(backups), backups) && backups[id].state == Blocked
      ensures model.log == old(model.log)
    {
      backups := backups[id := backups[id].(state := Blocked)];
      WorkIsWorkerStep(model, e);
      Track(e);
    }

    method Save(id: Id, ghost w: Work, next: Work, ghost e: Event, ghost effect: Effect)
      requires Valid() && At(id, Some(w)) && IsWork(e)
      requires CaptureChoice(model, id, w, e) == SaveAndCall(model, id, next, effect)
      modifies this
      ensures Valid() && old(history) <= history
      ensures backups == old(backups)[id := old(backups)[id].(work := next)] && restores == old(restores)
      ensures model.worker == Running(CaptureJob(id, next), Due(effect)) && model.log == old(model.log)
    {
      backups := backups[id := backups[id].(work := next)];
      WorkIsWorkerStep(model, e);
      Track(e);
    }

    method Progress(id: Id, ghost w: Work, next: Work, ghost e: Event, ghost effect: Effect)
      requires Valid() && id in backups && IsWork(e)
      requires model.worker == Running(CaptureJob(id, w), Called(effect))
      requires CaptureAnswer(model, id, w, effect, e) == SaveAndGoOn(model, id, next)
      modifies this
      ensures Valid() && old(history) <= history && At(id, Some(next))
      ensures backups == old(backups)[id := old(backups)[id].(work := next)]
      ensures model.log == old(model.log)
    {
      backups := backups[id := backups[id].(work := next)];
      WorkIsWorkerStep(model, e);
      Track(e);
    }

    method CapturePhase(id: Id, w: Work, may: bool, reply: Reply<Captured>) returns (next: Option<Work>)
      requires Valid() && At(id, Some(w)) && w.Capture?
      modifies this
      ensures Valid() && old(history) <= history && At(id, next)
      ensures OthersKept(old(backups), backups, id)
      ensures next == if w.attempts < 5 && may && reply.Got?
                         && reply.value.id == id && reply.value.recipe == old(backups)[id].facts.recipe
                         && reply.value.bytes <= old(backups)[id].facts.maxBytes
                      then Some(Encrypt(reply.value, 0)) else None
      ensures w.attempts < 5 && may && next.None? ==> backups[id].work == Capture(w.attempts + 1)
      ensures w.attempts < 5 && may && old(backups)[id].state.Pending? ==> backups[id].state.Pending?
      ensures w.attempts >= 5 || !may ==> backups[id].work == w && backups[id].state.Blocked?
      ensures model.log == old(model.log) + if w.attempts < 5 && may then Made(reply, GuestCapture(id)) else []
    {
      if w.attempts >= ATTEMPTS || !may {
        Block(id, w, StartCapture(may));
        return None;
      }
      Save(id, w, Capture(w.attempts + 1), StartCapture(true), GuestCapture(id));
      var got := Await(reply);
      if !got { return None; }
      next := AcceptCapture(id, Capture(w.attempts + 1), reply.value);
    }

    method AcceptCapture(id: Id, w: Work, captured: Captured) returns (next: Option<Work>)
      requires Valid() && id in backups && backups[id].work == w && w.Capture?
      requires model.worker == Running(CaptureJob(id, w), Called(GuestCapture(id)))
      modifies this
      ensures Valid() && old(history) <= history && At(id, next) && OthersKept(old(backups), backups, id)
      ensures next == if Matches(id, old(backups)[id].facts, captured) then Some(Encrypt(captured, 0)) else None
      ensures model.log == old(model.log)
      ensures backups[id].state == old(backups)[id].state
      ensures next.None? ==> backups[id].work == w
    {
      if !Matches(id, backups[id].facts, captured) {
        Leave();
        return None;
      }
      Progress(id, w, Encrypt(captured, 0), CaptureReply(captured), GuestCapture(id));
      return Some(Encrypt(captured, 0));
    }
  
    method ReadPhase(id: Id, w: Work, may: bool, reply: Reply<(Encryption, Intent)>) returns (next: Option<Work>)
      requires Valid() && At(id, Some(w)) && w.Encrypt?
      modifies this
      ensures Valid() && old(history) <= history && At(id, next)
      ensures OthersKept(old(backups), backups, id)
      ensures next == if w.attempts < 5 && may && reply.Got?
                         && reply.value.0.ciphertextBytes <= old(backups)[id].facts.maxBytes
                         && reply.value.1 == Intent(id, reply.value.0.ciphertextBytes)
                         && reply.value.0.plaintextBytes == w.capture.bytes
                         && reply.value.0.plaintextSha256 == w.capture.sha256
                      then Some(UploadReady(Sealed(w.capture, reply.value.0, reply.value.1))) else None
      ensures w.attempts < 5 && may && next.None? ==> backups[id].work == Encrypt(w.capture, w.attempts + 1)
      ensures w.attempts < 5 && may && old(backups)[id].state.Pending? ==> backups[id].state.Pending?
      ensures w.attempts >= 5 || !may ==> backups[id].work == w && backups[id].state.Blocked?
      ensures model.log == old(model.log) + if w.attempts < 5 && may then Made(reply, GuestRead(id)) else []
    {
      if w.attempts >= ATTEMPTS || !may {
        Block(id, w, StartRead(may));
        return None;
      }
      Save(id, w, Encrypt(w.capture, w.attempts + 1), StartRead(true), GuestRead(id));
      var got := Await(reply);
      if !got { return None; }
      next := AcceptRead(id, Encrypt(w.capture, w.attempts + 1), reply.value);
    }

    method AcceptRead(id: Id, w: Work, r: (Encryption, Intent)) returns (next: Option<Work>)
      requires Valid() && id in backups && backups[id].work == w && w.Encrypt?
      requires model.worker == Running(CaptureJob(id, w), Called(GuestRead(id)))
      modifies this
      ensures Valid() && old(history) <= history && At(id, next) && OthersKept(old(backups), backups, id)
      ensures next == if Sealable(id, old(backups)[id].facts, w.capture, r)
                      then Some(UploadReady(Sealed(w.capture, r.0, r.1))) else None
      ensures model.log == old(model.log)
      ensures backups[id].state == old(backups)[id].state
      ensures next.None? ==> backups[id].work == w
    {
      if !Sealable(id, backups[id].facts, w.capture, r) {
        Leave();
        return None;
      }
      var sealed := UploadReady(Sealed(w.capture, r.0, r.1));
      Progress(id, w, sealed, ReadReply(r.0, r.1), GuestRead(id));
      return Some(sealed);
    }

    /** saveStored: the receipt, its exact reservation and the captured record in one update. */
    method SaveStoredWork(id: Id, envelope: Sealed, version: Id) returns (next: Work)
      requires Valid() && id in backups && backups[id].work.UploadSubmitted? && backups[id].work.envelope == envelope
      requires model.worker == Running(CaptureJob(id, backups[id].work), Called(Put(id)))
            || model.worker == Running(CaptureJob(id, backups[id].work), Called(Recover(id)))
      modifies this
      ensures Valid() && old(history) <= history && At(id, Some(next)) && OthersKept(old(backups), backups, id)
      ensures next == Stored(envelope, Receipt(id, envelope.intent.size, version), false, 0)
      ensures backups[id].state == Available(false) && backups[id].reserved == envelope.intent.size
      ensures model.log == old(model.log)
    {
      next := Stored(envelope, Receipt(id, envelope.intent.size, version), false, 0);
      backups := backups[id := backups[id].(work := next, reserved := next.receipt.size, state := Available(false))];
      Track(UploadFound(version));
    }

    /** Submission is saved before the PUT; after any other outcome than a receipt only recovery remains. */
    method UploadPhase(id: Id, w: Work, reply: Reply<Id>) returns (next: Option<Work>)
      requires Valid() && At(id, Some(w)) && w.UploadReady?
      modifies this
      ensures Valid() && old(history) <= history && At(id, next)
      ensures OthersKept(old(backups), backups, id)
      ensures next == if reply.Got?
                      then Some(Stored(w.envelope, Receipt(id, w.envelope.intent.size, reply.value), false, 0)) else None
      ensures next.None? ==> backups[id].work == UploadSubmitted(w.envelope, 0)
      ensures next.None? && old(backups)[id].state.Pending? ==> backups[id].state.Pending?
      ensures model.log == old(model.log) + Made(reply, Put(id))
    {
      Save(id, w, UploadSubmitted(w.envelope, 0), SubmitUpload, Put(id));
      next := AwaitReceipt(id, UploadSubmitted(w.envelope, 0), Put(id), reply);
    }

    method RecoverPhase(id: Id, w: Work, reply: Reply<Id>) returns (next: Option<Work>)
      requires Valid() && At(id, Some(w)) && w.UploadSubmitted?
      modifies this
      ensures Valid() && old(history) <= history && At(id, next)
      ensures OthersKept(old(backups), backups, id)
      ensures next == if w.attempts < 5 && reply.Got?
                      then Some(Stored(w.envelope, Receipt(id, w.envelope.intent.size, reply.value), false, 0)) else None
      ensures next.None? && w.attempts < 5 ==> backups[id].work == UploadSubmitted(w.envelope, w.attempts + 1)
      ensures next.None? && w.attempts < 5 && old(backups)[id].state.Pending? ==> backups[id].state.Pending?
      ensures w.attempts >= 5 ==> backups[id].work == w && backups[id].state.Blocked?
      ensures model.log == old(model.log) + if w.attempts < 5 then Made(reply, Recover(id)) else []
    {
      if w.attempts >= ATTEMPTS {
        Block(id, w, StartRecover);
        return None;
      }
      Save(id, w, UploadSubmitted(w.envelope, w.attempts + 1), StartRecover, Recover(id));
      next := AwaitReceipt(id, UploadSubmitted(w.envelope, w.attempts + 1), Recover(id), reply);
    }

    /** The receipt of a PUT, or of a lookup, is stored; without one the submission stands. */
    method AwaitReceipt(id: Id, w: Work, ghost effect: Effect, reply: Reply<Id>) returns (next: Option<Work>)
      requires Valid() && id in backups && backups[id].work == w && w.UploadSubmitted?
      requires effect == Put(id) || effect == Recover(id)
      requires model.worker == Running(CaptureJob(id, w), Due(effect))
      modifies this
      ensures Valid() && old(history) <= history && At(id, next)
      ensures OthersKept(old(backups), backups, id)
      ensures next == if reply.Got?
                      then Some(Stored(w.envelope, Receipt(id, w.envelope.intent.size, reply.value), false, 0)) else None
      ensures next.None? && old(backups)[id].state.Pending? ==> backups[id].state.Pending?
      ensures next.None? ==> backups[id].work == w
      ensures model.log == old(model.log) + Made(reply, effect)
    {
      var got := Await(reply);
      if !got { return None; }
      var stored := SaveStoredWork(id, w.envelope, reply.value);
      return Some(stored);
    }

    /** Guest staging of a stored backup is removed unless its machine is gone; then the run ends. */
    method CleanupPhase(id: Id, w: Work, reply: Reply<bool>)
      requires Valid() && At(id, Some(w)) && w.Stored?
      modifies this
      ensures Valid() && old(history) <= history && At(id, None)
      ensures OthersKept(old(backups), backups, id)
      ensures w.cleaned || w.attempts >= 5 ==> backups[id].work == w && model.log == old(model.log)
      ensures !w.cleaned && w.attempts < 5 ==>
                CleanupPassed(id, w.envelope, w.receipt, w.attempts, old(model.log), reply)
    {
      if w.cleaned || w.attempts >= ATTEMPTS {
        Leave();
        return;
      }
      Save(id, w, Stored(w.envelope, w.receipt, false, w.attempts + 1), StartCleanup, GuestRemove(id));
      RemoveStaging(id, Stored(w.envelope, w.receipt, false, w.attempts + 1), reply);
    }

    method RemoveStaging(id: Id, w: Work, reply: Reply<bool>)
      requires Valid() && id in backups && backups[id].work == w && w.Stored? && !w.cleaned
      requires model.worker == Running(CaptureJob(id, w), Due(GuestRemove(id)))
      modifies this
      ensures Valid() && old(history) <= history && At(id, None) && OthersKept(old(backups), backups, id)
      ensures w.attempts > 0 ==> CleanupPassed(id, w.envelope, w.receipt, w.attempts - 1, old(model.log), reply)
    {
      Yield();
      if Gone(machines, backups[id].facts.machine) {
        Skip(id);
      } else {
        var got := Await(reply);
        if !got { return; }
      }
      MarkCleaned(id, w);
    }

    ghost method Skip(id: Id)
      requires Valid() && id in backups && model.worker.Running? && model.worker.job.CaptureJob?
      requires model.worker.job.backup == id && model.worker.at == Due(GuestRemove(id))
      requires Gone(machines, backups[id].facts.machine)
      modifies this`model, this`history
      ensures Valid() && old(history) <= history
      ensures model.worker == Running(old(model.worker.job), Called(GuestRemove(id)))
      ensures model.log == old(model.log)
    {
      Track(SkipRemove);
    }

    method MarkCleaned(id: Id, w: Work)
      requires Valid() && id in backups && backups[id].work == w && w.Stored?
      requires model.worker == Running(CaptureJob(id, w), Called(GuestRemove(id)))
      modifies this
      ensures Valid() && old(history) <= history && At(id, None) && OthersKept(old(backups), backups, id)
      ensures backups[id].work == Stored(w.envelope, w.receipt, true, w.attempts)
      ensures model.log == old(model.log)
      ensures machines == old(machines)
    {
      backups := backups[id := backups[id].(work := Stored(w.envelope, w.receipt, true, w.attempts))];
      Track(CleanupDone);
    }

    ghost method EnterCapture(id: Id)
      requires Valid() && model.worker.Idle? && id in backups
      requires backups[id].state.Pending? || backups[id].state.Available?
      modifies this`model, this`history
      ensures Valid() && old(history) <= history && At(id, Some(backups[id].work))
      ensures model.log == old(model.log)
    {
      Track(BeginCapture(id));
    }

    /**
     advanceCapture: at most one pass through the phases that remain. A phase without authority or attempts blocks
     the backup where it stands; one whose call brings nothing usable spends its attempt and ends the pass.
     */
    method AdvanceCapture(id: Id, r: CaptureReplies)
      requires Valid() && model.worker.Idle?
      modifies this
      ensures Valid() && old(history) <= history && model.worker.Idle?
      ensures OthersKept(old(backups), backups, id)
      ensures id in old(backups) ==> RowMoves(old(backups), backups, id)
      ensures id in old(backups) && (old(backups)[id].state.Pending? || old(backups)[id].state.Available?)
              && Cooperative(id, old(backups)[id].facts, old(backups)[id].work, r)
              ==> backups[id].work.Stored? && backups[id].work.cleaned && Settled(backups[id].state)
      ensures id !in old(backups) || !(old(backups)[id].state.Pending? || old(backups)[id].state.Available?)
              ==> backups == old(backups) && model.log == old(model.log)
      ensures id in old(backups) && (old(backups)[id].state.Pending? || old(backups)[id].state.Available?)
              ==> Passed(id, old(backups)[id], old(model.log), r)
    {
      if id !in backups || !(backups[id].state.Pending? || backups[id].state.Available?) { return; }
      ghost var before, was := history, model;
      EnterCapture(id);
      StoredIsSettled(id);
      Phases(id, backups[id].work, r);
      Forwards(before, was);
      StoredIsSettled(id);
    }

    /** What one pass leaves of the backup, and which calls it made, when it begins in the phase of this row. */
    ghost predicate Passed(id: Id, was: Backup, log: seq<Effect>, r: CaptureReplies)
      reads this
    {
      && id in backups
      && var w, now := was.work, backups[id];
      match w
      case Capture(n) =>
        if n >= 5 || !r.mayCapture then now.work == w && now.state.Blocked? && model.log == log
        else if !Captures(id, was.facts, r.captured) then
          now.work == Capture(n + 1) && now.state == was.state && model.log == log + Made(r.captured, GuestCapture(id))
        else if !r.mayRead then
          now.work == Encrypt(r.captured.value, 0) && now.state.Blocked? && model.log == log + [GuestCapture(id)]
        else if !Reads(id, was.facts, r.captured.value, r.read) then
          && now.work == Encrypt(r.captured.value, 1) && now.state == was.state
          && model.log == log + [GuestCapture(id)] + Made(r.read, GuestRead(id))
        else UploadPassed(id, Sealed(r.captured.value, r.read.value.0, r.read.value.1),
                          log + [GuestCapture(id), GuestRead(id)], Put(id), r.uploaded, 0, r.removed)
      case Encrypt(c, n) =>
        if n >= 5 || !r.mayRead then now.work == w && now.state.Blocked? && model.log == log
        else if !Reads(id, was.facts, c, r.read) then
          now.work == Encrypt(c, n + 1) && now.state == was.state && model.log == log + Made(r.read, GuestRead(id))
        else UploadPassed(id, Sealed(c, r.read.value.0, r.read.value.1), log + [GuestRead(id)], Put(id), r.uploaded, 0, r.removed)
      case UploadReady(envelope) => UploadPassed(id, envelope, log, Put(id), r.uploaded, 0, r.removed)
      case UploadSubmitted(envelope, n) =>
        if n >= 5 then now.work == w && now.state.Blocked? && model.log == log
        else UploadPassed(id, envelope, log, Recover(id), r.recovered, n + 1, r.removed)
      case Stored(envelope, receipt, cleaned, n) =>
        && (cleaned || n >= 5 ==> now.work == w && model.log == log)
        && (!cleaned && n < 5 ==> CleanupPassed(id, envelope, receipt, n, log, r.removed))
    }

    /** The upload brought a receipt, which is kept and its staging cleaned up, or it stays submitted. */
    ghost predicate UploadPassed(id: Id, envelope: Sealed, log: seq<Effect>, effect: Effect, reply: Reply<Id>,
                                 attempts: nat, removed: Reply<bool>)
      reads this
    {
      && id in backups
      && if reply.Got?
         then CleanupPassed(id, envelope, Receipt(id, envelope.intent.size, reply.value), 0, log + [effect], removed)
         else
           && backups[id].work == UploadSubmitted(envelope, attempts) && backups[id].state.Pending?
           && model.log == log + Made(reply, effect)
    }

    /** Staging was removed, or found gone with its machine, or one attempt at it was spent. */
    ghost predicate CleanupPassed(id: Id, envelope: Sealed, receipt: Receipt, attempts: nat, log: seq<Effect>, removed: Reply<bool>)
      reads this
    {
      && id in backups
      && (backups[id].work == Stored(envelope, receipt, true, attempts + 1)
          || (backups[id].work == Stored(envelope, receipt, false, attempts + 1) && !removed.Got?))
      && (model.log == log + Made(removed, GuestRemove(id))
          || (model.log == log && backups[id].work.cleaned && backups[id].facts.machine in machines
              && machines[backups[id].facts.machine].destroyed))
    }

    method Phases(id: Id, w: Work, r: CaptureReplies)
      requires Valid() && At(id, Some(w))
      requires w.Stored? || backups[id].state.Pending?
      modifies this
      ensures Valid() && old(history) <= history && At(id, None)
      ensures OthersKept(old(backups), backups, id)
      ensures Passed(id, old(backups)[id], old(model.log), r)
    {
      if !w.Capture? {
        PhasesFromRead(id, w, r);
        return;
      }
      var next := CapturePhase(id, w, r.mayCapture, r.captured);
      if next.Some? { PhasesFromRead(id, next.value, r); }
    }

    method PhasesFromRead(id: Id, w: Work, r: CaptureReplies)
      requires Valid() && At(id, Some(w)) && !w.Capture?
      requires w.Stored? || backups[id].state.Pending?
      modifies this
      ensures Valid() && old(history) <= history && At(id, None)
      ensures OthersKept(old(backups), backups, id)
      ensures Passed(id, old(backups)[id], old(model.log), r)
    {
      if !w.Encrypt? {
        PhasesFromUpload(id, w, r);
        return;
      }
      var next := ReadPhase(id, w, r.mayRead, r.read);
      if next.Some? { PhasesFromUpload(id, next.value, r); }
    }

    method PhasesFromUpload(id: Id, first: Work, r: CaptureReplies)
      requires Valid() && At(id, Some(first)) && !first.Capture? && !first.Encrypt?
      requires first.Stored? || backups[id].state.Pending?
      modifies this
      ensures Valid() && old(history) <= history && At(id, None)
      ensures OthersKept(old(backups), backups, id)
      ensures Passed(id, old(backups)[id], old(model.log), r)
    {
      var w := first;
      if w.UploadReady? {
        var next := UploadPhase(id, w, r.uploaded);
        if next.None? { return; }
        w := next.value;
      } else if w.UploadSubmitted? {
        var next := RecoverPhase(id, w, r.recovered);
        if next.None? { return; }
        w := next.value;
      }
      CleanupPhase(id, w, r.removed);
    }

    lemma StoredIsSettled(id: Id)
      requires Valid() && id in backups
      ensures backups[id].work.Stored? <==> Settled(backups[id].state)
    {
      Consistent();
      RowOf(model, id);
    }

    // ---- restore

    ghost predicate RestoreAt(id: Id, w: RestoreWork, ready: bool)
      reads this
    {
      id in restores && model.worker == Running(RestoreJob(id, w, ready), Choose) && restores[id].work == w
    }

    method SetRestore(id: Id, t: Restore, ghost e: Event, ghost worker: Worker)
      requires Valid() && id in restores && IsWork(e) && model.worker.Running?
      requires WorkerStep(model, e) == model.(restores := model.restores[id := t], worker := worker)
      modifies this
      ensures Valid() && old(history) <= history
      ensures restores == old(restores)[id := t] && backups == old(backups) && machines == old(machines)
      ensures model.worker == worker
      ensures model.log == old(model.log)
    {
      restores := restores[id := t];
      WorkIsWorkerStep(model, e);
      Track(e);
    }

    method BlockRestoreRow(id: Id, ghost e: Event)
      requires Valid() && id in restores && IsWork(e) && model.worker.Running?
      requires WorkerStep(model, e) == BlockRestore(model, id)
      modifies this
      ensures Valid() && old(history) <= history && model.worker.Idle?
      ensures restores == old(restores)[id := old(restores)[id].(state := RestoreBlocked)] && backups == old(backups)
      ensures model.log == old(model.log)
    {
      SetRestore(id, restores[id].(state := RestoreBlocked), e, Idle);
    }

    /** finish: the restore and its verified source are published together, or neither is. */
    method PublishRestore(id: Id) returns (published: bool)
      requires Valid() && id in restores && restores[id].work.Submitted? && model.worker.Running?
      requires model.worker.job.RestoreJob? && model.worker.job.restore == id
      requires model.worker.job.restoring == restores[id].work && model.worker.at.Called?
      requires model.worker.at.effect == GuestSubmit(id) || model.worker.at.effect == InspectRestore(id)
      modifies this
      ensures Valid() && old(history) <= history && model.worker.Idle?
      ensures !Gone(machines, old(restores)[id].machine) ==> published
      ensures restores == if published then old(restores)[id := old(restores)[id].(work := Done, state := Restored)]
                          else old(restores)
      ensures published ==> restores[id].backup in backups && backups[restores[id].backup].state == Available(true)
      ensures WorkKept(old(backups), backups)
      ensures model.log == old(model.log)
    {
      ghost var e := RestoreReply(GuestRestored);
      WorkIsWorkerStep(model, e);
      assert WorkerStep(model, e) == Finish(model, id);
      SourceStands(id);
      var source := restores[id].backup;
      published := source in backups && backups[source].state.Available?;
      if published {
        restores := restores[id := restores[id].(work := Done, state := Restored)];
        backups := backups[source := backups[source].(state := Available(true))];
      }
      Track(e);
    }

    lemma SourceStands(id: Id)
      requires Valid() && id in restores
      ensures restores[id].backup in backups
      ensures !Released(restores[id], machines) ==> backups[restores[id].backup].state.Available?
    {
      Consistent();
      RestoreOf(model, id);
      RowOf(model, restores[id].backup);
    }

    /** The guest's word on a submitted restore: done, blocked, or still undecided; done unless its target is gone. */
    ghost predicate Concluded(id: Id, was: Restore, reply: Reply<GuestReply>)
      reads this
    {
      && id in restores
      && if reply == Got(GuestFailed) then restores[id] == was.(state := RestoreBlocked)
         else if reply == Got(GuestRestored) then
           || restores[id] == was.(work := Done, state := Restored)
           || (restores[id] == was && was.machine in machines && machines[was.machine].destroyed)
         else restores[id] == was
    }

    /** What a paid download leads to. */
    ghost predicate Transferred(id: Id, was: Restore, attempts: nat, log: seq<Effect>, downloaded: Reply<bool>,
                                maySubmit: bool, guest: Reply<GuestReply>)
      reads this
    {
      var paid := was.(state := RestorePending(false), work := Prepare(attempts + 1));
      && id in restores
      && if !downloaded.Got? then
           restores[id] == paid && model.log == log + Made(downloaded, Download(id, was.backup))
         else if !maySubmit then
           restores[id] == paid.(state := RestoreBlocked) && model.log == log + [Download(id, was.backup)]
         else
           && Concluded(id, paid.(work := Submitted(0)), guest)
           && model.log == log + [Download(id, was.backup)] + Made(guest, GuestSubmit(id))
    }

    /** A prepared restore blocks without attempts or authority, and waits for a missing key at no cost. */
    ghost predicate Prepared(id: Id, was: Restore, attempts: nat, log: seq<Effect>, r: RestoreReplies)
      reads this
    {
      && id in restores
      && if attempts >= 5 || !r.mayRestore then
           restores[id] == was.(state := RestoreBlocked) && model.log == log
         else if !r.keyring then restores[id] == was.(state := RestorePending(true)) && model.log == log
         else Transferred(id, was, attempts, log, r.downloaded, r.maySubmit, r.guest)
    }

    /** What one pass leaves of a pending restore, and which calls it made. */
    ghost predicate RestorePassed(id: Id, was: Restore, ready: bool, log: seq<Effect>, r: RestoreReplies)
      reads this
    {
      && id in restores
      && match was.work
         case Waiting =>
           if r.progress.Unsuccessful? then restores[id] == was.(state := RestoreBlocked) && model.log == log
           else if r.progress.Provisioning? then restores[id] == was && model.log == log
           else if !ready then restores[id] == was.(work := Prepare(0)) && model.log == log
           else Prepared(id, was.(work := Prepare(0)), 0, log, r)
         case Prepare(n) =>
           if !ready then restores[id] == was && model.log == log else Prepared(id, was, n, log, r)
         case Submitted(n) =>
           if !ready then restores[id] == was && model.log == log
           else if n >= 5 then restores[id] == was.(state := RestoreBlocked) && model.log == log
           else Concluded(id, was.(work := Submitted(n + 1)), r.inspected)
                && model.log == log + Made(r.inspected, InspectRestore(id))
         case Done => true
    }

    /** What the run does with the guest's word on this restore. */
    method Conclude(id: Id, reply: GuestReply)
      requires Valid() && id in restores && restores[id].work.Submitted? && model.worker.Running?
      requires model.worker.job.RestoreJob? && model.worker.job.restore == id
      requires model.worker.job.restoring == restores[id].work && model.worker.at.Called?
      requires model.worker.at.effect == GuestSubmit(id) || model.worker.at.effect == InspectRestore(id)
      modifies this
      ensures Valid() && old(history) <= history && model.worker.Idle?
      ensures RestoresButOne(old(restores), restores, id) && WorkKept(old(backups), backups)
      ensures Concluded(id, old(restores)[id], Got(reply))
      ensures model.log == old(model.log)
    {
      if reply.GuestRestored? {
        var published := PublishRestore(id);
      } else if reply.GuestFailed? {
        BlockRestoreRow(id, RestoreReply(reply));
      } else {
        WorkIsWorkerStep(model, RestoreReply(reply));
        Track(RestoreReply(reply));
      }
    }

    method SubmittedPhase(id: Id, w: RestoreWork, ready: bool, reply: Reply<GuestReply>)
      requires Valid() && RestoreAt(id, w, ready) && w.Submitted? && ready
      modifies this
      ensures Valid() && old(history) <= history && model.worker.Idle?
      ensures RestoresButOne(old(restores), restores, id) && WorkKept(old(backups), backups)
      ensures w.attempts >= 5 ==>
                restores[id] == old(restores)[id].(state := RestoreBlocked) && model.log == old(model.log)
      ensures w.attempts < 5 ==>
                && Concluded(id, old(restores)[id].(work := Submitted(w.attempts + 1)), reply)
                && model.log == old(model.log) + Made(reply, InspectRestore(id))
    {
      if w.attempts >= ATTEMPTS {
        BlockRestoreRow(id, StartInspect);
        return;
      }
      SetRestore(id, restores[id].(work := Submitted(w.attempts + 1)), StartInspect,
                 Running(RestoreJob(id, Submitted(w.attempts + 1), ready), Due(InspectRestore(id))));
      var got := Await(reply);
      if got { Conclude(id, reply.value); }
    }

    /** Download, decrypt, and hand the plaintext to the guest, which calls back before it submits. */
    method PreparePhase(id: Id, w: RestoreWork, ready: bool, r: RestoreReplies)
      requires Valid() && RestoreAt(id, w, ready) && w.Prepare? && ready
      modifies this
      ensures Valid() && old(history) <= history && model.worker.Idle?
      ensures RestoresButOne(old(restores), restores, id) && WorkKept(old(backups), backups)
      ensures Prepared(id, old(restores)[id], w.attempts, old(model.log), r)
    {
      SourceIsStored(id);
      if w.attempts >= ATTEMPTS || !r.mayRestore {
        BlockRestoreRow(id, StartDownload(r.mayRestore));
        return;
      }
      if !r.keyring {
        WaitForKey(id, w, ready);
        return;
      }
      Transfer(id, w, ready, r.downloaded, r.maySubmit, r.guest);
    }

    /** One paid attempt: the object is read, and the guest takes over unless the read or the caller failed. */
    method Transfer(id: Id, w: RestoreWork, ready: bool, downloaded: Reply<bool>, maySubmit: bool, guest: Reply<GuestReply>)
      requires Valid() && RestoreAt(id, w, ready) && w.Prepare? && ready && w.attempts < ATTEMPTS
      requires restores[id].backup in backups && backups[restores[id].backup].work.Stored?
      modifies this
      ensures Valid() && old(history) <= history && model.worker.Idle?
      ensures RestoresButOne(old(restores), restores, id) && WorkKept(old(backups), backups)
      ensures Transferred(id, old(restores)[id], w.attempts, old(model.log), downloaded, maySubmit, guest)
    {
      SaveDownload(id, w, ready);
      var got := Await(downloaded);
      if got { HandOver(id, maySubmit, guest); }
    }

    /** The record says what it waits for; no attempt is spent. */
    method WaitForKey(id: Id, w: RestoreWork, ready: bool)
      requires Valid() && RestoreAt(id, w, ready) && w.Prepare? && ready && w.attempts < ATTEMPTS
      requires restores[id].backup in backups && backups[restores[id].backup].work.Stored?
      modifies this
      ensures Valid() && old(history) <= history && backups == old(backups) && model.worker.Idle?
      ensures restores == old(restores)[id := old(restores)[id].(state := RestorePending(true))]
      ensures model.log == old(model.log)
    {
      SetRestore(id, restores[id].(state := RestorePending(true)), KeyUnavailable(true), Idle);
    }

    method SaveDownload(id: Id, w: RestoreWork, ready: bool)
      requires Valid() && RestoreAt(id, w, ready) && w.Prepare? && ready && w.attempts < ATTEMPTS
      requires restores[id].backup in backups && backups[restores[id].backup].work.Stored?
      modifies this
      ensures Valid() && old(history) <= history && backups == old(backups) && machines == old(machines)
      ensures restores == old(restores)[id := old(restores)[id].(state := RestorePending(false), work := Prepare(w.attempts + 1))]
      ensures model.worker == Running(RestoreJob(id, Prepare(w.attempts + 1), ready), Due(Download(id, restores[id].backup)))
      ensures model.log == old(model.log)
    {
      SetRestore(id, restores[id].(state := RestorePending(false), work := Prepare(w.attempts + 1)), StartDownload(true),
                 Running(RestoreJob(id, Prepare(w.attempts + 1), ready), Due(Download(id, restores[id].backup))));
    }

    /** The guest calls beforeSubmit, and the saved submission precedes its own. */
    method HandOver(id: Id, maySubmit: bool, guest: Reply<GuestReply>)
      requires Valid() && id in restores && restores[id].work.Prepare? && restores[id].state.RestorePending?
      requires model.worker.Running? && model.worker.job.RestoreJob? && model.worker.job.restore == id
      requires model.worker.job.restoring == restores[id].work && model.worker.at.Called?
      requires model.worker.at.effect == Download(id, restores[id].backup)
      modifies this
      ensures Valid() && old(history) <= history && model.worker.Idle?
      ensures RestoresButOne(old(restores), restores, id) && WorkKept(old(backups), backups)
      ensures !maySubmit ==> restores[id] == old(restores)[id].(state := RestoreBlocked) && model.log == old(model.log)
      ensures maySubmit ==>
                && Concluded(id, old(restores)[id].(work := Submitted(0)), guest)
                && model.log == old(model.log) + Made(guest, GuestSubmit(id))
    {
      if !maySubmit {
        BlockRestoreRow(id, BeforeSubmit(false));
        return;
      }
      SaveSubmission(id);
      var got := Await(guest);
      if got { Conclude(id, guest.value); }
    }

    method SaveSubmission(id: Id)
      requires Valid() && id in restores && restores[id].work.Prepare?
      requires model.worker.Running? && model.worker.job.RestoreJob? && model.worker.job.restore == id
      requires model.worker.job.restoring == restores[id].work && model.worker.at.Called?
      requires model.worker.at.effect == Download(id, restores[id].backup)
      modifies this
      ensures Valid() && old(history) <= history && backups == old(backups) && machines == old(machines)
      ensures restores == old(restores)[id := old(restores)[id].(work := Submitted(0))]
      ensures model.worker == Running(RestoreJob(id, Submitted(0), old(model.worker.job.ready)), Due(GuestSubmit(id)))
      ensures model.log == old(model.log)
    {
      SetRestore(id, restores[id].(work := Submitted(0)), BeforeSubmit(true),
                 Running(RestoreJob(id, Submitted(0), model.worker.job.ready), Due(GuestSubmit(id))));
    }

    lemma SourceIsStored(id: Id)
      requires Valid() && id in restores
      ensures restores[id].backup in backups && backups[restores[id].backup].work.Stored?
      ensures restores[id].machine in machines
      ensures restores[id].work.Done? <==> restores[id].state.Restored?
    {
      Consistent();
      RestoreOf(model, id);
    }

    /** advanceRestore: the target's state is read once, at the start of the run. */
    method AdvanceRestore(id: Id, r: RestoreReplies)
      requires Valid() && model.worker.Idle?
      modifies this
      ensures Valid() && old(history) <= history && model.worker.Idle?
      ensures RestoresButOne(old(restores), restores, id) && WorkKept(old(backups), backups)
      ensures RestoreMovesOn(old(restores), restores, id)
      ensures id !in old(restores) || !old(restores)[id].state.RestorePending? ==>
                restores == old(restores) && backups == old(backups) && model.log == old(model.log)
      ensures id in old(restores) && old(restores)[id].state.RestorePending? ==>
                && old(restores)[id].machine in old(machines)
                && if old(machines)[old(restores)[id].machine].destroyed
                   then restores[id] == old(restores)[id].(state := RestoreBlocked) && model.log == old(model.log)
                   else RestorePassed(id, old(restores)[id], old(machines)[old(restores)[id].machine].ready, old(model.log), r)
      ensures id in old(restores) && Restorable(old(restores)[id], old(machines), r)
              && !(restores[id].machine in machines && machines[restores[id].machine].destroyed)
              ==> restores[id].state.Restored?
    {
      if id !in restores || !restores[id].state.RestorePending? { return; }
      SourceIsStored(id);
      ghost var before, was := history, model;
      if Gone(machines, restores[id].machine) {
        restores := restores[id := restores[id].(state := RestoreBlocked)];
        Track(BeginRestore(id));
        Forwards(before, was);
        return;
      }
      var ready := machines[restores[id].machine].ready;
      EnterRestore(id);
      RestorePhases(id, restores[id].work, ready, r);
      Forwards(before, was);
    }

    ghost method EnterRestore(id: Id)
      requires Valid() && model.worker.Idle? && id in restores && restores[id].state.RestorePending?
      requires restores[id].machine in machines && !Gone(machines, restores[id].machine)
      modifies this`model, this`history
      ensures Valid() && old(history) <= history
      ensures RestoreAt(id, restores[id].work, machines[restores[id].machine].ready) && model.log == old(model.log)
    {
      Track(BeginRestore(id));
    }

    method RestorePhases(id: Id, first: RestoreWork, ready: bool, r: RestoreReplies)
      requires Valid() && RestoreAt(id, first, ready) && !first.Done?
      modifies this
      ensures Valid() && old(history) <= history && model.worker.Idle?
      ensures RestoresButOne(old(restores), restores, id) && WorkKept(old(backups), backups)
      ensures RestorePassed(id, old(restores)[id], ready, old(model.log), r)
    {
      var w := first;
      if w.Waiting? {
        if r.progress.Unsuccessful? {
          BlockRestoreRow(id, ProvisioningRead(r.progress));
          return;
        }
        if r.progress.Provisioning? {
          Track(ProvisioningRead(r.progress));
          return;
        }
        w := Prepare(0);
        SetRestore(id, restores[id].(work := w), ProvisioningRead(r.progress), Running(RestoreJob(id, w, ready), Choose));
      }
      if !ready {
        Leave();
        return;
      }
      if w.Submitted? {
        SubmittedPhase(id, w, ready, r.inspected);
      } else {
        PreparePhase(id, w, ready, r);
      }
    }

    // ---- operator recovery

    /** apply: read-only reconciliation of the recorded upload named by an inspected digest. */
    method ApplyRecovery(id: Id, expected: Digest, reply: Option<Id>) returns (r: RecoveryOutcome)
      requires Valid() && model.worker.Idle?
      modifies this
      ensures Valid() && old(history) <= history && model.worker.Idle?
      ensures r.Missing? <==> id !in old(backups)
      ensures r.VersionConflict? <==> id in old(backups) && ReceiptDigest(id, old(backups)[id]) != Some(expected)
      ensures r.Recovered? <==>
                && id in old(backups) && ReceiptDigest(id, old(backups)[id]) == Some(expected)
                && old(backups)[id].work.UploadSubmitted?
                && (old(backups)[id].state.Pending? || old(backups)[id].state.Blocked?) && reply.Some?
      ensures r.AlreadyStored? <==>
                && id in old(backups) && ReceiptDigest(id, old(backups)[id]) == Some(expected)
                && old(backups)[id].work.Stored? && old(backups)[id].state.Available?
      ensures r.Recovered? ==>
                id in backups && backups[id] == Backup(old(backups)[id].facts, Available(false),
                  Stored(expected.envelope, Receipt(id, expected.envelope.intent.size, reply.value), false, 0),
                  expected.envelope.intent.size)
      ensures !r.Recovered? ==> StatesKept(old(backups), backups)
    {
      if id !in backups { return Missing; }
      var row := backups[id];
      if ReceiptDigest(id, row) != Some(expected) { return VersionConflict; }
      if row.work.Stored? && row.state.Available? { return AlreadyStored; }
      if !row.work.UploadSubmitted? || !(row.state.Pending? || row.state.Blocked?) { return NotResolvable; }
      EnterRecovery(id, expected);
      Yield();
      if reply.None? {
        Leave();
        return Unresolved;
      }
      RecordRecovery(id, row, reply.value);
      return Recovered;
    }

    ghost method EnterRecovery(id: Id, expected: Digest)
      requires Valid() && model.worker.Idle? && id in backups && ReceiptDigest(id, backups[id]) == Some(expected)
      requires backups[id].work.UploadSubmitted? && (backups[id].state.Pending? || backups[id].state.Blocked?)
      modifies this`model, this`history
      ensures Valid() && old(history) <= history
      ensures model.worker == Running(RecoverJob(id, backups[id].state, backups[id].work), Choose)
    {
      Track(BeginRecovery(id, expected));
    }

    method RecordRecovery(id: Id, row: Backup, version: Id)
      requires Valid() && id in backups && backups[id] == row && row.work.UploadSubmitted?
      requires model.worker == Running(RecoverJob(id, row.state, row.work), Choose)
      modifies this
      ensures Valid() && old(history) <= history && model.worker.Idle?
      ensures id in backups && backups[id] == Backup(row.facts, Available(false),
                Stored(row.work.envelope, Receipt(id, row.work.envelope.intent.size, version), false, 0),
                row.work.envelope.intent.size)
    {
      var next := Stored(row.work.envelope, Receipt(id, row.work.envelope.intent.size, version), false, 0);
      WorkIsWorkerStep(model, RecoveryFound(version));
      backups := backups[id := Backup(row.facts, Available(false), next, next.receipt.size)];
      Track(RecoveryFound(version));
    }

    // ---- retention

    predicate DueNow(id: Id)
      reads this
    {
      id in purges && purges[id].due.Some? && purges[id].due.value <= clock
    }

    method SetPurge(id: Id, p: Purge, ghost e: Event)
      requires Valid() && id in purges && IsWork(e) && model.worker.Running?
      requires WorkerStep(model, e) == model.(purges := model.purges[id := p], worker := Idle)
      modifies this
      ensures Valid() && old(history) <= history && model.worker.Idle?
      ensures model.log == old(model.log)
      ensures purges == old(purges)[id := p] && backups == old(backups) && clock == old(clock)
    {
      purges := purges[id := p];
      WorkIsWorkerStep(model, e);
      Track(e);
    }

    method SubmitDeletion(id: Id)
      requires Valid() && model.worker.Idle? && DueNow(id)
      modifies this
      ensures Valid() && old(history) <= history && backups == old(backups)
      ensures model.log == old(model.log)
      ensures id in purges && purges[id] == old(purges)[id].(state := PurgeSubmitted(old(clock)))
      ensures purges[id].backup in backups && backups[purges[id].backup].state == PurgePending(id)
      ensures model.worker == Running(DeleteJob(id), Due(Delete(purges[id].backup)))
    {
      Owned(id);
      purges := purges[id := purges[id].(state := PurgeSubmitted(clock))];
      Track(BeginDeletion(id));
    }

    /** advance: the submission is durable before any DELETE, and absence is durable before bytes are released. */
    method AdvanceDeletion(id: Id, reply: Reply<DeleteOutcome>)
      requires Valid() && model.worker.Idle?
      modifies this
      ensures Valid() && old(history) <= history && model.worker.Idle?
      ensures !(id in old(purges) && old(purges)[id].due.Some? && old(purges)[id].due.value <= old(clock)) ==>
                history == old(history) && purges == old(purges) && backups == old(backups) && model.log == old(model.log)
      ensures id in old(purges) && old(purges)[id].due.Some? && old(purges)[id].due.value <= old(clock) ==>
                && id in purges && purges[id].backup == old(purges)[id].backup && purges[id].backup in backups
                && model.log == old(model.log) + Made(reply, Delete(purges[id].backup))
                && if reply.Got? then Answered(id, reply.value)
                   else purges[id] == old(purges)[id].(state := PurgeSubmitted(old(clock)))
                        && backups[purges[id].backup].state == PurgePending(id)
    {
      if !DueNow(id) { return; }
      SubmitDeletion(id);
      var got := Await(reply);
      if got { AnswerDeletion(id, reply.value); }
    }

    predicate Answered(id: Id, outcome: DeleteOutcome)
      reads this
      requires id in purges && purges[id].backup in backups
    {
      match outcome
      case DeleteFailed => purges[id].state == PurgeBlocked(clock + 300_000) && purges[id].due == Some(clock + 300_000)
      case Retained(until, local) =>
        && purges[id].state == PurgeWaiting(until)
        && purges[id].due == Some(if until < local + 1000 then local + 1000 else until)
      case Absent =>
        && purges[id].state.PurgeDone? && purges[id].due.None?
        && backups[purges[id].backup].state == Purged(id) && backups[purges[id].backup].reserved == 0
    }

    method AnswerDeletion(id: Id, outcome: DeleteOutcome)
      requires Valid() && id in purges && purges[id].backup in backups
      requires model.worker == Running(DeleteJob(id), Called(Delete(purges[id].backup)))
      modifies this
      ensures Valid() && old(history) <= history && model.worker.Idle?
      ensures id in purges && purges[id].backup == old(purges)[id].backup && purges[id].backup in backups
      ensures Answered(id, outcome) && model.log == old(model.log)
    {
      var p := purges[id];
      match outcome
      case DeleteFailed =>
        SetPurge(id, p.(state := PurgeBlocked(clock + 300_000), due := Some(clock + 300_000)), DeleteReply(outcome));
      case Retained(until, local) =>
        SetPurge(id, p.(state := PurgeWaiting(until), due := Some(Max(until, local + 1000))), DeleteReply(outcome));
      case Absent =>
        NoteAbsence(id);
        Yield();
        CompletePurgeRow(id);
    }

    /** The store's word that the exact version is absent. */
    ghost method NoteAbsence(id: Id)
      requires Valid() && id in purges && model.worker.Running? && model.worker.job == DeleteJob(id) && model.worker.at.Called?
      modifies this`model, this`history
      ensures Valid() && old(history) <= history && model.worker == Running(DeleteJob(id), Choose)
      ensures model.log == old(model.log)
    {
      WorkIsWorkerStep(model, DeleteReply(Absent));
      Track(DeleteReply(Absent));
    }

    /** complete: one transaction releases the bytes and closes both rows. */
    method CompletePurgeRow(id: Id)
      requires Valid() && model.worker == Running(DeleteJob(id), Choose)
      modifies this
      ensures Valid() && old(history) <= history && model.worker.Idle?
      ensures model.log == old(model.log)
      ensures id in old(purges) && id in purges && purges[id].state.PurgeDone? && purges[id].due.None?
      ensures purges[id].backup == old(purges)[id].backup && purges[id].backup in backups
      ensures backups[purges[id].backup].state == Purged(id) && backups[purges[id].backup].reserved == 0
    {
      Consistent();
      var p := purges[id];
      WorkIsWorkerStep(model, CompletePurge);
      backups := backups[p.backup := backups[p.backup].(reserved := 0, state := Purged(id))];
      purges := purges[id := p.(state := PurgeDone, due := None)];
      Track(CompletePurge);
    }

    lemma Owned(id: Id)
      requires Valid() && id in purges && purges[id].due.Some?
      ensures OwnsStoredBackup(purges, backups, id) && !purges[id].state.PurgeDone?
    {
      Consistent();
      PurgeOf(model, id);
      RowOf(model, purges[id].backup);
    }

    // ---- admissions

    /** The three aggregates of one query over the backup rows. */
    method Totals(account: Id) returns (owned: nat, total: nat, recent: nat)
      ensures owned == Reserved(backups, Some(account)) && total == Reserved(backups, None)
      ensures recent == |set o | o in backups && backups[o].facts.account == account
                                 && backups[o].facts.createdAt + 3_600_000 > clock|
    {
      RecentAreRows(backups, clock, account);
      owned, total, recent := 0, 0, 0;
      var rest := backups;
      while rest != map[]
        invariant forall id :: id in rest ==> id in backups && rest[id] == backups[id]
        invariant owned + Reserved(rest, Some(account)) == Reserved(backups, Some(account))
        invariant total + Reserved(rest, None) == Reserved(backups, None)
        invariant recent + |RecentAdmissions(rest, clock, account)| == |RecentAdmissions(backups, clock, account)|
        decreases |rest|
      {
        var id :| id in rest;
        var b := rest[id];
        ReservedPicks(rest, Some(account), id);
        ReservedPicks(rest, None, id);
        RecentPick(rest, clock, account, id);
        if b.facts.account == account { owned := owned + b.reserved; }
        total := total + b.reserved;
        if Recent(b, clock, account) { recent := recent + 1; }
        rest := rest - {id};
      }
    }

    /** captureInTransaction, under the global and the account lock. */
    method CaptureInTransaction(id: Id, account: Id, machine: Id, allocation: Id, recipe: Recipe, scheduled: bool,
                                live: bool, permitted: bool)
      returns (r: Result<Backup, Refusal>)
      requires Valid()
      modifies this
      ensures Valid() && old(history) <= history && model.worker == old(model.worker)
      ensures r.Ok? <==> (live && permitted &&
                if id in old(backups)
                then old(backups)[id].facts.account == account && old(backups)[id].facts.machine == machine
                     && old(backups)[id].facts.recipe == recipe
                else
                  && machine in old(machines) && old(machines)[machine].account == account
                  && old(machines)[machine].ready && !old(machines)[machine].destroyed
                  && Reserved(old(backups), Some(account)) + config.maxBytes <= config.maxAccountBytes
                  && Reserved(old(backups), None) + config.maxBytes <= config.maxGlobalBytes
                  && |set o | o in old(backups) && old(backups)[o].facts.account == account
                              && old(backups)[o].facts.createdAt + 3_600_000 > old(clock)| < 10)
      ensures r.Ok? && id in old(backups) ==> r.value == old(backups)[id] && backups == old(backups)
      ensures r.Ok? && id !in old(backups) ==>
                && backups == old(backups)[id := r.value]
                && r.value.state == Pending && r.value.work == Capture(0) && r.value.reserved == config.maxBytes
                && r.value.facts == Admitted(account, machine, allocation, recipe, scheduled, old(clock),
                                             r.value.facts.retainUntil, config.maxBytes)
                && old(clock) + config.retentionDays * 86_400_000 <= r.value.facts.retainUntil
                && r.value.facts.retainUntil < old(clock) + config.retentionDays * 86_400_000 + 1000
                && r.value.facts.retainUntil % 1000 == 0
      ensures r.Err? ==>
                r.error ==
                  if !live then Unauthenticated
                  else if id in old(backups) then
                    (if old(backups)[id].facts.account == account && old(backups)[id].facts.machine == machine
                        && old(backups)[id].facts.recipe == recipe then PermissionDenied else IdempotencyConflict)
                  else if machine !in old(machines) || old(machines)[machine].account != account then NotFound
                  else if !permitted then PermissionDenied
                  else if !old(machines)[machine].ready || old(machines)[machine].destroyed then ResourceBusy
                  else QuotaExceeded
      ensures r.Err? ==> backups == old(backups)
    {
      if !live { return Err(Unauthenticated); }
      if id in backups {
        var f := backups[id].facts;
        if !SameRequest(f, account, machine, recipe) { return Err(IdempotencyConflict); }
        return if permitted then Ok(backups[id]) else Err(PermissionDenied);
      }
      if machine !in machines || machines[machine].account != account { return Err(NotFound); }
      if !permitted { return Err(PermissionDenied); }
      if !machines[machine].ready || machines[machine].destroyed { return Err(ResourceBusy); }
      var owned, total, recent := Totals(account);
      RecentAreRows(backups, clock, account);
      if owned + config.maxBytes > config.maxAccountBytes || total + config.maxBytes > config.maxGlobalBytes {
        return Err(QuotaExceeded);
      }
      if recent >= 10 { return Err(QuotaExceeded); }
      var facts := Admitted(account, machine, allocation, recipe, scheduled, clock,
                            RetainUntil(clock, config.retentionDays), config.maxBytes);
      var row := Backup(facts, Pending, Capture(0), config.maxBytes);
      backups := backups[id := row];
      Track(AdmitBackup(id, account, machine, allocation, recipe, scheduled, clock));
      return Ok(row);
    }

    /** restore: the target is a machine that this transaction admits (or fails to). */
    method RestoreInTransaction(id: Id, backup: Id, account: Id, digest: Id, target: Id,
                                live: bool, permitted: bool, admitted: bool)
      returns (r: Result<Restore, Refusal>)
      requires Valid() && target !in machines
      modifies this
      ensures Valid() && old(history) <= history && model.worker == old(model.worker) && backups == old(backups)
      ensures r.Ok? <==> (live && permitted &&
                if id in old(restores) then old(restores)[id].account == account && old(restores)[id].digest == digest
                else backup in backups && backups[backup].facts.account == account
                     && backups[backup].state.Available? && backups[backup].work.Stored? && admitted)
      ensures r.Ok? && id in old(restores) ==> r.value == old(restores)[id] && restores == old(restores)
      ensures r.Ok? && id !in old(restores) ==>
                && r.value == Restore(backup, account, target, digest, RestorePending(false), Waiting)
                && restores == old(restores)[id := r.value]
                && machines == old(machines)[target := Machine(account, false, false)]
      ensures r.Err? ==>
                r.error ==
                  if !live then Unauthenticated
                  else if id in old(restores) then
                    (if old(restores)[id].account == account && old(restores)[id].digest == digest then PermissionDenied
                     else IdempotencyConflict)
                  else if backup !in backups || backups[backup].facts.account != account then NotFound
                  else if !permitted then PermissionDenied
                  else if !backups[backup].state.Available? || !backups[backup].work.Stored? then ResourceBusy
                  else QuotaExceeded
      ensures r.Err? ==> restores == old(restores) && machines == old(machines)
    {
      if !live { return Err(Unauthenticated); }
      if id in restores {
        if restores[id].account != account || restores[id].digest != digest { return Err(IdempotencyConflict); }
        return if permitted then Ok(restores[id]) else Err(PermissionDenied);
      }
      if backup !in backups || backups[backup].facts.account != account { return Err(NotFound); }
      if !permitted { return Err(PermissionDenied); }
      if !backups[backup].state.Available? || !backups[backup].work.Stored? { return Err(ResourceBusy); }
      if !admitted { return Err(QuotaExceeded); }
      var row := Restore(backup, account, target, digest, RestorePending(false), Waiting);
      machines := machines[target := Machine(account, false, false)];
      restores := restores[id := row];
      Track(AdmitRestore(id, backup, account, target, digest));
      return Ok(row);
    }

    /** The pin check of assertPurgeable: one pass over the restores of the backup. */
    method NothingPins(backup: Id) returns (free: bool)
      ensures free <==> forall r :: r in restores && restores[r].backup == backup ==>
                restores[r].work.Done? || (restores[r].machine in machines && machines[restores[r].machine].destroyed)
    {
      var rest := restores;
      while rest != map[]
        invariant forall r :: r in rest ==> r in restores && rest[r] == restores[r]
        invariant forall r :: r in restores && r !in rest && restores[r].backup == backup ==>
                    Released(restores[r], machines)
        decreases |rest|
      {
        var r :| r in rest;
        if rest[r].backup == backup && !rest[r].work.Done? && !Gone(machines, rest[r].machine) {
          assert !Released(restores[r], machines);
          return false;
        }
        rest := rest - {r};
      }
      return true;
    }

    method AssertPurgeable(backup: Id) returns (ok: bool)
      requires Valid() && backup in backups
      ensures ok <==> Purgeable(model, backup)
      ensures ok <==>
                && backups[backup].state.Available? && backups[backup].work.Stored?
                && (backups[backup].work.cleaned
                    || (backups[backup].facts.machine in machines && machines[backups[backup].facts.machine].destroyed))
                && (forall r :: r in restores && restores[r].backup == backup ==>
                      restores[r].work.Done? || (restores[r].machine in machines && machines[restores[r].machine].destroyed))
    {
      Consistent();
      RowOf(model, backup);
      var b := backups[backup];
      if !b.state.Available? || !b.work.Stored? { return false; }
      if b.work.receipt.attempt != backup || b.work.envelope.capture.id != backup || b.work.receipt.size != b.reserved {
        return false;
      }
      if !b.work.cleaned && !Gone(machines, b.facts.machine) { return false; }
      ok := NothingPins(backup);
    }

    /** count(DISTINCT day) of later captured scheduled backups of the same series. */
    method CountLaterDays(series: Admitted) returns (n: nat)
      ensures n == |set o | o in backups && backups[o].facts.machine == series.machine
                            && backups[o].facts.account == series.account
                            && backups[o].facts.recipe.data == series.recipe.data && backups[o].facts.scheduled
                            && backups[o].state.Available?
                            && backups[o].facts.createdAt / 86_400_000 > series.createdAt / 86_400_000
                            :: backups[o].facts.createdAt / 86_400_000|
    {
      var rest, seen := backups, {};
      while rest != map[]
        invariant forall o :: o in rest ==> o in backups && rest[o] == backups[o]
        invariant seen + LaterDays(rest, series) == LaterDays(backups, series)
        decreases |rest|
      {
        var o :| o in rest;
        LaterPick(rest, series, o);
        var day := Day(rest[o].facts);
        if Counts(rest[o], series) && day > Day(series) { seen := seen + {day}; }
        rest := rest - {o};
      }
      assert LaterDays(map[], series) == {};
      n := |seen|;
      LaterDaysAreRows(backups, series);
    }

    method InsertPurge(id: Id, backup: Id, retention: bool, ghost e: Event)
      requires Valid() && id !in purges && Purgeable(model, backup) && Apply(model, e) == AdmitPurge(model, id, backup, retention)
      modifies this
      ensures Valid() && old(history) <= history && model.worker == old(model.worker)
      ensures backups == old(backups)[backup := old(backups)[backup].(state := PurgePending(id))]
      ensures purges == old(purges)[id := Purge(backup, old(backups)[backup].facts.account, retention,
                PurgeWaiting(old(backups)[backup].facts.retainUntil), Some(Max(old(clock), old(backups)[backup].facts.retainUntil)))]
    {
      var b := backups[backup];
      purges := purges[id := Purge(backup, b.facts.account, retention, PurgeWaiting(b.facts.retainUntil),
                                   Some(Max(clock, b.facts.retainUntil)))];
      backups := backups[backup := b.(state := PurgePending(id))];
      Track(e);
    }

    /** A customer's purge request; a known request is replayed, an integrity error is a refusal. */
    method RequestPurgeRow(id: Id, backup: Id, account: Id, live: bool, permitted: bool)
      returns (r: Result<Purge, Refusal>)
      requires Valid()
      modifies this
      ensures Valid() && old(history) <= history && model.worker == old(model.worker)
      ensures r.Ok? <==> (live && permitted && backup in old(backups) && old(backups)[backup].facts.account == account &&
                if id in old(purges)
                then old(purges)[id].account == account && old(purges)[id].backup == backup && !old(purges)[id].retention
                else
                  && old(backups)[backup].state.Available? && old(backups)[backup].work.Stored?
                  && (old(backups)[backup].work.cleaned
                      || (old(backups)[backup].facts.machine in old(machines)
                          && old(machines)[old(backups)[backup].facts.machine].destroyed))
                  && (forall t :: t in old(restores) && old(restores)[t].backup == backup ==>
                        old(restores)[t].work.Done?
                        || (old(restores)[t].machine in old(machines) && old(machines)[old(restores)[t].machine].destroyed)))
      ensures r.Ok? && id !in old(purges) ==>
                && purges == old(purges)[id := r.value]
                && r.value == Purge(backup, account, false, PurgeWaiting(old(backups)[backup].facts.retainUntil),
                     Some(if old(clock) < old(backups)[backup].facts.retainUntil
                          then old(backups)[backup].facts.retainUntil else old(clock)))
                && backups == old(backups)[backup := old(backups)[backup].(state := PurgePending(id))]
      ensures r.Ok? && id in old(purges) ==> r.value == old(purges)[id]
      ensures r.Err? || id in old(purges) ==> purges == old(purges) && backups == old(backups)
      ensures r == Err(Unauthenticated) <==> !live
      ensures r == Err(NotFound) <==>
                live && (backup !in old(backups) || old(backups)[backup].facts.account != account)
      ensures r == Err(PermissionDenied) <==>
                live && !permitted && backup in old(backups) && old(backups)[backup].facts.account == account
    {
      if !live { return Err(Unauthenticated); }
      if backup !in backups || backups[backup].facts.account != account { return Err(NotFound); }
      if !permitted { return Err(PermissionDenied); }
      if id in purges {
        var p := purges[id];
        if p.account != account || p.backup != backup || p.retention { return Err(IdempotencyConflict); }
        return Ok(p);
      }
      var purgeable := AssertPurgeable(backup);
      if !purgeable { return Err(ResourceBusy); }
      InsertPurge(id, backup, false, RequestPurge(id, backup, account));
      return Ok(purges[id]);
    }

    /** admitExpiredBackup: the policy is evaluated again under the lock, whatever list named the candidate. */
    method AdmitExpired(id: Id, backup: Id) returns (admitted: bool)
      requires Valid() && id !in purges  // a fresh random identifier
      modifies this
      ensures Valid() && old(history) <= history && model.worker == old(model.worker)
      ensures admitted <==>
                && backup in old(backups)
                && var b := old(backups)[backup];
                && b.facts.scheduled && b.facts.retainUntil <= old(clock)
                && b.state.Available? && b.work.Stored?
                && (b.work.cleaned || (b.facts.machine in old(machines) && old(machines)[b.facts.machine].destroyed))
                && (forall r :: r in old(restores) && old(restores)[r].backup == backup ==>
                      old(restores)[r].work.Done?
                      || (old(restores)[r].machine in old(machines) && old(machines)[old(restores)[r].machine].destroyed))
                && |set o | o in old(backups) && old(backups)[o].facts.machine == b.facts.machine
                            && old(backups)[o].facts.account == b.facts.account
                            && old(backups)[o].facts.recipe.data == b.facts.recipe.data
                            && old(backups)[o].facts.scheduled && old(backups)[o].state.Available?
                            && old(backups)[o].facts.createdAt / 86_400_000 > b.facts.createdAt / 86_400_000
                            :: old(backups)[o].facts.createdAt / 86_400_000| >= 7
      ensures admitted ==>
                purges == old(purges)[id := Purge(backup, old(backups)[backup].facts.account, true,
                            PurgeWaiting(old(backups)[backup].facts.retainUntil), Some(old(clock)))]
      ensures admitted ==> backups == old(backups)[backup := old(backups)[backup].(state := PurgePending(id))]
      ensures !admitted ==> backups == old(backups) && purges == old(purges)
    {
      if backup !in backups { return false; }
      var b := backups[backup];
      if b.facts.retainUntil > clock || !b.facts.scheduled { return false; }
      var purgeable := AssertPurgeable(backup);
      if !purgeable { return false; }
      var later := CountLaterDays(b.facts);
      LaterDaysAreRows(backups, b.facts);
      if later < 7 { return false; }
      InsertPurge(id, backup, true, ExpireBackup(id, backup));
      return true;
    }

    /** Rows only moved forward since an earlier point of the history. */
    lemma Forwards(before: seq<Event>, was: State)
      requires Valid() && before <= history && Leads(origin, before, was)
      ensures Advances(was, model)
      ensures forall id :: RowMoves(was.backups, backups, id) && RestoreMovesOn(was.restores, restores, id)
    {
      LedTo(origin, before, was);
      InitialInv(origin);
      RunKeepsInv(origin, before);
      LeadsOn(origin, before, was, history, model);
      RunAdvances(was, history[|before|..]);
    }
  }

  ghost predicate RestoresButOne(a: map<Id, Restore>, b: map<Id, Restore>, id: Id) {
    forall r :: r in a ==> r in b && (r != id ==> b[r] == a[r]) && b[r].machine == a[r].machine
  }

  /** Only this backup's row may have been written by the run. */
  ghost predicate OthersKept(a: map<Id, Backup>, b: map<Id, Backup>, id: Id) {
    forall o :: o in a ==> o in b && b[o].facts == a[o].facts && (o != id ==> b[o].work == a[o].work)
  }
}
