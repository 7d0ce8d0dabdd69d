/**
 One tick of an operation as it runs, under the machine lock: read the journal, settle what is pending,
 and take the next branch. Provider, guest and process behave as the replies say, including dying anywhere.
 Every write is proved to be an event of the journal's state machine.
 */
module OperationService {
  import opened Prelude
  import opened Journal
  import opened OperationMachine
  import opened OperationProofs

  /** A provider_unavailable failure that may be retried is not a verdict. */
  datatype Thrown = Thrown(error: Id, transient: bool)

  /** How a method of the tick ended: normally, by a thrown error, or with the process. */
  datatype Ending = Ended | Threw(thrown: Thrown) | Dead

  datatype Sending = Sending(refused: Option<Thrown>, diesInserted: bool, outcome: Option<Outcome>)

  datatype Runtime = RuntimeWaiting | RuntimeBlocked | RuntimeReady(server: Server)

  datatype TickReplies = TickReplies(
    guestEnabled: bool, image: Option<Thrown>,
    evaluation: Replies, evaluationThrows: Option<Thrown>,
    ip: Option<Ip>, cleanupIp: Option<Ip>, server: Option<Server>, backups: Option<Server>,
    sending: Sending, runtime: Runtime, identityIssued: bool, expired: bool)

  const REJECTED := Thrown(1, false)
  const INTERNAL := Thrown(2, false)
  const UNKNOWN_OUTCOME := Thrown(3, false)
  const DENIED := Thrown(4, false)

  datatype CleanupRefusal = NotAuthenticated | NotPermitted | DataLossNotAuthorized | KeyConflict | VersionConflict | Busy | NoSource

  /** The two rows admission looks for: the active operation, and the create that made the allocation. */
  predicate Chosen(o: Operation, active: bool) {
    if active then IsActive(o) else o.lifecycle.LCreate?
  }

  predicate MayTakeOver(o: Operation) {
    o.lifecycle.LCreate? || IsCleanup(o)
  }

  lemma RunAppends(s: State, events: seq<Event>, e: Event)
    ensures Run(s, events + [e]) == Apply(Run(s, events), e)
  {
    assert (events + [e])[..|events|] == events;
  }

  lemma LeadsAppend(s: State, events: seq<Event>, t: State, e: Event)
    requires Leads(s, events, t)
    ensures Leads(s, events + [e], Apply(t, e))
  {
    LedTo(s, events, t);
    RunAppends(s, events, e);
  }

  /** What confirms an attempt outside cleanup may be recorded as its confirmation. */
  lemma SettledIsConfirmable(a: Attempt, expected: Labels, before: Ledger, after: Ledger, r: Replies, allocation: Id, account: Id)
    requires Settles(a.command, a.outcome, false, expected, r, before, allocation, account, a.operation)
    requires Target(a.command).Some? ==> expected == Expected(after, a.command)
    ensures var ref := Speaks(a.command, a.outcome, r.found).value;
            Subject(Seen(ref, r)) == ref && Confirmable(a, Seen(ref, r), Expected(after, a.command), false)
  {
    ConfirmedMeansAchieved(a.command, a.outcome, false, expected, r, before, allocation, account, a.operation);
  }

  /** The signature kind of the effect that a lifecycle command asks for. */
  function EffectKind(l: Lifecycle): nat {
    match l
    case LCreate(_, _, _, _) => 2
    case LDestroy => 3
    case LResize(_, _) => 5
    case LPowerOff => 6
    case LPowerOn => 7
    case LReboot => 8
  }

  function EffectOn(l: Lifecycle, server: Id): (c: Command)
    requires !l.LCreate?
    ensures Signature(c) == (EffectKind(l), Some(Ref(ServerKind, server)))
  {
    match l
    case LDestroy => Destroy(server)
    case LResize(serverType, _) => Resize(server, serverType)
    case LPowerOff => PowerOff(server)
    case LPowerOn => PowerOn(server)
    case LReboot => Reboot(server)
  }

  class Operator {
    const journal: Evaluator
    const hetzner: bool
    /** the allocation's network profile: managed_ipv4 */
    const managed: bool
    var operations: map<Id, Operation>
    var attempts: seq<Attempt>
    var retired: bool
    var destroyed: bool
    var version: nat
    /** idempotency rows of this machine's actions: key to request hash and operation */
    var requests: map<Id, (Id, Id)>
    ghost const origin: State
    ghost var model: State
    ghost var history: seq<Event>

    ghost predicate Valid()
      reads this, journal
    {
      && Initial(origin) && Leads(origin, history, model)
      && model.allocation == journal.allocation && model.account == journal.account
      && model.operations == operations && model.attempts == attempts && model.ledger == journal.ledger
      && model.retired == retired && model.destroyed == destroyed
    }

    constructor (allocation: Id, account: Id, hetzner: bool, managed: bool)
      ensures Valid() && fresh(journal) && operations == map[] && attempts == [] && model.flight.Grounded?
    {
      journal := new Evaluator(allocation, account);
      this.hetzner, this.managed := hetzner, managed;
      operations, attempts, retired, destroyed, version, requests := map[], [], false, false, 1, map[];
      origin := State(allocation, account, map[], [], map[], false, false, Grounded, []);
      model, history := State(allocation, account, map[], [], map[], false, false, Grounded, []), [];
    }

    lemma Consistent()
      requires Valid()
      ensures Reachable(model) && Inv(model)
    {
      ReachableInv(model);
    }

    ghost method Track(e: Event)
      requires Leads(origin, history, model)
      modifies this`model, this`history
      ensures model == Apply(old(model), e) && history == old(history) + [e]
      ensures Leads(origin, history, model)
    {
      LeadsAppend(origin, history, model, e);
      model, history := Apply(model, e), history + [e];
    }

    /** A tick under way on a live operation that no cleanup has taken over, with nothing pending. */
    ghost predicate Working(id: Id)
      reads this, journal
    {
      && Valid() && model.flight.Grounded? && !retired
      && id in operations && IsActive(operations[id]) && !IsCleanup(operations[id])
      && Quiet(attempts, id)
    }

    // ---- reads of the journal

    method FindPending(id: Id) returns (i: Option<nat>)
      ensures i.None? <==> Quiet(attempts, id)
      ensures i.Some? ==> i.value < |attempts| && PendingIn(attempts[i.value], id)
    {
      var k := 0;
      while k < |attempts|
        invariant k <= |attempts| && forall j :: 0 <= j < k ==> !PendingIn(attempts[j], id)
      {
        if attempts[k].operation == id && attempts[k].resolution.Unresolved? { return Some(k); }
        k := k + 1;
      }
      return None;
    }

    /** effectOf: the first attempt of this operation with a command of the given kind. */
    method EffectOf(id: Id, kind: nat) returns (i: Option<nat>)
      ensures i.Some? ==> i.value < |attempts| && attempts[i.value].operation == id
                          && Signature(attempts[i.value].command).0 == kind
      ensures i.None? ==> forall j :: 0 <= j < |attempts| ==>
                !(attempts[j].operation == id && Signature(attempts[j].command).0 == kind)
    {
      var k := 0;
      while k < |attempts|
        invariant k <= |attempts|
        invariant forall j :: 0 <= j < k ==> !(attempts[j].operation == id && Signature(attempts[j].command).0 == kind)
      {
        if attempts[k].operation == id && Signature(attempts[k].command).0 == kind { return Some(k); }
        k := k + 1;
      }
      return None;
    }

    method FindFailed(id: Id) returns (i: Option<nat>)
      ensures i.Some? ==> i.value < |attempts| && attempts[i.value].operation == id && attempts[i.value].resolution.ResolvedFailed?
      ensures i.None? ==> forall j :: 0 <= j < |attempts| && attempts[j].operation == id ==> !attempts[j].resolution.ResolvedFailed?
    {
      var k := 0;
      while k < |attempts|
        invariant k <= |attempts|
        invariant forall j :: 0 <= j < k && attempts[j].operation == id ==> !attempts[j].resolution.ResolvedFailed?
      {
        if attempts[k].operation == id && attempts[k].resolution.ResolvedFailed? { return Some(k); }
        k := k + 1;
      }
      return None;
    }

    /** The first unretired row of a kind, or of any kind, that this allocation owns. */
    method FindLive(kind: Option<Kind>) returns (row: Option<Ref>)
      ensures row.Some? ==> OwnLive(journal.ledger, row.value, journal.allocation)
                            && (kind.Some? ==> row.value.kind == kind.value)
      ensures row.None? ==> forall r :: r in journal.ledger && (kind.Some? ==> r.kind == kind.value) ==>
                !OwnLive(journal.ledger, r, journal.allocation)
    {
      var rest := journal.ledger;
      while rest != map[]
        invariant forall r :: r in rest ==> r in journal.ledger && rest[r] == journal.ledger[r]
        invariant forall r :: r in journal.ledger && r !in rest && (kind.Some? ==> r.kind == kind.value) ==>
                    !OwnLive(journal.ledger, r, journal.allocation)
        decreases |rest|
      {
        var r :| r in rest;
        if (kind.None? || r.kind == kind.value) && rest[r].allocation == journal.allocation && !rest[r].absent {
          return Some(r);
        }
        rest := rest - {r};
      }
      return None;
    }

    // ---- writes

    /** setProgress to any state that is not terminal. */
    method SetNote(id: Id, note: Note)
      requires Valid() && id in operations && IsActive(operations[id])
      modifies this`operations, this`model, this`history
      ensures Valid() && old(history) <= history && model.flight == old(model.flight) && model.sent == old(model.sent)
      ensures operations == old(operations)[id := old(operations)[id].(progress := Active(note))]
    {
      operations := operations[id := operations[id].(progress := Active(note))];
      Track(Report(id, note));
    }

    method RecordAbsence(ref: Ref)
      requires Valid()
      modifies journal, this`model, this`history
      ensures Valid() && old(history) <= history && model.flight == old(model.flight)
      ensures journal.ledger == Tombstoned(old(journal.ledger), ref, journal.allocation, journal.account)
      ensures journal.serverId == old(journal.serverId)
    {
      if ref in journal.ledger && journal.ledger[ref].allocation == journal.allocation
         && journal.ledger[ref].account == journal.account && !journal.ledger[ref].absent {
        journal.ledger := journal.ledger[ref := journal.ledger[ref].(absent := true)];
      }
      Track(ObserveAbsence(ref));
    }

    /**
     journalEffect for an effect that no cleanup admitted: the row is committed before the request is sent, the
     receipt before anything is claimed. Whatever is thrown, and wherever it dies, the attempt stays pending.
     */
    method JournalEffect(id: Id, c: Command, r: Sending) returns (end: Ending)
      requires Working(id) && MayInsert(model, id, c, false)
      modifies this, journal
      ensures Valid() && old(history) <= history && model.flight.Grounded? && !retired
      ensures id in operations && IsActive(operations[id])
      ensures operations[id] == old(operations)[id].(progress := operations[id].progress)
      ensures r.refused.Some? ==> end == Threw(r.refused.value) && attempts == old(attempts) && operations == old(operations)
                                  && journal.ledger == old(journal.ledger)
      ensures r.refused.None? ==>
                && |attempts| == |old(attempts)| + 1 && attempts[..|old(attempts)|] == old(attempts)
                && attempts[|old(attempts)|].operation == id && attempts[|old(attempts)|].command == c
                && attempts[|old(attempts)|].resolution.Unresolved?
                && attempts[|old(attempts)|].sequence == CountOf(old(attempts), id) + 1
                && (end.Ended? && r.outcome.Some? && !r.outcome.value.Prepared?
                    ==> attempts[|old(attempts)|].outcome == r.outcome.value)
    {
      if r.refused.Some? { return Threw(r.refused.value); }
      var i := |attempts|;
      InsertAttempt(id, c);
      if r.diesInserted || r.outcome.None? {
        if !r.diesInserted { Track(Send); }
        Track(EndTick);
        return Dead;
      }
      // a submission that throws without a definitive response is recorded as unknown
      var outcome := if r.outcome.value.Prepared? then Unknown else r.outcome.value;
      SendAndRecord(i, outcome);
      end := ClaimReceipt(i);
    }

    method InsertAttempt(id: Id, c: Command)
      requires Working(id) && MayInsert(model, id, c, false)
      modifies this
      ensures Valid() && old(history) <= history && model.flight == Inserted(|old(attempts)|) && retired == old(retired)
      ensures operations == old(operations)[id := old(operations)[id].(progress := Active(Submitting))]
      ensures attempts == old(attempts) + [Attempt(id, CountOf(old(attempts), id) + 1, c, Prepared, Unresolved, false)]
    {
      var prior := CountAttempts(id);
      attempts := attempts + [Attempt(id, prior + 1, c, Prepared, Unresolved, false)];
      operations := operations[id := operations[id].(progress := Active(Submitting))];
      Track(Insert(id, c, false));
    }

    method SendAndRecord(i: nat, outcome: Outcome)
      requires Valid() && model.flight == Inserted(i) && i < |attempts| && !outcome.Prepared?
      modifies this
      ensures Valid() && old(history) <= history && model.flight.Grounded?
      ensures operations == old(operations) && retired == old(retired)
      ensures attempts == old(attempts)[i := old(attempts)[i].(outcome := outcome)]
    {
      Track(Send);
      attempts := attempts[i := attempts[i].(outcome := outcome)];
      Track(Record(outcome));
    }

    method ClaimReceipt(i: nat) returns (end: Ending)
      requires Valid() && i < |attempts| && model.flight.Grounded? && !retired
      modifies journal, this`model, this`history
      ensures Valid() && old(history) <= history && model.flight.Grounded? && !end.Dead?
    {
      var o, c := attempts[i].outcome, attempts[i].command;
      if (o.Accepted? || o.Completed?) && o.resource.kind == KindOf(c) && Creates(c) {
        var ok := journal.Claim(o.resource, c.labels);
        Track(ClaimCreated(i));
        if !ok { return Threw(UNKNOWN_OUTCOME); }
      }
      return Ended;
    }

    /** journalEffect under an admitted cleanup: an exact live row of this allocation, or a refusal. */
    method JournalAdmitted(id: Id, c: Command, r: Sending) returns (end: Ending)
      requires Valid() && model.flight.Grounded? && !retired && id in operations && IsActive(operations[id])
      modifies this, journal
      ensures Valid() && old(history) <= history && model.flight.Grounded?
      ensures |attempts| > |old(attempts)| <==>
                (r.refused.None? && IsCleanup(old(operations)[id]) && (c.Destroy? || c.DeleteIp?)
                 && var ref := if c.Destroy? then Ref(ServerKind, c.server) else Ref(IpKind, c.ip);
                    ref in old(journal.ledger) && var row := old(journal.ledger)[ref];
                    row.allocation == journal.allocation && row.account == journal.account && !row.absent)
      ensures |attempts| > |old(attempts)| ==>
                |attempts| == |old(attempts)| + 1 && attempts[..|old(attempts)|] == old(attempts)
                && attempts[|old(attempts)|].command == c && attempts[|old(attempts)|].admitted
      ensures |attempts| <= |old(attempts)| ==> attempts == old(attempts) && end.Threw?
    {
      if r.refused.Some? { return Threw(r.refused.value); }
      if !operations[id].intent.Cleanup? || !(c.Destroy? || c.DeleteIp?) { return Threw(DENIED); }
      var ref := if c.Destroy? then Ref(ServerKind, c.server) else Ref(IpKind, c.ip);
      if !LiveRow(journal.ledger, ref, journal.allocation, journal.account) { return Threw(DENIED); }
      var i := |attempts|;
      InsertAdmitted(id, c);
      if r.diesInserted || r.outcome.None? {
        if !r.diesInserted { Track(Send); }
        Track(EndTick);
        return Dead;
      }
      SendAndRecord(i, if r.outcome.value.Prepared? then Unknown else r.outcome.value);
      return Ended;
    }

    method InsertAdmitted(id: Id, c: Command)
      requires Valid() && MayInsert(model, id, c, true)
      modifies this
      ensures Valid() && old(history) <= history && model.flight == Inserted(|old(attempts)|) && retired == old(retired)
      ensures attempts == old(attempts) + [Attempt(id, CountOf(old(attempts), id) + 1, c, Prepared, Unresolved, true)]
    {
      var prior := CountAttempts(id);
      attempts := attempts + [Attempt(id, prior + 1, c, Prepared, Unresolved, true)];
      operations := operations[id := operations[id].(progress := Active(Submitting))];
      Track(Insert(id, c, true));
    }

    // ---- cleanup admission

    method FindOperation(active: bool) returns (o: Option<Id>)
      ensures o.Some? ==> o.value in operations && Chosen(operations[o.value], active)
      ensures o.None? ==> forall x :: x in operations ==> !Chosen(operations[x], active)
    {
      var rest := operations;
      while rest != map[]
        invariant forall x :: x in rest ==> x in operations && rest[x] == operations[x]
        invariant forall x :: x in operations && x !in rest ==> !Chosen(operations[x], active)
        decreases |rest|
      {
        var x :| x in rest;
        if Chosen(rest[x], active) { return Some(x); }
        rest := rest - {x};
      }
      return None;
    }

    /**
     admitCleanup, under the machine lock: a repeated key returns its operation; an active create is taken over,
     an active cleanup joined, any other active operation refused; otherwise a destroy operation is made.
     */
    method AdmitCleanup(newId: Id, key: Id, fingerprint: Id, expectedVersion: nat, live: bool, permitted: bool, allowDataLoss: bool)
      returns (result: Result<Id, CleanupRefusal>)
      requires Valid() && model.flight.Grounded? && newId !in operations
      modifies this
      ensures Valid() && model.flight.Grounded? && old(history) <= history && attempts == old(attempts)
      ensures key in old(requests) && result.Ok? ==>
                result.value == old(requests)[key].1 && old(requests)[key].0 == fingerprint
                && operations == old(operations) && version == old(version)
      ensures key !in old(requests) && result.Ok? ==>
                && result.value in operations && IsCleanup(operations[result.value]) && IsActive(operations[result.value])
                && requests == old(requests)[key := (fingerprint, result.value)]
                && operations[result.value].intent.source in operations
                && operations[operations[result.value].intent.source].lifecycle.LCreate?
                && (forall x :: x in old(operations) && x != result.value ==> x in operations && operations[x] == old(operations)[x])
      ensures result.Err? ==> operations == old(operations) && requests == old(requests) && version == old(version)
      ensures key !in old(requests) ==> (result.Ok? <==>
                live && permitted && allowDataLoss && old(version) == expectedVersion && !old(retired)
                && old(operations) != map[]
                && forall x :: x in old(operations) && old(operations)[x].progress.Active? ==>
                     old(operations)[x].lifecycle.LCreate? || old(operations)[x].intent.Cleanup?)
    {
      if !live { return Err(NotAuthenticated); }
      if !permitted { return Err(NotPermitted); }
      if !allowDataLoss { return Err(DataLossNotAuthorized); }
      if key in requests {
        return if requests[key].0 == fingerprint then Ok(requests[key].1) else Err(KeyConflict);
      }
      if version != expectedVersion { return Err(VersionConflict); }
      if retired { return Err(Busy); }
      var active := FindOperation(true);
      ActiveIsAlone();
      if active.Some? && !MayTakeOver(operations[active.value]) { return Err(Busy); }
      var source := FindOperation(false);
      if source.None? { return Err(NoSource); }
      var id := if active.Some? then active.value else newId;
      if active.None? || !IsCleanup(operations[active.value]) {
        var taken := if active.Some? then operations[id].lifecycle else LDestroy;
        operations := operations[id := Operation(taken, Cleanup(source.value), Active(CleaningUp))];
        version := version + 1;
        Track(Event.AdmitCleanup(id, source.value));
      } else {
        JoinedHasSource(id);
      }
      requests := requests[key := (fingerprint, id)];
      return Ok(id);
    }

    lemma ActiveIsAlone()
      requires Valid()
      ensures forall x, y :: x in operations && y in operations && IsActive(operations[x]) && IsActive(operations[y]) ==> x == y
      ensures operations != map[] ==> exists x :: x in operations && Chosen(operations[x], false)
    {
      Consistent();
      forall x, y | x in operations && y in operations && IsActive(operations[x]) && IsActive(operations[y]) ensures x == y {
        assert OperationOk(x, operations, attempts);
      }
      if operations != map[] {
        var c :| c in operations && operations[c].lifecycle.LCreate?;
        assert Chosen(operations[c], false);
      }
    }

    lemma JoinedHasSource(id: Id)
      requires Valid() && id in operations && IsCleanup(operations[id])
      ensures operations[id].intent.source in operations && operations[operations[id].intent.source].lifecycle.LCreate?
    {
      Consistent();
      assert OperationOk(id, operations, attempts);
    }

    method CountAttempts(id: Id) returns (n: nat)
      ensures n == CountOf(attempts, id)
    {
      n := 0;
      var k := 0;
      while k < |attempts|
        invariant k <= |attempts| && n == CountOf(attempts[..k], id)
      {
        assert attempts[..k + 1][..k] == attempts[..k];
        if attempts[k].operation == id { n := n + 1; }
        k := k + 1;
      }
      assert attempts[..k] == attempts;
    }

    // ---- settling a pending attempt

    /**
     resolveEffect for this operation's own attempt: at most one verdict is ever recorded, and a confirmation is
     recorded with the observation that was read.
     */
    method ResolveEffect(id: Id, i: nat, expected: Labels, r: Replies, throws: Option<Thrown>)
      requires Valid() && model.flight.Grounded? && !retired
      requires id in operations && IsActive(operations[id]) && !IsCleanup(operations[id])
      requires i < |attempts| && PendingIn(attempts[i], id)
      requires Target(attempts[i].command).Some? ==> expected == Expected(journal.ledger, attempts[i].command)
      modifies this, journal
      ensures Valid() && old(history) <= history && model.flight.Grounded? && retired == old(retired)
      ensures |attempts| == |old(attempts)| && forall k :: 0 <= k < |attempts| && k != i ==> attempts[k] == old(attempts)[k]
      ensures attempts[i] == old(attempts)[i].(resolution := attempts[i].resolution)
      ensures throws.None? && attempts[i].resolution.ResolvedOk? ==>
                Settles(attempts[i].command, attempts[i].outcome, false, expected, r,
                        old(journal.ledger), journal.allocation, journal.account, id)
                && attempts[i].resolution.observation == Seen(Speaks(attempts[i].command, attempts[i].outcome, r.found).value, r)
      ensures throws.None? && !attempts[i].resolution.ResolvedOk?
              && Settles(attempts[i].command, attempts[i].outcome, false, expected, r,
                         old(journal.ledger), journal.allocation, journal.account, id) ==>
                && attempts == old(attempts) && id in operations && operations[id].progress == Active(BlockedNow)
                && !ClaimAccepted(old(journal.ledger), Speaks(attempts[i].command, attempts[i].outcome, r.found).value,
                                  journal.allocation, journal.account)
      ensures throws.None? ==>
                (attempts[i].resolution.ResolvedFailed? <==> Fails(attempts[i].command, attempts[i].outcome, false, r))
      ensures throws.Some? ==> attempts == old(attempts)
    {
      var a := attempts[i];
      OwnAttempt(id, i);
      ghost var before := journal.ledger;
      var e := journal.Evaluate(a.command, a.outcome, false, expected, id, r);
      Track(Discover(i, r.found));
      if throws.Some? {
        // a provider failure anywhere in the evaluation: the claims stay, the verdict does not
        if !throws.value.transient { SetNote(id, BlockedNow); }
        return;
      }
      match e
      case StillPending(blocked) => SetNote(id, if blocked.Some? then BlockedNow else Checking);
      case EffectFailed(error) => Settle(i, ResolvedFailed(error));
      case Confirmed(o) =>
        Confirm(id, i, before, expected, r, o);
    }

    /** A confirming evaluation is recorded unless the ledger refuses its resource. */
    method Confirm(id: Id, i: nat, ghost before: Ledger, ghost expected: Labels, ghost r: Replies, o: Observation)
      requires Valid() && model.flight.Grounded? && !retired && i < |attempts| && PendingIn(attempts[i], id)
      requires id in operations && IsActive(operations[id]) && !Recovering(model, attempts[i])
      requires Target(attempts[i].command).Some? ==> expected == Expected(before, attempts[i].command)
      requires journal.ledger == if Uncertain(attempts[i].outcome) && Creates(attempts[i].command)
                                 then ClaimAll(before, r.found, attempts[i].command, journal.allocation, journal.account).0
                                 else before
      requires Settles(attempts[i].command, attempts[i].outcome, false, expected, r, before,
                       journal.allocation, journal.account, id)
      requires o == Seen(Speaks(attempts[i].command, attempts[i].outcome, r.found).value, r)
      modifies this, journal
      ensures Valid() && old(history) <= history && model.flight.Grounded? && retired == old(retired)
      ensures || attempts == old(attempts)[i := old(attempts)[i].(resolution := ResolvedOk(o))]
              || (&& attempts == old(attempts) && id in operations && operations[id].progress == Active(BlockedNow)
                  && !ClaimAccepted(before, Speaks(attempts[i].command, attempts[i].outcome, r.found).value,
                                    journal.allocation, journal.account))
    {
      SettledIsConfirmable(attempts[i], expected, before, journal.ledger, r, journal.allocation, journal.account);
      SettledIsSole(i, before, expected, r);
      ConfirmObservation(id, i, o);
    }

    /** The one match of an uncertain create is the only resource under its operation's label. */
    lemma SettledIsSole(i: nat, before: Ledger, expected: Labels, r: Replies)
      requires Valid() && i < |attempts|
      requires Settles(attempts[i].command, attempts[i].outcome, false, expected, r, before,
                       journal.allocation, journal.account, attempts[i].operation)
      requires journal.ledger == if Uncertain(attempts[i].outcome) && Creates(attempts[i].command)
                                 then ClaimAll(before, r.found, attempts[i].command, journal.allocation, journal.account).0
                                 else before
      ensures SoleMatch(journal.ledger, journal.allocation, attempts[i],
                        Subject(Seen(Speaks(attempts[i].command, attempts[i].outcome, r.found).value, r)))
      ensures Creates(attempts[i].command) && Uncertain(attempts[i].outcome) ==>
                ClaimAccepted(journal.ledger, Speaks(attempts[i].command, attempts[i].outcome, r.found).value,
                              journal.allocation, journal.account)
    {
      var a := attempts[i];
      if Creates(a.command) && Uncertain(a.outcome) {
        var ref := Speaks(a.command, a.outcome, r.found).value;
        ClaimAllKeeps(before, r.found, a.command, journal.allocation, journal.account);
        ClaimAllFlags(before, r.found, a.command, journal.allocation, journal.account);
        Consistent();
        assert AttemptOk(a, operations, journal.ledger, journal.allocation);
        assert CreateLabelled(journal.ledger[ref].labels, operations);
        assert OperationOk(a.operation, operations, attempts);
        forall x | x in journal.ledger && IsDiscovered(journal.ledger[x], x, KindOf(a.command), journal.allocation, a.operation)
          ensures x == ref
        {
          AtMostOne(Discovered(journal.ledger, KindOf(a.command), journal.allocation, a.operation), x, ref);
        }
      }
    }

    lemma OwnAttempt(id: Id, i: nat)
      requires Valid() && i < |attempts| && attempts[i].operation == id
      requires id in operations && IsActive(operations[id]) && !IsCleanup(operations[id])
      ensures !Recovering(model, attempts[i])
    {
      Consistent();
      forall x | x in operations && IsActive(operations[x]) ensures x == id {
        assert OperationOk(id, operations, attempts);
      }
    }

    method Settle(i: nat, r: Resolution)
      requires Valid() && model.flight.Grounded? && !retired && i < |attempts| && attempts[i].resolution.Unresolved?
      requires r.ResolvedFailed? && (attempts[i].outcome.Rejected? || attempts[i].outcome.Accepted?)
      modifies this`attempts, this`model, this`history
      ensures Valid() && old(history) <= history && model.flight.Grounded?
      ensures attempts == old(attempts)[i := old(attempts)[i].(resolution := r)]
    {
      attempts := attempts[i := attempts[i].(resolution := r)];
      Track(Resolve(i, r));
    }

    /** One transaction for the ledger and the resolution; a refused claim rolls both back. */
    method ConfirmObservation(id: Id, i: nat, o: Observation)
      requires Valid() && model.flight.Grounded? && !retired && i < |attempts| && PendingIn(attempts[i], id)
      requires id in operations && IsActive(operations[id])
      requires Confirmable(attempts[i], o, Expected(journal.ledger, attempts[i].command), false) && !Recovering(model, attempts[i])
      requires SoleMatch(journal.ledger, journal.allocation, attempts[i], Subject(o))
      modifies this, journal
      ensures Valid() && old(history) <= history && model.flight.Grounded? && retired == old(retired)
      ensures if o.Absent? || ClaimAccepted(old(journal.ledger), Subject(o), journal.allocation, journal.account)
              then attempts == old(attempts)[i := old(attempts)[i].(resolution := ResolvedOk(o))]
              else attempts == old(attempts) && id in operations && operations[id].progress == Active(BlockedNow)
    {
      var a := attempts[i];
      if o.Absent? {
        attempts := attempts[i := a.(resolution := ResolvedOk(o))];
        TombstoneRow(o.resource);
        Track(Resolve(i, ResolvedOk(o)));
        return;
      }
      var ok := journal.Claim(Subject(o), if Creates(a.command) then a.command.labels else map[]);
      if ok {
        attempts := attempts[i := a.(resolution := ResolvedOk(o))];
        Track(Resolve(i, ResolvedOk(o)));
      } else {
        SetNote(id, BlockedNow);
      }
    }

    method TombstoneRow(ref: Ref)
      modifies journal
      ensures journal.ledger == Tombstoned(old(journal.ledger), ref, journal.allocation, journal.account)
    {
      if ref in journal.ledger && journal.ledger[ref].allocation == journal.allocation
         && journal.ledger[ref].account == journal.account && !journal.ledger[ref].absent {
        journal.ledger := journal.ledger[ref := journal.ledger[ref].(absent := true)];
      }
    }

    // ---- ending an operation

    method FailOperation(id: Id, error: Id, retire: bool)
      requires Working(id)
      requires retire ==> operations[id].lifecycle.LCreate? && NoPossibleVm(attempts, id)
                          && forall r :: r in journal.ledger && r.kind.IpKind? ==> !OwnLive(journal.ledger, r, journal.allocation)
      modifies this
      ensures Valid() && old(history) <= history && model.flight.Grounded? && attempts == old(attempts)
      ensures operations == old(operations)[id := old(operations)[id].(progress := Failed(error))] && retired == retire
    {
      operations := operations[id := operations[id].(progress := Failed(error))];
      retired := retire;
      Track(Fail(id, error, retire));
    }

    /** beginFailure: compensate what is live, keep what may exist, and give the allocation back only otherwise. */
    method BeginFailure(id: Id, error: Id)
      requires Working(id) && operations[id].intent.Provision?
      modifies this
      ensures Valid() && old(history) <= history && model.flight.Grounded? && attempts == old(attempts)
      ensures id in operations
      ensures if operations[id].intent.Compensate? then operations[id].intent == Compensate(error) && IsActive(operations[id])
              else operations[id].progress == Failed(error)
      ensures retired <==> operations[id].lifecycle.LCreate? && NoPossibleVm(attempts, id) && NothingLive(journal.ledger, journal.allocation)
      ensures operations[id].intent.Compensate? <==>
                operations[id].lifecycle.LCreate? && NoPossibleVm(attempts, id) && !NothingLive(journal.ledger, journal.allocation)
    {
      if !operations[id].lifecycle.LCreate? {
        FailOperation(id, error, false);
        return;
      }
      var create := EffectOf(id, 2);
      CreateIsAlone(id);
      var possibleVm := create.Some? && !attempts[create.value].outcome.Rejected?;
      var live := FindLive(None);
      if !possibleVm && live.Some? {
        operations := operations[id := operations[id].(intent := Compensate(error), progress := Active(CleaningUp))];
        Track(BeginCompensation(id, error));
        return;
      }
      FailOperation(id, error, !possibleVm);
    }

    /** The first create found is the only one, so its outcome decides whether a VM is possible. */
    lemma CreateIsAlone(id: Id)
      requires Valid()
      ensures forall i, j :: 0 <= i < j < |attempts| ==> !(attempts[i].command.Create? && attempts[j].command.Create?)
    {
      Consistent();
      forall i, j | 0 <= i < j < |attempts| && attempts[i].command.Create? && attempts[j].command.Create? ensures false {
        OneCreateEach(model, i, j);
      }
    }

    /** complete: every refusal is thrown, and a destroy gives the allocation back only with nothing live. */
    method CompleteOperation(id: Id, server: Option<Server>, verified: bool, expired: bool) returns (end: Ending)
      requires Working(id)
      requires !operations[id].lifecycle.LDestroy? && server.Some? ==> Fulfilled(attempts, id, operations[id].lifecycle)
      modifies this, journal
      ensures Valid() && old(history) <= history && model.flight.Grounded? && attempts == old(attempts)
      ensures end.Threw? ==> Working(id) && operations == old(operations) && journal.ledger == old(journal.ledger)
      ensures !end.Dead? && journal.ledger == old(journal.ledger)
      ensures id in operations && operations[id].lifecycle == old(operations)[id].lifecycle
      ensures retired ==> operations[id].lifecycle.LDestroy? && NothingLive(journal.ledger, journal.allocation)
      ensures IsActive(operations[id]) || EndedWell(operations[id], server, retired)
      ensures !IsActive(operations[id]) ==>
                (operations[id].lifecycle.LCreate? || operations[id].lifecycle.LResize?) && operations[id].lifecycle.dailyBackups ==>
                  server.Some? && server.value.backups == Enabled
    {
      var l := operations[id].lifecycle;
      if verified {
        var p := operations[id].progress;
        if !(p.note.WaitingGuest? && p.note.runtime && server.Some? && p.note.server == server.value.id) { return Ended; }
        if expired {
          SetNote(id, BlockedNow);
          return Ended;
        }
      }
      if l.LDestroy? {
        if server.Some? { return Threw(UNKNOWN_OUTCOME); }
        var live := FindLive(None);
        if live.Some? { return Threw(UNKNOWN_OUTCOME); }
        retired, destroyed := true, true;
      } else {
        if server.None? { return Threw(UNKNOWN_OUTCOME); }
        if DailyBackups(l) && !server.value.backups.Enabled? { return Threw(REJECTED); }
        journal.serverId := Some(server.value.id);
      }
      operations := operations[id := operations[id].(progress := Progress.Succeeded)];
      Track(Complete(id));
      return Ended;
    }

    // ---- branches of a tick

    /** At most one attempt was added, at the end, and it is this operation's and unresolved. */
    ghost predicate OneMore(before: seq<Attempt>, id: Id)
      reads this
    {
      && |before| <= |attempts| <= |before| + 1 && attempts[..|before|] == before
      && (|attempts| > |before| ==> PendingIn(attempts[|before|], id))
    }

    /** What a tick's effect is, by lifecycle: every argument, and every row it names. */
    ghost predicate Ticked(o: Operation, c: Command, labels: Labels, ledger: Ledger, r: TickReplies) {
      && Names(c, ledger)
      && if o.intent.Compensate? then c.DeleteIp?
         else match o.lifecycle
              case LCreate(_, _, _, _) =>
                Provisions(c, o.lifecycle, labels) && (c.Create? ==> Networked(c.network, ledger, r))
              case LResize(_, dailyBackups) =>
                (c.EnableBackup? && dailyBackups) || (r.server.Some? && c == EffectOn(o.lifecycle, r.server.value.id))
              case LDestroy => c.DeleteIp? || (r.server.Some? && c == EffectOn(o.lifecycle, r.server.value.id))
              case _ => r.server.Some? && c == EffectOn(o.lifecycle, r.server.value.id)
    }

    /** No attempt of the operation yet, and nothing has gone wrong. */
    ghost predicate Unstarted(o: Operation, id: Id, before: seq<Attempt>) {
      o.intent.Provision? && forall j :: 0 <= j < |before| ==> before[j].operation != id
    }

    /** What the first tick journals when everything it reads agrees. */
    ghost predicate Starts(l: Lifecycle, before: seq<Attempt>, labels: Labels, ledger: Ledger, serverId: Option<Id>, r: TickReplies)
      reads this
    {
      && (l.LCreate? && managed && (hetzner ==> r.guestEnabled && r.image == None) ==>
            |attempts| > |before| && attempts[|before|].command == CreateIp(l.region, labels))
      && (!l.LCreate? && serverId.Some? && r.server.Some? && IsSoleServer(r.server.value, ledger)
          && (managed ==> r.server.value.primaryIp.Some?
                          && OwnLive(ledger, Ref(IpKind, r.server.value.primaryIp.value), journal.allocation)) ==>
            |attempts| > |before| && attempts[|before|].command == EffectOn(l, r.server.value.id))
    }

    /** The IP of a create is confirmed and read as ready, and its server is not ordered yet. */
    ghost predicate Networkable(o: Operation, id: Id, before: seq<Attempt>, ledger: Ledger, r: TickReplies) {
      && o.intent.Provision? && o.lifecycle.LCreate? && managed && (hetzner ==> r.guestEnabled && r.image == None)
      && r.ip.Some? && IsReady(r.ip.value, ledger)
      && (forall j :: 0 <= j < |before| && before[j].operation == id ==>
            !before[j].command.Create? && !before[j].resolution.Unresolved? && !before[j].resolution.ResolvedFailed?)
      && exists j :: 0 <= j < |before| && before[j].operation == id && before[j].command.CreateIp?
    }

    /** The commands of a create that is not being undone, with its own arguments. */
    ghost predicate Provisions(c: Command, l: Lifecycle, labels: Labels)
      requires l.LCreate?
    {
      match c
      case CreateIp(region, tags) => region == l.region && tags == labels
      case Create(serverType, region, _, tags) => serverType == l.serverType && region == l.region && tags == labels
      case EnableBackup(_) => l.dailyBackups
      case _ => false
    }

    /** The IP of a new server: a live row, read as owned and free if the allocation's network is managed; none only without one. */
    ghost predicate Networked(network: Option<Id>, ledger: Ledger, r: TickReplies) {
      if network.Some? then
        && OwnLive(ledger, Ref(IpKind, network.value), journal.allocation)
        && (managed ==> r.ip.Some? && r.ip.value.id == network.value && r.ip.value.assignment == None && r.ip.value.autoDelete
                        && MatchesLabels(r.ip.value.labels, ledger[Ref(IpKind, network.value)].labels))
      else
        !managed && !hetzner && forall x :: x in ledger && x.kind.IpKind? ==> !OwnLive(ledger, x, journal.allocation)
    }

    /** The allocation's one live IP, read as owned and free. */
    ghost predicate IsReady(ip: Ip, ledger: Ledger) {
      && OwnLive(ledger, Ref(IpKind, ip.id), journal.allocation)
      && (forall x :: x in ledger && x.kind.IpKind? && OwnLive(ledger, x, journal.allocation) ==> x == Ref(IpKind, ip.id))
      && ip.assignment == None && ip.autoDelete && MatchesLabels(ip.labels, ledger[Ref(IpKind, ip.id)].labels)
    }

    /** The allocation's one live server row, under whose labels it is read. */
    ghost predicate IsSoleServer(x: Server, ledger: Ledger) {
      && OwnLive(ledger, Ref(ServerKind, x.id), journal.allocation)
      && (forall y :: y in ledger && y.kind.ServerKind? && OwnLive(ledger, y, journal.allocation) ==> y == Ref(ServerKind, x.id))
      && MatchesLabels(x.labels, ledger[Ref(ServerKind, x.id)].labels)
    }

    /** What a command names is a live row of this allocation. */
    ghost predicate Names(c: Command, ledger: Ledger) {
      && (Target(c).Some? ==> OwnLive(ledger, Target(c).value, journal.allocation))
      && (c.Create? && c.network.Some? ==> OwnLive(ledger, Ref(IpKind, c.network.value), journal.allocation))
    }

    /** What a branch leaves: still working with nothing added, or one attempt more, or the operation ended. */
    ghost predicate Left(before: seq<Attempt>, id: Id, end: Ending)
      reads this, journal
    {
      && Valid() && model.flight.Grounded? && id in operations && OneMore(before, id)
      && (end.Threw? ==> IsActive(operations[id]) && !IsCleanup(operations[id]) && !retired)
    }

    /** cleanupIp: true when no live IP row remains; otherwise it has taken the one step it may. */
    method CleanupIp(id: Id, read: Option<Ip>, sending: Sending) returns (clean: bool, end: Ending)
      requires Working(id) && (operations[id].intent.Compensate? || operations[id].lifecycle.LDestroy?)
      modifies this, journal
      ensures old(history) <= history && Left(old(attempts), id, end)
      ensures clean ==> Working(id) && end.Ended? && operations == old(operations) && journal.ledger == old(journal.ledger)
      ensures clean <==> forall r :: r in old(journal.ledger) && r.kind.IpKind? ==> !OwnLive(old(journal.ledger), r, journal.allocation)
      ensures |attempts| > |old(attempts)| ==>
                read.Some? && attempts[|old(attempts)|].command == DeleteIp(read.value.id)
                && OwnLive(old(journal.ledger), Ref(IpKind, read.value.id), journal.allocation) && read.value.assignment == None
      ensures end.Threw? ==> operations[id].intent == old(operations)[id].intent
    {
      end, clean := Ended, false;
      if operations[id].intent.Compensate? { Compensated(id); }
      var row := FindLive(Some(IpKind));
      if row.None? { return true, Ended; }
      if read.None? {
        RecordAbsence(row.value);
        return;
      }
      var ip := read.value;
      if ip.id != row.value.id || !MatchesLabels(ip.labels, journal.ledger[row.value].labels) || ip.assignment.Some? {
        SetNote(id, BlockedNow);
        return;
      }
      var previous := FindDeletion(id, ip.id);
      if previous {
        SetNote(id, BlockedNow);
        return;
      }
      end := JournalEffect(id, DeleteIp(ip.id), sending);
    }

    method FindDeletion(id: Id, ip: Id) returns (found: bool)
      ensures found <==> !Untried(attempts, id, DeleteIp(ip))
    {
      var k := 0;
      while k < |attempts|
        invariant k <= |attempts|
        invariant forall j :: 0 <= j < k ==> !(attempts[j].operation == id && attempts[j].command == DeleteIp(ip))
      {
        if attempts[k].operation == id && attempts[k].command == DeleteIp(ip) { return true; }
        k := k + 1;
      }
      return false;
    }

    /** ensureProviderBackups: the verified server with its admitted backups, or the one step towards it. */
    method EnsureBackups(id: Id, server: Server, read: Option<Server>, sending: Sending)
      returns (ready: Option<Server>, end: Ending)
      requires Working(id) && operations[id].intent.Provision?
      modifies this, journal
      ensures old(history) <= history && Left(old(attempts), id, end)
      ensures ready.Some? ==> Working(id) && end.Ended? && operations == old(operations)
                              && (DailyBackups(operations[id].lifecycle) ==> ready.value.backups.Enabled? && ready.value.id == server.id)
      ensures |attempts| > |old(attempts)| ==>
                DailyBackups(old(operations)[id].lifecycle) && attempts[|old(attempts)|].command == EnableBackup(server.id)
                && OwnLive(old(journal.ledger), Ref(ServerKind, server.id), journal.allocation)
      ensures end.Threw? ==> operations[id].intent.Provision?
    {
      end := Ended;
      if !DailyBackups(operations[id].lifecycle) { return Some(server), Ended; }
      var ref := Ref(ServerKind, server.id);
      var owned := ref in journal.ledger && journal.ledger[ref].allocation == journal.allocation && !journal.ledger[ref].absent;
      if !owned || read.None? || read.value.id != server.id || !MatchesLabels(read.value.labels, journal.ledger[ref].labels) {
        SetNote(id, BlockedNow);
        return None, Ended;
      }
      if read.value.backups.Enabled? { return read, Ended; }
      var tried := EffectOf(id, 4);
      if read.value.backups.UnknownStatus? || tried.Some? {
        SetNote(id, BlockedNow);
        return None, Ended;
      }
      end := JournalEffect(id, EnableBackup(server.id), sending);
      ready := None;
    }

    method VerifyRuntime(id: Id, server: Id, r: TickReplies, runtime: bool) returns (end: Ending)
      requires Working(id) && operations[id].intent.Provision?
      requires !operations[id].lifecycle.LDestroy? && Fulfilled(attempts, id, operations[id].lifecycle)
      modifies this, journal
      ensures old(history) <= history && Left(old(attempts), id, end) && attempts == old(attempts)
      ensures end.Threw? ==> operations[id].intent.Provision?
    {
      SetNote(id, WaitingGuest(server, runtime));
      if !r.guestEnabled || r.runtime.RuntimeBlocked? {
        SetNote(id, BlockedNow);
        return Ended;
      }
      if r.runtime.RuntimeWaiting? { return Ended; }
      end := CompleteOperation(id, Some(r.runtime.server), true, r.expired);
    }

    method ProceedCreate(id: Id, labels: Labels, r: TickReplies) returns (end: Ending)
      requires LabelledFor(labels, id)
      requires Working(id) && operations[id].intent.Provision? && operations[id].lifecycle.LCreate?
      modifies this, journal
      ensures old(history) <= history && Left(old(attempts), id, end)
      ensures end.Threw? ==> operations[id].intent.Provision?
      ensures |attempts| > |old(attempts)| ==> Names(attempts[|old(attempts)|].command, old(journal.ledger))
      ensures |attempts| > |old(attempts)| ==> Provisions(attempts[|old(attempts)|].command, old(operations)[id].lifecycle, labels)
      ensures |attempts| > |old(attempts)| && attempts[|old(attempts)|].command.Create? ==>
                Networked(attempts[|old(attempts)|].command.network, old(journal.ledger), r)
      ensures (&& (forall j :: 0 <= j < |old(attempts)| ==> old(attempts)[j].operation != id)
               && r.sending.refused == None && (hetzner ==> r.guestEnabled && r.image == None) && managed) ==>
                |attempts| > |old(attempts)| && attempts[|old(attempts)|].command == CreateIp(old(operations)[id].lifecycle.region, labels)
      ensures (&& r.ip.Some? && IsReady(r.ip.value, old(journal.ledger))
               && (forall j :: 0 <= j < |old(attempts)| && old(attempts)[j].operation == id ==> !old(attempts)[j].command.Create?)
               && (exists j :: 0 <= j < |old(attempts)| && old(attempts)[j].operation == id && old(attempts)[j].command.CreateIp?)
               && r.sending.refused == None && (hetzner ==> r.guestEnabled && r.image == None) && managed) ==>
                |attempts| > |old(attempts)|
                && attempts[|old(attempts)|].command
                   == Create(old(operations)[id].lifecycle.serverType, old(operations)[id].lifecycle.region, Some(r.ip.value.id), labels)
    {
      var l := operations[id].lifecycle;
      var create := EffectOf(id, 2);
      if create.None? && hetzner && !r.guestEnabled { return Threw(REJECTED); }
      if create.None? && hetzner && r.image.Some? { return Threw(r.image.value); }
      var ipEffect := EffectOf(id, 0);
      if managed && ipEffect.None? {
        end := JournalEffect(id, CreateIp(l.region, labels), r.sending);
        return;
      }
      if create.None? {
        end := CreateServer(id, labels, r);
        return;
      }
      var made := attempts[create.value].resolution;
      if !made.ResolvedOk? || !made.observation.ServerSeen? { return Threw(INTERNAL); }
      assert Fulfils(l, attempts[create.value]);
      var server := made.observation.server;
      var ready;
      ready, end := EnsureBackups(id, server, r.backups, r.sending);
      if ready.None? { return; }
      if hetzner {
        end := VerifyRuntime(id, server.id, r, r.identityIssued);
      } else {
        end := CompleteOperation(id, ready, false, false);
      }
    }

    method CreateServer(id: Id, labels: Labels, r: TickReplies) returns (end: Ending)
      requires LabelledFor(labels, id)
      requires Working(id) && operations[id].intent.Provision? && operations[id].lifecycle.LCreate?
      requires forall j :: 0 <= j < |attempts| ==> !(attempts[j].operation == id && Signature(attempts[j].command).0 == 2)
      modifies this, journal
      ensures old(history) <= history && Left(old(attempts), id, end)
      ensures end.Threw? ==> operations[id].intent.Provision?
      ensures |attempts| > |old(attempts)| ==> Names(attempts[|old(attempts)|].command, old(journal.ledger))
      ensures |attempts| > |old(attempts)| ==>
                && attempts[|old(attempts)|].command.Create?
                && Provisions(attempts[|old(attempts)|].command, old(operations)[id].lifecycle, labels)
                && Networked(attempts[|old(attempts)|].command.network, old(journal.ledger), r)
      ensures r.ip.Some? && IsReady(r.ip.value, old(journal.ledger)) && r.sending.refused == None && managed ==>
                |attempts| > |old(attempts)| && attempts[|old(attempts)|].command.network == Some(r.ip.value.id)
    {
      var l := operations[id].lifecycle;
      var row := FindLive(Some(IpKind));
      if managed {
        if row.None? { return Threw(INTERNAL); }
        if r.ip.None? {
          RecordAbsence(row.value);
          return Threw(REJECTED);
        }
        var ip := r.ip.value;
        if ip.id != row.value.id || !MatchesLabels(ip.labels, journal.ledger[row.value].labels)
           || ip.assignment.Some? || !ip.autoDelete {
          SetNote(id, BlockedNow);
          return Ended;
        }
      }
      if hetzner && (row.None? || !managed) { return Threw(REJECTED); }
      var network := if row.Some? then Some(row.value.id) else None;
      end := JournalEffect(id, Create(l.serverType, l.region, network, labels), r.sending);
    }

    method ProceedOther(id: Id, r: TickReplies) returns (end: Ending)
      requires Working(id) && operations[id].intent.Provision? && !operations[id].lifecycle.LCreate?
      modifies this, journal
      ensures old(history) <= history && Left(old(attempts), id, end)
      ensures end.Threw? ==> operations[id].intent.Provision?
      ensures |attempts| > |old(attempts)| ==> Names(attempts[|old(attempts)|].command, old(journal.ledger))
      ensures |attempts| > |old(attempts)| ==>
                || (r.server.Some? && attempts[|old(attempts)|].command == EffectOn(old(operations)[id].lifecycle, r.server.value.id))
                || (match old(operations)[id].lifecycle
                    case LDestroy => attempts[|old(attempts)|].command.DeleteIp?
                    case LResize(_, dailyBackups) => dailyBackups && attempts[|old(attempts)|].command.EnableBackup?
                    case _ => false)
      ensures (&& r.server.Some? && IsSoleServer(r.server.value, old(journal.ledger)) && old(journal.serverId).Some?
               && (managed ==> r.server.value.primaryIp.Some?
                               && OwnLive(old(journal.ledger), Ref(IpKind, r.server.value.primaryIp.value), journal.allocation))
               && (forall j :: 0 <= j < |old(attempts)| ==> old(attempts)[j].operation != id)
               && r.sending.refused == None) ==>
                |attempts| > |old(attempts)|
                && attempts[|old(attempts)|].command == EffectOn(old(operations)[id].lifecycle, r.server.value.id)
    {
      var l := operations[id].lifecycle;
      var row := FindLive(Some(ServerKind));
      if l.LDestroy? && row.None? {
        end := CleanAndComplete(id, r);
        return;
      }
      var effect := EffectOf(id, EffectKind(l));
      if effect.Some? {
        end := FinishOther(id, effect.value, r);
        return;
      }
      if row.None? || journal.serverId.None? { return Threw(REJECTED); }
      if r.server.None? {
        if l.LDestroy? {
          RecordAbsence(row.value);
          return Ended;
        }
        return Threw(REJECTED);
      }
      var server := r.server.value;
      if server.id != row.value.id || !MatchesLabels(server.labels, journal.ledger[row.value].labels) {
        SetNote(id, BlockedNow);
        return Ended;
      }
      if managed && !OwnsIp(server.primaryIp) {
        SetNote(id, BlockedNow);
        return Ended;
      }
      end := JournalEffect(id, EffectOn(l, server.id), r.sending);
    }

    predicate OwnsIp(ip: Option<Id>)
      reads this, journal
    {
      ip.Some? && OwnLive(journal.ledger, Ref(IpKind, ip.value), journal.allocation)
    }

    method CleanAndComplete(id: Id, r: TickReplies) returns (end: Ending)
      requires Working(id) && operations[id].intent.Provision? && operations[id].lifecycle.LDestroy?
      modifies this, journal
      ensures old(history) <= history && Left(old(attempts), id, end)
      ensures end.Threw? ==> operations[id].intent.Provision?
      ensures |attempts| > |old(attempts)| ==>
                attempts[|old(attempts)|].command.DeleteIp? && Names(attempts[|old(attempts)|].command, old(journal.ledger))
    {
      var clean;
      clean, end := CleanupIp(id, r.cleanupIp, r.sending);
      if clean { end := CompleteOperation(id, None, false, false); }
    }

    method FinishOther(id: Id, effect: nat, r: TickReplies) returns (end: Ending)
      requires Working(id) && operations[id].intent.Provision? && !operations[id].lifecycle.LCreate?
      requires effect < |attempts| && attempts[effect].operation == id
      requires Signature(attempts[effect].command).0 == EffectKind(operations[id].lifecycle)
      modifies this, journal
      ensures old(history) <= history && Left(old(attempts), id, end)
      ensures end.Threw? ==> operations[id].intent.Provision?
      ensures |attempts| > |old(attempts)| ==>
                && (match old(operations)[id].lifecycle
                    case LDestroy => attempts[|old(attempts)|].command.DeleteIp?
                    case LResize(_, dailyBackups) => dailyBackups && attempts[|old(attempts)|].command.EnableBackup?
                    case _ => false)
                && Names(attempts[|old(attempts)|].command, old(journal.ledger))
    {
      var l, done := operations[id].lifecycle, attempts[effect].resolution;
      if !done.ResolvedOk? { return Threw(INTERNAL); }
      if l.LDestroy? {
        end := CleanAndComplete(id, r);
        return;
      }
      if !done.observation.ServerSeen? { return Threw(INTERNAL); }
      assert Fulfils(l, attempts[effect]);
      var server := done.observation.server;
      if hetzner && (l.LReboot? || l.LPowerOn?) {
        end := VerifyRuntime(id, server.id, r, true);
        return;
      }
      var ready := Some(server);
      if l.LResize? {
        ready, end := EnsureBackups(id, server, r.backups, r.sending);
        if ready.None? { return; }
      }
      end := CompleteOperation(id, ready, false, false);
    }

    /**
     advanceLocked for an operation that no cleanup has taken over. A tick journals at most one effect, and none
     while one is pending; it ends the operation, or gives the allocation back, only as the guards allow.
     */
    method AdvanceLocked(id: Id, allocationLabels: Labels, r: TickReplies)
      requires Valid() && model.flight.Grounded?
      requires id in operations ==> !IsCleanup(operations[id])
      modifies this, journal
      ensures Valid() && model.flight.Grounded? && old(history) <= history
      ensures |old(attempts)| <= |attempts| <= |old(attempts)| + 1
      ensures !Quiet(old(attempts), id) ==> |attempts| == |old(attempts)| && retired == old(retired)
      ensures id !in old(operations) || !IsActive(old(operations)[id]) || old(retired) ==> history == old(history)
      ensures retired ==> forall x :: x in journal.ledger && journal.ledger[x].allocation == journal.allocation ==> journal.ledger[x].absent
      ensures id in operations && !IsActive(operations[id]) ==> Quiet(attempts, id)
      ensures |attempts| > |old(attempts)| ==>
                && id in old(operations) && attempts[..|old(attempts)|] == old(attempts) && attempts[|old(attempts)|].operation == id
                && (if old(operations)[id].intent.Compensate? then attempts[|old(attempts)|].command.DeleteIp?
                    else match old(operations)[id].lifecycle
                         case LCreate(_, serverType, region, dailyBackups) => (
                           match attempts[|old(attempts)|].command
                           case CreateIp(r, labels) => r == region && labels == allocationLabels[OPERATION := id]
                           case Create(t, r, network, labels) =>
                             && t == serverType && r == region && labels == allocationLabels[OPERATION := id]
                             && (network == None ==> !managed && !hetzner)
                           case EnableBackup(_) => dailyBackups
                           case _ => false)
                         case LDestroy => attempts[|old(attempts)|].command.Destroy? || attempts[|old(attempts)|].command.DeleteIp?
                         case LResize(serverType, dailyBackups) => (
                           match attempts[|old(attempts)|].command
                           case Resize(_, t) => t == serverType
                           case EnableBackup(_) => dailyBackups
                           case _ => false)
                         case LPowerOff => attempts[|old(attempts)|].command.PowerOff?
                         case LPowerOn => attempts[|old(attempts)|].command.PowerOn?
                         case LReboot => attempts[|old(attempts)|].command.Reboot?)
      ensures |attempts| > |old(attempts)| ==>
                match attempts[|old(attempts)|].command
                case CreateIp(_, _) => true
                case Create(_, _, network, _) =>
                  network.Some? ==>
                    && Ref(IpKind, network.value) in old(journal.ledger)
                    && old(journal.ledger)[Ref(IpKind, network.value)].allocation == journal.allocation
                    && !old(journal.ledger)[Ref(IpKind, network.value)].absent
                    && (managed ==> r.ip.Some? && r.ip.value.id == network.value && r.ip.value.assignment == None)
                case DeleteIp(ip) =>
                  && Ref(IpKind, ip) in old(journal.ledger) && !old(journal.ledger)[Ref(IpKind, ip)].absent
                  && old(journal.ledger)[Ref(IpKind, ip)].allocation == journal.allocation
                case _ =>
                  var server := Ref(ServerKind, attempts[|old(attempts)|].command.server);
                  && server in old(journal.ledger) && !old(journal.ledger)[server].absent
                  && old(journal.ledger)[server].allocation == journal.allocation
      ensures (&& id in old(operations) && old(operations)[id].progress.Active? && !old(retired)
               && Unstarted(old(operations)[id], id, old(attempts)) && r.sending.refused == None) ==>
                var l := old(operations)[id].lifecycle;
                if l.LCreate? then
                  managed && (hetzner ==> r.guestEnabled && r.image == None) ==>
                    |attempts| > |old(attempts)| && attempts[|old(attempts)|].command == CreateIp(l.region, allocationLabels[OPERATION := id])
                else
                  (&& old(journal.serverId).Some? && r.server.Some? && IsSoleServer(r.server.value, old(journal.ledger))
                   && (managed ==> r.server.value.primaryIp.Some?
                                   && OwnLive(old(journal.ledger), Ref(IpKind, r.server.value.primaryIp.value), journal.allocation))) ==>
                    |attempts| > |old(attempts)| &&
                    attempts[|old(attempts)|].command ==
                      if l.LDestroy? then Destroy(r.server.value.id)
                      else if l.LResize? then Resize(r.server.value.id, l.serverType)
                      else if l.LPowerOff? then PowerOff(r.server.value.id)
                      else if l.LPowerOn? then PowerOn(r.server.value.id)
                      else Reboot(r.server.value.id)
      ensures (&& id in old(operations) && old(operations)[id].progress.Active? && !old(retired)
               && Networkable(old(operations)[id], id, old(attempts), old(journal.ledger), r) && r.sending.refused == None) ==>
                |attempts| > |old(attempts)|
                && attempts[|old(attempts)|].command
                   == Create(old(operations)[id].lifecycle.serverType, old(operations)[id].lifecycle.region,
                             Some(r.ip.value.id), allocationLabels[OPERATION := id])
    {
      if id !in operations || !IsActive(operations[id]) || retired {
        Settled(id);
        return;
      }
      var labels := allocationLabels[OPERATION := id];  // effectLabels
      var pending := FindPending(id);
      if pending.Some? {
        TargetIsOwn(pending.value);
        var expected := ExpectedLabels(pending.value, labels);
        ResolveEffect(id, pending.value, expected, r.evaluation, r.evaluationThrows);
      } else {
        Advance(id, labels, r);
      }
      Settled(id);
    }

    lemma Settled(id: Id)
      requires Valid()
      ensures retired ==> NothingLive(journal.ledger, journal.allocation)
      ensures id in operations && !IsActive(operations[id]) ==> Quiet(attempts, id)
    {
      Consistent();
      if id in operations { assert OperationOk(id, operations, attempts); }
    }

    lemma TargetIsOwn(i: nat)
      requires Valid() && i < |attempts|
      ensures var t := Target(attempts[i].command); t.Some? ==> OwnRow(journal.ledger, t.value, journal.allocation)
    {
      Consistent();
      assert AttemptOk(attempts[i], operations, journal.ledger, journal.allocation);
    }

    method ExpectedLabels(i: nat, labels: Labels) returns (expected: Labels)
      requires i < |attempts|
      ensures expected == var t := Target(attempts[i].command);
                          if t.Some? && t.value in journal.ledger && journal.ledger[t.value].allocation == journal.allocation
                          then journal.ledger[t.value].labels else labels
    {
      var t := Target(attempts[i].command);
      expected := labels;
      if t.Some? && t.value in journal.ledger && journal.ledger[t.value].allocation == journal.allocation {
        expected := journal.ledger[t.value].labels;
      }
    }

    method Advance(id: Id, labels: Labels, r: TickReplies)
      requires Working(id) && LabelledFor(labels, id)
      modifies this, journal
      ensures old(history) <= history && Left(old(attempts), id, Ended)
      ensures |attempts| > |old(attempts)| ==> Ticked(old(operations)[id], attempts[|old(attempts)|].command, labels, old(journal.ledger), r)
      ensures Unstarted(old(operations)[id], id, old(attempts)) && r.sending.refused == None ==>
                Starts(old(operations)[id].lifecycle, old(attempts), labels, old(journal.ledger), old(journal.serverId), r)
      ensures Networkable(old(operations)[id], id, old(attempts), old(journal.ledger), r) && r.sending.refused == None ==>
                |attempts| > |old(attempts)|
                && attempts[|old(attempts)|].command
                   == Create(old(operations)[id].lifecycle.serverType, old(operations)[id].lifecycle.region, Some(r.ip.value.id), labels)
    {
      var intent := operations[id].intent;
      if intent.Compensate? {
        var clean, end := CleanupIp(id, r.cleanupIp, r.sending);
        if clean {
          Compensated(id);
          FailOperation(id, intent.error, true);
        }
        return;
      }
      var failed := FindFailed(id);
      if failed.Some? {
        var a := attempts[failed.value];
        if a.command.DeleteIp? {
          OnlyDestroyDeletesIps(id, failed.value);
          var end := CleanAndComplete(id, r);
        } else {
          BeginFailure(id, a.resolution.error);
        }
        return;
      }
      var end;
      if operations[id].lifecycle.LCreate? {
        end := ProceedCreate(id, labels, r);
      } else {
        end := ProceedOther(id, r);
      }
      if end.Threw? && !end.thrown.transient { Handle(id, end.thrown.error); }
    }

    /** Outside compensation only a destroy has deleted an IP. */
    lemma OnlyDestroyDeletesIps(id: Id, i: nat)
      requires Valid() && i < |attempts| && attempts[i].operation == id && attempts[i].command.DeleteIp?
      requires id in operations && operations[id].intent.Provision?
      ensures operations[id].lifecycle.LDestroy?
    {
      Consistent();
      assert AttemptOk(attempts[i], operations, journal.ledger, journal.allocation);
    }

    /** A compensating operation's VM is impossible, so its allocation owns no server. */
    lemma Compensated(id: Id)
      requires Valid() && id in operations && operations[id].intent.Compensate?
      ensures operations[id].lifecycle.LCreate? && NoPossibleVm(attempts, id)
    {
      Consistent();
      assert OperationOk(id, operations, attempts);
    }

    /** A failure after submission must not turn an uncertain effect into cleanup. */
    method Handle(id: Id, error: Id)
      requires Valid() && model.flight.Grounded? && !retired
      requires id in operations && IsActive(operations[id]) && operations[id].intent.Provision?
      modifies this, journal
      ensures Valid() && old(history) <= history && model.flight.Grounded? && attempts == old(attempts) && id in operations
      ensures journal.ledger == old(journal.ledger)
      ensures !Quiet(attempts, id) ==>
                !retired && operations == old(operations)[id := old(operations)[id].(progress := Active(BlockedNow))]
      ensures Quiet(attempts, id) ==>
                && (if operations[id].intent.Compensate? then operations[id].intent == Compensate(error) && IsActive(operations[id])
                    else operations[id].progress == Failed(error))
                && (retired <==> operations[id].lifecycle.LCreate? && NoPossibleVm(attempts, id)
                                 && NothingLive(journal.ledger, journal.allocation))
                && (operations[id].intent.Compensate? <==>
                      operations[id].lifecycle.LCreate? && NoPossibleVm(attempts, id)
                      && !NothingLive(journal.ledger, journal.allocation))
    {
      var pending := FindPending(id);
      if pending.Some? {
        SetNote(id, BlockedNow);
      } else {
        BeginFailure(id, error);
      }
    }
  }

  /** A destroy gave its allocation back; anything else saw its server, with the backups its offer admits. */
  predicate EndedWell(o: Operation, server: Option<Server>, retired: bool) {
    && o.progress.Succeeded?
    && if o.lifecycle.LDestroy? then server.None? && retired
       else server.Some? && (DailyBackups(o.lifecycle) ==> server.value.backups.Enabled?)
  }

  predicate DailyBackups(l: Lifecycle) {
    (l.LCreate? || l.LResize?) && l.dailyBackups
  }
}
