/**
 The access service as it runs: transactions over the session table, and an issue pass that awaits the
 network, the guest and the signer between them while other requests commit. Every method is proved to
 be a run of the state machine in Sessions.
 */
module AccessService {
  import opened Prelude
  import opened Sessions
  import opened SessionProofs
  import opened SessionTheorems

  /** Events of other requests: anything but the steps of this session's own pass, which holds its lock. */
  predicate IsOther(e: Event, id: Id) {
    (e.BeginIssue? || e.Prepare? || e.Observe? || e.Attempt? || e.Sign? || e.Publish? || e.EndPass?) ==> e.id != id
  }

  lemma OtherKeepsPass(s: State, e: Event, id: Id)
    requires IsOther(e, id) && (id in s.passes ==> id in s.sessions)
    ensures var t := Apply(s, e);
            && (id in t.passes <==> id in s.passes) && (id in s.passes ==> t.passes[id] == s.passes[id])
            && (id in s.sessions ==> id in t.sessions && t.sessions[id].issuance == s.sessions[id].issuance)
  {
    if IssueEvent(e) { OtherPassKeepsPass(s, e, id); }
    else if e.ClaimTicket? { assert ClaimStep(s, e.id, e.claim, e.view, e.elapsed, e.again).passes == s.passes; }
  }

  lemma OtherPassKeepsPass(s: State, e: Event, id: Id)
    requires IssueEvent(e) && e.id != id
    ensures var t := IssueStep(s, e);
            && (id in t.passes <==> id in s.passes) && (id in s.passes ==> t.passes[id] == s.passes[id])
            && (id in s.sessions ==> id in t.sessions && t.sessions[id].issuance == s.sessions[id].issuance)
  {
  }

  lemma {:induction false} OthersKeepPass(s: State, events: seq<Event>, id: Id)
    requires Inv(s) && forall i :: 0 <= i < |events| ==> IsOther(events[i], id)
    ensures var t := Run(s, events);
            && (id in t.passes <==> id in s.passes) && (id in s.passes ==> t.passes[id] == s.passes[id])
            && (id in s.sessions ==> id in t.sessions && t.sessions[id].issuance == s.sessions[id].issuance)
    decreases |events|
  {
    if events != [] {
      var before := events[..|events| - 1];
      OthersKeepPass(s, before, id);
      RunKeepsInv(s, before);
      OtherKeepsPass(Run(s, before), events[|events| - 1], id);
    }
  }

  lemma RunAppends(s: State, events: seq<Event>, e: Event)
    ensures Run(s, events + [e]) == Apply(Run(s, events), e)
  {
    assert (events + [e])[..|events|] == events;
  }

  lemma {:induction false} RunSplits(s: State, first: seq<Event>, rest: seq<Event>)
    ensures Run(s, first + rest) == Run(Run(s, first), rest)
    decreases |rest|
  {
    if rest == [] {
      assert first + rest == first;
    } else {
      var n := |rest| - 1;
      RunSplits(s, first, rest[..n]);
      assert (first + rest)[..|first + rest| - 1] == first + rest[..n];
      assert (first + rest)[|first + rest| - 1] == rest[n];
    }
  }

  lemma LeadsAppend(s: State, events: seq<Event>, t: State, e: Event)
    requires Leads(s, events, t)
    ensures Leads(s, events + [e], Apply(t, e))
  {
    LedTo(s, events, t);
    RunAppends(s, events, e);
  }

  lemma LeadsOn(s: State, first: seq<Event>, mid: State, events: seq<Event>, t: State)
    requires Leads(s, first, mid) && Leads(s, events, t) && first <= events
    ensures t == Run(mid, events[|first|..])
  {
    LedTo(s, first, mid);
    LedTo(s, events, t);
    assert events == first + events[|first|..];
    RunSplits(s, first, events[|first|..]);
  }

  lemma LeasesGrow(s: State, e: Event)
    ensures s.leases <= Apply(s, e).leases
  {
  }

  lemma {:induction false} LeasesOnlyGrow(s: State, events: seq<Event>)
    ensures s.leases <= Run(s, events).leases
    decreases |events|
  {
    if events != [] {
      LeasesOnlyGrow(s, events[..|events| - 1]);
      LeasesGrow(Run(s, events[..|events| - 1]), events[|events| - 1]);
    }
  }

  function One(counted: bool): nat {
    if counted then 1 else 0
  }

  lemma ReservedPick(m: map<Id, Session>, account: Id, grant: Option<Id>, t: nat, id: Id)
    requires id in m
    ensures |Reserved(m, account, grant, t)|
         == |Reserved(m - {id}, account, grant, t)| + One(Owned(m[id], account, grant) && Reserves(m[id], t))
  {
    var less := Reserved(m - {id}, account, grant, t);
    forall x
      ensures x in Reserved(m, account, grant, t) <==> x in less || (x == id && Owned(m[id], account, grant) && Reserves(m[id], t)) {
      assert x in m <==> x == id || x in m - {id};
    }
    if Owned(m[id], account, grant) && Reserves(m[id], t) {
      assert Reserved(m, account, grant, t) == less + {id};
    } else {
      assert Reserved(m, account, grant, t) == less;
    }
  }

  lemma RecentPick(m: map<Id, Session>, account: Id, grant: Option<Id>, t: nat, id: Id)
    requires id in m
    ensures |Recent(m, account, grant, t)|
         == |Recent(m - {id}, account, grant, t)| + One(Owned(m[id], account, grant) && InWindow(m[id], t))
  {
    var less := Recent(m - {id}, account, grant, t);
    forall x ensures x in Recent(m, account, grant, t) <==> x in less || (x == id && Owned(m[id], account, grant) && InWindow(m[id], t)) {
      assert x in m <==> x == id || x in m - {id};
    }
    if Owned(m[id], account, grant) && InWindow(m[id], t) {
      assert Recent(m, account, grant, t) == less + {id};
    } else {
      assert Recent(m, account, grant, t) == less;
    }
  }

  /** The row filter drops nothing that counts (see PrefilterIsHarmless), and InWindow needs no upper bound. */
  lemma RowCounts(x: Session, account: Id, grant: Option<Id>, t: nat, machines: map<Id, Machine>)
    requires SessionOk(x, t, machines)
    ensures Owned(x, account, grant) && InWindow(x, t) <==>
              Filtered(x, account, t) && x.admittedAt + WINDOW > t && (grant.None? || x.request.grant == grant.value)
    ensures Owned(x, account, grant) && Reserves(x, t) <==>
              Filtered(x, account, t) && Reserves(x, t) && (grant.None? || x.request.grant == grant.value)
  {
  }

  /** One row of the counting query: the row filter first, then the two aggregates. */
  predicate Filtered(x: Session, account: Id, t: nat) {
    x.request.account == account && (x.admittedAt + WINDOW > t || x.hardDeadline > t)
  }

  /** The tables as they stood at an earlier point of the history. */
  datatype Reading = Reading(events: seq<Event>, at: State)

  /** The lease that the tables hold for one asked connection. */
  function Answer(s: State, id: Id, claim: Claim, v: View): Option<Lease> {
    if id !in s.sessions then None
    else
      var lease := ValidConnection(s, id, claim, v);
      if lease.Ok? then Some(lease.value) else None
  }

  lemma AnswerExactly(s: State, id: Id, claim: Claim, v: View)
    ensures Answer(s, id, claim, v).Some? <==>
      && id in s.sessions
      && var x := s.sessions[id];
      && v.expiresAt.Some? && v.expiresAt.value > s.clock
      && x.request.machine in s.machines && !s.machines[x.request.machine].Quarantined?
      && v.refusal.None? && v.target == x.target
      && x.issuance.Issued? && x.connection.Claimed? && x.connection.claim == claim
      && s.clock < x.hardDeadline
    ensures Answer(s, id, claim, v).Some? ==>
      && var x := s.sessions[id];
      && Answer(s, id, claim, v).value == Lease(id, x.request.machine, claim,
           if x.hardDeadline <= v.expiresAt.value then x.hardDeadline else v.expiresAt.value)
  {
  }

  ghost predicate Answered(claims: seq<(Id, Claim)>, views: seq<View>, met: seq<Reading>, answers: seq<Option<Lease>>) {
    && |met| == |answers| <= |claims| == |views|
    && forall k :: 0 <= k < |answers| ==> answers[k] == Answer(met[k].at, claims[k].0, claims[k].1, views[k])
  }

  function Given(answers: seq<Option<Lease>>): seq<Lease> {
    if answers == [] then []
    else Given(answers[..|answers| - 1]) + (if answers[|answers| - 1].Some? then [answers[|answers| - 1].value] else [])
  }

  class Service {
    var clock: nat
    var sessions: map<Id, Session>
    var machines: map<Id, Machine>
    ghost const origin: State
    ghost var model: State
    ghost var history: seq<Event>

    ghost predicate Valid()
      reads this
    {
      && Initial(origin) && Leads(origin, history, model)
      && model.clock == clock && model.sessions == sessions && model.machines == machines
    }

    constructor ()
      ensures Valid() && sessions == map[]
    {
      clock, sessions, machines := 0, map[], map[];
      origin := State(0, map[], map[], map[], [], []);
      model, history := State(0, map[], map[], map[], [], []), [];
    }

    lemma Consistent()
      requires Valid()
      ensures Reachable(model) && Inv(model)
    {
      ReachableInv(model);
    }

    ghost method Track(e: Event)
      requires Leads(origin, history, model)
      modifies this`model, this`history
      ensures model == Apply(old(model), e) && history == old(history) + [e]
      ensures Leads(origin, history, model)
    {
      LeadsAppend(origin, history, model, e);
      model, history := Apply(model, e), history + [e];
    }

    /** Other requests commit. Callers know only this contract. */
    method Interfere(id: Id)
      requires Valid()
      modifies this
      ensures Valid() && old(history) <= history
      ensures forall i :: |old(history)| <= i < |history| ==> IsOther(history[i], id)
    {
    }

    /** An await within the pass of one session: its lock keeps its stage. */
    method Yield(id: Id)
      requires Valid() && id in sessions
      modifies this
      ensures Valid() && old(history) <= history && id in sessions
      ensures id in model.passes <==> id in old(model.passes)
      ensures id in model.passes ==> model.passes[id] == old(model.passes)[id]
      ensures sessions[id].issuance == old(sessions)[id].issuance
    {
      Consistent();
      Interfere(id);
      LeadsOn(origin, old(history), old(model), history, model);
      OthersKeepPass(old(model), history[|old(history)|..], id);
    }

    /** An await that holds no session lock: anything may commit, this session's own issue pass included. */
    method InterfereFreely()
      requires Valid()
      modifies this
      ensures Valid() && old(history) <= history
    {
    }

    method YieldAny()
      requires Valid()
      modifies this
      ensures Valid() && old(history) <= history && old(model.leases) <= model.leases
    {
      InterfereFreely();
      LeadsOn(origin, old(history), old(model), history, model);
      LeasesOnlyGrow(old(model), history[|old(history)|..]);
    }

    // ---- admission

    /** The four aggregates over the filtered rows are the four reservation counts. */
    method CountReservations(account: Id, grant: Id)
      returns (recent: nat, grantRecent: nat, reserved: nat, grantReserved: nat)
      requires Valid()
      ensures recent == |set o | o in sessions && sessions[o].request.account == account
                         && sessions[o].admittedAt <= clock < sessions[o].admittedAt + 300_000|
      ensures grantRecent == |set o | o in sessions && sessions[o].request.account == account
                              && sessions[o].request.grant == grant
                              && sessions[o].admittedAt <= clock < sessions[o].admittedAt + 300_000|
      ensures reserved == |set o | o in sessions && sessions[o].request.account == account
                           && !sessions[o].connection.Closed?
                           && clock < (if sessions[o].connection.Claimed? then sessions[o].hardDeadline
                                       else if sessions[o].issuance.Issued? then sessions[o].issuance.ticketDeadline
                                       else sessions[o].issueDeadline)|
      ensures grantReserved == |set o | o in sessions && sessions[o].request.account == account
                                && sessions[o].request.grant == grant
                                && !sessions[o].connection.Closed?
                                && clock < (if sessions[o].connection.Claimed? then sessions[o].hardDeadline
                                            else if sessions[o].issuance.Issued? then sessions[o].issuance.ticketDeadline
                                            else sessions[o].issueDeadline)|
    {
      recent, grantRecent, reserved, grantReserved := 0, 0, 0, 0;
      var rest := sessions;
      Consistent();
      while rest != map[]
        invariant forall id :: id in rest ==> id in sessions && rest[id] == sessions[id]
        invariant recent + |Recent(rest, account, None, clock)| == |Recent(sessions, account, None, clock)|
        invariant grantRecent + |Recent(rest, account, Some(grant), clock)| == |Recent(sessions, account, Some(grant), clock)|
        invariant reserved + |Reserved(rest, account, None, clock)| == |Reserved(sessions, account, None, clock)|
        invariant grantReserved + |Reserved(rest, account, Some(grant), clock)|
               == |Reserved(sessions, account, Some(grant), clock)|
        decreases |rest|
      {
        var id :| id in rest;
        var x := rest[id];
        assert SessionOk(sessions[id], clock, machines);
        RowCounts(x, account, None, clock, machines);
        RowCounts(x, account, Some(grant), clock, machines);
        ReservedPick(rest, account, None, clock, id);
        ReservedPick(rest, account, Some(grant), clock, id);
        RecentPick(rest, account, None, clock, id);
        RecentPick(rest, account, Some(grant), clock, id);
        var counted := Filtered(x, account, clock);
        recent := recent + One(counted && x.admittedAt + WINDOW > clock);
        grantRecent := grantRecent + One(counted && x.admittedAt + WINDOW > clock && x.request.grant == grant);
        reserved := reserved + One(counted && Reserves(x, clock));
        grantReserved := grantReserved + One(counted && Reserves(x, clock) && x.request.grant == grant);
        rest := rest - {id};
      }
      RecentAreRows(sessions, account, grant, clock);
      ReservedAreRows(sessions, account, grant, clock);
    }

    /** The row a repeated request finds: one at most, by the unique request key. */
    method FindRequest(r: Request) returns (previous: Option<Id>)
      ensures previous.Some? ==> previous.value in sessions && SameKey(sessions[previous.value].request, r)
      ensures previous.None? ==> forall o :: o in sessions ==> !SameKey(sessions[o].request, r)
    {
      var rest := sessions;
      while rest != map[]
        invariant forall id :: id in rest ==> id in sessions && rest[id] == sessions[id]
        invariant forall o :: o in sessions && o !in rest ==> !SameKey(sessions[o].request, r)
        decreases |rest|
      {
        var id :| id in rest;
        if SameKey(rest[id].request, r) { return Some(id); }
        rest := rest - {id};
      }
      return None;
    }

    method TicketTaken(hash: Id) returns (taken: bool)
      ensures taken <==> exists o :: o in sessions && sessions[o].request.ticketHash == hash
    {
      var rest := sessions;
      while rest != map[]
        invariant forall id :: id in rest ==> id in sessions && rest[id] == sessions[id]
        invariant forall o :: o in sessions && o !in rest ==> sessions[o].request.ticketHash != hash
        decreases |rest|
      {
        var id :| id in rest;
        if rest[id].request.ticketHash == hash { return true; }
        rest := rest - {id};
      }
      return false;
    }

    function CurrentNow(r: Request, v: View): Result<Context, Code>
      reads this
    {
      Current(State(clock, sessions, machines, map[], [], []), r, v)
    }

    /**
     admit: replay, refuse, or insert one pending and unclaimed session. It is inserted exactly for a live authority,
     a first request, a fresh ticket, ten seconds of lifetime at least, and room below all four limits.
     */
    method Admit(id: Id, r: Request, v: View) returns (result: Result<Session, Code>)
      requires Valid() && id !in sessions  // a fresh random identifier
      modifies this
      ensures Valid() && old(history) <= history && clock == old(clock) && machines == old(machines)
      ensures id in sessions <==>
                && var was := old(sessions);
                && v.expiresAt.Some? && v.expiresAt.value > clock && v.expiresAt.value >= clock + 10_000
                && r.machine in machines && !machines[r.machine].Quarantined? && v.refusal.None?
                && (forall o :: o in was ==>
                      && was[o].request.ticketHash != r.ticketHash
                      && !(was[o].request.account == r.account && was[o].request.grant == r.grant
                           && was[o].request.key == r.key))
                && |set o | o in was && was[o].request.account == r.account
                     && was[o].admittedAt <= clock < was[o].admittedAt + 300_000| < 60
                && |set o | o in was && was[o].request.account == r.account
                     && was[o].request.grant == r.grant
                     && was[o].admittedAt <= clock < was[o].admittedAt + 300_000| < 30
                && |set o | o in was && was[o].request.account == r.account
                     && !was[o].connection.Closed?
                     && clock < (if was[o].connection.Claimed? then was[o].hardDeadline
                                 else if was[o].issuance.Issued? then was[o].issuance.ticketDeadline
                                 else was[o].issueDeadline)| < 20
                && |set o | o in was && was[o].request.account == r.account
                     && was[o].request.grant == r.grant
                     && !was[o].connection.Closed?
                     && clock < (if was[o].connection.Claimed? then was[o].hardDeadline
                                 else if was[o].issuance.Issued? then was[o].issuance.ticketDeadline
                                 else was[o].issueDeadline)| < 4
      ensures id in sessions ==>
                && result == Ok(sessions[id]) && sessions == old(sessions)[id := sessions[id]]
                && sessions[id] == Session(r, v.target, clock, clock + 90_000,
                     if clock + 3_600_000 <= v.expiresAt.value then clock + 3_600_000 else v.expiresAt.value,
                     Pending, Unclaimed)
      ensures id !in sessions ==> sessions == old(sessions)
      ensures result.Ok? && id !in sessions <==>
                && v.expiresAt.Some? && v.expiresAt.value > clock && v.refusal != Some(PermissionDenied)
                && var was := old(sessions);
                exists o :: o in was && was[o].request.account == r.account && was[o].request.grant == r.grant
                  && was[o].request.key == r.key && was[o].request.fingerprint == r.fingerprint
      ensures result.Ok? && id !in sessions ==>
                exists o :: o in old(sessions) && old(sessions)[o] == result.value
                  && result.value.request.account == r.account && result.value.request.grant == r.grant
                  && result.value.request.key == r.key && result.value.request.fingerprint == r.fingerprint
      ensures v.expiresAt.None? || v.expiresAt.value <= clock ==> result == Err(Unauthenticated)
      ensures result.Err? && v.expiresAt.Some? && v.expiresAt.value > clock
              && (forall o :: o in old(sessions) ==>
                    !(old(sessions)[o].request.account == r.account && old(sessions)[o].request.grant == r.grant
                      && old(sessions)[o].request.key == r.key)) ==>
                if r.machine !in machines then result.error == NotFound
                else if machines[r.machine].Quarantined? then result.error == ResourceBusy
                else if v.refusal.Some? then result.error == v.refusal.value
                else if v.expiresAt.value < clock + 10_000 then result.error == PermissionDenied
                else result.error == QuotaExceeded || result.error == IdempotencyConflict
    {
      if v.expiresAt.None? || v.expiresAt.value <= clock { return Err(Unauthenticated); }
      var previous := FindRequest(r);
      if previous.Some? {
        var x := sessions[previous.value];
        Consistent();
        assert forall o :: o in sessions && o != previous.value ==> Distinct(sessions[o].request, x.request);
        if v.refusal == Some(PermissionDenied) { return Err(PermissionDenied); }
        if x.request.fingerprint != r.fingerprint { return Err(IdempotencyConflict); }
        return Ok(x);
      }
      var context := CurrentNow(r, v);
      if context.Err? { return Err(context.error); }
      var hardDeadline := MinNat(clock + HOUR, context.value.expiresAt);
      if hardDeadline < clock + 10_000 { return Err(PermissionDenied); }
      var recent, grantRecent, reserved, grantReserved := CountReservations(r.account, r.grant);
      if recent >= 60 || grantRecent >= 30 { return Err(QuotaExceeded); }
      if reserved >= 20 || grantReserved >= 4 { return Err(QuotaExceeded); }
      var taken := TicketTaken(r.ticketHash);
      if taken { return Err(IdempotencyConflict); }
      var x := Session(r, context.value.target, clock, clock + 90_000, hardDeadline, Pending, Unclaimed);
      RecentAreRows(sessions, r.account, r.grant, clock);
      ReservedAreRows(sessions, r.account, r.grant, clock);
      assert MayAdmit(model, id, r, v);
      sessions := sessions[id := x];
      Track(Event.Admit(id, r, v));
      return Ok(x);
    }

    // ---- issue

    method Write(id: Id, i: Issuance, ghost e: Event, ghost passes: map<Id, Pass>)
      requires Valid() && id in sessions && IssueEvent(e)
      requires IssueStep(model, e) == model.(sessions := model.sessions[id := model.sessions[id].(issuance := i)], passes := passes)
      modifies this
      ensures Valid() && old(history) <= history && clock == old(clock) && machines == old(machines)
      ensures sessions == old(sessions)[id := old(sessions)[id].(issuance := i)] && model.passes == passes
      ensures model.signed == old(model.signed)
    {
      sessions := sessions[id := sessions[id].(issuance := i)];
      Track(e);
    }

    /** The first transaction: a spent attempt, a passed deadline or a changed target ends the session's issue. */
    method PrepareTransaction(id: Id, v: View) returns (go: bool)
      requires Valid() && id in sessions && id in model.passes && model.passes[id].Entered?
      modifies this
      ensures Valid() && old(history) <= history && id in sessions
      ensures go <==> id in model.passes
      ensures go ==> model.passes[id].Prepared? && sessions == old(sessions)
      ensures !go ==> !sessions[id].issuance.Pending? && !sessions[id].issuance.Attempted?
      ensures machines == old(machines) && clock == old(clock)
      ensures var x := old(sessions)[id];
              go <==>
                && x.issuance.Pending? && x.connection.Unclaimed?
                && clock < x.issueDeadline && clock < x.hardDeadline
                && v.expiresAt.Some? && v.expiresAt.value > clock
                && x.request.machine in machines && !machines[x.request.machine].Quarantined?
                && v.refusal.None? && v.target == x.target
      ensures var x := old(sessions)[id];
              !go ==> sessions == old(sessions)[id := x.(issuance :=
                if x.issuance.Attempted? then Unavailable(SigningUnknown)
                else if !x.issuance.Pending? then x.issuance
                else if clock >= x.issueDeadline || clock >= x.hardDeadline then Unavailable(DeadlineExceeded)
                else if v.expiresAt.None? || v.expiresAt.value <= clock
                     || (x.request.machine in machines && !machines[x.request.machine].Quarantined?
                         && v.refusal == Some(Unauthenticated)) then Unavailable(AuthorizationChanged)
                else Unavailable(TargetChanged))]
    {
      var x := sessions[id];
      ghost var e := Prepare(id, v);
      ghost var left := model.passes - {id};
      if x.issuance.Attempted? {
        Write(id, Unavailable(SigningUnknown), e, left);
        return false;
      }
      if !x.issuance.Pending? {
        Track(e);
        return false;
      }
      if clock >= IssueLimit(x) {
        Write(id, Unavailable(DeadlineExceeded), e, left);
        return false;
      }
      var c := CurrentNow(x.request, v);
      assert c == Current(model, x.request, v);
      if c.Err? || c.value.target != x.target || !x.connection.Unclaimed? {
        var reason := if c.Err? && c.error.Unauthenticated? then AuthorizationChanged else TargetChanged;
        Write(id, Unavailable(reason), e, left);
        return false;
      }
      Track(e);
      return true;
    }

    /** The second transaction spends the one attempt; whatever happens next, it is not given back. */
    method AttemptTransaction(id: Id, v: View) returns (go: bool)
      requires Valid() && id in sessions && id in model.passes && model.passes[id].Observed?
      modifies this
      ensures Valid() && old(history) <= history && id in sessions && machines == old(machines) && clock == old(clock)
      ensures go <==> id in model.passes
      ensures go ==> model.passes[id] == SignDue(old(model.passes)[id].address)
      ensures var x := old(sessions)[id];
              go <==>
                && x.connection.Unclaimed? && clock < x.issueDeadline && clock < x.hardDeadline
                && v.expiresAt.Some? && v.expiresAt.value > clock
                && x.request.machine in machines && !machines[x.request.machine].Quarantined?
                && v.refusal.None? && v.target == x.target
      ensures var x := old(sessions)[id];
              sessions == old(sessions)[id := x.(issuance :=
                if !(&& v.expiresAt.Some? && v.expiresAt.value > clock
                     && x.request.machine in machines && !machines[x.request.machine].Quarantined?
                     && v.refusal.None? && v.target == x.target) then Unavailable(AuthorizationChanged)
                else if !x.connection.Unclaimed? then Pending
                else if clock >= x.issueDeadline || clock >= x.hardDeadline then Unavailable(DeadlineExceeded)
                else Attempted(clock))]
      ensures !go ==> !sessions[id].issuance.Attempted?
    {
      Consistent();
      assert SignedOk(model.signed, model.passes, id, sessions[id]);
      var x := sessions[id];
      ghost var e := Attempt(id, v);
      ghost var left := model.passes - {id};
      var c := CurrentNow(x.request, v);
      assert c == Current(model, x.request, v);
      if c.Err? || c.value.target != x.target {
        Write(id, Unavailable(AuthorizationChanged), e, left);
        return false;
      }
      if !x.connection.Unclaimed? {
        Track(e);
        return false;
      }
      if clock >= IssueLimit(x) {
        Write(id, Unavailable(DeadlineExceeded), e, left);
        return false;
      }
      Write(id, Attempted(clock), e, model.passes[id := SignDue(model.passes[id].address)]);
      return true;
    }

    /** The last transaction publishes the certificate or records why there is none. */
    method PublishTransaction(id: Id, v: View, g: Signature, address: Id)
      requires Valid() && id in sessions && id in model.passes && model.passes[id] == SignCalled(address)
      modifies this
      ensures Valid() && old(history) <= history && id in sessions && id !in model.passes
      ensures !sessions[id].issuance.Pending? && !sessions[id].issuance.Attempted?
      ensures machines == old(machines) && clock == old(clock)
      ensures var x := old(sessions)[id];
              sessions[id].issuance.Issued? <==>
                && g.Certificate? && g.expiresAt > clock && x.connection.Unclaimed?
                && clock < x.issueDeadline && clock < x.hardDeadline
                && v.expiresAt.Some? && v.expiresAt.value > clock
                && x.request.machine in machines && !machines[x.request.machine].Quarantined?
                && v.refusal.None? && v.target == x.target
      ensures var x := old(sessions)[id];
              sessions[id].issuance.Issued? ==>
                && sessions[id].issuance.address == address
                && sessions[id].issuance.issuedAt == clock && sessions[id].issuance.certificateExpiresAt == g.expiresAt
                && clock < sessions[id].issuance.ticketDeadline <= clock + 60_000
                && sessions[id].issuance.ticketDeadline <= x.issueDeadline
                && sessions[id].issuance.ticketDeadline <= x.hardDeadline
                && sessions[id].issuance.ticketDeadline <= v.expiresAt.value
                && sessions[id].issuance.ticketDeadline in
                     [clock + 60_000, x.issueDeadline, x.hardDeadline, v.expiresAt.value]
      ensures var x := old(sessions)[id];
              !sessions[id].issuance.Issued? ==> sessions[id].issuance == Unavailable(
                if !(&& v.expiresAt.Some? && v.expiresAt.value > clock
                     && x.request.machine in machines && !machines[x.request.machine].Quarantined?
                     && v.refusal.None? && v.target == x.target) then AuthorizationChanged
                else if clock >= x.issueDeadline || clock >= x.hardDeadline
                     || !x.connection.Unclaimed? then DeadlineExceeded
                else if g.Unknown? then SigningUnknown
                else if g.Rejected? then ProviderRejected
                else if g.Failed? then SigningFailed
                else DeadlineExceeded)
      ensures sessions == old(sessions)[id := old(sessions)[id].(issuance := sessions[id].issuance)]
    {
      Consistent();
      assert SignedOk(model.signed, model.passes, id, sessions[id]);
      var x := sessions[id];
      ghost var e := Publish(id, v, g);
      ghost var left := model.passes - {id};
      var c := CurrentNow(x.request, v);
      assert c == Current(model, x.request, v);
      if c.Err? || c.value.target != x.target {
        Write(id, Unavailable(AuthorizationChanged), e, left);
        return;
      }
      var deadline := MinNat(IssueLimit(x), c.value.expiresAt);
      if clock >= deadline || !x.connection.Unclaimed? {
        Write(id, Unavailable(DeadlineExceeded), e, left);
      } else if !g.Certificate? {
        Write(id, Unavailable(FailureOf(g)), e, left);
      } else if g.expiresAt <= clock {
        Write(id, Unavailable(DeadlineExceeded), e, left);
      } else {
        Write(id, Issued(clock, MinNat(clock + 60_000, deadline), g.expiresAt, address), e, left);
      }
    }

    /**
     issue: one pass under the session lock. survives(k) says whether the process outlives its k-th await. The tables
     are read at three transactions: the guest is asked only if the first admits the pass, the one attempt is saved
     only if the guest answers and the second admits it, and only then a certificate is requested. The session is
     issued exactly if the third admits a live certificate, for the address at which this pass observed the guest.
     */
    method Issue(id: Id, views: (View, View, View), seen: Observation, signature: Signature, survives: nat -> bool)
      returns (ghost prepared: Option<Reading>, ghost attempted: Option<Reading>, ghost published: Option<Reading>)
      requires Valid() && id !in model.passes
      modifies this
      ensures Valid() && old(history) <= history && id !in model.passes
      ensures prepared.Some? ==> InHistory(old(history), prepared.value)
      ensures attempted.Some? ==> prepared.Some? && InHistory(prepared.value.events, attempted.value)
      ensures published.Some? ==> attempted.Some? && InHistory(attempted.value.events, published.value)
      ensures prepared.Some? <==>
                && id in old(sessions) && (old(sessions)[id].issuance.Pending? || old(sessions)[id].issuance.Attempted?)
                && survives(0)
      ensures attempted.Some? <==>
                && prepared.Some? && survives(1) && seen.Reached? && old(sessions)[id].issuance.Pending?
                && id in prepared.value.at.sessions
                && var x := prepared.value.at.sessions[id];
                && x.connection.Unclaimed? && prepared.value.at.clock < x.issueDeadline && prepared.value.at.clock < x.hardDeadline
                && views.0.expiresAt.Some? && views.0.expiresAt.value > prepared.value.at.clock
                && x.request.machine in prepared.value.at.machines && !prepared.value.at.machines[x.request.machine].Quarantined?
                && views.0.refusal.None? && views.0.target == x.target
      ensures published.Some? <==>
                && attempted.Some? && survives(2) && survives(3)
                && id in attempted.value.at.sessions
                && var x := attempted.value.at.sessions[id];
                && x.connection.Unclaimed? && attempted.value.at.clock < x.issueDeadline && attempted.value.at.clock < x.hardDeadline
                && views.1.expiresAt.Some? && views.1.expiresAt.value > attempted.value.at.clock
                && x.request.machine in attempted.value.at.machines && !attempted.value.at.machines[x.request.machine].Quarantined?
                && views.1.refusal.None? && views.1.target == x.target
      ensures id in old(sessions) && !old(sessions)[id].issuance.Issued? ==>
                && id in sessions
                && (sessions[id].issuance.Issued? <==>
                      && published.Some? && signature.Certificate? && signature.expiresAt > published.value.at.clock
                      && id in published.value.at.sessions
                      && var x := published.value.at.sessions[id];
                      && x.connection.Unclaimed? && published.value.at.clock < x.issueDeadline && published.value.at.clock < x.hardDeadline
                      && views.2.expiresAt.Some? && views.2.expiresAt.value > published.value.at.clock
                      && x.request.machine in published.value.at.machines && !published.value.at.machines[x.request.machine].Quarantined?
                      && views.2.refusal.None? && views.2.target == x.target)
      ensures id in old(sessions) && !old(sessions)[id].issuance.Issued? && sessions[id].issuance.Issued? ==>
                && seen == Reached(sessions[id].issuance.address)
                && signature == Certificate(sessions[id].issuance.certificateExpiresAt)
                && sessions[id].issuance.issuedAt == published.value.at.clock
      ensures prepared.Some? && survives(1) && !seen.Reached? && old(sessions)[id].issuance.Pending?
              && id in prepared.value.at.sessions
              && (var x := prepared.value.at.sessions[id];
                  && x.connection.Unclaimed? && prepared.value.at.clock < x.issueDeadline
                  && prepared.value.at.clock < x.hardDeadline
                  && views.0.expiresAt.Some? && views.0.expiresAt.value > prepared.value.at.clock
                  && x.request.machine in prepared.value.at.machines && !prepared.value.at.machines[x.request.machine].Quarantined?
                  && views.0.refusal.None? && views.0.target == x.target)
              ==> id in sessions && sessions[id].issuance == if seen.Refused? then Unavailable(ProviderRejected) else Pending
      ensures RowAdvances(old(sessions), sessions, id)
      ensures id in old(sessions) && survives(0) && survives(1) && survives(2) && survives(3)
              ==> !sessions[id].issuance.Attempted?
    {
      prepared, attempted, published := None, None, None;
      if id !in sessions { return; }
      if !sessions[id].issuance.Pending? && !sessions[id].issuance.Attempted? { return; }
      ghost var before, was := history, model;
      Track(BeginIssue(id));
      prepared, attempted, published := Pass(id, views, seen, signature, survives);
      Advanced(before, was, id);
    }

    ghost predicate InHistory(before: seq<Event>, r: Reading)
      reads this
    {
      before <= r.events <= history && Leads(origin, r.events, r.at)
    }

    method Pass(id: Id, views: (View, View, View), seen: Observation, signature: Signature, survives: nat -> bool)
      returns (ghost prepared: Option<Reading>, ghost attempted: Option<Reading>, ghost published: Option<Reading>)
      requires Valid() && id in sessions && id in model.passes && model.passes[id].Entered?
      requires sessions[id].issuance.Pending? || sessions[id].issuance.Attempted?
      modifies this
      ensures Valid() && old(history) <= history && id in sessions && id !in model.passes
      ensures prepared.Some? ==> InHistory(old(history), prepared.value)
      ensures attempted.Some? ==> prepared.Some? && InHistory(prepared.value.events, attempted.value)
      ensures published.Some? ==> attempted.Some? && InHistory(attempted.value.events, published.value)
      ensures prepared.Some? <==> survives(0)
      ensures attempted.Some? <==>
                && prepared.Some? && survives(1) && seen.Reached? && old(sessions)[id].issuance.Pending?
                && id in prepared.value.at.sessions
                && var x := prepared.value.at.sessions[id];
                && x.connection.Unclaimed? && prepared.value.at.clock < x.issueDeadline && prepared.value.at.clock < x.hardDeadline
                && views.0.expiresAt.Some? && views.0.expiresAt.value > prepared.value.at.clock
                && x.request.machine in prepared.value.at.machines && !prepared.value.at.machines[x.request.machine].Quarantined?
                && views.0.refusal.None? && views.0.target == x.target
      ensures published.Some? <==>
                && attempted.Some? && survives(2) && survives(3)
                && id in attempted.value.at.sessions
                && var x := attempted.value.at.sessions[id];
                && x.connection.Unclaimed? && attempted.value.at.clock < x.issueDeadline && attempted.value.at.clock < x.hardDeadline
                && views.1.expiresAt.Some? && views.1.expiresAt.value > attempted.value.at.clock
                && x.request.machine in attempted.value.at.machines && !attempted.value.at.machines[x.request.machine].Quarantined?
                && views.1.refusal.None? && views.1.target == x.target
      ensures sessions[id].issuance.Issued? <==>
                && published.Some? && signature.Certificate? && signature.expiresAt > published.value.at.clock
                && id in published.value.at.sessions
                && var x := published.value.at.sessions[id];
                && x.connection.Unclaimed? && published.value.at.clock < x.issueDeadline && published.value.at.clock < x.hardDeadline
                && views.2.expiresAt.Some? && views.2.expiresAt.value > published.value.at.clock
                && x.request.machine in published.value.at.machines && !published.value.at.machines[x.request.machine].Quarantined?
                && views.2.refusal.None? && views.2.target == x.target
      ensures sessions[id].issuance.Issued? ==>
                && seen == Reached(sessions[id].issuance.address)
                && signature == Certificate(sessions[id].issuance.certificateExpiresAt)
                && sessions[id].issuance.issuedAt == published.value.at.clock
      ensures prepared.Some? && survives(1) && !seen.Reached? && old(sessions)[id].issuance.Pending?
              && id in prepared.value.at.sessions
              && (var x := prepared.value.at.sessions[id];
                  && x.connection.Unclaimed? && prepared.value.at.clock < x.issueDeadline
                  && prepared.value.at.clock < x.hardDeadline
                  && views.0.expiresAt.Some? && views.0.expiresAt.value > prepared.value.at.clock
                  && x.request.machine in prepared.value.at.machines && !prepared.value.at.machines[x.request.machine].Quarantined?
                  && views.0.refusal.None? && views.0.target == x.target)
              ==> id in sessions && sessions[id].issuance == if seen.Refused? then Unavailable(ProviderRejected) else Pending
      ensures survives(0) && survives(1) && survives(2) && survives(3) ==> !sessions[id].issuance.Attempted?
    {
      prepared, attempted, published := None, None, None;
      Yield(id);
      if !survives(0) { Track(EndPass(id)); return; }
      prepared := Some(Reading(history, model));
      var go := PrepareTransaction(id, views.0);
      if !go { return; }
      attempted, published := ObserveAndSign(id, views.1, views.2, seen, signature, survives);
    }

    method ObserveAndSign(id: Id, attempt: View, publish: View, seen: Observation, signature: Signature, survives: nat -> bool)
      returns (ghost attempted: Option<Reading>, ghost published: Option<Reading>)
      requires Valid() && id in sessions && id in model.passes && model.passes[id].Prepared? && sessions[id].issuance.Pending?
      modifies this
      ensures Valid() && old(history) <= history && id in sessions && id !in model.passes
      ensures attempted.Some? ==> InHistory(old(history), attempted.value)
      ensures published.Some? ==> attempted.Some? && InHistory(attempted.value.events, published.value)
      ensures attempted.Some? <==> survives(1) && seen.Reached?
      ensures published.Some? <==>
                && attempted.Some? && survives(2) && survives(3)
                && id in attempted.value.at.sessions
                && var x := attempted.value.at.sessions[id];
                && x.connection.Unclaimed? && attempted.value.at.clock < x.issueDeadline && attempted.value.at.clock < x.hardDeadline
                && attempt.expiresAt.Some? && attempt.expiresAt.value > attempted.value.at.clock
                && x.request.machine in attempted.value.at.machines && !attempted.value.at.machines[x.request.machine].Quarantined?
                && attempt.refusal.None? && attempt.target == x.target
      ensures sessions[id].issuance.Issued? <==>
                && published.Some? && signature.Certificate? && signature.expiresAt > published.value.at.clock
                && id in published.value.at.sessions
                && var x := published.value.at.sessions[id];
                && x.connection.Unclaimed? && published.value.at.clock < x.issueDeadline && published.value.at.clock < x.hardDeadline
                && publish.expiresAt.Some? && publish.expiresAt.value > published.value.at.clock
                && x.request.machine in published.value.at.machines && !published.value.at.machines[x.request.machine].Quarantined?
                && publish.refusal.None? && publish.target == x.target
      ensures sessions[id].issuance.Issued? ==>
                && seen == Reached(sessions[id].issuance.address)
                && signature == Certificate(sessions[id].issuance.certificateExpiresAt)
                && sessions[id].issuance.issuedAt == published.value.at.clock
      ensures survives(1) && !seen.Reached? ==>
                sessions[id].issuance == if seen.Refused? then Unavailable(ProviderRejected) else Pending
      ensures survives(1) && survives(2) && survives(3) ==> !sessions[id].issuance.Attempted?
    {
      attempted, published := None, None;
      Yield(id);
      if !survives(1) { Track(EndPass(id)); return; }
      if seen.Retryable? {
        Track(Observe(id, seen));
      } else if seen.Refused? {
        Write(id, Unavailable(ProviderRejected), Observe(id, seen), model.passes - {id});
      } else {
        Track(Observe(id, seen));
        Yield(id);
        attempted := Some(Reading(history, model));
        published := AttemptAndSign(id, seen.address, attempt, publish, signature, survives);
      }
    }

    method AttemptAndSign(id: Id, address: Id, attempt: View, publish: View, signature: Signature, survives: nat -> bool)
      returns (ghost published: Option<Reading>)
      requires Valid() && id in sessions && id in model.passes && model.passes[id] == Observed(address)
      modifies this
      ensures Valid() && old(history) <= history && id in sessions && id !in model.passes
      ensures published.Some? ==> InHistory(old(history), published.value)
      ensures published.Some? <==>
                && survives(2) && survives(3)
                && var x := old(sessions)[id];
                && x.connection.Unclaimed? && old(clock) < x.issueDeadline && old(clock) < x.hardDeadline
                && attempt.expiresAt.Some? && attempt.expiresAt.value > old(clock)
                && x.request.machine in old(machines) && !old(machines)[x.request.machine].Quarantined?
                && attempt.refusal.None? && attempt.target == x.target
      ensures sessions[id].issuance.Issued? <==>
                && published.Some? && signature.Certificate? && signature.expiresAt > published.value.at.clock
                && id in published.value.at.sessions
                && var x := published.value.at.sessions[id];
                && x.connection.Unclaimed? && published.value.at.clock < x.issueDeadline && published.value.at.clock < x.hardDeadline
                && publish.expiresAt.Some? && publish.expiresAt.value > published.value.at.clock
                && x.request.machine in published.value.at.machines && !published.value.at.machines[x.request.machine].Quarantined?
                && publish.refusal.None? && publish.target == x.target
      ensures sessions[id].issuance.Issued? ==>
                && sessions[id].issuance.address == address
                && signature == Certificate(sessions[id].issuance.certificateExpiresAt)
                && sessions[id].issuance.issuedAt == published.value.at.clock
      ensures survives(2) && survives(3) ==> !sessions[id].issuance.Attempted?
    {
      published := None;
      var go := AttemptTransaction(id, attempt);
      if !go { return; }
      Yield(id);
      if !survives(2) { Track(EndPass(id)); return; }
      Track(Sign(id));
      Yield(id);
      if !survives(3) { Track(EndPass(id)); return; }
      published := Some(Reading(history, model));
      PublishTransaction(id, publish, signature, address);
    }

    // ---- gateway calls

    /**
     claim: the ticket's session is validated, its guest observed, and then claimed in one transaction, while other
     requests commit between these. It succeeds exactly if the ticket is known, the authority stands at the first
     reading and at the last two, the guest was observed at the address in the session's issued certificate, and the
     ticket is unclaimed and in time; otherwise the first of these that fails names the refusal.
     */
    method ClaimTicket(ticketHash: Id, claim: Claim, first: View, observed: Option<Id>, v: View, elapsed: nat, again: View)
      returns (result: Result<Lease, Code>, ghost ticket: Option<Id>, ghost one: Reading, ghost two: Reading)
      requires Valid()
      modifies this
      ensures Valid() && old(history) <= one.events <= two.events <= history
      ensures Leads(origin, one.events, one.at) && Leads(origin, two.events, two.at)
      ensures ticket.None? <==> forall o :: o in old(sessions) ==> old(sessions)[o].request.ticketHash != ticketHash
      ensures ticket.None? ==> result == Err(Unauthenticated)
      ensures ticket.Some? ==>
                ticket.value in old(sessions) && old(sessions)[ticket.value].request.ticketHash == ticketHash
                && ticket.value in two.at.sessions
      ensures result.Ok? <==>
                && ticket.Some?
                && var x := old(sessions)[ticket.value];
                && first.expiresAt.Some? && first.expiresAt.value > one.at.clock
                && x.request.machine in one.at.machines && !one.at.machines[x.request.machine].Quarantined?
                && first.refusal.None? && first.target == x.target
                && x.issuance.Issued? && observed == Some(x.issuance.address)
                && v.expiresAt.Some? && v.expiresAt.value > two.at.clock
                && x.request.machine in two.at.machines && !two.at.machines[x.request.machine].Quarantined?
                && v.refusal.None? && v.target == x.target
                && two.at.sessions[ticket.value].connection.Unclaimed?
                && two.at.clock < x.issuance.ticketDeadline && two.at.clock < x.issuance.certificateExpiresAt
                && again.expiresAt.Some? && again.refusal.None? && again.target == x.target
                && two.at.clock + elapsed < again.expiresAt.value && two.at.clock + elapsed < x.hardDeadline
      ensures result.Ok? ==>
                && var x := old(sessions)[ticket.value];
                && result.value == Lease(ticket.value, x.request.machine, claim,
                     if x.hardDeadline <= again.expiresAt.value then x.hardDeadline else again.expiresAt.value)
                && model.leases == two.at.leases + [result.value]
                && sessions == two.at.sessions[ticket.value :=
                     two.at.sessions[ticket.value].(connection := Claimed(claim, two.at.clock))]
      ensures result.Err? && ticket.Some? ==>
                && var x := old(sessions)[ticket.value];
                && result.error ==
                     if first.expiresAt.None? || first.expiresAt.value <= one.at.clock then Unauthenticated
                     else if x.request.machine !in one.at.machines then NotFound
                     else if one.at.machines[x.request.machine].Quarantined? then ResourceBusy
                     else if first.refusal.Some? then first.refusal.value
                     else if first.target != x.target then PermissionDenied
                     else if observed.None? then ResourceBusy
                     else if !x.issuance.Issued? || observed.value != x.issuance.address then PermissionDenied
                     else if v.expiresAt.None? || v.expiresAt.value <= two.at.clock then Unauthenticated
                     else if x.request.machine !in two.at.machines then NotFound
                     else if two.at.machines[x.request.machine].Quarantined? then ResourceBusy
                     else if v.refusal.Some? then v.refusal.value
                     else if v.target != x.target then PermissionDenied
                     else if !two.at.sessions[ticket.value].connection.Unclaimed?
                          || two.at.clock >= x.issuance.ticketDeadline || two.at.clock >= x.issuance.certificateExpiresAt
                          || two.at.clock >= x.hardDeadline
                          || again.expiresAt.None? || again.expiresAt.value <= two.at.clock + elapsed then Unauthenticated
                     else if again.refusal.Some? then again.refusal.value
                     else if again.target != x.target then PermissionDenied
                     else Unauthenticated
      ensures result.Err? ==> sessions == two.at.sessions && model.leases == two.at.leases
    {
      ticket, one, two := None, Reading(history, model), Reading(history, model);
      var id, found := FindTicket(ticketHash);
      if !found { return Err(Unauthenticated), ticket, one, two; }
      ticket := Some(id);
      var original := sessions[id];
      YieldAny();
      Advanced(old(history), old(model), id);
      one, two := Reading(history, model), Reading(history, model);
      var c := CurrentNow(original.request, first);
      if c.Err? { return Err(c.error), ticket, one, two; }
      if c.value.target != original.target { return Err(PermissionDenied), ticket, one, two; }
      YieldAny();
      Advanced(old(history), old(model), id);
      two := Reading(history, model);
      if observed.None? { return Err(ResourceBusy), ticket, one, two; }
      if !original.issuance.Issued? || observed.value != original.issuance.address {
        return Err(PermissionDenied), ticket, one, two;
      }
      result := ClaimTransaction(id, claim, v, elapsed, again);
    }

    /**
     The claim's transaction: claimed and leased exactly if the ticket may be claimed on the first reading of the
     authority and the connection is valid on the second, some time later; otherwise nothing is left of it.
     */
    method ClaimTransaction(id: Id, claim: Claim, v: View, elapsed: nat, again: View) returns (result: Result<Lease, Code>)
      requires Valid() && id in sessions
      modifies this
      ensures Valid() && old(history) <= history
      ensures result.Ok? <==>
                && var x := old(sessions)[id];
                && v.expiresAt.Some? && v.expiresAt.value > old(clock)
                && x.request.machine in old(machines) && !old(machines)[x.request.machine].Quarantined?
                && v.refusal.None? && v.target == x.target
                && x.connection.Unclaimed? && x.issuance.Issued?
                && old(clock) < x.issuance.ticketDeadline && old(clock) < x.issuance.certificateExpiresAt
                && again.expiresAt.Some? && again.refusal.None? && again.target == x.target
                && old(clock) + elapsed < again.expiresAt.value && old(clock) + elapsed < x.hardDeadline
      ensures result.Ok? ==>
                && var x := old(sessions)[id];
                && result.value == Lease(id, x.request.machine, claim,
                     if x.hardDeadline <= again.expiresAt.value then x.hardDeadline else again.expiresAt.value)
                && sessions == old(sessions)[id := x.(connection := Claimed(claim, old(clock)))]
                && clock == old(clock) + elapsed && model.leases == old(model.leases) + [result.value]
      ensures result.Err? ==>
                && var x := old(sessions)[id];
                && result.error ==
                     if v.expiresAt.None? || v.expiresAt.value <= old(clock) then Unauthenticated
                     else if x.request.machine !in old(machines) then NotFound
                     else if old(machines)[x.request.machine].Quarantined? then ResourceBusy
                     else if v.refusal.Some? then v.refusal.value
                     else if v.target != x.target then PermissionDenied
                     else if !x.connection.Unclaimed? || !x.issuance.Issued?
                          || old(clock) >= x.issuance.ticketDeadline || old(clock) >= x.issuance.certificateExpiresAt
                          || old(clock) >= x.hardDeadline
                          || again.expiresAt.None? || again.expiresAt.value <= old(clock) + elapsed then Unauthenticated
                     else if again.refusal.Some? then again.refusal.value
                     else if again.target != x.target then PermissionDenied
                     else Unauthenticated
      ensures result.Err? ==> sessions == old(sessions) && model.leases == old(model.leases)
    {
      var x := sessions[id];
      var c := CurrentNow(x.request, v);
      if c.Err? { return Err(c.error); }
      if c.value.target != x.target { return Err(PermissionDenied); }
      if !x.connection.Unclaimed? || !x.issuance.Issued?
         || clock >= MinNat(MinNat(x.issuance.ticketDeadline, x.issuance.certificateExpiresAt), x.hardDeadline) {
        return Err(Unauthenticated);
      }
      sessions, clock := sessions[id := x.(connection := Claimed(claim, clock))], clock + elapsed;
      c := CurrentNow(x.request, again);
      result := if c.Err? then Err(c.error)
                else if c.value.target != x.target then Err(PermissionDenied)
                else if MinNat(x.hardDeadline, c.value.expiresAt) <= clock then Err(Unauthenticated)
                else Ok(Lease(id, x.request.machine, claim, MinNat(x.hardDeadline, c.value.expiresAt)));
      if result.Err? {
        sessions := sessions[id := x];  // the transaction rolls back
        Track(Tick(elapsed));
      } else {
        Track(Event.ClaimTicket(id, claim, v, elapsed, again));
      }
    }

    /** A session only advanced since an earlier point of the history. */
    lemma Advanced(before: seq<Event>, was: State, id: Id)
      requires Valid() && before <= history && Leads(origin, before, was)
      ensures RowAdvances(was.sessions, sessions, id)
    {
      LedTo(origin, before, was);
      InitialInv(origin);
      RunKeepsInv(origin, before);
      LeadsOn(origin, before, was, history, model);
      RunFollows(was, history[|before|..], id);
    }

    method FindTicket(hash: Id) returns (id: Id, found: bool)
      ensures found ==> id in sessions && sessions[id].request.ticketHash == hash
      ensures !found ==> forall o :: o in sessions ==> sessions[o].request.ticketHash != hash
    {
      var rest := sessions;
      while rest != map[]
        invariant forall o :: o in rest ==> o in sessions && rest[o] == sessions[o]
        invariant forall o :: o in sessions && o !in rest ==> sessions[o].request.ticketHash != hash
        decreases |rest|
      {
        var o :| o in rest;
        if rest[o].request.ticketHash == hash { return o, true; }
        rest := rest - {o};
      }
      return 0, false;
    }

    /**
     check: one transaction per connection, others between them. Exactly the connections whose claim stands when they
     are looked at are leased, in the order asked; an omitted lease denies exactly that connection.
     */
    method Check(claims: seq<(Id, Claim)>, views: seq<View>)
      returns (leases: seq<Lease>, ghost met: seq<Reading>, ghost answers: seq<Option<Lease>>)
      requires Valid() && |views| == |claims|
      modifies this
      ensures Valid() && old(history) <= history && |met| == |answers| == |claims| && leases == Given(answers)
      ensures forall i :: 0 <= i < |met| ==>
                old(history) <= met[i].events <= history && Leads(origin, met[i].events, met[i].at)
      ensures forall i :: 0 <= i < |answers| ==> (answers[i].Some? <==>
                && claims[i].0 in met[i].at.sessions
                && var x := met[i].at.sessions[claims[i].0];
                && views[i].expiresAt.Some? && views[i].expiresAt.value > met[i].at.clock
                && x.request.machine in met[i].at.machines && !met[i].at.machines[x.request.machine].Quarantined?
                && views[i].refusal.None? && views[i].target == x.target
                && x.issuance.Issued? && x.connection.Claimed? && x.connection.claim == claims[i].1
                && met[i].at.clock < x.hardDeadline)
      ensures forall i :: 0 <= i < |answers| && answers[i].Some? ==>
                && answers[i].value in model.leases
                && var x := met[i].at.sessions[claims[i].0];
                && answers[i].value == Lease(claims[i].0, x.request.machine, claims[i].1,
                     if x.hardDeadline <= views[i].expiresAt.value then x.hardDeadline else views[i].expiresAt.value)
    {
      leases, met, answers := [], [], [];
      var i := 0;
      while i < |claims|
        invariant 0 <= i <= |claims| && Valid() && old(history) <= history
        invariant |met| == |answers| == i && leases == Given(answers)
        invariant Seen(old(history), met)
        invariant Answered(claims, views, met, answers)
        invariant forall k :: 0 <= k < i && answers[k].Some? ==> answers[k].value in model.leases
      {
        var id, claim := claims[i].0, claims[i].1;
        var answer, seen := CheckNext(id, claim, views[i]);
        if answer.Some? { leases := leases + [answer.value]; }
        met, answers := met + [seen], answers + [answer];
        i := i + 1;
      }
      forall k | 0 <= k < |claims| { AnswerExactly(met[k].at, claims[k].0, claims[k].1, views[k]); }
      assert forall k :: 0 <= k < |met| ==> Leads(origin, met[k].events, met[k].at);
    }

    ghost predicate Seen(before: seq<Event>, met: seq<Reading>)
      reads this
    {
      forall k :: 0 <= k < |met| ==> before <= met[k].events <= history && Leads(origin, met[k].events, met[k].at)
    }

    method CheckNext(id: Id, claim: Claim, v: View) returns (answer: Option<Lease>, ghost seen: Reading)
      requires Valid()
      modifies this
      ensures Valid() && old(history) <= seen.events <= history && Leads(origin, seen.events, seen.at)
      ensures answer == Answer(seen.at, id, claim, v)
      ensures old(model.leases) <= model.leases && (answer.Some? ==> answer.value in model.leases)
    {
      YieldAny();
      seen := Reading(history, model);
      if id !in sessions { return None, seen; }
      var lease := CheckOne(id, claim, v);
      answer := if lease.Ok? then Some(lease.value) else None;
    }

    method CheckOne(id: Id, claim: Claim, v: View) returns (lease: Result<Lease, Code>)
      requires Valid() && id in sessions
      modifies this
      ensures Valid() && old(history) <= history
      ensures model.leases == old(model.leases) + if lease.Ok? then [lease.value] else []
      ensures sessions == old(sessions) && clock == old(clock)
      ensures (if lease.Ok? then Some(lease.value) else None) == Answer(old(model), id, claim, v)
      ensures lease.Ok? <==>
                && var x := old(sessions)[id];
                && v.expiresAt.Some? && v.expiresAt.value > clock
                && x.request.machine in old(machines) && !old(machines)[x.request.machine].Quarantined?
                && v.refusal.None? && v.target == x.target
                && x.issuance.Issued? && x.connection.Claimed? && x.connection.claim == claim && clock < x.hardDeadline
      ensures lease.Ok? ==>
                && var x := old(sessions)[id];
                && lease.value == Lease(id, x.request.machine, claim,
                     if x.hardDeadline <= v.expiresAt.value then x.hardDeadline else v.expiresAt.value)
      ensures lease.Err? ==>
                && var x := old(sessions)[id];
                && lease.error ==
                     if v.expiresAt.None? || v.expiresAt.value <= clock then Unauthenticated
                     else if x.request.machine !in old(machines) then NotFound
                     else if old(machines)[x.request.machine].Quarantined? then ResourceBusy
                     else if v.refusal.Some? then v.refusal.value
                     else if v.target != x.target then PermissionDenied
                     else if !x.issuance.Issued? || !x.connection.Claimed? || x.connection.claim != claim then PermissionDenied
                     else Unauthenticated
    {
      var x := sessions[id];
      var c := CurrentNow(x.request, v);
      assert c == Current(model, x.request, v);
      ghost var e := Event.Check(id, claim, v);
      if c.Ok? && c.value.target == x.target && x.issuance.Issued? && x.connection.Claimed? && x.connection.claim == claim
         && clock < MinNat(x.hardDeadline, c.value.expiresAt) {
        lease := Ok(Lease(id, x.request.machine, claim, MinNat(x.hardDeadline, c.value.expiresAt)));
      } else if c.Err? {
        lease := Err(c.error);
      } else if c.value.target != x.target || !x.issuance.Issued? || !x.connection.Claimed? || x.connection.claim != claim {
        lease := Err(PermissionDenied);
      } else {
        lease := Err(Unauthenticated);
      }
      Track(e);
    }

    /** close: the exact connection may report its end, and report it again. */
    method CloseConnection(id: Id, claim: Claim) returns (closed: bool)
      requires Valid()
      modifies this
      ensures Valid() && old(history) <= history
      ensures closed <==>
                && id in old(sessions)
                && var c := old(sessions)[id].connection;
                && ((c.Claimed? && c.claim == claim) || c == Closed(Some(claim)))
      ensures closed ==>
                sessions == old(sessions)[id := old(sessions)[id].(connection := Closed(Some(claim)))]
      ensures !closed ==> sessions == old(sessions)
    {
      if id !in sessions { return false; }
      var x := sessions[id];
      if PriorClaim(x.connection) != Some(claim) { return false; }
      sessions := sessions[id := if x.connection.Closed? then x else x.(connection := Closed(Some(claim)))];
      Track(Close(id, claim));
      return true;
    }
  }

  predicate IssueEvent(e: Event) {
    e.Prepare? || e.Observe? || e.Attempt? || e.Sign? || e.Publish?
  }
}
