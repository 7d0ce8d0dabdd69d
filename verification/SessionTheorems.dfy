/** The promises of the access sessions, for every reachable state and every run. */
module SessionTheorems {
  import opened Prelude
  import opened Sessions
  import opened SessionProofs

  // ---- the four counts, row by row

  lemma RecentAreRows(m: map<Id, Session>, account: Id, grant: Id, t: nat)
    ensures Recent(m, account, None, t)
         == set o | o in m && m[o].request.account == account
                 && m[o].admittedAt <= t < m[o].admittedAt + 300_000
    ensures Recent(m, account, Some(grant), t)
         == set o | o in m && m[o].request.account == account && m[o].request.grant == grant
                 && m[o].admittedAt <= t < m[o].admittedAt + 300_000
  {
  }

  lemma ReservedAreRows(m: map<Id, Session>, account: Id, grant: Id, t: nat)
    ensures Reserved(m, account, None, t)
         == set o | o in m && m[o].request.account == account
                 && !m[o].connection.Closed?
                 && t < (if m[o].connection.Claimed? then m[o].hardDeadline
                         else if m[o].issuance.Issued? then m[o].issuance.ticketDeadline
                         else m[o].issueDeadline)
    ensures Reserved(m, account, Some(grant), t)
         == set o | o in m && m[o].request.account == account && m[o].request.grant == grant
                 && !m[o].connection.Closed?
                 && t < (if m[o].connection.Claimed? then m[o].hardDeadline
                         else if m[o].issuance.Issued? then m[o].issuance.ticketDeadline
                         else m[o].issueDeadline)
  {
  }

  // ---- every reachable state

  /** At most 20 open reservations per account and 4 per grant, whichever deadline each is counted by. */
  lemma ReservationsAreBounded(s: State, account: Id, grant: Id)
    requires Reachable(s)
    ensures |set o | o in s.sessions && s.sessions[o].request.account == account
                 && !s.sessions[o].connection.Closed?
                 && s.clock < (if s.sessions[o].connection.Claimed? then s.sessions[o].hardDeadline
                         else if s.sessions[o].issuance.Issued? then s.sessions[o].issuance.ticketDeadline
                         else s.sessions[o].issueDeadline)| <= 20
    ensures |set o | o in s.sessions && s.sessions[o].request.account == account && s.sessions[o].request.grant == grant
                 && !s.sessions[o].connection.Closed?
                 && s.clock < (if s.sessions[o].connection.Claimed? then s.sessions[o].hardDeadline
                         else if s.sessions[o].issuance.Issued? then s.sessions[o].issuance.ticketDeadline
                         else s.sessions[o].issueDeadline)| <= 4
  {
    ReservedAreRows(s.sessions, account, grant, s.clock);
    ReachableInv(s);
    assert WithinLimit(s.sessions, s.clock, account, None) && WithinLimit(s.sessions, s.clock, account, Some(grant));
  }

  /** Every rolling window of five minutes, wherever it ends, holds at most 60 and 30 admissions. */
  lemma AdmissionsArePaced(s: State, account: Id, grant: Id, t: nat)
    requires Reachable(s)
    ensures |set o | o in s.sessions && s.sessions[o].request.account == account
                 && s.sessions[o].admittedAt <= t < s.sessions[o].admittedAt + 300_000| <= 60
    ensures |set o | o in s.sessions && s.sessions[o].request.account == account && s.sessions[o].request.grant == grant
                 && s.sessions[o].admittedAt <= t < s.sessions[o].admittedAt + 300_000| <= 30
  {
    RecentAreRows(s.sessions, account, grant, t);
    ReachableInv(s);
    assert WithinRate(s.sessions, account, None, t) && WithinRate(s.sessions, account, Some(grant), t);
  }

  /** The row filter of the counting query drops no row that either aggregate counts. */
  lemma PrefilterIsHarmless(s: State, id: Id, account: Id, grant: Option<Id>)
    requires Reachable(s)
    requires id in Recent(s.sessions, account, grant, s.clock) || id in Reserved(s.sessions, account, grant, s.clock)
    ensures s.sessions[id].admittedAt + 300_000 > s.clock || s.sessions[id].hardDeadline > s.clock
  {
    ReachableInv(s);
    assert SessionOk(s.sessions[id], s.clock, s.machines);
  }

  /** One certificate request per session over all passes and crashes, after its attempt was saved. */
  lemma SignedAtMostOnce(s: State, id: Id)
    requires Reachable(s)
    ensures Count(s.signed, id) <= 1
    ensures Count(s.signed, id) == 1 ==> id in s.sessions && !s.sessions[id].issuance.Pending?
  {
    ReachableInv(s);
    if id in s.sessions { assert SignedOk(s.signed, s.passes, id, s.sessions[id]); }
  }

  /** All leases of a session name one gateway connection and end by the session's hard deadline. */
  lemma OneLeasedConnection(s: State, a: Lease, b: Lease)
    requires Reachable(s) && a in s.leases && b in s.leases && a.session == b.session
    ensures a.claim == b.claim && a.session in s.sessions
    ensures a.until <= s.sessions[a.session].hardDeadline <= s.sessions[a.session].admittedAt + 3_600_000
  {
    ReachableInv(s);
    assert LeaseOk(a, s.sessions) && LeaseOk(b, s.sessions);
    assert SessionOk(s.sessions[a.session], s.clock, s.machines);
  }

  /** No lease on a restore target exists before that restore is recorded, in any reachable state. */
  lemma QuarantineHolds(s: State, l: Lease)
    requires Reachable(s) && l in s.leases
    ensures l.machine in s.machines && !s.machines[l.machine].Quarantined?
  {
    ReachableInv(s);
    assert LeaseOk(l, s.sessions);
    assert SessionOk(s.sessions[l.session], s.clock, s.machines);
  }

  /**
   The deadlines of every session at every time: ten seconds to an hour of lifetime, ninety seconds to issue, a
   ticket of at most a minute within both, and a claim only of an issued session.
   */
  lemma DeadlinesHold(s: State, id: Id)
    requires Reachable(s) && id in s.sessions
    ensures var x := s.sessions[id];
      && x.admittedAt <= s.clock && x.issueDeadline == x.admittedAt + 90_000
      && x.admittedAt + 10_000 <= x.hardDeadline <= x.admittedAt + 3_600_000
      && (x.issuance.Issued? ==>
            && x.issuance.issuedAt < x.issuance.ticketDeadline <= x.issuance.issuedAt + 60_000
            && x.issuance.ticketDeadline <= x.issueDeadline && x.issuance.ticketDeadline <= x.hardDeadline)
      && (x.connection.Claimed? ==> x.issuance.Issued?)
      && x.request.machine in s.machines && !s.machines[x.request.machine].Quarantined?
  {
    ReachableInv(s);
    assert SessionOk(s.sessions[id], s.clock, s.machines);
  }

  /** Two sessions never share a transport ticket or a request key. */
  lemma TicketsAreUnique(s: State, a: Id, b: Id)
    requires Reachable(s) && a in s.sessions && b in s.sessions
    requires s.sessions[a].request.ticketHash == s.sessions[b].request.ticketHash
             || (s.sessions[a].request.account == s.sessions[b].request.account
                 && s.sessions[a].request.grant == s.sessions[b].request.grant
                 && s.sessions[a].request.key == s.sessions[b].request.key)
    ensures a == b
  {
    ReachableInv(s);
    assert a != b ==> Distinct(s.sessions[a].request, s.sessions[b].request);
  }

  // ---- runs

  predicate IssuanceAdvances(a: Issuance, b: Issuance) {
    match a
    case Pending => true
    case Attempted(_) => !b.Pending? && (b.Attempted? ==> b == a)
    case _ => b == a
  }

  predicate ConnectionAdvances(a: Connection, b: Connection) {
    match a
    case Unclaimed => true
    case Claimed(claim, _) => b == a || b == Closed(Some(claim))
    case Closed(_) => b == a
  }

  predicate SessionAdvances(a: Session, b: Session) {
    && b == a.(issuance := b.issuance, connection := b.connection)
    && IssuanceAdvances(a.issuance, b.issuance) && ConnectionAdvances(a.connection, b.connection)
  }

  predicate RowAdvances(a: map<Id, Session>, b: map<Id, Session>, id: Id) {
    id in a ==> id in b && SessionAdvances(a[id], b[id])
  }

  function LeasesOf(leases: seq<Lease>, id: Id): nat {
    if leases == [] then 0
    else LeasesOf(leases[..|leases| - 1], id) + if leases[|leases| - 1].session == id then 1 else 0
  }

  /** What a step, or a run, leaves of a session, and of its leases once it is closed. */
  predicate Follows(s: State, t: State, id: Id) {
    && RowAdvances(s.sessions, t.sessions, id)
    && (id in s.sessions && s.sessions[id].connection.Closed? ==> LeasesOf(t.leases, id) == LeasesOf(s.leases, id))
    && t.clock >= s.clock
  }

  lemma GrantFollows(s: State, id: Id, claim: Claim, v: View, o: Id)
    requires id in s.sessions
    ensures Follows(s, Grant(s, ValidConnection(s, id, claim, v)), o)
  {
    var lease := ValidConnection(s, id, claim, v);
    if lease.Ok? { assert (s.leases + [lease.value])[..|s.leases|] == s.leases; }
  }

  lemma ClaimFollows(s: State, id: Id, claim: Claim, v: View, elapsed: nat, again: View, o: Id)
    ensures Follows(s, ClaimStep(s, id, claim, v, elapsed, again), o)
  {
    if id in s.sessions && MayClaim(s, s.sessions[id], v) {
      GrantFollows(Claiming(s, id, claim, elapsed), id, claim, again, o);
    }
  }

  lemma IssueFollows(s: State, e: Event, o: Id)
    requires Inv(s) && (e.Prepare? || e.Observe? || e.Attempt? || e.Sign? || e.Publish?)
    ensures Follows(s, IssueStep(s, e), o)
  {
    if e.id in s.passes && e.id in s.sessions {
      assert SignedOk(s.signed, s.passes, e.id, s.sessions[e.id]);
      if e.Prepare? && s.passes[e.id].Entered? { PrepareFollows(s, e.id, e.view, o); }
      if e.Publish? && s.passes[e.id].SignCalled? { PublishFollows(s, e.id, e.view, e.signature, o); }
    }
  }

  lemma PrepareFollows(s: State, id: Id, v: View, o: Id)
    requires id in s.sessions
    ensures Follows(s, PrepareStep(s, id, v), o)
  {
  }

  lemma PublishFollows(s: State, id: Id, v: View, g: Signature, o: Id)
    requires id in s.sessions && id in s.passes && s.passes[id].SignCalled?
    ensures Follows(s, PublishStep(s, id, v, g), o)
  {
  }

  lemma StepFollows(s: State, e: Event, o: Id)
    requires Inv(s)
    ensures Follows(s, Apply(s, e), o)
  {
    match e
    case ClaimTicket(id, claim, v, elapsed, again) => ClaimFollows(s, id, claim, v, elapsed, again, o);
    case Check(id, claim, v) => if id in s.sessions { GrantFollows(s, id, claim, v, o); }
    case Prepare(_, _) => IssueFollows(s, e, o);
    case Observe(_, _) => IssueFollows(s, e, o);
    case Attempt(_, _) => IssueFollows(s, e, o);
    case Sign(_) => IssueFollows(s, e, o);
    case Publish(_, _, _) => IssueFollows(s, e, o);
    case _ =>
  }

  /**
   Over every run issuance moves only pending, attempted, one final state, and the connection only unclaimed,
   claimed, closed with the same claim; a closed session never gains another lease.
   */
  lemma {:induction false} RunFollows(s: State, events: seq<Event>, o: Id)
    requires Inv(s)
    ensures Follows(s, Run(s, events), o)
    decreases |events|
  {
    if events != [] {
      var before := events[..|events| - 1];
      RunFollows(s, before, o);
      RunKeepsInv(s, before);
      StepFollows(Run(s, before), events[|events| - 1], o);
    }
  }

  /** A ticket is claimed once: after a claim no other claim of it ever changes anything. */
  lemma TicketClaimedOnce(s: State, id: Id, claim: Claim, v: View, elapsed: nat, again: View, events: seq<Event>,
                          other: Claim, w: View, elapsed': nat, again': View)
    requires Reachable(s) && ClaimStep(s, id, claim, v, elapsed, again) != s
    ensures var later := Run(ClaimStep(s, id, claim, v, elapsed, again), events);
            ClaimStep(later, id, other, w, elapsed', again') == later
  {
    ReachableInv(s);
    ClaimKeeps(s, id, claim, v, elapsed, again);
    RunFollows(ClaimStep(s, id, claim, v, elapsed, again), events, id);
  }

  /**
   Revoking grants closes every session of theirs at once and for good: none of them is ever leased again,
   and no ticket of theirs, even one whose certificate is still being signed, is ever accepted.
   */
  lemma RevocationIsFinal(s: State, account: Id, grants: set<Id>, events: seq<Event>, id: Id)
    requires Reachable(s) && id in s.sessions
    requires s.sessions[id].request.account == account && s.sessions[id].request.grant in grants
    ensures var t := Run(Apply(s, CloseGrants(account, grants)), events);
            && id in t.sessions && t.sessions[id].connection.Closed?
            && LeasesOf(t.leases, id) == LeasesOf(s.leases, id)
            && (forall claim, v, elapsed, again :: ClaimStep(t, id, claim, v, elapsed, again) == t)
            && (forall claim, v :: CheckStep(t, id, claim, v) == t)
  {
    ReachableInv(s);
    var closed := Apply(s, CloseGrants(account, grants));
    StepKeepsInv(s, CloseGrants(account, grants));
    RunFollows(closed, events, id);
  }
}
