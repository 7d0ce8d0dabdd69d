/** What every reachable state of the access sessions keeps, and what holds across every run. */
module SessionProofs {
  import opened Prelude
  import opened Sessions

  predicate SessionOk(x: Session, clock: nat, machines: map<Id, Machine>) {
    && x.admittedAt <= clock
    && x.issueDeadline == x.admittedAt + 90_000
    && x.admittedAt + 10_000 <= x.hardDeadline <= x.admittedAt + HOUR
    && (x.issuance.Issued? ==>
          x.issuance.issuedAt < x.issuance.ticketDeadline
          && x.issuance.ticketDeadline <= MinNat(x.issuance.issuedAt + 60_000, IssueLimit(x)))
    && (PriorClaim(x.connection).Some? ==> x.issuance.Issued?)
    && x.request.machine in machines && !machines[x.request.machine].Quarantined?
  }

  ghost predicate Sound(sessions: map<Id, Session>, clock: nat, machines: map<Id, Machine>) {
    forall id {:trigger SessionOk(sessions[id], clock, machines)} :: id in sessions ==>
      SessionOk(sessions[id], clock, machines)
  }

  predicate Distinct(a: Request, b: Request) {
    !SameKey(a, b) && a.ticketHash != b.ticketHash
  }

  ghost predicate Unique(sessions: map<Id, Session>) {
    forall a, b :: a in sessions && b in sessions && a != b ==> Distinct(sessions[a].request, sessions[b].request)
  }

  /** The reservation limit at the present instant. */
  ghost predicate WithinLimit(sessions: map<Id, Session>, clock: nat, account: Id, grant: Option<Id>) {
    |Reserved(sessions, account, grant, clock)| <= ReservedLimit(grant)
  }

  ghost predicate Bounded(sessions: map<Id, Session>, clock: nat) {
    forall account, grant :: WithinLimit(sessions, clock, account, grant)
  }

  /** The admission limit over the window that ends at t, whatever t. */
  ghost predicate WithinRate(sessions: map<Id, Session>, account: Id, grant: Option<Id>, t: nat) {
    |Recent(sessions, account, grant, t)| <= RecentLimit(grant)
  }

  ghost predicate Paced(sessions: map<Id, Session>) {
    forall account, grant, t :: WithinRate(sessions, account, grant, t)
  }

  function Count(signed: seq<Id>, id: Id): nat {
    if signed == [] then 0 else Count(signed[..|signed| - 1], id) + if signed[|signed| - 1] == id then 1 else 0
  }

  /** At most one signature per session: its attempt is spent before the request, and never given back. */
  predicate SignedOk(signed: seq<Id>, passes: map<Id, Pass>, id: Id, x: Session) {
    && Count(signed, id) + (if id in passes && passes[id].SignDue? then 1 else 0)
       <= (if x.issuance.Pending? then 0 else 1)
    && (id in passes && (passes[id].Prepared? || passes[id].Observed?) ==> x.issuance.Pending?)
    && (id in passes && (passes[id].SignDue? || passes[id].SignCalled?) ==> x.issuance.Attempted?)
  }

  ghost predicate Signing(signed: seq<Id>, passes: map<Id, Pass>, sessions: map<Id, Session>) {
    && (forall id {:trigger SignedOk(signed, passes, id, sessions[id])} :: id in sessions ==>
          SignedOk(signed, passes, id, sessions[id]))
    && (forall id :: id in passes ==> id in sessions)
    && (forall id :: Count(signed, id) > 0 ==> id in sessions)
  }

  predicate LeaseOk(l: Lease, sessions: map<Id, Session>) {
    && l.session in sessions
    && var x := sessions[l.session];
    && PriorClaim(x.connection) == Some(l.claim)
    && l.until <= x.hardDeadline
    && l.machine == x.request.machine
  }

  ghost predicate Leased(leases: seq<Lease>, sessions: map<Id, Session>) {
    forall l {:trigger LeaseOk(l, sessions)} :: l in leases ==> LeaseOk(l, sessions)
  }

  ghost predicate Inv(s: State) {
    && Sound(s.sessions, s.clock, s.machines) && Unique(s.sessions)
    && Bounded(s.sessions, s.clock) && Paced(s.sessions)
    && Signing(s.signed, s.passes, s.sessions) && Leased(s.leases, s.sessions)
  }

  // ---- cardinalities

  /** A session may be rewritten so that it never starts to reserve, and its admission facts stay. */
  predicate NoNewReservation(a: Session, b: Session, t: nat) {
    && b == a.(issuance := b.issuance, connection := b.connection)
    && (Reserves(b, t) ==> Reserves(a, t))
  }

  ghost predicate AllNoNew(a: map<Id, Session>, b: map<Id, Session>, t: nat) {
    && b.Keys == a.Keys
    && forall id :: id in a ==> NoNewReservation(a[id], b[id], t)
  }

  lemma LimitsKept(a: map<Id, Session>, b: map<Id, Session>, clock: nat)
    requires AllNoNew(a, b, clock) && Bounded(a, clock) && Paced(a) && Unique(a)
    ensures Bounded(b, clock) && Paced(b) && Unique(b)
  {
    forall account, grant ensures WithinLimit(b, clock, account, grant) {
      assert WithinLimit(a, clock, account, grant);
      SubsetCard(Reserved(b, account, grant, clock), Reserved(a, account, grant, clock));
    }
    forall account, grant, t ensures WithinRate(b, account, grant, t) {
      assert WithinRate(a, account, grant, t);
      SubsetCard(Recent(b, account, grant, t), Recent(a, account, grant, t));
    }
  }

  lemma TickKeepsLimits(m: map<Id, Session>, clock: nat, later: nat)
    requires Bounded(m, clock) && clock <= later
    ensures Bounded(m, later)
  {
    forall account, grant ensures WithinLimit(m, later, account, grant) {
      assert WithinLimit(m, clock, account, grant);
      SubsetCard(Reserved(m, account, grant, later), Reserved(m, account, grant, clock));
    }
  }

  lemma AdmissionKeepsLimits(s: State, id: Id, r: Request, v: View)
    requires Inv(s) && MayAdmit(s, id, r, v)
    ensures var m := AdmitStep(s, id, r, v).sessions; Bounded(m, s.clock) && Paced(m)
  {
    var x := NewSession(s, r, Current(s, r, v).value);
    var m := s.sessions[id := x];
    forall account, grant ensures WithinLimit(m, s.clock, account, grant) {
      AdmissionReserves(s, id, x, account, grant);
    }
    forall account, grant, t ensures WithinRate(m, account, grant, t) {
      AdmissionCounts(s, id, x, account, grant, t);
    }
  }

  lemma AdmissionReserves(s: State, id: Id, x: Session, account: Id, grant: Option<Id>)
    requires Bounded(s.sessions, s.clock) && id !in s.sessions
    requires HasRoom(s, x.request.account, None) && HasRoom(s, x.request.account, Some(x.request.grant))
    ensures WithinLimit(s.sessions[id := x], s.clock, account, grant)
  {
    assert WithinLimit(s.sessions, s.clock, account, grant);
    var before, after := Reserved(s.sessions, account, grant, s.clock), Reserved(s.sessions[id := x], account, grant, s.clock);
    if Owned(x, account, grant) {
      assert after <= before + {id};
      SubsetCard(after, before + {id});
    } else {
      assert after == before;
    }
  }

  lemma AdmissionCounts(s: State, id: Id, x: Session, account: Id, grant: Option<Id>, t: nat)
    requires Paced(s.sessions) && Sound(s.sessions, s.clock, s.machines) && id !in s.sessions && x.admittedAt == s.clock
    requires HasRoom(s, x.request.account, None) && HasRoom(s, x.request.account, Some(x.request.grant))
    ensures WithinRate(s.sessions[id := x], account, grant, t)
  {
    assert WithinRate(s.sessions, account, grant, t);
    RecentGrows(s.sessions, id, x, account, grant, t);
    if Owned(x, account, grant) && InWindow(x, t) { WindowEndsNow(s, account, grant, t); }
  }

  lemma RecentGrows(m: map<Id, Session>, id: Id, x: Session, account: Id, grant: Option<Id>, t: nat)
    requires id !in m
    ensures |Recent(m[id := x], account, grant, t)|
         == |Recent(m, account, grant, t)| + if Owned(x, account, grant) && InWindow(x, t) then 1 else 0
  {
    var before, after := Recent(m, account, grant, t), Recent(m[id := x], account, grant, t);
    forall o ensures o in after <==> o in before || (o == id && Owned(x, account, grant) && InWindow(x, t)) {}
    if Owned(x, account, grant) && InWindow(x, t) {
      assert after == before + {id};
    } else {
      assert after == before;
    }
  }

  /** Nobody was admitted after the present, so a later window holds no more old admissions than today's. */
  lemma WindowEndsNow(s: State, account: Id, grant: Option<Id>, t: nat)
    requires Sound(s.sessions, s.clock, s.machines) && s.clock <= t
    ensures |Recent(s.sessions, account, grant, t)| <= |Recent(s.sessions, account, grant, s.clock)|
  {
    forall o | o in Recent(s.sessions, account, grant, t) ensures o in Recent(s.sessions, account, grant, s.clock) {
      assert SessionOk(s.sessions[o], s.clock, s.machines);
    }
    SubsetCard(Recent(s.sessions, account, grant, t), Recent(s.sessions, account, grant, s.clock));
  }

  // ---- one session rewritten

  lemma CountAppends(signed: seq<Id>, last: Id)
    ensures forall id :: Count(signed + [last], id) == Count(signed, id) + if id == last then 1 else 0
  {
    assert (signed + [last])[..|signed|] == signed;
  }

  predicate Rewritten(s: State, id: Id, y: Session, passes: map<Id, Pass>)
    requires id in s.sessions
  {
    var x := s.sessions[id];
    && NoNewReservation(x, y, s.clock)
    && SessionOk(y, s.clock, s.machines)
    && SignedOk(s.signed, passes, id, y)
    && (PriorClaim(x.connection).Some? ==> PriorClaim(y.connection) == PriorClaim(x.connection))
    && (forall o :: o in passes ==> o == id || (o in s.passes && passes[o] == s.passes[o]))
    && (forall o :: o in s.passes && o != id ==> o in passes)
  }

  lemma RewriteKeeps(s: State, id: Id, y: Session, passes: map<Id, Pass>)
    requires Inv(s) && id in s.sessions && Rewritten(s, id, y, passes)
    ensures Inv(s.(sessions := s.sessions[id := y], passes := passes))
  {
    var m := s.sessions[id := y];
    LimitsKept(s.sessions, m, s.clock);
    forall o | o in m ensures SessionOk(m[o], s.clock, s.machines) && SignedOk(s.signed, passes, o, m[o]) {
      if o != id {
        assert SessionOk(s.sessions[o], s.clock, s.machines) && SignedOk(s.signed, s.passes, o, s.sessions[o]);
      }
    }
    forall l | l in s.leases ensures LeaseOk(l, m) { assert LeaseOk(l, s.sessions); }
  }

  /** Giving up on a session whose issuance is not final: the reservation still runs to its issue deadline. */
  lemma FailKeeps(s: State, id: Id, reason: Reason)
    requires Inv(s) && id in s.sessions && (s.sessions[id].issuance.Pending? || s.sessions[id].issuance.Attempted?)
    ensures Inv(Fail(s, id, reason))
  {
    var t := Fail(s, id, reason);
    assert SessionOk(s.sessions[id], s.clock, s.machines) && SignedOk(s.signed, s.passes, id, s.sessions[id]);
    RewriteKeeps(s, id, s.sessions[id].(issuance := Unavailable(reason)), s.passes - {id});
  }

  lemma PrepareKeeps(s: State, id: Id, v: View)
    requires Inv(s) && id in s.sessions && id in s.passes
    ensures Inv(PrepareStep(s, id, v))
  {
    var x := s.sessions[id];
    if x.issuance.Pending? || x.issuance.Attempted? {
      forall reason ensures Inv(Fail(s, id, reason)) { FailKeeps(s, id, reason); }
    }
    PassKeeps(s, id, s.passes - {id});
    if PrepareStep(s, id, v) == At(s, id, Prepared) {
      assert SessionOk(x, s.clock, s.machines) && SignedOk(s.signed, s.passes, id, x);
      RewriteKeeps(s, id, x, s.passes[id := Prepared]);
      assert At(s, id, Prepared) == s.(sessions := s.sessions[id := x], passes := s.passes[id := Prepared]);
    }
  }

  lemma ObserveKeeps(s: State, id: Id, o: Observation)
    requires Inv(s) && id in s.sessions && id in s.passes && s.passes[id].Prepared?
    ensures Inv(ObserveStep(s, id, o))
  {
    var t := ObserveStep(s, id, o);
    assert SessionOk(s.sessions[id], s.clock, s.machines) && SignedOk(s.signed, s.passes, id, s.sessions[id]);
    RewriteKeeps(s, id, t.sessions[id], t.passes);
    assert t == s.(sessions := s.sessions[id := t.sessions[id]], passes := t.passes);
  }

  lemma AttemptKeeps(s: State, id: Id, v: View)
    requires Inv(s) && id in s.sessions && id in s.passes && s.passes[id].Observed?
    ensures Inv(AttemptStep(s, id, v))
  {
    var t := AttemptStep(s, id, v);
    assert SessionOk(s.sessions[id], s.clock, s.machines) && SignedOk(s.signed, s.passes, id, s.sessions[id]);
    RewriteKeeps(s, id, t.sessions[id], t.passes);
    assert t == s.(sessions := s.sessions[id := t.sessions[id]], passes := t.passes);
  }

  lemma PublishKeeps(s: State, id: Id, v: View, g: Signature)
    requires Inv(s) && id in s.sessions && id in s.passes && s.passes[id].SignCalled?
    ensures Inv(PublishStep(s, id, v, g))
  {
    var t := PublishStep(s, id, v, g);
    assert SessionOk(s.sessions[id], s.clock, s.machines) && SignedOk(s.signed, s.passes, id, s.sessions[id]);
    forall reason ensures Inv(Fail(s, id, reason)) { FailKeeps(s, id, reason); }
    if t.sessions[id].issuance.Issued? {
      RewriteKeeps(s, id, t.sessions[id], s.passes - {id});
      assert t == s.(sessions := s.sessions[id := t.sessions[id]], passes := s.passes - {id});
    }
  }

  lemma SignKeeps(s: State, id: Id)
    requires Inv(s) && id in s.sessions && id in s.passes && s.passes[id].SignDue?
    ensures Inv(SignStep(s, id))
  {
    var signed, passes := s.signed + [id], s.passes[id := SignCalled(s.passes[id].address)];
    CountAppends(s.signed, id);
    forall o | o in s.sessions ensures SignedOk(signed, passes, o, s.sessions[o]) {
      assert SignedOk(s.signed, s.passes, o, s.sessions[o]);
    }
    assert Signing(signed, passes, s.sessions);
    assert SignStep(s, id) == s.(signed := signed, passes := passes);
  }

  lemma PassKeeps(s: State, id: Id, passes: map<Id, Pass>)
    requires Inv(s) && id in s.sessions
    requires passes == s.passes - {id} || passes == s.passes[id := Entered]
    ensures Inv(s.(passes := passes))
  {
    forall o | o in s.sessions ensures SignedOk(s.signed, passes, o, s.sessions[o]) {
      assert SignedOk(s.signed, s.passes, o, s.sessions[o]);
    }
  }

  lemma AdmitKeeps(s: State, id: Id, r: Request, v: View)
    requires Inv(s)
    ensures Inv(AdmitStep(s, id, r, v))
  {
    var t := AdmitStep(s, id, r, v);
    if t != s {
      AdmissionKeepsLimits(s, id, r, v);
      forall o | o in t.sessions
        ensures SessionOk(t.sessions[o], t.clock, t.machines) && SignedOk(t.signed, t.passes, o, t.sessions[o])
      {
        if o != id {
          assert SessionOk(s.sessions[o], s.clock, s.machines) && SignedOk(s.signed, s.passes, o, s.sessions[o]);
        }
      }
      forall l | l in s.leases ensures LeaseOk(l, t.sessions) { assert LeaseOk(l, s.sessions); }
    }
  }

  lemma GrantKeeps(s: State, id: Id, claim: Claim, v: View)
    requires Inv(s) && id in s.sessions
    ensures Inv(Grant(s, ValidConnection(s, id, claim, v)))
  {
    var t := Grant(s, ValidConnection(s, id, claim, v));
    forall l | l in t.leases ensures LeaseOk(l, t.sessions) {
      if l in s.leases { assert LeaseOk(l, s.sessions); }
    }
  }

  lemma ClaimKeeps(s: State, id: Id, claim: Claim, v: View, elapsed: nat, again: View)
    requires Inv(s)
    ensures Inv(ClaimStep(s, id, claim, v, elapsed, again))
  {
    if id in s.sessions && MayClaim(s, s.sessions[id], v) {
      var y := s.sessions[id].(connection := Claimed(claim, s.clock));
      assert SessionOk(s.sessions[id], s.clock, s.machines) && SignedOk(s.signed, s.passes, id, s.sessions[id]);
      RewriteKeeps(s, id, y, s.passes);
      assert Put(s, id, y) == s.(sessions := s.sessions[id := y], passes := s.passes);
      WorldKeeps(Put(s, id, y), Tick(elapsed));
      assert Claiming(s, id, claim, elapsed) == Apply(Put(s, id, y), Tick(elapsed));
      GrantKeeps(Claiming(s, id, claim, elapsed), id, claim, again);
    }
  }

  lemma ShutKeeps(s: State, which: set<Id>)
    requires Inv(s)
    ensures Inv(s.(sessions := ShutAll(s.sessions, which)))
  {
    var m := ShutAll(s.sessions, which);
    LimitsKept(s.sessions, m, s.clock);
    forall o | o in m ensures SessionOk(m[o], s.clock, s.machines) && SignedOk(s.signed, s.passes, o, m[o]) {
      assert SessionOk(s.sessions[o], s.clock, s.machines) && SignedOk(s.signed, s.passes, o, s.sessions[o]);
    }
    forall l | l in s.leases ensures LeaseOk(l, m) { assert LeaseOk(l, s.sessions); }
  }

  lemma CloseKeeps(s: State, id: Id, claim: Claim)
    requires Inv(s)
    ensures Inv(CloseStep(s, id, claim))
  {
    if CloseStep(s, id, claim) != s {
      ShutKeeps(s, {id});
      assert ShutAll(s.sessions, {id}) == s.sessions[id := Shut(s.sessions[id])];
    }
  }

  lemma WorldKeeps(s: State, e: Event)
    requires Inv(s) && (e.Tick? || e.AddMachine? || e.RestoreRecorded?)
    ensures Inv(Apply(s, e))
  {
    var t := Apply(s, e);
    TickKeepsLimits(s.sessions, s.clock, t.clock);
    forall o | o in t.sessions ensures SessionOk(t.sessions[o], t.clock, t.machines) {
      assert SessionOk(s.sessions[o], s.clock, s.machines);
    }
  }

  lemma IssueKeeps(s: State, e: Event)
    requires Inv(s) && (e.Prepare? || e.Observe? || e.Attempt? || e.Sign? || e.Publish?)
    ensures Inv(IssueStep(s, e))
  {
    if e.id in s.passes && e.id in s.sessions {
      match s.passes[e.id]
      case Entered => if e.Prepare? { PrepareKeeps(s, e.id, e.view); }
      case Prepared => if e.Observe? { ObserveKeeps(s, e.id, e.observation); }
      case Observed(_) => if e.Attempt? { AttemptKeeps(s, e.id, e.view); }
      case SignDue(_) => if e.Sign? { SignKeeps(s, e.id); }
      case SignCalled(_) => if e.Publish? { PublishKeeps(s, e.id, e.view, e.signature); }
    }
  }

  lemma StepKeepsInv(s: State, e: Event)
    requires Inv(s)
    ensures Inv(Apply(s, e))
  {
    match e
    case Tick(_) => WorldKeeps(s, e);
    case AddMachine(_, _) => WorldKeeps(s, e);
    case RestoreRecorded(_) => WorldKeeps(s, e);
    case Admit(id, r, v) => AdmitKeeps(s, id, r, v);
    case BeginIssue(id) => if id in s.sessions { PassKeeps(s, id, s.passes[id := Entered]); }
    case EndPass(id) =>
      if id in s.sessions { PassKeeps(s, id, s.passes - {id}); } else { assert s.passes - {id} == s.passes; }
    case ClaimTicket(id, claim, v, elapsed, again) => ClaimKeeps(s, id, claim, v, elapsed, again);
    case Check(id, claim, v) => if id in s.sessions { GrantKeeps(s, id, claim, v); }
    case Close(id, claim) => CloseKeeps(s, id, claim);
    case CloseGrants(_, _) => ShutKeepsEvent(s, e);
    case CloseMachine(_, _) => ShutKeepsEvent(s, e);
    case _ => IssueKeeps(s, e);
  }

  lemma ShutKeepsEvent(s: State, e: Event)
    requires Inv(s) && (e.CloseGrants? || e.CloseMachine?)
    ensures Inv(Apply(s, e))
  {
    var which := if e.CloseGrants?
      then set id | id in s.sessions && s.sessions[id].request.account == e.account && s.sessions[id].request.grant in e.grants
      else set id | id in s.sessions && s.sessions[id].request.account == e.account && s.sessions[id].request.machine == e.machine;
    ShutKeeps(s, which);
  }

  ghost predicate Reachable(s: State) {
    exists s0, events :: Initial(s0) && Leads(s0, events, s)
  }

  lemma InitialInv(s: State)
    requires Initial(s)
    ensures Inv(s)
  {
  }

  lemma {:induction false} RunKeepsInv(s: State, events: seq<Event>)
    requires Inv(s)
    ensures Inv(Run(s, events))
    decreases |events|
  {
    if events != [] {
      RunKeepsInv(s, events[..|events| - 1]);
      StepKeepsInv(Run(s, events[..|events| - 1]), events[|events| - 1]);
    }
  }

  lemma ReachableInv(s: State)
    requires Reachable(s)
    ensures Inv(s)
  {
    var s0, events :| Initial(s0) && Leads(s0, events, s);
    LedTo(s0, events, s);
    InitialInv(s0);
    RunKeepsInv(s0, events);
  }
}
