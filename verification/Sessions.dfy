/**
 Customer SSH sessions as a state machine. Every transaction holds the account lock and reads the
 database clock under it, so one event is one transaction at one instant (milliseconds). Issue passes
 of one session exclude each other by the session lock; a crash ends a pass between any two events.
 */
module Sessions {
  import opened Prelude

  const HOUR: nat := 3_600_000
  const WINDOW: nat := 300_000

  datatype Reason = SigningUnknown | SigningFailed | ProviderRejected | AuthorizationChanged | TargetChanged | DeadlineExceeded

  datatype Issuance =
    | Pending
    | Attempted(at: nat)
    | Issued(issuedAt: nat, ticketDeadline: nat, certificateExpiresAt: nat, address: Id)
    | Unavailable(reason: Reason)

  /** The receipt of a claim: which gateway process and which of its connections. */
  datatype Claim = Claim(gateway: Id, connection: Id)
  datatype Connection = Unclaimed | Claimed(claim: Claim, at: nat) | Closed(previous: Option<Claim>)

  datatype Request = Request(account: Id, grant: Id, machine: Id, key: Id, fingerprint: Id, ticketHash: Id)

  datatype Session = Session(request: Request, target: Id, admittedAt: nat, issueDeadline: nat, hardDeadline: nat,
                             issuance: Issuance, connection: Connection)

  /** A restore target is quarantined until its restore is recorded. */
  datatype Machine = Plain | Quarantined | Verified

  /**
   Where an issue pass stands: before its first transaction, after it, guest observed at an address, attempt saved,
   certificate requested.
   */
  datatype Pass = Entered | Prepared | Observed(address: Id) | SignDue(address: Id) | SignCalled(address: Id)

  datatype Lease = Lease(session: Id, machine: Id, claim: Claim, until: nat)

  datatype State = State(clock: nat, sessions: map<Id, Session>, machines: map<Id, Machine>,
                         passes: map<Id, Pass>, signed: seq<Id>, leases: seq<Lease>)

  datatype Code = Unauthenticated | PermissionDenied | NotFound | ResourceBusy | IdempotencyConflict | QuotaExceeded

  /**
   What the rest of the database shows `current`: the expiry of a live authority chain, a refusal by any of its
   later checks, and a stand-in for the exact machine version, allocation, identity pin and gateway.
   */
  datatype View = View(expiresAt: Option<nat>, refusal: Option<Code>, target: Id)

  datatype Context = Context(expiresAt: nat, target: Id)

  datatype Observation = Reached(address: Id) | Retryable | Refused
  datatype Signature = Certificate(expiresAt: nat) | Unknown | Rejected | Failed

  datatype Event =
    | Tick(elapsed: nat)
    | AddMachine(machine: Id, restoring: bool)
    | RestoreRecorded(machine: Id)
    | Admit(id: Id, request: Request, view: View)
    | BeginIssue(id: Id)
    | Prepare(id: Id, view: View)
    | Observe(id: Id, observation: Observation)
    | Attempt(id: Id, view: View)
    | Sign(id: Id)
    | Publish(id: Id, view: View, signature: Signature)
    | EndPass(id: Id)
    | ClaimTicket(id: Id, claim: Claim, view: View, elapsed: nat, again: View)
    | Check(id: Id, claim: Claim, view: View)
    | Close(id: Id, claim: Claim)
    | CloseGrants(account: Id, grants: set<Id>)
    | CloseMachine(account: Id, machine: Id)

  function MinNat(a: nat, b: nat): nat {
    if a <= b then a else b
  }

  /** current: authority, then the restore quarantine, then everything else. */
  function Current(s: State, r: Request, v: View): Result<Context, Code> {
    if v.expiresAt.None? || v.expiresAt.value <= s.clock then Err(Unauthenticated)
    else if r.machine !in s.machines then Err(NotFound)
    else if s.machines[r.machine].Quarantined? then Err(ResourceBusy)
    else if v.refusal.Some? then Err(v.refusal.value)
    else Ok(Context(v.expiresAt.value, v.target))
  }

  /** current followed by unchanged. */
  function Same(s: State, x: Session, v: View): Result<Context, Code> {
    var c := Current(s, x.request, v);
    if c.Ok? && c.value.target != x.target then Err(PermissionDenied) else c
  }

  predicate Open(x: Session) {
    !x.connection.Closed?
  }

  /** Which deadline a reservation is counted by. */
  function Counted(x: Session): nat {
    if x.connection.Claimed? then x.hardDeadline
    else if x.issuance.Issued? then x.issuance.ticketDeadline
    else x.issueDeadline
  }

  predicate Reserves(x: Session, t: nat) {
    Open(x) && Counted(x) > t
  }

  /** None counts the whole account, Some one of its grants. */
  predicate Owned(x: Session, account: Id, grant: Option<Id>) {
    x.request.account == account && (grant.None? || x.request.grant == grant.value)
  }

  ghost function Reserved(sessions: map<Id, Session>, account: Id, grant: Option<Id>, t: nat): set<Id> {
    set id | id in sessions && Owned(sessions[id], account, grant) && Reserves(sessions[id], t)
  }

  /** Admissions in the half-open window that ends at t. */
  predicate InWindow(x: Session, t: nat) {
    x.admittedAt <= t < x.admittedAt + WINDOW
  }

  ghost function Recent(sessions: map<Id, Session>, account: Id, grant: Option<Id>, t: nat): set<Id> {
    set id | id in sessions && Owned(sessions[id], account, grant) && InWindow(sessions[id], t)
  }

  function RecentLimit(grant: Option<Id>): nat {
    if grant.None? then 60 else 30
  }

  function ReservedLimit(grant: Option<Id>): nat {
    if grant.None? then 20 else 4
  }

  ghost predicate HasRoom(s: State, account: Id, grant: Option<Id>) {
    && |Recent(s.sessions, account, grant, s.clock)| < RecentLimit(grant)
    && |Reserved(s.sessions, account, grant, s.clock)| < ReservedLimit(grant)
  }

  predicate SameKey(a: Request, b: Request) {
    a.account == b.account && a.grant == b.grant && a.key == b.key
  }

  function NewSession(s: State, r: Request, c: Context): Session {
    Session(r, c.target, s.clock, s.clock + 90_000, MinNat(s.clock + HOUR, c.expiresAt), Pending, Unclaimed)
  }

  ghost predicate MayAdmit(s: State, id: Id, r: Request, v: View) {
    && id !in s.sessions
    && (forall o :: o in s.sessions ==> !SameKey(s.sessions[o].request, r) && s.sessions[o].request.ticketHash != r.ticketHash)
    && Current(s, r, v).Ok?
    && MinNat(s.clock + HOUR, v.expiresAt.value) >= s.clock + 10_000
    && HasRoom(s, r.account, None) && HasRoom(s, r.account, Some(r.grant))
  }

  ghost function AdmitStep(s: State, id: Id, r: Request, v: View): State {
    if MayAdmit(s, id, r, v) then Put(s, id, NewSession(s, r, Current(s, r, v).value)) else s
  }

  function Put(s: State, id: Id, x: Session): State {
    s.(sessions := s.sessions[id := x])
  }

  function SetIssuance(s: State, id: Id, i: Issuance): State
    requires id in s.sessions
  {
    Put(s, id, s.sessions[id].(issuance := i))
  }

  function Leave(s: State, id: Id): State {
    s.(passes := s.passes - {id})
  }

  function At(s: State, id: Id, p: Pass): State {
    s.(passes := s.passes[id := p])
  }

  /** A pass that ends with a final issuance. */
  function Fail(s: State, id: Id, reason: Reason): State
    requires id in s.sessions
  {
    Leave(SetIssuance(s, id, Unavailable(reason)), id)
  }

  function IssueLimit(x: Session): nat {
    MinNat(x.issueDeadline, x.hardDeadline)
  }

  function PrepareStep(s: State, id: Id, v: View): State
    requires id in s.sessions
  {
    var x := s.sessions[id];
    if x.issuance.Attempted? then Fail(s, id, SigningUnknown)
    else if !x.issuance.Pending? then Leave(s, id)
    else if s.clock >= IssueLimit(x) then Fail(s, id, DeadlineExceeded)
    else
      var c := Same(s, x, v);
      if c.Err? then Fail(s, id, if c.error.Unauthenticated? then AuthorizationChanged else TargetChanged)
      else if !x.connection.Unclaimed? then Fail(s, id, TargetChanged)
      else At(s, id, Prepared)
  }

  function ObserveStep(s: State, id: Id, o: Observation): State
    requires id in s.sessions
  {
    match o
    case Reached(address) => At(s, id, Observed(address))
    case Retryable => Leave(s, id)
    case Refused => Fail(s, id, ProviderRejected)
  }

  function AttemptStep(s: State, id: Id, v: View): State
    requires id in s.sessions && id in s.passes && s.passes[id].Observed?
  {
    var x := s.sessions[id];
    if Same(s, x, v).Err? then Fail(s, id, AuthorizationChanged)
    else if !x.connection.Unclaimed? || !x.issuance.Pending? then Leave(s, id)
    else if s.clock >= IssueLimit(x) then Fail(s, id, DeadlineExceeded)
    else At(SetIssuance(s, id, Attempted(s.clock)), id, SignDue(s.passes[id].address))
  }

  function SignStep(s: State, id: Id): State
    requires id in s.passes && s.passes[id].SignDue?
  {
    At(s.(signed := s.signed + [id]), id, SignCalled(s.passes[id].address))
  }

  function FailureOf(g: Signature): Reason {
    match g
    case Unknown => SigningUnknown
    case Rejected => ProviderRejected
    case _ => SigningFailed
  }

  function PublishStep(s: State, id: Id, v: View, g: Signature): State
    requires id in s.sessions && id in s.passes && s.passes[id].SignCalled?
  {
    var x := s.sessions[id];
    if !x.issuance.Attempted? then Leave(s, id)
    else
      var c := Same(s, x, v);
      if c.Err? then Fail(s, id, AuthorizationChanged)
      else
        var deadline := MinNat(IssueLimit(x), c.value.expiresAt);
        if s.clock >= deadline || !x.connection.Unclaimed? then Fail(s, id, DeadlineExceeded)
        else if !g.Certificate? then Fail(s, id, FailureOf(g))
        else if g.expiresAt <= s.clock then Fail(s, id, DeadlineExceeded)
        else Leave(SetIssuance(s, id, Issued(s.clock, MinNat(s.clock + 60_000, deadline), g.expiresAt,
                                            s.passes[id].address)), id)
  }

  /** Which stage each transaction of a pass belongs to. */
  function IssueStep(s: State, e: Event): State
    requires e.Prepare? || e.Observe? || e.Attempt? || e.Sign? || e.Publish?
  {
    var id := e.id;
    if id !in s.passes || id !in s.sessions then s
    else
      match s.passes[id]
      case Entered => if e.Prepare? then PrepareStep(s, id, e.view) else s
      case Prepared => if e.Observe? then ObserveStep(s, id, e.observation) else s
      case Observed(_) => if e.Attempt? then AttemptStep(s, id, e.view) else s
      case SignDue(_) => if e.Sign? then SignStep(s, id) else s
      case SignCalled(_) => if e.Publish? then PublishStep(s, id, e.view, e.signature) else s
  }

  /** validConnection: a lease for the one claimed connection, never past either deadline. */
  function ValidConnection(s: State, id: Id, claim: Claim, v: View): Result<Lease, Code>
    requires id in s.sessions
  {
    var x := s.sessions[id];
    var c := Same(s, x, v);
    if c.Err? then Err(c.error)
    else if !x.issuance.Issued? || !x.connection.Claimed? || x.connection.claim != claim then Err(PermissionDenied)
    else
      var until := MinNat(x.hardDeadline, c.value.expiresAt);
      if until <= s.clock then Err(Unauthenticated) else Ok(Lease(id, x.request.machine, claim, until))
  }

  function Grant(s: State, lease: Result<Lease, Code>): State {
    if lease.Ok? then s.(leases := s.leases + [lease.value]) else s
  }

  predicate MayClaim(s: State, x: Session, v: View) {
    && Same(s, x, v).Ok?
    && x.connection.Unclaimed? && x.issuance.Issued?
    && s.clock < MinNat(MinNat(x.issuance.ticketDeadline, x.issuance.certificateExpiresAt), x.hardDeadline)
  }

  /** Inside the claim's transaction, between its two reads of the authority. */
  function Claiming(s: State, id: Id, claim: Claim, elapsed: nat): State
    requires id in s.sessions
  {
    Put(s, id, s.sessions[id].(connection := Claimed(claim, s.clock))).(clock := s.clock + elapsed)
  }

  /**
   One transaction claims the ticket on a first reading of the authority and, after some time, grants the first
   lease on a second one, or rolls both back.
   */
  function ClaimStep(s: State, id: Id, claim: Claim, v: View, elapsed: nat, again: View): State {
    if id !in s.sessions || !MayClaim(s, s.sessions[id], v) then s
    else
      var lease := ValidConnection(Claiming(s, id, claim, elapsed), id, claim, again);
      if lease.Err? then s else Grant(Claiming(s, id, claim, elapsed), lease)
  }

  function CheckStep(s: State, id: Id, claim: Claim, v: View): State {
    if id !in s.sessions then s else Grant(s, ValidConnection(s, id, claim, v))
  }

  function PriorClaim(c: Connection): Option<Claim> {
    match c
    case Unclaimed => None
    case Claimed(claim, _) => Some(claim)
    case Closed(previous) => previous
  }

  function Shut(x: Session): Session {
    if Open(x) then x.(connection := Closed(PriorClaim(x.connection))) else x
  }

  /** The gateway's close report names the exact connection; repeating it changes nothing. */
  function CloseStep(s: State, id: Id, claim: Claim): State {
    if id !in s.sessions || PriorClaim(s.sessions[id].connection) != Some(claim) then s
    else Put(s, id, Shut(s.sessions[id]))
  }

  function ShutAll(sessions: map<Id, Session>, which: set<Id>): map<Id, Session> {
    map id | id in sessions :: if id in which then Shut(sessions[id]) else sessions[id]
  }

  ghost function Apply(s: State, e: Event): State {
    match e
    case Tick(elapsed) => s.(clock := s.clock + elapsed)
    case AddMachine(m, restoring) =>
      if m in s.machines then s else s.(machines := s.machines[m := if restoring then Quarantined else Plain])
    case RestoreRecorded(m) =>
      if m in s.machines && s.machines[m].Quarantined? then s.(machines := s.machines[m := Verified]) else s
    case Admit(id, r, v) => AdmitStep(s, id, r, v)
    case BeginIssue(id) =>
      if id in s.passes || id !in s.sessions || !(s.sessions[id].issuance.Pending? || s.sessions[id].issuance.Attempted?)
      then s else At(s, id, Entered)
    case EndPass(id) => Leave(s, id)
    case ClaimTicket(id, claim, v, elapsed, again) => ClaimStep(s, id, claim, v, elapsed, again)
    case Check(id, claim, v) => CheckStep(s, id, claim, v)
    case Close(id, claim) => CloseStep(s, id, claim)
    case CloseGrants(account, grants) =>
      s.(sessions := ShutAll(s.sessions, set id | id in s.sessions && s.sessions[id].request.account == account
                                                    && s.sessions[id].request.grant in grants))
    case CloseMachine(account, m) =>
      s.(sessions := ShutAll(s.sessions, set id | id in s.sessions && s.sessions[id].request.account == account
                                                    && s.sessions[id].request.machine == m))
    case _ => IssueStep(s, e)
  }

  ghost function Run(s: State, events: seq<Event>): State
    decreases |events|
  {
    if events == [] then s else Apply(Run(s, events[..|events| - 1]), events[|events| - 1])
  }

  predicate Named(events: seq<Event>) {
    true
  }

  /** The history leads to this state. The quantifier keeps proofs from replaying histories they do not name. */
  ghost predicate Leads(s: State, events: seq<Event>, t: State) {
    forall h {:trigger Named(h)} :: Named(h) && h == events ==> t == Run(s, h)
  }

  lemma LedTo(s: State, events: seq<Event>, t: State)
    requires Leads(s, events, t)
    ensures t == Run(s, events)
  {
    assert Named(events);
  }

  ghost predicate Initial(s: State) {
    s.sessions == map[] && s.machines == map[] && s.passes == map[] && s.signed == [] && s.leases == []
  }
}
