/**
 The journal of one machine and its allocation: operations, attempts and owned resources, as atomic writes.
 The machine lock admits one tick at a time; a crash ends a tick between any two writes, and the provider's
 replies are arbitrary. A write whose guard does not hold changes nothing.
 */
module OperationMachine {
  import opened Prelude
  import opened Journal

  datatype Lifecycle =
    | LCreate(managedIp: bool, serverType: Id, region: Id, dailyBackups: bool)
    | LDestroy
    | LResize(serverType: Id, dailyBackups: bool)
    | LPowerOff
    | LPowerOn
    | LReboot

  datatype Intent = Provision | Compensate(error: Id) | Cleanup(source: Id)

  datatype Note = Queued | Submitting | Checking | WaitingGuest(server: Id, runtime: bool) | BlockedNow | CleaningUp
  datatype Progress = Active(note: Note) | Succeeded | Failed(error: Id) | Cancelled

  datatype Operation = Operation(lifecycle: Lifecycle, intent: Intent, progress: Progress)

  datatype Resolution = Unresolved | ResolvedOk(observation: Observation) | ResolvedFailed(error: Id) | OperatorClosed

  /** admitted marks an effect journaled under an admitted cleanup. */
  datatype Attempt = Attempt(operation: Id, sequence: nat, command: Command, outcome: Outcome,
                             resolution: Resolution, admitted: bool)

  /** Within a tick: the attempt being submitted, and whether its request has been sent. */
  datatype Flight = Grounded | Inserted(index: nat) | Sent(index: nat)

  datatype State = State(allocation: Id, account: Id, operations: map<Id, Operation>, attempts: seq<Attempt>,
                         ledger: Ledger, retired: bool, destroyed: bool, flight: Flight, sent: seq<nat>)

  datatype Event =
    | ForeignClaim(ref: Ref, row: Row)
    | AdmitOperation(id: Id, lifecycle: Lifecycle)
    | AdmitCleanup(id: Id, source: Id)
    | Insert(operation: Id, command: Command, admitted: bool)
    | Send
    | Record(outcome: Outcome)
    | EndTick
    | ClaimCreated(index: nat)
    | Discover(index: nat, found: seq<Found>)
    | Resolve(index: nat, resolution: Resolution)
    | CloseByOperator(index: nat, cleanup: Id)
    | ObserveAbsence(ref: Ref)
    | Report(operation: Id, note: Note)
    | BeginCompensation(operation: Id, error: Id)
    | Fail(operation: Id, error: Id, retire: bool)
    | Complete(operation: Id)
    | FinishCleanup(operation: Id)

  // ---- vocabulary

  predicate IsActive(o: Operation) {
    o.progress.Active?
  }

  predicate IsCleanup(o: Operation) {
    o.intent.Cleanup?
  }

  /** A command's kind and target: what may not be submitted twice. */
  function Signature(c: Command): (nat, Option<Ref>) {
    var kind := match c
      case CreateIp(_, _) => 0
      case DeleteIp(_) => 1
      case Create(_, _, _, _) => 2
      case Destroy(_) => 3
      case EnableBackup(_) => 4
      case Resize(_, _) => 5
      case PowerOff(_) => 6
      case PowerOn(_) => 7
      case Reboot(_) => 8;
    (kind, Target(c))
  }

  function CountOf(attempts: seq<Attempt>, operation: Id): nat {
    if attempts == [] then 0
    else CountOf(attempts[..|attempts| - 1], operation) + if attempts[|attempts| - 1].operation == operation then 1 else 0
  }

  predicate PendingIn(a: Attempt, operation: Id) {
    a.operation == operation && a.resolution.Unresolved?
  }

  predicate Quiet(attempts: seq<Attempt>, operation: Id) {
    forall i :: 0 <= i < |attempts| ==> !PendingIn(attempts[i], operation)
  }

  predicate Untried(attempts: seq<Attempt>, operation: Id, c: Command) {
    forall i :: 0 <= i < |attempts| ==> !(attempts[i].operation == operation && Signature(attempts[i].command) == Signature(c))
  }

  /** A server create that may have made a machine. */
  predicate MayHaveCreated(a: Attempt) {
    a.command.Create? && !a.outcome.Rejected?
  }

  predicate NoPossibleVm(attempts: seq<Attempt>, operation: Id) {
    forall i :: 0 <= i < |attempts| ==> !(attempts[i].operation == operation && MayHaveCreated(attempts[i]))
  }

  predicate OwnRow(ledger: Ledger, r: Ref, allocation: Id) {
    r in ledger && ledger[r].allocation == allocation
  }

  predicate OwnLive(ledger: Ledger, r: Ref, allocation: Id) {
    OwnRow(ledger, r, allocation) && !ledger[r].absent
  }

  ghost predicate NothingLive(ledger: Ledger, allocation: Id) {
    forall r :: r in ledger ==> !OwnLive(ledger, r, allocation)
  }

  /** The labels under which a target's ledger row was claimed; a create carries its own. */
  function Expected(ledger: Ledger, c: Command): Labels {
    if Target(c).Some? && Target(c).value in ledger then ledger[Target(c).value].labels else map[]
  }

  predicate Certain(o: Outcome) {
    o.Accepted? || o.Completed?
  }

  /** What absence may settle: the deletions, and in cleanup whatever cannot bring the resource back. */
  predicate AbsenceSettles(a: Attempt, recovering: bool) {
    || ((a.command.Destroy? || a.command.DeleteIp?) && (recovering || !a.outcome.Rejected?))
    || (recovering && (a.command.EnableBackup? || (Creates(a.command) && Certain(a.outcome))))
  }

  /** The observation is of the attempt's own resource and shows what its command promises, or an absence that settles it. */
  predicate Confirmable(a: Attempt, o: Observation, expected: Labels, recovering: bool) {
    && (Target(a.command).Some? ==> Subject(o) == Target(a.command).value)
    && (Creates(a.command) && Certain(a.outcome) ==> Subject(o) == a.outcome.resource)
    && Subject(o).kind == KindOf(a.command)
    && match o
       case Absent(_) => AbsenceSettles(a, recovering)
       case ServerSeen(server) =>
         !a.outcome.Rejected? && Achieved(a.command, expected, Uncertain(a.outcome), Some(server), None)
       case IpSeen(ip) =>
         !a.outcome.Rejected? && Achieved(a.command, expected, Uncertain(a.outcome), None, Some(ip))
  }

  /** An uncertain create is confirmed only when the ledger holds no other resource under its operation's label. */
  predicate SoleMatch(ledger: Ledger, allocation: Id, a: Attempt, ref: Ref) {
    Creates(a.command) && Uncertain(a.outcome) ==>
      forall r {:trigger ledger[r]} :: r in ledger && IsDiscovered(ledger[r], r, KindOf(a.command), allocation, a.operation) ==> r == ref
  }

  predicate LabelledFor(labels: Labels, operation: Id) {
    OPERATION in labels && labels[OPERATION] == operation
  }

  // ---- writes

  function SetOperation(s: State, id: Id, o: Operation): State {
    s.(operations := s.operations[id := o])
  }

  function SetAttempt(s: State, i: nat, a: Attempt): State
    requires i < |s.attempts|
  {
    s.(attempts := s.attempts[i := a])
  }

  function Claim(s: State, ref: Ref, labels: Labels): State {
    s.(ledger := Claimed(s.ledger, ref, s.allocation, s.account, labels))
  }

  ghost predicate NoneActive(s: State) {
    forall id :: id in s.operations ==> !IsActive(s.operations[id])
  }

  /** A machine begins with its one create; later operations follow one another while it has an allocation. */
  ghost function AdmitOperationStep(s: State, id: Id, l: Lifecycle): State {
    if id in s.operations || s.retired || !NoneActive(s) || (l.LCreate? <==> s.operations != map[])
    then s
    else SetOperation(s, id, Operation(l, Provision, Active(Queued)))
  }

  /** admitCleanup: an active create is taken over, otherwise a new destroy operation is made. */
  ghost function AdmitCleanupStep(s: State, id: Id, source: Id): State {
    if s.retired || source !in s.operations || !s.operations[source].lifecycle.LCreate? then s
    else if id in s.operations then
      if IsActive(s.operations[id]) && s.operations[id].lifecycle.LCreate? && !IsCleanup(s.operations[id]) && s.flight.Grounded?
      then SetOperation(s, id, s.operations[id].(intent := Cleanup(source), progress := Active(CleaningUp)))
      else s
    else if NoneActive(s) && s.flight.Grounded?
    then SetOperation(s, id, Operation(LDestroy, Cleanup(source), Active(CleaningUp)))
    else s
  }

  /** The commands that an operation's own ticks need, with the arguments that its admission fixed. */
  predicate Asks(o: Operation, c: Command) {
    match o.lifecycle
    case LCreate(_, serverType, region, dailyBackups) => (
      match c
      case CreateIp(r, _) => r == region
      case Create(t, r, _, _) => t == serverType && r == region
      case EnableBackup(_) => dailyBackups
      case DeleteIp(_) => !o.intent.Provision?
      case _ => false)
    case LDestroy => c.Destroy? || c.DeleteIp?
    case LResize(serverType, dailyBackups) => (c.Resize? && c.serverType == serverType) || (c.EnableBackup? && dailyBackups)
    case LPowerOff => c.PowerOff?
    case LPowerOn => c.PowerOn?
    case LReboot => c.Reboot?
  }

  /** Which effects the ticks of an operation may journal, besides journalEffect's own authorization. */
  predicate MayInsert(s: State, id: Id, c: Command, admitted: bool) {
    && id in s.operations && IsActive(s.operations[id]) && !s.retired && s.flight.Grounded?
    && var o := s.operations[id];
    if admitted then
      IsCleanup(o) && (c.Destroy? || c.DeleteIp?) && LiveRow(s.ledger, Target(c).value, s.allocation, s.account)
    else
      && !IsCleanup(o)
      && Quiet(s.attempts, id) && Untried(s.attempts, id, c)
      && (Creates(c) ==> o.lifecycle.LCreate? && LabelledFor(c.labels, id))
      && (Target(c).Some? ==> OwnLive(s.ledger, Target(c).value, s.allocation))
      && (o.intent.Compensate? ==> c.DeleteIp?)
      && Asks(o, c) && (c.Create? && c.network.Some? ==> OwnLive(s.ledger, Ref(IpKind, c.network.value), s.allocation))
  }

  function InsertStep(s: State, id: Id, c: Command, admitted: bool): State {
    if !MayInsert(s, id, c, admitted) then s
    else
      s.(attempts := s.attempts + [Attempt(id, CountOf(s.attempts, id) + 1, c, Prepared, Unresolved, admitted)],
         flight := Inserted(|s.attempts|),
         operations := s.operations[id := s.operations[id].(progress := Active(Submitting))])
  }

  function RecordStep(s: State, o: Outcome): State {
    if !s.flight.Sent? || s.flight.index >= |s.attempts| || o.Prepared? then s
    else SetAttempt(s, s.flight.index, s.attempts[s.flight.index].(outcome := o)).(flight := Grounded)
  }

  /** The receipt of an acknowledged create names a resource; it is claimed once the receipt is saved. */
  function ClaimCreatedStep(s: State, i: nat): State {
    if i >= |s.attempts| || s.retired || !s.flight.Grounded? then s
    else
      var a := s.attempts[i];
      if Creates(a.command) && (a.outcome.Accepted? || a.outcome.Completed?) && a.outcome.resource.kind == KindOf(a.command)
      then Claim(s, a.outcome.resource, a.command.labels)
      else s
  }

  function DiscoverStep(s: State, i: nat, found: seq<Found>): State {
    if i >= |s.attempts| || s.retired || !s.flight.Grounded?
       || !Creates(s.attempts[i].command) || !Uncertain(s.attempts[i].outcome) || !s.attempts[i].resolution.Unresolved? then s
    else s.(ledger := ClaimAll(s.ledger, found, s.attempts[i].command, s.allocation, s.account).0)
  }

  predicate Recovering(s: State, a: Attempt) {
    exists id :: id in s.operations && IsActive(s.operations[id]) && IsCleanup(s.operations[id])
                 && (a.operation == id || a.operation == s.operations[id].intent.source)
  }

  /** A resolution is recorded once, together with what it observed of the ledger. */
  ghost function ResolveStep(s: State, i: nat, r: Resolution): State {
    if i >= |s.attempts| || s.retired || !s.flight.Grounded? || !s.attempts[i].resolution.Unresolved? then s
    else if r.ResolvedFailed? then FailedStep(s, i, r)
    else if r.ResolvedOk? then ConfirmedStep(s, i, r.observation)
    else s
  }

  /** Only a definite rejection, or an accepted action that failed, fails an attempt. */
  ghost function FailedStep(s: State, i: nat, r: Resolution): State
    requires i < |s.attempts|
  {
    if s.attempts[i].outcome.Rejected? || s.attempts[i].outcome.Accepted?
    then SetAttempt(s, i, s.attempts[i].(resolution := r)) else s
  }

  ghost function ConfirmedStep(s: State, i: nat, o: Observation): State
    requires i < |s.attempts|
  {
    var a := s.attempts[i];
    var t := SetAttempt(s, i, a.(resolution := ResolvedOk(o)));
    if !Confirmable(a, o, Expected(s.ledger, a.command), Recovering(s, a)) then s
    else if o.Absent? then t.(ledger := Tombstoned(s.ledger, o.resource, s.allocation, s.account))
    else if !ClaimAccepted(s.ledger, Subject(o), s.allocation, s.account) || !SoleMatch(s.ledger, s.allocation, a, Subject(o)) then s
    else Claim(t, Subject(o), if Creates(a.command) then a.command.labels else map[])
  }

  /** close_create: an operator's closure of an uncertain create whose operation is being cleaned up. */
  predicate MayClose(s: State, i: nat, cleanup: Id) {
    && i < |s.attempts| && !s.retired && s.flight.Grounded?
    && s.attempts[i].resolution.Unresolved? && Creates(s.attempts[i].command) && Uncertain(s.attempts[i].outcome)
    && cleanup in s.operations && IsActive(s.operations[cleanup]) && IsCleanup(s.operations[cleanup])
    && s.operations[cleanup].intent.source == s.attempts[i].operation
  }

  function CloseStep(s: State, i: nat, cleanup: Id): State {
    if MayClose(s, i, cleanup) then SetAttempt(s, i, s.attempts[i].(resolution := OperatorClosed)) else s
  }

  predicate MayEnd(s: State, id: Id) {
    && id in s.operations && IsActive(s.operations[id]) && !IsCleanup(s.operations[id])
    && Quiet(s.attempts, id) && s.flight.Grounded? && !s.retired
  }

  ghost function CompensateStep(s: State, id: Id, error: Id): State {
    if !MayEnd(s, id) || !s.operations[id].lifecycle.LCreate? || !s.operations[id].intent.Provision?
       || !NoPossibleVm(s.attempts, id) then s
    else SetOperation(s, id, s.operations[id].(intent := Compensate(error), progress := Active(CleaningUp)))
  }

  /** fail: only a create may give its allocation back, with nothing live and no VM possible. */
  ghost function FailStep(s: State, id: Id, error: Id, retire: bool): State {
    if !MayEnd(s, id) then s
    else if retire && !(s.operations[id].lifecycle.LCreate? && NoPossibleVm(s.attempts, id)
                        && forall r :: r in s.ledger && r.kind.IpKind? ==> !OwnLive(s.ledger, r, s.allocation)) then s
    else SetOperation(s, id, s.operations[id].(progress := Failed(error))).(retired := retire)
  }

  /** The effect that a lifecycle command is for, confirmed by a reading of its server. */
  predicate Fulfils(l: Lifecycle, a: Attempt) {
    && a.resolution.ResolvedOk? && a.resolution.observation.ServerSeen?
    && match l
       case LCreate(_, _, _, _) => a.command.Create?
       case LDestroy => a.command.Destroy?
       case LResize(_, _) => a.command.Resize?
       case LPowerOff => a.command.PowerOff?
       case LPowerOn => a.command.PowerOn?
       case LReboot => a.command.Reboot?
  }

  predicate Fulfilled(attempts: seq<Attempt>, id: Id, l: Lifecycle) {
    exists i :: 0 <= i < |attempts| && attempts[i].operation == id && Fulfils(l, attempts[i])
  }

  ghost function CompleteStep(s: State, id: Id): State {
    if !MayEnd(s, id)
       || !(if s.operations[id].lifecycle.LDestroy? then NothingLive(s.ledger, s.allocation)
            else Fulfilled(s.attempts, id, s.operations[id].lifecycle)) then s
    else
      var t := SetOperation(s, id, s.operations[id].(progress := Progress.Succeeded));
      if s.operations[id].lifecycle.LDestroy? then t.(retired := true, destroyed := true) else t
  }

  ghost function FinishCleanupStep(s: State, id: Id): State {
    if id !in s.operations || !IsActive(s.operations[id]) || !IsCleanup(s.operations[id]) || s.retired || !s.flight.Grounded?
       || !Quiet(s.attempts, id) || !Quiet(s.attempts, s.operations[id].intent.source)
       || !NothingLive(s.ledger, s.allocation) then s
    else
      var o := s.operations[id];
      SetOperation(s, id, o.(progress := if o.lifecycle.LCreate? then Cancelled else Progress.Succeeded))
      .(retired := true, destroyed := true)
  }

  ghost function Apply(s: State, e: Event): State {
    match e
    case ForeignClaim(ref, row) =>
      if ref in s.ledger || row.allocation == s.allocation then s else s.(ledger := s.ledger[ref := row])
    case AdmitOperation(id, l) => AdmitOperationStep(s, id, l)
    case AdmitCleanup(id, source) => AdmitCleanupStep(s, id, source)
    case Insert(id, c, admitted) => InsertStep(s, id, c, admitted)
    case Send => if s.flight.Inserted? then s.(sent := s.sent + [s.flight.index], flight := Sent(s.flight.index)) else s
    case Record(o) => RecordStep(s, o)
    case EndTick => s.(flight := Grounded)
    case ClaimCreated(i) => ClaimCreatedStep(s, i)
    case Discover(i, found) => DiscoverStep(s, i, found)
    case Resolve(i, r) => ResolveStep(s, i, r)
    case CloseByOperator(i, cleanup) => CloseStep(s, i, cleanup)
    case ObserveAbsence(ref) => s.(ledger := Tombstoned(s.ledger, ref, s.allocation, s.account))
    case Report(id, note) =>
      if id in s.operations && IsActive(s.operations[id]) then SetOperation(s, id, s.operations[id].(progress := Active(note))) else s
    case BeginCompensation(id, error) => CompensateStep(s, id, error)
    case Fail(id, error, retire) => FailStep(s, id, error, retire)
    case Complete(id) => CompleteStep(s, id)
    case FinishCleanup(id) => FinishCleanupStep(s, id)
  }

  ghost function Run(s: State, events: seq<Event>): State
    decreases |events|
  {
    if events == [] then s else Apply(Run(s, events[..|events| - 1]), events[|events| - 1])
  }

  predicate Named(events: seq<Event>) {
    true
  }

  /** The history leads to this state. The quantifier keeps proofs from replaying histories they do not name. */
  ghost predicate Leads(s: State, events: seq<Event>, t: State) {
    forall h {:trigger Named(h)} :: Named(h) && h == events ==> t == Run(s, h)
  }

  lemma LedTo(s: State, events: seq<Event>, t: State)
    requires Leads(s, events, t)
    ensures t == Run(s, events)
  {
    assert Named(events);
  }

  ghost predicate Initial(s: State) {
    && s.operations == map[] && s.attempts == [] && !s.retired && !s.destroyed && s.flight.Grounded? && s.sent == []
    && forall r :: r in s.ledger ==> s.ledger[r].allocation != s.allocation
  }

  // ---- invariants

  ghost predicate GapFree(attempts: seq<Attempt>) {
    forall i :: 0 <= i < |attempts| ==> attempts[i].sequence == CountOf(attempts[..i], attempts[i].operation) + 1
  }

  /** Of two attempts of one operation, the later is an admitted deletion or asks for something else. */
  predicate PairOk(a: Attempt, b: Attempt) {
    a.operation == b.operation && !b.admitted ==>
      Signature(a.command) != Signature(b.command) && !a.resolution.Unresolved?
  }

  ghost predicate Pairs(attempts: seq<Attempt>) {
    forall i, j :: 0 <= i < j < |attempts| ==> PairOk(attempts[i], attempts[j])
  }

  /** A cleanup was admitted over this operation, as itself or as its source. */
  predicate UnderCleanup(operations: map<Id, Operation>, operation: Id) {
    exists id :: id in operations && IsCleanup(operations[id]) && (operation == id || operation == operations[id].intent.source)
  }

  predicate AttemptOk(a: Attempt, operations: map<Id, Operation>, ledger: Ledger, allocation: Id) {
    && a.operation in operations
    && (Creates(a.command) ==> operations[a.operation].lifecycle.LCreate? && LabelledFor(a.command.labels, a.operation))
    && (a.admitted ==> IsCleanup(operations[a.operation]) && (a.command.Destroy? || a.command.DeleteIp?))
    && (Target(a.command).Some? ==> OwnRow(ledger, Target(a.command).value, allocation))
    && (!a.admitted ==> Asks(operations[a.operation], a.command))
    && (a.command.Create? && a.command.network.Some? ==> OwnRow(ledger, Ref(IpKind, a.command.network.value), allocation))
  }

  /** What a confirmed attempt's observation still says of it, by the labels of its target's row. */
  predicate ConfirmedOk(a: Attempt, operations: map<Id, Operation>, ledger: Ledger) {
    a.resolution.ResolvedOk? ==>
      Confirmable(a, a.resolution.observation, Expected(ledger, a.command), UnderCleanup(operations, a.operation))
  }

  ghost predicate ConfirmedAll(attempts: seq<Attempt>, operations: map<Id, Operation>, ledger: Ledger) {
    forall i {:trigger ConfirmedOk(attempts[i], operations, ledger)} :: 0 <= i < |attempts| ==>
      ConfirmedOk(attempts[i], operations, ledger)
  }

  ghost predicate Attempts(attempts: seq<Attempt>, operations: map<Id, Operation>, ledger: Ledger, allocation: Id) {
    forall i {:trigger AttemptOk(attempts[i], operations, ledger, allocation)} :: 0 <= i < |attempts| ==>
      AttemptOk(attempts[i], operations, ledger, allocation)
  }

  ghost predicate OperationOk(id: Id, operations: map<Id, Operation>, attempts: seq<Attempt>)
    requires id in operations
  {
    var o := operations[id];
    && (!IsActive(o) ==> Quiet(attempts, id))
    && (o.progress.Succeeded? && !o.intent.Cleanup? && !o.lifecycle.LDestroy? ==> Fulfilled(attempts, id, o.lifecycle))
    && (o.intent.Compensate? ==> o.lifecycle.LCreate? && NoPossibleVm(attempts, id))
    && (o.intent.Cleanup? ==> o.intent.source in operations && operations[o.intent.source].lifecycle.LCreate?)
    && (o.lifecycle.LCreate? ==> forall x :: x in operations && operations[x].lifecycle.LCreate? ==> x == id)
    && (IsActive(o) ==> forall x :: x in operations && IsActive(operations[x]) ==> x == id)
  }

  ghost predicate Operations(operations: map<Id, Operation>, attempts: seq<Attempt>) {
    && (forall id {:trigger OperationOk(id, operations, attempts)} :: id in operations ==> OperationOk(id, operations, attempts))
    && (operations != map[] ==> exists id :: id in operations && operations[id].lifecycle.LCreate?)
  }

  /** A server row of this allocation means that some create was not definitively rejected. */
  ghost predicate ServersHaveCreates(ledger: Ledger, attempts: seq<Attempt>, allocation: Id) {
    NoServers(ledger, allocation) || exists i :: 0 <= i < |attempts| && MayHaveCreated(attempts[i])
  }

  ghost predicate NoServers(ledger: Ledger, allocation: Id) {
    forall r :: r in ledger && r.kind.ServerKind? ==> !OwnRow(ledger, r, allocation)
  }

  predicate CreateLabelled(labels: Labels, operations: map<Id, Operation>) {
    OPERATION in labels && labels[OPERATION] in operations && operations[labels[OPERATION]].lifecycle.LCreate?
  }

  /** Every resource of this allocation carries the label of its create. */
  ghost predicate RowsLabelled(ledger: Ledger, operations: map<Id, Operation>, allocation: Id) {
    forall r {:trigger ledger[r]} :: r in ledger && ledger[r].allocation == allocation ==> CreateLabelled(ledger[r].labels, operations)
  }

  ghost predicate OnlyServer(ledger: Ledger, allocation: Id, ref: Ref) {
    forall r {:trigger ledger[r]} :: r in ledger && r.kind.ServerKind? && ledger[r].allocation == allocation ==> r == ref
  }

  ghost predicate BeingCleaned(operations: map<Id, Operation>) {
    exists id :: id in operations && IsActive(operations[id]) && IsCleanup(operations[id])
  }

  /** A settled server create has one server at most, unless an operator closed it for a cleanup that is still at work. */
  ghost predicate CreateOk(a: Attempt, operations: map<Id, Operation>, ledger: Ledger, allocation: Id, retired: bool) {
    a.command.Create? ==>
      && (Certain(a.outcome) ==> OnlyServer(ledger, allocation, a.outcome.resource))
      && (Uncertain(a.outcome) && a.resolution.ResolvedOk? ==> OnlyServer(ledger, allocation, Subject(a.resolution.observation)))
      && (Uncertain(a.outcome) ==> !a.resolution.ResolvedFailed?)
      && (a.resolution.OperatorClosed? ==> retired || BeingCleaned(operations))
  }

  ghost predicate CreatesOk(attempts: seq<Attempt>, operations: map<Id, Operation>, ledger: Ledger, allocation: Id, retired: bool) {
    forall i {:trigger CreateOk(attempts[i], operations, ledger, allocation, retired)} :: 0 <= i < |attempts| ==>
      CreateOk(attempts[i], operations, ledger, allocation, retired)
  }

  ghost predicate SentOnce(sent: seq<nat>, flight: Flight, attempts: seq<Attempt>) {
    && (forall k, l :: 0 <= k < l < |sent| ==> sent[k] != sent[l])
    && (forall k :: 0 <= k < |sent| ==> sent[k] < |attempts|)
    && (flight.Inserted? ==> flight.index < |attempts| && flight.index !in sent)
    && (flight.Sent? ==> flight.index in sent)
    && (!flight.Grounded? ==>
          flight.index + 1 == |attempts| && attempts[flight.index].outcome.Prepared? && attempts[flight.index].resolution.Unresolved?)
  }

  ghost predicate Inv(s: State) {
    && GapFree(s.attempts) && Pairs(s.attempts)
    && Attempts(s.attempts, s.operations, s.ledger, s.allocation)
    && Operations(s.operations, s.attempts)
    && ConfirmedAll(s.attempts, s.operations, s.ledger)
    && RowsLabelled(s.ledger, s.operations, s.allocation)
    && CreatesOk(s.attempts, s.operations, s.ledger, s.allocation, s.retired)
    && ServersHaveCreates(s.ledger, s.attempts, s.allocation)
    && SentOnce(s.sent, s.flight, s.attempts)
    && (!s.flight.Grounded? && s.attempts[s.flight.index].command.Create? ==> NoServers(s.ledger, s.allocation))
    && (s.retired ==> NothingLive(s.ledger, s.allocation) && s.flight.Grounded?)
    && (forall i :: 0 <= i < |s.attempts| && !s.attempts[i].outcome.Prepared? ==> i in s.sent)
  }
}
