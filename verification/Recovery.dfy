/**
 The control fence and offline recovery as a state machine. A fence is one database session that holds a
 shared (ready) or exclusive (recovering) advisory lock for a process lifetime; its process learns of a lost
 session late or never. Mutations run on other sessions: one starts under a passing opening or check of its
 process's fence, and commits whatever has become of that fence since. A process without a generation file
 has no fence. Recovery decisions are transactions that need the whole lock to be free.
 */
module Recovery {
  import opened Prelude
  import opened Journal
  import Inspection

  datatype Control = Absent | Ready(generation: Id) | Recovering(generation: Id, recovery: Id)

  datatype Mode = ReadyMode | RecoveringMode

  /** The process's own view: what it inspects just now, what it opened with, and what it knows of its session. */
  datatype Stage = Resting | Inspecting | FileRead(generation: Id)
  datatype Fence = Fence(mode: Mode, pinned: Option<Id>, stage: Stage, failed: bool, closed: bool)

  /** An operation with its machine's allocation, as a closure reads them. */
  datatype Effect = Effect(command: Command, outcome: Outcome, pending: bool)
  datatype Work = Work(machine: Id, terminal: bool, destroys: bool, live: bool, ownProvider: bool, serverId: Option<Id>,
                       rows: map<Ref, bool>,  // resources of the live allocation, and whether each is absent
                       history: seq<Effect>, destroyed: bool)

  datatype Request =
    | Initialize(id: Id, generation: Id)
    | Begin(id: Id, generation: Id, evidence: Id)
    | CloseOperation(id: Id, generation: Id, recovery: Id, operation: Id, expected: Work, resources: seq<Ref>)
    | Resume(id: Id, generation: Id, recovery: Id, expectedState: Id, expectedInventory: Id)

  /** What a mutation of the control plane adds. */
  datatype Change = NewGrant(id: Id) | NewSession(id: Id) | NewSchedule(id: Id) | NewWork(id: Id, work: Work)

  /** A mutation under way, and the fence its process checked before it. */
  datatype Pending = Pending(under: Option<Id>, change: Change)

  datatype Ledger = Ledger(
    occupied: bool,
    grants: map<Id, bool>,     // revoked?
    sessions: map<Id, bool>,   // closed?
    schedules: map<Id, bool>,  // disabled?
    work: map<Id, Work>,
    pending: map<Id, Pending>,
    straggled: set<Change>)    // a history variable: committed while recovering, since begin

  datatype State = State(
    control: Control, external: Option<Id>, shared: set<Id>, exclusive: Option<Id>, fences: map<Id, Fence>,
    receipts: map<Id, Request>, ledger: Ledger)

  /** What one decision reads: the private file three times, the provider, and what a resume inspects. */
  datatype Evidence = Evidence(file: (Option<Id>, Option<Id>, Option<Id>), labelled: bool, present: set<Ref>,
                               database: Inspection.Database, world: Inspection.World,
                               stateDigest: Id, inventoryDigest: Id)

  datatype Event =
    | WriteFile(generation: Option<Id>)
    | Acquire(fence: Id, mode: Mode)
    | StartCheck(fence: Id)
    | ReadFile(fence: Id)
    | Query(fence: Id)
    | SessionDies(fence: Id)
    | Notice(fence: Id)
    | StartClose(fence: Id)
    | FinishClose(fence: Id)
    | Start(mutation: Id, under: Option<Id>, change: Change)
    | Commit(mutation: Id)
    | Abandon(mutation: Id)
    | RevokeGrant(id: Id)
    | CloseSession(id: Id)
    | DisableSchedule(id: Id)
    | Decide(request: Request, evidence: Evidence)

  // ---- the lock

  predicate Held(s: State, f: Id) {
    f in s.shared || s.exclusive == Some(f)
  }

  predicate Free(s: State) {
    s.shared == {} && s.exclusive.None?
  }

  function Unlock(s: State, f: Id): State {
    s.(shared := s.shared - {f}, exclusive := if s.exclusive == Some(f) then None else s.exclusive)
  }

  function SetFence(s: State, f: Id, x: Fence): State {
    s.(fences := s.fences[f := x])
  }

  /** One attempt; a session that does not get its lock is never a fence. */
  function AcquireStep(s: State, f: Id, mode: Mode): State {
    if f in s.fences then s
    else
      var x := Fence(mode, None, Inspecting, false, false);
      if mode.ReadyMode? && s.exclusive.None? then SetFence(s, f, x).(shared := s.shared + {f})
      else if mode.RecoveringMode? && Free(s) then SetFence(s, f, x).(exclusive := Some(f))
      else s
  }

  predicate Assertable(x: Fence) {
    !x.failed && !x.closed
  }

  function ReadFileStep(s: State, f: Id): State {
    if f !in s.fences || !s.fences[f].stage.Inspecting? || !Assertable(s.fences[f]) || s.external.None? then s
    else SetFence(s, f, s.fences[f].(stage := FileRead(s.external.value)))
  }

  predicate Agrees(c: Control, mode: Mode, generation: Id) {
    match c
    case Absent => false
    case Ready(g) => mode.ReadyMode? && g == generation
    case Recovering(g, _) => mode.RecoveringMode? && g == generation
  }

  /** The query runs on the session that owns the lock, so it is answered only while that session lives. */
  predicate Passes(s: State, f: Id) {
    && f in s.fences && Held(s, f)
    && var x := s.fences[f];
    && x.stage.FileRead? && Assertable(x)
    && Agrees(s.control, x.mode, x.stage.generation)
    && (x.pinned.Some? ==> x.pinned.value == x.stage.generation)
  }

  function QueryStep(s: State, f: Id): State {
    if f !in s.fences || !s.fences[f].stage.FileRead? then s
    else
      var x := s.fences[f];
      if Passes(s, f) then SetFence(s, f, x.(stage := Resting, pinned := Some(x.stage.generation)))
      else SetFence(s, f, x.(stage := Resting, failed := x.failed || !Held(s, f)))
  }

  /** Whose work the lock protects: a ready fence that opened and whose session still lives. */
  predicate MayWork(s: State, f: Id) {
    f in s.shared && f in s.fences && s.fences[f].pinned.Some?
  }

  // ---- decisions

  function RefOf(e: Effect): Option<Ref> {
    if e.outcome.Accepted? || e.outcome.Completed? then Some(e.outcome.resource) else Target(e.command)
  }

  /** Every resource that a closure must acknowledge: retained rows, the allocation's server, every effect's. */
  ghost function Required(w: Work): set<Ref> {
    w.rows.Keys + (if w.serverId.Some? then {Ref(ServerKind, w.serverId.value)} else {})
    + set i | 0 <= i < |w.history| && RefOf(w.history[i]).Some? :: RefOf(w.history[i]).value
  }

  predicate NoDuplicates(s: seq<Ref>) {
    forall i, j :: 0 <= i < j < |s| ==> s[i] != s[j]
  }

  predicate HasPending(w: Work) {
    exists i :: 0 <= i < |w.history| && w.history[i].pending
  }

  ghost predicate OthersQuiet(s: State, id: Id)
    requires id in s.ledger.work
  {
    forall o :: o in s.ledger.work && o != id && s.ledger.work[o].machine == s.ledger.work[id].machine ==> !HasPending(s.ledger.work[o])
  }

  ghost predicate Closable(s: State, r: Request, v: Evidence)
    requires r.CloseOperation?
  {
    && r.operation in s.ledger.work
    && var w := s.ledger.work[r.operation];
    && w == r.expected && !w.terminal && w.live && w.ownProvider
    && OthersQuiet(s, r.operation)
    && NoDuplicates(r.resources) && (forall x :: x in Required(w) ==> x in r.resources)
    && !v.labelled && forall x :: x in r.resources ==> x !in v.present
  }

  function Settled(history: seq<Effect>): seq<Effect> {
    seq(|history|, i requires 0 <= i < |history| => history[i].(pending := false))
  }

  function Closed(w: Work): Work {
    w.(terminal := true, live := false, destroyed := true, history := Settled(w.history),
       rows := map r | r in w.rows :: true)
  }

  predicate Matches(c: Control, generation: Id, recovery: Id) {
    c == Recovering(generation, recovery)
  }

  ghost predicate Permitted(s: State, r: Request, v: Evidence) {
    match r
    case Initialize(_, _) => s.control.Absent? && !s.ledger.occupied
    case Begin(_, g, _) => s.control.Absent? || (s.control.Ready? && s.control.generation != g)
    case CloseOperation(_, g, recovery, _, _, _) => Matches(s.control, g, recovery) && Closable(s, r, v)
    case Resume(_, g, recovery, expectedState, expectedInventory) =>
      && Matches(s.control, g, recovery)
      && Inspection.Clean(v.database, v.world)
      && v.stateDigest == expectedState && v.inventoryDigest == expectedInventory
  }

  /** The inspected tables are this state's: its schedules, operations and their effects are among the rows. */
  ghost predicate Shows(s: State, db: Inspection.Database) {
    && (forall i :: i in s.ledger.schedules ==> Inspection.Flagged(i, s.ledger.schedules[i]) in db.schedules)
    && (forall o :: o in s.ledger.work ==> Inspection.Flagged(o, s.ledger.work[o].terminal) in db.operations)
    && (forall o :: o in s.ledger.work && HasPending(s.ledger.work[o]) ==> !Inspection.AllOk(db.attempts))
  }

  function All(m: map<Id, bool>): map<Id, bool> {
    map i | i in m :: true
  }

  function AllWithdrawn(l: Ledger): Ledger {
    l.(grants := All(l.grants), sessions := All(l.sessions), schedules := All(l.schedules), straggled := {})
  }

  function Effected(s: State, r: Request): State {
    match r
    case Initialize(_, g) => s.(control := Ready(g))
    case Begin(id, g, _) => s.(control := Recovering(g, id), ledger := AllWithdrawn(s.ledger))
    case CloseOperation(_, _, _, operation, _, _) =>
      if operation in s.ledger.work
      then s.(ledger := s.ledger.(work := s.ledger.work[operation := Closed(s.ledger.work[operation])])) else s
    case Resume(_, g, _, _, _) => s.(control := Ready(g))
  }

  /** A new decision commits only if the private file names its generation at all three reads. */
  ghost predicate Commits(s: State, r: Request, v: Evidence) {
    && Free(s) && r.id !in s.receipts
    && v.file == (Some(r.generation), Some(r.generation), Some(r.generation))
    && Permitted(s, r, v)
    && (r.Resume? ==> Shows(s, v.database))
  }

  ghost function DecideStep(s: State, r: Request, v: Evidence): State {
    if Commits(s, r, v) then Effected(s, r).(receipts := s.receipts[r.id := r]) else s
  }

  predicate IsFenceEvent(e: Event) {
    e.Acquire? || e.StartCheck? || e.ReadFile? || e.Query? || e.SessionDies? || e.Notice? || e.StartClose? || e.FinishClose?
  }

  function FenceStep(s: State, e: Event): State
    requires IsFenceEvent(e)
  {
    match e
    case Acquire(f, mode) => AcquireStep(s, f, mode)
    case StartCheck(f) =>
      if f in s.fences && s.fences[f].stage.Resting? && Assertable(s.fences[f])
      then SetFence(s, f, s.fences[f].(stage := Inspecting)) else s
    case ReadFile(f) => ReadFileStep(s, f)
    case Query(f) => QueryStep(s, f)
    case SessionDies(f) => Unlock(s, f)
    case Notice(f) => if f in s.fences then SetFence(s, f, s.fences[f].(failed := true)) else s
    case StartClose(f) => if f in s.fences then SetFence(s, f, s.fences[f].(closed := true)) else s
    case FinishClose(f) => if f in s.fences && s.fences[f].closed then Unlock(s, f) else s
  }

  predicate Exists(l: Ledger, c: Change) {
    match c
    case NewGrant(i) => i in l.grants
    case NewSession(i) => i in l.sessions
    case NewSchedule(i) => i in l.schedules
    case NewWork(i, _) => i in l.work
  }

  function Added(l: Ledger, c: Change): Ledger {
    match c
    case NewGrant(i) => l.(grants := l.grants[i := false])
    case NewSession(i) => l.(sessions := l.sessions[i := false])
    case NewSchedule(i) => l.(schedules := l.schedules[i := false])
    case NewWork(i, w) => l.(work := l.work[i := w])
  }

  function Committed(l: Ledger, m: Id, recovering: bool): Ledger {
    if m !in l.pending then l
    else
      var c, rest := l.pending[m].change, l.(pending := l.pending - {m});
      if Exists(l, c) then rest
      else Added(rest, c).(occupied := true, straggled := if recovering then l.straggled + {c} else l.straggled)
  }

  function Started(l: Ledger, m: Id, under: Option<Id>, c: Change, checked: bool): Ledger {
    if m in l.pending || (under.Some? && !checked) then l
    else l.(pending := l.pending[m := Pending(under, c)])
  }

  function LedgerStep(l: Ledger, e: Event, checked: bool, recovering: bool): Ledger
    requires IsLedgerEvent(e)
  {
    match e
    case Start(m, under, c) => Started(l, m, under, c, checked)
    case Commit(m) => Committed(l, m, recovering)
    case Abandon(m) => l.(pending := l.pending - {m})
    case RevokeGrant(id) => if id in l.grants then l.(grants := l.grants[id := true]) else l
    case CloseSession(id) => if id in l.sessions then l.(sessions := l.sessions[id := true]) else l
    case DisableSchedule(id) => if id in l.schedules then l.(schedules := l.schedules[id := true]) else l
  }

  /** Mutations, and the withdrawals that are always open. */
  predicate IsLedgerEvent(e: Event) {
    e.Start? || e.Commit? || e.Abandon? || e.RevokeGrant? || e.CloseSession? || e.DisableSchedule?
  }

  /** The process checked this fence, or it has none. */
  predicate Checked(s: State, e: Event) {
    e.Start? && (e.under.Some? ==> MayWork(s, e.under.value))
  }

  function WorkStep(s: State, e: Event): State
    requires !IsFenceEvent(e) && !e.Decide?
  {
    if e.WriteFile? then s.(external := e.generation)
    else s.(ledger := LedgerStep(s.ledger, e, Checked(s, e), s.control.Recovering?))
  }

  ghost function Apply(s: State, e: Event): State {
    if e.Decide? then DecideStep(s, e.request, e.evidence)
    else if IsFenceEvent(e) then FenceStep(s, e)
    else WorkStep(s, e)
  }

  ghost function Run(s: State, events: seq<Event>): State
    decreases |events|
  {
    if events == [] then s else Apply(Run(s, events[..|events| - 1]), events[|events| - 1])
  }

  predicate Named(events: seq<Event>) {
    true
  }

  /** The history leads to this state. The quantifier keeps proofs from replaying histories they do not name. */
  ghost predicate Leads(s: State, events: seq<Event>, t: State) {
    forall h {:trigger Named(h)} :: Named(h) && h == events ==> t == Run(s, h)
  }

  lemma LedTo(s: State, events: seq<Event>, t: State)
    requires Leads(s, events, t)
    ensures t == Run(s, events)
  {
    assert Named(events);
  }

  /**
   Any database restored from a backup may start here, one that was recovering included: whatever it holds,
   no session of it is alive. What is live in a recovering one had straggled before the backup was taken.
   */
  ghost predicate Initial(s: State) {
    && s.shared == {} && s.exclusive.None? && s.fences == map[] && s.ledger.pending == map[]
    && LedgerOk(s.ledger, s.control.Recovering?)
  }

  // ---- invariants

  ghost predicate AllTrue(m: map<Id, bool>) {
    forall i :: i in m ==> m[i]
  }

  predicate FenceOk(s: State, f: Id)
    requires f in s.fences
  {
    && (f in s.shared ==> s.fences[f].mode.ReadyMode?)
    && (s.exclusive == Some(f) ==> s.fences[f].mode.RecoveringMode?)
    && (Held(s, f) && s.fences[f].pinned.Some? ==> Agrees(s.control, s.fences[f].mode, s.fences[f].pinned.value))
  }

  ghost predicate Inv(s: State) {
    && (s.exclusive.Some? ==> s.shared == {} && s.exclusive.value in s.fences)
    && (forall f :: f in s.shared ==> f in s.fences)
    && (forall f {:trigger FenceOk(s, f)} :: f in s.fences ==> FenceOk(s, f))
    && LedgerOk(s.ledger, s.control.Recovering?)
  }

  /** Stragglers are on record, and while recovering only they can be live. */
  ghost predicate LedgerOk(l: Ledger, recovering: bool) {
    && (forall c :: c in l.straggled ==> Exists(l, c))
    && (recovering ==>
          && (forall i :: i in l.grants && !l.grants[i] ==> NewGrant(i) in l.straggled)
          && (forall i :: i in l.sessions && !l.sessions[i] ==> NewSession(i) in l.straggled)
          && (forall i :: i in l.schedules && !l.schedules[i] ==> NewSchedule(i) in l.straggled))
  }

  lemma DecideKeeps(s: State, r: Request, v: Evidence)
    requires Inv(s)
    ensures Inv(DecideStep(s, r, v))
  {
    var t := DecideStep(s, r, v);
    forall f | f in t.fences ensures FenceOk(t, f) { assert FenceOk(s, f); }
  }

  lemma QueryKeeps(s: State, f: Id)
    requires Inv(s)
    ensures Inv(QueryStep(s, f))
  {
    FenceKeeps(s, QueryStep(s, f), f);
  }

  lemma AcquireKeeps(s: State, f: Id, mode: Mode)
    requires Inv(s)
    ensures Inv(AcquireStep(s, f, mode))
  {
    LockKeeps(s, AcquireStep(s, f, mode), f);
  }

  lemma FencesKeep(s: State, e: Event)
    requires Inv(s) && IsFenceEvent(e)
    ensures Inv(FenceStep(s, e))
  {
    match e
    case Acquire(f, mode) => AcquireKeeps(s, f, mode);
    case ReadFile(f) => FenceKeeps(s, ReadFileStep(s, f), f);
    case Query(f) => QueryKeeps(s, f);
    case SessionDies(f) => LockKeeps(s, Unlock(s, f), f);
    case FinishClose(f) => LockKeeps(s, Unlock(s, f), f);
    case StartCheck(f) => FenceKeeps(s, FenceStep(s, e), f);
    case Notice(f) => FenceKeeps(s, FenceStep(s, e), f);
    case StartClose(f) => FenceKeeps(s, FenceStep(s, e), f);
  }

  /** One process's view changes; what it opened with, if it is new, was just compared with the state. */
  lemma FenceKeeps(s: State, t: State, f: Id)
    requires Inv(s) && (t == s || (f in s.fences && f in t.fences && t == SetFence(s, f, t.fences[f])))
    requires f in s.fences && f in t.fences ==>
               t.fences[f].mode == s.fences[f].mode
               && (t.fences[f].pinned == s.fences[f].pinned
                   || (t.fences[f].pinned.Some? && Agrees(s.control, s.fences[f].mode, t.fences[f].pinned.value)))
    ensures Inv(t)
  {
    forall x | x in t.fences ensures FenceOk(t, x) { assert FenceOk(s, x); }
  }

  lemma LockKeeps(s: State, t: State, f: Id)
    requires Inv(s)
    requires t == Unlock(s, f) || t == s
             || (f !in s.fences && f in t.fences && t.fences == s.fences[f := t.fences[f]] && t.fences[f].pinned.None?
                 && t == s.(fences := t.fences, shared := t.shared, exclusive := t.exclusive)
                 && if t.fences[f].mode.ReadyMode? then t.shared == s.shared + {f} && s.exclusive.None? && t.exclusive.None?
                    else Free(s) && t.shared == {} && t.exclusive == Some(f))
    ensures Inv(t)
  {
    forall x | x in t.fences ensures FenceOk(t, x) {
      if x in s.fences { assert FenceOk(s, x); }
    }
  }

  lemma LedgerKeeps(l: Ledger, e: Event, checked: bool, recovering: bool)
    requires LedgerOk(l, recovering) && IsLedgerEvent(e)
    ensures LedgerOk(LedgerStep(l, e, checked, recovering), recovering)
  {
    if e.Commit? { CommitKeeps(l, e.mutation, recovering); }
  }

  lemma CommitKeeps(l: Ledger, m: Id, recovering: bool)
    requires LedgerOk(l, recovering)
    ensures LedgerOk(Committed(l, m, recovering), recovering)
  {
    if m in l.pending && !Exists(l, l.pending[m].change) {
      AddedKeeps(l.(pending := l.pending - {m}), l.pending[m].change, recovering);
    }
  }

  lemma AddedKeeps(l: Ledger, c: Change, recovering: bool)
    requires LedgerOk(l, recovering) && !Exists(l, c)
    ensures LedgerOk(Added(l, c).(occupied := true, straggled := if recovering then l.straggled + {c} else l.straggled), recovering)
  {
    match c
    case NewGrant(_) =>
    case NewSession(_) =>
    case NewSchedule(_) =>
    case NewWork(_, _) =>
  }

  lemma WorkKeeps(s: State, e: Event)
    requires Inv(s)
    requires !IsFenceEvent(e) && !e.Decide?
    ensures Inv(WorkStep(s, e))
  {
    var t := WorkStep(s, e);
    forall f | f in t.fences ensures FenceOk(t, f) { assert FenceOk(s, f); }
    if !e.WriteFile? { LedgerKeeps(s.ledger, e, Checked(s, e), s.control.Recovering?); }
  }

  lemma StepKeepsInv(s: State, e: Event)
    requires Inv(s)
    ensures Inv(Apply(s, e))
  {
    if e.Decide? { DecideKeeps(s, e.request, e.evidence); }
    else if IsFenceEvent(e) {
      FencesKeep(s, e);
    } else {
      WorkKeeps(s, e);
    }
  }

  lemma {:induction false} RunKeepsInv(s: State, events: seq<Event>)
    requires Inv(s)
    ensures Inv(Run(s, events))
    decreases |events|
  {
    if events != [] {
      RunKeepsInv(s, events[..|events| - 1]);
      StepKeepsInv(Run(s, events[..|events| - 1]), events[|events| - 1]);
    }
  }

  ghost predicate Reachable(s: State) {
    exists s0, events :: Initial(s0) && Leads(s0, events, s)
  }

  lemma ReachableInv(s: State)
    requires Reachable(s)
    ensures Inv(s)
  {
    var s0, events :| Initial(s0) && Leads(s0, events, s);
    LedTo(s0, events, s);
    RunKeepsInv(s0, events);
  }

  // ---- the promises

  ghost predicate Withdrawn(l: Ledger, c: Change) {
    match c
    case NewGrant(i) => i in l.grants && l.grants[i]
    case NewSession(i) => i in l.sessions && l.sessions[i]
    case NewSchedule(i) => i in l.schedules && l.schedules[i]
    case NewWork(_, _) => true
  }

  /** No authority, access session or backup schedule is in force. */
  ghost predicate NothingLive(l: Ledger) {
    AllTrue(l.grants) && AllTrue(l.sessions) && AllTrue(l.schedules)
  }

  /**
   While recovering nobody holds an opened ready fence. No authority, session or schedule is live exactly when
   everything that a straggling mutation committed since begin has been withdrawn.
   */
  lemma RecoveringIsFenced(s: State)
    requires Reachable(s) && s.control.Recovering?
    ensures forall f :: f in s.fences ==> !MayWork(s, f)
    ensures NothingLive(s.ledger) <==> forall c :: c in s.ledger.straggled ==> Withdrawn(s.ledger, c)
  {
    ReachableInv(s);
    forall f | f in s.fences ensures !MayWork(s, f) { assert FenceOk(s, f); }
    var l := s.ledger;
    forall c | c in l.straggled ensures Exists(l, c) {}
    if forall c :: c in l.straggled ==> Withdrawn(l, c) { StragglersDecide(l); }
  }

  lemma StragglersDecide(l: Ledger)
    requires LedgerOk(l, true) && forall c :: c in l.straggled ==> Withdrawn(l, c)
    ensures NothingLive(l)
  {
    forall i | i in l.grants ensures l.grants[i] { assert NewGrant(i) in l.straggled ==> Withdrawn(l, NewGrant(i)); }
    forall i | i in l.sessions ensures l.sessions[i] { assert NewSession(i) in l.straggled ==> Withdrawn(l, NewSession(i)); }
    forall i | i in l.schedules ensures l.schedules[i] { assert NewSchedule(i) in l.straggled ==> Withdrawn(l, NewSchedule(i)); }
  }

  lemma WorkMeansReady(s: State, f: Id)
    requires Inv(s) && MayWork(s, f)
    ensures s.control == Ready(s.fences[f].pinned.value) && s.exclusive.None?
  {
    assert FenceOk(s, f);
  }

  /** As long as a ready fence's session lives, the state is ready at exactly the generation it opened with. */
  lemma HeldFenceIsReady(s: State, f: Id)
    requires Reachable(s) && MayWork(s, f)
    ensures s.control == Ready(s.fences[f].pinned.value)
    ensures s.exclusive.None?
    ensures forall r, v :: DecideStep(s, r, v) == s
  {
    ReachableInv(s);
    WorkMeansReady(s, f);
  }

  /** A check of an opened ready fence passes exactly when its lock is unlost and the private file still agrees. */
  lemma CheckPassesExactly(s: State, f: Id)
    requires Reachable(s) && f in s.fences && s.fences[f].mode.ReadyMode? && s.fences[f].pinned.Some?
    requires s.fences[f].stage.FileRead?
    ensures Passes(s, f) <==>
              f in s.shared && Assertable(s.fences[f]) && s.fences[f].stage.generation == s.fences[f].pinned.value
    ensures Passes(s, f) ==> s.control == Ready(s.fences[f].pinned.value)
  {
    ReachableInv(s);
    assert FenceOk(s, f);
  }

  /** Rows stay, and what is withdrawn stays withdrawn. */
  ghost predicate OnlyWithdrawn(l: Ledger, t: Ledger) {
    && (forall i :: i in l.grants ==> i in t.grants && (l.grants[i] ==> t.grants[i]))
    && (forall i :: i in l.sessions ==> i in t.sessions && (l.sessions[i] ==> t.sessions[i]))
    && (forall i :: i in l.schedules ==> i in t.schedules && (l.schedules[i] ==> t.schedules[i]))
  }

  /** Lost locks are never regained, and authority once withdrawn stays withdrawn. */
  ghost predicate Follows(s: State, t: State) {
    && (forall f :: f in s.fences ==> f in t.fences && (Held(t, f) ==> Held(s, f)))
    && OnlyWithdrawn(s.ledger, t.ledger)
    && (forall i :: i in s.receipts ==> i in t.receipts && t.receipts[i] == s.receipts[i])
  }

  lemma DecideFollows(s: State, r: Request, v: Evidence)
    ensures Follows(s, DecideStep(s, r, v))
  {
    var t := DecideStep(s, r, v);
    assert t.fences == s.fences && t.shared == s.shared && t.exclusive == s.exclusive;
  }

  lemma ViewFollows(s: State, t: State, f: Id)
    requires t == s || (f in s.fences && f in t.fences && t == SetFence(s, f, t.fences[f]))
    ensures Follows(s, t)
  {
  }

  lemma UnlockFollows(s: State, f: Id)
    ensures Follows(s, Unlock(s, f))
  {
  }

  lemma AcquireFollows(s: State, f: Id, mode: Mode)
    ensures Follows(s, AcquireStep(s, f, mode))
  {
  }

  lemma FenceFollows(s: State, e: Event)
    requires IsFenceEvent(e)
    ensures Follows(s, FenceStep(s, e))
  {
    match e
    case Acquire(f, mode) => AcquireFollows(s, f, mode);
    case SessionDies(f) => UnlockFollows(s, f);
    case FinishClose(f) => UnlockFollows(s, f);
    case ReadFile(f) => ViewFollows(s, ReadFileStep(s, f), f);
    case Query(f) => ViewFollows(s, QueryStep(s, f), f);
    case StartCheck(f) => ViewFollows(s, FenceStep(s, e), f);
    case Notice(f) => ViewFollows(s, FenceStep(s, e), f);
    case StartClose(f) => ViewFollows(s, FenceStep(s, e), f);
  }

  lemma WorkFollows(s: State, e: Event)
    requires !IsFenceEvent(e) && !e.Decide?
    ensures Follows(s, WorkStep(s, e))
  {
    if !e.WriteFile? { LedgerOnlyWithdraws(s.ledger, e, Checked(s, e), s.control.Recovering?); }
  }

  lemma LedgerOnlyWithdraws(l: Ledger, e: Event, checked: bool, recovering: bool)
    requires IsLedgerEvent(e)
    ensures OnlyWithdrawn(l, LedgerStep(l, e, checked, recovering))
  {
    if e.Commit? { CommitOnlyWithdraws(l, e.mutation, recovering); }
  }

  lemma CommitOnlyWithdraws(l: Ledger, m: Id, recovering: bool)
    ensures OnlyWithdrawn(l, Committed(l, m, recovering))
  {
    if m in l.pending && !Exists(l, l.pending[m].change) {
      AddedOnlyWithdraws(l.(pending := l.pending - {m}), l.pending[m].change);
    }
  }

  lemma AddedOnlyWithdraws(l: Ledger, c: Change)
    requires !Exists(l, c)
    ensures OnlyWithdrawn(l, Added(l, c))
  {
    match c
    case NewGrant(_) =>
    case NewSession(_) =>
    case NewSchedule(_) =>
    case NewWork(_, _) =>
  }

  lemma StepFollows(s: State, e: Event)
    ensures Follows(s, Apply(s, e))
  {
    if e.Decide? { DecideFollows(s, e.request, e.evidence); }
    else if IsFenceEvent(e) {
      FenceFollows(s, e);
    } else {
      WorkFollows(s, e);
    }
  }

  lemma {:induction false} RunFollows(s: State, events: seq<Event>)
    ensures Follows(s, Run(s, events))
    decreases |events|
  {
    if events != [] {
      RunFollows(s, events[..|events| - 1]);
      StepFollows(Run(s, events[..|events| - 1]), events[|events| - 1]);
    }
  }

  /**
   Nothing issued before begin survives: whatever happens afterwards, resume included, its grants stay revoked,
   its sessions closed, its schedules disabled, and no fence opened before it ever passes a check or works again.
   */
  lemma NothingSurvivesBegin(s: State, r: Request, v: Evidence, events: seq<Event>)
    requires Reachable(s) && r.Begin? && Commits(s, r, v)
    ensures var t := Run(DecideStep(s, r, v), events);
            && (forall i :: i in s.ledger.grants ==> i in t.ledger.grants && t.ledger.grants[i])
            && (forall i :: i in s.ledger.sessions ==> i in t.ledger.sessions && t.ledger.sessions[i])
            && (forall i :: i in s.ledger.schedules ==> i in t.ledger.schedules && t.ledger.schedules[i])
            && (forall f :: f in s.fences ==> !Passes(t, f) && !MayWork(t, f))
  {
    RunFollows(DecideStep(s, r, v), events);
  }

  /** A saved decision replays and a different one under its id is refused: neither changes anything, ever. */
  lemma DecisionsReplay(s: State, r: Request, v: Evidence, events: seq<Event>, again: Request, w: Evidence)
    requires Commits(s, r, v) && again.id == r.id
    ensures var t := Run(DecideStep(s, r, v), events); DecideStep(t, again, w) == t && r.id in t.receipts && t.receipts[r.id] == r
  {
    RunFollows(DecideStep(s, r, v), events);
  }

  /** Fence steps change fences and locks, and nothing else. */
  predicate OnlyFencing(s: State, t: State) {
    t == s.(fences := t.fences, shared := t.shared, exclusive := t.exclusive)
  }

  lemma FencesKeepRest(s: State, e: Event)
    requires IsFenceEvent(e)
    ensures OnlyFencing(s, FenceStep(s, e))
  {
    match e
    case Acquire(f, mode) => assert OnlyFencing(s, AcquireStep(s, f, mode));
    case ReadFile(f) => assert OnlyFencing(s, ReadFileStep(s, f));
    case Query(f) => assert OnlyFencing(s, QueryStep(s, f));
    case _ =>
  }

  // ---- mutations that outlive their fence

  /** Under way when recovery began, or started since by a process that has no fence. */
  ghost predicate InFlight(s: State, events: seq<Event>, p: Pending) {
    || (exists m :: m in s.ledger.pending && s.ledger.pending[m] == p)
    || (p.under.None? && exists k :: 0 <= k < |events| && events[k].Start? && Unfenced(events[k]) && events[k].change == p.change)
  }

  predicate Unfenced(e: Event) {
    e.Start? && e.under.None?
  }

  lemma InFlightLonger(s: State, events: seq<Event>, e: Event)
    ensures forall p :: InFlight(s, events, p) ==> InFlight(s, events + [e], p)
  {
    forall p | InFlight(s, events, p) ensures InFlight(s, events + [e], p) {
      if !exists m :: m in s.ledger.pending && s.ledger.pending[m] == p {
        var k :| 0 <= k < |events| && events[k].Start? && Unfenced(events[k]) && events[k].change == p.change;
        assert (events + [e])[k] == events[k];
      }
    }
  }

  ghost predicate OnlyInFlight(s: State, events: seq<Event>, l: Ledger) {
    && (forall m :: m in l.pending ==> InFlight(s, events, l.pending[m]))
    && (forall c :: c in l.straggled ==> exists under :: InFlight(s, events, Pending(under, c)))
  }

  lemma CommitMoves(l: Ledger, m: Id, recovering: bool)
    ensures var t := Committed(l, m, recovering);
            && (forall k :: k in t.pending ==> k in l.pending && t.pending[k] == l.pending[k])
            && (forall c :: c in t.straggled ==> c in l.straggled || (m in l.pending && c == l.pending[m].change))
  {
  }

  lemma CommitInFlight(s: State, events: seq<Event>, l: Ledger, m: Id, recovering: bool)
    requires OnlyInFlight(s, events, l)
    ensures OnlyInFlight(s, events, Committed(l, m, recovering))
  {
    CommitMoves(l, m, recovering);
    if m in l.pending {
      var p := l.pending[m];
      assert p == Pending(p.under, p.change);
    }
  }

  lemma LedgerInFlight(s: State, events: seq<Event>, l: Ledger, e: Event, checked: bool, recovering: bool)
    requires OnlyInFlight(s, events, l) && IsLedgerEvent(e)
    requires e.Start? ==> InFlight(s, events, Pending(e.under, e.change)) || (e.under.Some? && !checked)
    ensures OnlyInFlight(s, events, LedgerStep(l, e, checked, recovering))
  {
    if e.Commit? { CommitInFlight(s, events, l, e.mutation, recovering); }
  }

  /** A step while recovering: what it lets commit was in flight. */
  lemma RecoveryStep(s: State, events: seq<Event>, u: State, e: Event)
    requires Inv(u) && u.control.Recovering? && OnlyInFlight(s, events, u.ledger)
    requires Apply(u, e).control.Recovering?
    ensures OnlyInFlight(s, events + [e], Apply(u, e).ledger)
  {
    InFlightLonger(s, events, e);
    assert OnlyInFlight(s, events + [e], u.ledger);
    if IsFenceEvent(e) {
      FencesKeepRest(u, e);
    } else if e.Decide? {
      DecideKeepsFlight(u, e.request, e.evidence);
    } else if !e.WriteFile? {
      if e.Start? {
        if e.under.Some? && MayWork(u, e.under.value) { WorkMeansReady(u, e.under.value); }
        assert (events + [e])[|events|] == e;
      }
      LedgerInFlight(s, events + [e], u.ledger, e, Checked(u, e), true);
    }
  }

  lemma DecideKeepsFlight(u: State, r: Request, v: Evidence)
    requires u.control.Recovering?
    ensures DecideStep(u, r, v).ledger.pending == u.ledger.pending
    ensures DecideStep(u, r, v).ledger.straggled == u.ledger.straggled
  {
  }

  /** A recovery that is under way after a step, and whose begin is on record, was under way before it. */
  lemma SameRecoveryBefore(u: State, e: Event, id: Id)
    requires id in u.receipts && Apply(u, e).control.Recovering? && Apply(u, e).control.recovery == id
    ensures u.control.Recovering? && u.control.recovery == id
  {
    if IsFenceEvent(e) { FencesKeepRest(u, e); }
  }

  /**
   Whatever commits while recovering was under way when recovery began, under a fence whose session had been
   lost without its knowledge, or comes from a process without a fence.
   */
  lemma {:induction false} StragglersWereInFlight(s: State, r: Request, v: Evidence, events: seq<Event>)
    requires Reachable(s) && r.Begin? && Commits(s, r, v)
    requires var t := Run(DecideStep(s, r, v), events); t.control.Recovering? && t.control.recovery == r.id
    ensures OnlyInFlight(s, events, Run(DecideStep(s, r, v), events).ledger)
    ensures forall m :: m in s.ledger.pending && s.ledger.pending[m].under.Some? ==> !Held(s, s.ledger.pending[m].under.value)
    decreases |events|
  {
    var s1 := DecideStep(s, r, v);
    if events == [] {
      assert s1.ledger.pending == s.ledger.pending;
    } else {
      var n := |events| - 1;
      var u := Run(s1, events[..n]);
      ReachableInv(s);
      DecideKeeps(s, r, v);
      RunKeepsInv(s1, events[..n]);
      RunFollows(s1, events[..n]);
      SameRecoveryBefore(u, events[n], r.id);
      StragglersWereInFlight(s, r, v, events[..n]);
      RecoveryStep(s, events[..n], u, events[n]);
      assert events[..n] + [events[n]] == events;
    }
  }

  /** The steps by which a mutation outlives its fence and the beginning of a recovery. */
  function LateCommit(f: Id, m: Id, grant: Id, r: Request, v: Evidence): seq<Event> {
    [Acquire(f, ReadyMode), ReadFile(f), Query(f), Start(m, Some(f), NewGrant(grant)), SessionDies(f),
     Event.Decide(r, v), Event.Commit(m)]
  }

  /**
   Such stragglers are real: from every ready database a customer admission that starts under its opened fence
   and commits after the fence's session was lost and a recovery began leaves a live grant while recovering.
   */
  lemma LateCommitSurvives(s: State, f: Id, m: Id, grant: Id, r: Request, v: Evidence)
    requires Initial(s) && s.control.Ready? && s.external == Some(s.control.generation)
    requires grant !in s.ledger.grants && r.Begin? && r.generation != s.control.generation && r.id !in s.receipts
    requires v.file == (Some(r.generation), Some(r.generation), Some(r.generation))
    ensures var t := Run(s, LateCommit(f, m, grant, r, v));
            t.control == Recovering(r.generation, r.id) && grant in t.ledger.grants && !t.ledger.grants[grant]
  {
    var s3 := QueryStep(ReadFileStep(AcquireStep(s, f, ReadyMode), f), f);
    FreshFenceOpens(s, f);
    LostFenceCommits(s3, f, m, grant, r, v);
    var opening := [Acquire(f, ReadyMode), ReadFile(f), Query(f)];
    var rest := [Start(m, Some(f), NewGrant(grant)), SessionDies(f), Event.Decide(r, v), Event.Commit(m)];
    OpeningRuns(s, f);
    LosingRuns(s3, f, m, grant, r, v);
    assert LateCommit(f, m, grant, r, v) == opening + rest;
    RunSplits(s, opening, rest);
  }

  lemma OpeningRuns(s: State, f: Id)
    ensures Run(s, [Acquire(f, ReadyMode), ReadFile(f), Query(f)])
         == QueryStep(ReadFileStep(AcquireStep(s, f, ReadyMode), f), f)
  {
    var a, b, c := Acquire(f, ReadyMode), ReadFile(f), Query(f);
    RunAppends(s, [], a);
    RunAppends(s, [a], b);
    RunAppends(s, [a, b], c);
    assert [] + [a] == [a] && [a] + [b] == [a, b] && [a, b] + [c] == [a, b, c];
  }

  lemma LosingRuns(s: State, f: Id, m: Id, grant: Id, r: Request, v: Evidence)
    ensures Run(s, [Start(m, Some(f), NewGrant(grant)), SessionDies(f), Event.Decide(r, v), Event.Commit(m)])
         == WorkStep(DecideStep(Unlock(WorkStep(s, Start(m, Some(f), NewGrant(grant))), f), r, v), Event.Commit(m))
  {
    var a, b, c, d := Start(m, Some(f), NewGrant(grant)), SessionDies(f), Event.Decide(r, v), Event.Commit(m);
    RunAppends(s, [], a);
    RunAppends(s, [a], b);
    RunAppends(s, [a, b], c);
    RunAppends(s, [a, b, c], d);
    assert [] + [a] == [a] && [a] + [b] == [a, b] && [a, b] + [c] == [a, b, c] && [a, b, c] + [d] == [a, b, c, d];
  }

  lemma RunAppends(s: State, events: seq<Event>, e: Event)
    ensures Run(s, events + [e]) == Apply(Run(s, events), e)
  {
    assert (events + [e])[..|events|] == events;
  }

  lemma {:induction false} RunSplits(s: State, first: seq<Event>, rest: seq<Event>)
    ensures Run(s, first + rest) == Run(Run(s, first), rest)
    decreases |rest|
  {
    if rest == [] {
      assert first + rest == first;
    } else {
      var n := |rest| - 1;
      RunSplits(s, first, rest[..n]);
      assert (first + rest)[..|first + rest| - 1] == first + rest[..n];
      assert (first + rest)[|first + rest| - 1] == rest[n];
    }
  }

  lemma FreshFenceOpens(s: State, f: Id)
    requires Initial(s) && s.control.Ready? && s.external == Some(s.control.generation)
    ensures QueryStep(ReadFileStep(AcquireStep(s, f, ReadyMode), f), f)
         == s.(fences := map[f := Fence(ReadyMode, s.external, Resting, false, false)], shared := {f})
  {
    var s2 := ReadFileStep(AcquireStep(s, f, ReadyMode), f);
    assert s2.fences[f] == Fence(ReadyMode, None, FileRead(s.control.generation), false, false) && Passes(s2, f);
  }

  lemma LostFenceCommits(s: State, f: Id, m: Id, grant: Id, r: Request, v: Evidence)
    requires s.control.Ready? && s.exclusive.None? && s.shared == {f} && MayWork(s, f) && s.ledger.pending == map[]
    requires grant !in s.ledger.grants && r.Begin? && r.generation != s.control.generation && r.id !in s.receipts
    requires v.file == (Some(r.generation), Some(r.generation), Some(r.generation))
    ensures var s5 := Unlock(WorkStep(s, Start(m, Some(f), NewGrant(grant))), f);
            var t := WorkStep(DecideStep(s5, r, v), Event.Commit(m));
            t.control == Recovering(r.generation, r.id) && grant in t.ledger.grants && !t.ledger.grants[grant]
  {
    var s5 := Unlock(WorkStep(s, Start(m, Some(f), NewGrant(grant))), f);
    assert Commits(s5, r, v);
    var l := DecideStep(s5, r, v).ledger;
    assert l.pending[m] == Pending(Some(f), NewGrant(grant)) && !Exists(l, NewGrant(grant));
  }

  /** The step takes the lock from under a mutation. */
  ghost predicate Strands(s: State, e: Event) {
    exists m :: m in s.ledger.pending && s.ledger.pending[m].under.Some?
                && s.ledger.pending[m].under.value in s.shared && s.ledger.pending[m].under.value !in Apply(s, e).shared
  }

  /** Every process has a generation file, and no fence is lost or closed while one of its mutations is under way. */
  ghost predicate Orderly(s: State, events: seq<Event>)
    decreases |events|
  {
    events == [] || (var n := |events| - 1;
      Orderly(s, events[..n]) && !Unfenced(events[n]) && !Strands(Run(s, events[..n]), events[n]))
  }

  ghost predicate Covered(s: State) {
    && (forall m :: m in s.ledger.pending ==> s.ledger.pending[m].under.Some? && MayWork(s, s.ledger.pending[m].under.value))
    && (s.control.Recovering? ==> s.ledger.straggled == {})
  }

  lemma {:induction false} OrderlyStaysCovered(s: State, events: seq<Event>)
    requires Inv(s) && Covered(s) && Orderly(s, events)
    ensures Covered(Run(s, events))
    decreases |events|
  {
    if events != [] {
      var n := |events| - 1;
      OrderlyStaysCovered(s, events[..n]);
      RunKeepsInv(s, events[..n]);
      OrderlyStep(Run(s, events[..n]), events[n]);
    }
  }

  lemma OrderlyStep(u: State, e: Event)
    requires Inv(u) && Covered(u) && !Unfenced(e) && !Strands(u, e)
    ensures Covered(Apply(u, e))
  {
    if u.control.Recovering? { NoneUnderWay(u); }
    if IsFenceEvent(e) { FencesKeepCover(u, e); }
    else if !e.Decide? { WorkKeepsCover(u, e); }
    else { DecideKeepsCover(u, e.request, e.evidence); }
  }

  lemma DecideKeepsCover(u: State, r: Request, v: Evidence)
    requires Covered(u)
    ensures Covered(DecideStep(u, r, v))
  {
    if Commits(u, r, v) {
      assert forall m :: m !in u.ledger.pending;
    }
  }

  lemma WorkKeepsCover(u: State, e: Event)
    requires Covered(u) && !IsFenceEvent(e) && !e.Decide? && !Unfenced(e)
    requires u.control.Recovering? ==> u.ledger.pending == map[]
    ensures Covered(WorkStep(u, e))
  {
    if e.Commit? { CommitMoves(u.ledger, e.mutation, u.control.Recovering?); }
    var t := WorkStep(u, e);
    forall m | m in t.ledger.pending ensures t.ledger.pending[m].under.Some? && MayWork(t, t.ledger.pending[m].under.value) {
      if m in u.ledger.pending { assert MayWork(u, u.ledger.pending[m].under.value); }
    }
  }

  lemma FencesKeepCover(u: State, e: Event)
    requires Covered(u) && IsFenceEvent(e) && !Strands(u, e)
    ensures Covered(FenceStep(u, e))
  {
    var t := FenceStep(u, e);
    FencesKeepRest(u, e);
    assert t == Apply(u, e);
    forall m | m in t.ledger.pending ensures t.ledger.pending[m].under.Some? && MayWork(t, t.ledger.pending[m].under.value) {
      assert MayWork(u, u.ledger.pending[m].under.value);
      OpenedStays(u, e, u.ledger.pending[m].under.value);
    }
  }

  lemma NoneUnderWay(u: State)
    requires Inv(u) && Covered(u) && u.control.Recovering?
    ensures u.ledger.pending == map[]
  {
    if m :| m in u.ledger.pending {
      WorkMeansReady(u, u.ledger.pending[m].under.value);
    }
  }

  /** The view of one fence changes; what it opened with stays. */
  predicate KeepsPinned(u: State, t: State) {
    forall f :: f in u.fences && u.fences[f].pinned.Some? ==> f in t.fences && t.fences[f].pinned.Some?
  }

  lemma QueryKeepsPinned(u: State, f: Id)
    ensures KeepsPinned(u, QueryStep(u, f))
  {
  }

  lemma ViewKeepsPinned(u: State, t: State, g: Id)
    requires t.fences == u.fences
             || (g in u.fences && g in t.fences && t.fences == u.fences[g := t.fences[g]]
                 && t.fences[g].pinned == u.fences[g].pinned)
    ensures KeepsPinned(u, t)
  {
  }

  lemma OpenedStays(u: State, e: Event, f: Id)
    requires IsFenceEvent(e) && MayWork(u, f) && f in FenceStep(u, e).shared
    ensures MayWork(FenceStep(u, e), f)
  {
    match e
    case Acquire(g, mode) => assert KeepsPinned(u, AcquireStep(u, g, mode));
    case ReadFile(g) => assert KeepsPinned(u, ReadFileStep(u, g));
    case Query(g) => QueryKeepsPinned(u, g);
    case StartCheck(g) => ViewKeepsPinned(u, FenceStep(u, e), g);
    case Notice(g) => ViewKeepsPinned(u, FenceStep(u, e), g);
    case StartClose(g) => ViewKeepsPinned(u, FenceStep(u, e), g);
    case SessionDies(g) => ViewKeepsPinned(u, FenceStep(u, e), g);
    case FinishClose(g) => ViewKeepsPinned(u, FenceStep(u, e), g);
  }

  /**
   If every process is fenced and no fence is lost under a mutation, no authority, session or schedule is live
   while recovering.
   */
  lemma OrderlyRecoveryIsFenced(s: State, events: seq<Event>)
    requires Initial(s) && (s.control.Recovering? ==> s.ledger.straggled == {}) && Orderly(s, events)
    ensures var t := Run(s, events);
            t.control.Recovering? ==> NothingLive(t.ledger) && t.ledger.pending == map[]
  {
    OrderlyStaysCovered(s, events);
    RunKeepsInv(s, events);
    var t := Run(s, events);
    if t.control.Recovering? {
      NoneUnderWay(t);
      StragglersDecide(t.ledger);
    }
  }

  // ---- resume and closure

  /**
   Resume commits only from recovering, over an inspection that found nothing with the digests that the operator
   saw. So every operation has ended, no effect is undecided and every schedule is disabled, stragglers included.
   */
  lemma ResumeNeedsInspection(s: State, e: Event)
    requires s.control.Recovering? && Apply(s, e).control.Ready?
    ensures e.Decide? && e.request.Resume? && Inspection.Clean(e.evidence.database, e.evidence.world)
    ensures e.evidence.stateDigest == e.request.expectedState && e.evidence.inventoryDigest == e.request.expectedInventory
    ensures s.control == Recovering(e.request.generation, e.request.recovery)
    ensures Apply(s, e).control.generation == s.control.generation
    ensures AllTrue(s.ledger.schedules)
    ensures forall o :: o in s.ledger.work ==> s.ledger.work[o].terminal && !HasPending(s.ledger.work[o])
  {
    if IsFenceEvent(e) { FencesKeepRest(s, e); }
    ShownWorkIsDone(s, e.evidence.database, e.evidence.world);
  }

  lemma ShownWorkIsDone(s: State, db: Inspection.Database, w: Inspection.World)
    requires Shows(s, db) && Inspection.Clean(db, w)
    ensures AllTrue(s.ledger.schedules)
    ensures forall o :: o in s.ledger.work ==> s.ledger.work[o].terminal && !HasPending(s.ledger.work[o])
  {
    forall i | i in s.ledger.schedules ensures s.ledger.schedules[i] {
      Inspection.FlaggedOk(db.schedules, Inspection.Flagged(i, s.ledger.schedules[i]));
    }
    forall o | o in s.ledger.work ensures s.ledger.work[o].terminal && !HasPending(s.ledger.work[o]) {
      Inspection.FlaggedOk(db.operations, Inspection.Flagged(o, s.ledger.work[o].terminal));
    }
  }

  /** The inspection does not read grants and sessions: after a resume, what straggled and was not withdrawn is in force. */
  lemma ResumeAdmitsStragglers(s: State, r: Request, v: Evidence)
    requires Reachable(s) && r.Resume? && Commits(s, r, v)
    ensures var t := DecideStep(s, r, v);
            && (NothingLive(t.ledger) <==> forall c :: c in s.ledger.straggled ==> Withdrawn(s.ledger, c))
            && AllTrue(t.ledger.schedules)
            && (forall i :: i in t.ledger.grants && !t.ledger.grants[i] ==> NewGrant(i) in s.ledger.straggled)
            && (forall i :: i in t.ledger.sessions && !t.ledger.sessions[i] ==> NewSession(i) in s.ledger.straggled)
  {
    ReachableInv(s);
    RecoveringIsFenced(s);
    ShownWorkIsDone(s, v.database, v.world);
  }

  /**
   What the tables and the provider's inventory look like when the control plane resumes: allocated machines and
   unretired allocations correspond one to one, and so do live ledger rows and the managed inventory.
   */
  lemma ResumeFindsAgreement(s: State, e: Event)
    requires s.control.Recovering? && Apply(s, e).control.Ready?
    requires e.Decide? && Inspection.Keyed(e.evidence.database) && Inspection.CompleteSearch(e.evidence.world)
    requires forall r :: r in e.evidence.database.resources ==> Inspection.Managed(r.labels)
    ensures Inspection.OneToOne(e.evidence.database)
    ensures forall j :: 0 <= j < |e.evidence.database.allocations| && !e.evidence.database.allocations[j].retired ==>
              Inspection.HasBond(e.evidence.database, j)
    ensures forall kind :: Inspection.RowsAreFoundOnce(e.evidence.database, e.evidence.world, kind)
  {
    ResumeNeedsInspection(s, e);
    Inspection.MachinesMatchAllocations(e.evidence.database, e.evidence.world);
    forall kind ensures Inspection.RowsAreFoundOnce(e.evidence.database, e.evidence.world, kind) {
      Inspection.LedgerMatchesInventory(e.evidence.database, e.evidence.world, kind);
    }
  }

  /**
   A closure settles everything it touches, and only on evidence: every retained row, the server and every
   effect's resource was acknowledged and found absent by its exact id.
   */
  lemma ClosureIsEvidenced(s: State, r: Request, v: Evidence)
    requires r.CloseOperation? && Commits(s, r, v)
    ensures var w := DecideStep(s, r, v).ledger.work[r.operation];
            && w.terminal && !w.live && w.destroyed && !HasPending(w)
            && w.rows.Keys == s.ledger.work[r.operation].rows.Keys && (forall x :: x in w.rows ==> w.rows[x])
            && |w.history| == |s.ledger.work[r.operation].history|
    ensures forall x :: x in Required(s.ledger.work[r.operation]) ==> x in r.resources && x !in v.present
    ensures forall o :: o in s.ledger.work && o != r.operation ==> DecideStep(s, r, v).ledger.work[o] == s.ledger.work[o]
  {
  }
}
