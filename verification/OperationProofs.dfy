/** Every write keeps the invariants of the journal, and what follows for every reachable state. */
module OperationProofs {
  import opened Prelude
  import opened Journal
  import opened OperationMachine

  /** Rows stay with their owner and their labels. */
  ghost predicate RowsStay(a: Ledger, b: Ledger) {
    forall r {:trigger a[r]} {:trigger b[r]} :: r in a ==> r in b && b[r].allocation == a[r].allocation && b[r].labels == a[r].labels
  }

  ghost predicate SameServers(a: Ledger, b: Ledger, allocation: Id) {
    forall r {:trigger b[r]} :: r in b && r.kind.ServerKind? && b[r].allocation == allocation ==> r in a && a[r].allocation == allocation
  }

  lemma AttemptsStay(s: State, l: Ledger)
    requires Inv(s) && RowsStay(s.ledger, l)
    ensures Attempts(s.attempts, s.operations, l, s.allocation) && ConfirmedAll(s.attempts, s.operations, l)
  {
    forall i | 0 <= i < |s.attempts|
      ensures AttemptOk(s.attempts[i], s.operations, l, s.allocation) && ConfirmedOk(s.attempts[i], s.operations, l)
    {
      var a := s.attempts[i];
      assert AttemptOk(a, s.operations, s.ledger, s.allocation) && ConfirmedOk(a, s.operations, s.ledger);
      assert Expected(l, a.command) == Expected(s.ledger, a.command);
    }
  }

  lemma ServersStay(s: State, l: Ledger)
    requires Inv(s) && SameServers(s.ledger, l, s.allocation)
    ensures CreatesOk(s.attempts, s.operations, l, s.allocation, s.retired)
  {
    forall i | 0 <= i < |s.attempts| ensures CreateOk(s.attempts[i], s.operations, l, s.allocation, s.retired) {
      assert CreateOk(s.attempts[i], s.operations, s.ledger, s.allocation, s.retired);
    }
  }

  lemma TombstoneKeeps(s: State, ref: Ref)
    requires Inv(s)
    ensures Inv(s.(ledger := Tombstoned(s.ledger, ref, s.allocation, s.account)))
  {
    var l := Tombstoned(s.ledger, ref, s.allocation, s.account);
    AttemptsStay(s, l);
    ServersStay(s, l);
  }

  /** Rows may be added under a create's label: of IPs, or of a server that some create may have made. */
  lemma LedgerKeeps(s: State, l: Ledger)
    requires Inv(s) && !s.retired && s.flight.Grounded?
    requires forall r :: r in s.ledger ==> r in l && l[r] == s.ledger[r]
    requires forall r :: r in l && r !in s.ledger && l[r].allocation == s.allocation ==> CreateLabelled(l[r].labels, s.operations)
    requires CreatesOk(s.attempts, s.operations, l, s.allocation, s.retired)
    requires SameServers(s.ledger, l, s.allocation) || exists i :: 0 <= i < |s.attempts| && MayHaveCreated(s.attempts[i])
    ensures Inv(s.(ledger := l))
  {
    AttemptsStay(s, l);
  }

  lemma ForeignKeeps(s: State, ref: Ref, row: Row)
    requires Inv(s)
    ensures Inv(Apply(s, ForeignClaim(ref, row)))
  {
    if ref !in s.ledger && row.allocation != s.allocation { ForeignRowKeeps(s, s.ledger[ref := row]); }
  }

  lemma ForeignRowKeeps(s: State, l: Ledger)
    requires Inv(s) && forall r :: r in s.ledger ==> r in l && l[r] == s.ledger[r]
    requires forall r :: r in l && r !in s.ledger ==> l[r].allocation != s.allocation
    ensures Inv(s.(ledger := l))
  {
    AttemptsStay(s, l);
    ServersStay(s, l);
  }

  /** Changing one operation, with its attempts as they are. */
  predicate OperationMoves(a: Operation, b: Operation) {
    && b.lifecycle == a.lifecycle
    && (IsCleanup(a) ==> b.intent == a.intent)
    && (b.intent.Provision? ==> a.intent.Provision?)
    && (IsActive(b) ==> IsActive(a))
  }

  /** What changing operations may not undo: attempts' owners, cleanups admitted, labels' creates. */
  ghost predicate OperationsStay(a: map<Id, Operation>, b: map<Id, Operation>) {
    forall x {:trigger a[x]} {:trigger b[x]} :: x in a ==>
      && x in b && b[x].lifecycle == a[x].lifecycle
      && (IsCleanup(a[x]) ==> b[x].intent == a[x].intent) && (b[x].intent.Provision? ==> a[x].intent.Provision?)
  }

  lemma AttemptsKept(s: State, m: map<Id, Operation>)
    requires Inv(s) && OperationsStay(s.operations, m)
    ensures Attempts(s.attempts, m, s.ledger, s.allocation) && ConfirmedAll(s.attempts, m, s.ledger)
    ensures RowsLabelled(s.ledger, m, s.allocation)
  {
    forall i | 0 <= i < |s.attempts|
      ensures AttemptOk(s.attempts[i], m, s.ledger, s.allocation) && ConfirmedOk(s.attempts[i], m, s.ledger)
    {
      var a := s.attempts[i];
      assert AttemptOk(a, s.operations, s.ledger, s.allocation) && ConfirmedOk(a, s.operations, s.ledger);
      CleanupStays(s.operations, m, a.operation);
    }
  }

  lemma CleanupStays(a: map<Id, Operation>, b: map<Id, Operation>, operation: Id)
    requires OperationsStay(a, b)
    ensures UnderCleanup(a, operation) ==> UnderCleanup(b, operation)
  {
    if UnderCleanup(a, operation) {
      var id :| id in a && IsCleanup(a[id]) && (operation == id || operation == a[id].intent.source);
      assert id in b && IsCleanup(b[id]);
    }
  }

  /** A closed create's cleanup is at work until the allocation is given back. */
  lemma CreatesKept(s: State, m: map<Id, Operation>, retired: bool)
    requires Inv(s) && (BeingCleaned(s.operations) ==> retired || BeingCleaned(m)) && (s.retired ==> retired)
    ensures CreatesOk(s.attempts, m, s.ledger, s.allocation, retired)
  {
    forall i | 0 <= i < |s.attempts| ensures CreateOk(s.attempts[i], m, s.ledger, s.allocation, retired) {
      assert CreateOk(s.attempts[i], s.operations, s.ledger, s.allocation, s.retired);
    }
  }

  lemma OperationKeeps(s: State, id: Id, b: Operation, retired: bool)
    requires Inv(s) && id in s.operations && OperationMoves(s.operations[id], b)
    requires !IsActive(b) ==> Quiet(s.attempts, id)
    requires b.progress.Succeeded? && !b.intent.Cleanup? && !b.lifecycle.LDestroy? ==> Fulfilled(s.attempts, id, b.lifecycle)
    requires b.intent.Compensate? ==> b.lifecycle.LCreate? && NoPossibleVm(s.attempts, id)
    requires b.intent.Cleanup? ==> b.intent.source in s.operations && s.operations[b.intent.source].lifecycle.LCreate?
    requires IsActive(s.operations[id]) && IsCleanup(s.operations[id]) && !IsActive(b) ==> retired
    requires (s.retired ==> retired) && (retired ==> NothingLive(s.ledger, s.allocation) && s.flight.Grounded?)
    ensures Inv(SetOperation(s, id, b).(retired := retired))
  {
    var m := s.operations[id := b];
    forall x | x in m ensures OperationOk(x, m, s.attempts) {
      assert OperationOk(x, s.operations, s.attempts) && OperationOk(id, s.operations, s.attempts);
    }
    AttemptsKept(s, m);
    if BeingCleaned(s.operations) && !retired {
      var x :| x in s.operations && IsActive(s.operations[x]) && IsCleanup(s.operations[x]);
      assert x in m && IsActive(m[x]) && IsCleanup(m[x]);
    }
    CreatesKept(s, m, retired);
    var c :| c in s.operations && s.operations[c].lifecycle.LCreate?;
    assert m[c].lifecycle.LCreate?;
  }

  lemma NewOperationKeeps(s: State, id: Id, o: Operation)
    requires Inv(s) && id !in s.operations && NoneActive(s) && IsActive(o) && !o.intent.Compensate?
    requires o.lifecycle.LCreate? <==> s.operations == map[]
    requires o.intent.Cleanup? ==> o.intent.source in s.operations && s.operations[o.intent.source].lifecycle.LCreate?
    ensures Inv(SetOperation(s, id, o))
  {
    var m := s.operations[id := o];
    forall x | x in m ensures OperationOk(x, m, s.attempts) {
      if x != id { assert OperationOk(x, s.operations, s.attempts); }
    }
    AttemptsKept(s, m);
    CreatesKept(s, m, s.retired);
    if s.operations == map[] { assert m[id].lifecycle.LCreate?; }
    else {
      var c :| c in s.operations && s.operations[c].lifecycle.LCreate?;
      assert m[c].lifecycle.LCreate?;
    }
  }

  /** All creates of a machine belong to its one create operation. */
  lemma CreatesBelongTo(s: State, id: Id)
    requires Inv(s) && id in s.operations && s.operations[id].lifecycle.LCreate?
    ensures forall i :: 0 <= i < |s.attempts| && Creates(s.attempts[i].command) ==> s.attempts[i].operation == id
  {
    assert OperationOk(id, s.operations, s.attempts);
    forall i | 0 <= i < |s.attempts| && Creates(s.attempts[i].command) ensures s.attempts[i].operation == id {
      assert AttemptOk(s.attempts[i], s.operations, s.ledger, s.allocation);
    }
  }

  lemma UntriedCreateHasNoServer(s: State, id: Id, c: Command)
    requires Inv(s) && id in s.operations && s.operations[id].lifecycle.LCreate? && c.Create?
    requires Untried(s.attempts, id, c)
    ensures NoServers(s.ledger, s.allocation)
  {
    CreatesBelongTo(s, id);
    forall i | 0 <= i < |s.attempts| ensures !MayHaveCreated(s.attempts[i]) {
      assert !(s.attempts[i].operation == id && Signature(s.attempts[i].command) == Signature(c));
    }
  }

  lemma InsertedIsOk(s: State, id: Id, c: Command, admitted: bool)
    requires MayInsert(s, id, c, admitted)
    ensures var m := s.operations[id := s.operations[id].(progress := Active(Submitting))];
            AttemptOk(Attempt(id, CountOf(s.attempts, id) + 1, c, Prepared, Unresolved, admitted), m, s.ledger, s.allocation)
  {
  }

  /** What an insertion demands, as the attempt it adds shows it. */
  lemma InsertedFits(s: State, id: Id, c: Command, admitted: bool)
    requires MayInsert(s, id, c, admitted)
    ensures id in s.operations && IsActive(s.operations[id]) && !s.retired && s.flight.Grounded?
    ensures !admitted ==> Quiet(s.attempts, id) && Untried(s.attempts, id, c)
    ensures s.operations[id].intent.Compensate? ==> !c.Create?
    ensures c.Create? ==> !admitted && s.operations[id].lifecycle.LCreate?
  {
  }

  predicate IsInserted(s: State, t: State, id: Id, a: Attempt)
    requires id in s.operations
  {
    t == s.(operations := s.operations[id := s.operations[id].(progress := Active(Submitting))],
            attempts := s.attempts + [a], flight := Inserted(|s.attempts|))
  }

  lemma InsertMakes(s: State, id: Id, c: Command, admitted: bool)
    requires MayInsert(s, id, c, admitted)
    ensures IsInserted(s, InsertStep(s, id, c, admitted), id, Attempt(id, CountOf(s.attempts, id) + 1, c, Prepared, Unresolved, admitted))
  {
  }

  lemma SubmittingKeeps(s: State, id: Id)
    requires Inv(s) && id in s.operations && IsActive(s.operations[id]) && !s.retired
    ensures Inv(SetOperation(s, id, s.operations[id].(progress := Active(Submitting))))
  {
    assert OperationOk(id, s.operations, s.attempts);
    OperationKeeps(s, id, s.operations[id].(progress := Active(Submitting)), false);
  }

  lemma SubmittedKeeps(s: State, t: State, id: Id, a: Attempt)
    requires Inv(s) && id in s.operations && IsActive(s.operations[id]) && !s.retired && s.flight.Grounded?
    requires a.operation == id && a.sequence == CountOf(s.attempts, id) + 1 && a.outcome.Prepared? && a.resolution.Unresolved?
    requires AttemptOk(a, s.operations[id := s.operations[id].(progress := Active(Submitting))], s.ledger, s.allocation)
    requires !a.admitted ==> Quiet(s.attempts, id) && Untried(s.attempts, id, a.command)
    requires s.operations[id].intent.Compensate? ==> !a.command.Create?
    requires a.command.Create? ==> !a.admitted && s.operations[id].lifecycle.LCreate?
    requires IsInserted(s, t, id, a)
    ensures Inv(t)
  {
    SubmittingKeeps(s, id);
    if a.command.Create? { UntriedCreateHasNoServer(s, id, a.command); }
    AppendKeeps(SetOperation(s, id, s.operations[id].(progress := Active(Submitting))), a);
  }

  lemma InsertKeeps(s: State, id: Id, c: Command, admitted: bool)
    requires Inv(s)
    ensures Inv(InsertStep(s, id, c, admitted))
  {
    if MayInsert(s, id, c, admitted) {
      var a := Attempt(id, CountOf(s.attempts, id) + 1, c, Prepared, Unresolved, admitted);
      InsertedFits(s, id, c, admitted);
      InsertedIsOk(s, id, c, admitted);
      InsertMakes(s, id, c, admitted);
      SubmittedKeeps(s, InsertStep(s, id, c, admitted), id, a);
    }
  }

  lemma AppendKeeps(s: State, a: Attempt)
    requires Inv(s) && a.operation in s.operations && IsActive(s.operations[a.operation]) && !s.retired && s.flight.Grounded?
    requires a.sequence == CountOf(s.attempts, a.operation) + 1 && a.outcome.Prepared? && a.resolution.Unresolved?
    requires AttemptOk(a, s.operations, s.ledger, s.allocation)
    requires !a.admitted ==> Quiet(s.attempts, a.operation) && Untried(s.attempts, a.operation, a.command)
    requires s.operations[a.operation].intent.Compensate? ==> !a.command.Create?
    requires a.command.Create? ==> NoServers(s.ledger, s.allocation)
    ensures Inv(s.(attempts := s.attempts + [a], flight := Inserted(|s.attempts|)))
  {
    var n := |s.attempts|;
    var m := s.attempts + [a];
    AppendKeepsRanks(s, a);
    AppendKeepsPairs(s, a);
    AppendKeepsEach(s, a);
    AppendKeepsOperations(s, a);
    if !NoServers(s.ledger, s.allocation) {
      var i :| 0 <= i < n && MayHaveCreated(s.attempts[i]);
      assert MayHaveCreated(m[i]);
    }
  }

  lemma AppendKeepsEach(s: State, a: Attempt)
    requires Inv(s) && AttemptOk(a, s.operations, s.ledger, s.allocation) && a.outcome.Prepared? && a.resolution.Unresolved?
    ensures var m := s.attempts + [a];
            && Attempts(m, s.operations, s.ledger, s.allocation) && ConfirmedAll(m, s.operations, s.ledger)
            && CreatesOk(m, s.operations, s.ledger, s.allocation, s.retired)
  {
    var m := s.attempts + [a];
    forall i | 0 <= i < |m|
      ensures AttemptOk(m[i], s.operations, s.ledger, s.allocation) && ConfirmedOk(m[i], s.operations, s.ledger)
              && CreateOk(m[i], s.operations, s.ledger, s.allocation, s.retired)
    {
      if i < |s.attempts| {
        assert AttemptOk(s.attempts[i], s.operations, s.ledger, s.allocation) && ConfirmedOk(s.attempts[i], s.operations, s.ledger)
               && CreateOk(s.attempts[i], s.operations, s.ledger, s.allocation, s.retired);
      }
    }
  }

  lemma AppendKeepsOperations(s: State, a: Attempt)
    requires Operations(s.operations, s.attempts) && a.operation in s.operations && IsActive(s.operations[a.operation])
    requires s.operations[a.operation].intent.Compensate? ==> !a.command.Create?
    ensures Operations(s.operations, s.attempts + [a])
  {
    forall id | id in s.operations ensures OperationOk(id, s.operations, s.attempts + [a]) {
      assert OperationOk(id, s.operations, s.attempts);
      FulfilledStays(s.attempts, s.attempts + [a], id, s.operations[id].lifecycle);
    }
  }

  lemma FulfilledStays(a: seq<Attempt>, b: seq<Attempt>, id: Id, l: Lifecycle)
    requires |a| <= |b| && forall i :: 0 <= i < |a| ==>
               b[i].operation == a[i].operation && b[i].command == a[i].command
               && (!a[i].resolution.Unresolved? ==> b[i].resolution == a[i].resolution)
    ensures Fulfilled(a, id, l) ==> Fulfilled(b, id, l)
  {
    if Fulfilled(a, id, l) {
      var i :| 0 <= i < |a| && a[i].operation == id && Fulfils(l, a[i]);
      assert b[i].operation == id && Fulfils(l, b[i]);
    }
  }

  lemma AppendKeepsRanks(s: State, a: Attempt)
    requires GapFree(s.attempts) && a.sequence == CountOf(s.attempts, a.operation) + 1
    ensures GapFree(s.attempts + [a])
  {
    var m := s.attempts + [a];
    forall i | 0 <= i < |m| ensures m[i].sequence == CountOf(m[..i], m[i].operation) + 1 {
      if i < |s.attempts| { assert m[..i] == s.attempts[..i]; } else { assert m[..i] == s.attempts; }
    }
  }

  lemma AppendKeepsPairs(s: State, a: Attempt)
    requires Pairs(s.attempts)
    requires !a.admitted ==> Quiet(s.attempts, a.operation) && Untried(s.attempts, a.operation, a.command)
    ensures Pairs(s.attempts + [a])
  {
    var n, m := |s.attempts|, s.attempts + [a];
    forall i, j | 0 <= i < j < |m| ensures PairOk(m[i], m[j]) {
      if j < n { assert PairOk(s.attempts[i], s.attempts[j]); }
      else { assert !a.admitted && m[i].operation == a.operation ==> !PendingIn(s.attempts[i], a.operation); }
    }
  }

  /** Rewriting an attempt's outcome or resolution once. */
  predicate AttemptMoves(a: Attempt, b: Attempt) {
    && b == a.(outcome := b.outcome, resolution := b.resolution)
    && (!a.resolution.Unresolved? ==> b.resolution == a.resolution)
    && (a.outcome == b.outcome || a.outcome.Prepared?)
  }

  lemma {:induction false} CountKept(a: seq<Attempt>, k: nat, b: Attempt, operation: Id)
    requires k < |a| && b.operation == a[k].operation
    ensures CountOf(a[k := b], operation) == CountOf(a, operation)
    decreases |a|
  {
    var n := |a| - 1;
    if k < n {
      CountKept(a[..n], k, b, operation);
      assert a[k := b][..n] == a[..n][k := b];
    } else {
      assert a[k := b][..n] == a[..n];
    }
  }

  lemma RewriteKeepsEach(s: State, k: nat, b: Attempt)
    requires Inv(s) && k < |s.attempts| && AttemptMoves(s.attempts[k], b)
    requires ConfirmedOk(b, s.operations, s.ledger) && CreateOk(b, s.operations, s.ledger, s.allocation, s.retired)
    ensures var m := s.attempts[k := b];
            && Attempts(m, s.operations, s.ledger, s.allocation) && ConfirmedAll(m, s.operations, s.ledger)
            && CreatesOk(m, s.operations, s.ledger, s.allocation, s.retired)
  {
    var m := s.attempts[k := b];
    forall i | 0 <= i < |m|
      ensures AttemptOk(m[i], s.operations, s.ledger, s.allocation) && ConfirmedOk(m[i], s.operations, s.ledger)
              && CreateOk(m[i], s.operations, s.ledger, s.allocation, s.retired)
    {
      assert AttemptOk(s.attempts[i], s.operations, s.ledger, s.allocation) && ConfirmedOk(s.attempts[i], s.operations, s.ledger)
             && CreateOk(s.attempts[i], s.operations, s.ledger, s.allocation, s.retired);
    }
  }

  lemma RewriteKeeps(s: State, k: nat, b: Attempt, flight: Flight)
    requires Inv(s) && k < |s.attempts| && AttemptMoves(s.attempts[k], b) && flight.Grounded?
    requires !b.outcome.Prepared? ==> k in s.sent
    requires b.outcome.Rejected? && !s.attempts[k].outcome.Rejected? && b.command.Create? ==> NoServers(s.ledger, s.allocation)
    requires ConfirmedOk(b, s.operations, s.ledger) && CreateOk(b, s.operations, s.ledger, s.allocation, s.retired)
    ensures Inv(s.(attempts := s.attempts[k := b], flight := flight))
  {
    var m := s.attempts[k := b];
    RewriteKeepsRanks(s.attempts, k, b);
    RewriteKeepsEach(s, k, b);
    RewriteKeepsOperations(s, k, b);
    if !NoServers(s.ledger, s.allocation) {
      var i :| 0 <= i < |s.attempts| && MayHaveCreated(s.attempts[i]);
      assert MayHaveCreated(m[i]);
    }
  }

  lemma RewriteKeepsRanks(attempts: seq<Attempt>, k: nat, b: Attempt)
    requires GapFree(attempts) && Pairs(attempts) && k < |attempts| && AttemptMoves(attempts[k], b)
    ensures GapFree(attempts[k := b]) && Pairs(attempts[k := b])
  {
    var m := attempts[k := b];
    forall i | 0 <= i < |m| ensures m[i].sequence == CountOf(m[..i], m[i].operation) + 1 {
      if k < i { assert m[..i] == attempts[..i][k := b]; CountKept(attempts[..i], k, b, m[i].operation); }
      else { assert m[..i] == attempts[..i]; }
    }
    forall i, j | 0 <= i < j < |m| ensures PairOk(m[i], m[j]) { assert PairOk(attempts[i], attempts[j]); }
  }

  lemma RewriteKeepsOperations(s: State, k: nat, b: Attempt)
    requires Operations(s.operations, s.attempts) && k < |s.attempts| && AttemptMoves(s.attempts[k], b)
    ensures Operations(s.operations, s.attempts[k := b])
  {
    var m := s.attempts[k := b];
    forall id | id in s.operations ensures OperationOk(id, s.operations, m) {
      assert OperationOk(id, s.operations, s.attempts);
      FulfilledStays(s.attempts, m, id, s.operations[id].lifecycle);
      if Quiet(s.attempts, id) {
        forall i | 0 <= i < |m| ensures !PendingIn(m[i], id) { assert !PendingIn(s.attempts[i], id); }
      }
      if NoPossibleVm(s.attempts, id) {
        forall i | 0 <= i < |m| ensures !(m[i].operation == id && MayHaveCreated(m[i])) {
          assert !(s.attempts[i].operation == id && MayHaveCreated(s.attempts[i]));
        }
      }
    }
  }

  lemma LandKeeps(s: State)
    requires Inv(s)
    ensures Inv(s.(flight := Grounded))
  {
  }

  lemma SendKeeps(s: State)
    requires Inv(s)
    ensures Inv(Apply(s, Send))
  {
    if s.flight.Inserted? {
      var sent := s.sent + [s.flight.index];
      assert SentOnce(sent, Sent(s.flight.index), s.attempts);
    }
  }

  lemma RecordKeeps(s: State, o: Outcome)
    requires Inv(s)
    ensures Inv(RecordStep(s, o))
  {
    if RecordStep(s, o) != s {
      var k := s.flight.index;
      RewriteKeeps(s, k, s.attempts[k].(outcome := o), Grounded);
    }
  }

  /** A machine has one server create at most. */
  lemma CreateIsUnique(s: State, i: nat, j: nat)
    requires Inv(s) && i < |s.attempts| && j < |s.attempts|
    requires s.attempts[i].command.Create? && s.attempts[j].command.Create?
    ensures i == j
  {
    var a, b := s.attempts[i], s.attempts[j];
    assert AttemptOk(a, s.operations, s.ledger, s.allocation) && AttemptOk(b, s.operations, s.ledger, s.allocation);
    assert OperationOk(a.operation, s.operations, s.attempts) && OperationOk(b.operation, s.operations, s.attempts);
    assert i < j ==> PairOk(a, b);
    assert j < i ==> PairOk(b, a);
  }

  /** Adding a row under a create's label keeps the creates' own condition if the create's own is kept. */
  lemma ClaimKeepsCreates(s: State, i: nat, l: Ledger)
    requires Inv(s) && i < |s.attempts| && Creates(s.attempts[i].command)
    requires forall r :: r in s.ledger ==> r in l && l[r] == s.ledger[r]
    requires forall r :: r in l && r !in s.ledger ==> r.kind == KindOf(s.attempts[i].command)
    requires CreateOk(s.attempts[i], s.operations, l, s.allocation, s.retired)
    ensures CreatesOk(s.attempts, s.operations, l, s.allocation, s.retired)
  {
    if s.attempts[i].command.Create? {
      forall j | 0 <= j < |s.attempts| ensures CreateOk(s.attempts[j], s.operations, l, s.allocation, s.retired) {
        if s.attempts[j].command.Create? { CreateIsUnique(s, i, j); }
      }
    } else {
      ServersStay(s, l);
    }
  }

  lemma ClaimKeeps(s: State, i: nat, ref: Ref)
    requires Inv(s) && i < |s.attempts| && !s.retired && s.flight.Grounded?
    requires Creates(s.attempts[i].command) && ref.kind == KindOf(s.attempts[i].command) && !s.attempts[i].outcome.Rejected?
    requires s.attempts[i].command.Create? ==> OnlyServer(s.ledger, s.allocation, ref)
    requires Certain(s.attempts[i].outcome) ==> s.attempts[i].outcome.resource == ref
    requires Uncertain(s.attempts[i].outcome) && s.attempts[i].resolution.ResolvedOk? ==>
               Subject(s.attempts[i].resolution.observation) == ref
    ensures Inv(Claim(s, ref, s.attempts[i].command.labels))
  {
    var a := s.attempts[i];
    assert AttemptOk(a, s.operations, s.ledger, s.allocation);
    assert CreateOk(a, s.operations, s.ledger, s.allocation, s.retired);
    var l := Claim(s, ref, a.command.labels).ledger;
    assert CreateOk(a, s.operations, l, s.allocation, s.retired);
    ClaimKeepsCreates(s, i, l);
    if a.command.Create? { assert MayHaveCreated(a); }
    LedgerKeeps(s, l);
  }

  lemma FailedKeeps(s: State, i: nat, r: Resolution)
    requires Inv(s) && i < |s.attempts| && s.flight.Grounded? && s.attempts[i].resolution.Unresolved? && r.ResolvedFailed?
    ensures Inv(FailedStep(s, i, r))
  {
    var a := s.attempts[i];
    if a.outcome.Rejected? || a.outcome.Accepted? {
      assert CreateOk(a, s.operations, s.ledger, s.allocation, s.retired);
      assert CreateOk(a.(resolution := r), s.operations, s.ledger, s.allocation, s.retired);
      RewriteKeeps(s, i, a.(resolution := r), Grounded);
    }
  }

  lemma ConfirmedKeeps(s: State, i: nat, o: Observation)
    requires Inv(s) && i < |s.attempts| && !s.retired && s.flight.Grounded? && s.attempts[i].resolution.Unresolved?
    ensures Inv(ConfirmedStep(s, i, o))
  {
    if ConfirmedStep(s, i, o) != s {
      var a := s.attempts[i];
      var b := a.(resolution := ResolvedOk(o));
      RecoveringIsUnderCleanup(s, a);
      assert Confirmable(b, o, Expected(s.ledger, a.command), UnderCleanup(s.operations, a.operation));
      if a.command.Create? && !o.Absent? { ConfirmedIsOnly(s, i, o); }
      assert CreateOk(a, s.operations, s.ledger, s.allocation, s.retired);
      assert CreateOk(b, s.operations, s.ledger, s.allocation, s.retired);
      RewriteKeeps(s, i, b, Grounded);
      var t := SetAttempt(s, i, b);
      assert t == s.(attempts := s.attempts[i := b], flight := Grounded);
      if o.Absent? {
        TombstoneKeeps(t, o.resource);
      } else if Creates(a.command) {
        ClaimKeeps(t, i, Subject(o));
      } else {
        assert AttemptOk(a, s.operations, s.ledger, s.allocation);
        assert ConfirmedStep(s, i, o) == t;
      }
    }
  }

  lemma RecoveringIsUnderCleanup(s: State, a: Attempt)
    ensures Recovering(s, a) ==> UnderCleanup(s.operations, a.operation)
  {
  }

  /** The resource that confirms a server create is the allocation's only one. */
  lemma ConfirmedIsOnly(s: State, i: nat, o: Observation)
    requires Inv(s) && i < |s.attempts| && s.attempts[i].command.Create? && !o.Absent?
    requires Confirmable(s.attempts[i], o, Expected(s.ledger, s.attempts[i].command), Recovering(s, s.attempts[i]))
    requires SoleMatch(s.ledger, s.allocation, s.attempts[i], Subject(o))
    ensures OnlyServer(s.ledger, s.allocation, Subject(o))
  {
    var a := s.attempts[i];
    assert CreateOk(a, s.operations, s.ledger, s.allocation, s.retired);
    assert AttemptOk(a, s.operations, s.ledger, s.allocation);
    assert OperationOk(a.operation, s.operations, s.attempts);
    if Uncertain(a.outcome) {
      forall r | r in s.ledger && r.kind.ServerKind? && s.ledger[r].allocation == s.allocation ensures r == Subject(o) {
        assert CreateLabelled(s.ledger[r].labels, s.operations);
        assert IsDiscovered(s.ledger[r], r, ServerKind, s.allocation, a.operation);
      }
    }
  }

  lemma ResolveKeeps(s: State, i: nat, r: Resolution)
    requires Inv(s)
    ensures Inv(ResolveStep(s, i, r))
  {
    if ResolveStep(s, i, r) != s {
      if r.ResolvedFailed? { FailedKeeps(s, i, r); }
      else { ConfirmedKeeps(s, i, r.observation); }
    }
  }

  lemma CloseKeeps(s: State, i: nat, cleanup: Id)
    requires Inv(s)
    ensures Inv(CloseStep(s, i, cleanup))
  {
    if MayClose(s, i, cleanup) {
      var b := s.attempts[i].(resolution := OperatorClosed);
      assert CreateOk(b, s.operations, s.ledger, s.allocation, s.retired);
      RewriteKeeps(s, i, b, Grounded);
    }
  }

  lemma ClaimCreatedKeeps(s: State, i: nat)
    requires Inv(s)
    ensures Inv(ClaimCreatedStep(s, i))
  {
    if ClaimCreatedStep(s, i) != s {
      assert CreateOk(s.attempts[i], s.operations, s.ledger, s.allocation, s.retired);
      ClaimKeeps(s, i, s.attempts[i].outcome.resource);
    }
  }

  lemma DiscoverKeeps(s: State, i: nat, found: seq<Found>)
    requires Inv(s)
    ensures Inv(DiscoverStep(s, i, found))
  {
    if DiscoverStep(s, i, found) != s {
      var a := s.attempts[i];
      var l := DiscoverStep(s, i, found).ledger;
      ClaimAllKeeps(s.ledger, found, a.command, s.allocation, s.account);
      assert AttemptOk(a, s.operations, s.ledger, s.allocation);
      assert CreateOk(a, s.operations, l, s.allocation, s.retired);
      ClaimKeepsCreates(s, i, l);
      if a.command.Create? { assert MayHaveCreated(a); }
      LedgerKeeps(s, l);
    }
  }

  /** A failed create whose VM is impossible leaves nothing live once its IPs are gone. */
  lemma FailedCreateOwnsNothing(s: State, id: Id)
    requires Inv(s) && id in s.operations && s.operations[id].lifecycle.LCreate? && NoPossibleVm(s.attempts, id)
    ensures NoServers(s.ledger, s.allocation)
  {
    CreatesBelongTo(s, id);
    forall i | 0 <= i < |s.attempts| ensures !MayHaveCreated(s.attempts[i]) {}
  }

  lemma FailKeeps(s: State, id: Id, error: Id, retire: bool)
    requires Inv(s)
    ensures Inv(FailStep(s, id, error, retire))
  {
    if FailStep(s, id, error, retire) != s && MayEnd(s, id) {
      assert OperationOk(id, s.operations, s.attempts);
      if retire { FailedCreateOwnsNothing(s, id); }
      OperationKeeps(s, id, s.operations[id].(progress := Failed(error)), retire);
    }
  }

  lemma EndKeeps(s: State, e: Event)
    requires Inv(s) && (e.BeginCompensation? || e.Complete? || e.FinishCleanup? || e.Report?)
    ensures Inv(Apply(s, e))
  {
    var id := e.operation;
    if id in s.operations {
      assert OperationOk(id, s.operations, s.attempts);
      if Apply(s, e) != s {
        OperationKeeps(s, id, Apply(s, e).operations[id], Apply(s, e).retired);
      }
    }
  }

  lemma AdmitCleanupKeeps(s: State, id: Id, source: Id)
    requires Inv(s)
    ensures Inv(AdmitCleanupStep(s, id, source))
  {
    if AdmitCleanupStep(s, id, source) != s {
      if id in s.operations {
        assert OperationOk(id, s.operations, s.attempts);
        OperationKeeps(s, id, s.operations[id].(intent := Cleanup(source), progress := Active(CleaningUp)), false);
      } else {
        NewOperationKeeps(s, id, Operation(LDestroy, Cleanup(source), Active(CleaningUp)));
      }
    }
  }

  lemma AdmitOperationKeeps(s: State, id: Id, l: Lifecycle)
    requires Inv(s)
    ensures Inv(AdmitOperationStep(s, id, l))
  {
    if AdmitOperationStep(s, id, l) != s {
      NewOperationKeeps(s, id, Operation(l, Provision, Active(Queued)));
    }
  }

  lemma StepKeepsInv(s: State, e: Event)
    requires Inv(s)
    ensures Inv(Apply(s, e))
  {
    match e
    case ForeignClaim(ref, row) => ForeignKeeps(s, ref, row);
    case AdmitOperation(id, l) => AdmitOperationKeeps(s, id, l);
    case AdmitCleanup(id, source) => AdmitCleanupKeeps(s, id, source);
    case Insert(id, c, admitted) => InsertKeeps(s, id, c, admitted);
    case Send => SendKeeps(s);
    case Record(o) => RecordKeeps(s, o);
    case EndTick => LandKeeps(s);
    case ClaimCreated(i) => ClaimCreatedKeeps(s, i);
    case Discover(i, found) => DiscoverKeeps(s, i, found);
    case Resolve(i, r) => ResolveKeeps(s, i, r);
    case CloseByOperator(i, cleanup) => CloseKeeps(s, i, cleanup);
    case ObserveAbsence(ref) => TombstoneKeeps(s, ref);
    case Report(_, _) => EndKeeps(s, e);
    case BeginCompensation(_, _) => EndKeeps(s, e);
    case Fail(id, error, retire) => FailKeeps(s, id, error, retire);
    case Complete(_) => EndKeeps(s, e);
    case FinishCleanup(_) => EndKeeps(s, e);
  }

  ghost predicate Reachable(s: State) {
    exists s0, events :: Initial(s0) && Leads(s0, events, s)
  }

  lemma InitialInv(s: State)
    requires Initial(s)
    ensures Inv(s)
  {
  }

  lemma {:induction false} RunKeepsInv(s: State, events: seq<Event>)
    requires Inv(s)
    ensures Inv(Run(s, events))
    decreases |events|
  {
    if events != [] {
      RunKeepsInv(s, events[..|events| - 1]);
      StepKeepsInv(Run(s, events[..|events| - 1]), events[|events| - 1]);
    }
  }

  lemma ReachableInv(s: State)
    requires Reachable(s)
    ensures Inv(s)
  {
    var s0, events :| Initial(s0) && Leads(s0, events, s);
    LedTo(s0, events, s);
    InitialInv(s0);
    RunKeepsInv(s0, events);
  }

  // ---- every reachable state

  /** No attempt row is submitted to the provider twice, over every interleaving of ticks and crashes. */
  lemma NothingSentTwice(s: State, k: nat, l: nat)
    requires Reachable(s) && k < l < |s.sent|
    ensures s.sent[k] != s.sent[l] && s.sent[k] < |s.attempts|
  {
    ReachableInv(s);
  }

  /** One server create and one IP create per machine, whatever became of them. */
  lemma OneCreateEach(s: State, i: nat, j: nat)
    requires Reachable(s) && i < j < |s.attempts|
    ensures !(s.attempts[i].command.Create? && s.attempts[j].command.Create?)
    ensures !(s.attempts[i].command.CreateIp? && s.attempts[j].command.CreateIp?)
  {
    ReachableInv(s);
    var a, b := s.attempts[i], s.attempts[j];
    if Creates(a.command) && Creates(b.command) {
      assert AttemptOk(a, s.operations, s.ledger, s.allocation) && AttemptOk(b, s.operations, s.ledger, s.allocation);
      assert OperationOk(a.operation, s.operations, s.attempts) && OperationOk(b.operation, s.operations, s.attempts);
      assert PairOk(a, b);
    }
  }

  /** Until a cleanup takes over, an operation has one pending attempt at most and never repeats itself. */
  lemma OnePendingAttempt(s: State, i: nat, j: nat)
    requires Reachable(s) && i < j < |s.attempts| && s.attempts[i].operation == s.attempts[j].operation
    requires s.attempts[i].operation in s.operations && !IsCleanup(s.operations[s.attempts[i].operation])
    ensures !s.attempts[i].resolution.Unresolved?
    ensures Signature(s.attempts[i].command) != Signature(s.attempts[j].command)
    ensures s.attempts[i].command != s.attempts[j].command
    ensures s.attempts[j].sequence > s.attempts[i].sequence
  {
    ReachableInv(s);
    assert AttemptOk(s.attempts[j], s.operations, s.ledger, s.allocation);
    assert PairOk(s.attempts[i], s.attempts[j]);
    CountGrows(s.attempts[..j], i, s.attempts[i].operation);
    assert s.attempts[..j][..i] == s.attempts[..i];
  }

  lemma {:induction false} CountGrows(a: seq<Attempt>, i: nat, operation: Id)
    requires i < |a| && a[i].operation == operation
    ensures CountOf(a, operation) > CountOf(a[..i], operation)
    decreases |a|
  {
    var n := |a| - 1;
    if i < n {
      CountGrows(a[..n], i, operation);
      assert a[..n][..i] == a[..i];
    }
  }

  /** Sequence numbers are the ranks 1, 2, 3, ... of an operation's attempts. */
  lemma {:induction false} SequencesHaveNoGaps(s: State, operation: Id, k: nat)
    requires Reachable(s) && 1 <= k <= CountOf(s.attempts, operation)
    ensures exists i :: 0 <= i < |s.attempts| && s.attempts[i].operation == operation && s.attempts[i].sequence == k
  {
    ReachableInv(s);
    var i := RankAt(s.attempts, operation, k);
    assert s.attempts[i].sequence == CountOf(s.attempts[..i], operation) + 1;
  }

  lemma {:induction false} RankAt(a: seq<Attempt>, operation: Id, k: nat) returns (i: nat)
    requires 1 <= k <= CountOf(a, operation)
    ensures i < |a| && a[i].operation == operation && CountOf(a[..i], operation) == k - 1
    decreases |a|
  {
    var n := |a| - 1;
    if k <= CountOf(a[..n], operation) {
      i := RankAt(a[..n], operation, k);
      assert a[..n][..i] == a[..i];
    } else {
      i := n;
    }
  }

  /** An operation is not terminal while one of its attempts is unresolved. */
  lemma TerminalIsResolved(s: State, i: nat)
    requires Reachable(s) && i < |s.attempts| && s.attempts[i].resolution.Unresolved?
    ensures s.attempts[i].operation in s.operations && IsActive(s.operations[s.attempts[i].operation])
  {
    ReachableInv(s);
    assert AttemptOk(s.attempts[i], s.operations, s.ledger, s.allocation);
    assert OperationOk(s.attempts[i].operation, s.operations, s.attempts);
    assert PendingIn(s.attempts[i], s.attempts[i].operation);
  }

  /** A retired allocation owns no live resource. */
  lemma RetiredOwnsNothing(s: State, r: Ref)
    requires Reachable(s) && s.retired && r in s.ledger && s.ledger[r].allocation == s.allocation
    ensures s.ledger[r].absent
  {
    ReachableInv(s);
  }

  /** On the failure path an allocation is retired only if every server create was definitively rejected. */
  lemma FailureRetiresSafely(s: State, id: Id, error: Id, retire: bool)
    requires Reachable(s) && !s.retired && FailStep(s, id, error, retire).retired
    ensures forall i :: 0 <= i < |s.attempts| && s.attempts[i].command.Create? ==> s.attempts[i].outcome.Rejected?
    ensures forall r :: r in s.ledger && s.ledger[r].allocation == s.allocation ==> r.kind.IpKind? && s.ledger[r].absent
  {
    ReachableInv(s);
    CreatesBelongTo(s, id);
    FailedCreateOwnsNothing(s, id);
    forall i | 0 <= i < |s.attempts| && s.attempts[i].command.Create? ensures s.attempts[i].outcome.Rejected? {
      assert !MayHaveCreated(s.attempts[i]);
    }
  }

  /**
   Every recorded confirmation holds of its observation: it is of the command's target, or of the resource that
   the saved receipt names; it shows the command's postcondition, under the labels of the target's row; it is an
   absence only for a deletion, or for an operation that a cleanup was admitted over. An uncertain reboot is never
   confirmed, a rejected effect only by absence, a deletion by nothing else.
   */
  lemma ConfirmedAttemptsAchieved(s: State, i: nat)
    requires Reachable(s) && i < |s.attempts| && s.attempts[i].resolution.ResolvedOk?
    ensures var a, o := s.attempts[i], s.attempts[i].resolution.observation;
            && (o.ServerSeen? ==> !a.outcome.Rejected? && match a.command
                  case Create(serverType, region, network, labels) =>
                    && o.server.serverType == serverType && o.server.region == region && o.server.primaryIp == network
                    && o.server.power == Running
                    && (forall k :: k in labels ==> k in o.server.labels && o.server.labels[k] == labels[k])
                    && (a.outcome.Accepted? || a.outcome.Completed? ==> a.outcome.resource == Ref(ServerKind, o.server.id))
                  case EnableBackup(id) => o.server.id == id && o.server.backups == Enabled && ShowsRow(s, o.server)
                  case Resize(id, serverType) => o.server.id == id && o.server.serverType == serverType && ShowsRow(s, o.server)
                  case PowerOff(id) => o.server.id == id && o.server.power == Off && ShowsRow(s, o.server)
                  case PowerOn(id) => o.server.id == id && o.server.power == Running && ShowsRow(s, o.server)
                  case Reboot(id) =>
                    && o.server.id == id && o.server.power == Running && ShowsRow(s, o.server)
                    && (a.outcome.Accepted? || a.outcome.Completed?)
                  case _ => false)
            && (o.IpSeen? ==>
                  && !a.outcome.Rejected? && a.command.CreateIp? && o.ip.region == a.command.region && o.ip.autoDelete
                  && o.ip.assignment == None
                  && (forall k :: k in a.command.labels ==> k in o.ip.labels && o.ip.labels[k] == a.command.labels[k])
                  && (a.outcome.Accepted? || a.outcome.Completed? ==> a.outcome.resource == Ref(IpKind, o.ip.id)))
            && (o.Absent? ==> match a.command
                  case Destroy(id) => o.resource == Ref(ServerKind, id)
                  case DeleteIp(id) => o.resource == Ref(IpKind, id)
                  case EnableBackup(id) => o.resource == Ref(ServerKind, id) && UnderCleanup(s.operations, a.operation)
                  case Create(_, _, _, _) =>
                    (a.outcome.Accepted? || a.outcome.Completed?) && o.resource == a.outcome.resource
                    && UnderCleanup(s.operations, a.operation)
                  case CreateIp(_, _) =>
                    (a.outcome.Accepted? || a.outcome.Completed?) && o.resource == a.outcome.resource
                    && UnderCleanup(s.operations, a.operation)
                  case _ => false)
            && (a.outcome.Rejected? ==> o.Absent? && UnderCleanup(s.operations, a.operation))
  {
    ReachableInv(s);
    assert ConfirmedOk(s.attempts[i], s.operations, s.ledger);
    assert AttemptOk(s.attempts[i], s.operations, s.ledger, s.allocation);
  }

  /** The server is one of this allocation's ledger rows and carries that row's labels. */
  predicate ShowsRow(s: State, server: Server) {
    && Ref(ServerKind, server.id) in s.ledger
    && s.ledger[Ref(ServerKind, server.id)].allocation == s.allocation
    && forall k :: k in s.ledger[Ref(ServerKind, server.id)].labels ==>
         k in server.labels && server.labels[k] == s.ledger[Ref(ServerKind, server.id)].labels[k]
  }

  /**
   An operation that succeeded did what it was for: its one effect is confirmed, and the reading that confirmed it
   shows the server as asked. (A destroy ends on what is left of the ledger, see RetiredOwnsNothing.)
   */
  lemma SucceededHasItsEffect(s: State, id: Id)
    requires Reachable(s) && id in s.operations && s.operations[id].progress.Succeeded? && !IsCleanup(s.operations[id])
    requires !s.operations[id].lifecycle.LDestroy?
    ensures exists i :: 0 <= i < |s.attempts| && s.attempts[i].operation == id && Effected(s.operations[id].lifecycle, s.attempts[i])
  {
    ReachableInv(s);
    assert OperationOk(id, s.operations, s.attempts);
    var i :| 0 <= i < |s.attempts| && s.attempts[i].operation == id && Fulfils(s.operations[id].lifecycle, s.attempts[i]);
    ConfirmedAttemptsAchieved(s, i);
    AttemptsAreAsked(s, i);
    assert AttemptOk(s.attempts[i], s.operations, s.ledger, s.allocation);
    assert Effected(s.operations[id].lifecycle, s.attempts[i]);
  }

  predicate Effected(l: Lifecycle, a: Attempt) {
    && a.resolution.ResolvedOk? && a.resolution.observation.ServerSeen?
    && var x := a.resolution.observation.server;
    match l
    case LCreate(_, serverType, region, _) =>
      a.command.Create? && x.serverType == serverType && x.region == region && x.primaryIp == a.command.network && x.power == Running
    case LResize(serverType, _) => a.command == Resize(x.id, serverType) && x.serverType == serverType
    case LPowerOff => a.command == PowerOff(x.id) && x.power == Off
    case LPowerOn => a.command == PowerOn(x.id) && x.power == Running
    case LReboot => a.command == Reboot(x.id) && x.power == Running && (a.outcome.Accepted? || a.outcome.Completed?)
    case LDestroy => false
  }

  /**
   An allocation has two live server rows only while an effect is undecided or an operation is at work: a match list
   with duplicates leaves its create pending, and only an operator's closure under an active cleanup ends that.
   */
  lemma TwoServersAreFlagged(s: State, r: Ref, r': Ref)
    requires Reachable(s) && r != r' && r.kind.ServerKind? && r'.kind.ServerKind?
    requires r in s.ledger && s.ledger[r].allocation == s.allocation && !s.ledger[r].absent
    requires r' in s.ledger && s.ledger[r'].allocation == s.allocation && !s.ledger[r'].absent
    ensures (exists i :: 0 <= i < |s.attempts| && s.attempts[i].command.Create? && s.attempts[i].resolution.Unresolved?)
         || (exists id :: id in s.operations && s.operations[id].progress.Active? && s.operations[id].intent.Cleanup?)
  {
    ReachableInv(s);
    assert s.ledger[r].allocation == s.allocation && s.ledger[r'].allocation == s.allocation;
    var i :| 0 <= i < |s.attempts| && MayHaveCreated(s.attempts[i]);
    assert CreateOk(s.attempts[i], s.operations, s.ledger, s.allocation, s.retired);
  }

  /**
   In every reachable journal an operation has only attempts that its lifecycle asks for, with its own arguments:
   each on a row of this allocation, a create under its operation's label and on one of its IPs. Anything else was
   journaled under an admitted cleanup, and deletes.
   */
  lemma AttemptsAreAsked(s: State, i: nat)
    requires Reachable(s) && i < |s.attempts|
    ensures var a := s.attempts[i];
            && a.operation in s.operations
            && (a.admitted ==> a.command.Destroy? || a.command.DeleteIp?)
            && (!a.admitted ==> match s.operations[a.operation].lifecycle
                  case LCreate(_, serverType, region, dailyBackups) => (
                    match a.command
                    case CreateIp(r, labels) => r == region && OPERATION in labels && labels[OPERATION] == a.operation
                    case Create(t, r, network, labels) =>
                      && t == serverType && r == region && OPERATION in labels && labels[OPERATION] == a.operation
                      && (network.Some? ==> Ref(IpKind, network.value) in s.ledger
                                            && s.ledger[Ref(IpKind, network.value)].allocation == s.allocation)
                    case EnableBackup(_) => dailyBackups
                    case DeleteIp(_) => !s.operations[a.operation].intent.Provision?
                    case _ => false)
                  case LDestroy => a.command.Destroy? || a.command.DeleteIp?
                  case LResize(serverType, dailyBackups) =>
                    (a.command.Resize? && a.command.serverType == serverType) || (a.command.EnableBackup? && dailyBackups)
                  case LPowerOff => a.command.PowerOff?
                  case LPowerOn => a.command.PowerOn?
                  case LReboot => a.command.Reboot?)
            && (match a.command
                case CreateIp(_, _) => true
                case Create(_, _, _, _) => true
                case DeleteIp(ip) => Ref(IpKind, ip) in s.ledger && s.ledger[Ref(IpKind, ip)].allocation == s.allocation
                case _ => Ref(ServerKind, a.command.server) in s.ledger
                          && s.ledger[Ref(ServerKind, a.command.server)].allocation == s.allocation)
  {
    ReachableInv(s);
    assert AttemptOk(s.attempts[i], s.operations, s.ledger, s.allocation);
  }

  /** When the attempt was journaled, what it names was a live row of this allocation. */
  ghost predicate StartedLive(s: State, events: seq<Event>, i: nat) {
    exists k :: 0 <= k <= |events| && NamesLiveRows(Run(s, events[..k]), Run(s, events), i)
  }

  ghost predicate NamesLiveRows(u: State, t: State, i: nat) {
    |u.attempts| == i < |t.attempts| &&
    match t.attempts[i].command
    case CreateIp(_, _) => true
    case Create(_, _, network, _) =>
      network.Some? ==>
        && Ref(IpKind, network.value) in u.ledger && u.ledger[Ref(IpKind, network.value)].allocation == u.allocation
        && !u.ledger[Ref(IpKind, network.value)].absent
    case DeleteIp(ip) =>
      Ref(IpKind, ip) in u.ledger && u.ledger[Ref(IpKind, ip)].allocation == u.allocation && !u.ledger[Ref(IpKind, ip)].absent
    case _ =>
      var r := Ref(ServerKind, t.attempts[i].command.server);
      r in u.ledger && u.ledger[r].allocation == u.allocation && !u.ledger[r].absent
  }

  /** Every effect of every run names only rows that were live when it was journaled. */
  lemma {:induction false} EffectsNameLiveRows(s: State, events: seq<Event>, i: nat)
    requires Inv(s) && |s.attempts| <= i < |Run(s, events).attempts|
    ensures StartedLive(s, events, i)
    decreases |events|
  {
    if events != [] {
      var n := |events| - 1;
      var u, t := Run(s, events[..n]), Run(s, events);
      RunKeepsInv(s, events[..n]);
      StepFollows(u, events[n]);
      if i < |u.attempts| {
        EffectsNameLiveRows(s, events[..n], i);
        var k :| 0 <= k <= n && NamesLiveRows(Run(s, events[..n][..k]), u, i);
        assert events[..n][..k] == events[..k] && AttemptAdvances(u.attempts[i], t.attempts[i]);
        assert NamesLiveRows(Run(s, events[..k]), t, i);
      } else {
        OnlyInsertAdds(u, events[n]);
        assert NamesLiveRows(Run(s, events[..n]), t, i);
      }
    }
  }

  lemma OnlyInsertAdds(s: State, e: Event)
    requires |Apply(s, e).attempts| > |s.attempts|
    ensures e.Insert? && MayInsert(s, e.operation, e.command, e.admitted)
    ensures Apply(s, e) == InsertStep(s, e.operation, e.command, e.admitted)
  {
    if !e.Insert? {
      if e.AdmitOperation? || e.AdmitCleanup? || e.Report? || e.BeginCompensation? || e.Fail? || e.Complete? || e.FinishCleanup? {
        EndsKeepAttempts(s, e);
      } else {
        QuietKeepsCleanup(s, e);
      }
    }
  }

  lemma EndsKeepAttempts(s: State, e: Event)
    requires e.AdmitOperation? || e.AdmitCleanup? || e.Report? || e.BeginCompensation? || e.Fail? || e.Complete? || e.FinishCleanup?
    ensures Apply(s, e).attempts == s.attempts
  {
  }

  // ---- after a cleanup is admitted

  /** The allocation was given back, or this cleanup is the operation at work. */
  predicate CleanupRuns(s: State, id: Id) {
    s.retired || (id in s.operations && IsActive(s.operations[id]) && IsCleanup(s.operations[id]))
  }

  lemma OnlyCleanupRuns(s: State, id: Id, x: Id)
    requires Inv(s) && CleanupRuns(s, id) && !s.retired && x in s.operations && IsActive(s.operations[x])
    ensures x == id
  {
    assert OperationOk(id, s.operations, s.attempts);
  }

  lemma StepKeepsCleanup(s: State, e: Event, id: Id)
    requires Inv(s) && CleanupRuns(s, id)
    ensures CleanupRuns(Apply(s, e), id)
    ensures Apply(s, e).attempts == s.attempts || |Apply(s, e).attempts| == |s.attempts|
         || (e.Insert? && Apply(s, e) == InsertStep(s, e.operation, e.command, e.admitted)
             && MayInsert(s, e.operation, e.command, e.admitted))
  {
    StepFollows(s, e);
    if e.AdmitOperation? || e.AdmitCleanup? { AdmissionsKeepCleanup(s, e, id); }
    else if e.Report? || e.BeginCompensation? || e.Fail? || e.Complete? || e.FinishCleanup? { EndsKeepCleanup(s, e, id); }
    else if e.Insert? { assert InsertStep(s, e.operation, e.command, e.admitted) == Apply(s, e); }
    else { QuietKeepsCleanup(s, e); }
  }

  lemma AdmissionsKeepCleanup(s: State, e: Event, id: Id)
    requires Inv(s) && CleanupRuns(s, id) && (e.AdmitOperation? || e.AdmitCleanup?)
    ensures CleanupRuns(Apply(s, e), id) && Apply(s, e).attempts == s.attempts
  {
  }

  lemma EndsKeepCleanup(s: State, e: Event, id: Id)
    requires Inv(s) && CleanupRuns(s, id)
    requires e.Report? || e.BeginCompensation? || e.Fail? || e.Complete? || e.FinishCleanup?
    ensures CleanupRuns(Apply(s, e), id) && Apply(s, e).attempts == s.attempts
  {
  }

  lemma QuietKeepsCleanup(s: State, e: Event)
    requires !e.AdmitOperation? && !e.AdmitCleanup? && !e.Report? && !e.BeginCompensation? && !e.Fail? && !e.Complete?
             && !e.FinishCleanup? && !e.Insert?
    ensures Apply(s, e).operations == s.operations && Apply(s, e).retired == s.retired
    ensures |Apply(s, e).attempts| == |s.attempts|
  {
  }

  /** At its insertion the attempt deleted an exact live row of this allocation. */
  ghost predicate InsertedAsDeletion(s: State, events: seq<Event>, i: nat) {
    exists k :: 0 <= k <= |events| && DeletesLiveRow(Run(s, events[..k]), Run(s, events), i)
  }

  ghost predicate DeletesLiveRow(u: State, t: State, i: nat) {
    && |u.attempts| == i < |t.attempts|
    && (t.attempts[i].command.Destroy? || t.attempts[i].command.DeleteIp?)
    && var r := if t.attempts[i].command.Destroy? then Ref(ServerKind, t.attempts[i].command.server)
                else Ref(IpKind, t.attempts[i].command.ip);
    && r in u.ledger && u.ledger[r].allocation == u.allocation && u.ledger[r].account == u.account && !u.ledger[r].absent
  }

  /**
   Once a cleanup is admitted, every effect that the machine journals in any later run, for whichever operation,
   is the deletion of an exact ledger row that is live when it is journaled.
   */
  lemma {:induction false} CleanupOnlyDeletes(s: State, id: Id, events: seq<Event>, i: nat)
    requires Reachable(s) && CleanupRuns(s, id)
    ensures CleanupRuns(Run(s, events), id)
    ensures |s.attempts| <= i < |Run(s, events).attempts| ==> InsertedAsDeletion(s, events, i)
    decreases |events|
  {
    if events != [] {
      var n := |events| - 1;
      var u, e := Run(s, events[..n]), events[n];
      CleanupOnlyDeletes(s, id, events[..n], i);
      ReachableInv(s);
      RunKeepsInv(s, events[..n]);
      StepKeepsCleanup(u, e, id);
      StepFollows(u, e);
      var t := Run(s, events);
      if |s.attempts| <= i < |t.attempts| {
        if i < |u.attempts| {
          var k :| 0 <= k <= n && DeletesLiveRow(Run(s, events[..n][..k]), u, i);
          assert events[..n][..k] == events[..k] && AttemptAdvances(u.attempts[i], t.attempts[i]);
          assert DeletesLiveRow(Run(s, events[..k]), t, i);
        } else {
          OnlyCleanupRuns(u, id, e.operation);
          assert DeletesLiveRow(Run(s, events[..n]), t, i);
        }
      }
    }
  }

  // ---- every run

  predicate AttemptAdvances(a: Attempt, b: Attempt) {
    && b.operation == a.operation && b.sequence == a.sequence && b.command == a.command && b.admitted == a.admitted
    && (!a.outcome.Prepared? ==> b.outcome == a.outcome)
    && (!a.resolution.Unresolved? ==> b.resolution == a.resolution)
  }

  ghost predicate Follows(s: State, t: State) {
    && |s.attempts| <= |t.attempts|
    && (forall i {:trigger AttemptAdvances(s.attempts[i], t.attempts[i])} :: 0 <= i < |s.attempts| ==>
          AttemptAdvances(s.attempts[i], t.attempts[i]))
    && (s.retired ==> t.retired)
    && t.allocation == s.allocation && t.account == s.account
    && (forall r :: r in s.ledger ==> r in t.ledger && t.ledger[r].allocation == s.ledger[r].allocation
                                      && t.ledger[r].labels == s.ledger[r].labels
                                      && (s.ledger[r].absent ==> t.ledger[r].absent))
  }

  lemma ClaimsFollow(s: State, e: Event)
    requires e.ClaimCreated? || e.Discover? || e.Resolve? || e.CloseByOperator? || e.ObserveAbsence? || e.ForeignClaim?
    ensures Follows(s, Apply(s, e))
  {
    if e.Discover? {
      if DiscoverStep(s, e.index, e.found) != s {
        ClaimAllKeeps(s.ledger, e.found, s.attempts[e.index].command, s.allocation, s.account);
      }
    } else if e.Resolve? {
      ResolveFollows(s, e.index, e.resolution);
    }
  }

  lemma ResolveFollows(s: State, i: nat, r: Resolution)
    ensures Follows(s, ResolveStep(s, i, r))
  {
  }

  lemma StepFollows(s: State, e: Event)
    requires Inv(s)
    ensures Follows(s, Apply(s, e))
  {
    if e.ClaimCreated? || e.Discover? || e.Resolve? || e.CloseByOperator? || e.ObserveAbsence? || e.ForeignClaim? {
      ClaimsFollow(s, e);
    } else if e.Insert? || e.Send? || e.Record? || e.EndTick? {
      FlightFollows(s, e);
    } else {
      assert Apply(s, e).attempts == s.attempts && Apply(s, e).ledger == s.ledger;
    }
  }

  lemma FlightFollows(s: State, e: Event)
    requires Inv(s) && (e.Insert? || e.Send? || e.Record? || e.EndTick?)
    ensures Follows(s, Apply(s, e))
  {
  }

  /** Receipts and resolutions are written once; absence and retirement are final. */
  lemma {:induction false} RunFollows(s: State, events: seq<Event>)
    requires Inv(s)
    ensures Follows(s, Run(s, events))
    decreases |events|
  {
    if events != [] {
      var before := events[..|events| - 1];
      RunFollows(s, before);
      RunKeepsInv(s, before);
      StepFollows(Run(s, before), events[|events| - 1]);
      FollowsTransitive(s, Run(s, before), Run(s, events));
    }
  }

  lemma FollowsTransitive(s: State, t: State, u: State)
    requires Follows(s, t) && Follows(t, u)
    ensures Follows(s, u)
  {
    forall i | 0 <= i < |s.attempts| ensures AttemptAdvances(s.attempts[i], u.attempts[i]) {
      assert AttemptAdvances(s.attempts[i], t.attempts[i]) && AttemptAdvances(t.attempts[i], u.attempts[i]);
    }
  }
}
