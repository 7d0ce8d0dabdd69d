/**
 What each recovery decision demands and what it leaves, in the columns that the transaction reads and writes.
 Every decision also needs the whole lock free, a new request id and the private file at its generation three times.
 */
module RecoveryLaws {
  import opened Prelude
  import opened Journal
  import opened Recovery
  import Inspection

  /** Only a database without a state row and without any data can be declared ready. */
  lemma InitializeExactly(s: State, r: Request, v: Evidence)
    requires r.Initialize?
    ensures var t := Apply(s, Decide(r, v));
      (t != s) <==>
        && s.shared == {} && s.exclusive.None? && r.id !in s.receipts
        && v.file.0 == v.file.1 == v.file.2 == Some(r.generation)
        && s.control.Absent? && !s.ledger.occupied
    ensures var t := Apply(s, Decide(r, v));
      t != s ==> t == s.(control := Ready(r.generation), receipts := s.receipts[r.id := r])
  {
    Recorded(s, r, v);
  }

  lemma Recorded(s: State, r: Request, v: Evidence)
    ensures Apply(s, Decide(r, v)) != s <==> Commits(s, r, v)
    ensures Commits(s, r, v) ==> r.id in Apply(s, Decide(r, v)).receipts
  {
    if Commits(s, r, v) { assert r.id in DecideStep(s, r, v).receipts; }
  }

  /**
   A recovery begins from no state row or from a ready one of another generation. Every grant is then revoked,
   every session closed and every schedule disabled; operations and resources stay as they are.
   */
  lemma BeginExactly(s: State, r: Request, v: Evidence)
    requires r.Begin?
    ensures var t := Apply(s, Decide(r, v));
      (t != s) <==>
        && s.shared == {} && s.exclusive.None? && r.id !in s.receipts
        && v.file.0 == v.file.1 == v.file.2 == Some(r.generation)
        && (s.control.Absent? || (s.control.Ready? && s.control.generation != r.generation))
    ensures var t := Apply(s, Decide(r, v));
      t != s ==>
        && t.control == Control.Recovering(r.generation, r.id) && t.receipts == s.receipts[r.id := r]
        && t.ledger.grants.Keys == s.ledger.grants.Keys && (forall i :: i in t.ledger.grants ==> t.ledger.grants[i])
        && t.ledger.sessions.Keys == s.ledger.sessions.Keys && (forall i :: i in t.ledger.sessions ==> t.ledger.sessions[i])
        && t.ledger.schedules.Keys == s.ledger.schedules.Keys && (forall i :: i in t.ledger.schedules ==> t.ledger.schedules[i])
        && t.ledger.work == s.ledger.work && t.ledger.pending == s.ledger.pending && t.ledger.occupied == s.ledger.occupied
        && t.shared == s.shared && t.exclusive == s.exclusive && t.fences == s.fences && t.external == s.external
  {
    Recorded(s, r, v);
  }

  /**
   A closure is admitted exactly of an unfinished operation that still is what the operator saw, on a live allocation
   of this provider, while no other operation of its machine has an effect in flight; every row, the server and the
   resource of every effect is acknowledged, each once, and none of them, nor anything under the labels, is there.
   */
  lemma ClosureExactly(s: State, r: Request, v: Evidence)
    requires r.CloseOperation?
    ensures var t := Apply(s, Decide(r, v));
      (t != s) <==>
        && s.shared == {} && s.exclusive.None? && r.id !in s.receipts
        && v.file.0 == v.file.1 == v.file.2 == Some(r.generation)
        && s.control == Control.Recovering(r.generation, r.recovery)
        && r.operation in s.ledger.work && s.ledger.work[r.operation] == r.expected
        && !r.expected.terminal && r.expected.live && r.expected.ownProvider
        && (forall o :: o in s.ledger.work && o != r.operation && s.ledger.work[o].machine == r.expected.machine ==>
              forall k :: 0 <= k < |s.ledger.work[o].history| ==> !s.ledger.work[o].history[k].pending)
        && (forall i, j :: 0 <= i < j < |r.resources| ==> r.resources[i] != r.resources[j])
        && (forall x :: x in r.expected.rows ==> x in r.resources)
        && (r.expected.serverId.Some? ==> Ref(ServerKind, r.expected.serverId.value) in r.resources)
        && (forall k :: 0 <= k < |r.expected.history| ==> Acknowledged(r.expected.history[k], r.resources))
        && !v.labelled && (forall x :: x in r.resources ==> x !in v.present)
    ensures var t := Apply(s, Decide(r, v));
      t != s ==>
        && r.operation in t.ledger.work
        && var w := t.ledger.work[r.operation];
        && t == s.(ledger := s.ledger.(work := s.ledger.work[r.operation := w]), receipts := s.receipts[r.id := r])
        && w.terminal && !w.live && w.destroyed
        && w.rows.Keys == r.expected.rows.Keys && (forall x :: x in w.rows ==> w.rows[x])
        && |w.history| == |r.expected.history|
        && (forall k :: 0 <= k < |w.history| ==> w.history[k] == r.expected.history[k].(pending := false))
  {
    Recorded(s, r, v);
    RequiredIsAcknowledged(r.expected, r.resources);
    if r.operation in s.ledger.work { OthersAreQuiet(s, r.operation); }
  }

  /** The resource that a history entry's outcome names, or else its command's, is on the list. */
  predicate Acknowledged(e: Effect, resources: seq<Ref>) {
    && ((e.outcome.Accepted? || e.outcome.Completed?) ==> e.outcome.resource in resources)
    && (!(e.outcome.Accepted? || e.outcome.Completed?) ==>
          if e.command.CreateIp? || e.command.Create? then true
          else if e.command.DeleteIp? then Ref(IpKind, e.command.ip) in resources
          else Ref(ServerKind, e.command.server) in resources)
  }

  lemma RequiredIsAcknowledged(w: Work, resources: seq<Ref>)
    ensures (forall x :: x in Required(w) ==> x in resources) <==>
      && (forall x :: x in w.rows ==> x in resources)
      && (w.serverId.Some? ==> Ref(ServerKind, w.serverId.value) in resources)
      && (forall k :: 0 <= k < |w.history| ==> Acknowledged(w.history[k], resources))
  {
    forall k | 0 <= k < |w.history|
      ensures Acknowledged(w.history[k], resources) <==> (RefOf(w.history[k]).Some? ==> RefOf(w.history[k]).value in resources) {}
    if forall x :: x in Required(w) ==> x in resources {
      assert w.serverId.Some? ==> Ref(ServerKind, w.serverId.value) in Required(w);
      forall k | 0 <= k < |w.history| && RefOf(w.history[k]).Some? ensures RefOf(w.history[k]).value in resources {
        assert RefOf(w.history[k]).value in Required(w);
      }
    }
  }

  lemma OthersAreQuiet(s: State, id: Id)
    requires id in s.ledger.work
    ensures OthersQuiet(s, id) <==>
      forall o :: o in s.ledger.work && o != id && s.ledger.work[o].machine == s.ledger.work[id].machine ==>
        forall k :: 0 <= k < |s.ledger.work[o].history| ==> !s.ledger.work[o].history[k].pending
  {
  }

  /** The control plane resumes exactly on an inspection that found nothing, with the digests that the operator saw. */
  lemma ResumeExactly(s: State, r: Request, v: Evidence)
    requires r.Resume? && Shows(s, v.database)
    ensures var t := Apply(s, Decide(r, v));
      (t != s) <==>
        && s.shared == {} && s.exclusive.None? && r.id !in s.receipts
        && v.file.0 == v.file.1 == v.file.2 == Some(r.generation)
        && s.control == Control.Recovering(r.generation, r.recovery)
        && Inspection.TablesClean(v.database) && Inspection.InventoryClean(v.database, v.world)
        && Inspection.BackupsClean(v.database, v.world)
        && v.stateDigest == r.expectedState && v.inventoryDigest == r.expectedInventory
    ensures var t := Apply(s, Decide(r, v));
      t != s ==> t == s.(control := Ready(r.generation), receipts := s.receipts[r.id := r])
  {
    Recorded(s, r, v);
  }
}
