/**
 The inspection over tables that the operation journals wrote: what a clean one says of each live allocation,
 given what every reachable journal keeps.
 */
module Agreement {
  import opened Prelude
  import opened Journal
  import Inspection
  import OperationMachine
  import OperationProofs

  /** The inspected tables hold this allocation's rows, undecided effects and unfinished operations. */
  ghost predicate Shows(db: Inspection.Database, s: OperationMachine.State) {
    && (forall i :: 0 <= i < |db.resources| && db.resources[i].allocation == s.allocation ==> RowOf(db.resources[i], s))
    && (forall i :: 0 <= i < |s.attempts| && s.attempts[i].resolution.Unresolved? ==> !Inspection.AllOk(db.attempts))
    && (forall id :: id in s.operations && OperationMachine.IsActive(s.operations[id]) ==> !Inspection.AllOk(db.operations))
  }

  predicate RowOf(r: Inspection.Resource, s: OperationMachine.State) {
    && OperationMachine.OwnRow(s.ledger, Ref(r.kind, r.id), s.allocation)
    && s.ledger[Ref(r.kind, r.id)].absent == r.absent
  }

  /**
   The inspection does not count an allocation's servers, and need not: in tables that a journal wrote, a clean
   inspection leaves each unretired allocation exactly one live server row, its own, and the managed inventory
   exactly one server under its label.
   */
  lemma OneServerEach(db: Inspection.Database, w: Inspection.World, s: OperationMachine.State, j: nat)
    requires Inspection.Clean(db, w) && Inspection.Keyed(db) && OperationProofs.Reachable(s) && Shows(db, s)
    requires j < |db.allocations| && !db.allocations[j].retired && db.allocations[j].id == s.allocation
    ensures Inspection.OneServerRow(db, s.allocation)
    ensures exists r :: 0 <= r < |db.resources| && Inspection.SoleServerRow(db, s.allocation, r)
                        && db.allocations[j].server == Some(db.resources[r].id)
    ensures Inspection.CompleteSearch(w) && Inspection.RowsLabelled(db) ==> Inspection.OneServerFound(w, s.allocation)
  {
    Inspection.AllocationsOwnTheirResources(db, w, j);
    var r :| 0 <= r < |db.resources| && Inspection.IsServerRow(db.resources[r], db.allocations[j]);
    forall r' | 0 <= r' < |db.resources| && Inspection.IsLiveServer(db.resources[r'], s.allocation) ensures r' == r {
      NoSecondServer(db, w, s, r, r');
    }
    assert Inspection.SoleServerRow(db, s.allocation, r);
    if Inspection.CompleteSearch(w) && Inspection.RowsLabelled(db) { Inspection.ServersAgree(db, w, s.allocation); }
  }

  lemma NoSecondServer(db: Inspection.Database, w: Inspection.World, s: OperationMachine.State, r: nat, r': nat)
    requires Inspection.Clean(db, w) && Inspection.Keyed(db) && OperationProofs.Reachable(s) && Shows(db, s)
    requires r < |db.resources| && r' < |db.resources|
    requires Inspection.IsLiveServer(db.resources[r], s.allocation) && Inspection.IsLiveServer(db.resources[r'], s.allocation)
    ensures r' == r
  {
    var a, b := db.resources[r], db.resources[r'];
    assert RowOf(a, s) && RowOf(b, s);
    assert Inspection.ResourceOk(a, w) && Inspection.ResourceOk(b, w);
    if Ref(a.kind, a.id) != Ref(b.kind, b.id) {
      OperationProofs.TwoServersAreFlagged(s, Ref(a.kind, a.id), Ref(b.kind, b.id));
    }
  }
}
