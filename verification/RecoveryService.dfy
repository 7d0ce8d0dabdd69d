/**
 A fenced process and the offline recovery command as they run. Between two statements of a fence other
 processes act and its session may die; a recovery decision holds the whole lock and is one transaction.
 */
module RecoveryService {
  import opened Prelude
  import opened Journal
  import opened Recovery
  import Inspection

  datatype Refusal = WrongGeneration | LockBusy | Conflict | NotPermitted | VersionConflict | StillBusy

  /** Anything may happen meanwhile except the steps of this fence's own process. */
  predicate IsOther(e: Event, f: Id) {
    (e.Acquire? || e.StartCheck? || e.ReadFile? || e.Query? || e.StartClose? || e.FinishClose?) ==> e.fence != f
  }

  predicate SameView(a: State, b: State, f: Id) {
    f in a.fences ==>
      && f in b.fences && b.fences[f] == a.fences[f].(failed := b.fences[f].failed)
      && (a.fences[f].failed ==> b.fences[f].failed)
  }

  lemma OtherKeepsView(s: State, e: Event, f: Id)
    requires IsOther(e, f)
    ensures SameView(s, Apply(s, e), f)
    ensures f !in s.fences ==> f !in Apply(s, e).fences
  {
    if e.Decide? {
      DecideKeepsFences(s, e.request, e.evidence);
    } else if !IsFenceEvent(e) {
      assert WorkStep(s, e).fences == s.fences;
    } else if e.fence != f {
      OtherFence(s, e, f);
    } else {
      OwnSession(s, e, f);
    }
  }

  lemma DecideKeepsFences(s: State, r: Request, v: Evidence)
    ensures DecideStep(s, r, v).fences == s.fences
  {
  }

  /** The session may die or the loss be noticed at any time. */
  lemma OwnSession(s: State, e: Event, f: Id)
    requires (e.SessionDies? || e.Notice?) && e.fence == f
    ensures SameView(s, FenceStep(s, e), f) && (f !in s.fences ==> f !in FenceStep(s, e).fences)
  {
  }

  predicate SameFence(a: State, b: State, f: Id) {
    (f in a.fences <==> f in b.fences) && (f in a.fences ==> b.fences[f] == a.fences[f])
  }

  lemma OneFenceChanges(s: State, t: State, g: Id, f: Id)
    requires g != f && (t.fences == s.fences || (g in t.fences && t.fences == s.fences[g := t.fences[g]]))
    ensures SameFence(s, t, f)
  {
  }

  lemma OtherFence(s: State, e: Event, f: Id)
    requires IsFenceEvent(e) && e.fence != f
    ensures SameFence(s, FenceStep(s, e), f)
  {
    match e
    case Acquire(g, mode) => OtherAcquires(s, g, mode, f);
    case ReadFile(g) => OneFenceChanges(s, ReadFileStep(s, g), g, f);
    case Query(g) => OtherQueries(s, g, f);
    case SessionDies(g) => OneFenceChanges(s, Unlock(s, g), g, f);
    case FinishClose(g) => OneFenceChanges(s, FenceStep(s, e), g, f);
    case StartCheck(g) => OneFenceChanges(s, FenceStep(s, e), g, f);
    case Notice(g) => OneFenceChanges(s, FenceStep(s, e), g, f);
    case StartClose(g) => OneFenceChanges(s, FenceStep(s, e), g, f);
  }

  lemma OtherAcquires(s: State, g: Id, mode: Mode, f: Id)
    requires g != f
    ensures SameFence(s, AcquireStep(s, g, mode), f)
  {
  }

  lemma OtherQueries(s: State, g: Id, f: Id)
    requires g != f
    ensures SameFence(s, QueryStep(s, g), f)
  {
  }

  lemma {:induction false} OthersKeepView(s: State, events: seq<Event>, f: Id)
    requires forall i :: 0 <= i < |events| ==> IsOther(events[i], f)
    ensures SameView(s, Run(s, events), f)
    ensures f !in s.fences ==> f !in Run(s, events).fences
    decreases |events|
  {
    if events != [] {
      var n := |events| - 1;
      OthersKeepView(s, events[..n], f);
      OtherKeepsView(Run(s, events[..n]), events[n], f);
    }
  }

  /** The tables and locks as they stood at an earlier point of the history. */
  datatype Reading = Reading(events: seq<Event>, at: State)

  class ControlPlane {
    var state: State
    ghost const origin: State
    ghost var history: seq<Event>

    ghost predicate Valid()
      reads this
    {
      Initial(origin) && Leads(origin, history, state)
    }

    constructor (restored: State)
      requires Initial(restored)
      ensures Valid() && state == restored
    {
      state, origin, history := restored, restored, [];
    }

    lemma Consistent()
      requires Valid()
      ensures Reachable(state) && Inv(state)
    {
      ReachableInv(state);
    }

    /** A statement's new state is the machine's, and joins the history. */
    method Commit(t: State, ghost e: Event)
      requires Valid() && t == Apply(state, e)
      modifies this
      ensures Valid() && old(history) <= history && state == t
    {
      LedTo(origin, history, state);
      RunAppends(origin, history, e);
      state := t;
      history := history + [e];
    }

    /** Other processes and the network. Callers know only this contract. */
    method Interfere(f: Id)
      requires Valid()
      modifies this
      ensures Valid() && old(history) <= history
      ensures forall i :: |old(history)| <= i < |history| ==> IsOther(history[i], f)
    {
    }

    method Yield(f: Id)
      requires Valid()
      modifies this
      ensures Valid() && old(history) <= history
      ensures SameView(old(state), state, f) && (f !in old(state).fences ==> f !in state.fences)
    {
      Interfere(f);
      ghost var more := history[|old(history)|..];
      assert history == old(history) + more;
      LedTo(origin, old(history), old(state));
      LedTo(origin, history, state);
      RunSplits(origin, old(history), more);
      OthersKeepView(old(state), more, f);
    }

    // ---- the fence

    ghost predicate InHistory(before: seq<Event>, r: Reading)
      reads this
    {
      before <= r.events <= history && Leads(origin, r.events, r.at)
    }

    /**
     inspect: the private file, then the state row on the session that owns the lock. It succeeds exactly if the
     fence stands at both readings, still holds its lock at the second, and finds there the generation that the file
     named at the first.
     */
    method Inspect(f: Id) returns (ok: bool, ghost read: Reading, ghost asked: Reading)
      requires Valid() && f in state.fences && state.fences[f].stage.Inspecting?
      modifies this
      ensures Valid() && old(history) <= history && f in state.fences
      ensures InHistory(old(history), read) && InHistory(read.events, asked)
      ensures state.fences[f].mode == old(state).fences[f].mode && state.fences[f].closed == old(state).fences[f].closed
      ensures ok <==>
                && var mode, pinned := old(state).fences[f].mode, old(state).fences[f].pinned;
                && f in read.at.fences && !read.at.fences[f].failed && !read.at.fences[f].closed && read.at.external.Some?
                && f in asked.at.fences && !asked.at.fences[f].failed && !asked.at.fences[f].closed
                && (f in asked.at.shared || asked.at.exclusive == Some(f))
                && (if mode.ReadyMode? then asked.at.control == Ready(read.at.external.value)
                    else asked.at.control.Recovering? && asked.at.control.generation == read.at.external.value)
                && (pinned.Some? ==> pinned.value == read.at.external.value)
      ensures ok ==> && Held(state, f) && state.fences[f].pinned.Some? && state.fences[f].stage.Resting?
                     && Agrees(state.control, state.fences[f].mode, state.fences[f].pinned.value)
                     && state.fences[f].pinned == read.at.external && state.ledger == asked.at.ledger
                     && (old(state).fences[f].pinned.Some? ==> state.fences[f].pinned == old(state).fences[f].pinned)
      ensures !ok ==> state.fences[f].pinned == old(state).fences[f].pinned
      ensures old(state).fences[f].failed ==> !ok
    {
      Yield(f);
      read, asked := Reading(history, state), Reading(history, state);
      var x := state.fences[f];
      if x.failed || x.closed || state.external.None? { return false, read, asked; }
      Commit(ReadFileStep(state, f), ReadFile(f));
      Yield(f);
      asked := Reading(history, state);
      ok := Passes(state, f);
      Commit(QueryStep(state, f), Query(f));
    }

    /** openFence: one try at the lock, one inspection; a fence that does not open gives everything back. */
    method OpenFence(f: Id, mode: Mode) returns (ok: bool, ghost tried: Reading, ghost read: Reading, ghost asked: Reading)
      requires Valid() && f !in state.fences  // a fresh database session
      modifies this
      ensures Valid() && old(history) <= history
      ensures InHistory(old(history), tried) && InHistory(tried.events, read) && InHistory(read.events, asked)
      ensures ok <==>
                && tried.at.exclusive.None? && (mode.RecoveringMode? ==> tried.at.shared == {})
                && f in read.at.fences && !read.at.fences[f].failed && !read.at.fences[f].closed && read.at.external.Some?
                && f in asked.at.fences && !asked.at.fences[f].failed && !asked.at.fences[f].closed
                && (f in asked.at.shared || asked.at.exclusive == Some(f))
                && (if mode.ReadyMode? then asked.at.control == Ready(read.at.external.value)
                    else asked.at.control.Recovering? && asked.at.control.generation == read.at.external.value)
      ensures ok ==> && f in state.fences && Held(state, f) && state.fences[f].pinned.Some?
                     && state.fences[f].pinned == read.at.external
                     && Agrees(state.control, mode, state.fences[f].pinned.value)
                     && state.fences[f].stage.Resting?
      ensures !ok ==> !Held(state, f)
    {
      Yield(f);
      tried, read, asked := Reading(history, state), Reading(history, state), Reading(history, state);
      Commit(AcquireStep(state, f, mode), Acquire(f, mode));
      if f !in state.fences {
        NotHeld(f);
        return false, tried, read, asked;
      }
      ok, read, asked := Inspect(f);
      if !ok { CloseFence(f); }
    }

    lemma NotHeld(f: Id)
      requires Valid() && f !in state.fences
      ensures !Held(state, f)
    {
      Consistent();
    }

    /**
     check: an inspection again, at the generation that the fence opened with; it passes exactly if the lock is held,
     the loss of the session is not known, and the private file and the state name that generation.
     */
    method CheckFence(f: Id) returns (ok: bool, ghost read: Reading, ghost asked: Reading)
      requires Valid() && f in state.fences && state.fences[f].pinned.Some?
      requires state.fences[f].stage.Resting?  // checks of one fence run one after another
      modifies this
      ensures Valid() && old(history) <= history && f in state.fences
      ensures InHistory(old(history), read) && InHistory(read.events, asked)
      ensures ok <==>
                && var mode, pinned := old(state).fences[f].mode, old(state).fences[f].pinned;
                && f in read.at.fences && !read.at.fences[f].failed && !read.at.fences[f].closed && read.at.external.Some?
                && f in asked.at.fences && !asked.at.fences[f].failed && !asked.at.fences[f].closed
                && (f in asked.at.shared || asked.at.exclusive == Some(f))
                && (if mode.ReadyMode? then asked.at.control == Ready(read.at.external.value)
                    else asked.at.control.Recovering? && asked.at.control.generation == read.at.external.value)
                && (pinned.Some? ==> pinned.value == read.at.external.value)
      ensures state.fences[f].pinned == old(state).fences[f].pinned
      ensures state.fences[f].mode == old(state).fences[f].mode
      ensures ok ==> Held(state, f) && Agrees(state.control, state.fences[f].mode, old(state).fences[f].pinned.value)
      ensures ok && state.fences[f].mode.ReadyMode? ==> MayWork(state, f) && state.control == Ready(old(state).fences[f].pinned.value)
      ensures ok ==> state.ledger == asked.at.ledger
    {
      Yield(f);
      read, asked := Reading(history, state), Reading(history, state);
      var x := state.fences[f];
      if x.failed || x.closed { return false, read, asked; }
      Commit(SetFence(state, f, x.(stage := Inspecting)), StartCheck(f));
      ok, read, asked := Inspect(f);
      if ok { OnlyReadyIsShared(f); }
    }

    /** What the API and the worker do before each request and job: a check, and only then a transaction begins. */
    method StartMutation(f: Id, m: Id, c: Change) returns (started: bool, ghost read: Reading, ghost asked: Reading)
      requires Valid() && f in state.fences && state.fences[f].pinned.Some? && state.fences[f].mode.ReadyMode?
      requires state.fences[f].stage.Resting?
      modifies this
      ensures Valid() && old(history) <= history
      ensures InHistory(old(history), read) && InHistory(read.events, asked)
      ensures started <==>
                && m !in asked.at.ledger.pending
                && var pinned := old(state).fences[f].pinned;
                && f in read.at.fences && !read.at.fences[f].failed && !read.at.fences[f].closed && read.at.external.Some?
                && f in asked.at.fences && !asked.at.fences[f].failed && !asked.at.fences[f].closed
                && (f in asked.at.shared || asked.at.exclusive == Some(f))
                && asked.at.control == Ready(read.at.external.value)
                && (pinned.Some? ==> pinned.value == read.at.external.value)
      ensures started ==> && m in state.ledger.pending && state.ledger.pending[m] == Pending(Some(f), c)
                          && MayWork(state, f) && state.control == Ready(old(state).fences[f].pinned.value)
    {
      started, read, asked := CheckFence(f);
      if !started || m in state.ledger.pending { return false, read, asked; }
      Commit(state.(ledger := state.ledger.(pending := state.ledger.pending[m := Pending(Some(f), c)])), Start(m, Some(f), c));
    }

    /** The transaction runs on another session: nothing asks the fence again when it commits. */
    method FinishMutation(m: Id)
      requires Valid() && m in state.ledger.pending
      modifies this
      ensures Valid() && old(history) <= history
      ensures state == old(state).(ledger := Committed(old(state).ledger, m, old(state).control.Recovering?))
    {
      Commit(state.(ledger := Committed(state.ledger, m, state.control.Recovering?)), Event.Commit(m));
    }

    lemma OnlyReadyIsShared(f: Id)
      requires Valid() && f in state.fences && Held(state, f)
      ensures state.fences[f].mode.ReadyMode? <==> f in state.shared
    {
      Consistent();
      assert FenceOk(state, f);
    }

    /** close: the lock is given back, or goes with its destroyed session; it is never held again. */
    method CloseFence(f: Id)
      requires Valid() && f in state.fences
      modifies this
      ensures Valid() && old(history) <= history
      ensures f in state.fences && state.fences[f].closed && !Held(state, f)
    {
      Commit(SetFence(state, f, state.fences[f].(closed := true)), StartClose(f));
      Yield(f);
      Consistent();
      assert state.exclusive == Some(f) ==> f !in state.shared;
      Commit(Unlock(state, f), FinishClose(f));
    }

    // ---- decisions

    /** The map that a closure fills: rows, then the allocation's server, then each effect's resource. */
    method RequiredResources(w: Work) returns (required: set<Ref>)
      ensures required == Required(w)
    {
      required := w.rows.Keys;
      if w.serverId.Some? { required := required + {Ref(ServerKind, w.serverId.value)}; }
      ghost var base := required;
      var i := 0;
      while i < |w.history|
        invariant 0 <= i <= |w.history|
        invariant required == base + set k | 0 <= k < i && RefOf(w.history[k]).Some? :: RefOf(w.history[k]).value
      {
        var r := RefOf(w.history[i]);
        if r.Some? { required := required + {r.value}; }
        i := i + 1;
      }
    }

    method AnyPending(w: Work) returns (pending: bool)
      ensures pending <==> HasPending(w)
    {
      var i := 0;
      while i < |w.history|
        invariant 0 <= i <= |w.history| && forall k :: 0 <= k < i ==> !w.history[k].pending
      {
        if w.history[i].pending { return true; }
        i := i + 1;
      }
      return false;
    }

    method OtherPending(id: Id) returns (pending: bool)
      requires id in state.ledger.work
      ensures pending <==> !OthersQuiet(state, id)
    {
      var rest := state.ledger.work;
      while rest != map[]
        invariant forall o :: o in rest ==> o in state.ledger.work && rest[o] == state.ledger.work[o]
        invariant forall o :: o in state.ledger.work && o !in rest && o != id && state.ledger.work[o].machine == state.ledger.work[id].machine ==>
                    !HasPending(state.ledger.work[o])
        decreases |rest|
      {
        var o :| o in rest;
        if o != id && rest[o].machine == state.ledger.work[id].machine {
          var p := AnyPending(rest[o]);
          if p { return true; }
        }
        rest := rest - {o};
      }
      return false;
    }

    method Duplicated(s: seq<Ref>) returns (d: bool)
      ensures d <==> !NoDuplicates(s)
    {
      var seen: set<Ref> := {};
      var i := 0;
      while i < |s|
        invariant 0 <= i <= |s|
        invariant forall x :: x in seen <==> exists k :: 0 <= k < i && s[k] == x
        invariant NoDuplicates(s[..i])
      {
        if s[i] in seen { return true; }
        seen := seen + {s[i]};
        i := i + 1;
      }
      assert s[..i] == s;
      return false;
    }

    method MayClose(r: Request, v: Evidence) returns (refused: Option<Refusal>)
      requires r.CloseOperation?
      ensures refused.None? <==> Closable(state, r, v)
      ensures refused != Some(Conflict) && refused != Some(WrongGeneration) && refused != Some(LockBusy)
    {
      if r.operation !in state.ledger.work { return Some(NotPermitted); }
      var w := state.ledger.work[r.operation];
      if w != r.expected { return Some(VersionConflict); }
      if w.terminal || !w.live || !w.ownProvider { return Some(NotPermitted); }
      var other := OtherPending(r.operation);
      if other { return Some(StillBusy); }
      var required := RequiredResources(w);
      var duplicated := Duplicated(r.resources);
      if duplicated || exists x :: x in required && x !in r.resources { return Some(NotPermitted); }
      if v.labelled { return Some(StillBusy); }
      if exists x :: x in r.resources && x in v.present { return Some(StillBusy); }
      return None;
    }

    /** applyControlRecovery: replay, refuse, or commit one decision whole. */
    method Decide(r: Request, v: Evidence) returns (result: Result<bool, Refusal>)
      requires Valid()
      requires r.Resume? ==> Shows(state, v.database)  // the inspection reads in the same transaction
      modifies this
      ensures Valid() && old(history) <= history
      ensures state == DecideStep(old(state), r, v)
      ensures result == Ok(false) <==> Commits(old(state), r, v)
      ensures result == Ok(true) <==>
                Free(old(state)) && v.file.0 == Some(r.generation)
                && r.id in old(state).receipts && old(state).receipts[r.id] == r
      ensures result.Err? ==> state == old(state)
      ensures v.file.0 != Some(r.generation) ==> result == Err(WrongGeneration)
      ensures v.file.0 == Some(r.generation) && (old(state).shared != {} || old(state).exclusive.Some?) ==> result == Err(LockBusy)
      ensures result == Err(Conflict) <==>
                && v.file.0 == Some(r.generation) && old(state).shared == {} && old(state).exclusive.None?
                && r.id in old(state).receipts && old(state).receipts[r.id] != r
    {
      if v.file.0 != Some(r.generation) { return Err(WrongGeneration); }
      if state.shared != {} || state.exclusive.Some? { return Err(LockBusy); }
      if r.id in state.receipts {
        return if state.receipts[r.id] == r then Ok(true) else Err(Conflict);
      }
      if v.file.1 != Some(r.generation) { return Err(WrongGeneration); }
      var refused := Judge(r, v);
      if refused.Some? { return Err(refused.value); }
      if v.file.2 != Some(r.generation) { return Err(WrongGeneration); }
      assert Commits(state, r, v);
      var next := Effected(state, r);
      Commit(next.(receipts := state.receipts[r.id := r]), Event.Decide(r, v));
      return Ok(false);
    }

    method Judge(r: Request, v: Evidence) returns (refused: Option<Refusal>)
      ensures refused.None? <==> Permitted(state, r, v)
      ensures refused != Some(Conflict) && refused != Some(WrongGeneration) && refused != Some(LockBusy)
    {
      match r
      case Initialize(_, _) =>
        return if !state.control.Absent? || state.ledger.occupied then Some(NotPermitted) else None;
      case Begin(_, generation, _) =>
        if state.control.Recovering? { return Some(VersionConflict); }
        return if state.control.Ready? && state.control.generation == generation then Some(VersionConflict) else None;
      case CloseOperation(_, generation, recovery, _, _, _) =>
        if state.control != Recovering(generation, recovery) { return Some(VersionConflict); }
        refused := MayClose(r, v);
      case Resume(_, generation, recovery, expectedState, expectedInventory) =>
        if state.control != Recovering(generation, recovery) { return Some(VersionConflict); }
        var blockers := Inspection.Inspect(v.database, v.world);
        if blockers != [] { return Some(StillBusy); }
        return if v.stateDigest != expectedState || v.inventoryDigest != expectedInventory then Some(VersionConflict) else None;
    }
  }
}
