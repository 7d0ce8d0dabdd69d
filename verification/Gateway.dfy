/**
 The access gateway's leases against the control plane's authority. Instants on the gateway's
 monotonic clock and on the control plane's clock are whole microseconds; the clocks run at the same
 rate and differ by an arbitrary offset. The control plane reads its clock rounded down to a
 millisecond, as databaseTime and loadAuthority do.
 */
module Gateway {
  import opened Prelude

  const MS := 1_000
  /** An authority check keeps a connection alive for at most fifteen seconds. */
  const CHECK_LEASE := 15_000 * MS

  function FloorMs(instant: int): (r: int)
    ensures r <= instant < r + MS
  {
    instant - instant % MS
  }

  /**
   What the control plane holds for one session: an absolute deadline (the earlier of the session's
   hard deadline and the credential's expiry, a whole millisecond) and the instant, if any, at which
   a revocation commits. Its clock reads the gateway's clock plus `offset`.
   */
  datatype Control = Control(deadline: int, revokedAt: Option<int>, offset: int)

  /** A check evaluated at a gateway instant may answer with this remaining lifetime. */
  predicate MayLease(control: Control, evaluated: int, remaining: int) {
    var now := evaluated + control.offset;
    && (control.revokedAt.Some? ==> now < control.revokedAt.value)
    && remaining == control.deadline - FloorMs(now)
    && remaining > 0
  }

  /** A reply that grants: sent at `started`, evaluated between that and its arrival. */
  predicate Granting(control: Control, started: int, evaluated: int, arrived: int, remaining: int) {
    started <= evaluated <= arrived && MayLease(control, evaluated, remaining)
  }

  // ---- One gateway connection as a value ----

  datatype Connection = Connection(hardDeadline: int, due: int)

  /** refresh: the hard deadline only shrinks, and the timer is set at most fifteen seconds ahead. */
  function Refreshed(hardDeadline: int, remaining: int, started: int): Connection {
    var hard := Min(hardDeadline, started + remaining);
    Connection(hard, Min(hard, started + CHECK_LEASE))
  }

  datatype Phase = Waiting | Open(connection: Connection) | Closed

  datatype Event =
    /** claim and first check granted, target connected, upgrade completed at `now` */
    | Upgraded(claimStarted: int, claimEvaluated: int, claimRemaining: int,
               checkStarted: int, checkEvaluated: int, checkRemaining: int, now: int)
    /** a heartbeat check of this connection was answered with a lease */
    | Checked(started: int, evaluated: int, remaining: int, now: int)
    /** a heartbeat check was answered without this connection's lease */
    | Refused(now: int)
    /** a check was lost, failed or is late, or nothing happened */
    | Passed(now: int)
    /** the deadline timer fired, or the connection ended for any other reason */
    | Stopped(now: int)

  datatype Run = Run(phase: Phase, now: int)

  /**
   Events that can happen. Timers fire on time: while a connection is open nothing is observed after
   its timer is due. A check that arrives is one the control plane could have given.
   */
  predicate Possible(control: Control, r: Run, e: Event) {
    && r.now <= e.now
    && (r.phase.Open? ==> e.now <= r.phase.connection.due)
    && match e
       case Upgraded(claimStarted, claimEvaluated, claimRemaining, checkStarted, checkEvaluated, checkRemaining, now) =>
         && r.phase.Waiting?
         && Granting(control, claimStarted, claimEvaluated, checkStarted, claimRemaining)
         && Granting(control, checkStarted, checkEvaluated, now, checkRemaining)
       case Checked(started, evaluated, remaining, now) =>
         r.phase.Open? && Granting(control, started, evaluated, now, remaining)
       case Refused(now) => r.phase.Open?
       case Passed(now) => true
       case Stopped(now) => r.phase.Open?
  }

  function Next(r: Run, e: Event): Run {
    match e
    case Upgraded(claimStarted, _, claimRemaining, checkStarted, _, checkRemaining, now) =>
      var hard := Min(claimStarted + claimRemaining, checkStarted + checkRemaining);
      Run(Settle(Refreshed(hard, checkRemaining, checkStarted), now), now)
    case Checked(started, _, remaining, now) =>
      if r.phase.Open? then Run(Settle(Refreshed(r.phase.connection.hardDeadline, remaining, started), now), now)
      else Run(r.phase, now)
    case Refused(now) => Run(Closed, now)
    case Passed(now) => Run(r.phase, now)
    case Stopped(now) => Run(Closed, now)
  }

  /** A deadline that has already passed stops the connection at once. */
  function Settle(c: Connection, now: int): Phase {
    if c.due <= now then Closed else Open(c)
  }

  ghost predicate Reachable(control: Control, r: Run, events: seq<Event>, end: Run)
    decreases |events|
  {
    if events == [] then end == r
    else Possible(control, r, events[0]) && Reachable(control, Next(r, events[0]), events[1..], end)
  }

  // ---- Safety of every run ----

  ghost predicate Bounded(control: Control, r: Run) {
    r.phase.Open? ==>
      && r.now <= r.phase.connection.due
      && r.phase.connection.due + control.offset < control.deadline + MS
      && (control.revokedAt.Some? ==> r.phase.connection.due + control.offset < control.revokedAt.value + CHECK_LEASE)
  }

  lemma GrantBoundsTimer(control: Control, started: int, evaluated: int, arrived: int, remaining: int, hard: int)
    requires Granting(control, started, evaluated, arrived, remaining)
    ensures var c := Refreshed(hard, remaining, started);
            && c.due + control.offset < control.deadline + MS
            && (control.revokedAt.Some? ==> c.due + control.offset < control.revokedAt.value + CHECK_LEASE)
  {
  }

  lemma {:induction false} RunsStayBounded(control: Control, r: Run, events: seq<Event>, end: Run)
    requires Bounded(control, r) && Reachable(control, r, events, end)
    ensures Bounded(control, end)
    decreases |events|
  {
    if events != [] {
      match events[0] {
        case Upgraded(claimStarted, _, claimRemaining, checkStarted, checkEvaluated, checkRemaining, now) =>
          GrantBoundsTimer(control, checkStarted, checkEvaluated, now, checkRemaining,
            Min(claimStarted + claimRemaining, checkStarted + checkRemaining));
        case Checked(started, evaluated, remaining, now) =>
          GrantBoundsTimer(control, started, evaluated, now, remaining, r.phase.connection.hardDeadline);
        case _ =>
      }
      RunsStayBounded(control, Next(r, events[0]), events[1..], end);
    }
  }

  /**
   Whatever the clock offset and whichever checks are lost, delayed or refused: while a connection is
   open the control clock is less than one millisecond past the session's deadline, and less than
   fifteen seconds past a committed revocation.
   */
  lemma OpenOnlyUnderAuthority(control: Control, start: int, events: seq<Event>, end: Run)
    requires Reachable(control, Run(Waiting, start), events, end) && end.phase.Open?
    ensures end.now + control.offset < control.deadline + 1_000
    ensures control.revokedAt.Some? ==> end.now + control.offset < control.revokedAt.value + 15_000_000
  {
    RunsStayBounded(control, Run(Waiting, start), events, end);
  }

  /** A lease ends by the session's deadline exactly when its check was not sent after the last tick read. */
  lemma LeaseWithinDeadlineExactly(control: Control, started: int, evaluated: int, arrived: int, remaining: int)
    requires Granting(control, started, evaluated, arrived, remaining)
    ensures started + remaining + control.offset <= control.deadline
       <==> started + control.offset <= FloorMs(evaluated + control.offset)
  {
  }

  /** Some lease of the run, the claim's or a check's, was sent no later than the tick it read. */
  predicate TimelyLease(control: Control, events: seq<Event>)
    decreases |events|
  {
    events != [] && (TimelyLease(control, events[1..]) || match events[0]
      case Upgraded(claimStarted, claimEvaluated, _, checkStarted, checkEvaluated, _, _) =>
        || claimStarted + control.offset <= FloorMs(claimEvaluated + control.offset)
        || checkStarted + control.offset <= FloorMs(checkEvaluated + control.offset)
      case Checked(started, evaluated, _, _) => started + control.offset <= FloorMs(evaluated + control.offset)
      case _ => false)
  }

  predicate HardWithin(control: Control, r: Run) {
    r.phase.Open? && r.phase.connection.hardDeadline + control.offset <= control.deadline
  }

  /** A connection's hard deadline respects the session's exactly when one of its leases was timely. */
  lemma {:induction false} HardDeadlineExactly(control: Control, r: Run, events: seq<Event>, end: Run)
    requires Reachable(control, r, events, end) && end.phase.Open?
    ensures HardWithin(control, end) <==> HardWithin(control, r) || TimelyLease(control, events)
    decreases |events|
  {
    if events != [] {
      var next := Next(r, events[0]);
      HardDeadlineExactly(control, next, events[1..], end);
      if next.phase.Closed? { ClosedStaysClosed(control, next, events[1..], end); }
    }
  }

  lemma {:induction false} ClosedStaysClosed(control: Control, r: Run, events: seq<Event>, end: Run)
    requires r.phase.Closed? && Reachable(control, r, events, end)
    ensures end.phase.Closed?
    decreases |events|
  {
    if events != [] { ClosedStaysClosed(control, Next(r, events[0]), events[1..], end); }
  }

  // ---- When a connection outlives its deadline ----

  /** When the check was sent whose lease was the last to arm the timer. */
  function LatestSent(events: seq<Event>, before: int): int
    decreases |events|
  {
    if events == [] then before
    else LatestSent(events[1..], match events[0]
      case Upgraded(_, _, _, checkStarted, _, _, _) => checkStarted
      case Checked(started, _, _, _) => started
      case _ => before)
  }

  predicate ArmedAt(r: Run, sent: int) {
    r.phase.Open? ==> r.phase.connection.due == Min(r.phase.connection.hardDeadline, sent + CHECK_LEASE)
  }

  /** The timer always stands at the hard deadline or fifteen seconds after the last answered check was sent. */
  lemma {:induction false} TimerIsArmed(control: Control, r: Run, events: seq<Event>, end: Run, sent: int)
    requires Reachable(control, r, events, end) && ArmedAt(r, sent)
    ensures ArmedAt(end, LatestSent(events, sent))
    decreases |events|
  {
    if events != [] {
      var next := Next(r, events[0]);
      var armed := match events[0]
        case Upgraded(_, _, _, checkStarted, _, _, _) => checkStarted
        case Checked(started, _, _, _) => started
        case _ => sent;
      TimerIsArmed(control, next, events[1..], end, armed);
    }
  }

  /** The connection can still be observed open after the control plane's deadline. */
  ghost predicate CanOutlive(control: Control, end: Run) {
    exists later :: Possible(control, end, Passed(later)) && later + control.offset > control.deadline
  }

  /**
   An open connection can outlive its session's deadline exactly when none of its leases was sent by
   the tick it read and the last check was sent less than fifteen seconds before the deadline.
   */
  lemma OutlivesExactly(control: Control, start: int, events: seq<Event>, end: Run)
    requires Reachable(control, Run(Waiting, start), events, end) && end.phase.Open?
    ensures CanOutlive(control, end) <==> end.phase.connection.due + control.offset > control.deadline
    ensures CanOutlive(control, end)
       <==> !TimelyLease(control, events)
            && LatestSent(events, start) + 15_000_000 + control.offset > control.deadline
  {
    RunsStayBounded(control, Run(Waiting, start), events, end);
    HardDeadlineExactly(control, Run(Waiting, start), events, end);
    TimerIsArmed(control, Run(Waiting, start), events, end, start);
    assert Possible(control, end, Passed(end.phase.connection.due));
  }

  /** A run whose claim and check are both answered at `at`, observed when its timer is due. */
  lemma OneLeaseRun(control: Control, at: int, remaining: int) returns (events: seq<Event>, end: Run)
    requires MayLease(control, at, remaining)
    ensures Reachable(control, Run(Waiting, at), events, end)
    ensures end.phase.Open? && end.now == at + Min(remaining, CHECK_LEASE)
  {
    var upgrade := Upgraded(at, at, remaining, at, at, remaining, at);
    var first := Next(Run(Waiting, at), upgrade);
    var later := Passed(at + Min(remaining, CHECK_LEASE));
    events, end := [upgrade, later], Next(first, later);
    assert events[1..] == [later] && events[1..][1..] == [];
    assert Reachable(control, end, [], end);
    assert Reachable(control, first, [later], end);
  }

  /** Every overrun below a millisecond occurs, whatever the deadline and the clock offset. */
  lemma DeadlineBoundIsTight(control: Control, overrun: int) returns (start: int, events: seq<Event>, end: Run)
    requires control.deadline % 1_000 == 0 && 0 < overrun < 1_000
    requires control.revokedAt.Some? ==> control.deadline <= control.revokedAt.value
    ensures Reachable(control, Run(Waiting, start), events, end)
    ensures end.phase.Open? && end.now + control.offset == control.deadline + overrun
  {
    start := control.deadline - MS + overrun - control.offset;
    assert FloorMs(start + control.offset) == control.deadline - MS;
    events, end := OneLeaseRun(control, start, MS);
  }

  /** A check answered just before a revocation keeps its connection open for the whole fifteen seconds. */
  lemma RevocationBoundIsTight(control: Control) returns (start: int, events: seq<Event>, end: Run)
    requires control.revokedAt.Some? && control.revokedAt.value + 15_000_000 <= control.deadline
    ensures Reachable(control, Run(Waiting, start), events, end)
    ensures end.phase.Open? && end.now + control.offset == control.revokedAt.value + 15_000_000 - 1
  {
    start := control.revokedAt.value - 1 - control.offset;
    events, end := OneLeaseRun(control, start, control.deadline - FloorMs(start + control.offset));
  }

  // ---- The gateway process ----

  datatype CloseReason = AuthorizationChanged | Expired | ClientClosed | TransportFailed | GatewayUnavailable
  datatype Lease = Lease(session: Id, connection: Id, remaining: int)
  datatype Live = Live(session: Id, state: Connection)
  /** A reply that never arrives, or arrives as an error, is None. */
  type Reply = Option<seq<Lease>>

  /** The lease a reply holds for a connection: the last one wins, as in a Map built from the list. */
  function LeaseFor(leases: seq<Lease>, connection: Id): Option<Lease> {
    if leases == [] then None
    else if leases[|leases| - 1].connection == connection then Some(leases[|leases| - 1])
    else LeaseFor(leases[..|leases| - 1], connection)
  }

  lemma {:induction false} LeaseForIsLast(leases: seq<Lease>, connection: Id)
    ensures LeaseFor(leases, connection).None? <==> forall i :: 0 <= i < |leases| ==> leases[i].connection != connection
    ensures forall i :: 0 <= i < |leases| && leases[i].connection == connection
              && (forall j :: i < j < |leases| ==> leases[j].connection != connection)
              ==> LeaseFor(leases, connection) == Some(leases[i])
  {
    if leases != [] && leases[|leases| - 1].connection != connection {
      var before := leases[..|leases| - 1];
      LeaseForIsLast(before, connection);
      assert forall i :: 0 <= i < |before| ==> leases[i] == before[i];
    }
  }

  /** What one answered check does to one open connection. */
  function AfterCheck(live: Live, connection: Id, leases: seq<Lease>, started: int, now: int): Option<Live> {
    match LeaseFor(leases, connection)
    case None => None
    case Some(lease) =>
      if lease.session != live.session then None
      else
        var c := Refreshed(live.state.hardDeadline, lease.remaining, started);
        if c.due <= now then None else Some(live.(state := c))
  }

  /** The connection, if it was still open, took exactly this reply. */
  ghost predicate Answered(before: map<Id, Live>, after: map<Id, Live>, id: Id, leases: seq<Lease>, started: int, now: int) {
    id in before ==>
      var taken := AfterCheck(before[id], id, leases, started, now);
      if taken.Some? then id in after && after[id] == taken.value else id !in after
  }

  /** A reply without a lease for an open connection ends it. */
  lemma UnansweredStops(before: map<Id, Live>, after: map<Id, Live>, id: Id, leases: seq<Lease>, started: int, now: int)
    requires id in before && forall j :: 0 <= j < |leases| ==> leases[j].connection != id
    ensures Answered(before, after, id, leases, started, now) <==> id !in after
  {
    LeaseForIsLast(leases, id);
  }

  /**
   A connection takes the last lease under its identifier: it stays, with a hard deadline that only shrank and a timer
   at most fifteen seconds after the check was sent, exactly if that lease is its own session's and not yet over.
   */
  lemma LastLeaseDecides(before: map<Id, Live>, after: map<Id, Live>, id: Id, leases: seq<Lease>, started: int, now: int, i: nat)
    requires id in before && i < |leases| && leases[i].connection == id
    requires forall j :: i < j < |leases| ==> leases[j].connection != id
    ensures Answered(before, after, id, leases, started, now) <==>
      if leases[i].session == before[id].session
         && now < before[id].state.hardDeadline && now < started + leases[i].remaining && now < started + 15_000_000
      then
        && id in after && after[id].session == before[id].session
        && after[id].state.hardDeadline == Min(before[id].state.hardDeadline, started + leases[i].remaining)
        && after[id].state.due == Min(after[id].state.hardDeadline, started + 15_000_000)
      else id !in after
  {
    LeaseForIsLast(leases, id);
  }

  ghost predicate Untouched(before: map<Id, Live>, after: map<Id, Live>, id: Id) {
    && (id in before <==> id in after)
    && (id in before ==> after[id] == before[id])
  }

  /** Whoever is still open took exactly this reply. */
  ghost predicate Survived(before: map<Id, Live>, after: map<Id, Live>, id: Id, leases: seq<Lease>, started: int, now: int) {
    id in after ==> id in before && AfterCheck(before[id], id, leases, started, now) == Some(after[id])
  }

  /** Whoever is still open is as it was. */
  ghost predicate Unextended(before: map<Id, Live>, after: map<Id, Live>, id: Id) {
    id in after ==> id in before && after[id] == before[id]
  }

  /** A processed heartbeat reply is one event of that connection's run. */
  lemma CheckIsOneEvent(live: Live, connection: Id, leases: seq<Lease>, started: int, evaluated: int, now: int)
    ensures var after := AfterCheck(live, connection, leases, started, now);
            var lease := LeaseFor(leases, connection);
            var e := if lease.Some? && lease.value.session == live.session
                     then Checked(started, evaluated, lease.value.remaining, now) else Refused(now);
            Next(Run(Open(live.state), started), e).phase == if after.Some? then Open(after.value.state) else Closed
  {
  }

  /** What else happens while a heartbeat call is under way. */
  datatype Other =
    /** a timer, the client, the target or a byte limit ended a connection */
    | Ended(connection: Id, reason: CloseReason)
    /** an upgrade put a new connection, under a fresh identifier, into the map */
    | Arrived(connection: Id, live: Live)
    /** another upgrade took its place, or gave it back */
    | Began
    | Settled

  predicate Ends(others: seq<Other>, id: Id) {
    others != [] && var last := others[|others| - 1];
      Ends(others[..|others| - 1], id) || (last.Ended? && last.connection == id)
  }

  predicate Brings(others: seq<Other>, id: Id) {
    others != [] && var last := others[|others| - 1];
      Brings(others[..|others| - 1], id) || (last.Arrived? && last.connection == id)
  }

  /** The outcome of an upgrade whose claim and check were answered. */
  function Upgrading(claimStarted: int, claim: int, checkStarted: int, remaining: int, now: int): Phase {
    Next(Run(Waiting, claimStarted),
      Upgraded(claimStarted, claimStarted, claim, checkStarted, checkStarted, remaining, now)).phase
  }

  predicate Offers(reply: Reply, session: Id, connection: Id) {
    reply.Some? && exists i :: 0 <= i < |reply.value| && reply.value[i].session == session
                               && reply.value[i].connection == connection
  }

  /** No step of the rest of the process concerns this connection. */
  ghost predicate Quiet(others: seq<seq<Other>>, id: Id) {
    forall b :: 0 <= b < |others| ==> !Ends(others[b], id) && !Brings(others[b], id)
  }

  /** Where one connection of a heartbeat's snapshot stands after the batches before `offset`. */
  ghost predicate Taken(before: map<Id, Live>, after: map<Id, Live>, id: Id, i: nat, offset: nat,
                        replies: seq<Reply>, others: seq<seq<Other>>, nows: seq<int>, started: int)
    requires i / 100 < |replies| == |nows|
  {
    var undisturbed := forall b :: 0 <= b < |others| ==> !Ends(others[b], id);
    if i < offset then
      && replies[i / 100].Some?
      && Survived(before, after, id, replies[i / 100].value, started, nows[i / 100])
      && (undisturbed ==> Answered(before, after, id, replies[i / 100].value, started, nows[i / 100]))
    else
      Unextended(before, after, id) && (undisturbed ==> Untouched(before, after, id))
  }

  lemma TakenLasts(before: map<Id, Live>, start: map<Id, Live>, mid: map<Id, Live>, id: Id, i: nat, offset: nat,
                   replies: seq<Reply>, others: seq<seq<Other>>, nows: seq<int>, started: int, b: nat)
    requires i / 100 < |replies| == |nows| && b < |others|
    requires Taken(before, start, id, i, offset, replies, others, nows, started)
    requires Unextended(start, mid, id) && (!Ends(others[b], id) ==> Untouched(start, mid, id))
    ensures Taken(before, mid, id, i, offset, replies, others, nows, started)
  {
  }

  lemma TakenNow(before: map<Id, Live>, mid: map<Id, Live>, after: map<Id, Live>, id: Id, i: nat, offset: nat,
                 replies: seq<Reply>, others: seq<seq<Other>>, nows: seq<int>, started: int)
    requires i / 100 < |replies| == |nows| && offset <= i < offset + 100 && replies[i / 100].Some?
    requires Taken(before, mid, id, i, offset, replies, others, nows, started)
    requires Answered(mid, after, id, replies[i / 100].value, started, nows[i / 100]) && (id in after ==> id in mid)
    ensures Taken(before, after, id, i, offset + 100, replies, others, nows, started)
  {
  }

  lemma TakenBefore(before: map<Id, Live>, mid: map<Id, Live>, after: map<Id, Live>, id: Id, i: nat, offset: nat,
                    replies: seq<Reply>, others: seq<seq<Other>>, nows: seq<int>, started: int)
    requires i / 100 < |replies| == |nows| && !(offset <= i < offset + 100)
    requires Taken(before, mid, id, i, offset, replies, others, nows, started)
    requires Untouched(mid, after, id)
    ensures Taken(before, after, id, i, offset + 100, replies, others, nows, started)
  {
  }

  ghost predicate AllTaken(before: map<Id, Live>, after: map<Id, Live>, snapshot: seq<Id>, offset: nat,
                           replies: seq<Reply>, others: seq<seq<Other>>, nows: seq<int>, started: int)
    requires |replies| == |nows| == (|snapshot| + 99) / 100
  {
    forall i :: 0 <= i < |snapshot| ==> Taken(before, after, snapshot[i], i, offset, replies, others, nows, started)
  }

  lemma AllTakenLasts(before: map<Id, Live>, start: map<Id, Live>, mid: map<Id, Live>, snapshot: seq<Id>, offset: nat,
                      replies: seq<Reply>, others: seq<seq<Other>>, nows: seq<int>, started: int, b: nat)
    requires |replies| == |nows| == (|snapshot| + 99) / 100 && b < |others|
    requires AllTaken(before, start, snapshot, offset, replies, others, nows, started)
    requires forall i :: 0 <= i < |snapshot| ==> !Brings(others[b], snapshot[i])
    requires forall id :: !Brings(others[b], id) ==> Unextended(start, mid, id)
    requires forall id :: !Ends(others[b], id) && !Brings(others[b], id) ==> Untouched(start, mid, id)
    ensures AllTaken(before, mid, snapshot, offset, replies, others, nows, started)
  {
    forall i | 0 <= i < |snapshot|
      ensures Taken(before, mid, snapshot[i], i, offset, replies, others, nows, started)
    {
      TakenLasts(before, start, mid, snapshot[i], i, offset, replies, others, nows, started, b);
    }
  }

  class AccessGateway {
    const maximumConnections: nat
    var connections: map<Id, Live>
    var pending: nat
    var checking: bool
    /** close reports sent to the control plane */
    var reports: seq<(Id, CloseReason)>
    /** upgrades whose outcome is known but whose place `pending` still counts, until their finally block runs */
    var settling: nat

    /** Upgrades under way and open connections share the places there are. */
    ghost predicate Valid()
      reads this
    {
      settling <= pending && |connections| + pending <= maximumConnections + settling
    }

    lemma OpenWithinLimit()
      requires Valid()
      ensures |connections| <= maximumConnections
    {
    }

    constructor (maximumConnections: nat)
      ensures Valid() && this.maximumConnections == maximumConnections
      ensures connections == map[] && pending == 0 && !checking && reports == []
    {
      this.maximumConnections := maximumConnections;
      connections, pending, checking, reports, settling := map[], 0, false, [], 0;
    }

    method Stop(connection: Id, reason: CloseReason)
      requires Valid()
      modifies this`connections, this`reports
      ensures Valid()
      ensures connections == old(connections) - {connection}
      ensures reports == old(reports) + if connection in old(connections) then [(connection, reason)] else []
    {
      if connection !in connections { return; }
      connections := connections - {connection};
      reports := reports + [(connection, reason)];
    }

    method Refresh(connection: Id, remaining: int, started: int, now: int)
      requires Valid()
      modifies this`connections, this`reports
      ensures Valid()
      ensures connection !in old(connections) ==> connections == old(connections)
      ensures connection in old(connections) ==>
                var hard := Min(old(connections)[connection].state.hardDeadline, started + remaining);
                connections ==
                  if hard <= now || started + 15_000_000 <= now then old(connections) - {connection}
                  else old(connections)[connection :=
                    old(connections)[connection].(state := Connection(hard, Min(hard, started + 15_000_000)))]
      ensures reports == old(reports) + if connection in old(connections) && connection !in connections
                                        then [(connection, Expired)] else []
    {
      if connection !in connections { return; }
      var hard := Min(connections[connection].state.hardDeadline, started + remaining);
      var deadline := Min(hard, started + CHECK_LEASE);
      if deadline <= now {
        Stop(connection, Expired);
        return;
      }
      connections := connections[connection := connections[connection].(state := Connection(hard, deadline))];
    }

    /** The upgrade request before its first await: it takes a place or is refused. */
    method BeginUpgrade() returns (taken: bool)
      requires Valid()
      modifies this`pending
      ensures Valid()
      ensures taken <==> old(pending) + |connections| < maximumConnections
      ensures pending == old(pending) + if taken then 1 else 0
    {
      taken := pending + |connections| < maximumConnections;
      if taken { pending := pending + 1; }
    }

    /**
     The upgrade after its replies, for a request that took a place. Any other step may have run since.
     None stands for a lost or failed call. The connection opens exactly if one run of the lease
     protocol from claim to upgrade opens it.
     */
    method Establish(session: Id, connection: Id, claimStarted: int, claim: Option<int>,
                     checkStarted: int, check: Reply, decided: int, targetReached: bool, now: int)
      returns (admitted: bool)
      requires Valid() && settling < pending && decided <= now
      requires connection !in connections  // a fresh random identifier
      modifies this`connections, this`reports, this`settling
      ensures Valid() && settling == old(settling) + 1
      ensures admitted <==>
                && claim.Some? && Offers(check, session, connection) && targetReached
                && now < claimStarted + claim.value && now < checkStarted + 15_000_000
                && now < checkStarted + FirstLease(check.value, session, connection).remaining
      ensures admitted <==>
                && claim.Some? && Offers(check, session, connection) && targetReached
                && Upgrading(claimStarted, claim.value, checkStarted,
                             FirstLease(check.value, session, connection).remaining, now).Open?
      ensures !admitted ==> connections == old(connections)
      ensures admitted ==>
                && var hard := Min(claimStarted + claim.value,
                                   checkStarted + FirstLease(check.value, session, connection).remaining);
                connections == old(connections)[connection :=
                  Live(session, Connection(hard, Min(hard, checkStarted + 15_000_000)))]
      ensures reports == old(reports) +
                if claim.None? || check.None? || admitted then []
                else if !Offers(check, session, connection) then [(connection, AuthorizationChanged)]
                else if decided >= claimStarted + claim.value || decided >= checkStarted + 15_000_000
                     || decided >= checkStarted + FirstLease(check.value, session, connection).remaining
                then [(connection, Expired)]
                else if !targetReached then [(connection, TransportFailed)]
                else [(connection, Expired)]
    {
      settling := settling + 1;
      if claim.None? { return false; }
      var hardDeadline := claimStarted + claim.value;
      if check.None? { return false; }
      var i := 0;
      while i < |check.value| && !(check.value[i].session == session && check.value[i].connection == connection)
        invariant 0 <= i <= |check.value|
        invariant forall j :: 0 <= j < i ==>
                    !(check.value[j].session == session && check.value[j].connection == connection)
      {
        i := i + 1;
      }
      if i == |check.value| {
        reports := reports + [(connection, AuthorizationChanged)];
        return false;
      }
      FirstLeaseAt(check.value, session, connection, i);
      var lease := check.value[i];
      hardDeadline := Min(hardDeadline, checkStarted + lease.remaining);
      if decided >= Min(hardDeadline, checkStarted + CHECK_LEASE) {
        reports := reports + [(connection, Expired)];
        return false;
      }
      if !targetReached {
        reports := reports + [(connection, TransportFailed)];
        return false;
      }
      connections := connections[connection := Live(session, Connection(hardDeadline, hardDeadline))];
      Refresh(connection, lease.remaining, checkStarted, now);
      admitted := connection in connections;
    }

    /** The end of an upgrade gives its place back, whatever became of it and of its connection. */
    method SettleUpgrade()
      requires Valid() && settling > 0
      modifies this`pending, this`settling
      ensures Valid() && pending == old(pending) - 1 && settling == old(settling) - 1
    {
      pending, settling := pending - 1, settling - 1;
    }

    /** What the rest of the process does between a heartbeat call and its reply. */
    method Meanwhile(others: seq<Other>)
      requires Valid()
      modifies this`connections, this`reports, this`pending, this`settling
      ensures Valid()
      ensures forall id :: Ends(others, id) && !Brings(others, id) ==> id !in connections
      ensures forall id :: !Ends(others, id) && !Brings(others, id) ==> Untouched(old(connections), connections, id)
      ensures forall id :: !Brings(others, id) ==> Unextended(old(connections), connections, id)
    {
      var i := 0;
      while i < |others|
        invariant 0 <= i <= |others| && Valid()
        invariant forall id :: Ends(others[..i], id) && !Brings(others[..i], id) ==> id !in connections
        invariant forall id :: !Ends(others[..i], id) && !Brings(others[..i], id) ==> Untouched(old(connections), connections, id)
        invariant forall id :: !Brings(others[..i], id) ==> Unextended(old(connections), connections, id)
      {
        assert others[..i + 1][..i] == others[..i];
        match others[i] {
          case Ended(id, reason) => Stop(id, reason);
          case Arrived(id, live) =>
            if settling < pending { connections, settling := connections[id := live], settling + 1; }
          case Began => var taken := BeginUpgrade();
          case Settled => if settling > 0 { SettleUpgrade(); }
        }
        i := i + 1;
      }
      assert others[..i] == others;
    }

    /**
     One heartbeat pass over a snapshot of the connections, a hundred per call, each reply arriving at
     its own instant while other steps run. A call that fails ends the pass and extends nothing.
     */
    method Heartbeat(snapshot: seq<Id>, replies: seq<Reply>, others: seq<seq<Other>>, nows: seq<int>, started: int)
      requires |replies| == |others| == |nows| == (|snapshot| + 99) / 100
      requires forall i, j :: 0 <= i < j < |snapshot| ==> snapshot[i] != snapshot[j]
      requires forall b, i :: 0 <= b < |others| && 0 <= i < |snapshot| ==> !Brings(others[b], snapshot[i])
      requires Valid() && !checking
      modifies this
      ensures Valid() && !checking
      ensures forall i :: 0 <= i < |snapshot| ==>
                if forall b :: 0 <= b <= i / 100 ==> replies[b].Some? then
                  Survived(old(connections), connections, snapshot[i], replies[i / 100].value, started, nows[i / 100])
                else Unextended(old(connections), connections, snapshot[i])
      ensures forall i :: 0 <= i < |snapshot| && (forall b :: 0 <= b < |others| ==> !Ends(others[b], snapshot[i])) ==>
                if forall b :: 0 <= b <= i / 100 ==> replies[b].Some? then
                  Answered(old(connections), connections, snapshot[i], replies[i / 100].value, started, nows[i / 100])
                else Untouched(old(connections), connections, snapshot[i])
      ensures forall id :: id !in snapshot && Quiet(others, id) ==> Untouched(old(connections), connections, id)
    {
      checking := true;
      var offset := 0;
      ghost var before := connections;
      while offset < |snapshot|
        invariant Valid() && offset % 100 == 0 && 0 <= offset <= |snapshot| + 99
        invariant forall b :: 0 <= b < offset / 100 && b < |replies| ==> replies[b].Some?
        invariant AllTaken(before, connections, snapshot, offset, replies, others, nows, started)
        invariant forall id :: id !in snapshot && Quiet(others, id) ==> Untouched(before, connections, id)
      {
        ghost var start := connections;
        Meanwhile(others[offset / 100]);
        AllTakenLasts(before, start, connections, snapshot, offset, replies, others, nows, started, offset / 100);
        if replies[offset / 100].None? {
          checking := false;
          return;
        }
        ReplyArrives(snapshot, offset, replies, others, nows, started, before);
        offset := offset + 100;
      }
      checking := false;
    }

    /** One reply of the pass: its batch takes it. */
    method ReplyArrives(snapshot: seq<Id>, offset: nat, replies: seq<Reply>, ghost others: seq<seq<Other>>,
                        nows: seq<int>, started: int, ghost before: map<Id, Live>)
      requires |replies| == |nows| == (|snapshot| + 99) / 100
      requires forall i, j :: 0 <= i < j < |snapshot| ==> snapshot[i] != snapshot[j]
      requires offset % 100 == 0 && offset < |snapshot| && replies[offset / 100].Some?
      requires Valid() && AllTaken(before, connections, snapshot, offset, replies, others, nows, started)
      modifies this`connections, this`reports
      ensures Valid() && AllTaken(before, connections, snapshot, offset + 100, replies, others, nows, started)
      ensures forall id :: id !in snapshot ==> Untouched(old(connections), connections, id)
    {
      ghost var mid := connections;
      var end := if offset + 100 < |snapshot| then offset + 100 else |snapshot|;
      var batch := snapshot[offset..end];
      ApplyBatch(batch, replies[offset / 100].value, started, nows[offset / 100]);
      forall i | 0 <= i < |snapshot|
        ensures Taken(before, connections, snapshot[i], i, offset + 100, replies, others, nows, started)
      {
        if offset <= i < end {
          assert snapshot[i] == batch[i - offset] && i / 100 == offset / 100;
          TakenNow(before, mid, connections, snapshot[i], i, offset, replies, others, nows, started);
        } else {
          assert snapshot[i] !in batch;
          TakenBefore(before, mid, connections, snapshot[i], i, offset, replies, others, nows, started);
        }
      }
    }

    method ApplyBatch(batch: seq<Id>, leases: seq<Lease>, started: int, now: int)
      requires forall i, j :: 0 <= i < j < |batch| ==> batch[i] != batch[j]
      requires Valid()
      modifies this`connections, this`reports
      ensures Valid()
      ensures forall id :: id in connections ==> id in old(connections)
      ensures forall id :: id in batch ==> Answered(old(connections), connections, id, leases, started, now)
      ensures forall id :: id !in batch ==> Untouched(old(connections), connections, id)
    {
      var i := 0;
      while i < |batch|
        invariant 0 <= i <= |batch| && Valid()
        invariant forall id :: id in connections ==> id in old(connections)
        invariant forall id :: id in batch[..i] ==> Answered(old(connections), connections, id, leases, started, now)
        invariant forall id :: id !in batch[..i] ==> Untouched(old(connections), connections, id)
      {
        var id := batch[i];
        assert id !in batch[..i];
        assert batch[..i + 1] == batch[..i] + [id];
        if id in connections {
          var lease := LeaseFor(leases, id);
          if lease.None? || lease.value.session != connections[id].session {
            Stop(id, AuthorizationChanged);
          } else {
            Refresh(id, lease.value.remaining, started, now);
          }
        }
        i := i + 1;
      }
    }

    /** The deadline timer of one connection. */
    method Fire(connection: Id, now: int)
      requires Valid() && connection in connections && connections[connection].state.due <= now
      modifies this`connections, this`reports
      ensures Valid()
      ensures connections == old(connections) - {connection}
    {
      Stop(connection, Expired);
    }
  }

  /** Array.find: the first lease of a reply for exactly this session and connection. */
  function FirstLease(leases: seq<Lease>, session: Id, connection: Id): (l: Lease)
    requires exists i :: 0 <= i < |leases| && leases[i].session == session && leases[i].connection == connection
    ensures l in leases && l.session == session && l.connection == connection
  {
    if leases[0].session == session && leases[0].connection == connection then leases[0]
    else
      assert exists i :: 0 <= i < |leases[1..]| && leases[1..][i].session == session && leases[1..][i].connection == connection by {
        var i :| 0 <= i < |leases| && leases[i].session == session && leases[i].connection == connection;
        assert leases[1..][i - 1] == leases[i];
      }
      FirstLease(leases[1..], session, connection)
  }

  lemma {:induction false} FirstLeaseAt(leases: seq<Lease>, session: Id, connection: Id, i: nat)
    requires i < |leases| && leases[i].session == session && leases[i].connection == connection
    requires forall j :: 0 <= j < i ==> !(leases[j].session == session && leases[j].connection == connection)
    ensures FirstLease(leases, session, connection) == leases[i]
  {
    if i > 0 {
      assert leases[1..][i - 1] == leases[i];
      FirstLeaseAt(leases[1..], session, connection, i - 1);
    }
  }
}
