/**
 Provider effects: what a saved attempt is, what a provider's words about it establish, and the ledger of
 owned resources. An evaluation turns one saved outcome and the provider's present answers into a verdict.
 */
module Journal {
  import opened Prelude

  type Labels = map<Id, Id>

  /** The label key that names the operation which created a resource. */
  const OPERATION: Id := 0

  datatype Kind = ServerKind | IpKind
  datatype Ref = Ref(kind: Kind, id: Id)
  datatype Power = Running | Off | OtherPower
  datatype BackupStatus = Enabled | Disabled | UnknownStatus

  datatype Server = Server(id: Id, labels: Labels, serverType: Id, region: Id, primaryIp: Option<Id>,
                           power: Power, backups: BackupStatus)
  datatype Ip = Ip(id: Id, labels: Labels, region: Id, autoDelete: bool, assignment: Option<Id>)

  datatype Command =
    | CreateIp(region: Id, labels: Labels)
    | DeleteIp(ip: Id)
    | Create(serverType: Id, region: Id, network: Option<Id>, labels: Labels)
    | Destroy(server: Id)
    | EnableBackup(server: Id)
    | Resize(server: Id, serverType: Id)
    | PowerOff(server: Id)
    | PowerOn(server: Id)
    | Reboot(server: Id)

  datatype Outcome =
    | Prepared
    | Unknown
    | Accepted(resource: Ref, action: Id)
    | Completed(resource: Ref)
    | Rejected(error: Id)

  datatype Observation = Absent(resource: Ref) | ServerSeen(server: Server) | IpSeen(ip: Ip)

  datatype Blockage = ResourceMismatch | DuplicateResources | OutcomeUnknown

  datatype Evaluation =
    | Confirmed(observation: Observation)
    | EffectFailed(error: Id)
    | StillPending(blocked: Option<Blockage>)

  datatype Action = ActionRunning | ActionFailed(error: Id) | ActionSucceeded

  datatype Found = Found(id: Id, labels: Labels)

  /** The provider's answers during one evaluation; two reads of one resource may disagree. */
  datatype Replies = Replies(earlyServer: Option<Server>, earlyIp: Option<Ip>, found: seq<Found>,
                             action: Action, server: Option<Server>, ip: Option<Ip>)

  datatype Row = Row(allocation: Id, account: Id, labels: Labels, absent: bool)
  type Ledger = map<Ref, Row>

  function KindOf(c: Command): Kind {
    if c.CreateIp? || c.DeleteIp? then IpKind else ServerKind
  }

  predicate Creates(c: Command) {
    c.Create? || c.CreateIp?
  }

  /** The exact resource a command names; a create names none. */
  function Target(c: Command): (r: Option<Ref>)
    ensures r.None? <==> Creates(c)
    ensures r.Some? ==> r.value.kind == KindOf(c)
  {
    match c
    case CreateIp(_, _) => None
    case Create(_, _, _, _) => None
    case DeleteIp(ip) => Some(Ref(IpKind, ip))
    case _ => Some(Ref(ServerKind, c.server))
  }

  predicate Uncertain(o: Outcome) {
    o.Prepared? || o.Unknown?
  }

  predicate MatchesLabels(value: Labels, expected: Labels) {
    forall k :: k in expected ==> k in value && value[k] == expected[k]
  }

  // ---- the ledger

  /** claimResource: insert or find the row; a row bound elsewhere or already absent refuses. */
  function Claimed(ledger: Ledger, ref: Ref, allocation: Id, account: Id, labels: Labels): Ledger {
    if ref in ledger then ledger else ledger[ref := Row(allocation, account, labels, false)]
  }

  predicate ClaimAccepted(ledger: Ledger, ref: Ref, allocation: Id, account: Id) {
    ref in ledger ==> ledger[ref].allocation == allocation && ledger[ref].account == account && !ledger[ref].absent
  }

  predicate LiveRow(ledger: Ledger, ref: Ref, allocation: Id, account: Id) {
    ref in ledger && ledger[ref].allocation == allocation && ledger[ref].account == account && !ledger[ref].absent
  }

  function Tombstoned(ledger: Ledger, ref: Ref, allocation: Id, account: Id): Ledger {
    if LiveRow(ledger, ref, allocation, account) then ledger[ref := ledger[ref].(absent := true)] else ledger
  }

  ghost function Discovered(ledger: Ledger, kind: Kind, allocation: Id, operation: Id): set<Ref> {
    set r | r in ledger && IsDiscovered(ledger[r], r, kind, allocation, operation)
  }

  predicate IsDiscovered(row: Row, r: Ref, kind: Kind, allocation: Id, operation: Id) {
    r.kind == kind && row.allocation == allocation && OPERATION in row.labels && row.labels[OPERATION] == operation
  }

  // ---- what settles a command

  /** The state a command promises, as a fresh read of its resource shows it. */
  predicate Achieved(c: Command, expected: Labels, uncertain: bool, server: Option<Server>, ip: Option<Ip>) {
    match c
    case CreateIp(region, labels) =>
      ip.Some? && MatchesLabels(ip.value.labels, labels) && ip.value.region == region
      && ip.value.autoDelete && ip.value.assignment.None?
    case DeleteIp(_) => ip.None?
    case Destroy(_) => server.None?
    case Create(serverType, region, network, labels) =>
      server.Some? && MatchesLabels(server.value.labels, labels) && server.value.serverType == serverType
      && server.value.region == region && server.value.primaryIp == network && server.value.power.Running?
    case _ =>
      && server.Some? && MatchesLabels(server.value.labels, expected)
      && (c.Resize? ==> server.value.serverType == c.serverType)
      && (c.EnableBackup? ==> server.value.backups.Enabled?)
      && (c.PowerOff? ==> server.value.power.Off?)
      && (c.PowerOn? ==> server.value.power.Running?)
      && (c.Reboot? ==> server.value.power.Running? && !uncertain)
  }

  /** The reply speaks of the resource that was asked for. */
  predicate Answers(ref: Ref, r: Replies) {
    if ref.kind.IpKind? then r.ip.Some? ==> r.ip.value.id == ref.id else r.server.Some? ==> r.server.value.id == ref.id
  }

  predicate Gone(ref: Ref, r: Replies) {
    if ref.kind.IpKind? then r.ip.None? else r.server.None?
  }

  function Seen(ref: Ref, r: Replies): Observation {
    if ref.kind.IpKind? then if r.ip.Some? then IpSeen(r.ip.value) else Absent(ref)
    else if r.server.Some? then ServerSeen(r.server.value) else Absent(ref)
  }

  function Subject(o: Observation): Ref {
    match o
    case Absent(r) => r
    case ServerSeen(s) => Ref(ServerKind, s.id)
    case IpSeen(i) => Ref(IpKind, i.id)
  }

  /** Cleanup's shortcut: the exact resource is already gone, whatever became of the attempt. */
  predicate EarlyAbsence(c: Command, recovering: bool, r: Replies) {
    recovering && (((c.Destroy? || c.EnableBackup?) && r.earlyServer.None?) || (c.DeleteIp? && r.earlyIp.None?))
  }

  /** In cleanup, a create that the provider acknowledged may be settled by the absence of what it made. */
  predicate VanishedCreate(c: Command, o: Outcome, recovering: bool) {
    recovering && Creates(c) && !Uncertain(o)
  }

  /** The resource an outcome (or, for an uncertain create, the sole owned match) makes this attempt speak of. */
  function Speaks(c: Command, o: Outcome, found: seq<Found>): Option<Ref> {
    if o.Accepted? || o.Completed? then
      if o.resource.kind == KindOf(c) && (Target(c).Some? ==> o.resource == Target(c).value) then Some(o.resource) else None
    else if o.Rejected? then None
    else if Creates(c) then if |found| == 1 then Some(Ref(KindOf(c), found[0].id)) else None
    else Target(c)
  }

  /** Whether every match carries our labels and can be ours. */
  predicate AllOurs(found: seq<Found>, c: Command, ledger: Ledger, allocation: Id, account: Id) {
    Creates(c) ==> forall i :: 0 <= i < |found| ==>
      MatchesLabels(found[i].labels, c.labels) && ClaimAccepted(ledger, Ref(KindOf(c), found[i].id), allocation, account)
  }

  /** Claim every match in turn, skipping foreign labels and refused rows; false if any was skipped. */
  function ClaimAll(ledger: Ledger, found: seq<Found>, c: Command, allocation: Id, account: Id): (r: (Ledger, bool))
    requires Creates(c)
    decreases |found|
  {
    if found == [] then (ledger, true)
    else
      var n := |found| - 1;
      var before := ClaimAll(ledger, found[..n], c, allocation, account);
      var ref := Ref(KindOf(c), found[n].id);
      if !MatchesLabels(found[n].labels, c.labels) then (before.0, false)
      else (Claimed(before.0, ref, allocation, account, c.labels),
            before.1 && ClaimAccepted(before.0, ref, allocation, account))
  }

  lemma {:induction false} ClaimAllKeeps(ledger: Ledger, found: seq<Found>, c: Command, allocation: Id, account: Id)
    requires Creates(c)
    ensures var r := ClaimAll(ledger, found, c, allocation, account).0;
            && (forall x :: x in ledger ==> x in r && r[x] == ledger[x])
            && (forall x :: x in r && x !in ledger ==>
                  x.kind == KindOf(c) && r[x] == Row(allocation, account, c.labels, false)
                  && exists i :: 0 <= i < |found| && found[i].id == x.id)
    decreases |found|
  {
    if found != [] {
      var n := |found| - 1;
      ClaimAllKeeps(ledger, found[..n], c, allocation, account);
      var before := ClaimAll(ledger, found[..n], c, allocation, account).0;
      var r := ClaimAll(ledger, found, c, allocation, account).0;
      forall x | x in r && x !in ledger
        ensures exists i :: 0 <= i < |found| && found[i].id == x.id
      {
        if x in before {
          var i :| 0 <= i < |found[..n]| && found[..n][i].id == x.id;
          assert found[i].id == x.id;
        } else {
          assert found[n].id == x.id;
        }
      }
    }
  }

  /** The pass flags exactly the lists with a foreign label or a row that is not ours to claim. */
  lemma {:induction false} ClaimAllFlags(ledger: Ledger, found: seq<Found>, c: Command, allocation: Id, account: Id)
    requires Creates(c)
    ensures var r := ClaimAll(ledger, found, c, allocation, account);
            && (r.1 <==> AllOurs(found, c, ledger, allocation, account))
            && (forall i :: 0 <= i < |found| && MatchesLabels(found[i].labels, c.labels) ==>
                  Ref(KindOf(c), found[i].id) in r.0)
    decreases |found|
  {
    if found != [] {
      var n := |found| - 1;
      ClaimAllFlags(ledger, found[..n], c, allocation, account);
      ClaimAllKeeps(ledger, found[..n], c, allocation, account);
      assert found == found[..n] + [found[n]];
    }
  }

  /** Exactly when an attempt is confirmed. */
  ghost predicate Settles(c: Command, o: Outcome, recovering: bool, expected: Labels, r: Replies,
                          ledger: Ledger, allocation: Id, account: Id, operation: Id) {
    EarlyAbsence(c, recovering, r) ||
    (&& Speaks(c, o, r.found).Some?
     && (Uncertain(o) && Creates(c) ==>
           && AllOurs(r.found, c, ledger, allocation, account)
           && |Discovered(ClaimAll(ledger, r.found, c, allocation, account).0, KindOf(c), allocation, operation)| <= 1)
     && (o.Accepted? ==> r.action.ActionSucceeded?)
     && Answers(Speaks(c, o, r.found).value, r)
     && (Achieved(c, expected, Uncertain(o), r.server, r.ip)
         || (VanishedCreate(c, o, recovering) && Gone(Speaks(c, o, r.found).value, r))))
  }

  /** Exactly when an attempt is failed: a definite rejection, or an accepted action that failed. */
  predicate Fails(c: Command, o: Outcome, recovering: bool, r: Replies) {
    !EarlyAbsence(c, recovering, r) &&
    (o.Rejected? || (o.Accepted? && Speaks(c, o, r.found).Some? && r.action.ActionFailed?))
  }

  lemma DiscoveredPick(ledger: Ledger, r: Ref, kind: Kind, allocation: Id, operation: Id)
    requires r in ledger
    ensures |Discovered(ledger, kind, allocation, operation)|
         == |Discovered(ledger - {r}, kind, allocation, operation)|
            + if IsDiscovered(ledger[r], r, kind, allocation, operation) then 1 else 0
  {
    var all, less := Discovered(ledger, kind, allocation, operation), Discovered(ledger - {r}, kind, allocation, operation);
    var counts := IsDiscovered(ledger[r], r, kind, allocation, operation);
    forall x ensures x in all <==> x in less || (x == r && counts) {
      assert x in ledger <==> x == r || x in ledger - {r};
    }
    if counts { assert all == less + {r}; } else { assert all == less; }
  }

  class Evaluator {
    const allocation: Id
    const account: Id
    var ledger: Ledger
    var serverId: Option<Id>

    constructor (allocation: Id, account: Id)
      ensures this.allocation == allocation && this.account == account && ledger == map[] && serverId == None
    {
      this.allocation, this.account, ledger, serverId := allocation, account, map[], None;
    }

    method Claim(ref: Ref, labels: Labels) returns (ok: bool)
      modifies this
      ensures ledger == Claimed(old(ledger), ref, allocation, account, labels)
      ensures ok <==> ClaimAccepted(old(ledger), ref, allocation, account)
      ensures ok <==> ref !in old(ledger) || (var row := old(ledger)[ref]; row.allocation == allocation && row.account == account && !row.absent)
      ensures ledger == if ref in old(ledger) then old(ledger) else old(ledger)[ref := Row(allocation, account, labels, false)]
      ensures ok ==> LiveRow(ledger, ref, allocation, account)
      ensures serverId == if ok && ref.kind.ServerKind? then Some(ref.id) else old(serverId)
    {
      if ref !in ledger { ledger := ledger[ref := Row(allocation, account, labels, false)]; }
      var row := ledger[ref];
      ok := row.allocation == allocation && row.account == account && !row.absent;
      if ok && ref.kind.ServerKind? { serverId := Some(ref.id); }
    }

    /** Preserve every observed owned id, even when duplicates prevent completion. */
    method ClaimMatches(found: seq<Found>, c: Command) returns (mismatch: bool)
      requires Creates(c)
      modifies this
      ensures ledger == ClaimAll(old(ledger), found, c, allocation, account).0
      ensures mismatch <==> !AllOurs(found, c, old(ledger), allocation, account)
    {
      mismatch := false;
      var i := 0;
      while i < |found|
        invariant 0 <= i <= |found|
        invariant ledger == ClaimAll(old(ledger), found[..i], c, allocation, account).0
        invariant mismatch <==> !ClaimAll(old(ledger), found[..i], c, allocation, account).1
      {
        assert found[..i + 1][..i] == found[..i];
        if !MatchesLabels(found[i].labels, c.labels) {
          mismatch := true;
        } else {
          var ok := Claim(Ref(KindOf(c), found[i].id), c.labels);
          if !ok { mismatch := true; }
        }
        i := i + 1;
      }
      assert found[..i] == found;
      ClaimAllFlags(old(ledger), found, c, allocation, account);
    }

    /** The rows of this allocation that carry the operation's label. */
    method CountDiscovered(kind: Kind, operation: Id) returns (n: nat)
      ensures n == |Discovered(ledger, kind, allocation, operation)|
    {
      var rest := ledger;
      n := 0;
      while rest != map[]
        invariant forall r :: r in rest ==> r in ledger && rest[r] == ledger[r]
        invariant n + |Discovered(rest, kind, allocation, operation)| == |Discovered(ledger, kind, allocation, operation)|
        decreases |rest|
      {
        var r :| r in rest;
        var counts := IsDiscovered(rest[r], r, kind, allocation, operation);
        DiscoveredPick(rest, r, kind, allocation, operation);
        if counts { n := n + 1; }
        rest := rest - {r};
      }
    }

    /**
     evaluate. Confirmed exactly when the attempt's postcondition is observed on the resource it speaks of
     (or its absence settles a cleanup); failed exactly on a definite failure; otherwise pending, as it was.
     The last clauses say what that shows for each command, in the fields of the reads.
     */
    method Evaluate(c: Command, o: Outcome, recovering: bool, expected: Labels, operation: Id, r: Replies)
      returns (e: Evaluation)
      modifies this
      ensures e.Confirmed? <==>
                Settles(c, o, recovering, expected, r, old(ledger), allocation, account, operation)
      ensures e.EffectFailed? <==> Fails(c, o, recovering, r)
      ensures e.Confirmed? ==>
                if EarlyAbsence(c, recovering, r) then e.observation == Absent(Target(c).value)
                else e.observation == Seen(Speaks(c, o, r.found).value, r)
      ensures ledger == if Uncertain(o) && Creates(c) then ClaimAll(old(ledger), r.found, c, allocation, account).0
                        else old(ledger)
      ensures e.Confirmed? && e.observation.ServerSeen? ==>
                var x := e.observation.server;
                && r.server == Some(x) && !o.Rejected? && (o.Accepted? ==> r.action.ActionSucceeded?)
                && (forall k :: k in expected && !c.Create? ==> k in x.labels && x.labels[k] == expected[k])
                && match c
                   case Create(serverType, region, network, labels) =>
                     && x.serverType == serverType && x.region == region && x.primaryIp == network && x.power == Running
                     && forall k :: k in labels ==> k in x.labels && x.labels[k] == labels[k]
                   case EnableBackup(id) => x.id == id && x.backups == Enabled
                   case Resize(id, serverType) => x.id == id && x.serverType == serverType
                   case PowerOff(id) => x.id == id && x.power == Off
                   case PowerOn(id) => x.id == id && x.power == Running
                   case Reboot(id) => x.id == id && x.power == Running && !o.Prepared? && !o.Unknown?
                   case _ => false
      ensures e.Confirmed? && e.observation.IpSeen? ==>
                var x := e.observation.ip;
                && r.ip == Some(x) && c.CreateIp? && x.region == c.region && x.autoDelete && x.assignment == None
                && forall k :: k in c.labels ==> k in x.labels && x.labels[k] == c.labels[k]
      ensures e.Confirmed? && e.observation.Absent? ==>
                match c
                case Destroy(id) => e.observation.resource == Ref(ServerKind, id)
                case DeleteIp(id) => e.observation.resource == Ref(IpKind, id)
                case EnableBackup(id) => recovering && e.observation.resource == Ref(ServerKind, id)
                case Create(_, _, _, _) => recovering && (o.Accepted? || o.Completed?) && e.observation.resource == o.resource
                case CreateIp(_, _) => recovering && (o.Accepted? || o.Completed?) && e.observation.resource == o.resource
                case _ => false
      ensures e.EffectFailed? <==>
                && !(recovering && (c.Destroy? || c.EnableBackup?) && r.earlyServer == None)
                && !(recovering && c.DeleteIp? && r.earlyIp == None)
                && (o.Rejected? || (o.Accepted? && r.action.ActionFailed? && match c
                      case CreateIp(_, _) => o.resource.kind == IpKind
                      case Create(_, _, _, _) => o.resource.kind == ServerKind
                      case DeleteIp(ip) => o.resource == Ref(IpKind, ip)
                      case _ => o.resource == Ref(ServerKind, c.server)))
      ensures e.EffectFailed? ==> if o.Rejected? then e.error == o.error else r.action == ActionFailed(e.error)
    {
      if recovering && (c.Destroy? || c.EnableBackup?) && r.earlyServer.None? {
        return Confirmed(Absent(Ref(ServerKind, c.server)));
      }
      if recovering && c.DeleteIp? && r.earlyIp.None? {
        return Confirmed(Absent(Ref(IpKind, c.ip)));
      }
      if o.Rejected? { return EffectFailed(o.error); }
      e := EvaluateResource(c, o, recovering, expected, operation, r);
    }

    /** The rest of evaluate: whose resource it is, the action's state, and the fresh read. */
    method EvaluateResource(c: Command, o: Outcome, recovering: bool, expected: Labels, operation: Id, r: Replies)
      returns (e: Evaluation)
      requires !o.Rejected? && !EarlyAbsence(c, recovering, r)
      modifies this
      ensures e.Confirmed? <==>
                Settles(c, o, recovering, expected, r, old(ledger), allocation, account, operation)
      ensures e.EffectFailed? <==> Fails(c, o, recovering, r)
      ensures e.EffectFailed? ==> r.action == ActionFailed(e.error)
      ensures e.Confirmed? ==> e.observation == Seen(Speaks(c, o, r.found).value, r)
      ensures ledger == if Uncertain(o) && Creates(c) then ClaimAll(old(ledger), r.found, c, allocation, account).0
                        else old(ledger)
    {
      var uncertain := o.Prepared? || o.Unknown?;
      var ref: Ref;
      if uncertain {
        if Creates(c) {
          var mismatch := ClaimMatches(r.found, c);
          if mismatch { return StillPending(Some(ResourceMismatch)); }
          var discovered := CountDiscovered(KindOf(c), operation);
          if |r.found| > 1 || discovered > 1 { return StillPending(Some(DuplicateResources)); }
          if |r.found| == 0 { return StillPending(Some(OutcomeUnknown)); }
          ref := Ref(KindOf(c), r.found[0].id);
        } else {
          ref := Target(c).value;
        }
      } else {
        ref := o.resource;
        if ref.kind != KindOf(c) || (Target(c).Some? && ref != Target(c).value) {
          return StillPending(Some(ResourceMismatch));
        }
        if o.Accepted? {
          match r.action
          case ActionRunning => return StillPending(None);
          case ActionFailed(error) => return EffectFailed(error);
          case ActionSucceeded =>
        }
      }
      assert Speaks(c, o, r.found) == Some(ref);
      e := Judge(c, ref, recovering, uncertain, expected, r);
    }

    /** The fresh read of the resource that the attempt speaks of. */
    method Judge(c: Command, ref: Ref, recovering: bool, uncertain: bool, expected: Labels, r: Replies)
      returns (e: Evaluation)
      requires ref.kind == KindOf(c)
      ensures !e.EffectFailed?
      ensures e.Confirmed? <==>
                && Answers(ref, r)
                && (Achieved(c, expected, uncertain, r.server, r.ip) || (recovering && !uncertain && Creates(c) && Gone(ref, r)))
      ensures e.Confirmed? ==> e.observation == Seen(ref, r)
    {
      if ref.kind.IpKind? {
        e := JudgeIp(c, ref, recovering, uncertain, expected, r.ip);
      } else {
        e := JudgeServer(c, ref, recovering, uncertain, expected, r.server);
      }
    }

    method JudgeIp(c: Command, ref: Ref, recovering: bool, uncertain: bool, expected: Labels, read: Option<Ip>)
      returns (e: Evaluation)
      requires KindOf(c).IpKind? && ref.kind.IpKind?
      ensures !e.EffectFailed?
      ensures e.Confirmed? <==>
                (read.Some? ==> read.value.id == ref.id)
                && (Achieved(c, expected, uncertain, None, read) || (recovering && !uncertain && c.CreateIp? && read.None?))
      ensures e.Confirmed? <==>
                match read
                case None => c.DeleteIp? || (recovering && !uncertain)
                case Some(x) =>
                  && c.CreateIp? && x.id == ref.id && x.region == c.region && x.autoDelete && x.assignment == None
                  && forall k :: k in c.labels ==> k in x.labels && x.labels[k] == c.labels[k]
      ensures e.Confirmed? ==> e.observation == if read.Some? then IpSeen(read.value) else Absent(ref)
    {
      if read.Some? && read.value.id != ref.id { return StillPending(Some(ResourceMismatch)); }
      var waiting := StillPending(if uncertain then Some(OutcomeUnknown) else None);
      if c.DeleteIp? {
        if read.None? { return Confirmed(Absent(ref)); }
        if !MatchesLabels(read.value.labels, expected) || read.value.assignment.Some? {
          return StillPending(Some(ResourceMismatch));
        }
        return waiting;
      }
      if read.None? {
        return if recovering && !uncertain then Confirmed(Absent(ref)) else waiting;
      }
      if !MatchesLabels(read.value.labels, c.labels) || read.value.region != c.region
         || !read.value.autoDelete || read.value.assignment.Some? {
        return StillPending(Some(ResourceMismatch));
      }
      return Confirmed(IpSeen(read.value));
    }

    method JudgeServer(c: Command, ref: Ref, recovering: bool, uncertain: bool, expected: Labels, read: Option<Server>)
      returns (e: Evaluation)
      requires KindOf(c).ServerKind? && ref.kind.ServerKind?
      ensures !e.EffectFailed?
      ensures e.Confirmed? <==>
                (read.Some? ==> read.value.id == ref.id)
                && (Achieved(c, expected, uncertain, read, None) || (recovering && !uncertain && c.Create? && read.None?))
      ensures e.Confirmed? <==>
                match read
                case None => c.Destroy? || (c.Create? && recovering && !uncertain)
                case Some(x) =>
                  && x.id == ref.id
                  && (forall k :: k in expected && !c.Create? ==> k in x.labels && x.labels[k] == expected[k])
                  && match c
                     case Create(serverType, region, network, labels) =>
                       && x.serverType == serverType && x.region == region && x.primaryIp == network && x.power == Running
                       && forall k :: k in labels ==> k in x.labels && x.labels[k] == labels[k]
                     case EnableBackup(_) => x.backups == Enabled
                     case Resize(_, serverType) => x.serverType == serverType
                     case PowerOff(_) => x.power == Off
                     case PowerOn(_) => x.power == Running
                     case Reboot(_) => x.power == Running && !uncertain
                     case _ => false
      ensures e.Confirmed? ==> e.observation == if read.Some? then ServerSeen(read.value) else Absent(ref)
    {
      if read.Some? && read.value.id != ref.id { return StillPending(Some(ResourceMismatch)); }
      if c.Destroy? && read.None? { return Confirmed(Absent(ref)); }
      var waiting := StillPending(if uncertain then Some(OutcomeUnknown) else None);
      if read.None? {
        return if recovering && !uncertain && c.Create? then Confirmed(Absent(ref)) else waiting;
      }
      var server := read.value;
      if !MatchesLabels(server.labels, if c.Create? then c.labels else expected) {
        return StillPending(Some(ResourceMismatch));
      }
      match c {
        case Create(serverType, region, network, _) =>
          if server.serverType != serverType || server.region != region || server.primaryIp != network {
            return StillPending(Some(ResourceMismatch));
          }
          if !server.power.Running? { return waiting; }
        case Resize(_, serverType) => if server.serverType != serverType { return waiting; }
        case EnableBackup(_) => if !server.backups.Enabled? { return waiting; }
        case PowerOff(_) => if !server.power.Off? { return waiting; }
        case PowerOn(_) => if !server.power.Running? { return waiting; }
        case Reboot(_) => if uncertain || !server.power.Running? { return waiting; }
        case Destroy(_) => return waiting;
      }
      return Confirmed(ServerSeen(server));
    }
  }

  // ---- what the verdicts mean

  /**
   The postcondition of each command, read off the observation that confirmed it: for every saved outcome and
   every set of provider answers. Outside cleanup absence settles only the two deletions, an uncertain reboot
   is never confirmed, and an uncertain create is confirmed only by its one owned match.
   */
  lemma ConfirmedMeansAchieved(c: Command, o: Outcome, recovering: bool, expected: Labels, r: Replies,
                               ledger: Ledger, allocation: Id, account: Id, operation: Id)
    requires Settles(c, o, recovering, expected, r, ledger, allocation, account, operation)
    ensures var e := if EarlyAbsence(c, recovering, r) then Absent(Target(c).value) else Seen(Speaks(c, o, r.found).value, r);
            && (Target(c).Some? ==> Subject(e) == Target(c).value)
            && (e.Absent? && !recovering ==> c.Destroy? || c.DeleteIp?)
            && (c.Destroy? || c.DeleteIp? ==> e.Absent?)
            && (e.ServerSeen? ==> Achieved(c, expected, Uncertain(o), Some(e.server), None))
            && (e.IpSeen? ==> c.CreateIp? && Achieved(c, expected, Uncertain(o), None, Some(e.ip)))
            && (o.Rejected? ==> recovering && e.Absent?)
    ensures c.Reboot? ==> !Uncertain(o)
    ensures Creates(c) && Uncertain(o) ==>
              |r.found| == 1 && MatchesLabels(r.found[0].labels, c.labels)
              && ClaimAccepted(ledger, Ref(KindOf(c), r.found[0].id), allocation, account)
  {
  }

  /**
   Exactly when a command that changes a server is confirmed, in the fields of the saved outcome and of the read:
   for each of them the one reading that does.
   */
  lemma ChangesConfirmExactly(c: Command, o: Outcome, recovering: bool, expected: Labels, r: Replies,
                              ledger: Ledger, allocation: Id, account: Id, operation: Id)
    requires c.PowerOff? || c.PowerOn? || c.Reboot? || c.Resize?
    ensures Settles(c, o, recovering, expected, r, ledger, allocation, account, operation) <==>
              && (|| ((o.Prepared? || o.Unknown?) && !c.Reboot?)
                  || (o.Completed? && o.resource == Ref(ServerKind, c.server))
                  || (o.Accepted? && o.resource == Ref(ServerKind, c.server) && r.action.ActionSucceeded?))
              && r.server.Some? && r.server.value.id == c.server
              && (forall k :: k in expected ==> k in r.server.value.labels && r.server.value.labels[k] == expected[k])
              && match c
                 case PowerOff(_) => r.server.value.power == Off
                 case PowerOn(_) => r.server.value.power == Running
                 case Reboot(_) => r.server.value.power == Running
                 case Resize(_, serverType) => r.server.value.serverType == serverType
                 case _ => false
  {
  }

  /** Exactly when a deletion or the enabling of backups is confirmed, with cleanup's shortcut. */
  lemma DeletionsConfirmExactly(c: Command, o: Outcome, recovering: bool, expected: Labels, r: Replies,
                                ledger: Ledger, allocation: Id, account: Id, operation: Id)
    requires c.Destroy? || c.DeleteIp? || c.EnableBackup?
    ensures var target := if c.DeleteIp? then Ref(IpKind, c.ip) else Ref(ServerKind, c.server);
            Settles(c, o, recovering, expected, r, ledger, allocation, account, operation) <==>
              || (recovering && if c.DeleteIp? then r.earlyIp == None else r.earlyServer == None)
              || (&& (|| o.Prepared? || o.Unknown?
                      || (o.Completed? && o.resource == target)
                      || (o.Accepted? && o.resource == target && r.action.ActionSucceeded?))
                  && match c
                     case Destroy(_) => r.server == None
                     case DeleteIp(_) => r.ip == None
                     case EnableBackup(id) =>
                       && r.server.Some? && r.server.value.id == id && r.server.value.backups == Enabled
                       && forall k :: k in expected ==> k in r.server.value.labels && r.server.value.labels[k] == expected[k]
                     case _ => false)
  {
  }

  /** The rows of this allocation and kind under one operation's label. */
  lemma DiscoveredIs(ledger: Ledger, kind: Kind, allocation: Id, operation: Id)
    ensures Discovered(ledger, kind, allocation, operation)
         == set x | x in ledger && x.kind == kind && ledger[x].allocation == allocation
                    && OPERATION in ledger[x].labels && ledger[x].labels[OPERATION] == operation
  {
  }

  /**
   Exactly when a server create is confirmed: a definite receipt of a server that reads as ordered (or, in cleanup,
   is gone); or, of an uncertain one, its only owned match, which reads as ordered and is the only labelled row.
   */
  lemma CreatesConfirmExactly(c: Command, o: Outcome, recovering: bool, expected: Labels, r: Replies,
                              ledger: Ledger, allocation: Id, account: Id, operation: Id)
    requires c.Create?
    ensures var shown := r.server.Some? && r.server.value.serverType == c.serverType && r.server.value.region == c.region
                         && r.server.value.primaryIp == c.network && r.server.value.power == Running
                         && forall k :: k in c.labels ==> k in r.server.value.labels && r.server.value.labels[k] == c.labels[k];
            var after := ClaimAll(ledger, r.found, c, allocation, account).0;
            Settles(c, o, recovering, expected, r, ledger, allocation, account, operation) <==>
              if o.Prepared? || o.Unknown? then
                && |r.found| == 1 && shown && r.server.value.id == r.found[0].id
                && (forall k :: k in c.labels ==> k in r.found[0].labels && r.found[0].labels[k] == c.labels[k])
                && (Ref(ServerKind, r.found[0].id) in ledger ==>
                      var row := ledger[Ref(ServerKind, r.found[0].id)];
                      row.allocation == allocation && row.account == account && !row.absent)
                && |set x | x in after && x.kind == ServerKind && after[x].allocation == allocation
                            && OPERATION in after[x].labels && after[x].labels[OPERATION] == operation| <= 1
              else
                && (o.Completed? || (o.Accepted? && r.action.ActionSucceeded?)) && o.resource.kind == ServerKind
                && ((shown && r.server.value.id == o.resource.id) || (recovering && r.server == None))
  {
    DiscoveredIs(ClaimAll(ledger, r.found, c, allocation, account).0, ServerKind, allocation, operation);
  }

  /** The same for an IP create. */
  lemma IpCreatesConfirmExactly(c: Command, o: Outcome, recovering: bool, expected: Labels, r: Replies,
                                ledger: Ledger, allocation: Id, account: Id, operation: Id)
    requires c.CreateIp?
    ensures var shown := r.ip.Some? && r.ip.value.region == c.region && r.ip.value.autoDelete && r.ip.value.assignment == None
                         && forall k :: k in c.labels ==> k in r.ip.value.labels && r.ip.value.labels[k] == c.labels[k];
            var after := ClaimAll(ledger, r.found, c, allocation, account).0;
            Settles(c, o, recovering, expected, r, ledger, allocation, account, operation) <==>
              if o.Prepared? || o.Unknown? then
                && |r.found| == 1 && shown && r.ip.value.id == r.found[0].id
                && (forall k :: k in c.labels ==> k in r.found[0].labels && r.found[0].labels[k] == c.labels[k])
                && (Ref(IpKind, r.found[0].id) in ledger ==>
                      var row := ledger[Ref(IpKind, r.found[0].id)];
                      row.allocation == allocation && row.account == account && !row.absent)
                && |set x | x in after && x.kind == IpKind && after[x].allocation == allocation
                            && OPERATION in after[x].labels && after[x].labels[OPERATION] == operation| <= 1
              else
                && (o.Completed? || (o.Accepted? && r.action.ActionSucceeded?)) && o.resource.kind == IpKind
                && ((shown && r.ip.value.id == o.resource.id) || (recovering && r.ip == None))
  {
    DiscoveredIs(ClaimAll(ledger, r.found, c, allocation, account).0, IpKind, allocation, operation);
  }

  /** A verdict is one of the three: no answer both confirms and fails an attempt. */
  lemma VerdictsExclude(c: Command, o: Outcome, recovering: bool, expected: Labels, r: Replies,
                        ledger: Ledger, allocation: Id, account: Id, operation: Id)
    ensures !(Settles(c, o, recovering, expected, r, ledger, allocation, account, operation) && Fails(c, o, recovering, r))
  {
  }
}
