/**
 Credential issue, revocation and customer admission over the delegation forest, together with the
 access sessions that revocation closes. Each Event is one committed transaction; a refused request
 writes nothing. AuthService performs the same transactions on mutable tables.
 */
module Auth {
  import opened Prelude
  import opened Forest

  const DAY := 86_400_000

  datatype Session = Session(account: Id, grant: Id, open: bool)
  /** Anchors give each admitted customer identity its current root credential. */
  datatype Store = Store(grants: Grants, sessions: map<Id, Session>, anchors: map<Id, Id>)

  const EMPTY := Store(map[], map[], map[])

  datatype Failure = Unauthenticated | PermissionDenied | NotFound | InvalidInput | Conflict
  datatype Authority = Authority(account: Id, policy: Policy, expiresAt: int, depth: nat)

  datatype Event =
    | Bootstrap(id: Id, account: Id, policy: Policy, expiresAt: int)
    | Admit(user: Id, id: Id, account: Id, policy: Policy, expiresAt: int, now: int)
    | Issue(principal: Id, id: Id, policy: Policy, expiresAt: int, now: int)
    | SignIn(user: Id, id: Id, now: int)
    | Revoke(principal: Id, target: Id, now: int)
    | Disable(user: Id)
    | Renew(user: Id, expected: Id, id: Id, policy: Policy, expiresAt: int, now: int)
    | OpenSession(session: Id, grant: Id, now: int)

  /** The earliest expiry in an ancestry. */
  function Horizon(gs: Grants, chain: seq<Id>): (least: int)
    requires chain != [] && forall x :: x in chain ==> x in gs
    ensures forall x :: x in chain ==> least <= gs[x].expiresAt
    ensures exists x :: x in chain && least == gs[x].expiresAt
  {
    if |chain| == 1 then assert chain[0] in chain; gs[chain[0]].expiresAt
    else
      var rest := Horizon(gs, chain[1..]);
      assert chain[0] in chain && forall x :: x in chain[1..] ==> x in chain;
      Min(gs[chain[0]].expiresAt, rest)
  }

  /** revokeGrant's climb from the target: at most `steps` credentials of the caller's account. */
  predicate Climbs(gs: Grants, account: Id, from: Id, to: Id, steps: nat)
    decreases steps, gs.Keys
  {
    steps > 0 && (from == to
      || (from in gs && gs[from].account == account && gs[from].parent.Some?
          && Climbs(gs, account, gs[from].parent.value, to, steps - 1)))
  }

  function Close(sessions: map<Id, Session>, account: Id, grants: set<Id>): map<Id, Session> {
    map id | id in sessions ::
      if sessions[id].account == account && sessions[id].grant in grants
      then sessions[id].(open := false) else sessions[id]
  }

  function MarkRevoked(s: Store, target: Id, account: Id): Store {
    if target in s.grants && s.grants[target].account == account then
      var grants := s.grants[target := s.grants[target].(revoked := true)];
      s.(grants := grants, sessions := Close(s.sessions, account, Subtree(grants, account, target)))
    else s
  }

  ghost function IssueStep(s: Store, principal: Id, id: Id, policy: Policy, expiresAt: int, now: int): Option<Store> {
    if Authorised(s.grants, principal, now)
       && GrantManage in s.grants[principal].policy.capabilities
       && |Walk(s.grants, principal, MAX_DEPTH)| < MAX_DEPTH
       && Within(policy, s.grants[principal].policy)
       && now < expiresAt <= Horizon(s.grants, Walk(s.grants, principal, MAX_DEPTH))
       && id !in s.grants
    then Some(s.(grants := s.grants[id :=
           Grant(s.grants[principal].account, Some(principal), policy, expiresAt, false)]))
    else None
  }

  ghost function SignInStep(s: Store, user: Id, id: Id, now: int): Option<Store> {
    if user in s.anchors && Authorised(s.grants, s.anchors[user], now) && id !in s.grants then
      var anchor := s.anchors[user];
      var expiresAt := Min(Horizon(s.grants, Walk(s.grants, anchor, MAX_DEPTH)), now + 30 * DAY);
      if expiresAt - now < 60_000 then None
      else Some(s.(grants := s.grants[id :=
             Grant(s.grants[anchor].account, Some(anchor), s.grants[anchor].policy, expiresAt, false)]))
    else None
  }

  ghost function RevokeStep(s: Store, principal: Id, target: Id, now: int): Option<Store> {
    if Authorised(s.grants, principal, now)
       && (target == principal || GrantManage in s.grants[principal].policy.capabilities)
       && Climbs(s.grants, s.grants[principal].account, target, principal, MAX_DEPTH)
    then Some(MarkRevoked(s, target, s.grants[principal].account))
    else None
  }

  /** The state a transaction commits, or None when it is refused. */
  ghost function Step(s: Store, e: Event): Option<Store> {
    match e
    case Bootstrap(id, account, policy, expiresAt) =>
      if id in s.grants then None
      else Some(s.(grants := s.grants[id := Grant(account, None, policy, expiresAt, false)]))
    case Admit(user, id, account, policy, expiresAt, now) =>
      if user in s.anchors || id in s.grants || !policy.projects.AllProjects?
         || expiresAt <= now || expiresAt > now + 366 * DAY
      then None
      else Some(s.(grants := s.grants[id := Grant(account, None, policy, expiresAt, false)],
                   anchors := s.anchors[user := id]))
    case Issue(principal, id, policy, expiresAt, now) => IssueStep(s, principal, id, policy, expiresAt, now)
    case SignIn(user, id, now) => SignInStep(s, user, id, now)
    case Revoke(principal, target, now) => RevokeStep(s, principal, target, now)
    case Disable(user) =>
      if user !in s.anchors || s.anchors[user] !in s.grants then None
      else Some(MarkRevoked(s, s.anchors[user], s.grants[s.anchors[user]].account))
    case Renew(user, expected, id, policy, expiresAt, now) =>
      if user !in s.anchors || s.anchors[user] != expected || expected !in s.grants || id in s.grants
         || !policy.projects.AllProjects? || policy.currency != s.grants[expected].policy.currency
         || expiresAt <= now || expiresAt > now + 366 * DAY
      then None
      else
        var account := s.grants[expected].account;
        var closed := MarkRevoked(s, expected, account);
        Some(closed.(grants := closed.grants[id := Grant(account, None, policy, expiresAt, false)],
                     anchors := closed.anchors[user := id]))
    case OpenSession(session, grant, now) =>
      if Authorised(s.grants, grant, now) && session !in s.sessions
      then Some(s.(sessions := s.sessions[session := Session(s.grants[grant].account, grant, true)]))
      else None
  }

  /** A request is either committed or leaves the tables as they were. */
  ghost function Run(s: Store, events: seq<Event>): Store
    decreases |events|
  {
    if events == [] then s
    else
      var r := Step(s, events[0]);
      Run(if r.Some? then r.value else s, events[1..])
  }

  ghost predicate SessionSound(s: Store, session: Session) {
    && session.grant in s.grants
    && s.grants[session.grant].account == session.account
    && (session.open ==>
          forall a :: a in Walk(s.grants, session.grant, MAX_DEPTH) ==> !s.grants[a].revoked)
  }

  ghost predicate Inv(s: Store) {
    && Sound(s.grants)
    && (forall id :: id in s.sessions ==> SessionSound(s, s.sessions[id]))
    && (forall u :: u in s.anchors ==> s.anchors[u] in s.grants && s.grants[s.anchors[u]].parent == None)
  }

  // ---- Every transaction keeps the forest sound and closes what it revokes ----

  lemma ClimbsExactly(gs: Grants, target: Id, principal: Id)
    requires Sound(gs) && principal in gs
    ensures Climbs(gs, gs[principal].account, target, principal, MAX_DEPTH)
       <==> target == principal || (target in gs && AncestorOrSelf(gs, principal, target))
  {
    if target in gs {
      AncestryIsTheWalk(gs, principal, target);
      if gs[target].account == gs[principal].account {
        ClimbsTheWalk(gs, target, principal, MAX_DEPTH);
      } else if AncestorOrSelf(gs, principal, target) {
        BoundedByEveryAncestor(gs, principal, target);
      }
    }
  }

  lemma {:induction false} ClimbsTheWalk(gs: Grants, target: Id, principal: Id, steps: nat)
    requires Sound(gs) && target in gs && principal in gs && gs[target].account == gs[principal].account
    ensures Climbs(gs, gs[principal].account, target, principal, steps)
       <==> principal in Walk(gs, target, steps)
    decreases steps
  {
    assert SoundAt(gs, target);
    if steps > 0 && gs[target].parent.Some? {
      ClimbsTheWalk(gs, gs[target].parent.value, principal, steps - 1);
    }
  }

  lemma RevocationKeepsInv(s: Store, target: Id, account: Id)
    requires Inv(s)
    ensures Inv(MarkRevoked(s, target, account))
    ensures SameTree(s.grants, MarkRevoked(s, target, account).grants)
  {
    var after := MarkRevoked(s, target, account);
    RevocationKeepsSound(s.grants, after.grants);
    if target in s.grants && s.grants[target].account == account {
      forall id | id in s.sessions ensures SessionSound(after, after.sessions[id]) {
        var session := s.sessions[id];
        assert SessionSound(s, session);
        SubtreeIsComplete(after.grants, target, session.grant);
        AncestryIsTheWalk(after.grants, target, session.grant);
        if session.account != account && target in Walk(s.grants, session.grant, MAX_DEPTH) {
          BoundedByEveryAncestor(after.grants, target, session.grant);
        }
      }
    }
  }

  lemma InsertionKeepsInv(s: Store, id: Id, g: Grant)
    requires Inv(s) && MayInsert(s.grants, id, g)
    ensures Inv(s.(grants := s.grants[id := g]))
  {
    var after := s.(grants := s.grants[id := g]);
    InsertionKeepsSound(s.grants, id, g);
    forall k | k in s.sessions ensures SessionSound(after, s.sessions[k]) {
      assert SessionSound(s, s.sessions[k]);
    }
  }

  lemma ReflexivelyWithin(policy: Policy)
    ensures Within(policy, policy)
  {
  }

  lemma HorizonBoundsLeaf(gs: Grants, id: Id)
    requires id in gs
    ensures Horizon(gs, Walk(gs, id, MAX_DEPTH)) <= gs[id].expiresAt
  {
    assert Walk(gs, id, MAX_DEPTH)[0] in Walk(gs, id, MAX_DEPTH);
  }

  lemma StepKeepsInv(s: Store, e: Event)
    requires Inv(s) && Step(s, e).Some?
    ensures Inv(Step(s, e).value)
  {
    match e
    case Bootstrap(id, account, policy, expiresAt) =>
      InsertionKeepsInv(s, id, Grant(account, None, policy, expiresAt, false));
    case Admit(user, id, account, policy, expiresAt, now) =>
      InsertionKeepsInv(s, id, Grant(account, None, policy, expiresAt, false));
    case Issue(principal, id, policy, expiresAt, now) =>
      HorizonBoundsLeaf(s.grants, principal);
      InsertionKeepsInv(s, id, Grant(s.grants[principal].account, Some(principal), policy, expiresAt, false));
    case SignIn(user, id, now) =>
      var anchor := s.anchors[user];
      var expiresAt := Min(Horizon(s.grants, Walk(s.grants, anchor, MAX_DEPTH)), now + 30 * DAY);
      HorizonBoundsLeaf(s.grants, anchor);
      ReflexivelyWithin(s.grants[anchor].policy);
      InsertionKeepsInv(s, id,
        Grant(s.grants[anchor].account, Some(anchor), s.grants[anchor].policy, expiresAt, false));
    case Revoke(principal, target, now) =>
      RevocationKeepsInv(s, target, s.grants[principal].account);
    case Disable(user) =>
      RevocationKeepsInv(s, s.anchors[user], s.grants[s.anchors[user]].account);
    case Renew(user, expected, id, policy, expiresAt, now) =>
      var account := s.grants[expected].account;
      RevocationKeepsInv(s, expected, account);
      InsertionKeepsInv(MarkRevoked(s, expected, account), id, Grant(account, None, policy, expiresAt, false));
    case OpenSession(session, grant, now) =>
      AuthorisedIffWalkLive(s.grants, grant, now);
      var after := Step(s, e).value;
      forall k | k in after.sessions ensures SessionSound(after, after.sessions[k]) {
        if k != session { assert SessionSound(s, s.sessions[k]); }
      }
  }

  /** Every reachable state is sound. */
  lemma {:induction false} ReachableIsSound(s: Store, events: seq<Event>)
    requires Inv(s)
    ensures Inv(Run(s, events))
    decreases |events|
  {
    if events != [] {
      var r := Step(s, events[0]);
      if r.Some? {
        StepKeepsInv(s, events[0]);
        ReachableIsSound(r.value, events[1..]);
      } else {
        ReachableIsSound(s, events[1..]);
      }
    }
  }

  // ---- What the limits of delegation mean, field by field ----

  /** In a sound forest the least expiry of an ancestry is the credential's own. */
  lemma HorizonIsOwn(gs: Grants, id: Id)
    requires Sound(gs) && id in gs
    ensures Horizon(gs, Walk(gs, id, MAX_DEPTH)) == gs[id].expiresAt
  {
    var chain := Walk(gs, id, MAX_DEPTH);
    HorizonBoundsLeaf(gs, id);
    var x :| x in chain && Horizon(gs, chain) == gs[x].expiresAt;
    AncestryIsTheWalk(gs, x, id);
    BoundedByEveryAncestor(gs, x, id);
  }

  /** In every forest that any run builds, each credential lies within every ancestor's, in every field of the policy. */
  lemma ReachablePoliciesNest(events: seq<Event>, ancestor: Id, id: Id)
    requires id in Run(EMPTY, events).grants && AncestorOrSelf(Run(EMPTY, events).grants, ancestor, id)
    ensures ancestor in Run(EMPTY, events).grants
    ensures var c, a := Run(EMPTY, events).grants[id], Run(EMPTY, events).grants[ancestor];
            && c.account == a.account && c.expiresAt <= a.expiresAt
            && (forall x :: x in c.policy.capabilities ==> x in a.policy.capabilities)
            && (forall z :: z in c.policy.sizes ==> z in a.policy.sizes)
            && (forall r :: r in c.policy.regions ==> r in a.policy.regions)
            && (a.policy.projects.Selected? ==>
                  c.policy.projects.Selected? && forall j :: j in c.policy.projects.ids ==> j in a.policy.projects.ids)
            && c.policy.currency == a.policy.currency
            && c.policy.maxMachines <= a.policy.maxMachines
            && c.policy.maxHourlyMicros <= a.policy.maxHourlyMicros
  {
    ReachableIsSound(EMPTY, events);
    BoundedByEveryAncestor(Run(EMPTY, events).grants, ancestor, id);
  }

  /** No credential has more than 31 ancestors. */
  lemma ReachableDepth(events: seq<Event>, id: Id)
    requires id in Run(EMPTY, events).grants
    ensures exists chain :: Rooted(Run(EMPTY, events).grants, chain) && chain[0] == id && |chain| <= 32
  {
    ReachableIsSound(EMPTY, events);
    var gs := Run(EMPTY, events).grants;
    assert SoundAt(gs, id);
    assert Rooted(gs, Walk(gs, id, MAX_DEPTH)) && Walk(gs, id, MAX_DEPTH)[0] == id;
  }

  /** Where a credential comes from: what each transaction that adds one demands and writes, in the fields themselves. */
  lemma NewGrantIsLawful(s: Store, e: Event, id: Id)
    requires Inv(s) && Step(s, e).Some? && id in Step(s, e).value.grants && id !in s.grants
    ensures var g := Step(s, e).value.grants[id];
            !g.revoked && match e
            case Bootstrap(_, account, policy, expiresAt) => g == Grant(account, None, policy, expiresAt, false)
            case Admit(user, _, account, policy, expiresAt, now) =>
              && g == Grant(account, None, policy, expiresAt, false)
              && user !in s.anchors && Step(s, e).value.anchors == s.anchors[user := id]
              && policy.projects.AllProjects? && now < expiresAt <= now + 31_622_400_000
            case Issue(principal, _, policy, expiresAt, now) =>
              && principal in s.grants && g == Grant(s.grants[principal].account, Some(principal), policy, expiresAt, false)
              && GrantManage in s.grants[principal].policy.capabilities
              && now < expiresAt <= s.grants[principal].expiresAt
              && forall a :: a in s.grants && AncestorOrSelf(s.grants, a, principal) ==> !s.grants[a].revoked
            case SignIn(user, _, now) =>
              && user in s.anchors && s.anchors[user] in s.grants
              && var a := s.grants[s.anchors[user]];
              && g.account == a.account && g.parent == Some(s.anchors[user]) && g.policy == a.policy
              && !a.revoked && now + 60_000 <= g.expiresAt <= now + 2_592_000_000
              && (g.expiresAt == a.expiresAt || (g.expiresAt == now + 2_592_000_000 && g.expiresAt < a.expiresAt))
            case Renew(user, expected, _, policy, expiresAt, now) =>
              && user in s.anchors && s.anchors[user] == expected && expected in s.grants
              && g == Grant(s.grants[expected].account, None, policy, expiresAt, false)
              && Step(s, e).value.grants[expected].revoked && Step(s, e).value.anchors == s.anchors[user := id]
              && policy.projects.AllProjects? && policy.currency == s.grants[expected].policy.currency
              && now < expiresAt <= now + 31_622_400_000
            case _ => false
  {
    match e
    case Issue(principal, _, _, _, now) =>
      AuthorisedExactly(s.grants, principal, now);
      HorizonIsOwn(s.grants, principal);
    case SignIn(user, _, now) =>
      AuthorisedExactly(s.grants, s.anchors[user], now);
      HorizonIsOwn(s.grants, s.anchors[user]);
    case _ =>
  }

  /** A sign-in under a live admission with a minute left succeeds. */
  lemma SignInSucceeds(s: Store, user: Id, id: Id, now: int)
    requires Inv(s) && user in s.anchors && id !in s.grants
    requires !s.grants[s.anchors[user]].revoked && s.grants[s.anchors[user]].expiresAt >= now + 60_000
    ensures Step(s, SignIn(user, id, now)).Some?
  {
    var anchor := s.anchors[user];
    forall a | a in s.grants && AncestorOrSelf(s.grants, a, anchor) ensures a == anchor {}
    AuthorisedExactly(s.grants, anchor, now);
    HorizonIsOwn(s.grants, anchor);
  }

  /** A revocation closes the sessions of the target's account under it, and leaves every other row as it was. */
  lemma RevocationClosesExactly(s: Store, target: Id, k: Id)
    requires Inv(s) && target in s.grants && k in s.sessions
    ensures var t := MarkRevoked(s, target, s.grants[target].account);
            && t.sessions.Keys == s.sessions.Keys && t.anchors == s.anchors
            && t.grants == s.grants[target := s.grants[target].(revoked := true)]
            && t.sessions[k].account == s.sessions[k].account && t.sessions[k].grant == s.sessions[k].grant
            && (t.sessions[k].open <==> s.sessions[k].open && !AncestorOrSelf(s.grants, target, s.sessions[k].grant))
  {
    var account := s.grants[target].account;
    var t := MarkRevoked(s, target, account);
    RevocationKeepsInv(s, target, account);
    RevocationKeepsSound(s.grants, t.grants);
    assert SessionSound(s, s.sessions[k]);
    var g := s.sessions[k].grant;
    SubtreeIsComplete(t.grants, target, g);
    AncestryIsTheWalk(t.grants, target, g);
    AncestryIsTheWalk(s.grants, target, g);
    if AncestorOrSelf(s.grants, target, g) { BoundedByEveryAncestor(s.grants, target, g); }
  }

  // ---- Revocation is permanent ----

  /** No transaction lifts a revocation, moves a credential or changes its limits. */
  ghost predicate OnlyGrows(before: Grants, after: Grants) {
    forall id :: id in before ==>
      id in after && after[id] == before[id].(revoked := after[id].revoked)
      && (before[id].revoked ==> after[id].revoked)
  }

  lemma StepOnlyGrows(s: Store, e: Event)
    ensures Step(s, e).Some? ==> OnlyGrows(s.grants, Step(s, e).value.grants)
  {
  }

  lemma {:induction false} RunOnlyGrows(s: Store, events: seq<Event>)
    ensures OnlyGrows(s.grants, Run(s, events).grants)
    decreases |events|
  {
    if events != [] {
      var r := Step(s, events[0]);
      StepOnlyGrows(s, events[0]);
      RunOnlyGrows(if r.Some? then r.value else s, events[1..]);
    }
  }

  lemma {:induction false} AncestryIsPermanent(before: Grants, after: Grants, ancestor: Id, id: Id)
    requires Sound(before) && Sound(after) && OnlyGrows(before, after) && id in before
    requires AncestorOrSelf(before, ancestor, id)
    ensures AncestorOrSelf(after, ancestor, id)
    decreases |Walk(before, id, MAX_DEPTH)|
  {
    if ancestor != id {
      WalkOfChild(before, id);
      AncestryIsPermanent(before, after, ancestor, before[id].parent.value);
    }
  }

  /**
   After a revocation commits, in every later state of every run: no credential in the revoked
   subtree, including one issued in between, is accepted at any instant, and none has an open session.
   */
  lemma RevokedForever(s: Store, events: seq<Event>, revoked: Id, id: Id, now: int)
    requires Inv(s) && revoked in s.grants && s.grants[revoked].revoked
    requires AncestorOrSelf(Run(s, events).grants, revoked, id)
    ensures !Authorised(Run(s, events).grants, id, now)
    ensures forall k :: k in Run(s, events).sessions && Run(s, events).sessions[k].grant == id
              ==> !Run(s, events).sessions[k].open
  {
    var later := Run(s, events);
    ReachableIsSound(s, events);
    RunOnlyGrows(s, events);
    AuthorisedExactly(later.grants, id, now);
    AncestryIsTheWalk(later.grants, revoked, id);
    forall k | k in later.sessions && later.sessions[k].grant == id ensures !later.sessions[k].open {
      assert SessionSound(later, later.sessions[k]);
    }
  }

  lemma MarkedExactly(s: Store, target: Id, id: Id, at: int)
    requires Inv(s) && target in s.grants && Authorised(s.grants, id, at)
    ensures Authorised(MarkRevoked(s, target, s.grants[target].account).grants, id, at)
       <==> !AncestorOrSelf(s.grants, target, id)
  {
    var after := MarkRevoked(s, target, s.grants[target].account);
    RevocationKeepsInv(s, target, s.grants[target].account);
    RevocationKeepsSound(s.grants, after.grants);
    AuthorisedExactly(s.grants, id, at);
    AuthorisedExactly(after.grants, id, at);
    forall a | a in s.grants ensures AncestorOrSelf(s.grants, a, id) <==> AncestorOrSelf(after.grants, a, id) {
      AncestryIsTheWalk(s.grants, a, id);
      AncestryIsTheWalk(after.grants, a, id);
    }
  }

  /** A committed revocation reaches exactly the target and its descendants, at every depth. */
  lemma RevocationScope(s: Store, principal: Id, target: Id, now: int, id: Id, at: int)
    requires Inv(s) && target in s.grants && RevokeStep(s, principal, target, now).Some?
    requires Authorised(s.grants, id, at)
    ensures Authorised(RevokeStep(s, principal, target, now).value.grants, id, at)
       <==> !AncestorOrSelf(s.grants, target, id)
  {
    AuthorisedExactly(s.grants, principal, now);
    ClimbsExactly(s.grants, target, principal);
    if target != principal { BoundedByEveryAncestor(s.grants, principal, target); }
    MarkedExactly(s, target, id, at);
  }

  // ---- The service ----

  ghost predicate Earlier(chain: seq<Id>, i: nat, x: Id)
    requires i <= |chain|
  {
    exists j :: 0 <= j < i && chain[j] == x
  }

  ghost predicate Passes(gs: Grants, x: Id, account: Id, now: int) {
    x in gs && !gs[x].revoked && gs[x].expiresAt > now && gs[x].account == account
  }

  ghost predicate LeastOf(gs: Grants, chain: seq<Id>, i: nat, least: int)
    requires i <= |chain| && forall x :: x in chain ==> x in gs
  {
    && (forall j :: 0 <= j < i ==> least <= gs[chain[j]].expiresAt)
    && (exists j :: 0 <= j < i && least == gs[chain[j]].expiresAt)
  }

  lemma LeastExtends(gs: Grants, chain: seq<Id>, i: nat, least: int)
    requires i < |chain| && forall x :: x in chain ==> x in gs
    requires if i == 0 then least == gs[chain[0]].expiresAt else LeastOf(gs, chain, i, least)
    ensures LeastOf(gs, chain, i + 1, Min(least, gs[chain[i]].expiresAt))
  {
    if i > 0 { var j :| 0 <= j < i && least == gs[chain[j]].expiresAt; }
  }

  /** Whatever makes the scan give up on a row also means that no live ancestry exists. */
  lemma RefusedRow(gs: Grants, id: Id, now: int, i: nat)
    requires i < |Walk(gs, id, MAX_DEPTH)|
    requires var chain := Walk(gs, id, MAX_DEPTH);
             || Earlier(chain, i, chain[i])
             || (i > 0 && gs[chain[i - 1]].parent != Some(chain[i]))
             || !Passes(gs, chain[i], gs[chain[0]].account, now)
    ensures !Authorised(gs, id, now)
  {
    var chain := Walk(gs, id, MAX_DEPTH);
    AuthorisedIffWalkLive(gs, id, now);
    if Rooted(gs, chain) {
      if Earlier(chain, i, chain[i]) {
        var j :| 0 <= j < i && chain[j] == chain[i];
        RootedDistinct(gs, chain, j, i);
      } else if i > 0 {
        RootedLink(gs, chain, i);
      }
      assert chain[i] in chain;
    }
  }

  lemma UnfinishedChain(gs: Grants, id: Id, now: int)
    requires id in gs
    requires gs[Walk(gs, id, MAX_DEPTH)[|Walk(gs, id, MAX_DEPTH)| - 1]].parent.Some?
    ensures !Authorised(gs, id, now)
  {
    AuthorisedIffWalkLive(gs, id, now);
    if Rooted(gs, Walk(gs, id, MAX_DEPTH)) { RootedEnds(gs, Walk(gs, id, MAX_DEPTH)); }
  }

  lemma PassedChain(gs: Grants, id: Id, now: int, least: int)
    requires id in gs
    requires var chain := Walk(gs, id, MAX_DEPTH);
             && gs[chain[|chain| - 1]].parent == None
             && (forall j :: 0 <= j < |chain| ==> Passes(gs, chain[j], gs[id].account, now))
             && LeastOf(gs, chain, |chain|, least)
    ensures Authorised(gs, id, now)
    ensures least == Horizon(gs, Walk(gs, id, MAX_DEPTH))
  {
    var chain := Walk(gs, id, MAX_DEPTH);
    LinkedWalkIsRooted(gs, id, MAX_DEPTH);
    AuthorisedIffWalkLive(gs, id, now);
    var j :| 0 <= j < |chain| && least == gs[chain[j]].expiresAt;
    assert chain[j] in chain;
  }

  /** The loop of loadAuthority over the rows of the ancestry query. */
  method ScanChain(gs: Grants, id: Id, checkedAt: int) returns (expires: Option<int>)
    ensures expires.Some? <==> Authorised(gs, id, checkedAt)
    ensures expires.Some? ==> id in gs && expires.value == Horizon(gs, Walk(gs, id, MAX_DEPTH))
  {
    var chain := Walk(gs, id, MAX_DEPTH);
    if chain == [] {
      AuthorisedIffWalkLive(gs, id, checkedAt);
      return None;
    }
    var leaf := gs[chain[0]];
    var least := leaf.expiresAt;
    var expected := Some(id);
    var seen: set<Id> := {};
    var i := 0;
    while i < |chain|
      invariant 0 <= i <= |chain|
      invariant forall x :: x in seen <==> Earlier(chain, i, x)
      invariant expected == if i == 0 then Some(id) else gs[chain[i - 1]].parent
      invariant forall j :: 0 <= j < i ==> Passes(gs, chain[j], leaf.account, checkedAt)
      invariant i == 0 ==> least == leaf.expiresAt
      invariant i > 0 ==> LeastOf(gs, chain, i, least)
    {
      var current := gs[chain[i]];
      if chain[i] in seen || Some(chain[i]) != expected || current.account != leaf.account
         || current.revoked || current.expiresAt <= checkedAt
      {
        RefusedRow(gs, id, checkedAt, i);
        return None;
      }
      assert forall x :: Earlier(chain, i + 1, x) <==> Earlier(chain, i, x) || x == chain[i];
      LeastExtends(gs, chain, i, least);
      seen := seen + {chain[i]};
      if current.expiresAt < least { least := current.expiresAt; }
      expected := current.parent;
      i := i + 1;
    }
    if expected.Some? {
      UnfinishedChain(gs, id, checkedAt);
      return None;
    }
    PassedChain(gs, id, checkedAt, least);
    return Some(least);
  }

  /** The loop of revokeGrant from the target towards the caller. */
  method IsInOwnTree(gs: Grants, account: Id, target: Id, principal: Id) returns (descendant: bool)
    ensures descendant <==> Climbs(gs, account, target, principal, MAX_DEPTH)
  {
    var current := Some(target);
    var depth := 0;
    while current.Some? && depth < MAX_DEPTH
      invariant 0 <= depth <= MAX_DEPTH
      invariant Climbs(gs, account, target, principal, MAX_DEPTH)
           <==> current.Some? && Climbs(gs, account, current.value, principal, MAX_DEPTH - depth)
      decreases MAX_DEPTH - depth
    {
      if current.value == principal { return true; }
      current := if current.value in gs && gs[current.value].account == account
                 then gs[current.value].parent else None;
      depth := depth + 1;
    }
    return false;
  }

  class AuthService {
    var grants: Grants
    var sessions: map<Id, Session>
    var anchors: map<Id, Id>

    function State(): Store reads this { Store(grants, sessions, anchors) }

    constructor ()
      ensures State() == EMPTY && Inv(State())
    {
      grants, sessions, anchors := map[], map[], map[];
    }

    method LoadAuthority(id: Id, checkedAt: int) returns (r: Result<Authority, Failure>)
      ensures r.Ok? <==> Authorised(grants, id, checkedAt)
      ensures r.Ok? ==> id in grants && r.value == Authority(grants[id].account, grants[id].policy,
                          Horizon(grants, Walk(grants, id, MAX_DEPTH)), |Walk(grants, id, MAX_DEPTH)|)
      ensures r.Err? ==> r.error == Unauthenticated
    {
      var least := ScanChain(grants, id, checkedAt);
      if least.None? { return Err(Unauthenticated); }
      return Ok(Authority(grants[id].account, grants[id].policy, least.value, |Walk(grants, id, MAX_DEPTH)|));
    }

    method IssueGrant(principal: Id, id: Id, policy: Policy, expiresAt: int, now: int)
      returns (r: Result<(), Failure>)
      requires id !in grants  // a fresh random identifier
      modifies this
      ensures r.Ok? <==> old(IssueStep(State(), principal, id, policy, expiresAt, now)).Some?
      ensures State() == if r.Ok? then old(IssueStep(State(), principal, id, policy, expiresAt, now)).value
                         else old(State())
      ensures r.Ok? ==>
                principal in old(grants)
                && grants == old(grants)[id := Grant(old(grants)[principal].account, Some(principal), policy, expiresAt, false)]
      ensures old(Inv(State())) && principal in old(grants) && old(grants)[principal].expiresAt > now
              && (forall a :: a in old(grants) && AncestorOrSelf(old(grants), a, principal) ==> !old(grants)[a].revoked) ==>
                var p := old(grants)[principal].policy;
                var permitted :=
                  && GrantManage in p.capabilities && |Walk(old(grants), principal, MAX_DEPTH)| < 32
                  && (p.projects.AllProjects?
                      || (policy.projects.Selected? && forall j :: j in policy.projects.ids ==> j in p.projects.ids))
                  && (forall c :: c in policy.capabilities ==> c in p.capabilities)
                  && (forall z :: z in policy.sizes ==> z in p.sizes)
                  && (forall g :: g in policy.regions ==> g in p.regions)
                  && policy.currency == p.currency
                  && policy.maxMachines <= p.maxMachines && policy.maxHourlyMicros <= p.maxHourlyMicros;
                && (r == Err(PermissionDenied) <==> !permitted)
                && (r == Err(InvalidInput) <==> permitted && !(now < expiresAt <= old(grants)[principal].expiresAt))
                && (r.Ok? <==> permitted && now < expiresAt <= old(grants)[principal].expiresAt)
    {
      LiveMeans(principal, now);
      var loaded := LoadAuthority(principal, now);
      if loaded.Err? { return Err(loaded.error); }
      var authority := loaded.value;
      if Authorize(authority.policy, GrantManage, None) != Granted { return Err(PermissionDenied); }
      if authority.depth >= MAX_DEPTH { return Err(PermissionDenied); }
      if !Within(policy, authority.policy) { return Err(PermissionDenied); }
      if expiresAt > authority.expiresAt || expiresAt <= now { return Err(InvalidInput); }
      grants := grants[id := Grant(authority.account, Some(principal), policy, expiresAt, false)];
      return Ok(());
    }

    lemma LiveMeans(principal: Id, now: int)
      ensures Inv(State()) && principal in grants && grants[principal].expiresAt > now
              && (forall a :: a in grants && AncestorOrSelf(grants, a, principal) ==> !grants[a].revoked)
              ==> Authorised(grants, principal, now)
                  && Horizon(grants, Walk(grants, principal, MAX_DEPTH)) == grants[principal].expiresAt
    {
      if Inv(State()) && principal in grants {
        AuthorisedExactly(grants, principal, now);
        HorizonIsOwn(grants, principal);
      }
    }

    /** Closes the sessions of a whole subtree; called under the account lock. */
    method CloseGrantAccess(account: Id, grant: Id)
      modifies this`sessions
      ensures sessions == Close(old(sessions), account, Subtree(grants, account, grant))
    {
      sessions := Close(sessions, account, Subtree(grants, account, grant));
    }

    /** The update and the closing that follow every decision to revoke. */
    method MarkAndClose(account: Id, target: Id)
      modifies this
      ensures State() == MarkRevoked(old(State()), target, account)
    {
      if target in grants && grants[target].account == account {
        grants := grants[target := grants[target].(revoked := true)];
        CloseGrantAccess(account, target);
      }
    }

    method RevokeGrant(principal: Id, target: Id, now: int) returns (r: Result<(), Failure>)
      modifies this
      ensures r.Ok? <==> old(RevokeStep(State(), principal, target, now)).Some?
      ensures State() == if r.Ok? then old(RevokeStep(State(), principal, target, now)).value
                         else old(State())
      ensures old(Inv(State())) && principal in old(grants) && old(grants)[principal].expiresAt > now
              && (forall a :: a in old(grants) && AncestorOrSelf(old(grants), a, principal) ==> !old(grants)[a].revoked) ==>
                var below := target in old(grants) && AncestorOrSelf(old(grants), principal, target);
                var manages := target == principal || GrantManage in old(grants)[principal].policy.capabilities;
                && (r == Err(PermissionDenied) <==> !manages)
                && (r == Err(NotFound) <==> manages && !below)
                && (r.Ok? <==> manages && below)
                && (r.Ok? ==> grants == old(grants)[target := old(grants)[target].(revoked := true)])
                && (r.Err? ==> grants == old(grants) && sessions == old(sessions))
    {
      LiveMeans(principal, now);
      if Inv(State()) && principal in grants {
        ClimbsExactly(grants, target, principal);
        if target in grants && AncestorOrSelf(grants, principal, target) { BoundedByEveryAncestor(grants, principal, target); }
      }
      var loaded := LoadAuthority(principal, now);
      if loaded.Err? { return Err(loaded.error); }
      var authority := loaded.value;
      if target != principal && Authorize(authority.policy, GrantManage, None) != Granted {
        return Err(PermissionDenied);
      }
      var descendant := IsInOwnTree(grants, authority.account, target, principal);
      if !descendant { return Err(NotFound); }
      MarkAndClose(authority.account, target);
      return Ok(());
    }

    method AdmitCustomer(user: Id, id: Id, account: Id, policy: Policy, expiresAt: int, now: int)
      returns (r: Result<(), Failure>)
      requires id !in grants
      modifies this
      ensures r.Ok? <==> old(Step(State(), Admit(user, id, account, policy, expiresAt, now))).Some?
      ensures State() == if r.Ok? then old(Step(State(), Admit(user, id, account, policy, expiresAt, now))).value
                         else old(State())
      ensures r.Ok? <==>
                policy.projects.AllProjects? && user !in old(anchors) && now < expiresAt <= now + 31_622_400_000
    {
      if !policy.projects.AllProjects? { return Err(InvalidInput); }
      if user in anchors { return Err(Conflict); }
      if expiresAt <= now || expiresAt > now + 366 * DAY { return Err(InvalidInput); }
      grants := grants[id := Grant(account, None, policy, expiresAt, false)];
      anchors := anchors[user := id];
      return Ok(());
    }

    method Login(user: Id, id: Id, now: int) returns (r: Result<(), Failure>)
      requires id !in grants
      modifies this
      ensures r.Ok? <==> old(SignInStep(State(), user, id, now)).Some?
      ensures State() == if r.Ok? then old(SignInStep(State(), user, id, now)).value else old(State())
      ensures r.Ok? ==>
                && id in grants && grants == old(grants)[id := grants[id]] && now + 60_000 <= grants[id].expiresAt <= now + 2_592_000_000
                && user in old(anchors) && old(anchors)[user] in old(grants)
                && grants[id].parent == Some(old(anchors)[user]) && grants[id].policy == old(grants)[old(anchors)[user]].policy
    {
      if user !in anchors { return Err(PermissionDenied); }
      var loaded := LoadAuthority(anchors[user], now);
      if loaded.Err? { return Err(loaded.error); }
      var expiresAt := Min(loaded.value.expiresAt, now + 30 * DAY);
      if expiresAt - now < 60_000 { return Err(PermissionDenied); }
      grants := grants[id := Grant(loaded.value.account, Some(anchors[user]), loaded.value.policy, expiresAt, false)];
      return Ok(());
    }

    method DisableCustomer(user: Id) returns (r: Result<(), Failure>)
      requires Inv(State())
      modifies this
      ensures r.Ok? <==> old(Step(State(), Disable(user))).Some?
      ensures State() == if r.Ok? then old(Step(State(), Disable(user))).value else old(State())
      ensures r.Ok? <==> user in old(anchors)
      ensures r.Ok? ==> old(anchors)[user] in old(grants)
                        && grants == old(grants)[old(anchors)[user] := old(grants)[old(anchors)[user]].(revoked := true)]
    {
      if user !in anchors { return Err(NotFound); }
      var anchor := anchors[user];
      MarkAndClose(grants[anchor].account, anchor);
      return Ok(());
    }

    method RenewCustomer(user: Id, expected: Id, id: Id, policy: Policy, expiresAt: int, now: int)
      returns (r: Result<(), Failure>)
      requires Inv(State()) && id !in grants
      modifies this
      ensures r.Ok? <==> old(Step(State(), Renew(user, expected, id, policy, expiresAt, now))).Some?
      ensures State() == if r.Ok? then old(Step(State(), Renew(user, expected, id, policy, expiresAt, now))).value
                         else old(State())
      ensures r.Ok? <==>
                && policy.projects.AllProjects? && user in old(anchors) && old(anchors)[user] == expected
                && expected in old(grants) && policy.currency == old(grants)[expected].policy.currency
                && now < expiresAt <= now + 31_622_400_000
    {
      if !policy.projects.AllProjects? { return Err(InvalidInput); }
      if user !in anchors { return Err(NotFound); }
      if anchors[user] != expected { return Err(Conflict); }
      if policy.currency != grants[expected].policy.currency { return Err(InvalidInput); }
      if expiresAt <= now || expiresAt > now + 366 * DAY { return Err(InvalidInput); }
      var account := grants[expected].account;
      MarkAndClose(account, expected);
      grants := grants[id := Grant(account, None, policy, expiresAt, false)];
      anchors := anchors[user := id];
      return Ok(());
    }
  }

  // ---- Facts about ancestries used by the loops ----

  lemma {:induction false} RootedLink(gs: Grants, chain: seq<Id>, i: nat)
    requires Rooted(gs, chain) && 0 < i < |chain| && chain[i - 1] in gs
    ensures gs[chain[i - 1]].parent == Some(chain[i])
  {
    if i > 1 { RootedLink(gs, chain[1..], i - 1); }
  }

  lemma {:induction false} RootedEnds(gs: Grants, chain: seq<Id>)
    requires Rooted(gs, chain)
    ensures chain[|chain| - 1] in gs && gs[chain[|chain| - 1]].parent == None
  {
    if |chain| > 1 { RootedEnds(gs, chain[1..]); }
  }

  lemma {:induction false} LinkedWalkIsRooted(gs: Grants, id: Id, rows: nat)
    requires id in gs && rows > 0
    requires gs[Walk(gs, id, rows)[|Walk(gs, id, rows)| - 1]].parent == None
    ensures Rooted(gs, Walk(gs, id, rows))
    decreases rows
  {
    if gs[id].parent.Some? {
      var rest := Walk(gs, gs[id].parent.value, rows - 1);
      assert Walk(gs, id, rows) == [id] + rest;
      if rest != [] {
        LinkedWalkIsRooted(gs, gs[id].parent.value, rows - 1);
        assert Walk(gs, id, rows)[1..] == rest;
      }
    }
  }
}
