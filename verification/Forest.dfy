/**
 The delegation forest as values: credentials, the bounded recursive walks that SQL performs over
 them, and what every reachable forest keeps. The service itself is in Auth.
 */
module Forest {
  import opened Prelude

  const MAX_DEPTH: nat := 32

  datatype Capability = MachineExec | GrantManage | Other(name: nat)
  datatype Projects = AllProjects | Selected(ids: seq<Id>)
  datatype Policy = Policy(capabilities: seq<Capability>, projects: Projects, sizes: seq<nat>,
    regions: seq<nat>, maxMachines: nat, currency: nat, maxHourlyMicros: nat)

  datatype Grant = Grant(account: Id, parent: Option<Id>, policy: Policy, expiresAt: int, revoked: bool)
  type Grants = map<Id, Grant>

  datatype Decision = Granted | Denied | Hidden

  function Authorize(policy: Policy, capability: Capability, project: Option<Id>): Decision {
    if capability !in policy.capabilities then Denied
    else if project.Some? && policy.projects.Selected? && project.value !in policy.projects.ids then Hidden
    else Granted
  }

  /** assertPolicySubset: every limit of the child lies within its parent's. */
  predicate Within(child: Policy, parent: Policy) {
    && (parent.projects.AllProjects?
        || (child.projects.Selected? && forall id :: id in child.projects.ids ==> id in parent.projects.ids))
    && child.currency == parent.currency
    && (forall c :: c in child.capabilities ==> c in parent.capabilities)
    && (forall z :: z in child.sizes ==> z in parent.sizes)
    && (forall r :: r in child.regions ==> r in parent.regions)
    && child.maxMachines <= parent.maxMachines
    && child.maxHourlyMicros <= parent.maxHourlyMicros
  }

  // ---- The recursive common table expressions ----

  /** The ancestry query: the credential, its parent and so on, at most `rows` rows. */
  function Walk(gs: Grants, id: Id, rows: nat): (chain: seq<Id>)
    ensures |chain| <= rows
    ensures forall x :: x in chain ==> x in gs
    ensures |chain| > 0 <==> id in gs && rows > 0
    ensures |chain| > 0 ==> chain[0] == id
    decreases rows, gs.Keys
  {
    if rows == 0 || id !in gs then []
    else [id] + (match gs[id].parent case None => [] case Some(p) => Walk(gs, p, rows - 1))
  }

  function Children(gs: Grants, account: Id, frontier: set<Id>): set<Id> {
    set x | x in gs && gs[x].account == account && gs[x].parent.Some? && gs[x].parent.value in frontier
  }

  function Levels(gs: Grants, account: Id, frontier: set<Id>, depth: nat): set<Id>
    decreases depth, gs.Keys
  {
    if depth == 0 then {} else frontier + Levels(gs, account, Children(gs, account, frontier), depth - 1)
  }

  /** The subtree query of closeGrantAccess: depths 1 to 32. */
  function Subtree(gs: Grants, account: Id, root: Id): set<Id> {
    Levels(gs, account, if root in gs && gs[root].account == account then {root} else {}, MAX_DEPTH)
  }

  /** The descendants query of listGrants: depths 1 to 31 below the credential. */
  function Descendants(gs: Grants, account: Id, root: Id): set<Id> {
    Levels(gs, account, Children(gs, account, {root}), MAX_DEPTH - 1) - {root}
  }

  // ---- Unbounded meaning ----

  /** A complete ancestry: each credential followed by its parent, ending in a root. */
  ghost predicate Rooted(gs: Grants, chain: seq<Id>) {
    && |chain| > 0
    && chain[0] in gs
    && if |chain| == 1 then gs[chain[0]].parent == None
       else gs[chain[0]].parent == Some(chain[1]) && Rooted(gs, chain[1..])
  }

  ghost predicate Live(gs: Grants, chain: seq<Id>, now: int) {
    && |chain| > 0
    && chain[0] in gs
    && forall x :: x in chain ==>
      x in gs && !gs[x].revoked && gs[x].expiresAt > now && gs[x].account == gs[chain[0]].account
  }

  /** Some complete live ancestry of at most 32 credentials starts at this one. */
  ghost predicate Authorised(gs: Grants, id: Id, now: int) {
    exists chain :: |chain| <= MAX_DEPTH && Rooted(gs, chain) && chain[0] == id && Live(gs, chain, now)
  }

  /** Parent links, followed without any bound. */
  least predicate AncestorOrSelf(gs: Grants, ancestor: Id, id: Id) {
    id in gs && (ancestor == id
                 || (gs[id].parent.Some? && AncestorOrSelf(gs, ancestor, gs[id].parent.value)))
  }

  /** A delegated credential stays within its parent. */
  ghost predicate Delegated(child: Grant, parent: Grant) {
    && child.account == parent.account
    && child.expiresAt <= parent.expiresAt
    && Within(child.policy, parent.policy)
  }

  ghost predicate SoundAt(gs: Grants, id: Id) {
    && id in gs
    && Rooted(gs, Walk(gs, id, MAX_DEPTH))
    && (gs[id].parent.Some? ==> gs[id].parent.value in gs && Delegated(gs[id], gs[gs[id].parent.value]))
  }

  /** What every reachable forest keeps. */
  ghost predicate Sound(gs: Grants) {
    forall id {:trigger SoundAt(gs, id)} :: id in gs ==> SoundAt(gs, id)
  }

  // ---- Chains ----

  lemma {:induction false} ChainIsTheWalk(gs: Grants, chain: seq<Id>, rows: nat)
    requires Rooted(gs, chain) && |chain| <= rows
    ensures Walk(gs, chain[0], rows) == chain
    decreases rows
  {
    if |chain| > 1 {
      var rest := chain[1..];
      assert gs[chain[0]].parent == Some(rest[0]);
      ChainIsTheWalk(gs, rest, rows - 1);
      assert [chain[0]] + rest == chain;
    } else {
      assert chain == [chain[0]];
    }
  }

  lemma {:induction false} RootedFrame(before: Grants, after: Grants, chain: seq<Id>)
    requires Rooted(before, chain)
    requires forall x :: x in chain && x in before ==> x in after && after[x].parent == before[x].parent
    ensures Rooted(after, chain)
  {
    if |chain| > 1 { RootedFrame(before, after, chain[1..]); }
  }

  lemma {:induction false} RootedSuffix(gs: Grants, chain: seq<Id>, i: nat)
    requires Rooted(gs, chain) && i < |chain|
    ensures Rooted(gs, chain[i..])
  {
    if i > 0 {
      RootedSuffix(gs, chain[1..], i - 1);
      assert chain[1..][i - 1..] == chain[i..];
    } else {
      assert chain[0..] == chain;
    }
  }

  /** A complete ancestry never repeats a credential. */
  lemma RootedDistinct(gs: Grants, chain: seq<Id>, i: nat, j: nat)
    requires Rooted(gs, chain) && i < j < |chain|
    ensures chain[i] != chain[j]
  {
    RootedSuffix(gs, chain, i);
    RootedSuffix(gs, chain, j);
    if chain[i] == chain[j] {
      ChainIsTheWalk(gs, chain[i..], |chain|);
      ChainIsTheWalk(gs, chain[j..], |chain|);
      assert false;
    }
  }

  lemma AuthorisedIffWalkLive(gs: Grants, id: Id, now: int)
    ensures Authorised(gs, id, now)
       <==> Rooted(gs, Walk(gs, id, MAX_DEPTH)) && Live(gs, Walk(gs, id, MAX_DEPTH), now)
  {
    if Authorised(gs, id, now) {
      var chain :| |chain| <= MAX_DEPTH && Rooted(gs, chain) && chain[0] == id && Live(gs, chain, now);
      ChainIsTheWalk(gs, chain, MAX_DEPTH);
    }
  }

  /** In a sound forest a child's ancestry is the child followed by its parent's ancestry. */
  lemma WalkOfChild(gs: Grants, id: Id)
    requires Sound(gs) && id in gs && gs[id].parent.Some?
    ensures gs[id].parent.value in gs
    ensures Walk(gs, id, MAX_DEPTH) == [id] + Walk(gs, gs[id].parent.value, MAX_DEPTH)
  {
    assert SoundAt(gs, id);
    var chain := Walk(gs, id, MAX_DEPTH);
    var rest := chain[1..];
    ChainIsTheWalk(gs, rest, MAX_DEPTH);
    assert chain == [id] + rest;
  }

  lemma {:induction false} AncestryIsTheWalk(gs: Grants, ancestor: Id, id: Id)
    requires Sound(gs) && id in gs
    ensures AncestorOrSelf(gs, ancestor, id) <==> ancestor in Walk(gs, id, MAX_DEPTH)
    decreases |Walk(gs, id, MAX_DEPTH)|
  {
    var chain := Walk(gs, id, MAX_DEPTH);
    assert chain[0] == id;
    assert SoundAt(gs, id);
    if gs[id].parent.Some? {
      WalkOfChild(gs, id);
      AncestryIsTheWalk(gs, ancestor, gs[id].parent.value);
    } else {
      assert chain == [id];
    }
  }

  // ---- Limits along an ancestry ----

  lemma WithinTransitive(a: Policy, b: Policy, c: Policy)
    requires Within(a, b) && Within(b, c)
    ensures Within(a, c)
  {
  }

  /** What a delegated credential may do, the delegating one may do. */
  lemma WithinNeverWidens(child: Policy, parent: Policy, capability: Capability, project: Option<Id>)
    requires Within(child, parent) && Authorize(child, capability, project) == Granted
    ensures Authorize(parent, capability, project) == Granted
  {
  }

  /** Policy, expiry and account lie within those of every ancestor, at any distance. */
  lemma {:induction false} BoundedByEveryAncestor(gs: Grants, ancestor: Id, id: Id)
    requires Sound(gs) && id in gs && AncestorOrSelf(gs, ancestor, id)
    ensures ancestor in gs
    ensures Within(gs[id].policy, gs[ancestor].policy)
    ensures var c, a := gs[id].policy, gs[ancestor].policy;
            && (forall x :: x in c.capabilities ==> x in a.capabilities)
            && (forall z :: z in c.sizes ==> z in a.sizes) && (forall r :: r in c.regions ==> r in a.regions)
            && (a.projects.Selected? ==> c.projects.Selected? && forall j :: j in c.projects.ids ==> j in a.projects.ids)
            && c.currency == a.currency && c.maxMachines <= a.maxMachines && c.maxHourlyMicros <= a.maxHourlyMicros
    ensures gs[id].expiresAt <= gs[ancestor].expiresAt
    ensures gs[id].account == gs[ancestor].account
    decreases |Walk(gs, id, MAX_DEPTH)|
  {
    if ancestor != id {
      var parent := gs[id].parent.value;
      assert SoundAt(gs, id);
      WalkOfChild(gs, id);
      BoundedByEveryAncestor(gs, ancestor, parent);
      WithinTransitive(gs[id].policy, gs[parent].policy, gs[ancestor].policy);
    }
  }

  /** In a sound forest only the credential's own expiry and revocations above it can refuse it. */
  lemma AuthorisedExactly(gs: Grants, id: Id, now: int)
    requires Sound(gs)
    ensures Authorised(gs, id, now)
       <==> id in gs && gs[id].expiresAt > now
            && forall a :: a in gs && AncestorOrSelf(gs, a, id) ==> !gs[a].revoked
  {
    AuthorisedIffWalkLive(gs, id, now);
    if id in gs {
      assert SoundAt(gs, id);
      var chain := Walk(gs, id, MAX_DEPTH);
      forall a | a in gs
        ensures AncestorOrSelf(gs, a, id) <==> a in chain
        ensures AncestorOrSelf(gs, a, id) ==> gs[id].expiresAt <= gs[a].expiresAt && gs[id].account == gs[a].account
      {
        AncestryIsTheWalk(gs, a, id);
        if AncestorOrSelf(gs, a, id) { BoundedByEveryAncestor(gs, a, id); }
      }
      assert chain[0] == id;
    }
  }

  // ---- The bounded subtree walks are complete ----

  ghost predicate At(gs: Grants, root: Id, x: Id, k: nat) {
    x in gs && k < |Walk(gs, x, MAX_DEPTH)| && Walk(gs, x, MAX_DEPTH)[k] == root
  }

  lemma AtParent(gs: Grants, root: Id, x: Id, k: nat)
    requires Sound(gs) && root in gs && x in gs
    ensures At(gs, root, x, k + 1)
       <==> gs[x].parent.Some? && At(gs, root, gs[x].parent.value, k)
    ensures At(gs, root, x, k) ==> gs[x].account == gs[root].account
  {
    var chain := Walk(gs, x, MAX_DEPTH);
    assert SoundAt(gs, x);
    if gs[x].parent.Some? {
      WalkOfChild(gs, x);
    } else {
      assert chain == [x];
    }
    if At(gs, root, x, k) {
      assert root in chain;
      AncestryIsTheWalk(gs, root, x);
      BoundedByEveryAncestor(gs, root, x);
    }
  }

  lemma ChildrenAreOneDeeper(gs: Grants, root: Id, frontier: set<Id>, k: nat)
    requires Sound(gs) && root in gs
    requires forall x :: x in frontier <==> At(gs, root, x, k)
    ensures forall x :: x in Children(gs, gs[root].account, frontier) <==> At(gs, root, x, k + 1)
  {
    forall x | x in gs
      ensures x in Children(gs, gs[root].account, frontier) <==> At(gs, root, x, k + 1)
    {
      AtParent(gs, root, x, k);
      AtParent(gs, root, x, k + 1);
    }
  }

  ghost predicate Within32(gs: Grants, root: Id, x: Id, low: nat, high: nat) {
    exists j: nat :: low <= j < high && At(gs, root, x, j)
  }

  lemma {:induction false} LevelsReach(gs: Grants, root: Id, frontier: set<Id>, k: nat, depth: nat, x: Id)
    requires Sound(gs) && root in gs
    requires forall y :: y in frontier <==> At(gs, root, y, k)
    ensures x in Levels(gs, gs[root].account, frontier, depth) <==> Within32(gs, root, x, k, k + depth)
    decreases depth
  {
    if depth > 0 {
      var next := Children(gs, gs[root].account, frontier);
      ChildrenAreOneDeeper(gs, root, frontier, k);
      LevelsReach(gs, root, next, k + 1, depth - 1, x);
      assert x in frontier <==> At(gs, root, x, k);
      assert Within32(gs, root, x, k, k + depth)
        <==> At(gs, root, x, k) || Within32(gs, root, x, k + 1, k + 1 + (depth - 1));
    }
  }

  lemma RootIsLevelZero(gs: Grants, root: Id)
    requires Sound(gs) && root in gs
    ensures forall x :: x in {root} <==> At(gs, root, x, 0)
  {
  }

  /** Depth 32 suffices: the subtree walk finds exactly the credential and all its descendants. */
  lemma SubtreeIsComplete(gs: Grants, root: Id, x: Id)
    requires Sound(gs) && root in gs
    ensures x in Subtree(gs, gs[root].account, root) <==> x in gs && AncestorOrSelf(gs, root, x)
  {
    RootIsLevelZero(gs, root);
    LevelsReach(gs, root, {root}, 0, MAX_DEPTH, x);
    if x in gs {
      AncestryIsTheWalk(gs, root, x);
      if root in Walk(gs, x, MAX_DEPTH) {
        var j :| 0 <= j < |Walk(gs, x, MAX_DEPTH)| && Walk(gs, x, MAX_DEPTH)[j] == root;
        assert At(gs, root, x, j);
      }
    }
  }

  /** Depth 31 suffices below: the listing shows exactly the strict descendants. */
  lemma DescendantsAreComplete(gs: Grants, root: Id, x: Id)
    requires Sound(gs) && root in gs
    ensures x in Descendants(gs, gs[root].account, root)
       <==> x in gs && x != root && AncestorOrSelf(gs, root, x)
  {
    RootIsLevelZero(gs, root);
    ChildrenAreOneDeeper(gs, root, {root}, 0);
    LevelsReach(gs, root, Children(gs, gs[root].account, {root}), 1, MAX_DEPTH - 1, x);
    if x in gs {
      AncestryIsTheWalk(gs, root, x);
      if x != root && root in Walk(gs, x, MAX_DEPTH) {
        var j :| 0 <= j < |Walk(gs, x, MAX_DEPTH)| && Walk(gs, x, MAX_DEPTH)[j] == root;
        assert At(gs, root, x, j);
      }
    }
  }

  // ---- Soundness is kept ----

  /** Same credentials and limits; only revocations differ. */
  ghost predicate SameTree(before: Grants, after: Grants) {
    before.Keys == after.Keys
    && forall id :: id in before ==> after[id] == before[id].(revoked := after[id].revoked)
  }

  lemma {:induction false} SameTreeSameWalk(before: Grants, after: Grants, id: Id, rows: nat)
    requires SameTree(before, after)
    ensures Walk(before, id, rows) == Walk(after, id, rows)
    decreases rows
  {
    if rows > 0 && id in before && before[id].parent.Some? {
      SameTreeSameWalk(before, after, before[id].parent.value, rows - 1);
    }
  }

  lemma RevocationKeepsSound(before: Grants, after: Grants)
    requires Sound(before) && SameTree(before, after)
    ensures Sound(after)
    ensures forall id :: id in before ==> Walk(after, id, MAX_DEPTH) == Walk(before, id, MAX_DEPTH)
  {
    forall id | id in before
      ensures SoundAt(after, id) && Walk(after, id, MAX_DEPTH) == Walk(before, id, MAX_DEPTH)
    {
      assert SoundAt(before, id);
      SameTreeSameWalk(before, after, id, MAX_DEPTH);
      RootedFrame(before, after, Walk(before, id, MAX_DEPTH));
      if before[id].parent.Some? { DelegatedSurvives(before, after, id, before[id].parent.value); }
    }
  }

  lemma DelegatedSurvives(before: Grants, after: Grants, id: Id, parent: Id)
    requires SameTree(before, after) && id in before && parent in before
    requires Delegated(before[id], before[parent])
    ensures Delegated(after[id], after[parent])
  {
  }

  /** A new credential under a parent with room below it, or a new root. */
  ghost predicate MayInsert(gs: Grants, id: Id, g: Grant) {
    && id !in gs
    && (g.parent.Some? ==>
          && g.parent.value in gs
          && |Walk(gs, g.parent.value, MAX_DEPTH)| < MAX_DEPTH
          && Delegated(g, gs[g.parent.value]))
  }

  lemma InsertionKeepsWalk(gs: Grants, id: Id, g: Grant, x: Id)
    requires Sound(gs) && id !in gs && x in gs
    ensures Walk(gs[id := g], x, MAX_DEPTH) == Walk(gs, x, MAX_DEPTH)
    ensures SoundAt(gs[id := g], x)
  {
    assert SoundAt(gs, x);
    var chain := Walk(gs, x, MAX_DEPTH);
    RootedFrame(gs, gs[id := g], chain);
    ChainIsTheWalk(gs[id := g], chain, MAX_DEPTH);
  }

  lemma InsertionKeepsSound(gs: Grants, id: Id, g: Grant)
    requires Sound(gs) && MayInsert(gs, id, g)
    ensures Sound(gs[id := g])
    ensures forall x :: x in gs ==> Walk(gs[id := g], x, MAX_DEPTH) == Walk(gs, x, MAX_DEPTH)
    ensures Walk(gs[id := g], id, MAX_DEPTH)
         == [id] + (if g.parent.Some? then Walk(gs, g.parent.value, MAX_DEPTH) else [])
  {
    var after := gs[id := g];
    forall x | x in gs
      ensures SoundAt(after, x) && Walk(after, x, MAX_DEPTH) == Walk(gs, x, MAX_DEPTH)
    {
      InsertionKeepsWalk(gs, id, g, x);
    }
    var above := if g.parent.Some? then Walk(gs, g.parent.value, MAX_DEPTH) else [];
    if g.parent.Some? { assert SoundAt(gs, g.parent.value); }
    var chain := [id] + above;
    if g.parent.Some? { RootedFrame(gs, after, above); assert chain[1..] == above; }
    ChainIsTheWalk(after, chain, MAX_DEPTH);
    assert SoundAt(after, id);
  }
}
