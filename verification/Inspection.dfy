/**
 The inspection that precedes resume: it reads bounded tables and the provider's inventory, and pushes a
 blocker for everything that does not agree. Only an empty list permits resume, so what matters is exactly
 what an empty list means.
 */
module Inspection {
  import opened Prelude
  import opened Journal
  import BackupRecords

  const MAX_ROWS: nat := 1000

  /** The label that marks every managed provider resource. */
  const MANAGED_BY: Id := 1
  const AGENT_CLOUD: Id := 1

  datatype MachineState = Elsewhere | Allocated(allocation: Id, server: Id)
  datatype Machine = Machine(id: Id, account: Id, state: MachineState)
  datatype Offer = Offer(serverType: Id, region: Id)
  datatype Allocation = Allocation(id: Id, machine: Id, account: Id, provider: Id, server: Option<Id>,
                                   retired: bool, managed: bool, offer: Option<Offer>)
  datatype Resource = Resource(provider: Id, kind: Kind, id: Id, allocation: Id, labels: Labels, absent: bool)
  datatype Flagged = Flagged(id: Id, ok: bool)  // a terminal operation, a settled attempt, a done purge, a disabled schedule
  datatype BackupRow = BackupRow(id: Id, state: BackupRecords.BackupState, work: BackupRecords.Work)
  datatype RestoreRow = RestoreRow(id: Id, state: BackupRecords.RestoreState, work: BackupRecords.RestoreWork)

  datatype Database = Database(machines: seq<Machine>, allocations: seq<Allocation>, operations: seq<Flagged>,
                               attempts: seq<Flagged>, resources: seq<Resource>, backups: seq<BackupRow>,
                               restores: seq<RestoreRow>, purges: seq<Flagged>, schedules: seq<Flagged>)

  /** Exact reads, a second exact read where the source makes one, the label search, and object verification. */
  datatype World = World(kind: Id, server: Id -> Option<Server>, ip: Id -> Option<Ip>,
                         serverAgain: Id -> Option<Server>, ipAgain: Id -> Option<Ip>,
                         servers: seq<Server>, ips: seq<Ip>, verifies: Option<Id -> bool>)

  datatype Domain = Machines | Allocations | Operations | Inventory | Backups
  datatype Blocker = Blocker(domain: Domain, id: Option<Id>)

  // ---- what each row must show

  function Bound<T>(rows: seq<T>): (r: seq<T>)
    ensures r <= rows && |r| <= MAX_ROWS
    ensures |rows| <= MAX_ROWS ==> r == rows
  {
    if |rows| > MAX_ROWS then rows[..MAX_ROWS] else rows
  }

  /** The allocation that an allocated machine names, and which names it back. */
  predicate Bonded(m: Machine, a: Allocation) {
    m.state.Allocated? && a.id == m.state.allocation && a.machine == m.id && !a.retired
  }

  predicate MachineOk(m: Machine, allocations: seq<Allocation>) {
    m.state.Allocated? ==> exists i :: 0 <= i < |allocations| && Bonded(m, allocations[i])
  }

  function LabelsSeen(r: Resource, w: World): Option<Labels> {
    if r.kind.ServerKind? then var s := w.server(r.id); if s.Some? then Some(s.value.labels) else None
    else var i := w.ip(r.id); if i.Some? then Some(i.value.labels) else None
  }

  /** A row of the configured provider is live exactly when its resource is there, under its labels. */
  predicate ResourceOk(r: Resource, w: World) {
    && r.provider == w.kind
    && (r.absent <==> LabelsSeen(r, w).None?)
    && (LabelsSeen(r, w).Some? ==> MatchesLabels(LabelsSeen(r, w).value, r.labels))
  }

  predicate Agrees(a: Allocation, m: Machine, w: World) {
    && m.account == a.account
    && m.state.Allocated? && m.state.allocation == a.id && Some(m.state.server) == a.server
    && a.provider == w.kind
  }

  predicate IsServerRow(r: Resource, a: Allocation) {
    r.allocation == a.id && r.provider == a.provider && r.kind.ServerKind? && Some(r.id) == a.server && !r.absent
  }

  predicate IsIpRow(r: Resource, a: Allocation) {
    r.allocation == a.id && r.provider == a.provider && r.kind.IpKind? && !r.absent
  }

  predicate ServerOk(a: Allocation, row: Resource, w: World) {
    && a.server.Some? && w.serverAgain(a.server.value).Some? && a.offer.Some?
    && var s := w.serverAgain(a.server.value).value;
    && s.id == a.server.value && MatchesLabels(s.labels, row.labels)
    && s.serverType == a.offer.value.serverType && s.region == a.offer.value.region
  }

  predicate IpOk(a: Allocation, row: Resource, s: Server, w: World)
    requires a.offer.Some?
  {
    && w.ipAgain(row.id).Some?
    && var i := w.ipAgain(row.id).value;
    && i.id == row.id && MatchesLabels(i.labels, row.labels) && i.region == a.offer.value.region
    && i.assignment == Some(s.id) && s.primaryIp == Some(i.id)
  }

  function FindMachine(machines: seq<Machine>, id: Id): (m: Option<Machine>)
    ensures m.Some? ==> m.value in machines && m.value.id == id
    ensures m.None? ==> forall i :: 0 <= i < |machines| ==> machines[i].id != id
  {
    if machines == [] then None
    else if machines[0].id == id then Some(machines[0])
    else FindMachine(machines[1..], id)
  }

  function FindServerRow(resources: seq<Resource>, a: Allocation): (r: Option<Resource>)
    ensures r.Some? ==> r.value in resources && IsServerRow(r.value, a)
    ensures r.None? ==> forall i :: 0 <= i < |resources| ==> !IsServerRow(resources[i], a)
  {
    if resources == [] then None
    else if IsServerRow(resources[0], a) then Some(resources[0])
    else FindServerRow(resources[1..], a)
  }

  function IpRows(resources: seq<Resource>, a: Allocation): (r: seq<Resource>)
    ensures forall x :: x in r <==> x in resources && IsIpRow(x, a)
  {
    if resources == [] then []
    else (if IsIpRow(resources[0], a) then [resources[0]] else []) + IpRows(resources[1..], a)
  }

  predicate NoLiveRow(a: Allocation, resources: seq<Resource>) {
    forall i :: 0 <= i < |resources| && resources[i].allocation == a.id ==> resources[i].absent
  }

  predicate AllocationOk(a: Allocation, machines: seq<Machine>, resources: seq<Resource>, w: World) {
    if a.retired then NoLiveRow(a, resources)
    else
      && var m := FindMachine(machines, a.machine);
      && m.Some? && Agrees(a, m.value, w)
      && var row := FindServerRow(resources, a);
      && row.Some? && ServerOk(a, row.value, w)
      && var s := w.serverAgain(a.server.value).value;
      && var ips := IpRows(resources, a);
      && |ips| <= 1
      && if |ips| == 1 then IpOk(a, ips[0], s, w) else !a.managed && s.primaryIp.None?
  }

  predicate IsFoundRow(r: Resource, kind: Kind, id: Id, labels: Labels, w: World) {
    r.provider == w.kind && r.kind == kind && r.id == id && !r.absent
  }

  /** A managed resource that the search turns up is a live row's, under that row's labels. */
  predicate FoundOk(kind: Kind, id: Id, labels: Labels, resources: seq<Resource>, w: World) {
    var row := FindFound(resources, kind, id, labels, w);
    row.Some? && MatchesLabels(labels, row.value.labels)
  }

  function FindFound(resources: seq<Resource>, kind: Kind, id: Id, labels: Labels, w: World): (r: Option<Resource>)
    ensures r.Some? ==> r.value in resources && IsFoundRow(r.value, kind, id, labels, w)
    ensures r.None? ==> forall i :: 0 <= i < |resources| ==> !IsFoundRow(resources[i], kind, id, labels, w)
  {
    if resources == [] then None
    else if IsFoundRow(resources[0], kind, id, labels, w) then Some(resources[0])
    else FindFound(resources[1..], kind, id, labels, w)
  }

  predicate BackupOk(b: BackupRow, w: World) {
    || b.state.Purged?
    || (b.state.Available? && b.work.Stored? && b.work.cleaned && w.verifies.Some? && w.verifies.value(b.id))
  }

  predicate RestoreOk(r: RestoreRow) {
    r.state.Restored? && r.work.Done?
  }

  predicate Small<T>(rows: seq<T>) {
    |rows| <= MAX_ROWS
  }

  predicate AllOk(rows: seq<Flagged>) {
    forall i :: 0 <= i < |rows| ==> rows[i].ok
  }

  lemma FlaggedOk(rows: seq<Flagged>, f: Flagged)
    requires AllOk(rows) && f in rows
    ensures f.ok
  {
  }

  predicate TablesClean(db: Database) {
    && Small(db.machines) && Small(db.allocations) && Small(db.operations) && Small(db.attempts) && Small(db.resources)
    && AllOk(db.operations) && AllOk(db.attempts)
    && forall i :: 0 <= i < |db.machines| ==> MachineOk(db.machines[i], db.allocations)
  }

  predicate InventoryClean(db: Database, w: World) {
    && (forall i :: 0 <= i < |db.resources| ==> ResourceOk(db.resources[i], w))
    && (forall i :: 0 <= i < |db.allocations| ==> AllocationOk(db.allocations[i], db.machines, db.resources, w))
    && Small(w.servers) && Small(w.ips)
    && (forall i :: 0 <= i < |w.servers| ==> FoundOk(ServerKind, w.servers[i].id, w.servers[i].labels, db.resources, w))
    && (forall i :: 0 <= i < |w.ips| ==> FoundOk(IpKind, w.ips[i].id, w.ips[i].labels, db.resources, w))
  }

  predicate BackupsClean(db: Database, w: World) {
    && Small(db.backups) && Small(db.restores) && Small(db.purges) && Small(db.schedules)
    && (forall i :: 0 <= i < |db.backups| ==> BackupOk(db.backups[i], w))
    && (forall i :: 0 <= i < |db.restores| ==> RestoreOk(db.restores[i]))
    && AllOk(db.purges) && AllOk(db.schedules)
  }

  predicate Clean(db: Database, w: World) {
    TablesClean(db) && InventoryClean(db, w) && BackupsClean(db, w)
  }

  // ---- the inspection

  /** bounded: at most a thousand rows, and a blocker when there were more. */
  method Bounded<T>(rows: seq<T>, blockers: seq<Blocker>, domain: Domain) returns (kept: seq<T>, out: seq<Blocker>)
    ensures kept == Bound(rows)
    ensures kept == if |rows| > 1000 then rows[..1000] else rows
    ensures out == [] <==> blockers == [] && |rows| <= 1000
  {
    out := blockers;
    if |rows| > MAX_ROWS { out := out + [Blocker(domain, None)]; }
    kept := if |rows| > MAX_ROWS then rows[..MAX_ROWS] else rows;
  }

  method PushUnless(rows: seq<Flagged>, blockers: seq<Blocker>, domain: Domain) returns (out: seq<Blocker>)
    ensures out == [] <==> blockers == [] && AllOk(rows)
  {
    out := blockers;
    var i := 0;
    while i < |rows|
      invariant 0 <= i <= |rows|
      invariant out == [] <==> blockers == [] && AllOk(rows[..i])
    {
      if !rows[i].ok { out := out + [Blocker(domain, Some(rows[i].id))]; }
      i := i + 1;
    }
    assert rows[..i] == rows;
  }

  method InspectMachines(machines: seq<Machine>, allocations: seq<Allocation>, blockers: seq<Blocker>) returns (out: seq<Blocker>)
    ensures out == [] <==> blockers == [] && forall i :: 0 <= i < |machines| ==> MachineOk(machines[i], allocations)
  {
    out := blockers;
    var i := 0;
    while i < |machines|
      invariant 0 <= i <= |machines|
      invariant out == [] <==> blockers == [] && forall k :: 0 <= k < i ==> MachineOk(machines[k], allocations)
    {
      if !MachineOk(machines[i], allocations) { out := out + [Blocker(Machines, Some(machines[i].id))]; }
      i := i + 1;
    }
  }

  method InspectResources(resources: seq<Resource>, w: World, blockers: seq<Blocker>) returns (out: seq<Blocker>)
    ensures out == [] <==> blockers == [] && forall i :: 0 <= i < |resources| ==> ResourceOk(resources[i], w)
  {
    out := blockers;
    var i := 0;
    while i < |resources|
      invariant 0 <= i <= |resources|
      invariant out == [] <==> blockers == [] && forall k :: 0 <= k < i ==> ResourceOk(resources[k], w)
    {
      var r := resources[i];
      var here := Blocker(Inventory, Some(r.id));
      if r.provider != w.kind {
        out := out + [here];
      } else {
        var observed := LabelsSeen(r, w);
        if r.absent && observed.Some? { out := out + [here]; }
        if !r.absent && observed.None? { out := out + [here]; }
        if observed.Some? && !MatchesLabels(observed.value, r.labels) { out := out + [here]; }
      }
      i := i + 1;
    }
  }

  method InspectRetired(a: Allocation, resources: seq<Resource>, blockers: seq<Blocker>) returns (out: seq<Blocker>)
    ensures out == [] <==> blockers == [] && NoLiveRow(a, resources)
  {
    out := blockers;
    var i := 0;
    while i < |resources|
      invariant 0 <= i <= |resources|
      invariant out == [] <==> blockers == [] && NoLiveRow(a, resources[..i])
    {
      if resources[i].allocation == a.id && !resources[i].absent { out := out + [Blocker(Allocations, Some(a.id))]; }
      i := i + 1;
    }
    assert resources[..i] == resources;
  }

  method InspectAllocation(a: Allocation, machines: seq<Machine>, resources: seq<Resource>, w: World, blockers: seq<Blocker>)
    returns (out: seq<Blocker>)
    ensures out == [] <==> blockers == [] && AllocationOk(a, machines, resources, w)
  {
    out := blockers;
    var here := Blocker(Allocations, Some(a.id));
    if a.retired {
      out := InspectRetired(a, resources, blockers);
      return;
    }
    var m := FindMachine(machines, a.machine);
    if m.None? || m.value.account != a.account || !m.value.state.Allocated? || m.value.state.allocation != a.id
       || Some(m.value.state.server) != a.server || a.provider != w.kind {
      return out + [here];
    }
    var row := FindServerRow(resources, a);
    var server := w.serverAgain(m.value.state.server);
    if row.None? || server.None? || Some(server.value.id) != a.server || !MatchesLabels(server.value.labels, row.value.labels)
       || a.offer.None? || server.value.serverType != a.offer.value.serverType || server.value.region != a.offer.value.region {
      return out + [here];
    }
    var ips := IpRows(resources, a);
    if |ips| > 1 { out := out + [here]; }
    if |ips| > 0 {
      var ip := w.ipAgain(ips[0].id);
      if ip.None? || ip.value.id != ips[0].id || !MatchesLabels(ip.value.labels, ips[0].labels)
         || ip.value.region != a.offer.value.region || ip.value.assignment != Some(server.value.id)
         || server.value.primaryIp != Some(ip.value.id) {
        out := out + [here];
      }
    } else if a.managed || server.value.primaryIp.Some? {
      out := out + [here];
    }
  }

  method InspectAllocations(allocations: seq<Allocation>, machines: seq<Machine>, resources: seq<Resource>, w: World,
                            blockers: seq<Blocker>)
    returns (out: seq<Blocker>)
    ensures out == [] <==> blockers == [] && forall i :: 0 <= i < |allocations| ==> AllocationOk(allocations[i], machines, resources, w)
  {
    out := blockers;
    var i := 0;
    while i < |allocations|
      invariant 0 <= i <= |allocations|
      invariant out == [] <==> blockers == [] && forall k :: 0 <= k < i ==> AllocationOk(allocations[k], machines, resources, w)
    {
      out := InspectAllocation(allocations[i], machines, resources, w, out);
      i := i + 1;
    }
  }

  method InspectFound(w: World, resources: seq<Resource>, blockers: seq<Blocker>) returns (out: seq<Blocker>)
    ensures out == [] <==>
              blockers == [] && Small(w.servers) && Small(w.ips)
              && (forall i :: 0 <= i < |Bound(w.servers)| ==> FoundOk(ServerKind, w.servers[i].id, w.servers[i].labels, resources, w))
              && (forall i :: 0 <= i < |Bound(w.ips)| ==> FoundOk(IpKind, w.ips[i].id, w.ips[i].labels, resources, w))
  {
    out := blockers;
    if |w.servers| > MAX_ROWS || |w.ips| > MAX_ROWS { out := out + [Blocker(Inventory, None)]; }
    ghost var first := out;
    var i := 0;
    while i < |w.servers| && i < MAX_ROWS
      invariant 0 <= i <= |Bound(w.servers)|
      invariant out == [] <==>
                  first == [] && forall k :: 0 <= k < i ==> FoundOk(ServerKind, w.servers[k].id, w.servers[k].labels, resources, w)
    {
      if !FoundOk(ServerKind, w.servers[i].id, w.servers[i].labels, resources, w) {
        out := out + [Blocker(Inventory, Some(w.servers[i].id))];
      }
      i := i + 1;
    }
    ghost var second := out;
    i := 0;
    while i < |w.ips| && i < MAX_ROWS
      invariant 0 <= i <= |Bound(w.ips)|
      invariant out == [] <==>
                  second == [] && forall k :: 0 <= k < i ==> FoundOk(IpKind, w.ips[k].id, w.ips[k].labels, resources, w)
    {
      if !FoundOk(IpKind, w.ips[i].id, w.ips[i].labels, resources, w) {
        out := out + [Blocker(Inventory, Some(w.ips[i].id))];
      }
      i := i + 1;
    }
  }

  method InspectBackups(backups: seq<BackupRow>, w: World, blockers: seq<Blocker>) returns (out: seq<Blocker>)
    ensures out == [] <==> blockers == [] && forall i :: 0 <= i < |backups| ==> BackupOk(backups[i], w)
  {
    out := blockers;
    var i := 0;
    while i < |backups|
      invariant 0 <= i <= |backups|
      invariant out == [] <==> blockers == [] && forall k :: 0 <= k < i ==> BackupOk(backups[k], w)
    {
      var b := backups[i];
      var here := Blocker(Backups, Some(b.id));
      var stable := (b.state.Available? && b.work.Stored? && b.work.cleaned) || b.state.Purged?;
      if !stable {
        out := out + [here];
      } else if b.state.Available? {
        if w.verifies.None? || !w.verifies.value(b.id) { out := out + [here]; }
      }
      i := i + 1;
    }
  }

  method InspectRestores(restores: seq<RestoreRow>, blockers: seq<Blocker>) returns (out: seq<Blocker>)
    ensures out == [] <==> blockers == [] && forall i :: 0 <= i < |restores| ==> RestoreOk(restores[i])
  {
    out := blockers;
    var i := 0;
    while i < |restores|
      invariant 0 <= i <= |restores|
      invariant out == [] <==> blockers == [] && forall k :: 0 <= k < i ==> RestoreOk(restores[k])
    {
      if !restores[i].state.Restored? || !restores[i].work.Done? { out := out + [Blocker(Backups, Some(restores[i].id))]; }
      i := i + 1;
    }
  }

  /** inspectControlRecovery over the machine, provider and backup domains. */
  method Inspect(db: Database, w: World) returns (blockers: seq<Blocker>)
    ensures blockers == [] <==> TablesClean(db) && InventoryClean(db, w) && BackupsClean(db, w)
    ensures blockers == [] <==> Clean(db, w)
  {
    blockers := [];
    var machines, allocations, operations, attempts, resources;
    machines, blockers := Bounded(db.machines, blockers, Machines);
    allocations, blockers := Bounded(db.allocations, blockers, Allocations);
    operations, blockers := Bounded(db.operations, blockers, Operations);
    attempts, blockers := Bounded(db.attempts, blockers, Operations);
    resources, blockers := Bounded(db.resources, blockers, Inventory);
    blockers := PushUnless(operations, blockers, Operations);
    blockers := PushUnless(attempts, blockers, Operations);
    blockers := InspectMachines(machines, allocations, blockers);
    assert blockers == [] <==> TablesClean(db);
    blockers := InspectResources(resources, w, blockers);
    blockers := InspectAllocations(allocations, machines, resources, w, blockers);
    blockers := InspectFound(w, resources, blockers);
    assert blockers == [] <==> TablesClean(db) && InventoryClean(db, w);
    var backups, restores, purges, schedules;
    backups, blockers := Bounded(db.backups, blockers, Backups);
    restores, blockers := Bounded(db.restores, blockers, Backups);
    purges, blockers := Bounded(db.purges, blockers, Backups);
    schedules, blockers := Bounded(db.schedules, blockers, Backups);
    blockers := InspectBackups(backups, w, blockers);
    blockers := InspectRestores(restores, blockers);
    blockers := PushUnless(purges, blockers, Backups);
    blockers := PushUnless(schedules, blockers, Backups);
  }

  // ---- what an empty list means

  /** Primary keys, as the database enforces them. */
  predicate Keyed(db: Database) {
    && (forall i, j :: 0 <= i < j < |db.machines| ==> db.machines[i].id != db.machines[j].id)
    && (forall i, j :: 0 <= i < j < |db.allocations| ==> db.allocations[i].id != db.allocations[j].id)
    && (forall i, j :: 0 <= i < j < |db.resources| ==>
          !(db.resources[i].provider == db.resources[j].provider && db.resources[i].kind == db.resources[j].kind
            && db.resources[i].id == db.resources[j].id))
  }

  /** A found item agrees exactly if a live row of the configured provider names it and its labels carry the row's. */
  lemma FoundOkExactly(db: Database, w: World, kind: Kind, id: Id, labels: Labels)
    requires Keyed(db)
    ensures FoundOk(kind, id, labels, db.resources, w) <==>
      exists r :: 0 <= r < |db.resources| && db.resources[r].provider == w.kind && db.resources[r].kind == kind
        && db.resources[r].id == id && !db.resources[r].absent
        && (forall k :: k in db.resources[r].labels ==> k in labels && labels[k] == db.resources[r].labels[k])
  {
    var row := FindFound(db.resources, kind, id, labels, w);
    if row.Some? { var x :| 0 <= x < |db.resources| && db.resources[x] == row.value; }
  }

  /** A retired allocation agrees exactly if none of its rows is live. */
  lemma RetiredExactly(db: Database, w: World, a: Allocation)
    requires a.retired
    ensures AllocationOk(a, db.machines, db.resources, w) <==>
      forall r :: 0 <= r < |db.resources| && db.resources[r].allocation == a.id ==> db.resources[r].absent
  {
  }

  /**
   An allocation in use agrees exactly if its machine names it, its server's live row and a second read of the server
   show the admitted type and region under the row's labels, and its IP is the one assigned to that server: one live
   IP row, read again in that region, or none at all for an allocation that needs none.
   */
  lemma InUseExactly(db: Database, w: World, a: Allocation)
    requires Keyed(db) && !a.retired
    ensures AllocationOk(a, db.machines, db.resources, w) <==>
      && a.server.Some? && a.offer.Some? && a.provider == w.kind
      && (exists i :: 0 <= i < |db.machines| && db.machines[i].id == a.machine && db.machines[i].account == a.account
            && db.machines[i].state == Allocated(a.id, a.server.value))
      && w.serverAgain(a.server.value).Some?
      && var s := w.serverAgain(a.server.value).value;
      && s.id == a.server.value && s.serverType == a.offer.value.serverType && s.region == a.offer.value.region
      && (exists r :: 0 <= r < |db.resources| && db.resources[r].allocation == a.id && db.resources[r].provider == w.kind
            && db.resources[r].kind.ServerKind? && db.resources[r].id == a.server.value && !db.resources[r].absent
            && (forall k :: k in db.resources[r].labels ==> k in s.labels && s.labels[k] == db.resources[r].labels[k]))
      && (forall r, q :: 0 <= r < q < |db.resources| ==>
            !(IsLiveIp(db.resources[r], a.id, w.kind) && IsLiveIp(db.resources[q], a.id, w.kind)))
      && (forall r :: 0 <= r < |db.resources| && IsLiveIp(db.resources[r], a.id, w.kind) ==>
            && w.ipAgain(db.resources[r].id).Some?
            && var i := w.ipAgain(db.resources[r].id).value;
            && i.id == db.resources[r].id && i.region == a.offer.value.region
            && i.assignment == Some(s.id) && s.primaryIp == Some(i.id)
            && (forall k :: k in db.resources[r].labels ==> k in i.labels && i.labels[k] == db.resources[r].labels[k]))
      && ((forall r :: 0 <= r < |db.resources| ==> !IsLiveIp(db.resources[r], a.id, w.kind)) ==>
            !a.managed && s.primaryIp.None?)
  {
    var m := FindMachine(db.machines, a.machine);
    if m.Some? { var i :| 0 <= i < |db.machines| && db.machines[i] == m.value; }
    if a.server.Some? && a.offer.Some? && a.provider == w.kind && w.serverAgain(a.server.value).Some? {
      ServerRowExactly(db, w, a, w.serverAgain(a.server.value).value);
      IpsExactly(db, w, a, w.serverAgain(a.server.value).value);
    }
  }

  lemma ServerRowExactly(db: Database, w: World, a: Allocation, s: Server)
    requires Keyed(db) && a.server.Some? && a.provider == w.kind
    ensures (FindServerRow(db.resources, a).Some? && MatchesLabels(s.labels, FindServerRow(db.resources, a).value.labels)) <==>
      exists r :: 0 <= r < |db.resources| && db.resources[r].allocation == a.id && db.resources[r].provider == w.kind
            && db.resources[r].kind.ServerKind? && db.resources[r].id == a.server.value && !db.resources[r].absent
            && (forall k :: k in db.resources[r].labels ==> k in s.labels && s.labels[k] == db.resources[r].labels[k])
  {
    var row := FindServerRow(db.resources, a);
    if row.Some? { var r :| 0 <= r < |db.resources| && db.resources[r] == row.value; }
  }

  lemma IpsExactly(db: Database, w: World, a: Allocation, s: Server)
    requires Keyed(db) && a.offer.Some? && a.provider == w.kind
    ensures var ips := IpRows(db.resources, a);
      (|ips| <= 1 && if |ips| == 1 then IpOk(a, ips[0], s, w) else !a.managed && s.primaryIp.None?) <==>
      && (forall r, q :: 0 <= r < q < |db.resources| ==>
            !(IsLiveIp(db.resources[r], a.id, w.kind) && IsLiveIp(db.resources[q], a.id, w.kind)))
      && (forall r :: 0 <= r < |db.resources| && IsLiveIp(db.resources[r], a.id, w.kind) ==>
            && w.ipAgain(db.resources[r].id).Some?
            && var i := w.ipAgain(db.resources[r].id).value;
            && i.id == db.resources[r].id && i.region == a.offer.value.region
            && i.assignment == Some(s.id) && s.primaryIp == Some(i.id)
            && (forall k :: k in db.resources[r].labels ==> k in i.labels && i.labels[k] == db.resources[r].labels[k]))
      && ((forall r :: 0 <= r < |db.resources| ==> !IsLiveIp(db.resources[r], a.id, w.kind)) ==>
            !a.managed && s.primaryIp.None?)
  {
    var ips := IpRows(db.resources, a);
    forall r | 0 <= r < |db.resources| ensures IsLiveIp(db.resources[r], a.id, w.kind) <==> IsIpRow(db.resources[r], a) {}
    if |ips| == 0 {
      NoIpRow(db.resources, a);
    } else if |ips| == 1 {
      FewRowsAreOne(db, a);
      var x := IpRowIndex(db.resources, a, ips[0]);
      assert IsLiveIp(db.resources[x], a.id, w.kind);
      forall r | 0 <= r < |db.resources| && IsLiveIp(db.resources[r], a.id, w.kind) ensures r == x {}
    } else {
      ManyRowsAreTwo(db.resources, a);
    }
  }

  lemma {:induction false} IpRowsAt(resources: seq<Resource>, a: Allocation)
    requires IpRows(resources, a) != []
    ensures exists i :: 0 <= i < |resources| && IsIpRow(resources[i], a)
  {
    assert IpRows(resources, a)[0] in resources;
  }

  lemma {:induction false} ManyRowsAreTwo(resources: seq<Resource>, a: Allocation)
    requires |IpRows(resources, a)| >= 2
    ensures exists i, k :: 0 <= i < k < |resources| && IsIpRow(resources[i], a) && IsIpRow(resources[k], a)
  {
    var rest := resources[1..];
    if IsIpRow(resources[0], a) {
      IpRowsAt(rest, a);
      var k :| 0 <= k < |rest| && IsIpRow(rest[k], a);
      assert resources[k + 1] == rest[k];
    } else {
      ManyRowsAreTwo(rest, a);
      var i, k :| 0 <= i < k < |rest| && IsIpRow(rest[i], a) && IsIpRow(rest[k], a);
      assert resources[i + 1] == rest[i] && resources[k + 1] == rest[k];
    }
  }

  predicate IsLiveIp(r: Resource, allocation: Id, provider: Id) {
    r.allocation == allocation && r.provider == provider && r.kind.IpKind? && !r.absent
  }

  /** The tables: complete, no operation or attempt under way, and every allocated machine in its own allocation. */
  lemma TablesCleanExactly(db: Database)
    ensures TablesClean(db) <==>
      && |db.machines| <= 1000 && |db.allocations| <= 1000 && |db.operations| <= 1000 && |db.attempts| <= 1000
      && |db.resources| <= 1000
      && (forall i :: 0 <= i < |db.operations| ==> db.operations[i].ok)
      && (forall i :: 0 <= i < |db.attempts| ==> db.attempts[i].ok)
      && (forall i :: 0 <= i < |db.machines| && db.machines[i].state.Allocated? ==>
            exists j :: 0 <= j < |db.allocations| && db.allocations[j].id == db.machines[i].state.allocation
              && db.allocations[j].machine == db.machines[i].id && !db.allocations[j].retired)
  {
    MachinesExactly(db);
  }

  /** Protected backups: all purged, or stored, cleaned and verified; all restores done; no purge or schedule under way. */
  lemma BackupsCleanExactly(db: Database, w: World)
    ensures BackupsClean(db, w) <==>
      && |db.backups| <= 1000 && |db.restores| <= 1000 && |db.purges| <= 1000 && |db.schedules| <= 1000
      && (forall i :: 0 <= i < |db.purges| ==> db.purges[i].ok)
      && (forall i :: 0 <= i < |db.schedules| ==> db.schedules[i].ok)
      && (forall i :: 0 <= i < |db.backups| ==>
            || db.backups[i].state.Purged?
            || (db.backups[i].state.Available? && db.backups[i].work.Stored? && db.backups[i].work.cleaned
                && w.verifies.Some? && w.verifies.value(db.backups[i].id)))
      && (forall i :: 0 <= i < |db.restores| ==> db.restores[i].state.Restored?)
      && (forall i :: 0 <= i < |db.restores| ==> db.restores[i].work.Done?)
  {
  }

  lemma MachinesExactly(db: Database)
    ensures (forall i :: 0 <= i < |db.machines| ==> MachineOk(db.machines[i], db.allocations)) <==>
      forall i :: 0 <= i < |db.machines| && db.machines[i].state.Allocated? ==>
        exists j :: 0 <= j < |db.allocations| && db.allocations[j].id == db.machines[i].state.allocation
          && db.allocations[j].machine == db.machines[i].id && !db.allocations[j].retired
  {
    forall i | 0 <= i < |db.machines|
      ensures MachineOk(db.machines[i], db.allocations) <==> (db.machines[i].state.Allocated? ==>
        exists j :: 0 <= j < |db.allocations| && db.allocations[j].id == db.machines[i].state.allocation
          && db.allocations[j].machine == db.machines[i].id && !db.allocations[j].retired)
    {
      if MachineOk(db.machines[i], db.allocations) && db.machines[i].state.Allocated? {
        var j :| 0 <= j < |db.allocations| && Bonded(db.machines[i], db.allocations[j]);
      } else if db.machines[i].state.Allocated? {
        assert forall j :: 0 <= j < |db.allocations| ==> !Bonded(db.machines[i], db.allocations[j]);
      }
    }
  }

  /** A ledger row agrees exactly if an exact read finds what the row says: nothing, or its resource under its labels. */
  lemma ResourceOkExactly(r: Resource, w: World)
    ensures ResourceOk(r, w) <==>
      && r.provider == w.kind
      && if r.kind.ServerKind?
         then (if r.absent then w.server(r.id).None?
               else w.server(r.id).Some?
                    && forall k :: k in r.labels ==>
                         k in w.server(r.id).value.labels && w.server(r.id).value.labels[k] == r.labels[k])
         else (if r.absent then w.ip(r.id).None?
               else w.ip(r.id).Some?
                    && forall k :: k in r.labels ==>
                         k in w.ip(r.id).value.labels && w.ip(r.id).value.labels[k] == r.labels[k])
  {
  }

  lemma OneBond(db: Database, i: nat, i': nat, j: nat, j': nat)
    requires Keyed(db) && i < |db.machines| && i' < |db.machines| && j < |db.allocations| && j' < |db.allocations|
    requires Bonded(db.machines[i], db.allocations[j]) && Bonded(db.machines[i'], db.allocations[j'])
    ensures i == i' <==> j == j'
  {
  }

  lemma AllocationHasMachine(db: Database, w: World, j: nat) returns (i: nat)
    requires Clean(db, w) && j < |db.allocations| && !db.allocations[j].retired
    ensures i < |db.machines| && Bonded(db.machines[i], db.allocations[j])
    ensures db.machines[i].account == db.allocations[j].account
    ensures db.allocations[j].server == Some(db.machines[i].state.server)
  {
    assert AllocationOk(db.allocations[j], db.machines, db.resources, w);
    var m := FindMachine(db.machines, db.allocations[j].machine).value;
    i :| 0 <= i < |db.machines| && db.machines[i] == m;
  }

  /** Every unretired allocation is bonded to a machine that agrees with it on account and server. */
  predicate HasBond(db: Database, j: nat)
    requires j < |db.allocations|
  {
    exists i :: 0 <= i < |db.machines| && Bonded(db.machines[i], db.allocations[j])
                && db.machines[i].account == db.allocations[j].account
                && db.allocations[j].server == Some(db.machines[i].state.server)
  }

  predicate OneToOne(db: Database) {
    forall i, i', j, j' :: 0 <= i < |db.machines| && 0 <= i' < |db.machines|
      && 0 <= j < |db.allocations| && 0 <= j' < |db.allocations|
      && Bonded(db.machines[i], db.allocations[j]) && Bonded(db.machines[i'], db.allocations[j'])
      ==> (i == i' <==> j == j')
  }

  lemma BondsAreOneToOne(db: Database)
    requires Keyed(db)
    ensures OneToOne(db)
  {
    forall i, i', j, j' | 0 <= i < |db.machines| && 0 <= i' < |db.machines|
      && 0 <= j < |db.allocations| && 0 <= j' < |db.allocations|
      && Bonded(db.machines[i], db.allocations[j]) && Bonded(db.machines[i'], db.allocations[j'])
      ensures i == i' <==> j == j'
    {
      OneBond(db, i, i', j, j');
    }
  }

  /** Allocated machines and unretired allocations correspond one to one, and agree on account and server. */
  lemma MachinesMatchAllocations(db: Database, w: World)
    requires Clean(db, w) && Keyed(db)
    ensures forall i :: 0 <= i < |db.machines| && db.machines[i].state.Allocated? ==>
              exists j :: 0 <= j < |db.allocations| && Bonded(db.machines[i], db.allocations[j])
    ensures forall j :: 0 <= j < |db.allocations| && !db.allocations[j].retired ==> HasBond(db, j)
    ensures OneToOne(db)
  {
    forall i | 0 <= i < |db.machines| && db.machines[i].state.Allocated?
      ensures exists j :: 0 <= j < |db.allocations| && Bonded(db.machines[i], db.allocations[j])
    {
      assert MachineOk(db.machines[i], db.allocations);
    }
    forall j | 0 <= j < |db.allocations| && !db.allocations[j].retired ensures HasBond(db, j) {
      var i := AllocationHasMachine(db, w, j);
    }
    BondsAreOneToOne(db);
  }

  predicate OneIpRow(resources: seq<Resource>, a: Allocation) {
    forall i, k :: 0 <= i < k < |resources| ==> !(IsIpRow(resources[i], a) && IsIpRow(resources[k], a))
  }

  /** A retired allocation owns no live row; a live one owns its server, and its IP exactly if the server has one. */
  lemma AllocationsOwnTheirResources(db: Database, w: World, j: nat)
    requires Clean(db, w) && Keyed(db) && j < |db.allocations|
    ensures var a := db.allocations[j];
            && (a.retired ==> forall i :: 0 <= i < |db.resources| && db.resources[i].allocation == a.id ==> db.resources[i].absent)
            && (!a.retired ==>
                  && a.server.Some? && w.serverAgain(a.server.value).Some?
                  && (exists i :: 0 <= i < |db.resources| && IsServerRow(db.resources[i], a))
                  && OneIpRow(db.resources, a)
                  && ((exists i :: 0 <= i < |db.resources| && IsIpRow(db.resources[i], a))
                      <==> w.serverAgain(a.server.value).value.primaryIp.Some?))
  {
    var a := db.allocations[j];
    assert AllocationOk(a, db.machines, db.resources, w);
    if !a.retired {
      var row := FindServerRow(db.resources, a).value;
      var i :| 0 <= i < |db.resources| && db.resources[i] == row;
      var ips := IpRows(db.resources, a);
      FewRowsAreOne(db, a);
      if |ips| == 1 {
        var x := IpRowIndex(db.resources, a, ips[0]);
      } else {
        NoIpRow(db.resources, a);
      }
    }
  }

  lemma IpRowIndex(resources: seq<Resource>, a: Allocation, row: Resource) returns (x: nat)
    requires row in IpRows(resources, a)
    ensures x < |resources| && resources[x] == row && IsIpRow(resources[x], a)
  {
    x :| 0 <= x < |resources| && resources[x] == row;
  }

  lemma NoIpRow(resources: seq<Resource>, a: Allocation)
    requires IpRows(resources, a) == []
    ensures forall x :: 0 <= x < |resources| ==> !IsIpRow(resources[x], a)
  {
    forall x | 0 <= x < |resources| ensures !IsIpRow(resources[x], a) {
      if IsIpRow(resources[x], a) { IpRowListed(resources, a, x); }
    }
  }

  lemma IpRowListed(resources: seq<Resource>, a: Allocation, x: nat)
    requires x < |resources| && IsIpRow(resources[x], a)
    ensures IpRows(resources, a) != []
  {
    assert resources[x] in IpRows(resources, a);
  }

  lemma TwoRows(db: Database, a: Allocation, i: nat, k: nat)
    requires Keyed(db) && i < k < |db.resources| && IsIpRow(db.resources[i], a) && IsIpRow(db.resources[k], a)
    ensures |IpRows(db.resources, a)| >= 2
  {
    assert db.resources[i] in IpRows(db.resources, a) && db.resources[k] in IpRows(db.resources, a);
  }

  lemma FewRowsAreOne(db: Database, a: Allocation)
    requires Keyed(db) && |IpRows(db.resources, a)| <= 1
    ensures OneIpRow(db.resources, a)
  {
    forall i, k | 0 <= i < k < |db.resources| ensures !(IsIpRow(db.resources[i], a) && IsIpRow(db.resources[k], a)) {
      if IsIpRow(db.resources[i], a) && IsIpRow(db.resources[k], a) {
        TwoRows(db, a, i, k);
      }
    }
  }

  /**
   The search is complete: whatever an exact read shows under the managed label is among its results, once,
   and an exact read answers about the id it was asked for.
   */
  ghost predicate CompleteSearch(w: World) {
    && (forall id :: w.server(id).Some? && Managed(w.server(id).value.labels) ==> exists i :: 0 <= i < |w.servers| && w.servers[i].id == id)
    && (forall id :: w.ip(id).Some? && Managed(w.ip(id).value.labels) ==> exists i :: 0 <= i < |w.ips| && w.ips[i].id == id)
    && (forall i, j :: 0 <= i < j < |w.servers| ==> w.servers[i].id != w.servers[j].id)
    && (forall i, j :: 0 <= i < j < |w.ips| ==> w.ips[i].id != w.ips[j].id)
  }

  predicate Managed(labels: Labels) {
    MANAGED_BY in labels && labels[MANAGED_BY] == AGENT_CLOUD
  }

  function FoundCount(kind: Kind, w: World): nat {
    if kind.ServerKind? then |w.servers| else |w.ips|
  }

  function FoundId(kind: Kind, w: World, i: nat): Id
    requires i < FoundCount(kind, w)
  {
    if kind.ServerKind? then w.servers[i].id else w.ips[i].id
  }

  function FoundLabels(kind: Kind, w: World, i: nat): Labels
    requires i < FoundCount(kind, w)
  {
    if kind.ServerKind? then w.servers[i].labels else w.ips[i].labels
  }

  predicate Pair(r: Resource, kind: Kind, w: World, i: nat)
    requires i < FoundCount(kind, w)
  {
    r.kind == kind && !r.absent && r.id == FoundId(kind, w, i)
  }

  lemma FoundHasRow(db: Database, w: World, kind: Kind, i: nat) returns (r: nat)
    requires Clean(db, w) && i < FoundCount(kind, w)
    ensures r < |db.resources| && Pair(db.resources[r], kind, w, i)
    ensures MatchesLabels(FoundLabels(kind, w, i), db.resources[r].labels)
  {
    var id, labels := FoundId(kind, w, i), FoundLabels(kind, w, i);
    assert FoundOk(kind, id, labels, db.resources, w);
    var row := FindFound(db.resources, kind, id, labels, w).value;
    r :| 0 <= r < |db.resources| && db.resources[r] == row;
  }

  lemma RowIsFound(db: Database, w: World, kind: Kind, r: nat) returns (i: nat)
    requires Clean(db, w) && CompleteSearch(w) && r < |db.resources| && Managed(db.resources[r].labels)
    requires db.resources[r].kind == kind && !db.resources[r].absent
    ensures i < FoundCount(kind, w) && Pair(db.resources[r], kind, w, i)
  {
    assert ResourceOk(db.resources[r], w);
    var id := db.resources[r].id;
    if kind.ServerKind? {
      i :| 0 <= i < |w.servers| && w.servers[i].id == id;
    } else {
      i :| 0 <= i < |w.ips| && w.ips[i].id == id;
    }
  }

  predicate RowKnown(db: Database, w: World, kind: Kind, i: nat)
    requires i < FoundCount(kind, w)
  {
    exists r :: 0 <= r < |db.resources| && Pair(db.resources[r], kind, w, i)
                && MatchesLabels(FoundLabels(kind, w, i), db.resources[r].labels)
  }

  predicate RowFound(db: Database, w: World, kind: Kind, r: nat)
    requires r < |db.resources|
  {
    exists i :: 0 <= i < FoundCount(kind, w) && Pair(db.resources[r], kind, w, i)
  }

  /** Live rows and found items of one kind correspond one to one, under the rows' labels. */
  ghost predicate RowsAreFoundOnce(db: Database, w: World, kind: Kind) {
    && (forall r :: 0 <= r < |db.resources| && db.resources[r].kind == kind && !db.resources[r].absent ==>
          RowFound(db, w, kind, r))
    && (forall i :: 0 <= i < FoundCount(kind, w) ==> RowKnown(db, w, kind, i))
    && (forall r, r', i, i' :: 0 <= r < |db.resources| && 0 <= r' < |db.resources|
          && 0 <= i < FoundCount(kind, w) && 0 <= i' < FoundCount(kind, w)
          && Pair(db.resources[r], kind, w, i) && Pair(db.resources[r'], kind, w, i')
          ==> (r == r' <==> i == i'))
  }

  /** Live ledger rows and the managed inventory correspond one to one, under the rows' labels. */
  lemma LedgerMatchesInventory(db: Database, w: World, kind: Kind)
    requires Clean(db, w) && Keyed(db) && CompleteSearch(w)
    requires forall r :: r in db.resources ==> Managed(r.labels)
    ensures RowsAreFoundOnce(db, w, kind)
  {
    forall r | 0 <= r < |db.resources| && db.resources[r].kind == kind && !db.resources[r].absent
      ensures RowFound(db, w, kind, r)
    {
      var i := RowIsFound(db, w, kind, r);
    }
    forall i | 0 <= i < FoundCount(kind, w) ensures RowKnown(db, w, kind, i) {
      var r := FoundHasRow(db, w, kind, i);
    }
    forall r, r', i, i' | 0 <= r < |db.resources| && 0 <= r' < |db.resources|
      && 0 <= i < FoundCount(kind, w) && 0 <= i' < FoundCount(kind, w)
      && Pair(db.resources[r], kind, w, i) && Pair(db.resources[r'], kind, w, i')
      ensures r == r' <==> i == i'
    {
      OnePair(db, w, kind, r, r', i, i');
    }
  }

  lemma OnePair(db: Database, w: World, kind: Kind, r: nat, r': nat, i: nat, i': nat)
    requires Clean(db, w) && Keyed(db) && CompleteSearch(w) && r < |db.resources| && r' < |db.resources|
    requires i < FoundCount(kind, w) && i' < FoundCount(kind, w)
    requires Pair(db.resources[r], kind, w, i) && Pair(db.resources[r'], kind, w, i')
    ensures r == r' <==> i == i'
  {
    assert ResourceOk(db.resources[r], w) && ResourceOk(db.resources[r'], w);
  }

  /** Nothing was cut off: the tables that were judged are the tables. */
  lemma NothingWasTruncated(db: Database, w: World)
    requires Clean(db, w)
    ensures Bound(db.machines) == db.machines && Bound(db.allocations) == db.allocations
    ensures Bound(db.resources) == db.resources && Bound(db.operations) == db.operations && Bound(db.attempts) == db.attempts
    ensures Bound(db.backups) == db.backups && Bound(db.restores) == db.restores
    ensures Bound(w.servers) == w.servers && Bound(w.ips) == w.ips
    ensures |db.machines| <= 1000 && |db.allocations| <= 1000 && |db.resources| <= 1000
    ensures |w.servers| <= 1000 && |w.ips| <= 1000
  {
  }

  // ---- one server each

  /** The label that names the allocation which owns a resource. */
  const ALLOCATION: Id := 2

  predicate LabelledFor(labels: Labels, allocation: Id) {
    ALLOCATION in labels && labels[ALLOCATION] == allocation
  }

  /** Every ledger row carries the managed label and its own allocation's. */
  predicate RowsLabelled(db: Database) {
    forall r :: r in db.resources ==> Managed(r.labels) && LabelledFor(r.labels, r.allocation)
  }

  predicate IsLiveServer(r: Resource, allocation: Id) {
    r.kind.ServerKind? && !r.absent && r.allocation == allocation
  }

  ghost predicate OneServerRow(db: Database, allocation: Id) {
    exists r :: 0 <= r < |db.resources| && SoleServerRow(db, allocation, r)
  }

  ghost predicate SoleServerRow(db: Database, allocation: Id, r: nat)
    requires r < |db.resources|
  {
    && IsLiveServer(db.resources[r], allocation)
    && forall r' :: 0 <= r' < |db.resources| && IsLiveServer(db.resources[r'], allocation) ==> r' == r
  }

  ghost predicate OneServerFound(w: World, allocation: Id) {
    exists i :: 0 <= i < |w.servers| && SoleServerFound(w, allocation, i)
  }

  ghost predicate SoleServerFound(w: World, allocation: Id, i: nat)
    requires i < |w.servers|
  {
    && LabelledFor(w.servers[i].labels, allocation)
    && forall i' :: 0 <= i' < |w.servers| && LabelledFor(w.servers[i'].labels, allocation) ==> i' == i
  }

  /** A live server row and the found server of its id name the same allocation. */
  lemma PairsAgree(db: Database, w: World, r: nat, i: nat)
    requires Clean(db, w) && Keyed(db) && CompleteSearch(w) && RowsLabelled(db)
    requires r < |db.resources| && i < |w.servers| && Pair(db.resources[r], ServerKind, w, i)
    ensures LabelledFor(w.servers[i].labels, db.resources[r].allocation)
    ensures forall a :: LabelledFor(w.servers[i].labels, a) ==> a == db.resources[r].allocation
  {
    var q := FoundHasRow(db, w, ServerKind, i);
    OnePair(db, w, ServerKind, r, q, i, i);
    assert db.resources[r] in db.resources;
  }

  /** An allocation has exactly one live server row exactly when the inventory holds exactly one server of its label. */
  lemma ServersAgree(db: Database, w: World, allocation: Id)
    requires Clean(db, w) && Keyed(db) && CompleteSearch(w) && RowsLabelled(db)
    ensures OneServerRow(db, allocation) <==> OneServerFound(w, allocation)
  {
    if OneServerRow(db, allocation) {
      var r :| 0 <= r < |db.resources| && SoleServerRow(db, allocation, r);
      SoleRowIsFound(db, w, allocation, r);
    }
    if OneServerFound(w, allocation) {
      var i :| 0 <= i < |w.servers| && SoleServerFound(w, allocation, i);
      SoleFoundHasRow(db, w, allocation, i);
    }
  }

  lemma SoleRowIsFound(db: Database, w: World, allocation: Id, r: nat)
    requires Clean(db, w) && Keyed(db) && CompleteSearch(w) && RowsLabelled(db)
    requires r < |db.resources| && SoleServerRow(db, allocation, r)
    ensures OneServerFound(w, allocation)
  {
    assert db.resources[r] in db.resources;
    var i := RowIsFound(db, w, ServerKind, r);
    PairsAgree(db, w, r, i);
    forall i' | 0 <= i' < |w.servers| && LabelledFor(w.servers[i'].labels, allocation) ensures i' == i {
      var q := FoundHasRow(db, w, ServerKind, i');
      PairsAgree(db, w, q, i');
      OnePair(db, w, ServerKind, r, q, i, i');
    }
    assert SoleServerFound(w, allocation, i);
  }

  lemma SoleFoundHasRow(db: Database, w: World, allocation: Id, i: nat)
    requires Clean(db, w) && Keyed(db) && CompleteSearch(w) && RowsLabelled(db)
    requires i < |w.servers| && SoleServerFound(w, allocation, i)
    ensures OneServerRow(db, allocation)
  {
    var r := FoundHasRow(db, w, ServerKind, i);
    PairsAgree(db, w, r, i);
    forall r' | 0 <= r' < |db.resources| && IsLiveServer(db.resources[r'], allocation) ensures r' == r {
      assert db.resources[r'] in db.resources;
      var k := RowIsFound(db, w, ServerKind, r');
      PairsAgree(db, w, r', k);
      OnePair(db, w, ServerKind, r, r', i, k);
    }
    assert SoleServerRow(db, allocation, r);
  }
}
