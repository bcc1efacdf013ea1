/** Installation routing: which configured repository an installation speaks for. */
module Routing {
  import opened Outcomes
  import opened Trailers

  type Allowed = map<int, map<int, string>>

  datatype Installation = Installation(account: int, active: bool)

  datatype Registry = Registry(installations: map<int, Installation>, repositories: map<(int, int), string>)

  datatype Route = Route(installation: int, account: int, repository: int, name: string)

  datatype Inventory = Inventory(installation: int, account: int, repositories: seq<(int, string)>)

  /** The configuration names each repository for one account only. */
  predicate UniqueRepositories(allowed: Allowed) {
    forall a, b, r :: a in allowed && b in allowed && r in allowed[a] && r in allowed[b] ==> a == b
  }

  function LowerAll(text: string): string {
    seq(|text|, i requires 0 <= i < |text| => Lower(text[i]))
  }

  predicate ValidRepository(item: (int, string)) {
    && item.0 > 0 && 1 <= |item.1| <= 201
    && (forall i :: 0 <= i < |item.1| ==> ' ' <= item.1[i] <= '~')
    && exists k :: && 0 < k < |item.1| - 1 && item.1[k] == '/'
                   && (forall i :: 0 <= i < |item.1| && i != k ==> item.1[i] != '/')
                   && item.1[0] != ' ' && item.1[k - 1] != ' ' && item.1[k + 1] != ' ' && item.1[|item.1| - 1] != ' '
  }

  // ---------------------------------------------------------------- one event each

  const ENTERING: set<string> := {"created", "unsuspend", "new_permissions_accepted"}

  /** Whether another installation of the same account. */
  predicate Displaced(registry: Registry, installation: int, account: int, other: int) {
    other != installation && other in registry.installations && registry.installations[other].account == account
  }

  function ApplyInstallation(allowed: Allowed, registry: Registry, action: string, installation: int, account: int)
    : (Registry, bool)
  {
    var known := installation in registry.installations;
    if installation <= 0 || account <= 0 || account !in allowed then (registry, false)
    else if known && registry.installations[installation].account != account then (registry, false)
    else if action in ENTERING then
      (Registry(
         (map i | i in registry.installations && !Displaced(registry, installation, account, i) ::
            registry.installations[i])
         [installation := Installation(account, true)],
         map k | k in registry.repositories && !Displaced(registry, installation, account, k.0) ::
           registry.repositories[k]),
       true)
    else if action == "suspend" then
      (if known then registry.(installations := registry.installations[installation := Installation(account, false)])
       else registry,
       true)
    else if action == "deleted" then
      (if known then
         Registry(registry.installations - {installation},
                  map k | k in registry.repositories && k.0 != installation :: registry.repositories[k])
       else registry,
       true)
    else (registry, false)
  }

  /** The repository rows after some were added or removed, in the order given. */
  function Changed(rows: map<(int, int), string>, added: bool, installation: int, names: map<int, string>,
                   items: seq<(int, string)>)
    : map<(int, int), string>
  {
    if items == [] then rows
    else
      var n := |items| - 1;
      var before := Changed(rows, added, installation, names, items[..n]);
      var (id, name) := items[n];
      if !added then before - {(installation, id)}
      else if id in names && names[id] == LowerAll(name) then before[(installation, id) := LowerAll(name)]
      else before
  }

  function ApplyRepositories(allowed: Allowed, registry: Registry, action: string, installation: int, account: int,
                             items: seq<(int, string)>)
    : (Registry, bool)
  {
    if || action !in {"added", "removed"} || installation <= 0 || account <= 0 || account !in allowed
       || (exists i :: 0 <= i < |items| && !ValidRepository(items[i]))
    then (registry, false)
    else if installation !in registry.installations || registry.installations[installation].account != account
    then (registry, false)
    else
      var rows := Changed(registry.repositories, action == "added", installation, allowed[account], items);
      (registry.(repositories := rows), true)
  }

  function FindRoute(registry: Registry, installation: int, repository: int): Option<Route> {
    if installation in registry.installations && registry.installations[installation].active
       && (installation, repository) in registry.repositories
    then Some(Route(installation, registry.installations[installation].account, repository,
                    registry.repositories[(installation, repository)]))
    else None
  }

  /** What an installation event does to the routes. Entering activates the installation and drops
      the others of its account; a suspended one routes nothing; a deleted one leaves nothing
      behind; whatever else was routed stays. A refused event changes nothing. */
  lemma InstallationEventMeans(allowed: Allowed, registry: Registry, action: string, installation: int, account: int)
    ensures var (after, applied) := ApplyInstallation(allowed, registry, action, installation, account);
            var known := installation in registry.installations;
            && (applied <==> && installation > 0 && account in allowed && account > 0
                             && action in {"created", "unsuspend", "new_permissions_accepted", "suspend", "deleted"}
                             && (known ==> registry.installations[installation].account == account))
            && (!applied ==> after == registry)
            && (applied && action in {"suspend", "deleted"} ==>
                  && (forall r :: FindRoute(after, installation, r).None?)
                  && (forall i, r :: i != installation ==> FindRoute(after, i, r) == FindRoute(registry, i, r)))
            && (applied && action == "deleted" ==>
                  && installation !in after.installations
                  && (known ==> forall r :: (installation, r) !in after.repositories))
            && (applied && action in ENTERING ==>
                  forall i, r :: FindRoute(after, i, r) ==
                    if Displaced(registry, installation, account, i) then None
                    else if i == installation && (i, r) in registry.repositories
                         then Some(Route(i, account, r, registry.repositories[(i, r)]))
                    else if i == installation then None
                    else FindRoute(registry, i, r))
  {
  }

  /** What a repository event leaves: removed repositories are gone, added ones are there when their
      name is the configured one, and every other row stays. */
  lemma {:induction false} ChangedRows(rows: map<(int, int), string>, added: bool, installation: int,
                                       names: map<int, string>, items: seq<(int, string)>, key: (int, int))
    ensures var after := Changed(rows, added, installation, names, items);
            var named := key.0 == installation && exists i :: 0 <= i < |items| && items[i].0 == key.1
                                                            && (added ==> Named(names, items[i]));
            if named then (if added then key in after && after[key] == names[key.1] else key !in after)
            else (key in after <==> key in rows) && (key in rows ==> after[key] == rows[key])
  {
    if items != [] {
      var n := |items| - 1;
      ChangedRows(rows, added, installation, names, items[..n], key);
      if key.0 == installation && exists i :: 0 <= i < n && items[i].0 == key.1 && (added ==> Named(names, items[i])) {
        var i :| 0 <= i < n && items[i].0 == key.1 && (added ==> Named(names, items[i]));
        assert items[..n][i] == items[i];
      }
      if i :| 0 <= i < n && items[..n][i].0 == key.1 && (added ==> Named(names, items[..n][i])) {
        assert items[i] == items[..n][i];
      }
    }
  }

  predicate Named(names: map<int, string>, item: (int, string)) {
    item.0 in names && names[item.0] == LowerAll(item.1)
  }

  /** A removed repository routes no more. */
  lemma RemovedRoutesNothing(allowed: Allowed, registry: Registry, installation: int, account: int,
                             items: seq<(int, string)>, i: nat)
    requires i < |items| && ApplyRepositories(allowed, registry, "removed", installation, account, items).1
    ensures var after := ApplyRepositories(allowed, registry, "removed", installation, account, items).0;
            FindRoute(after, installation, items[i].0).None?
  {
    ChangedRows(registry.repositories, false, installation, allowed[account], items, (installation, items[i].0));
  }

  // ---------------------------------------------------------------- reconciliation

  /** What an inventory reports per repository; a later report of an identifier wins. */
  function Observed(items: seq<(int, string)>): map<int, string> {
    if items == [] then map[]
    else
      var n := |items| - 1;
      if ValidRepository(items[n]) then Observed(items[..n])[items[n].0 := LowerAll(items[n].1)]
      else Observed(items[..n])
  }

  predicate Complete(names: map<int, string>, items: seq<(int, string)>) {
    var observed := Observed(items);
    forall r :: r in names ==> r in observed && observed[r] == names[r]
  }

  predicate Matches(allowed: Allowed, inventory: seq<Inventory>) {
    && (forall i, j :: 0 <= i < j < |inventory| ==>
          inventory[i].installation != inventory[j].installation && inventory[i].account != inventory[j].account)
    && (set i | 0 <= i < |inventory| :: inventory[i].account) == allowed.Keys
    && (forall i :: 0 <= i < |inventory| ==> inventory[i].installation > 0)
    && (forall i :: 0 <= i < |inventory| && inventory[i].account in allowed ==>
          Complete(allowed[inventory[i].account], inventory[i].repositories))
  }

  /** Exactly the inventory's installations, all active. */
  ghost predicate Listed(allowed: Allowed, inventory: seq<Inventory>, installations: map<int, Installation>) {
    && (forall n :: n in installations ==> exists i :: 0 <= i < |inventory| && inventory[i].installation == n)
    && (forall i :: 0 <= i < |inventory| ==>
          && inventory[i].account in allowed && inventory[i].installation in installations
          && installations[inventory[i].installation] == Installation(inventory[i].account, true))
  }

  /** The repository rows are exactly the configured ones of the installations. */
  ghost predicate RowsFor(allowed: Allowed, installations: map<int, Installation>, rows: map<(int, int), string>) {
    && (forall n, r :: (n, r) in rows <==>
          n in installations && installations[n].account in allowed && r in allowed[installations[n].account])
    && (forall n, r :: (n, r) in rows ==> rows[(n, r)] == allowed[installations[n].account][r])
  }

  ghost predicate Rebuilt(allowed: Allowed, inventory: seq<Inventory>, registry: Registry) {
    && Listed(allowed, inventory, registry.installations)
    && RowsFor(allowed, registry.installations, registry.repositories)
  }

  // ---------------------------------------------------------------- invariant

  ghost predicate Valid(allowed: Allowed, registry: Registry) {
    && (forall n :: n in registry.installations ==> registry.installations[n].account in allowed)
    && (forall m, n :: (m in registry.installations && n in registry.installations
                        && registry.installations[m].account == registry.installations[n].account) ==> m == n)
    && (forall k :: k in registry.repositories ==> Configured(allowed, registry, k, registry.repositories[k]))
  }

  /** A row belongs to an installation, and its name is the configured one. */
  predicate Configured(allowed: Allowed, registry: Registry, key: (int, int), name: string) {
    && key.0 in registry.installations && registry.installations[key.0].account in allowed
    && key.1 in allowed[registry.installations[key.0].account]
    && allowed[registry.installations[key.0].account][key.1] == name
  }

  /** Deleting the displaced rows of both tables, as sets of rows. */
  lemma EnteringIs(registry: Registry, installation: int, account: int, others: set<int>)
    requires forall i :: i in others <==> Displaced(registry, installation, account, i)
    ensures registry.installations - others
            == map i | i in registry.installations && !Displaced(registry, installation, account, i) ::
                 registry.installations[i]
    ensures (map k | k in registry.repositories && k.0 !in others :: registry.repositories[k])
            == map k | k in registry.repositories && !Displaced(registry, installation, account, k.0) ::
                 registry.repositories[k]
  {
  }

  lemma InstallationKeepsValid(allowed: Allowed, registry: Registry, action: string, installation: int, account: int)
    requires Valid(allowed, registry)
    ensures Valid(allowed, ApplyInstallation(allowed, registry, action, installation, account).0)
  {
  }

  lemma RepositoriesKeepValid(allowed: Allowed, registry: Registry, action: string, installation: int, account: int,
                              items: seq<(int, string)>)
    requires Valid(allowed, registry)
    ensures Valid(allowed, ApplyRepositories(allowed, registry, action, installation, account, items).0)
  {
    var (after, applied) := ApplyRepositories(allowed, registry, action, installation, account, items);
    if applied {
      forall k | k in after.repositories ensures Configured(allowed, after, k, after.repositories[k]) {
        ChangedRows(registry.repositories, action == "added", installation, allowed[account], items, k);
      }
    }
  }

  lemma RebuiltIsValid(allowed: Allowed, inventory: seq<Inventory>, registry: Registry)
    requires Matches(allowed, inventory) && Rebuilt(allowed, inventory, registry)
    ensures Valid(allowed, registry)
  {
    forall m, n | m in registry.installations && n in registry.installations
                  && registry.installations[m].account == registry.installations[n].account
      ensures m == n
    {
      var i :| 0 <= i < |inventory| && inventory[i].installation == m;
      var j :| 0 <= j < |inventory| && inventory[j].installation == n;
    }
    forall k | k in registry.repositories ensures Configured(allowed, registry, k, registry.repositories[k]) {
      var n, r := k.0, k.1;
      assert (n, r) in registry.repositories;
    }
  }

  // ---------------------------------------------------------------- every run

  datatype Event =
    | InstallationEvent(action: string, installation: int, account: int)
    | RepositoriesEvent(change: string, of: int, owner: int, items: seq<(int, string)>)

  function Apply(allowed: Allowed, registry: Registry, event: Event): Registry {
    match event
    case InstallationEvent(action, installation, account) =>
      ApplyInstallation(allowed, registry, action, installation, account).0
    case RepositoriesEvent(action, installation, account, items) =>
      ApplyRepositories(allowed, registry, action, installation, account, items).0
  }

  function ApplyAll(allowed: Allowed, registry: Registry, events: seq<Event>): Registry {
    if events == [] then registry
    else Apply(allowed, ApplyAll(allowed, registry, events[..|events| - 1]), events[|events| - 1])
  }

  lemma {:induction false} RunKeepsValid(allowed: Allowed, registry: Registry, events: seq<Event>)
    requires Valid(allowed, registry)
    ensures Valid(allowed, ApplyAll(allowed, registry, events))
  {
    if events != [] {
      var before := ApplyAll(allowed, registry, events[..|events| - 1]);
      RunKeepsValid(allowed, registry, events[..|events| - 1]);
      match events[|events| - 1]
      case InstallationEvent(action, installation, account) =>
        InstallationKeepsValid(allowed, before, action, installation, account);
      case RepositoriesEvent(action, installation, account, items) =>
        RepositoriesKeepValid(allowed, before, action, installation, account, items);
    }
  }

  /** After a reconcile and any lifecycle events: a route is a configured repository of its
      account, and a repository routes through one installation only. */
  lemma RoutesAreSafe(allowed: Allowed, inventory: seq<Inventory>, registry: Registry, events: seq<Event>,
                      m: int, n: int, repository: int)
    requires UniqueRepositories(allowed) && Matches(allowed, inventory) && Rebuilt(allowed, inventory, registry)
    ensures var after := ApplyAll(allowed, registry, events);
            var route, other := FindRoute(after, m, repository), FindRoute(after, n, repository);
            && (route.Some? ==>
                  && route.value.account in allowed && repository in allowed[route.value.account]
                  && route.value.name == allowed[route.value.account][repository])
            && (route.Some? && other.Some? ==> m == n)
  {
    RebuiltIsValid(allowed, inventory, registry);
    RunKeepsValid(allowed, registry, events);
    var after := ApplyAll(allowed, registry, events);
    if FindRoute(after, m, repository).Some? {
      assert Configured(allowed, after, (m, repository), after.repositories[(m, repository)]);
    }
    if FindRoute(after, n, repository).Some? {
      assert Configured(allowed, after, (n, repository), after.repositories[(n, repository)]);
    }
  }

  /** Right after a reconcile exactly the configured repositories route, each through the
      installation of its account. */
  lemma ReconciledRoutes(allowed: Allowed, inventory: seq<Inventory>, registry: Registry, i: nat, repository: int)
    requires Matches(allowed, inventory) && Rebuilt(allowed, inventory, registry) && i < |inventory|
    ensures var account := inventory[i].account;
            FindRoute(registry, inventory[i].installation, repository)
            == if repository in allowed[account]
               then Some(Route(inventory[i].installation, account, repository, allowed[account][repository])) else None
  {
  }

  // ---------------------------------------------------------------- the registry object

  class InstallationRegistry {
    const allowed: Allowed
    var registry: Registry

    constructor (allowed: Allowed)
      ensures this.allowed == allowed && registry == Registry(map[], map[]) && Valid(allowed, registry)
    {
      this.allowed := allowed;
      registry := Registry(map[], map[]);
    }

    /** The rows of both tables are deleted, inserted and updated one statement after another. */
    method InstallationChanged(action: string, installation: int, account: int) returns (applied: bool)
      requires Valid(allowed, registry)
      modifies this
      ensures (registry, applied) == ApplyInstallation(allowed, old(registry), action, installation, account)
      ensures Valid(allowed, registry)
    {
      InstallationKeepsValid(allowed, registry, action, installation, account);
      if installation <= 0 || account <= 0 || account !in allowed { return false; }
      var installations, repositories := registry.installations, registry.repositories;
      var known := installation in installations;
      if known && installations[installation].account != account { return false; }
      if action in ENTERING {
        var others := set i | i in installations && installations[i].account == account && i != installation;
        assert forall i :: i in others <==> Displaced(registry, installation, account, i);
        repositories := map k | k in repositories && k.0 !in others :: repositories[k];
        installations := installations - others;
        EnteringIs(registry, installation, account, others);
        installations := installations[installation := Installation(account, true)];
      } else if action == "suspend" {
        if known { installations := installations[installation := Installation(account, false)]; }
      } else if action == "deleted" {
        if known {
          repositories := map k | k in repositories && k.0 != installation :: repositories[k];
          installations := installations - {installation};
        }
      } else {
        return false;
      }
      registry := Registry(installations, repositories);
      applied := true;
    }

    /** Repository rows are inserted and deleted one by one. */
    method RepositoriesChanged(action: string, installation: int, account: int, items: seq<(int, string)>)
      returns (applied: bool)
      requires Valid(allowed, registry)
      modifies this
      ensures (registry, applied) == ApplyRepositories(allowed, old(registry), action, installation, account, items)
      ensures Valid(allowed, registry)
    {
      RepositoriesKeepValid(allowed, registry, action, installation, account, items);
      if || action !in {"added", "removed"} || installation <= 0 || account <= 0 || account !in allowed
         || (exists i :: 0 <= i < |items| && !ValidRepository(items[i])) {
        return false;
      }
      if installation !in registry.installations || registry.installations[installation].account != account {
        return false;
      }
      var rows := registry.repositories;
      for n := 0 to |items|
        invariant registry == old(registry)
        invariant rows == Changed(registry.repositories, action == "added", installation, allowed[account], items[..n])
      {
        assert items[..n + 1][..n] == items[..n];
        var (id, name) := items[n];
        if action == "added" {
          if id in allowed[account] && allowed[account][id] == LowerAll(name) {
            rows := rows[(installation, id) := LowerAll(name)];
          }
        } else {
          rows := rows - {(installation, id)};
        }
      }
      assert items[..|items|] == items;
      registry := registry.(repositories := rows);
      applied := true;
    }

    /** Replace every route by what the inventory reports, or change nothing. */
    method Reconcile(inventory: seq<Inventory>) returns (ok: bool)
      modifies this
      ensures ok <==> Matches(allowed, inventory)
      ensures ok ==> Rebuilt(allowed, inventory, registry) && Valid(allowed, registry)
      ensures !ok ==> registry == old(registry)
    {
      if !Matches(allowed, inventory) { return false; }
      registry := Rebuild(allowed, inventory);
      RebuiltIsValid(allowed, inventory, registry);
      ok := true;
    }
  }

  /** The admission loop over a matching inventory. */
  method Rebuild(allowed: Allowed, inventory: seq<Inventory>) returns (registry: Registry)
    requires Matches(allowed, inventory)
    ensures Rebuilt(allowed, inventory, registry)
  {
    registry := Registry(map[], map[]);
    for i := 0 to |inventory|
      invariant Listed(allowed, inventory[..i], registry.installations)
      invariant RowsFor(allowed, registry.installations, registry.repositories)
    {
      var account, n := inventory[i].account, inventory[i].installation;
      assert account in (set k | 0 <= k < |inventory| :: inventory[k].account);
      ListGrows(allowed, inventory, registry.installations, i);
      RowsGrow(allowed, registry.installations, registry.repositories, n, account);
      registry := Registry(registry.installations[n := Installation(account, true)],
                           registry.repositories + map r | r in allowed[account] :: (n, r) := allowed[account][r]);
    }
    assert inventory[..|inventory|] == inventory;
  }

  lemma ListGrows(allowed: Allowed, inventory: seq<Inventory>, installations: map<int, Installation>, i: nat)
    requires i < |inventory| && Listed(allowed, inventory[..i], installations) && inventory[i].account in allowed
    requires forall a, b :: 0 <= a < b < |inventory| ==> inventory[a].installation != inventory[b].installation
    ensures inventory[i].installation !in installations
    ensures Listed(allowed, inventory[..i + 1],
                   installations[inventory[i].installation := Installation(inventory[i].account, true)])
  {
    assert forall k :: 0 <= k < i ==> inventory[..i + 1][k] == inventory[..i][k];
    assert inventory[..i + 1][i] == inventory[i];
  }

  lemma RowsGrow(allowed: Allowed, installations: map<int, Installation>, rows: map<(int, int), string>, n: int,
                 account: int)
    requires RowsFor(allowed, installations, rows) && n !in installations && account in allowed
    ensures RowsFor(allowed, installations[n := Installation(account, true)],
                    rows + map r | r in allowed[account] :: (n, r) := allowed[account][r])
  {
  }
}
