/** The installation configuration: accounts whose identifiers, logins, repository identifiers and
    repository names are unique over the whole document. */
module Configuration {
  import opened Outcomes
  import opened Routing

  /** An account as read, with its login and repository names already folded. */
  datatype Account = Account(id: int, login: string, repositories: seq<(int, string)>)

  function Ids(a: Account): set<int> {
    set r | r in a.repositories :: r.0
  }

  function Names(a: Account): set<string> {
    set r | r in a.repositories :: r.1
  }

  /** Within one account: some repositories, none with the identifier or the name of another. */
  predicate Single(a: Account) {
    && a.id > 0 && a.repositories != []
    && (forall i, j :: 0 <= i < j < |a.repositories| ==>
          a.repositories[i].0 != a.repositories[j].0 && a.repositories[i].1 != a.repositories[j].1)
  }

  predicate Apart(a: Account, b: Account) {
    && a.id != b.id && a.login != b.login
    && (forall x :: x in Ids(a) ==> x !in Ids(b)) && (forall x :: x in Names(a) ==> x !in Names(b))
  }

  ghost predicate Unique(accounts: seq<Account>) {
    && (forall i :: 0 <= i < |accounts| ==> Single(accounts[i]))
    && (forall i, j :: 0 <= i < j < |accounts| ==> Apart(accounts[i], accounts[j]))
  }

  lemma UniqueStep(accounts: seq<Account>, n: nat)
    requires n < |accounts| && Unique(accounts[..n])
    ensures Unique(accounts[..n + 1])
            <==> Single(accounts[n]) && forall i :: 0 <= i < n ==> Apart(accounts[i], accounts[n])
    ensures Unique(accounts) ==> Unique(accounts[..n + 1])
  {
    var before, after := accounts[..n], accounts[..n + 1];
    assert after[n] == accounts[n] && forall i :: 0 <= i < n ==> after[i] == before[i] && after[i] == accounts[i];
  }

  /** The repositories of an account by identifier. */
  function ByIdentifier(repositories: seq<(int, string)>): map<int, string> {
    if repositories == [] then map[]
    else
      var n := |repositories| - 1;
      ByIdentifier(repositories[..n])[repositories[n].0 := repositories[n].1]
  }

  lemma {:induction false} ByIdentifierHolds(repositories: seq<(int, string)>)
    requires forall i, j :: 0 <= i < j < |repositories| ==> repositories[i].0 != repositories[j].0
    ensures ByIdentifier(repositories).Keys == set r | r in repositories :: r.0
    ensures forall r :: r in repositories ==> ByIdentifier(repositories)[r.0] == r.1
  {
    if repositories != [] {
      var n := |repositories| - 1;
      ByIdentifierHolds(repositories[..n]);
      assert repositories == repositories[..n] + [repositories[n]];
    }
  }

  /** The configuration loop with its four sets: accepted if and only if everything is unique,
      and then no repository is configured for two accounts. */
  method InstallationAccounts(accounts: seq<Account>) returns (r: Option<Allowed>)
    ensures r.Some? <==> accounts != [] && Unique(accounts)
    ensures r.Some? ==> UniqueRepositories(r.value) && Built(accounts, r.value)
  {
    if accounts == [] { return None; }
    var accountIds: set<int>, logins: set<string>, repositoryIds: set<int>, names: set<string> := {}, {}, {}, {};
    var allowed: Allowed := map[];
    for n := 0 to |accounts|
      invariant Unique(accounts[..n])
      invariant Collected(accounts[..n], accountIds, logins, repositoryIds, names)
      invariant Built(accounts[..n], allowed)
    {
      var a := accounts[n];
      UniqueStep(accounts, n);
      if !Single(a) { return None; }
      ApartIffNew(accounts, n, accountIds, logins, repositoryIds, names);
      if || a.id in accountIds || a.login in logins
         || (exists x :: x in Ids(a) && x in repositoryIds) || (exists x :: x in Names(a) && x in names) {
        return None;
      }
      CollectedGrows(accounts, n, accountIds, logins, repositoryIds, names);
      BuiltGrows(accounts, n, allowed);
      accountIds, logins := accountIds + {a.id}, logins + {a.login};
      repositoryIds, names := repositoryIds + Ids(a), names + Names(a);
      allowed := allowed[a.id := ByIdentifier(a.repositories)];
    }
    assert accounts[..|accounts|] == accounts;
    BuiltIsUnique(accounts, allowed);
    r := Some(allowed);
  }

  /** What the four sets hold after a prefix. */
  ghost predicate Collected(accounts: seq<Account>, ids: set<int>, logins: set<string>, repositoryIds: set<int>,
                            names: set<string>)
  {
    && (forall x :: x in ids <==> exists i :: 0 <= i < |accounts| && accounts[i].id == x)
    && (forall x :: x in logins <==> exists i :: 0 <= i < |accounts| && accounts[i].login == x)
    && (forall x :: x in repositoryIds <==> exists i :: 0 <= i < |accounts| && x in Ids(accounts[i]))
    && (forall x :: x in names <==> exists i :: 0 <= i < |accounts| && x in Names(accounts[i]))
  }

  lemma ApartIffNew(accounts: seq<Account>, n: nat, ids: set<int>, logins: set<string>, repositoryIds: set<int>,
                    names: set<string>)
    requires n < |accounts| && Collected(accounts[..n], ids, logins, repositoryIds, names)
    ensures var a := accounts[n];
            (forall i :: 0 <= i < n ==> Apart(accounts[i], a))
            <==> && a.id !in ids && a.login !in logins
                 && (forall x :: x in Ids(a) ==> x !in repositoryIds) && (forall x :: x in Names(a) ==> x !in names)
  {
    var a, before := accounts[n], accounts[..n];
    assert forall i :: 0 <= i < n ==> before[i] == accounts[i];
    if forall i :: 0 <= i < n ==> Apart(accounts[i], a) {
      assert forall i :: 0 <= i < n ==> Apart(before[i], a);
      assert forall x, i :: x in Ids(a) && 0 <= i < n ==> x !in Ids(before[i]);
      assert forall x, i :: x in Names(a) && 0 <= i < n ==> x !in Names(before[i]);
      assert forall x :: x in Ids(a) ==> x !in repositoryIds;
      assert forall x :: x in Names(a) ==> x !in names;
    } else {
      var i :| 0 <= i < n && !Apart(accounts[i], a);
      assert before[i].id in ids && before[i].login in logins;
      assert before[i].id == a.id || before[i].login == a.login
             || (exists x :: x in Ids(before[i]) && x in Ids(a))
             || (exists x :: x in Names(before[i]) && x in Names(a));
    }
  }

  lemma CollectedGrows(accounts: seq<Account>, n: nat, ids: set<int>, logins: set<string>, repositoryIds: set<int>,
                       names: set<string>)
    requires n < |accounts| && Collected(accounts[..n], ids, logins, repositoryIds, names)
    ensures var a := accounts[n];
            Collected(accounts[..n + 1], ids + {a.id}, logins + {a.login}, repositoryIds + Ids(a), names + Names(a))
  {
    var before, after := accounts[..n], accounts[..n + 1];
    assert after[n] == accounts[n] && forall i :: 0 <= i < n ==> after[i] == before[i];
  }

  ghost predicate Built(accounts: seq<Account>, allowed: Allowed) {
    && (forall i :: 0 <= i < |accounts| ==>
          && accounts[i].id in allowed && allowed[accounts[i].id].Keys == Ids(accounts[i])
          && forall item :: item in accounts[i].repositories ==> allowed[accounts[i].id][item.0] == item.1)
    && (forall a :: a in allowed ==> exists i :: 0 <= i < |accounts| && accounts[i].id == a)
  }

  lemma BuiltGrows(accounts: seq<Account>, n: nat, allowed: Allowed)
    requires n < |accounts| && Built(accounts[..n], allowed) && Single(accounts[n])
    requires forall i :: 0 <= i < n ==> accounts[i].id != accounts[n].id
    ensures Built(accounts[..n + 1], allowed[accounts[n].id := ByIdentifier(accounts[n].repositories)])
  {
    ByIdentifierHolds(accounts[n].repositories);
    var before, after := accounts[..n], accounts[..n + 1];
    assert after[n] == accounts[n] && forall i :: 0 <= i < n ==> after[i] == before[i];
  }

  lemma BuiltIsUnique(accounts: seq<Account>, allowed: Allowed)
    requires Built(accounts, allowed) && forall i, j :: 0 <= i < j < |accounts| ==> Apart(accounts[i], accounts[j])
    ensures UniqueRepositories(allowed)
  {
    forall a, b, r | a in allowed && b in allowed && r in allowed[a] && r in allowed[b] ensures a == b {
      var i := AccountOf(accounts, allowed, a, r);
      var j := AccountOf(accounts, allowed, b, r);
      if i < j { NotShared(accounts[i], accounts[j], r); }
      if j < i { NotShared(accounts[j], accounts[i], r); }
    }
  }

  lemma AccountOf(accounts: seq<Account>, allowed: Allowed, a: int, r: int) returns (i: nat)
    requires Built(accounts, allowed) && a in allowed && r in allowed[a]
    ensures i < |accounts| && accounts[i].id == a && r in Ids(accounts[i])
  {
    i :| 0 <= i < |accounts| && accounts[i].id == a;
  }

  lemma NotShared(a: Account, b: Account, r: int)
    requires Apart(a, b)
    ensures !(r in Ids(a) && r in Ids(b))
  {
  }
}
