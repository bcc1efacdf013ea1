/** The agent-route fence: unresolved agent work stays bound to the composition that claimed it,
    across attempts, restarts and changes of the active route. */
module AgentRoutes {
  import opened Outcomes

  datatype Composition = Composition(profile: string, snapshot: string)

  datatype Route = Route(composition: Composition, resolved: bool)

  datatype Store = Store(routes: map<string, Route>, active: Option<Composition>)

  datatype Refusal = Malformed | RouteChange | NotActive | Redispatch | FencedElsewhere

  const EMPTY := Store(map[], None)

  predicate IsIdentifier(value: string) {
    1 <= |value| <= 1024 && forall i :: 0 <= i < |value| ==> ' ' <= value[i] <= '~'
  }

  predicate AllIdentifiers(operations: set<string>) {
    forall operation :: operation in operations ==> IsIdentifier(operation)
  }

  function Settled(routes: map<string, Route>, operations: set<string>): map<string, Route> {
    map operation | operation in routes ::
      if operation in operations then routes[operation].(resolved := true) else routes[operation]
  }

  /** The named claims are resolved, and no other claim is touched. */
  ghost predicate ResolvesExactly(before: Store, after: Store, operations: set<string>) {
    && after.routes.Keys == before.routes.Keys
    && forall operation :: operation in before.routes ==>
         after.routes[operation]
         == Route(before.routes[operation].composition, before.routes[operation].resolved || operation in operations)
  }

  // ---------------------------------------------------------------- one transaction each

  /** Settle what History shows as terminal, then move the active route, or refuse as a whole. */
  function Activate(store: Store, composition: Composition, terminal: set<string>): Result<Store, Refusal> {
    var routes := Settled(store.routes, terminal);
    if !AllIdentifiers(terminal) then Err(Malformed)
    else if exists operation :: && operation in routes && !routes[operation].resolved
                                && routes[operation].composition != composition
    then Err(RouteChange)
    else Ok(Store(routes, Some(composition)))
  }

  /** The store after the claim's transaction, and what the caller gets. The last comparison runs
      after the commit. */
  function Claim(store: Store, operation: string, composition: Composition): (Store, Result<Route, Refusal>) {
    if !IsIdentifier(operation) then (store, Err(Malformed))
    else if store.active != Some(composition) then (store, Err(NotActive))
    else
      var routes := if operation in store.routes then store.routes
                    else store.routes[operation := Route(composition, false)];
      var route := routes[operation];
      if route.resolved then (store, Err(Redispatch))
      else if route.composition != composition then (store.(routes := routes), Err(FencedElsewhere))
      else (store.(routes := routes), Ok(route))
  }

  function Settle(store: Store, operations: set<string>): Result<Store, Refusal> {
    if AllIdentifiers(operations) then Ok(store.(routes := Settled(store.routes, operations))) else Err(Malformed)
  }

  // ---------------------------------------------------------------- every run

  datatype Command =
    | DoActivate(composition: Composition, terminal: set<string>)
    | DoClaim(operation: string, claimed: Composition)
    | DoSettle(operations: set<string>)

  function Step(store: Store, command: Command): Store {
    match command
    case DoActivate(composition, terminal) =>
      var r := Activate(store, composition, terminal);
      if r.Ok? then r.value else store
    case DoClaim(operation, composition) => Claim(store, operation, composition).0
    case DoSettle(operations) =>
      var r := Settle(store, operations);
      if r.Ok? then r.value else store
  }

  function Run(store: Store, commands: seq<Command>): Store {
    if commands == [] then store else Step(Run(store, commands[..|commands| - 1]), commands[|commands| - 1])
  }

  /** Every unresolved operation carries exactly the active composition. */
  ghost predicate Fenced(store: Store) {
    forall operation :: operation in store.routes && !store.routes[operation].resolved ==>
      store.active == Some(store.routes[operation].composition)
  }

  /** Claims are never lost, never move to another composition and never become unresolved. */
  ghost predicate Kept(before: Store, after: Store) {
    forall operation :: operation in before.routes ==>
      && operation in after.routes
      && after.routes[operation].composition == before.routes[operation].composition
      && (before.routes[operation].resolved ==> after.routes[operation].resolved)
  }

  lemma StepKeepsFence(store: Store, command: Command)
    requires Fenced(store)
    ensures Fenced(Step(store, command)) && Kept(store, Step(store, command))
  {
    if command.DoActivate? {
      var r := Activate(store, command.composition, command.terminal);
      if r.Ok? {
        forall operation | operation in r.value.routes && !r.value.routes[operation].resolved
          ensures r.value.routes[operation].composition == command.composition
        {
          assert operation in Settled(store.routes, command.terminal);
        }
      }
    }
  }

  lemma {:induction false} RunIsFenced(commands: seq<Command>)
    ensures Fenced(Run(EMPTY, commands))
  {
    if commands != [] {
      RunIsFenced(commands[..|commands| - 1]);
      StepKeepsFence(Run(EMPTY, commands[..|commands| - 1]), commands[|commands| - 1]);
    }
  }

  lemma {:induction false} RunContinues(store: Store, commands: seq<Command>, more: seq<Command>)
    ensures Run(store, commands + more) == Run(Run(store, commands), more)
  {
    if more == [] {
      assert commands + more == commands;
    } else {
      var n := |more| - 1;
      RunContinues(store, commands, more[..n]);
      assert (commands + more)[..|commands| + n] == commands + more[..n];
    }
  }

  lemma {:induction false} RunKeeps(store: Store, commands: seq<Command>)
    requires Fenced(store)
    ensures Fenced(Run(store, commands)) && Kept(store, Run(store, commands))
  {
    if commands != [] {
      var before := Run(store, commands[..|commands| - 1]);
      RunKeeps(store, commands[..|commands| - 1]);
      StepKeepsFence(before, commands[|commands| - 1]);
    }
  }

  /** From the first claim on, through any commands of any later process: the same composition,
      and once resolved never claimable again. */
  lemma CompositionIsImmutable(commands: seq<Command>, more: seq<Command>, operation: string)
    requires operation in Run(EMPTY, commands).routes
    ensures var early, late := Run(EMPTY, commands), Run(EMPTY, commands + more);
            && operation in late.routes
            && late.routes[operation].composition == early.routes[operation].composition
            && (early.routes[operation].resolved ==>
                  forall composition ::
                    Claim(late, operation, composition).1.Err? && Claim(late, operation, composition).0 == late)
  {
    RunIsFenced(commands);
    RunContinues(EMPTY, commands, more);
    RunKeeps(Run(EMPTY, commands), more);
  }

  /** In every reachable store: no claim meets the post-commit mismatch, and a claim succeeds if
      and only if its composition is the active one and the operation is not resolved. */
  lemma {:induction false} ClaimOutcome(commands: seq<Command>, operation: string, composition: Composition)
    ensures var store := Run(EMPTY, commands);
            var (after, r) := Claim(store, operation, composition);
            && r != Err(FencedElsewhere)
            && (r.Ok? <==> && IsIdentifier(operation) && store.active == Some(composition)
                           && (operation in store.routes ==> !store.routes[operation].resolved))
            && (r.Ok? ==> r.value == Route(composition, false) && after.routes == store.routes[operation := r.value])
            && (r.Err? ==> after == store)
  {
    RunIsFenced(commands);
    var store := Run(EMPTY, commands);
    if operation in store.routes && !store.routes[operation].resolved && store.active == Some(composition) {
      assert store.routes[operation].composition == composition;
    }
  }

  /** In every reachable store the active route can move if and only if all other work is settled. */
  lemma {:induction false} ActivationOutcome(commands: seq<Command>, composition: Composition, terminal: set<string>)
    requires AllIdentifiers(terminal)
    ensures var store := Run(EMPTY, commands);
            Activate(store, composition, terminal).Ok? <==>
              || store.active == Some(composition)
              || forall operation :: operation in store.routes && !store.routes[operation].resolved ==>
                   operation in terminal
  {
    RunIsFenced(commands);
    var store := Run(EMPTY, commands);
    var routes := Settled(store.routes, terminal);
    if operation :| operation in store.routes && !store.routes[operation].resolved && operation !in terminal {
      assert operation in routes && !routes[operation].resolved;
      assert store.active == Some(routes[operation].composition);
    }
  }

  // ---------------------------------------------------------------- the store object

  class AgentRouteStore {
    var store: Store

    /** A process opens whatever an earlier one left. */
    constructor (store: Store)
      ensures this.store == store
    {
      this.store := store;
    }

    method ActivateRoute(composition: Composition, terminal: set<string>) returns (refused: Option<Refusal>)
      requires Fenced(store)
      modifies this
      ensures Fenced(store) && Kept(old(store), store)
      ensures store == Step(old(store), DoActivate(composition, terminal))
      ensures refused == (var r := Activate(old(store), composition, terminal); if r.Ok? then None else Some(r.error))
      ensures refused.None? ==> store.active == Some(composition)
      ensures refused.None? ==> ResolvesExactly(old(store), store, terminal)
      ensures refused.Some? ==> store == old(store)
    {
      StepKeepsFence(store, DoActivate(composition, terminal));
      var r := Activate(store, composition, terminal);
      if r.Err? { return Some(r.error); }
      store := r.value;
      refused := None;
    }

    method ClaimOperation(operation: string, composition: Composition) returns (r: Result<Route, Refusal>)
      requires Fenced(store)
      modifies this
      ensures Fenced(store) && Kept(old(store), store)
      ensures store == Step(old(store), DoClaim(operation, composition))
      ensures r.Ok? ==> operation in store.routes && store.routes[operation] == Route(composition, false)
      ensures r == Claim(old(store), operation, composition).1 && r != Err(FencedElsewhere)
    {
      StepKeepsFence(store, DoClaim(operation, composition));
      var (after, outcome) := Claim(store, operation, composition);
      store := after;
      r := outcome;
    }

    method SettleOperations(operations: set<string>) returns (refused: Option<Refusal>)
      requires Fenced(store)
      modifies this
      ensures Fenced(store) && Kept(old(store), store)
      ensures store == Step(old(store), DoSettle(operations))
      ensures if AllIdentifiers(operations)
              then refused.None? && store.active == old(store.active) && ResolvesExactly(old(store), store, operations)
              else refused == Some(Malformed) && store == old(store)
    {
      StepKeepsFence(store, DoSettle(operations));
      var r := Settle(store, operations);
      if r.Err? { return Some(r.error); }
      store := r.value;
      refused := None;
    }
  }
}
