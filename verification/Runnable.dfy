/** The index of wake hints: per instance, reason kind and identity, the earliest due instant. */
module Runnable {
  import opened Outcomes

  datatype Key = Key(instance: string, kind: string, identity: string)

  type Wakes = map<Key, real>

  const TIMER: string := "petri-timer"

  function Clamp(limit: int): (n: nat)
    ensures 1 <= n <= 1000 && (1 <= limit <= 1000 ==> n == limit)
  {
    if limit < 1 then 1 else if limit > 1000 then 1000 else limit
  }

  predicate IsDue(wakes: Wakes, now: real, k: Key) {
    k in wakes && wakes[k] <= now
  }

  function DueInstances(wakes: Wakes, now: real): set<string> {
    set k | k in wakes && wakes[k] <= now :: k.instance
  }

  // ---------------------------------------------------------------- the order of instances

  predicate Less(a: string, b: string) {
    if b == "" then false
    else if a == "" then true
    else if a[0] != b[0] then a[0] < b[0]
    else Less(a[1..], b[1..])
  }

  lemma {:induction false} LessIsTotal(a: string, b: string)
    ensures Less(a, b) || Less(b, a) || a == b
  {
    if a != "" && b != "" && a[0] == b[0] {
      LessIsTotal(a[1..], b[1..]);
      assert a == [a[0]] + a[1..] && b == [b[0]] + b[1..];
    }
  }

  lemma {:induction false} LessIsTransitive(a: string, b: string, c: string)
    requires Less(a, b) && Less(b, c)
    ensures Less(a, c)
  {
    if a != "" && b != "" && c != "" && a[0] == b[0] && b[0] == c[0] {
      LessIsTransitive(a[1..], b[1..], c[1..]);
    }
  }

  predicate Sooner(due: real, a: string, due': real, b: string) {
    due < due' || (due == due' && Less(a, b))
  }

  /** Instance `a` has a due row that sorts before every due row of `b`. */
  ghost predicate Leads(wakes: Wakes, now: real, a: string, b: string) {
    exists k :: IsDue(wakes, now, k) && k.instance == a
                && forall k' :: IsDue(wakes, now, k') && k'.instance == b ==> Sooner(wakes[k], a, wakes[k'], b)
  }

  /** What is left after the due rows of some instances were removed. */
  function Without(wakes: Wakes, now: real, taken: set<string>): Wakes {
    map k | k in wakes && !(wakes[k] <= now && k.instance in taken) :: wakes[k]
  }

  /** The earliest distinct due instances, in order, as many as the limit allows. */
  ghost predicate Earliest(wakes: Wakes, now: real, limit: nat, taken: seq<string>) {
    && |taken| <= limit
    && (forall a :: a in taken ==> a in DueInstances(wakes, now))
    && (forall i, j :: 0 <= i < j < |taken| ==> taken[i] != taken[j] && Leads(wakes, now, taken[i], taken[j]))
    && (forall i, b :: 0 <= i < |taken| && b in DueInstances(wakes, now) && b !in taken ==>
          Leads(wakes, now, taken[i], b))
    && (|taken| < limit ==> forall b :: b in DueInstances(wakes, now) ==> b in taken)
  }

  /** The first of some due instances. */
  method Soonest(wakes: Wakes, now: real, rest: set<string>) returns (first: string)
    requires rest != {} && rest <= DueInstances(wakes, now)
    ensures first in rest
    ensures forall b :: b in rest && b != first ==> Leads(wakes, now, first, b)
  {
    var keys := set k | k in wakes && wakes[k] <= now && k.instance in rest;
    var any :| any in rest;
    var best :| best in keys && best.instance == any;
    ghost var passed := {best};
    var todo := keys - {best};
    while todo != {}
      invariant todo <= keys && best in keys && passed == keys - todo
      invariant forall k :: k in passed ==> wakes[best] <= wakes[k]
      invariant forall k :: k in passed && k.instance != best.instance ==>
                  Sooner(wakes[best], best.instance, wakes[k], k.instance)
    {
      var k :| k in todo;
      LessIsTotal(k.instance, best.instance);
      if Sooner(wakes[k], k.instance, wakes[best], best.instance) {
        forall p | p in passed && p.instance != k.instance ensures Sooner(wakes[k], k.instance, wakes[p], p.instance) {
          if p.instance != best.instance && Less(k.instance, best.instance) && Less(best.instance, p.instance) {
            LessIsTransitive(k.instance, best.instance, p.instance);
          }
        }
        best := k;
      }
      todo := todo - {k};
      passed := passed + {k};
    }
    first := best.instance;
    forall b | b in rest && b != first ensures Leads(wakes, now, first, b) {
      assert IsDue(wakes, now, best);
      forall k' | IsDue(wakes, now, k') && k'.instance == b ensures Sooner(wakes[best], first, wakes[k'], b) {
        assert k' in passed;
      }
    }
  }

  /** Every row is still there and at most moved earlier; only the timers of `owners` may go. */
  ghost predicate HintsKept(before: Wakes, after: Wakes, owners: set<string>) {
    forall k :: k in before && !(k.kind == TIMER && k.instance in owners) ==> k in after && after[k] <= before[k]
  }

  class RunnableIndex {
    var wakes: Wakes

    constructor ()
      ensures wakes == map[]
    {
      wakes := map[];
    }

    method Wake(k: Key, due: real)
      modifies this
      ensures wakes == old(wakes)[k := if k in old(wakes) && old(wakes)[k] < due then old(wakes)[k] else due]
    {
      wakes := wakes[k := if k in wakes && wakes[k] < due then wakes[k] else due];
    }

    method ReplaceTimer(instance: string, due: Option<real>)
      modifies this
      ensures due.None? ==>
                wakes == map k | k in old(wakes) && !(k.instance == instance && k.kind == TIMER) :: old(wakes)[k]
      ensures due.Some? ==> wakes == old(wakes)[Key(instance, TIMER, "next-maturation") := due.value]
      ensures HintsKept(old(wakes), wakes, {instance})
    {
      if due.None? {
        wakes := map k | k in wakes && !(k.instance == instance && k.kind == TIMER) :: wakes[k];
      } else {
        wakes := wakes[Key(instance, TIMER, "next-maturation") := due.value];
      }
    }

    method TakeDue(limit: int, now: real) returns (taken: seq<string>)
      modifies this
      ensures Earliest(old(wakes), now, Clamp(limit), taken)
      ensures wakes == Without(old(wakes), now, Names(taken))
    {
      taken := [];
      var rest := DueInstances(wakes, now);
      while rest != {} && |taken| < Clamp(limit)
        invariant rest == DueInstances(wakes, now) - Names(taken)
        invariant wakes == old(wakes) && |taken| <= Clamp(limit)
        invariant forall a :: a in taken ==> a in DueInstances(wakes, now)
        invariant forall i, j :: 0 <= i < j < |taken| ==> taken[i] != taken[j] && Leads(wakes, now, taken[i], taken[j])
        invariant forall i, b :: 0 <= i < |taken| && b in rest ==> Leads(wakes, now, taken[i], b)
        decreases rest
      {
        var first := Soonest(wakes, now, rest);
        taken, rest := taken + [first], rest - {first};
      }
      assert forall b :: b in DueInstances(wakes, now) && b !in taken ==> b in rest;
      wakes := Without(wakes, now, Names(taken));
    }

    /** Repeated takes with no new wakes: every due row goes, each due instance is returned once,
        and nothing else changes. */
    method Drain(limit: int, now: real) returns (all: seq<string>)
      modifies this
      ensures wakes == map k | k in old(wakes) && old(wakes)[k] > now :: old(wakes)[k]
      ensures forall a :: a in all <==> a in DueInstances(old(wakes), now)
      ensures forall i, j :: 0 <= i < j < |all| ==> all[i] != all[j]
    {
      all := [];
      var more := true;
      while more
        invariant wakes == Without(old(wakes), now, Names(all))
        invariant forall a :: a in all ==> a in DueInstances(old(wakes), now)
        invariant forall i, j :: 0 <= i < j < |all| ==> all[i] != all[j]
        invariant !more ==> DueInstances(wakes, now) == {}
        decreases more, |wakes|
      {
        ghost var before := wakes;
        var taken := TakeDue(limit, now);
        more := taken != [];
        TakesJoin(old(wakes), now, all, taken);
        if more { TakeShrinks(before, now, taken); }
        assert forall i :: 0 <= i < |taken| ==> taken[i] in taken;
        assert forall i :: 0 <= i < |all| ==> all[i] in all;
        all := all + taken;
      }
      Drained(old(wakes), now, all);
    }
  }

  lemma TakesJoin(wakes: Wakes, now: real, all: seq<string>, taken: seq<string>)
    requires forall a :: a in taken ==> a in DueInstances(Without(wakes, now, Names(all)), now)
    ensures Without(Without(wakes, now, Names(all)), now, Names(taken))
            == Without(wakes, now, Names(all + taken))
    ensures forall a :: a in taken ==> a !in all && a in DueInstances(wakes, now)
  {
  }

  lemma TakeShrinks(wakes: Wakes, now: real, taken: seq<string>)
    requires taken != [] && forall a :: a in taken ==> a in DueInstances(wakes, now)
    ensures |Without(wakes, now, Names(taken))| < |wakes|
  {
    var left := Without(wakes, now, Names(taken));
    assert taken[0] in taken;
    var k :| k in wakes && wakes[k] <= now && k.instance == taken[0];
    assert left.Keys <= wakes.Keys - {k};
    SubsetCard(left.Keys, wakes.Keys - {k});
    assert |left| == |left.Keys| && |wakes| == |wakes.Keys|;
  }

  lemma SubsetCard(a: set<Key>, b: set<Key>)
    requires a <= b
    ensures |a| <= |b|
  {
    assert b == a + (b - a);
    assert |b| == |a| + |b - a|;
  }

  lemma Drained(wakes: Wakes, now: real, all: seq<string>)
    requires forall a :: a in all ==> a in DueInstances(wakes, now)
    requires DueInstances(Without(wakes, now, Names(all)), now) == {}
    ensures Without(wakes, now, Names(all)) == map k | k in wakes && wakes[k] > now :: wakes[k]
    ensures forall a :: a in all <==> a in DueInstances(wakes, now)
  {
    var left := Without(wakes, now, Names(all));
    forall k | k in wakes && wakes[k] <= now ensures k.instance in all {
      assert k.instance !in DueInstances(left, now);
    }
  }

  // ---------------------------------------------------------------- the scheduler

  function RepairKey(instance: string): Key {
    Key(instance, "scheduler-repair", "run-due-failure")
  }

  /** One activation as the scheduler sees it: it raised, or it ran or found nothing to run. */
  datatype Call = Call(instance: string, raised: bool, ran: bool)

  function Processed(calls: seq<Call>): nat {
    if calls == [] then 0
    else Processed(calls[..|calls| - 1]) + if !calls[|calls| - 1].raised && calls[|calls| - 1].ran then 1 else 0
  }

  function Raised(calls: seq<Call>): set<string> {
    set c | c in calls && c.raised :: c.instance
  }

  /** One call per instance, in order. */
  predicate CallsOf(calls: seq<Call>, instances: seq<string>) {
    |calls| == |instances| && forall n :: 0 <= n < |calls| ==> calls[n].instance == instances[n]
  }

  class Scheduler {
    const runnable: RunnableIndex
    var clock: real
    var errors: set<string>
    /** Every activation so far; only `Activate` extends it. */
    ghost var calls: seq<Call>

    constructor (runnable: RunnableIndex, clock: real)
      ensures this.runnable == runnable && this.clock == clock && errors == {} && calls == []
    {
      this.runnable, this.clock, errors := runnable, clock, {};
      calls := [];
    }

    /** Activating an instance may raise; meanwhile time passes, its own timer is replaced and
        anybody may add hints. */
    method Activate(instance: string) returns (raised: bool, ran: bool)
      modifies runnable, this`clock, this`calls
      ensures clock >= old(clock) && HintsKept(old(runnable.wakes), runnable.wakes, {instance})
      ensures calls == old(calls) + [Call(instance, raised, ran)]
    {
      raised, ran := *, *;
      calls := calls + [Call(instance, raised, ran)];
      var hints: seq<(Key, real)> := *;
      for n := 0 to |hints|
        invariant HintsKept(old(runnable.wakes), runnable.wakes, {}) && clock == old(clock)
        invariant calls == old(calls) + [Call(instance, raised, ran)]
      {
        runnable.Wake(hints[n].0, hints[n].1);
      }
      var due: Option<real> := *;
      var matures: bool := *;
      if matures {
        runnable.ReplaceTimer(instance, due);
      }
      var later: real := *;
      if later > clock { clock := later; }
    }

    /** One taken instance: activated, then recorded as failed with a due wake, or cleared. */
    method RunOne(instance: string) returns (raised: bool, ran: bool)
      modifies runnable, this
      ensures clock >= old(clock) && HintsKept(old(runnable.wakes), runnable.wakes, {instance})
      ensures calls == old(calls) + [Call(instance, raised, ran)]
      ensures errors == old(errors) - {instance} + if raised then {instance} else {}
      ensures raised ==> IsDue(runnable.wakes, clock, RepairKey(instance))
    {
      raised, ran := Activate(instance);
      if raised {
        errors := errors + {instance};
        runnable.Wake(RepairKey(instance), clock);
      } else {
        errors := errors - {instance};
      }
    }

    /** Every taken instance is activated exactly once, in order. Those that raised are recorded as
        failed and hold a due wake of their own; the others are cleared. Nothing else that was
        hinted is lost. */
    method RunDue(limit: int) returns (taken: seq<string>, processed: nat)
      modifies runnable, this
      ensures clock >= old(clock)
      ensures Earliest(old(runnable.wakes), old(clock), Clamp(limit), taken)
      ensures old(calls) <= calls && CallsOf(calls[|old(calls)|..], taken)
      ensures errors == old(errors) - Names(taken) + Raised(calls[|old(calls)|..])
      ensures AllDue(runnable.wakes, clock, Raised(calls[|old(calls)|..]))
      ensures processed == Processed(calls[|old(calls)|..])
      ensures HintsKept(Without(old(runnable.wakes), old(clock), Names(taken)), runnable.wakes, Names(taken))
    {
      taken := runnable.TakeDue(limit, clock);
      processed := RunAll(taken);
    }

    method RunAll(taken: seq<string>) returns (processed: nat)
      requires forall i, j :: 0 <= i < j < |taken| ==> taken[i] != taken[j]
      modifies runnable, this
      ensures clock >= old(clock) && HintsKept(old(runnable.wakes), runnable.wakes, Names(taken))
      ensures old(calls) <= calls && CallsOf(calls[|old(calls)|..], taken)
      ensures errors == old(errors) - Names(taken) + Raised(calls[|old(calls)|..])
      ensures AllDue(runnable.wakes, clock, Raised(calls[|old(calls)|..]))
      ensures processed == Processed(calls[|old(calls)|..])
    {
      ghost var left := runnable.wakes;
      ghost var made: seq<Call> := [];
      processed := 0;
      for n := 0 to |taken|
        invariant clock >= old(clock) && HintsKept(left, runnable.wakes, Names(taken))
        invariant calls == old(calls) + made && CallsOf(made, taken[..n])
        invariant errors == old(errors) - Names(taken[..n]) + Raised(made)
        invariant AllDue(runnable.wakes, clock, Raised(made))
        invariant processed == Processed(made)
      {
        ghost var before, earlier := runnable.wakes, clock;
        var raised, ran := RunOne(taken[n]);
        CallAdded(made, taken, n, Call(taken[n], raised, ran));
        ErrorsAdded(old(errors), made, taken, n, Call(taken[n], raised, ran));
        HintsJoin(left, before, runnable.wakes, taken, n);
        DueAdded(before, runnable.wakes, earlier, clock, made, Call(taken[n], raised, ran));
        made := made + [Call(taken[n], raised, ran)];
        processed := processed + if !raised && ran then 1 else 0;
      }
      assert taken[..|taken|] == taken && calls[|old(calls)|..] == made;
    }
  }

  function Names(instances: seq<string>): set<string> {
    set a | a in instances
  }

  ghost predicate AllDue(wakes: Wakes, now: real, instances: set<string>) {
    forall a :: a in instances ==> IsDue(wakes, now, RepairKey(a))
  }

  lemma HintsJoin(left: Wakes, before: Wakes, after: Wakes, taken: seq<string>, n: nat)
    requires n < |taken| && HintsKept(left, before, Names(taken)) && HintsKept(before, after, {taken[n]})
    ensures HintsKept(left, after, Names(taken))
  {
  }

  lemma DueAdded(before: Wakes, after: Wakes, earlier: real, now: real, made: seq<Call>, c: Call)
    requires HintsKept(before, after, {c.instance}) && AllDue(before, earlier, Raised(made)) && earlier <= now
    requires c.raised ==> IsDue(after, now, RepairKey(c.instance))
    ensures AllDue(after, now, Raised(made + [c]))
  {
    forall a | a in Raised(made + [c]) ensures IsDue(after, now, RepairKey(a)) {
      if a in Raised(made) { assert IsDue(before, earlier, RepairKey(a)) && RepairKey(a).kind != TIMER; }
    }
  }

  lemma ErrorsAdded(errors: set<string>, made: seq<Call>, taken: seq<string>, n: nat, c: Call)
    requires n < |taken| && CallsOf(made, taken[..n]) && c.instance == taken[n]
    requires forall i, j :: 0 <= i < j < |taken| ==> taken[i] != taken[j]
    ensures errors - Names(taken[..n]) + Raised(made) - {c.instance} + (if c.raised then {c.instance} else {})
            == errors - Names(taken[..n + 1]) + Raised(made + [c])
  {
    assert taken[..n + 1] == taken[..n] + [taken[n]];
    assert taken[n] !in taken[..n];
    assert c.instance !in Raised(made);
  }

  lemma CallAdded(made: seq<Call>, taken: seq<string>, n: nat, c: Call)
    requires n < |taken| && CallsOf(made, taken[..n]) && c.instance == taken[n]
    ensures CallsOf(made + [c], taken[..n + 1])
    ensures Processed(made + [c]) == Processed(made) + if !c.raised && c.ran then 1 else 0
  {
    assert (made + [c])[..|made|] == made;
  }
}
