/** One activation of a pull request's instance: its due deliveries are applied in row order,
    settled, and then acknowledged or charged. */
module Activation {
  import opened Outcomes
  import opened Custody
  import opened ServiceOrder

  // ---------------------------------------------------------------- accounting

  /** A row since the activation began: untouched, concluded, or charged once. */
  ghost predicate Accounted(base: seq<Row>, rows: seq<Row>, charged: set<nat>, at: nat -> int, i: nat)
    requires i < |rows|
  {
    if i >= |base| then
      if i in charged then rows[i].attempts == 1 && rows[i].status == Pending else rows[i].attempts == 0
    else if i in charged then base[i].status == Pending && rows[i] == Charge(base[i], at(i))
    else rows[i] == base[i] || (base[i].status == Pending && rows[i] == base[i].(status := Terminal))
  }

  /** Since `base`, the charged rows were charged exactly once and no other row was. */
  ghost predicate Tally(base: seq<Row>, rows: seq<Row>, charged: set<nat>, at: nat -> int) {
    && |base| <= |rows| && Below(charged, |rows|)
    && forall i: nat :: i < |rows| ==> Accounted(base, rows, charged, at, i)
  }

  /** The acknowledged rows are terminal, and nothing else became so. */
  ghost predicate Noticed(base: seq<Row>, rows: seq<Row>, acknowledged: set<nat>) {
    && (forall i :: i in acknowledged ==> i < |rows| && rows[i].status == Terminal)
    && (forall i: nat :: i < |base| && i < |rows| && base[i].status == Pending && rows[i].status == Terminal ==>
          i in acknowledged)
  }

  lemma TallyAdvances(base: seq<Row>, rows: seq<Row>, charged: set<nat>, at: nat -> int)
    requires Tally(base, rows, charged, at)
    ensures Advances(base, rows)
  {
    forall i | 0 <= i < |base|
      ensures rows[i].subject == base[i].subject && (base[i].status != Pending ==> rows[i] == base[i])
    {
      assert Accounted(base, rows, charged, at, i);
    }
  }

  predicate Open(rows: seq<Row>, items: seq<nat>) {
    forall i :: i in items ==> i < |rows| && rows[i].status == Pending
  }

  predicate Below(items: set<nat>, n: nat) {
    forall i :: i in items ==> i < n
  }

  lemma {:induction false} BoundedSet(items: set<nat>, n: nat)
    requires Below(items, n)
    ensures |items| <= n
  {
    if n == 0 {
      assert items == {};
    } else {
      BoundedSet(items - {n - 1}, n - 1);
    }
  }

  lemma SeenGrows(seen: set<nat>, seen': set<nat>, i: nat)
    requires seen <= seen' && i in seen' && i !in seen
    ensures |seen'| > |seen|
  {
    var rest := seen' - seen;
    assert seen' == seen + rest && i in rest;
    assert |seen'| == |seen| + |rest|;
  }

  lemma TallyGrows(base: seq<Row>, rows: seq<Row>, charged: set<nat>, at: nat -> int, a: Arrival)
    requires Tally(base, rows, charged, at)
    ensures Tally(base, rows + [NewRow(a)], charged, at)
  {
    var rows' := rows + [NewRow(a)];
    forall i: nat | i < |rows'| ensures Accounted(base, rows', charged, at, i) {
      if i < |rows| { assert Accounted(base, rows, charged, at, i); }
    }
  }

  lemma TallyConcluded(base: seq<Row>, rows: seq<Row>, charged: set<nat>, at: nat -> int, j: nat)
    requires Tally(base, rows, charged, at) && j < |rows| && rows[j].status == Pending && j !in charged
    ensures Tally(base, rows[j := rows[j].(status := Terminal)], charged, at)
    ensures Advances(rows, rows[j := rows[j].(status := Terminal)])
  {
    var rows' := rows[j := rows[j].(status := Terminal)];
    forall i: nat | i < |rows'| ensures Accounted(base, rows', charged, at, i) {
      assert Accounted(base, rows, charged, at, i);
    }
  }

  lemma TallyCharged(base: seq<Row>, rows: seq<Row>, charged: set<nat>, at: nat -> int, j: nat)
    requires Tally(base, rows, charged, at) && j < |rows| && rows[j].status == Pending && j !in charged
    ensures Tally(base, rows[j := Charge(rows[j], at(j))], charged + {j}, at)
    ensures Advances(rows, rows[j := Charge(rows[j], at(j))])
  {
    var rows' := rows[j := Charge(rows[j], at(j))];
    forall i: nat | i < |rows'| ensures Accounted(base, rows', charged + {j}, at, i) {
      assert Accounted(base, rows, charged, at, i);
    }
  }

  // ---------------------------------------------------------------- settle before acknowledge

  datatype Event = AppliedRow(row: nat) | SettleSucceeded | Acknowledged(row: nat)

  ghost predicate SettledBetween(events: seq<Event>, a: nat, c: nat) {
    exists s :: a < s < c && s < |events| && events[s] == SettleSucceeded
  }

  /** Whatever was applied and not settled since is known, and nothing was acknowledged before the
      settle that follows its application. */
  ghost predicate Traced(events: seq<Event>, unsettled: set<nat>) {
    && (forall a: nat :: a < |events| && events[a].AppliedRow? ==>
          events[a].row in unsettled || SettledBetween(events, a, |events|))
    && (forall a: nat, c: nat ::
          (a < c < |events| && events[a].AppliedRow? && events[c] == Acknowledged(events[a].row)) ==>
            SettledBetween(events, a, c))
  }

  lemma SettledStays(events: seq<Event>, e: Event, a: nat, c: nat)
    requires SettledBetween(events, a, c)
    ensures SettledBetween(events + [e], a, c) && SettledBetween(events + [e], a, c + 1)
  {
    var s :| a < s < c && s < |events| && events[s] == SettleSucceeded;
    assert (events + [e])[s] == SettleSucceeded;
  }

  function UnsettledAfter(unsettled: set<nat>, e: Event): set<nat> {
    match e
    case AppliedRow(i) => unsettled + {i}
    case SettleSucceeded => {}
    case Acknowledged(_) => unsettled
  }

  lemma TraceGrows(events: seq<Event>, unsettled: set<nat>, e: Event)
    requires Traced(events, unsettled) && (e.Acknowledged? ==> e.row !in unsettled)
    ensures Traced(events + [e], UnsettledAfter(unsettled, e))
  {
    var events' := events + [e];
    var n := |events|;
    forall a: nat | a < n && events[a].AppliedRow? && SettledBetween(events, a, n)
      ensures SettledBetween(events', a, n + 1)
    {
      SettledStays(events, e, a, n);
    }
    if e == SettleSucceeded {
      forall a: nat | a < n && events[a].AppliedRow? ensures SettledBetween(events', a, n + 1) {
        assert events'[n] == SettleSucceeded;
      }
    }
    forall a: nat, c: nat | a < c < |events'| && events'[a].AppliedRow? && events'[c] == Acknowledged(events'[a].row)
      ensures SettledBetween(events', a, c)
    {
      assert events'[a] == events[a];
      if c < n {
        assert events'[c] == events[c];
        SettledStays(events, e, a, c);
      } else {
        SettledStays(events, e, a, n);
      }
    }
  }

  /** Every applied row of a list left its event. */
  ghost predicate Noted(events: seq<Event>, items: seq<nat>, script: Script) {
    forall i :: i in items && script.outcome(i) == Applied ==> AppliedRow(i) in events
  }

  /** Applied, then settled, then acknowledged. */
  ghost predicate SettledBeforeAcknowledged(events: seq<Event>, i: nat) {
    exists a: nat, c: nat :: && a < c < |events| && events[a] == AppliedRow(i) && events[c] == Acknowledged(i)
                             && SettledBetween(events, a, c)
  }

  // ---------------------------------------------------------------- taking turns

  /** A batch may be attempted in sequence order: whatever waits earlier was attempted, or is
      earlier in the batch. */
  ghost predicate InTurn(rows: seq<Row>, log: seq<nat>, subject: Subject, batch: seq<nat>) {
    && Increasing(batch)
    && (forall k :: 0 <= k < |batch| ==> Waiting(rows, batch[k], subject))
    && (forall k, i: nat :: 0 <= k < |batch| && i < batch[k] && Waiting(rows, i, subject) ==>
          i in log || i in batch[..k])
  }

  lemma InTurnGrows(rows: seq<Row>, rows': seq<Row>, log: seq<nat>, subject: Subject, batch: seq<nat>)
    requires InTurn(rows, log, subject, batch) && rows <= rows'
    ensures InTurn(rows', log, subject, batch)
  {
    forall k, i: nat | 0 <= k < |batch| && i < batch[k] && Waiting(rows', i, subject)
      ensures i in log || i in batch[..k]
    {
      assert Waiting(rows, batch[k], subject);
      assert Waiting(rows, i, subject);
    }
  }

  /** After its head was attempted, the rest of a batch is in turn. */
  lemma InTurnStep(rows: seq<Row>, log: seq<nat>, subject: Subject, batch: seq<nat>)
    requires InTurn(rows, log, subject, batch) && batch != []
    ensures InTurn(rows, log + [batch[0]], subject, batch[1..])
  {
    var rest := batch[1..];
    forall k, i: nat | 0 <= k < |rest| && i < rest[k] && Waiting(rows, i, subject)
      ensures i in log + [batch[0]] || i in rest[..k]
    {
      assert rest[k] == batch[k + 1];
      assert batch[..k + 1] == [batch[0]] + rest[..k];
    }
  }

  /** What one reading adds to those seen is in turn once the unaddressed rows are disposed of. */
  lemma TurnComes(before: seq<Row>, rows: seq<Row>, log: seq<nat>, subject: Subject, found: seq<nat>, seen: set<nat>,
                  arrived: seq<nat>, batch: seq<nat>)
    requires Prefix(before, subject, found) && Increasing(batch)
    requires (forall i :: i in batch ==> i in arrived) && (forall i :: i in arrived ==> i in found)
    requires forall i :: i in found ==> i in seen || i in arrived
    requires forall i: nat :: i in seen && Waiting(before, i, subject) ==> i in log
    requires forall i :: i in arrived && i !in batch ==> i < |rows| && rows[i].status == Terminal
    requires |rows| == |before| && forall i :: 0 <= i < |rows| && (i in batch || i !in arrived) ==> rows[i] == before[i]
    ensures InTurn(rows, log, subject, batch)
    ensures forall j, i: nat :: j in batch && i < j && Waiting(rows, i, subject) ==> i in found
  {
    forall k | 0 <= k < |batch| ensures Waiting(rows, batch[k], subject) {
      assert batch[k] in batch;
      assert Waiting(before, batch[k], subject);
    }
    forall j, i: nat | j in batch && i < j && Waiting(rows, i, subject) ensures i in found {
      if i !in arrived { assert Waiting(before, i, subject); }
    }
    forall k, i: nat | 0 <= k < |batch| && i < batch[k] && Waiting(rows, i, subject)
      ensures i in log || i in batch[..k]
    {
      assert batch[k] in batch && i in found;
      if i in arrived {
        assert i in batch;
        var a :| 0 <= a < |batch| && batch[a] == i;
        assert batch[..k][a] == i;
      } else {
        assert Waiting(before, i, subject);
      }
    }
  }

  /** The rows after these deliveries arrived. */
  function Received(rows: seq<Row>, more: seq<Arrival>): (r: seq<Row>)
    ensures rows <= r && |r| <= |rows| + |more|
  {
    if more == [] then rows
    else
      var before := Received(rows, more[..|more| - 1]);
      if Stored(before, more[|more| - 1].delivery) then before else before + [NewRow(more[|more| - 1])]
  }

  /** `all` is what was selected so far, of which `all[done..]` is still to do. */
  ghost predicate Selection(rows: seq<Row>, log: seq<nat>, subject: Subject, all: seq<nat>, done: nat, seen: set<nat>,
                            script: Script)
  {
    && done <= |all| && Increasing(all) && Below(seen, |rows|)
    && (forall i :: i in all ==> i in seen && Waiting(rows, i, subject))
    && InTurn(rows, log, subject, all[done..])
    && (forall i :: i in seen && Waiting(rows, i, subject) ==> i in all)
    && (forall i :: i in all[..done] ==> i in log && script.outcome(i) != Raised)
    && (forall j, i: nat :: j in all && i < j && Waiting(rows, i, subject) ==> i in seen)
  }

  /** What is selected later stands behind everything selected before. */
  lemma LaterRows(rows: seq<Row>, subject: Subject, all: seq<nat>, seen: set<nat>, batch: seq<nat>)
    requires Increasing(all) && Increasing(batch)
    requires forall i :: i in batch ==> i !in seen && Waiting(rows, i, subject)
    requires forall i :: i in all ==> i in seen
    requires forall j, i: nat :: j in all && i < j && Waiting(rows, i, subject) ==> i in seen
    ensures Increasing(all + batch)
  {
    forall a, b | 0 <= a < |all| && 0 <= b < |batch| ensures all[a] < batch[b] {
      assert all[a] in all && batch[b] in batch;
    }
  }

  lemma SelectionExtends(before: seq<Row>, rows: seq<Row>, log: seq<nat>, subject: Subject, all: seq<nat>,
                         seen: set<nat>, seen': set<nat>, batch: seq<nat>, script: Script)
    requires Selection(before, log, subject, all, |all|, seen, script) && |rows| == |before|
    requires InTurn(rows, log, subject, batch) && seen <= seen' && Below(seen', |rows|)
    requires forall i :: i in batch ==> i in seen' && i !in seen && Waiting(before, i, subject)
    requires forall i :: i in seen' && i !in seen && Waiting(rows, i, subject) ==> i in batch
    requires forall j, i: nat :: j in batch && i < j && Waiting(rows, i, subject) ==> i in seen'
    requires forall i :: i in seen ==> rows[i] == before[i]
    requires forall i: nat :: Waiting(rows, i, subject) ==> Waiting(before, i, subject)
    ensures Selection(rows, log, subject, all + batch, |all|, seen', script)
  {
    var all' := all + batch;
    LaterRows(before, subject, all, seen, batch);
    assert all'[|all|..] == batch && all'[..|all|] == all && all[..|all|] == all;
    forall i | i in batch ensures Waiting(rows, i, subject) {
      var k :| 0 <= k < |batch| && batch[k] == i;
    }
  }

  class HostService {
    const custody: WebhookCustody
    /** How many deliveries are still to arrive: any finite number. */
    var arrivals: nat
    /** Every row handed to an application so far, over all activations, and whether it was served. */
    ghost var log: seq<nat>
    ghost var served: seq<bool>
    /** Since the activation began: the rows then, those charged and when, those applied but not
        settled, those acknowledged, and what happened in order. */
    ghost var base: seq<Row>
    ghost var charged: set<nat>
    ghost var at: nat -> int
    ghost var unsettled: set<nat>
    ghost var acknowledged: set<nat>
    ghost var events: seq<Event>

    constructor (custody: WebhookCustody, arrivals: nat)
      requires custody.rows == []
      ensures this.custody == custody && this.arrivals == arrivals && log == [] && served == [] && Valid() && Tallied()
    {
      this.custody, this.arrivals := custody, arrivals;
      log, served, base, charged, unsettled, acknowledged, events := [], [], [], {}, {}, {}, [];
      at := _ => 0;
    }

    ghost predicate Valid()
      reads this, custody
    {
      Ordered(custody.rows, log) && |served| == |log| && Traced(events, unsettled)
    }

    ghost predicate Tallied()
      reads this, custody
    {
      Tally(base, custody.rows, charged, at) && Noticed(base, custody.rows, acknowledged)
    }

    ghost function Present(): Past
      reads this, custody
    {
      Past(custody.rows, log, served)
    }

    /** Deliveries arrive at any moment; they only add rows. */
    method Arrivals(more: seq<Arrival>)
      requires Valid() && Tallied()
      modifies custody, this`arrivals
      ensures Valid() && Tallied()
      ensures custody.rows
              == Received(old(custody.rows), more[..if |more| <= old(arrivals) then |more| else old(arrivals)])
      ensures |custody.rows| + arrivals <= old(|custody.rows| + arrivals) && Rests(old(Present()), Present())
    {
      var most := if |more| <= arrivals then |more| else arrivals;
      for n := 0 to most
        invariant Valid() && Tallied() && arrivals == old(arrivals) - n
        invariant custody.rows == Received(old(custody.rows), more[..n])
        invariant |custody.rows| <= old(|custody.rows|) + n
      {
        ghost var rows := custody.rows;
        assert more[..n + 1][..n] == more[..n];
        TallyGrows(base, rows, charged, at, more[n]);
        var duplicate := custody.Receive(more[n]);
        OrderedAdvances(rows, custody.rows, log);
        arrivals := arrivals - 1;
      }
      ArrivalsRest(old(Present()), Present());
    }

    /** Acknowledge a pending row; an applied one only when its application was settled. */
    method Conclude(delivery: nat)
      requires Valid() && Tallied() && delivery < |custody.rows| && custody.rows[delivery].status == Pending
      requires delivery !in unsettled && delivery !in charged
      modifies custody, this`acknowledged, this`events
      ensures Valid() && Tallied() && events == old(events) + [Acknowledged(delivery)]
      ensures acknowledged == old(acknowledged) + {delivery}
      ensures custody.rows == old(custody.rows)[delivery := old(custody.rows[delivery]).(status := Terminal)]
    {
      TallyConcluded(base, custody.rows, charged, at, delivery);
      OrderedAdvances(custody.rows, custody.rows[delivery := custody.rows[delivery].(status := Terminal)], log);
      TraceGrows(events, unsettled, Acknowledged(delivery));
      custody.Acknowledge(delivery);
      events, acknowledged := events + [Acknowledged(delivery)], acknowledged + {delivery};
    }

    method ChargeOnce(delivery: nat, now: int)
      requires Valid() && Tallied() && delivery < |custody.rows| && custody.rows[delivery].status == Pending
      requires delivery !in charged && now == at(delivery)
      modifies custody, this`charged
      ensures Valid() && Tallied() && charged == old(charged) + {delivery}
      ensures |custody.rows| == old(|custody.rows|)
      ensures forall i :: 0 <= i < |custody.rows| && i != delivery ==> custody.rows[i] == old(custody.rows[i])
      ensures custody.rows[delivery].status != Terminal
      ensures custody.rows[delivery].subject == old(custody.rows[delivery].subject)
    {
      TallyCharged(base, custody.rows, charged, at, delivery);
      OrderedAdvances(custody.rows, custody.rows[delivery := Charge(custody.rows[delivery], now)], log);
      custody.Retry(delivery, now);
      charged := charged + {delivery};
    }

    /** Dispose of candidates that cannot address an instance; the rest are selected, in order. */
    method SelectAll(candidates: seq<nat>, script: Script) returns (selected: seq<nat>)
      requires Valid() && Tallied() && Open(custody.rows, candidates) && Increasing(candidates)
      requires forall i :: i in candidates ==> i !in unsettled && i !in charged
      modifies custody, this`acknowledged, this`events
      ensures Valid() && Tallied() && Increasing(selected) && |custody.rows| == old(|custody.rows|)
      ensures old(events) <= events
      ensures forall i :: i in acknowledged <==>
                i in old(acknowledged) || (i in candidates && !script.addressed(i))
      ensures forall i :: i in selected <==> i in candidates && script.addressed(i)
      ensures forall i :: i in candidates && i !in selected ==> i < |custody.rows| && custody.rows[i].status == Terminal
      ensures forall i :: 0 <= i < |custody.rows| && (i in selected || i !in candidates) ==>
                custody.rows[i] == old(custody.rows[i])
    {
      selected := [];
      assert forall a :: 0 <= a < |candidates| ==> candidates[a] in candidates;
      for k := 0 to |candidates|
        invariant Valid() && Tallied() && |custody.rows| == old(|custody.rows|) && Increasing(selected)
        invariant old(events) <= events
        invariant old(acknowledged) <= acknowledged
        invariant forall i :: i in acknowledged ==> i in old(acknowledged) || (i in candidates && !script.addressed(i))
        invariant forall a, b :: 0 <= a < |selected| && k <= b < |candidates| ==> selected[a] < candidates[b]
        invariant forall i :: i in selected ==> i in candidates && script.addressed(i)
        invariant forall a :: 0 <= a < k ==>
                    if script.addressed(candidates[a]) then candidates[a] in selected
                    else candidates[a] in acknowledged
        invariant forall b :: k <= b < |candidates| ==> candidates[b] !in acknowledged
        invariant forall i :: 0 <= i < |custody.rows| && (i !in acknowledged || i in old(acknowledged)) ==>
                  custody.rows[i] == old(custody.rows[i])
      {
        if script.addressed(candidates[k]) {
          selected := selected + [candidates[k]];
        } else {
          Conclude(candidates[k]);
        }
      }
    }

    /** Hand the head of a batch to the application, if its route is still active. */
    method Attempt(subject: Subject, rest: seq<nat>, script: Script) returns (outcome: Outcome)
      requires Valid() && Tallied() && InTurn(custody.rows, log, subject, rest) && rest != []
      modifies custody, this`arrivals, this`log, this`served, this`unsettled, this`events
      ensures Valid() && Tallied() && log == old(log) + [rest[0]] && InTurn(custody.rows, log, subject, rest[1..])
      ensures old(custody.rows) <= custody.rows && |custody.rows| + arrivals <= old(|custody.rows| + arrivals)
      ensures Waiting(custody.rows, rest[0], subject)
      ensures outcome == script.outcome(rest[0]) && served == old(served) + [outcome != RouteInactive]
      ensures events == old(events) + (if outcome == Applied then [AppliedRow(rest[0])] else [])
      ensures unsettled == old(unsettled) + if outcome == Applied then {rest[0]} else {}
    {
      Arrivals(script.arriving(rest[0]));
      InTurnGrows(old(custody.rows), custody.rows, log, subject, rest);
      assert rest[..0] == [];
      OrderedAttempt(custody.rows, log, rest[0], subject);
      InTurnStep(custody.rows, log, subject, rest);
      outcome := script.outcome(rest[0]);
      log, served := log + [rest[0]], served + [outcome != RouteInactive];
      if outcome == Applied {
        TraceGrows(events, unsettled, AppliedRow(rest[0]));
        events, unsettled := events + [AppliedRow(rest[0])], unsettled + {rest[0]};
      }
    }

    /** Attempt a batch in order until one application raises; that one is charged at once. */
    method ApplyBatch(subject: Subject, batch: seq<nat>, script: Script) returns (raised: bool, done: nat)
      requires Valid() && Tallied() && InTurn(custody.rows, log, subject, batch) && charged == {}
      requires at == script.chargedAt
      modifies custody, this`arrivals, this`log, this`served, this`charged, this`unsettled, this`events
      ensures Valid() && Tallied() && old(events) <= events
      ensures |custody.rows| >= old(|custody.rows|) && |custody.rows| + arrivals <= old(|custody.rows| + arrivals)
      ensures done <= |batch| && (raised ==> done < |batch|) && (!raised ==> done == |batch|)
      ensures charged == if raised then {batch[done]} else {}
      ensures raised ==> batch[done] < |custody.rows| && custody.rows[batch[done]].status != Terminal
                         && custody.rows[batch[done]].subject == Some(subject)
      ensures log == old(log) + batch[..if raised then done + 1 else done]
      ensures served == old(served) + Flags(script, batch[..if raised then done + 1 else done])
      ensures forall k :: 0 <= k < done ==> script.outcome(batch[k]) != Raised
      ensures raised ==> script.outcome(batch[done]) == Raised
      ensures forall i :: 0 <= i < old(|custody.rows|) && i !in charged ==> custody.rows[i] == old(custody.rows[i])
      ensures forall i :: i in unsettled ==> i in old(unsettled) || (i in batch[..done] && script.outcome(i) == Applied)
      ensures Noted(events, batch[..done], script)
    {
      done := 0;
      while done < |batch|
        invariant 0 <= done <= |batch| && Valid() && Tallied() && charged == {} && old(events) <= events
        invariant old(custody.rows) <= custody.rows && |custody.rows| + arrivals <= old(|custody.rows| + arrivals)
        invariant InTurn(custody.rows, log, subject, batch[done..])
        invariant log == old(log) + batch[..done] && served == old(served) + Flags(script, batch[..done])
        invariant forall k :: 0 <= k < done ==> script.outcome(batch[k]) != Raised
        invariant forall i :: i in unsettled ==>
                  i in old(unsettled) || (i in batch[..done] && script.outcome(i) == Applied)
        invariant Noted(events, batch[..done], script)
      {
        ghost var noted := events;
        var outcome := Attempt(subject, batch[done..], script);
        BatchStep(script, batch, done, noted, events);
        if outcome == Raised {
          ChargeOnce(batch[done], script.chargedAt(batch[done]));
          return true, done;
        }
        done := done + 1;
      }
      assert batch[..|batch|] == batch;
      raised := false;
    }

    /** The rows of a reading that were not seen before. */
    method Unseen(found: seq<nat>, seen: set<nat>) returns (arrived: seq<nat>)
      requires Increasing(found)
      ensures Increasing(arrived)
      ensures forall i :: i in arrived <==> i in found && i !in seen
    {
      arrived := [];
      for k := 0 to |found|
        invariant Increasing(arrived)
        invariant forall a, b :: 0 <= a < |arrived| && k <= b < |found| ==> arrived[a] < found[b]
        invariant forall i :: i in arrived <==> i in found[..k] && i !in seen
      {
        assert found[..k + 1] == found[..k] + [found[k]];
        if found[k] !in seen { arrived := arrived + [found[k]]; }
      }
      assert found[..|found|] == found;
    }

    /** Read the due rows again and select those that arrived since. */
    method NextBatch(subject: Subject, seen: set<nat>, now: int, script: Script)
      returns (batch: seq<nat>, seen': set<nat>)
      requires Valid() && Tallied() && Below(seen, |custody.rows|)
      requires forall i :: i in seen && Waiting(custody.rows, i, subject) ==> i in log
      requires charged == {} && forall i :: i in unsettled ==> i in seen
      modifies custody, this`acknowledged, this`events
      ensures Valid() && Tallied() && InTurn(custody.rows, log, subject, batch) && old(events) <= events
      ensures old(acknowledged) <= acknowledged
      ensures forall i :: i in acknowledged && i !in old(acknowledged) ==> !script.addressed(i)
      ensures |custody.rows| == old(|custody.rows|) && Below(seen', |custody.rows|) && seen <= seen'
      ensures forall i :: i in batch ==> i in seen' && i !in seen && Waiting(old(custody.rows), i, subject)
      ensures forall i :: i in seen' && i !in seen && Waiting(custody.rows, i, subject) ==> i in batch
      ensures forall j, i: nat :: j in batch && i < j && Waiting(custody.rows, i, subject) ==> i in seen'
      ensures forall i :: i in seen ==> custody.rows[i] == old(custody.rows[i])
      ensures forall i: nat :: Waiting(custody.rows, i, subject) ==> Waiting(old(custody.rows), i, subject)
    {
      var found := custody.PendingOf(1000, subject, now);
      var arrived := Unseen(found, seen);
      ghost var before := custody.rows;
      batch := SelectAll(arrived, script);
      TurnComes(before, custody.rows, log, subject, found, seen, arrived, batch);
      seen' := seen + set i | i in arrived;
    }

    /** Between rounds: the books are open, and the selection is as it should be. */
    ghost predicate Midway(subject: Subject, all: seq<nat>, done: nat, seen: set<nat>, script: Script)
      reads this, custody
    {
      && Valid() && Tallied() && charged == {} && at == script.chargedAt
      && (forall i :: i in acknowledged ==> !script.addressed(i))
      && Selection(custody.rows, log, subject, all, done, seen, script)
      && (forall i :: i in unsettled ==> i in all[..done] && script.outcome(i) == Applied)
      && Noted(events, all[..done], script)
    }

    /** Where the batches ended: all done, one raised, or a reading failed. */
    ghost predicate Ended(subject: Subject, all: seq<nat>, done: nat, raised: bool, script: Script)
      reads this, custody
    {
      && Valid() && Tallied() && at == script.chargedAt && Increasing(all)
      && (forall i :: i in acknowledged ==> !script.addressed(i))
      && done <= |all| && (raised ==> done < |all| && script.outcome(all[done]) == Raised)
      && (!raised ==> done == |all|)
      && charged == (if raised then {all[done]} else {})
      && Standing(custody.rows, charged, subject, all)
      && (forall i :: i in all[..done] ==> script.outcome(i) != Raised)
      && (forall i :: i in unsettled ==> i in all[..done] && script.outcome(i) == Applied)
      && Noted(events, all[..done], script)
    }

    /** Attempt what is left of the selection. */
    method Push(subject: Subject, all: seq<nat>, done: nat, seen: set<nat>, script: Script)
      returns (raised: bool, done': nat)
      requires Midway(subject, all, done, seen, script)
      modifies custody, this`arrivals, this`log, this`served, this`charged, this`unsettled, this`events
      ensures done <= done' <= |all| && (raised ==> done' < |all|) && old(events) <= events
      ensures log == old(log) + all[done..if raised then done' + 1 else done']
      ensures served == old(served) + Flags(script, all[done..if raised then done' + 1 else done'])
      ensures |custody.rows| + arrivals <= old(|custody.rows| + arrivals)
      ensures raised ==> Ended(subject, all, done', true, script)
      ensures !raised ==> done' == |all| && Midway(subject, all, |all|, seen, script)
    {
      ghost var before := custody.rows;
      var n;
      raised, n := ApplyBatch(subject, all[done..], script);
      done' := done + n;
      PushParts(all, done, n);
      NotedJoin(old(events), events, all[..done], all[done..done'], script);
      SelectionIsStanding(before, custody.rows, old(log), charged, subject, all, done, seen, script);
      if !raised { SelectionDone(before, custody.rows, old(log), subject, all, done, seen, script); }
    }

    /** Extend the selection by what arrived, if custody can be read. */
    method NextAll(subject: Subject, all: seq<nat>, seen: set<nat>, now: int, script: Script)
      returns (all': seq<nat>, seen': set<nat>)
      requires Midway(subject, all, |all|, seen, script)
      modifies custody, this`acknowledged, this`events
      ensures Midway(subject, all', |all|, seen', script) && all <= all' && seen <= seen' && old(events) <= events
      ensures old(acknowledged) <= acknowledged
      ensures |custody.rows| == old(|custody.rows|)
      ensures |all| < |all'| ==> |seen'| > |seen|
    {
      assert all[|all|..] == [] && all[..|all|] == all;
      ghost var before := custody.rows;
      var batch;
      batch, seen' := NextBatch(subject, seen, now, script);
      if batch != [] { SeenGrows(seen, seen', batch[0]); }
      all' := all + batch;
      assert all'[..|all|] == all;
      NotedJoin(old(events), events, all, [], script);
      SelectionExtends(before, custody.rows, log, subject, all, seen, seen', batch, script);
    }

    /** The loop over batches: apply, read again, until nothing new is due, one raises, or custody
        cannot be read. */
    method ApplyAll(subject: Subject, selected: seq<nat>, first: set<nat>, script: Script)
      returns (raised: bool, broken: bool, all: seq<nat>, done: nat)
      requires Midway(subject, selected, 0, first, script)
      modifies custody, this`arrivals, this`log, this`served, this`charged, this`unsettled, this`acknowledged,
               this`events
      ensures Ended(subject, all, done, raised, script) && selected <= all && old(acknowledged) <= acknowledged
      ensures selected == [] ==> all == []
      ensures |custody.rows| + arrivals <= old(|custody.rows| + arrivals)
      ensures log == old(log) + all[..if raised then done + 1 else done]
      ensures served == old(served) + Flags(script, all[..if raised then done + 1 else done])
      ensures broken <==> !raised && all != [] && script.rereadFails(done)
    {
      raised, broken, all, done := false, false, selected, 0;
      var seen := first;
      BoundedSet(seen, |custody.rows|);
      while done < |all|
        invariant Midway(subject, all, done, seen, script) && selected <= all && old(acknowledged) <= acknowledged
        invariant selected == [] ==> all == []
        invariant done == |all| ==> all == [] || !script.rereadFails(done)
        invariant log == old(log) + all[..done] && served == old(served) + Flags(script, all[..done])
        invariant |seen| <= |custody.rows| && |custody.rows| + arrivals <= old(|custody.rows| + arrivals)
        decreases if done < |all| then 1 + old(|custody.rows| + arrivals) - |seen| else 0
      {
        ghost var from, was := done, all;
        raised, done := Push(subject, all, done, seen, script);
        LogJoins(old(log), old(served), script, all, from, if raised then done + 1 else done);
        if raised { return; }
        if script.rereadFails(done) {
          MidwayEnds(subject, all, seen, script);
          return false, true, all, done;
        }
        all, seen := NextAll(subject, all, seen, script.now(done), script);
        assert all[..done] == was[..done];
        BoundedSet(seen, |custody.rows|);
      }
      MidwayEnds(subject, all, seen, script);
    }

    lemma MidwayEnds(subject: Subject, all: seq<nat>, seen: set<nat>, script: Script)
      requires Midway(subject, all, |all|, seen, script)
      ensures Ended(subject, all, |all|, false, script)
    {
    }

    /** Acknowledge everything that was applied or found inactive. */
    method ConcludeAll(items: seq<nat>)
      requires Valid() && Tallied() && Open(custody.rows, items) && Increasing(items) && unsettled == {}
      requires forall i :: i in items ==> i !in charged
      modifies custody, this`acknowledged, this`events
      ensures Valid() && Tallied() && |custody.rows| == old(|custody.rows|) && old(events) <= events
      ensures forall i :: i in acknowledged <==> i in old(acknowledged) || i in items
      ensures forall i :: i in items ==>
                i < |custody.rows| && custody.rows[i] == old(custody.rows[i]).(status := Terminal)
      ensures forall i :: 0 <= i < |custody.rows| && i !in items ==> custody.rows[i] == old(custody.rows[i])
      ensures forall i :: i in items ==> Acknowledged(i) in events[|old(events)|..]
    {
      assert forall k :: 0 <= k < |items| ==> items[k] in items;
      ghost var acks: seq<Event> := [];
      for k := 0 to |items|
        invariant Valid() && Tallied() && |custody.rows| == old(|custody.rows|)
        invariant old(acknowledged) <= acknowledged
        invariant forall i :: i in acknowledged ==> i in old(acknowledged) || i in items
        invariant forall a :: 0 <= a < k ==> custody.rows[items[a]] == old(custody.rows[items[a]]).(status := Terminal)
        invariant forall a :: k <= a < |items| ==> custody.rows[items[a]] == old(custody.rows[items[a]])
        invariant forall i :: 0 <= i < |custody.rows| && i !in items ==> custody.rows[i] == old(custody.rows[i])
        invariant events == old(events) + acks
        invariant forall a :: 0 <= a < k ==> Acknowledged(items[a]) in acks && items[a] in acknowledged
      {
        Conclude(items[k]);
        acks := acks + [Acknowledged(items[k])];
      }
      assert events[|old(events)|..] == acks;
    }

    /** Charge, once each, the selected rows that an error leaves unhandled. */
    method ChargeAll(all: seq<nat>, retry: set<nat>, handled: set<nat>, script: Script)
      requires Valid() && Tallied() && Increasing(all) && at == script.chargedAt
      requires forall i :: i in all && i !in handled ==>
                i < |custody.rows| && custody.rows[i].status == Pending && i !in charged
      modifies custody, this`charged
      ensures Valid() && Tallied() && |custody.rows| == old(|custody.rows|)
      ensures charged == old(charged) + set i | i in all && i in retry && i !in handled
      ensures forall i :: 0 <= i < |custody.rows| && (i in handled || i !in all || i !in retry) ==>
                custody.rows[i] == old(custody.rows[i])
      ensures forall i :: 0 <= i < |custody.rows| ==> custody.rows[i].subject == old(custody.rows[i].subject)
    {
      assert forall k :: 0 <= k < |all| ==> all[k] in all;
      for k := 0 to |all|
        invariant Valid() && Tallied() && |custody.rows| == old(|custody.rows|)
        invariant charged == old(charged) + set i | i in all[..k] && i in retry && i !in handled
        invariant forall a :: k <= a < |all| ==> all[a] < |custody.rows| ==>
                  custody.rows[all[a]] == old(custody.rows[all[a]])
        invariant forall i :: 0 <= i < |custody.rows| && (i in handled || i !in all || i !in retry) ==>
                  custody.rows[i] == old(custody.rows[i])
        invariant forall i :: 0 <= i < |custody.rows| ==> custody.rows[i].subject == old(custody.rows[i].subject)
      {
        assert all[k] !in all[..k];
        assert all[..k + 1] == all[..k] + [all[k]];
        if all[k] in retry && all[k] !in handled { ChargeOnce(all[k], script.chargedAt(all[k])); }
      }
      assert all[..|all|] == all;
    }

    /** Settle what was applied or reconciled, and record the posture. */
    method Settle(items: seq<nat>, reconciles: bool, script: Script) returns (ok: bool)
      requires Valid() && Tallied() && (forall i :: i in unsettled ==> i in items && script.outcome(i) == Applied)
      requires Noted(events, items, script)
      modifies this`unsettled, this`events
      ensures Valid() && Tallied() && old(events) <= events && Noted(events, items, script)
      ensures ok ==> unsettled == {}
      ensures !reconciles ==> (ok <==> !FinishFails(script, items))
      ensures reconciles && items == [] ==> (ok <==> script.posted && (script.reconciled ==> script.settles))
    {
      var applied := exists k :: 0 <= k < |items| && script.outcome(items[k]) == Applied;
      assert applied <==> exists i :: i in items && script.outcome(i) == Applied by {
        if k :| 0 <= k < |items| && script.outcome(items[k]) == Applied { assert items[k] in items; }
      }
      if applied || (reconciles && script.reconciled) {
        if !script.settles { return false; }
        TraceGrows(events, unsettled, SettleSucceeded);
        NotedJoin(events, events + [SettleSucceeded], items, [], script);
        events, unsettled := events + [SettleSucceeded], {};
      }
      assert unsettled == {};
      ok := script.posted;
    }

    /** After the batches: settle, then acknowledge. An error on the way leaves everything
        unacknowledged. */
    method Finish(ghost subject: Subject, all: seq<nat>, done: nat, raised: bool, reconcile: bool, script: Script)
      returns (error: bool, handled: set<nat>)
      requires Ended(subject, all, done, raised, script)
      modifies custody, this`unsettled, this`acknowledged, this`events
      ensures Valid() && Tallied() && |custody.rows| == old(|custody.rows|)
      ensures acknowledged == old(acknowledged) + handled
      ensures all == [] ==> (error <==> SettleFails(script, reconcile)) && handled == {}
      ensures all != [] && !FinishFails(script, all[..done]) ==>
                handled == (set i | i in all[..done]) && (error <==> raised)
      ensures all != [] && FinishFails(script, all[..done]) ==> handled == {} && error
      ensures forall i :: i in handled ==> i in all[..done] && i < |custody.rows|
                                           && custody.rows[i] == old(custody.rows[i]).(status := Terminal)
      ensures forall i :: 0 <= i < |custody.rows| && i !in handled ==> custody.rows[i] == old(custody.rows[i])
      ensures forall i :: i in handled && script.outcome(i) == Applied ==> SettledBeforeAcknowledged(events, i)
    {
      if reconcile && all == [] && script.reconcileFails { return true, {}; }
      var ok := Settle(all[..done], reconcile && all == [], script);
      if !ok { return true, {}; }
      DoneIsOpen(all, done, charged);
      ghost var settled := events;
      ConcludeAll(all[..done]);
      handled := set i | i in all[..done];
      error := raised;
      forall i | i in handled && script.outcome(i) == Applied ensures SettledBeforeAcknowledged(events, i) {
        AcknowledgedLast(settled, events, unsettled, i);
      }
    }

    /** How an activation leaves the rows it attempted. */
    ghost predicate Worked(subject: Subject, script: Script, attempted: seq<nat>)
      reads this, custody
    {
      && Valid() && Tallied() && Left(base, custody.rows, charged, subject, script, attempted)
      && (forall i :: i in attempted && i !in charged && script.outcome(i) == Applied ==>
            SettledBeforeAcknowledged(events, i))
    }

    /** The selected rows are worked through; an error charges what it leaves unhandled. */
    method Work(subject: Subject, selected: seq<nat>, seen: set<nat>, reconcile: bool, script: Script)
      returns (error: bool, ghost attempted: seq<nat>)
      requires Midway(subject, selected, 0, seen, script)
      modifies custody, this`arrivals, this`log, this`served, this`charged, this`unsettled, this`acknowledged,
               this`events
      ensures Worked(subject, script, attempted) && at == script.chargedAt
      ensures old(acknowledged) <= acknowledged
      ensures forall i :: i in acknowledged ==> i in attempted || !script.addressed(i)
      ensures error <==> ActivationFails(script, reconcile, attempted)
      ensures log == old(log) + attempted && served == old(served) + Flags(script, attempted)
      ensures |custody.rows| + arrivals <= old(|custody.rows| + arrivals)
      ensures attempted != [] ==> forall i :: i in charged ==> i in attempted
      ensures attempted == [] ==> charged <= if selected == [] then {} else {selected[0]}
      ensures !error ==> charged == {}
      ensures script.opens && selected != [] ==> Reached(script, selected, attempted)
    {
      attempted := [];
      if !script.opens || (selected == [] && !script.settlesFirst) {
        SelectionIsOpen(custody.rows, log, subject, selected, seen, script);
        ChargeAll(selected, if selected == [] then {} else {selected[0]}, {}, script);
        assert log == old(log) + [] && served == old(served) + Flags(script, []);
        return true, [];
      }
      var raised, broken, all, done := ApplyAll(subject, selected, seen, script);
      attempted := all[..if raised then done + 1 else done];
      FailsWhen(script, all, done, raised, broken);
      ReachedWhen(script, selected, all, done, raised);
      error := Close(subject, all, done, raised, broken, reconcile, script);
    }

    /** The end of an activation, with its error handling. */
    method Close(ghost subject: Subject, all: seq<nat>, done: nat, raised: bool, broken: bool, reconcile: bool,
                 script: Script)
      returns (error: bool)
      requires Ended(subject, all, done, raised, script)
      requires broken <==> !raised && all != [] && script.rereadFails(done)
      modifies custody, this`charged, this`unsettled, this`acknowledged, this`events
      ensures Worked(subject, script, all[..if raised then done + 1 else done]) && at == script.chargedAt
      ensures old(acknowledged) <= acknowledged
      ensures forall i :: i in acknowledged ==>
                i in all[..if raised then done + 1 else done] || !script.addressed(i)
      ensures error <==> if all == [] then SettleFails(script, reconcile)
                         else EndsInError(script, all[..if raised then done + 1 else done])
      ensures |custody.rows| == old(|custody.rows|)
      ensures forall i :: i in charged ==> i in all[..if raised then done + 1 else done]
      ensures !error ==> charged == {}
    {
      var tried := if raised then done + 1 else done;
      FailsWhen(script, all, done, raised, broken);
      RaisedWhen(script, all, done, raised);
      ghost var before, first := custody.rows, charged;
      WerePending(base, before, charged, at, all);
      var handled: set<nat>;
      if broken {
        error, handled := true, {};
      } else {
        error, handled := Finish(subject, all, done, raised, reconcile, script);
      }
      assert Sorted(script, all, done, raised, broken, error, handled);
      if error { Charges(subject, all, done, raised, broken, handled, script); }
      LeftWhen(base, before, custody.rows, first, charged, subject, script, all, done, raised, broken, error, handled);
      PrefixClosed(all, tried, done, raised);
    }

    /** What an error leaves unhandled among the attempted rows is charged. */
    method Charges(ghost subject: Subject, all: seq<nat>, done: nat, raised: bool, ghost broken: bool,
                   handled: set<nat>, script: Script)
      requires Valid() && Tallied() && at == script.chargedAt && Increasing(all) && done <= |all|
      requires raised ==> done < |all|
      requires charged == (if raised then {all[done]} else {})
      requires Sorted(script, all, done, raised, broken, true, handled)
      requires forall i :: i in all ==>
                i < |custody.rows| && (i !in charged && i !in handled ==> custody.rows[i].status == Pending)
      modifies custody, this`charged
      ensures Valid() && Tallied() && |custody.rows| == old(|custody.rows|)
      ensures charged == old(charged) + ((set i | i in all[..done]) - handled)
      ensures forall i :: 0 <= i < |custody.rows| && (i in handled || i !in all[..done]) ==>
                custody.rows[i] == old(custody.rows[i])
      ensures forall i :: 0 <= i < |custody.rows| ==> custody.rows[i].subject == old(custody.rows[i].subject)
    {
      var tried := if raised then done + 1 else done;
      var retry := set i | i in all[..tried];
      var settled := handled + if raised then {all[done]} else {};
      DoneIsOpen(all, done, charged);
      PrefixClosed(all, if raised then done + 1 else done, done, raised);
      ChargeAll(all, retry, settled, script);
    }

    /** One activation under a script. `observation` is a custodied delivery to start from; without
        one the due rows are read. */
    method ActivateInstance(subject: Subject, observation: Option<nat>, reconcile: bool, script: Script)
      returns (raised: bool, ran: bool, ghost attempted: seq<nat>)
      requires Valid() && (observation.Some? ==> observation.value < |custody.rows|)
      modifies custody, this
      ensures Valid() && Tally(old(custody.rows), custody.rows, charged, script.chargedAt)
      ensures Activates(old(Present()), Present(), subject, script, attempted)
      ensures forall i :: i in attempted ==> (custody.rows[i].status == Terminal <==> i !in charged)
      ensures attempted != [] ==> forall i :: i in charged ==> i in attempted
      ensures attempted == [] ==> |charged| <= 1
      ensures !raised ==> charged == {}
      ensures forall i :: i in attempted && i !in charged && script.outcome(i) == Applied ==>
                SettledBeforeAcknowledged(events, i)
      ensures |custody.rows| + arrivals <= old(|custody.rows| + arrivals)
      ensures raised <==> Proceeds(old(custody.rows), subject, observation, script)
                          && ActivationFails(script, reconcile, attempted)
      ensures ran <==> Proceeds(old(custody.rows), subject, observation, script) && !raised
      ensures !Proceeds(old(custody.rows), subject, observation, script) ==> attempted == []
      ensures Proceeds(old(custody.rows), subject, observation, script) && script.opens ==>
                forall i: nat :: (&& Candidate(old(custody.rows), subject, observation, script.now(0), i)
                                  && script.addressed(i)) ==>
                  i in attempted || exists j :: j in attempted && j < i && script.outcome(j) == Raised
      ensures Noticed(old(custody.rows), custody.rows, acknowledged)
      ensures forall i :: i in acknowledged ==>
                || i in attempted || !script.addressed(i)
                || (Candidate(old(custody.rows), subject, observation, script.now(0), i) && Unwatched(script))
      ensures forall i: nat :: (&& Candidate(old(custody.rows), subject, observation, script.now(0), i)
                                && (!script.addressed(i) || Unwatched(script))) ==> i in acknowledged
    {
      raised, ran, attempted := false, false, [];
      base, charged, at, unsettled, acknowledged, events := custody.rows, {}, script.chargedAt, {}, {}, [];
      ghost var before := Present();
      FreshTally(custody.rows, at);
      var eligible, candidates := Candidates(subject, observation, script.now(0));
      if eligible {
        ProceedsWhen(custody.rows, subject, observation, script, candidates);
        raised, ran, attempted := Proceed(subject, candidates, reconcile, script);
      } else {
        assert log == log + [] && served == served + Flags(script, []);
        NothingLeft(custody.rows, charged, subject, script);
      }
      ActivationRecorded(before, Present(), subject, script, attempted, charged);
    }

    /** From the candidates on. */
    method Proceed(subject: Subject, candidates: seq<nat>, reconcile: bool, script: Script)
      returns (raised: bool, ran: bool, ghost attempted: seq<nat>)
      requires Valid() && Tallied() && charged == {} && at == script.chargedAt && unsettled == {}
      requires Prefix(custody.rows, subject, candidates)
      requires acknowledged == {}
      modifies custody, this`arrivals, this`log, this`served, this`charged, this`unsettled, this`acknowledged,
               this`events
      ensures Worked(subject, script, attempted)
      ensures log == old(log) + attempted && served == old(served) + Flags(script, attempted)
      ensures |custody.rows| + arrivals <= old(|custody.rows| + arrivals)
      ensures attempted != [] ==> forall i :: i in charged ==> i in attempted
      ensures attempted == [] ==> |charged| <= 1
      ensures !raised ==> charged == {}
      ensures raised <==> ProceedsAmong(candidates, script) && ActivationFails(script, reconcile, attempted)
      ensures ran <==> ProceedsAmong(candidates, script) && !raised
      ensures !ProceedsAmong(candidates, script) ==> attempted == []
      ensures ProceedsAmong(candidates, script) && script.opens ==>
                forall i :: i in candidates && script.addressed(i) ==>
                  i in attempted || exists j :: j in attempted && j < i && script.outcome(j) == Raised
      ensures forall i :: i in acknowledged ==>
                i in attempted || !script.addressed(i) || (i in candidates && Unwatched(script))
      ensures forall i :: i in candidates && (!script.addressed(i) || Unwatched(script)) ==> i in acknowledged
    {
      raised, ran, attempted := false, false, [];
      assert log == log + [] && served == served + Flags(script, []);
      var selected, seen := SelectFirst(subject, candidates, script);
      if !script.known && ((candidates != [] && selected == []) || !script.routed) { return; }
      if selected != [] && !script.known && !script.watched {
        SelectionIsOpen(custody.rows, log, subject, selected, seen, script);
        assert selected[0] in candidates && script.addressed(selected[0]);
        assert !ProceedsAmong(candidates, script);
        ConcludeAll(selected);
        return;
      }
      raised, attempted := Work(subject, selected, seen, reconcile, script);
      ran := !raised;
      if attempted == [] && charged != {} { assert charged == {selected[0]}; }
    }

    /** The delivery to start from, if it is the due head of its order, or the due rows. */
    method Candidates(subject: Subject, observation: Option<nat>, now: int)
      returns (eligible: bool, candidates: seq<nat>)
      requires observation.Some? ==> observation.value < |custody.rows|
      ensures eligible <==> observation.None? || Candidate(custody.rows, subject, observation, now, observation.value)
      ensures eligible ==> Prefix(custody.rows, subject, candidates)
      ensures eligible ==> forall i: nat :: i in candidates <==> Candidate(custody.rows, subject, observation, now, i)
    {
      if observation.Some? {
        eligible := custody.Eligible(observation.value, subject, now);
        candidates := [observation.value];
      } else {
        eligible := true;
        candidates := custody.PendingOf(1000, subject, now);
        forall i: nat ensures i in candidates <==> Candidate(custody.rows, subject, observation, now, i) {
          DueIsRead(custody.rows, subject, candidates, now, i);
        }
      }
    }

    method SelectFirst(subject: Subject, candidates: seq<nat>, script: Script)
      returns (selected: seq<nat>, seen: set<nat>)
      requires Valid() && Tallied() && charged == {} && at == script.chargedAt && unsettled == {}
      requires Prefix(custody.rows, subject, candidates)
      requires acknowledged == {}
      modifies custody, this`acknowledged, this`events
      ensures Midway(subject, selected, 0, seen, script) && |custody.rows| == old(|custody.rows|)
      ensures forall i :: i in acknowledged <==> i in candidates && !script.addressed(i)
      ensures forall i :: i in selected <==> i in candidates && script.addressed(i)
    {
      ghost var before := custody.rows;
      selected := SelectAll(candidates, script);
      seen := set i | i in candidates;
      TurnComes(before, custody.rows, log, subject, candidates, {}, candidates, selected);
      assert selected[0..] == selected && selected[..0] == [];
    }
  }

  /** Whether finishing ends in an error when nothing was selected. */
  predicate SettleFails(script: Script, reconcile: bool) {
    !script.posted || (reconcile && (script.reconcileFails || (script.reconciled && !script.settles)))
  }

  /** Whether an activation that attempts nothing ends in an error. */
  predicate IdleFails(script: Script, reconcile: bool) {
    !script.opens || !script.settlesFirst || SettleFails(script, reconcile)
  }

  /** Whether finishing ends in an error once these rows were applied. */
  predicate FinishFails(script: Script, items: seq<nat>) {
    ((exists i :: i in items && script.outcome(i) == Applied) && !script.settles) || !script.posted
  }

  lemma DoneIsOpen(all: seq<nat>, done: nat, charged: set<nat>)
    requires done <= |all| && Increasing(all) && (forall i :: i in charged ==> done < |all| && i == all[done])
    ensures Increasing(all[..done]) && forall i :: i in all[..done] ==> i in all && i !in charged
  {
    forall i | i in all[..done] ensures i in all && i !in charged {
      var k :| 0 <= k < done && all[k] == i;
    }
  }

  lemma AcknowledgedLast(settled: seq<Event>, events: seq<Event>, unsettled: set<nat>, i: nat)
    requires settled <= events && Traced(events, unsettled)
    requires AppliedRow(i) in settled && Acknowledged(i) in events[|settled|..]
    ensures SettledBeforeAcknowledged(events, i)
  {
    var a: nat :| a < |settled| && settled[a] == AppliedRow(i);
    var c: nat :| c < |events| - |settled| && events[|settled|..][c] == Acknowledged(i);
    assert events[a] == AppliedRow(i) && events[|settled| + c] == Acknowledged(i);
  }

  /** Every selected row is attempted, up to one that raised. */
  ghost predicate Reached(script: Script, selected: seq<nat>, attempted: seq<nat>) {
    forall i :: i in selected ==> i in attempted || exists j :: j in attempted && j < i && script.outcome(j) == Raised
  }

  lemma ReachedWhen(script: Script, selected: seq<nat>, all: seq<nat>, done: nat, raised: bool)
    requires selected <= all && Increasing(all) && done <= |all| && (!raised ==> done == |all|)
    requires raised ==> done < |all| && script.outcome(all[done]) == Raised
    ensures Reached(script, selected, all[..if raised then done + 1 else done])
  {
    var attempted := all[..if raised then done + 1 else done];
    forall i | i in selected
      ensures i in attempted || exists j :: j in attempted && j < i && script.outcome(j) == Raised
    {
      var k :| 0 <= k < |selected| && selected[k] == i;
      assert all[k] == i;
      if k < |attempted| {
        assert attempted[k] == i;
      } else {
        assert attempted[done] == all[done] && all[done] < i;
      }
    }
  }

  lemma SelectionIsOpen(rows: seq<Row>, log: seq<nat>, subject: Subject, all: seq<nat>, seen: set<nat>, script: Script)
    requires Selection(rows, log, subject, all, 0, seen, script)
    ensures Open(rows, all)
  {
  }

  lemma PrefixClosed(all: seq<nat>, tried: nat, done: nat, raised: bool)
    requires Increasing(all) && tried <= |all| && done <= tried && tried == if raised then done + 1 else done
    ensures Increasing(all[..tried])
    ensures forall i :: i in all[..tried] ==> i in all && (i in all[..done] || (raised && i == all[done]))
    ensures forall i, j :: j in all[..tried] && i in all && i < j ==> i in all[..tried]
  {
    forall i, j | j in all[..tried] && i in all && i < j ensures i in all[..tried] {
      var b :| 0 <= b < tried && all[b] == j;
      var a :| 0 <= a < |all| && all[a] == i;
      assert all[..tried][a] == i;
    }
    forall i | i in all[..tried] ensures i in all && (i in all[..done] || (raised && i == all[done])) {
      var k :| 0 <= k < tried && all[k] == i;
      if k < done { assert all[..done][k] == i; }
    }
  }

  lemma WerePending(base: seq<Row>, rows: seq<Row>, charged: set<nat>, at: nat -> int, items: seq<nat>)
    requires Tally(base, rows, charged, at)
    requires forall i :: i in items ==> i < |rows| && (i !in charged ==> rows[i].status == Pending)
    ensures forall i :: i in items && i < |base| ==> base[i].status == Pending
  {
    forall i | i in items && i < |base| ensures base[i].status == Pending {
      assert Accounted(base, rows, charged, at, i);
    }
  }

  /** From the books to the record of the activation. */
  lemma ActivationRecorded(before: Past, after: Past, subject: Subject, script: Script, attempted: seq<nat>,
                           charged: set<nat>)
    requires |before.served| == |before.log| && Ordered(before.rows, before.log) && Ordered(after.rows, after.log)
    requires Tally(before.rows, after.rows, charged, script.chargedAt)
    requires after.log == before.log + attempted && after.served == before.served + Flags(script, attempted)
    requires Left(before.rows, after.rows, charged, subject, script, attempted)
    ensures Activates(before, after, subject, script, attempted)
    ensures forall i :: i in attempted ==> i < |after.rows| && (after.rows[i].status == Terminal <==> i !in charged)
  {
    TallyAdvances(before.rows, after.rows, charged, script.chargedAt);
    forall p | 0 <= p < |before.log|
      ensures before.log[p] < |before.rows|
    {
      assert TurnAt(before.rows, before.log, p);
    }
    forall p | 0 <= p < |after.log| ensures after.log[p] < |after.rows| { assert TurnAt(after.rows, after.log, p); }
    forall i | i in charged ensures Deferred(before.rows, after.rows, i) {
      assert Accounted(before.rows, after.rows, charged, script.chargedAt, i);
    }
  }

  lemma FreshTally(rows: seq<Row>, at: nat -> int)
    ensures Tally(rows, rows, {}, at) && Noticed(rows, rows, {})
  {
  }

  lemma NothingLeft(rows: seq<Row>, charged: set<nat>, subject: Subject, script: Script)
    ensures Left(rows, rows, charged, subject, script, [])
  {
  }

  /** Attempted rows end charged or concluded, and nothing of the pull request that still waits was
      passed over. */
  ghost predicate Left(base: seq<Row>, rows: seq<Row>, charged: set<nat>, subject: Subject, script: Script,
                       attempted: seq<nat>)
  {
    && Increasing(attempted)
    && (forall i :: i in attempted ==>
          i < |rows| && rows[i].subject == Some(subject) && (i < |base| ==> base[i].status == Pending))
    && (forall i :: i in attempted ==>
          if Fails(script, attempted) || script.outcome(i) == Raised then i in charged
          else i !in charged && rows[i].status == Terminal)
    && (forall j, i: nat :: j in attempted && i < j && Waiting(rows, i, subject) ==> i in attempted)
  }

  lemma LeftWhen(base: seq<Row>, before: seq<Row>, rows: seq<Row>, first: set<nat>, charged: set<nat>, subject: Subject,
                 script: Script, all: seq<nat>, done: nat, raised: bool, broken: bool, error: bool, handled: set<nat>)
    requires Increasing(all) && done <= |all| && |rows| == |before|
    requires raised ==> done < |all| && script.outcome(all[done]) == Raised
    requires !raised ==> done == |all|
    requires broken <==> !raised && all != [] && script.rereadFails(done)
    requires forall i :: i in all[..done] ==> script.outcome(i) != Raised
    requires Sorted(script, all, done, raised, broken, error, handled)
    requires first == (if raised then {all[done]} else {})
    requires charged == if error then first + ((set i | i in all[..done]) - handled) else first
    requires forall i :: i in all ==>
              i < |rows| && before[i].subject == Some(subject) && (i < |base| ==> base[i].status == Pending)
    requires forall i :: i in handled ==> i < |rows| && rows[i].status == Terminal
    requires forall i :: 0 <= i < |rows| && i !in handled && (!error || i !in all[..done]) ==> rows[i] == before[i]
    requires forall i :: 0 <= i < |rows| ==> rows[i].subject == before[i].subject
    requires forall i :: i in all && i !in first ==> before[i].status == Pending
    requires forall j, i: nat :: j in all && i < j && Waiting(before, i, subject) ==> i in all
    ensures Left(base, rows, charged, subject, script, all[..if raised then done + 1 else done])
  {
    var tried := if raised then done + 1 else done;
    var attempted := all[..tried];
    FailsWhen(script, all, done, raised, broken);
    PrefixClosed(all, tried, done, raised);
    DoneIsOpen(all, done, first);
    forall j, i: nat | j in attempted && i < j && Waiting(rows, i, subject) ensures i in attempted {
      if i in handled || i in all[..done] {
        assert i in all;
      } else {
        assert rows[i] == before[i] && Waiting(before, i, subject);
      }
    }
  }

  /** What finishing handles, and when it ends in an error. */
  ghost predicate Sorted(script: Script, all: seq<nat>, done: nat, raised: bool, broken: bool, error: bool,
                         handled: set<nat>)
    requires done <= |all|
  {
    && (raised ==> error)
    && (if all != [] && !broken && !FinishFails(script, all[..done])
        then handled == (set i | i in all[..done]) && (error <==> raised)
        else handled == {} && (all != [] ==> error))
  }

  /** Whether an activation with attempts ends in an error: its first raised one is reported, or
      it fails afterwards. */
  ghost predicate EndsInError(script: Script, attempted: seq<nat>) {
    Fails(script, attempted) || exists i :: i in attempted && script.outcome(i) == Raised
  }

  ghost predicate ActivationFails(script: Script, reconcile: bool, attempted: seq<nat>) {
    if attempted == [] then IdleFails(script, reconcile) else EndsInError(script, attempted)
  }

  lemma RaisedWhen(script: Script, all: seq<nat>, done: nat, raised: bool)
    requires done <= |all|
    requires raised ==> done < |all| && script.outcome(all[done]) == Raised
    requires forall i :: i in all[..done] ==> script.outcome(i) != Raised
    ensures raised <==> exists i :: i in all[..if raised then done + 1 else done] && script.outcome(i) == Raised
  {
    if raised { assert all[..done + 1][done] == all[done]; }
  }

  lemma FailsWhen(script: Script, all: seq<nat>, done: nat, raised: bool, broken: bool)
    requires done <= |all| && (!raised ==> done == |all|)
    requires raised ==> done < |all| && script.outcome(all[done]) == Raised
    requires forall i :: i in all[..done] ==> script.outcome(i) != Raised
    requires broken <==> !raised && all != [] && script.rereadFails(done)
    ensures Fails(script, all[..if raised then done + 1 else done])
            <==> all != [] && (broken || FinishFails(script, all[..done]))
  {
    var attempted := all[..if raised then done + 1 else done];
    if raised {
      assert attempted == all[..done] + [all[done]];
      assert all[done] in attempted;
    }
  }

  /** A row is due when it and every row waiting before it are. */
  predicate DueAt(rows: seq<Row>, subject: Subject, now: int, i: nat) {
    Waiting(rows, i, subject) && forall k: nat :: k <= i && Waiting(rows, k, subject) ==> rows[k].nextAt <= now
  }

  /** How many rows of the pull request wait before this one. */
  function Ahead(rows: seq<Row>, subject: Subject, i: nat): (n: nat)
    ensures n <= i
  {
    if i == 0 then 0 else Ahead(rows, subject, i - 1) + if Waiting(rows, i - 1, subject) then 1 else 0
  }

  /** Waiting rows before a row count among those ahead of it. */
  lemma {:induction false} AheadCounts(rows: seq<Row>, subject: Subject, s: seq<nat>, i: nat)
    requires Increasing(s) && forall k :: 0 <= k < |s| ==> s[k] < i && Waiting(rows, s[k], subject)
    ensures |s| <= Ahead(rows, subject, i)
  {
    if s != [] {
      var n := |s| - 1;
      if s[n] == i - 1 {
        AheadCounts(rows, subject, s[..n], i - 1);
      } else {
        assert forall k :: 0 <= k < |s| ==> s[k] <= s[n];
        AheadCounts(rows, subject, s, i - 1);
      }
    }
  }

  lemma {:induction false} AheadIs(rows: seq<Row>, subject: Subject, s: seq<nat>, i: nat)
    requires Increasing(s) && forall k: nat :: k in s <==> k < i && Waiting(rows, k, subject)
    ensures Ahead(rows, subject, i) <= |s|
  {
    if i > 0 {
      if Waiting(rows, i - 1, subject) {
        var a :| 0 <= a < |s| && s[a] == i - 1;
        assert s[|s| - 1] in s && a == |s| - 1;
        assert s == s[..a] + [i - 1];
        AheadIs(rows, subject, s[..a], i - 1);
      } else {
        AheadIs(rows, subject, s, i - 1);
      }
    }
  }

  /** A reading of the first 1000 is exactly the due rows with fewer than 1000 ahead of them. */
  lemma DueIsRead(rows: seq<Row>, subject: Subject, due: seq<nat>, now: int, i: nat)
    requires Prefix(rows, subject, due) && |due| <= 1000 && (|due| < 1000 ==> Fenced(rows, subject, due, now))
    requires forall k :: k in due ==> rows[k].nextAt <= now
    ensures i in due <==> DueAt(rows, subject, now, i) && Ahead(rows, subject, i) < 1000
  {
    if i in due {
      var n :| 0 <= n < |due| && due[n] == i;
      forall k: nat ensures k in due[..n] <==> k < i && Waiting(rows, k, subject) {
        if k < i && Waiting(rows, k, subject) {
          var a :| 0 <= a < |due| && due[a] == k;
          assert due[..n][a] == k;
        }
      }
      AheadIs(rows, subject, due[..n], i);
    } else if DueAt(rows, subject, now, i) && |due| >= 1000 {
      forall k | 0 <= k < |due| ensures due[k] < i && Waiting(rows, due[k], subject) {
        assert due[k] in due;
      }
      AheadCounts(rows, subject, due, i);
    }
  }

  /** What an activation starts from: its delivery, if that is the due head of the order, or the
      due rows with fewer than 1000 ahead of them. */
  ghost predicate Candidate(rows: seq<Row>, subject: Subject, observation: Option<nat>, now: int, i: nat) {
    match observation
    case None => DueAt(rows, subject, now, i) && Ahead(rows, subject, i) < 1000
    case Some(o) =>
      && i == o && Waiting(rows, i, subject) && rows[i].nextAt <= now
      && forall k: nat :: k < i ==> !Waiting(rows, k, subject)
  }

  /** An instance not known yet, of a configured route, whose author is not watched. */
  predicate Unwatched(script: Script) {
    !script.known && script.routed && !script.watched
  }

  /** Whether the application is opened at all. An instance not known yet needs a route, something
      addressed to it unless nothing is due, and a watched author. */
  ghost predicate Proceeds(rows: seq<Row>, subject: Subject, observation: Option<nat>, script: Script) {
    var now := script.now(0);
    && (observation.Some? ==> Candidate(rows, subject, observation, now, observation.value))
    && (|| script.known
        || (script.routed
            && if exists i: nat :: Candidate(rows, subject, observation, now, i) && script.addressed(i)
               then script.watched
               else forall i: nat :: !Candidate(rows, subject, observation, now, i)))
  }

  predicate ProceedsAmong(candidates: seq<nat>, script: Script) {
    || script.known
    || (script.routed
        && if exists i :: i in candidates && script.addressed(i) then script.watched else candidates == [])
  }

  lemma ProceedsWhen(rows: seq<Row>, subject: Subject, observation: Option<nat>, script: Script, candidates: seq<nat>)
    requires observation.Some? ==> Candidate(rows, subject, observation, script.now(0), observation.value)
    requires forall i: nat :: i in candidates <==> Candidate(rows, subject, observation, script.now(0), i)
    ensures Proceeds(rows, subject, observation, script) <==> ProceedsAmong(candidates, script)
  {
    if candidates != [] { assert candidates[0] in candidates; }
  }

  lemma {:induction false} IncreasingIsShort(s: seq<nat>, n: nat)
    requires Increasing(s) && forall k :: 0 <= k < |s| ==> s[k] < n
    ensures |s| <= n
  {
    if s != [] { IncreasingIsShort(s[..|s| - 1], s[|s| - 1]); }
  }

  lemma FlagsJoin(script: Script, a: seq<nat>, b: seq<nat>)
    ensures Flags(script, a) + Flags(script, b) == Flags(script, a + b)
  {
  }

  lemma LogJoins(log: seq<nat>, served: seq<bool>, script: Script, all: seq<nat>, from: nat, to: nat)
    requires from <= to <= |all|
    ensures log + all[..from] + all[from..to] == log + all[..to]
    ensures served + Flags(script, all[..from]) + Flags(script, all[from..to]) == served + Flags(script, all[..to])
  {
    var a, b := all[..from], all[from..to];
    assert a + b == all[..to];
    FlagsJoin(script, a, b);
    Regroup(served, Flags(script, a), Flags(script, b));
    assert log + a + b == log + (a + b);
  }

  lemma Regroup(a: seq<bool>, b: seq<bool>, c: seq<bool>)
    ensures a + b + c == a + (b + c)
  {
  }

  lemma PushParts(all: seq<nat>, done: nat, n: nat)
    requires done + n <= |all|
    ensures all[done..][..n] == all[done..done + n] && all[..done + n] == all[..done] + all[done..done + n]
    ensures done + n < |all| ==> all[done..][..n + 1] == all[done..done + n + 1] && all[done..][n] == all[done + n]
  {
  }

  lemma NotedJoin(events: seq<Event>, events': seq<Event>, a: seq<nat>, b: seq<nat>, script: Script)
    requires events <= events' && Noted(events, a, script) && Noted(events', b, script)
    ensures Noted(events', a + b, script) && Noted(events', a, script)
  {
    forall e | e in events ensures e in events' {
      var k :| 0 <= k < |events| && events[k] == e;
      assert events'[k] == e;
    }
  }

  /** Selected rows wait, but for the charged one, and nothing that waits before them was passed over. */
  ghost predicate Standing(rows: seq<Row>, charged: set<nat>, subject: Subject, all: seq<nat>) {
    && (forall i :: i in all ==> i < |rows| && rows[i].subject == Some(subject)
                                 && (i !in charged ==> rows[i].status == Pending))
    && (forall j, i: nat :: j in all && i < j && Waiting(rows, i, subject) ==> i in all)
  }

  lemma SelectionIsStanding(before: seq<Row>, rows: seq<Row>, log: seq<nat>, charged: set<nat>, subject: Subject,
                            all: seq<nat>, done: nat, seen: set<nat>, script: Script)
    requires Selection(before, log, subject, all, done, seen, script) && |before| <= |rows|
    requires forall i :: 0 <= i < |before| && i !in charged ==> rows[i] == before[i]
    requires forall i :: i in charged ==> i in all && i < |rows| && rows[i].subject == Some(subject)
    ensures Standing(rows, charged, subject, all)
  {
    forall i | i in all
      ensures i < |rows| && rows[i].subject == Some(subject) && (i !in charged ==> rows[i].status == Pending)
    {
      assert Waiting(before, i, subject);
    }
    forall j, i: nat | j in all && i < j && Waiting(rows, i, subject) ensures i in all {
      assert Waiting(before, j, subject);
      if i !in charged { assert Waiting(before, i, subject); }
    }
  }

  lemma SelectionDone(before: seq<Row>, rows: seq<Row>, log: seq<nat>, subject: Subject, all: seq<nat>, done: nat,
                      seen: set<nat>, script: Script)
    requires Selection(before, log, subject, all, done, seen, script) && before <= rows
    requires forall k :: 0 <= k < |all| - done ==> script.outcome(all[done..][k]) != Raised
    ensures Selection(rows, log + all[done..], subject, all, |all|, seen, script)
  {
    assert all[|all|..] == [] && all[..|all|] == all && all == all[..done] + all[done..];
    forall i | i in all ensures i in log + all[done..] && script.outcome(i) != Raised {
      if i !in all[..done] {
        var k :| 0 <= k < |all| - done && all[done..][k] == i;
      }
    }
    assert forall i: nat :: i < |before| && Waiting(rows, i, subject) ==> Waiting(before, i, subject);
    forall j, i: nat | j in all && i < j && Waiting(rows, i, subject) ensures i in seen {
      assert Waiting(before, j, subject) && Waiting(before, i, subject);
    }
  }

  lemma BatchStep(script: Script, batch: seq<nat>, done: nat, events: seq<Event>, events': seq<Event>)
    requires done < |batch| && events <= events' && Noted(events, batch[..done], script)
    ensures batch[done..][1..] == batch[done + 1..] && batch[..done + 1] == batch[..done] + [batch[done]]
    ensures Flags(script, batch[..done + 1])
            == Flags(script, batch[..done]) + [script.outcome(batch[done]) != RouteInactive]
    ensures (script.outcome(batch[done]) == Applied ==> AppliedRow(batch[done]) in events') ==>
              Noted(events', batch[..done + 1], script)
    ensures Noted(events', batch[..done], script)
  {
    forall e | e in events ensures e in events' {
      var k :| 0 <= k < |events| && events[k] == e;
      assert events'[k] == e;
    }
  }
}
