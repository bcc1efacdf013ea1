/** A run of the failing kind: two activations after which a pull request's deliveries were first
    served out of row order. */
module Overtaking {
  import opened Outcomes
  import opened Custody
  import opened ServiceOrder
  import opened Activation

  /** Everything works, at this hour; row 0 finds its route active or not. */
  function Hour(now: int, first: Outcome, settles: bool): Script {
    Script(_ => now, _ => false, _ => [], _ => true, i => if i == 0 then first else Applied, _ => now,
           true, true, true, true, true, settles, true, false, true)
  }

  /** Two rows of one pull request, both due. */
  predicate TwoDue(rows: seq<Row>, subject: Subject, now: int) {
    && |rows| == 2 && rows[0].status == Pending && rows[1].status == Pending
    && rows[0].subject == Some(subject) && rows[1].subject == Some(subject)
    && rows[0].nextAt <= now && rows[1].nextAt <= now
  }

  lemma BothAttempted(rows: seq<Row>, subject: Subject, now: int, attempted: seq<nat>)
    requires TwoDue(rows, subject, now) && Increasing(attempted)
    requires forall i :: i in attempted ==> i < 2
    requires forall i: nat :: DueAt(rows, subject, now, i) && Ahead(rows, subject, i) < 1000 ==> i in attempted
    ensures attempted == [0, 1]
  {
    assert DueAt(rows, subject, now, 0) && DueAt(rows, subject, now, 1);
    assert 0 in attempted && 1 in attempted;
    assert forall k :: 0 <= k < |attempted| ==> attempted[k] in attempted;
    IncreasingIsShort(attempted, 2);
    var a :| 0 <= a < |attempted| && attempted[a] == 0;
    var b :| 0 <= b < |attempted| && attempted[b] == 1;
    assert a < b;
  }

  /** Two deliveries arrive. In the first activation the route is inactive for row 0 and active for
      row 1, and the settle fails: both are charged. In the second everything works. Row 1 was
      served first. */
  method OvertakingRun(subject: Subject) returns (rows: seq<Row>, ghost past: Past)
    ensures WellKept(past) && past.rows == rows && past.log == [0, 1, 0, 1] && past.served == [false, true, true, true]
    ensures ServedFirst(past, 0, 2) && ServedFirst(past, 1, 1)
    ensures Siblings(rows, 0, 1) && !InServiceOrder(past)
  {
    var custody := new WebhookCustody();
    var host := new HostService(custody, 2);
    Deliver(custody, host, subject);
    FirstActivation(custody, host, subject);
    SecondActivation(custody, host, subject);
    past, rows := host.Present(), custody.rows;
    assert ServedFirst(past, 0, 2) && ServedFirst(past, 1, 1);
  }

  method Deliver(custody: WebhookCustody, host: HostService, subject: Subject)
    requires host.custody == custody && host.Valid() && host.Tallied() && custody.rows == [] && host.arrivals == 2
    requires host.log == [] && host.served == []
    modifies custody, host
    ensures host.Valid() && host.log == [] && host.served == [] && host.arrivals == 0
    ensures TwoDue(custody.rows, subject, 0) && custody.rows[0].attempts == 0 && custody.rows[1].attempts == 0
  {
    var a, b := Arrival("first", Some(subject), false), Arrival("second", Some(subject), false);
    assert a.delivery[0] != b.delivery[0];
    TwoArrive(a, b);
    assert [a, b][..2] == [a, b];
    host.Arrivals([a, b]);
  }

  method FirstActivation(custody: WebhookCustody, host: HostService, subject: Subject)
    requires host.custody == custody && host.Valid() && host.log == [] && host.served == [] && host.arrivals == 0
    requires TwoDue(custody.rows, subject, 0) && custody.rows[0].attempts == 0 && custody.rows[1].attempts == 0
    modifies custody, host
    ensures host.Valid() && host.log == [0, 1] && host.served == [false, true] && host.arrivals == 0
    ensures TwoDue(custody.rows, subject, 100)
  {
    ghost var start := host.Present();
    ghost var attempted;
    var raised, ran;
    raised, ran, attempted := host.ActivateInstance(subject, None, false, Hour(0, RouteInactive, false));
    BothAttempted(start.rows, subject, 0, attempted);
    FirstHour(start, host.Present(), subject, attempted, host.charged);
    Recorded(start, host.Present(), subject, Hour(0, RouteInactive, false), attempted);
  }

  method SecondActivation(custody: WebhookCustody, host: HostService, subject: Subject)
    requires host.custody == custody && host.Valid() && host.log == [0, 1] && host.served == [false, true]
    requires host.arrivals == 0
    requires TwoDue(custody.rows, subject, 100)
    modifies custody, host
    ensures host.Valid() && host.log == [0, 1, 0, 1] && host.served == [false, true, true, true]
    ensures WellKept(host.Present()) && Siblings(custody.rows, 0, 1)
  {
    ghost var start := host.Present();
    ghost var attempted;
    var raised, ran;
    raised, ran, attempted := host.ActivateInstance(subject, None, false, Hour(100, Applied, true));
    BothAttempted(start.rows, subject, 100, attempted);
    Recorded(start, host.Present(), subject, Hour(100, Applied, true), attempted);
  }

  /** What an activation of both rows adds to the record. */
  lemma Recorded(before: Past, after: Past, subject: Subject, script: Script, attempted: seq<nat>)
    requires Activates(before, after, subject, script, attempted) && attempted == [0, 1]
    ensures after.log == before.log + [0, 1]
    ensures after.served == before.served + [script.outcome(0) != RouteInactive, script.outcome(1) != RouteInactive]
    ensures |after.rows| >= 2 && after.rows[0].subject == Some(subject) && after.rows[1].subject == Some(subject)
  {
    assert Flags(script, attempted) == [script.outcome(0) != RouteInactive, script.outcome(1) != RouteInactive];
    assert 0 in attempted && 1 in attempted;
  }

  lemma TwoArrive(a: Arrival, b: Arrival)
    requires a.delivery != b.delivery
    ensures Received([], [a, b]) == [NewRow(a), NewRow(b)]
  {
    var none: seq<Row>, one := [], [NewRow(a)];
    assert [a][..0] == [] && [a, b][..1] == [a];
    assert !Stored(none, a.delivery);
    calc {
      Received(none, [a]);
      Received(none, [a][..0]) + [NewRow(a)];
      one;
    }
    assert one[0].delivery == a.delivery;
    assert !Stored(one, b.delivery);
  }

  /** After the failed settle both rows are pending again, one second later. */
  lemma FirstHour(before: Past, after: Past, subject: Subject, attempted: seq<nat>, charged: set<nat>)
    requires Activates(before, after, subject, Hour(0, RouteInactive, false), attempted) && attempted == [0, 1]
    requires Tally(before.rows, after.rows, charged, Hour(0, RouteInactive, false).chargedAt)
    requires TwoDue(before.rows, subject, 0) && |after.rows| == 2
    requires before.rows[0].attempts == 0 && before.rows[1].attempts == 0
    ensures TwoDue(after.rows, subject, 100)
  {
    var script := Hour(0, RouteInactive, false);
    assert 1 in attempted && script.outcome(1) == Applied;
    assert Fails(script, attempted);
    forall i: nat | i < 2 ensures after.rows[i].status == Pending && after.rows[i].nextAt <= 100 {
      assert i in attempted && Deferred(before.rows, after.rows, i);
      assert Accounted(before.rows, after.rows, charged, script.chargedAt, i);
    }
  }
}
