/** Webhook custody: durable rows in arrival order, each pending, terminal or failed. */
module Custody {
  import opened Outcomes

  const MAX_DELIVERY_ATTEMPTS := 20
  const MAX_RETRY_DELAY_SECONDS := 300

  datatype Subject = Subject(installation: int, repository: int, pullRequest: int)

  datatype Status = Pending | Terminal | Failed

  /** A delivery; its row number is its place in the order. */
  datatype Row = Row(delivery: string, subject: Option<Subject>, status: Status, attempts: nat, nextAt: int)

  datatype Arrival = Arrival(delivery: string, subject: Option<Subject>, lifecycle: bool)

  predicate Stored(rows: seq<Row>, delivery: string) {
    exists i :: 0 <= i < |rows| && rows[i].delivery == delivery
  }

  function NewRow(a: Arrival): Row {
    Row(a.delivery, a.subject, if a.lifecycle then Terminal else Pending, 0, 0)
  }

  function Power2(n: nat): nat {
    if n == 0 then 1 else 2 * Power2(n - 1)
  }

  function Delay(attempts: nat): nat
    requires attempts > 0
  {
    if Power2(attempts - 1) < MAX_RETRY_DELAY_SECONDS then Power2(attempts - 1) else MAX_RETRY_DELAY_SECONDS
  }

  /** One failed attempt: deferred, or failed for good at the last one. */
  function Charge(row: Row, now: int): Row {
    var attempts := row.attempts + 1;
    if attempts >= MAX_DELIVERY_ATTEMPTS then row.(status := Failed, attempts := attempts)
    else row.(attempts := attempts, nextAt := now + Delay(attempts))
  }

  /** The delay starts at one second and doubles with each failed attempt, up to the maximum. */
  lemma DelayDoubles(attempts: nat)
    requires attempts > 0
    ensures Delay(1) == 1 && 1 <= Delay(attempts) <= MAX_RETRY_DELAY_SECONDS
    ensures Delay(attempts + 1) == if 2 * Delay(attempts) < MAX_RETRY_DELAY_SECONDS then 2 * Delay(attempts)
                                   else MAX_RETRY_DELAY_SECONDS
  {
    assert Power2(attempts) == 2 * Power2(attempts - 1) && Power2(0) == 1;
    PowerIsPositive(attempts - 1);
  }

  lemma PowerIsPositive(n: nat)
    ensures Power2(n) >= 1
  {
  }

  /** A charged row has one more attempt; it is deferred by one to 300 seconds, or failed at the
      twentieth attempt. */
  lemma ChargeDefers(row: Row, now: int)
    ensures var charged := Charge(row, now);
            && charged.delivery == row.delivery && charged.subject == row.subject
            && charged.attempts == row.attempts + 1
            && if charged.attempts >= 20 then charged.status == Failed && charged.nextAt == row.nextAt
               else charged.status == row.status && now + 1 <= charged.nextAt <= now + 300
                    && charged.nextAt == now + Delay(charged.attempts)
  {
    DelayDoubles(row.attempts + 1);
  }

  predicate Waiting(rows: seq<Row>, i: nat, subject: Subject) {
    i < |rows| && rows[i].status == Pending && rows[i].subject == Some(subject)
  }

  function Clamp(limit: int): (n: nat)
    ensures 1 <= n <= 1000 && (1 <= limit <= 1000 ==> n == limit)
  {
    if limit < 1 then 1 else if limit > 1000 then 1000 else limit
  }

  predicate Increasing(s: seq<nat>) {
    forall a, b :: 0 <= a < b < |s| ==> s[a] < s[b]
  }

  /** No waiting row of the subject is passed over: whatever precedes a member is a member. */
  ghost predicate Prefix(rows: seq<Row>, subject: Subject, found: seq<nat>) {
    && Increasing(found)
    && (forall i :: i in found ==> Waiting(rows, i, subject))
    && (forall i: nat, j :: j in found && i < j && Waiting(rows, i, subject) ==> i in found)
  }

  /** Every waiting row left out stands at or behind a deferred one. */
  ghost predicate Fenced(rows: seq<Row>, subject: Subject, due: seq<nat>, now: int) {
    forall i: nat :: Waiting(rows, i, subject) && i !in due ==>
      exists k: nat :: k <= i && k !in due && Waiting(rows, k, subject) && rows[k].nextAt > now
  }

  lemma PrefixCut(rows: seq<Row>, subject: Subject, found: seq<nat>, n: nat)
    requires Prefix(rows, subject, found) && n <= |found|
    ensures Prefix(rows, subject, found[..n])
  {
    forall i: nat, j | j in found[..n] && i < j && Waiting(rows, i, subject) ensures i in found[..n] {
      var b :| 0 <= b < n && found[b] == j;
      assert j in found;
      var a :| 0 <= a < |found| && found[a] == i;
      assert a < b;
      assert found[..n][a] == i;
    }
  }

  /** A deferred row fences every later row of its pull request. */
  lemma DeferredFences(rows: seq<Row>, subject: Subject, found: seq<nat>, n: nat, now: int)
    requires Prefix(rows, subject, found) && n < |found|
    requires found[n] < |rows| && rows[found[n]].nextAt > now
    ensures Fenced(rows, subject, found[..n], now)
  {
    assert found[n] in found && found[n] !in found[..n];
    forall i: nat | Waiting(rows, i, subject) && i !in found[..n] ensures found[n] <= i {
      if i < found[n] {
        var a :| 0 <= a < |found| && found[a] == i;
      }
    }
  }

  /** What custody may do to rows without a requeue: add some, charge or conclude pending ones. */
  ghost predicate Advances(before: seq<Row>, after: seq<Row>) {
    && |before| <= |after|
    && forall i :: 0 <= i < |before| ==>
         && after[i].subject == before[i].subject
         && (before[i].status != Pending ==> after[i] == before[i])
  }

  class WebhookCustody {
    var rows: seq<Row>

    constructor ()
      ensures rows == []
    {
      rows := [];
    }

    /** A delivery identifier is stored once; a redelivery changes nothing. */
    method Receive(a: Arrival) returns (duplicate: bool)
      modifies this
      ensures duplicate <==> Stored(old(rows), a.delivery)
      ensures rows == if duplicate then old(rows) else old(rows) + [NewRow(a)]
      ensures !duplicate ==>
                rows[|old(rows)|] == Row(a.delivery, a.subject, if a.lifecycle then Terminal else Pending, 0, 0)
      ensures Advances(old(rows), rows)
    {
      duplicate := exists i :: 0 <= i < |rows| && rows[i].delivery == a.delivery;
      if !duplicate { rows := rows + [NewRow(a)]; }
    }

    /** The first waiting rows of a subject, up to the limit. */
    method Query(limit: nat, subject: Subject) returns (found: seq<nat>)
      requires limit > 0
      ensures Prefix(rows, subject, found) && |found| <= limit
      ensures |found| < limit ==> forall i: nat :: Waiting(rows, i, subject) ==> i in found
    {
      found := [];
      var n := 0;
      while n < |rows| && |found| < limit
        invariant 0 <= n <= |rows| && |found| <= limit && Increasing(found)
        invariant forall i :: i in found ==> i < n && Waiting(rows, i, subject)
        invariant forall a :: 0 <= a < |found| ==> found[a] < n
        invariant forall i: nat :: i < n && Waiting(rows, i, subject) ==> i in found
      {
        if rows[n].status == Pending && rows[n].subject == Some(subject) { found := found + [n]; }
        n := n + 1;
      }
    }

    /** The due rows of one pull request, cut at the first deferred one. */
    method PendingOf(limit: int, subject: Subject, now: int) returns (due: seq<nat>)
      ensures Prefix(rows, subject, due) && |due| <= Clamp(limit)
      ensures forall i :: i in due ==> rows[i].nextAt <= now
      ensures |due| < Clamp(limit) ==> Fenced(rows, subject, due, now)
    {
      var found := Query(Clamp(limit), subject);
      assert forall n :: 0 <= n < |found| ==> Waiting(rows, found[n], subject);
      due := [];
      var n := 0;
      while n < |found| && rows[found[n]].nextAt <= now
        invariant 0 <= n <= |found| && due == found[..n]
        invariant forall a :: 0 <= a < n ==> rows[found[a]].nextAt <= now
      {
        due := due + [found[n]];
        n := n + 1;
      }
      PrefixCut(rows, subject, found, n);
      if n < |found| {
        DeferredFences(rows, subject, found, n, now);
      } else {
        assert due == found;
      }
    }

    /** Whether a delivery is the due head of its pull request's order. */
    method Eligible(delivery: nat, subject: Subject, now: int) returns (r: bool)
      requires delivery < |rows|
      ensures r <==> Waiting(rows, delivery, subject) && rows[delivery].nextAt <= now
                     && forall i: nat :: i < delivery ==> !Waiting(rows, i, subject)
    {
      if rows[delivery].status != Pending { return false; }
      var first := Query(1, subject);
      r := first != [] && first[0] == delivery && rows[first[0]].nextAt <= now;
      if first != [] {
        assert first[0] in first;
        assert forall i :: i in first ==> i == first[0];
      }
    }

    method Acknowledge(delivery: nat)
      requires delivery < |rows|
      modifies this
      ensures rows == old(rows)[delivery := old(rows[delivery]).(status := Terminal)]
    {
      rows := rows[delivery := rows[delivery].(status := Terminal)];
    }

    method Retry(delivery: nat, now: int)
      requires delivery < |rows|
      modifies this
      ensures rows == if old(rows[delivery]).status == Pending
                      then old(rows)[delivery := Charge(old(rows[delivery]), now)] else old(rows)
      ensures Advances(old(rows), rows)
    {
      if rows[delivery].status == Pending {
        rows := rows[delivery := Charge(rows[delivery], now)];
      }
    }

    method Requeue(delivery: nat) returns (r: bool)
      requires delivery < |rows|
      modifies this
      ensures r == (old(rows[delivery]).status == Failed)
      ensures rows == if r
                      then old(rows)[delivery := old(rows[delivery]).(status := Pending, attempts := 0, nextAt := 0)]
                      else old(rows)
    {
      r := rows[delivery].status == Failed;
      if r { rows := rows[delivery := rows[delivery].(status := Pending, attempts := 0, nextAt := 0)]; }
    }
  }
}
