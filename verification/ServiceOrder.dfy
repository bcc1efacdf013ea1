/** The order in which deliveries of one pull request are attempted and served, over whole runs of
    activations. */
module ServiceOrder {
  import opened Outcomes
  import opened Custody

  datatype Outcome = Applied | RouteInactive | Raised

  /** Everything one activation meets from outside, as an input. A row is selected, attempted and
      charged at most once per activation, so these answers are given by row; readings of the clock
      and of custody are numbered by the attempts made before them. */
  datatype Script = Script(
    now: nat -> int, rereadFails: nat -> bool, arriving: nat -> seq<Arrival>, addressed: nat -> bool,
    outcome: nat -> Outcome, chargedAt: nat -> int,
    known: bool, routed: bool, watched: bool, opens: bool, settlesFirst: bool, settles: bool, posted: bool,
    reconcileFails: bool, reconciled: bool)

  // ---------------------------------------------------------------- attempts

  /** When attempt `p` was made, each earlier row of the same pull request had been attempted, or
      is concluded without ever being attempted. */
  ghost predicate TurnAt(rows: seq<Row>, log: seq<nat>, p: nat)
    requires p < |log|
  {
    && log[p] < |rows| && rows[log[p]].subject.Some?
    && forall i :: 0 <= i < log[p] && rows[i].subject == rows[log[p]].subject ==>
         i in log[..p] || (rows[i].status != Pending && i !in log)
  }

  ghost predicate Ordered(rows: seq<Row>, log: seq<nat>) {
    forall p: nat :: p < |log| ==> TurnAt(rows, log, p)
  }

  lemma OrderedAdvances(rows: seq<Row>, rows': seq<Row>, log: seq<nat>)
    requires Ordered(rows, log) && Advances(rows, rows')
    ensures Ordered(rows', log)
  {
    forall p: nat | p < |log| ensures TurnAt(rows', log, p) {
      assert TurnAt(rows, log, p);
    }
  }

  lemma OrderedAttempt(rows: seq<Row>, log: seq<nat>, j: nat, subject: Subject)
    requires Ordered(rows, log) && Waiting(rows, j, subject)
    requires forall i: nat :: i < j && Waiting(rows, i, subject) ==> i in log
    ensures Ordered(rows, log + [j])
  {
    var log' := log + [j];
    forall p: nat | p < |log'| ensures TurnAt(rows, log', p) {
      if p == |log| {
        assert log'[..p] == log;
        forall i | 0 <= i < j && rows[i].subject == rows[j].subject && i !in log ensures rows[i].status != Pending {
          assert !Waiting(rows, i, subject);
        }
      } else {
        assert TurnAt(rows, log, p);
        assert log'[..p] == log[..p];
      }
    }
  }

  function First(log: seq<nat>, i: nat): (p: nat)
    requires i in log
    ensures p < |log| && log[p] == i && i !in log[..p]
  {
    if log[0] == i then 0 else 1 + First(log[1..], i)
  }

  /** First attempts of one pull request happen in row order. */
  lemma FirstAttemptsInRowOrder(rows: seq<Row>, log: seq<nat>, i: nat, j: nat)
    requires Ordered(rows, log) && i in log && j in log && i < j < |rows| && rows[i].subject == rows[j].subject
    ensures First(log, i) < First(log, j)
  {
    var p := First(log, j);
    assert TurnAt(rows, log, p);
    assert i in log[..p];
    var q :| 0 <= q < p && log[q] == i;
  }

  // ---------------------------------------------------------------- services

  /** What a run leaves behind: the rows, every attempt so far, and whether it was served, that is,
      whether the route was active and the application got the row. */
  datatype Past = Past(rows: seq<Row>, log: seq<nat>, served: seq<bool>)

  ghost predicate WellKept(s: Past) {
    |s.served| == |s.log| && forall p :: 0 <= p < |s.log| ==> s.log[p] < |s.rows|
  }

  ghost predicate Served(s: Past, i: nat)
    requires |s.served| == |s.log|
  {
    exists p :: 0 <= p < |s.log| && s.log[p] == i && s.served[p]
  }

  ghost predicate ServedFirst(s: Past, i: nat, p: nat)
    requires |s.served| == |s.log|
  {
    p < |s.log| && s.log[p] == i && s.served[p] && forall q :: 0 <= q < p && s.log[q] == i ==> !s.served[q]
  }

  predicate Siblings(rows: seq<Row>, i: nat, j: nat) {
    i < j < |rows| && rows[i].subject.Some? && rows[i].subject == rows[j].subject
  }

  /** The property: first services of one pull request happen in row order. */
  ghost predicate InServiceOrder(s: Past)
    requires |s.served| == |s.log|
  {
    forall i: nat, j: nat, p: nat, q: nat ::
      Siblings(s.rows, i, j) && ServedFirst(s, i, p) && ServedFirst(s, j, q) ==> p < q
  }

  /** No row that could still be served stands before one that was. */
  ghost predicate Safe(s: Past)
    requires |s.served| == |s.log|
  {
    forall i: nat, j: nat :: Siblings(s.rows, i, j) && Served(s, j) && !Served(s, i) ==> s.rows[i].status != Pending
  }

  // ---------------------------------------------------------------- one activation

  /** Whether an activation ends in an error after its attempts: a later reading of custody fails,
      the settle of an applied row fails, or the posture cannot be recorded. */
  predicate Fails(script: Script, attempted: seq<nat>) {
    && attempted != []
    && (|| ((forall i :: i in attempted ==> script.outcome(i) != Raised) && script.rereadFails(|attempted|))
        || ((exists i :: i in attempted && script.outcome(i) == Applied) && !script.settles)
        || !script.posted)
  }

  function RowBefore(rows: seq<Row>, i: nat): nat {
    if i < |rows| then rows[i].attempts else 0
  }

  /** Whether each of these attempts was served. */
  function Flags(script: Script, items: seq<nat>): (r: seq<bool>)
    ensures |r| == |items| && forall k :: 0 <= k < |items| ==> r[k] == (script.outcome(items[k]) != RouteInactive)
  {
    seq(|items|, k requires 0 <= k < |items| => script.outcome(items[k]) != RouteInactive)
  }

  /** What one activation does to the past of its pull request. */
  ghost predicate Activates(before: Past, after: Past, subject: Subject, script: Script, attempted: seq<nat>) {
    && WellKept(before) && WellKept(after) && Advances(before.rows, after.rows)
    && Increasing(attempted) && after.log == before.log + attempted
    && after.served == before.served + Flags(script, attempted)
    && (forall i :: i in attempted ==> i < |after.rows| && after.rows[i].subject == Some(subject)
                                       && (i < |before.rows| ==> before.rows[i].status == Pending))
    && (forall i: nat, j :: j in attempted && i < j && Waiting(after.rows, i, subject) ==> i in attempted)
    && (Fails(script, attempted) ==> forall i :: i in attempted ==> Deferred(before.rows, after.rows, i))
    && (!Fails(script, attempted) ==> forall i :: i in attempted && script.outcome(i) != Raised ==>
          after.rows[i].status == Terminal)
  }

  /** Charged once: pending still, unless this was the last attempt it had. */
  predicate Deferred(rows: seq<Row>, rows': seq<Row>, i: nat) {
    && i < |rows'| && rows'[i].attempts == RowBefore(rows, i) + 1
    && rows'[i].status == if rows'[i].attempts >= MAX_DELIVERY_ATTEMPTS then Failed else Pending
  }

  /** Row `i`, never served so far, is skipped at the route guard, a later row of the same activation
      is served, the activation then fails, and the row has attempts left. Everything here is an
      input of the activation or known before it. */
  ghost predicate OvertakesRow(before: Past, script: Script, attempted: seq<nat>, i: nat)
    requires |before.served| == |before.log|
  {
    && Fails(script, attempted)
    && i in attempted && script.outcome(i) == RouteInactive && !Served(before, i)
    && RowBefore(before.rows, i) + 1 < MAX_DELIVERY_ATTEMPTS
    && exists j :: j in attempted && i < j && script.outcome(j) != RouteInactive
  }

  ghost predicate Overtakes(before: Past, script: Script, attempted: seq<nat>)
    requires |before.served| == |before.log|
  {
    exists i: nat :: OvertakesRow(before, script, attempted, i)
  }

  /** Served after more attempts: served before, or by one of them. */
  lemma ServedInEither(s: Past, more: Past, i: nat)
    requires |s.served| == |s.log| && |more.served| == |more.log|
    ensures Served(Past(s.rows, s.log + more.log, s.served + more.served), i) <==> Served(s, i) || Served(more, i)
  {
    var n, all := |s.log|, Past(s.rows, s.log + more.log, s.served + more.served);
    if p :| 0 <= p < n && s.log[p] == i && s.served[p] {
      assert all.log[p] == i && all.served[p];
    } else if p :| 0 <= p < |more.log| && more.log[p] == i && more.served[p] {
      assert all.log[n + p] == i && all.served[n + p];
    } else {
      forall p | 0 <= p < |all.log| && all.log[p] == i ensures !all.served[p] {
        if p < n { assert s.log[p] == i; } else { assert more.log[p - n] == i; }
      }
    }
  }

  lemma ServedBy(before: Past, after: Past, subject: Subject, script: Script, attempted: seq<nat>, i: nat)
    requires Activates(before, after, subject, script, attempted)
    ensures Served(after, i) <==> Served(before, i) || (i in attempted && script.outcome(i) != RouteInactive)
  {
    var more := Past([], attempted, Flags(script, attempted));
    ServedInEither(before, more, i);
    assert Served(after, i) <==> Served(Past(before.rows, before.log + more.log, before.served + more.served), i);
    if i in attempted {
      var k :| 0 <= k < |attempted| && attempted[k] == i;
      assert more.log[k] == i;
    }
  }

  /** The exact condition, for one activation from a safe past: it leaves a safe past if and only
      if it does not overtake. */
  lemma SafeIffNotOvertaken(before: Past, after: Past, subject: Subject, script: Script, attempted: seq<nat>)
    requires Activates(before, after, subject, script, attempted) && Safe(before)
    ensures Safe(after) <==> !Overtakes(before, script, attempted)
  {
    if Overtakes(before, script, attempted) {
      OvertakenIsUnsafe(before, after, subject, script, attempted);
    } else {
      forall i: nat, j: nat | Siblings(after.rows, i, j) && Served(after, j) && !Served(after, i)
        ensures after.rows[i].status != Pending
      {
        ServedBy(before, after, subject, script, attempted, i);
        if Served(before, j) {
          assert j < |before.rows| && Siblings(before.rows, i, j);
        } else if after.rows[i].status == Pending {
          PendingIsOvertaken(before, after, subject, script, attempted, i, j);
        }
      }
    }
  }

  lemma OvertakenIsUnsafe(before: Past, after: Past, subject: Subject, script: Script, attempted: seq<nat>)
    requires Activates(before, after, subject, script, attempted) && Overtakes(before, script, attempted)
    ensures !Safe(after)
  {
    var i: nat :| OvertakesRow(before, script, attempted, i);
    var j := OvertakenBy(before, after, subject, script, attempted, i);
    assert Deferred(before.rows, after.rows, i);
  }

  /** Who overtook. */
  lemma OvertakenBy(before: Past, after: Past, subject: Subject, script: Script, attempted: seq<nat>, i: nat)
    returns (j: nat)
    requires Activates(before, after, subject, script, attempted) && OvertakesRow(before, script, attempted, i)
    ensures Siblings(after.rows, i, j) && Served(after, j) && !Served(after, i)
  {
    j :| j in attempted && i < j && script.outcome(j) != RouteInactive;
    ServedBy(before, after, subject, script, attempted, i);
    ServedBy(before, after, subject, script, attempted, j);
  }

  lemma PendingIsOvertaken(before: Past, after: Past, subject: Subject, script: Script, attempted: seq<nat>, i: nat,
                           j: nat)
    requires Activates(before, after, subject, script, attempted)
    requires Siblings(after.rows, i, j) && Served(after, j) && !Served(before, j)
    requires !Served(after, i) && after.rows[i].status == Pending
    ensures OvertakesRow(before, script, attempted, i)
  {
    ServedBy(before, after, subject, script, attempted, i);
    ServedBy(before, after, subject, script, attempted, j);
    assert j in attempted && Waiting(after.rows, i, subject);
    assert i in attempted;
    assert Fails(script, attempted);
    assert Deferred(before.rows, after.rows, i);
  }

  // ---------------------------------------------------------------- whole runs

  /** Between activations rows arrive, are disposed of or concluded; nothing is attempted. */
  ghost predicate Rests(before: Past, after: Past) {
    && WellKept(before) && WellKept(after) && Advances(before.rows, after.rows)
    && after.log == before.log && after.served == before.served
  }

  /** Deliveries that only arrive are a rest. */
  lemma ArrivalsRest(before: Past, after: Past)
    requires |before.served| == |before.log| && Ordered(before.rows, before.log) && before.rows <= after.rows
    requires after.log == before.log && after.served == before.served
    ensures Rests(before, after)
  {
    forall p | 0 <= p < |before.log| ensures before.log[p] < |before.rows| {
      assert TurnAt(before.rows, before.log, p);
    }
  }

  lemma RestKeepsSafe(before: Past, after: Past)
    requires Rests(before, after) && Safe(before)
    ensures Safe(after)
  {
    forall i: nat, j: nat | Siblings(after.rows, i, j) && Served(after, j) && !Served(after, i)
      ensures after.rows[i].status != Pending
    {
      assert Served(before, j) && !Served(before, i);
      assert Siblings(before.rows, i, j);
    }
  }

  lemma RestKeepsOrder(before: Past, after: Past)
    requires Rests(before, after) && InServiceOrder(before)
    ensures InServiceOrder(after)
  {
    forall i: nat, j: nat, p: nat, q: nat
      | Siblings(after.rows, i, j) && ServedFirst(after, i, p) && ServedFirst(after, j, q)
      ensures p < q
    {
      assert ServedFirst(before, i, p) && ServedFirst(before, j, q);
      assert Siblings(before.rows, i, j);
    }
  }

  lemma FirstServiceWas(before: Past, after: Past, subject: Subject, script: Script, attempted: seq<nat>, i: nat,
                        p: nat)
    requires Activates(before, after, subject, script, attempted) && ServedFirst(after, i, p)
    ensures p < |before.log| ==> ServedFirst(before, i, p)
    ensures p >= |before.log| ==> !Served(before, i) && attempted[p - |before.log|] == i
  {
    var n := |before.log|;
    assert forall k :: 0 <= k < n ==> after.log[k] == before.log[k] && after.served[k] == before.served[k];
  }

  /** From a safe past every activation serves in row order, whatever it leaves behind. */
  lemma ActivationKeepsOrder(before: Past, after: Past, subject: Subject, script: Script, attempted: seq<nat>)
    requires Activates(before, after, subject, script, attempted) && Safe(before) && InServiceOrder(before)
    ensures InServiceOrder(after)
  {
    forall i: nat, j: nat, p: nat, q: nat
      | Siblings(after.rows, i, j) && ServedFirst(after, i, p) && ServedFirst(after, j, q)
      ensures p < q
    {
      FirstServiceWas(before, after, subject, script, attempted, i, p);
      FirstServiceWas(before, after, subject, script, attempted, j, q);
      var n := |before.log|;
      if q < n {
        assert j < |before.rows| && Siblings(before.rows, i, j) && Served(before, j);
        assert i in attempted || p < n;
      }
    }
  }

  /** One move of a run. */
  datatype Move = Rest | Activation(subject: Subject, script: Script, attempted: seq<nat>)

  ghost predicate Moves(before: Past, after: Past, m: Move) {
    match m
    case Rest => Rests(before, after)
    case Activation(subject, script, attempted) => Activates(before, after, subject, script, attempted)
  }

  /** A run: a past per moment and a move between each two. */
  ghost predicate Runs(pasts: seq<Past>, moves: seq<Move>) {
    && |pasts| == |moves| + 1
    && pasts[0].log == [] && pasts[0].served == []
    && forall k :: 0 <= k < |moves| ==> Moves(pasts[k], pasts[k + 1], moves[k])
  }

  ghost predicate OvertakesAt(pasts: seq<Past>, moves: seq<Move>, k: nat)
    requires Runs(pasts, moves) && k < |moves|
  {
    && moves[k].Activation? && Moves(pasts[k], pasts[k + 1], moves[k])
    && Overtakes(pasts[k], moves[k].script, moves[k].attempted)
  }

  lemma RunIsKept(pasts: seq<Past>, moves: seq<Move>, k: nat)
    requires Runs(pasts, moves) && k < |pasts|
    ensures |pasts[k].served| == |pasts[k].log|
  {
    if k > 0 { assert Moves(pasts[k - 1], pasts[k], moves[k - 1]); }
  }

  /** In every run without an overtaking activation, first services happen in row order at every
      moment, and every moment is safe. */
  lemma {:induction false} FirstServicesInRowOrder(pasts: seq<Past>, moves: seq<Move>, k: nat)
    requires Runs(pasts, moves) && k < |pasts|
    requires forall n: nat :: n < k ==> !OvertakesAt(pasts, moves, n)
    ensures |pasts[k].served| == |pasts[k].log| && InServiceOrder(pasts[k]) && Safe(pasts[k])
  {
    RunIsKept(pasts, moves, k);
    if k > 0 {
      FirstServicesInRowOrder(pasts, moves, k - 1);
      assert Moves(pasts[k - 1], pasts[k], moves[k - 1]) && !OvertakesAt(pasts, moves, k - 1);
      match moves[k - 1]
      case Rest =>
        RestKeepsSafe(pasts[k - 1], pasts[k]);
        RestKeepsOrder(pasts[k - 1], pasts[k]);
      case Activation(subject, script, attempted) =>
        SafeIffNotOvertaken(pasts[k - 1], pasts[k], subject, script, attempted);
        ActivationKeepsOrder(pasts[k - 1], pasts[k], subject, script, attempted);
    }
  }

  /** The other direction: the first overtaking activation of a run leaves an unsafe past, with a
      pending row that no later service can put right. */
  lemma OvertakingBreaksSafety(pasts: seq<Past>, moves: seq<Move>, k: nat)
    requires Runs(pasts, moves) && k < |moves| && OvertakesAt(pasts, moves, k)
    ensures |pasts[k + 1].served| == |pasts[k + 1].log| && !Safe(pasts[k + 1])
  {
    OvertakenIsUnsafe(pasts[k], pasts[k + 1], moves[k].subject, moves[k].script, moves[k].attempted);
  }

  /** The exact condition over whole runs: every moment is safe if and only if no activation
      overtakes. */
  lemma RunIsSafeIff(pasts: seq<Past>, moves: seq<Move>)
    requires Runs(pasts, moves)
    ensures forall k: nat :: k < |pasts| ==> |pasts[k].served| == |pasts[k].log|
    ensures (forall k: nat :: k < |pasts| ==> Safe(pasts[k]))
            <==> (forall n: nat :: n < |moves| ==> !OvertakesAt(pasts, moves, n))
  {
    forall k: nat | k < |pasts| ensures |pasts[k].served| == |pasts[k].log| {
      RunIsKept(pasts, moves, k);
    }
    if n: nat :| n < |moves| && OvertakesAt(pasts, moves, n) {
      OvertakingBreaksSafety(pasts, moves, n);
      assert !Safe(pasts[n + 1]);
    } else {
      forall k: nat | k < |pasts| ensures Safe(pasts[k]) {
        FirstServicesInRowOrder(pasts, moves, k);
      }
    }
  }

  /** If the overtaken row is ever served after all, services are out of order from then on. */
  lemma LateServiceIsOutOfOrder(before: Past, after: Past, i: nat, j: nat)
    requires WellKept(before) && WellKept(after) && Siblings(before.rows, i, j) && Served(before, j)
    requires !Served(before, i)
    requires Advances(before.rows, after.rows)
    requires before.log <= after.log && before.served <= after.served && Served(after, i)
    ensures !InServiceOrder(after)
  {
    var q := FirstService(before, j);
    var p := FirstService(after, i);
    assert forall n :: 0 <= n < |before.log| ==> after.log[n] == before.log[n] && after.served[n] == before.served[n];
    assert ServedFirst(after, j, q);
    assert p >= |before.log|;
    assert Siblings(after.rows, i, j);
  }

  lemma FirstService(s: Past, i: nat) returns (p: nat)
    requires |s.served| == |s.log| && Served(s, i)
    ensures ServedFirst(s, i, p)
  {
    p :| p < |s.log| && s.log[p] == i && s.served[p];
    while exists q: nat :: q < p && s.log[q] == i && s.served[q]
      invariant p < |s.log| && s.log[p] == i && s.served[p]
      decreases p
    {
      var q: nat :| q < p && s.log[q] == i && s.served[q];
      p := q;
    }
  }

  // ---------------------------------------------------------------- exactly when order holds

  /** The move serves the row: an activation that attempts it at an active route. */
  predicate Serves(m: Move, i: nat) {
    m.Activation? && i in m.attempted && m.script.outcome(i) != RouteInactive
  }

  ghost predicate ServedLater(moves: seq<Move>, n: nat, i: nat) {
    exists m: nat :: n < m < |moves| && Serves(moves[m], i)
  }

  ghost predicate OvertakenAt(pasts: seq<Past>, moves: seq<Move>, n: nat, i: nat)
    requires Runs(pasts, moves) && n < |moves|
  {
    && moves[n].Activation? && Moves(pasts[n], pasts[n + 1], moves[n])
    && OvertakesRow(pasts[n], moves[n].script, moves[n].attempted, i)
  }

  /** A run only adds: rows advance, the record is extended. */
  ghost predicate Extends(early: Past, late: Past) {
    && WellKept(early) && WellKept(late) && Advances(early.rows, late.rows)
    && early.log <= late.log && early.served <= late.served
  }

  lemma MoveExtends(before: Past, after: Past, m: Move)
    requires Moves(before, after, m)
    ensures Extends(before, after)
  {
  }

  lemma {:induction false} Later(pasts: seq<Past>, moves: seq<Move>, a: nat, b: nat)
    requires Runs(pasts, moves) && a < b < |pasts|
    ensures Extends(pasts[a], pasts[b])
    decreases b - a
  {
    assert Moves(pasts[b - 1], pasts[b], moves[b - 1]);
    MoveExtends(pasts[b - 1], pasts[b], moves[b - 1]);
    if a < b - 1 { Later(pasts, moves, a, b - 1); }
  }

  lemma ServedByMove(before: Past, after: Past, m: Move, i: nat)
    requires Moves(before, after, m)
    ensures |before.served| == |before.log| && |after.served| == |after.log|
    ensures Served(after, i) <==> Served(before, i) || Serves(m, i)
  {
    if m.Activation? { ServedBy(before, after, m.subject, m.script, m.attempted, i); }
  }

  /** Row `i` is first served by move `n`. */
  ghost predicate FirstServedBy(pasts: seq<Past>, moves: seq<Move>, n: nat, i: nat)
    requires Runs(pasts, moves)
  {
    && n < |moves| && Serves(moves[n], i) && Moves(pasts[n], pasts[n + 1], moves[n])
    && WellKept(pasts[n]) && WellKept(pasts[n + 1]) && !Served(pasts[n], i) && Served(pasts[n + 1], i)
  }

  lemma {:induction false} FirstMoment(pasts: seq<Past>, moves: seq<Move>, k: nat, i: nat) returns (n: nat)
    requires Runs(pasts, moves) && k < |pasts| && |pasts[k].served| == |pasts[k].log| && Served(pasts[k], i)
    ensures n < k && FirstServedBy(pasts, moves, n, i)
  {
    assert k > 0;
    assert Moves(pasts[k - 1], pasts[k], moves[k - 1]);
    ServedByMove(pasts[k - 1], pasts[k], moves[k - 1], i);
    if Served(pasts[k - 1], i) {
      n := FirstMoment(pasts, moves, k - 1, i);
    } else {
      n := k - 1;
    }
  }

  /** A service once recorded stays where it is. */
  lemma ServiceStays(early: Past, late: Past, i: nat)
    requires Extends(early, late) && Served(early, i)
    ensures Served(late, i)
  {
    var p :| 0 <= p < |early.log| && early.log[p] == i && early.served[p];
    assert late.log[p] == i && late.served[p];
  }

  /** Where the first service of a row stands: among the attempts of the move that first served it. */
  lemma Position(before: Past, after: Past, last: Past, i: nat, p: nat)
    requires Extends(before, last) && (after == last || Extends(after, last)) && WellKept(after)
    requires !Served(before, i) && Served(after, i) && ServedFirst(last, i, p)
    ensures |before.log| <= p < |after.log|
  {
    assert forall k :: 0 <= k < |before.log| ==> last.log[k] == before.log[k] && last.served[k] == before.served[k];
    var q :| 0 <= q < |after.log| && after.log[q] == i && after.served[q];
    assert last.log[q] == i && last.served[q];
  }

  lemma PositionOf(pasts: seq<Past>, moves: seq<Move>, n: nat, i: nat, p: nat)
    requires Runs(pasts, moves) && FirstServedBy(pasts, moves, n, i)
    requires |pasts[|moves|].served| == |pasts[|moves|].log| && ServedFirst(pasts[|moves|], i, p)
    ensures |pasts[n].log| <= p < |pasts[n + 1].log|
  {
    Later(pasts, moves, n, |moves|);
    if n + 1 < |moves| { Later(pasts, moves, n + 1, |moves|); }
    Position(pasts[n], pasts[n + 1], pasts[|moves|], i, p);
  }

  /** Served by different moves: the positions are as the moves. */
  lemma EarlierMoveFirst(pasts: seq<Past>, moves: seq<Move>, n: nat, k: nat, i: nat, j: nat, p: nat, q: nat)
    requires Runs(pasts, moves) && FirstServedBy(pasts, moves, n, i) && FirstServedBy(pasts, moves, k, j) && n < k
    requires |pasts[|moves|].served| == |pasts[|moves|].log|
    requires ServedFirst(pasts[|moves|], i, p) && ServedFirst(pasts[|moves|], j, q)
    ensures p < q
  {
    PositionOf(pasts, moves, n, i, p);
    PositionOf(pasts, moves, k, j, q);
    if n + 1 < k { Later(pasts, moves, n + 1, k); }
  }

  /** Served by one activation: it attempts in row order. */
  lemma SameMoveInOrder(before: Past, after: Past, last: Past, m: Move, i: nat, j: nat, p: nat, q: nat)
    requires Moves(before, after, m) && m.Activation? && i < j && after.log <= last.log
    requires |before.log| <= p < |after.log| && |before.log| <= q < |after.log|
    requires last.log[p] == i && last.log[q] == j
    ensures p < q
  {
    var n := |before.log|;
    assert after.log[p] == i && after.log[q] == j;
    assert m.attempted[p - n] == i && m.attempted[q - n] == j;
  }

  /** A row first served after a later one was overtaken by the move that served that one. */
  lemma LateIsOvertaken(pasts: seq<Past>, moves: seq<Move>, k: nat, n: nat, i: nat, j: nat)
    requires Runs(pasts, moves) && FirstServedBy(pasts, moves, k, j) && FirstServedBy(pasts, moves, n, i) && k < n
    requires i < j && i < |pasts[n].rows| && j < |pasts[n].rows| && pasts[n].rows[i].subject == pasts[n].rows[j].subject
    ensures OvertakenAt(pasts, moves, k, i) && ServedLater(moves, k, i)
  {
    var before, after, m := pasts[k], pasts[k + 1], moves[k];
    assert WasPending(pasts[n], moves[n], i) by { AttemptedWasPending(pasts[n], pasts[n + 1], moves[n], i); }
    if k + 1 < n { Later(pasts, moves, k + 1, n); }
    NotServedBefore(after, pasts[n], i);
    AttemptedIsKept(before, after, m, j);
    PendingIsOvertaken(before, after, m.subject, m.script, m.attempted, i, j);
  }

  predicate WasPending(s: Past, m: Move, i: nat) {
    m.Activation? && (i < |s.rows| ==> s.rows[i].status == Pending)
  }

  lemma AttemptedWasPending(before: Past, after: Past, m: Move, i: nat)
    requires Moves(before, after, m) && Serves(m, i)
    ensures WasPending(before, m, i)
  {
  }

  lemma AttemptedIsKept(before: Past, after: Past, m: Move, j: nat)
    requires Moves(before, after, m) && Serves(m, j)
    ensures j < |after.rows| && after.rows[j].subject == Some(m.subject)
  {
  }

  lemma NotServedBefore(early: Past, late: Past, i: nat)
    requires WellKept(early) && WellKept(late) && (early == late || Extends(early, late)) && !Served(late, i)
    ensures !Served(early, i)
  {
    if Served(early, i) && early != late { ServiceStays(early, late, i); }
  }

  /** Two rows of one pull request out of order: the earlier one was overtaken, and served later. */
  lemma OutOfOrderIsOvertaken(pasts: seq<Past>, moves: seq<Move>, i: nat, j: nat, p: nat, q: nat) returns (k: nat)
    requires Runs(pasts, moves) && |pasts[|moves|].served| == |pasts[|moves|].log|
    requires Siblings(pasts[|moves|].rows, i, j) && q <= p
    requires ServedFirst(pasts[|moves|], i, p) && ServedFirst(pasts[|moves|], j, q)
    ensures k < |moves| && OvertakenAt(pasts, moves, k, i) && ServedLater(moves, k, i)
  {
    var n := FirstMoment(pasts, moves, |moves|, i);
    k := FirstMoment(pasts, moves, |moves|, j);
    assert k < n by { NotBefore(pasts, moves, n, k, i, j, p, q); }
    Later(pasts, moves, n, |moves|);
    ServedRowKept(pasts, moves, k, n, j);
    LateIsOvertaken(pasts, moves, k, n, i, j);
  }

  lemma ServedRowKept(pasts: seq<Past>, moves: seq<Move>, k: nat, n: nat, j: nat)
    requires Runs(pasts, moves) && FirstServedBy(pasts, moves, k, j) && k < n < |pasts|
    ensures j < |pasts[n].rows|
  {
    AttemptedIsKept(pasts[k], pasts[k + 1], moves[k], j);
    if k + 1 < n { Later(pasts, moves, k + 1, n); }
  }

  lemma NotBefore(pasts: seq<Past>, moves: seq<Move>, n: nat, k: nat, i: nat, j: nat, p: nat, q: nat)
    requires Runs(pasts, moves) && FirstServedBy(pasts, moves, n, i) && FirstServedBy(pasts, moves, k, j)
    requires |pasts[|moves|].served| == |pasts[|moves|].log| && i < j && q <= p
    requires ServedFirst(pasts[|moves|], i, p) && ServedFirst(pasts[|moves|], j, q)
    ensures k < n
  {
    if n < k {
      EarlierMoveFirst(pasts, moves, n, k, i, j, p, q);
    } else if n == k {
      PositionOf(pasts, moves, n, i, p);
      PositionOf(pasts, moves, n, j, q);
      if n + 1 < |moves| { Later(pasts, moves, n + 1, |moves|); }
      SameMoveInOrder(pasts[n], pasts[n + 1], pasts[|moves|], moves[n], i, j, p, q);
    }
  }

  lemma ServedAtEnd(pasts: seq<Past>, moves: seq<Move>, m: nat, i: nat)
    requires Runs(pasts, moves) && m < |moves| && Serves(moves[m], i)
    ensures WellKept(pasts[|moves|]) && Served(pasts[|moves|], i)
  {
    assert Moves(pasts[m], pasts[m + 1], moves[m]);
    ServedByMove(pasts[m], pasts[m + 1], moves[m], i);
    if m + 1 < |moves| {
      Later(pasts, moves, m + 1, |moves|);
      ServiceStays(pasts[m + 1], pasts[|moves|], i);
    }
  }

  /** And conversely. */
  lemma OvertakenThenServed(pasts: seq<Past>, moves: seq<Move>, n: nat, m: nat, i: nat)
    requires Runs(pasts, moves) && n < m < |moves| && OvertakenAt(pasts, moves, n, i) && Serves(moves[m], i)
    ensures |pasts[|moves|].served| == |pasts[|moves|].log| && !InServiceOrder(pasts[|moves|])
  {
    var before, after, a := pasts[n], pasts[n + 1], moves[n];
    var j := OvertakenBy(before, after, a.subject, a.script, a.attempted, i);
    Later(pasts, moves, n + 1, |moves|);
    ServedAtEnd(pasts, moves, m, i);
    LateServiceIsOutOfOrder(after, pasts[|moves|], i, j);
  }

  /** Exactly when the code serves in row order, for every run: if and only if no row that an
      activation overtook is served by a later one. */
  lemma InServiceOrderIff(pasts: seq<Past>, moves: seq<Move>)
    requires Runs(pasts, moves)
    ensures |pasts[|moves|].served| == |pasts[|moves|].log|
    ensures InServiceOrder(pasts[|moves|])
            <==> forall n: nat, i: nat :: n < |moves| && OvertakenAt(pasts, moves, n, i) ==> !ServedLater(moves, n, i)
  {
    RunIsKept(pasts, moves, |moves|);
    var last := pasts[|moves|];
    if n: nat, i: nat :| n < |moves| && OvertakenAt(pasts, moves, n, i) && ServedLater(moves, n, i) {
      var m: nat :| n < m < |moves| && Serves(moves[m], i);
      OvertakenThenServed(pasts, moves, n, m, i);
    } else {
      forall i: nat, j: nat, p: nat, q: nat
        | Siblings(last.rows, i, j) && ServedFirst(last, i, p) && ServedFirst(last, j, q)
        ensures p < q
      {
        if q <= p { var k := OutOfOrderIsOvertaken(pasts, moves, i, j, p, q); }
      }
    }
  }
}
