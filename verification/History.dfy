/** One workflow's append-only History, the records a focused delivery leaves in it, and the
    parser that turns the log back into accepted observations. */
module History {
  import opened Outcomes
  import opened Intake

  datatype Record =
    | ExternalEventDelivered(identity: string, source: string, tokens: seq<Token>, occurrence: int,
                             scope: Option<string>, instant: Option<int>)
    | FiringBegun(schema: int, transition: string, occurrence: int, scope: Option<string>, instant: Option<int>)
    | TokensProduced(schema: int, place: string, tokens: seq<Token>, occurrence: int,
                     entries: seq<string>, scope: Option<string>, instant: Option<int>)
    | FiringCompleted(schema: int, transition: string, occurrence: int, instant: Option<int>)
    | FiringFailed(schema: int, transition: string, occurrence: int, instant: Option<int>)
    | Bookkeeping(name: string)

  type Log = seq<Record>

  datatype Corruption =
    | MalformedIntakeHistory | FailedOrDuplicateTerminal | PartialTerminal | MalformedTerminal | DuplicateIdentity

  datatype Observation = Observation(bridged: BridgedDelivery, occurrence: int, finished: bool)

  /** The abstract view: accepted deliveries in acceptance order. */
  datatype Entry = Entry(bridged: BridgedDelivery, occurrence: int, instant: Option<int>, finished: bool)

  type Queue = seq<Entry>

  // ---------------------------------------------------------------- records of one delivery

  function Delivered(e: Entry): Record {
    ExternalEventDelivered(e.bridged.identity, e.bridged.source, [e.bridged.token], e.occurrence, None, e.instant)
  }

  function Begun(source: string, occurrence: int, instant: Option<int>): Record {
    FiringBegun(5, source, occurrence, None, instant)
  }

  function Produced(token: Token, occurrence: int, instant: Option<int>): Record {
    TokensProduced(5, "life.heads", [token], occurrence, [], None, instant)
  }

  function Completed(source: string, occurrence: int, instant: Option<int>): Record {
    FiringCompleted(5, source, occurrence, instant)
  }

  // ---------------------------------------------------------------- parser

  predicate IsBridgeDelivery(r: Record) {
    r.ExternalEventDelivered? && IDENTITY_PREFIX <= r.identity
  }

  function BridgedFromHistory(r: Record): Result<BridgedDelivery, BridgeError> {
    if !r.ExternalEventDelivered? || r.source != "on_head" || r.scope.Some? || !IsDeliveryIdentity(r.identity)
       || |r.tokens| != 1 || r.tokens[0].color != "HeadSeen"
    then Err(MalformedHistory)
    else Ok(BridgedDelivery("on_head", Token("HeadSeen", r.tokens[0].data), r.identity))
  }

  predicate IsTerminalOf(r: Record, source: string, occurrence: int) {
    (r.FiringCompleted? || r.FiringFailed?) && r.transition == source && r.occurrence == occurrence
  }

  predicate IsProductOf(r: Record, occurrence: int) {
    r.TokensProduced? && r.place == "life.heads" && r.occurrence == occurrence
  }

  function Terminals(trailing: Log, source: string, occurrence: int): Log {
    if trailing == [] then []
    else
      var last := trailing[|trailing| - 1];
      Terminals(trailing[..|trailing| - 1], source, occurrence)
      + if IsTerminalOf(last, source, occurrence) then [last] else []
  }

  function Products(trailing: Log, occurrence: int): Log {
    if trailing == [] then []
    else
      var last := trailing[|trailing| - 1];
      Products(trailing[..|trailing| - 1], occurrence) + if IsProductOf(last, occurrence) then [last] else []
  }

  function HistoryFinished(log: Log, position: nat, bridged: BridgedDelivery, occurrence: int)
    : Result<bool, Corruption>
    requires position + 2 <= |log| && log[position].ExternalEventDelivered?
  {
    var terminals := Terminals(log[position + 2..], bridged.source, occurrence);
    var products := Products(log[position + 2..], occurrence);
    var instant := log[position].instant;
    if |terminals| > 1 || (|terminals| == 1 && terminals[0].FiringFailed?) then Err(FailedOrDuplicateTerminal)
    else if terminals == [] then
      if products != [] then Err(PartialTerminal) else Ok(false)
    else if products != [Produced(bridged.token, occurrence, instant)]
            || terminals != [Completed(bridged.source, occurrence, instant)]
    then Err(MalformedTerminal)
    else Ok(true)
  }

  /** Exactly one record of a trail satisfies a predicate, and it is this one. */
  ghost predicate OnlyOne(trailing: Log, p: nat, chosen: Record -> bool) {
    p < |trailing| && chosen(trailing[p]) && forall q :: 0 <= q < |trailing| && q != p ==> !chosen(trailing[q])
  }

  lemma {:induction false} TerminalsAre(trailing: Log, source: string, occurrence: int)
    ensures var terminals := Terminals(trailing, source, occurrence);
            && (terminals == [] <==>
                  forall p :: 0 <= p < |trailing| ==> !IsTerminalOf(trailing[p], source, occurrence))
            && (forall p, q :: (&& 0 <= p < q < |trailing| && IsTerminalOf(trailing[p], source, occurrence)
                                && IsTerminalOf(trailing[q], source, occurrence)) ==> |terminals| > 1)
            && (|terminals| == 1 ==>
                  exists p: nat :: && OnlyOne(trailing, p, r => IsTerminalOf(r, source, occurrence))
                                   && terminals == [trailing[p]])
  {
    if trailing != [] {
      var n := |trailing| - 1;
      TerminalsAre(trailing[..n], source, occurrence);
      var before := Terminals(trailing[..n], source, occurrence);
      if IsTerminalOf(trailing[n], source, occurrence) {
        if before == [] { assert OnlyOne(trailing, n, r => IsTerminalOf(r, source, occurrence)); }
      } else if |before| == 1 {
        var p: nat :| && OnlyOne(trailing[..n], p, r => IsTerminalOf(r, source, occurrence))
                      && before == [trailing[..n][p]];
        assert OnlyOne(trailing, p, r => IsTerminalOf(r, source, occurrence));
      }
    }
  }

  lemma {:induction false} ProductsAre(trailing: Log, occurrence: int)
    ensures var products := Products(trailing, occurrence);
            && (products == [] <==> forall p :: 0 <= p < |trailing| ==> !IsProductOf(trailing[p], occurrence))
            && (|products| == 1 ==>
                  exists p: nat :: && OnlyOne(trailing, p, r => IsProductOf(r, occurrence))
                                   && products == [trailing[p]])
  {
    if trailing != [] {
      var n := |trailing| - 1;
      ProductsAre(trailing[..n], occurrence);
      var before := Products(trailing[..n], occurrence);
      if IsProductOf(trailing[n], occurrence) {
        if before == [] { assert OnlyOne(trailing, n, r => IsProductOf(r, occurrence)); }
      } else if |before| == 1 {
        var p: nat :| && OnlyOne(trailing[..n], p, r => IsProductOf(r, occurrence))
                      && before == [trailing[..n][p]];
        assert OnlyOne(trailing, p, r => IsProductOf(r, occurrence));
      }
    }
  }

  /** What the records after a delivery say of its firing. Unfinished means neither a terminal nor a
      product; finished means one terminal, a completion, and one product, its token; a failed or a
      second terminal is an error. */
  lemma FinishedMeans(log: Log, position: nat, bridged: BridgedDelivery, occurrence: int)
    requires position + 2 <= |log| && log[position].ExternalEventDelivered?
    ensures var trailing, r := log[position + 2..], HistoryFinished(log, position, bridged, occurrence);
            var terminal := (e: Record) => IsTerminalOf(e, bridged.source, occurrence);
            var product := (e: Record) => IsProductOf(e, occurrence);
            && (r == Ok(false) <==>
                  forall p :: 0 <= p < |trailing| ==> !terminal(trailing[p]) && !product(trailing[p]))
            && (r == Ok(true) ==>
                  exists p: nat, q: nat ::
                    && OnlyOne(trailing, p, terminal) && OnlyOne(trailing, q, product)
                    && trailing[p] == Completed(bridged.source, occurrence, log[position].instant)
                    && trailing[q] == Produced(bridged.token, occurrence, log[position].instant))
            && (forall p :: 0 <= p < |trailing| && terminal(trailing[p]) && trailing[p].FiringFailed? ==>
                  r == Err(FailedOrDuplicateTerminal))
            && (forall p, q :: (&& 0 <= p < q < |trailing| && terminal(trailing[p]) && terminal(trailing[q])) ==>
                  r == Err(FailedOrDuplicateTerminal))
  {
    var trailing := log[position + 2..];
    TerminalsAre(trailing, bridged.source, occurrence);
    ProductsAre(trailing, occurrence);
  }

  function HistoryObservation(log: Log, position: nat): Result<Observation, Corruption>
    requires position < |log|
  {
    match BridgedFromHistory(log[position])
    case Err(_) => Err(MalformedIntakeHistory)
    case Ok(bridged) =>
      var occurrence := log[position].occurrence;
      if occurrence <= 0 || position + 1 >= |log|
         || log[position + 1] != Begun(bridged.source, occurrence, log[position].instant)
      then Err(MalformedIntakeHistory)
      else
        match HistoryFinished(log, position, bridged, occurrence)
        case Err(e) => Err(e)
        case Ok(finished) => Ok(Observation(bridged, occurrence, finished))
  }

  /** Where the focused delivery records stand among the first `n`, in log order. */
  function PositionsTo(log: Log, n: nat): seq<nat>
    requires n <= |log|
  {
    if n == 0 then [] else PositionsTo(log, n - 1) + if IsBridgeDelivery(log[n - 1]) then [n - 1] else []
  }

  function Positions(log: Log): seq<nat> {
    PositionsTo(log, |log|)
  }

  /** What the parser reads at a position of this log. */
  function Reader(log: Log): nat -> Result<Observation, Corruption> {
    (p: nat) => if p < |log| then HistoryObservation(log, p) else Err(MalformedIntakeHistory)
  }

  /** What is read at the given positions, or the first corruption met. */
  function Collect(read: nat -> Result<Observation, Corruption>, at: seq<nat>): Result<seq<Observation>, Corruption> {
    if at == [] then Ok([])
    else
      match Collect(read, at[..|at| - 1])
      case Err(e) => Err(e)
      case Ok(earlier) =>
        match read(at[|at| - 1])
        case Err(e) => Err(e)
        case Ok(o) => Ok(earlier + [o])
  }

  predicate DistinctIdentities(observations: seq<Observation>) {
    forall i, j :: 0 <= i < j < |observations| ==>
      observations[i].bridged.identity != observations[j].bridged.identity
  }

  function ParseLog(log: Log): Result<seq<Observation>, Corruption> {
    match Collect(Reader(log), Positions(log))
    case Err(e) => Err(e)
    case Ok(observations) =>
      if DistinctIdentities(observations) then Ok(observations) else Err(DuplicateIdentity)
  }

  // ---------------------------------------------------------------- what a log represents

  function Observed(q: Queue): (r: seq<Observation>)
    ensures |r| == |q|
    ensures forall k :: 0 <= k < |q| ==> r[k] == Observation(q[k].bridged, q[k].occurrence, q[k].finished)
  {
    seq(|q|, k requires 0 <= k < |q| => Observation(q[k].bridged, q[k].occurrence, q[k].finished))
  }

  /** `at[k]` is the position of entry k's delivery record. */
  ghost predicate Placed(log: Log, q: Queue, at: seq<nat>) {
    && |at| == |q|
    && (forall k :: 0 <= k < |q| ==> at[k] + 1 < |log|)
    && (forall k :: 0 <= k < |q| ==> log[at[k]] == Delivered(q[k]))
    && (forall k :: 0 <= k < |q| ==>
          log[at[k] + 1] == Begun(q[k].bridged.source, q[k].occurrence, q[k].instant))
    && (forall j, k :: 0 <= j < k < |q| ==> at[j] < at[k])
    && Covered(log, at)
  }

  /** Every focused delivery record is some entry's. */
  ghost predicate Covered(log: Log, at: seq<nat>) {
    forall p :: 0 <= p < |log| && IsBridgeDelivery(log[p]) ==> p in at
  }

  lemma CoveredExtends(log: Log, at: seq<nat>, d: Record, b: Record)
    requires Covered(log, at) && !IsBridgeDelivery(b)
    ensures Covered(log + [d, b], at + [|log|])
  {
    var log', at' := log + [d, b], at + [|log|];
    assert at'[|at|] == |log|;
    forall p | 0 <= p < |log'| && IsBridgeDelivery(log'[p]) ensures p in at' {
      if p < |log| { assert log'[p] == log[p] && p in at; }
    }
  }

  ghost predicate Settled(log: Log, e: Entry, position: nat) {
    && position + 2 <= |log|
    && Terminals(log[position + 2..], e.bridged.source, e.occurrence)
       == (if e.finished then [Completed(e.bridged.source, e.occurrence, e.instant)] else [])
    && Products(log[position + 2..], e.occurrence)
       == (if e.finished then [Produced(e.bridged.token, e.occurrence, e.instant)] else [])
  }

  ghost predicate OrderedQueue(q: Queue) {
    && (forall k :: 0 <= k < |q| ==> WellBridged(q[k].bridged) && q[k].occurrence > 0)
    && Ascending(q)
    && (forall j, k :: 0 <= j < k < |q| ==> q[j].bridged.identity != q[k].bridged.identity)
  }

  ghost predicate Ascending(q: Queue) {
    forall j, k :: 0 <= j < k < |q| ==> q[j].occurrence < q[k].occurrence
  }

  ghost predicate AllSettled(log: Log, q: Queue, at: seq<nat>) {
    |at| == |q| && forall k :: 0 <= k < |q| ==> Settled(log, q[k], at[k])
  }

  ghost predicate Represents(log: Log, q: Queue, at: seq<nat>) {
    OrderedQueue(q) && Placed(log, q, at) && AllSettled(log, q, at)
  }

  // ---------------------------------------------------------------- appending

  lemma FiltersSkip(trailing: Log, r: Record, source: string, occurrence: int)
    ensures Terminals(trailing + [r], source, occurrence)
            == Terminals(trailing, source, occurrence) + if IsTerminalOf(r, source, occurrence) then [r] else []
    ensures Products(trailing + [r], occurrence)
            == Products(trailing, occurrence) + if IsProductOf(r, occurrence) then [r] else []
  {
    var extended := trailing + [r];
    assert extended[..|extended| - 1] == trailing;
  }

  /** A record that is neither a focused delivery nor a terminal or product of a queued
      occurrence changes nothing the parser sees. */
  lemma AppendUnrelated(log: Log, q: Queue, at: seq<nat>, r: Record)
    requires Represents(log, q, at)
    requires !IsBridgeDelivery(r)
    requires forall k :: 0 <= k < |q| ==>
               !IsTerminalOf(r, q[k].bridged.source, q[k].occurrence) && !IsProductOf(r, q[k].occurrence)
    ensures Represents(log + [r], q, at)
  {
    forall k | 0 <= k < |q| ensures Settled(log + [r], q[k], at[k]) {
      SettledBeside(log, q[k], at[k], r);
    }
  }

  lemma SettledBeside(log: Log, e: Entry, position: nat, r: Record)
    requires Settled(log, e, position)
    requires !IsTerminalOf(r, e.bridged.source, e.occurrence) && !IsProductOf(r, e.occurrence)
    ensures Settled(log + [r], e, position)
  {
    assert (log + [r])[position + 2..] == log[position + 2..] + [r];
    FiltersSkip(log[position + 2..], r, e.bridged.source, e.occurrence);
  }

  /** Both filters over an extended log, seen from one delivery record. */
  lemma SettledExtends(log: Log, position: nat, source: string, occurrence: int, r: Record, r': Record)
    requires position + 2 <= |log|
    ensures Terminals((log + [r, r'])[position + 2..], source, occurrence)
            == Terminals(log[position + 2..], source, occurrence)
               + (if IsTerminalOf(r, source, occurrence) then [r] else [])
               + (if IsTerminalOf(r', source, occurrence) then [r'] else [])
    ensures Products((log + [r, r'])[position + 2..], occurrence)
            == Products(log[position + 2..], occurrence)
               + (if IsProductOf(r, occurrence) then [r] else [])
               + (if IsProductOf(r', occurrence) then [r'] else [])
  {
    var trailing := log[position + 2..];
    assert (log + [r, r'])[position + 2..] == trailing + [r] + [r'];
    FiltersSkip(trailing, r, source, occurrence);
    FiltersSkip(trailing + [r], r', source, occurrence);
  }

  lemma PlacedExtends(log: Log, q: Queue, at: seq<nat>, e: Entry)
    requires Placed(log, q, at)
    ensures Placed(log + [Delivered(e), Begun(e.bridged.source, e.occurrence, e.instant)], q + [e], at + [|log|])
  {
    var log' := log + [Delivered(e), Begun(e.bridged.source, e.occurrence, e.instant)];
    assert forall p :: 0 <= p < |log| ==> log'[p] == log[p];
    CoveredExtends(log, at, Delivered(e), Begun(e.bridged.source, e.occurrence, e.instant));
  }

  lemma OrderedExtends(q: Queue, e: Entry)
    requires OrderedQueue(q) && WellBridged(e.bridged) && e.occurrence > 0
    requires forall k :: 0 <= k < |q| ==>
               q[k].occurrence < e.occurrence && q[k].bridged.identity != e.bridged.identity
    ensures OrderedQueue(q + [e])
  {
  }

  /** A delivery and its begun firing settle nothing. */
  lemma SettledByAcceptance(log: Log, e: Entry, position: nat, d: Record, b: Record)
    requires Settled(log, e, position) && d.ExternalEventDelivered? && b.FiringBegun?
    ensures Settled(log + [d, b], e, position)
  {
    SettledExtends(log, position, e.bridged.source, e.occurrence, d, b);
  }

  lemma AllSettledExtends(log: Log, q: Queue, at: seq<nat>, e: Entry, d: Record, b: Record)
    requires AllSettled(log, q, at) && !e.finished && d.ExternalEventDelivered? && b.FiringBegun?
    ensures AllSettled(log + [d, b], q + [e], at + [|log|])
  {
    var q', at', log' := q + [e], at + [|log|], log + [d, b];
    forall k | 0 <= k < |q'| ensures Settled(log', q'[k], at'[k]) {
      if k < |q| {
        SettledByAcceptance(log, q[k], at[k], d, b);
      } else {
        assert log'[|log| + 2..] == [];
      }
    }
  }

  lemma AppendAcceptance(log: Log, q: Queue, at: seq<nat>, e: Entry)
    requires Represents(log, q, at)
    requires WellBridged(e.bridged) && e.occurrence > 0 && !e.finished
    requires forall k :: 0 <= k < |q| ==>
               q[k].occurrence < e.occurrence && q[k].bridged.identity != e.bridged.identity
    ensures Represents(log + [Delivered(e), Begun(e.bridged.source, e.occurrence, e.instant)], q + [e], at + [|log|])
  {
    AllSettledExtends(log, q, at, e, Delivered(e), Begun(e.bridged.source, e.occurrence, e.instant));
    PlacedExtends(log, q, at, e);
    OrderedExtends(q, e);
  }

  lemma SettledByCompletion(log: Log, e: Entry, position: nat, done: Entry)
    requires Settled(log, e, position)
    requires e.occurrence == done.occurrence ==> e == done && !e.finished
    ensures Settled(log + [Produced(done.bridged.token, done.occurrence, done.instant),
                           Completed(done.bridged.source, done.occurrence, done.instant)],
                    if e == done then e.(finished := true) else e, position)
  {
    SettledExtends(log, position, e.bridged.source, e.occurrence,
                   Produced(done.bridged.token, done.occurrence, done.instant),
                   Completed(done.bridged.source, done.occurrence, done.instant));
  }

  lemma PlacedKeeps(log: Log, q: Queue, at: seq<nat>, k: nat, r: Record, r': Record)
    requires Placed(log, q, at) && k < |q|
    requires !IsBridgeDelivery(r) && !IsBridgeDelivery(r')
    ensures Placed(log + [r, r'], q[k := q[k].(finished := true)], at)
  {
    var log' := log + [r, r'];
    forall p | 0 <= p < |log'| && IsBridgeDelivery(log'[p]) ensures p in at {
      assert p < |log| && log'[p] == log[p];
    }
  }

  lemma OrderedKeeps(q: Queue, k: nat)
    requires OrderedQueue(q) && k < |q|
    ensures OrderedQueue(q[k := q[k].(finished := true)])
  {
    var q' := q[k := q[k].(finished := true)];
    assert forall j :: 0 <= j < |q| ==> q'[j].occurrence == q[j].occurrence && q'[j].bridged == q[j].bridged;
  }

  lemma AllSettledCompletes(log: Log, q: Queue, at: seq<nat>, k: nat, p: Record, c: Record)
    requires AllSettled(log, q, at) && k < |q| && !q[k].finished
    requires forall j :: 0 <= j < |q| && j != k ==> q[j].occurrence != q[k].occurrence
    requires p == Produced(q[k].bridged.token, q[k].occurrence, q[k].instant)
    requires c == Completed(q[k].bridged.source, q[k].occurrence, q[k].instant)
    ensures AllSettled(log + [p, c], q[k := q[k].(finished := true)], at)
  {
    var q' := q[k := q[k].(finished := true)];
    forall j | 0 <= j < |q'| ensures Settled(log + [p, c], q'[j], at[j]) {
      assert Settled(log, q[j], at[j]);
      SettledByCompletion(log, q[j], at[j], q[k]);
    }
  }

  lemma AppendCompletion(log: Log, q: Queue, at: seq<nat>, k: nat)
    requires Represents(log, q, at)
    requires k < |q| && !q[k].finished
    ensures Represents(
              log + [Produced(q[k].bridged.token, q[k].occurrence, q[k].instant),
                     Completed(q[k].bridged.source, q[k].occurrence, q[k].instant)],
              q[k := q[k].(finished := true)], at)
  {
    var p := Produced(q[k].bridged.token, q[k].occurrence, q[k].instant);
    var c := Completed(q[k].bridged.source, q[k].occurrence, q[k].instant);
    AllSettledCompletes(log, q, at, k, p, c);
    PlacedKeeps(log, q, at, k, p, c);
    OrderedKeeps(q, k);
  }

  // ---------------------------------------------------------------- parsing recovers the queue

  lemma BridgeReads(e: Entry)
    requires WellBridged(e.bridged)
    ensures IsBridgeDelivery(Delivered(e)) && BridgedFromHistory(Delivered(e)) == Ok(e.bridged)
  {
    var identity := e.bridged.identity;
    assert identity == identity[..|IDENTITY_PREFIX|] + identity[|IDENTITY_PREFIX|..];
  }

  lemma FinishedReads(log: Log, e: Entry, position: nat)
    requires Settled(log, e, position) && log[position] == Delivered(e)
    ensures HistoryFinished(log, position, e.bridged, e.occurrence) == Ok(e.finished)
  {
  }

  lemma ParsesAt(log: Log, e: Entry, position: nat)
    requires WellBridged(e.bridged) && e.occurrence > 0 && Settled(log, e, position)
    requires log[position] == Delivered(e)
    requires log[position + 1] == Begun(e.bridged.source, e.occurrence, e.instant)
    ensures IsBridgeDelivery(log[position])
    ensures HistoryObservation(log, position) == Ok(Observation(e.bridged, e.occurrence, e.finished))
  {
    BridgeReads(e);
    FinishedReads(log, e, position);
  }

  /** Everything the parser needs of one entry. */
  ghost predicate Stands(log: Log, e: Entry, position: nat) {
    && WellBridged(e.bridged) && e.occurrence > 0 && Settled(log, e, position)
    && log[position] == Delivered(e) && log[position + 1] == Begun(e.bridged.source, e.occurrence, e.instant)
  }

  lemma EntriesStand(log: Log, q: Queue, at: seq<nat>)
    requires Represents(log, q, at)
    ensures forall k :: 0 <= k < |q| ==> Stands(log, q[k], at[k])
  {
  }

  lemma EntriesRead(log: Log, q: Queue, at: seq<nat>)
    requires |at| == |q| && forall k :: 0 <= k < |q| ==> Stands(log, q[k], at[k])
    ensures forall k :: 0 <= k < |q| ==> at[k] < |log| && IsBridgeDelivery(log[at[k]])
    ensures forall k :: 0 <= k < |q| ==> Reader(log)(at[k]) == Ok(Observed(q)[k])
  {
    forall k | 0 <= k < |q|
      ensures at[k] < |log| && IsBridgeDelivery(log[at[k]]) && Reader(log)(at[k]) == Ok(Observed(q)[k])
    {
      ParsesAt(log, q[k], at[k]);
    }
  }

  lemma {:induction false} PositionsAreUnique(log: Log, n: nat, at: seq<nat>)
    requires n <= |log|
    requires forall k :: 0 <= k < |at| ==> at[k] < n && IsBridgeDelivery(log[at[k]])
    requires forall j, k :: 0 <= j < k < |at| ==> at[j] < at[k]
    requires forall p :: 0 <= p < n && IsBridgeDelivery(log[p]) ==> p in at
    ensures PositionsTo(log, n) == at
  {
    if n > 0 {
      if IsBridgeDelivery(log[n - 1]) {
        var m := |at| - 1;
        assert n - 1 in at;
        assert at[m] == n - 1;
        forall p | 0 <= p < n - 1 && IsBridgeDelivery(log[p]) ensures p in at[..m] {
          var k :| 0 <= k < |at| && at[k] == p;
          assert at[..m][k] == p;
        }
        PositionsAreUnique(log, n - 1, at[..m]);
        assert at == at[..m] + [n - 1];
      } else {
        PositionsAreUnique(log, n - 1, at);
      }
    }
  }

  lemma {:induction false} CollectsAll(read: nat -> Result<Observation, Corruption>, observed: seq<Observation>,
                                       at: seq<nat>)
    requires |at| == |observed|
    requires forall k :: 0 <= k < |at| ==> read(at[k]) == Ok(observed[k])
    ensures Collect(read, at) == Ok(observed)
  {
    if at != [] {
      var n := |at| - 1;
      CollectsAll(read, observed[..n], at[..n]);
      assert observed == observed[..n] + [observed[n]];
    }
  }

  lemma PositionsFound(log: Log, q: Queue, at: seq<nat>)
    requires Placed(log, q, at) && forall k :: 0 <= k < |q| ==> IsBridgeDelivery(log[at[k]])
    ensures Positions(log) == at
  {
    PositionsAreUnique(log, |log|, at);
  }

  /** The parser raises no corruption on a represented log and returns exactly its queue. */
  lemma ParseRefinesQueue(log: Log, q: Queue, at: seq<nat>)
    requires Represents(log, q, at)
    ensures ParseLog(log) == Ok(Observed(q))
  {
    EntriesStand(log, q, at);
    EntriesRead(log, q, at);
    PositionsFound(log, q, at);
    CollectsAll(Reader(log), Observed(q), at);
  }
}
