/** The readiness runtime over one workflow's History, and the queue machine it refines. */
module Runtime {
  import opened Outcomes
  import opened Intake
  import opened History

  const MAX_RECORDS: nat := 4_096
  const MAX_BYTES: nat := 134_217_728
  const HEADROOM: nat := 1_048_576

  datatype RuntimeError =
    | HistoryCapacity | HistoryCorruption(why: Corruption) | NotAccepted | WorkflowMismatch | Unbridgeable
    | AcceptanceMismatch

  datatype Acceptance = Acceptance(occurrence: int, finished: bool)

  datatype Disposition = CompletedNow | AlreadyCompleted

  datatype Completion = Completion(identity: string, occurrence: int, disposition: Disposition)

  // ---------------------------------------------------------------- the engine, as far as it is relied on

  datatype Acknowledgement = AcceptedDelivery(occurrence: int) | PriorAcknowledgement(occurrence: int)

  function OccurrenceOf(r: Record): int {
    if r.Bookkeeping? then 0 else r.occurrence
  }

  /** The engine numbers firings upwards. */
  predicate Fresh(log: Log, occurrence: int) {
    occurrence > 0 && forall p :: 0 <= p < |log| ==> OccurrenceOf(log[p]) < occurrence
  }

  function DeliveryAt(log: Log, identity: string): (r: Option<nat>)
    ensures r.Some? ==>
              r.value < |log| && log[r.value].ExternalEventDelivered? && log[r.value].identity == identity
    ensures r.None? ==>
              forall p :: 0 <= p < |log| && log[p].ExternalEventDelivered? ==> log[p].identity != identity
  {
    if log == [] then None
    else
      var n := |log| - 1;
      if log[n].ExternalEventDelivered? && log[n].identity == identity then Some(n)
      else DeliveryAt(log[..n], identity)
  }

  predicate InFlight(log: Log, position: nat)
    requires position < |log| && log[position].ExternalEventDelivered?
  {
    position + 2 > |log| || Terminals(log[position + 2..], log[position].source, log[position].occurrence) == []
  }

  /** A new identity appends its delivery and its firing; a known one appends nothing. */
  function EngineAccept(log: Log, b: BridgedDelivery, next: int, instant: Option<int>): (Log, Acknowledgement) {
    match DeliveryAt(log, b.identity)
    case None =>
      (log + [Delivered(Entry(b, next, instant, false)), Begun(b.source, next, instant)], AcceptedDelivery(next))
    case Some(p) =>
      (log, if InFlight(log, p) then AcceptedDelivery(log[p].occurrence) else PriorAcknowledgement(log[p].occurrence))
  }

  function EngineComplete(log: Log, identity: string): Log {
    match DeliveryAt(log, identity)
    case None => log
    case Some(p) =>
      if log[p].tokens == [] then log
      else log + [Produced(log[p].tokens[0], log[p].occurrence, log[p].instant),
                  Completed(log[p].source, log[p].occurrence, log[p].instant)]
  }

  // ---------------------------------------------------------------- the runtime's decisions

  predicate PageFits(log: Log, reserved: nat) {
    |log| + reserved <= MAX_RECORDS
  }

  predicate BytesFit(used: nat, reserved: nat) {
    used + reserved <= MAX_BYTES
  }

  function LeastUnfinished(observations: seq<Observation>): (r: Option<Observation>)
    ensures r.Some? ==> r.value in observations && !r.value.finished
    ensures r.Some? ==> forall o :: o in observations && !o.finished ==> r.value.occurrence <= o.occurrence
    ensures r.None? ==> forall o :: o in observations ==> o.finished
  {
    if observations == [] then None
    else
      var n := |observations| - 1;
      var last := observations[n];
      assert forall o :: o in observations <==> o in observations[..n] || o == last;
      var earlier := LeastUnfinished(observations[..n]);
      if last.finished then earlier
      else if earlier.Some? && earlier.value.occurrence <= last.occurrence then earlier
      else Some(last)
  }

  function Latest(observations: seq<Observation>): (r: Observation)
    requires observations != []
    ensures r in observations
    ensures forall o :: o in observations ==> o.occurrence <= r.occurrence
  {
    var n := |observations| - 1;
    assert forall o :: o in observations <==> o in observations[..n] || o == observations[n];
    if n == 0 then observations[0]
    else
      var earlier := Latest(observations[..n]);
      if observations[n].occurrence > earlier.occurrence then observations[n] else earlier
  }

  function SelectObservation(observations: seq<Observation>): Result<Observation, RuntimeError> {
    if LeastUnfinished(observations).Some? then Ok(LeastUnfinished(observations).value)
    else if observations != [] then Ok(Latest(observations))
    else Err(NotAccepted)
  }

  predicate Knows(observations: seq<Observation>, identity: string) {
    exists k :: 0 <= k < |observations| && observations[k].bridged.identity == identity
  }

  function AcceptDelivery(log: Log, b: BridgedDelivery, used: nat, next: int, instant: Option<int>)
    : (Log, Result<Acceptance, RuntimeError>)
  {
    if !BytesFit(used, 0) || !PageFits(log, 0) then (log, Err(HistoryCapacity))
    else
      match ParseLog(log)
      case Err(why) => (log, Err(HistoryCorruption(why)))
      case Ok(observations) => AcceptAfter(log, observations, b, used, next, instant)
  }

  function AcceptAfter(log: Log, observations: seq<Observation>, b: BridgedDelivery, used: nat, next: int,
                       instant: Option<int>)
    : (Log, Result<Acceptance, RuntimeError>)
  {
    var prior := Knows(observations, b.identity);
    if !PageFits(log, if prior then 0 else 2) || !BytesFit(used, if prior then 0 else HEADROOM)
    then (log, Err(HistoryCapacity))
    else
      var (log', ack) := EngineAccept(log, b, next, instant);
      (log', Ok(Acceptance(ack.occurrence, ack.PriorAcknowledgement?)))
  }

  function CompleteNext(log: Log, used: nat): (Log, Result<Completion, RuntimeError>) {
    if !BytesFit(used, 0) || !PageFits(log, 0) then (log, Err(HistoryCapacity))
    else
      match ParseLog(log)
      case Err(why) => (log, Err(HistoryCorruption(why)))
      case Ok(observations) =>
        match SelectObservation(observations)
        case Err(e) => (log, Err(e))
        case Ok(selected) => CompleteSelected(log, selected, used)
  }

  function CompleteSelected(log: Log, selected: Observation, used: nat): (Log, Result<Completion, RuntimeError>) {
    var identity := selected.bridged.identity;
    var (log', ack) := EngineAccept(log, selected.bridged, 0, None);
    if ack.occurrence != selected.occurrence || ack.PriorAcknowledgement? != selected.finished
    then (log', Err(AcceptanceMismatch))
    else if ack.PriorAcknowledgement? then (log', Ok(Completion(identity, selected.occurrence, AlreadyCompleted)))
    else if !PageFits(log', 2) || !BytesFit(used, HEADROOM) then (log', Err(HistoryCapacity))
    else (EngineComplete(log', identity), Ok(Completion(identity, selected.occurrence, CompletedNow)))
  }

  // ---------------------------------------------------------------- the queue machine

  /** What a client of the runtime may believe in: a queue and a record count. */
  datatype Model = Model(queue: Queue, size: nat)

  function IndexOf(q: Queue, identity: string): (r: Option<nat>)
    ensures r.Some? ==> r.value < |q| && q[r.value].bridged.identity == identity
    ensures r.None? ==> forall k :: 0 <= k < |q| ==> q[k].bridged.identity != identity
  {
    if q == [] then None
    else if q[|q| - 1].bridged.identity == identity then Some(|q| - 1)
    else IndexOf(q[..|q| - 1], identity)
  }

  function FirstUnfinished(q: Queue, from: nat): (k: nat)
    requires from <= |q|
    ensures from <= k <= |q|
    ensures forall j :: from <= j < k ==> q[j].finished
    ensures k < |q| ==> !q[k].finished
    decreases |q| - from
  {
    if from == |q| || !q[from].finished then from else FirstUnfinished(q, from + 1)
  }

  function ModelAccept(m: Model, b: BridgedDelivery, used: nat, next: int, instant: Option<int>)
    : (Model, Result<Acceptance, RuntimeError>)
  {
    if used > MAX_BYTES || m.size > MAX_RECORDS then (m, Err(HistoryCapacity))
    else
      match IndexOf(m.queue, b.identity)
      case Some(k) => (m, Ok(Acceptance(m.queue[k].occurrence, m.queue[k].finished)))
      case None =>
        if m.size + 2 > MAX_RECORDS || used + HEADROOM > MAX_BYTES then (m, Err(HistoryCapacity))
        else (Model(m.queue + [Entry(b, next, instant, false)], m.size + 2), Ok(Acceptance(next, false)))
  }

  function ModelComplete(m: Model, used: nat): (Model, Result<Completion, RuntimeError>) {
    if used > MAX_BYTES || m.size > MAX_RECORDS then (m, Err(HistoryCapacity))
    else if m.queue == [] then (m, Err(NotAccepted))
    else
      var k := FirstUnfinished(m.queue, 0);
      if k == |m.queue| then
        var last := m.queue[k - 1];
        (m, Ok(Completion(last.bridged.identity, last.occurrence, AlreadyCompleted)))
      else if m.size + 2 > MAX_RECORDS || used + HEADROOM > MAX_BYTES then (m, Err(HistoryCapacity))
      else (Model(m.queue[k := m.queue[k].(finished := true)], m.size + 2),
            Ok(Completion(m.queue[k].bridged.identity, m.queue[k].occurrence, CompletedNow)))
  }

  ghost predicate Refines(log: Log, m: Model, at: seq<nat>) {
    Represents(log, m.queue, at) && m.size == |log|
  }

  // ---------------------------------------------------------------- simulation

  lemma FocusedIdentity(b: BridgedDelivery)
    requires WellBridged(b)
    ensures IDENTITY_PREFIX <= b.identity
  {
    assert b.identity == b.identity[..|IDENTITY_PREFIX|] + b.identity[|IDENTITY_PREFIX|..];
  }

  /** A record found under a focused identity is some entry's delivery record. */
  lemma FoundIsPlaced(log: Log, q: Queue, at: seq<nat>, identity: string) returns (j: nat)
    requires Placed(log, q, at) && IDENTITY_PREFIX <= identity && DeliveryAt(log, identity).Some?
    ensures j < |q| && at[j] == DeliveryAt(log, identity).value && q[j].bridged.identity == identity
  {
    var p := DeliveryAt(log, identity).value;
    assert IsBridgeDelivery(log[p]);
    assert p in at;
    j :| 0 <= j < |at| && at[j] == p;
    assert log[at[j]] == Delivered(q[j]);
  }

  lemma DistinctEntries(q: Queue, j: nat, k: nat)
    requires OrderedQueue(q) && j < |q| && k < |q| && q[j].bridged.identity == q[k].bridged.identity
    ensures j == k
  {
  }

  lemma InFlightReads(log: Log, e: Entry, position: nat)
    requires Settled(log, e, position) && log[position] == Delivered(e)
    ensures InFlight(log, position) == !e.finished
  {
  }

  lemma EntryAt(log: Log, q: Queue, at: seq<nat>, k: nat)
    requires Represents(log, q, at) && k < |q|
    ensures Settled(log, q[k], at[k]) && log[at[k]] == Delivered(q[k]) && WellBridged(q[k].bridged)
  {
  }

  lemma KnownPosition(log: Log, q: Queue, at: seq<nat>, k: nat)
    requires Represents(log, q, at) && k < |q|
    ensures at[k] < |log| && log[at[k]] == Delivered(q[k])
    ensures DeliveryAt(log, q[k].bridged.identity) == Some(at[k])
    ensures InFlight(log, at[k]) == !q[k].finished
  {
    EntryAt(log, q, at, k);
    FocusedIdentity(q[k].bridged);
    var j := FoundIsPlaced(log, q, at, q[k].bridged.identity);
    DistinctEntries(q, j, k);
    InFlightReads(log, q[k], at[k]);
  }

  lemma UnknownPosition(log: Log, q: Queue, at: seq<nat>, b: BridgedDelivery)
    requires Placed(log, q, at) && WellBridged(b)
    requires forall k :: 0 <= k < |q| ==> q[k].bridged.identity != b.identity
    ensures DeliveryAt(log, b.identity).None?
  {
    FocusedIdentity(b);
    if DeliveryAt(log, b.identity).Some? {
      var j := FoundIsPlaced(log, q, at, b.identity);
    }
  }

  lemma FreshExceedsQueue(log: Log, q: Queue, at: seq<nat>, next: int)
    requires Represents(log, q, at) && Fresh(log, next)
    ensures forall k :: 0 <= k < |q| ==> q[k].occurrence < next
  {
    forall k | 0 <= k < |q| ensures q[k].occurrence < next {
      assert log[at[k]] == Delivered(q[k]);
      assert OccurrenceOf(log[at[k]]) < next;
    }
  }

  lemma AcceptKnown(log: Log, q: Queue, at: seq<nat>, k: nat, b: BridgedDelivery, used: nat, next: int,
                    instant: Option<int>)
    requires Represents(log, q, at) && k < |q| && q[k].bridged.identity == b.identity
    requires PageFits(log, 0) && BytesFit(used, 0)
    ensures AcceptAfter(log, Observed(q), b, used, next, instant)
            == (log, Ok(Acceptance(q[k].occurrence, q[k].finished)))
  {
    assert Observed(q)[k].bridged.identity == b.identity;
    KnownPosition(log, q, at, k);
  }

  lemma AcceptUnknown(log: Log, q: Queue, at: seq<nat>, b: BridgedDelivery, used: nat, next: int,
                      instant: Option<int>)
    requires Placed(log, q, at) && WellBridged(b)
    requires forall k :: 0 <= k < |q| ==> q[k].bridged.identity != b.identity
    ensures AcceptAfter(log, Observed(q), b, used, next, instant)
            == if PageFits(log, 2) && BytesFit(used, HEADROOM)
               then (log + [Delivered(Entry(b, next, instant, false)), Begun(b.source, next, instant)],
                     Ok(Acceptance(next, false)))
               else (log, Err(HistoryCapacity))
  {
    UnknownPosition(log, q, at, b);
  }

  /** Accepting against the log and accepting against the queue agree on reply and new state. */
  lemma AcceptSimulates(log: Log, m: Model, at: seq<nat>, b: BridgedDelivery, used: nat, next: int,
                        instant: Option<int>)
    returns (at': seq<nat>)
    requires Refines(log, m, at) && WellBridged(b) && Fresh(log, next)
    ensures AcceptDelivery(log, b, used, next, instant).1 == ModelAccept(m, b, used, next, instant).1
    ensures Refines(AcceptDelivery(log, b, used, next, instant).0, ModelAccept(m, b, used, next, instant).0, at')
  {
    at' := at;
    if used <= MAX_BYTES && m.size <= MAX_RECORDS {
      ParseRefinesQueue(log, m.queue, at);
      match IndexOf(m.queue, b.identity)
      case Some(k) => AcceptKnown(log, m.queue, at, k, b, used, next, instant);
      case None => at' := AcceptNewSimulates(log, m, at, b, used, next, instant);
    }
  }

  lemma AcceptNewSimulates(log: Log, m: Model, at: seq<nat>, b: BridgedDelivery, used: nat, next: int,
                           instant: Option<int>)
    returns (at': seq<nat>)
    requires Refines(log, m, at) && WellBridged(b) && Fresh(log, next) && IndexOf(m.queue, b.identity).None?
    requires used <= MAX_BYTES && m.size <= MAX_RECORDS && ParseLog(log) == Ok(Observed(m.queue))
    ensures AcceptDelivery(log, b, used, next, instant).1 == ModelAccept(m, b, used, next, instant).1
    ensures Refines(AcceptDelivery(log, b, used, next, instant).0, ModelAccept(m, b, used, next, instant).0, at')
  {
    at' := at;
    AcceptNewIs(log, m.queue, at, b, used, next, instant);
    if PageFits(log, 2) && BytesFit(used, HEADROOM) {
      FreshExceedsQueue(log, m.queue, at, next);
      AppendAcceptance(log, m.queue, at, Entry(b, next, instant, false));
      at' := at + [|log|];
    }
  }

  lemma AcceptNewIs(log: Log, q: Queue, at: seq<nat>, b: BridgedDelivery, used: nat, next: int, instant: Option<int>)
    requires Placed(log, q, at) && WellBridged(b) && IndexOf(q, b.identity).None?
    requires BytesFit(used, 0) && PageFits(log, 0) && ParseLog(log) == Ok(Observed(q))
    ensures AcceptDelivery(log, b, used, next, instant)
            == if PageFits(log, 2) && BytesFit(used, HEADROOM)
               then (log + [Delivered(Entry(b, next, instant, false)), Begun(b.source, next, instant)],
                     Ok(Acceptance(next, false)))
               else (log, Err(HistoryCapacity))
  {
    AcceptUnknown(log, q, at, b, used, next, instant);
  }

  lemma LeastIsFirst(q: Queue, k: nat)
    requires Ascending(q) && k < |q| && !q[k].finished && forall j :: 0 <= j < k ==> q[j].finished
    ensures LeastUnfinished(Observed(q)) == Some(Observed(q)[k])
  {
    var obs := Observed(q);
    assert obs[k] in obs && !obs[k].finished;
    var r := LeastUnfinished(obs).value;
    var j :| 0 <= j < |obs| && obs[j] == r;
    assert obs[j].occurrence == q[j].occurrence && obs[j].finished == q[j].finished;
  }

  lemma LatestIsLast(q: Queue)
    requires Ascending(q) && q != []
    ensures Latest(Observed(q)) == Observed(q)[|q| - 1]
  {
    var obs := Observed(q);
    var r := Latest(obs);
    var j :| 0 <= j < |obs| && obs[j] == r;
    assert obs[|q| - 1] in obs;
    assert obs[|q| - 1].occurrence == q[|q| - 1].occurrence && obs[j].occurrence == q[j].occurrence;
  }

  /** The least unfinished occurrence is the first unfinished entry in acceptance order. */
  lemma SelectsFirstUnfinished(q: Queue)
    requires Ascending(q)
    ensures q == [] ==> SelectObservation(Observed(q)) == Err(NotAccepted)
    ensures q != [] && FirstUnfinished(q, 0) < |q| ==>
              SelectObservation(Observed(q)) == Ok(Observed(q)[FirstUnfinished(q, 0)])
    ensures q != [] && FirstUnfinished(q, 0) == |q| ==> SelectObservation(Observed(q)) == Ok(Observed(q)[|q| - 1])
  {
    var k := FirstUnfinished(q, 0);
    if k < |q| {
      LeastIsFirst(q, k);
    } else if q != [] {
      assert forall o :: o in Observed(q) ==> o.finished;
      LatestIsLast(q);
    }
  }

  lemma CompleteKnown(log: Log, q: Queue, at: seq<nat>, k: nat, used: nat)
    requires Represents(log, q, at) && k < |q|
    ensures CompleteSelected(log, Observed(q)[k], used)
            == var e := q[k];
               if e.finished then (log, Ok(Completion(e.bridged.identity, e.occurrence, AlreadyCompleted)))
               else if PageFits(log, 2) && BytesFit(used, HEADROOM)
               then (log + [Produced(e.bridged.token, e.occurrence, e.instant),
                            Completed(e.bridged.source, e.occurrence, e.instant)],
                     Ok(Completion(e.bridged.identity, e.occurrence, CompletedNow)))
               else (log, Err(HistoryCapacity))
  {
    KnownPosition(log, q, at, k);
  }

  /** Completion against a queue, whatever the parser had to do for it. */
  lemma CompleteShape(log: Log, q: Queue, used: nat)
    requires ParseLog(log) == Ok(Observed(q)) && Ascending(q) && q != [] && PageFits(log, 0) && BytesFit(used, 0)
    ensures CompleteNext(log, used) == CompleteSelected(log, Observed(q)[NextIndex(q)], used)
  {
    SelectsFirstUnfinished(q);
  }

  lemma CompleteSimulates(log: Log, m: Model, at: seq<nat>, used: nat)
    requires Refines(log, m, at)
    ensures CompleteNext(log, used).1 == ModelComplete(m, used).1
    ensures Refines(CompleteNext(log, used).0, ModelComplete(m, used).0, at)
  {
    if used <= MAX_BYTES && m.size <= MAX_RECORDS {
      ParseRefinesQueue(log, m.queue, at);
      if m.queue == [] {
        SelectsFirstUnfinished(m.queue);
      } else {
        CompleteShape(log, m.queue, used);
        CompleteSome(log, m, at, used);
      }
    }
  }

  /** The entry a completion works on. */
  function NextIndex(q: Queue): (k: nat)
    requires q != []
    ensures k < |q|
  {
    var k := FirstUnfinished(q, 0);
    if k < |q| then k else |q| - 1
  }

  lemma ModelCompleteShape(m: Model, used: nat)
    requires m.queue != [] && used <= MAX_BYTES && m.size <= MAX_RECORDS
    ensures var k := NextIndex(m.queue);
            var e := m.queue[k];
            ModelComplete(m, used)
            == if e.finished then (m, Ok(Completion(e.bridged.identity, e.occurrence, AlreadyCompleted)))
               else if m.size + 2 <= MAX_RECORDS && used + HEADROOM <= MAX_BYTES
               then (Model(m.queue[k := e.(finished := true)], m.size + 2),
                     Ok(Completion(e.bridged.identity, e.occurrence, CompletedNow)))
               else (m, Err(HistoryCapacity))
  {
  }

  lemma CompletedRefines(log: Log, m: Model, at: seq<nat>, k: nat)
    requires Refines(log, m, at) && k < |m.queue| && !m.queue[k].finished
    ensures var e := m.queue[k];
            Refines(log + [Produced(e.bridged.token, e.occurrence, e.instant),
                           Completed(e.bridged.source, e.occurrence, e.instant)],
                    Model(m.queue[k := e.(finished := true)], m.size + 2), at)
  {
    AppendCompletion(log, m.queue, at, k);
  }

  lemma CompleteSome(log: Log, m: Model, at: seq<nat>, used: nat)
    requires Refines(log, m, at) && m.queue != [] && used <= MAX_BYTES && m.size <= MAX_RECORDS
    ensures var (log', r) := CompleteSelected(log, Observed(m.queue)[NextIndex(m.queue)], used);
            r == ModelComplete(m, used).1 && Refines(log', ModelComplete(m, used).0, at)
  {
    var k := NextIndex(m.queue);
    CompleteKnown(log, m.queue, at, k, used);
    ModelCompleteShape(m, used);
    if !m.queue[k].finished {
      CompletedRefines(log, m, at, k);
    }
  }

  // ---------------------------------------------------------------- whole runs

  datatype Call =
    | Accept(bridged: BridgedDelivery, acceptBytes: nat, next: int, instant: Option<int>)
    | Complete(completeBytes: nat)
    | OtherRecord(record: Record)

  datatype Reply =
    | AcceptReply(acceptance: Result<Acceptance, RuntimeError>)
    | CompleteReply(completion: Result<Completion, RuntimeError>)
    | NoReply

  function Step(log: Log, call: Call): (Log, Reply) {
    match call
    case Accept(b, used, next, instant) =>
      var (log', r) := AcceptDelivery(log, b, used, next, instant); (log', AcceptReply(r))
    case Complete(used) => var (log', r) := CompleteNext(log, used); (log', CompleteReply(r))
    case OtherRecord(record) => (log + [record], NoReply)
  }

  function ModelStep(m: Model, call: Call): (Model, Reply) {
    match call
    case Accept(b, used, next, instant) =>
      var (m', r) := ModelAccept(m, b, used, next, instant); (m', AcceptReply(r))
    case Complete(used) => var (m', r) := ModelComplete(m, used); (m', CompleteReply(r))
    case OtherRecord(_) => (m.(size := m.size + 1), NoReply)
  }

  function Run(log: Log, calls: seq<Call>): (Log, seq<Reply>) {
    if calls == [] then (log, [])
    else
      var n := |calls| - 1;
      var (log', replies) := Run(log, calls[..n]);
      var (log'', reply) := Step(log', calls[n]);
      (log'', replies + [reply])
  }

  function ModelRun(m: Model, calls: seq<Call>): (Model, seq<Reply>) {
    if calls == [] then (m, [])
    else
      var n := |calls| - 1;
      var (m', replies) := ModelRun(m, calls[..n]);
      var (m'', reply) := ModelStep(m', calls[n]);
      (m'', replies + [reply])
  }

  /** Bridged values are what the bridge makes, the engine numbers afresh, and the records of
      other transitions never name a focused occurrence. */
  predicate Admissible(log: Log, call: Call) {
    match call
    case Accept(b, _, next, _) => WellBridged(b) && Fresh(log, next)
    case Complete(_) => true
    case OtherRecord(r) =>
      && !IsBridgeDelivery(r)
      && forall p :: 0 <= p < |log| && IsBridgeDelivery(log[p]) ==> OccurrenceOf(r) != OccurrenceOf(log[p])
  }

  predicate AdmissibleRun(log: Log, calls: seq<Call>) {
    calls != [] ==>
      && AdmissibleRun(log, calls[..|calls| - 1])
      && Admissible(Run(log, calls[..|calls| - 1]).0, calls[|calls| - 1])
  }

  /** A workflow opens with engine records only. */
  predicate Opening(log: Log) {
    forall p :: 0 <= p < |log| ==> !IsBridgeDelivery(log[p])
  }

  lemma EntryIsBridge(log: Log, q: Queue, at: seq<nat>, k: nat)
    requires Represents(log, q, at) && k < |q|
    ensures log[at[k]] == Delivered(q[k]) && IsBridgeDelivery(log[at[k]])
  {
    BridgeReads(q[k]);
  }

  lemma OtherRecordSimulates(log: Log, m: Model, at: seq<nat>, r: Record)
    requires Refines(log, m, at) && Admissible(log, OtherRecord(r))
    ensures Refines(log + [r], m.(size := m.size + 1), at)
  {
    forall k | 0 <= k < |m.queue| ensures OccurrenceOf(r) != m.queue[k].occurrence {
      EntryIsBridge(log, m.queue, at, k);
    }
    forall k | 0 <= k < |m.queue|
      ensures !IsTerminalOf(r, m.queue[k].bridged.source, m.queue[k].occurrence)
              && !IsProductOf(r, m.queue[k].occurrence)
    {
      assert OccurrenceOf(r) != m.queue[k].occurrence;
    }
    AppendUnrelated(log, m.queue, at, r);
  }

  lemma {:induction false} RunSimulates(log: Log, calls: seq<Call>) returns (at: seq<nat>)
    requires Opening(log) && AdmissibleRun(log, calls)
    ensures Refines(Run(log, calls).0, ModelRun(Model([], |log|), calls).0, at)
    ensures Run(log, calls).1 == ModelRun(Model([], |log|), calls).1
  {
    if calls == [] {
      at := [];
    } else {
      var n := |calls| - 1;
      at := RunSimulates(log, calls[..n]);
      var log', m := Run(log, calls[..n]).0, ModelRun(Model([], |log|), calls[..n]).0;
      match calls[n]
      case Accept(b, used, next, instant) => at := AcceptSimulates(log', m, at, b, used, next, instant);
      case Complete(used) => CompleteSimulates(log', m, at, used);
      case OtherRecord(r) => OtherRecordSimulates(log', m, at, r);
    }
  }

  /** Log refinement: however accepts, completions and other transitions interleave, parsing the
      log raises no corruption and returns the queue machine's queue, and every reply agrees. */
  lemma LogRefinement(log: Log, calls: seq<Call>)
    requires Opening(log) && AdmissibleRun(log, calls)
    ensures ParseLog(Run(log, calls).0) == Ok(Observed(ModelRun(Model([], |log|), calls).0.queue))
    ensures Run(log, calls).1 == ModelRun(Model([], |log|), calls).1
    ensures |Run(log, calls).0| == ModelRun(Model([], |log|), calls).0.size
  {
    var at := RunSimulates(log, calls);
    ParseRefinesQueue(Run(log, calls).0, ModelRun(Model([], |log|), calls).0.queue, at);
  }

  // ---------------------------------------------------------------- the runtime object

  /** Intake correlation, bridging and acceptance for the workflow of `pr`. */
  function AcceptPrepared(codec: Codec, pr: PrIdentity, log: Log, workflow: PrIdentity, prepared: PreparedIntake,
                          used: nat, next: int, instant: Option<int>)
    : (Log, Result<Acceptance, RuntimeError>)
  {
    if workflow != pr || prepared.bridge != BRIDGE_IDENTITY || prepared.observation.pr != workflow
    then (log, Err(WorkflowMismatch))
    else
      match BridgeHeadDelivery(codec, prepared)
      case Err(_) => (log, Err(Unbridgeable))
      case Ok(b) => AcceptDelivery(log, b, used, next, instant)
  }

  /** What accepting does to a queue, in a client's terms. */
  lemma AcceptedOnQueue(m: Model, b: BridgedDelivery, used: nat, next: int, instant: Option<int>)
    ensures var (m', r) := ModelAccept(m, b, used, next, instant);
            && m.queue <= m'.queue && (r.Err? ==> m' == m && r.error == HistoryCapacity)
            && (r.Ok? ==> Queued(m'.queue, b.identity, r.value.occurrence, r.value.finished))
            && (r.Ok? && (exists k :: 0 <= k < |m.queue| && m.queue[k].bridged.identity == b.identity) ==> m' == m)
            && (r.Ok? && (forall k :: 0 <= k < |m.queue| ==> m.queue[k].bridged.identity != b.identity) ==>
                  && m'.size == m.size + 2 && |m'.queue| == |m.queue| + 1 && r.value == Acceptance(next, false)
                  && m'.queue[|m.queue|].bridged == b)
  {
    var (m', r) := ModelAccept(m, b, used, next, instant);
    match IndexOf(m.queue, b.identity)
    case Some(k) =>
    case None =>
      if r.Ok? { assert m'.queue[|m.queue|] == Entry(b, next, instant, false); }
  }

  /** The queue position of an identity, as a client sees it. */
  ghost predicate Queued(q: Queue, identity: string, occurrence: int, finished: bool) {
    exists k :: && 0 <= k < |q| && q[k].bridged.identity == identity
                && q[k].occurrence == occurrence && q[k].finished == finished
  }

  /** The first unfinished delivery is finished, and only it; or all are, and the last is reported. */
  ghost predicate Finishes(q: Queue, q': Queue, c: Completion) {
    match c.disposition
    case CompletedNow =>
      exists k :: && 0 <= k < |q| && !q[k].finished && (forall j :: 0 <= j < k ==> q[j].finished)
                  && q' == q[k := q[k].(finished := true)]
                  && c.identity == q[k].bridged.identity && c.occurrence == q[k].occurrence
    case AlreadyCompleted =>
      && q' == q && q != [] && (forall k :: 0 <= k < |q| ==> q[k].finished)
      && c.identity == q[|q| - 1].bridged.identity && c.occurrence == q[|q| - 1].occurrence
  }

  /** One workflow's runtime. `used` is the byte size the storage reports, `next` and `instant`
      are the engine's choices for a new firing. A client sees a queue of accepted deliveries; the
      object holds a log and parses it. */
  class ReadinessRuntime {
    const pr: PrIdentity
    var log: Log
    ghost var queue: Queue
    ghost var at: seq<nat>

    constructor (pr: PrIdentity, opening: Log)
      requires Opening(opening)
      ensures this.pr == pr && log == opening && queue == [] && Valid()
    {
      this.pr := pr;
      log := opening;
      queue, at := [], [];
    }

    /** The runtime of a workflow whose History is already there. */
    constructor Load(pr: PrIdentity, log: Log, ghost queue: Queue, ghost at: seq<nat>)
      requires Represents(log, queue, at)
      ensures this.pr == pr && this.log == log && this.queue == queue && Valid()
    {
      this.pr, this.log := pr, log;
      this.queue, this.at := queue, at;
    }

    ghost predicate Valid()
      reads this
    {
      Refines(log, Model(queue, |log|), at)
    }

    /** On the queue: a known delivery answers with its occurrence and changes nothing, a new one
        joins the end, and without room nothing happens. */
    method Accept(codec: Codec, workflow: PrIdentity, prepared: PreparedIntake, used: nat, next: int,
                  instant: Option<int>)
      returns (r: Result<Acceptance, RuntimeError>)
      requires Valid() && codec.Sound() && Fresh(log, next)
      modifies this
      ensures Valid() && old(log) <= log && old(queue) <= queue
      ensures workflow != pr || prepared.bridge != BRIDGE_IDENTITY || prepared.observation.pr != workflow ==>
                r == Err(WorkflowMismatch)
      ensures r.Err? ==> queue == old(queue) && log == old(log)
      ensures r.Ok? ==> Queued(queue, prepared.identity, r.value.occurrence, r.value.finished)
      ensures r.Ok? && (exists k :: 0 <= k < |old(queue)| && old(queue)[k].bridged.identity == prepared.identity) ==>
                queue == old(queue) && log == old(log)
      ensures r.Ok? && (forall k :: 0 <= k < |old(queue)| ==> old(queue)[k].bridged.identity != prepared.identity) ==>
                && |log| == old(|log|) + 2 && |queue| == old(|queue|) + 1
                && r.value == Acceptance(next, false)
                && BridgeHeadDelivery(codec, prepared) == Ok(queue[|queue| - 1].bridged)
      ensures r == Err(HistoryCapacity) <==>
                && workflow == pr && prepared.bridge == BRIDGE_IDENTITY && prepared.observation.pr == workflow
                && BridgeHeadDelivery(codec, prepared).Ok?
                && var b := BridgeHeadDelivery(codec, prepared).value;
                   ModelAccept(Model(old(queue), old(|log|)), b, used, next, instant).1.Err?
    {
      if workflow != pr || prepared.bridge != BRIDGE_IDENTITY || prepared.observation.pr != workflow {
        return Err(WorkflowMismatch);
      }
      var bridged := BridgeHeadDelivery(codec, prepared);
      if bridged.Err? {
        return Err(Unbridgeable);
      }
      BridgedIsWellFormed(codec, prepared);
      r := AcceptBridged(bridged.value, used, next, instant);
      AcceptedOnQueue(Model(old(queue), old(|log|)), bridged.value, used, next, instant);
    }

    /** Capacity, prior lookup and the engine, in that order. */
    method AcceptBridged(b: BridgedDelivery, used: nat, next: int, instant: Option<int>)
      returns (r: Result<Acceptance, RuntimeError>)
      requires Valid() && WellBridged(b) && Fresh(log, next)
      modifies this
      ensures Valid() && old(log) <= log
      ensures (Model(queue, |log|), r) == ModelAccept(Model(old(queue), old(|log|)), b, used, next, instant)
      ensures |log| == old(|log|) ==> log == old(log)
    {
      ghost var at' := AcceptSimulates(log, Model(queue, |log|), at, b, used, next, instant);
      ghost var m := ModelAccept(Model(queue, |log|), b, used, next, instant).0;
      var log';
      log', r := AcceptSteps(log, b, used, next, instant);
      AcceptGrows(log, b, used, next, instant);
      log, queue, at := log', m.queue, at';
    }

    /** On the queue: the first unfinished delivery is finished, and only it; with none left the
        last one is reported again and nothing changes. */
    method CompleteNextObservation(workflow: PrIdentity, used: nat) returns (r: Result<Completion, RuntimeError>)
      requires Valid()
      modifies this
      ensures Valid() && old(log) <= log && |queue| == old(|queue|)
      ensures workflow != pr <==> r == Err(WorkflowMismatch)
      ensures r.Err? ==> queue == old(queue) && log == old(log)
      ensures r.Err? ==> r.error in {WorkflowMismatch, HistoryCapacity, NotAccepted}
      ensures r.Ok? ==> Finishes(old(queue), queue, r.value)
      ensures r.Ok? ==> if r.value.disposition == CompletedNow then |log| == old(|log|) + 2 else log == old(log)
      ensures workflow == pr ==> log == CompleteNext(old(log), used).0
      ensures workflow == pr ==>
                && (r == Err(NotAccepted) <==> old(queue) == [] && used <= MAX_BYTES && old(|log|) <= MAX_RECORDS)
                && (r == Err(HistoryCapacity) <==>
                      || used > MAX_BYTES || old(|log|) > MAX_RECORDS
                      || ((exists k :: 0 <= k < |old(queue)| && !old(queue)[k].finished)
                          && (old(|log|) + 2 > MAX_RECORDS || used + HEADROOM > MAX_BYTES)))
    {
      if workflow != pr {
        return Err(WorkflowMismatch);
      }
      r := CompleteRegistered(used);
      CompletedOnQueue(Model(old(queue), old(|log|)), used);
    }

    method CompleteRegistered(used: nat) returns (r: Result<Completion, RuntimeError>)
      requires Valid()
      modifies this
      ensures Valid() && old(log) <= log && log == CompleteNext(old(log), used).0
      ensures (Model(queue, |log|), r) == ModelComplete(Model(old(queue), old(|log|)), used)
    {
      CompleteSimulates(log, Model(queue, |log|), at, used);
      ghost var m := ModelComplete(Model(queue, |log|), used).0;
      var log';
      log', r := CompleteSteps(log, used);
      CompleteGrows(log, used);
      log, queue := log', m.queue;
    }
  }

  /** What completing does to a queue, in a client's terms. */
  lemma CompletedOnQueue(m: Model, used: nat)
    ensures var (m', r) := ModelComplete(m, used);
            && |m'.queue| == |m.queue| && (r.Err? ==> m' == m && r.error in {HistoryCapacity, NotAccepted})
            && (r == Err(NotAccepted) <==> m.queue == [] && used <= MAX_BYTES && m.size <= MAX_RECORDS)
            && (r == Err(HistoryCapacity) <==>
                  || used > MAX_BYTES || m.size > MAX_RECORDS
                  || ((exists k :: 0 <= k < |m.queue| && !m.queue[k].finished)
                      && (m.size + 2 > MAX_RECORDS || used + HEADROOM > MAX_BYTES)))
            && (r.Ok? ==> Finishes(m.queue, m'.queue, r.value))
            && (r.Ok? ==> m'.size == m.size + if r.value.disposition == CompletedNow then 2 else 0)
  {
    if m.queue != [] {
      var k := FirstUnfinished(m.queue, 0);
      if k < |m.queue| {
        var q' := m.queue[k := m.queue[k].(finished := true)];
        assert q'[k].bridged == m.queue[k].bridged && q'[k].occurrence == m.queue[k].occurrence;
      }
    }
  }

  lemma AcceptGrows(log: Log, b: BridgedDelivery, used: nat, next: int, instant: Option<int>)
    ensures log <= AcceptDelivery(log, b, used, next, instant).0
  {
  }

  lemma CompleteGrows(log: Log, used: nat)
    ensures log <= CompleteNext(log, used).0
  {
    if ParseLog(log).Ok? && SelectObservation(ParseLog(log).value).Ok? {
      SelectedGrows(log, SelectObservation(ParseLog(log).value).value, used);
    }
  }

  lemma SelectedGrows(log: Log, selected: Observation, used: nat)
    ensures log <= CompleteSelected(log, selected, used).0
  {
    var log' := EngineAccept(log, selected.bridged, 0, None).0;
    assert log <= log' && log' <= EngineComplete(log', selected.bridged.identity);
  }

  /** Capacity, prior lookup by a scan of the observations, and the engine, in that order. */
  method AcceptSteps(log: Log, b: BridgedDelivery, used: nat, next: int, instant: Option<int>)
    returns (log': Log, r: Result<Acceptance, RuntimeError>)
    ensures (log', r) == AcceptDelivery(log, b, used, next, instant)
  {
    if !BytesFit(used, 0) || !PageFits(log, 0) {
      return log, Err(HistoryCapacity);
    }
    var parsed := ParseLog(log);
    if parsed.Err? {
      return log, Err(HistoryCorruption(parsed.error));
    }
    var prior := false;
    for i := 0 to |parsed.value|
      invariant prior <==> exists k :: 0 <= k < i && parsed.value[k].bridged.identity == b.identity
    {
      if parsed.value[i].bridged.identity == b.identity {
        prior := true;
      }
    }
    if !PageFits(log, if prior then 0 else 2) || !BytesFit(used, if prior then 0 else HEADROOM) {
      return log, Err(HistoryCapacity);
    }
    var (accepted, ack) := EngineAccept(log, b, next, instant);
    return accepted, Ok(Acceptance(ack.occurrence, ack.PriorAcknowledgement?));
  }

  /** Select, replay the acceptance, and complete unless it was completed before. */
  method CompleteSteps(log: Log, used: nat) returns (log': Log, r: Result<Completion, RuntimeError>)
    ensures (log', r) == CompleteNext(log, used)
  {
    if !BytesFit(used, 0) || !PageFits(log, 0) {
      return log, Err(HistoryCapacity);
    }
    var parsed := ParseLog(log);
    if parsed.Err? {
      return log, Err(HistoryCorruption(parsed.error));
    }
    var selected := SelectObservation(parsed.value);
    if selected.Err? {
      return log, Err(selected.error);
    }
    var chosen := selected.value;
    var (replayed, ack) := EngineAccept(log, chosen.bridged, 0, None);
    if ack.occurrence != chosen.occurrence || ack.PriorAcknowledgement? != chosen.finished {
      return replayed, Err(AcceptanceMismatch);
    }
    if ack.PriorAcknowledgement? {
      return replayed, Ok(Completion(chosen.bridged.identity, chosen.occurrence, AlreadyCompleted));
    }
    if !PageFits(replayed, 2) || !BytesFit(used, HEADROOM) {
      return replayed, Err(HistoryCapacity);
    }
    return EngineComplete(replayed, chosen.bridged.identity),
           Ok(Completion(chosen.bridged.identity, chosen.occurrence, CompletedNow));
  }
}
