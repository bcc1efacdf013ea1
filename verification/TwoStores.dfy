/** The Inbox and History together. They commit separately, so a crash may fall between
    History's commit and the inbox's; recovery is replay by stable identity. */
module TwoStores {
  import opened Outcomes
  import opened Intake
  import opened History
  import opened Runtime
  import opened Inbox

  datatype System = System(db: Database, logs: map<PrIdentity, Log>)

  /** One atomic step. `crash` loses the inbox commit after History committed. */
  datatype Command =
    | Receive(verified: Verified, maximum: nat)
    | RejectDelivery(rejected: string, reason: string, normalized: Option<Webhook>)
    | AuthorizeDelivery(authorization: Authorization)
    | OfferToHistory(offered: string, used: nat, next: int, instant: Option<int>, crash: bool)
    | CompleteObservation(completed: PrIdentity, bytes: nat)
    | OpenPullRequest(pr: PrIdentity, action: string, limit: nat, opening: Log, lost: bool)
    | AppendOther(of: PrIdentity, record: Record)      // another transition of the workflow

  ghost function SystemStep(codec: Codec, s: System, c: Command): System {
    match c
    case Receive(v, maximum) => s.(db := RecordDelivery(codec, s.db, v, maximum).0)
    case RejectDelivery(id, reason, normalized) => s.(db := Reject(codec, s.db, id, reason, normalized).0)
    case AuthorizeDelivery(a) => s.(db := Authorize(codec, s.db, a).0)
    case OfferToHistory(id, used, next, instant, crash) =>
      var offer := OfferFor(codec, s.db, id);
      if offer.Err? || offer.value.Settled? || offer.value.pr !in s.logs then s
      else Offered(codec, s, id, offer.value.pr, offer.value.prepared, used, next, instant, crash)
    case CompleteObservation(pr, used) =>
      if pr !in s.db.workflows || pr !in s.logs then s
      else s.(logs := s.logs[pr := CompleteNext(s.logs[pr], used).0])
    case OpenPullRequest(pr, action, maximum, opening, lost) =>
      var (db', r) := OpenWorkflow(s.db, pr, action, maximum);
      if r.Err? && !r.error.CapacityExhausted? then s
      else System(if lost then s.db else db', if pr in s.logs then s.logs else s.logs[pr := opening])
    case AppendOther(pr, record) =>
      if pr !in s.logs then s else s.(logs := s.logs[pr := s.logs[pr] + [record]])
  }

  ghost function Offered(codec: Codec, s: System, id: string, pr: PrIdentity, prepared: PreparedIntake, used: nat,
                         next: int, instant: Option<int>, crash: bool): System
    requires pr in s.logs
  {
    var (log', r) := AcceptPrepared(codec, pr, s.logs[pr], pr, prepared, used, next, instant);
    System(if r.Err? || crash then s.db else MarkRecorded(codec, s.db, id, r.value.occurrence).0,
           s.logs[pr := log'])
  }

  ghost function SystemRun(codec: Codec, s: System, commands: seq<Command>): System {
    if commands == [] then s
    else SystemStep(codec, SystemRun(codec, s, commands[..|commands| - 1]), commands[|commands| - 1])
  }

  /** The engine numbers firings upwards, a new workflow opens with engine records only, and other
      transitions' records never name a focused occurrence. */
  ghost predicate Permitted(codec: Codec, s: System, c: Command) {
    match c
    case OfferToHistory(id, _, next, _, _) =>
      var offer := OfferFor(codec, s.db, id);
      offer.Ok? && offer.value.Pending? && offer.value.pr in s.logs ==> Fresh(s.logs[offer.value.pr], next)
    case OpenPullRequest(_, _, _, opening, _) => Opening(opening)
    case AppendOther(pr, record) => pr in s.logs ==> Admissible(s.logs[pr], OtherRecord(record))
    case _ => true
  }

  ghost predicate PermittedRun(codec: Codec, s: System, commands: seq<Command>) {
    commands != [] ==>
      && PermittedRun(codec, s, commands[..|commands| - 1])
      && Permitted(codec, SystemRun(codec, s, commands[..|commands| - 1]), commands[|commands| - 1])
  }

  const EMPTY: System := System(Database(map[], map[]), map[])

  // ---------------------------------------------------------------- invariant

  ghost predicate WellLogged(log: Log) {
    exists q, at :: Represents(log, q, at)
  }

  ghost predicate Logged(log: Log, identity: string) {
    exists p :: 0 <= p < |log| && IsBridgeDelivery(log[p]) && log[p].identity == identity
  }

  predicate Claims(row: Row, identity: string, pr: PrIdentity) {
    row.authorized && row.identity == Some(identity) && row.pr == Some(pr)
  }

  ghost predicate HasRow(db: Database, identity: string, pr: PrIdentity) {
    exists id :: id in db.rows && Claims(db.rows[id], identity, pr)
  }

  /** Every focused delivery in a History was put there for an authorized row of that PR. */
  ghost predicate Accounted(db: Database, pr: PrIdentity, log: Log) {
    forall identity :: Logged(log, identity) ==> HasRow(db, identity, pr)
  }

  ghost predicate RecordedInHistory(s: System, row: Row) {
    row.outcome == Some(Recorded) ==>
      row.pr.Some? && row.identity.Some? && row.pr.value in s.logs && Logged(s.logs[row.pr.value], row.identity.value)
  }

  ghost predicate LogsKept(logs: map<PrIdentity, Log>) {
    forall pr :: pr in logs ==> WellLogged(logs[pr])
  }

  ghost predicate AllAccounted(s: System) {
    forall pr :: pr in s.logs ==> Accounted(s.db, pr, s.logs[pr])
  }

  ghost predicate AllRecorded(s: System) {
    forall id :: id in s.db.rows ==> RecordedInHistory(s, s.db.rows[id])
  }

  ghost predicate SystemInv(codec: Codec, s: System) {
    && Inv(codec, s.db)
    && s.db.workflows.Keys <= s.logs.Keys
    && LogsKept(s.logs) && AllAccounted(s) && AllRecorded(s)
  }

  /** The columns of an authorized row determine one another. */
  lemma AuthorizedColumnsAgree(codec: Codec, id: string, row: Row)
    requires RowInv(codec, id, row) && row.authorized
    ensures row.key == Some(KeyFor(codec, row.canonical.value))
    ensures row.identity == Some(IdentityFor(codec, row.key.value, row.policy.value))
    ensures PreparedFromRow(codec, row).Ok? && PreparedFromRow(codec, row).value.Some?
    ensures BridgeHeadDelivery(codec, PreparedFromRow(codec, row).value.value).Ok?
  {
  }

  lemma HasRowSurvives(db: Database, db': Database, identity: string, pr: PrIdentity)
    requires DatabaseEvolves(db, db') && HasRow(db, identity, pr)
    ensures HasRow(db', identity, pr)
  {
    var id :| id in db.rows && Claims(db.rows[id], identity, pr);
    assert Evolves(db.rows[id], db'.rows[id]);
    assert Claims(db'.rows[id], identity, pr);
  }

  // ---------------------------------------------------------------- steps that touch one store

  lemma AccountedSurvives(s: System, db': Database)
    requires AllAccounted(s) && DatabaseEvolves(s.db, db')
    ensures AllAccounted(s.(db := db'))
  {
    forall pr | pr in s.logs ensures Accounted(db', pr, s.logs[pr]) {
      assert Accounted(s.db, pr, s.logs[pr]);
      forall identity | Logged(s.logs[pr], identity) ensures HasRow(db', identity, pr) {
        HasRowSurvives(s.db, db', identity, pr);
      }
    }
  }

  /** A database step whose recorded rows are in History keeps the invariant. */
  lemma DatabaseStepKeeps(codec: Codec, s: System, db': Database)
    requires SystemInv(codec, s) && Inv(codec, db') && DatabaseEvolves(s.db, db')
    requires db'.workflows.Keys <= s.logs.Keys
    requires AllRecorded(s.(db := db'))
    ensures SystemInv(codec, s.(db := db'))
  {
    AccountedSurvives(s, db');
  }

  /** Rows that were already recorded, or are not recorded, need nothing new from History. */
  lemma RecordedSurvives(s: System, db': Database)
    requires AllRecorded(s) && DatabaseEvolves(s.db, db')
    requires forall id :: id in db'.rows && db'.rows[id].outcome == Some(Recorded) ==>
               id in s.db.rows && s.db.rows[id].outcome == Some(Recorded)
    ensures AllRecorded(s.(db := db'))
  {
    var s' := s.(db := db');
    forall id | id in db'.rows ensures RecordedInHistory(s', db'.rows[id]) {
      if db'.rows[id].outcome == Some(Recorded) {
        assert RecordedInHistory(s, s.db.rows[id]);
        assert Evolves(s.db.rows[id], db'.rows[id]);
      }
    }
  }

  /** A row changed by such a step is not newly recorded. */
  lemma UnrecordedWriteKeeps(codec: Codec, s: System, id: string, row: Row)
    requires SystemInv(codec, s) && Inv(codec, Put(s.db, id, row)) && DatabaseEvolves(s.db, Put(s.db, id, row))
    requires row.outcome == Some(Recorded) ==> id in s.db.rows && s.db.rows[id].outcome == Some(Recorded)
    ensures SystemInv(codec, s.(db := Put(s.db, id, row)))
  {
    RecordedSurvives(s, Put(s.db, id, row));
    DatabaseStepKeeps(codec, s, Put(s.db, id, row));
  }

  lemma ReceiveKeeps(codec: Codec, s: System, v: Verified, maximum: nat)
    requires SystemInv(codec, s)
    ensures SystemInv(codec, s.(db := RecordDelivery(codec, s.db, v, maximum).0))
  {
    RecordKeepsInv(codec, s.db, v, maximum);
    var id := v.deliveryId;
    var row := if id in s.db.rows then WithCollision(s.db.rows[id], codec.sha256(v.body)) else FirstRow(codec, s.db, v);
    if RecordDelivery(codec, s.db, v, maximum).0 == Put(s.db, id, row) {
      UnrecordedWriteKeeps(codec, s, id, row);
    } else {
      assert RecordDelivery(codec, s.db, v, maximum).0 == s.db;
    }
  }

  lemma RejectShape(codec: Codec, db: Database, id: string, reason: string, normalized: Option<Webhook>)
    ensures Reject(codec, db, id, reason, normalized).0 == db
            || (id in db.rows
                && Reject(codec, db, id, reason, normalized).0
                   == Put(db, id, RejectedRow(codec, db.rows[id], reason, normalized)))
  {
  }

  lemma RejectStepKeeps(codec: Codec, s: System, id: string, reason: string, normalized: Option<Webhook>)
    requires SystemInv(codec, s)
    ensures SystemInv(codec, s.(db := Reject(codec, s.db, id, reason, normalized).0))
  {
    RejectKeepsInv(codec, s.db, id, reason, normalized);
    RejectShape(codec, s.db, id, reason, normalized);
    if Reject(codec, s.db, id, reason, normalized).0 != s.db {
      UnrecordedWriteKeeps(codec, s, id, RejectedRow(codec, s.db.rows[id], reason, normalized));
    }
  }

  lemma AuthorizeStepKeeps(codec: Codec, s: System, a: Authorization)
    requires SystemInv(codec, s)
    ensures SystemInv(codec, s.(db := Authorize(codec, s.db, a).0))
  {
    AuthorizeKeepsInv(codec, s.db, a);
    AuthorizeShape(codec, s.db, a);
    if Authorize(codec, s.db, a).0 != s.db {
      ClassifiedKeepsRow(codec, s.db, a);
      UnrecordedWriteKeeps(codec, s, a.deliveryId,
                           ClassifiedRow(codec, s.db.rows[a.deliveryId], a, OwnerColumns(s.db, a.prepared.key)));
    }
  }

  lemma NewHistoryKeeps(s: System, pr: PrIdentity, opening: Log)
    requires LogsKept(s.logs) && AllAccounted(s) && AllRecorded(s)
    requires pr !in s.logs && Opening(opening)
    ensures var s' := s.(logs := s.logs[pr := opening]);
            LogsKept(s'.logs) && AllAccounted(s') && AllRecorded(s')
  {
    var s' := s.(logs := s.logs[pr := opening]);
    assert Represents(opening, [], []);
    forall other | other in s'.logs ensures Accounted(s'.db, other, s'.logs[other]) {
      if other != pr { assert Accounted(s.db, other, s.logs[other]); }
    }
    forall id | id in s'.db.rows ensures RecordedInHistory(s', s'.db.rows[id]) {
      assert RecordedInHistory(s, s.db.rows[id]);
    }
  }

  lemma OpenShape(db: Database, pr: PrIdentity, action: string, maximum: nat)
    ensures var db' := OpenWorkflow(db, pr, action, maximum).0;
            db'.rows == db.rows && db'.workflows.Keys <= db.workflows.Keys + {pr}
  {
    OpenChanges(db, pr, action, maximum);
  }

  lemma RegisteringKeeps(codec: Codec, s: System, pr: PrIdentity, action: string, maximum: nat)
    requires SystemInv(codec, s) && pr in s.logs
    ensures SystemInv(codec, s.(db := OpenWorkflow(s.db, pr, action, maximum).0))
  {
    var db' := OpenWorkflow(s.db, pr, action, maximum).0;
    assert Inv(codec, db') && DatabaseEvolves(s.db, db') by { OpenKeepsInv(codec, s.db, pr, action, maximum); }
    OpenShape(s.db, pr, action, maximum);
    SameRowsRecorded(codec, s, db');
  }

  lemma SameRowsRecorded(codec: Codec, s: System, db': Database)
    requires SystemInv(codec, s) && Inv(codec, db') && DatabaseEvolves(s.db, db')
    requires db'.rows == s.db.rows && db'.workflows.Keys <= s.logs.Keys
    ensures SystemInv(codec, s.(db := db'))
  {
    RecordedSurvives(s, db');
    DatabaseStepKeeps(codec, s, db');
  }

  lemma OpenStepKeeps(codec: Codec, s: System, pr: PrIdentity, action: string, maximum: nat, opening: Log, lost: bool)
    requires SystemInv(codec, s) && Opening(opening)
    ensures SystemInv(codec, SystemStep(codec, s, OpenPullRequest(pr, action, maximum, opening, lost)))
  {
    var s1 := if pr in s.logs then s else s.(logs := s.logs[pr := opening]);
    if pr !in s.logs { NewHistoryKeeps(s, pr, opening); }
    RegisteringKeeps(codec, s1, pr, action, maximum);
  }

  // ---------------------------------------------------------------- steps that append to History

  lemma LoggedSurvives(log: Log, log': Log, identity: string)
    requires log <= log' && Logged(log, identity)
    ensures Logged(log', identity)
  {
    var p :| 0 <= p < |log| && IsBridgeDelivery(log[p]) && log[p].identity == identity;
    assert log'[p] == log[p];
  }

  lemma AppendKeepsRecorded(s: System, pr: PrIdentity, log': Log)
    requires AllRecorded(s) && pr in s.logs && s.logs[pr] <= log'
    ensures AllRecorded(s.(logs := s.logs[pr := log']))
  {
    var s' := s.(logs := s.logs[pr := log']);
    forall id | id in s'.db.rows ensures RecordedInHistory(s', s'.db.rows[id]) {
      var row := s.db.rows[id];
      assert RecordedInHistory(s, row);
      if row.outcome == Some(Recorded) && row.pr.value == pr {
        LoggedSurvives(s.logs[pr], log', row.identity.value);
      }
    }
  }

  /** Appending to one History keeps the invariant when what is appended is accounted for. */
  lemma LogStepKeeps(codec: Codec, s: System, pr: PrIdentity, log': Log)
    requires SystemInv(codec, s) && pr in s.logs
    requires WellLogged(log') && s.logs[pr] <= log' && Accounted(s.db, pr, log')
    ensures SystemInv(codec, s.(logs := s.logs[pr := log']))
  {
    AppendKeepsRecorded(s, pr, log');
  }

  lemma AcceptEffect(log: Log, b: BridgedDelivery, used: nat, next: int, instant: Option<int>)
    requires WellBridged(b)
    ensures var (log', r) := AcceptDelivery(log, b, used, next, instant);
            && (log' == log || log' == log + [Delivered(Entry(b, next, instant, false)),
                                              Begun(b.source, next, instant)])
            && (r.Ok? ==> Logged(log', b.identity))
  {
    assert b.identity == b.identity[..|IDENTITY_PREFIX|] + b.identity[|IDENTITY_PREFIX|..];
    assert IDENTITY_PREFIX <= b.identity;
    var (log', r) := AcceptDelivery(log, b, used, next, instant);
    if r.Ok? {
      var found := DeliveryAt(log, b.identity);
      if found.Some? {
        assert IsBridgeDelivery(log'[found.value]);
      } else {
        assert log'[|log|] == Delivered(Entry(b, next, instant, false));
      }
    }
  }

  lemma AcceptKeepsWellLogged(log: Log, b: BridgedDelivery, used: nat, next: int, instant: Option<int>)
    requires WellLogged(log) && WellBridged(b) && Fresh(log, next)
    ensures WellLogged(AcceptDelivery(log, b, used, next, instant).0)
  {
    var q, at :| Represents(log, q, at);
    var at' := AcceptSimulates(log, Model(q, |log|), at, b, used, next, instant);
    assert Represents(AcceptDelivery(log, b, used, next, instant).0,
                      ModelAccept(Model(q, |log|), b, used, next, instant).0.queue, at');
  }

  /** A log whose added records are no deliveries knows no new identity. */
  lemma NothingNewLogged(log: Log, log': Log, identity: string)
    requires log <= log' && Logged(log', identity)
    requires forall p :: |log| <= p < |log'| ==> !IsBridgeDelivery(log'[p])
    ensures Logged(log, identity)
  {
    var p :| 0 <= p < |log'| && IsBridgeDelivery(log'[p]) && log'[p].identity == identity;
    assert log[p] == log'[p];
  }

  lemma SelectedAppends(log: Log, q: Queue, at: seq<nat>, k: nat, used: nat)
    requires Represents(log, q, at) && k < |q|
    ensures var log' := CompleteSelected(log, Observed(q)[k], used).0;
            log <= log' && forall p :: |log| <= p < |log'| ==> !IsBridgeDelivery(log'[p])
  {
    CompleteKnown(log, q, at, k, used);
  }

  lemma CompleteIs(log: Log, q: Queue, at: seq<nat>, used: nat)
    requires Represents(log, q, at)
    ensures CompleteNext(log, used).0 == log
            || (q != [] && CompleteNext(log, used) == CompleteSelected(log, Observed(q)[NextIndex(q)], used))
  {
    if BytesFit(used, 0) && PageFits(log, 0) {
      assert ParseLog(log) == Ok(Observed(q)) by { ParseRefinesQueue(log, q, at); }
      if q == [] {
        SelectsFirstUnfinished(q);
      } else {
        CompleteShape(log, q, used);
      }
    }
  }

  /** Completion appends no delivery. */
  lemma CompleteAppends(log: Log, q: Queue, at: seq<nat>, used: nat)
    requires Represents(log, q, at)
    ensures log <= CompleteNext(log, used).0
    ensures forall p :: |log| <= p < |CompleteNext(log, used).0| ==> !IsBridgeDelivery(CompleteNext(log, used).0[p])
  {
    CompleteIs(log, q, at, used);
    if q != [] { SelectedAppends(log, q, at, NextIndex(q), used); }
  }

  lemma CompleteKeepsWellLogged(log: Log, used: nat)
    requires WellLogged(log)
    ensures WellLogged(CompleteNext(log, used).0)
    ensures log <= CompleteNext(log, used).0
    ensures forall p :: |log| <= p < |CompleteNext(log, used).0| ==> !IsBridgeDelivery(CompleteNext(log, used).0[p])
  {
    var q, at :| Represents(log, q, at);
    CompleteSimulates(log, Model(q, |log|), at, used);
    assert Represents(CompleteNext(log, used).0, ModelComplete(Model(q, |log|), used).0.queue, at);
    CompleteAppends(log, q, at, used);
  }

  lemma CompleteStepKeeps(codec: Codec, s: System, pr: PrIdentity, used: nat)
    requires SystemInv(codec, s) && pr in s.logs
    ensures SystemInv(codec, s.(logs := s.logs[pr := CompleteNext(s.logs[pr], used).0]))
  {
    var log, log' := s.logs[pr], CompleteNext(s.logs[pr], used).0;
    CompleteKeepsWellLogged(log, used);
    assert Accounted(s.db, pr, log') by {
      assert Accounted(s.db, pr, log);
      forall identity | Logged(log', identity) ensures HasRow(s.db, identity, pr) {
        NothingNewLogged(log, log', identity);
      }
    }
    LogStepKeeps(codec, s, pr, log');
  }

  /** What History is offered comes from an authorized, unconcluded row of that PR. */
  lemma OfferIsClaimed(codec: Codec, s: System, id: string)
    requires SystemInv(codec, s) && codec.Sound()
    requires OfferFor(codec, s.db, id).Ok? && OfferFor(codec, s.db, id).value.Pending?
    ensures var offer := OfferFor(codec, s.db, id).value;
            && id in s.db.rows && s.db.rows[id].outcome.None?
            && Claims(s.db.rows[id], offer.prepared.identity, offer.pr)
            && offer.pr in s.logs && offer.prepared.observation.pr == offer.pr
            && BridgeHeadDelivery(codec, offer.prepared).Ok?
            && WellBridged(BridgeHeadDelivery(codec, offer.prepared).value)
            && BridgeHeadDelivery(codec, offer.prepared).value.identity == offer.prepared.identity
            && offer.prepared.bridge == BRIDGE_IDENTITY
  {
    assert RowInv(codec, id, s.db.rows[id]);
    BridgedIsWellFormed(codec, OfferFor(codec, s.db, id).value.prepared);
  }

  lemma AcceptanceIsAccounted(db: Database, log: Log, id: string, b: BridgedDelivery, pr: PrIdentity, used: nat,
                              next: int, instant: Option<int>)
    requires Accounted(db, pr, log) && WellBridged(b)
    requires id in db.rows && Claims(db.rows[id], b.identity, pr)
    ensures Accounted(db, pr, AcceptDelivery(log, b, used, next, instant).0)
    ensures log <= AcceptDelivery(log, b, used, next, instant).0
  {
    var log' := AcceptDelivery(log, b, used, next, instant).0;
    AcceptEffect(log, b, used, next, instant);
    forall identity | Logged(log', identity) ensures HasRow(db, identity, pr) {
      var p :| 0 <= p < |log'| && IsBridgeDelivery(log'[p]) && log'[p].identity == identity;
      if p < |log| {
        assert log[p] == log'[p];
        assert Logged(log, identity);
      } else {
        assert identity == b.identity;
      }
    }
  }

  lemma RecordingIsBacked(codec: Codec, s: System, id: string, occurrence: int)
    requires AllRecorded(s) && id in s.db.rows
    requires s.db.rows[id].pr.Some? && s.db.rows[id].identity.Some? && s.db.rows[id].pr.value in s.logs
    requires Logged(s.logs[s.db.rows[id].pr.value], s.db.rows[id].identity.value)
    ensures AllRecorded(s.(db := MarkRecorded(codec, s.db, id, occurrence).0))
    ensures MarkRecorded(codec, s.db, id, occurrence).0.workflows == s.db.workflows
  {
    var db' := MarkRecorded(codec, s.db, id, occurrence).0;
    assert db' == s.db || db' == Put(s.db, id, RecordedRow(s.db.rows[id]));
    forall other | other in db'.rows ensures RecordedInHistory(s.(db := db'), db'.rows[other]) {
      if other != id { assert RecordedInHistory(s, s.db.rows[other]); }
    }
  }

  lemma RecordingKeeps(codec: Codec, s: System, id: string, occurrence: int)
    requires SystemInv(codec, s) && id in s.db.rows
    requires s.db.rows[id].pr.Some? && s.db.rows[id].identity.Some? && s.db.rows[id].pr.value in s.logs
    requires Logged(s.logs[s.db.rows[id].pr.value], s.db.rows[id].identity.value)
    ensures SystemInv(codec, s.(db := MarkRecorded(codec, s.db, id, occurrence).0))
  {
    MarkRecordedKeepsInv(codec, s.db, id, occurrence);
    RecordingIsBacked(codec, s, id, occurrence);
    DatabaseStepKeeps(codec, s, MarkRecorded(codec, s.db, id, occurrence).0);
  }

  lemma OfferedKeeps(codec: Codec, s: System, id: string, pr: PrIdentity, b: BridgedDelivery, used: nat, next: int,
                     instant: Option<int>, crash: bool)
    requires SystemInv(codec, s) && pr in s.logs && WellBridged(b) && Fresh(s.logs[pr], next)
    requires id in s.db.rows && Claims(s.db.rows[id], b.identity, pr)
    ensures var (log', r) := AcceptDelivery(s.logs[pr], b, used, next, instant);
            var s1 := s.(logs := s.logs[pr := log']);
            && SystemInv(codec, s1)
            && (r.Ok? ==> SystemInv(codec, s1.(db := MarkRecorded(codec, s1.db, id, r.value.occurrence).0)))
  {
    var (log', r) := AcceptDelivery(s.logs[pr], b, used, next, instant);
    AcceptKeepsWellLogged(s.logs[pr], b, used, next, instant);
    assert Accounted(s.db, pr, s.logs[pr]);
    AcceptanceIsAccounted(s.db, s.logs[pr], id, b, pr, used, next, instant);
    LogStepKeeps(codec, s, pr, log');
    if r.Ok? {
      AcceptEffect(s.logs[pr], b, used, next, instant);
      RecordingKeeps(codec, s.(logs := s.logs[pr := log']), id, r.value.occurrence);
    }
  }

  lemma OfferShape(codec: Codec, s: System, id: string, used: nat, next: int, instant: Option<int>, crash: bool,
                   offer: Offer, b: BridgedDelivery)
    requires OfferFor(codec, s.db, id) == Ok(offer) && offer.Pending? && offer.pr in s.logs
    requires offer.prepared.observation.pr == offer.pr && offer.prepared.bridge == BRIDGE_IDENTITY
    requires BridgeHeadDelivery(codec, offer.prepared) == Ok(b)
    ensures var (log', r) := AcceptDelivery(s.logs[offer.pr], b, used, next, instant);
            var s1 := s.(logs := s.logs[offer.pr := log']);
            SystemStep(codec, s, OfferToHistory(id, used, next, instant, crash))
            == if r.Err? || crash then s1 else s1.(db := MarkRecorded(codec, s1.db, id, r.value.occurrence).0)
  {
    assert AcceptPrepared(codec, offer.pr, s.logs[offer.pr], offer.pr, offer.prepared, used, next, instant)
        == AcceptDelivery(s.logs[offer.pr], b, used, next, instant);
  }

  lemma OfferStepKeeps(codec: Codec, s: System, id: string, used: nat, next: int, instant: Option<int>, crash: bool)
    requires codec.Sound() && SystemInv(codec, s)
    requires Permitted(codec, s, OfferToHistory(id, used, next, instant, crash))
    ensures SystemInv(codec, SystemStep(codec, s, OfferToHistory(id, used, next, instant, crash)))
  {
    var offer := OfferFor(codec, s.db, id);
    if offer.Ok? && offer.value.Pending? {
      OfferIsClaimed(codec, s, id);
      var b := BridgeHeadDelivery(codec, offer.value.prepared).value;
      OfferShape(codec, s, id, used, next, instant, crash, offer.value, b);
      OfferedStateKeeps(codec, s, id, offer.value.pr, b, used, next, instant, crash,
                        SystemStep(codec, s, OfferToHistory(id, used, next, instant, crash)));
    } else {
      OfferDeclined(codec, s, id, used, next, instant, crash);
    }
  }

  lemma OfferedStateKeeps(codec: Codec, s: System, id: string, pr: PrIdentity, b: BridgedDelivery, used: nat, next: int,
                          instant: Option<int>, crash: bool, s': System)
    requires SystemInv(codec, s) && pr in s.logs && WellBridged(b) && Fresh(s.logs[pr], next)
    requires id in s.db.rows && Claims(s.db.rows[id], b.identity, pr)
    requires var (log', r) := AcceptDelivery(s.logs[pr], b, used, next, instant);
             var s1 := s.(logs := s.logs[pr := log']);
             s' == if r.Err? || crash then s1 else s1.(db := MarkRecorded(codec, s1.db, id, r.value.occurrence).0)
    ensures SystemInv(codec, s')
  {
    OfferedKeeps(codec, s, id, pr, b, used, next, instant, crash);
    var (log', r) := AcceptDelivery(s.logs[pr], b, used, next, instant);
    var s1 := s.(logs := s.logs[pr := log']);
    if r.Err? || crash {
      assert s' == s1;
    } else {
      assert s' == s1.(db := MarkRecorded(codec, s1.db, id, r.value.occurrence).0);
    }
  }

  lemma OfferDeclined(codec: Codec, s: System, id: string, used: nat, next: int, instant: Option<int>, crash: bool)
    requires OfferFor(codec, s.db, id).Err? || OfferFor(codec, s.db, id).value.Settled?
    ensures SystemStep(codec, s, OfferToHistory(id, used, next, instant, crash)) == s
  {
  }

  lemma OtherKeepsWellLogged(log: Log, record: Record)
    requires WellLogged(log) && Admissible(log, OtherRecord(record))
    ensures WellLogged(log + [record])
  {
    var q, at :| Represents(log, q, at);
    OtherRecordSimulates(log, Model(q, |log|), at, record);
    assert Represents(log + [record], q, at);
  }

  lemma OtherIsAccounted(db: Database, pr: PrIdentity, log: Log, record: Record)
    requires Accounted(db, pr, log) && !IsBridgeDelivery(record)
    ensures Accounted(db, pr, log + [record])
  {
    forall identity | Logged(log + [record], identity) ensures HasRow(db, identity, pr) {
      NothingNewLogged(log, log + [record], identity);
    }
  }

  lemma OtherStepKeeps(codec: Codec, s: System, pr: PrIdentity, record: Record)
    requires SystemInv(codec, s) && pr in s.logs && Admissible(s.logs[pr], OtherRecord(record))
    ensures SystemInv(codec, s.(logs := s.logs[pr := s.logs[pr] + [record]]))
  {
    assert WellLogged(s.logs[pr]) && Accounted(s.db, pr, s.logs[pr]);
    OtherKeepsWellLogged(s.logs[pr], record);
    OtherIsAccounted(s.db, pr, s.logs[pr], record);
    LogStepKeeps(codec, s, pr, s.logs[pr] + [record]);
  }

  // ---------------------------------------------------------------- whole runs

  lemma StepKeeps(codec: Codec, s: System, c: Command)
    requires codec.Sound() && SystemInv(codec, s) && Permitted(codec, s, c)
    ensures SystemInv(codec, SystemStep(codec, s, c))
  {
    match c
    case Receive(v, maximum) => ReceiveKeeps(codec, s, v, maximum);
    case RejectDelivery(id, reason, normalized) => RejectStepKeeps(codec, s, id, reason, normalized);
    case AuthorizeDelivery(a) => AuthorizeStepKeeps(codec, s, a);
    case OfferToHistory(id, used, next, instant, crash) => OfferStepKeeps(codec, s, id, used, next, instant, crash);
    case CompleteObservation(pr, used) => if pr in s.logs { CompleteStepKeeps(codec, s, pr, used); }
    case AppendOther(pr, record) => if pr in s.logs { OtherStepKeeps(codec, s, pr, record); }
    case OpenPullRequest(pr, action, maximum, opening, lost) =>
      OpenStepKeeps(codec, s, pr, action, maximum, opening, lost);
  }

  lemma {:induction false} RunKeeps(codec: Codec, commands: seq<Command>)
    requires codec.Sound() && PermittedRun(codec, EMPTY, commands)
    ensures SystemInv(codec, SystemRun(codec, EMPTY, commands))
  {
    if commands != [] {
      RunKeeps(codec, commands[..|commands| - 1]);
      StepKeeps(codec, SystemRun(codec, EMPTY, commands[..|commands| - 1]), commands[|commands| - 1]);
    }
  }
}
