/** One worker turn on one delivery: what the worker decides about it, and what the two stores
    hold afterwards. */
module WorkerTurn {
  import opened Outcomes
  import opened Intake
  import opened History
  import opened Runtime
  import opened Inbox
  import opened TwoStores
  import opened IntakeRuns

  datatype Failure = InboxFailure(inbox: InboxError) | HistoryFailure(runtime: RuntimeError) | Crashed

  /** The engine's and storage's answers for one offer to History. */
  datatype Engine = Engine(used: nat, next: int, instant: Option<int>, crash: bool)

  /** Why the worker refuses a delivery, with the webhook it had normalized by then. */
  datatype Refusal = Refusal(reason: string, normalized: Option<Webhook>)

  type Normalizer = Verified -> Result<Webhook, string>

  function AuthorizationFor(codec: Codec, d: Delivery, normalize: Normalizer, routes: map<ProviderRoute, string>,
                            policy: string): Result<Authorization, Refusal>
  {
    match normalize(d.verified)
    case Err(reason) => Err(Refusal(reason, None))
    case Ok(w) =>
      if w.route !in routes then Err(Refusal("route_not_configured", Some(w)))
      else
        match PrepareHeadIntake(codec, ProjectHead(w.snapshot), policy)
        case Err(UnsupportedHead) => Err(Refusal("unsupported_head_lifecycle", Some(w)))
        case Err(_) => Err(Refusal("workflow_projection_rejected", Some(w)))
        case Ok(prepared) => Ok(Authorization(d.verified.deliveryId, d.digest, routes[w.route], w, prepared))
  }

  // ---------------------------------------------------------------- what a turn means

  predicate Supported(s: Snapshot) {
    s.state == Open && !s.draft && !s.merged
  }

  predicate Undecided(row: Row) {
    !row.authorized && row.outcome.None?
  }

  /** What History receives for a webhook: its head and base commits, under this policy. */
  function DeliveryOf(codec: Codec, w: Webhook, policy: string): BridgedDelivery {
    var s := w.snapshot;
    var canonical := codec.observationJson(
      HeadObservation(s.pr, s.head, s.base, s.state, s.draft, s.merged, s.mergeable));
    BridgedDelivery(
      "on_head", Token("HeadSeen", HeadSeen(s.head.sha, s.base.sha, s.mergeable == Some(true), policy, true, false)),
      IdentityFor(codec, KeyFor(codec, canonical), policy))
  }

  /** A row that holds a webhook, its route and its intake under a policy. */
  function Holding(codec: Codec, row: Row, w: Webhook, route: string, policy: string): Row {
    var s := w.snapshot;
    var canonical := codec.observationJson(
      HeadObservation(s.pr, s.head, s.base, s.state, s.draft, s.merged, s.mergeable));
    row.(normalized := Some(codec.webhookJson(w)), route := Some(route), pr := Some(s.pr),
         key := Some(KeyFor(codec, canonical)), canonical := Some(canonical), policy := Some(policy),
         bridge := Some(BRIDGE_IDENTITY), identity := Some(DeliveryOf(codec, w, policy).identity))
  }

  predicate Reports(r: Result<IntakeResult, Failure>, id: string, row: Row) {
    && r.Ok? && r.value.deliveryId == id && row.outcome == Some(r.value.outcome)
    && row.reason == Some(r.value.reason)
  }

  /** One row was written, and the answer reports it. */
  predicate Wrote(s: System, s': System, id: string, row: Row, r: Result<IntakeResult, Failure>) {
    s' == s.(db := Put(s.db, id, row)) && Reports(r, id, row)
  }

  predicate RefusedWith(codec: Codec, s: System, s': System, id: string, reason: string, w: Option<Webhook>,
                        r: Result<IntakeResult, Failure>)
    requires id in s.db.rows
  {
    var kept := if w.Some? then Some(codec.webhookJson(w.value)) else None;
    Wrote(s, s', id, s.db.rows[id].(normalized := kept, outcome := Some(Rejected), reason := Some(reason)), r)
  }

  /** A delivery History does not know needs room for two more records. */
  predicate Room(log: Log, known: bool, used: nat) {
    |log| + (if known then 0 else 2) <= MAX_RECORDS && used + (if known then 0 else HEADROOM) <= MAX_BYTES
  }

  /** An authorized row's delivery reaches its pull request's History, once; then the row is recorded. */
  ghost predicate Offering(s: System, s': System, id: string, b: BridgedDelivery, e: Engine,
                           r: Result<IntakeResult, Failure>)
  {
    && id in s.db.rows && s.db.rows[id].pr.Some? && s.db.rows[id].pr.value in s.logs
    && var row, pr := s.db.rows[id], s.db.rows[id].pr.value;
       var log := s.logs[pr];
       var known := Logged(log, b.identity);
       if !Room(log, known, e.used) then s' == s && r == Err(HistoryFailure(HistoryCapacity))
       else
         && s'.logs == (if known then s.logs
                        else s.logs[pr := log + [Delivered(Entry(b, e.next, e.instant, false)),
                                                 Begun(b.source, e.next, e.instant)]])
         && pr in s'.logs && Logged(s'.logs[pr], b.identity)
         && if e.crash then s'.db == s.db && r == Err(Crashed)
            else
              var recorded := row.(outcome := Some(Recorded), reason := Some("accepted_by_history"));
              s'.db == Put(s.db, id, recorded) && Reports(r, id, recorded)
  }

  /** A supported webhook of a configured route and a registered pull request. Another row may own
      its observation already; otherwise this row takes it and offers it. */
  ghost predicate Admitted(codec: Codec, s: System, s': System, id: string, w: Webhook, route: string, policy: string,
                           e: Engine, r: Result<IntakeResult, Failure>)
    requires id in s.db.rows
  {
    var held := Holding(codec, s.db.rows[id], w, route, policy);
    && (forall owner :: Owns(s.db, owner, held.key.value) ==>
          Wrote(s, s', id,
                if s.db.rows[owner].canonical == held.canonical
                then held.(outcome := Some(Duplicate), reason := Some("same_observation"), duplicateOf := Some(owner))
                else held.(outcome := Some(Rejected), reason := Some("observation_key_collision")), r))
    && ((forall owner :: !Owns(s.db, owner, held.key.value)) ==>
          Offering(s.(db := Put(s.db, id, held.(authorized := true))), s', id, DeliveryOf(codec, w, policy), e, r))
  }

  ghost predicate Decided(codec: Codec, s: System, s': System, id: string, n: Result<Webhook, string>,
                          routes: map<ProviderRoute, string>, policy: string, e: Engine,
                          r: Result<IntakeResult, Failure>)
    requires id in s.db.rows
  {
    match n
    case Err(reason) =>
      if 1 <= |reason| <= MAX_REASON then RefusedWith(codec, s, s', id, reason, None, r)
      else s' == s && r == Err(InboxFailure(BadReason))
    case Ok(w) =>
      if w.deliveryId != id then s' == s && r.Err?
      else if w.route !in routes then RefusedWith(codec, s, s', id, "route_not_configured", Some(w), r)
      else if !Supported(w.snapshot) then RefusedWith(codec, s, s', id, "unsupported_head_lifecycle", Some(w), r)
      else if w.snapshot.pr !in s.db.workflows then s' == s && r == Err(InboxFailure(NotRegistered))
      else Admitted(codec, s, s', id, w, routes[w.route], policy, e, r)
  }

  /** A whole turn: a concluded delivery is reported as it stands, an authorized one is offered
      again, and one with neither is decided from what its evidence normalizes to. */
  ghost predicate Turn(codec: Codec, s: System, s': System, id: string, normalize: Normalizer,
                       routes: map<ProviderRoute, string>, policy: string, e: Engine,
                       r: Result<IntakeResult, Failure>)
  {
    if id !in s.db.rows then s' == s && r == Err(InboxFailure(DeliveryNotFound))
    else
      var row := s.db.rows[id];
      if row.outcome.Some? then s' == s && Reports(r, id, row)
      else if row.authorized then
        exists b: BridgedDelivery :: Some(b.identity) == row.identity && Offering(s, s', id, b, e, r)
      else Decided(codec, s, s', id, normalize(Verified(id, row.event, row.body)), routes, policy, e, r)
  }

  // ---------------------------------------------------------------- refusals

  lemma AuthorizationOutcome(codec: Codec, d: Delivery, normalize: Normalizer, routes: map<ProviderRoute, string>,
                             policy: string)
    ensures var n, a := normalize(d.verified), AuthorizationFor(codec, d, normalize, routes, policy);
            match n
            case Err(reason) => a == Err(Refusal(reason, None))
            case Ok(w) =>
              if w.route !in routes then a == Err(Refusal("route_not_configured", Some(w)))
              else if !Supported(w.snapshot) then a == Err(Refusal("unsupported_head_lifecycle", Some(w)))
              else a.Ok? && Builds(codec, a.value, d, w, routes[w.route], policy)
  {
  }

  predicate Builds(codec: Codec, a: Authorization, d: Delivery, w: Webhook, route: string, policy: string) {
    && a.deliveryId == d.verified.deliveryId && a.digest == d.digest && a.route == route && a.normalized == w
    && a.prepared.policy == policy && WorkerBuilt(codec, a)
  }

  ghost function Lifted<T>(r: Result<T, InboxError>): Result<T, Failure> {
    match r
    case Ok(v) => Ok(v)
    case Err(e) => Err(InboxFailure(e))
  }

  lemma RejectedReads(codec: Codec, id: string, row: Row, reason: string, w: Option<Webhook>)
    requires codec.Sound() && RowInv(codec, id, row) && Undecided(row)
    ensures var r := Reconstruct(codec, id, RejectedRow(codec, row, reason, w));
            if w.Some? && w.value.deliveryId != id then r == Err(CorruptRow)
            else r.Ok? && r.value.outcome == Some(Rejected) && r.value.reason == Some(reason)
                 && r.value.verified.deliveryId == id
  {
    var written := RejectedRow(codec, row, reason, w);
    assert PreparedFromRow(codec, written) == Ok(None);
    assert NormalizedFromRow(codec, written) == Ok(w);
  }

  lemma RejectionOutcome(codec: Codec, s: System, id: string, reason: string, w: Option<Webhook>)
    requires codec.Sound() && Inv(codec, s.db) && id in s.db.rows && Undecided(s.db.rows[id])
    ensures var (db', r) := Reject(codec, s.db, id, reason, w);
            if !(1 <= |reason| <= MAX_REASON) then db' == s.db && r == Err(BadReason)
            else if w.Some? && w.value.deliveryId != id then db' == s.db && r.Err?
            else RefusedWith(codec, s, s.(db := db'), id, reason, w, Lifted(r))
  {
    assert RowInv(codec, id, s.db.rows[id]);
    RejectedReads(codec, id, s.db.rows[id], reason, w);
  }

  // ---------------------------------------------------------------- authorization

  lemma WorkerBuiltHolds(codec: Codec, row: Row, a: Authorization)
    requires WorkerBuilt(codec, a)
    ensures AuthorizedColumns(codec, row, a)
         == Holding(codec, row, a.normalized, a.route, a.prepared.policy)
    ensures a.prepared.observation.pr == a.normalized.snapshot.pr
    ensures BridgeHeadDelivery(codec, a.prepared) == Ok(DeliveryOf(codec, a.normalized, a.prepared.policy))
  {
  }

  /** Authorizing an undecided row: an unowned observation is granted, an owned one concluded. */
  lemma AuthorizationIs(codec: Codec, db: Database, a: Authorization)
    requires codec.Sound() && Inv(codec, db) && a.deliveryId in db.rows && Undecided(db.rows[a.deliveryId])
    requires WorkerBuilt(codec, a) && a.digest == db.rows[a.deliveryId].digest
    ensures var (db', r) := Authorize(codec, db, a);
            if a.normalized.deliveryId != a.deliveryId then db' == db && r == Err(ProvenanceMismatch)
            else if a.prepared.observation.pr !in db.workflows then db' == db && r == Err(NotRegistered)
            else
              var row := ClassifiedRow(codec, db.rows[a.deliveryId], a, OwnerColumns(db, a.prepared.key));
              var d := Reconstruct(codec, a.deliveryId, row);
              && db' == Put(db, a.deliveryId, row) && d.Ok?
              && r == Ok(if row.outcome.Some? then Concluded(ResultOf(d.value, None)) else Granted(d.value))
  {
    var row := db.rows[a.deliveryId];
    assert RowInv(codec, a.deliveryId, row);
    if a.normalized.deliveryId == a.deliveryId {
      AuthorizedRoundTrip(codec, row, a, OwnerColumns(db, a.prepared.key));
    }
  }

  /** The classification of an owned observation, by the owner's columns. */
  lemma OwnedIsConcluded(codec: Codec, s: System, a: Authorization, owner: string)
    requires codec.Sound() && Inv(codec, s.db) && a.deliveryId in s.db.rows && Undecided(s.db.rows[a.deliveryId])
    requires WorkerBuilt(codec, a) && a.digest == s.db.rows[a.deliveryId].digest
    requires a.normalized.deliveryId == a.deliveryId && a.prepared.observation.pr in s.db.workflows
    requires Owns(s.db, owner, a.prepared.key)
    ensures var (db', r) := Authorize(codec, s.db, a);
            var held := Holding(codec, s.db.rows[a.deliveryId], a.normalized, a.route, a.prepared.policy);
            && r.Ok? && r.value.Concluded?
            && Wrote(s, s.(db := db'), a.deliveryId,
                     if s.db.rows[owner].canonical == held.canonical
                     then held.(outcome := Some(Duplicate), reason := Some("same_observation"),
                                duplicateOf := Some(owner))
                     else held.(outcome := Some(Rejected), reason := Some("observation_key_collision")),
                     Ok(r.value.result))
  {
    AuthorizationIs(codec, s.db, a);
    WorkerBuiltHolds(codec, s.db.rows[a.deliveryId], a);
    assert Owner(s.db, a.prepared.key) == Some(owner) by {
      assert Owner(s.db, a.prepared.key).Some?;
      assert Owns(s.db, Owner(s.db, a.prepared.key).value, a.prepared.key);
    }
  }

  lemma UnownedIsGranted(codec: Codec, db: Database, a: Authorization)
    requires codec.Sound() && Inv(codec, db) && a.deliveryId in db.rows && Undecided(db.rows[a.deliveryId])
    requires WorkerBuilt(codec, a) && a.digest == db.rows[a.deliveryId].digest
    requires a.normalized.deliveryId == a.deliveryId && a.prepared.observation.pr in db.workflows
    requires forall owner :: !Owns(db, owner, a.prepared.key)
    ensures var (db', r) := Authorize(codec, db, a);
            var held := Holding(codec, db.rows[a.deliveryId], a.normalized, a.route, a.prepared.policy);
            r.Ok? && r.value.Granted? && db' == Put(db, a.deliveryId, held.(authorized := true))
  {
    AuthorizationIs(codec, db, a);
    WorkerBuiltHolds(codec, db.rows[a.deliveryId], a);
    assert Owner(db, a.prepared.key).None?;
    assert RowInv(codec, a.deliveryId, db.rows[a.deliveryId]);
  }

  // ---------------------------------------------------------------- the offer

  /** What `record_in_history` answers. */
  ghost function OfferReply(codec: Codec, s: System, id: string, e: Engine): Result<IntakeResult, Failure> {
    var offer := OfferFor(codec, s.db, id);
    if offer.Err? then Err(InboxFailure(offer.error))
    else if offer.value.Settled? then Ok(offer.value.result)
    else if offer.value.pr !in s.logs then Err(InboxFailure(NotRegistered))
    else
      var accepted := AcceptPrepared(codec, offer.value.pr, s.logs[offer.value.pr], offer.value.pr,
                                     offer.value.prepared, e.used, e.next, e.instant).1;
      if accepted.Err? then Err(HistoryFailure(accepted.error))
      else if e.crash then Err(Crashed)
      else Lifted(MarkRecorded(codec, s.db, id, accepted.value.occurrence).1)
  }

  lemma EntryIsLogged(log: Log, q: Queue, at: seq<nat>, k: nat)
    requires Represents(log, q, at) && k < |q|
    ensures Logged(log, q[k].bridged.identity)
  {
    EntryAt(log, q, at, k);
    FocusedIdentity(q[k].bridged);
    assert IsBridgeDelivery(log[at[k]]) && log[at[k]].identity == q[k].bridged.identity;
  }

  /** Acceptance by what the log shows: a known delivery adds nothing, a new one two records. */
  lemma AcceptanceByRoom(log: Log, b: BridgedDelivery, used: nat, next: int, instant: Option<int>)
    requires WellLogged(log) && WellBridged(b)
    ensures var (log', r) := AcceptDelivery(log, b, used, next, instant);
            var known := Logged(log, b.identity);
            if !Room(log, known, used) then log' == log && r == Err(HistoryCapacity)
            else r.Ok? && log' == if known then log
                                  else log + [Delivered(Entry(b, next, instant, false)), Begun(b.source, next, instant)]
  {
    var q: Queue, at :| Represents(log, q, at);
    assert ParseLog(log) == Ok(Observed(q)) by { ParseRefinesQueue(log, q, at); }
    if Logged(log, b.identity) {
      var k := LoggedEntry(log, q, at, b.identity);
      if Room(log, true, used) { AcceptKnown(log, q, at, k, b, used, next, instant); }
    } else {
      forall k | 0 <= k < |q| ensures q[k].bridged.identity != b.identity { EntryIsLogged(log, q, at, k); }
      AcceptUnknown(log, q, at, b, used, next, instant);
    }
  }

  lemma ReplyIs(codec: Codec, s: System, id: string, prepared: PreparedIntake, b: BridgedDelivery, e: Engine)
    requires OfferFor(codec, s.db, id) == Ok(Pending(prepared.observation.pr, prepared))
    requires prepared.observation.pr in s.logs && prepared.bridge == BRIDGE_IDENTITY
    requires BridgeHeadDelivery(codec, prepared) == Ok(b)
    ensures var r := AcceptDelivery(s.logs[prepared.observation.pr], b, e.used, e.next, e.instant).1;
            OfferReply(codec, s, id, e)
            == if r.Err? then Err(HistoryFailure(r.error)) else if e.crash then Err(Crashed)
               else Lifted(MarkRecorded(codec, s.db, id, r.value.occurrence).1)
  {
    var pr := prepared.observation.pr;
    assert AcceptPrepared(codec, pr, s.logs[pr], pr, prepared, e.used, e.next, e.instant)
        == AcceptDelivery(s.logs[pr], b, e.used, e.next, e.instant);
  }

  /** Offering an authorized row, by the prepared intake its columns give. */
  lemma OfferedByRoom(codec: Codec, s: System, id: string, prepared: PreparedIntake, b: BridgedDelivery, e: Engine)
    requires OfferFor(codec, s.db, id) == Ok(Pending(prepared.observation.pr, prepared))
    requires id in s.db.rows && s.db.rows[id].pr == Some(prepared.observation.pr)
    requires prepared.observation.pr in s.logs && WellLogged(s.logs[prepared.observation.pr])
    requires BridgeHeadDelivery(codec, prepared) == Ok(b) && WellBridged(b) && prepared.bridge == BRIDGE_IDENTITY
    ensures Offering(s, SystemStep(codec, s, OfferToHistory(id, e.used, e.next, e.instant, e.crash)), id, b, e,
                     OfferReply(codec, s, id, e))
  {
    var pr := prepared.observation.pr;
    var log := s.logs[pr];
    AcceptanceByRoom(log, b, e.used, e.next, e.instant);
    var (log', r) := AcceptDelivery(log, b, e.used, e.next, e.instant);
    ReplyIs(codec, s, id, prepared, b, e);
    OfferShape(codec, s, id, e.used, e.next, e.instant, e.crash, Pending(pr, prepared), b);
    assert s.logs[pr := log] == s.logs;
    if r.Ok? {
      AcceptedIsLogged(log, b, e.used, e.next, e.instant);
      RecordingIs(codec, s.db, id, r.value.occurrence);
    }
  }

  lemma AcceptedIsLogged(log: Log, b: BridgedDelivery, used: nat, next: int, instant: Option<int>)
    requires WellLogged(log) && WellBridged(b) && AcceptDelivery(log, b, used, next, instant).1.Ok?
    ensures Logged(AcceptDelivery(log, b, used, next, instant).0, b.identity)
  {
    AcceptanceByRoom(log, b, used, next, instant);
    FocusedIdentity(b);
    if !Logged(log, b.identity) {
      var log' := AcceptDelivery(log, b, used, next, instant).0;
      assert IsBridgeDelivery(log'[|log|]) && log'[|log|].identity == b.identity;
    }
  }

  lemma RecordingIs(codec: Codec, db: Database, id: string, occurrence: int)
    requires OfferFor(codec, db, id).Ok? && OfferFor(codec, db, id).value.Pending?
    ensures var (db', r) := MarkRecorded(codec, db, id, occurrence);
            var recorded := db.rows[id].(outcome := Some(Recorded), reason := Some("accepted_by_history"));
            db' == Put(db, id, recorded) && Reports(Lifted(r), id, recorded)
  {
    RecordingSucceeds(codec, db, id, occurrence);
  }

  /** An authorized row without an outcome offers the intake its columns give. */
  lemma AuthorizedIsOffered(codec: Codec, s: System, id: string) returns (prepared: PreparedIntake)
    requires codec.Sound() && SystemInv(codec, s)
    requires id in s.db.rows && s.db.rows[id].authorized && s.db.rows[id].outcome.None?
    ensures OfferFor(codec, s.db, id) == Ok(Pending(prepared.observation.pr, prepared))
    ensures s.db.rows[id].pr == Some(prepared.observation.pr) && s.db.rows[id].identity == Some(prepared.identity)
    ensures prepared.observation.pr in s.logs && WellLogged(s.logs[prepared.observation.pr])
    ensures BridgeHeadDelivery(codec, prepared).Ok? && WellBridged(BridgeHeadDelivery(codec, prepared).value)
    ensures BridgeHeadDelivery(codec, prepared).value.identity == prepared.identity
    ensures prepared.bridge == BRIDGE_IDENTITY
    ensures PreparedFromRow(codec, s.db.rows[id]) == Ok(Some(prepared))
  {
    var row := s.db.rows[id];
    assert RowInv(codec, id, row) && PointsToOwner(s.db, row);
    AuthorizedColumnsAgree(codec, id, row);
    prepared := PreparedFromRow(codec, row).value.value;
    BridgedIsWellFormed(codec, prepared);
  }

  /** A turn on an authorized row is one offer. */
  lemma OfferTurn(codec: Codec, s: System, id: string, e: Engine)
    requires codec.Sound() && SystemInv(codec, s)
    requires id in s.db.rows && s.db.rows[id].authorized && s.db.rows[id].outcome.None?
    ensures var s' := SystemStep(codec, s, OfferToHistory(id, e.used, e.next, e.instant, e.crash));
            exists b: BridgedDelivery :: Some(b.identity) == s.db.rows[id].identity
                                         && Offering(s, s', id, b, e, OfferReply(codec, s, id, e))
  {
    var prepared := AuthorizedIsOffered(codec, s, id);
    var b := BridgeHeadDelivery(codec, prepared).value;
    OfferedByRoom(codec, s, id, prepared, b, e);
    assert Some(b.identity) == s.db.rows[id].identity;
  }

  /** A row just granted offers the delivery of its webhook. */
  lemma GrantedTurn(codec: Codec, s: System, row: Row, a: Authorization, e: Engine)
    requires codec.Sound() && SystemInv(codec, s) && WorkerBuilt(codec, a)
    requires codec.sha256(row.body) == row.digest && a.normalized.deliveryId == a.deliveryId && row.outcome.None?
    requires a.deliveryId in s.db.rows && s.db.rows[a.deliveryId] == ClassifiedRow(codec, row, a, None)
    ensures var id := a.deliveryId;
            Offering(s, SystemStep(codec, s, OfferToHistory(id, e.used, e.next, e.instant, e.crash)), id,
                     DeliveryOf(codec, a.normalized, a.prepared.policy), e, OfferReply(codec, s, id, e))
  {
    var prepared := AuthorizedIsOffered(codec, s, a.deliveryId);
    AuthorizedRoundTrip(codec, row, a, None);
    assert prepared == a.prepared;
    WorkerBuiltHolds(codec, row, a);
    OfferedByRoom(codec, s, a.deliveryId, prepared, DeliveryOf(codec, a.normalized, a.prepared.policy), e);
  }

  // ---------------------------------------------------------------- whole turns

  lemma RefusalTurn(codec: Codec, s: System, id: string, d: Delivery, normalize: Normalizer,
                    routes: map<ProviderRoute, string>, policy: string, e: Engine)
    requires codec.Sound() && Inv(codec, s.db) && id in s.db.rows && Undecided(s.db.rows[id])
    requires Reconstruct(codec, id, s.db.rows[id]) == Ok(d)
    requires AuthorizationFor(codec, d, normalize, routes, policy).Err?
    ensures var refusal := AuthorizationFor(codec, d, normalize, routes, policy).error;
            var (db', r) := Reject(codec, s.db, id, refusal.reason, refusal.normalized);
            Turn(codec, s, s.(db := db'), id, normalize, routes, policy, e, Lifted(r))
  {
    AuthorizationOutcome(codec, d, normalize, routes, policy);
    var refusal := AuthorizationFor(codec, d, normalize, routes, policy).error;
    RejectionOutcome(codec, s, id, refusal.reason, refusal.normalized);
  }

  /** The worker's authorization of an undecided row, as `Decided` sees it. */
  lemma BuiltFor(codec: Codec, s: System, id: string, d: Delivery, normalize: Normalizer,
                 routes: map<ProviderRoute, string>, policy: string)
    requires id in s.db.rows && Reconstruct(codec, id, s.db.rows[id]) == Ok(d)
    requires AuthorizationFor(codec, d, normalize, routes, policy).Ok?
    ensures var a := AuthorizationFor(codec, d, normalize, routes, policy).value;
            var w := a.normalized;
            && a.deliveryId == id && a.digest == s.db.rows[id].digest && WorkerBuilt(codec, a)
            && normalize(Verified(id, s.db.rows[id].event, s.db.rows[id].body)) == Ok(w)
            && w.route in routes && a.route == routes[w.route] && a.prepared.policy == policy
            && Supported(w.snapshot) && a.prepared.observation.pr == w.snapshot.pr
  {
    AuthorizationOutcome(codec, d, normalize, routes, policy);
  }

  lemma DeniedTurn(codec: Codec, s: System, a: Authorization, n: Result<Webhook, string>,
                   routes: map<ProviderRoute, string>, e: Engine)
    requires codec.Sound() && Inv(codec, s.db) && a.deliveryId in s.db.rows && Undecided(s.db.rows[a.deliveryId])
    requires WorkerBuilt(codec, a) && a.digest == s.db.rows[a.deliveryId].digest && n == Ok(a.normalized)
    requires a.normalized.route in routes && Supported(a.normalized.snapshot)
    requires Authorize(codec, s.db, a).1.Err?
    ensures Authorize(codec, s.db, a).0 == s.db
    ensures Decided(codec, s, s, a.deliveryId, n, routes, a.prepared.policy, e,
                    Err(InboxFailure(Authorize(codec, s.db, a).1.error)))
  {
    AuthorizationIs(codec, s.db, a);
  }

  lemma ConcludedTurn(codec: Codec, s: System, a: Authorization, n: Result<Webhook, string>,
                      routes: map<ProviderRoute, string>, e: Engine)
    requires codec.Sound() && Inv(codec, s.db) && a.deliveryId in s.db.rows && Undecided(s.db.rows[a.deliveryId])
    requires WorkerBuilt(codec, a) && a.digest == s.db.rows[a.deliveryId].digest && n == Ok(a.normalized)
    requires a.normalized.route in routes && a.route == routes[a.normalized.route] && Supported(a.normalized.snapshot)
    requires Authorize(codec, s.db, a).1.Ok? && Authorize(codec, s.db, a).1.value.Concluded?
    ensures Decided(codec, s, s.(db := Authorize(codec, s.db, a).0), a.deliveryId, n, routes, a.prepared.policy, e,
                    Ok(Authorize(codec, s.db, a).1.value.result))
  {
    var owner := ConcludedIsOwned(codec, s.db, a);
    OwnedIsConcluded(codec, s, a, owner);
    WorkerBuiltHolds(codec, s.db.rows[a.deliveryId], a);
    assert forall other :: Owns(s.db, other, a.prepared.key) ==> other == owner;
  }

  lemma ConcludedIsOwned(codec: Codec, db: Database, a: Authorization) returns (owner: string)
    requires codec.Sound() && Inv(codec, db) && a.deliveryId in db.rows && Undecided(db.rows[a.deliveryId])
    requires WorkerBuilt(codec, a) && a.digest == db.rows[a.deliveryId].digest
    requires Authorize(codec, db, a).1.Ok? && Authorize(codec, db, a).1.value.Concluded?
    ensures Owns(db, owner, a.prepared.key)
    ensures a.normalized.deliveryId == a.deliveryId && a.prepared.observation.pr in db.workflows
  {
    AuthorizationIs(codec, db, a);
    if forall other :: !Owns(db, other, a.prepared.key) { UnownedIsGranted(codec, db, a); }
    owner :| Owns(db, owner, a.prepared.key);
  }

  lemma GrantThenOffer(codec: Codec, s: System, a: Authorization, n: Result<Webhook, string>,
                       routes: map<ProviderRoute, string>, e: Engine)
    requires codec.Sound() && Inv(codec, s.db) && a.deliveryId in s.db.rows && Undecided(s.db.rows[a.deliveryId])
    requires WorkerBuilt(codec, a) && a.digest == s.db.rows[a.deliveryId].digest && n == Ok(a.normalized)
    requires a.normalized.route in routes && a.route == routes[a.normalized.route] && Supported(a.normalized.snapshot)
    requires Authorize(codec, s.db, a).1.Ok? && Authorize(codec, s.db, a).1.value.Granted?
    requires SystemInv(codec, s.(db := Authorize(codec, s.db, a).0))
    ensures var id, s1 := a.deliveryId, s.(db := Authorize(codec, s.db, a).0);
            Decided(codec, s, SystemStep(codec, s1, OfferToHistory(id, e.used, e.next, e.instant, e.crash)), id, n,
                    routes, a.prepared.policy, e, OfferReply(codec, s1, id, e))
  {
    var id, s1 := a.deliveryId, s.(db := Authorize(codec, s.db, a).0);
    AuthorizationIs(codec, s.db, a);
    GrantIsUnowned(codec, s, a);
    UnownedIsGranted(codec, s.db, a);
    WorkerBuiltHolds(codec, s.db.rows[id], a);
    assert RowInv(codec, id, s.db.rows[id]);
    GrantedTurn(codec, s1, s.db.rows[id], a, e);
  }

  lemma GrantIsUnowned(codec: Codec, s: System, a: Authorization)
    requires codec.Sound() && Inv(codec, s.db) && a.deliveryId in s.db.rows && Undecided(s.db.rows[a.deliveryId])
    requires WorkerBuilt(codec, a) && a.digest == s.db.rows[a.deliveryId].digest
    requires Authorize(codec, s.db, a).1.Ok? && Authorize(codec, s.db, a).1.value.Granted?
    ensures forall owner :: !Owns(s.db, owner, a.prepared.key)
  {
    AuthorizationIs(codec, s.db, a);
    forall owner | Owns(s.db, owner, a.prepared.key) ensures false { OwnedIsConcluded(codec, s, a, owner); }
  }
}
