/** The durable Webhook Inbox: raw evidence stored once, one intake owner per observation key,
    and rows that always reconstruct. Every operation is one application transaction; an error
    rolls it back. */
module Inbox {
  import opened Outcomes
  import opened Intake

  const MAX_REASON: nat := 128

  datatype Outcome = Recorded | Duplicate | Rejected

  datatype Verified = Verified(deliveryId: string, event: string, body: string)

  datatype Row = Row(
    sequence: nat, event: string, body: string, digest: string, collision: Option<string>,
    normalized: Option<string>, route: Option<string>, pr: Option<PrIdentity>,
    key: Option<string>, canonical: Option<string>, policy: Option<string>,
    bridge: Option<string>, identity: Option<string>,
    authorized: bool, outcome: Option<Outcome>, reason: Option<string>, duplicateOf: Option<string>)

  datatype Database = Database(rows: map<string, Row>, workflows: map<PrIdentity, string>)

  /** A reconstructed row. */
  datatype Delivery = Delivery(
    sequence: nat, verified: Verified, digest: string, collision: Option<string>,
    normalized: Option<Webhook>, route: Option<string>, prepared: Option<PreparedIntake>,
    authorized: bool, outcome: Option<Outcome>, reason: Option<string>, duplicateOf: Option<string>)

  datatype Authorization = Authorization(
    deliveryId: string, digest: string, route: string, normalized: Webhook, prepared: PreparedIntake)

  datatype InboxError =
    | CapacityExhausted | CorruptRow | DeliveryNotFound | AuthorizedCannotBeRejected | DigestMismatch
    | ProvenanceMismatch | NotRegistered | AuthorizedMismatch | NoAuthority | BadReason | ActionConflict

  datatype Disposition = Received | SameAgain | Collision

  datatype Receipt = Receipt(deliveryId: string, sequence: nat, disposition: Disposition)

  datatype IntakeResult = IntakeResult(
    deliveryId: string, outcome: Outcome, reason: string, pr: Option<PrIdentity>,
    key: Option<string>, identity: Option<string>, occurrence: Option<int>)

  datatype Decision = Granted(delivery: Delivery) | Concluded(result: IntakeResult)

  // ---------------------------------------------------------------- reconstruction

  function NormalizedFromRow(codec: Codec, row: Row): Result<Option<Webhook>, InboxError> {
    match row.normalized
    case None => Ok(None)
    case Some(content) =>
      match codec.webhookFromJson(content)
      case None => Err(CorruptRow)
      case Some(webhook) => if codec.webhookJson(webhook) == content then Ok(Some(webhook)) else Err(CorruptRow)
  }

  function PreparedFromRow(codec: Codec, row: Row): Result<Option<PreparedIntake>, InboxError> {
    if row.key.None? && row.canonical.None? && row.policy.None? && row.bridge.None? && row.identity.None?
    then Ok(None)
    else if row.key.None? || row.canonical.None? || row.policy.None? || row.bridge.None? || row.identity.None?
    then Err(CorruptRow)
    else
      match codec.observationFromJson(row.canonical.value)
      case None => Err(CorruptRow)
      case Some(observation) =>
        var prepared := PreparedIntake(observation, row.key.value, row.canonical.value, row.policy.value,
                                       row.bridge.value, row.identity.value);
        if BridgeHeadDelivery(codec, prepared).Ok? then Ok(Some(prepared)) else Err(CorruptRow)
  }

  predicate PreparedMatches(codec: Codec, prepared: PreparedIntake, normalized: Webhook) {
    PrepareHeadIntake(codec, ProjectHead(normalized.snapshot), prepared.policy) == Ok(prepared)
  }

  function Reconstruct(codec: Codec, id: string, row: Row): Result<Delivery, InboxError> {
    match (NormalizedFromRow(codec, row), PreparedFromRow(codec, row))
    case (Ok(normalized), Ok(prepared)) =>
      if && codec.sha256(row.body) == row.digest
         && (normalized.Some? ==> normalized.value.deliveryId == id)
         && (prepared.Some? ==>
               && normalized.Some? && row.route.Some?
               && PreparedMatches(codec, prepared.value, normalized.value)
               && row.pr == Some(prepared.value.observation.pr))
      then Ok(Delivery(row.sequence, Verified(id, row.event, row.body), row.digest, row.collision, normalized,
                       row.route, prepared, row.authorized, row.outcome, row.reason, row.duplicateOf))
      else Err(CorruptRow)
    case _ => Err(CorruptRow)
  }

  function RequireDelivery(codec: Codec, db: Database, id: string): Result<Delivery, InboxError> {
    if id !in db.rows then Err(DeliveryNotFound) else Reconstruct(codec, id, db.rows[id])
  }

  function ResultOf(d: Delivery, occurrence: Option<int>): IntakeResult
    requires d.outcome.Some?
  {
    IntakeResult(
      d.verified.deliveryId, d.outcome.value, if d.reason.Some? then d.reason.value else "missing_intake_reason",
      if d.prepared.Some? then Some(d.prepared.value.observation.pr) else None,
      if d.prepared.Some? then Some(d.prepared.value.key) else None,
      if d.authorized && d.prepared.Some? then Some(d.prepared.value.identity) else None,
      occurrence)
  }

  // ---------------------------------------------------------------- operations

  function FirstRow(codec: Codec, db: Database, v: Verified): Row {
    Row(|db.rows| + 1, v.event, v.body, codec.sha256(v.body), None, None, None, None, None, None, None, None, None,
        false, None, None, None)
  }

  function WithCollision(row: Row, digest: string): Row {
    if row.collision.Some? then row
    else if !row.authorized && row.outcome.None?
    then row.(collision := Some(digest), outcome := Some(Rejected), reason := Some("delivery_collision"))
    else row.(collision := Some(digest))
  }

  function Put(db: Database, id: string, row: Row): Database {
    db.(rows := db.rows[id := row])
  }

  function RecordDelivery(codec: Codec, db: Database, v: Verified, maximum: nat)
    : (Database, Result<Receipt, InboxError>)
  {
    var digest := codec.sha256(v.body);
    if v.deliveryId in db.rows then
      var row := db.rows[v.deliveryId];
      if Reconstruct(codec, v.deliveryId, row).Err? then (db, Err(CorruptRow))
      else if row.event == v.event && row.body == v.body && row.digest == digest
      then (db, Ok(Receipt(v.deliveryId, row.sequence, SameAgain)))
      else (Put(db, v.deliveryId, WithCollision(row, digest)), Ok(Receipt(v.deliveryId, row.sequence, Collision)))
    else if |db.rows| >= maximum then (db, Err(CapacityExhausted))
    else (Put(db, v.deliveryId, FirstRow(codec, db, v)), Ok(Receipt(v.deliveryId, |db.rows| + 1, Received)))
  }

  function RejectedRow(codec: Codec, row: Row, reason: string, normalized: Option<Webhook>): Row {
    row.(normalized := if row.normalized.Some? then row.normalized
                       else if normalized.Some? then Some(codec.webhookJson(normalized.value)) else None,
         outcome := Some(Rejected), reason := Some(reason))
  }

  /** Write one row and reconstruct it; a row that would not reconstruct is not committed. */
  function CommitRow(codec: Codec, db: Database, id: string, row: Row): (Database, Result<Delivery, InboxError>) {
    match Reconstruct(codec, id, row)
    case Err(e) => (db, Err(e))
    case Ok(d) => (Put(db, id, row), Ok(d))
  }

  function RecordRejection(codec: Codec, db: Database, d: Delivery, reason: string, normalized: Option<Webhook>)
    : (Database, Result<Delivery, InboxError>)
    requires d.verified.deliveryId in db.rows
  {
    var id := d.verified.deliveryId;
    if d.outcome.Some? then (db, Ok(d))
    else if d.authorized then (db, Err(AuthorizedCannotBeRejected))
    else CommitRow(codec, db, id, RejectedRow(codec, db.rows[id], reason, normalized))
  }

  function Reject(codec: Codec, db: Database, id: string, reason: string, normalized: Option<Webhook>)
    : (Database, Result<IntakeResult, InboxError>)
  {
    if !(1 <= |reason| <= MAX_REASON) then (db, Err(BadReason))
    else
      match RequireDelivery(codec, db, id)
      case Err(e) => (db, Err(e))
      case Ok(d) =>
        var (db', r) := RecordRejection(codec, db, d, reason, normalized);
        match r
        case Err(e) => (db, Err(e))
        case Ok(d') => (db', if d'.outcome.Some? then Ok(ResultOf(d', None)) else Err(CorruptRow))
  }

  ghost predicate Owns(db: Database, id: string, key: string) {
    id in db.rows && db.rows[id].authorized && db.rows[id].key == Some(key)
  }

  ghost function Owner(db: Database, key: string): (r: Option<string>)
    ensures r.Some? ==> Owns(db, r.value, key)
    ensures r.None? ==> forall id :: !Owns(db, id, key)
  {
    if exists id :: Owns(db, id, key) then
      var id :| Owns(db, id, key); Some(id)
    else None
  }

  function AuthorizedColumns(codec: Codec, row: Row, a: Authorization): Row {
    row.(normalized := Some(codec.webhookJson(a.normalized)), route := Some(a.route),
         pr := Some(a.prepared.observation.pr), key := Some(a.prepared.key),
         canonical := Some(a.prepared.canonical), policy := Some(a.prepared.policy),
         bridge := Some(a.prepared.bridge), identity := Some(a.prepared.identity))
  }

  function ClassifiedRow(codec: Codec, row: Row, a: Authorization, owner: Option<(string, Option<string>)>): Row {
    var written := AuthorizedColumns(codec, row, a);
    match owner
    case None => written.(authorized := true)
    case Some((id, canonical)) =>
      if canonical == Some(a.prepared.canonical)
      then written.(outcome := Some(Duplicate), reason := Some("same_observation"), duplicateOf := Some(id))
      else written.(outcome := Some(Rejected), reason := Some("observation_key_collision"))
  }

  ghost function OwnerColumns(db: Database, key: string): Option<(string, Option<string>)> {
    match Owner(db, key)
    case None => None
    case Some(id) => Some((id, db.rows[id].canonical))
  }

  ghost function Authorize(codec: Codec, db: Database, a: Authorization): (Database, Result<Decision, InboxError>) {
    match RequireDelivery(codec, db, a.deliveryId)
    case Err(e) => (db, Err(e))
    case Ok(d) =>
      if d.outcome.Some? then (db, Ok(Concluded(ResultOf(d, None))))
      else if d.digest != a.digest then (db, Err(DigestMismatch))
      else if a.normalized.deliveryId != a.deliveryId then (db, Err(ProvenanceMismatch))
      else if a.prepared.observation.pr !in db.workflows then (db, Err(NotRegistered))
      else if d.authorized then
        if d == d.(normalized := Some(a.normalized), route := Some(a.route), prepared := Some(a.prepared),
                   authorized := true, outcome := None, reason := None, duplicateOf := None)
        then (db, Ok(Granted(d))) else (db, Err(AuthorizedMismatch))
      else if d.collision.Some? then
        var (db', r) := RecordRejection(codec, db, d, "delivery_collision", None);
        match r
        case Err(e) => (db, Err(e))
        case Ok(d') => (db', if d'.outcome.Some? then Ok(Concluded(ResultOf(d', None))) else Err(CorruptRow))
      else
        var row := ClassifiedRow(codec, db.rows[a.deliveryId], a, OwnerColumns(db, a.prepared.key));
        var (db', r) := CommitRow(codec, db, a.deliveryId, row);
        match r
        case Err(e) => (db, Err(e))
        case Ok(d') => (db', Ok(if d'.outcome.Some? then Concluded(ResultOf(d', None)) else Granted(d')))
  }

  /** What `record_in_history` offers to History: nothing more once an outcome is set. */
  datatype Offer = Settled(result: IntakeResult) | Pending(pr: PrIdentity, prepared: PreparedIntake)

  function OfferFor(codec: Codec, db: Database, id: string): Result<Offer, InboxError> {
    match RequireDelivery(codec, db, id)
    case Err(e) => Err(e)
    case Ok(d) =>
      if d.outcome.Some? then Ok(Settled(ResultOf(d, None)))
      else if !d.authorized || d.prepared.None? then Err(NoAuthority)
      else if d.prepared.value.observation.pr !in db.workflows then Err(NotRegistered)
      else Ok(Pending(d.prepared.value.observation.pr, d.prepared.value))
  }

  function RecordedRow(row: Row): Row {
    row.(outcome := Some(Recorded), reason := Some("accepted_by_history"))
  }

  /** The inbox half of `record_in_history`, after History accepted the offer. */
  function MarkRecorded(codec: Codec, db: Database, id: string, occurrence: int)
    : (Database, Result<IntakeResult, InboxError>)
  {
    match OfferFor(codec, db, id)
    case Err(e) => (db, Err(e))
    case Ok(Settled(result)) => (db, Ok(result))
    case Ok(Pending(_, _)) =>
      var (db', r) := CommitRow(codec, db, id, RecordedRow(db.rows[id]));
      match r
      case Err(e) => (db, Err(e))
      case Ok(d) => (db', if d.outcome.Some? then Ok(ResultOf(d, Some(occurrence))) else Err(CorruptRow))
  }

  /** Opening a PR workflow: an action identity belongs to one PR, a PR to one action identity. */
  function OpenWorkflow(db: Database, pr: PrIdentity, action: string, maximum: nat)
    : (Database, Result<bool, InboxError>)
  {
    if exists other :: other in db.workflows && db.workflows[other] == action && other != pr
    then (db, Err(ActionConflict))
    else if pr in db.workflows then
      if db.workflows[pr] == action then (db, Ok(false)) else (db, Err(CorruptRow))
    else if |db.workflows| >= maximum then (db, Err(CapacityExhausted))
    else (db.(workflows := db.workflows[pr := action]), Ok(true))
  }

  // ---------------------------------------------------------------- what the tables keep

  /** The table CHECK constraints of the inbox. */
  predicate RowChecks(row: Row) {
    && match row.outcome {
         case None => row.reason.None? && row.duplicateOf.None?
         case Some(Recorded) => row.authorized && row.reason == Some("accepted_by_history")
         case Some(Duplicate) => !row.authorized && row.reason == Some("same_observation") && row.duplicateOf.Some?
         case Some(Rejected) => !row.authorized && row.reason.Some?
       }
    && (row.authorized ==>
          && row.normalized.Some? && row.route.Some? && row.pr.Some? && row.key.Some? && row.canonical.Some?
          && row.policy.Some? && row.bridge.Some? && row.identity.Some?)
  }

  /** Nothing but raw evidence has been written. */
  predicate Untouched(row: Row) {
    && row.collision.None? && row.normalized.None? && row.route.None? && row.pr.None? && row.key.None?
    && row.canonical.None? && row.policy.None? && row.bridge.None? && row.identity.None? && row.reason.None?
    && row.duplicateOf.None?
  }

  predicate RowInv(codec: Codec, id: string, row: Row) {
    && Reconstruct(codec, id, row).Ok?
    && RowChecks(row)
    && (!row.authorized && row.outcome.None? ==> Untouched(row))
  }

  predicate PointsToOwner(db: Database, row: Row) {
    && (row.pr.Some? ==> row.pr.value in db.workflows)
    && (row.outcome == Some(Duplicate) && row.duplicateOf.Some? ==>
          && row.duplicateOf.value in db.rows
          && db.rows[row.duplicateOf.value].authorized
          && db.rows[row.duplicateOf.value].canonical == row.canonical)
  }

  ghost predicate RowsKept(codec: Codec, db: Database) {
    forall id :: id in db.rows ==> RowInv(codec, id, db.rows[id])
  }

  ghost predicate LinksKept(db: Database) {
    forall id :: id in db.rows ==> PointsToOwner(db, db.rows[id])
  }

  /** The unique index: an observation key has at most one authorized row. */
  ghost predicate OneOwner(db: Database) {
    forall a, b, key :: Owns(db, a, key) && Owns(db, b, key) ==> a == b
  }

  ghost predicate OneActionPerPr(db: Database) {
    forall p, q :: p in db.workflows && q in db.workflows && db.workflows[p] == db.workflows[q] ==> p == q
  }

  ghost predicate Inv(codec: Codec, db: Database) {
    RowsKept(codec, db) && LinksKept(db) && OneOwner(db) && OneActionPerPr(db)
  }

  /** Raw evidence and authority are permanent; outcome and collision digest are written once. */
  predicate Evolves(old_: Row, new_: Row) {
    && new_.sequence == old_.sequence && new_.event == old_.event && new_.body == old_.body
    && new_.digest == old_.digest
    && (old_.collision.Some? ==> new_.collision == old_.collision)
    && (old_.outcome.Some? ==>
          && new_.outcome == old_.outcome && new_.reason == old_.reason && new_.duplicateOf == old_.duplicateOf
          && new_.authorized == old_.authorized)
    && (old_.authorized ==> new_.authorized)
    && (old_.authorized || old_.outcome.Some? ==>
          && new_.normalized == old_.normalized && new_.route == old_.route && new_.pr == old_.pr
          && new_.key == old_.key && new_.canonical == old_.canonical && new_.policy == old_.policy
          && new_.bridge == old_.bridge && new_.identity == old_.identity)
  }

  predicate DatabaseEvolves(db: Database, db': Database) {
    && (forall id :: id in db.rows ==> id in db'.rows && Evolves(db.rows[id], db'.rows[id]))
    && (forall pr :: pr in db.workflows ==> pr in db'.workflows && db'.workflows[pr] == db.workflows[pr])
  }

  lemma PutKeepsLinks(db: Database, id: string, row: Row)
    requires LinksKept(db) && PointsToOwner(db, row)
    requires id in db.rows ==> Evolves(db.rows[id], row)
    ensures LinksKept(Put(db, id, row))
  {
    var db' := Put(db, id, row);
    forall other | other in db'.rows ensures PointsToOwner(db', db'.rows[other]) {
      if other != id { assert PointsToOwner(db, db.rows[other]); }
    }
  }

  lemma PutKeepsOwners(db: Database, id: string, row: Row)
    requires OneOwner(db)
    requires id in db.rows ==> Evolves(db.rows[id], row)
    requires row.authorized && row.key.Some? && (id in db.rows ==> !db.rows[id].authorized) ==>
               forall other :: !Owns(db, other, row.key.value)
    ensures OneOwner(Put(db, id, row))
  {
    var db' := Put(db, id, row);
    forall a, b, key | Owns(db', a, key) && Owns(db', b, key) ensures a == b {
      if a != id { assert Owns(db, a, key); }
      if b != id { assert Owns(db, b, key); }
      if id in db.rows && db.rows[id].authorized && row.key.Some? { assert Owns(db, id, row.key.value); }
    }
  }

  /** Writing one evolved row that satisfies the row invariants keeps the tables' invariant. */
  lemma PutKeepsInv(codec: Codec, db: Database, id: string, row: Row)
    requires Inv(codec, db)
    requires RowInv(codec, id, row) && PointsToOwner(db, row)
    requires id in db.rows ==> Evolves(db.rows[id], row)
    requires row.authorized && row.key.Some? && (id in db.rows ==> !db.rows[id].authorized) ==>
               forall other :: !Owns(db, other, row.key.value)
    ensures Inv(codec, Put(db, id, row))
    ensures DatabaseEvolves(db, Put(db, id, row))
  {
    PutKeepsLinks(db, id, row);
    PutKeepsOwners(db, id, row);
    PutKeepsRows(codec, db, id, row);
    PutKeepsActions(db, id, row);
    PutEvolves(db, id, row);
  }

  lemma PutKeepsActions(db: Database, id: string, row: Row)
    requires OneActionPerPr(db)
    ensures OneActionPerPr(Put(db, id, row))
  {
  }

  lemma PutEvolves(db: Database, id: string, row: Row)
    requires id in db.rows ==> Evolves(db.rows[id], row)
    ensures DatabaseEvolves(db, Put(db, id, row))
  {
  }

  lemma PutKeepsRows(codec: Codec, db: Database, id: string, row: Row)
    requires RowsKept(codec, db) && RowInv(codec, id, row)
    ensures RowsKept(codec, Put(db, id, row))
  {
  }

  lemma CollisionKeepsRow(codec: Codec, id: string, row: Row, digest: string)
    requires RowInv(codec, id, row)
    ensures RowInv(codec, id, WithCollision(row, digest)) && Evolves(row, WithCollision(row, digest))
    ensures Reconstruct(codec, id, WithCollision(row, digest)).Ok?
  {
    var row' := WithCollision(row, digest);
    assert NormalizedFromRow(codec, row') == NormalizedFromRow(codec, row);
    assert PreparedFromRow(codec, row') == PreparedFromRow(codec, row);
  }

  lemma CollisionKeepsInv(codec: Codec, db: Database, id: string, digest: string)
    requires Inv(codec, db) && id in db.rows
    ensures Inv(codec, Put(db, id, WithCollision(db.rows[id], digest)))
    ensures DatabaseEvolves(db, db) && DatabaseEvolves(db, Put(db, id, WithCollision(db.rows[id], digest)))
    ensures Reconstruct(codec, id, WithCollision(db.rows[id], digest)).Ok?
  {
    assert RowInv(codec, id, db.rows[id]) && PointsToOwner(db, db.rows[id]);
    CollisionKeepsRow(codec, id, db.rows[id], digest);
    PutKeepsInv(codec, db, id, WithCollision(db.rows[id], digest));
  }

  lemma RecordKeepsInv(codec: Codec, db: Database, v: Verified, maximum: nat)
    requires Inv(codec, db)
    ensures Inv(codec, RecordDelivery(codec, db, v, maximum).0)
    ensures DatabaseEvolves(db, RecordDelivery(codec, db, v, maximum).0)
  {
    var id := v.deliveryId;
    if id in db.rows {
      CollisionKeepsInv(codec, db, id, codec.sha256(v.body));
    } else {
      FirstRowIsSound(codec, db, v);
      PutKeepsInv(codec, db, id, FirstRow(codec, db, v));
    }
  }

  /** What a receipt means for a stored delivery: exact evidence is the same again and changes
      nothing; any other evidence leaves its digest, unless an earlier one stands there, and
      concludes the row that has neither authority nor outcome. */
  predicate ReceivedAgain(codec: Codec, db: Database, v: Verified, db': Database, r: Result<Receipt, InboxError>)
    requires v.deliveryId in db.rows
  {
    var row := db.rows[v.deliveryId];
    && r.Ok? && r.value.deliveryId == v.deliveryId && r.value.sequence == row.sequence
    && if v.event == row.event && v.body == row.body then r.value.disposition == SameAgain && db' == db
       else
         && r.value.disposition == Collision && v.deliveryId in db'.rows
         && var row' := db'.rows[v.deliveryId];
            && db' == db.(rows := db.rows[v.deliveryId := row'])
            && row'.collision == Some(if row.collision.Some? then row.collision.value else codec.sha256(v.body))
            && row' == (if row.authorized || row.outcome.Some? then row
                        else row.(outcome := Some(Rejected), reason := Some("delivery_collision")))
                       .(collision := row'.collision)
  }

  /** A new delivery is stored, where there is room, under the next number and with nothing but
      its own evidence. */
  predicate ReceivedFirst(codec: Codec, db: Database, v: Verified, maximum: nat, db': Database,
                          r: Result<Receipt, InboxError>)
  {
    if |db.rows| >= maximum then db' == db && r == Err(CapacityExhausted)
    else
      && r == Ok(Receipt(v.deliveryId, |db.rows| + 1, Received)) && v.deliveryId in db'.rows
      && var row := db'.rows[v.deliveryId];
         && db' == db.(rows := db.rows[v.deliveryId := row])
         && row.sequence == |db.rows| + 1 && row.event == v.event && row.body == v.body
         && row.digest == codec.sha256(v.body)
         && Untouched(row) && !row.authorized && row.outcome.None?
  }

  predicate ReceiptMeans(codec: Codec, db: Database, v: Verified, maximum: nat, db': Database,
                         r: Result<Receipt, InboxError>)
  {
    if v.deliveryId in db.rows then ReceivedAgain(codec, db, v, db', r)
    else ReceivedFirst(codec, db, v, maximum, db', r)
  }

  lemma RecordingMeans(codec: Codec, db: Database, v: Verified, maximum: nat)
    requires Inv(codec, db)
    ensures var (db', r) := RecordDelivery(codec, db, v, maximum);
            ReceiptMeans(codec, db, v, maximum, db', r)
  {
    if v.deliveryId in db.rows {
      assert RowInv(codec, v.deliveryId, db.rows[v.deliveryId]);
    }
  }

  lemma FirstRowIsSound(codec: Codec, db: Database, v: Verified)
    ensures RowInv(codec, v.deliveryId, FirstRow(codec, db, v)) && PointsToOwner(db, FirstRow(codec, db, v))
    ensures !FirstRow(codec, db, v).authorized
  {
  }

  lemma RejectionKeepsInv(codec: Codec, db: Database, d: Delivery, reason: string, normalized: Option<Webhook>)
    requires Inv(codec, db) && d.verified.deliveryId in db.rows
    requires Reconstruct(codec, d.verified.deliveryId, db.rows[d.verified.deliveryId]) == Ok(d)
    ensures Inv(codec, RecordRejection(codec, db, d, reason, normalized).0)
    ensures DatabaseEvolves(db, RecordRejection(codec, db, d, reason, normalized).0)
  {
    var id := d.verified.deliveryId;
    if d.outcome.None? && !d.authorized {
      var row := RejectedRow(codec, db.rows[id], reason, normalized);
      if Reconstruct(codec, id, row).Ok? { PutKeepsInv(codec, db, id, row); }
    }
  }

  lemma RejectKeepsInv(codec: Codec, db: Database, id: string, reason: string, normalized: Option<Webhook>)
    requires Inv(codec, db)
    ensures Inv(codec, Reject(codec, db, id, reason, normalized).0)
    ensures DatabaseEvolves(db, Reject(codec, db, id, reason, normalized).0)
  {
    var found := RequireDelivery(codec, db, id);
    if 1 <= |reason| <= MAX_REASON && found.Ok? {
      var (db', r) := RecordRejection(codec, db, found.value, reason, normalized);
      assert Reject(codec, db, id, reason, normalized).0 == if r.Ok? then db' else db;
      RejectionKeepsInv(codec, db, found.value, reason, normalized);
    }
  }

  /** A row that collided without authority has been concluded, so authorization never meets one. */
  lemma CollidedRowsAreConcluded(codec: Codec, db: Database, id: string)
    requires Inv(codec, db) && id in db.rows
    requires db.rows[id].collision.Some? && !db.rows[id].authorized
    ensures db.rows[id].outcome.Some?
  {
    assert RowInv(codec, id, db.rows[id]);
  }

  /** Authorization either leaves the tables alone or writes the classified row. */
  lemma AuthorizeShape(codec: Codec, db: Database, a: Authorization)
    requires Inv(codec, db)
    ensures Authorize(codec, db, a).0 == db
            || (&& a.deliveryId in db.rows && db.rows[a.deliveryId].outcome.None?
                && !db.rows[a.deliveryId].authorized && a.prepared.observation.pr in db.workflows
                && var row := ClassifiedRow(codec, db.rows[a.deliveryId], a, OwnerColumns(db, a.prepared.key));
                   Reconstruct(codec, a.deliveryId, row).Ok?
                   && Authorize(codec, db, a).0 == Put(db, a.deliveryId, row))
  {
    if RequireDelivery(codec, db, a.deliveryId).Ok? {
      var row := db.rows[a.deliveryId];
      if row.collision.Some? && !row.authorized { CollidedRowsAreConcluded(codec, db, a.deliveryId); }
    }
  }

  lemma ClassifiedKeepsRow(codec: Codec, db: Database, a: Authorization)
    requires Inv(codec, db) && a.deliveryId in db.rows && a.prepared.observation.pr in db.workflows
    requires db.rows[a.deliveryId].outcome.None? && !db.rows[a.deliveryId].authorized
    ensures var row := ClassifiedRow(codec, db.rows[a.deliveryId], a, OwnerColumns(db, a.prepared.key));
            && RowChecks(row) && PointsToOwner(db, row) && Evolves(db.rows[a.deliveryId], row)
            && (!row.authorized ==> row.outcome.Some?)
            && (row.authorized ==> forall other :: !Owns(db, other, row.key.value))
  {
    assert RowInv(codec, a.deliveryId, db.rows[a.deliveryId]);
  }

  lemma AuthorizeKeepsInv(codec: Codec, db: Database, a: Authorization)
    requires Inv(codec, db)
    ensures Inv(codec, Authorize(codec, db, a).0)
    ensures DatabaseEvolves(db, Authorize(codec, db, a).0)
  {
    AuthorizeShape(codec, db, a);
    var db' := Authorize(codec, db, a).0;
    if db' != db {
      ClassifiedKeepsRow(codec, db, a);
      var row := ClassifiedRow(codec, db.rows[a.deliveryId], a, OwnerColumns(db, a.prepared.key));
      PutKeepsInv(codec, db, a.deliveryId, row);
    }
  }

  lemma MarkRecordedKeepsInv(codec: Codec, db: Database, id: string, occurrence: int)
    requires Inv(codec, db)
    ensures Inv(codec, MarkRecorded(codec, db, id, occurrence).0)
    ensures DatabaseEvolves(db, MarkRecorded(codec, db, id, occurrence).0)
  {
    var offer := OfferFor(codec, db, id);
    if offer.Ok? && offer.value.Pending? {
      var row := RecordedRow(db.rows[id]);
      assert RowInv(codec, id, db.rows[id]) && PointsToOwner(db, db.rows[id]);
      if Reconstruct(codec, id, row).Ok? { PutKeepsInv(codec, db, id, row); }
    }
  }

  /** The tables differ only in the workflow of one PR. */
  lemma NewWorkflowKeepsLinks(db: Database, pr: PrIdentity, action: string)
    requires LinksKept(db) && OneOwner(db)
    ensures LinksKept(db.(workflows := db.workflows[pr := action]))
    ensures OneOwner(db.(workflows := db.workflows[pr := action]))
  {
    var db' := db.(workflows := db.workflows[pr := action]);
    forall id | id in db'.rows ensures PointsToOwner(db', db'.rows[id]) {
      assert PointsToOwner(db, db.rows[id]);
    }
    forall a, b, key | Owns(db', a, key) && Owns(db', b, key) ensures a == b {
      assert Owns(db, a, key) && Owns(db, b, key);
    }
  }

  lemma NewWorkflowKeepsActions(db: Database, pr: PrIdentity, action: string)
    requires OneActionPerPr(db) && forall other :: other in db.workflows ==> db.workflows[other] != action
    ensures OneActionPerPr(db.(workflows := db.workflows[pr := action]))
  {
  }

  lemma SameRowsKept(codec: Codec, db: Database, db': Database)
    requires RowsKept(codec, db) && db'.rows == db.rows
    ensures RowsKept(codec, db')
  {
  }

  lemma SameRowsEvolve(db: Database, db': Database)
    requires db'.rows == db.rows
    requires forall pr :: pr in db.workflows ==> pr in db'.workflows && db'.workflows[pr] == db.workflows[pr]
    ensures DatabaseEvolves(db, db')
  {
  }

  /** Opening changes nothing, or registers one new PR under an action of its own. */
  lemma OpenChanges(db: Database, pr: PrIdentity, action: string, maximum: nat)
    ensures var db' := OpenWorkflow(db, pr, action, maximum).0;
            || db' == db
            || (&& pr !in db.workflows && (forall other :: other in db.workflows ==> db.workflows[other] != action)
                && db' == db.(workflows := db.workflows[pr := action]))
  {
  }

  lemma OpenKeepsInv(codec: Codec, db: Database, pr: PrIdentity, action: string, maximum: nat)
    requires Inv(codec, db)
    ensures Inv(codec, OpenWorkflow(db, pr, action, maximum).0)
    ensures DatabaseEvolves(db, OpenWorkflow(db, pr, action, maximum).0)
  {
    var db' := OpenWorkflow(db, pr, action, maximum).0;
    OpenChanges(db, pr, action, maximum);
    SameRowsEvolve(db, db');
    if db' != db {
      NewWorkflowKeepsLinks(db, pr, action);
      NewWorkflowKeepsActions(db, pr, action);
      SameRowsKept(codec, db, db');
    }
  }
}
