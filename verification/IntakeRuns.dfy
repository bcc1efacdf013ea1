/** What holds after every run of the Inbox and History together, crashes and policy changes
    included: each observation reaches History at most once, rows only evolve forward, and every
    row gives back the values it was authorized with. */
module IntakeRuns {
  import opened Outcomes
  import opened Intake
  import opened History
  import opened Runtime
  import opened Inbox
  import opened TwoStores

  // ---------------------------------------------------------------- exactly once

  /** What is hashed for a row's delivery identity. */
  function MaterialOf(codec: Codec, row: Row): string
    requires row.key.Some? && row.policy.Some?
  {
    codec.materialJson(row.key.value, row.policy.value)
  }

  /** No two authorized rows of this database collide in what was hashed for their identities.
      Nothing is assumed of any other text. */
  ghost predicate CollisionFree(codec: Codec, db: Database) {
    && codec.Unambiguous()
    && forall a, b :: HasMaterial(db, a) && HasMaterial(db, b) ==>
         codec.Apart(MaterialOf(codec, db.rows[a]), MaterialOf(codec, db.rows[b]))
  }

  predicate HasMaterial(db: Database, id: string) {
    id in db.rows && db.rows[id].authorized && db.rows[id].key.Some? && db.rows[id].policy.Some?
  }

  /** An identity in History belongs to one authorized row only. */
  lemma OneRowPerIdentity(codec: Codec, s: System, a: string, b: string)
    requires CollisionFree(codec, s.db) && SystemInv(codec, s)
    requires a in s.db.rows && s.db.rows[a].authorized && b in s.db.rows && s.db.rows[b].authorized
    requires s.db.rows[a].identity == s.db.rows[b].identity
    ensures a == b
  {
    var ra, rb := s.db.rows[a], s.db.rows[b];
    assert RowInv(codec, a, ra) && RowInv(codec, b, rb);
    AuthorizedColumnsAgree(codec, a, ra);
    AuthorizedColumnsAgree(codec, b, rb);
    assert HasMaterial(s.db, a) && HasMaterial(s.db, b);
    IdentityDeterminesKey(codec, ra.key.value, ra.policy.value, rb.key.value, rb.policy.value);
    assert Owns(s.db, a, ra.key.value) && Owns(s.db, b, ra.key.value);
  }

  lemma OneRowPerObservation(codec: Codec, s: System, a: string, b: string)
    requires SystemInv(codec, s)
    requires a in s.db.rows && s.db.rows[a].authorized && b in s.db.rows && s.db.rows[b].authorized
    requires s.db.rows[a].canonical == s.db.rows[b].canonical
    ensures a == b
  {
    var ra, rb := s.db.rows[a], s.db.rows[b];
    assert RowInv(codec, a, ra) && RowInv(codec, b, rb);
    AuthorizedColumnsAgree(codec, a, ra);
    AuthorizedColumnsAgree(codec, b, rb);
    assert Owns(s.db, a, ra.key.value) && Owns(s.db, b, ra.key.value);
  }

  lemma OnePositionPerIdentity(log: Log, p: nat, p': nat)
    requires WellLogged(log) && p < |log| && p' < |log|
    requires IsBridgeDelivery(log[p]) && IsBridgeDelivery(log[p']) && log[p].identity == log[p'].identity
    ensures p == p'
  {
    var q, at :| Represents(log, q, at);
    var j := PlacedEntry(log, q, at, p);
    var k := PlacedEntry(log, q, at, p');
    DistinctEntries(q, j, k);
  }

  lemma PlacedEntry(log: Log, q: Queue, at: seq<nat>, p: nat) returns (j: nat)
    requires Placed(log, q, at) && p < |log| && IsBridgeDelivery(log[p])
    ensures j < |q| && at[j] == p && q[j].bridged.identity == log[p].identity
  {
    assert p in at;
    j :| 0 <= j < |at| && at[j] == p;
    assert log[at[j]] == Delivered(q[j]);
  }

  /** A delivery record at position p of the History of `pr` was put there for row `id`. */
  ghost predicate DeliveredFor(s: System, pr: PrIdentity, p: nat, id: string) {
    && pr in s.logs && p < |s.logs[pr]| && IsBridgeDelivery(s.logs[pr][p])
    && id in s.db.rows && s.db.rows[id].authorized && s.db.rows[id].identity == Some(s.logs[pr][p].identity)
  }

  lemma DeliveredToOwnPr(codec: Codec, s: System, pr: PrIdentity, p: nat, id: string)
    requires CollisionFree(codec, s.db) && SystemInv(codec, s) && DeliveredFor(s, pr, p, id)
    ensures s.db.rows[id].pr == Some(pr)
  {
    var identity := s.logs[pr][p].identity;
    assert Logged(s.logs[pr], identity);
    assert Accounted(s.db, pr, s.logs[pr]);
    var other :| other in s.db.rows && Claims(s.db.rows[other], identity, pr);
    OneRowPerIdentity(codec, s, id, other);
  }

  /** Exactly once across two stores. After every run: each canonical observation is delivered to
      at most one place in all of History; every delivered identity belongs to exactly one
      authorized row; and every recorded row's identity is in its PR's History. */
  lemma ExactlyOnce(codec: Codec, commands: seq<Command>)
    requires codec.Sound() && PermittedRun(codec, EMPTY, commands)
    requires CollisionFree(codec, SystemRun(codec, EMPTY, commands).db)
    ensures var s := SystemRun(codec, EMPTY, commands);
            && (forall pr, p, id, pr', p', id' ::
                  (&& DeliveredFor(s, pr, p, id) && DeliveredFor(s, pr', p', id')
                   && s.db.rows[id].canonical == s.db.rows[id'].canonical) ==> pr == pr' && p == p')
            && (forall pr, p :: pr in s.logs && 0 <= p < |s.logs[pr]| && IsBridgeDelivery(s.logs[pr][p]) ==>
                  exists id :: DeliveredFor(s, pr, p, id))
            && (forall pr, p, id, id' :: DeliveredFor(s, pr, p, id) && DeliveredFor(s, pr, p, id') ==> id == id')
            && (forall id :: id in s.db.rows && s.db.rows[id].outcome == Some(Recorded) ==>
                  RecordedInHistory(s, s.db.rows[id]))
  {
    RunKeeps(codec, commands);
    var s := SystemRun(codec, EMPTY, commands);
    forall pr, p, id, pr', p', id'
      | && DeliveredFor(s, pr, p, id) && DeliveredFor(s, pr', p', id')
        && s.db.rows[id].canonical == s.db.rows[id'].canonical
      ensures pr == pr' && p == p'
    {
      DeliveredOnce(codec, s, pr, p, id, pr', p', id');
    }
    forall pr, p | pr in s.logs && 0 <= p < |s.logs[pr]| && IsBridgeDelivery(s.logs[pr][p])
      ensures exists id :: DeliveredFor(s, pr, p, id)
    {
      DeliveryHasRow(s, pr, p);
    }
    forall pr, p, id, id' | DeliveredFor(s, pr, p, id) && DeliveredFor(s, pr, p, id') ensures id == id' {
      OneRowPerIdentity(codec, s, id, id');
    }
  }

  lemma DeliveryHasRow(s: System, pr: PrIdentity, p: nat)
    requires AllAccounted(s) && pr in s.logs && p < |s.logs[pr]| && IsBridgeDelivery(s.logs[pr][p])
    ensures exists id :: DeliveredFor(s, pr, p, id)
  {
    var identity := s.logs[pr][p].identity;
    assert Logged(s.logs[pr], identity);
    assert Accounted(s.db, pr, s.logs[pr]);
    var id :| id in s.db.rows && Claims(s.db.rows[id], identity, pr);
    assert DeliveredFor(s, pr, p, id);
  }

  lemma DeliveredOnce(codec: Codec, s: System, pr: PrIdentity, p: nat, id: string, pr': PrIdentity, p': nat,
                      id': string)
    requires CollisionFree(codec, s.db) && SystemInv(codec, s)
    requires DeliveredFor(s, pr, p, id) && DeliveredFor(s, pr', p', id')
    requires s.db.rows[id].canonical == s.db.rows[id'].canonical
    ensures pr == pr' && p == p'
  {
    OneRowPerObservation(codec, s, id, id');
    DeliveredToOwnPr(codec, s, pr, p, id);
    DeliveredToOwnPr(codec, s, pr', p', id');
    OnePositionPerIdentity(s.logs[pr], p, p');
  }

  // ---------------------------------------------------------------- crash recovery

  /** After a crash between the two commits, offering the row again appends nothing to History
      and records the row. */
  lemma ReplayRecordsWithoutGrowth(codec: Codec, s: System, id: string, used: nat, next: int, instant: Option<int>)
    requires codec.Sound() && SystemInv(codec, s)
    requires OfferFor(codec, s.db, id).Ok? && OfferFor(codec, s.db, id).value.Pending?
    requires var offer := OfferFor(codec, s.db, id).value;
             && offer.pr in s.logs && Logged(s.logs[offer.pr], offer.prepared.identity)
             && |s.logs[offer.pr]| <= MAX_RECORDS && used <= MAX_BYTES
    ensures var s' := SystemStep(codec, s, OfferToHistory(id, used, next, instant, false));
            s'.logs == s.logs && id in s'.db.rows && s'.db.rows[id].outcome == Some(Recorded)
  {
    var offer := OfferFor(codec, s.db, id).value;
    var b, log := BridgeHeadDelivery(codec, offer.prepared), s.logs[offer.pr];
    assert b.Ok? && b.value.identity == offer.prepared.identity && offer.prepared.observation.pr == offer.pr
           && offer.prepared.bridge == BRIDGE_IDENTITY
    by { OfferIsClaimed(codec, s, id); }
    assert WellLogged(log);
    KnownReplay(log, b.value, used, next, instant);
    ReplayOutcome(codec, s, id, offer, b.value, used, next, instant);
  }

  lemma ReplayOutcome(codec: Codec, s: System, id: string, offer: Offer, b: BridgedDelivery, used: nat, next: int,
                      instant: Option<int>)
    requires OfferFor(codec, s.db, id) == Ok(offer) && offer.Pending? && offer.pr in s.logs
    requires offer.prepared.observation.pr == offer.pr && offer.prepared.bridge == BRIDGE_IDENTITY
    requires BridgeHeadDelivery(codec, offer.prepared) == Ok(b)
    requires AcceptDelivery(s.logs[offer.pr], b, used, next, instant).0 == s.logs[offer.pr]
    requires AcceptDelivery(s.logs[offer.pr], b, used, next, instant).1.Ok?
    ensures var s' := SystemStep(codec, s, OfferToHistory(id, used, next, instant, false));
            s'.logs == s.logs && id in s'.db.rows && s'.db.rows[id].outcome == Some(Recorded)
  {
    OfferShape(codec, s, id, used, next, instant, false, offer, b);
    assert s.logs[offer.pr := s.logs[offer.pr]] == s.logs;
    RecordingSucceeds(codec, s.db, id, AcceptDelivery(s.logs[offer.pr], b, used, next, instant).1.value.occurrence);
  }

  lemma LoggedEntry(log: Log, q: Queue, at: seq<nat>, identity: string) returns (k: nat)
    requires Represents(log, q, at) && Logged(log, identity)
    ensures k < |q| && q[k].bridged.identity == identity
  {
    var p :| 0 <= p < |log| && IsBridgeDelivery(log[p]) && log[p].identity == identity;
    k := PlacedEntry(log, q, at, p);
  }

  lemma KnownReplay(log: Log, b: BridgedDelivery, used: nat, next: int, instant: Option<int>)
    requires WellLogged(log) && Logged(log, b.identity) && |log| <= MAX_RECORDS && used <= MAX_BYTES
    ensures AcceptDelivery(log, b, used, next, instant).0 == log
    ensures AcceptDelivery(log, b, used, next, instant).1.Ok?
  {
    var q, at :| Represents(log, q, at);
    var k := LoggedEntry(log, q, at, b.identity);
    assert ParseLog(log) == Ok(Observed(q)) by { ParseRefinesQueue(log, q, at); }
    AcceptKnown(log, q, at, k, b, used, next, instant);
  }

  lemma RecordingSucceeds(codec: Codec, db: Database, id: string, occurrence: int)
    requires OfferFor(codec, db, id).Ok? && OfferFor(codec, db, id).value.Pending?
    ensures var db' := MarkRecorded(codec, db, id, occurrence).0;
            id in db'.rows && db'.rows[id].outcome == Some(Recorded)
    ensures MarkRecorded(codec, db, id, occurrence).1.Ok?
  {
    var row := RecordedRow(db.rows[id]);
    assert NormalizedFromRow(codec, row) == NormalizedFromRow(codec, db.rows[id]);
    assert PreparedFromRow(codec, row) == PreparedFromRow(codec, db.rows[id]);
    assert Reconstruct(codec, id, row).Ok?;
  }

  // ---------------------------------------------------------------- row lifecycle

  lemma EvolutionComposes(a: Database, b: Database, c: Database)
    requires DatabaseEvolves(a, b) && DatabaseEvolves(b, c)
    ensures DatabaseEvolves(a, c)
  {
    forall id | id in a.rows ensures id in c.rows && Evolves(a.rows[id], c.rows[id]) {
      assert Evolves(a.rows[id], b.rows[id]) && Evolves(b.rows[id], c.rows[id]);
    }
  }

  lemma StaysEvolved(db: Database)
    ensures DatabaseEvolves(db, db)
  {
  }

  lemma InboxStepEvolves(codec: Codec, s: System, c: Command)
    requires Inv(codec, s.db) && (c.Receive? || c.RejectDelivery? || c.AuthorizeDelivery?)
    ensures DatabaseEvolves(s.db, SystemStep(codec, s, c).db)
  {
    match c
    case Receive(v, maximum) => RecordKeepsInv(codec, s.db, v, maximum);
    case RejectDelivery(id, reason, normalized) => RejectKeepsInv(codec, s.db, id, reason, normalized);
    case AuthorizeDelivery(a) => AuthorizeKeepsInv(codec, s.db, a);
  }

  lemma OpenStepEvolves(codec: Codec, s: System, pr: PrIdentity, action: string, maximum: nat, opening: Log, lost: bool)
    ensures DatabaseEvolves(s.db, SystemStep(codec, s, OpenPullRequest(pr, action, maximum, opening, lost)).db)
  {
    OpenChanges(s.db, pr, action, maximum);
    SameRowsEvolve(s.db, OpenWorkflow(s.db, pr, action, maximum).0);
    StaysEvolved(s.db);
  }

  lemma StepEvolves(codec: Codec, s: System, c: Command)
    requires Inv(codec, s.db)
    ensures DatabaseEvolves(s.db, SystemStep(codec, s, c).db)
  {
    match c
    case OfferToHistory(id, used, next, instant, crash) =>
      var offer := OfferFor(codec, s.db, id);
      StaysEvolved(s.db);
      if offer.Ok? && offer.value.Pending? && offer.value.pr in s.logs {
        OfferEvolves(codec, s, id, offer.value.pr, offer.value.prepared, used, next, instant, crash);
      }
    case CompleteObservation(_, _) => StaysEvolved(s.db);
    case AppendOther(_, _) => StaysEvolved(s.db);
    case OpenPullRequest(pr, action, maximum, opening, lost) =>
      OpenStepEvolves(codec, s, pr, action, maximum, opening, lost);
    case _ => InboxStepEvolves(codec, s, c);
  }

  lemma OfferEvolves(codec: Codec, s: System, id: string, pr: PrIdentity, prepared: PreparedIntake, used: nat,
                     next: int, instant: Option<int>, crash: bool)
    requires Inv(codec, s.db) && pr in s.logs
    ensures DatabaseEvolves(s.db, Offered(codec, s, id, pr, prepared, used, next, instant, crash).db)
  {
    var r := AcceptPrepared(codec, pr, s.logs[pr], pr, prepared, used, next, instant).1;
    var db' := Offered(codec, s, id, pr, prepared, used, next, instant, crash).db;
    if r.Err? || crash {
      assert db' == s.db;
      StaysEvolved(s.db);
    } else {
      assert db' == MarkRecorded(codec, s.db, id, r.value.occurrence).0;
      MarkRecordedKeepsInv(codec, s.db, id, r.value.occurrence);
    }
  }

  /** Row lifecycle: between any two points of a run raw evidence never changes, authority is
      never revoked, and an outcome or a collision digest, once written, stays. */
  lemma {:induction false} RowsOnlyEvolve(codec: Codec, commands: seq<Command>, k: nat)
    requires codec.Sound() && PermittedRun(codec, EMPTY, commands) && k <= |commands|
    ensures DatabaseEvolves(SystemRun(codec, EMPTY, commands[..k]).db, SystemRun(codec, EMPTY, commands).db)
  {
    if k == |commands| {
      assert commands[..k] == commands;
    } else {
      var n := |commands| - 1;
      RowsOnlyEvolve(codec, commands[..n], k);
      assert commands[..n][..k] == commands[..k];
      RunKeeps(codec, commands[..n]);
      StepEvolves(codec, SystemRun(codec, EMPTY, commands[..n]), commands[n]);
      EvolutionComposes(SystemRun(codec, EMPTY, commands[..k]).db, SystemRun(codec, EMPTY, commands[..n]).db,
                        SystemRun(codec, EMPTY, commands).db);
    }
  }

  /** An authorized row's columns all come from the one webhook it holds, which is its own delivery's. */
  predicate OwnColumns(codec: Codec, id: string, row: Row) {
    && row.normalized.Some? && row.policy.Some? && row.route.Some?
    && var w := codec.webhookFromJson(row.normalized.value);
       && w.Some? && w.value.deliveryId == id && row.pr == Some(w.value.snapshot.pr)
       && var canonical := codec.observationJson(ProjectHead(w.value.snapshot));
          && row.canonical == Some(canonical) && row.key == Some(KeyFor(codec, canonical))
          && row.identity == Some(IdentityFor(codec, KeyFor(codec, canonical), row.policy.value))
  }

  lemma AuthorizedOwnColumns(codec: Codec, id: string, row: Row)
    requires RowInv(codec, id, row) && row.authorized
    ensures OwnColumns(codec, id, row)
  {
  }

  /** After every run: each row reconstructs and meets the table constraints; a row that collided
      without authority is concluded; each duplicate points to an authorized row holding the same
      canonical observation; and no observation key has two owners. */
  lemma EveryRowIsSound(codec: Codec, commands: seq<Command>)
    requires codec.Sound() && PermittedRun(codec, EMPTY, commands)
    ensures var db := SystemRun(codec, EMPTY, commands).db;
            && (forall id :: id in db.rows ==>
                  var row := db.rows[id];
                  && Reconstruct(codec, id, row).Ok? && RowChecks(row) && row.digest == codec.sha256(row.body)
                  && (row.authorized ==> OwnColumns(codec, id, row))
                  && (row.collision.Some? && !row.authorized ==> row.outcome.Some?)
                  && (row.outcome == Some(Duplicate) ==>
                        && row.duplicateOf.Some? && row.duplicateOf.value in db.rows
                        && db.rows[row.duplicateOf.value].authorized
                        && db.rows[row.duplicateOf.value].canonical == row.canonical))
            && OneOwner(db)
  {
    RunKeeps(codec, commands);
    var db := SystemRun(codec, EMPTY, commands).db;
    forall id | id in db.rows
      ensures RowInv(codec, id, db.rows[id]) && PointsToOwner(db, db.rows[id])
      ensures db.rows[id].authorized ==> OwnColumns(codec, id, db.rows[id])
    {
      if db.rows[id].authorized { AuthorizedOwnColumns(codec, id, db.rows[id]); }
    }
  }

  // ---------------------------------------------------------------- authorized values

  /** What the worker builds: the intake prepared from the normalized webhook itself. */
  predicate WorkerBuilt(codec: Codec, a: Authorization) {
    PrepareHeadIntake(codec, ProjectHead(a.normalized.snapshot), a.prepared.policy) == Ok(a.prepared)
  }

  /** Writing a worker-built authorization and reading it back gives its values. */
  lemma AuthorizedRoundTrip(codec: Codec, row: Row, a: Authorization, owner: Option<(string, Option<string>)>)
    requires codec.Sound() && WorkerBuilt(codec, a)
    requires codec.sha256(row.body) == row.digest && a.normalized.deliveryId == a.deliveryId
    ensures var r := Reconstruct(codec, a.deliveryId, ClassifiedRow(codec, row, a, owner));
            r.Ok? && r.value.normalized == Some(a.normalized) && r.value.route == Some(a.route)
            && r.value.prepared == Some(a.prepared)
  {
    var written := ClassifiedRow(codec, row, a, owner);
    assert written.normalized == Some(codec.webhookJson(a.normalized));
    assert NormalizedFromRow(codec, written) == Ok(Some(a.normalized));
    assert codec.observationFromJson(a.prepared.canonical) == Some(a.prepared.observation);
    assert BridgeHeadDelivery(codec, a.prepared).Ok?;
    assert PreparedFromRow(codec, written) == Ok(Some(a.prepared));
  }

  /** A grant returns exactly the authorized values, whether the row is fresh or replayed, and a
      worker-built authorization of a known, registered, unconcluded row never fails. */
  lemma GrantGivesAuthorizedValues(codec: Codec, db: Database, a: Authorization)
    requires codec.Sound() && Inv(codec, db) && WorkerBuilt(codec, a)
    ensures var r := Authorize(codec, db, a).1;
            r.Ok? && r.value.Granted? ==>
              r.value.delivery.normalized == Some(a.normalized) && r.value.delivery.route == Some(a.route)
              && r.value.delivery.prepared == Some(a.prepared)
    ensures (&& a.deliveryId in db.rows && db.rows[a.deliveryId].outcome.None? && !db.rows[a.deliveryId].authorized
             && db.rows[a.deliveryId].digest == a.digest && a.normalized.deliveryId == a.deliveryId
             && a.prepared.observation.pr in db.workflows) ==> Authorize(codec, db, a).1.Ok?
  {
    if a.deliveryId in db.rows {
      var row := db.rows[a.deliveryId];
      assert RowInv(codec, a.deliveryId, row);
      if a.normalized.deliveryId == a.deliveryId {
        AuthorizedRoundTrip(codec, row, a, OwnerColumns(db, a.prepared.key));
      }
      if row.collision.Some? && !row.authorized { CollidedRowsAreConcluded(codec, db, a.deliveryId); }
    }
  }

  lemma ValuesSurviveEvolution(codec: Codec, id: string, row: Row, row': Row)
    requires RowInv(codec, id, row) && RowInv(codec, id, row') && Evolves(row, row') && row.authorized
    ensures Reconstruct(codec, id, row').value.normalized == Reconstruct(codec, id, row).value.normalized
    ensures Reconstruct(codec, id, row').value.route == Reconstruct(codec, id, row).value.route
    ensures Reconstruct(codec, id, row').value.prepared == Reconstruct(codec, id, row).value.prepared
  {
    assert NormalizedFromRow(codec, row') == NormalizedFromRow(codec, row);
    assert PreparedFromRow(codec, row') == PreparedFromRow(codec, row);
  }

  /** Reconstruction round trip over whole runs: once a worker's authorization is granted, the
      row gives back exactly the authorized webhook, route and intake at every later point. */
  lemma AuthorizedValuesSurvive(codec: Codec, commands: seq<Command>, k: nat)
    requires codec.Sound() && PermittedRun(codec, EMPTY, commands)
    requires k < |commands| && commands[k].AuthorizeDelivery? && WorkerBuilt(codec, commands[k].authorization)
    requires var r := Authorize(codec, SystemRun(codec, EMPTY, commands[..k]).db, commands[k].authorization).1;
             r.Ok? && r.value.Granted?
    ensures var a := commands[k].authorization;
            var db := SystemRun(codec, EMPTY, commands).db;
            && a.deliveryId in db.rows && db.rows[a.deliveryId].authorized
            && var r := Reconstruct(codec, a.deliveryId, db.rows[a.deliveryId]);
               r.Ok? && r.value.normalized == Some(a.normalized) && r.value.route == Some(a.route)
               && r.value.prepared == Some(a.prepared)
  {
    var a := commands[k].authorization;
    PrefixPermitted(codec, commands, k);
    PrefixPermitted(codec, commands, k + 1);
    assert commands[..k + 1][..k] == commands[..k];
    var before, after := SystemRun(codec, EMPTY, commands[..k]).db, SystemRun(codec, EMPTY, commands[..k + 1]).db;
    RunKeeps(codec, commands[..k]);
    RunKeeps(codec, commands[..k + 1]);
    RunKeeps(codec, commands);
    GrantGivesAuthorizedValues(codec, before, a);
    GrantIsStored(codec, before, a);
    RowsOnlyEvolve(codec, commands, k + 1);
    var db := SystemRun(codec, EMPTY, commands).db;
    assert RowInv(codec, a.deliveryId, after.rows[a.deliveryId]);
    assert RowInv(codec, a.deliveryId, db.rows[a.deliveryId]);
    ValuesSurviveEvolution(codec, a.deliveryId, after.rows[a.deliveryId], db.rows[a.deliveryId]);
  }

  lemma GrantIsStored(codec: Codec, db: Database, a: Authorization)
    requires Inv(codec, db)
    requires Authorize(codec, db, a).1.Ok? && Authorize(codec, db, a).1.value.Granted?
    ensures var db' := Authorize(codec, db, a).0;
            && a.deliveryId in db'.rows && db'.rows[a.deliveryId].authorized
            && Reconstruct(codec, a.deliveryId, db'.rows[a.deliveryId]) == Ok(Authorize(codec, db, a).1.value.delivery)
  {
    assert RowInv(codec, a.deliveryId, db.rows[a.deliveryId]);
  }

  lemma {:induction false} PrefixPermitted(codec: Codec, commands: seq<Command>, k: nat)
    requires PermittedRun(codec, EMPTY, commands) && k <= |commands|
    ensures PermittedRun(codec, EMPTY, commands[..k])
  {
    if k == |commands| {
      assert commands[..k] == commands;
    } else {
      PrefixPermitted(codec, commands[..|commands| - 1], k);
      assert commands[..|commands| - 1][..k] == commands[..k];
    }
  }
}
