/** The host's operations over both stores. Each transaction is one step of `TwoStores`; a whole
    worker turn is a permitted run of steps, cut short when the process crashes. */
module Application {
  import opened Outcomes
  import opened Intake
  import opened History
  import opened Runtime
  import opened Inbox
  import opened TwoStores
  import opened WorkerTurn

  /** The authorization transaction on the tables. A collided row without authority is already
      concluded, so classification never meets one. */
  method AuthorizeRow(codec: Codec, db: Database, a: Authorization)
    returns (db': Database, r: Result<Decision, InboxError>)
    requires OneOwner(db)
    requires a.deliveryId in db.rows && db.rows[a.deliveryId].collision.Some? && !db.rows[a.deliveryId].authorized ==>
               db.rows[a.deliveryId].outcome.Some?
    ensures (db', r) == Authorize(codec, db, a)
  {
    db' := db;
    if a.deliveryId !in db.rows {
      return db', Err(DeliveryNotFound);
    }
    var row := db.rows[a.deliveryId];
    var found := Reconstruct(codec, a.deliveryId, row);
    if found.Err? {
      return db', Err(CorruptRow);
    }
    var d := found.value;
    if d.outcome.Some? {
      return db', Ok(Concluded(ResultOf(d, None)));
    }
    if d.digest != a.digest {
      return db', Err(DigestMismatch);
    }
    if a.normalized.deliveryId != a.deliveryId {
      return db', Err(ProvenanceMismatch);
    }
    if a.prepared.observation.pr !in db.workflows {
      return db', Err(NotRegistered);
    }
    if d.authorized {
      var expected := d.(normalized := Some(a.normalized), route := Some(a.route), prepared := Some(a.prepared),
                         outcome := None, reason := None, duplicateOf := None);
      if d == expected {
        return db', Ok(Granted(d));
      }
      return db', Err(AuthorizedMismatch);
    }
    var owner: Option<(string, Option<string>)> := None;
    if id :| id in db.rows && db.rows[id].authorized && db.rows[id].key == Some(a.prepared.key) {
      assert Owns(db, id, a.prepared.key) && OneOwner(db);
      owner := Some((id, db.rows[id].canonical));
    } else {
      assert Owner(db, a.prepared.key).None?;
    }
    row := ClassifiedRow(codec, row, a, owner);
    var written := Reconstruct(codec, a.deliveryId, row);
    if written.Err? {
      return db', Err(CorruptRow);
    }
    db' := Put(db, a.deliveryId, row);
    if written.value.outcome.Some? {
      return db', Ok(Concluded(ResultOf(written.value, None)));
    }
    return db', Ok(Granted(written.value));
  }

  /** The recording transaction on both stores. */
  method RecordRow(codec: Codec, s: System, id: string, e: Engine)
    returns (s': System, r: Result<IntakeResult, Failure>)
    requires OfferFor(codec, s.db, id).Ok? && OfferFor(codec, s.db, id).value.Pending? ==>
               OfferFor(codec, s.db, id).value.pr in s.logs
    ensures s' == SystemStep(codec, s, OfferToHistory(id, e.used, e.next, e.instant, e.crash))
    ensures r == OfferReply(codec, s, id, e)
    ensures r.Ok? ==> id in s'.db.rows && s'.db.rows[id].outcome == Some(r.value.outcome)
    ensures r == Err(Crashed) ==> e.crash && s'.db == s.db
  {
    s' := s;
    var offer := OfferFor(codec, s.db, id);
    if offer.Err? {
      return s', Err(InboxFailure(offer.error));
    }
    if offer.value.Settled? {
      return s', Ok(offer.value.result);
    }
    var pr := offer.value.pr;
    var (log', accepted) := AcceptPrepared(codec, pr, s.logs[pr], pr, offer.value.prepared, e.used, e.next, e.instant);
    s' := s.(logs := s.logs[pr := log']);
    if accepted.Err? {
      return s', Err(HistoryFailure(accepted.error));
    }
    if e.crash {
      return s', Err(Crashed);
    }
    var (db', marked) := MarkRecorded(codec, s.db, id, accepted.value.occurrence);
    s' := s'.(db := db');
    if marked.Err? {
      return s', Err(InboxFailure(marked.error));
    }
    return s', Ok(marked.value);
  }

  /** An action belongs to one pull request and a pull request to one action. What does not clash
      gets a History, unless it has one, and is registered where there is room. */
  ghost predicate Opens(s: System, s': System, pr: PrIdentity, action: string, maximum: nat, opening: Log, lost: bool,
                        r: Result<bool, Failure>)
  {
    var workflows := s.db.workflows;
    var logs' := if pr in s.logs then s.logs else s.logs[pr := opening];
    if exists other :: other in workflows && workflows[other] == action && other != pr
    then s' == s && r == Err(InboxFailure(ActionConflict))
    else if pr in workflows && workflows[pr] != action then s' == s && r == Err(InboxFailure(CorruptRow))
    else if pr !in workflows && |workflows| >= maximum
    then s' == System(s.db, logs') && r == Err(InboxFailure(CapacityExhausted))
    else if lost then s' == System(s.db, logs') && r == Err(Crashed)
    else s' == System(s.db.(workflows := workflows[pr := action]), logs') && r == Ok(pr !in workflows)
  }

  /** The registration transaction, after the History it may create. */
  method OpenRow(ghost codec: Codec, s: System, pr: PrIdentity, action: string, maximum: nat, opening: Log, lost: bool)
    returns (s': System, r: Result<bool, Failure>)
    ensures s' == SystemStep(codec, s, OpenPullRequest(pr, action, maximum, opening, lost))
    ensures Opens(s, s', pr, action, maximum, opening, lost, r)
    ensures r.Ok? ==> pr in s'.db.workflows && s'.db.workflows[pr] == action && pr in s'.logs
  {
    s' := s;
    var workflows := s.db.workflows;
    if other :| other in workflows && workflows[other] == action && other != pr {
      return s', Err(InboxFailure(ActionConflict));
    }
    if pr in workflows && workflows[pr] != action {
      return s', Err(InboxFailure(CorruptRow));
    }
    if pr !in s.logs {
      s' := s.(logs := s.logs[pr := opening]);
    }
    if pr in workflows {
      assert workflows[pr := action] == workflows;
      return s', if lost then Err(Crashed) else Ok(false);
    }
    if |workflows| >= maximum {
      return s', Err(InboxFailure(CapacityExhausted));
    }
    if lost {
      return s', Err(Crashed);
    }
    s' := s'.(db := s.db.(workflows := workflows[pr := action]));
    return s', Ok(true);
  }

  class Host {
    const codec: Codec
    const maximumDeliveries: nat
    const maximumWorkflows: nat
    var db: Database
    var logs: map<PrIdentity, Log>

    ghost function State(): System
      reads this
    {
      System(db, logs)
    }

    ghost predicate Valid()
      reads this
    {
      codec.Sound() && SystemInv(codec, State())
    }

    constructor (codec: Codec, maximumDeliveries: nat, maximumWorkflows: nat)
      requires codec.Sound()
      ensures Valid() && State() == EMPTY && this.codec == codec
    {
      this.codec := codec;
      this.maximumDeliveries := maximumDeliveries;
      this.maximumWorkflows := maximumWorkflows;
      db := Database(map[], map[]);
      logs := map[];
    }

    method ReceiveDelivery(v: Verified) returns (r: Result<Receipt, InboxError>)
      requires Valid()
      modifies this
      ensures Valid() && State() == SystemStep(codec, old(State()), Receive(v, maximumDeliveries))
      ensures ReceiptMeans(codec, old(db), v, maximumDeliveries, db, r)
    {
      RecordingMeans(codec, db, v, maximumDeliveries);
      ReceiveKeeps(codec, State(), v, maximumDeliveries);
      var digest := codec.sha256(v.body);
      if v.deliveryId in db.rows {
        var row := db.rows[v.deliveryId];
        if Reconstruct(codec, v.deliveryId, row).Err? {
          return Err(CorruptRow);
        }
        if row.event == v.event && row.body == v.body && row.digest == digest {
          return Ok(Receipt(v.deliveryId, row.sequence, SameAgain));
        }
        if row.collision.None? {
          var concluded := row.authorized || row.outcome.Some?;
          row := row.(collision := Some(digest));
          if !concluded {
            row := row.(outcome := Some(Rejected), reason := Some("delivery_collision"));
          }
        }
        db := db.(rows := db.rows[v.deliveryId := row]);
        return Ok(Receipt(v.deliveryId, row.sequence, Collision));
      }
      if |db.rows| >= maximumDeliveries {
        return Err(CapacityExhausted);
      }
      var sequence := |db.rows| + 1;
      db := db.(rows := db.rows[v.deliveryId := FirstRow(codec, db, v)]);
      return Ok(Receipt(v.deliveryId, sequence, Received));
    }

    method RejectWith(id: string, reason: string, normalized: Option<Webhook>)
      returns (r: Result<IntakeResult, InboxError>)
      requires Valid()
      modifies this
      ensures Valid() && State() == SystemStep(codec, old(State()), RejectDelivery(id, reason, normalized))
      ensures r == Reject(codec, old(db), id, reason, normalized).1
    {
      RejectStepKeeps(codec, State(), id, reason, normalized);
      if !(1 <= |reason| <= MAX_REASON) {
        return Err(BadReason);
      }
      if id !in db.rows {
        return Err(DeliveryNotFound);
      }
      var row := db.rows[id];
      var found := Reconstruct(codec, id, row);
      if found.Err? {
        return Err(CorruptRow);
      }
      if found.value.outcome.Some? {
        return Ok(ResultOf(found.value, None));
      }
      if found.value.authorized {
        return Err(AuthorizedCannotBeRejected);
      }
      if row.normalized.None? && normalized.Some? {
        row := row.(normalized := Some(codec.webhookJson(normalized.value)));
      }
      row := row.(outcome := Some(Rejected), reason := Some(reason));
      var written := Reconstruct(codec, id, row);
      if written.Err? {
        return Err(CorruptRow);
      }
      db := db.(rows := db.rows[id := row]);
      return Ok(ResultOf(written.value, None));
    }

    method AuthorizeWith(a: Authorization) returns (r: Result<Decision, InboxError>)
      requires Valid()
      modifies this
      ensures Valid() && State() == SystemStep(codec, old(State()), AuthorizeDelivery(a))
      ensures r == Authorize(codec, old(db), a).1
    {
      AuthorizeStepKeeps(codec, State(), a);
      assert a.deliveryId in db.rows ==> RowInv(codec, a.deliveryId, db.rows[a.deliveryId]);
      var db';
      db', r := AuthorizeRow(codec, db, a);
      db := db';
    }

    /** History commits inside this transaction; a crash then loses the inbox commit. */
    method RecordInHistory(id: string, e: Engine) returns (r: Result<IntakeResult, Failure>)
      requires Valid()
      requires Permitted(codec, State(), OfferToHistory(id, e.used, e.next, e.instant, e.crash))
      modifies this
      ensures Valid()
      ensures State() == SystemStep(codec, old(State()), OfferToHistory(id, e.used, e.next, e.instant, e.crash))
      ensures r == OfferReply(codec, old(State()), id, e)
      ensures r.Ok? ==> id in db.rows && db.rows[id].outcome == Some(r.value.outcome)
      ensures r == Err(Crashed) ==> e.crash && db == old(db)
    {
      OfferStepKeeps(codec, State(), id, e.used, e.next, e.instant, e.crash);
      OfferHasHistory(codec, State(), id);
      var s';
      s', r := RecordRow(codec, System(db, logs), id, e);
      db, logs := s'.db, s'.logs;
    }

    /** One worker turn for one delivery, under this worker's routes and policy revision. */
    method ProcessDelivery(id: string, normalize: Normalizer, routes: map<ProviderRoute, string>, policy: string,
                           e: Engine)
      returns (r: Result<IntakeResult, Failure>, ghost commands: seq<Command>)
      requires Valid()
      requires forall pr :: pr in logs ==> Fresh(logs[pr], e.next)
      modifies this
      ensures Valid()
      ensures Turn(codec, old(State()), State(), id, normalize, routes, policy, e, r)
      ensures PermittedRun(codec, old(State()), commands) && State() == SystemRun(codec, old(State()), commands)
      ensures |commands| <= 2
    {
      ghost var start := State();
      commands := [];
      if id !in db.rows {
        return Err(InboxFailure(DeliveryNotFound)), [];
      }
      assert RowInv(codec, id, db.rows[id]);
      var found := Reconstruct(codec, id, db.rows[id]);
      if found.Err? {
        return Err(InboxFailure(CorruptRow)), [];
      }
      var selected := found.value;
      if selected.outcome.Some? {
        return Ok(ResultOf(selected, None)), [];
      }
      if !selected.authorized {
        var done;
        done, commands := Admit(id, selected, normalize, routes, policy, e);
        if done.Some? {
          return done.value, commands;
        }
      } else {
        OfferTurn(codec, start, id, e);
      }
      ghost var offer := OfferToHistory(id, e.used, e.next, e.instant, e.crash);
      r := RecordInHistory(id, e);
      AnotherStep(codec, start, commands, offer);
      commands := commands + [offer];
    }

    /** Authorization of a delivery that has neither authority nor outcome: its result, or nothing
        once it is granted and still to be offered. */
    method Admit(id: string, selected: Delivery, normalize: Normalizer, routes: map<ProviderRoute, string>,
                 policy: string, ghost e: Engine)
      returns (done: Option<Result<IntakeResult, Failure>>, ghost commands: seq<Command>)
      requires Valid() && id in db.rows && Undecided(db.rows[id])
      requires Reconstruct(codec, id, db.rows[id]) == Ok(selected)
      modifies this
      ensures Valid() && logs == old(logs)
      ensures PermittedRun(codec, old(State()), commands) && State() == SystemRun(codec, old(State()), commands)
      ensures |commands| == 1
      ensures done.Some? ==> Turn(codec, old(State()), State(), id, normalize, routes, policy, e, done.value)
      ensures done.None? ==>
                Turn(codec, old(State()),
                     SystemStep(codec, State(), OfferToHistory(id, e.used, e.next, e.instant, e.crash)),
                     id, normalize, routes, policy, e, OfferReply(codec, State(), id, e))
    {
      ghost var start := State();
      var built := AuthorizationFor(codec, selected, normalize, routes, policy);
      if built.Err? {
        var rejected := RejectWith(id, built.error.reason, built.error.normalized);
        commands := [RejectDelivery(id, built.error.reason, built.error.normalized)];
        OneStep(codec, start, commands[0]);
        RefusalTurn(codec, start, id, selected, normalize, routes, policy, e);
        return Some(if rejected.Ok? then Ok(rejected.value) else Err(InboxFailure(rejected.error))), commands;
      }
      var a := built.value;
      BuiltFor(codec, start, id, selected, normalize, routes, policy);
      ghost var n := normalize(Verified(id, db.rows[id].event, db.rows[id].body));
      var decision := AuthorizeWith(a);
      commands := [AuthorizeDelivery(a)];
      OneStep(codec, start, commands[0]);
      if decision.Err? {
        DeniedTurn(codec, start, a, n, routes, e);
        return Some(Err(InboxFailure(decision.error))), commands;
      }
      if decision.value.Concluded? {
        ConcludedTurn(codec, start, a, n, routes, e);
        return Some(Ok(decision.value.result)), commands;
      }
      GrantThenOffer(codec, start, a, n, routes, e);
      done := None;
    }

    /** Opening creates the PR's History when it has none, then registers the workflow; `lost`
        loses the registration's commit. */
    method OpenPullRequestWorkflow(pr: PrIdentity, action: string, opening: Log, lost: bool)
      returns (r: Result<bool, Failure>)
      requires Valid() && Opening(opening)
      modifies this
      ensures Valid()
      ensures State() == SystemStep(codec, old(State()), OpenPullRequest(pr, action, maximumWorkflows, opening, lost))
      ensures r.Ok? ==> pr in db.workflows && db.workflows[pr] == action && pr in logs
      ensures Opens(old(State()), State(), pr, action, maximumWorkflows, opening, lost, r)
    {
      OpenStepKeeps(codec, State(), pr, action, maximumWorkflows, opening, lost);
      var s';
      s', r := OpenRow(codec, System(db, logs), pr, action, maximumWorkflows, opening, lost);
      db, logs := s'.db, s'.logs;
    }

    method CompleteNextObservation(pr: PrIdentity, used: nat) returns (r: Result<Completion, Failure>)
      requires Valid()
      modifies this
      ensures Valid() && State() == SystemStep(codec, old(State()), CompleteObservation(pr, used))
      ensures CompletionAnswers(old(State()), logs, pr, used, r)
    {
      logs, r := CompleteStep(codec, System(db, logs), pr, used);
    }
  }

  /** What the observations of a History show of a completion: the first unfinished one is now
      finished and nothing else changed, or all were finished and the last is reported. */
  ghost predicate Completes(before: Log, after: Log, c: Completion) {
    && ParseLog(before).Ok? && ParseLog(after).Ok?
    && var was, now := ParseLog(before).value, ParseLog(after).value;
       match c.disposition
       case CompletedNow =>
         exists k :: && 0 <= k < |was| && !was[k].finished && (forall j :: 0 <= j < k ==> was[j].finished)
                     && now == was[k := was[k].(finished := true)]
                     && c.identity == was[k].bridged.identity && c.occurrence == was[k].occurrence
       case AlreadyCompleted =>
         && after == before && was != [] && (forall k :: 0 <= k < |was| ==> was[k].finished)
         && c.identity == was[|was| - 1].bridged.identity && c.occurrence == was[|was| - 1].occurrence
  }

  /** Nothing was accepted for this workflow, and its History can be read. */
  ghost predicate NothingAccepted(log: Log, used: nat) {
    ParseLog(log) == Ok([]) && used <= MAX_BYTES && |log| <= MAX_RECORDS
  }

  /** History is past its bounds, or an unfinished observation finds no room for two more records. */
  ghost predicate NoRoomToComplete(log: Log, used: nat) {
    || used > MAX_BYTES || |log| > MAX_RECORDS
    || (&& ParseLog(log).Ok?
        && (exists k :: 0 <= k < |ParseLog(log).value| && !ParseLog(log).value[k].finished)
        && (|log| + 2 > MAX_RECORDS || used + HEADROOM > MAX_BYTES))
  }

  /** What a completion answers: the first unfinished observation was finished or the last is
      reported, or nothing changed, for exactly these reasons. */
  ghost predicate CompletionAnswers(s: System, logs: map<PrIdentity, Log>, pr: PrIdentity, used: nat,
                                    r: Result<Completion, Failure>)
  {
    && (r == Err(InboxFailure(NotRegistered)) <==> pr !in s.db.workflows)
    && (r.Err? ==> logs == s.logs
                   && r.error in {InboxFailure(NotRegistered), HistoryFailure(HistoryCapacity),
                                  HistoryFailure(NotAccepted)})
    && (r.Ok? ==> pr in s.logs && pr in logs && Completes(s.logs[pr], logs[pr], r.value))
    && (pr in s.db.workflows ==>
          && pr in s.logs
          && (r == Err(HistoryFailure(NotAccepted)) <==> NothingAccepted(s.logs[pr], used))
          && (r == Err(HistoryFailure(HistoryCapacity)) <==> NoRoomToComplete(s.logs[pr], used)))
  }

  lemma CompletionKeeps(codec: Codec, s: System, pr: PrIdentity, used: nat)
    requires SystemInv(codec, s) && pr in s.db.workflows
    ensures SystemInv(codec, SystemStep(codec, s, CompleteObservation(pr, used)))
  {
    assert pr in s.logs by { RegisteredLog(codec, s, pr); }
    CompleteStepIs(codec, s, pr, used, CompleteNext(s.logs[pr], used).0);
    CompleteStepKeeps(codec, s, pr, used);
  }

  lemma RegisteredLog(codec: Codec, s: System, pr: PrIdentity)
    requires SystemInv(codec, s) && pr in s.db.workflows
    ensures pr in s.logs && WellLogged(s.logs[pr])
  {
  }

  lemma CompleteStepIs(codec: Codec, s: System, pr: PrIdentity, used: nat, log': Log)
    requires pr in s.db.workflows && pr in s.logs && log' == CompleteNext(s.logs[pr], used).0
    ensures SystemStep(codec, s, CompleteObservation(pr, used)) == System(s.db, s.logs[pr := log'])
    ensures log' == s.logs[pr] ==> SystemStep(codec, s, CompleteObservation(pr, used)) == s
  {
    if log' == s.logs[pr] { assert s.logs[pr := log'] == s.logs; }
  }

  /** One completion on one History, through the runtime loaded for its workflow. */
  method CompleteIn(pr: PrIdentity, log: Log, used: nat) returns (log': Log, r: Result<Completion, RuntimeError>)
    requires WellLogged(log)
    ensures log' == CompleteNext(log, used).0
    ensures r.Ok? ==> Completes(log, log', r.value)
    ensures r.Err? ==> log' == log && r.error in {HistoryCapacity, NotAccepted}
    ensures r == Err(NotAccepted) <==> NothingAccepted(log, used)
    ensures r == Err(HistoryCapacity) <==> NoRoomToComplete(log, used)
  {
    ghost var q: Queue, at :| Represents(log, q, at);
    ghost var q';
    log', r, q' := CompleteLoaded(pr, log, q, at, used);
    assert ParseLog(log) == Ok(Observed(q)) by { ParseRefinesQueue(log, q, at); }
    RefusalsAreSeen(log, q, used);
    if r.Ok? { FinishingIsSeen(log, log', q, q', r.value); }
  }

  /** The same in terms of the queue that History represents. */
  method CompleteLoaded(pr: PrIdentity, log: Log, ghost q: Queue, ghost at: seq<nat>, used: nat)
    returns (log': Log, r: Result<Completion, RuntimeError>, ghost q': Queue)
    requires Represents(log, q, at)
    ensures log' == CompleteNext(log, used).0 && ParseLog(log') == Ok(Observed(q'))
    ensures r.Ok? ==> Finishes(q, q', r.value) && (r.value.disposition == AlreadyCompleted ==> log' == log)
    ensures r.Err? ==> log' == log && r.error in {HistoryCapacity, NotAccepted}
    ensures r == Err(NotAccepted) <==> q == [] && used <= MAX_BYTES && |log| <= MAX_RECORDS
    ensures r == Err(HistoryCapacity) <==>
              || used > MAX_BYTES || |log| > MAX_RECORDS
              || ((exists k :: 0 <= k < |q| && !q[k].finished)
                  && (|log| + 2 > MAX_RECORDS || used + HEADROOM > MAX_BYTES))
  {
    var runtime := new ReadinessRuntime.Load(pr, log, q, at);
    r := runtime.CompleteNextObservation(pr, used);
    log', q' := runtime.log, runtime.queue;
    assert ParseLog(log') == Ok(Observed(q')) by { ParseRefinesQueue(log', q', runtime.at); }
  }

  /** From the queue to the observations: when nothing was accepted, and when there is no room. */
  lemma RefusalsAreSeen(log: Log, q: Queue, used: nat)
    requires ParseLog(log) == Ok(Observed(q))
    ensures NothingAccepted(log, used) <==> q == [] && used <= MAX_BYTES && |log| <= MAX_RECORDS
    ensures NoRoomToComplete(log, used) <==>
              || used > MAX_BYTES || |log| > MAX_RECORDS
              || ((exists k :: 0 <= k < |q| && !q[k].finished)
                  && (|log| + 2 > MAX_RECORDS || used + HEADROOM > MAX_BYTES))
  {
    assert |Observed(q)| == |q| && forall k :: 0 <= k < |q| ==> Observed(q)[k].finished == q[k].finished;
    if k :| 0 <= k < |q| && !q[k].finished { assert !Observed(q)[k].finished; }
  }

  method CompleteStep(ghost codec: Codec, s: System, pr: PrIdentity, used: nat)
    returns (logs: map<PrIdentity, Log>, r: Result<Completion, Failure>)
    requires SystemInv(codec, s)
    ensures System(s.db, logs) == SystemStep(codec, s, CompleteObservation(pr, used))
    ensures SystemInv(codec, System(s.db, logs))
    ensures CompletionAnswers(s, logs, pr, used, r)
  {
    if pr !in s.db.workflows {
      return s.logs, Err(InboxFailure(NotRegistered));
    }
    logs, r := CompleteRegistered(codec, s, pr, used);
  }

  method CompleteRegistered(ghost codec: Codec, s: System, pr: PrIdentity, used: nat)
    returns (logs: map<PrIdentity, Log>, r: Result<Completion, Failure>)
    requires SystemInv(codec, s) && pr in s.db.workflows
    ensures System(s.db, logs) == SystemStep(codec, s, CompleteObservation(pr, used))
    ensures SystemInv(codec, System(s.db, logs))
    ensures r.Err? ==> logs == s.logs && r.error in {HistoryFailure(HistoryCapacity), HistoryFailure(NotAccepted)}
    ensures r.Ok? ==> pr in s.logs && pr in logs && Completes(s.logs[pr], logs[pr], r.value)
    ensures pr in s.logs && (r == Err(HistoryFailure(NotAccepted)) <==> NothingAccepted(s.logs[pr], used))
    ensures r == Err(HistoryFailure(HistoryCapacity)) <==> NoRoomToComplete(s.logs[pr], used)
  {
    CompletionKeeps(codec, s, pr, used);
    RegisteredLog(codec, s, pr);
    var log', completion := CompleteIn(pr, s.logs[pr], used);
    CompleteStepIs(codec, s, pr, used, log');
    if completion.Err? {
      return s.logs, Err(HistoryFailure(completion.error));
    }
    return s.logs[pr := log'], Ok(completion.value);
  }

  /** From the queues to the observations. */
  lemma FinishingIsSeen(log: Log, log': Log, q: Queue, q': Queue, c: Completion)
    requires ParseLog(log) == Ok(Observed(q)) && ParseLog(log') == Ok(Observed(q')) && Finishes(q, q', c)
    requires c.disposition == AlreadyCompleted ==> log' == log
    ensures Completes(log, log', c)
  {
    if c.disposition == CompletedNow {
      ObservedFinishing(q, q', c);
    }
  }

  lemma ObservedFinishing(q: Queue, q': Queue, c: Completion)
    requires Finishes(q, q', c) && c.disposition == CompletedNow
    ensures var was, now := Observed(q), Observed(q');
            exists k :: && 0 <= k < |was| && !was[k].finished && (forall j :: 0 <= j < k ==> was[j].finished)
                        && now == was[k := was[k].(finished := true)]
                        && c.identity == was[k].bridged.identity && c.occurrence == was[k].occurrence
  {
    var k :| && 0 <= k < |q| && !q[k].finished && (forall j :: 0 <= j < k ==> q[j].finished)
             && q' == q[k := q[k].(finished := true)]
             && c.identity == q[k].bridged.identity && c.occurrence == q[k].occurrence;
    assert !Observed(q)[k].finished;
    assert Observed(q') == Observed(q)[k := Observed(q)[k].(finished := true)];
  }

  lemma OfferHasHistory(codec: Codec, s: System, id: string)
    requires SystemInv(codec, s) && codec.Sound()
    ensures OfferFor(codec, s.db, id).Ok? && OfferFor(codec, s.db, id).value.Pending? ==>
              OfferFor(codec, s.db, id).value.pr in s.logs
  {
    if OfferFor(codec, s.db, id).Ok? && OfferFor(codec, s.db, id).value.Pending? { OfferIsClaimed(codec, s, id); }
  }

  lemma OneStep(codec: Codec, s: System, c: Command)
    requires Permitted(codec, s, c)
    ensures PermittedRun(codec, s, [c]) && SystemRun(codec, s, [c]) == SystemStep(codec, s, c)
  {
    assert [c][..0] == [];
    assert PermittedRun(codec, s, []);
  }

  lemma AnotherStep(codec: Codec, s: System, commands: seq<Command>, c: Command)
    requires PermittedRun(codec, s, commands) && Permitted(codec, SystemRun(codec, s, commands), c)
    ensures PermittedRun(codec, s, commands + [c])
    ensures SystemRun(codec, s, commands + [c]) == SystemStep(codec, SystemRun(codec, s, commands), c)
  {
    assert (commands + [c])[..|commands|] == commands;
  }
}
