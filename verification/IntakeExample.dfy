/** A codec that meets every hypothesis of the intake theorems, and a run under it that reaches
    History: the theorems speak of something. */
module IntakeExample {
  import opened Outcomes
  import opened Intake
  import opened History
  import opened Runtime
  import opened Inbox
  import opened TwoStores
  import opened IntakeRuns
  import opened Application

  // ---------------------------------------------------------------- an invertible encoding

  function Marks(n: nat): (r: string)
    ensures |r| == n && forall i :: 0 <= i < n ==> r[i] == '1'
  {
    seq(n, _ => '1')
  }

  /** A text behind its length. */
  function Frame(text: string): string {
    Marks(|text|) + ";" + text
  }

  lemma FrameSplits(a: string, x: string, b: string, y: string)
    requires Frame(a) + x == Frame(b) + y
    ensures a == b && x == y
  {
    var s, t := Frame(a) + x, Frame(b) + y;
    assert forall i :: 0 <= i < |a| ==> s[i] == '1';
    assert forall i :: 0 <= i < |b| ==> t[i] == '1';
    assert s[|a|] == ';' && t[|b|] == ';';
    assert |a| == |b|;
    assert s[|a| + 1..2 * |a| + 1] == a && t[|a| + 1..2 * |a| + 1] == b;
    assert s[2 * |a| + 1..] == x && t[2 * |a| + 1..] == y;
  }

  function Frames(fields: seq<string>): string {
    if fields == [] then "" else Frame(fields[0]) + Frames(fields[1..])
  }

  lemma {:induction false} FramesAreInjective(a: seq<string>, b: seq<string>)
    requires |a| == |b| && Frames(a) == Frames(b)
    ensures a == b
  {
    if a != [] {
      FrameSplits(a[0], Frames(a[1..]), b[0], Frames(b[1..]));
      FramesAreInjective(a[1..], b[1..]);
      assert a == [a[0]] + a[1..] && b == [b[0]] + b[1..];
    }
  }

  function Flag(b: bool): string {
    if b then "1" else ""
  }

  function Choice(b: Option<bool>): string {
    match b
    case None => ""
    case Some(v) => if v then "1" else "0"
  }

  function PrFields(pr: PrIdentity): seq<string> {
    [Marks(pr.installation), Marks(pr.repository), Marks(pr.number)]
  }

  function TipFields(t: BranchTip): seq<string> {
    [Marks(t.repository), t.ref, t.sha]
  }

  lemma PrFieldsAreInjective(a: PrIdentity, b: PrIdentity)
    requires PrFields(a) == PrFields(b)
    ensures a == b
  {
    assert forall i :: 0 <= i < 3 ==> |PrFields(a)[i]| == |PrFields(b)[i]|;
  }

  lemma TipFieldsAreInjective(a: BranchTip, b: BranchTip)
    requires TipFields(a) == TipFields(b)
    ensures a == b
  {
    assert forall i :: 0 <= i < 3 ==> TipFields(a)[i] == TipFields(b)[i];
  }

  /** Three records of three fields and four flags, in that order. */
  function Grouped(pr: PrIdentity, head: BranchTip, base: BranchTip, rest: seq<string>): string {
    Frames([Frames(PrFields(pr)), Frames(TipFields(head)), Frames(TipFields(base)), Frames(rest)])
  }

  lemma GroupedIsInjective(pr: PrIdentity, head: BranchTip, base: BranchTip, rest: seq<string>,
                           pr': PrIdentity, head': BranchTip, base': BranchTip, rest': seq<string>)
    requires Grouped(pr, head, base, rest) == Grouped(pr', head', base', rest') && |rest| == |rest'|
    ensures pr == pr' && head == head' && base == base' && rest == rest'
  {
    var a := [Frames(PrFields(pr)), Frames(TipFields(head)), Frames(TipFields(base)), Frames(rest)];
    var b := [Frames(PrFields(pr')), Frames(TipFields(head')), Frames(TipFields(base')), Frames(rest')];
    FramesAreInjective(a, b);
    assert a[0] == b[0] && a[1] == b[1] && a[2] == b[2] && a[3] == b[3];
    FramesAreInjective(PrFields(pr), PrFields(pr'));
    FramesAreInjective(TipFields(head), TipFields(head'));
    FramesAreInjective(TipFields(base), TipFields(base'));
    FramesAreInjective(rest, rest');
    PrFieldsAreInjective(pr, pr');
    TipFieldsAreInjective(head, head');
    TipFieldsAreInjective(base, base');
  }

  function Flags(state: Lifecycle, draft: bool, merged: bool, mergeable: Option<bool>): seq<string> {
    [Flag(state == Open), Flag(draft), Flag(merged), Choice(mergeable)]
  }

  lemma FlagsAreInjective(s: Lifecycle, d: bool, m: bool, g: Option<bool>, s': Lifecycle, d': bool, m': bool,
                          g': Option<bool>)
    requires Flags(s, d, m, g) == Flags(s', d', m', g')
    ensures s == s' && d == d' && m == m' && g == g'
  {
    var a, b := Flags(s, d, m, g), Flags(s', d', m', g');
    assert a[0] == b[0] && a[1] == b[1] && a[2] == b[2] && a[3] == b[3];
  }

  function ObservationText(o: HeadObservation): string {
    Grouped(o.pr, o.head, o.base, Flags(o.lifecycle, o.draft, o.merged, o.mergeable))
  }

  lemma ObservationTextIsInjective(o: HeadObservation, o': HeadObservation)
    requires ObservationText(o) == ObservationText(o')
    ensures o == o'
  {
    GroupedIsInjective(o.pr, o.head, o.base, Flags(o.lifecycle, o.draft, o.merged, o.mergeable),
                       o'.pr, o'.head, o'.base, Flags(o'.lifecycle, o'.draft, o'.merged, o'.mergeable));
    FlagsAreInjective(o.lifecycle, o.draft, o.merged, o.mergeable, o'.lifecycle, o'.draft, o'.merged, o'.mergeable);
  }

  function SnapshotText(s: Snapshot): string {
    Grouped(s.pr, s.head, s.base, Flags(s.state, s.draft, s.merged, s.mergeable))
  }

  lemma SnapshotTextIsInjective(s: Snapshot, s': Snapshot)
    requires SnapshotText(s) == SnapshotText(s') && s.updatedAt == s'.updatedAt
    ensures s == s'
  {
    GroupedIsInjective(s.pr, s.head, s.base, Flags(s.state, s.draft, s.merged, s.mergeable),
                       s'.pr, s'.head, s'.base, Flags(s'.state, s'.draft, s'.merged, s'.mergeable));
    FlagsAreInjective(s.state, s.draft, s.merged, s.mergeable, s'.state, s'.draft, s'.merged, s'.mergeable);
  }

  function Below(n: int): string {
    if n < 0 then Marks(-n) else ""
  }

  function Above(n: int): string {
    if n > 0 then Marks(n) else ""
  }

  function WebhookFields(w: Webhook): seq<string> {
    [Marks(w.route.installation), Marks(w.route.repository), w.route.fullName, SnapshotText(w.snapshot),
     Below(w.snapshot.updatedAt), Above(w.snapshot.updatedAt), w.deliveryId, w.action]
  }

  function WebhookText(w: Webhook): string {
    Frames(WebhookFields(w))
  }

  lemma WebhookTextIsInjective(w: Webhook, w': Webhook)
    requires WebhookText(w) == WebhookText(w')
    ensures w == w'
  {
    var a, b := WebhookFields(w), WebhookFields(w');
    FramesAreInjective(a, b);
    assert a[0] == b[0] && a[1] == b[1] && a[2] == b[2] && a[3] == b[3];
    assert a[4] == b[4] && a[5] == b[5] && a[6] == b[6] && a[7] == b[7];
    assert |a[0]| == |b[0]| && |a[1]| == |b[1]| && |a[4]| == |b[4]| && |a[5]| == |b[5]|;
    assert w.snapshot.updatedAt == w'.snapshot.updatedAt;
    SnapshotTextIsInjective(w.snapshot, w'.snapshot);
  }

  // ---------------------------------------------------------------- the codec

  ghost function ReadObservation(text: string): Option<HeadObservation> {
    if exists o :: ObservationText(o) == text then
      var o :| ObservationText(o) == text; Some(o)
    else None
  }

  ghost function ReadWebhook(text: string): Option<Webhook> {
    if exists w :: WebhookText(w) == text then
      var w :| WebhookText(w) == text; Some(w)
    else None
  }

  /** The worst hash there is: every digest is the same. */
  ghost function ExampleCodec(): Codec {
    Codec(_ => seq(64, _ => '0'), o => ObservationText(o), text => ReadObservation(text), w => WebhookText(w),
          text => ReadWebhook(text), (k, p) => Frames([k, p]))
  }

  lemma ReadsObservation(o: HeadObservation)
    ensures ReadObservation(ObservationText(o)) == Some(o)
  {
    var text := ObservationText(o);
    assert ObservationText(o) == text;
    ObservationTextIsInjective(o, ReadObservation(text).value);
  }

  lemma ReadsWebhook(w: Webhook)
    ensures ReadWebhook(WebhookText(w)) == Some(w)
  {
    var text := WebhookText(w);
    assert WebhookText(w) == text;
    WebhookTextIsInjective(w, ReadWebhook(text).value);
  }

  lemma PairsAreInjective(k: string, p: string, k': string, p': string)
    requires Frames([k, p]) == Frames([k', p'])
    ensures k == k' && p == p'
  {
    FramesAreInjective([k, p], [k', p']);
    assert [k, p][0] == [k', p'][0] && [k, p][1] == [k', p'][1];
  }

  lemma ExampleCodecIsSound()
    ensures ExampleCodec().Sound() && ExampleCodec().Unambiguous()
  {
    var c := ExampleCodec();
    forall o ensures c.observationFromJson(c.observationJson(o)) == Some(o) { ReadsObservation(o); }
    forall w ensures c.webhookFromJson(c.webhookJson(w)) == Some(w) { ReadsWebhook(w); }
    forall k, p, k', p' | c.materialJson(k, p) == c.materialJson(k', p') ensures k == k' && p == p' {
      PairsAreInjective(k, p, k', p');
    }
  }

  // ---------------------------------------------------------------- a run that reaches History

  predicate Bridgeable(w: Webhook) {
    w.snapshot.state == Open && !w.snapshot.draft && !w.snapshot.merged
  }

  function PreparedFor(codec: Codec, w: Webhook, policy: string): PreparedIntake
    requires Bridgeable(w)
  {
    PrepareHeadIntake(codec, ProjectHead(w.snapshot), policy).value
  }

  function AuthorizationFor(codec: Codec, w: Webhook, body: string, route: string, policy: string): Authorization
    requires Bridgeable(w)
  {
    Authorization(w.deliveryId, codec.sha256(body), route, w, PreparedFor(codec, w, policy))
  }

  /** Open the pull request, receive its webhook, authorize it, offer it to History. */
  function FirstDelivery(codec: Codec, w: Webhook, event: string, body: string, route: string, policy: string,
                         action: string)
    : seq<Command>
    requires Bridgeable(w)
  {
    [OpenPullRequest(w.snapshot.pr, action, 1, [], false), Receive(Verified(w.deliveryId, event, body), 1),
     AuthorizeDelivery(AuthorizationFor(codec, w, body, route, policy)),
     OfferToHistory(w.deliveryId, 0, 1, None, false)]
  }

  function Opened(w: Webhook, action: string): System {
    System(Database(map[], map[w.snapshot.pr := action]), map[w.snapshot.pr := []])
  }

  function Stored(codec: Codec, w: Webhook, event: string, body: string, action: string): System {
    var s := Opened(w, action);
    s.(db := Put(s.db, w.deliveryId, FirstRow(codec, s.db, Verified(w.deliveryId, event, body))))
  }

  function Authorized(codec: Codec, w: Webhook, event: string, body: string, route: string, policy: string,
                      action: string)
    : System
    requires Bridgeable(w)
  {
    var s := Stored(codec, w, event, body, action);
    s.(db := Put(s.db, w.deliveryId,
                 ClassifiedRow(codec, s.db.rows[w.deliveryId], AuthorizationFor(codec, w, body, route, policy), None)))
  }

  lemma OpensAndStores(codec: Codec, w: Webhook, event: string, body: string, action: string)
    ensures SystemStep(codec, EMPTY, OpenPullRequest(w.snapshot.pr, action, 1, [], false)) == Opened(w, action)
    ensures SystemStep(codec, Opened(w, action), Receive(Verified(w.deliveryId, event, body), 1))
            == Stored(codec, w, event, body, action)
  {
  }

  lemma Authorizes(codec: Codec, w: Webhook, event: string, body: string, route: string, policy: string, action: string)
    requires codec.Sound() && Bridgeable(w)
    ensures SystemStep(codec, Stored(codec, w, event, body, action),
                       AuthorizeDelivery(AuthorizationFor(codec, w, body, route, policy)))
            == Authorized(codec, w, event, body, route, policy, action)
  {
    var s, a := Stored(codec, w, event, body, action), AuthorizationFor(codec, w, body, route, policy);
    assert forall id :: !Owns(s.db, id, a.prepared.key);
    assert OwnerColumns(s.db, a.prepared.key) == None;
    AuthorizedRoundTrip(codec, s.db.rows[w.deliveryId], a, None);
  }

  lemma Offers(codec: Codec, w: Webhook, event: string, body: string, route: string, policy: string, action: string)
    requires codec.Sound() && Bridgeable(w)
    ensures OfferFor(codec, Authorized(codec, w, event, body, route, policy, action).db, w.deliveryId)
            == Ok(Pending(w.snapshot.pr, PreparedFor(codec, w, policy)))
  {
    var s := Stored(codec, w, event, body, action);
    AuthorizedRoundTrip(codec, s.db.rows[w.deliveryId], AuthorizationFor(codec, w, body, route, policy), None);
  }

  /** An empty History takes its first delivery. */
  lemma AcceptsFirst(b: BridgedDelivery)
    requires WellBridged(b)
    ensures AcceptDelivery([], b, 0, 1, None)
            == ([Delivered(Entry(b, 1, None, false)), Begun(b.source, 1, None)], Ok(Acceptance(1, false)))
  {
    var q: Queue := [];
    assert Represents([], q, []);
    ParseRefinesQueue([], q, []);
    AcceptUnknown([], q, [], b, 0, 1, None);
    assert [] + [Delivered(Entry(b, 1, None, false)), Begun(b.source, 1, None)]
        == [Delivered(Entry(b, 1, None, false)), Begun(b.source, 1, None)];
  }

  function BridgedFor(codec: Codec, w: Webhook, policy: string): BridgedDelivery
    requires Bridgeable(w)
  {
    BridgeHeadDelivery(codec, PreparedFor(codec, w, policy)).value
  }

  lemma RecordsInHistory(codec: Codec, w: Webhook, event: string, body: string, route: string, policy: string,
                         action: string)
    requires codec.Sound() && Bridgeable(w)
    ensures var t := Authorized(codec, w, event, body, route, policy, action);
            var s := SystemStep(codec, t, OfferToHistory(w.deliveryId, 0, 1, None, false));
            var b := BridgedFor(codec, w, policy);
            && s.logs == map[w.snapshot.pr := [Delivered(Entry(b, 1, None, false)), Begun(b.source, 1, None)]]
            && s.db == MarkRecorded(codec, t.db, w.deliveryId, 1).0
  {
    var t := Authorized(codec, w, event, body, route, policy, action);
    var b := BridgedFor(codec, w, policy);
    Offers(codec, w, event, body, route, policy, action);
    BridgedIsWellFormed(codec, PreparedFor(codec, w, policy));
    AcceptsFirst(b);
    OfferShape(codec, t, w.deliveryId, 0, 1, None, false, Pending(w.snapshot.pr, PreparedFor(codec, w, policy)), b);
  }

  lemma RecordedRowOf(codec: Codec, w: Webhook, event: string, body: string, route: string, policy: string,
                      action: string)
    requires codec.Sound() && Bridgeable(w)
    ensures var t := Authorized(codec, w, event, body, route, policy, action);
            MarkRecorded(codec, t.db, w.deliveryId, 1).0
            == Put(t.db, w.deliveryId, RecordedRow(t.db.rows[w.deliveryId]))
  {
    var t := Authorized(codec, w, event, body, route, policy, action);
    Offers(codec, w, event, body, route, policy, action);
    RecordingSucceeds(codec, t.db, w.deliveryId, 1);
  }

  /** For every sound codec and every open head: a permitted run records the delivery and puts it
      in History. One authorized row cannot collide, so the run meets the hypotheses of
      `ExactlyOnce` whatever the hash. */
  lemma FirstDeliveryIsRecorded(codec: Codec, w: Webhook, event: string, body: string, route: string, policy: string,
                                action: string)
    requires codec.Sound() && codec.Unambiguous() && Bridgeable(w)
    ensures var commands := FirstDelivery(codec, w, event, body, route, policy, action);
            var s := SystemRun(codec, EMPTY, commands);
            && PermittedRun(codec, EMPTY, commands) && CollisionFree(codec, s.db)
            && w.deliveryId in s.db.rows && s.db.rows[w.deliveryId].outcome == Some(Recorded)
            && DeliveredFor(s, w.snapshot.pr, 0, w.deliveryId)
  {
    var commands := FirstDelivery(codec, w, event, body, route, policy, action);
    OpensAndStores(codec, w, event, body, action);
    Authorizes(codec, w, event, body, route, policy, action);
    RecordsInHistory(codec, w, event, body, route, policy, action);
    RecordedRowOf(codec, w, event, body, route, policy, action);
    RunsThrough(codec, commands, Opened(w, action), Stored(codec, w, event, body, action),
                Authorized(codec, w, event, body, route, policy, action));
    var b := BridgedFor(codec, w, policy);
    BridgedIsWellFormed(codec, PreparedFor(codec, w, policy));
    FocusedIdentity(b);
  }

  lemma RunsThrough(codec: Codec, commands: seq<Command>, s1: System, s2: System, s3: System)
    requires |commands| == 4
    requires Permitted(codec, EMPTY, commands[0]) && SystemStep(codec, EMPTY, commands[0]) == s1
    requires Permitted(codec, s1, commands[1]) && SystemStep(codec, s1, commands[1]) == s2
    requires Permitted(codec, s2, commands[2]) && SystemStep(codec, s2, commands[2]) == s3
    requires Permitted(codec, s3, commands[3])
    ensures PermittedRun(codec, EMPTY, commands)
    ensures SystemRun(codec, EMPTY, commands) == SystemStep(codec, s3, commands[3])
  {
    OneStep(codec, EMPTY, commands[0]);
    AnotherStep(codec, EMPTY, [commands[0]], commands[1]);
    AnotherStep(codec, EMPTY, [commands[0]] + [commands[1]], commands[2]);
    AnotherStep(codec, EMPTY, [commands[0]] + [commands[1]] + [commands[2]], commands[3]);
    assert commands == [commands[0]] + [commands[1]] + [commands[2]] + [commands[3]];
  }

  /** All hypotheses of `ExactlyOnce` together, on a run that delivers something. */
  lemma HypothesesAreMet(w: Webhook)
    requires Bridgeable(w)
    ensures exists codec: Codec, commands ::
              && codec.Sound() && PermittedRun(codec, EMPTY, commands)
              && CollisionFree(codec, SystemRun(codec, EMPTY, commands).db)
              && DeliveredFor(SystemRun(codec, EMPTY, commands), w.snapshot.pr, 0, w.deliveryId)
  {
    ExampleCodecIsSound();
    FirstDeliveryIsRecorded(ExampleCodec(), w, "pull_request", "", "", "", "");
  }

  // ---------------------------------------------------------------- a crash and its recovery

  /** The same run with the crash between the two commits: History has the delivery, the row is
      still pending, and offering it once more records it without growth. */
  lemma CrashedDeliveryIsRecovered(codec: Codec, w: Webhook, event: string, body: string, route: string, policy: string,
                                   action: string)
    requires codec.Sound() && Bridgeable(w)
    ensures var commands := FirstDelivery(codec, w, event, body, route, policy, action)[..3]
                            + [OfferToHistory(w.deliveryId, 0, 1, None, true)];
            var crashed := SystemRun(codec, EMPTY, commands);
            var recovered := SystemStep(codec, crashed, OfferToHistory(w.deliveryId, 0, 2, None, false));
            && PermittedRun(codec, EMPTY, commands)
            && w.deliveryId in crashed.db.rows && crashed.db.rows[w.deliveryId].outcome == None
            && recovered.logs == crashed.logs
            && w.deliveryId in recovered.db.rows && recovered.db.rows[w.deliveryId].outcome == Some(Recorded)
  {
    var crash := OfferToHistory(w.deliveryId, 0, 1, None, true);
    var commands := FirstDelivery(codec, w, event, body, route, policy, action)[..3] + [crash];
    var t := Authorized(codec, w, event, body, route, policy, action);
    OpensAndStores(codec, w, event, body, action);
    Authorizes(codec, w, event, body, route, policy, action);
    RunsThrough(codec, commands, Opened(w, action), Stored(codec, w, event, body, action), t);
    var crashed := SystemRun(codec, EMPTY, commands);
    CrashesBetween(codec, w, event, body, route, policy, action);
    RunKeeps(codec, commands);
    Offers(codec, w, event, body, route, policy, action);
    ReplayRecordsWithoutGrowth(codec, crashed, w.deliveryId, 0, 2, None);
  }

  lemma CrashesBetween(codec: Codec, w: Webhook, event: string, body: string, route: string, policy: string,
                       action: string)
    requires codec.Sound() && Bridgeable(w)
    ensures var t := Authorized(codec, w, event, body, route, policy, action);
            var s := SystemStep(codec, t, OfferToHistory(w.deliveryId, 0, 1, None, true));
            && s.db == t.db && w.snapshot.pr in s.logs && |s.logs[w.snapshot.pr]| == 2
            && Logged(s.logs[w.snapshot.pr], PreparedFor(codec, w, policy).identity)
  {
    var t := Authorized(codec, w, event, body, route, policy, action);
    var b := BridgedFor(codec, w, policy);
    Offers(codec, w, event, body, route, policy, action);
    BridgedIsWellFormed(codec, PreparedFor(codec, w, policy));
    AcceptsFirst(b);
    FocusedIdentity(b);
    OfferShape(codec, t, w.deliveryId, 0, 1, None, true, Pending(w.snapshot.pr, PreparedFor(codec, w, policy)), b);
    var log := [Delivered(Entry(b, 1, None, false)), Begun(b.source, 1, None)];
    assert IsBridgeDelivery(log[0]) && log[0].identity == b.identity;
  }

  /** The hypotheses of the runtime theorems, on a run with something left to complete. */
  lemma RuntimeHypothesesAreMet(b: BridgedDelivery)
    requires WellBridged(b)
    ensures Opening([]) && AdmissibleRun([], [Accept(b, 0, 1, None)])
    ensures ParseLog(Run([], [Accept(b, 0, 1, None)]).0) == Ok([Observation(b, 1, false)])
    ensures |Run([], [Accept(b, 0, 1, None)]).0| == 2
  {
    var calls := [Accept(b, 0, 1, None)];
    assert calls[..0] == [];
    assert Run([], []).0 == [] && AdmissibleRun([], []);
    AcceptsFirst(b);
    var at := RunSimulates([], calls);
    LogRefinement([], calls);
    assert ModelRun(Model([], 0), calls[..0]).0 == Model([], 0);
    assert [] + [Entry(b, 1, None, false)] == [Entry(b, 1, None, false)];
    assert Observed([Entry(b, 1, None, false)]) == [Observation(b, 1, false)];
  }
}
