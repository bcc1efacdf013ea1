/** Source-neutral Intake values and the bridge into the retained workflow.
    JSON and SHA-256 are the fields of a `Codec`; what the protocol needs of them is
    `Codec.Sound` (JSON decodes what it encoded, digests are 64 lowercase hex digits) and, where
    stated, that the key/policy material is unambiguous and that two materials at hand do not
    collide under SHA-256. */
module Intake {
  import opened Outcomes

  const BRIDGE_IDENTITY: string := "workflow-bridge/head-seen-intake@4"
  const IDENTITY_PREFIX: string := "history-delivery:v2:sha256:"
  const KEY_PREFIX: string := "obs:v1:sha256:"

  datatype PrIdentity = PrIdentity(installation: nat, repository: nat, number: nat)

  datatype BranchTip = BranchTip(repository: nat, ref: string, sha: string)

  datatype Lifecycle = Open | Closed

  datatype Snapshot = Snapshot(
    pr: PrIdentity, head: BranchTip, base: BranchTip, state: Lifecycle,
    draft: bool, merged: bool, mergeable: Option<bool>, updatedAt: int)

  datatype ProviderRoute = ProviderRoute(installation: nat, repository: nat, fullName: string)

  /** Normalized pull-request webhook: route evidence, snapshot and provenance. */
  datatype Webhook = Webhook(route: ProviderRoute, snapshot: Snapshot, deliveryId: string, action: string)

  /** The focused observation. Its generation is always 1, so it carries no field. */
  datatype HeadObservation = HeadObservation(
    pr: PrIdentity, head: BranchTip, base: BranchTip, lifecycle: Lifecycle,
    draft: bool, merged: bool, mergeable: Option<bool>)

  datatype PreparedIntake = PreparedIntake(
    observation: HeadObservation, key: string, canonical: string,
    policy: string, bridge: string, identity: string)

  datatype HeadSeen = HeadSeen(
    head: string, base: string, mergeable: bool, policy: string, strictBase: bool, baseCurrent: bool)

  datatype Token = Token(color: string, data: HeadSeen)

  datatype BridgedDelivery = BridgedDelivery(source: string, token: Token, identity: string)

  datatype BridgeError = UnsupportedHead | CorrelationMismatch | MalformedHistory

  datatype Codec = Codec(
    sha256: string -> string,
    observationJson: HeadObservation -> string,
    observationFromJson: string -> Option<HeadObservation>,
    webhookJson: Webhook -> string,
    webhookFromJson: string -> Option<Webhook>,
    materialJson: (string, string) -> string)
  {
    ghost predicate Sound() {
      && (forall text :: HexDigest(sha256(text)))
      && (forall o :: observationFromJson(observationJson(o)) == Some(o))
      && (forall w :: webhookFromJson(webhookJson(w)) == Some(w))
    }

    /** The key/policy material is an unambiguous JSON object. */
    ghost predicate Unambiguous() {
      forall k, p, k', p' :: materialJson(k, p) == materialJson(k', p') ==> k == k' && p == p'
    }

    /** These two texts do not collide. */
    predicate Apart(a: string, b: string) {
      sha256(a) == sha256(b) ==> a == b
    }
  }

  predicate HexDigest(text: string) {
    |text| == 64 && forall i :: 0 <= i < |text| ==> '0' <= text[i] <= '9' || 'a' <= text[i] <= 'f'
  }

  predicate IsDeliveryIdentity(text: string) {
    && |text| == |IDENTITY_PREFIX| + 64
    && text[..|IDENTITY_PREFIX|] == IDENTITY_PREFIX
    && HexDigest(text[|IDENTITY_PREFIX|..])
  }

  function ProjectHead(s: Snapshot): HeadObservation {
    HeadObservation(s.pr, s.head, s.base, s.state, s.draft, s.merged, s.mergeable)
  }

  function KeyFor(codec: Codec, canonical: string): string {
    KEY_PREFIX + codec.sha256(canonical)
  }

  function IdentityFor(codec: Codec, key: string, policy: string): string {
    IDENTITY_PREFIX + codec.sha256(codec.materialJson(key, policy))
  }

  function RetainedToken(observation: HeadObservation, policy: string): Token {
    Token("HeadSeen",
          HeadSeen(observation.head.sha, observation.base.sha, observation.mergeable == Some(true), policy, true,
                   false))
  }

  function BridgeHeadDelivery(codec: Codec, prepared: PreparedIntake): Result<BridgedDelivery, BridgeError> {
    var o := prepared.observation;
    if o.lifecycle != Open || o.draft || o.merged then Err(UnsupportedHead)
    else
      var canonical := codec.observationJson(o);
      var key := KeyFor(codec, canonical);
      var identity := IdentityFor(codec, key, prepared.policy);
      if prepared.bridge != BRIDGE_IDENTITY || prepared.canonical != canonical
         || prepared.key != key || prepared.identity != identity
      then Err(CorrelationMismatch)
      else Ok(BridgedDelivery("on_head", RetainedToken(o, prepared.policy), identity))
  }

  function PrepareHeadIntake(codec: Codec, observation: HeadObservation, policy: string)
    : Result<PreparedIntake, BridgeError>
  {
    var canonical := codec.observationJson(observation);
    var key := KeyFor(codec, canonical);
    var prepared :=
      PreparedIntake(observation, key, canonical, policy, BRIDGE_IDENTITY, IdentityFor(codec, key, policy));
    match BridgeHeadDelivery(codec, prepared)
    case Err(e) => Err(e)
    case Ok(_) => Ok(prepared)
  }

  /** Everything the bridge can put on the wire has this shape. */
  predicate WellBridged(b: BridgedDelivery) {
    b.source == "on_head" && b.token.color == "HeadSeen" && IsDeliveryIdentity(b.identity)
  }

  lemma BridgedIsWellFormed(codec: Codec, prepared: PreparedIntake)
    requires codec.Sound()
    requires BridgeHeadDelivery(codec, prepared).Ok?
    ensures WellBridged(BridgeHeadDelivery(codec, prepared).value)
    ensures BridgeHeadDelivery(codec, prepared).value.identity == prepared.identity
  {
    var identity := prepared.identity;
    var digest := codec.sha256(codec.materialJson(prepared.key, prepared.policy));
    assert identity == IDENTITY_PREFIX + digest;
    assert identity[..|IDENTITY_PREFIX|] == IDENTITY_PREFIX;
    assert identity[|IDENTITY_PREFIX|..] == digest;
  }

  /** A delivery identity determines the observation key and the policy revision. */
  lemma IdentityDeterminesKey(codec: Codec, key: string, policy: string, key': string, policy': string)
    requires codec.Unambiguous() && codec.Apart(codec.materialJson(key, policy), codec.materialJson(key', policy'))
    requires IdentityFor(codec, key, policy) == IdentityFor(codec, key', policy')
    ensures key == key' && policy == policy'
  {
    var a, b := IdentityFor(codec, key, policy), IdentityFor(codec, key', policy');
    assert a[|IDENTITY_PREFIX|..] == codec.sha256(codec.materialJson(key, policy));
    assert b[|IDENTITY_PREFIX|..] == codec.sha256(codec.materialJson(key', policy'));
  }
}
