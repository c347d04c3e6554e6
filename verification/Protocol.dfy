/**
 The protocol values the adapter, the relay and the coordination store exchange.  Hashes
 and fingerprints are constructors over what they digest, so they are injective and opaque.
 */
module Protocol {
  import opened Wrappers
  import opened JsonKey

  type Did = string

  /** An Action ID pair; the scope may be absent, and an absent scope differs from an empty one. */
  datatype ActionId = ActionId(scope: Option<JsString>, value: JsString)

  /** A signed Action Envelope; `content` stands for the members no rule here reads. */
  datatype ActionEnvelope = ActionEnvelope(actionId: ActionId, proposer: Did, expiresAt: int, content: string)

  datatype EnvelopeHash = HashOf(envelope: ActionEnvelope)

  /** `material` stands for the execution payload and the approval bundle. */
  datatype ActionPackage = ActionPackage(envelope: ActionEnvelope, material: string)

  /** The two members that are left out of a request's fingerprint are kept apart. */
  datatype ActionRequest =
    ActionRequest(package: ActionPackage, binding: string, idempotencyKey: string, audience: string)

  datatype RequestFingerprint = RequestFingerprint(package: ActionPackage, binding: string)

  function FingerprintOf(request: ActionRequest): RequestFingerprint {
    RequestFingerprint(request.package, request.binding)
  }

  datatype ResultKind =
    | Executed | Failed | Indeterminate
    | Rejected | Expired | Malformed | NotSupported | AdditionalApprovalsRequired | Pending

  /** `detail` stands for the receipt, execution result, error, context and creation time. */
  datatype ActionResponse =
    ActionResponse(result: ResultKind, hash: Option<EnvelopeHash>, verifier: Did, detail: string)

  /** The results a dispatch can be recorded with. */
  predicate IsDispatchResult(r: ResultKind) {
    r.Executed? || r.Failed? || r.Indeterminate?
  }

  datatype Payload = RequestPayload(request: ActionRequest) | ResponsePayload(response: ActionResponse)

  /** The outer delivery layer; an absent expiry never passes. */
  datatype DeliveryEnvelope =
    DeliveryEnvelope(sender: Did, recipients: seq<Did>, createdAt: int, expiresAt: Option<int>, payload: Payload)

  predicate EnvelopeExpired(envelope: DeliveryEnvelope, now: int) {
    envelope.expiresAt.Some? && envelope.expiresAt.value <= now
  }
}
