// The JSON values and signed documents that travel between client, gateway and destination.
//
// Digests are free constructors, so equal digests have equal preimages; a signature names the
// key that made it and everything it covers, so only the holder of that key can produce it.
module Documents {
  import opened Wrappers

  type Dict = map<string, Json>

  // A JSON value. Where the profile puts a permit or a signed receipt, an object that parses as one
  // appears as that document; anywhere else it is an `Obj` like any other.
  datatype Json =
    | Null
    | Bool(b: bool)
    | Num(n: int)
    | Str(s: string)
    | Arr(items: seq<Json>)
    | Obj(fields: map<string, Json>)
    | PermitDoc(permit: Permit)
    | ReceiptDoc(receipt: SignedReceipt)

  // `digest(kind, value, nonce)`: one constructor for each domain-separated kind.
  datatype Digest =
    | RequestDigest(request: Json, nonce: string)
    | ResponseDigest(response: Json, nonce: string)
    | AuthorizationDigest(authorization: Signed<Authorization>)
    | AttemptDigest(permit: Permit)
    | CheckedBundleDigest(bundle: Bundle)
    | ObservationDigest(observation: SignedObservation)
    | SourceDigest(status: int, account: Json, refund: Json, nonce: string)
    | UnknownDigest(text: string)

  // HMAC commitments under the salt kept in the gateway database.
  datatype PrivateDigest =
    | PrincipalDigest(subject: string, client: Option<string>, agent: Option<string>, tenant: string)
    | PolicyDigest(binding: Binding)
    | OperationScope(tenant: string, principal: PrivateDigest, destination: string,
                     capability: Option<string>, key: string)
    | RequestFingerprint(request: Json)

  // What a request_binding commits to: the request without its approval ids, and the
  // configuration that judged it.
  datatype Binding = Binding(params: Json, server: Json, policies: Json, engine: Json)

  datatype Kind = AuthorizationKind | AttemptKind | ReceiptKind

  datatype Signature<P> =
    | Ed25519(publicKey: string, kind: Kind, kid: string, payload: P)
    | Unverifiable(text: string)

  datatype Signed<P> = Signed(kind: Kind, kid: string, payload: P, signature: Signature<P>)

  type SignedReceipt = Signed<Receipt>

  datatype Authorization = Authorization(
    issuer: string, audience: string, tenant: string, principal: PrivateDigest,
    operationId: string, authorizationId: string, approvalId: Option<string>,
    tool: string, requestDigest: Digest, requestNonce: string, policyBinding: PrivateDigest,
    issuedAt: int, expiresAt: int)

  datatype Attempt = Attempt(
    issuer: string, audience: string, tenant: string, operationId: string, attemptId: string,
    authorizationDigest: Digest, nonce: string)

  datatype Effect = PendingEffect | Committed | Rejected | Failed | PartiallyCommitted

  datatype Receipt = Receipt(
    issuer: string, audience: string, tenant: string, operationId: string,
    authorizationId: string, attemptId: string, receiptId: string,
    attemptDigest: Digest, requestDigest: Digest, responseDigest: Digest, responseNonce: string,
    effect: Effect, scope: string, transactionRef: Option<string>, sequence: int, recordedAt: int)

  datatype Permit = Permit(authorization: Signed<Authorization>, attempt: Signed<Attempt>)

  datatype Bundle = Bundle(permit: Permit, receipt: Option<SignedReceipt>)

  // The lifetime of an authorization is 1 to 300 seconds; names are not empty.
  predicate ValidAuthorization(a: Authorization) {
    0 <= a.issuedAt && 0 < a.expiresAt - a.issuedAt <= 300 && a.tool != "" && a.operationId != ""
  }

  predicate ValidReceipt(r: Receipt) {
    && 1 <= r.sequence && 0 <= r.recordedAt
    && (r.effect in {Committed, PartiallyCommitted} ==> r.transactionRef.Some? && r.transactionRef.value != "")
  }

  // Version 2: observer reports chained behind a bundle.

  const CHECK_SCOPE := "stripe.refund.status.v1"

  datatype CheckResult = Corroborated | Contradicted | CheckPending | CheckUnknown

  datatype CheckReason =
    | StatusMatch | FieldMismatch | StatusConflict | SourcePending | SourceUnavailable
    | SourceInvalid | SourceNotFound | AccountMismatch | BindingMismatch | UnsupportedStatus

  datatype SourceStatus = SourceSucceeded | SourceFailed | SourceCanceled | SourceIsPending | SourceRequiresAction

  datatype Observation = Observation(
    issuer: string, tenant: string, destination: string, scope: string, account: string,
    evidenceDigest: Digest, previousDigest: Option<Digest>, checkId: string,
    checkedAt: int, expiresAt: int, sourceRecordedAt: Option<int>,
    result: CheckResult, reason: CheckReason, sourceStatus: Option<SourceStatus>,
    sourceDigest: Option<Digest>, sourceNonce: string)

  datatype ObservationSignature =
    | ObserverEd25519(publicKey: string, kid: string, payload: Observation)
    | UnverifiableObservation(text: string)

  datatype SignedObservation = SignedObservation(kid: string, payload: Observation, signature: ObservationSignature)

  datatype CheckedBundle = CheckedBundle(evidence: Bundle, observations: seq<SignedObservation>)

  // Every reason a step of the evidence protocol gives for refusing.
  datatype Error =
    | KeyError | AttributeError | IntegrityError
    | InvalidMetadata | ClientEvidence | InvalidIdempotencyKey
    | InvalidEvidence | WrongDocumentKind | UntrustedKey | RevokedKey | KeyScopeMismatch | InvalidSignature
    | PermitBindingMismatch | AuthorizationDigestMismatch | PermitNotCurrent
    | RequestMismatch | ReceiptBindingMismatch | AttemptDigestMismatch | UntrustedEffectScope
    | ResponseMismatch | MissingReceipt | UnexpectedEffectScope
    | IdempotencyConflict | ApprovalNotActive | OperationNotFound | ReceiptConflict
    | ObservationBindingMismatch | ObservationLimit | ObservationConcurrentUpdate
    | ObservationEffectScopeMismatch | UntrustedObserver | ObserverScopeMismatch
    | ObserverKeyNotSeparate | InvalidObserverSignature | InvalidObservation
    | CommittedReceiptRequired | CheckScopeMismatch | CheckToolMismatch | CheckAccountMismatch
    | ActiveObserverRequired | EvidenceUnverified | ReconciliationUnknown
    | WrongDestination | RequestBindingMismatch | BusinessRuleRejected | BoundToAnotherAttempt
    | ReceiptUnavailable | UnsupportedMethod
}
