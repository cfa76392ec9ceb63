// The gateway's evidence runtime (evidence/runtime.py): permits before dispatch, verdicts about
// responses, and read-only reconciliation afterwards.
module Runtime {
  import opened Wrappers
  import opened Documents
  import opened Protocol
  import opened Verify
  import opened Store
  import A = Approvals

  datatype Mode = ObserveOnly | Required

  datatype Config = Config(issuer: string, destination: string, tenant: string, scope: string, keyId: string,
                           publicKey: string, mode: Mode, ttl: nat, trust: TrustStore)

  // What the constructor insists on before it opens the store.
  predicate ValidConfig(c: Config) {
    && 1 <= c.ttl <= 300 && ValidTrust(c.trust)
    && c.keyId in c.trust.keys
    && (var own := c.trust.keys[c.keyId];
        && own.publicKey == c.publicKey && own.status == Active && own.role == GatewayRole
        && (own.issuer, own.audience, own.tenant) == (c.issuer, c.destination, c.tenant))
    && (exists kid :: kid in c.trust.keys && DestinationKeyFor(c, c.trust.keys[kid]))
  }

  predicate DestinationKeyFor(c: Config, key: TrustKey) {
    && key.role == DestinationRole && key.status == Active
    && (key.issuer, key.audience, key.tenant) == (c.destination, c.issuer, c.tenant)
    && c.scope in key.scopes
  }

  // The identifiers and nonces drawn by one call of `prepare`.
  datatype Ids = Ids(operationId: string, authorizationId: string, attemptId: string, requestNonce: string,
                     attemptNonce: string, eventId: string)

  datatype Refusal = Refused(error: Error) | AlreadyReserved(operation: string)

  function Principal(config: Config, context: A.RequestContext): PrivateDigest {
    PrincipalDigest(context.identity.subject, context.identity.clientId, context.identity.agentId, config.tenant)
  }

  function MakePermit(config: Config, request: Json, context: A.RequestContext, approvalId: Option<string>,
                      ids: Ids, now: int): Permit {
    var auth := Authorization(config.issuer, config.destination, config.tenant, Principal(config, context),
      ids.operationId, ids.authorizationId, approvalId,
      if context.capability.Some? then context.capability.value else "",
      RequestDigest(request, ids.requestNonce), ids.requestNonce, PolicyDigest(context.binding),
      now, now + config.ttl);
    var signed := Sign(auth, AuthorizationKind, config.keyId, config.publicKey);
    var attempt := Attempt(config.issuer, config.destination, config.tenant, ids.operationId, ids.attemptId,
      AuthorizationDigest(signed), ids.attemptNonce);
    Permit(signed, Sign(attempt, AttemptKind, config.keyId, config.publicKey))
  }

  function ScopeOf(config: Config, context: A.RequestContext, clientKey: Option<string>,
                   operationId: string): PrivateDigest {
    OperationScope(config.tenant, Principal(config, context), config.destination, context.capability,
      if clientKey.Some? then clientKey.value else operationId)
  }

  // The permit `prepare` would sign for a message, or why it refuses before touching the store.
  function Draft(config: Config, message: Dict, context: A.RequestContext, approvalId: Option<string>,
                 ids: Ids, now: int): Result<(Permit, PrivateDigest, PrivateDigest), Error> {
    var clientKey :- ValidateClient(message);
    var request :- RequestPayload(message);
    var permit := MakePermit(config, request, context, approvalId, ids, now);
    var _ :- VerifyPermit(permit, config.trust, Some(now));
    Success((permit, ScopeOf(config, context, clientKey, ids.operationId), RequestFingerprint(request)))
  }

  function ConsumedId(consume: Option<ConsumeRequest>): Option<string> {
    if consume.Some? then Some(consume.value.id) else None
  }

  function Prepare(t: Tables, config: Config, message: Dict, context: A.RequestContext,
                   consume: Option<ConsumeRequest>, ids: Ids, now: int): (Tables, Result<(string, Dict), Refusal>) {
    match Draft(config, message, context, ConsumedId(consume), ids, now)
    case Failure(error) => (t, Failure(Refused(error)))
    case Success((permit, scope, fingerprint)) =>
      var (after, r) := Reserve(t, Bundle(permit, None), scope, fingerprint, consume, ids.eventId);
      match r
      case Failure(error) => (after, Failure(Refused(error)))
      case Success(Some(previous)) => (after, Failure(AlreadyReserved(previous)))
      case Success(None) => (after, Success((ids.operationId, AttachPermit(message, permit))))
  }

  // What `observe` concludes from a response before it writes anything.
  datatype Judgement = Judgement(clean: Dict, payload: Json, receipt: Json, verdict: Verdict)

  function Judge(config: Config, permit: Permit, response: Dict): Result<Judgement, Error> {
    var (clean, receipt) :- SplitResponse(response);
    var payload :- ResponsePayload(clean);
    var verdict := VerifyBundle(permit, receipt, config.trust, None, Some(payload));
    var judged :=
      if receipt.Null? then verdict.(rejection := Some(MissingReceipt))
      else if verdict.rejection.None? && receipt.receipt.payload.scope != config.scope then
        verdict.(rejection := Some(UnexpectedEffectScope), effect := None, claim := NoClaim,
                 authority := AuthorityNotEstablished)
      else verdict;
    Success(Judgement(clean, payload, receipt, judged))
  }

  function Accepted(j: Judgement): Option<SignedReceipt> {
    if j.verdict.rejection.None? && j.receipt.ReceiptDoc? then Some(j.receipt.receipt) else None
  }

  // The second transaction of `observe`.
  function ObserveWrite(t: Tables, config: Config, operation: string, j: Judgement, nonce: string,
                        eventId: string, conflictId: string): (Tables, Result<Dict, Error>) {
    var (after, r) := Record(t, operation, config.tenant, ResponseObserved(j.verdict, ResponseDigest(j.payload, nonce)),
                             Accepted(j), eventId, conflictId);
    match r
    case Failure(error) => (after, Failure(error))
    case Success(_) =>
      if j.verdict.rejection.Some? && config.mode == Required then (after, Failure(EvidenceUnverified))
      else (after, Success(j.clean))
  }

  // `observe` with nothing in between its two transactions.
  function Observe(t: Tables, config: Config, operation: string, response: Dict, nonce: string,
                   eventId: string, conflictId: string): (Tables, Result<Dict, Error>) {
    if SplitResponse(response).Failure? then (t, Failure(SplitResponse(response).error))
    else
      match Get(t, operation, config.tenant)
      case Failure(error) => (t, Failure(error))
      case Success(bundle) =>
        match Judge(config, bundle.permit, response)
        case Failure(error) => (t, Failure(error))
        case Success(judgement) => ObserveWrite(t, config, operation, judgement, nonce, eventId, conflictId)
  }

  function LookupRequest(permit: Permit, id: string): Dict {
    map["jsonrpc" := Str("2.0"), "id" := Str(id), "method" := Str(LOOKUP),
        "params" := Obj(map["permit" := PermitDoc(permit)])]
  }

  // What `reconcile` takes from the reply to its lookup.
  function JudgeLookup(config: Config, permit: Permit, reply: Option<Dict>): Result<(SignedReceipt, Verdict), Error> {
    if reply.None? || "result" !in reply.value || !reply.value["result"].Obj? then Failure(ReconciliationUnknown)
    else
      var result := reply.value["result"].fields;
      var receipt := if "receipt" in result then result["receipt"] else Null;
      var verdict := VerifyBundle(permit, receipt, config.trust, None, None);
      if receipt.Null? || verdict.rejection.Some? then Failure(ReconciliationUnknown)
      else if receipt.receipt.payload.scope != config.scope then Failure(UnexpectedEffectScope)
      else Success((receipt.receipt, verdict))
  }

  // The second transaction of `reconcile`.
  function ReconcileWrite(t: Tables, config: Config, operation: string, permit: Permit, reply: Option<Dict>,
                          eventId: string, conflictId: string): (Tables, Result<Verdict, Error>) {
    match JudgeLookup(config, permit, reply)
    case Failure(error) => (t, Failure(error))
    case Success((receipt, verdict)) =>
      var (after, r) := Record(t, operation, config.tenant, Reconciled(verdict), Some(receipt), eventId, conflictId);
      match r
      case Failure(error) => (after, Failure(error))
      case Success(_) => (after, Success(verdict))
  }

  // `reconcile` with nothing in between its two transactions.
  function ReconcileAtOnce(t: Tables, config: Config, operation: string, reply: Option<Dict>,
                           eventId: string, conflictId: string): (Tables, Result<Verdict, Error>) {
    match Get(t, operation, config.tenant)
    case Failure(error) => (t, Failure(error))
    case Success(bundle) => ReconcileWrite(t, config, operation, bundle.permit, reply, eventId, conflictId)
  }

  class EvidenceRuntime {
    const config: Config
    const store: EvidenceStore

    constructor (config: Config, store: EvidenceStore)
      requires ValidConfig(config)
      ensures this.config == config && this.store == store
    {
      this.config := config;
      this.store := store;
    }

    method PrepareCall(message: Dict, context: A.RequestContext, consume: Option<ConsumeRequest>, ids: Ids, now: int)
      returns (r: Result<(string, Dict), Refusal>)
      modifies store
      ensures (store.State(), r) == Prepare(old(store.State()), config, message, context, consume, ids, now)
    {
      var clientKey := ValidateClient(message);
      if clientKey.Failure? { return Failure(Refused(clientKey.error)); }
      var request := RequestPayload(message);
      if request.Failure? { return Failure(Refused(request.error)); }
      var permit := MakePermit(config, request.value, context, ConsumedId(consume), ids, now);
      var verified := VerifyPermit(permit, config.trust, Some(now));
      if verified.Failure? { return Failure(Refused(verified.error)); }
      var scope := ScopeOf(config, context, clientKey.value, ids.operationId);
      var previous := store.ReserveOperation(Bundle(permit, None), scope, RequestFingerprint(request.value),
                                             consume, ids.eventId);
      if previous.Failure? { return Failure(Refused(previous.error)); }
      if previous.value.Some? { return Failure(AlreadyReserved(previous.value.value)); }
      r := Success((ids.operationId, AttachPermit(message, permit)));
    }

    method ObserveResponse(operation: string, response: Dict, nonce: string, eventId: string, conflictId: string)
      returns (r: Result<Dict, Error>)
      modifies store
      ensures (store.State(), r) == Observe(old(store.State()), config, operation, response, nonce, eventId, conflictId)
    {
      var split := SplitResponse(response);
      if split.Failure? { return Failure(split.error); }
      var (clean, receipt) := split.value;
      var bundle := store.GetBundle(operation, config.tenant);
      if bundle.Failure? { return Failure(bundle.error); }
      var payload := ResponsePayload(clean);
      if payload.Failure? { return Failure(payload.error); }
      var verdict := VerifyBundle(bundle.value.permit, receipt, config.trust, None, Some(payload.value));
      if receipt.Null? { verdict := verdict.(rejection := Some(MissingReceipt)); }
      if !receipt.Null? && verdict.rejection.None? && receipt.receipt.payload.scope != config.scope {
        verdict := verdict.(rejection := Some(UnexpectedEffectScope));
        verdict := verdict.(effect := None, claim := NoClaim, authority := AuthorityNotEstablished);
      }
      var accepted := if verdict.rejection.None? && receipt.ReceiptDoc? then Some(receipt.receipt) else None;
      var recorded := store.RecordEvent(operation, config.tenant,
        ResponseObserved(verdict, ResponseDigest(payload.value, nonce)), accepted, eventId, conflictId);
      if recorded.Failure? { return Failure(recorded.error); }
      if verdict.rejection.Some? && config.mode == Required { return Failure(EvidenceUnverified); }
      r := Success(clean);
    }

    method PreparedResponse(operation: string, eventId: string, conflictId: string) returns (r: Result<(), Error>)
      modifies store
      ensures (store.State(), r) == Record(old(store.State()), operation, config.tenant, ClientResponsePrepared, None,
                                           eventId, conflictId)
    {
      r := store.RecordEvent(operation, config.tenant, ClientResponsePrepared, None, eventId, conflictId);
    }

    // `reply` is what the upstream gives back for the lookup.
    method Reconcile(operation: string, reply: Option<Dict>, eventId: string, conflictId: string)
      returns (r: Result<Verdict, Error>)
      modifies store
      ensures (store.State(), r) == ReconcileAtOnce(old(store.State()), config, operation, reply, eventId, conflictId)
    {
      var bundle := store.GetBundle(operation, config.tenant);
      if bundle.Failure? { return Failure(bundle.error); }
      var judged := JudgeLookup(config, bundle.value.permit, reply);
      if judged.Failure? { return Failure(judged.error); }
      var (receipt, verdict) := judged.value;
      var recorded := store.RecordEvent(operation, config.tenant, Reconciled(verdict), Some(receipt), eventId,
                                        conflictId);
      if recorded.Failure? { return Failure(recorded.error); }
      r := Success(verdict);
    }
  }

  // -------- Facts about permits and receipts the gateway accepts --------

  // The gateway's own permit always verifies, so `prepare` never refuses on account of its key.
  lemma OwnPermitVerifies(config: Config, request: Json, context: A.RequestContext, approvalId: Option<string>,
                          ids: Ids, now: int)
    requires ValidConfig(config) && now >= 0 && ids.operationId != ""
    requires context.capability.Some? && context.capability.value != ""
    ensures VerifyPermit(MakePermit(config, request, context, approvalId, ids, now), config.trust, Some(now)).Success?
  {
  }

  // An accepted receipt was signed by a key the gateway trusts as its destination's, for this very
  // permit and, when it came with a response, for that response.
  lemma AcceptedReceiptIsBound(config: Config, permit: Permit, response: Dict)
    requires Judge(config, permit, response).Success? && Accepted(Judge(config, permit, response).value).Some?
    ensures var j := Judge(config, permit, response).value; var r := Accepted(j).value;
      && r.payload.attemptDigest == AttemptDigest(permit) && r.payload.scope == config.scope
      && r.payload.responseDigest == ResponseDigest(j.payload, r.payload.responseNonce)
      && r.payload.operationId == permit.authorization.payload.operationId
      && VerifyBundle(permit, ReceiptDoc(r), config.trust, None, None).rejection.None?
  {
  }

  // Where evidence is required, a response is passed on only with a receipt that was accepted for
  // it, and that receipt is stored by then.
  lemma RequiredModeNeedsEvidence(t: Tables, config: Config, operation: string, reply: Dict, nonce: string,
                                  eventId: string, conflictId: string)
    requires config.mode == Required && Observe(t, config, operation, reply, nonce, eventId, conflictId).1.Success?
    ensures operation in t.operations
    ensures var permit := t.operations[operation].bundle.permit;
      var (u, clean) := Observe(t, config, operation, reply, nonce, eventId, conflictId);
      && Judge(config, permit, reply).Success? && clean.value == Judge(config, permit, reply).value.clean
      && Accepted(Judge(config, permit, reply).value).Some?
      && operation in u.operations
      && u.operations[operation].bundle.receipt == Accepted(Judge(config, permit, reply).value)
  {
    hide VerifyBundle, SplitResponse, ResponsePayload;
    var permit := t.operations[operation].bundle.permit;
    UnrejectedIsAccepted(config, permit, reply);
  }

  lemma UnrejectedIsAccepted(config: Config, permit: Permit, reply: Dict)
    ensures Judge(config, permit, reply).Success? && Judge(config, permit, reply).value.verdict.rejection.None? ==>
      Accepted(Judge(config, permit, reply).value).Some?
  {
  }
}
