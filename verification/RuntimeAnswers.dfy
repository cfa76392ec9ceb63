// When the gateway's evidence runtime goes ahead and what it then says, from the documents and the
// rows alone.
module RuntimeAnswers {
  import opened Wrappers
  import opened Documents
  import opened Protocol
  import opened Verify
  import opened Store
  import opened Runtime
  import opened VerifyAnswers
  import A = Approvals
  import S = StoreSafety
  import T = StoreAnswers

  // -------- Preparing --------

  // A configured gateway drafts a permit for every readable message of a named tool.
  lemma DraftsExactly(g: Config, message: Dict, context: A.RequestContext, approvalId: Option<string>, ids: Ids,
                      now: int)
    requires ValidConfig(g)
    ensures Draft(g, message, context, approvalId, ids, now).Success?
       <==> ValidateClient(message).Success? && RequestPayload(message).Success? && now >= 0
            && ids.operationId != "" && context.capability.Some? && context.capability.value != ""
  {
    hide ValidateClient, RequestPayload;
  }

  // What the permit says of the request, the caller, the approval and the policy, field by field.
  function PermitFor(g: Config, request: Json, context: A.RequestContext, approvalId: Option<string>, ids: Ids,
                     now: int): Authorization
    requires context.capability.Some?
  {
    Authorization(g.issuer, g.destination, g.tenant,
      PrincipalDigest(context.identity.subject, context.identity.clientId, context.identity.agentId, g.tenant),
      ids.operationId, ids.authorizationId, approvalId, context.capability.value,
      RequestDigest(request, ids.requestNonce), ids.requestNonce, PolicyDigest(context.binding), now, now + g.ttl)
  }

  predicate SaysSo(g: Config, permit: Permit, request: Json, context: A.RequestContext, approvalId: Option<string>,
                   ids: Ids, now: int)
    requires context.capability.Some?
  {
    && permit.authorization.payload == PermitFor(g, request, context, approvalId, ids, now)
    && permit.attempt.payload == Attempt(g.issuer, g.destination, g.tenant, ids.operationId, ids.attemptId,
                                         AuthorizationDigest(permit.authorization), ids.attemptNonce)
    && permit.authorization.kid == g.keyId == permit.attempt.kid
    && SignedBy(permit.authorization, AuthorizationKind, g.publicKey)
    && SignedBy(permit.attempt, AttemptKind, g.publicKey)
  }

  // What a successful call has stored, and what it sends on.
  lemma PreparedSays(t: Tables, g: Config, message: Dict, context: A.RequestContext,
                     consume: Option<ConsumeRequest>, ids: Ids, now: int)
    requires ValidConfig(g) && Prepare(t, g, message, context, consume, ids, now).1.Success?
    ensures ValidateClient(message).Success? && RequestPayload(message).Success? && context.capability.Some?
    ensures var (u, r) := Prepare(t, g, message, context, consume, ids, now);
      && r.value.0 == ids.operationId && ids.operationId in u.operations
      && var bundle := u.operations[ids.operationId].bundle;
      && bundle.receipt.None? && r.value.1 == AttachPermit(message, bundle.permit)
      && SaysSo(g, bundle.permit, RequestPayload(message).value, context,
                if consume.Some? then Some(consume.value.id) else None, ids, now)
      && u.operations[ids.operationId].tenant == g.tenant
      && u.events == t.events + [Event(ids.eventId, ids.operationId, DispatchIntent, false)]
  {
    hide ValidateClient, RequestPayload, Reserve, ScopeOf, VerifyPermit, ValidConfig, AttachPermit;
    DraftsExactly(g, message, context, ConsumedId(consume), ids, now);
    var draft := Draft(g, message, context, ConsumedId(consume), ids, now).value;
    S.ReserveShape(t, Bundle(draft.0, None), draft.1, draft.2, consume, ids.eventId);
  }

  // -------- Observing --------

  // The receipt a response brings is accepted exactly when permit and receipt stand, and it is for
  // this response and the configured scope.
  lemma ReceiptIsAcceptedExactly(g: Config, permit: Permit, response: Dict, receipt: SignedReceipt)
    requires SplitResponse(response).Success? && ResponsePayload(response).Success?
    ensures Judge(g, permit, response).Success?
    ensures Accepted(Judge(g, permit, response).value) == Some(receipt)
       <==> && SplitResponse(response).value.1 == ReceiptDoc(receipt)
            && PermitStands(permit, g.trust, None) && ReceiptStands(permit, receipt, g.trust)
            && receipt.payload.responseDigest
               == ResponseDigest(ResponsePayload(response).value, receipt.payload.responseNonce)
            && receipt.payload.scope == g.scope
  {
    hide SplitResponse, VerifyBundle, PermitStands, ReceiptStands, ResponsePayload;
    PayloadOfClean(response);
    var (clean, brought) := SplitResponse(response).value;
    if brought.ReceiptDoc? {
      BundleVerdictExactly(permit, Some(brought.receipt), g.trust, None, Some(ResponsePayload(response).value));
    }
  }

  lemma PayloadOfClean(response: Dict)
    requires SplitResponse(response).Success?
    ensures ResponsePayload(SplitResponse(response).value.0) == ResponsePayload(response)
  {
    hide SplitContainer;
    SplitIsIdempotent(response);
  }

  // What is noted when a response brings no receipt, or one of another scope.
  lemma VerdictWithoutEvidence(g: Config, permit: Permit, response: Dict)
    requires SplitResponse(response).Success? && ResponsePayload(response).Success?
    requires PermitStands(permit, g.trust, None)
    ensures Judge(g, permit, response).Success?
    ensures var brought := SplitResponse(response).value.1; var payload := ResponsePayload(response).value;
      var noted := Judge(g, permit, response).value.verdict;
      && (brought.Null? ==>
            noted == Verdict(TrustedGateway, AuthorizationRecorded, None, false, false, Some(MissingReceipt)))
      && (brought.ReceiptDoc? && ReceiptStands(permit, brought.receipt, g.trust)
          && brought.receipt.payload.responseDigest == ResponseDigest(payload, brought.receipt.payload.responseNonce)
          && brought.receipt.payload.scope != g.scope ==>
            noted == Verdict(AuthorityNotEstablished, NoClaim, None, false, true, Some(UnexpectedEffectScope)))
  {
    hide SplitResponse, VerifyBundle, PermitStands, ReceiptStands, ResponsePayload;
    PayloadOfClean(response);
    var (clean, brought) := SplitResponse(response).value;
    BundleVerdictExactly(permit, if brought.ReceiptDoc? then Some(brought.receipt) else None, g.trust, None,
                         Some(ResponsePayload(response).value));
  }

  // A response is passed on exactly when the operation can be read and recorded, and evidence comes
  // with it or is not required. What is then stored is the accepted receipt, if any.
  lemma ResponseIsPassedOnExactly(t: Tables, g: Config, operation: string, response: Dict, nonce: string,
                                  eventId: string, conflictId: string)
    requires SplitResponse(response).Success? && ResponsePayload(response).Success?
    requires eventId != conflictId
    requires forall i | 0 <= i < |t.events| :: t.events[i].eventId !in {eventId, conflictId}
    ensures var (u, clean) := Observe(t, g, operation, response, nonce, eventId, conflictId);
      clean.Success? <==>
        && operation in t.operations && t.operations[operation].tenant == g.tenant
        && !HasConflict(t.events, operation)
        && Judge(g, t.operations[operation].bundle.permit, response).Success?
        && var accepted := Accepted(Judge(g, t.operations[operation].bundle.permit, response).value);
        && (accepted.None? ==> g.mode == ObserveOnly)
        && (accepted.Some? ==> !Superseded(t.operations[operation].bundle.receipt, accepted.value))
    ensures var (u, clean) := Observe(t, g, operation, response, nonce, eventId, conflictId);
      clean.Success? ==>
        && clean.value == SplitResponse(response).value.0
        && var row := t.operations[operation];
        && var judged := Judge(g, row.bundle.permit, response).value;
        && u == t.(operations := t.operations[operation := row.(bundle := Bundle(row.bundle.permit,
                     if Accepted(judged).Some? then Accepted(judged) else row.bundle.receipt))],
                   events := t.events + [Event(eventId, operation,
                     ResponseObserved(judged.verdict, ResponseDigest(ResponsePayload(response).value, nonce)), false)])
  {
    hide Record, SplitResponse, ResponsePayload, VerifyBundle, HasConflict;
    PayloadOfClean(response);
    if operation in t.operations && t.operations[operation].tenant == g.tenant {
      var row := t.operations[operation];
      var judged := Judge(g, row.bundle.permit, response);
      if judged.Success? {
        UnrejectedIsAccepted(g, row.bundle.permit, response);
        var phase := ResponseObserved(judged.value.verdict, ResponseDigest(judged.value.payload, nonce));
        T.PhaseIsRecordedExactly(t, operation, g.tenant, phase, eventId, conflictId);
        if Accepted(judged.value).Some? {
          T.ReceiptIsTakenExactly(t, operation, g.tenant, phase, Accepted(judged.value).value, eventId, conflictId);
        }
        assert t.operations[operation := row.(bundle := Bundle(row.bundle.permit, row.bundle.receipt))] == t.operations;
      }
    }
  }

  // Another receipt is stored that is final, or not older than this one.
  predicate Superseded(stored: Option<SignedReceipt>, receipt: SignedReceipt) {
    stored.Some? && stored.value != receipt
    && !(stored.value.payload.effect == PendingEffect && receipt.payload.sequence > stored.value.payload.sequence)
  }

  // -------- Reconciling --------

  // A lookup's reply establishes something exactly when it brings a receipt that stands behind the
  // permit with the configured scope; that receipt is then taken.
  lemma ReplyReconcilesExactly(g: Config, permit: Permit, reply: Option<Dict>, receipt: SignedReceipt)
    ensures (JudgeLookup(g, permit, reply).Success? && JudgeLookup(g, permit, reply).value.0 == receipt)
       <==> && reply.Some? && "result" in reply.value && reply.value["result"].Obj?
            && "receipt" in reply.value["result"].fields
            && reply.value["result"].fields["receipt"] == ReceiptDoc(receipt)
            && PermitStands(permit, g.trust, None) && ReceiptStands(permit, receipt, g.trust)
            && receipt.payload.scope == g.scope
    ensures JudgeLookup(g, permit, reply).Success? && JudgeLookup(g, permit, reply).value.0 == receipt ==>
      JudgeLookup(g, permit, reply).value.1
      == Verdict(TrustedDestination,
                 if receipt.payload.effect == Committed then DestinationCommitAttested else DestinationReceiptVerified,
                 Some(receipt.payload.effect), false, false, None)
    ensures JudgeLookup(g, permit, reply).Failure? ==>
      JudgeLookup(g, permit, reply).error in {ReconciliationUnknown, UnexpectedEffectScope}
    ensures reply.Some? && "result" in reply.value && reply.value["result"].Obj?
            && "receipt" in reply.value["result"].fields
            && reply.value["result"].fields["receipt"] == ReceiptDoc(receipt) ==>
      (JudgeLookup(g, permit, reply) == Failure(UnexpectedEffectScope) <==>
         PermitStands(permit, g.trust, None) && ReceiptStands(permit, receipt, g.trust)
         && receipt.payload.scope != g.scope)
  {
    hide VerifyBundle, PermitStands, ReceiptStands;
    if reply.Some? && "result" in reply.value && reply.value["result"].Obj?
       && "receipt" in reply.value["result"].fields && reply.value["result"].fields["receipt"].ReceiptDoc? {
      BundleVerdictExactly(permit, Some(reply.value["result"].fields["receipt"].receipt), g.trust, None, None);
    }
    if reply.Some? && "result" in reply.value && reply.value["result"].Obj?
       && "receipt" in reply.value["result"].fields && !reply.value["result"].fields["receipt"].Null?
       && !reply.value["result"].fields["receipt"].ReceiptDoc? {
      OddReceiptIsRejected(permit, reply.value["result"].fields["receipt"], g.trust, None, None);
    }
  }

  // Reconciling a readable operation with such a reply takes the receipt unless it is superseded,
  // and with any other reply changes nothing.
  lemma ReconciliationIsRecordedExactly(t: Tables, g: Config, operation: string, reply: Option<Dict>,
                                        eventId: string, conflictId: string)
    requires operation in t.operations && t.operations[operation].tenant == g.tenant
    requires !HasConflict(t.events, operation) && eventId != conflictId
    requires forall i | 0 <= i < |t.events| :: t.events[i].eventId !in {eventId, conflictId}
    ensures var row := t.operations[operation];
      var judged := JudgeLookup(g, row.bundle.permit, reply);
      var (u, r) := ReconcileAtOnce(t, g, operation, reply, eventId, conflictId);
      && (judged.Failure? ==> u == t && r == Failure(judged.error))
      && (judged.Success? && Superseded(row.bundle.receipt, judged.value.0) ==>
            r == Failure(ReceiptConflict) && u.operations == t.operations)
      && (judged.Success? && !Superseded(row.bundle.receipt, judged.value.0) ==>
            && r == Success(judged.value.1)
            && u == t.(operations := t.operations[operation :=
                         row.(bundle := Bundle(row.bundle.permit, Some(judged.value.0)))],
                       events := t.events + [Event(eventId, operation, Reconciled(judged.value.1), false)]))
  {
    hide Record, JudgeLookup, HasConflict;
    var judged := JudgeLookup(g, t.operations[operation].bundle.permit, reply);
    if judged.Success? {
      T.ReceiptIsTakenExactly(t, operation, g.tenant, Reconciled(judged.value.1), judged.value.0, eventId, conflictId);
    }
  }
}
