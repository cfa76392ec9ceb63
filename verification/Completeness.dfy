// What an undisturbed refund comes to: every document along the way verifies.
module Completeness {
  import opened Wrappers
  import opened Documents
  import opened Protocol
  import opened Verify
  import opened Store
  import A = Approvals
  import D = Destination
  import G = Runtime
  import S = StoreSafety

  // Gateway and destination are configured for each other; the destination is the reference one.
  predicate Deployed(g: G.Config, d: D.Config) {
    && G.ValidConfig(g) && g.scope == D.SCOPE && (g.destination, g.tenant) == ("refund-demo", "demo")
    && g.keyId in d.trust.keys
    && (var own := d.trust.keys[g.keyId];
        && own.publicKey == g.publicKey && own.status == Active && own.role == GatewayRole
        && (own.issuer, own.audience, own.tenant) == (g.issuer, g.destination, g.tenant))
    && d.kid in g.trust.keys && G.DestinationKeyFor(g, g.trust.keys[d.kid])
    && g.trust.keys[d.kid].publicKey == d.publicKey
  }

  // The request is a refund call within the destination's limits.
  predicate IsRefund(context: A.RequestContext, message: Dict, amount: int) {
    && D.IsCall(message) && context.capability == Some("refund")
    && "params" in message && message["params"].Obj?
    && (var params := message["params"].fields;
        && "name" in params && params["name"] == Str("refund")
        && "arguments" in params && params["arguments"] == Obj(map["amount_minor" := Num(amount)])
        && 0 < amount <= 10000)
  }

  lemma PayloadKeepsNameAndArguments(message: Dict)
    requires ValidateClient(message).Success? && RequestPayload(message).Success?
    ensures var request := RequestPayload(message).value;
      var before := if "params" in message then message["params"].fields else map[];
      && request.Obj? && "params" in request.fields && request.fields["params"].Obj?
      && (var after := request.fields["params"].fields;
          && ("name" in after <==> "name" in before) && ("name" in before ==> after["name"] == before["name"])
          && ("arguments" in after <==> "arguments" in before)
          && ("arguments" in before ==> after["arguments"] == before["arguments"]))
  {
    DistinctKeys();
  }

  lemma RefundNamesItsAmount(context: A.RequestContext, message: Dict, amount: int)
    requires ValidateClient(message).Success? && RequestPayload(message).Success?
    ensures var request := RequestPayload(message).value;
      IsRefund(context, message, amount) <==>
        (D.IsCall(message) && context.capability == Some("refund") && "name" in request.fields["params"].fields
         && request.fields["params"].fields["name"] == Str("refund") && D.RequestedAmount(request) == Success(amount))
  {
    hide RequestPayload;
    PayloadKeepsNameAndArguments(message);
    var request := RequestPayload(message).value;
    var params := request.fields["params"].fields;
    if D.RequestedAmount(request) == Success(amount) {
      assert "arguments" in params;
      var args := params["arguments"].fields;
      assert args.Keys == {"amount_minor"};
      assert args == map["amount_minor" := Num(amount)];
    }
    if IsRefund(context, message, amount) {
      assert params["arguments"].fields.Keys == {"amount_minor"};
    }
  }

  lemma ForwardedIsCall(message: Dict, permit: Permit)
    requires ValidateClient(message).Success?
    ensures D.IsCall(AttachPermit(message, permit)) <==> D.IsCall(message)
  {
    assert "id" != "params" && "method" != "params" by { DistinctKeys(); }
  }

  lemma PermitIsCurrent(g: G.Config, d: D.Config, request: Json, context: A.RequestContext, approvalId: Option<string>,
                        ids: G.Ids, now: int, at: int)
    requires Deployed(g, d) && now >= 0 && ids.operationId != ""
    requires context.capability.Some? && context.capability.value != ""
    ensures var permit := G.MakePermit(g, request, context, approvalId, ids, now);
      VerifyPermit(permit, d.trust, Some(at)).Success? <==> now <= at < now + g.ttl
    ensures var permit := G.MakePermit(g, request, context, approvalId, ids, now);
      VerifyPermit(permit, d.trust, Some(at)).Success? ==>
        VerifyPermit(permit, d.trust, Some(at)) == Success(permit.authorization.payload)
  {
  }

  lemma AudienceFits(g: G.Config, d: D.Config, request: Json, context: A.RequestContext, approvalId: Option<string>,
                     ids: G.Ids, now: int)
    requires Deployed(g, d)
    ensures D.AudienceAllowed(G.MakePermit(g, request, context, approvalId, ids, now).authorization.payload)
  {
  }

  // The destination lets a forwarded request through exactly when it is a refund within limits
  // that arrives while its permit is current.
  lemma AdmittedExactlyWhenRefundInWindow(g: G.Config, d: D.Config, message: Dict, context: A.RequestContext,
                                          approvalId: Option<string>, ids: G.Ids, now: int, at: int, amount: int)
    requires Deployed(g, d) && now >= 0 && ids.operationId != ""
    requires context.capability.Some? && context.capability.value != ""
    requires ValidateClient(message).Success? && RequestPayload(message).Success?
    ensures var permit := G.MakePermit(g, RequestPayload(message).value, context, approvalId, ids, now);
      D.Admit(d, AttachPermit(message, permit), at) == Success(D.Admitted(permit, amount))
      <==> (IsRefund(context, message, amount) && now <= at < now + g.ttl)
  {
    hide ValidateClient, RequestPayload, VerifyPermit, D.RequestedAmount, IsRefund, Deployed;
    var request := RequestPayload(message).value;
    var permit := G.MakePermit(g, request, context, approvalId, ids, now);
    PermitArrives(message, permit);
    ForwardedIsCall(message, permit);
    PermitDoesNotChangeRequest(message, permit);
    PermitIsCurrent(g, d, request, context, approvalId, ids, now, at);
    PayloadKeepsNameAndArguments(message);
    RefundNamesItsAmount(context, message, amount);
    assert D.AudienceAllowed(permit.authorization.payload) by {
      AudienceFits(g, d, request, context, approvalId, ids, now);
    }
  }

  lemma FreshPermitCommits(d: D.Config, ledger: D.Ledger, a: D.Admitted, minted: D.Minted)
    requires D.ValidLedger(d, ledger) && a.permit.authorization.payload.operationId !in ledger.operations
    ensures D.Commit(ledger, a, minted).1 == Success(D.RefundResponse(a.amount))
    ensures var o := a.permit.authorization.payload.operationId;
      var after := D.Commit(ledger, a, minted).0;
      o in after.operations && after.operations[o] == D.LedgerRow(AttemptDigest(a.permit), D.RefundResponse(a.amount),
        D.Material(a.permit, D.ResponseOf(D.RefundResponse(a.amount)), minted), None)
  {
    forall o | o in ledger.operations ensures ledger.operations[o].permitDigest != AttemptDigest(a.permit) {
      assert D.ValidRow(d, o, ledger.operations[o], ledger.refunds[o]);
    }
  }

  lemma RefundReply(amount: int, receipt: Json)
    ensures var response := D.RefundResponse(amount);
      && InjectReceipt(response, receipt).Success?
      && SplitResponse(InjectReceipt(response, receipt).value) == Success((response, receipt))
      && ResponsePayload(response) == Success(Obj(response))
      && ResponsePayload(InjectReceipt(response, receipt).value) == Success(Obj(response))
      && D.ResponseOf(response) == Obj(response)
  {
    DistinctKeys();
    assert "_meta" != "content" && "_meta" != "structuredContent" by {
      assert "_meta"[0] != "content"[0] && "_meta"[0] != "structuredContent"[0];
    }
    var response := D.RefundResponse(amount);
    assert SplitContainer(response["result"]) == (response["result"], Null);
    assert response["result" := response["result"]] == response;
    SplitUndoesInjection(response, receipt);
    SplitIsIdempotent(InjectReceipt(response, receipt).value);
    assert map["result" := response["result"]] == response;
  }

  // The permit, as the gateway trusts it, and the receipt made for it.
  lemma ReceiptOfCommitVerifies(g: G.Config, d: D.Config, request: Json, context: A.RequestContext,
                                approvalId: Option<string>, ids: G.Ids, now: int, response: Json, minted: D.Minted)
    requires Deployed(g, d) && now >= 0 && ids.operationId != "" && context.capability.Some?
    requires context.capability.value != ""
    ensures var permit := G.MakePermit(g, request, context, approvalId, ids, now);
      var receipt := Sign(D.Material(permit, response, minted), ReceiptKind, d.kid, d.publicKey);
      && VerifyReceipt(permit, receipt, g.trust, Some(response)) == Success(true)
      && receipt.payload.effect == Committed && receipt.payload.scope == g.scope
  {
    hide VerifyPermit;
  }

  lemma BundleOfCommitVerifies(g: G.Config, d: D.Config, request: Json, context: A.RequestContext,
                               approvalId: Option<string>, ids: G.Ids, now: int, response: Json, minted: D.Minted)
    requires Deployed(g, d) && now >= 0 && ids.operationId != "" && context.capability.Some?
    requires context.capability.value != ""
    ensures var permit := G.MakePermit(g, request, context, approvalId, ids, now);
      var receipt := Sign(D.Material(permit, response, minted), ReceiptKind, d.kid, d.publicKey);
      && VerifyBundle(permit, ReceiptDoc(receipt), g.trust, Some(request), Some(response))
         == Verdict(TrustedDestination, DestinationCommitAttested, Some(Committed), true, true, None)
      && VerifyBundle(permit, ReceiptDoc(receipt), g.trust, None, Some(response))
         == Verdict(TrustedDestination, DestinationCommitAttested, Some(Committed), false, true, None)
  {
    hide VerifyReceipt, Deployed, G.MakePermit, VerifyPermit;
    ReceiptOfCommitVerifies(g, d, request, context, approvalId, ids, now, response, minted);
    OwnPermitFits(g, d, request, context, approvalId, ids, now);
  }

  lemma OwnPermitFits(g: G.Config, d: D.Config, request: Json, context: A.RequestContext, approvalId: Option<string>,
                      ids: G.Ids, now: int)
    requires Deployed(g, d) && now >= 0 && ids.operationId != "" && context.capability.Some?
    requires context.capability.value != ""
    ensures var permit := G.MakePermit(g, request, context, approvalId, ids, now);
      VerifyPermit(permit, g.trust, None) == Success(permit.authorization.payload)
      && permit.authorization.payload.requestDigest == RequestDigest(request, permit.authorization.payload.requestNonce)
  {
  }

  // Whatever `prepare` reserves is the permit made for the message, and the permit it forwards.
  lemma PreparedPermit(t: Tables, g: G.Config, message: Dict, context: A.RequestContext,
                       consume: Option<ConsumeRequest>, ids: G.Ids, now: int)
    requires G.Prepare(t, g, message, context, consume, ids, now).1.Success?
    ensures ValidateClient(message).Success? && RequestPayload(message).Success?
    ensures var (u, r) := G.Prepare(t, g, message, context, consume, ids, now);
      var permit := G.MakePermit(g, RequestPayload(message).value, context, G.ConsumedId(consume), ids, now);
      && r.value == (ids.operationId, AttachPermit(message, permit))
      && ids.operationId !in t.operations && ids.operationId in u.operations
      && u.operations[ids.operationId].bundle == Bundle(permit, None)
  {
    hide ValidateClient, RequestPayload, VerifyPermit;
    MadeFor(g, RequestPayload(message).value, context, G.ConsumedId(consume), ids, now);
  }

  // A refund that is prepared, delivered in time, committed, signed and returned without a
  // disturbance is attested in full: the gateway accepts the receipt, hands the client the plain
  // response, and an auditor holding request and response verifies both.
  lemma UndisturbedRefundIsAttested(g: G.Config, d: D.Config, ledger: D.Ledger, message: Dict,
                                    context: A.RequestContext, approvalId: Option<string>, ids: G.Ids, now: int,
                                    at: int, minted: D.Minted, amount: int)
    requires Deployed(g, d) && D.ValidLedger(d, ledger) && now >= 0 && ids.operationId != ""
    requires ValidateClient(message).Success? && RequestPayload(message).Success?
    requires IsRefund(context, message, amount) && now <= at < now + g.ttl && ids.operationId !in ledger.operations
    ensures var request := RequestPayload(message).value;
      var permit := G.MakePermit(g, request, context, approvalId, ids, now);
      var response := D.RefundResponse(amount);
      && D.Admit(d, AttachPermit(message, permit), at) == Success(D.Admitted(permit, amount))
      && var (committed, plain) := D.Commit(ledger, D.Admitted(permit, amount), minted);
      && plain == Success(response)
      && var (signed, receipt) := D.SignReceipt(committed, d, ids.operationId, AttemptDigest(permit), true);
      && receipt.Success? && InjectReceipt(response, ReceiptDoc(receipt.value)).Success?
      && var reply := InjectReceipt(response, ReceiptDoc(receipt.value)).value;
      && var judged := G.Judge(g, permit, reply);
      && judged.Success? && judged.value.clean == response && G.Accepted(judged.value) == Some(receipt.value)
      && VerifyBundle(permit, ReceiptDoc(receipt.value), g.trust, Some(request), Some(Obj(response)))
         == Verdict(TrustedDestination, DestinationCommitAttested, Some(Committed), true, true, None)
  {
    hide ValidateClient, RequestPayload, VerifyPermit, VerifyBundle, D.Admit, D.Commit, D.RefundResponse, G.MakePermit,
         SplitResponse, ResponsePayload, InjectReceipt, D.Material, D.ValidLedger;
    var request := RequestPayload(message).value;
    var permit := G.MakePermit(g, request, context, approvalId, ids, now);
    var response := D.RefundResponse(amount);
    AdmittedExactlyWhenRefundInWindow(g, d, message, context, approvalId, ids, now, at, amount);
    MadeFor(g, request, context, approvalId, ids, now);
    FreshPermitCommits(d, ledger, D.Admitted(permit, amount), minted);
    RefundReply(amount, Null);
    var receipt := Sign(D.Material(permit, Obj(response), minted), ReceiptKind, d.kid, d.publicKey);
    RefundReply(amount, ReceiptDoc(receipt));
    BundleOfCommitVerifies(g, d, request, context, approvalId, ids, now, Obj(response), minted);
    ReceiptOfCommitVerifies(g, d, request, context, approvalId, ids, now, Obj(response), minted);
  }

  lemma MadeFor(g: G.Config, request: Json, context: A.RequestContext, approvalId: Option<string>, ids: G.Ids, now: int)
    ensures G.MakePermit(g, request, context, approvalId, ids, now).authorization.payload.operationId == ids.operationId
  {
  }

  // -------- What such a run leaves behind --------

  lemma PreparedTables(t: Tables, g: G.Config, message: Dict, context: A.RequestContext,
                       consume: Option<ConsumeRequest>, ids: G.Ids, now: int)
    requires G.Prepare(t, g, message, context, consume, ids, now).1.Success?
    requires !HasConflict(t.events, ids.operationId)
    ensures var u := G.Prepare(t, g, message, context, consume, ids, now).0;
      && Owned(u, ids.operationId, g.tenant) && !HasConflict(u.events, ids.operationId)
      && u.events == t.events + [Event(ids.eventId, ids.operationId, DispatchIntent, false)]
  {
    hide ValidateClient, RequestPayload, VerifyPermit, Reserve;
    var draft := G.Draft(g, message, context, G.ConsumedId(consume), ids, now).value;
    MadeFor(g, RequestPayload(message).value, context, G.ConsumedId(consume), ids, now);
    S.ReserveShape(t, Bundle(draft.0, None), draft.1, draft.2, consume, ids.eventId);
    TenantOf(g, RequestPayload(message).value, context, G.ConsumedId(consume), ids, now);
  }

  lemma TenantOf(g: G.Config, request: Json, context: A.RequestContext, approvalId: Option<string>, ids: G.Ids,
                 now: int)
    ensures G.MakePermit(g, request, context, approvalId, ids, now).authorization.payload.tenant == g.tenant
  {
  }

  // The first receipt of an operation is stored, with its event.
  lemma FirstReceiptIsStored(t: Tables, operation: string, tenant: string, phase: Phase, receipt: SignedReceipt,
                             eventId: string, conflictId: string)
    requires Owned(t, operation, tenant) && t.operations[operation].bundle.receipt.None?
    requires !EventIdUsed(t.events, eventId)
    requires !HasConflict(t.events, operation) && phase != ConflictingReceipt
    ensures var (u, r) := Record(t, operation, tenant, phase, Some(receipt), eventId, conflictId);
      r.Success? && Get(u, operation, tenant) == Success(t.operations[operation].bundle.(receipt := Some(receipt)))
  {
  }

  lemma HandledUndisturbed(d: D.Config, ledger: D.Ledger, message: Dict, at: int, minted: D.Minted, permit: Permit,
                           amount: int, receipt: SignedReceipt)
    requires D.Admit(d, message, at) == Success(D.Admitted(permit, amount))
    requires var (committed, plain) := D.Commit(ledger, D.Admitted(permit, amount), minted);
      plain == Success(D.RefundResponse(amount))
      && D.SignReceipt(committed, d, permit.authorization.payload.operationId, AttemptDigest(permit), true).1
        == Success(receipt)
    requires InjectReceipt(D.RefundResponse(amount), ReceiptDoc(receipt)).Success?
    ensures D.Handle(d, ledger, message, at, minted, true, true).1
         == D.Reply(InjectReceipt(D.RefundResponse(amount), ReceiptDoc(receipt)).value)
  {
    hide D.Admit, D.Commit, D.SignReceipt, D.RefundResponse, InjectReceipt;
  }

  lemma ObservedAccepted(t: Tables, g: G.Config, operation: string, reply: Dict, nonce: string, eventId: string,
                         conflictId: string, receipt: SignedReceipt)
    requires Owned(t, operation, g.tenant) && !HasConflict(t.events, operation) && !EventIdUsed(t.events, eventId)
    requires t.operations[operation].bundle.receipt.None?
    requires G.Judge(g, t.operations[operation].bundle.permit, reply).Success?
    requires G.Accepted(G.Judge(g, t.operations[operation].bundle.permit, reply).value) == Some(receipt)
    ensures var (u, clean) := G.Observe(t, g, operation, reply, nonce, eventId, conflictId);
      && clean == Success(G.Judge(g, t.operations[operation].bundle.permit, reply).value.clean)
      && Get(u, operation, g.tenant) == Success(t.operations[operation].bundle.(receipt := Some(receipt)))
  {
    hide Record, SplitResponse, ResponsePayload, VerifyBundle, HasConflict;
    var j := G.Judge(g, t.operations[operation].bundle.permit, reply).value;
    FirstReceiptIsStored(t, operation, g.tenant, ResponseObserved(j.verdict, ResponseDigest(j.payload, nonce)), receipt,
      eventId, conflictId);
  }

  // From reservation to audit: prepared at the gateway, handled at the destination and observed
  // again, a refund leaves one refund in the ledger and, at the gateway, the permit with its receipt,
  // and the two verify with request and response.
  lemma UndisturbedRefundIsStored(t: Tables, g: G.Config, d: D.Config, ledger: D.Ledger, message: Dict,
                                  context: A.RequestContext, consume: Option<ConsumeRequest>, ids: G.Ids, now: int,
                                  at: int, minted: D.Minted, amount: int, nonce: string, eventId: string,
                                  conflictId: string)
    requires Deployed(g, d) && D.ValidLedger(d, ledger) && now >= 0 && ids.operationId != ""
    requires G.Prepare(t, g, message, context, consume, ids, now).1.Success?
    requires IsRefund(context, message, amount) && now <= at < now + g.ttl && ids.operationId !in ledger.operations
    requires !HasConflict(t.events, ids.operationId) && !EventIdUsed(t.events, eventId) && eventId != ids.eventId
    ensures RequestPayload(message).Success?
    ensures var (reserved, prepared) := G.Prepare(t, g, message, context, consume, ids, now);
      var (operation, forwarded) := prepared.value;
      var (after, answer) := D.Respond(d, ledger, forwarded, at, minted, true, true);
      && operation == ids.operationId && answer.Reply?
      && operation in after.refunds && after.refunds[operation] == amount
      && operation in reserved.operations
      && var (observed, clean) := G.Observe(reserved, g, operation, answer.message, nonce, eventId, conflictId);
      && clean == Success(D.RefundResponse(amount))
      && var stored := Get(observed, operation, g.tenant);
      && stored.Success? && stored.value.permit == reserved.operations[operation].bundle.permit
      && stored.value.receipt.Some?
      && VerifyBundle(stored.value.permit, StoredReceipt(stored.value), g.trust, Some(RequestPayload(message).value),
                      Some(Obj(D.RefundResponse(amount))))
         == Verdict(TrustedDestination, DestinationCommitAttested, Some(Committed), true, true, None)
  {
    hide Deployed, D.ValidLedger, G.Prepare, IsRefund, HasConflict, EventIdUsed, RequestPayload, ValidateClient,
      D.Handle, D.Respond, D.IsCall, D.Admit, D.Commit, D.SignReceipt, D.RefundResponse, InjectReceipt, G.Judge,
      G.Observe, VerifyBundle, G.MakePermit, Get, AttachPermit, G.Accepted;
    PreparedPermit(t, g, message, context, consume, ids, now);
    PreparedTables(t, g, message, context, consume, ids, now);
    var request := RequestPayload(message).value;
    var permit := G.MakePermit(g, request, context, G.ConsumedId(consume), ids, now);
    MadeFor(g, request, context, G.ConsumedId(consume), ids, now);
    var reserved := G.Prepare(t, g, message, context, consume, ids, now).0;
    UndisturbedRefundIsAttested(g, d, ledger, message, context, G.ConsumedId(consume), ids, now, at, minted, amount);
    var committed := D.Commit(ledger, D.Admitted(permit, amount), minted).0;
    var receipt := D.SignReceipt(committed, d, ids.operationId, AttemptDigest(permit), true).1.value;
    HandledUndisturbed(d, ledger, AttachPermit(message, permit), at, minted, permit, amount, receipt);
    HandledLedger(d, ledger, AttachPermit(message, permit), at, minted, permit, amount);
    RefundIsACall(context, message, amount);
    ForwardedIsCall(message, permit);
    D.CallsAreHandled(d, ledger, AttachPermit(message, permit), at, minted, true, true);
    NewEventIsUnused(t.events, Event(ids.eventId, ids.operationId, DispatchIntent, false), eventId);
    var reply := InjectReceipt(D.RefundResponse(amount), ReceiptDoc(receipt)).value;
    ObservedAccepted(reserved, g, ids.operationId, reply, nonce, eventId, conflictId, receipt);
  }

  lemma RefundIsACall(context: A.RequestContext, message: Dict, amount: int)
    requires IsRefund(context, message, amount)
    ensures D.IsCall(message)
  {
  }

  lemma HandledLedger(d: D.Config, ledger: D.Ledger, message: Dict, at: int, minted: D.Minted, permit: Permit,
                      amount: int)
    requires D.ValidLedger(d, ledger) && permit.authorization.payload.operationId !in ledger.operations
    requires D.Admit(d, message, at) == Success(D.Admitted(permit, amount))
    ensures var after := D.Handle(d, ledger, message, at, minted, true, true).0;
      var o := permit.authorization.payload.operationId;
      o in after.refunds && after.refunds[o] == amount
  {
    hide D.Admit, D.RefundResponse, InjectReceipt, D.ValidRow, D.Material;
    FreshPermitCommits(d, ledger, D.Admitted(permit, amount), minted);
    D.CommitShape(ledger, D.Admitted(permit, amount), minted);
  }

  lemma NewEventIsUnused(events: seq<Event>, e: Event, eventId: string)
    requires !EventIdUsed(events, eventId) && e.eventId != eventId
    ensures !EventIdUsed(events + [e], eventId)
  {
  }
}
