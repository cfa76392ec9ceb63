// Which calls are one operation: what a client's idempotency key does, from reservation to reservation.
module Idempotency {
  import opened Wrappers
  import opened Documents
  import opened Protocol
  import opened Store
  import A = Approvals
  import G = Runtime
  import S = StoreSafety
  import T = StoreAnswers

  // One tenant and destination, one principal, one tool.
  predicate SameCaller(g: G.Config, context: A.RequestContext, g': G.Config, context': A.RequestContext) {
    && g.tenant == g'.tenant && g.destination == g'.destination
    && context.identity.subject == context'.identity.subject
    && context.identity.clientId == context'.identity.clientId
    && context.identity.agentId == context'.identity.agentId
    && context.capability == context'.capability
  }

  // The client's key, or the call's own operation id when it brings none.
  function KeyOf(message: Dict, ids: G.Ids): string
    requires ValidateClient(message).Success?
  {
    match ValidateClient(message).value case Some(key) => key case None => ids.operationId
  }

  lemma ScopesAgreeExactly(g: G.Config, message: Dict, context: A.RequestContext, ids: G.Ids,
                           g': G.Config, message': Dict, context': A.RequestContext, ids': G.Ids)
    requires ValidateClient(message).Success? && ValidateClient(message').Success?
    ensures G.ScopeOf(g, context, ValidateClient(message).value, ids.operationId)
         == G.ScopeOf(g', context', ValidateClient(message').value, ids'.operationId)
       <==> SameCaller(g, context, g', context') && KeyOf(message, ids) == KeyOf(message', ids')
  {
    hide ValidateClient;
  }

  lemma DraftedFrom(g: G.Config, message: Dict, context: A.RequestContext, approvalId: Option<string>, ids: G.Ids,
                    now: int)
    requires G.Draft(g, message, context, approvalId, ids, now).Success?
    ensures ValidateClient(message).Success? && RequestPayload(message).Success?
    ensures var (permit, scope, fingerprint) := G.Draft(g, message, context, approvalId, ids, now).value;
      && permit.authorization.payload.operationId == ids.operationId
      && scope == G.ScopeOf(g, context, ValidateClient(message).value, ids.operationId)
      && fingerprint == RequestFingerprint(RequestPayload(message).value)
  {
    hide ValidateClient, RequestPayload, G.ScopeOf;
  }

  // The row a successful call has left, in every later state of the store.
  lemma RowStays(t: Tables, v: Tables, g: G.Config, message: Dict, context: A.RequestContext,
                 consume: Option<ConsumeRequest>, ids: G.Ids, now: int)
    requires G.Prepare(t, g, message, context, consume, ids, now).1.Success?
    requires S.Advances(G.Prepare(t, g, message, context, consume, ids, now).0, v)
    ensures ValidateClient(message).Success? && RequestPayload(message).Success?
    ensures ids.operationId in v.operations
    ensures v.operations[ids.operationId].scope
         == G.ScopeOf(g, context, ValidateClient(message).value, ids.operationId)
    ensures v.operations[ids.operationId].fingerprint == RequestFingerprint(RequestPayload(message).value)
  {
    hide ValidateClient, RequestPayload, G.ScopeOf, Reserve, G.Draft, S.Advances;
    var draft := G.Draft(g, message, context, G.ConsumedId(consume), ids, now);
    DraftedFrom(g, message, context, G.ConsumedId(consume), ids, now);
    S.ReserveShape(t, Bundle(draft.value.0, None), draft.value.1, draft.value.2, consume, ids.eventId);
    RowAfter(G.Prepare(t, g, message, context, consume, ids, now).0, v, ids.operationId);
  }

  lemma RowAfter(u: Tables, v: Tables, o: string)
    requires S.Advances(u, v) && o in u.operations
    ensures o in v.operations && v.operations[o].scope == u.operations[o].scope
    ensures v.operations[o].fingerprint == u.operations[o].fingerprint
  {
    assert S.RowAdvances(u.operations[o], v.operations[o]);
  }

  // After a call has reserved, whatever happened in the store since: a further call is told of that
  // operation exactly when it is the same caller's, under the same key, with the same request. Under
  // the same key with another request it is refused. Neither changes anything.
  lemma ReservationIsFoundExactly(t: Tables, v: Tables, g: G.Config, message: Dict, context: A.RequestContext,
                                  consume: Option<ConsumeRequest>, ids: G.Ids, now: int,
                                  g': G.Config, message': Dict, context': A.RequestContext,
                                  consume': Option<ConsumeRequest>, ids': G.Ids, now': int)
    requires G.Prepare(t, g, message, context, consume, ids, now).1.Success?
    requires S.Advances(G.Prepare(t, g, message, context, consume, ids, now).0, v) && S.ValidTables(v)
    requires G.Draft(g', message', context', G.ConsumedId(consume'), ids', now').Success?
    ensures ValidateClient(message).Success? && ValidateClient(message').Success?
    ensures var same := SameCaller(g, context, g', context') && KeyOf(message, ids) == KeyOf(message', ids');
      var equal := RequestPayload(message) == RequestPayload(message');
      var (u, r) := G.Prepare(v, g', message', context', consume', ids', now');
      && (r == Failure(G.AlreadyReserved(ids.operationId)) <==> same && equal)
      && (same && !equal ==> r == Failure(G.Refused(IdempotencyConflict)))
      && (same ==> u == v)
  {
    hide ValidateClient, RequestPayload, G.ScopeOf, Reserve, G.Draft, S.Advances, S.ValidTables, G.Prepare, KeyOf;
    RowStays(t, v, g, message, context, consume, ids, now);
    DraftedFrom(g', message', context', G.ConsumedId(consume'), ids', now');
    ScopesAgreeExactly(g, message, context, ids, g', message', context', ids');
    AnsweredFromRow(v, g', message', context', consume', ids', now', ids.operationId);
  }

  // What a drafted call is told, given some row of the store.
  lemma AnsweredFromRow(v: Tables, g: G.Config, message: Dict, context: A.RequestContext,
                        consume: Option<ConsumeRequest>, ids: G.Ids, now: int, o: string)
    requires S.ValidTables(v) && o in v.operations
    requires G.Draft(g, message, context, G.ConsumedId(consume), ids, now).Success?
    ensures var (_, scope, fingerprint) := G.Draft(g, message, context, G.ConsumedId(consume), ids, now).value;
      var (u, r) := G.Prepare(v, g, message, context, consume, ids, now);
      var same := scope == v.operations[o].scope; var equal := fingerprint == v.operations[o].fingerprint;
      && (r == Failure(G.AlreadyReserved(o)) <==> same && equal)
      && (same && !equal ==> r == Failure(G.Refused(IdempotencyConflict)))
      && (same ==> u == v)
  {
    hide G.Draft;
    var (permit, scope, fingerprint) := G.Draft(g, message, context, G.ConsumedId(consume), ids, now).value;
    if scope == v.operations[o].scope {
      T.TakenScopeIsAnswered(v, o, Bundle(permit, None), scope, fingerprint, consume, ids.eventId);
    } else {
      OtherScope(v, o, Bundle(permit, None), scope, fingerprint, consume, ids.eventId);
    }
  }

  lemma OtherScope(v: Tables, o: string, bundle: Bundle, scope: PrivateDigest, fingerprint: PrivateDigest,
                   consume: Option<ConsumeRequest>, eventId: string)
    requires S.ValidTables(v) && o in v.operations && v.operations[o].scope != scope
    ensures Reserve(v, bundle, scope, fingerprint, consume, eventId).1 != Success(Some(o))
  {
  }

  // Without a key every call is an operation of its own; with one, the same caller has one operation.
  lemma KeylessCallIsItsOwn(t: Tables, v: Tables, g: G.Config, message: Dict, context: A.RequestContext,
                            consume: Option<ConsumeRequest>, ids: G.Ids, now: int, g': G.Config, message': Dict,
                            context': A.RequestContext, consume': Option<ConsumeRequest>, ids': G.Ids, now': int)
    requires G.Prepare(t, g, message, context, consume, ids, now).1.Success?
    requires S.Advances(G.Prepare(t, g, message, context, consume, ids, now).0, v) && S.ValidTables(v)
    requires ValidateClient(message') == Success(None) && ids'.operationId != ids.operationId
    requires ValidateClient(message) != Success(Some(ids'.operationId))
    ensures G.Prepare(v, g', message', context', consume', ids', now').1
         != Failure(G.AlreadyReserved(ids.operationId))
  {
    hide ValidateClient, RequestPayload, S.Advances, S.ValidTables, Reserve, G.ScopeOf;
    if G.Draft(g', message', context', G.ConsumedId(consume'), ids', now').Success? {
      ReservationIsFoundExactly(t, v, g, message, context, consume, ids, now,
                                g', message', context', consume', ids', now');
    }
  }
}
