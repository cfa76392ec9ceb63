// One call through an evidence server (core/pipeline.py, _send_with_evidence): what happens in
// which order, and what each failure on the way leaves behind.
module Pipeline {
  import opened Wrappers
  import opened Documents
  import opened Protocol
  import opened Store
  import A = Approvals
  import G = Runtime
  import S = StoreSafety
  import W = World

  // What the upstream does with a message: it may fail, stay silent, or reply.
  datatype Upstream = Raises | Silent | Replies(reply: Dict)

  // Everything the call does not decide itself: drawn ids and the clock, whether the outbox and the
  // audit log can be written, what comes back, what output enforcement makes of it, and whether the
  // database can still be written at the end.
  datatype Surroundings = Surroundings(
    ids: G.Ids, now: int, logged: bool, upstream: Upstream, enforced: Option<Dict>,
    nonce: string, observed: (string, string), prepared: (string, string), flushed: bool,
    recoverable: bool, recovered: (string, string))

  // The tables only move forward.
  ghost predicate Forward(t: Tables, u: Tables) {
    S.ValidTables(t) ==> S.ValidTables(u) && S.Advances(t, u)
  }

  lemma ForwardIsTransitive(t: Tables, u: Tables, v: Tables)
    requires Forward(t, u) && Forward(u, v)
    ensures Forward(t, v)
  {
    hide S.ValidTables, S.Advances;
    if S.ValidTables(t) { S.AdvancesIsTransitive(t, u, v); }
  }

  lemma RecordIsForward(t: Tables, operation: string, tenant: string, phase: Phase, receipt: Option<SignedReceipt>,
                        eventId: string, conflictId: string)
    ensures Forward(t, Record(t, operation, tenant, phase, receipt, eventId, conflictId).0)
  {
    hide S.ValidTables, S.Advances, Record;
    if S.ValidTables(t) { S.RecordStep(t, operation, tenant, phase, receipt, eventId, conflictId); }
  }

  lemma StayIsForward(t: Tables)
    ensures Forward(t, t)
  {
    S.NoStep(t);
  }

  lemma ObserveIsForward(t: Tables, g: G.Config, operation: string, reply: Dict, nonce: string, eventId: string,
                         conflictId: string)
    ensures Forward(t, G.Observe(t, g, operation, reply, nonce, eventId, conflictId).0)
  {
    hide S.ValidTables, S.Advances, Record, SplitResponse, Forward, G.Judge;
    StayIsForward(t);
    var bundle := Get(t, operation, g.tenant);
    if SplitResponse(reply).Success? && bundle.Success? && G.Judge(g, bundle.value.permit, reply).Success? {
      var j := G.Judge(g, bundle.value.permit, reply).value;
      RecordIsForward(t, operation, g.tenant, ResponseObserved(j.verdict, ResponseDigest(j.payload, nonce)),
        G.Accepted(j), eventId, conflictId);
    }
  }

  lemma PrepareIsForward(t: Tables, g: G.Config, message: Dict, context: A.RequestContext,
                         consume: Option<ConsumeRequest>, ids: G.Ids, now: int)
    ensures var (u, p) := G.Prepare(t, g, message, context, consume, ids, now);
      && Forward(t, u) && (p.Failure? ==> u == t)
      && (p.Success? ==>
            p.value.0 == ids.operationId && ids.operationId !in t.operations && ids.operationId in u.operations)
  {
    hide S.ValidTables, S.Advances, Reserve, Forward;
    StayIsForward(t);
    var draft := G.Draft(g, message, context, G.ConsumedId(consume), ids, now);
    if draft.Success? {
      ReserveIsForward(t, Bundle(draft.value.0, None), draft.value.1, draft.value.2, consume, ids.eventId);
      S.ReserveShape(t, Bundle(draft.value.0, None), draft.value.1, draft.value.2, consume, ids.eventId);
      MadeUnder(g, message, context, G.ConsumedId(consume), ids, now);
    }
  }

  lemma MadeUnder(g: G.Config, message: Dict, context: A.RequestContext, approvalId: Option<string>, ids: G.Ids,
                  now: int)
    requires G.Draft(g, message, context, approvalId, ids, now).Success?
    ensures G.Draft(g, message, context, approvalId, ids, now).value.0.authorization.payload.operationId
      == ids.operationId
  {
  }

  lemma ReserveIsForward(t: Tables, bundle: Bundle, scope: PrivateDigest, fingerprint: PrivateDigest,
                         consume: Option<ConsumeRequest>, eventId: string)
    ensures var (u, r) := Reserve(t, bundle, scope, fingerprint, consume, eventId);
      Forward(t, u) && (r != Success(None) ==> u == t)
  {
    hide S.ValidTables, S.Advances, Reserve;
    if S.ValidTables(t) { S.ReserveStep(t, bundle, scope, fingerprint, consume, eventId); }
    S.FailureChangesNothing(t, bundle, scope, fingerprint, consume, eventId);
  }

  // Taking the reply in and preparing the answer; None when anything on the way raises.
  function Taken(t: Tables, g: G.Config, operation: string, around: Surroundings): (Tables, Option<Dict>) {
    if !around.upstream.Replies? then (t, None)
    else
      var (u, clean) := G.Observe(t, g, operation, around.upstream.reply, around.nonce, around.observed.0,
                                  around.observed.1);
      if clean.Failure? || around.enforced.None? then (u, None)
      else
        var (v, prepared) := Record(u, operation, g.tenant, ClientResponsePrepared, None, around.prepared.0,
                                    around.prepared.1);
        (v, if prepared.Failure? || !around.flushed then None else around.enforced)
  }

  // The tables after a call, what the client is told, and how often the call sent upstream.
  function Sent(t: Tables, g: G.Config, message: Dict, context: A.RequestContext, consume: Option<ConsumeRequest>,
                around: Surroundings): (Tables, W.Outcome, nat) {
    var (reserved, p) := G.Prepare(t, g, message, context, consume, around.ids, around.now);
    match p
    case Failure(Refused(_)) => (reserved, W.NotDispatched, 0)
    case Failure(AlreadyReserved(previous)) => (reserved, W.AlreadyReserved(previous), 0)
    case Success((operation, _)) =>
      var sends := if around.logged then 1 else 0;
      var (taken, response) := if around.logged then Taken(reserved, g, operation, around) else (reserved, None);
      if response.Some? then (taken, W.Normal(response.value), sends)
      else
        (if around.recoverable then
           Record(taken, operation, g.tenant, OutcomeUnavailable, None, around.recovered.0, around.recovered.1).0
         else taken, W.Unknown(operation), sends)
  }

  method TakeIn(runtime: G.EvidenceRuntime, operation: string, around: Surroundings) returns (r: Option<Dict>)
    modifies runtime.store
    ensures (runtime.store.State(), r) == Taken(old(runtime.store.State()), runtime.config, operation, around)
  {
    hide Record, G.Observe;
    if !around.upstream.Replies? { return None; }
    var clean := runtime.ObserveResponse(operation, around.upstream.reply, around.nonce, around.observed.0,
                                         around.observed.1);
    if clean.Failure? || around.enforced.None? { return None; }
    var prepared := runtime.PreparedResponse(operation, around.prepared.0, around.prepared.1);
    if prepared.Failure? || !around.flushed { return None; }
    r := around.enforced;
  }

  method SendWithEvidence(runtime: G.EvidenceRuntime, message: Dict, context: A.RequestContext,
                          consume: Option<ConsumeRequest>, around: Surroundings)
    returns (outcome: W.Outcome, sends: nat)
    modifies runtime.store
    ensures (runtime.store.State(), outcome, sends)
         == Sent(old(runtime.store.State()), runtime.config, message, context, consume, around)
  {
    hide Record, Taken, G.Prepare;
    sends := 0;
    var p := runtime.PrepareCall(message, context, consume, around.ids, around.now);
    if p.Failure? {
      outcome := match p.error
        case Refused(_) => W.NotDispatched
        case AlreadyReserved(previous) => W.AlreadyReserved(previous);
      return;
    }
    var (operation, forwarded) := p.value;
    if around.logged {
      sends := sends + 1;
      var response := TakeIn(runtime, operation, around);
      if response.Some? { return W.Normal(response.value), sends; }
    }
    if around.recoverable {
      var _ := runtime.store.RecordEvent(operation, runtime.config.tenant, OutcomeUnavailable, None,
                                         around.recovered.0, around.recovered.1);
    }
    outcome := W.Unknown(operation);
  }

  lemma TakenIsForward(t: Tables, g: G.Config, operation: string, around: Surroundings)
    ensures Forward(t, Taken(t, g, operation, around).0)
    ensures Taken(t, g, operation, around).1.Some? ==>
      around.upstream.Replies? && Taken(t, g, operation, around).1 == around.enforced
  {
    hide Record, Forward, G.Observe;
    StayIsForward(t);
    if around.upstream.Replies? {
      ObserveIsForward(t, g, operation, around.upstream.reply, around.nonce, around.observed.0, around.observed.1);
      var u := G.Observe(t, g, operation, around.upstream.reply, around.nonce, around.observed.0, around.observed.1).0;
      RecordIsForward(u, operation, g.tenant, ClientResponsePrepared, None, around.prepared.0, around.prepared.1);
      ForwardIsTransitive(t, u, Record(u, operation, g.tenant, ClientResponsePrepared, None, around.prepared.0,
                                       around.prepared.1).0);
    }
  }

  // What the client is told of one call is true, whatever fails on the way: refused calls changed
  // and sent nothing, a normal answer follows the one dispatch and its reply, and everything else
  // leaves a reservation with its intent behind.
  lemma AnswersAreTruthful(t: Tables, g: G.Config, message: Dict, context: A.RequestContext,
                           consume: Option<ConsumeRequest>, around: Surroundings)
    requires S.ValidTables(t)
    ensures var (u, outcome, sends) := Sent(t, g, message, context, consume, around);
      && S.ValidTables(u) && S.Advances(t, u)
      && (outcome.NotDispatched? || outcome.AlreadyReserved? ==> u == t && sends == 0)
      && (outcome.Normal? ==> sends == 1 && around.upstream.Replies? && around.enforced == Some(outcome.response))
      && (outcome.Normal? || outcome.Unknown? ==>
            sends <= 1 && around.ids.operationId !in t.operations && around.ids.operationId in u.operations
            && S.HasIntent(u.events, around.ids.operationId))
      && (outcome.Unknown? ==> outcome.operation == around.ids.operationId)
      && !outcome.Vanished?
  {
    hide S.ValidTables, S.Advances, Record, Taken, G.Prepare;
    PrepareIsForward(t, g, message, context, consume, around.ids, around.now);
    var (reserved, p) := G.Prepare(t, g, message, context, consume, around.ids, around.now);
    S.NoStep(t);
    if p.Success? {
      var operation := p.value.0;
      TakenIsForward(reserved, g, operation, around);
      StayIsForward(reserved);
      var taken := if around.logged then Taken(reserved, g, operation, around).0 else reserved;
      RecordIsForward(taken, operation, g.tenant, OutcomeUnavailable, None, around.recovered.0, around.recovered.1);
      var u := Sent(t, g, message, context, consume, around).0;
      assert Forward(taken, u) by { StayIsForward(taken); }
      ForwardIsTransitive(reserved, taken, u);
      ForwardIsTransitive(t, reserved, u);
      ReservationStays(reserved, u, operation);
    }
  }

  lemma ReservationStays(t: Tables, u: Tables, operation: string)
    requires S.ValidTables(t) && S.ValidTables(u) && S.Advances(t, u) && operation in t.operations
    ensures operation in u.operations && S.HasIntent(u.events, operation)
  {
    assert S.ValidOperation(u, operation);
  }

  // Once an operation has a conflict, observing and reconciling it fail for good and change nothing.
  lemma ConflictStopsTheRuntime(t: Tables, actions: seq<S.Action>, g: G.Config, operation: string, reply: Dict,
                                answer: Option<Dict>, nonce: string, eventId: string, conflictId: string)
    requires S.ValidTables(t) && HasConflict(t.events, operation)
    ensures var u := S.Run(t, actions);
      && G.Observe(u, g, operation, reply, nonce, eventId, conflictId).0 == u
      && G.Observe(u, g, operation, reply, nonce, eventId, conflictId).1.Failure?
      && G.ReconcileAtOnce(u, g, operation, answer, eventId, conflictId).0 == u
      && G.ReconcileAtOnce(u, g, operation, answer, eventId, conflictId).1.Failure?
  {
    hide S.Run, S.ValidTables, S.Advances, SplitResponse, G.Judge, HasConflict;
    S.RunAdvances(t, actions);
    assert S.LogExtends(t.events, S.Run(t, actions).events) by { AdvancesExtendsLog(t, S.Run(t, actions)); }
    S.IntentStays(t.events, S.Run(t, actions).events);
  }

  lemma AdvancesExtendsLog(t: Tables, u: Tables)
    requires S.Advances(t, u)
    ensures S.LogExtends(t.events, u.events)
  {
  }
}
