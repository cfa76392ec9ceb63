// What a call through an evidence server ends in, exactly: from what its steps met with.
module CallOutcomes {
  import opened Wrappers
  import opened Documents
  import opened Protocol
  import opened Store
  import opened Pipeline
  import A = Approvals
  import C = Completeness
  import D = Destination
  import G = Runtime
  import S = StoreSafety
  import T = StoreAnswers
  import W = World

  // A call is answered normally exactly when it was reserved, could be logged, the upstream replied,
  // the reply was taken in, output enforcement made an answer of it, and that could be recorded and
  // handed to the outbox; the answer is then the enforced one.
  lemma NormalExactly(t: Tables, g: G.Config, message: Dict, context: A.RequestContext,
                      consume: Option<ConsumeRequest>, around: Surroundings, response: Dict)
    ensures var (reserved, p) := G.Prepare(t, g, message, context, consume, around.ids, around.now);
      var (u, outcome, sends) := Sent(t, g, message, context, consume, around);
      (outcome == W.Normal(response) && sends == 1) <==>
        && p.Success? && around.logged && around.upstream.Replies?
        && var (seen, clean) := G.Observe(reserved, g, p.value.0, around.upstream.reply, around.nonce,
                                          around.observed.0, around.observed.1);
        && clean.Success? && around.enforced == Some(response)
        && (forall i | 0 <= i < |seen.events| :: seen.events[i].eventId != around.prepared.0) && around.flushed
    ensures var (u, outcome, sends) := Sent(t, g, message, context, consume, around);
      outcome.Normal? ==> sends == 1
  {
    hide Record, G.Prepare, G.Observe;
    var (reserved, p) := G.Prepare(t, g, message, context, consume, around.ids, around.now);
    if p.Success? && around.upstream.Replies? {
      var operation, reply := p.value.0, around.upstream.reply;
      ObservedIsOwned(reserved, g, operation, reply, around.nonce, around.observed.0, around.observed.1);
      var seen := G.Observe(reserved, g, operation, reply, around.nonce, around.observed.0, around.observed.1).0;
      T.PhaseIsRecordedExactly(seen, operation, g.tenant, ClientResponsePrepared, around.prepared.0, around.prepared.1);
    }
  }

  lemma ObservedIsOwned(t: Tables, g: G.Config, operation: string, reply: Dict, nonce: string, eventId: string,
                        conflictId: string)
    ensures var (u, clean) := G.Observe(t, g, operation, reply, nonce, eventId, conflictId);
      clean.Success? ==> operation in u.operations && u.operations[operation].tenant == g.tenant
  {
    hide Record, SplitResponse, G.Judge, HasConflict;
    if SplitResponse(reply).Success? && Get(t, operation, g.tenant).Success? {
      var judged := G.Judge(g, t.operations[operation].bundle.permit, reply);
      if judged.Success? {
        S.RecordShape(t, operation, g.tenant,
          ResponseObserved(judged.value.verdict, ResponseDigest(judged.value.payload, nonce)),
          G.Accepted(judged.value), eventId, conflictId);
      }
    }
  }

  // What a normal answer leaves: everything the observation did, and the event of its preparation.
  lemma NormalLeaves(t: Tables, g: G.Config, message: Dict, context: A.RequestContext,
                     consume: Option<ConsumeRequest>, around: Surroundings)
    requires Sent(t, g, message, context, consume, around).1.Normal?
    ensures var (reserved, p) := G.Prepare(t, g, message, context, consume, around.ids, around.now);
      && p.Success? && around.upstream.Replies?
      && var seen := G.Observe(reserved, g, p.value.0, around.upstream.reply, around.nonce, around.observed.0,
                               around.observed.1).0;
      Sent(t, g, message, context, consume, around).0
      == seen.(events := seen.events + [Event(around.prepared.0, p.value.0, ClientResponsePrepared, false)])
  {
    hide Record, G.Prepare, G.Observe;
    var (reserved, p) := G.Prepare(t, g, message, context, consume, around.ids, around.now);
    var operation, reply := p.value.0, around.upstream.reply;
    var seen := G.Observe(reserved, g, operation, reply, around.nonce, around.observed.0, around.observed.1).0;
    T.PhaseIsRecordedExactly(seen, operation, g.tenant, ClientResponsePrepared, around.prepared.0, around.prepared.1);
  }

  // The other outcomes, and how often a call sends.
  lemma OtherwiseExactly(t: Tables, g: G.Config, message: Dict, context: A.RequestContext,
                         consume: Option<ConsumeRequest>, around: Surroundings)
    ensures var p := G.Prepare(t, g, message, context, consume, around.ids, around.now).1;
      var (u, outcome, sends) := Sent(t, g, message, context, consume, around);
      && sends == (if p.Success? && around.logged then 1 else 0)
      && match p
         case Failure(AlreadyReserved(previous)) => outcome == W.AlreadyReserved(previous)
         case Failure(Refused(_)) => outcome == W.NotDispatched
         case Success((operation, _)) => outcome.Normal? || outcome == W.Unknown(operation)
  {
    hide Record, G.Prepare, Taken;
  }

  // An unknown outcome is noted, if the database can be written and the event id is new.
  lemma UnknownIsNoted(t: Tables, g: G.Config, message: Dict, context: A.RequestContext,
                       consume: Option<ConsumeRequest>, around: Surroundings)
    requires S.ValidTables(t) && Sent(t, g, message, context, consume, around).1.Unknown? && around.recoverable
    requires around.recovered.0 !in {around.ids.eventId, around.observed.0, around.observed.1, around.prepared.0}
    requires forall i | 0 <= i < |t.events| :: t.events[i].eventId != around.recovered.0
    ensures Event(around.recovered.0, around.ids.operationId, OutcomeUnavailable, false)
         in Sent(t, g, message, context, consume, around).0.events
  {
    hide Record, G.Prepare, Taken, S.ValidTables, EventIdUsed;
    PrepareIsForward(t, g, message, context, consume, around.ids, around.now);
    PreparedEvents(t, g, message, context, consume, around.ids, around.now);
    var (reserved, p) := G.Prepare(t, g, message, context, consume, around.ids, around.now);
    var operation, id := p.value.0, around.recovered.0;
    UnusedMeans(t.events, id);
    NewIdStays(t.events, Event(around.ids.eventId, operation, DispatchIntent, false), id);
    TakenKeepsUnused(reserved, g, operation, around, id);
    var taken := if around.logged then Taken(reserved, g, operation, around).0 else reserved;
    T.PhaseIsRecordedExactly(taken, operation, g.tenant, OutcomeUnavailable, id, around.recovered.1);
    UnusedMeans(taken.events, id);
  }

  lemma UnusedMeans(events: seq<Event>, eventId: string)
    ensures EventIdUsed(events, eventId) <==> exists i :: 0 <= i < |events| && events[i].eventId == eventId
  {
  }

  lemma NewIdStays(events: seq<Event>, e: Event, eventId: string)
    ensures EventIdUsed(events + [e], eventId) <==> EventIdUsed(events, eventId) || e.eventId == eventId
  {
    var more := events + [e];
    assert more[|events|] == e && forall i | 0 <= i < |events| :: more[i] == events[i];
  }

  lemma PreparedEvents(t: Tables, g: G.Config, message: Dict, context: A.RequestContext,
                       consume: Option<ConsumeRequest>, ids: G.Ids, now: int)
    requires G.Prepare(t, g, message, context, consume, ids, now).1.Success?
    ensures var (u, p) := G.Prepare(t, g, message, context, consume, ids, now);
      && p.value.0 == ids.operationId && Owned(u, ids.operationId, g.tenant)
      && u.events == t.events + [Event(ids.eventId, ids.operationId, DispatchIntent, false)]
  {
    hide ValidateClient, RequestPayload, G.ScopeOf, Reserve;
    var draft := G.Draft(g, message, context, G.ConsumedId(consume), ids, now).value;
    S.ReserveShape(t, Bundle(draft.0, None), draft.1, draft.2, consume, ids.eventId);
  }

  lemma RecordKeepsUnused(t: Tables, operation: string, tenant: string, phase: Phase, receipt: Option<SignedReceipt>,
                          eventId: string, conflictId: string, id: string)
    requires Owned(t, operation, tenant) && !EventIdUsed(t.events, id) && id !in {eventId, conflictId}
    ensures var u := Record(t, operation, tenant, phase, receipt, eventId, conflictId).0;
      Owned(u, operation, tenant) && !EventIdUsed(u.events, id)
  {
    hide Record, Conflicts, EventIdUsed;
    S.RecordShape(t, operation, tenant, phase, receipt, eventId, conflictId);
    var c, e := Event(conflictId, operation, ConflictingReceipt, false), Event(eventId, operation, phase, false);
    NewIdStays(t.events, c, id);
    NewIdStays(t.events, e, id);
    NewIdStays(t.events + [c], e, id);
  }

  lemma TakenKeepsUnused(t: Tables, g: G.Config, operation: string, around: Surroundings, id: string)
    requires Owned(t, operation, g.tenant) && !EventIdUsed(t.events, id)
    requires id !in {around.observed.0, around.observed.1, around.prepared.0}
    ensures var u := Taken(t, g, operation, around).0; Owned(u, operation, g.tenant) && !EventIdUsed(u.events, id)
  {
    hide Record, EventIdUsed, SplitResponse, G.Judge, HasConflict;
    if around.upstream.Replies? {
      ObserveKeepsUnused(t, g, operation, around.upstream.reply, around.nonce, around.observed.0,
                         around.observed.1, id);
      var u := G.Observe(t, g, operation, around.upstream.reply, around.nonce, around.observed.0, around.observed.1).0;
      PreparingKeepsUnused(u, operation, g.tenant, around.prepared.0, around.prepared.1, id);
    }
  }

  lemma ObserveKeepsUnused(t: Tables, g: G.Config, operation: string, reply: Dict, nonce: string, eventId: string,
                           conflictId: string, id: string)
    requires Owned(t, operation, g.tenant) && !EventIdUsed(t.events, id) && id !in {eventId, conflictId}
    ensures var u := G.Observe(t, g, operation, reply, nonce, eventId, conflictId).0;
      Owned(u, operation, g.tenant) && !EventIdUsed(u.events, id)
  {
    hide Record, EventIdUsed, SplitResponse, G.Judge, HasConflict;
    var judged := G.Judge(g, t.operations[operation].bundle.permit, reply);
    if judged.Success? {
      RecordKeepsUnused(t, operation, g.tenant,
        ResponseObserved(judged.value.verdict, ResponseDigest(judged.value.payload, nonce)),
        G.Accepted(judged.value), eventId, conflictId, id);
    }
  }

  lemma PreparingKeepsUnused(t: Tables, operation: string, tenant: string, eventId: string, conflictId: string,
                             id: string)
    requires Owned(t, operation, tenant) && !EventIdUsed(t.events, id) && id != eventId
    ensures var u := Record(t, operation, tenant, ClientResponsePrepared, None, eventId, conflictId).0;
      Owned(u, operation, tenant) && !EventIdUsed(u.events, id)
  {
    hide Record, EventIdUsed;
    T.PhaseIsRecordedExactly(t, operation, tenant, ClientResponsePrepared, eventId, conflictId);
    NewIdStays(t.events, Event(eventId, operation, ClientResponsePrepared, false), id);
  }

  // A refund nothing disturbs, with the reference destination as its upstream, is answered normally
  // with what output enforcement makes of the reply; the refund is made and its receipt stored.
  lemma UndisturbedRefundIsAnswered(t: Tables, g: G.Config, d: D.Config, ledger: D.Ledger, message: Dict,
                                    context: A.RequestContext, consume: Option<ConsumeRequest>,
                                    around: Surroundings, at: int, minted: D.Minted, amount: int)
    requires C.Deployed(g, d) && D.ValidLedger(d, ledger) && around.now >= 0 && around.ids.operationId != ""
    requires G.Prepare(t, g, message, context, consume, around.ids, around.now).1.Success?
    requires C.IsRefund(context, message, amount) && around.now <= at < around.now + g.ttl
    requires around.ids.operationId !in ledger.operations && !HasConflict(t.events, around.ids.operationId)
    requires var forwarded := G.Prepare(t, g, message, context, consume, around.ids, around.now).1.value.1;
      var answer := D.Respond(d, ledger, forwarded, at, minted, true, true).1;
      answer.Reply? && around.upstream == Replies(answer.message)
    requires around.logged && around.flushed && around.enforced.Some?
    requires around.prepared.0 !in {around.ids.eventId, around.observed.0, around.observed.1}
    requires around.observed.0 != around.ids.eventId
    requires !EventIdUsed(t.events, around.observed.0) && !EventIdUsed(t.events, around.prepared.0)
    ensures var forwarded := G.Prepare(t, g, message, context, consume, around.ids, around.now).1.value.1;
      var after := D.Respond(d, ledger, forwarded, at, minted, true, true).0;
      var (u, outcome, sends) := Sent(t, g, message, context, consume, around);
      && outcome == W.Normal(around.enforced.value) && sends == 1
      && around.ids.operationId in after.refunds && after.refunds[around.ids.operationId] == amount
      && around.ids.operationId in u.operations && u.operations[around.ids.operationId].bundle.receipt.Some?
  {
    hide C.Deployed, D.ValidLedger, G.Prepare, C.IsRefund, HasConflict, EventIdUsed, RequestPayload, D.Respond,
      G.Observe, Sent, Get, D.RefundResponse;
    var now, ids := around.now, around.ids;
    C.UndisturbedRefundIsStored(t, g, d, ledger, message, context, consume, ids, now, at, minted, amount, around.nonce,
                                around.observed.0, around.observed.1);
    PreparedEvents(t, g, message, context, consume, ids, now);
    var (reserved, p) := G.Prepare(t, g, message, context, consume, ids, now);
    NewIdStays(t.events, Event(ids.eventId, ids.operationId, DispatchIntent, false), around.prepared.0);
    ObserveKeepsUnused(reserved, g, ids.operationId, around.upstream.reply, around.nonce, around.observed.0,
                       around.observed.1, around.prepared.0);
    var seen := G.Observe(reserved, g, ids.operationId, around.upstream.reply, around.nonce, around.observed.0,
                          around.observed.1).0;
    UnusedMeans(seen.events, around.prepared.0);
    NormalExactly(t, g, message, context, consume, around, around.enforced.value);
    NormalLeaves(t, g, message, context, consume, around);
    ReadMeansStored(seen, ids.operationId, g.tenant);
  }

  lemma ReadMeansStored(t: Tables, operation: string, tenant: string)
    requires Get(t, operation, tenant).Success?
    ensures operation in t.operations && t.operations[operation].bundle == Get(t, operation, tenant).value
  {
    hide HasConflict;
  }
}
