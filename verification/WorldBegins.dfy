// From the message that comes in to its answer: in every reachable state of the system, whatever has
// happened before, a refund under a new key can still be carried through.
module WorldBegins {
  import opened Wrappers
  import opened Documents
  import opened Protocol
  import opened Store
  import opened World
  import opened WorldSafety
  import opened WorldCompletes
  import A = Approvals
  import B = RequestBinding
  import C = Completeness
  import D = Destination
  import G = Runtime
  import I = Idempotency
  import N = ApprovalAnswers
  import P = Pipeline
  import Q = ProtocolAnswers
  import R = RequestAnswers
  import S = StoreSafety
  import Steps = WorldSteps
  import T = StoreAnswers
  import U = RuntimeAnswers
  import WC = WorldCalls

  // A client's refund call: an acceptable message with an id, for an amount within the limits.
  predicate RefundArrives(raw: Dict, params: Dict, amount: int) {
    && "id" in raw && "method" in raw && raw["method"] == Str("tools/call")
    && "params" in raw && raw["params"] == Obj(params)
    && "name" in params && params["name"] == Str("refund")
    && "arguments" in params && params["arguments"] == Obj(map["amount_minor" := Num(amount)])
    && 1 <= amount <= 10000 && ValidateClient(raw).Success?
  }

  // Where a policy asks for an approval, the message brings the id of one that is good for it.
  predicate IsApproved(b: A.Book, params: Dict, context: A.RequestContext, policy: Option<string>, now: nat) {
    policy.Some? ==>
      && B.APPROVAL in params && params[B.APPROVAL].Str? && params[B.APPROVAL].s in b
      && N.GoodFor(b[params[B.APPROVAL].s], context, policy.value, now)
  }

  // Nothing in the system has the identifiers drawn for the call, and nothing fails on its way.
  ghost predicate NothingDisturbs(w: World, around: P.Surroundings) {
    var drawn := [around.ids.eventId, around.observed.0, around.prepared.0];
    && around.ids.operationId != "" && around.ids.operationId !in w.tables.operations
    && (forall e, i | 0 <= e < |w.tables.events| && 0 <= i < 3 :: w.tables.events[e].eventId != drawn[i])
    && drawn[0] != drawn[1] && drawn[0] != drawn[2] && drawn[1] != drawn[2] && around.prepared.0 != around.observed.1
    && around.now == w.now / 1_000_000 && around.logged && around.flushed && around.enforced.Some?
  }

  lemma StrippingKeepsTheClient(raw: Dict)
    ensures ValidateClient(B.StripApprovalId(raw)) == ValidateClient(raw)
  {
    var key := B.APPROVAL;
    B.KeysDiffer();
    assert |"_meta"| != |key| && |"_meta"| != |"arguments"|;
    if "params" in raw && raw["params"].Obj? {
      var params := raw["params"].fields;
      var stripped := B.StripParams(params);
      assert "_meta" in stripped <==> "_meta" in params;
      assert "_meta" in params ==> stripped["_meta"] == params["_meta"];
    }
  }

  lemma StrippingKeepsTheRefund(raw: Dict, params: Dict, amount: int)
    requires RefundArrives(raw, params, amount)
    ensures RefundArrives(B.StripApprovalId(raw), params - {B.APPROVAL}, amount)
  {
    hide ValidateClient;
    B.KeysDiffer();
    StrippingKeepsTheClient(raw);
    var left := params - {B.APPROVAL};
    var arguments := map["amount_minor" := Num(amount)];
    var key := B.APPROVAL;
    assert |"amount_minor"| != |key|;
    assert arguments - {B.APPROVAL} == arguments;
    assert left["arguments" := Obj(arguments)] == left;
    R.StrippingKeepsTheRest(raw);
  }

  lemma PayloadIsThere(raw: Dict, params: Dict, amount: int)
    requires RefundArrives(raw, params, amount)
    ensures RequestPayload(raw).Success?
  {
    var meta := if "_meta" in params then params["_meta"].fields else map[];
    Q.RequestPayloadSays(raw, params, meta, "");
  }

  lemma Judged(configured: B.Configured, raw: Dict, params: Dict, identity: A.Identity, amount: int)
    requires RefundArrives(raw, params, amount)
    ensures B.ContextForMessage(configured, raw, identity).Some?
    ensures B.ContextForMessage(configured, raw, identity).value.capability == Some("refund")
    ensures B.ContextForMessage(configured, raw, identity).value.server == configured.name
  {
    hide B.ContextForMessage, ValidateClient;
    R.ContextSays(configured, raw, identity, "tools/call", params, A.ToolCapability, Str("refund"),
                  map["amount_minor" := Num(amount)], "");
  }

  // The call as it starts.
  lemma Opens(c: Config, w: World, k: nat, configured: B.Configured, raw: Dict, params: Dict, identity: A.Identity,
              policy: Option<string>, amount: int)
    requires k !in w.calls && configured.name in c.servers && RefundArrives(raw, params, amount)
    requires policy.Some? ==> B.APPROVAL in params && params[B.APPROVAL].Str?
    ensures B.ContextForMessage(configured, raw, identity).Some?
    ensures var v := Next(c, w, Begin(k, configured, raw, identity, policy));
      && v == w.(calls := v.calls) && Known(c, v, k)
      && v.calls[k] == Call(configured, raw, if policy.Some? then B.StripApprovalId(raw) else raw,
           B.ContextForMessage(configured, raw, identity).value,
           if policy.Some? then Some((params[B.APPROVAL].s, policy.value)) else None, Started, None, None, 0)
  {
    hide B.ContextForMessage, ValidateClient, B.StripApprovalId;
    Judged(configured, raw, params, identity, amount);
  }

  // An acceptable message with a free scope is reserved, given its approval.
  lemma IsReserved(t: Tables, g: G.Config, message: Dict, context: A.RequestContext, consume: Option<ConsumeRequest>,
                   ids: G.Ids, now: int)
    requires G.ValidConfig(g) && S.ValidTables(t) && now >= 0
    requires ValidateClient(message).Success? && RequestPayload(message).Success?
    requires context.capability.Some? && context.capability.value != ""
    requires ids.operationId != "" && ids.operationId !in t.operations && !EventIdUsed(t.events, ids.eventId)
    requires forall o | o in t.operations ::
      t.operations[o].scope != G.ScopeOf(g, context, ValidateClient(message).value, ids.operationId)
    requires consume.Some? ==>
      && consume.value.id in t.approvals
      && N.GoodFor(t.approvals[consume.value.id], consume.value.context, consume.value.policyId, consume.value.now)
    ensures G.Prepare(t, g, message, context, consume, ids, now).1.Success?
  {
    hide G.ValidConfig, S.ValidTables, ValidateClient, RequestPayload, G.ScopeOf, N.GoodFor, G.Draft, Reserve,
      A.ConsumeBook, EventIdUsed;
    U.DraftsExactly(g, message, context, G.ConsumedId(consume), ids, now);
    I.DraftedFrom(g, message, context, G.ConsumedId(consume), ids, now);
    var (permit, scope, fingerprint) := G.Draft(g, message, context, G.ConsumedId(consume), ids, now).value;
    Unused(t.events, ids.eventId);
    T.FreeScopeIsReserved(t, Bundle(permit, None), scope, fingerprint, consume, ids.eventId);
    if consume.Some? {
      N.ConsumedExactly(t.approvals, consume.value.id, consume.value.context, consume.value.policyId,
                        consume.value.now);
    }
  }

  lemma Unused(events: seq<Event>, eventId: string)
    ensures EventIdUsed(events, eventId) <==> exists i :: 0 <= i < |events| && events[i].eventId == eventId
  {
  }

  // The gateway knows every operation that is in the ledger or has a conflict.
  lemma LedgerIsKnown(c: Config, w: World, o: string)
    requires Inv(c, w)
    ensures o in w.ledger.operations ==> o in w.tables.operations
    ensures HasConflict(w.tables.events, o) ==> o in w.tables.operations
  {
    hide S.ValidTables, MadeHere, AllVouched, LookupsOk, ReceiptsAgree, CallsInv, GrantsInv, HasConflict,
      D.AmountCommitted, D.Material, D.RefundResponse;
    if o in w.ledger.operations {
      assert D.ValidRow(c.destination, o, w.ledger.operations[o], w.ledger.refunds[o]);
      assert BackedRow(w.ledger.operations[o], w.released);
    }
  }

  lemma IsUndisturbed(c: Config, w: World, k: nat, raw: Dict, params: Dict, amount: int, policy: Option<string>,
                      around: P.Surroundings)
    requires Inv(c, w) && Known(c, w, k) && C.Deployed(GatewayOf(c, w.calls[k]), c.destination)
    requires RefundArrives(raw, params, amount) && NothingDisturbs(w, around)
    requires var it := w.calls[k];
      && it.message == (if policy.Some? then B.StripApprovalId(raw) else raw) && it.pc == Started
      && it.operation.None? && it.context.capability == Some("refund")
      && (policy.Some? ==> B.APPROVAL in params && params[B.APPROVAL].Str?)
      && it.approval == (if policy.Some? then Some((params[B.APPROVAL].s, policy.value)) else None)
      && IsApproved(w.tables.approvals, params, it.context, policy, w.now)
      && forall o | o in w.tables.operations ::
           w.tables.operations[o].scope
           != G.ScopeOf(GatewayOf(c, it), it.context, ValidateClient(raw).value, around.ids.operationId)
    ensures Undisturbed(c, w, k, around, amount)
    ensures ValidateClient(w.calls[k].message).Success? && RequestPayload(w.calls[k].message).Success?
  {
    hide Inv, C.Deployed, ValidateClient, RequestPayload, G.ScopeOf, N.GoodFor, HasConflict, G.Prepare,
      B.StripApprovalId, D.ValidLedger, EventIdUsed;
    var it := w.calls[k];
    StrippingKeepsTheClient(raw);
    StrippingKeepsTheRefund(raw, params, amount);
    var left := if policy.Some? then params - {B.APPROVAL} else params;
    PayloadIsThere(it.message, left, amount);
    IsRefundCall(it.context, it.message, left, amount);
    LedgerIsKnown(c, w, around.ids.operationId);
    NewIdsAreUnused(w, around);
    Safe(c, w, GatewayOf(c, it));
    IsReserved(w.tables, GatewayOf(c, it), it.message, it.context, ConsumeFor(w, it), around.ids, around.now);
  }

  lemma IsRefundCall(context: A.RequestContext, message: Dict, params: Dict, amount: int)
    requires RefundArrives(message, params, amount) && context.capability == Some("refund")
    ensures C.IsRefund(context, message, amount)
  {
  }

  lemma NewIdsAreUnused(w: World, around: P.Surroundings)
    requires NothingDisturbs(w, around)
    ensures !EventIdUsed(w.tables.events, around.ids.eventId)
    ensures !EventIdUsed(w.tables.events, around.observed.0) && !EventIdUsed(w.tables.events, around.prepared.0)
  {
    var drawn := [around.ids.eventId, around.observed.0, around.prepared.0];
    assert drawn[0] == around.ids.eventId && drawn[1] == around.observed.0 && drawn[2] == around.prepared.0;
    Unused(w.tables.events, drawn[0]);
    Unused(w.tables.events, drawn[1]);
    Unused(w.tables.events, drawn[2]);
  }

  lemma Safe(c: Config, w: World, g: G.Config)
    requires Inv(c, w) && C.Deployed(g, c.destination)
    ensures S.ValidTables(w.tables) && D.ValidLedger(c.destination, w.ledger) && G.ValidConfig(g)
  {
  }

  // Whatever the destination replies to an undisturbed call is the reply it needs.
  lemma CompletesFrom(c: Config, w: World, k: nat, around: P.Surroundings, amount: int, minted: D.Minted)
    returns (actions: seq<Action>)
    requires Undisturbed(c, w, k, around, amount)
    requires RequestPayload(w.calls[k].message).Success? && ValidateClient(w.calls[k].message).Success?
    ensures var v := Run(c, w, actions); var o := around.ids.operationId;
      && k in v.calls && v.calls[k].pc == Done(Normal(around.enforced.value))
      && v.calls[k].sends == w.calls[k].sends + 1
      && o in v.ledger.refunds && v.ledger.refunds[o] == amount
      && o in v.tables.operations && v.tables.operations[o].bundle.receipt.Some?
  {
    assert Known(c, w, k);
    hide Run, ValidateClient, Undisturbed, RequestPayload, D.Respond, G.Prepare, D.Commit, D.SignReceipt, D.Admit,
      AttachPermit, SplitResponse, D.RefundResponse, PermitOf, Reply;
    DestinationReplies(c, w, k, around, amount, minted);
    var permit := PermitOf(c, w, k, around.ids);
    var answer := D.Respond(c.destination, w.ledger, AttachPermit(w.calls[k].message, permit), w.now / 1_000_000,
                            minted, true, true).1;
    var replied := around.(upstream := P.Replies(answer.message));
    AnyReply(c, w, k, around, replied, amount);
    actions := UndisturbedRefundCompletes(c, w, k, replied, amount, minted);
  }

  lemma AnyReply(c: Config, w: World, k: nat, around: P.Surroundings, replied: P.Surroundings, amount: int)
    requires Undisturbed(c, w, k, around, amount) && replied == around.(upstream := replied.upstream)
    ensures Undisturbed(c, w, k, replied, amount)
  {
    hide G.Prepare, C.Deployed, D.ValidLedger, C.IsRefund, HasConflict, EventIdUsed;
  }

  // In every reachable state a refund that comes in, under a scope no row has and with its approval
  // where a policy asks for one, has a run in which it is answered with what enforcement makes of the
  // reply, having been sent once; the refund then stands in the ledger and its receipt in the tables.
  lemma IncomingRefundCompletes(c: Config, before: seq<Action>, k: nat, configured: B.Configured, raw: Dict,
                                params: Dict, identity: A.Identity, context: A.RequestContext,
                                policy: Option<string>, amount: int, around: P.Surroundings, minted: D.Minted)
    returns (actions: seq<Action>)
    requires Paired(c) && configured.name in c.servers
    requires var w := Run(c, START, before); var g := c.servers[configured.name];
      && k !in w.calls && C.Deployed(g, c.destination) && RefundArrives(raw, params, amount)
      && B.ContextForMessage(configured, raw, identity) == Some(context)
      && IsApproved(w.tables.approvals, params, context, policy, w.now) && NothingDisturbs(w, around)
      && forall o | o in w.tables.operations ::
           w.tables.operations[o].scope
           != G.ScopeOf(g, context, ValidateClient(raw).value, around.ids.operationId)
    ensures var v := Run(c, START, before + actions); var o := around.ids.operationId;
      && k in v.calls && v.calls[k].pc == Done(Normal(around.enforced.value)) && v.calls[k].sends == 1
      && o in v.ledger.refunds && v.ledger.refunds[o] == amount
      && o in v.tables.operations && v.tables.operations[o].bundle.receipt.Some?
  {
    hide Run, Next, Paired, C.Deployed, ValidateClient, B.ContextForMessage, B.StripApprovalId, Inv, G.ScopeOf,
      N.GoodFor, Undisturbed, RequestPayload;
    var w := Run(c, START, before);
    var begin := Begin(k, configured, raw, identity, policy);
    Judged(configured, raw, params, identity, amount);
    Opens(c, w, k, configured, raw, params, identity, policy, amount);
    WC.RunMore(c, START, before, begin);
    Steps.RunIsSafe(c, before + [begin]);
    var v := Next(c, w, begin);
    IsUndisturbed(c, v, k, raw, params, amount, policy, around);
    var more := CompletesFrom(c, v, k, around, amount, minted);
    WC.RunAppended(c, START, before + [begin], more);
    actions := [begin] + more;
    assert before + actions == before + [begin] + more;
  }
}
