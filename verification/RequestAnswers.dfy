// How a request is judged and what approving it comes to, from the message and the record.
module RequestAnswers {
  import opened Wrappers
  import opened Documents
  import opened Approvals
  import opened RequestBinding
  import opened ApprovalAnswers
  import S = StoreSafety
  import St = Store
  import T = TextOrder

  // What names the capability of a request, and where its arguments are.
  predicate Names(rpcMethod: string, params: Dict, kind: CapabilityType, name: Json, arguments: Dict) {
    match rpcMethod
    case "tools/call" =>
      && kind == ToolCapability && name == (if "name" in params then params["name"] else Null)
      && NestedArguments(params, arguments)
    case "prompts/get" =>
      && kind == PromptCapability && name == (if "name" in params then params["name"] else Null)
      && NestedArguments(params, arguments)
    case "resources/read" =>
      kind == ResourceCapability && name == (if "uri" in params then params["uri"] else Null) && arguments == params
    case _ => kind == MethodCapability && name == Str(rpcMethod) && arguments == params
  }

  predicate NestedArguments(params: Dict, arguments: Dict) {
    if "arguments" in params && params["arguments"].Obj? then arguments == params["arguments"].fields
    else arguments == map[]
  }

  // A request is judged as its server's, by its method, under the capability it names, for the caller,
  // with its arguments short of the approval id, and bound to its params and the configuration.
  lemma ContextSays(config: Configured, message: Dict, identity: Identity, rpcMethod: string, params: Dict,
                    kind: CapabilityType, name: Json, arguments: Dict, key: string)
    requires "method" in message && message["method"] == Str(rpcMethod)
    requires if "params" in message && message["params"].Obj? then message["params"] == Obj(params) else params == map[]
    requires Names(rpcMethod, params, kind, name, arguments)
    ensures ContextForMessage(config, message, identity).Some? <==> name.Str? || name.Null?
    ensures ContextForMessage(config, message, identity).Some? ==>
      var x := ContextForMessage(config, message, identity).value;
      && x.server == config.name && x.rpcMethod == rpcMethod && x.identity == identity
      && x.capabilityType == kind && x.capability == (if name.Str? then Some(name.s) else None)
      && (key in x.arguments <==> key in arguments && key != APPROVAL)
      && (key in x.arguments ==> x.arguments[key] == arguments[key])
      && x.binding == Binding(BoundParams(message), config.server, config.policies, config.engine)
  {
    hide StripApprovalId;
    KeysDiffer();
    assert rpcMethod == "tools/call" || rpcMethod == "prompts/get" || rpcMethod == "resources/read"
        || CapabilityOf(rpcMethod) == (MethodCapability, None, false);
  }

  // What a request is bound to are its params without the approval id, at the top and among the
  // arguments, and with everything else.
  lemma BoundParamsSay(message: Dict, params: Dict, key: string)
    requires "params" in message && message["params"] == Obj(params)
    ensures BoundParams(message).Obj?
    ensures var bound := BoundParams(message).fields;
      && APPROVAL !in bound
      && (key !in {APPROVAL, "arguments"} ==>
            (key in bound <==> key in params) && (key in bound ==> bound[key] == params[key]))
      && ("arguments" in bound <==> "arguments" in params)
      && ("arguments" in params ==>
            bound["arguments"] == if params["arguments"].Obj? then Obj(params["arguments"].fields - {APPROVAL})
                                  else params["arguments"])
  {
    KeysDiffer();
  }

  // Stripping changes the params and nothing else of a message.
  lemma StrippingKeepsTheRest(message: Dict)
    ensures StripApprovalId(message) - {"params"} == message - {"params"}
    ensures ("params" in StripApprovalId(message) <==> "params" in message)
    ensures "params" in message && !message["params"].Obj? ==> StripApprovalId(message) == message
  {
  }

  // An approval lets a message through exactly when the message brings its id, a policy asked for it,
  // and the record is good for this request now.
  lemma LetThroughExactly(b: Book, message: Dict, context: RequestContext, policyId: Option<string>, now: nat)
    ensures LetsThrough(b, message, context, policyId, now)
       <==> && ExtractApprovalId(message).Some? && policyId.Some?
            && ExtractApprovalId(message).value != "" && policyId.value != ""
            && ExtractApprovalId(message).value in b
            && GoodFor(b[ExtractApprovalId(message).value], context, policyId.value, now)
  {
    hide ExtractApprovalId;
  }

  // From its deadline on, an approval lets no message through, whatever was done with it before: the
  // pipeline asks for a new one.
  lemma ExpiredAsksAgain(b: Book, context: RequestContext, policyId: string, id: string, at: T.Moment, ttl: nat,
                         between: seq<Command>, message: Dict, context': RequestContext, policyId': Option<string>,
                         now: nat)
    requires id !in b && now >= at + ttl && ExtractApprovalId(message) == Some(id)
    ensures !LetsThrough(RunBook(After(b, Create(context, policyId, id, at, ttl)), between), message, context',
                         policyId', now)
  {
    hide RunBook, After, ExtractApprovalId, IsValid;
    if policyId'.Some? {
      ExpiryIsFinal(b, context, policyId, id, at, ttl, between, context', policyId'.value, now);
    }
  }

  // Nor does a reservation go ahead on it: a free scope stays free, and nothing is consumed.
  lemma ExpiredReservesNothing(t: St.Tables, b: Book, context: RequestContext, policyId: string, id: string,
                               at: T.Moment, ttl: nat, between: seq<Command>, bundle: Bundle, scope: PrivateDigest,
                               fingerprint: PrivateDigest, context': RequestContext, policyId': string, now: nat,
                               eventId: string)
    requires id !in b && now >= at + ttl && scope !in t.byScope
    requires t.approvals == RunBook(After(b, Create(context, policyId, id, at, ttl)), between)
    ensures St.Reserve(t, bundle, scope, fingerprint, Some(St.ConsumeRequest(id, context', policyId', now)), eventId)
         == (t, Failure(ApprovalNotActive))
  {
    hide RunBook, After, ConsumeBook;
    ExpiryIsFinal(b, context, policyId, id, at, ttl, between, context', policyId', now);
  }

  // A reservation that asks for an approval goes ahead exactly on a good one, and consumes it.
  lemma ReservationNeedsGoodApproval(t: St.Tables, bundle: Bundle, scope: PrivateDigest, fingerprint: PrivateDigest,
                                     q: St.ConsumeRequest, eventId: string)
    requires S.ValidTables(t) && scope !in t.byScope
    requires bundle.permit.authorization.payload.operationId !in t.operations && !St.EventIdUsed(t.events, eventId)
    ensures var (u, r) := St.Reserve(t, bundle, scope, fingerprint, Some(q), eventId);
      var good := q.id in t.approvals && GoodFor(t.approvals[q.id], q.context, q.policyId, q.now);
      && (r == Success(None) <==> good) && (!good ==> r == Failure(ApprovalNotActive) && u == t)
      && (good ==>
            u.approvals == t.approvals[q.id := t.approvals[q.id].(status := Consumed, consumedAt := Some(q.now))])
  {
    hide ConsumeBook, GoodFor, St.EventIdUsed;
    ConsumedExactly(t.approvals, q.id, q.context, q.policyId, q.now);
  }
}
