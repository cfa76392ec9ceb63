// What was approved is what is forwarded (core/pipeline.py): how a message is bound to its
// approval, and what a retry has to have in common with the request that was approved.
module RequestBinding {
  import opened Wrappers
  import opened Documents
  import opened Protocol
  import opened Approvals
  import R = Review
  import T = TextOrder

  const APPROVAL := "_mcpzt_approval_id"

  function Get(d: Dict, key: string, otherwise: Json): Json {
    if key in d then d[key] else otherwise
  }

  // The params of a message when they are an object.
  function ParamsOf(message: Dict): Option<Dict> {
    if "params" in message && message["params"].Obj? then Some(message["params"].fields) else None
  }

  function ExtractApprovalId(message: Dict): Option<string> {
    match ParamsOf(message)
    case None => None
    case Some(params) =>
      if Get(params, APPROVAL, Null).Str? then Some(params[APPROVAL].s)
      else
        var arguments := Get(params, "arguments", Null);
        if arguments.Obj? && Get(arguments.fields, APPROVAL, Null).Str? then Some(arguments.fields[APPROVAL].s)
          else None
  }

  function StripApprovalId(message: Dict): Dict {
    match ParamsOf(message)
    case None => message
    case Some(params) => message["params" := Obj(StripParams(params))]
  }

  function StripParams(params: Dict): Dict {
    var stripped := params - {APPROVAL};
    if "arguments" in stripped && stripped["arguments"].Obj? then
      stripped["arguments" := Obj(stripped["arguments"].fields - {APPROVAL})]
    else stripped
  }

  lemma KeysDiffer()
    ensures APPROVAL != "arguments" && APPROVAL != "name" && APPROVAL != "uri" && "params" != "method"
  {
    assert |APPROVAL| != |"arguments"| && |APPROVAL| != |"name"| && |APPROVAL| != |"uri"|;
    assert "params"[0] != "method"[0];
  }

  lemma StripIsIdempotent(message: Dict)
    ensures StripApprovalId(StripApprovalId(message)) == StripApprovalId(message)
  {
    KeysDiffer();
    if ParamsOf(message).Some? {
      StripParamsIsIdempotent(ParamsOf(message).value);
      assert message["params" := Obj(StripParams(ParamsOf(message).value))] == StripApprovalId(message);
    }
  }

  lemma StripParamsIsIdempotent(params: Dict)
    ensures StripParams(StripParams(params)) == StripParams(params)
  {
    KeysDiffer();
    var stripped := StripParams(params);
    assert stripped - {APPROVAL} == stripped;
    if "arguments" in stripped && stripped["arguments"].Obj? {
      var arguments := stripped["arguments"].fields;
      assert arguments - {APPROVAL} == arguments;
      assert stripped["arguments" := Obj(arguments)] == stripped;
    }
  }

  // Nothing that could be taken for an approval id is forwarded.
  lemma NothingLeftToExtract(message: Dict)
    ensures ExtractApprovalId(StripApprovalId(message)) == None
  {
    KeysDiffer();
  }

  // -------- The context a message is judged in --------

  // The server's configuration, all policies, and the policy engine, as they are serialised.
  datatype Configured = Configured(name: string, server: Json, policies: Json, engine: Json)

  function BoundParams(message: Dict): Json {
    Get(StripApprovalId(message), "params", Obj(map[]))
  }

  function BindingOf(config: Configured, message: Dict): Binding {
    Binding(BoundParams(message), config.server, config.policies, config.engine)
  }

  function CapabilityOf(rpcMethod: string): (CapabilityType, Option<string>, bool) {
    if rpcMethod == "tools/call" then (ToolCapability, Some("name"), true)
    else if rpcMethod == "resources/read" then (ResourceCapability, Some("uri"), false)
    else if rpcMethod == "prompts/get" then (PromptCapability, Some("name"), true)
    else (MethodCapability, None, false)
  }

  function ArgumentsOf(params: Dict, nested: bool): Dict {
    if !nested then params - {APPROVAL}
    else if Get(params, "arguments", Obj(map[])).Obj? then Get(params, "arguments", Obj(map[])).fields - {APPROVAL}
    else map[]
  }

  function Fields(params: Option<Dict>): Dict {
    if params.Some? then params.value else map[]
  }

  // None: the method or the capability is not a string, which the context does not admit.
  function ContextForMessage(config: Configured, message: Dict, identity: Identity): Option<RequestContext> {
    var name := Get(message, "method", Str(""));
    var params := Fields(ParamsOf(message));
    if !name.Str? then None
    else
      var (kind, key, nested) := CapabilityOf(name.s);
      var capability := if key.None? then name else Get(params, key.value, Null);
      if !capability.Str? && !capability.Null? then None
      else Some(RequestContext(config.name, name.s, kind, if capability.Str? then Some(capability.s) else None,
                               ArgumentsOf(params, nested), identity, BindingOf(config, message)))
  }

  function Bound(message: Dict): Dict {
    if BoundParams(message).Obj? then BoundParams(message).fields else map[]
  }

  // An approval id among the arguments.
  function NestedId(params: Dict): Option<Json> {
    if "arguments" in params && params["arguments"].Obj? && APPROVAL in params["arguments"].fields then
      Some(params["arguments"].fields[APPROVAL])
    else None
  }

  // What a context takes from a message beyond its method is in the params its binding covers,
  // but for an approval id among the arguments when the arguments are all the params.
  lemma BoundParamsDetermine(message: Dict, key: string)
    requires key != APPROVAL && key != "arguments"
    ensures var raw := Fields(ParamsOf(message));
      && Get(raw, key, Null) == Get(Bound(message), key, Null)
      && ArgumentsOf(raw, true) == ArgumentsOf(Bound(message), true)
      && ArgumentsOf(raw, false) == WithNestedId(Bound(message), NestedId(raw))
      && NestedId(ArgumentsOf(raw, false)) == NestedId(raw)
  {
    KeysDiffer();
    if ParamsOf(message).Some? {
      var raw := ParamsOf(message).value;
      var bound := StripParams(raw);
      if "arguments" in raw && raw["arguments"].Obj? {
        var arguments := raw["arguments"].fields;
        assert arguments - {APPROVAL} - {APPROVAL} == arguments - {APPROVAL};
        if APPROVAL in arguments {
          assert (arguments - {APPROVAL})[APPROVAL := arguments[APPROVAL]] == arguments;
          assert WithNestedId(bound, NestedId(raw)) == raw - {APPROVAL};
        } else {
          assert arguments - {APPROVAL} == arguments;
          assert bound == raw - {APPROVAL};
        }
      } else {
        assert bound - {APPROVAL} == bound;
      }
    } else {
      assert Bound(message) - {APPROVAL} == Bound(message);
      assert Bound(message) == map[];
    }
  }

  function WithNestedId(params: Dict, id: Option<Json>): Dict {
    if id.Some? && "arguments" in params && params["arguments"].Obj? then
      params["arguments" := Obj(params["arguments"].fields[APPROVAL := id.value])]
    else params
  }

  predicate SameRequest(config: Configured, message: Dict, identity: Identity,
                        config': Configured, message': Dict, identity': Identity) {
    && config == config' && identity == identity'
    && Get(message, "method", Str("")) == Get(message', "method", Str(""))
    && BoundParams(message) == BoundParams(message')
  }

  // Where the approval id does make a difference: a method whose arguments are all its params,
  // such as resources/read, with an id in a member called "arguments".
  predicate NestedIdsAgree(message: Dict, message': Dict) {
    var name := Get(message, "method", Str(""));
    name.Str? && !CapabilityOf(name.s).2 ==> NestedId(Fields(ParamsOf(message))) == NestedId(Fields(ParamsOf(message')))
  }

  // Two messages have one context exactly when they are one request under one configuration.
  lemma ContextsCoincide(config: Configured, message: Dict, identity: Identity,
                         config': Configured, message': Dict, identity': Identity)
    requires ContextForMessage(config, message, identity).Some?
    ensures ContextForMessage(config', message', identity') == ContextForMessage(config, message, identity)
       <==> SameRequest(config, message, identity, config', message', identity') && NestedIdsAgree(message, message')
  {
    hide BoundParams, ArgumentsOf, NestedId, WithNestedId;
    KeysDiffer();
    var name := Get(message, "method", Str(""));
    var (kind, key, nested) := CapabilityOf(name.s);
    var k := if key.Some? then key.value else "name";
    BoundParamsDetermine(message, k);
    BoundParamsDetermine(message', k);
    assert BoundParams(message) == BoundParams(message') ==> Bound(message) == Bound(message');
  }

  lemma StrippedRetryIsTheSameRequest(config: Configured, message: Dict, identity: Identity)
    ensures SameRequest(config, message, identity, config, StripApprovalId(message), identity)
  {
    KeysDiffer();
    StripIsIdempotent(message);
  }

  // An approval made for one message is valid for another exactly when it is active and the other
  // is the same request under the same policy.
  lemma ValidExactlyForTheSameRequest(config: Configured, message: Dict, identity: Identity, policyId: string,
                                      config': Configured, message': Dict, identity': Identity, policyId': string,
                                      id: string, at: T.Moment, ttl: nat, a: Approval, now: nat)
    requires ContextForMessage(config, message, identity).Some? && ContextForMessage(config', message', identity').Some?
    requires R.Descends(NewRequest(ContextForMessage(config, message, identity).value, policyId, id, at, ttl), a)
    ensures IsValid(a, ContextForMessage(config', message', identity').value, policyId', now)
       <==> IsActive(a, now) && policyId == policyId' && NestedIdsAgree(message, message')
            && SameRequest(config, message, identity, config', message', identity')
  {
    hide ContextForMessage, SameRequest, NestedIdsAgree;
    ContextsCoincide(config, message, identity, config', message', identity');
    var x := ContextForMessage(config, message, identity).value;
    var y := ContextForMessage(config', message', identity').value;
    SameFieldsSameContext(x, y);
  }

  lemma SameFieldsSameContext(x: RequestContext, y: RequestContext)
    ensures x == y <==> (x.server == y.server && x.rpcMethod == y.rpcMethod && x.capability == y.capability
      && x.capabilityType == y.capabilityType && x.identity.subject == y.identity.subject
      && x.identity.clientId == y.identity.clientId && x.identity.agentId == y.identity.agentId
      && x.arguments == y.arguments && x.binding == y.binding)
  {
  }

  // -------- Where a retry may bring its approval id --------

  // A retry of a request, with its id as a param of its own.
  function WithParam(message: Dict, id: string): Dict
    requires ParamsOf(message).Some?
  {
    message["params" := Obj(ParamsOf(message).value[APPROVAL := Str(id)])]
  }

  predicate HasArguments(message: Dict) {
    var params := Fields(ParamsOf(message));
    "arguments" in params && params["arguments"].Obj?
  }

  // A retry with its id among the members of `arguments`.
  function WithArgument(message: Dict, id: string): Dict
    requires HasArguments(message)
  {
    var params := Fields(ParamsOf(message));
    message["params" := Obj(params["arguments" := Obj(params["arguments"].fields[APPROVAL := Str(id)])])]
  }

  predicate BringsNoId(message: Dict) {
    var params := Fields(ParamsOf(message));
    APPROVAL !in params && NestedId(params).None?
  }

  lemma WithParamStrips(message: Dict, id: string)
    requires ParamsOf(message).Some?
    ensures StripApprovalId(WithParam(message, id)) == StripApprovalId(message)
    ensures NestedId(Fields(ParamsOf(WithParam(message, id)))) == NestedId(Fields(ParamsOf(message)))
  {
    KeysDiffer();
    var params := ParamsOf(message).value;
    assert params[APPROVAL := Str(id)] - {APPROVAL} == params - {APPROVAL};
    assert message["params" := Obj(params[APPROVAL := Str(id)])]["params" := Obj(StripParams(params))]
        == message["params" := Obj(StripParams(params))];
  }

  lemma WithArgumentStrips(message: Dict, id: string)
    requires HasArguments(message)
    ensures StripApprovalId(WithArgument(message, id)) == StripApprovalId(message)
    ensures NestedId(Fields(ParamsOf(WithArgument(message, id)))) == Some(Str(id))
  {
    KeysDiffer();
    var params := Fields(ParamsOf(message));
    var arguments := params["arguments"].fields;
    var retried := params["arguments" := Obj(arguments[APPROVAL := Str(id)])];
    assert arguments[APPROVAL := Str(id)] - {APPROVAL} == arguments - {APPROVAL};
    assert StripParams(retried) == StripParams(params);
    assert message["params" := Obj(retried)]["params" := Obj(StripParams(params))]
        == message["params" := Obj(StripParams(params))];
  }

  lemma EqualStrippedSameRequest(config: Configured, message: Dict, retry: Dict, identity: Identity)
    requires StripApprovalId(message) == StripApprovalId(retry)
    ensures SameRequest(config, message, identity, config, retry, identity)
  {
    hide BoundParams, StripApprovalId;
    StrippedRetryIsTheSameRequest(config, message, identity);
    StrippedRetryIsTheSameRequest(config, retry, identity);
  }

  // A context is there for every message of one method and one capability.
  lemma SameRequestHasContext(config: Configured, message: Dict, retry: Dict, identity: Identity)
    requires SameRequest(config, message, identity, config, retry, identity)
    requires ContextForMessage(config, message, identity).Some?
    ensures ContextForMessage(config, retry, identity).Some?
  {
    hide BoundParams, ArgumentsOf, NestedId, WithNestedId;
    KeysDiffer();
    var name := Get(message, "method", Str(""));
    var (kind, key, nested) := CapabilityOf(name.s);
    var k := if key.Some? then key.value else "name";
    BoundParamsDetermine(message, k);
    BoundParamsDetermine(retry, k);
    assert Bound(message) == Bound(retry);
  }

  // Brought as a param of its own, the id is found, and the approval made for the request is valid
  // for the retry as long as it is active: for every method.
  lemma IdAsParamIsAccepted(config: Configured, message: Dict, identity: Identity, policyId: string,
                            id: string, at: T.Moment, ttl: nat, a: Approval, now: nat)
    requires ParamsOf(message).Some? && ContextForMessage(config, message, identity).Some?
    requires R.Descends(NewRequest(ContextForMessage(config, message, identity).value, policyId, id, at, ttl), a)
    ensures var retry := WithParam(message, id);
      && ExtractApprovalId(retry) == Some(id) && ContextForMessage(config, retry, identity).Some?
      && (IsValid(a, ContextForMessage(config, retry, identity).value, policyId, now) <==> IsActive(a, now))
  {
    hide ContextForMessage, SameRequest, NestedId, IsValid, IsActive, R.Descends;
    var retry := WithParam(message, id);
    WithParamStrips(message, id);
    EqualStrippedSameRequest(config, message, retry, identity);
    SameRequestHasContext(config, message, retry, identity);
    ValidExactlyForTheSameRequest(config, message, identity, policyId, config, retry, identity, policyId, id, at, ttl,
                                  a, now);
  }

  // Brought inside `arguments` the id is found as well, but the approval is valid for the retry
  // exactly when the method takes its arguments from there. For resources/read it never is.
  lemma IdAsArgumentIsAcceptedExactlyWhenNested(config: Configured, message: Dict, identity: Identity, policyId: string,
                                                id: string, at: T.Moment, ttl: nat, a: Approval, now: nat)
    requires HasArguments(message) && BringsNoId(message) && ContextForMessage(config, message, identity).Some?
    requires R.Descends(NewRequest(ContextForMessage(config, message, identity).value, policyId, id, at, ttl), a)
    ensures var retry := WithArgument(message, id); var name := Get(message, "method", Str(""));
      && ExtractApprovalId(retry) == Some(id) && ContextForMessage(config, retry, identity).Some? && name.Str?
      && (IsValid(a, ContextForMessage(config, retry, identity).value, policyId, now)
          <==> IsActive(a, now) && CapabilityOf(name.s).2)
  {
    hide SameRequest, IsValid, IsActive, R.Descends, BoundParams, BindingOf, ArgumentsOf;
    KeysDiffer();
    var retry := WithArgument(message, id);
    WithArgumentStrips(message, id);
    EqualStrippedSameRequest(config, message, retry, identity);
    SameRequestHasContext(config, message, retry, identity);
    ValidExactlyForTheSameRequest(config, message, identity, policyId, config, retry, identity, policyId, id, at, ttl,
                                  a, now);
  }

  // In general: where the arguments are all the params, a retry that holds an id among `arguments`,
  // of whatever kind, is not the request that was approved without one.
  lemma NestedIdIsAnArgument(config: Configured, message: Dict, identity: Identity, policyId: string,
                             id: string, at: T.Moment, ttl: nat, a: Approval, now: nat, retry: Dict)
    requires ContextForMessage(config, message, identity).Some? && ContextForMessage(config, retry, identity).Some?
    requires var name := Get(message, "method", Str("")); name.Str? && !CapabilityOf(name.s).2
    requires NestedId(Fields(ParamsOf(message))).None? && NestedId(Fields(ParamsOf(retry))).Some?
    requires R.Descends(NewRequest(ContextForMessage(config, message, identity).value, policyId, id, at, ttl), a)
    ensures !IsValid(a, ContextForMessage(config, retry, identity).value, policyId, now)
  {
    hide ContextForMessage, SameRequest, NestedId, IsValid, R.Descends;
    ValidExactlyForTheSameRequest(config, message, identity, policyId, config, retry, identity, policyId, id, at, ttl,
                                  a, now);
  }

  // A read of a resource with a member called "arguments", approved, and retried both ways.
  const READ: Dict := map["method" := Str("resources/read"),
    "params" := Obj(map["uri" := Str("file:///a"), "arguments" := Obj(map["lines" := Num(5)])])]
  const READER := Identity("user", None, None)
  const SETUP := Configured("files", Null, Null, Null)

  lemma NestedIdSpoilsTheRetry(at: T.Moment, ttl: nat, approver: string, now: nat)
    requires at <= now < at + ttl
    ensures ContextForMessage(SETUP, READ, READER).Some? && HasArguments(READ)
    ensures var asked := NewRequest(ContextForMessage(SETUP, READ, READER).value, "policy", "apr", at, ttl);
      var a := WithStatus(asked, Approved, Some(approver), None, at);
      var nested, own := WithArgument(READ, "apr"), WithParam(READ, "apr");
      && ExtractApprovalId(nested) == Some("apr") && ExtractApprovalId(own) == Some("apr")
      && ContextForMessage(SETUP, nested, READER).Some? && ContextForMessage(SETUP, own, READER).Some?
      && !IsValid(a, ContextForMessage(SETUP, nested, READER).value, "policy", now)
      && IsValid(a, ContextForMessage(SETUP, own, READER).value, "policy", now)
  {
    ReadHasContext();
    var context := ContextForMessage(SETUP, READ, READER).value;
    var asked := NewRequest(context, "policy", "apr", at, ttl);
    var a := WithStatus(asked, Approved, Some(approver), None, at);
    ApprovedDescends(context, at, ttl, approver);
    hide ContextForMessage, WithArgument, WithParam, ExtractApprovalId, R.Descends, IsValid;
    IdAsParamIsAccepted(SETUP, READ, READER, "policy", "apr", at, ttl, a, now);
    IdAsArgumentIsAcceptedExactlyWhenNested(SETUP, READ, READER, "policy", "apr", at, ttl, a, now);
  }

  lemma ReadHasContext()
    ensures ContextForMessage(SETUP, READ, READER).Some? && HasArguments(READ) && BringsNoId(READ)
    ensures ParamsOf(READ).Some? && Get(READ, "method", Str("")) == Str("resources/read")
    ensures !CapabilityOf("resources/read").2
  {
    KeysDiffer();
    assert |APPROVAL| != |"lines"|;
  }

  lemma ApprovedDescends(context: RequestContext, at: T.Moment, ttl: nat, approver: string)
    ensures var asked := NewRequest(context, "policy", "apr", at, ttl);
      R.Descends(asked, WithStatus(asked, Approved, Some(approver), None, at))
  {
  }

  // -------- The approval step of the pipeline --------

  // With evidence the approval is consumed later, together with the reservation.
  datatype Outcome = Forward(message: Dict, approval: string, consumed: bool) | ApprovalRequired(approval: string)

  function Truthy(s: Option<string>): bool {
    s.Some? && s.value != ""
  }

  predicate LetsThrough(b: Book, message: Dict, context: RequestContext, policyId: Option<string>, now: nat) {
    var id := ExtractApprovalId(message);
    Truthy(id) && Truthy(policyId) && id.value in b && IsValid(b[id.value], context, policyId.value, now)
  }

  method HandleApprovalRequired(store: SqliteApprovalStore, evidence: bool, message: Dict, context: RequestContext,
                                policyId: Option<string>, key: string, now: T.Moment) returns (r: Outcome)
    requires store.Valid() && key !in store.Records()
    modifies store
    ensures store.Valid()
    ensures var b := old(store.Records()); var id := ExtractApprovalId(message);
      if LetsThrough(b, message, context, policyId, now) then
        && r == Forward(StripApprovalId(message), id.value, !evidence)
        && store.Records() == if evidence then b else ConsumeBook(b, id.value, context, policyId.value, now).0
      else
        && r == ApprovalRequired(key)
        && store.Records() == b[key := NewRequest(context, if Truthy(policyId) then policyId.value else "unknown",
                                                  key, now, store.ttl)]
  {
    var approvalId := ExtractApprovalId(message);
    if evidence {
      if Truthy(approvalId) && Truthy(policyId) {
        var approval := store.GetOne(approvalId.value);
        if approval.Some? && IsValid(approval.value, context, policyId.value, now) {
          return Forward(StripApprovalId(message), approvalId.value, false);
        }
      }
    } else if Truthy(approvalId) && Truthy(policyId) {
      var consumed := store.ConsumeIfValid(approvalId.value, context, policyId.value, now);
      if consumed { return Forward(StripApprovalId(message), approvalId.value, true); }
    }
    var _ := store.CreateRequest(context, if Truthy(policyId) then policyId.value else "unknown", key, now);
    r := ApprovalRequired(key);
  }

  // Over any run of the approval store: what is let through on an approval is, without approval
  // ids, the request that was approved - same method, same params, same server, policies and
  // engine, same caller, same policy - and what goes upstream carries no approval id.
  lemma ApprovedIsForwarded(b: Book, config: Configured, message: Dict, identity: Identity, policyId: string,
                            id: string, at: T.Moment, ttl: nat, between: seq<Command>,
                            config': Configured, retry: Dict, identity': Identity, policyId': string, now: nat)
    requires id !in b
    requires ContextForMessage(config, message, identity).Some? && ContextForMessage(config', retry, identity').Some?
    requires var created := After(b, Create(ContextForMessage(config, message, identity).value, policyId, id, at, ttl));
      LetsThrough(RunBook(created, between), retry, ContextForMessage(config', retry, identity').value,
                  Some(policyId'), now)
      && ExtractApprovalId(retry) == Some(id)
    ensures SameRequest(config, message, identity, config', retry, identity') && policyId == policyId'
    ensures var forwarded := StripApprovalId(retry);
      && BoundParams(forwarded) == BoundParams(message) && ExtractApprovalId(forwarded).None?
      && Get(forwarded, "method", Str("")) == Get(message, "method", Str(""))
  {
    hide ContextForMessage, BoundParams, SameRequest, NestedIdsAgree, ExtractApprovalId, StripApprovalId;
    var x := ContextForMessage(config, message, identity).value;
    var created := After(b, Create(x, policyId, id, at, ttl));
    assert created[id] == NewRequest(x, policyId, id, at, ttl);
    R.RunDescends(created, between);
    var a := RunBook(created, between)[id];
    assert R.Descends(created[id], a);
    ValidExactlyForTheSameRequest(config, message, identity, policyId, config', retry, identity', policyId', id, at,
                                  ttl, a, now);
    NothingLeftToExtract(retry);
    ForwardedIsTheRequest(config, message, identity, config', retry, identity');
  }

  lemma ForwardedIsTheRequest(config: Configured, message: Dict, identity: Identity,
                              config': Configured, retry: Dict, identity': Identity)
    requires SameRequest(config, message, identity, config', retry, identity')
    ensures BoundParams(StripApprovalId(retry)) == BoundParams(message)
    ensures Get(StripApprovalId(retry), "method", Str("")) == Get(message, "method", Str(""))
  {
    KeysDiffer();
    StripIsIdempotent(retry);
  }

  // With evidence, what the permit commits to is the request that was approved.
  lemma PermitCoversApprovedRequest(message: Dict, retry: Dict)
    requires "method" in message && "method" in retry && message["method"] == retry["method"]
    requires BoundParams(message) == BoundParams(retry)
    ensures RequestPayload(StripApprovalId(retry)) == RequestPayload(StripApprovalId(message))
  {
    KeysDiffer();
  }
}
