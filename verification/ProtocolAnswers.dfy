// What the wire functions keep, find and commit to, member by member.
module ProtocolAnswers {
  import opened Wrappers
  import opened Documents
  import opened Protocol

  function Member(d: Dict, key: string): Option<Json> {
    if key in d then Some(d[key]) else None
  }

  // The params of a message and the `_meta` in them; what is missing reads as empty.
  predicate HasParams(message: Dict, params: Dict, meta: Dict) {
    && Member(message, "params") in {None, Some(Obj(params))} && ("params" !in message ==> params == map[])
    && Member(params, "_meta") in {None, Some(Obj(meta))} && ("_meta" !in params ==> meta == map[])
  }

  // A client's message is accepted exactly when it brings no evidence of its own, and an idempotency
  // key of it is a text of 1 to 128 characters; that key is then the one in force.
  lemma ClientKeyExactly(message: Dict, params: Dict, meta: Dict)
    requires HasParams(message, params, meta)
    ensures var key := Member(meta, IDEMPOTENCY);
      && (ValidateClient(message).Success? <==>
            META !in meta && (key in {None, Some(Null)} || (key.value.Str? && 1 <= |key.value.s| <= 128)))
      && (ValidateClient(message).Success? ==>
            ValidateClient(message).value == if key in {None, Some(Null)} then None else Some(key.value.s))
  {
  }

  // The request commitment covers the method, every param, and every member of `_meta` but the two of
  // the profile; a `_meta` that holds nothing else is as good as none.
  lemma RequestPayloadSays(message: Dict, params: Dict, meta: Dict, key: string)
    requires HasParams(message, params, meta) && "method" in message
    ensures RequestPayload(message).Success?
    ensures var request := RequestPayload(message).value;
      && request.Obj? && request.fields.Keys == {"method", "params"} && request.fields["method"] == message["method"]
      && request.fields["params"].Obj?
      && var committed := request.fields["params"].fields;
      && (key != "_meta" ==> Member(committed, key) == Member(params, key))
      && var others := meta - {META, IDEMPOTENCY};
      && Member(committed, "_meta") == if "_meta" in params && others != map[] then Some(Obj(others)) else None
  {
    DistinctKeys();
    assert Without(Without(meta, META), IDEMPOTENCY) == meta - {META, IDEMPOTENCY};
  }

  // Attaching a permit sets it, drops the client's key, and keeps everything else of the message.
  lemma PermitIsAllThatChanges(message: Dict, params: Dict, meta: Dict, permit: Permit, key: string)
    requires HasParams(message, params, meta) && ValidateClient(message).Success?
    ensures var forwarded := AttachPermit(message, permit);
      && (key != "params" ==> Member(forwarded, key) == Member(message, key))
      && "params" in forwarded && forwarded["params"].Obj?
      && var sent := forwarded["params"].fields;
      && (key != "_meta" ==> Member(sent, key) == Member(params, key))
      && "_meta" in sent && sent["_meta"].Obj?
      && Member(sent["_meta"].fields, META) == Some(PermitDoc(permit))
      && (key !in {META, IDEMPOTENCY} ==> Member(sent["_meta"].fields, key) == Member(meta, key))
      && IDEMPOTENCY !in sent["_meta"].fields
  {
    DistinctKeys();
  }

  // -------- Responses --------

  // A receipt is taken out of the `_meta` of a container, and nothing else; a `_meta` left empty goes.
  predicate TakenOut(before: Json, after: Json, receipt: Json) {
    if before.Obj? && "_meta" in before.fields && before.fields["_meta"].Obj?
      && META in before.fields["_meta"].fields then
      var meta := before.fields["_meta"].fields;
      && receipt == meta[META] && after.Obj?
      && after.fields - {"_meta"} == before.fields - {"_meta"}
      && Member(after.fields, "_meta") == (if meta.Keys == {META} then None else Some(Obj(meta - {META})))
    else
      after == before && receipt == Null
  }

  lemma ContainerIsSplit(container: Json)
    ensures TakenOut(container, SplitContainer(container).0, SplitContainer(container).1)
  {
    if container.Obj? && "_meta" in container.fields && container.fields["_meta"].Obj?
       && META in container.fields["_meta"].fields {
      var meta := container.fields["_meta"].fields;
      var rest := Without(meta, META);
      assert rest == map[] <==> meta.Keys == {META} by {
        assert rest.Keys == meta.Keys - {META};
        assert meta.Keys == rest.Keys + {META};
      }
      var after := if rest == map[] then Without(container.fields, "_meta")
                   else container.fields["_meta" := Obj(rest)];
      assert after - {"_meta"} == container.fields - {"_meta"};
    }
  }

  // Where a response has a result, the receipt is sought there; where it has an error, in the data of
  // that. The rest of the response stays as it is.
  lemma ResponseIsSplit(message: Dict)
    ensures SplitResponse(message).Success? <==> "result" in message || ("error" in message && message["error"].Obj?)
    ensures SplitResponse(message).Success? ==>
      var (clean, receipt) := SplitResponse(message).value;
      if "result" in message then
        && "result" in clean && TakenOut(message["result"], clean["result"], receipt)
        && clean - {"result"} == message - {"result"}
      else if "data" in message["error"].fields then
        && "error" in clean && clean["error"].Obj? && clean - {"error"} == message - {"error"}
        && clean["error"].fields - {"data"} == message["error"].fields - {"data"}
        && "data" in clean["error"].fields
        && TakenOut(message["error"].fields["data"], clean["error"].fields["data"], receipt)
      else clean == message && receipt == Null
  {
    hide TakenOut, SplitContainer;
    if "result" in message {
      ContainerIsSplit(message["result"]);
      OnlyThat(message, "result", SplitContainer(message["result"]).0);
    } else if "error" in message && message["error"].Obj? && "data" in message["error"].fields {
      var error := message["error"].fields;
      ContainerIsSplit(error["data"]);
      OnlyThat(error, "data", SplitContainer(error["data"]).0);
      OnlyThat(message, "error", Obj(error["data" := SplitContainer(error["data"]).0]));
    }
  }

  lemma OnlyThat(d: Dict, key: string, value: Json)
    ensures d[key := value] - {key} == d - {key}
  {
  }

  // The response commitment covers the result or, without one, the error, free of its receipt, and
  // nothing else of the response.
  lemma ResponsePayloadSays(message: Dict)
    requires SplitResponse(message).Success?
    ensures var clean := SplitResponse(message).value.0;
      ResponsePayload(message)
      == Success(Obj(if "result" in message then map["result" := clean["result"]] else map["error" := clean["error"]]))
  {
    hide TakenOut, SplitResponse;
    ResponseIsSplit(message);
    var clean := SplitResponse(message).value.0;
    if "result" !in message {
      if "data" in message["error"].fields {
        assert "result" in clean - {"error"} <==> "result" in clean by { DistinctKeys(); }
      }
      assert "result" !in clean;
    }
  }

  // Injecting a receipt sets it in the `_meta` of the result and keeps everything else.
  lemma InjectionSays(message: Dict, receipt: Json)
    requires "result" in message && message["result"].Obj?
    requires "_meta" in message["result"].fields ==> message["result"].fields["_meta"].Obj?
    ensures InjectReceipt(message, receipt).Success?
    ensures var sent := InjectReceipt(message, receipt).value; var result := message["result"].fields;
      var meta := if "_meta" in result then result["_meta"].fields else map[];
      && sent - {"result"} == message - {"result"} && "result" in sent && sent["result"].Obj?
      && sent["result"].fields - {"_meta"} == result - {"_meta"}
      && "_meta" in sent["result"].fields && sent["result"].fields["_meta"] == Obj(meta[META := receipt])
  {
    var result := message["result"].fields;
    var meta := if "_meta" in result then result["_meta"].fields else map[];
    OnlyThat(message, "result", Obj(result["_meta" := Obj(meta[META := receipt])]));
    OnlyThat(result, "_meta", Obj(meta[META := receipt]));
  }
}
