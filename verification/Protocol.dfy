// The wire profile (evidence/protocol.py): which metadata the gateway adds and removes, and
// what the request and response commitments cover.
module Protocol {
  import opened Wrappers
  import opened Documents

  const META := "io.github.mcp-zero-trust-layer/evidence-v1"
  const IDEMPOTENCY := "io.github.mcp-zero-trust-layer/idempotency-key"
  const LOOKUP := "mcpzt/evidence/get"

  function Without(d: Dict, key: string): Dict {
    d - {key}
  }

  // Only the profile's own metadata is removed; a `_meta` left empty goes too.
  function RequestPayload(message: Dict): Result<Json, Error> {
    if "method" !in message then Failure(KeyError)
    else
      var params := if "params" in message then message["params"] else Obj(map[]);
      if !params.Obj? then Failure(AttributeError)
      else
        var p := params.fields;
        if "_meta" !in p || p["_meta"].Null? then Success(Envelope(message["method"], p))
        else if !p["_meta"].Obj? then Failure(InvalidMetadata)
        else
          var meta := Without(Without(p["_meta"].fields, META), IDEMPOTENCY);
          Success(Envelope(message["method"],
            if meta == map[] then Without(p, "_meta") else p["_meta" := Obj(meta)]))
  }

  function Envelope(name: Json, params: Dict): Json {
    Obj(map["method" := name, "params" := Obj(params)])
  }

  // The idempotency key a client supplied, if any; clients may not bring evidence metadata.
  function ValidateClient(message: Dict): Result<Option<string>, Error> {
    var params := if "params" in message then message["params"] else Obj(map[]);
    if !params.Obj? then Failure(AttributeError)
    else
      var meta := if "_meta" in params.fields then params.fields["_meta"] else Obj(map[]);
      if !meta.Obj? || META in meta.fields then Failure(ClientEvidence)
      else if IDEMPOTENCY !in meta.fields || meta.fields[IDEMPOTENCY].Null? then Success(None)
      else if meta.fields[IDEMPOTENCY].Str? && 1 <= |meta.fields[IDEMPOTENCY].s| <= 128 then
        Success(Some(meta.fields[IDEMPOTENCY].s))
      else Failure(InvalidIdempotencyKey)
  }

  function AttachPermit(message: Dict, permit: Permit): (forwarded: Dict)
    requires ValidateClient(message).Success?
  {
    var params := if "params" in message then message["params"].fields else map[];
    var meta := if "_meta" in params then params["_meta"].fields else map[];
    var withPermit := Without(meta, IDEMPOTENCY)[META := PermitDoc(permit)];
    message["params" := Obj(params["_meta" := Obj(withPermit)])]
  }

  // The message without its receipt, and the receipt (Null when there is none).
  function SplitResponse(message: Dict): Result<(Dict, Json), Error> {
    if "result" in message then
      var (container, receipt) := SplitContainer(message["result"]);
      Success((message["result" := container], receipt))
    else if "error" !in message then Failure(KeyError)
    else if !message["error"].Obj? then Failure(AttributeError)
    else
      var error := message["error"].fields;
      if "data" !in error then Success((message, Null))
      else
        var (container, receipt) := SplitContainer(error["data"]);
        Success((message["error" := Obj(error["data" := container])], receipt))
  }

  function SplitContainer(container: Json): (Json, Json) {
    if container.Obj? && "_meta" in container.fields && container.fields["_meta"].Obj?
       && META in container.fields["_meta"].fields then
      var meta := container.fields["_meta"].fields;
      var rest := Without(meta, META);
      (Obj(if rest == map[] then Without(container.fields, "_meta")
           else container.fields["_meta" := Obj(rest)]), meta[META])
    else (container, Null)
  }

  function ResponsePayload(message: Dict): Result<Json, Error> {
    var (clean, _) :- SplitResponse(message);
    if "result" in clean then Success(Obj(map["result" := clean["result"]]))
    else if "error" in clean then Success(Obj(map["error" := clean["error"]]))
    else Failure(KeyError)
  }

  // `response["result"].setdefault("_meta", {})[META] = receipt`, as the destination does.
  function InjectReceipt(message: Dict, receipt: Json): Result<Dict, Error> {
    if "result" !in message then Failure(KeyError)
    else if !message["result"].Obj? then Failure(AttributeError)
    else
      var result := message["result"].fields;
      var meta := if "_meta" in result then result["_meta"] else Obj(map[]);
      if !meta.Obj? then Failure(AttributeError)
      else Success(message["result" := Obj(result["_meta" := Obj(meta.fields[META := receipt])])])
  }

  lemma DistinctKeys()
    ensures META != IDEMPOTENCY && "params" != "method" && "result" != "error"
    ensures "_meta" != "name" && "_meta" != "arguments" && "name" != "arguments"
  {
    assert |META| != |IDEMPOTENCY|;
    assert "params"[0] != "method"[0];
  }

  // The commitment the gateway signs is the one the destination recomputes from what it receives.
  lemma PermitDoesNotChangeRequest(message: Dict, permit: Permit)
    requires ValidateClient(message).Success?
    ensures RequestPayload(AttachPermit(message, permit)) == RequestPayload(message)
  {
    DistinctKeys();
    var forwarded := AttachPermit(message, permit);
    var before := if "params" in message then message["params"].fields else map[];
    var after := forwarded["params"].fields;
    assert Without(after, "_meta") == Without(before, "_meta");
    if "_meta" in before {
      var m := before["_meta"].fields;
      assert Without(Without(after["_meta"].fields, META), IDEMPOTENCY)
          == Without(Without(m, META), IDEMPOTENCY);
      assert after["_meta" := Obj(Without(Without(m, META), IDEMPOTENCY))]
          == before["_meta" := Obj(Without(Without(m, META), IDEMPOTENCY))];
    } else {
      assert Without(Without(after["_meta"].fields, META), IDEMPOTENCY) == map[];
      assert Without(before, "_meta") == before;
    }
  }

  // The permit arrives where the destination looks for it, and the client's key does not.
  lemma PermitArrives(message: Dict, permit: Permit)
    requires ValidateClient(message).Success?
    ensures var f := AttachPermit(message, permit);
      && "params" in f && f["params"].Obj? && "_meta" in f["params"].fields
      && f["params"].fields["_meta"].Obj?
      && META in f["params"].fields["_meta"].fields
      && f["params"].fields["_meta"].fields[META] == PermitDoc(permit)
      && IDEMPOTENCY !in f["params"].fields["_meta"].fields
  {
    DistinctKeys();
  }

  // Splitting twice is splitting once: no receipt is left behind.
  lemma SplitIsIdempotent(message: Dict)
    requires SplitResponse(message).Success?
    ensures var clean := SplitResponse(message).value.0;
      && SplitResponse(clean) == Success((clean, Null))
      && ResponsePayload(clean) == ResponsePayload(message)
  {
    DistinctKeys();
    var clean := SplitResponse(message).value.0;
    if "result" in message {
      SplitContainerIsIdempotent(message["result"]);
      assert clean["result" := clean["result"]] == clean;
    } else if "data" in message["error"].fields {
      SplitContainerIsIdempotent(message["error"].fields["data"]);
      var error := clean["error"].fields;
      assert error["data" := error["data"]] == error;
      assert clean["error" := clean["error"]] == clean;
    }
  }

  lemma SplitContainerIsIdempotent(container: Json)
    ensures SplitContainer(SplitContainer(container).0) == (SplitContainer(container).0, Null)
  {
  }

  // Splitting undoes injection exactly when the response brought no `_meta`, or one that was not
  // empty and held no receipt of its own.
  lemma SplitUndoesInjection(message: Dict, receipt: Json)
    requires InjectReceipt(message, receipt).Success?
    ensures SplitResponse(InjectReceipt(message, receipt).value) == Success((message, receipt))
       <==> ("_meta" in message["result"].fields ==>
               message["result"].fields["_meta"].fields != map[] && META !in message["result"].fields["_meta"].fields)
  {
    var result := message["result"].fields;
    var injected := InjectReceipt(message, receipt).value;
    var meta := injected["result"].fields["_meta"].fields;
    var split := SplitResponse(injected).value.0;
    if "_meta" in result {
      var original := result["_meta"].fields;
      if META in original {
        assert "_meta" in split["result"].fields ==> META !in split["result"].fields["_meta"].fields;
      } else if original == map[] {
        assert Without(meta, META) == map[];
        assert "_meta" !in split["result"].fields;
      } else {
        assert Without(meta, META) == original;
        assert injected["result"].fields["_meta" := Obj(original)] == result;
        assert injected["result" := Obj(result)] == message;
      }
    } else {
      assert Without(meta, META) == map[];
      assert Without(injected["result"].fields, "_meta") == result;
      assert injected["result" := Obj(result)] == message;
    }
  }
}
