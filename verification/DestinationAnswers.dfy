// What the reference destination lets through, records and answers, from the message and the ledger.
module DestinationAnswers {
  import opened Wrappers
  import opened Documents
  import opened Protocol
  import opened Verify
  import opened VerifyAnswers
  import opened Destination

  // A refund call in order: a tools/call with an id and a permit that stands now, for this destination
  // and for the tool "refund", that commits to this request, which names an amount within the limits
  // and nothing else.
  predicate RefundInOrder(config: Config, message: Dict, now: int, permit: Permit, amount: int) {
    && "id" in message && "method" in message && message["method"] == Str("tools/call")
    && "params" in message && message["params"].Obj?
    && var params := message["params"].fields; var auth := permit.authorization.payload;
    && "_meta" in params && params["_meta"].Obj? && META in params["_meta"].fields
    && params["_meta"].fields[META] == PermitDoc(permit)
    && PermitStands(permit, config.trust, Some(now))
    && auth.audience == "refund-demo" && auth.tenant == "demo" && auth.tool == "refund"
    && "name" in params && params["name"] == Str("refund")
    && "arguments" in params && params["arguments"] == Obj(map["amount_minor" := Num(amount)])
    && 1 <= amount <= 10000
    && RequestPayload(message).Success?
    && auth.requestDigest == RequestDigest(RequestPayload(message).value, auth.requestNonce)
  }

  lemma AdmittedExactly(config: Config, message: Dict, now: int, permit: Permit, amount: int)
    ensures Admit(config, message, now) == Success(Admitted(permit, amount))
       <==> RefundInOrder(config, message, now, permit, amount)
  {
    hide VerifyPermit, PermitStands, RequestPayload;
    if MetaPermit(message).Success? {
      PermitVerifiesExactly(MetaPermit(message).value, config.trust, Some(now));
      if RequestPayload(message).Success? {
        RequestedExactly(message, amount);
      }
    }
  }

  lemma RequestedExactly(message: Dict, amount: int)
    requires MetaPermit(message).Success? && RequestPayload(message).Success?
    ensures var request := RequestPayload(message).value;
      && request.Obj? && "params" in request.fields && request.fields["params"].Obj?
      && var params := message["params"].fields; var committed := request.fields["params"].fields;
      && ("name" in committed <==> "name" in params) && ("name" in params ==> committed["name"] == params["name"])
      && (RequestedAmount(request) == Success(amount) <==>
            "arguments" in params && params["arguments"] == Obj(map["amount_minor" := Num(amount)])
            && 1 <= amount <= 10000)
  {
    PayloadKeepsArguments(message);
    DistinctKeys();
    var committed := RequestPayload(message).value.fields["params"].fields;
    if "arguments" in committed && committed["arguments"].Obj? {
      AmountAlone(committed["arguments"].fields, amount);
    }
  }

  lemma AmountAlone(args: Dict, amount: int)
    ensures args == map["amount_minor" := Num(amount)]
       <==> args.Keys == {"amount_minor"} && args["amount_minor"] == Num(amount)
  {
    if args == map["amount_minor" := Num(amount)] { assert args.Keys == {"amount_minor"}; }
  }

  // -------- Committing --------

  // The response to a refund names its amount.
  predicate NamesAmount(response: Dict, amount: int) {
    && "result" in response && response["result"].Obj?
    && "structuredContent" in response["result"].fields
    && response["result"].fields["structuredContent"] == Obj(map["amount_minor" := Num(amount)])
  }

  // What a receipt of the destination says of the permit it answers.
  predicate SaysCommitted(r: Receipt, permit: Permit, response: Dict, minted: Minted)
    requires "result" in response
  {
    var auth := permit.authorization.payload;
    r == Receipt(auth.audience, auth.issuer, auth.tenant, auth.operationId, auth.authorizationId,
      permit.attempt.payload.attemptId, minted.receiptId, AttemptDigest(permit), auth.requestDigest,
      ResponseDigest(Obj(map["result" := response["result"]]), minted.nonce), minted.nonce, Committed,
      "local-refund-ledger.v1", Some(auth.operationId), 1, minted.recordedAt)
  }

  // A new operation is refunded with the amount admitted, its response and the material of its
  // receipt; a recorded one is answered again for the same attempt, and refused for any other.
  lemma CommittedExactly(config: Config, ledger: Ledger, a: Admitted, minted: Minted)
    requires ValidLedger(config, ledger)
    ensures var o := a.permit.authorization.payload.operationId; var (after, r) := Commit(ledger, a, minted);
      if o !in ledger.operations then
        && r.Success? && NamesAmount(r.value, a.amount)
        && after.refunds == ledger.refunds[o := a.amount]
        && o in after.operations && after.operations == ledger.operations[o := after.operations[o]]
        && after.operations[o].response == r.value && after.operations[o].receipt.None?
        && after.operations[o].permitDigest == AttemptDigest(a.permit)
        && "result" in r.value && SaysCommitted(after.operations[o].material, a.permit, r.value, minted)
      else if ledger.operations[o].permitDigest == AttemptDigest(a.permit) then
        after == ledger && r == Success(ledger.operations[o].response)
        && NamesAmount(r.value, ledger.refunds[o])
      else
        after == ledger && r == Failure(BoundToAnotherAttempt)
  {
    var o := a.permit.authorization.payload.operationId;
    if o in ledger.operations {
      RowNamesAmount(config, ledger, o);
    } else {
      NewOperation(config, ledger, a, minted);
    }
  }

  lemma RowNamesAmount(config: Config, ledger: Ledger, o: string)
    requires ValidLedger(config, ledger) && o in ledger.operations
    ensures NamesAmount(ledger.operations[o].response, ledger.refunds[o])
  {
    hide VerifyPermit, Material, AmountCommitted;
    assert ValidRow(config, o, ledger.operations[o], ledger.refunds[o]);
    ResponseNames(ledger.refunds[o]);
  }

  lemma ResponseNames(amount: int)
    ensures NamesAmount(RefundResponse(amount), amount)
    ensures ResponseOf(RefundResponse(amount)) == Obj(map["result" := RefundResponse(amount)["result"]])
  {
    assert "content" != "structuredContent" && "_meta" != "content" && "_meta" != "structuredContent" by {
      assert |"content"| != |"structuredContent"| && "_meta"[0] != "content"[0] && "_meta"[0] != "structuredContent"[0];
    }
    var result := RefundResponse(amount)["result"];
    assert SplitContainer(result) == (result, Null);
    assert RefundResponse(amount)["result" := result] == RefundResponse(amount);
  }

  lemma NewOperation(config: Config, ledger: Ledger, a: Admitted, minted: Minted)
    requires ValidLedger(config, ledger) && a.permit.authorization.payload.operationId !in ledger.operations
    ensures var o := a.permit.authorization.payload.operationId; var (after, r) := Commit(ledger, a, minted);
      && r.Success? && NamesAmount(r.value, a.amount)
      && after.refunds == ledger.refunds[o := a.amount]
      && o in after.operations && after.operations == ledger.operations[o := after.operations[o]]
      && after.operations[o].response == r.value && after.operations[o].receipt.None?
      && after.operations[o].permitDigest == AttemptDigest(a.permit)
      && "result" in r.value && SaysCommitted(after.operations[o].material, a.permit, r.value, minted)
  {
    hide VerifyPermit, AmountCommitted, RefundResponse, ResponseOf;
    ResponseNames(a.amount);
    forall o | o in ledger.operations ensures ledger.operations[o].permitDigest != AttemptDigest(a.permit) {
      assert ValidRow(config, o, ledger.operations[o], ledger.refunds[o]);
    }
  }

  // -------- Answering --------

  // A refund in order, handled to its end, is answered with the amount in the ledger and with the
  // receipt the ledger then holds; whoever sends it again gets the same answer, and changes nothing.
  lemma RefundIsAnsweredExactly(config: Config, ledger: Ledger, message: Dict, now: int, permit: Permit, amount: int,
                                minted: Minted, later: int, minted': Minted)
    requires ValidLedger(config, ledger) && RefundInOrder(config, message, now, permit, amount)
    requires RefundInOrder(config, message, later, permit, amount)
    ensures var o := permit.authorization.payload.operationId;
      var (after, answer) := Respond(config, ledger, message, now, minted, true, true);
      if o in ledger.operations && ledger.operations[o].permitDigest != AttemptDigest(permit) then
        after == ledger && answer == ErrorReply
      else
        && o in after.operations && o in after.refunds
        && answer.Reply? && NamesAmount(answer.message, after.refunds[o])
        && (o !in ledger.operations ==> after.refunds[o] == amount)
        && after.operations[o].receipt.Some?
        && answer.message["result"].fields.Keys == {"content", "structuredContent", "_meta"}
        && answer.message["result"].fields["_meta"]
           == Obj(map[META := ReceiptDoc(after.operations[o].receipt.value)])
        && Respond(config, after, message, later, minted', true, true) == (after, answer)
  {
    hide PermitStands, VerifyPermit, Respond, Handle, Admit, ValidLedger, RefundInOrder, NamesAmount, Commit,
      SignReceipt;
    AdmittedExactly(config, message, now, permit, amount);
    AdmittedExactly(config, message, later, permit, amount);
    InOrderIsACall(config, message, now, permit, amount);
    CallsAreHandled(config, ledger, message, now, minted, true, true);
    AdmittedIsAnswered(config, ledger, message, now, permit, amount, minted);
    var after := Handle(config, ledger, message, now, minted, true, true).0;
    CallsAreHandled(config, after, message, later, minted', true, true);
    HandlingKeepsLedger(config, ledger, message, now, minted);
    AdmittedIsAnswered(config, after, message, later, permit, amount, minted');
  }

  lemma InOrderIsACall(config: Config, message: Dict, now: int, permit: Permit, amount: int)
    requires RefundInOrder(config, message, now, permit, amount)
    ensures IsCall(message)
  {
    hide PermitStands, RequestPayload;
  }

  lemma HandlingKeepsLedger(config: Config, ledger: Ledger, message: Dict, now: int, minted: Minted)
    requires ValidLedger(config, ledger) && IsCall(message)
    ensures ValidLedger(config, Handle(config, ledger, message, now, minted, true, true).0)
  {
    hide Respond, Handle, ValidLedger, Next;
    CallsAreHandled(config, ledger, message, now, minted, true, true);
    var actions := MessageIsARun(config, ledger, message, now, minted, true, true);
    RunFromValid(config, ledger, actions);
  }

  lemma {:induction false} RunFromValid(config: Config, ledger: Ledger, actions: seq<Action>)
    requires ValidLedger(config, ledger)
    ensures ValidLedger(config, Run(config, ledger, actions))
  {
    hide Next, ValidLedger;
    if actions != [] {
      RunFromValid(config, ledger, actions[..|actions| - 1]);
      Step(config, Run(config, ledger, actions[..|actions| - 1]), actions[|actions| - 1]);
    }
  }

  // Commit, sign, and put the receipt into the response.
  lemma AdmittedIsAnswered(config: Config, ledger: Ledger, message: Dict, now: int, permit: Permit, amount: int,
                           minted: Minted)
    requires ValidLedger(config, ledger) && Admit(config, message, now) == Success(Admitted(permit, amount))
    ensures var o := permit.authorization.payload.operationId;
      var (after, answer) := Handle(config, ledger, message, now, minted, true, true);
      if o in ledger.operations && ledger.operations[o].permitDigest != AttemptDigest(permit) then
        after == ledger && answer == ErrorReply
      else
        && o in after.operations && o in after.refunds && after.operations[o].permitDigest == AttemptDigest(permit)
        && after.operations[o].receipt.Some?
        && answer.Reply? && NamesAmount(answer.message, after.refunds[o])
        && answer.message["result"].fields.Keys == {"content", "structuredContent", "_meta"}
        && answer.message["result"].fields["_meta"]
           == Obj(map[META := ReceiptDoc(after.operations[o].receipt.value)])
        && (o !in ledger.operations ==> after.refunds[o] == amount)
        && answer.message == Answered(after.operations[o].response, after.operations[o].receipt.value)
        && (o in ledger.operations && ledger.operations[o].receipt.Some? ==> after == ledger)
  {
    hide Admit, Commit, SignReceipt, ValidLedger, NamesAmount, RefundResponse, InjectReceipt, Answered;
    var o := permit.authorization.payload.operationId;
    CommittedExactly(config, ledger, Admitted(permit, amount), minted);
    var (committed, response) := Commit(ledger, Admitted(permit, amount), minted);
    if response.Success? {
      SignedExactly(committed, config, o, AttemptDigest(permit));
      var signed := SignReceipt(committed, config, o, AttemptDigest(permit), true);
      CommitResponse(config, ledger, Admitted(permit, amount), minted);
      var n :| response.value == RefundResponse(n) && NamesAmount(response.value, n)
               && o in committed.refunds && committed.refunds[o] == n;
      AnsweredSays(n, signed.1.value);
    }
  }

  function Answered(response: Dict, receipt: SignedReceipt): Dict {
    if InjectReceipt(response, ReceiptDoc(receipt)).Success? then InjectReceipt(response, ReceiptDoc(receipt)).value
    else response
  }

  lemma SignedExactly(ledger: Ledger, config: Config, o: string, digest: Digest)
    requires o in ledger.operations && ledger.operations[o].permitDigest == digest
    ensures var (after, r) := SignReceipt(ledger, config, o, digest, true);
      && r.Success? && after.refunds == ledger.refunds
      && r.value == (if ledger.operations[o].receipt.Some? then ledger.operations[o].receipt.value
                     else Sign(ledger.operations[o].material, ReceiptKind, config.kid, config.publicKey))
      && after.operations == ledger.operations[o := ledger.operations[o].(receipt := Some(r.value))]
      && (ledger.operations[o].receipt.Some? ==> after == ledger)
  {
    if ledger.operations[o].receipt.Some? {
      assert ledger.operations[o := ledger.operations[o]] == ledger.operations;
    }
  }

  lemma CommitResponse(config: Config, ledger: Ledger, a: Admitted, minted: Minted)
    requires ValidLedger(config, ledger) && Commit(ledger, a, minted).1.Success?
    ensures var (after, r) := Commit(ledger, a, minted); var o := a.permit.authorization.payload.operationId;
      exists n :: r.value == RefundResponse(n) && NamesAmount(r.value, n) && o in after.refunds && after.refunds[o] == n
  {
    hide VerifyPermit, Material, AmountCommitted, ResponseOf, RefundResponse, NamesAmount;
    var o := a.permit.authorization.payload.operationId;
    if o in ledger.operations {
      assert ValidRow(config, o, ledger.operations[o], ledger.refunds[o]);
      ResponseNames(ledger.refunds[o]);
      assert Commit(ledger, a, minted).1.value == RefundResponse(ledger.refunds[o]);
    } else {
      ResponseNames(a.amount);
      assert Commit(ledger, a, minted).1.value == RefundResponse(a.amount);
    }
  }

  lemma AnsweredSays(n: int, receipt: SignedReceipt)
    ensures InjectReceipt(RefundResponse(n), ReceiptDoc(receipt)) == Success(Answered(RefundResponse(n), receipt))
    ensures var answer := Answered(RefundResponse(n), receipt);
      && NamesAmount(answer, n)
      && answer["result"].fields.Keys == {"content", "structuredContent", "_meta"}
      && answer["result"].fields["_meta"] == Obj(map[META := ReceiptDoc(receipt)])
  {
    assert "content" != "structuredContent" && "_meta" != "content" && "_meta" != "structuredContent" by {
      assert |"content"| != |"structuredContent"| && "_meta"[0] != "content"[0] && "_meta"[0] != "structuredContent"[0];
    }
    assert map[][META := ReceiptDoc(receipt)] == map[META := ReceiptDoc(receipt)];
  }

  // A lookup is answered with a receipt exactly when it has an id and a permit that stands for this
  // destination, whose very attempt has been committed; it is the receipt the ledger then holds.
  lemma LookupIsAnsweredExactly(config: Config, ledger: Ledger, message: Dict, permit: Permit)
    requires "params" in message && message["params"].Obj? && "permit" in message["params"].fields
    requires message["params"].fields["permit"] == PermitDoc(permit)
    ensures var o := permit.authorization.payload.operationId; var auth := permit.authorization.payload;
      var (after, answer) := AnswerLookup(config, ledger, message, true);
      var found := PermitStands(permit, config.trust, None) && auth.audience == "refund-demo" && auth.tenant == "demo"
        && o in ledger.operations && ledger.operations[o].permitDigest == AttemptDigest(permit);
      && (answer.Reply? <==> found && "id" in message)
      && (!answer.Reply? ==> answer == ErrorReply)
      && (!found ==> after == ledger)
      && (found ==> o in after.operations && after.operations[o].receipt.Some? && after.refunds == ledger.refunds)
      && (answer.Reply? ==>
            answer.message == map["result" := Obj(map["receipt" := ReceiptDoc(after.operations[o].receipt.value)])])
  {
    hide PermitStands, VerifyPermit, SignReceipt;
    PermitVerifiesExactly(permit, config.trust, None);
    var o := permit.authorization.payload.operationId;
    if VerifyPermit(permit, config.trust, None).Failure? {
      VerifierNeverCrashes(permit, config.trust, None);
    }
    if o in ledger.operations && ledger.operations[o].permitDigest == AttemptDigest(permit) {
      SignedExactly(ledger, config, o, AttemptDigest(permit));
    } else {
      Unfound(ledger, config, o, AttemptDigest(permit));
    }
  }

  lemma Unfound(ledger: Ledger, config: Config, o: string, digest: Digest)
    requires o !in ledger.operations || ledger.operations[o].permitDigest != digest
    ensures SignReceipt(ledger, config, o, digest, true) == (ledger, Failure(ReceiptUnavailable))
  {
  }

  // A process that dies, or cannot sign, after the commit leaves the refund with its amount, and no
  // receipt yet: the next lookup under its permit makes it.
  lemma InterruptedRefundStays(config: Config, ledger: Ledger, message: Dict, now: int, permit: Permit, amount: int,
                               minted: Minted, survives: bool, lookup: Dict)
    requires ValidLedger(config, ledger) && RefundInOrder(config, message, now, permit, amount)
    requires permit.authorization.payload.operationId !in ledger.operations
    requires "id" in lookup && "params" in lookup && lookup["params"].Obj? && "permit" in lookup["params"].fields
    requires lookup["params"].fields["permit"] == PermitDoc(permit)
    ensures var o := permit.authorization.payload.operationId;
      var (after, answer) := Respond(config, ledger, message, now, minted, survives, false);
      && answer == (if survives then ErrorReply else Crashed)
      && o in after.operations && after.operations[o].receipt.None?
      && o in after.refunds && after.refunds[o] == amount
      && AnswerLookup(config, after, lookup, true).1.Reply?
  {
    hide PermitStands, VerifyPermit, Respond, Admit, ValidLedger, Commit, NamesAmount, RequestPayload, AnswerLookup;
    var o := permit.authorization.payload.operationId;
    AdmittedExactly(config, message, now, permit, amount);
    InOrderIsACall(config, message, now, permit, amount);
    CallsAreHandled(config, ledger, message, now, minted, survives, false);
    CommittedExactly(config, ledger, Admitted(permit, amount), minted);
    var committed := Commit(ledger, Admitted(permit, amount), minted).0;
    LookupIsAnsweredExactly(config, committed, lookup, permit);
    StandsWithoutTime(permit, config.trust, now);
  }

  lemma StandsWithoutTime(permit: Permit, trust: TrustStore, now: int)
    requires PermitStands(permit, trust, Some(now))
    ensures PermitStands(permit, trust, None)
  {
  }

  // The other messages: no answer to a notification, a description to a handshake with an id, an error
  // to any other method, and to a call without an id; none of them changes the ledger.
  lemma OtherMessagesExactly(config: Config, ledger: Ledger, message: Dict, name: string, now: int, minted: Minted,
                             survives: bool, signs: bool)
    requires "method" in message && message["method"] == Str(name) && name != LOOKUP
    requires name == "tools/call" ==> "id" !in message
    ensures Respond(config, ledger, message, now, minted, survives, signs)
         == (ledger,
             if name == "notifications/initialized" then Silent
             else if name == "initialize" || name == "tools/list" then
               if "id" in message then Described(name) else Crashed
             else ErrorReply)
  {
    MethodsDiffer();
  }
}
