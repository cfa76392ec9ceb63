// The reference destination (evidence/destination.py): a local refund ledger whose receipts are
// signed after the refund has been committed.
module Destination {
  import opened Wrappers
  import opened Documents
  import opened Protocol
  import opened Verify

  const SCOPE := "local-refund-ledger.v1"

  // A row of refund_operations. `receipt` is None until the material has been signed.
  datatype LedgerRow = LedgerRow(permitDigest: Digest, response: Dict, material: Receipt,
                                 receipt: Option<SignedReceipt>)

  datatype Ledger = Ledger(operations: map<string, LedgerRow>, refunds: map<string, int>)

  const NO_REFUNDS := Ledger(map[], map[])

  datatype Config = Config(trust: TrustStore, kid: string, publicKey: string)

  // What a tools/call must present before anything is looked up: the permit and the amount.
  datatype Admitted = Admitted(permit: Permit, amount: int)

  function AudienceAllowed(auth: Authorization): bool {
    auth.audience == "refund-demo" && auth.tenant == "demo"
  }

  function MetaPermit(message: Dict): Result<Permit, Error> {
    if "params" !in message || !message["params"].Obj? || "_meta" !in message["params"].fields
       || !message["params"].fields["_meta"].Obj? || META !in message["params"].fields["_meta"].fields then
      Failure(KeyError)
    else if !message["params"].fields["_meta"].fields[META].PermitDoc? then Failure(InvalidEvidence)
    else Success(message["params"].fields["_meta"].fields[META].permit)
  }

  predicate IsObject(value: Json) {
    value.Obj? || value.PermitDoc? || value.ReceiptDoc?
  }

  // AttributeError is not among the exceptions `handle` turns into an error reply. A document is an
  // object too, and it has other members than the amount.
  function RequestedAmount(request: Json): Result<int, Error>
    requires request.Obj? && "params" in request.fields && request.fields["params"].Obj?
  {
    var params := request.fields["params"].fields;
    var args := if "arguments" in params then params["arguments"] else Obj(map[]);
    if !IsObject(args) then Failure(AttributeError)
    else if !args.Obj? || args.fields.Keys != {"amount_minor"} || !args.fields["amount_minor"].Num?
            || !(0 < args.fields["amount_minor"].n <= 10000) then Failure(BusinessRuleRejected)
    else Success(args.fields["amount_minor"].n)
  }

  function MethodOf(message: Dict): Json {
    if "method" in message then message["method"] else Null
  }

  predicate IsCall(message: Dict) {
    MethodOf(message) == Str("tools/call") && "id" in message
  }

  function Admit(config: Config, message: Dict, now: int): Result<Admitted, Error> {
    if !IsCall(message) then Failure(UnsupportedMethod)
    else
      var permit :- MetaPermit(message);
      var auth :- VerifyPermit(permit, config.trust, Some(now));
      if !AudienceAllowed(auth) then Failure(WrongDestination)
      else
        var request :- RequestPayload(message);
        var params := request.fields["params"].fields;
        if auth.tool != "refund" || "name" !in params || params["name"] != Str(auth.tool)
           || RequestDigest(request, auth.requestNonce) != auth.requestDigest then Failure(RequestBindingMismatch)
        else
          var amount :- RequestedAmount(request);
          Success(Admitted(permit, amount))
  }

  function RefundResponse(amount: int): Dict {
    map["result" := Obj(map[
      "content" := Arr([Obj(map["type" := Str("text"), "text" := Str("Refund recorded")])]),
      "structuredContent" := Obj(map["amount_minor" := Num(amount)])])]
  }

  // Response nonce, receipt id and recording time come from the surroundings.
  datatype Minted = Minted(nonce: string, receiptId: string, recordedAt: nat)

  function Material(permit: Permit, response: Json, minted: Minted): Receipt {
    var auth := permit.authorization.payload;
    Receipt(auth.audience, auth.issuer, auth.tenant, auth.operationId, auth.authorizationId,
      permit.attempt.payload.attemptId, minted.receiptId, AttemptDigest(permit), auth.requestDigest,
      ResponseDigest(response, minted.nonce), minted.nonce, Committed, SCOPE, Some(auth.operationId), 1,
      minted.recordedAt)
  }

  // First transaction of a tools/call: the refund and its receipt material, once per operation.
  function Commit(ledger: Ledger, a: Admitted, minted: Minted): (Ledger, Result<Dict, Error>) {
    var operation := a.permit.authorization.payload.operationId;
    var digest := AttemptDigest(a.permit);
    if operation in ledger.operations then
      if ledger.operations[operation].permitDigest != digest then (ledger, Failure(BoundToAnotherAttempt))
      else (ledger, Success(ledger.operations[operation].response))
    else if operation in ledger.refunds
            || (exists o :: o in ledger.operations && ledger.operations[o].permitDigest == digest) then
      (ledger, Failure(IntegrityError))
    else
      var response := RefundResponse(a.amount);
      var row := LedgerRow(digest, response, Material(a.permit, ResponseOf(response), minted), None);
      (Ledger(ledger.operations[operation := row], ledger.refunds[operation := a.amount]), Success(response))
  }

  function ResponseOf(response: Dict): Json {
    if ResponsePayload(response).Success? then ResponsePayload(response).value else Null
  }

  // Second transaction, and all a lookup does: sign the material unless that has been done.
  // `signs` is whether the signing key is available.
  function SignReceipt(ledger: Ledger, config: Config, operation: string, digest: Digest, signs: bool)
      : (Ledger, Result<SignedReceipt, Error>) {
    if operation !in ledger.operations || ledger.operations[operation].permitDigest != digest then
      (ledger, Failure(ReceiptUnavailable))
    else
      var row := ledger.operations[operation];
      if row.receipt.Some? then (ledger, Success(row.receipt.value))
      else if !signs then (ledger, Failure(ReceiptUnavailable))
      else
        var signed := Sign(row.material, ReceiptKind, config.kid, config.publicKey);
        (ledger.(operations := ledger.operations[operation := row.(receipt := Some(signed))]), Success(signed))
  }

  function LookupPermit(config: Config, message: Dict): Result<Permit, Error> {
    if "params" !in message || !message["params"].Obj? || "permit" !in message["params"].fields then Failure(KeyError)
    else if !message["params"].fields["permit"].PermitDoc? then Failure(InvalidEvidence)
    else
      var permit := message["params"].fields["permit"].permit;
      var auth :- VerifyPermit(permit, config.trust, None);
      if !AudienceAllowed(auth) then Failure(WrongDestination) else Success(permit)
  }

  // What the destination answers: a response, its description of itself or of its tools, an error
  // reply, nothing to a notification, or nothing because it died.
  datatype Answer = Reply(message: Dict) | Described(topic: string) | ErrorReply | Silent | Crashed

  function Refuse(error: Error): Answer {
    if error in {AttributeError, IntegrityError} then Crashed else ErrorReply
  }

  // A lookup: it signs what has been committed under the permit, even where it cannot be answered.
  function AnswerLookup(config: Config, ledger: Ledger, message: Dict, signs: bool): (Ledger, Answer) {
    match LookupPermit(config, message)
    case Failure(error) => (ledger, Refuse(error))
    case Success(permit) =>
      var (after, r) := SignReceipt(ledger, config, permit.authorization.payload.operationId, AttemptDigest(permit),
                                    signs);
      match r
      case Failure(error) => (after, Refuse(error))
      case Success(receipt) =>
        (after, if "id" !in message then Refuse(KeyError)
                else Reply(map["result" := Obj(map["receipt" := ReceiptDoc(receipt)])]))
  }

  // A tools/call or an unsupported method: the ledger it leaves, and the answer. `survives` is
  // whether the process lives from the commit to the signature.
  function Handle(config: Config, ledger: Ledger, message: Dict, now: int, minted: Minted, survives: bool, signs: bool)
      : (Ledger, Answer) {
    var admitted := Admit(config, message, now);
    if admitted.Failure? then (ledger, Refuse(admitted.error))
    else
      var (committed, response) := Commit(ledger, admitted.value, minted);
      if response.Failure? then (committed, Refuse(response.error))
      else if !survives then (committed, Crashed)
      else
        var permit := admitted.value.permit;
        var (signed, receipt) := SignReceipt(committed, config, permit.authorization.payload.operationId,
                                             AttemptDigest(permit), signs);
        if receipt.Failure? then (signed, Refuse(receipt.error))
        else
          var reply := InjectReceipt(response.value, ReceiptDoc(receipt.value));
          (signed, if reply.Success? then Reply(reply.value) else Refuse(reply.error))
  }

  // Any message at all. The handshake is answered outside the block that catches exceptions.
  function Respond(config: Config, ledger: Ledger, message: Dict, now: int, minted: Minted, survives: bool, signs: bool)
      : (Ledger, Answer) {
    var name := MethodOf(message);
    if name == Str("notifications/initialized") then (ledger, Silent)
    else if name == Str("initialize") || name == Str("tools/list") then
      (ledger, if "id" in message then Described(name.s) else Crashed)
    else if name == Str(LOOKUP) then AnswerLookup(config, ledger, message, signs)
    else Handle(config, ledger, message, now, minted, survives, signs)
  }

  class RefundDestination {
    var operations: map<string, LedgerRow>
    var refunds: map<string, int>
    const config: Config

    function State(): Ledger
      reads this
    {
      Ledger(operations, refunds)
    }

    constructor (config: Config)
      ensures State() == NO_REFUNDS && this.config == config
    {
      this.config := config;
      operations, refunds := map[], map[];
    }

    method ReceiptFor(operation: string, digest: Digest, signs: bool) returns (r: Result<SignedReceipt, Error>)
      modifies this`operations
      ensures (State(), r) == SignReceipt(old(State()), config, operation, digest, signs)
    {
      if operation !in operations || operations[operation].permitDigest != digest {
        return Failure(ReceiptUnavailable);
      }
      if operations[operation].receipt.Some? { return Success(operations[operation].receipt.value); }
      if !signs { return Failure(ReceiptUnavailable); }
      var signed := Sign(operations[operation].material, ReceiptKind, config.kid, config.publicKey);
      operations := operations[operation := operations[operation].(receipt := Some(signed))];
      r := Success(signed);
    }

    method CommitRefund(a: Admitted, minted: Minted) returns (r: Result<Dict, Error>)
      modifies this
      ensures (State(), r) == Commit(old(State()), a, minted)
    {
      var operation := a.permit.authorization.payload.operationId;
      var digest := AttemptDigest(a.permit);
      if operation in operations {
        if operations[operation].permitDigest != digest { return Failure(BoundToAnotherAttempt); }
        return Success(operations[operation].response);
      }
      if operation in refunds
         || (exists o :: o in operations && operations[o].permitDigest == digest) {
        return Failure(IntegrityError);
      }
      var response := RefundResponse(a.amount);
      refunds := refunds[operation := a.amount];
      operations := operations[operation := LedgerRow(digest, response,
                                 Material(a.permit, ResponseOf(response), minted), None)];
      r := Success(response);
    }

    method HandleCall(message: Dict, now: int, minted: Minted, survives: bool, signs: bool) returns (answer: Answer)
      modifies this
      ensures (State(), answer) == Handle(config, old(State()), message, now, minted, survives, signs)
    {
      var admitted := Admit(config, message, now);
      if admitted.Failure? { return Refuse(admitted.error); }
      var permit := admitted.value.permit;
      var response := CommitRefund(admitted.value, minted);
      if response.Failure? { return Refuse(response.error); }
      if !survives { return Crashed; }
      var receipt := ReceiptFor(permit.authorization.payload.operationId, AttemptDigest(permit), signs);
      if receipt.Failure? { return Refuse(receipt.error); }
      match InjectReceipt(response.value, ReceiptDoc(receipt.value))
      case Success(m) => answer := Reply(m);
      case Failure(error) => answer := Refuse(error);
    }

    method HandleLookup(message: Dict, signs: bool) returns (answer: Answer)
      modifies this`operations
      ensures refunds == old(refunds)
      ensures (State(), answer) == AnswerLookup(config, old(State()), message, signs)
    {
      var permit := LookupPermit(config, message);
      if permit.Failure? { return Refuse(permit.error); }
      var receipt := ReceiptFor(permit.value.authorization.payload.operationId, AttemptDigest(permit.value), signs);
      if receipt.Failure? { return Refuse(receipt.error); }
      if "id" !in message { return Refuse(KeyError); }
      answer := Reply(map["result" := Obj(map["receipt" := ReceiptDoc(receipt.value)])]);
    }

    method HandleMessage(message: Dict, now: int, minted: Minted, survives: bool, signs: bool) returns (answer: Answer)
      modifies this
      ensures (State(), answer) == Respond(config, old(State()), message, now, minted, survives, signs)
    {
      var name := MethodOf(message);
      if name == Str("notifications/initialized") {
        answer := Silent;
      } else if name == Str("initialize") || name == Str("tools/list") {
        answer := if "id" in message then Described(name.s) else Crashed;
      } else if name == Str(LOOKUP) {
        answer := HandleLookup(message, signs);
      } else {
        answer := HandleCall(message, now, minted, survives, signs);
      }
    }
  }

  // -------- What every run of the destination keeps, for any messages at all --------

  predicate ValidRow(config: Config, operation: string, row: LedgerRow, amount: int) {
    && row.permitDigest.AttemptDigest?
    && row.permitDigest.permit.authorization.payload.operationId == operation
    && AudienceAllowed(row.permitDigest.permit.authorization.payload)
    && VerifyPermit(row.permitDigest.permit, config.trust, None).Success?
    && AmountCommitted(row.permitDigest.permit) == Success(amount)
    && row.response == RefundResponse(amount)
    && row.material.recordedAt >= 0
    && row.material == Material(row.permitDigest.permit, ResponseOf(row.response),
                                Minted(row.material.responseNonce, row.material.receiptId, row.material.recordedAt))
    && (row.receipt.Some? ==> row.receipt.value == Sign(row.material, ReceiptKind, config.kid, config.publicKey))
  }

  // The amount named by the request a permit commits to.
  function AmountCommitted(permit: Permit): Result<int, Error> {
    var digest := permit.authorization.payload.requestDigest;
    if digest.RequestDigest? && digest.request.Obj? && "params" in digest.request.fields
       && digest.request.fields["params"].Obj? then RequestedAmount(digest.request)
    else Failure(InvalidEvidence)
  }

  predicate ValidLedger(config: Config, ledger: Ledger) {
    && ledger.operations.Keys == ledger.refunds.Keys
    && forall o | o in ledger.operations :: ValidRow(config, o, ledger.operations[o], ledger.refunds[o])
  }

  // One action of the destination: a committed refund, or a signature for a call or a lookup.
  datatype Action =
    | DoCommit(message: Dict, now: int, minted: Minted)
    | DoSign(operation: string, digest: Digest, signs: bool)

  function Next(config: Config, ledger: Ledger, a: Action): Ledger {
    match a
    case DoCommit(message, now, minted) =>
      var admitted := Admit(config, message, now);
      if admitted.Failure? then ledger else Commit(ledger, admitted.value, minted).0
    case DoSign(operation, digest, signs) => SignReceipt(ledger, config, operation, digest, signs).0
  }

  function Run(config: Config, ledger: Ledger, actions: seq<Action>): Ledger {
    if actions == [] then ledger
    else Next(config, Run(config, ledger, actions[..|actions| - 1]), actions[|actions| - 1])
  }

  // A refund once made stays as it is, with its material; a receipt once signed stays too.
  ghost predicate LedgerGrows(before: Ledger, after: Ledger) {
    && (forall o | o in before.refunds :: o in after.refunds && after.refunds[o] == before.refunds[o])
    && (forall o | o in before.operations :: o in after.operations
          && (after.operations[o] == before.operations[o]
              || (before.operations[o].receipt.None?
                  && after.operations[o] == before.operations[o].(receipt := after.operations[o].receipt))))
  }

  lemma AdmittedMeaning(config: Config, message: Dict, now: int)
    requires Admit(config, message, now).Success?
    ensures var a := Admit(config, message, now).value;
      && VerifyPermit(a.permit, config.trust, None).Success? && AudienceAllowed(a.permit.authorization.payload)
      && AmountCommitted(a.permit) == Success(a.amount)
  {
  }

  lemma NewRowIsValid(config: Config, a: Admitted, minted: Minted)
    requires VerifyPermit(a.permit, config.trust, None).Success? && AudienceAllowed(a.permit.authorization.payload)
    requires AmountCommitted(a.permit) == Success(a.amount)
    ensures var response := RefundResponse(a.amount);
      ValidRow(config, a.permit.authorization.payload.operationId,
        LedgerRow(AttemptDigest(a.permit), response, Material(a.permit, ResponseOf(response), minted), None), a.amount)
  {
  }

  lemma CommitShape(ledger: Ledger, a: Admitted, minted: Minted)
    ensures var (after, r) := Commit(ledger, a, minted);
      var operation := a.permit.authorization.payload.operationId;
      var response := RefundResponse(a.amount);
      if operation !in ledger.operations && r.Success? then
        operation !in ledger.refunds
        && after == Ledger(
             ledger.operations[operation := LedgerRow(AttemptDigest(a.permit), response,
                                              Material(a.permit, ResponseOf(response), minted), None)],
             ledger.refunds[operation := a.amount])
      else after == ledger
  {
  }

  lemma AllRowsAfterUpdate(ledger: Ledger, operation: string, row: LedgerRow, amount: int,
                           valid: (string, LedgerRow, int) -> bool)
    requires ledger.operations.Keys == ledger.refunds.Keys
    requires forall o | o in ledger.operations :: valid(o, ledger.operations[o], ledger.refunds[o])
    requires valid(operation, row, amount)
    ensures var after := Ledger(ledger.operations[operation := row], ledger.refunds[operation := amount]);
      && after.operations.Keys == after.refunds.Keys
      && forall o | o in after.operations :: valid(o, after.operations[o], after.refunds[o])
  {
  }

  lemma UpdateKeepsValid(config: Config, ledger: Ledger, operation: string, row: LedgerRow, amount: int)
    requires ValidLedger(config, ledger) && ValidRow(config, operation, row, amount)
    ensures ValidLedger(config, Ledger(ledger.operations[operation := row], ledger.refunds[operation := amount]))
  {
    AllRowsAfterUpdate(ledger, operation, row, amount, (o, r, n) => ValidRow(config, o, r, n));
  }

  lemma InsertGrows(ledger: Ledger, operation: string, row: LedgerRow, amount: int)
    requires operation !in ledger.operations && operation !in ledger.refunds
    ensures LedgerGrows(ledger, Ledger(ledger.operations[operation := row], ledger.refunds[operation := amount]))
  {
  }

  lemma CommitStep(config: Config, ledger: Ledger, a: Admitted, minted: Minted)
    requires ValidLedger(config, ledger)
    requires VerifyPermit(a.permit, config.trust, None).Success? && AudienceAllowed(a.permit.authorization.payload)
    requires AmountCommitted(a.permit) == Success(a.amount)
    ensures ValidLedger(config, Commit(ledger, a, minted).0) && LedgerGrows(ledger, Commit(ledger, a, minted).0)
  {
    CommitShape(ledger, a, minted);
    NewRowIsValid(config, a, minted);
    var operation := a.permit.authorization.payload.operationId;
    if operation !in ledger.operations && operation !in ledger.refunds {
      var response := RefundResponse(a.amount);
      var row := LedgerRow(AttemptDigest(a.permit), response, Material(a.permit, ResponseOf(response), minted), None);
      UpdateKeepsValid(config, ledger, operation, row, a.amount);
      InsertGrows(ledger, operation, row, a.amount);
    }
  }

  lemma SignedRowIsValid(config: Config, operation: string, row: LedgerRow, amount: int)
    requires ValidRow(config, operation, row, amount)
    ensures ValidRow(config, operation,
      row.(receipt := Some(Sign(row.material, ReceiptKind, config.kid, config.publicKey))), amount)
  {
  }

  lemma SignShape(ledger: Ledger, config: Config, operation: string, digest: Digest, signs: bool)
    ensures var (after, r) := SignReceipt(ledger, config, operation, digest, signs);
      && (r.Success? ==> operation in ledger.operations && operation in after.operations
                         && after.operations[operation].receipt == Some(r.value))
      && (after != ledger ==>
            operation in ledger.operations && ledger.operations[operation].receipt.None?
            && after == ledger.(operations := ledger.operations[operation :=
                 ledger.operations[operation].(receipt := Some(
                   Sign(ledger.operations[operation].material, ReceiptKind, config.kid, config.publicKey)))]))
  {
  }

  lemma SignStep(config: Config, ledger: Ledger, operation: string, digest: Digest, signs: bool)
    requires ValidLedger(config, ledger)
    ensures var after := SignReceipt(ledger, config, operation, digest, signs).0;
      ValidLedger(config, after) && LedgerGrows(ledger, after) && after.refunds == ledger.refunds
  {
    SignShape(ledger, config, operation, digest, signs);
    if SignReceipt(ledger, config, operation, digest, signs).0 != ledger {
      SignedRow(config, ledger, operation);
    }
  }

  lemma SignedRow(config: Config, ledger: Ledger, operation: string)
    requires ValidLedger(config, ledger) && operation in ledger.operations
    requires ledger.operations[operation].receipt.None?
    ensures var row := ledger.operations[operation];
      var after := ledger.(operations := ledger.operations[operation :=
        row.(receipt := Some(Sign(row.material, ReceiptKind, config.kid, config.publicKey)))]);
      ValidLedger(config, after) && LedgerGrows(ledger, after)
  {
    hide ValidRow, LedgerGrows;
    var row := ledger.operations[operation];
    var signed := row.(receipt := Some(Sign(row.material, ReceiptKind, config.kid, config.publicKey)));
    SignedRowIsValid(config, operation, row, ledger.refunds[operation]);
    UpdateKeepsValid(config, ledger, operation, signed, ledger.refunds[operation]);
    assert ledger.refunds[operation := ledger.refunds[operation]] == ledger.refunds;
    SignatureGrows(ledger, operation, signed.receipt);
  }

  lemma SignatureGrows(ledger: Ledger, operation: string, receipt: Option<SignedReceipt>)
    requires operation in ledger.operations && ledger.operations[operation].receipt.None?
    ensures LedgerGrows(ledger, ledger.(operations :=
              ledger.operations[operation := ledger.operations[operation].(receipt := receipt)]))
  {
  }

  lemma Step(config: Config, ledger: Ledger, a: Action)
    requires ValidLedger(config, ledger)
    ensures ValidLedger(config, Next(config, ledger, a)) && LedgerGrows(ledger, Next(config, ledger, a))
    ensures a.DoSign? ==> Next(config, ledger, a).refunds == ledger.refunds
  {
    hide Admit, Commit, SignReceipt, ValidRow, AmountCommitted, VerifyPermit;
    match a
    case DoCommit(message, now, minted) =>
      if Admit(config, message, now).Success? {
        AdmittedMeaning(config, message, now);
        CommitStep(config, ledger, Admit(config, message, now).value, minted);
      }
    case DoSign(operation, digest, signs) => SignStep(config, ledger, operation, digest, signs);
  }

  lemma {:induction false} RunKeepsLedger(config: Config, actions: seq<Action>)
    ensures ValidLedger(config, Run(config, NO_REFUNDS, actions))
  {
    if actions != [] {
      RunKeepsLedger(config, actions[..|actions| - 1]);
      Step(config, Run(config, NO_REFUNDS, actions[..|actions| - 1]), actions[|actions| - 1]);
    }
  }

  // Handling a message, whatever it is and wherever it is cut short, is such a run.
  lemma MessageIsARun(config: Config, ledger: Ledger, message: Dict, now: int, minted: Minted, survives: bool,
                      signs: bool) returns (actions: seq<Action>)
    ensures Run(config, ledger, actions) == Respond(config, ledger, message, now, minted, survives, signs).0
  {
    hide Admit, Commit, SignReceipt, InjectReceipt, LookupPermit;
    var name := MethodOf(message);
    if name in {Str("notifications/initialized"), Str("initialize"), Str("tools/list")} {
      actions := [];
    } else if name == Str(LOOKUP) {
      var permit := LookupPermit(config, message);
      actions := if permit.Failure? then [] else [SignFor(permit.value, signs)];
      if permit.Success? { OneAction(config, ledger, SignFor(permit.value, signs)); }
    } else {
      var commit := DoCommit(message, now, minted);
      OneAction(config, ledger, commit);
      var admitted := Admit(config, message, now);
      if admitted.Failure? {
        actions := [];
      } else if !survives || Commit(ledger, admitted.value, minted).1.Failure? {
        actions := [commit];
      } else {
        actions := [commit, SignFor(admitted.value.permit, signs)];
        assert actions[..1] == [commit];
      }
    }
  }

  function SignFor(permit: Permit, signs: bool): Action {
    DoSign(permit.authorization.payload.operationId, AttemptDigest(permit), signs)
  }

  lemma OneAction(config: Config, ledger: Ledger, a: Action)
    ensures Run(config, ledger, [a]) == Next(config, ledger, a)
  {
    assert [a][..0] == [];
  }

  // Two permits for one operation: whichever was committed first keeps the refund.
  lemma SecondAttemptIsRefused(config: Config, ledger: Ledger, a: Admitted, minted: Minted)
    requires ValidLedger(config, ledger)
    requires a.permit.authorization.payload.operationId in ledger.operations
    ensures Commit(ledger, a, minted).0 == ledger
    ensures Commit(ledger, a, minted).1.Success?
       <==> ledger.operations[a.permit.authorization.payload.operationId].permitDigest == AttemptDigest(a.permit)
  {
  }

  // -------- When a call brings the process down --------

  // A call with an id that gets as far as its arguments: the permit is there, verifies now, is for
  // this destination, and commits to this refund request.
  predicate ReachesArguments(config: Config, message: Dict, now: int) {
    IsCall(message) && MetaPermit(message).Success?
    && var permit := MetaPermit(message).value; var auth := permit.authorization.payload;
    && VerifyPermit(permit, config.trust, Some(now)).Success? && AudienceAllowed(auth)
    && RequestPayload(message).Success?
    && var request := RequestPayload(message).value; var params := request.fields["params"].fields;
    && auth.tool == "refund" && "name" in params && params["name"] == Str("refund")
    && RequestDigest(request, auth.requestNonce) == auth.requestDigest
  }

  // Arguments are given, and they are no object.
  predicate OddArguments(message: Dict) {
    "params" in message && message["params"].Obj? && "arguments" in message["params"].fields
    && !IsObject(message["params"].fields["arguments"])
  }

  lemma PayloadKeepsArguments(message: Dict)
    requires MetaPermit(message).Success? && RequestPayload(message).Success?
    ensures var params := RequestPayload(message).value.fields["params"].fields;
      && ("arguments" in params <==> "arguments" in message["params"].fields)
      && ("arguments" in params ==> params["arguments"] == message["params"].fields["arguments"])
  {
    DistinctKeys();
  }

  lemma PermitGivesItsAuthorization(permit: Permit, trust: TrustStore, now: int)
    requires VerifyPermit(permit, trust, Some(now)).Success?
    ensures VerifyPermit(permit, trust, Some(now)).value == permit.authorization.payload
  {
  }

  lemma VerifierNeverCrashes(permit: Permit, trust: TrustStore, now: Option<int>)
    requires VerifyPermit(permit, trust, now).Failure?
    ensures VerifyPermit(permit, trust, now).error !in {AttributeError, IntegrityError}
  {
  }

  lemma AdmitCrashesExactlyOnOddArguments(config: Config, message: Dict, now: int)
    ensures var admitted := Admit(config, message, now);
      admitted.Failure? && Refuse(admitted.error).Crashed?
      <==> ReachesArguments(config, message, now) && OddArguments(message)
  {
    hide VerifyPermit;
    if MetaPermit(message).Success? {
      var permit := MetaPermit(message).value;
      if VerifyPermit(permit, config.trust, Some(now)).Success? {
        PermitGivesItsAuthorization(permit, config.trust, now);
        if RequestPayload(message).Success? { PayloadKeepsArguments(message); }
      } else {
        VerifierNeverCrashes(permit, config.trust, Some(now));
      }
    }
  }

  lemma ValidLedgerCommits(config: Config, ledger: Ledger, a: Admitted, minted: Minted)
    requires ValidLedger(config, ledger)
    ensures Commit(ledger, a, minted).1 != Failure(IntegrityError)
    ensures Commit(ledger, a, minted).1.Failure? ==> Commit(ledger, a, minted).1.error == BoundToAnotherAttempt
    ensures Commit(ledger, a, minted).1.Success? ==> exists n :: Commit(ledger, a, minted).1.value == RefundResponse(n)
  {
    hide VerifyPermit, Material, ResponseOf, RefundResponse, AmountCommitted;
    forall o | o in ledger.operations && ledger.operations[o].permitDigest == AttemptDigest(a.permit)
      ensures o == a.permit.authorization.payload.operationId
    {
      assert ValidRow(config, o, ledger.operations[o], ledger.refunds[o]);
    }
    var o := a.permit.authorization.payload.operationId;
    if o in ledger.operations {
      assert ValidRow(config, o, ledger.operations[o], ledger.refunds[o]);
      assert Commit(ledger, a, minted).1.Success? ==>
        Commit(ledger, a, minted).1.value == RefundResponse(ledger.refunds[o]);
    } else {
      assert Commit(ledger, a, minted).1.Success? ==> Commit(ledger, a, minted).1.value == RefundResponse(a.amount);
    }
  }

  lemma RefundTakesReceipt(n: int, receipt: Json)
    ensures InjectReceipt(RefundResponse(n), receipt).Success?
  {
    assert "_meta" != "content" && "_meta" != "structuredContent" by {
      assert "_meta"[0] != "content"[0] && "_meta"[0] != "structuredContent"[0];
    }
  }

  // In every state the ledger can be in, a call that gets through to its signature brings the process
  // down if and only if it is a refund call, in order but for its arguments, and those are given and
  // are no object; and it changes nothing.
  lemma CrashesExactlyOnOddArguments(config: Config, ledger: Ledger, message: Dict, now: int, minted: Minted,
                                     signs: bool)
    requires ValidLedger(config, ledger)
    ensures var (after, answer) := Handle(config, ledger, message, now, minted, true, signs);
      && (answer.Crashed? <==> ReachesArguments(config, message, now) && OddArguments(message))
      && (answer.Crashed? ==> after == ledger)
  {
    hide Admit, Commit, ReachesArguments, OddArguments, InjectReceipt, RefundResponse, ValidLedger;
    AdmitCrashesExactlyOnOddArguments(config, message, now);
    var admitted := Admit(config, message, now);
    if admitted.Success? {
      ValidLedgerCommits(config, ledger, admitted.value, minted);
      var (committed, response) := Commit(ledger, admitted.value, minted);
      if response.Success? {
        var permit := admitted.value.permit;
        var receipt := SignReceipt(committed, config, permit.authorization.payload.operationId, AttemptDigest(permit),
                                   signs).1;
        var n :| response.value == RefundResponse(n);
        if receipt.Success? { RefundTakesReceipt(n, ReceiptDoc(receipt.value)); }
      }
    }
  }

  predicate IsHandshake(message: Dict) {
    MethodOf(message) == Str("initialize") || MethodOf(message) == Str("tools/list")
  }

  lemma LookupNeverCrashes(config: Config, ledger: Ledger, message: Dict, signs: bool)
    ensures !AnswerLookup(config, ledger, message, signs).1.Crashed?
  {
    hide VerifyPermit;
    if "params" in message && message["params"].Obj? && "permit" in message["params"].fields
       && message["params"].fields["permit"].PermitDoc? {
      var permit := message["params"].fields["permit"].permit;
      if VerifyPermit(permit, config.trust, None).Failure? { VerifierNeverCrashes(permit, config.trust, None); }
    }
  }

  // Of all messages, those that bring it down are such calls and a handshake without an id.
  lemma MessageCrashesExactly(config: Config, ledger: Ledger, message: Dict, now: int, minted: Minted, signs: bool)
    requires ValidLedger(config, ledger)
    ensures var (after, answer) := Respond(config, ledger, message, now, minted, true, signs);
      && (answer.Crashed? <==> (IsHandshake(message) && "id" !in message)
                               || (ReachesArguments(config, message, now) && OddArguments(message)))
      && (answer.Crashed? ==> after == ledger)
  {
    hide Handle, AnswerLookup, ReachesArguments, OddArguments, ValidLedger;
    OnlyCallsReach(config, message, now);
    CrashesExactlyOnOddArguments(config, ledger, message, now, minted, signs);
    LookupNeverCrashes(config, ledger, message, signs);
    MethodsDiffer();
  }

  lemma CallsAreHandled(config: Config, ledger: Ledger, message: Dict, now: int, minted: Minted, survives: bool,
                        signs: bool)
    requires IsCall(message)
    ensures Respond(config, ledger, message, now, minted, survives, signs)
         == Handle(config, ledger, message, now, minted, survives, signs)
  {
    hide Handle;
    MethodsDiffer();
  }

  lemma OnlyCallsReach(config: Config, message: Dict, now: int)
    ensures ReachesArguments(config, message, now) ==> IsCall(message)
  {
  }

  lemma MethodsDiffer()
    ensures "tools/call" !in {"notifications/initialized", "initialize", "tools/list", LOOKUP}
  {
    assert |"tools/call"| != |"notifications/initialized"| && |"tools/call"| != |LOOKUP|;
    assert "tools/call"[6] != "tools/list"[6] && "tools/call"[0] != "initialize"[0];
  }

  // Such a call: a signed and current permit for a refund whose arguments are a list.
  const SHOP_TRUST := TrustStore(map["g" := TrustKey("gateway", "refund-demo", "demo", GatewayRole, "gateway-public",
                                                     {}, Active)])
  const SHOP := Config(SHOP_TRUST, "destination-demo", "destination-public")
  const LIST_PARAMS: Dict := map["name" := Str("refund"), "arguments" := Arr([Num(5)])]

  function ListPermit(): Permit {
    var authorization := Sign(Authorization("gateway", "refund-demo", "demo",
      PrincipalDigest("user", None, None, "demo"), "op", "authz", None, "refund",
      RequestDigest(Envelope(Str("tools/call"), LIST_PARAMS), "n"), "n", RequestFingerprint(Null), 0, 60),
      AuthorizationKind, "g", "gateway-public");
    Permit(authorization, Sign(Attempt("gateway", "refund-demo", "demo", "op", "try",
      AuthorizationDigest(authorization), "m"), AttemptKind, "g", "gateway-public"))
  }

  function ListCall(): Dict {
    map["id" := Num(1), "method" := Str("tools/call"),
        "params" := Obj(LIST_PARAMS["_meta" := Obj(map[META := PermitDoc(ListPermit())])])]
  }

  lemma ListArgumentsCrash(minted: Minted, signs: bool)
    ensures ReachesArguments(SHOP, ListCall(), 10) && OddArguments(ListCall())
    ensures Respond(SHOP, NO_REFUNDS, ListCall(), 10, minted, true, signs) == (NO_REFUNDS, Crashed)
  {
    ListCallIsReached();
    hide Respond, ReachesArguments, OddArguments, ListCall, VerifyPermit;
    MessageCrashesExactly(SHOP, NO_REFUNDS, ListCall(), 10, minted, signs);
  }

  lemma ListCallIsReached()
    ensures ReachesArguments(SHOP, ListCall(), 10) && OddArguments(ListCall())
  {
    DistinctKeys();
    assert "id" != "method" && "id" != "params";
    var params := ListCall()["params"].fields;
    assert MetaPermit(ListCall()) == Success(ListPermit());
    ListPermitVerifies();
    assert Without(Without(params["_meta"].fields, META), IDEMPOTENCY) == map[];
    assert Without(params, "_meta") == LIST_PARAMS;
    assert RequestPayload(ListCall()) == Success(Envelope(Str("tools/call"), LIST_PARAMS));
  }

  lemma ListPermitVerifies()
    ensures VerifyPermit(ListPermit(), SHOP_TRUST, Some(10)).Success?
  {
  }

  // And such a handshake.
  lemma BareHandshakeCrashes(minted: Minted, signs: bool)
    ensures Respond(SHOP, NO_REFUNDS, map["method" := Str("initialize")], 10, minted, true, signs)
         == (NO_REFUNDS, Crashed)
  {
    assert "initialize"[0] != "notifications/initialized"[0];
  }
}
