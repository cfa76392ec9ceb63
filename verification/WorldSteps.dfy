// Each action keeps the invariant of the system.
module WorldSteps {
  import opened Wrappers
  import opened Documents
  import opened Protocol
  import opened Verify
  import opened Store
  import opened TextOrder
  import opened World
  import opened WorldSafety
  import A = Approvals
  import B = RequestBinding
  import D = Destination
  import G = Runtime
  import S = StoreSafety

  // -------- What ideal signatures give --------

  // The destination admits only permits that have left this gateway.
  lemma AdmittedWasReleased(c: Config, makers: map<string, string>, operations: map<string, Operation>,
                            released: set<Permit>, permit: Permit)
    requires Paired(c) && MadeHere(c, makers, operations) && ReleasedHere(operations, released)
    requires Unforged(c, released, permit) && VerifyPermit(permit, c.destination.trust, None).Success?
    ensures permit in released
  {
    AdmittedIsSigned(c, permit);
    var p :| p in released && p.authorization == permit.authorization;
    var q :| q in released && q.attempt == permit.attempt;
    ReleasedIsMadeHere(c, makers, operations, released, q);
    assert q.attempt.payload.authorizationDigest == permit.attempt.payload.authorizationDigest;
    assert q.authorization == permit.authorization;
  }

  // The destination trusts nobody's permits but the gateway's.
  lemma AdmittedIsSigned(c: Config, permit: Permit)
    requires Paired(c) && VerifyPermit(permit, c.destination.trust, None).Success?
    ensures ByGatewayKey(c, permit.authorization) && ByGatewayKey(c, permit.attempt)
    ensures permit.attempt.payload.authorizationDigest == AuthorizationDigest(permit.authorization)
  {
    var k, j := permit.authorization.kid, permit.attempt.kid;
    assert c.destination.trust.keys[k].role == GatewayRole && c.destination.trust.keys[j].role == GatewayRole;
  }

  lemma ReleasedIsMadeHere(c: Config, makers: map<string, string>, operations: map<string, Operation>,
                           released: set<Permit>, p: Permit)
    requires MadeHere(c, makers, operations) && ReleasedHere(operations, released) && p in released
    ensures MadeBy(c, makers, p.authorization.payload.operationId, p)
  {
    assert ReservedPermit(operations, p);
  }

  // A receipt any of the gateway's configurations finds valid for a permit to the destination is
  // the one the destination stored for that operation.
  lemma VerifiedReceiptIsTheStoredOne(c: Config, ledger: D.Ledger, g: G.Config, permit: Permit, receipt: SignedReceipt)
    requires KnowsDestination(c, g) && D.ValidLedger(c.destination, ledger) && ForDestination(permit)
    requires VerifyReceipt(permit, receipt, g.trust, None).Success?
    requires Authentic(c, ledger, ReceiptDoc(receipt))
    ensures LedgerHas(ledger, permit.authorization.payload.operationId, receipt)
  {
    assert BySigner(receipt, c.destination.publicKey);
    var k :| k in ledger.operations && ledger.operations[k].receipt == Some(receipt);
    assert D.ValidRow(c.destination, k, ledger.operations[k], ledger.refunds[k]);
    assert receipt.payload.operationId == k;
  }

  lemma ResponseOnlyAddsAComparison(permit: Permit, receipt: SignedReceipt, trust: TrustStore, response: Json)
    requires VerifyReceipt(permit, receipt, trust, Some(response)).Success?
    ensures VerifyReceipt(permit, receipt, trust, None).Success?
  {
  }

  lemma JudgedReceiptVerifies(g: G.Config, permit: Permit, reply: Dict)
    requires G.Judge(g, permit, reply).Success? && G.Accepted(G.Judge(g, permit, reply).value).Some?
    ensures var r := G.Accepted(G.Judge(g, permit, reply).value).value;
      && SplitResponse(reply).Success? && SplitResponse(reply).value.1 == ReceiptDoc(r)
      && VerifyReceipt(permit, r, g.trust, None).Success? && Verified(g, Bundle(permit, Some(r)))
  {
    var j := G.Judge(g, permit, reply).value;
    ResponseOnlyAddsAComparison(permit, j.receipt.receipt, g.trust, j.payload);
  }

  lemma LookupReceiptVerifies(g: G.Config, permit: Permit, answer: Option<Dict>)
    requires G.JudgeLookup(g, permit, answer).Success?
    ensures var r := G.JudgeLookup(g, permit, answer).value.0;
      && answer.Some? && "result" in answer.value && answer.value["result"].Obj?
      && "receipt" in answer.value["result"].fields && answer.value["result"].fields["receipt"] == ReceiptDoc(r)
      && VerifyReceipt(permit, r, g.trust, None).Success? && Verified(g, Bundle(permit, Some(r)))
  {
  }

  // -------- Gateway transactions --------

  lemma QuietAfter(operations: map<string, Operation>, events: seq<Event>, e: Event)
    requires Quiet(operations, events)
    requires e.phase != ConflictingReceipt
      || (e.operation in operations && !ForDestination(operations[e.operation].bundle.permit))
    ensures Quiet(operations, events + [e])
  {
    forall o | HasConflict(events + [e], o) ensures o in operations && !ForDestination(operations[o].bundle.permit) {
      var i :| 0 <= i < |events + [e]| && (events + [e])[i].operation == o
        && (events + [e])[i].phase == ConflictingReceipt;
      if i < |events| { assert HasConflict(events, o); }
    }
  }

  lemma QuietStays(t: map<string, Operation>, u: map<string, Operation>, events: seq<Event>)
    requires Quiet(t, events) && OperationsGrow(t, u)
    ensures Quiet(u, events)
  {
  }

  // What a row has to satisfy.
  predicate RowOk(c: Config, makers: map<string, string>, ledger: D.Ledger, o: string, row: Operation) {
    MadeBy(c, makers, o, row.bundle.permit) && Agrees(o, row.bundle, ledger) && Vouched(c, row.bundle)
  }

  lemma RowIsOk(c: Config, w: World, o: string)
    requires GatewayInv(c, w) && o in w.tables.operations
    ensures RowOk(c, w.makers, w.ledger, o, w.tables.operations[o])
  {
  }

  lemma UpdateKeepsRows(c: Config, makers: map<string, string>, operations: map<string, Operation>, ledger: D.Ledger,
                        o: string, row: Operation)
    requires MadeHere(c, makers, operations) && ReceiptsAgree(operations, ledger) && AllVouched(c, operations)
    requires RowOk(c, makers, ledger, o, row)
    ensures MadeHere(c, makers, operations[o := row]) && ReceiptsAgree(operations[o := row], ledger)
    ensures AllVouched(c, operations[o := row])
  {
    hide MadeBy, Agrees, Vouched;
  }

  // What may be recorded as the receipt of an operation.
  predicate Recordable(c: Config, w: World, o: string, receipt: Option<SignedReceipt>) {
    receipt.Some? && o in w.tables.operations ==>
      var bundle := Bundle(w.tables.operations[o].bundle.permit, receipt);
      Vouched(c, bundle) && Agrees(o, bundle, w.ledger)
  }

  // For an operation at the destination, `record` never finds a conflict.
  lemma RecordFindsNoConflict(c: Config, w: World, o: string, tenant: string, phase: Phase,
                              receipt: Option<SignedReceipt>, eventId: string, conflictId: string)
    requires GatewayInv(c, w) && Recordable(c, w, o, receipt)
    requires Record(w.tables, o, tenant, phase, receipt, eventId, conflictId).1 == Failure(ReceiptConflict)
    ensures o in w.tables.operations && !ForDestination(w.tables.operations[o].bundle.permit)
  {
    S.RecordShape(w.tables, o, tenant, phase, receipt, eventId, conflictId);
    RowIsOk(c, w, o);
  }

  lemma RecordKeeps(c: Config, w: World, o: string, tenant: string, phase: Phase,
                    receipt: Option<SignedReceipt>, eventId: string, conflictId: string)
    requires Inv(c, w) && phase != ConflictingReceipt && Recordable(c, w, o, receipt)
    ensures Inv(c, w.(tables := Record(w.tables, o, tenant, phase, receipt, eventId, conflictId).0))
  {
    hide Record, Recordable, S.ValidTables, S.Advances, LedgerInv, CallsInv, GrantsInv, MadeHere, Quiet, AllVouched,
      ReceiptsAgree, ReleasedHere, LookupsOk, S.RowAdvances, Conflicts;
    S.RecordShape(w.tables, o, tenant, phase, receipt, eventId, conflictId);
    S.RecordStep(w.tables, o, tenant, phase, receipt, eventId, conflictId);
    var (u, r) := Record(w.tables, o, tenant, phase, receipt, eventId, conflictId);
    var e, conflict := Event(eventId, o, phase, false), Event(conflictId, o, ConflictingReceipt, false);
    if r.Success? {
      RecordedParts(c, w, o, u.operations[o], e, receipt);
    } else if r.error == ReceiptConflict {
      RecordFindsNoConflict(c, w, o, tenant, phase, receipt, eventId, conflictId);
      QuietAfter(w.tables.operations, w.tables.events, conflict);
      QuietAfter(w.tables.operations, w.tables.events + [conflict], e);
    }
    TablesChange(c, w, u, w.makers);
  }

  lemma RecordedParts(c: Config, w: World, o: string, row: Operation, e: Event, receipt: Option<SignedReceipt>)
    requires GatewayInv(c, w) && e.phase != ConflictingReceipt && o in w.tables.operations
    requires S.RowAdvances(w.tables.operations[o], row) && Recordable(c, w, o, receipt)
    requires if receipt.Some? then row.bundle.receipt == receipt else row == w.tables.operations[o]
    ensures var operations := w.tables.operations[o := row];
      && MadeHere(c, w.makers, operations) && ReceiptsAgree(operations, w.ledger) && AllVouched(c, operations)
      && Quiet(operations, w.tables.events + [e])
  {
    hide S.ValidTables, MadeHere, AllVouched, ReceiptsAgree, Quiet, ReleasedHere, LookupsOk, Vouched, Agrees,
      GatewayPermit;
    QuietAfter(w.tables.operations, w.tables.events, e);
    QuietStays(w.tables.operations, w.tables.operations[o := row], w.tables.events + [e]);
    RowIsOk(c, w, o);
    assert receipt.Some? ==> row.bundle == Bundle(w.tables.operations[o].bundle.permit, receipt);
    UpdateKeepsRows(c, w.makers, w.tables.operations, w.ledger, o, row);
  }

  // -------- The steps of a call --------

  lemma PartsOfInv(c: Config, w: World)
    requires Inv(c, w)
    ensures GatewayInv(c, w) && LedgerInv(c, w) && CallsInv(c, w) && GrantsInv(c, w)
  {
  }

  lemma OkOf(c: Config, w: World, k: nat)
    requires CallsInv(c, w) && k in w.calls
    ensures CallOk(c, w.tables.operations, w.ledger, w.calls[k])
  {
  }

  lemma AnsweredFacts(c: Config, w: World, k: nat)
    requires CallsInv(c, w) && k in w.calls && w.calls[k].pc.Answered? && w.calls[k].operation.Some?
    ensures w.calls[k].operation.value in w.tables.operations && w.calls[k].sends == 1
    ensures AuthenticReply(c, w.ledger, w.calls[k].pc.reply)
  {
    OkOf(c, w, k);
  }

  lemma JudgedFacts(c: Config, w: World, k: nat)
    requires CallsInv(c, w) && k in w.calls && w.calls[k].pc.Judged? && w.calls[k].operation.Some?
    ensures w.calls[k].sends == 1
    ensures var j := w.calls[k].pc.judgement;
      G.Accepted(j).Some? ==> Acceptable(c, w.tables.operations, w.ledger, w.calls[k], G.Accepted(j).value)
  {
    OkOf(c, w, k);
  }

  lemma SendsFacts(c: Config, w: World, k: nat)
    requires CallsInv(c, w) && k in w.calls
    ensures w.calls[k].sends <= 1 && (w.calls[k].pc.Observed? ==> w.calls[k].sends == 1)
    ensures w.calls[k].pc.Started? ==> w.calls[k].operation.None? && w.calls[k].sends == 0 && w.calls[k].granted.None?
    ensures w.calls[k].context.server in c.servers && Framed(w.calls[k])
  {
    OkOf(c, w, k);
  }

  // What a new state of a call has to satisfy.
  predicate Fits(c: Config, operations: map<string, Operation>, ledger: D.Ledger, call: Call, pc: Pc) {
    match pc
    case Failing => call.operation.Some? && call.sends <= 1
    case Observed(_) => call.operation.Some? && call.sends == 1
    case Ready(_) => call.operation.Some? && call.sends == 1
    case Judged(j) => call.operation.Some? && call.sends == 1
      && (G.Accepted(j).Some? ==> Acceptable(c, operations, ledger, call, G.Accepted(j).value))
    case Answered(reply) => call.operation.Some? && call.sends == 1 && AuthenticReply(c, ledger, reply)
    case Done(Normal(_)) => call.operation.Some? && call.sends == 1
    case Done(Unknown(o)) => call.operation == Some(o) && call.sends <= 1
    case Done(NotDispatched) => call.operation.None?
    case Done(AlreadyReserved(previous)) => call.operation.None? && previous in operations
    case Done(Vanished) => call.sends <= 1
    case _ => false
  }

  lemma OkWhenItFits(c: Config, operations: map<string, Operation>, ledger: D.Ledger, call: Call, pc: Pc)
    requires CallOk(c, operations, ledger, call) && Fits(c, operations, ledger, call, pc)
    ensures CallOk(c, operations, ledger, call.(pc := pc))
  {
    hide Verified, Agrees, AuthenticReply, B.ContextForMessage, RequestPayload;
  }

  lemma Move(c: Config, w: World, k: nat, pc: Pc)
    requires Inv(c, w) && k in w.calls && Fits(c, w.tables.operations, w.ledger, w.calls[k], pc)
    ensures Inv(c, At(w, k, w.calls[k].(pc := pc)))
  {
    OkOf(c, w, k);
    OkWhenItFits(c, w.tables.operations, w.ledger, w.calls[k], pc);
    CallChange(c, w, k, pc);
  }

  lemma ReadBundleFits(c: Config, w: World, k: nat)
    requires Paired(c) && GatewayInv(c, w) && LedgerInv(c, w) && CallsInv(c, w)
    requires Known(c, w, k) && w.calls[k].pc.Answered? && w.calls[k].operation.Some?
    ensures var v := DoReadBundle(c, w, k);
      && k in v.calls && v == At(w, k, w.calls[k].(pc := v.calls[k].pc))
      && Fits(c, w.tables.operations, w.ledger, w.calls[k], v.calls[k].pc)
  {
    hide Paired, GatewayInv, LedgerInv, CallsInv, G.Judge, Verified, Agrees, AuthenticReply;
    AnsweredFacts(c, w, k);
    var it := w.calls[k];
    var bundle := Get(w.tables, it.operation.value, GatewayOf(c, it).tenant);
    if bundle.Success? && G.Judge(GatewayOf(c, it), bundle.value.permit, it.pc.reply).Success? {
      JudgedReceiptIsStored(c, w, it.context.server, it.operation.value, it.pc.reply);
    }
  }

  lemma ReadBundleStep(c: Config, w: World, k: nat)
    requires Paired(c) && Inv(c, w) && Known(c, w, k) && w.calls[k].pc.Answered? && w.calls[k].operation.Some?
    ensures Inv(c, DoReadBundle(c, w, k))
  {
    ReadBundleFits(c, w, k);
    Move(c, w, k, DoReadBundle(c, w, k).calls[k].pc);
  }

  lemma PermitNamesItsOperation(c: Config, w: World, o: string)
    requires GatewayInv(c, w) && o in w.tables.operations
    ensures w.tables.operations[o].bundle.permit.authorization.payload.operationId == o
    ensures MadeBy(c, w.makers, o, w.tables.operations[o].bundle.permit)
  {
  }

  lemma JudgedReceiptIsStored(c: Config, w: World, s: string, o: string, reply: Dict)
    requires Paired(c) && GatewayInv(c, w) && LedgerInv(c, w) && o in w.tables.operations && s in c.servers
    requires AuthenticReply(c, w.ledger, reply)
    requires G.Judge(c.servers[s], w.tables.operations[o].bundle.permit, reply).Success?
    ensures var permit := w.tables.operations[o].bundle.permit;
      var j := G.Judge(c.servers[s], permit, reply).value;
      G.Accepted(j).Some? ==>
        Verified(c.servers[s], Bundle(permit, G.Accepted(j))) && Agrees(o, Bundle(permit, G.Accepted(j)), w.ledger)
  {
    hide GatewayInv, G.Judge, Verified, VerifyReceipt, D.ValidLedger, Backed;
    var permit := w.tables.operations[o].bundle.permit;
    var j := G.Judge(c.servers[s], permit, reply).value;
    if G.Accepted(j).Some? {
      JudgedReceiptVerifies(c.servers[s], permit, reply);
      PermitNamesItsOperation(c, w, o);
      if ForDestination(permit) {
        VerifiedReceiptIsTheStoredOne(c, w.ledger, c.servers[s], permit, G.Accepted(j).value);
      }
    }
  }

  lemma WriteVerdictStep(c: Config, w: World, k: nat, nonce: string, eventId: string, conflictId: string)
    requires Inv(c, w) && Known(c, w, k) && w.calls[k].pc.Judged? && w.calls[k].operation.Some?
    ensures Inv(c, DoWriteVerdict(c, w, k, nonce, eventId, conflictId))
  {
    JudgedFacts(c, w, k);
    var it := w.calls[k];
    var j := it.pc.judgement;
    var phase := ResponseObserved(j.verdict, ResponseDigest(j.payload, nonce));
    var g := GatewayOf(c, it);
    RecordKeeps(c, w, it.operation.value, g.tenant, phase, G.Accepted(j), eventId, conflictId);
    ObserveWritesARecord(w.tables, g, it.operation.value, j, nonce, eventId, conflictId);
    var (tables, r) := G.ObserveWrite(w.tables, g, it.operation.value, j, nonce, eventId, conflictId);
    Move(c, w.(tables := tables), k, if r.Failure? then Failing else Observed(r.value));
  }

  lemma ObserveWritesARecord(t: Tables, g: G.Config, o: string, j: G.Judgement, nonce: string, eventId: string,
                             conflictId: string)
    ensures G.ObserveWrite(t, g, o, j, nonce, eventId, conflictId).0
         == Record(t, o, g.tenant, ResponseObserved(j.verdict, ResponseDigest(j.payload, nonce)), G.Accepted(j),
                   eventId, conflictId).0
  {
  }

  lemma RespondStep(c: Config, w: World, k: nat, response: Dict, eventId: string, conflictId: string)
    requires Inv(c, w) && Known(c, w, k) && w.calls[k].pc.Observed? && w.calls[k].operation.Some?
    ensures Inv(c, DoRespond(c, w, k, response, eventId, conflictId))
  {
    hide Inv, Record, CallsInv;
    PartsOfInv(c, w);
    SendsFacts(c, w, k);
    var it := w.calls[k];
    var tenant := GatewayOf(c, it).tenant;
    RecordKeeps(c, w, it.operation.value, tenant, ClientResponsePrepared, None, eventId, conflictId);
    var (tables, r) := Record(w.tables, it.operation.value, tenant, ClientResponsePrepared, None, eventId, conflictId);
    Move(c, w.(tables := tables), k, if r.Failure? then Failing else Ready(response));
  }

  lemma RecoverStep(c: Config, w: World, k: nat, stored: bool, eventId: string, conflictId: string)
    requires Inv(c, w) && Known(c, w, k) && w.calls[k].pc.Failing? && w.calls[k].operation.Some?
    ensures Inv(c, DoRecover(c, w, k, stored, eventId, conflictId))
  {
    hide Inv, Record, CallsInv;
    PartsOfInv(c, w);
    SendsFacts(c, w, k);
    var it := w.calls[k];
    var tenant := GatewayOf(c, it).tenant;
    RecordKeeps(c, w, it.operation.value, tenant, OutcomeUnavailable, None, eventId, conflictId);
    var tables := if stored then Record(w.tables, it.operation.value, tenant, OutcomeUnavailable, None,
                                        eventId, conflictId).0
                  else w.tables;
    Move(c, w.(tables := tables), k, Done(Unknown(it.operation.value)));
  }

  // -------- Reserving --------

  lemma DraftIsMadeHere(g: G.Config, message: Dict, context: A.RequestContext, approvalId: Option<string>, ids: G.Ids,
                        now: int)
    requires G.Draft(g, message, context, approvalId, ids, now).Success?
    ensures RequestPayload(message).Success? && ValidateClient(message).Success?
    ensures var permit := G.Draft(g, message, context, approvalId, ids, now).value.0;
      var auth := permit.authorization.payload;
      && GatewayPermit(g, ids.operationId, permit) && auth.approvalId == approvalId
      && auth.requestDigest == RequestDigest(RequestPayload(message).value, auth.requestNonce)
      && auth.policyBinding == PolicyDigest(context.binding)
  {
  }

  // The call once its reservation has succeeded.
  function ReservedAs(it: Call, permit: Permit): Call
    requires ValidateClient(it.message).Success?
  {
    it.(pc := Reserved(AttachPermit(it.message, permit)), operation := Some(permit.authorization.payload.operationId),
        granted := if it.approval.Some? then Some(it.approval.value.0) else None)
  }

  lemma NewRowIsOk(c: Config, makers: map<string, string>, ledger: D.Ledger, s: string, o: string, row: Operation)
    requires s in c.servers && GatewayPermit(c.servers[s], o, row.bundle.permit) && row.bundle.receipt.None?
    ensures RowOk(c, makers[o := s], ledger, o, row)
  {
    assert Verified(c.servers[s], row.bundle);
  }

  lemma OthersKeepMakers(c: Config, makers: map<string, string>, operations: map<string, Operation>, o: string,
                         s: string)
    requires MadeHere(c, makers, operations) && o !in operations
    ensures MadeHere(c, makers[o := s], operations)
  {
    hide GatewayPermit;
    forall x | x in operations ensures MadeBy(c, makers[o := s], x, operations[x].bundle.permit) {
      assert MadeBy(c, makers, x, operations[x].bundle.permit);
    }
  }

  lemma ReservedParts(c: Config, w: World, s: string, o: string, row: Operation, eventId: string)
    requires GatewayInv(c, w) && s in c.servers && o !in w.tables.operations
    requires GatewayPermit(c.servers[s], o, row.bundle.permit) && row.bundle.receipt.None?
    ensures var operations := w.tables.operations[o := row];
      && MadeHere(c, w.makers[o := s], operations) && ReceiptsAgree(operations, w.ledger) && AllVouched(c, operations)
      && Quiet(operations, w.tables.events + [Event(eventId, o, DispatchIntent, false)])
  {
    hide S.ValidTables, MadeHere, AllVouched, ReceiptsAgree, Quiet, ReleasedHere, LookupsOk, GatewayPermit, RowOk;
    var e := Event(eventId, o, DispatchIntent, false);
    QuietAfter(w.tables.operations, w.tables.events, e);
    QuietStays(w.tables.operations, w.tables.operations[o := row], w.tables.events + [e]);
    NewRowIsOk(c, w.makers, w.ledger, s, o, row);
    OthersKeepMakers(c, w.makers, w.tables.operations, o, s);
    UpdateKeepsRows(c, w.makers[o := s], w.tables.operations, w.ledger, o, row);
  }

  // Nobody else owns the new operation or has used the approval.
  lemma NobodyElse(c: Config, w: World, k: nat, next: Call)
    requires CallsInv(c, w) && GrantsInv(c, w) && k in w.calls
    requires next.operation.Some? && next.operation.value !in w.tables.operations
    requires next.granted.Some? ==>
      (next.granted.value in w.tables.approvals && w.tables.approvals[next.granted.value].status != A.Consumed)
    ensures forall j | j in w.calls && j != k ::
      w.calls[j].operation != next.operation && (next.granted.Some? ==> w.calls[j].granted != next.granted)
  {
    forall j | j in w.calls && j != k
      ensures w.calls[j].operation != next.operation && (next.granted.Some? ==> w.calls[j].granted != next.granted)
    {
      OkOf(c, w, j);
      assert GrantOk(c.servers.Keys, w.tables.approvals, w.calls[j]);
    }
  }

  lemma NewOwner(c: Config, w: World, k: nat, next: Call)
    requires Inv(c, w) && k in w.calls && w.calls[k].pc.Started?
    requires CallOk(c, w.tables.operations, w.ledger, next) && next.operation.Some?
    requires forall j | j in w.calls && j != k ::
      w.calls[j].operation != next.operation && (next.granted.Some? ==> w.calls[j].granted != next.granted)
    requires GrantOk(c.servers.Keys, w.tables.approvals, next)
    ensures Inv(c, At(w, k, next))
  {
    hide GatewayInv, LedgerInv, CallOk, GrantOk;
    SendsFacts(c, w, k);
    UpdatedCallsOk(c, w.tables.operations, w.ledger, w.calls, k, next);
    NewOwnerRoles(c, w, k, next);
    CallsOnly(c, w, w.calls[k := next]);
  }

  lemma NewOwnerRoles(c: Config, w: World, k: nat, next: Call)
    requires CallsInv(c, w) && GrantsInv(c, w) && k in w.calls && w.calls[k].sends != 1
    requires next.operation.Some?
    requires forall j | j in w.calls && j != k ::
      w.calls[j].operation != next.operation && (next.granted.Some? ==> w.calls[j].granted != next.granted)
    requires GrantOk(c.servers.Keys, w.tables.approvals, next)
    ensures var calls := w.calls[k := next];
      && OneOwner(calls) && DispatchesOk(w.dispatched, calls)
      && GrantsOk(c.servers.Keys, w.tables.approvals, calls, w.plains) && DistinctGrants(calls, w.plains)
  {
    hide GrantOk, CallOk;
    DispatchesStay(w.dispatched, w.calls, w.calls[k := next]);
  }

  lemma GrantedIsUsedUp(c: Config, t: Tables, q: ConsumeRequest, u: Tables)
    requires u.approvals == A.ConsumeBook(t.approvals, q.id, q.context, q.policyId, q.now).0
    requires A.ConsumeBook(t.approvals, q.id, q.context, q.policyId, q.now).1 && q.context.server in c.servers
    ensures q.id in t.approvals && t.approvals[q.id].status != A.Consumed
    ensures UsedUp(u.approvals, q.id, true, c.servers.Keys) && A.Matches(u.approvals[q.id], q.context)
  {
  }

  lemma ReserveGrants(t: Tables, bundle: Bundle, scope: PrivateDigest, fingerprint: PrivateDigest,
                      consume: Option<ConsumeRequest>, eventId: string)
    requires Reserve(t, bundle, scope, fingerprint, consume, eventId).1 == Success(None) && consume.Some?
    ensures var q := consume.value;
      A.ConsumeBook(t.approvals, q.id, q.context, q.policyId, q.now)
      == (Reserve(t, bundle, scope, fingerprint, consume, eventId).0.approvals, true)
  {
  }

  // The transaction of a successful `prepare`.
  lemma ReserveKeeps(c: Config, w: World, s: string, permit: Permit, scope: PrivateDigest, fingerprint: PrivateDigest,
                     consume: Option<ConsumeRequest>, eventId: string)
    requires Inv(c, w) && s in c.servers
    requires GatewayPermit(c.servers[s], permit.authorization.payload.operationId, permit)
    requires Reserve(w.tables, Bundle(permit, None), scope, fingerprint, consume, eventId).1 == Success(None)
    ensures Inv(c, w.(tables := Reserve(w.tables, Bundle(permit, None), scope, fingerprint, consume, eventId).0,
                      makers := w.makers[permit.authorization.payload.operationId := s]))
  {
    hide Reserve, S.ValidTables, S.Advances, LedgerInv, CallsInv, GrantsInv, MadeHere, Quiet, AllVouched, ReceiptsAgree,
      ReleasedHere, LookupsOk, GatewayPermit;
    var bundle := Bundle(permit, None);
    var auth := permit.authorization.payload;
    S.ReserveShape(w.tables, bundle, scope, fingerprint, consume, eventId);
    S.ReserveStep(w.tables, bundle, scope, fingerprint, consume, eventId);
    ReservedParts(c, w, s, auth.operationId, Operation(auth.tenant, scope, fingerprint, bundle), eventId);
    TablesChange(c, w, Reserve(w.tables, bundle, scope, fingerprint, consume, eventId).0,
                 w.makers[auth.operationId := s]);
  }

  lemma PreparedShape(c: Config, w: World, k: nat, ids: G.Ids)
    returns (permit: Permit, scope: PrivateDigest, fingerprint: PrivateDigest)
    requires Known(c, w, k) && w.calls[k].pc.Started?
    requires var it := w.calls[k];
      G.Prepare(w.tables, GatewayOf(c, it), it.message, it.context, ConsumeFor(w, it), ids,
                w.now / 1_000_000).1.Success?
    ensures var it := w.calls[k];
      var (u, r) := Reserve(w.tables, Bundle(permit, None), scope, fingerprint, ConsumeFor(w, it), ids.eventId);
      && r == Success(None) && GatewayPermit(GatewayOf(c, it), ids.operationId, permit)
      && permit.authorization.payload.operationId == ids.operationId
      && permit.authorization.payload.approvalId == G.ConsumedId(ConsumeFor(w, it))
      && ValidateClient(it.message).Success? && Carries(permit, ReservedAs(it, permit))
      && DoPrepare(c, w, k, ids, true)
         == At(w.(tables := u, makers := w.makers[ids.operationId := it.context.server]), k, ReservedAs(it, permit))
  {
    hide GatewayPermit, RequestPayload, ValidateClient, Reserve;
    var it := w.calls[k];
    var g := GatewayOf(c, it);
    var draft := G.Draft(g, it.message, it.context, G.ConsumedId(ConsumeFor(w, it)), ids, w.now / 1_000_000);
    DraftIsMadeHere(g, it.message, it.context, G.ConsumedId(ConsumeFor(w, it)), ids, w.now / 1_000_000);
    permit, scope, fingerprint := draft.value.0, draft.value.1, draft.value.2;
    OperationIdOf(g, ids.operationId, permit);
  }

  lemma OperationIdOf(g: G.Config, o: string, permit: Permit)
    requires GatewayPermit(g, o, permit)
    ensures permit.authorization.payload.operationId == o
  {
  }

  lemma PreparedStep(c: Config, w: World, k: nat, ids: G.Ids)
    requires Inv(c, w) && Known(c, w, k) && w.calls[k].pc.Started? && ids.operationId !in w.tables.operations
    requires var it := w.calls[k];
      G.Prepare(w.tables, GatewayOf(c, it), it.message, it.context, ConsumeFor(w, it), ids,
                w.now / 1_000_000).1.Success?
    ensures Inv(c, DoPrepare(c, w, k, ids, true))
  {
    hide Inv, DoPrepare, G.Prepare, GatewayPermit, Carries;
    var permit, scope, fingerprint := PreparedShape(c, w, k, ids);
    ReservedCall(c, w, k, permit, scope, fingerprint, ids.eventId);
  }

  lemma ReservedCall(c: Config, w: World, k: nat, permit: Permit, scope: PrivateDigest, fingerprint: PrivateDigest,
                     eventId: string)
    requires Inv(c, w) && Known(c, w, k) && w.calls[k].pc.Started?
    requires ValidateClient(w.calls[k].message).Success?
    requires var o := permit.authorization.payload.operationId; var it := w.calls[k];
      o !in w.tables.operations && GatewayPermit(GatewayOf(c, it), o, permit) && Carries(permit, ReservedAs(it, permit))
    requires Reserve(w.tables, Bundle(permit, None), scope, fingerprint, ConsumeFor(w, w.calls[k]), eventId).1
      == Success(None)
    ensures var it := w.calls[k];
      var u := Reserve(w.tables, Bundle(permit, None), scope, fingerprint, ConsumeFor(w, it), eventId).0;
      var makers := w.makers[permit.authorization.payload.operationId := it.context.server];
      Inv(c, At(w.(tables := u, makers := makers), k, ReservedAs(it, permit)))
  {
    hide Inv, Reserve, GatewayPermit, Carries, CallOk, GrantOk;
    var it := w.calls[k];
    var consume := ConsumeFor(w, it);
    var u := Reserve(w.tables, Bundle(permit, None), scope, fingerprint, consume, eventId).0;
    ReserveKeeps(c, w, it.context.server, permit, scope, fingerprint, consume, eventId);
    ReservedFacts(c, w.tables, permit, scope, fingerprint, consume, eventId);
    var next := ReservedAs(it, permit);
    StartedFacts(c, w, k);
    ReservedIsOk(c, u.operations, w.ledger, it, permit);
    GrantedIsOk(c, w, k, permit, u);
    OthersFree(c, w, k, next);
    var makers := w.makers[permit.authorization.payload.operationId := it.context.server];
    NewOwner(c, w.(tables := u, makers := makers), k, next);
  }

  lemma StartedFacts(c: Config, w: World, k: nat)
    requires Inv(c, w) && k in w.calls && w.calls[k].pc.Started?
    ensures CallOk(c, w.tables.operations, w.ledger, w.calls[k]) && w.calls[k].sends == 0
  {
    SendsFacts(c, w, k);
    OkOf(c, w, k);
  }

  lemma OthersFree(c: Config, w: World, k: nat, next: Call)
    requires Inv(c, w) && k in w.calls
    requires next.operation.Some? && next.operation.value !in w.tables.operations
    requires next.granted.Some? ==>
      (next.granted.value in w.tables.approvals && w.tables.approvals[next.granted.value].status != A.Consumed)
    ensures forall j | j in w.calls && j != k ::
      w.calls[j].operation != next.operation && (next.granted.Some? ==> w.calls[j].granted != next.granted)
  {
    hide GatewayInv, LedgerInv, CallsInv, GrantsInv;
    NobodyElse(c, w, k, next);
  }

  lemma ReservedIsOk(c: Config, operations: map<string, Operation>, ledger: D.Ledger, it: Call, permit: Permit)
    requires it.pc.Started? && it.sends == 0 && it.context.server in c.servers && Framed(it)
    requires ValidateClient(it.message).Success? && Carries(permit, ReservedAs(it, permit))
    requires var o := permit.authorization.payload.operationId;
      o in operations && operations[o].bundle.permit == permit
    ensures CallOk(c, operations, ledger, ReservedAs(it, permit))
  {
    hide RequestPayload, ValidateClient, B.ContextForMessage;
  }

  lemma GrantedIsOk(c: Config, w: World, k: nat, permit: Permit, u: Tables)
    requires k in w.calls && ValidateClient(w.calls[k].message).Success?
    requires var consume := ConsumeFor(w, w.calls[k]);
      consume.Some? ==> UsedUp(u.approvals, consume.value.id, true, c.servers.Keys)
                        && A.Matches(u.approvals[consume.value.id], consume.value.context)
    ensures GrantOk(c.servers.Keys, u.approvals, ReservedAs(w.calls[k], permit))
  {
  }

  lemma ReservedFacts(c: Config, t: Tables, permit: Permit, scope: PrivateDigest, fingerprint: PrivateDigest,
                      consume: Option<ConsumeRequest>, eventId: string)
    requires Reserve(t, Bundle(permit, None), scope, fingerprint, consume, eventId).1 == Success(None)
    requires consume.Some? ==> consume.value.context.server in c.servers
    ensures var u := Reserve(t, Bundle(permit, None), scope, fingerprint, consume, eventId).0;
      var o := permit.authorization.payload.operationId;
      && o in u.operations && u.operations[o].bundle.permit == permit
      && (consume.Some? ==> consume.value.id in t.approvals && t.approvals[consume.value.id].status != A.Consumed
                            && UsedUp(u.approvals, consume.value.id, true, c.servers.Keys)
                            && A.Matches(u.approvals[consume.value.id], consume.value.context))
  {
    S.ReserveShape(t, Bundle(permit, None), scope, fingerprint, consume, eventId);
    if consume.Some? {
      ReserveGrants(t, Bundle(permit, None), scope, fingerprint, consume, eventId);
      GrantedIsUsedUp(c, t, consume.value, Reserve(t, Bundle(permit, None), scope, fingerprint, consume, eventId).0);
    }
  }

  lemma ReservePreviousExists(t: Tables, bundle: Bundle, scope: PrivateDigest, fingerprint: PrivateDigest,
                              consume: Option<ConsumeRequest>, eventId: string)
    ensures var r := Reserve(t, bundle, scope, fingerprint, consume, eventId).1;
      r.Success? && r.value.Some? ==> r.value.value in t.operations
  {
  }

  lemma PrepareStep(c: Config, w: World, k: nat, ids: G.Ids, stored: bool)
    requires Inv(c, w) && Known(c, w, k) && w.calls[k].pc.Started? && ids.operationId !in w.tables.operations
    ensures Inv(c, DoPrepare(c, w, k, ids, stored))
  {
    SendsFacts(c, w, k);
    var it := w.calls[k];
    var r := G.Prepare(w.tables, GatewayOf(c, it), it.message, it.context, ConsumeFor(w, it), ids, w.now / 1_000_000).1;
    if stored && r.Success? {
      PreparedStep(c, w, k, ids);
    } else {
      RefusedStep(c, w, k, ids, stored);
      var pc := DoPrepare(c, w, k, ids, stored).calls[k].pc;
      Move(c, w, k, pc);
    }
  }

  // A refusal leaves everything but the call itself as it was.
  lemma RefusedStep(c: Config, w: World, k: nat, ids: G.Ids, stored: bool)
    requires Known(c, w, k) && w.calls[k].pc.Started?
    requires stored ==> G.Prepare(w.tables, GatewayOf(c, w.calls[k]), w.calls[k].message, w.calls[k].context,
                                  ConsumeFor(w, w.calls[k]), ids, w.now / 1_000_000).1.Failure?
    ensures var v := DoPrepare(c, w, k, ids, stored);
      && k in v.calls && v == At(w, k, w.calls[k].(pc := v.calls[k].pc))
      && (v.calls[k].pc == Done(NotDispatched)
          || (v.calls[k].pc.Done? && v.calls[k].pc.outcome.AlreadyReserved?
              && v.calls[k].pc.outcome.previous in w.tables.operations))
  {
    if stored { PreviousIsReserved(c, w, k, ids); }
  }

  lemma PreviousIsReserved(c: Config, w: World, k: nat, ids: G.Ids)
    requires Known(c, w, k)
    ensures var it := w.calls[k];
      var r := G.Prepare(w.tables, GatewayOf(c, it), it.message, it.context, ConsumeFor(w, it), ids,
                         w.now / 1_000_000).1;
      r.Failure? && r.error.AlreadyReserved? ==> r.error.operation in w.tables.operations
  {
    var it := w.calls[k];
    var draft := G.Draft(GatewayOf(c, it), it.message, it.context, G.ConsumedId(ConsumeFor(w, it)), ids,
                         w.now / 1_000_000);
    if draft.Success? {
      ReservePreviousExists(w.tables, Bundle(draft.value.0, None), draft.value.1, draft.value.2, ConsumeFor(w, it),
                            ids.eventId);
    }
  }

  // -------- The remaining actions --------

  lemma OpenedIsFramed(configured: B.Configured, raw: Dict, identity: A.Identity, policy: Option<string>)
    requires Opened(configured, raw, identity, policy).Some?
    ensures var it := Opened(configured, raw, identity, policy).value;
      && Framed(it) && it.context.server == configured.name
      && it.pc.Started? && it.operation.None? && it.granted.None? && it.sends == 0
  {
    hide B.ExtractApprovalId, B.StripApprovalId, B.BindingOf, B.ArgumentsOf;
  }

  lemma BeginStep(c: Config, w: World, k: nat, next: Call)
    requires Inv(c, w) && k !in w.calls && next.context.server in c.servers && Framed(next)
    requires next.pc.Started? && next.operation.None? && next.granted.None? && next.sends == 0
    ensures Inv(c, At(w, k, next))
  {
    hide GatewayInv, LedgerInv, Framed;
    UpdatedCallsOk(c, w.tables.operations, w.ledger, w.calls, k, next);
    NewcomerRoles(c, w, k, next);
    CallsOnly(c, w, w.calls[k := next]);
  }

  lemma NewcomerRoles(c: Config, w: World, k: nat, next: Call)
    requires CallsInv(c, w) && GrantsInv(c, w) && k !in w.calls && next.operation.None? && next.granted.None?
    ensures var calls := w.calls[k := next];
      && OneOwner(calls) && DispatchesOk(w.dispatched, calls)
      && GrantsOk(c.servers.Keys, w.tables.approvals, calls, w.plains) && DistinctGrants(calls, w.plains)
  {
    hide CallOk, GrantOk;
    assert GrantOk(c.servers.Keys, w.tables.approvals, next) by { NothingGranted(c, w, next); }
    DispatchesStay(w.dispatched, w.calls, w.calls[k := next]);
  }

  lemma NothingGranted(c: Config, w: World, next: Call)
    requires next.granted.None?
    ensures GrantOk(c.servers.Keys, w.tables.approvals, next)
  {
  }

  // The operation of a call that has not sent is not among the dispatched ones.
  lemma NotYetDispatched(c: Config, w: World, k: nat)
    requires CallsInv(c, w) && k in w.calls && w.calls[k].pc.Reserved? && w.calls[k].operation.Some?
    ensures w.calls[k].sends == 0 && w.calls[k].operation.value !in w.dispatched
  {
    OkOf(c, w, k);
    var o := w.calls[k].operation.value;
    forall i | 0 <= i < |w.dispatched| ensures w.dispatched[i] != o {
      assert WasSent(w.calls, w.dispatched[i]);
      var j :| j in w.calls && SentBy(w.calls[j], w.dispatched[i]);
    }
  }

  lemma SentRoles(c: Config, w: World, k: nat)
    requires CallsInv(c, w) && GrantsInv(c, w) && k in w.calls && w.calls[k].pc.Reserved? && w.calls[k].operation.Some?
    ensures var it := w.calls[k]; var calls := w.calls[k := it.(pc := InFlight, sends := it.sends + 1)];
      && CallsOk(c, w.tables.operations, w.ledger, calls) && OneOwner(calls)
      && DispatchesOk(w.dispatched + [it.operation.value], calls)
      && GrantsOk(c.servers.Keys, w.tables.approvals, calls, w.plains) && DistinctGrants(calls, w.plains)
  {
    hide CallOk, GrantOk;
    NotYetDispatched(c, w, k);
    SentIsOk(c, w, k);
    var it := w.calls[k];
    var next := it.(pc := InFlight, sends := it.sends + 1);
    var calls := w.calls[k := next];
    UpdatedCallsOk(c, w.tables.operations, w.ledger, w.calls, k, next);
    DispatchesStay(w.dispatched, w.calls, calls);
    OneMoreDispatch(w.dispatched, calls, k, it.operation.value);
  }

  lemma SentIsOk(c: Config, w: World, k: nat)
    requires CallsInv(c, w) && GrantsInv(c, w) && k in w.calls && w.calls[k].pc.Reserved? && w.calls[k].operation.Some?
    ensures var it := w.calls[k]; var next := it.(pc := InFlight, sends := it.sends + 1);
      CallOk(c, w.tables.operations, w.ledger, next) && GrantOk(c.servers.Keys, w.tables.approvals, next)
  {
    hide B.ContextForMessage, RequestPayload;
    OkOf(c, w, k);
    assert GrantOk(c.servers.Keys, w.tables.approvals, w.calls[k]);
  }

  lemma OneMoreDispatch(dispatched: seq<string>, calls: map<nat, Call>, k: nat, o: string)
    requires DispatchesOk(dispatched, calls) && k in calls && SentBy(calls[k], o) && o !in dispatched
    ensures DispatchesOk(dispatched + [o], calls)
  {
    assert WasSent(calls, o);
  }

  lemma ReleaseKeeps(c: Config, w: World, permit: Permit)
    requires GatewayInv(c, w) && LedgerInv(c, w) && ReservedPermit(w.tables.operations, permit)
    ensures ReleasedHere(w.tables.operations, w.released + {permit}) && Backed(w.ledger, w.released + {permit})
  {
    hide S.ValidTables, MadeHere, Quiet, AllVouched, LookupsOk, ReceiptsAgree, D.ValidLedger;
    forall o | o in w.ledger.operations ensures BackedRow(w.ledger.operations[o], w.released + {permit}) {
      assert BackedRow(w.ledger.operations[o], w.released);
    }
  }

  lemma PermitOfOperation(c: Config, makers: map<string, string>, operations: map<string, Operation>, o: string)
    requires MadeHere(c, makers, operations) && o in operations
    ensures ReservedPermit(operations, operations[o].bundle.permit)
  {
    assert MadeBy(c, makers, o, operations[o].bundle.permit);
  }

  lemma SentShape(c: Config, w: World, k: nat)
    requires k in w.calls && w.calls[k].pc.Reserved? && w.calls[k].operation.Some?
    requires w.calls[k].operation.value in w.tables.operations
    ensures var it := w.calls[k]; var permit := w.tables.operations[it.operation.value].bundle.permit;
      Next(c, w, Send(k))
      == w.(released := w.released + {permit}, dispatched := w.dispatched + [it.operation.value],
            calls := w.calls[k := it.(pc := InFlight, sends := it.sends + 1)])
  {
    hide DoPrepare, DoReadBundle, DoWriteVerdict, DoRespond, DoRecover, Unforged, AuthenticReply, AuthenticLookup,
      D.Admit, D.Commit, D.SignReceipt, G.ReconcileWrite, A.After, A.ConsumeBook, S.Next, Get;
  }

  lemma SendStep(c: Config, w: World, k: nat)
    requires Inv(c, w) && k in w.calls && w.calls[k].pc.Reserved? && w.calls[k].operation.Some?
    requires w.calls[k].operation.value in w.tables.operations
    ensures Inv(c, Next(c, w, Send(k)))
  {
    hide Next, S.ValidTables, Quiet, AllVouched, LookupsOk, ReceiptsAgree, D.ValidLedger, Backed, ReleasedHere, CallOk,
      GrantOk, MadeHere;
    SentShape(c, w, k);
    var it := w.calls[k];
    var permit := w.tables.operations[it.operation.value].bundle.permit;
    PermitOfOperation(c, w.makers, w.tables.operations, it.operation.value);
    ReleaseKeeps(c, w, permit);
    SentRoles(c, w, k);
    ReleasedAndCalls(c, w, w.released + {permit}, w.dispatched + [it.operation.value],
                     w.calls[k := it.(pc := InFlight, sends := it.sends + 1)]);
  }

  lemma ReleasedAndCalls(c: Config, w: World, released: set<Permit>, dispatched: seq<string>, calls: map<nat, Call>)
    requires Inv(c, w) && ReleasedHere(w.tables.operations, released) && Backed(w.ledger, released)
    requires CallsOk(c, w.tables.operations, w.ledger, calls) && OneOwner(calls) && DispatchesOk(dispatched, calls)
    requires GrantsOk(c.servers.Keys, w.tables.approvals, calls, w.plains) && DistinctGrants(calls, w.plains)
    ensures Inv(c, w.(released := released, dispatched := dispatched, calls := calls))
  {
  }

  lemma CommitRowsBacked(ledger: D.Ledger, a: D.Admitted, minted: D.Minted, released: set<Permit>)
    requires Backed(ledger, released) && a.permit in released
    ensures Backed(D.Commit(ledger, a, minted).0, released)
  {
    D.CommitShape(ledger, a, minted);
  }

  lemma CommitStep(c: Config, w: World, message: Dict, minted: D.Minted)
    requires Paired(c) && Inv(c, w) && D.Admit(c.destination, message, w.now / 1_000_000).Success?
    requires Unforged(c, w.released, D.Admit(c.destination, message, w.now / 1_000_000).value.permit)
    ensures Inv(c, w.(ledger := D.Commit(w.ledger, D.Admit(c.destination, message, w.now / 1_000_000).value, minted).0))
  {
    var a := D.Admit(c.destination, message, w.now / 1_000_000).value;
    D.AdmittedMeaning(c.destination, message, w.now / 1_000_000);
    AdmittedWasReleased(c, w.makers, w.tables.operations, w.released, a.permit);
    CommitRowsBacked(w.ledger, a, minted, w.released);
    D.CommitStep(c.destination, w.ledger, a, minted);
    LedgerChange(c, w, D.Commit(w.ledger, a, minted).0);
  }

  lemma SignRowsBacked(ledger: D.Ledger, config: D.Config, o: string, digest: Digest, signs: bool,
                       released: set<Permit>)
    requires Backed(ledger, released)
    ensures Backed(D.SignReceipt(ledger, config, o, digest, signs).0, released)
  {
    D.SignShape(ledger, config, o, digest, signs);
    var after := D.SignReceipt(ledger, config, o, digest, signs).0;
    forall k | k in after.operations ensures BackedRow(after.operations[k], released) {
      assert BackedRow(ledger.operations[k], released);
    }
  }

  lemma SignStep(c: Config, w: World, o: string, digest: Digest, signs: bool)
    requires Inv(c, w)
    ensures Inv(c, w.(ledger := D.SignReceipt(w.ledger, c.destination, o, digest, signs).0))
  {
    D.SignStep(c.destination, w.ledger, o, digest, signs);
    SignRowsBacked(w.ledger, c.destination, o, digest, signs, w.released);
    LedgerChange(c, w, D.SignReceipt(w.ledger, c.destination, o, digest, signs).0);
  }

  lemma StartLookupStep(c: Config, w: World, l: nat, s: string, o: string)
    requires Inv(c, w)
    ensures Inv(c, Next(c, w, StartLookup(l, s, o)))
  {
    hide S.ValidTables, Quiet, AllVouched, LookupsOk, ReceiptsAgree, D.ValidLedger, Backed, ReleasedHere, CallsInv,
      GrantsInv, DoPrepare, DoReadBundle, DoWriteVerdict, DoRespond, DoRecover, Unforged, AuthenticReply,
      AuthenticLookup, D.Admit, D.Commit, D.SignReceipt, G.ReconcileWrite, A.After, A.ConsumeBook, S.Next,
      AppendObservation, Opened, MadeHere;
    if l !in w.lookups && s in c.servers && Get(w.tables, o, c.servers[s].tenant).Success? {
      var permit := Get(w.tables, o, c.servers[s].tenant).value.permit;
      PermitOfOperation(c, w.makers, w.tables.operations, o);
      ReleaseKeeps(c, w, permit);
      NewLookup(c, w, l, Lookup(s, o, permit));
    }
  }

  lemma NewLookup(c: Config, w: World, l: nat, lookup: Lookup)
    requires Inv(c, w) && LookupOk(c, w.tables.operations, lookup)
    requires ReleasedHere(w.tables.operations, w.released + {lookup.permit})
    requires Backed(w.ledger, w.released + {lookup.permit})
    ensures Inv(c, w.(lookups := w.lookups[l := lookup], released := w.released + {lookup.permit}))
  {
  }

  lemma LookupReceiptIsStored(c: Config, w: World, l: nat, answer: Option<Dict>)
    requires Paired(c) && GatewayInv(c, w) && LedgerInv(c, w) && l in w.lookups && w.lookups[l].server in c.servers
    requires AuthenticLookup(c, w.ledger, answer)
    requires G.JudgeLookup(c.servers[w.lookups[l].server], w.lookups[l].permit, answer).Success?
    ensures var it := w.lookups[l];
      Recordable(c, w, it.operation, Some(G.JudgeLookup(c.servers[it.server], it.permit, answer).value.0))
  {
    hide MadeHere, AllVouched, ReceiptsAgree, Quiet, ReleasedHere, S.ValidTables, G.JudgeLookup, VerifyReceipt,
      Verified, D.ValidLedger, Backed;
    var it := w.lookups[l];
    var receipt := G.JudgeLookup(c.servers[it.server], it.permit, answer).value.0;
    assert LookupOk(c, w.tables.operations, it);
    PermitNamesItsOperation(c, w, it.operation);
    LookupReceiptVerifies(c.servers[it.server], it.permit, answer);
    assert Vouched(c, Bundle(it.permit, Some(receipt)));
    if ForDestination(it.permit) {
      VerifiedReceiptIsTheStoredOne(c, w.ledger, c.servers[it.server], it.permit, receipt);
    }
  }

  lemma FinishLookupStep(c: Config, w: World, l: nat, answer: Option<Dict>, eventId: string, conflictId: string)
    requires Paired(c) && Inv(c, w) && l in w.lookups && w.lookups[l].server in c.servers
    requires AuthenticLookup(c, w.ledger, answer)
    ensures var it := w.lookups[l];
      Inv(c, w.(tables := G.ReconcileWrite(w.tables, c.servers[it.server], it.operation, it.permit, answer,
                                           eventId, conflictId).0))
  {
    hide Inv, Record, Recordable, G.JudgeLookup, Paired, G.ReconcileWrite, AuthenticLookup;
    var it := w.lookups[l];
    var g := c.servers[it.server];
    var judged := G.JudgeLookup(g, it.permit, answer);
    ReconcileWritesARecord(w.tables, g, it.operation, it.permit, answer, eventId, conflictId);
    if judged.Success? {
      assert GatewayInv(c, w) && LedgerInv(c, w) by { PartsOfInv(c, w); }
      LookupReceiptIsStored(c, w, l, answer);
      RecordKeeps(c, w, it.operation, g.tenant, Reconciled(judged.value.1), Some(judged.value.0), eventId, conflictId);
    } else {
      assert w.(tables := w.tables) == w;
    }
  }

  lemma ReconcileWritesARecord(t: Tables, g: G.Config, o: string, permit: Permit, answer: Option<Dict>,
                               eventId: string, conflictId: string)
    ensures var judged := G.JudgeLookup(g, permit, answer);
      G.ReconcileWrite(t, g, o, permit, answer, eventId, conflictId).0
      == if judged.Failure? then t
         else Record(t, o, g.tenant, Reconciled(judged.value.1), Some(judged.value.0), eventId, conflictId).0
  {
  }

  lemma ApprovalsKeep(c: Config, w: World, command: A.Command)
    requires Inv(c, w)
    ensures Inv(c, w.(tables := w.tables.(approvals := A.After(w.tables.approvals, command))))
  {
    hide A.After, MadeHere, ReceiptsAgree, ReleasedHere, LookupsOk, LedgerInv, CallsInv, GrantsInv, Quiet, AllVouched;
    S.ApprovalStep(w.tables, command);
    TablesChange(c, w, w.tables.(approvals := A.After(w.tables.approvals, command)), w.makers);
  }

  lemma PlainConsumeStep(c: Config, w: World, p: nat, id: string, context: A.RequestContext, policyId: string)
    requires Inv(c, w)
    ensures Inv(c, Next(c, w, PlainConsume(p, id, context, policyId)))
  {
    hide S.ValidTables, MadeHere, Quiet, AllVouched, LookupsOk, ReceiptsAgree, LedgerInv, ReleasedHere, CallsInv,
      GrantOk, AppendObservation, Opened,
      DoPrepare, DoReadBundle, DoWriteVerdict, DoRespond, DoRecover, Unforged, AuthenticReply, AuthenticLookup,
      D.Admit, D.Commit, D.SignReceipt, G.ReconcileWrite, A.After, S.Next, Get;
    var (approvals, consumed) := A.ConsumeBook(w.tables.approvals, id, context, policyId, w.now);
    if p !in w.plains && context.server !in c.servers && consumed {
      ConsumedElsewhere(c, w, id, context, policyId);
      PlainGrants(c, w, p, id);
      NewPlain(c, w.(tables := w.tables.(approvals := approvals)), w.plains[p := Plain(id, 0)]);
    }
  }

  lemma ConsumedElsewhere(c: Config, w: World, id: string, context: A.RequestContext, policyId: string)
    requires Inv(c, w) && context.server !in c.servers
    requires A.ConsumeBook(w.tables.approvals, id, context, policyId, w.now).1
    ensures var b := A.ConsumeBook(w.tables.approvals, id, context, policyId, w.now).0;
      && Inv(c, w.(tables := w.tables.(approvals := b))) && UsedUp(b, id, false, c.servers.Keys)
      && id in w.tables.approvals && w.tables.approvals[id].status != A.Consumed
  {
    var q := ConsumeRequest(id, context, policyId, w.now);
    S.ConsumeDescends(w.tables.approvals, q);
    var u := w.tables.(approvals := A.ConsumeBook(w.tables.approvals, id, context, policyId, w.now).0);
    S.ApprovalsStep(w.tables, u);
    TablesChange(c, w, u, w.makers);
  }

  lemma PlainGrants(c: Config, w: World, p: nat, id: string)
    requires GrantsInv(c, w) && p !in w.plains && id in w.tables.approvals
    requires w.tables.approvals[id].status != A.Consumed
    ensures DistinctGrants(w.calls, w.plains[p := Plain(id, 0)])
  {
    forall j | j in w.plains ensures w.plains[j].granted != id {
      assert UsedUp(w.tables.approvals, w.plains[j].granted, false, c.servers.Keys);
    }
  }

  lemma NewPlain(c: Config, w: World, plains: map<nat, Plain>)
    requires Inv(c, w) && DistinctGrants(w.calls, plains)
    requires forall k | k in plains ::
               UsedUp(w.tables.approvals, plains[k].granted, false, c.servers.Keys) && plains[k].sends <= 1
    ensures Inv(c, w.(plains := plains))
  {
  }

  lemma PlainSendStep(c: Config, w: World, p: nat)
    requires Inv(c, w)
    ensures Inv(c, Next(c, w, PlainSend(p)))
  {
    hide S.ValidTables, MadeHere, Quiet, AllVouched, ReleasedHere, LookupsOk, ReceiptsAgree, D.ValidLedger, Backed,
      CallOk, CallsInv, GrantOk, AppendObservation, Opened,
      DoPrepare, DoReadBundle, DoWriteVerdict, DoRespond, DoRecover, Unforged, AuthenticReply, AuthenticLookup,
      D.Admit, D.Commit, D.SignReceipt, G.ReconcileWrite, A.After, A.ConsumeBook, S.Next, Get;
    if p in w.plains && w.plains[p].sends == 0 {
      NewPlain(c, w, w.plains[p := w.plains[p].(sends := 1)]);
    }
  }

  lemma DeliverStep(c: Config, w: World, batch: set<nat>)
    requires Inv(c, w)
    ensures Inv(c, w.(tables := S.Next(w.tables, S.DoDeliver(batch))))
  {
    hide S.ValidTables, S.Advances, LedgerInv, CallsInv, GrantsInv, MadeHere, AllVouched, ReceiptsAgree, ReleasedHere,
      LookupsOk;
    var u := S.Next(w.tables, S.DoDeliver(batch));
    S.DeliverStep(w.tables, batch);
    forall o | HasConflict(u.events, o) ensures HasConflict(w.tables.events, o) {
      var i :| 0 <= i < |u.events| && u.events[i].operation == o && u.events[i].phase == ConflictingReceipt;
      assert w.tables.events[i].operation == o && w.tables.events[i].phase == ConflictingReceipt;
    }
    TablesChange(c, w, u, w.makers);
  }

  // An observer's report touches neither permits nor receipts.
  lemma ReportStep(c: Config, w: World, o: string, tenant: string, document: SignedObservation, eventId: string)
    requires Inv(c, w)
    ensures Inv(c, w.(tables := AppendObservation(w.tables, o, tenant, document, eventId).0))
  {
    hide AppendObservation, S.ValidTables, S.Advances, LedgerInv, CallsInv, GrantsInv, MadeHere, Quiet, AllVouched,
      ReceiptsAgree, ReleasedHere, LookupsOk;
    S.AppendShape(w.tables, o, tenant, document, eventId);
    S.AppendStep(w.tables, o, tenant, document, eventId);
    var u := AppendObservation(w.tables, o, tenant, document, eventId).0;
    QuietAfter(w.tables.operations, w.tables.events,
      Event(eventId, o, ExternalCheckRecorded(ObservationDigest(document), document.payload.result), false));
    TablesChange(c, w, u, w.makers);
  }

  lemma PassFits(c: Config, w: World, a: Action)
    requires CallsInv(c, w) && (a.Receive? || a.Finish? || a.Raise? || a.Crash?) && Next(c, w, a) != w
    ensures var v := Next(c, w, a);
      && a.call in w.calls && a.call in v.calls
      && v == At(w, a.call, w.calls[a.call].(pc := v.calls[a.call].pc))
      && Fits(c, w.tables.operations, w.ledger, w.calls[a.call], v.calls[a.call].pc)
  {
    hide DoPrepare, DoReadBundle, DoWriteVerdict, DoRespond, DoRecover, Unforged, AuthenticLookup, AuthenticReply,
      D.Admit, D.Commit, D.SignReceipt, G.ReconcileWrite, A.After, A.ConsumeBook, S.Next, Get, Acceptable, Framed,
      Carries, AppendObservation, Opened;
    OkOf(c, w, a.call);
  }

  lemma PassStep(c: Config, w: World, a: Action)
    requires Inv(c, w) && (a.Receive? || a.Finish? || a.Raise? || a.Crash?)
    ensures Inv(c, Next(c, w, a))
  {
    hide Inv, Next, CallsInv, Fits;
    PartsOfInv(c, w);
    if Next(c, w, a) != w {
      PassFits(c, w, a);
      Move(c, w, a.call, Next(c, w, a).calls[a.call].pc);
    }
  }

  lemma TickStep(c: Config, w: World, later: Moment)
    requires Inv(c, w)
    ensures Inv(c, w.(now := later))
  {
  }

  // Every action keeps the invariant.
  lemma CallStep(c: Config, w: World, a: Action)
    requires Paired(c) && Inv(c, w)
    requires a.Begin? || a.Prepare? || a.Send? || a.ReadBundle? || a.WriteVerdict? || a.Respond? || a.Recover?
    ensures Inv(c, Next(c, w, a))
  {
    hide Inv, Paired, CallOk,
      DoPrepare, DoReadBundle, DoWriteVerdict, DoRespond, DoRecover, Unforged, AuthenticReply, AuthenticLookup,
      D.Admit, D.Commit, D.SignReceipt, G.ReconcileWrite, A.After, A.ConsumeBook, S.Next, Get, AppendObservation,
      Opened, Framed;
    if Next(c, w, a) != w {
      match a
      case Begin(k, configured, raw, identity, policy) =>
        OpenedIsFramed(configured, raw, identity, policy);
        BeginStep(c, w, k, Opened(configured, raw, identity, policy).value);
      case Prepare(k, ids, stored) => PrepareStep(c, w, k, ids, stored);
      case Send(k) => SendStep(c, w, k);
      case ReadBundle(k) => ReadBundleStep(c, w, k);
      case WriteVerdict(k, nonce, eventId, conflictId) => WriteVerdictStep(c, w, k, nonce, eventId, conflictId);
      case Respond(k, response, eventId, conflictId) => RespondStep(c, w, k, response, eventId, conflictId);
      case Recover(k, stored, eventId, conflictId) => RecoverStep(c, w, k, stored, eventId, conflictId);
    }
  }

  lemma Step(c: Config, w: World, a: Action)
    requires Paired(c) && Inv(c, w)
    ensures Inv(c, Next(c, w, a))
  {
    hide Inv, Paired,
      DoPrepare, DoReadBundle, DoWriteVerdict, DoRespond, DoRecover, Unforged, AuthenticReply, AuthenticLookup,
      D.Admit, D.Commit, D.SignReceipt, G.ReconcileWrite, A.After, A.ConsumeBook, S.Next, Get, AppendObservation,
      Opened;
    if Next(c, w, a) != w {
      match a
      case Commit(message, minted) => CommitStep(c, w, message, minted);
      case SignMaterial(o, digest, signs) => SignStep(c, w, o, digest, signs);
      case StartLookup(l, s, o) => StartLookupStep(c, w, l, s, o);
      case FinishLookup(l, answer, eventId, conflictId) => FinishLookupStep(c, w, l, answer, eventId, conflictId);
      case Approve(command) => ApprovalsKeep(c, w, command);
      case PlainConsume(p, id, context, policyId) => PlainConsumeStep(c, w, p, id, context, policyId);
      case PlainSend(p) => PlainSendStep(c, w, p);
      case Deliver(batch) => DeliverStep(c, w, batch);
      case Report(o, tenant, document, eventId) => ReportStep(c, w, o, tenant, document, eventId);
      case Tick(later) => TickStep(c, w, later);
      case Receive(_, _) => PassStep(c, w, a);
      case Finish(_) => PassStep(c, w, a);
      case Raise(_) => PassStep(c, w, a);
      case Crash(_) => PassStep(c, w, a);
      case _ => CallStep(c, w, a);
    }
  }

  lemma {:induction false} RunIsSafe(c: Config, actions: seq<Action>)
    requires Paired(c)
    ensures Inv(c, Run(c, START, actions))
  {
    hide Inv, Next, Paired;
    if actions == [] {
      StartIsSafe(c);
    } else {
      RunIsSafe(c, actions[..|actions| - 1]);
      Step(c, Run(c, START, actions[..|actions| - 1]), actions[|actions| - 1]);
    }
  }
}
