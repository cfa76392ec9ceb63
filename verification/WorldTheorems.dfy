// What the invariant means for clients, operators and auditors, in every reachable state.
module WorldTheorems {
  import opened Wrappers
  import opened Documents
  import opened Protocol
  import opened Verify
  import opened Store
  import opened World
  import opened WorldSafety
  import opened WorldSteps
  import A = Approvals
  import D = Destination
  import G = Runtime
  import S = StoreSafety

  // -------- At most once --------

  lemma RefundIsReserved(c: Config, w: World, o: string)
    requires Inv(c, w) && o in w.ledger.refunds
    ensures o in w.ledger.operations && o in w.tables.operations
    ensures ForDestination(w.tables.operations[o].bundle.permit)
    ensures w.ledger.operations[o].permitDigest == AttemptDigest(w.tables.operations[o].bundle.permit)
    ensures D.AmountCommitted(w.tables.operations[o].bundle.permit) == Success(w.ledger.refunds[o])
  {
    var row := w.ledger.operations[o];
    assert BackedRow(row, w.released);
    assert D.ValidRow(c.destination, o, row, w.ledger.refunds[o]);
    assert ReservedPermit(w.tables.operations, row.permitDigest.permit);
  }

  // One idempotency scope never causes two refunds: a scope owns one operation, an operation one
  // row, and the row has the amount of the request its permit commits to.
  lemma AtMostOneRefundPerScope(c: Config, actions: seq<Action>, a: string, b: string)
    requires Paired(c)
    requires var w := Run(c, START, actions); a in w.ledger.refunds && b in w.ledger.refunds
    ensures var w := Run(c, START, actions);
      && w.ledger.refunds.Keys == w.ledger.operations.Keys
      && a in w.tables.operations && b in w.tables.operations
      && (w.tables.operations[a].scope == w.tables.operations[b].scope ==> a == b)
      && D.AmountCommitted(w.tables.operations[a].bundle.permit) == Success(w.ledger.refunds[a])
  {
    hide Run, Next;
    var w := Run(c, START, actions);
    RunIsSafe(c, actions);
    RefundIsReserved(c, w, a);
    RefundIsReserved(c, w, b);
    assert S.ValidOperation(w.tables, a) && S.ValidOperation(w.tables, b);
  }

  // -------- Agreement across crashes and lost replies --------

  // A stored receipt of an operation at the destination always says "committed", and it is backed
  // by a ledger row.
  lemma StoredReceiptIsTrue(c: Config, actions: seq<Action>, o: string)
    requires Paired(c)
    requires var w := Run(c, START, actions);
      o in w.tables.operations && ForDestination(w.tables.operations[o].bundle.permit)
      && w.tables.operations[o].bundle.receipt.Some?
    ensures var w := Run(c, START, actions); var r := w.tables.operations[o].bundle.receipt.value.payload;
      && r.effect == Committed && r.transactionRef == Some(o) && r.operationId == o
      && o in w.ledger.refunds
      && D.AmountCommitted(w.tables.operations[o].bundle.permit) == Success(w.ledger.refunds[o])
  {
    hide Run, Next;
    var w := Run(c, START, actions);
    RunIsSafe(c, actions);
    assert Agrees(o, w.tables.operations[o].bundle, w.ledger);
    assert LedgerHas(w.ledger, o, w.tables.operations[o].bundle.receipt.value);
    assert D.ValidRow(c.destination, o, w.ledger.operations[o], w.ledger.refunds[o]);
    RefundIsReserved(c, w, o);
  }

  // The destination's answer to the gateway's lookup, as it arrives, and the ledger it leaves.
  function AnswerLookup(c: Config, ledger: D.Ledger, permit: Permit, id: string): (D.Ledger, Option<Dict>) {
    var (after, answer) := D.AnswerLookup(c.destination, ledger, G.LookupRequest(permit, id), true);
    (after, if answer.Reply? then Some(answer.message) else Some(map["error" := Obj(map["code" := Num(-32060)])]))
  }

  // What `reconcile` sends is taken for a lookup, whenever it arrives.
  lemma LookupArrivesAsOne(config: D.Config, ledger: D.Ledger, permit: Permit, id: string, now: int, minted: D.Minted,
                           survives: bool, signs: bool)
    ensures D.Respond(config, ledger, G.LookupRequest(permit, id), now, minted, survives, signs)
         == D.AnswerLookup(config, ledger, G.LookupRequest(permit, id), signs)
  {
    hide D.AnswerLookup, D.Handle;
    var name := LOOKUP;
    assert |"notifications/initialized"| != |name| && |"initialize"| != |name| && |"tools/list"| != |name|;
    assert "method" in G.LookupRequest(permit, id) && G.LookupRequest(permit, id)["method"] == Str(LOOKUP);
  }

  lemma LookupFindsPermit(c: Config, permit: Permit, id: string)
    ensures var m := G.LookupRequest(permit, id);
      D.LookupPermit(c.destination, m)
      == match VerifyPermit(permit, c.destination.trust, None)
         case Failure(e) => Failure(e)
         case Success(auth) => if D.AudienceAllowed(auth) then Success(permit) else Failure(WrongDestination)
  {
    assert "params" != "method" && "params" != "jsonrpc" && "params" != "id" by {
      DistinctKeys();
      assert |"params"| != |"jsonrpc"|;
    }
    assert "params" in G.LookupRequest(permit, id);
  }

  lemma PermitYieldsItsAuthorization(permit: Permit, trust: TrustStore)
    ensures VerifyPermit(permit, trust, None).Success? ==>
              VerifyPermit(permit, trust, None) == Success(permit.authorization.payload)
  {
  }

  lemma RowOfPermit(c: Config, ledger: D.Ledger, o: string, permit: Permit)
    requires D.ValidLedger(c.destination, ledger) && o in ledger.operations
    requires ledger.operations[o].permitDigest == AttemptDigest(permit)
    ensures var row := ledger.operations[o];
      && permit.authorization.payload.operationId == o && D.AudienceAllowed(permit.authorization.payload)
      && VerifyPermit(permit, c.destination.trust, None) == Success(permit.authorization.payload)
      && (row.receipt.Some? ==>
            row.receipt.value == Sign(row.material, ReceiptKind, c.destination.kid, c.destination.publicKey))
      && row.material.recordedAt >= 0
      && row.material == D.Material(permit, D.ResponseOf(row.response),
                           D.Minted(row.material.responseNonce, row.material.receiptId, row.material.recordedAt))
  {
    hide VerifyPermit, D.Material, D.ResponseOf, D.AmountCommitted, D.RefundResponse, D.AudienceAllowed, Sign;
    assert D.ValidRow(c.destination, o, ledger.operations[o], ledger.refunds[o]);
    PermitYieldsItsAuthorization(permit, c.destination.trust);
  }

  lemma StoredRowAnswers(c: Config, ledger: D.Ledger, o: string, permit: Permit, id: string)
    requires D.ValidLedger(c.destination, ledger) && o in ledger.operations
    requires ledger.operations[o].permitDigest == AttemptDigest(permit)
    ensures var (after, answer) := AnswerLookup(c, ledger, permit, id);
      && after.refunds == ledger.refunds
      && answer == Some(map["result" := Obj(map["receipt" := ReceiptDoc(
                     Sign(ledger.operations[o].material, ReceiptKind, c.destination.kid, c.destination.publicKey))])])
  {
    hide VerifyPermit, D.LookupPermit, D.Material, D.ResponseOf;
    LookupFindsPermit(c, permit, id);
    RowOfPermit(c, ledger, o, permit);
  }

  lemma MissingRowAnswers(c: Config, ledger: D.Ledger, permit: Permit, id: string)
    requires permit.authorization.payload.operationId !in ledger.operations
    ensures AnswerLookup(c, ledger, permit, id) == (ledger, Some(map["error" := Obj(map["code" := Num(-32060)])]))
  {
    LookupFindsPermit(c, permit, id);
  }

  lemma LedgerReceiptVerifies(c: Config, g: G.Config, ledger: D.Ledger, o: string, permit: Permit)
    requires ReadyToServe(c, g) && KnowsDestination(c, g) && Served(g) && GatewayPermit(g, o, permit)
    requires D.ValidLedger(c.destination, ledger) && o in ledger.operations
    requires ledger.operations[o].permitDigest == AttemptDigest(permit)
    ensures var r := Sign(ledger.operations[o].material, ReceiptKind, c.destination.kid, c.destination.publicKey);
      && VerifyReceipt(permit, r, g.trust, None) == Success(false) && r.payload.effect == Committed
      && r.payload.scope == g.scope
  {
    RowOfPermit(c, ledger, o, permit);
    MaterialVerifies(c, g, o, permit, ledger.operations[o].material);
  }

  lemma MaterialVerifies(c: Config, g: G.Config, o: string, permit: Permit, material: Receipt)
    requires ReadyToServe(c, g) && KnowsDestination(c, g) && Served(g)
    requires GatewayPermit(g, o, permit) && material.recordedAt >= 0 && o != ""
    requires material == Receipt(g.destination, g.issuer, g.tenant, o,
      permit.authorization.payload.authorizationId, permit.attempt.payload.attemptId, material.receiptId,
      AttemptDigest(permit), permit.authorization.payload.requestDigest, material.responseDigest,
      material.responseNonce, Committed, D.SCOPE, Some(o), 1, material.recordedAt)
    ensures var r := Sign(material, ReceiptKind, c.destination.kid, c.destination.publicKey);
      VerifyReceipt(permit, r, g.trust, None) == Success(false)
  {
    hide VerifyPermit;
    assert material.effect == Committed;
  }

  lemma CommittedAnswerIsAccepted(g: G.Config, o: string, permit: Permit, receipt: SignedReceipt)
    requires GatewayPermit(g, o, permit)
    requires VerifyReceipt(permit, receipt, g.trust, None) == Success(false)
    requires receipt.payload.effect == Committed && receipt.payload.scope == g.scope
    ensures var j := G.JudgeLookup(g, permit, Some(map["result" := Obj(map["receipt" := ReceiptDoc(receipt)])]));
      && j.Success? && j.value.0 == receipt && j.value.1.rejection.None?
      && j.value.1.claim == DestinationCommitAttested && j.value.1.effect == Some(Committed)
  {
  }

  // The configuration an operation was reserved under.
  function MakerOf(c: Config, w: World, o: string): G.Config
    requires o in w.makers && w.makers[o] in c.servers
  {
    c.servers[w.makers[o]]
  }

  // An undisturbed reconciliation establishes "committed" exactly when the refund is in the
  // ledger - after a crash before signing, a lost reply, or a reply that was never sent - and it
  // never adds a refund.
  lemma ReconcileTellsTheTruth(c: Config, actions: seq<Action>, o: string, id: string, eventId: string,
                               conflictId: string)
    requires Paired(c) && o in Run(c, START, actions).tables.operations
    requires ForDestination(Run(c, START, actions).tables.operations[o].bundle.permit)
    requires !EventIdUsed(Run(c, START, actions).tables.events, eventId)
    ensures var w := Run(c, START, actions);
      && o in w.makers && w.makers[o] in c.servers
      && var g := MakerOf(c, w, o);
      var bundle := w.tables.operations[o].bundle;
      var (ledger, answer) := AnswerLookup(c, w.ledger, bundle.permit, id);
      var (tables, r) := G.ReconcileWrite(w.tables, g, o, bundle.permit, answer, eventId, conflictId);
      && Get(w.tables, o, g.tenant) == Success(bundle)
      && ledger.refunds == w.ledger.refunds
      && (r.Success? <==> o in w.ledger.refunds)
      && (r.Success? ==> r.value.claim == DestinationCommitAttested && r.value.effect == Some(Committed)
                         && o in tables.operations && tables.operations[o].bundle.receipt.Some?)
      && (r.Failure? ==> r.error == ReconciliationUnknown && tables == w.tables)
  {
    hide Run, Next, AnswerLookup, G.ReconcileWrite, Paired;
    var w := Run(c, START, actions);
    RunIsSafe(c, actions);
    OperationIsReadable(c, w, o);
    if o in w.ledger.refunds {
      CommittedReconciles(c, w, o, id, eventId, conflictId);
    } else {
      MissingReconciles(c, w, o, id, eventId, conflictId);
    }
  }

  lemma MissingReconciles(c: Config, w: World, o: string, id: string, eventId: string, conflictId: string)
    requires Inv(c, w) && o !in w.ledger.refunds && o in w.tables.operations
    requires o in w.makers && w.makers[o] in c.servers
    ensures var permit := w.tables.operations[o].bundle.permit;
      var (ledger, answer) := AnswerLookup(c, w.ledger, permit, id);
      ledger == w.ledger
      && G.ReconcileWrite(w.tables, MakerOf(c, w, o), o, permit, answer, eventId, conflictId)
         == (w.tables, Failure(ReconciliationUnknown))
  {
    hide AnswerLookup, GatewayInv, CallsInv, GrantsInv, Record;
    PermitNamesItsOperation(c, w, o);
    MissingRowAnswers(c, w.ledger, w.tables.operations[o].bundle.permit, id);
    var answer := AnswerLookup(c, w.ledger, w.tables.operations[o].bundle.permit, id).1;
    assert "result" !in answer.value by { DistinctKeys(); }
  }

  lemma OperationIsReadable(c: Config, w: World, o: string)
    requires Inv(c, w) && o in w.tables.operations && ForDestination(w.tables.operations[o].bundle.permit)
    ensures MadeBy(c, w.makers, o, w.tables.operations[o].bundle.permit) && Served(MakerOf(c, w, o))
    ensures Get(w.tables, o, MakerOf(c, w, o).tenant) == Success(w.tables.operations[o].bundle)
    ensures Owned(w.tables, o, MakerOf(c, w, o).tenant)
  {
    hide LedgerInv, CallsInv, GrantsInv, AllVouched, ReceiptsAgree, ReleasedHere, LookupsOk, VerifyPermit;
    assert S.ValidOperation(w.tables, o);
    PermitNamesItsOperation(c, w, o);
    assert !HasConflict(w.tables.events, o);
  }

  lemma CommittedReconciles(c: Config, w: World, o: string, id: string, eventId: string, conflictId: string)
    requires Paired(c) && Inv(c, w) && o in w.ledger.refunds && o in w.tables.operations
    requires o in w.makers && w.makers[o] in c.servers
    requires !EventIdUsed(w.tables.events, eventId)
    ensures var permit := w.tables.operations[o].bundle.permit;
      var (ledger, answer) := AnswerLookup(c, w.ledger, permit, id);
      var (tables, r) := G.ReconcileWrite(w.tables, MakerOf(c, w, o), o, permit, answer, eventId, conflictId);
      && ledger.refunds == w.ledger.refunds && r.Success?
      && r.value.claim == DestinationCommitAttested && r.value.effect == Some(Committed)
      && o in tables.operations && tables.operations[o].bundle.receipt.Some?
  {
    hide AnswerLookup, G.JudgeLookup, Record, VerifyReceipt, GatewayInv, CallsInv, GrantsInv, Backed, GatewayPermit,
      ReadyToServe, KnowsDestination, G.ValidConfig;
    var permit := w.tables.operations[o].bundle.permit;
    RefundIsReserved(c, w, o);
    OperationIsReadable(c, w, o);
    var g := MakerOf(c, w, o);
    StoredRowAnswers(c, w.ledger, o, permit, id);
    LedgerReceiptVerifies(c, g, w.ledger, o, permit);
    var receipt := Sign(w.ledger.operations[o].material, ReceiptKind, c.destination.kid, c.destination.publicKey);
    CommittedAnswerIsAccepted(g, o, permit, receipt);
    var answer := AnswerLookup(c, w.ledger, permit, id).1;
    var judged := G.JudgeLookup(g, permit, answer);
    LedgerReceiptDoesNotConflict(c, w, o, receipt);
    RecordsWithoutConflict(w.tables, o, g.tenant, Reconciled(judged.value.1), receipt, eventId, conflictId);
  }

  // Whatever receipt is stored is the one the destination would give again.
  lemma LedgerReceiptDoesNotConflict(c: Config, w: World, o: string, receipt: SignedReceipt)
    requires Inv(c, w) && o in w.ledger.operations && o in w.tables.operations
    requires receipt == Sign(w.ledger.operations[o].material, ReceiptKind, c.destination.kid, c.destination.publicKey)
    ensures !Conflicts(w.tables.operations[o].bundle.receipt, receipt)
  {
    RefundIsReserved(c, w, o);
    if w.tables.operations[o].bundle.receipt.Some? {
      assert Agrees(o, w.tables.operations[o].bundle, w.ledger);
      assert LedgerHas(w.ledger, o, w.tables.operations[o].bundle.receipt.value);
      assert D.ValidRow(c.destination, o, w.ledger.operations[o], w.ledger.refunds[o]);
    }
  }

  lemma RecordsWithoutConflict(t: Tables, o: string, tenant: string, phase: Phase, receipt: SignedReceipt,
                               eventId: string, conflictId: string)
    requires Owned(t, o, tenant) && !Conflicts(t.operations[o].bundle.receipt, receipt)
    requires !EventIdUsed(t.events, eventId)
    ensures var (u, r) := Record(t, o, tenant, phase, Some(receipt), eventId, conflictId);
      r.Success? && o in u.operations && u.operations[o].bundle.receipt == Some(receipt)
  {
  }

  // -------- No false conflicts --------

  // With a destination that keeps one receipt per operation, no interleaving of observing and
  // reconciling ever records a conflict for an operation there.
  lemma NoFalseConflicts(c: Config, actions: seq<Action>, o: string, tenant: string)
    requires Paired(c)
    requires var operations := Run(c, START, actions).tables.operations;
      o in operations ==> ForDestination(operations[o].bundle.permit)
    ensures !HasConflict(Run(c, START, actions).tables.events, o)
    ensures Get(Run(c, START, actions).tables, o, tenant) != Failure(ReceiptConflict)
  {
    hide Run, Next;
    RunIsSafe(c, actions);
  }

  // -------- Truthful outcomes --------

  // What the client is told is so: a normal answer follows exactly one dispatch by this call;
  // "unknown" has a durable reservation with its intent and at most one dispatch; "not dispatched"
  // and "already reserved" mean that this call reserved and sent nothing.
  lemma OutcomesAreTruthful(c: Config, actions: seq<Action>, k: nat)
    requires Paired(c)
    requires var w := Run(c, START, actions); k in w.calls && w.calls[k].pc.Done?
    ensures var w := Run(c, START, actions); var it := w.calls[k];
      match it.pc.outcome
      case Normal(_) => it.sends == 1 && it.operation.Some? && Durable(w.tables, it.operation.value)
      case Unknown(o) => it.sends <= 1 && it.operation == Some(o) && Durable(w.tables, o)
      case NotDispatched => it.sends == 0 && it.operation.None? && it.granted.None?
      case AlreadyReserved(previous) =>
        it.sends == 0 && it.operation.None? && it.granted.None? && Durable(w.tables, previous)
      case Vanished => it.sends <= 1
  {
    hide Run, Next;
    var w := Run(c, START, actions);
    RunIsSafe(c, actions);
    OkOf(c, w, k);
    if w.calls[k].operation.Some? { assert S.ValidOperation(w.tables, w.calls[k].operation.value); }
    if w.calls[k].pc.outcome.AlreadyReserved? { assert S.ValidOperation(w.tables, w.calls[k].pc.outcome.previous); }
  }

  // Reserved in the database, with its dispatch_intent event.
  predicate Durable(t: Tables, o: string) {
    o in t.operations && S.HasIntent(t.events, o)
  }

  // The action that gives a refusal touches nothing but the call's own state.
  lemma RefusalChangesNothing(c: Config, w: World, k: nat, ids: G.Ids, stored: bool)
    requires Paired(c) && Inv(c, w) && k in w.calls && w.calls[k].pc.Started?
    requires var v := Next(c, w, Prepare(k, ids, stored)); k in v.calls && v.calls[k].pc.Done?
    ensures var v := Next(c, w, Prepare(k, ids, stored));
      k in v.calls && v == w.(calls := w.calls[k := w.calls[k].(pc := v.calls[k].pc)])
  {
    hide Inv, Paired, G.Prepare, DoReadBundle, DoWriteVerdict, DoRespond, DoRecover, Unforged, AuthenticReply,
      AuthenticLookup, D.Admit, D.Commit, D.SignReceipt, G.ReconcileWrite, A.After, A.ConsumeBook, S.Next, Get,
      AppendObservation, Opened;
    if Known(c, w, k) && stored && ids.operationId !in w.tables.operations {
      var it := w.calls[k];
      var r := G.Prepare(w.tables, GatewayOf(c, it), it.message, it.context, ConsumeFor(w, it), ids,
                         w.now / 1_000_000).1;
      if r.Failure? { RefusedStep(c, w, k, ids, stored); }
    }
  }

  // Every dispatch finds its dispatch_intent already committed, and no operation is dispatched twice.
  lemma DispatchFollowsIntent(c: Config, actions: seq<Action>, k: nat)
    requires Paired(c)
    ensures var w := Run(c, START, actions); var v := Next(c, w, Send(k));
      && (forall i, j | 0 <= i < j < |v.dispatched| :: v.dispatched[i] != v.dispatched[j])
      && (v.dispatched == w.dispatched
          || (exists o :: v.dispatched == w.dispatched + [o] && Durable(w.tables, o)))
  {
    hide Run, Next;
    var w := Run(c, START, actions);
    RunIsSafe(c, actions);
    SendKeeps(c, w, k);
  }

  lemma SendKeeps(c: Config, w: World, k: nat)
    requires Paired(c) && Inv(c, w)
    ensures var v := Next(c, w, Send(k));
      && (forall i, j | 0 <= i < j < |v.dispatched| :: v.dispatched[i] != v.dispatched[j])
      && (v.dispatched == w.dispatched
          || (exists o :: v.dispatched == w.dispatched + [o] && Durable(w.tables, o)))
  {
    Step(c, w, Send(k));
    var v := Next(c, w, Send(k));
    if v.dispatched != w.dispatched {
      var o := w.calls[k].operation.value;
      assert S.ValidOperation(w.tables, o);
      assert v.dispatched == w.dispatched + [o] && Durable(w.tables, o);
    }
  }

  // -------- One approval, one dispatch --------

  // Over all evidence and plain servers together, an approval lets at most one call through, and that
  // call dispatches at most once.
  lemma OneDispatchPerApproval(c: Config, actions: seq<Action>, id: string)
    requires Paired(c)
    ensures var w := Run(c, START, actions);
      && (forall j, k | j in w.calls && k in w.calls && w.calls[j].granted == Some(id) == w.calls[k].granted :: j == k)
      && (forall j, k | j in w.plains && k in w.plains && w.plains[j].granted == id == w.plains[k].granted :: j == k)
      && (forall j, k | j in w.calls && k in w.plains :: !(w.calls[j].granted == Some(id) && w.plains[k].granted == id))
      && (forall k | k in w.calls :: w.calls[k].sends <= 1)
      && (forall k | k in w.plains :: w.plains[k].sends <= 1)
  {
    hide Run, Next, Inv, GrantsInv, CallsInv, DistinctGrants;
    var w := Run(c, START, actions);
    RunIsSafe(c, actions);
    PartsOfInv(c, w);
    GrantsAreApart(c, w, id);
    forall k | k in w.calls ensures w.calls[k].sends <= 1 { SendsFacts(c, w, k); }
  }

  lemma GrantsAreApart(c: Config, w: World, id: string)
    requires GrantsInv(c, w)
    ensures forall j, k | j in w.calls && k in w.calls && w.calls[j].granted == Some(id) == w.calls[k].granted :: j == k
    ensures forall j, k | j in w.plains && k in w.plains && w.plains[j].granted == id == w.plains[k].granted :: j == k
    ensures forall j, k | j in w.calls && k in w.plains ::
      !(w.calls[j].granted == Some(id) && w.plains[k].granted == id)
    ensures forall k | k in w.plains :: w.plains[k].sends <= 1
  {
    forall j, k | j in w.calls && k in w.plains
      ensures !(w.calls[j].granted == Some(id) && w.plains[k].granted == id)
    {
      assert GrantOk(c.servers.Keys, w.tables.approvals, w.calls[j]);
      assert UsedUp(w.tables.approvals, w.plains[k].granted, false, c.servers.Keys);
    }
  }
}
