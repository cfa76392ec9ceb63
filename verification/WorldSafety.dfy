// The inductive invariant of the whole system, kept by every action of every run.
module WorldSafety {
  import opened Wrappers
  import opened Documents
  import opened Protocol
  import opened Verify
  import opened Store
  import opened World
  import A = Approvals
  import B = RequestBinding
  import R = Review
  import D = Destination
  import G = Runtime
  import S = StoreSafety

  // -------- The parts of the invariant --------

  // A permit that evidence configuration made for operation `o`.
  predicate GatewayPermit(g: G.Config, o: string, permit: Permit) {
    var auth := permit.authorization.payload;
    && auth.operationId == o && (auth.issuer, auth.audience, auth.tenant) == (g.issuer, g.destination, g.tenant)
    && permit.attempt.payload.authorizationDigest == AuthorizationDigest(permit.authorization)
    && VerifyPermit(permit, g.trust, None).Success?
  }

  predicate MadeBy(c: Config, makers: map<string, string>, o: string, permit: Permit) {
    o in makers && makers[o] in c.servers && GatewayPermit(c.servers[makers[o]], o, permit)
  }

  predicate MadeHere(c: Config, makers: map<string, string>, operations: map<string, Operation>) {
    forall o | o in operations :: MadeBy(c, makers, o, operations[o].bundle.permit)
  }

  // A bundle that verifies under some trust store of the gateway.
  predicate Verified(g: G.Config, bundle: Bundle) {
    VerifyBundle(bundle.permit, StoredReceipt(bundle), g.trust, None, None).rejection.None?
  }

  predicate Vouched(c: Config, bundle: Bundle) {
    exists s :: s in c.servers && Verified(c.servers[s], bundle)
  }

  predicate AllVouched(c: Config, operations: map<string, Operation>) {
    forall o | o in operations :: Vouched(c, operations[o].bundle)
  }

  predicate ReservedPermit(operations: map<string, Operation>, p: Permit) {
    var o := p.authorization.payload.operationId;
    o in operations && operations[o].bundle.permit == p
  }

  predicate ReleasedHere(operations: map<string, Operation>, released: set<Permit>) {
    forall p | p in released :: ReservedPermit(operations, p)
  }

  predicate BackedRow(row: D.LedgerRow, released: set<Permit>) {
    row.permitDigest.AttemptDigest? && row.permitDigest.permit in released
  }

  predicate Backed(ledger: D.Ledger, released: set<Permit>) {
    forall o | o in ledger.operations :: BackedRow(ledger.operations[o], released)
  }

  predicate LedgerHas(ledger: D.Ledger, o: string, receipt: SignedReceipt) {
    o in ledger.operations && ledger.operations[o].receipt == Some(receipt)
  }

  // The receipt of an operation at the reference destination is the one in its ledger.
  predicate Agrees(o: string, bundle: Bundle, ledger: D.Ledger) {
    ForDestination(bundle.permit) && bundle.receipt.Some? ==> LedgerHas(ledger, o, bundle.receipt.value)
  }

  predicate ReceiptsAgree(operations: map<string, Operation>, ledger: D.Ledger) {
    forall o | o in operations :: Agrees(o, operations[o].bundle, ledger)
  }

  // Conflicts only concern operations at other destinations.
  ghost predicate Quiet(operations: map<string, Operation>, events: seq<Event>) {
    forall o | HasConflict(events, o) :: o in operations && !ForDestination(operations[o].bundle.permit)
  }

  // How a call stands to the request it came from.
  predicate Framed(call: Call) {
    && B.ContextForMessage(call.configured, call.raw, call.context.identity) == Some(call.context)
    && B.Get(call.raw, "method", Null) == Str("tools/call")
    && call.message == (if call.approval.Some? then B.StripApprovalId(call.raw) else call.raw)
    && (call.approval.Some? ==> B.ExtractApprovalId(call.raw) == Some(call.approval.value.0))
  }

  // A permit commits to what its call forwards, and to the approval the call consumed.
  predicate Carries(permit: Permit, call: Call) {
    var auth := permit.authorization.payload;
    && RequestPayload(call.message).Success?
    && auth.requestDigest == RequestDigest(RequestPayload(call.message).value, auth.requestNonce)
    && auth.approvalId == call.granted && auth.policyBinding == PolicyDigest(call.context.binding)
    && call.granted == (if call.approval.Some? then Some(call.approval.value.0) else None)
  }

  // A receipt a call has accepted.
  predicate Acceptable(c: Config, operations: map<string, Operation>, ledger: D.Ledger, call: Call,
                       receipt: SignedReceipt) {
    && call.context.server in c.servers && call.operation.Some? && call.operation.value in operations
    && var bundle := Bundle(operations[call.operation.value].bundle.permit, Some(receipt));
    && Verified(c.servers[call.context.server], bundle) && Agrees(call.operation.value, bundle, ledger)
  }

  // What is true of one call wherever it is.
  predicate CallOk(c: Config, operations: map<string, Operation>, ledger: D.Ledger, call: Call) {
    && call.context.server in c.servers && Framed(call)
    && (call.operation.Some? ==>
          call.operation.value in operations && Carries(operations[call.operation.value].bundle.permit, call))
    && (call.operation.None? ==> call.sends == 0 && call.granted.None?)
    && match call.pc
       case Started => call.operation.None?
       case Reserved(_) => call.operation.Some? && call.sends == 0
       case InFlight => call.operation.Some? && call.sends == 1
       case Answered(reply) => call.operation.Some? && call.sends == 1 && AuthenticReply(c, ledger, reply)
       case Judged(j) => call.operation.Some? && call.sends == 1
                         && (G.Accepted(j).Some? ==> Acceptable(c, operations, ledger, call, G.Accepted(j).value))
       case Observed(_) => call.operation.Some? && call.sends == 1
       case Ready(_) => call.operation.Some? && call.sends == 1
       case Failing => call.operation.Some? && call.sends <= 1
       case Done(Normal(_)) => call.operation.Some? && call.sends == 1
       case Done(Unknown(o)) => call.operation == Some(o) && call.sends <= 1
       case Done(NotDispatched) => call.operation.None?
       case Done(AlreadyReserved(previous)) => call.operation.None? && previous in operations
       case Done(Vanished) => call.sends <= 1
  }

  predicate CallsOk(c: Config, operations: map<string, Operation>, ledger: D.Ledger, calls: map<nat, Call>) {
    forall k | k in calls :: CallOk(c, operations, ledger, calls[k])
  }

  predicate OneOwner(calls: map<nat, Call>) {
    forall j, k | j in calls && k in calls && j != k && calls[j].operation.Some? ::
      calls[j].operation != calls[k].operation
  }

  predicate SentBy(call: Call, o: string) {
    call.operation == Some(o) && call.sends == 1
  }

  predicate WasSent(calls: map<nat, Call>, o: string) {
    exists k :: k in calls && SentBy(calls[k], o)
  }

  predicate DispatchesOk(dispatched: seq<string>, calls: map<nat, Call>) {
    && (forall i, j | 0 <= i < j < |dispatched| :: dispatched[i] != dispatched[j])
    && (forall i | 0 <= i < |dispatched| :: WasSent(calls, dispatched[i]))
  }

  predicate LookupOk(c: Config, operations: map<string, Operation>, l: Lookup) {
    l.server in c.servers && l.operation in operations && operations[l.operation].bundle.permit == l.permit
  }

  predicate LookupsOk(c: Config, operations: map<string, Operation>, lookups: map<nat, Lookup>) {
    forall l | l in lookups :: LookupOk(c, operations, lookups[l])
  }

  predicate UsedUp(approvals: A.Book, id: string, evidence: bool, servers: set<string>) {
    id in approvals && approvals[id].status == A.Consumed && (approvals[id].server in servers) == evidence
  }

  // The approval a call has consumed was about its request.
  predicate GrantOk(servers: set<string>, approvals: A.Book, call: Call) {
    call.granted.Some? ==>
      UsedUp(approvals, call.granted.value, true, servers) && A.Matches(approvals[call.granted.value], call.context)
  }

  predicate GrantsOk(servers: set<string>, approvals: A.Book, calls: map<nat, Call>, plains: map<nat, Plain>) {
    && (forall k | k in calls :: GrantOk(servers, approvals, calls[k]))
    && (forall k | k in plains :: UsedUp(approvals, plains[k].granted, false, servers) && plains[k].sends <= 1)
  }

  predicate DistinctGrants(calls: map<nat, Call>, plains: map<nat, Plain>) {
    && (forall j, k | j in calls && k in calls && j != k && calls[j].granted.Some? ::
          calls[j].granted != calls[k].granted)
    && (forall j, k | j in plains && k in plains && j != k :: plains[j].granted != plains[k].granted)
  }

  ghost predicate GatewayInv(c: Config, w: World) {
    && S.ValidTables(w.tables) && MadeHere(c, w.makers, w.tables.operations)
    && Quiet(w.tables.operations, w.tables.events) && AllVouched(c, w.tables.operations)
    && ReleasedHere(w.tables.operations, w.released) && LookupsOk(c, w.tables.operations, w.lookups)
    && ReceiptsAgree(w.tables.operations, w.ledger)
  }

  predicate LedgerInv(c: Config, w: World) {
    D.ValidLedger(c.destination, w.ledger) && Backed(w.ledger, w.released)
  }

  predicate CallsInv(c: Config, w: World) {
    && CallsOk(c, w.tables.operations, w.ledger, w.calls) && OneOwner(w.calls) && DispatchesOk(w.dispatched, w.calls)
  }

  predicate GrantsInv(c: Config, w: World) {
    GrantsOk(c.servers.Keys, w.tables.approvals, w.calls, w.plains) && DistinctGrants(w.calls, w.plains)
  }

  ghost predicate Inv(c: Config, w: World) {
    GatewayInv(c, w) && LedgerInv(c, w) && CallsInv(c, w) && GrantsInv(c, w)
  }

  lemma StartIsSafe(c: Config)
    ensures Inv(c, START)
  {
  }

  // -------- Monotonicity: growing tables and ledgers keep everything that was said --------

  predicate OperationsGrow(t: map<string, Operation>, u: map<string, Operation>) {
    forall o | o in t :: o in u && u[o].bundle.permit == t[o].bundle.permit
  }

  lemma AdvancingTablesGrow(t: Tables, u: Tables)
    requires S.Advances(t, u)
    ensures OperationsGrow(t.operations, u.operations)
  {
    forall o | o in t.operations
      ensures o in u.operations && u.operations[o].bundle.permit == t.operations[o].bundle.permit
    {
      assert S.RowAdvances(t.operations[o], u.operations[o]);
    }
  }

  lemma PermitsStay(c: Config, t: map<string, Operation>, u: map<string, Operation>, released: set<Permit>,
                    lookups: map<nat, Lookup>)
    requires OperationsGrow(t, u) && ReleasedHere(t, released) && LookupsOk(c, t, lookups)
    ensures ReleasedHere(u, released) && LookupsOk(c, u, lookups)
  {
    forall p | p in released ensures ReservedPermit(u, p) { assert ReservedPermit(t, p); }
    forall l | l in lookups ensures LookupOk(c, u, lookups[l]) { assert LookupOk(c, t, lookups[l]); }
  }

  lemma AuthenticStays(c: Config, ledger: D.Ledger, after: D.Ledger, receipt: Json)
    requires D.LedgerGrows(ledger, after) && Authentic(c, ledger, receipt)
    ensures Authentic(c, after, receipt)
  {
    if receipt.ReceiptDoc? && BySigner(receipt.receipt, c.destination.publicKey) {
      var o :| o in ledger.operations && ledger.operations[o].receipt == Some(receipt.receipt);
      assert after.operations[o].receipt == Some(receipt.receipt);
    }
  }

  lemma AgreesStays(o: string, bundle: Bundle, ledger: D.Ledger, after: D.Ledger)
    requires D.LedgerGrows(ledger, after) && Agrees(o, bundle, ledger)
    ensures Agrees(o, bundle, after)
  {
  }

  lemma CallStays(c: Config, t: map<string, Operation>, u: map<string, Operation>, ledger: D.Ledger, after: D.Ledger,
                  call: Call)
    requires OperationsGrow(t, u) && D.LedgerGrows(ledger, after) && CallOk(c, t, ledger, call)
    ensures CallOk(c, u, after, call)
  {
    hide Framed, Carries, Verified, Agrees, AuthenticReply;
    if call.pc.Answered? { ReplyStays(c, ledger, after, call.pc.reply); }
    if call.pc.Judged? && G.Accepted(call.pc.judgement).Some? {
      var bundle := Bundle(t[call.operation.value].bundle.permit, Some(G.Accepted(call.pc.judgement).value));
      AgreesStays(call.operation.value, bundle, ledger, after);
    }
  }

  lemma ReplyStays(c: Config, ledger: D.Ledger, after: D.Ledger, reply: Dict)
    requires D.LedgerGrows(ledger, after) && AuthenticReply(c, ledger, reply)
    ensures AuthenticReply(c, after, reply)
  {
    if SplitResponse(reply).Success? { AuthenticStays(c, ledger, after, SplitResponse(reply).value.1); }
  }

  lemma CallsStay(c: Config, t: map<string, Operation>, u: map<string, Operation>, ledger: D.Ledger, after: D.Ledger,
                  calls: map<nat, Call>)
    requires OperationsGrow(t, u) && D.LedgerGrows(ledger, after) && CallsOk(c, t, ledger, calls)
    ensures CallsOk(c, u, after, calls)
  {
    forall k | k in calls ensures CallOk(c, u, after, calls[k]) { CallStays(c, t, u, ledger, after, calls[k]); }
  }

  lemma ReceiptsStay(operations: map<string, Operation>, ledger: D.Ledger, after: D.Ledger)
    requires D.LedgerGrows(ledger, after) && ReceiptsAgree(operations, ledger)
    ensures ReceiptsAgree(operations, after)
  {
    hide Agrees;
    forall o | o in operations ensures Agrees(o, operations[o].bundle, after) {
      AgreesStays(o, operations[o].bundle, ledger, after);
    }
  }

  lemma UsedUpStays(b: A.Book, after: A.Book, id: string, evidence: bool, servers: set<string>)
    requires R.BookDescends(b, after) && UsedUp(b, id, evidence, servers)
    ensures UsedUp(after, id, evidence, servers)
  {
    assert R.Descends(b[id], after[id]);
  }

  lemma GrantStays(servers: set<string>, b: A.Book, after: A.Book, call: Call)
    requires R.BookDescends(b, after) && GrantOk(servers, b, call)
    ensures GrantOk(servers, after, call)
  {
    if call.granted.Some? { assert R.Descends(b[call.granted.value], after[call.granted.value]); }
  }

  lemma GrantsStay(servers: set<string>, b: A.Book, after: A.Book, calls: map<nat, Call>, plains: map<nat, Plain>)
    requires R.BookDescends(b, after) && GrantsOk(servers, b, calls, plains)
    ensures GrantsOk(servers, after, calls, plains)
  {
    hide UsedUp, GrantOk;
    forall k | k in calls ensures GrantOk(servers, after, calls[k]) { GrantStays(servers, b, after, calls[k]); }
    forall k | k in plains ensures UsedUp(after, plains[k].granted, false, servers) {
      UsedUpStays(b, after, plains[k].granted, false, servers);
    }
  }

  // -------- Three kinds of change --------

  lemma LedgerItselfGrows(ledger: D.Ledger)
    ensures D.LedgerGrows(ledger, ledger)
  {
  }

  // A transaction at the gateway.
  lemma TablesChange(c: Config, w: World, u: Tables, makers: map<string, string>)
    requires Inv(c, w) && S.ValidTables(u) && S.Advances(w.tables, u)
    requires MadeHere(c, makers, u.operations) && Quiet(u.operations, u.events)
    requires ReceiptsAgree(u.operations, w.ledger) && AllVouched(c, u.operations)
    ensures Inv(c, w.(tables := u, makers := makers))
  {
    hide S.ValidTables, D.ValidLedger, Backed, CallOk, MadeHere, ReceiptsAgree, Quiet, AllVouched, GrantOk;
    AdvancingTablesGrow(w.tables, u);
    PermitsStay(c, w.tables.operations, u.operations, w.released, w.lookups);
    LedgerItselfGrows(w.ledger);
    CallsStay(c, w.tables.operations, u.operations, w.ledger, w.ledger, w.calls);
    GrantsStay(c.servers.Keys, w.tables.approvals, u.approvals, w.calls, w.plains);
  }

  // A transaction at the destination.
  lemma LedgerChange(c: Config, w: World, after: D.Ledger)
    requires Inv(c, w) && D.ValidLedger(c.destination, after) && D.LedgerGrows(w.ledger, after)
    requires Backed(after, w.released)
    ensures Inv(c, w.(ledger := after))
  {
    hide S.ValidTables, D.ValidLedger, CallOk, MadeHere, Quiet, AllVouched, GrantOk;
    ReceiptsStay(w.tables.operations, w.ledger, after);
    assert OperationsGrow(w.tables.operations, w.tables.operations);
    CallsStay(c, w.tables.operations, w.tables.operations, w.ledger, after, w.calls);
  }

  // A step of one call that neither reserves nor sends.
  lemma CallChange(c: Config, w: World, k: nat, pc: Pc)
    requires Inv(c, w) && k in w.calls
    requires CallOk(c, w.tables.operations, w.ledger, w.calls[k].(pc := pc))
    ensures Inv(c, At(w, k, w.calls[k].(pc := pc)))
  {
    hide S.ValidTables, MadeHere, Quiet, AllVouched, ReleasedHere, LookupsOk, ReceiptsAgree, D.ValidLedger, Backed,
      CallOk, GrantOk;
    var calls := w.calls[k := w.calls[k].(pc := pc)];
    UpdatedCallsOk(c, w.tables.operations, w.ledger, w.calls, k, w.calls[k].(pc := pc));
    RolesStay(c, w, calls);
    CallsOnly(c, w, calls);
  }

  lemma UpdatedCallsOk(c: Config, operations: map<string, Operation>, ledger: D.Ledger, calls: map<nat, Call>,
                       k: nat, call: Call)
    requires CallsOk(c, operations, ledger, calls) && CallOk(c, operations, ledger, call)
    ensures CallsOk(c, operations, ledger, calls[k := call])
  {
  }

  lemma CallsOnly(c: Config, w: World, calls: map<nat, Call>)
    requires GatewayInv(c, w) && LedgerInv(c, w)
    requires CallsOk(c, w.tables.operations, w.ledger, calls) && OneOwner(calls) && DispatchesOk(w.dispatched, calls)
    requires GrantsOk(c.servers.Keys, w.tables.approvals, calls, w.plains) && DistinctGrants(calls, w.plains)
    ensures Inv(c, w.(calls := calls))
  {
    hide S.ValidTables, MadeHere, Quiet, AllVouched, ReleasedHere, LookupsOk, ReceiptsAgree, D.ValidLedger, Backed,
      CallOk, GrantOk;
  }

  predicate SameRole(x: Call, y: Call) {
    x.operation == y.operation && x.sends == y.sends && x.granted == y.granted && x.context == y.context
  }

  lemma RolesStay(c: Config, w: World, calls: map<nat, Call>)
    requires CallsInv(c, w) && GrantsInv(c, w)
    requires calls.Keys == w.calls.Keys && forall j | j in calls :: SameRole(w.calls[j], calls[j])
    ensures OneOwner(calls) && DispatchesOk(w.dispatched, calls)
    ensures GrantsOk(c.servers.Keys, w.tables.approvals, calls, w.plains) && DistinctGrants(calls, w.plains)
  {
    DispatchesStay(w.dispatched, w.calls, calls);
    forall i, j | i in calls && j in calls && i != j
      ensures (calls[i].operation.Some? ==> calls[i].operation != calls[j].operation)
           && (calls[i].granted.Some? ==> calls[i].granted != calls[j].granted)
    {
      assert SameRole(w.calls[i], calls[i]) && SameRole(w.calls[j], calls[j]);
    }
    forall k | k in calls ensures GrantOk(c.servers.Keys, w.tables.approvals, calls[k]) {
      assert SameRole(w.calls[k], calls[k]);
      assert GrantOk(c.servers.Keys, w.tables.approvals, w.calls[k]);
    }
  }

  lemma DispatchesStay(dispatched: seq<string>, calls: map<nat, Call>, after: map<nat, Call>)
    requires DispatchesOk(dispatched, calls)
    requires forall j | j in calls && calls[j].sends == 1 :: j in after && SameRole(calls[j], after[j])
    ensures DispatchesOk(dispatched, after)
  {
    forall i | 0 <= i < |dispatched| ensures WasSent(after, dispatched[i]) {
      assert WasSent(calls, dispatched[i]);
      var k :| k in calls && SentBy(calls[k], dispatched[i]);
      assert SentBy(after[k], dispatched[i]);
    }
  }
}
