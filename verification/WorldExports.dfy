// Exports over every run of the whole system, observers included.
module WorldExports {
  import opened Wrappers
  import opened Documents
  import opened Verify
  import opened Store
  import opened World
  import opened WorldSafety
  import opened WorldSteps
  import opened WorldTheorems
  import opened WorldRefinement
  import C = Checks
  import D = Destination
  import G = Runtime
  import H = Histories
  import S = StoreSafety

  // Every stored bundle verifies under a trust store of the gateway that keeps it.
  lemma BundlesAreVouchedFor(c: Config, actions: seq<Action>, o: string)
    requires Paired(c) && o in Run(c, START, actions).tables.operations
    ensures Vouched(c, Run(c, START, actions).tables.operations[o].bundle)
  {
    hide Run, Vouched;
    RunIsSafe(c, actions);
  }

  // For an operation at the reference destination, the one it was reserved under will do.
  lemma DestinationBundlesVerify(c: Config, actions: seq<Action>, o: string)
    requires Paired(c)
    requires var w := Run(c, START, actions);
      o in w.tables.operations && ForDestination(w.tables.operations[o].bundle.permit)
    ensures var w := Run(c, START, actions);
      o in w.makers && w.makers[o] in c.servers && Verified(MakerOf(c, w, o), w.tables.operations[o].bundle)
  {
    hide Run, Inv, VerifyReceipt, GatewayPermit, D.ValidLedger;
    var w := Run(c, START, actions);
    RunIsSafe(c, actions);
    OperationIsReadable(c, w, o);
    var bundle := w.tables.operations[o].bundle;
    OwnPermitVerifies(MakerOf(c, w, o), o, bundle.permit);
    if bundle.receipt.Some? {
      StoredReceiptIsSigned(c, w, o);
      LedgerReceiptVerifies(c, MakerOf(c, w, o), w.ledger, o, bundle.permit);
    }
  }

  lemma StoredReceiptIsSigned(c: Config, w: World, o: string)
    requires Inv(c, w) && o in w.tables.operations && ForDestination(w.tables.operations[o].bundle.permit)
    requires w.tables.operations[o].bundle.receipt.Some?
    ensures D.ValidLedger(c.destination, w.ledger) && o in w.ledger.operations && o in w.ledger.refunds
    ensures w.ledger.operations[o].permitDigest == AttemptDigest(w.tables.operations[o].bundle.permit)
    ensures w.tables.operations[o].bundle.receipt.value
         == Sign(w.ledger.operations[o].material, ReceiptKind, c.destination.kid, c.destination.publicKey)
  {
    hide CallsInv, GrantsInv, S.ValidTables, Quiet, AllVouched, LookupsOk;
    assert Agrees(o, w.tables.operations[o].bundle, w.ledger);
    RefundIsReserved(c, w, o);
    assert D.ValidRow(c.destination, o, w.ledger.operations[o], w.ledger.refunds[o]);
  }

  lemma OwnPermitVerifies(g: G.Config, o: string, permit: Permit)
    requires GatewayPermit(g, o, permit)
    ensures VerifyPermit(permit, g.trust, None).Success?
  {
  }

  // Every report that was appended is one that some check made.
  ghost predicate OnlyChecked(actions: seq<Action>, trust: TrustStore, observers: C.ObserverTrust) {
    forall i | 0 <= i < |actions| && actions[i].Report? :: H.FromCheck(actions[i].document, trust, observers)
  }

  // Where the evidence servers share one trust store, whatever is exported verifies under it: in
  // every reachable state, whatever was lost, repeated or interrupted before.
  lemma ExportsVerify(c: Config, actions: seq<Action>, trust: TrustStore, observers: C.ObserverTrust, o: string,
                      tenant: string)
    requires Paired(c) && OnlyChecked(actions, trust, observers)
    requires forall s | s in c.servers :: c.servers[s].trust == trust
    requires Get(Run(c, START, actions).tables, o, tenant).Success?
    ensures var t := Run(c, START, actions).tables;
      C.Verifies(CheckedBundleOf(t, t, o, tenant).value, trust, observers, None, None)
  {
    hide Run, S.Run, C.Verifies, H.FromCheck;
    var t := Run(c, START, actions).tables;
    var log := WorldRefinesStore(c, actions);
    forall i | 0 <= i < |log| && log[i].DoAppend? ensures H.FromCheck(log[i].document, trust, observers) {
      assert InReports(actions, log[i].document);
    }
    H.ExportVerifies(log, trust, observers, o, tenant);
    BundlesAreVouchedFor(c, actions, o);
    SharedTrustVouches(c, trust, t.operations[o].bundle);
  }

  lemma SharedTrustVouches(c: Config, trust: TrustStore, bundle: Bundle)
    requires Vouched(c, bundle) && forall s | s in c.servers :: c.servers[s].trust == trust
    ensures C.EvidenceVerdict(bundle, trust, None, None).rejection.None?
  {
    hide VerifyBundle;
  }

  // A check is made for no receipt of the reference destination: its scope is another.
  lemma NoCheckOfLocalRefunds(bundle: Bundle, request: Json, trust: TrustStore, config: C.CheckConfig,
                              observers: C.ObserverTrust, previous: Option<Digest>, drawn: C.Drawn, read: C.SourceRead,
                              hex: Digest -> string)
    requires bundle.receipt.Some? && bundle.receipt.value.payload.scope == D.SCOPE
    ensures C.CheckRefund(bundle, request, trust, config, observers, previous, drawn, read, hex).Failure?
  {
    hide C.EvaluateRefund, C.EvidenceVerdict, C.KeyOf, C.ParseArguments;
    assert |D.SCOPE| != |CHECK_SCOPE|;
  }

  // So the history of an operation there stays empty in every reachable state.
  lemma DestinationHistoriesStayEmpty(c: Config, actions: seq<Action>, trust: TrustStore, observers: C.ObserverTrust,
                                      o: string)
    requires Paired(c) && OnlyChecked(actions, trust, observers)
    requires var w := Run(c, START, actions);
      o in w.tables.operations && ForDestination(w.tables.operations[o].bundle.permit)
    ensures History(Run(c, START, actions).tables.observations, o) == []
  {
    hide Run, S.Run, H.FromCheck, Inv, D.ValidLedger, H.RowsStand;
    var w := Run(c, START, actions);
    RunIsSafe(c, actions);
    var log := WorldRefinesStore(c, actions);
    forall i | 0 <= i < |log| && log[i].DoAppend? ensures H.FromCheck(log[i].document, trust, observers) {
      assert InReports(actions, log[i].document);
    }
    H.HistoriesStand(log, trust, observers, o);
    assert |D.SCOPE| != |CHECK_SCOPE|;
    var rows := History(w.tables.observations, o);
    if rows != [] {
      StandingReceipt(rows, w.tables.operations[o].bundle, trust, observers);
      StoredReceiptIsSigned(c, w, o);
      MaterialIsLocal(c, w.ledger, o);
    }
  }

  lemma StandingReceipt(rows: seq<ObservationRow>, bundle: Bundle, trust: TrustStore, observers: C.ObserverTrust)
    requires rows != [] && H.RowsStand(rows, bundle, trust, observers)
    ensures bundle.receipt.Some? && bundle.receipt.value.payload.scope == CHECK_SCOPE
  {
    hide C.EvidenceVerdict, C.KeyOf;
    assert H.RowStands(rows, 0, bundle, trust, observers);
  }

  lemma MaterialIsLocal(c: Config, ledger: D.Ledger, o: string)
    requires D.ValidLedger(c.destination, ledger) && o in ledger.operations
    ensures ledger.operations[o].material.scope == D.SCOPE
  {
    hide VerifyPermit, D.AmountCommitted, D.RefundResponse, D.ResponseOf;
    assert D.ValidRow(c.destination, o, ledger.operations[o], ledger.refunds[o]);
  }
}
