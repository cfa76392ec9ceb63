// A concrete export that is rejected although every step before it went well: the receipt and a
// report arrive between the two reads of checked_bundle.
module ExportRace {
  import opened Wrappers
  import opened Documents
  import opened Store
  import opened Checks
  import opened Histories
  import S = StoreSafety
  import V = Verify

  const GATEWAY := V.TrustKey("gateway", "shop", "t", V.GatewayRole, "gateway-public", {}, V.Active)
  const SHOP := V.TrustKey("shop", "gateway", "t", V.DestinationRole, "shop-public", {CHECK_SCOPE}, V.Active)
  const TRUST := V.TrustStore(map["g" := GATEWAY, "s" := SHOP])
  const OBSERVERS := ObserverTrust(map["o" := ObserverKey("observer", "t", "shop", CHECK_SCOPE, "acct_1",
                                                          "observer-public", V.Active, "separate")])
  const CONFIG := CheckConfig("t", "shop", "refund", "acct_1", "o", 300)

  const REQUEST := Obj(map["method" := Str("tools/call"), "params" := Obj(map["name" := Str("refund"),
    "arguments" := Obj(map["amount_minor" := Num(500), "currency" := Str("eur"), "charge" := Str("ch_1"),
                           "account" := Str("acct_1")])])])

  const PRINCIPAL := PrincipalDigest("user", None, None, "t")
  const SCOPE := OperationScope("t", PRINCIPAL, "shop", Some("refund"), "op")
  const POLICY := PolicyDigest(Binding(Null, Null, Null, Null))

  function ThePermit(): Permit {
    var authorization := V.Sign(Authorization("gateway", "shop", "t", PRINCIPAL, "op", "authz", None, "refund",
      RequestDigest(REQUEST, "n"), "n", POLICY, 0, 100), AuthorizationKind, "g", "gateway-public");
    Permit(authorization, V.Sign(Attempt("gateway", "shop", "t", "op", "try", AuthorizationDigest(authorization), "m"),
                                 AttemptKind, "g", "gateway-public"))
  }

  function TheReceipt(): SignedReceipt {
    V.Sign(Receipt("shop", "gateway", "t", "op", "authz", "try", "rcpt", AttemptDigest(ThePermit()),
      RequestDigest(REQUEST, "n"), ResponseDigest(Null, "r"), "r", Committed, CHECK_SCOPE, Some("re_1"), 1, 10),
      ReceiptKind, "s", "shop-public")
  }

  const RESERVED := Bundle(ThePermit(), None)
  const COMMITTED := Bundle(ThePermit(), Some(TheReceipt()))
  const DRAWN := Drawn("observer-public", "check_1", "nonce", 20)

  function TheReport(): SignedObservation {
    SignReport("o", "observer-public", BlankReport(COMMITTED, CONFIG, OBSERVERS.keys["o"], "acct_1", None, DRAWN))
  }

  function Before(): seq<S.Action> {
    [S.DoReserve(RESERVED, SCOPE, RequestFingerprint(REQUEST), None, "e1")]
  }

  function After(): seq<S.Action> {
    [S.DoRecord("op", "t", Reconciled(EvidenceVerdict(COMMITTED, TRUST, None, None)), Some(TheReceipt()),
                "e2", "e2c"),
     S.DoAppend("op", "t", TheReport(), "e3")]
  }

  lemma VerifiesBothTimes()
    ensures EvidenceVerdict(RESERVED, TRUST, None, None).rejection.None?
    ensures EvidenceVerdict(COMMITTED, TRUST, None, None).rejection.None?
    ensures EvidenceVerdict(COMMITTED, TRUST, Some(REQUEST), None).rejection.None?
    ensures EvidenceVerdict(COMMITTED, TRUST, Some(REQUEST), None).claim == V.DestinationCommitAttested
  {
  }

  lemma ArgumentsParse()
    ensures ParseArguments(REQUEST.fields["params"].fields["arguments"])
      == Success(RefundArguments(500, "eur", "ch_1", "acct_1"))
  {
    var f := REQUEST.fields["params"].fields["arguments"].fields;
    assert f.Keys == {"amount_minor", "currency", "charge", "account"};
    assert "ch_1"[3..] == "1" && "acct_1"[5..] == "1";
  }

  lemma ReportKeyIsGood()
    ensures KeyOf(TheReport(), OBSERVERS, TRUST).Success?
  {
  }

  lemma CheckMakesTheReport(hex: Digest -> string)
    ensures CheckRefund(COMMITTED, REQUEST, TRUST, CONFIG, OBSERVERS, None, DRAWN, Unavailable, hex)
      == Success(TheReport())
  {
    hide EvidenceVerdict, KeyOf, ParseArguments;
    VerifiesBothTimes();
    ArgumentsParse();
    ReportKeyIsGood();
  }

  lemma OnlyThatCheck()
    ensures OnlyChecks(Before() + After(), TRUST, OBSERVERS)
  {
    hide CheckRefund;
    var hex: Digest -> string := d => "";
    CheckMakesTheReport(hex);
    assert FromCheck(TheReport(), TRUST, OBSERVERS);
  }

  // The tables after the reservation, the receipt, and the report.
  const T1 := Tables(map["op" := Operation("t", SCOPE, RequestFingerprint(REQUEST), RESERVED)], map[SCOPE := "op"],
                     [Event("e1", "op", DispatchIntent, false)], [], map[])
  const T2 := Tables(map["op" := Operation("t", SCOPE, RequestFingerprint(REQUEST), COMMITTED)], map[SCOPE := "op"],
                     [Event("e1", "op", DispatchIntent, false),
                      Event("e2", "op", Reconciled(EvidenceVerdict(COMMITTED, TRUST, None, None)), false)], [], map[])

  lemma AfterReservation()
    ensures S.Run(EMPTY, Before()) == T1
  {
    assert Before()[..0] == [];
    assert S.Run(EMPTY, Before()[..0]) == EMPTY;
  }

  lemma AfterReceipt()
    ensures S.Next(T1, After()[0]) == T2
  {
    hide EvidenceVerdict;
    assert T1.operations["op" := T2.operations["op"]] == T2.operations;
  }

  lemma AfterReport()
    ensures var u := S.Next(T2, After()[1]);
      && u == T2.(observations := u.observations, events := u.events)
      && u.observations == [ObservationRow("op", ObservationDigest(TheReport()), TheReport())]
      && !HasConflict(u.events, "op")
  {
    hide EvidenceVerdict;
    assert !EventIdUsed(T2.events, "e3");
    assert History(T2.observations, "op") == [];
  }

  lemma BothSteps(t: Tables)
    ensures S.Run(t, After()) == S.Next(S.Next(t, After()[0]), After()[1])
  {
    hide S.Next;
    assert After()[..1][..0] == [];
    assert S.Run(t, After()[..1][..0]) == t;
  }

  lemma FinalState()
    ensures var u := S.Run(T1, After());
      History(u.observations, "op") != [] && Get(u, "op", "t").Success?
  {
    hide S.Run, S.Next;
    BothSteps(T1);
    AfterReceipt();
    AfterReport();
    var u := S.Next(T2, After()[1]);
    HistoryAfterAppend([], u.observations[0], "op");
    assert [] + [u.observations[0]] == u.observations;
  }

  lemma FirstRead()
    ensures Get(T1, "op", "t") == Success(RESERVED) && T1.operations["op"].bundle == RESERVED
    ensures History(T1.observations, "op") == [] && !HasCommitReceipt(RESERVED)
  {
  }

  lemma NothingBetween(t: Tables)
    ensures S.Run(t, []) == t && Before() + [] == Before()
  {
  }

  lemma FewerChecks()
    ensures OnlyChecks(Before() + [], TRUST, OBSERVERS)
  {
    assert forall i | 0 <= i < |Before() + []| :: !(Before() + [])[i].DoAppend?;
  }

  // Read the bundle, then let the receipt and the report be recorded, then read the reports.
  lemma InterruptedExportIsRejected()
    ensures var t := S.Run(EMPTY, Before()); var u := S.Run(t, After());
      && OnlyChecks(Before() + After(), TRUST, OBSERVERS)
      && Get(t, "op", "t").Success? && Get(u, "op", "t").Success?
      && Verifies(CheckedBundleOf(t, t, "op", "t").value, TRUST, OBSERVERS, None, None)
      && !Verifies(CheckedBundleOf(t, u, "op", "t").value, TRUST, OBSERVERS, None, None)
  {
    hide Verifies, EvidenceVerdict, S.Run, S.Next, OnlyChecks, History, Get, HasCommitReceipt;
    OnlyThatCheck();
    FewerChecks();
    AfterReservation();
    FirstRead();
    FinalState();
    VerifiesBothTimes();
    NothingBetween(T1);
    ExportAcrossTwoReads(Before(), [], TRUST, OBSERVERS, "op", "t");
    ExportAcrossTwoReads(Before(), After(), TRUST, OBSERVERS, "op", "t");
  }
}
