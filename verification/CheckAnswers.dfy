// What an observer reports, and which reports are accepted, from the documents and the provider's data.
module CheckAnswers {
  import opened Wrappers
  import opened Documents
  import opened Checks
  import V = Verify
  import St = Store

  // -------- Accepting a report --------

  // A report by an observer that is trusted for its parties, scope and account, whose key no party of
  // the exchange has, and that signed exactly this.
  predicate FromObserver(document: SignedObservation, observers: ObserverTrust, trust: V.TrustStore) {
    && document.kid in observers.keys
    && var key, p := observers.keys[document.kid], document.payload;
    && key.status in {V.Active, V.Retired}
    && key.issuer == p.issuer && key.tenant == p.tenant && key.destination == p.destination && key.scope == p.scope
    && key.account == p.account
    && (forall kid | kid in trust.keys :: trust.keys[kid].publicKey != key.publicKey)
    && document.signature == ObserverEd25519(key.publicKey, document.kid, p)
  }

  // A report in its place behind a bundle attested as committed.
  predicate InPlace(evidence: Bundle, claim: V.Claim, document: SignedObservation, previous: Option<Digest>,
                    observers: ObserverTrust, trust: V.TrustStore) {
    var p, auth := document.payload, evidence.permit.authorization.payload;
    && FromObserver(document, observers, trust)
    && claim == V.DestinationCommitAttested
    && evidence.receipt.Some? && evidence.receipt.value.payload.scope == p.scope
    && p.evidenceDigest == CheckedBundleDigest(evidence) && p.previousDigest == previous
    && p.tenant == auth.tenant && p.destination == auth.audience
  }

  lemma ReportIsAcceptedExactly(evidence: Bundle, claim: V.Claim, document: SignedObservation,
                                previous: Option<Digest>, observers: ObserverTrust, trust: V.TrustStore)
    ensures ReportError(evidence, claim, document, previous, observers, trust).None?
       <==> InPlace(evidence, claim, document, previous, observers, trust)
  {
  }

  lemma ObserverExactly(document: SignedObservation, observers: ObserverTrust, trust: V.TrustStore)
    ensures KeyOf(document, observers, trust).Success? <==> FromObserver(document, observers, trust)
  {
  }

  // A report is refused for the first of these: its key, the scope of the effect, its bonds.
  lemma ReportIsRefusedFor(evidence: Bundle, claim: V.Claim, document: SignedObservation,
                           previous: Option<Digest>, observers: ObserverTrust, trust: V.TrustStore, error: Error)
    requires ReportError(evidence, claim, document, previous, observers, trust) == Some(error)
    ensures var p := document.payload;
      error == if document.kid !in observers.keys || observers.keys[document.kid].status == V.Revoked then
                 UntrustedObserver
               else
                 var key := observers.keys[document.kid];
                 if !(key.issuer == p.issuer && key.tenant == p.tenant && key.destination == p.destination
                      && key.scope == p.scope && key.account == p.account) then ObserverScopeMismatch
                 else if key.publicKey in set kid | kid in trust.keys :: trust.keys[kid].publicKey then
                   ObserverKeyNotSeparate
                 else if !FromObserver(document, observers, trust) then InvalidObserverSignature
                 else if claim == V.DestinationCommitAttested && evidence.receipt.Some?
                         && evidence.receipt.value.payload.scope == p.scope then ObservationBindingMismatch
                 else ObservationEffectScopeMismatch
  {
  }

  // The receipt a bundle brings, as the verifier takes it.
  function Brought(bundle: Bundle): Json {
    if bundle.receipt.None? then Null else ReceiptDoc(bundle.receipt.value)
  }

  // An export verifies exactly when bundle and reports do: the bundle with what was brought along,
  // and each report chained to the one before it.
  lemma ExportIsAcceptedExactly(bundle: CheckedBundle, trust: V.TrustStore, observers: ObserverTrust,
                                request: Option<Json>, response: Option<Json>)
    ensures var reports := bundle.observations;
      var verdict := V.VerifyBundle(bundle.evidence.permit, Brought(bundle.evidence), trust, request, response);
      Verifies(bundle, trust, observers, request, response) <==>
        && |reports| <= 256 && verdict.rejection.None?
        && forall i {:trigger reports[i]} | 0 <= i < |reports| ::
             && St.ValidObservation(reports[i].payload)
             && InPlace(bundle.evidence, verdict.claim, reports[i],
                        if i == 0 then None else Some(ObservationDigest(reports[i - 1])), observers, trust)
  {
    hide V.VerifyBundle, ReportError, InPlace, St.ValidObservation;
    var claim := EvidenceVerdict(bundle.evidence, trust, request, response).claim;
    forall i | 0 <= i < |bundle.observations|
      ensures ReportError(bundle.evidence, claim, bundle.observations[i], Predecessor(bundle.observations, i),
                          observers, trust).None?
         <==> InPlace(bundle.evidence, claim, bundle.observations[i],
                      if i == 0 then None else Some(ObservationDigest(bundle.observations[i - 1])), observers, trust)
    {
      ReportIsAcceptedExactly(bundle.evidence, claim, bundle.observations[i], Predecessor(bundle.observations, i),
                              observers, trust);
    }
  }

  // An entry of the history repeats its report, and is current between check and expiry.
  lemma EntrySays(document: SignedObservation, observers: ObserverTrust, now: int)
    requires document.kid in observers.keys
    ensures var e, p := EntryOf(document, observers, now), document.payload;
      && e.checkId == p.checkId && e.result == p.result && e.reason == p.reason && e.sourceStatus == p.sourceStatus
      && e.checkedAt == p.checkedAt && e.sourceRecordedAt == p.sourceRecordedAt && e.expiresAt == p.expiresAt
      && e.account == p.account && e.observer == p.issuer
      && e.administration == observers.keys[document.kid].administration
      && (e.current <==> now >= p.checkedAt && now < p.expiresAt)
  {
  }

  // -------- Making a report --------

  // The arguments of a refund are exactly an amount, a currency, a charge and an account in their forms.
  ghost predicate InForm(a: RefundArguments) {
    && 1 <= a.amount <= 9007199254740991
    && |a.currency| == 3 && (forall i | 0 <= i < 3 :: 'a' <= a.currency[i] <= 'z')
    && (exists rest :: a.charge == "ch_" + rest && Alphanumeric(rest))
    && (exists rest :: a.account == "acct_" + rest && Alphanumeric(rest))
  }

  function AsJson(a: RefundArguments): Json {
    Obj(map["amount_minor" := Num(a.amount), "currency" := Str(a.currency), "charge" := Str(a.charge),
            "account" := Str(a.account)])
  }

  lemma FourKeys()
    ensures "amount_minor" !in {"currency", "charge", "account"} && "currency" !in {"charge", "account"}
    ensures "charge" != "account"
  {
    assert |"amount_minor"| == 12 && |"currency"| == 8 && |"charge"| == 6 && |"account"| == 7;
  }

  lemma PrefixedExactly(s: string, prefix: string)
    ensures Prefixed(s, prefix) <==> exists rest :: s == prefix + rest && Alphanumeric(rest)
  {
    if Prefixed(s, prefix) { assert s == prefix + s[|prefix|..]; }
    if exists rest :: s == prefix + rest && Alphanumeric(rest) {
      var rest :| s == prefix + rest && Alphanumeric(rest);
      assert s[|prefix|..] == rest;
    }
  }

  lemma ArgumentsParseExactly(args: Json, a: RefundArguments)
    ensures ParseArguments(args) == Success(a) <==> args == AsJson(a) && InForm(a)
  {
    hide Prefixed, Alphanumeric;
    FourKeys();
    PrefixedExactly(a.charge, "ch_");
    PrefixedExactly(a.account, "acct_");
    if ParseArguments(args) == Success(a) {
      assert args.fields == AsJson(a).fields;
    }
    if args == AsJson(a) {
      assert args.fields.Keys == {"amount_minor", "currency", "charge", "account"};
    }
  }

  // What the provider answered, in the order in which it is looked at.
  predicate Answered(status: int, account: Json, a: RefundArguments) {
    status == 200 && account.Obj? && Member(account.fields, "id") == Str(a.account)
  }

  predicate IsRefundObject(refund: Json) {
    && refund.Obj? && Member(refund.fields, "object") == Str("refund") && Member(refund.fields, "amount").Num?
    && Member(refund.fields, "created").Num? && Member(refund.fields, "created").n >= 0
  }

  predicate SameFields(refund: Json, a: RefundArguments, receipt: Receipt)
    requires IsRefundObject(refund)
  {
    var r := refund.fields;
    && Member(r, "id") == (if receipt.transactionRef.Some? then Str(receipt.transactionRef.value) else Null)
    && Member(r, "amount") == Num(a.amount) && Member(r, "currency") == Str(a.currency)
    && Member(r, "charge") == Str(a.charge)
  }

  // What the refund's metadata must say of the operation.
  function Marks(bundle: Bundle, hex: Digest -> string): map<string, string> {
    var auth := bundle.permit.authorization.payload;
    map["mcpzt_operation_id" := auth.operationId, "mcpzt_authorization_id" := auth.authorizationId,
        "mcpzt_attempt_id" := bundle.permit.attempt.payload.attemptId,
        "mcpzt_request_digest" := hex(auth.requestDigest)]
  }

  predicate Bound(refund: Json, bundle: Bundle, hex: Digest -> string)
    requires IsRefundObject(refund)
  {
    var metadata := Member(refund.fields, "metadata"); var marks := Marks(bundle, hex);
    metadata.Obj? && forall key | key in marks :: Member(metadata.fields, key) == Str(marks[key])
  }

  // Every finding, from what the provider answered.
  lemma FindingsExactly(status: int, account: Json, refund: Json, a: RefundArguments, receipt: Receipt,
                        bundle: Bundle, hex: Digest -> string)
    ensures var f := EvaluateRefund(status, account, refund, a, receipt, bundle, hex);
      if status != 200 then
        f == Findings(CheckUnknown, if status == 404 && !account.Null? then SourceNotFound else SourceUnavailable,
                      None, None)
      else if !Answered(status, account, a) then f == Findings(CheckUnknown, AccountMismatch, None, None)
      else if !IsRefundObject(refund) then f == Findings(CheckUnknown, SourceInvalid, None, None)
      else
        var told := Member(refund.fields, "status"); var at := Some(Member(refund.fields, "created").n);
        if !SameFields(refund, a, receipt) then f == Findings(Contradicted, FieldMismatch, None, at)
        else if !Bound(refund, bundle, hex) then f == Findings(CheckUnknown, BindingMismatch, None, at)
        else if told == Str("succeeded") then f == Findings(Corroborated, StatusMatch, Some(SourceSucceeded), at)
        else if told == Str("failed") then f == Findings(Contradicted, StatusConflict, Some(SourceFailed), at)
        else if told == Str("canceled") then f == Findings(Contradicted, StatusConflict, Some(SourceCanceled), at)
        else if told == Str("pending") then f == Findings(CheckPending, SourcePending, Some(SourceIsPending), at)
        else if told == Str("requires_action") then
          f == Findings(CheckPending, SourcePending, Some(SourceRequiresAction), at)
        else f == Findings(CheckUnknown, UnsupportedStatus, None, at)
  {
    hide BoundTo, Bound;
    if IsRefundObject(refund) { BoundExactly(refund, bundle, hex); }
  }

  lemma BoundExactly(refund: Json, bundle: Bundle, hex: Digest -> string)
    requires IsRefundObject(refund)
    ensures BoundTo(Member(refund.fields, "metadata"), bundle, hex) <==> Bound(refund, bundle, hex)
  {
    var auth, marks := bundle.permit.authorization.payload, Marks(bundle, hex);
    assert |"mcpzt_operation_id"| == 18 && |"mcpzt_authorization_id"| == 22 && |"mcpzt_attempt_id"| == 16
        && |"mcpzt_request_digest"| == 20;
    assert marks["mcpzt_operation_id"] == auth.operationId;
    assert marks["mcpzt_authorization_id"] == auth.authorizationId;
    assert marks["mcpzt_attempt_id"] == bundle.permit.attempt.payload.attemptId;
    assert marks["mcpzt_request_digest"] == hex(auth.requestDigest);
  }

  // A check may be made: of a committed refund of the configured tool and account, by an active
  // observer that is trusted for it.
  ghost predicate MayCheck(bundle: Bundle, request: Json, trust: V.TrustStore, config: CheckConfig,
                     observers: ObserverTrust, drawn: Drawn, a: RefundArguments) {
    var auth := bundle.permit.authorization.payload;
    && bundle.receipt.Some?
    && var verdict := V.VerifyBundle(bundle.permit, Brought(bundle), trust,
                                     if request.Null? then None else Some(request), None);
    && verdict.claim == V.DestinationCommitAttested && verdict.rejection.None?
    && auth.tenant == config.tenant && auth.audience == config.destination && auth.tool == config.tool
    && bundle.receipt.value.payload.scope == CHECK_SCOPE
    && request.Obj? && Member(request.fields, "method") == Str("tools/call") && Member(request.fields, "params").Obj?
    && Member(request.fields["params"].fields, "name") == Str(config.tool)
    && Member(request.fields["params"].fields, "arguments") == AsJson(a) && InForm(a) && a.account == config.account
    && config.observerKeyId in observers.keys
    && var key := observers.keys[config.observerKeyId];
    && key.status == V.Active && key.publicKey == drawn.signer
    && key.tenant == auth.tenant && key.destination == auth.audience && key.scope == CHECK_SCOPE
    && key.account == a.account
    && (forall kid | kid in trust.keys :: trust.keys[kid].publicKey != key.publicKey)
    && drawn.now >= 0 && 1 <= config.freshness <= 3600
  }

  // What the report then says.
  function ReportOf(bundle: Bundle, config: CheckConfig, issuer: string, a: RefundArguments, previous: Option<Digest>,
                    drawn: Drawn, f: Findings, source: Option<Digest>): Observation {
    var auth := bundle.permit.authorization.payload;
    Observation(issuer, auth.tenant, auth.audience, CHECK_SCOPE, a.account, CheckedBundleDigest(bundle), previous,
      drawn.checkId, drawn.now, drawn.now + config.freshness, f.sourceRecordedAt, f.result, f.reason, f.sourceStatus,
      source, drawn.nonce)
  }

  lemma PermittedExactly(bundle: Bundle, request: Json, trust: V.TrustStore, config: CheckConfig,
                         observers: ObserverTrust, previous: Option<Digest>, drawn: Drawn, a: RefundArguments)
    ensures (Permitted(bundle, request, trust, config, observers, previous, drawn).Success?
             && Permitted(bundle, request, trust, config, observers, previous, drawn).value.1 == a)
       <==> MayCheck(bundle, request, trust, config, observers, drawn, a)
    ensures MayCheck(bundle, request, trust, config, observers, drawn, a) ==>
      Permitted(bundle, request, trust, config, observers, previous, drawn).Success?
      && Permitted(bundle, request, trust, config, observers, previous, drawn).value.0
         == ReportOf(bundle, config, observers.keys[config.observerKeyId].issuer, a, previous, drawn,
                     Findings(CheckUnknown, SourceUnavailable, None, None), None)
  {
    hide V.VerifyBundle, ParseArguments, InForm, AsJson;
    var r := if request.Obj? && Member(request.fields, "params").Obj? then
               Member(request.fields["params"].fields, "arguments") else Null;
    ArgumentsParseExactly(r, a);
    if ParseArguments(r).Success? { ArgumentsParseExactly(r, ParseArguments(r).value); }
    if config.observerKeyId in observers.keys {
      var blank := BlankReport(bundle, config, observers.keys[config.observerKeyId], a.account, previous, drawn);
      ObserverExactly(SignReport(config.observerKeyId, drawn.signer, blank), observers, trust);
    }
  }

  // A check that may not be made is refused for the first of these.
  lemma CheckIsRefusedFor(bundle: Bundle, request: Json, trust: V.TrustStore, config: CheckConfig,
                          observers: ObserverTrust, previous: Option<Digest>, drawn: Drawn, error: Error)
    requires Permitted(bundle, request, trust, config, observers, previous, drawn) == Failure(error)
    ensures var auth := bundle.permit.authorization.payload;
      var verdict := V.VerifyBundle(bundle.permit, Brought(bundle), trust,
                                    if request.Null? then None else Some(request), None);
      if verdict.rejection.Some? || verdict.claim != V.DestinationCommitAttested then error == CommittedReceiptRequired
      else if !(bundle.receipt.Some? && auth.tenant == config.tenant && auth.audience == config.destination
                && bundle.receipt.value.payload.scope == CHECK_SCOPE && auth.tool == config.tool) then
        error in {CommittedReceiptRequired, CheckScopeMismatch}
      else if !(request.Obj? && Member(request.fields, "method") == Str("tools/call")
                && Member(request.fields, "params").Obj?
                && Member(request.fields["params"].fields, "name") == Str(config.tool)) then error == CheckToolMismatch
      else
        var arguments := ParseArguments(Member(request.fields["params"].fields, "arguments"));
        if arguments.Failure? then error == arguments.error
        else if arguments.value.account != config.account then error == CheckAccountMismatch
        else if config.observerKeyId !in observers.keys
                || observers.keys[config.observerKeyId].status != V.Active then error == ActiveObserverRequired
        else error in {InvalidObservation, ObserverScopeMismatch, ObserverKeyNotSeparate, InvalidObserverSignature}
  {
    hide ParseArguments, V.VerifyBundle;
  }

  // A report is made exactly when a check may be made; it is signed by the configured observer and
  // says what was found, or that nothing could be read.
  lemma ReportIsMadeExactly(bundle: Bundle, request: Json, trust: V.TrustStore, config: CheckConfig,
                            observers: ObserverTrust, previous: Option<Digest>, drawn: Drawn, read: SourceRead,
                            hex: Digest -> string, a: RefundArguments)
    ensures var made := CheckRefund(bundle, request, trust, config, observers, previous, drawn, read, hex);
      && (MayCheck(bundle, request, trust, config, observers, drawn, a) ==>
            made.Success?
            && var issuer := observers.keys[config.observerKeyId].issuer;
            && var (found, source) := match read
                 case Unavailable => (Findings(CheckUnknown, SourceUnavailable, None, None), None)
                 case Read(status, account, refund) =>
                   (EvaluateRefund(status, account, refund, a, bundle.receipt.value.payload, bundle, hex),
                    Some(SourceDigest(status, account, refund, drawn.nonce)));
            && var payload := ReportOf(bundle, config, issuer, a, previous, drawn, found, source);
            made.value == SignedObservation(config.observerKeyId, payload,
                                            ObserverEd25519(drawn.signer, config.observerKeyId, payload)))
      && (made.Success? ==> exists b :: MayCheck(bundle, request, trust, config, observers, drawn, b))
  {
    hide Permitted, MayCheck, EvaluateRefund;
    PermittedExactly(bundle, request, trust, config, observers, previous, drawn, a);
    var permitted := Permitted(bundle, request, trust, config, observers, previous, drawn);
    if permitted.Success? {
      PermittedExactly(bundle, request, trust, config, observers, previous, drawn, permitted.value.1);
    }
    if MayCheck(bundle, request, trust, config, observers, drawn, a) {
      MayCheckHasKey(bundle, request, trust, config, observers, drawn, a);
    }
  }

  lemma MayCheckHasKey(bundle: Bundle, request: Json, trust: V.TrustStore, config: CheckConfig,
                       observers: ObserverTrust, drawn: Drawn, a: RefundArguments)
    requires MayCheck(bundle, request, trust, config, observers, drawn, a)
    ensures config.observerKeyId in observers.keys && bundle.receipt.Some?
  {
    hide V.VerifyBundle, InForm, AsJson;
  }
}
