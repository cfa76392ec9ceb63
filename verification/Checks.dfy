// External checks of a committed refund (evidence/checks.py, evidence/check_models.py): observer
// reports that are signed, bound to one bundle, and chained.
module Checks {
  import opened Wrappers
  import opened Documents
  import opened Store
  import H = HashChain
  import V = Verify

  datatype ObserverKey = ObserverKey(issuer: string, tenant: string, destination: string, scope: string,
                                     account: string, publicKey: string, status: V.KeyStatus, administration: string)

  // Observer keys by kid; the source is the same for all.
  datatype ObserverTrust = ObserverTrust(keys: map<string, ObserverKey>)

  function KeyOf(document: SignedObservation, observers: ObserverTrust,
                 trust: V.TrustStore): Result<ObserverKey, Error> {
    var payload := document.payload;
    if document.kid !in observers.keys || observers.keys[document.kid].status == V.Revoked then
      Failure(UntrustedObserver)
    else
      var key := observers.keys[document.kid];
      if (key.issuer, key.tenant, key.destination, key.scope, key.account)
         != (payload.issuer, payload.tenant, payload.destination, payload.scope, payload.account) then
        Failure(ObserverScopeMismatch)
      else if exists kid :: kid in trust.keys && trust.keys[kid].publicKey == key.publicKey then
        Failure(ObserverKeyNotSeparate)
      else if document.signature != ObserverEd25519(key.publicKey, document.kid, payload) then
        Failure(InvalidObserverSignature)
      else Success(key)
  }

  // An accepted report was signed by the observer it names, and by nobody whose key the gateway
  // trusts for permits or receipts.
  lemma ObserverIsSeparate(document: SignedObservation, observers: ObserverTrust, trust: V.TrustStore)
    requires KeyOf(document, observers, trust).Success?
    ensures document.kid in observers.keys && observers.keys[document.kid].status != V.Revoked
    ensures document == SignReport(document.kid, observers.keys[document.kid].publicKey, document.payload)
    ensures forall kid | kid in trust.keys :: document.signature.ObserverEd25519?
              && document.signature.publicKey != trust.keys[kid].publicKey
    ensures var key := observers.keys[document.kid];
      (document.payload.issuer, document.payload.tenant, document.payload.destination, document.payload.account)
      == (key.issuer, key.tenant, key.destination, key.account)
  {
  }

  // -------- Verification of a bundle with its history --------

  datatype Entry = Entry(checkId: string, result: CheckResult, reason: CheckReason, sourceStatus: Option<SourceStatus>,
                         checkedAt: int, sourceRecordedAt: Option<int>, expiresAt: int, current: bool,
                         account: string, observer: string, administration: string)

  // `history` is None when the bundle itself was rejected before its reports were looked at.
  datatype CheckedVerdict = CheckedVerdict(verdict: V.Verdict, history: Option<seq<Entry>>)

  function Predecessor(documents: seq<SignedObservation>, i: nat): Option<Digest>
    requires i <= |documents|
  {
    if i == 0 then None else Some(ObservationDigest(documents[i - 1]))
  }

  // What is wrong with one report behind a bundle whose claim is `claim`, if anything.
  function ReportError(evidence: Bundle, claim: V.Claim, document: SignedObservation, previous: Option<Digest>,
                       observers: ObserverTrust, trust: V.TrustStore): Option<Error> {
    var payload := document.payload;
    var auth := evidence.permit.authorization.payload;
    if KeyOf(document, observers, trust).Failure? then Some(KeyOf(document, observers, trust).error)
    else if claim != V.DestinationCommitAttested || evidence.receipt.None?
            || evidence.receipt.value.payload.scope != payload.scope then Some(ObservationEffectScopeMismatch)
    else if payload.evidenceDigest != CheckedBundleDigest(evidence) || payload.previousDigest != previous
            || payload.tenant != auth.tenant || payload.destination != auth.audience then
      Some(ObservationBindingMismatch)
    else None
  }

  function EvidenceVerdict(evidence: Bundle, trust: V.TrustStore, request: Option<Json>,
                           response: Option<Json>): V.Verdict {
    V.VerifyBundle(evidence.permit, V.StoredReceipt(evidence), trust, request, response)
  }

  // The model validators of CheckedBundle.
  predicate WellFormed(bundle: CheckedBundle) {
    |bundle.observations| <= 256
    && forall i | 0 <= i < |bundle.observations| :: ValidObservation(bundle.observations[i].payload)
  }

  // The first `n` reports are in order.
  predicate ReportsVerify(evidence: Bundle, claim: V.Claim, documents: seq<SignedObservation>, n: nat,
                          observers: ObserverTrust, trust: V.TrustStore)
    requires n <= |documents|
  {
    forall i | 0 <= i < n ::
      ReportError(evidence, claim, documents[i], Predecessor(documents, i), observers, trust).None?
  }

  predicate Verifies(bundle: CheckedBundle, trust: V.TrustStore, observers: ObserverTrust,
                     request: Option<Json>, response: Option<Json>) {
    var verdict := EvidenceVerdict(bundle.evidence, trust, request, response);
    && WellFormed(bundle) && verdict.rejection.None?
    && ReportsVerify(bundle.evidence, verdict.claim, bundle.observations, |bundle.observations|, observers, trust)
  }

  function EntryOf(document: SignedObservation, observers: ObserverTrust, now: int): Entry
    requires document.kid in observers.keys
  {
    var p := document.payload;
    Entry(p.checkId, p.result, p.reason, p.sourceStatus, p.checkedAt, p.sourceRecordedAt, p.expiresAt,
      p.checkedAt <= now < p.expiresAt, p.account, p.issuer, observers.keys[document.kid].administration)
  }

  lemma RejectionClaimsNothing(evidence: Bundle, trust: V.TrustStore, request: Option<Json>, response: Option<Json>)
    ensures var verdict := EvidenceVerdict(evidence, trust, request, response);
      verdict.rejection.Some? ==> verdict.claim == V.NoClaim && verdict.effect.None?
  {
  }

  lemma OrderedReportHasKey(evidence: Bundle, claim: V.Claim, document: SignedObservation, previous: Option<Digest>,
                            observers: ObserverTrust, trust: V.TrustStore)
    requires ReportError(evidence, claim, document, previous, observers, trust).None?
    ensures document.kid in observers.keys && KeyOf(document, observers, trust) == Success(observers.keys[document.kid])
  {
  }

  // `error` is what is wrong with the earliest report that is not in order.
  predicate FirstBadReport(evidence: Bundle, claim: V.Claim, documents: seq<SignedObservation>,
                           observers: ObserverTrust, trust: V.TrustStore, error: Option<Error>) {
    exists i :: 0 <= i < |documents|
      && ReportsVerify(evidence, claim, documents, i, observers, trust)
      && error == ReportError(evidence, claim, documents[i], Predecessor(documents, i), observers, trust)
  }

  predicate Listed(history: seq<Entry>, documents: seq<SignedObservation>, n: nat, observers: ObserverTrust, now: int)
    requires n <= |documents|
  {
    |history| == n && forall i | 0 <= i < n ::
      documents[i].kid in observers.keys && history[i] == EntryOf(documents[i], observers, now)
  }

  lemma OneMoreReport(bundle: CheckedBundle, claim: V.Claim, i: nat, observers: ObserverTrust, trust: V.TrustStore,
                      history: seq<Entry>, now: int)
    requires i < |bundle.observations| && Listed(history, bundle.observations, i, observers, now)
    requires ReportsVerify(bundle.evidence, claim, bundle.observations, i, observers, trust)
    requires ReportError(bundle.evidence, claim, bundle.observations[i], Predecessor(bundle.observations, i),
                         observers, trust).None?
    ensures ReportsVerify(bundle.evidence, claim, bundle.observations, i + 1, observers, trust)
    ensures bundle.observations[i].kid in observers.keys
    ensures Listed(history + [EntryOf(bundle.observations[i], observers, now)], bundle.observations, i + 1, observers,
                   now)
  {
    hide ReportError;
    OrderedReportHasKey(bundle.evidence, claim, bundle.observations[i], Predecessor(bundle.observations, i), observers,
                        trust);
  }

  lemma BadReport(bundle: CheckedBundle, i: nat, observers: ObserverTrust, trust: V.TrustStore,
                  request: Option<Json>, response: Option<Json>, error: Option<Error>)
    requires var claim := EvidenceVerdict(bundle.evidence, trust, request, response).claim;
      && i < |bundle.observations| && ReportsVerify(bundle.evidence, claim, bundle.observations, i, observers, trust)
      && error.Some?
      && error == ReportError(bundle.evidence, claim, bundle.observations[i], Predecessor(bundle.observations, i),
                              observers, trust)
    ensures !Verifies(bundle, trust, observers, request, response)
    ensures FirstBadReport(bundle.evidence, EvidenceVerdict(bundle.evidence, trust, request, response).claim,
                           bundle.observations, observers, trust, error)
  {
    hide ReportError, EvidenceVerdict;
  }

  method VerifyChecked(bundle: CheckedBundle, trust: V.TrustStore, observers: ObserverTrust,
                       request: Option<Json>, response: Option<Json>, now: int) returns (r: CheckedVerdict)
    ensures r.verdict.rejection.None? <==> Verifies(bundle, trust, observers, request, response)
    ensures r.verdict.rejection.None? ==>
      && r.verdict == EvidenceVerdict(bundle.evidence, trust, request, response)
      && r.history.Some? && Listed(r.history.value, bundle.observations, |bundle.observations|, observers, now)
    ensures r.verdict.rejection.Some? ==> r.verdict.claim == V.NoClaim && r.verdict.effect.None? && r.history.None?
    ensures r.verdict.rejection.Some? && WellFormed(bundle)
            && EvidenceVerdict(bundle.evidence, trust, request, response).rejection.None? ==>
      FirstBadReport(bundle.evidence, EvidenceVerdict(bundle.evidence, trust, request, response).claim,
                     bundle.observations, observers, trust, r.verdict.rejection)
  {
    if !WellFormed(bundle) { return CheckedVerdict(V.Rejected(InvalidEvidence, false), None); }
    hide EvidenceVerdict, ReportError, FirstBadReport, Listed;
    var verdict := EvidenceVerdict(bundle.evidence, trust, request, response);
    if verdict.rejection.Some? {
      RejectionClaimsNothing(bundle.evidence, trust, request, response);
      return CheckedVerdict(verdict, None);
    }
    var history: seq<Entry> := [];
    var previous: Option<Digest> := None;
    var observations := bundle.observations;
    NothingListed(observations, observers, now);
    for i := 0 to |observations|
      invariant previous == Predecessor(observations, i)
      invariant ReportsVerify(bundle.evidence, verdict.claim, observations, i, observers, trust)
      invariant Listed(history, observations, i, observers, now)
    {
      var error := ReportError(bundle.evidence, verdict.claim, observations[i], previous, observers, trust);
      if error.Some? {
        BadReport(bundle, i, observers, trust, request, response, error);
        return CheckedVerdict(V.Rejected(error.value, false), None);
      }
      OneMoreReport(bundle, verdict.claim, i, observers, trust, history, now);
      history := history + [EntryOf(observations[i], observers, now)];
      previous := Some(ObservationDigest(observations[i]));
    }
    r := CheckedVerdict(verdict, Some(history));
  }

  lemma NothingListed(documents: seq<SignedObservation>, observers: ObserverTrust, now: int)
    ensures Listed([], documents, 0, observers, now)
  {
  }

  function Link(document: SignedObservation): Option<Digest> {
    document.payload.previousDigest
  }

  lemma DigestsAreInjective()
    ensures H.Injective((d: SignedObservation) => ObservationDigest(d))
  {
  }

  lemma ReportsAreChained(evidence: Bundle, claim: V.Claim, documents: seq<SignedObservation>, n: nat,
                          observers: ObserverTrust, trust: V.TrustStore)
    requires n <= |documents| && ReportsVerify(evidence, claim, documents, n, observers, trust)
    ensures H.Linked(documents, n, Link, (d: SignedObservation) => ObservationDigest(d))
    ensures n > 0 ==> documents[n - 1].payload.evidenceDigest == CheckedBundleDigest(evidence)
  {
    forall i | 0 <= i < n
      ensures Link(documents[i]) == H.Before(documents, i, (d: SignedObservation) => ObservationDigest(d))
      ensures documents[i].payload.evidenceDigest == CheckedBundleDigest(evidence)
    {
      assert ReportError(evidence, claim, documents[i], Predecessor(documents, i), observers, trust).None?;
    }
  }

  // The last digest commits to the whole history and to the bundle behind it, whoever verifies.
  lemma EqualHeadsEqualHistories(a: CheckedBundle, b: CheckedBundle, trust: V.TrustStore, trust': V.TrustStore,
                                 observers: ObserverTrust, observers': ObserverTrust)
    requires Verifies(a, trust, observers, None, None) && Verifies(b, trust', observers', None, None)
    requires a.observations != [] && b.observations != []
    requires ObservationDigest(a.observations[|a.observations| - 1])
      == ObservationDigest(b.observations[|b.observations| - 1])
    ensures a == b
  {
    hide ReportsVerify, WellFormed, EvidenceVerdict, H.Linked, H.Injective;
    var n, m := |a.observations|, |b.observations|;
    ReportsAreChained(a.evidence, EvidenceVerdict(a.evidence, trust, None, None).claim, a.observations, n, observers,
                      trust);
    ReportsAreChained(b.evidence, EvidenceVerdict(b.evidence, trust', None, None).claim, b.observations, m, observers',
                      trust');
    DigestsAreInjective();
    H.LastDetermines(a.observations, n, b.observations, m, Link, (d: SignedObservation) => ObservationDigest(d));
  }

  // -------- Making a report --------

  // The receipt scope is CHECK_SCOPE.
  datatype CheckConfig = CheckConfig(tenant: string, destination: string, tool: string, account: string,
                                     observerKeyId: string, freshness: nat)

  datatype RefundArguments = RefundArguments(amount: int, currency: string, charge: string, account: string)

  // What the provider's API gave: a failure of any kind, or a status with two documents.
  datatype SourceRead = Unavailable | Read(status: int, account: Json, refund: Json)

  datatype Findings = Findings(result: CheckResult, reason: CheckReason, sourceStatus: Option<SourceStatus>,
                               sourceRecordedAt: Option<int>)

  predicate Alphanumeric(s: string) {
    s != "" && forall i | 0 <= i < |s| :: 'A' <= s[i] <= 'Z' || 'a' <= s[i] <= 'z' || '0' <= s[i] <= '9'
  }

  predicate Prefixed(s: string, prefix: string) {
    prefix <= s && Alphanumeric(s[|prefix|..])
  }

  function ParseArguments(args: Json): Result<RefundArguments, Error> {
    if !args.Obj? || args.fields.Keys != {"amount_minor", "currency", "charge", "account"} then Failure(InvalidEvidence)
    else
      var f := args.fields;
      if !f["amount_minor"].Num? || !f["currency"].Str? || !f["charge"].Str? || !f["account"].Str? then
        Failure(InvalidEvidence)
      else
        var currency := f["currency"].s;
        if !(0 < f["amount_minor"].n <= 9007199254740991) || |currency| != 3
           || (exists i :: 0 <= i < |currency| && !('a' <= currency[i] <= 'z'))
           || !Prefixed(f["charge"].s, "ch_") || !Prefixed(f["account"].s, "acct_") then Failure(InvalidEvidence)
        else Success(RefundArguments(f["amount_minor"].n, currency, f["charge"].s, f["account"].s))
  }

  // dict.get: a missing member reads as null.
  function Member(d: Dict, key: string): Json {
    if key in d then d[key] else Null
  }

  function Text(s: Option<string>): Json {
    if s.Some? then Str(s.value) else Null
  }

  function StatusOf(status: Json): Option<SourceStatus> {
    if status == Str("succeeded") then Some(SourceSucceeded)
    else if status == Str("failed") then Some(SourceFailed)
    else if status == Str("canceled") then Some(SourceCanceled)
    else if status == Str("pending") then Some(SourceIsPending)
    else if status == Str("requires_action") then Some(SourceRequiresAction)
    else None
  }

  predicate BoundTo(metadata: Json, bundle: Bundle, hex: Digest -> string) {
    var auth := bundle.permit.authorization.payload;
    && metadata.Obj?
    && Member(metadata.fields, "mcpzt_operation_id") == Str(auth.operationId)
    && Member(metadata.fields, "mcpzt_authorization_id") == Str(auth.authorizationId)
    && Member(metadata.fields, "mcpzt_attempt_id") == Str(bundle.permit.attempt.payload.attemptId)
    && Member(metadata.fields, "mcpzt_request_digest") == Str(hex(auth.requestDigest))
  }

  function EvaluateRefund(status: int, account: Json, refund: Json, args: RefundArguments, receipt: Receipt,
                          bundle: Bundle, hex: Digest -> string): Findings {
    if status != 200 then
      Findings(CheckUnknown, if status == 404 && !account.Null? then SourceNotFound else SourceUnavailable, None, None)
    else if !account.Obj? || Member(account.fields, "id") != Str(args.account) then
      Findings(CheckUnknown, AccountMismatch, None, None)
    else if !refund.Obj? then Findings(CheckUnknown, SourceInvalid, None, None)
    else
      var r := refund.fields;
      if Member(r, "object") != Str("refund") || !Member(r, "created").Num? || Member(r, "created").n < 0
         || !Member(r, "amount").Num? then Findings(CheckUnknown, SourceInvalid, None, None)
      else
        var recorded := Some(r["created"].n);
        if (Member(r, "id"), r["amount"].n, Member(r, "currency"), Member(r, "charge"))
           != (Text(receipt.transactionRef), args.amount, Str(args.currency), Str(args.charge)) then
          Findings(Contradicted, FieldMismatch, None, recorded)
        else if !BoundTo(Member(r, "metadata"), bundle, hex) then
          Findings(CheckUnknown, BindingMismatch, None, recorded)
        else
          match StatusOf(Member(r, "status"))
          case None => Findings(CheckUnknown, UnsupportedStatus, None, recorded)
          case Some(SourceSucceeded) => Findings(Corroborated, StatusMatch, Some(SourceSucceeded), recorded)
          case Some(SourceFailed) => Findings(Contradicted, StatusConflict, Some(SourceFailed), recorded)
          case Some(SourceCanceled) => Findings(Contradicted, StatusConflict, Some(SourceCanceled), recorded)
          case Some(other) => Findings(CheckPending, SourcePending, Some(other), recorded)
  }

  // Draws of a check, and the key it signs with.
  datatype Drawn = Drawn(signer: string, checkId: string, nonce: string, now: int)

  function BlankReport(bundle: Bundle, config: CheckConfig, key: ObserverKey, account: string,
                       previous: Option<Digest>, drawn: Drawn): Observation {
    var auth := bundle.permit.authorization.payload;
    Observation(key.issuer, auth.tenant, auth.audience, CHECK_SCOPE, account, CheckedBundleDigest(bundle), previous,
      drawn.checkId, drawn.now, drawn.now + config.freshness, None, CheckUnknown, SourceUnavailable, None, None,
      drawn.nonce)
  }

  function Filled(blank: Observation, findings: Findings, digest: Digest): Observation {
    blank.(result := findings.result, reason := findings.reason, sourceStatus := findings.sourceStatus,
           sourceRecordedAt := findings.sourceRecordedAt, sourceDigest := Some(digest))
  }

  function SignReport(kid: string, signer: string, payload: Observation): SignedObservation {
    SignedObservation(kid, payload, ObserverEd25519(signer, kid, payload))
  }

  // Everything check_refund insists on before it reads the provider: the blank report and the arguments.
  function Permitted(bundle: Bundle, request: Json, trust: V.TrustStore, config: CheckConfig, observers: ObserverTrust,
                     previous: Option<Digest>, drawn: Drawn): Result<(Observation, RefundArguments), Error> {
    var verdict := EvidenceVerdict(bundle, trust, if request.Null? then None else Some(request), None);
    if verdict.rejection.Some? || verdict.claim != V.DestinationCommitAttested || bundle.receipt.None? then
      Failure(CommittedReceiptRequired)
    else
      var auth := bundle.permit.authorization.payload;
      if (auth.tenant, auth.audience, bundle.receipt.value.payload.scope, auth.tool)
         != (config.tenant, config.destination, CHECK_SCOPE, config.tool) then Failure(CheckScopeMismatch)
      else if !request.Obj? || Member(request.fields, "method") != Str("tools/call")
              || !Member(request.fields, "params").Obj?
              || Member(request.fields["params"].fields, "name") != Str(config.tool) then Failure(CheckToolMismatch)
      else
        var args :- ParseArguments(Member(request.fields["params"].fields, "arguments"));
        if args.account != config.account then Failure(CheckAccountMismatch)
        else if config.observerKeyId !in observers.keys || observers.keys[config.observerKeyId].status != V.Active then
          Failure(ActiveObserverRequired)
        else
          var blank := BlankReport(bundle, config, observers.keys[config.observerKeyId], args.account, previous, drawn);
          if !ValidObservation(blank) then Failure(InvalidObservation)
          else
            var _ :- KeyOf(SignReport(config.observerKeyId, drawn.signer, blank), observers, trust);
            Success((blank, args))
  }

  function CheckRefund(bundle: Bundle, request: Json, trust: V.TrustStore, config: CheckConfig,
                       observers: ObserverTrust, previous: Option<Digest>, drawn: Drawn, read: SourceRead,
                       hex: Digest -> string)
      : Result<SignedObservation, Error> {
    var (blank, args) :- Permitted(bundle, request, trust, config, observers, previous, drawn);
    if read.Unavailable? || bundle.receipt.None? then Success(SignReport(config.observerKeyId, drawn.signer, blank))
    else
      var findings := EvaluateRefund(read.status, read.account, read.refund, args, bundle.receipt.value.payload,
                                     bundle, hex);
      Success(SignReport(config.observerKeyId, drawn.signer,
        Filled(blank, findings, SourceDigest(read.status, read.account, read.refund, drawn.nonce))))
  }

  // Whatever the provider answers, the findings obey the report's consistency rules.
  lemma FindingsAreConsistent(blank: Observation, status: int, account: Json, refund: Json, args: RefundArguments,
                              receipt: Receipt, bundle: Bundle, hex: Digest -> string, digest: Digest)
    requires ValidObservation(blank)
    ensures ValidObservation(Filled(blank, EvaluateRefund(status, account, refund, args, receipt, bundle, hex), digest))
  {
    hide BoundTo;
  }

  // Only succeeded refunds with every field and binding in place are corroborated.
  lemma CorroboratedMeans(status: int, account: Json, refund: Json, args: RefundArguments, receipt: Receipt,
                          bundle: Bundle, hex: Digest -> string)
    ensures EvaluateRefund(status, account, refund, args, receipt, bundle, hex).result == Corroborated <==>
      (status == 200 && account.Obj? && Member(account.fields, "id") == Str(args.account)
       && refund.Obj? && var r := refund.fields;
       && Member(r, "object") == Str("refund") && Member(r, "created").Num? && Member(r, "created").n >= 0
       && Member(r, "amount") == Num(args.amount) && Member(r, "id") == Text(receipt.transactionRef)
       && Member(r, "currency") == Str(args.currency) && Member(r, "charge") == Str(args.charge)
       && BoundTo(Member(r, "metadata"), bundle, hex) && Member(r, "status") == Str("succeeded"))
  {
    hide BoundTo;
  }

  method CheckNow(bundle: Bundle, request: Json, trust: V.TrustStore, config: CheckConfig, observers: ObserverTrust,
                  previous: Option<Digest>, drawn: Drawn, read: SourceRead, hex: Digest -> string)
    returns (r: Result<SignedObservation, Error>)
    ensures r == CheckRefund(bundle, request, trust, config, observers, previous, drawn, read, hex)
    ensures r.Success? ==> ValidObservation(r.value.payload) && KeyOf(r.value, observers, trust).Success?
  {
    hide Permitted, EvaluateRefund;
    var permitted := Permitted(bundle, request, trust, config, observers, previous, drawn);
    if permitted.Failure? { return Failure(permitted.error); }
    PermittedMeans(bundle, request, trust, config, observers, previous, drawn);
    var (payload, args) := permitted.value;
    if read.Read? {
      var findings := EvaluateRefund(read.status, read.account, read.refund, args, bundle.receipt.value.payload,
                                     bundle, hex);
      var filled := Filled(payload, findings, SourceDigest(read.status, read.account, read.refund, drawn.nonce));
      FindingsAreConsistent(payload, read.status, read.account, read.refund, args, bundle.receipt.value.payload, bundle,
        hex, SourceDigest(read.status, read.account, read.refund, drawn.nonce));
      payload := if ValidObservation(filled) then filled else payload.(reason := SourceUnavailable);
    }
    // Signing checks the key once more, against fields that have not changed since.
    r := Success(SignReport(config.observerKeyId, drawn.signer, payload));
    assert KeyOf(r.value, observers, trust).Success?;
  }

  // What a report needs to stand behind a bundle.
  predicate Sound(bundle: Bundle, document: SignedObservation, trust: V.TrustStore, observers: ObserverTrust) {
    && ValidObservation(document.payload)
    && document.payload.evidenceDigest == CheckedBundleDigest(bundle)
    && ReportError(bundle, EvidenceVerdict(bundle, trust, None, None).claim, document, document.payload.previousDigest,
                   observers, trust).None?
    && EvidenceVerdict(bundle, trust, None, None).claim == V.DestinationCommitAttested
    && EvidenceVerdict(bundle, trust, None, None).rejection.None?
    && bundle.receipt.Some? && bundle.receipt.value.payload.effect == Committed
  }

  lemma PermittedMeans(bundle: Bundle, request: Json, trust: V.TrustStore, config: CheckConfig,
                       observers: ObserverTrust, previous: Option<Digest>, drawn: Drawn)
    requires Permitted(bundle, request, trust, config, observers, previous, drawn).Success?
    ensures var blank := Permitted(bundle, request, trust, config, observers, previous, drawn).value.0;
      && ValidObservation(blank)
      && KeyOf(SignReport(config.observerKeyId, drawn.signer, blank), observers, trust).Success?
      && blank.evidenceDigest == CheckedBundleDigest(bundle) && blank.previousDigest == previous
      && blank.scope == CHECK_SCOPE && blank.tenant == bundle.permit.authorization.payload.tenant
      && blank.destination == bundle.permit.authorization.payload.audience
      && bundle.receipt.Some? && bundle.receipt.value.payload.scope == CHECK_SCOPE
    ensures EvidenceVerdict(bundle, trust, if request.Null? then None else Some(request), None).claim
      == V.DestinationCommitAttested
  {
    hide EvidenceVerdict, ParseArguments, KeyOf;
  }

  lemma RequestOnlyAddsAComparison(bundle: Bundle, trust: V.TrustStore, request: Option<Json>)
    requires EvidenceVerdict(bundle, trust, request, None).claim == V.DestinationCommitAttested
    ensures var verdict := EvidenceVerdict(bundle, trust, None, None);
      && verdict.claim == V.DestinationCommitAttested && verdict.rejection.None?
      && bundle.receipt.Some? && bundle.receipt.value.payload.effect == Committed
  {
  }

  // Every report made for a bundle is sound for it and continues the history it was told of.
  lemma CheckIsSound(bundle: Bundle, request: Json, trust: V.TrustStore, config: CheckConfig, observers: ObserverTrust,
                     previous: Option<Digest>, drawn: Drawn, read: SourceRead, hex: Digest -> string)
    requires CheckRefund(bundle, request, trust, config, observers, previous, drawn, read, hex).Success?
    ensures var document := CheckRefund(bundle, request, trust, config, observers, previous, drawn, read, hex).value;
      Sound(bundle, document, trust, observers) && document.payload.previousDigest == previous
  {
    hide Permitted, EvaluateRefund, EvidenceVerdict;
    PermittedMeans(bundle, request, trust, config, observers, previous, drawn);
    RequestOnlyAddsAComparison(bundle, trust, if request.Null? then None else Some(request));
    var (blank, args) := Permitted(bundle, request, trust, config, observers, previous, drawn).value;
    if read.Read? {
      FindingsAreConsistent(blank, read.status, read.account, read.refund, args, bundle.receipt.value.payload, bundle,
        hex, SourceDigest(read.status, read.account, read.refund, drawn.nonce));
    }
  }
}
