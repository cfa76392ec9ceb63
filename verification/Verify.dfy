// Offline verification of permits and receipts (evidence/crypto.py, evidence/verify.py).
module Verify {
  import opened Wrappers
  import opened Documents

  datatype Role = GatewayRole | DestinationRole

  datatype KeyStatus = Active | Retired | Revoked

  datatype TrustKey = TrustKey(issuer: string, audience: string, tenant: string, role: Role,
                               publicKey: string, scopes: set<string>, status: KeyStatus)

  // Keys by kid, so a kid names at most one key.
  datatype TrustStore = TrustStore(keys: map<string, TrustKey>)

  predicate ValidTrust(trust: TrustStore) {
    forall a, b | a in trust.keys && b in trust.keys
                  && trust.keys[a].role == GatewayRole && trust.keys[b].role == DestinationRole ::
      trust.keys[a].publicKey != trust.keys[b].publicKey
  }

  function Sign<P>(payload: P, kind: Kind, kid: string, publicKey: string): Signed<P> {
    Signed(kind, kid, payload, Ed25519(publicKey, kind, kid, payload))
  }

  // `issuer`, `audience` and `tenant` are read from the signed payload by the caller.
  function VerifySignature<P(==)>(document: Signed<P>, issuer: string, audience: string, tenant: string,
                                  trust: TrustStore, kind: Kind): Result<TrustKey, Error> {
    if document.kind != kind then Failure(WrongDocumentKind)
    else if document.kid !in trust.keys then Failure(UntrustedKey)
    else
      var key := trust.keys[document.kid];
      if key.status == Revoked then Failure(RevokedKey)
      else if key.role != (if kind == ReceiptKind then DestinationRole else GatewayRole)
              || key.issuer != issuer || key.audience != audience || key.tenant != tenant then
        Failure(KeyScopeMismatch)
      else if document.signature != Ed25519(key.publicKey, document.kind, document.kid, document.payload) then
        Failure(InvalidSignature)
      else Success(key)
  }

  function VerifyPermit(permit: Permit, trust: TrustStore, now: Option<int>): Result<Authorization, Error> {
    var auth := permit.authorization.payload;
    var attempt := permit.attempt.payload;
    if !ValidAuthorization(auth) then Failure(InvalidEvidence)
    else
      var authKey :- VerifySignature(permit.authorization, auth.issuer, auth.audience, auth.tenant,
                                     trust, AuthorizationKind);
      var attemptKey :- VerifySignature(permit.attempt, attempt.issuer, attempt.audience, attempt.tenant,
                                        trust, AttemptKind);
      if (attempt.issuer, attempt.audience, attempt.tenant, attempt.operationId)
         != (auth.issuer, auth.audience, auth.tenant, auth.operationId) then Failure(PermitBindingMismatch)
      else if attempt.authorizationDigest != AuthorizationDigest(permit.authorization) then
        Failure(AuthorizationDigestMismatch)
      else if now.Some? && (authKey.status != Active || attemptKey.status != Active
                            || !(auth.issuedAt <= now.value < auth.expiresAt)) then
        Failure(PermitNotCurrent)
      else Success(auth)
  }

  datatype Claim = NoClaim | AuthorizationRecorded | DestinationReceiptVerified | DestinationCommitAttested

  datatype Authority = UnverifiedAuthority | TrustedGateway | TrustedDestination | AuthorityNotEstablished

  // `effect` None is the verifier's "unknown".
  datatype Verdict = Verdict(authority: Authority, claim: Claim, effect: Option<Effect>,
                             requestVerified: bool, responseVerified: bool, rejection: Option<Error>)

  function Rejected(error: Error, requestVerified: bool): Verdict {
    Verdict(AuthorityNotEstablished, NoClaim, None, requestVerified, false, Some(error))
  }

  // The receipt checks of verify_bundle, in its order; true when the response was compared.
  function VerifyReceipt(permit: Permit, document: SignedReceipt, trust: TrustStore, response: Option<Json>)
      : Result<bool, Error> {
    var auth := permit.authorization.payload;
    var receipt := document.payload;
    if !ValidReceipt(receipt) then Failure(InvalidEvidence)
    else
      var key :- VerifySignature(document, receipt.issuer, receipt.audience, receipt.tenant, trust, ReceiptKind);
      if (receipt.issuer, receipt.audience, receipt.tenant, receipt.operationId, receipt.authorizationId,
          receipt.attemptId, receipt.requestDigest)
         != (auth.audience, auth.issuer, auth.tenant, auth.operationId, auth.authorizationId,
             permit.attempt.payload.attemptId, auth.requestDigest) then Failure(ReceiptBindingMismatch)
      else if receipt.attemptDigest != AttemptDigest(permit) then Failure(AttemptDigestMismatch)
      else if receipt.scope !in key.scopes then Failure(UntrustedEffectScope)
      else if response.Some? && receipt.responseDigest != ResponseDigest(response.value, receipt.responseNonce) then
        Failure(ResponseMismatch)
      else Success(response.Some?)
  }

  // `receipt` is the raw field of the bundle: Null, a signed receipt, or something else.
  function VerifyBundle(permit: Permit, receipt: Json, trust: TrustStore,
                        request: Option<Json>, response: Option<Json>): Verdict {
    if !receipt.Null? && !receipt.ReceiptDoc? then Rejected(InvalidEvidence, false)
    else
      match VerifyPermit(permit, trust, None)
      case Failure(error) => Rejected(error, false)
      case Success(auth) =>
        if request.Some? && auth.requestDigest != RequestDigest(request.value, auth.requestNonce) then
          Rejected(RequestMismatch, false)
        else if receipt.Null? then
          Verdict(TrustedGateway, AuthorizationRecorded, None, request.Some?, false, None)
        else
          match VerifyReceipt(permit, receipt.receipt, trust, response)
          case Failure(error) => Rejected(error, request.Some?)
          case Success(compared) =>
            Verdict(TrustedDestination,
              if receipt.receipt.payload.effect == Committed then DestinationCommitAttested
              else DestinationReceiptVerified,
              Some(receipt.receipt.payload.effect), request.Some?, compared, None)
  }

  // The same, the way verify_bundle goes about it: a result filled in step by step, and replaced by
  // a rejection as soon as something does not fit.
  method CheckBundle(permit: Permit, receipt: Json, trust: TrustStore, request: Option<Json>, response: Option<Json>)
    returns (result: Verdict)
    ensures result == VerifyBundle(permit, receipt, trust, request, response)
  {
    hide VerifyPermit, VerifySignature;
    result := Verdict(UnverifiedAuthority, NoClaim, None, false, false, None);
    if !receipt.Null? && !receipt.ReceiptDoc? { return Rejected(InvalidEvidence, false); }
    var verified := VerifyPermit(permit, trust, None);
    if verified.Failure? { return Rejected(verified.error, false); }
    result := result.(authority := TrustedGateway, claim := AuthorizationRecorded);
    if request.Some? {
      if RequestDigest(request.value, verified.value.requestNonce) != verified.value.requestDigest {
        return Rejected(RequestMismatch, false);
      }
      result := result.(requestVerified := true);
    }
    if receipt.Null? { return; }
    var compared := CheckReceipt(permit, receipt.receipt, trust, response);
    if compared.Failure? { return Rejected(compared.error, result.requestVerified); }
    result := result.(responseVerified := compared.value);
    result := result.(authority := TrustedDestination, claim := DestinationReceiptVerified,
                      effect := Some(receipt.receipt.payload.effect));
    if receipt.receipt.payload.effect == Committed { result := result.(claim := DestinationCommitAttested); }
  }

  method CheckReceipt(permit: Permit, document: SignedReceipt, trust: TrustStore, response: Option<Json>)
    returns (r: Result<bool, Error>)
    ensures r == VerifyReceipt(permit, document, trust, response)
  {
    hide VerifySignature;
    var auth := permit.authorization.payload;
    var receipt := document.payload;
    if !ValidReceipt(receipt) { return Failure(InvalidEvidence); }
    var key := VerifySignature(document, receipt.issuer, receipt.audience, receipt.tenant, trust, ReceiptKind);
    if key.Failure? { return Failure(key.error); }
    if (receipt.issuer, receipt.audience, receipt.tenant, receipt.operationId, receipt.authorizationId,
        receipt.attemptId, receipt.requestDigest)
       != (auth.audience, auth.issuer, auth.tenant, auth.operationId, auth.authorizationId,
           permit.attempt.payload.attemptId, auth.requestDigest) { return Failure(ReceiptBindingMismatch); }
    if receipt.attemptDigest != AttemptDigest(permit) { return Failure(AttemptDigestMismatch); }
    if receipt.scope !in key.value.scopes { return Failure(UntrustedEffectScope); }
    if response.Some? {
      if ResponseDigest(response.value, receipt.responseNonce) != receipt.responseDigest {
        return Failure(ResponseMismatch);
      }
    }
    r := Success(response.Some?);
  }

  function StoredReceipt(bundle: Bundle): Json {
    if bundle.receipt.Some? then ReceiptDoc(bundle.receipt.value) else Null
  }

  // A signature verifies for one payload only: the one its key holder signed.
  lemma SignatureNamesItsSigner<P>(document: Signed<P>, issuer: string, audience: string, tenant: string,
                                   trust: TrustStore, kind: Kind)
    requires VerifySignature(document, issuer, audience, tenant, trust, kind).Success?
    ensures document.kid in trust.keys
    ensures document == Sign(document.payload, kind, document.kid, trust.keys[document.kid].publicKey)
  {
  }

  // A receipt cannot be replayed: it verifies behind one permit, for one response, and its permit
  // verifies for one request.
  lemma ReceiptIsNotTransferable(p: Permit, q: Permit, receipt: Json, trust: TrustStore,
                                 request: Json, request': Json, response: Json, response': Json)
    requires receipt.ReceiptDoc?
    requires VerifyBundle(p, receipt, trust, Some(request), Some(response)).rejection.None?
    requires VerifyBundle(q, receipt, trust, Some(request'), Some(response')).rejection.None?
    ensures p == q && request == request' && response == response'
  {
    assert AttemptDigest(p) == AttemptDigest(q);
  }

  // What a commit claim amounts to, read off the documents instead of the verifier's steps.
  ghost predicate CommitAttested(permit: Permit, receipt: Json, trust: TrustStore) {
    && receipt.ReceiptDoc?
    && var r := receipt.receipt; var auth := permit.authorization.payload;
    && VerifyPermit(permit, trust, None).Success?
    && r.kid in trust.keys
    && r == Sign(r.payload, ReceiptKind, r.kid, trust.keys[r.kid].publicKey)
    && trust.keys[r.kid].role == DestinationRole && trust.keys[r.kid].status != Revoked
    && trust.keys[r.kid].issuer == auth.audience && trust.keys[r.kid].audience == auth.issuer
    && trust.keys[r.kid].tenant == auth.tenant
    && r.payload.scope in trust.keys[r.kid].scopes
    && r.payload == Receipt(auth.audience, auth.issuer, auth.tenant, auth.operationId, auth.authorizationId,
         permit.attempt.payload.attemptId, r.payload.receiptId, AttemptDigest(permit), auth.requestDigest,
         r.payload.responseDigest, r.payload.responseNonce, Committed, r.payload.scope,
         r.payload.transactionRef, r.payload.sequence, r.payload.recordedAt)
    && ValidReceipt(r.payload)
  }

  lemma CommitClaimMeaning(permit: Permit, receipt: Json, trust: TrustStore)
    ensures VerifyBundle(permit, receipt, trust, None, None).claim == DestinationCommitAttested
       <==> CommitAttested(permit, receipt, trust)
    ensures VerifyBundle(permit, receipt, trust, None, None).claim == DestinationCommitAttested
        ==> VerifyBundle(permit, receipt, trust, None, None).rejection.None?
  {
    if CommitAttested(permit, receipt, trust) {
      var r := receipt.receipt;
      assert VerifySignature(r, r.payload.issuer, r.payload.audience, r.payload.tenant, trust, ReceiptKind).Success?;
    }
  }
}
