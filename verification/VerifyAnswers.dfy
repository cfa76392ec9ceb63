// What verifies: read off the documents and the trust store instead of the verifier's steps.
module VerifyAnswers {
  import opened Wrappers
  import opened Documents
  import opened Verify

  // The key a document names: it is trusted for these parties in this role, and not revoked.
  predicate Trusted(trust: TrustStore, kid: string, role: Role, issuer: string, audience: string, tenant: string) {
    && kid in trust.keys && trust.keys[kid].status in {Active, Retired} && trust.keys[kid].role == role
    && trust.keys[kid].issuer == issuer && trust.keys[kid].audience == audience && trust.keys[kid].tenant == tenant
  }

  // A signature by a key holder over exactly this document.
  predicate SignedBy<P(==)>(document: Signed<P>, kind: Kind, publicKey: string) {
    document == Signed(kind, document.kid, document.payload, Ed25519(publicKey, kind, document.kid, document.payload))
  }

  // A permit that stands: both halves are signed by trusted gateway keys for one operation, and the
  // attempt commits to the authorization. At a given time, the keys are active and it is in its window.
  predicate PermitStands(permit: Permit, trust: TrustStore, now: Option<int>) {
    var auth, attempt := permit.authorization.payload, permit.attempt.payload;
    var k, j := permit.authorization.kid, permit.attempt.kid;
    && 0 <= auth.issuedAt && 1 <= auth.expiresAt - auth.issuedAt <= 300 && auth.tool != "" && auth.operationId != ""
    && Trusted(trust, k, GatewayRole, auth.issuer, auth.audience, auth.tenant)
    && Trusted(trust, j, GatewayRole, auth.issuer, auth.audience, auth.tenant)
    && SignedBy(permit.authorization, AuthorizationKind, trust.keys[k].publicKey)
    && SignedBy(permit.attempt, AttemptKind, trust.keys[j].publicKey)
    && attempt.issuer == auth.issuer && attempt.audience == auth.audience && attempt.tenant == auth.tenant
    && attempt.operationId == auth.operationId
    && attempt.authorizationDigest == AuthorizationDigest(permit.authorization)
    && (now.Some? ==> trust.keys[k].status == Active == trust.keys[j].status
                      && auth.issuedAt <= now.value < auth.expiresAt)
  }

  lemma PermitVerifiesExactly(permit: Permit, trust: TrustStore, now: Option<int>)
    ensures VerifyPermit(permit, trust, now).Success? <==> PermitStands(permit, trust, now)
    ensures VerifyPermit(permit, trust, now).Success? ==>
      VerifyPermit(permit, trust, now).value == permit.authorization.payload
  {
  }

  // In particular, no permit verifies that was signed with a revoked key.
  lemma RevokedKeyVerifiesNoPermit(permit: Permit, trust: TrustStore, now: Option<int>)
    requires permit.authorization.kid in trust.keys && permit.attempt.kid in trust.keys
    requires trust.keys[permit.authorization.kid].status == Revoked || trust.keys[permit.attempt.kid].status == Revoked
    ensures VerifyPermit(permit, trust, now).Failure?
  {
    PermitVerifiesExactly(permit, trust, now);
  }

  // And a permit that stands once stands no longer when its time is over or a key has been retired.
  lemma PermitExpires(permit: Permit, trust: TrustStore, now: int)
    requires PermitStands(permit, trust, None)
    ensures VerifyPermit(permit, trust, Some(now)).Success?
       <==> permit.authorization.payload.issuedAt <= now < permit.authorization.payload.expiresAt
            && trust.keys[permit.authorization.kid].status == Active
            && trust.keys[permit.attempt.kid].status == Active
    ensures VerifyPermit(permit, trust, Some(now)).Failure? ==>
      VerifyPermit(permit, trust, Some(now)) == Failure(PermitNotCurrent)
  {
  }

  // A receipt that stands behind a permit: signed by a trusted destination key for this operation,
  // authorization, attempt and request, with an effect scope the key may attest.
  predicate ReceiptStands(permit: Permit, receipt: SignedReceipt, trust: TrustStore) {
    var auth, r := permit.authorization.payload, receipt.payload;
    && r.sequence >= 1 && r.recordedAt >= 0
    && (r.effect == Committed || r.effect == PartiallyCommitted ==>
          r.transactionRef.Some? && r.transactionRef.value != "")
    && Trusted(trust, receipt.kid, DestinationRole, auth.audience, auth.issuer, auth.tenant)
    && SignedBy(receipt, ReceiptKind, trust.keys[receipt.kid].publicKey)
    && r.issuer == auth.audience && r.audience == auth.issuer && r.tenant == auth.tenant
    && r.operationId == auth.operationId && r.authorizationId == auth.authorizationId
    && r.attemptId == permit.attempt.payload.attemptId && r.requestDigest == auth.requestDigest
    && r.attemptDigest == AttemptDigest(permit)
    && r.scope in trust.keys[receipt.kid].scopes
  }

  lemma ReceiptVerifiesExactly(permit: Permit, receipt: SignedReceipt, trust: TrustStore, response: Option<Json>)
    ensures VerifyReceipt(permit, receipt, trust, response).Success?
       <==> ReceiptStands(permit, receipt, trust)
            && (response.Some? ==>
                  receipt.payload.responseDigest == ResponseDigest(response.value, receipt.payload.responseNonce))
    ensures VerifyReceipt(permit, receipt, trust, response).Success? ==>
      VerifyReceipt(permit, receipt, trust, response).value == response.Some?
  {
  }

  // The verdict on a bundle: rejected unless everything brought along fits, and then exactly what
  // the documents attest.
  lemma BundleVerdictExactly(permit: Permit, receipt: Option<SignedReceipt>, trust: TrustStore,
                             request: Option<Json>, response: Option<Json>)
    ensures var auth := permit.authorization.payload;
      var fits := PermitStands(permit, trust, None)
        && (request.Some? ==> auth.requestDigest == RequestDigest(request.value, auth.requestNonce))
        && (receipt.Some? ==> ReceiptStands(permit, receipt.value, trust))
        && (receipt.Some? && response.Some? ==>
              receipt.value.payload.responseDigest
              == ResponseDigest(response.value, receipt.value.payload.responseNonce));
      var verdict := VerifyBundle(permit, if receipt.Some? then ReceiptDoc(receipt.value) else Null, trust, request,
                                  response);
      && (verdict.rejection.None? <==> fits)
      && (!fits ==> verdict.claim == NoClaim && verdict.authority == AuthorityNotEstablished
                    && verdict.effect.None? && !verdict.responseVerified)
      && (fits ==> verdict == match receipt
            case None => Verdict(TrustedGateway, AuthorizationRecorded, None, request.Some?, false, None)
            case Some(r) =>
              Verdict(TrustedDestination,
                      if r.payload.effect == Committed then DestinationCommitAttested else DestinationReceiptVerified,
                      Some(r.payload.effect), request.Some?, response.Some?, None))
  {
    hide VerifyPermit, VerifyReceipt, PermitStands, ReceiptStands;
    PermitVerifiesExactly(permit, trust, None);
    if receipt.Some? { ReceiptVerifiesExactly(permit, receipt.value, trust, response); }
  }

  // What is neither a receipt nor absent is rejected.
  lemma OddReceiptIsRejected(permit: Permit, receipt: Json, trust: TrustStore, request: Option<Json>,
                             response: Option<Json>)
    requires !receipt.Null? && !receipt.ReceiptDoc?
    ensures VerifyBundle(permit, receipt, trust, request, response).rejection.Some?
    ensures VerifyBundle(permit, receipt, trust, request, response).claim == NoClaim
  {
  }

  // -------- Why a document is refused --------

  // The first thing wrong with a signed document, if any.
  function Fault<P(==)>(document: Signed<P>, kind: Kind, role: Role, issuer: string, audience: string, tenant: string,
                        trust: TrustStore): Option<Error> {
    if document.kind != kind then Some(WrongDocumentKind)
    else if document.kid !in trust.keys then Some(UntrustedKey)
    else if trust.keys[document.kid].status == Revoked then Some(RevokedKey)
    else if !Trusted(trust, document.kid, role, issuer, audience, tenant) then Some(KeyScopeMismatch)
    else if !SignedBy(document, kind, trust.keys[document.kid].publicKey) then Some(InvalidSignature)
    else None
  }

  lemma SignatureIsRefusedFor<P>(document: Signed<P>, kind: Kind, issuer: string, audience: string, tenant: string,
                                 trust: TrustStore)
    ensures var fault := Fault(document, kind, if kind == ReceiptKind then DestinationRole else GatewayRole, issuer,
                               audience, tenant, trust);
      VerifySignature(document, issuer, audience, tenant, trust, kind)
      == if fault.Some? then Failure(fault.value) else Success(trust.keys[document.kid])
  {
  }

  // A permit is refused for the first fault of its form, its authorization, its attempt, their bond,
  // their digest, or the time.
  lemma PermitIsRefusedFor(permit: Permit, trust: TrustStore, now: Option<int>, error: Error)
    requires VerifyPermit(permit, trust, now) == Failure(error)
    ensures var auth, attempt := permit.authorization.payload, permit.attempt.payload;
      var first := Fault(permit.authorization, AuthorizationKind, GatewayRole, auth.issuer, auth.audience, auth.tenant,
                         trust);
      var second := Fault(permit.attempt, AttemptKind, GatewayRole, attempt.issuer, attempt.audience, attempt.tenant,
                          trust);
      error == if !(0 <= auth.issuedAt && 1 <= auth.expiresAt - auth.issuedAt <= 300 && auth.tool != ""
                    && auth.operationId != "") then InvalidEvidence
               else if first.Some? then first.value
               else if second.Some? then second.value
               else if attempt.issuer != auth.issuer || attempt.audience != auth.audience
                       || attempt.tenant != auth.tenant || attempt.operationId != auth.operationId
                    then PermitBindingMismatch
               else if attempt.authorizationDigest != AuthorizationDigest(permit.authorization)
                    then AuthorizationDigestMismatch
               else PermitNotCurrent
  {
    hide VerifySignature, Fault;
    var auth, attempt := permit.authorization.payload, permit.attempt.payload;
    SignatureIsRefusedFor(permit.authorization, AuthorizationKind, auth.issuer, auth.audience, auth.tenant, trust);
    SignatureIsRefusedFor(permit.attempt, AttemptKind, attempt.issuer, attempt.audience, attempt.tenant, trust);
  }

  // A receipt is refused for the first fault of its form, its signature, its bond to the permit, the
  // attempt, its scope, or the response.
  lemma ReceiptIsRefusedFor(permit: Permit, receipt: SignedReceipt, trust: TrustStore, response: Option<Json>,
                            error: Error)
    requires VerifyReceipt(permit, receipt, trust, response) == Failure(error)
    ensures var auth, r := permit.authorization.payload, receipt.payload;
      var fault := Fault(receipt, ReceiptKind, DestinationRole, r.issuer, r.audience, r.tenant, trust);
      error == if !(r.sequence >= 1 && r.recordedAt >= 0
                    && (r.effect == Committed || r.effect == PartiallyCommitted ==>
                          r.transactionRef.Some? && r.transactionRef.value != "")) then InvalidEvidence
               else if fault.Some? then fault.value
               else if !(r.issuer == auth.audience && r.audience == auth.issuer && r.tenant == auth.tenant
                         && r.operationId == auth.operationId && r.authorizationId == auth.authorizationId
                         && r.attemptId == permit.attempt.payload.attemptId && r.requestDigest == auth.requestDigest)
                    then ReceiptBindingMismatch
               else if r.attemptDigest != AttemptDigest(permit) then AttemptDigestMismatch
               else if r.scope !in trust.keys[receipt.kid].scopes then UntrustedEffectScope
               else ResponseMismatch
  {
    hide VerifySignature, Fault;
    var r := receipt.payload;
    SignatureIsRefusedFor(receipt, ReceiptKind, r.issuer, r.audience, r.tenant, trust);
  }

  // A bundle is rejected for its permit first, then the request, then its receipt, and the verdict
  // still says whether the request was compared.
  lemma BundleIsRejectedFor(permit: Permit, receipt: Option<SignedReceipt>, trust: TrustStore,
                            request: Option<Json>, response: Option<Json>)
    ensures var auth := permit.authorization.payload;
      var verdict := VerifyBundle(permit, if receipt.Some? then ReceiptDoc(receipt.value) else Null, trust, request,
                                  response);
      verdict.rejection.Some? ==>
        if VerifyPermit(permit, trust, None).Failure? then
          verdict.rejection.value == VerifyPermit(permit, trust, None).error && !verdict.requestVerified
        else if request.Some? && auth.requestDigest != RequestDigest(request.value, auth.requestNonce) then
          verdict.rejection.value == RequestMismatch && !verdict.requestVerified
        else
          receipt.Some? && VerifyReceipt(permit, receipt.value, trust, response) == Failure(verdict.rejection.value)
          && (verdict.requestVerified <==> request.Some?)
  {
    hide VerifyPermit, VerifyReceipt, PermitStands;
    PermitVerifiesExactly(permit, trust, None);
  }
}
