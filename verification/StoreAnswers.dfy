// When each transaction of the evidence store succeeds, and what it answers otherwise, said of the
// rows and not of the steps.
module StoreAnswers {
  import opened Wrappers
  import opened Documents
  import opened Store
  import A = Approvals
  import S = StoreSafety

  // -------- Recording --------

  // A receipt is refused exactly when another one is stored that is final or not older. In every
  // other case the row holds the new one, and nothing but the event of this phase is added.
  lemma ReceiptIsTakenExactly(t: Tables, operation: string, tenant: string, phase: Phase, receipt: SignedReceipt,
                              eventId: string, conflictId: string)
    requires operation in t.operations && t.operations[operation].tenant == tenant && eventId != conflictId
    requires forall i | 0 <= i < |t.events| :: t.events[i].eventId !in {eventId, conflictId}
    ensures var stored := t.operations[operation].bundle.receipt;
      var refused := stored.Some? && stored.value != receipt
        && !(stored.value.payload.effect == PendingEffect
             && receipt.payload.sequence > stored.value.payload.sequence);
      var row := t.operations[operation];
      Record(t, operation, tenant, phase, Some(receipt), eventId, conflictId)
      == if refused then
           (t.(events := t.events + [Event(conflictId, operation, ConflictingReceipt, false),
                                     Event(eventId, operation, phase, false)]), Failure(ReceiptConflict))
         else
           (t.(operations := t.operations[operation := row.(bundle := Bundle(row.bundle.permit, Some(receipt)))],
               events := t.events + [Event(eventId, operation, phase, false)]), Success(()))
  {
    var c, e := Event(conflictId, operation, ConflictingReceipt, false), Event(eventId, operation, phase, false);
    assert t.events + [c] + [e] == t.events + [c, e];
    assert !EventIdUsed(t.events + [c], eventId);
  }

  // A phase without a receipt is recorded for the tenant's own operation under an unused event id.
  lemma PhaseIsRecordedExactly(t: Tables, operation: string, tenant: string, phase: Phase, eventId: string,
                               conflictId: string)
    ensures var mine := operation in t.operations && t.operations[operation].tenant == tenant;
      var used := exists i :: 0 <= i < |t.events| && t.events[i].eventId == eventId;
      Record(t, operation, tenant, phase, None, eventId, conflictId)
      == if !mine then (t, Failure(OperationNotFound))
         else if used then (t, Failure(IntegrityError))
         else (t.(events := t.events + [Event(eventId, operation, phase, false)]), Success(()))
  {
  }

  // A receipt is not recorded under an event id that is taken: nothing is.
  lemma UsedIdRecordsNothing(t: Tables, operation: string, tenant: string, phase: Phase,
                             receipt: Option<SignedReceipt>, eventId: string, conflictId: string)
    requires operation in t.operations && t.operations[operation].tenant == tenant
    requires exists i :: 0 <= i < |t.events| && t.events[i].eventId == eventId
    ensures Record(t, operation, tenant, phase, receipt, eventId, conflictId) == (t, Failure(IntegrityError))
  {
    var i :| 0 <= i < |t.events| && t.events[i].eventId == eventId;
    var c := Event(conflictId, operation, ConflictingReceipt, false);
    assert (t.events + [c])[i] == t.events[i];
  }

  // -------- Reading --------

  // The bundle is read exactly by its tenant and as long as no conflict has been recorded.
  lemma BundleIsReadExactly(t: Tables, operation: string, tenant: string)
    ensures var mine := operation in t.operations && t.operations[operation].tenant == tenant;
      var conflict := exists i :: 0 <= i < |t.events| && t.events[i].operation == operation
                                  && t.events[i].phase == ConflictingReceipt;
      Get(t, operation, tenant)
      == if !mine then Failure(OperationNotFound)
         else if conflict then Failure(ReceiptConflict)
         else Success(t.operations[operation].bundle)
  {
  }

  // -------- Reserving --------

  // A scope that some row has is answered from that row, and nothing is consumed.
  lemma TakenScopeIsAnswered(t: Tables, o: string, bundle: Bundle, scope: PrivateDigest, fingerprint: PrivateDigest,
                             consume: Option<ConsumeRequest>, eventId: string)
    requires S.ValidTables(t) && o in t.operations && t.operations[o].scope == scope
    ensures Reserve(t, bundle, scope, fingerprint, consume, eventId)
         == (t, if t.operations[o].fingerprint == fingerprint then Success(Some(o)) else Failure(IdempotencyConflict))
  {
    assert S.ValidOperation(t, o);
  }

  // A scope that no row has is reserved, given an approval where one is asked for.
  lemma FreeScopeIsReserved(t: Tables, bundle: Bundle, scope: PrivateDigest, fingerprint: PrivateDigest,
                            consume: Option<ConsumeRequest>, eventId: string)
    requires S.ValidTables(t) && forall o | o in t.operations :: t.operations[o].scope != scope
    requires bundle.permit.authorization.payload.operationId !in t.operations
    requires forall i | 0 <= i < |t.events| :: t.events[i].eventId != eventId
    ensures var auth := bundle.permit.authorization.payload;
      var (approvals, granted) :=
        if consume.None? then (t.approvals, true)
        else A.ConsumeBook(t.approvals, consume.value.id, consume.value.context, consume.value.policyId,
                           consume.value.now);
      Reserve(t, bundle, scope, fingerprint, consume, eventId)
      == if !granted then (t, Failure(ApprovalNotActive))
         else (Tables(t.operations[auth.operationId := Operation(auth.tenant, scope, fingerprint, bundle)],
                      t.byScope[scope := auth.operationId],
                      t.events + [Event(eventId, auth.operationId, DispatchIntent, false)], t.observations, approvals),
               Success(None))
  {
  }

  // -------- Appending a report --------

  // Which reports are well-formed, by the result they claim.
  lemma ValidReportExactly(o: Observation)
    ensures ValidObservation(o) <==>
      && o.scope == CHECK_SCOPE && o.checkedAt >= 0 && 1 <= o.expiresAt - o.checkedAt <= 3600
      && match o.result
         case Corroborated =>
           o.reason == StatusMatch && o.sourceStatus == Some(SourceSucceeded)
           && o.sourceDigest.Some? && o.sourceRecordedAt.Some?
         case Contradicted =>
           && o.sourceDigest.Some? && o.sourceRecordedAt.Some?
           && (o.reason == FieldMismatch
               || (o.reason == StatusConflict && o.sourceStatus in {Some(SourceFailed), Some(SourceCanceled)}))
         case CheckPending =>
           o.reason == SourcePending && o.sourceStatus in {Some(SourceIsPending), Some(SourceRequiresAction)}
           && o.sourceDigest.Some? && o.sourceRecordedAt.Some?
         case CheckUnknown => o.reason !in {StatusMatch, FieldMismatch, StatusConflict, SourcePending}
  {
  }

  ghost predicate Appendable(t: Tables, operation: string, tenant: string, document: SignedObservation) {
    var rows := History(t.observations, operation);
    && ValidObservation(document.payload)
    && operation in t.operations && t.operations[operation].tenant == tenant
    && document.payload.evidenceDigest == CheckedBundleDigest(t.operations[operation].bundle)
    && (forall i | 0 <= i < |t.events| && t.events[i].operation == operation ::
          t.events[i].phase != ConflictingReceipt)
    && |rows| <= 255
    && document.payload.previousDigest
       == (if rows == [] then None else Some(ObservationDigest(rows[|rows| - 1].document)))
    && forall i | 0 <= i < |t.observations| :: t.observations[i].document != document
  }

  // A report is appended exactly when it is well-formed, about the bundle as it stands, next in line
  // and new; it then ends the history of its operation and no other.
  lemma ReportIsAppendedExactly(t: Tables, operation: string, tenant: string, document: SignedObservation,
                                eventId: string, other: string)
    requires S.TrueDigests(t.observations) && forall i | 0 <= i < |t.events| :: t.events[i].eventId != eventId
    ensures var (u, r) := AppendObservation(t, operation, tenant, document, eventId);
      && (r.Success? <==> Appendable(t, operation, tenant, document))
      && (r.Failure? ==> u == t)
      && (r.Success? ==>
            && u.operations == t.operations && u.byScope == t.byScope && u.approvals == t.approvals
            && u.events == t.events + [Event(eventId, operation,
                 ExternalCheckRecorded(ObservationDigest(document), document.payload.result), false)]
            && History(u.observations, other) == History(t.observations, other)
                 + if other == operation then [ObservationRow(operation, ObservationDigest(document), document)]
                   else [])
  {
    var row := ObservationRow(operation, ObservationDigest(document), document);
    assert (t.observations + [row])[..|t.observations|] == t.observations;
    HistoryDigests(t.observations, operation);
    if DigestUsed(t.observations, ObservationDigest(document)) {
      var i :| 0 <= i < |t.observations| && t.observations[i].digest == ObservationDigest(document);
      assert t.observations[i].document == document;
    }
  }

  // A report that is not appended is refused for the first of these.
  lemma ReportIsNotAppendedFor(t: Tables, operation: string, tenant: string, document: SignedObservation,
                               eventId: string, error: Error)
    requires S.TrueDigests(t.observations)
    requires AppendObservation(t, operation, tenant, document, eventId).1 == Failure(error)
    ensures var rows := History(t.observations, operation);
      error == if !ValidObservation(document.payload) then InvalidObservation
               else if operation !in t.operations || t.operations[operation].tenant != tenant then OperationNotFound
               else if document.payload.evidenceDigest != CheckedBundleDigest(t.operations[operation].bundle) then
                 ObservationBindingMismatch
               else if exists i :: 0 <= i < |t.events| && t.events[i].operation == operation
                                   && t.events[i].phase == ConflictingReceipt then ReceiptConflict
               else if |rows| > 255 then ObservationLimit
               else if document.payload.previousDigest
                       != (if rows == [] then None else Some(ObservationDigest(rows[|rows| - 1].document))) then
                 ObservationConcurrentUpdate
               else IntegrityError
  {
    hide ValidObservation, DigestUsed, History, S.TrueDigests;
    if History(t.observations, operation) != [] { LastDigest(t.observations, operation); }
  }

  lemma LastDigest(rows: seq<ObservationRow>, operation: string)
    requires S.TrueDigests(rows) && History(rows, operation) != []
    ensures var last := History(rows, operation)[|History(rows, operation)| - 1];
      last.digest == ObservationDigest(last.document)
  {
    HistoryDigests(rows, operation);
  }

  lemma {:induction false} HistoryDigests(rows: seq<ObservationRow>, operation: string)
    requires S.TrueDigests(rows)
    ensures forall i | 0 <= i < |History(rows, operation)| ::
      History(rows, operation)[i].digest == ObservationDigest(History(rows, operation)[i].document)
  {
    if rows != [] { HistoryDigests(rows[..|rows| - 1], operation); }
  }
}
