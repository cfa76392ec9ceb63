// The gateway's evidence database (evidence/store.py). Each `with database(...)` block is one
// atomic step on the tables: it commits as a whole or, when it raises inside, changes nothing.
module Store {
  import opened Wrappers
  import opened Documents
  import V = Verify
  import A = Approvals

  datatype Phase =
    | DispatchIntent
    | ResponseObserved(verdict: V.Verdict, responseDigest: Digest)
    | ClientResponsePrepared
    | OutcomeUnavailable
    | Reconciled(verdict: V.Verdict)
    | ConflictingReceipt
    | ExternalCheckRecorded(digest: Digest, result: CheckResult)

  datatype Event = Event(eventId: string, operation: string, phase: Phase, delivered: bool)

  datatype Operation = Operation(tenant: string, scope: PrivateDigest, fingerprint: PrivateDigest, bundle: Bundle)

  datatype ObservationRow = ObservationRow(operation: string, digest: Digest, document: SignedObservation)

  // `byScope` is the UNIQUE index on the scope column.
  datatype Tables = Tables(
    operations: map<string, Operation>, byScope: map<PrivateDigest, string>,
    events: seq<Event>, observations: seq<ObservationRow>, approvals: A.Book)

  const EMPTY := Tables(map[], map[], [], [], map[])

  datatype ConsumeRequest = ConsumeRequest(id: string, context: A.RequestContext, policyId: string, now: nat)

  predicate EventIdUsed(events: seq<Event>, eventId: string) {
    exists i :: 0 <= i < |events| && events[i].eventId == eventId
  }

  predicate HasConflict(events: seq<Event>, operation: string) {
    exists i :: 0 <= i < |events| && events[i].operation == operation && events[i].phase == ConflictingReceipt
  }

  function History(rows: seq<ObservationRow>, operation: string): seq<ObservationRow> {
    if rows == [] then []
    else
      var front, last := History(rows[..|rows| - 1], operation), rows[|rows| - 1];
      if last.operation == operation then front + [last] else front
  }

  predicate DigestUsed(rows: seq<ObservationRow>, digest: Digest) {
    exists i :: 0 <= i < |rows| && rows[i].digest == digest
  }

  // Consistency rules of an observer report (Observation.interval).
  function ExpectedResult(reason: CheckReason): CheckResult {
    match reason
    case StatusMatch => Corroborated
    case FieldMismatch => Contradicted
    case StatusConflict => Contradicted
    case SourcePending => CheckPending
    case _ => CheckUnknown
  }

  predicate StatusAllowed(reason: CheckReason, status: Option<SourceStatus>) {
    match reason
    case StatusMatch => status == Some(SourceSucceeded)
    case StatusConflict => status in {Some(SourceFailed), Some(SourceCanceled)}
    case SourcePending => status in {Some(SourceIsPending), Some(SourceRequiresAction)}
    case _ => true
  }

  predicate ValidObservation(o: Observation) {
    && o.scope == CHECK_SCOPE && 0 <= o.checkedAt < o.expiresAt <= o.checkedAt + 3600
    && o.result == ExpectedResult(o.reason)
    && StatusAllowed(o.reason, o.sourceStatus)
    && (o.result != CheckUnknown ==> o.sourceDigest.Some? && o.sourceRecordedAt.Some?)
  }

  // -------- What each transaction does --------

  function Append(t: Tables, operation: string, phase: Phase, eventId: string): Result<Tables, Error> {
    if EventIdUsed(t.events, eventId) then Failure(IntegrityError)
    else Success(t.(events := t.events + [Event(eventId, operation, phase, false)]))
  }

  // Success(Some(op)): the scope already owns `op`. Success(None): reserved by this call.
  function Reserve(t: Tables, bundle: Bundle, scope: PrivateDigest, fingerprint: PrivateDigest,
                   consume: Option<ConsumeRequest>, eventId: string): (Tables, Result<Option<string>, Error>) {
    var auth := bundle.permit.authorization.payload;
    if scope in t.byScope then
      var previous := t.byScope[scope];
      if previous !in t.operations || t.operations[previous].fingerprint != fingerprint then
        (t, Failure(IdempotencyConflict))
      else (t, Success(Some(previous)))
    else
      var (approvals, consumed) :=
        if consume.None? then (t.approvals, true)
        else A.ConsumeBook(t.approvals, consume.value.id, consume.value.context, consume.value.policyId,
                           consume.value.now);
      if !consumed then (t, Failure(ApprovalNotActive))
      else if auth.operationId in t.operations then (t, Failure(IntegrityError))
      else
        var inserted := t.(
          approvals := approvals,
          operations := t.operations[auth.operationId := Operation(auth.tenant, scope, fingerprint, bundle)],
          byScope := t.byScope[scope := auth.operationId]);
        match Append(inserted, auth.operationId, DispatchIntent, eventId)
        case Failure(error) => (t, Failure(error))
        case Success(after) => (after, Success(None))
  }

  predicate Owned(t: Tables, operation: string, tenant: string) {
    operation in t.operations && t.operations[operation].tenant == tenant
  }

  function Get(t: Tables, operation: string, tenant: string): Result<Bundle, Error> {
    if !Owned(t, operation, tenant) then Failure(OperationNotFound)
    else if HasConflict(t.events, operation) then Failure(ReceiptConflict)
    else Success(t.operations[operation].bundle)
  }

  // Only a pending receipt may be replaced, and only by one with a larger sequence number.
  predicate Conflicts(current: Option<SignedReceipt>, receipt: SignedReceipt) {
    current.Some? && current.value != receipt
    && (current.value.payload.effect != PendingEffect || receipt.payload.sequence <= current.value.payload.sequence)
  }

  // A conflict is itself committed; the caller is told afterwards.
  function Record(t: Tables, operation: string, tenant: string, phase: Phase, receipt: Option<SignedReceipt>,
                  eventId: string, conflictId: string): (Tables, Result<(), Error>) {
    if !Owned(t, operation, tenant) then (t, Failure(OperationNotFound))
    else
      var row := t.operations[operation];
      var conflict := receipt.Some? && Conflicts(row.bundle.receipt, receipt.value);
      var marked :=
        if conflict then Append(t, operation, ConflictingReceipt, conflictId)
        else if receipt.Some? then
          Success(t.(operations := t.operations[operation := row.(bundle := row.bundle.(receipt := receipt))]))
        else Success(t);
      match marked
      case Failure(error) => (t, Failure(error))
      case Success(m) =>
        match Append(m, operation, phase, eventId)
        case Failure(error) => (t, Failure(error))
        case Success(after) => (after, if conflict then Failure(ReceiptConflict) else Success(()))
  }

  function AppendObservation(t: Tables, operation: string, tenant: string, document: SignedObservation,
                             eventId: string): (Tables, Result<(), Error>) {
    var digest := ObservationDigest(document);
    if !ValidObservation(document.payload) then (t, Failure(InvalidObservation))
    else if !Owned(t, operation, tenant) then (t, Failure(OperationNotFound))
    else if document.payload.evidenceDigest != CheckedBundleDigest(t.operations[operation].bundle) then
      (t, Failure(ObservationBindingMismatch))
    else if HasConflict(t.events, operation) then (t, Failure(ReceiptConflict))
    else
      var rows := History(t.observations, operation);
      if |rows| >= 256 then (t, Failure(ObservationLimit))
      else if document.payload.previousDigest != (if rows == [] then None else Some(rows[|rows| - 1].digest)) then
        (t, Failure(ObservationConcurrentUpdate))
      else if DigestUsed(t.observations, digest) then (t, Failure(IntegrityError))
      else
        var inserted := t.(observations := t.observations + [ObservationRow(operation, digest, document)]);
        match Append(inserted, operation, ExternalCheckRecorded(digest, document.payload.result), eventId)
        case Failure(error) => (t, Failure(error))
        case Success(after) => (after, Success(()))
  }

  function Reports(rows: seq<ObservationRow>): (documents: seq<SignedObservation>)
    ensures |documents| == |rows| && forall i | 0 <= i < |rows| :: documents[i] == rows[i].document
  {
    seq(|rows|, i requires 0 <= i < |rows| => rows[i].document)
  }

  // checked_bundle reads the bundle and the observations in two transactions, so it sees two states.
  function CheckedBundleOf(first: Tables, second: Tables, operation: string,
                           tenant: string): Result<CheckedBundle, Error> {
    var bundle :- Get(first, operation, tenant);
    Success(CheckedBundle(bundle, Reports(History(second.observations, operation))))
  }

  // -------- The outbox --------

  function Marked(events: seq<Event>, batch: set<nat>): (marked: seq<Event>)
    ensures |marked| == |events|
    ensures forall i | 0 <= i < |events| :: marked[i] == events[i].(delivered := events[i].delivered || i in batch)
  {
    seq(|events|, i requires 0 <= i < |events| => events[i].(delivered := events[i].delivered || i in batch))
  }

  // Positions of the rows not yet delivered, in order.
  function Undelivered(events: seq<Event>): (rows: seq<nat>)
    ensures forall j | 0 <= j < |rows| :: rows[j] < |events| && !events[rows[j]].delivered
    ensures forall j, k | 0 <= j < k < |rows| :: rows[j] < rows[k]
  {
    if events == [] then []
    else
      var n := |events| - 1;
      var rows := Undelivered(events[..n]);
      assert forall j | 0 <= j < |rows| :: !events[..n][rows[j]].delivered;
      if events[n].delivered then rows else rows + [n]
  }

  const BATCH := 1000

  function Batch(events: seq<Event>): (rows: seq<nat>)
    ensures forall j | 0 <= j < |rows| :: rows[j] < |events|
  {
    var rows := Undelivered(events);
    if |rows| <= BATCH then rows else rows[..BATCH]
  }

  function Picked(events: seq<Event>, rows: seq<nat>): (picked: seq<Event>)
    requires forall j | 0 <= j < |rows| :: rows[j] < |events|
    ensures |picked| == |rows| && forall j | 0 <= j < |rows| :: picked[j] == events[rows[j]]
  {
    seq(|rows|, j requires 0 <= j < |rows| => events[rows[j]])
  }

  function Rows(rows: seq<nat>): set<nat> {
    set row | row in rows
  }

  lemma PickOne(events: seq<Event>, rows: seq<nat>, j: nat)
    requires j < |rows| && forall i | 0 <= i < |rows| :: rows[i] < |events|
    ensures Picked(events, rows[..j + 1]) == Picked(events, rows[..j]) + [events[rows[j]]]
  {
  }

  lemma MarkOne(events: seq<Event>, rows: seq<nat>, j: nat)
    requires j < |rows| && forall i | 0 <= i < |rows| :: rows[i] < |events|
    ensures var marked := Marked(events, Rows(rows[..j]));
      Marked(events, Rows(rows[..j + 1])) == marked[rows[j] := marked[rows[j]].(delivered := true)]
  {
    assert rows[..j + 1] == rows[..j] + [rows[j]];
    assert Rows(rows[..j + 1]) == Rows(rows[..j]) + {rows[j]};
  }

  // When `emit` raises: at which row, and whether the sink got that row all the same.
  datatype EmitFailure = EmitFailure(row: nat, reached: bool)

  // -------- The store object --------

  class EvidenceStore {
    var operations: map<string, Operation>
    var byScope: map<PrivateDigest, string>
    var events: seq<Event>
    var observations: seq<ObservationRow>
    var approvals: A.Book

    function State(): Tables
      reads this
    {
      Tables(operations, byScope, events, observations, approvals)
    }

    constructor ()
      ensures State() == EMPTY
    {
      operations, byScope, events, observations, approvals := map[], map[], [], [], map[];
    }

    method Rollback(begin: Tables)
      modifies this
      ensures State() == begin
    {
      operations, byScope, events, observations, approvals :=
        begin.operations, begin.byScope, begin.events, begin.observations, begin.approvals;
    }

    // INSERT INTO evidence_v1_events; raises on a duplicate event_id.
    method InsertEvent(operation: string, phase: Phase, eventId: string) returns (ok: bool)
      modifies this`events
      ensures ok <==> Append(old(State()), operation, phase, eventId).Success?
      ensures State() == if ok then Append(old(State()), operation, phase, eventId).value else old(State())
    {
      ok := !EventIdUsed(events, eventId);
      if ok { events := events + [Event(eventId, operation, phase, false)]; }
    }

    method ReserveOperation(bundle: Bundle, scope: PrivateDigest, fingerprint: PrivateDigest,
                            consume: Option<ConsumeRequest>, eventId: string)
      returns (r: Result<Option<string>, Error>)
      modifies this
      ensures (State(), r) == Reserve(old(State()), bundle, scope, fingerprint, consume, eventId)
    {
      var begin := State();
      var auth := bundle.permit.authorization.payload;
      if scope in byScope {
        var previous := byScope[scope];
        if previous !in operations || operations[previous].fingerprint != fingerprint {
          return Failure(IdempotencyConflict);
        }
        return Success(Some(previous));
      }
      if consume.Some? {
        var request := consume.value;
        if request.id !in approvals
           || !A.IsValid(approvals[request.id], request.context, request.policyId, request.now) {
          return Failure(ApprovalNotActive);
        }
        approvals := approvals[request.id := A.WithStatus(approvals[request.id], A.Consumed,
                                                          approvals[request.id].decidedBy, None, request.now)];
      }
      if auth.operationId in operations {
        Rollback(begin);
        return Failure(IntegrityError);
      }
      operations := operations[auth.operationId := Operation(auth.tenant, scope, fingerprint, bundle)];
      byScope := byScope[scope := auth.operationId];
      var ok := InsertEvent(auth.operationId, DispatchIntent, eventId);
      if !ok {
        Rollback(begin);
        return Failure(IntegrityError);
      }
      r := Success(None);
    }

    method GetBundle(operation: string, tenant: string) returns (r: Result<Bundle, Error>)
      ensures r == Get(State(), operation, tenant)
    {
      if operation !in operations || operations[operation].tenant != tenant { return Failure(OperationNotFound); }
      if HasConflict(events, operation) { return Failure(ReceiptConflict); }
      r := Success(operations[operation].bundle);
    }

    method RecordEvent(operation: string, tenant: string, phase: Phase, receipt: Option<SignedReceipt>,
                       eventId: string, conflictId: string) returns (r: Result<(), Error>)
      modifies this
      ensures (State(), r) == Record(old(State()), operation, tenant, phase, receipt, eventId, conflictId)
    {
      var begin := State();
      if operation !in operations || operations[operation].tenant != tenant { return Failure(OperationNotFound); }
      var bundle := operations[operation].bundle;
      var conflict := false;
      if receipt.Some? {
        var previous := bundle.receipt;
        if previous.Some? && previous.value != receipt.value
           && (previous.value.payload.effect != PendingEffect
               || receipt.value.payload.sequence <= previous.value.payload.sequence) {
          var marked := InsertEvent(operation, ConflictingReceipt, conflictId);
          if !marked { return Failure(IntegrityError); }
          conflict := true;
        } else {
          operations := operations[operation := operations[operation].(bundle := bundle.(receipt := receipt))];
        }
      }
      var ok := InsertEvent(operation, phase, eventId);
      if !ok {
        Rollback(begin);
        return Failure(IntegrityError);
      }
      r := if conflict then Failure(ReceiptConflict) else Success(());
    }

    method AddObservation(operation: string, tenant: string, document: SignedObservation, eventId: string)
      returns (r: Result<(), Error>)
      modifies this
      ensures (State(), r) == AppendObservation(old(State()), operation, tenant, document, eventId)
    {
      var begin := State();
      if !ValidObservation(document.payload) { return Failure(InvalidObservation); }
      if operation !in operations || operations[operation].tenant != tenant { return Failure(OperationNotFound); }
      if document.payload.evidenceDigest != CheckedBundleDigest(operations[operation].bundle) {
        return Failure(ObservationBindingMismatch);
      }
      if HasConflict(events, operation) { return Failure(ReceiptConflict); }
      var rows := History(observations, operation);
      if |rows| >= 256 { return Failure(ObservationLimit); }
      var head := if rows == [] then None else Some(rows[|rows| - 1].digest);
      if document.payload.previousDigest != head { return Failure(ObservationConcurrentUpdate); }
      var digest := ObservationDigest(document);
      if DigestUsed(observations, digest) { return Failure(IntegrityError); }
      observations := observations + [ObservationRow(operation, digest, document)];
      var ok := InsertEvent(operation, ExternalCheckRecorded(digest, document.payload.result), eventId);
      if !ok {
        Rollback(begin);
        return Failure(IntegrityError);
      }
      r := Success(());
    }

    // Emitted rows stay emitted when a later one fails; their marks do not.
    method Flush(failure: Option<EmitFailure>) returns (emitted: seq<Event>, ok: bool)
      modifies this`events
      ensures ok <==> !(failure.Some? && failure.value.row < |Batch(old(events))|)
      ensures ok ==> emitted == Picked(old(events), Batch(old(events)))
      ensures ok ==> events == Marked(old(events), Rows(Batch(old(events))))
      ensures !ok ==> events == old(events)
      ensures !ok ==> emitted == Picked(old(events),
        Batch(old(events))[..failure.value.row + if failure.value.reached then 1 else 0])
    {
      hide Batch;
      ghost var was := events;
      var begin := events;
      var rows := Batch(events);
      emitted := [];
      for j := 0 to |rows|
        invariant emitted == Picked(was, rows[..j])
        invariant failure.Some? ==> j <= failure.value.row
        invariant events == Marked(was, Rows(rows[..j]))
      {
        PickOne(was, rows, j);
        if failure.Some? && failure.value.row == j {
          if failure.value.reached { emitted := emitted + [begin[rows[j]]]; }
          events := begin;
          return emitted, false;
        }
        emitted := emitted + [begin[rows[j]]];
        MarkOne(was, rows, j);
        events := events[rows[j] := events[rows[j]].(delivered := true)];
      }
      assert rows[..|rows|] == rows;
      ok := true;
    }
  }
}
