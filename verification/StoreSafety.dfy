// What every run of evidence-store transactions keeps, whatever their order and arguments.
module StoreSafety {
  import opened Wrappers
  import opened Documents
  import opened Store
  import A = Approvals
  import R = Review

  // One committed transaction on the shared database. A transaction that rolls back is no action.
  datatype Action =
    | DoReserve(bundle: Bundle, scope: PrivateDigest, fingerprint: PrivateDigest,
                consume: Option<ConsumeRequest>, eventId: string)
    | DoRecord(operation: string, tenant: string, phase: Phase, receipt: Option<SignedReceipt>,
               eventId: string, conflictId: string)
    | DoAppend(operation: string, tenant: string, document: SignedObservation, eventId: string)
    | DoDeliver(batch: set<nat>)
    | DoApproval(command: A.Command)

  function Next(t: Tables, a: Action): Tables {
    match a
    case DoReserve(bundle, scope, fingerprint, consume, eventId) =>
      Reserve(t, bundle, scope, fingerprint, consume, eventId).0
    case DoRecord(operation, tenant, phase, receipt, eventId, conflictId) =>
      Record(t, operation, tenant, phase, receipt, eventId, conflictId).0
    case DoAppend(operation, tenant, document, eventId) =>
      AppendObservation(t, operation, tenant, document, eventId).0
    case DoDeliver(batch) => t.(events := Marked(t.events, batch))
    case DoApproval(command) => t.(approvals := A.After(t.approvals, command))
  }

  function Run(t: Tables, actions: seq<Action>): Tables {
    if actions == [] then t else Next(Run(t, actions[..|actions| - 1]), actions[|actions| - 1])
  }

  // -------- The tables stay consistent --------

  predicate HasIntent(events: seq<Event>, operation: string) {
    exists i :: 0 <= i < |events| && events[i].operation == operation && events[i].phase == DispatchIntent
  }

  predicate DistinctEvents(events: seq<Event>) {
    forall i, j | 0 <= i < j < |events| :: events[i].eventId != events[j].eventId
  }

  predicate ValidOperation(t: Tables, operation: string)
    requires operation in t.operations
  {
    var row := t.operations[operation];
    && row.scope in t.byScope && t.byScope[row.scope] == operation
    && row.bundle.permit.authorization.payload.operationId == operation
    && row.bundle.permit.authorization.payload.tenant == row.tenant
    && HasIntent(t.events, operation)
  }

  predicate ValidRows(t: Tables) {
    forall operation | operation in t.operations :: ValidOperation(t, operation)
  }

  predicate ValidIndex(t: Tables) {
    forall scope | scope in t.byScope ::
      t.byScope[scope] in t.operations && t.operations[t.byScope[scope]].scope == scope
  }

  predicate TrueDigests(rows: seq<ObservationRow>) {
    forall i | 0 <= i < |rows| :: rows[i].digest == ObservationDigest(rows[i].document)
  }

  predicate ValidTables(t: Tables) {
    && ValidRows(t) && ValidIndex(t) && DistinctEvents(t.events)
    && TrueDigests(t.observations) && A.ValidBook(t.approvals)
  }

  lemma EmptyIsValid()
    ensures ValidTables(EMPTY)
  {
  }

  lemma IntentStays(events: seq<Event>, more: seq<Event>)
    requires |events| <= |more|
    requires forall i | 0 <= i < |events| :: more[i].(delivered := events[i].delivered) == events[i]
    ensures forall operation | HasIntent(events, operation) :: HasIntent(more, operation)
    ensures forall operation | HasConflict(events, operation) :: HasConflict(more, operation)
  {
    forall operation | HasIntent(events, operation) ensures HasIntent(more, operation) {
      var i :| 0 <= i < |events| && events[i].operation == operation && events[i].phase == DispatchIntent;
      assert more[i].phase == DispatchIntent && more[i].operation == operation;
    }
    forall operation | HasConflict(events, operation) ensures HasConflict(more, operation) {
      var i :| 0 <= i < |events| && events[i].operation == operation && events[i].phase == ConflictingReceipt;
      assert more[i].phase == ConflictingReceipt && more[i].operation == operation;
    }
  }

  // `more` is `events` with rows added at the end and perhaps marked delivered.
  predicate LogExtends(events: seq<Event>, more: seq<Event>) {
    && |events| <= |more|
    && forall i | 0 <= i < |events| :: more[i].(delivered := events[i].delivered) == events[i]
                                       && (events[i].delivered ==> more[i].delivered)
  }

  // -------- Nothing committed is undone --------

  predicate ReceiptAdvances(before: Option<SignedReceipt>, after: Option<SignedReceipt>) {
    || before == after || before.None?
    || (after.Some? && before.value.payload.effect == PendingEffect
        && before.value.payload.sequence < after.value.payload.sequence)
  }

  predicate RowAdvances(before: Operation, after: Operation) {
    && after == before.(bundle := before.bundle.(receipt := after.bundle.receipt))
    && ReceiptAdvances(before.bundle.receipt, after.bundle.receipt)
  }

  ghost predicate Advances(t: Tables, u: Tables) {
    && (forall operation | operation in t.operations ::
          operation in u.operations && RowAdvances(t.operations[operation], u.operations[operation]))
    && (forall scope | scope in t.byScope :: scope in u.byScope && u.byScope[scope] == t.byScope[scope])
    && LogExtends(t.events, u.events)
    && t.observations <= u.observations
    && R.BookDescends(t.approvals, u.approvals)
  }

  lemma AdvancesIsTransitive(t: Tables, u: Tables, v: Tables)
    requires Advances(t, u) && Advances(u, v)
    ensures Advances(t, v)
  {
    R.BookDescendsIsTransitive(t.approvals, u.approvals, v.approvals);
    LogExtendsIsTransitive(t.events, u.events, v.events);
    forall operation | operation in t.operations
      ensures operation in v.operations && RowAdvances(t.operations[operation], v.operations[operation])
    {
      assert RowAdvances(t.operations[operation], u.operations[operation]);
      assert RowAdvances(u.operations[operation], v.operations[operation]);
    }
  }

  lemma LogExtendsIsTransitive(x: seq<Event>, y: seq<Event>, z: seq<Event>)
    requires LogExtends(x, y) && LogExtends(y, z)
    ensures LogExtends(x, z)
  {
    forall i | 0 <= i < |x| ensures z[i].(delivered := x[i].delivered) == x[i] {
      assert y[i].(delivered := x[i].delivered) == x[i];
      assert z[i].(delivered := y[i].delivered) == y[i];
    }
  }

  ghost predicate RowsAdvance(t: Tables, u: Tables) {
    && u.operations.Keys == t.operations.Keys
    && forall o | o in t.operations :: RowAdvances(t.operations[o], u.operations[o])
  }

  lemma RowsStayValid(t: Tables, u: Tables)
    requires ValidRows(t) && RowsAdvance(t, u) && u.byScope == t.byScope && LogExtends(t.events, u.events)
    ensures ValidRows(u)
  {
    IntentStays(t.events, u.events);
    forall o | o in u.operations ensures ValidOperation(u, o) {
      assert ValidOperation(t, o) && RowAdvances(t.operations[o], u.operations[o]);
    }
  }

  lemma IndexStaysValid(t: Tables, u: Tables)
    requires ValidIndex(t) && RowsAdvance(t, u) && u.byScope == t.byScope
    ensures ValidIndex(u)
  {
    forall scope | scope in u.byScope
      ensures u.byScope[scope] in u.operations && u.operations[u.byScope[scope]].scope == scope
    {
      assert RowAdvances(t.operations[u.byScope[scope]], u.operations[u.byScope[scope]]);
    }
  }

  // Every step but a reservation and an approval command only adds rows and advances receipts.
  lemma FrameStep(t: Tables, u: Tables)
    requires ValidTables(t) && RowsAdvance(t, u) && u.byScope == t.byScope && u.approvals == t.approvals
    requires LogExtends(t.events, u.events) && DistinctEvents(u.events)
    requires t.observations <= u.observations && TrueDigests(u.observations)
    ensures ValidTables(u) && Advances(t, u)
  {
    RowsStayValid(t, u);
    IndexStaysValid(t, u);
    R.BookDescendsIsReflexive(t.approvals);
  }

  lemma ConsumeDescends(b: A.Book, q: ConsumeRequest)
    ensures var c := A.ConsumeBook(b, q.id, q.context, q.policyId, q.now).0;
      R.BookDescends(b, c) && (A.ValidBook(b) ==> A.ValidBook(c))
  {
  }

  function ApprovalsAfter(b: A.Book, consume: Option<ConsumeRequest>): A.Book {
    if consume.None? then b
    else A.ConsumeBook(b, consume.value.id, consume.value.context, consume.value.policyId, consume.value.now).0
  }

  lemma ReserveShape(t: Tables, bundle: Bundle, scope: PrivateDigest, fingerprint: PrivateDigest,
                     consume: Option<ConsumeRequest>, eventId: string)
    ensures var (u, r) := Reserve(t, bundle, scope, fingerprint, consume, eventId);
      var auth := bundle.permit.authorization.payload;
      if r == Success(None) then
        && scope !in t.byScope && auth.operationId !in t.operations
        && !EventIdUsed(t.events, eventId)
        && u == Tables(t.operations[auth.operationId := Operation(auth.tenant, scope, fingerprint, bundle)],
                       t.byScope[scope := auth.operationId],
                       t.events + [Event(eventId, auth.operationId, DispatchIntent, false)],
                       t.observations, ApprovalsAfter(t.approvals, consume))
      else u == t
  {
  }

  lemma ReserveStep(t: Tables, bundle: Bundle, scope: PrivateDigest, fingerprint: PrivateDigest,
                    consume: Option<ConsumeRequest>, eventId: string)
    requires ValidTables(t)
    ensures var u := Reserve(t, bundle, scope, fingerprint, consume, eventId).0; ValidTables(u) && Advances(t, u)
  {
    ReserveShape(t, bundle, scope, fingerprint, consume, eventId);
    var (u, r) := Reserve(t, bundle, scope, fingerprint, consume, eventId);
    if r == Success(None) {
      if consume.Some? { ConsumeDescends(t.approvals, consume.value); } else { R.BookDescendsIsReflexive(t.approvals); }
      InsertStep(t, u, scope, fingerprint, bundle, eventId);
    } else {
      NoStep(t);
    }
  }

  lemma NoStep(t: Tables)
    ensures Advances(t, t)
  {
    R.BookDescendsIsReflexive(t.approvals);
  }

  lemma InsertStep(t: Tables, u: Tables, scope: PrivateDigest, fingerprint: PrivateDigest, bundle: Bundle,
                   eventId: string)
    requires ValidTables(t)
    requires scope !in t.byScope && bundle.permit.authorization.payload.operationId !in t.operations
    requires !EventIdUsed(t.events, eventId)
    requires var auth := bundle.permit.authorization.payload;
      u == Tables(t.operations[auth.operationId := Operation(auth.tenant, scope, fingerprint, bundle)],
                  t.byScope[scope := auth.operationId],
                  t.events + [Event(eventId, auth.operationId, DispatchIntent, false)], t.observations, u.approvals)
    requires R.BookDescends(t.approvals, u.approvals) && A.ValidBook(u.approvals)
    ensures ValidTables(u) && Advances(t, u)
  {
    hide ValidRows, ValidIndex, DistinctEvents, TrueDigests, Advances, LogExtends, HasIntent, EventIdUsed,
      R.BookDescends, A.ValidBook;
    var auth := bundle.permit.authorization.payload;
    NewEvent(t.events, Event(eventId, auth.operationId, DispatchIntent, false));
    InsertKeepsRows(t, u, auth.operationId, Operation(auth.tenant, scope, fingerprint, bundle));
    InsertKeepsIndex(t, u, auth.operationId, Operation(auth.tenant, scope, fingerprint, bundle));
    InsertAdvances(t, u);
  }

  lemma NewEvent(events: seq<Event>, e: Event)
    requires DistinctEvents(events) && !EventIdUsed(events, e.eventId)
    ensures DistinctEvents(events + [e]) && LogExtends(events, events + [e])
    ensures e.phase == DispatchIntent ==> HasIntent(events + [e], e.operation)
    ensures e.phase == ConflictingReceipt ==> HasConflict(events + [e], e.operation)
  {
    assert (events + [e])[|events|] == e;
  }

  lemma InsertKeepsRows(t: Tables, u: Tables, operation: string, row: Operation)
    requires ValidRows(t) && operation !in t.operations && row.scope !in t.byScope
    requires row.bundle.permit.authorization.payload.operationId == operation
    requires row.bundle.permit.authorization.payload.tenant == row.tenant
    requires u.operations == t.operations[operation := row] && u.byScope == t.byScope[row.scope := operation]
    requires LogExtends(t.events, u.events) && HasIntent(u.events, operation)
    ensures ValidRows(u)
  {
    IntentStays(t.events, u.events);
    forall o | o in u.operations ensures ValidOperation(u, o) {
      if o != operation { assert ValidOperation(t, o); }
    }
  }

  lemma InsertKeepsIndex(t: Tables, u: Tables, operation: string, row: Operation)
    requires ValidIndex(t) && operation !in t.operations && row.scope !in t.byScope
    requires u.operations == t.operations[operation := row] && u.byScope == t.byScope[row.scope := operation]
    ensures ValidIndex(u)
  {
  }

  lemma InsertAdvances(t: Tables, u: Tables)
    requires forall o | o in t.operations :: o in u.operations && u.operations[o] == t.operations[o]
    requires forall scope | scope in t.byScope :: scope in u.byScope && u.byScope[scope] == t.byScope[scope]
    requires LogExtends(t.events, u.events) && u.observations == t.observations
    requires R.BookDescends(t.approvals, u.approvals)
    ensures Advances(t, u)
  {
  }

  lemma RecordShape(t: Tables, operation: string, tenant: string, phase: Phase, receipt: Option<SignedReceipt>,
                    eventId: string, conflictId: string)
    ensures var (u, r) := Record(t, operation, tenant, phase, receipt, eventId, conflictId);
      var e := Event(eventId, operation, phase, false);
      var c := Event(conflictId, operation, ConflictingReceipt, false);
      if r.Success? then
        && Owned(t, operation, tenant) && !EventIdUsed(t.events, eventId)
        && RowAdvances(t.operations[operation], u.operations[operation])
        && (receipt.Some? ==> u.operations[operation].bundle.receipt == receipt)
        && (receipt.None? ==> u.operations[operation] == t.operations[operation])
        && u == t.(operations := t.operations[operation := u.operations[operation]], events := t.events + [e])
      else if r.error == ReceiptConflict then
        && receipt.Some? && Owned(t, operation, tenant)
        && Conflicts(t.operations[operation].bundle.receipt, receipt.value)
        && !EventIdUsed(t.events, conflictId) && !EventIdUsed(t.events + [c], eventId)
        && u == t.(events := t.events + [c] + [e])
      else u == t
  {
    if operation in t.operations { assert t.operations[operation := t.operations[operation]] == t.operations; }
  }

  lemma RecordStep(t: Tables, operation: string, tenant: string, phase: Phase, receipt: Option<SignedReceipt>,
                   eventId: string, conflictId: string)
    requires ValidTables(t)
    ensures var u := Record(t, operation, tenant, phase, receipt, eventId, conflictId).0;
      ValidTables(u) && Advances(t, u)
  {
    RecordShape(t, operation, tenant, phase, receipt, eventId, conflictId);
    var (u, r) := Record(t, operation, tenant, phase, receipt, eventId, conflictId);
    if r.Success? {
      UpdateStep(t, u, operation, u.operations[operation], Event(eventId, operation, phase, false));
    } else if r.error == ReceiptConflict {
      TwoEventsStep(t, u, Event(conflictId, operation, ConflictingReceipt, false),
                    Event(eventId, operation, phase, false));
    } else {
      NoStep(t);
    }
  }

  lemma UpdateStep(t: Tables, u: Tables, operation: string, row: Operation, e: Event)
    requires ValidTables(t) && operation in t.operations && RowAdvances(t.operations[operation], row)
    requires !EventIdUsed(t.events, e.eventId)
    requires u == t.(operations := t.operations[operation := row], events := t.events + [e])
    ensures ValidTables(u) && Advances(t, u)
  {
    NewEvent(t.events, e);
    FrameStep(t, u);
  }

  lemma TwoEventsStep(t: Tables, u: Tables, c: Event, e: Event)
    requires ValidTables(t) && !EventIdUsed(t.events, c.eventId) && !EventIdUsed(t.events + [c], e.eventId)
    requires u == t.(events := t.events + [c] + [e])
    ensures ValidTables(u) && Advances(t, u)
  {
    NewEvent(t.events, c);
    NewEvent(t.events + [c], e);
    LogExtendsIsTransitive(t.events, t.events + [c], u.events);
    FrameStep(t, u);
  }

  lemma AppendShape(t: Tables, operation: string, tenant: string, document: SignedObservation, eventId: string)
    ensures var (u, r) := AppendObservation(t, operation, tenant, document, eventId);
      var digest := ObservationDigest(document);
      if r.Success? then
        && Owned(t, operation, tenant) && !HasConflict(t.events, operation) && ValidObservation(document.payload)
        && document.payload.evidenceDigest == CheckedBundleDigest(t.operations[operation].bundle)
        && |History(t.observations, operation)| < 256
        && (var rows := History(t.observations, operation);
            document.payload.previousDigest == if rows == [] then None else Some(rows[|rows| - 1].digest))
        && !EventIdUsed(t.events, eventId)
        && u == t.(observations := t.observations + [ObservationRow(operation, digest, document)],
                   events := t.events
                     + [Event(eventId, operation, ExternalCheckRecorded(digest, document.payload.result), false)])
      else u == t
  {
  }

  lemma AppendStep(t: Tables, operation: string, tenant: string, document: SignedObservation, eventId: string)
    requires ValidTables(t)
    ensures var u := AppendObservation(t, operation, tenant, document, eventId).0; ValidTables(u) && Advances(t, u)
  {
    AppendShape(t, operation, tenant, document, eventId);
    var (u, r) := AppendObservation(t, operation, tenant, document, eventId);
    if r.Success? {
      ObservationStep(t, u, ObservationRow(operation, ObservationDigest(document), document),
        Event(eventId, operation, ExternalCheckRecorded(ObservationDigest(document), document.payload.result), false));
    } else {
      NoStep(t);
    }
  }

  lemma ObservationStep(t: Tables, u: Tables, row: ObservationRow, e: Event)
    requires ValidTables(t) && row.digest == ObservationDigest(row.document) && !EventIdUsed(t.events, e.eventId)
    requires u == t.(observations := t.observations + [row], events := t.events + [e])
    ensures ValidTables(u) && Advances(t, u)
  {
    NewEvent(t.events, e);
    FrameStep(t, u);
  }

  lemma ApprovalStep(t: Tables, command: A.Command)
    requires ValidTables(t)
    ensures ValidTables(Next(t, DoApproval(command))) && Advances(t, Next(t, DoApproval(command)))
  {
    R.CommandDescends(t.approvals, command);
    R.CommandKeepsBookValid(t.approvals, command);
    ApprovalsStep(t, t.(approvals := A.After(t.approvals, command)));
  }

  lemma ApprovalsStep(t: Tables, u: Tables)
    requires ValidTables(t) && u == t.(approvals := u.approvals)
    requires R.BookDescends(t.approvals, u.approvals) && A.ValidBook(u.approvals)
    ensures ValidTables(u) && Advances(t, u)
  {
    RowsStayValid(t, u);
    IndexStaysValid(t, u);
    InsertAdvances(t, u);
  }

  lemma DeliverStep(t: Tables, batch: set<nat>)
    requires ValidTables(t)
    ensures ValidTables(Next(t, DoDeliver(batch))) && Advances(t, Next(t, DoDeliver(batch)))
  {
    var u := t.(events := Marked(t.events, batch));
    assert DistinctEvents(u.events);
    FrameStep(t, u);
  }

  lemma Step(t: Tables, a: Action)
    requires ValidTables(t)
    ensures ValidTables(Next(t, a)) && Advances(t, Next(t, a))
  {
    match a
    case DoReserve(bundle, scope, fingerprint, consume, eventId) =>
      ReserveStep(t, bundle, scope, fingerprint, consume, eventId);
    case DoRecord(operation, tenant, phase, receipt, eventId, conflictId) =>
      RecordStep(t, operation, tenant, phase, receipt, eventId, conflictId);
    case DoAppend(operation, tenant, document, eventId) =>
      AppendStep(t, operation, tenant, document, eventId);
    case DoDeliver(batch) => DeliverStep(t, batch);
    case DoApproval(command) => ApprovalStep(t, command);
  }

  // Receipts move from none to some, change only while pending and only to a larger sequence
  // number; reservations, events and observations are never taken back.
  lemma {:induction false} RunAdvances(t: Tables, actions: seq<Action>)
    requires ValidTables(t)
    ensures ValidTables(Run(t, actions)) && Advances(t, Run(t, actions))
  {
    if actions != [] {
      var front := actions[..|actions| - 1];
      RunAdvances(t, front);
      Step(Run(t, front), actions[|actions| - 1]);
      AdvancesIsTransitive(t, Run(t, front), Run(t, actions));
    }
  }

  // A terminal receipt is final.
  lemma TerminalReceiptIsFinal(t: Tables, actions: seq<Action>, operation: string)
    requires ValidTables(t) && operation in t.operations
    requires t.operations[operation].bundle.receipt.Some?
    requires t.operations[operation].bundle.receipt.value.payload.effect != PendingEffect
    ensures operation in Run(t, actions).operations
    ensures Run(t, actions).operations[operation] == t.operations[operation]
  {
    RunAdvances(t, actions);
    assert RowAdvances(t.operations[operation], Run(t, actions).operations[operation]);
  }

  // One scope, one operation: in every reachable state.
  lemma ScopeOwnsOneOperation(actions: seq<Action>, a: string, b: string)
    requires a in Run(EMPTY, actions).operations && b in Run(EMPTY, actions).operations
    requires Run(EMPTY, actions).operations[a].scope == Run(EMPTY, actions).operations[b].scope
    ensures a == b
  {
    RunAdvances(EMPTY, actions);
    assert ValidOperation(Run(EMPTY, actions), a) && ValidOperation(Run(EMPTY, actions), b);
  }

  // A conflicting receipt is committed together with its event, although the caller gets an error;
  // and it is the only way to a conflict.
  lemma ConflictIsCommitted(t: Tables, operation: string, tenant: string, phase: Phase,
                            receipt: Option<SignedReceipt>, eventId: string, conflictId: string)
    ensures var (u, r) := Record(t, operation, tenant, phase, receipt, eventId, conflictId);
      && (r == Failure(ReceiptConflict) ==> HasConflict(u.events, operation) && u.operations == t.operations)
      && (r.Success? && phase != ConflictingReceipt ==>
            (HasConflict(u.events, operation) <==> HasConflict(t.events, operation)))
      && (r.Failure? && r.error != ReceiptConflict ==> u == t)
  {
    var (u, r) := Record(t, operation, tenant, phase, receipt, eventId, conflictId);
    if r == Failure(ReceiptConflict) {
      assert u.events[|t.events|] == Event(conflictId, operation, ConflictingReceipt, false);
    } else if r.Success? && phase != ConflictingReceipt {
      assert u.events == t.events + [Event(eventId, operation, phase, false)];
      if HasConflict(t.events, operation) {
        var i :| 0 <= i < |t.events| && t.events[i].operation == operation && t.events[i].phase == ConflictingReceipt;
        assert u.events[i] == t.events[i];
      }
    }
  }

  // Once there is a conflict, reading, exporting and observing the operation never work again.
  lemma ConflictIsAbsorbing(t: Tables, actions: seq<Action>, operation: string, tenant: string,
                            later: Tables, document: SignedObservation, eventId: string)
    requires ValidTables(t) && HasConflict(t.events, operation)
    ensures var u := Run(t, actions);
      && HasConflict(u.events, operation)
      && Get(u, operation, tenant).Failure?
      && CheckedBundleOf(u, later, operation, tenant).Failure?
      && AppendObservation(u, operation, tenant, document, eventId).1.Failure?
      && AppendObservation(u, operation, tenant, document, eventId).0 == u
  {
    RunAdvances(t, actions);
    IntentStays(t.events, Run(t, actions).events);
  }

  // -------- Consuming an approval and reserving an operation are one step --------

  function Carriers(t: Tables, id: string): set<string> {
    set o | o in t.operations && t.operations[o].bundle.permit.authorization.payload.approvalId == Some(id)
  }

  // What a gateway with the evidence servers `servers` does: its permits carry the approval they
  // consume; approvals of those servers are consumed in no other way, and reviewers do not consume.
  predicate ByGateway(a: Action, servers: set<string>) {
    match a
    case DoReserve(bundle, _, _, consume, _) =>
      && bundle.permit.authorization.payload.approvalId
         == (if consume.Some? then Some(consume.value.id) else None)
      && (consume.Some? ==> consume.value.context.server in servers)
    case DoApproval(command) =>
      && (command.Consume? ==> command.context.server !in servers)
      && (command.SetStatus? ==> command.status != A.Consumed)
    case _ => true
  }

  predicate ConsumedFor(t: Tables, servers: set<string>, id: string) {
    id in t.approvals && t.approvals[id].server in servers && t.approvals[id].status == A.Consumed
  }

  predicate Exactly(t: Tables, servers: set<string>, id: string) {
    if ConsumedFor(t, servers, id) then |Carriers(t, id)| == 1 else Carriers(t, id) == {}
  }

  lemma SameOperationsSameCarriers(t: Tables, u: Tables, id: string)
    requires t.operations.Keys == u.operations.Keys
    requires forall o | o in t.operations ::
      t.operations[o].bundle.permit == u.operations[o].bundle.permit
    ensures Carriers(t, id) == Carriers(u, id)
  {
  }

  lemma ReserveKeepsExactly(t: Tables, a: Action, servers: set<string>, id: string)
    requires a.DoReserve? && ByGateway(a, servers) && Exactly(t, servers, id)
    requires Reserve(t, a.bundle, a.scope, a.fingerprint, a.consume, a.eventId).1 == Success(None)
    ensures Exactly(Next(t, a), servers, id)
  {
    var u := Next(t, a);
    ReserveShape(t, a.bundle, a.scope, a.fingerprint, a.consume, a.eventId);
    var auth := a.bundle.permit.authorization.payload;
    CarriersAfterInsert(t, u, a.bundle, Operation(auth.tenant, a.scope, a.fingerprint, a.bundle), id);
    if a.consume.Some? && a.consume.value.id == id {
      ReserveConsumes(t, a, servers);
    } else {
      ReserveKeepsOthers(t, a, servers, id);
    }
  }

  lemma CarriersAfterInsert(t: Tables, u: Tables, bundle: Bundle, row: Operation, id: string)
    requires bundle.permit.authorization.payload.operationId !in t.operations
    requires row.bundle == bundle
    requires u.operations == t.operations[bundle.permit.authorization.payload.operationId := row]
    ensures Carriers(u, id) == Carriers(t, id)
      + if bundle.permit.authorization.payload.approvalId == Some(id)
        then {bundle.permit.authorization.payload.operationId} else {}
  {
  }

  lemma ReserveKeepsOthers(t: Tables, a: Action, servers: set<string>, id: string)
    requires a.DoReserve? && (a.consume.Some? ==> a.consume.value.id != id)
    ensures ConsumedFor(Next(t, a), servers, id) == ConsumedFor(t, servers, id)
  {
  }

  lemma ReserveConsumes(t: Tables, a: Action, servers: set<string>)
    requires a.DoReserve? && a.consume.Some? && a.consume.value.context.server in servers
    requires Reserve(t, a.bundle, a.scope, a.fingerprint, a.consume, a.eventId).1 == Success(None)
    ensures var id := a.consume.value.id;
      !ConsumedFor(t, servers, id) && ConsumedFor(Next(t, a), servers, id)
  {
  }

  lemma OthersKeepExactly(t: Tables, u: Tables, servers: set<string>, id: string)
    requires Exactly(t, servers, id) && RowsAdvance(t, u) && ConsumedFor(u, servers, id) == ConsumedFor(t, servers, id)
    ensures Exactly(u, servers, id)
  {
    forall o | o in t.operations ensures t.operations[o].bundle.permit == u.operations[o].bundle.permit {
      assert RowAdvances(t.operations[o], u.operations[o]);
    }
    SameOperationsSameCarriers(t, u, id);
  }

  lemma OthersAdvanceRows(t: Tables, a: Action)
    requires ValidTables(t)
    requires a.DoReserve? ==> Reserve(t, a.bundle, a.scope, a.fingerprint, a.consume, a.eventId).1 != Success(None)
    ensures Next(t, a).operations.Keys == t.operations.Keys
    ensures !a.DoApproval? ==> Next(t, a).approvals == t.approvals
  {
    match a
    case DoReserve(bundle, scope, fingerprint, consume, eventId) =>
      ReserveShape(t, bundle, scope, fingerprint, consume, eventId);
    case DoRecord(operation, tenant, phase, receipt, eventId, conflictId) =>
      RecordShape(t, operation, tenant, phase, receipt, eventId, conflictId);
    case DoAppend(operation, tenant, document, eventId) =>
      AppendShape(t, operation, tenant, document, eventId);
    case _ =>
  }

  lemma CommandKeepsConsumedFor(t: Tables, command: A.Command, servers: set<string>, id: string)
    requires ByGateway(DoApproval(command), servers) && A.ValidBook(t.approvals)
    ensures ConsumedFor(Next(t, DoApproval(command)), servers, id) == ConsumedFor(t, servers, id)
  {
  }

  lemma GatewayStepKeepsExactly(t: Tables, a: Action, servers: set<string>, id: string)
    requires ValidTables(t) && ByGateway(a, servers) && Exactly(t, servers, id)
    ensures Exactly(Next(t, a), servers, id)
  {
    if a.DoReserve? && Reserve(t, a.bundle, a.scope, a.fingerprint, a.consume, a.eventId).1 == Success(None) {
      ReserveKeepsExactly(t, a, servers, id);
    } else {
      OthersAdvanceRows(t, a);
      Step(t, a);
      if a.DoApproval? { CommandKeepsConsumedFor(t, a.command, servers, id); }
      OthersKeepExactly(t, Next(t, a), servers, id);
    }
  }

  // An approval of any evidence server is consumed if and only if exactly one reservation carries
  // its id; any other id is carried by none.
  lemma {:induction false} ConsumedIffReserved(actions: seq<Action>, servers: set<string>)
    requires forall a | a in actions :: ByGateway(a, servers)
    ensures forall id :: Exactly(Run(EMPTY, actions), servers, id)
  {
    if actions != [] {
      var front := actions[..|actions| - 1];
      assert forall a | a in front :: a in actions;
      ConsumedIffReserved(front, servers);
      RunAdvances(EMPTY, front);
      forall id ensures Exactly(Run(EMPTY, actions), servers, id) {
        GatewayStepKeepsExactly(Run(EMPTY, front), actions[|actions| - 1], servers, id);
      }
    }
  }

  // A failed transaction leaves approvals, operations and events as they were.
  lemma FailureChangesNothing(t: Tables, bundle: Bundle, scope: PrivateDigest, fingerprint: PrivateDigest,
                              consume: Option<ConsumeRequest>, eventId: string)
    ensures var (u, r) := Reserve(t, bundle, scope, fingerprint, consume, eventId);
      && (r != Success(None) <==> u == t)
      && (r == Success(None) && consume.Some? ==> u.approvals != t.approvals)
  {
    var (u, r) := Reserve(t, bundle, scope, fingerprint, consume, eventId);
    if r == Success(None) {
      assert |u.events| == |t.events| + 1;
      if consume.Some? { assert u.approvals[consume.value.id].status != t.approvals[consume.value.id].status; }
    }
  }
}
