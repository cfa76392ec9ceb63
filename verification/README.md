# Proofs about the MCP zero-trust gateway

This project models the parts of the gateway that decide whether something happens once, happened
at all, or may be believed, and proves what they promise.

**Evidence protocol.** A gateway authorizes a `tools/call`, consumes an approval and reserves an
operation in one transaction, dispatches a signed permit, and may lose the reply; later it asks the
destination again, read-only, and observers append signed reports. `Store`, `Runtime`,
`Destination` and `Approvals` hold the classes: each owner of tables is a class whose methods
update its fields and equal a function on table values. `StoreSafety` proves what every run of store
transactions keeps. `World` puts gateway, network and destination into one transition system - callers,
approvers, observers, lost, repeated and altered messages, storage failures, crashes, reconciliations,
outbox and clock. The gateway has any number of evidence servers on one database, each with its own
evidence configuration; nothing is supposed of the destinations of those that do not name the reference
one. `WorldSafety`, `WorldSteps`, `WorldTheorems` prove an inductive invariant of it and what
follows: at most one refund per idempotency scope, agreement after crashes, no false conflicts,
truthful outcomes, one dispatch per approval. `WorldRefinement` shows that its gateway half is a run
of the store's transactions, `WorldRequests` that an approved call is the request that was approved,
`WorldExports` that what is stored and exported verifies, `Completeness` that an undisturbed refund is
attested in full, `Pipeline` the same truthfulness call by call, `Checks`, `Histories` and `ExportRace`
what exported observer histories are worth, `Outbox` how the events of those transactions reach a sink.

**Around it.** `Approvals` and `Review` show the two approval backends to be one machine and the
approval life cycle to be one-way; `RequestBinding` that what was approved is what is forwarded;
`Audit` that the file writer's backward scan, the stdout writer's fields and the verifier agree on
one hash chain; `Sessions` that two tables under two locks stay consistent while replies arrive late;
`SqlText`, `Stdio` and `InputPolicy` that a lexer with its naive splitter, a framing loop and a
pruned recursion do what their simple specifications say.

**When, and with what answer.** A step of a protocol is modelled as a function, and its class equals it. The
modules whose names end in `Answers`, with `Idempotency`, `CallOutcomes` and `SqlGrammar`, say what such a
function comes to without its steps: exactly which documents, records and rows make it succeed, and what
it then leaves and answers. `WorldIdempotency`, `WorldCalls`, `WorldCompletes` and `WorldBegins` carry that to
the whole system.

**Idealizations.** A digest is a constructor, so equal digests have equal preimages. A signature names
the key that made it and all it covers; in `World` a document signed with the gateway's or the
destination's key is one they made, while everything else about a message is the network's choice.
Identifiers drawn at random are fresh. A `with database(...)` block is one step that commits on a
normal exit and otherwise leaves the tables as they were. The hash and JSON codec of the audit log
are parameters with the properties named in `Faithful` and `Injective`.

**What the proofs brought out.**

- `checked_bundle` reads the bundle and the reports in two transactions
  (src/mcp_zero_trust_layer/evidence/store.py:134-140). When a receipt and a report arrive in between,
  the export is rejected; `Histories.ExportAcrossTwoReads` gives the exact condition and
  `ExportRace.InterruptedExportIsRejected` a concrete case.
- `split_response` undoes the injection of a receipt unless the response brought an empty `_meta` or a
  receipt of its own (`Protocol.SplitUndoesInjection`).
- An approval id inside `arguments` is found by `_extract_approval_id` for every method, but where the
  params are the arguments, as for `resources/read`, it counts as one of them, and the approval is not
  valid for such a retry (src/mcp_zero_trust_layer/core/pipeline.py:462-465).
  `RequestBinding.IdAsArgumentIsAcceptedExactlyWhenNested` is the exact condition,
  `RequestBinding.NestedIdSpoilsTheRetry` one such read.
- Two kinds of messages make the reference destination raise an exception that nothing catches: a call,
  in order up to its arguments, whose arguments are no object
  (src/mcp_zero_trust_layer/evidence/destination.py:71-73, 107), and a handshake without an id
  (src/mcp_zero_trust_layer/evidence/destination.py:43-54). `Destination.MessageCrashesExactly` is the
  exact condition over all messages, `Destination.ListArgumentsCrash` and
  `Destination.BareHandshakeCrashes` are one message of each kind.
- A blank line from a stdio server reads as the empty line, exactly like the end of the stream
  (src/mcp_zero_trust_layer/upstream/stdio.py:117-134; `Stdio.EmptyLineIsBlankOrEnd`).
- A check is made only for receipts of scope `stripe.refund.status.v1`, so the histories of operations
  at the reference destination stay empty (`WorldExports.NoCheckOfLocalRefunds`,
  `WorldExports.DestinationHistoriesStayEmpty`); the other history results hold for any destination.

`dafny verify dfyconfig.toml` checks the whole project.

## Main results

Start with these. The other rows of the table are the steps they rest on: classes that equal the
functions used in them, and invariants of single transactions.

- `WorldSteps.RunIsSafe`: the invariant of the whole system, in every reachable state.
- `WorldTheorems.AtMostOneRefundPerScope`, `WorldTheorems.ReconcileTellsTheTruth`,
  `WorldTheorems.StoredReceiptIsTrue`, `WorldTheorems.NoFalseConflicts`,
  `WorldTheorems.OutcomesAreTruthful`, `WorldTheorems.OneDispatchPerApproval`: what follows from it.
- `WorldRefinement.WorldRefinesStore` and `WorldRefinement.ApprovalsAreAccountedFor`: its gateway half
  is a run of the store, in which approvals and reservations match one to one.
- `WorldRequests.GrantedCallIsTheApprovedRequest`, with `RequestBinding.ContextsCoincide` below it.
- `WorldExports.ExportsVerify` and `Histories.ExportAcrossTwoReads`: when an export verifies.
- `StoreSafety.ConsumedIffReserved`, `StoreSafety.TerminalReceiptIsFinal`,
  `StoreSafety.ConflictIsAbsorbing`: what every run of store transactions keeps.
- `Idempotency.ReservationIsFoundExactly` and `WorldIdempotency.OneKeyOneCall`: what a client's
  idempotency key does, call by call and over every run.
- `CallOutcomes.NormalExactly` and `WorldCalls.CallIsARun`: when a call is answered, and that the system
  has each such call among its runs.
- `WorldBegins.IncomingRefundCompletes`: in every reachable state a new refund can still be carried
  through, from the message that comes in to its answer. `Completeness.UndisturbedRefundIsStored`,
  `CallOutcomes.UndisturbedRefundIsAnswered` and `WorldCompletes.UndisturbedRefundCompletes` are its stages.
- `StoreAnswers.ReceiptIsTakenExactly`, `VerifyAnswers.BundleVerdictExactly`,
  `DestinationAnswers.RefundIsAnsweredExactly`, `CheckAnswers.ReportIsMadeExactly`: when each party
  accepts, and what it answers, from documents and rows alone.
- `ApprovalAnswers.ExpiryIsFinal` and `RequestAnswers.ExpiredAsksAgain`: over any run, nothing happens on
  an approval whose time is over.
- `Destination.MessageCrashesExactly` and `Destination.SecondAttemptIsRefused`.
- `Approvals.BackendsAgree` and `Review.SeparationOfDuties`: two backends, one life cycle.
- `Protocol.PermitDoesNotChangeRequest`, `Protocol.SplitUndoesInjection`: the wire formats.
- `Outbox.DeliveryFollowsTheLog` and `Outbox.FlushesFinish`: delivery under overlap and failure.
- `Audit.WrittenLogVerifies`, `Audit.LoggedEventsReadBack` and `Audit.EqualEndsEqualEvents`: one hash
  chain for two writers, which keeps what it is given.
- `SqlGrammar.LexReadsTheGrammar`, `SqlText.SplitterCutsAtTokens` and
  `SqlText.SeveralStatementsExactlyWhenStacked`,
  `InputPolicy.PrunedEqualsFlat`, `Stdio.LinesComeBack`: fast forms against simple ones.
- `Sessions.TablesAgree` and `Sessions.UpstreamIdsStayWithTheirOwner`: two tables under two locks.

## Model

| member | source | states |
|---|---|---|
| `Protocol.PermitDoesNotChangeRequest` | src/mcp_zero_trust_layer/evidence/protocol.py:13-44 | for every message `validate_client` accepts, the request commitment recomputed from the forwarded message is the one computed from the client's |
| `Protocol.PermitArrives` | src/mcp_zero_trust_layer/evidence/protocol.py:39-44 | the permit stands where the destination looks for it, and the client's idempotency key does not travel on |
| `Protocol.SplitIsIdempotent` | src/mcp_zero_trust_layer/evidence/protocol.py:47-64 | splitting a split response changes nothing, finds no receipt, and leaves the response commitment as it was |
| `Protocol.SplitUndoesInjection` | src/mcp_zero_trust_layer/evidence/protocol.py:47-58 | splitting gives back response and receipt if and only if the response came without `_meta`, or with one that is neither empty nor already holds a receipt |
| `ProtocolAnswers.ClientKeyExactly` | src/mcp_zero_trust_layer/evidence/protocol.py:28-36 | a client's message is accepted if and only if it brings no evidence of its own and its idempotency key, if any, is a text of 1 to 128 characters; that key is then the one in force |
| `ProtocolAnswers.RequestPayloadSays` | src/mcp_zero_trust_layer/evidence/protocol.py:13-25 | the request commitment covers the method, every param, and every member of `_meta` but the two of the profile |
| `ProtocolAnswers.PermitIsAllThatChanges` | src/mcp_zero_trust_layer/evidence/protocol.py:39-44 | attaching a permit sets it, drops the client's key, and keeps every other member of message, params and `_meta` |
| `ProtocolAnswers.ResponseIsSplit` | src/mcp_zero_trust_layer/evidence/protocol.py:47-58 | the receipt is taken out of the result, or else out of the data of the error, and the rest of the response stays |
| `ProtocolAnswers.ResponsePayloadSays` | src/mcp_zero_trust_layer/evidence/protocol.py:61-64 | the response commitment covers the result or, without one, the error, free of the receipt, and nothing else |
| `ProtocolAnswers.InjectionSays` | src/mcp_zero_trust_layer/evidence/destination.py:105 | injecting a receipt sets it in the `_meta` of the result and keeps everything else |
| `Verify.CheckBundle` | src/mcp_zero_trust_layer/evidence/verify.py:35-90 | the step-by-step verdict equals the specification `VerifyBundle`, rejection by rejection |
| `Verify.SignatureNamesItsSigner` | src/mcp_zero_trust_layer/evidence/crypto.py:37-55 | a document that verifies was made by the holder of the key its kid names, for exactly its payload |
| `Verify.ReceiptIsNotTransferable` | src/mcp_zero_trust_layer/evidence/verify.py:35-90 | one receipt verifies behind one permit, for one request and one response only |
| `Verify.CommitClaimMeaning` | src/mcp_zero_trust_layer/evidence/verify.py:54-83 | the commit claim is made if and only if the documents are a trusted destination's commit receipt for this very permit |
| `VerifyAnswers.PermitVerifiesExactly` | src/mcp_zero_trust_layer/evidence/verify.py:18-32 | a permit verifies if and only if both halves are signed by keys trusted for these parties and not revoked, name one operation, and the attempt commits to the authorization; at a given time, besides, the keys are active and the time is in its window |
| `VerifyAnswers.RevokedKeyVerifiesNoPermit` | src/mcp_zero_trust_layer/evidence/crypto.py:43-44 | no permit verifies that was signed with a revoked key |
| `VerifyAnswers.PermitExpires` | src/mcp_zero_trust_layer/evidence/verify.py:29-31 | a permit that verifies offline verifies at a time if and only if that is in its window and its keys are active; otherwise it is not current |
| `VerifyAnswers.ReceiptVerifiesExactly` | src/mcp_zero_trust_layer/evidence/verify.py:63-78 | a receipt verifies if and only if a trusted destination key signed it for this operation, authorization, attempt and request, may attest its scope, and it commits to the response brought along |
| `VerifyAnswers.BundleVerdictExactly` | src/mcp_zero_trust_layer/evidence/verify.py:53-83 | which bundles are not rejected, and the whole verdict then, from the documents alone |
| `VerifyAnswers.PermitIsRefusedFor` | src/mcp_zero_trust_layer/evidence/verify.py:18-32 | the error of a permit is that of its first fault: form, authorization, attempt, their bond, their digest, the time |
| `VerifyAnswers.ReceiptIsRefusedFor` | src/mcp_zero_trust_layer/evidence/verify.py:63-77 | the error of a receipt is that of its first fault: form, signature, bond, attempt, scope, response |
| `VerifyAnswers.BundleIsRejectedFor` | src/mcp_zero_trust_layer/evidence/verify.py:53-90 | a bundle is rejected for its permit, then for the request, then for its receipt, and the verdict keeps whether the request was compared |
| `Calendar.DateOf` | src/mcp_zero_trust_layer/approvals/store.py:378 | the date of a day is a valid Gregorian date, and that day is its ordinal |
| `Calendar.DateOfOrdinal` | src/mcp_zero_trust_layer/approvals/store.py:378 | no other day has that date |
| `Calendar.DateOfIsMonotonic` | src/mcp_zero_trust_layer/approvals/store.py:378 | a later day has a later year, or month, or day of the month |
| `TextOrder.IsoFormatOrders` | src/mcp_zero_trust_layer/approvals/store.py:241-247 | calendar timestamps, with and without fractional seconds, compare as text exactly as the times do |
| `TextOrder.FirstSecondsText` | src/mcp_zero_trust_layer/approvals/store.py:378 | the text of the first second of 1970, in full |
| `Approvals.ListingIsUnique` | src/mcp_zero_trust_layer/approvals/store.py:50-53 | a listing ordered by time and then id is determined by the records it holds |
| `Approvals.PutUpdatesBook` | src/mcp_zero_trust_layer/approvals/store.py:193-201 | writing the JSON file with sorted keys after a dictionary update is a map update |
| `Approvals.StableSortOrders` | src/mcp_zero_trust_layer/approvals/store.py:50-53 | a stable sort by creation time of id-sorted entries orders by time and then id, and keeps exactly the entries |
| `Approvals.TextOrderIsTimeOrder` | src/mcp_zero_trust_layer/approvals/store.py:241-247 | `ORDER BY created_at, id` on the SQL text columns is the order by time and then id |
| `Approvals.OrderRowsOrders` | src/mcp_zero_trust_layer/approvals/store.py:241-247 | the SQL listing is ordered by time and then id and holds exactly the rows |
| `Approvals.FileApprovalStore.CreateRequest` | src/mcp_zero_trust_layer/approvals/store.py:34-43 | adds the pending record under its id, to the record map of the file backend |
| `Approvals.FileApprovalStore.ChangeStatus` | src/mcp_zero_trust_layer/approvals/store.py:55-83 | applies `SetStatusBook`: missing id, refused transition, or the updated record, and no other change |
| `Approvals.FileApprovalStore.ConsumeIfValid` | src/mcp_zero_trust_layer/approvals/store.py:89-109 | applies `ConsumeBook`: true and consumed exactly when the record is valid for the request, as `ApprovalAnswers.ConsumedExactly` spells it out; otherwise no change |
| `Approvals.FileApprovalStore.GetOne` | src/mcp_zero_trust_layer/approvals/store.py:45-48 | the record with that id, or none |
| `Approvals.FileApprovalStore.ListAll` | src/mcp_zero_trust_layer/approvals/store.py:50-53 | the listing of the file backend's records |
| `Approvals.SqliteApprovalStore.CreateRequest` | src/mcp_zero_trust_layer/approvals/store.py:215-228 | inserts the pending record; the status column equals the payload's status in every row |
| `Approvals.SqliteApprovalStore.ChangeStatus` | src/mcp_zero_trust_layer/approvals/store.py:249-282 | the same `SetStatusBook` step on rows, status column and payload together |
| `Approvals.SqliteApprovalStore.ConsumeIfValid` | src/mcp_zero_trust_layer/approvals/store.py:111-139 | the same `ConsumeBook` step on rows |
| `Approvals.SqliteApprovalStore.GetOne` | src/mcp_zero_trust_layer/approvals/store.py:230-239 | the record with that id, or none |
| `Approvals.SqliteApprovalStore.ListAll` | src/mcp_zero_trust_layer/approvals/store.py:241-247 | the listing of the rows' records |
| `Approvals.OnBoth` | src/mcp_zero_trust_layer/approvals/store.py:34-139 | any one command takes both backends from equal records to equal records, with equal replies |
| `Approvals.Drive` | src/mcp_zero_trust_layer/approvals/store.py:34-139 | any command trace with fresh ids keeps the two backends' records equal and gives equal replies, listings included |
| `Approvals.BackendsAgree` | src/mcp_zero_trust_layer/approvals/store.py:34-139 | from empty stores, every such trace gives one transcript on both backends, and it is the abstract machine's |
| `Approvals.RepliesAreDetermined` | src/mcp_zero_trust_layer/approvals/store.py:34-139 | the abstract machine allows one reply per command and state |
| `ApprovalAnswers.ConsumedExactly` | src/mcp_zero_trust_layer/approvals/store.py:141-160 | consuming succeeds if and only if the record is approved, its deadline, if any, lies ahead, and policy, server, method, capability, caller, arguments and binding are those of the request; it then only marks the record |
| `ApprovalAnswers.NewRequestSays` | src/mcp_zero_trust_layer/approvals/store.py:34-43 | a new request is pending until its deadline and remembers method, capability, caller, binding and the hash of its arguments |
| `ApprovalAnswers.ExpiryIsFinal` | src/mcp_zero_trust_layer/approvals/models.py:31-36 | over any run after its creation, an approval is from its deadline on never consumed, and consuming it changes nothing |
| `ApprovalAnswers.ApprovedIsConsumed` | src/mcp_zero_trust_layer/approvals/store.py:89-139 | an approved record is consumed for its own request before its deadline, once |
| `ApprovalAnswers.DecidedExactly` | src/mcp_zero_trust_layer/approvals/store.py:302-334 | a status is set if and only if it is the present one or the life cycle leads to it, a pending request being approved, denied or expired, with time, reviewer and comment; a consumption is stored with its time |
| `ApprovalAnswers.PageDecidesExactly` | src/mcp_zero_trust_layer/approvals/ui.py:49-80 | what the page answers, and the whole record it leaves, for every stored status |
| `Review.CommandEvolvesRecords` | src/mcp_zero_trust_layer/approvals/store.py:302-334 | a command changes only life-cycle fields, lowers the status rank when it changes anything, and consuming keeps the decision |
| `Review.RunDescends` | src/mcp_zero_trust_layer/approvals/store.py:302-334 | the same over any run: statuses only go down, everything else about a request stays |
| `Review.SingleUse` | src/mcp_zero_trust_layer/approvals/store.py:89-139 | whatever happens in between, an approval is consumed at most once, and then stays consumed |
| `Review.Decide` | src/mcp_zero_trust_layer/approvals/ui.py:49-80 | 404, 403 for one's own request, 409, or the decided record, on the SQLite backend |
| `Review.EarlierReadSuffices` | src/mcp_zero_trust_layer/approvals/ui.py:52-63 | the requester compared with is still right although the record was read before deciding |
| `Review.SeparationOfDuties` | src/mcp_zero_trust_layer/approvals/ui.py:49-80 | when decisions go through the page with separation on, nothing approved or consumed was decided by its own requester |
| `Store.EvidenceStore.InsertEvent` | src/mcp_zero_trust_layer/evidence/store.py:60-65 | appends an undelivered event unless its id is taken |
| `Store.EvidenceStore.ReserveOperation` | src/mcp_zero_trust_layer/evidence/store.py:67-84 | equals `Reserve` on the tables: existing scope, fingerprint conflict, inactive approval, or consume, insert and intent together; rolled back as a whole |
| `Store.EvidenceStore.GetBundle` | src/mcp_zero_trust_layer/evidence/store.py:86-97 | the bundle, not found for another tenant, refused once a conflict event exists |
| `Store.EvidenceStore.RecordEvent` | src/mcp_zero_trust_layer/evidence/store.py:99-125 | equals `Record`: stores, or keeps the old receipt and commits the conflict event although it reports an error; `StoreAnswers.ReceiptIsTakenExactly` says which |
| `Store.EvidenceStore.AddObservation` | src/mcp_zero_trust_layer/evidence/store.py:142-171 | equals `AppendObservation`, with its refusals in order and the event beside the row |
| `Store.EvidenceStore.Flush` | src/mcp_zero_trust_layer/evidence/store.py:173-179 | emits the oldest undelivered rows, at most 1000, and marks exactly them; a failing sink keeps what it got and no mark stays |
| `StoreSafety.Step` | src/mcp_zero_trust_layer/evidence/store.py:60-179 | every transaction keeps the tables consistent and takes nothing back |
| `StoreAnswers.ReceiptIsTakenExactly` | src/mcp_zero_trust_layer/evidence/store.py:99-125 | a receipt is refused if and only if another one is stored that is not pending or not older; in every other case the row holds the new one and no conflict event is added |
| `StoreAnswers.PhaseIsRecordedExactly` | src/mcp_zero_trust_layer/evidence/store.py:99-125 | a phase without a receipt is recorded if and only if the operation is the tenant's and the event id is unused |
| `StoreAnswers.UsedIdRecordsNothing` | src/mcp_zero_trust_layer/evidence/store.py:99-125 | under an event id that is taken nothing is recorded, the receipt included |
| `StoreAnswers.BundleIsReadExactly` | src/mcp_zero_trust_layer/evidence/store.py:86-97 | the bundle is read if and only if the operation is the tenant's and no conflict event names it |
| `StoreAnswers.TakenScopeIsAnswered` | src/mcp_zero_trust_layer/evidence/store.py:75-80 | a scope that some row has is answered from that row, by its fingerprint, and nothing is consumed |
| `StoreAnswers.FreeScopeIsReserved` | src/mcp_zero_trust_layer/evidence/store.py:80-84 | a scope no row has is reserved, given the approval where one is asked for; otherwise nothing changes |
| `StoreAnswers.ReportIsAppendedExactly` | src/mcp_zero_trust_layer/evidence/store.py:142-171 | a report is appended if and only if it is well-formed, about the bundle as it stands, next in line and new; it then ends the history of its operation and no other |
| `StoreAnswers.ReportIsNotAppendedFor` | src/mcp_zero_trust_layer/evidence/store.py:142-171 | the error of a report that is not appended is that of the first thing wrong |
| `StoreAnswers.ValidReportExactly` | src/mcp_zero_trust_layer/evidence/check_models.py:32-49 | which reports are well-formed, by the result they claim |
| `StoreSafety.RunAdvances` | src/mcp_zero_trust_layer/evidence/store.py:67-125 | along every run receipts go from none to some and change only from pending to a larger sequence; rows, events and reports stay |
| `StoreSafety.TerminalReceiptIsFinal` | src/mcp_zero_trust_layer/evidence/store.py:108-120 | once a receipt is not pending its operation never changes again |
| `StoreSafety.ScopeOwnsOneOperation` | src/mcp_zero_trust_layer/evidence/store.py:67-84 | in every reachable state two operations with one scope are the same operation |
| `StoreSafety.ConflictIsCommitted` | src/mcp_zero_trust_layer/evidence/store.py:111-125 | an error about a conflict leaves a committed conflict event and the old receipt; nothing else brings a conflict |
| `StoreSafety.ConflictIsAbsorbing` | src/mcp_zero_trust_layer/evidence/store.py:86-97 | after a conflict, reading, exporting and appending fail forever |
| `StoreSafety.ConsumedIffReserved` | src/mcp_zero_trust_layer/core/pipeline.py:67-77 | on the one database that any number of evidence servers share, an approval of any of them is consumed if and only if exactly one reservation carries its id; every other id is carried by none |
| `StoreSafety.FailureChangesNothing` | src/mcp_zero_trust_layer/evidence/store.py:67-84 | a reservation that does not succeed leaves every table as it was |
| `Destination.RefundDestination.CommitRefund` | src/mcp_zero_trust_layer/evidence/destination.py:77-102 | equals `Commit`: one refund and its receipt material together, the stored response on a replay, refusal of another attempt |
| `Destination.RefundDestination.ReceiptFor` | src/mcp_zero_trust_layer/evidence/destination.py:116-130 | equals `SignReceipt`: the stored receipt, or the material signed and stored |
| `Destination.RefundDestination.HandleCall` | src/mcp_zero_trust_layer/evidence/destination.py:62-109 | equals `Handle`: for every message that is no handshake and no lookup the ledger and the answer, the check of method and id first, for every clock, signing failure and crash between commit and signature |
| `Destination.RefundDestination.HandleLookup` | src/mcp_zero_trust_layer/evidence/destination.py:56-61 | equals `AnswerLookup`: signs or returns the receipt for a valid permit, even where a missing id then turns the answer into an error; no lookup changes the refunds |
| `Destination.RefundDestination.HandleMessage` | src/mcp_zero_trust_layer/evidence/destination.py:39-109 | equals `Respond`: the ledger and the answer for every message of whatever method |
| `Destination.Step` | src/mcp_zero_trust_layer/evidence/destination.py:76-130 | every action keeps the ledger valid and lets it only grow; a signature adds no refund |
| `Destination.RunKeepsLedger` | src/mcp_zero_trust_layer/evidence/destination.py:76-130 | over any messages the refund rows and operation rows have equal keys, and every row belongs to its permit |
| `Destination.MessageIsARun` | src/mcp_zero_trust_layer/evidence/destination.py:39-130 | handling any message, wherever it is cut short, is a run of commits and signatures, so what runs keep holds of it |
| `Destination.SecondAttemptIsRefused` | src/mcp_zero_trust_layer/evidence/destination.py:79-84 | a call for a recorded operation adds nothing, and succeeds if and only if it brings the same attempt |
| `Destination.AdmitCrashesExactlyOnOddArguments` | src/mcp_zero_trust_layer/evidence/destination.py:62-75 | the checks before the commit end in the uncaught exception if and only if method, id, permit, audience, request and tool are in order and `arguments` is given and no object |
| `Destination.CrashesExactlyOnOddArguments` | src/mcp_zero_trust_layer/evidence/destination.py:62-109 | in every state of the ledger a call that the process survives ends in the uncaught exception if and only if that holds, and it changes nothing |
| `Destination.MessageCrashesExactly` | src/mcp_zero_trust_layer/evidence/destination.py:39-109 | of all messages, exactly those and a handshake without an id end in an uncaught exception, and they change nothing |
| `Destination.ListArgumentsCrash` | src/mcp_zero_trust_layer/evidence/destination.py:71-73 | one such call: a signed and current permit for a refund whose `arguments` are a list |
| `Destination.BareHandshakeCrashes` | src/mcp_zero_trust_layer/evidence/destination.py:43-47 | one such handshake |
| `DestinationAnswers.AdmittedExactly` | src/mcp_zero_trust_layer/evidence/destination.py:62-75 | a call is admitted with a permit and an amount if and only if it is a `tools/call` with an id whose standing permit is for this destination and tool and commits to this request, which names that amount within the limits and nothing else |
| `DestinationAnswers.CommittedExactly` | src/mcp_zero_trust_layer/evidence/destination.py:76-102 | a new operation is refunded with the amount admitted, with a response that names it and the material of its receipt; a recorded one is answered again for the same attempt and refused for any other |
| `DestinationAnswers.RefundIsAnsweredExactly` | src/mcp_zero_trust_layer/evidence/destination.py:62-106 | a refund in order is answered with the amount and the receipt the ledger then holds, and whoever sends it again gets the same answer and changes nothing |
| `DestinationAnswers.LookupIsAnsweredExactly` | src/mcp_zero_trust_layer/evidence/destination.py:56-61 | a lookup is answered with the stored receipt if and only if it has an id and a standing permit for this destination whose very attempt was committed |
| `DestinationAnswers.InterruptedRefundStays` | src/mcp_zero_trust_layer/evidence/destination.py:103-130 | after a crash or a failed signature behind the commit the refund stands without a receipt, and the next lookup under its permit is answered with one |
| `DestinationAnswers.OtherMessagesExactly` | src/mcp_zero_trust_layer/evidence/destination.py:39-63 | silence, descriptions and errors for the other methods, none of which changes the ledger |
| `Runtime.EvidenceRuntime.PrepareCall` | src/mcp_zero_trust_layer/evidence/runtime.py:78-118 | equals `Prepare`: refusals before the store is touched, then the reservation and the forwarded message; `RuntimeAnswers` and `Idempotency` say which and when |
| `Runtime.EvidenceRuntime.ObserveResponse` | src/mcp_zero_trust_layer/evidence/runtime.py:120-139 | equals `Observe`: the two transactions, the verdict, missing and out-of-scope receipts, and the mode |
| `Runtime.EvidenceRuntime.Reconcile` | src/mcp_zero_trust_layer/evidence/runtime.py:148-166 | equals reading, judging the lookup's reply, and recording the receipt with its verdict |
| `Runtime.OwnPermitVerifies` | src/mcp_zero_trust_layer/evidence/runtime.py:84-109 | a configured gateway's own permit always verifies |
| `Runtime.AcceptedReceiptIsBound` | src/mcp_zero_trust_layer/evidence/runtime.py:120-136 | an accepted receipt is for this permit, this response and the configured scope, and verifies by itself |
| `Runtime.RequiredModeNeedsEvidence` | src/mcp_zero_trust_layer/evidence/runtime.py:120-139 | in required mode a response is passed on only with a receipt accepted for it, and that receipt is stored |
| `RuntimeAnswers.DraftsExactly` | src/mcp_zero_trust_layer/evidence/runtime.py:78-109 | a configured gateway drafts a permit if and only if the message is acceptable and the tool is named |
| `RuntimeAnswers.PreparedSays` | src/mcp_zero_trust_layer/evidence/runtime.py:91-118 | the stored permit commits, field by field, to request, caller, approval, policy and window, is what is sent on, and the row and one intent are all that is stored |
| `RuntimeAnswers.ReceiptIsAcceptedExactly` | src/mcp_zero_trust_layer/evidence/runtime.py:120-136 | a receipt is accepted if and only if permit and receipt stand and it is for this response and the configured scope |
| `RuntimeAnswers.VerdictWithoutEvidence` | src/mcp_zero_trust_layer/evidence/runtime.py:124-130 | the verdict noted when a response brings no receipt, or one of another scope |
| `RuntimeAnswers.ResponseIsPassedOnExactly` | src/mcp_zero_trust_layer/evidence/runtime.py:120-139 | a response is passed on if and only if the operation can be read and recorded, and evidence comes with it or is not required; and the whole tables then |
| `RuntimeAnswers.ReplyReconcilesExactly` | src/mcp_zero_trust_layer/evidence/runtime.py:148-163 | a lookup's reply establishes something if and only if it brings a receipt that stands behind the permit with the configured scope |
| `RuntimeAnswers.ReconciliationIsRecordedExactly` | src/mcp_zero_trust_layer/evidence/runtime.py:148-166 | such a receipt is then taken unless it is superseded; any other reply changes nothing |
| `Idempotency.ScopesAgreeExactly` | src/mcp_zero_trust_layer/evidence/runtime.py:111-112 | two calls share a scope if and only if tenant, destination, subject, client, agent, capability and the key in force agree |
| `Idempotency.ReservationIsFoundExactly` | src/mcp_zero_trust_layer/evidence/runtime.py:111-118 | in every later state of the store a further call is answered with an operation if and only if it is the same caller's, under the same key, with the same request; under the same key with another request it is refused; neither changes anything |
| `Idempotency.KeylessCallIsItsOwn` | src/mcp_zero_trust_layer/evidence/runtime.py:111-112 | a call without a key is never answered with the operation of another call, as long as that did not bring its fresh operation id for a key |
| `Pipeline.SendWithEvidence` | src/mcp_zero_trust_layer/core/pipeline.py:273-310 | equals `Sent`: tables, outcome and number of dispatches of one call, for every failure on the way; `CallOutcomes` says which outcome when |
| `Pipeline.TakeIn` | src/mcp_zero_trust_layer/core/pipeline.py:289-296 | equals `Taken`: observe, enforce, record, flush, giving up at the first failure |
| `Pipeline.AnswersAreTruthful` | src/mcp_zero_trust_layer/core/pipeline.py:273-310 | -32050 and -32052 mean nothing was sent or changed; a normal answer follows one dispatch; -32051 leaves a reservation with its intent and at most one dispatch |
| `CallOutcomes.NormalExactly` | src/mcp_zero_trust_layer/core/pipeline.py:286-296 | a call is answered with a response, having sent once, if and only if it was reserved, could be logged, the upstream replied, the reply was taken in, enforcement made that response of it, and that could be recorded under a new event id and flushed |
| `CallOutcomes.NormalLeaves` | src/mcp_zero_trust_layer/core/pipeline.py:292-296 | a normal answer leaves what the observation did and one event |
| `CallOutcomes.OtherwiseExactly` | src/mcp_zero_trust_layer/core/pipeline.py:297-310 | which error code answers which failure, and when a call sends |
| `CallOutcomes.UnknownIsNoted` | src/mcp_zero_trust_layer/core/pipeline.py:300-304 | an unknown outcome is noted wherever the database can be written |
| `CallOutcomes.UndisturbedRefundIsAnswered` | src/mcp_zero_trust_layer/core/pipeline.py:273-296 | a refund nothing disturbs, with the reference destination as upstream, is answered normally; the refund is made and its receipt stored |
| `Pipeline.ConflictStopsTheRuntime` | src/mcp_zero_trust_layer/evidence/runtime.py:120-166 | once an operation has a conflict, observing and reconciling it fail forever and change nothing |
| `WorldSteps.AdmittedWasReleased` | src/mcp_zero_trust_layer/evidence/destination.py:64-75 | with ideal signatures the destination admits only permits that have left this gateway, however messages are altered |
| `WorldSteps.VerifiedReceiptIsTheStoredOne` | src/mcp_zero_trust_layer/evidence/runtime.py:120-136 | a receipt a gateway configuration accepts behind a permit for the reference destination is the one that destination stored for the operation |
| `WorldSteps.RecordFindsNoConflict` | src/mcp_zero_trust_layer/evidence/store.py:108-120 | recording finds a conflict at most for operations at other destinations: receipts from this ledger never conflict with what is stored |
| `WorldSteps.PrepareStep` | src/mcp_zero_trust_layer/evidence/runtime.py:78-118 | a reservation, or a refusal, keeps the system invariant |
| `WorldSteps.SendStep` | src/mcp_zero_trust_layer/core/pipeline.py:289 | a dispatch keeps the invariant: the operation was not dispatched before |
| `WorldSteps.CommitStep` | src/mcp_zero_trust_layer/evidence/destination.py:76-102 | a refund at the destination keeps the invariant |
| `WorldSteps.FinishLookupStep` | src/mcp_zero_trust_layer/evidence/runtime.py:148-166 | the end of a reconciliation keeps the invariant, whatever reply arrives |
| `WorldSteps.PlainConsumeStep` | src/mcp_zero_trust_layer/core/pipeline.py:209-216 | consuming an approval on a server without evidence keeps the invariant |
| `WorldSteps.Step` | src/mcp_zero_trust_layer/core/pipeline.py:189-335 | every action of caller, approver, network, destination, outbox, crash and clock keeps the invariant |
| `WorldSteps.RunIsSafe` | src/mcp_zero_trust_layer/core/pipeline.py:189-335 | the invariant of gateway, network and destination holds in every reachable state |
| `WorldTheorems.AtMostOneRefundPerScope` | src/mcp_zero_trust_layer/evidence/destination.py:76-104 | over every run two refunds of one idempotency scope are one refund, of the amount its permit commits to |
| `WorldTheorems.StoredReceiptIsTrue` | src/mcp_zero_trust_layer/evidence/destination.py:116-130 | a stored receipt of an operation at the reference destination says committed, and the ledger holds that refund with the committed amount |
| `WorldTheorems.ReconcileTellsTheTruth` | src/mcp_zero_trust_layer/evidence/runtime.py:148-166 | in every reachable state an undisturbed reconciliation of an operation at the reference destination gives committed if and only if the refund is in the ledger, and adds none |
| `WorldTheorems.LookupArrivesAsOne` | src/mcp_zero_trust_layer/evidence/runtime.py:151-153 | the request `reconcile` sends is taken for a lookup by the destination, whenever it arrives |
| `WorldTheorems.NoFalseConflicts` | src/mcp_zero_trust_layer/evidence/store.py:108-120 | no interleaving ever records a receipt conflict for an operation at the reference destination |
| `WorldTheorems.OutcomesAreTruthful` | src/mcp_zero_trust_layer/core/pipeline.py:273-310 | the outcome classes mean what they say about dispatches and reservations, over all interleavings |
| `WorldTheorems.RefusalChangesNothing` | src/mcp_zero_trust_layer/core/pipeline.py:285-310 | the step that refuses a call changes nothing but the call |
| `WorldTheorems.DispatchFollowsIntent` | src/mcp_zero_trust_layer/evidence/store.py:79-84 | every dispatch finds its committed `dispatch_intent`, and no operation is dispatched twice |
| `WorldTheorems.OneDispatchPerApproval` | src/mcp_zero_trust_layer/core/pipeline.py:189-217 | over any number of evidence servers and the plain ones together, one approval lets one call through, and it dispatches at most once |
| `WorldIdempotency.CallsAreFiled` | src/mcp_zero_trust_layer/evidence/runtime.py:111-114 | in every reachable state the row of a call's operation is filed under the scope of that call |
| `WorldIdempotency.OneKeyOneCall` | src/mcp_zero_trust_layer/evidence/runtime.py:111-118 | over every run, two calls with one idempotency key that have both reserved, from one principal to one tool of one tenant and destination, are the same call |
| `WorldCalls.CallIsARun` | src/mcp_zero_trust_layer/core/pipeline.py:273-310 | from every state, what `Pipeline` says of a call in one go is a run of the system with the same tables, outcome and dispatches, in which no other call and no ledger row is touched |
| `WorldCalls.ReconcilesInTwo` | src/mcp_zero_trust_layer/evidence/runtime.py:148-166 | reading, asking and recording in the system are `reconcile` |
| `WorldCalls.PlainCallInTwo` | src/mcp_zero_trust_layer/core/pipeline.py:209-216 | a plain call consumes its approval, if it can, and then sends once |
| `WorldCalls.BystandersTransact` | src/mcp_zero_trust_layer/evidence/store.py:142-179 | reviewers, outbox and observers act on the tables by their own transactions and on nothing else |
| `WorldCalls.CrashAndTime` | src/mcp_zero_trust_layer/core/pipeline.py:273-310 | a call that has not ended can vanish wherever it is, and time can pass; neither touches anything else |
| `WorldCompletes.UndisturbedRefundCompletes` | src/mcp_zero_trust_layer/core/pipeline.py:273-296 | from every state in which a refund can go ahead the system has a run in which it is answered, the refund stands in the ledger with its amount, and its receipt in the tables |
| `WorldBegins.IncomingRefundCompletes` | src/mcp_zero_trust_layer/core/pipeline.py:189-296 | in every reachable state, a refund message that comes in under a scope no row has, with a good approval where a policy asks for one, has a run from its arrival to a normal answer, one dispatch, one ledger row of its amount, and a stored receipt |
| `WorldRefinement.WorldRefinesStore` | src/mcp_zero_trust_layer/evidence/store.py:60-179 | at the gateway's tables every run of the whole system is a run of store transactions issued the gateway's way |
| `WorldRefinement.ApprovalsAreAccountedFor` | src/mcp_zero_trust_layer/core/pipeline.py:67-77 | in the whole system an approval of any evidence server is consumed if and only if exactly one reservation carries it |
| `WorldRefinement.SystemAdvances` | src/mcp_zero_trust_layer/evidence/store.py:86-125 | from any point of any run on, nothing recorded is taken back and receipts move only forward |
| `WorldRequests.GrantedCallIsTheApprovedRequest` | src/mcp_zero_trust_layer/core/pipeline.py:189-217 | over every run of the whole system, a call that went ahead on an approval is the request the approval was asked for, without its approval id, and the permit of its operation carries that id and commits to that request |
| `WorldExports.BundlesAreVouchedFor` | src/mcp_zero_trust_layer/evidence/store.py:86-97 | in every reachable state each stored bundle verifies under the trust store of one of the evidence servers |
| `WorldExports.DestinationBundlesVerify` | src/mcp_zero_trust_layer/evidence/store.py:86-97 | for an operation at the reference destination the trust store of the server that reserved it will do |
| `WorldExports.ExportsVerify` | src/mcp_zero_trust_layer/evidence/store.py:134-140 | where the evidence servers share one trust store and reports come from checks, whatever is exported verifies, in every reachable state |
| `WorldExports.NoCheckOfLocalRefunds` | src/mcp_zero_trust_layer/evidence/checks.py:190-206 | no check is made for a receipt of the reference destination |
| `WorldExports.DestinationHistoriesStayEmpty` | src/mcp_zero_trust_layer/evidence/store.py:142-171 | so the history of an operation there is empty in every reachable state |
| `Completeness.AdmittedExactlyWhenRefundInWindow` | src/mcp_zero_trust_layer/evidence/destination.py:62-75 | the destination admits a forwarded request if and only if it is a `tools/call` with an id for a refund within limits, while its permit is current |
| `Completeness.PreparedPermit` | src/mcp_zero_trust_layer/evidence/runtime.py:78-118 | what `prepare` reserves and forwards is the permit made for the message |
| `Completeness.FreshPermitCommits` | src/mcp_zero_trust_layer/evidence/destination.py:85-102 | a permit for a new operation is committed with its refund and material |
| `Completeness.BundleOfCommitVerifies` | src/mcp_zero_trust_layer/evidence/verify.py:53-83 | permit and receipt of a commit verify with request and response content |
| `Completeness.UndisturbedRefundIsAttested` | src/mcp_zero_trust_layer/evidence/destination.py:64-106 | a refund that nothing disturbs is attested: receipt accepted, plain response returned, request and response verified offline |
| `Completeness.UndisturbedRefundIsStored` | src/mcp_zero_trust_layer/evidence/runtime.py:78-139 | prepared, handled and observed without disturbance, a refund leaves one ledger row and, in the tables, its permit with a receipt, which verify with request and response and are what an export reads |
| `Checks.VerifyChecked` | src/mcp_zero_trust_layer/evidence/checks.py:61-104 | accepts if and only if bundle, keys, bindings and chain are in order; reports the entries, or the earliest report that is not in order |
| `Checks.ObserverIsSeparate` | src/mcp_zero_trust_layer/evidence/checks.py:42-58 | an accepted report is signed by the observer it names, in its scope, and with no key the gateway trusts |
| `Checks.CheckNow` | src/mcp_zero_trust_layer/evidence/checks.py:190-243 | equals `CheckRefund`, and what it signs is valid and passes the observer's key check |
| `Checks.FindingsAreConsistent` | src/mcp_zero_trust_layer/evidence/check_models.py:33-49 | whatever the provider answers, the findings satisfy the report's consistency rules |
| `Checks.CorroboratedMeans` | src/mcp_zero_trust_layer/evidence/checks.py:148-187 | corroborated if and only if account, refund, amount, currency, charge, binding and a succeeded status all agree |
| `Checks.CheckIsSound` | src/mcp_zero_trust_layer/evidence/checks.py:190-243 | a report is made only for a bundle that verifies as committed, and continues the history it was told of |
| `Checks.EqualHeadsEqualHistories` | src/mcp_zero_trust_layer/evidence/checks.py:61-104 | two accepted histories with the same last digest are equal, bundle included, under whatever trust |
| `CheckAnswers.ObserverExactly` | src/mcp_zero_trust_layer/evidence/checks.py:42-58 | a report is the observer's if and only if its key is trusted, not revoked, for these parties, scope and account, is no key the gateway trusts, and signed exactly this |
| `CheckAnswers.ReportIsAcceptedExactly` | src/mcp_zero_trust_layer/evidence/checks.py:76-85 | a report is accepted at its place if and only if, besides, it is about this bundle, attested as committed with its scope, and names the report before it |
| `CheckAnswers.ReportIsRefusedFor` | src/mcp_zero_trust_layer/evidence/checks.py:42-85 | the error of a report that is refused is that of the first thing wrong with its key, its scope or its bonds |
| `CheckAnswers.ExportIsAcceptedExactly` | src/mcp_zero_trust_layer/evidence/checks.py:61-104 | an export verifies if and only if its bundle does and each report is in its place behind it |
| `CheckAnswers.EntrySays` | src/mcp_zero_trust_layer/evidence/checks.py:86-95 | an entry repeats its report, and is fresh from check to expiry |
| `CheckAnswers.ArgumentsParseExactly` | src/mcp_zero_trust_layer/evidence/checks.py:209 | which arguments of a refund are read, and as what |
| `CheckAnswers.FindingsExactly` | src/mcp_zero_trust_layer/evidence/checks.py:148-187 | every finding, from what the provider answered |
| `CheckAnswers.PermittedExactly` | src/mcp_zero_trust_layer/evidence/checks.py:196-214 | a check goes ahead if and only if bundle, request, configuration and observer are in order |
| `CheckAnswers.CheckIsRefusedFor` | src/mcp_zero_trust_layer/evidence/checks.py:196-214 | the error of a check that may not be made is that of the first thing wrong with bundle, request, account or observer |
| `CheckAnswers.ReportIsMadeExactly` | src/mcp_zero_trust_layer/evidence/checks.py:190-243 | which checks make a report, and the whole report |
| `HashChain.LastDetermines` | src/mcp_zero_trust_layer/evidence/checks.py:76-96 | in a list linked by injective digests the last item determines the whole list |
| `Histories.HistoriesStand` | src/mcp_zero_trust_layer/evidence/store.py:142-171 | in every reachable state the stored reports stand, chained, behind the bundle as it is now |
| `Histories.ExportVerifies` | src/mcp_zero_trust_layer/evidence/store.py:134-140 | in every reachable state an unconflicted export verifies if and only if its bundle does: reports never spoil it |
| `Histories.ExportAcrossTwoReads` | src/mcp_zero_trust_layer/evidence/store.py:134-140 | with transactions between its two reads an export verifies if and only if, besides, there are no reports or the commit receipt was there at the first read |
| `ExportRace.CheckMakesTheReport` | src/mcp_zero_trust_layer/evidence/checks.py:190-243 | a concrete check on concrete documents makes the report used below |
| `ExportRace.InterruptedExportIsRejected` | src/mcp_zero_trust_layer/evidence/store.py:134-140 | a concrete run whose export verifies before and is rejected when receipt and report arrive between the reads |
| `Outbox.Step` | src/mcp_zero_trust_layer/evidence/store.py:60-179 | any store transaction, overlapping flushes, sink failures and crashes keep the outbox in order |
| `Outbox.TablesAreTheStores` | src/mcp_zero_trust_layer/evidence/store.py:60-179 | with flushes in between, however interrupted, the tables are those of a run of store transactions |
| `Outbox.DeliveryFollowsTheLog` | src/mcp_zero_trust_layer/evidence/store.py:173-179 | delivered rows are a prefix of the log, the sink without repetitions is a prefix of it, and what is marked was emitted |
| `Outbox.UndisturbedFlush` | src/mcp_zero_trust_layer/evidence/store.py:173-179 | a flush nobody interrupts emits the batch in order and marks exactly it, as the method says |
| `Outbox.FailedFlush` | src/mcp_zero_trust_layer/evidence/store.py:173-179 | a flush whose sink fails leaves every mark as it was, and the sink with what it was given until then |
| `Outbox.FlushesFinish` | src/mcp_zero_trust_layer/evidence/store.py:173-179 | n successful flushes deliver n thousand rows; nothing is left exactly from the count that covers the rest |
| `Audit.LastLine` | src/mcp_zero_trust_layer/audit/logger.py:181-200 | the backward scan finds the last line that is not empty |
| `Audit.LastLineOfText` | src/mcp_zero_trust_layer/audit/logger.py:181-200 | on a text whose lines end in newlines that is the last line written |
| `Audit.FileAuditLogger.PreviousChainState` | src/mcp_zero_trust_layer/audit/logger.py:170-179 | hash and sequence read back from the file are those of the events logged so far |
| `Audit.FileAuditLogger.Write` | src/mcp_zero_trust_layer/audit/logger.py:128-136 | the file holds the chained log of all events, the new one included, each with every member it was given |
| `Audit.StdoutAuditLogger.Write` | src/mcp_zero_trust_layer/audit/logger.py:114-126 | the output is the chained log of all events, and the kept fields are its last hash and length |
| `Audit.WriteBoth` | src/mcp_zero_trust_layer/audit/logger.py:113-140 | the two writers put out the same text, and the state rebuilt from the file is the state kept in fields |
| `Audit.ChainedStoresHash` | src/mcp_zero_trust_layer/audit/logger.py:161-168 | every event of the chained log stores its own hash, its position, and the hash before |
| `Audit.ChainedKeepsEvents` | src/mcp_zero_trust_layer/audit/logger.py:161-168 | short of the three fields of the chain, what is logged is the event that was given |
| `Audit.LoggedEventsReadBack` | src/mcp_zero_trust_layer/audit/logger.py:136 | parsing a line of the written log gives back every other member of its event |
| `Audit.LinesAndEnds` | src/mcp_zero_trust_layer/audit/logger.py:222 | splitting a text cuts it at its line ends and nowhere else |
| `Audit.VerifyHashChain` | src/mcp_zero_trust_layer/audit/logger.py:217-243 | verified if and only if every line is in order; otherwise the first line that is not, with what is wrong |
| `Audit.AcceptedEventsAreNumbered` | src/mcp_zero_trust_layer/audit/logger.py:235-238 | an accepted log whose events all carry a number is numbered from one on |
| `Audit.TextSplitsIntoEvents` | src/mcp_zero_trust_layer/audit/logger.py:222 | splitting the written text gives back the written lines |
| `Audit.WrittenLogVerifies` | src/mcp_zero_trust_layer/audit/logger.py:217-243 | every log the writers produce is accepted |
| `Audit.EqualEndsEqualLogs` | src/mcp_zero_trust_layer/audit/logger.py:209-243 | with a collision-free hash two accepted logs that end in the same hash have the same events |
| `Audit.EqualEndsEqualEvents` | src/mcp_zero_trust_layer/audit/logger.py:113-140 | with a collision-free hash, two runs of a writer whose logs end in the same hash were given the same events, short of the fields of the chain |
| `SqlText.SqlCode` | src/mcp_zero_trust_layer/validators/basic.py:215-257 | the one-pass lexer equals `Masked`, with its errors, and every turn moves on |
| `SqlGrammar.LexReadsTheGrammar` | src/mcp_zero_trust_layer/validators/basic.py:215-257 | the lexer reads a query as a sequence of tokens if and only if it is that sequence of comments, literals and plain characters, each said by its own text |
| `SqlGrammar.RefusalExactly` | src/mcp_zero_trust_layer/validators/basic.py:230-253 | where no token can be read, the reason: an open or executable comment, a nested one, a backslash in a literal, an open literal, or a dialect character |
| `SqlText.LexedTokensAreSeparable` | src/mcp_zero_trust_layer/validators/basic.py:215-257 | neighbouring tokens never read as a comment or literal together |
| `SqlText.MaskingIsIdempotent` | src/mcp_zero_trust_layer/validators/basic.py:215-257 | masking masked text changes nothing and reads as the same tokens |
| `SqlText.SplitStatements` | src/mcp_zero_trust_layer/validators/basic.py:260-283 | the loop equals cutting outside quotes and dropping blank pieces |
| `SqlText.PiecesRejoin` | src/mcp_zero_trust_layer/validators/basic.py:260-283 | the pieces, before blank ones are dropped, rejoin to the text |
| `SqlText.SplitterCutsAtTokens` | src/mcp_zero_trust_layer/validators/basic.py:260-283 | on lexed text the toggling splitter cuts exactly at the lexer's semicolons, never inside a quoted identifier |
| `SqlText.SeveralStatementsExactlyWhenStacked` | src/mcp_zero_trust_layer/validators/basic.py:57-63 | the validator counts more than one statement if and only if the query has a semicolon, outside comments, literals and quoted identifiers, with something on either side |
| `Sessions.SessionRegistry.Resolve` | src/mcp_zero_trust_layer/transports/http/sessions.py:28-51 | exact result, entries and cache for every request: expiry first, then unknown, refused, touched, stateless, full or new; nothing left is expired |
| `Sessions.SessionRegistry.Expire` | src/mcp_zero_trust_layer/transports/http/sessions.py:31-34 | removes exactly the expired entries and their cached ids |
| `Sessions.SessionRegistry.RemoveEntry` | src/mcp_zero_trust_layer/transports/http/sessions.py:57-64 | removes the entry together with its active key and cached id |
| `Sessions.SessionRegistry.Active` | src/mcp_zero_trust_layer/transports/http/sessions.py:53-55 | whether the key has an entry |
| `Sessions.UpstreamClient.StartSend` | src/mcp_zero_trust_layer/upstream/http.py:45-49 | the cached id of this server and session, if any |
| `Sessions.UpstreamClient.FinishSend` | src/mcp_zero_trust_layer/upstream/http.py:60-63 | a late reply's id is kept only while the session is active |
| `Sessions.UpstreamClient.RegisterSession` | src/mcp_zero_trust_layer/upstream/http.py:94-96 | adds the key to the active ones |
| `Sessions.UpstreamClient.ForgetSession` | src/mcp_zero_trust_layer/upstream/http.py:98-101 | drops the key and its cached id together |
| `Sessions.TablesAgree` | src/mcp_zero_trust_layer/transports/http/sessions.py:28-64 | at every lock-free point of every interleaving the tables name the same sessions, cached ids are active, capacity is kept |
| `Sessions.UndisturbedSteps` | src/mcp_zero_trust_layer/transports/http/sessions.py:46-64 | with nothing in between, the steps of the interleaved model do what the methods say |
| `Sessions.UpstreamIdsStayWithTheirOwner` | src/mcp_zero_trust_layer/transports/http/app.py:205-209 | an upstream id goes out only with requests of the server and owner whose earlier reply brought it |
| `Stdio.StdioUpstream.Read` | src/mcp_zero_trust_layer/upstream/stdio.py:130 | a read gives a nonempty piece within its limit, or nothing at the end |
| `Stdio.StdioUpstream.ReadLine` | src/mcp_zero_trust_layer/upstream/stdio.py:111-135 | the frame and the rest are `NextFrame` of the pending bytes; the buffer stays within its bound, lines within theirs, and no byte is lost |
| `Stdio.ReadBoth` | src/mcp_zero_trust_layer/upstream/stdio.py:111-135 | two pipes carrying the same bytes in different pieces give the same lines and errors |
| `Stdio.FrameExactly` | src/mcp_zero_trust_layer/upstream/stdio.py:111-135 | a line is read if and only if the pending bytes begin with it and a newline within the limit, or it is empty and nothing is pending; and when each of the two errors comes |
| `Stdio.LinesComeBack` | src/mcp_zero_trust_layer/upstream/stdio.py:111-135 | lines that were written come back one by one, followed by what comes after them |
| `Stdio.EmptyLineIsBlankOrEnd` | src/mcp_zero_trust_layer/upstream/stdio.py:117-134 | the empty line is read if and only if the stream is at its end or the line is blank |
| `InputPolicy.CollectDisallowed` | src/mcp_zero_trust_layer/validators/input_policy.py:32-48 | appends exactly the problems of the pruned recursion |
| `InputPolicy.SplitDotsCutsAtDots` | src/mcp_zero_trust_layer/validators/input_policy.py:26 | a field's path is the field cut at its dots and nowhere else |
| `InputPolicy.AllowedFieldErrors` | src/mcp_zero_trust_layer/validators/input_policy.py:23-29 | no error if and only if there is no list or the flat rule holds; the errors are exactly the reported paths |
| `InputPolicy.PrunedEqualsFlat` | src/mcp_zero_trust_layer/validators/input_policy.py:32-58 | for arguments of any depth, nothing is reported if and only if every existing path is or extends an allowed one, or leads to one and holds an object |
| `InputPolicy.ReportedExactly` | src/mcp_zero_trust_layer/validators/input_policy.py:32-48 | reported are the paths that should be objects and the first paths that lead nowhere, and no others |
| `RequestBinding.StripIsIdempotent` | src/mcp_zero_trust_layer/core/pipeline.py:547-560 | stripping twice is stripping once |
| `RequestBinding.NothingLeftToExtract` | src/mcp_zero_trust_layer/core/pipeline.py:534-560 | no approval id can be taken from a stripped message |
| `RequestBinding.ContextsCoincide` | src/mcp_zero_trust_layer/core/pipeline.py:434-490 | two messages have one context if and only if method, stripped params, server, policies, engine and identity agree, and an id among `arguments` makes no difference to the method |
| `RequestAnswers.ContextSays` | src/mcp_zero_trust_layer/core/pipeline.py:434-490 | what a request is judged by: server, method, the capability it names, caller, its arguments short of the approval id, and what it is bound to |
| `RequestAnswers.BoundParamsSay` | src/mcp_zero_trust_layer/core/pipeline.py:547-560 | a request is bound to all its params but the approval id, at the top and among the arguments |
| `RequestAnswers.StrippingKeepsTheRest` | src/mcp_zero_trust_layer/core/pipeline.py:547-560 | stripping changes the params of a message and nothing else |
| `RequestBinding.ValidExactlyForTheSameRequest` | src/mcp_zero_trust_layer/approvals/store.py:141-160 | an approval made for one message is valid for another if and only if it is active, under the same policy, and the other is the same request |
| `RequestBinding.IdAsParamIsAccepted` | src/mcp_zero_trust_layer/core/pipeline.py:534-545 | for every method, an id brought as a param of its own is found, and the approval is valid for that retry exactly as long as it is active |
| `RequestBinding.IdAsArgumentIsAcceptedExactlyWhenNested` | src/mcp_zero_trust_layer/core/pipeline.py:448-465 | an id brought inside `arguments` is found too, but the approval is valid for that retry if and only if it is active and the method takes its arguments from there |
| `RequestBinding.NestedIdIsAnArgument` | src/mcp_zero_trust_layer/core/pipeline.py:462-465 | where the params are the arguments, no retry with an id of any kind inside `arguments` is the request that was approved without one |
| `RequestBinding.NestedIdSpoilsTheRetry` | src/mcp_zero_trust_layer/core/pipeline.py:462-465 | an approved `resources/read`, retried both ways: the id is found both times; brought as a param of its own it is accepted, brought inside `arguments` it is not |
| `RequestBinding.HandleApprovalRequired` | src/mcp_zero_trust_layer/core/pipeline.py:189-240 | forwards the stripped message, consuming on the plain path only, exactly when the approval lets it through; otherwise creates a new pending approval |
| `RequestBinding.ApprovedIsForwarded` | src/mcp_zero_trust_layer/core/pipeline.py:189-217 | over any run of the approval store, what is let through is the request that was approved, and it carries no approval id |
| `RequestAnswers.LetThroughExactly` | src/mcp_zero_trust_layer/core/pipeline.py:189-217 | an approval lets a message through if and only if the message brings its id, a policy asked for it, and the record is good for this request now |
| `RequestAnswers.ExpiredAsksAgain` | src/mcp_zero_trust_layer/core/pipeline.py:189-240 | from its deadline on an approval lets no message through, whatever was done with it before |
| `RequestAnswers.ExpiredReservesNothing` | src/mcp_zero_trust_layer/evidence/store.py:80-81 | nor does a reservation go ahead on it: it fails as not active, and every table stays |
| `RequestAnswers.ReservationNeedsGoodApproval` | src/mcp_zero_trust_layer/evidence/store.py:80-84 | a reservation that asks for an approval goes ahead if and only if the record is good for the request, and consumes it |
| `RequestBinding.PermitCoversApprovedRequest` | src/mcp_zero_trust_layer/core/pipeline.py:199-207 | with evidence the permit commits to the request that was approved |

## Left out

- Ed25519, SHA-256, HMAC, canonical JSON and base64url: library code behind the idealizations above; the size and depth limits of `canonical` are not modelled either.
- SQLite itself, file locks, fsync, permissions, key loading and path resolution: transactions are assumed serializable, and a locked read and append of the audit file is one step.
- The shapes pydantic enforces on text, hashes and literals: documents are typed values; the validators that relate fields (authorization window, commit reference, observation interval, the limit of 256) are kept.
- A receipt whose envelope parses but whose payload does not: it counts as malformed from the start, with the same rejection.
- JSON numbers are integers; floating point and the text of error messages are not modelled.
- The authentication mode, issuer and audience inside the principal commitment: one constant per gateway.
- Policy matching, output enforcement, metrics and the audit entries of the pipeline: the policy decision is an input, the enforced response or its failure is an input of `Pipeline` and `World`, and a failing audit write is a failure at its place.
- HTTP, subprocesses, select, deadlines and DNS: replies, chunks and provider data are arbitrary inputs; timeouts are not modelled.
- The provider reader of observer checks: what it returns, or that it failed, is an input of `Checks`.
- The regular expressions of the SQL validator (keywords, functions) and its other validators: table lookups; only the lexer, the splitter and their composition are modelled.
- Forbidden, required and size rules of an input policy: flat lookups beside the recursion.
- UTF-8: text is a sequence of characters, and bytes are modelled only in `Stdio`. An audit line that is not valid UTF-8 is not modelled.
- A partly written audit line after an I/O error, and a stdout writer restarting its chain with its process: the chain results are about completed writes of one chain.
- CLI, HTML, notifications, demos, packs, configuration import, JWT and OIDC, webhooks, the scanner and redaction: plumbing or lookups, easy members.
- The concurrency of `World` is at the level of database transactions and messages; between a call's send and the destination's commit any number of other actions may come, but a single transaction is not taken apart.
- The configuration of servers, trust stores and destination does not change during a run of `World`.
- WorldExports.ExportsVerify: an export names no server, so with several trust stores the one that vouches for its bundle has to be taken (`WorldExports.BundlesAreVouchedFor`); `Histories.ExportVerifies` is the condition under any trust store.
- Status changes in `World` come from approvers and expiry; a status set to "consumed" by hand is covered in `Approvals` and `StoreSafety` but is not an action of `World`.
- SQLite's write lock between overlapping flushes: in `Outbox` they interleave freely, so the results cover more runs than occur.
- Sessions.SessionRegistry.Resolve: time is a whole number that does not go back; that nothing left is expired needs a positive time to live, which the default of 3600 seconds has.
- The delivered marks that the flushes inside a call leave: in `Pipeline` and `World` a flush only succeeds or fails, `Outbox` says what it marks.
- Replies without an upstream session id, and error replies, in the interleavings of `Sessions`: they touch neither table.
- Stdio.StdioUpstream.ReadLine: does not model the deadline, at which the call gives up; the loop that writes requests and the parsing of a response are left out.
- Moments before 1970, which a clock does not give.
- Approvals.FileApprovalStore.ChangeStatus: the redacted arguments kept for display are not part of a record.
- Destination.RefundDestination.HandleMessage: the JSON-RPC envelope of a reply and the text of the two descriptions are not modelled; messages are JSON objects.
