// Gateway, network and destination together: every interleaving of callers, reviewers, observers,
// reconciliations, lost, repeated or altered messages, storage failures and crashes is a sequence
// of the actions below.
//
// A gateway has any number of evidence servers, each with its own evidence configuration, on one
// database. Those that name the reference destination send to it; what the others send to is not
// constrained at all.
module World {
  import opened Wrappers
  import opened Documents
  import opened Protocol
  import opened Verify
  import opened Store
  import opened TextOrder
  import A = Approvals
  import B = RequestBinding
  import D = Destination
  import G = Runtime
  import S = StoreSafety

  datatype Config = Config(servers: map<string, G.Config>, destination: D.Config)

  // The audience and tenant of the reference destination.
  predicate Served(g: G.Config) {
    g.destination == "refund-demo" && g.tenant == "demo"
  }

  predicate ForDestination(permit: Permit) {
    D.AudienceAllowed(permit.authorization.payload)
  }

  // No trust store of the gateway has another key for the reference destination.
  predicate KnowsDestination(c: Config, g: G.Config) {
    forall k | k in g.trust.keys && g.trust.keys[k].role == DestinationRole
               && g.trust.keys[k].issuer == "refund-demo" && g.trust.keys[k].tenant == "demo" ::
      g.trust.keys[k].publicKey == c.destination.publicKey
  }

  predicate ReadyToServe(c: Config, g: G.Config) {
    g.scope == D.SCOPE && c.destination.kid in g.trust.keys
    && G.DestinationKeyFor(g, g.trust.keys[c.destination.kid])
  }

  // The deployment: every evidence server passes the constructor's checks, those that name the
  // reference destination trust its key, and it trusts no gateway key but theirs.
  predicate Paired(c: Config) {
    && (forall s | s in c.servers :: G.ValidConfig(c.servers[s]) && KnowsDestination(c, c.servers[s])
          && (Served(c.servers[s]) ==> ReadyToServe(c, c.servers[s])))
    && (forall k | k in c.destination.trust.keys && c.destination.trust.keys[k].role == GatewayRole ::
          GatewayKey(c, c.destination.trust.keys[k].publicKey))
  }

  predicate GatewayKey(c: Config, publicKey: string) {
    exists s :: s in c.servers && c.servers[s].publicKey == publicKey
  }

  // How a call ended: the codes are those of the errors the gateway itself builds.
  datatype Outcome =
    | Normal(response: Dict)
    | Unknown(operation: string)            // -32051
    | NotDispatched                         // -32050
    | AlreadyReserved(previous: string)     // -32052
    | Vanished                              // the gateway died; the client got no answer

  // Where a call is in _send_with_evidence.
  datatype Pc =
    | Started
    | Reserved(forwarded: Dict)
    | InFlight
    | Answered(reply: Dict)
    | Judged(judgement: G.Judgement)
    | Observed(clean: Dict)
    | Ready(response: Dict)
    | Failing
    | Done(outcome: Outcome)

  // `raw` is the request as it came in and `configured` the configuration that judged it; `message`
  // is what goes on. `operation` is set by a successful reservation; `granted` is the approval the
  // call consumed.
  datatype Call = Call(configured: B.Configured, raw: Dict, message: Dict, context: A.RequestContext,
                       approval: Option<(string, string)>,
                       pc: Pc, operation: Option<string>, granted: Option<string>, sends: nat)

  // A reconciliation through `server`, with the permit it has read.
  datatype Lookup = Lookup(server: string, operation: string, permit: Permit)

  // A call on a server without evidence that has consumed its approval.
  datatype Plain = Plain(granted: string, sends: nat)

  // `makers` tells which server reserved an operation; `released` are the permits that have left
  // the gateway, `dispatched` the operations sent upstream, in order.
  datatype World = World(tables: Tables, makers: map<string, string>, ledger: D.Ledger, released: set<Permit>,
                         dispatched: seq<string>, calls: map<nat, Call>, lookups: map<nat, Lookup>,
                         plains: map<nat, Plain>, now: Moment)

  const START := World(EMPTY, map[], D.NO_REFUNDS, {}, [], map[], map[], map[], 0)

  datatype Action =
    | Begin(call: nat, configured: B.Configured, raw: Dict, identity: A.Identity, policy: Option<string>)
    | Prepare(call: nat, ids: G.Ids, stored: bool)
    | Send(call: nat)
    | Receive(call: nat, reply: Dict)
    | ReadBundle(call: nat)
    | WriteVerdict(call: nat, nonce: string, eventId: string, conflictId: string)
    | Respond(call: nat, response: Dict, eventId: string, conflictId: string)
    | Finish(call: nat)
    | Raise(call: nat)
    | Recover(call: nat, stored: bool, eventId: string, conflictId: string)
    | Crash(call: nat)
    | Commit(message: Dict, minted: D.Minted)
    | SignMaterial(operation: string, digest: Digest, signs: bool)
    | StartLookup(lookup: nat, server: string, operation: string)
    | FinishLookup(lookup: nat, answer: Option<Dict>, eventId: string, conflictId: string)
    | Approve(command: A.Command)
    | PlainConsume(plain: nat, id: string, context: A.RequestContext, policyId: string)
    | PlainSend(plain: nat)
    | Deliver(batch: set<nat>)
    | Report(operation: string, tenant: string, document: SignedObservation, eventId: string)
    | Tick(later: Moment)

  // -------- Ideal signatures --------

  // A message can be replayed and altered, but a document signed with a key of the gateway is one
  // of those that left the gateway.
  predicate Unforged(c: Config, released: set<Permit>, permit: Permit) {
    && (ByGatewayKey(c, permit.authorization) ==>
          exists p :: p in released && p.authorization == permit.authorization)
    && (ByGatewayKey(c, permit.attempt) ==>
          exists p :: p in released && p.attempt == permit.attempt)
  }

  predicate ByGatewayKey<P>(c: Config, document: Signed<P>) {
    document.signature.Ed25519? && GatewayKey(c, document.signature.publicKey)
  }

  predicate BySigner<P>(document: Signed<P>, publicKey: string) {
    document.signature.Ed25519? && document.signature.publicKey == publicKey
  }

  // A receipt signed with the destination's key is one the destination has stored.
  predicate Authentic(c: Config, ledger: D.Ledger, receipt: Json) {
    receipt.ReceiptDoc? && BySigner(receipt.receipt, c.destination.publicKey) ==>
      exists o :: o in ledger.operations && ledger.operations[o].receipt == Some(receipt.receipt)
  }

  predicate AuthenticReply(c: Config, ledger: D.Ledger, reply: Dict) {
    SplitResponse(reply).Success? ==> Authentic(c, ledger, SplitResponse(reply).value.1)
  }

  predicate AuthenticLookup(c: Config, ledger: D.Ledger, reply: Option<Dict>) {
    reply.Some? && "result" in reply.value && reply.value["result"].Obj?
      && "receipt" in reply.value["result"].fields ==>
      Authentic(c, ledger, reply.value["result"].fields["receipt"])
  }

  // -------- What each action does; an action that is not enabled changes nothing --------

  function At(w: World, call: nat, next: Call): World {
    w.(calls := w.calls[call := next])
  }

  predicate Known(c: Config, w: World, call: nat) {
    call in w.calls && w.calls[call].context.server in c.servers
  }

  // The evidence configuration a call works under.
  function GatewayOf(c: Config, call: Call): G.Config
    requires call.context.server in c.servers
  {
    c.servers[call.context.server]
  }

  // A call as it starts: judged in the context of its message, and stripped of its approval id when
  // it goes on with an approval.
  function Opened(configured: B.Configured, raw: Dict, identity: A.Identity, policy: Option<string>): Option<Call> {
    var context := B.ContextForMessage(configured, raw, identity);
    var id := B.ExtractApprovalId(raw);
    if context.None? || (policy.Some? && id.None?) || B.Get(raw, "method", Null) != Str("tools/call")
       || "id" !in raw then None
    else
      Some(Call(configured, raw, if policy.Some? then B.StripApprovalId(raw) else raw, context.value,
        if policy.Some? then Some((id.value, policy.value)) else None, Started, None, None, 0))
  }

  function ConsumeFor(w: World, call: Call): Option<ConsumeRequest> {
    if call.approval.None? then None
    else Some(ConsumeRequest(call.approval.value.0, call.context, call.approval.value.1, w.now))
  }

  // `stored` is false when the database is unavailable and the transaction never commits.
  function DoPrepare(c: Config, w: World, call: nat, ids: G.Ids, stored: bool): World
    requires Known(c, w, call) && w.calls[call].pc.Started?
  {
    var it := w.calls[call];
    if !stored then At(w, call, it.(pc := Done(NotDispatched)))
    else
      var (tables, r) := G.Prepare(w.tables, GatewayOf(c, it), it.message, it.context, ConsumeFor(w, it), ids,
                                   w.now / 1_000_000);
      match r
      case Failure(Refused(_)) => At(w, call, it.(pc := Done(NotDispatched)))
      case Failure(AlreadyReserved(previous)) => At(w, call, it.(pc := Done(AlreadyReserved(previous))))
      case Success((operation, forwarded)) =>
        At(w, call, it.(pc := Reserved(forwarded), operation := Some(operation),
                        granted := if it.approval.Some? then Some(it.approval.value.0) else None)).(tables := tables,
            makers := w.makers[operation := it.context.server])
  }

  function DoReadBundle(c: Config, w: World, call: nat): World
    requires Known(c, w, call) && w.calls[call].pc.Answered? && w.calls[call].operation.Some?
  {
    var it := w.calls[call];
    var bundle := Get(w.tables, it.operation.value, GatewayOf(c, it).tenant);
    if bundle.Failure? then At(w, call, it.(pc := Failing))
    else
      var judged := G.Judge(GatewayOf(c, it), bundle.value.permit, it.pc.reply);
      At(w, call, it.(pc := if judged.Failure? then Failing else Judged(judged.value)))
  }

  function DoWriteVerdict(c: Config, w: World, call: nat, nonce: string, eventId: string, conflictId: string): World
    requires Known(c, w, call) && w.calls[call].pc.Judged? && w.calls[call].operation.Some?
  {
    var it := w.calls[call];
    var (tables, r) := G.ObserveWrite(w.tables, GatewayOf(c, it), it.operation.value, it.pc.judgement, nonce, eventId,
                                      conflictId);
    At(w, call, it.(pc := if r.Failure? then Failing else Observed(r.value))).(tables := tables)
  }

  function DoRespond(c: Config, w: World, call: nat, response: Dict, eventId: string, conflictId: string): World
    requires Known(c, w, call) && w.calls[call].operation.Some?
  {
    var it := w.calls[call];
    var (tables, r) := Record(w.tables, it.operation.value, GatewayOf(c, it).tenant, ClientResponsePrepared, None,
                               eventId, conflictId);
    At(w, call, it.(pc := if r.Failure? then Failing else Ready(response))).(tables := tables)
  }

  function DoRecover(c: Config, w: World, call: nat, stored: bool, eventId: string, conflictId: string): World
    requires Known(c, w, call) && w.calls[call].operation.Some?
  {
    var it := w.calls[call];
    var tables := if stored then Record(w.tables, it.operation.value, GatewayOf(c, it).tenant, OutcomeUnavailable, None,
                                        eventId, conflictId).0
                  else w.tables;
    At(w, call, it.(pc := Done(Unknown(it.operation.value)))).(tables := tables)
  }

  predicate InProgress(pc: Pc) {
    !pc.Started? && !pc.Failing? && !pc.Done?
  }

  function Next(c: Config, w: World, a: Action): World {
    match a
    case Begin(call, configured, raw, identity, policy) =>
      var newcomer := Opened(configured, raw, identity, policy);
      if call in w.calls || configured.name !in c.servers || newcomer.None? then w
      else At(w, call, newcomer.value)
    case Prepare(call, ids, stored) =>
      if Known(c, w, call) && w.calls[call].pc.Started? && ids.operationId !in w.tables.operations then
        DoPrepare(c, w, call, ids, stored)
      else w
    case Send(call) =>
      if call in w.calls && w.calls[call].pc.Reserved? && w.calls[call].operation.Some?
         && w.calls[call].operation.value in w.tables.operations then
        var it := w.calls[call];
        var permit := w.tables.operations[it.operation.value].bundle.permit;
        At(w, call, it.(pc := InFlight, sends := it.sends + 1))
          .(released := w.released + {permit}, dispatched := w.dispatched + [it.operation.value])
      else w
    case Receive(call, reply) =>
      if call in w.calls && w.calls[call].pc.InFlight? && AuthenticReply(c, w.ledger, reply) then
        At(w, call, w.calls[call].(pc := Answered(reply)))
      else w
    case ReadBundle(call) =>
      if Known(c, w, call) && w.calls[call].pc.Answered? && w.calls[call].operation.Some? then DoReadBundle(c, w, call)
        else w
    case WriteVerdict(call, nonce, eventId, conflictId) =>
      if Known(c, w, call) && w.calls[call].pc.Judged? && w.calls[call].operation.Some? then
        DoWriteVerdict(c, w, call, nonce, eventId, conflictId)
      else w
    case Respond(call, response, eventId, conflictId) =>
      if Known(c, w, call) && w.calls[call].pc.Observed? && w.calls[call].operation.Some? then
        DoRespond(c, w, call, response, eventId, conflictId)
      else w
    case Finish(call) =>
      if call in w.calls && w.calls[call].pc.Ready? then
        At(w, call, w.calls[call].(pc := Done(Normal(w.calls[call].pc.response))))
      else w
    case Raise(call) =>
      if call in w.calls && InProgress(w.calls[call].pc) then At(w, call, w.calls[call].(pc := Failing)) else w
    case Recover(call, stored, eventId, conflictId) =>
      if Known(c, w, call) && w.calls[call].pc.Failing? && w.calls[call].operation.Some? then
        DoRecover(c, w, call, stored, eventId, conflictId)
      else w
    case Crash(call) =>
      if call in w.calls && !w.calls[call].pc.Done? then At(w, call, w.calls[call].(pc := Done(Vanished))) else w
    case Commit(message, minted) =>
      var admitted := D.Admit(c.destination, message, w.now / 1_000_000);
      if admitted.Success? && Unforged(c, w.released, admitted.value.permit) then
        w.(ledger := D.Commit(w.ledger, admitted.value, minted).0)
      else w
    case SignMaterial(operation, digest, signs) =>
      w.(ledger := D.SignReceipt(w.ledger, c.destination, operation, digest, signs).0)
    case StartLookup(lookup, server, operation) =>
      if lookup in w.lookups || server !in c.servers then w
      else
        var bundle := Get(w.tables, operation, c.servers[server].tenant);
        if bundle.Failure? then w
        else w.(lookups := w.lookups[lookup := Lookup(server, operation, bundle.value.permit)],
                released := w.released + {bundle.value.permit})
    case FinishLookup(lookup, answer, eventId, conflictId) =>
      if lookup in w.lookups && w.lookups[lookup].server in c.servers && AuthenticLookup(c, w.ledger, answer) then
        var it := w.lookups[lookup];
        w.(tables := G.ReconcileWrite(w.tables, c.servers[it.server], it.operation, it.permit, answer,
                                      eventId, conflictId).0)
      else w
    case Approve(command) =>
      if command.Consume? || (command.SetStatus? && command.status == A.Consumed) then w
      else w.(tables := w.tables.(approvals := A.After(w.tables.approvals, command)))
    case PlainConsume(plain, id, context, policyId) =>
      var (approvals, consumed) := A.ConsumeBook(w.tables.approvals, id, context, policyId, w.now);
      if plain in w.plains || context.server in c.servers || !consumed then w
      else w.(tables := w.tables.(approvals := approvals), plains := w.plains[plain := Plain(id, 0)])
    case PlainSend(plain) =>
      if plain in w.plains && w.plains[plain].sends == 0 then
        w.(plains := w.plains[plain := w.plains[plain].(sends := 1)])
      else w
    case Deliver(batch) => w.(tables := S.Next(w.tables, S.DoDeliver(batch)))
    case Report(operation, tenant, document, eventId) =>
      w.(tables := AppendObservation(w.tables, operation, tenant, document, eventId).0)
    case Tick(later) => if later >= w.now then w.(now := later) else w
  }

  function Run(c: Config, w: World, actions: seq<Action>): World {
    if actions == [] then w else Next(c, Run(c, w, actions[..|actions| - 1]), actions[|actions| - 1])
  }
}
