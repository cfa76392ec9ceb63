// In the transition system too, a refund that nothing disturbs comes to its end, from every state.
module WorldCompletes {
  import opened Wrappers
  import opened Documents
  import opened Protocol
  import opened Verify
  import opened Store
  import opened World
  import opened WorldCalls
  import A = Approvals
  import C = Completeness
  import D = Destination
  import G = Runtime
  import O = CallOutcomes
  import P = Pipeline

  // The permit a call gets, and the receipt the destination makes for it.
  function PermitOf(c: Config, w: World, k: nat, ids: G.Ids): Permit
    requires Known(c, w, k) && RequestPayload(w.calls[k].message).Success?
  {
    var it := w.calls[k];
    G.MakePermit(GatewayOf(c, it), RequestPayload(it.message).value, it.context, G.ConsumedId(ConsumeFor(w, it)), ids,
                 w.now / 1_000_000)
  }

  // A call that can go ahead undisturbed: a refund within limits through a server of the destination,
  // with new identifiers.
  ghost predicate Undisturbed(c: Config, w: World, k: nat, around: P.Surroundings, amount: int) {
    && Known(c, w, k) && w.calls[k].pc == Started && w.calls[k].operation.None?
    && var it := w.calls[k]; var g := GatewayOf(c, it);
    && C.Deployed(g, c.destination) && D.ValidLedger(c.destination, w.ledger)
    && around.now == w.now / 1_000_000 && around.ids.operationId != ""
    && G.Prepare(w.tables, g, it.message, it.context, ConsumeFor(w, it), around.ids, around.now).1.Success?
    && C.IsRefund(it.context, it.message, amount)
    && around.ids.operationId !in w.tables.operations && around.ids.operationId !in w.ledger.operations
    && !HasConflict(w.tables.events, around.ids.operationId)
    && around.logged && around.flushed && around.enforced.Some?
    && around.prepared.0 !in {around.ids.eventId, around.observed.0, around.observed.1}
    && around.observed.0 != around.ids.eventId
    && !EventIdUsed(w.tables.events, around.observed.0) && !EventIdUsed(w.tables.events, around.prepared.0)
  }

  // The response to a refund with its receipt.
  function Reply(amount: int, receipt: SignedReceipt): Dict {
    var sent := InjectReceipt(D.RefundResponse(amount), ReceiptDoc(receipt));
    if sent.Success? then sent.value else map[]
  }

  lemma DestinationReplies(c: Config, w: World, k: nat, around: P.Surroundings, amount: int, minted: D.Minted)
    requires Undisturbed(c, w, k, around, amount)
    ensures ValidateClient(w.calls[k].message).Success? && RequestPayload(w.calls[k].message).Success?
    ensures var it := w.calls[k]; var o := around.ids.operationId;
      var permit := PermitOf(c, w, k, around.ids);
      var (u, p) := G.Prepare(w.tables, GatewayOf(c, it), it.message, it.context, ConsumeFor(w, it), around.ids,
                              around.now);
      var (committed, plain) := D.Commit(w.ledger, D.Admitted(permit, amount), minted);
      var (signed, receipt) := D.SignReceipt(committed, c.destination, o, AttemptDigest(permit), true);
      && p.Success? && p.value == (o, AttachPermit(it.message, permit))
      && o in u.operations && u.operations[o].bundle.permit == permit
      && D.Admit(c.destination, AttachPermit(it.message, permit), w.now / 1_000_000)
         == Success(D.Admitted(permit, amount))
      && receipt.Success?
      && D.Respond(c.destination, w.ledger, AttachPermit(it.message, permit), w.now / 1_000_000, minted, true, true)
         == (signed, D.Reply(Reply(amount, receipt.value)))
      && SplitResponse(Reply(amount, receipt.value)) == Success((D.RefundResponse(amount), ReceiptDoc(receipt.value)))
      && o in signed.operations && signed.operations[o].receipt == Some(receipt.value)
      && o in signed.refunds && signed.refunds[o] == amount
  {
    hide C.Deployed, D.ValidLedger, G.Prepare, C.IsRefund, HasConflict, EventIdUsed, RequestPayload, ValidateClient,
      D.Handle, D.Respond, D.IsCall, D.Admit, D.Commit, D.SignReceipt, D.RefundResponse, InjectReceipt, G.Judge,
      VerifyBundle, G.MakePermit, AttachPermit, G.Accepted, SplitResponse;
    var it := w.calls[k];
    var g, now, ids := GatewayOf(c, it), w.now / 1_000_000, around.ids;
    var consume := ConsumeFor(w, it);
    C.PreparedPermit(w.tables, g, it.message, it.context, consume, ids, now);
    TimeToLive(g, c.destination);
    var permit := PermitOf(c, w, k, ids);
    C.MadeFor(g, RequestPayload(it.message).value, it.context, G.ConsumedId(consume), ids, now);
    C.UndisturbedRefundIsAttested(g, c.destination, w.ledger, it.message, it.context, G.ConsumedId(consume), ids, now,
                                  now, minted, amount);
    var committed := D.Commit(w.ledger, D.Admitted(permit, amount), minted).0;
    var receipt := D.SignReceipt(committed, c.destination, ids.operationId, AttemptDigest(permit), true).1.value;
    C.HandledUndisturbed(c.destination, w.ledger, AttachPermit(it.message, permit), now, minted, permit, amount,
                         receipt);
    C.RefundIsACall(it.context, it.message, amount);
    C.ForwardedIsCall(it.message, permit);
    D.CallsAreHandled(c.destination, w.ledger, AttachPermit(it.message, permit), now, minted, true, true);
    HandledLedger(c.destination, w.ledger, AttachPermit(it.message, permit), now, minted, permit, amount);
    C.RefundReply(amount, ReceiptDoc(receipt));
    C.HandledLedger(c.destination, w.ledger, AttachPermit(it.message, permit), now, minted, permit, amount);
    SignedIsHeld(committed, c.destination, ids.operationId, AttemptDigest(permit));
  }

  lemma TimeToLive(g: G.Config, d: D.Config)
    requires C.Deployed(g, d)
    ensures g.ttl >= 1
  {
  }

  lemma HandledLedger(d: D.Config, ledger: D.Ledger, message: Dict, at: int, minted: D.Minted, permit: Permit,
                      amount: int)
    requires D.Admit(d, message, at) == Success(D.Admitted(permit, amount))
    requires D.Commit(ledger, D.Admitted(permit, amount), minted).1.Success?
    ensures D.Handle(d, ledger, message, at, minted, true, true).0
         == D.SignReceipt(D.Commit(ledger, D.Admitted(permit, amount), minted).0, d,
                          permit.authorization.payload.operationId, AttemptDigest(permit), true).0
  {
    hide D.Admit, D.Commit, D.SignReceipt, InjectReceipt;
  }

  lemma SignedIsHeld(ledger: D.Ledger, d: D.Config, o: string, digest: Digest)
    ensures var (signed, receipt) := D.SignReceipt(ledger, d, o, digest, true);
      receipt.Success? ==> o in signed.operations && signed.operations[o].receipt == Some(receipt.value)
  {
  }

  // What the destination does with the forwarded message, as actions of the system.
  lemma DestinationActs(c: Config, v: World, message: Dict, permit: Permit, amount: int, minted: D.Minted)
    requires D.Admit(c.destination, message, v.now / 1_000_000) == Success(D.Admitted(permit, amount))
    requires permit in v.released
    ensures var o := permit.authorization.payload.operationId;
      var committed := D.Commit(v.ledger, D.Admitted(permit, amount), minted).0;
      var signed := D.SignReceipt(committed, c.destination, o, AttemptDigest(permit), true).0;
      Next(c, Next(c, v, Commit(message, minted)), SignMaterial(o, AttemptDigest(permit), true))
      == v.(ledger := signed)
  {
    hide D.Admit, D.Commit, D.SignReceipt;
    assert Unforged(c, v.released, permit);
  }

  lemma Dispatches(c: Config, w: World, v: World, k: nat, operation: string, forwarded: Dict, tables: Tables)
    requires Begun(w, v, k, operation, Reserved(forwarded), 0, tables) && operation in tables.operations
    ensures tables.operations[operation].bundle.permit in Next(c, v, Send(k)).released
    ensures Next(c, v, Send(k)).now == v.now
  {
  }

  lemma PreparingKeepsTime(c: Config, w: World, k: nat, ids: G.Ids)
    requires Known(c, w, k)
    ensures Next(c, w, Prepare(k, ids, true)).now == w.now
  {
    hide G.Prepare;
  }

  lemma ReplyIsAuthentic(c: Config, ledger: D.Ledger, reply: Dict, o: string, receipt: SignedReceipt)
    requires SplitResponse(reply).Success? && SplitResponse(reply).value.1 == ReceiptDoc(receipt)
    requires o in ledger.operations && ledger.operations[o].receipt == Some(receipt)
    ensures AuthenticReply(c, ledger, reply)
  {
    hide SplitResponse;
  }

  lemma AnsweredMeansTaken(c: Config, w: World, k: nat, around: P.Surroundings, amount: int, minted: D.Minted)
    requires Undisturbed(c, w, k, around, amount)
    requires RequestPayload(w.calls[k].message).Success? && ValidateClient(w.calls[k].message).Success?
    requires var permit := PermitOf(c, w, k, around.ids);
      var answer := D.Respond(c.destination, w.ledger, AttachPermit(w.calls[k].message, permit), w.now / 1_000_000,
                              minted, true, true).1;
      answer.Reply? && around.upstream == P.Replies(answer.message)
    ensures var it := w.calls[k]; var g := GatewayOf(c, it);
      var u := G.Prepare(w.tables, g, it.message, it.context, ConsumeFor(w, it), around.ids, around.now).0;
      var (taken, response) := P.Taken(u, g, around.ids.operationId, around);
      && response == around.enforced
      && around.ids.operationId in taken.operations
      && taken.operations[around.ids.operationId].bundle.receipt.Some?
  {
    hide C.Deployed, D.ValidLedger, G.Prepare, C.IsRefund, HasConflict, EventIdUsed, RequestPayload, ValidateClient,
      D.Respond, P.Taken, AttachPermit, G.MakePermit;
    var it := w.calls[k];
    var g, consume := GatewayOf(c, it), ConsumeFor(w, it);
    C.PreparedPermit(w.tables, g, it.message, it.context, consume, around.ids, around.now);
    TimeToLive(g, c.destination);
    O.UndisturbedRefundIsAnswered(w.tables, g, c.destination, w.ledger, it.message, it.context, consume, around,
                                  around.now, minted, amount);
  }

  // From every state in which the call can go ahead, the system has a run in which it is answered, the
  // refund stands in the ledger with its amount, and its receipt in the tables.
  lemma UndisturbedRefundCompletes(c: Config, w: World, k: nat, around: P.Surroundings, amount: int, minted: D.Minted)
    returns (actions: seq<Action>)
    requires Undisturbed(c, w, k, around, amount)
    requires RequestPayload(w.calls[k].message).Success? && ValidateClient(w.calls[k].message).Success?
    requires var permit := PermitOf(c, w, k, around.ids);
      var answer := D.Respond(c.destination, w.ledger, AttachPermit(w.calls[k].message, permit), w.now / 1_000_000,
                              minted, true, true).1;
      answer.Reply? && around.upstream == P.Replies(answer.message)
    ensures var v := Run(c, w, actions); var o := around.ids.operationId;
      && k in v.calls && v.calls[k].pc == Done(Normal(around.enforced.value))
      && v.calls[k].sends == w.calls[k].sends + 1
      && o in v.ledger.refunds && v.ledger.refunds[o] == amount
      && o in v.tables.operations && v.tables.operations[o].bundle.receipt.Some?
  {
    hide Run, Next, G.Prepare, D.Respond, D.Admit, D.Commit, D.SignReceipt, P.Taken, AttachPermit, G.MakePermit,
      RequestPayload, ValidateClient, C.Deployed, D.ValidLedger, C.IsRefund, HasConflict, EventIdUsed, AuthenticReply,
      SplitResponse, D.RefundResponse, Reply;
    var it, o := w.calls[k], around.ids.operationId;
    var permit := PermitOf(c, w, k, around.ids);
    DestinationReplies(c, w, k, around, amount, minted);
    AnsweredMeansTaken(c, w, k, around, amount, minted);
    C.MadeFor(GatewayOf(c, it), RequestPayload(it.message).value, it.context, G.ConsumedId(ConsumeFor(w, it)),
              around.ids, around.now);
    var u := G.Prepare(w.tables, GatewayOf(c, it), it.message, it.context, ConsumeFor(w, it), around.ids,
                       around.now).0;
    var forwarded := AttachPermit(it.message, permit);
    Reserves(c, w, k, around.ids);
    PreparingKeepsTime(c, w, k, around.ids);
    var v := Next(c, w, Prepare(k, around.ids, true));
    Sends(c, w, v, k, o, forwarded, u);
    Dispatches(c, w, v, k, o, forwarded, u);
    var x := Next(c, v, Send(k));
    DestinationActs(c, x, forwarded, permit, amount, minted);
    var y := Next(c, Next(c, x, Commit(forwarded, minted)), SignMaterial(o, AttemptDigest(permit), true));
    var committed := D.Commit(w.ledger, D.Admitted(permit, amount), minted).0;
    var receipt := D.SignReceipt(committed, c.destination, o, AttemptDigest(permit), true).1.value;
    ReplyIsAuthentic(c, y.ledger, around.upstream.reply, o, receipt);
    var more := TakesIn(c, y, k, around);
    actions := Path(c, w, k, around.ids, forwarded, minted, o, AttemptDigest(permit), more);
  }

  lemma Path(c: Config, w: World, k: nat, ids: G.Ids, forwarded: Dict, minted: D.Minted, o: string, digest: Digest,
             more: seq<Action>) returns (actions: seq<Action>)
    ensures Run(c, w, actions)
         == Run(c, Next(c, Next(c, Next(c, Next(c, w, Prepare(k, ids, true)), Send(k)), Commit(forwarded, minted)),
                        SignMaterial(o, digest, true)), more)
  {
    hide Run, Next;
    RunNothing(c, w);
    RunMore(c, w, [], Prepare(k, ids, true));
    actions := [] + [Prepare(k, ids, true)];
    RunMore(c, w, actions, Send(k));
    actions := actions + [Send(k)];
    RunMore(c, w, actions, Commit(forwarded, minted));
    actions := actions + [Commit(forwarded, minted)];
    RunMore(c, w, actions, SignMaterial(o, digest, true));
    actions := actions + [SignMaterial(o, digest, true)];
    RunAppended(c, w, actions, more);
    actions := actions + more;
  }
}
