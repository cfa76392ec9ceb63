// Idempotency keys over every run of the whole system: one key, one operation, one call that made it.
module WorldIdempotency {
  import opened Wrappers
  import opened Documents
  import opened Protocol
  import opened Store
  import opened World
  import opened WorldSafety
  import opened WorldSteps
  import opened WorldRefinement
  import A = Approvals
  import B = RequestBinding
  import D = Destination
  import G = Runtime
  import I = Idempotency
  import S = StoreSafety

  // The row of a call's operation is filed under the scope of that call.
  predicate Filed(c: Config, operations: map<string, Operation>, call: Call) {
    call.operation.Some? ==>
      && call.context.server in c.servers && ValidateClient(call.message).Success?
      && call.operation.value in operations
      && operations[call.operation.value].scope
         == G.ScopeOf(GatewayOf(c, call), call.context, ValidateClient(call.message).value, call.operation.value)
  }

  predicate AllFiled(c: Config, operations: map<string, Operation>, calls: map<nat, Call>) {
    forall k | k in calls :: Filed(c, operations, calls[k])
  }

  // What a call asks for and what it has reserved do not change any more.
  predicate SameCall(x: Call, y: Call) {
    x.message == y.message && x.context == y.context && x.operation == y.operation
  }

  predicate CallsStay(before: map<nat, Call>, after: map<nat, Call>) {
    forall k | k in after :: (k in before && SameCall(before[k], after[k])) || after[k].operation.None?
  }

  lemma FiledStays(c: Config, t: Tables, u: Tables, before: map<nat, Call>, after: map<nat, Call>)
    requires AllFiled(c, t.operations, before) && CallsStay(before, after) && S.Advances(t, u)
    ensures AllFiled(c, u.operations, after)
  {
    hide ValidateClient, G.ScopeOf, S.LogExtends;
    forall k | k in after ensures Filed(c, u.operations, after[k]) {
      if after[k].operation.Some? {
        assert SameCall(before[k], after[k]) && Filed(c, t.operations, before[k]);
        assert S.RowAdvances(t.operations[after[k].operation.value], u.operations[after[k].operation.value]);
      }
    }
  }

  lemma OtherCallsStay(c: Config, w: World, a: Action)
    requires !a.Prepare?
    ensures CallsStay(w.calls, Next(c, w, a).calls)
  {
    hide Next, CallsStay;
    if a.ReadBundle? || a.WriteVerdict? || a.Respond? || a.Recover? {
      StoringCallStays(c, w, a);
    } else {
      BystandersStay(c, w, a);
    }
  }

  predicate Moves(w: World, u: World, k: nat) {
    k in w.calls && k in u.calls && u.calls == w.calls[k := u.calls[k]] && SameCall(w.calls[k], u.calls[k])
  }

  lemma OneCallMoves(w: World, u: World, k: nat)
    requires Moves(w, u, k) || u.calls == w.calls
    ensures CallsStay(w.calls, u.calls)
  {
  }

  lemma ReadMoves(c: Config, w: World, k: nat)
    requires Known(c, w, k) && w.calls[k].pc.Answered? && w.calls[k].operation.Some?
    ensures Moves(w, DoReadBundle(c, w, k), k)
  {
    hide Get, G.Judge;
  }

  lemma WriteMoves(c: Config, w: World, k: nat, nonce: string, eventId: string, conflictId: string)
    requires Known(c, w, k) && w.calls[k].pc.Judged? && w.calls[k].operation.Some?
    ensures Moves(w, DoWriteVerdict(c, w, k, nonce, eventId, conflictId), k)
  {
    hide G.ObserveWrite;
  }

  lemma RespondMoves(c: Config, w: World, k: nat, response: Dict, eventId: string, conflictId: string)
    requires Known(c, w, k) && w.calls[k].operation.Some?
    ensures Moves(w, DoRespond(c, w, k, response, eventId, conflictId), k)
  {
    hide Record;
  }

  lemma RecoverMoves(c: Config, w: World, k: nat, stored: bool, eventId: string, conflictId: string)
    requires Known(c, w, k) && w.calls[k].operation.Some?
    ensures Moves(w, DoRecover(c, w, k, stored, eventId, conflictId), k)
  {
    hide Record;
  }

  lemma StoringCallStays(c: Config, w: World, a: Action)
    requires a.ReadBundle? || a.WriteVerdict? || a.Respond? || a.Recover?
    ensures CallsStay(w.calls, Next(c, w, a).calls)
  {
    hide DoReadBundle, DoWriteVerdict, DoRespond, DoRecover, CallsStay, Moves;
    var k, u := a.call, Next(c, w, a);
    if Known(c, w, k) && w.calls[k].operation.Some? {
      match a
      case ReadBundle(_) => if w.calls[k].pc.Answered? { ReadMoves(c, w, k); }
      case WriteVerdict(_, nonce, eventId, conflictId) =>
        if w.calls[k].pc.Judged? { WriteMoves(c, w, k, nonce, eventId, conflictId); }
      case Respond(_, response, eventId, conflictId) => RespondMoves(c, w, k, response, eventId, conflictId);
      case Recover(_, stored, eventId, conflictId) => RecoverMoves(c, w, k, stored, eventId, conflictId);
    }
    OneCallMoves(w, u, k);
  }

  lemma CallActionMoves(c: Config, w: World, a: Action)
    requires a.Send? || a.Receive? || a.Finish? || a.Raise? || a.Crash?
    ensures CallsStay(w.calls, Next(c, w, a).calls)
  {
    hide AuthenticReply, CallsStay;
    OneCallMoves(w, Next(c, w, a), a.call);
  }

  lemma BystandersStay(c: Config, w: World, a: Action)
    requires !a.Prepare? && !a.ReadBundle? && !a.WriteVerdict? && !a.Respond? && !a.Recover?
    ensures CallsStay(w.calls, Next(c, w, a).calls)
  {
    hide Get, G.ReconcileWrite, AuthenticLookup, D.Admit, D.Commit, D.SignReceipt, AppendObservation,
      A.After, A.ConsumeBook, S.Next, Unforged, Opened;
    if a.Send? || a.Receive? || a.Finish? || a.Raise? || a.Crash? {
      CallActionMoves(c, w, a);
    } else if a.Begin? {
      NewcomerHasNone(a.configured, a.raw, a.identity, a.policy);
    }
  }

  lemma NewcomerHasNone(configured: B.Configured, raw: Dict, identity: A.Identity, policy: Option<string>)
    ensures var newcomer := Opened(configured, raw, identity, policy);
      newcomer.Some? ==> newcomer.value.operation.None?
  {
    hide B.ContextForMessage, B.ExtractApprovalId, B.StripApprovalId;
  }

  lemma PrepareFiles(c: Config, w: World, k: nat, ids: G.Ids, stored: bool)
    requires AllFiled(c, w.tables.operations, w.calls) && Known(c, w, k) && w.calls[k].pc.Started?
    requires S.Advances(w.tables, DoPrepare(c, w, k, ids, stored).tables)
    requires w.calls[k].operation.None?
    ensures AllFiled(c, DoPrepare(c, w, k, ids, stored).tables.operations, DoPrepare(c, w, k, ids, stored).calls)
  {
    hide ValidateClient, G.ScopeOf, G.Prepare, S.Advances, Filed;
    var u := DoPrepare(c, w, k, ids, stored);
    var it := w.calls[k];
    OthersFiled(c, w, u, k);
    PreparesItsOwn(w.tables, GatewayOf(c, it), it.message, it.context, ConsumeFor(w, it), ids, w.now / 1_000_000);
    if u.calls[k].operation.Some? {
      S.NoStep(u.tables);
      I.RowStays(w.tables, u.tables, GatewayOf(c, it), it.message, it.context, ConsumeFor(w, it), ids,
                 w.now / 1_000_000);
      NewlyFiled(c, u.tables.operations, u.calls[k]);
    } else {
      NothingFiled(c, u.tables.operations, u.calls[k]);
    }
  }

  lemma PreparesItsOwn(t: Tables, g: G.Config, message: Dict, context: A.RequestContext,
                       consume: Option<ConsumeRequest>, ids: G.Ids, now: int)
    ensures var p := G.Prepare(t, g, message, context, consume, ids, now).1;
      p.Success? ==> p.value.0 == ids.operationId
  {
    hide G.Draft, Reserve;
  }

  lemma NewlyFiled(c: Config, operations: map<string, Operation>, call: Call)
    requires call.operation.Some? && call.context.server in c.servers && ValidateClient(call.message).Success?
    requires call.operation.value in operations
    requires operations[call.operation.value].scope
      == G.ScopeOf(GatewayOf(c, call), call.context, ValidateClient(call.message).value, call.operation.value)
    ensures Filed(c, operations, call)
  {
  }

  lemma NothingFiled(c: Config, operations: map<string, Operation>, call: Call)
    requires call.operation.None?
    ensures Filed(c, operations, call)
  {
  }

  lemma OthersFiled(c: Config, w: World, u: World, k: nat)
    requires AllFiled(c, w.tables.operations, w.calls) && S.Advances(w.tables, u.tables)
    requires u.calls.Keys == w.calls.Keys && forall j | j in u.calls && j != k :: u.calls[j] == w.calls[j]
    ensures forall j | j in u.calls && j != k :: Filed(c, u.tables.operations, u.calls[j])
  {
    hide S.Advances, Filed;
    var others := map j | j in u.calls && j != k :: u.calls[j];
    FiledStays(c, w.tables, u.tables, w.calls, others);
    forall j | j in u.calls && j != k ensures Filed(c, u.tables.operations, u.calls[j]) { assert j in others; }
  }

  lemma {:induction false} CallsAreFiled(c: Config, actions: seq<Action>)
    requires Paired(c)
    ensures var w := Run(c, START, actions); AllFiled(c, w.tables.operations, w.calls)
  {
    hide Next, S.Advances, Filed, Inv, DoPrepare;
    if actions != [] {
      var front, a := actions[..|actions| - 1], actions[|actions| - 1];
      CallsAreFiled(c, front);
      var w := Run(c, START, front);
      RunIsSafe(c, front);
      StepAdvances(c, w, a);
      if a.Prepare? {
        PrepareStepFiles(c, w, a.call, a.ids, a.stored);
      } else {
        OtherCallsStay(c, w, a);
        FiledStays(c, w.tables, Next(c, w, a).tables, w.calls, Next(c, w, a).calls);
      }
    }
  }

  lemma PrepareStepFiles(c: Config, w: World, k: nat, ids: G.Ids, stored: bool)
    requires Inv(c, w) && AllFiled(c, w.tables.operations, w.calls)
    requires S.Advances(w.tables, Next(c, w, Prepare(k, ids, stored)).tables)
    ensures var u := Next(c, w, Prepare(k, ids, stored)); AllFiled(c, u.tables.operations, u.calls)
  {
    hide S.Advances, Filed, DoPrepare, GatewayInv, LedgerInv, GrantsInv;
    if Known(c, w, k) && w.calls[k].pc.Started? && ids.operationId !in w.tables.operations {
      assert CallOk(c, w.tables.operations, w.ledger, w.calls[k]);
      PrepareFiles(c, w, k, ids, stored);
    }
  }

  // Over any run, two calls that brought one key and have both reserved are one call, if they came
  // from one principal to one tool: of one server, or of two for one tenant and destination.
  lemma OneKeyOneCall(c: Config, actions: seq<Action>, j: nat, k: nat, key: string)
    requires Paired(c)
    requires var w := Run(c, START, actions);
      && j in w.calls && k in w.calls && w.calls[j].operation.Some? && w.calls[k].operation.Some?
      && w.calls[j].context.server in c.servers && w.calls[k].context.server in c.servers
      && ValidateClient(w.calls[j].message) == ValidateClient(w.calls[k].message) == Success(Some(key))
      && I.SameCaller(GatewayOf(c, w.calls[j]), w.calls[j].context, GatewayOf(c, w.calls[k]), w.calls[k].context)
    ensures j == k
  {
    hide Run, ValidateClient, GatewayInv, LedgerInv, GrantsInv;
    var w := Run(c, START, actions);
    RunIsSafe(c, actions);
    CallsAreFiled(c, actions);
    var x, y := w.calls[j], w.calls[k];
    assert Filed(c, w.tables.operations, x) && Filed(c, w.tables.operations, y);
    OneRowPerScope(c, w, x.operation.value, y.operation.value);
  }

  lemma OneRowPerScope(c: Config, w: World, o: string, p: string)
    requires Inv(c, w) && o in w.tables.operations && p in w.tables.operations
    requires w.tables.operations[o].scope == w.tables.operations[p].scope
    ensures o == p
  {
    hide LedgerInv, CallsInv, GrantsInv;
    assert S.ValidOperation(w.tables, o) && S.ValidOperation(w.tables, p);
  }
}
