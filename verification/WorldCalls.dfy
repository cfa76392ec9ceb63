// The calls of the transition system are the calls of the pipeline: what the method does in one go, the
// system does action by action, whatever fails on the way.
module WorldCalls {
  import opened Wrappers
  import opened Documents
  import opened Protocol
  import opened Store
  import opened World
  import A = Approvals
  import D = Destination
  import G = Runtime
  import P = Pipeline
  import S = StoreSafety
  import T = TextOrder

  lemma RunMore(c: Config, w: World, actions: seq<Action>, a: Action)
    ensures Run(c, w, actions + [a]) == Next(c, Run(c, w, actions), a)
  {
    assert (actions + [a])[..|actions|] == actions;
  }

  lemma RunNothing(c: Config, w: World)
    ensures Run(c, w, []) == w
  {
  }

  // `v` is `w` after call `k` has come to `pc` with these tables; nothing else of it has changed.
  predicate Came(w: World, v: World, k: nat, pc: Pc, tables: Tables) {
    && k in w.calls && v.calls == w.calls[k := w.calls[k].(pc := pc)] && v.tables == tables
    && v.ledger == w.ledger && v.now == w.now
  }

  lemma CameOn(w: World, v: World, x: World, k: nat, pc: Pc, tables: Tables, pc': Pc, tables': Tables)
    requires Came(w, v, k, pc, tables) && Came(v, x, k, pc', tables')
    ensures Came(w, x, k, pc', tables')
  {
    assert w.calls[k := w.calls[k].(pc := pc)][k := w.calls[k].(pc := pc')] == w.calls[k := w.calls[k].(pc := pc')];
  }

  // -------- Taking a reply in --------

  lemma Reads(c: Config, w: World, k: nat, reply: Dict)
    requires Known(c, w, k) && w.calls[k].pc == InFlight && w.calls[k].operation.Some?
    requires AuthenticReply(c, w.ledger, reply)
    ensures var it := w.calls[k];
      var bundle := Get(w.tables, it.operation.value, GatewayOf(c, it).tenant);
      var judged := if bundle.Failure? then Failure(bundle.error)
                    else G.Judge(GatewayOf(c, it), bundle.value.permit, reply);
      Came(w, Run(c, w, [Receive(k, reply)] + [ReadBundle(k)]), k,
           if judged.Failure? then Failing else Judged(judged.value), w.tables)
  {
    hide Run, Get, G.Judge, AuthenticReply;
    RunNothing(c, w);
    RunMore(c, w, [], Receive(k, reply));
    assert [] + [Receive(k, reply)] == [Receive(k, reply)];
    RunMore(c, w, [Receive(k, reply)], ReadBundle(k));
    var v := Next(c, w, Receive(k, reply));
    assert Came(w, v, k, Answered(reply), w.tables);
    var pc := Next(c, v, ReadBundle(k)).calls[k].pc;
    assert Came(v, Next(c, v, ReadBundle(k)), k, pc, w.tables);
    CameOn(w, v, Next(c, v, ReadBundle(k)), k, Answered(reply), w.tables, pc, w.tables);
  }

  lemma Observes(c: Config, w: World, k: nat, reply: Dict, nonce: string, eventId: string, conflictId: string)
    returns (actions: seq<Action>)
    requires Known(c, w, k) && w.calls[k].pc == InFlight && w.calls[k].operation.Some?
    requires AuthenticReply(c, w.ledger, reply)
    ensures var it := w.calls[k];
      var (u, clean) := G.Observe(w.tables, GatewayOf(c, it), it.operation.value, reply, nonce, eventId, conflictId);
      Came(w, Run(c, w, actions), k, if clean.Failure? then Failing else Observed(clean.value), u)
  {
    hide Run, Get, G.Judge, AuthenticReply, G.ObserveWrite, SplitResponse;
    Reads(c, w, k, reply);
    actions := [Receive(k, reply)] + [ReadBundle(k)];
    JudgingNeedsSplitting(c, w, k, reply);
    var v := Run(c, w, actions);
    if v.calls[k].pc.Judged? {
      var write := WriteVerdict(k, nonce, eventId, conflictId);
      RunMore(c, w, actions, write);
      actions := actions + [write];
      Writes(c, v, k, nonce, eventId, conflictId);
      var x := Next(c, v, write);
      CameOn(w, v, x, k, v.calls[k].pc, v.tables, x.calls[k].pc, x.tables);
    }
  }

  lemma JudgingNeedsSplitting(c: Config, w: World, k: nat, reply: Dict)
    requires Known(c, w, k)
    ensures forall permit :: SplitResponse(reply).Failure? ==> G.Judge(GatewayOf(c, w.calls[k]), permit, reply).Failure?
  {
  }

  lemma Writes(c: Config, v: World, k: nat, nonce: string, eventId: string, conflictId: string)
    requires Known(c, v, k) && v.calls[k].pc.Judged? && v.calls[k].operation.Some?
    ensures var it := v.calls[k];
      var (u, clean) := G.ObserveWrite(v.tables, GatewayOf(c, it), it.operation.value, it.pc.judgement, nonce, eventId,
                                       conflictId);
      Came(v, Next(c, v, WriteVerdict(k, nonce, eventId, conflictId)), k,
           if clean.Failure? then Failing else Observed(clean.value), u)
  {
    hide G.ObserveWrite;
  }

  lemma Raises(c: Config, w: World, k: nat)
    requires k in w.calls && InProgress(w.calls[k].pc)
    ensures Came(w, Next(c, w, Raise(k)), k, Failing, w.tables)
  {
  }

  lemma Responds(c: Config, w: World, k: nat, response: Dict, eventId: string, conflictId: string)
    requires Known(c, w, k) && w.calls[k].pc.Observed? && w.calls[k].operation.Some?
    ensures var it := w.calls[k];
      var (u, r) := Record(w.tables, it.operation.value, GatewayOf(c, it).tenant, ClientResponsePrepared, None, eventId,
                           conflictId);
      Came(w, Next(c, w, Respond(k, response, eventId, conflictId)), k,
           if r.Failure? then Failing else Ready(response), u)
  {
    hide Record;
  }

  lemma Finishes(c: Config, w: World, k: nat)
    requires k in w.calls && w.calls[k].pc.Ready?
    ensures Came(w, Next(c, w, Finish(k)), k, Done(Normal(w.calls[k].pc.response)), w.tables)
  {
  }

  lemma Recovers(c: Config, w: World, k: nat, stored: bool, eventId: string, conflictId: string)
    requires Known(c, w, k) && w.calls[k].pc == Failing && w.calls[k].operation.Some?
    ensures var it := w.calls[k]; var o := it.operation.value;
      Came(w, Next(c, w, Recover(k, stored, eventId, conflictId)), k, Done(Unknown(o)),
           if stored then Record(w.tables, o, GatewayOf(c, it).tenant, OutcomeUnavailable, None, eventId, conflictId).0
           else w.tables)
  {
    hide Record;
  }

  // From the dispatch on: the call comes to the answer the pipeline prepares, or fails where it does.
  lemma TakesIn(c: Config, w: World, k: nat, around: P.Surroundings) returns (actions: seq<Action>)
    requires Known(c, w, k) && w.calls[k].pc == InFlight && w.calls[k].operation.Some?
    requires around.upstream.Replies? ==> AuthenticReply(c, w.ledger, around.upstream.reply)
    ensures var it := w.calls[k];
      var (u, r) := P.Taken(w.tables, GatewayOf(c, it), it.operation.value, around);
      Came(w, Run(c, w, actions), k, if r.Some? then Done(Normal(r.value)) else Failing, u)
  {
    hide Run, Next, G.Observe, AuthenticReply, Record;
    if !around.upstream.Replies? {
      actions := [] + [Raise(k)];
      RunNothing(c, w);
      RunMore(c, w, [], Raise(k));
      Raises(c, w, k);
    } else {
      actions := Observes(c, w, k, around.upstream.reply, around.nonce, around.observed.0, around.observed.1);
      var v := Run(c, w, actions);
      if v.calls[k].pc.Observed? {
        var more := Prepares(c, v, k, around);
        RunAppended(c, w, actions, more);
        actions := actions + more;
        var x := Run(c, v, more);
        CameOn(w, v, x, k, v.calls[k].pc, v.tables, x.calls[k].pc, x.tables);
      }
    }
  }

  // What is left after the observation: output enforcement, the event, and the outbox.
  lemma Prepares(c: Config, v: World, k: nat, around: P.Surroundings) returns (actions: seq<Action>)
    requires Known(c, v, k) && v.calls[k].pc.Observed? && v.calls[k].operation.Some?
    ensures var it := v.calls[k];
      var (u, prepared) := Record(v.tables, it.operation.value, GatewayOf(c, it).tenant, ClientResponsePrepared, None,
                                  around.prepared.0, around.prepared.1);
      if around.enforced.None? then Came(v, Run(c, v, actions), k, Failing, v.tables)
      else Came(v, Run(c, v, actions), k,
                if prepared.Failure? || !around.flushed then Failing else Done(Normal(around.enforced.value)), u)
  {
    hide Run, Next, Record;
    RunNothing(c, v);
    if around.enforced.None? {
      actions := [] + [Raise(k)];
      RunMore(c, v, [], Raise(k));
      Raises(c, v, k);
    } else {
      var respond := Respond(k, around.enforced.value, around.prepared.0, around.prepared.1);
      actions := [] + [respond];
      RunMore(c, v, [], respond);
      Responds(c, v, k, around.enforced.value, around.prepared.0, around.prepared.1);
      var x := Run(c, v, actions);
      if x.calls[k].pc.Ready? {
        var last := if around.flushed then Finish(k) else Raise(k);
        RunMore(c, v, actions, last);
        actions := actions + [last];
        if around.flushed { Finishes(c, x, k); } else { Raises(c, x, k); }
        CameOn(v, x, Next(c, x, last), k, x.calls[k].pc, x.tables, Next(c, x, last).calls[k].pc, x.tables);
      }
    }
  }

  lemma {:induction false} RunAppended(c: Config, w: World, front: seq<Action>, back: seq<Action>)
    ensures Run(c, w, front + back) == Run(c, Run(c, w, front), back)
  {
    hide Next;
    if back == [] {
      assert front + [] == front;
    } else {
      var n := |back| - 1;
      RunAppended(c, w, front, back[..n]);
      assert front + back == front + back[..n] + [back[n]];
      RunMore(c, w, front + back[..n], back[n]);
    }
  }

  // -------- A whole call --------

  // What the system holds of a call that has come to its end like the pipeline's.
  predicate Ended(w: World, v: World, k: nat, outcome: Outcome, sends: nat, tables: Tables) {
    && k in w.calls && k in v.calls && v.calls[k].pc == Done(outcome) && v.calls[k].sends == w.calls[k].sends + sends
    && v.tables == tables && v.ledger == w.ledger
    && forall j | j in w.calls && j != k :: j in v.calls && v.calls[j] == w.calls[j]
  }

  predicate Begun(w: World, v: World, k: nat, operation: string, pc: Pc, sends: nat, tables: Tables) {
    && k in w.calls && k in v.calls && v.calls.Keys == w.calls.Keys
    && v.calls[k].pc == pc && v.calls[k].operation == Some(operation)
    && v.calls[k].sends == w.calls[k].sends + sends && v.calls[k].context == w.calls[k].context
    && v.tables == tables && v.ledger == w.ledger
    && forall j | j in w.calls && j != k :: v.calls[j] == w.calls[j]
  }

  lemma EndsFrom(c: Config, w: World, v: World, k: nat, operation: string, sends: nat, tables: Tables, x: World,
                 outcome: Outcome, tables': Tables)
    requires k in v.calls && Begun(w, v, k, operation, v.calls[k].pc, sends, tables)
    requires Came(v, x, k, Done(outcome), tables')
    ensures Ended(w, x, k, outcome, sends, tables')
  {
  }

  lemma Fails(c: Config, w: World, v: World, k: nat, operation: string, sends: nat, tables: Tables, x: World,
              tables': Tables, around: P.Surroundings)
    requires Known(c, w, k) && k in v.calls && Begun(w, v, k, operation, v.calls[k].pc, sends, tables)
    requires Came(v, x, k, Failing, tables')
    ensures var recover := Recover(k, around.recoverable, around.recovered.0, around.recovered.1);
      Ended(w, Next(c, x, recover), k, Unknown(operation), sends,
            if around.recoverable then
              Record(tables', operation, GatewayOf(c, w.calls[k]).tenant, OutcomeUnavailable, None,
                     around.recovered.0, around.recovered.1).0
            else tables')
  {
    hide Record, Next;
    Recovers(c, x, k, around.recoverable, around.recovered.0, around.recovered.1);
    var y := Next(c, x, Recover(k, around.recoverable, around.recovered.0, around.recovered.1));
    CameOn(v, x, y, k, Failing, tables', y.calls[k].pc, y.tables);
    EndsFrom(c, w, v, k, operation, sends, tables, y, Unknown(operation), y.tables);
  }

  lemma Reserves(c: Config, w: World, k: nat, ids: G.Ids)
    requires Known(c, w, k) && w.calls[k].pc == Started && w.calls[k].operation.None?
    requires ids.operationId !in w.tables.operations
    ensures var it := w.calls[k];
      var (u, p) := G.Prepare(w.tables, GatewayOf(c, it), it.message, it.context, ConsumeFor(w, it), ids,
                              w.now / 1_000_000);
      var v := Next(c, w, Prepare(k, ids, true));
      match p
      case Failure(Refused(_)) => Ended(w, v, k, NotDispatched, 0, w.tables)
      case Failure(AlreadyReserved(previous)) => Ended(w, v, k, AlreadyReserved(previous), 0, w.tables)
      case Success((operation, forwarded)) => Begun(w, v, k, operation, Reserved(forwarded), 0, u)
  {
    hide G.Prepare;
  }

  lemma Sends(c: Config, w: World, v: World, k: nat, operation: string, forwarded: Dict, tables: Tables)
    requires Begun(w, v, k, operation, Reserved(forwarded), 0, tables) && operation in tables.operations
    ensures Begun(w, Next(c, v, Send(k)), k, operation, InFlight, 1, tables)
  {
  }

  lemma ReservedIsThere(t: Tables, g: G.Config, message: Dict, context: A.RequestContext,
                        consume: Option<ConsumeRequest>, ids: G.Ids, now: int)
    ensures var (u, p) := G.Prepare(t, g, message, context, consume, ids, now);
      && (p.Success? ==> p.value.0 in u.operations)
      && (p.Failure? ==> u == t)
  {
    hide G.ScopeOf, Reserve, ValidateClient, RequestPayload;
    var draft := G.Draft(g, message, context, G.ConsumedId(consume), ids, now);
    if draft.Success? {
      S.ReserveShape(t, Bundle(draft.value.0, None), draft.value.1, draft.value.2, consume, ids.eventId);
    }
  }

  // Every call of the pipeline is a run of the system, with the same tables, outcome and dispatches,
  // in which no other call and no ledger row is touched.
  lemma CallIsARun(c: Config, w: World, k: nat, around: P.Surroundings) returns (actions: seq<Action>)
    requires Known(c, w, k) && w.calls[k].pc == Started && w.calls[k].operation.None?
    requires around.ids.operationId !in w.tables.operations && around.now == w.now / 1_000_000
    requires around.upstream.Replies? ==> AuthenticReply(c, w.ledger, around.upstream.reply)
    ensures var it := w.calls[k];
      var (u, outcome, sends) := P.Sent(w.tables, GatewayOf(c, it), it.message, it.context, ConsumeFor(w, it), around);
      Ended(w, Run(c, w, actions), k, outcome, sends, u)
  {
    hide Run, Next, G.Prepare, AuthenticReply, Record, P.Taken, Begun, Came, Ended;
    var it := w.calls[k];
    var g := GatewayOf(c, it);
    var (u, p) := G.Prepare(w.tables, g, it.message, it.context, ConsumeFor(w, it), around.ids, around.now);
    ReservedIsThere(w.tables, g, it.message, it.context, ConsumeFor(w, it), around.ids, around.now);
    Reserves(c, w, k, around.ids);
    RunNothing(c, w);
    var prepare := Prepare(k, around.ids, true);
    RunMore(c, w, [], prepare);
    actions := [] + [prepare];
    if p.Success? {
      actions := GoesOn(c, w, k, around, Run(c, w, actions), actions, p.value.0, p.value.1, u);
    }
  }

  // The rest of a call that has been reserved.
  lemma GoesOn(c: Config, w: World, k: nat, around: P.Surroundings, v: World, before: seq<Action>, operation: string,
               forwarded: Dict, tables: Tables) returns (actions: seq<Action>)
    requires Known(c, w, k) && v == Run(c, w, before)
    requires Begun(w, v, k, operation, Reserved(forwarded), 0, tables) && operation in tables.operations
    requires around.upstream.Replies? ==> AuthenticReply(c, w.ledger, around.upstream.reply)
    ensures var g := GatewayOf(c, w.calls[k]);
      var (taken, response) := if around.logged then P.Taken(tables, g, operation, around) else (tables, None);
      var sends := if around.logged then 1 else 0;
      if response.Some? then Ended(w, Run(c, w, actions), k, Normal(response.value), sends, taken)
      else Ended(w, Run(c, w, actions), k, Unknown(operation), sends,
                 if around.recoverable then
                   Record(taken, operation, g.tenant, OutcomeUnavailable, None, around.recovered.0,
                          around.recovered.1).0
                 else taken)
  {
    hide Run, Next, AuthenticReply, Record, P.Taken;
    var recover := Recover(k, around.recoverable, around.recovered.0, around.recovered.1);
    if !around.logged {
      RunMore(c, w, before, Raise(k));
      Raises(c, v, k);
      actions := before + [Raise(k)];
      var x := Next(c, v, Raise(k));
      Fails(c, w, v, k, operation, 0, tables, x, tables, around);
      RunMore(c, w, actions, recover);
      actions := actions + [recover];
    } else {
      Sends(c, w, v, k, operation, forwarded, tables);
      RunMore(c, w, before, Send(k));
      var x := Next(c, v, Send(k));
      var more := TakesIn(c, x, k, around);
      RunAppended(c, w, before + [Send(k)], more);
      actions := before + [Send(k)] + more;
      var y := Run(c, x, more);
      var (taken, response) := P.Taken(tables, GatewayOf(c, w.calls[k]), operation, around);
      if response.Some? {
        EndsFrom(c, w, x, k, operation, 1, tables, y, Normal(response.value), taken);
      } else {
        Fails(c, w, x, k, operation, 1, tables, y, taken, around);
        RunMore(c, w, actions, recover);
        actions := actions + [recover];
      }
    }
  }

  // -------- Reconciliations and plain calls --------

  // Reading the permit, asking and recording is what `reconcile` does in one go; a call that is not
  // readable is not asked about.
  lemma ReconcilesInTwo(c: Config, w: World, l: nat, server: string, operation: string, answer: Option<Dict>,
                        eventId: string, conflictId: string)
    requires l !in w.lookups && server in c.servers && AuthenticLookup(c, w.ledger, answer)
    ensures var g := c.servers[server];
      Next(c, Next(c, w, StartLookup(l, server, operation)), FinishLookup(l, answer, eventId, conflictId)).tables
      == G.ReconcileAtOnce(w.tables, g, operation, answer, eventId, conflictId).0
  {
    hide Get, G.ReconcileWrite, AuthenticLookup;
  }

  // A plain call consumes its approval, if it can, and then sends once.
  lemma PlainCallInTwo(c: Config, w: World, p: nat, id: string, context: A.RequestContext, policyId: string)
    requires p !in w.plains && context.server !in c.servers
    ensures var (approvals, consumed) := A.ConsumeBook(w.tables.approvals, id, context, policyId, w.now);
      var v := Next(c, Next(c, w, PlainConsume(p, id, context, policyId)), PlainSend(p));
      if consumed then v == w.(tables := w.tables.(approvals := approvals), plains := w.plains[p := Plain(id, 1)])
      else v == w
  {
    hide A.ConsumeBook;
    assert w.plains[p := Plain(id, 0)][p := Plain(id, 1)] == w.plains[p := Plain(id, 1)];
  }

  // A call that has not ended can vanish, and time can pass; neither touches anything else.
  lemma CrashAndTime(c: Config, w: World, k: nat, later: T.Moment)
    requires k in w.calls && !w.calls[k].pc.Done? && later >= w.now
    ensures Came(w, Next(c, w, Crash(k)), k, Done(Vanished), w.tables)
    ensures Next(c, w, Tick(later)) == w.(now := later)
  {
  }

  // Reviewers, the outbox and observers act on the tables by their own transactions, and on nothing else.
  lemma BystandersTransact(c: Config, w: World, command: A.Command, batch: set<nat>, operation: string, tenant: string,
                           document: SignedObservation, eventId: string)
    requires !command.Consume? && (command.SetStatus? ==> command.status != A.Consumed)
    ensures Next(c, w, Approve(command)) == w.(tables := S.Next(w.tables, S.DoApproval(command)))
    ensures Next(c, w, Deliver(batch)) == w.(tables := S.Next(w.tables, S.DoDeliver(batch)))
    ensures Next(c, w, Report(operation, tenant, document, eventId))
         == w.(tables := S.Next(w.tables, S.DoAppend(operation, tenant, document, eventId)))
  {
    hide A.After, AppendObservation, DoPrepare, DoReadBundle, DoWriteVerdict, DoRespond, DoRecover, D.Admit, D.Commit,
      D.SignReceipt, G.ReconcileWrite, A.ConsumeBook, Get, Unforged, AuthenticReply, AuthenticLookup, Opened;
  }
}
