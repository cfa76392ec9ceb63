// The gateway's tables in the whole system move only by the store's own transactions, so what
// holds of every run of those holds there too.
module WorldRefinement {
  import opened Wrappers
  import opened Documents
  import opened Store
  import opened World
  import opened WorldSafety
  import opened WorldSteps
  import A = Approvals
  import D = Destination
  import G = Runtime
  import S = StoreSafety

  ghost predicate Explains(t: Tables, log: seq<S.Action>, u: Tables, servers: set<string>) {
    && (forall i | 0 <= i < |log| :: S.ByGateway(log[i], servers))
    && S.Run(t, log) == u
  }

  lemma NoTransaction(t: Tables, servers: set<string>)
    ensures Explains(t, [], t, servers)
  {
  }

  lemma Continues(t: Tables, log: seq<S.Action>, u: Tables, a: S.Action, servers: set<string>)
    requires Explains(t, log, u, servers) && S.ByGateway(a, servers)
    ensures Explains(t, log + [a], S.Next(u, a), servers)
  {
    assert (log + [a])[..|log|] == log;
  }

  // The store transaction a step amounts to, when it touches the tables at all.
  lemma Transaction(c: Config, w: World, a: Action) returns (t: Option<S.Action>)
    requires CallsInv(c, w)
    ensures Moves(c, w.tables, t, Next(c, w, a).tables) && Reported(a, t)
  {
    hide Next, S.Next, Moves, CallsInv;
    if a.Prepare? || a.WriteVerdict? || a.Respond? || a.Recover? {
      t := CallTransaction(c, w, a);
    } else if a.FinishLookup? || a.Approve? || a.PlainConsume? || a.Deliver? || a.Report? {
      t := OtherTransaction(c, w, a);
    } else {
      t := None;
      Bystander(c, w, a);
    }
  }

  // Observer reports are appended by the action for it only.
  predicate Reported(a: Action, t: Option<S.Action>) {
    t.Some? && t.value.DoAppend? ==> a.Report? && a.document == t.value.document
  }

  ghost predicate Moves(c: Config, t: Tables, a: Option<S.Action>, u: Tables) {
    if a.Some? then S.ByGateway(a.value, c.servers.Keys) && u == S.Next(t, a.value) else u == t
  }

  lemma Bystander(c: Config, w: World, a: Action)
    requires !a.Prepare? && !a.WriteVerdict? && !a.Respond? && !a.Recover?
    requires !a.FinishLookup? && !a.Approve? && !a.PlainConsume? && !a.Deliver? && !a.Report?
    ensures Moves(c, w.tables, None, Next(c, w, a).tables)
  {
    hide Record, Reserve, Get, G.Judge, AuthenticReply, D.Admit, D.Commit, D.SignReceipt, AppendObservation, Opened;
  }

  lemma CallTransaction(c: Config, w: World, a: Action) returns (t: Option<S.Action>)
    requires CallsInv(c, w) && (a.Prepare? || a.WriteVerdict? || a.Respond? || a.Recover?)
    ensures Moves(c, w.tables, t, Next(c, w, a).tables) && Reported(a, t)
  {
    hide Record, Reserve, Get, G.Judge, G.Prepare, CallsInv, AppendObservation, Opened;
    t := None;
    match a
    case Prepare(k, ids, stored) =>
      if Known(c, w, k) && w.calls[k].pc.Started? && ids.operationId !in w.tables.operations {
        t := PrepareTransaction(c, w, k, ids, stored);
      }
    case WriteVerdict(k, nonce, eventId, conflictId) =>
      if Known(c, w, k) && w.calls[k].pc.Judged? && w.calls[k].operation.Some? {
        var j := w.calls[k].pc.judgement;
        ObserveWritesARecord(w.tables, GatewayOf(c, w.calls[k]), w.calls[k].operation.value, j, nonce, eventId,
                             conflictId);
        t := Some(S.DoRecord(w.calls[k].operation.value, GatewayOf(c, w.calls[k]).tenant,
               ResponseObserved(j.verdict, ResponseDigest(j.payload, nonce)), G.Accepted(j), eventId, conflictId));
      }
    case Respond(k, _, eventId, conflictId) =>
      if Known(c, w, k) && w.calls[k].pc.Observed? && w.calls[k].operation.Some? {
        t := Some(S.DoRecord(w.calls[k].operation.value, GatewayOf(c, w.calls[k]).tenant,
               ClientResponsePrepared, None, eventId, conflictId));
      }
    case Recover(k, stored, eventId, conflictId) =>
      if Known(c, w, k) && w.calls[k].pc.Failing? && w.calls[k].operation.Some? && stored {
        t := Some(S.DoRecord(w.calls[k].operation.value, GatewayOf(c, w.calls[k]).tenant,
               OutcomeUnavailable, None, eventId, conflictId));
      }
  }

  lemma OtherTransaction(c: Config, w: World, a: Action) returns (t: Option<S.Action>)
    requires a.FinishLookup? || a.Approve? || a.PlainConsume? || a.Deliver? || a.Report?
    ensures Moves(c, w.tables, t, Next(c, w, a).tables) && Reported(a, t)
  {
    hide Record, Reserve, G.JudgeLookup, AuthenticLookup, AppendObservation, Opened, A.After,
      A.ConsumeBook, G.ReconcileWrite;
    t := None;
    match a
    case FinishLookup(l, answer, eventId, conflictId) =>
      if l in w.lookups && w.lookups[l].server in c.servers && AuthenticLookup(c, w.ledger, answer) {
        t := LookupTransaction(c, w, l, answer, eventId, conflictId);
      }
    case Approve(command) =>
      if !(command.Consume? || (command.SetStatus? && command.status == A.Consumed)) {
        t := Some(S.DoApproval(command));
      }
    case PlainConsume(p, id, context, policyId) => t := PlainTransaction(c, w, p, id, context, policyId);
    case Deliver(batch) => t := Some(S.DoDeliver(batch));
    case Report(o, tenant, document, eventId) => t := Some(S.DoAppend(o, tenant, document, eventId));
  }

  lemma PrepareTransaction(c: Config, w: World, k: nat, ids: G.Ids, stored: bool) returns (t: Option<S.Action>)
    requires CallsInv(c, w) && Known(c, w, k) && w.calls[k].pc.Started?
    ensures Moves(c, w.tables, t, DoPrepare(c, w, k, ids, stored).tables) && (t.Some? ==> !t.value.DoAppend?)
  {
    var it := w.calls[k];
    var now := w.now / 1_000_000;
    t := None;
    if stored && G.Prepare(w.tables, GatewayOf(c, it), it.message, it.context, ConsumeFor(w, it), ids, now).1.Success? {
      var permit, scope, fingerprint := PreparedShape(c, w, k, ids);
      assert CallOk(c, w.tables.operations, w.ledger, it);
      t := Some(S.DoReserve(Bundle(permit, None), scope, fingerprint, ConsumeFor(w, it), ids.eventId));
    } else {
      RefusedStep(c, w, k, ids, stored);
    }
  }

  lemma LookupTransaction(c: Config, w: World, l: nat, answer: Option<Dict>, eventId: string, conflictId: string)
    returns (t: Option<S.Action>)
    requires l in w.lookups && w.lookups[l].server in c.servers
    ensures var it := w.lookups[l];
      var u := G.ReconcileWrite(w.tables, c.servers[it.server], it.operation, it.permit, answer, eventId, conflictId).0;
      Moves(c, w.tables, t, u) && (t.Some? ==> !t.value.DoAppend?)
  {
    var it := w.lookups[l];
    var judged := G.JudgeLookup(c.servers[it.server], it.permit, answer);
    ReconcileWritesARecord(w.tables, c.servers[it.server], it.operation, it.permit, answer, eventId, conflictId);
    t := if judged.Failure? then None
         else Some(S.DoRecord(it.operation, c.servers[it.server].tenant, Reconciled(judged.value.1),
                              Some(judged.value.0), eventId, conflictId));
  }

  lemma PlainTransaction(c: Config, w: World, p: nat, id: string, context: A.RequestContext, policyId: string)
    returns (t: Option<S.Action>)
    ensures var u := Next(c, w, PlainConsume(p, id, context, policyId)).tables;
      Moves(c, w.tables, t, u) && (t.Some? ==> !t.value.DoAppend?)
  {
    var consumed := A.ConsumeBook(w.tables.approvals, id, context, policyId, w.now).1;
    t := if p in w.plains || context.server in c.servers || !consumed then None
         else Some(S.DoApproval(A.Consume(id, context, policyId, w.now)));
  }

  // Every run of the whole system is, at the gateway's tables, a run of store transactions issued
  // the way the gateway issues them.
  lemma {:induction false} WorldRefinesStore(c: Config, actions: seq<Action>) returns (log: seq<S.Action>)
    requires Paired(c)
    ensures Explains(EMPTY, log, Run(c, START, actions).tables, c.servers.Keys)
    ensures forall i | 0 <= i < |log| && log[i].DoAppend? :: InReports(actions, log[i].document)
  {
    hide Next, S.Next, InReports;
    if actions == [] {
      log := [];
      NoTransaction(EMPTY, c.servers.Keys);
    } else {
      var front, last := actions[..|actions| - 1], actions[|actions| - 1];
      log := WorldRefinesStore(c, front);
      var w := Run(c, START, front);
      RunIsSafe(c, front);
      var t := Transaction(c, w, last);
      assert actions == front + [last];
      forall i | 0 <= i < |log| && log[i].DoAppend? ensures InReports(actions, log[i].document) {
        MoreReports(front, last, log[i].document);
      }
      if t.Some? {
        Continues(EMPTY, log, w.tables, t.value, c.servers.Keys);
        log := log + [t.value];
        if t.value.DoAppend? { LastReport(front, last); }
      }
    }
  }

  predicate InReports(actions: seq<Action>, document: SignedObservation) {
    exists i :: 0 <= i < |actions| && actions[i].Report? && actions[i].document == document
  }

  lemma MoreReports(actions: seq<Action>, a: Action, document: SignedObservation)
    requires InReports(actions, document)
    ensures InReports(actions + [a], document)
  {
    var i :| 0 <= i < |actions| && actions[i].Report? && actions[i].document == document;
    assert (actions + [a])[i] == actions[i];
  }

  lemma LastReport(actions: seq<Action>, a: Action)
    requires a.Report?
    ensures InReports(actions + [a], a.document)
  {
    assert (actions + [a])[|actions|] == a;
  }

  // In the whole system too, an approval of any evidence server is consumed if and only if exactly
  // one reservation carries its id.
  lemma ApprovalsAreAccountedFor(c: Config, actions: seq<Action>, id: string)
    requires Paired(c)
    ensures S.Exactly(Run(c, START, actions).tables, c.servers.Keys, id)
  {
    hide Run, Next, S.Exactly;
    var log := WorldRefinesStore(c, actions);
    forall a | a in log ensures S.ByGateway(a, c.servers.Keys) {
      var i :| 0 <= i < |log| && log[i] == a;
    }
    S.ConsumedIffReserved(log, c.servers.Keys);
  }

  lemma {:induction false} WorldContinues(c: Config, w: World, actions: seq<Action>)
    requires Paired(c) && Inv(c, w)
    ensures Inv(c, Run(c, w, actions)) && S.Advances(w.tables, Run(c, w, actions).tables)
  {
    hide Next, S.Next, Inv, S.Advances;
    if actions == [] {
      S.NoStep(w.tables);
    } else {
      var front := actions[..|actions| - 1];
      WorldContinues(c, w, front);
      StepAdvances(c, Run(c, w, front), actions[|actions| - 1]);
      S.AdvancesIsTransitive(w.tables, Run(c, w, front).tables, Run(c, w, actions).tables);
    }
  }

  lemma StepAdvances(c: Config, w: World, a: Action)
    requires Paired(c) && Inv(c, w)
    ensures Inv(c, Next(c, w, a)) && S.Advances(w.tables, Next(c, w, a).tables)
  {
    hide Next, S.Next, S.Advances;
    Step(c, w, a);
    var t := Transaction(c, w, a);
    if t.Some? { S.Step(w.tables, t.value); } else { S.NoStep(w.tables); }
  }

  // From any point of any run on, reservations stay with their scope, stored receipts change only
  // as far as pending ones may, and delivered or recorded events are never taken back.
  lemma SystemAdvances(c: Config, before: seq<Action>, after: seq<Action>)
    requires Paired(c)
    ensures S.Advances(Run(c, START, before).tables, Run(c, Run(c, START, before), after).tables)
  {
    hide Run, Next, S.Advances, Inv;
    RunIsSafe(c, before);
    WorldContinues(c, Run(c, START, before), after);
  }
}
