// What was approved is what is dispatched, over every run of the whole system.
module WorldRequests {
  import opened Wrappers
  import opened Documents
  import opened Protocol
  import opened Store
  import opened TextOrder
  import opened World
  import opened WorldSafety
  import opened WorldSteps
  import opened WorldRefinement
  import A = Approvals
  import B = RequestBinding
  import R = Review
  import S = StoreSafety

  lemma {:induction false} RunsJoin(c: Config, w: World, before: seq<Action>, after: seq<Action>)
    ensures Run(c, w, before + after) == Run(c, Run(c, w, before), after)
  {
    hide Next;
    if after == [] {
      assert before + after == before;
    } else {
      var n := |before + after|;
      assert (before + after)[..n - 1] == before + after[..|after| - 1];
      RunsJoin(c, w, before, after[..|after| - 1]);
    }
  }

  // `actions[i]` asks for an approval of the request `message`, under a new id.
  ghost predicate Asks(c: Config, actions: seq<Action>, i: nat, configured: B.Configured, message: Dict,
                       identity: A.Identity, policyId: string, id: string, at: Moment, ttl: nat) {
    && i < |actions| && B.ContextForMessage(configured, message, identity).Some?
    && actions[i] == Approve(A.Create(B.ContextForMessage(configured, message, identity).value, policyId, id, at, ttl))
    && id !in Run(c, START, actions[..i]).tables.approvals
  }

  lemma AskedRecord(c: Config, actions: seq<Action>, i: nat, configured: B.Configured, message: Dict,
                    identity: A.Identity, policyId: string, id: string, at: Moment, ttl: nat)
    requires Paired(c) && Asks(c, actions, i, configured, message, identity, policyId, id, at, ttl)
    ensures var b := Run(c, START, actions).tables.approvals;
      var context := B.ContextForMessage(configured, message, identity).value;
      id in b && R.Descends(A.NewRequest(context, policyId, id, at, ttl), b[id])
  {
    hide Run, S.ValidTables, B.ContextForMessage, R.Descends;
    var before, rest := actions[..i + 1], actions[i + 1..];
    assert before + rest == actions;
    RunsJoin(c, START, before, rest);
    SystemAdvances(c, before, rest);
    Created(c, actions, i, configured, message, identity, policyId, id, at, ttl);
    assert S.Advances(Run(c, START, before).tables, Run(c, START, actions).tables);
  }

  lemma Created(c: Config, actions: seq<Action>, i: nat, configured: B.Configured, message: Dict,
                identity: A.Identity, policyId: string, id: string, at: Moment, ttl: nat)
    requires Asks(c, actions, i, configured, message, identity, policyId, id, at, ttl)
    ensures var b := Run(c, START, actions[..i + 1]).tables.approvals;
      var context := B.ContextForMessage(configured, message, identity).value;
      id in b && b[id] == A.NewRequest(context, policyId, id, at, ttl)
  {
    hide B.ContextForMessage;
    assert actions[..i + 1][..i] == actions[..i] && actions[..i + 1][i] == actions[i];
  }

  lemma MatchingContexts(context: A.RequestContext, policyId: string, id: string, at: Moment, ttl: nat, a: A.Approval,
                         other: A.RequestContext)
    requires R.Descends(A.NewRequest(context, policyId, id, at, ttl), a) && A.Matches(a, other)
    ensures context == other
  {
    B.SameFieldsSameContext(context, other);
  }

  lemma GrantedFacts(c: Config, w: World, k: nat)
    requires Inv(c, w) && k in w.calls && w.calls[k].granted.Some?
    ensures var it := w.calls[k];
      && it.operation.Some? && it.operation.value in w.tables.operations
      && Framed(it) && Carries(w.tables.operations[it.operation.value].bundle.permit, it)
      && it.granted.value in w.tables.approvals && A.Matches(w.tables.approvals[it.granted.value], it.context)
  {
    hide GatewayInv, LedgerInv, Framed, Carries;
    OkOf(c, w, k);
    assert GrantOk(c.servers.Keys, w.tables.approvals, w.calls[k]);
  }

  // A call that went ahead on an approval is, without its approval id, the request that the
  // approval was asked for, and the permit of its operation commits to that request.
  lemma GrantedCallIsTheApprovedRequest(c: Config, actions: seq<Action>, i: nat, configured: B.Configured,
                                        message: Dict, identity: A.Identity, policyId: string, id: string, at: Moment,
                                        ttl: nat, k: nat)
    requires Paired(c) && Asks(c, actions, i, configured, message, identity, policyId, id, at, ttl)
    requires var w := Run(c, START, actions); k in w.calls && w.calls[k].granted == Some(id)
    ensures var w := Run(c, START, actions); var it := w.calls[k];
      && B.SameRequest(configured, message, identity, it.configured, it.raw, it.context.identity)
      && it.message == B.StripApprovalId(it.raw) && B.ExtractApprovalId(it.message).None?
      && it.operation.Some? && it.operation.value in w.tables.operations
      && var auth := w.tables.operations[it.operation.value].bundle.permit.authorization.payload;
      && auth.approvalId == Some(id)
      && RequestPayload(B.StripApprovalId(message)).Success?
      && auth.requestDigest == RequestDigest(RequestPayload(B.StripApprovalId(message)).value, auth.requestNonce)
  {
    hide Run, Asks, Inv, B.ContextForMessage, R.Descends, A.Matches, B.BoundParams, B.StripApprovalId,
      B.ExtractApprovalId, RequestPayload;
    var w := Run(c, START, actions);
    RunIsSafe(c, actions);
    GrantedFacts(c, w, k);
    AskedRecord(c, actions, i, configured, message, identity, policyId, id, at, ttl);
    AskedContext(c, actions, i, configured, message, identity, policyId, id, at, ttl);
    var it := w.calls[k];
    MatchingContexts(B.ContextForMessage(configured, message, identity).value, policyId, id, at, ttl,
                     w.tables.approvals[id], it.context);
    B.ContextsCoincide(configured, message, identity, it.configured, it.raw, it.context.identity);
    B.NothingLeftToExtract(it.raw);
    B.PermitCoversApprovedRequest(message, it.raw);
  }

  lemma AskedContext(c: Config, actions: seq<Action>, i: nat, configured: B.Configured, message: Dict,
                     identity: A.Identity, policyId: string, id: string, at: Moment, ttl: nat)
    requires Asks(c, actions, i, configured, message, identity, policyId, id, at, ttl)
    ensures B.ContextForMessage(configured, message, identity).Some?
  {
  }
}
