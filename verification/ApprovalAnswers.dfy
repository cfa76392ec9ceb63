// What an approval is good for, and what decides it: from the fields of the record and the time.
module ApprovalAnswers {
  import opened Wrappers
  import opened TextOrder
  import opened Approvals
  import R = Review

  // A record lets a request through: it is approved, its time is not over, and it was made under this
  // policy for this server, method, capability, caller, arguments and configuration.
  predicate GoodFor(a: Approval, context: RequestContext, policyId: string, now: nat) {
    && a.status == Approved
    && (a.expiresAt.None? || now < a.expiresAt.value)
    && a.policyId == policyId
    && a.server == context.server && a.rpcMethod == context.rpcMethod
    && a.capability == context.capability && a.capabilityType == context.capabilityType
    && a.subject == context.identity.subject && a.clientId == context.identity.clientId
    && a.agentId == context.identity.agentId
    && a.argumentsHash == ArgumentsHash(context.arguments) && a.binding == context.binding
  }

  // Consuming succeeds exactly then, and only marks the record.
  lemma ConsumedExactly(b: Book, id: string, context: RequestContext, policyId: string, now: nat)
    ensures ConsumeBook(b, id, context, policyId, now)
         == if id in b && GoodFor(b[id], context, policyId, now) then
              (b[id := b[id].(status := Consumed, consumedAt := Some(now))], true)
            else (b, false)
  {
  }

  // What an approval was asked for, and until when, stays with it over any run.
  lemma AskedStays(b: Book, context: RequestContext, policyId: string, id: string, at: Moment, ttl: nat,
                   between: seq<Command>)
    requires id !in b
    ensures var later := RunBook(After(b, Create(context, policyId, id, at, ttl)), between);
      && id in later && later[id].expiresAt == Some(at + ttl) && later[id].createdAt == at
      && later[id].policyId == policyId && later[id].subject == context.identity.subject
  {
    var created := After(b, Create(context, policyId, id, at, ttl));
    R.RunDescends(created, between);
    assert R.Descends(created[id], RunBook(created, between)[id]);
  }

  // From its deadline on an approval is never consumed, whatever has been done with it before.
  lemma ExpiryIsFinal(b: Book, context: RequestContext, policyId: string, id: string, at: Moment, ttl: nat,
                      between: seq<Command>, context': RequestContext, policyId': string, now: nat)
    requires id !in b && now >= at + ttl
    ensures var later := RunBook(After(b, Create(context, policyId, id, at, ttl)), between);
      && ConsumeBook(later, id, context', policyId', now) == (later, false)
      && id in later && !IsValid(later[id], context', policyId', now)
  {
    hide RunBook, After;
    AskedStays(b, context, policyId, id, at, ttl, between);
  }

  // Until then it is consumed once for its own request, if a reviewer has approved it.
  lemma ApprovedIsConsumed(b: Book, context: RequestContext, policyId: string, id: string, at: Moment, ttl: nat,
                           reviewer: Option<string>, comment: Option<string>, decided: Moment, now: Moment)
    requires id !in b && now < at + ttl
    ensures var asked := Create(context, policyId, id, at, ttl);
      var approved := SetStatus(id, Approved, reviewer, comment, decided);
      var before := After(After(b, asked), approved);
      var (after, consumed) := ConsumeBook(before, id, context, policyId, now);
      && consumed && after == before[id := before[id].(status := Consumed, consumedAt := Some(now))]
      && !ConsumeBook(after, id, context, policyId, now).1
  {
  }

  // A decision is taken exactly along the life cycle, and is stored with its time, reviewer and
  // comment; a consumption is stored with its time.
  lemma DecidedExactly(b: Book, id: string, status: Status, reviewer: Option<string>, comment: Option<string>,
                       now: nat)
    ensures SetStatusBook(b, id, status, reviewer, comment, now)
         == if id !in b then (b, Missing)
            else
              var a := b[id];
              if status == a.status then (b, Updated(a))
              else if a.status == Approved && status == Consumed then
                var updated := a.(status := Consumed, consumedAt := Some(now)); (b[id := updated], Updated(updated))
              else if (a.status == Pending && status in {Approved, Denied, Expired})
                      || (a.status == Approved && status == Expired) then
                var updated := a.(status := status, decidedAt := Some(now), decidedBy := reviewer, comment := comment);
                (b[id := updated], Updated(updated))
              else (b, InvalidTransition)
  {
    if id in b { assert b[id := b[id]] == b; }
  }

  // The reviewer's page: nobody approves a request of their own, pending requests are decided, and
  // decided ones stay decided.
  lemma PageDecidesExactly(b: Book, id: string, approve: bool, reviewer: string, comment: Option<string>, now: nat,
                           separation: bool)
    ensures var status := if approve then Approved else Denied;
      R.DecideBook(b, id, status, reviewer, comment, now, separation)
      == if id !in b then (b, R.NotFound)
         else if approve && separation && b[id].subject == reviewer then (b, R.Forbidden)
         else if b[id].status == Pending then
           var decided := b[id].(status := status, decidedAt := Some(now), decidedBy := Some(reviewer),
                                 comment := comment);
           (b[id := decided], R.Decided(decided))
         else if b[id].status == status then (b, R.Decided(b[id]))
         else (b, R.Conflict)
  {
    if id in b { assert b[id := b[id]] == b; }
  }

  // The arguments of a new request are remembered by their hash, and it starts out pending.
  lemma NewRequestSays(b: Book, context: RequestContext, policyId: string, id: string, at: Moment, ttl: nat)
    requires id !in b
    ensures After(b, Create(context, policyId, id, at, ttl))
         == b[id := Approval(id, Pending, context.server, context.rpcMethod, context.capability,
                             context.capabilityType, policyId, context.identity.subject, context.identity.clientId,
                             context.identity.agentId, context.binding, ArgumentsHash(context.arguments), at,
                             Some(at + ttl), None, None, None, None)]
  {
  }
}
