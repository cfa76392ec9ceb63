// Gateway sessions and the upstream session cache behind them (transports/http/sessions.py,
// upstream/http.py): two objects under two locks, and replies that come back late.
module Sessions {
  import opened Wrappers

  type Owner = (string, Option<string>, Option<string>)

  // A server and a gateway-made session key.
  type CacheKey = (string, string)

  datatype Session = Session(server: string, owner: Owner, touched: nat)

  datatype SessionError = UnknownSession | MustStartNewSession | CapacityReached

  function KeysOf(entries: map<string, Session>): set<CacheKey> {
    set key | key in entries :: (entries[key].server, key)
  }

  predicate Expired(s: Session, now: nat, ttl: nat) {
    now >= s.touched && now - s.touched >= ttl
  }

  function Live(entries: map<string, Session>, now: nat, ttl: nat): map<string, Session> {
    map key | key in entries && !Expired(entries[key], now, ttl) :: entries[key]
  }

  class UpstreamClient {
    var sessionIds: map<CacheKey, string>
    var activeSessions: set<CacheKey>

    constructor ()
      ensures sessionIds == map[] && activeSessions == {}
    {
      sessionIds, activeSessions := map[], {};
    }

    // What a request carries upstream, read before it is sent.
    method StartSend(server: string, key: string) returns (attached: Option<string>)
      ensures attached == if (server, key) in sessionIds then Some(sessionIds[(server, key)]) else None
    {
      attached := if (server, key) in sessionIds then Some(sessionIds[(server, key)]) else None;
    }

    // A reply may come back after the session has gone: then its id is not kept.
    method FinishSend(server: string, key: string, status: int, header: string)
      modifies this`sessionIds
      ensures sessionIds == if key != "" && status < 400 && header != "" && (server, key) in activeSessions
                            then old(sessionIds)[(server, key) := header] else old(sessionIds)
    {
      if key != "" && status < 400 && header != "" {
        if (server, key) in activeSessions {
          sessionIds := sessionIds[(server, key) := header];
        }
      }
    }

    method RegisterSession(server: string, key: string)
      modifies this`activeSessions
      ensures activeSessions == old(activeSessions) + {(server, key)}
    {
      activeSessions := activeSessions + {(server, key)};
    }

    method ForgetSession(server: string, key: string)
      modifies this
      ensures sessionIds == old(sessionIds) - {(server, key)}
      ensures activeSessions == old(activeSessions) - {(server, key)}
    {
      sessionIds := sessionIds - {(server, key)};
      activeSessions := activeSessions - {(server, key)};
    }
  }

  function OnlyFor(ids: map<CacheKey, string>, keys: set<CacheKey>): map<CacheKey, string> {
    map key | key in ids && key in keys :: ids[key]
  }

  class SessionRegistry {
    var entries: map<string, Session>
    const upstream: UpstreamClient
    const ttl: nat
    const capacity: nat

    ghost predicate Valid()
      reads this, upstream
    {
      && upstream.activeSessions == KeysOf(entries)
      && upstream.sessionIds.Keys <= upstream.activeSessions
      && |entries| <= capacity
    }

    constructor (upstream: UpstreamClient, ttl: nat, capacity: nat)
      requires upstream.activeSessions == {} && upstream.sessionIds == map[]
      ensures Valid() && entries == map[] && this.upstream == upstream && this.ttl == ttl && this.capacity == capacity
    {
      this.upstream, this.ttl, this.capacity, entries := upstream, ttl, capacity, map[];
    }

    method RemoveEntry(key: string)
      requires Valid()
      modifies this`entries, upstream
      ensures Valid() && entries == old(entries) - {key}
      ensures upstream.sessionIds == OnlyFor(old(upstream.sessionIds), KeysOf(entries))
    {
      if key in entries {
        var entry := entries[key];
        ghost var before := entries;
        RemovalOfKeys(entries, key);
        entries := entries - {key};
        upstream.ForgetSession(entry.server, key);
      } else {
        assert entries - {key} == entries;
      }
    }

    // Drops what has expired, then finds or makes the session a request belongs to.
    // `fresh` is the key a new session gets.
    method Resolve(server: string, owner: Owner, supplied: string, initialize: bool, now: nat, key: string)
      returns (r: Result<Option<string>, SessionError>)
      requires Valid() && key !in entries
      modifies this`entries, upstream
      ensures Valid()
      ensures var live := Live(old(entries), now, ttl);
        if supplied != "" then
          if supplied !in live || live[supplied].server != server || live[supplied].owner != owner then
            r == Failure(UnknownSession) && entries == live
          else if initialize then r == Failure(MustStartNewSession) && entries == live
          else r == Success(Some(supplied)) && entries == live[supplied := Session(server, owner, now)]
        else if !initialize then r == Success(None) && entries == live
        else if |live| >= capacity then r == Failure(CapacityReached) && entries == live
        else r == Success(Some(key)) && entries == live[key := Session(server, owner, now)]
      ensures upstream.sessionIds == OnlyFor(old(upstream.sessionIds), KeysOf(Live(old(entries), now, ttl)))
      ensures ttl > 0 ==> forall k | k in entries :: !Expired(entries[k], now, ttl)
      // An entry that has been idle for `ttl` is refused and gone; until then it serves its owner.
      ensures supplied != "" && supplied in old(entries) && old(entries)[supplied].touched + ttl <= now ==>
        r == Failure(UnknownSession) && supplied !in entries
      ensures supplied != "" && supplied in old(entries) && now < old(entries)[supplied].touched + ttl && !initialize
              && old(entries)[supplied].server == server && old(entries)[supplied].owner == owner ==>
        r == Success(Some(supplied)) && supplied in entries && entries[supplied] == Session(server, owner, now)
      // The other entries, and the cached upstream ids, live and go by the same rule.
      ensures forall k | k !in {supplied, key} ::
        (k in entries <==> k in old(entries) && now < old(entries)[k].touched + ttl)
        && (k in entries ==> entries[k] == old(entries)[k])
      ensures forall k :: k in upstream.sessionIds <==>
        k in old(upstream.sessionIds) && k.1 in old(entries) && now < old(entries)[k.1].touched + ttl
      ensures forall k | k in upstream.sessionIds :: upstream.sessionIds[k] == old(upstream.sessionIds)[k]
    {
      CachedIdsLive(upstream.sessionIds, entries, now, ttl);
      Expire(now);
      if supplied != "" {
        if supplied !in entries || entries[supplied].server != server || entries[supplied].owner != owner {
          return Failure(UnknownSession);
        }
        if initialize { return Failure(MustStartNewSession); }
        TouchKeepsKeys(entries, supplied, now);
        entries := entries[supplied := entries[supplied].(touched := now)];
        return Success(Some(supplied));
      }
      if !initialize { return Success(None); }
      if |entries| >= capacity { return Failure(CapacityReached); }
      NewKey(entries, key, Session(server, owner, now));
      entries := entries[key := Session(server, owner, now)];
      upstream.RegisterSession(server, key);
      r := Success(Some(key));
    }

    method Expire(now: nat)
      requires Valid()
      modifies this`entries, upstream
      ensures Valid() && entries == Live(old(entries), now, ttl)
      ensures upstream.sessionIds == OnlyFor(old(upstream.sessionIds), KeysOf(entries))
    {
      ghost var before := entries;
      var left := entries.Keys;
      OnlyForAll(upstream.sessionIds, KeysOf(entries));
      while left != {}
        invariant Valid() && left <= before.Keys
        invariant entries == map k | k in before && (k in left || !Expired(before[k], now, ttl)) :: before[k]
        invariant upstream.sessionIds == OnlyFor(old(upstream.sessionIds), KeysOf(entries))
        decreases |left|
      {
        var key :| key in left;
        if Expired(entries[key], now, ttl) {
          ghost var ids, keys := upstream.sessionIds, KeysOf(entries);
          FewerKeys(entries, key);
          RemoveEntry(key);
          OnlyForTwice(old(upstream.sessionIds), keys, KeysOf(entries));
        }
        left := left - {key};
      }
    }

    method Active(key: string) returns (active: bool)
      ensures active <==> key in entries
    {
      active := key in entries;
    }
  }

  lemma CachedIdsLive(ids: map<CacheKey, string>, entries: map<string, Session>, now: nat, ttl: nat)
    requires ids.Keys <= KeysOf(entries)
    ensures forall k :: k in OnlyFor(ids, KeysOf(Live(entries, now, ttl))) <==>
      k in ids && k.1 in entries && now < entries[k.1].touched + ttl
  {
    forall k ensures k in OnlyFor(ids, KeysOf(Live(entries, now, ttl))) <==>
                     k in ids && k.1 in entries && now < entries[k.1].touched + ttl {
      KeysMeaning(entries, k);
      KeysMeaning(Live(entries, now, ttl), k);
    }
  }

  lemma KeysMeaning(entries: map<string, Session>, k: CacheKey)
    ensures k in KeysOf(entries) <==> k.1 in entries && entries[k.1].server == k.0
  {
    if k.1 in entries && entries[k.1].server == k.0 { assert k == (entries[k.1].server, k.1); }
  }

  lemma RemovalOfKeys(entries: map<string, Session>, key: string)
    requires key in entries
    ensures KeysOf(entries - {key}) == KeysOf(entries) - {(entries[key].server, key)}
    ensures |entries - {key}| <= |entries|
  {
    assert (entries - {key}).Keys == entries.Keys - {key};
    forall k ensures k in KeysOf(entries - {key}) <==> k in KeysOf(entries) - {(entries[key].server, key)} {
      KeysMeaning(entries, k);
      KeysMeaning(entries - {key}, k);
    }
  }

  lemma FewerKeys(entries: map<string, Session>, key: string)
    ensures KeysOf(entries - {key}) <= KeysOf(entries)
  {
  }

  lemma TouchKeepsKeys(entries: map<string, Session>, key: string, now: nat)
    requires key in entries
    ensures var after := entries[key := entries[key].(touched := now)];
      KeysOf(after) == KeysOf(entries) && |after| == |entries|
  {
    var after := entries[key := entries[key].(touched := now)];
    assert after.Keys == entries.Keys;
    forall k ensures k in KeysOf(after) <==> k in KeysOf(entries) {
      KeysMeaning(entries, k);
      KeysMeaning(after, k);
    }
  }

  lemma NewKey(entries: map<string, Session>, key: string, s: Session)
    requires key !in entries
    ensures KeysOf(entries[key := s]) == KeysOf(entries) + {(s.server, key)} && |entries[key := s]| == |entries| + 1
  {
    var after := entries[key := s];
    forall k ensures k in KeysOf(after) <==> k in KeysOf(entries) + {(s.server, key)} {
      KeysMeaning(entries, k);
      KeysMeaning(after, k);
    }
  }

  lemma OnlyForAll(ids: map<CacheKey, string>, keys: set<CacheKey>)
    requires ids.Keys <= keys
    ensures OnlyFor(ids, keys) == ids
  {
  }

  lemma OnlyForTwice(ids: map<CacheKey, string>, keys: set<CacheKey>, fewer: set<CacheKey>)
    requires fewer <= keys
    ensures OnlyFor(OnlyFor(ids, keys), fewer) == OnlyFor(ids, fewer)
  {
  }

  // -------- Every interleaving of registry operations and sends --------

  // A registry operation touches its own table and then the client's, under different locks.
  datatype Pending = Idle | Forgetting(server: string, key: string) | Registering(server: string, key: string)

  // A request that has been resolved to a session, and the upstream id it went out with.
  datatype Request = Request(server: string, key: string, owner: Owner, sent: bool, attached: Option<string>)

  // `made` remembers whose session every key was made for; `issued` which ids upstream replies to
  // requests of a session brought, with the owner of the request.
  datatype State = State(entries: map<string, Session>, sessionIds: map<CacheKey, string>,
                         activeSessions: set<CacheKey>, pending: Pending, requests: map<nat, Request>,
                         made: map<string, (string, Owner)>, issued: set<(CacheKey, Owner, string)>)

  const START := State(map[], map[], {}, Idle, map[], map[], {})

  datatype Step =
    | Add(key: string, server: string, owner: Owner, now: nat)
    | Register
    | Touch(key: string, now: nat)
    | Pop(key: string)
    | Forget
    | Admit(request: nat, key: string)
    | Send(request: nat)
    | Receive(request: nat, id: string)

  // Registry steps need the registry's lock, so they do not overlap one another; sends slip in
  // between any two of them.
  function Next(s: State, a: Step, capacity: nat): State {
    match a
    case Add(key, server, owner, now) =>
      if !s.pending.Idle? || key in s.made || |s.entries| >= capacity then s
      else s.(entries := s.entries[key := Session(server, owner, now)], pending := Registering(server, key),
              made := s.made[key := (server, owner)])
    case Register =>
      if s.pending.Registering? then
        s.(activeSessions := s.activeSessions + {(s.pending.server, s.pending.key)}, pending := Idle)
      else s
    case Touch(key, now) =>
      if s.pending.Idle? && key in s.entries then s.(entries := s.entries[key := s.entries[key].(touched := now)])
        else s
    case Pop(key) =>
      if s.pending.Idle? && key in s.entries then
        s.(entries := s.entries - {key}, pending := Forgetting(s.entries[key].server, key))
      else s
    case Forget =>
      if s.pending.Forgetting? then
        s.(sessionIds := s.sessionIds - {(s.pending.server, s.pending.key)},
           activeSessions := s.activeSessions - {(s.pending.server, s.pending.key)}, pending := Idle)
      else s
    case Admit(n, key) =>
      if n !in s.requests && s.pending.Idle? && key in s.entries then
        s.(requests := s.requests[n := Request(s.entries[key].server, key, s.entries[key].owner, false, None)])
      else s
    case Send(n) =>
      if n in s.requests && !s.requests[n].sent then
        var r := s.requests[n];
        var cached := if (r.server, r.key) in s.sessionIds then Some(s.sessionIds[(r.server, r.key)]) else None;
        s.(requests := s.requests[n := r.(sent := true, attached := cached)])
      else s
    case Receive(n, id) =>
      if n in s.requests && s.requests[n].sent then
        var r := s.requests[n];
        s.(issued := s.issued + {((r.server, r.key), r.owner, id)},
           sessionIds := if (r.server, r.key) in s.activeSessions then s.sessionIds[(r.server, r.key) := id]
             else s.sessionIds)
      else s
  }

  function Run(s: State, steps: seq<Step>, capacity: nat): State {
    if steps == [] then s else Next(Run(s, steps[..|steps| - 1], capacity), steps[|steps| - 1], capacity)
  }

  predicate Agreement(s: State) {
    match s.pending
    case Idle => s.activeSessions == KeysOf(s.entries)
    case Forgetting(server, key) => key !in s.entries && s.activeSessions == KeysOf(s.entries) + {(server, key)}
    case Registering(server, key) =>
      (server, key) !in s.activeSessions && KeysOf(s.entries) == s.activeSessions + {(server, key)}
  }

  predicate EntriesMade(s: State) {
    forall key | key in s.entries :: key in s.made && s.made[key] == (s.entries[key].server, s.entries[key].owner)
  }

  predicate RequestMade(s: State, r: Request) {
    r.key in s.made && s.made[r.key] == (r.server, r.owner)
    && (r.attached.Some? ==> ((r.server, r.key), r.owner, r.attached.value) in s.issued)
  }

  predicate CacheIssued(s: State) {
    forall k | k in s.sessionIds :: k.1 in s.made && s.made[k.1].0 == k.0
      && (k, s.made[k.1].1, s.sessionIds[k]) in s.issued
  }

  predicate Inv(s: State, capacity: nat) {
    && Agreement(s) && s.sessionIds.Keys <= s.activeSessions && |s.entries| <= capacity && EntriesMade(s)
    && (forall n | n in s.requests :: RequestMade(s, s.requests[n])) && CacheIssued(s)
  }

  lemma AddStep(s: State, a: Step, capacity: nat)
    requires Inv(s, capacity) && a.Add?
    ensures Inv(Next(s, a, capacity), capacity)
  {
    hide KeysOf;
    if s.pending.Idle? && a.key !in s.made && |s.entries| < capacity {
      NewKey(s.entries, a.key, Session(a.server, a.owner, a.now));
      KeysMeaning(s.entries, (a.server, a.key));
      var u := Next(s, a, capacity);
      forall m | m in u.requests ensures RequestMade(u, u.requests[m]) { assert RequestMade(s, s.requests[m]); }
    }
  }

  lemma PopStep(s: State, a: Step, capacity: nat)
    requires Inv(s, capacity) && a.Pop?
    ensures Inv(Next(s, a, capacity), capacity)
  {
    hide KeysOf;
    if s.pending.Idle? && a.key in s.entries {
      RemovalOfKeys(s.entries, a.key);
      KeysMeaning(s.entries, (s.entries[a.key].server, a.key));
      var u := Next(s, a, capacity);
      forall m | m in u.requests ensures RequestMade(u, u.requests[m]) { assert RequestMade(s, s.requests[m]); }
    }
  }

  lemma ForgottenAgree(s: State)
    requires Agreement(s) && s.pending.Forgetting?
    ensures s.activeSessions - {(s.pending.server, s.pending.key)} == KeysOf(s.entries)
  {
    KeysMeaning(s.entries, (s.pending.server, s.pending.key));
  }

  lemma ForgottenIds(s: State, k: CacheKey)
    requires CacheIssued(s) && s.sessionIds.Keys <= s.activeSessions
    ensures CacheIssued(s.(sessionIds := s.sessionIds - {k}))
    ensures (s.sessionIds - {k}).Keys <= s.activeSessions - {k}
  {
  }

  lemma ForgetStep(s: State, capacity: nat)
    requires Inv(s, capacity)
    ensures Inv(Next(s, Forget, capacity), capacity)
  {
    hide KeysOf, RequestMade, CacheIssued;
    if s.pending.Forgetting? {
      ForgottenAgree(s);
      ForgottenIds(s, (s.pending.server, s.pending.key));
      var u := Next(s, Forget, capacity);
      CacheStays(s.(sessionIds := u.sessionIds), u);
      forall m | m in u.requests ensures RequestMade(u, u.requests[m]) { RequestStays(s, u, m); }
    }
  }

  lemma CacheStays(s: State, u: State)
    requires CacheIssued(s) && u.sessionIds == s.sessionIds && u.made == s.made && u.issued == s.issued
    ensures CacheIssued(u)
  {
  }

  lemma RegistryStep(s: State, a: Step, capacity: nat)
    requires Inv(s, capacity) && (a.Add? || a.Register? || a.Touch? || a.Pop? || a.Forget?)
    ensures Inv(Next(s, a, capacity), capacity)
  {
    hide KeysOf, RequestMade;
    if a.Add? { AddStep(s, a, capacity); }
    else if a.Pop? { PopStep(s, a, capacity); }
    else if a.Forget? { ForgetStep(s, capacity); }
    else {
      if a.Touch? && a.key in s.entries { TouchKeepsKeys(s.entries, a.key, a.now); }
      var u := Next(s, a, capacity);
      forall m | m in u.requests ensures RequestMade(u, u.requests[m]) { RequestStays(s, u, m); }
    }
  }

  lemma RequestStays(s: State, u: State, m: nat)
    requires m in s.requests && RequestMade(s, s.requests[m]) && u.made == s.made && u.issued == s.issued
    ensures RequestMade(u, s.requests[m])
  {
  }

  lemma ReceiveStep(s: State, a: Step, capacity: nat)
    requires Inv(s, capacity) && a.Receive?
    ensures Inv(Next(s, a, capacity), capacity)
  {
    hide KeysOf, Agreement;
    if a.request in s.requests && s.requests[a.request].sent {
      assert RequestMade(s, s.requests[a.request]);
      var u := Next(s, a, capacity);
      AgreementIgnoresRequests(s, u);
      forall m | m in u.requests ensures RequestMade(u, u.requests[m]) { assert RequestMade(s, s.requests[m]); }
    }
  }

  lemma RequestStep(s: State, a: Step, capacity: nat)
    requires Inv(s, capacity) && (a.Admit? || a.Send?)
    ensures Inv(Next(s, a, capacity), capacity)
  {
    hide KeysOf, Agreement;
    var u := Next(s, a, capacity);
    assert u.(requests := s.requests) == s;
    AgreementIgnoresRequests(s, u);
    CacheStays(s, u);
    match a
    case Admit(_, _) =>
    case Send(n) =>
      if n in s.requests { assert RequestMade(s, s.requests[n]); }
  }

  lemma AgreementIgnoresRequests(s: State, u: State)
    requires Agreement(s) && u.(requests := s.requests, issued := s.issued, sessionIds := s.sessionIds) == s
    ensures Agreement(u)
  {
  }

  lemma {:induction false} RunKeeps(steps: seq<Step>, capacity: nat)
    ensures Inv(Run(START, steps, capacity), capacity)
  {
    hide Inv, Next;
    if steps == [] {
      StartIsGood(capacity);
    } else {
      RunKeeps(steps[..|steps| - 1], capacity);
      var s, a := Run(START, steps[..|steps| - 1], capacity), steps[|steps| - 1];
      if a.Admit? || a.Send? { RequestStep(s, a, capacity); }
      else if a.Receive? { ReceiveStep(s, a, capacity); }
      else { RegistryStep(s, a, capacity); }
    }
  }

  lemma StartIsGood(capacity: nat)
    ensures Inv(START, capacity)
  {
  }

  // Whenever no registry operation is under way the two tables name the same sessions; cached ids
  // belong to active sessions at all times, and the table never outgrows its capacity.
  lemma TablesAgree(steps: seq<Step>, capacity: nat)
    ensures var s := Run(START, steps, capacity);
      && (s.pending.Idle? ==> s.activeSessions == KeysOf(s.entries))
      && s.sessionIds.Keys <= s.activeSessions && |s.entries| <= capacity
  {
    RunKeeps(steps, capacity);
  }

  // An upstream id goes out only with requests of the server and the owner whose earlier reply
  // brought it - even when replies arrive after their session was removed.
  lemma UpstreamIdsStayWithTheirOwner(steps: seq<Step>, capacity: nat, n: nat)
    requires var s := Run(START, steps, capacity); n in s.requests && s.requests[n].attached.Some?
    ensures var s := Run(START, steps, capacity); var r := s.requests[n];
      ((r.server, r.key), r.owner, r.attached.value) in s.issued
  {
    hide Run, Agreement;
    RunKeeps(steps, capacity);
    assert RequestMade(Run(START, steps, capacity), Run(START, steps, capacity).requests[n]);
  }

  // With nothing in between, the two steps of a removal do what `RemoveEntry` says, and those of
  // a new session what `Resolve` says of one.
  lemma UndisturbedSteps(s: State, capacity: nat, key: string, server: string, owner: Owner, now: nat)
    requires s.pending.Idle? && s.activeSessions == KeysOf(s.entries) && s.sessionIds.Keys <= s.activeSessions
    ensures key in s.entries ==>
      var u := Next(Next(s, Pop(key), capacity), Forget, capacity);
      && u.pending.Idle? && u.entries == s.entries - {key} && u.activeSessions == KeysOf(u.entries)
      && u.sessionIds == OnlyFor(s.sessionIds, KeysOf(u.entries))
    ensures key !in s.made && key !in s.entries && |s.entries| < capacity ==>
      var u := Next(Next(s, Add(key, server, owner, now), capacity), Register, capacity);
      && u.pending.Idle? && u.entries == s.entries[key := Session(server, owner, now)]
      && u.activeSessions == KeysOf(u.entries) && u.sessionIds == s.sessionIds
  {
    hide KeysOf;
    if key in s.entries {
      RemovalOfKeys(s.entries, key);
      var k := (s.entries[key].server, key);
      assert s.sessionIds - {k} == OnlyFor(s.sessionIds, s.activeSessions - {k});
    } else {
      NewKey(s.entries, key, Session(server, owner, now));
    }
  }
}
