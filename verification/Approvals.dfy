// Approval records, their life cycle, and the two backends that store them
// (approvals/models.py, approvals/store.py, the reviewer step of approvals/ui.py).
module Approvals {
  import opened Wrappers
  import opened Documents
  import opened TextOrder

  datatype Status = Pending | Approved | Denied | Expired | Consumed

  datatype CapabilityType = ToolCapability | ResourceCapability | PromptCapability | MethodCapability

  datatype Identity = Identity(subject: string, clientId: Option<string>, agentId: Option<string>)

  datatype RequestContext = RequestContext(
    server: string, rpcMethod: string, capabilityType: CapabilityType, capability: Option<string>,
    arguments: Dict, identity: Identity, binding: Binding)

  // SHA-256 of the sorted JSON dump: its preimage.
  datatype ArgumentsHash = ArgumentsHash(arguments: Dict)

  // Times are microseconds.
  datatype Approval = Approval(
    id: string, status: Status, server: string, rpcMethod: string, capability: Option<string>,
    capabilityType: CapabilityType, policyId: string, subject: string, clientId: Option<string>,
    agentId: Option<string>, binding: Binding, argumentsHash: ArgumentsHash,
    createdAt: Moment, expiresAt: Option<nat>, consumedAt: Option<nat>, decidedAt: Option<nat>,
    decidedBy: Option<string>, comment: Option<string>)

  function NewRequest(context: RequestContext, policyId: string, id: string, now: Moment, ttl: nat): Approval {
    Approval(id, Pending, context.server, context.rpcMethod, context.capability, context.capabilityType, policyId,
      context.identity.subject, context.identity.clientId, context.identity.agentId, context.binding,
      ArgumentsHash(context.arguments), now, Some(now + ttl), None, None, None, None)
  }

  predicate IsActive(a: Approval, now: nat) {
    a.status == Approved && (a.expiresAt.Some? ==> a.expiresAt.value > now)
  }

  predicate IsValid(a: Approval, context: RequestContext, policyId: string, now: nat) {
    IsActive(a, now) && a.policyId == policyId && Matches(a, context)
  }

  // The request the record is about is the one with this context.
  predicate Matches(a: Approval, context: RequestContext) {
    && a.server == context.server && a.rpcMethod == context.rpcMethod
    && a.capability == context.capability && a.capabilityType == context.capabilityType
    && a.subject == context.identity.subject && a.clientId == context.identity.clientId
    && a.agentId == context.identity.agentId
    && a.argumentsHash == ArgumentsHash(context.arguments) && a.binding == context.binding
  }

  predicate AllowedTransition(current: Status, next: Status) {
    || next == current
    || (current == Pending && next in {Approved, Denied, Expired})
    || (current == Approved && next in {Consumed, Expired})
  }

  function WithStatus(a: Approval, status: Status, reviewer: Option<string>, comment: Option<string>,
                      now: nat): Approval {
    if status == a.status then a
    else if status == Consumed then a.(status := status, consumedAt := Some(now))
    else a.(status := status, decidedAt := Some(now), decidedBy := reviewer, comment := comment)
  }

  type Book = map<string, Approval>

  predicate ValidBook(b: Book) {
    forall id | id in b :: b[id].id == id
  }

  datatype Command =
    | Create(context: RequestContext, policyId: string, id: string, now: Moment, ttl: nat)
    | SetStatus(id: string, status: Status, reviewer: Option<string>, comment: Option<string>, now: Moment)
    | Consume(id: string, context: RequestContext, policyId: string, now: Moment)
    | Get(id: string)
    | List

  datatype Reply =
    | Created(approval: Approval) | Updated(approval: Approval) | Missing | InvalidTransition
    | ConsumeResult(consumed: bool) | Found(found: Option<Approval>) | Listing(approvals: seq<Approval>)
    | DuplicateId

  function ConsumeBook(b: Book, id: string, context: RequestContext, policyId: string, now: nat): (Book, bool) {
    if id in b && IsValid(b[id], context, policyId, now) then
      (b[id := WithStatus(b[id], Consumed, b[id].decidedBy, None, now)], true)
    else (b, false)
  }

  function SetStatusBook(b: Book, id: string, status: Status, reviewer: Option<string>, comment: Option<string>,
                         now: nat)
      : (Book, Reply) {
    if id !in b then (b, Missing)
    else if !AllowedTransition(b[id].status, status) then (b, InvalidTransition)
    else
      var updated := WithStatus(b[id], status, reviewer, comment, now);
      (b[id := updated], Updated(updated))
  }

  // The effect of a command on the records.
  function After(b: Book, c: Command): Book {
    match c
    case Create(context, policyId, id, now, ttl) =>
      if id in b then b else b[id := NewRequest(context, policyId, id, now, ttl)]
    case SetStatus(id, status, reviewer, comment, now) => SetStatusBook(b, id, status, reviewer, comment, now).0
    case Consume(id, context, policyId, now) => ConsumeBook(b, id, context, policyId, now).0
    case Get(_) => b
    case List => b
  }

  // The reply to a command; a listing is characterised instead of computed.
  ghost predicate Answers(b: Book, c: Command, r: Reply) {
    match c
    case Create(context, policyId, id, now, ttl) =>
      r == if id in b then DuplicateId else Created(NewRequest(context, policyId, id, now, ttl))
    case SetStatus(id, status, reviewer, comment, now) => r == SetStatusBook(b, id, status, reviewer, comment, now).1
    case Consume(id, context, policyId, now) => r == ConsumeResult(ConsumeBook(b, id, context, policyId, now).1)
    case Get(id) => r == Found(if id in b then Some(b[id]) else None)
    case List => r.Listing? && IsListing(b, r.approvals)
  }

  // -------- Listing order: by creation time, then by id --------

  predicate Before(x: Approval, y: Approval) {
    x.createdAt < y.createdAt || (x.createdAt == y.createdAt && Less(x.id, y.id))
  }

  predicate Ordered(l: seq<Approval>) {
    forall i, j | 0 <= i < j < |l| :: Before(l[i], l[j])
  }

  ghost predicate IsListing(b: Book, l: seq<Approval>) {
    (forall x :: x in l <==> x in b.Values) && Ordered(l)
  }

  lemma BeforeIsAsymmetric(x: Approval, y: Approval)
    requires Before(x, y)
    ensures !Before(y, x) && x != y
  {
    LessIsAsymmetric(x.id, y.id);
    LessIsAsymmetric(x.id, x.id);
  }

  lemma HeadIsMember(l: seq<Approval>)
    requires l != []
    ensures l[0] in l
  {
  }

  // A listing is determined by the records, however a backend arrives at it.
  lemma {:induction false} ListingIsUnique(l: seq<Approval>, m: seq<Approval>)
    requires Ordered(l) && Ordered(m)
    requires forall x :: x in l <==> x in m
    ensures l == m
  {
    if l == [] {
      if m != [] { HeadIsMember(m); assert false; }
    } else {
      assert l[0] in m;
      assert m[0] in l;
      var i :| 0 <= i < |l| && l[i] == m[0];
      var j :| 0 <= j < |m| && m[j] == l[0];
      if i > 0 && j > 0 { BeforeIsAsymmetric(l[0], l[i]); }
      assert l[0] == m[0];
      forall x ensures x in l[1..] <==> x in m[1..] {
        TailMembership(l, x);
        TailMembership(m, x);
      }
      ListingIsUnique(l[1..], m[1..]);
    }
  }

  lemma TailMembership(l: seq<Approval>, x: Approval)
    requires Ordered(l) && l != []
    ensures x in l[1..] <==> x in l && x != l[0]
  {
    if x in l[1..] {
      var i :| 0 <= i < |l[1..]| && l[1..][i] == x;
      BeforeIsAsymmetric(l[0], l[i + 1]);
    }
  }

  // -------- The file backend: one JSON object written with sorted keys --------

  predicate SortedById(entries: seq<Approval>) {
    forall i, j | 0 <= i < j < |entries| :: Less(entries[i].id, entries[j].id)
  }

  function BookOf(entries: seq<Approval>): Book {
    if entries == [] then map[] else BookOf(entries[1..])[entries[0].id := entries[0]]
  }

  // A dictionary update followed by a dump with sorted keys.
  function Put(entries: seq<Approval>, a: Approval): seq<Approval> {
    if entries == [] then [a]
    else if a.id == entries[0].id then [a] + entries[1..]
    else if Less(a.id, entries[0].id) then [a] + entries
    else [entries[0]] + Put(entries[1..], a)
  }

  lemma {:induction false} PutKeepsOrder(entries: seq<Approval>, a: Approval)
    requires SortedById(entries)
    ensures SortedById(Put(entries, a))
    ensures forall x | x in Put(entries, a) :: x == a || x in entries
  {
    if entries != [] && a.id != entries[0].id {
      if Less(a.id, entries[0].id) {
        forall j | 0 <= j < |entries| ensures Less(a.id, entries[j].id) {
          if j > 0 { LessIsTransitive(a.id, entries[0].id, entries[j].id); }
        }
      } else {
        LessIsTotal(a.id, entries[0].id);
        PutKeepsOrder(entries[1..], a);
        var rest := Put(entries[1..], a);
        forall j | 0 <= j < |rest| ensures Less(entries[0].id, rest[j].id) {
          assert rest[j] in rest;
        }
      }
    }
  }

  lemma {:induction false} PutUpdatesBook(entries: seq<Approval>, a: Approval)
    requires SortedById(entries)
    ensures BookOf(Put(entries, a)) == BookOf(entries)[a.id := a]
  {
    if entries != [] {
      if a.id == entries[0].id {
        assert ([a] + entries[1..])[1..] == entries[1..];
      } else if Less(a.id, entries[0].id) {
        assert ([a] + entries)[1..] == entries;
      } else {
        PutUpdatesBook(entries[1..], a);
        assert ([entries[0]] + Put(entries[1..], a))[1..] == Put(entries[1..], a);
      }
    }
  }

  lemma {:induction false} BookHoldsEntries(entries: seq<Approval>)
    requires SortedById(entries)
    ensures ValidBook(BookOf(entries))
    ensures forall x :: x in entries <==> x.id in BookOf(entries) && BookOf(entries)[x.id] == x
  {
    if entries != [] {
      BookHoldsEntries(entries[1..]);
      forall x | x in entries[1..] ensures x.id != entries[0].id {
        var i :| 0 <= i < |entries[1..]| && entries[1..][i] == x;
        LessIsAsymmetric(entries[0].id, entries[i + 1].id);
      }
      assert entries == [entries[0]] + entries[1..];
    }
  }

  lemma BookValues(entries: seq<Approval>)
    requires SortedById(entries)
    ensures forall x :: x in entries <==> x in BookOf(entries).Values
  {
    BookHoldsEntries(entries);
    var b := BookOf(entries);
    forall x ensures x in entries <==> x in b.Values {
      if x in entries { assert b[x.id] == x; }
      if x in b.Values { var k :| k in b && b[k] == x; assert b[k].id == k; }
    }
  }

  lemma KeyIsId(entries: seq<Approval>, id: string)
    requires SortedById(entries)
    ensures id in BookOf(entries) ==> BookOf(entries)[id].id == id
  {
    BookHoldsEntries(entries);
  }

  // Python's stable sort by creation time.
  function InsertByTime(l: seq<Approval>, a: Approval): seq<Approval> {
    if l == [] then [a]
    else if a.createdAt < l[0].createdAt then [a] + l
    else [l[0]] + InsertByTime(l[1..], a)
  }

  function SortByTime(entries: seq<Approval>): seq<Approval> {
    if entries == [] then [] else InsertByTime(SortByTime(entries[..|entries| - 1]), entries[|entries| - 1])
  }

  lemma FirstIsBefore(l: seq<Approval>, x: Approval)
    requires l != [] && Ordered(l) && x in l[1..]
    ensures Before(l[0], x)
  {
    var k :| 0 <= k < |l[1..]| && l[1..][k] == x;
    assert Before(l[0], l[k + 1]);
  }

  lemma ConsOrders(x: Approval, l: seq<Approval>)
    requires Ordered(l) && forall y | y in l :: Before(x, y)
    ensures Ordered([x] + l)
  {
    var m := [x] + l;
    forall i, j | 0 <= i < j < |m| ensures Before(m[i], m[j]) {
      assert m[j] == l[j - 1] && l[j - 1] in l;
    }
  }

  lemma {:induction false} InsertByTimeOrders(l: seq<Approval>, a: Approval)
    requires Ordered(l) && forall x | x in l :: Less(x.id, a.id)
    ensures Ordered(InsertByTime(l, a))
    ensures forall x :: x in InsertByTime(l, a) <==> x == a || x in l
  {
    if l == [] {
      ConsOrders(a, []);
      assert [a] + [] == [a];
    } else {
      assert l == [l[0]] + l[1..];
      if a.createdAt < l[0].createdAt {
        forall y | y in l ensures Before(a, y) {
          if y != l[0] { FirstIsBefore(l, y); }
        }
        ConsOrders(a, l);
      } else {
        InsertByTimeOrders(l[1..], a);
        assert l[0] in l;
        forall y | y in InsertByTime(l[1..], a) ensures Before(l[0], y) {
          if y != a { FirstIsBefore(l, y); }
        }
        ConsOrders(l[0], InsertByTime(l[1..], a));
      }
    }
  }

  // Stable sorting by time over id-sorted entries is ordering by time and then id.
  lemma {:induction false} StableSortOrders(entries: seq<Approval>)
    requires SortedById(entries)
    ensures Ordered(SortByTime(entries))
    ensures forall x :: x in SortByTime(entries) <==> x in entries
  {
    if entries != [] {
      var front, last := entries[..|entries| - 1], entries[|entries| - 1];
      StableSortOrders(front);
      forall x | x in front ensures Less(x.id, last.id) {
        var i :| 0 <= i < |front| && front[i] == x;
        assert Less(entries[i].id, last.id);
      }
      InsertByTimeOrders(SortByTime(front), last);
      assert entries == front + [last];
    }
  }

  class FileApprovalStore {
    var entries: seq<Approval>
    const ttl: nat

    ghost predicate Valid()
      reads this
    {
      SortedById(entries)
    }

    ghost function Records(): Book
      reads this
    {
      BookOf(entries)
    }

    constructor (ttl: nat)
      ensures Valid() && Records() == map[] && this.ttl == ttl
    {
      this.ttl := ttl;
      entries := [];
    }

    function Load(): (b: Book)
      reads this
    {
      BookOf(entries)
    }

    method CreateRequest(context: RequestContext, policyId: string, id: string, now: Moment) returns (a: Approval)
      requires Valid()
      modifies this
      ensures Valid() && a == NewRequest(context, policyId, id, now, ttl)
      ensures Records() == old(Records())[id := a]
    {
      a := NewRequest(context, policyId, id, now, ttl);
      PutKeepsOrder(entries, a);
      PutUpdatesBook(entries, a);
      entries := Put(entries, a);
    }

    method ChangeStatus(id: string, status: Status, reviewer: Option<string>, comment: Option<string>, now: nat)
      returns (r: Reply)
      requires Valid()
      modifies this
      ensures Valid() && (Records(), r) == SetStatusBook(old(Records()), id, status, reviewer, comment, now)
    {
      KeyIsId(entries, id);
      var approvals := Load();
      if id !in approvals { return Missing; }
      if !AllowedTransition(approvals[id].status, status) { return InvalidTransition; }
      var updated := WithStatus(approvals[id], status, reviewer, comment, now);
      PutKeepsOrder(entries, updated);
      PutUpdatesBook(entries, updated);
      entries := Put(entries, updated);
      r := Updated(updated);
    }

    method ConsumeIfValid(id: string, context: RequestContext, policyId: string, now: nat) returns (consumed: bool)
      requires Valid()
      modifies this
      ensures Valid() && (Records(), consumed) == ConsumeBook(old(Records()), id, context, policyId, now)
    {
      KeyIsId(entries, id);
      var approvals := Load();
      if id !in approvals || !IsValid(approvals[id], context, policyId, now) { return false; }
      var a := WithStatus(approvals[id], Consumed, approvals[id].decidedBy, None, now);
      PutKeepsOrder(entries, a);
      PutUpdatesBook(entries, a);
      entries := Put(entries, a);
      consumed := true;
    }

    method GetOne(id: string) returns (a: Option<Approval>)
      ensures a == if id in Records() then Some(Records()[id]) else None
    {
      var approvals := Load();
      a := if id in approvals then Some(approvals[id]) else None;
    }

    method ListAll() returns (l: seq<Approval>)
      requires Valid()
      ensures IsListing(Records(), l)
    {
      StableSortOrders(entries);
      BookValues(entries);
      l := SortByTime(entries);
    }
  }

  // -------- The SQLite backend: rows with a status column, ordered by text --------

  datatype Row = Row(id: string, status: Status, createdText: string, payload: Approval)

  function RowOf(a: Approval): Row {
    Row(a.id, a.status, IsoFormat(a.createdAt), a)
  }

  predicate DistinctIds(rows: seq<Row>) {
    forall i, j | 0 <= i < j < |rows| :: rows[i].id != rows[j].id
  }

  predicate FromPayloads(rows: seq<Row>) {
    forall i | 0 <= i < |rows| :: rows[i] == RowOf(rows[i].payload)
  }

  predicate ValidRows(rows: seq<Row>) {
    FromPayloads(rows) && DistinctIds(rows)
  }

  function TableOf(rows: seq<Row>): Book {
    if rows == [] then map[] else TableOf(rows[..|rows| - 1])[rows[|rows| - 1].id := rows[|rows| - 1].payload]
  }

  lemma FrontOfRows(rows: seq<Row>)
    requires DistinctIds(rows) && rows != []
    ensures DistinctIds(rows[..|rows| - 1])
    ensures forall x | x in rows[..|rows| - 1] :: x.id != rows[|rows| - 1].id
    ensures forall x :: x in rows <==> x == rows[|rows| - 1] || x in rows[..|rows| - 1]
  {
    hide IsoFormat;
    assert rows == rows[..|rows| - 1] + [rows[|rows| - 1]];
  }

  lemma {:induction false} TableHoldsRow(rows: seq<Row>, index: nat)
    requires DistinctIds(rows) && index < |rows|
    ensures rows[index].id in TableOf(rows) && TableOf(rows)[rows[index].id] == rows[index].payload
  {
    if index < |rows| - 1 {
      FrontOfRows(rows);
      TableHoldsRow(rows[..|rows| - 1], index);
    }
  }

  lemma {:induction false} TableHoldsOnlyRows(rows: seq<Row>, id: string) returns (index: nat)
    requires DistinctIds(rows) && id in TableOf(rows)
    ensures index < |rows| && rows[index].id == id
  {
    if id == rows[|rows| - 1].id {
      index := |rows| - 1;
    } else {
      FrontOfRows(rows);
      index := TableHoldsOnlyRows(rows[..|rows| - 1], id);
    }
  }

  lemma InsertedRow(rows: seq<Row>, row: Row)
    requires DistinctIds(rows) && row.id !in TableOf(rows)
    ensures DistinctIds(rows + [row]) && TableOf(rows + [row]) == TableOf(rows)[row.id := row.payload]
  {
    hide IsoFormat;
    forall i | 0 <= i < |rows| ensures rows[i].id != row.id { TableHoldsRow(rows, i); }
    assert (rows + [row])[..|rows|] == rows;
  }

  lemma {:induction false} UpdatedRow(rows: seq<Row>, index: nat, row: Row)
    requires DistinctIds(rows) && index < |rows| && row.id == rows[index].id
    ensures DistinctIds(rows[index := row]) && TableOf(rows[index := row]) == TableOf(rows)[row.id := row.payload]
  {
    hide IsoFormat;
    var n := |rows| - 1;
    var after := rows[index := row];
    assert forall i | 0 <= i < |after| :: after[i].id == rows[i].id;
    if index < n {
      FrontOfRows(rows);
      UpdatedRow(rows[..n], index, row);
      assert after[..n] == rows[..n][index := row];
      assert TableOf(after) == TableOf(after[..n])[rows[n].id := rows[n].payload];
      UpdatesCommute(TableOf(rows[..n]), row.id, row.payload, rows[n].id, rows[n].payload);
    } else {
      assert after[..n] == rows[..n];
    }
  }

  lemma UpdatesCommute(b: Book, i: string, x: Approval, j: string, y: Approval)
    requires i != j
    ensures b[i := x][j := y] == b[j := y][i := x]
  {
  }

  // ORDER BY created_at ASC, id ASC, on the stored text.
  predicate RowBefore(x: Row, y: Row) {
    Less(x.createdText, y.createdText) || (x.createdText == y.createdText && Less(x.id, y.id))
  }

  lemma TextOrderIsTimeOrder(x: Approval, y: Approval)
    ensures RowBefore(RowOf(x), RowOf(y)) <==> Before(x, y)
  {
    if x.createdAt < y.createdAt { IsoFormatOrders(x.createdAt, y.createdAt); }
    if y.createdAt < x.createdAt { IsoFormatOrders(y.createdAt, x.createdAt); }
    LessIsAsymmetric(RowOf(x).createdText, RowOf(y).createdText);
    LessIsAsymmetric(RowOf(y).createdText, RowOf(x).createdText);
    LessIsAsymmetric(RowOf(x).createdText, RowOf(x).createdText);
  }

  function InsertRow(l: seq<Row>, r: Row): seq<Row> {
    if l == [] then [r]
    else if RowBefore(r, l[0]) then [r] + l
    else [l[0]] + InsertRow(l[1..], r)
  }

  function OrderRows(rows: seq<Row>): seq<Row> {
    if rows == [] then [] else InsertRow(OrderRows(rows[..|rows| - 1]), rows[|rows| - 1])
  }

  function Payloads(rows: seq<Row>): (l: seq<Approval>)
    ensures |l| == |rows| && forall i | 0 <= i < |rows| :: l[i] == rows[i].payload
  {
    seq(|rows|, i requires 0 <= i < |rows| => rows[i].payload)
  }

  lemma BeforeIsTotal(x: Approval, y: Approval)
    ensures Before(x, y) || Before(y, x) || x.id == y.id
  {
    LessIsTotal(x.id, y.id);
  }

  lemma BeforeIsTransitive(x: Approval, y: Approval, z: Approval)
    requires Before(x, y) && Before(y, z)
    ensures Before(x, z)
  {
    if x.createdAt == y.createdAt == z.createdAt { LessIsTransitive(x.id, y.id, z.id); }
  }

  lemma PrependOrders(x: Row, l: seq<Row>)
    requires FromPayloads(l) && x == RowOf(x.payload)
    requires Ordered(Payloads(l)) && forall y | y in l :: Before(x.payload, y.payload)
    ensures FromPayloads([x] + l) && Ordered(Payloads([x] + l))
  {
    hide Before, Ordered, RowOf;
    assert Payloads([x] + l) == [x.payload] + Payloads(l);
    forall a | a in Payloads(l) ensures Before(x.payload, a) {
      var k :| 0 <= k < |l| && Payloads(l)[k] == a;
      assert l[k] in l;
    }
    ConsOrders(x.payload, Payloads(l));
  }

  lemma HeadIsFirst(l: seq<Row>, y: Row)
    requires l != [] && Ordered(Payloads(l)) && y in l[1..]
    ensures Before(l[0].payload, y.payload)
  {
    var k :| 0 <= k < |l[1..]| && l[1..][k] == y;
    assert Before(Payloads(l)[0], Payloads(l)[k + 1]);
  }

  lemma BeforeTheRest(l: seq<Row>, r: Row)
    requires l != [] && Ordered(Payloads(l)) && Before(r.payload, l[0].payload)
    ensures forall y | y in l :: Before(r.payload, y.payload)
  {
    hide Before, Ordered;
    forall y | y in l ensures Before(r.payload, y.payload) {
      if y != l[0] {
        HeadIsFirst(l, y);
        BeforeIsTransitive(r.payload, l[0].payload, y.payload);
      }
    }
  }

  lemma {:induction false} InsertRowOrders(l: seq<Row>, r: Row)
    requires FromPayloads(l) && r == RowOf(r.payload)
    requires Ordered(Payloads(l)) && forall x | x in l :: x.id != r.id
    ensures FromPayloads(InsertRow(l, r)) && Ordered(Payloads(InsertRow(l, r)))
    ensures forall x :: x in InsertRow(l, r) <==> x == r || x in l
  {
    hide IsoFormat;
    if l == [] {
      PrependOrders(r, []);
      assert [r] + [] == [r];
    } else {
      TextOrderIsTimeOrder(r.payload, l[0].payload);
      assert l[0] in l;
      assert l == [l[0]] + l[1..];
      if RowBefore(r, l[0]) {
        BeforeTheRest(l, r);
        PrependOrders(r, l);
      } else {
        BeforeIsTotal(r.payload, l[0].payload);
        assert Payloads(l[1..]) == Payloads(l)[1..];
        InsertRowOrders(l[1..], r);
        forall y | y in InsertRow(l[1..], r) ensures Before(l[0].payload, y.payload) {
          if y != r { HeadIsFirst(l, y); }
        }
        PrependOrders(l[0], InsertRow(l[1..], r));
      }
    }
  }

  lemma {:induction false} OrderRowsOrders(rows: seq<Row>)
    requires ValidRows(rows)
    ensures FromPayloads(OrderRows(rows)) && Ordered(Payloads(OrderRows(rows)))
    ensures forall x :: x in OrderRows(rows) <==> x in rows
  {
    hide IsoFormat;
    if rows == [] {
      assert Payloads([]) == [];
    } else {
      var front, last := rows[..|rows| - 1], rows[|rows| - 1];
      FrontOfRows(rows);
      OrderRowsOrders(front);
      InsertRowOrders(OrderRows(front), last);
    }
  }

  class SqliteApprovalStore {
    var rows: seq<Row>
    const ttl: nat

    ghost predicate Valid()
      reads this
    {
      ValidRows(rows)
    }

    ghost function Records(): Book
      reads this
    {
      TableOf(rows)
    }

    constructor (ttl: nat)
      ensures Valid() && Records() == map[] && this.ttl == ttl
    {
      this.ttl := ttl;
      rows := [];
    }

    method Select(id: string) returns (index: int)
      requires Valid()
      ensures -1 <= index < |rows|
      ensures index >= 0 ==> rows[index].id == id && id in Records() && Records()[id] == rows[index].payload
      ensures index < 0 <==> id !in Records()
    {
      hide IsoFormat;
      index := 0;
      while index < |rows|
        invariant 0 <= index <= |rows|
        invariant forall i | 0 <= i < index :: rows[i].id != id
      {
        if rows[index].id == id {
          TableHoldsRow(rows, index);
          return;
        }
        index := index + 1;
      }
      if id in Records() { var i := TableHoldsOnlyRows(rows, id); }
      index := -1;
    }

    method CreateRequest(context: RequestContext, policyId: string, id: string, now: Moment) returns (r: Reply)
      requires Valid()
      modifies this
      ensures Valid() && Records() == After(old(Records()), Create(context, policyId, id, now, ttl))
      ensures Answers(old(Records()), Create(context, policyId, id, now, ttl), r)
    {
      hide IsoFormat;
      var a := NewRequest(context, policyId, id, now, ttl);
      var index := Select(id);
      if index >= 0 { return DuplicateId; }
      InsertedRow(rows, RowOf(a));
      rows := rows + [RowOf(a)];
      r := Created(a);
    }

    // UPDATE approvals SET status = ?, payload = ? WHERE id = ?
    method Update(index: nat, a: Approval)
      requires Valid() && index < |rows| && a.id == rows[index].id && a.createdAt == rows[index].payload.createdAt
      modifies this
      ensures Valid() && Records() == old(Records())[a.id := a]
    {
      hide IsoFormat;
      UpdatedRow(rows, index, RowOf(a));
      assert rows[index] == RowOf(rows[index].payload);
      rows := rows[index := rows[index].(status := a.status, payload := a)];
    }

    method ChangeStatus(id: string, status: Status, reviewer: Option<string>, comment: Option<string>, now: nat)
      returns (r: Reply)
      requires Valid()
      modifies this
      ensures Valid() && (Records(), r) == SetStatusBook(old(Records()), id, status, reviewer, comment, now)
    {
      hide IsoFormat;
      var index := Select(id);
      if index < 0 { return Missing; }
      var existing := rows[index].payload;
      if !AllowedTransition(existing.status, status) { return InvalidTransition; }
      var updated := WithStatus(existing, status, reviewer, comment, now);
      Update(index, updated);
      r := Updated(updated);
    }

    method ConsumeIfValid(id: string, context: RequestContext, policyId: string, now: nat) returns (consumed: bool)
      requires Valid()
      modifies this
      ensures Valid() && (Records(), consumed) == ConsumeBook(old(Records()), id, context, policyId, now)
    {
      hide IsoFormat;
      var index := Select(id);
      if index < 0 { return false; }
      var approval := rows[index].payload;
      if !IsValid(approval, context, policyId, now) { return false; }
      Update(index, WithStatus(approval, Consumed, approval.decidedBy, None, now));
      consumed := true;
    }

    method GetOne(id: string) returns (a: Option<Approval>)
      requires Valid()
      ensures a == if id in Records() then Some(Records()[id]) else None
    {
      var index := Select(id);
      a := if index < 0 then None else Some(rows[index].payload);
    }

    method ListAll() returns (l: seq<Approval>)
      requires Valid()
      ensures IsListing(Records(), l)
    {
      OrderRowsOrders(rows);
      l := Payloads(OrderRows(rows));
      ListedRows(rows);
    }
  }

  lemma ListedRows(rows: seq<Row>)
    requires ValidRows(rows)
    ensures forall x :: x in Payloads(OrderRows(rows)) <==> x in TableOf(rows).Values
  {
    hide IsoFormat;
    OrderRowsOrders(rows);
    var ordered := OrderRows(rows);
    forall x ensures x in Payloads(ordered) <==> x in TableOf(rows).Values {
      if x in Payloads(ordered) {
        var i :| 0 <= i < |ordered| && ordered[i].payload == x;
        assert ordered[i] in rows;
        var j :| 0 <= j < |rows| && rows[j] == ordered[i];
        TableHoldsRow(rows, j);
      }
      if x in TableOf(rows).Values {
        var k :| k in TableOf(rows) && TableOf(rows)[k] == x;
        var i := TableHoldsOnlyRows(rows, k);
        TableHoldsRow(rows, i);
        assert rows[i] in ordered;
        var j :| 0 <= j < |ordered| && ordered[j] == rows[i];
        assert Payloads(ordered)[j] == x;
      }
    }
  }

  // Runs one command on a backend.
  method OnFile(store: FileApprovalStore, c: Command) returns (r: Reply)
    requires store.Valid() && (c.Create? ==> c.id !in store.Records() && c.ttl == store.ttl)
    modifies store
    ensures store.Valid() && store.Records() == After(old(store.Records()), c)
    ensures Answers(old(store.Records()), c, r)
  {
    match c
    case Create(context, policyId, id, now, _) =>
      var a := store.CreateRequest(context, policyId, id, now);
      r := Created(a);
    case SetStatus(id, status, reviewer, comment, now) => r := store.ChangeStatus(id, status, reviewer, comment, now);
    case Consume(id, context, policyId, now) =>
      var ok := store.ConsumeIfValid(id, context, policyId, now);
      r := ConsumeResult(ok);
    case Get(id) => var a := store.GetOne(id); r := Found(a);
    case List => var l := store.ListAll(); r := Listing(l);
  }

  method OnSqlite(store: SqliteApprovalStore, c: Command) returns (r: Reply)
    requires store.Valid() && (c.Create? ==> c.ttl == store.ttl)
    modifies store
    ensures store.Valid() && store.Records() == After(old(store.Records()), c)
    ensures Answers(old(store.Records()), c, r)
  {
    hide IsoFormat;
    match c
    case Create(context, policyId, id, now, _) => r := store.CreateRequest(context, policyId, id, now);
    case SetStatus(id, status, reviewer, comment, now) => r := store.ChangeStatus(id, status, reviewer, comment, now);
    case Consume(id, context, policyId, now) =>
      var ok := store.ConsumeIfValid(id, context, policyId, now);
      r := ConsumeResult(ok);
    case Get(id) => var a := store.GetOne(id); r := Found(a);
    case List => var l := store.ListAll(); r := Listing(l);
  }

  method OnBoth(f: FileApprovalStore, s: SqliteApprovalStore, c: Command) returns (r: Reply, q: Reply)
    requires f.Valid() && s.Valid() && f.Records() == s.Records()
    requires c.Create? ==> c.id !in s.Records() && c.ttl == f.ttl == s.ttl
    modifies f, s
    ensures f.Valid() && s.Valid() && f.Records() == s.Records() == After(old(s.Records()), c)
    ensures r == q && Answers(old(s.Records()), c, r)
  {
    ghost var b := s.Records();
    r := OnFile(f, c);
    q := OnSqlite(s, c);
    RepliesAreDetermined(b, c, r, q);
  }

  ghost function RunBook(b: Book, commands: seq<Command>): Book {
    if commands == [] then b else After(RunBook(b, commands[..|commands| - 1]), commands[|commands| - 1])
  }

  // uuid4 never repeats.
  ghost predicate FreshId(commands: seq<Command>, i: nat)
    requires i < |commands|
  {
    commands[i].Create? ==> commands[i].id !in RunBook(map[], commands[..i])
  }

  ghost predicate Transcript(commands: seq<Command>, replies: seq<Reply>) {
    && |replies| <= |commands|
    && forall k | 0 <= k < |replies| :: Answers(RunBook(map[], commands[..k]), commands[k], replies[k])
  }

  lemma TranscriptGrows(commands: seq<Command>, replies: seq<Reply>, r: Reply)
    requires |replies| < |commands| && Transcript(commands, replies)
    requires Answers(RunBook(map[], commands[..|replies|]), commands[|replies|], r)
    ensures Transcript(commands, replies + [r])
    ensures RunBook(map[], commands[..|replies| + 1])
         == After(RunBook(map[], commands[..|replies|]), commands[|replies|])
  {
    hide Answers, After;
    assert commands[..|replies| + 1][..|replies|] == commands[..|replies|];
  }

  // The two backends are one machine: every trace with fresh ids gets equal replies from both.
  method BackendsAgree(commands: seq<Command>, ttl: nat) returns (file: seq<Reply>, sqlite: seq<Reply>)
    requires forall i | 0 <= i < |commands| :: FreshId(commands, i) && (commands[i].Create? ==> commands[i].ttl == ttl)
    ensures |file| == |commands| && file == sqlite && Transcript(commands, file)
  {
    var f := new FileApprovalStore(ttl);
    var s := new SqliteApprovalStore(ttl);
    file, sqlite := Drive(f, s, commands, ttl);
  }

  method Drive(f: FileApprovalStore, s: SqliteApprovalStore, commands: seq<Command>, ttl: nat)
    returns (file: seq<Reply>, sqlite: seq<Reply>)
    requires f.Valid() && s.Valid() && f.ttl == s.ttl == ttl && f.Records() == s.Records() == map[]
    requires forall i | 0 <= i < |commands| :: FreshId(commands, i) && (commands[i].Create? ==> commands[i].ttl == ttl)
    modifies f, s
    ensures f.Records() == s.Records() == RunBook(map[], commands)
    ensures |file| == |commands| && file == sqlite && Transcript(commands, file)
  {
    hide Answers, After, BookOf, TableOf, ValidRows, SortedById;
    file, sqlite := [], [];
    while |file| < |commands|
      invariant |file| <= |commands| && file == sqlite && Transcript(commands, file)
      invariant f.Valid() && s.Valid()
      invariant f.Records() == s.Records() == RunBook(map[], commands[..|file|])
    {
      assert FreshId(commands, |file|);
      var r, q := OnBoth(f, s, commands[|file|]);
      TranscriptGrows(commands, file, r);
      file, sqlite := file + [r], sqlite + [q];
    }
    assert commands[..|file|] == commands;
  }

  lemma RepliesAreDetermined(b: Book, c: Command, r: Reply, q: Reply)
    requires Answers(b, c, r) && Answers(b, c, q)
    ensures r == q
  {
    if c.List? { ListingIsUnique(r.approvals, q.approvals); }
  }
}
