// What every run of approval commands keeps: one-way status changes, single use, and the
// separation of duties enforced by the reviewer's page (approvals/ui.py).
module Review {
  import opened Wrappers
  import opened TextOrder
  import opened Approvals

  function Rank(s: Status): nat {
    match s
    case Pending => 2
    case Approved => 1
    case _ => 0
  }

  // What a record may become: nothing but its life-cycle fields changes, a change of status goes
  // down in rank, and consuming keeps the reviewer's decision.
  ghost predicate Evolves(x: Approval, y: Approval) {
    && y == x.(status := y.status, consumedAt := y.consumedAt, decidedAt := y.decidedAt,
               decidedBy := y.decidedBy, comment := y.comment)
    && (y != x ==> Rank(y.status) < Rank(x.status))
    && (y.status == Consumed != x.status ==>
          x.status == Approved && y == x.(status := Consumed, consumedAt := y.consumedAt))
  }

  lemma CommandEvolvesRecords(b: Book, c: Command, id: string)
    requires id in b
    ensures id in After(b, c) && Evolves(b[id], After(b, c)[id])
  {
  }

  // The same over any number of commands: a status once lowered never comes back.
  ghost predicate Descends(x: Approval, y: Approval) {
    && Rank(y.status) <= Rank(x.status) && (Rank(y.status) == Rank(x.status) ==> y == x)
    && y == x.(status := y.status, consumedAt := y.consumedAt, decidedAt := y.decidedAt,
               decidedBy := y.decidedBy, comment := y.comment)
    && (x.status == Approved && y.status == Consumed ==> y == x.(status := Consumed, consumedAt := y.consumedAt))
  }

  ghost predicate BookDescends(b: Book, c: Book) {
    forall id | id in b :: id in c && Descends(b[id], c[id])
  }

  lemma BookDescendsIsReflexive(b: Book)
    ensures BookDescends(b, b)
  {
  }

  lemma BookDescendsIsTransitive(b: Book, c: Book, d: Book)
    requires BookDescends(b, c) && BookDescends(c, d)
    ensures BookDescends(b, d)
  {
  }

  lemma CommandDescends(b: Book, c: Command)
    ensures BookDescends(b, After(b, c))
  {
    forall id | id in b ensures id in After(b, c) && Descends(b[id], After(b, c)[id]) {
      CommandEvolvesRecords(b, c, id);
    }
  }

  lemma CommandKeepsBookValid(b: Book, c: Command)
    requires ValidBook(b)
    ensures ValidBook(After(b, c))
  {
  }

  lemma {:induction false} RunDescends(b: Book, commands: seq<Command>)
    ensures BookDescends(b, RunBook(b, commands))
  {
    if commands != [] {
      var front := commands[..|commands| - 1];
      RunDescends(b, front);
      CommandDescends(RunBook(b, front), commands[|commands| - 1]);
      BookDescendsIsTransitive(b, RunBook(b, front), RunBook(b, commands));
    }
  }

  // How often a run answered "consumed" for an approval.
  ghost function Consumptions(b: Book, commands: seq<Command>, id: string): nat {
    if commands == [] then 0
    else
      var front, last := commands[..|commands| - 1], commands[|commands| - 1];
      Consumptions(b, front, id)
      + if last.Consume? && last.id == id
           && ConsumeBook(RunBook(b, front), id, last.context, last.policyId, last.now).1 then 1 else 0
  }

  // An approval is used at most once, whatever else happens in between.
  lemma {:induction false} SingleUse(b: Book, commands: seq<Command>, id: string)
    ensures Consumptions(b, commands, id) <= 1
    ensures Consumptions(b, commands, id) == 1 ==>
              id in RunBook(b, commands) && RunBook(b, commands)[id].status == Consumed
  {
    if commands != [] {
      var front := commands[..|commands| - 1];
      SingleUse(b, front, id);
      if id in RunBook(b, front) {
        CommandEvolvesRecords(RunBook(b, front), commands[|commands| - 1], id);
      }
    }
  }

  // -------- The reviewer's page --------

  datatype UiReply = NotFound | Forbidden | Conflict | Decided(approval: Approval)

  function DecideBook(b: Book, id: string, status: Status, reviewer: string, comment: Option<string>,
                      now: nat, separation: bool): (Book, UiReply) {
    if id !in b then (b, NotFound)
    else if separation && status == Approved && reviewer == b[id].subject then (b, Forbidden)
    else
      var (after, reply) := SetStatusBook(b, id, status, Some(reviewer), comment, now);
      (after, match reply
              case Updated(a) => Decided(a)
              case InvalidTransition => Conflict
              case _ => NotFound)
  }

  method Decide(store: SqliteApprovalStore, id: string, status: Status, reviewer: string,
                comment: Option<string>, now: nat, separation: bool) returns (r: UiReply)
    requires store.Valid()
    modifies store
    ensures store.Valid()
    ensures (store.Records(), r) == DecideBook(old(store.Records()), id, status, reviewer, comment, now, separation)
  {
    hide IsoFormat, SetStatusBook, TableOf, ValidRows;
    var approval := store.GetOne(id);
    if approval == None { return NotFound; }
    if separation && status == Approved && reviewer == approval.value.subject { return Forbidden; }
    var reply := store.ChangeStatus(id, status, Some(reviewer), comment, now);
    match reply
    case Updated(a) => r := Decided(a);
    case InvalidTransition => r := Conflict;
    case _ => r := NotFound;
  }

  // The page reads the record before it decides. Whatever ran in between, the requester it
  // compares with is still the right one.
  lemma EarlierReadSuffices(b: Book, between: seq<Command>, id: string)
    requires id in b
    ensures id in RunBook(b, between) && RunBook(b, between)[id].subject == b[id].subject
  {
    RunDescends(b, between);
  }

  datatype UiCommand =
    | Request(context: RequestContext, policyId: string, id: string, at: Moment, ttl: nat)
    | Review(id: string, status: Status, reviewer: string, comment: Option<string>, now: nat)
    | Use(id: string, context: RequestContext, policyId: string, now: nat)

  function UiAfter(b: Book, c: UiCommand): Book {
    match c
    case Request(context, policyId, id, at, ttl) => After(b, Create(context, policyId, id, at, ttl))
    case Review(id, status, reviewer, comment, now) => DecideBook(b, id, status, reviewer, comment, now, true).0
    case Use(id, context, policyId, now) => ConsumeBook(b, id, context, policyId, now).0
  }

  function UiRun(b: Book, commands: seq<UiCommand>): Book {
    if commands == [] then b else UiAfter(UiRun(b, commands[..|commands| - 1]), commands[|commands| - 1])
  }

  predicate NotSelfApproved(a: Approval) {
    a.status == Approved || a.status == Consumed ==> a.decidedBy.Some? && a.decidedBy.value != a.subject
  }

  lemma UiStepKeepsSeparation(b: Book, c: UiCommand)
    requires forall id | id in b :: NotSelfApproved(b[id])
    ensures forall id | id in UiAfter(b, c) :: NotSelfApproved(UiAfter(b, c)[id])
  {
    forall id | id in UiAfter(b, c) ensures NotSelfApproved(UiAfter(b, c)[id]) {
      if id in b { assert NotSelfApproved(b[id]); }
    }
  }

  // When every decision goes through the page, nobody's request was let through by themselves.
  lemma {:induction false} SeparationOfDuties(commands: seq<UiCommand>)
    ensures forall id | id in UiRun(map[], commands) :: NotSelfApproved(UiRun(map[], commands)[id])
  {
    if commands != [] {
      SeparationOfDuties(commands[..|commands| - 1]);
      UiStepKeepsSeparation(UiRun(map[], commands[..|commands| - 1]), commands[|commands| - 1]);
    }
  }
}
