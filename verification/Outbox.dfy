// Delivery of the evidence log to an external sink (EvidenceStore.flush): overlapping flushes,
// sinks that fail, and crashes, between the other transactions of the store.
module Outbox {
  import opened Wrappers
  import opened Store
  import S = StoreSafety

  // A flush under way: the rows it read and how many of them it has emitted.
  datatype Flush = Flush(rows: seq<nat>, next: nat)

  // `sink` is everything that was ever emitted, by event id.
  datatype State = State(tables: Tables, sink: seq<string>, flushes: map<nat, Flush>)

  const START := State(EMPTY, [], map[])

  datatype Action =
    | Transact(transaction: S.Action)
    | Begin(flush: nat)
    | Emit(flush: nat)
    | Commit(flush: nat)
    | Abort(flush: nat, reached: bool)

  predicate Emitting(s: State, f: nat) {
    f in s.flushes && s.flushes[f].next < |s.flushes[f].rows|
      && s.flushes[f].rows[s.flushes[f].next] < |s.tables.events|
  }

  function Reach(s: State, f: nat): seq<string>
    requires Emitting(s, f)
  {
    s.sink + [s.tables.events[s.flushes[f].rows[s.flushes[f].next]].eventId]
  }

  // Marks are made by flushes alone. A failed or interrupted flush keeps what the sink already has
  // and nothing else.
  function Next(s: State, a: Action): State {
    match a
    case Transact(transaction) =>
      if transaction.DoDeliver? then s else s.(tables := S.Next(s.tables, transaction))
    case Begin(f) => if f in s.flushes then s else s.(flushes := s.flushes[f := Flush(Batch(s.tables.events), 0)])
    case Emit(f) =>
      if Emitting(s, f) then
        s.(sink := Reach(s, f), flushes := s.flushes[f := Flush(s.flushes[f].rows, s.flushes[f].next + 1)])
      else s
    case Commit(f) =>
      if f in s.flushes && s.flushes[f].next == |s.flushes[f].rows| then
        s.(tables := S.Next(s.tables, S.DoDeliver(Rows(s.flushes[f].rows))), flushes := s.flushes - {f})
      else s
    case Abort(f, reached) =>
      s.(sink := if reached && Emitting(s, f) then Reach(s, f) else s.sink, flushes := s.flushes - {f})
  }

  function Run(s: State, actions: seq<Action>): State {
    if actions == [] then s else Next(Run(s, actions[..|actions| - 1]), actions[|actions| - 1])
  }

  // -------- What the sink makes of repeated events --------

  function Firsts(ids: seq<string>): seq<string> {
    if ids == [] then []
    else
      var firsts := Firsts(ids[..|ids| - 1]);
      if ids[|ids| - 1] in firsts then firsts else firsts + [ids[|ids| - 1]]
  }

  lemma FirstsAfter(ids: seq<string>, id: string)
    ensures Firsts(ids + [id]) == if id in Firsts(ids) then Firsts(ids) else Firsts(ids) + [id]
  {
    assert (ids + [id])[..|ids|] == ids;
  }

  function Ids(events: seq<Event>): (ids: seq<string>)
    ensures |ids| == |events| && forall i | 0 <= i < |events| :: ids[i] == events[i].eventId
  {
    seq(|events|, i requires 0 <= i < |events| => events[i].eventId)
  }

  // -------- The invariant --------

  predicate DeliveredUpTo(events: seq<Event>, k: nat) {
    k <= |events| && forall i | 0 <= i < |events| :: events[i].delivered <==> i < k
  }

  // A flush works through consecutive rows from an undelivered one on, and never ahead of the sink.
  predicate InOrder(f: Flush, k: nat, m: nat, n: nat) {
    && f.next <= |f.rows|
    && (forall j | 0 <= j < |f.rows| :: f.rows[j] < n && f.rows[j] == f.rows[0] + j)
    && (f.rows != [] ==> f.rows[0] <= k)
    && (forall j | 0 <= j < f.next :: f.rows[j] < m)
  }

  predicate Inv(s: State, k: nat, m: nat) {
    && S.ValidTables(s.tables) && DeliveredUpTo(s.tables.events, k) && k <= m <= |s.tables.events|
    && Firsts(s.sink) == Ids(s.tables.events)[..m]
    && forall f | f in s.flushes :: InOrder(s.flushes[f], k, m, |s.tables.events|)
  }

  lemma {:induction false} UndeliveredIsTail(events: seq<Event>, k: nat)
    requires DeliveredUpTo(events, k)
    ensures |Undelivered(events)| == |events| - k
    ensures forall j | 0 <= j < |events| - k :: Undelivered(events)[j] == k + j
  {
    if events != [] {
      var n := |events| - 1;
      assert forall i | 0 <= i < n :: events[..n][i] == events[i];
      UndeliveredIsTail(events[..n], if k <= n then k else n);
      assert events[n].delivered <==> n < k;
      assert Undelivered(events) == Undelivered(events[..n]) + if n < k then [] else [n];
    }
  }

  lemma BatchIsNext(events: seq<Event>, k: nat)
    requires DeliveredUpTo(events, k)
    ensures var rows := Batch(events);
      && |rows| == (if |events| - k <= BATCH then |events| - k else BATCH)
      && forall j | 0 <= j < |rows| :: rows[j] == k + j
  {
    UndeliveredIsTail(events, k);
  }

  lemma MarkedPrefix(events: seq<Event>, rows: seq<nat>, k: nat)
    requires DeliveredUpTo(events, k)
    requires forall j | 0 <= j < |rows| :: rows[j] < |events| && rows[j] == rows[0] + j
    requires rows != [] ==> rows[0] <= k
    ensures DeliveredUpTo(Marked(events, Rows(rows)),
                          if rows != [] && rows[0] + |rows| > k then rows[0] + |rows| else k)
  {
    if rows != [] { assert rows[|rows| - 1] == rows[0] + |rows| - 1; }
    forall i | k <= i < |events| ensures i in Rows(rows) <==> rows != [] && i < rows[0] + |rows| {
      if rows != [] && i < rows[0] + |rows| { assert rows[i - rows[0]] == i; }
    }
  }

  lemma DistinctOf(t: Tables)
    requires S.ValidTables(t)
    ensures S.DistinctEvents(t.events)
  {
  }

  lemma NextRow(f: Flush, k: nat, m: nat, n: nat)
    requires InOrder(f, k, m, n) && k <= m && f.next < |f.rows|
    ensures f.rows[f.next] <= m
  {
    if f.next > 0 { assert f.rows[f.next - 1] < m; }
  }

  lemma ReachKeeps(s: State, f: nat, k: nat, m: nat) returns (m': nat)
    requires Inv(s, k, m) && Emitting(s, f)
    ensures m <= m' <= |s.tables.events| && Firsts(Reach(s, f)) == Ids(s.tables.events)[..m']
    ensures s.flushes[f].rows[s.flushes[f].next] < m'
  {
    hide S.ValidTables, DeliveredUpTo, InOrder;
    var flush := s.flushes[f];
    var row := flush.rows[flush.next];
    var id := s.tables.events[row].eventId;
    FirstsAfter(s.sink, id);
    NextRow(flush, k, m, |s.tables.events|);
    if row < m {
      assert Ids(s.tables.events)[..m][row] == id;
      m' := m;
    } else {
      assert S.DistinctEvents(s.tables.events) by { DistinctOf(s.tables); }
      forall i | 0 <= i < m ensures Ids(s.tables.events)[..m][i] != id {
        assert s.tables.events[i].eventId != s.tables.events[m].eventId;
      }
      m' := m + 1;
    }
  }

  lemma FlushesStay(flushes: map<nat, Flush>, k: nat, m: nat, n: nat, k': nat, m': nat, n': nat)
    requires forall f | f in flushes :: InOrder(flushes[f], k, m, n)
    requires k <= k' && m <= m' && n <= n'
    ensures forall f | f in flushes :: InOrder(flushes[f], k', m', n')
  {
    forall f | f in flushes ensures InOrder(flushes[f], k', m', n') { assert InOrder(flushes[f], k, m, n); }
  }

  // Whatever a transaction but a delivery adds to the log, it adds at the end and undelivered.
  lemma OthersAppend(t: Tables, a: S.Action)
    requires !a.DoDeliver?
    ensures var events := S.Next(t, a).events;
      t.events <= events && forall i | |t.events| <= i < |events| :: !events[i].delivered
  {
    hide Reserve, Record, AppendObservation;
    match a
    case DoReserve(bundle, scope, fingerprint, consume, eventId) =>
      S.ReserveShape(t, bundle, scope, fingerprint, consume, eventId);
    case DoRecord(operation, tenant, phase, receipt, eventId, conflictId) =>
      S.RecordShape(t, operation, tenant, phase, receipt, eventId, conflictId);
    case DoAppend(operation, tenant, document, eventId) => S.AppendShape(t, operation, tenant, document, eventId);
    case DoApproval(command) =>
  }

  lemma TransactStep(s: State, a: S.Action, k: nat, m: nat)
    requires Inv(s, k, m)
    ensures Inv(Next(s, Transact(a)), k, m)
  {
    hide S.Next, S.ValidTables;
    var v := Next(s, Transact(a));
    if !a.DoDeliver? {
      OthersAppend(s.tables, a);
      S.Step(s.tables, a);
      FlushesStay(s.flushes, k, m, |s.tables.events|, k, m, |v.tables.events|);
      assert Ids(v.tables.events)[..m] == Ids(s.tables.events)[..m];
    }
  }

  lemma EmitStep(s: State, f: nat, k: nat, m: nat) returns (m': nat)
    requires Inv(s, k, m)
    ensures Inv(Next(s, Emit(f)), k, m')
  {
    m' := m;
    if Emitting(s, f) {
      m' := ReachKeeps(s, f, k, m);
      FlushesStay(s.flushes, k, m, |s.tables.events|, k, m', |s.tables.events|);
    }
  }

  lemma AbortStep(s: State, f: nat, reached: bool, k: nat, m: nat) returns (m': nat)
    requires Inv(s, k, m)
    ensures Inv(Next(s, Abort(f, reached)), k, m')
  {
    m' := m;
    if reached && Emitting(s, f) { m' := ReachKeeps(s, f, k, m); }
    FlushesStay(s.flushes, k, m, |s.tables.events|, k, m', |s.tables.events|);
  }

  lemma CommitStep(s: State, f: nat, k: nat, m: nat) returns (k': nat)
    requires Inv(s, k, m)
    ensures Inv(Next(s, Commit(f)), k', m)
  {
    k' := k;
    if f in s.flushes && s.flushes[f].next == |s.flushes[f].rows| {
      var rows := s.flushes[f].rows;
      assert InOrder(s.flushes[f], k, m, |s.tables.events|);
      S.Step(s.tables, S.DoDeliver(Rows(rows)));
      MarkedPrefix(s.tables.events, rows, k);
      if rows != [] && rows[0] + |rows| > k {
        k' := rows[0] + |rows|;
        assert rows[|rows| - 1] < m;
      }
      var v := Next(s, Commit(f));
      assert Ids(v.tables.events) == Ids(s.tables.events);
      FlushesStay(s.flushes, k, m, |s.tables.events|, k', m, |s.tables.events|);
    }
  }

  lemma Step(s: State, a: Action, k: nat, m: nat) returns (k': nat, m': nat)
    requires Inv(s, k, m)
    ensures Inv(Next(s, a), k', m')
  {
    k', m' := k, m;
    match a
    case Transact(transaction) => TransactStep(s, transaction, k, m);
    case Begin(f) => BatchIsNext(s.tables.events, k);
    case Emit(f) => m' := EmitStep(s, f, k, m);
    case Commit(f) => k' := CommitStep(s, f, k, m);
    case Abort(f, reached) => m' := AbortStep(s, f, reached, k, m);
  }

  lemma {:induction false} RunKeeps(actions: seq<Action>) returns (k: nat, m: nat)
    ensures Inv(Run(START, actions), k, m)
  {
    hide Next, Inv;
    if actions == [] {
      k, m := 0, 0;
      StartIsInOrder();
    } else {
      k, m := RunKeeps(actions[..|actions| - 1]);
      k, m := Step(Run(START, actions[..|actions| - 1]), actions[|actions| - 1], k, m);
    }
  }

  lemma StartIsInOrder()
    ensures Inv(START, 0, 0)
  {
  }

  // What flushes do to the tables, however interrupted, is a run of store transactions, so
  // everything proved of such runs holds with flushes in between.
  lemma {:induction false} TablesAreTheStores(actions: seq<Action>) returns (trace: seq<S.Action>)
    ensures S.Run(EMPTY, trace) == Run(START, actions).tables
  {
    hide Next, S.Next;
    if actions == [] {
      trace := [];
    } else {
      trace := TablesAreTheStores(actions[..|actions| - 1]);
      var step := TransactionOf(Run(START, actions[..|actions| - 1]), actions[|actions| - 1]);
      if step.Some? {
        assert (trace + [step.value])[..|trace|] == trace;
        trace := trace + [step.value];
      }
    }
  }

  lemma TransactionOf(s: State, a: Action) returns (step: Option<S.Action>)
    ensures Next(s, a).tables == if step.Some? then S.Next(s.tables, step.value) else s.tables
  {
    hide S.Next;
    step := match a
      case Transact(transaction) => if transaction.DoDeliver? then None else Some(transaction)
      case Commit(f) => if f in s.flushes then Some(S.DoDeliver(Rows(s.flushes[f].rows))) else None
      case _ => None;
    if Next(s, a).tables == s.tables { step := None; }
  }

  // Delivered rows are always a prefix of the log. What the sink holds, repetitions removed, is a
  // prefix of the log too, and it includes everything marked delivered.
  lemma DeliveryFollowsTheLog(actions: seq<Action>)
    ensures var s := Run(START, actions);
      && (exists k :: DeliveredUpTo(s.tables.events, k))
      && Firsts(s.sink) <= Ids(s.tables.events)
      && forall i | 0 <= i < |s.tables.events| && s.tables.events[i].delivered :: s.tables.events[i].eventId in s.sink
  {
    var k, m := RunKeeps(actions);
    var s := Run(START, actions);
    forall i | 0 <= i < |s.tables.events| && s.tables.events[i].delivered ensures s.tables.events[i].eventId in s.sink {
      assert Ids(s.tables.events)[..m][i] == s.tables.events[i].eventId;
      FirstsAreMembers(s.sink, s.tables.events[i].eventId);
    }
  }

  lemma {:induction false} FirstsAreMembers(ids: seq<string>, id: string)
    ensures id in Firsts(ids) <==> id in ids
  {
    if ids != [] {
      FirstsAreMembers(ids[..|ids| - 1], id);
      assert ids == ids[..|ids| - 1] + [ids[|ids| - 1]];
    }
  }

  // -------- A flush nobody interrupts --------

  function Emits(f: nat, n: nat): seq<Action> {
    if n == 0 then [] else Emits(f, n - 1) + [Emit(f)]
  }

  lemma RunThen(s: State, actions: seq<Action>, a: Action)
    ensures Run(s, actions + [a]) == Next(Run(s, actions), a)
  {
    assert (actions + [a])[..|actions|] == actions;
  }

  lemma {:induction false} EmitsInOrder(s: State, f: nat, n: nat)
    requires f in s.flushes && s.flushes[f].next == 0 && n <= |s.flushes[f].rows|
    requires forall j | 0 <= j < |s.flushes[f].rows| :: s.flushes[f].rows[j] < |s.tables.events|
    ensures var rows := s.flushes[f].rows;
      Run(s, Emits(f, n))
      == s.(sink := s.sink + Ids(Picked(s.tables.events, rows[..n])), flushes := s.flushes[f := Flush(rows, n)])
  {
    hide Next;
    var rows := s.flushes[f].rows;
    if n == 0 {
      assert s.flushes[f := Flush(rows, 0)] == s.flushes;
      assert s.sink + Ids(Picked(s.tables.events, rows[..0])) == s.sink;
    } else {
      EmitsInOrder(s, f, n - 1);
      RunThen(s, Emits(f, n - 1), Emit(f));
      EmitOnce(s, f, s.sink + Ids(Picked(s.tables.events, rows[..n - 1])), n - 1);
      IdsGrow(s.sink, s.tables.events, rows, n - 1);
    }
  }

  lemma EmitOnce(s: State, f: nat, sink: seq<string>, n: nat)
    requires f in s.flushes && n < |s.flushes[f].rows| && s.flushes[f].rows[n] < |s.tables.events|
    ensures var rows := s.flushes[f].rows;
      Next(s.(sink := sink, flushes := s.flushes[f := Flush(rows, n)]), Emit(f))
      == s.(sink := sink + [s.tables.events[rows[n]].eventId], flushes := s.flushes[f := Flush(rows, n + 1)])
  {
    var rows := s.flushes[f].rows;
    assert s.flushes[f := Flush(rows, n)][f := Flush(rows, n + 1)] == s.flushes[f := Flush(rows, n + 1)];
  }

  lemma IdsGrow(sink: seq<string>, events: seq<Event>, rows: seq<nat>, n: nat)
    requires n < |rows| && forall j | 0 <= j < |rows| :: rows[j] < |events|
    ensures sink + Ids(Picked(events, rows[..n + 1])) == sink + Ids(Picked(events, rows[..n]))
      + [events[rows[n]].eventId]
  {
    PickOne(events, rows, n);
    assert Ids(Picked(events, rows[..n + 1])) == Ids(Picked(events, rows[..n])) + [events[rows[n]].eventId];
  }

  lemma BeginAndCommit(s: State, f: nat, rows: seq<nat>, sink: seq<string>)
    requires f !in s.flushes && rows == Batch(s.tables.events)
    ensures Next(s, Begin(f)) == s.(flushes := s.flushes[f := Flush(rows, 0)])
    ensures Next(s.(sink := sink, flushes := s.flushes[f := Flush(rows, |rows|)]), Commit(f))
         == s.(tables := s.tables.(events := Marked(s.tables.events, Rows(rows))), sink := sink)
  {
    hide Batch;
    assert s.flushes[f := Flush(rows, |rows|)] - {f} == s.flushes;
  }

  // It does what `EvidenceStore.Flush` says of a flush that succeeds.
  lemma UndisturbedFlush(s: State, f: nat)
    requires f !in s.flushes
    ensures var rows := Batch(s.tables.events);
      Run(Next(s, Begin(f)), Emits(f, |rows|) + [Commit(f)])
      == s.(tables := s.tables.(events := Marked(s.tables.events, Rows(rows))),
            sink := s.sink + Ids(Picked(s.tables.events, rows)))
  {
    hide Batch, Marked, Run, Next;
    var rows := Batch(s.tables.events);
    BeginAndCommit(s, f, rows, s.sink + Ids(Picked(s.tables.events, rows)));
    var begun := Next(s, Begin(f));
    EmitsInOrder(begun, f, |rows|);
    RunThen(begun, Emits(f, |rows|), Commit(f));
    assert rows[..|rows|] == rows;
    assert s.flushes[f := Flush(rows, 0)][f := Flush(rows, |rows|)] == s.flushes[f := Flush(rows, |rows|)];
  }

  // And one that fails at a row, whether the sink got that row or not, does what the method says then.
  lemma FailedFlush(s: State, f: nat, row: nat, reached: bool)
    requires f !in s.flushes && row < |Batch(s.tables.events)|
    ensures var rows := Batch(s.tables.events);
      Run(Next(s, Begin(f)), Emits(f, row) + [Abort(f, reached)])
      == s.(sink := s.sink + Ids(Picked(s.tables.events, rows[..row + if reached then 1 else 0])))
  {
    hide Batch, Run, Next;
    var rows := Batch(s.tables.events);
    var begun := Next(s, Begin(f));
    BeginAndCommit(s, f, rows, s.sink);
    EmitsInOrder(begun, f, row);
    RunThen(begun, Emits(f, row), Abort(f, reached));
    AbortOnce(s, f, rows, row, s.sink + Ids(Picked(s.tables.events, rows[..row])), reached);
    IdsGrow(s.sink, s.tables.events, rows, row);
    assert s.flushes[f := Flush(rows, 0)][f := Flush(rows, row)] == s.flushes[f := Flush(rows, row)];
  }

  lemma AbortOnce(s: State, f: nat, rows: seq<nat>, row: nat, sink: seq<string>, reached: bool)
    requires f !in s.flushes && row < |rows| && rows[row] < |s.tables.events|
    ensures Next(s.(sink := sink, flushes := s.flushes[f := Flush(rows, row)]), Abort(f, reached))
         == s.(sink := if reached then sink + [s.tables.events[rows[row]].eventId] else sink)
  {
    assert s.flushes[f := Flush(rows, row)] - {f} == s.flushes;
  }

  // -------- Successful flushes finish --------

  function AfterFlushes(events: seq<Event>, n: nat): seq<Event> {
    if n == 0 then events
    else var earlier := AfterFlushes(events, n - 1); Marked(earlier, Rows(Batch(earlier)))
  }

  lemma OneFlush(events: seq<Event>, k: nat)
    requires DeliveredUpTo(events, k)
    ensures DeliveredUpTo(Marked(events, Rows(Batch(events))), Progress(|events|, k, 1))
  {
    BatchIsNext(events, k);
    MarkedPrefix(events, Batch(events), k);
  }

  // How far n batches get from row k on.
  function Progress(total: nat, k: nat, n: nat): nat {
    if n == 0 then k
    else var earlier := Progress(total, k, n - 1); if total - earlier <= BATCH then total else earlier + BATCH
  }

  lemma {:induction false} ProgressInClosedForm(total: nat, k: nat, n: nat)
    requires k <= total
    ensures Progress(total, k, n) == if total - k <= 1000 * n then total else k + 1000 * n
  {
    if n > 0 { ProgressInClosedForm(total, k, n - 1); }
  }

  lemma {:induction false} FlushesProgress(events: seq<Event>, k: nat, n: nat)
    requires DeliveredUpTo(events, k)
    ensures |AfterFlushes(events, n)| == |events|
    ensures DeliveredUpTo(AfterFlushes(events, n), Progress(|events|, k, n))
  {
    hide Batch, DeliveredUpTo, Undelivered;
    if n > 0 {
      FlushesProgress(events, k, n - 1);
      OneFlush(AfterFlushes(events, n - 1), Progress(|events|, k, n - 1));
      assert Progress(|events|, Progress(|events|, k, n - 1), 1) == Progress(|events|, k, n);
    }
  }

  // With no new events, n successful flushes deliver n batches of a thousand, until nothing is left.
  lemma FlushesFinish(events: seq<Event>, k: nat, n: nat)
    requires DeliveredUpTo(events, k)
    ensures DeliveredUpTo(AfterFlushes(events, n), if |events| - k <= 1000 * n then |events| else k + 1000 * n)
    ensures Undelivered(AfterFlushes(events, n)) == [] <==> |events| - k <= 1000 * n
  {
    FlushesProgress(events, k, n);
    ProgressInClosedForm(|events|, k, n);
    UndeliveredIsTail(AfterFlushes(events, n), Progress(|events|, k, n));
  }
}
