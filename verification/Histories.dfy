// What is exported verifies: the store appends observer reports so that the history it holds is
// always one the verifier accepts.
module Histories {
  import opened Wrappers
  import opened Documents
  import opened Store
  import opened Checks
  import S = StoreSafety
  import V = Verify

  // A report that some run of check_refund made, for whatever bundle, request and provider.
  ghost predicate FromCheck(document: SignedObservation, trust: V.TrustStore, observers: ObserverTrust) {
    exists bundle, request, config, previous, drawn, read, hex ::
      CheckRefund(bundle, request, trust, config, observers, previous, drawn, read, hex) == Success(document)
  }

  ghost predicate OnlyChecks(actions: seq<S.Action>, trust: V.TrustStore, observers: ObserverTrust) {
    forall i | 0 <= i < |actions| && actions[i].DoAppend? :: FromCheck(actions[i].document, trust, observers)
  }

  // The history of an operation stands behind the bundle it has now.
  predicate Stands(t: Tables, o: string, trust: V.TrustStore, observers: ObserverTrust) {
    var rows := History(t.observations, o);
    |rows| <= 256
    && (rows != [] ==> o in t.operations && RowsStand(rows, t.operations[o].bundle, trust, observers))
  }

  predicate RowsStand(rows: seq<ObservationRow>, bundle: Bundle, trust: V.TrustStore, observers: ObserverTrust) {
    && EvidenceVerdict(bundle, trust, None, None).claim == V.DestinationCommitAttested
    && EvidenceVerdict(bundle, trust, None, None).rejection.None?
    && bundle.receipt.Some? && bundle.receipt.value.payload.effect == Committed
    && forall i | 0 <= i < |rows| :: RowStands(rows, i, bundle, trust, observers)
  }

  predicate RowStands(rows: seq<ObservationRow>, i: nat, bundle: Bundle, trust: V.TrustStore, observers: ObserverTrust)
    requires i < |rows|
  {
    && rows[i].digest == ObservationDigest(rows[i].document)
    && Sound(bundle, rows[i].document, trust, observers)
    && rows[i].document.payload.previousDigest == if i == 0 then None else Some(rows[i - 1].digest)
  }

  lemma CheckedReportIsSound(bundle: Bundle, document: SignedObservation, trust: V.TrustStore, observers: ObserverTrust)
    requires FromCheck(document, trust, observers) && document.payload.evidenceDigest == CheckedBundleDigest(bundle)
    ensures Sound(bundle, document, trust, observers)
  {
    hide CheckRefund, Sound;
    var made, request, config, previous, drawn, read, hex :|
      CheckRefund(made, request, trust, config, observers, previous, drawn, read, hex) == Success(document);
    CheckIsSound(made, request, trust, config, observers, previous, drawn, read, hex);
    SoundForOneBundle(made, bundle, document, trust, observers);
  }

  lemma SoundForOneBundle(made: Bundle, bundle: Bundle, document: SignedObservation, trust: V.TrustStore,
                          observers: ObserverTrust)
    requires Sound(made, document, trust, observers) && document.payload.evidenceDigest == CheckedBundleDigest(bundle)
    ensures made == bundle
  {
    hide EvidenceVerdict, ReportError;
  }

  lemma HistoryAfterAppend(rows: seq<ObservationRow>, row: ObservationRow, o: string)
    ensures History(rows + [row], o) == if row.operation == o then History(rows, o) + [row] else History(rows, o)
  {
    assert (rows + [row])[..|rows|] == rows;
  }

  lemma AppendedRowsStand(rows: seq<ObservationRow>, row: ObservationRow, bundle: Bundle, trust: V.TrustStore,
                          observers: ObserverTrust)
    requires rows != [] ==> RowsStand(rows, bundle, trust, observers)
    requires row.digest == ObservationDigest(row.document) && Sound(bundle, row.document, trust, observers)
    requires row.document.payload.previousDigest == if rows == [] then None else Some(rows[|rows| - 1].digest)
    ensures RowsStand(rows + [row], bundle, trust, observers)
  {
    hide EvidenceVerdict, ReportError, ValidObservation;
    forall i | 0 <= i < |rows + [row]| ensures RowStands(rows + [row], i, bundle, trust, observers) {
      if i < |rows| { assert RowStands(rows, i, bundle, trust, observers); }
    }
  }

  lemma AppendKeepsHistories(t: Tables, a: S.Action, o: string, trust: V.TrustStore, observers: ObserverTrust)
    requires a.DoAppend? && FromCheck(a.document, trust, observers) && Stands(t, o, trust, observers)
    ensures Stands(S.Next(t, a), o, trust, observers)
  {
    hide FromCheck, RowsStand, Sound, ValidObservation, AppendObservation;
    S.AppendShape(t, a.operation, a.tenant, a.document, a.eventId);
    var (u, r) := AppendObservation(t, a.operation, a.tenant, a.document, a.eventId);
    if r.Success? {
      var row := ObservationRow(a.operation, ObservationDigest(a.document), a.document);
      HistoryAfterAppend(t.observations, row, o);
      if a.operation == o {
        CheckedReportIsSound(t.operations[o].bundle, a.document, trust, observers);
        AppendedRowsStand(History(t.observations, o), row, t.operations[o].bundle, trust, observers);
      }
    }
  }

  // Any other step leaves the reports alone, and cannot touch a committed receipt.
  lemma OthersKeepHistories(t: Tables, a: S.Action, o: string, trust: V.TrustStore, observers: ObserverTrust)
    requires !a.DoAppend? && S.ValidTables(t) && Stands(t, o, trust, observers)
    ensures Stands(S.Next(t, a), o, trust, observers)
  {
    hide RowsStand, S.ValidTables;
    ObservationsStay(t, a);
    if History(t.observations, o) != [] {
      CommittedBundleStays(t, a, o, trust, observers);
    }
  }

  lemma ObservationsStay(t: Tables, a: S.Action)
    requires !a.DoAppend?
    ensures S.Next(t, a).observations == t.observations
  {
    match a
    case DoReserve(bundle, scope, fingerprint, consume, eventId) =>
      S.ReserveShape(t, bundle, scope, fingerprint, consume, eventId);
    case DoRecord(operation, tenant, phase, receipt, eventId, conflictId) =>
      S.RecordShape(t, operation, tenant, phase, receipt, eventId, conflictId);
    case _ =>
  }

  lemma CommittedBundleStays(t: Tables, a: S.Action, o: string, trust: V.TrustStore, observers: ObserverTrust)
    requires S.ValidTables(t) && o in t.operations
    requires RowsStand(History(t.observations, o), t.operations[o].bundle, trust, observers)
    ensures o in S.Next(t, a).operations && S.Next(t, a).operations[o] == t.operations[o]
  {
    hide S.ValidTables, S.Next, EvidenceVerdict;
    S.Step(t, a);
    assert S.RowAdvances(t.operations[o], S.Next(t, a).operations[o]);
  }

  lemma {:induction false} HistoriesStand(actions: seq<S.Action>, trust: V.TrustStore, observers: ObserverTrust,
                                          o: string)
    requires OnlyChecks(actions, trust, observers)
    ensures Stands(S.Run(EMPTY, actions), o, trust, observers)
  {
    hide S.Next, Stands, FromCheck, S.ValidTables, S.Advances;
    if actions == [] {
      NothingObserved(trust, observers, o);
    } else {
      var front, last := actions[..|actions| - 1], actions[|actions| - 1];
      HistoriesStand(front, trust, observers, o);
      S.EmptyIsValid();
      S.RunAdvances(EMPTY, front);
      if last.DoAppend? {
        AppendKeepsHistories(S.Run(EMPTY, front), last, o, trust, observers);
      } else {
        OthersKeepHistories(S.Run(EMPTY, front), last, o, trust, observers);
      }
    }
  }

  lemma NothingObserved(trust: V.TrustStore, observers: ObserverTrust, o: string)
    ensures Stands(EMPTY, o, trust, observers)
  {
  }

  lemma StandingRowsVerify(rows: seq<ObservationRow>, bundle: Bundle, trust: V.TrustStore, observers: ObserverTrust)
    requires |rows| <= 256 && (rows != [] ==> RowsStand(rows, bundle, trust, observers))
    ensures Verifies(CheckedBundle(bundle, Reports(rows)), trust, observers, None, None)
       <==> EvidenceVerdict(bundle, trust, None, None).rejection.None?
  {
    hide EvidenceVerdict, ReportError, ValidObservation;
    var documents := Reports(rows);
    forall i | 0 <= i < |rows|
      ensures ValidObservation(documents[i].payload)
      ensures ReportError(bundle, EvidenceVerdict(bundle, trust, None, None).claim, documents[i],
                          Predecessor(documents, i), observers, trust).None?
    {
      assert RowStands(rows, i, bundle, trust, observers);
      if i > 0 { assert RowStands(rows, i - 1, bundle, trust, observers); }
    }
  }

  // In every reachable state an unconflicted operation exports a history that verifies: observer
  // reports never cause a rejection.
  lemma ExportVerifies(actions: seq<S.Action>, trust: V.TrustStore, observers: ObserverTrust, o: string, tenant: string)
    requires OnlyChecks(actions, trust, observers)
    requires Get(S.Run(EMPTY, actions), o, tenant).Success?
    ensures var t := S.Run(EMPTY, actions);
      Verifies(CheckedBundleOf(t, t, o, tenant).value, trust, observers, None, None)
      <==> EvidenceVerdict(t.operations[o].bundle, trust, None, None).rejection.None?
  {
    hide S.Run, RowsStand, Verifies, EvidenceVerdict;
    HistoriesStand(actions, trust, observers, o);
    var t := S.Run(EMPTY, actions);
    StandingRowsVerify(History(t.observations, o), t.operations[o].bundle, trust, observers);
  }

  // -------- An export is two reads --------

  lemma {:induction false} RunsJoin(t: Tables, before: seq<S.Action>, after: seq<S.Action>)
    ensures S.Run(t, before + after) == S.Run(S.Run(t, before), after)
  {
    hide S.Next;
    if after == [] {
      assert before + after == before;
    } else {
      var n := |before + after|;
      assert (before + after)[..n - 1] == before + after[..|after| - 1];
      RunsJoin(t, before, after[..|after| - 1]);
    }
  }

  lemma MismatchedBundle(rows: seq<ObservationRow>, made: Bundle, bundle: Bundle, trust: V.TrustStore,
                         observers: ObserverTrust)
    requires rows != [] && RowsStand(rows, made, trust, observers) && made != bundle
    ensures !Verifies(CheckedBundle(bundle, Reports(rows)), trust, observers, None, None)
  {
    hide EvidenceVerdict, KeyOf, ValidObservation;
    assert RowStands(rows, 0, made, trust, observers);
    var documents := Reports(rows);
    assert ReportError(bundle, EvidenceVerdict(bundle, trust, None, None).claim, documents[0],
                       Predecessor(documents, 0), observers, trust).Some?;
  }

  // The bundle is read before the reports. With transactions in between, the export verifies if
  // and only if there are no reports yet or the commit receipt was already there at the first read.
  lemma ExportAcrossTwoReads(before: seq<S.Action>, after: seq<S.Action>, trust: V.TrustStore, observers: ObserverTrust,
                             o: string, tenant: string)
    requires OnlyChecks(before + after, trust, observers)
    requires Get(S.Run(EMPTY, before), o, tenant).Success?
    ensures var t := S.Run(EMPTY, before); var u := S.Run(t, after); var bundle := t.operations[o].bundle;
      Verifies(CheckedBundleOf(t, u, o, tenant).value, trust, observers, None, None)
      <==> (EvidenceVerdict(bundle, trust, None, None).rejection.None?
            && (History(u.observations, o) == [] || HasCommitReceipt(bundle)))
  {
    hide S.Run, RowsStand, Verifies, EvidenceVerdict, S.ValidTables, OnlyChecks, S.RowAdvances;
    var t := S.Run(EMPTY, before);
    var u := S.Run(t, after);
    RunsJoin(EMPTY, before, after);
    HistoriesStand(before + after, trust, observers, o);
    S.EmptyIsValid();
    S.RunAdvances(EMPTY, before);
    S.RunAdvances(t, after);
    var rows := History(u.observations, o);
    if rows == [] {
      StandingRowsVerify(rows, t.operations[o].bundle, trust, observers);
    } else {
      CommitReceiptSettles(rows, t.operations[o], u.operations[o], trust, observers);
      if HasCommitReceipt(t.operations[o].bundle) {
        StandingRowsVerify(rows, t.operations[o].bundle, trust, observers);
      } else {
        MismatchedBundle(rows, u.operations[o].bundle, t.operations[o].bundle, trust, observers);
      }
    }
  }

  predicate HasCommitReceipt(bundle: Bundle) {
    bundle.receipt.Some? && bundle.receipt.value.payload.effect == Committed
  }

  lemma CommitReceiptSettles(rows: seq<ObservationRow>, before: Operation, now: Operation, trust: V.TrustStore,
                             observers: ObserverTrust)
    requires S.RowAdvances(before, now) && RowsStand(rows, now.bundle, trust, observers)
    ensures HasCommitReceipt(before.bundle) <==> before.bundle == now.bundle
  {
    hide EvidenceVerdict;
  }
}
