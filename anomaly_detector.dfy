// Anomaly reporting over shipment tracking rows: the severity of an
// outlier score, the classification of the row, the suggested actions,
// and the filtered, severity-ordered report. The outlier model itself
// (labels and scores per row) is an input.

module AnomalyDetection {
  import opened Common
  import opened StableSort

  datatype Severity = Critical | Warning | Info

  function SeverityName(s: Severity): string
  {
    match s
    case Critical => "CRITICAL"
    case Warning => "WARNING"
    case Info => "INFO"
  }

  /** Lower outlier scores are more anomalous. */
  function SeverityOf(score: real): Severity
  {
    if score < -0.5 then Critical
    else if score < -0.3 then Warning
    else Info
  }

  /** Position in the report: CRITICAL 0, WARNING 1, INFO 2. */
  function SeverityOrder(s: Severity): nat
  {
    match s
    case Critical => 0
    case Warning => 1
    case Info => 2
  }

  /** The thresholds, and a lower score never gives a milder severity. */
  lemma SeverityFacts(score: real, other: real)
    ensures SeverityOf(score) == Critical <==> score < -0.5
    ensures SeverityOf(score) == Warning <==> -0.5 <= score < -0.3
    ensures SeverityOf(score) == Info <==> score >= -0.3
    ensures score <= other ==> SeverityOrder(SeverityOf(score)) <= SeverityOrder(SeverityOf(other))
  {
  }

  lemma SeverityNamesDistinct(s: Severity, t: Severity)
    ensures SeverityName(s) == SeverityName(t) ==> s == t
  {
    assert |SeverityName(Critical)| == 8 && |SeverityName(Warning)| == 7 && |SeverityName(Info)| == 4;
  }

  /** One tracking row with the features the classifier reads. */
  datatype TrackingRow = TrackingRow(
    shipmentId: string, trackingNumber: string, checkpointCount: int,
    checkpointGapHours: real, etaDeviationHours: real, sequenceValid: bool, uniqueLocations: int)

  const MissingCheckpoints := "MISSING_CHECKPOINTS"
  const SignificantDelay := "SIGNIFICANT_DELAY"
  const InvalidSequence := "INVALID_SEQUENCE"
  const StuckInTransit := "STUCK_IN_TRANSIT"
  const UnknownPattern := "UNKNOWN_PATTERN"

  /** The first rule that matches: long checkpoint gap, then large ETA
      deviation (in absolute value, as the feature is), then an invalid
      sequence, then fewer than two locations. */
  function Classify(row: TrackingRow): string
  {
    if row.checkpointGapHours > 6.0 then MissingCheckpoints
    else if AbsReal(row.etaDeviationHours) > 4.0 then SignificantDelay
    else if !row.sequenceValid then InvalidSequence
    else if row.uniqueLocations < 2 then StuckInTransit
    else UnknownPattern
  }

  /** Each type is chosen exactly when its rule matches and no earlier one
      does. */
  lemma ClassifyPriority(row: TrackingRow)
    ensures Classify(row) == MissingCheckpoints <==> row.checkpointGapHours > 6.0
    ensures Classify(row) == SignificantDelay <==>
      row.checkpointGapHours <= 6.0 && AbsReal(row.etaDeviationHours) > 4.0
    ensures Classify(row) == InvalidSequence <==>
      row.checkpointGapHours <= 6.0 && AbsReal(row.etaDeviationHours) <= 4.0 && !row.sequenceValid
    ensures Classify(row) == StuckInTransit <==>
      row.checkpointGapHours <= 6.0 && AbsReal(row.etaDeviationHours) <= 4.0 && row.sequenceValid
      && row.uniqueLocations < 2
    ensures Classify(row) == UnknownPattern <==>
      row.checkpointGapHours <= 6.0 && AbsReal(row.etaDeviationHours) <= 4.0 && row.sequenceValid
      && row.uniqueLocations >= 2
  {
    TypeNamesDistinct();
  }

  lemma TypeNamesDistinct()
    ensures |MissingCheckpoints| == 19 && |SignificantDelay| == 17 && |InvalidSequence| == 16
    ensures |StuckInTransit| == 16 && |UnknownPattern| == 15
    ensures InvalidSequence[0] == 'I' && StuckInTransit[0] == 'S'
  {
    assert InvalidSequence == "INVALID_SEQUENCE";
    assert StuckInTransit == "STUCK_IN_TRANSIT";
  }

  const ActionTable: map<string, seq<string>> := map[
    MissingCheckpoints := ["Contact driver for location update", "Check last known GPS position", "Verify with route hub"],
    SignificantDelay := ["Notify customer of delay", "Check for route issues", "Consider expedited handling"],
    InvalidSequence := ["Verify checkpoint data accuracy", "Check for manual scanning errors", "Review driver route compliance"],
    StuckInTransit := ["Contact hub for package status", "Check for processing backlog", "Escalate to operations manager"],
    UnknownPattern := ["Review shipment history", "Contact assigned driver"]]

  /** The actions for a type, or the generic one for a name the table lacks. */
  function Actions(anomalyType: string): seq<string>
  {
    if anomalyType in ActionTable then ActionTable[anomalyType] else ["Investigate further"]
  }

  /** Every classification has a non-empty list of its own; the four
      specific types get three actions, the unknown pattern two, and any
      other name the single generic one. */
  lemma ActionsFacts(row: TrackingRow, other: string)
    ensures Classify(row) in ActionTable && |Actions(Classify(row))| >= 2
    ensures Classify(row) != UnknownPattern ==> |Actions(Classify(row))| == 3
    ensures other !in {MissingCheckpoints, SignificantDelay, InvalidSequence, StuckInTransit, UnknownPattern} ==>
      Actions(other) == ["Investigate further"]
  {
  }

  // ---------------------------------------------------------------------
  // The report

  datatype Anomaly = Anomaly(
    index: nat, shipmentId: string, trackingNumber: string, anomalyType: string,
    severity: Severity, anomalyScore: real, suggestedActions: seq<string>,
    checkpointGapHours: real, etaDeviationHours: real, sequenceValid: bool)

  /** No filter, or an empty one, passes everything; otherwise the
      severity's name must equal the filter. */
  predicate Passes(s: Severity, filter: Option<string>)
  {
    filter.None? || filter.value == [] || SeverityName(s) == filter.value
  }

  function AnomalyAt(rows: seq<TrackingRow>, scores: seq<real>, i: nat): Anomaly
    requires i < |rows| && i < |scores|
  {
    var row := rows[i];
    var kind := Classify(row);
    Anomaly(i, row.shipmentId, row.trackingNumber, kind, SeverityOf(scores[i]), Round(scores[i], 3),
            Actions(kind), row.checkpointGapHours, row.etaDeviationHours, row.sequenceValid)
  }

  /** Rows labelled -1 that pass the filter, among the first n, in row
      order. */
  function Candidates(rows: seq<TrackingRow>, labels: seq<int>, scores: seq<real>, filter: Option<string>, n: nat):
    seq<Anomaly>
    requires n <= |rows| == |labels| == |scores|
  {
    if n == 0 then []
    else
      Candidates(rows, labels, scores, filter, n - 1)
      + (if labels[n - 1] == -1 && Passes(SeverityOf(scores[n - 1]), filter)
         then [AnomalyAt(rows, scores, n - 1)] else [])
  }

  function SeverityKey(a: Anomaly): real
  {
    -(SeverityOrder(a.severity) as real)
  }

  /** The candidates, most severe first, keeping row order within a severity. */
  function Report(rows: seq<TrackingRow>, labels: seq<int>, scores: seq<real>, filter: Option<string>): seq<Anomaly>
    requires |rows| == |labels| == |scores|
  {
    SortDesc(Candidates(rows, labels, scores, filter, |rows|), SeverityKey)
  }

  method DetectAnomalies(rows: seq<TrackingRow>, labels: seq<int>, scores: seq<real>, filter: Option<string>)
    returns (anomalies: seq<Anomaly>)
    requires |rows| == |labels| == |scores|
    ensures anomalies == Report(rows, labels, scores, filter)
  {
    var found := [];
    var i := 0;
    while i < |rows|
      invariant 0 <= i <= |rows|
      invariant found == Candidates(rows, labels, scores, filter, i)
    {
      if labels[i] == -1 {
        var severity := SeverityOf(scores[i]);
        if Passes(severity, filter) {
          found := found + [AnomalyAt(rows, scores, i)];
        }
      }
      i := i + 1;
    }
    anomalies := SortDesc(found, SeverityKey);
  }

  /** A candidate is exactly an anomaly built from a row labelled -1 whose
      severity passes the filter. */
  lemma {:induction false} CandidatesExactly(rows: seq<TrackingRow>, labels: seq<int>, scores: seq<real>,
                                            filter: Option<string>, n: nat, a: Anomaly)
    requires n <= |rows| == |labels| == |scores|
    ensures a in Candidates(rows, labels, scores, filter, n) <==>
      a.index < n && labels[a.index] == -1 && Passes(SeverityOf(scores[a.index]), filter)
      && a == AnomalyAt(rows, scores, a.index)
  {
    if n > 0 {
      var prev := Candidates(rows, labels, scores, filter, n - 1);
      var tail := if labels[n - 1] == -1 && Passes(SeverityOf(scores[n - 1]), filter)
                  then [AnomalyAt(rows, scores, n - 1)] else [];
      assert Candidates(rows, labels, scores, filter, n) == prev + tail;
      CandidatesExactly(rows, labels, scores, filter, n - 1, a);
      var last := AnomalyAt(rows, scores, n - 1);
      assert last.index == n - 1;
      assert a in tail <==> tail != [] && a == last;
      if a.index == n - 1 {
        assert a !in prev;
      } else {
        assert a !in tail;
      }
    } else {
      assert Candidates(rows, labels, scores, filter, n) == [];
    }
  }

  /** The report holds exactly the anomalies of the rows labelled -1 whose
      severity passes the filter. */
  lemma ReportExactly(rows: seq<TrackingRow>, labels: seq<int>, scores: seq<real>, filter: Option<string>, a: Anomaly)
    requires |rows| == |labels| == |scores|
    ensures a in Report(rows, labels, scores, filter) <==>
      a.index < |rows| && labels[a.index] == -1 && Passes(SeverityOf(scores[a.index]), filter)
      && a == AnomalyAt(rows, scores, a.index)
  {
    var c := Candidates(rows, labels, scores, filter, |rows|);
    SortDescIsSortedPermutation(c, SeverityKey);
    assert a in Report(rows, labels, scores, filter) <==> a in multiset(c);
    CandidatesExactly(rows, labels, scores, filter, |rows|, a);
  }

  /** With a non-empty filter every reported anomaly has exactly that
      severity; a filter naming no severity reports nothing. */
  lemma FilterIsExact(rows: seq<TrackingRow>, labels: seq<int>, scores: seq<real>, f: string)
    requires |rows| == |labels| == |scores| && f != []
    ensures forall a :: a in Report(rows, labels, scores, Some(f)) ==> SeverityName(a.severity) == f
    ensures f !in {"CRITICAL", "WARNING", "INFO"} ==> Report(rows, labels, scores, Some(f)) == []
  {
    forall a | a in Report(rows, labels, scores, Some(f)) ensures SeverityName(a.severity) == f {
      ReportExactly(rows, labels, scores, Some(f), a);
    }
    var r := Report(rows, labels, scores, Some(f));
    if r != [] {
      ReportExactly(rows, labels, scores, Some(f), r[0]);
      assert SeverityName(r[0].severity) in {"CRITICAL", "WARNING", "INFO"};
    }
  }

  /** CRITICAL first, then WARNING, then INFO; within one severity the
      anomalies keep row order. */
  lemma ReportOrdered(rows: seq<TrackingRow>, labels: seq<int>, scores: seq<real>, filter: Option<string>, k: real)
    requires |rows| == |labels| == |scores|
    ensures var r := Report(rows, labels, scores, filter);
      forall i, j :: 0 <= i < j < |r| ==> SeverityOrder(r[i].severity) <= SeverityOrder(r[j].severity)
    ensures WithKey(Report(rows, labels, scores, filter), SeverityKey, k)
         == WithKey(Candidates(rows, labels, scores, filter, |rows|), SeverityKey, k)
  {
    var c := Candidates(rows, labels, scores, filter, |rows|);
    SortDescIsSortedPermutation(c, SeverityKey);
    SortDescIsStable(c, SeverityKey, k);
    var r := Report(rows, labels, scores, filter);
    forall i, j | 0 <= i < j < |r| ensures SeverityOrder(r[i].severity) <= SeverityOrder(r[j].severity) {
      assert SeverityKey(r[i]) >= SeverityKey(r[j]);
    }
  }

  /** Anomalies listed by strictly increasing row index. */
  predicate InRowOrder(c: seq<Anomaly>)
  {
    forall i, j :: 0 <= i < j < |c| ==> c[i].index < c[j].index
  }

  /** Candidates appear in increasing row order. */
  lemma {:induction false} CandidatesInRowOrder(rows: seq<TrackingRow>, labels: seq<int>, scores: seq<real>,
                                               filter: Option<string>, n: nat)
    requires n <= |rows| == |labels| == |scores|
    ensures InRowOrder(Candidates(rows, labels, scores, filter, n))
  {
    if n > 0 {
      CandidatesInRowOrder(rows, labels, scores, filter, n - 1);
      var prev := Candidates(rows, labels, scores, filter, n - 1);
      var tail := if labels[n - 1] == -1 && Passes(SeverityOf(scores[n - 1]), filter)
                  then [AnomalyAt(rows, scores, n - 1)] else [];
      var c := Candidates(rows, labels, scores, filter, n);
      assert c == prev + tail;
      assert InRowOrder(prev);
      forall i, j | 0 <= i < j < |c| ensures c[i].index < c[j].index {
        if j < |prev| {
          assert c[i] == prev[i] && c[j] == prev[j];
        } else {
          assert |tail| == 1 && i < |prev|;
          assert c[j] == AnomalyAt(rows, scores, n - 1);
          assert c[i] == prev[i] && prev[i] in prev;
          CandidatesExactly(rows, labels, scores, filter, n - 1, prev[i]);
          assert AnomalyAt(rows, scores, n - 1).index == n - 1;
        }
      }
      assert InRowOrder(c);
    }
  }
}
