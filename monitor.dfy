/**
 * The performance monitor: an append-only log of (actual, predicted) pairs,
 * a windowed health check that raises an alert on RMSE drift, and a report
 * over the whole log. Root-mean-square values are kept squared (as mean
 * squared errors) so that no square root is needed.
 */
module Monitoring {
  import opened Wrappers

  const DefaultBaselineRmse: real := 147015.0
  const DefaultBaselineMape: real := 1.65
  /** The relative RMSE drift beyond which the check alerts. */
  const ThresholdDegradation: real := 0.15
  /** Below this many records the check reports insufficient data. */
  const MinimumRecords: nat := 10
  /** The check looks only at this many most recent records. */
  const WindowSize: nat := 100

  /** One logged prediction. */
  datatype Record = Record(
    timestamp: string, storeId: int, actual: real, predicted: real, error: real, errorPct: real)

  function Abs(x: real): (r: real)
    ensures r >= 0.0 && (r == x || r == -x)
  {
    if x < 0.0 then -x else x
  }

  /** The record logged for one prediction: the absolute error, and the error as a
      percentage of the actual value, taken as 0 when the actual value is not positive. */
  function MakeRecord(actual: real, predicted: real, storeId: int, timestamp: string): (r: Record)
    ensures r.actual == actual && r.predicted == predicted
    ensures r.storeId == storeId && r.timestamp == timestamp
    ensures r.error >= 0.0 && (r.error == actual - predicted || r.error == predicted - actual)
    ensures actual > 0.0 ==> r.errorPct * actual == r.error * 100.0
    ensures actual <= 0.0 ==> r.errorPct == 0.0
    ensures r.errorPct >= 0.0
  {
    var error := Abs(actual - predicted);
    var errorPct := if actual > 0.0 then error / actual * 100.0 else 0.0;
    Record(timestamp, storeId, actual, predicted, error, errorPct)
  }

  /** A record as MakeRecord builds it. */
  predicate WellFormed(r: Record) {
    r == MakeRecord(r.actual, r.predicted, r.storeId, r.timestamp)
  }

  predicate AllWellFormed(log: seq<Record>) {
    forall i :: 0 <= i < |log| ==> WellFormed(log[i])
  }

  // ---------------------------------------------------------------------------
  // Aggregates
  // ---------------------------------------------------------------------------

  function SumSquaredErrors(log: seq<Record>): real {
    if log == [] then 0.0 else log[0].error * log[0].error + SumSquaredErrors(log[1..])
  }

  function SumErrors(log: seq<Record>): real {
    if log == [] then 0.0 else log[0].error + SumErrors(log[1..])
  }

  function SumErrorPcts(log: seq<Record>): real {
    if log == [] then 0.0 else log[0].errorPct + SumErrorPcts(log[1..])
  }

  /** The square of the RMSE. */
  function MeanSquaredError(log: seq<Record>): (r: real)
    requires log != []
    ensures r * |log| as real == SumSquaredErrors(log)
  {
    SumSquaredErrors(log) / |log| as real
  }

  function MeanAbsoluteError(log: seq<Record>): (r: real)
    requires log != []
    ensures r * |log| as real == SumErrors(log)
  {
    SumErrors(log) / |log| as real
  }

  function MeanErrorPct(log: seq<Record>): (r: real)
    requires log != []
    ensures r * |log| as real == SumErrorPcts(log)
  {
    SumErrorPcts(log) / |log| as real
  }

  /** The most recent records the check looks at. */
  function Recent(log: seq<Record>): (w: seq<Record>)
    ensures |w| == if |log| < WindowSize then |log| else WindowSize
    ensures w == log[|log| - |w|..]
  {
    if |log| <= WindowSize then log else log[|log| - WindowSize..]
  }

  // ---------------------------------------------------------------------------
  // The alert rule
  // ---------------------------------------------------------------------------

  /** The alert rule on the mean squared error: the RMSE lies outside
      [0.85 b, 1.15 b] for the baseline b (always, for a negative baseline). */
  predicate RmseAlert(mse: real, baseline: real) {
    if baseline < 0.0 then true
    else
      var high := (1.0 + ThresholdDegradation) * baseline;
      var low := (1.0 - ThresholdDegradation) * baseline;
      mse > high * high || mse < low * low
  }

  /** For any non-negative square root r of the mean squared error, the rule is
      |r - b| > 0.15 |b|. At b = 0 this is what the floating-point division does:
      r > 0 gives an infinite drift (alert) and r = 0 gives NaN (no alert). */
  lemma AlertMatchesRmseRule(mse: real, baseline: real, rmse: real)
    requires rmse >= 0.0 && rmse * rmse == mse
    ensures RmseAlert(mse, baseline) <==> Abs(rmse - baseline) > ThresholdDegradation * Abs(baseline)
  {
    var high := (1.0 + ThresholdDegradation) * baseline;
    var low := (1.0 - ThresholdDegradation) * baseline;
    if baseline >= 0.0 {
      SquareMonotone(high, rmse);
      SquareMonotone(rmse, low);
    }
  }

  lemma ProductSigns(a: real, b: real)
    ensures a >= 0.0 && b >= 0.0 ==> a * b >= 0.0
    ensures a > 0.0 && b > 0.0 ==> a * b > 0.0
  {
  }

  /** Scaling by a positive factor keeps the order. */
  lemma ScaleKeepsOrder(a: real, c: real, k: real)
    requires k > 0.0
    ensures a > c <==> a * k > c * k
  {
    assert a * k - c * k == (a - c) * k;
    ProductSigns(a - c, k);
    ProductSigns(c - a, k);
  }

  lemma ScaledComparison(a: real, c: real, k: real, ak: real, ck: real)
    requires k > 0.0 && ak == a * k && ck == c * k
    ensures a > c <==> ak > ck
  {
    ScaleKeepsOrder(a, c, k);
  }

  lemma ScaleKeepsWeakOrder(a: real, c: real, k: real)
    requires k >= 0.0 && a <= c
    ensures a * k <= c * k
  {
    assert c * k - a * k == (c - a) * k;
    ProductSigns(c - a, k);
  }

  /** For non-negative x and y, x < y exactly when x*x < y*y. */
  lemma SquareMonotone(x: real, y: real)
    requires x >= 0.0 && y >= 0.0
    ensures x < y <==> x * x < y * y
  {
    if x < y {
      ScaleKeepsWeakOrder(x, y, x);
      ScaleKeepsOrder(y, x, y);
      calc {
        x * x;
        <= y * x;
        == x * y;
        < y * y;
      }
    } else {
      ScaleKeepsWeakOrder(y, x, y);
      ScaleKeepsWeakOrder(y, x, x);
      calc {
        y * y;
        <= x * y;
        == y * x;
        <= x * x;
      }
    }
  }

  /** With a non-zero baseline the rule is the source's relative degradation test. */
  lemma AlertMatchesDegradation(mse: real, baseline: real, rmse: real)
    requires rmse >= 0.0 && rmse * rmse == mse && baseline != 0.0
    ensures RmseAlert(mse, baseline) <==> Abs((rmse - baseline) / baseline) > ThresholdDegradation
  {
    AlertMatchesRmseRule(mse, baseline, rmse);
    RelativeDeviation(rmse, baseline, ThresholdDegradation);
  }

  /** An absolute deviation beyond t times |b| is a relative deviation beyond t. */
  lemma RelativeDeviation(x: real, b: real, t: real)
    requires b != 0.0
    ensures Abs(x - b) > t * Abs(b) <==> Abs((x - b) / b) > t
  {
    var d := (x - b) / b;
    assert d * b == x - b;
    AbsProduct(d, b);
    assert Abs(x - b) == Abs(d) * Abs(b);
    ScaledComparison(Abs(d), t, Abs(b), Abs(x - b), t * Abs(b));
  }

  lemma AbsProduct(x: real, y: real)
    ensures Abs(x * y) == Abs(x) * Abs(y)
  {
    if x < 0.0 && y < 0.0 {
      assert x * y == (-x) * (-y);
    } else if x < 0.0 {
      assert -(x * y) == (-x) * y;
    } else if y < 0.0 {
      assert -(x * y) == x * (-y);
    }
  }

  // ---------------------------------------------------------------------------
  // The check and the report
  // ---------------------------------------------------------------------------

  /** The outcome of a performance check; RMSE values are carried squared. */
  datatype Performance =
    | InsufficientData
    | Metrics(currentMse: real, baselineRmse: real, currentMape: real, baselineMape: real,
              mapeDegradationPct: Option<real>, alert: bool)

  /** The check over the most recent records. The MAPE drift is None where the
      division by a zero baseline yields a non-finite value. */
  function Assess(log: seq<Record>, baselineRmse: real, baselineMape: real): (s: Performance)
    ensures |log| < MinimumRecords <==> s.InsufficientData?
    ensures s.Metrics? ==> s.baselineRmse == baselineRmse && s.baselineMape == baselineMape
    ensures s.Metrics? ==> (s.mapeDegradationPct.None? <==> baselineMape == 0.0)
    ensures s.Metrics? && baselineMape != 0.0 ==>
      s.mapeDegradationPct == Some((s.currentMape - baselineMape) / baselineMape * 100.0)
    ensures s.Metrics? ==> s.currentMse == MeanSquaredError(Recent(log))
    ensures s.Metrics? ==> s.currentMape == MeanErrorPct(Recent(log))
    ensures s.Metrics? ==> (s.alert <==> RmseAlert(s.currentMse, baselineRmse))
  {
    if |log| < MinimumRecords then InsufficientData
    else
      var recent := Recent(log);
      var mse := MeanSquaredError(recent);
      var mape := MeanErrorPct(recent);
      var mapeDrift := if baselineMape == 0.0 then None else Some((mape - baselineMape) / baselineMape * 100.0);
      Metrics(mse, baselineRmse, mape, baselineMape, mapeDrift, RmseAlert(mse, baselineRmse))
  }

  /** A monitoring report over the entire log; the RMSE is carried squared. */
  datatype Report =
    | NoPredictions
    | Summary(timestamp: string, totalPredictions: nat, mse: real, mae: real, mape: real)

  function Summarize(log: seq<Record>, now: string): (r: Report)
    ensures log == [] <==> r.NoPredictions?
    ensures r.Summary? ==> r.totalPredictions == |log| && r.timestamp == now
    ensures r.Summary? ==> r.mse == MeanSquaredError(log)
    ensures r.Summary? ==> r.mae == MeanAbsoluteError(log)
    ensures r.Summary? ==> r.mape == MeanErrorPct(log)
  {
    if log == [] then NoPredictions
    else Summary(now, |log|, MeanSquaredError(log), MeanAbsoluteError(log), MeanErrorPct(log))
  }

  // ---------------------------------------------------------------------------
  // Properties of the check and the report
  // ---------------------------------------------------------------------------

  /** Records older than the last 100 never influence the check. */
  lemma WindowIgnoresOlder(older: seq<Record>, recent: seq<Record>, baselineRmse: real, baselineMape: real)
    requires |recent| == WindowSize
    ensures Assess(older + recent, baselineRmse, baselineMape) == Assess(recent, baselineRmse, baselineMape)
  {
    var log := older + recent;
    assert Recent(log) == recent;
    assert Recent(recent) == recent;
  }

  /** With 10 to 100 records the check looks at all of them. */
  lemma ShortLogFullyWindowed(log: seq<Record>)
    requires MinimumRecords <= |log| <= WindowSize
    ensures Recent(log) == log
  {
  }

  lemma {:induction false} SumsNonNegative(log: seq<Record>)
    requires AllWellFormed(log)
    ensures SumSquaredErrors(log) >= 0.0 && SumErrors(log) >= 0.0 && SumErrorPcts(log) >= 0.0
  {
    if log != [] {
      assert WellFormed(log[0]);
      assert forall i :: 0 <= i < |log[1..]| ==> log[1..][i] == log[i + 1];
      SumsNonNegative(log[1..]);
    }
  }

  lemma {:induction false} SquaredErrorsDependOnErrors(a: seq<Record>, b: seq<Record>)
    requires |a| == |b|
    requires forall i :: 0 <= i < |a| ==> a[i].error == b[i].error
    ensures SumSquaredErrors(a) == SumSquaredErrors(b)
  {
    if a != [] {
      assert forall i :: 0 <= i < |a[1..]| ==> a[1..][i] == a[i + 1] && b[1..][i] == b[i + 1];
      SquaredErrorsDependOnErrors(a[1..], b[1..]);
    }
  }

  /** The alert depends on the absolute errors only: the percentage errors, and so
      the MAPE, never change it. */
  lemma AlertIgnoresMape(a: seq<Record>, b: seq<Record>, baselineRmse: real, baselineMape: real)
    requires |a| == |b| >= MinimumRecords
    requires forall i :: 0 <= i < |a| ==> a[i].error == b[i].error
    ensures Assess(a, baselineRmse, baselineMape).alert == Assess(b, baselineRmse, baselineMape).alert
  {
    var ra, rb := Recent(a), Recent(b);
    assert MeanSquaredError(ra) == MeanSquaredError(rb) by {
      forall i | 0 <= i < |ra| ensures ra[i].error == rb[i].error {
        assert ra[i] == a[|a| - |ra| + i];
        assert rb[i] == b[|b| - |rb| + i];
      }
      SquaredErrorsDependOnErrors(ra, rb);
    }
  }

  lemma {:induction false} ZeroErrorsSumToZero(log: seq<Record>)
    requires forall i :: 0 <= i < |log| ==> log[i].error == 0.0
    ensures SumSquaredErrors(log) == 0.0
  {
    if log != [] {
      assert forall i :: 0 <= i < |log[1..]| ==> log[1..][i] == log[i + 1];
      ZeroErrorsSumToZero(log[1..]);
    }
  }

  /** The alert also fires on improvement: a model with no error at all against a
      positive baseline raises it. */
  lemma PerfectModelAlerts(log: seq<Record>, baselineRmse: real, baselineMape: real)
    requires |log| >= MinimumRecords && baselineRmse > 0.0
    requires forall i :: 0 <= i < |log| ==> log[i].error == 0.0
    ensures Assess(log, baselineRmse, baselineMape).alert
  {
    var w := Recent(log);
    assert forall i :: 0 <= i < |w| ==> w[i] == log[|log| - |w| + i];
    ZeroErrorsSumToZero(w);
    assert MeanSquaredError(w) == 0.0;
    var low := (1.0 - ThresholdDegradation) * baselineRmse;
    ProductSigns(low, low);
    assert RmseAlert(0.0, baselineRmse);
    assert Assess(log, baselineRmse, baselineMape).currentMse == 0.0;
  }

  /** The check's metrics are non-negative on a log of well-formed records. */
  lemma CheckMetricsNonNegative(log: seq<Record>, baselineRmse: real, baselineMape: real)
    requires AllWellFormed(log) && |log| >= MinimumRecords
    ensures Assess(log, baselineRmse, baselineMape).currentMse >= 0.0
    ensures Assess(log, baselineRmse, baselineMape).currentMape >= 0.0
  {
    var w := Recent(log);
    forall i | 0 <= i < |w| ensures WellFormed(w[i]) {
      assert w[i] == log[|log| - |w| + i];
    }
    MeansNonNegative(w);
  }

  lemma QuotientNonNegative(s: real, n: real)
    requires s >= 0.0 && n > 0.0
    ensures s / n >= 0.0
  {
    ProductSigns(s, 1.0 / n);
  }

  /** Summed squared deviations from any x are non-negative. */
  lemma {:induction false} DeviationsNonNegative(log: seq<Record>, x: real)
    ensures SumSquaredErrors(log) - 2.0 * x * SumErrors(log) + |log| as real * x * x >= 0.0
  {
    if log != [] {
      var y := log[0].error;
      var t := log[1..];
      DeviationsNonNegative(t, x);
      var n := |t| as real;
      assert |log| as real * x * x == x * x + n * x * x;
      assert (y - x) * (y - x) == y * y - 2.0 * x * y + x * x;
      assert SumSquaredErrors(log) - 2.0 * x * SumErrors(log) + |log| as real * x * x
          == (y - x) * (y - x) + (SumSquaredErrors(t) - 2.0 * x * SumErrors(t) + n * x * x);
    }
  }

  /** (sum of errors)^2 <= n * (sum of squared errors). */
  lemma {:induction false} SumsCauchySchwarz(log: seq<Record>)
    ensures SumErrors(log) * SumErrors(log) <= |log| as real * SumSquaredErrors(log)
  {
    if log != [] {
      var y := log[0].error;
      var t := log[1..];
      var s, q, m := SumErrors(t), SumSquaredErrors(t), |t| as real;
      SumsCauchySchwarz(t);
      DeviationsNonNegative(t, y);
      assert (y + s) * (y + s) == y * y + 2.0 * y * s + s * s;
      assert (1.0 + m) * (y * y + q) == y * y + q + m * y * y + m * q;
      assert 2.0 * y * s <= q + m * y * y;
    }
  }

  /** The report's figures are non-negative, and its RMSE is at least its MAE. */
  lemma ReportMetricsOrdered(log: seq<Record>, now: string)
    requires AllWellFormed(log) && log != []
    ensures var r := Summarize(log, now);
      r.mse >= 0.0 && r.mae >= 0.0 && r.mape >= 0.0 && r.mae * r.mae <= r.mse
  {
    MeansNonNegative(log);
    MaeSquaredAtMostMse(log);
  }

  /** The three means of a log of well-formed records are non-negative. */
  lemma MeansNonNegative(log: seq<Record>)
    requires AllWellFormed(log) && log != []
    ensures MeanSquaredError(log) >= 0.0 && MeanAbsoluteError(log) >= 0.0 && MeanErrorPct(log) >= 0.0
  {
    SumsNonNegative(log);
    QuotientNonNegative(SumSquaredErrors(log), |log| as real);
    QuotientNonNegative(SumErrors(log), |log| as real);
    QuotientNonNegative(SumErrorPcts(log), |log| as real);
  }

  /** MAE^2 <= MSE, that is, MAE <= RMSE. */
  lemma MaeSquaredAtMostMse(log: seq<Record>)
    requires log != []
    ensures MeanAbsoluteError(log) * MeanAbsoluteError(log) <= MeanSquaredError(log)
  {
    SumsCauchySchwarz(log);
    MeanOfBoundedSquare(SumErrors(log), SumSquaredErrors(log), |log| as real);
  }

  /** s^2 <= n q gives (s/n)^2 <= q/n. */
  lemma MeanOfBoundedSquare(s: real, q: real, n: real)
    requires n > 0.0 && s * s <= n * q
    ensures (s / n) * (s / n) <= q / n
  {
    var a, b := s / n, q / n;
    assert a * n == s && b * n == q;
    ScaleKeepsOrder(a * a, b, n);
    ScaleKeepsOrder(a * a * n, b * n, n);
    calc {
      a * a * n * n;
      == s * s;
      <= n * q;
      == b * n * n;
    }
  }

  /** On a log of 10 to 100 records the report and the check agree on the MSE. */
  lemma ReportAgreesWithCheck(log: seq<Record>, now: string, baselineRmse: real, baselineMape: real)
    requires MinimumRecords <= |log| <= WindowSize
    ensures Summarize(log, now).mse == Assess(log, baselineRmse, baselineMape).currentMse
  {
  }

  // ---------------------------------------------------------------------------
  // The monitor
  // ---------------------------------------------------------------------------

  class PerformanceMonitor {
    const baselineRmse: real
    const baselineMape: real
    const thresholdDegradation: real
    var predictionsLog: seq<Record>

    /** Every logged record was built by MakeRecord. */
    ghost predicate Valid()
      reads this
    {
      thresholdDegradation == ThresholdDegradation && AllWellFormed(predictionsLog)
    }

    constructor (baselineRmse: real := DefaultBaselineRmse, baselineMape: real := DefaultBaselineMape)
      ensures Valid() && predictionsLog == []
      ensures this.baselineRmse == baselineRmse && this.baselineMape == baselineMape
      ensures thresholdDegradation == 0.15
    {
      this.baselineRmse := baselineRmse;
      this.baselineMape := baselineMape;
      thresholdDegradation := ThresholdDegradation;
      predictionsLog := [];
    }

    /** Appends one record and returns it; a missing timestamp is taken as `now`. */
    method LogPrediction(actual: real, predicted: real, storeId: int, timestamp: Option<string>, now: string)
      returns (r: Record)
      requires Valid()
      modifies this
      ensures Valid()
      ensures predictionsLog == old(predictionsLog) + [r]
      ensures r == MakeRecord(actual, predicted, storeId, timestamp.GetOr(now))
    {
      r := MakeRecord(actual, predicted, storeId, timestamp.GetOr(now));
      predictionsLog := predictionsLog + [r];
    }

    /** The windowed check; reads the log and changes nothing. */
    method CheckModelPerformance() returns (s: Performance)
      ensures s == Assess(predictionsLog, baselineRmse, baselineMape)
      ensures |predictionsLog| < MinimumRecords <==> s.InsufficientData?
      ensures Valid() && s.Metrics? ==> s.currentMse >= 0.0 && s.currentMape >= 0.0
    {
      s := Assess(predictionsLog, baselineRmse, baselineMape);
      if Valid() && s.Metrics? {
        CheckMetricsNonNegative(predictionsLog, baselineRmse, baselineMape);
      }
    }

    /** The report over the entire log; reads the log and changes nothing. */
    method GenerateReport(now: string) returns (r: Report)
      ensures r == Summarize(predictionsLog, now)
      ensures predictionsLog == [] <==> r.NoPredictions?
      ensures r.Summary? ==> r.totalPredictions == |predictionsLog|
      ensures Valid() && r.Summary? ==> r.mae >= 0.0 && r.mae * r.mae <= r.mse
    {
      r := Summarize(predictionsLog, now);
      if Valid() && r.Summary? {
        ReportMetricsOrdered(predictionsLog, now);
      }
    }
  }
}
