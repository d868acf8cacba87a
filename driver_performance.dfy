// Driver performance: percentile against peer statistics, a star rating
// from the on-time rate with delay and exception penalties, its category,
// the trend between the two halves of the history, recommendations, the
// per-driver report and the leaderboard.

module DriverPerformance {
  import opened Common
  import opened StableSort

  datatype PeerStats = PeerStats(avg: real, median: real, min: real, max: real)

  /** The fixed peer statistics the analyzer compares against. */
  const AllDriverStats := PeerStats(85.0, 87.0, 65.0, 98.0)

  /** Python's `int(x)`: truncation toward zero. */
  function TruncToInt(x: real): int
  {
    if x >= 0.0 then x.Floor else -((-x).Floor)
  }

  /** Position of `value` strictly inside the peer range, in whole
      percent, truncated. */
  function Position(value: real, stats: PeerStats): int
    requires stats.min < value < stats.max
  {
    TruncToInt((value - stats.min) / (stats.max - stats.min) * 100.0)
  }

  /** As written: 99 at or above the peer maximum, 1 at or below the
      minimum, otherwise the truncated position within the range. */
  function PercentileAsWritten(value: real, stats: PeerStats): int
  {
    if value >= stats.max then 99
    else if value <= stats.min then 1
    else Position(value, stats)
  }

  /** Just above the minimum the truncated position is 0, below the 1 given
      at the minimum itself: a better rate ranks lower. */
  lemma PercentileDipsAboveMinimum()
    ensures PercentileAsWritten(65.0, AllDriverStats) == 1
    ensures PercentileAsWritten(65.2, AllDriverStats) == 0
  {
    var pos := (65.2 - 65.0) / (98.0 - 65.0) * 100.0;
    assert pos == 20.0 / 33.0;
    FractionBelowOne(20.0, 33.0);
  }

  /** The percentile with the floor of 1 applied inside the range too, so
      that it stays within the [1, 99] the boundary cases use. */
  function Percentile(value: real, stats: PeerStats): int
  {
    if value >= stats.max then 99
    else if value <= stats.min then 1
    else MaxInt(1, Position(value, stats))
  }

  lemma FractionBelowOne(a: real, b: real)
    requires 0.0 < a < b
    ensures 0.0 < a / b < 1.0
  {
    assert a / b + (b - a) / b == (a + (b - a)) / b;
    assert (a + (b - a)) / b == b / b == 1.0;
    PositiveQuotient(b - a, b);
    PositiveQuotient(a, b);
  }

  lemma PositiveQuotient(x: real, y: real)
    requires x > 0.0 && y > 0.0
    ensures x / y > 0.0
  {
  }

  /** Inside the range the position is the floor of the scaled fraction,
      between 0 and 99. */
  lemma PositionRange(value: real, stats: PeerStats)
    requires stats.min < value < stats.max
    ensures Position(value, stats) == ((value - stats.min) / (stats.max - stats.min) * 100.0).Floor
    ensures 0 <= Position(value, stats) <= 99
  {
    var pos := (value - stats.min) / (stats.max - stats.min);
    FractionBelowOne(value - stats.min, stats.max - stats.min);
    assert 0.0 < pos * 100.0 < 100.0;
  }

  /** The corrected percentile lies in [1, 99] and differs from the code's
      only where the code's answer is 0, which it raises to 1. */
  lemma PercentileRange(value: real, stats: PeerStats)
    ensures 1 <= Percentile(value, stats) <= 99
    ensures PercentileAsWritten(value, stats) >= 1 ==> Percentile(value, stats) == PercentileAsWritten(value, stats)
    ensures Percentile(value, stats) == MaxInt(1, PercentileAsWritten(value, stats))
  {
    if stats.min < value < stats.max {
      PositionRange(value, stats);
    }
  }

  /** A higher on-time rate never lowers the corrected percentile. */
  lemma PercentileMonotone(v: real, w: real, stats: PeerStats)
    requires v <= w
    ensures Percentile(v, stats) <= Percentile(w, stats)
  {
    PercentileRange(v, stats);
    PercentileRange(w, stats);
    if stats.min < v && w < stats.max {
      var d := stats.max - stats.min;
      PositionRange(v, stats);
      PositionRange(w, stats);
      DivideMonotone(v - stats.min, w - stats.min, d);
      assert (v - stats.min) / d * 100.0 <= (w - stats.min) / d * 100.0;
      FloorMonotone((v - stats.min) / d * 100.0, (w - stats.min) / d * 100.0);
    }
  }

  /** Stars from the on-time rate alone. */
  function BaseRating(onTimeRate: real): real
  {
    if onTimeRate >= 95.0 then 5.0
    else if onTimeRate >= 90.0 then 4.5
    else if onTimeRate >= 85.0 then 4.0
    else if onTimeRate >= 80.0 then 3.5
    else if onTimeRate >= 75.0 then 3.0
    else 2.5
  }

  function DelayPenalty(avgDelay: real): real
  {
    MinReal(0.5, avgDelay / 60.0)
  }

  function ExceptionPenalty(exceptions: int): real
  {
    MinReal(0.5, exceptions as real * 0.1)
  }

  /** Base stars less the capped penalties, rounded to one decimal and
      floored at one star. */
  function Rating(onTimeRate: real, avgDelay: real, exceptions: int): real
  {
    MaxReal(1.0, Round(BaseRating(onTimeRate) - DelayPenalty(avgDelay) - ExceptionPenalty(exceptions), 1))
  }

  /** With non-negative delay and exceptions the rating is between one and
      five stars. */
  lemma RatingRange(onTimeRate: real, avgDelay: real, exceptions: int)
    requires avgDelay >= 0.0 && exceptions >= 0
    ensures 1.0 <= Rating(onTimeRate, avgDelay, exceptions) <= 5.0
  {
    var x := BaseRating(onTimeRate) - DelayPenalty(avgDelay) - ExceptionPenalty(exceptions);
    assert x <= 5.0;
    RoundMonotone(x, 5.0, 1);
    RoundExact(50, 1);
    assert Pow10(1) == 10;
    assert 50 as real / Pow10(1) as real == 5.0;
  }

  /** A better on-time rate never lowers the rating. */
  lemma RatingMonotone(r1: real, r2: real, avgDelay: real, exceptions: int)
    requires r1 <= r2
    ensures Rating(r1, avgDelay, exceptions) <= Rating(r2, avgDelay, exceptions)
  {
    var p := DelayPenalty(avgDelay) + ExceptionPenalty(exceptions);
    assert BaseRating(r1) <= BaseRating(r2);
    RoundMonotone(BaseRating(r1) - DelayPenalty(avgDelay) - ExceptionPenalty(exceptions),
                  BaseRating(r2) - DelayPenalty(avgDelay) - ExceptionPenalty(exceptions), 1);
  }

  datatype RatingCategory = Excellent | Good | Average | BelowAverage | NeedsImprovement

  function Category(rating: real): RatingCategory
  {
    if rating >= 4.5 then Excellent
    else if rating >= 4.0 then Good
    else if rating >= 3.0 then Average
    else if rating >= 2.0 then BelowAverage
    else NeedsImprovement
  }

  /** Higher is better: NEEDS_IMPROVEMENT 0 up to EXCELLENT 4. */
  function CategoryRank(c: RatingCategory): nat
  {
    match c
    case NeedsImprovement => 0
    case BelowAverage => 1
    case Average => 2
    case Good => 3
    case Excellent => 4
  }

  lemma CategoryMonotone(r1: real, r2: real)
    requires r1 <= r2
    ensures CategoryRank(Category(r1)) <= CategoryRank(Category(r2))
  {
  }

  // ---------------------------------------------------------------------
  // Trend

  datatype Direction = Improving | Declining | Stable

  function CountTrue(s: seq<bool>): nat
  {
    if s == [] then 0 else CountTrue(s[..|s| - 1]) + (if s[|s| - 1] then 1 else 0)
  }

  lemma {:induction false} CountTrueBound(s: seq<bool>)
    ensures CountTrue(s) <= |s|
  {
    if s != [] {
      CountTrueBound(s[..|s| - 1]);
    }
  }

  /** The mean of a boolean column: the share of true entries. */
  function Share(s: seq<bool>): real
    requires s != []
  {
    CountTrue(s) as real / |s| as real
  }

  lemma ShareRange(s: seq<bool>)
    requires s != []
    ensures 0.0 <= Share(s) <= 1.0
  {
    CountTrueBound(s);
    if 0 < CountTrue(s) < |s| {
      FractionBelowOne(CountTrue(s) as real, |s| as real);
    }
  }

  /** Change in on-time share from the first half of the history to the
      second, in percentage points. */
  function Change(onTime: seq<bool>): real
    requires |onTime| >= 2
  {
    var mid := |onTime| / 2;
    (Share(onTime[mid..]) - Share(onTime[..mid])) * 100.0
  }

  datatype Trend = Trend(direction: Direction, changePct: real)

  function AnalyzeTrend(onTime: seq<bool>): Trend
  {
    if |onTime| < 10 then Trend(Stable, 0.0)
    else
      var change := Change(onTime);
      var direction := if change > 5.0 then Improving else if change < -5.0 then Declining else Stable;
      Trend(direction, Round(change, 1))
  }

  /** Short histories are stable; otherwise the direction is decided by a
      five-point band around no change, which is at most 100 either way. */
  lemma TrendFacts(onTime: seq<bool>)
    ensures |onTime| < 10 ==> AnalyzeTrend(onTime) == Trend(Stable, 0.0)
    ensures |onTime| >= 10 ==>
      (AnalyzeTrend(onTime).direction == Improving <==> Change(onTime) > 5.0)
      && (AnalyzeTrend(onTime).direction == Declining <==> Change(onTime) < -5.0)
      && -100.0 <= Change(onTime) <= 100.0
  {
    if |onTime| >= 10 {
      var mid := |onTime| / 2;
      ShareRange(onTime[mid..]);
      ShareRange(onTime[..mid]);
    }
  }

  // ---------------------------------------------------------------------
  // Recommendations

  const RoutePlanning := "Focus on route planning to improve on-time delivery"
  const ReviewDelays := "Review causes of delays and address bottlenecks"
  const ExceptionPatterns := "Investigate recurring exception patterns"
  const CheckpointScanning := "Ensure consistent checkpoint scanning"
  const KeepItUp := "Excellent performance - keep up the good work!"

  /** The advice that applies, in the order the checks run. */
  function Advice(onTimeRate: real, avgDelay: real, exceptions: int, missingCheckpoints: int): seq<string>
  {
    (if onTimeRate < 85.0 then [RoutePlanning] else [])
    + (if avgDelay > 30.0 then [ReviewDelays] else [])
    + (if exceptions > 5 then [ExceptionPatterns] else [])
    + (if missingCheckpoints > 3 then [CheckpointScanning] else [])
  }

  method GenerateRecommendations(onTimeRate: real, avgDelay: real, exceptions: int, missingCheckpoints: int)
    returns (recommendations: seq<string>)
    ensures recommendations != []
    ensures Advice(onTimeRate, avgDelay, exceptions, missingCheckpoints) != [] ==>
      recommendations == Advice(onTimeRate, avgDelay, exceptions, missingCheckpoints)
    ensures KeepItUp in recommendations <==> Advice(onTimeRate, avgDelay, exceptions, missingCheckpoints) == []
    ensures Advice(onTimeRate, avgDelay, exceptions, missingCheckpoints) == [] ==> recommendations == [KeepItUp]
  {
    recommendations := [];
    if onTimeRate < 85.0 {
      recommendations := recommendations + [RoutePlanning];
    }
    if avgDelay > 30.0 {
      recommendations := recommendations + [ReviewDelays];
    }
    if exceptions > 5 {
      recommendations := recommendations + [ExceptionPatterns];
    }
    if missingCheckpoints > 3 {
      recommendations := recommendations + [CheckpointScanning];
    }
    assert recommendations == Advice(onTimeRate, avgDelay, exceptions, missingCheckpoints);
    AdviceNeverPraises(onTimeRate, avgDelay, exceptions, missingCheckpoints);
    if recommendations == [] {
      recommendations := recommendations + [KeepItUp];
    }
  }

  lemma AdviceNeverPraises(onTimeRate: real, avgDelay: real, exceptions: int, missingCheckpoints: int)
    ensures KeepItUp !in Advice(onTimeRate, avgDelay, exceptions, missingCheckpoints)
  {
    assert |KeepItUp| == 46 && |RoutePlanning| == 51 && |ReviewDelays| == 47;
    assert |ExceptionPatterns| == 40 && |CheckpointScanning| == 37;
  }

  // ---------------------------------------------------------------------
  // The report

  datatype Delivery = Delivery(isOnTime: bool, delayMinutes: real, isException: bool, missingCheckpoints: nat)

  function OnTimeColumn(ds: seq<Delivery>): (r: seq<bool>)
    ensures |r| == |ds|
  {
    if ds == [] then [] else OnTimeColumn(ds[..|ds| - 1]) + [ds[|ds| - 1].isOnTime]
  }

  function ExceptionCount(ds: seq<Delivery>): nat
  {
    if ds == [] then 0 else ExceptionCount(ds[..|ds| - 1]) + (if ds[|ds| - 1].isException then 1 else 0)
  }

  function MissingTotal(ds: seq<Delivery>): nat
  {
    if ds == [] then 0 else MissingTotal(ds[..|ds| - 1]) + ds[|ds| - 1].missingCheckpoints
  }

  /** Number and total delay of the late deliveries (positive delay). */
  function LateCount(ds: seq<Delivery>): nat
  {
    if ds == [] then 0 else LateCount(ds[..|ds| - 1]) + (if ds[|ds| - 1].delayMinutes > 0.0 then 1 else 0)
  }

  function LateTotal(ds: seq<Delivery>): real
  {
    if ds == [] then 0.0
    else LateTotal(ds[..|ds| - 1]) + (if ds[|ds| - 1].delayMinutes > 0.0 then ds[|ds| - 1].delayMinutes else 0.0)
  }

  /** Mean delay over late deliveries, 0 when none is late. */
  function AverageDelay(ds: seq<Delivery>): real
  {
    if LateCount(ds) > 0 then LateTotal(ds) / LateCount(ds) as real else 0.0
  }

  lemma {:induction false} LateTotalPositive(ds: seq<Delivery>)
    ensures LateTotal(ds) >= 0.0
    ensures LateCount(ds) > 0 ==> LateTotal(ds) > 0.0
  {
    if ds != [] {
      LateTotalPositive(ds[..|ds| - 1]);
    }
  }

  datatype DriverReport =
    | NoDeliveries(driverId: string)
    | Report(driverId: string, totalDeliveries: nat, onTimeRate: real, avgDelayMinutes: real,
             exceptionCount: nat, missingCheckpoints: nat, stars: real, category: RatingCategory,
             percentileRank: int, isTopPerformer: bool, vsAverage: real, trend: Trend,
             recommendations: seq<string>)

  function OnTimeRate(ds: seq<Delivery>): real
    requires ds != []
  {
    Share(OnTimeColumn(ds)) * 100.0
  }

  function AnalyzeDriver(driverId: string, ds: seq<Delivery>, stats: PeerStats): DriverReport
  {
    if ds == [] then NoDeliveries(driverId)
    else
      var rate := OnTimeRate(ds);
      var delay := AverageDelay(ds);
      var exceptions := ExceptionCount(ds);
      var missing := MissingTotal(ds);
      var percentile := Percentile(rate, stats);
      var rating := Rating(rate, delay, exceptions);
      var advice := Advice(rate, delay, exceptions, missing);
      Report(driverId, |ds|, Round(rate, 1), if delay != 0.0 then Round(delay, 1) else 0.0, exceptions, missing,
             rating, Category(rating), percentile, percentile >= 90, Round(rate - stats.avg, 1),
             AnalyzeTrend(OnTimeColumn(ds)), if advice == [] then [KeepItUp] else advice)
  }

  /** No history gives the error record; otherwise the driver is a top
      performer exactly at percentile 90 or above, the stars lie in [1, 5]
      and there is always some recommendation. */
  lemma AnalyzeDriverFacts(driverId: string, ds: seq<Delivery>, stats: PeerStats)
    ensures ds == [] <==> AnalyzeDriver(driverId, ds, stats).NoDeliveries?
    ensures ds != [] ==>
      var r := AnalyzeDriver(driverId, ds, stats);
      r.totalDeliveries == |ds| && (r.isTopPerformer <==> r.percentileRank >= 90)
      && 1.0 <= r.stars <= 5.0 && r.category == Category(r.stars) && r.recommendations != []
      && 1 <= r.percentileRank <= 99
      && r.percentileRank == MaxInt(1, PercentileAsWritten(OnTimeRate(ds), stats))
  {
    if ds != [] {
      LateTotalPositive(ds);
      var delay := AverageDelay(ds);
      if LateCount(ds) > 0 {
        assert delay == LateTotal(ds) / LateCount(ds) as real;
        assert delay >= 0.0;
      }
      RatingRange(OnTimeRate(ds), delay, ExceptionCount(ds));
      PercentileRange(OnTimeRate(ds), stats);
    }
  }

  // ---------------------------------------------------------------------
  // Leaderboard

  datatype LeaderEntry = LeaderEntry(rank: int, driverId: string, driverName: string, onTimeRate: real,
                                     avgDelayMinutes: real, totalDeliveries: int, rating: real)

  function OnTimeKey(e: LeaderEntry): real
  {
    e.onTimeRate
  }

  /** Ranks 1, 2, 3, ... in list order. */
  function WithRanks(s: seq<LeaderEntry>): (r: seq<LeaderEntry>)
    ensures |r| == |s|
  {
    seq(|s|, i requires 0 <= i < |s| => s[i].(rank := i + 1))
  }

  /** Sorted by on-time rate, best first and ties in input order, ranked,
      and cut to `limit` as Python's slice does. */
  function Leaderboard(drivers: seq<LeaderEntry>, limit: int): seq<LeaderEntry>
  {
    PyTake(WithRanks(SortDesc(drivers, OnTimeKey)), limit)
  }

  method GetLeaderboard(drivers: seq<LeaderEntry>, limit: int) returns (r: seq<LeaderEntry>)
    ensures r == Leaderboard(drivers, limit)
  {
    var sorted := SortDesc(drivers, OnTimeKey);
    var ranked := [];
    var i := 0;
    while i < |sorted|
      invariant 0 <= i <= |sorted| && |ranked| == i
      invariant forall j :: 0 <= j < i ==> ranked[j] == sorted[j].(rank := j + 1)
    {
      ranked := ranked + [sorted[i].(rank := i + 1)];
      i := i + 1;
    }
    assert ranked == WithRanks(sorted);
    r := PyTake(ranked, limit);
  }

  /** The board is best-first, ranked 1..n consecutively, holds at most
      `limit` entries for a non-negative limit, and draws on the drivers. */
  lemma LeaderboardFacts(drivers: seq<LeaderEntry>, limit: int)
    ensures var b := Leaderboard(drivers, limit);
      (forall i, j :: 0 <= i < j < |b| ==> b[i].onTimeRate >= b[j].onTimeRate)
      && (forall i :: 0 <= i < |b| ==> b[i].rank == i + 1)
      && (limit >= 0 ==> |b| <= limit)
      && (limit >= 0 ==> |b| == if limit <= |drivers| then limit else |drivers|)
  {
    SortDescIsSortedPermutation(drivers, OnTimeKey);
    var b := Leaderboard(drivers, limit);
    var s := SortDesc(drivers, OnTimeKey);
    forall i, j | 0 <= i < j < |b| ensures b[i].onTimeRate >= b[j].onTimeRate {
      assert b[i].onTimeRate == s[i].onTimeRate && b[j].onTimeRate == s[j].onTimeRate;
    }
  }

  /** Each entry on the board is one of the drivers, re-ranked. */
  lemma LeaderboardDrawsOnDrivers(drivers: seq<LeaderEntry>, limit: int, i: nat)
    requires i < |Leaderboard(drivers, limit)|
    ensures exists d :: d in drivers && Leaderboard(drivers, limit)[i] == d.(rank := i + 1)
  {
    SortDescIsSortedPermutation(drivers, OnTimeKey);
    var s := SortDesc(drivers, OnTimeKey);
    assert s[i] in multiset(drivers);
    assert Leaderboard(drivers, limit)[i] == s[i].(rank := i + 1);
  }

  /** `board` ranks `top` in order: same length, entry i is top[i] with
      rank i + 1. */
  predicate RanksInOrder(board: seq<LeaderEntry>, top: seq<LeaderEntry>)
  {
    |top| == |board| && forall i :: 0 <= i < |board| ==> board[i] == top[i].(rank := i + 1)
  }

  /** No driver outside `top` has a better on-time rate than an entry of
      the board. */
  predicate NoneBetterLeftOut(drivers: seq<LeaderEntry>, top: seq<LeaderEntry>, board: seq<LeaderEntry>)
  {
    forall x, i :: x in multiset(drivers) - multiset(top) && 0 <= i < |board| ==> x.onTimeRate <= board[i].onTimeRate
  }

  /** The board holds the best drivers: it ranks, in order, a selection of
      the drivers that repeats none of them, and no driver left off has a
      better on-time rate than any driver listed. */
  lemma LeaderboardIsTop(drivers: seq<LeaderEntry>, limit: int)
    ensures var b := Leaderboard(drivers, limit);
      exists top: seq<LeaderEntry> ::
        RanksInOrder(b, top) && multiset(top) <= multiset(drivers) && NoneBetterLeftOut(drivers, top, b)
  {
    var b := Leaderboard(drivers, limit);
    var s := SortDesc(drivers, OnTimeKey);
    var ranked := WithRanks(s);
    assert b == ranked[..|b|];
    var top := s[..|b|];
    forall i | 0 <= i < |b| ensures b[i] == top[i].(rank := i + 1) {
      assert b[i] == ranked[i];
    }
    assert RanksInOrder(b, top);
    TopPrefixIsBest(drivers, |b|, OnTimeKey);
    forall x: LeaderEntry, i | x in multiset(drivers) - multiset(top) && 0 <= i < |b|
      ensures x.onTimeRate <= b[i].onTimeRate
    {
      assert OnTimeKey(x) <= OnTimeKey(s[i]);
      assert b[i] == ranked[i];
    }
    assert NoneBetterLeftOut(drivers, top, b);
    assert multiset(top) <= multiset(drivers);
  }
}
