/**
 * The client-side six-month trend: `calculateTrendData` seeds a dictionary
 * keyed by `${year}-${month + 1}` with the current month and the five before
 * it, folds every activity into the bucket of its own month (activities
 * outside the window are dropped), then walks the six months oldest first
 * and emits the month labels, the average pace and the total distance.
 *
 * Totals are exact reals: kilometres are `distance / 1000`, minutes are
 * `movingTime / 60`, pace is minutes per kilometre.
 */
module Trend {
  import opened Wrappers
  import opened JsValues
  import opened Calendar
  import opened Activities

  /** The totals of one month: kilometres, minutes and how many activities. */
  datatype Bucket = Bucket(totalDistance: real, totalMovingTime: real, activityCount: nat)

  const EmptyBucket: Bucket := Bucket(0.0, 0.0, 0)

  /** A number on the chart: a JavaScript division by zero gives Infinity or NaN. */
  datatype ChartValue = Finite(value: real) | NonFinite

  datatype Dataset = Dataset(seriesLabel: string, data: seq<ChartValue>)

  datatype TrendData = TrendData(labels: seq<string>, datasets: seq<Dataset>)

  /** Number of months on the chart. */
  const WindowSize: nat := 6

  /** The bucket key of an activity's local start date. */
  function ActivityKey(a: RawActivity): string {
    match a.localMonth
    case None => InvalidDateKey
    case Some(ym) => MonthKey(ym)
  }

  /** An activity lands in the bucket of `ym` exactly when it started in `ym`. */
  lemma ActivityKeyMatches(a: RawActivity, ym: YearMonth)
    ensures ActivityKey(a) == MonthKey(ym) <==> a.localMonth == Some(ym)
  {
    match a.localMonth
    case None =>
      MonthKeyIsNotInvalidDateKey(ym);
    case Some(x) =>
      if MonthKey(x) == MonthKey(ym) {
        MonthKeyInjective(x, ym);
      }
  }

  /** One activity folded into a bucket. */
  function AddActivity(b: Bucket, a: RawActivity): Bucket {
    Bucket(b.totalDistance + a.distance / 1000.0,
           b.totalMovingTime + (a.movingTime as real) / 60.0,
           b.activityCount + 1)
  }

  /**
   * Reference definition of a month's bucket: the activities of `acts` that
   * started in `ym`, folded in order into an empty bucket.
   */
  function MonthTotals(acts: seq<RawActivity>, ym: YearMonth): (b: Bucket)
    ensures b.activityCount <= |acts|
    ensures b.activityCount == 0 ==> b == EmptyBucket
  {
    if acts == [] then EmptyBucket
    else
      var before := MonthTotals(acts[..|acts| - 1], ym);
      if acts[|acts| - 1].localMonth == Some(ym) then AddActivity(before, acts[|acts| - 1]) else before
  }

  /** The keys of the first `n` months of the window, counting back from `now`. */
  function KeysBefore(now: YearMonth, n: nat): set<string> {
    set i | 0 <= i < n :: MonthKey(MonthsBefore(now, i))
  }

  /** The keys of the six months of the window. */
  function WindowKeys(now: YearMonth): set<string> {
    KeysBefore(now, WindowSize)
  }

  /** Two months of the window share a key only if they are the same month. */
  lemma WindowKeyDetermines(now: YearMonth, i: nat, j: nat)
    requires MonthKey(MonthsBefore(now, i)) == MonthKey(MonthsBefore(now, j))
    ensures i == j
  {
    MonthKeyInjective(MonthsBefore(now, i), MonthsBefore(now, j));
  }

  /** Each month going back adds one new key: no two months of the window share a bucket. */
  lemma {:induction false} KeysBeforeStep(now: YearMonth, n: nat)
    ensures KeysBefore(now, n + 1) == KeysBefore(now, n) + {MonthKey(MonthsBefore(now, n))}
    ensures MonthKey(MonthsBefore(now, n)) !in KeysBefore(now, n)
  {
    var key := MonthKey(MonthsBefore(now, n));
    forall j | 0 <= j < n
      ensures MonthKey(MonthsBefore(now, j)) != key
    {
      if MonthKey(MonthsBefore(now, j)) == key {
        WindowKeyDetermines(now, j, n);
      }
    }
  }

  /** Seeding the next month of the window adds a new, empty bucket. */
  lemma SeedStep(monthlyData: map<string, Bucket>, now: YearMonth, i: nat)
    requires monthlyData.Keys == KeysBefore(now, i) && |monthlyData| == i
    requires forall k :: k in monthlyData ==> monthlyData[k] == EmptyBucket
    ensures var m := monthlyData[MonthKey(MonthsBefore(now, i)) := EmptyBucket];
            && m.Keys == KeysBefore(now, i + 1) && |m| == i + 1
            && forall k :: k in m ==> m[k] == EmptyBucket
  {
    KeysBeforeStep(now, i);
  }

  /**
   * The seeding loop: exactly six buckets, keyed by the current month and
   * the five before it, each starting at zero totals and zero count.
   */
  method SeedWindow(now: YearMonth) returns (monthlyData: map<string, Bucket>)
    ensures monthlyData.Keys == WindowKeys(now)
    ensures |monthlyData| == WindowSize
    ensures forall k :: k in monthlyData ==> monthlyData[k] == EmptyBucket
  {
    monthlyData := map[];
    for i := 0 to WindowSize
      invariant monthlyData.Keys == KeysBefore(now, i)
      invariant |monthlyData| == i
      invariant forall k :: k in monthlyData ==> monthlyData[k] == EmptyBucket
    {
      var date := MonthsBefore(now, i);
      var monthYear := MonthKey(date);
      SeedStep(monthlyData, now, i);
      monthlyData := monthlyData[monthYear := EmptyBucket];
    }
  }

  /**
   * The body of the `forEach`: an activity whose key has a bucket adds its
   * kilometres, its minutes and one to the count of that bucket and of no
   * other; an activity without a bucket changes nothing.
   */
  function Accumulate(monthlyData: map<string, Bucket>, a: RawActivity): (updated: map<string, Bucket>)
    ensures updated.Keys == monthlyData.Keys
    ensures ActivityKey(a) in monthlyData ==>
              && updated[ActivityKey(a)].activityCount == monthlyData[ActivityKey(a)].activityCount + 1
              && updated[ActivityKey(a)].totalDistance == monthlyData[ActivityKey(a)].totalDistance + a.distance / 1000.0
              && updated[ActivityKey(a)].totalMovingTime == monthlyData[ActivityKey(a)].totalMovingTime + (a.movingTime as real) / 60.0
    ensures forall k :: k in monthlyData && k != ActivityKey(a) ==> updated[k] == monthlyData[k]
    ensures ActivityKey(a) !in monthlyData ==> updated == monthlyData
  {
    var monthYear := ActivityKey(a);
    if monthYear in monthlyData then monthlyData[monthYear := AddActivity(monthlyData[monthYear], a)]
    else monthlyData
  }

  /** Folding in activity `k` extends every window bucket's totals from `acts[..k]` to `acts[..k + 1]`. */
  lemma AccumulateStep(monthlyData: map<string, Bucket>, acts: seq<RawActivity>, k: nat, now: YearMonth)
    requires k < |acts|
    requires monthlyData.Keys == WindowKeys(now)
    requires forall i :: 0 <= i < WindowSize ==>
               monthlyData[MonthKey(MonthsBefore(now, i))] == MonthTotals(acts[..k], MonthsBefore(now, i))
    ensures var updated := Accumulate(monthlyData, acts[k]);
            && updated.Keys == WindowKeys(now)
            && forall i :: 0 <= i < WindowSize ==>
                 updated[MonthKey(MonthsBefore(now, i))] == MonthTotals(acts[..k + 1], MonthsBefore(now, i))
  {
    var a := acts[k];
    assert acts[..k + 1][..k] == acts[..k];
    forall i | 0 <= i < WindowSize
      ensures ActivityKey(a) == MonthKey(MonthsBefore(now, i)) <==> a.localMonth == Some(MonthsBefore(now, i))
    {
      ActivityKeyMatches(a, MonthsBefore(now, i));
    }
  }

  /**
   * The fold over all activities: afterwards every bucket of the window
   * holds the totals of exactly the activities that started in its month.
   */
  method AccumulateActivities(seeded: map<string, Bucket>, activities: seq<RawActivity>, now: YearMonth)
    returns (monthlyData: map<string, Bucket>)
    requires seeded.Keys == WindowKeys(now)
    requires forall k :: k in seeded ==> seeded[k] == EmptyBucket
    ensures monthlyData.Keys == WindowKeys(now)
    ensures forall i {:trigger monthlyData[MonthKey(MonthsBefore(now, i))]} :: 0 <= i < WindowSize ==>
              monthlyData[MonthKey(MonthsBefore(now, i))] == MonthTotals(activities, MonthsBefore(now, i))
  {
    monthlyData := seeded;
    for k := 0 to |activities|
      invariant monthlyData.Keys == WindowKeys(now)
      invariant forall i :: 0 <= i < WindowSize ==>
                  monthlyData[MonthKey(MonthsBefore(now, i))] == MonthTotals(activities[..k], MonthsBefore(now, i))
    {
      AccumulateStep(monthlyData, activities, k, now);
      monthlyData := Accumulate(monthlyData, activities[k]);
    }
    assert activities[..|activities|] == activities;
  }

  /** The month shown at position `j` of the chart, oldest (0) to current (5). */
  function SeriesMonth(now: YearMonth, j: nat): (ym: YearMonth)
    requires j < WindowSize
    ensures MonthIndex(ym) == MonthIndex(now) - (WindowSize - 1) + j
  {
    MonthsBefore(now, WindowSize - 1 - j)
  }

  /** `a / b` on numbers: Infinity or NaN when `b` is zero. */
  function Quotient(a: real, b: real): ChartValue {
    if b == 0.0 then NonFinite else Finite(a / b)
  }

  /** A month's average pace: minutes per kilometre, 0 for a month without activities. */
  function PacePoint(b: Bucket): ChartValue {
    if b.activityCount > 0 then Quotient(b.totalMovingTime, b.totalDistance) else Finite(0.0)
  }

  /** A month's total distance in kilometres, 0 for a month without activities. */
  function DistancePoint(b: Bucket): ChartValue {
    if b.activityCount > 0 then Finite(b.totalDistance) else Finite(0.0)
  }

  const PaceLabelKey: string := "average_pace_label"
  const PaceLabelFallback: string := "Average Pace (min/km)"
  const DistanceLabelKey: string := "total_distance_label"
  const DistanceLabelFallback: string := "Total Distance (km)"

  /** The six labels: the display locale's short name of each month, oldest first. */
  function LabelSeries(now: YearMonth, monthNames: seq<string>): (labels: seq<string>)
    requires |monthNames| == 12
    ensures |labels| == WindowSize
    ensures forall j :: 0 <= j < WindowSize ==> labels[j] == monthNames[SeriesMonth(now, j).month]
  {
    seq(WindowSize, j requires 0 <= j < WindowSize => monthNames[SeriesMonth(now, j).month])
  }

  /** The six average-pace points, oldest first. */
  function PaceSeries(acts: seq<RawActivity>, now: YearMonth): (data: seq<ChartValue>)
    ensures |data| == WindowSize
    ensures forall j :: 0 <= j < WindowSize ==> data[j] == PacePoint(MonthTotals(acts, SeriesMonth(now, j)))
  {
    seq(WindowSize, j requires 0 <= j < WindowSize => PacePoint(MonthTotals(acts, SeriesMonth(now, j))))
  }

  /** The six total-distance points, oldest first. */
  function DistanceSeries(acts: seq<RawActivity>, now: YearMonth): (data: seq<ChartValue>)
    ensures |data| == WindowSize
    ensures forall j :: 0 <= j < WindowSize ==> data[j] == DistancePoint(MonthTotals(acts, SeriesMonth(now, j)))
  {
    seq(WindowSize, j requires 0 <= j < WindowSize => DistancePoint(MonthTotals(acts, SeriesMonth(now, j))))
  }

  /**
   * Reference definition of the chart data: six labels and two six-point
   * series (pace, then distance), position `j` describing `SeriesMonth(now, j)`.
   */
  function TrendOf(acts: seq<RawActivity>, now: YearMonth, monthNames: seq<string>,
                   translations: map<string, string>): TrendData
    requires |monthNames| == 12
  {
    TrendData(
      LabelSeries(now, monthNames),
      [ Dataset(EntryOr(translations, PaceLabelKey, PaceLabelFallback), PaceSeries(acts, now)),
        Dataset(EntryOr(translations, DistanceLabelKey, DistanceLabelFallback), DistanceSeries(acts, now)) ])
  }

  /** `monthlyData[key]`, a missing bucket read as an empty one (the source tests `data &&`). */
  function BucketAt(monthlyData: map<string, Bucket>, key: string): Bucket {
    if key in monthlyData then monthlyData[key] else EmptyBucket
  }

  /** The six pace points read from the buckets, oldest first. */
  function BucketPaces(monthlyData: map<string, Bucket>, now: YearMonth): (data: seq<ChartValue>)
    ensures |data| == WindowSize
  {
    seq(WindowSize, j requires 0 <= j < WindowSize => PacePoint(BucketAt(monthlyData, MonthKey(SeriesMonth(now, j)))))
  }

  /** The six distance points read from the buckets, oldest first. */
  function BucketDistances(monthlyData: map<string, Bucket>, now: YearMonth): (data: seq<ChartValue>)
    ensures |data| == WindowSize
  {
    seq(WindowSize, j requires 0 <= j < WindowSize => DistancePoint(BucketAt(monthlyData, MonthKey(SeriesMonth(now, j)))))
  }

  /** One more element of `s` taken. */
  lemma PrefixGrows<T>(s: seq<T>, n: nat)
    requires n < |s|
    ensures s[..n + 1] == s[..n] + [s[n]]
  {
  }

  /**
   * The descending loop of `calculateTrendData`: for each month from five
   * months ago to the current one, push its label, its pace and its distance.
   */
  method EmitSeries(monthlyData: map<string, Bucket>, now: YearMonth, monthNames: seq<string>)
    returns (labels: seq<string>, averagePaceData: seq<ChartValue>, totalDistanceData: seq<ChartValue>)
    requires |monthNames| == 12
    ensures labels == LabelSeries(now, monthNames)
    ensures averagePaceData == BucketPaces(monthlyData, now)
    ensures totalDistanceData == BucketDistances(monthlyData, now)
  {
    ghost var allLabels, allPaces, allDistances := LabelSeries(now, monthNames), BucketPaces(monthlyData, now),
                                                   BucketDistances(monthlyData, now);
    labels, averagePaceData, totalDistanceData := [], [], [];
    for i := WindowSize downto 0
      invariant labels == allLabels[..WindowSize - i]
      invariant averagePaceData == allPaces[..WindowSize - i]
      invariant totalDistanceData == allDistances[..WindowSize - i]
    {
      var date := MonthsBefore(now, i);
      var monthYear := MonthKey(date);
      ghost var n := WindowSize - 1 - i;
      assert date == SeriesMonth(now, n);
      PrefixGrows(allLabels, n);
      PrefixGrows(allPaces, n);
      PrefixGrows(allDistances, n);
      labels := labels + [monthNames[date.month]];
      if monthYear in monthlyData && monthlyData[monthYear].activityCount > 0 {
        var data := monthlyData[monthYear];
        averagePaceData := averagePaceData + [Quotient(data.totalMovingTime, data.totalDistance)];
        totalDistanceData := totalDistanceData + [Finite(data.totalDistance)];
      } else {
        averagePaceData := averagePaceData + [Finite(0.0)];
        totalDistanceData := totalDistanceData + [Finite(0.0)];
      }
    }
  }

  /**
   * `calculateTrendData`: `now` is the current month (the clock is a
   * parameter), `monthNames` the twelve short month names of the display
   * locale, `translations` the display locale's table.
   */
  method CalculateTrendData(activities: seq<RawActivity>, now: YearMonth, monthNames: seq<string>,
                            translations: map<string, string>) returns (trend: TrendData)
    requires |monthNames| == 12
    ensures trend == TrendOf(activities, now, monthNames, translations)
  {
    var monthlyData := SeedWindow(now);
    monthlyData := AccumulateActivities(monthlyData, activities, now);
    var labels, averagePaceData, totalDistanceData := EmitSeries(monthlyData, now, monthNames);
    forall j | 0 <= j < WindowSize
      ensures BucketAt(monthlyData, MonthKey(SeriesMonth(now, j))) == MonthTotals(activities, SeriesMonth(now, j))
    {
      var i := WindowSize - 1 - j;
      assert SeriesMonth(now, j) == MonthsBefore(now, i);
      assert MonthKey(MonthsBefore(now, i)) in WindowKeys(now);
    }
    assert BucketPaces(monthlyData, now) == PaceSeries(activities, now);
    assert BucketDistances(monthlyData, now) == DistanceSeries(activities, now);
    trend := TrendData(labels, [
      Dataset(EntryOr(translations, PaceLabelKey, PaceLabelFallback), averagePaceData),
      Dataset(EntryOr(translations, DistanceLabelKey, DistanceLabelFallback), totalDistanceData)]);
  }

  // ---------------------------------------------------------------------
  // Properties of the chart data.

  /** The six positions are consecutive months, oldest first, ending with the current month. */
  lemma SeriesIsChronological(now: YearMonth)
    ensures forall j :: 0 <= j < WindowSize - 1 ==>
              MonthIndex(SeriesMonth(now, j + 1)) == MonthIndex(SeriesMonth(now, j)) + 1
    ensures SeriesMonth(now, WindowSize - 1) == now
  {
    MonthIndexInjective(SeriesMonth(now, WindowSize - 1), now);
  }

  /** Every position of the chart shows a month of the window, and every month of the window is shown. */
  lemma SeriesCoversWindow(now: YearMonth, ym: YearMonth)
    ensures InWindow(now, ym) <==> exists j :: 0 <= j < WindowSize && SeriesMonth(now, j) == ym
  {
    if InWindow(now, ym) {
      var j := MonthIndex(ym) - MonthIndex(now) + WindowSize - 1;
      MonthIndexInjective(SeriesMonth(now, j), ym);
    }
  }

  /** A month in which no activity started has an empty bucket. */
  lemma {:induction false} MonthWithoutActivitiesIsEmpty(acts: seq<RawActivity>, ym: YearMonth)
    requires forall k :: 0 <= k < |acts| ==> acts[k].localMonth != Some(ym)
    ensures MonthTotals(acts, ym) == EmptyBucket
  {
    if acts != [] {
      MonthWithoutActivitiesIsEmpty(acts[..|acts| - 1], ym);
    }
  }

  /** A month of the chart in which no activity started plots 0 for both pace and distance. */
  lemma QuietMonthPlotsZero(acts: seq<RawActivity>, now: YearMonth, j: nat)
    requires j < WindowSize
    requires forall k :: 0 <= k < |acts| ==> acts[k].localMonth != Some(SeriesMonth(now, j))
    ensures PaceSeries(acts, now)[j] == Finite(0.0)
    ensures DistanceSeries(acts, now)[j] == Finite(0.0)
  {
    MonthWithoutActivitiesIsEmpty(acts, SeriesMonth(now, j));
  }

  /**
   * A month of the chart with activities plots its total distance, and its
   * pace is total minutes over total kilometres, not finite when the
   * kilometres sum to zero.
   */
  lemma ActiveMonthPoints(acts: seq<RawActivity>, now: YearMonth, j: nat)
    requires j < WindowSize
    requires MonthTotals(acts, SeriesMonth(now, j)).activityCount > 0
    ensures var b := MonthTotals(acts, SeriesMonth(now, j));
            && DistanceSeries(acts, now)[j] == Finite(b.totalDistance)
            && (b.totalDistance != 0.0 ==> PaceSeries(acts, now)[j] == Finite(b.totalMovingTime / b.totalDistance))
            && (b.totalDistance == 0.0 ==> PaceSeries(acts, now)[j] == NonFinite)
  {
  }

  /** The activity started in a month of the window. */
  predicate StartsInWindow(a: RawActivity, now: YearMonth) {
    a.localMonth.Some? && InWindow(now, a.localMonth.value)
  }

  /** Reference count: how many activities started in a month of the window. */
  function InWindowCount(acts: seq<RawActivity>, now: YearMonth): (n: nat)
    ensures n <= |acts|
  {
    if acts == [] then 0
    else InWindowCount(acts[..|acts| - 1], now) + (if StartsInWindow(acts[|acts| - 1], now) then 1 else 0)
  }

  /** The counts of the buckets of the `n` most recent months, added up. */
  function CountsUpTo(acts: seq<RawActivity>, now: YearMonth, n: nat): nat {
    if n == 0 then 0
    else CountsUpTo(acts, now, n - 1) + MonthTotals(acts, MonthsBefore(now, n - 1)).activityCount
  }

  /** The last activity adds one to the counts of the `n` most recent months if it started in one of them. */
  lemma {:induction false} CountsUpToStep(acts: seq<RawActivity>, now: YearMonth, n: nat)
    requires acts != []
    ensures var a := acts[|acts| - 1];
            CountsUpTo(acts, now, n) == CountsUpTo(acts[..|acts| - 1], now, n)
              + (if a.localMonth.Some? && 0 <= MonthIndex(now) - MonthIndex(a.localMonth.value) < n then 1 else 0)
  {
    if n > 0 {
      CountsUpToStep(acts, now, n - 1);
      var a := acts[|acts| - 1];
      var ym := MonthsBefore(now, n - 1);
      if a.localMonth.Some? && MonthIndex(now) - MonthIndex(a.localMonth.value) == n - 1 {
        MonthIndexInjective(ym, a.localMonth.value);
      }
    }
  }

  lemma {:induction false} CountsOfNothing(now: YearMonth, n: nat)
    ensures CountsUpTo([], now, n) == 0
  {
    if n > 0 {
      CountsOfNothing(now, n - 1);
    }
  }

  /**
   * Every activity is counted in at most one bucket: the six counts add up
   * to the number of activities that started in the window, which is at
   * most the number of activities.
   */
  lemma {:induction false} BucketCountsAreInWindowCount(acts: seq<RawActivity>, now: YearMonth)
    ensures CountsUpTo(acts, now, WindowSize) == InWindowCount(acts, now)
    ensures CountsUpTo(acts, now, WindowSize) <= |acts|
  {
    if acts == [] {
      CountsOfNothing(now, WindowSize);
    } else {
      BucketCountsAreInWindowCount(acts[..|acts| - 1], now);
      CountsUpToStep(acts, now, WindowSize);
    }
  }

  /** An activity that did not start in the window is dropped: the chart is as if it were absent. */
  lemma OutOfWindowActivityIgnored(acts: seq<RawActivity>, a: RawActivity, now: YearMonth,
                                   monthNames: seq<string>, translations: map<string, string>)
    requires |monthNames| == 12
    requires !StartsInWindow(a, now)
    ensures TrendOf(acts + [a], now, monthNames, translations) == TrendOf(acts, now, monthNames, translations)
  {
    assert (acts + [a])[..|acts|] == acts;
    forall j | 0 <= j < WindowSize
      ensures MonthTotals(acts + [a], SeriesMonth(now, j)) == MonthTotals(acts, SeriesMonth(now, j))
    {
    }
    assert PaceSeries(acts + [a], now) == PaceSeries(acts, now);
    assert DistanceSeries(acts + [a], now) == DistanceSeries(acts, now);
  }

  /** An activity that started in a month adds to that month's bucket and to no other. */
  lemma ActivityAddsToItsOwnMonth(acts: seq<RawActivity>, a: RawActivity, ym: YearMonth)
    ensures a.localMonth == Some(ym) ==>
              MonthTotals(acts + [a], ym) == Bucket(MonthTotals(acts, ym).totalDistance + a.distance / 1000.0,
                                                    MonthTotals(acts, ym).totalMovingTime + (a.movingTime as real) / 60.0,
                                                    MonthTotals(acts, ym).activityCount + 1)
    ensures a.localMonth != Some(ym) ==> MonthTotals(acts + [a], ym) == MonthTotals(acts, ym)
  {
    assert (acts + [a])[..|acts|] == acts;
  }

  /** A single 5 km run of 25 minutes this month: pace 5 min/km and 5 km now, zeros before. */
  lemma SingleRunThisMonth(now: YearMonth, monthNames: seq<string>, translations: map<string, string>)
    requires |monthNames| == 12
    ensures var t := TrendOf([RawActivity("Morning Run", 5000.0, 1500, 3.3, "", Some(now))], now, monthNames, translations);
            && t.datasets[0].data == [Finite(0.0), Finite(0.0), Finite(0.0), Finite(0.0), Finite(0.0), Finite(5.0)]
            && t.datasets[1].data == [Finite(0.0), Finite(0.0), Finite(0.0), Finite(0.0), Finite(0.0), Finite(5.0)]
  {
    var acts := [RawActivity("Morning Run", 5000.0, 1500, 3.3, "", Some(now))];
    SeriesIsChronological(now);
    forall j | 0 <= j < WindowSize - 1
      ensures MonthTotals(acts, SeriesMonth(now, j)) == EmptyBucket
    {
      assert MonthIndex(SeriesMonth(now, j)) < MonthIndex(now);
      MonthWithoutActivitiesIsEmpty(acts, SeriesMonth(now, j));
    }
    assert acts[..0] == [];
    assert MonthTotals(acts, now) == Bucket(5.0, 25.0, 1);
    assert PaceSeries(acts, now) == [Finite(0.0), Finite(0.0), Finite(0.0), Finite(0.0), Finite(0.0), Finite(5.0)];
    assert DistanceSeries(acts, now) == [Finite(0.0), Finite(0.0), Finite(0.0), Finite(0.0), Finite(0.0), Finite(5.0)];
  }
}
