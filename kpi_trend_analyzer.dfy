/**
 * The KPI trend analyser: a per-metric reading history kept to the last 90
 * days, recent-reading windows, moving averages, a least-squares slope over
 * the last seven readings, and the direction, projection and breach-risk
 * rules that turn a history into a trend and a trend into a recommendation.
 * Timestamps are whole seconds and `now` is a parameter; values are exact
 * reals and `fmt` stands for Python's rendering of a float in an f-string.
 */
module KpiTrends {
  import opened Wrappers
  import opened OrderedDict

  const Day: int := 86400

  datatype Reading = Reading(timestamp: int, value: real, unit: string)

  // ---------------------------------------------------------------------
  // Windows and ordering
  // ---------------------------------------------------------------------

  /** The readings taken at or after `cutoff`, in their order. */
  function KeepSince(xs: seq<Reading>, cutoff: int): (r: seq<Reading>)
    ensures |r| <= |xs|
  {
    if |xs| == 0 then []
    else
      var rest := KeepSince(xs[..|xs| - 1], cutoff);
      if xs[|xs| - 1].timestamp >= cutoff then rest + [xs[|xs| - 1]] else rest
  }

  /** The readings kept are exactly those taken at or after the cutoff. */
  lemma {:induction false} KeepSinceMembers(xs: seq<Reading>, cutoff: int)
    ensures forall e :: e in KeepSince(xs, cutoff) <==> e in xs && e.timestamp >= cutoff
  {
    if |xs| > 0 {
      KeepSinceMembers(xs[..|xs| - 1], cutoff);
      assert xs == xs[..|xs| - 1] + [xs[|xs| - 1]];
    }
  }

  /** A reading that passes the cutoff is kept at the end. */
  lemma KeepSinceSnoc(xs: seq<Reading>, x: Reading, cutoff: int)
    ensures KeepSince(xs + [x], cutoff) == KeepSince(xs, cutoff) + (if x.timestamp >= cutoff then [x] else [])
  {
    assert (xs + [x])[..|xs|] == xs;
  }

  predicate SortedByTime(xs: seq<Reading>) {
    forall i, j :: 0 <= i < j < |xs| ==> xs[i].timestamp <= xs[j].timestamp
  }

  /** Puts `x` after every reading of `s` that is not later than it (from the back). */
  function InsertByTime(s: seq<Reading>, x: Reading): (r: seq<Reading>)
    ensures multiset(r) == multiset(s) + multiset{x}
  {
    if |s| == 0 || s[|s| - 1].timestamp <= x.timestamp then s + [x]
    else
      assert s == s[..|s| - 1] + [s[|s| - 1]];
      InsertByTime(s[..|s| - 1], x) + [s[|s| - 1]]
  }

  lemma {:induction false} InsertSorted(s: seq<Reading>, x: Reading)
    requires SortedByTime(s)
    ensures SortedByTime(InsertByTime(s, x))
  {
    if |s| > 0 && s[|s| - 1].timestamp > x.timestamp {
      var init, last := s[..|s| - 1], s[|s| - 1];
      assert SortedByTime(init) by {
        forall i, j | 0 <= i < j < |init| ensures init[i].timestamp <= init[j].timestamp {
          assert init[i] == s[i] && init[j] == s[j];
        }
      }
      InsertSorted(init, x);
      var front := InsertByTime(init, x);
      assert NotLaterThan(init, last.timestamp) by {
        forall k | 0 <= k < |init| ensures init[k].timestamp <= last.timestamp {
          assert init[k] == s[k];
        }
      }
      InsertNotLater(init, x, last.timestamp);
      var r := front + [last];
      forall i, j | 0 <= i < j < |r| ensures r[i].timestamp <= r[j].timestamp {
        assert r[i] == front[i];
        if j < |front| { assert r[j] == front[j]; }
      }
    }
  }

  /** Every reading of `xs` is taken at or before `t`. */
  predicate NotLaterThan(xs: seq<Reading>, t: int) {
    forall k :: 0 <= k < |xs| ==> xs[k].timestamp <= t
  }

  /** Inserting a reading no later than `t` among readings no later than `t` keeps them so. */
  lemma {:induction false} InsertNotLater(s: seq<Reading>, x: Reading, t: int)
    requires NotLaterThan(s, t) && x.timestamp <= t
    ensures NotLaterThan(InsertByTime(s, x), t)
  {
    var r := InsertByTime(s, x);
    if |s| == 0 || s[|s| - 1].timestamp <= x.timestamp {
      forall k | 0 <= k < |r| ensures r[k].timestamp <= t {
        if k < |s| { assert r[k] == s[k]; }
      }
    } else {
      var init := s[..|s| - 1];
      assert NotLaterThan(init, t) by {
        forall k | 0 <= k < |init| ensures init[k].timestamp <= t {
          assert init[k] == s[k];
        }
      }
      InsertNotLater(init, x, t);
      var front := InsertByTime(init, x);
      forall k | 0 <= k < |r| ensures r[k].timestamp <= t {
        if k < |front| { assert r[k] == front[k]; }
      }
    }
  }

  /** `list.sort(key=timestamp)`: a stable sort by time. */
  function SortByTime(xs: seq<Reading>): (r: seq<Reading>)
    ensures SortedByTime(r) && multiset(r) == multiset(xs)
  {
    if |xs| == 0 then []
    else
      assert xs == xs[..|xs| - 1] + [xs[|xs| - 1]];
      InsertSorted(SortByTime(xs[..|xs| - 1]), xs[|xs| - 1]);
      InsertByTime(SortByTime(xs[..|xs| - 1]), xs[|xs| - 1])
  }

  /** Readings already in time order come out of the sort as they went in. */
  lemma {:induction false} SortSorted(xs: seq<Reading>)
    requires SortedByTime(xs)
    ensures SortByTime(xs) == xs
  {
    if |xs| > 0 {
      SortSorted(xs[..|xs| - 1]);
      assert xs == xs[..|xs| - 1] + [xs[|xs| - 1]];
    }
  }

  function SumValues(xs: seq<Reading>): real {
    if |xs| == 0 then 0.0 else SumValues(xs[..|xs| - 1]) + xs[|xs| - 1].value
  }

  /** A sum of values each within `[lo, hi]` lies within `n` times those bounds. */
  lemma SumValuesBounds(xs: seq<Reading>, lo: real, hi: real)
    requires ValuesWithin(xs, lo, hi)
    ensures |xs| as real * lo <= SumValues(xs) <= |xs| as real * hi
  {
    SumValuesRepeated(xs, lo, hi);
    RepeatedIsProduct(|xs|, lo);
    RepeatedIsProduct(|xs|, hi);
  }

  /** `c` added up `n` times. */
  function Repeated(n: nat, c: real): real {
    if n == 0 then 0.0 else Repeated(n - 1, c) + c
  }

  lemma {:induction false} RepeatedIsProduct(n: nat, c: real)
    ensures Repeated(n, c) == n as real * c
  {
    if n > 0 {
      RepeatedIsProduct(n - 1, c);
      Distribute(n as real, (n - 1) as real, c);
    }
  }

  lemma Distribute(n: real, m: real, c: real)
    requires n == m + 1.0
    ensures n * c == m * c + c
  {
  }

  lemma {:induction false} SumValuesRepeated(xs: seq<Reading>, lo: real, hi: real)
    requires ValuesWithin(xs, lo, hi)
    ensures Repeated(|xs|, lo) <= SumValues(xs) <= Repeated(|xs|, hi)
  {
    if |xs| > 0 {
      var init := xs[..|xs| - 1];
      assert ValuesWithin(init, lo, hi) by {
        forall k | 0 <= k < |init| ensures lo <= init[k].value <= hi {
          assert init[k] == xs[k];
        }
      }
      SumValuesRepeated(init, lo, hi);
      assert lo <= xs[|xs| - 1].value <= hi;
    }
  }

  /**
   * `calculate_moving_average`: the mean of the readings of the last `days`
   * days, or nothing with fewer than two of them.
   */
  function MovingAverage(readings: seq<Reading>, days: int, now: int): (r: Option<real>)
    ensures r.None? <==> |KeepSince(readings, now - days * Day)| < 2
    ensures r.Some? ==> r.value * |KeepSince(readings, now - days * Day)| as real ==
                        SumValues(KeepSince(readings, now - days * Day))
  {
    if |readings| == 0 then None
    else
      var recent := KeepSince(readings, now - days * Day);
      if |recent| < 2 then None else Some(Mean(SumValues(recent), |recent|))
  }

  /** `sum / n`, the mean of `n` values adding up to `sum`. */
  function Mean(sum: real, n: nat): (m: real)
    requires n > 0
    ensures m * n as real == sum
  {
    sum / n as real
  }

  /** The moving average lies between the smallest and the largest value averaged. */
  lemma AverageWithinBounds(readings: seq<Reading>, days: int, now: int, lo: real, hi: real)
    requires ValuesWithin(readings, lo, hi)
    requires MovingAverage(readings, days, now).Some?
    ensures lo <= MovingAverage(readings, days, now).value <= hi
  {
    var recent := KeepSince(readings, now - days * Day);
    KeepSinceBounds(readings, now - days * Day, lo, hi);
    SumValuesBounds(recent, lo, hi);
    MeanBounds(SumValues(recent), |recent|, lo, hi);
  }

  /** Every value of `xs` lies within `[lo, hi]`. */
  predicate ValuesWithin(xs: seq<Reading>, lo: real, hi: real) {
    forall k :: 0 <= k < |xs| ==> lo <= xs[k].value <= hi
  }

  /** Keeping some of the readings keeps them within any bounds all of them satisfy. */
  lemma {:induction false} KeepSinceBounds(xs: seq<Reading>, cutoff: int, lo: real, hi: real)
    requires ValuesWithin(xs, lo, hi)
    ensures ValuesWithin(KeepSince(xs, cutoff), lo, hi)
  {
    if |xs| > 0 {
      var init, last := xs[..|xs| - 1], xs[|xs| - 1];
      assert ValuesWithin(init, lo, hi) by {
        forall k | 0 <= k < |init| ensures lo <= init[k].value <= hi {
          assert init[k] == xs[k];
        }
      }
      KeepSinceBounds(init, cutoff, lo, hi);
      var rest := KeepSince(init, cutoff);
      if last.timestamp >= cutoff {
        var r := rest + [last];
        forall k | 0 <= k < |r| ensures lo <= r[k].value <= hi {
          if k < |rest| { assert r[k] == rest[k]; } else { assert r[k] == xs[|xs| - 1]; }
        }
      }
    }
  }

  lemma MeanBounds(sum: real, n: nat, lo: real, hi: real)
    requires n > 0 && n as real * lo <= sum <= n as real * hi
    ensures lo <= Mean(sum, n) <= hi
  {
    var m := n as real;
    assert sum / m - lo == (sum - m * lo) / m;
    assert hi - sum / m == (m * hi - sum) / m;
  }

  // ---------------------------------------------------------------------
  // The regression slope
  // ---------------------------------------------------------------------

  /** The sum of x over x = 0..n-1. */
  function SumX(n: nat): int {
    if n == 0 then 0 else SumX(n - 1) + (n - 1)
  }

  /** The sum of x * x over x = 0..n-1. */
  function SumX2(n: nat): int {
    if n == 0 then 0 else SumX2(n - 1) + (n - 1) * (n - 1)
  }

  function SumY(ys: seq<real>): real {
    if |ys| == 0 then 0.0 else SumY(ys[..|ys| - 1]) + ys[|ys| - 1]
  }

  /** The sum of x * y with x the position of y. */
  function SumXY(ys: seq<real>): real {
    if |ys| == 0 then 0.0 else SumXY(ys[..|ys| - 1]) + (|ys| - 1) as real * ys[|ys| - 1]
  }

  /** The regression denominator `n * sum(x*x) - sum(x) * sum(x)`. */
  function Denominator(n: nat): int {
    n * SumX2(n) - SumX(n) * SumX(n)
  }

  lemma {:induction false} SumXClosed(n: nat)
    ensures 2 * SumX(n) == n * (n - 1)
  {
    if n > 0 { SumXClosed(n - 1); }
  }

  lemma {:induction false} SumX2Closed(n: nat)
    ensures 6 * SumX2(n) == (n - 1) * n * (2 * n - 1)
  {
    if n > 0 {
      SumX2Closed(n - 1);
      assert 6 * SumX2(n) == (n - 2) * (n - 1) * (2 * n - 3) + 6 * (n - 1) * (n - 1);
    }
  }

  /** With at least two readings the denominator is positive, so the zero branch never runs. */
  lemma DenominatorPositive(n: nat)
    requires n >= 2
    ensures Denominator(n) > 0
  {
    SumXClosed(n);
    SumX2Closed(n);
    var a, b := SumX(n), SumX2(n);
    var q := n * (n - 1);
    assert 2 * a == q;
    assert 6 * b == q * (2 * n - 1);
    assert 12 * Denominator(n) == 2 * n * (6 * b) - 3 * (2 * a) * (2 * a);
    assert 12 * Denominator(n) == q * (2 * n * (2 * n - 1)) - q * (3 * q);
    assert 12 * Denominator(n) == q * (n * (n + 1));
    MulPositive(q, n * (n + 1));
  }

  lemma MulPositive(a: int, b: int)
    requires a > 0 && b > 0
    ensures a * b > 0
  {
  }

  /** The least-squares slope of `ys` against their positions. */
  function Slope(ys: seq<real>): real
    requires Denominator(|ys|) != 0
  {
    (|ys| as real * SumXY(ys) - SumX(|ys|) as real * SumY(ys)) / Denominator(|ys|) as real
  }

  /** The per-day rate of change in percent of the current value. */
  function RateOfChange(ys: seq<real>, current: real): real {
    if |ys| >= 2 then
      if Denominator(|ys|) != 0 then
        if current != 0.0 then (Slope(ys) / current) * 100.0 else 0.0
      else 0.0
    else 0.0
  }

  /** The 7-day projection `current * (1 + rate/100 * 7)`, or the current value itself. */
  function Projected(current: real, rate: real): real {
    if rate != 0.0 && current != 0.0 then current * (1.0 + (rate / 100.0) * 7.0) else current
  }

  /** The projection extends the regression line by seven steps from the current value. */
  lemma ProjectionExtendsSlope(ys: seq<real>, current: real)
    requires |ys| >= 2 && current != 0.0
    ensures Denominator(|ys|) > 0
    ensures Projected(current, RateOfChange(ys, current)) == current + 7.0 * Slope(ys)
  {
    DenominatorPositive(|ys|);
    var s := Slope(ys);
    var rate := RateOfChange(ys, current);
    assert rate == (s / current) * 100.0;
    assert rate / 100.0 == s / current;
    assert current * (s / current) == s;
    if rate == 0.0 {
      assert s == 0.0;
    }
  }

  // ---------------------------------------------------------------------
  // Direction, strength and breach risk
  // ---------------------------------------------------------------------

  datatype Direction = Increasing | Decreasing | Stable

  /** The breach-risk levels `low`, `medium`, `high` and `critical`. */
  datatype RiskLevel = Low | Medium | High | Critical

  /** The ±2% rule comparing the 7-day and the 30-day averages. */
  function DirectionOf(avg7: Option<real>, avg30: Option<real>): (d: Direction)
    ensures d == Increasing <==> avg7.Some? && avg30.Some? && avg7.value > avg30.value * 1.02
    ensures d == Decreasing <==>
              avg7.Some? && avg30.Some? && !(avg7.value > avg30.value * 1.02) && avg7.value < avg30.value * 0.98
  {
    if avg7.Some? && avg30.Some? then
      if avg7.value > avg30.value * 1.02 then Increasing
      else if avg7.value < avg30.value * 0.98 then Decreasing
      else Stable
    else Stable
  }

  function Abs(x: real): real {
    if x < 0.0 then -x else x
  }

  /** `min(1, |rate|/10)`, negated for a decreasing trend, 0 for a stable one. */
  function Strength(direction: Direction, rate: real): (s: real)
    ensures -1.0 <= s <= 1.0
    ensures s > 0.0 ==> direction == Increasing
    ensures s < 0.0 ==> direction == Decreasing
    ensures direction == Stable ==> s == 0.0
  {
    var m := if 1.0 < Abs(rate) / 10.0 then 1.0 else Abs(rate) / 10.0;
    match direction
    case Increasing => m
    case Decreasing => -m
    case Stable => 0.0
  }

  /** The risk level and recommendation of the minimum-threshold rules, if one applies. */
  function MinRule(name: string, current: real, projected: real, direction: Direction, min: real,
                   fmt: real -> string): (r: Option<(RiskLevel, string)>)
    ensures r.Some? ==> r.value.0 != Low && r.value.1 != ""
  {
    if current < min then
      Some((Critical, name + " is currently below minimum threshold (" + fmt(min) + "). Immediate action required."))
    else if projected < min then
      Some((High, name + " is declining and projected to breach minimum threshold (" + fmt(min) +
                  ") within 7 days. Proactive action recommended."))
    else if direction == Decreasing && current < min * 1.1 then
      Some((Medium, name + " is declining and approaching minimum threshold. Consider preventive measures."))
    else None
  }

  /** The risk level and recommendation of the maximum-threshold rules, if one applies. */
  function MaxRule(name: string, current: real, projected: real, direction: Direction, max: real,
                   fmt: real -> string): (r: Option<(RiskLevel, string)>)
    ensures r.Some? ==> r.value.0 != Low && r.value.1 != ""
  {
    if current > max then
      Some((Critical, name + " is currently above maximum threshold (" + fmt(max) + "). Immediate action required."))
    else if projected > max then
      Some((High, name + " is increasing and projected to breach maximum threshold (" + fmt(max) +
                  ") within 7 days. Proactive action recommended."))
    else if direction == Increasing && current > max * 0.9 then
      Some((Medium, name + " is increasing and approaching maximum threshold. Consider preventive measures."))
    else None
  }

  /**
   * The breach risk: start at low with no recommendation, apply the minimum
   * rules, then the maximum rules, whose outcome replaces the minimum one.
   */
  function Risk(name: string, current: real, projected: real, direction: Direction,
                min: Option<real>, max: Option<real>, fmt: real -> string): (r: (RiskLevel, Option<string>))
    ensures r.0 == Low <==> r.1.None?
    ensures r.1.Some? ==> r.1.value != ""
    ensures max.Some? && current > max.value ==> r.0 == Critical
    ensures (min.Some? && current < min.value &&
             (max.None? || MaxRule(name, current, projected, direction, max.value, fmt).None?)) ==> r.0 == Critical
    ensures min.None? && max.None? ==> r == (Low, None)
  {
    var afterMin: (RiskLevel, Option<string>) :=
      if min.None? then (Low, None)
      else match MinRule(name, current, projected, direction, min.value, fmt)
        case Some(p) => (p.0, Some(p.1))
        case None => (Low, None);
    if max.None? then afterMin
    else match MaxRule(name, current, projected, direction, max.value, fmt)
      case Some(p) => (p.0, Some(p.1))
      case None => afterMin
  }

  /** A maximum rule that applies decides the outcome whatever the minimum rules said. */
  lemma MaxRuleOverrides(name: string, current: real, projected: real, direction: Direction,
                         min: Option<real>, max: real, fmt: real -> string)
    requires MaxRule(name, current, projected, direction, max, fmt).Some?
    ensures var p := MaxRule(name, current, projected, direction, max, fmt).value;
            Risk(name, current, projected, direction, min, Some(max), fmt) == (p.0, Some(p.1))
  {
  }

  /** With no maximum rule applying, the outcome is that of the minimum rules. */
  lemma MinRuleStands(name: string, current: real, projected: real, direction: Direction,
                      min: real, max: Option<real>, fmt: real -> string)
    requires max.None? || MaxRule(name, current, projected, direction, max.value, fmt).None?
    requires MinRule(name, current, projected, direction, min, fmt).Some?
    ensures var p := MinRule(name, current, projected, direction, min, fmt).value;
            Risk(name, current, projected, direction, Some(min), max, fmt) == (p.0, Some(p.1))
  {
  }

  /**
   * A reading already below its minimum is critical, yet a projection above
   * the maximum replaces that with high: the maximum rules run last.
   */
  lemma CriticalReplacedByHigh(fmt: real -> string)
    ensures MinRule("churn", 5.0, 15.0, Stable, 10.0, fmt).value.0 == Critical
    ensures Risk("churn", 5.0, 15.0, Stable, Some(10.0), Some(12.0), fmt).0 == High
  {
  }

  // ---------------------------------------------------------------------
  // Trends
  // ---------------------------------------------------------------------

  datatype Trend = Trend(
    metricName: string,
    currentValue: real,
    direction: Direction,
    strength: real,
    daysAnalyzed: nat,
    movingAvg7: Option<real>,
    movingAvg30: Option<real>,
    rateOfChange: real,
    projected7: real,
    risk: RiskLevel,
    recommendation: Option<string>)

  /** The facts every trend `analyze_trend` produces satisfies. */
  predicate WellFormed(t: Trend) {
    -1.0 <= t.strength <= 1.0 && (t.risk == Low <==> t.recommendation.None?) &&
    (t.recommendation.Some? ==> t.recommendation.value != "")
  }

  function Values(xs: seq<Reading>): (ys: seq<real>)
    ensures |ys| == |xs| && forall k :: 0 <= k < |xs| ==> ys[k] == xs[k].value
  {
    seq(|xs|, k requires 0 <= k < |xs| => xs[k].value)
  }

  /** Python's `xs[-n:]`: the last `n` readings, or all of them when there are fewer. */
  function LastN(xs: seq<Reading>, n: nat): (r: seq<Reading>)
    ensures |r| == (if |xs| < n then |xs| else n) && r == xs[|xs| - |r|..]
  {
    xs[|xs| - (if |xs| < n then |xs| else n)..]
  }

  /** The min and max bounds a caller passes per metric (`{"min": .., "max": ..}`). */
  datatype Bounds = Bounds(min: Option<real>, max: Option<real>)

  class KpiTrendAnalyzer {
    var history: map<string, seq<Reading>>

    /** An analyser with no history file on disk. */
    constructor()
      ensures history == map[]
    {
      history := map[];
    }

    /**
     * `record_kpi`: append the reading, then keep only the readings of that
     * metric taken at most 90 days before it; other metrics are untouched.
     */
    method RecordKpi(metricName: string, value: real, unit: string, timestamp: int)
      modifies this
      ensures var before := if metricName in old(history) then old(history)[metricName] else [];
              history == old(history)[metricName :=
                           KeepSince(before, timestamp - 90 * Day) + [Reading(timestamp, value, unit)]]
    {
      var entry := Reading(timestamp, value, unit);
      var h := if metricName in history then history[metricName] else [];
      KeepSinceSnoc(h, entry, timestamp - 90 * Day);
      h := h + [entry];
      h := KeepSince(h, timestamp - 90 * Day);
      history := history[metricName := h];
    }

    /**
     * `get_recent_readings`: nothing for an unknown metric, else the readings
     * of the last `days` days sorted by time.
     */
    function RecentReadings(metricName: string, days: int, now: int): (r: seq<Reading>)
      reads this
      ensures metricName !in history ==> r == []
      ensures SortedByTime(r)
      ensures metricName in history ==> multiset(r) == multiset(KeepSince(history[metricName], now - days * Day))
      ensures forall e :: e in r ==> e.timestamp >= now - days * Day
    {
      if metricName !in history then []
      else
        var r := SortByTime(KeepSince(history[metricName], now - days * Day));
        KeepSinceMembers(history[metricName], now - days * Day);
        assert forall e :: e in r ==> e in multiset(r);
        r
    }

    /** `analyze_trend`: nothing with fewer than three readings in the last 30 days. */
    function AnalyzeTrend(metricName: string, min: Option<real>, max: Option<real>, now: int,
                          fmt: real -> string): (t: Option<Trend>)
      reads this
      ensures t.None? <==> |RecentReadings(metricName, 30, now)| < 3
      ensures t.Some? ==> WellFormed(t.value) && t.value.metricName == metricName
      ensures t.Some? ==> var rs := RecentReadings(metricName, 30, now);
                          t.value.daysAnalyzed == |rs| && t.value.currentValue == rs[|rs| - 1].value
      ensures t.Some? ==> t.value.direction == DirectionOf(t.value.movingAvg7, t.value.movingAvg30)
      ensures t.Some? && t.value.strength > 0.0 ==> t.value.direction == Increasing
      ensures t.Some? && t.value.strength < 0.0 ==> t.value.direction == Decreasing
      ensures t.Some? ==> var rs := RecentReadings(metricName, 30, now); var current := rs[|rs| - 1].value;
                          t.value.movingAvg7 == MovingAverage(rs, 7, now) &&
                          t.value.movingAvg30 == MovingAverage(rs, 30, now) &&
                          t.value.rateOfChange == RateOfChange(Values(LastN(rs, 7)), current) &&
                          t.value.strength == Strength(t.value.direction, t.value.rateOfChange) &&
                          t.value.projected7 == Projected(current, t.value.rateOfChange) &&
                          (t.value.risk, t.value.recommendation) ==
                            Risk(metricName, current, t.value.projected7, t.value.direction, min, max, fmt)
    {
      var readings := RecentReadings(metricName, 30, now);
      if |readings| < 3 then None
      else
        var current := readings[|readings| - 1].value;
        var avg7 := MovingAverage(readings, 7, now);
        var avg30 := MovingAverage(readings, 30, now);
        var lastSeven := LastN(readings, 7);
        var rate := RateOfChange(Values(lastSeven), current);
        var direction := DirectionOf(avg7, avg30);
        var strength := Strength(direction, rate);
        var projected := Projected(current, rate);
        var risk := Risk(metricName, current, projected, direction, min, max, fmt);
        Some(Trend(metricName, current, direction, strength, |readings|, avg7, avg30, rate, projected,
                   risk.0, risk.1))
    }

    /** The trends of the metrics of `table`, in its order, skipping metrics without enough data. */
    function TrendsOf(table: Dict<string, Bounds>, now: int, fmt: real -> string): (ts: seq<Trend>)
      reads this
      ensures forall k :: 0 <= k < |ts| ==> WellFormed(ts[k])
    {
      if |table| == 0 then []
      else
        var rest := TrendsOf(table[..|table| - 1], now, fmt);
        var (name, b) := table[|table| - 1];
        match AnalyzeTrend(name, b.min, b.max, now, fmt)
        case Some(t) => rest + [t]
        case None => rest
    }

    /** The result of analysing each metric of `table`, in its order. */
    function Analyses(table: Dict<string, Bounds>, now: int, fmt: real -> string): (os: seq<Option<Trend>>)
      reads this
      ensures |os| == |table|
      ensures forall i :: 0 <= i < |table| ==> os[i] == AnalyzeTrend(table[i].0, table[i].1.min, table[i].1.max, now, fmt)
    {
      seq(|table|, i reads this requires 0 <= i < |table| =>
        AnalyzeTrend(table[i].0, table[i].1.min, table[i].1.max, now, fmt))
    }

    /** `get_trends_for_all_kpis`. */
    method TrendsForAll(table: Dict<string, Bounds>, now: int, fmt: real -> string) returns (trends: seq<Trend>)
      ensures trends == TrendsOf(table, now, fmt)
    {
      trends := [];
      var k := 0;
      while k < |table|
        invariant 0 <= k <= |table|
        invariant trends == TrendsOf(table[..k], now, fmt)
      {
        assert table[..k + 1][..k] == table[..k];
        var (name, b) := table[k];
        var t := AnalyzeTrend(name, b.min, b.max, now, fmt);
        if t.Some? {
          trends := trends + [t.value];
        }
        k := k + 1;
      }
      assert table[..k] == table;
    }

    /**
     * `get_proactive_recommendations`: the recommendations of the trends at
     * medium, high or critical risk, in the table's order.
     */
    method ProactiveRecommendations(table: Dict<string, Bounds>, now: int, fmt: real -> string)
        returns (recs: seq<string>)
      ensures recs == Recommendations(TrendsOf(table, now, fmt))
      ensures |recs| == AtRisk(TrendsOf(table, now, fmt))
    {
      var trends := TrendsForAll(table, now, fmt);
      recs := [];
      var k := 0;
      while k < |trends|
        invariant 0 <= k <= |trends|
        invariant recs == Recommendations(trends[..k])
      {
        assert trends[..k + 1][..k] == trends[..k];
        var t := trends[k];
        if t.risk == Medium || t.risk == High || t.risk == Critical {
          if t.recommendation.Some? && t.recommendation.value != "" {
            recs := recs + [t.recommendation.value];
          }
        }
        k := k + 1;
      }
      assert trends[..k] == trends;
      RecommendationsCount(trends);
    }
  }

  /** A trend is passed on when its risk is above low and it carries a non-empty recommendation. */
  function Recommendations(ts: seq<Trend>): seq<string> {
    if |ts| == 0 then []
    else
      var t := ts[|ts| - 1];
      Recommendations(ts[..|ts| - 1]) +
      (if (t.risk == Medium || t.risk == High || t.risk == Critical) &&
          t.recommendation.Some? && t.recommendation.value != ""
       then [t.recommendation.value] else [])
  }

  /** The number of trends whose risk is not low. */
  function AtRisk(ts: seq<Trend>): nat {
    if |ts| == 0 then 0 else AtRisk(ts[..|ts| - 1]) + (if ts[|ts| - 1].risk != Low then 1 else 0)
  }

  /** Every trend above low risk yields exactly one recommendation, and no other trend does. */
  lemma {:induction false} RecommendationsCount(ts: seq<Trend>)
    requires forall k :: 0 <= k < |ts| ==> WellFormed(ts[k])
    ensures |Recommendations(ts)| == AtRisk(ts)
  {
    if |ts| > 0 {
      RecommendationsCount(ts[..|ts| - 1]);
    }
  }

  /** The trends of a table are the present results of analysing each of its metrics. */
  lemma {:induction false} TrendsOfAnalyses(a: KpiTrendAnalyzer, table: Dict<string, Bounds>, now: int,
                                            fmt: real -> string)
    ensures a.TrendsOf(table, now, fmt) == Somes(a.Analyses(table, now, fmt))
  {
    if |table| > 0 {
      var init := table[..|table| - 1];
      TrendsOfAnalyses(a, init, now, fmt);
      var os, os0 := a.Analyses(table, now, fmt), a.Analyses(init, now, fmt);
      assert os[..|os| - 1] == os0 by {
        forall j | 0 <= j < |os0| ensures os[j] == os0[j] {
          assert table[j] == init[j];
        }
      }
    }
  }

  /** Every trend collected comes from one metric of the table. */
  lemma TrendsOfSound(a: KpiTrendAnalyzer, table: Dict<string, Bounds>, now: int, fmt: real -> string, k: nat)
    requires k < |a.TrendsOf(table, now, fmt)|
    ensures exists i :: 0 <= i < |table| &&
              a.AnalyzeTrend(table[i].0, table[i].1.min, table[i].1.max, now, fmt) == Some(a.TrendsOf(table, now, fmt)[k])
  {
    var os := a.Analyses(table, now, fmt);
    TrendsOfAnalyses(a, table, now, fmt);
    SomesSound(os, k);
    var i :| 0 <= i < |os| && os[i] == Some(Somes(os)[k]);
    assert os[i] == a.AnalyzeTrend(table[i].0, table[i].1.min, table[i].1.max, now, fmt);
  }

  /** Every metric of the table that has a trend contributes it. */
  lemma TrendsOfComplete(a: KpiTrendAnalyzer, table: Dict<string, Bounds>, now: int, fmt: real -> string, i: nat)
    requires i < |table| && a.AnalyzeTrend(table[i].0, table[i].1.min, table[i].1.max, now, fmt).Some?
    ensures a.AnalyzeTrend(table[i].0, table[i].1.min, table[i].1.max, now, fmt).value in a.TrendsOf(table, now, fmt)
  {
    var os := a.Analyses(table, now, fmt);
    TrendsOfAnalyses(a, table, now, fmt);
    assert os[i] == a.AnalyzeTrend(table[i].0, table[i].1.min, table[i].1.max, now, fmt);
    SomesComplete(os, i);
  }

  /** For well-formed trends, the recommendations are exactly those of the trends above low risk. */
  lemma {:induction false} RecommendationsMeaning(ts: seq<Trend>, rec: string)
    requires forall k :: 0 <= k < |ts| ==> WellFormed(ts[k])
    ensures rec in Recommendations(ts) <==>
              exists k :: 0 <= k < |ts| && ts[k].risk != Low && ts[k].recommendation == Some(rec)
  {
    if |ts| > 0 {
      var init := ts[..|ts| - 1];
      RecommendationsMeaning(init, rec);
      assert forall k :: 0 <= k < |init| ==> init[k] == ts[k];
    }
  }

  /**
   * A metric of the table whose trend is at medium, high or critical risk has
   * its recommendation among the proactive recommendations.
   */
  lemma AtRiskMetricRecommended(a: KpiTrendAnalyzer, table: Dict<string, Bounds>, now: int, fmt: real -> string,
                                i: nat)
    requires i < |table|
    requires var t := a.AnalyzeTrend(table[i].0, table[i].1.min, table[i].1.max, now, fmt); t.Some? && t.value.risk != Low
    ensures a.AnalyzeTrend(table[i].0, table[i].1.min, table[i].1.max, now, fmt).value.recommendation.Some?
    ensures a.AnalyzeTrend(table[i].0, table[i].1.min, table[i].1.max, now, fmt).value.recommendation.value
              in Recommendations(a.TrendsOf(table, now, fmt))
  {
    var t := a.AnalyzeTrend(table[i].0, table[i].1.min, table[i].1.max, now, fmt).value;
    var ts := a.TrendsOf(table, now, fmt);
    TrendsOfComplete(a, table, now, fmt, i);
    var k :| 0 <= k < |ts| && ts[k] == t;
    RecommendationsMeaning(ts, t.recommendation.value);
  }

  /** Every proactive recommendation is that of some metric of the table at risk above low. */
  lemma RecommendedOnlyAtRisk(a: KpiTrendAnalyzer, table: Dict<string, Bounds>, now: int, fmt: real -> string,
                              rec: string)
    requires rec in Recommendations(a.TrendsOf(table, now, fmt))
    ensures exists i :: 0 <= i < |table| &&
              var t := a.AnalyzeTrend(table[i].0, table[i].1.min, table[i].1.max, now, fmt);
              t.Some? && t.value.risk != Low && t.value.recommendation == Some(rec)
  {
    var ts := a.TrendsOf(table, now, fmt);
    RecommendationsMeaning(ts, rec);
    var k :| 0 <= k < |ts| && ts[k].risk != Low && ts[k].recommendation == Some(rec);
    TrendsOfSound(a, table, now, fmt, k);
  }
}
