/**
 * The computations of the mood tracker in app/components/mood/moodTracker.tsx: the emoji of a
 * score, the seven daily summaries of `processMoodData`, the two insights of `generateInsights`,
 * the weekly statistics that `fetchMoodData` computes from the raw history, and the state that
 * `fetchMoodData` leaves behind.
 *
 * Instants are milliseconds; date-fns' `startOfDay`, `endOfDay` and `subDays` on the local
 * calendar are the fields of a `Clock` value and `new Date()` is `now`. The request for the
 * history is not modelled: its answer is a parameter. The means and the variance are computed on
 * `real`s, as the component computes them on JavaScript numbers.
 */
module MoodTracker {
  import opened Wrappers
  import opened Seqs

  /** A mood entry of the history. */
  datatype MoodEntry = MoodEntry(id: string, score: int, note: Option<string>, timestamp: int, activities: seq<string>)

  function Scores(entries: seq<MoodEntry>): (r: seq<int>)
    ensures |r| == |entries|
    ensures forall i :: 0 <= i < |entries| ==> r[i] == entries[i].score
  {
    seq(|entries|, i requires 0 <= i < |entries| => entries[i].score)
  }

  // ---------------------------------------------------------------------------------------------
  // The emoji of a score

  datatype Icon = Smile | Meh | Frown

  datatype Emoji = Emoji(icon: Icon, color: string)

  function Color(icon: Icon): string {
    match icon
    case Smile => "text-green-500"
    case Meh => "text-yellow-500"
    case Frown => "text-red-500"
  }

  /** `getMoodEmoji`: a smile from 80, a neutral face from 60, a frown below; each icon has its
      own colour. */
  function MoodEmoji(value: int): (e: Emoji)
    ensures e.icon == Smile <==> 80 <= value
    ensures e.icon == Meh <==> 60 <= value < 80
    ensures e.icon == Frown <==> value < 60
    ensures e.color == Color(e.icon)
  {
    if value >= 80 then Emoji(Smile, "text-green-500")
    else if value >= 60 then Emoji(Meh, "text-yellow-500")
    else Emoji(Frown, "text-red-500")
  }

  function Cheer(icon: Icon): int {
    match icon
    case Frown => 0
    case Meh => 1
    case Smile => 2
  }

  /** A higher score never shows a sadder face. */
  lemma EmojiMonotone(v: int, w: int)
    requires v <= w
    ensures Cheer(MoodEmoji(v).icon) <= Cheer(MoodEmoji(w).icon)
  {
  }

  // ---------------------------------------------------------------------------------------------
  // Daily summaries

  /** date-fns' `startOfDay`, `endOfDay` and `subDays` on the local calendar. */
  datatype Clock = Clock(startOfDay: int -> int, endOfDay: int -> int, subDays: (int, int) -> int)

  /** The summary of one day; its weekday label (`format(date, 'EEE')`) and the mock sleep
      estimate are not modelled. */
  datatype DayData = DayData(date: int, value: int, entries: seq<MoodEntry>, energy: int)

  /** `entryDate >= dayStart && entryDate <= dayEnd`. */
  function Within(dayStart: int, dayEnd: int): MoodEntry -> bool {
    (e: MoodEntry) => dayStart <= e.timestamp <= dayEnd
  }

  /** `Math.round` of the mean score, 0 for a day without entries. */
  function Average(entries: seq<MoodEntry>): int {
    if entries == [] then 0 else RoundDiv(Sum(Scores(entries)), |entries|)
  }

  /** The energy of a day: its value plus 10, at most 100, and 0 without entries. */
  function Energy(entries: seq<MoodEntry>, value: int): int {
    if entries == [] then 0 else if value + 10 <= 100 then value + 10 else 100
  }

  /** The day `i` days before `now`. */
  function DayOf(raw: seq<MoodEntry>, clock: Clock, now: int, i: int): DayData {
    var date := clock.subDays(now, i);
    var dayEntries := Filter(raw, Within(clock.startOfDay(date), clock.endOfDay(date)));
    var value := Average(dayEntries);
    DayData(date, value, dayEntries, Energy(dayEntries, value))
  }

  /** The seven days ending today, the oldest first. */
  function LastWeek(raw: seq<MoodEntry>, clock: Clock, now: int): (r: seq<DayData>)
    ensures |r| == 7
    ensures forall k :: 0 <= k < 7 ==> r[k] == DayOf(raw, clock, now, 6 - k)
  {
    seq(7, k requires 0 <= k < 7 => DayOf(raw, clock, now, 6 - k))
  }

  /** `processMoodData`: for i from 6 down to 0, push the summary of the day `i` days ago. */
  method ProcessMoodData(raw: seq<MoodEntry>, clock: Clock, now: int) returns (days: seq<DayData>)
    ensures days == LastWeek(raw, clock, now)
    ensures days[6].date == clock.subDays(now, 0)
  {
    days := [];
    var i := 6;
    while i >= 0
      invariant -1 <= i <= 6
      invariant |days| == 6 - i
      invariant forall k :: 0 <= k < |days| ==> days[k] == DayOf(raw, clock, now, 6 - k)
    {
      var date := clock.subDays(now, i);
      var dayStart := clock.startOfDay(date);
      var dayEnd := clock.endOfDay(date);
      var dayEntries := Filter(raw, Within(dayStart, dayEnd));
      var averageMood := if |dayEntries| > 0 then RoundDiv(Sum(Scores(dayEntries)), |dayEntries|) else 0;
      var energy := if |dayEntries| > 0 then (if averageMood + 10 <= 100 then averageMood + 10 else 100) else 0;
      assert DayData(date, averageMood, dayEntries, energy) == DayOf(raw, clock, now, i);
      days := days + [DayData(date, averageMood, dayEntries, energy)];
      i := i - 1;
    }
  }

  /** A day holds exactly the entries inside its window, both ends included; its value is their
      rounded mean, which lies within their scores' bounds, and its energy is the value raised by
      10 and capped at 100. A day without entries has value and energy 0. */
  lemma DayFacts(raw: seq<MoodEntry>, clock: Clock, now: int, i: int, lo: int, hi: int)
    requires forall k :: 0 <= k < |raw| ==> lo <= raw[k].score <= hi
    ensures var d := DayOf(raw, clock, now, i);
      var dayStart, dayEnd := clock.startOfDay(clock.subDays(now, i)), clock.endOfDay(clock.subDays(now, i));
      && (forall k :: 0 <= k < |raw| && dayStart <= raw[k].timestamp <= dayEnd ==> raw[k] in d.entries)
      && (forall e :: e in d.entries ==> e in raw && dayStart <= e.timestamp <= dayEnd)
      && (d.entries == [] ==> d.value == 0 && d.energy == 0)
      && (d.entries != [] ==>
            && lo <= d.value <= hi
            && 2 * |d.entries| * d.value - |d.entries| <= 2 * Sum(Scores(d.entries)) < 2 * |d.entries| * d.value + |d.entries|
            && d.energy == (if d.value + 10 <= 100 then d.value + 10 else 100))
  {
    var d := DayOf(raw, clock, now, i);
    if d.entries != [] {
      var s := Scores(d.entries);
      forall k | 0 <= k < |s|
        ensures lo <= s[k] <= hi
      {
        assert d.entries[k] in raw;
      }
      SumBetween(s, lo, hi);
      RoundDivBetween(Sum(s), |s|, lo, hi);
    }
  }

  // ---------------------------------------------------------------------------------------------
  // Insights

  datatype Trend = Up | Down | Stable

  /** The insights the tracker shows; an improvement or a dip carries its rounded size. */
  datatype Kind =
    | GettingStarted
    | MoodImprovement(percent: int)
    | MoodDipDetected(percent: int)
    | StableMood
    | ConsistentTracking
    | MoodVariability
    | NoDataYet

  datatype Insight = Insight(kind: Kind, trend: Trend)

  function Title(k: Kind): string {
    match k
    case GettingStarted => "Getting Started"
    case MoodImprovement(_) => "Mood Improvement"
    case MoodDipDetected(_) => "Mood Dip Detected"
    case StableMood => "Stable Mood"
    case ConsistentTracking => "Consistent Tracking"
    case MoodVariability => "Mood Variability"
    case NoDataYet => "No Data Yet"
  }

  function Valid(): DayData -> bool {
    (d: DayData) => d.value > 0
  }

  function Values(days: seq<DayData>): (r: seq<int>)
    ensures |r| == |days|
    ensures forall i :: 0 <= i < |days| ==> r[i] == days[i].value
  {
    seq(|days|, i requires 0 <= i < |days| => days[i].value)
  }

  /** `Math.round` of a number: the nearest integer, halves rounded up. */
  function Round(x: real): int {
    (x + 0.5).Floor
  }

  /** `slice(-3)`: the last three values, or all of them when there are fewer. */
  function LastThree(v: seq<int>): (r: seq<int>)
    ensures |v| <= 3 ==> r == v
    ensures |v| > 3 ==> |r| == 3
  {
    if |v| <= 3 then v else v[|v| - 3..]
  }

  /** `slice(0, -3)`: the values before the last three, none when there are three or fewer. */
  function BeforeLastThree(v: seq<int>): (r: seq<int>)
    ensures |v| <= 3 ==> r == []
    ensures BeforeLastThree(v) + LastThree(v) == v
  {
    if |v| <= 3 then [] else v[..|v| - 3]
  }

  /** `Math.max(validDays.length - 3, 1)`. */
  function EarlierCount(v: seq<int>): int {
    if |v| - 3 >= 1 then |v| - 3 else 1
  }

  /** The recent mood: the sum of the last three values divided by 3, however many there are. */
  function RecentMood(v: seq<int>): real {
    Sum(LastThree(v)) as real / 3.0
  }

  /** The earlier mood: the mean of the values before the last three, 0 when there are none. */
  function EarlierMood(v: seq<int>): real {
    Sum(BeforeLastThree(v)) as real / EarlierCount(v) as real
  }

  /** The trend insight: up when the recent mood exceeds the earlier one by more than 5, down
      when it falls short by more than 5, stable otherwise. */
  function TrendInsight(v: seq<int>): Insight {
    var recent, earlier := RecentMood(v), EarlierMood(v);
    if recent > earlier + 5.0 then Insight(MoodImprovement(Round(recent - earlier)), Up)
    else if recent < earlier - 5.0 then Insight(MoodDipDetected(Round(earlier - recent)), Down)
    else Insight(StableMood, Stable)
  }

  function Mean(v: seq<int>): real
    requires v != []
  {
    Sum(v) as real / |v| as real
  }

  /** The sum of the squared differences from `m`. */
  function Deviations(v: seq<int>, m: real): real {
    if v == [] then 0.0
    else Deviations(v[..|v| - 1], m) + (v[|v| - 1] as real - m) * (v[|v| - 1] as real - m)
  }

  /** The population variance the component computes. */
  function Variance(v: seq<int>): real
    requires v != []
  {
    Deviations(v, Mean(v)) / |v| as real
  }

  /** The consistency insight: a variance below 100 is consistent tracking. */
  function ConsistencyInsight(v: seq<int>): Insight
    requires v != []
  {
    if Variance(v) < 100.0 then Insight(ConsistentTracking, Up) else Insight(MoodVariability, Stable)
  }

  /** What `generateInsights` returns for the seven days. */
  function Insights(daily: seq<DayData>): seq<Insight> {
    var v := Values(Filter(daily, Valid()));
    if |v| < 2 then [Insight(GettingStarted, Stable)]
    else [TrendInsight(v), ConsistencyInsight(v)]
  }

  /** The trend analysis of `generateInsights`: push one of the three trend insights. */
  method PushTrend(insights: seq<Insight>, values: seq<int>) returns (r: seq<Insight>)
    ensures r == insights + [TrendInsight(values)]
  {
    var recentMood := Sum(LastThree(values)) as real / 3.0;
    var earlierMood := Sum(BeforeLastThree(values)) as real / EarlierCount(values) as real;
    assert recentMood == RecentMood(values) && earlierMood == EarlierMood(values);
    if recentMood > earlierMood + 5.0 {
      r := insights + [Insight(MoodImprovement(Round(recentMood - earlierMood)), Up)];
    } else if recentMood < earlierMood - 5.0 {
      r := insights + [Insight(MoodDipDetected(Round(earlierMood - recentMood)), Down)];
    } else {
      r := insights + [Insight(StableMood, Stable)];
    }
  }

  /** The consistency analysis of `generateInsights`: push one of the two consistency insights. */
  method PushConsistency(insights: seq<Insight>, values: seq<int>) returns (r: seq<Insight>)
    requires values != []
    ensures r == insights + [ConsistencyInsight(values)]
  {
    var variance := Deviations(values, Mean(values)) / |values| as real;
    assert variance == Variance(values);
    if variance < 100.0 {
      r := insights + [Insight(ConsistentTracking, Up)];
    } else {
      r := insights + [Insight(MoodVariability, Stable)];
    }
  }

  /** `generateInsights`: fewer than two days with a value give the single getting-started
      insight; otherwise the trend insight is pushed, then the consistency insight. */
  method GenerateInsights(daily: seq<DayData>) returns (insights: seq<Insight>)
    ensures insights == Insights(daily)
  {
    insights := [];
    var validDays := Filter(daily, Valid());
    if |validDays| < 2 {
      return [Insight(GettingStarted, Stable)];
    }
    var values := Values(validDays);
    insights := PushTrend(insights, values);
    insights := PushConsistency(insights, values);
  }

  /** One insight, getting started, with fewer than two valid days; otherwise exactly two, a trend
      insight and then a consistency insight. */
  lemma InsightShape(daily: seq<DayData>)
    ensures var r := Insights(daily);
      var valid := |Filter(daily, Valid())|;
      && (valid < 2 <==> r == [Insight(GettingStarted, Stable)])
      && (valid >= 2 <==> |r| == 2)
      && (valid >= 2 ==>
            && (r[0].kind.StableMood? || r[0].kind.MoodImprovement? || r[0].kind.MoodDipDetected?)
            && (r[1].kind.ConsistentTracking? || r[1].kind.MoodVariability?))
  {
  }

  /** The trend decision made on integers: with `d` the number of earlier values (at least 1),
      the trend is up exactly when `d` times the recent sum exceeds 3 times the earlier sum by
      more than `15 d`, and down exactly when it falls short by more than `15 d`. */
  lemma TrendCrossMultiplied(v: seq<int>)
    ensures var a, b, d := Sum(LastThree(v)), Sum(BeforeLastThree(v)), EarlierCount(v);
      && (TrendInsight(v).trend == Up <==> a * d > 3 * b + 15 * d)
      && (TrendInsight(v).trend == Down <==> a * d < 3 * b - 15 * d)
  {
    var a, b, d := Sum(LastThree(v)), Sum(BeforeLastThree(v)), EarlierCount(v);
    AboveScaled(a, b, d);
    BelowScaled(a, b, d);
  }

  lemma AboveScaled(a: int, b: int, d: int)
    requires d >= 1
    ensures a as real / 3.0 > b as real / d as real + 5.0 <==> a * d > 3 * b + 15 * d
  {
    var ra, rb, rd := a as real, b as real, d as real;
    ScaleCompare(ra / 3.0, rb / rd + 5.0, 3.0 * rd);
    assert (ra / 3.0) * (3.0 * rd) == ra * rd;
    assert (rb / rd + 5.0) * (3.0 * rd) == 3.0 * rb + 15.0 * rd;
    assert (a * d) as real == ra * rd;
  }

  lemma BelowScaled(a: int, b: int, d: int)
    requires d >= 1
    ensures a as real / 3.0 < b as real / d as real - 5.0 <==> a * d < 3 * b - 15 * d
  {
    var ra, rb, rd := a as real, b as real, d as real;
    ScaleCompare(rb / rd - 5.0, ra / 3.0, 3.0 * rd);
    assert (ra / 3.0) * (3.0 * rd) == ra * rd;
    assert (rb / rd - 5.0) * (3.0 * rd) == 3.0 * rb - 15.0 * rd;
    assert (a * d) as real == ra * rd;
  }

  lemma ScaleCompare(x: real, y: real, c: real)
    requires c > 0.0
    ensures x > y <==> x * c > y * c
  {
    if x > y {
      assert (x - y) * c > 0.0;
    } else {
      assert (y - x) * c >= 0.0;
    }
  }

  /** With three valid days or fewer nothing is earlier, so the recent sum is compared with 0:
      the trend is up exactly when the values add up to more than 15. Two days at 50 read as a
      33 % improvement. */
  lemma ShortHistoryTrend(v: seq<int>)
    requires |v| <= 3
    ensures EarlierMood(v) == 0.0
    ensures TrendInsight(v).trend == Up <==> Sum(v) > 15
  {
    TrendCrossMultiplied(v);
  }

  /** A week of equal values over more than three days is a stable trend. */
  lemma ConstantValuesStable(v: seq<int>, c: int)
    requires |v| > 3
    requires forall i :: 0 <= i < |v| ==> v[i] == c
    ensures TrendInsight(v).trend == Stable
  {
    var a, b := LastThree(v), BeforeLastThree(v);
    assert a == v[|v| - 3..];
    assert b == v[..|v| - 3];
    SumBetween(a, c, c);
    SumBetween(b, c, c);
    TrendCrossMultiplied(v);
  }

  /** `n` times the sum of `n v - total` squared: the deviations scaled to integers. */
  function Spread(v: seq<int>, total: int, n: int): int {
    if v == [] then 0
    else Spread(v[..|v| - 1], total, n) + (n * v[|v| - 1] - total) * (n * v[|v| - 1] - total)
  }

  /** `a` scaled by `c` is the integer `k`. */
  predicate Scaled(a: real, c: real, k: int) {
    a * c == k as real
  }

  lemma TermScaled(x: int, m: real, total: int, n: int, c: real)
    requires n > 0 && m * n as real == total as real && c == n as real * n as real
    ensures Scaled((x as real - m) * (x as real - m), c, (n * x - total) * (n * x - total))
  {
    var rn := n as real;
    var y := x as real - m;
    assert y * rn == (n * x - total) as real;
    assert y * y * (rn * rn) == (y * rn) * (y * rn);
    assert ((n * x - total) * (n * x - total)) as real == (n * x - total) as real * (n * x - total) as real;
  }

  lemma AddScaled(init: real, t: real, c: real, sp: int, sq: int)
    requires Scaled(init, c, sp) && Scaled(t, c, sq)
    ensures Scaled(init + t, c, sp + sq)
  {
    assert (init + t) * c == init * c + t * c;
  }

  /** The deviations from the mean `total / n`, scaled by `n^2`, are the integer spread. */
  lemma {:induction false} DeviationsScaled(v: seq<int>, m: real, total: int, n: int, c: real)
    requires n > 0 && m * n as real == total as real && c == n as real * n as real
    ensures Scaled(Deviations(v, m), c, Spread(v, total, n))
  {
    if v != [] {
      var x, init := v[|v| - 1], v[..|v| - 1];
      DeviationsScaled(init, m, total, n, c);
      TermScaled(x, m, total, n, c);
      AddScaled(Deviations(init, m), (x as real - m) * (x as real - m), c,
                Spread(init, total, n), (n * x - total) * (n * x - total));
    }
  }

  /** Dividing by `n` and comparing with 100 is comparing the `n^2`-scaled deviations with `100 n^3`. */
  lemma VarianceScaled(d: real, spread: int, n: int)
    requires n > 0
    requires Scaled(d, n as real * n as real, spread)
    ensures d / n as real < 100.0 <==> spread < 100 * n * n * n
  {
    var rn := n as real;
    var w := d / rn;
    assert w * rn == d;
    assert w * (rn * rn * rn) == d * (rn * rn) by {
      assert w * (rn * rn * rn) == (w * rn) * (rn * rn);
    }
    ScaleCompare(100.0, w, rn * rn * rn);
    assert (100 * n * n * n) as real == 100.0 * (rn * rn * rn);
  }

  /** The consistency decision made on integers: with `n` values of sum `S`, the tracking is
      consistent exactly when the squares of `n v - S` add up to less than `100 n^3`. */
  lemma ConsistencyCrossMultiplied(v: seq<int>)
    requires v != []
    ensures ConsistencyInsight(v).kind == ConsistentTracking <==> Spread(v, Sum(v), |v|) < 100 * |v| * |v| * |v|
  {
    MeanTimesCount(v);
    DeviationsScaled(v, Mean(v), Sum(v), |v|, |v| as real * |v| as real);
    VarianceScaled(Deviations(v, Mean(v)), Spread(v, Sum(v), |v|), |v|);
  }

  lemma MeanTimesCount(v: seq<int>)
    requires v != []
    ensures Mean(v) * |v| as real == Sum(v) as real
  {
  }

  lemma {:induction false} SpreadOfEqual(v: seq<int>, c: int, n: int)
    requires forall i :: 0 <= i < |v| ==> v[i] == c
    ensures Spread(v, n * c, n) == 0
  {
    if v != [] {
      SpreadOfEqual(v[..|v| - 1], c, n);
    }
  }

  /** Days of equal value are consistent tracking. */
  lemma EqualValuesConsistent(v: seq<int>, c: int)
    requires v != []
    requires forall i :: 0 <= i < |v| ==> v[i] == c
    ensures ConsistencyInsight(v).kind == ConsistentTracking
  {
    SumBetween(v, c, c);
    SpreadOfEqual(v, c, |v|);
    ConsistencyCrossMultiplied(v);
  }

  // ---------------------------------------------------------------------------------------------
  // Weekly statistics

  /** The number of weeks the tracker summarises. */
  const Weeks: nat := 4

  datatype WeeklyStat = WeeklyStat(week: int, average: int, peak: int, low: int, count: int)

  /** `response.data.filter((_, index) => Math.floor(index / 7) === week - 1)`, from position
      `from` on. */
  function InWeek(raw: seq<MoodEntry>, week: int, from: nat): seq<MoodEntry>
    requires from <= |raw|
    decreases |raw| - from
  {
    if from == |raw| then []
    else (if from / 7 == week - 1 then [raw[from]] else []) + InWeek(raw, week, from + 1)
  }

  function Clamp(i: int, n: nat): nat {
    if i < 0 then 0 else if i > n then n else i
  }

  /** Positions `7(week-1)` to `7 week - 1`, as far as the history goes. */
  function WeekData(raw: seq<MoodEntry>, week: int): seq<MoodEntry> {
    raw[Clamp(7 * (week - 1), |raw|)..Clamp(7 * week, |raw|)]
  }

  lemma WeekIndex(i: int, week: int)
    requires i >= 0
    ensures i / 7 == week - 1 <==> 7 * (week - 1) <= i < 7 * week
  {
    DivBounds(i, 7);
  }

  lemma {:induction false} InWeekSlice(raw: seq<MoodEntry>, week: int, from: nat)
    requires 1 <= week
    requires from <= |raw|
    ensures var lo, hi := Clamp(7 * (week - 1), |raw|), Clamp(7 * week, |raw|);
      var start := if from < lo then lo else if from < hi then from else hi;
      InWeek(raw, week, from) == raw[start..hi]
    decreases |raw| - from
  {
    if from < |raw| {
      InWeekSlice(raw, week, from + 1);
      WeekIndex(from, week);
    }
  }

  /** The filter by position keeps exactly week `w`'s entries: positions `7(w-1)` to `7w-1`, as far
      as the history goes. */
  lemma WeekFilterIsSlice(raw: seq<MoodEntry>, week: int)
    requires 1 <= week
    ensures InWeek(raw, week, 0) == WeekData(raw, week)
  {
    InWeekSlice(raw, week, 0);
  }

  /** The entries of one listed week. */
  datatype Bucket = Bucket(week: int, data: seq<MoodEntry>)

  /** The weeks 1 to `w` that have entries, in order. */
  function Buckets(raw: seq<MoodEntry>, w: nat): seq<Bucket> {
    if w == 0 then []
    else Buckets(raw, w - 1) + (if WeekData(raw, w) == [] then [] else [Bucket(w, WeekData(raw, w))])
  }

  /** The statistic of a week: the rounded mean, the highest and the lowest score, the count. */
  function StatOf(b: Bucket): (r: WeeklyStat)
    ensures r.week == b.week && r.count == |b.data|
  {
    if b.data == [] then WeeklyStat(b.week, 0, 0, 0, 0)
    else
      var scores := Scores(b.data);
      WeeklyStat(b.week, RoundDiv(Sum(scores), |scores|), Max(scores), Min(scores), |b.data|)
  }

  function Summaries(bs: seq<Bucket>): (r: seq<WeeklyStat>)
    ensures |r| == |bs|
    ensures forall i :: 0 <= i < |bs| ==> r[i] == StatOf(bs[i])
  {
    seq(|bs|, i requires 0 <= i < |bs| => StatOf(bs[i]))
  }

  lemma SummariesAppend(bs: seq<Bucket>, extra: seq<Bucket>)
    ensures Summaries(bs + extra) == Summaries(bs) + Summaries(extra)
  {
    assert forall i :: 0 <= i < |extra| ==> (bs + extra)[|bs| + i] == extra[i];
  }

  /** The statistics of weeks 1 to `w`, empty weeks left out. */
  function StatsThrough(raw: seq<MoodEntry>, w: nat): seq<WeeklyStat> {
    Summaries(Buckets(raw, w))
  }

  /** A week with entries adds its statistic, an empty week nothing. */
  lemma StatsStep(raw: seq<MoodEntry>, week: nat)
    requires week >= 1
    ensures WeekData(raw, week) != [] ==>
      StatsThrough(raw, week) == StatsThrough(raw, week - 1) + [StatOf(Bucket(week, WeekData(raw, week)))]
    ensures WeekData(raw, week) == [] ==> StatsThrough(raw, week) == StatsThrough(raw, week - 1)
  {
    var added := if WeekData(raw, week) == [] then [] else [Bucket(week, WeekData(raw, week))];
    SummariesAppend(Buckets(raw, week - 1), added);
  }

  /** The weekly-stats loop of `fetchMoodData`, weeks 1 to 4. */
  method WeeklyStats(raw: seq<MoodEntry>) returns (stats: seq<WeeklyStat>)
    ensures stats == StatsThrough(raw, Weeks)
  {
    stats := [];
    var week := 1;
    while week <= Weeks
      invariant 1 <= week <= Weeks + 1
      invariant stats == StatsThrough(raw, week - 1)
    {
      var weekData := InWeek(raw, week, 0);
      WeekFilterIsSlice(raw, week);
      StatsStep(raw, week);
      if |weekData| > 0 {
        var scores := Scores(weekData);
        var stat := WeeklyStat(week, RoundDiv(Sum(scores), |scores|), Max(scores), Min(scores), |weekData|);
        assert stat == StatOf(Bucket(week, weekData));
        stats := stats + [stat];
      }
      week := week + 1;
    }
  }

  /** The listed weeks lie between 1 and `w` in increasing order, and each has from 1 to 7 entries. */
  lemma {:induction false} BucketWeeks(raw: seq<MoodEntry>, w: nat)
    ensures var bs := Buckets(raw, w);
      && |bs| <= w
      && (forall i :: 0 <= i < |bs| ==> 1 <= bs[i].week <= w && 1 <= |bs[i].data| <= 7)
      && (forall i, j :: 0 <= i < j < |bs| ==> bs[i].week < bs[j].week)
  {
    if w > 0 {
      BucketWeeks(raw, w - 1);
    }
  }

  /** Every statistic is of a week from 1 to `w`, in increasing order, so there are at most `w`;
      each counts from 1 to 7 entries. */
  lemma StatsWeeks(raw: seq<MoodEntry>, w: nat)
    ensures var s := StatsThrough(raw, w);
      && |s| <= w
      && (forall i :: 0 <= i < |s| ==> 1 <= s[i].week <= w && 1 <= s[i].count <= 7)
      && (forall i, j :: 0 <= i < j < |s| ==> s[i].week < s[j].week)
  {
    BucketWeeks(raw, w);
  }

  /** A week's average lies between its low and its peak. */
  lemma StatBetween(b: Bucket)
    requires b.data != []
    ensures StatOf(b).low <= StatOf(b).average <= StatOf(b).peak
  {
    var scores := Scores(b.data);
    SumBetween(scores, Min(scores), Max(scores));
    RoundDivBetween(Sum(scores), |scores|, Min(scores), Max(scores));
  }

  /** Every statistic's average lies between its low and its peak. */
  lemma StatsBounds(raw: seq<MoodEntry>, w: nat)
    ensures var s := StatsThrough(raw, w);
      forall i :: 0 <= i < |s| ==> s[i].low <= s[i].average <= s[i].peak
  {
    var bs := Buckets(raw, w);
    BucketWeeks(raw, w);
    forall i | 0 <= i < |bs|
      ensures StatOf(bs[i]).low <= StatOf(bs[i]).average <= StatOf(bs[i]).peak
    {
      StatBetween(bs[i]);
    }
  }

  /** A week has entries exactly when the history reaches past its first position. */
  lemma WeekHasData(raw: seq<MoodEntry>, week: int)
    ensures WeekData(raw, week) != [] <==> |raw| > 7 * (week - 1) && week >= 1
  {
  }

  /** The listed weeks are numbered 1, 2, ... without gaps: week `k` is listed exactly when it has
      entries, and then it is the `k`-th bucket. */
  lemma {:induction false} BucketsNumbered(raw: seq<MoodEntry>, w: nat)
    ensures var bs := Buckets(raw, w);
      && |bs| <= w
      && (forall i :: 0 <= i < |bs| ==> bs[i] == Bucket(i + 1, WeekData(raw, i + 1)))
      && (forall k :: 1 <= k <= w ==> (k <= |bs| <==> WeekData(raw, k) != []))
  {
    if w > 0 {
      BucketsNumbered(raw, w - 1);
      var prev := Buckets(raw, w - 1);
      WeekHasData(raw, w);
      if WeekData(raw, w) != [] {
        if w > 1 {
          WeekHasData(raw, w - 1);
          assert w - 1 <= |prev|;
        }
        assert Buckets(raw, w) == prev + [Bucket(w, WeekData(raw, w))];
        forall k | 1 <= k <= w
          ensures WeekData(raw, k) != []
        {
          WeekHasData(raw, k);
        }
      }
    }
  }

  /** Week `week` is listed exactly when the history has more than `7(week-1)` entries. */
  lemma WeekListed(raw: seq<MoodEntry>, w: nat, week: int)
    requires 1 <= week <= w
    ensures (exists i :: 0 <= i < |StatsThrough(raw, w)| && StatsThrough(raw, w)[i].week == week)
            <==> |raw| > 7 * (week - 1)
  {
    BucketsNumbered(raw, w);
    WeekHasData(raw, week);
    var s, bs := StatsThrough(raw, w), Buckets(raw, w);
    if |raw| > 7 * (week - 1) {
      assert s[week - 1].week == week;
    }
  }

  lemma {:induction false} LaterBucketsIgnored(raw: seq<MoodEntry>, w: nat)
    requires w <= Weeks
    ensures Buckets(raw, w) == Buckets(raw[..Clamp(7 * Weeks, |raw|)], w)
  {
    if w > 0 {
      LaterBucketsIgnored(raw, w - 1);
      var cut := raw[..Clamp(7 * Weeks, |raw|)];
      assert WeekData(raw, w) == WeekData(cut, w);
    }
  }

  /** Entries after the 28th never reach the statistics. */
  lemma LaterEntriesIgnored(raw: seq<MoodEntry>)
    ensures StatsThrough(raw, Weeks) == StatsThrough(raw[..Clamp(7 * Weeks, |raw|)], Weeks)
  {
    LaterBucketsIgnored(raw, Weeks);
  }

  // ---------------------------------------------------------------------------------------------
  // The tracker's state

  /** The answer to the history request: a thrown error, or the body's `success` and `data`. */
  datatype Answer = Threw | Body(success: bool, data: Option<seq<MoodEntry>>)

  datatype Notice = LoadFailed

  function NoticeText(n: Notice): string {
    match n
    case LoadFailed => "Failed to load mood data"
  }

  /** The state the component keeps. */
  class Tracker {
    var loading: bool
    var error: Option<Notice>
    var moodData: seq<DayData>
    var weeklyStats: seq<WeeklyStat>
    var insights: seq<Insight>

    constructor ()
      ensures loading && error.None? && moodData == [] && weeklyStats == [] && insights == []
    {
      loading := true;
      error := None;
      moodData := [];
      weeklyStats := [];
      insights := [];
    }

    /** `fetchMoodData` once the answer is in: nothing happens without authentication; a thrown
        error is shown and the data kept; a successful body with data yields the seven days, their
        insights and the weekly statistics; any other body clears the days and shows the no-data
        insight, leaving the weekly statistics as they were. Loading ends in every case. */
    method FetchMoodData(isAuthenticated: bool, answer: Answer, clock: Clock, now: int)
      modifies this
      ensures !isAuthenticated ==>
        && loading == old(loading) && error == old(error) && moodData == old(moodData)
        && weeklyStats == old(weeklyStats) && insights == old(insights)
      ensures isAuthenticated ==> !loading
      ensures isAuthenticated && answer.Threw? ==>
        && error == Some(LoadFailed) && moodData == old(moodData)
        && weeklyStats == old(weeklyStats) && insights == old(insights)
      ensures isAuthenticated && answer.Body? && answer.success && answer.data.Some? ==>
        && error.None?
        && moodData == LastWeek(answer.data.value, clock, now)
        && insights == Insights(moodData)
        && weeklyStats == StatsThrough(answer.data.value, Weeks)
      ensures isAuthenticated && answer.Body? && !(answer.success && answer.data.Some?) ==>
        && error.None? && moodData == [] && insights == [Insight(NoDataYet, Stable)]
        && weeklyStats == old(weeklyStats)
    {
      if !isAuthenticated {
        return;
      }
      loading := true;
      error := None;
      if answer.Threw? {
        error := Some(LoadFailed);
      } else if answer.success && answer.data.Some? {
        var processedDaily := ProcessMoodData(answer.data.value, clock, now);
        moodData := processedDaily;
        var newInsights := GenerateInsights(processedDaily);
        insights := newInsights;
        var stats := WeeklyStats(answer.data.value);
        weeklyStats := stats;
      } else {
        moodData := [];
        insights := [Insight(NoDataYet, Stable)];
      }
      loading := false;
    }
  }
}
