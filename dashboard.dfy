/**
 * The data logic of app/dashboard/page.tsx: the conversion of API activities, the daily
 * statistics, the insight rules with their priority order and cap of three, and the 28-day
 * activity calendar.
 *
 * Instants are milliseconds. The local calendar of date-fns is a `Calendar` value: the start of the
 * local day holding an instant, and an instant moved by a number of days. The hour of an instant
 * (`getHours`) is the function `hourOf`, and `new Date(text)` is `toTime`.
 */
module Dashboard {
  import opened Wrappers
  import opened Seqs

  /** An optional field of the API payload: absent, `null`, or given. */
  datatype Field<T> = Absent | Null | Given(value: T)

  /** `field ?? null`: absent and `null` both become `null`. */
  function Nullish<T>(f: Field<T>): (r: Option<T>)
    ensures r.Some? <==> f.Given?
    ensures f.Given? ==> r.value == f.value
  {
    match f
    case Given(v) => Some(v)
    case _ => None
  }

  datatype ApiActivity = ApiActivity(
    id: string, userId: Field<string>, kind: string, name: string, description: Field<string>,
    timestamp: string, duration: Field<int>, completed: bool, moodScore: Field<int>,
    moodNote: Field<string>, createdAt: string, updatedAt: string)

  /** The page's activity, `None` being `null`. */
  datatype Activity = Activity(
    id: string, userId: Option<string>, kind: string, name: string, description: Option<string>,
    timestamp: int, duration: Option<int>, completed: bool, moodScore: Option<int>,
    moodNote: Option<string>, createdAt: int, updatedAt: int)

  /** `convertApiActivityToActivity`. */
  function Convert(api: ApiActivity, toTime: string -> int): (a: Activity)
    ensures a.id == api.id && a.kind == api.kind && a.name == api.name && a.completed == api.completed
    ensures a.userId.Some? <==> api.userId.Given?
    ensures a.description.Some? <==> api.description.Given?
    ensures a.duration.Some? <==> api.duration.Given?
    ensures a.moodScore.Some? <==> api.moodScore.Given?
    ensures a.moodNote.Some? <==> api.moodNote.Given?
    ensures a.timestamp == toTime(api.timestamp) && a.createdAt == toTime(api.createdAt)
    ensures a.updatedAt == toTime(api.updatedAt)
  {
    Activity(api.id, Nullish(api.userId), api.kind, api.name, Nullish(api.description),
             toTime(api.timestamp), Nullish(api.duration), api.completed, Nullish(api.moodScore),
             Nullish(api.moodNote), toTime(api.createdAt), toTime(api.updatedAt))
  }

  /** The conversion cannot tell an absent field from a `null` one, and it keeps every given
      value. */
  lemma ConvertNullish(api: ApiActivity, toTime: string -> int)
    ensures Convert(api.(userId := Absent, description := Absent, duration := Absent, moodScore := Absent, moodNote := Absent), toTime)
         == Convert(api.(userId := Null, description := Null, duration := Null, moodScore := Null, moodNote := Null), toTime)
    ensures api.userId.Given? ==> Convert(api, toTime).userId == Some(api.userId.value)
    ensures api.moodScore.Given? ==> Convert(api, toTime).moodScore == Some(api.moodScore.value)
    ensures api.duration.Given? ==> Convert(api, toTime).duration == Some(api.duration.value)
  {
  }

  // ---------------------------------------------------------------------------------------------
  // Daily statistics

  /** `isWithinInterval(t, { start, end })`: both ends included. */
  predicate WithinInterval(t: int, start: int, end: int) {
    start <= t <= end
  }

  function During(start: int, end: int): Activity -> bool {
    (a: Activity) => WithinInterval(a.timestamp, start, end)
  }

  /** `a.type === "mood" && a.moodScore !== null`. */
  function ScoredMood(): Activity -> bool {
    (a: Activity) => a.kind == "mood" && a.moodScore.Some?
  }

  function OfKind(kind: string): Activity -> bool {
    (a: Activity) => a.kind == kind
  }

  /** `curr.moodScore || 0` of each activity. */
  function Scores(s: seq<Activity>): (r: seq<int>)
    ensures |r| == |s|
    ensures forall i :: 0 <= i < |s| ==> r[i] == s[i].moodScore.GetOr(0)
  {
    seq(|s|, i requires 0 <= i < |s| => s[i].moodScore.GetOr(0))
  }

  datatype DailyStats = DailyStats(
    moodScore: Option<int>, completionRate: int, therapySessions: nat, mindfulnessCount: nat,
    totalActivities: nat, lastUpdated: int)

  /** `calculateDailyStats`: `todayStart` is the local start of today, `tomorrowStart` the same
      instant a day later. */
  function CalculateDailyStats(activities: seq<Activity>, todayStart: int, tomorrowStart: int, now: int): DailyStats {
    var today := Filter(activities, During(todayStart, tomorrowStart));
    var moods := Filter(today, ScoredMood());
    var averageMood := if |moods| > 0 then Some(RoundDiv(Sum(Scores(moods)), |moods|)) else None;
    var therapySessions := |Filter(activities, OfKind("therapy"))|;
    DailyStats(averageMood, 100, therapySessions, therapySessions, |today|, now)
  }

  /** The day's mood is the rounded mean of today's scored mood activities, so it lies between
      their lowest and highest score, and it is `null` exactly when there are none. Therapy
      sessions are counted over all days and reported twice; the completion rate is always 100;
      the activity total is today's. */
  lemma DailyStatsFacts(activities: seq<Activity>, todayStart: int, tomorrowStart: int, now: int)
    ensures var st := CalculateDailyStats(activities, todayStart, tomorrowStart, now);
      var moods := Filter(Filter(activities, During(todayStart, tomorrowStart)), ScoredMood());
      && (st.moodScore.None? <==> moods == [])
      && (st.moodScore.Some? ==>
            && Min(Scores(moods)) <= st.moodScore.value <= Max(Scores(moods))
            && 2 * |moods| * st.moodScore.value - |moods| <= 2 * Sum(Scores(moods)) < 2 * |moods| * st.moodScore.value + |moods|)
      && st.therapySessions == |Filter(activities, OfKind("therapy"))| == st.mindfulnessCount
      && st.completionRate == 100
      && st.totalActivities == |Filter(activities, During(todayStart, tomorrowStart))|
  {
    var moods := Filter(Filter(activities, During(todayStart, tomorrowStart)), ScoredMood());
    if moods != [] {
      var scores := Scores(moods);
      SumBetween(scores, Min(scores), Max(scores));
      RoundDivBetween(Sum(scores), |moods|, Min(scores), Max(scores));
    }
  }

  /** Both ends of the day belong to it: an activity stamped at the start of tomorrow counts as
      today's. */
  lemma TomorrowStartCountsToday(a: Activity, todayStart: int, tomorrowStart: int, now: int)
    requires todayStart <= tomorrowStart && a.timestamp == tomorrowStart
    ensures CalculateDailyStats([a], todayStart, tomorrowStart, now).totalActivities == 1
  {
    assert During(todayStart, tomorrowStart)(a);
    assert [a][1..] == [];
  }

  // ---------------------------------------------------------------------------------------------
  // Insights

  datatype Priority = High | Medium | Low

  /** `priorityOrder`. */
  function Rank(p: Priority): int {
    match p
    case High => 0
    case Medium => 1
    case Low => 2
  }

  /** The insights the page can show; the high-achievement one carries its rounded percentage. */
  datatype Kind =
    | WelcomeBack | DailyCheckIn | MindfulnessPractice
    | MoodImprovement | MoodChangeDetected
    | ConsistentPractice | MindfulnessOpportunity
    | HighAchievement(percent: int) | ActivityReminder
    | MorningPerson | EveningRoutine

  /** An insight: what it says, and the priority the rule that pushed it gave it. */
  datatype Insight = Insight(kind: Kind, priority: Priority)

  function Title(k: Kind): string {
    match k
    case WelcomeBack => "Welcome Back!"
    case DailyCheckIn => "Daily Check-in"
    case MindfulnessPractice => "Mindfulness Practice"
    case MoodImprovement => "Mood Improvement"
    case MoodChangeDetected => "Mood Change Detected"
    case ConsistentPractice => "Consistent Practice"
    case MindfulnessOpportunity => "Mindfulness Opportunity"
    case HighAchievement(_) => "High Achievement"
    case ActivityReminder => "Activity Reminder"
    case MorningPerson => "Morning Person"
    case EveningRoutine => "Evening Routine"
  }

  function InsightRank(i: Insight): int {
    Rank(i.priority)
  }

  function HasPriority(p: Priority): Insight -> bool {
    (i: Insight) => i.priority == p
  }

  /** The stable sort by `priorityOrder`: with three ranks, a stable sort is the high insights,
      then the medium ones, then the low ones, each group in its original order. */
  function ByPriority(s: seq<Insight>): seq<Insight> {
    Filter(s, HasPriority(High)) + Filter(s, HasPriority(Medium)) + Filter(s, HasPriority(Low))
  }

  /** `.slice(0, 3)`. */
  function Take3(s: seq<Insight>): (r: seq<Insight>)
    ensures |r| <= 3 && |r| <= |s| && r == s[..|r|]
    ensures |s| <= 3 ==> r == s
  {
    if |s| <= 3 then s else s[..3]
  }

  ghost predicate SortedByRank(s: seq<Insight>) {
    forall i, j :: 0 <= i < j < |s| ==> InsightRank(s[i]) <= InsightRank(s[j])
  }

  /** The order is by priority, high first. */
  lemma ByPrioritySorted(s: seq<Insight>)
    ensures SortedByRank(ByPriority(s))
  {
    var h, m, l := Filter(s, HasPriority(High)), Filter(s, HasPriority(Medium)), Filter(s, HasPriority(Low));
    var r := ByPriority(s);
    forall i | 0 <= i < |r|
      ensures InsightRank(r[i]) == (if i < |h| then 0 else if i < |h| + |m| then 1 else 2)
    {
      if i < |h| {
        assert r[i] == h[i] && HasPriority(High)(h[i]);
      } else if i < |h| + |m| {
        assert r[i] == m[i - |h|] && HasPriority(Medium)(m[i - |h|]);
      } else {
        assert r[i] == l[i - |h| - |m|] && HasPriority(Low)(l[i - |h| - |m|]);
      }
    }
  }

  /** Splitting by the three priorities loses and adds nothing. */
  lemma {:induction false} SplitByPriority(s: seq<Insight>)
    ensures multiset(Filter(s, HasPriority(High))) + multiset(Filter(s, HasPriority(Medium)))
            + multiset(Filter(s, HasPriority(Low))) == multiset(s)
  {
    if s != [] {
      var t := s[1..];
      SplitByPriority(t);
      assert s == [s[0]] + t;
      assert multiset(s) == multiset{s[0]} + multiset(t);
      var h, m, l := Filter(t, HasPriority(High)), Filter(t, HasPriority(Medium)), Filter(t, HasPriority(Low));
      match s[0].priority
      case High =>
        assert Filter(s, HasPriority(High)) == [s[0]] + h;
        assert Filter(s, HasPriority(Medium)) == m;
        assert Filter(s, HasPriority(Low)) == l;
      case Medium =>
        assert Filter(s, HasPriority(High)) == h;
        assert Filter(s, HasPriority(Medium)) == [s[0]] + m;
        assert Filter(s, HasPriority(Low)) == l;
      case Low =>
        assert Filter(s, HasPriority(High)) == h;
        assert Filter(s, HasPriority(Medium)) == m;
        assert Filter(s, HasPriority(Low)) == [s[0]] + l;
    }
  }

  /** The sort is a permutation. */
  lemma ByPriorityPermutes(s: seq<Insight>)
    ensures multiset(ByPriority(s)) == multiset(s)
  {
    SplitByPriority(s);
  }

  /** Filtering a list whose every element fails the predicate leaves nothing. */
  lemma {:induction false} FilterNone(s: seq<Insight>, p: Insight -> bool)
    requires forall i :: 0 <= i < |s| ==> !p(s[i])
    ensures Filter(s, p) == []
  {
    if s != [] {
      FilterNone(s[1..], p);
    }
  }

  /** The sort is stable: the insights of each priority keep their rule order. */
  lemma ByPriorityStable(s: seq<Insight>, p: Priority)
    ensures Filter(ByPriority(s), HasPriority(p)) == Filter(s, HasPriority(p))
  {
    var h, m, l := Filter(s, HasPriority(High)), Filter(s, HasPriority(Medium)), Filter(s, HasPriority(Low));
    FilterAppend(h + m, l, HasPriority(p));
    FilterAppend(h, m, HasPriority(p));
    if p == High {
      FilterIdempotent(s, HasPriority(High));
      FilterNone(m, HasPriority(High));
      FilterNone(l, HasPriority(High));
    } else if p == Medium {
      FilterIdempotent(s, HasPriority(Medium));
      FilterNone(h, HasPriority(Medium));
      FilterNone(l, HasPriority(Medium));
    } else {
      FilterIdempotent(s, HasPriority(Low));
      FilterNone(h, HasPriority(Low));
      FilterNone(m, HasPriority(Low));
    }
  }

  /** The insights shown without any activity. */
  const DefaultInsights: seq<Insight> := [Insight(WelcomeBack, High), Insight(DailyCheckIn, Medium), Insight(MindfulnessPractice, Low)]

  function Since(start: int): Activity -> bool {
    (a: Activity) => a.timestamp >= start
  }

  /** `["game", "meditation", "breathing"].includes(a.type)`. */
  function Mindful(): Activity -> bool {
    (a: Activity) => a.kind in ["game", "meditation", "breathing"]
  }

  function Completed(): Activity -> bool {
    (a: Activity) => a.completed
  }

  function Morning(hourOf: int -> int): Activity -> bool {
    (a: Activity) => hourOf(a.timestamp) < 12
  }

  function Evening(hourOf: int -> int): Activity -> bool {
    (a: Activity) => hourOf(a.timestamp) >= 18
  }

  /** The mood rule on the week's scored mood activities: with at least two, the latest (the last
      by position) above their mean is an improvement, and more than 20 below it a change. The
      comparisons with the mean `total / n` are made by cross-multiplying. */
  function MoodRule(moods: seq<Activity>): seq<Insight> {
    if |moods| < 2 then []
    else
      var total := Sum(Scores(moods));
      var latest := moods[|moods| - 1].moodScore.GetOr(0);
      if latest * |moods| > total then [Insight(MoodImprovement, High)]
      else if latest * |moods| < total - 20 * |moods| then [Insight(MoodChangeDetected, High)]
      else []
  }

  /** The mindfulness rule: an average of at least one a day over the 7 days, that is 7 or more
      in the week, is consistent practice; fewer but some is an opportunity. */
  function MindfulnessRule(count: nat): seq<Insight> {
    if count == 0 then []
    else if count >= 7 then [Insight(ConsistentPractice, Medium)]
    else [Insight(MindfulnessOpportunity, Low)]
  }

  /** The completion rule on `completed` of `recent` activities; the rate of an empty week is 0. */
  function CompletionRule(completed: nat, recent: nat): seq<Insight> {
    if recent > 0 && 100 * completed >= 80 * recent then [Insight(HighAchievement(RoundDiv(100 * completed, recent)), High)]
    else if recent == 0 || 100 * completed < 50 * recent then [Insight(ActivityReminder, Medium)]
    else []
  }

  function TimeOfDayRule(morning: nat, evening: nat): seq<Insight> {
    if morning > evening then [Insight(MorningPerson, Medium)]
    else if evening > morning then [Insight(EveningRoutine, Medium)]
    else []
  }

  /** The insights the rules push, in rule order, before the sort. */
  function Candidates(activities: seq<Activity>, weekAgo: int, hourOf: int -> int): seq<Insight> {
    var recent := Filter(activities, Since(weekAgo));
    MoodRule(Filter(recent, ScoredMood()))
    + MindfulnessRule(|Filter(recent, Mindful())|)
    + CompletionRule(|Filter(recent, Completed())|, |recent|)
    + TimeOfDayRule(|Filter(recent, Morning(hourOf))|, |Filter(recent, Evening(hourOf))|)
  }

  /** `generateInsights`: `weekAgo` is `subDays(new Date(), 7)`. */
  function GenerateInsights(activities: seq<Activity>, weekAgo: int, hourOf: int -> int): seq<Insight> {
    if |activities| == 0 then DefaultInsights
    else Take3(ByPriority(Candidates(activities, weekAgo, hourOf)))
  }

  /** The mood rule's pushes onto `pushed`. */
  method PushMood(pushed: seq<Insight>, moods: seq<Activity>) returns (r: seq<Insight>)
    ensures r == pushed + MoodRule(moods)
  {
    r := pushed;
    if |moods| >= 2 {
      var total := Sum(Scores(moods));
      var latest := moods[|moods| - 1].moodScore.GetOr(0);
      if latest * |moods| > total {
        r := r + [Insight(MoodImprovement, High)];
      } else if latest * |moods| < total - 20 * |moods| {
        r := r + [Insight(MoodChangeDetected, High)];
      }
    }
  }

  /** The mindfulness rule's pushes onto `pushed`. */
  method PushMindfulness(pushed: seq<Insight>, mindful: nat) returns (r: seq<Insight>)
    ensures r == pushed + MindfulnessRule(mindful)
  {
    r := pushed;
    if mindful > 0 {
      if mindful >= 7 {
        r := r + [Insight(ConsistentPractice, Medium)];
      } else {
        r := r + [Insight(MindfulnessOpportunity, Low)];
      }
    }
  }

  /** The completion rule's pushes onto `pushed`. */
  method PushCompletion(pushed: seq<Insight>, completed: nat, recent: nat) returns (r: seq<Insight>)
    ensures r == pushed + CompletionRule(completed, recent)
  {
    r := pushed;
    if recent > 0 && 100 * completed >= 80 * recent {
      r := r + [Insight(HighAchievement(RoundDiv(100 * completed, recent)), High)];
    } else if recent == 0 || 100 * completed < 50 * recent {
      r := r + [Insight(ActivityReminder, Medium)];
    }
  }

  /** The time-of-day rule's pushes onto `pushed`. */
  method PushTimeOfDay(pushed: seq<Insight>, morning: nat, evening: nat) returns (r: seq<Insight>)
    ensures r == pushed + TimeOfDayRule(morning, evening)
  {
    r := pushed;
    if morning > evening {
      r := r + [Insight(MorningPerson, Medium)];
    } else if evening > morning {
      r := r + [Insight(EveningRoutine, Medium)];
    }
  }

  /** The pushes of `generateInsights`, one rule after another, then the sort and the cap. */
  method ComputeInsights(activities: seq<Activity>, weekAgo: int, hourOf: int -> int) returns (insights: seq<Insight>)
    ensures insights == GenerateInsights(activities, weekAgo, hourOf)
  {
    if |activities| == 0 {
      return [Insight(WelcomeBack, High), Insight(DailyCheckIn, Medium), Insight(MindfulnessPractice, Low)];
    }
    var recent := Filter(activities, Since(weekAgo));
    var pushed := PushMood([], Filter(recent, ScoredMood()));
    pushed := PushMindfulness(pushed, |Filter(recent, Mindful())|);
    pushed := PushCompletion(pushed, |Filter(recent, Completed())|, |recent|);
    pushed := PushTimeOfDay(pushed, |Filter(recent, Morning(hourOf))|, |Filter(recent, Evening(hourOf))|);
    assert pushed == Candidates(activities, weekAgo, hourOf);
    insights := Take3(ByPriority(pushed));
  }

  /** Without activities the page shows exactly the three defaults, high, medium and low. */
  lemma NoActivityDefaults(weekAgo: int, hourOf: int -> int)
    ensures GenerateInsights([], weekAgo, hourOf) == [Insight(WelcomeBack, High), Insight(DailyCheckIn, Medium), Insight(MindfulnessPractice, Low)]
  {
  }

  /** At most three insights, high before medium before low, each one a rule's. */
  lemma InsightsCapped(activities: seq<Activity>, weekAgo: int, hourOf: int -> int)
    requires activities != []
    ensures var r := GenerateInsights(activities, weekAgo, hourOf);
      && |r| <= 3
      && SortedByRank(r)
      && forall i :: 0 <= i < |r| ==> r[i] in Candidates(activities, weekAgo, hourOf)
  {
    var c := Candidates(activities, weekAgo, hourOf);
    ByPrioritySorted(c);
    ByPriorityPermutes(c);
    var r := GenerateInsights(activities, weekAgo, hourOf);
    forall i | 0 <= i < |r|
      ensures r[i] in c
    {
      assert r[i] in multiset(ByPriority(c));
    }
  }

  /** Four pushes of which only the first and the third can hold a high insight, one each. */
  lemma HighOfFour(a: seq<Insight>, b: seq<Insight>, c: seq<Insight>, d: seq<Insight>)
    requires |a| <= 1 && |c| <= 1
    requires forall i :: 0 <= i < |b| ==> b[i].priority != High
    requires forall i :: 0 <= i < |d| ==> d[i].priority != High
    ensures |Filter(a + b + c + d, HasPriority(High))| <= 2
  {
    FilterAppend(a + b + c, d, HasPriority(High));
    FilterAppend(a + b, c, HasPriority(High));
    FilterAppend(a, b, HasPriority(High));
    FilterNone(b, HasPriority(High));
    FilterNone(d, HasPriority(High));
  }

  /** At most two rules push a high insight: the mood rule and the completion rule. */
  lemma AtMostTwoHigh(activities: seq<Activity>, weekAgo: int, hourOf: int -> int)
    ensures |Filter(Candidates(activities, weekAgo, hourOf), HasPriority(High))| <= 2
  {
    var recent := Filter(activities, Since(weekAgo));
    var a := MoodRule(Filter(recent, ScoredMood()));
    var b := MindfulnessRule(|Filter(recent, Mindful())|);
    var c := CompletionRule(|Filter(recent, Completed())|, |recent|);
    var d := TimeOfDayRule(|Filter(recent, Morning(hourOf))|, |Filter(recent, Evening(hourOf))|);
    HighOfFour(a, b, c, d);
  }

  /** The sort and the cap keep every high insight of a list with at most two of them. */
  lemma TopKeepsHigh(c: seq<Insight>)
    requires |Filter(c, HasPriority(High))| <= 2
    ensures Filter(Take3(ByPriority(c)), HasPriority(High)) == Filter(c, HasPriority(High))
  {
    var h := Filter(c, HasPriority(High));
    var m := Filter(c, HasPriority(Medium));
    var l := Filter(c, HasPriority(Low));
    assert ByPriority(c) == h + (m + l);
    TakeKeepsHigh(h, m + l);
  }

  /** No high insight is ever cut: at most two rules can give one, so all of them are shown. */
  lemma HighInsightsKept(activities: seq<Activity>, weekAgo: int, hourOf: int -> int)
    requires activities != []
    ensures var c := Candidates(activities, weekAgo, hourOf);
      Filter(c, HasPriority(High)) == Filter(GenerateInsights(activities, weekAgo, hourOf), HasPriority(High))
  {
    AtMostTwoHigh(activities, weekAgo, hourOf);
    TopKeepsHigh(Candidates(activities, weekAgo, hourOf));
  }

  /** Cutting a list after three keeps a prefix of at most two high insights whole. */
  lemma TakeKeepsHigh(h: seq<Insight>, rest: seq<Insight>)
    requires |h| <= 2
    requires forall i :: 0 <= i < |h| ==> h[i].priority == High
    requires forall i :: 0 <= i < |rest| ==> rest[i].priority != High
    ensures Filter(Take3(h + rest), HasPriority(High)) == h
  {
    var t := Take3(h + rest);
    assert t == h + t[|h|..] by {
      assert |t| >= |h|;
    }
    var tail := t[|h|..];
    assert forall i :: 0 <= i < |tail| ==> tail[i] == rest[i];
    FilterAppend(h, tail, HasPriority(High));
    FilterNone(tail, HasPriority(High));
    AllPass(h, HasPriority(High));
  }

  /** Filtering a list whose every element passes keeps it whole. */
  lemma {:induction false} AllPass(s: seq<Insight>, p: Insight -> bool)
    requires forall i :: 0 <= i < |s| ==> p(s[i])
    ensures Filter(s, p) == s
  {
    if s != [] {
      AllPass(s[1..], p);
    }
  }

  /** The rule thresholds on counts: at least 7 mindful activities is consistent practice, 1 to 6
      an opportunity; at least 80% completed is high achievement, below 50% a reminder, and
      anything between neither. */
  lemma RuleThresholds(mindful: nat, completed: nat, recent: nat)
    requires completed <= recent
    ensures mindful >= 7 ==> MindfulnessRule(mindful) == [Insight(ConsistentPractice, Medium)]
    ensures 1 <= mindful <= 6 ==> MindfulnessRule(mindful) == [Insight(MindfulnessOpportunity, Low)]
    ensures mindful == 0 ==> MindfulnessRule(mindful) == []
    ensures recent > 0 && 100 * completed >= 80 * recent ==>
      exists p :: 80 <= p <= 100 && CompletionRule(completed, recent) == [Insight(HighAchievement(p), High)]
    ensures recent > 0 && 50 * recent <= 100 * completed < 80 * recent ==> CompletionRule(completed, recent) == []
    ensures 100 * completed < 50 * recent || recent == 0 ==> CompletionRule(completed, recent) == [Insight(ActivityReminder, Medium)]
  {
    if recent > 0 && 100 * completed >= 80 * recent {
      RoundDivBetween(100 * completed, recent, 80, 100);
      assert CompletionRule(completed, recent) == [Insight(HighAchievement(RoundDiv(100 * completed, recent)), High)];
    }
  }

  /** The mood rule needs two scored entries; the latest above the mean is an improvement, and
      one more than 20 below it a detected change. */
  lemma MoodRuleCases(moods: seq<Activity>)
    ensures |moods| < 2 ==> MoodRule(moods) == []
    ensures |moods| >= 2 ==>
      var latest := moods[|moods| - 1].moodScore.GetOr(0);
      var total := Sum(Scores(moods));
      && (MoodRule(moods) == [Insight(MoodImprovement, High)] <==> latest * |moods| > total)
      && (MoodRule(moods) == [Insight(MoodChangeDetected, High)] <==> latest * |moods| < total - 20 * |moods|)
  {
  }

  // ---------------------------------------------------------------------------------------------
  // The 28-day activity calendar

  datatype Level = NoActivity | LowActivity | MediumActivity | HighActivity

  /** The level of a day with `n` activities. */
  function LevelOf(n: nat): Level {
    if n == 0 then NoActivity
    else if n <= 2 then LowActivity
    else if n <= 4 then MediumActivity
    else HighActivity
  }

  function LevelRank(l: Level): int {
    match l
    case NoActivity => 0
    case LowActivity => 1
    case MediumActivity => 2
    case HighActivity => 3
  }

  /** More activities never give a lower level, and the thresholds are 1, 3 and 5. */
  lemma LevelMonotone(m: nat, n: nat)
    requires m <= n
    ensures LevelRank(LevelOf(m)) <= LevelRank(LevelOf(n))
    ensures LevelOf(0) == NoActivity && LevelOf(1) == LowActivity && LevelOf(2) == LowActivity
    ensures LevelOf(3) == MediumActivity && LevelOf(4) == MediumActivity && LevelOf(5) == HighActivity
  {
  }

  /** The local calendar: the start of the day holding an instant, and an instant moved by a
      number of days (negative for `subDays`). */
  datatype Calendar = Calendar(startOfDay: int -> int, addDays: (int, int) -> int)

  /** What the calendar shows of one activity; the clock time stays an instant, its `h:mm a`
      formatting is not modelled. */
  datatype DayItem = DayItem(kind: string, name: string, completed: bool, time: int)

  datatype DayActivity = DayActivity(date: int, level: Level, activities: seq<DayItem>)

  function Item(a: Activity): DayItem {
    DayItem(a.kind, a.name, a.completed, a.timestamp)
  }

  function Items(s: seq<Activity>): (r: seq<DayItem>)
    ensures |r| == |s| && forall i :: 0 <= i < |s| ==> r[i] == Item(s[i])
  {
    seq(|s|, i requires 0 <= i < |s| => Item(s[i]))
  }

  /** The local start of the day `i` days before `now`. */
  function DayStart(cal: Calendar, now: int, i: int): int {
    cal.startOfDay(cal.addDays(now, -i))
  }

  /** The calendar day `i` days before `now`: its activities are those within its start and the
      same instant a day later, both ends included. */
  function DayOf(activities: seq<Activity>, cal: Calendar, now: int, i: int): DayActivity {
    var date := DayStart(cal, now, i);
    var inDay := Filter(activities, During(date, cal.addDays(date, 1)));
    DayActivity(date, LevelOf(|inDay|), Items(inDay))
  }

  /** `transformActivitiesToDayActivity`: for i from 27 down to 0, push the day `i` days ago. The
      result has 28 days, the oldest first, the last one today. */
  method TransformActivitiesToDayActivity(activities: seq<Activity>, cal: Calendar, now: int) returns (days: seq<DayActivity>)
    ensures |days| == 28
    ensures forall k :: 0 <= k < 28 ==> days[k] == DayOf(activities, cal, now, 27 - k)
    ensures days[27].date == cal.startOfDay(cal.addDays(now, 0))
  {
    days := [];
    var i := 27;
    while i >= 0
      invariant -1 <= i <= 27
      invariant |days| == 27 - i
      invariant forall k :: 0 <= k < |days| ==> days[k] == DayOf(activities, cal, now, 27 - k)
    {
      var date := cal.startOfDay(cal.addDays(now, -i));
      var dayActivities := Filter(activities, During(date, cal.addDays(date, 1)));
      var level := NoActivity;
      if |dayActivities| > 0 {
        if |dayActivities| <= 2 {
          level := LowActivity;
        } else if |dayActivities| <= 4 {
          level := MediumActivity;
        } else {
          level := HighActivity;
        }
      }
      assert level == LevelOf(|dayActivities|);
      assert DayActivity(date, level, Items(dayActivities)) == DayOf(activities, cal, now, i);
      days := days + [DayActivity(date, level, Items(dayActivities))];
      i := i - 1;
    }
  }

  /** With a calendar whose next day starts where a day's window ends, an activity stamped exactly
      at that midnight is shown on both days. */
  lemma MidnightOnTwoDays(activities: seq<Activity>, cal: Calendar, now: int, i: int, a: Activity)
    requires a in activities
    requires DayStart(cal, now, i) <= cal.addDays(DayStart(cal, now, i), 1) == DayStart(cal, now, i - 1)
    requires a.timestamp == DayStart(cal, now, i - 1)
    requires DayStart(cal, now, i - 1) <= cal.addDays(DayStart(cal, now, i - 1), 1)
    ensures Item(a) in DayOf(activities, cal, now, i).activities
    ensures Item(a) in DayOf(activities, cal, now, i - 1).activities
  {
    var k :| 0 <= k < |activities| && activities[k] == a;
    var d1 := DayStart(cal, now, i);
    var d0 := DayStart(cal, now, i - 1);
    assert During(d1, cal.addDays(d1, 1))(activities[k]);
    assert During(d0, cal.addDays(d0, 1))(activities[k]);
    var f1 := Filter(activities, During(d1, cal.addDays(d1, 1)));
    var f0 := Filter(activities, During(d0, cal.addDays(d0, 1)));
    var j1 :| 0 <= j1 < |f1| && f1[j1] == a;
    var j0 :| 0 <= j0 < |f0| && f0[j0] == a;
    assert Items(f1)[j1] == Item(a);
    assert Items(f0)[j0] == Item(a);
  }
}
