/**
 * The mood handlers of backend/src/controllers/moodController.ts over the collection of mood
 * entries: `createdMood` inserts one, `getMoodData` and `getMoodHistory` build a time window for
 * the query in branches and return the caller's entries inside it, newest first and oldest first.
 *
 * Timestamps are milliseconds. `new Date(text)` is the parameter `toTime` (`None` for an invalid
 * date), the local start of the day holding an instant is the parameter `dayStart`, moving an
 * instant back some days on the local calendar is the parameter `subDays`, the clock is `now`,
 * and whether the database accepted the insert is the flag `saved`. A query with an invalid date
 * in its window makes the database throw, which the handlers pass to `next(error)`.
 */
module Mood {
  import opened Wrappers
  import opened Text
  import opened Seqs

  const DayMs: int := 24 * 60 * 60 * 1000

  /** The number of days `getMoodHistory` looks back when `days` is not given. */
  const DefaultDays: int := 30

  /** A stored mood entry. */
  datatype MoodEntry = MoodEntry(
    userId: string,
    score: int,
    note: Option<string>,
    context: Option<string>,
    activities: seq<string>,
    timestamp: int)

  /** The fields `createdMood` takes from the request body. */
  datatype MoodInput = MoodInput(score: int, note: Option<string>, context: Option<string>, activities: seq<string>)

  /** The query's `{ $gte: lo, $lte: hi }`: both ends belong to the window. */
  datatype Window = Window(lo: int, hi: int)

  /** What a handler answers: a 401 `"User not authenticated"`, a 201 with the stored entry, a 200
      `{ success, data, count }`, or a thrown error passed to `next`. */
  datatype Reply =
    | NotAuthenticated
    | Created(entry: MoodEntry)
    | Listed(data: seq<MoodEntry>, count: int)
    | PassedToNext

  function Timestamp(e: MoodEntry): int {
    e.timestamp
  }

  predicate InWindow(t: int, w: Window) {
    w.lo <= t <= w.hi
  }

  /** The query `{ userId, timestamp: window }`. */
  function Matches(userId: string, w: Window): MoodEntry -> bool {
    (e: MoodEntry) => e.userId == userId && InWindow(e.timestamp, w)
  }

  /** The entries the query selects, in storage order (the sort is applied after). */
  function Select(entries: seq<MoodEntry>, userId: string, w: Window): seq<MoodEntry> {
    Filter(entries, Matches(userId, w))
  }

  /** The query selects exactly the caller's entries inside the window. */
  lemma SelectExactly(entries: seq<MoodEntry>, userId: string, w: Window, e: MoodEntry)
    ensures e in Select(entries, userId, w) <==> e in entries && e.userId == userId && w.lo <= e.timestamp <= w.hi
  {
    var r := Select(entries, userId, w);
    if e in entries && e.userId == userId && w.lo <= e.timestamp <= w.hi {
      var i :| 0 <= i < |entries| && entries[i] == e;
      assert Matches(userId, w)(entries[i]);
    }
    if e in r {
      var i :| 0 <= i < |r| && r[i] == e;
      assert Matches(userId, w)(r[i]);
    }
  }

  /** The day of the local start `start`, from it to the last millisecond before the next day. */
  function DayWindow(start: int): Window {
    Window(start, start + DayMs - 1)
  }

  /** The window `getMoodData` queries: the day of `date` when it is given, else the range when
      both bounds are given, else today. */
  function DataWindow(date: Option<string>, startDate: Option<string>, endDate: Option<string>,
                      toTime: string -> Option<int>, dayStart: int -> int, now: int): Option<Window>
  {
    if Present(date) then
      match toTime(date.value)
      case None => None
      case Some(t) => Some(DayWindow(dayStart(t)))
    else if Present(startDate) && Present(endDate) then
      match (toTime(startDate.value), toTime(endDate.value))
      case (Some(a), Some(b)) => Some(Window(a, b))
      case _ => None
    else Some(DayWindow(dayStart(now)))
  }

  /** The window `getMoodHistory` queries: the range when both bounds are given, else the last
      `days` days up to now. `subDays(t, n)` is `setDate(getDate() - n)` on the local calendar: the
      same clock time `n` days earlier. */
  function HistoryWindow(startDate: Option<string>, endDate: Option<string>, days: Option<int>,
                         toTime: string -> Option<int>, subDays: (int, int) -> int, now: int): Option<Window>
  {
    if Present(startDate) && Present(endDate) then
      match (toTime(startDate.value), toTime(endDate.value))
      case (Some(a), Some(b)) => Some(Window(a, b))
      case _ => None
    else Some(Window(subDays(now, days.GetOr(DefaultDays)), now))
  }

  /** A given `date` decides the window whatever the range says: the whole local day holding it,
      both ends included, 86,399,999 ms apart. */
  lemma DateTakesPriority(date: string, startDate: Option<string>, endDate: Option<string>,
                          toTime: string -> Option<int>, dayStart: int -> int, now: int)
    requires date != "" && toTime(date).Some?
    ensures var w := DataWindow(Some(date), startDate, endDate, toTime, dayStart, now);
      && w == Some(Window(dayStart(toTime(date).value), dayStart(toTime(date).value) + 86_399_999))
      && w.value.hi - w.value.lo == DayMs - 1
      && InWindow(dayStart(toTime(date).value), w.value) && InWindow(dayStart(toTime(date).value) + DayMs - 1, w.value)
      && !InWindow(dayStart(toTime(date).value) + DayMs, w.value)
  {
  }

  /** Without a date, the range is used only when both of its bounds are given; with one bound
      missing the window is today, as with none. */
  lemma DataRangeNeedsBoth(startDate: Option<string>, endDate: Option<string>,
                           toTime: string -> Option<int>, dayStart: int -> int, now: int)
    ensures var w := DataWindow(None, startDate, endDate, toTime, dayStart, now);
      && (Present(startDate) && Present(endDate) && toTime(startDate.value).Some? && toTime(endDate.value).Some? ==>
            w == Some(Window(toTime(startDate.value).value, toTime(endDate.value).value)))
      && (!Present(startDate) || !Present(endDate) ==> w == Some(DayWindow(dayStart(now))))
      && (w.None? <==> Present(startDate) && Present(endDate) &&
                         (toTime(startDate.value).None? || toTime(endDate.value).None?))
  {
  }

  /** Without both bounds the history covers `days` calendar days back up to now, thirty days
      when `days` is not given. */
  lemma HistoryDefaultsToThirtyDays(startDate: Option<string>, endDate: Option<string>, toTime: string -> Option<int>,
                                    subDays: (int, int) -> int, now: int)
    requires !Present(startDate) || !Present(endDate)
    ensures HistoryWindow(startDate, endDate, None, toTime, subDays, now) == Some(Window(subDays(now, 30), now))
    ensures forall d :: HistoryWindow(startDate, endDate, Some(d), toTime, subDays, now) == Some(Window(subDays(now, d), now))
  {
  }

  /** The answer of a listing handler on a chosen window: the caller's entries in the window, each
      as often as stored, in the given order, with their count. */
  ghost predicate ListedAs(r: Reply, entries: seq<MoodEntry>, userId: string, w: Window, newestFirst: bool) {
    && r.Listed?
    && r.count == |r.data|
    && multiset(r.data) == multiset(Select(entries, userId, w))
    && (if newestFirst then SortedDesc(r.data, Timestamp) else SortedAsc(r.data, Timestamp))
  }

  /** The entry `createdMood` stores: the body as given (the score is not range-checked), the
      caller as owner, the time of the request. */
  function NewEntry(userId: string, input: MoodInput, now: int): (e: MoodEntry)
    ensures e.userId == userId && e.timestamp == now
    ensures e.score == input.score && e.note == input.note && e.context == input.context
    ensures e.activities == input.activities
  {
    MoodEntry(userId, input.score, input.note, input.context, input.activities, now)
  }

  /** The mood collection, updated in place by `createdMood`. */
  class MoodStore {
    var entries: seq<MoodEntry>

    constructor ()
      ensures entries == []
    {
      entries := [];
    }

    /** `createdMood`: 401 without a caller and nothing stored; otherwise the new entry appended
        and answered with 201 when the database accepts it, nothing stored and the error passed on
        when it does not. */
    method CreatedMood(caller: Option<string>, input: MoodInput, now: int, saved: bool) returns (r: Reply)
      modifies this
      ensures !Present(caller) ==> r == NotAuthenticated && entries == old(entries)
      ensures Present(caller) && !saved ==> r == PassedToNext && entries == old(entries)
      ensures Present(caller) && saved ==>
        && entries == old(entries) + [NewEntry(caller.value, input, now)]
        && r == Created(NewEntry(caller.value, input, now))
    {
      if !Present(caller) {
        return NotAuthenticated;
      }
      var mood := NewEntry(caller.value, input, now);
      if !saved {
        return PassedToNext;
      }
      entries := entries + [mood];
      r := Created(mood);
    }

    /** `getMoodData`: the query window is assigned in branches, then the caller's entries in it
        are returned newest first. */
    method GetMoodData(caller: Option<string>, date: Option<string>, startDate: Option<string>, endDate: Option<string>,
                       toTime: string -> Option<int>, dayStart: int -> int, now: int) returns (r: Reply)
      ensures !Present(caller) ==> r == NotAuthenticated
      ensures Present(caller) ==>
        match DataWindow(date, startDate, endDate, toTime, dayStart, now)
        case None => r == PassedToNext
        case Some(w) => ListedAs(r, entries, caller.value, w, true)
    {
      if !Present(caller) {
        return NotAuthenticated;
      }
      var window := DataQuery(date, startDate, endDate, toTime, dayStart, now);
      if window.None? {
        return PassedToNext;
      }
      r := Find(caller.value, window.value, true);
    }

    /** The branches that assign `query.timestamp` in `getMoodData`; `None` when a date in them is
        invalid. */
    method DataQuery(date: Option<string>, startDate: Option<string>, endDate: Option<string>,
                     toTime: string -> Option<int>, dayStart: int -> int, now: int) returns (window: Option<Window>)
      ensures window == DataWindow(date, startDate, endDate, toTime, dayStart, now)
    {
      if Present(date) {
        var target := toTime(date.value);
        if target.None? {
          return None;
        }
        var start := dayStart(target.value);
        window := Some(Window(start, start + DayMs - 1));
      } else if Present(startDate) && Present(endDate) {
        var lo, hi := toTime(startDate.value), toTime(endDate.value);
        if lo.None? || hi.None? {
          return None;
        }
        window := Some(Window(lo.value, hi.value));
      } else {
        var start := dayStart(now);
        window := Some(Window(start, start + DayMs - 1));
      }
    }

    /** `Mood.find(query).sort({ timestamp: -1 })` (or `1`) and the `{ data, count }` answer. */
    method Find(userId: string, w: Window, newestFirst: bool) returns (r: Reply)
      ensures ListedAs(r, entries, userId, w, newestFirst)
    {
      var selected := Select(entries, userId, w);
      var moods := if newestFirst then SortDesc(selected, Timestamp) else SortAsc(selected, Timestamp);
      r := Listed(moods, |moods|);
    }

    /** `getMoodHistory`: the given range, or the last `days` days; oldest first. */
    method GetMoodHistory(caller: Option<string>, startDate: Option<string>, endDate: Option<string>, days: Option<int>,
                          toTime: string -> Option<int>, subDays: (int, int) -> int, now: int) returns (r: Reply)
      ensures !Present(caller) ==> r == NotAuthenticated
      ensures Present(caller) ==>
        match HistoryWindow(startDate, endDate, days, toTime, subDays, now)
        case None => r == PassedToNext
        case Some(w) => ListedAs(r, entries, caller.value, w, false)
    {
      if !Present(caller) {
        return NotAuthenticated;
      }
      var window := HistoryQuery(startDate, endDate, days, toTime, subDays, now);
      if window.None? {
        return PassedToNext;
      }
      r := Find(caller.value, window.value, false);
    }

    /** The branches that assign `query.timestamp` in `getMoodHistory`; the period start is the
        clock moved back `days` days. */
    method HistoryQuery(startDate: Option<string>, endDate: Option<string>, days: Option<int>,
                        toTime: string -> Option<int>, subDays: (int, int) -> int, now: int) returns (window: Option<Window>)
      ensures window == HistoryWindow(startDate, endDate, days, toTime, subDays, now)
    {
      if Present(startDate) && Present(endDate) {
        var lo, hi := toTime(startDate.value), toTime(endDate.value);
        if lo.None? || hi.None? {
          return None;
        }
        window := Some(Window(lo.value, hi.value));
      } else {
        var n := days.GetOr(DefaultDays);
        var startOfPeriod := subDays(now, n);
        window := Some(Window(startOfPeriod, now));
      }
    }
  }

  /** An entry created by the caller now is among the entries `getMoodData` lists for today. */
  lemma CreatedEntryListedToday(entries: seq<MoodEntry>, userId: string, input: MoodInput, dayStart: int -> int, now: int)
    requires dayStart(now) <= now < dayStart(now) + DayMs
    ensures var w := DataWindow(None, None, None, (s: string) => None, dayStart, now).value;
      NewEntry(userId, input, now) in Select(entries + [NewEntry(userId, input, now)], userId, w)
  {
    var w := DataWindow(None, None, None, (s: string) => None, dayStart, now).value;
    SelectExactly(entries + [NewEntry(userId, input, now)], userId, w, NewEntry(userId, input, now));
  }
}
