/**
 * The activity handlers of backend/src/controllers/activityControllers.ts: the caller's activities
 * newest first, today's activities in a half-open window, and `logActivity`, which inserts the
 * record and then sends the `activity/completed` event built by backend/src/utils/inngestEvents.ts.
 *
 * The body's fields are JSON values (`Events.Value`), an absent one `undefined`. The local start of
 * today and of tomorrow (`new Date(y, m, d)` and `new Date(y, m, d + 1)`) are parameters, as are the
 * clock, the record's fresh id, whether the insert succeeded and whether the event was delivered.
 */
module Activity {
  import opened Wrappers
  import opened Text
  import opened Seqs
  import opened Events

  /** A stored activity. */
  datatype ActivityRecord = ActivityRecord(
    id: string,
    userId: string,
    kind: Value,
    name: Value,
    description: Value,
    duration: Value,
    difficulty: Value,
    feedback: Value,
    timestamp: int)

  /** What a handler answers: 401 `"User not authenticated"`, the list as the JSON body, 201 with
      the stored record, or an error passed to `next`. */
  datatype Reply =
    | NotAuthenticated
    | Activities(items: seq<ActivityRecord>)
    | Logged(record: ActivityRecord)
    | PassedToNext

  function Timestamp(a: ActivityRecord): int {
    a.timestamp
  }

  function OwnedBy(userId: string): ActivityRecord -> bool {
    (a: ActivityRecord) => a.userId == userId
  }

  /** The query of `getTodayActivities`: `$gte` the start of today, `$lt` the start of tomorrow. */
  function OwnedToday(userId: string, todayStart: int, tomorrowStart: int): ActivityRecord -> bool {
    (a: ActivityRecord) => a.userId == userId && todayStart <= a.timestamp < tomorrowStart
  }

  /** The record `logActivity` stores from the body, stamped with the clock. */
  function NewRecord(id: string, userId: string, body: Object, now: int): ActivityRecord {
    ActivityRecord(id, userId, Get(body, "type"), Get(body, "name"), Get(body, "description"),
                   Get(body, "duration"), Get(body, "difficulty"), Get(body, "feedback"), now)
  }

  /** The object handed to `sendActivityCompletionEvent`: the owner as a string, the record's id
      and timestamp, and the body's fields other than `description`. */
  function EventInput(a: ActivityRecord): Object {
    map["userId" := Str(a.userId), "id" := Str(a.id), "type" := a.kind, "name" := a.name,
        "duration" := a.duration, "difficulty" := a.difficulty, "feedback" := a.feedback,
        "timestamp" := Time(a.timestamp)]
  }

  /** The event sent for a stored record: it names the record by id and owner, and it carries the
      record's own timestamp, which overrides the send time. */
  lemma LoggedEventCarriesRecord(a: ActivityRecord, nowIso: string)
    ensures var e := ActivityEvent(EventInput(a), nowIso);
      && e.name == "activity/completed"
      && e.data["userId"] == Str(a.userId)
      && e.data["activityId"] == Str(a.id)
      && e.data["timestamp"] == Time(a.timestamp)
      && e.data["type"] == a.kind && e.data["name"] == a.name
      && e.data["duration"] == a.duration && e.data["difficulty"] == a.difficulty
      && e.data["feedback"] == a.feedback
      && "id" !in e.data && "description" !in e.data
  {
    var input := EventInput(a);
    ActivityEventPayload(input, nowIso);
    assert "timestamp" in input && "timestamp" !in ActivityTaken;
    assert "type" in input && "type" !in ActivityTaken;
    assert "name" in input && "name" !in ActivityTaken;
    assert "activityId" !in input;
  }

  /** The activity collection. */
  class ActivityStore {
    var records: seq<ActivityRecord>

    constructor ()
      ensures records == []
    {
      records := [];
    }

    /** `getActivities`: 401 without a caller; otherwise exactly the caller's activities, newest
        first. */
    method GetActivities(caller: Option<string>) returns (r: Reply)
      ensures !Present(caller) ==> r == NotAuthenticated
      ensures Present(caller) ==>
        && r.Activities?
        && multiset(r.items) == multiset(Filter(records, OwnedBy(caller.value)))
        && SortedDesc(r.items, Timestamp)
    {
      if !Present(caller) {
        return NotAuthenticated;
      }
      var activities := SortDesc(Filter(records, OwnedBy(caller.value)), Timestamp);
      r := Activities(activities);
    }

    /** `getTodayActivities`: the caller's activities from the start of today up to, not
        including, the start of tomorrow, newest first. */
    method GetTodayActivities(caller: Option<string>, todayStart: int, tomorrowStart: int) returns (r: Reply)
      ensures !Present(caller) ==> r == NotAuthenticated
      ensures Present(caller) ==>
        && r.Activities?
        && multiset(r.items) == multiset(Filter(records, OwnedToday(caller.value, todayStart, tomorrowStart)))
        && SortedDesc(r.items, Timestamp)
    {
      if !Present(caller) {
        return NotAuthenticated;
      }
      var activities := SortDesc(Filter(records, OwnedToday(caller.value, todayStart, tomorrowStart)), Timestamp);
      r := Activities(activities);
    }

    /** `logActivity`: 401 and nothing stored without a caller; a failed insert stores nothing and
        goes to `next`; after the insert the event is sent, and a failed send goes to `next`
        although the record stays stored; otherwise 201 with the record. */
    method LogActivity(caller: Option<string>, body: Object, freshId: string, now: int, nowIso: string,
                       saved: bool, delivered: bool) returns (r: Reply, sent: Option<Sent>)
      modifies this
      ensures !Present(caller) ==> r == NotAuthenticated && sent.None? && records == old(records)
      ensures Present(caller) && !saved ==> r == PassedToNext && sent.None? && records == old(records)
      ensures Present(caller) && saved ==>
        var a := NewRecord(freshId, caller.value, body, now);
        && records == old(records) + [a]
        && sent == Some(Send(ActivityEvent(EventInput(a), nowIso), delivered))
        && r == (if delivered then Logged(a) else PassedToNext)
    {
      if !Present(caller) {
        return NotAuthenticated, None;
      }
      var activity := NewRecord(freshId, caller.value, body, now);
      if !saved {
        return PassedToNext, None;
      }
      records := records + [activity];
      var outcome := Send(ActivityEvent(EventInput(activity), nowIso), delivered);
      sent := Some(outcome);
      if outcome.Threw? {
        return PassedToNext, sent;
      }
      r := Logged(activity);
    }
  }

  /** A logged activity is among today's when the clock is inside today: the window's lower end
      is inclusive. */
  lemma LoggedIsToday(records: seq<ActivityRecord>, id: string, userId: string, body: Object,
                      now: int, todayStart: int, tomorrowStart: int)
    requires todayStart <= now < tomorrowStart
    ensures NewRecord(id, userId, body, now) in Filter(records + [NewRecord(id, userId, body, now)], OwnedToday(userId, todayStart, tomorrowStart))
  {
    var s := records + [NewRecord(id, userId, body, now)];
    assert s[|s| - 1] == NewRecord(id, userId, body, now);
  }

  /** Today's window is half-open: an activity stamped at the start of tomorrow is not listed. */
  lemma TomorrowStartExcluded(records: seq<ActivityRecord>, userId: string, todayStart: int, tomorrowStart: int, a: ActivityRecord)
    requires a.timestamp == tomorrowStart
    ensures a !in Filter(records, OwnedToday(userId, todayStart, tomorrowStart))
  {
  }
}
