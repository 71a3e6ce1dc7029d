/**
 * backend/src/utils/inngestEvents.ts: the payloads of the three Inngest events. Each payload is
 * an object literal whose generated keys come first and whose spread of the input comes last, so
 * a key of the input overrides a generated key of the same name. Objects are maps from key to
 * value; `undefined` is a value of its own because a destructured key that is absent still
 * becomes a key of the payload.
 */
module Events {
  import opened Wrappers

  /** The values the payloads carry. */
  datatype Value =
    | Undefined
    | Null
    | Bool(b: bool)
    | Num(n: int)
    | Str(s: string)
    | Time(ms: int)
    | List(items: seq<Value>)

  type Object = map<string, Value>

  datatype Event = Event(name: string, data: Object)

  /** `o.k`: an absent key reads as `undefined`. */
  function Get(o: Object, k: string): Value {
    if k in o then o[k] else Undefined
  }

  /** `{ ...a, ...b }`: every key of either, the value from `b` where both have it. */
  function Spread(a: Object, b: Object): (r: Object)
    ensures r.Keys == a.Keys + b.Keys
    ensures forall k :: k in b ==> r[k] == b[k]
    ensures forall k :: k in a && k !in b ==> r[k] == a[k]
  {
    a + b
  }

  /** The `...rest` of a destructuring that names `taken`. */
  function Rest(o: Object, taken: set<string>): (r: Object)
    ensures r.Keys == o.Keys - taken
    ensures forall k :: k in r ==> r[k] == o[k]
  {
    map k | k in o && k !in taken :: o[k]
  }

  /** JavaScript truthiness (NaN is not among the modelled numbers). */
  predicate Truthy(v: Value) {
    match v
    case Undefined => false
    case Null => false
    case Bool(b) => b
    case Num(n) => n != 0
    case Str(s) => s != ""
    case _ => true
  }

  /** `a || b`. */
  function Or(a: Value, b: Value): (r: Value)
    ensures Truthy(a) ==> r == a
    ensures !Truthy(a) ==> r == b
  {
    if Truthy(a) then a else b
  }

  const ActivityTaken: set<string> := {"id", "userId", "duration", "difficulty", "feedback"}

  /** `sendActivityCompletionEvent`: `nowIso` is `new Date().toISOString()`. */
  function ActivityEvent(input: Object, nowIso: string): Event {
    Event("activity/completed", Spread(
      map["userId" := Get(input, "userId"), "activityId" := Get(input, "id"), "timestamp" := Str(nowIso),
          "duration" := Get(input, "duration"), "difficulty" := Get(input, "difficulty"),
          "feedback" := Get(input, "feedback")],
      Rest(input, ActivityTaken)))
  }

  const SessionTaken: set<string> := {"id", "userId", "requiresFollowUp", "type", "duration", "notes"}

  /** `sendTherapySessionEvent`. */
  function TherapyEvent(input: Object, nowIso: string): Event {
    Event("therapy/session.created", Spread(
      map["sessionId" := Get(input, "id"), "userId" := Get(input, "userId"), "timestamp" := Str(nowIso),
          "requiresFollowUp" := Or(Get(input, "requiresFollowUp"), Bool(false)),
          "sessionType" := Get(input, "type"), "duration" := Get(input, "duration"),
          "notes" := Get(input, "notes")],
      Rest(input, SessionTaken)))
  }

  /** `sendMoodUpdateEvent`. */
  function MoodEvent(input: Object, nowIso: string): Event {
    Event("mood/updated", Spread(map["timestamp" := Str(nowIso)], input))
  }

  /** The payload of the activity event: the destructured keys are copied under their names (the id
      as `activityId`) and cannot be overridden, every other input key is copied as is and wins over a
      generated `activityId` or `timestamp`; the generated timestamp survives only when the input has
      none. */
  lemma ActivityEventPayload(input: Object, nowIso: string)
    ensures var e := ActivityEvent(input, nowIso);
      && e.name == "activity/completed"
      && e.data.Keys == {"userId", "activityId", "timestamp", "duration", "difficulty", "feedback"} + (input.Keys - ActivityTaken)
      && e.data["userId"] == Get(input, "userId")
      && e.data["duration"] == Get(input, "duration")
      && e.data["difficulty"] == Get(input, "difficulty")
      && e.data["feedback"] == Get(input, "feedback")
      && e.data["activityId"] == (if "activityId" in input then input["activityId"] else Get(input, "id"))
      && e.data["timestamp"] == (if "timestamp" in input then input["timestamp"] else Str(nowIso))
      && (forall k :: k in input && k !in ActivityTaken ==> e.data[k] == input[k])
      && "id" !in e.data
  {
  }

  /** The therapy event's `requiresFollowUp` is the input's when truthy and else `false`, so its
      truthiness is the input's. */
  lemma TherapyEventFollowUp(input: Object, nowIso: string)
    ensures var e := TherapyEvent(input, nowIso);
      && e.name == "therapy/session.created"
      && e.data["requiresFollowUp"] ==
           (if "requiresFollowUp" in input && Truthy(input["requiresFollowUp"]) then input["requiresFollowUp"] else Bool(false))
      && Truthy(e.data["requiresFollowUp"]) == Truthy(Get(input, "requiresFollowUp"))
  {
  }

  /** The therapy event's `sessionType` is the input's `type` and `sessionId` its `id`, unless the
      input itself has keys of those names, which win. */
  lemma TherapyEventRenames(input: Object, nowIso: string)
    ensures var e := TherapyEvent(input, nowIso);
      && e.data["sessionType"] == (if "sessionType" in input then input["sessionType"] else Get(input, "type"))
      && e.data["sessionId"] == (if "sessionId" in input then input["sessionId"] else Get(input, "id"))
  {
  }

  /** The therapy event copies `userId`, keeps every input key it does not destructure, lets an
      input timestamp win, and drops the raw `id` and `type`. */
  lemma TherapyEventCopies(input: Object, nowIso: string)
    ensures var e := TherapyEvent(input, nowIso);
      && e.data["userId"] == Get(input, "userId")
      && e.data["timestamp"] == (if "timestamp" in input then input["timestamp"] else Str(nowIso))
      && (forall k :: k in input && k !in SessionTaken ==> e.data[k] == input[k])
      && "id" !in e.data && "type" !in e.data
  {
  }

  /** The mood event is the input with a generated timestamp that any input timestamp overrides. */
  lemma MoodEventPayload(input: Object, nowIso: string)
    ensures var e := MoodEvent(input, nowIso);
      && e.name == "mood/updated"
      && e.data.Keys == input.Keys + {"timestamp"}
      && (forall k :: k in input ==> e.data[k] == input[k])
      && ("timestamp" !in input ==> e.data["timestamp"] == Str(nowIso))
  {
  }

  /** Each sender logs and rethrows a failed `inngest.send`: the caller sees the failure. */
  datatype Sent = Delivered(event: Event) | Threw(event: Event)

  function Send(e: Event, delivered: bool): (r: Sent)
    ensures r.event == e
    ensures r.Delivered? <==> delivered
  {
    if delivered then Delivered(e) else Threw(e)
  }
}
