/**
 * The chat-session document shapes of backend/src/models/chat.ts: a message (role, content,
 * timestamp, optional metadata) and a session (sessionId, owner, start time, status, messages),
 * with the schema's enum and `required` validators as functions from raw documents to typed ones.
 */
module ChatModel {
  import opened Wrappers
  import opened Text

  type UserId = string

  /** The `role` enum: exactly `user` or `assistant`. */
  datatype Role = UserRole | AssistantRole

  /** The `status` enum: exactly `active`, `completed` or `archived`. */
  datatype SessionStatus = Active | Completed | Archived

  /** The analysis record the chat handler stores (the `MessageAnalysis` shape). */
  datatype Analysis = Analysis(
    emotionalState: string,
    themes: seq<string>,
    riskLevel: int,
    recommendedApproach: string,
    progressIndicators: seq<string>)

  datatype Progress = Progress(emotionalState: Option<string>, riskLevel: Option<int>)

  /** Optional metadata of a message; every part of it is optional too. */
  datatype Metadata = Metadata(analysis: Option<Analysis>, currentGoal: Option<string>, progress: Option<Progress>)

  datatype ChatMessage = ChatMessage(role: Role, content: string, timestamp: int, metadata: Option<Metadata>)

  /** A stored session; `docId` is the database's own `_id`, `sessionId` the external id. */
  datatype ChatSession = ChatSession(
    docId: string,
    sessionId: string,
    userId: UserId,
    startTime: int,
    status: SessionStatus,
    messages: seq<ChatMessage>)

  function RoleName(r: Role): string {
    match r
    case UserRole => "user"
    case AssistantRole => "assistant"
  }

  /** The enum validator for `role`. */
  function ParseRole(s: string): (r: Option<Role>)
    ensures r.Some? <==> s == "user" || s == "assistant"
    ensures r.Some? ==> RoleName(r.value) == s
  {
    if s == "user" then Some(UserRole)
    else if s == "assistant" then Some(AssistantRole)
    else None
  }

  lemma RoleRoundTrip(r: Role)
    ensures ParseRole(RoleName(r)) == Some(r)
  {
  }

  function StatusName(s: SessionStatus): string {
    match s
    case Active => "active"
    case Completed => "completed"
    case Archived => "archived"
  }

  /** The enum validator for `status`. */
  function ParseStatus(s: string): (r: Option<SessionStatus>)
    ensures r.Some? <==> s == "active" || s == "completed" || s == "archived"
    ensures r.Some? ==> StatusName(r.value) == s
  {
    if s == "active" then Some(Active)
    else if s == "completed" then Some(Completed)
    else if s == "archived" then Some(Archived)
    else None
  }

  lemma StatusRoundTrip(s: SessionStatus)
    ensures ParseStatus(StatusName(s)) == Some(s)
  {
  }

  /** A message document as it reaches the schema: any string as role, fields possibly missing. */
  datatype RawMessage = RawMessage(role: string, content: Option<string>, timestamp: Option<int>, metadata: Option<Metadata>)

  /** A session document as it reaches the schema. */
  datatype RawSession = RawSession(
    docId: string,
    sessionId: Option<string>,
    userId: Option<UserId>,
    startTime: Option<int>,
    status: Option<string>,
    messages: seq<RawMessage>)

  /** The message schema: role in the enum, content present and non-empty, timestamp present. */
  function ValidateMessage(m: RawMessage): (r: Option<ChatMessage>)
    ensures r.Some? <==> ParseRole(m.role).Some? && Present(m.content) && m.timestamp.Some?
    ensures r.Some? ==> (RoleName(r.value.role) == m.role && r.value.content == m.content.value
      && r.value.timestamp == m.timestamp.value && r.value.metadata == m.metadata)
  {
    if ParseRole(m.role).Some? && Present(m.content) && m.timestamp.Some? then
      Some(ChatMessage(ParseRole(m.role).value, m.content.value, m.timestamp.value, m.metadata))
    else None
  }

  function ValidateMessages(ms: seq<RawMessage>): (r: Option<seq<ChatMessage>>)
    ensures r.Some? <==> forall i :: 0 <= i < |ms| ==> ValidateMessage(ms[i]).Some?
    ensures r.Some? ==> |r.value| == |ms| && forall i :: 0 <= i < |ms| ==> r.value[i] == ValidateMessage(ms[i]).value
  {
    if ms == [] then Some([])
    else
      match (ValidateMessage(ms[0]), ValidateMessages(ms[1..]))
      case (Some(m), Some(rest)) => Some([m] + rest)
      case _ => None
  }

  /** The session schema: sessionId, userId, startTime and status required, status in the enum,
      and every message valid. */
  function ValidateSession(s: RawSession): (r: Option<ChatSession>)
    ensures r.Some? <==> (Present(s.sessionId) && Present(s.userId) && s.startTime.Some?
      && s.status.Some? && ParseStatus(s.status.value).Some? && ValidateMessages(s.messages).Some?)
    ensures r.Some? ==> (r.value.sessionId == s.sessionId.value && r.value.userId == s.userId.value
      && r.value.docId == s.docId && |r.value.messages| == |s.messages|)
  {
    if Present(s.sessionId) && Present(s.userId) && s.startTime.Some? && s.status.Some?
      && ParseStatus(s.status.value).Some? && ValidateMessages(s.messages).Some?
    then Some(ChatSession(s.docId, s.sessionId.value, s.userId.value, s.startTime.value,
      ParseStatus(s.status.value).value, ValidateMessages(s.messages).value))
    else None
  }

  function ToRawMessage(m: ChatMessage): RawMessage {
    RawMessage(RoleName(m.role), Some(m.content), Some(m.timestamp), m.metadata)
  }

  function ToRawSession(s: ChatSession): RawSession {
    RawSession(s.docId, Some(s.sessionId), Some(s.userId), Some(s.startTime), Some(StatusName(s.status)),
      seq(|s.messages|, i requires 0 <= i < |s.messages| => ToRawMessage(s.messages[i])))
  }

  /** The typed invariant the schema enforces on a message. */
  predicate ValidMessage(m: ChatMessage) {
    m.content != ""
  }

  predicate ValidSession(s: ChatSession) {
    s.sessionId != "" && s.userId != "" && forall i :: 0 <= i < |s.messages| ==> ValidMessage(s.messages[i])
  }

  /** A session the typed invariant admits passes the schema unchanged, and every session the
      schema accepts satisfies the typed invariant. */
  lemma {:induction false} SessionSchemaRoundTrip(s: ChatSession)
    ensures ValidSession(s) ==> ValidateSession(ToRawSession(s)) == Some(s)
  {
    if ValidSession(s) {
      var raw := ToRawSession(s);
      forall i | 0 <= i < |s.messages|
        ensures ValidateMessage(raw.messages[i]) == Some(s.messages[i])
      {
        RoleRoundTrip(s.messages[i].role);
      }
      StatusRoundTrip(s.status);
      assert ValidateMessages(raw.messages).value == s.messages;
    }
  }

  lemma SchemaAcceptsOnlyValid(raw: RawSession)
    requires ValidateSession(raw).Some?
    ensures ValidSession(ValidateSession(raw).value)
  {
  }
}
