/**
 * The chat-session handlers of backend/src/controllers/chat.ts over a session store.
 *
 * The store is a map from `sessionId` to session plus the database's `_id` index. Gemini's
 * `generateContent` is an input (`Generation`), the Inngest send an input flag, `uuid` and the
 * database's `_id` fresh values, and the clock the timestamps passed in. Each handler is specified
 * by a function over the store's value (`ChatDb`); the class methods carry out the steps in place.
 */
module Chat {
  import opened Wrappers
  import opened Text
  import opened Seqs
  import opened ChatModel

  /** The reply used when generation throws or yields only whitespace. */
  const FallbackReply: string :=
    "I understand you're reaching out, and I'm here to listen and support you. Sometimes I have technical difficulties, but your feelings and experiences are always valid and important. Could you tell me more about what's on your mind right now?"

  /** The analysis attached to every turn: the handler never computes one. */
  const DefaultAnalysis: Analysis :=
    Analysis("neutral", ["general"], 0, "supportive", ["engagement"])

  /** What the generative model call produced for one turn. */
  datatype Generation = Generated(text: string) | GenerationFailed

  /** The store: sessions by `sessionId`, and the `_id` index from document id to `sessionId`. */
  datatype ChatDb = ChatDb(sessions: map<string, ChatSession>, byDocId: map<string, string>)

  /** The `therapy/session.message` event sent to Inngest before generating; a failed delivery
      is logged and ignored. */
  datatype TurnEvent = TurnEvent(message: string, history: seq<ChatMessage>)

  const TurnEventName: string := "therapy/session.message"

  /** The fixed texts of the responses, kept symbolic so that proofs need not spell them out;
      `NoticeText` gives each one's wording. */
  datatype Notice =
    | MessageRequired | ServiceConfig | SessionNotFound | Unauthorized | ConnectionTrouble
    | NotAuthenticated | UserNotFound | CreateFailed | CreatedNotice | ChatSessionNotFound
    | UserNotAuthenticated

  function NoticeText(n: Notice): string {
    match n
    case MessageRequired => "Message cannot be empty"
    case ServiceConfig => "AI service configuration error"
    case SessionNotFound => "Session not found"
    case Unauthorized => "Unauthorized"
    case ConnectionTrouble => "I apologize, but I'm having trouble connecting right now. Please try again in a moment."
    case NotAuthenticated => "Unauthorized - User not authenticated"
    case UserNotFound => "User not found"
    case CreateFailed => "Error creating chat session"
    case CreatedNotice => "Chat session created successfully"
    case ChatSessionNotFound => "Chat session not found"
    case UserNotAuthenticated => "User not authenticated"
  }

  /** The `error` field of a 500 body: the fixed hint, or the caught error's own message. */
  datatype Detail = KeyHint | Thrown

  function DetailText(d: Detail, thrown: string): string {
    match d
    case KeyHint => "Please check your API key configuration"
    case Thrown => thrown
  }

  /** An entry of the session list. */
  datatype SessionSummary = SessionSummary(
    id: string, sessionId: string, userId: UserId, title: string,
    messages: seq<ChatMessage>, createdAt: int, updatedAt: int, status: string)

  datatype Body =
    | MessageError(notice: Notice, detail: Option<Detail>)
    | ErrorOnly(error: Notice)
    | SessionCreated(notice: Notice, sessionId: string)
    | TurnReply(response: string, message: string, analysis: Analysis, progress: Progress)
    | Messages(messages: seq<ChatMessage>)
    | SessionHistory(messages: seq<ChatMessage>, startTime: int, status: SessionStatus)
    | SessionDocument(session: ChatSession)
    | Sessions(items: seq<SessionSummary>)

  datatype Response = Response(status: int, body: Body)

  datatype TurnOutcome = TurnOutcome(response: Response, db: ChatDb, event: Option<TurnEvent>)

  datatype CreateOutcome = CreateOutcome(response: Response, db: ChatDb)

  /** Every session is stored under its own `sessionId`, every stored message is valid, the log is a
      sequence of user/assistant pairs, and the `_id` index is a bijection onto the sessions. */
  ghost predicate ValidDb(db: ChatDb) {
    && (forall k :: k in db.sessions ==> db.sessions[k].sessionId == k && ValidSession(db.sessions[k]))
    && (forall k :: k in db.sessions ==> Paired(db.sessions[k].messages))
    && (forall k :: k in db.sessions ==> db.sessions[k].docId in db.byDocId && db.byDocId[db.sessions[k].docId] == k)
    && (forall d :: d in db.byDocId ==> db.byDocId[d] in db.sessions && db.sessions[db.byDocId[d]].docId == d)
  }

  /** Messages alternate user, assistant, user, … and every assistant message carries metadata. */
  ghost predicate Paired(ms: seq<ChatMessage>) {
    && |ms| % 2 == 0
    && (forall i :: 0 <= i < |ms| ==> (ms[i].role == UserRole <==> i % 2 == 0))
    && (forall i :: 0 <= i < |ms| && ms[i].role == AssistantRole ==> ms[i].metadata.Some?)
  }

  /** The reply text: the trimmed generation when it is not empty, the fallback otherwise. */
  function ReplyFor(g: Generation): (r: string)
    ensures r != []
    ensures g.Generated? && Trim(g.text) != [] ==> r == Trim(g.text)
    ensures g.GenerationFailed? || Trim(g.text) == [] ==> r == FallbackReply
  {
    if g.Generated? && Trim(g.text) != [] then Trim(g.text) else FallbackReply
  }

  function ProgressOf(a: Analysis): Progress {
    Progress(Some(a.emotionalState), Some(a.riskLevel))
  }

  /** The user's message of a turn, stored without metadata. */
  function UserMessage(text: string, time: int): (m: ChatMessage)
    ensures m.role == UserRole && m.content == text && m.timestamp == time && m.metadata.None?
  {
    ChatMessage(UserRole, text, time, None)
  }

  /** The assistant's message of a turn: the reply with the analysis and the progress derived from it. */
  function ReplyMessage(reply: string, time: int): (m: ChatMessage)
    ensures m.role == AssistantRole && m.content == reply && m.timestamp == time
    ensures m.metadata == Some(Metadata(Some(DefaultAnalysis), None, Some(ProgressOf(DefaultAnalysis))))
  {
    ChatMessage(AssistantRole, reply, time, Some(Metadata(Some(DefaultAnalysis), None, Some(ProgressOf(DefaultAnalysis)))))
  }

  /** The two messages one successful turn appends. */
  function TurnMessages(text: string, reply: string, userTime: int, replyTime: int): (r: seq<ChatMessage>)
    ensures |r| == 2 && r[0] == UserMessage(text, userTime) && r[1] == ReplyMessage(reply, replyTime)
  {
    [UserMessage(text, userTime), ReplyMessage(reply, replyTime)]
  }

  /** Two pushes append the pair. */
  lemma PushTwo(ms: seq<ChatMessage>, a: ChatMessage, b: ChatMessage)
    ensures ms + [a] + [b] == ms + [a, b]
  {
  }

  /** A message body fails validation when it is missing or only whitespace. */
  predicate EmptyMessage(message: Option<string>) {
    message.None? || Trim(message.value) == []
  }

  /** The caller owns the session; a missing caller becomes a fresh id, which owns nothing. */
  predicate Owns(caller: Option<UserId>, s: ChatSession) {
    caller.Some? && caller.value == s.userId
  }

  /** A session with one more turn on its log. */
  function AppendTurn(s: ChatSession, text: string, reply: string, userTime: int, replyTime: int): ChatSession {
    s.(messages := s.messages + TurnMessages(text, reply, userTime, replyTime))
  }

  /**
   * One `sendMessage` turn: the checks, then the two messages, then the save. Rejections and a
   * failed save leave the store as it was; `eventDelivered` is accepted and not consulted, since a
   * failing event send is swallowed.
   */
  function Turn(db: ChatDb, sessionId: string, caller: Option<UserId>, message: Option<string>,
                apiKeyConfigured: bool, eventDelivered: bool, gen: Generation, saved: bool,
                userTime: int, replyTime: int): (r: TurnOutcome)
    ensures r.response.status != 200 ==> r.db == db
    ensures r.response.status == 200 ==>
      && message.Some? && sessionId in db.sessions
      && r.db == db.(sessions := db.sessions[sessionId := AppendTurn(db.sessions[sessionId], message.value,
           ReplyFor(gen), userTime, replyTime)])
  {
    if EmptyMessage(message) then
      TurnOutcome(Response(400, MessageError(MessageRequired, None)), db, None)
    else if !apiKeyConfigured then
      TurnOutcome(Response(500, MessageError(ServiceConfig, Some(KeyHint))), db, None)
    else if sessionId !in db.sessions then
      TurnOutcome(Response(404, MessageError(SessionNotFound, None)), db, None)
    else
      var s := db.sessions[sessionId];
      if !Owns(caller, s) then
        TurnOutcome(Response(403, MessageError(Unauthorized, None)), db, None)
      else
        var event := Some(TurnEvent(message.value, s.messages));
        var reply := ReplyFor(gen);
        if !saved then
          TurnOutcome(Response(500, MessageError(ConnectionTrouble, Some(Thrown))), db, event)
        else
          TurnOutcome(Response(200, TurnReply(reply, reply, DefaultAnalysis, ProgressOf(DefaultAnalysis))),
            db.(sessions := db.sessions[sessionId := AppendTurn(s, message.value, reply, userTime, replyTime)]), event)
  }

  /** The checks run in a fixed order and the first failing one decides: empty message 400, missing
      API key 500, unknown session 404, not the owner 403. */
  lemma TurnChecksInOrder(db: ChatDb, sessionId: string, caller: Option<UserId>, message: Option<string>,
                          apiKeyConfigured: bool, eventDelivered: bool, gen: Generation, saved: bool,
                          userTime: int, replyTime: int)
    ensures var r := Turn(db, sessionId, caller, message, apiKeyConfigured, eventDelivered, gen, saved, userTime, replyTime);
      && (EmptyMessage(message) ==>
            r.response == Response(400, MessageError(MessageRequired, None)) && r.db == db)
      && (!EmptyMessage(message) && !apiKeyConfigured ==>
            r.response.status == 500 && r.db == db && r.event.None?)
      && (!EmptyMessage(message) && apiKeyConfigured && sessionId !in db.sessions ==>
            r.response == Response(404, MessageError(SessionNotFound, None)) && r.db == db)
      && (!EmptyMessage(message) && apiKeyConfigured && sessionId in db.sessions
          && !Owns(caller, db.sessions[sessionId]) ==>
            r.response == Response(403, MessageError(Unauthorized, None)) && r.db == db)
  {
  }

  /** A turn succeeds exactly when every check passes and the save does; the reply is the same text
      under `response` and `message`, with the default analysis and its progress. */
  lemma TurnSucceedsExactly(db: ChatDb, sessionId: string, caller: Option<UserId>, message: Option<string>,
                            apiKeyConfigured: bool, eventDelivered: bool, gen: Generation, saved: bool,
                            userTime: int, replyTime: int)
    ensures var r := Turn(db, sessionId, caller, message, apiKeyConfigured, eventDelivered, gen, saved, userTime, replyTime);
      && (r.response.status == 200 <==>
            !EmptyMessage(message) && apiKeyConfigured && sessionId in db.sessions
            && Owns(caller, db.sessions[sessionId]) && saved)
      && (r.response.status == 200 ==>
            r.response.body == TurnReply(ReplyFor(gen), ReplyFor(gen), DefaultAnalysis, ProgressOf(DefaultAnalysis)))
  {
  }

  /** The event is built once every check has passed, from the message and the log before the turn. */
  lemma TurnEventCarriesHistory(db: ChatDb, sessionId: string, caller: Option<UserId>, message: Option<string>,
                                apiKeyConfigured: bool, eventDelivered: bool, gen: Generation, saved: bool,
                                userTime: int, replyTime: int)
    ensures var r := Turn(db, sessionId, caller, message, apiKeyConfigured, eventDelivered, gen, saved, userTime, replyTime);
      && (r.event.Some? <==>
            !EmptyMessage(message) && apiKeyConfigured && sessionId in db.sessions && Owns(caller, db.sessions[sessionId]))
      && (r.event.Some? ==>
            r.event.value == TurnEvent(message.value, db.sessions[sessionId].messages))
  {
  }

  /** Appending a turn keeps the log a sequence of valid user/assistant pairs. */
  lemma {:induction false} AppendTurnKeepsPaired(ms: seq<ChatMessage>, text: string, reply: string, t1: int, t2: int)
    requires Paired(ms)
    ensures Paired(ms + TurnMessages(text, reply, t1, t2))
  {
    var ms' := ms + TurnMessages(text, reply, t1, t2);
    forall i | 0 <= i < |ms'|
      ensures ms'[i].role == UserRole <==> i % 2 == 0
    {
      if i >= |ms| {
        assert ms'[i] == TurnMessages(text, reply, t1, t2)[i - |ms|];
      }
    }
  }

  /** Replacing one session by a valid one with the same ids keeps the store invariant. */
  lemma ReplaceSessionKeepsValid(db: ChatDb, k: string, s': ChatSession)
    requires ValidDb(db) && k in db.sessions
    requires s'.sessionId == k && s'.docId == db.sessions[k].docId
    requires ValidSession(s') && Paired(s'.messages)
    ensures ValidDb(db.(sessions := db.sessions[k := s']))
  {
  }

  /** A session with a non-empty user text and a non-empty reply appended stays valid and paired. */
  lemma AppendTurnKeepsValid(s: ChatSession, text: string, reply: string, userTime: int, replyTime: int)
    requires ValidSession(s) && Paired(s.messages)
    requires text != [] && reply != []
    ensures ValidSession(AppendTurn(s, text, reply, userTime, replyTime))
    ensures Paired(AppendTurn(s, text, reply, userTime, replyTime).messages)
  {
    var added := TurnMessages(text, reply, userTime, replyTime);
    var s' := AppendTurn(s, text, reply, userTime, replyTime);
    AppendTurnKeepsPaired(s.messages, text, reply, userTime, replyTime);
    forall i | 0 <= i < |s'.messages| ensures ValidMessage(s'.messages[i]) {
      if i >= |s.messages| {
        assert s'.messages[i] == added[i - |s.messages|];
      }
    }
  }

  /** A turn keeps the store invariant. */
  lemma TurnPreservesValid(db: ChatDb, sessionId: string, caller: Option<UserId>, message: Option<string>,
                           apiKeyConfigured: bool, eventDelivered: bool, gen: Generation, saved: bool,
                           userTime: int, replyTime: int)
    requires ValidDb(db)
    ensures ValidDb(Turn(db, sessionId, caller, message, apiKeyConfigured, eventDelivered, gen, saved, userTime, replyTime).db)
  {
    var r := Turn(db, sessionId, caller, message, apiKeyConfigured, eventDelivered, gen, saved, userTime, replyTime);
    if r.response.status == 200 {
      TurnSucceedsExactly(db, sessionId, caller, message, apiKeyConfigured, eventDelivered, gen, saved, userTime, replyTime);
      TrimEmptyIff(message.value);
      var s := db.sessions[sessionId];
      AppendTurnKeepsValid(s, message.value, ReplyFor(gen), userTime, replyTime);
      ReplaceSessionKeepsValid(db, sessionId, AppendTurn(s, message.value, ReplyFor(gen), userTime, replyTime));
    }
  }

  /** Whether the Inngest event was delivered makes no difference to the turn. */
  lemma TurnIgnoresEventFailure(db: ChatDb, sessionId: string, caller: Option<UserId>, message: Option<string>,
                                apiKeyConfigured: bool, gen: Generation, saved: bool, userTime: int, replyTime: int)
    ensures Turn(db, sessionId, caller, message, apiKeyConfigured, true, gen, saved, userTime, replyTime)
         == Turn(db, sessionId, caller, message, apiKeyConfigured, false, gen, saved, userTime, replyTime)
  {
  }

  /** A turn changes at most the addressed session, and of it only appends to the message log. */
  lemma TurnFrame(db: ChatDb, sessionId: string, caller: Option<UserId>, message: Option<string>,
                  apiKeyConfigured: bool, eventDelivered: bool, gen: Generation, saved: bool,
                  userTime: int, replyTime: int, other: string)
    requires other in db.sessions
    ensures var db' := Turn(db, sessionId, caller, message, apiKeyConfigured, eventDelivered, gen, saved, userTime, replyTime).db;
      && db'.sessions.Keys == db.sessions.Keys
      && db'.byDocId == db.byDocId
      && (other != sessionId ==> db'.sessions[other] == db.sessions[other])
      && db'.sessions[other].(messages := []) == db.sessions[other].(messages := [])
      && db.sessions[other].messages <= db'.sessions[other].messages
  {
    var r := Turn(db, sessionId, caller, message, apiKeyConfigured, eventDelivered, gen, saved, userTime, replyTime);
    if r.response.status == 200 {
      var s := db.sessions[sessionId];
      AppendTurnExtends(s, message.value, ReplyFor(gen), userTime, replyTime);
      ReplaceFrame(db, sessionId, AppendTurn(s, message.value, ReplyFor(gen), userTime, replyTime), other);
    }
  }

  /** Appending a turn extends the log and leaves every other field as it was. */
  lemma AppendTurnExtends(s: ChatSession, text: string, reply: string, userTime: int, replyTime: int)
    ensures AppendTurn(s, text, reply, userTime, replyTime).(messages := []) == s.(messages := [])
    ensures s.messages <= AppendTurn(s, text, reply, userTime, replyTime).messages
  {
    var added := TurnMessages(text, reply, userTime, replyTime);
    assert s.messages <= s.messages + added;
  }

  /** Replacing one session by an extension of itself changes nothing else in the store. */
  lemma ReplaceFrame(db: ChatDb, k: string, s': ChatSession, other: string)
    requires k in db.sessions && other in db.sessions
    requires s'.(messages := []) == db.sessions[k].(messages := []) && db.sessions[k].messages <= s'.messages
    ensures var db' := db.(sessions := db.sessions[k := s']);
      && db'.sessions.Keys == db.sessions.Keys
      && db'.byDocId == db.byDocId
      && (other != k ==> db'.sessions[other] == db.sessions[other])
      && db'.sessions[other].(messages := []) == db.sessions[other].(messages := [])
      && db.sessions[other].messages <= db'.sessions[other].messages
  {
  }

  /** After a successful turn the log has grown by two: the user's text, then a non-empty reply
      whose progress copies its analysis. */
  lemma {:induction false} TurnAppendsUserThenAssistant(db: ChatDb, sessionId: string, caller: Option<UserId>,
      message: Option<string>, apiKeyConfigured: bool, eventDelivered: bool, gen: Generation, saved: bool,
      userTime: int, replyTime: int)
    requires Turn(db, sessionId, caller, message, apiKeyConfigured, eventDelivered, gen, saved, userTime, replyTime).response.status == 200
    ensures var before := db.sessions[sessionId].messages;
      var after := Turn(db, sessionId, caller, message, apiKeyConfigured, eventDelivered, gen, saved, userTime, replyTime)
        .db.sessions[sessionId].messages;
      && |after| == |before| + 2
      && after[..|before|] == before
      && after[|before|].role == UserRole && after[|before|].content == message.value
      && after[|before| + 1].role == AssistantRole && after[|before| + 1].content != []
      && after[|before| + 1].metadata.value.progress == Some(ProgressOf(after[|before| + 1].metadata.value.analysis.value))
  {
    var before := db.sessions[sessionId].messages;
    var added := TurnMessages(message.value, ReplyFor(gen), userTime, replyTime);
    assert (before + added)[..|before|] == before;
  }

  /** A generation failure still yields a turn with the fallback reply and risk level 0, persisted
      as two new messages. */
  lemma FailedGenerationStillReplies(db: ChatDb, sessionId: string, caller: Option<UserId>, message: Option<string>,
                                     eventDelivered: bool, userTime: int, replyTime: int)
    requires !EmptyMessage(message) && sessionId in db.sessions && Owns(caller, db.sessions[sessionId])
    ensures var r := Turn(db, sessionId, caller, message, true, eventDelivered, GenerationFailed, true, userTime, replyTime);
      && r.response.status == 200
      && r.response.body.response == FallbackReply
      && r.response.body.analysis.riskLevel == 0
      && |r.db.sessions[sessionId].messages| == |db.sessions[sessionId].messages| + 2
  {
  }

  /** Number of sessions a caller owns. */
  function OwnedIds(db: ChatDb, owner: UserId): set<string> {
    set k | k in db.sessions && db.sessions[k].userId == owner
  }

  /** `createChatSession`: 401 without a caller, 404 for an unknown user; otherwise a new active,
      empty session started now is stored under the fresh id. A fresh id that is already taken
      fails the unique index and the save (500), leaving the store unchanged. */
  function Create(db: ChatDb, caller: Option<UserId>, users: set<UserId>,
                  freshSessionId: string, freshDocId: string, now: int): (r: CreateOutcome)
    ensures caller.None? || caller.value == "" ==>
      r == CreateOutcome(Response(401, MessageError(NotAuthenticated, None)), db)
    ensures caller.Some? && caller.value != "" && caller.value !in users ==>
      r == CreateOutcome(Response(404, MessageError(UserNotFound, None)), db)
    ensures r.response.status != 201 ==> r.db == db
    ensures r.response.status == 201 <==>
      caller.Some? && caller.value != "" && caller.value in users && freshSessionId != ""
      && freshSessionId !in db.sessions && freshDocId !in db.byDocId
    ensures r.response.status == 201 ==>
      && r.response.body == SessionCreated(CreatedNotice, freshSessionId)
      && r.db.sessions == db.sessions[freshSessionId := ChatSession(freshDocId, freshSessionId, caller.value, now, Active, [])]
      && r.db.byDocId == db.byDocId[freshDocId := freshSessionId]
  {
    if caller.None? || caller.value == "" then
      CreateOutcome(Response(401, MessageError(NotAuthenticated, None)), db)
    else if caller.value !in users then
      CreateOutcome(Response(404, MessageError(UserNotFound, None)), db)
    else if freshSessionId == "" || freshSessionId in db.sessions || freshDocId in db.byDocId then
      CreateOutcome(Response(500, MessageError(CreateFailed, Some(Thrown))), db)
    else
      var s := ChatSession(freshDocId, freshSessionId, caller.value, now, Active, []);
      CreateOutcome(Response(201, SessionCreated(CreatedNotice, freshSessionId)),
        ChatDb(db.sessions[freshSessionId := s], db.byDocId[freshDocId := freshSessionId]))
  }

  lemma CreatePreservesValid(db: ChatDb, caller: Option<UserId>, users: set<UserId>,
                             freshSessionId: string, freshDocId: string, now: int)
    requires ValidDb(db)
    ensures ValidDb(Create(db, caller, users, freshSessionId, freshDocId, now).db)
  {
  }

  /** `getChatHistory`: 404 for an unknown session, 403 for a non-owner, else the log unchanged. */
  function History(db: ChatDb, sessionId: string, caller: Option<UserId>): (r: Response)
    ensures sessionId !in db.sessions ==> r == Response(404, MessageError(SessionNotFound, None))
    ensures sessionId in db.sessions && !Owns(caller, db.sessions[sessionId]) ==>
      r == Response(403, MessageError(Unauthorized, None))
    ensures r.status == 200 <==> sessionId in db.sessions && Owns(caller, db.sessions[sessionId])
    ensures r.status == 200 ==> r.body == Messages(db.sessions[sessionId].messages)
  {
    if sessionId !in db.sessions then Response(404, MessageError(SessionNotFound, None))
    else if !Owns(caller, db.sessions[sessionId]) then Response(403, MessageError(Unauthorized, None))
    else Response(200, Messages(db.sessions[sessionId].messages))
  }

  /** `getSessionHistory`, which looks the session up by its database `_id` instead. */
  function SessionHistoryById(db: ChatDb, docId: string, caller: Option<UserId>): (r: Response)
    requires ValidDb(db)
    ensures docId !in db.byDocId ==> r == Response(404, MessageError(SessionNotFound, None))
    ensures r.status == 200 <==> docId in db.byDocId && Owns(caller, db.sessions[db.byDocId[docId]])
    ensures r.status == 200 ==>
      var s := db.sessions[db.byDocId[docId]];
      s.docId == docId && r.body == SessionHistory(s.messages, s.startTime, s.status)
  {
    if docId !in db.byDocId then Response(404, MessageError(SessionNotFound, None))
    else
      var s := db.sessions[db.byDocId[docId]];
      if !Owns(caller, s) then Response(403, MessageError(Unauthorized, None))
      else Response(200, SessionHistory(s.messages, s.startTime, s.status))
  }

  /** `getChatSession`: the whole document to any caller (no ownership check), or 404. */
  function GetSession(db: ChatDb, sessionId: string): (r: Response)
    ensures r.status == 200 <==> sessionId in db.sessions
    ensures r.status == 200 ==> r.body == SessionDocument(db.sessions[sessionId])
    ensures r.status != 200 ==> r == Response(404, ErrorOnly(ChatSessionNotFound))
  {
    if sessionId in db.sessions then Response(200, SessionDocument(db.sessions[sessionId]))
    else Response(404, ErrorOnly(ChatSessionNotFound))
  }

  /** The list entry of a session: title from the id, both dates the start time. */
  function Summary(s: ChatSession): (r: SessionSummary)
    ensures r.title == "Session " + s.sessionId && r.sessionId == s.sessionId && r.id == s.docId
    ensures r.createdAt == s.startTime && r.updatedAt == s.startTime
    ensures r.messages == s.messages && r.status == StatusName(s.status) && r.userId == s.userId
  {
    SessionSummary(s.docId, s.sessionId, s.userId, "Session " + s.sessionId, s.messages,
      s.startTime, s.startTime, StatusName(s.status))
  }

  function CreatedAt(s: SessionSummary): int {
    s.createdAt
  }

  /** A new session's history, read back by its owner, is empty. */
  lemma CreateThenHistoryIsEmpty(db: ChatDb, caller: UserId, users: set<UserId>,
                                 freshSessionId: string, freshDocId: string, now: int)
    requires Create(db, Some(caller), users, freshSessionId, freshDocId, now).response.status == 201
    ensures History(Create(db, Some(caller), users, freshSessionId, freshDocId, now).db, freshSessionId, Some(caller))
         == Response(200, Messages([]))
  {
  }

  /** A new session, one turn by its owner, then a turn by anyone else: the owner reads back
      exactly the user's text and the reply, and the other caller is refused with 403 and changes
      nothing. */
  lemma CreateTurnThenForbidden(db: ChatDb, owner: UserId, users: set<UserId>, freshSessionId: string,
                                freshDocId: string, now: int, text: string, gen: Generation,
                                t1: int, t2: int, other: UserId, text2: string, gen2: Generation)
    requires Create(db, Some(owner), users, freshSessionId, freshDocId, now).response.status == 201
    requires !EmptyMessage(Some(text)) && !EmptyMessage(Some(text2)) && other != owner
    ensures var c := Create(db, Some(owner), users, freshSessionId, freshDocId, now);
      var t := Turn(c.db, freshSessionId, Some(owner), Some(text), true, true, gen, true, t1, t2);
      var t' := Turn(t.db, freshSessionId, Some(other), Some(text2), true, true, gen2, true, t1, t2);
      && History(t.db, freshSessionId, Some(owner)) == Response(200, Messages(TurnMessages(text, ReplyFor(gen), t1, t2)))
      && t'.response == Response(403, MessageError(Unauthorized, None)) && t'.db == t.db
  {
    var c := Create(db, Some(owner), users, freshSessionId, freshDocId, now);
    assert c.db.sessions[freshSessionId] == ChatSession(freshDocId, freshSessionId, owner, now, Active, []);
    OwnerTurnOnEmptySession(c.db, freshSessionId, owner, text, gen, t1, t2);
    var t := Turn(c.db, freshSessionId, Some(owner), Some(text), true, true, gen, true, t1, t2);
    TurnChecksInOrder(t.db, freshSessionId, Some(other), Some(text2), true, true, gen2, true, t1, t2);
  }

  /** The owner's turn on a session with an empty log leaves exactly the pair on it. */
  lemma OwnerTurnOnEmptySession(db: ChatDb, sessionId: string, owner: UserId, text: string, gen: Generation,
                                t1: int, t2: int)
    requires sessionId in db.sessions && db.sessions[sessionId].userId == owner
    requires db.sessions[sessionId].messages == [] && !EmptyMessage(Some(text))
    ensures var t := Turn(db, sessionId, Some(owner), Some(text), true, true, gen, true, t1, t2);
      && sessionId in t.db.sessions && t.db.sessions[sessionId].userId == owner
      && t.db.sessions[sessionId].messages == TurnMessages(text, ReplyFor(gen), t1, t2)
  {
    TurnSucceedsExactly(db, sessionId, Some(owner), Some(text), true, true, gen, true, t1, t2);
    EmptyConcat(TurnMessages(text, ReplyFor(gen), t1, t2));
  }

  lemma EmptyConcat(ms: seq<ChatMessage>)
    ensures [] + ms == ms
  {
  }

  /** Sequences with the same multiset have the same members. */
  lemma MultisetSameMembers(a: seq<SessionSummary>, b: seq<SessionSummary>)
    requires multiset(a) == multiset(b)
    ensures forall x :: x in a <==> x in b
  {
    forall x
      ensures x in a <==> x in b
    {
      assert x in a <==> x in multiset(a);
      assert x in b <==> x in multiset(b);
    }
  }

  /** The session store, updated in place by the handlers. */
  class ChatStore {
    var sessions: map<string, ChatSession>
    var byDocId: map<string, string>

    function Db(): ChatDb
      reads this
    {
      ChatDb(sessions, byDocId)
    }

    ghost predicate Valid()
      reads this
    {
      ValidDb(Db())
    }

    constructor ()
      ensures Valid() && sessions == map[] && byDocId == map[]
    {
      sessions := map[];
      byDocId := map[];
    }

    /** `createChatSession` against the store. */
    method CreateChatSession(caller: Option<UserId>, users: set<UserId>,
                             freshSessionId: string, freshDocId: string, now: int) returns (resp: Response)
      requires Valid()
      modifies this
      ensures Valid()
      ensures var r := Create(old(Db()), caller, users, freshSessionId, freshDocId, now);
        resp == r.response && Db() == r.db
    {
      CreatePreservesValid(Db(), caller, users, freshSessionId, freshDocId, now);
      if caller.None? || caller.value == "" {
        return Response(401, MessageError(NotAuthenticated, None));
      }
      if caller.value !in users {
        return Response(404, MessageError(UserNotFound, None));
      }
      if freshSessionId == "" || freshSessionId in sessions || freshDocId in byDocId {
        return Response(500, MessageError(CreateFailed, Some(Thrown)));
      }
      var session := ChatSession(freshDocId, freshSessionId, caller.value, now, Active, []);
      sessions := sessions[freshSessionId := session];
      byDocId := byDocId[freshDocId := freshSessionId];
      resp := Response(201, SessionCreated(CreatedNotice, freshSessionId));
    }

    /** `sendMessage`: checks, then two pushes on the loaded session, then the save. */
    method SendMessage(sessionId: string, caller: Option<UserId>, message: Option<string>,
                       apiKeyConfigured: bool, eventDelivered: bool, gen: Generation, saved: bool,
                       userTime: int, replyTime: int) returns (resp: Response, event: Option<TurnEvent>)
      requires Valid()
      modifies this
      ensures Valid()
      ensures var r := Turn(old(Db()), sessionId, caller, message, apiKeyConfigured, eventDelivered, gen,
                            saved, userTime, replyTime);
        resp == r.response && Db() == r.db && event == r.event
    {
      event := None;
      if EmptyMessage(message) {
        return Response(400, MessageError(MessageRequired, None)), None;
      }
      if !apiKeyConfigured {
        return Response(500, MessageError(ServiceConfig, Some(KeyHint))), None;
      }
      if sessionId !in sessions {
        return Response(404, MessageError(SessionNotFound, None)), None;
      }
      var session := sessions[sessionId];
      if !Owns(caller, session) {
        return Response(403, MessageError(Unauthorized, None)), None;
      }
      event := Some(TurnEvent(message.value, session.messages));
      var reply := ReplyFor(gen);
      if !saved {
        return Response(500, MessageError(ConnectionTrouble, Some(Thrown))), event;
      }
      AppendAndSave(sessionId, message.value, reply, userTime, replyTime);
      resp := Response(200, TurnReply(reply, reply, DefaultAnalysis, ProgressOf(DefaultAnalysis)));
    }

    /** The two pushes onto the loaded session's log and the save that stores it back. */
    method AppendAndSave(sessionId: string, text: string, reply: string, userTime: int, replyTime: int)
      requires Valid() && sessionId in sessions && text != [] && reply != []
      modifies this
      ensures Valid()
      ensures sessions == old(sessions)[sessionId := AppendTurn(old(sessions)[sessionId], text, reply, userTime, replyTime)]
      ensures byDocId == old(byDocId)
    {
      var session := sessions[sessionId];
      var messages := session.messages;
      messages := messages + [UserMessage(text, userTime)];
      messages := messages + [ReplyMessage(reply, replyTime)];
      PushTwo(session.messages, UserMessage(text, userTime), ReplyMessage(reply, replyTime));
      var updated := session.(messages := messages);
      AppendTurnKeepsValid(session, text, reply, userTime, replyTime);
      ReplaceSessionKeepsValid(Db(), sessionId, updated);
      sessions := sessions[sessionId := updated];
    }

    /** `getChatHistory`. */
    function GetChatHistory(sessionId: string, caller: Option<UserId>): (r: Response)
      reads this
      ensures r.status == 200 <==> sessionId in sessions && Owns(caller, sessions[sessionId])
      ensures r.status == 200 ==> r.body == Messages(sessions[sessionId].messages)
    {
      History(Db(), sessionId, caller)
    }

    /** `getSessionHistory`. */
    function GetSessionHistory(docId: string, caller: Option<UserId>): (r: Response)
      reads this
      requires Valid()
      ensures r.status == 200 ==> docId in byDocId && Owns(caller, sessions[byDocId[docId]])
    {
      SessionHistoryById(Db(), docId, caller)
    }

    /** `getChatSession`. */
    function GetChatSession(sessionId: string): (r: Response)
      reads this
      ensures r.status == 200 <==> sessionId in sessions
    {
      GetSession(Db(), sessionId)
    }

    /** `getAllChatSessions`: 401 without a caller; otherwise the summaries of exactly the caller's
        sessions, each once, newest start time first. */
    method GetAllChatSessions(caller: Option<UserId>) returns (resp: Response)
      requires Valid()
      ensures caller.None? || caller.value == "" ==> resp == Response(401, ErrorOnly(UserNotAuthenticated))
      ensures caller.Some? && caller.value != "" ==>
        && resp.status == 200 && resp.body.Sessions?
        && SortedDesc(resp.body.items, CreatedAt)
        && |resp.body.items| == |OwnedIds(Db(), caller.value)|
        && (forall k :: k in sessions && sessions[k].userId == caller.value ==> Summary(sessions[k]) in resp.body.items)
        && (forall x :: x in resp.body.items ==>
              x.sessionId in sessions && sessions[x.sessionId].userId == caller.value && x == Summary(sessions[x.sessionId]))
    {
      if caller.None? || caller.value == "" {
        return Response(401, ErrorOnly(UserNotAuthenticated));
      }
      var listed := FindOwned(caller.value);
      var items := SortDesc(listed, CreatedAt);
      MultisetSameMembers(items, listed);
      resp := Response(200, Sessions(items));
    }

    /** The query `find({ userId })` mapped through the summary: one entry per owned session. */
    method FindOwned(owner: UserId) returns (listed: seq<SessionSummary>)
      requires forall k :: k in sessions ==> sessions[k].sessionId == k
      ensures |listed| == |OwnedIds(Db(), owner)|
      ensures forall k :: k in OwnedIds(Db(), owner) ==> Summary(sessions[k]) in listed
      ensures forall x :: x in listed ==> x.sessionId in OwnedIds(Db(), owner) && x == Summary(sessions[x.sessionId])
    {
      var owned := OwnedIds(Db(), owner);
      var remaining := owned;
      ghost var done: set<string> := {};
      listed := [];
      while remaining != {}
        invariant done <= owned && remaining == owned - done
        invariant |listed| == |done|
        invariant forall k :: k in done ==> Summary(sessions[k]) in listed
        invariant forall x :: x in listed ==> x.sessionId in done && x == Summary(sessions[x.sessionId])
        decreases |remaining|
      {
        var k :| k in remaining;
        assert k !in done;
        listed := listed + [Summary(sessions[k])];
        done := done + {k};
        remaining := remaining - {k};
      }
    }
  }
}
