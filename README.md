# MindHaven core, modelled in Dafny

MindHaven is a mental-wellness web application: an Express/MongoDB backend (accounts, password
reset by mail, an AI therapy chat, mood and activity tracking, events sent to Inngest) and a
Next.js front end (route protection, a dashboard, a mood tracker, a mood form and a password-reset
page). This project models the self-contained logic inside that plumbing and proves what it
promises. Foreign services are parameters: the Gemini generation outcome, the Inngest send
outcome, bcrypt, SHA-256 and JWT as functions, fresh ids and random tokens as given values, and
`now`, the local start of a day, moves on the local calendar by days or hours, and the hour of a
timestamp as values or functions over integer milliseconds.

Modules, one per source file, plus three helpers:

- `Wrappers`, `Text`, `Seqs`: `Option`, the string operations the code relies on (`trim`,
  `includes`, `startsWith`, replacing the first occurrence, ASCII lower-casing, `join`), and
  sequence helpers (filter, sums, the rounded mean `Math.round(s / n)`, a stable sort by key).
- `UserModel`, `ChatModel` (`backend/src/models`): the schemas as datatypes, a schema check that
  accepts exactly the documents satisfying the required, enum and default rules, and lookups.
- `Middleware` (`backend/src/middleware/auth.ts`): bearer-token extraction and the request
  object the check updates (`req.user`, the call to `next`, the 401 answer).
- `Auth` (`backend/src/controllers/authController.ts`): register, login, logout, forgot-password
  and reset-password as functions over the users and sessions collections, with the class
  `AuthStore` whose handlers update those collections step by step and are proved equal to them.
- `Chat` (`backend/src/controllers/chat.ts`): a class `ChatStore` holding the sessions as a map,
  the one-turn `sendMessage` and its checks, session creation and the three read handlers.
- `Mood`, `Activity` (`backend/src/controllers`): the query windows, sort orders and the stores.
- `Events`, `Email` (`backend/src/utils`): payloads built by right-biased record merge, and the
  configuration check, SMTP settings and reset mail.
- `Routes` (`app/lib/config/protectedRoutes.ts`): the access decision over the route table.
- `Dashboard`, `MoodTracker`, `MoodForm`, `ResetPage` (the front-end pages and components): daily
  statistics, insights with their priority sort and cap, the 7- and 28-day calendars, weekly
  statistics, the emotion lookup, and the submit handlers of the two forms as classes over the
  component state.

Observations about the code as written, each stated as a lemma and none of them corrected in the
model (they may or may not be intended): forgot-password looks the
address up lower-cased while register stores it as typed (`Auth.ForgotMissesUpperCaseEmail`);
logout does not trim the token, unlike the middleware (`Auth.LogoutTokenOfBearer`); the dashboard
counts an activity stamped exactly at midnight on two days (`Dashboard.MidnightOnTwoDays`);
`/loginx` is public by the prefix rule yet missing from the public list (`Routes.LoginxUnlisted`);
with three valid days or fewer the mood tracker compares the recent sum with 0, so a short history
reads as an improvement (`MoodTracker.ShortHistoryTrend`).

`sendMessage` never reads the session's `status`, so an archived session still accepts turns
(backend/src/controllers/chat.ts:128-289); its checks are only the message, the API key, whether
the session exists and who owns it (backend/src/controllers/chat.ts:137-160).

## Model

| member | source | states |
|---|---|---|
| UserModel.ValidateUser | backend/src/models/User.ts:10-19 | a new user document is accepted exactly when name, email and password are present and non-empty; the accepted user keeps the given fields, the reset fields keep what was given (null otherwise) and both timestamps are the save time |
| UserModel.NewUserDefaults | backend/src/models/User.ts:15-18 | a user created from name, email and password alone gets null reset token and expiry and `createdAt == updatedAt == now` |
| UserModel.UserSchemaRoundTrip | backend/src/models/User.ts:10-19 | a user satisfying the typed invariant passes the schema unchanged apart from the timestamps, and every accepted user satisfies the invariant |
| UserModel.UserWithEmail | backend/src/models/User.ts:13 | `findOne({email})` returns the first user with that email, or none exactly when no user has it |
| UserModel.UserWithId | backend/src/models/User.ts:20 | `findById` returns the first user with that `_id`, or none exactly when no user has it |
| UserModel.UserWithEmailUnique | backend/src/models/User.ts:13 | under the unique email index, looking up a stored user's email finds that very user |
| UserModel.UserWithIdUnique | backend/src/models/User.ts:20 | with unique `_id`s, looking up a stored user's id finds that very user |
| ChatModel.ParseRole | backend/src/models/chat.ts:37 | the role enum accepts exactly `user` and `assistant`, and the accepted role prints back as the input |
| ChatModel.RoleRoundTrip | backend/src/models/chat.ts:37 | every role's name parses back to that role |
| ChatModel.ParseStatus | backend/src/models/chat.ts:54-58 | the status enum accepts exactly `active`, `completed` and `archived`, and the accepted status prints back as the input |
| ChatModel.StatusRoundTrip | backend/src/models/chat.ts:54-58 | every status's name parses back to that status |
| ChatModel.ValidateMessage | backend/src/models/chat.ts:36-48 | a message is accepted exactly when its role is in the enum, its content is non-empty and its timestamp is present; the fields and metadata are kept |
| ChatModel.ValidateMessages | backend/src/models/chat.ts:59 | a message array is accepted exactly when every message is, and the result lists each validated message in order |
| ChatModel.ValidateSession | backend/src/models/chat.ts:50-60 | a session is accepted exactly when sessionId, userId, startTime and status are present, the status is in the enum and every message is valid; ids and message count are kept |
| ChatModel.SessionSchemaRoundTrip | backend/src/models/chat.ts:27-60 | a session satisfying the typed invariant passes the schema unchanged |
| ChatModel.SchemaAcceptsOnlyValid | backend/src/models/chat.ts:50-60 | every session the schema accepts satisfies the typed invariant |
| Middleware.ExtractToken | backend/src/middleware/auth.ts:21 | a token exists exactly when the header does; it is the header with its first `Bearer ` removed, then trimmed |
| Middleware.FindClaimedUser | backend/src/middleware/auth.ts:33 | a user is found only for a present `userId` claim, and it carries that id; nothing is found exactly when the claim is missing or no user has it |
| Middleware.CheckToken | backend/src/middleware/auth.ts:27-39 | a request that passes does so as one of the stored users |
| Middleware.Authenticate | backend/src/middleware/auth.ts:21-42 | a request that passes does so as one of the stored users |
| Middleware.ExtractTokenOfBearer | backend/src/middleware/auth.ts:21 | the header `Bearer t` yields the token `t` trimmed |
| Middleware.MissingTokenDenied | backend/src/middleware/auth.ts:21-24 | no header, or one that is blank once `Bearer ` is removed, is refused with "Authentication required" |
| Middleware.AuthenticateOutcomes | backend/src/middleware/auth.ts:18-43 | the request passes exactly when the token is non-empty, verifies with a `userId` claim and that user exists, and then passes as that user; a failed verification gives "Invalid authentication token" and a missing user "User not found" |
| Middleware.Request.constructor | backend/src/middleware/auth.ts:12-16 | a fresh request has no user, no `next` call and no response |
| Middleware.Request.Auth | backend/src/middleware/auth.ts:18-43 | on a pass `req.user` is set and `next` is called once with no response; on a denial the response is 401 with the message and `next` is not called |
| Middleware.Request.Verify | backend/src/middleware/auth.ts:27-41 | the same, for the steps after a non-empty token was found |
| Events.Spread | backend/src/utils/inngestEvents.ts:38-47 | an object spread has the keys of both sides, the right side's value winning where both have a key |
| Events.Rest | backend/src/utils/inngestEvents.ts:35 | the `...rest` of a destructuring holds exactly the keys not named, with their values |
| Events.Or | backend/src/utils/inngestEvents.ts:65 | `a \|\| b` is `a` when `a` is truthy and `b` otherwise |
| Events.ActivityEventPayload | backend/src/utils/inngestEvents.ts:33-48 | the `activity/completed` payload has exactly the generated keys plus the undestructured input keys; `userId`, `duration`, `difficulty`, `feedback` come from the input, `activityId` is the input's `id` and `timestamp` the send time unless the input has keys of those names, which win; `id` is dropped |
| Events.TherapyEventFollowUp | backend/src/utils/inngestEvents.ts:56-65 | `requiresFollowUp` is the input's when truthy and `false` otherwise, so its truthiness is the input's |
| Events.TherapyEventRenames | backend/src/utils/inngestEvents.ts:58-70 | `sessionType` is the input's `type` and `sessionId` its `id`, unless the input has keys of those names, which win |
| Events.TherapyEventCopies | backend/src/utils/inngestEvents.ts:58-71 | `userId` is copied, every undestructured key is kept, an input timestamp wins, and the raw `id` and `type` are dropped |
| Events.MoodEventPayload | backend/src/utils/inngestEvents.ts:80-89 | the `mood/updated` payload is the input plus a `timestamp`, the input's own timestamp winning |
| Events.Send | backend/src/utils/inngestEvents.ts:49-53 | a send carries its event and is delivered exactly when the transport succeeded; a failure is rethrown to the caller |
| Email.Lookup | backend/src/utils/emailService.ts:6-11 | `process.env[name]` is present exactly when the variable is, with its value |
| Email.MissingFrom | backend/src/utils/emailService.ts:77 | every name reported is unset, and every unset name is reported |
| Email.MissingExactly | backend/src/utils/emailService.ts:75-77 | the reported names are exactly the unset required ones, in declared order |
| Email.ValidateConfigIff | backend/src/utils/emailService.ts:74-84 | the check passes exactly when every required variable is set (non-empty); a failure's message lists exactly the unset names joined by ", ", in declared order |
| Email.DigitValue | backend/src/utils/emailService.ts:7 | a digit's value is below the base |
| Email.DigitRun | backend/src/utils/emailService.ts:7 | the digit run `parseInt` reads is the longest prefix of digits |
| Email.ParseDigits | backend/src/utils/emailService.ts:7 | `parseInt` is `NaN` exactly when no digit comes first, and otherwise non-negative before the sign |
| Email.DigitsOfNatToString | backend/src/utils/emailService.ts:7 | the decimal digits of a number denote that number |
| Email.ParseIntOfDigits | backend/src/utils/emailService.ts:7 | a non-empty run of decimal digits parses to the number it denotes |
| Email.ParseIntOfNatToString | backend/src/utils/emailService.ts:7 | `parseInt(String(n)) == n` for every natural `n` |
| Email.DefaultPortText | backend/src/utils/emailService.ts:7 | the default text `587` parses to 587 |
| Email.SmtpPortDefault | backend/src/utils/emailService.ts:7 | without `EMAIL_PORT` the port is 587; a port written in decimal is read as written |
| Email.Transport | backend/src/utils/emailService.ts:4-20 | the transport takes host, user and password from the environment, the port from `SmtpPort`, and is never `secure` and never rejects unauthorised certificates |
| Email.ResetMail | backend/src/utils/emailService.ts:36-61 | the reset mail goes to the given address from `EMAIL_FROM`, with the fixed subject and the templated body |
| Email.ExpiryNoticeNames15Minutes | backend/src/utils/emailService.ts:53 | the notice under the button says the link expires in 15 minutes |
| Email.ResetHtmlContents | backend/src/utils/emailService.ts:44-60 | the body greets the user by name, carries the reset link at two separate places, and contains whatever the expiry notice says |
| Auth.Register | backend/src/controllers/authController.ts:9-43 | any answer other than 201 leaves both collections unchanged |
| Auth.RegisterOutcomes | backend/src/controllers/authController.ts:11-42 | missing name, email or password gives 400 and an email already stored gives 409, both storing nothing; an empty or taken fresh id makes the save fail with 500 and nothing stored; the answer is 201 exactly when the fields are present, no user has the email or the id and the id is not empty, and then it carries the new user's `_id`, name and email and exactly one user is appended, holding `hash(password)` and no reset token |
| Auth.RegisterPreservesValid | backend/src/controllers/authController.ts:18-24 | registering keeps every user valid, emails and ids unique and every session owned by a stored user |
| Auth.Login | backend/src/controllers/authController.ts:45-95 | any answer other than 200 leaves both collections unchanged |
| Auth.LoginOutcomes | backend/src/controllers/authController.ts:53-84 | an unknown email and a wrong password get the very same 401; login succeeds exactly when the stored hash matches, and then stores exactly one session for that user with the issued token, expiring at the local clock's time 24 hours on (`addHours(now, 24)`), and answers with the user and the token |
| Auth.LoginPreservesValid | backend/src/controllers/authController.ts:69-75 | logging in keeps the collection invariant |
| Auth.RegisterThenLogin | backend/src/controllers/authController.ts:18-84 | a user just registered can log in with the same email and password when `compare` accepts a password against its own hash |
| Auth.SessionWithToken | backend/src/controllers/authController.ts:101 | the session found is the first holding the token, or none exactly when no session holds it |
| Auth.DeleteOneSession | backend/src/controllers/authController.ts:101 | `deleteOne({token})` removes the first session holding the token and keeps the others in order |
| Auth.Logout | backend/src/controllers/authController.ts:97-113 | logout always answers 200 "Logged out successfully" and never touches the users |
| Auth.LogoutTokenOfBearer | backend/src/controllers/authController.ts:99 | `Bearer t` yields `t` exactly, surrounding whitespace kept (unlike the middleware, logout does not trim) |
| Auth.LoginThenLogout | backend/src/controllers/authController.ts:61-101 | logging out with the token a login issued removes one session carrying it and nothing else |
| Auth.LogoutPreservesValid | backend/src/controllers/authController.ts:97-103 | logging out keeps the collection invariant |
| Auth.ForgotPassword | backend/src/controllers/authController.ts:115-203 | without a mail nothing changes; sessions never change and the number of users stays the same, whichever save fails |
| Auth.ForgotOutcomes | backend/src/controllers/authController.ts:118-196 | a failed configuration check or a missing email is refused before any lookup; an unknown address gets the generic 200 and no mail; a known one always gets a mail with the reset URL, and the user gets `sha256(token)` with an expiry 15 minutes ahead; when the mail fails both reset fields are cleared again and the answer is 500 "Email could not be sent", but when that clearing save throws too the answer is the generic 500 and the token stays stored; only that one user changes |
| Auth.ForgotMissesUpperCaseEmail | backend/src/controllers/authController.ts:130 | the lookup lower-cases the address while register stores it as given, so a user whose stored email has an upper-case letter is never found |
| Auth.ForgotAnswersDiffer | backend/src/controllers/authController.ts:135-164 | the generic answer for an unknown address and the answer after a mail went out are both 200 but differ, so the response tells whether an account exists |
| Auth.ForgotPreservesValid | backend/src/controllers/authController.ts:147-184 | forgot-password keeps the collection invariant, the reset fields set and cleared together |
| Auth.UserWithResetToken | backend/src/controllers/authController.ts:219-222 | the user found is the first holding the digest with an expiry strictly after now, or none exactly when no user does |
| Auth.SessionsNotOf | backend/src/controllers/authController.ts:240 | `deleteMany({userId})` keeps exactly the sessions of everyone else |
| Auth.ResetPassword | backend/src/controllers/authController.ts:205-254 | a 400 leaves both collections unchanged, any answer other than 200 keeps every session, and the number of users never changes |
| Auth.ResetOutcomes | backend/src/controllers/authController.ts:207-247 | missing token or password gives 400 and changes nothing; the token is consumed exactly when some user holds its SHA-256 with an unexpired expiry; that user alone changes, getting the new hash and cleared reset fields; then the answer is 200 with none of its sessions left, or, when `deleteMany` throws, 500 with every session kept |
| Auth.ResetTokenSingleUse | backend/src/controllers/authController.ts:234-237 | once a reset got past the lookup, the same token no longer finds that user at any later time, even when deleting the sessions then failed |
| Auth.ResetPreservesValid | backend/src/controllers/authController.ts:234-240 | a reset keeps the collection invariant |
| Auth.ForgotThenReset | backend/src/controllers/authController.ts:143-222 | once the mail went out, the mailed raw token resets the password at any time before the 15 minutes are over |
| Auth.AuthStore.RegisterUser | backend/src/controllers/authController.ts:9-43 | the step-by-step handler answers and leaves the collections as `Register` says, keeping the invariant |
| Auth.AuthStore.LoginUser | backend/src/controllers/authController.ts:45-95 | the handler answers and leaves the collections as `Login` says, keeping the invariant |
| Auth.AuthStore.LogoutUser | backend/src/controllers/authController.ts:97-113 | the handler answers and leaves the collections as `Logout` says, keeping the invariant |
| Auth.AuthStore.ForgotUserPassword | backend/src/controllers/authController.ts:115-203 | the handler, starting with `validateEmailConfig`, answers and leaves the collections as `ForgotPassword` says |
| Auth.AuthStore.ForgotWithConfig | backend/src/controllers/authController.ts:120-196 | the steps after the configuration check, with the two saves of the user and the second one failing or not, match `ForgotPassword` |
| Auth.AuthStore.ResetUserPassword | backend/src/controllers/authController.ts:205-254 | the handler answers and leaves the collections as `ResetPassword` says, keeping the invariant |
| Chat.ReplyFor | backend/src/controllers/chat.ts:225-241 | the reply is never empty: the trimmed generation when it is non-empty, the fixed fallback text when generation failed or came back blank |
| Chat.UserMessage | backend/src/controllers/chat.ts:244-248 | the stored user message has role `user`, the text as sent, the time and no metadata |
| Chat.ReplyMessage | backend/src/controllers/chat.ts:250-261 | the stored assistant message has the reply, the time, the fixed analysis and the progress derived from it |
| Chat.TurnMessages | backend/src/controllers/chat.ts:244-261 | one turn appends exactly two messages: the user's, then the assistant's |
| Chat.Turn | backend/src/controllers/chat.ts:128-289 | any answer other than 200 leaves the store unchanged; a 200 means the addressed session got exactly the turn's two messages appended |
| Chat.TurnChecksInOrder | backend/src/controllers/chat.ts:137-160 | the checks run in a fixed order and the first failing one decides: empty or blank message 400, missing API key 500, unknown session 404, not the owner 403, each leaving the store unchanged |
| Chat.TurnSucceedsExactly | backend/src/controllers/chat.ts:137-278 | a turn succeeds exactly when every check passes and the save does; the answer carries the same text as `response` and `message`, with the fixed analysis |
| Chat.TurnEventCarriesHistory | backend/src/controllers/chat.ts:162-196 | the `therapy/session.message` event is built only after every check passed, from the message and the log before the turn |
| Chat.AppendTurnKeepsPaired | backend/src/controllers/chat.ts:244-261 | appending a turn keeps the log alternating user/assistant with metadata on every assistant message |
| Chat.ReplaceSessionKeepsValid | backend/src/controllers/chat.ts:264 | saving a valid session under its own ids keeps the store invariant |
| Chat.AppendTurnKeepsValid | backend/src/controllers/chat.ts:244-264 | a session with a turn appended stays schema-valid and paired |
| Chat.TurnPreservesValid | backend/src/controllers/chat.ts:128-289 | a turn keeps the store invariant |
| Chat.TurnIgnoresEventFailure | backend/src/controllers/chat.ts:191-196 | whether the Inngest send succeeded makes no difference to the turn |
| Chat.TurnFrame | backend/src/controllers/chat.ts:244-264 | a turn changes at most the addressed session, and of it only appends to the log |
| Chat.AppendTurnExtends | backend/src/controllers/chat.ts:244-261 | appending a turn extends the log and leaves every other field of the session as it was |
| Chat.ReplaceFrame | backend/src/controllers/chat.ts:264 | saving an extension of one session changes no other session |
| Chat.TurnAppendsUserThenAssistant | backend/src/controllers/chat.ts:244-264 | after a successful turn the log has grown by two: the user's text, then a non-empty assistant reply |
| Chat.FailedGenerationStillReplies | backend/src/controllers/chat.ts:234-278 | a failed generation still answers 200 with the fallback reply and risk level 0, and the turn is stored |
| Chat.Create | backend/src/controllers/chat.ts:85-125 | 401 without a caller, 404 for an unknown user, anything but 201 leaves the store unchanged; a 201 happens exactly when the caller is a known user and the fresh ids are free, and stores one new active session with no messages started now |
| Chat.CreatePreservesValid | backend/src/controllers/chat.ts:104-112 | creating a session keeps the store invariant |
| Chat.History | backend/src/controllers/chat.ts:336-356 | 404 for an unknown session, 403 for a non-owner, and 200 exactly for the owner, with the log unchanged |
| Chat.SessionHistoryById | backend/src/controllers/chat.ts:292-317 | the lookup goes by the document `_id`: 404 when no document has it, 200 exactly for the owner, with messages, start time and status |
| Chat.GetSession | backend/src/controllers/chat.ts:319-334 | the whole document is returned to any caller, with no ownership check, or 404 "Chat session not found" |
| Chat.Summary | backend/src/controllers/chat.ts:60-69 | the list entry has title `Session <sessionId>`, both dates the start time, and the session's ids, messages and status |
| Chat.CreateThenHistoryIsEmpty | backend/src/controllers/chat.ts:104-117 | a new session's history, read back by its owner, is empty |
| Chat.CreateTurnThenForbidden | backend/src/controllers/chat.ts:137-160 | after creating a session and one owner turn the owner reads back exactly the pair, and a turn by anyone else is refused with 403 and changes nothing |
| Chat.OwnerTurnOnEmptySession | backend/src/controllers/chat.ts:244-264 | the owner's turn on an empty log leaves exactly the pair on it |
| Chat.ChatStore.CreateChatSession | backend/src/controllers/chat.ts:85-125 | the handler answers and updates the store as `Create` says, keeping the invariant |
| Chat.ChatStore.SendMessage | backend/src/controllers/chat.ts:128-289 | the handler answers and updates the store as `Turn` says, keeping the invariant |
| Chat.ChatStore.AppendAndSave | backend/src/controllers/chat.ts:244-264 | the two pushes and the save replace exactly the addressed session by it with the turn appended |
| Chat.ChatStore.GetChatHistory | backend/src/controllers/chat.ts:336-356 | 200 exactly for the owner of a stored session, with its log |
| Chat.ChatStore.GetSessionHistory | backend/src/controllers/chat.ts:292-317 | 200 only for the owner of the document with that `_id` |
| Chat.ChatStore.GetChatSession | backend/src/controllers/chat.ts:319-334 | 200 exactly when a session with that id is stored |
| Chat.ChatStore.GetAllChatSessions | backend/src/controllers/chat.ts:14-83 | 401 without a caller; otherwise 200 with the summaries of exactly the caller's sessions, each once, newest start time first |
| Chat.ChatStore.FindOwned | backend/src/controllers/chat.ts:52-69 | the query lists one summary per session the caller owns and nothing else |
| Mood.SelectExactly | backend/src/controllers/moodController.ts:56-88 | the query selects exactly the caller's entries whose timestamp lies in the window, both ends included |
| Mood.DateTakesPriority | backend/src/controllers/moodController.ts:59-68 | a given `date` decides the window whatever the range says: the whole local day holding it, from its first to its last millisecond, and the next day's start is outside |
| Mood.DataRangeNeedsBoth | backend/src/controllers/moodController.ts:69-86 | without a date the range is used only when both bounds are given; with one bound missing the window is today; an invalid bound makes the query fail |
| Mood.HistoryDefaultsToThirtyDays | backend/src/controllers/moodController.ts:117-136 | without both bounds the history runs from `days` calendar days before now (`subDays(now, days)`) up to now, thirty days when `days` is not given |
| Mood.NewEntry | backend/src/controllers/moodController.ts:19-26 | the stored entry is the caller's, stamped now, with score, note, context and activities as given (no range check of the score) |
| Mood.MoodStore.CreatedMood | backend/src/controllers/moodController.ts:6-38 | 401 and nothing stored without a caller; a failed save stores nothing and goes to `next`; otherwise exactly the new entry is appended and answered with 201 |
| Mood.MoodStore.GetMoodData | backend/src/controllers/moodController.ts:41-101 | 401 without a caller; otherwise the caller's entries in `DataWindow`, newest first, with their count, or `next` for an invalid date |
| Mood.MoodStore.DataQuery | backend/src/controllers/moodController.ts:54-86 | the branches assign the window `DataWindow` describes |
| Mood.MoodStore.Find | backend/src/controllers/moodController.ts:88-96 | the answer lists exactly the selected entries (as a multiset), sorted by timestamp in the requested direction, with `count` their number |
| Mood.MoodStore.GetMoodHistory | backend/src/controllers/moodController.ts:104-151 | 401 without a caller; otherwise the caller's entries in `HistoryWindow`, oldest first, with their count |
| Mood.MoodStore.HistoryQuery | backend/src/controllers/moodController.ts:117-136 | the branches assign the window `HistoryWindow` describes |
| Mood.CreatedEntryListedToday | backend/src/controllers/moodController.ts:77-86 | an entry the caller creates now is among those `getMoodData` lists for today |
| Activity.LoggedEventCarriesRecord | backend/src/controllers/activityControllers.ts:89-99 | the event sent for a stored activity is `activity/completed`, names the record by id and owner, carries the body's fields and the record's own timestamp (which overrides the send time), and has no `id` or `description` |
| Activity.ActivityStore.GetActivities | backend/src/controllers/activityControllers.ts:6-17 | 401 without a caller; otherwise exactly the caller's activities, newest first |
| Activity.ActivityStore.GetTodayActivities | backend/src/controllers/activityControllers.ts:25-50 | 401 without a caller; otherwise exactly the caller's activities from the start of today up to, not including, the start of tomorrow, newest first |
| Activity.ActivityStore.LogActivity | backend/src/controllers/activityControllers.ts:59-108 | 401 and nothing stored without a caller; a failed insert stores nothing and goes to `next`; otherwise the record is appended and its event sent, a failed send going to `next` with the record kept, else 201 with the record |
| Activity.LoggedIsToday | backend/src/controllers/activityControllers.ts:36-47 | an activity logged while the clock is inside today is among today's activities |
| Activity.TomorrowStartExcluded | backend/src/controllers/activityControllers.ts:43-46 | an activity stamped at the start of tomorrow is not among today's |
| Routes.ExactDecides | app/lib/config/protectedRoutes.ts:26-31 | the first entry whose path equals the pathname decides whether it is protected |
| Routes.PartialDecides | app/lib/config/protectedRoutes.ts:33-38 | with no exact entry, the first entry other than `/` whose path is a prefix of the pathname decides |
| Routes.UnmatchedIsProtected | app/lib/config/protectedRoutes.ts:38 | a pathname no entry matches, exactly or by prefix, is protected |
| Routes.RedirectAlwaysLogin | app/lib/config/protectedRoutes.ts:41-47 | when every entry redirects to `/login` or not at all, every pathname redirects to `/login` |
| Routes.GetRedirectPathIsLogin | app/lib/config/protectedRoutes.ts:41-47 | with the source's table every pathname redirects to `/login` |
| Routes.AccessCases | app/lib/config/protectedRoutes.ts:76-98 | a protected pathname without authentication is refused with its redirect; an authenticated visit to `/login` or `/signup` is sent to `/dashboard`; access is allowed exactly otherwise, and `redirectTo` is null exactly when allowed |
| Routes.RefusedVisitorGoesToLogin | app/lib/config/protectedRoutes.ts:76-84 | an unauthenticated visitor refused anywhere is sent to `/login` |
| Routes.TableShape | app/lib/config/protectedRoutes.ts:10-23 | the table's nine entries: seven public ones, then `/dashboard` and `/therapy` protected |
| Routes.TherapyPrefixProtected | app/lib/config/protectedRoutes.ts:33-38 | every pathname starting with `/therapy`, such as `/therapy/<sessionId>`, is protected |
| Routes.DashboardPrefixProtected | app/lib/config/protectedRoutes.ts:33-38 | every pathname starting with `/dashboard` is protected |
| Routes.LoginPrefixPublic | app/lib/config/protectedRoutes.ts:33-38 | every longer pathname starting with `/login`, such as `/loginx`, is public by the raw prefix rule |
| Routes.LoginxUnlisted | app/lib/config/protectedRoutes.ts:50-69 | `/loginx` is not in the public list although the table treats it as public |
| Routes.SevenCharLoginUnlisted | app/lib/config/protectedRoutes.ts:50-58 | no public route has seven characters with `l` second |
| Routes.PublicListInTable | app/lib/config/protectedRoutes.ts:50-58 | the public list holds the paths of the table's first seven entries, in order |
| Routes.UnknownPathProtected | app/lib/config/protectedRoutes.ts:38 | a pathname other than `/` that has no path of the table other than `/` as a prefix is protected |
| Routes.SettingsProtected | app/lib/config/protectedRoutes.ts:38 | `/settings`, found in no list, gets the protected default |
| Routes.ProtectedRouteIsProtected | app/lib/config/protectedRoutes.ts:60-73 | every pathname `isProtectedRoute` accepts is protected in the table |
| Routes.PublicRouteIsUnprotected | app/lib/config/protectedRoutes.ts:50-69 | every listed public route is unprotected in the table |
| Dashboard.Nullish | app/dashboard/page.tsx:140 | `?? null` gives `null` exactly when the field is absent or `null`, and the field's value when it is given |
| Dashboard.Convert | app/dashboard/page.tsx:137-151 | the converted activity keeps id, type, name and completed, has each optional field exactly when the payload gives it, and parses the three timestamps |
| Dashboard.ConvertNullish | app/dashboard/page.tsx:140-148 | an absent optional field converts as a `null` one would, and given fields keep their value |
| Dashboard.Scores | app/dashboard/page.tsx:169-170 | one score per activity, the mood score or 0 when it is `null` |
| Dashboard.DailyStatsFacts | app/dashboard/page.tsx:154-186 | the day's mood is `null` exactly when no scored mood activity falls in today's interval, otherwise the mean rounded to the nearest integer, so between the lowest and highest score; therapy sessions counted over all days and reported as both sessions and mindfulness count; completion rate 100; total is today's count |
| Dashboard.TomorrowStartCountsToday | app/dashboard/page.tsx:156-161 | the interval includes its end, so an activity stamped at the start of tomorrow counts as today's |
| Dashboard.Take3 | app/dashboard/page.tsx:334 | `.slice(0, 3)` is a prefix of at most three, and the whole list when it is shorter |
| Dashboard.ByPrioritySorted | app/dashboard/page.tsx:329-333 | the sorted insights are in `priorityOrder`: high, then medium, then low |
| Dashboard.ByPriorityPermutes | app/dashboard/page.tsx:329-333 | the sort is a permutation of the pushed insights |
| Dashboard.ByPriorityStable | app/dashboard/page.tsx:329-333 | insights of equal priority keep the order the rules pushed them in |
| Dashboard.PushMood | app/dashboard/page.tsx:226-253 | the insights pushed are those of the mood rule on the week's scored mood entries |
| Dashboard.PushMindfulness | app/dashboard/page.tsx:255-275 | the insights pushed are those of the mindfulness rule on the week's count of games, meditations and breathing sessions |
| Dashboard.PushCompletion | app/dashboard/page.tsx:278-301 | the insights pushed are those of the completion rule on the week's completed and total counts |
| Dashboard.PushTimeOfDay | app/dashboard/page.tsx:303-326 | the insights pushed are those of the morning and evening rule |
| Dashboard.ComputeInsights | app/dashboard/page.tsx:190-335 | the pushes of all four rules on the last week's activities, sorted by priority and cut to three, are the specification's insights |
| Dashboard.NoActivityDefaults | app/dashboard/page.tsx:196-217 | with no activities the result is exactly Welcome Back (high), Daily Check-in (medium), Mindfulness Practice (low) |
| Dashboard.InsightsCapped | app/dashboard/page.tsx:329-334 | with activities there are at most three insights, ordered by priority, each one pushed by a rule |
| Dashboard.AtMostTwoHigh | app/dashboard/page.tsx:238-292 | only the mood rule and the completion rule push high insights, one each at most |
| Dashboard.TopKeepsHigh | app/dashboard/page.tsx:329-334 | sorting then cutting to three keeps every high insight of a list that has at most two |
| Dashboard.HighInsightsKept | app/dashboard/page.tsx:190-335 | no high insight a rule pushed is ever cut from what the page shows |
| Dashboard.RuleThresholds | app/dashboard/page.tsx:255-301 | 7 or more mindful activities in the week give Consistent Practice, 1 to 6 Mindfulness Opportunity, 0 nothing; a completion rate of at least 80% gives High Achievement with its rounded percentage between 80 and 100, 50% up to 80% nothing, below 50% or an empty week Activity Reminder |
| Dashboard.MoodRuleCases | app/dashboard/page.tsx:230-253 | fewer than two scored entries push nothing; otherwise Mood Improvement exactly when the latest score is above the mean, Mood Change Detected exactly when it is more than 20 below the mean |
| Dashboard.LevelMonotone | app/dashboard/page.tsx:381-386 | more activities never give a lower level; 0 is none, 1-2 low, 3-4 medium, 5 and more high |
| Dashboard.Items | app/dashboard/page.tsx:391-397 | one calendar item per activity of the day, in order |
| Dashboard.TransformActivitiesToDayActivity | app/dashboard/page.tsx:365-400 | 28 days, oldest first, day k being the day 27-k days before now with its activities and level; the last day is today |
| Dashboard.MidnightOnTwoDays | app/dashboard/page.tsx:372-379 | an activity stamped exactly at midnight is shown on both the day that ends and the day that begins there |
| MoodTracker.MoodEmoji | app/components/mood/moodTracker.tsx:60-64 | a smile exactly from 80, a neutral face exactly from 60 to below 80, a frown exactly below 60, each in its own colour |
| MoodTracker.EmojiMonotone | app/components/mood/moodTracker.tsx:60-64 | a higher score never shows a sadder face |
| MoodTracker.LastWeek | app/components/mood/moodTracker.tsx:88-120 | seven day summaries, oldest first, entry k being the day 6-k days before now |
| MoodTracker.ProcessMoodData | app/components/mood/moodTracker.tsx:88-120 | the loop from 6 down to 0 builds exactly the seven summaries, the last being today's |
| MoodTracker.DayFacts | app/components/mood/moodTracker.tsx:94-115 | a day holds exactly the entries whose time lies in its window, both ends included; its value is their rounded mean, within the scores' bounds, and 0 without entries; its energy is the value plus 10 capped at 100, and 0 without entries |
| MoodTracker.LastThree | app/components/mood/moodTracker.tsx:136 | `slice(-3)` is the last three values, or all of them when there are fewer |
| MoodTracker.BeforeLastThree | app/components/mood/moodTracker.tsx:137 | `slice(0, -3)` is what comes before the last three, nothing when there are three or fewer |
| MoodTracker.PushTrend | app/components/mood/moodTracker.tsx:135-157 | pushes exactly the one trend insight of the values |
| MoodTracker.PushConsistency | app/components/mood/moodTracker.tsx:159-178 | pushes exactly the one consistency insight of the values |
| MoodTracker.GenerateInsights | app/components/mood/moodTracker.tsx:123-181 | the insights are those of the specification function on the seven days |
| MoodTracker.InsightShape | app/components/mood/moodTracker.tsx:125-178 | fewer than two days with a value give exactly Getting Started; otherwise exactly two insights, a trend one and then a consistency one |
| MoodTracker.TrendCrossMultiplied | app/components/mood/moodTracker.tsx:136-150 | with d the earlier count (at least 1), the trend is up exactly when d times the recent sum exceeds three times the earlier sum by more than 15d, down exactly when it falls short by more than 15d |
| MoodTracker.ShortHistoryTrend | app/components/mood/moodTracker.tsx:136-139 | with three valid days or fewer the earlier mood is 0, so the trend is up exactly when the sum of the values exceeds 15 |
| MoodTracker.ConstantValuesStable | app/components/mood/moodTracker.tsx:136-157 | more than three days of the same value give a stable trend |
| MoodTracker.ConsistencyCrossMultiplied | app/components/mood/moodTracker.tsx:160-166 | the variance is below 100 exactly when n times the squared deviations of n times each value from the sum is below 100 n^3 |
| MoodTracker.EqualValuesConsistent | app/components/mood/moodTracker.tsx:160-171 | days of equal value are consistent tracking |
| MoodTracker.WeekFilterIsSlice | app/components/mood/moodTracker.tsx:215-217 | filtering by `Math.floor(index / 7) === week - 1` keeps exactly positions 7(week-1) to 7week-1, as far as the history goes |
| MoodTracker.StatOf | app/components/mood/moodTracker.tsx:220-227 | a week's statistic carries its number and its entry count |
| MoodTracker.WeeklyStats | app/components/mood/moodTracker.tsx:213-229 | the loop over weeks 1 to 4 lists exactly the statistics of the weeks that have entries |
| MoodTracker.StatsWeeks | app/components/mood/moodTracker.tsx:213-229 | at most four statistics, weeks in increasing order between 1 and 4, each with 1 to 7 entries |
| MoodTracker.StatsBounds | app/components/mood/moodTracker.tsx:223-225 | every week's average lies between its low and its peak |
| MoodTracker.WeekListed | app/components/mood/moodTracker.tsx:214-219 | week k is listed exactly when the history has more than 7(k-1) entries |
| MoodTracker.LaterEntriesIgnored | app/components/mood/moodTracker.tsx:213-229 | entries after the 28th position never reach the statistics |
| MoodTracker.Tracker.constructor | app/components/mood/moodTracker.tsx:80-84 | loading, no error, no days, statistics or insights |
| MoodTracker.Tracker.FetchMoodData | app/components/mood/moodTracker.tsx:184-248 | nothing without authentication; otherwise loading ends false, a thrown request sets the load error and keeps the data, a successful answer with data sets the seven days, their insights and the weekly statistics, any other answer clears the days and shows No Data Yet |
| MoodForm.FindNear | app/components/mood/moodForm.tsx:31-32 | the index found is the first emotion within 15 of the score; none is found exactly when no emotion is that near |
| MoodForm.CurrentEmotion | app/components/mood/moodForm.tsx:31-32 | the shown emotion is one of the five and near the score, or Neutral when none is near |
| MoodForm.CurrentEmotionBands | app/components/mood/moodForm.tsx:23-32 | the description shown is Very Low up to 14, Low from 15 to 39, Neutral from 40 to 64, Good from 65 to 89, Great from 90 to 114, and Neutral outside -14 to 114 |
| MoodForm.SliderAlwaysNear | app/components/mood/moodForm.tsx:31-32 | every slider score from 0 to 100 is near some emotion, so the fallback is never needed there |
| MoodForm.OverlapPicksLower | app/components/mood/moodForm.tsx:31-32 | where two neighbouring emotions are both near the score, the lower one is shown |
| MoodForm.ClickedEmotionShown | app/components/mood/moodForm.tsx:161 | clicking an emoji shows that emoji's own emotion |
| MoodForm.ServerMessage | app/components/mood/moodForm.tsx:104 | the error field when it is a non-empty string, else the message field, else "Failed to track mood" |
| MoodForm.ErrorText | app/components/mood/moodForm.tsx:121-128 | a message mentioning "HTML instead of JSON" is replaced by the configuration hint; any other message is shown as it is |
| MoodForm.SucceedsIff | app/components/mood/moodForm.tsx:64-105 | the submission succeeds exactly when fetch answers, the body is not an HTML page, it parses as JSON, and the status is ok |
| MoodForm.HtmlPageShowsConfigError | app/components/mood/moodForm.tsx:82-124 | an HTML page fails the submission with its status in the message, whatever the status, and the toast shows the configuration hint |
| MoodForm.ServerPhraseReplaced | app/components/mood/moodForm.tsx:102-124 | a server error text that mentions the phrase is also replaced by the configuration hint |
| MoodForm.Form.constructor | app/components/mood/moodForm.tsx:17-18 | the score starts at 50, not loading, nothing shown, sent, navigated or reported |
| MoodForm.Form.Click | app/components/mood/moodForm.tsx:161 | the score becomes the emoji's value and that emotion is shown; nothing else changes |
| MoodForm.Form.Slide | app/components/mood/moodForm.tsx:168-175 | the score becomes the slider's value, which some emotion is near; nothing else changes |
| MoodForm.Form.HandleSubmit | app/components/mood/moodForm.tsx:36-138 | without a session one destructive toast and a redirect to /login and nothing sent; with one the POST carries the score and the Bearer header, loading ends false, success shows the tracked toast and reports the score with an empty note, failure shows a destructive Error toast with the caught text |
| ResetPage.Validate | app/reset-password/page.tsx:37-50 | no complaint exactly when the token is present, the passwords match and the password is at least six UTF-16 code units long |
| ResetPage.MismatchReportedFirst | app/reset-password/page.tsx:37-50 | a mismatch is reported even when the password is also too short |
| ResetPage.LengthBoundary | app/reset-password/page.tsx:47-50 | five UTF-16 code units or fewer are rejected as too short, six pass |
| ResetPage.ThreeAstralCharsAccepted | app/reset-password/page.tsx:47 | three emoji outside the Basic Multilingual Plane count as six code units and pass the length check |
| ResetPage.CaughtText | app/reset-password/page.tsx:89-97 | a TypeError about fetch reads as the cannot-connect text, a SyntaxError about JSON as the invalid-response text, anything else as the network error text |
| ResetPage.Page.constructor | app/reset-password/page.tsx:14-31 | empty fields, not loading, no success, and the missing-token error exactly when the link has no token |
| ResetPage.Page.SetPassword | app/reset-password/page.tsx:180 | only the password changes |
| ResetPage.Page.SetConfirmPassword | app/reset-password/page.tsx:201 | only the confirmation changes |
| ResetPage.Page.HandleSubmit | app/reset-password/page.tsx:33-101 | a failed check sets its message and sends nothing; otherwise one POST with the token and the new password, loading ends false, a non-JSON answer or a thrown error sets its error text, an ok answer sets success and clears both fields, any other answer shows the body's message or the default text |
| ResetPage.NonJsonNeverSucceeds | app/reset-password/page.tsx:71-77 | an answer whose content type is missing or not JSON never succeeds, whatever its status |
| ResetPage.MissingHeaderShownAsNull | app/reset-password/page.tsx:71-75 | an answer without a content type is rejected and its type is shown as null |
| ResetPage.SuccessNeedsValidPassword | app/reset-password/page.tsx:37-84 | a success was always preceded by a present token and a password of at least six UTF-16 code units typed the same twice |
| ResetPage.CharsetAccepted | app/reset-password/page.tsx:72 | a content type with a charset parameter after application/json is accepted |
| Text.Trim | backend/src/middleware/auth.ts:21 | `trim()` leaves no whitespace at either end and only shortens the text |
| Text.TrimIsSlice | backend/src/controllers/chat.ts:227 | the trimmed text is `s[i..j]` with only whitespace before `i` and after `j`; with `Trim`'s ends this makes it the largest such piece |
| Text.TrimEmptyIff | backend/src/controllers/chat.ts:137 | a text trims to empty exactly when it is all whitespace |
| Text.ToLowerIdempotent | backend/src/controllers/authController.ts:130 | lower-casing twice is lower-casing once |
| Text.Utf16Length | app/reset-password/page.tsx:47 | JavaScript's `length` counts code units: at least the number of characters and at most twice it |
| Text.Utf16LengthBmp | app/reset-password/page.tsx:47 | the code units equal the characters exactly when every character is in the Basic Multilingual Plane |
| Text.Utf16Prefix | app/components/mood/moodForm.tsx:99 | `substring(0, n)` keeps a prefix of at most `n` code units, and the next character would not fit |
| Seqs.RoundDiv | app/dashboard/page.tsx:169-170 | `Math.round(sum / n)` is the integer within half of the mean, halves rounded up |
| Seqs.RoundDivBetween | app/components/mood/moodTracker.tsx:106 | a rounded mean lies between the lowest and the highest value |
| Seqs.SortDesc | backend/src/controllers/moodController.ts:88 | `sort({key: -1})` gives a permutation ordered by descending key |
| Seqs.SortAsc | backend/src/controllers/moodController.ts:138 | `sort({key: 1})` gives a permutation ordered by ascending key |
| Seqs.FindFirst | backend/src/controllers/authController.ts:130 | `findOne` finds the first matching document, or none exactly when no document matches |

## Left out

- Network, database and mail I/O: MongoDB, Inngest, nodemailer and `fetch` are replaced by given outcomes. The modelled database failures are the save of a chat turn and the inserts of a mood entry and an activity (the `saved` flags, which change nothing), and the two after which a partial change stays: the second save of forgot-password (`clearSaved`) and `Session.deleteMany` after the password was saved in reset-password (`deleteOk`). Every other database failure (a failing lookup, the first save of forgot-password or reset-password, the session insert of login, the read handlers) answers 500 or calls `next` with the collections unchanged and is not modelled. `jwt.sign` is modelled as a given token that always exists; in the source it throws when `JWT_SECRET` is unset, and login then answers 500 "Server error" with no session stored (backend/src/controllers/authController.ts:61-65, 86-92).
- Concurrency: two requests saving the same session at once (last write wins) is not modelled.
- Console logging and the development-only error details in responses are left out.
- Calendar and time zone: the local start and end of a day, `subDays`/`addDays`, the login expiry's `setHours(getHours() + 24)` (`addHours`), the history start's `setDate(getDate() - days)` (`subDays`) and `getHours` are parameters; daylight-saving shifts are whatever those parameters say. The day windows of `getMoodData` add a fixed 86,400,000 ms, as the code does.
- The ISO conversion of dates (`toISOString`, `new Date(string)`) is a parameter; an invalid date string is modelled only as a conversion that fails.
- Request bodies are modelled as optional strings: a body field of another JSON type (a number where the code calls `trim` or `toLowerCase`) makes that call throw, answered 500 by the handler's `catch`, and is not modelled.
- Text.Utf16Prefix: when `substring(0, 100)` would cut a surrogate pair, JavaScript keeps a lone high surrogate, which is not a Dafny character; the model stops before that pair, one code unit short.
- `Text.ToLower` lower-cases ASCII letters only; JavaScript's full Unicode case mapping is not modelled.
- `Number(days)` in the mood history reads only a decimal natural number; other numeric spellings are not modelled.
- MongoDB's order among entries with equal sort keys is not fixed by the source; the model keeps insertion order among ties.
- `findById` with a malformed id (a Mongo `CastError`) is modelled as the document not being found, while the source throws and answers from its catch: in the middleware a malformed `userId` claim gets 401 "Invalid authentication token" (backend/src/middleware/auth.ts:40-41), where `Middleware.AuthenticateOutcomes` gives 401 "User not found"; in `getSessionHistory` a malformed session id gets 500 "Error fetching session history" (backend/src/controllers/chat.ts:314-317), where `Chat.SessionHistoryById` gives 404. `createChatSession` looks up the authenticated user's own id, which is well formed.
- The prompt text sent to Gemini is not modelled word for word; the turn only records that a generation was asked for with the message and the log.
- The `Session`, `Mood` and `Activity` model files are not part of this model; their documents are modelled with the fields the controllers use.
- `testEmailConfig` (a transport `verify` call) is foreign and left out.
- The dashboard's clock-time text (`format(..., "h:mm a")`) stays an instant, and the mood tracker's weekday label (`format(date, 'EEE')`) is left out.
- The mood tracker's mock sleep estimate is floating point and is left out; its means and variance are exact rationals, compared through cross-multiplied integers.
- Dashboard.RuleThresholds: the completion rate is compared exactly as a rational number, not with floating-point rounding.
- The mood history request's own parameters (`startDate`/`endDate` sent by the tracker) are not modelled; the answer is a parameter.
- A thrown value that is not an `Error` in the two forms' `catch` blocks is not modelled; every throw carries a message.
- MoodForm and ResetPage: a JSON body that is `null`, or whose `error`/`message` field is not a string, is not modelled.
- The reset page's early render for a missing token while not loading, and the disabled state of the buttons, are rendering and left out.
- JSX rendering, animations, dialogs and the five-minute refresh interval of the pages are left out.
