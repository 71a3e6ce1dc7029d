/**
 * backend/src/controllers/authController.ts: register, login, logout, forgot-password and
 * reset-password over a user collection and a login-session collection.
 *
 * bcrypt (`hash`, `compare`) and SHA-256 are oracles passed in as functions; the issued JWT, the
 * raw reset token, the fresh `_id`, the `user-agent` header, the clock and whether nodemailer
 * delivered the mail are inputs. Each handler is stated once as a function from the old collections
 * to the response and the new collections, and the `AuthStore` class performs the same steps on
 * its fields.
 */
module Auth {
  import opened Wrappers
  import opened Text
  import opened Seqs
  import opened UserModel
  import Email

  /** `15 * 60 * 1000`. */
  const ResetLifetime: int := 15 * 60 * 1000

  /** A stored login session (the `Session` model). */
  datatype LoginSession = LoginSession(userId: string, token: string, expiresAt: int, deviceInfo: Option<string>)

  datatype AuthDb = AuthDb(users: seq<User>, sessions: seq<LoginSession>)

  /** bcrypt output: never empty, so a stored hash always satisfies `required`. */
  type Digest = s: string | s != [] witness "$"

  /** The `message` of each response. */
  datatype Notice =
    | FieldsRequired | EmailInUse | Registered
    | CredentialsRequired | InvalidCredentials | LoginSuccessful
    | LoggedOut | ServerError
    | EmailRequired | ResetLinkIfExists | ResetEmailSent | EmailNotSent
    | ResetFieldsRequired | InvalidResetToken | PasswordWasReset

  function NoticeText(n: Notice): string {
    match n
    case FieldsRequired => "Name,email,and password are required."
    case EmailInUse => "Email already in use"
    case Registered => "User registered successfully"
    case CredentialsRequired => "Email and password are required"
    case InvalidCredentials => "Invalid email or password"
    case LoginSuccessful => "Login successful"
    case LoggedOut => "Logged out successfully"
    case ServerError => "Server error"
    case EmailRequired => "Email is required"
    case ResetLinkIfExists => "If an account exists, a reset link has been sent."
    case ResetEmailSent => "Password reset email sent successfully"
    case EmailNotSent => "Email could not be sent"
    case ResetFieldsRequired => "Token and new password are required"
    case InvalidResetToken => "Invalid or expired reset token"
    case PasswordWasReset => "Password reset successfully"
  }

  /** The `{ _id, name, email }` object the responses show. */
  datatype UserView = UserView(id: string, name: string, email: string)

  function View(u: User): UserView {
    UserView(u.id, u.name, u.email)
  }

  datatype Body =
    | Note(message: Notice)
    | WithUser(user: UserView, message: Notice)
    | WithToken(user: UserView, token: string, message: Notice)

  datatype Response = Response(status: int, body: Body)

  datatype Outcome = Outcome(response: Response, db: AuthDb)

  /** The arguments of the `sendResetEmail` call, when one is made. */
  datatype MailRequest = MailRequest(to: string, resetUrl: string, userName: string)

  datatype ForgotOutcome = ForgotOutcome(response: Response, db: AuthDb, mail: Option<MailRequest>)

  /** The reset fields are set and cleared together. */
  predicate ResetPaired(u: User) {
    u.resetToken.Some? <==> u.resetExpires.Some?
  }

  /** What the handlers keep true of the two collections: every user valid with paired reset
      fields, emails and ids unique, and every session belonging to a stored user. */
  ghost predicate ValidDb(db: AuthDb) {
    && (forall i :: 0 <= i < |db.users| ==> ValidUser(db.users[i]) && ResetPaired(db.users[i]))
    && UniqueEmails(db.users)
    && UniqueIds(db.users)
    && (forall k :: 0 <= k < |db.sessions| ==> UserWithId(db.users, db.sessions[k].userId).Some?)
  }

  // ---------------------------------------------------------------------------------------------
  // register

  /** `register`: required fields, then the email conflict, then the new user with the hashed
      password; an `_id` that is empty or taken makes the save throw. */
  function Register(db: AuthDb, name: Option<string>, email: Option<string>, password: Option<string>,
                    hash: string -> Digest, freshId: string, now: int): (r: Outcome)
    ensures r.response.status != 201 ==> r.db == db
  {
    if !Present(name) || !Present(email) || !Present(password) then
      Outcome(Response(400, Note(FieldsRequired)), db)
    else if UserWithEmail(db.users, email.value).Some? then
      Outcome(Response(409, Note(EmailInUse)), db)
    else if freshId == "" || UserWithId(db.users, freshId).Some? then
      Outcome(Response(500, Note(ServerError)), db)
    else
      var u := User(freshId, name.value, email.value, hash(password.value), None, None, now, now);
      Outcome(Response(201, WithUser(View(u), Registered)), db.(users := db.users + [u]))
  }

  /** Missing fields give 400 and an email already stored gives 409, both with nothing stored; a
      fresh id that is empty or taken makes the save fail with 500; otherwise the answer is 201 and
      exactly one user is appended, holding `hash(password)` and no reset token. */
  lemma RegisterOutcomes(db: AuthDb, name: Option<string>, email: Option<string>, password: Option<string>,
                         hash: string -> Digest, freshId: string, now: int)
    ensures var r := Register(db, name, email, password, hash, freshId, now);
      && (!Present(name) || !Present(email) || !Present(password) ==>
            r.response == Response(400, Note(FieldsRequired)) && r.db == db)
      && (Present(name) && Present(email) && Present(password)
          && (exists j :: 0 <= j < |db.users| && db.users[j].email == email.value) ==>
            r.response == Response(409, Note(EmailInUse)) && r.db == db)
      && (Present(name) && Present(email) && Present(password) && UserWithEmail(db.users, email.value).None?
          && (freshId == "" || exists j :: 0 <= j < |db.users| && db.users[j].id == freshId) ==>
            r.response == Response(500, Note(ServerError)) && r.db == db)
      && (r.response.status == 201 <==>
            && Present(name) && Present(email) && Present(password)
            && (forall j :: 0 <= j < |db.users| ==> db.users[j].email != email.value && db.users[j].id != freshId)
            && freshId != "")
      && (r.response.status == 201 ==>
            var u := User(freshId, name.value, email.value, hash(password.value), None, None, now, now);
            && r.db == db.(users := db.users + [u])
            && ValidateUser(NewUserDoc(name.value, email.value, hash(password.value)), freshId, now) == Some(u)
            && r.response.body == WithUser(UserView(freshId, name.value, email.value), Registered))
  {
  }

  lemma RegisterPreservesValid(db: AuthDb, name: Option<string>, email: Option<string>, password: Option<string>,
                               hash: string -> Digest, freshId: string, now: int)
    requires ValidDb(db)
    ensures ValidDb(Register(db, name, email, password, hash, freshId, now).db)
  {
    var r := Register(db, name, email, password, hash, freshId, now);
    if r.response.status == 201 {
      var users' := r.db.users;
      assert users'[..|db.users|] == db.users;
      forall k | 0 <= k < |db.sessions|
        ensures UserWithId(users', db.sessions[k].userId).Some?
      {
        var i := UserWithId(db.users, db.sessions[k].userId).value;
        assert users'[i].id == db.sessions[k].userId;
      }
    }
  }

  // ---------------------------------------------------------------------------------------------
  // login

  /** `login`: required fields, lookup by the exact email, the password check, then a session
      keyed by the issued token that expires 24 hours from now. `addHours(t, h)` is the local
      wall clock's `setHours(getHours() + h)` on the instant `t`, so a daylight-saving change in
      between is whatever the calendar says. */
  function Login(db: AuthDb, email: Option<string>, password: Option<string>,
                 compare: (string, string) -> bool, token: string, now: int, addHours: (int, int) -> int, deviceInfo: Option<string>): (r: Outcome)
    ensures r.response.status != 200 ==> r.db == db
  {
    if !Present(email) || !Present(password) then
      Outcome(Response(400, Note(CredentialsRequired)), db)
    else
      match UserWithEmail(db.users, email.value)
      case None => Outcome(Response(401, Note(InvalidCredentials)), db)
      case Some(i) =>
        var u := db.users[i];
        if !compare(password.value, u.password) then
          Outcome(Response(401, Note(InvalidCredentials)), db)
        else
          Outcome(Response(200, WithToken(View(u), token, LoginSuccessful)),
            db.(sessions := db.sessions + [LoginSession(u.id, token, addHours(now, 24), deviceInfo)]))
  }

  /** An unknown email and a wrong password get the very same 401, so a caller cannot tell them
      apart; login succeeds exactly when the stored hash matches, and then records one session for
      that user, expiring 24 hours from now. */
  lemma LoginOutcomes(db: AuthDb, email: Option<string>, password: Option<string>,
                      compare: (string, string) -> bool, token: string, now: int, addHours: (int, int) -> int, deviceInfo: Option<string>)
    requires Present(email) && Present(password)
    ensures var r := Login(db, email, password, compare, token, now, addHours, deviceInfo);
      && (UserWithEmail(db.users, email.value).None? ==>
            r.response == Response(401, Note(InvalidCredentials)) && r.db == db)
      && (UserWithEmail(db.users, email.value).Some?
          && !compare(password.value, db.users[UserWithEmail(db.users, email.value).value].password) ==>
            r.response == Response(401, Note(InvalidCredentials)) && r.db == db)
      && (r.response.status == 200 <==>
            UserWithEmail(db.users, email.value).Some?
            && compare(password.value, db.users[UserWithEmail(db.users, email.value).value].password))
      && (r.response.status == 200 ==>
            var u := db.users[UserWithEmail(db.users, email.value).value];
            && u.email == email.value
            && r.db == db.(sessions := db.sessions + [LoginSession(u.id, token, addHours(now, 24), deviceInfo)])
            && r.response.body == WithToken(View(u), token, LoginSuccessful))
  {
  }

  lemma LoginPreservesValid(db: AuthDb, email: Option<string>, password: Option<string>,
                            compare: (string, string) -> bool, token: string, now: int, addHours: (int, int) -> int, deviceInfo: Option<string>)
    requires ValidDb(db)
    ensures ValidDb(Login(db, email, password, compare, token, now, addHours, deviceInfo).db)
  {
    var r := Login(db, email, password, compare, token, now, addHours, deviceInfo);
    if r.response.status == 200 {
      var i := UserWithEmail(db.users, email.value).value;
      UserWithIdUnique(db.users, i);
    }
  }

  /** A user just registered can log in with the same email and password, given a `compare` that
      accepts a password against its own hash. */
  lemma RegisterThenLogin(db: AuthDb, name: string, email: string, password: string,
                          hash: string -> Digest, compare: (string, string) -> bool,
                          freshId: string, now: int, token: string, later: int, addHours: (int, int) -> int,
                          deviceInfo: Option<string>)
    requires compare(password, hash(password))
    requires Register(db, Some(name), Some(email), Some(password), hash, freshId, now).response.status == 201
    ensures var db' := Register(db, Some(name), Some(email), Some(password), hash, freshId, now).db;
      var r := Login(db', Some(email), Some(password), compare, token, later, addHours, deviceInfo);
      && r.response.status == 200
      && r.db.sessions == db.sessions + [LoginSession(freshId, token, addHours(later, 24), deviceInfo)]
  {
    var db' := Register(db, Some(name), Some(email), Some(password), hash, freshId, now).db;
    RegisterOutcomes(db, Some(name), Some(email), Some(password), hash, freshId, now);
    assert forall j :: 0 <= j < |db.users| ==> db'.users[j].email != email by {
      assert UserWithEmail(db.users, email).None?;
    }
    assert db'.users[|db.users|].email == email;
  }

  // ---------------------------------------------------------------------------------------------
  // logout

  /** `req.header("Authorization")?.replace("Bearer ", "")`: the first occurrence removed and no
      trimming. */
  function LogoutToken(header: Option<string>): Option<string> {
    match header
    case None => None
    case Some(h) => Some(ReplaceFirst(h, "Bearer ", ""))
  }

  /** `Session.findOne({ token })`. */
  function SessionWithToken(sessions: seq<LoginSession>, token: string): (r: Option<nat>)
    ensures r.Some? ==> r.value < |sessions| && sessions[r.value].token == token
    ensures r.Some? ==> forall j :: 0 <= j < r.value ==> sessions[j].token != token
    ensures r.None? <==> forall j :: 0 <= j < |sessions| ==> sessions[j].token != token
  {
    FindFirst(sessions, (s: LoginSession) => s.token == token)
  }

  /** `Session.deleteOne({ token })`: the first matching session goes, the others keep their order. */
  function DeleteOneSession(sessions: seq<LoginSession>, token: string): (r: seq<LoginSession>)
    ensures SessionWithToken(sessions, token).None? ==> r == sessions
    ensures SessionWithToken(sessions, token).Some? ==>
      var i := SessionWithToken(sessions, token).value;
      && |r| == |sessions| - 1
      && multiset(r) + multiset{sessions[i]} == multiset(sessions)
      && (forall j :: 0 <= j < i ==> r[j] == sessions[j])
      && (forall j :: i < j < |sessions| ==> r[j - 1] == sessions[j])
  {
    match SessionWithToken(sessions, token)
    case None => sessions
    case Some(i) => RemoveAt(sessions, i)
  }

  /** `logout`: with a non-empty token the first session holding it is deleted; the answer is 200
      whether or not there was one. */
  function Logout(db: AuthDb, header: Option<string>): (r: Outcome)
    ensures r.response == Response(200, Note(LoggedOut))
    ensures r.db.users == db.users
  {
    var token := LogoutToken(header);
    if Present(token) then
      Outcome(Response(200, Note(LoggedOut)), db.(sessions := DeleteOneSession(db.sessions, token.value)))
    else
      Outcome(Response(200, Note(LoggedOut)), db)
  }

  /** `Bearer <t>` yields `t` exactly, trailing whitespace included. */
  lemma LogoutTokenOfBearer(t: string)
    ensures LogoutToken(Some("Bearer " + t)) == Some(t)
  {
    var h := "Bearer " + t;
    assert OccursAt(h, "Bearer ", 0) by {
      assert h[0..7] == "Bearer ";
    }
    assert IndexOf(h, "Bearer ") == Some(0);
    assert h[..0] + "" + h[7..] == t;
  }

  /** Logging out with the token a login issued removes one session carrying it and nothing else. */
  lemma LoginThenLogout(db: AuthDb, email: Option<string>, password: Option<string>,
                        compare: (string, string) -> bool, token: string, now: int, addHours: (int, int) -> int, deviceInfo: Option<string>)
    requires token != ""
    requires Login(db, email, password, compare, token, now, addHours, deviceInfo).response.status == 200
    ensures var db1 := Login(db, email, password, compare, token, now, addHours, deviceInfo).db;
      var db2 := Logout(db1, Some("Bearer " + token)).db;
      && |db2.sessions| == |db1.sessions| - 1
      && exists s: LoginSession :: s.token == token && multiset(db2.sessions) + multiset{s} == multiset(db1.sessions)
  {
    var db1 := Login(db, email, password, compare, token, now, addHours, deviceInfo).db;
    LogoutTokenOfBearer(token);
    assert db1.sessions[|db1.sessions| - 1].token == token;
    var i := SessionWithToken(db1.sessions, token).value;
    assert db1.sessions[i].token == token;
  }

  lemma LogoutPreservesValid(db: AuthDb, header: Option<string>)
    requires ValidDb(db)
    ensures ValidDb(Logout(db, header).db)
  {
    var token := LogoutToken(header);
    if Present(token) {
      var s' := DeleteOneSession(db.sessions, token.value);
      forall k | 0 <= k < |s'|
        ensures UserWithId(db.users, s'[k].userId).Some?
      {
        var found := SessionWithToken(db.sessions, token.value);
        if found.None? || k < found.value {
          assert s'[k] == db.sessions[k];
        } else {
          assert s'[k] == db.sessions[k + 1];
        }
      }
    }
  }

  // ---------------------------------------------------------------------------------------------
  // forgot-password

  /** The user whose reset fields a forgot-password request sets: reset token `digest`, expiry
      `expires`, saved at `now`. */
  function WithReset(u: User, digest: string, expires: int, now: int): User {
    u.(resetToken := Some(digest), resetExpires := Some(expires), updatedAt := now)
  }

  /** The same user after the mail failed: both reset fields cleared again. */
  function WithoutReset(u: User, now: int): User {
    u.(resetToken := None, resetExpires := None, updatedAt := now)
  }

  /** `` `${process.env.FRONTEND_URL}/reset-password?token=${resetToken}` ``. */
  function ResetUrl(env: Email.Env, rawToken: string): string {
    Email.Lookup(env, "FRONTEND_URL").GetOr("undefined") + "/reset-password?token=" + rawToken
  }

  /**
   * `forgotPassword`, with `config` the result of `validateEmailConfig()` on `env`: the mail settings
   * first (a missing one throws, so 500), the required email,
   * the lookup by the lower-cased email, then the hashed token and its expiry saved, the mail, and
   * on a failed send both fields cleared and saved again. `clearSaved` says whether that second
   * save succeeded; when it throws, the outer `catch` answers 500 and the token stays stored.
   */
  function ForgotPassword(db: AuthDb, config: Email.ConfigCheck, env: Email.Env, email: Option<string>, rawToken: string,
                          sha: string -> string, now: int, mailSent: bool, clearSaved: bool): (r: ForgotOutcome)
    ensures r.mail.None? ==> r.db == db
    ensures r.db.sessions == db.sessions && |r.db.users| == |db.users|
  {
    if config.ConfigMissing? then
      ForgotOutcome(Response(500, Note(ServerError)), db, None)
    else if !Present(email) then
      ForgotOutcome(Response(400, Note(EmailRequired)), db, None)
    else
      match UserWithEmail(db.users, ToLower(email.value))
      case None => ForgotOutcome(Response(200, Note(ResetLinkIfExists)), db, None)
      case Some(i) =>
        var u := db.users[i];
        var pending := WithReset(u, sha(rawToken), now + ResetLifetime, now);
        var mail := MailRequest(u.email, ResetUrl(env, rawToken), if u.name != "" then u.name else "User");
        if mailSent then
          ForgotOutcome(Response(200, Note(ResetEmailSent)), db.(users := db.users[i := pending]), Some(mail))
        else if clearSaved then
          ForgotOutcome(Response(500, Note(EmailNotSent)), db.(users := db.users[i := WithoutReset(pending, now)]), Some(mail))
        else
          ForgotOutcome(Response(500, Note(ServerError)), db.(users := db.users[i := pending]), Some(mail))
  }

  /** The configuration check comes first, then the email; an unknown address gets 200 with no change
      and no mail. For a known one the stored token is the SHA-256 of the mailed token, never the
      token itself, expiring in 15 minutes; when the send fails both fields end up cleared and the
      answer is 500, unless saving the cleared fields fails too, which answers the generic 500 with
      the token still stored. Only that one user changes. */
  lemma ForgotOutcomes(db: AuthDb, config: Email.ConfigCheck, env: Email.Env, email: Option<string>, rawToken: string,
                       sha: string -> string, now: int, mailSent: bool, clearSaved: bool)
    ensures var r := ForgotPassword(db, config, env, email, rawToken, sha, now, mailSent, clearSaved);
      && (config.ConfigMissing? ==>
            r.response == Response(500, Note(ServerError)) && r.db == db && r.mail.None?)
      && (config.ConfigOk? && !Present(email) ==>
            r.response == Response(400, Note(EmailRequired)) && r.db == db && r.mail.None?)
      && (config.ConfigOk? && Present(email) && UserWithEmail(db.users, ToLower(email.value)).None? ==>
            r.response == Response(200, Note(ResetLinkIfExists)) && r.db == db && r.mail.None?)
      && (config.ConfigOk? && Present(email) && UserWithEmail(db.users, ToLower(email.value)).Some? ==> r.mail.Some?)
      && (r.mail.Some? ==>
            && Present(email)
            && var i := UserWithEmail(db.users, ToLower(email.value)).value;
            && r.mail.value == MailRequest(db.users[i].email, ResetUrl(env, rawToken),
                 if db.users[i].name != "" then db.users[i].name else "User")
            && (forall j :: 0 <= j < |db.users| && j != i ==> r.db.users[j] == db.users[j])
            && (mailSent || !clearSaved ==>
                  && r.db.users[i].resetToken == Some(sha(rawToken))
                  && r.db.users[i].resetExpires == Some(now + ResetLifetime))
            && (mailSent ==> r.response == Response(200, Note(ResetEmailSent)))
            && (!mailSent && clearSaved ==>
                  && r.response == Response(500, Note(EmailNotSent))
                  && r.db.users[i].resetToken.None? && r.db.users[i].resetExpires.None?)
            && (!mailSent && !clearSaved ==> r.response == Response(500, Note(ServerError)))
            && r.db.users[i].password == db.users[i].password)
  {
  }

  /** The lookup uses the lower-cased address while `register` stores the address as given, so a
      user whose stored email has an upper-case letter is never reached by forgot-password. */
  lemma ForgotMissesUpperCaseEmail(db: AuthDb, env: Email.Env, email: string, i: nat)
    requires i < |db.users| && ToLower(db.users[i].email) != db.users[i].email
    ensures UserWithEmail(db.users, ToLower(email)) != Some(i)
  {
    ToLowerIdempotent(email);
  }

  /** Two different successful answers: the generic one for an unknown address and another after a
      mail went out, so the response does tell whether an account exists. */
  lemma ForgotAnswersDiffer(db: AuthDb, config: Email.ConfigCheck, env: Email.Env, unknown: string, known: string, rawToken: string,
                            sha: string -> string, now: int)
    requires config.ConfigOk?
    requires unknown != "" && UserWithEmail(db.users, ToLower(unknown)).None?
    requires known != "" && UserWithEmail(db.users, ToLower(known)).Some?
    ensures ForgotPassword(db, config, env, Some(unknown), rawToken, sha, now, true, true).response.status == 200
    ensures ForgotPassword(db, config, env, Some(known), rawToken, sha, now, true, true).response.status == 200
    ensures ForgotPassword(db, config, env, Some(unknown), rawToken, sha, now, true, true).response
         != ForgotPassword(db, config, env, Some(known), rawToken, sha, now, true, true).response
  {
  }

  lemma ReplaceUserKeepsValid(db: AuthDb, i: nat, u: User)
    requires ValidDb(db) && i < |db.users|
    requires u.id == db.users[i].id && u.email == db.users[i].email
    requires ValidUser(u) && ResetPaired(u)
    ensures ValidDb(db.(users := db.users[i := u]))
  {
    var users' := db.users[i := u];
    forall k | 0 <= k < |db.sessions|
      ensures UserWithId(users', db.sessions[k].userId).Some?
    {
      var j := UserWithId(db.users, db.sessions[k].userId).value;
      assert users'[j].id == db.sessions[k].userId;
    }
  }

  lemma ForgotPreservesValid(db: AuthDb, config: Email.ConfigCheck, env: Email.Env, email: Option<string>, rawToken: string,
                             sha: string -> string, now: int, mailSent: bool, clearSaved: bool)
    requires ValidDb(db)
    ensures ValidDb(ForgotPassword(db, config, env, email, rawToken, sha, now, mailSent, clearSaved).db)
  {
    var r := ForgotPassword(db, config, env, email, rawToken, sha, now, mailSent, clearSaved);
    if r.mail.Some? {
      var i := UserWithEmail(db.users, ToLower(email.value)).value;
      var pending := WithReset(db.users[i], sha(rawToken), now + ResetLifetime, now);
      if mailSent || !clearSaved {
        ReplaceUserKeepsValid(db, i, pending);
      } else {
        ReplaceUserKeepsValid(db, i, WithoutReset(pending, now));
      }
    }
  }

  // ---------------------------------------------------------------------------------------------
  // reset-password

  /** A user whose stored reset token is `digest` and whose expiry is strictly after `now`. */
  predicate ResetMatches(u: User, digest: string, now: int) {
    u.resetToken == Some(digest) && u.resetExpires.Some? && u.resetExpires.value > now
  }

  /** `User.findOne({ resetPasswordToken: digest, resetPasswordExpires: { $gt: now } })`. */
  function UserWithResetToken(users: seq<User>, digest: string, now: int): (r: Option<nat>)
    ensures r.Some? ==> r.value < |users| && ResetMatches(users[r.value], digest, now)
    ensures r.Some? ==> forall j :: 0 <= j < r.value ==> !ResetMatches(users[j], digest, now)
    ensures r.None? <==> forall j :: 0 <= j < |users| ==> !ResetMatches(users[j], digest, now)
  {
    FindFirst(users, (u: User) => ResetMatches(u, digest, now))
  }

  /** `Session.deleteMany({ userId })`: the sessions of everyone else, in their order. */
  function SessionsNotOf(sessions: seq<LoginSession>, userId: string): (r: seq<LoginSession>)
    ensures forall k :: 0 <= k < |r| ==> r[k].userId != userId
    ensures forall k :: 0 <= k < |sessions| && sessions[k].userId != userId ==> sessions[k] in r
    ensures forall k :: 0 <= k < |r| ==> r[k] in sessions
  {
    Filter(sessions, (s: LoginSession) => s.userId != userId)
  }

  /** The user after a reset: the new hash stored, both reset fields cleared. */
  function AfterReset(u: User, digest: Digest, now: int): User {
    u.(password := digest, resetToken := None, resetExpires := None, updatedAt := now)
  }

  /** `resetPassword`: required fields, the lookup by the token's SHA-256 among unexpired tokens,
      then the new hash with the reset fields cleared, and every session of that user deleted.
      `deleteOk` says whether `deleteMany` succeeded; when it throws, the user is already saved and
      the outer `catch` answers 500 with the sessions untouched. */
  function ResetPassword(db: AuthDb, token: Option<string>, newPassword: Option<string>,
                         sha: string -> string, hash: string -> Digest, now: int, deleteOk: bool): (r: Outcome)
    ensures r.response.status == 400 ==> r.db == db
    ensures r.response.status != 200 ==> r.db.sessions == db.sessions
    ensures |r.db.users| == |db.users|
  {
    if !Present(token) || !Present(newPassword) then
      Outcome(Response(400, Note(ResetFieldsRequired)), db)
    else
      match UserWithResetToken(db.users, sha(token.value), now)
      case None => Outcome(Response(400, Note(InvalidResetToken)), db)
      case Some(i) =>
        var u := AfterReset(db.users[i], hash(newPassword.value), now);
        if deleteOk then
          Outcome(Response(200, Note(PasswordWasReset)), AuthDb(db.users[i := u], SessionsNotOf(db.sessions, u.id)))
        else
          Outcome(Response(500, Note(ServerError)), db.(users := db.users[i := u]))
  }

  /** A token is consumed exactly when some user holds its hash with an expiry strictly after now;
      then that user gets `hash(newPassword)` with both reset fields cleared and no other user
      changes. The answer is 200 with no session of that user left when `deleteMany` succeeds, and
      500 with every session kept when it throws. Every 400 changes nothing. */
  lemma ResetOutcomes(db: AuthDb, token: Option<string>, newPassword: Option<string>,
                      sha: string -> string, hash: string -> Digest, now: int, deleteOk: bool)
    ensures var r := ResetPassword(db, token, newPassword, sha, hash, now, deleteOk);
      && (!Present(token) || !Present(newPassword) ==>
            r.response == Response(400, Note(ResetFieldsRequired)) && r.db == db)
      && (Present(token) && Present(newPassword) ==>
            (r.response.status != 400 <==>
               exists j :: 0 <= j < |db.users| && ResetMatches(db.users[j], sha(token.value), now)))
      && (r.response.status != 400 ==>
            var i := UserWithResetToken(db.users, sha(token.value), now).value;
            && r.db.users[i].password == hash(newPassword.value)
            && r.db.users[i].resetToken.None? && r.db.users[i].resetExpires.None?
            && (forall j :: 0 <= j < |db.users| && j != i ==> r.db.users[j] == db.users[j])
            && (deleteOk ==>
                  && r.response == Response(200, Note(PasswordWasReset))
                  && (forall k :: 0 <= k < |r.db.sessions| ==> r.db.sessions[k].userId != db.users[i].id)
                  && (forall k :: 0 <= k < |db.sessions| && db.sessions[k].userId != db.users[i].id ==>
                        db.sessions[k] in r.db.sessions))
            && (!deleteOk ==> r.response == Response(500, Note(ServerError)) && r.db.sessions == db.sessions))
      && (r.response.status == 400 ==> r.db == db)
  {
    var r := ResetPassword(db, token, newPassword, sha, hash, now, deleteOk);
    if Present(token) && Present(newPassword) && r.response.status == 400 {
      assert UserWithResetToken(db.users, sha(token.value), now).None?;
    }
  }

  /** Once a reset got past the lookup, the same token no longer finds that user at any later time,
      whether or not deleting the sessions then failed. */
  lemma ResetTokenSingleUse(db: AuthDb, token: string, newPassword: string,
                            sha: string -> string, hash: string -> Digest, now: int, deleteOk: bool, later: int)
    requires ResetPassword(db, Some(token), Some(newPassword), sha, hash, now, deleteOk).response.status != 400
    ensures var i := UserWithResetToken(db.users, sha(token), now).value;
      var db' := ResetPassword(db, Some(token), Some(newPassword), sha, hash, now, deleteOk).db;
      UserWithResetToken(db'.users, sha(token), later) != Some(i)
  {
  }

  lemma FewerSessionsKeepValid(db: AuthDb, sessions': seq<LoginSession>)
    requires ValidDb(db)
    requires forall k :: 0 <= k < |sessions'| ==> sessions'[k] in db.sessions
    ensures ValidDb(db.(sessions := sessions'))
  {
    forall k | 0 <= k < |sessions'|
      ensures UserWithId(db.users, sessions'[k].userId).Some?
    {
      var j :| 0 <= j < |db.sessions| && db.sessions[j] == sessions'[k];
    }
  }

  lemma ResetPreservesValid(db: AuthDb, token: Option<string>, newPassword: Option<string>,
                            sha: string -> string, hash: string -> Digest, now: int, deleteOk: bool)
    requires ValidDb(db)
    ensures ValidDb(ResetPassword(db, token, newPassword, sha, hash, now, deleteOk).db)
  {
    var r := ResetPassword(db, token, newPassword, sha, hash, now, deleteOk);
    if r.response.status != 400 {
      var i := UserWithResetToken(db.users, sha(token.value), now).value;
      var u := AfterReset(db.users[i], hash(newPassword.value), now);
      if deleteOk {
        FewerSessionsKeepValid(db, SessionsNotOf(db.sessions, u.id));
        ReplaceUserKeepsValid(db.(sessions := SessionsNotOf(db.sessions, u.id)), i, u);
      } else {
        ReplaceUserKeepsValid(db, i, u);
      }
    }
  }

  /** The round trip of the two handlers: once the mail went out, the mailed token resets the
      password at any time before the 15 minutes are over. */
  lemma ForgotThenReset(db: AuthDb, config: Email.ConfigCheck, env: Email.Env, email: string, rawToken: string, sha: string -> string,
                        now: int, newPassword: string, hash: string -> Digest, later: int)
    requires rawToken != "" && newPassword != "" && later < now + ResetLifetime
    requires ForgotPassword(db, config, env, Some(email), rawToken, sha, now, true, true).mail.Some?
    ensures var db' := ForgotPassword(db, config, env, Some(email), rawToken, sha, now, true, true).db;
      ResetPassword(db', Some(rawToken), Some(newPassword), sha, hash, later, true).response
        == Response(200, Note(PasswordWasReset))
  {
    var db' := ForgotPassword(db, config, env, Some(email), rawToken, sha, now, true, true).db;
    ForgotOutcomes(db, config, env, Some(email), rawToken, sha, now, true, true);
    var i := UserWithEmail(db.users, ToLower(email)).value;
    assert ResetMatches(db'.users[i], sha(rawToken), later);
  }

  // ---------------------------------------------------------------------------------------------
  // The store

  /** The two collections, changed in place by the handlers. */
  class AuthStore {
    var users: seq<User>
    var sessions: seq<LoginSession>

    function Db(): AuthDb
      reads this
    {
      AuthDb(users, sessions)
    }

    ghost predicate Valid()
      reads this
    {
      ValidDb(Db())
    }

    constructor ()
      ensures Valid() && users == [] && sessions == []
    {
      users := [];
      sessions := [];
    }

    method RegisterUser(name: Option<string>, email: Option<string>, password: Option<string>,
                        hash: string -> Digest, freshId: string, now: int) returns (resp: Response)
      requires Valid()
      modifies this
      ensures Valid()
      ensures var r := Register(old(Db()), name, email, password, hash, freshId, now);
        resp == r.response && Db() == r.db
    {
      RegisterPreservesValid(Db(), name, email, password, hash, freshId, now);
      if !Present(name) || !Present(email) || !Present(password) {
        return Response(400, Note(FieldsRequired));
      }
      if UserWithEmail(users, email.value).Some? {
        return Response(409, Note(EmailInUse));
      }
      var hashedPassword := hash(password.value);
      if freshId == "" || UserWithId(users, freshId).Some? {
        return Response(500, Note(ServerError));
      }
      var user := User(freshId, name.value, email.value, hashedPassword, None, None, now, now);
      users := users + [user];
      resp := Response(201, WithUser(View(user), Registered));
    }

    method LoginUser(email: Option<string>, password: Option<string>, compare: (string, string) -> bool,
                     token: string, now: int, addHours: (int, int) -> int, deviceInfo: Option<string>) returns (resp: Response)
      requires Valid()
      modifies this
      ensures Valid()
      ensures var r := Login(old(Db()), email, password, compare, token, now, addHours, deviceInfo);
        resp == r.response && Db() == r.db
    {
      LoginPreservesValid(Db(), email, password, compare, token, now, addHours, deviceInfo);
      if !Present(email) || !Present(password) {
        return Response(400, Note(CredentialsRequired));
      }
      var found := UserWithEmail(users, email.value);
      if found.None? {
        return Response(401, Note(InvalidCredentials));
      }
      var user := users[found.value];
      if !compare(password.value, user.password) {
        return Response(401, Note(InvalidCredentials));
      }
      var expiresAt := addHours(now, 24);
      sessions := sessions + [LoginSession(user.id, token, expiresAt, deviceInfo)];
      resp := Response(200, WithToken(View(user), token, LoginSuccessful));
    }

    method LogoutUser(header: Option<string>) returns (resp: Response)
      requires Valid()
      modifies this
      ensures Valid()
      ensures var r := Logout(old(Db()), header);
        resp == r.response && Db() == r.db
    {
      LogoutPreservesValid(Db(), header);
      var token := LogoutToken(header);
      if Present(token) {
        sessions := DeleteOneSession(sessions, token.value);
      }
      resp := Response(200, Note(LoggedOut));
    }

    /** `forgotPassword`: the configuration check, then the handler's steps. */
    method ForgotUserPassword(env: Email.Env, email: Option<string>, rawToken: string, sha: string -> string,
                              now: int, mailSent: bool, clearSaved: bool) returns (resp: Response, mail: Option<MailRequest>)
      requires Valid()
      modifies this
      ensures Valid()
      ensures var r := ForgotPassword(old(Db()), Email.ValidateEmailConfig(env), env, email, rawToken, sha, now, mailSent, clearSaved);
        resp == r.response && Db() == r.db && mail == r.mail
    {
      var config := Email.ValidateEmailConfig(env);
      resp, mail := ForgotWithConfig(config, env, email, rawToken, sha, now, mailSent, clearSaved);
    }

    /** The steps after `validateEmailConfig()`; the two saves of the user are the two assignments
        to `users`, the second one skipped when `clearSaved` says it threw. */
    method ForgotWithConfig(config: Email.ConfigCheck, env: Email.Env, email: Option<string>, rawToken: string,
                            sha: string -> string, now: int, mailSent: bool, clearSaved: bool) returns (resp: Response, mail: Option<MailRequest>)
      requires Valid()
      modifies this
      ensures Valid()
      ensures var r := ForgotPassword(old(Db()), config, env, email, rawToken, sha, now, mailSent, clearSaved);
        resp == r.response && Db() == r.db && mail == r.mail
    {
      ForgotPreservesValid(Db(), config, env, email, rawToken, sha, now, mailSent, clearSaved);
      ghost var r := ForgotPassword(Db(), config, env, email, rawToken, sha, now, mailSent, clearSaved);
      mail := None;
      if config.ConfigMissing? {
        return Response(500, Note(ServerError)), None;
      }
      if !Present(email) {
        return Response(400, Note(EmailRequired)), None;
      }
      var found := UserWithEmail(users, ToLower(email.value));
      if found.None? {
        return Response(200, Note(ResetLinkIfExists)), None;
      }
      var i := found.value;
      var user := users[i];
      var hashedToken := sha(rawToken);
      user := WithReset(user, hashedToken, now + ResetLifetime, now);
      users := users[i := user];
      var resetUrl := ResetUrl(env, rawToken);
      mail := Some(MailRequest(user.email, resetUrl, if user.name != "" then user.name else "User"));
      if mailSent {
        assert Db() == r.db;
        return Response(200, Note(ResetEmailSent)), mail;
      }
      if !clearSaved {
        assert Db() == r.db;
        return Response(500, Note(ServerError)), mail;
      }
      user := WithoutReset(user, now);
      users := users[i := user];
      assert Db() == r.db;
      resp := Response(500, Note(EmailNotSent));
    }

    method ResetUserPassword(token: Option<string>, newPassword: Option<string>, sha: string -> string,
                             hash: string -> Digest, now: int, deleteOk: bool) returns (resp: Response)
      requires Valid()
      modifies this
      ensures Valid()
      ensures var r := ResetPassword(old(Db()), token, newPassword, sha, hash, now, deleteOk);
        resp == r.response && Db() == r.db
    {
      ResetPreservesValid(Db(), token, newPassword, sha, hash, now, deleteOk);
      if !Present(token) || !Present(newPassword) {
        return Response(400, Note(ResetFieldsRequired));
      }
      var hashedToken := sha(token.value);
      var found := UserWithResetToken(users, hashedToken, now);
      if found.None? {
        return Response(400, Note(InvalidResetToken));
      }
      var i := found.value;
      var user := users[i];
      user := AfterReset(user, hash(newPassword.value), now);
      users := users[i := user];
      if !deleteOk {
        return Response(500, Note(ServerError));
      }
      sessions := SessionsNotOf(sessions, user.id);
      resp := Response(200, Note(PasswordWasReset));
    }
  }
}
