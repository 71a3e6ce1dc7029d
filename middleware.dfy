/**
 * backend/src/middleware/auth.ts: the bearer token taken from the `Authorization` header, the
 * JWT check and the user lookup, and what the middleware does to the request: `req.user` set and
 * `next` called, or a 401 and no `next`.
 *
 * `jwt.verify` with the server secret is an oracle passed in as a function.
 */
module Middleware {
  import opened Wrappers
  import opened Text
  import opened UserModel

  /** What `jwt.verify` does with a token: it returns the payload, whose `userId` claim may be
      absent, or it throws. */
  datatype Verdict = Verified(userId: Option<string>) | Rejected

  /** The `message` of each 401. */
  datatype Notice = AuthenticationRequired | UserNotFound | InvalidToken

  function NoticeText(n: Notice): string {
    match n
    case AuthenticationRequired => "Authentication required"
    case UserNotFound => "User not found"
    case InvalidToken => "Invalid authentication token"
  }

  /** The middleware's decision: let the request through as `user`, or answer 401. */
  datatype Decision = Pass(user: User) | Deny(message: Notice)

  /** `req.header("Authorization")?.replace("Bearer ", "").trim()`: the first `"Bearer "` removed
      wherever it occurs, then whitespace trimmed; no header, no token. */
  function ExtractToken(header: Option<string>): (r: Option<string>)
    ensures r.Some? <==> header.Some?
    ensures r.Some? ==> r.value == Trim(ReplaceFirst(header.value, "Bearer ", ""))
  {
    match header
    case None => None
    case Some(h) => Some(Trim(ReplaceFirst(h, "Bearer ", "")))
  }

  /** `findById` on a claim that may be missing: `findById(undefined)` finds nothing. */
  function FindClaimedUser(users: seq<User>, userId: Option<string>): (r: Option<nat>)
    ensures r.Some? ==> userId.Some? && r.value < |users| && users[r.value].id == userId.value
    ensures r.None? <==> userId.None? || UserWithId(users, userId.value).None?
  {
    match userId
    case None => None
    case Some(id) => UserWithId(users, id)
  }

  /** The checks of `auth` once there is a token: the signature, then the user. */
  function CheckToken(token: string, verify: string -> Verdict, users: seq<User>): (r: Decision)
    ensures r.Pass? ==> exists i :: 0 <= i < |users| && users[i] == r.user
  {
    match verify(token)
    case Rejected => Deny(InvalidToken)
    case Verified(userId) =>
      match FindClaimedUser(users, userId)
      case None => Deny(UserNotFound)
      case Some(i) => Pass(users[i])
  }

  /** The checks of `auth`, in order: a token at all, the signature, the user. */
  function Authenticate(header: Option<string>, verify: string -> Verdict, users: seq<User>): (r: Decision)
    ensures r.Pass? ==> exists i :: 0 <= i < |users| && users[i] == r.user
  {
    var token := ExtractToken(header);
    if !Present(token) then Deny(AuthenticationRequired)
    else CheckToken(token.value, verify, users)
  }

  /** A header `Bearer <t>` carries the token `t` with its surrounding whitespace trimmed. */
  lemma ExtractTokenOfBearer(t: string)
    ensures ExtractToken(Some("Bearer " + t)) == Some(Trim(t))
  {
    var h := "Bearer " + t;
    assert OccursAt(h, "Bearer ", 0) by {
      assert h[0..7] == "Bearer ";
    }
    assert IndexOf(h, "Bearer ") == Some(0);
    assert h[..0] + "" + h[7..] == t;
  }

  /** No header, or a header that is only whitespace once `Bearer ` is removed, is refused as
      unauthenticated before the token is looked at. */
  lemma MissingTokenDenied(header: Option<string>, verify: string -> Verdict, users: seq<User>)
    requires header.None? || AllWhitespace(ReplaceFirst(header.value, "Bearer ", ""))
    ensures Authenticate(header, verify, users) == Deny(AuthenticationRequired)
  {
    if header.Some? {
      TrimEmptyIff(ReplaceFirst(header.value, "Bearer ", ""));
    }
  }

  /** The request passes exactly when there is a non-empty token, `verify` accepts it with a
      `userId` claim, and a user with that id exists; it then passes as that user. A thrown
      verification is "Invalid authentication token", a missing user "User not found". */
  lemma AuthenticateOutcomes(header: Option<string>, verify: string -> Verdict, users: seq<User>)
    ensures var r := Authenticate(header, verify, users);
      var token := ExtractToken(header);
      && (r.Pass? <==>
            Present(token) && verify(token.value).Verified? && verify(token.value).userId.Some?
            && UserWithId(users, verify(token.value).userId.value).Some?)
      && (r.Pass? ==>
            && r.user.id == verify(token.value).userId.value
            && r.user == users[UserWithId(users, r.user.id).value])
      && (Present(token) && verify(token.value).Rejected? ==> r == Deny(InvalidToken))
      && (Present(token) && verify(token.value).Verified? && !r.Pass? ==> r == Deny(UserNotFound))
  {
  }

  /** The request object as far as the middleware touches it. */
  class Request {
    var user: Option<User>
    var nextCalls: nat
    var status: Option<int>
    var message: Option<Notice>

    constructor ()
      ensures user.None? && nextCalls == 0 && status.None? && message.None?
    {
      user := None;
      nextCalls := 0;
      status := None;
      message := None;
    }

    /** `auth(req, res, next)`: on success `req.user` is the found user and `next` is called once,
        with no response written; otherwise the response is 401 with the message and `next` is not
        called. */
    method Auth(header: Option<string>, verify: string -> Verdict, users: seq<User>)
      modifies this
      ensures match Authenticate(header, verify, users)
        case Pass(u) =>
          user == Some(u) && nextCalls == old(nextCalls) + 1 && status == old(status) && message == old(message)
        case Deny(m) =>
          user == old(user) && nextCalls == old(nextCalls) && status == Some(401) && message == Some(m)
    {
      var token := ExtractToken(header);
      if !Present(token) {
        status, message := Some(401), Some(AuthenticationRequired);
        return;
      }
      Verify(token.value, verify, users);
    }

    /** The steps after the token was found non-empty. */
    method Verify(token: string, verify: string -> Verdict, users: seq<User>)
      modifies this
      ensures match CheckToken(token, verify, users)
        case Pass(u) =>
          user == Some(u) && nextCalls == old(nextCalls) + 1 && status == old(status) && message == old(message)
        case Deny(m) =>
          user == old(user) && nextCalls == old(nextCalls) && status == Some(401) && message == Some(m)
    {
      var decoded := verify(token);
      if decoded.Rejected? {
        status, message := Some(401), Some(InvalidToken);
        return;
      }
      var found := FindClaimedUser(users, decoded.userId);
      if found.None? {
        status, message := Some(401), Some(UserNotFound);
        return;
      }
      user := Some(users[found.value]);
      nextCalls := nextCalls + 1;
    }
  }
}
