/**
 * The password reset page of app/reset-password/page.tsx: reading the token from the link, the
 * checks `handleSubmit` makes before it sends anything, the request it sends, and how it turns the
 * answer or a thrown error into the page's state.
 *
 * The network is a parameter: `Answer` says whether `fetch` threw (and with which error) or what
 * came back (the `ok` flag, the `content-type` header and the parsed body). The backend's base URL
 * is the parameter `apiUrl`.
 */
module ResetPage {
  import opened Wrappers
  import opened Text

  /** The JavaScript error classes the `catch` block tells apart. */
  datatype ErrorClass = TypeError | SyntaxError | OtherError

  datatype Thrown = Thrown(kind: ErrorClass, message: string)

  /** What `response.json()` gives: the body's `message` field, or the error it throws. */
  datatype Json = Parsed(message: Option<string>) | Unparseable(error: Thrown)

  datatype Answer =
    | FetchThrew(error: Thrown)
    | Answered(ok: bool, contentType: Option<string>, json: Json)

  /** The POST to `${apiUrl}/auth/reset-password` with the body `{token, newPassword}`. */
  datatype ResetRequest = ResetRequest(url: string, token: string, newPassword: string)

  const MissingToken := "Invalid or missing reset token. Please check your email link."
  const InvalidToken := "Invalid reset token. Please check your email link."
  const Mismatch := "Passwords do not match."
  const TooShort := "Password must be at least 6 characters long."
  const ResetFailed := "An error occurred while resetting your password."
  const CannotConnect := "Cannot connect to server. Make sure the backend is running on port 3001."
  const InvalidResponse := "Server returned invalid response. Check console for details."
  const NetworkError := "Network error. Please check your connection and try again."

  /** The checks before the request, in the order the page makes them; `None` when all pass. */
  function Validate(token: Option<string>, password: string, confirmPassword: string): (r: Option<string>)
    ensures r.None? <==> Present(token) && password == confirmPassword && Utf16Length(password) >= 6
  {
    if !Present(token) then Some(InvalidToken)
    else if password != confirmPassword then Some(Mismatch)
    else if Utf16Length(password) < 6 then Some(TooShort)
    else None
  }

  /** A mismatch is reported even when the password is also too short. */
  lemma MismatchReportedFirst(token: string, password: string, confirmPassword: string)
    requires token != "" && password != confirmPassword
    ensures Validate(Some(token), password, confirmPassword) == Some(Mismatch)
  {
  }

  /** Six UTF-16 code units is the shortest accepted password; anything shorter is rejected. */
  lemma LengthBoundary(token: string, password: string)
    requires token != ""
    ensures Utf16Length(password) < 6 ==> Validate(Some(token), password, password) == Some(TooShort)
    ensures Utf16Length(password) == 6 ==> Validate(Some(token), password, password).None?
  {
  }

  /** `length` counts code units, so three emoji outside the Basic Multilingual Plane already
      make a long enough password. */
  lemma ThreeAstralCharsAccepted(token: string)
    requires token != ""
    ensures Validate(Some(token), "\U{1F600}\U{1F600}\U{1F600}", "\U{1F600}\U{1F600}\U{1F600}").None?
  {
    var p := "\U{1F600}\U{1F600}\U{1F600}";
    assert p[..2][..1] == p[..1] && p[..|p|] == p;
    assert Utf16Length(p[..1]) == 2;
  }

  /** The page's error text for an exception caught around the request. */
  function CaughtText(e: Thrown): (r: string)
    ensures r in {CannotConnect, InvalidResponse, NetworkError}
    ensures r == CannotConnect <==> e.kind == TypeError && Includes(e.message, "fetch")
    ensures r == InvalidResponse <==> e.kind == SyntaxError && Includes(e.message, "JSON")
  {
    if e.kind == TypeError && Includes(e.message, "fetch") then CannotConnect
    else if e.kind == SyntaxError && Includes(e.message, "JSON") then InvalidResponse
    else NetworkError
  }

  /** `!contentType || !contentType.includes('application/json')`. */
  predicate NotJson(contentType: Option<string>) {
    !Present(contentType) || !Includes(contentType.value, "application/json")
  }

  /** `${contentType}`: a missing header reads as `null`. */
  function ShowContentType(contentType: Option<string>): string {
    if contentType.Some? then contentType.value else "null"
  }

  function NotJsonText(contentType: Option<string>): string {
    "Server error: Expected JSON response but got " + ShowContentType(contentType) + ". Check console for details."
  }

  /** The page's state. */
  class Page {
    var password: string
    var confirmPassword: string
    var error: string
    var success: bool
    var loading: bool
    var token: Option<string>
    var requests: seq<ResetRequest>

    /** The first render followed by the effect that reads `token` from the link. */
    constructor (tokenParam: Option<string>)
      ensures password == "" && confirmPassword == "" && !success && !loading
      ensures token == tokenParam && requests == []
      ensures error == (if Present(tokenParam) then "" else MissingToken)
    {
      password := "";
      confirmPassword := "";
      success := false;
      loading := false;
      token := tokenParam;
      requests := [];
      error := if Present(tokenParam) then "" else MissingToken;
    }

    method SetPassword(p: string)
      modifies this
      ensures password == p && confirmPassword == old(confirmPassword) && error == old(error)
      ensures success == old(success) && loading == old(loading) && token == old(token)
      ensures requests == old(requests)
    {
      password := p;
    }

    method SetConfirmPassword(p: string)
      modifies this
      ensures confirmPassword == p && password == old(password) && error == old(error)
      ensures success == old(success) && loading == old(loading) && token == old(token)
      ensures requests == old(requests)
    {
      confirmPassword := p;
    }

    /** `handleSubmit`. A failed check sets its message and sends nothing. Otherwise the request
        carries the token and the new password and the loading flag ends false; a non-JSON answer
        or a thrown error sets an error text, an ok answer sets `success` and clears both fields,
        and any other answer shows the body's `message` or the default text. */
    method HandleSubmit(apiUrl: string, answer: Answer)
      modifies this
      ensures token == old(token)
      ensures Validate(old(token), old(password), old(confirmPassword)).Some? ==>
        && error == Validate(old(token), old(password), old(confirmPassword)).value
        && requests == old(requests)
        && password == old(password) && confirmPassword == old(confirmPassword)
        && success == old(success) && loading == old(loading)
      ensures Validate(old(token), old(password), old(confirmPassword)).None? ==>
        && requests == old(requests) + [ResetRequest(apiUrl + "/auth/reset-password", old(token).value, old(password))]
        && !loading
      ensures Validate(old(token), old(password), old(confirmPassword)).None? && answer.FetchThrew? ==>
        && error == CaughtText(answer.error)
        && success == old(success) && password == old(password) && confirmPassword == old(confirmPassword)
      ensures Validate(old(token), old(password), old(confirmPassword)).None? && answer.Answered? ==>
        if NotJson(answer.contentType) then
          && error == NotJsonText(answer.contentType)
          && success == old(success) && password == old(password) && confirmPassword == old(confirmPassword)
        else if answer.json.Unparseable? then
          && error == CaughtText(answer.json.error)
          && success == old(success) && password == old(password) && confirmPassword == old(confirmPassword)
        else if answer.ok then
          && error == "" && success && password == "" && confirmPassword == ""
        else
          && error == (if Present(answer.json.message) then answer.json.message.value else ResetFailed)
          && success == old(success) && password == old(password) && confirmPassword == old(confirmPassword)
    {
      error := "";
      if !Present(token) {
        error := InvalidToken;
        return;
      }
      if password != confirmPassword {
        error := Mismatch;
        return;
      }
      if Utf16Length(password) < 6 {
        error := TooShort;
        return;
      }
      loading := true;
      requests := requests + [ResetRequest(apiUrl + "/auth/reset-password", token.value, password)];
      match answer {
        case FetchThrew(e) =>
          error := CaughtText(e);
        case Answered(ok, contentType, json) =>
          if NotJson(contentType) {
            error := NotJsonText(contentType);
          } else {
            match json {
              case Unparseable(e) =>
                error := CaughtText(e);
              case Parsed(message) =>
                if ok {
                  success := true;
                  password := "";
                  confirmPassword := "";
                } else {
                  error := if Present(message) then message.value else ResetFailed;
                }
            }
          }
      }
      loading := false;
    }
  }

  /** What a submission does to `success`, written as a function of the inputs: it becomes true
      exactly when all checks pass and a JSON answer parses and is ok. */
  function SucceedsWith(token: Option<string>, password: string, confirmPassword: string, answer: Answer): bool {
    Validate(token, password, confirmPassword).None? && answer.Answered? && !NotJson(answer.contentType)
    && answer.json.Parsed? && answer.ok
  }

  /** A non-JSON content type never counts as success, whatever the status. */
  lemma NonJsonNeverSucceeds(token: Option<string>, password: string, confirmPassword: string,
                             ok: bool, contentType: Option<string>, json: Json)
    requires NotJson(contentType)
    ensures !SucceedsWith(token, password, confirmPassword, Answered(ok, contentType, json))
  {
  }

  /** An answer without a `content-type` header is rejected and reported as `null`. */
  lemma MissingHeaderShownAsNull()
    ensures NotJson(None)
    ensures ShowContentType(None) == "null"
  {
  }

  /** A success needs an acceptable password: at least six UTF-16 code units, typed the same
      twice. */
  lemma SuccessNeedsValidPassword(token: Option<string>, password: string, confirmPassword: string, answer: Answer)
    requires SucceedsWith(token, password, confirmPassword, answer)
    ensures Present(token) && Utf16Length(password) >= 6 && password == confirmPassword
  {
  }

  /** A `content-type` such as `application/json; charset=utf-8` is accepted. */
  lemma CharsetAccepted()
    ensures !NotJson(Some("application/json; charset=utf-8"))
  {
    var c := "application/json; charset=utf-8";
    assert c[0..16] == "application/json";
    assert OccursAt(c, "application/json", 0);
    IncludesIff(c, "application/json");
  }
}
