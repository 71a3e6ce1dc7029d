/**
 * The mood entry form of app/components/mood/moodForm.tsx: the emotion shown for the slider's
 * score, and `handleSubmit`, which posts the score and classifies the answer into a success toast
 * (and the `onSuccess` callback) or an error toast.
 *
 * The network is a parameter: `Outcome` says whether `fetch` threw or what status, `ok` flag and
 * body text came back, and `parse` stands for `JSON.parse` (`None` when it throws). The token read
 * from `localStorage` is a parameter too.
 */
module MoodForm {
  import opened Wrappers
  import opened Text

  /** One of the five emotions the form offers. */
  datatype Emotion = Emotion(value: int, description: string)

  const Emotions: seq<Emotion> := [
    Emotion(0, "Very Low"), Emotion(25, "Low"), Emotion(50, "Neutral"),
    Emotion(75, "Good"), Emotion(100, "Great")]

  function Abs(x: int): nat {
    if x < 0 then -x else x
  }

  /** The test `Math.abs(moodScore - em.value) < 15`, which also lights an emoji up. */
  predicate Near(score: int, e: Emotion) {
    Abs(score - e.value) < 15
  }

  /** `es.find(...)` as an index: the first emotion near the score, if any. */
  function FindNear(score: int, es: seq<Emotion>): (r: Option<nat>)
    ensures r.Some? ==> r.value < |es| && Near(score, es[r.value])
    ensures r.Some? ==> forall j :: 0 <= j < r.value ==> !Near(score, es[j])
    ensures r.None? ==> forall j :: 0 <= j < |es| ==> !Near(score, es[j])
  {
    if es == [] then None
    else if Near(score, es[0]) then Some(0)
    else match FindNear(score, es[1..])
      case None => None
      case Some(i) => Some(i + 1)
  }

  /** `currentEmotion`: the first near emotion, Neutral when none is. */
  function CurrentEmotion(score: int): (r: Emotion)
    ensures r in Emotions
    ensures Near(score, r) || (r == Emotions[2] && forall j :: 0 <= j < |Emotions| ==> !Near(score, Emotions[j]))
  {
    match FindNear(score, Emotions)
    case Some(i) => Emotions[i]
    case None => Emotions[2]
  }

  /** The description bands the first-match rule produces, written out independently. */
  function Band(score: int): string {
    if -14 <= score <= 14 then "Very Low"
    else if 15 <= score <= 39 then "Low"
    else if 40 <= score <= 64 then "Neutral"
    else if 65 <= score <= 89 then "Good"
    else if 90 <= score <= 114 then "Great"
    else "Neutral"
  }

  /** The shown emotion's description is the band of the score: where two emotions are near,
      the lower one wins, and far outside the slider's range the fallback is Neutral. */
  lemma CurrentEmotionBands(score: int)
    ensures CurrentEmotion(score).description == Band(score)
  {
    var r := FindNear(score, Emotions);
    if -14 <= score <= 14 {
      assert Near(score, Emotions[0]);
    } else if 15 <= score <= 39 {
      assert !Near(score, Emotions[0]) && Near(score, Emotions[1]);
    } else if 40 <= score <= 64 {
      assert !Near(score, Emotions[0]) && !Near(score, Emotions[1]) && Near(score, Emotions[2]);
    } else if 65 <= score <= 89 {
      assert !Near(score, Emotions[0]) && !Near(score, Emotions[1]) && !Near(score, Emotions[2]);
      assert Near(score, Emotions[3]);
    } else if 90 <= score <= 114 {
      assert !Near(score, Emotions[0]) && !Near(score, Emotions[1]) && !Near(score, Emotions[2]);
      assert !Near(score, Emotions[3]) && Near(score, Emotions[4]);
    } else {
      assert !Near(score, Emotions[0]) && !Near(score, Emotions[1]) && !Near(score, Emotions[2]);
      assert !Near(score, Emotions[3]) && !Near(score, Emotions[4]);
    }
  }

  /** Every slider score (0 to 100) is near some emotion, so the Neutral fallback is never the
      reason Neutral is shown there. */
  lemma SliderAlwaysNear(score: int)
    requires 0 <= score <= 100
    ensures FindNear(score, Emotions).Some?
    ensures Near(score, CurrentEmotion(score))
  {
    var j := (score + 12) / 25;
    assert Near(score, Emotions[j]);
  }

  /** Where two neighbouring emotions are both near, the lower one is shown: 11 to 14 read as
      Very Low, 36 to 39 as Low, 61 to 64 as Neutral and 86 to 89 as Good. */
  lemma OverlapPicksLower(score: int, i: nat)
    requires i + 1 < |Emotions|
    requires Near(score, Emotions[i]) && Near(score, Emotions[i + 1])
    ensures CurrentEmotion(score) == Emotions[i]
  {
    assert forall j :: 0 <= j < i ==> !Near(score, Emotions[j]);
  }

  /** Clicking an emoji sets the score to its value, and that emoji's own emotion is shown. */
  lemma ClickedEmotionShown(i: nat)
    requires i < |Emotions|
    ensures CurrentEmotion(Emotions[i].value) == Emotions[i]
  {
    assert forall j :: 0 <= j < i ==> !Near(Emotions[i].value, Emotions[j]);
  }

  /** What `fetch` did: it threw (with the error's message), or an answer came back. */
  datatype Outcome =
    | Threw(message: string)
    | Responded(status: nat, ok: bool, text: string)

  /** The fields of the parsed body that the form reads; an absent field is `None`. */
  datatype Body = Body(error: Option<string>, message: Option<string>)

  /** A toast: its title, its description and whether it is destructive. */
  datatype Toast = Toast(title: string, description: string, destructive: bool)

  /** The POST to `/api/mood`: the score sent and the `Authorization` header. */
  datatype Request = Request(url: string, score: int, authorization: string)

  /** What `onSuccess` receives. */
  datatype MoodData = MoodData(moodScore: int, note: string)

  const AuthRequired := Toast("Authentication required", "Please log in to track your mood", true)
  const Tracked := Toast("Mood tracked successfully!", "Your mood has been recorded.", false)
  const HtmlPhrase := "HTML instead of JSON"
  const ConfigError := "Server configuration error. Please check if the API is running correctly."

  /** `Bearer ${token}`: a missing token is interpolated as the text `null`. */
  function Authorization(token: Option<string>): string {
    "Bearer " + (if token.Some? then token.value else "null")
  }

  predicate LooksLikeHtml(text: string) {
    StartsWith(text, "<!DOCTYPE") || StartsWith(text, "<html")
  }

  function HtmlMessage(status: nat): string {
    "Server returned " + HtmlPhrase + ". Status: " + NatToString(status)
  }

  /** `responseText.substring(0, 100)`: at most 100 UTF-16 code units. */
  function Prefix100(text: string): string {
    Utf16Prefix(text, 100)
  }

  function ParseMessage(text: string): string {
    "Invalid JSON response: " + Prefix100(text) + "..."
  }

  /** `data.error || data.message || "Failed to track mood"`: empty strings are falsy. */
  function ServerMessage(b: Body): (r: string)
    ensures Present(b.error) ==> r == b.error.value
    ensures !Present(b.error) && Present(b.message) ==> r == b.message.value
    ensures !Present(b.error) && !Present(b.message) ==> r == "Failed to track mood"
  {
    if Present(b.error) then b.error.value
    else if Present(b.message) then b.message.value
    else "Failed to track mood"
  }

  /** The message of the error the `try` block ends with, `None` when it completes. */
  function Failure(outcome: Outcome, parse: string -> Option<Body>): Option<string> {
    match outcome
    case Threw(m) => Some(m)
    case Responded(status, ok, text) =>
      if LooksLikeHtml(text) then Some(HtmlMessage(status))
      else match parse(text)
        case None => Some(ParseMessage(text))
        case Some(b) => if !ok then Some(ServerMessage(b)) else None
  }

  /** The description of the error toast for a caught message. */
  function ErrorText(message: string): (r: string)
    ensures Includes(message, HtmlPhrase) ==> r == ConfigError
    ensures !Includes(message, HtmlPhrase) ==> r == message
  {
    if Includes(message, HtmlPhrase) then ConfigError else message
  }

  /** The submission succeeds exactly when an answer came back that is not an HTML page, parses,
      and is ok. */
  lemma SucceedsIff(outcome: Outcome, parse: string -> Option<Body>)
    ensures Failure(outcome, parse).None? <==>
      outcome.Responded? && outcome.ok && !LooksLikeHtml(outcome.text) && parse(outcome.text).Some?
  {
  }

  /** The status is a run of digits after the fixed text, so the phrase is found in the message. */
  lemma HtmlMessageHasPhrase(status: nat)
    ensures Includes(HtmlMessage(status), HtmlPhrase)
  {
    var m := HtmlMessage(status);
    var head := "Server returned ";
    assert m == head + HtmlPhrase + (". Status: " + NatToString(status));
    assert m[16..36] == HtmlPhrase;
    assert OccursAt(m, HtmlPhrase, 16);
    IncludesIff(m, HtmlPhrase);
  }

  /** An HTML page fails the submission whatever the status, and the toast shows the configuration
      hint instead of the status. */
  lemma HtmlPageShowsConfigError(status: nat, ok: bool, text: string, parse: string -> Option<Body>)
    requires LooksLikeHtml(text)
    ensures Failure(Responded(status, ok, text), parse) == Some(HtmlMessage(status))
    ensures ErrorText(HtmlMessage(status)) == ConfigError
  {
    HtmlMessageHasPhrase(status);
  }

  /** A server message that mentions the phrase is replaced by the configuration hint too. */
  lemma ServerPhraseReplaced(status: nat, text: string, parse: string -> Option<Body>)
    requires !LooksLikeHtml(text) && parse(text).Some?
    requires Includes(ServerMessage(parse(text).value), HtmlPhrase)
    ensures ErrorText(Failure(Responded(status, false, text), parse).value) == ConfigError
  {
  }

  /** The form's state: the score, the loading flag, and what it has shown, requested, navigated
      to and reported so far. */
  class Form {
    var moodScore: int
    var isLoading: bool
    var toasts: seq<Toast>
    var requests: seq<Request>
    var navigations: seq<string>
    var reported: seq<MoodData>

    constructor ()
      ensures moodScore == 50 && !isLoading
      ensures toasts == [] && requests == [] && navigations == [] && reported == []
    {
      moodScore := 50;
      isLoading := false;
      toasts := [];
      requests := [];
      navigations := [];
      reported := [];
    }

    /** The emoji's click handler. */
    method Click(i: nat)
      requires i < |Emotions|
      modifies this
      ensures moodScore == Emotions[i].value
      ensures CurrentEmotion(moodScore) == Emotions[i]
      ensures isLoading == old(isLoading) && toasts == old(toasts) && requests == old(requests)
      ensures navigations == old(navigations) && reported == old(reported)
    {
      moodScore := Emotions[i].value;
      ClickedEmotionShown(i);
    }

    /** The slider's change handler; the slider only yields whole numbers from 0 to 100. */
    method Slide(value: int)
      requires 0 <= value <= 100
      modifies this
      ensures moodScore == value && Near(moodScore, CurrentEmotion(moodScore))
      ensures isLoading == old(isLoading) && toasts == old(toasts) && requests == old(requests)
      ensures navigations == old(navigations) && reported == old(reported)
    {
      moodScore := value;
      SliderAlwaysNear(value);
    }

    /** `handleSubmit`. Without a session: a destructive toast, a redirect to `/login`, no
        request. With one: the POST is made, the loading flag ends false, and the answer either
        yields the success toast and one `onSuccess` report with the score and an empty note
        (when a callback is given), or an error toast whose text is `ErrorText` of the failure. */
    method HandleSubmit(isAuthenticated: bool, token: Option<string>, outcome: Outcome,
                        parse: string -> Option<Body>, hasOnSuccess: bool)
      modifies this
      ensures moodScore == old(moodScore)
      ensures !isAuthenticated ==>
        && toasts == old(toasts) + [AuthRequired]
        && navigations == old(navigations) + ["/login"]
        && requests == old(requests) && reported == old(reported) && isLoading == old(isLoading)
      ensures isAuthenticated ==>
        && requests == old(requests) + [Request("/api/mood", moodScore, Authorization(token))]
        && navigations == old(navigations)
        && !isLoading
      ensures isAuthenticated && Failure(outcome, parse).None? ==>
        && toasts == old(toasts) + [Tracked]
        && reported == old(reported) + (if hasOnSuccess then [MoodData(moodScore, "")] else [])
      ensures isAuthenticated && Failure(outcome, parse).Some? ==>
        && toasts == old(toasts) + [Toast("Error", ErrorText(Failure(outcome, parse).value), true)]
        && reported == old(reported)
    {
      if !isAuthenticated {
        toasts := toasts + [AuthRequired];
        navigations := navigations + ["/login"];
        return;
      }
      isLoading := true;
      requests := requests + [Request("/api/mood", moodScore, Authorization(token))];
      var thrown: Option<string> := None;
      match outcome {
        case Threw(m) =>
          thrown := Some(m);
        case Responded(status, ok, text) =>
          if LooksLikeHtml(text) {
            thrown := Some(HtmlMessage(status));
          } else {
            var data := parse(text);
            if data.None? {
              thrown := Some(ParseMessage(text));
            } else if !ok {
              thrown := Some(ServerMessage(data.value));
            }
          }
      }
      if thrown.None? {
        toasts := toasts + [Tracked];
        if hasOnSuccess {
          reported := reported + [MoodData(moodScore, "")];
        }
      } else {
        var errorMessage := "Failed to track mood";
        if Includes(thrown.value, HtmlPhrase) {
          errorMessage := ConfigError;
        } else {
          errorMessage := thrown.value;
        }
        toasts := toasts + [Toast("Error", errorMessage, true)];
      }
      isLoading := false;
    }
  }
}
