/**
 * backend/src/utils/emailService.ts: the check of the mail settings in the environment, the SMTP
 * transport options read from it, and the password-reset mail. The transport itself (nodemailer)
 * is outside the model; whether a send succeeded is an input of the callers.
 */
module Email {
  import opened Wrappers
  import opened Text
  import opened Seqs

  /** `process.env`: a name that is absent is `undefined`. */
  type Env = map<string, string>

  /** A variable counts as set when it is present and not the empty string (JavaScript truthiness). */
  predicate IsSet(env: Env, name: string) {
    name in env && env[name] != ""
  }

  /** `process.env[name]` as an optional value. */
  function Lookup(env: Env, name: string): (r: Option<string>)
    ensures r.Some? <==> name in env
    ensures r.Some? ==> r.value == env[name]
  {
    if name in env then Some(env[name]) else None
  }

  const RequiredVars: seq<string> :=
    ["EMAIL_HOST", "EMAIL_PORT", "EMAIL_USER", "EMAIL_PASSWORD", "EMAIL_FROM", "FRONTEND_URL"]

  /** `names.filter(varName => !process.env[varName])`. */
  function MissingFrom(names: seq<string>, env: Env): (r: seq<string>)
    ensures forall i :: 0 <= i < |r| ==> !IsSet(env, r[i])
    ensures forall i :: 0 <= i < |names| && !IsSet(env, names[i]) ==> names[i] in r
  {
    Filter(names, (name: string) => !IsSet(env, name))
  }

  /** The names reported are exactly the unset ones, in their declared order. */
  lemma MissingExactly(names: seq<string>, env: Env)
    ensures forall n :: n in MissingFrom(names, env) <==> n in names && !IsSet(env, n)
    ensures Subsequence(MissingFrom(names, env), names)
  {
    var p := (name: string) => !IsSet(env, name);
    FilterIsSubsequence(names, p);
    forall n | n in MissingFrom(names, env)
      ensures n in names
    {
      assert n in multiset(MissingFrom(names, env));
    }
  }

  datatype ConfigCheck = ConfigOk | ConfigMissing(message: string)

  /** Throws, naming every missing variable joined by ", ", or passes. */
  function ValidateConfig(names: seq<string>, env: Env): ConfigCheck {
    var missing := MissingFrom(names, env);
    if |missing| > 0 then ConfigMissing("Missing required environment variables: " + Join(missing, ", "))
    else ConfigOk
  }

  /** The check passes exactly when every name is set; when it fails, the message lists exactly the
      unset names, in declared order. */
  lemma ValidateConfigIff(names: seq<string>, env: Env)
    ensures ValidateConfig(names, env).ConfigOk? <==> forall i :: 0 <= i < |names| ==> IsSet(env, names[i])
    ensures ValidateConfig(names, env).ConfigMissing? ==>
      var missing := MissingFrom(names, env);
      && ValidateConfig(names, env).message == "Missing required environment variables: " + Join(missing, ", ")
      && (forall n :: n in missing <==> n in names && !IsSet(env, n))
      && Subsequence(missing, names)
  {
    MissingExactly(names, env);
    var missing := MissingFrom(names, env);
    if missing != [] {
      assert missing[0] in names;
    }
  }

  /** `validateEmailConfig`. */
  function ValidateEmailConfig(env: Env): ConfigCheck {
    ValidateConfig(RequiredVars, env)
  }

  /** The value of one digit in base 10 or 16, if it is one. */
  function DigitValue(c: char, radix: nat): (r: Option<nat>)
    ensures r.Some? ==> r.value < radix
  {
    if '0' <= c <= '9' && (c as int) - ('0' as int) < radix then Some((c as int) - ('0' as int))
    else if radix == 16 && 'a' <= c <= 'f' then Some((c as int) - ('a' as int) + 10)
    else if radix == 16 && 'A' <= c <= 'F' then Some((c as int) - ('A' as int) + 10)
    else None
  }

  /** Length of the longest prefix of `s` made of digits. */
  function DigitRun(s: string, radix: nat): (k: nat)
    ensures k <= |s|
    ensures forall i :: 0 <= i < k ==> DigitValue(s[i], radix).Some?
    ensures k < |s| ==> DigitValue(s[k], radix).None?
  {
    if s == [] || DigitValue(s[0], radix).None? then 0 else 1 + DigitRun(s[1..], radix)
  }

  /** The number a string of digits denotes. */
  function DigitsValue(ds: string, radix: nat): nat
    requires forall i :: 0 <= i < |ds| ==> DigitValue(ds[i], radix).Some?
  {
    if ds == [] then 0
    else DigitsValue(ds[..|ds| - 1], radix) * radix + DigitValue(ds[|ds| - 1], radix).value
  }

  /** The digits at the start of `v` in the given base, or None (`NaN`) when there are none. */
  function ParseDigits(v: string, radix: nat): (r: Option<int>)
    ensures r.None? <==> DigitRun(v, radix) == 0
    ensures r.Some? ==> r.value >= 0
  {
    var k := DigitRun(v, radix);
    if k == 0 then None else Some(DigitsValue(v[..k], radix))
  }

  /** A `0x` or `0X` prefix selects base 16, anything else base 10. */
  function ParseRadix(u: string): Option<int> {
    if |u| >= 2 && u[0] == '0' && (u[1] == 'x' || u[1] == 'X') then ParseDigits(u[2..], 16)
    else ParseDigits(u, 10)
  }

  function Negate(o: Option<int>): Option<int> {
    match o
    case None => None
    case Some(n) => Some(-n)
  }

  /** An optional sign in front of the number. */
  function ParseSigned(t: string): Option<int> {
    if t != [] && t[0] == '-' then Negate(ParseRadix(t[1..]))
    else if t != [] && t[0] == '+' then ParseRadix(t[1..])
    else ParseRadix(t)
  }

  /**
   * JavaScript's `parseInt(s)` without a radix: leading whitespace skipped, an optional sign, a
   * `0x`/`0X` prefix selecting base 16, then the longest run of digits; no digits is `NaN` (None).
   */
  function ParseInt(s: string): Option<int> {
    ParseSigned(TrimStart(s))
  }

  /** The digits `NatToString` writes denote the number again. */
  lemma {:induction false} DigitsOfNatToString(n: nat)
    ensures forall i :: 0 <= i < |NatToString(n)| ==> DigitValue(NatToString(n)[i], 10).Some?
    ensures DigitsValue(NatToString(n), 10) == n
  {
    var s := NatToString(n);
    if n >= 10 {
      DigitsOfNatToString(n / 10);
      assert s[..|s| - 1] == NatToString(n / 10);
    }
  }

  lemma {:induction false} DigitRunAll(s: string, radix: nat)
    requires forall i :: 0 <= i < |s| ==> DigitValue(s[i], radix).Some?
    ensures DigitRun(s, radix) == |s|
  {
    if s != [] {
      DigitRunAll(s[1..], radix);
    }
  }

  predicate Decimal(s: string) {
    s != [] && forall i :: 0 <= i < |s| ==> '0' <= s[i] <= '9'
  }

  lemma DecimalDigits(s: string)
    requires Decimal(s)
    ensures forall i :: 0 <= i < |s| ==> DigitValue(s[i], 10).Some?
  {
  }

  lemma DecimalUntrimmed(s: string)
    requires Decimal(s)
    ensures TrimStart(s) == s
  {
    assert !IsWhitespace(s[0]);
  }

  lemma DecimalUnsigned(s: string)
    requires Decimal(s)
    ensures ParseSigned(s) == ParseDigits(s, 10)
  {
    assert s[0] != '-' && s[0] != '+';
    assert |s| >= 2 ==> s[1] != 'x' && s[1] != 'X';
  }

  lemma ParseDigitsWhole(s: string, radix: nat)
    requires s != [] && forall i :: 0 <= i < |s| ==> DigitValue(s[i], radix).Some?
    ensures ParseDigits(s, radix) == Some(DigitsValue(s, radix))
  {
    DigitRunAll(s, radix);
    assert s[..|s|] == s;
  }

  /** A non-empty run of decimal digits parses to the number it denotes. */
  lemma ParseIntOfDigits(s: string)
    requires Decimal(s)
    ensures forall i :: 0 <= i < |s| ==> DigitValue(s[i], 10).Some?
    ensures ParseInt(s) == Some(DigitsValue(s, 10))
  {
    DecimalDigits(s);
    DecimalUntrimmed(s);
    DecimalUnsigned(s);
    ParseDigitsWhole(s, 10);
  }

  /** `parseInt` reads back what `String(n)` prints. */
  lemma ParseIntOfNatToString(n: nat)
    ensures ParseInt(NatToString(n)) == Some(n)
  {
    DigitsOfNatToString(n);
    ParseIntOfDigits(NatToString(n));
  }

  /** `parseInt(process.env.EMAIL_PORT || '587')`. */
  function SmtpPort(env: Env): (r: Option<int>)
  {
    ParseInt(if IsSet(env, "EMAIL_PORT") then env["EMAIL_PORT"] else "587")
  }

  lemma DefaultPortDigits()
    ensures Decimal("587")
    ensures forall i :: 0 <= i < 3 ==> DigitValue("587"[i], 10).Some?
  {
    var s := "587";
    assert s[0] == '5' && s[1] == '8' && s[2] == '7';
  }

  lemma DefaultPortValue()
    ensures forall i :: 0 <= i < 3 ==> DigitValue("587"[i], 10).Some?
    ensures DigitsValue("587", 10) == 587
  {
    DefaultPortDigits();
    var s := "587";
    assert s[..2] == "58" && s[..1] == "5";
    assert DigitsValue("5", 10) == 5;
    assert DigitsValue("58", 10) == 58;
  }

  lemma DefaultPortText()
    ensures ParseInt("587") == Some(587)
  {
    DefaultPortDigits();
    ParseIntOfDigits("587");
    DefaultPortValue();
  }

  /** Without `EMAIL_PORT` the port is 587; a port written in decimal is read as written. */
  lemma SmtpPortDefault(env: Env, n: nat)
    ensures !IsSet(env, "EMAIL_PORT") ==> SmtpPort(env) == Some(587)
    ensures IsSet(env, "EMAIL_PORT") && env["EMAIL_PORT"] == NatToString(n) ==> SmtpPort(env) == Some(n)
  {
    ParseIntOfNatToString(n);
    DefaultPortText();
  }

  /** The options `createTransporter` passes to nodemailer; `port` None stands for `NaN`. */
  datatype TransportOptions = TransportOptions(
    host: Option<string>, port: Option<int>, secure: bool,
    user: Option<string>, pass: Option<string>, rejectUnauthorized: bool)

  function Transport(env: Env): (r: TransportOptions)
    ensures r.host == Lookup(env, "EMAIL_HOST") && r.port == SmtpPort(env)
    ensures r.user == Lookup(env, "EMAIL_USER") && r.pass == Lookup(env, "EMAIL_PASSWORD")
    ensures !r.secure && !r.rejectUnauthorized
  {
    TransportOptions(Lookup(env, "EMAIL_HOST"), SmtpPort(env), false,
      Lookup(env, "EMAIL_USER"), Lookup(env, "EMAIL_PASSWORD"), false)
  }

  datatype MailOptions = MailOptions(from: Option<string>, to: string, subject: string, html: string)

  const HtmlOpen: string :=
    "\n        <div style=\"font-family: Arial, sans-serif; max-width: 600px; margin: 0 auto;\">\n          <h2 style=\"color: #333;\">Hi "
  const HtmlAfterName: string :=
    ",</h2>\n          <p>You requested a password reset for your AI Therapist account.</p>\n          <p>Click the button below to reset your password:</p>\n          <a href=\""
  const HtmlAfterLink: string :=
    "\" \n             style=\"background-color: #007bff; color: white; padding: 12px 24px; text-decoration: none; border-radius: 5px; display: inline-block; margin: 20px 0;\">\n            Reset Password\n          </a>\n          <p><strong>"
  const ExpiryNotice: string := "This link will expire in 15 minutes."
  const HtmlAfterExpiry: string :=
    "</strong></p>\n          <p>If you didn't request this password reset, please ignore this email.</p>\n          <hr>\n          <p style=\"font-size: 12px; color: #666;\">\n            If the button doesn't work, copy and paste this link: "
  const HtmlClose: string :=
    "\n          </p>\n        </div>\n      "

  /** The literal pieces of the mail body, in order, between which the name and the link go. */
  datatype Template = Template(open: string, afterName: string, afterLink: string, expiry: string,
                               afterExpiry: string, close: string)

  const ResetTemplate := Template(HtmlOpen, HtmlAfterName, HtmlAfterLink, ExpiryNotice, HtmlAfterExpiry, HtmlClose)

  /** The mail body: greeting by name, the link as a button, the expiry notice, the link again. */
  function ResetHtml(t: Template, userName: string, resetUrl: string): string {
    t.open + userName + t.afterName + resetUrl + t.afterLink + t.expiry + t.afterExpiry + resetUrl + t.close
  }

  /** The `mailOptions` of `sendResetEmail`. */
  function ResetMail(env: Env, email: string, resetUrl: string, userName: string): (r: MailOptions)
    ensures r.to == email && r.from == Lookup(env, "EMAIL_FROM")
    ensures r.subject == "Password Reset Request - AI Therapist"
    ensures r.html == ResetHtml(ResetTemplate, userName, resetUrl)
  {
    MailOptions(Lookup(env, "EMAIL_FROM"), email, "Password Reset Request - AI Therapist",
      ResetHtml(ResetTemplate, userName, resetUrl))
  }

  /** The notice under the button names the 15-minute lifetime of the link. */
  lemma ExpiryNoticeNames15Minutes()
    ensures ResetTemplate.expiry == ExpiryNotice
    ensures Includes(ExpiryNotice, "15 minutes")
  {
    assert OccursAt(ExpiryNotice, "15 minutes", 25);
    IncludesIff(ExpiryNotice, "15 minutes");
  }

  /** Where each piece of a nine-part concatenation starts. */
  lemma {:induction false} PiecePositions(a: string, name: string, b: string, url: string, c: string,
                                          e: string, d: string, f: string)
    ensures var html := a + name + b + url + c + e + d + url + f;
      && OccursAt(html, name, |a|)
      && OccursAt(html, url, |a| + |name| + |b|)
      && OccursAt(html, e, |a| + |name| + |b| + |url| + |c|)
      && OccursAt(html, url, |a| + |name| + |b| + |url| + |c| + |e| + |d|)
  {
    var html := a + name + b + url + c + e + d + url + f;
    var i1 := |a|;
    var i2 := i1 + |name| + |b|;
    var i3 := i2 + |url| + |c|;
    var i4 := i3 + |e| + |d|;
    assert html[i1..i1 + |name|] == name;
    assert html[i2..i2 + |url|] == url;
    assert html[i3..i3 + |e|] == e;
    assert html[i4..i4 + |url|] == url;
  }

  /** An occurrence inside an occurrence. */
  lemma OccursWithin(s: string, e: string, w: string, i: int, k: int)
    requires OccursAt(s, e, i) && OccursAt(e, w, k)
    ensures OccursAt(s, w, i + k)
  {
    forall t | 0 <= t < |w|
      ensures s[i + k + t] == w[t]
    {
      assert s[i + k + t] == s[i..i + |e|][k + t];
    }
  }

  /** The body greets the user by name, carries the link at two separate places, and keeps what
      the expiry notice says. */
  lemma ResetHtmlContents(t: Template, userName: string, resetUrl: string, words: string)
    requires Includes(t.expiry, words)
    ensures var html := ResetHtml(t, userName, resetUrl);
      && OccursAt(html, userName, |t.open|)
      && (exists i, j :: i + |resetUrl| <= j && OccursAt(html, resetUrl, i) && OccursAt(html, resetUrl, j))
      && Includes(html, words)
  {
    var html := ResetHtml(t, userName, resetUrl);
    PiecePositions(t.open, userName, t.afterName, resetUrl, t.afterLink, t.expiry, t.afterExpiry, t.close);
    var i := |t.open| + |userName| + |t.afterName|;
    var j := i + |resetUrl| + |t.afterLink| + |t.expiry| + |t.afterExpiry|;
    assert OccursAt(html, resetUrl, i) && OccursAt(html, resetUrl, j);
    IncludesIff(t.expiry, words);
    var k :| OccursAt(t.expiry, words, k);
    OccursWithin(html, t.expiry, words, i + |resetUrl| + |t.afterLink|, k);
    IncludesIff(html, words);
  }
}
