/**
 * The login page: the arithmetic CAPTCHA it shows, the check of the typed
 * answer before any credentials are sent, the messages it leaves after a
 * failed attempt, and the redirect of a signed-in visitor. The two random
 * operands of each new CAPTCHA are parameters.
 */
module LoginPage {
  import opened Wrappers
  import Numbers
  import Text
  import Session
  import Access

  const IncorrectCaptcha := "Incorrect CAPTCHA. Please try again."
  const InvalidCredentials := "Invalid credentials. Please try again."

  /** A CAPTCHA operand: `Math.floor(Math.random() * 10) + 1` is one of 1..10. */
  predicate Operand(n: int) {
    1 <= n <= 10
  }

  /** The form's state hooks. */
  datatype LoginState = LoginState(
    email: string,
    password: string,
    error: string,
    captchaQuestion: string,
    captchaAnswer: int,
    userCaptchaInput: string,
    captchaError: string)

  /** The state before the mount effect: every text empty, the answer 0. */
  const Initial := LoginState("", "", "", "", 0, "", "")

  /** The question shown for the operands, "n1 + n2 = ?". */
  function Question(n1: nat, n2: nat): string {
    Numbers.NatToString(n1) + " + " + Numbers.NatToString(n2) + " = ?"
  }

  /**
   * The typed answer passes when `parseInt` of it, called without a radix,
   * equals the expected sum (NaN never does); "0x" in front of the digits
   * makes them hexadecimal.
   */
  predicate CaptchaAccepted(input: string, answer: int)
    ensures Numbers.ParseIntAutoRadix(input).None? ==> !CaptchaAccepted(input, answer)
    ensures !Numbers.HasHexPrefix(Numbers.Unsigned(input)) ==>
      (CaptchaAccepted(input, answer) <==> Numbers.ParseInt(input) == Some(answer))
  {
    Numbers.ParseIntAutoRadix(input) == Some(answer)
  }

  /**
   * `generateCaptcha`: a new question whose answer is the sum of the two
   * operands, the typed answer and the CAPTCHA message cleared. The empty
   * input it leaves is never an accepted answer.
   */
  function GenerateCaptcha(s: LoginState, n1: int, n2: int): (r: LoginState)
    requires Operand(n1) && Operand(n2)
    ensures 2 <= r.captchaAnswer <= 20 && r.captchaAnswer == n1 + n2
    ensures r.captchaQuestion == Question(n1, n2)
    ensures r.userCaptchaInput == "" && r.captchaError == ""
    ensures !CaptchaAccepted(r.userCaptchaInput, r.captchaAnswer)
    ensures r.email == s.email && r.password == s.password && r.error == s.error
  {
    Numbers.ParseIntWithoutDigits("");
    s.(captchaQuestion := Question(n1, n2), captchaAnswer := n1 + n2, userCaptchaInput := "", captchaError := "")
  }

  /** The page after its mount effect: a first CAPTCHA and nothing else. */
  function Mounted(n1: int, n2: int): (r: LoginState)
    requires Operand(n1) && Operand(n2)
    ensures r.email == "" && r.password == "" && r.error == ""
    ensures r.captchaAnswer == n1 + n2 && r.userCaptchaInput == "" && r.captchaError == ""
  {
    GenerateCaptcha(Initial, n1, n2)
  }

  /** Typing the decimal sum is accepted, as are the `parseInt` leniencies: leading spaces, a "+" sign, trailing text. */
  lemma AnswerAccepted(n1: int, n2: int, suffix: string)
    requires Operand(n1) && Operand(n2)
    requires suffix == [] || !Numbers.IsDigit(suffix[0])
    ensures CaptchaAccepted(Numbers.NatToString(n1 + n2), n1 + n2)
    ensures CaptchaAccepted(" +" + Numbers.NatToString(n1 + n2) + suffix, n1 + n2)
  {
    var d := Numbers.NatToString(n1 + n2);
    Numbers.ParseIntAutoRadixToString(n1 + n2);
    assert Numbers.IntToString(n1 + n2) == d;
    Numbers.NatToStringLeading(n1 + n2);
    ParseSignedDigits(d, suffix);
  }

  /** `parseInt` of a space, a "+" sign, digits and a non-digit tail reads the digits. */
  lemma ParseSignedDigits(d: string, suffix: string)
    requires d != [] && Numbers.AllDigits(d)
    requires suffix == [] || !Numbers.IsDigit(suffix[0])
    requires d[0] != '0'
    ensures Numbers.ParseIntAutoRadix(" +" + d + suffix) == Some(Numbers.DigitsValue(d))
  {
    var body := d + suffix;
    var s := " +" + body;
    assert " +" + d + suffix == s;
    SpacePlusRead(body);
    assert body[0] == d[0];
    LeadingDigitsBeforeSuffix(d, suffix);
    Numbers.DecimalRead(s, d);
  }

  /** After " +", `parseInt` reads from the rest, with no minus sign. */
  lemma SpacePlusRead(rest: string)
    ensures Numbers.Unsigned(" +" + rest) == rest && !Numbers.Negative(" +" + rest)
  {
    var t := "+" + rest;
    assert " +" + rest == " " + t;
    TrimStartPlus(t);
    assert t[1..] == rest;
  }

  lemma TrimStartPlus(t: string)
    requires t != [] && t[0] == '+'
    ensures Text.TrimStart(" " + t) == t
  {
    assert (" " + t)[1..] == t;
  }

  lemma {:induction false} LeadingDigitsBeforeSuffix(d: string, suffix: string)
    requires Numbers.AllDigits(d)
    requires suffix == [] || !Numbers.IsDigit(suffix[0])
    ensures Numbers.LeadingDigits(d + suffix) == d
    decreases |d|
  {
    if d == [] {
      assert d + suffix == suffix;
    } else {
      assert (d + suffix)[1..] == d[1..] + suffix;
      LeadingDigitsBeforeSuffix(d[1..], suffix);
      assert [d[0]] + d[1..] == d;
    }
  }

  /**
   * Without a radix, `parseInt` takes "0x11" as hexadecimal: that input answers
   * "8 + 9 = ?", while the decimal reading of the same text would be 0.
   */
  lemma HexAnswerAccepted()
    ensures CaptchaAccepted("0x11", 17)
    ensures !CaptchaAccepted("0x11", 0)
  {
    Numbers.HexPrefixScenarios();
  }

  /** An input without a digit is never accepted, whatever the expected sum. */
  lemma NonNumericRejected(input: string, answer: int)
    requires forall i :: 0 <= i < |input| ==> !Numbers.IsDigit(input[i])
    ensures !CaptchaAccepted(input, answer)
  {
    Numbers.ParseIntWithoutDigits(input);
  }

  /**
   * The synchronous part of `handleSubmit` as written: both messages cleared;
   * a wrong answer sets the CAPTCHA message and then draws a new CAPTCHA, which
   * clears that message again in the same update. The flag tells whether the
   * credentials are sent.
   */
  function SubmitCheckAsWritten(s: LoginState, n1: int, n2: int): (r: (LoginState, bool))
    requires Operand(n1) && Operand(n2)
    ensures r.1 <==> CaptchaAccepted(s.userCaptchaInput, s.captchaAnswer)
    ensures r.0.error == "" && r.0.captchaError == ""
    ensures r.1 ==> r.0 == s.(error := "", captchaError := "")
    ensures !r.1 ==> r.0.captchaAnswer == n1 + n2 && r.0.userCaptchaInput == ""
    ensures !r.1 ==> r.0.email == s.email && r.0.password == s.password
  {
    var cleared := s.(error := "", captchaError := "");
    if !CaptchaAccepted(s.userCaptchaInput, s.captchaAnswer) then
      (GenerateCaptcha(cleared.(captchaError := IncorrectCaptcha), n1, n2), false)
    else
      (cleared, true)
  }

  /** The alerts the form renders: the login message, then the CAPTCHA message, each only when non-empty. */
  function Alerts(s: LoginState): (r: seq<string>)
    ensures |r| <= 2
    ensures forall i :: 0 <= i < |r| ==> r[i] != ""
    ensures forall i :: 0 <= i < |r| ==> r[i] == s.error || r[i] == s.captchaError
    ensures r == [] <==> s.error == "" && s.captchaError == ""
    ensures s.error != "" ==> r[0] == s.error
    ensures s.captchaError != "" ==> r[|r| - 1] == s.captchaError
    ensures s.error != "" && s.captchaError != "" ==> |r| == 2
  {
    (if s.error != "" then [s.error] else []) + (if s.captchaError != "" then [s.captchaError] else [])
  }

  /** As written, a wrong CAPTCHA answer is refused without any message on screen. */
  lemma IncorrectCaptchaNeverShown(s: LoginState, n1: int, n2: int)
    requires Operand(n1) && Operand(n2)
    requires !CaptchaAccepted(s.userCaptchaInput, s.captchaAnswer)
    ensures !SubmitCheckAsWritten(s, n1, n2).1
    ensures SubmitCheckAsWritten(s, n1, n2).0.captchaError == ""
    ensures Alerts(SubmitCheckAsWritten(s, n1, n2).0) == []
  {
  }

  /**
   * The synchronous part of `handleSubmit` as intended: a wrong answer draws a
   * new CAPTCHA and leaves "Incorrect CAPTCHA. Please try again." on screen;
   * a right one clears both messages and sends the credentials.
   */
  function SubmitCheck(s: LoginState, n1: int, n2: int): (r: (LoginState, bool))
    requires Operand(n1) && Operand(n2)
    ensures r.1 <==> CaptchaAccepted(s.userCaptchaInput, s.captchaAnswer)
    ensures r.0.error == ""
    ensures r.1 ==> r.0 == s.(error := "", captchaError := "")
    ensures !r.1 ==> r.0.captchaError == IncorrectCaptcha && r.0.captchaAnswer == n1 + n2 && r.0.userCaptchaInput == ""
    ensures !r.1 ==> r.0.email == s.email && r.0.password == s.password
  {
    var cleared := s.(error := "", captchaError := "");
    if !CaptchaAccepted(s.userCaptchaInput, s.captchaAnswer) then
      (GenerateCaptcha(cleared, n1, n2).(captchaError := IncorrectCaptcha), false)
    else
      (cleared, true)
  }

  /** The corrected check differs from the written one only in the CAPTCHA message, which now shows. */
  lemma IncorrectCaptchaShown(s: LoginState, n1: int, n2: int)
    requires Operand(n1) && Operand(n2)
    requires !CaptchaAccepted(s.userCaptchaInput, s.captchaAnswer)
    ensures SubmitCheck(s, n1, n2).0 == SubmitCheckAsWritten(s, n1, n2).0.(captchaError := IncorrectCaptcha)
    ensures Alerts(SubmitCheck(s, n1, n2).0) == [IncorrectCaptcha]
  {
  }

  /**
   * After `await login(...)`: a refused login shows "Invalid credentials.
   * Please try again." with a new CAPTCHA; a successful one changes nothing.
   */
  function LoginOutcome(s: LoginState, success: bool, n1: int, n2: int): (r: LoginState)
    requires Operand(n1) && Operand(n2)
    ensures success ==> r == s
    ensures !success ==> r.error == InvalidCredentials && r.captchaError == "" && r.userCaptchaInput == ""
    ensures !success ==> r.captchaAnswer == n1 + n2 && r.email == s.email && r.password == s.password
  {
    if !success then GenerateCaptcha(s.(error := InvalidCredentials), n1, n2) else s
  }

  /**
   * Corrected: the whole submission with the CAPTCHA warning kept (`SubmitCheck`).
   * The CAPTCHA check with the operands `n1`, `n2` of the CAPTCHA drawn on
   * refusal, then, only for an accepted answer, the store's `login` with the
   * endpoints' answers, and its outcome with `m1`, `m2`. The page as written is
   * `SubmitStepAsWritten`.
   */
  function SubmitStep(
    s: LoginState, session: Session.SessionState,
    exchange: Session.ExchangeResult, profile: Session.ProfileResult,
    n1: int, n2: int, m1: int, m2: int): (r: (LoginState, Session.SessionState))
    requires Operand(n1) && Operand(n2) && Operand(m1) && Operand(m2)
    ensures !CaptchaAccepted(s.userCaptchaInput, s.captchaAnswer) ==>
      r.1 == session && r.0.captchaError == IncorrectCaptcha && r.0.error == "" && r.0.captchaAnswer == n1 + n2
    ensures CaptchaAccepted(s.userCaptchaInput, s.captchaAnswer) ==>
      r.1 == Session.LoginStep(session, exchange, profile).0
    ensures CaptchaAccepted(s.userCaptchaInput, s.captchaAnswer) && Session.LoginStep(session, exchange, profile).1 ==>
      r.0 == s.(error := "", captchaError := "")
    ensures CaptchaAccepted(s.userCaptchaInput, s.captchaAnswer) && !Session.LoginStep(session, exchange, profile).1 ==>
      r.0.error == InvalidCredentials && r.0.captchaError == "" && r.0.captchaAnswer == m1 + m2
  {
    var (checked, proceed) := SubmitCheck(s, n1, n2);
    if !proceed then (checked, session)
    else
      var (after, success) := Session.LoginStep(session, exchange, profile);
      (LoginOutcome(checked, success, m1, m2), after)
  }

  /**
   * The whole submission as written (`SubmitCheckAsWritten`): it differs from the
   * corrected `SubmitStep` only after a wrong answer, where no alert is left.
   */
  function SubmitStepAsWritten(
    s: LoginState, session: Session.SessionState,
    exchange: Session.ExchangeResult, profile: Session.ProfileResult,
    n1: int, n2: int, m1: int, m2: int): (r: (LoginState, Session.SessionState))
    requires Operand(n1) && Operand(n2) && Operand(m1) && Operand(m2)
    ensures !CaptchaAccepted(s.userCaptchaInput, s.captchaAnswer) ==>
      r.1 == session && Alerts(r.0) == [] && r.0.captchaAnswer == n1 + n2
    ensures CaptchaAccepted(s.userCaptchaInput, s.captchaAnswer) ==>
      r == SubmitStep(s, session, exchange, profile, n1, n2, m1, m2)
  {
    var (checked, proceed) := SubmitCheckAsWritten(s, n1, n2);
    if !proceed then (checked, session)
    else
      var (after, success) := Session.LoginStep(session, exchange, profile);
      (LoginOutcome(checked, success, m1, m2), after)
  }

  /**
   * A wrong CAPTCHA answer never reaches the credential exchange: the session is
   * untouched, as written and corrected. The alert clause holds only for the
   * corrected `SubmitStep`; as written no alert is left.
   */
  lemma WrongCaptchaKeepsSession(
    s: LoginState, session: Session.SessionState,
    exchange: Session.ExchangeResult, profile: Session.ProfileResult,
    n1: int, n2: int, m1: int, m2: int)
    requires Operand(n1) && Operand(n2) && Operand(m1) && Operand(m2)
    requires !CaptchaAccepted(s.userCaptchaInput, s.captchaAnswer)
    ensures SubmitStep(s, session, exchange, profile, n1, n2, m1, m2).1 == session
    ensures SubmitStepAsWritten(s, session, exchange, profile, n1, n2, m1, m2).1 == session
    ensures Alerts(SubmitStep(s, session, exchange, profile, n1, n2, m1, m2).0) == [IncorrectCaptcha]
    ensures Alerts(SubmitStepAsWritten(s, session, exchange, profile, n1, n2, m1, m2).0) == []
  {
  }

  /** Refused credentials after a right answer: the session is untouched and only the login message shows. */
  lemma RejectedCredentialsShown(
    s: LoginState, session: Session.SessionState, profile: Session.ProfileResult,
    n1: int, n2: int, m1: int, m2: int)
    requires Operand(n1) && Operand(n2) && Operand(m1) && Operand(m2)
    requires CaptchaAccepted(s.userCaptchaInput, s.captchaAnswer)
    ensures SubmitStep(s, session, Session.Rejected, profile, n1, n2, m1, m2).1 == session
    ensures Alerts(SubmitStep(s, session, Session.Rejected, profile, n1, n2, m1, m2).0) == [InvalidCredentials]
  {
  }

  /**
   * Granted credentials with a non-empty token and a profile: the session is
   * signed in, its last navigation is to the dashboard and no alert shows.
   */
  lemma GrantedSignsIn(
    s: LoginState, session: Session.SessionState, token: string, p: Session.Profile,
    n1: int, n2: int, m1: int, m2: int)
    requires Operand(n1) && Operand(n2) && Operand(m1) && Operand(m2)
    requires CaptchaAccepted(s.userCaptchaInput, s.captchaAnswer)
    requires token != ""
    ensures var r := SubmitStep(s, session, Session.Granted(token), Session.ProfileOk(p), n1, n2, m1, m2);
      && Session.Authenticated(r.1) && r.1.user == Some(p)
      && r.1.navigations == session.navigations + [Access.DashboardPath]
      && Alerts(r.0) == []
  {
  }

  /** The redirect effect and the render: a signed-in visitor is sent to the dashboard and sees no form. */
  function Redirect(isAuthenticated: bool): (r: Option<string>)
    ensures r.Some? <==> isAuthenticated
    ensures r.Some? ==> r.value == Access.DashboardPath
  {
    if isAuthenticated then Some(Access.DashboardPath) else None
  }

  /** The form as the page holds it. */
  class LoginForm {
    var email: string
    var password: string
    var error: string
    var captchaQuestion: string
    var captchaAnswer: int
    var userCaptchaInput: string
    var captchaError: string

    function State(): LoginState
      reads this
    {
      LoginState(email, password, error, captchaQuestion, captchaAnswer, userCaptchaInput, captchaError)
    }

    /** First render followed by the mount effect's CAPTCHA. */
    constructor (n1: int, n2: int)
      requires Operand(n1) && Operand(n2)
      ensures State() == Mounted(n1, n2)
    {
      email := "";
      password := "";
      error := "";
      captchaQuestion := Question(n1, n2);
      captchaAnswer := n1 + n2;
      userCaptchaInput := "";
      captchaError := "";
    }

    method ChangeEmail(value: string)
      modifies this
      ensures State() == old(State()).(email := value)
    {
      email := value;
    }

    method ChangePassword(value: string)
      modifies this
      ensures State() == old(State()).(password := value)
    {
      password := value;
    }

    method ChangeCaptchaInput(value: string)
      modifies this
      ensures State() == old(State()).(userCaptchaInput := value)
    {
      userCaptchaInput := value;
    }

    /** `generateCaptcha` on the form. */
    method Regenerate(n1: int, n2: int)
      requires Operand(n1) && Operand(n2)
      modifies this
      ensures State() == GenerateCaptcha(old(State()), n1, n2)
    {
      captchaQuestion := Question(n1, n2);
      captchaAnswer := n1 + n2;
      userCaptchaInput := "";
      captchaError := "";
      assert State() == old(State()).(captchaQuestion := Question(n1, n2), captchaAnswer := n1 + n2, userCaptchaInput := "", captchaError := "");
    }

    /**
     * `handleSubmit`, corrected so that the CAPTCHA message survives the new
     * CAPTCHA (`SubmitCheckAsWritten` is the code as written), against the
     * session store `session`, with the endpoints' answers as inputs.
     */
    method HandleSubmit(
      session: Session.AuthProvider,
      exchange: Session.ExchangeResult, profile: Session.ProfileResult,
      n1: int, n2: int, m1: int, m2: int)
      requires Operand(n1) && Operand(n2) && Operand(m1) && Operand(m2)
      modifies this, session
      ensures (State(), session.State()) == SubmitStep(old(State()), old(session.State()), exchange, profile, n1, n2, m1, m2)
    {
      error := "";
      captchaError := "";
      if Numbers.ParseIntAutoRadix(userCaptchaInput) != Some(captchaAnswer) {
        Regenerate(n1, n2);
        captchaError := IncorrectCaptcha;
        return;
      }
      var success := session.Login(email, password, exchange, profile);
      if !success {
        error := InvalidCredentials;
        Regenerate(m1, m2);
      }
    }
  }
}
