/**
 * The email sign-in / sign-up card (src/components/auth/email-login-form.tsx):
 * the field rules of the two forms, the password strength and match
 * indicators, and the handlers that set the error, loading and mode state.
 *
 * A form shows, for each field, the message of the first rule the field
 * breaks. The email format rule is a library check and is a parameter here.
 */
module LoginForm {
  import opened Wrappers
  import opened Strings

  const EnterEmail := "이메일을 입력해주세요"
  const InvalidEmail := "올바른 이메일 형식이 아닙니다"
  const EnterPassword := "비밀번호를 입력해주세요"
  const PasswordTooShort := "비밀번호는 최소 6자 이상이어야 합니다"
  const PasswordNeedsLetterAndDigit := "비밀번호는 영문과 숫자를 포함해야 합니다"
  const EnterName := "이름을 입력해주세요"
  const NameTooShort := "이름은 최소 2자 이상이어야 합니다"
  const EnterConfirmation := "비밀번호 확인을 입력해주세요"
  const PasswordsDiffer := "비밀번호가 일치하지 않습니다"
  const SignInFailed := "로그인 중 오류가 발생했습니다"
  const SignUpFailed := "회원가입 중 오류가 발생했습니다"

  datatype LoginData = LoginData(email: string, password: string)
  datatype SignUpData = SignUpData(name: string, email: string, password: string, confirmPassword: string)

  /** The message shown under each field; `None` when the field is accepted. */
  datatype LoginErrors = LoginErrors(email: Option<string>, password: Option<string>)
  datatype SignUpErrors = SignUpErrors(name: Option<string>, email: Option<string>,
                                       password: Option<string>, confirmPassword: Option<string>)

  /** Required, then the email format. */
  function EmailError(email: string, isEmail: string -> bool): (r: Option<string>)
    ensures r.None? <==> email != [] && isEmail(email)
    ensures email == [] ==> r == Some(EnterEmail)
  {
    if |email| < 1 then Some(EnterEmail)
    else if !isEmail(email) then Some(InvalidEmail)
    else None
  }

  /** The sign-in password: required, then at least 6 characters. */
  function LoginPasswordError(password: string): (r: Option<string>)
    ensures r.None? <==> |password| >= 6
    ensures 0 < |password| < 6 ==> r == Some(PasswordTooShort)
  {
    if |password| < 1 then Some(EnterPassword)
    else if |password| < 6 then Some(PasswordTooShort)
    else None
  }

  /** The sign-up name: required, then at least 2 characters. */
  function NameError(name: string): (r: Option<string>)
    ensures r.None? <==> |name| >= 2
    ensures |name| == 1 ==> r == Some(NameTooShort)
  {
    if |name| < 1 then Some(EnterName)
    else if |name| < 2 then Some(NameTooShort)
    else None
  }

  /** The characters JavaScript's `.` does not match. */
  predicate IsLineTerminator(c: char) {
    c == '\n' || c == '\r' || c == '\U{2028}' || c == '\U{2029}'
  }

  predicate HasAsciiLetter(s: string) {
    exists i :: 0 <= i < |s| && IsAsciiLetter(s[i])
  }

  predicate HasDigit(s: string) {
    exists i :: 0 <= i < |s| && IsDigit(s[i])
  }

  /** The text before the first line terminator: all that `^(?=.*…)` can look at. */
  function FirstLine(s: string): (r: string)
    ensures |r| <= |s| && r == s[..|r|]
    ensures forall i :: 0 <= i < |r| ==> !IsLineTerminator(r[i])
  {
    if s == [] || IsLineTerminator(s[0]) then [] else [s[0]] + FirstLine(s[1..])
  }

  /** `/^(?=.*[a-zA-Z])(?=.*\d)/`: a letter and a digit, both on the first line. */
  predicate HasLetterAndDigit(s: string) {
    HasAsciiLetter(FirstLine(s)) && HasDigit(FirstLine(s))
  }

  /** The sign-up password: required, at least 6 characters, then a letter and a digit. */
  function SignUpPasswordError(password: string): (r: Option<string>)
    ensures r.None? <==> |password| >= 6 && HasLetterAndDigit(password)
    ensures |password| >= 6 && !HasLetterAndDigit(password) ==> r == Some(PasswordNeedsLetterAndDigit)
  {
    if |password| < 1 then Some(EnterPassword)
    else if |password| < 6 then Some(PasswordTooShort)
    else if !HasLetterAndDigit(password) then Some(PasswordNeedsLetterAndDigit)
    else None
  }

  /**
   * The confirmation: required, then equal to the password. The equality
   * rule belongs to the whole form and its message is attached to this field.
   */
  function ConfirmationError(password: string, confirmation: string): (r: Option<string>)
    ensures r.None? <==> confirmation != [] && confirmation == password
    ensures confirmation != [] && confirmation != password ==> r == Some(PasswordsDiffer)
  {
    if |confirmation| < 1 then Some(EnterConfirmation)
    else if password != confirmation then Some(PasswordsDiffer)
    else None
  }

  function ValidateLogin(data: LoginData, isEmail: string -> bool): LoginErrors {
    LoginErrors(EmailError(data.email, isEmail), LoginPasswordError(data.password))
  }

  function ValidateSignUp(data: SignUpData, isEmail: string -> bool): SignUpErrors {
    SignUpErrors(NameError(data.name), EmailError(data.email, isEmail),
                 SignUpPasswordError(data.password), ConfirmationError(data.password, data.confirmPassword))
  }

  predicate LoginAccepted(e: LoginErrors) {
    e.email.None? && e.password.None?
  }

  predicate SignUpAccepted(e: SignUpErrors) {
    e.name.None? && e.email.None? && e.password.None? && e.confirmPassword.None?
  }

  /** What the sign-up form lets through: every rule holds at once. */
  lemma SignUpAcceptedMeans(data: SignUpData, isEmail: string -> bool)
    ensures SignUpAccepted(ValidateSignUp(data, isEmail)) <==>
      |data.name| >= 2 && data.email != [] && isEmail(data.email)
      && |data.password| >= 6 && HasLetterAndDigit(data.password)
      && data.confirmPassword == data.password
  {
  }

  /** The three strength marks shown under a non-empty password. */
  datatype Strength = Strength(longEnough: bool, hasLetter: bool, hasDigit: bool)

  function StrengthMarks(password: string): (r: Option<Strength>)
    ensures r.Some? <==> password != []
    ensures r.Some? ==> r.value.longEnough == (|password| >= 6)
  {
    if password == [] then None
    else Some(Strength(|password| >= 6, HasAsciiLetter(password), HasDigit(password)))
  }

  lemma {:induction false} FirstLineOfSingleLine(s: string)
    requires forall i :: 0 <= i < |s| ==> !IsLineTerminator(s[i])
    ensures FirstLine(s) == s
  {
    if s != [] {
      FirstLineOfSingleLine(s[1..]);
    }
  }

  /**
   * For a password without line breaks, the sign-up rules accept it exactly
   * when all three strength marks are on.
   */
  lemma MarksAgreeWithRules(password: string)
    requires forall i :: 0 <= i < |password| ==> !IsLineTerminator(password[i])
    ensures SignUpPasswordError(password).None? <==>
      password != [] && StrengthMarks(password) == Some(Strength(true, true, true))
  {
    FirstLineOfSingleLine(password);
  }

  /** The rules never accept a password the marks would show as incomplete. */
  lemma RulesImplyMarks(password: string)
    requires SignUpPasswordError(password).None?
    ensures StrengthMarks(password) == Some(Strength(true, true, true))
  {
    var line := FirstLine(password);
    var i :| 0 <= i < |line| && IsAsciiLetter(line[i]);
    var j :| 0 <= j < |line| && IsDigit(line[j]);
    assert password[i] == line[i] && password[j] == line[j];
  }

  /** After a line break the marks and the rule part ways: "abcdef\n1" has all three marks and is refused. */
  lemma LineBreakHidesDigit()
    ensures StrengthMarks("abcdef\n1") == Some(Strength(true, true, true))
    ensures SignUpPasswordError("abcdef\n1") == Some(PasswordNeedsLetterAndDigit)
  {
    var s := "abcdef\n1";
    assert IsAsciiLetter(s[0]) && IsDigit(s[7]);
    FirstLineStopsAtBreak("abcdef", "1");
    var line := FirstLine(s);
    assert forall i :: 0 <= i < |line| ==> !IsDigit(line[i]);
  }

  lemma {:induction false} FirstLineStopsAtBreak(line: string, rest: string)
    requires forall i :: 0 <= i < |line| ==> !IsLineTerminator(line[i])
    ensures FirstLine(line + "\n" + rest) == line
  {
    if line != [] {
      assert (line + "\n" + rest)[1..] == line[1..] + "\n" + rest;
      FirstLineStopsAtBreak(line[1..], rest);
    }
  }

  /** The live match line under the confirmation: shown when both fields are filled. */
  function MatchMark(password: string, confirmation: string): (r: Option<bool>)
    ensures r.Some? <==> password != [] && confirmation != []
    ensures r == Some(true) <==> password != [] && ConfirmationError(password, confirmation).None?
  {
    if password == [] || confirmation == [] then None else Some(password == confirmation)
  }

  datatype Mode = SignIn | SignUp

  function Toggled(m: Mode): (r: Mode)
    ensures r != m
  {
    if m == SignIn then SignUp else SignIn
  }

  /** The result of an auth call: no error, an error it returned, or an exception. */
  datatype AuthOutcome = Succeeded | Returned(message: string) | Threw

  const EmptyLogin := LoginData("", "")
  const EmptySignUp := SignUpData("", "", "", "")

  class EmailLoginCard {
    var mode: Mode
    var error: string
    var loading: bool
    var loginValues: LoginData
    var signUpValues: SignUpData

    constructor()
      ensures mode == SignIn && error == "" && !loading
      ensures loginValues == EmptyLogin && signUpValues == EmptySignUp
    {
      mode := SignIn;
      error := "";
      loading := false;
      loginValues := EmptyLogin;
      signUpValues := EmptySignUp;
    }

    /** `handleLogin`: clears the error, then records the failure if any; loading ends either way. */
    method HandleLogin(data: LoginData, outcome: AuthOutcome) returns (succeeded: bool)
      modifies this`error, this`loading
      ensures succeeded <==> outcome == Succeeded
      ensures outcome.Succeeded? ==> error == ""
      ensures outcome.Returned? ==> error == outcome.message
      ensures outcome.Threw? ==> error == SignInFailed
      ensures !loading
    {
      error := "";
      loading := true;
      succeeded := false;
      match outcome {
        case Returned(message) => error := message;
        case Threw => error := SignInFailed;
        case Succeeded => succeeded := true;
      }
      loading := false;
    }

    /**
     * `handleSignUp`: a confirmation that differs from the password sets the
     * error and ends loading without calling sign-up; otherwise sign-up is
     * called and its failure, if any, recorded.
     */
    method HandleSignUp(data: SignUpData, outcome: AuthOutcome) returns (signUpCalled: bool, emailSent: bool)
      modifies this`error, this`loading
      ensures signUpCalled <==> data.password == data.confirmPassword
      ensures !signUpCalled ==> error == PasswordsDiffer && !emailSent
      ensures signUpCalled ==> (emailSent <==> outcome.Succeeded?)
      ensures signUpCalled && outcome.Succeeded? ==> error == ""
      ensures signUpCalled && outcome.Returned? ==> error == outcome.message
      ensures signUpCalled && outcome.Threw? ==> error == SignUpFailed
      ensures !loading
    {
      error := "";
      loading := true;
      if data.password != data.confirmPassword {
        error := PasswordsDiffer;
        loading := false;
        return false, false;
      }
      signUpCalled := true;
      emailSent := false;
      match outcome {
        case Returned(message) => error := message;
        case Threw => error := SignUpFailed;
        case Succeeded => emailSent := true;
      }
      loading := false;
    }

    /** Submitting the sign-in form: the handler runs only when every field is accepted. */
    method SubmitLogin(isEmail: string -> bool, outcome: AuthOutcome)
      returns (errors: LoginErrors, signInCalled: bool, succeeded: bool)
      modifies this`error, this`loading
      ensures errors == ValidateLogin(loginValues, isEmail)
      ensures signInCalled <==> LoginAccepted(errors)
      ensures |loginValues.password| < 6 ==> !signInCalled
      ensures succeeded ==> signInCalled && outcome == Succeeded
      ensures !signInCalled ==> error == old(error) && loading == old(loading)
    {
      errors := ValidateLogin(loginValues, isEmail);
      signInCalled := LoginAccepted(errors);
      succeeded := false;
      if signInCalled {
        succeeded := HandleLogin(loginValues, outcome);
      }
    }

    /** Submitting the sign-up form: the handler runs only when every field is accepted. */
    method SubmitSignUp(isEmail: string -> bool, outcome: AuthOutcome)
      returns (errors: SignUpErrors, signUpCalled: bool)
      modifies this`error, this`loading
      ensures errors == ValidateSignUp(signUpValues, isEmail)
      ensures signUpCalled ==> SignUpAccepted(errors)
      ensures signUpCalled <==> SignUpAccepted(errors) && signUpValues.password == signUpValues.confirmPassword
      ensures !SignUpAccepted(errors) ==> error == old(error) && loading == old(loading)
    {
      errors := ValidateSignUp(signUpValues, isEmail);
      signUpCalled := false;
      if SignUpAccepted(errors) {
        var sent;
        signUpCalled, sent := HandleSignUp(signUpValues, outcome);
      }
    }

    /** The switch button: the other mode, no error, both forms back to empty. */
    method ToggleMode()
      modifies this`mode, this`error, this`loginValues, this`signUpValues
      ensures mode == Toggled(old(mode)) && error == ""
      ensures loginValues == EmptyLogin && signUpValues == EmptySignUp
    {
      mode := if mode == SignIn then SignUp else SignIn;
      error := "";
      loginValues := EmptyLogin;
      signUpValues := EmptySignUp;
    }
  }
}
