/**
 * The sign-up page: the client-side password rules, the password field's live error, and what
 * the page does with the answer of `POST /register`.
 */
module RegisterPage {
  import opened Wrappers
  import opened Client
  import Server

  const TooShort := "Password must be at least 8 characters long"
  const NoCapital := "Password must contain at least one capital letter"
  const NoNumber := "Password must contain at least one number"
  const NoSpecial := "Password must contain at least one special character"

  /** The 32 characters of the class `[!@#$%^&*()_+\-=\[\]{};':"\\|,.<>\/?`~]`. */
  const Specials := "!@#$%^&*()_+-=[]{};':\"\\|,.<>/?`~"

  predicate IsCapital(c: char) { 'A' <= c <= 'Z' }
  predicate IsDigit(c: char) { '0' <= c <= '9' }
  predicate IsSpecial(c: char) { c in Specials }

  /** `/[A-Z]/.test(pw)` */
  predicate HasCapital(pw: string) { exists i | 0 <= i < |pw| :: IsCapital(pw[i]) }
  /** `/[0-9]/.test(pw)` */
  predicate HasDigit(pw: string) { exists i | 0 <= i < |pw| :: IsDigit(pw[i]) }
  /** The special-character test. */
  predicate HasSpecial(pw: string) { exists i | 0 <= i < |pw| :: IsSpecial(pw[i]) }

  /** All four rules hold. */
  predicate Strong(pw: string) {
    |pw| >= 8 && HasCapital(pw) && HasDigit(pw) && HasSpecial(pw)
  }

  /** `validatePassword`: the message of the first rule `pw` breaks, or `''` if it breaks none. */
  function ValidatePassword(pw: string): (r: string)
    ensures r == "" <==> Strong(pw)
    ensures |pw| < 8 ==> r == TooShort
    ensures r in {"", TooShort, NoCapital, NoNumber, NoSpecial}
  {
    if |pw| < 8 then TooShort
    else if !HasCapital(pw) then NoCapital
    else if !HasDigit(pw) then NoNumber
    else if !HasSpecial(pw) then NoSpecial
    else ""
  }

  /** Each message is given exactly when its rule is the first one broken. */
  lemma RuleOrder(pw: string)
    ensures ValidatePassword(pw) == TooShort <==> |pw| < 8
    ensures ValidatePassword(pw) == NoCapital <==> |pw| >= 8 && !HasCapital(pw)
    ensures ValidatePassword(pw) == NoNumber <==> |pw| >= 8 && HasCapital(pw) && !HasDigit(pw)
    ensures ValidatePassword(pw) == NoSpecial <==>
      |pw| >= 8 && HasCapital(pw) && HasDigit(pw) && !HasSpecial(pw)
  {
    assert TooShort[14] != NoCapital[14] && TooShort[14] != NoNumber[14] && TooShort[14] != NoSpecial[14];
    assert NoCapital[35] != NoNumber[35] && NoCapital[35] != NoSpecial[35] && NoNumber[35] != NoSpecial[35];
  }

  /** A password the page lets through is never refused by the server as too short. */
  lemma AcceptedPasswordLongEnough(name: string, email: string, pw: string)
    requires ValidatePassword(pw) == ""
    ensures Server.RegisterGuard(Server.RegisterForm(Some(name), Some(email), Some(pw))) != Some(Server.WeakPassword)
    ensures |pw| >= 8
  {
  }

  /** "Passw0rd!" passes every rule. */
  lemma SamplePasswordStrong()
    ensures ValidatePassword("Passw0rd!") == ""
  {
    assert IsCapital("Passw0rd!"[0]) && IsDigit("Passw0rd!"[5]);
    assert "Passw0rd!"[8] == Specials[0];
  }

  const Registered := "Registration successful. You can now log in."
  const EmailInUse := "Email already exists"
  const RegistrationFailed := "Registration failed. Please try again."

  /** The form's state. */
  class Page {
    var name: string
    var email: string
    var password: string
    var passwordError: string
    var emailError: string
    var notice: Option<Notice>

    constructor ()
      ensures name == "" && email == "" && password == ""
      ensures passwordError == "" && emailError == "" && notice == None
    {
      name, email, password := "", "", "";
      passwordError, emailError, notice := "", "", None;
    }

    /** Typing in the e-mail field clears its error. */
    method SetEmail(value: string)
      modifies this
      ensures email == value && emailError == ""
      ensures name == old(name) && password == old(password) && passwordError == old(passwordError)
      ensures notice == old(notice)
    {
      email := value;
      emailError := "";
    }

    /** `handlePasswordChange`: an empty field shows no error, any other shows the first broken rule. */
    method HandlePasswordChange(value: string)
      modifies this
      ensures password == value
      ensures passwordError == (if |value| > 0 then ValidatePassword(value) else "")
      ensures name == old(name) && email == old(email) && emailError == old(emailError)
      ensures notice == old(notice)
    {
      password := value;
      if |value| > 0 {
        passwordError := ValidatePassword(value);
      } else {
        passwordError := "";
      }
    }

    /**
     * The synchronous part of `registerUser`: clear the e-mail error, then either show the
     * password's error and send nothing, or send the three fields.
     */
    method RegisterUser() returns (request: Option<Server.RegisterForm>)
      modifies this
      ensures emailError == ""
      ensures request.Some? <==> ValidatePassword(password) == ""
      ensures request.Some? ==>
        request.value == Server.RegisterForm(Some(name), Some(email), Some(password)) &&
        passwordError == old(passwordError)
      ensures request.None? ==> passwordError == ValidatePassword(password)
      ensures name == old(name) && email == old(email) && password == old(password)
      ensures notice == old(notice)
    {
      emailError := "";
      var pwError := ValidatePassword(password);
      if pwError != "" {
        passwordError := pwError;
        return None;
      }
      return Some(Server.RegisterForm(Some(name), Some(email), Some(password)));
    }

    /**
     * The rest of `registerUser`: success and every failure but `email_exists` raise a toast;
     * `email_exists` marks the e-mail field instead.
     */
    method OnRegisterReply(reply: Reply<Server.User>)
      modifies this
      ensures reply.Resolved? ==> notice == Some(Success(Registered)) && emailError == old(emailError)
      ensures reply.Rejected? && reply.error == Some("email_exists") ==>
        emailError == EmailInUse && notice == old(notice)
      ensures reply.Rejected? && reply.error != Some("email_exists") ==>
        notice == Some(Failure(MessageOr(reply.message, RegistrationFailed))) && emailError == old(emailError)
      ensures name == old(name) && email == old(email) && password == old(password)
      ensures passwordError == old(passwordError)
    {
      match reply
      case Resolved(_) =>
        notice := Some(Success(Registered));
      case Rejected(error, message) =>
        if error == Some("email_exists") {
          emailError := EmailInUse;
        } else {
          notice := Some(Failure(MessageOr(message, RegistrationFailed)));
        }
    }
  }
}
