/** The sign-in and registration forms: the guard chains that run before the authentication provider is called. */
module AuthPages {
  import opened Wrappers

  /** What the provider's signIn or signUp does: resolve, throw an Error with a message, or throw something else. */
  datatype ProviderOutcome = Resolved | ThrewError(message: string) | ThrewOther

  /** The text the catch block shows: the Error's message, or the fallback for anything else thrown. */
  function CaughtMessage(outcome: ProviderOutcome, fallback: string): string
    requires !outcome.Resolved?
  {
    if outcome.ThrewError? then outcome.message else fallback
  }

  /** JavaScript's `length` counts UTF-16 code units: two for a character outside the Basic Multilingual Plane. */
  function Utf16Length(s: string): (n: nat)
    ensures |s| <= n <= 2 * |s|
  {
    if s == [] then 0 else Utf16Length(s[..|s| - 1]) + (if s[|s| - 1] as int >= 0x10000 then 2 else 1)
  }

  const LoginRequired := "ALL FIELDS ARE REQUIRED"
  const RegisterRequired := "ALL FIELDS ARE BRUTAL REQUIRED"
  const PasswordsDiffer := "PASSWORDS DO NOT MATCH - BE MORE BRUTAL"
  const PasswordTooWeak := "PASSWORD TOO WEAK - NEEDS 6+ BRUTAL CHARACTERS"

  /** The login guard: both fields must be filled in. */
  function LoginRefusal(email: string, password: string): (e: Option<string>)
    ensures e.None? <==> email != "" && password != ""
    ensures e.Some? ==> e.value == LoginRequired
  {
    if email == "" || password == "" then Some(LoginRequired) else None
  }

  /** The registration guards, in order: a missing field, then a confirmation mismatch, then a short password. */
  function RegisterRefusal(email: string, password: string, confirmPassword: string, name: string): (e: Option<string>)
    ensures e.None? <==> email != "" && password != "" && confirmPassword != "" && name != ""
                         && password == confirmPassword && Utf16Length(password) >= 6
    ensures e == Some(RegisterRequired) <==> email == "" || password == "" || confirmPassword == "" || name == ""
    ensures e == Some(PasswordsDiffer) <==>
      email != "" && password != "" && confirmPassword != "" && name != "" && password != confirmPassword
    ensures e == Some(PasswordTooWeak) <==>
      email != "" && password != "" && confirmPassword != "" && name != "" && password == confirmPassword
      && Utf16Length(password) < 6
  {
    if email == "" || password == "" || confirmPassword == "" || name == "" then Some(RegisterRequired)
    else if password != confirmPassword then Some(PasswordsDiffer)
    else if Utf16Length(password) < 6 then Some(PasswordTooWeak)
    else None
  }

  /** The length guard compares code units: a password of three astral characters is long enough. */
  lemma AstralCharactersCountTwice()
    ensures RegisterRefusal("a@b.c", "\U{1F600}\U{1F600}\U{1F600}", "\U{1F600}\U{1F600}\U{1F600}", "N").None?
  {
    var p := "\U{1F600}\U{1F600}\U{1F600}";
    assert |p| == 3;
    assert p[..2][..1] == p[..1];
    assert p[..|p| - 1] == p[..2];
    assert Utf16Length(p[..1]) == 2;
    assert Utf16Length(p[..2]) == 4;
  }

  class LoginForm {
    var email: string
    var password: string
    var error: string
    var loading: bool

    constructor ()
      ensures email == "" && password == "" && error == "" && !loading
    {
      email := "";
      password := "";
      error := "";
      loading := false;
    }

    /** handleSubmit: a refused form never reaches signIn; loading always ends false. */
    method HandleSubmit(outcome: ProviderOutcome) returns (signInCalled: bool, destination: Option<string>)
      modifies this`error, this`loading
      ensures !loading
      ensures signInCalled <==> LoginRefusal(email, password).None?
      ensures !signInCalled ==> destination.None? && error == LoginRequired
      ensures signInCalled && outcome.Resolved? ==> destination == Some("/") && error == ""
      ensures signInCalled && !outcome.Resolved? ==> destination.None? && error == CaughtMessage(outcome, "INVALID CREDENTIALS")
    {
      error := "";
      loading := true;
      var refusal := LoginRefusal(email, password);
      if refusal.Some? {
        error := refusal.value;
        loading := false;
        return false, None;
      }
      signInCalled := true;
      if outcome.Resolved? {
        destination := Some("/");
      } else {
        error := CaughtMessage(outcome, "INVALID CREDENTIALS");
        destination := None;
      }
      loading := false;
    }
  }

  class RegisterForm {
    var email: string
    var password: string
    var confirmPassword: string
    var name: string
    var error: string
    var loading: bool
    var success: bool

    constructor ()
      ensures email == "" && password == "" && confirmPassword == "" && name == ""
      ensures error == "" && !loading && !success
    {
      email := "";
      password := "";
      confirmPassword := "";
      name := "";
      error := "";
      loading := false;
      success := false;
    }

    /** handleSubmit: signUp is reached only when every guard passes; a success later leads to the login page. */
    method HandleSubmit(outcome: ProviderOutcome) returns (signUpCalled: bool)
      modifies this`error, this`loading, this`success
      ensures !loading
      ensures signUpCalled <==> RegisterRefusal(email, password, confirmPassword, name).None?
      ensures !signUpCalled ==> error == RegisterRefusal(email, password, confirmPassword, name).value && success == old(success)
      ensures signUpCalled && outcome.Resolved? ==> success && error == ""
      ensures signUpCalled && !outcome.Resolved? ==>
        success == old(success) && error == CaughtMessage(outcome, "REGISTRATION FAILED - TRY AGAIN")
    {
      error := "";
      loading := true;
      var refusal := RegisterRefusal(email, password, confirmPassword, name);
      if refusal.Some? {
        error := refusal.value;
        loading := false;
        return false;
      }
      signUpCalled := true;
      if outcome.Resolved? {
        success := true;
      } else {
        error := CaughtMessage(outcome, "REGISTRATION FAILED - TRY AGAIN");
      }
      loading := false;
    }
  }
}
