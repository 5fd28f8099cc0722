/** The sign-up form of frontend/app/signup/page.tsx: the strength rating, the
    client-side checks run on submit, and the error fields the input handler
    clears. The `register` call is an oracle: it succeeded, or it threw with
    an error whose `message` may be missing or empty. */
module SignUp {
  import opened Common

  /* ---------- the password strength meter ---------- */

  datatype Strength = Weak | Medium | Strong

  /** `passwordStrength`: more than 8 characters is strong, more than 4 medium. */
  function PasswordStrength(password: string): (r: Strength)
    ensures r == Strong <==> |password| > 8
    ensures r == Medium <==> 4 < |password| <= 8
    ensures r == Weak <==> |password| <= 4
  {
    if |password| > 8 then Strong else if |password| > 4 then Medium else Weak
  }

  /** A password of exactly 8 characters passes the length check yet rates medium. */
  lemma EightCharactersRateMedium(password: string)
    requires |password| == 8
    ensures PasswordStrength(password) == Medium && !(|password| < 8)
  {
  }

  /* ---------- the email pattern /^[^\s@]+@[^\s@]+\.[^\s@]+$/ ---------- */

  /** `\s` of JavaScript regular expressions: the ECMAScript white space and
      line terminator characters. */
  predicate IsSpace(c: char)
  {
    c == '\t' || c == '\n' || c == '\U{000B}' || c == '\U{000C}' || c == '\r' || c == ' ' ||
    c == '\U{00A0}' || c == '\U{1680}' || ('\U{2000}' <= c <= '\U{200A}') ||
    c == '\U{2028}' || c == '\U{2029}' || c == '\U{202F}' || c == '\U{205F}' || c == '\U{3000}' || c == '\U{FEFF}'
  }

  /** A character of the class `[^\s@]`. */
  predicate Plain(c: char)
  {
    !IsSpace(c) && c != '@'
  }

  predicate AllPlain(s: string)
  {
    forall k :: 0 <= k < |s| ==> Plain(s[k])
  }

  /** What the pattern denotes: the whole string is a non-empty run of plain
      characters, '@', a non-empty run, '.', and a non-empty run. */
  ghost predicate MatchesEmailPattern(s: string)
  {
    exists l: string, x: string, y: string ::
      s == l + "@" + x + "." + y && |l| > 0 && |x| > 0 && |y| > 0 && AllPlain(l) && AllPlain(x) && AllPlain(y)
  }

  /** A direct test: a plain local part up to the first '@', then a plain
      domain with a '.' neither first nor last. */
  function EmailValid(s: string): bool
  {
    var at := IndexOf(s, '@');
    0 < at < |s| && AllPlain(s[..at]) &&
    var d := s[at + 1..];
    AllPlain(d) && |d| >= 3 && '.' in d[1..|d| - 1]
  }

  lemma AllPlainConcat(a: string, b: string)
    requires AllPlain(a) && AllPlain(b)
    ensures AllPlain(a + b)
  {
    forall k | 0 <= k < |a + b| ensures Plain((a + b)[k]) {
      if k >= |a| { assert (a + b)[k] == b[k - |a|]; }
    }
  }

  lemma EmailValidIsMatch(s: string)
    requires EmailValid(s)
    ensures MatchesEmailPattern(s)
  {
    var at := IndexOf(s, '@');
    var d := s[at + 1..];
    var m := d[1..|d| - 1];
    var j :| 0 <= j < |m| && m[j] == '.';
    var dot := j + 1;
    var l, x, y := s[..at], d[..dot], d[dot + 1..];
    assert AllPlain(l) && AllPlain(x) && AllPlain(y);
    assert d == x + "." + y;
    assert s == l + "@" + x + "." + y by {
      assert s == l + "@" + d;
    }
  }

  lemma MatchIsEmailValid(s: string, l: string, x: string, y: string)
    requires s == l + "@" + x + "." + y && |l| > 0 && |x| > 0 && |y| > 0
    requires AllPlain(l) && AllPlain(x) && AllPlain(y)
    ensures EmailValid(s)
  {
    var at := |l|;
    assert s[at] == '@';
    assert forall k :: 0 <= k < at ==> s[k] == l[k];
    assert IndexOf(s, '@') == at;
    assert s[..at] == l;
    var d := s[at + 1..];
    assert d == x + "." + y;
    AllPlainConcat(x, ".");
    AllPlainConcat(x + ".", y);
    assert d[1..|d| - 1][|x| - 1] == '.';
  }

  /** The direct test accepts exactly the strings the pattern matches. */
  lemma EmailValidMatchesPattern(s: string)
    ensures EmailValid(s) <==> MatchesEmailPattern(s)
  {
    if EmailValid(s) {
      EmailValidIsMatch(s);
    }
    if MatchesEmailPattern(s) {
      var l: string, x: string, y: string :|
        s == l + "@" + x + "." + y && |l| > 0 && |x| > 0 && |y| > 0 && AllPlain(l) && AllPlain(x) && AllPlain(y);
      MatchIsEmailValid(s, l, x, y);
    }
  }

  /** No string with a space in it passes. */
  lemma SpaceRejected(s: string, k: nat)
    requires k < |s| && IsSpace(s[k])
    ensures !EmailValid(s)
  {
    var at := IndexOf(s, '@');
    if 0 < at < |s| {
      if k < at {
        assert s[..at][k] == s[k];
      } else if k > at {
        assert s[at + 1..][k - at - 1] == s[k];
      }
    }
  }

  /* ---------- the submit checks ---------- */

  function HasDigit(s: string): bool
  {
    exists k :: 0 <= k < |s| && '0' <= s[k] <= '9'
  }

  function HasLetter(s: string): bool
  {
    exists k :: 0 <= k < |s| && (('A' <= s[k] <= 'Z') || ('a' <= s[k] <= 'z'))
  }

  const InvalidEmail: string := "Please enter a valid email address."
  const PasswordTooShort: string := "Password must be at least 8 characters long."
  const PasswordComposition: string := "Password must include letters and numbers."
  const PasswordsDiffer: string := "Passwords do not match."
  const SignUpFailed: string := "Failed to create account"

  datatype Form = Form(name: string, email: string, password: string, confirmPassword: string)

  /** The messages of the three checks; every check runs on every submit. */
  datatype Checks = Checks(emailError: Option<string>, passwordError: Option<string>, confirmError: Option<string>)

  function Validate(f: Form): (c: Checks)
    ensures c.emailError.None? <==> EmailValid(f.email)
    ensures c.passwordError == Some(PasswordTooShort) <==> |f.password| < 8
    ensures c.passwordError == Some(PasswordComposition) <==>
      |f.password| >= 8 && !(HasDigit(f.password) && HasLetter(f.password))
    ensures c.passwordError.None? <==> |f.password| >= 8 && HasDigit(f.password) && HasLetter(f.password)
    ensures c.confirmError.None? <==> f.password == f.confirmPassword
  {
    Checks(
      if EmailValid(f.email) then None else Some(InvalidEmail),
      if |f.password| < 8 then Some(PasswordTooShort)
      else if !HasDigit(f.password) || !HasLetter(f.password) then Some(PasswordComposition)
      else None,
      if f.password != f.confirmPassword then Some(PasswordsDiffer) else None)
  }

  /** `ok` of `handleSignUp`: no check failed. */
  predicate Passes(f: Form)
  {
    var c := Validate(f);
    c.emailError.None? && c.passwordError.None? && c.confirmError.None?
  }

  /** The message shown when `register` throws: its `message`, or the default
      when that is missing or empty. */
  function FailureMessage(message: Option<string>): (m: string)
    ensures message.Some? && message.value != "" ==> m == message.value
    ensures !(message.Some? && message.value != "") ==> m == SignUpFailed
    ensures m != ""
  {
    if message.Some? && message.value != "" then message.value else SignUpFailed
  }

  /** What `register` did when it was called. */
  datatype RegisterOutcome = Registered | RegisterThrew(message: Option<string>)

  /** The page as a mutable object. */
  class SignUpPage {
    var form: Form
    var error: Option<string>
    var emailError: Option<string>
    var passwordError: Option<string>
    var confirmError: Option<string>
    var isLoading: bool
    var navigatedTo: Option<string>

    constructor ()
      ensures form == Form("", "", "", "")
      ensures error == None && emailError == None && passwordError == None && confirmError == None
      ensures !isLoading && navigatedTo == None
    {
      form := Form("", "", "", "");
      error := None;
      emailError := None;
      passwordError := None;
      confirmError := None;
      isLoading := false;
      navigatedTo := None;
    }

    /** `handleSignUp`. `called` reports whether `register` was called; the
        outcome is read only then. */
    method HandleSignUp(outcome: RegisterOutcome) returns (called: bool)
      modifies this
      ensures called <==> Passes(old(form))
      ensures form == old(form)
      ensures isLoading == (if called then false else old(isLoading))
      ensures var c := Validate(form);
        emailError == c.emailError && passwordError == c.passwordError && confirmError == c.confirmError
      ensures !called ==> error == None && navigatedTo == old(navigatedTo)
      ensures called && outcome.Registered? ==> error == None && navigatedTo == Some("/signin")
      ensures called && outcome.RegisterThrew? ==>
        error == Some(FailureMessage(outcome.message)) && navigatedTo == old(navigatedTo)
    {
      error := None;
      emailError := None;
      passwordError := None;
      confirmError := None;
      var ok := true;
      if !EmailValid(form.email) {
        emailError := Some(InvalidEmail);
        ok := false;
      }
      if |form.password| < 8 {
        passwordError := Some(PasswordTooShort);
        ok := false;
      } else if !HasDigit(form.password) || !HasLetter(form.password) {
        passwordError := Some(PasswordComposition);
        ok := false;
      }
      if form.password != form.confirmPassword {
        confirmError := Some(PasswordsDiffer);
        ok := false;
      }
      if !ok {
        return false;
      }
      isLoading := true;
      match outcome {
        case Registered =>
          navigatedTo := Some("/signin");
        case RegisterThrew(message) =>
          error := Some(FailureMessage(message));
      }
      isLoading := false;
      return true;
    }

    /** `handleChange` for the input called `field`: stores the value and
        clears that field's own error and no other. */
    method HandleChange(field: string, value: string)
      modifies this
      ensures field == "name" ==> form == old(form).(name := value)
      ensures field == "email" ==> form == old(form).(email := value)
      ensures field == "password" ==> form == old(form).(password := value)
      ensures field == "confirmPassword" ==> form == old(form).(confirmPassword := value)
      ensures field !in {"name", "email", "password", "confirmPassword"} ==> form == old(form)
      ensures emailError == (if field == "email" then None else old(emailError))
      ensures passwordError == (if field == "password" then None else old(passwordError))
      ensures confirmError == (if field == "confirmPassword" then None else old(confirmError))
      ensures error == old(error) && isLoading == old(isLoading) && navigatedTo == old(navigatedTo)
    {
      if field == "name" {
        form := form.(name := value);
      } else if field == "email" {
        form := form.(email := value);
        emailError := None;
      } else if field == "password" {
        form := form.(password := value);
        passwordError := None;
      } else if field == "confirmPassword" {
        form := form.(confirmPassword := value);
        confirmError := None;
      }
    }
  }
}
