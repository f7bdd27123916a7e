/** The login form's submit handler: field validation into an error record, then, after the
    simulated delay, the demo-credential decision. */
module Login {
  import opened Wrappers
  import opened Text

  /** The `errors` state record; an empty string means "no error" for that field. */
  datatype Errors = Errors(email: string, password: string, general: string)

  const NoErrors := Errors("", "", "")

  const EmailRequired := "Email is required"
  const EmailInvalid := "Please enter a valid email"
  const PasswordRequired := "Password is required"
  const InvalidCredentials := "Invalid email or password"
  const LoginSuccessful := "Login successful"
  const AppRoute := "/app"

  const DemoEmail := "demo@example.com"
  const DemoPassword := "password123"

  /** The email and password a submit captured for its callback. */
  datatype Credentials = Credentials(email: string, password: string)

  // ---------------------------------------------------------------------------------------------
  // The email pattern `\S+@\S+\.\S+`, searched anywhere in the text

  /** `s[i..j]` is a non-empty run of non-whitespace characters (`\S+`). */
  ghost predicate NonSpaceRun(s: string, i: int, j: int) {
    0 <= i < j <= |s| && forall k | i <= k < j :: !IsWhitespace(s[k])
  }

  /** The pattern matches `s[b..e]`, with its `@` at `at` and its `.` at `dot`. */
  ghost predicate PatternMatchesAt(s: string, b: int, at: int, dot: int, e: int) {
    && NonSpaceRun(s, b, at) && at < |s| && s[at] == '@'
    && NonSpaceRun(s, at + 1, dot) && dot < |s| && s[dot] == '.'
    && NonSpaceRun(s, dot + 1, e)
  }

  /** `/\S+@\S+\.\S+/.test(s)`: some substring of `s` matches the pattern. */
  ghost predicate PatternFound(s: string) {
    exists b, at, dot, e :: PatternMatchesAt(s, b, at, dot, e)
  }

  /** An `@` at `at` with a non-whitespace character before it. */
  predicate AtSignAt(email: string, at: int)
    requires 1 <= at < |email|
  {
    email[at] == '@' && !IsWhitespace(email[at - 1])
  }

  /** A `.` at `dot` with a non-whitespace character after it, and only non-whitespace between
      `at` and it. */
  predicate DotAfter(email: string, at: int, dot: int)
    requires 0 <= at < dot < |email| - 1
  {
    email[dot] == '.' && !IsWhitespace(email[dot + 1])
    && forall k | at < k < dot :: !IsWhitespace(email[k])
  }

  /** The format test by positions: an `@` with a non-whitespace character before it, then at
      least one non-whitespace character, a `.`, and a non-whitespace character after it. */
  predicate EmailFormatOk(email: string)
    ensures EmailFormatOk(email) ==> |email| >= 5 && '@' in email && '.' in email
    ensures EmailFormatOk(email) ==>
      exists i, j | 0 < i && i + 1 < j && j < |email| - 1 :: email[i] == '@' && email[j] == '.'
  {
    exists at | 1 <= at < |email| ::
      AtSignAt(email, at) && exists dot | at + 1 < dot < |email| - 1 :: DotAfter(email, at, dot)
  }

  /** The positional test decides exactly the pattern search: the shortest runs around any match
      are a match, and every match contains such positions. */
  lemma EmailFormatIsPatternSearch(email: string)
    ensures EmailFormatOk(email) <==> PatternFound(email)
  {
    if EmailFormatOk(email) {
      var at :| 1 <= at < |email| && AtSignAt(email, at)
        && exists dot | at + 1 < dot < |email| - 1 :: DotAfter(email, at, dot);
      var dot :| at + 1 < dot < |email| - 1 && DotAfter(email, at, dot);
      assert PatternMatchesAt(email, at - 1, at, dot, dot + 2);
    }
    if PatternFound(email) {
      var b, at, dot, e :| PatternMatchesAt(email, b, at, dot, e);
      assert !IsWhitespace(email[at - 1]);
      assert !IsWhitespace(email[dot + 1]);
      assert forall k | at < k < dot :: !IsWhitespace(email[k]);
      assert AtSignAt(email, at) && DotAfter(email, at, dot);
    }
  }

  /** The pattern does not require a whole address: it is found inside longer text. */
  lemma PatternIsUnanchored(email: string, before: string, after: string)
    requires EmailFormatOk(email)
    ensures EmailFormatOk(before + email + after)
  {
    var s := before + email + after;
    var at :| 1 <= at < |email| && AtSignAt(email, at)
      && exists dot | at + 1 < dot < |email| - 1 :: DotAfter(email, at, dot);
    var dot :| at + 1 < dot < |email| - 1 && DotAfter(email, at, dot);
    var n := |before|;
    assert forall k | 0 <= k < |email| :: s[n + k] == email[k];
    assert s[n + at] == '@' && s[n + dot] == '.';
    assert !IsWhitespace(s[n + at - 1]) && !IsWhitespace(s[n + dot + 1]);
    assert forall k | n + at < k < n + dot :: !IsWhitespace(s[k]) by {
      forall k | n + at < k < n + dot
        ensures !IsWhitespace(s[k])
      {
        assert s[k] == email[k - n];
      }
    }
    assert AtSignAt(s, n + at) && DotAfter(s, n + at, n + dot);
  }

  /** The demo address passes the format test, so the success branch can be reached. */
  lemma DemoEmailWellFormed(email: string)
    requires email == DemoEmail
    ensures EmailFormatOk(email)
  {
    assert email[4] == '@' && email[12] == '.';
    assert email[5..12] == "example";
    assert forall k | 4 < k < 12 :: !IsWhitespace(email[k]) by {
      forall k | 4 < k < 12
        ensures !IsWhitespace(email[k])
      {
        assert email[k] == email[5..12][k - 5];
      }
    }
    assert AtSignAt(email, 4) && DotAfter(email, 4, 12);
  }

  // ---------------------------------------------------------------------------------------------
  // Validation

  /** The email field's error after a submit: "required" exactly for the empty email, the format
      error exactly for a non-empty one that fails the test, and none otherwise. */
  function EmailError(email: string): (e: string)
    ensures e == EmailRequired <==> email == ""
    ensures e == EmailInvalid <==> email != "" && !EmailFormatOk(email)
    ensures e == "" <==> email != "" && EmailFormatOk(email)
  {
    if email == "" then EmailRequired
    else if !EmailFormatOk(email) then EmailInvalid
    else ""
  }

  /** The password field's error after a submit: "required" exactly for the empty password. */
  function PasswordError(password: string): (e: string)
    ensures e == PasswordRequired <==> password == ""
    ensures e == "" <==> password != ""
  {
    if password == "" then PasswordRequired else ""
  }

  /** The error record a submit leaves: both field checks, a cleared general error. It is empty
      exactly when the form passes validation. */
  function ValidationErrors(email: string, password: string): (errors: Errors)
    ensures errors.general == ""
    ensures errors == NoErrors <==> FormValid(email, password)
  {
    Errors(EmailError(email), PasswordError(password), "")
  }

  /** The form passes validation. */
  predicate FormValid(email: string, password: string) {
    email != "" && EmailFormatOk(email) && password != ""
  }

  /** Validation leaves no error exactly when the form is valid. */
  lemma NoErrorsIffValid(email: string, password: string)
    ensures ValidationErrors(email, password) == NoErrors <==> FormValid(email, password)
  {
  }

  /** An empty email is reported as missing, never as malformed. */
  lemma EmptyEmailSkipsFormatCheck(password: string)
    ensures ValidationErrors("", password).email == EmailRequired
    ensures ValidationErrors("", password).email != EmailInvalid
  {
  }

  /** The email error is the format error exactly when a non-empty email fails the pattern. */
  lemma InvalidEmailIffPatternMissing(email: string, password: string)
    ensures ValidationErrors(email, password).email == EmailInvalid <==> email != "" && !PatternFound(email)
  {
    EmailFormatIsPatternSearch(email);
  }

  /** The password check is independent of the email checks: both errors can show together. */
  lemma BothErrorsTogether(email: string, password: string)
    requires password == ""
    ensures ValidationErrors(email, password).password == PasswordRequired
    ensures email == "" ==> ValidationErrors(email, password).email == EmailRequired
    ensures email != "" && !EmailFormatOk(email) ==> ValidationErrors(email, password).email == EmailInvalid
  {
  }

  /** The demo credentials pass validation. */
  lemma DemoCredentialsValid(email: string, password: string)
    requires email == DemoEmail && password == DemoPassword
    ensures FormValid(email, password)
    ensures ValidationErrors(email, password) == NoErrors
  {
    DemoEmailWellFormed(email);
  }

  /** The fixed demo-credential comparison of the callback; the one pair it accepts passes
      validation. */
  predicate IsDemo(c: Credentials)
    ensures IsDemo(c) ==> FormValid(c.email, c.password)
  {
    if c.email == DemoEmail && c.password == DemoPassword then
      DemoCredentialsValid(c.email, c.password);
      true
    else
      false
  }

  // ---------------------------------------------------------------------------------------------
  // The form

  /** The form's state. The show-password and remember-me toggles take no part in a submit. */
  class LoginForm {
    var email: string
    var password: string
    var isLoading: bool
    var errors: Errors

    constructor ()
      ensures email == "" && password == "" && !isLoading && errors == NoErrors
    {
      email := "";
      password := "";
      isLoading := false;
      errors := NoErrors;
    }

    /** The email field's change handler. */
    method SetEmail(text: string)
      modifies this
      ensures email == text && password == old(password)
      ensures isLoading == old(isLoading) && errors == old(errors)
    {
      email := text;
    }

    /** The password field's change handler. */
    method SetPassword(text: string)
      modifies this
      ensures password == text && email == old(email)
      ensures isLoading == old(isLoading) && errors == old(errors)
    {
      password := text;
    }

    /** `handleLogin`: resets the errors, records each failed check, and on success shows
        progress and schedules the callback with the entered credentials, which the returned
        value carries. A failed check returns before anything else changes. */
    method HandleLogin() returns (scheduled: Option<Credentials>)
      modifies this
      ensures email == old(email) && password == old(password)
      ensures errors == ValidationErrors(email, password)
      ensures scheduled.Some? <==> FormValid(email, password)
      ensures scheduled.Some? ==> scheduled.value == Credentials(email, password) && isLoading
      ensures scheduled.None? ==> isLoading == old(isLoading)
    {
      errors := NoErrors;
      var isValid := true;
      if email == "" {
        errors := errors.(email := EmailRequired);
        isValid := false;
      } else if !EmailFormatOk(email) {
        errors := errors.(email := EmailInvalid);
        isValid := false;
      }
      if password == "" {
        errors := errors.(password := PasswordRequired);
        isValid := false;
      }
      if !isValid {
        return None;
      }
      isLoading := true;
      scheduled := Some(Credentials(email, password));
    }

    /** The timer callback of `handleLogin`, run with the credentials it captured: the demo pair
        navigates to the app with a success toast; any other pair sets the general error and an
        error toast. */
    method CompleteLogin(c: Credentials) returns (route: Option<string>, notice: string)
      modifies this
      ensures email == old(email) && password == old(password)
      ensures !isLoading
      ensures IsDemo(c) ==> route == Some(AppRoute) && notice == LoginSuccessful && errors == old(errors)
      ensures !IsDemo(c) ==>
        route == None && notice == InvalidCredentials && errors == Errors(old(errors).email, old(errors).password, InvalidCredentials)
    {
      isLoading := false;
      if c.email == DemoEmail && c.password == DemoPassword {
        notice := LoginSuccessful;
        route := Some(AppRoute);
      } else {
        errors := errors.(general := InvalidCredentials);
        notice := InvalidCredentials;
        route := None;
      }
    }
  }

  /** A submit and its callback: the app opens exactly for the demo credentials; a valid form
      with other credentials ends with only the general error. */
  method LoginSession(email: string, password: string) returns (route: Option<string>, errors: Errors)
    ensures route == Some(AppRoute) <==> email == DemoEmail && password == DemoPassword
    ensures !FormValid(email, password) ==> errors == ValidationErrors(email, password)
    ensures FormValid(email, password) && route.None? ==> errors == NoErrors.(general := InvalidCredentials)
  {
    var form := new LoginForm();
    form.SetEmail(email);
    form.SetPassword(password);
    var scheduled := form.HandleLogin();
    route := None;
    if scheduled.Some? {
      var notice;
      route, notice := form.CompleteLogin(scheduled.value);
    } else if email == DemoEmail && password == DemoPassword {
      DemoCredentialsValid(email, password);
      assert false;
    }
    errors := form.errors;
  }
}
