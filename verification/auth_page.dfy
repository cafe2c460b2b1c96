/** The login/sign-up form of the Auth page: the two validation schemas, the
    field-error map built from their issues, and the submit handler's control
    flow around the store's `signIn`/`signUp`. */
module AuthPage {
  import opened Wrappers
  import opened Text
  import opened AuthStore
  import opened Toasts

  /** A stand-in for the schema library's e-mail pattern: one `@` with text on
      both sides and no white space. Every contract below is stated in terms of
      this predicate, not of its body. */
  predicate IsEmail(s: string) {
    && multiset(s)['@'] == 1
    && |s| >= 3 && s[0] != '@' && s[|s| - 1] != '@'
    && forall i :: 0 <= i < |s| ==> !IsWhitespace(s[i])
  }

  /** One validation failure, keyed by the first element of its path. */
  datatype Issue = Issue(path: string, message: string)

  datatype Form = Form(
    email: string,
    password: string,
    confirmPassword: string,
    fullName: string,
    matricNumber: string,
    phoneNumber: string)

  /** The e-mail field's check (`z.string().trim().email(...)`): one issue when
      the trimmed value is not an address. */
  function EmailIssues(email: string): (issues: seq<Issue>)
    ensures issues == [] <==> IsEmail(Trim(email))
    ensures forall i :: 0 <= i < |issues| ==> issues[i].path == "email"
  {
    if IsEmail(Trim(email)) then [] else [Issue("email", "Invalid email address")]
  }

  /** `z.string().min(6, ...)`: the password is not trimmed. */
  function PasswordIssues(password: string): (issues: seq<Issue>)
    ensures issues == [] <==> |password| >= 6
    ensures forall i :: 0 <= i < |issues| ==> issues[i].path == "password"
  {
    if |password| >= 6 then [] else [Issue("password", "Password must be at least 6 characters")]
  }

  /** `z.string().trim().min(min, ...).max(max)`: the trimmed length is checked,
      the lower bound first; the upper bound has the library's default message. */
  function LengthIssues(path: string, value: string, min: nat, max: nat, minMessage: string, maxMessage: string)
    : (issues: seq<Issue>)
    ensures issues == [] <==> min <= |Trim(value)| <= max
    ensures |issues| <= 1
    ensures forall i :: 0 <= i < |issues| ==> issues[i].path == path
  {
    var t := Trim(value);
    if |t| < min then [Issue(path, minMessage)]
    else if |t| > max then [Issue(path, maxMessage)]
    else []
  }

  /** `loginSchema`: e-mail, then password. */
  function LoginIssues(email: string, password: string): (issues: seq<Issue>)
    ensures issues == [] <==> IsEmail(Trim(email)) && |password| >= 6
    ensures forall i :: 0 <= i < |issues| ==> issues[i].path == "email" || issues[i].path == "password"
  {
    EmailIssues(email) + PasswordIssues(password)
  }

  /** The field checks `signupSchema` makes before its refinement. */
  predicate SignupFieldsAccepted(f: Form) {
    && 2 <= |Trim(f.fullName)| <= 100
    && IsEmail(Trim(f.email))
    && 5 <= |Trim(f.matricNumber)| <= 20
    && 10 <= |Trim(f.phoneNumber)| <= 15
    && |f.password| >= 6
  }

  /** Everything `signupSchema` demands. */
  predicate SignupAccepted(f: Form) {
    SignupFieldsAccepted(f) && f.password == f.confirmPassword
  }

  /** The issues of `signupSchema`'s fields, in declaration order. */
  function SignupFieldIssues(f: Form): (issues: seq<Issue>)
    ensures issues == [] <==> SignupFieldsAccepted(f)
  {
    var name := LengthIssues("full_name", f.fullName, 2, 100,
                             "Name must be at least 2 characters", "String must contain at most 100 character(s)");
    var email := EmailIssues(f.email);
    var matric := LengthIssues("matric_number", f.matricNumber, 5, 20,
                               "Matric number is required", "String must contain at most 20 character(s)");
    var phone := LengthIssues("phone_number", f.phoneNumber, 10, 15,
                              "Phone number must be at least 10 digits", "String must contain at most 15 character(s)");
    var password := PasswordIssues(f.password);
    name + email + matric + phone + password
  }

  predicate NoneAt(issues: seq<Issue>, path: string) {
    forall i :: 0 <= i < |issues| ==> issues[i].path != path
  }

  lemma NoneAtAppend(a: seq<Issue>, b: seq<Issue>, path: string)
    requires NoneAt(a, path) && NoneAt(b, path)
    ensures NoneAt(a + b, path)
  {
  }

  /** Only the refinement reports under `confirmPassword`. */
  lemma SignupFieldPaths(f: Form)
    ensures NoneAt(SignupFieldIssues(f), "confirmPassword")
  {
    var name := LengthIssues("full_name", f.fullName, 2, 100,
                             "Name must be at least 2 characters", "String must contain at most 100 character(s)");
    var email := EmailIssues(f.email);
    var matric := LengthIssues("matric_number", f.matricNumber, 5, 20,
                               "Matric number is required", "String must contain at most 20 character(s)");
    var phone := LengthIssues("phone_number", f.phoneNumber, 10, 15,
                              "Phone number must be at least 10 digits", "String must contain at most 15 character(s)");
    var password := PasswordIssues(f.password);
    assert |"confirmPassword"| == 15;
    assert NoneAt(name, "confirmPassword");
    assert NoneAt(email, "confirmPassword");
    assert NoneAt(matric, "confirmPassword");
    assert NoneAt(phone, "confirmPassword");
    assert NoneAt(password, "confirmPassword");
    NoneAtAppend(name, email, "confirmPassword");
    NoneAtAppend(name + email, matric, "confirmPassword");
    NoneAtAppend(name + email + matric, phone, "confirmPassword");
    NoneAtAppend(name + email + matric + phone, password, "confirmPassword");
  }

  /** `signupSchema`: the field issues, then the refinement comparing the
      untrimmed passwords. Failed length checks do not stop the refinement,
      so its issue comes last, after any field issues. */
  function SignupIssues(f: Form): (issues: seq<Issue>)
    ensures issues == [] <==> SignupAccepted(f)
    ensures f.password != f.confirmPassword <==>
      |issues| > 0 && issues[|issues| - 1] == Issue("confirmPassword", "Passwords don't match")
  {
    var fields := SignupFieldIssues(f);
    var refinement := if f.password == f.confirmPassword then [] else [Issue("confirmPassword", "Passwords don't match")];
    SignupFieldPaths(f);
    fields + refinement
  }

  /** The field-error map of the submit handler: every issue with a non-empty
      path key writes its message under that key, in order. */
  function FieldErrors(issues: seq<Issue>): map<string, string>
    decreases |issues|
  {
    if |issues| == 0 then map[]
    else
      var prior := FieldErrors(issues[..|issues| - 1]);
      var last := issues[|issues| - 1];
      if last.path != "" then prior[last.path := last.message] else prior
  }

  /** The map has a key for exactly the non-empty paths of the issues. */
  lemma {:induction false} FieldErrorsKeys(issues: seq<Issue>)
    ensures forall k :: k in FieldErrors(issues) <==> k != "" && exists i :: 0 <= i < |issues| && issues[i].path == k
    decreases |issues|
  {
    if |issues| > 0 {
      var front := issues[..|issues| - 1];
      FieldErrorsKeys(front);
      assert forall i :: 0 <= i < |front| ==> front[i] == issues[i];
    }
  }

  /** For each key, the message of the last issue with that path wins. */
  lemma {:induction false} FieldErrorsLastWins(issues: seq<Issue>, i: nat)
    requires i < |issues| && issues[i].path != ""
    requires forall j :: i < j < |issues| ==> issues[j].path != issues[i].path
    ensures issues[i].path in FieldErrors(issues)
    ensures FieldErrors(issues)[issues[i].path] == issues[i].message
    decreases |issues|
  {
    var front := issues[..|issues| - 1];
    if i < |issues| - 1 {
      assert front[i] == issues[i];
      FieldErrorsLastWins(front, i);
    }
  }

  /** Mismatched passwords always show under the `confirmPassword` key. */
  lemma MismatchReportedUnderConfirm(f: Form)
    requires f.password != f.confirmPassword
    ensures "confirmPassword" in FieldErrors(SignupIssues(f))
    ensures FieldErrors(SignupIssues(f))["confirmPassword"] == "Passwords don't match"
  {
    var issues := SignupIssues(f);
    FieldErrorsLastWins(issues, |issues| - 1);
  }

  datatype Mode = Login | Signup

  /** What the handler asks the store for, with the raw form strings. */
  datatype Request =
    | SignInRequest(email: string, password: string)
    | SignUpRequest(email: string, password: string, metadata: Metadata)

  function Issues(mode: Mode, f: Form): seq<Issue> {
    match mode
    case Login => LoginIssues(f.email, f.password)
    case Signup => SignupIssues(f)
  }

  /** The toast after `signIn` answered: the provider's "bad credentials"
      message is replaced by friendlier text, any other message shows as is. */
  function LoginToast(reply: Reply): (t: Toast)
    ensures reply.Returned? && reply.error == Some("Invalid login credentials") ==>
      t == Toast("Login Failed", "Incorrect email or password. Please try again.", true)
    ensures reply.Returned? && reply.error.Some? && reply.error.value != "Invalid login credentials" ==>
      t == Toast("Login Failed", reply.error.value, true)
    ensures reply.Returned? && reply.error.None? ==>
      t == Toast("Welcome back!", "You have successfully logged in.", false)
    ensures reply.Threw? ==> t == UnexpectedErrorToast
    ensures t.destructive <==> !(reply.Returned? && reply.error.None?)
  {
    match reply
    case Threw(_) => UnexpectedErrorToast
    case Returned(_, None) => Toast("Welcome back!", "You have successfully logged in.", false)
    case Returned(_, Some(message)) =>
      Toast("Login Failed",
            if message == "Invalid login credentials" then "Incorrect email or password. Please try again." else message,
            true)
  }

  /** The toast after `signUp` answered: an error mentioning "already
      registered" gets its own title. */
  function SignupToast(reply: Reply): (t: Toast)
    ensures reply.Returned? && reply.error.Some? ==>
      (t.title == "Account Exists" <==> Contains(reply.error.value, "already registered"))
    ensures reply.Returned? && reply.error.Some? && Contains(reply.error.value, "already registered") ==>
      t == Toast("Account Exists", "This email is already registered. Please login instead.", true)
    ensures reply.Returned? && reply.error.Some? && !Contains(reply.error.value, "already registered") ==>
      t == Toast("Signup Failed", reply.error.value, true)
    ensures reply.Returned? && reply.error.None? ==>
      t == Toast("Account Created!", "Welcome to Bells Bank. You are now logged in.", false)
    ensures reply.Threw? ==> t == UnexpectedErrorToast
    ensures t.destructive <==> !(reply.Returned? && reply.error.None?)
  {
    match reply
    case Threw(_) => UnexpectedErrorToast
    case Returned(_, None) => Toast("Account Created!", "Welcome to Bells Bank. You are now logged in.", false)
    case Returned(_, Some(message)) =>
      if Contains(message, "already registered") then
        Toast("Account Exists", "This email is already registered. Please login instead.", true)
      else Toast("Signup Failed", message, true)
  }

  /** The `catch` of the submit handler: the store's operation threw. */
  const UnexpectedErrorToast := Toast("Error", "An unexpected error occurred. Please try again.", true)

  /** The outcome of one submission: the error map shown, the request made to
      the store (if any), the toast shown, and the final `isLoading`. */
  datatype Submission = Submission(
    errors: map<string, string>,
    request: Option<Request>,
    toast: Option<Toast>,
    isLoading: bool)

  /** `handleSubmit`; `reply` is what the store's operation hands back, and is
      not consulted when validation fails. There is no navigation among the
      results: the redirect is the page's effect on `user`. */
  function HandleSubmit(mode: Mode, f: Form, reply: Reply): (s: Submission)
    ensures !s.isLoading
    ensures s.request.None? <==> Issues(mode, f) != []
    ensures s.request.None? ==> s.errors == FieldErrors(Issues(mode, f)) && s.toast.None?
    ensures s.request.Some? ==> s.errors == map[]
    ensures s.request.Some? && mode == Login ==> s.toast == Some(LoginToast(reply))
    ensures s.request.Some? && mode == Signup ==> s.toast == Some(SignupToast(reply))
    ensures s.request.Some? && mode == Login ==> s.request.value == SignInRequest(f.email, f.password)
    ensures s.request.Some? && mode == Signup ==>
      s.request.value == SignUpRequest(f.email, f.password, Metadata(f.fullName, f.matricNumber, f.phoneNumber))
  {
    var issues := Issues(mode, f);
    if issues != [] then
      Submission(FieldErrors(issues), None, None, false)
    else
      match mode
      case Login =>
        Submission(map[], Some(SignInRequest(f.email, f.password)), Some(LoginToast(reply)), false)
      case Signup =>
        Submission(map[], Some(SignUpRequest(f.email, f.password, Metadata(f.fullName, f.matricNumber, f.phoneNumber))),
                   Some(SignupToast(reply)), false)
  }

  /** The store is asked exactly for forms the schema accepts, and then the
      toast is an error toast exactly when the operation did not return
      cleanly; a rejected form never reaches the store and never toasts. */
  lemma SubmitSendsOnlyValidForms(mode: Mode, f: Form, reply: Reply)
    ensures var s := HandleSubmit(mode, f, reply);
      s.request.Some? <==>
        (mode == Login && IsEmail(Trim(f.email)) && |f.password| >= 6) || (mode == Signup && SignupAccepted(f))
    ensures var s := HandleSubmit(mode, f, reply);
      s.request.Some? ==> s.toast.Some? && (s.toast.value.destructive <==> !(reply.Returned? && reply.error.None?))
    ensures var s := HandleSubmit(mode, f, reply);
      s.request.None? ==> s.toast.None?
  {
  }
}
