/** components/login-form.tsx: the form state and the sign-in, sign-up and
    demo-login handlers with their guard chains. The auth calls are passed in
    as functions from the request to the error message of the reply. */
module LoginForm {
  import opened Wrappers
  import opened SupabaseTypes
  import Client

  /** The text fields of `formData`. */
  datatype Field = Email | Password | ConfirmPassword | FullName | Organization

  /** `formData`. */
  datatype FormData = FormData(
    email: string, password: string, confirmPassword: string,
    fullName: string, organization: string, role: Role)

  const EmptyForm := FormData("", "", "", "", "", Vendor)

  /** An input change: a text field, or the role select. */
  datatype Edit = SetText(field: Field, value: string) | SetRole(role: Role)

  /** Reads one text field. */
  function Get(f: FormData, k: Field): string {
    match k
    case Email => f.email
    case Password => f.password
    case ConfirmPassword => f.confirmPassword
    case FullName => f.fullName
    case Organization => f.organization
  }

  /** `{ ...prev, [field]: value }`. */
  function Apply(f: FormData, e: Edit): FormData {
    match e
    case SetRole(r) => f.(role := r)
    case SetText(k, v) =>
      match k
      case Email => f.(email := v)
      case Password => f.(password := v)
      case ConfirmPassword => f.(confirmPassword := v)
      case FullName => f.(fullName := v)
      case Organization => f.(organization := v)
  }

  /** An edit sets the field it names and leaves every other field as it was. */
  lemma ApplyChangesOnlyItsField(f: FormData, e: Edit, k: Field)
    ensures e.SetText? ==> Get(Apply(f, e), e.field) == e.value
    ensures e.SetText? && k != e.field ==> Get(Apply(f, e), k) == Get(f, k)
    ensures e.SetText? ==> Apply(f, e).role == f.role
    ensures e.SetRole? ==> Apply(f, e) == f.(role := e.role)
  {
  }

  const MsgBothRequired := "Please enter both email and password"
  const MsgDemoSignUp := "Sign up is not available in demo mode. Please use the demo login buttons below."
  const MsgRequired := "Please fill in all required fields"
  const MsgMismatch := "Passwords do not match"
  const MsgTooShort := "Password must be at least 6 characters long"

  /** The sign-up guard chain: the first check that fails decides the message;
      `None` lets the request through. */
  function SignUpProblem(f: FormData, demo: bool): (r: Option<string>)
    ensures r == Some(MsgDemoSignUp) <==> demo
    ensures r == Some(MsgRequired) <==> !demo && (f.email == "" || f.password == "" || f.fullName == "")
    ensures r == Some(MsgMismatch) <==>
      !demo && f.email != "" && f.password != "" && f.fullName != "" && f.password != f.confirmPassword
    ensures r == Some(MsgTooShort) <==>
      !demo && f.email != "" && f.password != "" && f.fullName != "" && f.password == f.confirmPassword &&
      |f.password| < 6
    ensures r.None? <==>
      !demo && f.email != "" && f.password != "" && f.fullName != "" && f.password == f.confirmPassword &&
      |f.password| >= 6
  {
    if demo then Some(MsgDemoSignUp)
    else if f.email == "" || f.password == "" || f.fullName == "" then Some(MsgRequired)
    else if f.password != f.confirmPassword then Some(MsgMismatch)
    else if |f.password| < 6 then Some(MsgTooShort)
    else None
  }

  /** The metadata sent with a sign-up. */
  datatype SignUpData = SignUpData(fullName: string, role: Role, organization: Option<string>)

  /** The metadata of the form: an empty organization is sent as `undefined`. */
  function SignUpDataOf(f: FormData): (d: SignUpData)
    ensures d.fullName == f.fullName && d.role == f.role
    ensures d.organization.None? <==> f.organization == ""
    ensures d.organization.Some? ==> d.organization.value == f.organization
  {
    SignUpData(f.fullName, f.role, if f.organization == "" then None else Some(f.organization))
  }

  /** The fixed demo credentials of a role. */
  datatype Credentials = Credentials(email: string, password: string)

  /** `demoCredentials[role]`: "<role>@demo.com" with "demo123". */
  function DemoCredentials(r: Role): (c: Credentials)
    ensures c.email == RoleName(r) + "@demo.com"
    ensures c.password == "demo123"
  {
    match r
    case Vendor => Credentials("vendor@demo.com", "demo123")
    case Admin => Credentials("admin@demo.com", "demo123")
    case Reviewer => Credentials("reviewer@demo.com", "demo123")
  }

  /** The demo buttons and the mock client agree: each role's credentials sign
      in, as a user of that role. */
  lemma DemoCredentialsAccepted(r: Role)
    ensures Client.MockSignIn(DemoCredentials(r).email, DemoCredentials(r).password).error.None?
    ensures Client.MockSignIn(DemoCredentials(r).email, DemoCredentials(r).password).user.value.metadata.value.role == Some(r)
  {
  }

  /** The component's state: `formData`, `error` and `isSubmitting`. */
  class LoginForm {
    var formData: FormData
    var error: Option<string>
    var isSubmitting: bool

    constructor ()
      ensures formData == EmptyForm && error.None? && !isSubmitting
    {
      formData, error, isSubmitting := EmptyForm, None, false;
    }

    /** `handleInputChange`: update one field and clear the error. */
    method HandleInputChange(e: Edit)
      modifies this
      ensures formData == Apply(old(formData), e)
      ensures error.None?
      ensures isSubmitting == old(isSubmitting)
    {
      formData := Apply(formData, e);
      error := None;
    }

    /** `handleSignIn`. An empty e-mail or password is refused without calling
        `signIn`; otherwise the reply's error message, if any, becomes the error,
        and `isSubmitting` is false afterwards. */
    method HandleSignIn(signIn: (string, string) -> Option<string>) returns (called: bool)
      modifies this`error, this`isSubmitting
      ensures called <==> old(formData.email) != "" && old(formData.password) != ""
      ensures !called ==> error == Some(MsgBothRequired) && isSubmitting == old(isSubmitting)
      ensures called ==> error == signIn(formData.email, formData.password) && !isSubmitting
    {
      if formData.email == "" || formData.password == "" {
        error := Some(MsgBothRequired);
        return false;
      }
      isSubmitting := true;
      error := None;
      var reply := signIn(formData.email, formData.password);
      if reply.Some? {
        error := reply;
      }
      isSubmitting := false;
      called := true;
    }

    /** `handleSignUp`. The guard chain decides the message when a check fails
        and `signUp` is not called; otherwise the reply's error, if any, becomes
        the error, and `isSubmitting` is false afterwards. */
    method HandleSignUp(demo: bool, signUp: (string, string, SignUpData) -> Option<string>)
      returns (called: bool)
      modifies this`error, this`isSubmitting
      ensures called <==> SignUpProblem(formData, demo).None?
      ensures !called ==> error == SignUpProblem(formData, demo) && isSubmitting == old(isSubmitting)
      ensures called ==>
        error == signUp(formData.email, formData.password, SignUpDataOf(formData)) && !isSubmitting
    {
      var problem := SignUpProblem(formData, demo);
      if problem.Some? {
        error := problem;
        return false;
      }
      isSubmitting := true;
      error := None;
      var reply := signUp(formData.email, formData.password, SignUpDataOf(formData));
      if reply.Some? {
        error := reply;
      } else {
        error := None;
      }
      isSubmitting := false;
      called := true;
    }

    /** `handleDemoLogin`: fill in the role's credentials and sign in with them.
        A failure is reported with a prefix; a success leaves the error as it
        was. */
    method HandleDemoLogin(r: Role, signIn: (string, string) -> Option<string>)
      modifies this
      ensures formData == old(formData).(email := DemoCredentials(r).email, password := DemoCredentials(r).password)
      ensures var reply := signIn(DemoCredentials(r).email, DemoCredentials(r).password);
        error == if reply.Some? then Some("Demo login failed: " + reply.value) else old(error)
      ensures !isSubmitting
    {
      var c := DemoCredentials(r);
      formData := formData.(email := c.email, password := c.password);
      isSubmitting := true;
      var reply := signIn(c.email, c.password);
      if reply.Some? {
        error := Some("Demo login failed: " + reply.value);
      }
      isSubmitting := false;
    }
  }

  /** The error message the mock client gives a sign-in. */
  function MockSignInError(email: string, password: string): Option<string> {
    Client.MockSignIn(email, password).error
  }

  /** In demo mode a demo button never reports a failure. */
  method DemoLoginNeverFails(form: LoginForm, r: Role)
    modifies form
    ensures form.error == old(form.error)
    ensures form.formData.email == RoleName(r) + "@demo.com"
  {
    DemoCredentialsAccepted(r);
    form.HandleDemoLogin(r, MockSignInError);
  }
}
