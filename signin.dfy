/**
 * The sign-in page (app/signin/page.tsx): the generic field handler and the
 * submit handler, whose outcome is an error message or a role-based route.
 */
module SignIn {
  import opened Wrappers
  import opened Identity

  /** A form field value: text inputs hold strings, the checkbox a boolean. */
  datatype FieldValue = Text(text: string) | Checked(on: bool)

  /** `{ data, error }` from `signInWithPassword`. */
  datatype SignInResponse = SignInResponse(error: Option<string>, user: Option<User>)

  /** What a submit ends in. */
  datatype SubmitOutcome = ShowError(message: string) | Navigate(path: string) | Stay

  const DefaultSignInError: string := "An error occurred during sign in"
  const AdminPath: string := "/admin"
  const HomePath: string := "/"

  /** The post-login route: `/admin` for the `admin` and `manager` roles, `/` otherwise (no row included). */
  function RoleHome(profile: Option<Profile>): (path: string)
    ensures path == AdminPath <==> profile.Some? && (profile.value.role == AdminRole || profile.value.role == ManagerRole)
    ensures path == AdminPath || path == HomePath
  {
    if profile.Some? && (profile.value.role == AdminRole || profile.value.role == ManagerRole) then AdminPath
    else HomePath
  }

  /** `err.message || 'An error occurred during sign in'`. */
  function ThrownMessage(message: string): (r: string)
    ensures r != ""
    ensures message != "" ==> r == message
    ensures message == "" ==> r == DefaultSignInError
  {
    if message == "" then DefaultSignInError else message
  }

  /**
   * The outcome of `handleSubmit` over the sign-in call and the role lookup (a
   * `.single()` whose error is ignored, so a failed lookup reads as no row): a service
   * error is shown verbatim, a user is routed by role, no user and no error stays put,
   * and a throw shows its message or the default.
   */
  function Submit(signInCall: Call<SignInResponse>, profileCall: Call<Option<Profile>>): (r: SubmitOutcome)
    ensures signInCall.Done? && signInCall.value.error.Some? ==> r == ShowError(signInCall.value.error.value)
    ensures r.Navigate? <==> signInCall.Done? && signInCall.value.error.None? && signInCall.value.user.Some? && profileCall.Done?
    ensures r.Navigate? ==> r.path == RoleHome(profileCall.value)
    ensures r == Stay <==> signInCall.Done? && signInCall.value.error.None? && signInCall.value.user.None?
    ensures signInCall.Threw? ==> r == ShowError(ThrownMessage(signInCall.message))
    ensures signInCall.Done? && signInCall.value.error.None? && signInCall.value.user.Some? && profileCall.Threw?
      ==> r == ShowError(ThrownMessage(profileCall.message))
  {
    match signInCall
    case Threw(m) => ShowError(ThrownMessage(m))
    case Done(response) =>
      if response.error.Some? then ShowError(response.error.value)
      else if response.user.None? then Stay
      else
        match profileCall
        case Threw(m) => ShowError(ThrownMessage(m))
        case Done(profile) => Navigate(RoleHome(profile))
  }

  class SignInPage {
    /** The form object, keyed by input name. */
    var form: map<string, FieldValue>
    var error: string
    var loading: bool
    /** The last `router.push` target, if any. */
    var navigation: Option<string>

    constructor ()
      ensures form == map["email" := Text(""), "password" := Text(""), "remember" := Checked(false)]
      ensures error == "" && !loading && navigation == None
    {
      form := map["email" := Text(""), "password" := Text(""), "remember" := Checked(false)];
      error := "";
      loading := false;
      navigation := None;
    }

    /** `handleChange`: stores `checked` for a checkbox and `value` otherwise under the input's name, and clears the error. */
    method HandleChange(name: string, isCheckbox: bool, value: string, checked: bool)
      modifies this`form, this`error
      ensures form == old(form)[name := if isCheckbox then Checked(checked) else Text(value)]
      ensures error == ""
    {
      form := form[name := if isCheckbox then Checked(checked) else Text(value)];
      error := "";
    }

    /** `handleSubmit`: loading and a cleared error while it runs, then the outcome; loading ends on every path. */
    method HandleSubmit(signInCall: Call<SignInResponse>, profileCall: Call<Option<Profile>>) returns (r: SubmitOutcome)
      modifies this`error, this`loading, this`navigation
      ensures r == Submit(signInCall, profileCall)
      ensures !loading
      ensures error == if r.ShowError? then r.message else ""
      ensures navigation == if r.Navigate? then Some(r.path) else old(navigation)
    {
      loading := true;
      error := "";
      r := Submit(signInCall, profileCall);
      match r {
        case ShowError(m) => error := m;
        case Navigate(p) => navigation := Some(p);
        case Stay =>
      }
      loading := false;
    }
  }
}
