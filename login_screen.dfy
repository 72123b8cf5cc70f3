/**
 * The login/signup screen: its mode, its validation schema, and what a submission
 * does to the session and to the browser location.
 */
module LoginScreen {
  import opened Common
  import opened App

  /** The values of the login/signup form. */
  datatype Credentials = Credentials(name: string, email: string, password: string, confirmPassword: string, userType: string)

  /** The form's initial values: every text field empty, type customer. */
  function InitialValues(): (v: Credentials)
    ensures v.name == "" && v.email == "" && v.password == "" && v.confirmPassword == ""
    ensures v.userType == CustomerType
  {
    Credentials("", "", "", "", CustomerType)
  }

  // The validation schema, field by field. `emailMatchesFormat` is the verdict of the
  // schema library's e-mail pattern on the email field.

  predicate NameOk(v: Credentials, isSignUp: bool)
  {
    isSignUp ==> 2 <= |v.name| <= 50
  }

  predicate EmailOk(v: Credentials, emailMatchesFormat: bool)
  {
    v.email != "" && emailMatchesFormat
  }

  predicate PasswordOk(v: Credentials)
  {
    |v.password| >= 6
  }

  predicate ConfirmPasswordOk(v: Credentials, isSignUp: bool)
  {
    isSignUp ==> v.confirmPassword != "" && v.confirmPassword == v.password
  }

  predicate TypeOk(v: Credentials)
  {
    v.userType == CustomerType || v.userType == DeliveryType
  }

  /**
   * The whole schema. In both modes the email must be non-empty and well formed, the
   * password needs at least 6 characters and the type must be customer or delivery;
   * signup also needs a name of 2 to 50 characters and a non-empty confirmation equal
   * to the password.
   */
  function CredentialsValid(v: Credentials, isSignUp: bool, emailMatchesFormat: bool): (ok: bool)
    ensures !isSignUp ==>
      (ok <==>
        v.email != "" && emailMatchesFormat && |v.password| >= 6 && v.userType in {CustomerType, DeliveryType})
    ensures isSignUp ==>
      (ok <==>
        v.email != "" && emailMatchesFormat && |v.password| >= 6 && v.userType in {CustomerType, DeliveryType} &&
        2 <= |v.name| <= 50 && v.confirmPassword != "" && v.confirmPassword == v.password)
  {
    NameOk(v, isSignUp) && EmailOk(v, emailMatchesFormat) && PasswordOk(v) &&
    ConfirmPasswordOk(v, isSignUp) && TypeOk(v)
  }

  /** Signup validation is stricter than login validation: whatever signs up could also log in. */
  lemma SignupStricterThanLogin(v: Credentials, emailMatchesFormat: bool)
    ensures CredentialsValid(v, true, emailMatchesFormat) ==> CredentialsValid(v, false, emailMatchesFormat)
  {
  }

  /** In login mode the name and the confirmation are not constrained at all. */
  lemma LoginIgnoresNameAndConfirmation(v: Credentials, name: string, confirm: string, emailMatchesFormat: bool)
    ensures CredentialsValid(v, false, emailMatchesFormat) <==>
      CredentialsValid(v.(name := name, confirmPassword := confirm), false, emailMatchesFormat)
  {
  }

  /** The untouched form is invalid in both modes (empty password), but its default type is acceptable. */
  lemma InitialValuesRejected(isSignUp: bool, emailMatchesFormat: bool)
    ensures !CredentialsValid(InitialValues(), isSignUp, emailMatchesFormat)
    ensures TypeOk(InitialValues()) && InitialValues().userType == CustomerType
  {
  }

  /**
   * What the auth endpoint answered: `Accepted(data)` when `res.ok` held (for a login,
   * `data` is the user object); `Rejected(error)` when it did not, with the body's
   * `error` key if any; `Failed` when `fetch` or `res.json()` threw.
   */
  datatype AuthReply = Accepted(data: User) | Rejected(error: Option<string>) | Failed

  const SignupSucceededMessage := "Signup successful! Please log in."
  const ServerErrorMessage := "Server error. Please try again."

  /** `data.error || "Signup failed"`: an absent or empty error falls back to the default text. */
  function SignupFailureMessage(error: Option<string>): (m: string)
    ensures error.Some? && error.value != "" ==> m == error.value
    ensures error.None? || error.value == "" ==> m == "Signup failed"
  {
    if error.Some? && error.value != "" then error.value else "Signup failed"
  }

  /** `alert(data.error)`: the server's error text as it is, even when empty; an absent error is shown as "undefined". */
  function LoginFailureMessage(error: Option<string>): (m: string)
    ensures error.Some? ==> m == error.value
    ensures error.None? ==> m == "undefined"
  {
    error.GetOr("undefined")
  }

  /**
   * The two failure alerts agree on a non-empty server error, and differ otherwise:
   * without one, signup falls back to its default text while login shows "undefined"
   * for a missing key and an empty alert for an empty one.
   */
  lemma FailureMessagesAgreeOnlyOnNonEmptyError(error: Option<string>)
    ensures SignupFailureMessage(error) == LoginFailureMessage(error) <==> error.Some? && error.value != ""
    ensures error == None ==> LoginFailureMessage(error) == "undefined" && SignupFailureMessage(error) == "Signup failed"
    ensures error == Some("") ==> LoginFailureMessage(error) == "" && SignupFailureMessage(error) == "Signup failed"
  {
  }

  /** The mounted screen: its mode, Formik's submitting flag, and the root's session setter. */
  class Screen {
    const app: AppStore
    const isSignUp: bool
    var submitting: bool

    constructor (app: AppStore, pathname: string)
      ensures this.app == app && submitting == false
      ensures isSignUp <==> pathname == SignupPath
    {
      this.app := app;
      isSignUp := pathname == SignupPath;
      submitting := false;
    }

    /**
     * What `handleSubmit(values)` does, between the state before and after it. A signup
     * never sets the user; on success it sends the browser to the login page. A login
     * sets the session user to the returned object and sends the browser to that user's
     * dashboard. Every failure alerts and leaves the session as it was. On every path
     * the submitting flag ends false.
     */
    twostate predicate Submitted(reply: AuthReply, new navigateTo: Option<string>, new alert: Option<string>)
      reads this, app
    {
      !submitting &&
      (isSignUp || !reply.Accepted? ==> app.user == old(app.user)) &&
      (!isSignUp && reply.Accepted? ==> app.user == Some(reply.data)) &&
      (isSignUp && reply.Accepted? ==> navigateTo == Some(LoginPath) && alert == Some(SignupSucceededMessage)) &&
      (!isSignUp && reply.Accepted? ==> navigateTo == Some(HomeFor(reply.data)) && alert == None) &&
      (!reply.Accepted? ==> navigateTo == None) &&
      (isSignUp && reply.Rejected? ==> alert == Some(SignupFailureMessage(reply.error))) &&
      (!isSignUp && reply.Rejected? ==> alert == Some(LoginFailureMessage(reply.error))) &&
      (reply.Failed? ==> alert == Some(ServerErrorMessage))
    }

    /** `handleSubmit(values)`, as `Submitted` describes it. */
    method HandleSubmit(values: Credentials, reply: AuthReply)
      returns (navigateTo: Option<string>, alert: Option<string>)
      modifies this`submitting, app`user
      ensures Submitted(reply, navigateTo, alert)
    {
      navigateTo := None;
      match reply {
        case Failed =>
          alert := Some(ServerErrorMessage);
        case Rejected(error) =>
          alert := Some(if isSignUp then SignupFailureMessage(error) else LoginFailureMessage(error));
        case Accepted(data) =>
          if isSignUp {
            alert := Some(SignupSucceededMessage);
            navigateTo := Some(LoginPath);
          } else {
            app.SetUser(data);
            alert := None;
            navigateTo := Some(HomeFor(data));
          }
      }
      submitting := false;
    }

    /**
     * Formik's submit: the flag is raised, the schema is checked, and `handleSubmit`
     * runs exactly on valid values. Invalid values send nothing, alert nothing and
     * leave the session as it was; the flag ends false either way.
     */
    method SubmitCredentials(values: Credentials, emailMatchesFormat: bool, reply: AuthReply)
      returns (navigateTo: Option<string>, alert: Option<string>)
      modifies this`submitting, app`user
      ensures !submitting
      ensures !CredentialsValid(values, isSignUp, emailMatchesFormat) ==>
        navigateTo == None && alert == None && app.user == old(app.user)
      ensures CredentialsValid(values, isSignUp, emailMatchesFormat) ==> Submitted(reply, navigateTo, alert)
    {
      submitting := true;
      if !CredentialsValid(values, isSignUp, emailMatchesFormat) {
        submitting := false;
        return None, None;
      }
      navigateTo, alert := HandleSubmit(values, reply);
    }
  }

  /**
   * After a successful login the router shows the dashboard matching the returned
   * type: the customer dashboard for a customer, the delivery dashboard for a delivery user.
   */
  lemma LoginLandsOnOwnDashboard(data: User)
    requires data.userType in {CustomerType, DeliveryType}
    ensures data.userType == CustomerType ==> Route(HomeFor(data), Some(data)) == CustomerDashboardPage
    ensures data.userType == DeliveryType ==> Route(HomeFor(data), Some(data)) == DeliveryDashboardPage
  {
  }
}
