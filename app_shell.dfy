/** The single-page front end's root component: who is signed in, which
    signed-out screen shows, the company's base currency, first-admin signup,
    and which view is drawn. */
module AppShell {
  import opened Common
  import opened FrontendTypes

  datatype Page = LoginScreen | SignupScreen | ResetPasswordScreen

  datatype View =
    | LoginView(adminExists: bool)
    | SignupView
    | ResetPasswordView
    | LoadingView
    | DataErrorView
    | EmployeeDashboardView
    | ManagerDashboardView
    | AdminDashboardView
    | InvalidRoleView

  /** What the login call produced: the signed-in user, or a failure carrying the
      server's `detail` when there is one. */
  datatype LoginReply = LoggedIn(user: User) | LoginFailed(detail: Option<string>)

  datatype LoginResult = LoginResult(success: bool, error: Option<string>)

  const DefaultCurrency := "USD"
  const DefaultLoginError := "Invalid email or password."
  const AdminAlreadyExists := "An admin already exists for this company."

  /** `users.some((u) => u.role === "Admin")`. */
  function AdminExists(users: seq<User>): (b: bool)
    ensures b <==> exists i | 0 <= i < |users| :: users[i].role == "Admin"
  {
    if |users| == 0 then false
    else users[0].role == "Admin" || AdminExists(users[1..])
  }

  /** `countries.find((c) => c.name === country)?.currency_code || "USD"`: the first
      country of that name, when its code is non-empty; the dollar otherwise. */
  function BaseCurrencyFor(countries: seq<CountryOption>, country: string): (code: string)
    ensures code != ""
    ensures (forall i | 0 <= i < |countries| :: countries[i].name != country) ==> code == DefaultCurrency
    ensures forall i | 0 <= i < |countries| && countries[i].name == country
                       && (forall j | 0 <= j < i :: countries[j].name != country) ::
      code == if countries[i].currencyCode != "" then countries[i].currencyCode else DefaultCurrency
  {
    if |countries| == 0 then DefaultCurrency
    else if countries[0].name == country then
      (if countries[0].currencyCode != "" then countries[0].currencyCode else DefaultCurrency)
    else BaseCurrencyFor(countries[1..], country)
  }

  function WelcomeText(name: string, baseCurrency: string): string
  {
    "Welcome, " + name + "! Your company is set up with " + baseCurrency + " as the base currency."
  }

  /** Prepending the new admin makes an admin exist, whatever the list was. */
  lemma {:induction false} PrependedAdminExists(admin: User, users: seq<User>)
    requires admin.role == "Admin"
    ensures AdminExists([admin] + users)
  {
    assert ([admin] + users)[0] == admin;
  }

  class AppShellComponent {
    var currentUser: Option<User>
    var page: Page
    var companyBaseCurrency: string
    /** The user list held by the users hook, which this component also sets. */
    var users: seq<User>

    constructor ()
      ensures currentUser == None && page == LoginScreen
      ensures companyBaseCurrency == DefaultCurrency && users == []
    {
      currentUser := None;
      page := LoginScreen;
      companyBaseCurrency := DefaultCurrency;
      users := [];
    }

    /** `handleLogin`, after the awaited call: success signs the user in; a failure
        reports the server's detail when it is non-empty, the default text otherwise. */
    method HandleLogin(reply: LoginReply) returns (result: LoginResult)
      modifies this
      ensures reply.LoggedIn? ==> currentUser == Some(reply.user) && result == LoginResult(true, None)
      ensures reply.LoginFailed? ==> currentUser == old(currentUser)
      ensures reply.LoginFailed? ==> !result.success && result.error.Some?
      ensures reply.LoginFailed? && reply.detail.Some? && reply.detail.value != "" ==>
        result.error == reply.detail
      ensures reply.LoginFailed? && (reply.detail.None? || reply.detail.value == "") ==>
        result.error == Some(DefaultLoginError)
      ensures page == old(page) && users == old(users) && companyBaseCurrency == old(companyBaseCurrency)
    {
      if reply.LoggedIn? {
        currentUser := Some(reply.user);
        return LoginResult(true, None);
      }
      var message := if reply.detail.Some? && reply.detail.value != "" then reply.detail.value else DefaultLoginError;
      result := LoginResult(false, Some(message));
    }

    /** `handleSignup`: only the first admin may sign up. The new admin (with the id
        the clock gave, `newId`) is put first in the user list and signed in, and the
        chosen country's currency becomes the company's base currency. The text
        returned is what the alert shows. */
    method HandleSignup(name: string, email: string, password: string, country: string,
                        newId: string, countries: seq<CountryOption>) returns (alertText: string)
      modifies this
      ensures old(AdminExists(users)) ==>
        alertText == AdminAlreadyExists && users == old(users)
        && currentUser == old(currentUser) && companyBaseCurrency == old(companyBaseCurrency)
      ensures !old(AdminExists(users)) ==>
        var admin := User(newId, name, email, "Admin", None);
        && users == [admin] + old(users)
        && currentUser == Some(admin)
        && companyBaseCurrency == BaseCurrencyFor(countries, country)
        && alertText == WelcomeText(name, companyBaseCurrency)
      ensures AdminExists(users)
      ensures page == old(page)
    {
      if AdminExists(users) {
        return AdminAlreadyExists;
      }
      var newAdmin := User(newId, name, email, "Admin", None);
      var baseCurrency := BaseCurrencyFor(countries, country);
      PrependedAdminExists(newAdmin, users);
      users := [newAdmin] + users;
      companyBaseCurrency := baseCurrency;
      currentUser := Some(newAdmin);
      alertText := WelcomeText(name, baseCurrency);
    }

    /** `handleLogout`. */
    method HandleLogout()
      modifies this
      ensures currentUser == None && page == LoginScreen
      ensures users == old(users) && companyBaseCurrency == old(companyBaseCurrency)
    {
      currentUser := None;
      page := LoginScreen;
    }

    /** The links between the signed-out screens. */
    method SwitchPage(target: Page)
      modifies this`page
      ensures page == target
    {
      page := target;
    }

    /** What is drawn: a signed-out screen by `page`; once signed in, a loading or
        error notice while any of the three data hooks is loading or failed, and
        otherwise the dashboard of the user's role. */
    function Render(anyLoading: bool, anyError: bool): (v: View)
      reads this
      ensures currentUser.None? && page == LoginScreen ==> v == LoginView(AdminExists(users))
      ensures currentUser.None? && page == SignupScreen ==> v == SignupView
      ensures currentUser.None? && page == ResetPasswordScreen ==> v == ResetPasswordView
      ensures currentUser.Some? && anyLoading ==> v == LoadingView
      ensures currentUser.Some? && !anyLoading && anyError ==> v == DataErrorView
      ensures currentUser.Some? && !anyLoading && !anyError ==>
        && (v == EmployeeDashboardView <==> currentUser.value.role == "Employee")
        && (v == ManagerDashboardView <==> currentUser.value.role == "Manager")
        && (v == AdminDashboardView <==> currentUser.value.role == "Admin")
        && (v == InvalidRoleView <==> currentUser.value.role !in {"Employee", "Manager", "Admin"})
    {
      if currentUser.None? then
        match page
        case SignupScreen => SignupView
        case ResetPasswordScreen => ResetPasswordView
        case LoginScreen => LoginView(AdminExists(users))
      else if anyLoading then LoadingView
      else if anyError then DataErrorView
      else
        match currentUser.value.role
        case "Employee" => EmployeeDashboardView
        case "Manager" => ManagerDashboardView
        case "Admin" => AdminDashboardView
        case _ => InvalidRoleView
    }
  }

  const ResetAlertOpening := "If an account exists for "
  const ResetAlertClosing := ", a reset link will be sent."

  /** `handleResetPassword`: the alert names the address and nothing else varies,
      so it does not tell whether the account exists. */
  function ResetPasswordAlert(email: string): (text: string)
    ensures |text| == |ResetAlertOpening| + |email| + |ResetAlertClosing|
    ensures text[..|ResetAlertOpening|] == ResetAlertOpening
    ensures text[|ResetAlertOpening|..|ResetAlertOpening| + |email|] == email
    ensures text[|ResetAlertOpening| + |email|..] == ResetAlertClosing
  {
    ResetAlertOpening + email + ResetAlertClosing
  }
}
