/** The routed sign-in page: the role guessed from the email address and the
    dashboard it navigates to, with the page's `loading` flag around the attempt. */
module LoginPage {
  import opened Common

  datatype Role = Admin | Manager | Employee

  /** `email.includes('admin') ? 'admin' : email.includes('manager') ? 'manager' : 'employee'`. */
  function RoleFromEmail(email: string): (r: Role)
    ensures r == Admin <==> Contains(email, "admin")
    ensures r == Manager <==> !Contains(email, "admin") && Contains(email, "manager")
    ensures r == Employee <==> !Contains(email, "admin") && !Contains(email, "manager")
  {
    if Contains(email, "admin") then Admin
    else if Contains(email, "manager") then Manager
    else Employee
  }

  function DashboardPath(r: Role): string
  {
    match r
    case Admin => "/admin/dashboard"
    case Manager => "/manager/dashboard"
    case Employee => "/employee/dashboard"
  }

  /** The match is case-sensitive: an address with no lower-case letter that occurs in
      the needle does not contain it. */
  lemma {:induction false} MissingLetter(haystack: string, needle: string, k: nat)
    requires k < |needle|
    requires forall i | 0 <= i < |haystack| :: haystack[i] != needle[k]
    ensures !Contains(haystack, needle)
  {
    forall i | 0 <= i <= |haystack| - |needle|
      ensures !OccursAt(haystack, needle, i)
    {
      assert haystack[i..i + |needle|][k] == haystack[i + k];
    }
  }

  /** Upper-case addresses are never taken for admins or managers. */
  lemma UpperCaseIsEmployee()
    ensures RoleFromEmail("ADMIN@CORP.COM") == Employee
  {
    var s := "ADMIN@CORP.COM";
    assert "admin"[0] == 'a' && "manager"[1] == 'a';
    MissingLetter(s, "admin", 0);
    MissingLetter(s, "manager", 1);
  }

  /** The "admin" test comes first, wherever the two words occur. */
  lemma AdminBeatsManager()
    ensures RoleFromEmail("manager.admin@corp.com") == Admin
  {
    assert OccursAt("manager.admin@corp.com", "admin", 8);
  }

  class LoginPageComponent {
    var loading: bool

    constructor ()
      ensures !loading
    {
      loading := false;
    }

    /** The part of `handleLogin` before its `await`. */
    method BeginLogin()
      modifies this
      ensures loading
    {
      loading := true;
    }

    /** The part after the `await`: `threw` says whether the awaited call failed.
        The route depends on the email alone; `loading` ends false either way. */
    method FinishLogin(email: string, password: string, threw: bool) returns (navigatedTo: Option<string>)
      modifies this
      ensures !loading
      ensures threw ==> navigatedTo == None
      ensures !threw ==> navigatedTo == Some(DashboardPath(RoleFromEmail(email)))
    {
      if threw {
        navigatedTo := None;
      } else {
        var role := RoleFromEmail(email);
        navigatedTo := Some(DashboardPath(role));
      }
      loading := false;
    }
  }
}
