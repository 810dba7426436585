/** The routed dashboard frame: the navigation links each role gets, the header's
    avatar and the logout action, checked against the route table they lead to. */
module RoleNavigation {
  import opened Common
  import opened LoginPage
  import Avatar

  function RoleKey(r: Role): string
  {
    match r
    case Admin => "admin"
    case Manager => "manager"
    case Employee => "employee"
  }

  datatype NavItem = NavItem(caption: string, path: string)

  /** `roleBasedNavigation[userRole]`. */
  function Navigation(r: Role): (items: seq<NavItem>)
    ensures |items| == (if r == Manager then 2 else 3)
  {
    match r
    case Admin => [NavItem("Dashboard", "/admin/dashboard"), NavItem("User Management", "/admin/users"),
                   NavItem("Approval Rules", "/admin/rules")]
    case Manager => [NavItem("Dashboard", "/manager/dashboard"), NavItem("Pending Approvals", "/manager/approvals")]
    case Employee => [NavItem("Dashboard", "/employee/dashboard"), NavItem("My Expenses", "/employee/expenses"),
                      NavItem("New Expense", "/employee/new")]
  }

  /** The paths the router serves: the public pages and, under each role's prefix,
      that role's pages. */
  function RoutedPaths(): (paths: set<string>)
    ensures "/login" in paths
  {
    {"/login", "/signup", "/demo", "/",
     "/admin/dashboard", "/admin/users", "/admin/rules", "/admin/",
     "/manager/dashboard", "/manager/approvals", "/manager/",
     "/employee/dashboard", "/employee/expenses", "/employee/new", "/employee/"}
  }

  /** The pages the routes under each role prefix render for each role. */
  function RolePages(r: Role): (paths: set<string>)
    ensures paths <= RoutedPaths()
  {
    match r
    case Admin => {"/admin/dashboard", "/admin/users", "/admin/rules"}
    case Manager => {"/manager/dashboard", "/manager/approvals"}
    case Employee => {"/employee/dashboard", "/employee/expenses", "/employee/new"}
  }

  /** Every link leads to one of the role's own routed pages, no two links share a
      path (the path is the list key), and the first is the dashboard the sign-in
      page sends that role to. */
  lemma {:induction false} NavigationIsRouted(r: Role)
    ensures Navigation(r)[0] == NavItem("Dashboard", DashboardPath(r))
    ensures forall i | 0 <= i < |Navigation(r)| :: Navigation(r)[i].path in RolePages(r)
    ensures forall i, j | 0 <= i < j < |Navigation(r)| :: Navigation(r)[i].path != Navigation(r)[j].path
    ensures |Navigation(r)| == |RolePages(r)|
  {
    match r
    case Admin =>
      assert "/admin/dashboard" != "/admin/users" && "/admin/users" != "/admin/rules" && "/admin/dashboard" != "/admin/rules";
    case Manager =>
      assert "/manager/dashboard" != "/manager/approvals";
    case Employee =>
      assert "/employee/dashboard" != "/employee/expenses" && "/employee/expenses" != "/employee/new" && "/employee/dashboard" != "/employee/new";
  }

  /** `handleLogout`: back to the sign-in page, which is routed. */
  function LogoutTarget(): (path: string)
    ensures path in RoutedPaths()
  {
    "/login"
  }

  /** The header's avatar: initials only (no picture is passed), small size. */
  function HeaderAvatar(userName: string): (a: (Avatar.Content, Avatar.Size))
    ensures a.0 == Avatar.Text(Avatar.Initials(userName))
    ensures a.1 == Avatar.Small
  {
    (Avatar.AvatarContent(userName, None), Avatar.SizeOrDefault(Some(Avatar.Small)))
  }
}
