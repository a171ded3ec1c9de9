/** The application shell (src/App.tsx): the login screen when nobody is signed in, otherwise
    a header with the role's title and colour above the role's dashboard. */
module Shell {
  import opened Wrappers
  import opened Types

  datatype Dashboard = ClerkDashboard | PoliceDashboard | AdminDashboard

  /** What the shell renders. `dashboards` lists the dashboards shown below the header. */
  datatype Screen =
    | LoginScreen
    | Signedin(title: string, color: string, fullName: string, dashboards: seq<Dashboard>)

  /** `getRoleTitle`. */
  function RoleTitle(role: string): (title: string)
    ensures ParseRole(role).None? <==> title == "Dashboard"
  {
    match role
    case "clerk" => "Court Clerk Dashboard"
    case "police" => "Police Officer Dashboard"
    case "admin" => "Administrator Dashboard"
    case _ => "Dashboard"
  }

  /** `getRoleColor`. */
  function RoleColor(role: string): (color: string)
    ensures ParseRole(role).None? <==> color == "bg-gray-600"
  {
    match role
    case "clerk" => "bg-blue-600"
    case "police" => "bg-green-600"
    case "admin" => "bg-purple-600"
    case _ => "bg-gray-600"
  }

  /** Each role has a title and a colour of its own. */
  lemma RoleTitlesAndColorsDistinct(r: UserRole, q: UserRole)
    requires r != q
    ensures RoleTitle(RoleName(r)) != RoleTitle(RoleName(q))
    ensures RoleColor(RoleName(r)) != RoleColor(RoleName(q))
  {
  }

  /** The dashboard that belongs to a role. */
  function DashboardOf(r: UserRole): Dashboard
  {
    match r
    case Clerk => ClerkDashboard
    case Police => PoliceDashboard
    case Admin => AdminDashboard
  }

  /** The three `role === ... && <Dashboard />` lines: each role shows exactly its own
      dashboard, and a role text outside the three shows none. */
  function DashboardsFor(role: string): (ds: seq<Dashboard>)
    ensures ParseRole(role).None? ==> ds == []
    ensures ParseRole(role).Some? ==> ds == [DashboardOf(ParseRole(role).value)]
  {
    (if role == "clerk" then [ClerkDashboard] else [])
    + (if role == "police" then [PoliceDashboard] else [])
    + (if role == "admin" then [AdminDashboard] else [])
  }

  /** `App`: the login screen exactly when there is no current user. */
  function Render(currentUser: Option<User>): (s: Screen)
    ensures s.LoginScreen? <==> currentUser.None?
    ensures s.Signedin? ==> |s.dashboards| <= 1
    ensures s.Signedin? ==> (|s.dashboards| == 1 <==> ParseRole(currentUser.value.role).Some?)
    ensures s.Signedin? ==> s.fullName == currentUser.value.fullName
    ensures s.Signedin? ==> s.title == RoleTitle(currentUser.value.role) && s.color == RoleColor(currentUser.value.role)
    ensures s.Signedin? ==> s.dashboards == DashboardsFor(currentUser.value.role)
    ensures s.Signedin? && ParseRole(currentUser.value.role).Some? ==>
              s.dashboards == [DashboardOf(ParseRole(currentUser.value.role).value)]
  {
    match currentUser
    case None => LoginScreen
    case Some(u) => Signedin(RoleTitle(u.role), RoleColor(u.role), u.fullName, DashboardsFor(u.role))
  }

  /** The role-to-dashboard dispatch is one-to-one. */
  lemma DispatchIsOneToOne(u: User, v: User)
    requires ParseRole(u.role).Some? && ParseRole(v.role).Some? && u.role != v.role
    ensures Render(Some(u)).dashboards != Render(Some(v)).dashboards
  {
    var r, q := ParseRole(u.role).value, ParseRole(v.role).value;
    assert RoleName(r) == u.role && RoleName(q) == v.role;
  }
}
