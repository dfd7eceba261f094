/**
 * The single-page app's shell: which page a path shows to which signed-in user, when the
 * navigation bar is shown, and how the session is restored on load and dropped on logout.
 */
module App {
  import opened Optional

  /** The signed-in user as the app holds it: the stored profile with the session token.
      Only `role` decides access; a profile may lack any field. */
  datatype User = User(username: Option<string>, role: Option<string>, token: Option<string>)

  /** The five roles the route table names. */
  const Roles: seq<string> := ["student", "lecturer", "prl", "pl", "admin"]

  datatype Page =
    | Landing | LoginPage
    | StudentPage | LecturerPage | PrincipalLecturerPage | ProgramLeaderPage | AdminPage
    | ClassesList | ClassDetail(moduleId: string)

  /** What the router puts on screen: a page, or a redirect to another path. */
  datatype Screen = Show(page: Page) | Navigate(to: string)

  /** One path segment, as a `:moduleId` parameter matches it. */
  predicate IsSegment(s: string)
  {
    s != "" && '/' !in s
  }

  /** The path each page is declared under. */
  function PathOf(page: Page): string
  {
    match page
    case Landing => "/"
    case LoginPage => "/login"
    case StudentPage => "/student"
    case LecturerPage => "/lecturer"
    case PrincipalLecturerPage => "/prl"
    case ProgramLeaderPage => "/pl"
    case AdminPage => "/admin"
    case ClassesList => "/classes"
    case ClassDetail(id) => "/classes/" + id
  }

  /** The declared route a path matches, `None` for the catch-all. */
  function Match(path: string): Option<Page>
  {
    if path == "/" then Some(Landing)
    else if path == "/login" then Some(LoginPage)
    else if path == "/student" then Some(StudentPage)
    else if path == "/lecturer" then Some(LecturerPage)
    else if path == "/prl" then Some(PrincipalLecturerPage)
    else if path == "/pl" then Some(ProgramLeaderPage)
    else if path == "/admin" then Some(AdminPage)
    else if path == "/classes" then Some(ClassesList)
    else if |path| > 9 && path[..9] == "/classes/" && IsSegment(path[9..]) then Some(ClassDetail(path[9..]))
    else None
  }

  /** The `allowedRoles` a page is wrapped in; `None` for the public pages. */
  function AllowedRoles(page: Page): Option<seq<string>>
  {
    match page
    case Landing => None
    case LoginPage => None
    case StudentPage => Some(["student"])
    case LecturerPage => Some(["lecturer"])
    case PrincipalLecturerPage => Some(["prl"])
    case ProgramLeaderPage => Some(["pl"])
    case AdminPage => Some(["admin"])
    case ClassesList => Some(["lecturer", "prl", "pl"])
    case ClassDetail(_) => Some(["lecturer", "prl", "pl"])
  }

  /** The user is signed in with role `role`. */
  predicate HasRole(user: Option<User>, role: string)
  {
    user.Some? && user.value.role == Some(role)
  }

  /** `ProtectedRoute`: the child page for a signed-in user whose role is allowed, a redirect
      to the login page otherwise. */
  function ProtectedRoute(user: Option<User>, allowedRoles: seq<string>, child: Page): (s: Screen)
    ensures s == Show(child) <==> exists role :: role in allowedRoles && HasRole(user, role)
    ensures s != Show(child) ==> s == Navigate("/login")
  {
    if user.None? then Navigate("/login")
    else if !(user.value.role.Some? && user.value.role.value in allowedRoles) then Navigate("/login")
    else Show(child)
  }

  /** The screen for `path`: public pages for everyone, guarded pages through
      `ProtectedRoute`, and a redirect to the landing page for any other path. */
  function Render(path: string, user: Option<User>): Screen
  {
    match Match(path)
    case None => Navigate("/")
    case Some(page) =>
      match AllowedRoles(page)
      case None => Show(page)
      case Some(roles) => ProtectedRoute(user, roles, page)
  }

  /** Every page is matched by its own path, and only by it. */
  lemma MatchPathOf(page: Page)
    requires page.ClassDetail? ==> IsSegment(page.moduleId)
    ensures Match(PathOf(page)) == Some(page)
  {
  }

  /** A path that matches a page is that page's path. */
  lemma PathOfMatch(path: string)
    requires Match(path).Some?
    ensures PathOf(Match(path).value) == path
  {
  }

  /** `/student`, `/lecturer`, `/prl`, `/pl` and `/admin` each show their page to their own
      role only; `/classes` and `/classes/:moduleId` to lecturers, PRLs and program leaders.
      Everyone else is sent to `/login`. */
  lemma RouteTable(user: Option<User>, moduleId: string)
    requires IsSegment(moduleId)
    ensures Render("/student", user) == (if HasRole(user, "student") then Show(StudentPage) else Navigate("/login"))
    ensures Render("/lecturer", user) == (if HasRole(user, "lecturer") then Show(LecturerPage) else Navigate("/login"))
    ensures Render("/prl", user) == (if HasRole(user, "prl") then Show(PrincipalLecturerPage) else Navigate("/login"))
    ensures Render("/pl", user) == (if HasRole(user, "pl") then Show(ProgramLeaderPage) else Navigate("/login"))
    ensures Render("/admin", user) == (if HasRole(user, "admin") then Show(AdminPage) else Navigate("/login"))
    ensures Render("/classes", user) ==
      (if HasRole(user, "lecturer") || HasRole(user, "prl") || HasRole(user, "pl") then Show(ClassesList)
       else Navigate("/login"))
    ensures Render("/classes/" + moduleId, user) ==
      (if HasRole(user, "lecturer") || HasRole(user, "prl") || HasRole(user, "pl") then Show(ClassDetail(moduleId))
       else Navigate("/login"))
  {
  }

  /** Whatever the path, a page is shown only if it is public or the user's role is among
      those it allows; a matched guarded page otherwise redirects to `/login`, and an
      unmatched path redirects to `/`. */
  lemma RenderDecision(path: string, user: Option<User>)
    ensures Match(path).None? ==> Render(path, user) == Navigate("/")
    ensures Render(path, user).Show? ==>
      Match(path) == Some(Render(path, user).page)
      && (AllowedRoles(Render(path, user).page).None?
          || exists role :: role in AllowedRoles(Render(path, user).page).value && HasRole(user, role))
    ensures Render(path, user).Navigate? ==> Render(path, user).to in {"/", "/login"}
  {
  }

  /** A student can reach the landing page, the login page and the student page, and no
      other page by any path. */
  lemma StudentReach(path: string, user: Option<User>)
    requires HasRole(user, "student")
    ensures Render(path, user).Show? ==> Render(path, user).page in {Landing, LoginPage, StudentPage}
  {
  }

  /** A user with no role, or with a role the app does not know, reaches public pages only. */
  lemma UnknownRoleReach(path: string, user: Option<User>)
    requires user.Some?
    requires user.value.role.None? || user.value.role.value !in Roles
    ensures Render(path, user).Show? ==> Render(path, user).page in {Landing, LoginPage}
  {
  }

  /** `AppLayout`: the navigation bar is shown for a signed-in user except on the landing
      and login paths. */
  function ShowNavbar(path: string, user: Option<User>): (b: bool)
    ensures b <==> user.Some? && path !in {"/", "/login"}
  {
    var hideNavbar := path == "/" || path == "/login";
    !hideNavbar && user.Some?
  }

  /** A stored entry as read back: `None` when absent. The empty string is falsy too. */
  predicate Present(entry: Option<string>)
  {
    entry.Some? && entry.value != ""
  }

  /** The initial user state: restored only when both the stored user and the token are
      present and the stored user parses (`parse` returns `None` where parsing throws);
      the restored user carries the stored token. */
  function RestoreSession(storedUser: Option<string>, storedToken: Option<string>,
                          parse: string -> Option<User>): (u: Option<User>)
    ensures u.Some? <==> Present(storedUser) && Present(storedToken) && parse(storedUser.value).Some?
    ensures u.Some? ==>
      u.value.token == storedToken
      && u.value.username == parse(storedUser.value).value.username
      && u.value.role == parse(storedUser.value).value.role
  {
    if !Present(storedUser) || !Present(storedToken) then None
    else
      match parse(storedUser.value)
      case None => None
      case Some(profile) => Some(profile.(token := storedToken))
  }

  /** `logout`: whoever was signed in, nobody is afterwards. */
  function Logout(user: Option<User>): (u: Option<User>)
    ensures u.None?
  {
    None
  }

  /** After logout the navigation bar is gone and only the public pages are shown. */
  lemma LoggedOut(path: string, user: Option<User>)
    ensures !ShowNavbar(path, Logout(user))
    ensures Render(path, Logout(user)).Show? ==> Render(path, Logout(user)).page in {Landing, LoginPage}
  {
  }
}
