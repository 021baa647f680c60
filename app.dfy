/**
 * The client's route table and its guard: which page a path shows, or where it
 * redirects, given the authentication state.
 */
module AppRouting {
  import opened Wrappers

  /** The authentication context: still loading, signed in, and the signed-in user's role text, if any. */
  datatype AuthState = AuthState(isLoading: bool, isAuthenticated: bool, role: Option<string>)

  datatype Page = LandingPage | LoginPage | RegisterPage | StudentPage | AdminPage

  /** What a route renders: the loading spinner, a `<Navigate>` to another path, or a page. */
  datatype View = Spinner | Redirect(to: string) | Render(page: Page)

  /** `state.user?.role || ''`. */
  function RoleOf(state: AuthState): (role: string)
    ensures state.role.Some? ==> role == state.role.value
    ensures state.role.None? ==> role == ""
  {
    state.role.GetOr("")
  }

  /**
   * `ProtectedRoute`: the spinner while authentication is loading, whatever else holds;
   * then a redirect to `/login` when signed out; then a redirect to `/` when a role list
   * is given and the role is not in it; otherwise the page.
   */
  function ProtectedRoute(state: AuthState, allowedRoles: Option<seq<string>>, page: Page): (v: View)
    ensures state.isLoading <==> v == Spinner
    ensures v == Redirect("/login") <==> !state.isLoading && !state.isAuthenticated
    ensures v == Redirect("/") <==>
      !state.isLoading && state.isAuthenticated && allowedRoles.Some? && RoleOf(state) !in allowedRoles.value
    ensures v == Render(page) <==>
      !state.isLoading && state.isAuthenticated && (allowedRoles.None? || RoleOf(state) in allowedRoles.value)
    ensures v.Spinner? || v == Redirect("/login") || v == Redirect("/") || v == Render(page)
  {
    if state.isLoading then Spinner
    else if !state.isAuthenticated then Redirect("/login")
    else if allowedRoles.Some? && RoleOf(state) !in allowedRoles.value then Redirect("/")
    else Render(page)
  }

  /** Where a signed-in visitor to `/login` or `/register` is sent: `/admin` for an admin, `/student` for anyone else. */
  function HomeOf(state: AuthState): (path: string)
    ensures path == "/admin" <==> state.role == Some("admin")
    ensures path == "/student" <==> state.role != Some("admin")
  {
    if state.role == Some("admin") then "/admin" else "/student"
  }

  /** `AppRoutes`: the view for a path, matched exactly; anything unmatched redirects to `/`. */
  function AppRoutes(state: AuthState, path: string): (v: View)
    ensures path !in {"/", "/login", "/register", "/student", "/admin"} ==> v == Redirect("/")
    ensures path == "/" ==> v == Render(LandingPage)
    ensures path == "/login" || path == "/register" ==>
      (state.isAuthenticated <==> v.Redirect?) && (v.Redirect? ==> v.to == HomeOf(state))
  {
    if path == "/" then Render(LandingPage)
    else if path == "/login" then
      if state.isAuthenticated then Redirect(HomeOf(state)) else Render(LoginPage)
    else if path == "/register" then
      if state.isAuthenticated then Redirect(HomeOf(state)) else Render(RegisterPage)
    else if path == "/student" then ProtectedRoute(state, Some(["student"]), StudentPage)
    else if path == "/admin" then ProtectedRoute(state, Some(["admin"]), AdminPage)
    else Redirect("/")
  }

  /** The admin page is shown exactly to a signed-in admin once authentication has loaded. */
  lemma AdminPageOnlyForAdmins(state: AuthState, path: string)
    ensures AppRoutes(state, path) == Render(AdminPage) <==>
      path == "/admin" && !state.isLoading && state.isAuthenticated && state.role == Some("admin")
  {
    if path == "/admin" {
      assert RoleOf(state) in ["admin"] <==> state.role == Some("admin");
    }
  }

  /** The student page is shown exactly to a signed-in student once authentication has loaded. */
  lemma StudentPageOnlyForStudents(state: AuthState, path: string)
    ensures AppRoutes(state, path) == Render(StudentPage) <==>
      path == "/student" && !state.isLoading && state.isAuthenticated && state.role == Some("student")
  {
    if path == "/student" {
      assert RoleOf(state) in ["student"] <==> state.role == Some("student");
    }
  }

  /** The view reached from a path by following at most `hops` redirects. */
  function Follow(state: AuthState, path: string, hops: nat): View
    decreases hops
  {
    var v := AppRoutes(state, path);
    if v.Redirect? && hops > 0 then Follow(state, v.to, hops - 1) else v
  }

  /**
   * Redirects never loop: from any path, two redirects at most reach the spinner or a
   * page, and a page once authentication has loaded.
   */
  lemma {:induction false} RedirectsSettle(state: AuthState, path: string)
    ensures !Follow(state, path, 2).Redirect?
    ensures !state.isLoading ==> Follow(state, path, 2).Render?
  {
    var v := AppRoutes(state, path);
    if v.Redirect? {
      var w := AppRoutes(state, v.to);
      assert v.to in {"/", "/login", "/admin", "/student"};
      if w.Redirect? {
        assert w.to == "/";
        assert Follow(state, w.to, 0) == AppRoutes(state, w.to);
      }
    }
  }
}
