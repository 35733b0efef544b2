/**
 * The request guard that runs before every page: static assets and API
 * calls pass untouched, the login/signup pages bounce users who are
 * already signed in to their home area, and the protected areas
 * (`/dashboard`, `/tbm`, `/chat`) require a session, with `/dashboard`
 * reserved for managers. Cookies are inputs; the guard either lets the
 * request through or redirects it.
 */
module Middleware {
  import opened Wrappers
  import opened Strings

  datatype Decision = Pass | Redirect(target: string)

  /** The two cookies the guard reads; `None` when the cookie is absent. */
  datatype Cookies = Cookies(authToken: Option<string>, userRole: Option<string>)

  /** A session exists when the token cookie is present and non-empty. */
  predicate HasSession(c: Cookies) {
    Truthy(c.authToken)
  }

  predicate RoleIs(c: Cookies, role: string) {
    c.userRole == Some(role)
  }

  /** Image files recognised by the `\.(png|jpg|jpeg|gif|svg)$` test. */
  predicate IsImage(path: string) {
    EndsWith(path, ".png") || EndsWith(path, ".jpg") || EndsWith(path, ".jpeg")
    || EndsWith(path, ".gif") || EndsWith(path, ".svg")
  }

  predicate IsStatic(path: string) {
    StartsWith(path, "/_next") || StartsWith(path, "/api") || path == "/favicon.ico" || IsImage(path)
  }

  predicate IsAuthPage(path: string) {
    StartsWith(path, "/login") || StartsWith(path, "/signup")
  }

  predicate IsProtected(path: string) {
    StartsWith(path, "/dashboard") || StartsWith(path, "/tbm") || StartsWith(path, "/chat")
  }

  /** The login/signup prefixes and the protected prefixes never overlap. */
  lemma AuthPagesUnprotected(path: string)
    ensures IsAuthPage(path) ==> !IsProtected(path)
  {
    if IsAuthPage(path) {
      assert path[1] == 'l' || path[1] == 's';
    }
  }

  /** The TBM and chat prefixes never start a dashboard path. */
  lemma AreasApart(path: string)
    ensures StartsWith(path, "/tbm") || StartsWith(path, "/chat") ==> !StartsWith(path, "/dashboard")
  {
    if StartsWith(path, "/tbm") || StartsWith(path, "/chat") {
      assert path[1] == 't' || path[1] == 'c';
    }
  }

  /** The guard's decision for one request. */
  function Guard(path: string, c: Cookies): (d: Decision)
    // static assets and API calls are never intercepted, whatever the cookies
    ensures IsStatic(path) ==> d == Pass
    // a redirect only ever goes to one of the three landing pages
    ensures d.Redirect? ==> d.target in {"/login", "/dashboard", "/tbm"}
    // no protected page is served without a session
    ensures !IsStatic(path) && IsProtected(path) && !HasSession(c) ==> d == Redirect("/login")
    // the dashboard is served only to a signed-in manager
    ensures d == Pass && StartsWith(path, "/dashboard") && !IsStatic(path)
            ==> HasSession(c) && RoleIs(c, "manager")
    // on login/signup a signed-in manager is sent to the dashboard, a signed-in worker
    // to the TBM area, and everyone else (no session, or another role) sees the page
    ensures !IsStatic(path) && IsAuthPage(path) && HasSession(c) && RoleIs(c, "manager") ==> d == Redirect("/dashboard")
    ensures !IsStatic(path) && IsAuthPage(path) && HasSession(c) && RoleIs(c, "worker") ==> d == Redirect("/tbm")
    ensures !IsStatic(path) && IsAuthPage(path) && !HasSession(c) ==> d == Pass
    ensures !IsStatic(path) && IsAuthPage(path) && !RoleIs(c, "manager") && !RoleIs(c, "worker") ==> d == Pass
    // a signed-in user who is not a manager is sent from the dashboard to the TBM area
    ensures !IsStatic(path) && StartsWith(path, "/dashboard") && HasSession(c) && !RoleIs(c, "manager")
            ==> d == Redirect("/tbm")
    ensures !IsStatic(path) && StartsWith(path, "/dashboard") && HasSession(c) && RoleIs(c, "manager") ==> d == Pass
    // the TBM and chat areas admit any session, whatever its role
    ensures !IsStatic(path) && (StartsWith(path, "/tbm") || StartsWith(path, "/chat")) && HasSession(c) ==> d == Pass
    // everything else (the root page included) is let through
    ensures !IsStatic(path) && !IsAuthPage(path) && !IsProtected(path) ==> d == Pass
  {
    AuthPagesUnprotected(path);
    AreasApart(path);
    if IsStatic(path) then Pass
    else if IsAuthPage(path) then
      if HasSession(c) then
        if RoleIs(c, "manager") then Redirect("/dashboard")
        else if RoleIs(c, "worker") then Redirect("/tbm")
        else Pass
      else Pass
    else if IsProtected(path) then
      if !HasSession(c) then Redirect("/login")
      else if StartsWith(path, "/dashboard") && !RoleIs(c, "manager") then Redirect("/tbm")
      else Pass
    else Pass
  }

  /** Following a redirect with the same cookies is let through: the guard never loops. */
  lemma NoRedirectLoop(path: string, c: Cookies)
    requires Guard(path, c).Redirect?
    ensures Guard(Guard(path, c).target, c) == Pass
  {
    var t := Guard(path, c).target;
    if t == "/login" {
      assert !HasSession(c);
      assert StartsWith(t, "/login");
    } else if t == "/dashboard" {
      assert HasSession(c) && RoleIs(c, "manager");
      assert StartsWith(t, "/dashboard");
    } else {
      assert t == "/tbm";
      assert HasSession(c);
      assert StartsWith(t, "/tbm") && !StartsWith(t, "/dashboard");
    }
  }

  /** The static test comes first: an image under a protected prefix passes without a session. */
  lemma StaticBeforeProtection()
    ensures Guard("/dashboard/logo.png", Cookies(None, None)) == Pass
    ensures Guard("/dashboard", Cookies(None, None)) == Redirect("/login")
  {
    assert EndsWith("/dashboard/logo.png", ".png");
    DashboardPath();
  }

  /**
   * A static path has `_`, `a` or `f` as its second character (`/_next`,
   * `/api`, `/favicon.ico`) or ends in `g` or `f` (the image extensions).
   */
  lemma StaticMarks(path: string)
    ensures IsStatic(path) ==>
      || (|path| >= 2 && (path[1] == '_' || path[1] == 'a' || path[1] == 'f'))
      || (|path| >= 1 && (path[|path| - 1] == 'g' || path[|path| - 1] == 'f'))
  {
    if StartsWith(path, "/_next") {
      assert path[1] == path[..6][1];
    } else if StartsWith(path, "/api") {
      assert path[1] == path[..4][1];
    } else if path == "/favicon.ico" {
    } else {
      ImageMark(path);
    }
  }

  /** Every image extension ends in `g` or `f`. */
  lemma ImageMark(path: string)
    ensures IsImage(path) ==> |path| >= 1 && (path[|path| - 1] == 'g' || path[|path| - 1] == 'f')
  {
    var n := |path|;
    if EndsWith(path, ".png") || EndsWith(path, ".jpg") || EndsWith(path, ".svg") || EndsWith(path, ".gif") {
      assert path[n - 1] == path[n - 4..][3];
    } else if EndsWith(path, ".jpeg") {
      assert path[n - 1] == path[n - 5..][4];
    }
  }

  /** How the guard classifies the two literal paths used below. */
  lemma LoginPath()
    ensures !IsStatic("/login") && IsAuthPage("/login")
  {
    var p := "/login";
    StaticMarks(p);
    assert p[1] == 'l' && p[|p| - 1] == 'n';
    assert StartsWith(p, "/login");
  }

  lemma DashboardPath()
    ensures !IsStatic("/dashboard") && !IsAuthPage("/dashboard") && StartsWith("/dashboard", "/dashboard")
  {
    var p := "/dashboard";
    StaticMarks(p);
    assert p[1] == 'd' && p[|p| - 1] == 'd';
    assert StartsWith(p, "/dashboard");
  }

  /** A session whose role is neither manager nor worker may open the login page. */
  lemma UnknownRoleMayLogIn(token: string, role: string)
    requires token != [] && role != "manager" && role != "worker"
    ensures Guard("/login", Cookies(Some(token), Some(role))) == Pass
    ensures Guard("/dashboard", Cookies(Some(token), Some(role))) == Redirect("/tbm")
  {
    var c := Cookies(Some(token), Some(role));
    assert HasSession(c) && !RoleIs(c, "manager") && !RoleIs(c, "worker");
    LoginPath();
    DashboardPath();
  }
}
