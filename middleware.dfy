/** The request gate that runs before every page and API route: public paths
    pass (except that a signed-in user is sent from the login page to their
    dashboard), anonymous requests go to the login page, page areas send
    users of other roles to their own dashboard, and API areas answer 403.
    The session token is an input. */
module Middleware {
  import opened Wrappers
  import opened Strings

  /** The decoded session token; only its role is consulted. */
  datatype Token = Token(role: string)

  datatype Decision =
    | Next
    | Redirect(path: string, callbackUrl: Option<string>)
    | Forbidden

  predicate IsKnownRole(role: string) {
    role == "admin" || role == "guru" || role == "petugas" || role == "siswa"
  }

  /** `getDashboardForRole`. */
  function DashboardForRole(role: string): (path: string)
    ensures path == "/admin/dashboard" <==> role == "admin"
    ensures path == "/guru/dashboard" <==> role == "guru" || role == "petugas"
    ensures path == "/siswa/dashboard" <==> role == "siswa"
    ensures path == "/login" <==> !IsKnownRole(role)
  {
    if role == "admin" then "/admin/dashboard"
    else if role == "guru" || role == "petugas" then "/guru/dashboard"
    else if role == "siswa" then "/siswa/dashboard"
    else "/login"
  }

  /** Public routes are matched by prefix, so `/loginx` is public too. */
  predicate IsPublicRoute(pathname: string) {
    StartsWith(pathname, "/login") || StartsWith(pathname, "/api/auth")
  }

  /** `middleware`: the checks in the order they are made. */
  function Decide(pathname: string, token: Option<Token>): Decision {
    if IsPublicRoute(pathname) then
      if pathname == "/login" && token.Some? then Redirect(DashboardForRole(token.value.role), None)
      else Next
    else if token.None? then Redirect("/login", Some(pathname))
    else
      var role := token.value.role;
      if StartsWith(pathname, "/admin") && role != "admin" then
        Redirect(DashboardForRole(role), None)
      else if StartsWith(pathname, "/guru") && role != "guru" && role != "petugas" then
        Redirect(DashboardForRole(role), None)
      else if StartsWith(pathname, "/siswa") && role != "siswa" then
        Redirect(DashboardForRole(role), None)
      else if StartsWith(pathname, "/api/admin") && role != "admin" then
        Forbidden
      else if StartsWith(pathname, "/api/guru") && role != "guru" && role != "petugas" && role != "admin" then
        Forbidden
      else if StartsWith(pathname, "/api/siswa") && role != "siswa" && role != "admin" then
        Forbidden
      else Next
  }

  // ---------------------------------------------------------------------------
  // The same rules as a table: which area a path lies in, and who may enter it.

  datatype Area = AdminPages | GuruPages | SiswaPages | AdminApi | GuruApi | SiswaApi | Unrestricted

  function AreaPrefix(a: Area): string {
    match a
    case AdminPages => "/admin"
    case GuruPages => "/guru"
    case SiswaPages => "/siswa"
    case AdminApi => "/api/admin"
    case GuruApi => "/api/guru"
    case SiswaApi => "/api/siswa"
    case Unrestricted => ""
  }

  predicate MayEnter(a: Area, role: string) {
    match a
    case AdminPages => role == "admin"
    case GuruPages => role == "guru" || role == "petugas"
    case SiswaPages => role == "siswa"
    case AdminApi => role == "admin"
    case GuruApi => role == "guru" || role == "petugas" || role == "admin"
    case SiswaApi => role == "siswa" || role == "admin"
    case Unrestricted => true
  }

  predicate IsPageArea(a: Area) {
    a == AdminPages || a == GuruPages || a == SiswaPages
  }

  /** A path lies in area `a` when it starts with the area's prefix, and in
      `Unrestricted` when it starts with none of them. */
  predicate InArea(pathname: string, a: Area) {
    if a == Unrestricted then
      forall b: Area :: b != Unrestricted ==> !StartsWith(pathname, AreaPrefix(b))
    else StartsWith(pathname, AreaPrefix(a))
  }

  lemma PrefixChar(s: string, prefix: string, i: int)
    ensures StartsWith(s, prefix) && 0 <= i < |prefix| ==> s[i] == prefix[i]
  {
    if StartsWith(s, prefix) && 0 <= i < |prefix| {
      assert s[..|prefix|][i] == s[i];
    }
  }

  /** The area prefixes differ at index 1 or, for the API ones, at index 5. */
  lemma PrefixFacts(pathname: string)
    ensures StartsWith(pathname, "/admin") ==> pathname[1] == 'a' && pathname[5] == 'n'
    ensures StartsWith(pathname, "/guru") ==> pathname[1] == 'g'
    ensures StartsWith(pathname, "/siswa") ==> pathname[1] == 's'
    ensures StartsWith(pathname, "/api/admin") ==> pathname[1] == 'a' && pathname[5] == 'a'
    ensures StartsWith(pathname, "/api/guru") ==> pathname[1] == 'a' && pathname[5] == 'g'
    ensures StartsWith(pathname, "/api/siswa") ==> pathname[1] == 'a' && pathname[5] == 's'
  {
    PrefixChar(pathname, "/admin", 1);
    PrefixChar(pathname, "/admin", 5);
    PrefixChar(pathname, "/guru", 1);
    PrefixChar(pathname, "/siswa", 1);
    PrefixChar(pathname, "/api/admin", 1);
    PrefixChar(pathname, "/api/admin", 5);
    PrefixChar(pathname, "/api/guru", 1);
    PrefixChar(pathname, "/api/guru", 5);
    PrefixChar(pathname, "/api/siswa", 1);
    PrefixChar(pathname, "/api/siswa", 5);
  }

  /** What lying in an area says about the six prefix tests. */
  lemma AreaFacts(pathname: string, a: Area)
    requires InArea(pathname, a)
    ensures StartsWith(pathname, "/admin") <==> a == AdminPages
    ensures StartsWith(pathname, "/guru") <==> a == GuruPages
    ensures StartsWith(pathname, "/siswa") <==> a == SiswaPages
    ensures StartsWith(pathname, "/api/admin") <==> a == AdminApi
    ensures StartsWith(pathname, "/api/guru") <==> a == GuruApi
    ensures StartsWith(pathname, "/api/siswa") <==> a == SiswaApi
  {
    PrefixFacts(pathname);
    if a == Unrestricted {
      assert !StartsWith(pathname, AreaPrefix(AdminPages));
      assert !StartsWith(pathname, AreaPrefix(GuruPages));
      assert !StartsWith(pathname, AreaPrefix(SiswaPages));
      assert !StartsWith(pathname, AreaPrefix(AdminApi));
      assert !StartsWith(pathname, AreaPrefix(GuruApi));
      assert !StartsWith(pathname, AreaPrefix(SiswaApi));
    }
  }

  /** A path lies in exactly one area. */
  lemma AreaUnique(pathname: string, a: Area, b: Area)
    requires InArea(pathname, a) && InArea(pathname, b)
    ensures a == b
  {
    AreaFacts(pathname, a);
    AreaFacts(pathname, b);
  }

  lemma AreaExists(pathname: string) returns (a: Area)
    ensures InArea(pathname, a)
  {
    if StartsWith(pathname, "/admin") {
      a := AdminPages;
    } else if StartsWith(pathname, "/guru") {
      a := GuruPages;
    } else if StartsWith(pathname, "/siswa") {
      a := SiswaPages;
    } else if StartsWith(pathname, "/api/admin") {
      a := AdminApi;
    } else if StartsWith(pathname, "/api/guru") {
      a := GuruApi;
    } else if StartsWith(pathname, "/api/siswa") {
      a := SiswaApi;
    } else {
      a := Unrestricted;
    }
  }

  /** A signed-in request to a protected path passes exactly when the role may
      enter the path's area; otherwise a page area redirects to the role's
      dashboard and an API area answers 403. */
  lemma AccessTable(pathname: string, t: Token, a: Area)
    requires !IsPublicRoute(pathname) && InArea(pathname, a)
    ensures Decide(pathname, Some(t)) ==
      if MayEnter(a, t.role) then Next
      else if IsPageArea(a) then Redirect(DashboardForRole(t.role), None)
      else Forbidden
  {
    AreaFacts(pathname, a);
  }

  // ---------------------------------------------------------------------------
  // The remaining properties of the gate

  lemma PublicRoutes(pathname: string, token: Option<Token>)
    requires IsPublicRoute(pathname)
    ensures pathname == "/login" && token.Some? ==>
      Decide(pathname, token) == Redirect(DashboardForRole(token.value.role), None)
    ensures pathname != "/login" || token.None? ==> Decide(pathname, token) == Next
  {
  }

  /** The public test is a prefix test: `/loginx` passes without a token. */
  lemma LoginPrefixIsPublic(pathname: string)
    requires pathname == "/loginx"
    ensures Decide(pathname, None) == Next
  {
    assert pathname[..6] == "/login";
  }

  lemma AnonymousGoesToLogin(pathname: string)
    requires !IsPublicRoute(pathname)
    ensures Decide(pathname, None) == Redirect("/login", Some(pathname))
  {
  }

  /** Each known role's dashboard lets that role in, so no redirect chain starts there. */
  lemma DashboardAdmitsItsRole(role: string)
    requires IsKnownRole(role)
    ensures Decide(DashboardForRole(role), Some(Token(role))) == Next
  {
    var d := DashboardForRole(role);
    PrefixChar(d, "/login", 1);
    PrefixChar(d, "/api/auth", 1);
    if role == "admin" {
      assert d[..6] == "/admin";
      AccessTable(d, Token(role), AdminPages);
    } else if role == "siswa" {
      assert d[..6] == "/siswa";
      AccessTable(d, Token(role), SiswaPages);
    } else {
      assert d[..5] == "/guru";
      AccessTable(d, Token(role), GuruPages);
    }
  }

  /** A token with any other role is sent from the login page back to the login
      page, and from every page area there too. */
  lemma UnknownRoleLoops(pathname: string, role: string, a: Area)
    requires !IsKnownRole(role)
    ensures Decide("/login", Some(Token(role))) == Redirect("/login", None)
    ensures !IsPublicRoute(pathname) && InArea(pathname, a) && IsPageArea(a) ==>
      Decide(pathname, Some(Token(role))) == Redirect("/login", None)
  {
    assert StartsWith("/login", "/login");
    if !IsPublicRoute(pathname) && InArea(pathname, a) {
      AccessTable(pathname, Token(role), a);
    }
  }
}
