/**
 * The client's route table and access decision of app/lib/config/protectedRoutes.ts. Lookups are
 * `find` over the table in order: an exact path first, then the first entry whose path is a raw
 * string prefix of the pathname (the root `/` excluded); a pathname nothing matches is protected.
 * The decisions are defined over any table and instantiated with the source's.
 */
module Routes {
  import opened Wrappers
  import opened Text
  import opened Seqs

  datatype RouteConfig = RouteConfig(path: string, isProtected: bool, redirectTo: Option<string>)

  /** `routeConfig`. */
  const RouteTable: seq<RouteConfig> := [
    RouteConfig("/", false, None),
    RouteConfig("/login", false, None),
    RouteConfig("/signup", false, None),
    RouteConfig("/forgot-password", false, None),
    RouteConfig("/reset-password", false, None),
    RouteConfig("/about", false, None),
    RouteConfig("/features", false, None),
    RouteConfig("/dashboard", true, Some("/login")),
    RouteConfig("/therapy", true, Some("/login"))
  ]

  /** `UNPROTECTED_ROUTES`. */
  const UnprotectedRoutes: seq<string> :=
    ["/", "/login", "/signup", "/forgot-password", "/reset-password", "/about", "/features"]

  /** `PROTECTED_ROUTE_PREFIXES`. */
  const ProtectedPrefixes: seq<string> := ["/dashboard", "/therapy"]

  const LoginPath: string := "/login"
  const DashboardPath: string := "/dashboard"

  function IsExact(pathname: string): RouteConfig -> bool {
    (r: RouteConfig) => r.path == pathname
  }

  /** `pathname.startsWith(route.path) && route.path !== '/'`. */
  function IsPartial(pathname: string): RouteConfig -> bool {
    (r: RouteConfig) => StartsWith(pathname, r.path) && r.path != "/"
  }

  function IsExactOrPartial(pathname: string): RouteConfig -> bool {
    (r: RouteConfig) => r.path == pathname || (StartsWith(pathname, r.path) && r.path != "/")
  }

  /** `isRouteProtected` over `table`. */
  function ProtectedIn(table: seq<RouteConfig>, pathname: string): bool {
    match FindFirst(table, IsExact(pathname))
    case Some(i) => table[i].isProtected
    case None =>
      match FindFirst(table, IsPartial(pathname))
      case Some(i) => table[i].isProtected
      case None => true
  }

  /** `getRedirectPath` over `table`: the first exact-or-prefix entry's `redirectTo` when it is a
      non-empty string, else `/login`. */
  function RedirectIn(table: seq<RouteConfig>, pathname: string): string {
    match FindFirst(table, IsExactOrPartial(pathname))
    case Some(i) => if Present(table[i].redirectTo) then table[i].redirectTo.value else LoginPath
    case None => LoginPath
  }

  /** The result of `checkRouteAccess`: `redirectTo` is `null` when access is allowed. */
  datatype Access = Access(allowed: bool, redirectTo: Option<string>)

  /** `checkRouteAccess` over `table`. */
  function AccessIn(table: seq<RouteConfig>, pathname: string, isAuthenticated: bool): Access {
    if ProtectedIn(table, pathname) && !isAuthenticated then Access(false, Some(RedirectIn(table, pathname)))
    else if isAuthenticated && pathname in [LoginPath, "/signup"] then Access(false, Some(DashboardPath))
    else Access(true, None)
  }

  function IsRouteProtected(pathname: string): bool {
    ProtectedIn(RouteTable, pathname)
  }

  function GetRedirectPath(pathname: string): string {
    RedirectIn(RouteTable, pathname)
  }

  function CheckRouteAccess(pathname: string, isAuthenticated: bool): Access {
    AccessIn(RouteTable, pathname, isAuthenticated)
  }

  /** `isPublicRoute`: exact membership in the public list. */
  predicate IsPublicRoute(pathname: string) {
    pathname in UnprotectedRoutes
  }

  /** `isProtectedRoute`: a raw prefix match against one of the protected prefixes. */
  predicate IsProtectedRoute(pathname: string) {
    exists i :: 0 <= i < |ProtectedPrefixes| && StartsWith(pathname, ProtectedPrefixes[i])
  }

  /** `isRouteProtected` is decided by the first entry whose path equals the pathname. */
  lemma ExactDecides(table: seq<RouteConfig>, pathname: string, i: nat)
    requires i < |table| && table[i].path == pathname
    requires forall j :: 0 <= j < i ==> table[j].path != pathname
    ensures ProtectedIn(table, pathname) == table[i].isProtected
  {
    var exact := FindFirst(table, IsExact(pathname));
    assert IsExact(pathname)(table[i]);
    assert exact == Some(i);
  }

  /** With no exact entry, the first prefix entry other than `/` decides. */
  lemma PartialDecides(table: seq<RouteConfig>, pathname: string, i: nat)
    requires forall j :: 0 <= j < |table| ==> table[j].path != pathname
    requires i < |table| && IsPartial(pathname)(table[i])
    requires forall j :: 0 <= j < i ==> !IsPartial(pathname)(table[j])
    ensures ProtectedIn(table, pathname) == table[i].isProtected
  {
    assert FindFirst(table, IsExact(pathname)).None?;
    assert IsPartial(pathname)(table[i]);
    assert FindFirst(table, IsPartial(pathname)) == Some(i);
  }

  /** A pathname that no entry matches, exactly or by prefix, is protected. */
  lemma UnmatchedIsProtected(table: seq<RouteConfig>, pathname: string)
    requires forall j :: 0 <= j < |table| ==> table[j].path != pathname && !IsPartial(pathname)(table[j])
    ensures ProtectedIn(table, pathname)
  {
    assert FindFirst(table, IsExact(pathname)).None?;
    assert FindFirst(table, IsPartial(pathname)).None?;
  }

  /** When every entry either has no redirect or redirects to `/login`, every pathname redirects
      to `/login`. */
  lemma RedirectAlwaysLogin(table: seq<RouteConfig>, pathname: string)
    requires forall i :: 0 <= i < |table| ==> table[i].redirectTo.None? || table[i].redirectTo == Some(LoginPath)
    ensures RedirectIn(table, pathname) == LoginPath
  {
  }

  /** The source's table redirects every pathname to `/login`. */
  lemma GetRedirectPathIsLogin(pathname: string)
    ensures GetRedirectPath(pathname) == "/login"
  {
    RedirectAlwaysLogin(RouteTable, pathname);
  }

  /** `checkRouteAccess` in its three cases: a protected pathname without authentication is
      refused with the redirect, an authenticated user on exactly `/login` or `/signup` is sent to
      the dashboard, and everything else is allowed with no redirect. */
  lemma AccessCases(table: seq<RouteConfig>, pathname: string, isAuthenticated: bool)
    ensures var a := AccessIn(table, pathname, isAuthenticated);
      && (ProtectedIn(table, pathname) && !isAuthenticated ==> a == Access(false, Some(RedirectIn(table, pathname))))
      && (isAuthenticated && (pathname == "/login" || pathname == "/signup") ==> a == Access(false, Some("/dashboard")))
      && (a.allowed <==> (isAuthenticated || !ProtectedIn(table, pathname)) &&
                         !(isAuthenticated && (pathname == "/login" || pathname == "/signup")))
      && (a.allowed ==> a.redirectTo.None?)
      && (!a.allowed ==> a.redirectTo.Some?)
  {
  }

  /** An unauthenticated visitor refused anywhere is sent to `/login`. */
  lemma RefusedVisitorGoesToLogin(pathname: string)
    ensures !CheckRouteAccess(pathname, false).allowed ==> CheckRouteAccess(pathname, false).redirectTo == Some("/login")
  {
    GetRedirectPathIsLogin(pathname);
  }

  /** `s` does not start with `p` when they differ at a position inside `p`. */
  lemma NotPrefixAt(s: string, p: string, k: nat)
    requires k < |p| && (k >= |s| || s[k] != p[k])
    ensures !StartsWith(s, p)
  {
    assert |p| <= |s| ==> s[..|p|][k] == s[k];
  }

  /** The second character of each table path, and the table's size. */
  lemma TableShape()
    ensures |RouteTable| == 9 && RouteTable[0].path == "/" && |RouteTable[1].path| == 6
    ensures forall j :: 1 <= j < 9 ==> |RouteTable[j].path| >= 6
    ensures RouteTable[1].path[1] == 'l' && RouteTable[2].path[1] == 's' && RouteTable[3].path[1] == 'f'
    ensures RouteTable[4].path[1] == 'r' && RouteTable[5].path[1] == 'a' && RouteTable[6].path[1] == 'f'
    ensures RouteTable[7].path[1] == 'd' && RouteTable[8].path[1] == 't'
    ensures forall j :: 0 <= j < 7 ==> !RouteTable[j].isProtected
    ensures RouteTable[7].isProtected && RouteTable[8].isProtected
  {
  }

  /** No entry before `k` matches a pathname whose second character differs from theirs. */
  lemma MissesBefore(p: string, k: nat)
    requires |p| >= 2 && 1 <= k <= 9
    requires forall j :: 1 <= j < k ==> p[1] != RouteTable[j].path[1]
    ensures forall j :: 0 <= j < k ==> !IsPartial(p)(RouteTable[j]) && RouteTable[j].path != p
  {
    TableShape();
    forall j | 0 <= j < k
      ensures !IsPartial(p)(RouteTable[j]) && RouteTable[j].path != p
    {
      if j > 0 {
        NotPrefixAt(p, RouteTable[j].path, 1);
      } else {
        assert RouteTable[j].path == "/";
      }
    }
  }

  /** Every pathname under `/therapy` is protected, sub-paths such as `/therapy/<sessionId>`
      included, and so is `/therapyx`: the match is not segment-aware. */
  lemma TherapyPrefixProtected(rest: string)
    ensures IsRouteProtected("/therapy" + rest)
  {
    var p := "/therapy" + rest;
    assert p[..8] == RouteTable[8].path;
    assert p[1] == 't';
    TableShape();
    MissesBefore(p, 8);
    if rest == "" {
      ExactDecides(RouteTable, p, 8);
    } else {
      assert RouteTable[8].path != p;
      PartialDecides(RouteTable, p, 8);
    }
  }

  lemma DashboardPrefixProtected(rest: string)
    ensures IsRouteProtected("/dashboard" + rest)
  {
    var p := "/dashboard" + rest;
    assert p[..10] == RouteTable[7].path;
    assert p[1] == 'd';
    TableShape();
    MissesBefore(p, 7);
    if rest == "" {
      ExactDecides(RouteTable, p, 7);
    } else {
      assert RouteTable[7].path != p;
      assert RouteTable[8].path != p by {
        assert RouteTable[8].path[1] != p[1];
      }
      PartialDecides(RouteTable, p, 7);
    }
  }

  /** Any pathname that extends `/login`, such as `/loginx`, is public by the table's prefix rule. */
  lemma LoginPrefixPublic(rest: string)
    requires rest != ""
    ensures !IsRouteProtected("/login" + rest)
  {
    var p := "/login" + rest;
    assert p[..6] == RouteTable[1].path;
    assert p[1] == 'l';
    TableShape();
    MissesBefore(p, 1);
    forall j | 1 <= j < 9
      ensures RouteTable[j].path != p
    {
      if j == 1 {
        assert |RouteTable[j].path| < |p|;
      } else {
        assert RouteTable[j].path[1] != p[1];
      }
    }
    PartialDecides(RouteTable, p, 1);
  }

  /** `/loginx` is not in the list of public routes, although the table treats it as public. */
  lemma LoginxUnlisted()
    ensures !IsPublicRoute("/loginx") && !IsRouteProtected("/loginx")
  {
    var p := "/loginx";
    assert p == "/login" + "x";
    LoginPrefixPublic("x");
    SevenCharLoginUnlisted(p);
  }

  /** No public route has seven characters and an `l` second. */
  lemma SevenCharLoginUnlisted(p: string)
    requires |p| == 7 && p[1] == 'l'
    ensures !IsPublicRoute(p)
  {
    PublicListInTable();
    TableShape();
    forall j | 0 <= j < |UnprotectedRoutes|
      ensures UnprotectedRoutes[j] != p
    {
      if j == 1 {
        assert |UnprotectedRoutes[j]| != |p|;
      } else if j > 0 {
        assert UnprotectedRoutes[j][1] != p[1];
      }
    }
  }

  /** The public list holds the paths of the table's first seven entries, in order. */
  lemma PublicListInTable()
    ensures |UnprotectedRoutes| == 7
    ensures forall j :: 0 <= j < 7 ==> UnprotectedRoutes[j] == RouteTable[j].path
  {
  }

  /** A pathname matching no entry is protected: one that is not `/` and has no path of the table
      other than `/` as a prefix. */
  lemma UnknownPathProtected(p: string)
    requires p != "/"
    requires forall j :: 1 <= j < |RouteTable| ==> !StartsWith(p, RouteTable[j].path)
    ensures IsRouteProtected(p)
  {
    TableShape();
    forall j | 0 <= j < |RouteTable|
      ensures RouteTable[j].path != p && !IsPartial(p)(RouteTable[j])
    {
      if j > 0 {
        assert p[..|p|] == p;
      }
    }
    UnmatchedIsProtected(RouteTable, p);
  }

  /** `/settings` is in no list and gets the protected default. */
  lemma SettingsProtected()
    ensures IsRouteProtected("/settings")
  {
    var p := "/settings";
    TableShape();
    forall j | 1 <= j < |RouteTable|
      ensures !StartsWith(p, RouteTable[j].path)
    {
      if j == 2 {
        NotPrefixAt(p, RouteTable[j].path, 2);
      } else {
        NotPrefixAt(p, RouteTable[j].path, 1);
      }
    }
    UnknownPathProtected(p);
  }

  /** The two checkers agree where the prefix list speaks: a pathname under `/dashboard` or
      `/therapy` is protected by the table as well. */
  lemma ProtectedRouteIsProtected(pathname: string)
    requires IsProtectedRoute(pathname)
    ensures IsRouteProtected(pathname)
  {
    var i :| 0 <= i < |ProtectedPrefixes| && StartsWith(pathname, ProtectedPrefixes[i]);
    if i == 1 {
      assert pathname == "/therapy" + pathname[8..];
      TherapyPrefixProtected(pathname[8..]);
    } else {
      assert pathname == "/dashboard" + pathname[10..];
      DashboardPrefixProtected(pathname[10..]);
    }
  }

  /** Every listed public route is unprotected in the table: its exact entry comes among the
      first seven, which are all public. */
  lemma PublicRouteIsUnprotected(pathname: string)
    requires IsPublicRoute(pathname)
    ensures !IsRouteProtected(pathname)
  {
    var i :| 0 <= i < |UnprotectedRoutes| && UnprotectedRoutes[i] == pathname;
    assert RouteTable[i].path == pathname;
    TableShape();
    var exact := FindFirst(RouteTable, IsExact(pathname));
    assert IsExact(pathname)(RouteTable[i]);
    assert exact.Some? && exact.value <= i;
  }
}
