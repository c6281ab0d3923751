/**
 * Role-based access control for routes: a constant table of route prefixes,
 * a first-match lookup of the path, and role-set intersection.
 */
module Roles {
  import opened Wrappers

  datatype Role = Tenant | Landlord | Admin

  datatype RoutePermission = RoutePermission(
    key: string,
    allowedRoles: seq<Role>,
    requireAuth: bool,
    redirectTo: Option<string>)

  /** The decision; `redirectTo == None` is an absent property. */
  datatype PermissionResult = PermissionResult(hasPermission: bool, requireAuth: bool, redirectTo: Option<string>)

  const AllRoles: seq<Role> := [Tenant, Landlord, Admin]

  /** `ROUTE_PERMISSIONS`, in declaration order. */
  const RoutePermissions: seq<RoutePermission> := [
    RoutePermission("/property-approval", [Admin], true, Some("/")),
    RoutePermission("/rental-requests", [Landlord], true, Some("/")),
    RoutePermission("/my-properties", [Landlord], true, Some("/")),
    RoutePermission("/properties/create", [Landlord], true, Some("/")),
    RoutePermission("/contracts", AllRoles, true, Some("/signin")),
    RoutePermission("/chat", AllRoles, true, Some("/signin")),
    RoutePermission("/profile", AllRoles, true, Some("/signin")),
    RoutePermission("/blockchain-history", AllRoles, true, Some("/signin")),
    RoutePermission("/payment-result", AllRoles, true, Some("/signin"))
  ]

  predicate StartsWith(s: string, prefix: string) {
    |prefix| <= |s| && s[..|prefix|] == prefix
  }

  /** A route key governs the path itself and everything below it. */
  predicate Matches(pathname: string, key: string) {
    pathname == key || StartsWith(pathname, key + "/")
  }

  /** `Object.keys(table).find(...)`: the position of the first entry whose
      key governs the path. */
  function FindRoute(table: seq<RoutePermission>, pathname: string): (r: Option<nat>)
    ensures r.Some? ==> r.value < |table| && Matches(pathname, table[r.value].key)
    ensures r.Some? ==> forall j :: 0 <= j < r.value ==> !Matches(pathname, table[j].key)
    ensures r.None? <==> forall j :: 0 <= j < |table| ==> !Matches(pathname, table[j].key)
  {
    FindRouteFrom(table, pathname, 0)
  }

  function FindRouteFrom(table: seq<RoutePermission>, pathname: string, i: nat): (r: Option<nat>)
    requires i <= |table|
    requires forall j :: 0 <= j < i ==> !Matches(pathname, table[j].key)
    ensures r.Some? ==> i <= r.value < |table| && Matches(pathname, table[r.value].key)
    ensures r.Some? ==> forall j :: 0 <= j < r.value ==> !Matches(pathname, table[j].key)
    ensures r.None? <==> forall j :: 0 <= j < |table| ==> !Matches(pathname, table[j].key)
    decreases |table| - i
  {
    if i == |table| then None
    else if Matches(pathname, table[i].key) then Some(i)
    else FindRouteFrom(table, pathname, i + 1)
  }

  /** `allowedRoles.includes(role)` for some role of the user. */
  predicate Intersects(userRoles: seq<Role>, allowed: seq<Role>) {
    exists r :: r in userRoles && r in allowed
  }

  /** `hasRoutePermission(pathname, userRoles)`. */
  function HasRoutePermission(pathname: string, userRoles: Option<seq<Role>>): (res: PermissionResult)
    ensures FindRoute(RoutePermissions, pathname).None? ==> res == PermissionResult(true, false, None)
    ensures FindRoute(RoutePermissions, pathname).Some? ==>
      res.requireAuth == RoutePermissions[FindRoute(RoutePermissions, pathname).value].requireAuth
    ensures FindRoute(RoutePermissions, pathname).Some? && (userRoles.None? || userRoles.value == []) ==>
      var permission := RoutePermissions[FindRoute(RoutePermissions, pathname).value];
      res.hasPermission == !permission.requireAuth &&
      res.redirectTo == Some(if Present(permission.redirectTo) then permission.redirectTo.value else "/signin")
    ensures FindRoute(RoutePermissions, pathname).Some? && userRoles.Some? && userRoles.value != [] ==>
      var permission := RoutePermissions[FindRoute(RoutePermissions, pathname).value];
      (res.hasPermission <==> exists r :: r in userRoles.value && r in permission.allowedRoles) &&
      (res.hasPermission ==> res.redirectTo.None?) &&
      (!res.hasPermission ==>
         res.redirectTo == Some(if Present(permission.redirectTo) then permission.redirectTo.value else "/"))
  {
    match FindRoute(RoutePermissions, pathname)
    case None => PermissionResult(true, false, None)
    case Some(k) =>
      var permission := RoutePermissions[k];
      if userRoles.None? || |userRoles.value| == 0 then
        PermissionResult(!permission.requireAuth, permission.requireAuth,
                         Some(if Present(permission.redirectTo)
                              then permission.redirectTo.value else "/signin"))
      else
        var ok := Intersects(userRoles.value, permission.allowedRoles);
        PermissionResult(ok, permission.requireAuth,
                         if ok then None
                         else Some(if Present(permission.redirectTo)
                                   then permission.redirectTo.value else "/"))
  }

  /** A configured redirect that `||` keeps: present and non-empty. */
  predicate Present(redirectTo: Option<string>) {
    redirectTo.Some? && redirectTo.value != ""
  }

  /** `hasRole(userRoles, role)`. */
  function HasRole(userRoles: Option<seq<Role>>, role: Role): (b: bool)
    ensures b <==> userRoles.Some? && role in userRoles.value
  {
    userRoles.Some? && role in userRoles.value
  }

  /** `hasAnyRole(userRoles, roles)`. */
  function HasAnyRole(userRoles: Option<seq<Role>>, roles: seq<Role>): (b: bool)
    ensures b <==> userRoles.Some? && exists r :: r in userRoles.value && r in roles
  {
    userRoles.Some? && Intersects(userRoles.value, roles)
  }

  function IsAdmin(userRoles: Option<seq<Role>>): (b: bool)
    ensures b <==> userRoles.Some? && Admin in userRoles.value
  {
    HasRole(userRoles, Admin)
  }

  function IsLandlord(userRoles: Option<seq<Role>>): (b: bool)
    ensures b <==> userRoles.Some? && Landlord in userRoles.value
  {
    HasRole(userRoles, Landlord)
  }

  function IsTenant(userRoles: Option<seq<Role>>): (b: bool)
    ensures b <==> userRoles.Some? && Tenant in userRoles.value
  {
    HasRole(userRoles, Tenant)
  }

  /** Every configured route requires authentication. */
  lemma AllRoutesRequireAuth()
    ensures forall p :: p in RoutePermissions ==> p.requireAuth
  {
  }

  /** Without roles, every configured route is denied and redirects to its
      configured target; an unconfigured route is always allowed. */
  lemma UnauthenticatedDenied(pathname: string, userRoles: Option<seq<Role>>)
    requires userRoles.None? || userRoles.value == []
    ensures var res := HasRoutePermission(pathname, userRoles);
            var route := FindRoute(RoutePermissions, pathname);
            (route.Some? ==> !res.hasPermission && res.requireAuth &&
                             res.redirectTo == RoutePermissions[route.value].redirectTo) &&
            (route.None? ==> res.hasPermission && !res.requireAuth)
  {
  }

  /** With roles: permitted iff a role is allowed, and a redirect is present
      exactly when denied. */
  lemma PermittedIffRoleAllowed(pathname: string, roles: seq<Role>)
    requires roles != []
    requires FindRoute(RoutePermissions, pathname).Some?
    ensures var res := HasRoutePermission(pathname, Some(roles));
            var route := RoutePermissions[FindRoute(RoutePermissions, pathname).value];
            (res.hasPermission <==> exists r :: r in roles && r in route.allowedRoles) &&
            (res.redirectTo.None? <==> res.hasPermission)
  {
  }

  /** Two strings that differ at a position both have cannot match. */
  lemma NoMatchAt(pathname: string, key: string, i: int)
    requires 0 <= i < |key| && i < |pathname| && pathname[i] != key[i]
    ensures !Matches(pathname, key)
  {
    assert (key + "/")[i] == key[i];
  }

  /** Keys match whole path segments: "/contracts-x" is not governed by
      "/contracts", but "/contracts/12" is. */
  lemma SegmentMatching(roles: Option<seq<Role>>)
    ensures HasRoutePermission("/contracts-x", roles) == PermissionResult(true, false, None)
    ensures HasRoutePermission("/contracts/12", None) == PermissionResult(false, true, Some("/signin"))
  {
    SiblingPathUngoverned();
    SubPathGoverned();
  }

  /** No key governs "/contracts-x". */
  lemma SiblingPathUngoverned()
    ensures FindRoute(RoutePermissions, "/contracts-x").None?
  {
    var p := "/contracts-x";
    var t := RoutePermissions;
    NoMatchAt(p, t[0].key, 1);
    NoMatchAt(p, t[1].key, 1);
    NoMatchAt(p, t[2].key, 1);
    NoMatchAt(p, t[3].key, 1);
    assert !Matches(p, t[4].key) by {
      assert p != t[4].key by { assert |p| != |t[4].key|; }
      assert p[10] != (t[4].key + "/")[10];
    }
    NoMatchAt(p, t[5].key, 2);
    NoMatchAt(p, t[6].key, 1);
    NoMatchAt(p, t[7].key, 1);
    NoMatchAt(p, t[8].key, 1);
  }

  /** "/contracts/12" is governed by the "/contracts" key. */
  lemma SubPathGoverned()
    ensures FindRoute(RoutePermissions, "/contracts/12") == Some(4)
  {
    var t := RoutePermissions;
    var q := "/contracts/12";
    NoMatchAt(q, t[0].key, 1);
    NoMatchAt(q, t[1].key, 1);
    NoMatchAt(q, t[2].key, 1);
    NoMatchAt(q, t[3].key, 1);
    assert q[..|t[4].key + "/"|] == t[4].key + "/";
  }

  /** Landlord-only routes turn tenants away to "/". */
  lemma TenantDeniedLandlordRoutes(pathname: string)
    requires Matches(pathname, "/my-properties")
    ensures HasRoutePermission(pathname, Some([Tenant])) == PermissionResult(false, true, Some("/"))
  {
    var t := RoutePermissions;
    assert pathname[1] == 'm' by {
      if pathname != "/my-properties" {
        assert pathname[..|"/my-properties/"|][1] == 'm';
      }
    }
    NoMatchAt(pathname, t[0].key, 1);
    NoMatchAt(pathname, t[1].key, 1);
    assert Matches(pathname, t[2].key);
    assert FindRoute(t, pathname) == Some(2);
  }
}
