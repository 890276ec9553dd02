/** role.middleware.js and the three route files: which caller reaches
    which handler. Authentication (auth.middleware.js, the JWT check) is
    not part of this model: its outcome is an input, `None` when the
    request carries no valid token and otherwise the claims it decodes. */
module Access {
  import opened Common
  import opened Models

  /** `req.user` as the authentication stage leaves it. */
  datatype Caller = Caller(id: Option<string>, role: Option<string>)

  /** What a middleware chain does with a request: pass it on, or stop it. */
  datatype Gate = Next | Unauthenticated | Forbidden(message: string)

  const InsufficientRoleMessage := "Forbidden: insufficient role"

  /** The role names of a declared list, as `roles.includes` sees them. */
  function RoleNames(roles: seq<Role>): (names: seq<string>)
    ensures forall s :: s in names <==> exists r :: r in roles && RoleName(r) == s
  {
    if roles == [] then [] else [RoleName(roles[0])] + RoleNames(roles[1..])
  }

  /** `requireRole(...roles)`: authentication first, then the membership
      test on the caller's role. */
  function RequireRole(roles: seq<Role>, caller: Option<Caller>): (g: Gate)
    ensures caller.None? <==> g == Unauthenticated
    ensures caller.Some? ==>
              (g == Next <==> Truthy(caller.value.role)
                              && exists r :: r in roles && RoleName(r) == caller.value.role.value)
    ensures caller.Some? && g != Next ==> g == Forbidden(InsufficientRoleMessage)
  {
    if caller.None? then Unauthenticated
    else if !Truthy(caller.value.role) || caller.value.role.value !in RoleNames(roles) then
      Forbidden(InsufficientRoleMessage)
    else Next
  }

  /** Declaring more roles never turns an admitted caller away. */
  lemma {:induction false} MoreRolesAdmitMore(roles: seq<Role>, more: seq<Role>, caller: Option<Caller>)
    requires forall r :: r in roles ==> r in more
    ensures RequireRole(roles, caller) == Next ==> RequireRole(more, caller) == Next
  {
    if RequireRole(roles, caller) == Next {
      var r :| r in roles && RoleName(r) == caller.value.role.value;
      assert r in more;
    }
  }

  /** A caller whose token names a role admits exactly when that role is declared. */
  lemma RoleOfCaller(roles: seq<Role>, id: Option<string>, role: Role)
    ensures RequireRole(roles, Some(Caller(id, Some(RoleName(role))))) == Next <==> role in roles
  {
    var c := Some(Caller(id, Some(RoleName(role))));
    if RequireRole(roles, c) == Next {
      var r :| r in roles && RoleName(r) == RoleName(role);
      RoleNameInjective(r, role);
    }
  }

  lemma RoleNameInjective(a: Role, b: Role)
    requires RoleName(a) == RoleName(b)
    ensures a == b
  {
  }

  datatype Verb = Get | Post | Put

  datatype Handler =
    | ListLabRecords | ListMyLabRecords | GetLabRecord | CreateLabRecord | UpdateLabRecord
    | CreateCollection | ListMyCollections | ListAllCollections | GetCollectionById
    | ListUsers

  /** A literal path, or `/:id`: one non-empty segment. */
  datatype Pattern = Literal(path: string) | IdParam

  predicate IsSegment(path: string) {
    |path| >= 2 && path[0] == '/' && '/' !in path[1..]
  }

  predicate PatternMatches(p: Pattern, path: string) {
    match p
    case Literal(l) => l == path
    case IdParam => IsSegment(path)
  }

  /** One `router.<verb>(pattern, [requireRole(...)], handler)` line;
      `roles` is absent when the line has no role stage. */
  datatype Route = Route(verb: Verb, pattern: Pattern, roles: Option<seq<Role>>, handler: Handler)

  /** `authAll` is `router.use(auth)` ahead of every route. */
  datatype Router = Router(authAll: bool, routes: seq<Route>)

  predicate RouteMatches(r: Route, verb: Verb, path: string) {
    r.verb == verb && PatternMatches(r.pattern, path)
  }

  /** Express tries the routes in declaration order. */
  function FirstMatch(routes: seq<Route>, verb: Verb, path: string): (r: Option<nat>)
    ensures r.None? <==> forall x :: x in routes ==> !RouteMatches(x, verb, path)
    ensures r.Some? ==> r.value < |routes| && RouteMatches(routes[r.value], verb, path)
                        && forall j :: 0 <= j < r.value ==> !RouteMatches(routes[j], verb, path)
  {
    if routes == [] then None
    else if RouteMatches(routes[0], verb, path) then Some(0)
    else
      match FirstMatch(routes[1..], verb, path)
      case None =>
        assert forall x :: x in routes ==> x == routes[0] || x in routes[1..];
        None
      case Some(k) => Some(k + 1)
  }

  /** The first match is determined by its characterisation. */
  lemma FirstMatchIs(routes: seq<Route>, verb: Verb, path: string, k: nat)
    requires k < |routes| && RouteMatches(routes[k], verb, path)
    requires forall j :: 0 <= j < k ==> !RouteMatches(routes[j], verb, path)
    ensures FirstMatch(routes, verb, path) == Some(k)
  {
    assert routes[k] in routes;
  }

  datatype Outcome = Invoke(handler: Handler) | Refuse(gate: Gate) | NoRoute

  /** The outcome of a request inside one router. */
  function Dispatch(router: Router, verb: Verb, path: string, caller: Option<Caller>): (o: Outcome)
    ensures router.authAll && caller.None? ==> o == Refuse(Unauthenticated)
    ensures o.Invoke? ==>
              exists i :: 0 <= i < |router.routes| && router.routes[i].handler == o.handler
                          && RouteMatches(router.routes[i], verb, path)
                          && (router.routes[i].roles.Some? ==>
                                RequireRole(router.routes[i].roles.value, caller) == Next)
    ensures o == NoRoute ==> forall x :: x in router.routes ==> !RouteMatches(x, verb, path)
  {
    if router.authAll && caller.None? then Refuse(Unauthenticated)
    else
      match FirstMatch(router.routes, verb, path)
      case None => NoRoute
      case Some(k) =>
        var route := router.routes[k];
        if route.roles.None? then Invoke(route.handler)
        else
          var g := RequireRole(route.roles.value, caller);
          if g == Next then Invoke(route.handler) else Refuse(g)
  }

  /** What a route guarded by `roles` does for `caller`. */
  function Guarded(roles: seq<Role>, caller: Option<Caller>, h: Handler): Outcome {
    if RequireRole(roles, caller) == Next then Invoke(h) else Refuse(RequireRole(roles, caller))
  }

  /** A request that passes the router-wide stage and whose first matching
      route is the `k`-th meets that route's own stages and nothing else. */
  lemma DispatchAt(router: Router, verb: Verb, path: string, caller: Option<Caller>, k: nat)
    requires !router.authAll || caller.Some?
    requires k < |router.routes| && RouteMatches(router.routes[k], verb, path)
    requires forall j :: 0 <= j < k ==> !RouteMatches(router.routes[j], verb, path)
    ensures Dispatch(router, verb, path, caller)
            == match router.routes[k].roles
               case None => Invoke(router.routes[k].handler)
               case Some(roles) => Guarded(roles, caller, router.routes[k].handler)
  {
    FirstMatchIs(router.routes, verb, path, k);
  }

  /** lab.routes.js */
  const LabRouter := Router(false, [
    Route(Get, Literal("/"), Some([Admin]), ListLabRecords),
    Route(Get, Literal("/mine"), Some([Lab, Admin]), ListMyLabRecords),
    Route(Get, IdParam, Some([Lab, Admin]), GetLabRecord),
    Route(Post, Literal("/"), Some([Lab, Admin]), CreateLabRecord),
    Route(Put, IdParam, Some([Lab, Admin]), UpdateLabRecord)])

  /** collection.routes.js */
  const CollectionRouter := Router(true, [
    Route(Post, Literal("/"), None, CreateCollection),
    Route(Get, Literal("/"), None, ListMyCollections),
    Route(Get, Literal("/all"), Some([Admin, Lab]), ListAllCollections),
    Route(Get, IdParam, Some([Admin, Lab]), GetCollectionById)])

  /** admin.routes.js */
  const AdminRouter := Router(false, [
    Route(Get, Literal("/users"), Some([Admin]), ListUsers)])

  /** `GET /` of the lab router lists every record, for admins only. */
  lemma LabListRoute(caller: Option<Caller>)
    ensures Dispatch(LabRouter, Get, "/", caller) == Guarded([Admin], caller, ListLabRecords)
  {
    DispatchAt(LabRouter, Get, "/", caller, 0);
  }

  /** `GET /mine` reaches the caller's own listing, for lab staff and admins,
      although `/mine` also has the shape of an id. */
  lemma LabMineRoute(caller: Option<Caller>)
    ensures IsSegment("/mine")
    ensures Dispatch(LabRouter, Get, "/mine", caller) == Guarded([Lab, Admin], caller, ListMyLabRecords)
  {
    assert "/mine"[1..] == "mine";
    DispatchAt(LabRouter, Get, "/mine", caller, 1);
  }

  /** `GET /:id`, for lab staff and admins. */
  lemma LabReadRoute(caller: Option<Caller>, id: string)
    requires IsSegment(id) && id != "/mine"
    ensures Dispatch(LabRouter, Get, id, caller) == Guarded([Lab, Admin], caller, GetLabRecord)
  {
    DispatchAt(LabRouter, Get, id, caller, 2);
  }

  /** `POST /`, for lab staff and admins. */
  lemma LabCreateRoute(caller: Option<Caller>)
    ensures Dispatch(LabRouter, Post, "/", caller) == Guarded([Lab, Admin], caller, CreateLabRecord)
  {
    DispatchAt(LabRouter, Post, "/", caller, 3);
  }

  /** `PUT /:id`, for lab staff and admins; every segment is an id here. */
  lemma LabUpdateRoute(caller: Option<Caller>, id: string)
    requires IsSegment(id)
    ensures Dispatch(LabRouter, Put, id, caller) == Guarded([Lab, Admin], caller, UpdateLabRecord)
  {
    DispatchAt(LabRouter, Put, id, caller, 4);
  }

  lemma LabRolesExclude(r: Route)
    requires r in LabRouter.routes
    ensures r.roles.Some? && Collector !in r.roles.value && User !in r.roles.value
  {
  }

  /** Collectors and plain users reach no lab handler, whatever the request. */
  lemma {:induction false} LabClosedToCollectorAndUser(verb: Verb, path: string, id: Option<string>, role: Role)
    requires role == Collector || role == User
    ensures !Dispatch(LabRouter, verb, path, Some(Caller(id, Some(RoleName(role))))).Invoke?
  {
    var c := Some(Caller(id, Some(RoleName(role))));
    var rs := LabRouter.routes;
    var o := Dispatch(LabRouter, verb, path, c);
    if o.Invoke? {
      var i :| 0 <= i < |rs| && rs[i].handler == o.handler
               && RouteMatches(rs[i], verb, path)
               && (rs[i].roles.Some? ==> RequireRole(rs[i].roles.value, c) == Next);
      assert rs[i] in rs;
      LabRolesExclude(rs[i]);
      RoleOfCaller(rs[i].roles.value, id, role);
      assert false;
    }
  }

  /** `router.use(auth)`: every collection request without a valid token
      is refused before any route is looked at. */
  lemma CollectionAuthFirst(verb: Verb, path: string)
    ensures Dispatch(CollectionRouter, verb, path, None) == Refuse(Unauthenticated)
  {
  }

  /** `POST /` creates for an authenticated caller of any role. */
  lemma CollectionCreateRoute(caller: Caller)
    ensures Dispatch(CollectionRouter, Post, "/", Some(caller)) == Invoke(CreateCollection)
  {
    DispatchAt(CollectionRouter, Post, "/", Some(caller), 0);
  }

  /** `GET /` lists the caller's own for an authenticated caller of any role. */
  lemma CollectionMineRoute(caller: Caller)
    ensures Dispatch(CollectionRouter, Get, "/", Some(caller)) == Invoke(ListMyCollections)
  {
    DispatchAt(CollectionRouter, Get, "/", Some(caller), 1);
  }

  /** `GET /all` lists everything, for admins and lab staff, although `/all`
      also has the shape of an id. */
  lemma CollectionAllRoute(caller: Caller)
    ensures IsSegment("/all")
    ensures Dispatch(CollectionRouter, Get, "/all", Some(caller))
            == Guarded([Admin, Lab], Some(caller), ListAllCollections)
  {
    assert "/all"[1..] == "all";
    DispatchAt(CollectionRouter, Get, "/all", Some(caller), 2);
  }

  /** `GET /:id`, for admins and lab staff. */
  lemma CollectionReadRoute(caller: Caller, id: string)
    requires IsSegment(id) && id != "/all"
    ensures Dispatch(CollectionRouter, Get, id, Some(caller))
            == Guarded([Admin, Lab], Some(caller), GetCollectionById)
  {
    DispatchAt(CollectionRouter, Get, id, Some(caller), 3);
  }

  /** The admin router has one route, a read, for admins only: every other
      request finds no route, and no request without a valid token or
      without the admin role reaches a handler. */
  lemma {:induction false} AdminRoutes(verb: Verb, path: string, caller: Option<Caller>)
    ensures forall r :: r in AdminRouter.routes ==> r.verb == Get
    ensures Dispatch(AdminRouter, Get, "/users", caller) == Guarded([Admin], caller, ListUsers)
    ensures !(verb == Get && path == "/users") ==> Dispatch(AdminRouter, verb, path, caller) == NoRoute
    ensures caller.None? ==> !Dispatch(AdminRouter, verb, path, caller).Invoke?
    ensures Dispatch(AdminRouter, verb, path, caller).Invoke? ==>
              caller.Some? && caller.value.role == Some("admin")
  {
  }
}
