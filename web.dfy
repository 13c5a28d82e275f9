/**
 * The route registry of the web server: the class-level tables that every
 * `@web_api` declaration writes into, and the server object that copies them
 * into its router and can be started and shut down.
 */
module Web {
  import opened Wrappers
  import opened Values

  /** A decorated API function, named by its module and qualified name. */
  datatype WebApiRef = WebApiRef(moduleName: string, qualname: string)

  /** The request handler `web_api` wraps around a function: `invoke_get` or `invoke_post`. */
  datatype AsyncApi =
    | InvokeGet(func: WebApiRef, contentType: string)
    | InvokePost(func: WebApiRef, contentType: string)

  /** Every element of `s` occurs once, and the elements are exactly `keys`. */
  ghost predicate Enumerates(s: seq<string>, keys: set<string>)
  {
    (forall i, j :: 0 <= i < j < |s| ==> s[i] != s[j])
    && (forall k :: k in s <==> k in keys)
  }

  /**
   * The class attributes `routes_get`, `routes_post`, `callables_get`,
   * `callables_post` and `content_type` of WebApplication, shared by every
   * instance. `orderGet` and `orderPost` record the insertion order of the
   * two route dictionaries, which is their iteration order.
   */
  class RouteTables {
    var routesGet: map<string, AsyncApi>
    var routesPost: map<string, AsyncApi>
    var callablesGet: map<string, WebApiRef>
    var callablesPost: map<string, WebApiRef>
    var contentType: map<string, string>
    var orderGet: seq<string>
    var orderPost: seq<string>

    /**
     * No route is registered for both verbs, each handler table has its
     * callable table beside it, and every registered route has a content type.
     */
    ghost predicate Valid()
      reads this
    {
      routesGet.Keys !! routesPost.Keys
      && callablesGet.Keys == routesGet.Keys
      && callablesPost.Keys == routesPost.Keys
      && contentType.Keys == routesGet.Keys + routesPost.Keys
      && Enumerates(orderGet, routesGet.Keys)
      && Enumerates(orderPost, routesPost.Keys)
    }

    /** The route is taken, under either verb. */
    predicate Registered(route: string)
      reads this
    {
      route in routesGet || route in routesPost
    }

    constructor()
      ensures Valid()
      ensures routesGet == map[] && routesPost == map[]
      ensures callablesGet == map[] && callablesPost == map[] && contentType == map[]
      ensures orderGet == [] && orderPost == []
    {
      routesGet := map[];
      routesPost := map[];
      callablesGet := map[];
      callablesPost := map[];
      contentType := map[];
      orderGet := [];
      orderPost := [];
    }

    /**
     * `register_route_get`: a route already present under GET or POST is
     * refused with DuplicateRoute before anything is written; otherwise the
     * three GET-side entries are set and the POST tables are left alone.
     */
    method RegisterRouteGet(route: string, handler: AsyncApi, api: WebApiRef, ct: string) returns (r: Outcome<()>)
      requires Valid()
      modifies this
      ensures Valid()
      ensures old(Registered(route)) ==> r == Err(DuplicateRoute) && unchanged(this)
      ensures !old(Registered(route)) ==>
        r == Ok(())
        && routesGet == old(routesGet)[route := handler]
        && callablesGet == old(callablesGet)[route := api]
        && contentType == old(contentType)[route := ct]
        && orderGet == old(orderGet) + [route]
        && routesPost == old(routesPost)
        && callablesPost == old(callablesPost)
        && orderPost == old(orderPost)
    {
      if route in routesGet || route in routesPost {
        return Err(DuplicateRoute);
      }
      routesGet := routesGet[route := handler];
      callablesGet := callablesGet[route := api];
      contentType := contentType[route := ct];
      orderGet := orderGet + [route];
      r := Ok(());
    }

    /** `register_route_post`: the same, with the roles of the two verbs exchanged. */
    method RegisterRoutePost(route: string, handler: AsyncApi, api: WebApiRef, ct: string) returns (r: Outcome<()>)
      requires Valid()
      modifies this
      ensures Valid()
      ensures old(Registered(route)) ==> r == Err(DuplicateRoute) && unchanged(this)
      ensures !old(Registered(route)) ==>
        r == Ok(())
        && routesPost == old(routesPost)[route := handler]
        && callablesPost == old(callablesPost)[route := api]
        && contentType == old(contentType)[route := ct]
        && orderPost == old(orderPost) + [route]
        && routesGet == old(routesGet)
        && callablesGet == old(callablesGet)
        && orderGet == old(orderGet)
    {
      if route in routesPost || route in routesGet {
        return Err(DuplicateRoute);
      }
      routesPost := routesPost[route := handler];
      callablesPost := callablesPost[route := api];
      contentType := contentType[route := ct];
      orderPost := orderPost + [route];
      r := Ok(());
    }
  }

  /** An entry of the aiohttp router. */
  datatype RouterEntry =
    | GetRoute(path: string, handler: AsyncApi)
    | PostRoute(path: string, handler: AsyncApi)
    | StaticRoute(prefix: string, directory: string)

  /** The router entries for `routes` in the given order. */
  function RouterEntries(order: seq<string>, routes: map<string, AsyncApi>, get: bool): (r: seq<RouterEntry>)
    requires forall k :: k in order ==> k in routes
    ensures |r| == |order|
    ensures forall i :: 0 <= i < |r| ==>
      r[i] == (if get then GetRoute(order[i], routes[order[i]]) else PostRoute(order[i], routes[order[i]]))
  {
    if |order| == 0 then []
    else RouterEntries(order[..|order| - 1], routes, get)
         + [if get then GetRoute(order[|order| - 1], routes[order[|order| - 1]])
            else PostRoute(order[|order| - 1], routes[order[|order| - 1]])]
  }

  /** The loop of the constructor that adds one router entry per route, in order. */
  method CollectEntries(order: seq<string>, routes: map<string, AsyncApi>, get: bool) returns (entries: seq<RouterEntry>)
    requires forall k :: k in order ==> k in routes
    ensures entries == RouterEntries(order, routes, get)
  {
    entries := [];
    var i := 0;
    while i < |order|
      invariant 0 <= i <= |order|
      invariant entries == RouterEntries(order[..i], routes, get)
    {
      assert order[..i + 1][..i] == order[..i];
      var route := order[i];
      entries := entries + [if get then GetRoute(route, routes[route]) else PostRoute(route, routes[route])];
      i := i + 1;
    }
    assert order[..i] == order;
  }

  /** A WebApplication instance: its router and whether it has been started. */
  class WebApplication {
    var router: seq<RouterEntry>
    var started: bool

    /**
     * Every GET route, then every POST route, each verb in registration order,
     * then the static directory when one is given; the server starts stopped.
     */
    constructor(tables: RouteTables, staticPath: string)
      requires tables.Valid()
      ensures router ==
        RouterEntries(tables.orderGet, tables.routesGet, true)
        + RouterEntries(tables.orderPost, tables.routesPost, false)
        + (if staticPath == "" then [] else [StaticRoute("/static", staticPath)])
      ensures !started
    {
      var getEntries := CollectEntries(tables.orderGet, tables.routesGet, true);
      var postEntries := CollectEntries(tables.orderPost, tables.routesPost, false);
      router := getEntries + postEntries;
      if staticPath != "" {
        router := router + [StaticRoute("/static", staticPath)];
      }
      started := false;
    }

    /** `start` marks the server started; running the aiohttp application is not modelled. */
    method Start()
      modifies this
      ensures started
      ensures router == old(router)
    {
      started := true;
    }

    /**
     * `shutdown` shuts the aiohttp application down only when the server was
     * started (`shutDown` says whether it did), and leaves it stopped.
     */
    method Shutdown() returns (shutDown: bool)
      modifies this
      ensures shutDown == old(started)
      ensures !started
      ensures router == old(router)
    {
      shutDown := false;
      if started {
        shutDown := true;
        started := false;
      }
    }
  }
}
