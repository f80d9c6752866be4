/** A client built from a builder's factory (`API` in index.js): the
    constructor registers every route of the builder's table with a fresh
    router, and `request` hands the matched route's handler the call
    unchanged. Matching is done by the `routes` package and is an input
    here: a `Match` is what `router.match(url)` returned. The client's
    `this`, which handlers receive, is passed explicitly as a `Context`. */
module Api {
  import opened JsValues
  import opened Strings
  import opened Routes
  import opened Routing
  import opened StandardHandler

  /** What a handler sees as `this`: the client's base URL (the `$http` and
      `$q` services it also holds are not modelled). */
  datatype Context = Context(api: string)

  /** The object `router.match(url)` returns: the route parameters (among
      them `reqType`) and the function registered for the matched route. */
  datatype Match = Match(params: map<string, string>, fn: Handler)

  /** What each application handler does when called as `fn(url, match,
      data)` on a client, keyed by its `id`. */
  type CustomHandlers = (nat, Context, string, Match, JsValue) -> Reply

  /** `request(url, data)` once the router has produced `m`: the matched
      function is called with `this` bound to the client and the arguments
      `(url, m, data)` unchanged, and what it returns (or throws) is what
      `request` returns (or throws). */
  function Request(self: Context, url: string, m: Match, data: JsValue, custom: CustomHandlers): (r: Reply)
    ensures m.fn.Custom? ==> r == custom(m.fn.id, self, url, m, data)
    ensures m.fn.Standard? ==> r == StandardReply(self.api, url, m.params, data)
  {
    match m.fn
    case Custom(id) => custom(id, self, url, m, data)
    case Standard => StandardReply(self.api, url, m.params, data)
  }

  /** A request whose match comes from a client's router reaches the
      handler the application stored for the matched pattern when that is
      truthy, and the standard handler otherwise. */
  lemma RequestReachesStoredHandler(t: RouteTable, pattern: string, self: Context, url: string, m: Match, data: JsValue, custom: CustomHandlers)
    requires t.Valid()
    requires Registration(pattern, m.fn) in Bind(t, t.keys)
    ensures pattern in t.entries
    ensures t.entries[pattern].Some? ==> Request(self, url, m, data, custom) == custom(t.entries[pattern].value.id, self, url, m, data)
    ensures t.entries[pattern].None? ==> Request(self, url, m, data, custom) == StandardReply(self.api, url, m.params, data)
  {
    RegisteredHandler(t, Registration(pattern, m.fn));
  }

  /** A route registered without a handler, requested with the verb token
      at the head of the URL: the standard handler issues the transport call
      for the rest of the URL under the base URL. */
  lemma DefaultRouteRequest(t: RouteTable, pattern: string, self: Context, v: Verb, rest: string,
                            m: Match, data: JsValue, custom: CustomHandlers)
    requires t.Valid()
    requires Registration(pattern, m.fn) in Bind(t, t.keys)
    requires pattern in t.entries && t.entries[pattern].None?
    requires ReqType(m.params) == Some(VerbName(v))
    ensures Request(self, VerbName(v) + "/" + rest, m, data, custom)
         == Returned(Deferred(HttpRequest(v, self.api + rest, if SendsBody(v) then Some(Payload(data)) else None)))
  {
    RequestReachesStoredHandler(t, pattern, self, VerbName(v) + "/" + rest, m, data, custom);
    VerbTokenStripped(self.api, v, rest, m.params, data);
  }

  lemma BindPair(t: RouteTable, a: string, b: string)
    ensures Bind(t, [a, b]) == [Registration(a, Effective(t.Lookup(a))), Registration(b, Effective(t.Lookup(b)))]
  {
  }

  class Api {
    var api: string
    var router: Router

    /** `new API($http, $q)` from `factory`: the table is read now, through
        the builder it belongs to, and each of its keys is registered in
        `Object.keys` order with `routes[route] || _standardRequestHandler`. */
    constructor (factory: ApiFactory)
      requires factory.table.Valid()
      ensures api == factory.api && fresh(router)
      ensures router.registrations == Bind(factory.table.routes, factory.table.routes.keys)
    {
      var routes := factory.table.routes;
      var r := new Router();
      var routeKeys := routes.keys;
      for index := 0 to |routeKeys|
        invariant r.registrations == Bind(routes, routeKeys[..index])
      {
        var route := routeKeys[index];
        var handler := Effective(routes.Lookup(route));
        r.AddRoute(route, handler);
        assert routeKeys[..index + 1][..index] == routeKeys[..index];
      }
      assert routeKeys[..|routeKeys|] == routeKeys;
      api := factory.api;
      router := r;
    }
  }

  /** Chained `addRoute` calls fill the builder's one table (the last
      handler written for a pattern wins); a client built from `serve()`
      registers that table; a route added afterwards reaches clients built
      afterwards, not the one built before: `stale` is the first client's
      registrations read at the end, `before` as they were when it was built. */
  method ChainedRegistration(api: string, show: string, create: string)
    returns (before: seq<Registration>, after: seq<Registration>, stale: seq<Registration>)
    requires show != create
    ensures before == [Registration(show, Custom(2))]
    ensures after == before + [Registration(create, Standard)]
    ensures stale == before
  {
    var builder := new Initiator(api);
    var chained := builder.AddRoute(show, None);
    chained := chained.AddRoute(show, Some(UserFn(2)));
    assert chained == builder;
    var factory := builder.Serve();
    var first := new Api(factory);
    before := first.router.registrations;
    assert builder.routes.keys == [show];
    assert [show][..0] == [];
    chained := builder.AddRoute(create, None);
    var second := new Api(factory);
    after := second.router.registrations;
    BindPair(builder.routes, show, create);
    stale := first.router.registrations;
  }
}
