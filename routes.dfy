/** The route table builder (`Initiator` in index.js): a base URL and a
    dictionary from route pattern to the handler the application supplied,
    filled in place by `addRoute` and captured by `serve`. */
module Routes {
  import opened JsValues

  /** A handler function the application registered, identified by `id`. */
  datatype UserHandler = UserFn(id: nat)

  /** The `routes` object: its keys in `Object.keys` order and the value
      stored under each. A value of `None` stands for any falsy value
      (`undefined` when `addRoute` is called without a handler). */
  datatype RouteTable = RouteTable(keys: seq<string>, entries: map<string, Option<UserHandler>>) {

    /** The keys listed are exactly the stored ones, each once. */
    predicate Valid() {
      (forall k :: k in entries ==> k in keys) &&
      (forall i :: 0 <= i < |keys| ==> keys[i] in entries) &&
      (forall i, j :: 0 <= i < j < |keys| ==> keys[i] != keys[j])
    }

    /** `routes[route]` for a key the table holds. A key it does not hold
        reads as `None` here; in JavaScript an inherited name such as
        `"toString"` would give a function, but only held keys are ever
        looked up. */
    function Lookup(route: string): Option<UserHandler> {
      if route in entries then entries[route] else None
    }

    /** `routes[route] = handler`: the value is written under `route`; a
        new key goes last, an existing key keeps its place. */
    function Put(route: string, handler: Option<UserHandler>): (t: RouteTable)
      requires Valid()
      ensures t.Valid()
      ensures t.entries == entries[route := handler]
      ensures route in entries ==> t.keys == keys
      ensures route !in entries ==> t.keys == keys + [route]
    {
      if route in entries then RouteTable(keys, entries[route := handler])
      else RouteTable(keys + [route], entries[route := handler])
    }
  }

  /** The table of a freshly constructed builder: `{}`. */
  const EmptyTable := RouteTable([], map[])

  /** After `addRoute(route, handler)`, `routes[route]` is `handler`, and
      every other pattern keeps its value and its presence. */
  lemma PutLookup(t: RouteTable, route: string, handler: Option<UserHandler>, other: string)
    requires t.Valid() && other != route
    ensures t.Put(route, handler).Lookup(route) == handler
    ensures t.Put(route, handler).Lookup(other) == t.Lookup(other)
    ensures other in t.Put(route, handler).entries <==> other in t.entries
  {
  }

  /** Writing the same pattern twice keeps only the last handler, and the
      pattern stays where it was first inserted. */
  lemma LastWriteWins(t: RouteTable, route: string, h1: Option<UserHandler>, h2: Option<UserHandler>)
    requires t.Valid()
    ensures t.Put(route, h1).Put(route, h2) == t.Put(route, h2)
  {
  }

  /** An overwrite keeps the position at which the pattern was first
      inserted and the number of patterns. */
  lemma OverwriteKeepsPosition(t: RouteTable, route: string, h: Option<UserHandler>, i: nat)
    requires t.Valid() && i < |t.keys| && t.keys[i] == route
    ensures |t.Put(route, h).keys| == |t.keys|
    ensures t.Put(route, h).keys[i] == route
  {
  }

  /** Writes under two different patterns commute as far as the stored
      handlers are concerned (the key order records which came first). */
  lemma PutCommutesOnEntries(t: RouteTable, r1: string, h1: Option<UserHandler>, r2: string, h2: Option<UserHandler>)
    requires t.Valid() && r1 != r2
    ensures t.Put(r1, h1).Put(r2, h2).entries == t.Put(r2, h2).Put(r1, h1).entries
  {
    assert t.entries[r1 := h1][r2 := h2] == t.entries[r2 := h2][r1 := h1];
  }

  /** What `serve()` captures: the base URL as a value, and the builder's
      `routes` object by reference, so routes added later are still seen by
      clients constructed later. */
  datatype ApiFactory = ApiFactory(api: string, table: Initiator)

  class Initiator {
    var api: string
    var routes: RouteTable

    ghost predicate Valid()
      reads this
    {
      routes.Valid()
    }

    /** `new Initiator(api)`. */
    constructor (api: string)
      ensures Valid()
      ensures this.api == api && routes == EmptyTable
    {
      this.api := api;
      routes := EmptyTable;
    }

    /** `addRoute(route, handler)`: stores the handler in place and returns
        the builder itself, so chained calls fill one shared table. */
    method AddRoute(route: string, handler: Option<UserHandler>) returns (self: Initiator)
      requires Valid()
      modifies this
      ensures self == this && Valid()
      ensures api == old(api)
      ensures routes == old(routes).Put(route, handler)
    {
      routes := routes.Put(route, handler);
      self := this;
    }

    /** `serve()`: the factory for API clients. */
    function Serve(): ApiFactory
      reads this
    {
      ApiFactory(api, this)
    }
  }
}
