/** Registration of the builder's routes with a client's router. The router
    itself comes from the `routes` package; only the sequence of
    `addRoute(pattern, fn)` calls it receives is modelled here, not how it
    matches paths. */
module Routing {
  import opened JsValues
  import opened Routes

  /** The function a route is bound to: an application handler, or the
      built-in `_standardRequestHandler`. There is no "no handler". */
  datatype Handler = Custom(id: nat) | Standard

  datatype Registration = Registration(pattern: string, fn: Handler)

  /** `routes[route] || _standardRequestHandler`. */
  function Effective(stored: Option<UserHandler>): (h: Handler)
    ensures h.Custom? <==> stored.Some?
    ensures stored.Some? ==> h.id == stored.value.id
  {
    match stored
    case Some(UserFn(id)) => Custom(id)
    case None => Standard
  }

  /** The registrations made for the keys `keys` of a table whose stored
      values are read through `t.Lookup`, in the order of `keys`. */
  function Bind(t: RouteTable, keys: seq<string>): (regs: seq<Registration>)
    ensures |regs| == |keys|
  {
    if keys == [] then []
    else Bind(t, keys[..|keys| - 1]) + [Registration(keys[|keys| - 1], Effective(t.Lookup(keys[|keys| - 1])))]
  }

  /** The handlers registered under `pattern`, in registration order. */
  function HandlersFor(regs: seq<Registration>, pattern: string): seq<Handler> {
    if regs == [] then []
    else
      var last := regs[|regs| - 1];
      HandlersFor(regs[..|regs| - 1], pattern) + (if last.pattern == pattern then [last.fn] else [])
  }

  /** The registrations follow `Object.keys` order, one per key, each bound
      to the stored handler when it is truthy and to the standard handler
      otherwise. */
  lemma {:induction false} BindAt(t: RouteTable, keys: seq<string>, i: nat)
    requires i < |keys|
    ensures Bind(t, keys)[i] == Registration(keys[i], Effective(t.Lookup(keys[i])))
  {
    if i < |keys| - 1 {
      BindAt(t, keys[..|keys| - 1], i);
    }
  }

  /** Each pattern of a list without repetitions is registered exactly once,
      with its effective handler; a pattern outside the list is not
      registered at all. */
  lemma {:induction false} BindOnce(t: RouteTable, keys: seq<string>, pattern: string)
    requires forall i, j :: 0 <= i < j < |keys| ==> keys[i] != keys[j]
    ensures pattern in keys ==> HandlersFor(Bind(t, keys), pattern) == [Effective(t.Lookup(pattern))]
    ensures pattern !in keys ==> HandlersFor(Bind(t, keys), pattern) == []
  {
    if keys != [] {
      var init := keys[..|keys| - 1];
      var last := keys[|keys| - 1];
      BindOnce(t, init, pattern);
      var regs := Bind(t, keys);
      assert regs[..|regs| - 1] == Bind(t, init);
      assert pattern in keys <==> pattern in init || pattern == last;
    }
  }

  /** A registration for `pattern` carries a handler listed for it. */
  lemma {:induction false} HandlersForContains(regs: seq<Registration>, r: Registration)
    requires r in regs
    ensures r.fn in HandlersFor(regs, r.pattern)
  {
    var init := regs[..|regs| - 1];
    if regs[|regs| - 1] != r {
      assert r in init by {
        var j :| 0 <= j < |regs| && regs[j] == r;
        assert j < |regs| - 1;
        assert init[j] == r;
      }
      HandlersForContains(init, r);
    }
  }

  /** Registering a well-formed table gives every stored pattern exactly one
      handler, never none: the application's when it is truthy, the standard
      handler otherwise; a pattern that is not stored gets no handler. */
  lemma ExactlyOneHandlerPerRoute(t: RouteTable, pattern: string)
    requires t.Valid()
    ensures pattern in t.entries ==> HandlersFor(Bind(t, t.keys), pattern) == [Effective(t.entries[pattern])]
    ensures pattern !in t.entries ==> HandlersFor(Bind(t, t.keys), pattern) == []
  {
    BindOnce(t, t.keys, pattern);
  }

  /** Conversely, a registration the router received carries the effective
      handler of its pattern, and it is the only one for that pattern. */
  lemma RegisteredHandler(t: RouteTable, r: Registration)
    requires t.Valid()
    requires r in Bind(t, t.keys)
    ensures r.pattern in t.entries
    ensures HandlersFor(Bind(t, t.keys), r.pattern) == [r.fn]
    ensures r.fn == Effective(t.entries[r.pattern])
  {
    HandlersForContains(Bind(t, t.keys), r);
    BindOnce(t, t.keys, r.pattern);
  }

  /** The router of one client: the registrations it received, in order. */
  class Router {
    var registrations: seq<Registration>

    /** `Router()`: no routes yet. */
    constructor ()
      ensures registrations == []
    {
      registrations := [];
    }

    /** `router.addRoute(pattern, fn)`. */
    method AddRoute(pattern: string, fn: Handler)
      modifies this
      ensures registrations == old(registrations) + [Registration(pattern, fn)]
    {
      registrations := registrations + [Registration(pattern, fn)];
    }
  }
}
