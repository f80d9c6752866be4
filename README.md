# angular-api request router, modelled in Dafny

`index.js` of angular-api is a small client-side request router for
Angular applications. An `Initiator` builder collects route patterns such
as `":reqType/users/:id"`, each with an optional handler. `serve()` turns the
builder into an `API` constructor. Each `API` client registers every route
with its own router from the `routes` package. `request(url, data)` matches
the URL and calls the matched handler. A route without a handler falls back
to `_standardRequestHandler`. That handler strips the verb token from the
URL, prefixes the base URL, issues the `$http` call for the verb, and
resolves a `$q` promise with `response.data`.

The model has one module per component:

- `JsValues` (`js_values.dfy`): JavaScript values, truthiness, and the
  `data || {}` payload default.
- `Strings` (`strings.dfy`): `String.prototype.replace` with a string
  pattern, which removes only the first occurrence.
- `Routes` (`routes.dfy`): the builder. `RouteTable` is the `routes` object,
  an ordered dictionary whose keys are kept in `Object.keys` order.
  `Initiator` is a class whose `AddRoute` updates that table in place and
  returns the builder itself. `Serve` keeps the base URL as a value and refers
  to the builder, whose table a client reads when it is constructed.
- `Routing` (`router.dfy`): the handler chosen for each route
  (`routes[route] || _standardRequestHandler`), the router as the sequence of
  registrations it receives, and the specification `Bind` of the
  registration loop.
- `StandardHandler` (`standard_handler.dfy`): the standard handler's
  decision as a pure function. It returns the transport request
  `(verb, url, body)` or the message of the `Error` it throws. `Settle`
  gives the state of its promise once the transport call has ended.
- `Api` (`api.dfy`): the `API` class. Its constructor runs the registration
  loop. `Request` is `request` given the router's match. There are also
  end-to-end lemmas and a chained-configuration client.

The transport, the promise library and the `routes` matcher are inputs:

- A transport call is a request descriptor.
- A `Match` is the object `router.match(url)` returned.
- The client that handlers receive as `this` is an explicit `Context`.

The model follows the code as written:

- An unsupported verb makes the standard handler throw synchronously. It
  does not return a rejected promise (index.js:179-181).
- A failed transport call leaves the promise pending forever. It is never
  rejected (index.js:139-176; `Settle`).
- A request for a route without a `reqType` parameter throws
  `Invalid request type: undefined` (`MissingReqTypeThrows`).
- `serve()` shares the builder's `routes` object. So a route added after
  `serve()` reaches clients constructed afterwards, but not clients that
  already exist (`ChainedRegistration`).

## Model

| member | source | states |
|---|---|---|
| `JsValues.Payload` | index.js:127-128 | the payload is `data` exactly when `data` is truthy, `{}` otherwise, and never undefined or null |
| `Strings.IndexOf` | index.js:134 | the index found is an occurrence of the pattern with no occurrence before it, and `None` means the pattern occurs nowhere |
| `Strings.ReplaceFirst` | index.js:134 | without an occurrence the URL is unchanged; with one, exactly the pattern's length is removed |
| `Strings.ReplaceFirstNoMatch` | index.js:134 | a URL that does not contain `reqType + '/'` is passed on unchanged |
| `Strings.ReplaceFirstCutsFirst` | index.js:134 | only the first occurrence is removed; the text before it and after it is kept |
| `Strings.ReplaceFirstStripsPrefix` | index.js:134 | a verb token at the head of the URL is stripped from the front |
| `Strings.ReplaceFirstRestores` | index.js:134 | putting the pattern back at the first occurrence's index gives the original URL |
| `Routes.RouteTable.Put` | index.js:52 | `routes[route] = handler` keeps keys and entries in step with each key once; a new key goes last, an existing key keeps its place |
| `Routes.PutLookup` | index.js:49-53 | afterwards `routes[route]` is the handler, and every other route keeps its value and its presence |
| `Routes.LastWriteWins` | index.js:52 | writing a route twice equals writing only the second handler, position included |
| `Routes.OverwriteKeepsPosition` | index.js:52 | an overwrite keeps the route at its first insertion index and keeps the number of routes |
| `Routes.PutCommutesOnEntries` | index.js:52 | writes to two different routes give the same stored handlers in either order |
| `Routes.Initiator.constructor` | index.js:34-40 | a new builder holds the base URL and an empty, well-formed route table |
| `Routes.Initiator.AddRoute` | index.js:49-55 | the table is updated in place by `Put`, the base URL is unchanged, and the builder itself is returned for chaining |
| `Routing.Effective` | index.js:93 | a route is bound to the application's handler exactly when one is stored, and to the standard handler otherwise |
| `Routing.Bind` | index.js:88-95 | the registration loop makes one registration per key |
| `Routing.BindAt` | index.js:88-95 | the i-th registration is the i-th key of `Object.keys`, bound to its effective handler |
| `Routing.BindOnce` | index.js:88-95 | for keys without repetition, each key is registered exactly once with its effective handler, and any other pattern is not registered |
| `Routing.ExactlyOneHandlerPerRoute` | index.js:88-95 | after construction every stored route has exactly one handler, never none, and an unknown pattern has none |
| `Routing.RegisteredHandler` | index.js:88-95 | any registration the router received is the only one for its pattern and carries that pattern's effective handler |
| `Routing.Router.constructor` | index.js:85 | a new router has no registrations |
| `Routing.Router.AddRoute` | index.js:94 | the registration is appended after the earlier ones |
| `StandardHandler.ParseVerb` | index.js:136-168 | a recognised `reqType` is exactly the name of the verb it stands for |
| `StandardHandler.ParseVerbName` | index.js:136-168 | each of POST, GET, DELETE and PUT is recognised as itself |
| `StandardHandler.ParseVerbOnlyNames` | index.js:136-181 | a `reqType` is accepted if and only if it is one of the four verb names |
| `StandardHandler.StandardRequest` | index.js:124-183 | a request is issued if and only if the verb is one of the four. The URL is `api` plus `url` with its first `reqType + '/'` removed. POST and PUT carry the truthy normalised payload; GET and DELETE carry no body. Any other `reqType` yields `Invalid request type: <reqType>` |
| `StandardHandler.VerbTokenStripped` | index.js:134-177 | for a URL that starts with the verb token, the transport URL is the base URL followed by the rest of the URL |
| `StandardHandler.MissingReqTypeThrows` | index.js:131-181 | a match without a `reqType` parameter throws `Invalid request type: undefined` |
| `StandardHandler.Settle` | index.js:139-176 | the promise resolves with `response.data` if and only if the transport responds; it is never rejected, and a failed call leaves it pending |
| `StandardHandler.StandardReply` | index.js:124-184 | the handler throws if and only if the verb is unsupported, and then issues no call; otherwise it returns the promise tied to the request `StandardRequest` describes |
| `Api.Request` | index.js:106-114 | the matched handler is called under the client's context with `(url, match, data)` unchanged, and its result is returned unchanged |
| `Api.RequestReachesStoredHandler` | index.js:88-114 | a request matched to a registered route reaches the application's handler for that route if it is truthy, and the standard handler otherwise |
| `Api.DefaultRouteRequest` | index.js:106-183 | on a route registered without a handler, `request("<VERB>/rest", data)` issues the call for `api + rest`, with the normalised payload as body for POST and PUT and no body for GET and DELETE |
| `Api.Api.constructor` | index.js:77-96 | the new client's fresh router holds exactly `Bind` of the builder's table as it is at construction time |
| `Api.ChainedRegistration` | index.js:49-96 | chained `addRoute` calls fill one table, and the last write for a route wins. A route added after `serve()` reaches clients built later; the router of a client built earlier, read at the end, still lacks it |

## Left out

- Path matching and parameter extraction are left out. They are done by the
  `routes` package (`Router()`, `router.match`, index.js:25, 85, 110), which
  is not part of this model. A `Match` is an input, and nothing is proved
  about how patterns match.
- What `request` does when no route matches is left out. There,
  `match.fn` throws a `TypeError` on `undefined`.
- The `routes` package's own checks inside `router.addRoute` are not
  modelled. Registration is an append.
- `$http` and `$q` (index.js:81-82, 130, 139-176) are not modelled, because
  they are network I/O and a foreign promise library. A transport call is
  its request descriptor. `Settle` takes the transport's outcome as a
  parameter. The asynchronous timing of resolution is not modelled. The
  client's `http` and `q` fields are not kept.
- The Angular service and dependency-injection glue, and the
  `this`/`apply` receiver mechanics (index.js:77-83, 113), are not modelled.
  The context is passed explicitly.
- Application handlers are opaque. Their behaviour is a function parameter
  of `Request`, keyed by handler id.
- Falsy handler values (`undefined`, `null`, `false`, `0`, `""`) are all one
  value, `None`. A truthy value that is not a function (which would fail
  when called) is not modelled.
- `Object.keys` lists integer-like keys (such as `"7"`) first, in numeric
  order. This is not modelled, because route patterns carry a verb token
  and a `/`. The special key `__proto__`, which would not create an own
  property, is not modelled either.
- `for...in` over the key array (index.js:89) is modelled as iteration over
  the indices in order. Enumerable properties inherited by arrays are not
  modelled.
- `serve()` captures the `routes` object (index.js:66); the model's
  `Serve` captures the builder and reads its table when a client is
  constructed. The two differ only if the builder's `routes` property is
  reassigned after `serve()`, which the model does not capture.
- Numbers in request data are integers. NaN, -0 and floating point are not
  modelled. Route parameters and URLs are strings. Arguments of other types
  are not modelled.
