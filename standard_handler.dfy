/** The built-in `_standardRequestHandler`: the decision it makes before the
    transport call (payload default, verb token stripped from the URL, base
    URL prefixed, branch on the verb or throw), and how its promise settles
    once the transport answers. The transport call itself is a parameter:
    the handler's decision is the request descriptor it would issue. */
module StandardHandler {
  import opened JsValues
  import opened Strings

  datatype Verb = Post | Get | Delete | Put

  /** The verb token as it appears in a route pattern and in `reqType`. */
  function VerbName(v: Verb): string {
    match v
    case Post => "POST"
    case Get => "GET"
    case Delete => "DELETE"
    case Put => "PUT"
  }

  /** Only POST and PUT send a body. */
  predicate SendsBody(v: Verb) {
    v == Post || v == Put
  }

  /** The verb a `reqType` value names, if any; comparisons are `===`, so
      only the exact upper-case strings are recognised. */
  function ParseVerb(reqType: Option<string>): (v: Option<Verb>)
    ensures v.Some? ==> reqType == Some(VerbName(v.value))
  {
    match reqType
    case Some("POST") => Some(Post)
    case Some("GET") => Some(Get)
    case Some("DELETE") => Some(Delete)
    case Some("PUT") => Some(Put)
    case _ => None
  }

  /** Parsing the name of a verb gives that verb back, and a value parses
      exactly when it is the name of one of the four verbs. */
  lemma ParseVerbName(v: Verb)
    ensures ParseVerb(Some(VerbName(v))) == Some(v)
  {
  }

  lemma ParseVerbOnlyNames(reqType: Option<string>)
    ensures ParseVerb(reqType).Some? <==> exists v: Verb :: reqType == Some(VerbName(v))
  {
  }

  /** `match.params.reqType`: absent parameters read as `undefined`. */
  function ReqType(params: map<string, string>): Option<string> {
    if "reqType" in params then Some(params["reqType"]) else None
  }

  /** `reqType` as string concatenation renders it. */
  function ReqTypeText(reqType: Option<string>): string {
    match reqType
    case Some(t) => t
    case None => "undefined"
  }

  /** A transport call: verb, absolute URL, and the body for POST and PUT. */
  datatype HttpRequest = HttpRequest(verb: Verb, url: string, body: Option<JsValue>)

  /** The transport call the standard handler issues for a request to `url`
      with route parameters `params` and data `data` on a client whose base
      URL is `api`, or the message of the `Error` it throws. */
  function StandardRequest(api: string, url: string, params: map<string, string>, data: JsValue): (r: Result<HttpRequest, string>)
    ensures r.Ok? <==> ParseVerb(ReqType(params)).Some?
    ensures r.Ok? ==> ParseVerb(ReqType(params)) == Some(r.value.verb)
    ensures r.Ok? ==> r.value.url == api + ReplaceFirst(url, VerbName(r.value.verb) + "/")
    ensures r.Ok? ==> (r.value.body.Some? <==> SendsBody(r.value.verb))
    ensures r.Ok? && r.value.body.Some? ==> r.value.body.value == Payload(data) && Truthy(r.value.body.value)
    ensures r.Err? ==> r.error == "Invalid request type: " + ReqTypeText(ReqType(params))
  {
    var payload := Payload(data);
    var reqType := ReqType(params);
    var path := ReplaceFirst(url, ReqTypeText(reqType) + "/");
    if reqType == Some("POST") then Ok(HttpRequest(Post, api + path, Some(payload)))
    else if reqType == Some("GET") then Ok(HttpRequest(Get, api + path, None))
    else if reqType == Some("DELETE") then Ok(HttpRequest(Delete, api + path, None))
    else if reqType == Some("PUT") then Ok(HttpRequest(Put, api + path, Some(payload)))
    else Err("Invalid request type: " + ReqTypeText(reqType))
  }

  /** The verb token leads the requested URL: the transport URL is the base
      URL followed by the rest, so the token never reaches the transport. */
  lemma VerbTokenStripped(api: string, v: Verb, rest: string, params: map<string, string>, data: JsValue)
    requires ReqType(params) == Some(VerbName(v))
    ensures StandardRequest(api, VerbName(v) + "/" + rest, params, data)
         == Ok(HttpRequest(v, api + rest, if SendsBody(v) then Some(Payload(data)) else None))
  {
    ReplaceFirstStripsPrefix(VerbName(v) + "/", rest);
    assert VerbName(v) + "/" + rest == (VerbName(v) + "/") + rest;
  }

  /** A request to a route without a `reqType` parameter throws
      `Invalid request type: undefined`. */
  lemma MissingReqTypeThrows(api: string, url: string, params: map<string, string>, data: JsValue)
    requires "reqType" !in params
    ensures StandardRequest(api, url, params, data) == Err("Invalid request type: undefined")
  {
    assert ReqType(params) == None;
    assert "Invalid request type: " + "undefined" == "Invalid request type: undefined";
  }

  /** The response the transport's promise resolves with. */
  datatype HttpResponse = HttpResponse(status: int, data: JsValue)

  /** How the transport call ends, if it ends: with a response, or failed. */
  datatype TransportOutcome = Responded(response: HttpResponse) | Failed(reason: JsValue)

  datatype PromiseState = Pending | Resolved(value: JsValue) | Rejected(reason: JsValue)

  /** The state of `defer.promise` once the transport call has ended: the
      success callback resolves it with `response.data`; nothing is attached
      for failure, so a failed call leaves it pending, never rejected. */
  function Settle(outcome: TransportOutcome): (s: PromiseState)
    ensures !s.Rejected?
    ensures s.Resolved? <==> outcome.Responded?
    ensures outcome.Responded? ==> s.value == outcome.response.data
  {
    match outcome
    case Responded(response) => Resolved(response.data)
    case Failed(_) => Pending
  }

  /** The promise a handler returns: the standard handler's deferred, tied
      to the transport call it issued, or an application handler's own. */
  datatype Promise = Deferred(request: HttpRequest) | Foreign(id: nat)

  /** What calling a handler does: return a promise, or throw. */
  datatype Reply = Returned(promise: Promise) | Threw(message: string)

  /** `_standardRequestHandler(url, match, data)` called with the client as
      `this`: it returns its deferred promise after issuing the transport
      call, or throws before creating any call. */
  function StandardReply(api: string, url: string, params: map<string, string>, data: JsValue): (r: Reply)
    ensures r.Threw? <==> ParseVerb(ReqType(params)).None?
    ensures r.Threw? ==> r.message == "Invalid request type: " + ReqTypeText(ReqType(params))
    ensures r.Returned? ==> r.promise.Deferred? && Ok(r.promise.request) == StandardRequest(api, url, params, data)
  {
    match StandardRequest(api, url, params, data)
    case Ok(request) => Returned(Deferred(request))
    case Err(message) => Threw(message)
  }
}
