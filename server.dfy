// The `/api/proxy` handler of vite-project/backend/server.js. It checks the
// request body for the four required parameters, builds the outbound request
// (URL, Bearer header, a body only for POST) and turns the upstream outcome
// into a status and a JSON body.
//
// The outbound call is an oracle from the outbound request to its outcome.
// Express, CORS, the listener and console output are not modelled.

module ProxyServer {
  import opened Js
  import opened Strings

  const MissingParametersMessage: string := "Missing required parameters: baseURL, path, method, apiKey"

  /** The axios configuration the handler sends upstream; `data == Undefined` means no body. */
  datatype Outbound = Outbound(httpMethod: string, url: string, headers: map<string, string>, data: Val)

  /** A status and a JSON body sent back to the browser. */
  datatype Reply = Reply(status: int, body: Json)

  /** The upstream response an axios error carries. */
  datatype UpstreamResponse = UpstreamResponse(status: int, data: Val)

  /** What the outbound call gives: the response data, or an error with or without a response. */
  datatype Upstream =
    | Succeeded(data: Json)
    | Failed(response: Option<UpstreamResponse>, message: string)

  /**
   * What the handler does before its outbound call: answers 400, throws
   * (`method.toLowerCase` is not a function, so the async handler rejects
   * and no reply is sent), or has a request ready.
   */
  datatype Prepared = Invalid(reply: Reply) | Throws | Ready(request: Outbound)

  /** What the handler does with one request. */
  datatype Outcome = Rejected(reply: Reply) | Unanswered | Forwarded(request: Outbound, reply: Reply)

  /** A member of the destructured `req.body`. */
  function Param(body: map<string, Json>, key: string): (v: Val)
    ensures key in body ==> v == Defined(body[key])
    ensures key !in body ==> v == Undefined
  {
    if key in body then Defined(body[key]) else Undefined
  }

  /** The required parameters, as the 400 message lists them. */
  predicate HasRequiredParameters(body: map<string, Json>)
  {
    && Truthy(Param(body, "baseURL"))
    && Truthy(Param(body, "path"))
    && Truthy(Param(body, "method"))
    && Truthy(Param(body, "apiKey"))
  }

  const MissingParametersReply: Reply := Reply(400, Obj(map["error" := Str(MissingParametersMessage)]))

  /**
   * Validation and the outbound request. The target URL is the plain
   * concatenation of baseURL and path; the headers are always the JSON
   * content type and the Bearer key; the body goes along only when the
   * lower-cased method is "post".
   */
  function Prepare(body: map<string, Json>): (p: Prepared)
    ensures p.Invalid? <==> !HasRequiredParameters(body)
    ensures p.Invalid? ==> p.reply == MissingParametersReply
    ensures p.Throws? <==> HasRequiredParameters(body) && !body["method"].Str?
    ensures p.Ready? ==>
              && HasRequiredParameters(body) && body["method"].Str?
              && p.request.httpMethod == body["method"].s
              && p.request.url == ToJsString(body["baseURL"]) + ToJsString(body["path"])
              && p.request.headers == map["Content-Type" := "application/json",
                                          "Authorization" := "Bearer " + ToJsString(body["apiKey"])]
              && (LowerAscii(p.request.httpMethod) == "post" ==> p.request.data == Param(body, "data"))
              && (LowerAscii(p.request.httpMethod) != "post" ==> p.request.data == Undefined)
  {
    if !HasRequiredParameters(body) then Invalid(MissingParametersReply)
    else if !body["method"].Str? then Throws
    else
      var httpMethod := body["method"].s;
      var url := ToJsString(body["baseURL"]) + ToJsString(body["path"]);
      var headers := map["Content-Type" := "application/json",
                         "Authorization" := "Bearer " + ToJsString(body["apiKey"])];
      var data := if LowerAscii(httpMethod) == "post" then Param(body, "data") else Undefined;
      Ready(Outbound(httpMethod, url, headers, data))
  }

  /**
   * The reply for an upstream outcome: the data with status 200 on success;
   * on an error, the upstream status unless it is missing or 0 (then 500),
   * and the upstream data unless it is missing or falsy (then the message).
   */
  function Respond(u: Upstream): (r: Reply)
    ensures u.Succeeded? ==> r == Reply(200, u.data)
    ensures u.Failed? && u.response.Some? && u.response.value.status != 0 ==> r.status == u.response.value.status
    ensures u.Failed? && (u.response.None? || u.response.value.status == 0) ==> r.status == 500
    ensures u.Failed? && u.response.Some? && Truthy(u.response.value.data) ==> Defined(r.body) == u.response.value.data
    ensures u.Failed? && !(u.response.Some? && Truthy(u.response.value.data)) ==>
              r.body == Obj(map["error" := Str(u.message)])
  {
    match u
    case Succeeded(data) => Reply(200, data)
    case Failed(response, message) =>
      var status := if response.Some? && response.value.status != 0 then response.value.status else 500;
      var data := if response.Some? then response.value.data else Undefined;
      Reply(status, OrDefault(data, Obj(map["error" := Str(message)])))
  }

  /** The handler: validation, then one outbound call through `upstream` and its reply. */
  function HandleProxy(body: map<string, Json>, upstream: Outbound -> Upstream): (o: Outcome)
    ensures !HasRequiredParameters(body) <==> o == Rejected(MissingParametersReply)
    ensures o.Unanswered? <==> Prepare(body).Throws?
    ensures o.Forwarded? ==> Prepare(body) == Ready(o.request) && o.reply == Respond(upstream(o.request))
  {
    match Prepare(body)
    case Invalid(reply) => Rejected(reply)
    case Throws => Unanswered
    case Ready(request) => Forwarded(request, Respond(upstream(request)))
  }

  /**
   * A request missing a required parameter is answered without the outbound
   * call: its outcome is the same whatever the upstream would have done.
   */
  lemma RejectionMakesNoCall(body: map<string, Json>, upstream1: Outbound -> Upstream, upstream2: Outbound -> Upstream)
    requires !HasRequiredParameters(body)
    ensures HandleProxy(body, upstream1) == HandleProxy(body, upstream2) == Rejected(MissingParametersReply)
  {
  }

  /** A forwarded request's reply depends on the upstream only through the call on that one request. */
  lemma ForwardedReplyFromOneCall(body: map<string, Json>, upstream1: Outbound -> Upstream, upstream2: Outbound -> Upstream)
    requires Prepare(body).Ready?
    requires upstream1(Prepare(body).request) == upstream2(Prepare(body).request)
    ensures HandleProxy(body, upstream1) == HandleProxy(body, upstream2)
  {
  }

  /** The success body is relayed verbatim, and an upstream error with a status and a truthy body is relayed unchanged. */
  lemma UpstreamRelayedUnchanged(status: int, data: Json, message: string)
    requires status != 0 && Truthy(Defined(data))
    ensures Respond(Succeeded(data)) == Reply(200, data)
    ensures Respond(Failed(Some(UpstreamResponse(status, Defined(data))), message)) == Reply(status, data)
  {
  }

  /** Examples of the lower-casing in `Prepare`: "post" carries the body in each of these letter cases. */
  lemma PostCarriesDataInAnyCase(body: map<string, Json>)
    requires Prepare(body).Ready?
    requires body["method"].s in {"post", "POST", "Post"}
    ensures Prepare(body).request.data == Param(body, "data")
  {
    assert LowerAscii("POST") == "post";
    assert LowerAscii("Post") == "post";
  }

  /**
   * Examples of the lower-casing in `Prepare`: these PUT, PATCH and GET spellings
   * are forwarded without their body. The general fact, that only a method whose
   * lower case is "post" carries it, is `Prepare`'s own ensures.
   */
  lemma OnlyPostCarriesData(body: map<string, Json>)
    requires Prepare(body).Ready?
    requires body["method"].s in {"put", "PUT", "patch", "PATCH", "get", "GET"}
    ensures Prepare(body).request.data == Undefined
  {
    assert LowerAscii("PUT") == "put";
    assert LowerAscii("PATCH") == "patch";
    assert LowerAscii("GET") == "get";
  }
}
