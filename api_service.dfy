// The generic proxy call of vite-project/src/api/apiService.js: every request
// is a POST to the backend's "/api/proxy" route with an envelope naming the
// target URL, method, headers and body, each passed through unchanged.

module ApiService {
  import opened Js
  import Http
  import ProxyServer

  const ProxyPath: string := "/api/proxy"

  /** `proxyRequest(url, method, headers, data)`: each argument, the headers included, reaches the envelope unchanged. */
  function ProxyRequest(url: Val, httpMethod: Val, headers: Val, data: Val): (r: Http.Request)
    ensures r.url == ProxyPath && r.httpMethod == "post" && r.baseURL == Http.DefaultBaseURL
    ensures r.data.Defined? && r.data.json.Obj? && r.data.json.fields.Keys <= {"url", "method", "headers", "data"}
    ensures Http.Carries(r.data.json, "url", url)
    ensures Http.Carries(r.data.json, "method", httpMethod)
    ensures Http.Carries(r.data.json, "headers", headers)
    ensures Http.Carries(r.data.json, "data", data)
  {
    Http.PostEnvelope(ProxyPath, map["url" := url, "method" := httpMethod, "headers" := headers, "data" := data])
  }

  /**
   * The envelope has no `baseURL`, `path` or `apiKey`, so the proxy handler
   * of the backend answers it with 400 and never calls upstream.
   */
  lemma ProxyHandlerRejectsEnvelope(url: Val, httpMethod: Val, headers: Val, data: Val, upstream: ProxyServer.Outbound -> ProxyServer.Upstream)
    ensures var body := ProxyRequest(url, httpMethod, headers, data).data.json.fields;
            && "baseURL" !in body && "path" !in body && "apiKey" !in body
            && ProxyServer.HandleProxy(body, upstream) == ProxyServer.Rejected(ProxyServer.MissingParametersReply)
  {
    var body := ProxyRequest(url, httpMethod, headers, data).data.json.fields;
    assert ProxyServer.Param(body, "baseURL") == Undefined;
  }
}
