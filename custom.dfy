// The custom-endpoint builders of vite-project/src/api/services/custom.js.
// Every call is a POST of an envelope to the backend's "/api/custom" route,
// which names the target URL, the key, the inner method and the inner body.
// Nothing is validated: empty keys and URLs are forwarded as they are.

module Custom {
  import opened Js
  import Http

  const GatewayPath: string := "/api/custom"

  /** `callCustomGateway(url, method, apiKey, data)`: the envelope carries each argument as given. */
  function CustomGateway(url: string, httpMethod: string, apiKey: Val, data: Val): (r: Http.Request)
    ensures r.baseURL == Http.DefaultBaseURL && r.url == GatewayPath && r.httpMethod == "post" && r.headers == map[]
    ensures r.data.Defined? && r.data.json.Obj? && r.data.json.fields.Keys <= {"url", "apiKey", "data", "method"}
    ensures Http.Carries(r.data.json, "url", Defined(Str(url)))
    ensures Http.Carries(r.data.json, "method", Defined(Str(httpMethod)))
    ensures Http.Carries(r.data.json, "apiKey", apiKey)
    ensures Http.Carries(r.data.json, "data", data)
  {
    Http.PostEnvelope(GatewayPath, map["url" := Defined(Str(url)), "apiKey" := apiKey,
                                       "data" := data, "method" := Defined(Str(httpMethod))])
  }

  /** `fetchCustomChatCompletion(params, apiKey, url)`: `<url>/v1/chat/completions`, inner "post", the params as body. */
  function CustomChatCompletion(params: Val, apiKey: Val, url: Val): (r: Http.Request)
    ensures r.url == GatewayPath && r.httpMethod == "post" && r.data.Defined?
    ensures Http.Carries(r.data.json, "url", Defined(Str(ValToString(url) + "/v1/chat/completions")))
    ensures Http.Carries(r.data.json, "method", Defined(Str("post")))
    ensures Http.Carries(r.data.json, "apiKey", apiKey)
    ensures Http.Carries(r.data.json, "data", params)
  {
    CustomGateway(ValToString(url) + "/v1/chat/completions", "post", apiKey, params)
  }

  /** `fetchCustomModels(apiKey, url)`: `<url>/v1/models`, inner "get", a null body. */
  function CustomModels(apiKey: Val, url: Val): (r: Http.Request)
    ensures r.url == GatewayPath && r.httpMethod == "post" && r.data.Defined?
    ensures Http.Carries(r.data.json, "url", Defined(Str(ValToString(url) + "/v1/models")))
    ensures Http.Carries(r.data.json, "method", Defined(Str("get")))
    ensures Http.Carries(r.data.json, "apiKey", apiKey)
    ensures Http.Carries(r.data.json, "data", Defined(Null))
  {
    CustomGateway(ValToString(url) + "/v1/models", "get", apiKey, Defined(Null))
  }
}
