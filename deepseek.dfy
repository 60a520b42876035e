// The DeepSeek builders of vite-project/src/api/services/deepseek.js. Every
// call is a POST to the backend route "/api/deepseek/<endpoint>" with an
// envelope of the key, the inner body and the inner method; the target is
// chosen by the route, so the envelope has no URL.

module Deepseek {
  import opened Js
  import Http

  const GatewayPrefix: string := "/api/deepseek/"
  const ChatEndpoint: string := "v1/chat/completions"
  const ModelsEndpoint: string := "v1/models"

  /** `callDeepseekGateway(endpoint, method, apiKey, data)`: the envelope is `{apiKey, data, method}` verbatim. */
  function DeepseekGateway(endpoint: string, httpMethod: string, apiKey: Val, data: Val): (r: Http.Request)
    ensures r.baseURL == Http.DefaultBaseURL && r.url == GatewayPrefix + endpoint && r.httpMethod == "post"
    ensures r.data.Defined? && r.data.json.Obj? && r.data.json.fields.Keys <= {"apiKey", "data", "method"}
    ensures "url" !in r.data.json.fields
    ensures Http.Carries(r.data.json, "apiKey", apiKey)
    ensures Http.Carries(r.data.json, "data", data)
    ensures Http.Carries(r.data.json, "method", Defined(Str(httpMethod)))
  {
    Http.PostEnvelope(GatewayPrefix + endpoint, map["apiKey" := apiKey, "data" := data, "method" := Defined(Str(httpMethod))])
  }

  /** `fetchDeepseekChatCompletion(params, apiKey)`: the chat route, inner "post", the params as body. */
  function DeepseekChatCompletion(params: Val, apiKey: Val): (r: Http.Request)
    ensures r.url == GatewayPrefix + ChatEndpoint && r.httpMethod == "post" && r.data.Defined?
    ensures Http.Carries(r.data.json, "method", Defined(Str("post")))
    ensures Http.Carries(r.data.json, "apiKey", apiKey)
    ensures Http.Carries(r.data.json, "data", params)
  {
    DeepseekGateway(ChatEndpoint, "post", apiKey, params)
  }

  /** `fetchDeepseekModels(apiKey)`: the models route, inner "get", a null body. */
  function DeepseekModels(apiKey: Val): (r: Http.Request)
    ensures r.url == GatewayPrefix + ModelsEndpoint && r.httpMethod == "post" && r.data.Defined?
    ensures Http.Carries(r.data.json, "method", Defined(Str("get")))
    ensures Http.Carries(r.data.json, "apiKey", apiKey)
    ensures Http.Carries(r.data.json, "data", Defined(Null))
  {
    DeepseekGateway(ModelsEndpoint, "get", apiKey, Defined(Null))
  }
}
