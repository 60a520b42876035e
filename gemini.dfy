// The Google Gemini request builders of
// vite-project/src/api/services/gemini.js. Both refuse to build a request
// when the key or the base URL is missing or empty; the key travels as the
// `key` query parameter and no Authorization header is sent.
//
// The key and base URL are strings or absent (`None` for undefined or null).

module Gemini {
  import opened Js
  import opened Strings
  import Http

  const MissingConfigurationMessage: string := "API key or baseURL is not provided."
  const Model: string := "gemini-pro"
  const CompletionPath: string := "/v1beta/models/" + Model + ":generateContent"
  const ModelsPath: string := "/v1beta/models"

  /** `!value`: absent or empty. */
  predicate Missing(value: Option<string>)
  {
    value.None? || value.value == ""
  }

  /** `fetchGeminiCompletion(params, apiKey, baseURL)`: a rejection, or the POST of `params` as they are. */
  function GeminiCompletion(params: Val, apiKey: Option<string>, baseURL: Option<string>): (r: Result<Http.Request, string>)
    ensures r.Err? <==> Missing(apiKey) || Missing(baseURL)
    ensures r.Err? ==> r.error == MissingConfigurationMessage
    ensures r.Ok? ==>
              && r.value.baseURL == baseURL.value
              && r.value.url == CompletionPath + "?key=" + apiKey.value
              && r.value.httpMethod == "post"
              && r.value.headers == map["Content-Type" := Http.JsonContentType]
              && r.value.data == params
  {
    if Missing(apiKey) || Missing(baseURL) then Err(MissingConfigurationMessage)
    else Ok(Http.Request(baseURL.value, CompletionPath + "?key=" + apiKey.value, "post",
                         map["Content-Type" := Http.JsonContentType], params))
  }

  /** `fetchGeminiModels(apiKey, baseURL)`: a rejection, or a GET of the model list without a body. */
  function GeminiModels(apiKey: Option<string>, baseURL: Option<string>): (r: Result<Http.Request, string>)
    ensures r.Err? <==> Missing(apiKey) || Missing(baseURL)
    ensures r.Err? ==> r.error == MissingConfigurationMessage
    ensures r.Ok? ==>
              && r.value.baseURL == baseURL.value
              && r.value.url == ModelsPath + "?key=" + apiKey.value
              && r.value.httpMethod == "get"
              && r.value.headers == map[]
              && r.value.data == Undefined
  {
    if Missing(apiKey) || Missing(baseURL) then Err(MissingConfigurationMessage)
    else Ok(Http.Request(baseURL.value, ModelsPath + "?key=" + apiKey.value, "get", map[], Undefined))
  }

  /**
   * A URL built as `path?key=<apiKey>`, for a path without '?' and a key
   * without '?' or '&', has exactly one query parameter: `key` with the key.
   */
  lemma KeyIsOnlyQueryParameter(path: string, apiKey: string)
    requires '?' !in path && '?' !in apiKey && '&' !in apiKey
    ensures var parts := Split(path + "?key=" + apiKey, "?");
            && parts == [path, "key=" + apiKey]
            && Split(parts[1], "&") == ["key=" + apiKey]
  {
    var query := "key=" + apiKey;
    assert '?' !in query && '&' !in query by {
      forall j | 0 <= j < |query| ensures query[j] != '?' && query[j] != '&' {
        if j >= 4 {
          assert query[j] == apiKey[j - 4];
        }
      }
    }
    assert path + "?key=" + apiKey == path + ['?'] + query;
    SplitAtOnlySeparator(path, '?', query);
    NoCharNoContains(query, '&');
    SplitWithoutSep(query, "&");
  }

  /** Both builders carry the key once, as the `key` query parameter, and nowhere else. */
  lemma GeminiKeyInQueryOnly(params: Val, apiKey: string, baseURL: string)
    requires apiKey != "" && baseURL != "" && '?' !in apiKey && '&' !in apiKey
    ensures var completion := GeminiCompletion(params, Some(apiKey), Some(baseURL)).value;
            && Split(completion.url, "?") == [CompletionPath, "key=" + apiKey]
            && Split(Split(completion.url, "?")[1], "&") == ["key=" + apiKey]
            && "Authorization" !in completion.headers
    ensures var models := GeminiModels(Some(apiKey), Some(baseURL)).value;
            && Split(models.url, "?") == [ModelsPath, "key=" + apiKey]
            && Split(Split(models.url, "?")[1], "&") == ["key=" + apiKey]
            && "Authorization" !in models.headers
  {
    assert '?' !in CompletionPath;
    assert '?' !in ModelsPath;
    KeyIsOnlyQueryParameter(CompletionPath, apiKey);
    KeyIsOnlyQueryParameter(ModelsPath, apiKey);
  }
}
