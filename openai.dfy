// The OpenAI request builder of vite-project/src/api/services/openai.js. The
// key is read from localStorage ("apiKey"), which is an input here: `None`
// when nothing is stored. The request goes through the shared client with
// its "/" base URL.

module OpenAI {
  import opened Js
  import Http

  const MissingKeyMessage: string := "API key is not set in localStorage."
  const CompletionPath: string := "/v1/chat/completions"
  const DefaultModel: string := "gpt-3.5-turbo"

  /**
   * `fetchOpenAIChatCompletion(params)` with the stored key: a rejection when
   * no key or an empty one is stored, or a POST whose body is the default
   * model overlaid with `params`.
   */
  function OpenAIChatCompletion(params: map<string, Json>, storedKey: Option<string>): (r: Result<Http.Request, string>)
    ensures r.Err? <==> storedKey.None? || storedKey.value == ""
    ensures r.Err? ==> r.error == MissingKeyMessage
    ensures r.Ok? ==>
              && r.value.baseURL == Http.DefaultBaseURL
              && r.value.url == CompletionPath
              && r.value.httpMethod == "post"
              && r.value.headers == map["Authorization" := "Bearer " + storedKey.value,
                                        "Content-Type" := Http.JsonContentType]
              && r.value.data.Defined? && r.value.data.json.Obj?
              && r.value.data.json.fields.Keys == params.Keys + {"model"}
              && (forall k :: k in params ==> r.value.data.json.fields[k] == params[k])
              && ("model" !in params ==> r.value.data.json.fields["model"] == Str(DefaultModel))
  {
    if storedKey.None? || storedKey.value == "" then Err(MissingKeyMessage)
    else
      var body := map["model" := Str(DefaultModel)] + params;
      Ok(Http.Request(Http.DefaultBaseURL, CompletionPath, "post",
                      map["Authorization" := "Bearer " + storedKey.value, "Content-Type" := Http.JsonContentType],
                      Defined(Obj(body))))
  }

  /**
   * The key reaches the request only through the Authorization header: two
   * keys give requests that differ in that header alone.
   */
  lemma KeyOnlyInAuthorization(params: map<string, Json>, key1: string, key2: string)
    requires key1 != "" && key2 != ""
    ensures var r1 := OpenAIChatCompletion(params, Some(key1)).value;
            var r2 := OpenAIChatCompletion(params, Some(key2)).value;
            && r1.url == r2.url == CompletionPath
            && r1 == r2.(headers := r2.headers["Authorization" := "Bearer " + key1])
  {
  }

  /** A `model` in `params` replaces the default model; every other member of `params` is sent as given. */
  lemma ParamsOverrideModel(params: map<string, Json>, key: string)
    requires key != "" && "model" in params
    ensures OpenAIChatCompletion(params, Some(key)).value.data == Defined(Obj(params))
  {
    var body := map["model" := Str(DefaultModel)] + params;
    assert body == params;
  }
}
