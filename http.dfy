// The request configuration the front-end services hand to the shared axios
// client of vite-project/src/api/request.js, whose base URL is "/". Sending
// the request, the 60-second timeout and the pass-through interceptors are
// not modelled.

module Http {
  import opened Js

  const DefaultBaseURL: string := "/"
  const JsonContentType: string := "application/json"

  /** An axios request configuration; `data == Undefined` means the request has no body. */
  datatype Request = Request(baseURL: string, url: string, httpMethod: string, headers: map<string, string>, data: Val)

  /** The object `body` has the member `key` with the value `v`, or lacks it when `v` is undefined. */
  predicate Carries(body: Json, key: string, v: Val)
  {
    body.Obj? && (v.Defined? <==> key in body.fields) && (v.Defined? ==> body.fields[key] == v.json)
  }

  /**
   * An object literal as JSON.stringify sends it: members whose value is
   * `undefined` are dropped, all others are kept as they are.
   */
  function Serialized(members: map<string, Val>): (body: Json)
    ensures body.Obj? && body.fields.Keys <= members.Keys
    ensures forall k :: k in members ==> Carries(body, k, members[k])
  {
    Obj(map k | k in members && members[k].Defined? :: members[k].json)
  }

  /** `request({url, method: "post", data: {...}})`: a POST of an envelope object to one of the backend's routes. */
  function PostEnvelope(url: string, members: map<string, Val>): (r: Request)
    ensures r.baseURL == DefaultBaseURL && r.url == url && r.httpMethod == "post" && r.headers == map[]
    ensures r.data == Defined(Serialized(members))
  {
    Request(DefaultBaseURL, url, "post", map[], Defined(Serialized(members)))
  }
}
