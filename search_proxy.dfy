/** The `/api/search` handler of server/server.js: which response it sends.
    The upstream YouTube call is not made here; its outcome is an input, and
    the model states which request would be made. */
module SearchProxy {
  import opened Wrappers
  import opened Js

  /** What the upstream call produced: its response data, or an error with
      its message. */
  datatype Upstream = Fetched(data: Value) | Failed(message: string)

  datatype Response = Response(status: int, body: Value)

  const MockVideoId: string := "dQw4w9WgXcQ"
  const MockTitle: string := "Mock Video - Add API Key"

  /** The placeholder item served when no key is configured. Its thumbnail
      is under `medium`, not `default`. */
  const MockItem: Value :=
    Obj(map[
      "id" := Obj(map["videoId" := Str(MockVideoId)]),
      "snippet" := Obj(map[
        "title" := Str(MockTitle),
        "thumbnails" := Obj(map["medium" := Obj(map["url" := Str("")])])])])

  /** `YOUTUBE_API_KEY` is set and non-empty (`!API_KEY` is false). */
  predicate KeyConfigured(key: Option<string>) {
    key.Some? && key.value != ""
  }

  /** The query parameters of the upstream request, or `None` when the
      handler answers without calling upstream. */
  function UpstreamRequest(query: Value, key: Option<string>): (r: Option<map<string, Value>>)
    ensures r.Some? <==> KeyConfigured(key)
    ensures r.Some? ==> "q" in r.value && r.value["q"] == query
    ensures r.Some? ==> "key" in r.value && r.value["key"] == Str(key.value)
  {
    if !KeyConfigured(key) then None
    else Some(map[
      "part" := Str("snippet"),
      "maxResults" := Num(10.0),
      "q" := query,
      "type" := Str("video"),
      "key" := Str(key.value)])
  }

  /** The response of `GET /api/search?q=query`. Without a key: status 200
      and exactly the one placeholder item. With a key: status 200 and the
      upstream data unchanged, or status 500 and `{error: message}` when the
      upstream call failed. */
  function Search(query: Value, key: Option<string>, upstream: Upstream): (r: Response)
    ensures r.status == 500 <==> KeyConfigured(key) && upstream.Failed?
    ensures r.status != 500 ==> r.status == 200
    ensures !KeyConfigured(key) ==> r.body == Obj(map["items" := Arr([MockItem])])
    ensures KeyConfigured(key) && upstream.Fetched? ==> r.body == upstream.data
    ensures KeyConfigured(key) && upstream.Failed? ==> r.body == Obj(map["error" := Str(upstream.message)])
  {
    if !KeyConfigured(key) then Response(200, Obj(map["items" := Arr([MockItem])]))
    else
      match upstream
      case Fetched(data) => Response(200, data)
      case Failed(message) => Response(500, Obj(map["error" := Str(message)]))
  }

  /** Without a key the response depends on nothing: not on the query and
      not on what an upstream call would have returned (none is made). */
  lemma MockIgnoresQuery(q1: Value, q2: Value, key: Option<string>, u1: Upstream, u2: Upstream)
    requires !KeyConfigured(key)
    ensures Search(q1, key, u1) == Search(q2, key, u2)
    ensures UpstreamRequest(q1, key).None?
  {
  }
}
