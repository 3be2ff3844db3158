/** The search side of src/App.jsx: which results `doSearch` stores, how each
    result item is read into an id, a title and a thumbnail, and what a
    click on a row sends. The `fetch` and the JSON parsing are not modelled:
    `doSearch` receives the parsed body, or `None` when either threw. */
module Results {
  import opened Wrappers
  import opened Js
  import Messages
  import SearchProxy

  /** What a result row shows and loads. */
  datatype Row = Row(id: Value, title: Value, thumb: Value)

  /** The value `doSearch(q)` stores in `results`. An empty query clears the
      list without a request; a failed request or unreadable body clears it
      too; otherwise the body's `items`, else its `results`, else the body
      itself, else an empty list. */
  function SearchResults(q: string, fetched: Option<Value>): (r: Value)
    ensures q == "" ==> r == Arr([])
    ensures fetched.None? ==> r == Arr([])
    ensures (q != "" && fetched.Some? && fetched.value.Obj? && "items" in fetched.value.fields
             && Truthy(fetched.value.fields["items"])) ==> r == fetched.value.fields["items"]
    ensures (q != "" && fetched.Some? && !Nullish(fetched.value)
             && !Truthy(Prop(fetched.value, "items")) && Truthy(Prop(fetched.value, "results")))
            ==> r == Prop(fetched.value, "results")
    ensures (q != "" && fetched.Some? && !Nullish(fetched.value)
             && !Truthy(Prop(fetched.value, "items")) && !Truthy(Prop(fetched.value, "results"))
             && Truthy(fetched.value)) ==> r == fetched.value
    ensures (q != "" && fetched.Some? && !Truthy(fetched.value)) ==> r == Arr([])
    ensures Truthy(r)
  {
    if q == "" then Arr([])
    else
      match fetched
      case None => Arr([])
      case Some(json) =>
        if Nullish(json) then Arr([])   // `json.items` throws; the catch clears
        else Or(Or(Or(Prop(json, "items"), Prop(json, "results")), json), Arr([]))
  }

  /** One result item as the list reads it. `None` means reading it throws
      (the item is `null` or `undefined`). The id is `it.id.videoId`, else
      `it.videoId`, else the item itself when it is a string, else `null`;
      the title falls back to `'Untitled'` and the thumbnail to `''`. */
  function Normalise(it: Value): (r: Option<Row>)
    ensures r.None? <==> Nullish(it)
    ensures r.Some? ==> Truthy(r.value.title)
    ensures r.Some? ==>
      (Truthy(r.value.id) <==>
         Truthy(OptProp(Prop(it, "id"), "videoId")) || Truthy(Prop(it, "videoId")) || (it.Str? && it.s != ""))
    ensures r.Some? && !Truthy(r.value.id) ==> r.value.id == Null || r.value.id == Str("")
    // the id: `it.id.videoId`, else `it.videoId`, else the string item, else null
    ensures r.Some? ==>
      var nested := OptProp(Prop(it, "id"), "videoId");
      var flat := Prop(it, "videoId");
      && (Truthy(nested) ==> r.value.id == nested)
      && (!Truthy(nested) && Truthy(flat) ==> r.value.id == flat)
      && (!Truthy(nested) && !Truthy(flat) ==> r.value.id == if it.Str? then it else Null)
    // the title: `it.snippet.title`, else `it.title`, else `it.name`, else 'Untitled'
    ensures r.Some? ==>
      var snippet := OptProp(Prop(it, "snippet"), "title");
      var title := Prop(it, "title");
      var name := Prop(it, "name");
      && (Truthy(snippet) ==> r.value.title == snippet)
      && (!Truthy(snippet) && Truthy(title) ==> r.value.title == title)
      && (!Truthy(snippet) && !Truthy(title) && Truthy(name) ==> r.value.title == name)
      && (!Truthy(snippet) && !Truthy(title) && !Truthy(name) ==> r.value.title == Str("Untitled"))
    // the thumbnail: `it.snippet.thumbnails.default.url`, else `it.thumbnail`, else ''
    ensures r.Some? ==>
      var url := OptProp(OptProp(OptProp(Prop(it, "snippet"), "thumbnails"), "default"), "url");
      var thumbnail := Prop(it, "thumbnail");
      && (Truthy(url) ==> r.value.thumb == url)
      && (!Truthy(url) && Truthy(thumbnail) ==> r.value.thumb == thumbnail)
      && (!Truthy(url) && !Truthy(thumbnail) ==> r.value.thumb == Str(""))
  {
    if Nullish(it) then None
    else
      var id := Or(Or(OptProp(Prop(it, "id"), "videoId"), Prop(it, "videoId")), if it.Str? then it else Null);
      var title := Or(Or(Or(OptProp(Prop(it, "snippet"), "title"), Prop(it, "title")), Prop(it, "name")), Str("Untitled"));
      var thumb := Or(Or(OptProp(OptProp(OptProp(Prop(it, "snippet"), "thumbnails"), "default"), "url"), Prop(it, "thumbnail")), Str(""));
      Some(Row(id, title, thumb))
  }

  /** A click on a row: `id && loadVideo(id)`. A load is sent exactly when the
      id is truthy and the player exists, and it carries that id. */
  function Click(row: Row, playerReady: bool): (r: Option<Messages.Envelope>)
    ensures r.Some? <==> Truthy(row.id) && playerReady
    ensures r.Some? ==> r.value == Messages.Load(row.id)
  {
    if Truthy(row.id) then Messages.LoadMessage(playerReady, row.id) else None
  }

  /** The placeholder item reads as id `dQw4w9WgXcQ`, its title, and an
      empty thumbnail, because it sets `thumbnails.medium` and the list reads
      `thumbnails.default`. */
  lemma MockItemRow()
    ensures Normalise(SearchProxy.MockItem)
              == Some(Row(Str(SearchProxy.MockVideoId), Str(SearchProxy.MockTitle), Str("")))
  {
  }

  /** With no key on the server and a non-empty query, the list holds exactly
      the placeholder item, and clicking it (with a player) sends a load of
      `dQw4w9WgXcQ`. */
  lemma MockSearchEndToEnd(q: string, key: Option<string>, u: SearchProxy.Upstream, playerReady: bool)
    requires q != "" && !SearchProxy.KeyConfigured(key)
    ensures SearchResults(q, Some(SearchProxy.Search(Str(q), key, u).body)) == Arr([SearchProxy.MockItem])
    ensures Click(Normalise(SearchProxy.MockItem).value, playerReady)
              == if playerReady then Some(Messages.Load(Str(SearchProxy.MockVideoId))) else None
  {
  }

  /** An upstream failure is not read as an error: `fetch` does not reject on
      status 500, the body `{error: message}` has neither `items` nor
      `results`, so the body object itself becomes `results`, which is not a
      list. */
  lemma UpstreamFailureBecomesResults(q: string, key: Option<string>, message: string)
    requires q != "" && SearchProxy.KeyConfigured(key)
    ensures var body := SearchProxy.Search(Str(q), key, SearchProxy.Failed(message)).body;
            SearchResults(q, Some(body)) == body && !SearchResults(q, Some(body)).Arr?
  {
  }
}
