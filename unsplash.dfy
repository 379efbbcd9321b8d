/** The curated-photo provider (`queryBgImgUrlUnsplash`): a three-way decision on
    the API key and the response status. */
module Unsplash {
  import opened Wrappers
  import Js

  /** The query parameters of the random-photo request. */
  datatype UnsplashRequest = UnsplashRequest(clientId: string, orientation: string, query: string)

  /** A response: its status, its body as text (`res.text()`), and the outcome of
      reading `urls.full` from its body as JSON (`res.json()`): an error when the
      body is not JSON or has no `urls` object, `None` when `urls` has no `full`
      (the expression is then `undefined`), the URL otherwise. */
  datatype UnsplashResponse = UnsplashResponse(status: int, text: string, fullUrl: Result<Option<string>>)

  /** What one call does: the value it resolves to (a URL, or `undefined` as
      `None`) or its error, and the request it sent, if any. */
  datatype UnsplashQuery = UnsplashQuery(result: Result<Option<string>>, request: Option<UnsplashRequest>)

  const NoApiKeyError: string := "unsplash error: no api key given"
  const ErrorPrefix: string := "unsplash error: "

  /** `queryBgImgUrlUnsplash`. `apiKey` is `unsplash_api_key` from the application
      configuration; `fetch` answers a request with a response or a network failure. */
  function QueryBgImgUrlUnsplash(apiKey: Option<string>, searchTerm: Option<string>,
                                 fetch: UnsplashRequest -> Result<UnsplashResponse>): (q: UnsplashQuery)
    // no key: fails before any request
    ensures !Js.Truthy(apiKey) ==> q == UnsplashQuery(Err(NoApiKeyError), None)
    // a key: one request, for a landscape photo matching the search term
    ensures Js.Truthy(apiKey) ==>
      q.request == Some(UnsplashRequest(apiKey.value, "landscape", Js.ToText(searchTerm)))
    // a value only from a 200 response, and then its `urls.full` (possibly absent)
    ensures q.result.Ok? ==>
      && q.request.Some? && fetch(q.request.value).Ok?
      && fetch(q.request.value).value.status == 200
      && fetch(q.request.value).value.fullUrl == Ok(q.result.value)
    // any other status: fails with the response text
    ensures q.request.Some? && fetch(q.request.value).Ok? && fetch(q.request.value).value.status != 200 ==>
      q.result == Err(ErrorPrefix + fetch(q.request.value).value.text)
  {
    if !Js.Truthy(apiKey) then UnsplashQuery(Err(NoApiKeyError), None)
    else
      var request := UnsplashRequest(apiKey.value, "landscape", Js.ToText(searchTerm));
      var result :=
        match fetch(request)
        case Err(e) => Err(e)
        case Ok(res) =>
          if res.status == 200 then res.fullUrl
          else Err(ErrorPrefix + res.text);
      UnsplashQuery(result, Some(request))
  }

  /** The call succeeds exactly when there is a key, the request answers 200 and
      the body is JSON with a `urls` object; it then yields `urls.full`, which is
      absent when `urls` has no `full`. */
  lemma UnsplashSucceedsIff(apiKey: Option<string>, searchTerm: Option<string>,
                            fetch: UnsplashRequest -> Result<UnsplashResponse>)
    ensures var q := QueryBgImgUrlUnsplash(apiKey, searchTerm, fetch);
      q.result.Ok? <==>
        && Js.Truthy(apiKey)
        && var res := fetch(UnsplashRequest(apiKey.value, "landscape", Js.ToText(searchTerm)));
           res.Ok? && res.value.status == 200 && res.value.fullUrl.Ok?
  {
  }
}
