/** The HTTP exchange as the model sees it: the request a tool builds and the outcome
    of `fetch`, which is an input (the network is not modelled). */
module Http {
  import opened JsValues
  import opened Text

  /** A completed response: status, status text, response headers and the body after
      `response.json()` or `response.text()`. */
  datatype Response = Response(status: int, statusText: string, headers: map<string, string>, data: Value)

  /** What `await fetch(...)` and reading its body produced: a response of any status,
      or a thrown error with its message. */
  datatype FetchOutcome = Received(response: Response) | Failed(message: string)

  /** The arguments handed to `fetch`: final URL, method, headers and body. */
  datatype Request = Request(url: string, verb: Value, headers: Object, body: Value)

  /** A URL used as given, without the catalog base URL in front. */
  predicate IsAbsoluteUrl(url: string) {
    StartsWith(url, "http://") || StartsWith(url, "https://")
  }

  /** `status >= 200 && status < 300` */
  predicate IsHttpSuccess(status: int) {
    200 <= status < 300
  }

  /** The methods for which a request body is encoded and sent. */
  const BodyMethods: seq<string> := ["POST", "PUT", "PATCH"]

  /** `Object.fromEntries(response.headers.entries())` */
  function HeadersObject(h: map<string, string>): (r: Object)
    ensures r.Keys == h.Keys && forall k :: k in r ==> r[k] == Str(h[k])
  {
    map k | k in h :: Str(h[k])
  }
}
