/** The executor (`api_execute`): runs a catalogued entry with optional overrides, after
    checking its method against the allow-list. It reads the catalog and never writes it,
    which the methods here show by having no `modifies` clause. */
module ApiExecute {
  import opened JsValues
  import opened Text
  import opened Http
  import opened ApiCommon
  import opened ApiDocument

  /** `finalConfig`: the entry with the overrides laid over it. */
  datatype FinalConfig = FinalConfig(url: Value, verb: Value, headers: Object, query: Value, body: Value, contentType: Value)

  /** Each override wins only when truthy; the method falls back to the entry's and then
      to GET; headers are the shared ones, then the entry's `header`, then the override's. */
  function FinalConfigOf(common: Object, entry: Entry, overrides: Value): (c: FinalConfig)
    ensures Truthy(c.verb)
    ensures Truthy(Prop(overrides, "url")) ==> c.url == Prop(overrides, "url")
    ensures !Truthy(Prop(overrides, "url")) ==> c.url == UrlOf(entry)
    ensures Truthy(Prop(overrides, "method")) ==> c.verb == Prop(overrides, "method")
    ensures !Truthy(Prop(overrides, "method")) && Truthy(Get(entry, "method")) ==> c.verb == Get(entry, "method")
    ensures !Truthy(Prop(overrides, "method")) && !Truthy(Get(entry, "method")) ==> c.verb == Str("GET")
    ensures Truthy(Prop(overrides, "query")) ==> c.query == Prop(overrides, "query")
    ensures !Truthy(Prop(overrides, "query")) ==> c.query == Get(entry, "query")
    ensures Truthy(Prop(overrides, "body")) ==> c.body == Prop(overrides, "body")
    ensures !Truthy(Prop(overrides, "body")) ==> c.body == Get(entry, "body")
    ensures Truthy(Prop(overrides, "contentType")) ==> c.contentType == Prop(overrides, "contentType")
    ensures !Truthy(Prop(overrides, "contentType")) ==> c.contentType == Get(entry, "contentType")
  {
    FinalConfig(
      Or(Prop(overrides, "url"), UrlOf(entry)),
      Or(Or(Prop(overrides, "method"), Get(entry, "method")), Str("GET")),
      common + SpreadProps(Get(entry, "header")) + SpreadProps(Prop(overrides, "headers")),
      Or(Prop(overrides, "query"), Get(entry, "query")),
      Or(Prop(overrides, "body"), Get(entry, "body")),
      Or(Prop(overrides, "contentType"), Get(entry, "contentType")))
  }

  /** The three header layers: an override header beats the entry's, which beats the shared one. */
  lemma HeaderLayers(common: Object, entry: Entry, overrides: Value, k: string)
    ensures var h := FinalConfigOf(common, entry, overrides).headers;
      var own := SpreadProps(Get(entry, "header"));
      var over := SpreadProps(Prop(overrides, "headers"));
      && (k in h <==> k in common || k in own || k in over)
      && (k in over ==> h[k] == over[k])
      && (k !in over && k in own ==> h[k] == own[k])
      && (k !in over && k !in own && k in common ==> h[k] == common[k])
  {
  }

  /** A URL starting with `http://` or `https://` is used as it is; any other is appended
      to the catalog base URL (converted to text, without a fallback for a missing one). */
  function ResolveUrl(baseUrl: Value, url: string): (full: string)
    ensures IsAbsoluteUrl(url) ==> full == url
    ensures !IsAbsoluteUrl(url) ==> full == JsString(baseUrl) + url
  {
    if IsAbsoluteUrl(url) then url else JsString(baseUrl) + url
  }

  /** A query object with properties is appended with `&` when the URL already has a `?`,
      with `?` otherwise; every property is sent, null and undefined ones as text. */
  function WithQuery(url: string, query: Value, codec: Codec): (full: string)
    ensures !Truthy(query) || SpreadProps(query) == map[] ==> full == url
    ensures Truthy(query) && SpreadProps(query) != map[] ==>
      && StartsWith(full, url) && |full| > |url|
      && full[|url|] == (if ContainsChar(url, '?') then '&' else '?')
      && full[|url| + 1..] == codec.formEncode(AllPairs(SpreadProps(query)))
  {
    if Truthy(query) && |SpreadProps(query)| > 0 then
      var queryString := codec.formEncode(AllPairs(SpreadProps(query)));
      url + (if ContainsChar(url, '?') then "&" else "?") + queryString
    else url
  }

  /** The body rules: a body is sent only when truthy and the upper-cased method is POST,
      PUT or PATCH. An object body is sent as JSON and labelled JSON unless a Content-Type
      header is already set; any other body is sent as it is and labelled with
      `contentType` under the same condition. */
  function ExecPayload(c: FinalConfig, verb: string, codec: Codec): (p: (Object, Value))
    ensures !(Truthy(c.body) && verb in BodyMethods) ==> p == (c.headers, Undefined)
    ensures Truthy(Get(c.headers, "Content-Type")) ==> p.0 == c.headers
    ensures Truthy(c.body) && verb in BodyMethods && IsTypeofObject(c.body) && !Truthy(Get(c.headers, "Content-Type")) ==>
      p.0 == c.headers["Content-Type" := Str(ApplicationJson)]
    ensures Truthy(c.body) && verb in BodyMethods && !IsTypeofObject(c.body) && Truthy(c.contentType)
            && !Truthy(Get(c.headers, "Content-Type")) ==>
      p.0 == c.headers["Content-Type" := c.contentType]
    ensures Truthy(c.body) && verb in BodyMethods && !IsTypeofObject(c.body) && !Truthy(c.contentType) ==>
      p.0 == c.headers
    ensures p.0.Keys <= c.headers.Keys + {"Content-Type"}
    ensures forall k :: k in c.headers && k != "Content-Type" ==> k in p.0 && p.0[k] == c.headers[k]
    ensures Truthy(c.body) && verb in BodyMethods ==>
      p.1 == (if IsTypeofObject(c.body) then Str(codec.stringify(c.body)) else c.body)
  {
    if !(Truthy(c.body) && verb in BodyMethods) then (c.headers, Undefined)
    else if IsTypeofObject(c.body) then
      var h := if !Truthy(Get(c.headers, "Content-Type")) then c.headers["Content-Type" := Str(ApplicationJson)] else c.headers;
      (h, Str(codec.stringify(c.body)))
    else
      var h := if Truthy(c.contentType) && !Truthy(Get(c.headers, "Content-Type")) then c.headers["Content-Type" := c.contentType] else c.headers;
      (h, c.body)
  }

  /** The body step of `api_execute`. `requestOptions.headers` is `finalConfig.headers`:
      a Content-Type written through one is seen through the other. */
  method EncodePayload(finalConfig: FinalConfig, verb: string, codec: Codec) returns (headers: Object, body: Value)
    ensures (headers, body) == ExecPayload(finalConfig, verb, codec)
  {
    headers := finalConfig.headers;
    body := Undefined;
    if Truthy(finalConfig.body) && verb in BodyMethods {
      if IsTypeofObject(finalConfig.body) {
        body := Str(codec.stringify(finalConfig.body));
        if !Truthy(Get(headers, "Content-Type")) {
          headers := headers["Content-Type" := Str(ApplicationJson)];
        }
      } else {
        body := finalConfig.body;
        if Truthy(finalConfig.contentType) && !Truthy(Get(headers, "Content-Type")) {
          headers := headers["Content-Type" := finalConfig.contentType];
        }
      }
    }
  }

  const NegativeIndex := "Invalid index parameter. Must be a non-negative number"
  const IndexOutOfRange := "Failed to execute API: API index out of range"
  const NullOverrides := "Failed to execute API: Cannot read properties of null"
  const MethodNotText := "Failed to execute API: method.toUpperCase is not a function"
  const MethodNotAllowed := "Failed to execute API: HTTP method is not allowed"
  const UrlNotText := "Failed to execute API: url.startsWith is not a function"

  /** What `api_execute` returns on success: the request `fetch` received, the final
      configuration it reports (its method as given, its body before encoding, its headers
      the same object the request used), and the response. */
  datatype Execution = Execution(sent: Request, final: FinalConfig, response: Response)

  /** `api_execute`. Rejects an index that is not a non-negative number or is past the end
      of the list, a method (after the overrides) that is not text or whose upper-case form
      is not allowed, and a URL that is not text; a failed `fetch` is an error too. */
  method Execute(store: ApiStore, index: Value, overrides: Value, env: Env, codec: Codec, outcome: FetchOutcome)
    returns (r: Result<Execution, string>)
    ensures !index.Num? || index.n < 0 ==> r.Err?
    ensures index.Num? && index.n >= |store.list| ==> r.Err?
    ensures overrides.Null? ==> r.Err?
    ensures outcome.Failed? ==> r.Err?
    ensures r.Ok? <==>
      && index.Num? && 0 <= index.n < |store.list| && !overrides.Null?
      && var c := FinalConfigOf(store.headers, store.list[index.n], if overrides.Undefined? then Obj(map[]) else overrides);
      && c.verb.Str? && IsMethodAllowed(env, c.verb.s) && c.url.Str? && outcome.Received?
    ensures r.Ok? ==>
      && index.Num? && 0 <= index.n < |store.list|
      && var c := FinalConfigOf(store.headers, store.list[index.n], if overrides.Undefined? then Obj(map[]) else overrides);
      && r.value.final.verb == c.verb && r.value.final.body == c.body && r.value.final.query == c.query
      && c.verb.Str? && IsMethodAllowed(env, c.verb.s) && c.url.Str?
      && r.value.sent.verb == Str(Upper(c.verb.s))
      && r.value.sent.url == WithQuery(ResolveUrl(store.baseUrl, c.url.s), c.query, codec)
      && (r.value.sent.headers, r.value.sent.body) == ExecPayload(c, Upper(c.verb.s), codec)
      && r.value.final.headers == r.value.sent.headers
      && outcome == Received(r.value.response)
  {
    if !index.Num? || index.n < 0 {
      return Err(NegativeIndex);
    }
    if index.n >= |store.list| {
      return Err(IndexOutOfRange);
    }
    if overrides.Null? {
      return Err(NullOverrides);
    }
    var ov := if overrides.Undefined? then Obj(map[]) else overrides;
    var apiConfig := store.list[index.n];
    var finalConfig := FinalConfigOf(store.headers, apiConfig, ov);

    if !finalConfig.verb.Str? {
      return Err(MethodNotText);
    }
    var verb := Upper(finalConfig.verb.s);
    var allowedMethods := AllowedMethods(env);
    if verb !in allowedMethods {
      return Err(MethodNotAllowed);
    }
    if !finalConfig.url.Str? {
      return Err(UrlNotText);
    }

    var fullUrl := ResolveUrl(store.baseUrl, finalConfig.url.s);
    fullUrl := WithQuery(fullUrl, finalConfig.query, codec);

    var headers, body := EncodePayload(finalConfig, verb, codec);
    var sent := Request(fullUrl, Str(verb), headers, body);
    match outcome {
      case Failed(message) =>
        return Err("Failed to execute API: " + message);
      case Received(response) =>
        r := Ok(Execution(sent, finalConfig.(headers := headers), response));
    }
  }

  /** No body goes out with a method outside POST, PUT and PATCH, whatever its case. */
  lemma NoBodyWithoutBodyMethod(c: FinalConfig, verb: string, codec: Codec)
    requires verb !in BodyMethods
    ensures ExecPayload(c, verb, codec).1 == Undefined
    ensures ExecPayload(c, verb, codec).0 == c.headers
  {
  }

  /** Upper-casing decides: `patch` as the method sends the body, as PATCH. */
  lemma LowerCaseMethodSendsBody(c: FinalConfig, codec: Codec)
    requires Truthy(c.body) && c.verb == Str("patch")
    ensures Upper(c.verb.s) == "PATCH"
    ensures ExecPayload(c, Upper(c.verb.s), codec).1 != Undefined
  {
    assert Upper("patch") == "PATCH" by {
      assert UpperChar('p') == 'P' && UpperChar('a') == 'A' && UpperChar('t') == 'T';
      assert UpperChar('c') == 'C' && UpperChar('h') == 'H';
    }
  }
}
