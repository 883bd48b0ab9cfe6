/** The debugging tool (`api_debug`): its own `set`, deletion by index, execution of a
    catalogued entry with write-back of the outcome, and an unguarded search. Its
    `updateBaseUrl`, `updateHeaders` and `deleteHeader` actions are the same code as the
    catalog editor's and are modelled there (`ApiConfig`). */
module ApiDebug {
  import opened JsValues
  import opened Text
  import opened OrderedMaps
  import opened Http
  import opened ApiCommon
  import opened ApiDocument
  import ApiConfig

  /** `set`: like the catalog editor's, except that any truthy `config` is accepted and
      a falsy incoming `baseUrl` (an empty string included) keeps the stored one. */
  method Set(store: ApiStore, apiConfig: Value, saveOk: bool) returns (r: Result<nat, string>)
    modifies store
    ensures r.Ok? <==> Truthy(apiConfig) && ApiConfig.IncomingList(apiConfig).Ok? && saveOk
    ensures r.Err? ==> unchanged(store)
    ensures r.Ok? ==>
      && store.baseUrl == Or(Or(Prop(apiConfig, "baseUrl"), old(store.baseUrl)), Str(""))
      && store.headers == old(store.headers) + SpreadProps(Prop(apiConfig, "headers"))
      && store.list == DedupByUrl(old(store.list) + ApiConfig.IncomingList(apiConfig).value)
      && UniqueUrls(store.list)
      && r.value == |store.list|
  {
    if !Truthy(apiConfig) {
      return Err("Missing config parameter for set action");
    }
    var baseUrl := Or(Or(Prop(apiConfig, "baseUrl"), store.baseUrl), Str(""));
    var headers := store.headers + SpreadProps(Prop(apiConfig, "headers"));
    var incoming := ApiConfig.IncomingList(apiConfig);
    if incoming.Err? {
      return Err("Failed to update API debug config: " + incoming.error);
    }
    var list := ApiConfig.MergeByUrl(store.list, incoming.value);
    if !saveOk {
      return Err("Failed to update API debug config: Failed to save API configuration");
    }
    store.baseUrl, store.headers, store.list := baseUrl, headers, list;
    r := Ok(|list|);
  }

  /** `!index && index !== 0`: no index was given (0 counts as given). */
  predicate IsMissingIndex(index: Value) {
    !Truthy(index) && index != Num(0)
  }

  /** `delete`: the entry at a valid index is removed, the others keep their order. */
  method Delete(store: ApiStore, index: Value, saveOk: bool) returns (r: Result<Entry, string>)
    modifies store
    ensures IsMissingIndex(index) ==> r.Err?
    ensures r.Ok? <==> index.Num? && 0 <= index.n < |old(store.list)| && saveOk
    ensures r.Err? ==> unchanged(store)
    ensures r.Ok? ==>
      && r.value == old(store.list)[index.n]
      && store.list == old(store.list)[..index.n] + old(store.list)[index.n + 1..]
      && store.baseUrl == old(store.baseUrl) && store.headers == old(store.headers)
    ensures r.Ok? && UniqueUrls(old(store.list)) ==> UniqueUrls(store.list)
  {
    if IsMissingIndex(index) {
      return Err("Missing index parameter for delete action");
    }
    if !(index.Num? && 0 <= index.n < |store.list|) {
      return Err("Failed to delete API: Invalid index");
    }
    var i := index.n;
    var list := store.list;
    var deletedItem := list[i];
    if !saveOk {
      return Err("Failed to delete API: Failed to save API configuration");
    }
    store.list := list[..i] + list[i + 1..];
    r := Ok(deletedItem);
    if UniqueUrls(list) {
      forall a, b | 0 <= a < b < |store.list|
        ensures UrlOf(store.list[a]) != UrlOf(store.list[b])
      {
        var a' := if a < i then a else a + 1;
        var b' := if b < i then b else b + 1;
        assert store.list[a] == list[a'] && store.list[b] == list[b'];
      }
      forall a | 0 <= a < |store.list|
        ensures HasUrl(store.list[a])
      {
        assert store.list[a] == list[if a < i then a else a + 1];
      }
    }
  }

  // ---------------------------------------------------------------------------
  // execute

  /** The `forEach` that feeds `URLSearchParams.append`: every property whose value is
      neither `null` nor `undefined`, stringified. */
  method AppendNonNull(o: Object) returns (pairs: map<string, string>)
    ensures pairs == NonNullPairs(o)
  {
    pairs := map[];
    var rest := o.Keys;
    while rest != {}
      invariant rest <= o.Keys
      invariant forall k :: k in pairs <==> k in o && k !in rest && !IsNullish(o[k])
      invariant forall k :: k in pairs ==> pairs[k] == JsString(o[k])
      decreases rest
    {
      var k :| k in rest;
      if !IsNullish(o[k]) {
        pairs := pairs[k := JsString(o[k])];
      }
      rest := rest - {k};
    }
  }

  /** Headers and body of the request after the body rules. */
  datatype Payload = Payload(headers: Object, body: Value)

  /** The body methods of `execute`, compared exactly (so `post` sends no body). */
  predicate SendsBody(item: Entry) {
    Truthy(Get(item, "body")) && Get(item, "method") in {Str("POST"), Str("PUT"), Str("PATCH")}
  }

  /** The body rules of `execute`: a string body is sent as it is, labelled with the
      entry's `contentType` or else the inferred type; an object body becomes a form
      string (null and undefined values skipped) under the form type, JSON labelled with
      any other given type, or JSON labelled `application/json`. Other bodies, and every
      body of a method that sends none, are dropped. */
  function DebugPayload(merged: Object, item: Entry, codec: Codec): (p: Payload)
    ensures !SendsBody(item) ==> p == Payload(merged, Null)
    ensures p.headers.Keys <= merged.Keys + {"Content-Type"}
    ensures forall k :: k in merged && k != "Content-Type" ==> k in p.headers && p.headers[k] == merged[k]
    ensures p.body != Null ==> SendsBody(item) && p.body.Str? && "Content-Type" in p.headers
    ensures SendsBody(item) && Get(item, "body").Str? ==>
      && p.body == Get(item, "body")
      && p.headers["Content-Type"] == (if Truthy(Get(item, "contentType")) then Get(item, "contentType")
                                       else Str(DetectContentType(Get(item, "body"), codec)))
    ensures SendsBody(item) && IsTypeofObject(Get(item, "body")) && Get(item, "contentType") == Str(FormUrlEncoded) ==>
      p == Payload(merged["Content-Type" := Str(FormUrlEncoded)],
                   Str(codec.formEncode(NonNullPairs(SpreadProps(Get(item, "body"))))))
    ensures SendsBody(item) && IsTypeofObject(Get(item, "body")) && Get(item, "contentType") != Str(FormUrlEncoded) ==>
      && p.body == Str(codec.stringify(Get(item, "body")))
      && p.headers["Content-Type"] == Or(Get(item, "contentType"), Str(ApplicationJson))
    ensures SendsBody(item) && !Get(item, "body").Str? && !IsTypeofObject(Get(item, "body")) ==> p == Payload(merged, Null)
  {
    var body := Get(item, "body");
    var contentType := Get(item, "contentType");
    if !SendsBody(item) then Payload(merged, Null)
    else if body.Str? then
      if Truthy(contentType) then Payload(merged["Content-Type" := contentType], body)
      else Payload(merged["Content-Type" := Str(DetectContentType(body, codec))], body)
    else if IsTypeofObject(body) then
      if Truthy(contentType) then
        if contentType == Str(FormUrlEncoded) then
          Payload(merged["Content-Type" := Str(FormUrlEncoded)], Str(codec.formEncode(NonNullPairs(SpreadProps(body)))))
        else Payload(merged["Content-Type" := contentType], Str(codec.stringify(body)))
      else Payload(merged["Content-Type" := Str(ApplicationJson)], Str(codec.stringify(body)))
    else Payload(merged, Null)
  }

  /** The query string of `execute`: only for a query object with properties, built from
      its non-null values. */
  function DebugQuery(item: Entry, codec: Codec): (qs: string)
    ensures !Truthy(Get(item, "query")) || SpreadProps(Get(item, "query")) == map[] ==> qs == ""
    ensures Truthy(Get(item, "query")) && SpreadProps(Get(item, "query")) != map[] ==>
      qs == codec.formEncode(NonNullPairs(SpreadProps(Get(item, "query"))))
  {
    var query := Get(item, "query");
    if Truthy(query) && |SpreadProps(query)| > 0 then codec.formEncode(NonNullPairs(SpreadProps(query))) else ""
  }

  /** The request `execute` sends for a catalog entry: base URL and entry url concatenated,
      `?` and the query string only when that string is non-empty, shared headers under
      the entry's own `header`, and the method defaulting to GET. */
  function DebugRequest(baseUrl: Value, common: Object, item: Entry, codec: Codec): (req: Request)
    ensures var fullUrl := JsString(Or(baseUrl, Str(""))) + JsString(UrlOf(item));
      var qs := DebugQuery(item, codec);
      && (qs == "" ==> req.url == fullUrl)
      && (qs != "" ==> req.url == fullUrl + "?" + qs)
    ensures req.verb == Or(Get(item, "method"), Str("GET"))
    ensures var merged := common + SpreadProps(Get(item, "header"));
      Payload(req.headers, req.body) == DebugPayload(merged, item, codec)
  {
    var fullUrl := JsString(Or(baseUrl, Str(""))) + JsString(UrlOf(item));
    var payload := DebugPayload(common + SpreadProps(Get(item, "header")), item, codec);
    var queryString := DebugQuery(item, codec);
    var finalUrl := if queryString != "" then fullUrl + "?" + queryString else fullUrl;
    Request(finalUrl, Or(Get(item, "method"), Str("GET")), payload.headers, payload.body)
  }

  /** Header layering of `execute`: for every header other than Content-Type, the entry's
      own `header` wins over the shared headers. */
  lemma EntryHeadersWin(baseUrl: Value, common: Object, item: Entry, codec: Codec, k: string)
    requires k != "Content-Type"
    ensures var req := DebugRequest(baseUrl, common, item, codec);
      var own := SpreadProps(Get(item, "header"));
      && (k in req.headers <==> k in common || k in own)
      && (k in own ==> req.headers[k] == own[k])
      && (k in common && k !in own ==> req.headers[k] == common[k])
  {
  }

  /** The body step of `execute`: `headers['Content-Type'] =` and `body =` assignments. */
  method EncodeBody(merged: Object, apiItem: Entry, codec: Codec) returns (headers: Object, body: Value)
    ensures Payload(headers, body) == DebugPayload(merged, apiItem, codec)
  {
    headers := merged;
    body := Null;
    var itemBody := Get(apiItem, "body");
    var contentType := Get(apiItem, "contentType");
    var verb := Get(apiItem, "method");
    if Truthy(itemBody) && (verb == Str("POST") || verb == Str("PUT") || verb == Str("PATCH")) {
      if itemBody.Str? {
        if Truthy(contentType) {
          headers := headers["Content-Type" := contentType];
        } else {
          headers := headers["Content-Type" := Str(DetectContentType(itemBody, codec))];
        }
        body := itemBody;
      } else if IsTypeofObject(itemBody) {
        if Truthy(contentType) {
          if contentType == Str(FormUrlEncoded) {
            var formData := AppendNonNull(SpreadProps(itemBody));
            headers := headers["Content-Type" := Str(FormUrlEncoded)];
            body := Str(codec.formEncode(formData));
          } else {
            headers := headers["Content-Type" := contentType];
            body := Str(codec.stringify(itemBody));
          }
        } else {
          headers := headers["Content-Type" := Str(ApplicationJson)];
          body := Str(codec.stringify(itemBody));
        }
      }
    }
  }

  /** The query step of `execute`. */
  method EncodeQuery(apiItem: Entry, codec: Codec) returns (queryString: string)
    ensures queryString == DebugQuery(apiItem, codec)
  {
    queryString := "";
    var query := Get(apiItem, "query");
    if Truthy(query) && |SpreadProps(query)| > 0 {
      var queryParams := AppendNonNull(SpreadProps(query));
      queryString := codec.formEncode(queryParams);
    }
  }

  /** The request step of `execute`: url, query string, method, headers and body. */
  method BuildRequest(baseUrl: Value, common: Object, apiItem: Entry, codec: Codec) returns (request: Request)
    ensures request == DebugRequest(baseUrl, common, apiItem, codec)
  {
    var fullUrl := JsString(Or(baseUrl, Str(""))) + JsString(UrlOf(apiItem));
    var headers, body := EncodeBody(common + SpreadProps(Get(apiItem, "header")), apiItem, codec);
    var queryString := EncodeQuery(apiItem, codec);
    var finalUrl := if queryString != "" then fullUrl + "?" + queryString else fullUrl;
    request := Request(finalUrl, Or(Get(apiItem, "method"), Str("GET")), headers, body);
  }

  /** The history fields `execute` writes on the entry it ran. */
  const HistoryFields: set<string> := {"data", "status", "statusText", "responseHeaders", "lastExecuted", "success", "error"}

  /** The entry after its run: the response (any status counts as success, with a null
      error) or the thrown error's message with null response fields. */
  function Record(e: Entry, outcome: FetchOutcome, now: string): Entry {
    match outcome
    case Received(resp) =>
      e["data" := resp.data]["status" := Num(resp.status)]["statusText" := Str(resp.statusText)]
       ["responseHeaders" := Obj(HeadersObject(resp.headers))]["lastExecuted" := Str(now)]
       ["success" := Bool(true)]["error" := Null]
    case Failed(message) =>
      e["data" := Null]["status" := Null]["statusText" := Null]["responseHeaders" := Null]
       ["lastExecuted" := Str(now)]["success" := Bool(false)]["error" := Str(message)]
  }

  /** The record keeps every field outside the history ones and sets all of those. */
  lemma RecordFields(e: Entry, outcome: FetchOutcome, now: string)
    ensures var r := Record(e, outcome, now);
      && r.Keys == e.Keys + HistoryFields
      && (forall k :: k in e && k !in HistoryFields ==> r[k] == e[k])
      && r["lastExecuted"] == Str(now) && r["success"] == Bool(outcome.Received?)
    ensures var r := Record(e, outcome, now);
      outcome.Received? ==>
      && r["data"] == outcome.response.data && r["status"] == Num(outcome.response.status)
      && r["statusText"] == Str(outcome.response.statusText)
      && r["responseHeaders"] == Obj(HeadersObject(outcome.response.headers)) && r["error"] == Null
    ensures var r := Record(e, outcome, now);
      outcome.Failed? ==>
      && r["data"] == Null && r["status"] == Null && r["statusText"] == Null
      && r["responseHeaders"] == Null && r["error"] == Str(outcome.message)
  {
  }

  /** The list `execute` saves: the run recorded on entry `i`, then de-duplicated by url. */
  method RecordRun(list: seq<Entry>, i: nat, outcome: FetchOutcome, now: string) returns (updated: seq<Entry>)
    requires i < |list|
    ensures updated == DedupByUrl(list[i := Record(list[i], outcome, now)])
  {
    var recorded := list[i := Record(list[i], outcome, now)];
    var urlMap := FillUrlMap(Empty(), recorded);
    updated := Values(urlMap);
  }

  const MissingExecuteIndex := "Missing index parameter for execute action"
  const InvalidExecuteIndex := "Failed to execute API: Invalid index"

  /** What `execute` reports: the request it made and what came back. */
  datatype Run = Run(request: Request, outcome: FetchOutcome)

  /** `execute`: builds and sends the request for the entry at `index`, records the
      outcome on that entry, de-duplicates the list by url again and saves it whatever
      the outcome; the report does not depend on whether the save worked. */
  method Execute(store: ApiStore, index: Value, codec: Codec, outcome: FetchOutcome, now: string, saveOk: bool)
    returns (r: Result<Run, string>)
    modifies store
    ensures r.Ok? <==> index.Num? && 0 <= index.n < |old(store.list)|
    ensures r.Err? ==> unchanged(store)
    ensures r.Ok? ==>
      r.value == Run(DebugRequest(old(store.baseUrl), old(store.headers), old(store.list)[index.n], codec), outcome)
    ensures r.Ok? && saveOk ==>
      store.list == DedupByUrl(old(store.list)[index.n := Record(old(store.list)[index.n], outcome, now)])
    ensures !saveOk ==> store.list == old(store.list)
    ensures store.baseUrl == old(store.baseUrl) && store.headers == old(store.headers)
  {
    if IsMissingIndex(index) {
      return Err(MissingExecuteIndex);
    }
    if !index.Num? || index.n < 0 || index.n >= |store.list| {
      return Err(InvalidExecuteIndex);
    }
    var i := index.n;
    var apiItem := store.list[i];
    var request := BuildRequest(store.baseUrl, store.headers, apiItem, codec);

    var list := RecordRun(store.list, i, outcome, now);
    if saveOk {
      store.list := list;
    }
    r := Ok(Run(request, outcome));
  }

  /** On a catalog whose urls are unique, the run's record replaces the entry in place:
      the re-de-duplication changes nothing else. */
  lemma ExecuteKeepsCatalogShape(list: seq<Entry>, i: int, outcome: FetchOutcome, now: string)
    requires UniqueUrls(list) && 0 <= i < |list|
    ensures DedupByUrl(list[i := Record(list[i], outcome, now)]) == list[i := Record(list[i], outcome, now)]
  {
    var updated := list[i := Record(list[i], outcome, now)];
    RecordFields(list[i], outcome, now);
    assert UrlOf(updated[i]) == UrlOf(list[i]);
    assert forall j :: 0 <= j < |list| ==> UrlOf(updated[j]) == UrlOf(list[j]);
    DedupOfUnique(updated);
  }

  // ---------------------------------------------------------------------------
  // search

  /** The filter of this tool's `search`: `item.url.toLowerCase()` is called without a
      guard, and the description is looked at only when the url does not match. */
  function DebugSearchTest(keyword: Value): Entry -> Result<bool, string> {
    (e: Entry) =>
      var url := UrlOf(e);
      var desc := Get(e, "description");
      if !url.Str? || !keyword.Str? then Err("toLowerCase is not a function")
      else if Contains(Lower(url.s), Lower(keyword.s)) then Ok(true)
      else if !desc.Str? then Err("toLowerCase is not a function")
      else Ok(Contains(Lower(desc.s), Lower(keyword.s)))
  }

  /** `search`: the matching entries, unannotated, in catalog order; it fails as soon as
      an entry lacks a string url, or lacks a string description and its url does not match. */
  function Search(list: seq<Entry>, keyword: Value): (r: Result<seq<Entry>, string>)
    ensures !Truthy(keyword) ==> r.Err?
    ensures Truthy(keyword) ==> (r.Ok? <==> ApiConfig.Matching(list, DebugSearchTest(keyword)).Ok?)
    ensures r.Ok? ==> var idx := ApiConfig.Matching(list, DebugSearchTest(keyword)).value;
      |r.value| == |idx| && forall k :: 0 <= k < |idx| ==> r.value[k] == list[idx[k]]
  {
    if !Truthy(keyword) then Err("Missing keyword parameter for search action")
    else match ApiConfig.Matching(list, DebugSearchTest(keyword))
      case Err(e) => Err("Failed to search APIs: " + e)
      case Ok(idx) => Ok(seq(|idx|, k requires 0 <= k < |idx| => list[idx[k]]))
  }

  /** One entry without a description whose url does not contain the keyword makes the
      whole search fail, where the catalog editor's search would skip it. */
  lemma MissingDescriptionFails(list: seq<Entry>, keyword: string, i: int)
    requires keyword != "" && 0 <= i < |list|
    requires UrlOf(list[i]).Str? && !Contains(Lower(UrlOf(list[i]).s), Lower(keyword))
    requires "description" !in list[i]
    ensures Search(list, Str(keyword)).Err?
    ensures ApiConfig.SearchTest(Str(keyword))(list[i]) == Ok(false)
  {
    assert DebugSearchTest(Str(keyword))(list[i]).Err?;
  }
}
