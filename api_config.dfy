/** The catalog editor (`api_config`): each action loads the stored catalog, edits the
    loaded copy and saves it. `saveOk` is whether `saveApiConfig` succeeded; a failed save
    is an error and the stored catalog stays as it was. */
module ApiConfig {
  import opened JsValues
  import opened Text
  import opened OrderedMaps
  import opened ApiDocument

  /** What `item.url` does to an item of an incoming list: reading a property of `null`
      or `undefined` throws; any other item is read as its own properties (a non-object
      has no `url`, so the merge skips it). */
  function IncomingEntries(items: seq<Value>): (r: Result<seq<Entry>, string>)
    ensures r.Ok? <==> forall i :: 0 <= i < |items| ==> !IsNullish(items[i])
    ensures r.Ok? ==> |r.value| == |items|
    ensures r.Ok? ==> forall i :: 0 <= i < |items| ==>
      UrlOf(r.value[i]) == Prop(items[i], "url") && (items[i].Obj? ==> r.value[i] == items[i].fields)
  {
    if exists i :: 0 <= i < |items| && IsNullish(items[i]) then
      Err("Cannot read properties of null or undefined (reading 'url')")
    else
      Ok(seq(|items|, i requires 0 <= i < |items| => SpreadProps(items[i])))
  }

  /** The entries the incoming `apiConfig.list` contributes: none unless it is an array. */
  function IncomingList(apiConfig: Value): Result<seq<Entry>, string> {
    var incoming := Prop(apiConfig, "list");
    if incoming.Arr? then IncomingEntries(incoming.items) else Ok([])
  }

  /** The two `forEach` loops of `set`: the existing entries go into the Map first, then
      the incoming ones, and the Map's values become the new list. */
  method MergeByUrl(existing: seq<Entry>, incoming: seq<Entry>) returns (merged: seq<Entry>)
    ensures merged == DedupByUrl(existing + incoming)
    ensures UniqueUrls(merged)
  {
    var urlMap := FillUrlMap(Empty(), existing);
    urlMap := FillUrlMap(urlMap, incoming);
    CollectConcat(Empty(), existing, incoming);
    merged := Values(urlMap);
    DedupHasUniqueUrls(existing + incoming);
  }

  /** `set`: `baseUrl` is replaced whenever the incoming one is not `undefined` (an empty
      string included), headers are merged with the incoming ones winning, and the lists
      are merged by url. Returns the number of entries. */
  method Set(store: ApiStore, apiConfig: Value, saveOk: bool) returns (r: Result<nat, string>)
    modifies store
    ensures r.Ok? <==> Truthy(apiConfig) && IsTypeofObject(apiConfig) && IncomingList(apiConfig).Ok? && saveOk
    ensures r.Err? ==> unchanged(store)
    ensures r.Ok? ==>
      && store.baseUrl == (if Prop(apiConfig, "baseUrl") != Undefined then Prop(apiConfig, "baseUrl")
                           else Or(old(store.baseUrl), Str("")))
      && store.headers == old(store.headers) + SpreadProps(Prop(apiConfig, "headers"))
      && store.list == DedupByUrl(old(store.list) + IncomingList(apiConfig).value)
      && UniqueUrls(store.list)
      && r.value == |store.list|
  {
    if !Truthy(apiConfig) || !IsTypeofObject(apiConfig) {
      return Err("Missing or invalid config parameter for set action");
    }
    var incomingBase := Prop(apiConfig, "baseUrl");
    var baseUrl := if incomingBase != Undefined then incomingBase else Or(store.baseUrl, Str(""));
    var headers := store.headers + SpreadProps(Prop(apiConfig, "headers"));
    var incoming := IncomingList(apiConfig);
    if incoming.Err? {
      return Err("Failed to update API config: " + incoming.error);
    }
    var list := MergeByUrl(store.list, incoming.value);
    if !saveOk {
      return Err("Failed to update API config: Failed to save API configuration");
    }
    store.baseUrl, store.headers, store.list := baseUrl, headers, list;
    r := Ok(|list|);
  }

  /** `updateBaseUrl`: a falsy base URL is refused; otherwise only `baseUrl` changes. */
  method UpdateBaseUrl(store: ApiStore, baseUrl: Value, saveOk: bool) returns (r: Result<Value, string>)
    modifies store
    ensures r.Ok? <==> Truthy(baseUrl) && saveOk
    ensures r.Err? ==> unchanged(store)
    ensures r.Ok? ==>
      && r.value == baseUrl && store.baseUrl == baseUrl
      && store.headers == old(store.headers) && store.list == old(store.list)
  {
    if !Truthy(baseUrl) {
      return Err("Missing baseUrl parameter for updateBaseUrl action");
    }
    if !saveOk {
      return Err("Failed to update base URL: Failed to save API configuration");
    }
    store.baseUrl := baseUrl;
    r := Ok(baseUrl);
  }

  /** `updateHeaders`: the given headers are merged over the stored ones (given ones win);
      a missing or non-object argument is refused. */
  method UpdateHeaders(store: ApiStore, headers: Value, saveOk: bool) returns (r: Result<Object, string>)
    modifies store
    ensures r.Ok? <==> Truthy(headers) && IsTypeofObject(headers) && saveOk
    ensures r.Err? ==> unchanged(store)
    ensures r.Ok? ==>
      && r.value == store.headers
      && store.headers.Keys == old(store.headers).Keys + SpreadProps(headers).Keys
      && (forall k :: k in SpreadProps(headers) ==> store.headers[k] == SpreadProps(headers)[k])
      && (forall k :: k in old(store.headers) && k !in SpreadProps(headers) ==> store.headers[k] == old(store.headers)[k])
      && store.baseUrl == old(store.baseUrl) && store.list == old(store.list)
  {
    if !Truthy(headers) || !IsTypeofObject(headers) {
      return Err("Missing or invalid headers parameter for updateHeaders action");
    }
    if !saveOk {
      return Err("Failed to update headers: Failed to save API configuration");
    }
    store.headers := store.headers + SpreadProps(headers);
    r := Ok(store.headers);
  }

  /** `deleteHeader`: a header that is present with a truthy value is removed and the
      catalog saved (`Ok(true)`); otherwise nothing is saved and the answer is the
      non-throwing `success: false` report (`Ok(false)`). */
  method DeleteHeader(store: ApiStore, headerName: Value, saveOk: bool) returns (r: Result<bool, string>)
    modifies store
    ensures !Truthy(headerName) ==> r.Err? && unchanged(store)
    ensures Truthy(headerName) && !Truthy(Get(old(store.headers), JsString(headerName))) ==> r == Ok(false) && unchanged(store)
    ensures Truthy(headerName) && Truthy(Get(old(store.headers), JsString(headerName))) ==>
      if saveOk then r == Ok(true) && store.headers == old(store.headers) - {JsString(headerName)}
        && store.baseUrl == old(store.baseUrl) && store.list == old(store.list)
      else r.Err? && unchanged(store)
  {
    if !Truthy(headerName) {
      return Err("Missing headerName parameter for deleteHeader action");
    }
    var name := JsString(headerName);
    if !Truthy(Get(store.headers, name)) {
      return Ok(false);
    }
    if !saveOk {
      return Err("Failed to delete header: Failed to save API configuration");
    }
    store.headers := store.headers - {name};
    r := Ok(true);
  }

  /** `list.findIndex(item => item.url === u)`: an array or object `u` is a reference no
      stored entry shares, so it is never found. */
  function FirstIndexWithUrl(list: seq<Entry>, u: Value): (r: Option<nat>)
    ensures r.Some? ==>
      && r.value < |list| && StrictEquals(UrlOf(list[r.value]), u)
      && forall j :: 0 <= j < r.value ==> !StrictEquals(UrlOf(list[j]), u)
    ensures r.None? ==> forall j :: 0 <= j < |list| ==> !StrictEquals(UrlOf(list[j]), u)
    ensures !IsPrimitive(u) ==> r.None?
  {
    if list == [] then None
    else if StrictEquals(UrlOf(list[0]), u) then Some(0)
    else match FirstIndexWithUrl(list[1..], u)
      case Some(i) => Some(i + 1)
      case None => None
  }

  /** `addApi`: an entry whose url is already catalogued is shallow-merged onto the first
      such entry, in place; any other entry is appended. Returns the entry's index. An
      `api` without a truthy url is refused before anything changes. */
  method AddApi(store: ApiStore, api: Value, saveOk: bool) returns (r: Result<nat, string>)
    modifies store
    ensures r.Ok? <==> Truthy(Prop(api, "url")) && saveOk
    ensures r.Err? ==> unchanged(store)
    ensures r.Ok? ==> api.Obj? && store.baseUrl == old(store.baseUrl) && store.headers == old(store.headers)
    ensures r.Ok? ==> match FirstIndexWithUrl(old(store.list), Prop(api, "url"))
      case Some(i) =>
        && r.value == i && |store.list| == |old(store.list)|
        && store.list == old(store.list)[i := old(store.list)[i] + api.fields]
      case None =>
        && r.value == |old(store.list)| && store.list == old(store.list) + [api.fields]
    ensures r.Ok? && !IsPrimitive(Prop(api, "url")) ==> store.list == old(store.list) + [api.fields]
    ensures r.Ok? && UniqueUrls(old(store.list)) && IsPrimitive(Prop(api, "url")) ==> UniqueUrls(store.list)
  {
    var url := Prop(api, "url");
    if !Truthy(url) {
      return Err(MissingApi);
    }
    if !saveOk {
      return Err(AddSaveFailed);
    }
    var list := store.list;
    var existingIndex := FirstIndexWithUrl(list, url);
    if existingIndex.Some? {
      var i := existingIndex.value;
      store.list := list[i := list[i] + api.fields];
      if UniqueUrls(list) {
        MergeKeepsUnique(list, i, api.fields);
      }
      r := Ok(i);
    } else {
      store.list := list + [api.fields];
      if UniqueUrls(list) && IsPrimitive(url) {
        AppendKeepsUnique(list, api.fields);
      }
      r := Ok(|list|);
    }
  }

  const MissingApi := "Missing or invalid api parameter for addApi action. API must have url property"
  const AddSaveFailed := "Failed to add API: Failed to save API configuration"

  /** Merging fields with the same url into an entry keeps the urls unique. */
  lemma MergeKeepsUnique(list: seq<Entry>, i: nat, fields: Entry)
    requires UniqueUrls(list) && i < |list| && UrlOf(fields) == UrlOf(list[i])
    ensures UniqueUrls(list[i := list[i] + fields])
  {
    assert UrlOf(list[i] + fields) == UrlOf(list[i]);
  }

  /** Appending an entry whose url is truthy and not catalogued keeps the urls unique. */
  lemma AppendKeepsUnique(list: seq<Entry>, fields: Entry)
    requires UniqueUrls(list) && HasUrl(fields)
    requires forall j :: 0 <= j < |list| ==> UrlOf(list[j]) != UrlOf(fields)
    ensures UniqueUrls(list + [fields])
  {
  }

  // ---------------------------------------------------------------------------
  // list and search

  /** `{...item, index}`: the entry with its position added. */
  function Tag(e: Entry, i: nat): (t: Entry)
    ensures t.Keys == e.Keys + {"index"} && t["index"] == Num(i)
    ensures forall k :: k in e && k != "index" ==> t[k] == e[k]
  {
    e["index" := Num(i)]
  }

  /** `list`: every entry, in order, annotated with its index. */
  function List(list: seq<Entry>): (r: seq<Entry>)
    ensures |r| == |list|
    ensures forall i :: 0 <= i < |r| ==> Get(r[i], "index") == Num(i) && UrlOf(r[i]) == UrlOf(list[i])
    ensures forall i :: 0 <= i < |r| ==> r[i].Keys == list[i].Keys + {"index"}
    ensures forall i, k :: 0 <= i < |r| && k in list[i] && k != "index" ==> k in r[i] && r[i][k] == list[i][k]
  {
    seq(|list|, i requires 0 <= i < |list| => Tag(list[i], i))
  }

  /** The indices, in increasing order, of the entries `test` accepts; an error from any
      test is the error of the whole filter. */
  function Matching(list: seq<Entry>, test: Entry -> Result<bool, string>): (r: Result<seq<nat>, string>)
    ensures r.Ok? <==> forall i :: 0 <= i < |list| ==> test(list[i]).Ok?
    ensures r.Ok? ==> forall k :: 0 <= k < |r.value| ==> r.value[k] < |list|
    ensures r.Ok? ==> forall k, l :: 0 <= k < l < |r.value| ==> r.value[k] < r.value[l]
    ensures r.Ok? ==> forall i :: 0 <= i < |list| ==> (i in r.value <==> test(list[i]).value)
    decreases |list|
  {
    if list == [] then Ok([])
    else
      var n := |list| - 1;
      var prev := Matching(list[..n], test);
      var last := test(list[n]);
      if prev.Err? then prev
      else if last.Err? then Err(last.error)
      else if last.value then Ok(prev.value + [n])
      else prev
  }

  /** `x && x.toLowerCase().includes(keyword.toLowerCase())`: a falsy field does not match;
      calling `toLowerCase` on a non-string throws. */
  function FieldMatches(field: Value, keyword: Value): (r: Result<bool, string>)
    ensures !Truthy(field) ==> r == Ok(false)
    ensures Truthy(field) && field.Str? && keyword.Str? ==> r == Ok(Contains(Lower(field.s), Lower(keyword.s)))
    ensures Truthy(field) && !(field.Str? && keyword.Str?) ==> r.Err?
  {
    if !Truthy(field) then Ok(false)
    else if !field.Str? || !keyword.Str? then Err("toLowerCase is not a function")
    else Ok(Contains(Lower(field.s), Lower(keyword.s)))
  }

  /** The filter of `search`: both tests are evaluated, and either may match. */
  function SearchTest(keyword: Value): Entry -> Result<bool, string> {
    (e: Entry) =>
      var urlMatch := FieldMatches(UrlOf(e), keyword);
      var descMatch := FieldMatches(Get(e, "description"), keyword);
      if urlMatch.Err? then urlMatch
      else if descMatch.Err? then descMatch
      else Ok(urlMatch.value || descMatch.value)
  }

  /** `search`: the annotated entries whose url or description contains the keyword,
      ignoring case, in catalog order. An entry lacking either field is tolerated. */
  function Search(list: seq<Entry>, keyword: Value): (r: Result<seq<Entry>, string>)
    ensures !Truthy(keyword) ==> r.Err?
    ensures Truthy(keyword) ==> (r.Ok? <==> Matching(list, SearchTest(keyword)).Ok?)
    ensures r.Ok? ==> var idx := Matching(list, SearchTest(keyword)).value;
      |r.value| == |idx| && forall k :: 0 <= k < |idx| ==> r.value[k] == List(list)[idx[k]]
  {
    if !Truthy(keyword) then Err("Missing keyword parameter for search action")
    else match Matching(list, SearchTest(keyword))
      case Err(e) => Err("Failed to search APIs: " + e)
      case Ok(idx) => Ok(seq(|idx|, k requires 0 <= k < |idx| => Tag(list[idx[k]], idx[k])))
  }

  /** With a string keyword, an entry whose fields are strings or absent never makes the
      search fail, and it is found exactly when its url or description contains the keyword. */
  lemma SearchFindsExactly(list: seq<Entry>, keyword: string, i: int)
    requires keyword != "" && 0 <= i < |list|
    requires forall j :: 0 <= j < |list| ==>
      (!Truthy(UrlOf(list[j])) || UrlOf(list[j]).Str?) &&
      (!Truthy(Get(list[j], "description")) || Get(list[j], "description").Str?)
    ensures Matching(list, SearchTest(Str(keyword))).Ok?
    ensures var url := UrlOf(list[i]); var desc := Get(list[i], "description");
      (i in Matching(list, SearchTest(Str(keyword))).value) <==>
        ((url.Str? && Contains(Lower(url.s), Lower(keyword))) || (desc.Str? && Contains(Lower(desc.s), Lower(keyword))))
  {
    var test := SearchTest(Str(keyword));
    forall j | 0 <= j < |list| ensures test(list[j]).Ok? {
      SearchTestOnStrings(list[j], keyword);
    }
    SearchTestOnStrings(list[i], keyword);
  }

  lemma SearchTestOnStrings(e: Entry, keyword: string)
    requires keyword != ""
    requires !Truthy(UrlOf(e)) || UrlOf(e).Str?
    requires !Truthy(Get(e, "description")) || Get(e, "description").Str?
    ensures var url := UrlOf(e); var desc := Get(e, "description");
      SearchTest(Str(keyword))(e) ==
        Ok((url.Str? && Contains(Lower(url.s), Lower(keyword))) || (desc.Str? && Contains(Lower(desc.s), Lower(keyword))))
  {
    var url := UrlOf(e);
    var desc := Get(e, "description");
    if url.Str? && !Truthy(url) {
      assert !Contains(Lower(url.s), Lower(keyword)) by {
        assert url.s == [] && |Lower(keyword)| > 0;
      }
    }
    if desc.Str? && !Truthy(desc) {
      assert !Contains(Lower(desc.s), Lower(keyword)) by {
        assert desc.s == [] && |Lower(keyword)| > 0;
      }
    }
  }
}
