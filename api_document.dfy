/** The API catalog document (`api.json`): base URL, shared headers and the list of API
    entries, with the de-duplication by `url` that `set` and `execute` apply to the list. */
module ApiDocument {
  import opened JsValues
  import opened OrderedMaps
  import ApiCommon

  /** One API entry: a plain object (`url`, `method`, `description`, `query`, `body`,
      `contentType`, `header`, and the execution history fields). */
  type Entry = Object

  function UrlOf(e: Entry): Value {
    Get(e, "url")
  }

  /** `if (item.url)`: only entries with a truthy url take part in de-duplication. */
  predicate HasUrl(e: Entry) {
    Truthy(UrlOf(e))
  }

  /** The catalog invariant: every entry has a url and no two entries share one. */
  ghost predicate UniqueUrls(list: seq<Entry>) {
    && (forall i :: 0 <= i < |list| ==> HasUrl(list[i]))
    && (forall i, j :: 0 <= i < j < |list| ==> UrlOf(list[i]) != UrlOf(list[j]))
  }

  /** The persisted catalog. Each tool action loads it, changes the loaded copy, and the
      change becomes the stored document only when the save succeeds. */
  class ApiStore {
    var baseUrl: Value
    var headers: Object
    var list: seq<Entry>

    /** The document `loadApiConfig` returns when no file is stored. */
    constructor Default()
      ensures baseUrl == Str("") && headers == ApiCommon.DefaultHeaders && list == []
    {
      baseUrl := Str("");
      headers := ApiCommon.DefaultHeaders;
      list := [];
    }

    /** A stored document. */
    constructor Stored(baseUrl0: Value, headers0: Object, list0: seq<Entry>)
      ensures baseUrl == baseUrl0 && headers == headers0 && list == list0
    {
      baseUrl := baseUrl0;
      headers := headers0;
      list := list0;
    }
  }

  // ---------------------------------------------------------------------------
  // De-duplication through a Map keyed by url

  type UrlMap = OrderedMap<Value, Entry>

  /** `items.forEach(item => { if (item.url) urlMap.set(item.url, item) })`, starting from `m`. */
  function CollectInto(m: UrlMap, items: seq<Entry>): (r: UrlMap)
    requires Valid(m)
    ensures Valid(r)
    decreases |items|
  {
    if items == [] then m
    else
      var prev := CollectInto(m, items[..|items| - 1]);
      var last := items[|items| - 1];
      if HasUrl(last) then Put(prev, UrlOf(last), last) else prev
  }

  /** `Array.from(urlMap.values())` after filling a fresh Map with `items`. */
  function DedupByUrl(items: seq<Entry>): seq<Entry> {
    Values(CollectInto(Empty(), items))
  }

  /** The forEach loop that fills the Map. */
  method FillUrlMap(m: UrlMap, items: seq<Entry>) returns (r: UrlMap)
    requires Valid(m)
    ensures r == CollectInto(m, items)
  {
    r := m;
    var i := 0;
    while i < |items|
      invariant 0 <= i <= |items|
      invariant r == CollectInto(m, items[..i])
    {
      assert items[..i + 1][..i] == items[..i];
      var item := items[i];
      if HasUrl(item) {
        r := Put(r, UrlOf(item), item);
      }
      i := i + 1;
    }
    assert items[..i] == items;
  }

  /** Filling the Map with `a` and then with `b` is filling it with `a + b`. */
  lemma {:induction false} CollectConcat(m: UrlMap, a: seq<Entry>, b: seq<Entry>)
    requires Valid(m)
    ensures CollectInto(CollectInto(m, a), b) == CollectInto(m, a + b)
    decreases |b|
  {
    if b == [] {
      assert a + b == a;
    } else {
      CollectConcat(m, a, b[..|b| - 1]);
      assert (a + b)[..|a + b| - 1] == a + b[..|b| - 1];
      assert (a + b)[|a + b| - 1] == b[|b| - 1];
    }
  }

  // ---------------------------------------------------------------------------
  // Reference definitions of the de-duplicated list

  /** The distinct truthy urls of `items`, in order of first occurrence. */
  function FirstUrls(items: seq<Entry>): seq<Value>
    decreases |items|
  {
    if items == [] then []
    else
      var prev := FirstUrls(items[..|items| - 1]);
      var last := items[|items| - 1];
      if HasUrl(last) && UrlOf(last) !in prev then prev + [UrlOf(last)] else prev
  }

  /** The last entry of `items` whose url is `u`. */
  function LastWithUrl(items: seq<Entry>, u: Value): (r: Option<Entry>)
    ensures r.Some? ==> r.value in items && UrlOf(r.value) == u
    ensures r.None? ==> forall i :: 0 <= i < |items| ==> UrlOf(items[i]) != u
    decreases |items|
  {
    if items == [] then None
    else if UrlOf(items[|items| - 1]) == u then Some(items[|items| - 1])
    else LastWithUrl(items[..|items| - 1], u)
  }

  /** The Map holds, in first-occurrence order, one key per truthy url, and under each
      key the last entry carrying that url. */
  lemma {:induction false} CollectMatchesReference(items: seq<Entry>)
    ensures var r := CollectInto(Empty(), items);
      && r.keys == FirstUrls(items)
      && (forall u :: u in r.entries <==> Truthy(u) && LastWithUrl(items, u).Some?)
      && (forall u :: u in r.entries ==> Some(r.entries[u]) == LastWithUrl(items, u))
    decreases |items|
  {
    if items != [] {
      var p := items[..|items| - 1];
      var e := items[|items| - 1];
      CollectMatchesReference(p);
      var prev := CollectInto(Empty(), p);
      var r := CollectInto(Empty(), items);
      forall u
        ensures u in r.entries <==> Truthy(u) && LastWithUrl(items, u).Some?
        ensures u in r.entries ==> Some(r.entries[u]) == LastWithUrl(items, u)
      {
        if UrlOf(e) != u {
          assert LastWithUrl(items, u) == LastWithUrl(p, u);
        }
      }
    }
  }

  /** Element `i` of the de-duplicated list is the last entry carrying the `i`-th distinct url. */
  lemma DedupElement(items: seq<Entry>, i: int)
    requires 0 <= i < |DedupByUrl(items)|
    ensures |DedupByUrl(items)| == |FirstUrls(items)|
    ensures LastWithUrl(items, FirstUrls(items)[i]).Some?
    ensures DedupByUrl(items)[i] == LastWithUrl(items, FirstUrls(items)[i]).value
  {
    CollectMatchesReference(items);
    var r := CollectInto(Empty(), items);
    assert r.keys[i] in r.entries;
  }

  /** After de-duplication every entry has a url and no two entries share one. */
  lemma DedupHasUniqueUrls(items: seq<Entry>)
    ensures UniqueUrls(DedupByUrl(items))
    ensures forall e :: e in DedupByUrl(items) ==> e in items
  {
    var d := DedupByUrl(items);
    CollectMatchesReference(items);
    var r := CollectInto(Empty(), items);
    forall i | 0 <= i < |d|
      ensures UrlOf(d[i]) == r.keys[i] && Truthy(r.keys[i]) && d[i] in items
    {
      DedupElement(items, i);
      assert r.keys[i] in r.entries;
    }
  }

  /** Every url present in the input survives, carried by the last entry that has it. */
  lemma DedupKeepsEveryUrl(items: seq<Entry>, p: int)
    requires 0 <= p < |items| && HasUrl(items[p])
    ensures exists i :: 0 <= i < |DedupByUrl(items)| && DedupByUrl(items)[i] == LastWithUrl(items, UrlOf(items[p])).value
  {
    var u := UrlOf(items[p]);
    CollectMatchesReference(items);
    var r := CollectInto(Empty(), items);
    assert u in r.entries;
    var i :| 0 <= i < |r.keys| && r.keys[i] == u;
    assert DedupByUrl(items)[i] == r.entries[u];
  }

  // ---------------------------------------------------------------------------
  // Merging an existing list with an incoming one

  /** Urls of a list in order. */
  function Urls(list: seq<Entry>): (us: seq<Value>)
    ensures |us| == |list| && forall i :: 0 <= i < |list| ==> us[i] == UrlOf(list[i])
  {
    seq(|list|, i requires 0 <= i < |list| => UrlOf(list[i]))
  }

  lemma {:induction false} FirstUrlsOfUnique(list: seq<Entry>)
    requires UniqueUrls(list)
    ensures FirstUrls(list) == Urls(list)
    decreases |list|
  {
    if list != [] {
      var p := list[..|list| - 1];
      FirstUrlsOfUnique(p);
      assert UrlOf(list[|list| - 1]) !in Urls(p) by {
        forall k | 0 <= k < |p| ensures Urls(p)[k] != UrlOf(list[|list| - 1]) {
          assert p[k] == list[k];
        }
      }
      assert Urls(p) + [UrlOf(list[|list| - 1])] == Urls(list);
    }
  }

  lemma {:induction false} FirstUrlsPrefix(a: seq<Entry>, b: seq<Entry>)
    ensures |FirstUrls(a)| <= |FirstUrls(a + b)|
    ensures FirstUrls(a + b)[..|FirstUrls(a)|] == FirstUrls(a)
    decreases |b|
  {
    if b == [] {
      assert a + b == a;
    } else {
      FirstUrlsPrefix(a, b[..|b| - 1]);
      assert (a + b)[..|a + b| - 1] == a + b[..|b| - 1];
    }
  }

  lemma {:induction false} LastWithUrlConcat(a: seq<Entry>, b: seq<Entry>, u: Value)
    ensures LastWithUrl(a + b, u) == if LastWithUrl(b, u).Some? then LastWithUrl(b, u) else LastWithUrl(a, u)
    decreases |b|
  {
    if b == [] {
      assert a + b == a;
    } else {
      LastWithUrlConcat(a, b[..|b| - 1], u);
      assert (a + b)[..|a + b| - 1] == a + b[..|b| - 1];
    }
  }

  lemma LastWithUrlOfUnique(list: seq<Entry>, i: int)
    requires UniqueUrls(list) && 0 <= i < |list|
    ensures LastWithUrl(list, UrlOf(list[i])) == Some(list[i])
  {
    var r := LastWithUrl(list, UrlOf(list[i]));
    assert r.Some?;
    var j :| 0 <= j < |list| && list[j] == r.value;
    assert i == j;
  }

  /** Merging an incoming list into a catalog list (existing entries first, as `set` does):
      every existing url keeps its position, and the entry there is the last incoming entry
      with that url if there is one, the existing entry otherwise. */
  lemma MergeKeepsPositions(existing: seq<Entry>, incoming: seq<Entry>, i: int)
    requires UniqueUrls(existing) && 0 <= i < |existing|
    ensures |existing| <= |DedupByUrl(existing + incoming)|
    ensures var d := DedupByUrl(existing + incoming);
      && UrlOf(d[i]) == UrlOf(existing[i])
      && d[i] == (if LastWithUrl(incoming, UrlOf(existing[i])).Some?
                  then LastWithUrl(incoming, UrlOf(existing[i])).value
                  else existing[i])
  {
    var items := existing + incoming;
    FirstUrlsOfUnique(existing);
    FirstUrlsPrefix(existing, incoming);
    CollectMatchesReference(items);
    assert |DedupByUrl(items)| == |FirstUrls(items)|;
    var u := UrlOf(existing[i]);
    assert FirstUrls(items)[i] == FirstUrls(existing)[i] == u;
    DedupElement(items, i);
    LastWithUrlConcat(existing, incoming, u);
    LastWithUrlOfUnique(existing, i);
  }

  /** A list that already has unique urls is left as it is. */
  lemma DedupOfUnique(list: seq<Entry>)
    requires UniqueUrls(list)
    ensures DedupByUrl(list) == list
  {
    FirstUrlsOfUnique(list);
    CollectMatchesReference(list);
    forall i | 0 <= i < |list|
      ensures DedupByUrl(list)[i] == list[i]
    {
      DedupElement(list, i);
      LastWithUrlOfUnique(list, i);
    }
  }

  /** De-duplicating twice is de-duplicating once. */
  lemma DedupIdempotent(items: seq<Entry>)
    ensures DedupByUrl(DedupByUrl(items)) == DedupByUrl(items)
  {
    DedupHasUniqueUrls(items);
    DedupOfUnique(DedupByUrl(items));
  }
}
