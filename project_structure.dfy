/** The `project_structure` tool: the list of `{path, description}` records kept under
    `project_structure` in the server configuration, with an upsert keyed by path and a
    delete by path. */
module ProjectStructure {
  import opened JsValues
  import opened ServerConfig

  const Section: string := "project_structure"

  const Actions: seq<string> := ["get", "set", "delete"]

  /** `get`: the stored list when truthy, `[]` otherwise. */
  function Get(config: Value): (r: Value)
    ensures Truthy(Prop(config, Section)) ==> r == Prop(config, Section)
    ensures !Truthy(Prop(config, Section)) ==> r == Arr([])
  {
    Or(Prop(config, Section), Arr([]))
  }

  /** The record stored for an item: its path and description and nothing else. */
  function EntryOf(item: Value): Value {
    Obj(map["path" := Prop(item, "path"), "description" := Prop(item, "description")])
  }

  function PathOf(v: Value): Value {
    Prop(v, "path")
  }

  /** An item `set` accepts: a truthy path and a truthy description. */
  predicate ValidItem(item: Value) {
    Truthy(PathOf(item)) && Truthy(Prop(item, "description"))
  }

  const ItemError: string := "Each structure item must have \"path\" and \"description\" properties"

  /** The TypeError of reading `path` on a null or undefined element. */
  function PathReadError(item: Value): string {
    CannotRead + JsString(item) + ReadingPath
  }

  const CannotRead: string := "Cannot read properties of "
  const ReadingPath: string := " (reading 'path')"

  /** Element `j` is null or undefined, and every element before it has a path other than `p`. */
  predicate NullishBeforeMatch(items: seq<Value>, p: Value, j: int) {
    && 0 <= j < |items| && IsNullish(items[j])
    && forall m :: 0 <= m < j ==> !IsNullish(items[m]) && !StrictEquals(PathOf(items[m]), p)
  }

  /** `items.findIndex(e => e.path === p)`: the first element whose path is `p`; reading
      the path of a null or undefined element before that is an error. */
  function FindPathIn(items: seq<Value>, p: Value): (r: Result<Option<nat>, string>)
    ensures r.Ok? && r.value.Some? ==>
      && r.value.value < |items| && StrictEquals(PathOf(items[r.value.value]), p)
      && forall j :: 0 <= j < r.value.value ==> !IsNullish(items[j]) && !StrictEquals(PathOf(items[j]), p)
    ensures r.Ok? && r.value.None? ==>
      forall j :: 0 <= j < |items| ==> !IsNullish(items[j]) && !StrictEquals(PathOf(items[j]), p)
    ensures r.Err? ==> exists j :: NullishBeforeMatch(items, p, j) && r.error == PathReadError(items[j])
  {
    if items == [] then Ok(None)
    else if IsNullish(items[0]) then Err(PathReadError(items[0]))
    else if StrictEquals(PathOf(items[0]), p) then Ok(Some(0))
    else match FindPathIn(items[1..], p)
      case Err(e) =>
        var j :| NullishBeforeMatch(items[1..], p, j) && e == PathReadError(items[1..][j]);
        assert NullishBeforeMatch(items, p, j + 1) by {
          assert items[j + 1] == items[1..][j];
          forall m | 1 <= m < j + 1
            ensures !IsNullish(items[m]) && !StrictEquals(PathOf(items[m]), p)
          {
            assert items[m] == items[1..][m - 1];
          }
        }
        Err(e)
      case Ok(None) => Ok(None)
      case Ok(Some(i)) => Ok(Some(i + 1))
  }

  /** `current.findIndex(...)` on any value: only arrays have it. */
  function FindPath(current: Value, p: Value): (r: Result<Option<nat>, string>)
    ensures !current.Arr? ==> r.Err?
    ensures current.Arr? ==> r == FindPathIn(current.items, p)
  {
    if current.Arr? then FindPathIn(current.items, p) else Err("findIndex is not a function")
  }

  /** The state of the `for` loop of `set`: the current list (the stored array itself, so
      replacements are visible through the configuration), the new records, and the error
      that stopped the loop. */
  datatype Progress = Progress(current: Value, added: seq<Value>, error: Option<string>)

  /** One iteration: an invalid item stops the loop; an item whose path is in the list
      replaces the first record with that path; any other item is queued as a new record. */
  function Step(p: Progress, item: Value): (r: Progress)
    requires p.error.None?
  {
    if !ValidItem(item) then p.(error := Some(ItemError))
    else match FindPath(p.current, PathOf(item))
      case Err(e) => p.(error := Some(e))
      case Ok(None) => p.(added := p.added + [EntryOf(item)])
      case Ok(Some(i)) => p.(current := Arr(p.current.items[i := EntryOf(item)]))
  }

  /** The loop over the first items, starting from `start`. */
  function Fold(start: Value, items: seq<Value>): Progress
    decreases |items|
  {
    if items == [] then Progress(start, [], None)
    else
      var p := Fold(start, items[..|items| - 1]);
      if p.error.Some? then p else Step(p, items[|items| - 1])
  }

  /** `config?.project_structure || []` */
  function Start(config: Value): Value {
    Or(Prop(config, Section), Arr([]))
  }

  /** The configuration in memory after the loop: when the list came from the
      configuration, the replacements made so far are in it. */
  function InMemory(config: Value, structure: seq<Value>): Value {
    if Truthy(Prop(config, Section)) then PutProp(config, Section, Fold(Start(config), structure).current)
    else config
  }

  /** The list `set` stores: the current list followed by the new records. It is an error
      when the loop stopped, when the current value cannot be spread, and when there is no
      configuration object to write to. */
  function Updated(config: Value, structure: seq<Value>): Result<seq<Value>, string> {
    var p := Fold(Start(config), structure);
    if p.error.Some? then Err(p.error.value)
    else match Spread(p.current)
      case Err(e) => Err(e)
      case Ok(existing) => if config.Obj? then Ok(existing + p.added) else Err("Cannot set properties of null")
  }

  /** The counts `set` reports. */
  datatype Counts = Counts(updatedCount: nat, newItemsCount: nat, totalItems: nat)

  /** `set`. A `structure` that is not an array is rejected with nothing changed. Otherwise
      the items are applied in order; a failure part-way leaves the replacements already
      made in the in-memory configuration (when its list was used) and saves nothing. On
      success the configuration holds the updated list, and the counts are returned only
      when the save works. */
  method Set(h: ConfigHandle, structure: Value, saveOk: bool) returns (r: Result<Counts, string>)
    modifies h
    ensures !structure.Arr? ==> r.Err? && unchanged(h)
    ensures structure.Arr? ==>
      var updated := Updated(old(h.config), structure.items);
      && (r.Ok? <==> updated.Ok? && saveOk)
      && h.config == (if updated.Ok? then PutProp(old(h.config), Section, Arr(updated.value))
                      else InMemory(old(h.config), structure.items))
      && h.disk == (if updated.Ok? && saveOk then h.config else old(h.disk))
      && (r.Ok? ==> r.value == Counts(|structure.items|, |Fold(Start(old(h.config)), structure.items).added|, |updated.value|))
  {
    if !structure.Arr? {
      return Err("Structure must be an array for set action");
    }
    var items := structure.items;
    var start := Start(h.config);
    var aliased := Truthy(Prop(h.config, Section));
    assert aliased ==> PutProp(h.config, Section, start) == h.config by {
      if aliased {
        assert h.config.fields[Section := start] == h.config.fields;
      }
    }
    var p := ApplyItems(h, start, aliased, items);
    if p.error.Some? {
      return Err("Failed to update project structure: " + p.error.value);
    }
    var current, added := p.current, p.added;
    var existing := Spread(current);
    if existing.Err? {
      return Err("Failed to update project structure: " + existing.error);
    }
    if !h.config.Obj? {
      return Err("Failed to update project structure: Cannot set properties of null");
    }
    var updatedStructure := existing.value + added;
    assert Updated(old(h.config), items) == Ok(updatedStructure);
    PutPropTwice(old(h.config), Section, current, Arr(updatedStructure));
    h.config := PutProp(h.config, Section, Arr(updatedStructure));
    var saved := h.Save(saveOk);
    if !saved {
      return Err("Failed to update project structure: " + SaveFailed);
    }
    r := Ok(Counts(|items|, |added|, |updatedStructure|));
  }

  /** The `for` loop of `set`: each item is checked, then either replaces the first record
      with its path, in the list itself (so in the configuration too when the list came
      from it), or is queued as a new record. The loop leaves at the first failure. */
  method ApplyItems(h: ConfigHandle, start: Value, aliased: bool, items: seq<Value>) returns (p: Progress)
    requires aliased ==> PutProp(h.config, Section, start) == h.config
    modifies h
    ensures p == Fold(start, items)
    ensures h.config == if aliased then PutProp(old(h.config), Section, p.current) else old(h.config)
    ensures h.disk == old(h.disk)
  {
    var current := start;
    var added: seq<Value> := [];
    var i := 0;
    while i < |items|
      invariant 0 <= i <= |items|
      invariant Fold(start, items[..i]) == Progress(current, added, None)
      invariant h.config == if aliased then PutProp(old(h.config), Section, current) else old(h.config)
      invariant h.disk == old(h.disk)
    {
      FoldNext(start, items, i);
      var item := items[i];
      if !ValidItem(item) {
        FoldStops(start, items, i + 1);
        return Progress(current, added, Some(ItemError));
      }
      var found := FindPath(current, PathOf(item));
      match found {
        case Err(e) =>
          FoldStops(start, items, i + 1);
          return Progress(current, added, Some(e));
        case Ok(None) =>
          added := added + [EntryOf(item)];
        case Ok(Some(j)) =>
          var replaced := Arr(current.items[j := EntryOf(item)]);
          if aliased {
            PutPropTwice(old(h.config), Section, current, replaced);
            h.config := PutProp(h.config, Section, replaced);
          }
          current := replaced;
      }
      i := i + 1;
    }
    assert items[..i] == items;
    p := Progress(current, added, None);
  }

  /** One more item is one more step of the loop. */
  lemma FoldNext(start: Value, items: seq<Value>, i: int)
    requires 0 <= i < |items| && Fold(start, items[..i]).error.None?
    ensures Fold(start, items[..i + 1]) == Step(Fold(start, items[..i]), items[i])
  {
    assert items[..i + 1][..i] == items[..i];
  }

  /** Once the loop has stopped on an item, later items change nothing. */
  lemma {:induction false} FoldStops(start: Value, items: seq<Value>, n: int)
    requires 0 <= n <= |items| && Fold(start, items[..n]).error.Some?
    ensures Fold(start, items) == Fold(start, items[..n])
    decreases |items| - n
  {
    if n < |items| {
      assert items[..n + 1][..n] == items[..n];
      FoldStops(start, items, n + 1);
    } else {
      assert items[..n] == items;
    }
  }

  /** `delete`. A falsy path, or a configuration that is not an object, is rejected with
      nothing changed. Otherwise the list is initialised to `[]` in memory and the first
      record whose path is `path` is spliced out and returned, only when the save works; no
      such record is an error. */
  method Delete(h: ConfigHandle, path: Value, saveOk: bool) returns (r: Result<Value, string>)
    modifies h
    ensures !Truthy(path) || !old(h.config).Obj? ==> r.Err? && unchanged(h)
    ensures Truthy(path) && old(h.config).Obj? ==>
      var c1 := WithDefault(old(h.config), Section, Arr([]));
      var list := Prop(c1, Section);
      var found := FindPath(list, path);
      && (r.Ok? <==> found.Ok? && found.value.Some? && saveOk)
      && (found.Ok? && found.value.Some? ==>
            && h.config == PutProp(c1, Section, Arr(RemoveAt(list.items, found.value.value)))
            && (r.Ok? ==> r.value == list.items[found.value.value] && StrictEquals(PathOf(r.value), path)))
      && (!(found.Ok? && found.value.Some?) ==> h.config == c1)
      && h.disk == (if found.Ok? && found.value.Some? && saveOk then h.config else old(h.disk))
  {
    if !Truthy(path) {
      return Err("Missing path parameter for delete action");
    }
    if !h.config.Obj? {
      return Err("Failed to delete structure item: " + NotAnObject);
    }
    h.config := WithDefault(h.config, Section, Arr([]));
    var list := Prop(h.config, Section);
    var found := FindPath(list, path);
    if found.Err? {
      return Err("Failed to delete structure item: " + found.error);
    }
    if found.value.None? {
      return Err("Failed to delete structure item: Path '" + JsString(path) + "' not found");
    }
    var i := found.value.value;
    var deleted := list.items[i];
    h.config := PutProp(h.config, Section, Arr(RemoveAt(list.items, i)));
    var saved := h.Save(saveOk);
    if !saved {
      return Err("Failed to delete structure item: " + SaveFailed);
    }
    r := Ok(deleted);
  }

  /** When no two records share a path, deleting a path leaves no record with it, and the
      other records in their order. */
  lemma DeleteUniquePath(stored: seq<Value>, path: Value)
    requires forall i, j :: 0 <= i < j < |stored| ==> !StrictEquals(PathOf(stored[i]), PathOf(stored[j]))
    requires FindPathIn(stored, path).Ok? && FindPathIn(stored, path).value.Some?
    ensures var i := FindPathIn(stored, path).value.value;
      var rest := RemoveAt(stored, i);
      && !HasPath(rest, path)
      && rest == stored[..i] + stored[i + 1..]
  {
    var i := FindPathIn(stored, path).value.value;
    var rest := RemoveAt(stored, i);
    forall j | 0 <= j < |rest| ensures !StrictEquals(PathOf(rest[j]), path) {
      if j >= i {
        assert rest[j] == stored[j + 1];
        assert !StrictEquals(PathOf(stored[i]), PathOf(stored[j + 1]));
      }
    }
  }

  // ---------------------------------------------------------------------------
  // What the upsert does, stated against reference definitions

  /** Some stored record has path `p`. */
  predicate HasPath(stored: seq<Value>, p: Value) {
    exists j :: 0 <= j < |stored| && StrictEquals(PathOf(stored[j]), p)
  }

  /** Reference: the records of the items whose path no stored record has, in input order. */
  function Fresh(stored: seq<Value>, items: seq<Value>): seq<Value>
    decreases |items|
  {
    if items == [] then []
    else
      var x := items[|items| - 1];
      Fresh(stored, items[..|items| - 1]) + (if HasPath(stored, PathOf(x)) then [] else [EntryOf(x)])
  }

  /** Reference: the last item whose path is `p`. */
  function LastWithPath(items: seq<Value>, p: Value): Option<Value>
    decreases |items|
  {
    if items == [] then None
    else if StrictEquals(PathOf(items[|items| - 1]), p) then Some(items[|items| - 1])
    else LastWithPath(items[..|items| - 1], p)
  }

  /** Record `j` is the first stored record with its path. */
  predicate FirstWithPath(stored: seq<Value>, j: int)
    requires 0 <= j < |stored|
  {
    forall k :: 0 <= k < j ==> !StrictEquals(PathOf(stored[k]), PathOf(stored[j]))
  }

  /** Reference: what record `j` holds after the loop. The first record with a given path
      takes the last item carrying that path; every other record stays as it was. */
  function Expected(stored: seq<Value>, items: seq<Value>, j: int): Value
    requires 0 <= j < |stored|
  {
    var last := LastWithPath(items, PathOf(stored[j]));
    if FirstWithPath(stored, j) && last.Some? then EntryOf(last.value) else stored[j]
  }

  /** The loop's result when no item failed, over a stored array: the list keeps its length
      and every record its path; each record is its `Expected` value; the new records are
      exactly the `Fresh` ones. */
  ghost predicate Upserted(start: Value, items: seq<Value>, p: Progress) {
    && start.Arr? && p.current.Arr? && |p.current.items| == |start.items|
    && (forall j :: 0 <= j < |start.items| ==> PathOf(p.current.items[j]) == PathOf(start.items[j]))
    && (forall j :: 0 <= j < |start.items| ==> p.current.items[j] == Expected(start.items, items, j))
    && p.added == Fresh(start.items, items)
  }

  /** The upsert of `set`, item by item. */
  lemma {:induction false} FoldUpserts(start: Value, items: seq<Value>)
    requires start.Arr? && Fold(start, items).error.None?
    ensures Upserted(start, items, Fold(start, items))
    decreases |items|
  {
    if items != [] {
      var prefix, x := items[..|items| - 1], items[|items| - 1];
      assert prefix + [x] == items;
      var p := Fold(start, prefix);
      assert p.error.None? && Fold(start, items) == Step(p, x);
      FoldUpserts(start, prefix);
      StepUpserts(start, prefix, x);
    }
  }

  /** One more item keeps the loop's result as the reference definitions say. */
  lemma StepUpserts(start: Value, prefix: seq<Value>, x: Value)
    requires Upserted(start, prefix, Fold(start, prefix))
    requires Fold(start, prefix).error.None? && Step(Fold(start, prefix), x).error.None?
    ensures Upserted(start, prefix + [x], Step(Fold(start, prefix), x))
  {
    var items := prefix + [x];
    assert items[..|items| - 1] == prefix;
    var p := Fold(start, prefix);
    var stored := start.items;
    var q := PathOf(x);
    var found := FindPathIn(p.current.items, q);
    assert found.Ok?;
    forall j | 0 <= j < |stored| && !StrictEquals(PathOf(stored[j]), q)
      ensures LastWithPath(items, PathOf(stored[j])) == LastWithPath(prefix, PathOf(stored[j]))
    {
    }
    if found.value.None? {
      assert !HasPath(stored, q) by {
        forall j | 0 <= j < |stored| ensures !StrictEquals(PathOf(stored[j]), q) {
          assert PathOf(p.current.items[j]) == PathOf(stored[j]);
        }
      }
    } else {
      var i := found.value.value;
      assert StrictEquals(PathOf(stored[i]), q);
      assert HasPath(stored, q);
      assert FirstWithPath(stored, i) by {
        forall k | 0 <= k < i ensures !StrictEquals(PathOf(stored[k]), PathOf(stored[i])) {
          assert PathOf(p.current.items[k]) == PathOf(stored[k]);
        }
      }
      assert LastWithPath(items, PathOf(stored[i])) == Some(x);
      forall j | 0 <= j < |stored| && j != i && StrictEquals(PathOf(stored[j]), q)
        ensures !FirstWithPath(stored, j)
      {
        assert PathOf(p.current.items[j]) == PathOf(stored[j]);
        assert StrictEquals(PathOf(stored[i]), PathOf(stored[j]));
      }
    }
  }

  /** However the items fail or not, there are never more new records than items. */
  lemma {:induction false} AddedBounded(start: Value, items: seq<Value>)
    ensures |Fold(start, items).added| <= |items|
    decreases |items|
  {
    if items != [] {
      AddedBounded(start, items[..|items| - 1]);
    }
  }

  /** What `set` stores, over a stored array: the updated records in their places, then
      the fresh ones; the reported total is the old length plus the new records. */
  lemma SetStores(config: Value, structure: seq<Value>)
    requires config.Obj? && Prop(config, Section).Arr? && Updated(config, structure).Ok?
    ensures var stored := Prop(config, Section).items;
      var list := Updated(config, structure).value;
      && |list| == |stored| + |Fresh(stored, structure)|
      && (forall j :: 0 <= j < |stored| ==> list[j] == Expected(stored, structure, j))
      && list[|stored|..] == Fresh(stored, structure)
      && |Fresh(stored, structure)| <= |structure|
  {
    FoldUpserts(Start(config), structure);
    AddedBounded(Start(config), structure);
  }

  /** Two items with the same new path in one call are both appended. */
  lemma SameNewPathTwice(path: string, description: string)
    requires path != "" && description != ""
    ensures var item := Obj(map["path" := Str(path), "description" := Str(description)]);
      Fold(Arr([]), [item, item]).added == [EntryOf(item), EntryOf(item)]
  {
    var item := Obj(map["path" := Str(path), "description" := Str(description)]);
    assert [item, item][..1] == [item];
    assert [item][..0] == [];
    assert ValidItem(item);
    var empty := Progress(Arr([]), [], None);
    assert Fold(Arr([]), []) == empty;
    assert FindPath(Arr([]), PathOf(item)) == Ok(None);
    assert Step(empty, item) == Progress(Arr([]), [EntryOf(item)], None);
    assert Fold(Arr([]), [item]) == Step(Fold(Arr([]), [item][..0]), item);
  }

  /** An invalid item after a replacement: `set` fails and saves nothing, but the
      replacement is already in the configuration held in memory. */
  lemma FailureKeepsEarlierReplacement(path: string, before: string, after: string)
    requires path != "" && before != "" && after != ""
    ensures var config := Obj(map[Section := Arr([EntryOf(Obj(map["path" := Str(path), "description" := Str(before)]))])]);
      var item := Obj(map["path" := Str(path), "description" := Str(after)]);
      && Updated(config, [item, Null]).Err?
      && InMemory(config, [item, Null]) == Obj(map[Section := Arr([EntryOf(item)])])
  {
    var item := Obj(map["path" := Str(path), "description" := Str(after)]);
    var config := Obj(map[Section := Arr([EntryOf(Obj(map["path" := Str(path), "description" := Str(before)]))])]);
    assert [item, Null][..1] == [item];
    assert [item][..0] == [];
    assert ValidItem(item) && !ValidItem(Null);
    var start := Start(config);
    assert FindPath(start, PathOf(item)) == Ok(Some(0));
    assert Fold(start, []) == Progress(start, [], None);
    assert start.items[0 := EntryOf(item)] == [EntryOf(item)];
    assert Step(Progress(start, [], None), item) == Progress(Arr([EntryOf(item)]), [], None);
    assert Fold(start, [item]) == Step(Fold(start, [item][..0]), item);
  }
}
