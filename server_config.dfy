/** The server configuration (`config.json`) that the project-standards tools edit, and
    the JavaScript list operations they share: `[...new Set(...)]`, `indexOf`, `splice`,
    spreading a value into an array, and `if (!o[k]) o[k] = init`. */
module ServerConfig {
  import opened JsValues

  /** Messages several tools share. */
  const SaveFailed: string := "Failed to save configuration"
  const NotAnObject: string := "configuration is not an object"
  const MissingKey: string := "Missing key parameter for set action"

  /** The server's configuration. `config` is the object the server holds and passes to
      every tool, which edits it in place; `disk` is the document last written. After a
      `set` that returns, the server re-reads the file, so a successful action leaves the two
      equal; an action that throws leaves its in-memory edits in `config` unsaved. */
  class ConfigHandle {
    var config: Value
    var disk: Value

    /** `getConfig()`: the parsed file (null when there is none). */
    constructor Load(stored: Value)
      ensures config == stored && disk == stored
    {
      config := stored;
      disk := stored;
    }

    /** `saveConfig(config)`: the in-memory object becomes the file when the write works. */
    method Save(saveOk: bool) returns (saved: bool)
      modifies this
      ensures saved == saveOk
      ensures config == old(config)
      ensures disk == if saveOk then old(config) else old(disk)
    {
      if saveOk {
        disk := config;
      }
      saved := saveOk;
    }
  }

  /** The action names the tools accept: a missing (falsy) action and any other name are errors. */
  function ParseAction(action: Value, known: seq<string>): (r: Result<string, string>)
    ensures !Truthy(action) ==> r.Err?
    ensures r.Ok? <==> Truthy(action) && action.Str? && action.s in known
    ensures r.Ok? ==> r.value == action.s
  {
    if !Truthy(action) then Err("Missing action parameter")
    else if action.Str? && action.s in known then Ok(action.s)
    else Err("Invalid action")
  }

  /** `if (!o[k]) o[k] = init`: a falsy property of an object is initialised; a write on
      anything else is not kept. */
  function WithDefault(o: Value, k: string, init: Value): (r: Value)
    ensures Truthy(Prop(o, k)) || !o.Obj? ==> r == o
    ensures !Truthy(Prop(o, k)) && o.Obj? ==> r == Obj(o.fields[k := init])
    ensures o.Obj? ==> r.Obj? && r.fields.Keys == o.fields.Keys + {k}
    ensures o.Obj? ==> Prop(r, k) == Or(Prop(o, k), init)
  {
    if Truthy(Prop(o, k)) then o else PutProp(o, k, init)
  }

  // ---------------------------------------------------------------------------
  // Equality and sets

  /** No two elements are the same as far as `===` can tell. */
  ghost predicate NoRepeats(s: seq<Value>) {
    forall i, j :: 0 <= i < j < |s| ==> !StrictEquals(s[i], s[j])
  }

  /** `[...new Set(items)]`: the elements in order, each primitive kept only at its first
      occurrence. */
  function Distinct(items: seq<Value>): seq<Value>
    decreases |items|
  {
    if items == [] then []
    else
      var prev := Distinct(items[..|items| - 1]);
      var x := items[|items| - 1];
      if IsPrimitive(x) && x in prev then prev else prev + [x]
  }

  /** The set union keeps exactly the elements of its input. */
  lemma {:induction false} DistinctElements(items: seq<Value>)
    ensures forall x :: x in Distinct(items) <==> x in items
    decreases |items|
  {
    if items != [] {
      var p := items[..|items| - 1];
      DistinctElements(p);
      assert items == p + [items[|items| - 1]];
    }
  }

  /** The set union holds no primitive twice. */
  lemma {:induction false} DistinctNoRepeats(items: seq<Value>)
    ensures NoRepeats(Distinct(items))
    decreases |items|
  {
    if items != [] {
      var p := items[..|items| - 1];
      DistinctNoRepeats(p);
      DistinctElements(p);
    }
  }

  /** The union of `a` followed by `b` starts with the union of `a`. */
  lemma {:induction false} DistinctPrefix(a: seq<Value>, b: seq<Value>)
    ensures |Distinct(a)| <= |Distinct(a + b)|
    ensures Distinct(a + b)[..|Distinct(a)|] == Distinct(a)
    decreases |b|
  {
    if b == [] {
      assert a + b == a;
    } else {
      DistinctPrefix(a, b[..|b| - 1]);
      assert (a + b)[..|a + b| - 1] == a + b[..|b| - 1];
    }
  }

  /** A list with no repeated primitive passes through the set unchanged. */
  lemma {:induction false} DistinctOfNoRepeats(s: seq<Value>)
    requires NoRepeats(s)
    ensures Distinct(s) == s
    decreases |s|
  {
    if s != [] {
      var p := s[..|s| - 1];
      assert NoRepeats(p) by {
        forall i, j | 0 <= i < j < |p| ensures !StrictEquals(p[i], p[j]) {
          assert p[i] == s[i] && p[j] == s[j];
        }
      }
      DistinctOfNoRepeats(p);
      var x := s[|s| - 1];
      forall k | 0 <= k < |p| ensures !(IsPrimitive(x) && p[k] == x) {
        assert p[k] == s[k];
      }
    }
  }

  /** Position `i` holds the first occurrence of its value. */
  predicate FirstOccurrence(s: seq<Value>, i: int)
    requires 0 <= i < |s|
  {
    forall j :: 0 <= j < i ==> !StrictEquals(s[j], s[i])
  }

  /** Reference definition: the elements at their first occurrences, in order. */
  function FirstOccurrences(s: seq<Value>): seq<Value>
    decreases |s|
  {
    if s == [] then []
    else FirstOccurrences(s[..|s| - 1]) + (if FirstOccurrence(s, |s| - 1) then [s[|s| - 1]] else [])
  }

  /** `[...new Set(items)]` keeps exactly the first occurrences, in their original order. */
  lemma {:induction false} DistinctIsFirstOccurrences(s: seq<Value>)
    ensures Distinct(s) == FirstOccurrences(s)
    decreases |s|
  {
    if s != [] {
      var p := s[..|s| - 1];
      var x := s[|s| - 1];
      DistinctIsFirstOccurrences(p);
      DistinctElements(p);
      if IsPrimitive(x) && x in p {
        var k :| 0 <= k < |p| && p[k] == x;
        assert !FirstOccurrence(s, |s| - 1) by {
          assert s[k] == x;
        }
      } else {
        assert FirstOccurrence(s, |s| - 1) by {
          forall j | 0 <= j < |s| - 1 ensures !StrictEquals(s[j], x) {
            assert s[j] == p[j];
          }
        }
      }
    }
  }

  /** The merge the standards tools perform without `forceOverwrite`: a duplicate-free
      existing list stays in front, unchanged; the result holds every element of both
      lists and no primitive twice. */
  lemma UnionKeepsExisting(existing: seq<Value>, incoming: seq<Value>)
    requires NoRepeats(existing)
    ensures var u := Distinct(existing + incoming);
      && |existing| <= |u| && u[..|existing|] == existing
      && NoRepeats(u)
      && forall x :: x in u <==> x in existing || x in incoming
  {
    DistinctOfNoRepeats(existing);
    DistinctPrefix(existing, incoming);
    DistinctNoRepeats(existing + incoming);
    DistinctElements(existing + incoming);
  }

  /** Repeating a merge of primitive values changes nothing. */
  lemma UnionIdempotent(existing: seq<Value>, incoming: seq<Value>)
    requires forall x :: x in incoming ==> IsPrimitive(x)
    ensures Distinct(Distinct(existing + incoming) + incoming) == Distinct(existing + incoming)
  {
    var u := Distinct(existing + incoming);
    DistinctNoRepeats(existing + incoming);
    DistinctElements(existing + incoming);
    DistinctOfNoRepeats(u);
    AppendSeen(u, incoming);
  }

  /** Appending primitives already present adds nothing to the union. */
  lemma {:induction false} AppendSeen(a: seq<Value>, b: seq<Value>)
    requires forall x :: x in b ==> IsPrimitive(x) && x in a
    ensures Distinct(a + b) == Distinct(a)
    decreases |b|
  {
    if b == [] {
      assert a + b == a;
    } else {
      var p := b[..|b| - 1];
      assert forall x :: x in p ==> x in b;
      AppendSeen(a, p);
      assert (a + b)[..|a + b| - 1] == a + p;
      DistinctElements(a + p);
      assert b[|b| - 1] in b;
    }
  }

  // ---------------------------------------------------------------------------
  // Arrays

  /** `[...v]`: an array's elements, a string's characters; anything else is not iterable. */
  function Spread(v: Value): (r: Result<seq<Value>, string>)
    ensures v.Arr? ==> r == Ok(v.items)
    ensures v.Str? ==> r.Ok? && |r.value| == |v.s| && forall i :: 0 <= i < |v.s| ==> r.value[i] == Str([v.s[i]])
    ensures !v.Arr? && !v.Str? ==> r.Err?
  {
    match v
    case Arr(items) => Ok(items)
    case Str(s) => Ok(seq(|s|, i requires 0 <= i < |s| => Str([s[i]])))
    case _ => Err("value is not iterable")
  }

  /** `items.indexOf(x)`: the first position holding `x`. */
  function IndexOf(items: seq<Value>, x: Value): (r: Option<nat>)
    ensures r.Some? ==>
      && r.value < |items| && StrictEquals(items[r.value], x)
      && forall j :: 0 <= j < r.value ==> !StrictEquals(items[j], x)
    ensures r.None? ==> forall j :: 0 <= j < |items| ==> !StrictEquals(items[j], x)
  {
    if items == [] then None
    else if StrictEquals(items[0], x) then Some(0)
    else match IndexOf(items[1..], x)
      case Some(i) => Some(i + 1)
      case None => None
  }

  /** `splice(i, 1)` */
  function RemoveAt(items: seq<Value>, i: nat): (r: seq<Value>)
    requires i < |items|
    ensures |r| == |items| - 1
    ensures forall j :: 0 <= j < i ==> r[j] == items[j]
    ensures forall j :: i <= j < |r| ==> r[j] == items[j + 1]
    ensures multiset(r) + multiset{items[i]} == multiset(items)
  {
    assert items == items[..i] + [items[i]] + items[i + 1..];
    items[..i] + items[i + 1..]
  }

  /** `const i = list.indexOf(x); if (i !== -1) list.splice(i, 1); else throw`: the first
      occurrence goes; a list that does not hold `x`, or a value that is not an array, is
      an error. */
  function RemoveFirst(list: Value, x: Value): (r: Result<seq<Value>, string>)
    ensures r.Ok? <==> list.Arr? && exists j :: 0 <= j < |list.items| && StrictEquals(list.items[j], x)
    ensures r.Ok? ==>
      var i := IndexOf(list.items, x).value;
      && r.value == RemoveAt(list.items, i)
      && multiset(r.value) + multiset{x} == multiset(list.items)
  {
    if !list.Arr? then Err("indexOf or splice is not a function")
    else match IndexOf(list.items, x)
      case None => Err("not found")
      case Some(i) => Ok(RemoveAt(list.items, i))
  }

  /** Only the first of several equal elements is removed: the later ones stay in place. */
  lemma RemoveFirstKeepsLater(items: seq<Value>, x: Value, j: int)
    requires 0 <= j < |items| && StrictEquals(items[j], x)
    requires exists k :: 0 <= k < j && StrictEquals(items[k], x)
    ensures RemoveFirst(Arr(items), x).Ok?
    ensures RemoveFirst(Arr(items), x).value[j - 1] == x
  {
    var i := IndexOf(items, x).value;
    assert i < j;
  }
}
