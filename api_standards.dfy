/** The `api_standards` tool: reads, sets and deletes the API conventions kept under
    `api_standards` in the server configuration (interface type, response structures,
    basic headers, requirements). */
module ApiStandards {
  import opened JsValues
  import opened ServerConfig

  const Section: string := "api_standards"

  const Actions: seq<string> := ["get", "set", "delete"]

  /** The keys `set` accepts. */
  const StandardKeys: seq<string> := ["interfaceType", "successStructure", "errorStructure", "basicHeaders", "requirements"]

  /** The messages of the argument checks. */
  const InvalidKey: string := "Invalid key. Must be one of: interfaceType, successStructure, errorStructure, basicHeaders, requirements"
  const InvalidValue: string := "Value must be a string or array"
  const MissingTarget: string := "Missing headerName or requirement parameter for delete action"
  const TwoTargets: string := "Cannot delete both header and requirement at the same time. Please specify either headerName or requirement"

  /** What `get` returns when nothing is stored. */
  const Default: Value := Obj(map[
    "interfaceType" := Str("restful"),
    "successStructure" := Obj(map[
      "code" := Str("number"), "message" := Str("string"),
      "data" := Str("object|array"), "timestamp" := Str("string")]),
    "errorStructure" := Obj(map[
      "code" := Str("number"), "message" := Str("string"),
      "error" := Str("string"), "timestamp" := Str("string")]),
    "basicHeaders" := Obj(map[
      "Content-Type" := Str("application/json"), "Accept" := Str("application/json"),
      "Authorization" := Str("Bearer token"), "X-Request-ID" := Str("string")]),
    "requirements" := Arr([
      Str("Unified response format"), Str("Error code standards"),
      Str("Parameter validation"), Str("API documentation")])])

  /** `get`: the stored section when truthy, else the defaults, which carry every settable
      key. */
  function Get(config: Value): (r: Value)
    ensures Truthy(Prop(config, Section)) ==> r == Prop(config, Section)
    ensures !Truthy(Prop(config, Section)) ==>
      && r.Obj? && r.fields.Keys == set k | k in StandardKeys
      && Prop(r, "interfaceType") == Str("restful")
      && Prop(r, "requirements").Arr? && |Prop(r, "requirements").items| == 4
    ensures !Truthy(Prop(config, Section)) ==> r == Default
  {
    var d := Default;
    assert d.fields.Keys == set k | k in StandardKeys;
    Or(Prop(config, Section), d)
  }

  /** The section after `set` writes `key`. An array value without `forceOverwrite` is
      merged: the current value, reset to `[]` unless it is an array, followed by the new
      elements, duplicates removed. Any other value replaces the property. A section that
      is not an object keeps no write, and the merge then fails to spread `undefined`. */
  function SetSection(section: Value, key: string, value: Value, forceOverwrite: Value): (r: Result<Value, string>)
    ensures r.Ok? && section.Obj? ==>
      && r.value.Obj? && r.value.fields.Keys == section.fields.Keys + {key}
      && forall k :: k in section.fields && k != key ==> r.value.fields[k] == section.fields[k]
    ensures !(value.Arr? && !Truthy(forceOverwrite)) ==> r == Ok(PutProp(section, key, value))
    ensures value.Arr? && !Truthy(forceOverwrite) ==>
      && (r.Ok? <==> section.Obj?)
      && (r.Ok? ==> var cur := Prop(section, key);
            Prop(r.value, key) == Arr(Distinct((if cur.Arr? then cur.items else []) + value.items)))
  {
    if value.Arr? && !Truthy(forceOverwrite) then
      if section.Obj? then
        var cur := Prop(section, key);
        var existing := if cur.Arr? then cur.items else [];
        Ok(PutProp(section, key, Arr(Distinct(existing + value.items))))
      else Err("undefined is not iterable")
    else Ok(PutProp(section, key, value))
  }

  /** The arguments `set` accepts: one of the five keys and a text or array value. */
  predicate ValidSetArgs(key: Value, value: Value) {
    key.Str? && key.s in StandardKeys && (value.Str? || value.Arr?)
  }

  /** The argument checks of `set`, in order: a falsy key, a key outside the five names, a
      value that is neither text nor an array. */
  function SetArgsError(key: Value, value: Value): (r: Option<string>)
    ensures r.None? <==> ValidSetArgs(key, value)
  {
    if !Truthy(key) then Some(MissingKey)
    else if !(key.Str? && key.s in StandardKeys) then
      Some(InvalidKey)
    else if !(value.Str? || value.Arr?) then Some(InvalidValue)
    else None
  }

  /** `set`. A falsy key, a key outside the five names, or a value that is neither text
      nor an array is rejected, as is a configuration that is not an object; nothing
      changes then. Otherwise `api_standards` is initialised to `{}` in memory, the key is
      written, and the new value of the key is returned only when the save works. */
  method Set(h: ConfigHandle, key: Value, value: Value, forceOverwrite: Value, saveOk: bool)
    returns (r: Result<Value, string>)
    modifies h
    ensures !ValidSetArgs(key, value) || !old(h.config).Obj? ==> r.Err? && unchanged(h)
    ensures ValidSetArgs(key, value) && old(h.config).Obj? ==>
      var prepared := WithDefault(old(h.config), Section, Obj(map[]));
      var section := SetSection(Prop(prepared, Section), key.s, value, forceOverwrite);
      && (r.Ok? <==> section.Ok? && saveOk)
      && h.config == (if section.Ok? then PutProp(prepared, Section, section.value) else prepared)
      && h.disk == (if section.Ok? && saveOk then h.config else old(h.disk))
      && (r.Ok? ==> r.value == Prop(section.value, key.s))
  {
    var invalid := SetArgsError(key, value);
    if invalid.Some? {
      return Err(invalid.value);
    }
    if !h.config.Obj? {
      return Err("Failed to update API standards: " + NotAnObject);
    }
    h.config := WithDefault(h.config, Section, Obj(map[]));
    var section := SetSection(Prop(h.config, Section), key.s, value, forceOverwrite);
    if section.Err? {
      return Err("Failed to update API standards: " + section.error);
    }
    h.config := PutProp(h.config, Section, section.value);
    var saved := h.Save(saveOk);
    if !saved {
      return Err("Failed to update API standards: " + SaveFailed);
    }
    r := Ok(Prop(section.value, key.s));
  }

  /** What `delete` removes. */
  datatype Target = Header(name: string) | Requirement(text: Value)

  /** Exactly one of `headerName` and `requirement` must be given (truthy). A header name
      is a property key, so it is converted to text. */
  function DeleteTarget(headerName: Value, requirement: Value): (r: Result<Target, string>)
    ensures r.Ok? <==> Truthy(headerName) != Truthy(requirement)
    ensures r.Ok? && Truthy(headerName) ==> r.value == Header(JsString(headerName))
    ensures r.Ok? && Truthy(requirement) ==> r.value == Requirement(requirement)
  {
    if !Truthy(headerName) && !Truthy(requirement) then
      Err(MissingTarget)
    else if Truthy(headerName) && Truthy(requirement) then
      Err(TwoTargets)
    else if Truthy(headerName) then Ok(Header(JsString(headerName)))
    else Ok(Requirement(requirement))
  }

  /** The property of the section that `delete` works on, and its initial value. */
  function TargetField(t: Target): string {
    if t.Header? then "basicHeaders" else "requirements"
  }

  function TargetInit(t: Target): Value {
    if t.Header? then Obj(map[]) else Arr([])
  }

  /** The new value of that property: the header removed when it is an own property of an
      object, or the first `===` requirement spliced out of an array; anything else is not
      found. */
  function Removed(t: Target, current: Value): (r: Result<Value, string>)
    ensures t.Header? ==>
      && (r.Ok? <==> current.Obj? && t.name in current.fields)
      && (r.Ok? ==> r.value == Obj(current.fields - {t.name}))
    ensures t.Requirement? ==>
      && (r.Ok? <==> RemoveFirst(current, t.text).Ok?)
      && (r.Ok? ==> r.value == Arr(RemoveFirst(current, t.text).value))
  {
    match t
    case Header(name) =>
      if current.Obj? && name in current.fields then Ok(Obj(current.fields - {name}))
      else Err("Header '" + name + "' not found")
    case Requirement(text) =>
      match RemoveFirst(current, text)
      case Ok(rest) => Ok(Arr(rest))
      case Err(_) => Err("Requirement '" + JsString(text) + "' not found")
  }

  /** `delete`. With exactly one target and a configuration object, `api_standards` and
      then the target's property are initialised in memory (`{}` for the headers, `[]` for
      the requirements); the header or the first matching requirement is removed, and the
      deletion is returned only when the save works. A missing target is an error and
      keeps only the initialisations. */
  method Delete(h: ConfigHandle, headerName: Value, requirement: Value, saveOk: bool)
    returns (r: Result<Target, string>)
    modifies h
    ensures DeleteTarget(headerName, requirement).Err? || !old(h.config).Obj? ==> r.Err? && unchanged(h)
    ensures DeleteTarget(headerName, requirement).Ok? && old(h.config).Obj? ==>
      var t := DeleteTarget(headerName, requirement).value;
      var c1 := WithDefault(old(h.config), Section, Obj(map[]));
      var s1 := WithDefault(Prop(c1, Section), TargetField(t), TargetInit(t));
      var c2 := PutProp(c1, Section, s1);
      var removed := Removed(t, Prop(s1, TargetField(t)));
      && (r.Ok? <==> removed.Ok? && saveOk)
      && h.config == (if removed.Ok? then PutProp(c2, Section, PutProp(s1, TargetField(t), removed.value)) else c2)
      && h.disk == (if removed.Ok? && saveOk then h.config else old(h.disk))
      && (r.Ok? ==> r.value == t)
  {
    var target := DeleteTarget(headerName, requirement);
    if target.Err? {
      return Err(target.error);
    }
    if !h.config.Obj? {
      return Err("Failed to delete: " + NotAnObject);
    }
    var t := target.value;
    h.config := WithDefault(h.config, Section, Obj(map[]));
    var section := WithDefault(Prop(h.config, Section), TargetField(t), TargetInit(t));
    h.config := PutProp(h.config, Section, section);
    var removed := Removed(t, Prop(section, TargetField(t)));
    if removed.Err? {
      return Err("Failed to delete: " + removed.error);
    }
    h.config := PutProp(h.config, Section, PutProp(section, TargetField(t), removed.value));
    var saved := h.Save(saveOk);
    if !saved {
      return Err("Failed to delete: " + SaveFailed);
    }
    r := Ok(t);
  }

  /** A text value replaces the key whatever it held, and no other key of the section
      changes. */
  lemma SetTextReplaces(section: Value, key: string, value: string, forceOverwrite: Value)
    requires section.Obj?
    ensures var r := SetSection(section, key, Str(value), forceOverwrite);
      && r.Ok? && Prop(r.value, key) == Str(value)
      && forall k :: k != key ==> Prop(r.value, k) == Prop(section, k)
  {
  }

  /** Merging requirements into a stored list without repeats keeps that list in front,
      adds only what is new, and holds no requirement twice. */
  lemma MergeRequirements(section: Value, stored: seq<Value>, incoming: seq<Value>)
    requires section.Obj? && Prop(section, "requirements") == Arr(stored) && NoRepeats(stored)
    ensures var r := SetSection(section, "requirements", Arr(incoming), Bool(false));
      && r.Ok?
      && var merged := Prop(r.value, "requirements").items;
      && |stored| <= |merged| && merged[..|stored|] == stored
      && NoRepeats(merged)
      && forall x :: x in merged <==> x in stored || x in incoming
  {
    UnionKeepsExisting(stored, incoming);
  }

  /** A merge over a value that is not an array discards it: the result holds only the new
      elements, duplicates removed. */
  lemma MergeOverNonArray(section: Value, key: string, incoming: seq<Value>)
    requires section.Obj? && !Prop(section, key).Arr?
    ensures var r := SetSection(section, key, Arr(incoming), Bool(false));
      r.Ok? && Prop(r.value, key) == Arr(Distinct(incoming))
  {
    assert [] + incoming == incoming;
  }

  /** Deleting a requirement that occurs twice removes only the first occurrence. */
  lemma DeleteRequirementOnce(text: string)
    ensures var r := Removed(Requirement(Str(text)), Arr([Str(text), Str("other"), Str(text)]));
      r == Ok(Arr([Str("other"), Str(text)]))
  {
    var items := [Str(text), Str("other"), Str(text)];
    assert IndexOf(items, Str(text)) == Some(0);
    assert RemoveAt(items, 0) == items[1..];
  }
}
