/** The `create_custom_tool` tool: appends a tool record (name, description, input schema,
    handler source) to `customTools` in the server configuration. The creation time and
    the id, taken from the clock, are inputs. */
module CustomTools {
  import opened JsValues
  import opened ServerConfig

  const Section: string := "customTools"

  const MissingParameters: string := "Missing required parameters: toolName, description, inputSchema, handlerCode"
  const NoPush: string := "config.customTools.push is not a function"

  /** The record stored for a tool. */
  function ToolRecord(name: Value, description: Value, inputSchema: Value, handlerCode: Value,
                      createdAt: string, id: string): (t: Value)
    ensures t.Obj? && t.fields.Keys == {"name", "description", "inputSchema", "handlerCode", "createdAt", "id"}
    ensures Prop(t, "name") == name && Prop(t, "handlerCode") == handlerCode
    ensures Prop(t, "description") == description && Prop(t, "inputSchema") == inputSchema
    ensures Prop(t, "createdAt") == Str(createdAt) && Prop(t, "id") == Str(id)
  {
    Obj(map[
      "name" := name,
      "description" := description,
      "inputSchema" := inputSchema,
      "handlerCode" := handlerCode,
      "createdAt" := Str(createdAt),
      "id" := Str(id)])
  }

  /** The configuration after the push: `customTools` initialised to `[]` when falsy, then
      the record appended. A `customTools` value that is not an array has no `push`. */
  function Appended(config: Value, tool: Value): (r: Result<Value, string>)
    requires config.Obj?
    ensures var tools := Or(Prop(config, Section), Arr([]));
      && (r.Ok? <==> tools.Arr?)
      && (r.Ok? ==> r.value == PutProp(config, Section, Arr(tools.items + [tool])))
  {
    var tools := Prop(WithDefault(config, Section, Arr([])), Section);
    if tools.Arr? then Ok(PutProp(config, Section, Arr(tools.items + [tool])))
    else Err(NoPush)
  }

  /** `create_custom_tool`. Any of the four parameters falsy, or a configuration that is not
      an object, is rejected with nothing changed. Otherwise the record is appended in
      memory (after `customTools` is initialised) and returned only when the save works. */
  method Create(h: ConfigHandle, toolName: Value, description: Value, inputSchema: Value, handlerCode: Value,
                createdAt: string, id: string, saveOk: bool)
    returns (r: Result<Value, string>)
    modifies h
    ensures !(Truthy(toolName) && Truthy(description) && Truthy(inputSchema) && Truthy(handlerCode)) ==>
      r.Err? && unchanged(h)
    ensures !old(h.config).Obj? ==> r.Err? && unchanged(h)
    ensures Truthy(toolName) && Truthy(description) && Truthy(inputSchema) && Truthy(handlerCode) && old(h.config).Obj? ==>
      var tool := ToolRecord(toolName, description, inputSchema, handlerCode, createdAt, id);
      var next := Appended(old(h.config), tool);
      && (r.Ok? <==> next.Ok? && saveOk)
      && h.config == (if next.Ok? then next.value else WithDefault(old(h.config), Section, Arr([])))
      && h.disk == (if next.Ok? && saveOk then h.config else old(h.disk))
      && (r.Ok? ==> r.value == tool)
  {
    if !Truthy(toolName) || !Truthy(description) || !Truthy(inputSchema) || !Truthy(handlerCode) {
      return Err(MissingParameters);
    }
    if !h.config.Obj? {
      return Err("Failed to create custom tool: " + NotAnObject);
    }
    var tool := ToolRecord(toolName, description, inputSchema, handlerCode, createdAt, id);
    var next := Appended(h.config, tool);
    if next.Err? {
      h.config := WithDefault(h.config, Section, Arr([]));
      return Err("Failed to create custom tool: " + next.error);
    }
    h.config := next.value;
    var saved := h.Save(saveOk);
    if !saved {
      return Err("Failed to create custom tool: " + SaveFailed);
    }
    r := Ok(tool);
  }

  /** Exactly one record goes at the end; the tools already stored are untouched. */
  lemma AppendOnly(config: Value, tool: Value)
    requires config.Obj? && Appended(config, tool).Ok?
    ensures var before := Or(Prop(config, Section), Arr([])).items;
      var after := Prop(Appended(config, tool).value, Section);
      && after.Arr? && |after.items| == |before| + 1
      && after.items[..|before|] == before && after.items[|before|] == tool
      && forall k :: k in config.fields && k != Section ==> Prop(Appended(config, tool).value, k) == config.fields[k]
  {
  }

  /** No uniqueness check: creating two tools with the same name keeps both. */
  lemma SameNameTwice(config: Value, t1: Value, t2: Value)
    requires config.Obj? && Appended(config, t1).Ok?
    requires Prop(t1, "name") == Prop(t2, "name")
    ensures Appended(Appended(config, t1).value, t2).Ok?
    ensures var tools := Prop(Appended(Appended(config, t1).value, t2).value, Section).items;
      |tools| >= 2 && tools[|tools| - 2] == t1 && tools[|tools| - 1] == t2
      && Prop(tools[|tools| - 2], "name") == Prop(tools[|tools| - 1], "name")
  {
  }
}
