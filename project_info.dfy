/** The `project_info` tool: the project's name, development language and basic
    description, kept under `project_info` in the server configuration. */
module ProjectInfo {
  import opened JsValues
  import opened ServerConfig

  const Section: string := "project_info"

  const Actions: seq<string> := ["get", "set"]

  /** The keys `set` accepts. */
  const InfoKeys: seq<string> := ["projectName", "developmentLanguage", "basicInfo"]

  const InvalidKey: string := "Invalid key. Must be one of: projectName, developmentLanguage, basicInfo"

  /** What `get` reports (the timestamp it adds is left out). */
  datatype Info = Info(projectName: Value, developmentLanguage: Value, basicInfo: Value)

  /** A field of the report: the stored value when truthy, `''` otherwise. */
  function Field(config: Value, key: string): (r: Value)
    ensures Truthy(r) || r == Str("")
    ensures Truthy(Prop(Prop(config, Section), key)) ==> r == Prop(Prop(config, Section), key)
    ensures !Truthy(Prop(Prop(config, Section), key)) ==> r == Str("")
  {
    var info := Or(Prop(config, Section), Str(""));
    Or(Prop(info, key), Str(""))
  }

  /** `get`: each of the three fields, with `''` for any that is missing or falsy (and for
      all three when no section, or no configuration, exists). */
  function Get(config: Value): (r: Info)
    ensures r.projectName == Field(config, "projectName")
    ensures r.developmentLanguage == Field(config, "developmentLanguage")
    ensures r.basicInfo == Field(config, "basicInfo")
    ensures !Prop(config, Section).Obj? ==> r == Info(Str(""), Str(""), Str(""))
  {
    Info(Field(config, "projectName"), Field(config, "developmentLanguage"), Field(config, "basicInfo"))
  }

  /** The configuration after `set`: the section initialised to `{}` when falsy, then
      `key` written in it (a section that is not an object keeps no write). */
  function SetField(config: Value, key: string, value: Value): (r: Value)
    requires config.Obj?
    ensures r.Obj? && r.fields.Keys == config.fields.Keys + {Section}
    ensures forall k :: k in config.fields && k != Section ==> r.fields[k] == config.fields[k]
    ensures var before := Or(Prop(config, Section), Obj(map[]));
      before.Obj? ==> Prop(r, Section) == Obj(before.fields[key := value])
  {
    var c1 := WithDefault(config, Section, Obj(map[]));
    PutProp(c1, Section, PutProp(Prop(c1, Section), key, value))
  }

  /** `set`. A falsy key or one outside the three names is rejected, as is a configuration
      that is not an object; nothing changes then. Otherwise the field is written in memory
      and `value` is returned only when the save works. */
  method Set(h: ConfigHandle, key: Value, value: Value, saveOk: bool) returns (r: Result<Value, string>)
    modifies h
    ensures !(key.Str? && key.s in InfoKeys) || !old(h.config).Obj? ==> r.Err? && unchanged(h)
    ensures key.Str? && key.s in InfoKeys && old(h.config).Obj? ==>
      && h.config == SetField(old(h.config), key.s, value)
      && (r.Ok? <==> saveOk)
      && h.disk == (if saveOk then h.config else old(h.disk))
      && (r.Ok? ==> r.value == value)
  {
    if !Truthy(key) {
      return Err(MissingKey);
    }
    if !(key.Str? && key.s in InfoKeys) {
      return Err(InvalidKey);
    }
    if !h.config.Obj? {
      return Err("Failed to update project info: " + NotAnObject);
    }
    h.config := SetField(h.config, key.s, value);
    var saved := h.Save(saveOk);
    if !saved {
      return Err("Failed to update project info: " + SaveFailed);
    }
    r := Ok(value);
  }

  /** `get` after `set` reports the value written (or `''` for a falsy one) and leaves the
      other two fields as they were. */
  lemma GetAfterSet(config: Value, key: string, value: Value)
    requires config.Obj? && key in InfoKeys
    requires !Truthy(Prop(config, Section)) || Prop(config, Section).Obj?
    ensures var after := Get(SetField(config, key, value));
      var before := Get(config);
      && Field(SetField(config, key, value), key) == Or(value, Str(""))
      && (key != "projectName" ==> after.projectName == before.projectName)
      && (key != "developmentLanguage" ==> after.developmentLanguage == before.developmentLanguage)
      && (key != "basicInfo" ==> after.basicInfo == before.basicInfo)
  {
    var start := Or(Prop(config, Section), Obj(map[]));
    var written := SetField(config, key, value);
    assert Prop(written, Section) == Obj(start.fields[key := value]);
    forall k | k != key
      ensures Field(written, k) == Field(config, k)
    {
      assert Prop(Prop(written, Section), k) == Prop(start, k);
    }
  }

  /** A section that is not an object keeps no write: `set` then changes nothing that
      `get` can see. */
  lemma SetOnTextSectionIsLost(config: Value, key: string, value: Value, text: string)
    requires config.Obj? && Prop(config, Section) == Str(text) && text != ""
    ensures SetField(config, key, value) == config
  {
  }
}
