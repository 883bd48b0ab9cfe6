/** The `update_config` tool: a shallow merge of a new configuration over the current one,
    handed to the save function. */
module UpdateConfig {
  import opened JsValues
  import opened ServerConfig

  /** `{...currentConfig, ...config}`: every property of either, the new one winning. */
  function Merge(current: Value, config: Value): (merged: Object)
    ensures merged.Keys == SpreadProps(current).Keys + SpreadProps(config).Keys
    ensures forall k :: k in SpreadProps(config) ==> merged[k] == SpreadProps(config)[k]
    ensures forall k :: k in SpreadProps(current) && k !in SpreadProps(config) ==> merged[k] == SpreadProps(current)[k]
  {
    SpreadProps(current) + SpreadProps(config)
  }

  /** `update_config`. A missing config, or one that is not of type object, is rejected.
      Otherwise the merged object is saved and, when the save works, returned; it is the
      very object that was saved. */
  function Update(current: Value, config: Value, save: Value -> bool): (r: Result<Value, string>)
    ensures !Truthy(config) || !IsTypeofObject(config) ==> r.Err?
    ensures r.Ok? <==> Truthy(config) && IsTypeofObject(config) && save(Obj(Merge(current, config)))
    ensures r.Ok? ==> r.value == Obj(Merge(current, config))
  {
    if !Truthy(config) || !IsTypeofObject(config) then Err("Invalid config parameter")
    else
      var updated := Obj(Merge(current, config));
      if !save(updated) then Err("Failed to update configuration: " + SaveFailed)
      else Ok(updated)
  }

  /** Applying the same update twice gives what applying it once gave. */
  lemma UpdateTwice(current: Value, config: Value, save: Value -> bool)
    requires Update(current, config, save).Ok?
    ensures var once := Update(current, config, save).value;
      Update(once, config, save) == Ok(once)
  {
    var once := Obj(Merge(current, config));
    assert Merge(once, config) == Merge(current, config);
  }

  /** An update with an empty object saves the current properties unchanged. */
  lemma EmptyUpdateKeepsCurrent(current: Value)
    requires current.Obj?
    ensures Merge(current, Obj(map[])) == current.fields
  {
  }
}
