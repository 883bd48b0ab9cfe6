/** The two standard-list tools, `development_standards` and `database_standards`: the
    same get / set / delete logic over a list of standards kept under one property of the
    server configuration, with fixed defaults for `get`. */
module StandardLists {
  import opened JsValues
  import opened ServerConfig

  /** Which of the two tools. */
  datatype Kind = Development | Database

  /** The configuration property the tool owns. */
  function Field(kind: Kind): string {
    match kind
    case Development => "development_standards"
    case Database => "database_standards"
  }

  function Label(kind: Kind): string {
    match kind
    case Development => "development standards"
    case Database => "database standards"
  }

  const Actions: seq<string> := ["get", "set", "delete"]

  const DevelopmentDefaults: seq<string> := [
      "Use 2 spaces for indentation",
      "Use single quotes instead of double quotes",
      "Use camelCase for functions and variables",
      "Use PascalCase for class names",
      "Use UPPER_SNAKE_CASE for constants",
      "Use kebab-case for file names",
      "Keep lines under 100 characters",
      "Keep functions under 50 lines",
      "Keep files under 300 lines",
      "Use JSDoc format for code comments",
      "Use OpenAPI/Swagger for API documentation",
      "Include README.md in project root",
      "Include CHANGELOG.md in project root",
      "Separate production and development dependencies",
      "Use environment variables for sensitive information",
      "Validate input and output data",
      "Prevent XSS attacks",
      "Enable CORS for cross-origin support",
      "Use Redis or memory cache",
      "Enable Gzip or Brotli compression",
      "Monitor application metrics",
      "Use structured logging"
    ]

  const DatabaseDefaults: seq<string> := [
      "Use meaningful table names with descriptive prefixes",
      "Use snake_case for table and column names",
      "Use singular names for table names",
      "Use plural names for junction tables",
      "Include created_at and updated_at timestamps",
      "Use UUID for primary keys when appropriate",
      "Create indexes for frequently queried columns",
      "Use foreign key constraints for data integrity",
      "Normalize database structure to reduce redundancy",
      "Use appropriate data types for each column",
      "Set NOT NULL constraints where data is required",
      "Use CHECK constraints for data validation",
      "Create unique constraints for business rules",
      "Use database transactions for data consistency",
      "Implement soft deletes instead of hard deletes",
      "Use database views for complex queries",
      "Create stored procedures for complex business logic",
      "Use database triggers sparingly and document them",
      "Implement database backup and recovery procedures",
      "Monitor database performance and optimize queries",
      "Use connection pooling for better performance",
      "Implement database security best practices",
      "Use environment-specific database configurations",
      "Document database schema and relationships",
      "Version control database migrations",
      "Test database changes in development first",
      "Use database monitoring and alerting tools",
      "Implement database replication for high availability",
      "Use database partitioning for large tables",
      "Regularly analyze and optimize database performance"
    ]

  function Defaults(kind: Kind): (d: seq<Value>)
    ensures kind.Development? ==> |d| == |DevelopmentDefaults| && forall i :: 0 <= i < |d| ==> d[i] == Str(DevelopmentDefaults[i])
    ensures kind.Database? ==> |d| == |DatabaseDefaults| && forall i :: 0 <= i < |d| ==> d[i] == Str(DatabaseDefaults[i])
  {
    var names := if kind.Development? then DevelopmentDefaults else DatabaseDefaults;
    seq(|names|, i requires 0 <= i < |names| => Str(names[i]))
  }

  /** `get`: the stored list when the property is truthy (an empty array is), otherwise
      the fixed defaults: 22 development standards or 30 database standards. */
  function Get(kind: Kind, config: Value): (r: Value)
    ensures Truthy(Prop(config, Field(kind))) ==> r == Prop(config, Field(kind))
    ensures !Truthy(Prop(config, Field(kind))) ==>
      && r.Arr? && r.items == Defaults(kind)
      && |r.items| == (if kind.Development? then 22 else 30)
  {
    Or(Prop(config, Field(kind)), Arr(Defaults(kind)))
  }

  /** The list `set` writes: `standards` itself under `forceOverwrite`, otherwise the set
      union of the current list (`[]` when the property is falsy) followed by `standards`;
      a current value that cannot be spread into an array is an error. */
  function SetList(current: Value, standards: seq<Value>, forceOverwrite: Value): (r: Result<seq<Value>, string>)
    ensures Truthy(forceOverwrite) ==> r == Ok(standards)
    ensures !Truthy(forceOverwrite) && current.Arr? ==> r == Ok(Distinct(current.items + standards))
    ensures !Truthy(forceOverwrite) && !Truthy(current) ==> r == Ok(Distinct(standards))
    ensures !Truthy(forceOverwrite) && Truthy(current) && !current.Arr? && !current.Str? ==> r.Err?
  {
    if Truthy(forceOverwrite) then Ok(standards)
    else match Spread(Or(current, Arr([])))
      case Err(e) => Err(e)
      case Ok(existing) =>
        assert !Truthy(current) ==> existing + standards == standards;
        Ok(Distinct(existing + standards))
  }

  /** `set`. A `standards` value that is not an array, or a configuration that is not an
      object, is rejected with nothing changed. Otherwise the property is first
      initialised to `[]` in memory, then replaced by the new list, and the result (the new
      length) is returned only when the save works. */
  method Set(kind: Kind, h: ConfigHandle, standards: Value, forceOverwrite: Value, saveOk: bool)
    returns (r: Result<nat, string>)
    modifies h
    ensures !standards.Arr? || !old(h.config).Obj? ==> r.Err? && unchanged(h)
    ensures standards.Arr? && old(h.config).Obj? ==>
      var k := Field(kind);
      var prepared := WithDefault(old(h.config), k, Arr([]));
      var list := SetList(Prop(prepared, k), standards.items, forceOverwrite);
      && (r.Ok? <==> list.Ok? && saveOk)
      && h.config == (if list.Ok? then PutProp(prepared, k, Arr(list.value)) else prepared)
      && h.disk == (if list.Ok? && saveOk then h.config else old(h.disk))
      && (r.Ok? ==> r.value == |list.value|)
  {
    if !standards.Arr? {
      return Err("Standards must be an array for set action");
    }
    if !h.config.Obj? {
      return Err("Failed to update " + Label(kind) + ": " + NotAnObject);
    }
    var k := Field(kind);
    h.config := WithDefault(h.config, k, Arr([]));
    var newList: seq<Value>;
    if !Truthy(forceOverwrite) {
      var existing := Spread(Prop(h.config, k));
      if existing.Err? {
        return Err("Failed to update " + Label(kind) + ": " + existing.error);
      }
      newList := Distinct(existing.value + standards.items);
    } else {
      newList := standards.items;
    }
    h.config := PutProp(h.config, k, Arr(newList));
    var saved := h.Save(saveOk);
    if !saved {
      return Err("Failed to update " + Label(kind) + ": " + SaveFailed);
    }
    r := Ok(|newList|);
  }

  /** `delete`. A falsy `standard`, or a configuration that is not an object, is rejected
      with nothing changed. Otherwise the property is initialised to `[]` in memory and the
      first element `===` to `standard` is spliced out; a missing one is an error. The
      deleted standard is returned only when the save works. */
  method Delete(kind: Kind, h: ConfigHandle, standard: Value, saveOk: bool)
    returns (r: Result<Value, string>)
    modifies h
    ensures !Truthy(standard) || !old(h.config).Obj? ==> r.Err? && unchanged(h)
    ensures Truthy(standard) && old(h.config).Obj? ==>
      var k := Field(kind);
      var prepared := WithDefault(old(h.config), k, Arr([]));
      var rest := RemoveFirst(Prop(prepared, k), standard);
      && (r.Ok? <==> rest.Ok? && saveOk)
      && h.config == (if rest.Ok? then PutProp(prepared, k, Arr(rest.value)) else prepared)
      && h.disk == (if rest.Ok? && saveOk then h.config else old(h.disk))
      && (r.Ok? ==> r.value == standard)
  {
    if !Truthy(standard) {
      return Err("Missing standard parameter for delete action");
    }
    if !h.config.Obj? {
      return Err("Failed to delete standard: " + NotAnObject);
    }
    var k := Field(kind);
    h.config := WithDefault(h.config, k, Arr([]));
    var rest := RemoveFirst(Prop(h.config, k), standard);
    if rest.Err? {
      return Err("Failed to delete standard: Standard '" + JsString(standard) + "' not found");
    }
    h.config := PutProp(h.config, k, Arr(rest.value));
    var saved := h.Save(saveOk);
    if !saved {
      return Err("Failed to delete standard: " + SaveFailed);
    }
    r := Ok(standard);
  }

  /** After a write, `get` returns what was written, even an empty list: `[]` is truthy,
      so deleting the last standard does not bring the defaults back. */
  lemma GetAfterWrite(kind: Kind, config: Value, list: seq<Value>)
    requires config.Obj?
    ensures Get(kind, PutProp(config, Field(kind), Arr(list))) == Arr(list)
  {
  }

  /** A merging `set` over a stored list without repeats keeps that list in front and adds
      the new standards not already present, in their order. */
  lemma MergeKeepsStoredList(stored: seq<Value>, standards: seq<Value>, forceOverwrite: Value)
    requires NoRepeats(stored) && !Truthy(forceOverwrite)
    ensures var r := SetList(Arr(stored), standards, forceOverwrite);
      && r.Ok? && |stored| <= |r.value| && r.value[..|stored|] == stored
      && NoRepeats(r.value)
      && forall x :: x in r.value <==> x in stored || x in standards
  {
    UnionKeepsExisting(stored, standards);
  }

  /** Sending the same text standards twice without `forceOverwrite` leaves the list as
      the first call left it. */
  lemma MergeTwiceIsMergeOnce(stored: Value, standards: seq<Value>)
    requires forall x :: x in standards ==> IsPrimitive(x)
    requires SetList(stored, standards, Bool(false)).Ok?
    ensures var once := SetList(stored, standards, Bool(false)).value;
      SetList(Arr(once), standards, Bool(false)) == Ok(once)
  {
    var existing := Spread(Or(stored, Arr([]))).value;
    UnionIdempotent(existing, standards);
  }
}
