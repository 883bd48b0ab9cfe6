/** The `generate_cursorrules` tool: renders the project standards held in the server
    configuration as a Markdown rules document, and picks the file name it would be saved
    under. The environment and whether the client is Cursor are inputs. */
module CursorRules {
  import opened JsValues
  import opened Text
  import opened ApiCommon

  /** The fixed opening of every rules document: front matter, assistant guidelines and the
      tool-usage policy. */
  const Preamble: string :=
    "---\n" +
    "alwaysApply: true\n" +
    "---\n" +
    "\n" +
    "# Project Standards and Rules\n" +
    "\n" +
    "## AI Assistant Guidelines\n" +
    "You are an expert AI developer assistant. Your primary goal is to maintain and evolve this project while strictly adhering to the standards defined below.\n" +
    "\n" +
    "### Core Principles\n" +
    "1. **Always Discover**: Before making changes, use `list_directory` and `project_structure` to understand the current context.\n" +
    "2. **Follow Standards**: Consult `api_standards`, `development_standards`, and `database_standards` before implementing new logic.\n" +
    "3. **API Integrity**: Use `api_debug` to test APIs and ensure they match the `api_standards`.\n" +
    "4. **Consistency**: Match existing code patterns, naming conventions, and architectural styles.\n" +
    "\n" +
    "### MCP Tool Usage Workflow\n" +
    "- **Information**: Use `project_info` to get/set high-level project metadata.\n" +
    "- **Navigation**: Use `list_directory` (with depth) to explore the file system.\n" +
    "- **Compliance**: Use `api_standards`, `development_standards`, and `database_standards` to get specific requirements.\n" +
    "- **Testing**: Use `api_debug` for direct testing and `api_execute` for regression testing of configured APIs.\n" +
    "- **Configuration**: Use `api_config` to manage the API list and base URLs.\n" +
    "\n" +
    "## MCP-Driven Project Standards Enforcement Rule\n" +
    "\n" +
    "### 1. Core Roles and Principles\n" +
    "- **Role Positioning**: You are a Chief Architect strictly governed by the `mcp-server-project-standards` specifications.\n" +
    "- **Supreme Principle**: **Tool Data > Documentation Content > Memory Hallucinations**. It is forbidden to assume project structure, API specifications, or development standards from memory without calling MCP tools.\n" +
    "\n" +
    "### 2. Mandatory Tool Call (Tool-First Policy)\n" +
    "- **No Hard Reading of Long Documents**: When obtaining project specifications, architectural standards, or API definitions, **it is forbidden** to read full `.md` files in the `docs/` directory or long documents exceeding 100 lines.\n" +
    "- **Mandatory Initialization**: When a conversation starts or a task switches, tools provided by `mcp-server-project-standards` (e.g., `project_info`, `project_structure`, `api_standards`) must be prioritized.\n" +
    "- **Request on Demand**: Only apply to read specific file code snippets when the summary information returned by MCP tools is insufficient to support current code writing.\n" +
    "\n" +
    "### 3. Context Anti-Forgetfulness and Alignment Mechanism (Context Maintenance)\n" +
    "- **Reread After Compression (Refresh Trigger)**: When you perceive that context is compressed (Summarized), conversations exceed 10 rounds, or project background becomes blurred, **you must proactively re-call** MCP tools to refresh the latest standard data.\n" +
    "- **Confirmation Before Action**: Before executing refactoring or generating new modules, please declare: \"Aligning project specifications via MCP...\" and operate based on the results returned by the tools.\n" +
    "- **Reject Deviation**: If the user's instructions violate the `standards` returned by MCP tools, be sure to point out the conflict points and provide correction plans that comply with the specifications.\n" +
    "\n" +
    "### 4. Token Consumption and Cost Optimization (Gemini 3 Flash Optimized)\n" +
    "- **Cache-First Strategy**: Obtain short, structured results via MCP tools. This high-repetition short text can significantly trigger Gemini's Context Caching, reducing reading costs to $0.05/1M.\n" +
    "- **Incremental Output**: Full rewriting is strictly prohibited. You must only output the affected code Diff or minimized code blocks (Output cost is $3/1M, must be streamlined).\n" +
    "- **No Redundant Replies**: No need for polite language; directly output tool call results and code change suggestions.\n" +
    "\n" +
    "### 5. Automated Documentation Synchronization\n" +
    "- **State Awareness**: After modifying core logic, you must ask whether to call MCP tools to synchronously update project standard descriptions or API snapshots, ensuring \"code is the standard\".\n" +
    "\n" +
    "## Dynamic MCP Tool Call Logic\n" +
    "- **Project Identification**: Before executing any task, please first determine the current working sub-project path (e.g., `./apps/user-service`).\n" +
    "- **Parameter Binding**: When calling tools of `mcp-server-project-standards`, the `path` or `project_name` parameters **must** be automatically bound to the currently detected sub-project.\n" +
    "- **Tool Mapping Guidance**:\n" +
    "  - To understand architectural layering -> Call `project_structure`\n" +
    "  - To understand API interface standards -> Call `api_standards`\n" +
    "  - To perform compliance checks -> Call `development_standards`\n" +
    "- **Auto Alignment**: When the model finds that context is compressed or project background is lost, it must **force** a re-call of `project_info` and specify the current sub-project path to ensure that standards do not cross-project contaminate.\n" +
    "\n" +
    "## Context Management and Anti-Forgetfulness Mechanism\n" +
    "- **Reread After Compression**: Whenever you (AI) perceive that context is compressed, conversation rounds are too many (e.g., more than 10), or \"Context Drift\" begins to appear, **you must proactively re-call** core tools of `mcp-server-project-standards` (e.g., `project_info`).\n" +
    "- **Synchronization Declaration**: Before executing the first code generation after compression, please briefly declare at the beginning of the reply: \"Project specification tools re-aligned\" to ensure logical consistency.\n" +
    "- **Mandatory Alignment**: Any time code is generated, if you are uncertain about the current API standards or structural standards due to context compression, you must first call tools to query; writing based on memory (hallucination) is strictly prohibited.\n" +
    "\n"

  /** `process.env.PROJECT_PATH || (global.isCursor ? '.' : null)` */
  function ProjectPath(env: Env, isCursor: bool): (r: Option<string>)
    ensures EnvSet(env, "PROJECT_PATH") ==> r == Some(env["PROJECT_PATH"])
    ensures !EnvSet(env, "PROJECT_PATH") ==> (r.Some? <==> isCursor)
    ensures !EnvSet(env, "PROJECT_PATH") && isCursor ==> r == Some(".")
    ensures r.Some? ==> r.value != ""
  {
    if EnvSet(env, "PROJECT_PATH") then Some(env["PROJECT_PATH"])
    else if isCursor then Some(".")
    else None
  }

  /** The file the rules go to, relative to the project path: a rule file named after
      TOOL_PREFIX (default `project`) under `.cursor/rules` for Cursor, `PROJECT_RULES.md`
      for any other client. */
  function FileName(env: Env, isCursor: bool): (name: string)
    ensures isCursor ==>
      && StartsWith(name, ".cursor/rules/") && EndsWith(name, "/RULE.md")
      && |name| == |".cursor/rules/"| + |EnvOr(env, "TOOL_PREFIX", "project")| + |"/RULE.md"|
      && name[|".cursor/rules/"|..|name| - |"/RULE.md"|] == EnvOr(env, "TOOL_PREFIX", "project")
    ensures !isCursor ==> name == "PROJECT_RULES.md"
  {
    if isCursor then ".cursor/rules/" + EnvOr(env, "TOOL_PREFIX", "project") + "/RULE.md"
    else "PROJECT_RULES.md"
  }

  // ---------------------------------------------------------------------------
  // Sections

  /** `if (v) rules += `- **name**: ${v}\n``, with the value in backquotes when `quoted`. */
  function FieldLine(name: string, v: Value, quoted: bool): (s: string)
    ensures s == "" <==> !Truthy(v)
    ensures Truthy(v) ==> StartsWith(s, "- **" + name + "**: ") && EndsWith(s, (if quoted then "`" else "") + "\n")
  {
    var mark := if quoted then "`" else "";
    if Truthy(v) then "- **" + name + "**: " + mark + JsString(v) + mark + "\n" else ""
  }

  /** `v && v.length > 0`, then `v.forEach(...)`: the elements of a non-empty array. An
      empty array, and a value without a positive length, give no section; a non-empty
      text, or an object whose `length` is a positive number, has a length but no
      `forEach`. */
  function ListItems(v: Value): (r: Result<Option<seq<Value>>, string>)
    ensures r.Ok? && r.value.Some? <==> v.Arr? && |v.items| > 0
    ensures r.Ok? && r.value.Some? ==> r.value.value == v.items
    ensures v.Arr? || !Truthy(v) ==> r.Ok?
    ensures r.Err? <==> (v.Str? && |v.s| > 0) || (v.Obj? && Prop(v, "length").Num? && Prop(v, "length").n > 0)
  {
    match v
    case Arr(items) => if |items| > 0 then Ok(Some(items)) else Ok(None)
    case Str(s) => if |s| > 0 then Err("forEach is not a function") else Ok(None)
    case Obj(_) =>
      var n := Prop(v, "length");
      if n.Num? && n.n > 0 then Err("forEach is not a function") else Ok(None)
    case _ => Ok(None)
  }

  /** `- ${x}` */
  function Bullet(x: Value): string {
    "- " + JsString(x) + "\n"
  }

  /** One bullet per element, in order. */
  function Bullets(items: seq<Value>): string
    decreases |items|
  {
    if items == [] then "" else Bullets(items[..|items| - 1]) + Bullet(items[|items| - 1])
  }

  /** `- `${item.path}`: ${item.description}` */
  function StructureLine(item: Value): string {
    "- `" + JsString(Prop(item, "path")) + "`: " + JsString(Prop(item, "description")) + "\n"
  }

  /** One line per structure item, in order; a null or undefined item has no path to
      read. */
  function StructureLines(items: seq<Value>): Result<string, string>
    decreases |items|
  {
    if items == [] then Ok("")
    else
      var prefix := items[..|items| - 1];
      var last := items[|items| - 1];
      match StructureLines(prefix)
      case Err(e) => Err(e)
      case Ok(s) => if IsNullish(last) then Err("Cannot read properties of " + JsString(last) + " (reading 'path')")
                    else Ok(s + StructureLine(last))
  }

  /** `## Project Information`, with a line for each truthy field. */
  function InfoSection(config: Value): string {
    var info := Prop(config, "project_info");
    if !Truthy(info) then ""
    else
      "## Project Information\n"
      + FieldLine("Project Name", Prop(info, "projectName"), false)
      + FieldLine("Development Language", Prop(info, "developmentLanguage"), false)
      + FieldLine("Basic Info", Prop(info, "basicInfo"), false)
      + "\n"
  }

  /** `## Project Structure`, present only for a non-empty list. */
  function StructureSection(config: Value): Result<string, string> {
    match ListItems(Prop(config, "project_structure"))
    case Err(e) => Err(e)
    case Ok(None) => Ok("")
    case Ok(Some(items)) =>
      match StructureLines(items)
      case Err(e) => Err(e)
      case Ok(lines) => Ok("## Project Structure\n" + lines + "\n")
  }

  /** The heading of the API section and a line for each truthy scalar field. */
  function ApiHead(api: Value): string {
    "## API Standards\n"
    + FieldLine("Interface Type", Prop(api, "interfaceType"), false)
    + FieldLine("Success Structure", Prop(api, "successStructure"), true)
    + FieldLine("Error Structure", Prop(api, "errorStructure"), true)
  }

  /** `## API Standards`: a line for each truthy scalar field, then the requirements when
      there are any. */
  function ApiSection(config: Value): Result<string, string> {
    var api := Prop(config, "api_standards");
    if !Truthy(api) then Ok("")
    else
      var head := ApiHead(api);
      match ListItems(Prop(api, "requirements"))
      case Err(e) => Err(e)
      case Ok(None) => Ok(head + "\n")
      case Ok(Some(items)) => Ok(head + "### API Requirements\n" + Bullets(items) + "\n")
  }

  /** A standards list section, present only for a non-empty list. */
  function ListSection(config: Value, key: string, title: string): Result<string, string> {
    match ListItems(Prop(config, key))
    case Err(e) => Err(e)
    case Ok(None) => Ok("")
    case Ok(Some(items)) => Ok("## " + title + "\n" + Bullets(items) + "\n")
  }

  /** `## System Environment` with the project path. */
  function EnvironmentSection(projectPath: string): string {
    "## System Environment\n- **Project Path**: `" + projectPath + "`\n\n"
  }

  /** The whole document: the preamble, then project information, structure, API
      standards, development standards and database standards as present, then the
      environment. */
  function Render(config: Value, projectPath: string): Result<string, string> {
    Document(Preamble, config, projectPath)
  }

  /** The same document after any opening text. */
  function Document(opening: string, config: Value, projectPath: string): Result<string, string> {
    match StructureSection(config)
    case Err(e) => Err(e)
    case Ok(structure) =>
      match ApiSection(config)
      case Err(e) => Err(e)
      case Ok(api) =>
        match ListSection(config, "development_standards", "Development Standards")
        case Err(e) => Err(e)
        case Ok(development) =>
          match ListSection(config, "database_standards", "Database Standards")
          case Err(e) => Err(e)
          case Ok(database) =>
            Ok(opening + InfoSection(config) + structure + api + development + database
               + EnvironmentSection(projectPath))
  }

  // ---------------------------------------------------------------------------
  // The generator

  /** What the tool returns: the document and the file name it suggests. */
  datatype Generated = Generated(content: string, fileName: string)

  /** The structure lines, one `+=` per item; a null or undefined item stops the loop. */
  method StructureText(items: seq<Value>) returns (r: Result<string, string>)
    ensures r == StructureLines(items)
  {
    var text := "";
    var i := 0;
    while i < |items|
      invariant 0 <= i <= |items|
      invariant StructureLines(items[..i]) == Ok(text)
    {
      assert items[..i + 1][..i] == items[..i];
      if IsNullish(items[i]) {
        StructureLinesPrefix(items, i + 1);
        return Err("Cannot read properties of " + JsString(items[i]) + " (reading 'path')");
      }
      text := text + StructureLine(items[i]);
      i := i + 1;
    }
    assert items[..i] == items;
    r := Ok(text);
  }

  /** An error in the first items is the error of the whole list. */
  lemma {:induction false} StructureLinesPrefix(items: seq<Value>, n: int)
    requires 0 <= n <= |items| && StructureLines(items[..n]).Err?
    ensures StructureLines(items) == StructureLines(items[..n])
    decreases |items| - n
  {
    if n < |items| {
      assert items[..n + 1][..n] == items[..n];
      StructureLinesPrefix(items, n + 1);
    } else {
      assert items[..n] == items;
    }
  }

  /** The bullets, one `+=` per element. */
  method BulletText(items: seq<Value>) returns (text: string)
    ensures text == Bullets(items)
  {
    text := "";
    var i := 0;
    while i < |items|
      invariant 0 <= i <= |items|
      invariant text == Bullets(items[..i])
    {
      assert items[..i + 1][..i] == items[..i];
      text := text + Bullet(items[i]);
      i := i + 1;
    }
    assert items[..i] == items;
  }

  /** A standards list section. */
  method ListSectionText(config: Value, key: string, title: string) returns (r: Result<string, string>)
    ensures r == ListSection(config, key, title)
  {
    var items := ListItems(Prop(config, key));
    if items.Err? {
      return Err(items.error);
    }
    if items.value.None? {
      return Ok("");
    }
    var bullets := BulletText(items.value.value);
    r := Ok("## " + title + "\n" + bullets + "\n");
  }

  /** The structure section. */
  method StructureSectionText(config: Value) returns (r: Result<string, string>)
    ensures r == StructureSection(config)
  {
    var structure := ListItems(Prop(config, "project_structure"));
    if structure.Err? {
      return Err(structure.error);
    }
    if structure.value.None? {
      return Ok("");
    }
    var lines := StructureText(structure.value.value);
    if lines.Err? {
      return Err(lines.error);
    }
    r := Ok("## Project Structure\n" + lines.value + "\n");
  }

  /** The API standards section. */
  method ApiSectionText(config: Value) returns (r: Result<string, string>)
    ensures r == ApiSection(config)
  {
    var api := Prop(config, "api_standards");
    if !Truthy(api) {
      return Ok("");
    }
    var text := ApiHead(api);
    var requirements := ListItems(Prop(api, "requirements"));
    if requirements.Err? {
      return Err(requirements.error);
    }
    if requirements.value.Some? {
      var bullets := BulletText(requirements.value.value);
      text := text + "### API Requirements\n" + bullets;
    }
    r := Ok(text + "\n");
  }

  /** The document is the sections in order, and fails when any section fails. */
  lemma DocumentParts(opening: string, config: Value, projectPath: string)
    ensures var development := ListSection(config, "development_standards", "Development Standards");
      var database := ListSection(config, "database_standards", "Database Standards");
      && (Document(opening, config, projectPath).Ok? <==>
            StructureSection(config).Ok? && ApiSection(config).Ok? && development.Ok? && database.Ok?)
      && (Document(opening, config, projectPath).Ok? ==>
            Document(opening, config, projectPath).value
            == opening + InfoSection(config) + StructureSection(config).value + ApiSection(config).value
               + development.value + database.value + EnvironmentSection(projectPath))
  {
  }

  /** The document built with `+=`, section by section. */
  method Compose(opening: string, config: Value, projectPath: string) returns (r: Result<string, string>)
    ensures r == Document(opening, config, projectPath)
  {
    var rules := opening;
    rules := rules + InfoSection(config);
    var structure := StructureSectionText(config);
    if structure.Err? {
      return Err(structure.error);
    }
    rules := rules + structure.value;
    var api := ApiSectionText(config);
    if api.Err? {
      return Err(api.error);
    }
    rules := rules + api.value;
    var development := ListSectionText(config, "development_standards", "Development Standards");
    if development.Err? {
      return Err(development.error);
    }
    rules := rules + development.value;
    var database := ListSectionText(config, "database_standards", "Database Standards");
    if database.Err? {
      return Err(database.error);
    }
    rules := rules + database.value;
    rules := rules + EnvironmentSection(projectPath);
    r := Ok(rules);
  }

  /** `generate_cursorrules`. Without a project path (PROJECT_PATH unset and a client other
      than Cursor) or without a configuration it fails; otherwise it returns the rendered
      document and the file name. Writing the file when asked is left out. */
  method Generate(config: Value, env: Env, isCursor: bool) returns (r: Result<Generated, string>)
    ensures ProjectPath(env, isCursor).None? || !Truthy(config) ==> r.Err?
    ensures r.Ok? <==> ProjectPath(env, isCursor).Some? && Truthy(config) && Render(config, ProjectPath(env, isCursor).value).Ok?
    ensures r.Ok? ==> r.value == Generated(Render(config, ProjectPath(env, isCursor).value).value, FileName(env, isCursor))
  {
    var projectPath := ProjectPath(env, isCursor);
    if projectPath.None? {
      return Err("Rules generation is disabled: PROJECT_PATH is not set and client is not Cursor.");
    }
    if !Truthy(config) {
      return Err("Configuration not found");
    }
    var rules := Compose(Preamble, config, projectPath.value);
    if rules.Err? {
      return Err(rules.error);
    }
    var fileName := FileName(env, isCursor);
    r := Ok(Generated(rules.value, fileName));
  }

  // ---------------------------------------------------------------------------
  // Properties

  /** The structure lines exist exactly when no item is null or undefined. */
  lemma {:induction false} StructureLinesOk(items: seq<Value>)
    ensures StructureLines(items).Ok? <==> forall i :: 0 <= i < |items| ==> !IsNullish(items[i])
    decreases |items|
  {
    if items != [] {
      var prefix := items[..|items| - 1];
      StructureLinesOk(prefix);
      assert forall i :: 0 <= i < |prefix| ==> prefix[i] == items[i];
    }
  }

  /** Concatenation regrouped. */
  lemma Regroup(a: string, b: string, c: string)
    ensures a + b + c == a + (b + c)
  {
  }

  /** The bullets of two lists are the bullets of the first followed by those of the
      second: one line per element, in order. */
  lemma {:induction false} BulletsAppend(a: seq<Value>, b: seq<Value>)
    ensures Bullets(a + b) == Bullets(a) + Bullets(b)
    decreases |b|
  {
    if b == [] {
      assert a + b == a;
    } else {
      var b' := b[..|b| - 1];
      var last := b[|b| - 1];
      assert (a + b)[..|a + b| - 1] == a + b';
      assert (a + b)[|a + b| - 1] == last;
      BulletsAppend(a, b');
      Regroup(Bullets(a), Bullets(b'), Bullet(last));
    }
  }

  /** A list of one element has one bullet. */
  lemma BulletsSingle(x: Value)
    ensures Bullets([x]) == "- " + JsString(x) + "\n"
  {
    assert [x][..0] == [];
  }

  /** The same for structure items, when both parts are free of null items. */
  lemma {:induction false} StructureLinesAppend(a: seq<Value>, b: seq<Value>)
    requires StructureLines(a).Ok? && StructureLines(b).Ok?
    ensures StructureLines(a + b).Ok?
    ensures StructureLines(a + b).value == StructureLines(a).value + StructureLines(b).value
    decreases |b|
  {
    if b == [] {
      assert a + b == a;
    } else {
      var ab := a + b;
      var b' := b[..|b| - 1];
      var last := b[|b| - 1];
      assert ab[..|ab| - 1] == a + b';
      assert ab[|ab| - 1] == last;
      var lines := StructureLines(b');
      assert lines.Ok? && StructureLines(b).value == lines.value + StructureLine(last);
      StructureLinesAppend(a, b');
      Regroup(StructureLines(a).value, lines.value, StructureLine(last));
    }
  }

  /** Text appended after a prefix keeps the prefix; the appended text is a suffix. */
  lemma Extended(s: string, prefix: string, t: string)
    requires StartsWith(s, prefix)
    ensures StartsWith(s + t, prefix) && EndsWith(s + t, t)
  {
    assert (s + t)[..|prefix|] == s[..|prefix|];
    assert (s + t)[|s|..] == t;
  }

  /** The document opens with the given text (the fixed opening, for a rules document) and
      closes with the environment section. */
  lemma DocumentFrame(opening: string, config: Value, projectPath: string)
    requires Document(opening, config, projectPath).Ok?
    ensures var d := Document(opening, config, projectPath).value;
      StartsWith(d, opening) && EndsWith(d, EnvironmentSection(projectPath))
  {
    DocumentParts(opening, config, projectPath);
    var info, structure, api := InfoSection(config), StructureSection(config).value, ApiSection(config).value;
    var development := ListSection(config, "development_standards", "Development Standards").value;
    var database := ListSection(config, "database_standards", "Database Standards").value;
    assert opening[..|opening|] == opening;
    Extended(opening, opening, info);
    Extended(opening + info, opening, structure);
    Extended(opening + info + structure, opening, api);
    Extended(opening + info + structure + api, opening, development);
    Extended(opening + info + structure + api + development, opening, database);
    Extended(opening + info + structure + api + development + database, opening, EnvironmentSection(projectPath));
  }

  /** A configuration whose properties are all missing or falsy gives the opening and the
      environment only. */
  lemma EmptySectionsRenderNothing(opening: string, config: Value, projectPath: string)
    requires config.Obj?
    requires forall k :: k in config.fields ==> !Truthy(config.fields[k])
    ensures Document(opening, config, projectPath) == Ok(opening + EnvironmentSection(projectPath))
  {
    DocumentParts(opening, config, projectPath);
    assert InfoSection(config) == "";
    assert StructureSection(config) == Ok("");
    assert ApiSection(config) == Ok("");
    assert ListSection(config, "development_standards", "Development Standards") == Ok("");
    assert ListSection(config, "database_standards", "Database Standards") == Ok("");
    assert opening + "" + "" + "" + "" + "" == opening;
  }

  /** A non-empty text stored as the project structure has a length but no `forEach`: no
      document is produced. */
  lemma TextStructureFails(opening: string, config: Value, projectPath: string, text: string)
    requires config.Obj? && Prop(config, "project_structure") == Str(text) && text != ""
    ensures Document(opening, config, projectPath).Err?
  {
    assert StructureSection(config).Err?;
    DocumentParts(opening, config, projectPath);
  }
}
