# API debugging and project-standards tools, modelled in Dafny

This project models two groups of tools from a tool server.

The first group works on a persisted catalog of HTTP API definitions (`api.json`):
- `api_config` edits the catalog: it sets it, updates the base URL and the shared headers, deletes a header, adds an entry, searches and lists.
- `api_debug` has its own `set`, deletes an entry by index, executes an entry and writes the outcome back onto it, and searches.
- `api_execute` runs an entry with optional overrides after checking its method against an allow-list.
- `api_login` sends the configured login request and stores `Authorization: Bearer <token>` among the shared headers.
- `api_common` holds the helpers they share: the configuration directory, the allow-list, the login settings and content-type inference.

The second group edits the project standards kept in the server configuration (`config.json`):
- `api_standards`, `development_standards`, `database_standards`, `project_structure` and `project_info`;
- `update_config`, `create_custom_tool`;
- `generate_cursorrules`, which renders all of these as a Markdown rules document.

## How the model is built

**Values.** JavaScript values are the datatype `JsValues.Value`. Numbers are integers. Objects are maps from property name to value. Truthiness, `||`, property reads, object spread and string conversion are written out once.

**The catalog.** It is the class `ApiDocument.ApiStore`, with fields `baseUrl`, `headers` and `list`. Each catalog action computes on a loaded copy. It assigns the fields only when the save succeeds; `saveOk` is the outcome of the save. De-duplication by `url` goes through a model of the JavaScript `Map` (`OrderedMaps`). It is proved against reference definitions: first-occurrence order, and the last entry carrying each url.

**The server configuration.** It is the class `ServerConfig.ConfigHandle`, with two fields:
- `config` is the object the server hands to every tool, which edits it in place;
- `disk` is the last document written.

The contracts say what each action leaves in memory and what on disk. In particular, an initialisation such as `if (!config.x) config.x = ...` stays in memory even when the action then fails.

**Inputs.** These are parameters of the model:
- the network outcome of `fetch` (`Http.FetchOutcome`);
- the environment (`ApiCommon.Env`);
- the clock (timestamps and ids as strings);
- the JSON and URL encoders (`JsValues.Codec`);
- whether a save works.

**Loops.** The source's loops are methods with loop invariants, proved equal to the functions that specify them:
- the `Map` filling, the token search, the structure upsert;
- the `URLSearchParams` appends;
- the `+=` rendering of the rules document.

## Model

| member | source | states |
|---|---|---|
| ApiCommon.ConfigDir | src/utils/api_common.js:5-16 | CONFIG_DIR wins when set. Otherwise the directory is exactly `./.setting.` followed by TOOL_PREFIX when TOOL_PREFIX is set, and `./.setting` when it is not. It is never empty. |
| ApiCommon.NormalizeMethod | src/utils/api_common.js:65 | The piece is the trimmed, upper-cased text. It has no lower-case letter and no whitespace at either end, and it gains no comma. |
| ApiCommon.AllowedMethods | src/utils/api_common.js:63-66 | One entry per comma-separated piece of API_DEBUG_ALLOWED_METHODS (default `GET`), each piece normalized, in order. |
| ApiCommon.AllowedMethodsDefault | src/utils/api_common.js:64 | Without the variable, the allow-list is exactly `["GET"]`. |
| ApiCommon.AllowedMethodsNormalized | src/utils/api_common.js:63-66 | No allowed method holds a lower-case letter or a comma. |
| ApiCommon.LoginUrl | src/utils/api_common.js:69-71 | The login URL is API_DEBUG_LOGIN_URL when set, `/api/login` otherwise. It is never empty. |
| ApiCommon.LoginMethod | src/utils/api_common.js:74-76 | The login method is the upper-cased API_DEBUG_LOGIN_METHOD when set, POST by default. It has no lower-case letter and is as long as the configured text. |
| ApiCommon.LoginBody | src/utils/api_common.js:79-94 | Text not starting with `{` is kept as text. Text starting with `{` is the parsed JSON when it parses, and the raw text otherwise. |
| ApiCommon.DetectContentType | src/utils/api_common.js:102-139 | The result is one of the five MIME types. A non-string body is JSON. |
| ApiCommon.DetectContentTypeCases | src/utils/api_common.js:102-139 | Both directions, for each of the five answers: XML exactly when the trimmed text is in angle brackets; HTML exactly when it is not XML and mentions `<html` or `<!DOCTYPE html`; JSON exactly when it is neither of those and parses (or is not text); form encoding exactly when none of those holds and it has `=` and `&`; plain text otherwise. |
| ApiCommon.XmlExample | src/utils/api_common.js:110-112 | `<a/>` is XML whatever the JSON parser says. |
| ApiCommon.NoMarkupIsPlainText | src/utils/api_common.js:133-138 | Text with no `<` and no `=` that is not JSON is plain text, with or without line breaks. |
| Text.Trim | src/utils/api_common.js:107 | The trimmed text starts and ends with non-whitespace. |
| Text.TrimIsSlice | src/utils/api_common.js:107 | The trimmed text is a slice of the input with only whitespace cut off on each side. |
| Text.Lower | src/utils/api_config.js:229-230 | Same length, each character mapped to lower case. |
| Text.Upper | src/utils/api_common.js:75 | Same length, each character mapped to upper case. |
| Text.UpperHasNoLower | src/utils/api_common.js:65 | An upper-cased text holds no lower-case ASCII letter. |
| Text.IndexOfChar | src/utils/api_common.js:65 | -1 exactly when the character is absent. Otherwise it is the position of its first occurrence. |
| Text.Split | src/utils/api_common.js:65 | At least one piece, and no piece contains the separator. |
| Text.JoinSplit | src/utils/api_common.js:65 | Splitting loses nothing: joining the pieces with the separator gives back the input. |
| Http.HeadersObject | src/utils/api_debug.js:320 | The response headers object has the same names, with each value as text. |
| OrderedMaps.Empty | src/utils/api_config.js:52 | A new Map has no keys and no entries. |
| OrderedMaps.Put | src/utils/api_config.js:55-70 | `set` replaces the value. A new key goes to the end of the iteration order; an existing key keeps its place. |
| OrderedMaps.Values | src/utils/api_config.js:73 | The values, one per key, in iteration order. |
| ApiDocument.ApiStore.Default | src/utils/api_common.js:35-42 | The document used when none is stored: empty base URL, JSON Content-Type and Accept headers, empty list. |
| ApiDocument.ApiStore.Stored | src/utils/api_common.js:25-31 | A stored document, loaded as it is. |
| ApiDocument.CollectInto | src/utils/api_config.js:55-70 | Filling the Map keeps it well formed: each key listed once, exactly the keys with an entry. |
| ApiDocument.FillUrlMap | src/utils/api_config.js:55-61 | The `forEach` loop fills the Map as `CollectInto` says. |
| ApiDocument.CollectConcat | src/utils/api_config.js:52-73 | Filling with one list and then another is filling with their concatenation. |
| ApiDocument.LastWithUrl | src/utils/api_config.js:52-73 | Reference definition: the entry found carries the url and belongs to the list; when none is found, no entry carries the url. |
| ApiDocument.Urls | src/utils/api_config.js:52-73 | The urls of a list, position by position. |
| ApiDocument.CollectMatchesReference | src/utils/api_config.js:52-73 | The Map's keys are the distinct truthy urls in first-occurrence order. A url has an entry exactly when it is truthy and carried by some item. That entry is the last item carrying it. |
| ApiDocument.DedupElement | src/utils/api_config.js:52-73 | Element i of the de-duplicated list is the last entry carrying the i-th distinct url. |
| ApiDocument.DedupHasUniqueUrls | src/utils/api_config.js:52-73 | After de-duplication every entry has a url, no two share one, and every entry comes from the input. |
| ApiDocument.DedupKeepsEveryUrl | src/utils/api_config.js:52-73 | Every truthy url of the input survives, carried by the last entry that has it. |
| ApiDocument.MergeKeepsPositions | src/utils/api_config.js:55-70 | Merging an incoming list into a catalog with unique urls keeps every existing url at its position. The entry there is the last incoming one with that url, or the existing one. |
| ApiDocument.DedupOfUnique | src/utils/api_config.js:52-73 | A list whose urls are already unique is left as it is. |
| ApiDocument.DedupIdempotent | src/utils/api_debug.js:339-346 | De-duplicating twice is de-duplicating once. |
| ApiConfig.IncomingEntries | src/utils/api_config.js:64-70 | Reading `item.url` fails exactly when some item is null or undefined. Otherwise every item keeps its position and its url. |
| ApiConfig.MergeByUrl | src/utils/api_config.js:52-73 | The merged list is the de-duplication of existing followed by incoming entries, and its urls are unique. |
| ApiConfig.Set | src/utils/api_config.js:35-90 | Succeeds exactly for a truthy object argument whose list can be read and a working save; a failure changes nothing. The base URL is replaced unless the incoming one is undefined. Incoming headers win. The list is merged by url with unique urls. The result is its length. |
| ApiConfig.UpdateBaseUrl | src/utils/api_config.js:91-112 | Succeeds exactly for a truthy base URL and a working save. Only the base URL changes. |
| ApiConfig.UpdateHeaders | src/utils/api_config.js:113-134 | Succeeds exactly for a truthy object and a working save. The header names are the union of old and given. Given values win and others are kept. Nothing else changes. |
| ApiConfig.DeleteHeader | src/utils/api_config.js:135-165 | A falsy name is an error. A header absent or falsy gives the non-throwing "not found" report with nothing changed. Otherwise the header alone is removed when the save works. |
| ApiConfig.FirstIndexWithUrl | src/utils/api_config.js:179 | `findIndex` with `===`: the index found holds the url and no earlier entry does. None means no entry holds it. An array or object url is never found. |
| ApiConfig.AddApi | src/utils/api_config.js:166-214 | Succeeds exactly for an api with a truthy url and a working save. A catalogued url merges the fields into the first such entry in place and returns its index. Any other url, an array or object url among them, is appended at the end. Unique urls stay unique when the new url is not an array or object. |
| ApiConfig.MergeKeepsUnique | src/utils/api_config.js:181-195 | Merging fields with the same url into an entry keeps urls unique. |
| ApiConfig.AppendKeepsUnique | src/utils/api_config.js:196-210 | Appending an entry with a new truthy url keeps urls unique. |
| ApiConfig.Tag | src/utils/api_config.js:252-255 | The entry with `index` added and every other field kept. |
| ApiConfig.List | src/utils/api_config.js:246-270 | Every entry in order, each with exactly its own fields plus `index`, which holds its position. Every other field, the url among them, keeps its value. |
| ApiConfig.Matching | src/utils/api_config.js:225-232 | `filter`: succeeds exactly when every test succeeds. The indices are increasing and in range. An index is present exactly when its entry is accepted. |
| ApiConfig.FieldMatches | src/utils/api_config.js:229-230 | A falsy field does not match. Two strings match by case-insensitive containment. A truthy non-string field or keyword is an error. |
| ApiConfig.Search | src/utils/api_config.js:215-245 | A falsy keyword is an error. Otherwise the result is the annotated matching entries in catalog order, and it fails exactly when the filter does. |
| ApiConfig.SearchFindsExactly | src/utils/api_config.js:225-232 | With text or missing fields the search never fails. An entry is found exactly when its url or description contains the keyword, ignoring case. |
| ApiConfig.SearchTestOnStrings | src/utils/api_config.js:229-230 | On such an entry the filter answers whether either field contains the keyword. |
| ApiDebug.Set | src/utils/api_debug.js:120-174 | Succeeds exactly for a truthy argument whose list can be read and a working save; a failure changes nothing. A falsy incoming base URL keeps the stored one. Headers and list are merged as in the catalog editor. |
| ApiDebug.Delete | src/utils/api_debug.js:175-209 | A missing index is an error (0 is not missing). Succeeds exactly for an index in range and a working save. It returns the removed entry and the others keep their order. Unique urls stay unique. |
| ApiDebug.AppendNonNull | src/utils/api_debug.js:259-264 | The appended pairs are exactly the properties whose value is not null or undefined, stringified. |
| ApiDebug.DebugPayload | src/utils/api_debug.js:241-278 | Only a truthy body with method exactly POST, PUT or PATCH is sent. A text body is sent with the given or inferred type. An object body is form-encoded (null values skipped) under the form type, or sent as JSON under the given type or `application/json`. Headers other than Content-Type are kept. |
| ApiDebug.DebugQuery | src/utils/api_debug.js:281-290 | An empty or missing query gives no query string. A query object with properties gives the form encoding of its non-null pairs. |
| ApiDebug.DebugRequest | src/utils/api_debug.js:227-305 | URL is the base URL and entry url joined, with `?` and the query only when the query string is non-empty. The method defaults to GET. The entry's headers are layered over the shared ones. |
| ApiDebug.EntryHeadersWin | src/utils/api_debug.js:235-238 | For every header but Content-Type, the entry's own header wins over the shared one, and none is lost. |
| ApiDebug.EncodeBody | src/utils/api_debug.js:241-278 | The body step computes `DebugPayload`. |
| ApiDebug.EncodeQuery | src/utils/api_debug.js:281-290 | The query step computes `DebugQuery`. |
| ApiDebug.BuildRequest | src/utils/api_debug.js:227-292 | The request step computes `DebugRequest`. |
| ApiDebug.RecordFields | src/utils/api_debug.js:316-336 | The record keeps every non-history field. A response sets data, status, status text, headers, success and a null error. A failure nulls the response fields and stores the message. |
| ApiDebug.RecordRun | src/utils/api_debug.js:316-346 | The saved list is the run recorded on the entry, then de-duplicated by url. |
| ApiDebug.Execute | src/utils/api_debug.js:210-382 | Succeeds exactly for an index in range, whatever the fetch outcome. It reports the request built from the stored entry. It writes back the recorded, de-duplicated list only when the save works. A failure changes nothing. |
| ApiDebug.ExecuteKeepsCatalogShape | src/utils/api_debug.js:339-346 | On a catalog with unique urls, re-de-duplication after a run changes only the run entry. |
| ApiDebug.Search | src/utils/api_debug.js:478-507 | A falsy keyword is an error. Otherwise it gives the matching entries, unannotated, in order, and fails exactly when the unguarded filter does. |
| ApiDebug.MissingDescriptionFails | src/utils/api_debug.js:489-491 | One entry without a description whose url does not match makes this search fail, where the catalog editor's filter just rejects it. |
| ApiExecute.FinalConfigOf | src/utils/api_execute.js:43-53 | Each of url, method, query, body and contentType is the override when it is truthy, and the entry's value otherwise. The method then falls back to GET, so it is truthy. |
| ApiExecute.HeaderLayers | src/utils/api_execute.js:43-53 | A header is an override's if given, else the entry's, else the shared one; no header is lost. |
| ApiExecute.ResolveUrl | src/utils/api_execute.js:62-67 | An absolute URL is used as given. Any other URL is appended to the text of the base URL. |
| ApiExecute.WithQuery | src/utils/api_execute.js:70-73 | An empty query changes nothing. Otherwise the URL is extended by `&` if it already has `?` (and by `?` if not), then the encoded query with every property. |
| ApiExecute.ExecPayload | src/utils/api_execute.js:76-94 | A body is sent only when truthy and the method is POST, PUT or PATCH. An object body goes out as JSON, and Content-Type becomes application/json when no header is set. A text body goes out as it is, and Content-Type becomes `contentType` when that is truthy and no header is set. Otherwise, and whenever a Content-Type is set, the headers are unchanged. |
| ApiExecute.EncodePayload | src/utils/api_execute.js:82-94 | The body step computes `ExecPayload`. |
| ApiExecute.Execute | src/utils/api_execute.js:23-142 | Succeeds exactly when the index is a number in range, the overrides are not null, the method is text and allowed once upper-cased, the URL is text, and `fetch` returned. The request sent is the upper-cased method with the resolved URL, query and payload. The reported headers are the request's. |
| ApiExecute.NoBodyWithoutBodyMethod | src/utils/api_execute.js:82-94 | No body and no header change for a method outside POST, PUT and PATCH. |
| ApiExecute.LowerCaseMethodSendsBody | src/utils/api_execute.js:82-94 | The method `patch` sends its body, as PATCH. |
| ApiLogin.LoginBodyText | src/utils/api_login.js:32-45 | Text is sent as it is, an object (or null) as JSON, anything else as the empty-credentials template. |
| ApiLogin.LoginRequestFor | src/utils/api_login.js:19-51 | An absolute login URL is used as it is; any other follows the argument base, then the stored one. The method is the configured one. Headers are the stored ones with Content-Type forced to JSON. |
| ApiLogin.FirstTruthyField | src/utils/api_login.js:84-93 | The first token field that is truthy; none means none is. |
| ApiLogin.ExtractToken | src/utils/api_login.js:81-93 | For an object body, the token is the value of the first truthy field among token, access_token, accessToken, authToken and jwt. It is null when there is none, and for a body that is not an object. |
| ApiLogin.FindToken | src/utils/api_login.js:84-93 | The `for ... of` loop with `break` computes `ExtractToken`. |
| ApiLogin.Login | src/utils/api_login.js:11-163 | Success is exactly a 2xx response. Only then is a token looked for. The Authorization header becomes `Bearer <token>` exactly when a token is found and the save works; otherwise nothing changes. Failures report the status line or the thrown message. |
| ApiLogin.TokenPriority | src/utils/api_login.js:86-92 | With several token fields, the one listed first wins. |
| ServerConfig.ConfigHandle.Load | src/utils/get_project_info.js:14 | The configuration in memory and on disk start equal. |
| ServerConfig.ConfigHandle.Save | src/utils/get_project_info.js:67-70 | The in-memory object becomes the file exactly when the write works, and is returned as the save's outcome. |
| ServerConfig.ParseAction | src/utils/get_api_standards.js:20-22 | A falsy action is an error. An action is accepted exactly when it is one of the tool's names. |
| ServerConfig.WithDefault | src/utils/get_api_standards.js:78-80 | A falsy property of an object is initialised and a truthy one kept. Anything that is not an object is unchanged. |
| ServerConfig.DistinctElements | src/utils/database_standards.js:78-86 | `[...new Set(...)]` keeps exactly the elements of its input. |
| ServerConfig.DistinctNoRepeats | src/utils/database_standards.js:78-86 | It holds no primitive twice. |
| ServerConfig.DistinctPrefix | src/utils/database_standards.js:78-86 | The union of `a` then `b` starts with the union of `a`. |
| ServerConfig.DistinctOfNoRepeats | src/utils/database_standards.js:78-86 | A list without repeats passes through unchanged. |
| ServerConfig.DistinctIsFirstOccurrences | src/utils/database_standards.js:78-86 | It equals the reference definition: the first occurrences, in order. |
| ServerConfig.UnionKeepsExisting | src/utils/database_standards.js:78-86 | A duplicate-free existing list stays in front. The union holds every element of both lists and no primitive twice. |
| ServerConfig.UnionIdempotent | src/utils/database_standards.js:78-86 | Merging the same primitives again changes nothing. |
| ServerConfig.Spread | src/utils/database_standards.js:78-86 | An array spreads to its elements and a string to its characters. Anything else is not iterable. |
| ServerConfig.IndexOf | src/utils/database_standards.js:120-122 | The first position strictly equal to the value; none means none is. |
| ServerConfig.RemoveAt | src/utils/database_standards.js:120-122 | `splice(i, 1)` shifts later elements down one and removes exactly one occurrence of the element, as a multiset. |
| ServerConfig.RemoveFirst | src/utils/database_standards.js:120-122 | Succeeds exactly for an array holding the value. Its first occurrence is removed, and only one copy. |
| ServerConfig.RemoveFirstKeepsLater | src/utils/database_standards.js:120-122 | With two equal elements, only the first goes and the later one stays. |
| StandardLists.Defaults | src/utils/get_development_standards.js:25-50 | The fixed lists, element by element. |
| StandardLists.Get | src/utils/database_standards.js:25-58 | The stored list when truthy, else the defaults: 22 development or 30 database standards. |
| StandardLists.SetList | src/utils/database_standards.js:78-86 | `forceOverwrite` stores the given list. Otherwise the result is the union of the current array (empty when falsy) and the new standards. A current value that is not iterable is an error. |
| StandardLists.Set | src/utils/database_standards.js:62-103 | A non-array argument or a non-object configuration changes nothing. Otherwise the property is initialised and replaced in memory. It is saved, and the count returned, only when the save works. |
| StandardLists.Delete | src/utils/database_standards.js:104-141 | A falsy standard or a non-object configuration changes nothing. Otherwise the first equal standard is spliced out. It is saved and returned only when the save works. A missing one is an error. |
| StandardLists.GetAfterWrite | src/utils/get_development_standards.js:112-120 | `get` after a write returns what was written, even an empty list: the defaults do not come back. |
| StandardLists.MergeKeepsStoredList | src/utils/get_development_standards.js:70-78 | A merge keeps the stored list in front, adds only what is new, and repeats nothing. |
| StandardLists.MergeTwiceIsMergeOnce | src/utils/database_standards.js:78-86 | Merging the same text standards twice equals merging once. |
| ApiStandards.Get | src/utils/get_api_standards.js:24-58 | The stored section when truthy. Otherwise exactly the default standards: `restful`, the success and error structures, the four basic headers and the four requirements. |
| ApiStandards.SetSection | src/utils/get_api_standards.js:83-101 | An array without `forceOverwrite` is merged with the current array (reset to `[]` when not an array). It fails exactly when the section is not an object. Any other value replaces the key. No other key changes. |
| ApiStandards.SetArgsError | src/utils/get_api_standards.js:60-70 | No error exactly for one of the five keys with a text or array value. |
| ApiStandards.Set | src/utils/get_api_standards.js:59-119 | Invalid arguments or a non-object configuration change nothing. Otherwise the section is initialised and the key written in memory. The key's new value is returned, and saved, only when the save works. |
| ApiStandards.DeleteTarget | src/utils/get_api_standards.js:121-127 | Succeeds exactly when one of headerName and requirement is truthy, and names that one. |
| ApiStandards.Removed | src/utils/get_api_standards.js:147-193 | A header is removed exactly when it is an own property. A requirement's first occurrence is removed exactly when present. |
| ApiStandards.Delete | src/utils/get_api_standards.js:120-197 | Bad targets or a non-object configuration change nothing. Otherwise the section and the target's property are initialised in memory and the target removed. It is saved only when found and the save works. |
| ApiStandards.SetTextReplaces | src/utils/get_api_standards.js:98-101 | A text value replaces the key whatever it held and no other key changes. |
| ApiStandards.MergeRequirements | src/utils/get_api_standards.js:83-97 | Merging requirements keeps the stored list in front, adds only new ones, and repeats none. |
| ApiStandards.MergeOverNonArray | src/utils/get_api_standards.js:85-92 | A merge over a non-array discards it: the result is the new elements without repeats. |
| ApiStandards.DeleteRequirementOnce | src/utils/get_api_standards.js:175-193 | A requirement present twice loses only its first occurrence. |
| ProjectInfo.Field | src/utils/get_project_info.js:24-27 | A reported field is the stored value when truthy, and exactly `''` otherwise. |
| ProjectInfo.Get | src/utils/get_project_info.js:21-43 | The three fields as stored, all `''` when there is no section object. |
| ProjectInfo.SetField | src/utils/get_project_info.js:59-64 | The section is initialised when falsy, then the key written in it. Other properties are kept. |
| ProjectInfo.Set | src/utils/get_project_info.js:44-81 | Only the three keys and an object configuration are accepted; otherwise nothing changes. The field is written in memory and saved and returned only when the save works. |
| ProjectInfo.GetAfterSet | src/utils/get_project_info.js:59-64 | `get` after `set` reports the value written (`''` for a falsy one) and the other two fields unchanged. |
| ProjectInfo.SetOnTextSectionIsLost | src/utils/get_project_info.js:59-64 | A section that is non-empty text keeps no write. |
| ProjectStructure.Get | src/utils/get_project_structure.js:21-29 | The stored list when truthy, `[]` otherwise. |
| ProjectStructure.FindPathIn | src/utils/get_project_structure.js:53 | `findIndex` by path: the first record with the path. It fails exactly when a null or undefined element comes before any match, with the TypeError for that element. |
| ProjectStructure.FindPath | src/utils/get_project_structure.js:53 | Only arrays have `findIndex`. |
| ProjectStructure.Set | src/utils/get_project_structure.js:30-95 | A non-array changes nothing. A failure part-way saves nothing but leaves earlier replacements in memory when the list came from the configuration. On success the updated list is stored, and saved only when the save works, with the three counts. |
| ProjectStructure.ApplyItems | src/utils/get_project_structure.js:47-68 | The loop computes the fold of the items, and writes each replacement through to the configuration when the list is the stored one. |
| ProjectStructure.FoldNext | src/utils/get_project_structure.js:47-68 | One more item is one more step. |
| ProjectStructure.FoldStops | src/utils/get_project_structure.js:48-50 | After a failure, later items change nothing. |
| ProjectStructure.Delete | src/utils/get_project_structure.js:96-133 | A falsy path or a non-object configuration changes nothing. Otherwise the first record with the path is spliced out and returned, only when the save works. No such record is an error. |
| ProjectStructure.DeleteUniquePath | src/utils/get_project_structure.js:112-114 | With unique paths, deleting a path leaves no record with it and the others in order. |
| ProjectStructure.FoldUpserts | src/utils/get_project_structure.js:47-68 | Against reference definitions: every record keeps its path. The first record with a path takes the last item carrying it. The new records are the items with paths not stored, in order. |
| ProjectStructure.StepUpserts | src/utils/get_project_structure.js:53-67 | One more item preserves that description. |
| ProjectStructure.AddedBounded | src/utils/get_project_structure.js:61-67 | There are never more new records than items. |
| ProjectStructure.SetStores | src/utils/get_project_structure.js:71-77 | The stored list is the updated records in place followed by the fresh ones. Its length is the old length plus the new ones. |
| ProjectStructure.SameNewPathTwice | src/utils/get_project_structure.js:61-67 | Two items with the same new path in one call are both appended. |
| ProjectStructure.FailureKeepsEarlierReplacement | src/utils/get_project_structure.js:55-60 | An invalid item after a replacement: the call fails, yet the replacement is in memory. |
| CustomTools.ToolRecord | src/utils/create_custom_tool.js:23-30 | The record has exactly the six fields: the given name, description, input schema and handler, and the creation time and id. |
| CustomTools.Appended | src/utils/create_custom_tool.js:33-36 | Succeeds exactly when the tools value, after its `[]` default, is an array. The record is then added at its end. |
| CustomTools.Create | src/utils/create_custom_tool.js:15-52 | Any falsy parameter or a non-object configuration changes nothing. Otherwise the record is appended in memory, and saved and returned only when the save works. |
| CustomTools.AppendOnly | src/utils/create_custom_tool.js:36 | Exactly one record is added at the end. The stored ones and the other properties are untouched. |
| CustomTools.SameNameTwice | src/utils/create_custom_tool.js:33-36 | There is no uniqueness check: two tools with one name are both kept. |
| UpdateConfig.Merge | src/utils/update_config.js:18 | Every property of either object; the new one wins. |
| UpdateConfig.Update | src/utils/update_config.js:9-34 | A falsy or non-object argument is an error. Otherwise the merge is saved and returned exactly when the save works. |
| UpdateConfig.UpdateTwice | src/utils/update_config.js:18 | Applying the same update twice gives what once gave. |
| UpdateConfig.EmptyUpdateKeepsCurrent | src/utils/update_config.js:18 | An empty update keeps the current properties. |
| CursorRules.ProjectPath | src/utils/generate_cursorrules.js:13 | PROJECT_PATH when set, `.` for Cursor, none otherwise. Never empty. |
| CursorRules.FileName | src/utils/generate_cursorrules.js:138-139 | For Cursor, `.cursor/rules/<TOOL_PREFIX or project>/RULE.md`; for any other client, `PROJECT_RULES.md`. |
| CursorRules.FieldLine | src/utils/generate_cursorrules.js:88-90 | A field line is written exactly when the value is truthy. It starts with the bold name and ends with the newline, after a backquote for the structure lines of lines 107-108. |
| CursorRules.ListItems | src/utils/generate_cursorrules.js:110-115 | A section is present exactly for a non-empty array, with its elements. It is an error exactly for a non-empty text, or for an object whose length is a positive number, since neither has `forEach`. |
| CursorRules.StructureText | src/utils/generate_cursorrules.js:97-99 | The loop computes the structure lines and fails on a null or undefined item. |
| CursorRules.StructureLinesPrefix | src/utils/generate_cursorrules.js:97-99 | An error in the first items is the error of the whole list. |
| CursorRules.BulletText | src/utils/generate_cursorrules.js:122-124 | The loop computes the bullets. |
| CursorRules.ListSectionText | src/utils/generate_cursorrules.js:120-126 | It computes a standards list section. |
| CursorRules.StructureSectionText | src/utils/generate_cursorrules.js:95-101 | It computes the structure section. |
| CursorRules.ApiSectionText | src/utils/generate_cursorrules.js:104-117 | It computes the API standards section. |
| CursorRules.DocumentParts | src/utils/generate_cursorrules.js:85-145 | The document exists exactly when every section does. It is the opening, then info, structure, API, development and database sections, then the environment. |
| CursorRules.Compose | src/utils/generate_cursorrules.js:23-145 | The `+=` rendering computes the document. |
| CursorRules.Generate | src/utils/generate_cursorrules.js:11-169 | With no project path or no configuration it fails. Otherwise it succeeds exactly when the document renders, and returns it with the file name. |
| CursorRules.StructureLinesOk | src/utils/generate_cursorrules.js:97-99 | The structure lines exist exactly when no item is null or undefined. |
| CursorRules.BulletsAppend | src/utils/generate_cursorrules.js:122-124 | The bullets of two lists are the first's followed by the second's. |
| CursorRules.BulletsSingle | src/utils/generate_cursorrules.js:113 | One element gives one bullet line. |
| CursorRules.StructureLinesAppend | src/utils/generate_cursorrules.js:97-99 | The same for structure lines of two lists free of null items. |
| CursorRules.DocumentFrame | src/utils/generate_cursorrules.js:143-145 | The document begins with the opening and ends with the environment section. |
| CursorRules.EmptySectionsRenderNothing | src/utils/generate_cursorrules.js:85-135 | A configuration of falsy properties gives the opening and the environment only. |
| CursorRules.TextStructureFails | src/utils/generate_cursorrules.js:95-97 | A non-empty text as the project structure has a length but no `forEach`, so no document is produced. |

## Left out

**Outside the model**
- Reading and writing `api.json`, `config.json` and the rules file. The file system is not modelled; the outcome of a save is an input.
- Creating directories and joining paths are left out too, along with api_debug's own path helper (src/utils/api_debug.js:5-8).
- `fetch`, reading the response body as JSON or text, and TLS settings. The network outcome is an input.
- The JSON and URL encoders are parameters (`JsValues.Codec`), not re-implemented.
- Property order of objects. Objects are maps, so key order, and the order `Object.entries` and `URLSearchParams` follow, are not modelled.
- Non-integer numbers. `Num` holds integers.
- `toLowerCase` and `toUpperCase` act on ASCII letters only.
- `JSON.stringify` dropping undefined properties is not modelled.
- Timestamps, ids and `new Date()` are string inputs or dropped from the reports.

**Behaviour the model narrows**
- Index coercion: api_debug and api_execute accept only number indexes in the model. JavaScript would also coerce numeric strings.
- The catalog list and its entries are modelled as an array of objects. A stored document of another shape is not.
- Spreading arrays or strings into objects and indexed properties are not modelled. Only objects have properties.
- A top-level server configuration that is null or not an object is an error in the model, with the message "configuration is not an object". The source would throw a TypeError, or lose the write silently.
- The `if (!saveConfig)` checks are left out, because a save function is always supplied.
- ApiConfig.DeleteHeader: looks the header up among the object's own properties only. A name inherited from `Object.prototype`, such as `constructor` or `toString`, is truthy in JavaScript, so the source deletes it, saves and reports success; the model reports the header as not found.
- ApiConfig.AddApi: promises unique urls afterwards only for a url that is not an array or object. Such a url is compared with `===`, so it never matches and is always appended, even when an entry holds an equal-looking url; the value-based uniqueness the model states can then fail, as it does in the source.
- ApiDebug.DebugRequest: joins the base URL and the entry url as text. When the base URL is a truthy number or `true` and the url is a number, a boolean, null or undefined, the source's `+` adds them as numbers instead (base URL 5 and no url give `NaN`). Non-integer numbers and `NaN` are outside the model.
- ApiDocument.CollectInto: keys the url map by value equality. A JavaScript `Map` keys object and array urls by reference, so two equal-looking object urls stay separate there and merge in the model. String urls, the usual case, behave the same in both.

**Actions not modelled**
- The `get` actions of api_config and api_debug return the loaded document as it is.
- The report wrappers of `list` and `get`, with their messages and timestamps.
- getLoginDescription (src/utils/api_common.js:97-99).
- The outer catch of api_debug's `execute` (src/utils/api_debug.js:383-399). Nothing after the index check throws in the model, and `saveApiConfig` reports failure by returning false, so its write-back is not reached.
- api_debug's `updateBaseUrl`, `updateHeaders` and `deleteHeader` are the same code as the catalog editor's (src/utils/api_debug.js:400-477). They are modelled once, as `ApiConfig.UpdateBaseUrl`, `ApiConfig.UpdateHeaders` and `ApiConfig.DeleteHeader`. api_debug's copy of `detectContentType` is likewise modelled once, as `ApiCommon.DetectContentType`.

**Where the code differs from a tool description**
- The allow-list wording "Non-login APIs must use allowed methods only" (src/server-final.js:528) is part of the description the server registers for the api_debug tool. src/utils/api_debug.js checks no methods, and `ApiDebug.Execute` checks none either. src/utils/api_execute.js is the only code that checks the allow-list, and it checks every entry, the login entry included. The model follows both files.

**Contracts stated weaker than the source**
- ApiExecute.Execute: error messages that embed the index, the list length, the method or the allowed list are shortened to fixed texts. `Failed to execute API at index N: ...` becomes `Failed to execute API: ...`.
- ApiDebug.Delete: the range error omits the index and the list length the source puts in it.
- ApiDebug.Execute: the range error omits the index and the list length the source puts in it.
- ProjectStructure.Set: an item that is null or undefined is rejected with the item-shape message rather than the runtime's TypeError text.
- CursorRules.ListItems: an object whose `length` is not a number is treated as having no items.
- CursorRules.Generate: the error messages are modelled but not stated in the contract.
