/** Configuration readers and the content-type inferencer shared by the API tools.
    The environment (`process.env`) is a parameter. */
module ApiCommon {
  import opened JsValues
  import opened Text

  /** `process.env`: variables that are set, with their text. */
  type Env = map<string, string>

  /** The variable is set to a non-empty value (what `process.env.X || fallback` tests). */
  predicate EnvSet(env: Env, name: string) {
    name in env && env[name] != ""
  }

  /** `process.env[name] || fallback` */
  function EnvOr(env: Env, name: string, fallback: string): (r: string)
    ensures EnvSet(env, name) ==> r == env[name]
    ensures !EnvSet(env, name) ==> r == fallback
  {
    if EnvSet(env, name) then env[name] else fallback
  }

  /** Directory of the persisted documents: CONFIG_DIR wins, then a directory named
      after TOOL_PREFIX, then `./.setting`. */
  function ConfigDir(env: Env): (dir: string)
    ensures dir != ""
    ensures EnvSet(env, "CONFIG_DIR") ==> dir == env["CONFIG_DIR"]
    ensures !EnvSet(env, "CONFIG_DIR") ==>
      StartsWith(dir, "./.setting") && (dir == "./.setting" <==> !EnvSet(env, "TOOL_PREFIX"))
    ensures !EnvSet(env, "CONFIG_DIR") && EnvSet(env, "TOOL_PREFIX") ==> dir == "./.setting." + env["TOOL_PREFIX"]
  {
    var configDir := EnvOr(env, "CONFIG_DIR", "");
    if configDir != "" then configDir
    else
      var toolPrefix := EnvOr(env, "TOOL_PREFIX", "");
      if toolPrefix != "" then "./.setting." + toolPrefix else "./.setting"
  }

  /** One entry of the allow-list: a comma-separated piece, trimmed and upper-cased. */
  function NormalizeMethod(piece: string): (verb: string)
    ensures verb == Upper(Trim(piece))
    ensures NoLowerAscii(verb)
    ensures !ContainsChar(piece, ',') ==> !ContainsChar(verb, ',')
    ensures verb == [] || (!IsWhitespace(verb[0]) && !IsWhitespace(verb[|verb| - 1]))
  {
    NormalizedFacts(piece);
    Upper(Trim(piece))
  }

  /** The three facts about a normalized piece, proved once. */
  lemma NormalizedFacts(piece: string)
    ensures NoLowerAscii(Upper(Trim(piece)))
    ensures !ContainsChar(piece, ',') ==> !ContainsChar(Upper(Trim(piece)), ',')
    ensures var verb := Upper(Trim(piece));
      verb == [] || (!IsWhitespace(verb[0]) && !IsWhitespace(verb[|verb| - 1]))
  {
    var t := Trim(piece);
    TrimLacksChar(piece, ',');
    UpperLacksChar(t, ',');
    UpperHasNoLower(t);
    UpperKeepsEnds(t);
  }

  /** Trimming a text without `c` leaves no `c`. */
  lemma TrimLacksChar(s: string, c: char)
    ensures !ContainsChar(s, c) ==> !ContainsChar(Trim(s), c)
  {
    var t := Trim(s);
    TrimIsSlice(s);
    var i, j :| 0 <= i <= j <= |s| && t == s[i..j] && AllWhitespace(s[..i]) && AllWhitespace(s[j..]);
    SliceLacksChar(s, i, j, c);
  }

  /** Upper-casing adds no character outside the letters. */
  lemma UpperLacksChar(s: string, c: char)
    requires !('A' <= c <= 'Z')
    ensures !ContainsChar(s, c) ==> !ContainsChar(Upper(s), c)
  {
    if !ContainsChar(s, c) {
      forall k | 0 <= k < |s|
        ensures Upper(s)[k] != c
      {
        assert s[k] != c;
      }
    }
  }

  /** Upper-casing keeps whitespace and non-whitespace apart, at both ends. */
  lemma UpperKeepsEnds(t: string)
    requires t == [] || (!IsWhitespace(t[0]) && !IsWhitespace(t[|t| - 1]))
    ensures var u := Upper(t); u == [] || (!IsWhitespace(u[0]) && !IsWhitespace(u[|u| - 1]))
  {
    if t != [] {
      assert Upper(t)[0] == UpperChar(t[0]);
      assert Upper(t)[|t| - 1] == UpperChar(t[|t| - 1]);
    }
  }

  /** A slice of a text without `c` has no `c` either. */
  lemma SliceLacksChar(s: string, a: int, b: int, c: char)
    requires 0 <= a <= b <= |s|
    ensures !ContainsChar(s, c) ==> !ContainsChar(s[a..b], c)
  {
    if !ContainsChar(s, c) {
      forall k | 0 <= k < b - a
        ensures s[a..b][k] != c
      {
        assert s[a..b][k] == s[a + k];
      }
    }
  }

  const AllowedMethodsVariable: string := "API_DEBUG_ALLOWED_METHODS"

  /** `getAllowedMethods`: the comma-separated list in API_DEBUG_ALLOWED_METHODS (default
      `GET`), each piece trimmed and upper-cased, so no entry holds a lower-case letter,
      a comma, or whitespace at either end. */
  function AllowedMethods(env: Env): (methods: seq<string>)
    ensures var pieces := Split(EnvOr(env, AllowedMethodsVariable, "GET"), ',');
      |methods| == |pieces| && forall i :: 0 <= i < |methods| ==> methods[i] == NormalizeMethod(pieces[i])
  {
    var pieces := Split(EnvOr(env, AllowedMethodsVariable, "GET"), ',');
    seq(|pieces|, i requires 0 <= i < |pieces| => NormalizeMethod(pieces[i]))
  }

  /** Without the variable only GET is allowed. */
  lemma AllowedMethodsDefault(env: Env)
    requires !EnvSet(env, AllowedMethodsVariable)
    ensures AllowedMethods(env) == ["GET"]
  {
    DefaultAllowList();
  }

  /** No allowed method holds a lower-case letter or a comma. */
  lemma AllowedMethodsNormalized(env: Env)
    ensures forall m :: m in AllowedMethods(env) ==> NoLowerAscii(m) && !ContainsChar(m, ',')
  {
    var pieces := Split(EnvOr(env, AllowedMethodsVariable, "GET"), ',');
    forall i | 0 <= i < |pieces|
      ensures NoLowerAscii(AllowedMethods(env)[i]) && !ContainsChar(AllowedMethods(env)[i], ',')
    {
      assert !ContainsChar(pieces[i], ',');
    }
  }

  lemma DefaultAllowList()
    ensures Split("GET", ',') == ["GET"]
    ensures NormalizeMethod("GET") == "GET"
  {
    SplitGet();
    NormalizeGet();
  }

  lemma SplitGet()
    ensures Split("GET", ',') == ["GET"]
  {
    var get := "GET";
    assert get[0] != ',' && get[1] != ',' && get[2] != ',';
    assert !ContainsChar(get, ',');
    assert IndexOfChar(get, ',') == -1;
  }

  lemma NormalizeGet()
    ensures NormalizeMethod("GET") == "GET"
  {
    var get := "GET";
    assert !IsWhitespace(get[0]) && !IsWhitespace(get[2]);
    TrimUntouched(get);
    var u := Upper(get);
    assert u[0] == 'G' && u[1] == 'E' && u[2] == 'T';
    assert u == get;
  }

  /** The method check of `api_execute`: the upper-cased method is one of the allowed ones. */
  predicate IsMethodAllowed(env: Env, verb: string) {
    Upper(verb) in AllowedMethods(env)
  }

  /** `getLoginUrl` */
  function LoginUrl(env: Env): (url: string)
    ensures url != ""
    ensures !EnvSet(env, "API_DEBUG_LOGIN_URL") ==> url == "/api/login"
    ensures EnvSet(env, "API_DEBUG_LOGIN_URL") ==> url == env["API_DEBUG_LOGIN_URL"]
  {
    EnvOr(env, "API_DEBUG_LOGIN_URL", "/api/login")
  }

  /** `getLoginMethod`: always upper case, POST by default. */
  function LoginMethod(env: Env): (verb: string)
    ensures NoLowerAscii(verb)
    ensures |verb| == |EnvOr(env, "API_DEBUG_LOGIN_METHOD", "POST")|
    ensures !EnvSet(env, "API_DEBUG_LOGIN_METHOD") ==> verb == "POST"
    ensures EnvSet(env, "API_DEBUG_LOGIN_METHOD") ==> verb == Upper(env["API_DEBUG_LOGIN_METHOD"])
  {
    UpperHasNoLower(EnvOr(env, "API_DEBUG_LOGIN_METHOD", "POST"));
    Upper(EnvOr(env, "API_DEBUG_LOGIN_METHOD", "POST"))
  }

  const DefaultLoginBody: string := "{\"username\":\"\",\"password\":\"\"}"

  /** `getLoginBody`: text not starting with `{` is returned as it is; text starting with
      `{` is parsed as JSON, and returned as it is when it does not parse. */
  function LoginBody(env: Env, codec: Codec): (body: Value)
    ensures var raw := EnvOr(env, "API_DEBUG_LOGIN_BODY", DefaultLoginBody);
      && (!StartsWith(raw, "{") ==> body == Str(raw))
      && (StartsWith(raw, "{") && !IsJson(codec, raw) ==> body == Str(raw))
      && (StartsWith(raw, "{") && IsJson(codec, raw) ==> body == codec.parse(raw).value)
  {
    var envBody := EnvOr(env, "API_DEBUG_LOGIN_BODY", DefaultLoginBody);
    if !StartsWith(envBody, "{") then Str(envBody)
    else
      match codec.parse(envBody)
      case Some(v) => v
      case None => Str(envBody)
  }

  /** The headers of the document `loadApiConfig` returns when none is stored. */
  const DefaultHeaders: Object := map["Content-Type" := Str("application/json"), "Accept" := Str("application/json")]

  // ---------------------------------------------------------------------------
  // Content-type inference

  const ApplicationJson: string := "application/json"
  const ApplicationXml: string := "application/xml"
  const TextHtml: string := "text/html"
  const FormUrlEncoded: string := "application/x-www-form-urlencoded"
  const TextPlain: string := "text/plain"

  const MimeTypes: set<string> := {ApplicationJson, ApplicationXml, TextHtml, FormUrlEncoded, TextPlain}

  predicate LooksLikeXml(t: string) {
    StartsWith(t, "<") && EndsWith(t, ">")
  }

  predicate LooksLikeHtml(t: string) {
    Contains(t, "<html") || Contains(t, "<!DOCTYPE html")
  }

  predicate LooksLikeForm(t: string) {
    Contains(t, "=") && Contains(t, "&")
  }

  /** `detectContentType`: a chain of tests on the trimmed text, the first that holds decides. */
  function DetectContentType(body: Value, codec: Codec): (mime: string)
    ensures mime in MimeTypes
    ensures !body.Str? ==> mime == ApplicationJson
  {
    if !body.Str? then ApplicationJson
    else
      var trimmedBody := Trim(body.s);
      if LooksLikeXml(trimmedBody) then ApplicationXml
      else if LooksLikeHtml(trimmedBody) then TextHtml
      else if IsJson(codec, trimmedBody) then ApplicationJson
      else if LooksLikeForm(trimmedBody) then FormUrlEncoded
      else if ContainsChar(trimmedBody, '\n') || ContainsChar(trimmedBody, '\r') then TextPlain
      else TextPlain
  }

  /** Exactly when each of the five answers is given. The XML test comes first, so text
      in angle brackets is XML even when it is also HTML or valid JSON; form encoding is
      reported only for text that is none of XML, HTML and JSON; everything else falls
      through to plain text. */
  lemma DetectContentTypeCases(body: Value, codec: Codec)
    ensures var mime := DetectContentType(body, codec);
      && (body.Str? && LooksLikeXml(Trim(body.s)) <==> mime == ApplicationXml)
      && (body.Str? && !LooksLikeXml(Trim(body.s)) && LooksLikeHtml(Trim(body.s)) <==> mime == TextHtml)
      && (!body.Str? || (!LooksLikeXml(Trim(body.s)) && !LooksLikeHtml(Trim(body.s)) && IsJson(codec, Trim(body.s)))
          <==> mime == ApplicationJson)
      && ((body.Str? && !LooksLikeXml(Trim(body.s)) && !LooksLikeHtml(Trim(body.s)) && !IsJson(codec, Trim(body.s))
           && LooksLikeForm(Trim(body.s))) <==> mime == FormUrlEncoded)
      && ((body.Str? && !LooksLikeXml(Trim(body.s)) && !LooksLikeHtml(Trim(body.s)) && !IsJson(codec, Trim(body.s))
           && !LooksLikeForm(Trim(body.s))) <==> mime == TextPlain)
  {
  }

  /** `<a/>` is XML whatever the JSON parser says. */
  lemma XmlExample(codec: Codec)
    ensures DetectContentType(Str("<a/>"), codec) == ApplicationXml
  {
    var t := "<a/>";
    assert t[0] == '<' && t[3] == '>';
    TrimUntouched(t);
    assert t[..1] == "<" && t[3..] == ">";
  }

  /** Text that, once trimmed, has no `<` and no `=` and is not JSON is plain text, with
      or without line breaks. */
  lemma NoMarkupIsPlainText(s: string, codec: Codec)
    requires !ContainsChar(Trim(s), '<') && !ContainsChar(Trim(s), '=') && !IsJson(codec, Trim(s))
    ensures DetectContentType(Str(s), codec) == TextPlain
  {
    var t := Trim(s);
    NoCharNoOccurrence(t, "<html", '<');
    NoCharNoOccurrence(t, "<!DOCTYPE html", '<');
    NoCharNoOccurrence(t, "=", '=');
  }

  /** A needle starting with a character the text lacks does not occur in it. */
  lemma NoCharNoOccurrence(s: string, t: string, c: char)
    requires t != [] && t[0] == c && !ContainsChar(s, c)
    ensures !Contains(s, t)
  {
    forall i | 0 <= i <= |s| - |t|
      ensures !OccursAt(s, t, i)
    {
      assert s[i..i + |t|][0] == s[i];
    }
  }
}
