/** The login tool (`api_login`): sends the login request configured in the environment
    and, when a 2xx response carries a token, stores `Authorization: Bearer <token>` among
    the catalog's shared headers. It never fails: every outcome is a report. */
module ApiLogin {
  import opened JsValues
  import opened Text
  import opened Http
  import opened ApiCommon
  import opened ApiDocument

  /** The login request: URL, upper-case method, headers and body text. */
  datatype LoginRequest = LoginRequest(url: string, verb: string, headers: Object, body: string)

  /** The body text sent: text as it is, an object (or null) as JSON, anything else the
      empty-credentials template. */
  function LoginBodyText(raw: Value, codec: Codec): (body: string)
    ensures raw.Str? ==> body == raw.s
    ensures IsTypeofObject(raw) ==> body == codec.stringify(raw)
    ensures !raw.Str? && !IsTypeofObject(raw) ==> body == DefaultLoginBody
  {
    if raw.Str? then raw.s
    else if IsTypeofObject(raw) then codec.stringify(raw)
    else DefaultLoginBody
  }

  /** The request `api_login` builds: the base is the `baseUrl` argument, else the
      catalog's, else empty, and an absolute login URL ignores it; the headers are the
      catalog's with Content-Type forced to JSON. */
  function LoginRequestFor(storedBase: Value, storedHeaders: Object, baseUrl: Value, env: Env, codec: Codec): (req: LoginRequest)
    ensures IsAbsoluteUrl(LoginUrl(env)) ==> req.url == LoginUrl(env)
    ensures !IsAbsoluteUrl(LoginUrl(env)) ==> req.url == JsString(Or(Or(baseUrl, storedBase), Str(""))) + LoginUrl(env)
    ensures req.verb == LoginMethod(env)
    ensures req.headers.Keys == storedHeaders.Keys + {"Content-Type"}
    ensures req.headers["Content-Type"] == Str(ApplicationJson)
    ensures forall k :: k in storedHeaders && k != "Content-Type" ==> req.headers[k] == storedHeaders[k]
    ensures req.body == LoginBodyText(LoginBody(env, codec), codec)
  {
    var finalBaseUrl := Or(Or(baseUrl, storedBase), Str(""));
    var loginUrl := LoginUrl(env);
    var fullLoginUrl := if IsAbsoluteUrl(loginUrl) then loginUrl else JsString(finalBaseUrl) + loginUrl;
    LoginRequest(fullLoginUrl, LoginMethod(env), storedHeaders["Content-Type" := Str(ApplicationJson)],
                 LoginBodyText(LoginBody(env, codec), codec))
  }

  /** The response fields looked at for a token, in order of preference. */
  const TokenFields: seq<string> := ["token", "access_token", "accessToken", "authToken", "jwt"]

  /** Position of the first field of `fields` that is truthy in `data`. */
  function FirstTruthyField(data: Value, fields: seq<string>): (r: Option<nat>)
    ensures r.Some? ==>
      && r.value < |fields| && Truthy(Prop(data, fields[r.value]))
      && forall j :: 0 <= j < r.value ==> !Truthy(Prop(data, fields[j]))
    ensures r.None? ==> forall j :: 0 <= j < |fields| ==> !Truthy(Prop(data, fields[j]))
  {
    if fields == [] then None
    else if Truthy(Prop(data, fields[0])) then Some(0)
    else match FirstTruthyField(data, fields[1..])
      case Some(i) => Some(i + 1)
      case None => None
  }

  /** The token of a response body: the first truthy token field of an object body, or
      `null` when the body is not an object or has none. */
  function ExtractToken(data: Value): (token: Value)
    ensures Truthy(token) || token == Null
    ensures !(Truthy(data) && IsTypeofObject(data)) ==> token == Null
    ensures Truthy(data) && IsTypeofObject(data) ==>
      && (Truthy(token) <==> exists i :: 0 <= i < |TokenFields| && Truthy(Prop(data, TokenFields[i])))
      && forall i :: 0 <= i < |TokenFields| && Truthy(Prop(data, TokenFields[i])) ==>
           (forall j :: 0 <= j < i ==> !Truthy(Prop(data, TokenFields[j]))) ==> token == Prop(data, TokenFields[i])
  {
    if Truthy(data) && IsTypeofObject(data) then
      match FirstTruthyField(data, TokenFields)
      case Some(i) => Prop(data, TokenFields[i])
      case None => Null
    else Null
  }

  /** The `for ... of` loop over the token fields, leaving at the first truthy one. */
  method FindToken(data: Value) returns (token: Value)
    ensures token == ExtractToken(data)
  {
    token := Null;
    if Truthy(data) && IsTypeofObject(data) {
      var i := 0;
      while i < |TokenFields|
        invariant 0 <= i <= |TokenFields|
        invariant forall j :: 0 <= j < i ==> !Truthy(Prop(data, TokenFields[j]))
        invariant token == Null
      {
        if Truthy(Prop(data, TokenFields[i])) {
          token := Prop(data, TokenFields[i]);
          var first := FirstTruthyField(data, TokenFields);
          assert first == Some(i);
          break;
        }
        i := i + 1;
      }
    }
  }

  /** The report: whether login succeeded, the request, the response if there was one,
      the token found (null when none), whether the shared headers were updated, and the
      error text of a failure. */
  datatype LoginReport = LoginReport(
    success: bool,
    request: LoginRequest,
    response: Option<Response>,
    token: Value,
    autoUpdatedHeaders: bool,
    error: Option<string>)

  /** `HTTP <status>: <statusText>` */
  function HttpError(response: Response): string {
    "HTTP " + JsString(Num(response.status)) + ": " + response.statusText
  }

  /** `api_login`. Success is exactly a 2xx response. Only then is a token looked for, and
      only a found token rewrites the stored Authorization header (kept only if the save
      works, whose result is otherwise ignored). Any other outcome leaves the catalog as
      it was. */
  method Login(store: ApiStore, baseUrl: Value, env: Env, codec: Codec, outcome: FetchOutcome, saveOk: bool)
    returns (report: LoginReport)
    modifies store
    ensures report.request == LoginRequestFor(old(store.baseUrl), old(store.headers), baseUrl, env, codec)
    ensures report.success <==> outcome.Received? && IsHttpSuccess(outcome.response.status)
    ensures report.success ==> report.token == ExtractToken(outcome.response.data) && report.error == None
    ensures !report.success ==> report.token == Null && !report.autoUpdatedHeaders
    ensures report.autoUpdatedHeaders <==> report.success && Truthy(report.token)
    ensures outcome.Received? ==> report.response == Some(outcome.response)
    ensures outcome.Received? && !IsHttpSuccess(outcome.response.status) ==> report.error == Some(HttpError(outcome.response))
    ensures outcome.Failed? ==> report.response == None && report.error == Some(outcome.message)
    ensures report.autoUpdatedHeaders && saveOk ==>
      && store.headers == old(store.headers)["Authorization" := Str("Bearer " + JsString(report.token))]
      && store.baseUrl == old(store.baseUrl) && store.list == old(store.list)
    ensures !(report.autoUpdatedHeaders && saveOk) ==> unchanged(store)
  {
    var request := LoginRequestFor(store.baseUrl, store.headers, baseUrl, env, codec);
    match outcome {
      case Failed(message) =>
        report := LoginReport(false, request, None, Null, false, Some(message));
      case Received(response) =>
        if !IsHttpSuccess(response.status) {
          report := LoginReport(false, request, Some(response), Null, false, Some(HttpError(response)));
        } else {
          var token := FindToken(response.data);
          if Truthy(token) && saveOk {
            store.headers := store.headers["Authorization" := Str("Bearer " + JsString(token))];
          }
          report := LoginReport(true, request, Some(response), token, Truthy(token), None);
        }
    }
  }

  /** A body carrying several token fields yields the one listed first. */
  lemma TokenPriority(t1: string, t2: string)
    requires t1 != "" && t2 != ""
    ensures ExtractToken(Obj(map["jwt" := Str(t2), "access_token" := Str(t1)])) == Str(t1)
  {
    var data := Obj(map["jwt" := Str(t2), "access_token" := Str(t1)]);
    assert !Truthy(Prop(data, TokenFields[0]));
    assert Truthy(Prop(data, TokenFields[1]));
    assert FirstTruthyField(data, TokenFields) == Some(1);
  }
}
