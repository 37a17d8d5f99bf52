/**
 * The service client of src/services/api.js: how `request` builds the call it
 * hands to `fetch`, how it classifies what comes back, the four verb helpers and
 * the identity-service endpoint table. `fetch` itself is a parameter: its
 * outcome is either a transport failure or a response.
 */
module Api {
  import opened Wrappers

  /** The service root; the environment override is not part of this model. */
  const BaseUrl := "http://localhost:8080/api"

  const ConnectFailure := "Unable to connect to the server. Please try again later."
  const RequestFailed := "Request failed"
  const JsonMediaType := "application/json"

  datatype HttpMethod = GET | POST | PUT | DELETE

  /** A JSON value as `response.json()` yields it or as a request body carries it
      (numbers are integers here). */
  datatype Json =
    | JNull
    | JBool(b: bool)
    | JNumber(n: int)
    | JString(s: string)
    | JArray(items: seq<Json>)
    | JObject(members: map<string, Json>)

  /** JavaScript truthiness of a JSON value: arrays and objects are always truthy. */
  predicate Truthy(v: Json)
  {
    match v
    case JNull => false
    case JBool(b) => b
    case JNumber(n) => n != 0
    case JString(s) => s != ""
    case JArray(_) => true
    case JObject(_) => true
  }

  /** The options object `request` destructures; `None` is an absent body. */
  datatype Options = Options(verb: HttpMethod, body: Option<Json>, headers: map<string, string>)

  /** The `config` object passed to `fetch`; `body` is the value `JSON.stringify` serialises. */
  datatype Config = Config(verb: HttpMethod, headers: map<string, string>, body: Option<Json>)

  datatype HttpRequest = HttpRequest(url: string, config: Config)

  /** What `fetch` produced. For a response, `json` and `text` are what
      `response.json()` and `response.text()` would read from its body. */
  datatype FetchOutcome =
    | NetworkFailure
    | Response(ok: bool, status: int, statusText: string, contentType: Option<string>, json: Json, text: string)

  /** The `data` variable of `request`: a parsed JSON body or the raw text. */
  datatype Data = JsonData(value: Json) | TextData(text: string)

  /** The thrown `Error`: its message, and the `status` and `data` that only an
      HTTP-level failure attaches. */
  datatype ApiError = ApiError(message: string, status: Option<int>, data: Option<Data>)

  datatype ApiResult = Success(data: Data) | Failure(error: ApiError)

  // ----- building the request -----

  /** The part of `request` before `fetch`: the URL, the method, the default
      `Content-Type` header overridden by the caller's headers, and a body only
      when the caller's body is truthy. */
  function BuildRequest(path: string, opts: Options): (r: HttpRequest)
    ensures r.url == BaseUrl + path
    ensures r.config.verb == opts.verb
    ensures r.config.headers.Keys == opts.headers.Keys + {"Content-Type"}
    ensures forall h :: h in opts.headers ==> r.config.headers[h] == opts.headers[h]
    ensures "Content-Type" !in opts.headers ==> r.config.headers["Content-Type"] == JsonMediaType
    ensures r.config.body.Some? <==> opts.body.Some? && Truthy(opts.body.value)
    ensures r.config.body.Some? ==> r.config.body == opts.body
  {
    var headers := map["Content-Type" := JsonMediaType] + opts.headers;
    var body := if opts.body.Some? && Truthy(opts.body.value) then opts.body else None;
    HttpRequest(BaseUrl + path, Config(opts.verb, headers, body))
  }

  function Get(path: string): (r: HttpRequest)
    ensures r.url == BaseUrl + path && r.config.verb == GET && r.config.body == None
  {
    BuildRequest(path, Options(GET, None, map[]))
  }

  function Post(path: string, body: Json): (r: HttpRequest)
    ensures r.url == BaseUrl + path && r.config.verb == POST
    ensures r.config.body == if Truthy(body) then Some(body) else None
  {
    BuildRequest(path, Options(POST, Some(body), map[]))
  }

  function Put(path: string, body: Json): (r: HttpRequest)
    ensures r.url == BaseUrl + path && r.config.verb == PUT
    ensures r.config.body == if Truthy(body) then Some(body) else None
  {
    BuildRequest(path, Options(PUT, Some(body), map[]))
  }

  function Del(path: string): (r: HttpRequest)
    ensures r.url == BaseUrl + path && r.config.verb == DELETE && r.config.body == None
  {
    BuildRequest(path, Options(DELETE, None, map[]))
  }

  /** The four helpers send nothing but `Content-Type: application/json`. */
  lemma HelpersSendJsonHeader(path: string, body: Json)
    ensures Get(path).config.headers == map["Content-Type" := JsonMediaType]
    ensures Post(path, body).config.headers == map["Content-Type" := JsonMediaType]
    ensures Put(path, body).config.headers == map["Content-Type" := JsonMediaType]
    ensures Del(path).config.headers == map["Content-Type" := JsonMediaType]
  {
  }

  // ----- the endpoint table -----

  function RegisterUser(userData: Json): HttpRequest
  {
    Post("/users/register", userData)
  }

  function ForgotPassword(email: string): HttpRequest
  {
    Post("/auth/forgot-password", JObject(map["email" := JString(email)]))
  }

  function VerifyResetOtp(email: string, otp: string): HttpRequest
  {
    Post("/auth/verify-reset-otp", JObject(map["email" := JString(email), "otp" := JString(otp)]))
  }

  function ResetPassword(email: string, otp: string, newPassword: string): HttpRequest
  {
    Post("/auth/reset-password",
         JObject(map["email" := JString(email), "otp" := JString(otp), "newPassword" := JString(newPassword)]))
  }

  /** The identity-service operations, as a server receives them. */
  datatype ServiceCall =
    | Register(userData: Json)
    | RequestResetOtp(email: string)
    | VerifyOtp(email: string, otp: string)
    | Reset(email: string, otp: string, newPassword: string)

  /** The request the client sends for each operation: the endpoint table. */
  function Issue(c: ServiceCall): HttpRequest
  {
    match c
    case Register(u) => RegisterUser(u)
    case RequestResetOtp(e) => ForgotPassword(e)
    case VerifyOtp(e, o) => VerifyResetOtp(e, o)
    case Reset(e, o, p) => ResetPassword(e, o, p)
  }

  /** The string member `key` of an object body, when it has one. */
  function StringMember(m: map<string, Json>, key: string): Option<string>
  {
    if key in m && m[key].JString? then Some(m[key].s) else None
  }

  /** How a server reads a request: a POST under the service root with a body,
      routed by its path. */
  function Dispatch(r: HttpRequest): Option<ServiceCall>
  {
    if r.config.verb != POST || r.config.body.None? || |r.url| < |BaseUrl| || r.url[..|BaseUrl|] != BaseUrl then
      None
    else
      Route(r.url[|BaseUrl|..], r.config.body.value)
  }

  /** One of the four paths, with a JSON object body that has exactly the fields
      of that operation (the registration body is taken as it is). */
  function Route(path: string, body: Json): Option<ServiceCall>
  {
    if path == "/users/register" then Some(Register(body))
    else if !body.JObject? then None
    else
      var m := body.members;
      var email, otp, pw := StringMember(m, "email"), StringMember(m, "otp"), StringMember(m, "newPassword");
      if path == "/auth/forgot-password" && m.Keys == {"email"} && email.Some? then
        Some(RequestResetOtp(email.value))
      else if path == "/auth/verify-reset-otp" && m.Keys == {"email", "otp"} && email.Some? && otp.Some? then
        Some(VerifyOtp(email.value, otp.value))
      else if path == "/auth/reset-password" && m.Keys == {"email", "otp", "newPassword"}
              && email.Some? && otp.Some? && pw.Some? then
        Some(Reset(email.value, otp.value, pw.value))
      else None
  }

  /** A POST through `post` reaches the server's router with its path and body,
      unless the body is falsy and so is not sent at all. */
  lemma DispatchPost(path: string, body: Json)
    ensures Dispatch(Post(path, body)) == if Truthy(body) then Route(path, body) else None
  {
    var r := Post(path, body);
    assert r.url[..|BaseUrl|] == BaseUrl;
    assert r.url[|BaseUrl|..] == path;
  }

  lemma RouteResetOtp(e: string)
    ensures Route("/auth/forgot-password", JObject(map["email" := JString(e)])) == Some(RequestResetOtp(e))
  {
    var m := map["email" := JString(e)];
    assert m.Keys == {"email"};
  }

  lemma RouteVerifyOtp(e: string, o: string)
    ensures Route("/auth/verify-reset-otp", JObject(map["email" := JString(e), "otp" := JString(o)]))
            == Some(VerifyOtp(e, o))
  {
    var m := map["email" := JString(e), "otp" := JString(o)];
    assert m.Keys == {"email", "otp"};
    assert "/auth/verify-reset-otp" != "/auth/forgot-password";
  }

  lemma RouteReset(e: string, o: string, p: string)
    ensures Route("/auth/reset-password",
                  JObject(map["email" := JString(e), "otp" := JString(o), "newPassword" := JString(p)]))
            == Some(Reset(e, o, p))
  {
    var m := map["email" := JString(e), "otp" := JString(o), "newPassword" := JString(p)];
    assert m.Keys == {"email", "otp", "newPassword"};
    assert "/auth/reset-password" != "/auth/forgot-password";
    assert "/auth/reset-password" != "/auth/verify-reset-otp";
  }

  /** The endpoint table is unambiguous: every request the client issues is read
      back as exactly the operation and arguments it was issued for; only a
      registration with a falsy body, which `request` sends without a body, is
      read as nothing. */
  lemma DispatchIssue(c: ServiceCall)
    ensures Dispatch(Issue(c)) == if c.Register? && !Truthy(c.userData) then None else Some(c)
  {
    match c
    case Register(u) =>
      DispatchPost("/users/register", u);
    case RequestResetOtp(e) =>
      DispatchPost("/auth/forgot-password", JObject(map["email" := JString(e)]));
      RouteResetOtp(e);
    case VerifyOtp(e, o) =>
      DispatchPost("/auth/verify-reset-otp", JObject(map["email" := JString(e), "otp" := JString(o)]));
      RouteVerifyOtp(e, o);
    case Reset(e, o, p) =>
      DispatchPost("/auth/reset-password",
                   JObject(map["email" := JString(e), "otp" := JString(o), "newPassword" := JString(p)]));
      RouteReset(e, o, p);
  }

  // ----- classifying the outcome -----

  /** `haystack.includes(needle)`. */
  predicate Contains(haystack: string, needle: string)
    decreases |haystack|
  {
    |needle| <= |haystack| && (haystack[..|needle|] == needle || Contains(haystack[1..], needle))
  }

  /** `needle` occurs in `haystack` at offset `i`. */
  predicate OccursAt(haystack: string, needle: string, i: int)
  {
    0 <= i <= |haystack| - |needle| && haystack[i..i + |needle|] == needle
  }

  /** `includes` finds exactly the needles that occur at some offset. */
  lemma {:induction false} ContainsIff(haystack: string, needle: string)
    ensures Contains(haystack, needle) <==> exists i :: OccursAt(haystack, needle, i)
    decreases |haystack|
  {
    if |needle| <= |haystack| && haystack[..|needle|] != needle {
      ContainsIff(haystack[1..], needle);
      if exists i :: OccursAt(haystack, needle, i) {
        var i :| OccursAt(haystack, needle, i);
        assert i > 0;
        assert haystack[1..][i - 1..i - 1 + |needle|] == haystack[i..i + |needle|];
        assert OccursAt(haystack[1..], needle, i - 1);
      }
      if Contains(haystack[1..], needle) {
        var j :| OccursAt(haystack[1..], needle, j);
        assert haystack[1..][j..j + |needle|] == haystack[j + 1..j + 1 + |needle|];
        assert OccursAt(haystack, needle, j + 1);
      }
    } else if |needle| <= |haystack| {
      assert OccursAt(haystack, needle, 0);
    }
  }

  /** The body is parsed as JSON only when the `content-type` header exists, is
      non-empty and contains `application/json` (case-sensitively). */
  predicate IsJsonResponse(contentType: Option<string>)
  {
    contentType.Some? && contentType.value != "" && Contains(contentType.value, JsonMediaType)
  }

  function ReadData(f: FetchOutcome): Data
    requires f.Response?
  {
    if IsJsonResponse(f.contentType) then JsonData(f.json) else TextData(f.text)
  }

  /** `data.message` when `data && data.message` is truthy: only a JSON object can have it. */
  function TruthyMessage(data: Data): Option<Json>
  {
    match data
    case JsonData(JObject(m)) => if "message" in m && Truthy(m["message"]) then Some(m["message"]) else None
    case _ => None
  }

  function DigitChar(d: nat): char
    requires d < 10
  {
    "0123456789"[d]
  }

  function NatToString(n: nat): (r: string)
    ensures r != ""
  {
    if n < 10 then [DigitChar(n)] else NatToString(n / 10) + [DigitChar(n % 10)]
  }

  /** `String(v)` as `new Error(v)` applies it. Arrays join their elements with
      commas, writing null elements as empty strings. */
  function JsString(v: Json): string
    decreases v, 1
  {
    match v
    case JNull => "null"
    case JBool(b) => if b then "true" else "false"
    case JNumber(n) => if n < 0 then "-" + NatToString(-n) else NatToString(n)
    case JString(s) => s
    case JArray(items) => JoinFrom(v, 0)
    case JObject(_) => "[object Object]"
  }

  /** The elements of array `v` from index `k` on, as `Array.prototype.join` writes them. */
  function JoinFrom(v: Json, k: nat): string
    requires v.JArray? && k <= |v.items|
    decreases v, 0, |v.items| - k
  {
    if k == |v.items| then ""
    else
      var item := if v.items[k].JNull? then "" else JsString(v.items[k]);
      if k + 1 == |v.items| then item else item + "," + JoinFrom(v, k + 1)
  }

  /** The message of an HTTP-level failure: `(data && data.message) || response.statusText || 'Request failed'`. */
  function HttpErrorMessage(data: Data, statusText: string): string
  {
    var m := TruthyMessage(data);
    if m.Some? then JsString(m.value)
    else if statusText != "" then statusText
    else RequestFailed
  }

  /** The part of `request` after `fetch`: resolve with the data, or throw. */
  function Classify(f: FetchOutcome): ApiResult
  {
    match f
    case NetworkFailure => Failure(ApiError(ConnectFailure, None, None))
    case Response(ok, status, statusText, _, _, _) =>
      var data := ReadData(f);
      if ok then Success(data)
      else Failure(ApiError(HttpErrorMessage(data, statusText), Some(status), Some(data)))
  }

  /** A call fails exactly when no response arrived or the response is not ok;
      the two kinds of failure are told apart by the attached status; an ok
      response resolves with the body it carried. */
  lemma ClassifyOutcomes(f: FetchOutcome)
    ensures Classify(f).Failure? <==> f.NetworkFailure? || !f.ok
    ensures f.NetworkFailure? ==> Classify(f) == Failure(ApiError(ConnectFailure, None, None))
    ensures Classify(f).Failure? ==> (Classify(f).error.status.None? <==> f.NetworkFailure?)
    ensures f.Response? && !f.ok ==> Classify(f).error.status == Some(f.status)
    ensures f.Response? && !f.ok ==> Classify(f).error.data == Some(ReadData(f))
    ensures f.Response? && f.ok ==> Classify(f) == Success(ReadData(f))
  {
  }

  /** The body is JSON only when the header says so: a JSON header reads
      `response.json()`, anything else reads `response.text()`. */
  lemma JsonDetection(f: FetchOutcome)
    requires f.Response?
    ensures ReadData(f).JsonData? <==>
            f.contentType.Some? && exists i :: OccursAt(f.contentType.value, JsonMediaType, i)
    ensures ReadData(f).JsonData? ==> ReadData(f) == JsonData(f.json)
    ensures ReadData(f).TextData? ==> ReadData(f) == TextData(f.text)
  {
    if f.contentType.Some? {
      ContainsIff(f.contentType.value, JsonMediaType);
    }
  }

  /** A text body never supplies the message: a non-ok text response reports its
      status text, or `Request failed` when that is empty. */
  lemma TextBodyFallsThrough(f: FetchOutcome)
    requires f.Response? && !f.ok && !IsJsonResponse(f.contentType)
    ensures Classify(f).error.message == if f.statusText != "" then f.statusText else RequestFailed
  {
  }

  /** A service message that is a (truthy) string is reported verbatim, ahead of the status text. */
  lemma StringMessageWins(f: FetchOutcome, message: string)
    requires f.Response? && !f.ok && IsJsonResponse(f.contentType)
    requires f.json.JObject? && "message" in f.json.members && f.json.members["message"] == JString(message)
    ensures message != "" ==> Classify(f).error.message == message
    ensures message == "" ==> Classify(f).error.message == if f.statusText != "" then f.statusText else RequestFailed
  {
  }

  /** A failure's message is empty only when the service's `message` member is an
      array that joins to the empty string (such as `[]`): that is the only case in
      which the pages fall back to their own text. */
  lemma EmptyMessageOnlyFromArray(f: FetchOutcome)
    requires Classify(f).Failure? && Classify(f).error.message == ""
    ensures f.Response? && TruthyMessage(ReadData(f)).Some? && TruthyMessage(ReadData(f)).value.JArray?
  {
  }
}
