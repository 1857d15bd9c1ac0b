/**
  The request plumbing every service inherits from `BaseService`: the client
  configuration and its defaults, URL-prefix resolution, the choice of
  credential header, and the translation of a non-ok status into an
  `HTTPError`. The network itself (`fetch`) is a function parameter.
 */
module Http {
  import opened Common

  datatype Method = GET | POST | PUT | PATCH | DELETE

  /**
    A header set: each name maps to its values in the order they were added.
    Names are compared exactly (fetch's case folding is not modelled).
   */
  type Headers = map<string, seq<string>>

  const EmptyHeaders: Headers := map[]

  const ContentType := "Content-Type"
  const ApplicationJson := "application/json"
  const Authorization := "Authorization"
  const ApiKeyHeader := "x-api-key"
  const ExternalUserIdHeader := "external-user-id"

  /** All values recorded under `name`, oldest first. */
  function Values(h: Headers, name: string): seq<string> {
    if name in h then h[name] else []
  }

  /** `headers.set(name, value)`: the value replaces every earlier value of that name. */
  function SetHeader(h: Headers, name: string, value: string): (r: Headers)
    ensures Values(r, name) == [value]
    ensures forall n :: n != name ==> Values(r, n) == Values(h, n)
  {
    h[name := [value]]
  }

  /** `headers.append(name, value)`: the value is added after the earlier ones. */
  function AppendHeader(h: Headers, name: string, value: string): (r: Headers)
    ensures Values(r, name) == Values(h, name) + [value]
    ensures forall n :: n != name ==> Values(r, n) == Values(h, n)
  {
    h[name := Values(h, name) + [value]]
  }

  /** The header set most JSON requests start from: just a JSON content type. */
  const JsonHeaders: Headers := SetHeader(EmptyHeaders, ContentType, ApplicationJson)

  /**
    A JSON value. Request bodies are modelled as the value handed to
    `JSON.stringify`; the serialisation itself is not modelled.
   */
  datatype Json =
    | JNull
    | JBool(b: bool)
    | JNum(n: int)
    | JStr(s: string)
    | JArr(items: seq<Json>)
    | JObj(fields: seq<(string, Json)>)

  /** JavaScript truthiness of a parsed JSON value: `null`, `false`, `0` and `""` are falsy. */
  predicate JsonTruthy(j: Json) {
    !(j.JNull? || j == JBool(false) || j == JNum(0) || j == JStr(""))
  }

  /**
    The value of property `name` of an object parsed by `JSON.parse`: when a
    key repeats, the last occurrence wins.
   */
  function LastField(fields: seq<(string, Json)>, name: string): Option<Json>
    decreases |fields|
  {
    if |fields| == 0 then None
    else if fields[|fields| - 1].0 == name then Some(fields[|fields| - 1].1)
    else LastField(fields[..|fields| - 1], name)
  }

  /** `LastField` finds a value exactly when the key occurs, and then it is the last occurrence's. */
  lemma {:induction false} LastFieldSpec(fields: seq<(string, Json)>, name: string)
    ensures LastField(fields, name).None? <==> forall i :: 0 <= i < |fields| ==> fields[i].0 != name
    ensures LastField(fields, name).Some? ==>
      exists i :: 0 <= i < |fields| && fields[i] == (name, LastField(fields, name).value)
        && (forall k :: i < k < |fields| ==> fields[k].0 != name)
    decreases |fields|
  {
    if |fields| > 0 && fields[|fields| - 1].0 != name {
      var shorter := fields[..|fields| - 1];
      LastFieldSpec(shorter, name);
      assert forall i :: 0 <= i < |shorter| ==> shorter[i] == fields[i];
      if LastField(shorter, name).Some? {
        var i :| 0 <= i < |shorter| && shorter[i] == (name, LastField(shorter, name).value)
          && (forall k :: i < k < |shorter| ==> shorter[k].0 != name);
        assert fields[i] == (name, LastField(fields, name).value);
      }
    }
  }

  /**
    JavaScript property access `j.name` on a parsed JSON value: only objects
    carry properties, and reading a property of `null` is a `TypeError`.
   */
  function Property(j: Json, name: string): (r: Result<Option<Json>, Error>)
    ensures r.Failure? <==> j.JNull?
    ensures r.Failure? ==> r.error == TypeError
    ensures r.Success? && r.value.Some? ==>
      && j.JObj?
      && (exists i :: 0 <= i < |j.fields| && j.fields[i] == (name, r.value.value)
            && (forall k :: i < k < |j.fields| ==> j.fields[k].0 != name))
    ensures j.JObj? && (exists i :: 0 <= i < |j.fields| && j.fields[i].0 == name) ==> r.Success? && r.value.Some?
  {
    match j
    case JNull => Failure(TypeError)
    case JObj(fields) => LastFieldSpec(fields, name); Success(LastField(fields, name))
    case _ => Success(None)
  }

  /** A request as a service builds it, before credentials are added. */
  datatype Request = Request(verb: Method, url: string, headers: Headers, body: Option<Json>)

  /** A response: its status, the URL it answered and an opaque body (`null` when absent). */
  datatype Response = Response(status: int, url: string, body: Option<string>)

  /** What the services throw. */
  datatype Error =
    | Thrown(message: string)                   // `throw new Error(message)`
    | TypeError                                 // a runtime type error, e.g. decoding an undefined token segment
    | SyntaxError                               // `JSON.parse` rejected its input
    | HttpError(message: string, response: Response)
    | HttpErrorClass                            // `throw HTTPError`: the class object itself, not an instance

  /** The fields every service object carries. */
  datatype Config = Config(
    bearerToken: Option<string>,
    apiKey: Option<string>,
    serviceUrl: Option<string>,
    environment: string,
    myAccountId: string,
    baseDomain: string)

  const DefaultEnvironment := "production"
  const DefaultMyAccountId := "SYSTIMEMYACCOUNT"
  const DefaultBaseDomain := "systime.dk"

  /**
    The `BaseService` constructor. Destructuring defaults apply only to
    omitted (undefined) arguments; a supplied empty string is kept.
   */
  function NewConfig(
    bearerToken: Option<string>,
    apiKey: Option<string>,
    serviceUrl: Option<string>,
    environment: Option<string>,
    myAccountId: Option<string>,
    baseDomain: Option<string>): (c: Config)
    ensures c.bearerToken == bearerToken && c.apiKey == apiKey && c.serviceUrl == serviceUrl
    ensures environment.None? ==> c.environment == "production"
    ensures myAccountId.None? ==> c.myAccountId == "SYSTIMEMYACCOUNT"
    ensures baseDomain.None? ==> c.baseDomain == "systime.dk"
    ensures environment.Some? ==> c.environment == environment.value
    ensures myAccountId.Some? ==> c.myAccountId == myAccountId.value
    ensures baseDomain.Some? ==> c.baseDomain == baseDomain.value
  {
    Config(
      bearerToken, apiKey, serviceUrl,
      Coalesce(environment, DefaultEnvironment),
      Coalesce(myAccountId, DefaultMyAccountId),
      Coalesce(baseDomain, DefaultBaseDomain))
  }

  function UnknownEnvironment(environment: string): Error {
    Thrown("Unknown environment: " + environment)
  }

  /** `BaseService.discoverUrlPrefix`: the base class has no table and always throws. */
  function BaseDiscoverUrlPrefix(environment: string, baseDomain: string): (r: Result<string, Error>)
    ensures r.Failure?
  {
    Failure(Thrown("Method not implemented."))
  }

  /**
    `getUrlPrefix`: an explicitly configured, non-empty service URL wins;
    otherwise the service's own environment table is consulted.
   */
  function GetUrlPrefix(c: Config, discover: (string, string) -> Result<string, Error>): (r: Result<string, Error>)
    ensures Truthy(c.serviceUrl) ==> r == Success(c.serviceUrl.value)
    ensures !Truthy(c.serviceUrl) ==> r == discover(c.environment, c.baseDomain)
  {
    if Truthy(c.serviceUrl) then Success(c.serviceUrl.value)
    else discover(c.environment, c.baseDomain)
  }

  /** The base class can only produce a prefix that was configured explicitly. */
  lemma BasePrefixNeedsServiceUrl(c: Config)
    ensures GetUrlPrefix(c, BaseDiscoverUrlPrefix).Success? <==> Truthy(c.serviceUrl)
  {
  }

  /**
    `addAuthHeaders`: a non-empty bearer token sets `Authorization` (the
    bearer scheme of section 2.1 of RFC 6750) and nothing else; otherwise a
    non-empty API key sets `x-api-key`; otherwise nothing changes.
   */
  function AddAuthHeaders(c: Config, h: Headers): (r: Headers)
    ensures Truthy(c.bearerToken) ==>
      Values(r, Authorization) == ["Bearer " + c.bearerToken.value]
      && Values(r, ApiKeyHeader) == Values(h, ApiKeyHeader)
    ensures !Truthy(c.bearerToken) && Truthy(c.apiKey) ==>
      Values(r, ApiKeyHeader) == [c.apiKey.value]
      && Values(r, Authorization) == Values(h, Authorization)
    ensures !Truthy(c.bearerToken) && !Truthy(c.apiKey) ==> r == h
    ensures forall n :: n != Authorization && n != ApiKeyHeader ==> Values(r, n) == Values(h, n)
  {
    if Truthy(c.bearerToken) then SetHeader(h, Authorization, "Bearer " + c.bearerToken.value)
    else if Truthy(c.apiKey) then SetHeader(h, ApiKeyHeader, c.apiKey.value)
    else h
  }

  /** At most one of the two credential headers is ever touched by one call. */
  lemma AuthSetsAtMostOneHeader(c: Config, h: Headers)
    ensures Values(AddAuthHeaders(c, h), Authorization) == Values(h, Authorization)
         || Values(AddAuthHeaders(c, h), ApiKeyHeader) == Values(h, ApiKeyHeader)
  {
  }

  /**
    The request `callAsync` hands to `fetch`: a missing header set becomes an
    empty one, then credentials are added.
   */
  function OutgoingRequest(c: Config, verb: Method, url: string, headers: Option<Headers>, body: Option<Json>): (r: Request)
    ensures r.verb == verb && r.url == url && r.body == body
    ensures headers.None? ==> r.headers == AddAuthHeaders(c, EmptyHeaders)
    ensures headers.Some? ==> r.headers == AddAuthHeaders(c, headers.value)
  {
    Request(verb, url, AddAuthHeaders(c, Coalesce(headers, EmptyHeaders)), body)
  }

  /** The "ok status" of the Fetch Standard (section 2.2.3): 200 to 299 inclusive. */
  predicate IsOkStatus(status: int) {
    200 <= status <= 299
  }

  /** The status check at the end of `callAsync`. */
  function CheckResponse(resp: Response): (r: Result<Response, Error>)
    ensures r.Success? <==> 200 <= resp.status < 300
    ensures r.Success? ==> r.value == resp
    ensures r.Failure? ==> r.error.HttpError? && r.error.response == resp
    ensures r.Failure? ==> r.error.message == "Got " + IntToString(resp.status) + " while calling " + resp.url
  {
    if !IsOkStatus(resp.status) then
      Failure(HttpError("Got " + IntToString(resp.status) + " while calling " + resp.url, resp))
    else
      Success(resp)
  }

  /** `callAsync`, with `fetch` as the network. */
  function CallAsync(
    c: Config, verb: Method, url: string, headers: Option<Headers>, body: Option<Json>,
    fetch: Request -> Response): (r: Result<Response, Error>)
    ensures r.Success? <==> IsOkStatus(fetch(OutgoingRequest(c, verb, url, headers, body)).status)
    ensures r.Success? ==> r.value == fetch(OutgoingRequest(c, verb, url, headers, body))
  {
    CheckResponse(fetch(OutgoingRequest(c, verb, url, headers, body)))
  }

  /**
    `getAsync`, `putAsync`, `postAsync`, `deleteAsync`: the call, then
    `response.json()`. A missing body reads as empty text; `parse` stands for
    the JSON parser and fails with a `SyntaxError`.
   */
  function CallJson(
    c: Config, req: Request, fetch: Request -> Response, parse: string -> Option<Json>): (r: Result<Json, Error>)
    ensures var resp := fetch(OutgoingRequest(c, req.verb, req.url, Some(req.headers), req.body));
      && (r.Success? <==> IsOkStatus(resp.status) && parse(Coalesce(resp.body, "")).Some?)
      && (r.Success? ==> r.value == parse(Coalesce(resp.body, "")).value)
      && (!IsOkStatus(resp.status) ==> r == Failure(CheckResponse(resp).error))
      && (IsOkStatus(resp.status) && r.Failure? ==> r.error == SyntaxError)
  {
    var resp :- CallAsync(c, req.verb, req.url, Some(req.headers), req.body, fetch);
    match parse(Coalesce(resp.body, ""))
    case None => Failure(SyntaxError)
    case Some(j) => Success(j)
  }

  /** A failed call's message names the status, which can be read back from it. */
  lemma HttpErrorNamesStatus(resp: Response)
    requires !IsOkStatus(resp.status)
    ensures CheckResponse(resp).error.message[..4] == "Got "
    ensures var m := CheckResponse(resp).error.message;
            var digits := IntToString(resp.status);
            |m| >= 4 + |digits| && ParseInt(m[4..4 + |digits|]) == resp.status
  {
    var digits := IntToString(resp.status);
    var m := CheckResponse(resp).error.message;
    assert m == "Got " + digits + " while calling " + resp.url;
    assert m[4..4 + |digits|] == digits;
    IntToStringRoundTrip(resp.status);
  }
}
