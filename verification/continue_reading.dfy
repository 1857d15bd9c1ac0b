/**
  `UserSettingsContinue`: where a reader left off in a book. Set, delete and
  get all address `/continue/isbn/{isbn}`; a missing entry reads as `{}`.
 */
module ContinueReading {
  import opened Common
  import opened Http
  import opened SettingsCommon

  /** `setContinue`: PUT exactly `{pageId}`. */
  function SetContinueRequest(
    prefix: Result<string, Error>, isbn: string, pageId: int, externalUserId: Option<string>): (r: Result<Request, Error>)
    ensures prefix.Failure? ==> r == Failure(prefix.error)
    ensures r.Success? ==>
      && r.value.verb == PUT
      && r.value.url == prefix.value + JoinPath(["continue", "isbn", isbn])
      && r.value.headers == UserHeaders(externalUserId)
      && r.value.body.Some? && r.value.body.value.JObj?
      && |r.value.body.value.fields| == 1
      && r.value.body.value.fields[0] == ("pageId", JNum(pageId))
  {
    var p :- prefix;
    Success(Request(PUT, IsbnUrl(p, "continue", isbn), UserHeaders(externalUserId), Some(JObj([("pageId", JNum(pageId))]))))
  }

  /** `deleteContinue`. */
  function DeleteContinueRequest(prefix: Result<string, Error>, isbn: string): (r: Result<Request, Error>)
    ensures prefix.Failure? ==> r == Failure(prefix.error)
    ensures r.Success? ==>
      r.value == Request(DELETE, prefix.value + JoinPath(["continue", "isbn", isbn]), EmptyHeaders, None)
  {
    var p :- prefix;
    Success(Request(DELETE, IsbnUrl(p, "continue", isbn), EmptyHeaders, None))
  }

  /** The GET of `getContinue`. */
  function GetContinueRequest(prefix: Result<string, Error>, isbn: string): (r: Result<Request, Error>)
    ensures prefix.Failure? ==> r == Failure(prefix.error)
    ensures r.Success? ==>
      r.value == Request(GET, prefix.value + JoinPath(["continue", "isbn", isbn]), EmptyHeaders, None)
  {
    var p :- prefix;
    Success(Request(GET, IsbnUrl(p, "continue", isbn), EmptyHeaders, None))
  }

  /** The three operations address one URL and differ only in method, headers and body. */
  lemma OneUrlForAll(prefix: Result<string, Error>, isbn: string, pageId: int, externalUserId: Option<string>)
    requires prefix.Success?
    ensures SetContinueRequest(prefix, isbn, pageId, externalUserId).value.url == GetContinueRequest(prefix, isbn).value.url
    ensures DeleteContinueRequest(prefix, isbn).value == GetContinueRequest(prefix, isbn).value.(verb := DELETE)
  {
  }

  /**
    `getContinue`: the prefix is resolved outside the `try`, so its error
    propagates as thrown; a 404 reads as `{}`; any other failure throws the
    `HTTPError` class.
   */
  function GetContinue(
    c: Config, prefix: Result<string, Error>, isbn: string,
    fetch: Request -> Response, parse: string -> Option<Json>): (r: Result<Json, Error>)
    ensures prefix.Failure? ==> r == Failure(prefix.error)
    ensures prefix.Success? ==>
      var req := GetContinueRequest(prefix, isbn).value;
      var resp := fetch(OutgoingRequest(c, GET, req.url, Some(EmptyHeaders), None));
      && (resp.status == 404 ==> r == Success(JObj([])))
      && (IsOkStatus(resp.status) && parse(Coalesce(resp.body, "")).Some? ==> r == Success(parse(Coalesce(resp.body, "")).value))
      && (r.Failure? ==> r.error == HttpErrorClass)
      && (r.Success? && resp.status != 404 ==> IsOkStatus(resp.status) && Some(r.value) == parse(Coalesce(resp.body, "")))
  {
    var req :- GetContinueRequest(prefix, isbn);
    GetOrDefault(c, req, JObj([]), fetch, parse)
  }
}
