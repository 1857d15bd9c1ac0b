/**
  `UserSettingsClientSettings`: per-book client settings. Get, set and
  delete all address `/clientsettings/isbn/{isbn}`; a missing entry reads
  as `{settings: {}}`.
 */
module ClientSettings {
  import opened Common
  import opened Http
  import opened SettingsCommon

  /** What `getSettings` returns for a book without settings. */
  const NoSettings := JObj([("settings", JObj([]))])

  /** The GET of `getSettings`. */
  function GetSettingsRequest(prefix: Result<string, Error>, isbn: string): (r: Result<Request, Error>)
    ensures prefix.Failure? ==> r == Failure(prefix.error)
    ensures r.Success? ==>
      r.value == Request(GET, prefix.value + JoinPath(["clientsettings", "isbn", isbn]), EmptyHeaders, None)
  {
    var p :- prefix;
    Success(Request(GET, IsbnUrl(p, "clientsettings", isbn), EmptyHeaders, None))
  }

  /**
    `getSettings`: a 404 reads as `{settings: {}}`; any other failure throws
    the `HTTPError` class; the prefix is resolved before the `try`.
   */
  function GetSettings(
    c: Config, prefix: Result<string, Error>, isbn: string,
    fetch: Request -> Response, parse: string -> Option<Json>): (r: Result<Json, Error>)
    ensures prefix.Failure? ==> r == Failure(prefix.error)
    ensures prefix.Success? ==>
      var req := GetSettingsRequest(prefix, isbn).value;
      var resp := fetch(OutgoingRequest(c, GET, req.url, Some(EmptyHeaders), None));
      && (resp.status == 404 ==> r == Success(NoSettings))
      && (IsOkStatus(resp.status) && parse(Coalesce(resp.body, "")).Some? ==> r == Success(parse(Coalesce(resp.body, "")).value))
      && (r.Failure? ==> r.error == HttpErrorClass)
      && (r.Success? && resp.status != 404 ==> IsOkStatus(resp.status) && Some(r.value) == parse(Coalesce(resp.body, "")))
  {
    var req :- GetSettingsRequest(prefix, isbn);
    GetOrDefault(c, req, NoSettings, fetch, parse)
  }

  /** `setSettings`: PUT the settings as JSON with a JSON content type. */
  function SetSettingsRequest(prefix: Result<string, Error>, isbn: string, settings: Json): (r: Result<Request, Error>)
    ensures prefix.Failure? ==> r == Failure(prefix.error)
    ensures r.Success? ==>
      && r.value.verb == PUT
      && r.value.url == prefix.value + JoinPath(["clientsettings", "isbn", isbn])
      && Values(r.value.headers, ContentType) == [ApplicationJson]
      && (forall n :: n != ContentType ==> Values(r.value.headers, n) == [])
      && r.value.body == Some(settings)
  {
    var p :- prefix;
    Success(Request(PUT, IsbnUrl(p, "clientsettings", isbn), JsonHeaders, Some(settings)))
  }

  /** `deleteSettings`. */
  function DeleteSettingsRequest(prefix: Result<string, Error>, isbn: string): (r: Result<Request, Error>)
    ensures prefix.Failure? ==> r == Failure(prefix.error)
    ensures r.Success? ==>
      r.value == Request(DELETE, prefix.value + JoinPath(["clientsettings", "isbn", isbn]), EmptyHeaders, None)
  {
    var p :- prefix;
    Success(Request(DELETE, IsbnUrl(p, "clientsettings", isbn), EmptyHeaders, None))
  }

  /** Settings and continue-reading entries of the same book never share a URL. */
  lemma SettingsAndContinueUrlsDiffer(prefix: string, isbn: string)
    requires '/' !in isbn
    ensures IsbnUrl(prefix, "clientsettings", isbn) != IsbnUrl(prefix, "continue", isbn)
  {
    if IsbnUrl(prefix, "clientsettings", isbn) == IsbnUrl(prefix, "continue", isbn) {
      IsbnUrlInjective(prefix, "clientsettings", isbn, "continue", isbn);
    }
  }
}
