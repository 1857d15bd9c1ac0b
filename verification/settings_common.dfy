/**
  What the user-settings services (bookmarks, continue-reading, client
  settings) share: the per-book URL `/{resource}/isbn/{isbn}`, the headers
  of a write on behalf of an external user, and the mapping of a 404 to a
  default value.

  These services resolve their URL prefix through `getUrlPrefix` with the
  user-settings environment table, which is not part of this model: the
  resolved prefix, or the error resolving it threw, is a parameter.
 */
module SettingsCommon {
  import opened Common
  import opened Http

  /** `${prefix}/${resource}/isbn/${isbn}`. */
  function IsbnUrl(prefix: string, resource: string, isbn: string): (url: string)
    ensures url == prefix + JoinPath([resource, "isbn", isbn])
  {
    FixedPath3(resource, "isbn", isbn);
    prefix + ("/" + resource + "/isbn/" + isbn)
  }

  /** Distinct resources or distinct slash-free ISBNs never share a per-book URL. */
  lemma IsbnUrlInjective(prefix: string, r1: string, i1: string, r2: string, i2: string)
    requires '/' !in r1 && '/' !in r2 && '/' !in i1 && '/' !in i2
    requires IsbnUrl(prefix, r1, i1) == IsbnUrl(prefix, r2, i2)
    ensures r1 == r2 && i1 == i2
  {
    var a := [r1, "isbn", i1];
    var b := [r2, "isbn", i2];
    assert JoinPath(a) == IsbnUrl(prefix, r1, i1)[|prefix|..];
    assert JoinPath(b) == IsbnUrl(prefix, r2, i2)[|prefix|..];
    assert forall i :: 0 <= i < |a| ==> '/' !in a[i];
    assert forall i :: 0 <= i < |b| ==> '/' !in b[i];
    PathRoundTrip(a);
    PathRoundTrip(b);
    assert a[0] == b[0] && a[2] == b[2];
  }

  /**
    The headers of a write: `external-user-id` only for a non-empty id, and
    always a JSON content type.
   */
  function UserHeaders(externalUserId: Option<string>): (h: Headers)
    ensures Values(h, ContentType) == [ApplicationJson]
    ensures Truthy(externalUserId) ==> Values(h, ExternalUserIdHeader) == [externalUserId.value]
    ensures !Truthy(externalUserId) ==> Values(h, ExternalUserIdHeader) == []
    ensures forall n :: n != ContentType && n != ExternalUserIdHeader ==> Values(h, n) == []
  {
    var h := if Truthy(externalUserId) then SetHeader(EmptyHeaders, ExternalUserIdHeader, externalUserId.value) else EmptyHeaders;
    SetHeader(h, ContentType, ApplicationJson)
  }

  /**
    The `catch` of `getContinue` and `getSettings`: an `HTTPError` with
    status 404 becomes the default; anything else throws the `HTTPError`
    class itself, not the error caught.
   */
  function RecoverNotFound(outcome: Result<Json, Error>, fallback: Json): (r: Result<Json, Error>)
    ensures outcome.Success? ==> r == outcome
    ensures outcome.Failure? && outcome.error.HttpError? && outcome.error.response.status == 404 ==> r == Success(fallback)
    ensures outcome.Failure? && !(outcome.error.HttpError? && outcome.error.response.status == 404) ==>
      r == Failure(HttpErrorClass)
  {
    match outcome
    case Success(_) => outcome
    case Failure(e) =>
      if e.HttpError? && e.response.status == 404 then Success(fallback) else Failure(HttpErrorClass)
  }

  /**
    A GET whose 404 means "nothing stored": the default on 404, the parsed
    body on success, the `HTTPError` class on any other failure.
   */
  function GetOrDefault(
    c: Config, req: Request, fallback: Json, fetch: Request -> Response, parse: string -> Option<Json>): (r: Result<Json, Error>)
    ensures var resp := fetch(OutgoingRequest(c, req.verb, req.url, Some(req.headers), req.body));
      && (resp.status == 404 ==> r == Success(fallback))
      && (IsOkStatus(resp.status) && parse(Coalesce(resp.body, "")).Some? ==> r == Success(parse(Coalesce(resp.body, "")).value))
      && (r.Failure? ==> r.error == HttpErrorClass)
      && (r.Failure? <==> resp.status != 404 && !(IsOkStatus(resp.status) && parse(Coalesce(resp.body, "")).Some?))
  {
    RecoverNotFound(CallJson(c, req, fetch, parse), fallback)
  }
}
