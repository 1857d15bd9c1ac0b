/**
  `AIBotService`: the chat URL, chosen by exactly one of an interactivity id
  or an ISBN, with an optional `/stream` suffix, and the two chat calls
  built on it.
 */
module AiBot {
  import opened Common
  import opened Http

  const MutuallyExclusive := "interactivityId and isbn are mutually exclusive"
  const EitherRequired := "Either interactivityId or isbn must be provided"
  const NullBody := "Response body is null"

  /** The AI bot service's environment table. */
  function DiscoverUrlPrefix(environment: string, baseDomain: string): (r: Result<string, Error>)
    ensures r.Success? <==> environment in {"production", "development", "local", "testing", "test"}
    ensures environment == "production" ==> r.value == "https://ai-bot-service.eu-west-1." + baseDomain
    ensures environment in {"development", "local", "testing"} ==>
      r.value == "https://ai-bot-service-staging.eu-west-1." + baseDomain
    ensures environment == "test" ==> r.value == "https://localhost:3010/services/aibotservice"
    ensures r.Failure? ==> r.error == UnknownEnvironment(environment)
  {
    match environment
    case "production" => Success("https://ai-bot-service.eu-west-1." + baseDomain)
    case "development" => Success("https://ai-bot-service-staging.eu-west-1." + baseDomain)
    case "local" => Success("https://ai-bot-service-staging.eu-west-1." + baseDomain)
    case "testing" => Success("https://ai-bot-service-staging.eu-west-1." + baseDomain)
    case "test" => Success("https://localhost:3010/services/aibotservice")
    case _ => Failure(UnknownEnvironment(environment))
  }

  /** The path after the prefix, as segments. */
  function ChatSegments(interactivityId: Option<string>, isbn: Option<string>, stream: bool): seq<string> {
    (if Truthy(isbn) then ["interactivity_from_isbn", isbn.value] else [Coalesce(interactivityId, ""), "chat"])
    + (if stream then ["stream"] else [])
  }

  /** Streaming only adds the final `stream` segment. */
  lemma StreamSegments(interactivityId: Option<string>, isbn: Option<string>)
    ensures ChatSegments(interactivityId, isbn, true) == ChatSegments(interactivityId, isbn, false) + ["stream"]
  {
    var base := if Truthy(isbn) then ["interactivity_from_isbn", isbn.value] else [Coalesce(interactivityId, ""), "chat"];
    assert ChatSegments(interactivityId, isbn, false) == base + [] == base;
  }

  lemma IsbnChatLiteral(isbn: string)
    ensures JoinPath(["interactivity_from_isbn", isbn]) == "/interactivity_from_isbn/" + isbn
  {
    FixedPath2("interactivity_from_isbn", isbn);
    var lead := "/" + "interactivity_from_isbn" + "/";
    assert lead == "/interactivity_from_isbn/";
    assert "/" + "interactivity_from_isbn" + "/" + isbn == lead + isbn;
  }

  /** `/{interactivityId}/chat` or `/interactivity_from_isbn/{isbn}`. */
  function ChatBase(interactivityId: Option<string>, isbn: Option<string>): (path: string)
    ensures path == JoinPath(ChatSegments(interactivityId, isbn, false))
  {
    if Truthy(isbn) then
      assert ChatSegments(interactivityId, isbn, false) == ["interactivity_from_isbn", isbn.value] + [] == ["interactivity_from_isbn", isbn.value];
      IsbnChatLiteral(isbn.value);
      "/interactivity_from_isbn/" + isbn.value
    else
      assert ChatSegments(interactivityId, isbn, false) == [Coalesce(interactivityId, ""), "chat"] + [] == [Coalesce(interactivityId, ""), "chat"];
      FixedPath2(Coalesce(interactivityId, ""), "chat");
      "/" + Coalesce(interactivityId, "") + "/chat"
  }

  /**
    The URL text after the prefix: `/{interactivityId}/chat` or
    `/interactivity_from_isbn/{isbn}`, then `/stream` when streaming.
   */
  function ChatPath(interactivityId: Option<string>, isbn: Option<string>, stream: bool): (path: string)
    ensures path == JoinPath(ChatSegments(interactivityId, isbn, stream))
  {
    var base := ChatBase(interactivityId, isbn);
    if stream then
      StreamSegments(interactivityId, isbn);
      JoinPathSnoc(ChatSegments(interactivityId, isbn, false), "stream");
      assert base + "/" + "stream" == base + "/stream";
      base + "/stream"
    else
      base
  }

  /**
    `constructChatUrl`. The two validations come before the prefix is
    resolved; then exactly one of the two selectors is truthy.
   */
  function ConstructChatUrl(c: Config, interactivityId: Option<string>, isbn: Option<string>, stream: bool): (r: Result<string, Error>)
    ensures Truthy(interactivityId) && Truthy(isbn) ==> r == Failure(Thrown(MutuallyExclusive))
    ensures !Truthy(interactivityId) && !Truthy(isbn) ==> r == Failure(Thrown(EitherRequired))
    ensures Truthy(interactivityId) != Truthy(isbn) && GetUrlPrefix(c, DiscoverUrlPrefix).Failure? ==>
      r == Failure(GetUrlPrefix(c, DiscoverUrlPrefix).error)
    ensures r.Success? ==>
      && Truthy(interactivityId) != Truthy(isbn)
      && GetUrlPrefix(c, DiscoverUrlPrefix).Success?
      && r.value == GetUrlPrefix(c, DiscoverUrlPrefix).value + JoinPath(ChatSegments(interactivityId, isbn, stream))
  {
    if Truthy(interactivityId) && Truthy(isbn) then Failure(Thrown(MutuallyExclusive))
    else if !Truthy(interactivityId) && !Truthy(isbn) then Failure(Thrown(EitherRequired))
    else
      var prefix :- GetUrlPrefix(c, DiscoverUrlPrefix);
      Success(prefix + ChatPath(interactivityId, isbn, stream))
  }

  /** Only the selector that is truthy matters: an empty or missing other one gives the same URL. */
  lemma OnlyTheTruthySelectorCounts(c: Config, id: string, isbn: string, stream: bool)
    ensures ConstructChatUrl(c, Some(id), Some(""), stream) == ConstructChatUrl(c, Some(id), None, stream)
    ensures ConstructChatUrl(c, Some(""), Some(isbn), stream) == ConstructChatUrl(c, None, Some(isbn), stream)
  {
  }

  /** Streaming adds exactly `/stream` to the URL a plain chat uses, and fails exactly when it fails. */
  lemma StreamAddsSuffix(c: Config, interactivityId: Option<string>, isbn: Option<string>)
    ensures ConstructChatUrl(c, interactivityId, isbn, true).Success? <==> ConstructChatUrl(c, interactivityId, isbn, false).Success?
    ensures ConstructChatUrl(c, interactivityId, isbn, false).Success? ==>
      ConstructChatUrl(c, interactivityId, isbn, true).value == ConstructChatUrl(c, interactivityId, isbn, false).value + "/stream"
  {
    if ConstructChatUrl(c, interactivityId, isbn, false).Success? {
      var prefix := GetUrlPrefix(c, DiscoverUrlPrefix).value;
      var base := ChatBase(interactivityId, isbn);
      assert ConstructChatUrl(c, interactivityId, isbn, false).value == prefix + base;
      assert ConstructChatUrl(c, interactivityId, isbn, true).value == prefix + (base + "/stream");
    }
  }

  /**
    The two URL shapes overlap: the interactivity id `interactivity_from_isbn`
    addresses the same URL as the ISBN `chat`.
   */
  lemma ChatUrlsCollide(c: Config, stream: bool)
    ensures ConstructChatUrl(c, Some("interactivity_from_isbn"), None, stream)
         == ConstructChatUrl(c, None, Some("chat"), stream)
  {
    assert ChatSegments(Some("interactivity_from_isbn"), None, stream) == ChatSegments(None, Some("chat"), stream);
  }

  /** Apart from that overlap, the service reads the selector back from the URL. */
  lemma ChatUrlReadBack(c: Config, interactivityId: Option<string>, isbn: Option<string>, stream: bool)
    requires ConstructChatUrl(c, interactivityId, isbn, stream).Success?
    requires Truthy(interactivityId) ==> '/' !in interactivityId.value
    requires Truthy(isbn) ==> '/' !in isbn.value
    ensures var prefix := GetUrlPrefix(c, DiscoverUrlPrefix).value;
      var url := ConstructChatUrl(c, interactivityId, isbn, stream).value;
      && prefix <= url
      && SplitPath(url[|prefix|..]) == ChatSegments(interactivityId, isbn, stream)
  {
    var prefix := GetUrlPrefix(c, DiscoverUrlPrefix).value;
    var segs := ChatSegments(interactivityId, isbn, stream);
    var url := ConstructChatUrl(c, interactivityId, isbn, stream).value;
    assert url[|prefix|..] == JoinPath(segs);
    assert forall i :: 0 <= i < |segs| ==> '/' !in segs[i];
    PathRoundTrip(segs);
  }

  /** The request `chat` (stream off) or `streamingChat` (stream on) posts. */
  function ChatRequest(c: Config, interactivityId: Option<string>, isbn: Option<string>, body: Json, stream: bool): (r: Result<Request, Error>)
    ensures r.Success? <==> ConstructChatUrl(c, interactivityId, isbn, stream).Success?
    ensures r.Failure? ==> r.error == ConstructChatUrl(c, interactivityId, isbn, stream).error
    ensures r.Success? ==>
      && r.value.verb == POST
      && r.value.url == ConstructChatUrl(c, interactivityId, isbn, stream).value
      && Values(r.value.headers, ContentType) == [ApplicationJson]
      && r.value.body == Some(body)
  {
    var url :- ConstructChatUrl(c, interactivityId, isbn, stream);
    Success(Request(POST, url, AppendHeader(EmptyHeaders, ContentType, ApplicationJson), Some(body)))
  }

  /**
    `chat`: a non-streaming call whose parsed JSON answer is returned. The
    answer is read once (see the README on the second `.json()`).
   */
  function Chat(
    c: Config, interactivityId: Option<string>, isbn: Option<string>, body: Json,
    fetch: Request -> Response, parse: string -> Option<Json>): (r: Result<Json, Error>)
    ensures ChatRequest(c, interactivityId, isbn, body, false).Failure? ==>
      r == Failure(ConstructChatUrl(c, interactivityId, isbn, false).error)
    ensures ChatRequest(c, interactivityId, isbn, body, false).Success? ==>
      var req := ChatRequest(c, interactivityId, isbn, body, false).value;
      var resp := fetch(OutgoingRequest(c, POST, req.url, Some(req.headers), Some(body)));
      var parsed := parse(Coalesce(resp.body, ""));
      && (r.Success? <==> IsOkStatus(resp.status) && parsed.Some?)
      && (r.Success? ==> r.value == parsed.value)
      && (!IsOkStatus(resp.status) ==>
            && r.Failure? && r.error.HttpError? && r.error.response == resp
            && r.error.message == "Got " + IntToString(resp.status) + " while calling " + resp.url)
      && (IsOkStatus(resp.status) && parsed.None? ==> r == Failure(SyntaxError))
  {
    var req :- ChatRequest(c, interactivityId, isbn, body, false);
    CallJson(c, req, fetch, parse)
  }

  /**
    `streamingChat`: `postAsync` parses the answer, and the `body` property of
    that parsed value is returned; when it is missing or falsy the call
    throws "Response body is null".
   */
  function StreamingChat(
    c: Config, interactivityId: Option<string>, isbn: Option<string>, body: Json,
    fetch: Request -> Response, parse: string -> Option<Json>): (r: Result<Json, Error>)
    ensures ChatRequest(c, interactivityId, isbn, body, true).Failure? ==>
      r == Failure(ConstructChatUrl(c, interactivityId, isbn, true).error)
    ensures ChatRequest(c, interactivityId, isbn, body, true).Success? ==>
      var req := ChatRequest(c, interactivityId, isbn, body, true).value;
      var resp := fetch(OutgoingRequest(c, POST, req.url, Some(req.headers), Some(body)));
      var parsed := parse(Coalesce(resp.body, ""));
      && (!IsOkStatus(resp.status) ==> r.Failure? && r.error.HttpError? && r.error.response == resp)
      && (IsOkStatus(resp.status) && parsed.None? ==> r == Failure(SyntaxError))
      && (IsOkStatus(resp.status) && parsed == Some(JNull) ==> r == Failure(TypeError))
      && (r.Success? <==>
            IsOkStatus(resp.status) && parsed.Some? && parsed.value.JObj?
            && LastField(parsed.value.fields, "body").Some?
            && JsonTruthy(LastField(parsed.value.fields, "body").value))
      && (r.Success? ==>
            && JsonTruthy(r.value)
            && (exists i :: 0 <= i < |parsed.value.fields| && parsed.value.fields[i] == ("body", r.value)))
      && (IsOkStatus(resp.status) && parsed.Some? && parsed.value != JNull && r.Failure? ==>
            r.error == Thrown(NullBody))
  {
    var req :- ChatRequest(c, interactivityId, isbn, body, true);
    var answer :- CallJson(c, req, fetch, parse);
    var responseBody :- Property(answer, "body");
    if responseBody.Some? && JsonTruthy(responseBody.value) then Success(responseBody.value)
    else Failure(Thrown(NullBody))
  }

  /**
    Given the same answer, a streaming call succeeds only where the plain
    call does, and returns the `body` property of what the plain call returns.
   */
  lemma StreamingReadsChatBody(
    c: Config, interactivityId: Option<string>, isbn: Option<string>, body: Json,
    answer: Response, parse: string -> Option<Json>)
    ensures var fetch := (q: Request) => answer;
      StreamingChat(c, interactivityId, isbn, body, fetch, parse).Success? ==>
        && Chat(c, interactivityId, isbn, body, fetch, parse).Success?
        && Property(Chat(c, interactivityId, isbn, body, fetch, parse).value, "body")
           == Success(Some(StreamingChat(c, interactivityId, isbn, body, fetch, parse).value))
  {
    StreamAddsSuffix(c, interactivityId, isbn);
  }
}
