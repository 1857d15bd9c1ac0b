/**
  `HighlightService`: the requests behind searching, counting, reading,
  adding, updating and deleting highlights and notes. One highlight lives
  at `/v2/isbn/{isbn}/pid/{pid}/key/{key}`; the page it is on at
  `/v2/isbn/{isbn}/pid/{pid}`.
 */
module Highlights {
  import opened Common
  import opened Http

  /** `HighlightResultType`. */
  datatype NoteType = HighlightType | NoteKind

  function NoteTypeName(t: NoteType): (name: string)
    ensures name != "" && '/' !in name
  {
    match t
    case HighlightType => "highlight"
    case NoteKind => "note"
  }

  lemma NoteTypeNameInjective(a: NoteType, b: NoteType)
    ensures NoteTypeName(a) == NoteTypeName(b) <==> a == b
  {
  }

  /** The highlight service's environment table. */
  function DiscoverUrlPrefix(environment: string, baseDomain: string): (r: Result<string, Error>)
    ensures r.Success? <==> environment in {"production", "development", "local", "testing", "test"}
    ensures environment == "production" ==> r.value == "https://highlights.services." + baseDomain
    ensures environment in {"development", "local", "testing"} ==>
      r.value == "https://staging-highlights.services." + baseDomain
    ensures environment == "test" ==> r.value == "https://localhost:3010/services/highlight"
    ensures r.Failure? ==> r.error == UnknownEnvironment(environment)
  {
    match environment
    case "production" => Success("https://highlights.services." + baseDomain)
    case "development" => Success("https://staging-highlights.services." + baseDomain)
    case "local" => Success("https://staging-highlights.services." + baseDomain)
    case "testing" => Success("https://staging-highlights.services." + baseDomain)
    case "test" => Success("https://localhost:3010/services/highlight")
    case _ => Failure(UnknownEnvironment(environment))
  }

  function HighlightPrefix(c: Config): Result<string, Error> {
    GetUrlPrefix(c, DiscoverUrlPrefix)
  }

  /** `append` and `set` agree on a fresh header set: both send one JSON content type. */
  lemma AppendOnFreshIsSet()
    ensures AppendHeader(EmptyHeaders, ContentType, ApplicationJson) == JsonHeaders
  {
    assert Values(EmptyHeaders, ContentType) + [ApplicationJson] == [ApplicationJson];
  }

  // -----------------------------------------------------------------------
  // Paths
  // -----------------------------------------------------------------------

  /** The page a highlight is on: `v2/isbn/{isbn}/pid/{pid}`. */
  function PageSegments(isbn: string, pid: int): seq<string> {
    ["v2", "isbn", isbn, "pid", IntToString(pid)]
  }

  /** One highlight: the page, then `key/{key}`. */
  function KeySegments(isbn: string, pid: int, key: int): seq<string> {
    PageSegments(isbn, pid) + ["key", IntToString(key)]
  }

  function PagePath(isbn: string, pid: int): (path: string)
    ensures path == JoinPath(PageSegments(isbn, pid))
  {
    var p := IntToString(pid);
    FixedPath3("v2", "isbn", isbn);
    FixedPath2("pid", p);
    JoinPathAppend(["v2", "isbn", isbn], ["pid", p]);
    assert ["v2", "isbn", isbn] + ["pid", p] == PageSegments(isbn, pid);
    "/v2/isbn/" + isbn + ("/pid/" + p)
  }

  function KeyPath(isbn: string, pid: int, key: int): (path: string)
    ensures path == JoinPath(KeySegments(isbn, pid, key))
  {
    var k := IntToString(key);
    FixedPath2("key", k);
    JoinPathAppend(PageSegments(isbn, pid), ["key", k]);
    PagePath(isbn, pid) + ("/key/" + k)
  }

  /** `getHighlightOrNote`: the book, then the page for a non-zero page id. */
  function GetSegments(isbn: string, pid: Option<int>): seq<string> {
    ["v2", "isbn", isbn] + (if TruthyNum(pid) then ["pid", IntToString(pid.value)] else [])
  }

  function GetPath(isbn: string, pid: Option<int>): (path: string)
    ensures path == JoinPath(GetSegments(isbn, pid))
  {
    FixedPath3("v2", "isbn", isbn);
    if TruthyNum(pid) then
      FixedPath2("pid", IntToString(pid.value));
      JoinPathAppend(["v2", "isbn", isbn], ["pid", IntToString(pid.value)]);
      "/v2/isbn/" + isbn + ("/pid/" + IntToString(pid.value))
    else
      assert GetSegments(isbn, pid) == ["v2", "isbn", isbn];
      "/v2/isbn/" + isbn
  }

  /** `getHighlightOrNoteCounts`: `v2/count`, then the type when one is given. */
  function CountSegments(noteType: Option<NoteType>): seq<string> {
    ["v2", "count"] + (if noteType.Some? then [NoteTypeName(noteType.value)] else [])
  }

  function CountPath(noteType: Option<NoteType>): (path: string)
    ensures path == JoinPath(CountSegments(noteType))
  {
    FixedPath2("v2", "count");
    if noteType.Some? then
      JoinPathSnoc(["v2", "count"], NoteTypeName(noteType.value));
      "/v2/count" + "/" + NoteTypeName(noteType.value)
    else
      assert CountSegments(noteType) == ["v2", "count"];
      "/v2/count"
  }

  // -----------------------------------------------------------------------
  // Requests
  // -----------------------------------------------------------------------

  /** `search`: POST the query to `/v2/search` with a JSON content type. */
  function Search(c: Config, search: Json): (r: Result<Request, Error>)
    ensures HighlightPrefix(c).Failure? ==> r == Failure(HighlightPrefix(c).error)
    ensures r.Success? ==>
      r.value == Request(POST, HighlightPrefix(c).value + JoinPath(["v2", "search"]), JsonHeaders, Some(search))
  {
    var prefix :- HighlightPrefix(c);
    FixedPath2("v2", "search");
    AppendOnFreshIsSet();
    Success(Request(POST, prefix + "/v2/search", AppendHeader(EmptyHeaders, ContentType, ApplicationJson), Some(search)))
  }

  /** `deleteHighlightOrNote`: DELETE one highlight, with a JSON content type and no body. */
  function DeleteHighlightOrNote(c: Config, isbn: string, pid: int, key: int): (r: Result<Request, Error>)
    ensures HighlightPrefix(c).Failure? ==> r == Failure(HighlightPrefix(c).error)
    ensures r.Success? ==>
      r.value == Request(DELETE, HighlightPrefix(c).value + JoinPath(KeySegments(isbn, pid, key)), JsonHeaders, None)
  {
    var prefix :- HighlightPrefix(c);
    AppendOnFreshIsSet();
    Success(Request(DELETE, prefix + KeyPath(isbn, pid, key), AppendHeader(EmptyHeaders, ContentType, ApplicationJson), None))
  }

  /** `getHighlightOrNote`: GET a book's highlights, or one page's; no headers. */
  function GetHighlightOrNote(c: Config, isbn: string, pid: Option<int>): (r: Result<Request, Error>)
    ensures HighlightPrefix(c).Failure? ==> r == Failure(HighlightPrefix(c).error)
    ensures r.Success? ==>
      r.value == Request(GET, HighlightPrefix(c).value + JoinPath(GetSegments(isbn, pid)), EmptyHeaders, None)
  {
    var prefix :- HighlightPrefix(c);
    Success(Request(GET, prefix + GetPath(isbn, pid), EmptyHeaders, None))
  }

  /** `getHighlightOrNoteCounts`: GET all counts, or those of one type; no headers. */
  function GetHighlightOrNoteCounts(c: Config, noteType: Option<NoteType>): (r: Result<Request, Error>)
    ensures HighlightPrefix(c).Failure? ==> r == Failure(HighlightPrefix(c).error)
    ensures r.Success? ==>
      r.value == Request(GET, HighlightPrefix(c).value + JoinPath(CountSegments(noteType)), EmptyHeaders, None)
  {
    var prefix :- HighlightPrefix(c);
    Success(Request(GET, prefix + CountPath(noteType), EmptyHeaders, None))
  }

  /** `updateHighlightOrNote`: PUT the payload to the highlight's own URL. */
  function UpdateHighlightOrNote(c: Config, payload: Json, isbn: string, pid: int, key: int): (r: Result<Request, Error>)
    ensures HighlightPrefix(c).Failure? ==> r == Failure(HighlightPrefix(c).error)
    ensures r.Success? ==>
      r.value == Request(PUT, HighlightPrefix(c).value + JoinPath(KeySegments(isbn, pid, key)), JsonHeaders, Some(payload))
  {
    var prefix :- HighlightPrefix(c);
    Success(Request(PUT, prefix + KeyPath(isbn, pid, key), SetHeader(EmptyHeaders, ContentType, ApplicationJson), Some(payload)))
  }

  /** `addHighlightOrNote`: POST the payload to the page's URL; the server assigns the key. */
  function AddHighlightOrNote(c: Config, payload: Json, isbn: string, pid: int): (r: Result<Request, Error>)
    ensures HighlightPrefix(c).Failure? ==> r == Failure(HighlightPrefix(c).error)
    ensures r.Success? ==>
      r.value == Request(POST, HighlightPrefix(c).value + JoinPath(PageSegments(isbn, pid)), JsonHeaders, Some(payload))
  {
    var prefix :- HighlightPrefix(c);
    Success(Request(POST, prefix + PagePath(isbn, pid), SetHeader(EmptyHeaders, ContentType, ApplicationJson), Some(payload)))
  }

  // -----------------------------------------------------------------------
  // Properties
  // -----------------------------------------------------------------------

  /** Deleting addresses exactly what updating does; only the method and the body differ. */
  lemma DeleteAddressesUpdated(c: Config, payload: Json, isbn: string, pid: int, key: int)
    requires HighlightPrefix(c).Success?
    ensures DeleteHighlightOrNote(c, isbn, pid, key).value
         == UpdateHighlightOrNote(c, payload, isbn, pid, key).value.(verb := DELETE, body := None)
  {
  }

  /** A highlight's URL is the URL it was added under followed by `/key/{key}`. */
  lemma UpdateExtendsAdd(c: Config, payload: Json, update: Json, isbn: string, pid: int, key: int)
    requires HighlightPrefix(c).Success?
    ensures UpdateHighlightOrNote(c, update, isbn, pid, key).value.url
         == AddHighlightOrNote(c, payload, isbn, pid).value.url + "/key/" + IntToString(key)
  {
    var k := IntToString(key);
    FixedPath2("key", k);
    JoinPathAppend(PageSegments(isbn, pid), ["key", k]);
  }

  /** Reading one page addresses the URL highlights on that page are added under. */
  lemma GetPageIsAddUrl(c: Config, payload: Json, isbn: string, pid: int)
    requires HighlightPrefix(c).Success? && pid != 0
    ensures GetHighlightOrNote(c, isbn, Some(pid)).value.url == AddHighlightOrNote(c, payload, isbn, pid).value.url
  {
    assert GetSegments(isbn, Some(pid)) == PageSegments(isbn, pid);
  }

  /** A page id of 0 is the same as none: the whole book is read. */
  lemma PageZeroReadsBook(c: Config, isbn: string)
    ensures GetHighlightOrNote(c, isbn, Some(0)) == GetHighlightOrNote(c, isbn, None)
  {
  }

  /** The three count queries address three different URLs. */
  lemma CountUrlsDistinct(c: Config, a: Option<NoteType>, b: Option<NoteType>)
    requires HighlightPrefix(c).Success? && a != b
    ensures GetHighlightOrNoteCounts(c, a).value.url != GetHighlightOrNoteCounts(c, b).value.url
  {
    var sa := CountSegments(a);
    var sb := CountSegments(b);
    var prefix := HighlightPrefix(c).value;
    assert (prefix + JoinPath(sa))[|prefix|..] == JoinPath(sa);
    assert (prefix + JoinPath(sb))[|prefix|..] == JoinPath(sb);
    assert forall i :: 0 <= i < |sa| ==> '/' !in sa[i];
    assert forall i :: 0 <= i < |sb| ==> '/' !in sb[i];
    PathRoundTrip(sa);
    PathRoundTrip(sb);
    if a.Some? && b.Some? {
      NoteTypeNameInjective(a.value, b.value);
      assert sa[2] != sb[2];
    } else {
      assert |sa| != |sb|;
    }
  }

  /** The server reads the ISBN, page id and key back from a highlight's URL. */
  lemma KeyUrlReadBack(c: Config, isbn: string, pid: int, key: int)
    requires HighlightPrefix(c).Success? && '/' !in isbn
    ensures var prefix := HighlightPrefix(c).value;
      var segs := SplitPath(DeleteHighlightOrNote(c, isbn, pid, key).value.url[|prefix|..]);
      && |segs| == 7 && segs[2] == isbn
      && segs[4] == IntToString(pid) && ParseInt(segs[4]) == pid
      && segs[6] == IntToString(key) && ParseInt(segs[6]) == key
  {
    var segs := KeySegments(isbn, pid, key);
    IntToStringHasNoSlash(pid);
    IntToStringHasNoSlash(key);
    assert forall i :: 0 <= i < |segs| ==> '/' !in segs[i];
    PathRoundTrip(segs);
    IntToStringRoundTrip(pid);
    IntToStringRoundTrip(key);
  }
}
