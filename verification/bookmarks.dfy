/**
  `UserSettingsBookmarks`: the requests behind setting, deleting and looking
  up bookmarks and favourites. Each function returns the request the
  service hands to the transport, or the error it throws first.
 */
module Bookmarks {
  import opened Common
  import opened Http
  import opened SettingsCommon

  const IsbnRequired := "The isbn parameter is required if pageId is provided."

  /** The body of `setBookmark`. */
  datatype BookmarkUpdate = BookmarkUpdate(pageId: int, contentId: int)

  function BookmarkJson(b: BookmarkUpdate): Json {
    JObj([("pageId", JNum(b.pageId)), ("contentId", JNum(b.contentId))])
  }

  function BookmarkFromJson(j: Json): Option<BookmarkUpdate> {
    match j
    case JObj(fields) =>
      if |fields| == 2 && fields[0].0 == "pageId" && fields[1].0 == "contentId"
         && fields[0].1.JNum? && fields[1].1.JNum?
      then Some(BookmarkUpdate(fields[0].1.n, fields[1].1.n))
      else None
    case _ => None
  }

  lemma BookmarkJsonRoundTrip(b: BookmarkUpdate)
    ensures BookmarkFromJson(BookmarkJson(b)) == Some(b)
  {
  }

  /** `setBookmark`: PUT the bookmark to `/bookmark/isbn/{isbn}`. */
  function SetBookmarkRequest(
    prefix: Result<string, Error>, isbn: string, bookmark: BookmarkUpdate, externalUserId: Option<string>): (r: Result<Request, Error>)
    ensures prefix.Failure? ==> r == Failure(prefix.error)
    ensures r.Success? ==>
      && r.value.verb == PUT
      && r.value.url == prefix.value + JoinPath(["bookmark", "isbn", isbn])
      && r.value.headers == UserHeaders(externalUserId)
      && r.value.body.Some? && BookmarkFromJson(r.value.body.value) == Some(bookmark)
  {
    var p :- prefix;
    BookmarkJsonRoundTrip(bookmark);
    Success(Request(PUT, IsbnUrl(p, "bookmark", isbn), UserHeaders(externalUserId), Some(BookmarkJson(bookmark))))
  }

  lemma DeleteBookmarkLiteral(isbn: string, page: string, content: string)
    ensures "/bookmark/isbn/" + isbn + "/page/" + page + "/content/" + content
         == JoinPath(["bookmark", "isbn", isbn, "page", page, "content", content])
  {
    var head := ["bookmark", "isbn", isbn];
    FixedPath3("bookmark", "isbn", isbn);
    assert JoinPath(head) == "/bookmark/isbn/" + isbn;
    var tail := ["page", page, "content", content];
    FixedPath2("page", page);
    FixedPath2("content", content);
    JoinPathAppend(["page", page], ["content", content]);
    assert ["page", page] + ["content", content] == tail;
    assert JoinPath(tail) == "/page/" + page + ("/content/" + content);
    JoinPathAppend(head, tail);
    assert head + tail == ["bookmark", "isbn", isbn, "page", page, "content", content];
  }

  /** `deleteBookmark`: DELETE `/bookmark/isbn/{isbn}/page/{pageId}/content/{contentId}`. */
  function DeleteBookmarkRequest(prefix: Result<string, Error>, isbn: string, pageId: int, contentId: int): (r: Result<Request, Error>)
    ensures prefix.Failure? ==> r == Failure(prefix.error)
    ensures r.Success? ==>
      && r.value.verb == DELETE && r.value.headers == EmptyHeaders && r.value.body.None?
      && r.value.url == prefix.value + JoinPath(["bookmark", "isbn", isbn, "page", IntToString(pageId), "content", IntToString(contentId)])
  {
    var p :- prefix;
    DeleteBookmarkLiteral(isbn, IntToString(pageId), IntToString(contentId));
    Success(Request(DELETE, p + ("/bookmark/isbn/" + isbn + "/page/" + IntToString(pageId) + "/content/" + IntToString(contentId)), EmptyHeaders, None))
  }

  /** The server reads the ISBN, page and content ids back from a delete URL. */
  lemma DeleteBookmarkReadBack(prefix: string, isbn: string, pageId: int, contentId: int)
    requires '/' !in isbn
    ensures var url := DeleteBookmarkRequest(Success(prefix), isbn, pageId, contentId).value.url;
      var segs := SplitPath(url[|prefix|..]);
      && |segs| == 7 && segs[2] == isbn
      && segs[4] == IntToString(pageId) && segs[6] == IntToString(contentId)
      && ParseInt(IntToString(pageId)) == pageId && ParseInt(IntToString(contentId)) == contentId
  {
    var segs := ["bookmark", "isbn", isbn, "page", IntToString(pageId), "content", IntToString(contentId)];
    IntToStringHasNoSlash(pageId);
    IntToStringHasNoSlash(contentId);
    assert forall i :: 0 <= i < |segs| ==> '/' !in segs[i];
    PathRoundTrip(segs);
    IntToStringRoundTrip(pageId);
    IntToStringRoundTrip(contentId);
  }

  /** The segments of a bookmark lookup path; a missing ISBN leaves an empty segment behind `/bookmark/`. */
  function LookupSegments(isbn: Option<string>, pageId: Option<int>): seq<string> {
    LookupHead(isbn) + PageSegments(pageId)
  }

  function LookupHead(isbn: Option<string>): seq<string> {
    if Truthy(isbn) then ["bookmark", "isbn", isbn.value] else ["bookmark", ""]
  }

  function PageSegments(pageId: Option<int>): seq<string> {
    if TruthyNum(pageId) then ["page", IntToString(pageId.value)] else []
  }

  /** `/bookmark/`, then `isbn/{isbn}` for a non-empty ISBN. */
  function HeadPath(isbn: Option<string>): (path: string)
    ensures path == JoinPath(LookupHead(isbn))
    ensures |path| >= 10 && path[..10] == "/bookmark/"
    ensures |path| == 10 || path[10] == 'i'
  {
    if Truthy(isbn) then
      FixedPath3("bookmark", "isbn", isbn.value);
      "/bookmark/" + ("isbn/" + isbn.value)
    else
      FixedPath2("bookmark", "");
      "/bookmark/"
  }

  /** `/page/{pageId}` for a non-zero page id. */
  function PagePath(pageId: Option<int>): (path: string)
    ensures path == JoinPath(PageSegments(pageId))
    ensures path == "" || path[0] == '/'
  {
    if TruthyNum(pageId) then
      FixedPath2("page", IntToString(pageId.value));
      "/page/" + IntToString(pageId.value)
    else ""
  }

  /** The path `getBookmark` builds. */
  function LookupPath(isbn: Option<string>, pageId: Option<int>): (path: string)
    ensures path == JoinPath(LookupSegments(isbn, pageId))
  {
    JoinPathAppend(LookupHead(isbn), PageSegments(pageId));
    HeadPath(isbn) + PagePath(pageId)
  }

  /**
    `getBookmark`: a page id without an ISBN is rejected before anything
    else; a page id of 0 counts as absent.
   */
  function GetBookmarkRequest(prefix: Result<string, Error>, isbn: Option<string>, pageId: Option<int>): (r: Result<Request, Error>)
    ensures !Truthy(isbn) && TruthyNum(pageId) ==> r == Failure(Thrown(IsbnRequired))
    ensures (Truthy(isbn) || !TruthyNum(pageId)) && prefix.Failure? ==> r == Failure(prefix.error)
    ensures r.Success? ==>
      && (Truthy(isbn) || !TruthyNum(pageId))
      && r.value.verb == GET && r.value.headers == EmptyHeaders && r.value.body.None?
      && r.value.url == prefix.value + JoinPath(LookupSegments(isbn, pageId))
  {
    if !Truthy(isbn) && TruthyNum(pageId) then Failure(Thrown(IsbnRequired))
    else
      var p :- prefix;
      Success(Request(GET, p + LookupPath(isbn, pageId), EmptyHeaders, None))
  }

  /** A page id of 0 is the same as none: no error and no `/page/0`. */
  lemma PageZeroIsAbsent(prefix: Result<string, Error>, isbn: Option<string>)
    ensures GetBookmarkRequest(prefix, isbn, Some(0)) == GetBookmarkRequest(prefix, isbn, None)
  {
  }

  /** A lookup path is read back into its ISBN and page id. */
  lemma LookupReadBack(prefix: string, isbn: string, pageId: Option<int>)
    requires isbn != "" && '/' !in isbn
    ensures var url := GetBookmarkRequest(Success(prefix), Some(isbn), pageId).value.url;
      var segs := SplitPath(url[|prefix|..]);
      && |segs| >= 3 && segs[..3] == ["bookmark", "isbn", isbn]
      && (TruthyNum(pageId) <==> |segs| == 5)
      && (TruthyNum(pageId) ==> segs[3] == "page" && segs[4] == IntToString(pageId.value))
  {
    var segs := LookupSegments(Some(isbn), pageId);
    if TruthyNum(pageId) {
      IntToStringHasNoSlash(pageId.value);
    }
    assert forall i :: 0 <= i < |segs| ==> '/' !in segs[i];
    PathRoundTrip(segs);
  }

  /** `getFavourite`: GET the constant `/bookmark/favourite`. */
  function GetFavouriteRequest(prefix: Result<string, Error>): (r: Result<Request, Error>)
    ensures prefix.Failure? ==> r == Failure(prefix.error)
    ensures r.Success? ==>
      r.value == Request(GET, prefix.value + JoinPath(["bookmark", "favourite"]), EmptyHeaders, None)
  {
    var p :- prefix;
    FixedPath2("bookmark", "favourite");
    Success(Request(GET, p + "/bookmark/favourite", EmptyHeaders, None))
  }

  /** No bookmark lookup ever addresses the favourites URL. */
  lemma FavouriteIsNoLookup(prefix: string, isbn: Option<string>, pageId: Option<int>)
    requires GetBookmarkRequest(Success(prefix), isbn, pageId).Success?
    ensures GetBookmarkRequest(Success(prefix), isbn, pageId).value.url != GetFavouriteRequest(Success(prefix)).value.url
  {
    var path := LookupPath(isbn, pageId);
    LookupPathShape(isbn, pageId);
    var url := GetBookmarkRequest(Success(prefix), isbn, pageId).value.url;
    assert url == prefix + path;
    FixedPath2("bookmark", "favourite");
    var fav := "/bookmark/favourite";
    assert GetFavouriteRequest(Success(prefix)).value.url == prefix + fav;
    assert |fav| == 19 && fav[10] == 'f';
    assert path != fav;
    assert (prefix + path)[|prefix|..] == path;
    assert (prefix + fav)[|prefix|..] == fav;
  }

  /** Every lookup path continues `/bookmark/` with nothing, `isbn/` or `/`. */
  lemma LookupPathShape(isbn: Option<string>, pageId: Option<int>)
    ensures var path := LookupPath(isbn, pageId);
      && |path| >= 10 && path[..10] == "/bookmark/"
      && (|path| == 10 || path[10] == 'i' || path[10] == '/')
  {
    var head := HeadPath(isbn);
    var page := PagePath(pageId);
    assert LookupPath(isbn, pageId) == head + page;
    assert (head + page)[..10] == head[..10];
    if |head| > 10 {
      assert (head + page)[10] == head[10];
    } else if |page| > 0 {
      assert (head + page)[10] == page[0];
    }
  }
}
