# gyldendal-divine-api service wrappers, modelled in Dafny

This project models the decision logic of the `gyldendal-divine-api` client library, which is a set of thin
TypeScript wrappers around Gyldendal's HTTP services. Its centrepiece is `UserFolders`, a folder tree kept in
a flat, remote tag store. Every folder and every filed item is one five-field tag:

- A **folder tag** has the resource type `myaccount_user_folder` and a fresh UUID as its resource name.
  Its tag name holds the JSON payload `{"folder", "color"}`. Its tag value holds the parent folder's UUID,
  or `-` for a folder at the root.
- A **content tag** has the tag name `MYACCOUNT_USER_FOLDER`. Its tag value is the UUID of the folder it is filed in.

The model treats the store as a duplicate-free sequence of tags. Each folder operation is a pure transition
on that store, returning a `Step` that pairs the new store with the operation's result or thrown error.
The store's query semantics are assumptions about the external tagging service, stated as selectors.

Around the folder layer, the project models the request plumbing every service inherits from `BaseService`:

- the configuration defaults;
- URL-prefix override and discovery;
- the credential header choice (the bearer scheme of section 2.1 of RFC 6750);
- the ok-status check of section 2.2.3 of the WHATWG Fetch Standard, with the `HTTPError` raised when it fails.

It also models the routing rules of these service wrappers:

- `TaggingService` path building;
- `AIBotService` chat URLs;
- the bookmarks, continue-reading and client-settings user-settings services;
- the `QuizService` `shared`, edit/copy, activate and archive switches;
- `HighlightService` URLs.

A request is modelled as a `Request(verb, url, headers, body)` value, or as the error thrown before it is sent.
A URL is stated as `prefix + JoinPath(segments)`. Wherever segments are slash-free, read-back lemmas
(`SplitPath(JoinPath(segs)) == segs`) show that the server can recover each parameter from the URL.

Files (one module each):

- `common.dfy`: Option, Result, JavaScript truthiness, and number-to-text rendering with its round trip.
- `common.dfy` (cont.): `.`-splitting, and URL path joining and splitting with their round trips.
- `http.dfy`: `BaseService`.
- `tagging.dfy`: `TaggingService` and the abstract tag store.
- `payload.dfy`: the folder payload text.
- `user_folders.dfy`: `UserFolders`.
- `folder_properties.dfy`: the properties that relate several folder operations.
- `aibot.dfy`: `AIBotService`.
- `settings_common.dfy`: what the three user-settings services share.
- `bookmarks.dfy`, `continue_reading.dfy`, `client_settings.dfy`: one user-settings service each.
- `quiz.dfy`: `QuizService`.
- `highlight.dfy`: `HighlightService`.

Two facts about the folder layer that the whole model rests on:

- The folder payload is stored in the tag name, and the parent UUID (or `-` for the root) in the tag value
  (`user_folders.ts:58-67`).
- `listFolders()` without a parent lists every folder tag of the identity. Only an explicit `-` lists the
  root (`user_folders.ts:155-162`).

## Model

| member | source | states |
|---|---|---|
| Http.NewConfig | src/services/base_service.ts:19-40 | Credentials and service URL are kept exactly as given. Environment, account id and base domain fall back to `production`, `SYSTIMEMYACCOUNT` and `systime.dk` only when omitted; a supplied empty string is kept. |
| Http.BaseDiscoverUrlPrefix | src/services/base_service.ts:42-44 | The base class's discovery always throws. |
| Http.GetUrlPrefix | src/services/base_service.ts:46-52 | A non-empty service URL is returned verbatim. Otherwise the result is exactly what the service's discovery returns or throws. |
| Http.BasePrefixNeedsServiceUrl | src/services/base_service.ts:42-52 | With the base class's discovery, a prefix exists if and only if a non-empty service URL is configured. |
| Http.AddAuthHeaders | src/services/base_service.ts:54-61 | A non-empty bearer token sets `Authorization: Bearer <token>` and leaves `x-api-key` alone. Failing that, a non-empty API key sets `x-api-key` and leaves `Authorization` alone. With neither, the headers are unchanged. No other header name is ever touched. |
| Http.AuthSetsAtMostOneHeader | src/services/base_service.ts:54-61 | One call never changes both credential headers. |
| Http.OutgoingRequest | src/services/base_service.ts:151-161 | Method, URL and body reach `fetch` unchanged. A missing header set is replaced by an empty one before credentials are added. |
| Http.CheckResponse | src/services/base_service.ts:163-166 | Success if and only if the status is 200..299, and then the response itself. Otherwise an `HTTPError` that carries the response, with the message `Got <status> while calling <url>`. |
| Http.CallAsync | src/services/base_service.ts:135-167 | Succeeds exactly when the fetched status is ok, returning exactly the response fetched for the credentialed request. |
| Http.LastFieldSpec | src/services/ai_bot_service.ts:154 | A property read on a parsed object finds a value exactly when the key occurs. The value is then that of the key's last occurrence, as `JSON.parse` keeps it. |
| Http.Property | src/services/ai_bot_service.ts:154 | Reading a property of `null` is a `TypeError`. Only an object has properties, and a key it carries is always found. |
| Http.CallJson | src/services/base_service.ts:74-77 | Succeeds if and only if the status is ok and the body parses, and then returns the parsed body. A non-ok status gives the `HTTPError` of `CheckResponse`. An ok status with an unparsable body gives a `SyntaxError`. |
| Http.HttpErrorNamesStatus | src/services/base_service.ts:164 | A failed call's message starts with `Got `, and the status can be parsed back out of it. |
| Tagging.DiscoverUrlPrefix | src/services/tagging_service.ts:16-26 | Only production (`https://tagging.services.<domain>`), development and local (the staging host) resolve. Every other environment throws `Unknown environment: <env>`. |
| Tagging.TestEnvironmentsUnsupported | src/services/tagging_service.ts:16-26 | Without a service URL, the `test` and `testing` environments cannot reach the tagging service. |
| Tagging.ByResourceUrl | src/services/tagging_service.ts:44 | The URL is the prefix, then `tags/by_resource/<identity>`, then each non-empty selector among type, name and tag name, in that order. |
| Tagging.ByTagNameUrl | src/services/tagging_service.ts:67 | The tag name always sits right after the identity. The non-empty type and name selectors follow it, in order. |
| Tagging.DeleteUrl | src/services/tagging_service.ts:126 | The URL is the prefix, then `tags/<identity>`, then each non-empty selector, in order. |
| Tagging.DeleteUrlIsLookupWithoutByResource | src/services/tagging_service.ts:126 | For the same selectors, the delete path is the `by_resource` lookup path of line 44 with the `by_resource` segment removed. |
| Tagging.ByResourceNotInjective | src/services/tagging_service.ts:44 | An empty type selector drops out of the path, so type `""` with name `x` gives the same URL as type `x`. |
| Tagging.TagJsonRoundTrip | src/services/tagging_service.ts:88 | The JSON body sent for a tag reads back as that same tag. |
| Tagging.GetTagsByResourceRequest | src/services/tagging_service.ts:44-47 | A GET with an empty header set and no body, sent to the `by_resource` URL. |
| Tagging.GetTagsByNameRequest | src/services/tagging_service.ts:67-70 | A GET with an empty header set and no body, sent to the `by_tag_name` URL. |
| Tagging.CreateTagRequest | src/services/tagging_service.ts:84-88 | A POST to `<prefix>/tags` with a JSON content type, whose body reads back as the tag. |
| Tagging.UpdateTagRequest | src/services/tagging_service.ts:102-106 | The same request as `createTag`, sent with PUT instead of POST. |
| Tagging.DeleteTagRequest | src/services/tagging_service.ts:126-129 | A DELETE with an empty header set and no body, sent to the delete URL. |
| Tagging.Select | src/services/tagging_service.ts:28-49 | A lookup returns exactly the stored tags that match its selector, with none duplicated. (This is an assumption about the remote store.) |
| Tagging.CreateTag | src/services/tagging_service.ts:74-90 | Afterwards the store holds exactly its old tags plus the new one, and stays duplicate-free. |
| Tagging.DeleteTag | src/services/tagging_service.ts:110-132 | Only tags of the given identity are removed, and nothing is added. A type-and-name delete removes exactly the matching tags; a type-only delete removes every tag of that type. |
| Tagging.DeleteWithEmptyTypeShifts | src/services/tagging_service.ts:126 | Because an empty selector drops out of the path, deleting with type `""` and name `x` deletes every tag of type `x`. |
| FolderPayload.DecodeEncode | src/services/highlevel/tagging/user_folders.ts:104-106 | Parsing the payload written at line 58 gives back the same folder name and color. |
| FolderPayload.EncodeInjective | src/services/highlevel/tagging/user_folders.ts:58 | Distinct name/color pairs are stored as distinct text. |
| UserFolders.GetIdentity | src/services/highlevel/tagging/user_folders.ts:26-42 | With no non-empty bearer token, it throws the "valid bearer token" error. A token without a second `.` segment is a type error. Otherwise the result is `user_<authns>_<user>`, read from the claims of the second segment. |
| UserFolders.IdentityFromMiddleSegment | src/services/highlevel/tagging/user_folders.ts:32-38 | For a token `head.middle[.rest]`, the identity depends on the claims of `middle` alone. |
| UserFolders.Begin | src/services/highlevel/tagging/user_folders.ts:59-62 | A folder operation gets going exactly when the identity derives and the tagging prefix resolves. It then acts as that identity. |
| UserFolders.ListedFolder | src/services/highlevel/tagging/user_folders.ts:167-176 | A tag reads as a folder exactly when the model's payload codec reads its payload. The folder's uuid is the resource name, its name and color come from the payload, and its parent is absent exactly when the tag value is `-` (otherwise it is the tag value). |
| UserFolders.DecodeFolders | src/services/highlevel/tagging/user_folders.ts:165-179 | A listing decodes exactly when every tag's payload parses, into one folder per tag, in the same order. |
| UserFolders.DecodeItems | src/services/highlevel/tagging/user_folders.ts:200-222 | One item per tag, in order. An item is a folder exactly when its tag has the folder resource type. Otherwise it is content with the tag's type, name and value. Decoding fails exactly when some folder tag's payload does not parse. |
| UserFolders.CreateFolder | src/services/highlevel/tagging/user_folders.ts:58-71 | The store gains exactly one folder tag for the new UUID and nothing else changes. That tag's value is the parent, or `-` without one, and its payload lists back as the same name and color. The reported folder carries the supplied parent. |
| UserFolders.UpdateFolder | src/services/highlevel/tagging/user_folders.ts:90-132 | An unknown UUID throws `Folder with UUID <uuid> not found`, and any failure leaves the store unchanged. On success, exactly one folder tag remains for the UUID. It holds the supplied name and color, or the old ones where none were supplied. Its tag value is the old one. The reported parent is the supplied one, or else the old tag value. |
| UserFolders.UpdateLeavesOneTag | src/services/highlevel/tagging/user_folders.ts:111-131 | Deleting a UUID's folder tags and writing one back leaves exactly that tag under the UUID, and leaves the rest of the store as it was. |
| UserFolders.FoldersCover | src/services/highlevel/tagging/user_folders.ts:167-177 | Every tag of a decoded listing yields its folder in the result, and every folder in the result comes from one of its tags. |
| UserFolders.ListFolders | src/services/highlevel/tagging/user_folders.ts:145-179 | It succeeds exactly when every selected tag's payload parses. With a non-empty parent it selects the tags with that value; otherwise it selects every folder tag of the identity. Every selected tag is listed, and every listed folder comes from a selected tag. |
| UserFolders.ItemsCover | src/services/highlevel/tagging/user_folders.ts:211-218 | Every non-folder tag of a decoded content listing yields its content item. |
| UserFolders.GetFolderContent | src/services/highlevel/tagging/user_folders.ts:192-222 | One item per tag whose value is the UUID, in store order, told apart by resource type. Every content tag filed under the UUID appears. |
| UserFolders.AddContentToFolder | src/services/highlevel/tagging/user_folders.ts:264-276 | The store gains exactly the tag `(identity, type, name, MYACCOUNT_USER_FOLDER, folder)`, and the result echoes type, name and folder. |
| UserFolders.AddInternetbookToFolder | src/services/highlevel/tagging/user_folders.ts:237-244 | Files content of type `internetbook`, named by its ISBN. |
| UserFolders.DeleteFolder | src/services/highlevel/tagging/user_folders.ts:289-296 | Only folder tags go, so content survives and nothing is added. For a non-empty UUID, exactly that folder's tags are removed. |
| UserFolders.DeleteAllFolders | src/services/highlevel/tagging/user_folders.ts:307-313 | Exactly the identity's folder tags are removed. |
| FolderProperties.CreateThenList | src/services/highlevel/tagging/user_folders.ts:58-176 | A folder created under parent P shows up in `listFolders(P)` with its name, color and parent P. |
| FolderProperties.CreateAtRootThenListRoot | src/services/highlevel/tagging/user_folders.ts:66-174 | A folder created without a parent is listed under `-` with no parent: the sentinel never shows. |
| FolderProperties.ListedChildrenHaveParent | src/services/highlevel/tagging/user_folders.ts:146-174 | Listing a real parent UUID reports only folders with that parent. |
| FolderProperties.ListingOfReadableStore | src/services/highlevel/tagging/user_folders.ts:167-176 | When every folder payload is readable, every listing succeeds. |
| FolderProperties.UpdateThenList | src/services/highlevel/tagging/user_folders.ts:103-131 | After an update, the folder is listed under the parent it had before, with the merged name and color. |
| FolderProperties.ListedIfStored | src/services/highlevel/tagging/user_folders.ts:146-176 | A stored folder tag that the listing selects is listed, decoded. |
| FolderProperties.UpdateIgnoresParentArgument | src/services/highlevel/tagging/user_folders.ts:107-127 | The store after an update does not depend on the parent argument. |
| FolderProperties.UpdateReportsUnstoredParent | src/services/highlevel/tagging/user_folders.ts:107-132 | Given a new parent, an update reports that parent, while the one stored tag still links to the old one. |
| FolderProperties.AddedContentIsListed | src/services/highlevel/tagging/user_folders.ts:192-276 | Content filed in a folder shows up in that folder's content listing. |
| FolderProperties.ContentOfReadableStore | src/services/highlevel/tagging/user_folders.ts:202-219 | When every folder payload is readable, every content listing succeeds. |
| FolderProperties.FolderTypedContentBreaksListing | src/services/highlevel/tagging/user_folders.ts:168-270 | Filing content under the folder resource type makes `listFolders()` fail, because its tag name is not a payload. |
| FolderProperties.DeleteFolderKeepsContent | src/services/highlevel/tagging/user_folders.ts:289-296 | Deletes do not cascade: content listed in a folder before a delete is still listed after it. |
| FolderProperties.DeleteEmptyUuidDeletesAll | src/services/highlevel/tagging/user_folders.ts:289-313 | `deleteFolder("")` has the same effect as `deleteAllFolders()`. |
| FolderProperties.CreateKeepsReadable | src/services/highlevel/tagging/user_folders.ts:58-67 | Creating a folder keeps every folder payload readable. |
| FolderProperties.UpdateKeepsReadable | src/services/highlevel/tagging/user_folders.ts:109-131 | Updating a folder keeps every folder payload readable. |
| FolderProperties.AddContentKeepsReadable | src/services/highlevel/tagging/user_folders.ts:264-275 | Filing non-folder content keeps every folder payload readable. |
| FolderProperties.CreatePreservesValid | src/services/highlevel/tagging/user_folders.ts:58-67 | Creating under a fresh UUID keeps these invariants: no duplicates, readable payloads, one tag per folder. |
| FolderProperties.UpdatePreservesValid | src/services/highlevel/tagging/user_folders.ts:111-131 | An update keeps the same three invariants. |
| FolderProperties.DeletesPreserveValid | src/services/highlevel/tagging/user_folders.ts:289-313 | Both deletes keep the same three invariants. |
| FolderProperties.AddContentPreservesValid | src/services/highlevel/tagging/user_folders.ts:264-275 | Filing non-folder content keeps the same three invariants. |
| AiBot.DiscoverUrlPrefix | src/services/ai_bot_service.ts:51-64 | Production, development/local/testing and test map to their three hosts. Any other environment throws. |
| AiBot.ConstructChatUrl | src/services/ai_bot_service.ts:66-97 | Both selectors set throws the mutually-exclusive error; neither set throws the either-required error (empty counts as absent). Both checks come before the prefix. Otherwise the URL is `/<id>/chat` or `/interactivity_from_isbn/<isbn>`, plus `/stream` when streaming. |
| AiBot.OnlyTheTruthySelectorCounts | src/services/ai_bot_service.ts:75-90 | An empty other selector is the same as a missing one. |
| AiBot.StreamAddsSuffix | src/services/ai_bot_service.ts:92-94 | Streaming succeeds exactly when plain chat does, and then appends exactly `/stream`. |
| AiBot.ChatUrlsCollide | src/services/ai_bot_service.ts:84-90 | The interactivity id `interactivity_from_isbn` and the ISBN `chat` address the same URL. |
| AiBot.ChatUrlReadBack | src/services/ai_bot_service.ts:84-94 | For slash-free selectors, splitting the path after the prefix gives back the chat segments. |
| AiBot.ChatRequest | src/services/ai_bot_service.ts:110-124 | A POST of the body with a JSON content type to the chat URL. It fails exactly when the URL cannot be built. |
| AiBot.Chat | src/services/ai_bot_service.ts:99-126 | A URL error propagates before anything is sent. Otherwise the call succeeds if and only if the answer to the JSON POST is ok and parses, and then returns the parsed answer. A non-ok status throws the `HTTPError` naming that status, and an unparsable ok answer throws a `SyntaxError`. |
| AiBot.StreamingChat | src/services/ai_bot_service.ts:128-158 | A URL error propagates. A non-ok status throws an `HTTPError`, a non-JSON answer a `SyntaxError`, and a `null` answer a `TypeError`. The call succeeds if and only if the parsed answer is an object whose `body` property is truthy, and then returns that property. Any other parsed answer throws `Response body is null`. |
| AiBot.StreamingReadsChatBody | src/services/ai_bot_service.ts:148-158 | Given the same answer, streaming succeeds only where plain chat does. It returns the `body` property of what plain chat returns. |
| SettingsCommon.IsbnUrl | src/services/user_settings_continue.ts:31 | The per-book URL is `<prefix>/<resource>/isbn/<isbn>`. |
| SettingsCommon.IsbnUrlInjective | src/services/user_settings_clientsettings.ts:89 | Distinct resources or distinct slash-free ISBNs never share a per-book URL. |
| SettingsCommon.UserHeaders | src/services/user_settings_continue.ts:32-38 | `external-user-id` is set if and only if the id is non-empty, `Content-Type` is always JSON, and nothing else is set. |
| SettingsCommon.RecoverNotFound | src/services/user_settings_continue.ts:75-81 | A 404 `HTTPError` becomes the default. Any other failure throws the `HTTPError` class itself, not the caught error. |
| SettingsCommon.GetOrDefault | src/services/user_settings_continue.ts:73-81 | A 404 gives the default. An ok, parsable response gives its body. Every other outcome throws the `HTTPError` class. |
| Bookmarks.BookmarkJsonRoundTrip | src/services/user_settings_bookmarks.ts:40 | The bookmark body reads back as the same page and content ids. |
| Bookmarks.SetBookmarkRequest | src/services/user_settings_bookmarks.ts:32-40 | A PUT to `/bookmark/isbn/<isbn>` with the user headers; the body reads back as the bookmark. |
| Bookmarks.DeleteBookmarkRequest | src/services/user_settings_bookmarks.ts:57-60 | A DELETE to `/bookmark/isbn/<isbn>/page/<pageId>/content/<contentId>`. |
| Bookmarks.DeleteBookmarkReadBack | src/services/user_settings_bookmarks.ts:57 | For a slash-free ISBN, the ISBN, page id and content id can be read back from the delete URL. |
| Bookmarks.GetBookmarkRequest | src/services/user_settings_bookmarks.ts:76-90 | A non-zero page id without an ISBN throws before the prefix is resolved. Otherwise the GET goes to `/bookmark/`, then `isbn/<isbn>` when an ISBN is given, then `/page/<id>` for a non-zero page id. |
| Bookmarks.PageZeroIsAbsent | src/services/user_settings_bookmarks.ts:76-87 | A page id of 0 behaves exactly like none: no error and no `/page/0`. |
| Bookmarks.LookupReadBack | src/services/user_settings_bookmarks.ts:80-87 | The ISBN, and the page id when present, can be read back from a lookup URL. |
| Bookmarks.LookupPathShape | src/services/user_settings_bookmarks.ts:80-87 | Every lookup path starts `/bookmark/`, followed by nothing, `isbn/` or `/`. |
| Bookmarks.GetFavouriteRequest | src/services/user_settings_bookmarks.ts:102-106 | A GET of the constant `/bookmark/favourite`. |
| Bookmarks.FavouriteIsNoLookup | src/services/user_settings_bookmarks.ts:80-102 | No bookmark lookup ever addresses the favourites URL. |
| ContinueReading.SetContinueRequest | src/services/user_settings_continue.ts:28-39 | A PUT to `/continue/isbn/<isbn>` with the user headers and a body of exactly one field, `pageId`. |
| ContinueReading.DeleteContinueRequest | src/services/user_settings_continue.ts:52-55 | A DELETE of the same per-book URL. |
| ContinueReading.GetContinueRequest | src/services/user_settings_continue.ts:69-74 | A GET of the same per-book URL. |
| ContinueReading.OneUrlForAll | src/services/user_settings_continue.ts:31-69 | Set, get and delete address one URL; delete differs from get only in its method. |
| ContinueReading.GetContinue | src/services/user_settings_continue.ts:59-82 | A prefix error propagates, because the prefix is resolved outside the `try`. A 404 gives `{}`. An ok answer that parses is returned as parsed. Any other answer throws the `HTTPError` class. |
| ClientSettings.GetSettingsRequest | src/services/user_settings_clientsettings.ts:89-93 | A GET of `/clientsettings/isbn/<isbn>`. |
| ClientSettings.GetSettings | src/services/user_settings_clientsettings.ts:82-102 | A prefix error propagates. A 404 gives `{settings: {}}`. An ok answer that parses is returned as parsed. Any other answer throws the `HTTPError` class. |
| ClientSettings.SetSettingsRequest | src/services/user_settings_clientsettings.ts:113-122 | A PUT of the settings to the same URL, with only a JSON content type. |
| ClientSettings.DeleteSettingsRequest | src/services/user_settings_clientsettings.ts:133-136 | A DELETE of the same URL. |
| ClientSettings.SettingsAndContinueUrlsDiffer | src/services/user_settings_clientsettings.ts:89 | For a slash-free ISBN, a book's settings URL never equals its continue-reading URL. |
| Quiz.DiscoverUrlPrefix | src/services/quiz_service.ts:381-394 | Production, development/local/testing and test map to their three fixed hosts. Any other environment throws. |
| Quiz.PrefixIgnoresBaseDomain | src/services/quiz_service.ts:381-394 | The base domain plays no part in the quiz host. |
| Quiz.AppendAll | src/services/quiz_service.ts:401-403 | Afterwards, every header name holds its earlier values followed by the entries' values for that name, in entry order. |
| Quiz.MakeHeaders | src/services/quiz_service.ts:396-407 | Every name holds exactly the extra entries' values for it, in order. `Content-Type` additionally holds a leading JSON value. |
| Quiz.MakeHeadersKeepsEverything | src/services/quiz_service.ts:396-407 | Nothing is dropped: the JSON content type comes first, and every extra value is sent under its name. |
| Quiz.SharedNeverOwn | src/services/quiz_service.ts:467-469 | A `/shared/student/...` path never equals an `/isbn/...` path. |
| Quiz.StartQuiz | src/services/quiz_service.ts:444-450 | A POST of `{}` to `/shared/student/<quiz>` when shared, else to `/isbn/<isbn>/quiz/<quiz>`. |
| Quiz.GetProblems | src/services/quiz_service.ts:467-472 | A GET of `/shared/student/<id>` when shared, else of `/isbn/<isbn>/student/<id>`. |
| Quiz.SaveAnswer | src/services/quiz_service.ts:517-528 | A PUT of the answer to the same choice of URL. |
| Quiz.ProblemsAndAnswersShareUrl | src/services/quiz_service.ts:467-519 | Reading problems and saving answers address one URL. |
| Quiz.FinishQuiz | src/services/quiz_service.ts:546-557 | A POST of `{}`. Only the shared URL gains `/finish`. |
| Quiz.FinishSharesUrlOnlyWhenOwn | src/services/quiz_service.ts:546-548 | The non-shared finish posts to the answer URL itself; the shared one posts to the answer URL plus `/finish`. |
| Quiz.GetResults | src/services/quiz_service.ts:575-580 | A GET of `/shared/student/<id>/result` when shared, else of `/isbn/<isbn>/student/overview/<id>`. |
| Quiz.SharedSwitchIsVisible | src/services/quiz_service.ts:575-577 | The shared and per-book URLs of problems, and of results, always differ. |
| Quiz.CopyEditSharedQuiz | src/services/quiz_service.ts:624-641 | One URL, `/shared/quiz/<id>`, and one body. PUT if and only if the action is `edit`; POST otherwise. |
| Quiz.CopyAndEditDifferOnlyInMethod | src/services/quiz_service.ts:624-641 | The edit and copy requests are identical apart from their method. |
| Quiz.ActivateDeactivateQuestion | src/services/quiz_service.ts:693-706 | PATCH with a null body if and only if activating; DELETE otherwise. Both go to `/shared/teacher/quiz/<sid>/question/<qid>`. |
| Quiz.ToggleArchiveQuiz | src/services/quiz_service.ts:766-779 | DELETE if and only if archiving; PATCH with a null body otherwise. Both go to `/shared/quiz/<sid>`. |
| Quiz.SwitchesAreOpposite | src/services/quiz_service.ts:693-779 | For the same flag value, the two switches never choose the same method. |
| Quiz.ArchiveAddressesEditedQuiz | src/services/quiz_service.ts:624-766 | Archiving addresses the very URL that edits and copies of the same session go to. |
| Highlights.NoteTypeNameInjective | src/services/highlight_service.ts:3-6 | The two result types have distinct names. |
| Highlights.DiscoverUrlPrefix | src/services/highlight_service.ts:151-164 | Production, development/local/testing and test map to their three hosts. Any other environment throws. |
| Highlights.AppendOnFreshIsSet | src/services/highlight_service.ts:178-179 | On a fresh header set, `append` and `set` of the content type give the same headers. |
| Highlights.Search | src/services/highlight_service.ts:176-180 | A POST of the query to `/v2/search` with a JSON content type. |
| Highlights.DeleteHighlightOrNote | src/services/highlight_service.ts:198-202 | A DELETE of `/v2/isbn/<isbn>/pid/<pid>/key/<key>` with a JSON content type and no body. |
| Highlights.GetHighlightOrNote | src/services/highlight_service.ts:218-225 | A GET of `/v2/isbn/<isbn>`, plus `/pid/<pid>` for a non-zero pid, with no headers. |
| Highlights.GetHighlightOrNoteCounts | src/services/highlight_service.ts:239-246 | A GET of `/v2/count`, plus `/<type>` when a type is given. |
| Highlights.UpdateHighlightOrNote | src/services/highlight_service.ts:266-270 | A PUT of the payload to the highlight's key URL with a JSON content type. |
| Highlights.AddHighlightOrNote | src/services/highlight_service.ts:288-292 | A POST of the payload to `/v2/isbn/<isbn>/pid/<pid>` with a JSON content type. |
| Highlights.DeleteAddressesUpdated | src/services/highlight_service.ts:198-270 | The delete request is the update request with method DELETE and no body. |
| Highlights.UpdateExtendsAdd | src/services/highlight_service.ts:266-288 | A highlight's URL is its add URL followed by `/key/<key>`. |
| Highlights.GetPageIsAddUrl | src/services/highlight_service.ts:218-288 | Reading one page (non-zero pid) addresses the URL that highlights on that page are added under. |
| Highlights.PageZeroReadsBook | src/services/highlight_service.ts:219-221 | A pid of 0 reads the whole book, exactly as no pid does. |
| Highlights.CountUrlsDistinct | src/services/highlight_service.ts:239-242 | The three count queries (all, highlights, notes) address three different URLs. |
| Highlights.KeyUrlReadBack | src/services/highlight_service.ts:198 | For a slash-free ISBN, the ISBN, pid and key can be read back from a highlight's URL. |

## Left out

- Transport: `fetch`, `AbortSignal.timeout` and the timeout arguments are left out. The network is a function `fetch: Request -> Response`, and a response is a status, a URL and an opaque body.
- Parsing: JSON parsing is a function parameter `parse`.
- Request bodies are JSON values; their serialisation by `JSON.stringify` is not modelled.
- The second `.json()` that many wrappers call on the already-parsed result of `getAsync`/`postAsync`/`deleteAsync` is not modelled. This affects the tagging calls `getTagsByResource`, `getTagsByName`, `createTag`, `updateTag` and `deleteTag`, plus `chat`, the quiz and highlight calls, and `getSettings`. TypeScript rejects the call (`json` does not exist on `object`); the model reads each body once.
- Base64: the folder payload's base64 layer is left out, because it is a bijection on the payload text. The payload itself is a concrete JSON-like codec with a proved round trip. That codec escapes only `"` and `\`.
- Token claims: decoding a token segment (base64, then `JSON.parse`) is the function parameter `claimsOf`. Token signatures are not checked by the library and not modelled.
- `crypto.randomUUID` is a parameter. Freshness (`FreshUuid`) is a precondition of the lemmas that need it.
- Numbers are integers only; fractional page ids, quiz ids and keys are not modelled. `IntToString` writes every integer in plain decimal, whereas JavaScript's number-to-string switches to exponent form from 10^21 and is inexact above 2^53.
- Http.Headers: names are compared exactly. The case-insensitive name matching of the Fetch Standard, and the joining of values with `, `, are not modelled.
- Quiz.MakeHeaders: the extra entries are taken in the order `Object.entries` yields them. JavaScript's reordering of integer-like keys is not modelled.
- Tagging.Select: `getTagsByValue` does not exist in the tagging service, and `getTagsByName` is called without its tag name. The folder layer's lookups are therefore the abstract selectors `FolderNamed`, `FolderListing` and `TaggedWith`. These stand for "folder tags with this UUID", "folder tags with this value, or all folder tags" and "tags with this value".
- Tagging.DeleteTag: how the server reads a delete path is an assumption. Its segments are taken positionally as type, name and tag name.
- Tagging.Select: each stored tag is taken to be listed once, in store order.
- `TagOutput.created_at` is not modelled: no property depends on it.
- Concurrency is not modelled, and neither is the window between the delete and the create in `updateFolder`, nor lost updates.
- UserFolders.UpdateFolder: a transport failure between its delete and its create (which would lose the folder) is not modelled.
- UserFolders: the folder operations are modelled as if each tagging call returned its parsed body. As written, the second `.json()` makes `createFolder`, `addContentToFolder`, `deleteFolder` and `deleteAllFolders` throw after their write has reached the store. `updateFolder`, `listFolders` and `getFolderContent` throw before any write.
- Tagging.CreateTag: the store is assumed to accept every write. Conflicts (a tag whose identity, type and name already exist) and other non-2xx answers to a write are not modelled, and writing a tag already present leaves the store unchanged.
- FolderPayload.Decode: this is the inverse of `Encode`, not a general `JSON.parse`. It rejects valid JSON that `Encode` does not write: the other key order, whitespace, and missing or extra fields. The source would list such a folder, with `undefined` for a missing field. It also reads any escape `\X` as the character `X`, so `\n` is not a newline. The properties built on it (`UserFolders.ListedFolder`, `UserFolders.DecodeFolders`, `UserFolders.DecodeItems`, `UserFolders.ListFolders`, `UserFolders.GetFolderContent`) hold for payloads this library writes.
- UserFolders.GetIdentity: the never-assigned `identity` cache is not modelled as state, since every call derives the identity afresh.
- The user-settings URL prefix is taken as a parameter: the resolved prefix, or the error resolving it threw. `UserSettingsBase` and its environment table are not part of this model.
- Quiz.ActivateDeactivateQuestion: `BaseService` has no `patchAsync`, though the quiz service calls it. PATCH is modelled as the call evidently intended, with a null body.
- Quiz.ToggleArchiveQuiz: its PATCH branch is modelled in the same way.
- Quiz operations with fixed routes and no branching are not modelled: `checkActiveSession`, `resetAnswer`, `createSharedQuiz`, `getTeachersQuizProblems`, `getTeachersUnitOverview`, `getTeachersQuizzes`, `getStudentsQuizzes`, `getTeachersQuiz`, `deleteSharedQuizUnit`.
- The services that only look up constants are not modelled: `PollyService`, `CookieConsentLog`, `PdfGenerator`, `WritingTaskService`, `SolrProxyService`, `UserSettings`, `UserSettingsBase` and `UserSettingsMru`. Each is an environment table plus fixed-URL requests with no decision logic.
- Interface and type declarations are not modelled, and neither are the re-exports in `src/index.ts`.
- Quiz: a missing `shared` flag is modelled as `false`, the value it takes in every branch.
- Highlights: the count query's type is the `HighlightResultType` enum. Strings outside it are not modelled.
