/**
  `UserFolders`: a tree of named, coloured folders, and the content filed in
  them, kept in the flat tag store.

  Encoding, as the code writes it:
  - a folder is one tag with resource type `myaccount_user_folder`, resource
    name a fresh UUID, tag name the payload `{folder, color}` and tag value
    the parent's UUID, or `-` at the root;
  - a content item is one tag with the content's own resource type and name,
    tag name `MYACCOUNT_USER_FOLDER` and tag value the folder's UUID.
  Child folders and content therefore share the tag-value key space, and only
  the resource type tells them apart.

  Every operation takes the store it acts on and returns the store after it
  together with its result; a failed operation returns the store unchanged.
  `crypto.randomUUID` is a parameter, and the reading of token claims
  (base64 and `JSON.parse` of the token's middle segment) is the session's
  `claimsOf` function.
 */
module UserFolders {
  import opened Common
  import opened Http
  import opened Tagging
  import opened FolderPayload

  const FolderType := "myaccount_user_folder"
  const RootSentinel := "-"
  const ContentMarker := "MYACCOUNT_USER_FOLDER"
  const InternetbookType := "internetbook"
  const NoTokenMessage := "The UserFolders service must be invoked with a valid bearer token"

  /** The two claims of the token payload the identity is made of. */
  datatype Claims = Claims(authns: string, user: string)

  /** A `UserFolders` object: its configuration and how it reads a token segment's claims. */
  datatype Session = Session(config: Config, claimsOf: string -> Option<Claims>)

  /** A folder as the service reports it. `color` is absent from what create and update return. */
  datatype Folder = Folder(uuid: string, name: string, color: Option<string>, parent: Option<string>)

  /** A non-folder resource filed in a folder. */
  datatype FolderContent = FolderContent(contentType: string, identifier: string, folderUuid: string)

  /** One entry of a folder's content: a child folder or a content item. */
  datatype Item = FolderItem(folder: Folder) | ContentItem(content: FolderContent)

  /** The store after an operation, and what the operation returned or threw. */
  datatype Step<T> = Step(store: Store, result: Result<T, Error>)

  // -----------------------------------------------------------------------
  // Identity
  // -----------------------------------------------------------------------

  /**
    `getIdentity`. The `identity` cache field is never assigned, so every
    call derives the identity afresh from the bearer token.
   */
  function GetIdentity(config: Config, claimsOf: string -> Option<Claims>): (r: Result<string, Error>)
    ensures !Truthy(config.bearerToken) ==> r == Failure(Thrown(NoTokenMessage))
    ensures Truthy(config.bearerToken) && |Split(config.bearerToken.value, '.')| < 2 ==> r == Failure(TypeError)
    ensures r.Success? ==>
      var parts := Split(config.bearerToken.value, '.');
      |parts| >= 2 && claimsOf(parts[1]).Some?
      && r.value == "user_" + claimsOf(parts[1]).value.authns + "_" + claimsOf(parts[1]).value.user
  {
    if Truthy(config.bearerToken) then
      var parts := Split(config.bearerToken.value, '.');
      if |parts| < 2 then Failure(TypeError)
      else match claimsOf(parts[1])
        case None => Failure(SyntaxError)
        case Some(claims) => Success("user_" + claims.authns + "_" + claims.user)
    else
      Failure(Thrown(NoTokenMessage))
  }

  /**
    The claims come from the text between the token's first and second dot,
    whatever follows the second dot.
   */
  lemma {:induction false} IdentityFromMiddleSegment(
    config: Config, claimsOf: string -> Option<Claims>, head: string, middle: string, tail: string)
    requires config.bearerToken == Some(head + "." + middle + tail)
    requires '.' !in head && '.' !in middle
    requires tail == "" || tail[0] == '.'
    ensures GetIdentity(config, claimsOf) ==
      match claimsOf(middle)
      case None => Failure(SyntaxError)
      case Some(c) => Success("user_" + c.authns + "_" + c.user)
  {
    MiddleOfToken(head, middle, tail);
    assert head + "." + middle + tail != "";
  }

  /** Splitting a token on dots puts the text between the first two dots second. */
  lemma MiddleOfToken(head: string, middle: string, tail: string)
    requires '.' !in head && '.' !in middle
    requires tail == "" || tail[0] == '.'
    ensures var parts := Split(head + "." + middle + tail, '.');
      |parts| >= 2 && parts[1] == middle
  {
    var token := head + "." + middle + tail;
    if tail == "" {
      assert token == head + "." + middle;
      SplitTwo(head, middle, token);
    } else {
      var rest := tail[1..];
      assert tail == "." + rest;
      assert token == head + "." + middle + "." + rest;
      SplitMore(head, middle, rest, token);
    }
  }

  lemma SplitTwo(head: string, middle: string, token: string)
    requires '.' !in head && '.' !in middle
    requires token == head + "." + middle
    ensures Split(token, '.') == [head, middle]
  {
    var parts := [head, middle];
    assert parts[1..] == [middle];
    assert Join(parts, '.') == head + "." + middle;
    SplitJoin(parts, '.');
  }

  lemma SplitMore(head: string, middle: string, rest: string, token: string)
    requires '.' !in head && '.' !in middle
    requires token == head + "." + middle + "." + rest
    ensures var parts := Split(token, '.');
      |parts| >= 2 && parts[1] == middle
  {
    var more := Split(rest, '.');
    JoinSplit(rest, '.');
    var parts := [head, middle] + more;
    assert parts[1..] == [middle] + more;
    assert ([middle] + more)[1..] == more;
    assert Join([middle] + more, '.') == middle + "." + rest;
    assert Join(parts, '.') == head + "." + (middle + "." + rest);
    assert forall i :: 0 <= i < |parts| ==> '.' !in parts[i] by {
      forall i | 0 <= i < |parts| ensures '.' !in parts[i] {
        if i >= 2 { assert parts[i] == more[i - 2]; }
      }
    }
    SplitJoin(parts, '.');
    assert head + "." + (middle + "." + rest) == head + "." + middle + "." + rest;
    assert Split(token, '.') == parts;
  }

  /** Every folder operation first derives the identity, then resolves the tagging URL prefix. */
  function Begin(session: Session): (r: Result<string, Error>)
    ensures r.Success? <==>
      GetIdentity(session.config, session.claimsOf).Success?
      && GetUrlPrefix(session.config, Tagging.DiscoverUrlPrefix).Success?
    ensures r.Success? ==> r.value == GetIdentity(session.config, session.claimsOf).value
  {
    var identity :- GetIdentity(session.config, session.claimsOf);
    var _ :- GetUrlPrefix(session.config, Tagging.DiscoverUrlPrefix);
    Success(identity)
  }

  // -----------------------------------------------------------------------
  // Decoding tags into folders and content
  // -----------------------------------------------------------------------

  predicate IsFolderTag(t: Tag) {
    t.resourceType == FolderType
  }

  /** The tag `createFolder` writes. */
  function FolderTag(identity: string, uuid: string, p: Payload, parent: Option<string>): Tag {
    Tag(identity, FolderType, uuid, Encode(p), Coalesce(parent, RootSentinel))
  }

  /** How `listFolders` reads one folder tag: the root sentinel reads as no parent. */
  function ListedFolder(t: Tag): (r: Result<Folder, Error>)
    ensures r.Success? <==> Decode(t.tagName).Some?
    ensures r.Success? ==>
      && r.value.uuid == t.resourceName
      && r.value.color.Some?
      && Decode(t.tagName) == Some(Payload(r.value.name, r.value.color.value))
      && (r.value.parent.None? <==> t.tagValue == RootSentinel)
      && (r.value.parent.Some? ==> r.value.parent.value == t.tagValue)
  {
    match Decode(t.tagName)
    case None => Failure(SyntaxError)
    case Some(p) =>
      Success(Folder(t.resourceName, p.folder, Some(p.color), if t.tagValue == RootSentinel then None else Some(t.tagValue)))
  }

  /** How `getFolderContent` reads one tag: by its resource type alone. */
  function ContentOf(t: Tag): Result<Item, Error> {
    if IsFolderTag(t) then
      match Decode(t.tagName)
      case None => Failure(SyntaxError)
      case Some(p) => Success(FolderItem(Folder(t.resourceName, p.folder, Some(p.color), Some(t.tagValue))))
    else
      Success(ContentItem(FolderContent(t.resourceType, t.resourceName, t.tagValue)))
  }

  /**
    The discrimination rule: an item is a folder exactly when its tag has the
    folder resource type; otherwise its fields are the tag's type, name and value.
   */
  predicate ItemOf(t: Tag, item: Item) {
    && (item.FolderItem? <==> IsFolderTag(t))
    && (item.ContentItem? ==> item.content == FolderContent(t.resourceType, t.resourceName, t.tagValue))
    && (item.FolderItem? ==>
          item.folder.uuid == t.resourceName && item.folder.parent == Some(t.tagValue)
          && item.folder.color.Some?
          && Decode(t.tagName) == Some(Payload(item.folder.name, item.folder.color.value)))
  }

  predicate PayloadReadable(t: Tag) {
    Decode(t.tagName).Some?
  }

  /** The folder tags of a listing, decoded one by one; one undecodable payload fails the whole listing. */
  function DecodeFolders(tags: seq<Tag>): (r: Result<seq<Folder>, Error>)
    ensures r.Success? <==> forall i :: 0 <= i < |tags| ==> PayloadReadable(tags[i])
    ensures r.Success? ==>
      && |r.value| == |tags|
      && forall i :: 0 <= i < |tags| ==> ListedFolder(tags[i]) == Success(r.value[i])
  {
    if |tags| == 0 then Success([])
    else
      match ListedFolder(tags[0])
      case Failure(e) => Failure(e)
      case Success(f) =>
        match DecodeFolders(tags[1..])
        case Failure(e) => Failure(e)
        case Success(rest) => Success([f] + rest)
  }

  /** The tags of a content listing, decoded one by one, in the same order. */
  function DecodeItems(tags: seq<Tag>): (r: Result<seq<Item>, Error>)
    ensures r.Success? <==> forall i :: 0 <= i < |tags| ==> IsFolderTag(tags[i]) ==> PayloadReadable(tags[i])
    ensures r.Success? ==>
      && |r.value| == |tags|
      && forall i :: 0 <= i < |tags| ==> ItemOf(tags[i], r.value[i])
  {
    if |tags| == 0 then Success([])
    else
      match ContentOf(tags[0])
      case Failure(e) => Failure(e)
      case Success(item) =>
        match DecodeItems(tags[1..])
        case Failure(e) => Failure(e)
        case Success(rest) => Success([item] + rest)
  }

  // -----------------------------------------------------------------------
  // Selectors standing for the lookups the folder layer issues
  // -----------------------------------------------------------------------

  /** "The folder tags with this resource name" (the lookup at the start of `updateFolder`). */
  function FolderNamed(identity: string, uuid: string): Selector {
    Selector(identity, Some(FolderType), Some(uuid), None, None)
  }

  /** "The folder tags under this parent", or "all folder tags" without a usable parent (`listFolders`). */
  function FolderListing(identity: string, parent: Option<string>): Selector {
    if Truthy(parent) then Selector(identity, Some(FolderType), None, None, Some(parent.value))
    else Selector(identity, Some(FolderType), None, None, None)
  }

  /** "Every tag whose value is this UUID", folders and content alike (`getFolderContent`). */
  function TaggedWith(identity: string, uuid: string): Selector {
    Selector(identity, None, None, None, Some(uuid))
  }

  // -----------------------------------------------------------------------
  // Operations
  // -----------------------------------------------------------------------

  /** `createFolder`, with `uuid` standing for the fresh `crypto.randomUUID()`. */
  function CreateFolder(
    session: Session, s: Store, name: string, color: string, parent: Option<string>, uuid: string): (r: Step<Folder>)
    ensures Begin(session).Failure? ==> r == Step(s, Failure(Begin(session).error))
    ensures Begin(session).Success? ==>
      var t := FolderTag(Begin(session).value, uuid, Payload(name, color), parent);
      && r.result == Success(Folder(uuid, name, None, parent))
      && (forall u :: u in r.store <==> u in s || u == t)
      && (t !in s ==> r.store == s + [t])
      && t.identity == Begin(session).value && IsFolderTag(t) && t.resourceName == uuid
      && (parent.None? ==> t.tagValue == RootSentinel)
      && (parent.Some? ==> t.tagValue == parent.value)
      && ListedFolder(t) == Success(Folder(uuid, name, Some(color), if t.tagValue == RootSentinel then None else parent))
  {
    match Begin(session)
    case Failure(e) => Step(s, Failure(e))
    case Success(identity) =>
      var t := FolderTag(identity, uuid, Payload(name, color), parent);
      DecodeEncode(Payload(name, color));
      Step(CreateTag(s, t), Success(Folder(uuid, name, None, parent)))
  }

  /**
    `updateFolder`: look the folder up, merge the supplied name and color
    into its decoded payload, delete its tag and write a new one. The new tag
    carries the previous tag value, so the folder never moves, while the reported
    parent is the supplied one when given.
   */
  function UpdateFolder(
    session: Session, s: Store, uuid: string,
    name: Option<string>, color: Option<string>, parent: Option<string>): (r: Step<Folder>)
    ensures r.result.Failure? ==> r.store == s
    ensures r.result.Success? ==>
      && Begin(session).Success?
      && |Select(s, FolderNamed(Begin(session).value, uuid))| > 0
      && Decode(Select(s, FolderNamed(Begin(session).value, uuid))[0].tagName).Some?
    ensures Begin(session).Success? && Select(s, FolderNamed(Begin(session).value, uuid)) == [] ==>
      r.result == Failure(Thrown("Folder with UUID " + uuid + " not found"))
    ensures r.result.Success? ==>
      var identity := Begin(session).value;
      var prior := Select(s, FolderNamed(identity, uuid))[0];
      var oldPayload := Decode(prior.tagName).value;
      var newPayload := Payload(Coalesce(name, oldPayload.folder), Coalesce(color, oldPayload.color));
      var t := Tag(identity, FolderType, uuid, Encode(newPayload), prior.tagValue);
      && Select(r.store, FolderNamed(identity, uuid)) == [t]
      && r.result.value == Folder(uuid, newPayload.folder, None, Some(Coalesce(parent, prior.tagValue)))
      && (uuid != "" ==> forall u :: u in r.store <==> (u in s && !Matches(u, FolderNamed(identity, uuid))) || u == t)
  {
    match Begin(session)
    case Failure(e) => Step(s, Failure(e))
    case Success(identity) =>
      var found := Select(s, FolderNamed(identity, uuid));
      if |found| == 0 then Step(s, Failure(Thrown("Folder with UUID " + uuid + " not found")))
      else
        var prior := found[0];
        match Decode(prior.tagName)
        case None => Step(s, Failure(SyntaxError))
        case Some(oldPayload) =>
          var newPayload := Payload(Coalesce(name, oldPayload.folder), Coalesce(color, oldPayload.color));
          var newParent := Coalesce(parent, prior.tagValue);
          var t := Tag(identity, FolderType, uuid, Encode(newPayload), prior.tagValue);
          var afterDelete := DeleteTag(s, identity, Some(FolderType), Some(uuid), None);
          UpdateLeavesOneTag(s, identity, uuid, t);
          Step(CreateTag(afterDelete, t), Success(Folder(uuid, newPayload.folder, None, Some(newParent))))
  }

  /** Deleting a folder's tags and writing one back leaves exactly that one tag under its UUID. */
  lemma UpdateLeavesOneTag(s: Store, identity: string, uuid: string, t: Tag)
    requires Matches(t, FolderNamed(identity, uuid))
    ensures var after := CreateTag(DeleteTag(s, identity, Some(FolderType), Some(uuid), None), t);
      Select(after, FolderNamed(identity, uuid)) == [t]
  {
    var sent := SentSelector(identity, Some(FolderType), Some(uuid), None);
    Present3(Some(FolderType), Some(uuid), None);
    var afterDelete := DeleteTag(s, identity, Some(FolderType), Some(uuid), None);
    assert afterDelete == Remove(s, sent);
    assert Matches(t, sent);
    assert t !in afterDelete;
    assert Select(afterDelete, FolderNamed(identity, uuid)) == [] by {
      var sel := Select(afterDelete, FolderNamed(identity, uuid));
      if |sel| > 0 {
        assert sel[0] in sel;
        assert Matches(sel[0], sent);
        assert false;
      }
    }
    SelectAppend(afterDelete, [t], FolderNamed(identity, uuid));
    assert Select([t], FolderNamed(identity, uuid)) == [t] by {
      assert [t][1..] == [];
    }
  }

  /** Every tag of a successful listing yields its folder in the result. */
  lemma FoldersCover(listing: seq<Tag>, folders: seq<Folder>)
    requires DecodeFolders(listing) == Success(folders)
    ensures forall t :: t in listing ==> ListedFolder(t).Success? && ListedFolder(t).value in folders
    ensures forall f :: f in folders ==> exists t :: t in listing && ListedFolder(t) == Success(f)
  {
    forall t | t in listing ensures ListedFolder(t).Success? && ListedFolder(t).value in folders {
      var i :| 0 <= i < |listing| && listing[i] == t;
      assert ListedFolder(listing[i]) == Success(folders[i]);
    }
    forall f | f in folders ensures exists t :: t in listing && ListedFolder(t) == Success(f) {
      var i :| 0 <= i < |folders| && folders[i] == f;
      assert ListedFolder(listing[i]) == Success(f);
    }
  }

  /** A listing decodes exactly when every tag in it holds a readable payload. */
  lemma FoldersDecodeWhenReadable(listing: seq<Tag>)
    ensures DecodeFolders(listing).Success? <==> forall t :: t in listing ==> PayloadReadable(t)
  {
    if !DecodeFolders(listing).Success? {
      var i :| 0 <= i < |listing| && !PayloadReadable(listing[i]);
      assert listing[i] in listing;
    }
  }

  /** `listFolders`: the children of a truthy parent UUID, otherwise every folder. */
  function ListFolders(session: Session, s: Store, parent: Option<string>): (r: Result<seq<Folder>, Error>)
    ensures Begin(session).Failure? ==> r == Failure(Begin(session).error)
    ensures Begin(session).Success? ==>
      (r.Success? <==> forall t :: t in Select(s, FolderListing(Begin(session).value, parent)) ==> PayloadReadable(t))
    ensures r.Success? ==> Begin(session).Success?
    ensures r.Success? ==> forall t ::
      t in s && Matches(t, FolderListing(Begin(session).value, parent))
      ==> ListedFolder(t).Success? && ListedFolder(t).value in r.value
    ensures r.Success? ==> forall f :: f in r.value ==>
      exists t :: t in s && Matches(t, FolderListing(Begin(session).value, parent)) && ListedFolder(t) == Success(f)
  {
    var identity :- Begin(session);
    var listing := Select(s, FolderListing(identity, parent));
    FoldersDecodeWhenReadable(listing);
    var r := DecodeFolders(listing);
    if r.Success? then FoldersCover(listing, r.value); r else r
  }

  /** Every non-folder tag of a successful content listing yields its content item. */
  lemma ItemsCover(tags: seq<Tag>, items: seq<Item>)
    requires DecodeItems(tags) == Success(items)
    ensures forall t :: t in tags && !IsFolderTag(t) ==>
      ContentItem(FolderContent(t.resourceType, t.resourceName, t.tagValue)) in items
  {
    forall t | t in tags && !IsFolderTag(t)
      ensures ContentItem(FolderContent(t.resourceType, t.resourceName, t.tagValue)) in items
    {
      var i :| 0 <= i < |tags| && tags[i] == t;
      assert ItemOf(tags[i], items[i]);
    }
  }

  /** A content listing decodes exactly when every folder tag in it holds a readable payload. */
  lemma ItemsDecodeWhenReadable(tags: seq<Tag>)
    ensures DecodeItems(tags).Success? <==> forall t :: t in tags && IsFolderTag(t) ==> PayloadReadable(t)
  {
    if !DecodeItems(tags).Success? {
      var i :| 0 <= i < |tags| && IsFolderTag(tags[i]) && !PayloadReadable(tags[i]);
      assert tags[i] in tags;
    }
  }

  /**
    `getFolderContent`: every tag whose value is the folder's UUID, one item
    per tag in the order the store lists them, told apart by resource type.
   */
  function GetFolderContent(session: Session, s: Store, folderUuid: string): (r: Result<seq<Item>, Error>)
    ensures Begin(session).Failure? ==> r == Failure(Begin(session).error)
    ensures r.Success? ==> Begin(session).Success?
    ensures r.Success? ==>
      var tags := Select(s, TaggedWith(Begin(session).value, folderUuid));
      |r.value| == |tags| && forall i :: 0 <= i < |tags| ==> ItemOf(tags[i], r.value[i])
    ensures r.Success? ==> forall t ::
      t in s && t.identity == Begin(session).value && t.tagValue == folderUuid && !IsFolderTag(t)
      ==> ContentItem(FolderContent(t.resourceType, t.resourceName, folderUuid)) in r.value
    ensures Begin(session).Success? ==>
      (r.Success? <==> forall t :: t in s && Matches(t, TaggedWith(Begin(session).value, folderUuid)) && IsFolderTag(t) ==> PayloadReadable(t))
  {
    var identity :- Begin(session);
    var tags := Select(s, TaggedWith(identity, folderUuid));
    ItemsDecodeWhenReadable(tags);
    var r := DecodeItems(tags);
    if r.Success? then ItemsCover(tags, r.value); r else r
  }

  /** `addContentToFolder`: one content tag pointing at the folder. */
  function AddContentToFolder(
    session: Session, s: Store, folderUuid: string, resourceType: string, resourceName: string): (r: Step<FolderContent>)
    ensures Begin(session).Failure? ==> r == Step(s, Failure(Begin(session).error))
    ensures Begin(session).Success? ==>
      && r.result == Success(FolderContent(resourceType, resourceName, folderUuid))
      && forall u :: u in r.store <==>
           u in s || u == Tag(Begin(session).value, resourceType, resourceName, ContentMarker, folderUuid)
  {
    match Begin(session)
    case Failure(e) => Step(s, Failure(e))
    case Success(identity) =>
      Step(CreateTag(s, Tag(identity, resourceType, resourceName, ContentMarker, folderUuid)),
           Success(FolderContent(resourceType, resourceName, folderUuid)))
  }

  /** `addInternetbookToFolder`: content of type `internetbook` named by its ISBN. */
  function AddInternetbookToFolder(session: Session, s: Store, folderUuid: string, isbn: string): (r: Step<FolderContent>)
    ensures r == AddContentToFolder(session, s, folderUuid, InternetbookType, isbn)
    ensures r.result.Success? ==> r.result.value == FolderContent("internetbook", isbn, folderUuid)
  {
    AddContentToFolder(session, s, folderUuid, InternetbookType, isbn)
  }

  /**
    `deleteFolder`: removes the folder's own tag and nothing else; children
    and content stay behind. An empty UUID drops out of the delete path, which
    then names every folder of the identity.
   */
  function DeleteFolder(session: Session, s: Store, uuid: string): (r: Step<()>)
    ensures Begin(session).Failure? ==> r == Step(s, Failure(Begin(session).error))
    ensures Begin(session).Success? ==> r.result.Success?
    ensures forall t :: t in s && !IsFolderTag(t) ==> t in r.store
    ensures forall t :: t in r.store ==> t in s
    ensures Begin(session).Success? && uuid != "" ==>
      forall t :: t in r.store <==> t in s && !Matches(t, FolderNamed(Begin(session).value, uuid))
  {
    match Begin(session)
    case Failure(e) => Step(s, Failure(e))
    case Success(identity) =>
      Step(DeleteTag(s, identity, Some(FolderType), Some(uuid), None), Success(()))
  }

  /** `deleteAllFolders`: every folder tag of the identity goes; content tags stay. */
  function DeleteAllFolders(session: Session, s: Store): (r: Step<()>)
    ensures Begin(session).Failure? ==> r == Step(s, Failure(Begin(session).error))
    ensures Begin(session).Success? ==>
      && r.result.Success?
      && forall t :: t in r.store <==> t in s && !(t.identity == Begin(session).value && IsFolderTag(t))
  {
    match Begin(session)
    case Failure(e) => Step(s, Failure(e))
    case Success(identity) =>
      Step(DeleteTag(s, identity, Some(FolderType), None, None), Success(()))
  }
}
