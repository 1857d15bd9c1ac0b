/**
  Properties that relate several folder operations: what a listing shows
  after a create or an update, what survives a delete, and the store
  invariant the operations keep.
 */
module FolderProperties {
  import opened Common
  import opened Http
  import opened Tagging
  import opened FolderPayload
  import opened UserFolders

  /** Every folder tag in the store holds a payload `listFolders` can read. */
  predicate FolderTagsReadable(s: Store) {
    forall t :: t in s && IsFolderTag(t) ==> PayloadReadable(t)
  }

  /** An identity has at most one folder tag per UUID. */
  predicate OneTagPerFolder(s: Store) {
    forall t, u ::
      (t in s && u in s && IsFolderTag(t) && IsFolderTag(u)
       && t.identity == u.identity && t.resourceName == u.resourceName) ==> t == u
  }

  /** The shape of the store the folder operations maintain. */
  predicate Valid(s: Store) {
    NoDuplicates(s) && FolderTagsReadable(s) && OneTagPerFolder(s)
  }

  /** `uuid` names no folder of the identity yet: what `crypto.randomUUID` is taken to deliver. */
  predicate FreshUuid(s: Store, identity: string, uuid: string) {
    forall t :: t in s && t.identity == identity && IsFolderTag(t) ==> t.resourceName != uuid
  }

  // -----------------------------------------------------------------------
  // Round trips through the listings
  // -----------------------------------------------------------------------

  /**
    A folder created under parent P is listed by `listFolders(P)` with the
    same name and color and parent P; the root sentinel never shows.
   */
  lemma CreateThenList(session: Session, s: Store, name: string, color: string, parent: Option<string>, uuid: string)
    requires Begin(session).Success?
    requires FolderTagsReadable(s)
    requires parent != Some(RootSentinel)
    ensures var after := CreateFolder(session, s, name, color, parent, uuid).store;
      && ListFolders(session, after, parent).Success?
      && Folder(uuid, name, Some(color), parent) in ListFolders(session, after, parent).value
  {
    var identity := Begin(session).value;
    var t := FolderTag(identity, uuid, Payload(name, color), parent);
    var after := CreateFolder(session, s, name, color, parent, uuid).store;
    CreateKeepsReadable(session, s, name, color, parent, uuid);
    assert Matches(t, FolderListing(identity, parent));
    ListingOfReadableStore(session, after, parent);
  }

  /** A folder created at the root is listed under the root sentinel, with no parent. */
  lemma CreateAtRootThenListRoot(session: Session, s: Store, name: string, color: string, uuid: string)
    requires Begin(session).Success?
    requires FolderTagsReadable(s)
    ensures var after := CreateFolder(session, s, name, color, None, uuid).store;
      && ListFolders(session, after, Some(RootSentinel)).Success?
      && Folder(uuid, name, Some(color), None) in ListFolders(session, after, Some(RootSentinel)).value
  {
    var identity := Begin(session).value;
    var t := FolderTag(identity, uuid, Payload(name, color), None);
    var after := CreateFolder(session, s, name, color, None, uuid).store;
    CreateKeepsReadable(session, s, name, color, None, uuid);
    assert Matches(t, FolderListing(identity, Some(RootSentinel)));
    ListingOfReadableStore(session, after, Some(RootSentinel));
  }

  /** Listing children of a real parent UUID reports only folders with that parent. */
  lemma ListedChildrenHaveParent(session: Session, s: Store, p: string)
    requires p != "" && p != RootSentinel
    requires ListFolders(session, s, Some(p)).Success?
    ensures forall f :: f in ListFolders(session, s, Some(p)).value ==> f.parent == Some(p)
  {
    var identity := Begin(session).value;
    forall f | f in ListFolders(session, s, Some(p)).value ensures f.parent == Some(p) {
      var t :| t in s && Matches(t, FolderListing(identity, Some(p))) && ListedFolder(t) == Success(f);
      assert t.tagValue == p;
    }
  }

  /** In a readable store every listing succeeds. */
  lemma ListingOfReadableStore(session: Session, s: Store, parent: Option<string>)
    requires Begin(session).Success?
    requires FolderTagsReadable(s)
    ensures ListFolders(session, s, parent).Success?
  {
    var sel := FolderListing(Begin(session).value, parent);
    forall t | t in Select(s, sel) ensures PayloadReadable(t) {
      assert t in s && Matches(t, sel);
    }
  }

  /**
    After an update the folder is listed under the parent it had before,
    with the supplied name and color, or the previous ones where none were
    supplied.
   */
  lemma UpdateThenList(
    session: Session, s: Store, uuid: string, name: Option<string>, color: Option<string>, parent: Option<string>)
    requires FolderTagsReadable(s)
    requires UpdateFolder(session, s, uuid, name, color, parent).result.Success?
    ensures var identity := Begin(session).value;
      var prior := Select(s, FolderNamed(identity, uuid))[0];
      var oldPayload := Decode(prior.tagName).value;
      var after := UpdateFolder(session, s, uuid, name, color, parent).store;
      var listed := ListFolders(session, after, Some(prior.tagValue));
      && listed.Success?
      && Folder(uuid, Coalesce(name, oldPayload.folder), Some(Coalesce(color, oldPayload.color)),
                if prior.tagValue == RootSentinel then None else Some(prior.tagValue)) in listed.value
  {
    var identity := Begin(session).value;
    var prior := Select(s, FolderNamed(identity, uuid))[0];
    var oldPayload := Decode(prior.tagName).value;
    var newPayload := Payload(Coalesce(name, oldPayload.folder), Coalesce(color, oldPayload.color));
    var t := Tag(identity, FolderType, uuid, Encode(newPayload), prior.tagValue);
    var after := UpdateFolder(session, s, uuid, name, color, parent).store;
    UpdateKeepsReadable(session, s, uuid, name, color, parent);
    assert t in Select(after, FolderNamed(identity, uuid));
    DecodeEncode(newPayload);
    ListedIfStored(session, after, Some(prior.tagValue), t);
  }

  /** A folder tag that matches a listing's selector is listed, decoded. */
  lemma ListedIfStored(session: Session, s: Store, parent: Option<string>, t: Tag)
    requires Begin(session).Success?
    requires FolderTagsReadable(s)
    requires t in s && t.identity == Begin(session).value && IsFolderTag(t)
    requires Truthy(parent) ==> t.tagValue == parent.value
    ensures ListFolders(session, s, parent).Success?
    ensures ListedFolder(t).Success? && ListedFolder(t).value in ListFolders(session, s, parent).value
  {
    ListingOfReadableStore(session, s, parent);
    assert Matches(t, FolderListing(Begin(session).value, parent));
  }

  /**
    The stored parent link does not depend on the parent argument of an
    update; only the reported parent does.
   */
  lemma UpdateIgnoresParentArgument(
    session: Session, s: Store, uuid: string, name: Option<string>, color: Option<string>,
    p: Option<string>, q: Option<string>)
    ensures UpdateFolder(session, s, uuid, name, color, p).store == UpdateFolder(session, s, uuid, name, color, q).store
    ensures UpdateFolder(session, s, uuid, name, color, p).result.Success? ==>
      UpdateFolder(session, s, uuid, name, color, q).result.Success?
  {
  }

  /**
    So an update given a new parent reports that parent although the folder
    stays under the old one.
   */
  lemma UpdateReportsUnstoredParent(
    session: Session, s: Store, uuid: string, name: Option<string>, color: Option<string>, p: string)
    requires UpdateFolder(session, s, uuid, name, color, Some(p)).result.Success?
    requires p != Select(s, FolderNamed(Begin(session).value, uuid))[0].tagValue
    ensures var r := UpdateFolder(session, s, uuid, name, color, Some(p));
      var stored := Select(r.store, FolderNamed(Begin(session).value, uuid));
      |stored| == 1 && r.result.value.parent == Some(p) && stored[0].tagValue != p
  {
  }

  // -----------------------------------------------------------------------
  // Content
  // -----------------------------------------------------------------------

  /** Content added to a folder shows up in that folder's content listing. */
  lemma AddedContentIsListed(
    session: Session, s: Store, folderUuid: string, resourceType: string, resourceName: string)
    requires Begin(session).Success?
    requires FolderTagsReadable(s)
    requires resourceType != FolderType
    ensures var after := AddContentToFolder(session, s, folderUuid, resourceType, resourceName).store;
      && GetFolderContent(session, after, folderUuid).Success?
      && ContentItem(FolderContent(resourceType, resourceName, folderUuid)) in GetFolderContent(session, after, folderUuid).value
  {
    var after := AddContentToFolder(session, s, folderUuid, resourceType, resourceName).store;
    AddContentKeepsReadable(session, s, folderUuid, resourceType, resourceName);
    ContentOfReadableStore(session, after, folderUuid);
  }

  /** In a readable store every content listing succeeds. */
  lemma ContentOfReadableStore(session: Session, s: Store, folderUuid: string)
    requires Begin(session).Success?
    requires FolderTagsReadable(s)
    ensures GetFolderContent(session, s, folderUuid).Success?
  {
  }

  /**
    Filing content under the folder resource type breaks every listing that
    meets it: its tag name is not a folder payload.
   */
  lemma FolderTypedContentBreaksListing(session: Session, s: Store, folderUuid: string, resourceName: string)
    requires Begin(session).Success?
    ensures var after := AddContentToFolder(session, s, folderUuid, FolderType, resourceName).store;
      ListFolders(session, after, None).Failure?
  {
    var identity := Begin(session).value;
    var t := Tag(identity, FolderType, resourceName, ContentMarker, folderUuid);
    var after := AddContentToFolder(session, s, folderUuid, FolderType, resourceName).store;
    assert ContentMarker[0] != Opening[0];
    assert Decode(ContentMarker).None?;
    assert t in Select(after, FolderListing(identity, None));
  }

  // -----------------------------------------------------------------------
  // Deletes
  // -----------------------------------------------------------------------

  /**
    Deleting a folder does not cascade: every content item listed in it
    before is still listed afterwards.
   */
  lemma DeleteFolderKeepsContent(session: Session, s: Store, uuid: string, item: FolderContent)
    requires GetFolderContent(session, s, uuid).Success?
    requires ContentItem(item) in GetFolderContent(session, s, uuid).value
    ensures var after := DeleteFolder(session, s, uuid).store;
      && GetFolderContent(session, after, uuid).Success?
      && ContentItem(item) in GetFolderContent(session, after, uuid).value
  {
    var identity := Begin(session).value;
    var tags := Select(s, TaggedWith(identity, uuid));
    var items := GetFolderContent(session, s, uuid).value;
    var i :| 0 <= i < |items| && items[i] == ContentItem(item);
    var t := tags[i];
    assert ItemOf(t, items[i]);
    assert t in s && !IsFolderTag(t);
    var after := DeleteFolder(session, s, uuid).store;
    assert t in after;
    forall u | u in after && Matches(u, TaggedWith(identity, uuid)) && IsFolderTag(u) ensures PayloadReadable(u) {
      assert u in s;
    }
  }

  /** With an empty UUID the delete path names no folder, so every folder goes. */
  lemma DeleteEmptyUuidDeletesAll(session: Session, s: Store)
    ensures DeleteFolder(session, s, "") == DeleteAllFolders(session, s)
  {
    Present3(Some(FolderType), Some(""), None);
    Present3(Some(FolderType), None, None);
  }

  // -----------------------------------------------------------------------
  // The store invariant
  // -----------------------------------------------------------------------

  lemma CreateKeepsReadable(session: Session, s: Store, name: string, color: string, parent: Option<string>, uuid: string)
    requires FolderTagsReadable(s)
    ensures FolderTagsReadable(CreateFolder(session, s, name, color, parent, uuid).store)
  {
    DecodeEncode(Payload(name, color));
  }

  lemma UpdateKeepsReadable(
    session: Session, s: Store, uuid: string, name: Option<string>, color: Option<string>, parent: Option<string>)
    requires FolderTagsReadable(s)
    ensures FolderTagsReadable(UpdateFolder(session, s, uuid, name, color, parent).store)
  {
    var r := UpdateFolder(session, s, uuid, name, color, parent);
    if r.result.Success? {
      var identity := Begin(session).value;
      var prior := Select(s, FolderNamed(identity, uuid))[0];
      var oldPayload := Decode(prior.tagName).value;
      var newPayload := Payload(Coalesce(name, oldPayload.folder), Coalesce(color, oldPayload.color));
      DecodeEncode(newPayload);
      forall t | t in r.store && IsFolderTag(t) ensures PayloadReadable(t) {
        if t in s {
        } else {
          assert t in Select(r.store, FolderNamed(identity, uuid));
        }
      }
    }
  }

  lemma AddContentKeepsReadable(
    session: Session, s: Store, folderUuid: string, resourceType: string, resourceName: string)
    requires FolderTagsReadable(s)
    requires resourceType != FolderType
    ensures FolderTagsReadable(AddContentToFolder(session, s, folderUuid, resourceType, resourceName).store)
  {
  }

  /** Creating a folder under a fresh UUID keeps the store valid. */
  lemma CreatePreservesValid(session: Session, s: Store, name: string, color: string, parent: Option<string>, uuid: string)
    requires Valid(s)
    requires Begin(session).Success? ==> FreshUuid(s, Begin(session).value, uuid)
    ensures Valid(CreateFolder(session, s, name, color, parent, uuid).store)
  {
    CreateKeepsReadable(session, s, name, color, parent, uuid);
  }

  /** An update keeps the store valid: the folder's tags are replaced by exactly one. */
  lemma UpdatePreservesValid(
    session: Session, s: Store, uuid: string, name: Option<string>, color: Option<string>, parent: Option<string>)
    requires Valid(s)
    ensures Valid(UpdateFolder(session, s, uuid, name, color, parent).store)
  {
    UpdateKeepsReadable(session, s, uuid, name, color, parent);
    var r := UpdateFolder(session, s, uuid, name, color, parent);
    if r.result.Success? {
      var identity := Begin(session).value;
      var sel := FolderNamed(identity, uuid);
      var only := Select(r.store, sel);
      forall t, u | t in r.store && u in r.store && IsFolderTag(t) && IsFolderTag(u)
        && t.identity == u.identity && t.resourceName == u.resourceName
        ensures t == u
      {
        if Matches(t, sel) || Matches(u, sel) {
          assert t in only && u in only;
        } else {
          assert t in s && u in s;
        }
      }
    }
  }

  /** Deleting folders keeps the store valid. */
  lemma DeletesPreserveValid(session: Session, s: Store, uuid: string)
    requires Valid(s)
    ensures Valid(DeleteFolder(session, s, uuid).store)
    ensures Valid(DeleteAllFolders(session, s).store)
  {
  }

  /** Filing content of a non-folder type keeps the store valid. */
  lemma AddContentPreservesValid(
    session: Session, s: Store, folderUuid: string, resourceType: string, resourceName: string)
    requires Valid(s)
    requires resourceType != FolderType
    ensures Valid(AddContentToFolder(session, s, folderUuid, resourceType, resourceName).store)
  {
  }
}
