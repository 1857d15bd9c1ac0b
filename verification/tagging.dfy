/**
  The generic tagging service (`TaggingService`): the request each accessor
  builds, and the remote store those requests act on.

  The store is a finite set of tags, kept as a duplicate-free sequence so
  that listings come back in a definite order (the order of insertion).
  How the remote service interprets a request is not visible in this
  repository; the assumptions made here are:
  - a by-resource or delete path names its selectors positionally: the first
    segment after the identity is a resource type, the second a resource
    name, the third a tag name;
  - a delete removes every tag its selectors match;
  - a create adds the tag, and writing a tag already present changes nothing;
  - the lookups the folder layer needs (by resource, by tag value) return
    exactly the matching tags, in store order.
 */
module Tagging {
  import opened Common
  import opened Http

  /** The only storage primitive: a 5-field tuple. */
  datatype Tag = Tag(
    identity: string,
    resourceType: string,
    resourceName: string,
    tagName: string,
    tagValue: string)

  /** `TaggingService.discoverUrlPrefix`. */
  function DiscoverUrlPrefix(environment: string, baseDomain: string): (r: Result<string, Error>)
    ensures r.Success? <==> environment in {"production", "development", "local"}
    ensures environment == "production" ==> r.value == "https://tagging.services." + baseDomain
    ensures environment in {"development", "local"} ==> r.value == "https://staging-tagging.services." + baseDomain
    ensures r.Failure? ==> r.error == UnknownEnvironment(environment)
  {
    match environment
    case "production" => Success("https://tagging.services." + baseDomain)
    case "development" => Success("https://staging-tagging.services." + baseDomain)
    case "local" => Success("https://staging-tagging.services." + baseDomain)
    case _ => Failure(UnknownEnvironment(environment))
  }

  /** Neither of the test environments the other services know has a tagging table. */
  lemma TestEnvironmentsUnsupported(c: Config)
    requires !Truthy(c.serviceUrl)
    requires c.environment == "test" || c.environment == "testing"
    ensures GetUrlPrefix(c, DiscoverUrlPrefix).Failure?
  {
  }

  // -----------------------------------------------------------------------
  // Request paths
  // -----------------------------------------------------------------------

  /** The template fragment `${x ? `/${x}` : ''}`. */
  function Seg(o: Option<string>): string {
    if Truthy(o) then "/" + o.value else ""
  }

  /** The values of the truthy selectors, in order: the segments a path actually carries. */
  function Present(selectors: seq<Option<string>>): (r: seq<string>)
    ensures |r| <= |selectors|
    ensures forall i :: 0 <= i < |r| ==> r[i] != ""
  {
    if |selectors| == 0 then []
    else if Truthy(selectors[0]) then [selectors[0].value] + Present(selectors[1..])
    else Present(selectors[1..])
  }

  /** The segment list a single optional selector contributes. */
  function Opt(o: Option<string>): seq<string> {
    if Truthy(o) then [o.value] else []
  }

  lemma PresentCons(o: Option<string>, rest: seq<Option<string>>)
    ensures Present([o] + rest) == Opt(o) + Present(rest)
  {
    assert ([o] + rest)[0] == o;
    assert ([o] + rest)[1..] == rest;
  }

  lemma Present2(a: Option<string>, b: Option<string>)
    ensures Present([a, b]) == Opt(a) + Opt(b)
  {
    PresentCons(b, []);
    assert [b] == [b] + [];
    PresentCons(a, [b]);
    assert [a, b] == [a] + [b];
  }

  lemma Present3(a: Option<string>, b: Option<string>, c: Option<string>)
    ensures Present([a, b, c]) == Opt(a) + Opt(b) + Opt(c)
  {
    Present2(b, c);
    PresentCons(a, [b, c]);
    assert [a, b, c] == [a] + [b, c];
  }

  lemma OptPath(o: Option<string>)
    ensures JoinPath(Opt(o)) == Seg(o)
  {
    if Truthy(o) {
      assert Opt(o)[1..] == [];
    }
  }

  /** The chain of optional fragments is the path of the present selectors. */
  lemma SegsArePresentPath(a: Option<string>, b: Option<string>, c: Option<string>)
    ensures Seg(a) + Seg(b) + Seg(c) == JoinPath(Present([a, b, c]))
  {
    Present3(a, b, c);
    JoinPathAppend(Opt(a) + Opt(b), Opt(c));
    JoinPathAppend(Opt(a), Opt(b));
    OptPath(a);
    OptPath(b);
    OptPath(c);
  }

  lemma SegsArePresentPath2(a: Option<string>, b: Option<string>)
    ensures Seg(a) + Seg(b) == JoinPath(Present([a, b]))
  {
    Present2(a, b);
    JoinPathAppend(Opt(a), Opt(b));
    OptPath(a);
    OptPath(b);
  }

  lemma ByResourcePath(identity: string, a: Option<string>, b: Option<string>, c: Option<string>)
    ensures "/tags/by_resource/" + identity + (Seg(a) + Seg(b) + Seg(c))
         == JoinPath(["tags", "by_resource", identity] + Present([a, b, c]))
  {
    var tail := Present([a, b, c]);
    SegsArePresentPath(a, b, c);
    JoinPathAppend(["tags", "by_resource", identity], tail);
    ByResourceFixed(identity);
  }

  lemma ByResourceFixed(identity: string)
    ensures JoinPath(["tags", "by_resource", identity]) == "/tags/by_resource/" + identity
  {
    FixedPath3("tags", "by_resource", identity);
    var lead := "/" + "tags" + "/" + "by_resource" + "/";
    assert lead == "/tags/by_resource/";
    assert "/" + "tags" + "/" + "by_resource" + "/" + identity == lead + identity;
  }

  lemma ByTagNameFixed(identity: string, tagName: string)
    ensures JoinPath(["tags", "by_tag_name", identity, tagName]) == "/tags/by_tag_name/" + identity + "/" + tagName
  {
    var fixed := ["tags", "by_tag_name", identity, tagName];
    assert fixed == ["tags", "by_tag_name"] + [identity, tagName];
    JoinPathAppend(["tags", "by_tag_name"], [identity, tagName]);
    FixedPath2("tags", "by_tag_name");
    FixedPath2(identity, tagName);
    assert "/" + "tags" + "/" + "by_tag_name" == "/tags/by_tag_name";
  }

  lemma ByTagNamePath(identity: string, tagName: string, a: Option<string>, b: Option<string>)
    ensures "/tags/by_tag_name/" + identity + "/" + tagName + (Seg(a) + Seg(b))
         == JoinPath(["tags", "by_tag_name", identity, tagName] + Present([a, b]))
  {
    SegsArePresentPath2(a, b);
    JoinPathAppend(["tags", "by_tag_name", identity, tagName], Present([a, b]));
    ByTagNameFixed(identity, tagName);
  }

  lemma DeletePath(identity: string, a: Option<string>, b: Option<string>, c: Option<string>)
    ensures "/tags/" + identity + (Seg(a) + Seg(b) + Seg(c))
         == JoinPath(["tags", identity] + Present([a, b, c]))
  {
    SegsArePresentPath(a, b, c);
    JoinPathAppend(["tags", identity], Present([a, b, c]));
    FixedPath2("tags", identity);
    assert "/" + "tags" + "/" + identity == "/tags/" + identity;
  }

  /** `/tags/by_resource/{identity}` followed by each non-empty selector, in order. */
  function ByResourceUrl(
    prefix: string, identity: string,
    resourceType: Option<string>, resourceName: Option<string>, tagName: Option<string>): (url: string)
    ensures url == prefix + JoinPath(["tags", "by_resource", identity] + Present([resourceType, resourceName, tagName]))
  {
    ByResourcePath(identity, resourceType, resourceName, tagName);
    prefix + ("/tags/by_resource/" + identity + (Seg(resourceType) + Seg(resourceName) + Seg(tagName)))
  }

  /** `/tags/by_tag_name/{identity}/{tag_name}`: the tag name always sits right after the identity. */
  function ByTagNameUrl(
    prefix: string, identity: string, tagName: string,
    resourceType: Option<string>, resourceName: Option<string>): (url: string)
    ensures url == prefix + JoinPath(["tags", "by_tag_name", identity, tagName] + Present([resourceType, resourceName]))
  {
    ByTagNamePath(identity, tagName, resourceType, resourceName);
    prefix + ("/tags/by_tag_name/" + identity + "/" + tagName + (Seg(resourceType) + Seg(resourceName)))
  }

  /** `/tags/{identity}` followed by each non-empty selector, in order. */
  function DeleteUrl(
    prefix: string, identity: string,
    resourceType: Option<string>, resourceName: Option<string>, tagName: Option<string>): (url: string)
    ensures url == prefix + JoinPath(["tags", identity] + Present([resourceType, resourceName, tagName]))
  {
    DeletePath(identity, resourceType, resourceName, tagName);
    prefix + ("/tags/" + identity + (Seg(resourceType) + Seg(resourceName) + Seg(tagName)))
  }

  /** For the same selectors, the delete path is the lookup path without its `by_resource` segment. */
  lemma DeleteUrlIsLookupWithoutByResource(
    prefix: string, identity: string,
    resourceType: Option<string>, resourceName: Option<string>, tagName: Option<string>)
    ensures var rest := JoinPath([identity] + Present([resourceType, resourceName, tagName]));
            ByResourceUrl(prefix, identity, resourceType, resourceName, tagName) == prefix + "/tags/by_resource" + rest
            && DeleteUrl(prefix, identity, resourceType, resourceName, tagName) == prefix + "/tags" + rest
  {
    var p := Present([resourceType, resourceName, tagName]);
    ByResourceAfterTags(identity, p);
    TagsAfterRoot(identity, p);
  }

  lemma ByResourceAfterTags(identity: string, p: seq<string>)
    ensures JoinPath(["tags", "by_resource", identity] + p) == "/tags/by_resource" + JoinPath([identity] + p)
  {
    JoinPathAppend(["tags", "by_resource"], [identity] + p);
    assert ["tags", "by_resource"] + ([identity] + p) == ["tags", "by_resource", identity] + p;
    FixedPath2("tags", "by_resource");
    assert "/" + "tags" + "/" + "by_resource" == "/tags/by_resource";
  }

  lemma TagsAfterRoot(identity: string, p: seq<string>)
    ensures JoinPath(["tags", identity] + p) == "/tags" + JoinPath([identity] + p)
  {
    JoinPathAppend(["tags"], [identity] + p);
    assert ["tags"] + ([identity] + p) == ["tags", identity] + p;
    JoinPath1("tags");
  }

  /**
    Empty selectors collapse: a missing resource type shifts the resource name
    into its place, so the path is not injective in its selectors.
   */
  lemma ByResourceNotInjective(prefix: string, identity: string, name: string)
    requires name != ""
    ensures ByResourceUrl(prefix, identity, Some(""), Some(name), None)
         == ByResourceUrl(prefix, identity, Some(name), None, None)
  {
    Present3(Some(""), Some(name), None);
    Present3(Some(name), None, None);
  }

  // -----------------------------------------------------------------------
  // Requests
  // -----------------------------------------------------------------------

  /** The JSON object `createTag`/`updateTag` send. */
  function TagJson(t: Tag): Json {
    JObj([
      ("identity", JStr(t.identity)),
      ("resource_type", JStr(t.resourceType)),
      ("resource_name", JStr(t.resourceName)),
      ("tag_name", JStr(t.tagName)),
      ("tag_value", JStr(t.tagValue))])
  }

  /** How the store reads a tag body back. */
  function TagFromJson(j: Json): Option<Tag> {
    match j
    case JObj(fields) =>
      if |fields| == 5
        && fields[0].0 == "identity" && fields[0].1.JStr?
        && fields[1].0 == "resource_type" && fields[1].1.JStr?
        && fields[2].0 == "resource_name" && fields[2].1.JStr?
        && fields[3].0 == "tag_name" && fields[3].1.JStr?
        && fields[4].0 == "tag_value" && fields[4].1.JStr?
      then Some(Tag(fields[0].1.s, fields[1].1.s, fields[2].1.s, fields[3].1.s, fields[4].1.s))
      else None
    case _ => None
  }

  lemma TagJsonRoundTrip(t: Tag)
    ensures TagFromJson(TagJson(t)) == Some(t)
  {
  }

  function GetTagsByResourceRequest(
    prefix: string, identity: string,
    resourceType: Option<string>, resourceName: Option<string>, tagName: Option<string>): (r: Request)
    ensures r.verb == GET && r.body.None? && r.headers == EmptyHeaders
    ensures r.url == prefix + JoinPath(["tags", "by_resource", identity] + Present([resourceType, resourceName, tagName]))
  {
    Request(GET, ByResourceUrl(prefix, identity, resourceType, resourceName, tagName), EmptyHeaders, None)
  }

  function GetTagsByNameRequest(
    prefix: string, identity: string, tagName: string,
    resourceType: Option<string>, resourceName: Option<string>): (r: Request)
    ensures r.verb == GET && r.body.None? && r.headers == EmptyHeaders
    ensures r.url == prefix + JoinPath(["tags", "by_tag_name", identity, tagName] + Present([resourceType, resourceName]))
  {
    Request(GET, ByTagNameUrl(prefix, identity, tagName, resourceType, resourceName), EmptyHeaders, None)
  }

  /** `createTag`: POST the tag as JSON to `/tags`. */
  function CreateTagRequest(prefix: string, tag: Tag): (r: Request)
    ensures r.verb == POST && r.url == prefix + JoinPath(["tags"])
    ensures Values(r.headers, ContentType) == [ApplicationJson]
    ensures r.body.Some? && TagFromJson(r.body.value) == Some(tag)
  {
    TagJsonRoundTrip(tag);
    Request(POST, prefix + "/tags", AppendHeader(EmptyHeaders, ContentType, ApplicationJson), Some(TagJson(tag)))
  }

  /** `updateTag`: the very same request as `createTag`, sent with PUT instead of POST. */
  function UpdateTagRequest(prefix: string, tag: Tag): (r: Request)
    ensures r == CreateTagRequest(prefix, tag).(verb := PUT)
  {
    Request(PUT, prefix + "/tags", AppendHeader(EmptyHeaders, ContentType, ApplicationJson), Some(TagJson(tag)))
  }

  function DeleteTagRequest(
    prefix: string, identity: string,
    resourceType: Option<string>, resourceName: Option<string>, tagName: Option<string>): (r: Request)
    ensures r.verb == DELETE && r.body.None? && r.headers == EmptyHeaders
    ensures r.url == prefix + JoinPath(["tags", identity] + Present([resourceType, resourceName, tagName]))
  {
    Request(DELETE, DeleteUrl(prefix, identity, resourceType, resourceName, tagName), EmptyHeaders, None)
  }

  // -----------------------------------------------------------------------
  // The remote store
  // -----------------------------------------------------------------------

  type Store = seq<Tag>

  predicate NoDuplicates(s: Store) {
    forall i, j :: 0 <= i < j < |s| ==> s[i] != s[j]
  }

  /** Which tags a request selects; an absent field matches anything. */
  datatype Selector = Selector(
    identity: string,
    resourceType: Option<string>,
    resourceName: Option<string>,
    tagName: Option<string>,
    tagValue: Option<string>)

  predicate FieldMatches(field: string, wanted: Option<string>) {
    wanted.None? || field == wanted.value
  }

  predicate Matches(t: Tag, sel: Selector) {
    && t.identity == sel.identity
    && FieldMatches(t.resourceType, sel.resourceType)
    && FieldMatches(t.resourceName, sel.resourceName)
    && FieldMatches(t.tagName, sel.tagName)
    && FieldMatches(t.tagValue, sel.tagValue)
  }

  /** The matching tags, in store order. */
  function Select(s: Store, sel: Selector): (r: Store)
    ensures forall t :: t in r <==> t in s && Matches(t, sel)
    ensures NoDuplicates(s) ==> NoDuplicates(r)
    ensures |r| <= |s|
  {
    if |s| == 0 then []
    else if Matches(s[0], sel) then [s[0]] + Select(s[1..], sel)
    else Select(s[1..], sel)
  }

  lemma {:induction false} SelectAppend(a: Store, b: Store, sel: Selector)
    ensures Select(a + b, sel) == Select(a, sel) + Select(b, sel)
    decreases |a|
  {
    if |a| == 0 {
      assert a + b == b;
    } else {
      assert (a + b)[0] == a[0];
      assert (a + b)[1..] == a[1..] + b;
      SelectAppend(a[1..], b, sel);
    }
  }

  /** The store without the matching tags, order kept. */
  function Remove(s: Store, sel: Selector): (r: Store)
    ensures forall t :: t in r <==> t in s && !Matches(t, sel)
    ensures NoDuplicates(s) ==> NoDuplicates(r)
  {
    if |s| == 0 then []
    else if Matches(s[0], sel) then Remove(s[1..], sel)
    else [s[0]] + Remove(s[1..], sel)
  }

  /** Adding a tag: a tag already present is not stored twice. */
  function Insert(s: Store, t: Tag): (r: Store)
    ensures forall u :: u in r <==> u in s || u == t
    ensures t !in s ==> r == s + [t]
    ensures NoDuplicates(s) ==> NoDuplicates(r)
  {
    if t in s then s else s + [t]
  }

  function At(segments: seq<string>, i: nat): Option<string> {
    if i < |segments| then Some(segments[i]) else None
  }

  /** How the store reads the segments after the identity in a by-resource or delete path. */
  function PathSelector(identity: string, segments: seq<string>): Selector {
    Selector(identity, At(segments, 0), At(segments, 1), At(segments, 2), None)
  }

  /** The selector a `getTagsByResource`/`deleteTag` call really transmits. */
  function SentSelector(
    identity: string,
    resourceType: Option<string>, resourceName: Option<string>, tagName: Option<string>): Selector
  {
    PathSelector(identity, Present([resourceType, resourceName, tagName]))
  }

  /** The store after `createTag`. */
  function CreateTag(s: Store, tag: Tag): (r: Store)
    ensures forall u :: u in r <==> u in s || u == tag
    ensures NoDuplicates(s) ==> NoDuplicates(r)
  {
    Insert(s, tag)
  }

  /**
    The store after `deleteTag`. With every supplied selector non-empty, the
    tags matching exactly those selectors go; tags of other identities never do.
   */
  function DeleteTag(
    s: Store, identity: string,
    resourceType: Option<string>, resourceName: Option<string>, tagName: Option<string>): (r: Store)
    ensures forall t :: t in r ==> t in s
    ensures NoDuplicates(s) ==> NoDuplicates(r)
    ensures forall t :: t in s && t.identity != identity ==> t in r
    ensures Truthy(resourceType) && Truthy(resourceName) && tagName.None? ==>
      forall t :: t in r <==>
        t in s && !(t.identity == identity && t.resourceType == resourceType.value && t.resourceName == resourceName.value)
    ensures Truthy(resourceType) && !Truthy(resourceName) && !Truthy(tagName) ==>
      forall t :: t in r <==> t in s && !(t.identity == identity && t.resourceType == resourceType.value)
  {
    Present3(resourceType, resourceName, tagName);
    Remove(s, SentSelector(identity, resourceType, resourceName, tagName))
  }

  /**
    The collapse seen by the store: a delete with an empty resource type and
    resource name `x` removes every tag whose resource TYPE is `x`.
   */
  lemma DeleteWithEmptyTypeShifts(s: Store, identity: string, x: string)
    requires x != ""
    ensures DeleteTag(s, identity, Some(""), Some(x), None) == DeleteTag(s, identity, Some(x), None, None)
  {
    Present3(Some(""), Some(x), None);
    Present3(Some(x), None, None);
  }
}
