/** The request records the client queues, the parameters its public
    operations accept, the six URL builders and the precedence by which
    `bookmarks`, `tags` and `info` choose one of them. */
module Requests {
  import opened Numbers

  datatype Option<T> = None | Some(value: T)

  /** The base of every feed URL (`this.baseHost`). */
  const BaseHost: string := "http://feeds.delicious.com/v2/json/"

  /** Defaults the public operations and the constructor apply. */
  const DefaultMax: int := 50
  const DefaultMaxTries: int := 3
  const DefaultTimeBetween: int := 1000

  /** Identity of a caller-supplied callback; its body is user code. */
  datatype Callback = Callback(id: nat)

  /** A queued request: the feed URL and the callback to notify. */
  datatype Request = Request(url: string, callback: Callback)

  /** The JavaScript `params` object. An absent property is `None`; numbers
      are integers. */
  datatype Params = Params(
    url: Option<string>,
    hash: Option<string>,
    user: Option<string>,
    tag: Option<string>,
    popular: bool,
    max: Option<int>,
    callback: Callback)

  /** What a JavaScript exception carries. */
  datatype JsError =
    | TypeError(property: string)   // `.length` read on an absent property
    | ReferenceError(name: string)  // an undeclared variable read
    | Thrown(message: string)       // a `throw` of a string

  datatype Result<T> = Ok(value: T) | Err(error: JsError)

  /** The private builders. */
  datatype Builder =
    | UrlhashInfo
    | BookmarksForHash
    | BookmarksForUser
    | BookmarksForTag
    | TagsForUser
    | RelatedTagsForUser

  /** What one builder call does: drop the request after logging, push one
      request onto the queue, or raise. */
  datatype BuildResult =
    | Dropped(reason: string)
    | Queued(request: Request)
    | Raised(error: JsError)

  /** The builder a public operation chose, with the params it passes on
      (the operation writes `max` and `hash` into them first). */
  datatype Selection = Selection(builder: Builder, params: Params)

  /** JavaScript truthiness of an optional string. */
  predicate Truthy(s: Option<string>) { s.Some? && s.value != "" }

  /** `x || d` for a number: absent and 0 are falsy and give way to `d`. */
  function OrDefault(x: Option<int>, d: int): (r: int)
    ensures x.None? || x == Some(0) ==> r == d
    ensures x.Some? && x.value != 0 ==> r == x.value
  {
    match x
    case None => d
    case Some(v) => if v == 0 then d else v
  }

  /** `"?count=" + params.max`: an absent max concatenates as "undefined". */
  function CountSuffix(max: Option<int>): (r: string)
    ensures |r| > 7 && r[..7] == "?count="
    ensures max.None? ==> r[7..] == "undefined"
    ensures max.Some? ==> r[7..] == IntToString(max.value) && ParseInt(r[7..]) == max.value
  {
    match max
    case None => "?count=undefined"
    case Some(n) =>
      IntToStringRoundTrip(n);
      "?count=" + IntToString(n)
  }

  /** The requests a build appends to the queue. */
  function Pushed(b: BuildResult): (q: seq<Request>)
    ensures |q| <= 1
    ensures q != [] <==> b.Queued?
    ensures b.Queued? ==> q == [b.request]
  {
    if b.Queued? then [b.request] else []
  }

  // ---------------------------------------------------------------------
  // The six builders

  function BuildUrlhashInfo(p: Params): (r: BuildResult)
    ensures r.Raised? <==> p.hash.None?
    ensures r.Queued? <==> p.hash.Some? && |p.hash.value| == 32
    ensures r.Queued? ==> r.request == Request(BaseHost + "urlinfo/" + p.hash.value, p.callback)
  {
    match p.hash
    case None => Raised(TypeError("hash"))
    case Some(h) =>
      if |h| != 32 then Dropped("Invalid URL hash.")
      else Queued(Request(BaseHost + "urlinfo/" + h, p.callback))
  }

  function BuildBookmarksForHash(p: Params): (r: BuildResult)
    ensures r.Raised? <==> p.hash.None?
    ensures r.Queued? <==> p.hash.Some? && |p.hash.value| == 32
    ensures r.Queued? ==>
      r.request == Request(BaseHost + "url/" + p.hash.value + CountSuffix(p.max), p.callback)
  {
    match p.hash
    case None => Raised(TypeError("hash"))
    case Some(h) =>
      if |h| != 32 then Dropped("Invalid URL hash.")
      else Queued(Request(BaseHost + "url/" + h + CountSuffix(p.max), p.callback))
  }

  function BuildBookmarksForUser(p: Params): (r: BuildResult)
    ensures r.Raised? <==> p.user.None?
    ensures r.Queued? <==> Truthy(p.user)
    ensures r.Queued? ==> r.request.callback == p.callback
    ensures r.Queued? && Truthy(p.tag) ==>
      r.request.url == BaseHost + p.user.value + "/" + p.tag.value + CountSuffix(p.max)
    ensures r.Queued? && !Truthy(p.tag) ==>
      r.request.url == BaseHost + p.user.value + CountSuffix(p.max)
  {
    match p.user
    case None => Raised(TypeError("user"))
    case Some(u) =>
      if |u| <= 0 then Dropped("Username is empty.")
      else
        var path := if Truthy(p.tag) then u + "/" + p.tag.value else u;
        Queued(Request(BaseHost + path + CountSuffix(p.max), p.callback))
  }

  function BuildBookmarksForTag(p: Params): (r: BuildResult)
    ensures r.Raised? <==> p.tag.None?
    ensures r.Queued? <==> Truthy(p.tag)
    ensures r.Queued? ==> r.request.callback == p.callback
    ensures r.Queued? ==>
      r.request.url ==
        BaseHost + (if p.popular then "popular/" else "tag/") + p.tag.value + CountSuffix(p.max)
  {
    match p.tag
    case None => Raised(TypeError("tag"))
    case Some(t) =>
      if |t| <= 0 then Dropped("Tag is empty.")
      else
        var feed := if p.popular then "popular/" else "tag/";
        Queued(Request(BaseHost + feed + t + CountSuffix(p.max), p.callback))
  }

  function BuildTagsForUser(p: Params): (r: BuildResult)
    ensures r.Raised? <==> p.user.None?
    ensures r.Queued? <==> Truthy(p.user)
    ensures r.Queued? ==> r.request == Request(BaseHost + "tags/" + p.user.value, p.callback)
  {
    match p.user
    case None => Raised(TypeError("user"))
    case Some(u) =>
      if |u| <= 0 then Dropped("Username is empty.")
      else Queued(Request(BaseHost + "tags/" + u, p.callback))
  }

  /** Validation passes exactly when both user and tag are non-empty, and
      then the URL expression reads the undeclared variable `user`, so this
      builder never queues anything. */
  function BuildRelatedTagsForUser(p: Params): (r: BuildResult)
    ensures !r.Queued?
    ensures r == Raised(ReferenceError("user")) <==> Truthy(p.user) && Truthy(p.tag)
    ensures r.Dropped? <==> p.user == Some("") || (Truthy(p.user) && p.tag == Some(""))
  {
    match p.user
    case None => Raised(TypeError("user"))
    case Some(u) =>
      if |u| <= 0 then Dropped("Username or tag is empty.")
      else match p.tag
        case None => Raised(TypeError("tag"))
        case Some(t) =>
          if |t| <= 0 then Dropped("Username or tag is empty.")
          else Raised(ReferenceError("user"))
  }

  function Build(b: Builder, p: Params): BuildResult
  {
    match b
    case UrlhashInfo => BuildUrlhashInfo(p)
    case BookmarksForHash => BuildBookmarksForHash(p)
    case BookmarksForUser => BuildBookmarksForUser(p)
    case BookmarksForTag => BuildBookmarksForTag(p)
    case TagsForUser => BuildTagsForUser(p)
    case RelatedTagsForUser => BuildRelatedTagsForUser(p)
  }

  lemma PrefixOfConcat(a: string, b: string)
    ensures a <= a + b
  {
    assert (a + b)[..|a|] == a;
  }

  /** Every builder validates before it queues: a queued request always
      lies under the base host, and carries the caller's callback. */
  lemma QueuedUnderBaseHost(b: Builder, p: Params)
    requires Build(b, p).Queued?
    ensures Build(b, p).request.callback == p.callback
    ensures BaseHost <= Build(b, p).request.url
  {
    var u := Build(b, p).request.url;
    var count := CountSuffix(p.max);
    match b {
      case UrlhashInfo =>
        PrefixOfConcat(BaseHost, "urlinfo/" + p.hash.value);
      case BookmarksForHash =>
        PrefixOfConcat(BaseHost, "url/" + p.hash.value + count);
      case BookmarksForUser =>
        var path := if Truthy(p.tag) then p.user.value + "/" + p.tag.value else p.user.value;
        assert u == BaseHost + path + count;
        PrefixOfConcat(BaseHost, path + count);
      case BookmarksForTag =>
        PrefixOfConcat(BaseHost, (if p.popular then "popular/" else "tag/") + p.tag.value + count);
      case TagsForUser =>
        PrefixOfConcat(BaseHost, "tags/" + p.user.value);
      case RelatedTagsForUser =>
        PrefixOfConcat(BaseHost, "");
    }
  }

  // ---------------------------------------------------------------------
  // Parameter dispatch of the public operations

  /** `bookmarks`: url > hash > user > tag; `max` defaults to 50 and a
      given url is replaced by its MD5 hash. */
  function SelectBookmarks(p: Params, md5: string -> string): (r: Result<Selection>)
    ensures r.Err? <==> !Truthy(p.url) && !Truthy(p.hash) && !Truthy(p.user) && !Truthy(p.tag)
    ensures r.Err? ==> r.error == Thrown("Invalid or incomplete parameters (bookmarks).")
    ensures r.Ok? ==> r.value.params.max == Some(OrDefault(p.max, DefaultMax))
    ensures r.Ok? ==> r.value.params.callback == p.callback
    // the builder receives the caller's params with only `max` (and, for a
    // url, `hash`) rewritten
    ensures r.Ok? && !Truthy(p.url) ==> r.value.params == p.(max := Some(OrDefault(p.max, DefaultMax)))
    ensures r.Ok? && Truthy(p.url) ==>
      r.value.params == p.(max := Some(OrDefault(p.max, DefaultMax)), hash := Some(md5(p.url.value)))
    ensures Truthy(p.url) ==>
      r.Ok? && r.value.builder == BookmarksForHash && r.value.params.hash == Some(md5(p.url.value))
    ensures !Truthy(p.url) && Truthy(p.hash) ==>
      r.Ok? && r.value.builder == BookmarksForHash && r.value.params.hash == p.hash
    ensures !Truthy(p.url) && !Truthy(p.hash) && Truthy(p.user) ==>
      r.Ok? && r.value.builder == BookmarksForUser && r.value.params.user == p.user
    ensures !Truthy(p.url) && !Truthy(p.hash) && !Truthy(p.user) && Truthy(p.tag) ==>
      r.Ok? && r.value.builder == BookmarksForTag && r.value.params.tag == p.tag
  {
    var q := p.(max := Some(OrDefault(p.max, DefaultMax)));
    if Truthy(q.url) then
      Ok(Selection(BookmarksForHash, q.(hash := Some(md5(q.url.value)))))
    else if Truthy(q.hash) then Ok(Selection(BookmarksForHash, q))
    else if Truthy(q.user) then Ok(Selection(BookmarksForUser, q))
    else if Truthy(q.tag) then Ok(Selection(BookmarksForTag, q))
    else Err(Thrown("Invalid or incomplete parameters (bookmarks)."))
  }

  /** `tags`: a user is required; a tag as well selects related tags. */
  function SelectTags(p: Params): (r: Result<Selection>)
    ensures r.Err? <==> !Truthy(p.user)
    ensures r.Err? ==> r.error == Thrown("Invalid or incomplete parameters (tags).")
    ensures r.Ok? ==> r.value.params == p
    ensures r.Ok? ==> (r.value.builder == RelatedTagsForUser <==> Truthy(p.tag))
    ensures r.Ok? ==> r.value.builder in {TagsForUser, RelatedTagsForUser}
  {
    if Truthy(p.user) then
      Ok(Selection(if Truthy(p.tag) then RelatedTagsForUser else TagsForUser, p))
    else Err(Thrown("Invalid or incomplete parameters (tags)."))
  }

  /** `info`: url > hash, both answered by the URL-info feed. */
  function SelectInfo(p: Params, md5: string -> string): (r: Result<Selection>)
    ensures r.Err? <==> !Truthy(p.url) && !Truthy(p.hash)
    ensures r.Err? ==> r.error == Thrown("Invalid or incomplete parameters (info).")
    ensures r.Ok? ==> r.value.builder == UrlhashInfo
    ensures r.Ok? && Truthy(p.url) ==> r.value.params == p.(hash := Some(md5(p.url.value)))
    ensures r.Ok? && !Truthy(p.url) ==> r.value.params == p
  {
    if Truthy(p.url) then Ok(Selection(UrlhashInfo, p.(hash := Some(md5(p.url.value)))))
    else if Truthy(p.hash) then Ok(Selection(UrlhashInfo, p))
    else Err(Thrown("Invalid or incomplete parameters (info)."))
  }

  /** Through the public operations no builder ever raises a TypeError:
      each is chosen only when the property it reads is present. The one
      exception the builders can still raise is the ReferenceError of the
      related-tags builder. */
  lemma SelectedBuildersDoNotTypeError(p: Params, md5: string -> string)
    ensures SelectBookmarks(p, md5).Ok? ==>
      !Build(SelectBookmarks(p, md5).value.builder, SelectBookmarks(p, md5).value.params).Raised?
    ensures SelectInfo(p, md5).Ok? ==>
      !Build(SelectInfo(p, md5).value.builder, SelectInfo(p, md5).value.params).Raised?
    ensures SelectTags(p).Ok? ==>
      (Build(SelectTags(p).value.builder, SelectTags(p).value.params).Raised? <==> Truthy(p.tag))
  {
  }

  /** `bookmarks` with a url queues the same request as `bookmarks` with
      that url's hash. */
  lemma UrlAndHashAgree(p: Params, md5: string -> string)
    requires Truthy(p.url)
    ensures var byHash := p.(url := None, hash := Some(md5(p.url.value)));
      Truthy(Some(md5(p.url.value))) ==>
        Build(BookmarksForHash, SelectBookmarks(p, md5).value.params) ==
        Build(BookmarksForHash, SelectBookmarks(byHash, md5).value.params)
  {
  }
}
