/**
 * Building the request for a post's web preview: whether the post needs a
 * logged-in view, which authentication strategy that calls for (a frame
 * nonce, the login cookie, or none), the nonce-carrying URL, and the single
 * outcome a preview attempt ends in.
 *
 * The delegate callbacks become the returned `Outcome`; Foundation's URL
 * handling and the cookie authenticator are function-valued parameters.
 */
module PostPreview {
  import opened Wrappers

  // ---------------------------------------------------------------------
  // Posts and blogs
  // ---------------------------------------------------------------------

  /** The statuses a post can have. */
  datatype PostStatus = Draft | Pending | PublishPrivate | Publish | Scheduled | Trash | Deleted

  /** The blog-level facts the preview depends on. */
  datatype Blog = Blog(
    isPrivate: bool,
    supportsNoncePreviews: bool,  // `blog.supports(.noncePreviews)`
    frameNonce: Option<string>)   // `blog.getOptionValue("frame_nonce") as? String`

  datatype Post = Post(status: Option<PostStatus>, blog: Blog, permaLink: Option<string>)

  // ---------------------------------------------------------------------
  // URLs
  // ---------------------------------------------------------------------

  /** An absolute URL, as Foundation holds it. */
  datatype Url = Url(absoluteString: string)

  /** A query item; its value is absent for a bare name such as `?draft`. */
  datatype QueryItem = QueryItem(name: string, value: Option<string>)

  /** A URL taken apart: every component other than the query, and the query items if it has a query. */
  datatype UrlComponents = UrlComponents(base: string, queryItems: Option<seq<QueryItem>>)

  /** Foundation's URL operations, each of which may fail. */
  datatype Foundation = Foundation(
    urlFromString: string -> Option<Url>,        // URL(string:)
    components: Url -> Option<UrlComponents>,    // URLComponents(url:resolvingAgainstBaseURL: false)
    url: UrlComponents -> Option<Url>,           // URLComponents.url
    hideMasterbar: Url -> Option<Url>)           // URL.appendingHideMasterbarParameters()

  /** The cookie authenticator: given a URL, the URL of the authenticated request it completes with. */
  datatype WebViewAuthenticator = WebViewAuthenticator(request: Url -> Url)

  /** The generator's state. Nothing in the preview flow changes it after creation. */
  datatype PostPreviewGenerator = PostPreviewGenerator(
    post: Post,
    previewURL: Option<Url>,
    authenticator: Option<WebViewAuthenticator>)

  /** The two delegate callbacks a preview attempt ends in. */
  datatype Outcome = Request(url: Url) | Failed(message: string)

  const PreviewFailureMessage: string := "There has been an error while trying to reach your site."

  // ---------------------------------------------------------------------
  // Authentication strategy
  // ---------------------------------------------------------------------

  datatype Authentication = Nonce | Cookie | Unauthenticated

  /** The statuses whose preview is never public. */
  const LoginStatuses: set<PostStatus> := {Draft, PublishPrivate, Pending, Scheduled, Publish}

  /** Whether the preview must be loaded as a logged-in user. */
  function NeedsLogin(post: Post): (r: bool)
    ensures post.status.None? ==> !r
    ensures post.status.Some? && post.status.value in LoginStatuses ==> r
    ensures post.status.Some? && post.status.value !in LoginStatuses ==> r == post.blog.isPrivate
  {
    match post.status
    case None => false
    case Some(status) =>
      match status
      case Draft | PublishPrivate | Pending | Scheduled | Publish => true
      case _ => post.blog.isPrivate
  }

  /** The authentication the preview needs: none, or a nonce where the blog supports it, else the cookie. */
  function AuthenticationRequired(post: Post): (r: Authentication)
    ensures r == Unauthenticated <==> !NeedsLogin(post)
    ensures r == Nonce <==> NeedsLogin(post) && post.blog.supportsNoncePreviews
    ensures r == Cookie <==> NeedsLogin(post) && !post.blog.supportsNoncePreviews
  {
    if !NeedsLogin(post) then Unauthenticated
    else if post.blog.supportsNoncePreviews then Nonce
    else Cookie
  }

  // ---------------------------------------------------------------------
  // The nonce URL
  // ---------------------------------------------------------------------

  const PreviewItem: QueryItem := QueryItem("preview", Some("true"))

  function FrameNonceItem(nonce: string): QueryItem
  {
    QueryItem("frame-nonce", Some(nonce))
  }

  /** The query of a nonce-authenticated URL: the existing items, then `preview=true`, then the nonce. */
  function NonceQueryItems(existing: Option<seq<QueryItem>>, nonce: string): (r: seq<QueryItem>)
    ensures |r| == |existing.GetOr([])| + 2
    ensures r[..|existing.GetOr([])|] == existing.GetOr([])
    ensures r[|r| - 2] == QueryItem("preview", Some("true"))
    ensures r[|r| - 1] == QueryItem("frame-nonce", Some(nonce))
  {
    var queryItems := existing.GetOr([]);
    queryItems + [PreviewItem] + [FrameNonceItem(nonce)]
  }

  /** The URL with the nonce query items appended; none when it cannot be taken apart or put back together. */
  function AddNonce(nonce: string, url: Url, foundation: Foundation): (r: Option<Url>)
    ensures foundation.components(url).None? ==> r.None?
    ensures foundation.components(url).Some? ==>
      var c := foundation.components(url).value;
      r == foundation.url(UrlComponents(c.base, Some(NonceQueryItems(c.queryItems, nonce))))
  {
    match foundation.components(url)
    case None => None
    case Some(components) =>
      var queryItems := NonceQueryItems(components.queryItems, nonce);
      foundation.url(components.(queryItems := Some(queryItems)))
  }

  // ---------------------------------------------------------------------
  // Preview attempts
  // ---------------------------------------------------------------------

  /** A plain request for the URL as given. */
  function AttemptUnauthenticatedRequest(url: Url): (r: Outcome)
    ensures r.Request? && r.url == url
  {
    Request(url)
  }

  /** A nonce-authenticated request, or a failure when there is no nonce or no nonce URL. */
  function AttemptNonceAuthenticatedRequest(g: PostPreviewGenerator, url: Url, foundation: Foundation): (r: Outcome)
    ensures r.Failed? <==>
      g.post.blog.frameNonce.None? || AddNonce(g.post.blog.frameNonce.value, url, foundation).None?
    ensures r.Failed? ==> r.message == PreviewFailureMessage
    ensures r.Request? ==> Some(r.url) == AddNonce(g.post.blog.frameNonce.value, url, foundation)
  {
    match g.post.blog.frameNonce
    case None => Failed(PreviewFailureMessage)
    case Some(nonce) =>
      match AddNonce(nonce, url, foundation)
      case None => Failed(PreviewFailureMessage)
      case Some(authenticatedUrl) => Request(authenticatedUrl)
  }

  /** A cookie-authenticated request through the authenticator, or a failure when there is none. */
  function AttemptCookieAuthenticatedRequest(g: PostPreviewGenerator, url: Url): (r: Outcome)
    ensures r.Failed? <==> g.authenticator.None?
    ensures r.Failed? ==> r.message == PreviewFailureMessage
    ensures r.Request? ==> r.url == g.authenticator.value.request(url)
  {
    match g.authenticator
    case None => Failed(PreviewFailureMessage)
    case Some(authenticator) => Request(authenticator.request(url))
  }

  /** The URL actually previewed: with the hide-masterbar parameters if they can be added. */
  function PreviewTarget(url: Url, foundation: Foundation): (r: Url)
    ensures foundation.hideMasterbar(url).Some? ==> r == foundation.hideMasterbar(url).value
    ensures foundation.hideMasterbar(url).None? ==> r == url
  {
    foundation.hideMasterbar(url).GetOr(url)
  }

  /** Preview `url` with the authentication the post needs. */
  function AttemptPreview(g: PostPreviewGenerator, url: Url, foundation: Foundation): (r: Outcome)
    ensures var target := PreviewTarget(url, foundation);
      match AuthenticationRequired(g.post)
      case Unauthenticated => r == Request(target)
      case Nonce => r == AttemptNonceAuthenticatedRequest(g, target, foundation)
      case Cookie => r == AttemptCookieAuthenticatedRequest(g, target)
  {
    var url := PreviewTarget(url, foundation);
    match AuthenticationRequired(g.post)
    case Nonce => AttemptNonceAuthenticatedRequest(g, url, foundation)
    case Cookie => AttemptCookieAuthenticatedRequest(g, url)
    case Unauthenticated => AttemptUnauthenticatedRequest(url)
  }

  /** The URL a preview starts from: the explicit preview URL, else the permalink if it parses. */
  function PreviewSource(g: PostPreviewGenerator, foundation: Foundation): (r: Option<Url>)
    ensures g.previewURL.Some? ==> r == g.previewURL
    ensures g.previewURL.None? && g.post.permaLink.None? ==> r.None?
    ensures g.previewURL.None? && g.post.permaLink.Some? ==> r == foundation.urlFromString(g.post.permaLink.value)
  {
    match g.previewURL
    case Some(previewURL) => Some(previewURL)
    case None =>
      match g.post.permaLink
      case None => None
      case Some(permaLink) => foundation.urlFromString(permaLink)
  }

  /** Generate the preview: one outcome, a request or a failure with the fixed message. */
  function Generate(g: PostPreviewGenerator, foundation: Foundation): (r: Outcome)
    ensures PreviewSource(g, foundation).None? ==> r == Failed(PreviewFailureMessage)
    ensures PreviewSource(g, foundation).Some? ==> r == AttemptPreview(g, PreviewSource(g, foundation).value, foundation)
    ensures r.Failed? ==> r.message == PreviewFailureMessage
  {
    match PreviewSource(g, foundation)
    case None => Failed(PreviewFailureMessage)
    case Some(url) => AttemptPreview(g, url, foundation)
  }

  // ---------------------------------------------------------------------
  // Properties
  // ---------------------------------------------------------------------

  /** The first query item called `name`, if there is one. */
  function FirstItemNamed(items: seq<QueryItem>, name: string): (r: Option<QueryItem>)
    ensures r.Some? <==> exists i :: 0 <= i < |items| && items[i].name == name
    ensures r.Some? ==> r.value in items && r.value.name == name
  {
    if items == [] then None
    else if items[0].name == name then Some(items[0])
    else FirstItemNamed(items[1..], name)
  }

  /** Appending items leaves the first item of a name the original items already carry unchanged. */
  lemma {:induction false} FirstItemOfAppend(items: seq<QueryItem>, more: seq<QueryItem>, name: string)
    requires FirstItemNamed(items, name).Some?
    ensures FirstItemNamed(items + more, name) == FirstItemNamed(items, name)
  {
    if items[0].name != name {
      assert (items + more)[1..] == items[1..] + more;
      FirstItemOfAppend(items[1..], more, name);
    }
  }

  /** When the original items do not carry `name`, the first item called `name` is the first appended one. */
  lemma {:induction false} FirstItemAfterAbsent(items: seq<QueryItem>, more: seq<QueryItem>, name: string)
    requires FirstItemNamed(items, name).None?
    ensures FirstItemNamed(items + more, name) == FirstItemNamed(more, name)
  {
    if items == [] {
      assert items + more == more;
    } else {
      assert (items + more)[0] == items[0] && items[0].name != name;
      assert (items + more)[1..] == items[1..] + more;
      FirstItemAfterAbsent(items[1..], more, name);
    }
  }

  /**
   * In a nonce query whose original items had no `preview` and no
   * `frame-nonce` item, the first items of those names are `preview=true` and
   * the blog's nonce; every name the original items carry keeps its first item.
   */
  lemma NonceQueryIsRead(existing: Option<seq<QueryItem>>, nonce: string, name: string)
    requires FirstItemNamed(existing.GetOr([]), "preview").None?
    requires FirstItemNamed(existing.GetOr([]), "frame-nonce").None?
    ensures FirstItemNamed(NonceQueryItems(existing, nonce), "preview") == Some(PreviewItem)
    ensures FirstItemNamed(NonceQueryItems(existing, nonce), "frame-nonce") == Some(FrameNonceItem(nonce))
    ensures FirstItemNamed(existing.GetOr([]), name).Some? ==>
      FirstItemNamed(NonceQueryItems(existing, nonce), name) == FirstItemNamed(existing.GetOr([]), name)
  {
    var items := existing.GetOr([]);
    var added := [PreviewItem, FrameNonceItem(nonce)];
    assert NonceQueryItems(existing, nonce) == items + added;
    FirstItemAfterAbsent(items, added, "preview");
    FirstItemAfterAbsent(items, added, "frame-nonce");
    if FirstItemNamed(items, name).Some? {
      FirstItemOfAppend(items, added, name);
    }
  }

  /** Dropping the two appended items gives back the original query. */
  lemma NonceQueryItemsRoundTrip(existing: Option<seq<QueryItem>>, nonce: string)
    ensures var r := NonceQueryItems(existing, nonce); r[..|r| - 2] == existing.GetOr([])
  {
  }

  /** A public post is previewed by a plain request for the (masterbar-hidden) URL. */
  lemma PublicPreviewIsPlainRequest(g: PostPreviewGenerator, foundation: Foundation)
    requires !NeedsLogin(g.post)
    requires PreviewSource(g, foundation).Some?
    ensures Generate(g, foundation) == Request(PreviewTarget(PreviewSource(g, foundation).value, foundation))
  {
  }

  /**
   * A request on the nonce path always carries the blog's nonce: the blog has
   * one, and the request URL is the previewed URL with the nonce items added.
   */
  lemma NonceRequestCarriesNonce(g: PostPreviewGenerator, foundation: Foundation)
    requires AuthenticationRequired(g.post) == Nonce
    requires Generate(g, foundation).Request?
    ensures PreviewSource(g, foundation).Some? && g.post.blog.frameNonce.Some?
    ensures var target := PreviewTarget(PreviewSource(g, foundation).value, foundation);
      && foundation.components(target).Some?
      && var c := foundation.components(target).value;
      foundation.url(UrlComponents(c.base, Some(NonceQueryItems(c.queryItems, g.post.blog.frameNonce.value))))
        == Some(Generate(g, foundation).url)
  {
  }

  /** An explicit preview URL takes precedence: the permalink then plays no part. */
  lemma PreviewUrlOverridesPermalink(g: PostPreviewGenerator, foundation: Foundation, permaLink: Option<string>)
    requires g.previewURL.Some?
    ensures Generate(g, foundation) == Generate(g.(post := g.post.(permaLink := permaLink)), foundation)
  {
  }
}
