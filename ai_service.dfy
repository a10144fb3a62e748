/** The metadata extraction of server/src/services/aiService.js once the
    network fetch and the HTML parse are done. The outbound GET and cheerio's
    selector lookups are inputs (`Fetch`), and so is the WHATWG URL parse
    (`Url`, or `None` where `new URL` throws). */
module AiService {
  import opened JsValues

  /** What `new URL(url)` yields that the extraction reads. */
  datatype Url = Url(protocol: string, hostname: string)

  /** The lookups made on the fetched page: `.attr('content')` of the three
      Open Graph tags and the description tag (undefined when the element or
      the attribute is missing), and `$('title').text()` ('' when absent). */
  datatype Page = Page(
    ogImage: Option<string>,
    ogTitle: Option<string>,
    titleText: string,
    ogDescription: Option<string>,
    metaDescription: Option<string>)

  /** Outcome of the `try` block's I/O: the page was fetched and loaded, or
      something threw (timeout, network error, non-2xx status, parse failure). */
  datatype Fetch = Fetched(page: Page) | FetchFailed

  datatype Metadata = Metadata(
    title: string,
    description: string,
    ogImage: string,
    ogTitle: string,
    ogDescription: string,
    domain: string,
    favicon: string)

  /** The conventional favicon location for a URL: `/favicon.ico` at the root
      of its origin. */
  function FaviconOf(u: Url): (r: string)
    ensures EndsWith(r, "/favicon.ico")
    ensures IsPrefix(u.protocol + "//" + u.hostname, r)
  {
    EndsWithAppend(u.protocol + "//" + u.hostname, "/favicon.ico");
    assert (u.protocol + "//" + u.hostname + "/favicon.ico")[..|u.protocol + "//" + u.hostname|] == u.protocol + "//" + u.hostname;
    u.protocol + "//" + u.hostname + "/favicon.ico"
  }

  /** The fallback chains over the three lookups; an empty string counts as
      absent at every step. */
  function OgImageOf(p: Page): (r: string)
    ensures Truthy(p.ogImage) ==> r == p.ogImage.value
    ensures !Truthy(p.ogImage) ==> r == ""
  {
    OrElse(p.ogImage, "")
  }

  function OgTitleOf(p: Page): (r: string)
    ensures Truthy(p.ogTitle) ==> r == p.ogTitle.value
    ensures !Truthy(p.ogTitle) ==> r == p.titleText
  {
    OrElse(p.ogTitle, Either(p.titleText, ""))
  }

  function OgDescriptionOf(p: Page): (r: string)
    ensures Truthy(p.ogDescription) ==> r == p.ogDescription.value
    ensures !Truthy(p.ogDescription) && Truthy(p.metaDescription) ==> r == p.metaDescription.value
    ensures !Truthy(p.ogDescription) && !Truthy(p.metaDescription) ==> r == ""
  {
    OrElse(p.ogDescription, OrElse(p.metaDescription, ""))
  }

  /** `fetchWebpageContent(url)`. `None` is a rejected promise, which happens
      only when `new URL` throws in the catch branch too; a fetch failure for a
      parseable URL is swallowed and answered with the hostname fallback. */
  function FetchWebpageContent(f: Fetch, parsed: Option<Url>): (r: Option<Metadata>)
    ensures r.None? <==> parsed.None?
    ensures r.Some? ==> r.value.domain == parsed.value.hostname
    ensures r.Some? ==> r.value.favicon == parsed.value.protocol + "//" + parsed.value.hostname + "/favicon.ico"
    ensures r.Some? && f.Fetched? ==>
      && r.value.title == r.value.ogTitle && r.value.description == r.value.ogDescription
      && (Truthy(f.page.ogTitle) ==> r.value.ogTitle == f.page.ogTitle.value)
      && (!Truthy(f.page.ogTitle) ==> r.value.ogTitle == f.page.titleText)
      && (Truthy(f.page.ogDescription) ==> r.value.ogDescription == f.page.ogDescription.value)
      && (!Truthy(f.page.ogDescription) && Truthy(f.page.metaDescription) ==>
            r.value.ogDescription == f.page.metaDescription.value)
      && (!Truthy(f.page.ogDescription) && !Truthy(f.page.metaDescription) ==> r.value.ogDescription == "")
      && (Truthy(f.page.ogImage) ==> r.value.ogImage == f.page.ogImage.value)
      && (!Truthy(f.page.ogImage) ==> r.value.ogImage == "")
    ensures r.Some? && f.FetchFailed? ==>
      && r.value.title == parsed.value.hostname && r.value.ogTitle == parsed.value.hostname
      && r.value.description == "" && r.value.ogImage == "" && r.value.ogDescription == ""
  {
    match parsed
    case None => None
    case Some(u) =>
      match f
      case Fetched(p) =>
        var ogTitle := OgTitleOf(p);
        var ogDescription := OgDescriptionOf(p);
        Some(Metadata(ogTitle, ogDescription, OgImageOf(p), ogTitle, ogDescription, u.hostname, FaviconOf(u)))
      case FetchFailed =>
        Some(Metadata(u.hostname, "", "", u.hostname, "", u.hostname, FaviconOf(u)))
  }

  /** `processLink(url)`: the same fields, spread into a fresh object, and the
      same rejection. */
  function ProcessLink(f: Fetch, parsed: Option<Url>): (r: Option<Metadata>)
    ensures r == FetchWebpageContent(f, parsed)
  {
    match FetchWebpageContent(f, parsed)
    case None => None
    case Some(m) => Some(Metadata(m.title, m.description, m.ogImage, m.ogTitle, m.ogDescription, m.domain, m.favicon))
  }

  /** For a URL that parses, processing never rejects, whatever the fetch did,
      and both outcomes agree on domain and favicon. */
  lemma NeverRejectsParsedUrl(f: Fetch, u: Url)
    ensures ProcessLink(f, Some(u)).Some?
    ensures ProcessLink(f, Some(u)).value.domain == ProcessLink(FetchFailed, Some(u)).value.domain
    ensures ProcessLink(f, Some(u)).value.favicon == ProcessLink(FetchFailed, Some(u)).value.favicon
  {
  }

  /** A page without any of the looked-up tags yields empty strings everywhere
      but in the URL-derived fields. */
  lemma EmptyPageYieldsEmptyFields(u: Url)
    ensures var m := FetchWebpageContent(Fetched(Page(None, None, "", None, None)), Some(u)).value;
      m.title == "" && m.description == "" && m.ogImage == "" && m.ogTitle == "" && m.ogDescription == ""
  {
  }

  /** Submitting `https://example.com/article` whose page carries og:title
      "Great Article" and og:description "A summary". */
  lemma ExampleArticle()
    ensures var m := FetchWebpageContent(
              Fetched(Page(None, Some("Great Article"), "", Some("A summary"), None)),
              Some(Url("https:", "example.com"))).value;
      m.title == "Great Article" && m.description == "A summary"
      && m.domain == "example.com" && m.favicon == "https://example.com/favicon.ico"
  {
  }
}
