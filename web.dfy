/**
 * What the scanner learns from the network, as values. Each `requests.get`
 * either raises or yields a response; the parts of a response body the
 * scanner looks at (through BeautifulSoup and CSS selectors) are given here
 * as already-extracted facts.
 */
module Web {
  import opened Wrappers

  /** A `<meta>` element: `content` is its content attribute, None when it has none. */
  datatype Meta = Meta(content: Option<string>)

  /** The facts about an HTML page that the page audit reads (seo.py:199-232). */
  datatype PageFacts = PageFacts(
    title: Option<string>,        // text of the first <title>, None when there is none
    description: Option<Meta>,    // first meta[name='description']
    published: Option<Meta>,      // first meta[name='article:published_time']
    modified: Option<Meta>,       // first meta[name='article:modified_time']
    dcDate: Option<Meta>,         // first meta[name='DC.Date']
    hasMain: bool,                // a <main> element exists
    hasRoleMain: bool,            // an element with role=main exists
    hasSearchInput: bool,         // an <input type="search"> exists
    hasSearchClass: bool)         // an element whose class contains "search" exists

  /** A response body, both as text and as the parser sees it. */
  datatype Document = Document(
    text: string,                 // the response text (read directly for robots.txt)
    urlTexts: seq<string>,        // get_text() of every <url> element, in document order
    hasSitemapIndex: bool,        // a <sitemapindex> element exists
    sitemapLocs: seq<string>,     // text of every `sitemap > loc`, in document order
    page: PageFacts)

  /** A response after redirects: status code, final URL and body. */
  datatype Response = Response(status: int, url: string, doc: Document)

  /** The outcome of one `requests.get`: it raised, or it produced a response. */
  datatype Fetch = Raised | Got(resp: Response)

  /** The web as the scanner sees it: what fetching each URL yields. */
  type Site = string -> Fetch

  /** HTTPStatus.OK */
  const OK: int := 200

  /** The response exists and has status 200. */
  predicate IsOk(f: Fetch)
  {
    f.Got? && f.resp.status == OK
  }
}
