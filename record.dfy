/**
 * The per-domain result record (seo.py:50-69): one field per output column,
 * with the column's default value. The source keeps it as a dict; here it is
 * a fixed-shape record, and the keys the source writes are mapped onto the
 * columns they evidently stand for (README.md, "Key mapping").
 */
module Record {
  import opened Wrappers
  import opened Web

  /** The pages that are audited, in order (seo.py:43-46). */
  const Pages: seq<string> := ["/", "/privacy"]

  /** 'Platforms': not yet looked up (None), 'Unknown', or the web frameworks reported. */
  datatype Platforms = NotLookedUp | UnknownPlatform | Frameworks(names: seq<string>)

  /** 'Sitemap status code': unset, the status code, or the error recorded when the fetch raised. */
  datatype SitemapStatus = NoStatus | StatusCode(code: int) | CouldNotGet(url: string)

  /** 'Robots.txt': unset, 'OK', or the status code of a response that was not OK. */
  datatype RobotsStatus = NoRobots | RobotsOk | RobotsCode(code: int)

  /** 'Est time to index': 'Unknown', or hours. */
  datatype Estimate = Unknown | Hours(hours: real)

  datatype Warning = DuplicateTitles | DuplicateDescriptions

  /** The entry stored under a page's path. */
  datatype PageEntry =
    | Unvisited                                                   // the default None
    | NotFound                                                    // '404'
    | Audited(title: string, description: Option<Meta>, date: Option<string>)
    | CouldNotAudit(url: string)                                  // "Could not get data from <url>: <error>"

  datatype ScanData = ScanData(
    platforms: Platforms,
    sitemapStatus: SitemapStatus,
    sitemapFinalUrl: Option<string>,
    sitemapItems: nat,
    pdfItems: nat,
    indexLocs: seq<string>,
    robots: RobotsStatus,
    crawlDelay: Option<string>,
    robotsLocs: seq<string>,
    totalUrls: nat,
    estimate: Estimate,
    mainFound: bool,
    searchFound: bool,
    warnings: set<Warning>,
    pages: map<string, PageEntry>)

  /** The record before any scan: every column at its default, one Unvisited entry per audited page. */
  function DefaultData(): (d: ScanData)
    ensures forall p :: p in d.pages <==> p in Pages
    ensures forall p :: p in d.pages ==> d.pages[p] == Unvisited
    ensures d.sitemapItems == 0 && d.pdfItems == 0 && d.totalUrls == 0
    ensures d.indexLocs == [] && d.robotsLocs == [] && d.crawlDelay == None && d.estimate == Unknown
    ensures !d.mainFound && !d.searchFound && d.warnings == {}
  {
    ScanData(NotLookedUp, NoStatus, None, 0, 0, [], NoRobots, None, [], 0, Unknown,
             false, false, {}, map p | p in Pages :: Unvisited)
  }
}
