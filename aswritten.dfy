/**
 * The two passes as the source writes them, on a Python-like dict, kept
 * beside the corrected model to exhibit where they differ (README.md,
 * "Findings"). The dict maps keys to a small universe of Python values; an
 * exception that escapes a pass ends it with `Raises`. The per-page audit
 * and the child-sitemap tally are the same here as in the corrected model,
 * so they are taken from `PageAudit` and `Sitemap`.
 */
module AsWritten {
  import opened Wrappers
  import opened Text
  import opened Web
  import opened Record
  import opened Sitemap
  import opened PageAudit
  import Scanner

  /** The values the passes store. */
  datatype Value =
    | PyNone
    | PyBool(b: bool)
    | PyInt(i: int)
    | PyReal(x: real)
    | PyStr(s: string)
    | PyList(items: seq<string>)
    | PyDict(flags: map<string, bool>)
    | PyPage(entry: PageEntry)      // what `results[page]` is set to

  /** The keys the source uses, one constructor per string literal. */
  datatype Key =
    // the columns of the record (seo.py:51-65)
    | Platforms               // 'Platforms'
    | SitemapStatusCode       // 'Sitemap status code'
    | SitemapFinalUrl         // 'Sitemap final url'
    | SitemapItems            // 'Sitemap items'
    | PdfsInSitemap           // 'PDFs in sitemap'
    | SitemapsFromIndex       // 'Sitemaps from index'
    | RobotsTxt               // 'Robots.txt'
    | CrawlDelayColumn        // 'Crawl delay'
    | SitemapsFromRobots      // 'Sitemaps from robots'
    | TotalUrls               // 'Total URLs'
    | EstTimeToIndex          // 'Est time to index'
    | MainTagsFound           // 'Main tags found'
    | SearchFound             // 'Search found'
    | PagesColumn             // 'Pages'
    | Warnings                // 'Warnings'
    | Page(path: string)      // '/', '/privacy'
    // the keys the passes write to instead
    | StatusCodeKey           // 'status_code'
    | FinalUrlKey             // 'final_url'
    | UrlTagCountKey          // 'url_tag_count'
    | PdfsInUrlsKey           // 'pdfs_in_urls'
    | IndexLocationsKey       // 'sitemap_locations_from_index'
    | RobotsKey               // 'robots'
    | CrawlDelayKey           // 'crawl_delay'
    | RobotsLocationsKey      // 'sitemap_locations_from_robotstxt'
    | LowercaseWarningsKey    // 'warnings'

  type Dict = map<Key, Value>

  datatype PyError = KeyError(key: Key) | TypeError | ValueError | UnboundLocal(name: string) | FetchRaised

  datatype PyResult = Returned(results: Dict) | Raises(error: PyError)

  /** Python truthiness. */
  predicate Truthy(v: Value)
  {
    match v
    case PyNone => false
    case PyBool(b) => b
    case PyInt(i) => i != 0
    case PyReal(x) => x != 0.0
    case PyStr(s) => s != ""
    case PyList(items) => items != []
    case PyDict(flags) => flags != map[]
    case PyPage(_) => true
  }

  /** `scan_data` as initialised at import (seo.py:50-69). */
  function ScanDataDefaults(): (d: Dict)
    ensures forall p :: p in Pages ==> Page(p) in d && d[Page(p)] == PyNone
    ensures Warnings in d && LowercaseWarningsKey !in d
    ensures TotalUrls in d && d[TotalUrls] == PyInt(0) && UrlTagCountKey !in d
  {
    map[
      Platforms := PyNone,
      SitemapStatusCode := PyNone,
      SitemapFinalUrl := PyNone,
      SitemapItems := PyInt(0),
      PdfsInSitemap := PyInt(0),
      SitemapsFromIndex := PyList([]),
      RobotsTxt := PyNone,
      CrawlDelayColumn := PyNone,
      SitemapsFromRobots := PyList([]),
      TotalUrls := PyInt(0),
      EstTimeToIndex := PyStr("Unknown"),
      MainTagsFound := PyNone,
      SearchFound := PyNone,
      PagesColumn := PyNone,
      Warnings := PyNone,
      Page("/") := PyNone,
      Page("/privacy") := PyNone]
  }

  /** The defaults of the columns the discrepancies are about; the keys `sitemap_scan` writes are not among them. */
  lemma DefaultsAt()
    ensures var d := ScanDataDefaults();
      && SitemapStatusCode in d && d[SitemapStatusCode] == PyNone
      && SitemapItems in d && d[SitemapItems] == PyInt(0)
      && RobotsTxt in d && d[RobotsTxt] == PyNone
      && CrawlDelayColumn in d && d[CrawlDelayColumn] == PyNone
      && EstTimeToIndex in d && d[EstTimeToIndex] == PyStr("Unknown")
      && TotalUrls in d && d[TotalUrls] == PyInt(0)
      && IndexLocationsKey !in d && RobotsLocationsKey !in d && UrlTagCountKey !in d
  {
  }

  /** `r2` holds what `r` holds under key `k`. */
  predicate Keeps(r: Dict, r2: Dict, k: Key)
  {
    k in r ==> k in r2 && r2[k] == r[k]
  }

  // ---------------------------------------------------------------------------
  // sitemap_scan as written (seo.py:72-162)

  /** The URL the robots.txt step fetches (seo.py:117). */
  function RobotsUrlAsWritten(fqd: string): string
  {
    fqd + "/sitemap.xml"
  }

  /** seo.py:100-110, for an OK primary sitemap. */
  function PrimaryAsWritten(r: Dict, doc: Document): (r': Dict)
    ensures UrlTagCountKey in r' && r'[UrlTagCountKey] == PyInt(|doc.urlTexts|)
    ensures forall k: Key :: !k.UrlTagCountKey? && !k.PdfsInUrlsKey? && !k.IndexLocationsKey? ==> Keeps(r, r', k)
    ensures IndexLocationsKey in r' <==> IndexLocationsKey in r || doc.hasSitemapIndex
  {
    var urls := doc.urlTexts;
    var r1 := r[UrlTagCountKey := PyInt(|urls|)];
    var r2 := if urls != [] then r1[PdfsInUrlsKey := PyInt(|PdfUrls(urls)|)] else r1;
    if doc.hasSitemapIndex then r2[IndexLocationsKey := PyList(doc.sitemapLocs)] else r2
  }

  /** seo.py:116-133; an exception from the fetch is caught and changes nothing. */
  function RobotsAsWritten(r: Dict, fetch: Fetch): (r': Dict)
    ensures forall k: Key :: !k.RobotsKey? && !k.CrawlDelayKey? && !k.RobotsLocationsKey? ==> Keeps(r, r', k)
    ensures RobotsLocationsKey in r' <==> RobotsLocationsKey in r || IsOk(fetch)
  {
    match fetch
    case Raised => r
    case Got(resp) =>
      if resp.status == OK then
        var cd := FindAll(resp.doc.text, CrawlDelayPattern);
        var r1 := r[RobotsKey := PyStr("OK")];
        var r2 := if cd != [] then r1[CrawlDelayKey := PyStr(cd[0])] else r1;
        r2[RobotsLocationsKey := PyList(FindAll(resp.doc.text, SitemapPattern))]
      else r[RobotsKey := PyInt(resp.status)]
  }

  /** `results[key]` used as a list of locations. */
  datatype LocLookup = Locs(locs: seq<string>) | LookupFails(error: PyError)

  function LocationsAt(r: Dict, key: Key): LocLookup
  {
    if key !in r then LookupFails(KeyError(key))
    else if r[key].PyList? then Locs(r[key].items)
    else LookupFails(TypeError)
  }

  /** `results['final_url']`, written whenever the primary fetch produced a response. */
  function FinalUrlOf(r: Dict): Option<string>
  {
    if FinalUrlKey in r && r[FinalUrlKey].PyStr? then Some(r[FinalUrlKey].s) else None
  }

  /** `int(v)` */
  datatype IntConversion = Converted(n: int) | Fails(error: PyError)

  function PyIntOf(v: Value): IntConversion
  {
    match v
    case PyInt(i) => Converted(i)
    case PyBool(b) => Converted(if b then 1 else 0)
    case PyStr(s) => if ParseInt(s).Some? then Converted(ParseInt(s).value) else Fails(ValueError)
    case PyReal(x) => Converted(if x >= 0.0 then x.Floor else -((-x).Floor))
    case _ => Fails(TypeError)
  }

  /** seo.py:157-159 */
  function EstimateAsWritten(r: Dict): (p: PyResult)
    ensures p.Returned? ==> forall k: Key :: !k.EstTimeToIndex? ==> Keeps(r, p.results, k)
    ensures CrawlDelayColumn in r && !Truthy(r[CrawlDelayColumn]) ==> p == Returned(r)
  {
    if CrawlDelayColumn !in r then Raises(KeyError(CrawlDelayColumn))
    else if !Truthy(r[CrawlDelayColumn]) then Returned(r)
    else if TotalUrls !in r then Raises(KeyError(TotalUrls))
    else
      match (PyIntOf(r[TotalUrls]), PyIntOf(r[CrawlDelayColumn]))
      case (Fails(e), _) => Raises(e)
      case (_, Fails(e)) => Raises(e)
      case (Converted(total), Converted(delay)) =>
        Returned(r[EstTimeToIndex := PyReal((total * delay) as real / 3600.0)])
  }

  /** seo.py:138-159 */
  function ChildrenAsWritten(r: Dict, site: Site): (p: PyResult)
    ensures p.Returned? ==> IndexLocationsKey in r && RobotsLocationsKey in r
    ensures p.Returned? ==> forall k: Key :: !k.TotalUrls? && !k.EstTimeToIndex? ==> Keeps(r, p.results, k)
    ensures p.Returned? && CrawlDelayColumn in r && !Truthy(r[CrawlDelayColumn]) ==> Keeps(r, p.results, EstTimeToIndex)
  {
    match LocationsAt(r, IndexLocationsKey)
    case LookupFails(e) => Raises(e)
    case Locs(index) =>
      match Tally(site, index, FinalUrlOf(r))
      case None => Raises(FetchRaised)
      case Some(a) =>
        match LocationsAt(r, RobotsLocationsKey)
        case LookupFails(e) => Raises(e)
        case Locs(declared) =>
          match Tally(site, declared, FinalUrlOf(r))
          case None => Raises(FetchRaised)
          case Some(b) =>
            if TotalUrls !in r then Raises(KeyError(TotalUrls))
            else if !r[TotalUrls].PyInt? then Raises(TypeError)
            else EstimateAsWritten(r[TotalUrls := PyInt(r[TotalUrls].i + a + b)])
  }

  /** The keys `sitemap_scan` assigns, on some path. */
  predicate WrittenBySitemapPass(k: Key)
  {
    || k.StatusCodeKey? || k.FinalUrlKey? || k.UrlTagCountKey? || k.PdfsInUrlsKey? || k.IndexLocationsKey?
    || k.RobotsKey? || k.CrawlDelayKey? || k.RobotsLocationsKey? || k.TotalUrls? || k.EstTimeToIndex?
  }

  /** `sitemap_scan(fqd, results)` as written. */
  function SitemapScanAsWritten(results: Dict, site: Site, fqd: string): (p: PyResult)
    ensures p.Returned? ==> forall k: Key :: !WrittenBySitemapPass(k) ==> Keeps(results, p.results, k)
    ensures p.Returned? && CrawlDelayColumn in results && !Truthy(results[CrawlDelayColumn]) ==> Keeps(results, p.results, EstTimeToIndex)
  {
    match site(SitemapUrl(fqd))
    case Raised => Raises(UnboundLocal("sitemap"))
    case Got(sm) =>
      var r1 := results[StatusCodeKey := PyInt(sm.status)][FinalUrlKey := PyStr(sm.url)];
      var r2 := if sm.status == OK then PrimaryAsWritten(r1, sm.doc) else r1;
      ChildrenAsWritten(RobotsAsWritten(r2, site(RobotsUrlAsWritten(fqd))), site)
  }

  // ---------------------------------------------------------------------------
  // seo_scan as written (seo.py:165-253)

  /** `results['warnings'][key] = True` (seo.py:247, 249). */
  function WarnAsWritten(r: Dict, key: string): PyResult
  {
    if LowercaseWarningsKey !in r then Raises(KeyError(LowercaseWarningsKey))
    else if r[LowercaseWarningsKey].PyDict? then Returned(r[LowercaseWarningsKey := PyDict(r[LowercaseWarningsKey].flags[key := true])])
    else Raises(TypeError)
  }

  /** The keys of the dict `seo_scan` builds. */
  function SeoScanKeys(): set<Key>
  {
    {Platforms, MainTagsFound, SearchFound, Warnings, Page("/"), Page("/privacy")}
  }

  /** The new dict has neither 'warnings' nor the sitemap columns the record had. */
  lemma NotSeoScanKeys()
    ensures LowercaseWarningsKey !in SeoScanKeys()
    ensures TotalUrls !in SeoScanKeys() && SitemapItems !in SeoScanKeys() && EstTimeToIndex !in SeoScanKeys()
  {
  }

  /** The audit loop as written runs on the new dict, which has no page entries yet. */
  function AuditAsWritten(site: Site, fqd: string): AuditState
  {
    AuditFrom(AuditState([], [], false, false, map[]), site, fqd, Pages)
  }

  /** The audit loop as written gives an entry to each of the two pages and to nothing else. */
  lemma AuditAsWrittenPages(site: Site, fqd: string)
    ensures (set p | p in AuditAsWritten(site, fqd).entries :: Page(p)) == {Page("/"), Page("/privacy")}
  {
    var st0 := AuditState([], [], false, false, map[]);
    AuditOfPages(st0, site, fqd);
    var st1 := AuditPage(st0, "/", fqd + "/", Home(site, fqd));
    assert st1.entries.Keys == {"/"};
    var st := AuditPage(st1, "/privacy", fqd + "/privacy", Privacy(site, fqd));
    assert st.entries.Keys == {"/", "/privacy"};
  }

  /** The page entries as dict values. */
  function PageValues(entries: map<string, PageEntry>): (r: Dict)
    ensures r.Keys == set p | p in entries :: Page(p)
  {
    map k | k in (set p | p in entries :: Page(p)) :: PyPage(entries[k.path])
  }

  /** The new dict of seo.py:175-186, after the page loop (seo.py:192-242). */
  function AuditedDict(site: Site, fqd: string, buildInfo: map<string, seq<string>>): (r: Dict)
    ensures r.Keys == SeoScanKeys()
  {
    var started: Dict := map[
      Platforms := PyStr("Unknown"),
      MainTagsFound := PyBool(false),
      SearchFound := PyBool(false),
      Warnings := PyDict(map[])];
    var r1 := if "web-frameworks" in buildInfo then started[Platforms := PyList(buildInfo["web-frameworks"])] else started;
    var st := AuditAsWritten(site, fqd);
    AuditAsWrittenPages(site, fqd);
    r1[MainTagsFound := PyBool(st.mainFound)][SearchFound := PyBool(st.searchFound)] + PageValues(st.entries)
  }

  /** The duplicate check of seo.py:246-249 on dict `r`. */
  function DuplicateCheckAsWritten(r: Dict, titles: seq<string>, descriptions: seq<string>): (p: PyResult)
    requires LowercaseWarningsKey !in r
    ensures p.Raises? <==> HasRepeat(titles) || HasRepeat(descriptions)
    ensures p.Raises? ==> p.error == KeyError(LowercaseWarningsKey)
    ensures p.Returned? ==> p.results == r
  {
    ElementsCount(titles);
    ElementsCount(descriptions);
    var afterTitles := if |titles| != |Elements(titles)| then WarnAsWritten(r, "Duplicate titles found") else Returned(r);
    match afterTitles
    case Raises(_) => afterTitles
    case Returned(r3) =>
      if |descriptions| != |Elements(descriptions)| then WarnAsWritten(r3, "Duplicate descriptions found")
      else Returned(r3)
  }

  /** `seo_scan(fqd, results)` as written: `results` is replaced by a new dict at seo.py:175. */
  function SeoScanAsWritten(results: Dict, site: Site, fqd: string, buildInfo: map<string, seq<string>>): (p: PyResult)
    ensures p.Returned? ==> p.results.Keys == SeoScanKeys()
  {
    var st := AuditAsWritten(site, fqd);
    NotSeoScanKeys();
    DuplicateCheckAsWritten(AuditedDict(site, fqd, buildInfo), st.titles, st.descriptions)
  }

  /** `scan(domain)` as written, on the record as initialised (seo.py:256-270). */
  function ScanAsWritten(site: Site, domain: string, buildInfo: map<string, seq<string>>): (p: PyResult)
    ensures p.Returned? ==> p.results.Keys == SeoScanKeys()
  {
    match SitemapScanAsWritten(ScanDataDefaults(), site, Scanner.Fqd(domain))
    case Raises(e) => Raises(e)
    case Returned(r) => SeoScanAsWritten(r, site, Scanner.Fqd(domain), buildInfo)
  }

  // ---------------------------------------------------------------------------
  // The discrepancies

  /** robots.txt is never fetched: the robots step fetches the sitemap a second time. */
  lemma RobotsStepFetchesSitemap(fqd: string)
    ensures RobotsUrlAsWritten(fqd) == SitemapUrl(fqd)
    ensures RobotsUrlAsWritten(fqd) != RobotsUrl(fqd)
  {
    RobotsUrlIsNotSitemapUrl(fqd);
  }

  /** A primary fetch that raises leaves `sitemap` unbound, and reading it at seo.py:98 raises. */
  lemma SitemapFailureRaises(results: Dict, site: Site, fqd: string)
    requires site(SitemapUrl(fqd)).Raised?
    ensures SitemapScanAsWritten(results, site, fqd) == Raises(UnboundLocal("sitemap"))
  {
  }

  /** On a fresh record, the as-written pass returns only for an OK sitemap index; anything else raises a KeyError. */
  lemma {:induction false} ReturnsOnlyForSitemapIndex(site: Site, fqd: string)
    ensures
      var sm := site(SitemapUrl(fqd));
      SitemapScanAsWritten(ScanDataDefaults(), site, fqd).Returned? ==> IsOk(sm) && sm.resp.doc.hasSitemapIndex
    ensures
      var sm := site(SitemapUrl(fqd));
      sm.Got? && !(IsOk(sm) && sm.resp.doc.hasSitemapIndex) ==>
        SitemapScanAsWritten(ScanDataDefaults(), site, fqd) == Raises(KeyError(IndexLocationsKey))
  {
    var sm := site(SitemapUrl(fqd));
    if sm.Got? && !(IsOk(sm) && sm.resp.doc.hasSitemapIndex) {
      var r1 := ScanDataDefaults()[StatusCodeKey := PyInt(sm.resp.status)][FinalUrlKey := PyStr(sm.resp.url)];
      var r2 := if sm.resp.status == OK then PrimaryAsWritten(r1, sm.resp.doc) else r1;
      assert IndexLocationsKey !in r2;
      var r3 := RobotsAsWritten(r2, site(RobotsUrlAsWritten(fqd)));
      assert IndexLocationsKey !in r3;
    }
  }

  /** A key the pass never assigns keeps its value. */
  lemma SitemapPassKeeps(results: Dict, site: Site, fqd: string, k: Key)
    requires !WrittenBySitemapPass(k) && k in results
    ensures var p := SitemapScanAsWritten(results, site, fqd);
      p.Returned? ==> k in p.results && p.results[k] == results[k]
  {
    var p := SitemapScanAsWritten(results, site, fqd);
    if p.Returned? {
      assert Keeps(results, p.results, k);
    }
  }

  /**
   * The results are written under keys that are not the columns: the columns
   * the pass should fill keep their defaults, and 'Crawl delay' stays None,
   * so the estimate is never computed.
   */
  lemma ColumnsKeepDefaults(site: Site, fqd: string)
    ensures
      var p := SitemapScanAsWritten(ScanDataDefaults(), site, fqd);
      p.Returned? ==>
        && SitemapStatusCode in p.results && p.results[SitemapStatusCode] == PyNone
        && SitemapItems in p.results && p.results[SitemapItems] == PyInt(0)
        && RobotsTxt in p.results && p.results[RobotsTxt] == PyNone
  {
    var d := ScanDataDefaults();
    DefaultsAt();
    SitemapPassKeeps(d, site, fqd, SitemapStatusCode);
    SitemapPassKeeps(d, site, fqd, SitemapItems);
    SitemapPassKeeps(d, site, fqd, RobotsTxt);
  }

  /** 'Crawl delay' is never written, so the estimate is never computed. */
  lemma EstimateNeverComputed(site: Site, fqd: string)
    ensures
      var p := SitemapScanAsWritten(ScanDataDefaults(), site, fqd);
      p.Returned? ==>
        && CrawlDelayColumn in p.results && p.results[CrawlDelayColumn] == PyNone
        && EstTimeToIndex in p.results && p.results[EstTimeToIndex] == PyStr("Unknown")
  {
    var d := ScanDataDefaults();
    DefaultsAt();
    var p := SitemapScanAsWritten(d, site, fqd);
    SitemapPassKeeps(d, site, fqd, CrawlDelayColumn);
    if p.Returned? {
      assert Keeps(d, p.results, EstTimeToIndex);
    }
  }

  /** A sitemap index holding one <url> and listing no children, served for every request. */
  function IndexOnlySite(): Site
  {
    (u: string) => Got(Response(OK, u, IndexOnlyDocument()))
  }

  function IndexOnlyDocument(): Document
  {
    Document("", ["https://example.org/a"], true, [], PageFacts(None, None, None, None, None, false, false, false, false))
  }

  /** An empty text declares neither a crawl delay nor a sitemap. */
  lemma EmptyTextDeclaresNothing()
    ensures FindAll("", SitemapPattern) == [] && FindAll("", CrawlDelayPattern) == []
  {
    assert SplitLines("") == [""];
    FindAllSingleLine("", SitemapPattern);
    FindAllSingleLine("", CrawlDelayPattern);
  }

  /** With no child locations listed, the tally adds nothing to 'Total URLs'. */
  lemma NoChildrenAddNothing(r: Dict, site: Site)
    requires LocationsAt(r, IndexLocationsKey) == Locs([]) && LocationsAt(r, RobotsLocationsKey) == Locs([])
    requires TotalUrls in r && r[TotalUrls].PyInt?
    requires CrawlDelayColumn in r && !Truthy(r[CrawlDelayColumn])
    ensures ChildrenAsWritten(r, site) == Returned(r)
  {
    assert r[TotalUrls := PyInt(r[TotalUrls].i + 0 + 0)] == r;
  }

  /** The dict after the status and final URL are written, for the index-only site. */
  function IndexOnlyStart(fqd: string): Dict
  {
    ScanDataDefaults()[StatusCodeKey := PyInt(OK)][FinalUrlKey := PyStr(SitemapUrl(fqd))]
  }

  /** The dict after the robots step, for the index-only site. */
  function IndexOnlyAfterRobots(fqd: string): Dict
  {
    var fetch := Got(Response(OK, SitemapUrl(fqd), IndexOnlyDocument()));
    RobotsAsWritten(PrimaryAsWritten(IndexOnlyStart(fqd), IndexOnlyDocument()), fetch)
  }

  lemma IndexOnlyStartHolds(fqd: string)
    ensures var r := IndexOnlyStart(fqd);
      && TotalUrls in r && r[TotalUrls] == PyInt(0) && CrawlDelayColumn in r && r[CrawlDelayColumn] == PyNone
  {
    DefaultsAt();
  }

  /** The primary step writes the one <url> and an empty list of children. */
  lemma IndexOnlyPrimaryStep(fqd: string)
    ensures var r1 := IndexOnlyStart(fqd);
      PrimaryAsWritten(r1, IndexOnlyDocument()) ==
        r1[UrlTagCountKey := PyInt(1)][PdfsInUrlsKey := PyInt(|PdfUrls(IndexOnlyDocument().urlTexts)|)][IndexLocationsKey := PyList([])]
  {
  }

  /** An OK robots.txt with an empty text marks robots.txt OK and declares no sitemaps. */
  lemma RobotsOnEmptyText(r: Dict, fetch: Fetch)
    requires IsOk(fetch) && fetch.resp.doc.text == ""
    ensures RobotsAsWritten(r, fetch) == r[RobotsKey := PyStr("OK")][RobotsLocationsKey := PyList([])]
  {
    EmptyTextDeclaresNothing();
  }

  lemma IndexOnlyAfterRobotsHolds(fqd: string)
    ensures var r := IndexOnlyAfterRobots(fqd);
      && LocationsAt(r, IndexLocationsKey) == Locs([]) && LocationsAt(r, RobotsLocationsKey) == Locs([])
      && UrlTagCountKey in r && r[UrlTagCountKey] == PyInt(1)
      && TotalUrls in r && r[TotalUrls] == PyInt(0)
      && CrawlDelayColumn in r && r[CrawlDelayColumn] == PyNone
  {
    IndexOnlyStartHolds(fqd);
    IndexOnlyPrimaryStep(fqd);
    RobotsOnEmptyText(PrimaryAsWritten(IndexOnlyStart(fqd), IndexOnlyDocument()), Got(Response(OK, SitemapUrl(fqd), IndexOnlyDocument())));
  }

  /** The primary sitemap's own <url> count never reaches 'Total URLs'. */
  lemma TotalOmitsPrimaryCount()
    ensures
      var p := SitemapScanAsWritten(ScanDataDefaults(), IndexOnlySite(), "https://example.org");
      && p.Returned?
      && UrlTagCountKey in p.results && p.results[UrlTagCountKey] == PyInt(1)
      && TotalUrls in p.results && p.results[TotalUrls] == PyInt(0)
  {
    var site, fqd := IndexOnlySite(), "https://example.org";
    assert site(SitemapUrl(fqd)) == Got(Response(OK, SitemapUrl(fqd), IndexOnlyDocument()));
    var r := IndexOnlyAfterRobots(fqd);
    assert SitemapScanAsWritten(ScanDataDefaults(), site, fqd) == ChildrenAsWritten(r, site);
    IndexOnlyAfterRobotsHolds(fqd);
    NoChildrenAddNothing(r, site);
  }

  /** The corrected pass counts it. */
  lemma IndexOnlySiteCountsPrimary()
    ensures ScanSitemap(DefaultData(), IndexOnlySite(), "https://example.org").data.totalUrls == 1
  {
    var site, fqd := IndexOnlySite(), "https://example.org";
    EmptyTextDeclaresNothing();
    ScanSitemapTotal(DefaultData(), site, fqd);
    assert IndexLocsAfter(DefaultData(), site(SitemapUrl(fqd))) == [];
    assert RobotsLocsAfter(DefaultData(), site(RobotsUrl(fqd))) == [];
    assert Tally(site, [] + [], FinalUrlAfter(DefaultData(), site(SitemapUrl(fqd)))) == Some(0);
  }

  /** The duplicate check writes to 'warnings', which the new dict does not have: it raises exactly when the corrected pass warns. */
  lemma DuplicatesRaiseKeyError(results: Dict, d: ScanData, site: Site, fqd: string, buildInfo: map<string, seq<string>>)
    ensures SeoScanAsWritten(results, site, fqd, buildInfo).Raises? <==> PageAudit.SeoScan(d, site, fqd, buildInfo).warnings != {}
    ensures SeoScanAsWritten(results, site, fqd, buildInfo).Raises? ==>
      SeoScanAsWritten(results, site, fqd, buildInfo).error == KeyError(LowercaseWarningsKey)
  {
    AuditOfPagesLists(site, fqd, map[]);
    SeoScanWarnings(d, site, fqd, buildInfo);
  }

  /** `seo_scan` starts from a new dict: what it is passed has no effect, and none of the sitemap columns is in its result. */
  lemma SeoScanDiscardsResults(results: Dict, site: Site, fqd: string, buildInfo: map<string, seq<string>>)
    ensures SeoScanAsWritten(results, site, fqd, buildInfo) == SeoScanAsWritten(map[], site, fqd, buildInfo)
    ensures
      var p := SeoScanAsWritten(results, site, fqd, buildInfo);
      p.Returned? ==> TotalUrls !in p.results && SitemapItems !in p.results && EstTimeToIndex !in p.results
  {
    NotSeoScanKeys();
    var p := SeoScanAsWritten(results, site, fqd, buildInfo);
    if p.Returned? {
      assert p.results.Keys == SeoScanKeys();
    }
  }
}
