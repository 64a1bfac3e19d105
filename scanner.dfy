/**
 * The scanner as the source runs it: one result record whose columns the two
 * passes update in place (seo.py:50-69, 72-162, 165-253), and `scan`, which
 * runs both passes for one domain (seo.py:256-270). Each method is proved to
 * leave the record as the corresponding function of `Sitemap` or `PageAudit`
 * says.
 */
module Scanner {
  import opened Wrappers
  import opened Text
  import opened Web
  import opened Record
  import opened Sitemap
  import opened PageAudit

  class ScanRecord {
    var platforms: Platforms
    var sitemapStatus: SitemapStatus
    var sitemapFinalUrl: Option<string>
    var sitemapItems: nat
    var pdfItems: nat
    var indexLocs: seq<string>
    var robots: RobotsStatus
    var crawlDelay: Option<string>
    var robotsLocs: seq<string>
    var totalUrls: nat
    var estimate: Estimate
    var mainFound: bool
    var searchFound: bool
    var warnings: set<Warning>
    var pages: map<string, PageEntry>

    /** The record's columns as a value. */
    function Data(): ScanData
      reads this
    {
      ScanData(platforms, sitemapStatus, sitemapFinalUrl, sitemapItems, pdfItems, indexLocs, robots,
               crawlDelay, robotsLocs, totalUrls, estimate, mainFound, searchFound, warnings, pages)
    }

    /** A record with every column at its default, and an Unvisited entry for each audited page (seo.py:50-69). */
    constructor()
      ensures Data() == DefaultData()
    {
      var entries: map<string, PageEntry> := map[];
      for i := 0 to |Pages|
        invariant entries == map p | p in Pages[..i] :: Unvisited
      {
        assert Pages[..i + 1] == Pages[..i] + [Pages[i]];
        entries := entries[Pages[i] := Unvisited];
      }
      assert Pages[..|Pages|] == Pages;
      platforms, sitemapStatus, sitemapFinalUrl := NotLookedUp, NoStatus, None;
      sitemapItems, pdfItems, indexLocs := 0, 0, [];
      robots, crawlDelay, robotsLocs := NoRobots, None, [];
      totalUrls, estimate := 0, Unknown;
      mainFound, searchFound, warnings := false, false, {};
      pages := entries;
    }

    /** The primary sitemap's columns (seo.py:88-110); returns its <url> count when it is OK, else 0. */
    method ReadPrimarySitemap(fqd: string, sitemap: Fetch) returns (urlCount: nat)
      modifies this`sitemapStatus, this`sitemapFinalUrl, this`sitemapItems, this`pdfItems, this`indexLocs
      ensures Data() == RecordPrimary(old(Data()), SitemapUrl(fqd), sitemap)
      ensures urlCount == PrimaryUrlCount(sitemap)
    {
      urlCount := 0;
      if sitemap.Raised? {
        sitemapStatus := CouldNotGet(SitemapUrl(fqd));
        return;
      }
      var r := sitemap.resp;
      sitemapStatus := StatusCode(r.status);
      sitemapFinalUrl := Some(r.url);
      if r.status == OK {
        var urls := r.doc.urlTexts;
        urlCount := |urls|;
        sitemapItems := urlCount;
        if urls != [] {
          pdfItems := |PdfUrls(urls)|;
        }
        if r.doc.hasSitemapIndex {
          indexLocs := r.doc.sitemapLocs;
        }
        assert Data() == old(Data()).(sitemapStatus := sitemapStatus, sitemapFinalUrl := sitemapFinalUrl,
          sitemapItems := sitemapItems, pdfItems := pdfItems, indexLocs := indexLocs);
      }
    }

    /** The robots.txt columns (seo.py:116-133). */
    method ReadRobots(robotsFetch: Fetch)
      modifies this
      ensures Data() == RecordRobots(old(Data()), robotsFetch)
    {
      if robotsFetch.Raised? {
        return;
      }
      var r := robotsFetch.resp;
      if r.status == OK {
        robots := RobotsOk;
        var cd := FindAll(r.doc.text, CrawlDelayPattern);
        if cd != [] {
          crawlDelay := Some(cd[0]);
        }
        robotsLocs := FindAll(r.doc.text, SitemapPattern);
      } else {
        robots := RobotsCode(r.status);
      }
    }

    /** The two loops over child sitemaps (seo.py:138-153): `start` plus the URLs of every child, None when a fetch raises. */
    method CountChildren(site: Site, start: nat) returns (total: Option<nat>)
      ensures total == Plus(Some(start), Tally(site, indexLocs + robotsLocs, sitemapFinalUrl))
    {
      total := TallyLocations(site, indexLocs, sitemapFinalUrl, start);
      if total.Some? {
        total := TallyLocations(site, robotsLocs, sitemapFinalUrl, total.value);
      }
      TallyAppend(site, indexLocs, robotsLocs, sitemapFinalUrl);
    }

    /** The time to index, once the total is known (seo.py:157-159). */
    method EstimateTime() returns (outcome: Outcome)
      modifies this`estimate
      ensures Pass(Data(), outcome) == RecordEstimate(old(Data()))
    {
      if crawlDelay.Some? && crawlDelay.value != "" {
        var delay := ParseInt(crawlDelay.value);
        if delay.None? {
          return Aborted(DelayNotInteger);
        }
        estimate := Hours(EstimateHours(totalUrls, delay.value));
      }
      return Completed;
    }

    /** `sitemap_scan`: the sitemap pass over this record for the site at `fqd`. */
    method SitemapScan(site: Site, fqd: string) returns (outcome: Outcome)
      modifies this
      ensures Pass(Data(), outcome) == ScanSitemap(old(Data()), site, fqd)
    {
      ghost var d := Data();
      var primary := ReadSitemapFiles(site, fqd);
      ScanSitemapAfterRobots(d, site, fqd, Data());
      outcome := TallyAndEstimate(site, primary);
    }

    /** The primary sitemap, then robots.txt (seo.py:88-133). */
    method ReadSitemapFiles(site: Site, fqd: string) returns (primary: nat)
      modifies this
      ensures Data() == RecordRobots(RecordPrimary(old(Data()), SitemapUrl(fqd), site(SitemapUrl(fqd))), site(RobotsUrl(fqd)))
      ensures primary == PrimaryUrlCount(site(SitemapUrl(fqd)))
    {
      primary := ReadPrimarySitemap(fqd, site(SitemapUrl(fqd)));
      ReadRobots(site(RobotsUrl(fqd)));
    }

    /** The children's counts added to the total, then the estimate (seo.py:135-159). */
    method TallyAndEstimate(site: Site, primary: nat) returns (outcome: Outcome)
      modifies this
      ensures Pass(Data(), outcome) ==
        match Tally(site, old(indexLocs + robotsLocs), old(sitemapFinalUrl))
        case None => Pass(old(Data()), Aborted(ChildFetchRaised))
        case Some(additional) => RecordEstimate(old(Data()).(totalUrls := old(totalUrls) + primary + additional))
    {
      var total := CountChildren(site, totalUrls + primary);
      if total.None? {
        return Aborted(ChildFetchRaised);
      }
      totalUrls := total.value;
      outcome := EstimateTime();
    }

    /** One page of the audit loop (seo.py:193-242), given the lists collected so far. */
    method AuditOne(page: string, url: string, fetch: Fetch, titles: seq<string>, descriptions: seq<string>)
      returns (titles': seq<string>, descriptions': seq<string>)
      modifies this`mainFound, this`searchFound, this`pages
      ensures titles' == titles + PageTitle(fetch) && descriptions' == descriptions + PageDescription(fetch)
      ensures mainFound == (old(mainFound) || ShowsMain(fetch)) && searchFound == (old(searchFound) || ShowsSearch(fetch))
      ensures pages == old(pages)[page := Entry(url, fetch)]
    {
      if fetch.Raised? {
        titles', descriptions' := titles, descriptions;
        pages := pages[page := CouldNotAudit(url)];
      } else if fetch.resp.status != OK {
        titles', descriptions' := titles, descriptions;
        pages := pages[page := NotFound];
      } else {
        titles', descriptions' := AuditDocument(page, url, fetch, titles, descriptions);
      }
    }

    /** An OK page (seo.py:199-240): its title, its metas, then the two flags, unless something raises first. */
    method AuditDocument(page: string, url: string, fetch: Fetch, titles: seq<string>, descriptions: seq<string>)
      returns (titles': seq<string>, descriptions': seq<string>)
      requires IsOk(fetch)
      modifies this`mainFound, this`searchFound, this`pages
      ensures titles' == titles + PageTitle(fetch) && descriptions' == descriptions + PageDescription(fetch)
      ensures mainFound == (old(mainFound) || ShowsMain(fetch)) && searchFound == (old(searchFound) || ShowsSearch(fetch))
      ensures pages == old(pages)[page := Entry(url, fetch)]
    {
      var f := fetch.resp.doc.page;
      if f.title.None? {
        titles', descriptions' := titles, descriptions;
        pages := pages[page := CouldNotAudit(url)];
        return;
      }
      titles' := titles + [f.title.value];
      var complete, dateContent;
      complete, descriptions', dateContent := ReadMetas(f, descriptions);
      if !complete {
        pages := pages[page := CouldNotAudit(url)];
        return;
      }
      if !mainFound {
        mainFound := f.hasMain;
        if !mainFound {
          mainFound := f.hasRoleMain;
        }
      }
      if !searchFound {
        searchFound := f.hasSearchInput;
        if !searchFound {
          searchFound := f.hasSearchClass;
        }
      }
      pages := pages[page := Audited(f.title.value, f.description, dateContent)];
    }

    /**
     * The description and date metas of a page whose title was read (seo.py:204-215):
     * `complete` is false where reading a content attribute raises.
     */
    method ReadMetas(f: PageFacts, descriptions: seq<string>) returns (complete: bool, descriptions': seq<string>, dateContent: Option<string>)
      ensures complete == (DescriptionReadable(f) && DateReadable(f))
      ensures descriptions' == descriptions + (if f.description.Some? && f.description.value.content.Some? then [f.description.value.content.value] else [])
      ensures complete ==> dateContent == if DateMeta(f).Some? then DateMeta(f).value.content else None
    {
      descriptions', dateContent := descriptions, None;
      if f.description.Some? {
        if f.description.value.content.None? {
          return false, descriptions', dateContent;
        }
        descriptions' := descriptions' + [f.description.value.content.value];
      }
      DateMetaOrder(f);
      var date := f.published;
      if date.None? {
        date := f.modified;
        if date.None? {
          date := f.dcDate;
        }
      }
      if date.Some? {
        if date.value.content.None? {
          return false, descriptions', dateContent;
        }
        dateContent := date.value.content;
      }
      complete := true;
    }

    /** The page loop (seo.py:189-242): audits each page in order and returns the titles and descriptions collected. */
    method AuditPages(site: Site, fqd: string) returns (titles: seq<string>, descriptions: seq<string>)
      modifies this`mainFound, this`searchFound, this`pages
      ensures AuditFrom(AuditState([], [], old(mainFound), old(searchFound), old(pages)), site, fqd, Pages)
        == AuditState(titles, descriptions, mainFound, searchFound, pages)
    {
      titles, descriptions := [], [];
      for i := 0 to |Pages|
        invariant AuditFrom(AuditState([], [], old(mainFound), old(searchFound), old(pages)), site, fqd, Pages[..i])
          == AuditState(titles, descriptions, mainFound, searchFound, pages)
      {
        var page := Pages[i];
        assert Pages[..i + 1][..i] == Pages[..i];
        titles, descriptions := AuditOne(page, fqd + page, site(fqd + page), titles, descriptions);
      }
      assert Pages[..|Pages|] == Pages;
    }

    /** The duplicate check (seo.py:246-249): adds a warning for each list that repeats a value. */
    method CheckDuplicates(titles: seq<string>, descriptions: seq<string>)
      modifies this`warnings
      ensures warnings == old(warnings) + DuplicateWarnings(titles, descriptions)
    {
      ElementsCount(titles);
      ElementsCount(descriptions);
      if |titles| != |Elements(titles)| {
        warnings := warnings + {DuplicateTitles};
      }
      if |descriptions| != |Elements(descriptions)| {
        warnings := warnings + {DuplicateDescriptions};
      }
    }

    /** The fresh page columns of `seo_scan` (seo.py:175-186). */
    method ResetPageColumns(buildInfo: map<string, seq<string>>)
      modifies this`platforms, this`mainFound, this`searchFound, this`warnings
      ensures platforms == PlatformsOf(buildInfo) && !mainFound && !searchFound && warnings == {}
    {
      platforms := UnknownPlatform;
      mainFound, searchFound, warnings := false, false, {};
      if "web-frameworks" in buildInfo {
        platforms := Frameworks(buildInfo["web-frameworks"]);
      }
    }

    /** `seo_scan`: the page pass over this record, given what the fingerprint service reported. */
    method SeoScan(site: Site, fqd: string, buildInfo: map<string, seq<string>>)
      modifies this
      ensures Data() == PageAudit.SeoScan(old(Data()), site, fqd, buildInfo)
    {
      RunPagePass(site, fqd, buildInfo);
    }

    /** The page columns after `seo_scan` (seo.py:175-249), in terms of the audit it runs. */
    method RunPagePass(site: Site, fqd: string, buildInfo: map<string, seq<string>>)
      modifies this`platforms, this`mainFound, this`searchFound, this`warnings, this`pages
      ensures var st := AuditFrom(AuditState([], [], false, false, old(pages)), site, fqd, Pages);
        && platforms == PlatformsOf(buildInfo)
        && mainFound == st.mainFound && searchFound == st.searchFound
        && warnings == DuplicateWarnings(st.titles, st.descriptions)
        && pages == st.entries
    {
      ResetPageColumns(buildInfo);
      ghost var start := AuditState([], [], mainFound, searchFound, pages);
      assert start == AuditState([], [], false, false, old(pages));
      var titles, descriptions := AuditPages(site, fqd);
      assert AuditFrom(start, site, fqd, Pages) == AuditState(titles, descriptions, mainFound, searchFound, pages);
      CheckDuplicates(titles, descriptions);
      assert warnings == DuplicateWarnings(titles, descriptions);
    }
  }

  /** The fully qualified domain: https, no trailing slash (seo.py:262). */
  function Fqd(domain: string): string
  {
    "https://" + domain
  }

  /**
   * `scan` for one domain, on a fresh record: the sitemap pass, then, unless
   * it raised, the page pass.
   */
  function ScanDomain(site: Site, domain: string, buildInfo: map<string, seq<string>>): (p: Pass)
    ensures p.data.pdfItems <= p.data.sitemapItems
    ensures p.outcome != Aborted(ChildFetchRaised) ==> p.data.sitemapItems <= p.data.totalUrls
    ensures p.data.estimate.Hours? ==> p.outcome == Completed && HasCrawlDelay(p.data)
    ensures p.outcome == Completed ==> p.data.pages.Keys == set q | q in Pages
    ensures p.outcome == ScanSitemap(DefaultData(), site, Fqd(domain)).outcome
  {
    var fqd := Fqd(domain);
    var d := DefaultData();
    var s := ScanSitemap(d, site, fqd);
    RecordPrimaryColumns(d, SitemapUrl(fqd), site(SitemapUrl(fqd)));
    ScanSitemapTotal(d, site, fqd);
    EstimateNeedsCrawlDelay(d, site, fqd);
    if s.outcome.Aborted? then s
    else
      var e := PageAudit.SeoScan(s.data, site, fqd, buildInfo);
      SeoScanEntries(s.data, site, fqd, buildInfo);
      Pass(e, Completed)
  }

  /** `scan(domain)` on a fresh record. */
  method Scan(site: Site, domain: string, buildInfo: map<string, seq<string>>) returns (record: ScanRecord, outcome: Outcome)
    ensures fresh(record)
    ensures record.Data() == ScanDomain(site, domain, buildInfo).data
    ensures outcome == ScanDomain(site, domain, buildInfo).outcome
  {
    record := new ScanRecord();
    var fqd := Fqd(domain);
    outcome := record.SitemapScan(site, fqd);
    if outcome.Completed? {
      record.SeoScan(site, fqd, buildInfo);
    }
  }
}
