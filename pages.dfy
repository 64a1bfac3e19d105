/**
 * The page audit of `seo_scan` (seo.py:165-253): fetch each page of the
 * fixed list, collect titles and descriptions, look for a publication date,
 * a main landmark and a search control, and warn about repeated titles and
 * descriptions. This module states the audit as functions;
 * `Scanner.ScanRecord.SeoScan` performs it step by step and is proved to
 * agree with them.
 */
module PageAudit {
  import opened Wrappers
  import opened Web
  import opened Record

  // ---------------------------------------------------------------------------
  // Fallback chains (seo.py:208-212, 220-223, 228-231)

  /** The first link of a fallback chain that finds something, None when none does. */
  function FirstFound<T>(chain: seq<Option<T>>): Option<T>
  {
    if chain == [] then None
    else if chain[0].Some? then chain[0]
    else FirstFound(chain[1..])
  }

  /** A chain finds something exactly when one of its links does, and then it is the first such link. */
  lemma {:induction false} FirstFoundMeaning<T>(chain: seq<Option<T>>)
    ensures FirstFound(chain).Some? <==> exists i :: 0 <= i < |chain| && chain[i].Some?
    ensures FirstFound(chain).Some? ==>
      exists i :: 0 <= i < |chain| && chain[i] == FirstFound(chain) && forall j :: 0 <= j < i ==> chain[j].None?
  {
    if chain != [] && chain[0].None? {
      FirstFoundMeaning(chain[1..]);
      assert forall i :: 1 <= i < |chain| ==> chain[i] == chain[1..][i - 1];
      if FirstFound(chain).Some? {
        var k :| 0 <= k < |chain[1..]| && chain[1..][k] == FirstFound(chain) && forall j :: 0 <= j < k ==> chain[1..][j].None?;
        assert chain[k + 1] == FirstFound(chain);
      }
    }
  }

  /** The date meta: published time, else modified time, else DC.Date. */
  function DateMeta(f: PageFacts): (r: Option<Meta>)
    ensures r.Some? <==> f.published.Some? || f.modified.Some? || f.dcDate.Some?
    ensures r.Some? ==> r == f.published || r == f.modified || r == f.dcDate
  {
    var chain := [f.published, f.modified, f.dcDate];
    FirstFoundMeaning(chain);
    assert chain[0] == f.published && chain[1] == f.modified && chain[2] == f.dcDate;
    FirstFound(chain)
  }

  /** `main`, falling back to `[role=main]`. */
  predicate HasMainLandmark(f: PageFacts)
  {
    f.hasMain || f.hasRoleMain
  }

  /** `input[type=search]`, falling back to `[class*="search"]`. */
  predicate HasSearchControl(f: PageFacts)
  {
    f.hasSearchInput || f.hasSearchClass
  }

  /** The date chain stops at the first meta that exists, whether or not a later one would also exist. */
  lemma DateMetaOrder(f: PageFacts)
    ensures f.published.Some? ==> DateMeta(f) == f.published
    ensures f.published.None? && f.modified.Some? ==> DateMeta(f) == f.modified
    ensures f.published.None? && f.modified.None? ==> DateMeta(f) == f.dcDate
  {
    var chain := [f.published, f.modified, f.dcDate];
    assert chain[1..] == [f.modified, f.dcDate];
    assert chain[1..][1..] == [f.dcDate];
    assert chain[1..][1..][1..] == [];
    if f.published.None? {
      assert DateMeta(f) == FirstFound(chain[1..]);
      if f.modified.None? {
        assert FirstFound(chain[1..]) == FirstFound(chain[1..][1..]);
        assert FirstFound(chain[1..][1..]) == (if f.dcDate.Some? then f.dcDate else FirstFound(chain[1..][1..][1..]));
      }
    }
  }

  // ---------------------------------------------------------------------------
  // One page (seo.py:193-242)
  //
  // Inside the `try`, the audit of a page stops at the first exception:
  // a missing <title> raises before anything is collected; a description
  // meta or a date meta without a content attribute raises after the title
  // (and the description) were already collected, and before the flags are
  // looked at.

  /** The page was fetched, is OK and has a title: its title is collected. */
  predicate TitleRead(fetch: Fetch)
  {
    IsOk(fetch) && fetch.resp.doc.page.title.Some?
  }

  /** The description meta is absent or has content. */
  predicate DescriptionReadable(f: PageFacts)
  {
    f.description.None? || f.description.value.content.Some?
  }

  /** The date meta is absent or has content. */
  predicate DateReadable(f: PageFacts)
  {
    DateMeta(f).None? || DateMeta(f).value.content.Some?
  }

  /** The audit of the page runs to its end without an exception. */
  predicate AuditCompletes(fetch: Fetch)
  {
    TitleRead(fetch) && DescriptionReadable(fetch.resp.doc.page) && DateReadable(fetch.resp.doc.page)
  }

  /** The title this page adds to the list checked for repeats. */
  function PageTitle(fetch: Fetch): (t: seq<string>)
    ensures |t| <= 1
    ensures t != [] <==> TitleRead(fetch)
    ensures t != [] ==> t[0] == fetch.resp.doc.page.title.value
  {
    if TitleRead(fetch) then [fetch.resp.doc.page.title.value] else []
  }

  /** The page's title was read, and it has a description meta with content. */
  predicate DescriptionRead(fetch: Fetch)
  {
    TitleRead(fetch) && fetch.resp.doc.page.description.Some? && fetch.resp.doc.page.description.value.content.Some?
  }

  /** The description this page adds to the list checked for repeats. */
  function PageDescription(fetch: Fetch): (t: seq<string>)
    ensures |t| <= 1
    ensures t != [] ==> TitleRead(fetch)
    ensures t != [] <==> DescriptionRead(fetch)
    ensures t != [] ==> t[0] == fetch.resp.doc.page.description.value.content.value
  {
    if TitleRead(fetch) && fetch.resp.doc.page.description.Some? && fetch.resp.doc.page.description.value.content.Some?
    then [fetch.resp.doc.page.description.value.content.value]
    else []
  }

  /** The page, audited to its end, shows a main landmark. */
  predicate ShowsMain(fetch: Fetch)
  {
    AuditCompletes(fetch) && HasMainLandmark(fetch.resp.doc.page)
  }

  /** The page, audited to its end, shows a search control. */
  predicate ShowsSearch(fetch: Fetch)
  {
    AuditCompletes(fetch) && HasSearchControl(fetch.resp.doc.page)
  }

  /** The entry stored under the page's path. */
  function Entry(url: string, fetch: Fetch): (e: PageEntry)
    ensures e == NotFound <==> fetch.Got? && fetch.resp.status != OK
    ensures e.Audited? <==> AuditCompletes(fetch)
    ensures e.Audited? ==> e.title == fetch.resp.doc.page.title.value && e.description == fetch.resp.doc.page.description
    ensures e.Audited? ==> (e.date.Some? <==> DateMeta(fetch.resp.doc.page).Some?)
    ensures e.Audited? && e.date.Some? ==> e.date == DateMeta(fetch.resp.doc.page).value.content
    ensures e.CouldNotAudit? <==> fetch.Raised? || (IsOk(fetch) && !AuditCompletes(fetch))
    ensures e.CouldNotAudit? ==> e.url == url
  {
    match fetch
    case Raised => CouldNotAudit(url)
    case Got(r) =>
      if r.status != OK then NotFound
      else if !AuditCompletes(fetch) then CouldNotAudit(url)
      else
        var f := r.doc.page;
        Audited(f.title.value, f.description, if DateMeta(f).Some? then DateMeta(f).value.content else None)
  }

  /** What the audit has gathered so far. */
  datatype AuditState = AuditState(
    titles: seq<string>,
    descriptions: seq<string>,
    mainFound: bool,
    searchFound: bool,
    entries: map<string, PageEntry>)

  /** The effect of auditing one page. A flag that is already true is not looked at again. */
  function AuditPage(st: AuditState, page: string, url: string, fetch: Fetch): AuditState
  {
    AuditState(
      st.titles + PageTitle(fetch),
      st.descriptions + PageDescription(fetch),
      st.mainFound || ShowsMain(fetch),
      st.searchFound || ShowsSearch(fetch),
      st.entries[page := Entry(url, fetch)])
  }

  /**
   * One page keeps a flag that is already true, appends at most one title and
   * one description to what was collected, and stores its entry under its path.
   */
  lemma AuditPageEffect(st: AuditState, page: string, url: string, fetch: Fetch)
    ensures var r := AuditPage(st, page, url, fetch);
      && (st.mainFound ==> r.mainFound) && (st.searchFound ==> r.searchFound)
      && |st.titles| <= |r.titles| <= |st.titles| + 1 && r.titles[..|st.titles|] == st.titles
      && |st.descriptions| <= |r.descriptions| <= |st.descriptions| + 1 && r.descriptions[..|st.descriptions|] == st.descriptions
      && page in r.entries && r.entries[page] == Entry(url, fetch)
      && forall q :: q in st.entries && q != page ==> q in r.entries && r.entries[q] == st.entries[q]
  {
    var r := AuditPage(st, page, url, fetch);
    assert r.titles[..|st.titles|] == st.titles;
    assert r.descriptions[..|st.descriptions|] == st.descriptions;
  }

  /** A page that is not OK gets the not-found marker and changes nothing else. */
  lemma NotFoundPageChangesOnlyItsEntry(st: AuditState, page: string, url: string, fetch: Fetch)
    requires fetch.Got? && fetch.resp.status != OK
    ensures AuditPage(st, page, url, fetch) == st.(entries := st.entries[page := NotFound])
  {
    assert PageTitle(fetch) == [] && PageDescription(fetch) == [];
  }

  /** Auditing the pages in order, starting from `st`. */
  function AuditFrom(st: AuditState, site: Site, fqd: string, pages: seq<string>): AuditState
  {
    if pages == [] then st
    else
      var last := pages[|pages| - 1];
      AuditPage(AuditFrom(st, site, fqd, pages[..|pages| - 1]), last, fqd + last, site(fqd + last))
  }

  /**
   * Once true, a flag stays true; the lists gathered before are kept as a prefix,
   * each page adds at most one title, and a description only with its title.
   */
  lemma {:induction false} AuditFromBounds(st: AuditState, site: Site, fqd: string, pages: seq<string>)
    ensures var r := AuditFrom(st, site, fqd, pages);
      && (st.mainFound ==> r.mainFound)
      && (st.searchFound ==> r.searchFound)
      && |st.titles| <= |r.titles| <= |st.titles| + |pages| && r.titles[..|st.titles|] == st.titles
      && |r.descriptions| <= |r.titles| - |st.titles| + |st.descriptions|
  {
    if pages != [] {
      var last := pages[|pages| - 1];
      var r := AuditFrom(st, site, fqd, pages[..|pages| - 1]);
      AuditFromBounds(st, site, fqd, pages[..|pages| - 1]);
      var r' := AuditPage(r, last, fqd + last, site(fqd + last));
      assert r'.titles[..|st.titles|] == r.titles[..|st.titles|];
    }
  }

  /** The main flag ends true exactly when it started true or some page, audited to its end, shows a main landmark. */
  lemma {:induction false} AuditMainFlag(st: AuditState, site: Site, fqd: string, pages: seq<string>)
    ensures AuditFrom(st, site, fqd, pages).mainFound <==>
      st.mainFound || exists i :: 0 <= i < |pages| && ShowsMain(site(fqd + pages[i]))
  {
    if pages != [] {
      var n := |pages| - 1;
      var init := pages[..n];
      AuditMainFlag(st, site, fqd, init);
      assert forall i :: 0 <= i < n ==> init[i] == pages[i];
    }
  }

  /** The search flag ends true exactly when it started true or some page, audited to its end, shows a search control. */
  lemma {:induction false} AuditSearchFlag(st: AuditState, site: Site, fqd: string, pages: seq<string>)
    ensures AuditFrom(st, site, fqd, pages).searchFound <==>
      st.searchFound || exists i :: 0 <= i < |pages| && ShowsSearch(site(fqd + pages[i]))
  {
    if pages != [] {
      var n := |pages| - 1;
      var init := pages[..n];
      AuditSearchFlag(st, site, fqd, init);
      assert forall i :: 0 <= i < n ==> init[i] == pages[i];
    }
  }

  // ---------------------------------------------------------------------------
  // Repeated titles and descriptions (seo.py:246-249)

  /** `set(s)` */
  function Elements(s: seq<string>): set<string>
  {
    set x | x in s
  }

  /** Some value occurs twice in the list. */
  predicate HasRepeat(s: seq<string>)
  {
    exists i, j :: 0 <= i < j < |s| && s[i] == s[j]
  }

  /** A list repeats a value when its head recurs in its tail or its tail repeats a value. */
  lemma RepeatCons(s: seq<string>)
    requires s != []
    ensures HasRepeat(s) <==> s[0] in s[1..] || HasRepeat(s[1..])
  {
    var t := s[1..];
    if HasRepeat(s) {
      var i, j :| 0 <= i < j < |s| && s[i] == s[j];
      if i == 0 {
        assert t[j - 1] == s[0];
      } else {
        assert t[i - 1] == t[j - 1];
      }
    }
    if s[0] in t {
      var j :| 0 <= j < |t| && t[j] == s[0];
      assert s[0] == s[j + 1];
    }
    if HasRepeat(t) {
      var i, j :| 0 <= i < j < |t| && t[i] == t[j];
      assert s[i + 1] == s[j + 1];
    }
  }

  /** `len(s) != len(set(s))` holds exactly when a value occurs twice in `s`. */
  lemma {:induction false} ElementsCount(s: seq<string>)
    ensures |Elements(s)| <= |s|
    ensures |Elements(s)| == |s| <==> !HasRepeat(s)
  {
    if s != [] {
      var x, t := s[0], s[1..];
      ElementsCount(t);
      RepeatCons(s);
      assert s == [x] + t;
      assert Elements(s) == {x} + Elements(t);
      if x in t {
        assert Elements(s) == Elements(t);
      } else {
        assert x !in Elements(t);
      }
    }
  }

  /** The warnings raised after all pages were audited. */
  function DuplicateWarnings(titles: seq<string>, descriptions: seq<string>): (w: set<Warning>)
    ensures DuplicateTitles in w <==> HasRepeat(titles)
    ensures DuplicateDescriptions in w <==> HasRepeat(descriptions)
  {
    ElementsCount(titles);
    ElementsCount(descriptions);
    (if |titles| != |Elements(titles)| then {DuplicateTitles} else {})
    + (if |descriptions| != |Elements(descriptions)| then {DuplicateDescriptions} else {})
  }

  // ---------------------------------------------------------------------------
  // The pass

  /** 'Platforms': the web frameworks the fingerprint service reports, else 'Unknown' (seo.py:184-186). */
  function PlatformsOf(buildInfo: map<string, seq<string>>): (r: Platforms)
    ensures r == UnknownPlatform <==> "web-frameworks" !in buildInfo
    ensures r != UnknownPlatform ==> r == Frameworks(buildInfo["web-frameworks"])
  {
    if "web-frameworks" in buildInfo then Frameworks(buildInfo["web-frameworks"]) else UnknownPlatform
  }

  /** The columns the sitemap pass owns are the same in both records. */
  predicate SameSitemapColumns(d: ScanData, e: ScanData)
  {
    e.(platforms := d.platforms, mainFound := d.mainFound, searchFound := d.searchFound,
       warnings := d.warnings, pages := d.pages) == d
  }

  /** The audit as it starts: nothing collected, both flags false (seo.py:175-180, 189-190). */
  function StartAudit(d: ScanData): AuditState
  {
    AuditState([], [], false, false, d.pages)
  }

  /** The whole page pass over record `d`, given what the fingerprint service reported for the domain. */
  function SeoScan(d: ScanData, site: Site, fqd: string, buildInfo: map<string, seq<string>>): (e: ScanData)
    ensures SameSitemapColumns(d, e)
  {
    SeoScanOf(d, AuditFrom(StartAudit(d), site, fqd, Pages), buildInfo)
  }

  /** The record once the audit has produced `st`: its flags, its entries and the warnings about its lists. */
  function SeoScanOf(d: ScanData, st: AuditState, buildInfo: map<string, seq<string>>): ScanData
  {
    d.(platforms := PlatformsOf(buildInfo),
       mainFound := st.mainFound,
       searchFound := st.searchFound,
       warnings := DuplicateWarnings(st.titles, st.descriptions),
       pages := st.entries)
  }

  // ---------------------------------------------------------------------------
  // What the pass promises, for the two pages it audits

  /** The fetches of the two audited pages. */
  function Home(site: Site, fqd: string): Fetch { site(fqd + "/") }
  function Privacy(site: Site, fqd: string): Fetch { site(fqd + "/privacy") }

  lemma AuditOfPages(st: AuditState, site: Site, fqd: string)
    ensures AuditFrom(st, site, fqd, Pages) ==
      AuditPage(AuditPage(st, "/", fqd + "/", Home(site, fqd)), "/privacy", fqd + "/privacy", Privacy(site, fqd))
  {
    assert Pages[..1] == ["/"] && Pages[|Pages| - 1] == "/privacy";
    assert ["/"][..0] == [];
    assert AuditFrom(st, site, fqd, ["/"]) == AuditPage(st, "/", fqd + "/", Home(site, fqd));
  }

  /** The lists checked for repeats are the contributions of the two pages, in page order. */
  lemma AuditOfPagesLists(site: Site, fqd: string, entries: map<string, PageEntry>)
    ensures AuditFrom(AuditState([], [], false, false, entries), site, fqd, Pages).titles ==
      PageTitle(Home(site, fqd)) + PageTitle(Privacy(site, fqd))
    ensures AuditFrom(AuditState([], [], false, false, entries), site, fqd, Pages).descriptions ==
      PageDescription(Home(site, fqd)) + PageDescription(Privacy(site, fqd))
  {
    var st := AuditState([], [], false, false, entries);
    AuditOfPages(st, site, fqd);
    assert [] + PageTitle(Home(site, fqd)) == PageTitle(Home(site, fqd));
    assert [] + PageDescription(Home(site, fqd)) == PageDescription(Home(site, fqd));
  }

  lemma SeoScanWarnings(d: ScanData, site: Site, fqd: string, buildInfo: map<string, seq<string>>)
    ensures SeoScan(d, site, fqd, buildInfo).warnings == DuplicateWarnings(
      PageTitle(Home(site, fqd)) + PageTitle(Privacy(site, fqd)),
      PageDescription(Home(site, fqd)) + PageDescription(Privacy(site, fqd)))
  {
    AuditOfPagesLists(site, fqd, d.pages);
  }

  /** Two lists of at most one value repeat a value exactly when both have one and it is the same. */
  lemma PairRepeat(a: seq<string>, b: seq<string>)
    requires |a| <= 1 && |b| <= 1
    ensures HasRepeat(a + b) <==> a != [] && b != [] && a == b
  {
    if a != [] && b != [] && a == b {
      assert (a + b)[0] == (a + b)[1];
    }
  }

  /** Each page gets its own entry: '404' exactly when it is not OK. */
  lemma SeoScanEntries(d: ScanData, site: Site, fqd: string, buildInfo: map<string, seq<string>>)
    ensures SeoScan(d, site, fqd, buildInfo).pages ==
      d.pages["/" := Entry(fqd + "/", Home(site, fqd))]["/privacy" := Entry(fqd + "/privacy", Privacy(site, fqd))]
  {
    AuditOfPages(StartAudit(d), site, fqd);
  }

  /** Each flag is true exactly when one of the pages, audited to its end, shows it. */
  lemma SeoScanFlags(d: ScanData, site: Site, fqd: string, buildInfo: map<string, seq<string>>)
    ensures SeoScan(d, site, fqd, buildInfo).mainFound <==> ShowsMain(Home(site, fqd)) || ShowsMain(Privacy(site, fqd))
    ensures SeoScan(d, site, fqd, buildInfo).searchFound <==> ShowsSearch(Home(site, fqd)) || ShowsSearch(Privacy(site, fqd))
  {
    AuditOfPages(StartAudit(d), site, fqd);
  }

  /** A title warning is raised exactly when both pages have their titles read and the titles are equal. */
  lemma SeoScanDuplicateTitles(d: ScanData, site: Site, fqd: string, buildInfo: map<string, seq<string>>)
    ensures DuplicateTitles in SeoScan(d, site, fqd, buildInfo).warnings <==>
      && TitleRead(Home(site, fqd)) && TitleRead(Privacy(site, fqd))
      && Home(site, fqd).resp.doc.page.title == Privacy(site, fqd).resp.doc.page.title
  {
    SeoScanWarnings(d, site, fqd, buildInfo);
    PairRepeat(PageTitle(Home(site, fqd)), PageTitle(Privacy(site, fqd)));
  }

  /**
   * A description warning is raised exactly when both pages had their titles
   * read and carry a description meta with content, and the two contents are equal.
   */
  lemma SeoScanDuplicateDescriptions(d: ScanData, site: Site, fqd: string, buildInfo: map<string, seq<string>>)
    ensures DuplicateDescriptions in SeoScan(d, site, fqd, buildInfo).warnings <==>
      && DescriptionRead(Home(site, fqd)) && DescriptionRead(Privacy(site, fqd))
      && Home(site, fqd).resp.doc.page.description.value.content == Privacy(site, fqd).resp.doc.page.description.value.content
  {
    SeoScanWarnings(d, site, fqd, buildInfo);
    PairRepeat(PageDescription(Home(site, fqd)), PageDescription(Privacy(site, fqd)));
  }

  /** Both pages titled "Home": a title warning; "Home" and "Privacy Policy": none. */
  lemma DuplicateTitlesExample(d: ScanData, site: Site, fqd: string, buildInfo: map<string, seq<string>>)
    requires TitleRead(Home(site, fqd)) && TitleRead(Privacy(site, fqd))
    requires Home(site, fqd).resp.doc.page.title == Some("Home")
    ensures Privacy(site, fqd).resp.doc.page.title == Some("Home") ==>
      DuplicateTitles in SeoScan(d, site, fqd, buildInfo).warnings
    ensures Privacy(site, fqd).resp.doc.page.title == Some("Privacy Policy") ==>
      DuplicateTitles !in SeoScan(d, site, fqd, buildInfo).warnings
  {
    SeoScanDuplicateTitles(d, site, fqd, buildInfo);
    assert "Home" != "Privacy Policy";
  }

  /** A page that is not OK is marked '404' and leaves both flags to the other page. */
  lemma SeoScanNotFoundPage(d: ScanData, site: Site, fqd: string, buildInfo: map<string, seq<string>>)
    requires Privacy(site, fqd).Got? && Privacy(site, fqd).resp.status != OK
    ensures SeoScan(d, site, fqd, buildInfo).pages["/privacy"] == NotFound
    ensures SeoScan(d, site, fqd, buildInfo).mainFound == ShowsMain(Home(site, fqd))
    ensures SeoScan(d, site, fqd, buildInfo).searchFound == ShowsSearch(Home(site, fqd))
  {
    SeoScanEntries(d, site, fqd, buildInfo);
    SeoScanFlags(d, site, fqd, buildInfo);
  }
}
