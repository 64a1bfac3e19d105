/**
 * The sitemap pass of `sitemap_scan` (seo.py:72-162): read the primary
 * sitemap, read robots.txt, count the URLs of every child sitemap, and
 * estimate the time to index. This module states the pass as a function of
 * the record before it and of the site; `Scanner.ScanRecord.SitemapScan`
 * performs it field by field and is proved to agree with it.
 */
module Sitemap {
  import opened Wrappers
  import opened Text
  import opened Web
  import opened Record

  // ---------------------------------------------------------------------------
  // Where the pass looks

  function SitemapUrl(fqd: string): string
  {
    fqd + "/sitemap.xml"
  }

  /** The robots.txt location (seo.py:117 requests the sitemap instead; see AsWritten.RobotsUrlAsWritten). */
  function RobotsUrl(fqd: string): string
  {
    fqd + "/robots.txt"
  }

  /** However the domain is spelled, robots.txt and the sitemap are two different resources. */
  lemma RobotsUrlIsNotSitemapUrl(fqd: string)
    ensures RobotsUrl(fqd) != SitemapUrl(fqd)
  {
    assert RobotsUrl(fqd)[|fqd| + 1] == 'r';
    assert SitemapUrl(fqd)[|fqd| + 1] == 's';
  }

  // ---------------------------------------------------------------------------
  // robots.txt directives (seo.py:126-129)

  /** `[cC]rawl-[dD]elay: ` */
  const CrawlDelayPattern: Pattern := [{'c', 'C'}] + Literal("rawl-") + [{'d', 'D'}] + Literal("elay: ")

  /** `[sS]itemap: ` */
  const SitemapPattern: Pattern := [{'s', 'S'}] + Literal("itemap: ")

  /**
   * The first crawl delay declared in the robots text (seo.py:126-128): None
   * exactly when no line declares one, and otherwise the value on a declaring
   * line before which no line declares one.
   */
  function CrawlDelay(text: string): (r: Option<string>)
    ensures r.None? <==> NoLineMatches(SplitLines(text), CrawlDelayPattern)
    ensures r.Some? ==>
      exists k :: 0 <= k < |SplitLines(text)| && Capture(SplitLines(text)[k], CrawlDelayPattern) == r &&
        forall j :: 0 <= j < k ==> Capture(SplitLines(text)[j], CrawlDelayPattern).None?
  {
    var found := FindAll(text, CrawlDelayPattern);
    FindAllEmpty(SplitLines(text), CrawlDelayPattern);
    FindAllHead(SplitLines(text), CrawlDelayPattern);
    if found == [] then None else Some(found[0])
  }

  /**
   * Every sitemap declared in the robots text, in order, repeats included
   * (seo.py:129): at most one per line, each the value of a declaring line,
   * and none exactly when no line declares one.
   */
  function RobotsSitemaps(text: string): (r: seq<string>)
    ensures |r| <= |SplitLines(text)|
    ensures r == [] <==> NoLineMatches(SplitLines(text), SitemapPattern)
    ensures forall x :: x in r ==> exists k :: 0 <= k < |SplitLines(text)| && Capture(SplitLines(text)[k], SitemapPattern) == Some(x)
  {
    FindAllEmpty(SplitLines(text), SitemapPattern);
    FindAllCaptures(SplitLines(text), SitemapPattern);
    FindAll(text, SitemapPattern)
  }

  /** The crawl delay is the one on the first line that declares one. */
  lemma CrawlDelayFirstWins(text: string, k: nat)
    requires k < |SplitLines(text)| && Capture(SplitLines(text)[k], CrawlDelayPattern).Some?
    requires forall j :: 0 <= j < k ==> Capture(SplitLines(text)[j], CrawlDelayPattern).None?
    ensures CrawlDelay(text) == Capture(SplitLines(text)[k], CrawlDelayPattern)
  {
    FindAllFirst(SplitLines(text), CrawlDelayPattern, k);
  }

  /** Declarations on later lines never change a crawl delay already found. */
  lemma LaterCrawlDelaysIgnored(a: string, b: string)
    requires CrawlDelay(a).Some?
    ensures CrawlDelay(a + "\n" + b) == CrawlDelay(a)
  {
    SplitLinesAppend(a, b);
    FindAllAppend(SplitLines(a), SplitLines(b), CrawlDelayPattern);
  }

  /** The pattern's literal part matches the start of "Crawl-delay: <value>". */
  lemma CrawlDelayPrefixMatches(value: string)
    ensures MatchesAt("Crawl-delay: " + value, CrawlDelayPattern, 0)
  {
    var line := "Crawl-delay: " + value;
    assert |CrawlDelayPattern| == 13;
    forall k | 0 <= k < 13
      ensures line[k] in CrawlDelayPattern[k]
    {
      assert line[k] == "Crawl-delay: "[k];
    }
  }

  /** A line "Crawl-delay: <value>" declares the crawl delay <value>. */
  lemma DeclaredCrawlDelay(value: string)
    requires '\n' !in value
    ensures CrawlDelay("Crawl-delay: " + value) == Some(value)
  {
    var line := "Crawl-delay: " + value;
    SplitLinesSingle(line);
    CrawlDelayPrefixMatches(value);
    CaptureAtStart(line, CrawlDelayPattern);
    assert line[13..] == value;
    FindAllSingleLine(line, CrawlDelayPattern);
  }

  /** "Crawl-delay: 5" followed by "Crawl-delay: 10" gives the crawl delay "5". */
  lemma CrawlDelayExample()
    ensures CrawlDelay("Crawl-delay: 5\nCrawl-delay: 10") == Some("5")
  {
    DeclaredCrawlDelay("5");
    assert "Crawl-delay: 5\nCrawl-delay: 10" == ("Crawl-delay: " + "5") + "\n" + "Crawl-delay: 10";
    LaterCrawlDelaysIgnored("Crawl-delay: " + "5", "Crawl-delay: 10");
  }

  /** Sitemap declarations are collected line after line: nothing is dropped, merged or reordered. */
  lemma RobotsSitemapsAppend(a: string, b: string)
    ensures RobotsSitemaps(a + "\n" + b) == RobotsSitemaps(a) + RobotsSitemaps(b)
  {
    SplitLinesAppend(a, b);
    FindAllAppend(SplitLines(a), SplitLines(b), SitemapPattern);
  }

  // ---------------------------------------------------------------------------
  // PDFs in the primary sitemap (seo.py:107)

  predicate IsPdf(urlText: string)
  {
    Contains(urlText, ".pdf")
  }

  /** The entries of `s` that `keep` accepts, in order: a list comprehension with a condition. */
  function Keep(s: seq<string>, keep: string -> bool): seq<string>
  {
    if s == [] then []
    else
      var last := s[|s| - 1];
      Keep(s[..|s| - 1], keep) + (if keep(last) then [last] else [])
  }

  /** A comprehension keeps no more than it is given, and only what its condition accepts. */
  lemma {:induction false} KeepBounds(s: seq<string>, keep: string -> bool)
    ensures |Keep(s, keep)| <= |s|
    ensures forall u :: u in Keep(s, keep) ==> u in s && keep(u)
  {
    if s != [] {
      var init := s[..|s| - 1];
      KeepBounds(init, keep);
      forall u | u in init
        ensures u in s
      {
        var i :| 0 <= i < |init| && init[i] == u;
        assert s[i] == u;
      }
    }
  }

  /** The positions of the entries of `s` that `keep` accepts. */
  function KeptPositions(s: seq<string>, keep: string -> bool): set<nat>
  {
    set i: nat | i < |s| && keep(s[i])
  }

  /** A comprehension keeps one element per accepted position. */
  lemma {:induction false} KeepCount(s: seq<string>, keep: string -> bool)
    ensures |Keep(s, keep)| == |KeptPositions(s, keep)|
  {
    if s != [] {
      var n := |s| - 1;
      var init := s[..n];
      KeepCount(init, keep);
      var before, after := KeptPositions(init, keep), KeptPositions(s, keep);
      var added: set<nat> := if keep(s[n]) then {n} else {};
      forall i: nat
        ensures i in after <==> i in before + added
      {
        if i < n {
          assert init[i] == s[i];
        }
      }
      assert after == before + added;
      assert n !in before;
    }
  }

  /** `[u for u in urls if '.pdf' in u.get_text()]`, in the order of the sitemap. */
  function PdfUrls(urls: seq<string>): seq<string>
  {
    Keep(urls, IsPdf)
  }

  /** There are never more PDFs than <url> entries, and each one counted has ".pdf" in its text. */
  lemma PdfUrlsBound(urls: seq<string>)
    ensures |PdfUrls(urls)| <= |urls|
    ensures forall u :: u in PdfUrls(urls) ==> u in urls && Contains(u, ".pdf")
  {
    KeepBounds(urls, IsPdf);
  }

  /** The PDF count is the number of <url> entries whose text contains ".pdf". */
  lemma PdfCountIsNumberOfPdfEntries(urls: seq<string>)
    ensures |PdfUrls(urls)| == |set i: nat | i < |urls| && IsPdf(urls[i])|
  {
    KeepCount(urls, IsPdf);
    assert KeptPositions(urls, IsPdf) == set i: nat | i < |urls| && IsPdf(urls[i]);
  }

  // ---------------------------------------------------------------------------
  // Child sitemaps (seo.py:138-152)

  /**
   * What one child location adds to the tally: nothing when it is the primary
   * sitemap's final URL or its response is not OK, its <url> count otherwise;
   * None when fetching it raises, which the source does not catch.
   */
  function ChildUrls(site: Site, loc: string, finalUrl: Option<string>): (r: Option<nat>)
    ensures r.None? <==> finalUrl != Some(loc) && site(loc).Raised?
    ensures r.Some? && r.value != 0 ==> finalUrl != Some(loc) && IsOk(site(loc)) && r.value == |site(loc).resp.doc.urlTexts|
    ensures finalUrl != Some(loc) && IsOk(site(loc)) ==> r == Some(|site(loc).resp.doc.urlTexts|)
  {
    if finalUrl == Some(loc) then Some(0)
    else
      match site(loc)
      case Raised => None
      case Got(r) => Some(if r.status == OK then |r.doc.urlTexts| else 0)
  }

  /** Addition that propagates an exception. */
  function Plus(a: Option<nat>, b: Option<nat>): (r: Option<nat>)
    ensures r.Some? <==> a.Some? && b.Some?
  {
    if a.Some? && b.Some? then Some(a.value + b.value) else None
  }

  /** The additional URLs found at the given locations, None when one of the fetches raises. */
  function Tally(site: Site, locs: seq<string>, finalUrl: Option<string>): Option<nat>
  {
    if locs == [] then Some(0) else Plus(ChildUrls(site, locs[0], finalUrl), Tally(site, locs[1..], finalUrl))
  }

  /** The tally raises exactly when fetching some location other than the primary's final URL raises. */
  lemma {:induction false} TallyRaises(site: Site, locs: seq<string>, finalUrl: Option<string>)
    ensures Tally(site, locs, finalUrl).None? <==>
      exists i :: 0 <= i < |locs| && Some(locs[i]) != finalUrl && site(locs[i]).Raised?
  {
    if locs != [] {
      TallyRaises(site, locs[1..], finalUrl);
      assert forall i :: 1 <= i < |locs| ==> locs[i] == locs[1..][i - 1];
    }
  }

  /** The for loops of seo.py:139-152: add, to `start`, the <url> counts of the child sitemaps at `locs`. */
  method TallyLocations(site: Site, locs: seq<string>, finalUrl: Option<string>, start: nat) returns (total: Option<nat>)
    ensures total == Plus(Some(start), Tally(site, locs, finalUrl))
  {
    var additional: nat := start;
    var i := 0;
    while i < |locs|
      invariant 0 <= i <= |locs|
      invariant Plus(Some(additional), Tally(site, locs[i..], finalUrl)) == Plus(Some(start), Tally(site, locs, finalUrl))
    {
      var loc := locs[i];
      assert locs[i..][1..] == locs[i + 1..];
      if Some(loc) != finalUrl {
        var sitemap := site(loc);
        if sitemap.Raised? {
          return None;
        }
        if sitemap.resp.status == OK {
          additional := additional + |sitemap.resp.doc.urlTexts|;
        }
      }
      i := i + 1;
    }
    return Some(additional);
  }

  /** Tallying two lists one after the other is tallying their concatenation. */
  lemma {:induction false} TallyAppend(site: Site, a: seq<string>, b: seq<string>, finalUrl: Option<string>)
    ensures Tally(site, a + b, finalUrl) == Plus(Tally(site, a, finalUrl), Tally(site, b, finalUrl))
  {
    if a == [] {
      assert a + b == b;
    } else {
      assert (a + b)[0] == a[0];
      assert (a + b)[1..] == a[1..] + b;
      TallyAppend(site, a[1..], b, finalUrl);
    }
  }

  /** A location equal to the primary sitemap's final URL adds nothing and is never fetched. */
  lemma TallySkipsFinalUrl(site: Site, a: seq<string>, b: seq<string>, finalUrl: string)
    ensures Tally(site, a + [finalUrl] + b, Some(finalUrl)) == Tally(site, a + b, Some(finalUrl))
  {
    TallyAppend(site, a + [finalUrl], b, Some(finalUrl));
    TallyAppend(site, a, [finalUrl], Some(finalUrl));
    TallyAppend(site, a, b, Some(finalUrl));
    assert [finalUrl][1..] == [];
  }

  /** A child sitemap whose response is not OK adds nothing. */
  lemma TallySkipsNotOk(site: Site, a: seq<string>, loc: string, b: seq<string>, finalUrl: Option<string>)
    requires site(loc).Got? && site(loc).resp.status != OK
    ensures Tally(site, a + [loc] + b, finalUrl) == Tally(site, a + b, finalUrl)
  {
    TallyAppend(site, a + [loc], b, finalUrl);
    TallyAppend(site, a, [loc], finalUrl);
    TallyAppend(site, a, b, finalUrl);
    assert [loc][1..] == [];
  }

  /** Locations are not de-duplicated: listing a child sitemap twice counts its URLs twice. */
  lemma TallyCountsRepeats(site: Site, loc: string, finalUrl: Option<string>)
    requires IsOk(site(loc)) && finalUrl != Some(loc)
    ensures Tally(site, [loc, loc], finalUrl) == Some(2 * |site(loc).resp.doc.urlTexts|)
  {
    var k := |site(loc).resp.doc.urlTexts|;
    assert ChildUrls(site, loc, finalUrl) == Some(k);
    assert [loc][1..] == [];
    assert Tally(site, [loc], finalUrl) == Some(k);
    assert [loc, loc][1..] == [loc];
  }

  /** Tallying a list is tallying one of its entries plus the others. */
  lemma TallyRemove(site: Site, b: seq<string>, j: nat, finalUrl: Option<string>)
    requires j < |b|
    ensures Tally(site, b, finalUrl) == Plus(ChildUrls(site, b[j], finalUrl), Tally(site, b[..j] + b[j + 1..], finalUrl))
  {
    assert b == b[..j] + [b[j]] + b[j + 1..];
    TallyAppend(site, b[..j] + [b[j]], b[j + 1..], finalUrl);
    TallyAppend(site, b[..j], [b[j]], finalUrl);
    TallyAppend(site, b[..j], b[j + 1..], finalUrl);
    assert [b[j]][1..] == [];
  }

  /** The order in which child sitemaps are listed does not change the tally. */
  lemma {:induction false} TallyPermutation(site: Site, a: seq<string>, b: seq<string>, finalUrl: Option<string>)
    requires multiset(a) == multiset(b)
    ensures Tally(site, a, finalUrl) == Tally(site, b, finalUrl)
    decreases |a|
  {
    if a == [] {
      assert |multiset(b)| == 0;
      assert b == [];
    } else {
      var x := a[0];
      assert x in multiset(b);
      var j :| 0 <= j < |b| && b[j] == x;
      var rest := b[..j] + b[j + 1..];
      assert multiset(a[1..]) == multiset(rest) by {
        assert a == [x] + a[1..];
        assert b == b[..j] + [x] + b[j + 1..];
        assert multiset(a[1..]) == multiset(a) - multiset{x};
        assert multiset(rest) == multiset(b[..j]) + multiset(b[j + 1..]);
        assert multiset(rest) == multiset(b) - multiset{x};
      }
      TallyPermutation(site, a[1..], rest, finalUrl);
      TallyRemove(site, b, j, finalUrl);
    }
  }

  // ---------------------------------------------------------------------------
  // Time to index (seo.py:157-159)

  /** `(total * delay) / 3600`: hours to fetch every URL, one per `delay` seconds. */
  function EstimateHours(total: nat, delay: int): (hours: real)
    ensures hours * 3600.0 == (total * delay) as real
  {
    (total * delay) as real / 3600.0
  }

  // ---------------------------------------------------------------------------
  // The pass

  /** Why a sitemap pass stops early: an exception the source does not catch. */
  datatype Fault =
    | ChildFetchRaised          // requests.get(loc) raised (seo.py:142, 149)
    | DelayNotInteger           // int(crawl delay) raised ValueError (seo.py:159)

  datatype Outcome = Completed | Aborted(fault: Fault)

  datatype Pass = Pass(data: ScanData, outcome: Outcome)

  /** The columns the page audit owns are the same in both records. */
  predicate SamePageColumns(d: ScanData, e: ScanData)
  {
    && e.platforms == d.platforms
    && e.mainFound == d.mainFound
    && e.searchFound == d.searchFound
    && e.warnings == d.warnings
    && e.pages == d.pages
  }

  /** Status and final URL of the primary sitemap, and its counts when it is OK (seo.py:88-110). */
  function RecordPrimary(d: ScanData, url: string, sitemap: Fetch): (e: ScanData)
  {
    match sitemap
    case Raised => d.(sitemapStatus := CouldNotGet(url))
    case Got(r) =>
      var d' := d.(sitemapStatus := StatusCode(r.status), sitemapFinalUrl := Some(r.url));
      if r.status != OK then d'
      else
        var urls := r.doc.urlTexts;
        d'.(sitemapItems := |urls|,
            pdfItems := if urls != [] then |PdfUrls(urls)| else d'.pdfItems,
            indexLocs := if r.doc.hasSitemapIndex then r.doc.sitemapLocs else d'.indexLocs)
  }

  /**
   * Reading the primary sitemap records its status (or the failed URL), and for
   * an OK sitemap its <url> count and, when it has entries, the number of them
   * that are PDFs; it leaves the page and robots.txt columns alone, and never
   * counts more PDFs than <url> entries.
   */
  lemma RecordPrimaryColumns(d: ScanData, url: string, sitemap: Fetch)
    ensures var e := RecordPrimary(d, url, sitemap);
      && e.sitemapStatus == (if sitemap.Raised? then CouldNotGet(url) else StatusCode(sitemap.resp.status))
      && e.sitemapItems == (if IsOk(sitemap) then |sitemap.resp.doc.urlTexts| else d.sitemapItems)
      && (IsOk(sitemap) && sitemap.resp.doc.urlTexts != [] ==>
            e.pdfItems == |set i: nat | i < |sitemap.resp.doc.urlTexts| && IsPdf(sitemap.resp.doc.urlTexts[i])|)
      && (!IsOk(sitemap) || sitemap.resp.doc.urlTexts == [] ==> e.pdfItems == d.pdfItems)
      && SamePageColumns(d, e)
      && e.indexLocs == IndexLocsAfter(d, sitemap) && e.sitemapFinalUrl == FinalUrlAfter(d, sitemap)
      && (e.pdfItems <= e.sitemapItems || e.pdfItems == d.pdfItems)
      && e.totalUrls == d.totalUrls && e.estimate == d.estimate
      && e.robots == d.robots && e.crawlDelay == d.crawlDelay && e.robotsLocs == d.robotsLocs
  {
    if IsOk(sitemap) {
      PdfUrlsBound(sitemap.resp.doc.urlTexts);
      PdfCountIsNumberOfPdfEntries(sitemap.resp.doc.urlTexts);
    }
  }

  /** The <url> count of the primary sitemap, when it is OK. */
  function PrimaryUrlCount(sitemap: Fetch): nat
  {
    if IsOk(sitemap) then |sitemap.resp.doc.urlTexts| else 0
  }

  /** The robots.txt columns (seo.py:116-133); a fetch that raises changes nothing. */
  function RecordRobots(d: ScanData, robots: Fetch): (e: ScanData)
    ensures robots.Raised? ==> e == d
    ensures robots.Got? ==> e.robots == if robots.resp.status == OK then RobotsOk else RobotsCode(robots.resp.status)
    ensures SamePageColumns(d, e)
    ensures e.robotsLocs == RobotsLocsAfter(d, robots)
    ensures e.crawlDelay == if IsOk(robots) && CrawlDelay(robots.resp.doc.text).Some? then CrawlDelay(robots.resp.doc.text) else d.crawlDelay
    ensures e.(robots := d.robots, crawlDelay := d.crawlDelay, robotsLocs := d.robotsLocs) == d
  {
    match robots
    case Raised => d
    case Got(r) =>
      if r.status == OK then
        var found := CrawlDelay(r.doc.text);
        d.(robots := RobotsOk,
           crawlDelay := if found.Some? then found else d.crawlDelay,
           robotsLocs := RobotsSitemaps(r.doc.text))
      else d.(robots := RobotsCode(r.status))
  }

  /** The crawl delay column is set to a non-empty string, which is what makes it true in Python. */
  predicate HasCrawlDelay(d: ScanData)
  {
    d.crawlDelay.Some? && d.crawlDelay.value != ""
  }

  /** The estimate, once the total is known (seo.py:157-159). */
  function RecordEstimate(d: ScanData): (p: Pass)
    ensures p.outcome == Completed || p.outcome == Aborted(DelayNotInteger)
    ensures p.outcome == Aborted(DelayNotInteger) <==> HasCrawlDelay(d) && ParseInt(d.crawlDelay.value).None?
    ensures p.data.(estimate := d.estimate) == d
    ensures p.data.estimate != d.estimate ==> p.outcome == Completed && HasCrawlDelay(d) && p.data.estimate.Hours?
    ensures p.outcome == Completed && HasCrawlDelay(d) ==>
      && ParseInt(d.crawlDelay.value).Some?
      && p.data.estimate == Hours(EstimateHours(d.totalUrls, ParseInt(d.crawlDelay.value).value))
  {
    if !HasCrawlDelay(d) then Pass(d, Completed)
    else
      match ParseInt(d.crawlDelay.value)
      case None => Pass(d, Aborted(DelayNotInteger))
      case Some(delay) => Pass(d.(estimate := Hours(EstimateHours(d.totalUrls, delay))), Completed)
  }

  /** The whole sitemap pass over record `d` for the site at `fqd`. */
  function ScanSitemap(d: ScanData, site: Site, fqd: string): (p: Pass)
    ensures p.data.totalUrls >= d.totalUrls
    ensures SamePageColumns(d, p.data)
  {
    var sitemap := site(SitemapUrl(fqd));
    var d1 := RecordRobots(RecordPrimary(d, SitemapUrl(fqd), sitemap), site(RobotsUrl(fqd)));
    match Tally(site, d1.indexLocs + d1.robotsLocs, d1.sitemapFinalUrl)
    case None => Pass(d1, Aborted(ChildFetchRaised))
    case Some(additional) => RecordEstimate(d1.(totalUrls := d1.totalUrls + PrimaryUrlCount(sitemap) + additional))
  }

  /** The pass, once its first two steps have produced `d1`: the tally of the children, then the estimate. */
  lemma ScanSitemapAfterRobots(d: ScanData, site: Site, fqd: string, d1: ScanData)
    requires d1 == RecordRobots(RecordPrimary(d, SitemapUrl(fqd), site(SitemapUrl(fqd))), site(RobotsUrl(fqd)))
    ensures ScanSitemap(d, site, fqd) ==
      match Tally(site, d1.indexLocs + d1.robotsLocs, d1.sitemapFinalUrl)
      case None => Pass(d1, Aborted(ChildFetchRaised))
      case Some(additional) =>
        RecordEstimate(d1.(totalUrls := d1.totalUrls + PrimaryUrlCount(site(SitemapUrl(fqd))) + additional))
  {
  }

  // ---------------------------------------------------------------------------
  // What the pass promises

  /** The child locations the pass tallies: those of a sitemap index, then those declared in robots.txt. */
  function IndexLocsAfter(d: ScanData, sitemap: Fetch): seq<string>
  {
    if IsOk(sitemap) && sitemap.resp.doc.hasSitemapIndex then sitemap.resp.doc.sitemapLocs else d.indexLocs
  }

  function RobotsLocsAfter(d: ScanData, robots: Fetch): seq<string>
  {
    if IsOk(robots) then RobotsSitemaps(robots.resp.doc.text) else d.robotsLocs
  }

  function FinalUrlAfter(d: ScanData, sitemap: Fetch): Option<string>
  {
    if sitemap.Got? then Some(sitemap.resp.url) else d.sitemapFinalUrl
  }

  /**
   * In terms of the two fetched documents: which child locations are used,
   * when a child fetch aborts the pass, and that the total grows by the
   * primary count plus the children's counts.
   */
  lemma ScanSitemapTotal(d: ScanData, site: Site, fqd: string)
    ensures
      var sitemap, robots := site(SitemapUrl(fqd)), site(RobotsUrl(fqd));
      var locs := IndexLocsAfter(d, sitemap) + RobotsLocsAfter(d, robots);
      var final := FinalUrlAfter(d, sitemap);
      var p := ScanSitemap(d, site, fqd);
      && p.data.indexLocs == IndexLocsAfter(d, sitemap)
      && p.data.robotsLocs == RobotsLocsAfter(d, robots)
      && p.data.sitemapFinalUrl == final
      && (p.outcome == Aborted(ChildFetchRaised) <==> Tally(site, locs, final).None?)
      && (Tally(site, locs, final).Some? ==>
            p.data.totalUrls == d.totalUrls + PrimaryUrlCount(sitemap) + Tally(site, locs, final).value)
  {
    var sitemap := site(SitemapUrl(fqd));
    var d1 := RecordPrimary(d, SitemapUrl(fqd), sitemap);
    RecordPrimaryColumns(d, SitemapUrl(fqd), sitemap);
    var d2 := RecordRobots(d1, site(RobotsUrl(fqd)));
    ScanSitemapAfterRobots(d, site, fqd, d2);
  }

  /** The crawl-delay column holds the first declaration of an OK robots.txt, and otherwise keeps its value. */
  lemma ScanSitemapCrawlDelay(d: ScanData, site: Site, fqd: string)
    ensures
      var robots := site(RobotsUrl(fqd));
      ScanSitemap(d, site, fqd).data.crawlDelay ==
        if IsOk(robots) && CrawlDelay(robots.resp.doc.text).Some? then CrawlDelay(robots.resp.doc.text) else d.crawlDelay
  {
  }

  /** The estimate changes only when a crawl delay is known and the pass completes. */
  lemma EstimateNeedsCrawlDelay(d: ScanData, site: Site, fqd: string)
    ensures
      var p := ScanSitemap(d, site, fqd);
      p.data.estimate != d.estimate ==> p.outcome == Completed && HasCrawlDelay(p.data) && p.data.estimate.Hours?
  {
  }

  /** When a crawl delay is known and the pass completes, the estimate is total times delay, in hours. */
  lemma EstimateFromCrawlDelay(d: ScanData, site: Site, fqd: string)
    ensures
      var p := ScanSitemap(d, site, fqd);
      p.outcome == Completed && HasCrawlDelay(p.data) ==>
        && ParseInt(p.data.crawlDelay.value).Some?
        && p.data.estimate == Hours(EstimateHours(p.data.totalUrls, ParseInt(p.data.crawlDelay.value).value))
  {
  }

  /** A primary sitemap fetch that raises is recorded, and robots.txt is still read. */
  lemma ScanSitemapAfterSitemapFailure(d: ScanData, site: Site, fqd: string)
    requires site(SitemapUrl(fqd)).Raised?
    ensures
      var data := ScanSitemap(d, site, fqd).data;
      && data.sitemapStatus == CouldNotGet(SitemapUrl(fqd))
      && data.sitemapItems == d.sitemapItems
      && data.robotsLocs == RobotsLocsAfter(d, site(RobotsUrl(fqd)))
  {
  }

  /**
   * The pass completes exactly when no child fetch raises and the crawl delay
   * is absent or read by `int()`; it aborts on the delay only after all
   * children were counted.
   */
  lemma ScanSitemapOutcome(d: ScanData, site: Site, fqd: string)
    ensures
      var sitemap, robots := site(SitemapUrl(fqd)), site(RobotsUrl(fqd));
      var locs := IndexLocsAfter(d, sitemap) + RobotsLocsAfter(d, robots);
      var p := ScanSitemap(d, site, fqd);
      && (p.outcome == Completed <==>
            Tally(site, locs, FinalUrlAfter(d, sitemap)).Some? &&
            (!HasCrawlDelay(p.data) || ParseInt(p.data.crawlDelay.value).Some?))
      && (p.outcome == Aborted(DelayNotInteger) <==>
            Tally(site, locs, FinalUrlAfter(d, sitemap)).Some? &&
            HasCrawlDelay(p.data) && ParseInt(p.data.crawlDelay.value).None?)
  {
    ScanSitemapTotal(d, site, fqd);
  }

  /**
   * On the record: a robots.txt reading "Crawl-delay: 5" and 720 URLs in all
   * complete the pass with an estimate of one hour.
   */
  lemma CrawlDelayEstimateExample(d: ScanData, site: Site, fqd: string)
    requires IsOk(site(RobotsUrl(fqd))) && site(RobotsUrl(fqd)).resp.doc.text == "Crawl-delay: 5"
    requires
      var sitemap := site(SitemapUrl(fqd));
      var locs := IndexLocsAfter(d, sitemap) + RobotsLocsAfter(d, site(RobotsUrl(fqd)));
      var tally := Tally(site, locs, FinalUrlAfter(d, sitemap));
      tally.Some? && d.totalUrls + PrimaryUrlCount(sitemap) + tally.value == 720
    ensures ScanSitemap(d, site, fqd).outcome == Completed
    ensures ScanSitemap(d, site, fqd).data.crawlDelay == Some("5")
    ensures ScanSitemap(d, site, fqd).data.estimate == Hours(1.0)
  {
    var p := ScanSitemap(d, site, fqd);
    FiveDeclared(d, site, fqd);
    assert p.data.crawlDelay == Some("5");
    FiveParses();
    ScanSitemapOutcome(d, site, fqd);
    assert p.outcome == Completed;
    ScanSitemapTotal(d, site, fqd);
    assert p.data.totalUrls == 720;
    EstimateFromCrawlDelay(d, site, fqd);
    assert p.data.estimate == Hours(EstimateHours(720, 5));
    EstimateExample();
  }

  lemma FiveDeclared(d: ScanData, site: Site, fqd: string)
    requires IsOk(site(RobotsUrl(fqd))) && site(RobotsUrl(fqd)).resp.doc.text == "Crawl-delay: 5"
    ensures ScanSitemap(d, site, fqd).data.crawlDelay == Some("5")
  {
    DeclaredCrawlDelay("5");
    assert "Crawl-delay: " + "5" == "Crawl-delay: 5";
    ScanSitemapCrawlDelay(d, site, fqd);
  }

  lemma FiveParses()
    ensures ParseInt("5") == Some(5)
  {
    ParseShowNat(5);
    assert ShowNat(5) == "5";
  }

  /** 720 URLs at a crawl delay of 5 seconds take one hour. */
  lemma EstimateExample()
    ensures EstimateHours(720, 5) == 1.0
  {
  }
}
