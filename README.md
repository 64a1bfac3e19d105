# seo_scanner in Dafny

A model of the scanning core of `seo.py`, a command-line SEO audit tool. The
scanner runs two passes for each domain. Both write into one result record
with a fixed set of columns.

- **The sitemap pass** (`sitemap_scan`):
  - fetches `/sitemap.xml`, counts its `<url>` entries and the ones that look like PDFs;
  - collects the children of a sitemap index;
  - reads robots.txt for the first `Crawl-delay` and every `Sitemap:` declaration;
  - adds up the `<url>` counts of all child sitemaps;
  - estimates the hours needed to crawl the site.
- **The page pass** (`seo_scan`):
  - audits `/` and `/privacy` in order: title, description, date meta, main landmark, search control;
  - marks pages that are not OK with '404';
  - warns about repeated titles and repeated descriptions.

Every network answer is an input value:

- A `Web.Site` maps each URL to a `Fetch`: an exception, or a response with its status, final URL and document.
- A document is given as the facts the scanner extracts from it: its text, the texts of its `<url>` elements, whether it is a sitemap index, its `sitemap > loc` texts, and its page facts.

The modules:

- `Text` models `re.findall` for the two patterns of the robots step, and Python's `int()` on strings.
  - `re.findall`: the text is split at line breaks; each line contributes what follows the leftmost match of the pattern, up to the end of the line.
- `Record` is the result record: one typed field per column and its default.
- `Sitemap` states the sitemap pass as functions and proves them.
- `PageAudit` does the same for the page pass.
- `Scanner` holds the record as a class, `ScanRecord`.
  - Its methods update the fields step by step, as the source updates its dict.
  - Each method is proved to leave the record exactly as the corresponding `Sitemap` or `PageAudit` function says.
  - `Scanner.Scan` runs both passes on a fresh record for one domain.
- `AsWritten` models the passes as the source writes them: a Python-like dict with string keys (here a `Key` datatype).
  - It exists to show where the written code departs from the intended flow ("Findings").
  - The rest of the model uses the corrected flow.

Uncaught exceptions end a pass:

- `Sitemap.Outcome.Aborted` records why: a child-sitemap fetch that raises (seo.py:142, 149), or `int()` rejecting the crawl delay (seo.py:159).
- `AsWritten.PyResult.Raises` plays the same part for the as-written passes.

Key mapping. The corrected record stores each result in the column it evidently stands for:

| key written | stored in |
|---|---|
| 'status_code' | 'Sitemap status code' |
| 'final_url' | 'Sitemap final url' |
| 'url_tag_count' | 'Sitemap items' |
| 'pdfs_in_urls' | 'PDFs in sitemap' |
| 'sitemap_locations_from_index' | 'Sitemaps from index' |
| 'robots' | 'Robots.txt' |
| 'crawl_delay' | 'Crawl delay' |
| 'sitemap_locations_from_robotstxt' | 'Sitemaps from robots' |
| 'warnings' | 'Warnings' |

## Model

| member | source | states |
|---|---|---|
| Text.SplitLines | seo.py:126 | a text has at least one line, and no line holds a line break, which `.` in the pattern cannot cross |
| Text.SplitLinesSingle | seo.py:126 | a text without a line break is a single line |
| Text.JoinSplitLines | seo.py:126 | putting the lines back together with line breaks gives the original text, so splitting loses nothing |
| Text.SplitLinesAppend | seo.py:126-129 | text joined at a line break splits into the lines of the first part followed by those of the second |
| Text.Search | seo.py:126 | the search finds the leftmost position at or after the start where the pattern matches; none earlier matches; it finds nothing only when no position matches |
| Text.CaptureAtStart | seo.py:126 | a line that starts with a match captures the rest of the line |
| Text.CaptureMeaning | seo.py:126 | `pattern (.*)` captures on a line exactly when the pattern matches somewhere in it, and the capture is the rest of the line after the leftmost match |
| Text.LineCaptures | seo.py:126 | a line contributes at most one capture |
| Text.FindAllInLines | seo.py:126 | findall yields at most one capture per line |
| Text.FindAllAppend | seo.py:126-129 | the captures of two runs of lines are the captures of the first run followed by those of the second, in order |
| Text.FindAllAtLine | seo.py:126-129 | a line in the middle contributes its own capture at its place in the result |
| Text.FindAllSingleLine | seo.py:126 | one line yields its capture, or nothing when it does not match |
| Text.FindAllEmpty | seo.py:127 | findall finds nothing exactly when no line matches |
| Text.FindAllFirst | seo.py:128 | the first capture is the one of the first line that matches |
| Text.FindAllHead | seo.py:126-128 | when anything is found, the first capture comes from a line that matches, and no earlier line matches |
| Text.FindAllCaptures | seo.py:129 | every capture found is the capture of some line of the text |
| Text.LiteralMatch | seo.py:107 | a literal pattern matches at a position exactly when the substring occurs there |
| Text.ContainsOccurs | seo.py:107 | `sub in s` holds exactly when `sub` occurs at some position of `s` |
| Text.TrimStart | seo.py:159 | stripping leading whitespace leaves a suffix whose first character is not whitespace, and every character removed is whitespace |
| Text.TrimEnd | seo.py:159 | stripping trailing whitespace leaves a prefix whose last character is not whitespace, and every character removed is whitespace |
| Text.DropUnderscores | seo.py:159 | removing digit-group underscores keeps only characters of the input, none of them '_', and leaves a text without underscores unchanged |
| Text.DropUnderscoresAppend | seo.py:159 | underscores are removed piece by piece: '_' is dropped, every other character is kept, in order |
| Text.MagnitudeExtend | seo.py:159 | a numeral reads digit by digit: one digit is its value, and one more digit, with or without a '_' before it, shifts the value one decimal place |
| Text.ParseInt | seo.py:159 | `int()` succeeds exactly when the stripped text is an optional sign followed by digits grouped by single underscores; the value is that numeral's magnitude, negated after '-' |
| Text.ShowNat | seo.py:159 | a natural number's decimal numeral is non-empty and made of digits only |
| Text.DigitsValueShowNat | seo.py:159 | reading the digits of a numeral gives back the number |
| Text.ParseShowNat | seo.py:159 | `int()` reads back the decimal numeral of every natural number |
| Text.ParseShowInt | seo.py:159 | `int()` reads back the decimal numeral of every integer, sign included |
| Sitemap.RobotsUrlIsNotSitemapUrl | seo.py:117 | for every domain, the robots.txt URL differs from the sitemap URL |
| Sitemap.CrawlDelay | seo.py:126-128 | no crawl delay is found exactly when no line of robots.txt declares one; otherwise it is the value on a declaring line before which no line declares one |
| Sitemap.CrawlDelayFirstWins | seo.py:126-128 | the crawl delay is the value declared on the first line that declares one |
| Sitemap.LaterCrawlDelaysIgnored | seo.py:126-128 | declarations after one already found never change the crawl delay |
| Sitemap.DeclaredCrawlDelay | seo.py:126-128 | the line "Crawl-delay: v" declares the crawl delay v |
| Sitemap.CrawlDelayExample | seo.py:126-128 | "Crawl-delay: 5" followed by "Crawl-delay: 10" gives "5" |
| Sitemap.RobotsSitemaps | seo.py:129 | the sitemap declarations are at most one per line, each is the value of a declaring line, and there are none exactly when no line declares one |
| Sitemap.RobotsSitemapsAppend | seo.py:129 | every `Sitemap:` declaration is collected in document order; none is dropped, merged or reordered |
| Sitemap.KeepBounds | seo.py:107 | a list comprehension with a filter keeps only elements of the input that pass the filter, and never more than the input |
| Sitemap.KeepCount | seo.py:107 | the filtered list is exactly as long as the number of positions whose element passes the filter |
| Sitemap.PdfUrlsBound | seo.py:102-107 | the PDF count never exceeds the `<url>` count |
| Sitemap.PdfCountIsNumberOfPdfEntries | seo.py:107 | the PDF count is the number of `<url>` entries whose text contains ".pdf" |
| Sitemap.Plus | seo.py:138-152 | a sum is defined exactly when neither part raised |
| Sitemap.ChildUrls | seo.py:140-152 | one child location raises exactly when it is not the primary's final URL and its fetch raises; it adds URLs only when it is not the final URL and its response is OK, and such a child always adds its `<url>` count |
| Sitemap.TallyRaises | seo.py:138-152 | the tally of a list of child locations raises exactly when some location other than the primary's final URL has a fetch that raises |
| Sitemap.TallyLocations | seo.py:138-152 | the loop over child locations adds up, from its start value, exactly what the tally function says, or reports the fetch that raised |
| Sitemap.TallyAppend | seo.py:138-152 | tallying the index children and then the robots children is tallying both lists concatenated |
| Sitemap.TallySkipsFinalUrl | seo.py:140-148 | a child equal to the primary's final URL adds nothing and is never fetched |
| Sitemap.TallySkipsNotOk | seo.py:143-150 | a child whose response is not OK adds nothing |
| Sitemap.TallyCountsRepeats | seo.py:139-152 | children are not de-duplicated: one listed twice is counted twice |
| Sitemap.TallyRemove | seo.py:138-152 | the tally is any one child's count plus the tally of the others |
| Sitemap.TallyPermutation | seo.py:138-152 | the order in which children are listed does not change the tally |
| Sitemap.EstimateHours | seo.py:159 | the estimate times 3600 is total URLs times crawl delay |
| Sitemap.RecordPrimaryColumns | seo.py:88-110 | the primary sitemap step records the status code, or the failed URL when the fetch raised; for an OK sitemap it sets the item count to its `<url>` count and, when there are entries, the PDF count to the number of entries containing ".pdf", otherwise both keep their values; the index children change only for an OK sitemap index, the final URL only for a response; the page columns, the total, the estimate and the robots columns are left alone |
| Sitemap.RecordRobots | seo.py:116-133 | a robots fetch that raises changes nothing; otherwise 'Robots.txt' is 'OK' for status 200 and the status code for any other; the step changes only the robots columns; the crawl delay is the first declaration of an OK robots.txt, or unchanged |
| Sitemap.RecordEstimate | seo.py:157-159 | the estimate step changes only the estimate; it either completes or aborts because `int()` rejected the delay, and it aborts exactly when a crawl delay is set and `int()` rejects it; it changes the estimate only with a crawl delay and a completed step, and then the estimate is total times delay in hours |
| Sitemap.ScanSitemap | seo.py:97-159 | the sitemap pass never lowers the URL total and never touches the page columns |
| Sitemap.ScanSitemapTotal | seo.py:138-153 | children come from the index (when OK) and robots.txt (when OK); the pass aborts exactly when a child fetch raises; otherwise the total grows by the primary count plus the children's counts |
| Sitemap.ScanSitemapCrawlDelay | seo.py:126-128 | after the pass, the crawl delay is the first declaration of an OK robots.txt, otherwise the old value |
| Sitemap.EstimateNeedsCrawlDelay | seo.py:157-159 | the estimate changes only when a crawl delay is set and the pass completes; otherwise it keeps its value ('Unknown' on a fresh record) |
| Sitemap.EstimateFromCrawlDelay | seo.py:159 | with a crawl delay and a completed pass, the estimate is total times delay divided by 3600 |
| Sitemap.ScanSitemapAfterSitemapFailure | seo.py:89-98 | when the sitemap fetch raises, that is recorded, the counts are kept, and robots.txt is still read |
| Sitemap.ScanSitemapOutcome | seo.py:138-159 | the sitemap pass completes exactly when no child fetch raises and the crawl delay is absent or accepted by `int()`; it aborts on the delay exactly when the children were all counted and `int()` rejects the delay |
| Sitemap.EstimateExample | seo.py:159 | 720 URLs at a crawl delay of 5 take 1.0 hours |
| Sitemap.CrawlDelayEstimateExample | seo.py:126-159 | on the record: a robots.txt reading "Crawl-delay: 5" and 720 URLs in all complete the pass with the crawl delay "5" and an estimate of 1.0 hours |
| PageAudit.FirstFoundMeaning | seo.py:208-212 | a fallback chain finds something exactly when one link does, and yields the first link that does |
| PageAudit.DateMeta | seo.py:208-212 | a date meta is found exactly when one of the three is present, and it is one of them |
| PageAudit.DateMetaOrder | seo.py:208-212 | the date meta is the published time, else the modified time, else DC.Date |
| PageAudit.PageTitle | seo.py:201-202 | a page adds a title exactly when it is OK and has a `<title>`, and that title is the `<title>` text; never more than one |
| PageAudit.PageDescription | seo.py:204-206 | a page adds a description exactly when its title was read and it has a description meta with content, and that description is the meta's content; never more than one |
| PageAudit.Entry | seo.py:193-242 | a page's entry is '404' exactly when it answered with another status than OK; it is a full audit exactly when the audit ran to its end, with the page's title and description, and a date exactly when a date meta exists, namely that meta's content; it names the URL that could not be audited exactly when the fetch raised or the audit of an OK page raised |
| PageAudit.AuditPageEffect | seo.py:193-242 | one page keeps a flag that is already true, appends at most one title and one description to the lists, stores its entry under its path and leaves the other entries alone |
| PageAudit.NotFoundPageChangesOnlyItsEntry | seo.py:196-198 | a page that is not OK adds no title and no description, leaves both flags alone, and only gets its '404' entry |
| PageAudit.AuditFromBounds | seo.py:192-242 | once true, a flag stays true; the titles collected before are kept as a prefix, with at most one new title per page |
| PageAudit.AuditMainFlag | seo.py:219-224 | the main flag ends true exactly when it was true or some page, audited to its end, has `main` or `role=main` |
| PageAudit.AuditSearchFlag | seo.py:227-232 | the search flag ends true exactly when it was true or some page, audited to its end, has a search input or a "search" class |
| PageAudit.ElementsCount | seo.py:246-249 | `len(s) != len(set(s))` holds exactly when some value occurs twice in `s` |
| PageAudit.DuplicateWarnings | seo.py:246-249 | the title warning is raised exactly when a title repeats, and the description warning exactly when a description repeats, independently |
| PageAudit.PlatformsOf | seo.py:184-186 | 'Platforms' is 'Unknown' exactly when the fingerprint has no 'web-frameworks' entry, and otherwise that entry |
| PageAudit.SeoScan | seo.py:175-249 | the page pass leaves every sitemap column as the sitemap pass left it |
| PageAudit.AuditOfPages | seo.py:192 | the audit visits `/` and then `/privacy` |
| PageAudit.AuditOfPagesLists | seo.py:189-206 | the lists checked for repeats are the contributions of `/` and then `/privacy` |
| PageAudit.SeoScanWarnings | seo.py:246-249 | the warnings come from those two lists |
| PageAudit.PairRepeat | seo.py:246-249 | two lists of at most one value repeat exactly when both hold the same value |
| PageAudit.SeoScanEntries | seo.py:196-242 | each audited page gets its own entry, computed from its own fetch |
| PageAudit.SeoScanFlags | seo.py:219-232 | each flag is true exactly when one of the two pages, audited to its end, shows it |
| PageAudit.SeoScanDuplicateTitles | seo.py:246-247 | a title warning is raised exactly when both pages had their titles read and the titles are equal |
| PageAudit.SeoScanDuplicateDescriptions | seo.py:204-249 | a description warning is raised exactly when both pages had their titles read and carry a description meta with content, and the two contents are equal |
| PageAudit.DuplicateTitlesExample | seo.py:246-247 | pages titled "Home" and "Home" give a title warning; "Home" and "Privacy Policy" give none |
| PageAudit.SeoScanNotFoundPage | seo.py:196-198 | a page that is not OK is marked '404', and both flags are then those of the other page |
| Record.DefaultData | seo.py:50-69 | the default record has an unvisited entry for exactly the audited pages, zero counts, no child locations, no crawl delay, the estimate 'Unknown', both flags false and no warnings |
| Scanner.ScanRecord.constructor | seo.py:50-69 | a new record has every column at its default and an unvisited entry for each audited page |
| Scanner.ScanRecord.ReadPrimarySitemap | seo.py:88-110 | the primary sitemap step on the record is `Sitemap.RecordPrimary`, and it returns the primary `<url>` count |
| Scanner.ScanRecord.ReadRobots | seo.py:116-133 | the robots step on the record is `Sitemap.RecordRobots` |
| Scanner.ScanRecord.CountChildren | seo.py:138-153 | the two loops add up, from the start value, the tally of the index children followed by the robots children |
| Scanner.ScanRecord.EstimateTime | seo.py:157-159 | the estimate step on the record is `Sitemap.RecordEstimate`, outcome included |
| Scanner.ScanRecord.SitemapScan | seo.py:72-162 | `sitemap_scan` on the record is `Sitemap.ScanSitemap`, outcome included |
| Scanner.ScanRecord.AuditOne | seo.py:193-242 | one iteration of the page loop is `PageAudit.AuditPage` on the lists, the flags and the entries |
| Scanner.ScanRecord.AuditPages | seo.py:189-242 | the page loop is `PageAudit.AuditFrom` over the page list |
| Scanner.ScanRecord.CheckDuplicates | seo.py:246-249 | the duplicate check adds `PageAudit.DuplicateWarnings` of the collected lists |
| Scanner.ScanRecord.ResetPageColumns | seo.py:175-186 | the page pass starts with the reported frameworks (or 'Unknown'), both flags false and no warnings |
| Scanner.ScanRecord.SeoScan | seo.py:165-253 | `seo_scan` on the record is `PageAudit.SeoScan` |
| Scanner.ScanDomain | seo.py:256-270 | on a fresh record: the PDF count never exceeds the URL count; the URL count never exceeds the total unless a child fetch raised; an estimate is set only with a crawl delay and a completed scan; a completed scan has an entry for each audited page; the scan's outcome is that of the sitemap pass on a fresh record |
| Scanner.Scan | seo.py:256-270 | `scan(domain)` on a fresh record is `Scanner.ScanDomain` |
| AsWritten.ScanDataDefaults | seo.py:50-69 | the module-level dict holds None under each audited page, 'Warnings' but not 'warnings', and 'Total URLs' 0 but no 'url_tag_count' |
| AsWritten.PrimaryAsWritten | seo.py:100-110 | the primary step writes 'url_tag_count' with the `<url>` count, may write 'pdfs_in_urls', and writes 'sitemap_locations_from_index' only for an index; no other key changes |
| AsWritten.RobotsAsWritten | seo.py:116-133 | the robots step writes only 'robots', 'crawl_delay' and 'sitemap_locations_from_robotstxt'; the last is written exactly for an OK response |
| AsWritten.EstimateAsWritten | seo.py:157-159 | the estimate step changes only 'Est time to index', and nothing at all while 'Crawl delay' is falsy |
| AsWritten.ChildrenAsWritten | seo.py:138-159 | the child step returns only when both location keys exist; it changes only 'Total URLs' and 'Est time to index', and not the estimate while 'Crawl delay' is falsy |
| AsWritten.SitemapScanAsWritten | seo.py:72-162 | the as-written pass changes only the keys it writes, and not the estimate while 'Crawl delay' is falsy |
| AsWritten.PageValues | seo.py:236-242 | each entry is stored under its page path |
| AsWritten.AuditedDict | seo.py:175-242 | after the page loop the new dict holds exactly 'Platforms', the two flags, 'Warnings' and the two page paths |
| AsWritten.DuplicateCheckAsWritten | seo.py:246-249 | the as-written duplicate check raises exactly when a title or a description repeats, and the error is a KeyError on 'warnings' |
| AsWritten.SeoScanAsWritten | seo.py:165-253 | what the as-written page pass returns has exactly the keys of the new dict |
| AsWritten.ScanAsWritten | seo.py:256-270 | what the as-written `scan` returns has exactly the keys of the page pass's new dict |
| AsWritten.RobotsStepFetchesSitemap | seo.py:117 | the robots step fetches the sitemap URL, which is not the robots.txt URL |
| AsWritten.SitemapFailureRaises | seo.py:89-98 | a sitemap fetch that raises is followed by an UnboundLocalError on `sitemap` |
| AsWritten.ReturnsOnlyForSitemapIndex | seo.py:139-147 | on a fresh record the as-written pass returns only for an OK sitemap index; for any other response it raises a KeyError on 'sitemap_locations_from_index' |
| AsWritten.ColumnsKeepDefaults | seo.py:90-131 | after the as-written pass, 'Sitemap status code', 'Sitemap items' and 'Robots.txt' still hold their defaults |
| AsWritten.EstimateNeverComputed | seo.py:128-159 | after the as-written pass, 'Crawl delay' is still None and 'Est time to index' is still 'Unknown' |
| AsWritten.EmptyTextDeclaresNothing | seo.py:126-129 | an empty text declares neither a crawl delay nor a sitemap |
| AsWritten.NoChildrenAddNothing | seo.py:138-159 | with no child locations and no crawl delay, the child step returns the dict unchanged |
| AsWritten.IndexOnlyAfterRobotsHolds | seo.py:100-129 | for the one-URL index site, the dict after the robots step has empty location lists, 'url_tag_count' 1 and 'Total URLs' 0 |
| AsWritten.TotalOmitsPrimaryCount | seo.py:103-153 | for a sitemap index with one `<url>` and no children, 'url_tag_count' is 1 but 'Total URLs' is 0 |
| AsWritten.IndexOnlySiteCountsPrimary | seo.py:103-153 | for the same site, the corrected pass gives a total of 1 |
| AsWritten.DuplicatesRaiseKeyError | seo.py:179-249 | the as-written page pass raises exactly when the corrected one warns, and the error is a KeyError on 'warnings' |
| AsWritten.SeoScanDiscardsResults | seo.py:175 | the as-written page pass ignores the dict it is given, so 'Total URLs', 'Sitemap items' and 'Est time to index' are missing from its result |

## Left out

- HTTP is not modelled (seo.py:89, 117, 142, 149, 194): no timeouts, redirects or headers. A fetch is an input value, either an exception or a response. The web is a function of the URL, so a URL requested twice gets the same answer both times: the repeated sitemap request of seo.py:89 and 117, and a child sitemap listed twice (counted twice by `Sitemap.TallyCountsRepeats`), see one response each, not two that may differ. Exception messages are not kept: the record stores only the URL that failed.
- HTML and XML parsing are not modelled (seo.py:100-110, 144-145, 151-152, 199-232). The facts the selectors extract are inputs. The `'lxml'` parser used for the primary sitemap and the `'xml'` parser used for child sitemaps are assumed to find the same `<url>` elements.
- The builtwith lookup (seo.py:184) is a foreign service. Its answer is the `buildInfo` parameter, and an exception it throws is not modelled.
- The command line, CSV writing and printing are I/O and are not modelled (seo.py:274-292). The same goes for the loop over domains. The serialise-and-read-back property of a result row therefore has no counterpart.
- The estimate's `/ 3600` is a floating-point division in Python; it is a `real` division here.
- `Text.ParseInt` accepts only ASCII whitespace and ASCII digits. Python's `int()` also accepts other Unicode whitespace and digits.
- The 'Pages' column (seo.py:64) is never written by either pass, so the typed record has no field for it. `AsWritten.ScanDataDefaults` keeps it.
- Response truthiness (`if sitemap and …`, `if robots and …`, seo.py:98, 118) is true for every status below 400, so each guard equals its status check against 200. The model keeps only the status check.
- The flags 'Main tags found' and 'Search found' start as None in seo.py:62-63 and are reset to False by `seo_scan`. The typed record starts them at false.
- seo.py reuses one module-level `scan_data` for every domain (seo.py:50, 265). `Scanner.Scan` creates a fresh record per domain instead, so state carried from one domain to the next is not modelled.
- `AsWritten.FinalUrlOf` gives None when 'final_url' is absent, where Python would raise a KeyError if the index list were not empty. That case cannot happen on the paths that reach it: 'final_url' is written before any child is looked at.
- `AsWritten.Value` has one form, `PyPage`, for everything stored under a page path. It does not model the nested dict built at seo.py:236-240.

Where seo.py's behaviour could be read more than one way, the model follows what the code does:

- A child sitemap fetch that raises is not caught (seo.py:142, 149), so the pass aborts (`Sitemap.Fault.ChildFetchRaised`).
- Child sitemaps are not de-duplicated (`Sitemap.TallyCountsRepeats`).
- A page without a `<title>` raises, and so does a description or date meta without a `content` attribute. Either way the page's entry becomes the could-not-audit marker (`PageAudit.Entry`); such an element is not treated as merely absent.

## Findings

| source | as written | input that shows it | evidently intended | confidence | as-written member | corrected member |
|---|---|---|---|---|---|---|
| seo.py:117 | the robots step requests fqd + '/sitemap.xml' | any domain | request fqd + '/robots.txt' | not executed | AsWritten.RobotsStepFetchesSitemap | Sitemap.RobotsUrlIsNotSitemapUrl |
| seo.py:128-159 | the crawl delay is written to 'crawl_delay' but read from 'Crawl delay', which stays None | a robots.txt declaring "Crawl-delay: 5" | the estimate is total times delay in hours | not executed | AsWritten.EstimateNeverComputed | Sitemap.EstimateFromCrawlDelay |
| seo.py:90-131 | status, final URL, counts and locations are written under keys that are not columns, so the columns keep their defaults | any sitemap pass that returns | the results fill the columns (key mapping above) | not executed | AsWritten.ColumnsKeepDefaults | Sitemap.ScanSitemapTotal |
| seo.py:103-153 | 'url_tag_count' is never added to 'Total URLs' | a sitemap index with one `<url>` and no children (`AsWritten.IndexOnlySite`) | the total includes the primary sitemap's URLs | not executed | AsWritten.TotalOmitsPrimaryCount | Sitemap.ScanSitemapTotal |
| seo.py:179-249 | 'Warnings' is created but 'warnings' is written, which raises a KeyError | both pages titled "Home" | the warning is recorded | not executed | AsWritten.DuplicatesRaiseKeyError | PageAudit.DuplicateWarnings |
| seo.py:175 | `seo_scan` replaces `results` with a new dict, so `scan` loses the sitemap results | any domain | the page pass adds to the record | not executed | AsWritten.SeoScanDiscardsResults | PageAudit.SeoScan |
| seo.py:89-98 | when the sitemap fetch raises, `sitemap` is unbound and seo.py:98 raises UnboundLocalError | a sitemap request that times out | record the failure and go on to robots.txt | not executed | AsWritten.SitemapFailureRaises | Sitemap.ScanSitemapAfterSitemapFailure |
| seo.py:139-147 | 'sitemap_locations_from_index' (and 'sitemap_locations_from_robotstxt') are read without a default, raising a KeyError | a plain `<urlset>` sitemap | no children means nothing to add | not executed | AsWritten.ReturnsOnlyForSitemapIndex | Sitemap.ScanSitemapTotal |
