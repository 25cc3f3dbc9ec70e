# amazon-invoice-downloader: crawl-and-extract core in Dafny

This project models the decision logic of `src/invoice_downloader/__main__.py`, a tool that signs in to
an Amazon account, collects order ids (from an order-history report or by paging through the order
history), and saves each order's invoices as PDF files. The browser is replaced by data: a finite
site of order-history pages, and per-attempt scripts that say what each page and each invoice link
turns out to be. The decisions the program takes on what the browser reports are modelled and
proved, except those listed under "## Left out":

- **Order ids** (`order_id.dfy`): the leftmost match of `\d{3}-\d{7}-\d{7}`.
- **Payment filter** (`payment_filter.dfy`): the pattern built by `card_last4_regex`, in two
  versions. One is the pattern as written, whose separator class is mis-escaped (see Findings).
  The other is the pattern as intended. Searching with either one succeeds exactly when the last
  four digits occur in the text.
- **Login-aware navigation** (`navigator.dfy`): `goto_with_login`. It makes at most two
  navigations. A timed-out wait for the sign-in is raised. Only "still on the sign-in page after two
  rounds" is swallowed.
- **Order-history pagination** (`order_history.dfy`): `collect_order_ids`.
  - Modelled as a `while` loop over `visited_urls`, `seen` and `gathered`.
  - It is proved equal to a recursive specification, `Walk`.
  - The crawl terminates. It scrapes every page at most once.
  - It returns well-formed, distinct ids in first-seen order.
- **Invoice location** (`invoice_locator.dfy`):
  - which hrefs open a modal;
  - which modal hrefs become invoice URLs;
  - the positional file names. Distinct positions get distinct names.
- **Per-order processing** (`order_processor.dfy`): `download_invoice_for_order` and its nested
  `save_invoice_variant`.
  - They are methods of a `Downloads` class whose `files` field is the downloads directory.
  - A ghost log records each file written.
  - Each method is proved against a function of the old state.
  - Retries are bounded by `MAX_RETRIES`.
  - No file is ever written twice or overwritten, within an attempt, across attempts and across
    orders.
- **Seeding** (`seed_report.dfy`): the column lookup, payment filtering and de-duplication of
  `load_ids_from_csv`.
- **The run** (`pipeline.dfy`): the home-page navigation and the report-or-crawl decision of `run`, the sweep over years, the
  de-duplication at line 522 and the download loop.

Helpers: `text.dfy` holds ASCII `lower()`, Python `strip()`, substring search, `str.join` and
`str(int)`. `unique.dfy` holds `list(dict.fromkeys(...))` and its properties. `wrappers.dfy` holds
`Option` and `Result`.

Error paths and edge cases the model keeps:

- **Crawl failures.** `collect_order_ids` raises when navigating to a next-page href fails. The
  `try` in `run` has only a `finally`, so the run ends. The model keeps this error path
  (`CrawlError`).
- **Home page.** `goto_with_login` to the home page at the start of `run` (line 507) raises on a
  navigation or login timeout, and the run ends before any crawl or download (`RunError`). The report
  was read at line 493, before the browser started; the ids read from it are dropped. Staying on
  the sign-in page after two rounds does not stop the run.
- **Stop reasons.** The crawl stops for one of six reasons: the current URL was visited before
  (`PageRevisited`), there is no next control (`NoNext`), the next control is disabled
  (`NextDisabled`), the next href resolves to a visited URL (`NextUrlVisited`), a click leaves the
  URL unchanged (`ClickTimedOut`), or the next page does not become ready (`LoadTimedOut`).
- **Empty cells.** The report is read with missing cells filled by `""`, so the order-id column's
  `dropna()` drops nothing. An empty order-id cell therefore yields the id `""`, and the model keeps
  that behaviour.

## Model

| member | source | states |
|---|---|---|
| Text.StripEmptyIffBlank | src/invoice_downloader/__main__.py:333 | `strip()` of an href is empty exactly when every character of it is whitespace |
| Text.NatToStringInjective | src/invoice_downloader/__main__.py:391-393 | `str()` of two different link or modal numbers gives two different strings |
| Unique.Dedup | src/invoice_downloader/__main__.py:522 | `list(dict.fromkeys(s))` has no repeats, holds exactly the values of `s`, and is no longer than `s` |
| Unique.DedupFirstSeen | src/invoice_downloader/__main__.py:522 | the de-duplicated list orders values by their first occurrence in the input |
| Unique.DedupOfDistinct | src/invoice_downloader/__main__.py:522 | de-duplicating a list without repeats returns it unchanged |
| Unique.DedupIdempotent | src/invoice_downloader/__main__.py:522 | de-duplicating twice gives the same list as once |
| Unique.DedupSnoc | src/invoice_downloader/__main__.py:115-117 | one more value is appended exactly when it was not already present |
| Unique.DedupMembers | src/invoice_downloader/__main__.py:480 | a value survives de-duplication exactly when it occurs in the input |
| Unique.DedupPrefix | src/invoice_downloader/__main__.py:80-117 | de-duplicating page by page, as the crawl does with `seen`, equals de-duplicating everything at the end |
| OrderId.FirstMatchFrom | src/invoice_downloader/__main__.py:27 | the first index at or after `k` where the id pattern matches, with no match before it; None when there is none |
| OrderId.FindOrderId | src/invoice_downloader/__main__.py:104 | `search(...).group(1)`: None exactly when nothing matches; otherwise a well-formed id cut from the leftmost match |
| OrderId.FindOrderIdOfId | src/invoice_downloader/__main__.py:27 | a bare order id is found whole |
| OrderId.UnanchoredMatch | src/invoice_downloader/__main__.py:27 | the pattern has no anchors: in "Order # 1234-4567890-1234567" it matches "234-4567890-1234567" |
| PaymentFilter.AsWrittenBranchContainsLast4 | src/invoice_downloader/__main__.py:44-48 | every match of the separator alternative as written contains the last four digits |
| PaymentFilter.IntendedBranchContainsLast4 | src/invoice_downloader/__main__.py:44-48 | every match of the intended separator alternative contains the last four digits |
| PaymentFilter.FilterIsSearch | src/invoice_downloader/__main__.py:44-48 | a search with the pattern as written succeeds exactly when the last four digits occur in the text |
| PaymentFilter.FilterIsIntendedSearch | src/invoice_downloader/__main__.py:46 | the corrected pattern accepts exactly the same texts |
| PaymentFilter.FilterExamples | src/invoice_downloader/__main__.py:259 | filter "4242" accepts "**** 4242" and rejects "**** 4241" |
| PaymentFilter.SeparatorBranchMisEscaped | src/invoice_downloader/__main__.py:46 | the separator alternative as written matches "**** 4242" at no position; the intended one matches it from the first asterisk |
| Navigator.SignInMarkerSuffices | src/invoice_downloader/__main__.py:56-57 | the sign-in test amounts to "signin" occurring in the lowered URL |
| Navigator.GotoWithLogin | src/invoice_downloader/__main__.py:51-66 | one or two navigations. It returns on a non-sign-in URL, which is the last one landed on. It falls through only after two navigations. It agrees with the round-by-round specification |
| Navigator.SoftFailureOnlyAfterTwoSignIns | src/invoice_downloader/__main__.py:54-66 | the silent fall-through happens exactly when both rounds land on a sign-in page and both sign-in waits succeed |
| Navigator.LoginTimeoutIsRaised | src/invoice_downloader/__main__.py:60-64 | a login timeout is raised exactly when some round's wait times out after earlier rounds signed in |
| OrderHistory.StartUrl | src/invoice_downloader/__main__.py:72-75 | the start URL extends the history URL, and is the plain history URL exactly when no year (or the falsy year 0) is given |
| OrderHistory.CardId | src/invoice_downloader/__main__.py:99-112 | a card yields a well-formed id. It is taken from the card text when the text has one; when the text has none, it is the id found in the "Order" link, or nothing when there is no such link. An unreadable card yields nothing |
| OrderHistory.PageIds | src/invoice_downloader/__main__.py:97-112 | the ids of a page's cards are well-formed, at most one per card |
| OrderHistory.NextStep | src/invoice_downloader/__main__.py:119-149 | leaving a page, the crawl moves only to a different page of the site that loads |
| OrderHistory.UnvisitedShrinks | src/invoice_downloader/__main__.py:85-90 | marking an unvisited page visited shrinks the set of unvisited pages: the loop's termination measure |
| OrderHistory.ScrapeCards | src/invoice_downloader/__main__.py:97-117 | after a page's cards, `gathered` is the first-seen de-duplication of the earlier ids followed by this page's ids, and `seen` holds exactly its elements |
| OrderHistory.KeepCard | src/invoice_downloader/__main__.py:114-117 | an id is appended exactly when it is not yet gathered, and `seen` keeps matching `gathered` |
| OrderHistory.ScrapeStep | src/invoice_downloader/__main__.py:114-117 | one card keeps `gathered` equal to the de-duplication of all ids read so far |
| OrderHistory.KeepFirstSeen | src/invoice_downloader/__main__.py:115-117 | the `if order_id not in seen` step is one step of first-seen de-duplication |
| OrderHistory.CollectOrderIds | src/invoice_downloader/__main__.py:69-153 | the `while True` loop returns exactly what the recursive specification `Collect` gives: the ids, the pages scraped and the stop reason, or the error raised |
| OrderHistory.CrawlStep | src/invoice_downloader/__main__.py:85-149 | one loop pass extends the trail by the current page. The crawl then either ends there for the reason the next control gives, or continues from the next page |
| OrderHistory.WalkVisitsDistinctPages | src/invoice_downloader/__main__.py:85-90 | the pages scraped are distinct and unvisited pages of the site, and no more numerous than the unvisited pages: the loop terminates |
| OrderHistory.CollectedIds | src/invoice_downloader/__main__.py:80-153 | a finished crawl scrapes at most as many pages as the site has. Its ids are distinct, well-formed and in first-seen order, and include every id read along the way |
| OrderHistory.IdsAlongAreOrderIds | src/invoice_downloader/__main__.py:104-117 | every id read along a crawl is a well-formed order id |
| OrderHistory.SelfLinkStops | src/invoice_downloader/__main__.py:131-135 | a first page whose next href leads back to itself is scraped once and the crawl stops with "next URL visited" |
| OrderHistory.ClickBackStops | src/invoice_downloader/__main__.py:86-89 | when a click on page B's next control returns to page A, the crawl scrapes two pages and stops on the revisit |
| InvoiceLocator.ModalTriggerIff | src/invoice_downloader/__main__.py:331-335 | an href opens a modal exactly when it is all whitespace, is "#" up to whitespace, or starts with "javascript" in any case |
| InvoiceLocator.BlankHrefIsTrigger | src/invoice_downloader/__main__.py:332-333 | the empty href and a blank href open a modal |
| InvoiceLocator.HashHrefIsTrigger | src/invoice_downloader/__main__.py:333 | " # " opens a modal |
| InvoiceLocator.JavascriptAnyCaseIsTrigger | src/invoice_downloader/__main__.py:334 | "JavaScript:" opens a modal: the test ignores case |
| InvoiceLocator.SpacedJavascriptIsDirect | src/invoice_downloader/__main__.py:334 | " javascript:" is a direct target: the prefix test does not strip |
| InvoiceLocator.PrintSummaryIsDirect | src/invoice_downloader/__main__.py:331-335 | a print-summary URL is a direct target |
| InvoiceLocator.CollectModalUrls | src/invoice_downloader/__main__.py:364-376 | the modal loop collects exactly the resolved kept hrefs, in modal order |
| InvoiceLocator.ModalUrlsAppend | src/invoice_downloader/__main__.py:368-376 | filtering preserves modal order: the URLs of two runs of links are concatenated |
| InvoiceLocator.ModalUrlsMembers | src/invoice_downloader/__main__.py:371-376 | a URL is collected exactly when some href is non-empty, not `javascript` and not a print summary, and resolves to it |
| InvoiceLocator.ModalUrlsEmptyIff | src/invoice_downloader/__main__.py:381-386 | no URL comes out of a modal exactly when every href in it is excluded |
| InvoiceLocator.ModalUrlsExample | src/invoice_downloader/__main__.py:371-375 | a print summary, an upper-case javascript URL and an empty href are dropped; an invoice href is kept |
| InvoiceLocator.FileName | src/invoice_downloader/__main__.py:187-188 | a saved file's name starts with the order id, and its length is the id, the suffix and ".pdf" |
| InvoiceLocator.FileNameInjective | src/invoice_downloader/__main__.py:186-188 | two numeric part lists give the same file name only when they are equal |
| InvoiceLocator.PartsAt | src/invoice_downloader/__main__.py:389-393 | the positional parts of a name are decimal numerals |
| InvoiceLocator.PartsAtInjective | src/invoice_downloader/__main__.py:389-419 | two positions with the same parts are the same position |
| InvoiceLocator.DistinctPositionsDistinctNames | src/invoice_downloader/__main__.py:388-419 | distinct invoice positions (link, modal URL) of one order get distinct file names |
| InvoiceLocator.SingleInvoiceName | src/invoice_downloader/__main__.py:417-419 | with one link, the name is `<id>.pdf` exactly when the link is direct or its modal gives one URL |
| InvoiceLocator.TwoDirectLinksNames | src/invoice_downloader/__main__.py:417-419 | two direct links are saved as `<id>_1.pdf` and `<id>_2.pdf` |
| InvoiceLocator.ModalInvoiceName | src/invoice_downloader/__main__.py:389-393 | the second of three modal URLs behind the second of two links is saved as `<id>_2_2.pdf` |
| OrderProcessor.Save | src/invoice_downloader/__main__.py:189-191 | a path already present leaves the ledger unchanged; an absent path is added exactly when the fetch wrote the file, and nothing else is added |
| OrderProcessor.SaveGrows | src/invoice_downloader/__main__.py:186-234 | a save writes only a file that was not present, and keeps "no file written twice" |
| OrderProcessor.ModalSaveCount | src/invoice_downloader/__main__.py:388-402 | the first modal URL is always saved. All are saved exactly when the returns between them succeed. Never more than there are URLs |
| OrderProcessor.Downloads.SaveInvoiceVariant | src/invoice_downloader/__main__.py:186-234 | the new directory is `Save` of the old one. The method reports a save exactly when the file was absent and the fetch produced it. It touches the browser exactly when the file was absent |
| OrderProcessor.Downloads.HandleModal | src/invoice_downloader/__main__.py:364-405 | the modal branch saves exactly the first `ModalSaveCount` URLs under their positional names |
| OrderProcessor.Downloads.RunAttempt | src/invoice_downloader/__main__.py:237-429 | one attempt's result and new directory are those of the specification `Attempt`: a filter miss, no links, all links handled, or a failure when the page does not load, a link raises or a return to the details page fails |
| OrderProcessor.Downloads.DownloadInvoiceForOrder | src/invoice_downloader/__main__.py:236-439 | the retry loop's last result, attempt count, delay count and directory are those of `Process` |
| OrderProcessor.AbortedStays | src/invoice_downloader/__main__.py:424-434 | an exception in the link loop ends it: later links are not handled |
| OrderProcessor.RetryCounts | src/invoice_downloader/__main__.py:236-439 | one to three attempts, one delay between consecutive attempts and none after the last; the order ends failed only after all three attempts |
| OrderProcessor.EndsAtAttemptIff | src/invoice_downloader/__main__.py:236-437 | processing ends at attempt k exactly when that attempt did not fail or k is the last allowed |
| OrderProcessor.ModalSavesGrow | src/invoice_downloader/__main__.py:388-396 | saving modal URLs never rewrites a file and never writes one twice |
| OrderProcessor.LinkStepGrows | src/invoice_downloader/__main__.py:317-427 | handling one link never rewrites a file and never writes one twice |
| OrderProcessor.LinksFromGrow | src/invoice_downloader/__main__.py:317-427 | the link loop never rewrites a file and never writes one twice |
| OrderProcessor.LinksFromExtends | src/invoice_downloader/__main__.py:317-427 | the link loop only adds new files, each recorded as written |
| OrderProcessor.LinksFromKeepsOk | src/invoice_downloader/__main__.py:317-427 | the link loop keeps "no file written twice, every written file present" |
| OrderProcessor.AttemptGrows | src/invoice_downloader/__main__.py:237-429 | an attempt never rewrites a file and never writes one twice |
| OrderProcessor.RetryNeverOverwrites | src/invoice_downloader/__main__.py:189-191 | across all attempts of an order, files present are skipped, nothing is written twice, files are only added |
| OrderProcessor.FilterSkipIff | src/invoice_downloader/__main__.py:245-261 | with a loaded page, the order is skipped on the first attempt, without retry or any write, exactly when a filter is set and the digits do not occur in the page text |
| OrderProcessor.TwoDirectLinksAttempt | src/invoice_downloader/__main__.py:417-429 | an attempt with two direct links completes after saving `<id>_1.pdf` then `<id>_2.pdf` |
| OrderProcessor.FirstLinkThenAbort | src/invoice_downloader/__main__.py:424-434 | a failed return after the first of two links fails the attempt with only `<id>_1.pdf` saved |
| OrderProcessor.TwoDirectLinksSaved | src/invoice_downloader/__main__.py:236-429 | an order with two direct links completes in one attempt, writing the two numbered files |
| OrderProcessor.RetrySkipsSavedInvoice | src/invoice_downloader/__main__.py:189-191 | after a failed first attempt, the retry skips the file already saved: two attempts, one delay, each file written once |
| OrderProcessor.ThirdAttemptSucceeds | src/invoice_downloader/__main__.py:236-437 | two page-load failures and then a single link give three attempts, two delays and the single write `<id>.pdf` |
| OrderProcessor.RaisingLinkExhaustsRetries | src/invoice_downloader/__main__.py:317-329 | a single invoice link whose wait or href read raises something other than a timeout fails every attempt (lines 433-437): three attempts, two delays, nothing written |
| SeedReport.ColumnFor | src/invoice_downloader/__main__.py:465 | the normalised-name lookup gives the last column with that name, and None exactly when no column has it |
| SeedReport.OrderIdColumnChoice | src/invoice_downloader/__main__.py:466-469 | an order-id column is found exactly when some column normalises to "order-id" or "orderid"; "order-id" wins |
| SeedReport.OrderIdHeaderExample | src/invoice_downloader/__main__.py:465-466 | the header "Order ID" is found as "order-id" and preferred over a later "orderid" |
| SeedReport.PaymentColumns | src/invoice_downloader/__main__.py:474 | the payment columns are exactly those whose lowered name contains "payment", in column order and without repeats |
| SeedReport.ColumnValues | src/invoice_downloader/__main__.py:471 | one cell per row, in row order |
| SeedReport.LoadIdsFromCsv | src/invoice_downloader/__main__.py:458-483 | the row loop returns exactly the specification `CsvIds` |
| SeedReport.MatchingIdsMembers | src/invoice_downloader/__main__.py:476-479 | an id is kept exactly when some row carrying it has payment text containing the digits |
| SeedReport.CsvIdsMembers | src/invoice_downloader/__main__.py:471-480 | the seed ids are distinct, and an id is seeded exactly when some row carries it and, with a filter, that row's payment text contains the digits |
| SeedReport.JoinContainsPart | src/invoice_downloader/__main__.py:477 | each payment cell occurs in the space-joined text |
| SeedReport.PaymentCellMatchKeepsRow | src/invoice_downloader/__main__.py:477-478 | a row whose single payment cell contains the digits is kept |
| Pipeline.SweepYears | src/invoice_downloader/__main__.py:511 | with no years, the single default-history sweep; otherwise one sweep per requested year, in the order given |
| Pipeline.CrawlYears | src/invoice_downloader/__main__.py:509-516 | the year loop returns exactly the specification `CrawlAll` over the sweeps |
| Pipeline.CrawlAllErrStays | src/invoice_downloader/__main__.py:512-516 | once a sweep raises, the run's crawl ends with that error |
| Pipeline.GatherOrderIds | src/invoice_downloader/__main__.py:491-522 | in the source's order: the report is read, the home page is opened, then the crawl runs when forced or when the report gave nothing. The result is `RunOrders` of the home navigation's outcome: the de-duplicated ids, a home-page raise, or the crawl's error |
| Pipeline.CrawlAndDedup | src/invoice_downloader/__main__.py:509-522 | once the report has given its ids, the crawl-or-not decision and the de-duplication return exactly `RunIds`: the de-duplicated ids of the report or of the crawl, or the crawl's error |
| Pipeline.RunOrdersIff | src/invoice_downloader/__main__.py:506-522 | a run reaches its orders exactly when the home navigation does not raise and gathering succeeds, and they are then the gathered orders; a raise at the home page ends the run with that failure |
| Pipeline.DownloadAll | src/invoice_downloader/__main__.py:524-525 | the download loop leaves the directory as `ProcessAll` of the ids, in order |
| Pipeline.Run | src/invoice_downloader/__main__.py:491-525 | the whole run: the gathered orders are `RunOrders`; when gathering succeeds each order is processed in turn with the same card filter, and otherwise the downloads directory is unchanged |
| Pipeline.RunIdsDistinct | src/invoice_downloader/__main__.py:522 | no order is processed twice in a run |
| Pipeline.ReportSuffices | src/invoice_downloader/__main__.py:492-509 | without a forced crawl, a report that yields ids is used alone, unchanged, and nothing is crawled |
| Pipeline.ForcedCrawlIgnoresReport | src/invoice_downloader/__main__.py:492-494 | with a forced crawl the report has no effect on the orders processed |
| Pipeline.CrawlAllMembers | src/invoice_downloader/__main__.py:512-516 | a successful crawl holds exactly the ids it started with and those of every sweep |
| Pipeline.CrawledRunMembers | src/invoice_downloader/__main__.py:509-522 | when the report is skipped or empty, the run processes exactly the ids some sweep found |
| Pipeline.ProcessAllNeverOverwrites | src/invoice_downloader/__main__.py:524-525 | processing all orders of a run never rewrites a file and never writes one twice |

## Left out

- Browser calls are not modelled. This covers page navigation, locators and their counts,
  `inner_text`, clicks, key presses, `wait_for_*`, `page.pdf`, download capture, `emulate_media` and
  the browser context. The model replaces them with a finite site and per-attempt scripts.
- The CSS and role selectors are left out. The model takes as given which cards, which next control,
  which invoice links and which modal links they find.
- Timeouts, `asyncio.sleep`, `wait_for_timeout` and async scheduling are not modelled. Only whether
  a wait succeeded is modelled. A retry delay is counted, not timed.
- `urljoin` is a parameter `resolve`. It is Python's reference resolution from section 5.2 of
  RFC 3986, a library routine.
- Only ASCII is handled. `\d`, `lower()`, `strip()` and `isspace()` cover the ASCII range, while
  Python's versions also accept other Unicode digits, letters and spaces.
- Login inside the crawl and inside order processing is not modelled. There a navigation is taken to
  land where it was sent. `goto_with_login` is modelled on its own and at the home page that starts
  `run`.
- The crawl does not model where a next-page click leads when that is not a page of the site. Such a
  click is treated like a click that leaves the URL unchanged.
- The diagnostic sample of links at lines 296-311 is left out. So are logging, the `print` at line
  47, the payment-section snippet at lines 249-258 and the labels passed to `save_invoice_variant`.
  They only produce output.
- `_download_invoice` (lines 156-177) is left out: nothing calls it.
- `parse_args`, `ensure_directories`, `pandas.read_csv`, the deletion of `ORDER_IDS_FILE` and `main`
  are left out. They are command-line, filesystem and library plumbing. A missing report file
  appears as `None`.
- A report that `pandas.read_csv` cannot parse is not modelled. Line 464 is reached from line 493,
  outside the `try`, so such a report raises out of `run` before the browser starts. The model only
  has readable reports.
- A click on the next control that raises (line 139, outside any `try`) is not modelled. Such a
  click ends the crawl and the run; the model only has clicks that change the URL or leave it
  unchanged.
- `scripts/*.py` and `rewrite_waits.py` are not part of this model. They are one-off source-rewriting
  scripts.
- OrderProcessor.FetchOutcome: a fetch ends in one of five outcomes. The model does not capture
  partial files left by a failed `page.pdf`.
- OrderProcessor.AttemptScript: within one attempt, `fetch` gives each URL one outcome. Two saves
  of the same URL in one attempt therefore end the same way. This happens with two direct links
  with the same href, or a repeated modal href. The model does not capture a first fetch timing out
  while a second fetch of the same URL succeeds.
- OrderProcessor.LinkStep: after a modal fails, later links are taken as the script gives them. The
  model does not capture how the page state left behind by that failure changes them.
- SeedReport.ColumnFor: column names are taken as distinct strings. The model does not capture how
  pandas renames duplicate headers. It does capture that a later duplicate normalised name wins.
- Pipeline.DownloadAll: each order's attempts are scripted independently of the orders before it,
  on the single shared page.

## Findings

| source | as written | input that shows it | evidently intended | confidence | as-written member | corrected member |
|---|---|---|---|---|---|---|
| src/invoice_downloader/__main__.py:46 | The raw f-string doubles the backslashes. The separator class is therefore {backslash, `*`, `u`, `2`, `0`, `-`}, followed by a literal backslash and `s*` | text "**** 4242", last four "4242": the separator alternative cannot match, since there is no backslash. The search still succeeds through the bare alternative | separators `*`, `•` (U+2022) or `-`, then optional whitespace, then the digits. Acceptance is the same either way | not executed | PaymentFilter.SeparatorBranchMisEscaped | PaymentFilter.FilterIsIntendedSearch |
