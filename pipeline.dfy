/**
 * A whole run (`run`): seed the order ids from the report unless a crawl is
 * forced, crawl the order history (once per requested year, or the default
 * history) when forced or when the report gave nothing, de-duplicate, and
 * process each order once.
 */
module Pipeline {
  import opened Wrappers
  import opened Text
  import opened Unique
  import opened OrderHistory
  import opened SeedReport
  import opened OrderProcessor
  import Navigator

  /** The options that shape a run: the Amazon domain, the card filter as
      typed, whether to skip the report, and the years to crawl. */
  datatype Options = Options(domain: string, last4: string, forceCrawl: bool, years: seq<int>)

  function BaseUrl(opts: Options): string {
    "https://" + opts.domain
  }

  /** The card filter after strip(); "" means no filter. */
  function CardFilter(opts: Options): string {
    Strip(opts.last4)
  }

  /** The sweeps to crawl: each requested year, or the default history. */
  function SweepYears(years: seq<int>): (r: seq<Option<int>>)
    ensures years == [] ==> r == [None]
    ensures years != [] ==> |r| == |years| && forall i :: 0 <= i < |years| ==> r[i] == Some(years[i])
  {
    if years == [] then [None] else seq(|years|, i requires 0 <= i < |years| => Some(years[i]))
  }

  /** One crawl sweep: the ids `collect_order_ids` returns, or what it raises. */
  function Sweep(site: Site, resolve: string -> string, baseUrl: string, year: Option<int>): Result<seq<string>, CrawlError> {
    match Collect(site, resolve, StartUrl(baseUrl, year))
    case Ok(c) => Ok(c.ids)
    case Err(e) => Err(e)
  }

  /** The outcomes of the sweeps, one per year, in order. */
  function Sweeps(site: Site, resolve: string -> string, baseUrl: string, years: seq<Option<int>>): (r: seq<Result<seq<string>, CrawlError>>)
    ensures |r| == |years|
    ensures forall k :: 0 <= k < |years| ==> r[k] == Sweep(site, resolve, baseUrl, years[k])
  {
    seq(|years|, k requires 0 <= k < |years| => Sweep(site, resolve, baseUrl, years[k]))
  }

  /** The ids of the sweeps appended to `acc` in turn; the first error
      raised ends the run. */
  function CrawlAll(acc: seq<string>, sweeps: seq<Result<seq<string>, CrawlError>>): Result<seq<string>, CrawlError> {
    if sweeps == [] then Ok(acc)
    else match CrawlAll(acc, sweeps[..|sweeps| - 1])
      case Err(e) => Err(e)
      case Ok(a) =>
        match sweeps[|sweeps| - 1]
        case Err(e) => Err(e)
        case Ok(ids) => Ok(a + ids)
  }

  /** `order_ids` once gathering is over (lines 491-516). */
  function GatheredIds(opts: Options, report: Option<Table>, site: Site, resolve: string -> string): Result<seq<string>, CrawlError> {
    var seed := if !opts.forceCrawl then CsvIds(report, CardFilter(opts)) else [];
    if opts.forceCrawl || seed == [] then
      CrawlAll(seed, Sweeps(site, resolve, BaseUrl(opts), SweepYears(opts.years)))
    else Ok(seed)
  }

  /** The orders a run processes, in order (line 522), or the error that
      ends it. */
  function RunIds(opts: Options, report: Option<Table>, site: Site, resolve: string -> string): Result<seq<string>, CrawlError> {
    match GatheredIds(opts, report, site, resolve)
    case Err(e) => Err(e)
    case Ok(ids) => Ok(Dedup(ids))
  }

  /** The crawl loop of `run` (lines 509-516): one `collect_order_ids` per
      sweep, extending the ids gathered so far. */
  method CrawlYears(seed: seq<string>, site: Site, resolve: string -> string, baseUrl: string, years: seq<Option<int>>)
    returns (r: Result<seq<string>, CrawlError>)
    ensures r == CrawlAll(seed, Sweeps(site, resolve, baseUrl, years))
  {
    ghost var sweeps := Sweeps(site, resolve, baseUrl, years);
    var orderIds := seed;
    for k := 0 to |years|
      invariant CrawlAll(seed, sweeps[..k]) == Ok(orderIds)
    {
      CrawlAllSnoc(seed, sweeps, k);
      var crawled := CollectOrderIds(site, resolve, StartUrl(baseUrl, years[k]));
      assert sweeps[k] == Sweep(site, resolve, baseUrl, years[k]);
      if crawled.Err? {
        CrawlAllErrStays(seed, sweeps, k + 1, |years|);
        assert sweeps[..|years|] == sweeps;
        return Err(crawled.error);
      }
      orderIds := orderIds + crawled.value.ids;
    }
    assert sweeps[..|years|] == sweeps;
    return Ok(orderIds);
  }

  /** One more sweep of the crawl. */
  lemma CrawlAllSnoc(acc: seq<string>, sweeps: seq<Result<seq<string>, CrawlError>>, k: nat)
    requires k < |sweeps|
    ensures CrawlAll(acc, sweeps[..k + 1]) ==
      match CrawlAll(acc, sweeps[..k])
      case Err(e) => Err(e)
      case Ok(a) => if sweeps[k].Err? then Err(sweeps[k].error) else Ok(a + sweeps[k].value)
  {
    assert sweeps[..k + 1][..k] == sweeps[..k];
  }

  /** Once a sweep raises, the run's crawl ends with that error. */
  lemma {:induction false} CrawlAllErrStays(acc: seq<string>, sweeps: seq<Result<seq<string>, CrawlError>>, n: nat, m: nat)
    requires n <= m <= |sweeps| && CrawlAll(acc, sweeps[..n]).Err?
    ensures CrawlAll(acc, sweeps[..m]) == CrawlAll(acc, sweeps[..n])
    decreases m - n
  {
    if n < m {
      CrawlAllErrStays(acc, sweeps, n, m - 1);
      assert sweeps[..m][..m - 1] == sweeps[..m - 1];
    }
  }

  /** What ends a run before any order is processed: the navigation to the
      home page raises, or a crawl sweep does. */
  datatype RunError = HomeUnreachable(failure: Navigator.NavFailure) | CrawlFailed(error: CrawlError)

  /** The orders a run processes once `goto_with_login` to the home page has
      ended with `home` (lines 506-522): a raise there ends the run, while
      staying on the sign-in page does not stop it. */
  function RunOrders(home: Navigator.NavOutcome, opts: Options, report: Option<Table>, site: Site,
                     resolve: string -> string): Result<seq<string>, RunError>
  {
    if home.Raised? then Err(HomeUnreachable(home.failure))
    else match RunIds(opts, report, site, resolve)
      case Err(e) => Err(CrawlFailed(e))
      case Ok(ids) => Ok(ids)
  }

  /** `run` up to the download loop (lines 491-522): the report is read
      before the browser starts, then the home page is opened, then the
      history is crawled when forced or when the report gave nothing, and
      the ids are de-duplicated. A raise at the home page drops the ids
      already read. */
  method GatherOrderIds(landing: nat -> Navigator.Landing, opts: Options, report: Option<Table>, site: Site,
                        resolve: string -> string)
    returns (r: Result<seq<string>, RunError>)
    ensures r == RunOrders(Navigator.RoundsFrom(landing, 0), opts, report, site, resolve)
  {
    var seeded: seq<string> := [];
    if !opts.forceCrawl {
      seeded := LoadIdsFromCsv(report, CardFilter(opts));
    }
    var home, _ := Navigator.GotoWithLogin(landing);
    if home.Raised? {
      return Err(HomeUnreachable(home.failure));
    }
    var ids := CrawlAndDedup(seeded, opts, report, site, resolve);
    if ids.Err? {
      return Err(CrawlFailed(ids.error));
    }
    return Ok(ids.value);
  }

  /** Lines 509-522 once the report has given `seeded`: crawl when forced or
      when it is empty, then de-duplicate. */
  method CrawlAndDedup(seeded: seq<string>, opts: Options, report: Option<Table>, site: Site,
                       resolve: string -> string)
    returns (r: Result<seq<string>, CrawlError>)
    requires seeded == if !opts.forceCrawl then CsvIds(report, CardFilter(opts)) else []
    ensures r == RunIds(opts, report, site, resolve)
  {
    var orderIds := seeded;
    if opts.forceCrawl || orderIds == [] {
      var crawled := CrawlYears(orderIds, site, resolve, BaseUrl(opts), SweepYears(opts.years));
      assert GatheredIds(opts, report, site, resolve) == crawled;
      if crawled.Err? {
        return Err(crawled.error);
      }
      orderIds := crawled.value;
    } else {
      assert GatheredIds(opts, report, site, resolve) == Ok(orderIds);
    }
    return Ok(Dedup(orderIds));
  }

  /** A run reaches its orders exactly when the home page does not raise and
      gathering succeeds, and then they are the gathered orders; a raise at
      the home page ends it with that failure whatever the report holds. */
  lemma RunOrdersIff(home: Navigator.NavOutcome, opts: Options, report: Option<Table>, site: Site,
                     resolve: string -> string)
    ensures RunOrders(home, opts, report, site, resolve).Ok? <==>
      !home.Raised? && RunIds(opts, report, site, resolve).Ok?
    ensures RunOrders(home, opts, report, site, resolve).Ok? ==>
      RunOrders(home, opts, report, site, resolve).value == RunIds(opts, report, site, resolve).value
    ensures home.Raised? ==> RunOrders(home, opts, report, site, resolve) == Err(HomeUnreachable(home.failure))
  {
  }

  /** The ledger after processing `ids[..n]` in turn; `scripts(id)` scripts
      the attempts for order `id`. */
  function ProcessAll(l: Ledger, ids: seq<string>, n: nat, last4: string, resolve: string -> string,
                      scripts: string -> nat -> AttemptScript): Ledger
    requires n <= |ids|
  {
    if n == 0 then l
    else
      var before := ProcessAll(l, ids, n - 1, last4, resolve, scripts);
      Process(before, ids[n - 1], last4, resolve, scripts(ids[n - 1])).ledger
  }

  /** The download loop of `run` (lines 524-525). */
  method DownloadAll(downloads: Downloads, ids: seq<string>, last4: string, resolve: string -> string,
                     scripts: string -> nat -> AttemptScript)
    modifies downloads
    ensures downloads.State() == ProcessAll(old(downloads.State()), ids, |ids|, last4, resolve, scripts)
  {
    for k := 0 to |ids|
      invariant downloads.State() == ProcessAll(old(downloads.State()), ids, k, last4, resolve, scripts)
    {
      var _, _, _ := downloads.DownloadInvoiceForOrder(ids[k], last4, resolve, scripts(ids[k]));
    }
  }

  /** `run` from the report to the last order (lines 491-525): the ids are
      gathered, and each is then processed once with the same card filter
      as the report and the crawl used. A run that ends before its orders
      leaves the downloads directory as it was. */
  method Run(downloads: Downloads, landing: nat -> Navigator.Landing, opts: Options, report: Option<Table>,
             site: Site, resolve: string -> string, scripts: string -> nat -> AttemptScript)
    returns (r: Result<seq<string>, RunError>)
    modifies downloads
    ensures r == RunOrders(Navigator.RoundsFrom(landing, 0), opts, report, site, resolve)
    ensures r.Err? ==> downloads.State() == old(downloads.State())
    ensures r.Ok? ==>
      downloads.State() == ProcessAll(old(downloads.State()), r.value, |r.value|, CardFilter(opts), resolve, scripts)
  {
    r := GatherOrderIds(landing, opts, report, site, resolve);
    if r.Ok? {
      DownloadAll(downloads, r.value, CardFilter(opts), resolve, scripts);
    }
  }

  /** The orders of a run are distinct, so no order is processed twice. */
  lemma RunIdsDistinct(opts: Options, report: Option<Table>, site: Site, resolve: string -> string)
    requires RunIds(opts, report, site, resolve).Ok?
    ensures NoDup(RunIds(opts, report, site, resolve).value)
  {
  }

  /** Without a forced crawl, a report that yields ids is used alone: no
      crawl happens, and the orders are the report's ids as they are. */
  lemma ReportSuffices(opts: Options, report: Option<Table>, site: Site, resolve: string -> string)
    requires !opts.forceCrawl && CsvIds(report, CardFilter(opts)) != []
    ensures RunIds(opts, report, site, resolve) == Ok(CsvIds(report, CardFilter(opts)))
  {
    var ids := CsvIds(report, CardFilter(opts));
    DedupOfDistinct(ids);
  }

  /** A forced crawl ignores the report entirely. */
  lemma ForcedCrawlIgnoresReport(opts: Options, a: Option<Table>, b: Option<Table>, site: Site, resolve: string -> string)
    requires opts.forceCrawl
    ensures RunIds(opts, a, site, resolve) == RunIds(opts, b, site, resolve)
  {
  }

  /** A successful crawl gathers exactly the ids of `acc` and of the
      sweeps. */
  lemma {:induction false} CrawlAllMembers(acc: seq<string>, sweeps: seq<Result<seq<string>, CrawlError>>, x: string)
    requires CrawlAll(acc, sweeps).Ok?
    ensures forall k :: 0 <= k < |sweeps| ==> sweeps[k].Ok?
    ensures x in CrawlAll(acc, sweeps).value <==>
      x in acc || exists k :: 0 <= k < |sweeps| && x in sweeps[k].value
  {
    if sweeps != [] {
      var p := sweeps[..|sweeps| - 1];
      CrawlAllMembers(acc, p, x);
      if exists k :: 0 <= k < |sweeps| && x in sweeps[k].value {
        var k :| 0 <= k < |sweeps| && x in sweeps[k].value;
        if k < |p| {
          assert p[k] == sweeps[k];
        }
      }
      if exists k :: 0 <= k < |p| && x in p[k].value {
        var k :| 0 <= k < |p| && x in p[k].value;
        assert sweeps[k] == p[k];
      }
    }
  }

  /** When the report is skipped or yields nothing, the run processes
      exactly the ids some sweep found, each once. */
  lemma CrawledRunMembers(opts: Options, report: Option<Table>, site: Site, resolve: string -> string, x: string)
    requires opts.forceCrawl || CsvIds(report, CardFilter(opts)) == []
    requires RunIds(opts, report, site, resolve).Ok?
    ensures var sweeps := Sweeps(site, resolve, BaseUrl(opts), SweepYears(opts.years));
      x in RunIds(opts, report, site, resolve).value <==>
        exists k :: 0 <= k < |sweeps| && sweeps[k].Ok? && x in sweeps[k].value
  {
    var sweeps := Sweeps(site, resolve, BaseUrl(opts), SweepYears(opts.years));
    CrawlAllMembers([], sweeps, x);
    DedupMembers(CrawlAll([], sweeps).value, x);
  }

  /** Processing all orders of a run never rewrites a file and never writes
      a file twice. */
  lemma {:induction false} ProcessAllNeverOverwrites(l: Ledger, ids: seq<string>, n: nat, last4: string,
                                                     resolve: string -> string, scripts: string -> nat -> AttemptScript)
    requires n <= |ids|
    ensures var r := ProcessAll(l, ids, n, last4, resolve, scripts);
      Extends(l, r) && (LedgerOk(l) ==> LedgerOk(r))
  {
    if n == 0 {
      assert l.writes[..|l.writes|] == l.writes;
    } else {
      ProcessAllNeverOverwrites(l, ids, n - 1, last4, resolve, scripts);
      var before := ProcessAll(l, ids, n - 1, last4, resolve, scripts);
      RetryNeverOverwrites(before, ids[n - 1], last4, resolve, scripts(ids[n - 1]), 1);
      ExtendsTrans(l, before, ProcessAll(l, ids, n, last4, resolve, scripts));
    }
  }
}
