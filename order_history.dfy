/**
 * Order-id pagination (`collect_order_ids`). The browser is replaced by a
 * finite site: a map from URL to an order-history page, each page a sequence
 * of order cards and a "next" control. The crawl reads every card of the
 * current page, keeps each order id the first time it is seen, and follows
 * the next control until there is none, it is disabled, it leads back to a
 * visited page, a click does not change the URL, or a page does not load.
 */
module OrderHistory {
  import opened Wrappers
  import opened Text
  import opened Unique
  import opened OrderId

  const HISTORY_PATH: string := "/gp/your-account/order-history"

  /** The first page of a sweep: the default history, or one year of it. A
      year of 0 is falsy in Python and gives the default history too. */
  function StartUrl(baseUrl: string, year: Option<int>): (r: string)
    ensures IsPrefix(baseUrl + HISTORY_PATH, r)
    ensures r == baseUrl + HISTORY_PATH <==> year.None? || year.value == 0
  {
    if year.Some? && year.value != 0
    then baseUrl + HISTORY_PATH + "?orderFilter=year-" + IntToString(year.value)
    else baseUrl + HISTORY_PATH
  }

  /** One order card: its visible text (None when reading it raises) and the
      text of its first link labelled "Order" (None when there is none). */
  datatype Card = Card(text: Option<string>, orderLink: Option<string>)

  /** Where a click on the next control leaves the page URL. */
  datatype ClickResult = UrlChangesTo(url: string) | UrlUnchanged

  /** The first element matching the next-page selector, if any: whether it
      reports itself disabled, its href ("" when it has none) and what a click
      on it does. */
  datatype NextControl =
    | NoNextControl
    | NextControl(disabled: bool, href: string, click: ClickResult)

  /** An order-history page; `loads` says whether waiting for its document to
      be ready after arriving on it succeeds. */
  datatype HistoryPage = HistoryPage(cards: seq<Card>, next: NextControl, loads: bool)

  type Site = map<string, HistoryPage>

  datatype StopReason =
    | PageRevisited     // the current URL was visited before (lines 86-89)
    | NoNext            // no next control (line 120)
    | NextDisabled      // the next control is disabled (line 126)
    | NextUrlVisited    // the next href leads to a visited URL (line 133)
    | ClickTimedOut     // a click left the URL unchanged (line 142)
    | LoadTimedOut      // the next page did not become ready (line 147)

  /** Errors that escape the crawl: navigating to a URL that is not part of
      the site raises, and so does the first page not becoming ready. */
  datatype CrawlError = NavigationFailed(url: string) | StartNotReady(url: string)

  datatype Crawl = Crawl(ids: seq<string>, pages: nat, stop: StopReason)

  /** `ORDER_ID_RE` searched in the card text, then in the "Order" link. */
  function CardId(card: Card): (r: Option<string>)
    ensures r.Some? ==> IsOrderId(r.value)
    ensures card.text.None? ==> r.None?
    ensures card.text.Some? && FindOrderId(card.text.value).Some? ==> r == FindOrderId(card.text.value)
    ensures card.text.Some? && FindOrderId(card.text.value).None? ==>
      r == (if card.orderLink.Some? then FindOrderId(card.orderLink.value) else None)
  {
    match card.text
    case None => None
    case Some(text) =>
      match FindOrderId(text)
      case Some(id) => Some(id)
      case None =>
        match card.orderLink
        case None => None
        case Some(header) => FindOrderId(header)
  }

  /** The ids the cards of a page yield, in card order, repeats included. */
  function PageIds(cards: seq<Card>): (r: seq<string>)
    ensures forall i :: 0 <= i < |r| ==> IsOrderId(r[i])
    ensures |r| <= |cards|
  {
    if cards == [] then []
    else
      var id := CardId(cards[|cards| - 1]);
      PageIds(cards[..|cards| - 1]) + if id.Some? then [id.value] else []
  }

  function PageIdsAt(site: Site, url: string): seq<string> {
    if url in site then PageIds(site[url].cards) else []
  }

  /** The ids of the pages along `trail`, page after page. */
  function IdsAlong(site: Site, trail: seq<string>): seq<string> {
    if trail == [] then []
    else IdsAlong(site, trail[..|trail| - 1]) + PageIdsAt(site, trail[|trail| - 1])
  }

  datatype Advance = Stop(reason: StopReason) | Fail(error: CrawlError) | MoveTo(url: string)

  /** How the crawl leaves page `current` (lines 119-149); `visited` already
      holds `current`. An href is resolved with `resolve` (urljoin against the
      base URL) and navigated to directly; otherwise the control is clicked. */
  function NextStep(site: Site, resolve: string -> string, visited: set<string>, current: string): (a: Advance)
    requires current in site && current in visited
    ensures a.MoveTo? ==> a.url in site && a.url != current && site[a.url].loads
  {
    match site[current].next
    case NoNextControl => Stop(NoNext)
    case NextControl(disabled, href, click) =>
      if disabled then Stop(NextDisabled)
      else if href != "" then
        var next := resolve(href);
        if next in visited then Stop(NextUrlVisited)
        else if next !in site then Fail(NavigationFailed(next))
        else if !site[next].loads then Stop(LoadTimedOut)
        else MoveTo(next)
      else
        match click
        case UrlUnchanged => Stop(ClickTimedOut)
        case UrlChangesTo(url) =>
          if url == current || url !in site then Stop(ClickTimedOut)
          else if !site[url].loads then Stop(LoadTimedOut)
          else MoveTo(url)
  }

  /** Visiting one more page of the site leaves fewer unvisited pages. */
  lemma UnvisitedShrinks(keys: set<string>, visited: set<string>, x: string)
    requires x in keys && x !in visited
    ensures |keys - (visited + {x})| < |keys - visited|
  {
    var rest := keys - (visited + {x});
    assert keys - visited == rest + {x};
  }

  datatype Ending = Stopped(reason: StopReason) | Raised(error: CrawlError)

  /** The pages a crawl scrapes from `current` on, and how it ends. */
  datatype Walked = Walked(trail: seq<string>, end: Ending)

  function Walk(site: Site, resolve: string -> string, visited: set<string>, current: string): Walked
    requires current in site
    decreases |site.Keys - visited|
  {
    if current in visited then Walked([], Stopped(PageRevisited))
    else
      var now := visited + {current};
      UnvisitedShrinks(site.Keys, visited, current);
      match NextStep(site, resolve, now, current)
      case Stop(reason) => Walked([current], Stopped(reason))
      case Fail(e) => Walked([current], Raised(e))
      case MoveTo(next) =>
        var rest := Walk(site, resolve, now, next);
        Walked([current] + rest.trail, rest.end)
  }

  /** What `collect_order_ids` returns or raises for a crawl starting at `start`. */
  function Collect(site: Site, resolve: string -> string, start: string): Result<Crawl, CrawlError> {
    if start !in site then Err(NavigationFailed(start))
    else if !site[start].loads then Err(StartNotReady(start))
    else
      var w := Walk(site, resolve, {}, start);
      match w.end
      case Raised(e) => Err(e)
      case Stopped(reason) => Ok(Crawl(Dedup(IdsAlong(site, w.trail)), |w.trail|, reason))
  }

  function Prepend(trail: seq<string>, w: Walked): Walked {
    Walked(trail + w.trail, w.end)
  }

  lemma IdsAlongSnoc(site: Site, trail: seq<string>, url: string)
    ensures IdsAlong(site, trail + [url]) == IdsAlong(site, trail) + PageIdsAt(site, url)
  {
    assert (trail + [url])[..|trail|] == trail;
  }

  /** Lines 93-117: read the cards of one page and append each id not seen
      before, keeping `seen` equal to the ids gathered so far. */
  method ScrapeCards(cards: seq<Card>, gathered: seq<string>, seen: set<string>)
    returns (gathered': seq<string>, seen': set<string>)
    requires NoDup(gathered)
    requires forall x :: x in seen <==> x in gathered
    ensures gathered' == Dedup(gathered + PageIds(cards))
    ensures forall x :: x in seen' <==> x in gathered'
  {
    DedupOfDistinct(gathered);
    gathered', seen' := gathered, seen;
    assert gathered + PageIds(cards[..0]) == gathered;
    for idx := 0 to |cards|
      invariant gathered' == Dedup(gathered + PageIds(cards[..idx]))
      invariant forall x :: x in seen' <==> x in gathered'
    {
      ScrapeStep(gathered, cards, idx, gathered');
      gathered', seen' := KeepCard(cards[idx], gathered', seen');
    }
    assert cards[..|cards|] == cards;
  }

  /** Lines 114-117 for one card: append its id unless already seen. */
  method KeepCard(card: Card, gathered: seq<string>, seen: set<string>)
    returns (gathered': seq<string>, seen': set<string>)
    requires forall x :: x in seen <==> x in gathered
    ensures var id := CardId(card);
      gathered' == if id.Some? && id.value !in gathered then gathered + [id.value] else gathered
    ensures forall x :: x in seen' <==> x in gathered'
  {
    gathered', seen' := gathered, seen;
    var id := CardId(card);
    if id.Some? && id.value !in seen {
      seen' := seen + {id.value};
      gathered' := gathered + [id.value];
    }
  }

  lemma PageIdsSnoc(prefix: seq<string>, cards: seq<Card>, idx: nat)
    requires idx < |cards|
    ensures var id := CardId(cards[idx]);
      prefix + PageIds(cards[..idx + 1])
      == (prefix + PageIds(cards[..idx])) + if id.Some? then [id.value] else []
  {
    assert cards[..idx + 1][..idx] == cards[..idx];
  }

  /** One card of the scrape loop keeps `gathered` equal to the
      de-duplicated ids seen so far. */
  lemma ScrapeStep(gathered: seq<string>, cards: seq<Card>, idx: nat, g: seq<string>)
    requires idx < |cards| && g == Dedup(gathered + PageIds(cards[..idx]))
    ensures var id := CardId(cards[idx]);
      (if id.Some? && id.value !in g then g + [id.value] else g)
      == Dedup(gathered + PageIds(cards[..idx + 1]))
  {
    PageIdsSnoc(gathered, cards, idx);
    var id := CardId(cards[idx]);
    var sofar := gathered + PageIds(cards[..idx]);
    if id.Some? {
      KeepFirstSeen(sofar, g, id.value);
      assert gathered + PageIds(cards[..idx + 1]) == sofar + [id.value];
    } else {
      assert gathered + PageIds(cards[..idx + 1]) == sofar;
    }
  }

  /** One step of the `seen`/`gathered` bookkeeping (lines 115-117). */
  lemma KeepFirstSeen(sofar: seq<string>, gathered: seq<string>, id: string)
    requires gathered == Dedup(sofar)
    ensures (if id in gathered then gathered else gathered + [id]) == Dedup(sofar + [id])
  {
    DedupSnoc(sofar, id);
    DedupMembers(sofar, id);
  }

  /** `collect_order_ids`: the `while True` loop with its `visited_urls`,
      `seen` and `gathered`. */
  method CollectOrderIds(site: Site, resolve: string -> string, start: string)
    returns (r: Result<Crawl, CrawlError>)
    ensures r == Collect(site, resolve, start)
  {
    if start !in site {
      return Err(NavigationFailed(start));
    }
    if !site[start].loads {
      return Err(StartNotReady(start));
    }
    var gathered: seq<string> := [];
    var seen: set<string> := {};
    var visitedUrls: set<string> := {};
    var pages: nat := 0;
    var current := start;
    ghost var trail: seq<string> := [];
    while true
      invariant current in site
      invariant pages == |trail|
      invariant Walk(site, resolve, {}, start) == Prepend(trail, Walk(site, resolve, visitedUrls, current))
      invariant gathered == Dedup(IdsAlong(site, trail))
      invariant forall x :: x in seen <==> x in gathered
      decreases |site.Keys - visitedUrls|
    {
      if current in visitedUrls {
        assert trail + [] == trail;
        return Ok(Crawl(gathered, pages, PageRevisited));
      }
      ghost var before := visitedUrls;
      UnvisitedShrinks(site.Keys, visitedUrls, current);
      visitedUrls := visitedUrls + {current};
      CrawlStep(site, resolve, start, trail, before, current);

      ghost var earlier := IdsAlong(site, trail);
      gathered, seen := ScrapeCards(site[current].cards, gathered, seen);
      DedupPrefix(earlier, PageIds(site[current].cards));
      IdsAlongSnoc(site, trail, current);
      trail := trail + [current];
      pages := pages + 1;

      match NextStep(site, resolve, visitedUrls, current)
      case Stop(reason) =>
        return Ok(Crawl(gathered, pages, reason));
      case Fail(e) =>
        return Err(e);
      case MoveTo(next) =>
        current := next;
    }
  }

  /** One pass of the loop body in terms of the whole crawl: scraping
      `current` extends the trail by it, and the crawl either ends there or
      continues from the next page with `current` visited. */
  lemma CrawlStep(site: Site, resolve: string -> string, start: string,
                  trail: seq<string>, before: set<string>, current: string)
    requires start in site && current in site && current !in before
    requires Walk(site, resolve, {}, start) == Prepend(trail, Walk(site, resolve, before, current))
    ensures var a := NextStep(site, resolve, before + {current}, current);
      var w := Walk(site, resolve, {}, start);
      (a.Stop? ==> w == Walked(trail + [current], Stopped(a.reason)))
      && (a.Fail? ==> w == Walked(trail + [current], Raised(a.error)))
      && (a.MoveTo? ==> w == Prepend(trail + [current], Walk(site, resolve, before + {current}, a.url)))
  {
    var a := NextStep(site, resolve, before + {current}, current);
    if a.MoveTo? {
      var rest := Walk(site, resolve, before + {current}, a.url);
      assert trail + ([current] + rest.trail) == (trail + [current]) + rest.trail;
    }
  }

  /** Every page is scraped at most once, only pages of the site are scraped,
      and so a crawl scrapes at most as many pages as the site has. */
  lemma {:induction false} WalkVisitsDistinctPages(site: Site, resolve: string -> string, visited: set<string>, current: string)
    requires current in site
    ensures var t := Walk(site, resolve, visited, current).trail;
      NoDup(t) && |t| <= |site.Keys - visited|
      && forall i :: 0 <= i < |t| ==> t[i] in site && t[i] !in visited
    decreases |site.Keys - visited|
  {
    if current !in visited {
      var now := visited + {current};
      UnvisitedShrinks(site.Keys, visited, current);
      match NextStep(site, resolve, now, current)
      case Stop(_) =>
      case Fail(_) =>
      case MoveTo(next) =>
        WalkVisitsDistinctPages(site, resolve, now, next);
        PrependFreshPage(current, Walk(site, resolve, now, next).trail, now);
    }
  }

  /** A page not among those visited after it can lead a trail of distinct
      pages. */
  lemma PrependFreshPage(current: string, rest: seq<string>, now: set<string>)
    requires current in now && NoDup(rest)
    requires forall i :: 0 <= i < |rest| ==> rest[i] !in now
    ensures NoDup([current] + rest)
  {
    var t := [current] + rest;
    forall i, j | 0 <= i < j < |t| ensures t[i] != t[j] {
      if i == 0 {
        assert t[j] == rest[j - 1] && rest[j - 1] !in now;
      } else {
        assert t[i] == rest[i - 1] && t[j] == rest[j - 1];
      }
    }
  }

  /** The crawl terminates within the number of pages of the site; the ids it
      returns have no repeats, are well-formed order ids, and appear in the
      order in which the scraped cards first showed them. */
  lemma CollectedIds(site: Site, resolve: string -> string, start: string)
    requires Collect(site, resolve, start).Ok?
    ensures var c := Collect(site, resolve, start).value;
      var all := IdsAlong(site, Walk(site, resolve, {}, start).trail);
      c.pages <= |site.Keys| && NoDup(c.ids) && InFirstSeenOrder(all, c.ids)
      && (forall i :: 0 <= i < |c.ids| ==> IsOrderId(c.ids[i]))
      && (forall i :: 0 <= i < |all| ==> all[i] in c.ids)
  {
    WalkVisitsDistinctPages(site, resolve, {}, start);
    var all := IdsAlong(site, Walk(site, resolve, {}, start).trail);
    IdsAlongAreOrderIds(site, Walk(site, resolve, {}, start).trail);
    DedupFirstSeen(all);
    assert site.Keys - {} == site.Keys;
  }

  lemma {:induction false} IdsAlongAreOrderIds(site: Site, trail: seq<string>)
    ensures forall i :: 0 <= i < |IdsAlong(site, trail)| ==> IsOrderId(IdsAlong(site, trail)[i])
  {
    if trail != [] {
      IdsAlongAreOrderIds(site, trail[..|trail| - 1]);
    }
  }

  /** The cycle guard on the next href: a first page whose next control links
      to the page itself is scraped once, and the crawl stops. */
  lemma SelfLinkStops(site: Site, resolve: string -> string, start: string)
    requires start in site && site[start].loads
    requires site[start].next.NextControl? && !site[start].next.disabled
    requires site[start].next.href != "" && resolve(site[start].next.href) == start
    ensures Collect(site, resolve, start) == Ok(Crawl(Dedup(PageIds(site[start].cards)), 1, NextUrlVisited))
  {
    assert {} + {start} == {start};
    assert NextStep(site, resolve, {start}, start) == Stop(NextUrlVisited);
    assert Walk(site, resolve, {}, start) == Walked([start], Stopped(NextUrlVisited));
    assert [start][..0] == [];
    assert IdsAlong(site, [start]) == [] + PageIdsAt(site, start);
    assert [] + PageIdsAt(site, start) == PageIds(site[start].cards);
  }

  /** The cycle guard at the top of the loop: when a click on page B's next
      control leads back to page A, the crawl scrapes A and B once each and
      stops on finding A visited. */
  lemma ClickBackStops(site: Site, resolve: string -> string, a: string, b: string)
    requires a in site && b in site && a != b && site[a].loads && site[b].loads
    requires site[a].next.NextControl? && !site[a].next.disabled
    requires site[a].next.href != "" && resolve(site[a].next.href) == b
    requires site[b].next == NextControl(false, "", UrlChangesTo(a))
    ensures Collect(site, resolve, a).Ok?
    ensures Collect(site, resolve, a).value.pages == 2
    ensures Collect(site, resolve, a).value.stop == PageRevisited
  {
    assert {} + {a} == {a};
    assert NextStep(site, resolve, {a}, a) == MoveTo(b);
    assert NextStep(site, resolve, {a, b}, b) == MoveTo(a);
    assert {a} + {b} == {a, b};
    assert Walk(site, resolve, {a, b}, a) == Walked([], Stopped(PageRevisited));
    assert Walk(site, resolve, {a}, b) == Walked([b], Stopped(PageRevisited));
  }
}
