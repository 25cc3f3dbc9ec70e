/**
 * `download_invoice_for_order`: up to three attempts at an order's details
 * page; on each, the payment filter, the invoice links in page order, the
 * modals that some of them open, and `save_invoice_variant`, which saves one
 * invoice as a PDF unless a file of that name already exists.
 *
 * The browser is replaced by a script per attempt: whether the details page
 * loads, its body text, what each invoice link turns out to be, and how
 * fetching each invoice URL ends. The downloads directory is the file set of
 * a `Downloads` object; its ghost `writes` log records every file written, in
 * order.
 */
module OrderProcessor {
  import opened Text
  import opened Unique
  import opened PaymentFilter
  import opened InvoiceLocator

  /** Attempts per order. */
  const MAX_RETRIES: nat := 3

  /** How fetching an invoice URL ends once its file is known not to exist. */
  datatype FetchOutcome =
    | LoadFailed         // the navigation or the network-idle wait raised
    | PdfRendered        // page.pdf wrote the file
    | DownloadSaved      // page.pdf raised; the fallback download was saved
    | NoDownloadControl  // page.pdf raised; the page has no download control
    | DownloadFailed     // page.pdf raised; the fallback download timed out or raised

  predicate Writes(o: FetchOutcome) {
    o == PdfRendered || o == DownloadSaved
  }

  /** What clicking a modal trigger does: the click (or the wait after it)
      raises, or a modal opens with these hrefs in modal order (none when no
      modal selector matches), and that many of the later returns to the
      details page succeed before one raises. */
  datatype ModalScript = ClickFailed | ModalOpened(hrefs: seq<string>, renavigations: nat)

  /** One invoice link: not visible in time, raising something other than a
      timeout while waiting for it or reading its href, or visible with its
      href ("" when it has none); `modal` applies when the href is a modal
      trigger, `backOk` says whether the return to the details page after a
      direct download succeeds. */
  datatype LinkScript = NotVisible | Raises | Visible(href: string, modal: ModalScript, backOk: bool)

  /** One attempt: the details page fails to load (or another step before
      the links raises), or it loads with this body text and these invoice
      links; `fetch` says how fetching each invoice URL ends. */
  datatype AttemptScript =
    | LoadFails
    | Loaded(bodyText: string, links: seq<LinkScript>, fetch: string -> FetchOutcome)

  /** The downloads directory and the log of files written. */
  datatype Ledger = Ledger(files: set<string>, writes: seq<string>)

  /** No file was written twice, and every file written is present. */
  predicate LedgerOk(l: Ledger) {
    NoDup(l.writes) && forall i :: 0 <= i < |l.writes| ==> l.writes[i] in l.files
  }

  /** `b` came from `a` by writing new files only: files are never removed,
      the log only grows, nothing present in `a` is written again, and every
      new file was written. */
  predicate Extends(a: Ledger, b: Ledger) {
    a.files <= b.files
    && |a.writes| <= |b.writes| && b.writes[..|a.writes|] == a.writes
    && (forall i :: |a.writes| <= i < |b.writes| ==> b.writes[i] !in a.files)
    && (forall f :: f in b.files ==> f in a.files || f in b.writes)
  }

  lemma ExtendsTrans(a: Ledger, b: Ledger, c: Ledger)
    requires Extends(a, b) && Extends(b, c)
    ensures Extends(a, c)
  {
    assert c.writes[..|a.writes|] == c.writes[..|b.writes|][..|a.writes|];
    forall i | |a.writes| <= i < |c.writes| ensures c.writes[i] !in a.files {
      if i < |b.writes| {
        assert c.writes[i] == b.writes[i];
      }
    }
  }

  /** `save_invoice_variant` on the ledger: a path already present is left
      alone; otherwise the file is added when the fetch produced it. */
  function Save(l: Ledger, path: string, o: FetchOutcome): (r: Ledger)
    ensures path in l.files ==> r == l
    ensures l.files <= r.files <= l.files + {path}
    ensures path !in l.files ==> r.files == (if Writes(o) then l.files + {path} else l.files)
  {
    if path in l.files || !Writes(o) then l
    else Ledger(l.files + {path}, l.writes + [path])
  }

  /** A save never writes a file that is present, and writes it at most once. */
  lemma SaveGrows(l: Ledger, path: string, o: FetchOutcome)
    ensures var r := Save(l, path, o);
      Extends(l, r) && (LedgerOk(l) ==> LedgerOk(r))
  {
    var r := Save(l, path, o);
    assert r.writes[..|l.writes|] == l.writes;
  }

  /** How many URLs of a modal with `count` URLs are saved when only
      `renavigations` returns to the details page succeed: the first always,
      each later one after a successful return. */
  function ModalSaveCount(count: nat, renavigations: nat): (n: nat)
    ensures n <= count && (count > 0 ==> n >= 1)
    ensures n == count <==> renavigations + 1 >= count
  {
    if renavigations < count then renavigations + 1 else count
  }

  /** Saving the first `n` modal URLs of link `idx`, each under its
      positional name. */
  function ModalSaves(l: Ledger, orderId: string, idx: nat, linkCount: nat,
                      urls: seq<string>, n: nat, fetch: string -> FetchOutcome): Ledger
    requires n <= |urls|
  {
    if n == 0 then l
    else Save(ModalSaves(l, orderId, idx, linkCount, urls, n - 1, fetch),
              FileName(orderId, ModalParts(idx, linkCount, n, |urls|)), fetch(urls[n - 1]))
  }

  /** The state of the link loop: still running, or left by an exception. */
  datatype Progress = Running(ledger: Ledger) | Aborted(ledger: Ledger)

  /** Handling invoice link `idx` of `linkCount` (lines 317-427). A failed
      click or a modal without invoice URLs moves on to the next link; a
      link that raises aborts the attempt; a direct link is saved and, unless it is the last link, followed by a
      return to the details page, whose failure aborts the attempt. */
  function LinkStep(l: Ledger, orderId: string, resolve: string -> string, fetch: string -> FetchOutcome,
                    link: LinkScript, idx: nat, linkCount: nat): Progress
  {
    match link
    case NotVisible => Running(l)
    case Raises => Aborted(l)
    case Visible(href, modal, backOk) =>
      if IsModalTrigger(href) then
        match modal
        case ClickFailed => Running(l)
        case ModalOpened(hrefs, renavigations) =>
          var urls := ModalUrls(hrefs, resolve);
          Running(ModalSaves(l, orderId, idx, linkCount, urls, ModalSaveCount(|urls|, renavigations), fetch))
      else
        var saved := Save(l, FileName(orderId, LinkParts(idx, linkCount)), fetch(resolve(href)));
        if idx + 1 < linkCount && !backOk then Aborted(saved) else Running(saved)
  }

  /** The first `n` links handled in page order. */
  function LinksFrom(l: Ledger, orderId: string, resolve: string -> string, fetch: string -> FetchOutcome,
                     links: seq<LinkScript>, n: nat): Progress
    requires n <= |links|
  {
    if n == 0 then Running(l)
    else match LinksFrom(l, orderId, resolve, fetch, links, n - 1)
      case Aborted(a) => Aborted(a)
      case Running(r) => LinkStep(r, orderId, resolve, fetch, links[n - 1], n - 1, |links|)
  }

  /** How an attempt ends: skipped by the payment filter, no invoice links,
      all links handled, or an exception (the only case that is retried). */
  datatype AttemptResult = FilterMiss | NoLinks | Completed | Failed

  datatype AttemptEnd = AttemptEnd(result: AttemptResult, ledger: Ledger)

  /** One pass of the `for attempt` body (lines 237-429); `last4` is ""
      when no card filter is given. */
  function Attempt(l: Ledger, orderId: string, last4: string, resolve: string -> string,
                   script: AttemptScript): AttemptEnd
  {
    match script
    case LoadFails => AttemptEnd(Failed, l)
    case Loaded(body, links, fetch) =>
      if last4 != "" && !FilterAccepts(body, last4) then AttemptEnd(FilterMiss, l)
      else if links == [] then AttemptEnd(NoLinks, l)
      else match LinksFrom(l, orderId, resolve, fetch, links, |links|)
        case Running(r) => AttemptEnd(Completed, r)
        case Aborted(r) => AttemptEnd(Failed, r)
  }

  /** How processing an order ends: the result of the last attempt, the
      number of attempts, the number of delays slept between them. */
  datatype OrderEnd = OrderEnd(last: AttemptResult, attempts: nat, delays: nat, ledger: Ledger)

  /** The attempts from number `attempt` on; `scripts(k)` scripts attempt k. */
  function RetryFrom(l: Ledger, orderId: string, last4: string, resolve: string -> string,
                     scripts: nat -> AttemptScript, attempt: nat): OrderEnd
    requires 1 <= attempt <= MAX_RETRIES
    decreases MAX_RETRIES - attempt
  {
    var e := Attempt(l, orderId, last4, resolve, scripts(attempt));
    if e.result == Failed && attempt < MAX_RETRIES then
      var rest := RetryFrom(e.ledger, orderId, last4, resolve, scripts, attempt + 1);
      OrderEnd(rest.last, rest.attempts, rest.delays + 1, rest.ledger)
    else OrderEnd(e.result, attempt, 0, e.ledger)
  }

  /** The whole of `download_invoice_for_order`. */
  function Process(l: Ledger, orderId: string, last4: string, resolve: string -> string,
                   scripts: nat -> AttemptScript): OrderEnd
  {
    RetryFrom(l, orderId, last4, resolve, scripts, 1)
  }

  class Downloads {
    /** The names of the PDFs in the downloads directory. */
    var files: set<string>
    /** Every file written, in order. */
    ghost var writes: seq<string>

    ghost function State(): Ledger
      reads this
    {
      Ledger(files, writes)
    }

    /** A downloads directory that already holds `existing`. */
    constructor(existing: set<string>)
      ensures State() == Ledger(existing, []) && LedgerOk(State())
    {
      files := existing;
      writes := [];
    }

    /** `save_invoice_variant` (lines 186-234): `saved` is its return value,
        `navigated` whether it touched the browser at all. */
    method SaveInvoiceVariant(orderId: string, parts: seq<string>, url: string, fetch: string -> FetchOutcome)
      returns (saved: bool, navigated: bool)
      modifies this
      ensures State() == Save(old(State()), FileName(orderId, parts), fetch(url))
      ensures saved <==> FileName(orderId, parts) !in old(files) && Writes(fetch(url))
      ensures navigated <==> FileName(orderId, parts) !in old(files)
    {
      var path := FileName(orderId, parts);
      if path in files {
        return false, false;
      }
      navigated := true;
      var outcome := fetch(url);
      if outcome == LoadFailed {
        return false, navigated;
      }
      // page.pdf, then the download fallback when it raises
      saved := outcome == PdfRendered || outcome == DownloadSaved;
      if saved {
        files := files + {path};
        writes := writes + [path];
      }
    }

    /** The modal branch after a modal opened (lines 364-405). */
    method HandleModal(orderId: string, idx: nat, linkCount: nat, hrefs: seq<string>, renavigations: nat,
                       resolve: string -> string, fetch: string -> FetchOutcome)
      modifies this
      ensures var urls := ModalUrls(hrefs, resolve);
        State() == ModalSaves(old(State()), orderId, idx, linkCount, urls,
                              ModalSaveCount(|urls|, renavigations), fetch)
    {
      var urls := CollectModalUrls(hrefs, resolve);
      var i := 0;
      while i < |urls|
        invariant i <= ModalSaveCount(|urls|, renavigations)
        invariant i == 0 || i <= renavigations || i == |urls|
        invariant State() == ModalSaves(old(State()), orderId, idx, linkCount, urls, i, fetch)
      {
        var _, _ := SaveInvoiceVariant(orderId, ModalParts(idx, linkCount, i + 1, |urls|), urls[i], fetch);
        assert State() == ModalSaves(old(State()), orderId, idx, linkCount, urls, i + 1, fetch);
        i := i + 1;
        if i < |urls| && i > renavigations {
          // the return to the details page raised; the handler moves on
          assert i == ModalSaveCount(|urls|, renavigations);
          break;
        }
      }
      assert i == ModalSaveCount(|urls|, renavigations);
    }

    /** One attempt (lines 237-429). */
    method RunAttempt(orderId: string, last4: string, resolve: string -> string, script: AttemptScript)
      returns (result: AttemptResult)
      modifies this
      ensures AttemptEnd(result, State()) == Attempt(old(State()), orderId, last4, resolve, script)
    {
      match script
      case LoadFails =>
        return Failed;
      case Loaded(body, links, fetch) =>
        if last4 != "" && !FilterAccepts(body, last4) {
          return FilterMiss;
        }
        if |links| == 0 {
          return NoLinks;
        }
        for idx := 0 to |links|
          invariant LinksFrom(old(State()), orderId, resolve, fetch, links, idx) == Running(State())
        {
          ghost var before := State();
          match links[idx]
          case NotVisible =>
          case Raises =>
            AbortedStays(old(State()), orderId, resolve, fetch, links, idx + 1, |links|);
            return Failed;
          case Visible(href, modal, backOk) =>
            if IsModalTrigger(href) {
              match modal
              case ClickFailed =>
              case ModalOpened(hrefs, renavigations) =>
                HandleModal(orderId, idx, |links|, hrefs, renavigations, resolve, fetch);
            } else {
              var _, _ := SaveInvoiceVariant(orderId, LinkParts(idx, |links|), resolve(href), fetch);
              if idx + 1 < |links| && !backOk {
                AbortedStays(old(State()), orderId, resolve, fetch, links, idx + 1, |links|);
                return Failed;
              }
            }
        }
        return Completed;
    }

    /** `download_invoice_for_order`: the `for attempt` loop (lines 236-439). */
    method DownloadInvoiceForOrder(orderId: string, last4: string, resolve: string -> string,
                                   scripts: nat -> AttemptScript)
      returns (last: AttemptResult, attempts: nat, delays: nat)
      modifies this
      ensures OrderEnd(last, attempts, delays, State()) == Process(old(State()), orderId, last4, resolve, scripts)
    {
      delays := 0;
      for attempt := 1 to MAX_RETRIES + 1
        invariant attempt <= MAX_RETRIES && delays == attempt - 1
        invariant Process(old(State()), orderId, last4, resolve, scripts)
                  == Delayed(RetryFrom(State(), orderId, last4, resolve, scripts, attempt), delays)
      {
        var result := RunAttempt(orderId, last4, resolve, scripts(attempt));
        if result != Failed {
          return result, attempt, delays;
        }
        if attempt < MAX_RETRIES {
          delays := delays + 1;  // asyncio.sleep(RETRY_DELAY_S)
        } else {
          return Failed, attempt, delays;
        }
      }
      assert false;
    }
  }

  /** An outcome with `d` more delays slept before it. */
  function Delayed(e: OrderEnd, d: nat): OrderEnd {
    OrderEnd(e.last, e.attempts, e.delays + d, e.ledger)
  }

  /** An exception in the link loop ends the loop: later links are not handled. */
  lemma {:induction false} AbortedStays(l: Ledger, orderId: string, resolve: string -> string,
                                        fetch: string -> FetchOutcome, links: seq<LinkScript>, n: nat, m: nat)
    requires n <= m <= |links|
    requires LinksFrom(l, orderId, resolve, fetch, links, n).Aborted?
    ensures LinksFrom(l, orderId, resolve, fetch, links, m) == LinksFrom(l, orderId, resolve, fetch, links, n)
    decreases m
  {
    if m > n {
      AbortedStays(l, orderId, resolve, fetch, links, n, m - 1);
    }
  }

  /** An order is attempted at least once and at most `MAX_RETRIES` times,
      with one delay between consecutive attempts and none after the last;
      the retries are exhausted only when every attempt failed. */
  lemma {:induction false} RetryCounts(l: Ledger, orderId: string, last4: string, resolve: string -> string,
                                       scripts: nat -> AttemptScript, attempt: nat)
    requires 1 <= attempt <= MAX_RETRIES
    ensures var e := RetryFrom(l, orderId, last4, resolve, scripts, attempt);
      attempt <= e.attempts <= MAX_RETRIES && e.delays == e.attempts - attempt
      && (e.last == Failed ==> e.attempts == MAX_RETRIES)
    decreases MAX_RETRIES - attempt
  {
    var e := Attempt(l, orderId, last4, resolve, scripts(attempt));
    if e.result == Failed && attempt < MAX_RETRIES {
      RetryCounts(e.ledger, orderId, last4, resolve, scripts, attempt + 1);
    }
  }

  /** Only a failed attempt is retried: processing ends with attempt `k`
      exactly when that attempt filtered the order out, found no links,
      completed, or was the last one allowed. */
  lemma EndsAtAttemptIff(l: Ledger, orderId: string, last4: string, resolve: string -> string,
                         scripts: nat -> AttemptScript, k: nat)
    requires 1 <= k <= MAX_RETRIES
    ensures RetryFrom(l, orderId, last4, resolve, scripts, k).attempts == k <==>
      Attempt(l, orderId, last4, resolve, scripts(k)).result != Failed || k == MAX_RETRIES
  {
    var e := Attempt(l, orderId, last4, resolve, scripts(k));
    if e.result == Failed && k < MAX_RETRIES {
      RetryCounts(e.ledger, orderId, last4, resolve, scripts, k + 1);
    }
  }

  lemma {:induction false} ModalSavesGrow(l: Ledger, orderId: string, idx: nat, linkCount: nat,
                                          urls: seq<string>, n: nat, fetch: string -> FetchOutcome)
    requires n <= |urls|
    ensures var r := ModalSaves(l, orderId, idx, linkCount, urls, n, fetch);
      Extends(l, r) && (LedgerOk(l) ==> LedgerOk(r))
  {
    if n == 0 {
      assert l.writes[..|l.writes|] == l.writes;
    } else {
      var m := ModalSaves(l, orderId, idx, linkCount, urls, n - 1, fetch);
      ModalSavesGrow(l, orderId, idx, linkCount, urls, n - 1, fetch);
      SaveGrows(m, FileName(orderId, ModalParts(idx, linkCount, n, |urls|)), fetch(urls[n - 1]));
      ExtendsTrans(l, m, ModalSaves(l, orderId, idx, linkCount, urls, n, fetch));
    }
  }

  lemma LinkStepGrows(l: Ledger, orderId: string, resolve: string -> string, fetch: string -> FetchOutcome,
                      link: LinkScript, idx: nat, linkCount: nat)
    ensures var r := LinkStep(l, orderId, resolve, fetch, link, idx, linkCount).ledger;
      Extends(l, r) && (LedgerOk(l) ==> LedgerOk(r))
  {
    if link.Visible? && IsModalTrigger(link.href) && link.modal.ModalOpened? {
      var urls := ModalUrls(link.modal.hrefs, resolve);
      ModalSavesGrow(l, orderId, idx, linkCount, urls, ModalSaveCount(|urls|, link.modal.renavigations), fetch);
    } else if !link.Visible? || IsModalTrigger(link.href) {
      assert l.writes[..|l.writes|] == l.writes;
    } else {
      SaveGrows(l, FileName(orderId, LinkParts(idx, linkCount)), fetch(resolve(link.href)));
    }
  }

  lemma {:induction false} LinksFromGrow(l: Ledger, orderId: string, resolve: string -> string,
                                         fetch: string -> FetchOutcome, links: seq<LinkScript>, n: nat)
    requires n <= |links|
    ensures var r := LinksFrom(l, orderId, resolve, fetch, links, n).ledger;
      Extends(l, r) && (LedgerOk(l) ==> LedgerOk(r))
  {
    LinksFromExtends(l, orderId, resolve, fetch, links, n);
    if LedgerOk(l) {
      LinksFromKeepsOk(l, orderId, resolve, fetch, links, n);
    }
  }

  lemma {:induction false} LinksFromExtends(l: Ledger, orderId: string, resolve: string -> string,
                                            fetch: string -> FetchOutcome, links: seq<LinkScript>, n: nat)
    requires n <= |links|
    ensures Extends(l, LinksFrom(l, orderId, resolve, fetch, links, n).ledger)
  {
    if n == 0 {
      assert l.writes[..|l.writes|] == l.writes;
    } else {
      LinksFromExtends(l, orderId, resolve, fetch, links, n - 1);
      var p := LinksFrom(l, orderId, resolve, fetch, links, n - 1);
      if p.Running? {
        var q := LinkStep(p.ledger, orderId, resolve, fetch, links[n - 1], n - 1, |links|);
        LinkStepGrows(p.ledger, orderId, resolve, fetch, links[n - 1], n - 1, |links|);
        ExtendsTrans(l, p.ledger, q.ledger);
      }
    }
  }

  lemma {:induction false} LinksFromKeepsOk(l: Ledger, orderId: string, resolve: string -> string,
                                            fetch: string -> FetchOutcome, links: seq<LinkScript>, n: nat)
    requires n <= |links| && LedgerOk(l)
    ensures LedgerOk(LinksFrom(l, orderId, resolve, fetch, links, n).ledger)
  {
    if n > 0 {
      LinksFromKeepsOk(l, orderId, resolve, fetch, links, n - 1);
      var p := LinksFrom(l, orderId, resolve, fetch, links, n - 1);
      if p.Running? {
        LinkStepGrows(p.ledger, orderId, resolve, fetch, links[n - 1], n - 1, |links|);
      }
    }
  }

  lemma AttemptGrows(l: Ledger, orderId: string, last4: string, resolve: string -> string, script: AttemptScript)
    ensures var r := Attempt(l, orderId, last4, resolve, script).ledger;
      Extends(l, r) && (LedgerOk(l) ==> LedgerOk(r))
  {
    assert l.writes[..|l.writes|] == l.writes;
    if script.Loaded? && script.links != [] {
      LinksFromGrow(l, orderId, resolve, script.fetch, script.links, |script.links|);
    }
  }

  /** Processing an order never rewrites a file: files already present
      (from earlier runs, earlier orders or earlier attempts) are skipped,
      no file is written twice, and files are only ever added. */
  lemma {:induction false} RetryNeverOverwrites(l: Ledger, orderId: string, last4: string, resolve: string -> string,
                                                scripts: nat -> AttemptScript, attempt: nat)
    requires 1 <= attempt <= MAX_RETRIES
    ensures var r := RetryFrom(l, orderId, last4, resolve, scripts, attempt).ledger;
      Extends(l, r) && (LedgerOk(l) ==> LedgerOk(r))
    decreases MAX_RETRIES - attempt
  {
    var e := Attempt(l, orderId, last4, resolve, scripts(attempt));
    AttemptGrows(l, orderId, last4, resolve, scripts(attempt));
    if e.result == Failed && attempt < MAX_RETRIES {
      RetryNeverOverwrites(e.ledger, orderId, last4, resolve, scripts, attempt + 1);
      ExtendsTrans(l, e.ledger, RetryFrom(l, orderId, last4, resolve, scripts, attempt).ledger);
    }
  }

  /** With a card filter, a loaded order is skipped, without retry and
      without touching the downloads, exactly when the last four digits do
      not occur in the page text. */
  lemma FilterSkipIff(l: Ledger, orderId: string, last4: string, resolve: string -> string,
                      scripts: nat -> AttemptScript)
    requires scripts(1).Loaded?
    ensures var e := Process(l, orderId, last4, resolve, scripts);
      e.last == FilterMiss && e.attempts == 1 <==>
        last4 != "" && !Contains(scripts(1).bodyText, last4)
    ensures var e := Process(l, orderId, last4, resolve, scripts);
      e.last == FilterMiss && e.attempts == 1 ==> e.ledger == l && e.delays == 0
  {
    var s := scripts(1);
    var e := Attempt(l, orderId, last4, resolve, s);
    if e.result == Failed {
      RetryCounts(e.ledger, orderId, last4, resolve, scripts, 2);
    }
  }

  /** An attempt script whose page loads with these links and where every
      invoice URL renders to a PDF. */
  ghost predicate RendersAll(script: AttemptScript, links: seq<LinkScript>) {
    script.Loaded? && script.links == links && forall u :: script.fetch(u) == PdfRendered
  }

  lemma NumberedNames(orderId: string)
    ensures FileName(orderId, LinkParts(0, 2)) == orderId + "_1.pdf"
    ensures FileName(orderId, LinkParts(1, 2)) == orderId + "_2.pdf"
    ensures orderId + "_1.pdf" != orderId + "_2.pdf"
  {
    assert NatToString(1) == "1" && NatToString(2) == "2";
    assert (orderId + "_1.pdf")[|orderId| + 1] == '1';
  }

  /** Handling a direct link, as the scenarios below use it. */
  lemma DirectLinkStep(l: Ledger, orderId: string, resolve: string -> string, fetch: string -> FetchOutcome,
                       links: seq<LinkScript>, n: nat, m: Ledger)
    requires n < |links| && LinksFrom(l, orderId, resolve, fetch, links, n) == Running(m)
    requires links[n].Visible? && !IsModalTrigger(links[n].href)
    ensures var saved := Save(m, FileName(orderId, LinkParts(n, |links|)), fetch(resolve(links[n].href)));
      LinksFrom(l, orderId, resolve, fetch, links, n + 1)
      == if n + 1 < |links| && !links[n].backOk then Aborted(saved) else Running(saved)
  {
  }

  /** One attempt of the retry loop, as the scenarios below use it. */
  lemma RetryStep(l: Ledger, orderId: string, last4: string, resolve: string -> string,
                  scripts: nat -> AttemptScript, k: nat, e: AttemptEnd)
    requires 1 <= k <= MAX_RETRIES && Attempt(l, orderId, last4, resolve, scripts(k)) == e
    ensures e.result == Failed && k < MAX_RETRIES ==>
      RetryFrom(l, orderId, last4, resolve, scripts, k)
      == Delayed(RetryFrom(e.ledger, orderId, last4, resolve, scripts, k + 1), 1)
    ensures e.result != Failed ==>
      RetryFrom(l, orderId, last4, resolve, scripts, k) == OrderEnd(e.result, k, 0, e.ledger)
  {
  }

  /** An attempt over two direct links whose invoices render: both are
      saved in turn, unless already present. */
  lemma TwoDirectLinksAttempt(l: Ledger, orderId: string, resolve: string -> string, s: AttemptScript,
                              h1: string, h2: string)
    requires !IsModalTrigger(h1) && !IsModalTrigger(h2)
    requires RendersAll(s, [Visible(h1, ClickFailed, true), Visible(h2, ClickFailed, true)])
    ensures Attempt(l, orderId, "", resolve, s)
         == AttemptEnd(Completed, Save(Save(l, orderId + "_1.pdf", PdfRendered), orderId + "_2.pdf", PdfRendered))
  {
    NumberedNames(orderId);
    assert s.fetch(resolve(h1)) == PdfRendered && s.fetch(resolve(h2)) == PdfRendered;
    DirectLinkStep(l, orderId, resolve, s.fetch, s.links, 0, l);
    var m := Save(l, orderId + "_1.pdf", PdfRendered);
    DirectLinkStep(l, orderId, resolve, s.fetch, s.links, 1, m);
  }

  /** Two direct links on an order with nothing downloaded yet: one attempt,
      and both invoices are saved under their numbered names. */
  lemma TwoDirectLinksSaved(orderId: string, resolve: string -> string, scripts: nat -> AttemptScript,
                            h1: string, h2: string)
    requires !IsModalTrigger(h1) && !IsModalTrigger(h2)
    requires RendersAll(scripts(1), [Visible(h1, ClickFailed, true), Visible(h2, ClickFailed, true)])
    ensures Process(Ledger({}, []), orderId, "", resolve, scripts)
         == OrderEnd(Completed, 1, 0, Ledger({orderId + "_1.pdf", orderId + "_2.pdf"}, [orderId + "_1.pdf", orderId + "_2.pdf"]))
  {
    NumberedNames(orderId);
    var n1, n2 := orderId + "_1.pdf", orderId + "_2.pdf";
    var l0 := Ledger({}, []);
    TwoDirectLinksAttempt(l0, orderId, resolve, scripts(1), h1, h2);
    SaveTwoFresh(n1, n2);
    RetryStep(l0, orderId, "", resolve, scripts, 1, AttemptEnd(Completed, Ledger({n1, n2}, [n1, n2])));
  }

  /** The first of two direct links is saved, then the return to the details
      page raises: the attempt fails with that one file written. */
  lemma FirstLinkThenAbort(l: Ledger, orderId: string, resolve: string -> string, s: AttemptScript,
                           h1: string, h2: string)
    requires !IsModalTrigger(h1)
    requires RendersAll(s, [Visible(h1, ClickFailed, false), Visible(h2, ClickFailed, true)])
    ensures Attempt(l, orderId, "", resolve, s) == AttemptEnd(Failed, Save(l, orderId + "_1.pdf", PdfRendered))
  {
    NumberedNames(orderId);
    assert s.fetch(resolve(h1)) == PdfRendered;
    DirectLinkStep(l, orderId, resolve, s.fetch, s.links, 0, l);
    AbortedStays(l, orderId, resolve, s.fetch, s.links, 1, 2);
  }

  /** An attempt that saved the first invoice and then failed to return to
      the details page is retried; the retry skips the file already saved and
      saves the second, so each file is written once. */
  lemma RetrySkipsSavedInvoice(orderId: string, resolve: string -> string, scripts: nat -> AttemptScript,
                               h1: string, h2: string)
    requires !IsModalTrigger(h1) && !IsModalTrigger(h2)
    requires RendersAll(scripts(1), [Visible(h1, ClickFailed, false), Visible(h2, ClickFailed, true)])
    requires RendersAll(scripts(2), [Visible(h1, ClickFailed, true), Visible(h2, ClickFailed, true)])
    ensures var e := Process(Ledger({}, []), orderId, "", resolve, scripts);
      e.last == Completed && e.attempts == 2 && e.delays == 1
      && e.ledger.writes == [orderId + "_1.pdf", orderId + "_2.pdf"]
  {
    NumberedNames(orderId);
    var n1 := orderId + "_1.pdf";
    var l0 := Ledger({}, []);
    FirstLinkThenAbort(l0, orderId, resolve, scripts(1), h1, h2);
    assert Save(l0, n1, PdfRendered) == Ledger({n1}, [n1]);
    RetryStep(l0, orderId, "", resolve, scripts, 1, AttemptEnd(Failed, Ledger({n1}, [n1])));
    RetryAfterFirstSaved(orderId, resolve, scripts, h1, h2);
  }

  /** Saving two distinct rendered files into an empty directory writes both. */
  lemma SaveTwoFresh(n1: string, n2: string)
    requires n1 != n2
    ensures Save(Save(Ledger({}, []), n1, PdfRendered), n2, PdfRendered) == Ledger({n1, n2}, [n1, n2])
  {
    assert Save(Ledger({}, []), n1, PdfRendered) == Ledger({n1}, [n1]);
  }

  /** With the first file present, saving both writes only the second. */
  lemma SaveSecondAfterFirst(n1: string, n2: string)
    requires n1 != n2
    ensures Save(Save(Ledger({n1}, [n1]), n1, PdfRendered), n2, PdfRendered) == Ledger({n1, n2}, [n1, n2])
  {
    assert Save(Ledger({n1}, [n1]), n1, PdfRendered) == Ledger({n1}, [n1]);
  }

  /** The second attempt of the scenario above, starting from the first
      invoice saved. */
  lemma RetryAfterFirstSaved(orderId: string, resolve: string -> string, scripts: nat -> AttemptScript,
                             h1: string, h2: string)
    requires !IsModalTrigger(h1) && !IsModalTrigger(h2)
    requires RendersAll(scripts(2), [Visible(h1, ClickFailed, true), Visible(h2, ClickFailed, true)])
    ensures var n1, n2 := orderId + "_1.pdf", orderId + "_2.pdf";
      RetryFrom(Ledger({n1}, [n1]), orderId, "", resolve, scripts, 2)
      == OrderEnd(Completed, 2, 0, Ledger({n1, n2}, [n1, n2]))
  {
    NumberedNames(orderId);
    var n1, n2 := orderId + "_1.pdf", orderId + "_2.pdf";
    var l1 := Ledger({n1}, [n1]);
    TwoDirectLinksAttempt(l1, orderId, resolve, scripts(2), h1, h2);
    SaveSecondAfterFirst(n1, n2);
    RetryStep(l1, orderId, "", resolve, scripts, 2, AttemptEnd(Completed, Ledger({n1, n2}, [n1, n2])));
  }

  /** Two attempts whose details page does not load, then a third that
      finds a single link: three attempts, two delays, `<order id>.pdf`. */
  lemma ThirdAttemptSucceeds(orderId: string, resolve: string -> string, scripts: nat -> AttemptScript, h: string)
    requires !IsModalTrigger(h)
    requires scripts(1) == LoadFails && scripts(2) == LoadFails
    requires RendersAll(scripts(3), [Visible(h, ClickFailed, true)])
    ensures var e := Process(Ledger({}, []), orderId, "", resolve, scripts);
      e.last == Completed && e.attempts == 3 && e.delays == 2
      && e.ledger.writes == [orderId + ".pdf"]
  {
    var n := orderId + ".pdf";
    var s := scripts(3);
    var l0, l1 := Ledger({}, []), Ledger({n}, [n]);
    assert FileName(orderId, LinkParts(0, 1)) == n;
    assert s.fetch(resolve(h)) == PdfRendered;
    assert LinksFrom(l0, orderId, resolve, s.fetch, s.links, 1) == Running(l1);
    assert Attempt(l0, orderId, "", resolve, s) == AttemptEnd(Completed, l1);
    assert RetryFrom(l0, orderId, "", resolve, scripts, 3) == OrderEnd(Completed, 3, 0, l1);
    assert RetryFrom(l0, orderId, "", resolve, scripts, 2) == OrderEnd(Completed, 3, 1, l1);
  }

  /** A single invoice link that raises fails every attempt: the order is
      tried `MAX_RETRIES` times, with a delay between attempts, and nothing
      is written. */
  lemma RaisingLinkExhaustsRetries(l: Ledger, orderId: string, resolve: string -> string,
                                   scripts: nat -> AttemptScript)
    requires forall k :: 1 <= k <= MAX_RETRIES ==> scripts(k).Loaded? && scripts(k).links == [Raises]
    ensures Process(l, orderId, "", resolve, scripts) == OrderEnd(Failed, 3, 2, l)
  {
    forall k | 1 <= k <= MAX_RETRIES
      ensures Attempt(l, orderId, "", resolve, scripts(k)) == AttemptEnd(Failed, l)
    {
      assert LinksFrom(l, orderId, resolve, scripts(k).fetch, [Raises], 1) == Aborted(l);
    }
    assert RetryFrom(l, orderId, "", resolve, scripts, 3) == OrderEnd(Failed, 3, 0, l);
    assert RetryFrom(l, orderId, "", resolve, scripts, 2) == OrderEnd(Failed, 3, 1, l);
  }
}
