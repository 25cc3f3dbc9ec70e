/**
 * The per-link decisions of `download_invoice_for_order` that do not touch
 * the browser: whether an invoice link opens a modal, which hrefs of an
 * opened modal become invoice URLs, and the positional file name under which
 * each invoice is saved.
 */
module InvoiceLocator {
  import opened Text

  /** An href that does not lead anywhere by itself and must be clicked to
      open a modal: empty, blank or "#" once stripped, or a `javascript`
      URL whatever its case. */
  predicate IsModalTrigger(href: string) {
    href == "" || Strip(href) == "" || Strip(href) == "#" || IsPrefix("javascript", Lower(href))
  }

  /** Classification of an href: a modal trigger exactly when it is blank,
      "#" up to surrounding whitespace, or a `javascript` URL; every other
      href is a direct target. */
  lemma ModalTriggerIff(href: string)
    ensures IsModalTrigger(href) <==>
      (forall i :: 0 <= i < |href| ==> IsSpace(href[i]))
      || Strip(href) == "#"
      || IsPrefix("javascript", Lower(href))
  {
    StripEmptyIffBlank(href);
  }

  /** A blank href opens a modal. */
  lemma BlankHrefIsTrigger()
    ensures IsModalTrigger("") && IsModalTrigger("  ")
  {
    assert Strip("  ") == "";
  }

  /** A bare "#", whitespace around it included, opens a modal. */
  lemma HashHrefIsTrigger()
    ensures IsModalTrigger(" # ")
  {
    assert TrimLeft(" # ") == "# ";
    assert TrimRight("# ") == "#";
  }

  /** The `javascript` test ignores case. */
  lemma JavascriptAnyCaseIsTrigger()
    ensures IsModalTrigger("JavaScript:")
  {
    assert Lower("JavaScript:")[..10] == "javascript";
  }

  /** The `javascript` test does not ignore leading whitespace: the prefix is
      tested on the unstripped href. */
  lemma SpacedJavascriptIsDirect()
    ensures !IsModalTrigger(" javascript:")
  {
    var j := " javascript:";
    assert TrimLeft(j) == j[1..];
    assert TrimRight(j[1..]) == j[1..];
    assert Lower(j)[0] == ' ';
  }

  /** A print-summary URL is a direct target. */
  lemma PrintSummaryIsDirect()
    ensures !IsModalTrigger("/summary/print")
  {
    var p := "/summary/print";
    assert TrimLeft(p) == p;
    assert TrimRight(p) == p;
    assert Lower(p)[0] == '/';
  }

  /** An href found in an opened modal is kept when it is non-empty, is not a
      `javascript` URL (any case), and does not contain "summary/print"
      (exact case). */
  predicate KeepModalHref(href: string) {
    href != "" && !IsPrefix("javascript", Lower(href)) && !Contains(href, "summary/print")
  }

  /** The modal URLs in modal order: each kept href resolved against the
      base URL by `resolve` (urljoin). */
  function ModalUrls(hrefs: seq<string>, resolve: string -> string): seq<string> {
    if hrefs == [] then []
    else
      var last := hrefs[|hrefs| - 1];
      ModalUrls(hrefs[..|hrefs| - 1], resolve) + if KeepModalHref(last) then [resolve(last)] else []
  }

  /** The modal loop (lines 364-376), appending to `modal_urls`. */
  method CollectModalUrls(hrefs: seq<string>, resolve: string -> string) returns (urls: seq<string>)
    ensures urls == ModalUrls(hrefs, resolve)
  {
    urls := [];
    for k := 0 to |hrefs|
      invariant urls == ModalUrls(hrefs[..k], resolve)
    {
      assert hrefs[..k + 1][..k] == hrefs[..k];
      if KeepModalHref(hrefs[k]) {
        urls := urls + [resolve(hrefs[k])];
      }
    }
    assert hrefs[..|hrefs|] == hrefs;
  }

  /** Filtering keeps modal order: the URLs of two consecutive runs of modal
      links are the URLs of the first run followed by those of the second. */
  lemma {:induction false} ModalUrlsAppend(a: seq<string>, b: seq<string>, resolve: string -> string)
    ensures ModalUrls(a + b, resolve) == ModalUrls(a, resolve) + ModalUrls(b, resolve)
    decreases |b|
  {
    if b == [] {
      assert a + b == a;
    } else {
      var c := b[..|b| - 1];
      ModalUrlsAppend(a, c, resolve);
      assert (a + b)[..|a + b| - 1] == a + c;
    }
  }

  /** A URL is collected exactly when some kept href resolves to it. */
  lemma {:induction false} ModalUrlsMembers(hrefs: seq<string>, resolve: string -> string, u: string)
    ensures u in ModalUrls(hrefs, resolve) <==>
      exists i :: 0 <= i < |hrefs| && KeepModalHref(hrefs[i]) && resolve(hrefs[i]) == u
  {
    if hrefs != [] {
      var p := hrefs[..|hrefs| - 1];
      ModalUrlsMembers(p, resolve, u);
      if u in ModalUrls(p, resolve) {
        var i :| 0 <= i < |p| && KeepModalHref(p[i]) && resolve(p[i]) == u;
        assert hrefs[i] == p[i];
      }
      if exists i :: 0 <= i < |hrefs| && KeepModalHref(hrefs[i]) && resolve(hrefs[i]) == u {
        var i :| 0 <= i < |hrefs| && KeepModalHref(hrefs[i]) && resolve(hrefs[i]) == u;
        if i < |p| {
          assert p[i] == hrefs[i];
        }
      }
    }
  }

  /** No invoice URL comes out of a modal exactly when every href in it is
      excluded; then no download is attempted for that link. */
  lemma {:induction false} ModalUrlsEmptyIff(hrefs: seq<string>, resolve: string -> string)
    ensures ModalUrls(hrefs, resolve) == [] <==> forall i :: 0 <= i < |hrefs| ==> !KeepModalHref(hrefs[i])
  {
    if hrefs != [] {
      var p := hrefs[..|hrefs| - 1];
      ModalUrlsEmptyIff(p, resolve);
      if ModalUrls(hrefs, resolve) == [] {
        forall i | 0 <= i < |hrefs| ensures !KeepModalHref(hrefs[i]) {
          if i < |p| {
            assert hrefs[i] == p[i];
          }
        }
      }
    }
  }

  /** A print summary, a javascript URL and an empty href are all dropped. */
  lemma ModalUrlsExample(resolve: string -> string)
    ensures ModalUrls(["/invoice.pdf", "/summary/print", "JAVASCRIPT:x", ""], resolve)
         == [resolve("/invoice.pdf")]
  {
    var h := ["/invoice.pdf", "/summary/print", "JAVASCRIPT:x", ""];
    assert OccursAt(h[1], 1, "summary/print");
    ContainsWitness(h[1], 1, "summary/print");
    assert Lower("JAVASCRIPT:x")[..10] == "javascript";
    assert Lower(h[0])[0] == '/';
    assert KeepModalHref(h[0]) && !KeepModalHref(h[1]) && !KeepModalHref(h[2]) && !KeepModalHref(h[3]);
    assert h[..1][..0] == [];
    assert ModalUrls(h[..1], resolve) == [resolve(h[0])];
    assert h[..2][..1] == h[..1];
    assert ModalUrls(h[..2], resolve) == [resolve(h[0])];
    assert h[..3][..2] == h[..2];
    assert ModalUrls(h[..3], resolve) == [resolve(h[0])];
    assert h[..4] == h;
  }

  /** The positional parts for link `idx` (0-based) of `linkCount`: its
      1-based number when the order has more than one link. */
  function LinkParts(idx: nat, linkCount: nat): seq<string> {
    if linkCount > 1 then [NatToString(idx + 1)] else []
  }

  /** The parts for the `modalIdx`-th (1-based) of `modalCount` modal URLs
      of link `idx`. */
  function ModalParts(idx: nat, linkCount: nat, modalIdx: nat, modalCount: nat): seq<string> {
    LinkParts(idx, linkCount) + if modalCount > 1 then [NatToString(modalIdx)] else []
  }

  /** `_` followed by the parts joined with `_`, or nothing. */
  function Suffix(parts: seq<string>): string {
    if parts == [] then "" else "_" + Join("_", parts)
  }

  /** The name of the saved PDF: order id, suffix, ".pdf". */
  function FileName(orderId: string, parts: seq<string>): (r: string)
    ensures IsPrefix(orderId, r) && |r| == |orderId| + |Suffix(parts)| + 4
  {
    orderId + Suffix(parts) + ".pdf"
  }

  /** A part of a file name: a non-empty decimal number. */
  predicate IsNumeral(s: string) {
    s != "" && forall k :: 0 <= k < |s| ==> IsDigit(s[k])
  }

  predicate AllNumerals(parts: seq<string>) {
    forall i :: 0 <= i < |parts| ==> IsNumeral(parts[i])
  }

  lemma {:induction false} JoinStartsWithFirst(parts: seq<string>)
    requires parts != []
    ensures |Join("_", parts)| >= |parts[0]| && Join("_", parts)[..|parts[0]|] == parts[0]
    ensures |parts| == 1 ==> Join("_", parts) == parts[0]
    ensures |parts| > 1 ==> |Join("_", parts)| > |parts[0]| && Join("_", parts)[|parts[0]|] == '_'
                             && Join("_", parts)[|parts[0]| + 1..] == Join("_", parts[1..])
  {
    if |parts| > 1 {
      var j := Join("_", parts);
      assert j == parts[0] + "_" + Join("_", parts[1..]);
      assert j[..|parts[0]|] == parts[0];
    }
  }

  /** Numerals joined with `_` can be split back apart. */
  lemma {:induction false} JoinInjective(p: seq<string>, q: seq<string>)
    requires AllNumerals(p) && AllNumerals(q)
    requires Join("_", p) == Join("_", q)
    ensures p == q
    decreases |p|
  {
    if p == [] || q == [] {
      if p != [] {
        JoinStartsWithFirst(p);
      } else if q != [] {
        JoinStartsWithFirst(q);
      }
    } else {
      var j := Join("_", p);
      JoinStartsWithFirst(p);
      JoinStartsWithFirst(q);
      var a, b := p[0], q[0];
      assert IsNumeral(a) && IsNumeral(b);
      assert a == b;
      if |p| == 1 || |q| == 1 {
        assert |p| == 1 && |q| == 1;
        assert p == [a] && q == [b];
      } else {
        assert AllNumerals(p[1..]) by {
          forall i | 0 <= i < |p| - 1 ensures IsNumeral(p[1..][i]) {
            assert p[1..][i] == p[i + 1];
          }
        }
        assert AllNumerals(q[1..]) by {
          forall i | 0 <= i < |q| - 1 ensures IsNumeral(q[1..][i]) {
            assert q[1..][i] == q[i + 1];
          }
        }
        JoinInjective(p[1..], q[1..]);
        assert p == [a] + p[1..] && q == [b] + q[1..];
      }
    }
  }

  /** Within one order, different numeral parts give different file names. */
  lemma FileNameInjective(orderId: string, p: seq<string>, q: seq<string>)
    requires AllNumerals(p) && AllNumerals(q)
    requires FileName(orderId, p) == FileName(orderId, q)
    ensures p == q
  {
    var n := FileName(orderId, p);
    assert Suffix(p) == n[|orderId|..|n| - 4];
    assert Suffix(q) == n[|orderId|..|n| - 4];
    if p != [] && q != [] {
      assert Join("_", p) == Suffix(p)[1..];
      JoinInjective(p, q);
    }
  }

  /** What one invoice link turned out to be: a direct link, or a modal
      trigger whose modal yielded `count` invoice URLs. */
  datatype LinkKind = DirectLink | ModalLink(count: nat)

  /** Where an invoice is saved from: link `idx` itself, or the `modalIdx`-th
      (1-based) URL of the modal that link `idx` opened. */
  datatype Position = Direct(idx: nat) | InModal(idx: nat, modalIdx: nat)

  predicate ValidPosition(layout: seq<LinkKind>, pos: Position) {
    pos.idx < |layout| &&
    match pos
    case Direct(i) => layout[i] == DirectLink
    case InModal(i, k) => layout[i].ModalLink? && 1 <= k <= layout[i].count
  }

  function PartsAt(layout: seq<LinkKind>, pos: Position): (parts: seq<string>)
    requires ValidPosition(layout, pos)
    ensures AllNumerals(parts)
  {
    match pos
    case Direct(i) => LinkParts(i, |layout|)
    case InModal(i, k) => ModalParts(i, |layout|, k, layout[i].count)
  }

  /** The file name under which the invoice at `pos` is saved. */
  function NameAt(orderId: string, layout: seq<LinkKind>, pos: Position): string
    requires ValidPosition(layout, pos)
  {
    FileName(orderId, PartsAt(layout, pos))
  }

  /** Distinct positions within one order get distinct file names, so no
      invoice of an order is skipped as "already downloaded" because of
      another invoice of the same order. */
  lemma DistinctPositionsDistinctNames(orderId: string, layout: seq<LinkKind>, p: Position, q: Position)
    requires ValidPosition(layout, p) && ValidPosition(layout, q) && p != q
    ensures NameAt(orderId, layout, p) != NameAt(orderId, layout, q)
  {
    if NameAt(orderId, layout, p) == NameAt(orderId, layout, q) {
      FileNameInjective(orderId, PartsAt(layout, p), PartsAt(layout, q));
      PartsAtInjective(layout, p, q);
      assert false;
    }
  }

  /** Distinct positions have distinct name parts. */
  lemma PartsAtInjective(layout: seq<LinkKind>, p: Position, q: Position)
    requires ValidPosition(layout, p) && ValidPosition(layout, q)
    requires PartsAt(layout, p) == PartsAt(layout, q)
    ensures p == q
  {
    var pp, qp := PartsAt(layout, p), PartsAt(layout, q);
    if |layout| > 1 {
      assert pp[0] == NatToString(p.idx + 1) && qp[0] == NatToString(q.idx + 1);
      NatToStringInjective(p.idx + 1, q.idx + 1);
    }
    assert p.idx == q.idx;
    if p.InModal? && q.InModal? && layout[p.idx].count > 1 {
      assert pp[|pp| - 1] == NatToString(p.modalIdx) && qp[|qp| - 1] == NatToString(q.modalIdx);
      NatToStringInjective(p.modalIdx, q.modalIdx);
    }
  }

  /** A single link, direct or yielding one modal URL, is saved as
      `<order id>.pdf`. */
  lemma SingleInvoiceName(orderId: string, kind: LinkKind, pos: Position)
    requires ValidPosition([kind], pos)
    ensures NameAt(orderId, [kind], pos) == orderId + ".pdf" <==> (kind == DirectLink || kind.count == 1)
  {
  }

  /** Two direct links are saved as `<order id>_1.pdf` and `<order id>_2.pdf`. */
  lemma TwoDirectLinksNames(orderId: string)
    ensures NameAt(orderId, [DirectLink, DirectLink], Direct(0)) == orderId + "_1.pdf"
    ensures NameAt(orderId, [DirectLink, DirectLink], Direct(1)) == orderId + "_2.pdf"
  {
  }

  /** The second of three modal URLs behind the second of two links. */
  lemma ModalInvoiceName(orderId: string)
    ensures NameAt(orderId, [DirectLink, ModalLink(3)], InModal(1, 2)) == orderId + "_2_2.pdf"
  {
    assert NatToString(2) == "2";
    assert ModalParts(1, 2, 2, 3) == ["2", "2"];
    assert Join("_", ["2", "2"]) == "2_2";
  }
}
