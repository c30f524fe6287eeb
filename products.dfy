/** The product extractors of scraper.py: the product feed, the HTML scan
    of the catalog page, the choice between the two, and the hero scan of
    the home page. */
module Products {
  import opened Wrappers
  import opened Text
  import opened Seqs
  import opened Fetch

  /** A product price: "" (none could be settled) or the minimum variant
      price, which the source renders with two decimals. */
  datatype Price = NoPrice | Amount(value: real)

  /** What the HTML scans build for one product link; a hero product is
      exactly this. */
  datatype Card = Card(title: string, productUrl: string, imageUrl: string)

  /** A catalog product. */
  datatype Product = Product(title: string, productUrl: string, imageUrl: string, price: Price)

  const CatalogPath: string := "collections/all"
  const FeedPath: string := "products.json"
  const HeroCap: nat := 20

  // ---------------- HTML scan ----------------

  /** An anchor the scans consider: its `href` is present, non-empty and
      contains "/products/". */
  predicate IsProductLink(a: Anchor) {
    a.href.Some? && a.href.value != "" && Contains(a.href.value, "/products/")
  }

  /** The cleaned title attribute, or else the cleaned visible text. */
  function CardTitle(a: Anchor): string {
    var t := Clean(a.title);
    if t != "" then t else Clean(a.text)
  }

  /** The joined image URL, taken from `data-src` in preference to `src`;
      "" when there is no image or neither attribute is set. */
  function CardImage(w: Web, base: string, a: Anchor): Result<string> {
    match a.image
    case None => Ok("")
    case Some(img) => Abs(w, base, if img.dataSrc != "" then img.dataSrc else img.src)
  }

  /** The URLs already collected (the `seen` set). */
  function UrlsOf(cards: seq<Card>): set<string> {
    set c | c in cards :: c.productUrl
  }

  lemma UrlsSnoc(cards: seq<Card>, c: Card)
    ensures UrlsOf(cards + [c]) == UrlsOf(cards) + {c.productUrl}
  {
    assert forall d :: d in cards + [c] <==> d in cards || d == c;
  }

  /** The scan has reached its cap. */
  predicate Full(cards: seq<Card>, cap: Option<nat>) {
    cap.Some? && |cards| >= cap.value
  }

  /** The body of the scan loop for one anchor. */
  function ScanStep(w: Web, base: string, cards: seq<Card>, a: Anchor): Result<seq<Card>> {
    if !IsProductLink(a) then Ok(cards)
    else
      match Abs(w, base, a.href.value)
      case Raised(e) => Raised(e)
      case Ok(pu) =>
        if pu in UrlsOf(cards) then Ok(cards)
        else
          match CardImage(w, base, a)
          case Raised(e) => Raised(e)
          case Ok(img) => Ok(cards + [Card(CardTitle(a), pu, img)])
  }

  /** The cards collected from `anchors`, scanned in order until the cap
      (if any) is reached; an exception from the URL library ends it. */
  function Scan(w: Web, base: string, anchors: seq<Anchor>, cap: Option<nat>): Result<seq<Card>>
    decreases |anchors|
  {
    if anchors == [] then Ok([])
    else
      match Scan(w, base, anchors[..|anchors| - 1], cap)
      case Raised(e) => Raised(e)
      case Ok(cards) =>
        if Full(cards, cap) then Ok(cards) else ScanStep(w, base, cards, anchors[|anchors| - 1])
  }

  /** Once the scan has raised or reached its cap, later anchors change
      nothing: this is the `break` at the cap. */
  lemma {:induction false} ScanSettled(w: Web, base: string, anchors: seq<Anchor>, n: nat, cap: Option<nat>)
    requires n <= |anchors|
    requires Scan(w, base, anchors[..n], cap).Raised? || Full(Scan(w, base, anchors[..n], cap).value, cap)
    ensures Scan(w, base, anchors, cap) == Scan(w, base, anchors[..n], cap)
    decreases |anchors|
  {
    if n < |anchors| {
      var prev := anchors[..|anchors| - 1];
      assert prev[..n] == anchors[..n];
      ScanSettled(w, base, prev, n, cap);
    } else {
      assert anchors[..n] == anchors;
    }
  }

  /** A catalog card gets price "". */
  function Priced(cards: seq<Card>): (ps: seq<Product>)
    ensures |ps| == |cards|
    ensures forall i :: 0 <= i < |cards| ==>
      ps[i] == Product(cards[i].title, cards[i].productUrl, cards[i].imageUrl, NoPrice)
  {
    seq(|cards|, i requires 0 <= i < |cards| =>
      Product(cards[i].title, cards[i].productUrl, cards[i].imageUrl, NoPrice))
  }

  /** `_fetch_products_html`, as a value: no products when the catalog page
      is absent. */
  function HtmlProducts(w: Web, base: string): Result<seq<Product>> {
    var b := NormalizeUrl(base);
    match FetchPage(w, b, CatalogPath)
    case None => Ok([])
    case Some(doc) =>
      match Scan(w, b, doc.anchors, None)
      case Raised(e) => Raised(e)
      case Ok(cards) => Ok(Priced(cards))
  }

  /** Pricing one more card appends one more product. */
  lemma PricedSnoc(cards: seq<Card>, c: Card)
    ensures Priced(cards + [c]) == Priced(cards) + [Product(c.title, c.productUrl, c.imageUrl, NoPrice)]
  {
    assert (cards + [c])[|cards|] == c;
  }

  /** `extract_hero_products`, as a value: no products when the home page
      is absent. */
  function HeroProducts(w: Web, base: string): Result<seq<Card>> {
    var b := NormalizeUrl(base);
    match FetchPage(w, b, "")
    case None => Ok([])
    case Some(doc) => Scan(w, b, doc.anchors, Some(HeroCap))
  }

  /** `_fetch_products_html`: scans the catalog page's product links,
      skipping URLs already seen. */
  method FetchProductsHtml(w: Web, base: string) returns (r: Result<seq<Product>>)
    ensures r == HtmlProducts(w, base)
  {
    var b := NormalizeUrl(base);
    var products: seq<Product> := [];
    var soup := FetchPage(w, b, CatalogPath);
    if soup.None? {
      return Ok(products);
    }
    var cards := soup.value.anchors;
    var seen: set<string> := {};
    ghost var scanned: seq<Card> := [];
    for i := 0 to |cards|
      invariant Scan(w, b, cards[..i], None) == Ok(scanned)
      invariant products == Priced(scanned)
      invariant seen == UrlsOf(scanned)
    {
      assert cards[..i + 1][..i] == cards[..i];
      var a := cards[i];
      assert Scan(w, b, cards[..i + 1], None) == ScanStep(w, b, scanned, a);
      if !IsProductLink(a) {
        continue;
      }
      var pu := Abs(w, b, a.href.value);
      if pu.Raised? {
        ScanSettled(w, b, cards, i + 1, None);
        return Raised(pu.error);
      }
      if pu.value in seen {
        continue;
      }
      seen := seen + {pu.value};
      var title := CardTitle(a);
      var img := CardImage(w, b, a);
      if img.Raised? {
        ScanSettled(w, b, cards, i + 1, None);
        return Raised(img.error);
      }
      products := products + [Product(title, pu.value, img.value, NoPrice)];
      PricedSnoc(scanned, Card(title, pu.value, img.value));
      UrlsSnoc(scanned, Card(title, pu.value, img.value));
      scanned := scanned + [Card(title, pu.value, img.value)];
    }
    assert cards[..|cards|] == cards;
    return Ok(products);
  }

  /** `extract_hero_products`: the same scan over the home page, stopping
      once 20 products are collected. */
  method ExtractHeroProducts(w: Web, base: string) returns (r: Result<seq<Card>>)
    ensures r == HeroProducts(w, base)
  {
    var b := NormalizeUrl(base);
    var products: seq<Card> := [];
    var soup := FetchPage(w, b, "");
    if soup.None? {
      return Ok(products);
    }
    var cards := soup.value.anchors;
    var seen: set<string> := {};
    var i := 0;
    while i < |cards|
      invariant 0 <= i <= |cards|
      invariant Scan(w, b, cards[..i], Some(HeroCap)) == Ok(products)
      invariant !Full(products, Some(HeroCap))
      invariant seen == UrlsOf(products)
    {
      assert cards[..i + 1][..i] == cards[..i];
      var a := cards[i];
      assert Scan(w, b, cards[..i + 1], Some(HeroCap)) == ScanStep(w, b, products, a);
      i := i + 1;
      if !IsProductLink(a) {
        continue;
      }
      var pu := Abs(w, b, a.href.value);
      if pu.Raised? {
        ScanSettled(w, b, cards, i, Some(HeroCap));
        return Raised(pu.error);
      }
      if pu.value in seen {
        continue;
      }
      seen := seen + {pu.value};
      var title := CardTitle(a);
      var img := CardImage(w, b, a);
      if img.Raised? {
        ScanSettled(w, b, cards, i, Some(HeroCap));
        return Raised(img.error);
      }
      UrlsSnoc(products, Card(title, pu.value, img.value));
      products := products + [Card(title, pu.value, img.value)];
      if |products| >= HeroCap {
        ScanSettled(w, b, cards, i, Some(HeroCap));
        return Ok(products);
      }
    }
    assert cards[..|cards|] == cards;
    return Ok(products);
  }

  // ---------------- Properties of the HTML scan ----------------

  /** Anchor `j` is the first product link whose joined URL is `url`. */
  predicate FirstWithUrl(w: Web, base: string, anchors: seq<Anchor>, j: int, url: string) {
    && 0 <= j < |anchors|
    && IsProductLink(anchors[j]) && Abs(w, base, anchors[j].href.value) == Ok(url)
    && forall k :: 0 <= k < j ==>
         !(IsProductLink(anchors[k]) && Abs(w, base, anchors[k].href.value) == Ok(url))
  }

  /** Unless the scan raised or reached its cap, every product link it
      passed has its URL among the collected ones. */
  lemma {:induction false} ScanCovers(w: Web, base: string, anchors: seq<Anchor>, cap: Option<nat>)
    requires Scan(w, base, anchors, cap).Ok? && !Full(Scan(w, base, anchors, cap).value, cap)
    ensures forall j :: 0 <= j < |anchors| && IsProductLink(anchors[j]) ==>
      Abs(w, base, anchors[j].href.value).Ok?
      && Abs(w, base, anchors[j].href.value).value in UrlsOf(Scan(w, base, anchors, cap).value)
    decreases |anchors|
  {
    if anchors != [] {
      var prev := anchors[..|anchors| - 1];
      var cards := Scan(w, base, prev, cap).value;
      assert Scan(w, base, prev, cap).Ok? && !Full(cards, cap);
      ScanCovers(w, base, prev, cap);
      var now := Scan(w, base, anchors, cap).value;
      assert UrlsOf(cards) <= UrlsOf(now);
      forall j | 0 <= j < |anchors| && IsProductLink(anchors[j])
        ensures Abs(w, base, anchors[j].href.value).Ok?
             && Abs(w, base, anchors[j].href.value).value in UrlsOf(now)
      {
        if j < |prev| {
          assert anchors[j] == prev[j];
        }
      }
    }
  }

  /** One step either keeps the cards or appends the card of its anchor,
      which is a product link whose URL is new. */
  lemma StepCases(w: Web, base: string, cards: seq<Card>, a: Anchor)
    requires ScanStep(w, base, cards, a).Ok?
    ensures var now := ScanStep(w, base, cards, a).value;
      now == cards
      || (&& IsProductLink(a) && Abs(w, base, a.href.value).Ok?
          && Abs(w, base, a.href.value).value !in UrlsOf(cards)
          && CardImage(w, base, a).Ok?
          && now == cards + [Card(CardTitle(a), Abs(w, base, a.href.value).value, CardImage(w, base, a).value)])
  {
  }

  /** The scan never collects more than its cap. */
  lemma {:induction false} ScanBounded(w: Web, base: string, anchors: seq<Anchor>, cap: nat)
    requires Scan(w, base, anchors, Some(cap)).Ok?
    ensures |Scan(w, base, anchors, Some(cap)).value| <= cap
    decreases |anchors|
  {
    if anchors != [] {
      ScanBounded(w, base, anchors[..|anchors| - 1], cap);
    }
  }

  /** No two cards share a product URL. */
  predicate DistinctUrls(cards: seq<Card>) {
    forall i, j :: 0 <= i < j < |cards| ==> cards[i].productUrl != cards[j].productUrl
  }

  /** Appending a card with a new URL keeps the URLs distinct. */
  lemma DistinctUrlsSnoc(cards: seq<Card>, c: Card)
    requires DistinctUrls(cards) && c.productUrl !in UrlsOf(cards)
    ensures DistinctUrls(cards + [c])
  {
    forall i | 0 <= i < |cards| ensures cards[i].productUrl != c.productUrl {
      assert cards[i] in cards;
    }
  }

  /** The collected URLs are pairwise distinct: the `seen` set does its job. */
  lemma {:induction false} ScanDistinct(w: Web, base: string, anchors: seq<Anchor>, cap: Option<nat>)
    requires Scan(w, base, anchors, cap).Ok?
    ensures DistinctUrls(Scan(w, base, anchors, cap).value)
    decreases |anchors|
  {
    if anchors != [] {
      var prev := anchors[..|anchors| - 1];
      var cards := Scan(w, base, prev, cap).value;
      ScanDistinct(w, base, prev, cap);
      if !Full(cards, cap) {
        var last := anchors[|anchors| - 1];
        assert Scan(w, base, anchors, cap) == ScanStep(w, base, cards, last);
        StepCases(w, base, cards, last);
        var now := ScanStep(w, base, cards, last).value;
        if now != cards {
          DistinctUrlsSnoc(cards, now[|cards|]);
          assert now == cards + [now[|cards|]];
        }
      }
    }
  }

  /** Card `c` is built from the first product link that carries its URL,
      with that anchor's title and image. */
  ghost predicate CardFrom(w: Web, base: string, anchors: seq<Anchor>, c: Card) {
    exists j :: FirstWithUrl(w, base, anchors, j, c.productUrl)
      && c.title == CardTitle(anchors[j]) && CardImage(w, base, anchors[j]) == Ok(c.imageUrl)
  }

  /** More anchors after the first one with a URL do not change which one
      is first. */
  lemma CardFromExtends(w: Web, base: string, anchors: seq<Anchor>, n: nat, c: Card)
    requires n <= |anchors| && CardFrom(w, base, anchors[..n], c)
    ensures CardFrom(w, base, anchors, c)
  {
    var pre := anchors[..n];
    var j :| FirstWithUrl(w, base, pre, j, c.productUrl)
      && c.title == CardTitle(pre[j]) && CardImage(w, base, pre[j]) == Ok(c.imageUrl);
    assert forall k :: 0 <= k <= j ==> pre[k] == anchors[k];
    assert FirstWithUrl(w, base, anchors, j, c.productUrl);
  }

  /** Every collected card comes from the FIRST product link that carries
      its URL, with that anchor's title and image. */
  lemma {:induction false} ScanOrigin(w: Web, base: string, anchors: seq<Anchor>, cap: Option<nat>)
    requires Scan(w, base, anchors, cap).Ok?
    ensures var cards := Scan(w, base, anchors, cap).value;
      forall i :: 0 <= i < |cards| ==> CardFrom(w, base, anchors, cards[i])
    decreases |anchors|
  {
    if anchors != [] {
      var n := |anchors| - 1;
      var prev := anchors[..n];
      var cards := Scan(w, base, prev, cap).value;
      ScanOrigin(w, base, prev, cap);
      forall i | 0 <= i < |cards| ensures CardFrom(w, base, anchors, cards[i]) {
        CardFromExtends(w, base, anchors, n, cards[i]);
      }
      if !Full(cards, cap) {
        assert Scan(w, base, anchors, cap) == ScanStep(w, base, cards, anchors[n]);
        StepCases(w, base, cards, anchors[n]);
        if ScanStep(w, base, cards, anchors[n]).value != cards {
          NewCardFrom(w, base, anchors, cap);
        }
      }
    }
  }

  /** The card a step appends comes from its anchor, the first product
      link with that URL. */
  lemma NewCardFrom(w: Web, base: string, anchors: seq<Anchor>, cap: Option<nat>)
    requires anchors != []
    requires var prev := Scan(w, base, anchors[..|anchors| - 1], cap);
      prev.Ok? && !Full(prev.value, cap)
      && ScanStep(w, base, prev.value, anchors[|anchors| - 1]).Ok?
      && ScanStep(w, base, prev.value, anchors[|anchors| - 1]).value != prev.value
    ensures var last := anchors[|anchors| - 1];
      CardFrom(w, base, anchors, Card(CardTitle(last), Abs(w, base, last.href.value).value, CardImage(w, base, last).value))
  {
    var n := |anchors| - 1;
    var prev := anchors[..n];
    var cards := Scan(w, base, prev, cap).value;
    var last := anchors[n];
    StepCases(w, base, cards, last);
    var pu := Abs(w, base, last.href.value).value;
    ScanCovers(w, base, prev, cap);
    assert FirstWithUrl(w, base, anchors, n, pu) by {
      forall k | 0 <= k < n && IsProductLink(anchors[k])
        ensures Abs(w, base, anchors[k].href.value) != Ok(pu)
      {
        assert anchors[k] == prev[k];
      }
    }
  }

  /** The collected URLs, in collection order. */
  function UrlList(cards: seq<Card>): (r: seq<string>)
    ensures |r| == |cards|
    ensures forall i :: 0 <= i < |cards| ==> r[i] == cards[i].productUrl
  {
    seq(|cards|, i requires 0 <= i < |cards| => cards[i].productUrl)
  }

  /** The list and the `seen` set hold the same URLs. */
  lemma UrlListMembers(cards: seq<Card>)
    ensures forall x :: x in UrlList(cards) <==> x in UrlsOf(cards)
  {
    forall x | x in UrlsOf(cards) ensures x in UrlList(cards) {
      var c :| c in cards && c.productUrl == x;
      var i :| 0 <= i < |cards| && cards[i] == c;
      assert UrlList(cards)[i] == x;
    }
  }

  /** The joined URL of an anchor that is a product link whose join
      succeeds; nothing for any other anchor. */
  function LinkUrl(w: Web, base: string, a: Anchor): seq<string> {
    if IsProductLink(a) && Abs(w, base, a.href.value).Ok? then [Abs(w, base, a.href.value).value] else []
  }

  /** The joined URL of every product link whose join succeeds, in
      document order, repeats included. */
  function ProductUrls(w: Web, base: string, anchors: seq<Anchor>): seq<string>
    decreases |anchors|
  {
    if anchors == [] then []
    else ProductUrls(w, base, anchors[..|anchors| - 1]) + LinkUrl(w, base, anchors[|anchors| - 1])
  }

  /** A list cut at the cap, if there is one. */
  function Capped(s: seq<string>, cap: Option<nat>): (r: seq<string>)
    ensures |r| <= |s| && forall i :: 0 <= i < |r| ==> r[i] == s[i]
    ensures (cap.None? || |s| <= cap.value) ==> r == s
    ensures cap.Some? && cap.value < |s| ==> |r| == cap.value
  {
    if cap.None? then s else Take(s, cap.value)
  }

  /** One step of the scan is one step of the de-duplication of the
      product URLs. */
  lemma StepDedup(w: Web, base: string, cards: seq<Card>, a: Anchor, p: seq<string>)
    requires UrlList(cards) == Dedup(p)
    requires ScanStep(w, base, cards, a).Ok?
    ensures UrlList(ScanStep(w, base, cards, a).value) == Dedup(p + LinkUrl(w, base, a))
    ensures |ScanStep(w, base, cards, a).value| <= |cards| + 1
  {
    var now := ScanStep(w, base, cards, a).value;
    StepCases(w, base, cards, a);
    UrlListMembers(cards);
    if IsProductLink(a) {
      var x := Abs(w, base, a.href.value).value;
      var pa := p + [x];
      assert pa[..|pa| - 1] == p;
      if x !in UrlsOf(cards) {
        assert now == cards + [now[|cards|]];
        assert UrlList(now) == UrlList(cards) + [x];
      }
    } else {
      assert p + LinkUrl(w, base, a) == p;
    }
  }

  /** The collected URLs are the distinct product URLs of the page in the
      order they first appear, cut at the cap: the catalog scan keeps all
      of them, the hero scan the first twenty. */
  lemma {:induction false} ScanFirstUrls(w: Web, base: string, anchors: seq<Anchor>, cap: Option<nat>)
    requires Scan(w, base, anchors, cap).Ok?
    ensures UrlList(Scan(w, base, anchors, cap).value) == Capped(Dedup(ProductUrls(w, base, anchors)), cap)
    decreases |anchors|
  {
    if anchors != [] {
      var prev, a := anchors[..|anchors| - 1], anchors[|anchors| - 1];
      var cards := Scan(w, base, prev, cap).value;
      ScanFirstUrls(w, base, prev, cap);
      var p := ProductUrls(w, base, prev);
      var pa := ProductUrls(w, base, anchors);
      assert pa == p + LinkUrl(w, base, a);
      if Full(cards, cap) {
        assert Scan(w, base, anchors, cap) == Ok(cards);
        CappedFull(p, LinkUrl(w, base, a), cap, UrlList(cards));
      } else {
        CappedOpen(p, cap, UrlList(cards));
        assert Scan(w, base, anchors, cap) == ScanStep(w, base, cards, a);
        StepDedup(w, base, cards, a, p);
      }
    }
  }

  /** Once the cap is reached, more links leave the capped list as it is. */
  lemma CappedFull(p: seq<string>, l: seq<string>, cap: Option<nat>, u: seq<string>)
    requires u == Capped(Dedup(p), cap) && cap.Some? && |u| >= cap.value
    ensures u == Capped(Dedup(p + l), cap)
  {
    DedupPrefix(p, l);
  }

  /** Below the cap, the capped list is the whole de-duplicated list. */
  lemma CappedOpen(p: seq<string>, cap: Option<nat>, u: seq<string>)
    requires u == Capped(Dedup(p), cap) && !(cap.Some? && |u| >= cap.value)
    ensures u == Dedup(p)
  {
  }

  /** Order and cap in terms of first appearance: the cards come in the
      order their URLs first appear among the product links, and a product
      URL that was not collected first appears after every collected one,
      which only happens once the cap is reached. */
  lemma ScanFirstSeen(w: Web, base: string, anchors: seq<Anchor>, cap: Option<nat>)
    requires Scan(w, base, anchors, cap).Ok?
    ensures var cards, p := Scan(w, base, anchors, cap).value, ProductUrls(w, base, anchors);
      && (forall c :: c in cards ==> c.productUrl in p)
      && (forall i, j :: 0 <= i < j < |cards| ==>
            FirstIndex(p, cards[i].productUrl) < FirstIndex(p, cards[j].productUrl))
      && (forall x :: x in p && x !in UrlsOf(cards) ==>
            Full(cards, cap) && forall c :: c in cards ==> FirstIndex(p, c.productUrl) < FirstIndex(p, x))
  {
    ScanFirstUrls(w, base, anchors, cap);
    CappedFirstSeen(ProductUrls(w, base, anchors), Scan(w, base, anchors, cap).value, cap);
  }

  /** Cards whose URLs are the capped de-duplication of `p` follow the
      first appearances in `p`, and leave out a URL of `p` only when the
      cap is reached. */
  lemma CappedFirstSeen(p: seq<string>, cards: seq<Card>, cap: Option<nat>)
    requires UrlList(cards) == Capped(Dedup(p), cap)
    ensures forall c :: c in cards ==> c.productUrl in p
    ensures forall i, j :: 0 <= i < j < |cards| ==>
      FirstIndex(p, cards[i].productUrl) < FirstIndex(p, cards[j].productUrl)
    ensures forall x :: x in p && x !in UrlsOf(cards) ==>
      Full(cards, cap) && forall c :: c in cards ==> FirstIndex(p, c.productUrl) < FirstIndex(p, x)
  {
    var d := Dedup(p);
    forall c | c in cards ensures c.productUrl in p {
      var i :| 0 <= i < |cards| && cards[i] == c;
      assert d[i] in d;
    }
    forall i, j | 0 <= i < j < |cards|
      ensures FirstIndex(p, cards[i].productUrl) < FirstIndex(p, cards[j].productUrl)
    {
      DedupOrder(p, i, j);
    }
    forall x | x in p && x !in UrlsOf(cards) {
      CappedMissing(p, cards, cap, x);
    }
  }

  /** A URL of `p` the cards leave out first appears after all of theirs,
      and is left out only because the cap is reached. */
  lemma CappedMissing(p: seq<string>, cards: seq<Card>, cap: Option<nat>, x: string)
    requires UrlList(cards) == Capped(Dedup(p), cap)
    requires x in p && x !in UrlsOf(cards)
    ensures Full(cards, cap)
    ensures forall c :: c in cards ==> FirstIndex(p, c.productUrl) < FirstIndex(p, x)
  {
    var d, u := Dedup(p), UrlList(cards);
    UrlListMembers(cards);
    assert x in d && x !in u;
    if !Full(cards, cap) {
      CappedOpen(p, cap, u);
    }
    var k := FirstIndex(d, x);
    assert |u| <= k by {
      assert forall j :: 0 <= j < |u| ==> u[j] == d[j] && u[j] in u;
    }
    assert forall i :: 0 <= i < |cards| ==> cards[i].productUrl == u[i] == d[i] && d[i] in d;
    forall i | 0 <= i < |cards| ensures FirstIndex(p, cards[i].productUrl) < FirstIndex(p, x) {
      DedupOrder(p, i, k);
    }
  }

  /** The URL library is total: joining never raises. */
  ghost predicate JoinTotal(w: Web) {
    forall x, y :: w.urljoin(x, y).Ok?
  }

  /** With a total URL library the scan never raises. */
  lemma {:induction false} ScanTotal(w: Web, base: string, anchors: seq<Anchor>, cap: Option<nat>)
    requires JoinTotal(w)
    ensures Scan(w, base, anchors, cap).Ok?
    decreases |anchors|
  {
    if anchors != [] {
      ScanTotal(w, base, anchors[..|anchors| - 1], cap);
      var a := anchors[|anchors| - 1];
      if a.href.Some? {
        assert w.urljoin(base, a.href.value).Ok?;
      }
      if a.image.Some? {
        var img := a.image.value;
        assert w.urljoin(base, if img.dataSrc != "" then img.dataSrc else img.src).Ok?;
      }
    }
  }

  // ---------------- Products via the feed ----------------

  /** The parsed prices of a variant list, in order. */
  function ParsedPrices(vs: seq<PriceField>): (r: seq<real>)
    ensures forall x :: x in r <==> Parses(x) in vs
  {
    if vs == [] then []
    else (if vs[0].Parses? then [vs[0].value] else []) + ParsedPrices(vs[1..])
  }

  /** The least of a non-empty list of prices. */
  function Min(xs: seq<real>): (m: real)
    requires xs != []
    ensures m in xs && forall x :: x in xs ==> m <= x
  {
    if |xs| == 1 then xs[0]
    else
      var rest := Min(xs[1..]);
      assert forall x :: x in xs ==> x == xs[0] || x in xs[1..];
      if xs[0] <= rest then xs[0] else rest
  }

  /** A product's price from its variants. The whole list is converted
      inside one `try`, so a single price that does not parse voids the
      price of the product; falsy prices are skipped; otherwise it is the
      least parsed price. */
  function VariantPrice(vs: seq<PriceField>): (p: Price)
    ensures Unparsable in vs ==> p == NoPrice
    ensures p.Amount? ==> Parses(p.value) in vs && forall x :: Parses(x) in vs ==> p.value <= x
    ensures p == NoPrice <==> Unparsable in vs || forall f :: f in vs ==> !f.Parses?
  {
    if vs == [] then NoPrice
    else if Unparsable in vs then NoPrice
    else
      var prices := ParsedPrices(vs);
      if prices == [] then
        NoPrice
      else
        Amount(Min(prices))
  }

  /** The body of the item-mapping loop for one feed entry. */
  function FeedProduct(w: Web, base: string, item: FeedItem): Result<Product> {
    var title := Clean(item.title);
    var url := if item.handle != "" then Abs(w, base, "/products/" + item.handle) else Ok("");
    match url
    case Raised(e) => Raised(e)
    case Ok(productUrl) =>
      var image := if item.imageSrcs != [] then Abs(w, base, item.imageSrcs[0]) else Ok("");
      match image
      case Raised(e) => Raised(e)
      case Ok(imageUrl) => Ok(Product(title, productUrl, imageUrl, VariantPrice(item.variants)))
  }

  /** The item-mapping step as a function value, for the generic loop. */
  function FeedMapper(w: Web, base: string): FeedItem -> Result<Product> {
    item => FeedProduct(w, base, item)
  }

  /** `_fetch_products_json`, as a value. Every failure (the join, a feed
      that does not answer, an exception while mapping any item) gives no
      products at all: the `try` wraps the whole loop. When the feed's own
      joins all succeed, the result is the mapped items. */
  function JsonProducts(w: Web, base: string): (ps: seq<Product>)
    ensures ps != [] ==>
      var b := NormalizeUrl(base);
      && w.urljoin(b, FeedPath).Ok? && w.urljoin(b, FeedPath).value in w.feeds
      && MapAll(FeedMapper(w, b), w.feeds[w.urljoin(b, FeedPath).value]) == Ok(ps)
    ensures var b := NormalizeUrl(base);
      (w.urljoin(b, FeedPath).Ok? && w.urljoin(b, FeedPath).value in w.feeds
       && MapAll(FeedMapper(w, b), w.feeds[w.urljoin(b, FeedPath).value]).Ok?)
      ==> ps == MapAll(FeedMapper(w, b), w.feeds[w.urljoin(b, FeedPath).value]).value
  {
    var b := NormalizeUrl(base);
    match w.urljoin(b, FeedPath)
    case Raised(_) => []
    case Ok(url) =>
      if url !in w.feeds then []
      else
        match MapAll(FeedMapper(w, b), w.feeds[url])
        case Raised(_) => []
        case Ok(ps) => ps
  }

  /** Products from the feed are one per feed item, each the mapping of its
      own item, in feed order. */
  lemma JsonProductsItems(w: Web, base: string)
    requires JsonProducts(w, base) != []
    ensures var b := NormalizeUrl(base);
      var items := w.feeds[w.urljoin(b, FeedPath).value];
      |JsonProducts(w, base)| == |items|
      && forall i :: 0 <= i < |items| ==> FeedProduct(w, b, items[i]) == Ok(JsonProducts(w, base)[i])
  {
    var b := NormalizeUrl(base);
    var items := w.feeds[w.urljoin(b, FeedPath).value];
    MapAllEach(FeedMapper(w, b), items);
    forall i | 0 <= i < |items| ensures FeedProduct(w, b, items[i]) == Ok(JsonProducts(w, base)[i]) {
      assert FeedMapper(w, b)(items[i]) == FeedProduct(w, b, items[i]);
    }
  }

  /** `_fetch_products_json`: maps the feed items one by one. */
  method FetchProductsJson(w: Web, base: string) returns (out: seq<Product>)
    ensures out == JsonProducts(w, base)
  {
    var b := NormalizeUrl(base);
    var url := w.urljoin(b, FeedPath);
    if url.Raised? || url.value !in w.feeds {
      return [];
    }
    var items := w.feeds[url.value];
    out := [];
    for i := 0 to |items|
      invariant MapAll(FeedMapper(w, b), items[..i]) == Ok(out)
    {
      assert items[..i + 1][..i] == items[..i];
      var p := FeedProduct(w, b, items[i]);
      assert FeedMapper(w, b)(items[i]) == p;
      if p.Raised? {
        MapAllSettled(FeedMapper(w, b), items, i + 1);
        return [];
      }
      out := out + [p.value];
    }
    assert items[..|items|] == items;
  }

  /** With a total URL library no feed item raises. */
  lemma FeedProductTotal(w: Web, base: string, item: FeedItem)
    requires JoinTotal(w)
    ensures FeedProduct(w, base, item).Ok?
  {
    assert w.urljoin(base, "/products/" + item.handle).Ok?;
    if item.imageSrcs != [] {
      assert w.urljoin(base, item.imageSrcs[0]).Ok?;
    }
  }

  /** With a total URL library and a feed that answers, there is exactly
      one product per feed item, in feed order. */
  lemma JsonProductsTotal(w: Web, base: string)
    requires JoinTotal(w)
    requires w.urljoin(NormalizeUrl(base), FeedPath).value in w.feeds
    ensures var b := NormalizeUrl(base);
      var items := w.feeds[w.urljoin(b, FeedPath).value];
      |JsonProducts(w, base)| == |items|
      && forall i :: 0 <= i < |items| ==> FeedProduct(w, b, items[i]) == Ok(JsonProducts(w, base)[i])
  {
    var b := NormalizeUrl(base);
    var items := w.feeds[w.urljoin(b, FeedPath).value];
    forall item ensures FeedMapper(w, b)(item).Ok? {
      FeedProductTotal(w, b, item);
    }
    MapAllTotal(FeedMapper(w, b), items);
    if items != [] {
      MapAllEach(FeedMapper(w, b), items);
      assert FeedMapper(w, b)(items[0]).Ok?;
      JsonProductsItems(w, base);
    }
  }

  /** One price that does not parse voids the price of the whole product,
      even when other variants carry good prices. */
  lemma UnparsableVoidsPrice()
    ensures VariantPrice([Parses(19.99), Falsy, Parses(15.50), Unparsable]) == NoPrice
  {
  }

  /** A truthy price that parses to zero is not skipped: it takes part in
      the minimum. */
  lemma ZeroPriceCounts()
    ensures VariantPrice([Parses(19.99), Parses(0.0)]) == Amount(0.0)
  {
    var vs := [Parses(19.99), Parses(0.0)];
    assert vs[1] in vs;
    var p := VariantPrice(vs);
    assert forall f :: f in vs ==> f == Parses(19.99) || f == Parses(0.0);
  }

  // ---------------- Strategy choice ----------------

  /** `extract_products`, as a value: the feed's products when there are
      any, otherwise the HTML scan's. The two are never merged: a non-empty
      feed result is returned whole, and otherwise every product comes from
      the catalog scan and has no price. */
  function ProductsOf(w: Web, base: string): (r: Result<seq<Product>>)
    ensures JsonProducts(w, base) != [] ==> r == Ok(JsonProducts(w, base))
    ensures JsonProducts(w, base) == [] ==>
      (r == HtmlProducts(w, base) && (r.Ok? ==> forall p :: p in r.value ==> p.price == NoPrice))
  {
    var json := JsonProducts(w, base);
    if json != [] then Ok(json) else HtmlProducts(w, base)
  }

  /** `extract_products` */
  method ExtractProducts(w: Web, base: string) returns (r: Result<seq<Product>>)
    ensures r == ProductsOf(w, base)
  {
    var items := FetchProductsJson(w, base);
    if items == [] {
      r := FetchProductsHtml(w, base);
    } else {
      r := Ok(items);
    }
  }
}
