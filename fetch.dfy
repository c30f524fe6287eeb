/** The scraper's helpers and its networking (scraper.py, "Helpers" and
    "Networking"): URL normalisation, the `_abs` join, the sanitizer and
    `fetch_page`. The network and the HTML parser are not modelled; a
    `Web` value stands for what they would answer. */
module Fetch {
  import opened Wrappers
  import opened Text
  import opened Seqs

  /** The `img` that belongs to a product anchor (a descendant, or else the
      next one in the document); an attribute that is missing reads as "". */
  datatype Image = Image(dataSrc: string, src: string)

  /** An `a` element. `href` is None when the attribute is absent; `title`
      is the title attribute ("" when absent); `text` is the anchor's
      visible text as `get_text(" ", strip=True)` gives it. */
  datatype Anchor = Anchor(href: Option<string>, title: string, text: string, image: Option<Image>)

  /** A heading-like node (`h2`, `h3`, `strong`, `dt`) with its cleaned
      text and the cleaned text of its next sibling element, if it has one. */
  datatype Question = Question(text: string, sibling: Option<string>)

  /** A parsed page, reduced to what the extractors read from it: the
      cleaned text of every `p`, the page's visible text, every `a` and
      every question node, each in document order. */
  datatype Doc = Doc(paragraphs: seq<string>, text: string, anchors: seq<Anchor>, questions: seq<Question>)

  /** A variant's `price` field as `float(...)` sees it: falsy (missing,
      null, "" or 0, and so skipped), a number, or a string that does not
      parse (`float` raises). */
  datatype PriceField = Falsy | Parses(value: real) | Unparsable

  /** One entry of `products.json`: its title (or ""), its handle (or ""),
      the `src` of each of its images ("" when absent) and its variants'
      prices. */
  datatype FeedItem = FeedItem(title: string, handle: string, imageSrcs: seq<string>, variants: seq<PriceField>)

  /** What the network and the URL library would answer. `pages` holds the
      URLs that answer 200 with a page; `feeds` the URLs whose product feed
      answers 200 with JSON. `urljoin` and `netloc` are the library's
      `urljoin` and `urlparse(...).netloc`, which raise on malformed URLs. */
  datatype Web = Web(
    pages: map<string, Doc>,
    feeds: map<string, seq<FeedItem>>,
    urljoin: (string, string) -> Result<string>,
    netloc: string -> Result<string>)

  predicate HasScheme(url: string) {
    StartsWith(url, "http://") || StartsWith(url, "https://")
  }

  /** `_normalize_url`: the result always has a scheme; it is the input
      exactly when the input had one, and "http://" put in front of it
      otherwise. */
  function NormalizeUrl(base: string): (r: string)
    ensures HasScheme(r)
    ensures r == base <==> HasScheme(base)
    ensures !HasScheme(base) ==> r == "http://" + base
  {
    if !HasScheme(base) then "http://" + base else base
  }

  /** Normalising only ever adds in front: the input is a suffix of the
      result. */
  lemma NormalizeKeepsInput(base: string)
    ensures EndsWith(NormalizeUrl(base), base)
  {
    var r := NormalizeUrl(base);
    if !HasScheme(base) {
      assert r[|r| - |base|..] == base;
    }
  }

  /** Normalising twice is normalising once. */
  lemma NormalizeIdempotent(base: string)
    ensures NormalizeUrl(NormalizeUrl(base)) == NormalizeUrl(base)
  {
  }

  /** `_abs`: an empty reference gives the empty URL without consulting
      the URL library; any other is joined to the base. */
  function Abs(w: Web, base: string, href: string): (r: Result<string>)
    ensures href == "" ==> r == Ok("")
    ensures href != "" ==> r == w.urljoin(base, href)
  {
    if href == "" then Ok("") else w.urljoin(base, href)
  }

  /** `clean_html`, on text that holds no markup: `get_text(" ", strip=True)`
      of a single text node, which is that text stripped. */
  function Clean(raw: string): (r: string)
    ensures raw == "" ==> r == ""
    ensures |r| <= |raw|
    ensures r == [] || (!IsSpace(r[0]) && !IsSpace(r[|r| - 1]))
  {
    Strip(raw)
  }

  /** `clean_html` on tag-free text removes exactly the surrounding
      whitespace: the raw text is leading whitespace, the cleaned text and
      trailing whitespace, and the cleaned text neither starts nor ends
      with whitespace. */
  lemma CleanStrips(raw: string)
    ensures var r, a := Clean(raw), SpaceRun(raw);
      a + |r| <= |raw| && r == raw[a..a + |r|]
      && (forall k :: 0 <= k < a ==> IsSpace(raw[k]))
      && (forall k :: a + |r| <= k < |raw| ==> IsSpace(raw[k]))
      && (r == [] || (!IsSpace(r[0]) && !IsSpace(r[|r| - 1])))
  {
    StripSpec(raw);
  }

  /** `fetch_page`: normalise the base, join the path, and give the page
      only when the join succeeds and the URL answers; never raises. */
  function FetchPage(w: Web, base: string, path: string): (r: Option<Doc>)
    ensures r.Some? <==> w.urljoin(NormalizeUrl(base), path).Ok?
                         && w.urljoin(NormalizeUrl(base), path).value in w.pages
    ensures r.Some? ==> r.value == w.pages[w.urljoin(NormalizeUrl(base), path).value]
  {
    match w.urljoin(NormalizeUrl(base), path)
    case Raised(_) => None
    case Ok(url) => if url in w.pages then Some(w.pages[url]) else None
  }

  /** The extractors normalise the base before calling `fetch_page`, which
      normalises it again; by idempotence they fetch the same page. */
  lemma FetchNormalized(w: Web, base: string, path: string)
    ensures FetchPage(w, NormalizeUrl(base), path) == FetchPage(w, base, path)
  {
    NormalizeIdempotent(base);
  }

  /** The `href` of every anchor that has one, in document order:
      `[a["href"] for a in soup.find_all("a", href=True)]`. */
  function Hrefs(anchors: seq<Anchor>): (r: seq<string>)
    ensures |r| <= |anchors|
    decreases |anchors|
  {
    if anchors == [] then []
    else
      var last := anchors[|anchors| - 1];
      var prev := Hrefs(anchors[..|anchors| - 1]);
      if last.href.Some? then prev + [last.href.value] else prev
  }

  /** The anchor carries an `href` attribute. */
  predicate HasHref(a: Anchor) {
    a.href.Some?
  }

  /** The hrefs are those of `find_all("a", href=True)`, one per anchor that
      has the attribute, in document order. */
  lemma {:induction false} HrefsFiltered(anchors: seq<Anchor>)
    ensures var f := Filter(HasHref, anchors);
      |Hrefs(anchors)| == |f| && forall j :: 0 <= j < |f| ==> f[j].href == Some(Hrefs(anchors)[j])
    decreases |anchors|
  {
    if anchors != [] {
      var prev, last := anchors[..|anchors| - 1], anchors[|anchors| - 1];
      HrefsFiltered(prev);
      assert anchors == prev + [last];
      FilterSnoc(HasHref, prev, last);
    }
  }

  /** Every href comes from an anchor that carries it. */
  lemma HrefsFromAnchors(anchors: seq<Anchor>)
    ensures forall h :: h in Hrefs(anchors) ==> exists a :: a in anchors && a.href == Some(h)
  {
    var f := Filter(HasHref, anchors);
    HrefsFiltered(anchors);
    forall h | h in Hrefs(anchors)
      ensures exists a :: a in anchors && a.href == Some(h)
    {
      var j :| 0 <= j < |Hrefs(anchors)| && Hrefs(anchors)[j] == h;
      assert f[j] in f;
    }
  }
}
