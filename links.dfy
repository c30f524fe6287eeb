/** The important-links extractor of scraper.py: the home page's links,
    joined to absolute URLs, kept when they mention one of a fixed set of
    keywords, de-duplicated and capped at thirty. */
module Links {
  import opened Wrappers
  import opened Text
  import opened Seqs
  import opened Fetch

  const LinkKeywords: seq<string> := ["order", "contact", "blog", "faq", "about", "shipping", "refund"]
  const LinkCap: nat := 30

  /** A link is important when its lowercased form contains a keyword. */
  predicate IsImportant(u: string) {
    exists k | k in LinkKeywords :: Contains(Lower(u), k)
  }

  /** `_abs` against a fixed base, as a function value for the join loop. */
  function Joiner(w: Web, base: string): string -> Result<string> {
    href => Abs(w, base, href)
  }

  /** The absolute links of the home page: none when it is absent. */
  function HomeLinks(w: Web, base: string): Result<seq<string>> {
    var b := NormalizeUrl(base);
    match FetchPage(w, b, "")
    case None => Ok([])
    case Some(doc) => MapAll(Joiner(w, b), Hrefs(doc.anchors))
  }

  /** The three list passes over the links: keep the important ones, drop
      repeats keeping the first, cap at thirty. */
  function ImportantLinks(links: seq<string>): seq<string> {
    Take(Dedup(Filter(IsImportant, links)), LinkCap)
  }

  /** `extract_links`, as a value. */
  function LinksOf(w: Web, base: string): Result<seq<string>> {
    match HomeLinks(w, base)
    case Raised(e) => Raised(e)
    case Ok(links) => Ok(ImportantLinks(links))
  }

  /** `extract_links`: collects the joined links, then filters, then
      de-duplicates, then slices. */
  method ExtractLinks(w: Web, base: string) returns (r: Result<seq<string>>)
    ensures r == LinksOf(w, base)
  {
    var links :- CollectLinks(w, base);
    var dedup := SelectImportant(links);
    return Ok(if |dedup| <= LinkCap then dedup else dedup[..LinkCap]);
  }

  /** The first loop of `extract_links`: every href of the home page joined
      to the base. */
  method CollectLinks(w: Web, base: string) returns (r: Result<seq<string>>)
    ensures r == HomeLinks(w, base)
  {
    var b := NormalizeUrl(base);
    var soup := FetchPage(w, b, "");
    var links: seq<string> := [];
    if soup.Some? {
      var hrefs := Hrefs(soup.value.anchors);
      for i := 0 to |hrefs|
        invariant MapAll(Joiner(w, b), hrefs[..i]) == Ok(links)
      {
        assert hrefs[..i + 1][..i] == hrefs[..i];
        var u := Abs(w, b, hrefs[i]);
        assert Joiner(w, b)(hrefs[i]) == u;
        if u.Raised? {
          MapAllSettled(Joiner(w, b), hrefs, i + 1);
          return Raised(u.error);
        }
        links := links + [u.value];
      }
      assert hrefs[..|hrefs|] == hrefs;
    }
    return Ok(links);
  }

  /** The keyword filter and the de-duplication loops of `extract_links`. */
  method SelectImportant(links: seq<string>) returns (dedup: seq<string>)
    ensures dedup == Dedup(Filter(IsImportant, links))
  {
    var wanted: seq<string> := [];
    for i := 0 to |links|
      invariant wanted == Filter(IsImportant, links[..i])
    {
      FilterSnoc(IsImportant, links[..i], links[i]);
      assert links[..i + 1] == links[..i] + [links[i]];
      var lo := Lower(links[i]);
      if exists k | k in LinkKeywords :: Contains(lo, k) {
        wanted := wanted + [links[i]];
      }
    }
    assert links[..|links|] == links;
    dedup := [];
    var seen: set<string> := {};
    for i := 0 to |wanted|
      invariant dedup == Dedup(wanted[..i])
      invariant seen == set x | x in dedup
    {
      assert wanted[..i + 1][..i] == wanted[..i];
      var u := wanted[i];
      if u !in seen {
        dedup := dedup + [u];
        seen := seen + {u};
      }
    }
    assert wanted[..|wanted|] == wanted;
  }

  // ---------------- Properties ----------------

  /** The important links are at most thirty, pairwise distinct, each of
      them an important link of the input, and every important link of the
      input is among them unless the cap was reached; they keep the order in
      which each was first seen, and an important link left out was first
      seen after every one kept: they are the first thirty. */
  lemma ImportantLinksProps(links: seq<string>)
    ensures var out := ImportantLinks(links);
      && |out| <= LinkCap
      && Distinct(out)
      && (forall u :: u in out ==> u in links && IsImportant(u))
      && (|out| < LinkCap ==> forall u :: u in links && IsImportant(u) ==> u in out)
      && (forall i, j :: 0 <= i < j < |out| ==> FirstIndex(links, out[i]) < FirstIndex(links, out[j]))
      && (forall u :: u in links && IsImportant(u) && u !in out ==>
            |out| == LinkCap && forall v :: v in out ==> FirstIndex(links, v) < FirstIndex(links, u))
  {
    var wanted := Filter(IsImportant, links);
    var d := Dedup(wanted);
    var out := ImportantLinks(links);
    FilterMembers(IsImportant, links);
    assert forall i :: 0 <= i < |out| ==> out[i] == d[i];
    forall u | u in out ensures u in d {
      var i :| 0 <= i < |out| && out[i] == u;
    }
    if |out| < LinkCap {
      assert out == d;
    }
    forall i, j | 0 <= i < j < |out|
      ensures FirstIndex(links, out[i]) < FirstIndex(links, out[j])
    {
      DedupOrder(wanted, i, j);
      FilterFirstIndex(IsImportant, links, out[i], out[j]);
    }
    forall u | u in links && IsImportant(u) && u !in out
      ensures |out| == LinkCap && forall v :: v in out ==> FirstIndex(links, v) < FirstIndex(links, u)
    {
      assert u in d;
      var k :| 0 <= k < |d| && d[k] == u;
      assert k >= |out|;
      forall v | v in out ensures FirstIndex(links, v) < FirstIndex(links, u) {
        var i :| 0 <= i < |out| && out[i] == v;
        DedupOrder(wanted, i, k);
        FilterFirstIndex(IsImportant, links, v, u);
      }
    }
  }

  /** Absent home page: no links. A page whose joins all succeed yields
      its important links. */
  lemma LinksCases(w: Web, base: string)
    ensures FetchPage(w, base, "").None? ==> LinksOf(w, base) == Ok([])
    ensures (forall x, y :: w.urljoin(x, y).Ok?) ==> LinksOf(w, base).Ok?
  {
    FetchNormalized(w, base, "");
    var b := NormalizeUrl(base);
    if FetchPage(w, b, "").Some? && forall x, y :: w.urljoin(x, y).Ok? {
      var anchors := FetchPage(w, b, "").value.anchors;
      JoinerTotal(w, b);
      MapAllTotal(Joiner(w, b), Hrefs(anchors));
      assert HomeLinks(w, base) == MapAll(Joiner(w, b), Hrefs(anchors));
    }
  }

  /** With a total URL library no single join raises. */
  lemma JoinerTotal(w: Web, base: string)
    requires forall x, y :: w.urljoin(x, y).Ok?
    ensures forall h :: Joiner(w, base)(h).Ok?
  {
    forall h ensures Joiner(w, base)(h).Ok? {
      assert w.urljoin(base, h).Ok?;
    }
  }

  /** The collected links are one per `href` of the home page, each the
      join of its own `href`, in page order. */
  lemma HomeLinksEach(w: Web, base: string)
    requires HomeLinks(w, base).Ok?
    ensures var b := NormalizeUrl(base);
      var links := HomeLinks(w, base).value;
      match FetchPage(w, b, "")
      case None => links == []
      case Some(doc) =>
        |links| == |Hrefs(doc.anchors)|
        && forall i :: 0 <= i < |links| ==> Abs(w, b, Hrefs(doc.anchors)[i]) == Ok(links[i])
  {
    var b := NormalizeUrl(base);
    match FetchPage(w, b, "")
    case None =>
    case Some(doc) =>
      var hrefs := Hrefs(doc.anchors);
      MapAllEach(Joiner(w, b), hrefs);
      forall i | 0 <= i < |hrefs| ensures Joiner(w, b)(hrefs[i]) == Abs(w, b, hrefs[i]) {
      }
  }
}
