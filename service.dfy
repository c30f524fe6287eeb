/** service.py: the insight record of one brand, competitor discovery from
    the home page's outbound links, and the batch over a store and its
    competitors. */
module Service {
  import opened Wrappers
  import opened Text
  import opened Seqs
  import opened Fetch
  import opened Sections
  import opened Socials
  import opened Faqs
  import opened Products
  import opened Links

  // ---------------- Insights of one brand ----------------

  /** The record `fetch_brand_insights` builds: the raw input URL as the
      brand name and the eight sections. */
  datatype BrandInsights = BrandInsights(
    brandName: string,
    about: string,
    policies: map<string, string>,
    contactDetails: ContactDetails,
    socialHandles: map<string, string>,
    faqs: seq<Faq>,
    products: seq<Product>,
    heroProducts: seq<Card>,
    importantLinks: seq<string>)

  /** `fetch_brand_insights`, as a value. The sections are computed in the
      order of the dictionary literal; only the three that join product or
      link URLs outside a `try` can raise, and the first that does is the
      exception of the whole call. */
  function Insights(w: Web, base: string): Result<BrandInsights> {
    var products :- ProductsOf(w, base);
    var hero :- HeroProducts(w, base);
    var links :- LinksOf(w, base);
    Ok(BrandInsights(base, About(w, base), Policies(w, base), Contact(w, base), Socials.Socials(w, base),
                     Faqs.Faqs(w, base), products, hero, links))
  }

  /** `fetch_brand_insights`: calls each extractor in turn. */
  method FetchBrandInsights(w: Web, base: string) returns (r: Result<BrandInsights>)
    ensures r == Insights(w, base)
  {
    var about := ExtractAbout(w, base);
    var policies := ExtractPolicies(w, base);
    var contact := Contact(w, base);
    var socials := ExtractSocials(w, base);
    var faqs := ExtractFaqs(w, base);
    var products :- ExtractProducts(w, base);
    var hero :- ExtractHeroProducts(w, base);
    var links :- ExtractLinks(w, base);
    return Ok(BrandInsights(base, about, policies, contact, socials, faqs, products, hero, links));
  }

  /** The shape of a successful record: the brand name is the input as
      given, not normalised; the about text is never empty; the policies
      have exactly the four policy keys and the social handles exactly the
      five platform keys; at most 20 hero products and 30 links, each set
      of URLs without repeats; and products from the catalog scan carry no
      price. */
  lemma InsightsShape(w: Web, base: string)
    requires Insights(w, base).Ok?
    ensures var r := Insights(w, base).value;
      && r.brandName == base
      && r.about != ""
      && r.policies.Keys == PolicyKeys
      && r.socialHandles.Keys == PlatformKeys
      && |r.heroProducts| <= HeroCap
      && DistinctUrls(r.heroProducts)
      && |r.importantLinks| <= LinkCap && Distinct(r.importantLinks)
      && (JsonProducts(w, base) == [] ==> forall p :: p in r.products ==> p.price == NoPrice)
  {
    AboutFirstCandidate(w, base);
    var b := NormalizeUrl(base);
    var home := FetchPage(w, b, "");
    if home.Some? {
      ScanBounded(w, b, home.value.anchors, HeroCap);
      ScanDistinct(w, b, home.value.anchors, Some(HeroCap));
    }
    ImportantLinksProps(HomeLinks(w, base).value);
  }

  /** When joining never raises, building the record never raises. */
  lemma InsightsTotal(w: Web, base: string)
    requires JoinTotal(w)
    ensures Insights(w, base).Ok?
  {
    var b := NormalizeUrl(base);
    var catalog := FetchPage(w, b, CatalogPath);
    if catalog.Some? {
      ScanTotal(w, b, catalog.value.anchors, None);
    }
    var home := FetchPage(w, b, "");
    if home.Some? {
      ScanTotal(w, b, home.value.anchors, Some(HeroCap));
    }
    LinksCases(w, base);
  }

  /** A site that answers nothing still gives a record, not an exception:
      every section takes its default. */
  lemma InsightsUnreachable(w: Web, base: string)
    requires w.pages == map[] && w.feeds == map[]
    ensures Insights(w, base).Ok?
    ensures var r := Insights(w, base).value;
      && r.brandName == base
      && r.about == NoAbout
      && (forall k :: k in r.policies ==> r.policies[k] == NotAvailable)
      && r.contactDetails == ContactDetails([], [], "")
      && r.socialHandles == NoSocials
      && r.faqs == [] && r.products == [] && r.heroProducts == [] && r.importantLinks == []
  {
    UnreachableLists(w, base);
    UnreachableTexts(w, base);
    UnreachablePolicies(w, base);
    assert Insights(w, base) == Ok(BrandInsights(base, NoAbout, Policies(w, base), ContactDetails([], [], ""),
                                                 NoSocials, [], [], [], []));
  }

  /** Without pages or feeds the three sections that could raise give no
      entries instead. */
  lemma UnreachableLists(w: Web, base: string)
    requires w.pages == map[] && w.feeds == map[]
    ensures ProductsOf(w, base) == Ok([]) && HeroProducts(w, base) == Ok([]) && LinksOf(w, base) == Ok([])
  {
    LinksCases(w, base);
  }

  /** Without pages the text sections take their defaults. */
  lemma UnreachableTexts(w: Web, base: string)
    requires w.pages == map[]
    ensures About(w, base) == NoAbout
    ensures Contact(w, base) == ContactDetails([], [], "")
    ensures Socials.Socials(w, base) == NoSocials
    ensures Faqs.Faqs(w, base) == []
  {
    AboutFirstCandidate(w, base);
    FetchNormalized(w, base, "");
  }

  /** Without pages every policy is "Not available". */
  lemma UnreachablePolicies(w: Web, base: string)
    requires w.pages == map[]
    ensures forall k :: k in Policies(w, base) ==> Policies(w, base)[k] == NotAvailable
  {
    var out := Policies(w, base);
    forall k | k in out
      ensures out[k] == NotAvailable
    {
      assert k in PolicyKeys;
      assert exists i :: 0 <= i < |PolicyPaths| && PolicyPaths[i].0 == k by {
        assert PolicyPaths[0].0 == "privacy_policy" && PolicyPaths[1].0 == "refund_policy";
        assert PolicyPaths[2].0 == "shipping_policy" && PolicyPaths[3].0 == "terms_of_service";
      }
    }
  }

  // ---------------- Competitor discovery ----------------

  /** The static competitor map. */
  const CompetitorMap: map<string, seq<string>> :=
    map["memy.co.in" := ["hairoriginals.com", "thelabelelement.com"]]

  /** The default discovery limit. */
  const DiscoverLimit: int := 5

  /** The naive store test: a `myshopify.com` host, or one that the regular
      expression `\.com$` finds, whose `$` matches at the end and also just
      before a final newline. */
  predicate LooksLikeStore(domain: string) {
    Contains(domain, "myshopify.com") || EndsWith(domain, ".com") || EndsWith(domain, ".com\n")
  }

  /** The state of the discovery loop: the domains found so far and whether
      the loop has hit its `break`. */
  datatype Discovery = Discovery(found: seq<string>, stopped: bool)

  /** The body of the discovery loop for one `href`. A reference that does
      not start with "http" and a host that contains the raw base URL are
      skipped with `continue`; any other host is recorded when it looks
      like a store and is new, and then the limit is checked. */
  function DiscoverStep(w: Web, base: string, limit: int, d: Discovery, href: string): Result<Discovery> {
    if !StartsWith(href, "http") then Ok(d)
    else
      match w.netloc(href)
      case Raised(e) => Raised(e)
      case Ok(host) =>
        var domain := Lower(host);
        if Contains(domain, base) then Ok(d)
        else
          var found := if LooksLikeStore(domain) && domain !in d.found then d.found + [domain] else d.found;
          Ok(Discovery(found, |found| >= limit))
  }

  /** The discovery loop over `hrefs`, in order, until it breaks or a host
      cannot be parsed. */
  function DiscoverScan(w: Web, base: string, limit: int, hrefs: seq<string>): Result<Discovery>
    decreases |hrefs|
  {
    if hrefs == [] then Ok(Discovery([], false))
    else
      match DiscoverScan(w, base, limit, hrefs[..|hrefs| - 1])
      case Raised(e) => Raised(e)
      case Ok(d) => if d.stopped then Ok(d) else DiscoverStep(w, base, limit, d, hrefs[|hrefs| - 1])
  }

  /** `discover_competitors`, as a value: nothing when the home page is
      absent. */
  function Discover(w: Web, base: string, limit: int): Result<seq<string>> {
    match FetchPage(w, base, "")
    case None => Ok([])
    case Some(doc) =>
      match DiscoverScan(w, base, limit, Hrefs(doc.anchors))
      case Raised(e) => Raised(e)
      case Ok(d) => Ok(d.found)
  }

  /** `discover_competitors`: one pass over the home page's references with
      `continue` and `break`. */
  method DiscoverCompetitors(w: Web, base: string, limit: int) returns (r: Result<seq<string>>)
    ensures r == Discover(w, base, limit)
  {
    var discovered: seq<string> := [];
    var soup := FetchPage(w, base, "");
    if soup.None? {
      return Ok(discovered);
    }
    var hrefs := Hrefs(soup.value.anchors);
    var i := 0;
    while i < |hrefs|
      invariant 0 <= i <= |hrefs|
      invariant DiscoverScan(w, base, limit, hrefs[..i]) == Ok(Discovery(discovered, false))
    {
      assert hrefs[..i + 1][..i] == hrefs[..i];
      var href := hrefs[i];
      i := i + 1;
      if !StartsWith(href, "http") {
        continue;
      }
      var host := w.netloc(href);
      if host.Raised? {
        DiscoverSettled(w, base, limit, hrefs, i);
        return Raised(host.error);
      }
      var domain := Lower(host.value);
      if Contains(domain, base) {
        continue;
      }
      if LooksLikeStore(domain) {
        if domain !in discovered {
          discovered := discovered + [domain];
        }
      }
      if |discovered| >= limit {
        DiscoverSettled(w, base, limit, hrefs, i);
        break;
      }
    }
    if i == |hrefs| {
      assert hrefs[..i] == hrefs;
    }
    return Ok(discovered);
  }

  /** Once the loop has broken off or raised, later references are never
      looked at: their hosts are not even parsed. */
  lemma {:induction false} DiscoverSettled(w: Web, base: string, limit: int, hrefs: seq<string>, n: nat)
    requires n <= |hrefs|
    requires DiscoverScan(w, base, limit, hrefs[..n]).Raised? || DiscoverScan(w, base, limit, hrefs[..n]).value.stopped
    ensures DiscoverScan(w, base, limit, hrefs) == DiscoverScan(w, base, limit, hrefs[..n])
    decreases |hrefs|
  {
    if n < |hrefs| {
      var prev := hrefs[..|hrefs| - 1];
      assert prev[..n] == hrefs[..n];
      DiscoverSettled(w, base, limit, prev, n);
    } else {
      assert hrefs[..n] == hrefs;
    }
  }

  /** The least size at which the loop breaks: the limit, but at least one
      domain must be recorded or a non-store host met first. */
  function Bound(limit: int): nat {
    if limit >= 1 then limit else 1
  }

  /** Every discovered domain is the lowercased host of an "http" reference
      of the page, does not contain the raw base URL, looks like a store,
      and occurs once. The loop breaks exactly when the limit is reached,
      and the result never exceeds the limit (or one domain, for a limit
      below one). */
  lemma {:induction false} DiscoverSound(w: Web, base: string, limit: int, hrefs: seq<string>)
    requires DiscoverScan(w, base, limit, hrefs).Ok?
    ensures var d := DiscoverScan(w, base, limit, hrefs).value;
      && Distinct(d.found)
      && (forall x :: x in d.found ==>
            (!Contains(x, base) && LooksLikeStore(x)
             && exists h, host :: h in hrefs && StartsWith(h, "http") && w.netloc(h) == Ok(host) && x == Lower(host)))
      && |d.found| <= Bound(limit)
      && (!d.stopped ==> |d.found| < Bound(limit))
      && (limit >= 1 ==> (d.stopped <==> |d.found| >= limit))
    decreases |hrefs|
  {
    if hrefs != [] {
      var prev := hrefs[..|hrefs| - 1];
      DiscoverSound(w, base, limit, prev);
      assert forall h :: h in prev ==> h in hrefs;
    }
  }

  /** The lowercased host of a reference whose host parses. */
  function DomainOf(w: Web, h: string): string
    requires w.netloc(h).Ok?
  {
    Lower(w.netloc(h).value)
  }

  /** A reference the loop records, unless its domain is already there: it
      starts with "http", its host parses, does not contain the raw base
      URL and looks like a store. */
  predicate Qualifies(w: Web, base: string, h: string) {
    && StartsWith(h, "http") && w.netloc(h).Ok?
    && !Contains(DomainOf(w, h), base) && LooksLikeStore(DomainOf(w, h))
  }

  /** The domains of the qualifying references of `hrefs`, in order and
      with repeats. */
  function Domains(w: Web, base: string, hrefs: seq<string>): seq<string>
    decreases |hrefs|
  {
    if hrefs == [] then []
    else
      var last := hrefs[|hrefs| - 1];
      Domains(w, base, hrefs[..|hrefs| - 1]) + (if Qualifies(w, base, last) then [DomainOf(w, last)] else [])
  }

  /** A qualifying reference contributes its domain. */
  lemma {:induction false} DomainsHas(w: Web, base: string, hrefs: seq<string>, j: nat)
    requires j < |hrefs| && Qualifies(w, base, hrefs[j])
    ensures DomainOf(w, hrefs[j]) in Domains(w, base, hrefs)
    decreases |hrefs|
  {
    var prev := hrefs[..|hrefs| - 1];
    if j < |prev| {
      assert prev[j] == hrefs[j];
      DomainsHas(w, base, prev, j);
    }
  }

  /** As long as the loop has not broken off before the last reference,
      what it has found is exactly the qualifying domains, each once, in
      the order they were first met. */
  lemma {:induction false} DiscoverDedup(w: Web, base: string, limit: int, hrefs: seq<string>)
    requires DiscoverScan(w, base, limit, hrefs).Ok?
    requires hrefs != [] ==>
      var before := DiscoverScan(w, base, limit, hrefs[..|hrefs| - 1]);
      before.Ok? && !before.value.stopped
    ensures DiscoverScan(w, base, limit, hrefs).value.found == Dedup(Domains(w, base, hrefs))
    decreases |hrefs|
  {
    if hrefs != [] {
      var prev, last := hrefs[..|hrefs| - 1], hrefs[|hrefs| - 1];
      DiscoverDedup(w, base, limit, prev);
      var d := DiscoverScan(w, base, limit, prev).value;
      assert DiscoverScan(w, base, limit, hrefs) == DiscoverStep(w, base, limit, d, last);
      var ds := Domains(w, base, hrefs);
      assert ds == Domains(w, base, prev) + (if Qualifies(w, base, last) then [DomainOf(w, last)] else []);
      if Qualifies(w, base, last) {
        var x := DomainOf(w, last);
        assert ds[..|ds| - 1] == Domains(w, base, prev) && ds[|ds| - 1] == x;
        assert DiscoverStep(w, base, limit, d, last).value.found == if x in d.found then d.found else d.found + [x];
      } else {
        assert DiscoverStep(w, base, limit, d, last).value.found == d.found;
        assert ds == Domains(w, base, prev);
      }
    }
  }

  /** Completeness of discovery: the loop reads the references up to some
      point (all of them, unless it broke off) and finds exactly the
      qualifying domains among them, each once, in first-seen order. */
  lemma {:induction false} DiscoverComplete(w: Web, base: string, limit: int, hrefs: seq<string>)
    requires DiscoverScan(w, base, limit, hrefs).Ok?
    ensures exists m :: (0 <= m <= |hrefs|
      && DiscoverScan(w, base, limit, hrefs).value.found == Dedup(Domains(w, base, hrefs[..m]))
      && (m < |hrefs| ==> DiscoverScan(w, base, limit, hrefs).value.stopped))
    decreases |hrefs|
  {
    if hrefs == [] {
      assert hrefs[..0] == [];
    } else {
      var prev := hrefs[..|hrefs| - 1];
      var before := DiscoverScan(w, base, limit, prev);
      if before.Ok? && before.value.stopped {
        DiscoverComplete(w, base, limit, prev);
        var m :| 0 <= m <= |prev|
          && before.value.found == Dedup(Domains(w, base, prev[..m]))
          && (m < |prev| ==> before.value.stopped);
        assert prev[..m] == hrefs[..m];
      } else {
        DiscoverDedup(w, base, limit, hrefs);
        assert hrefs[..|hrefs|] == hrefs;
      }
    }
  }

  /** A loop that never broke off has recorded the domain of every
      qualifying reference. */
  lemma DiscoverFindsAll(w: Web, base: string, limit: int, hrefs: seq<string>, j: nat)
    requires DiscoverScan(w, base, limit, hrefs).Ok? && !DiscoverScan(w, base, limit, hrefs).value.stopped
    requires j < |hrefs| && Qualifies(w, base, hrefs[j])
    ensures DomainOf(w, hrefs[j]) in DiscoverScan(w, base, limit, hrefs).value.found
  {
    DiscoverComplete(w, base, limit, hrefs);
    var m :| 0 <= m <= |hrefs|
      && DiscoverScan(w, base, limit, hrefs).value.found == Dedup(Domains(w, base, hrefs[..m]))
      && (m < |hrefs| ==> DiscoverScan(w, base, limit, hrefs).value.stopped);
    assert hrefs[..m] == hrefs;
    DomainsHas(w, base, hrefs, j);
  }

  /** A loop that never broke off lists the domains in the order they
      first qualified. */
  lemma DiscoverFirstSeen(w: Web, base: string, limit: int, hrefs: seq<string>, i: nat, j: nat)
    requires DiscoverScan(w, base, limit, hrefs).Ok? && !DiscoverScan(w, base, limit, hrefs).value.stopped
    requires i < j < |DiscoverScan(w, base, limit, hrefs).value.found|
    ensures var found, ds := DiscoverScan(w, base, limit, hrefs).value.found, Domains(w, base, hrefs);
      found[i] in ds && found[j] in ds && FirstIndex(ds, found[i]) < FirstIndex(ds, found[j])
  {
    DiscoverComplete(w, base, limit, hrefs);
    var m :| 0 <= m <= |hrefs|
      && DiscoverScan(w, base, limit, hrefs).value.found == Dedup(Domains(w, base, hrefs[..m]))
      && (m < |hrefs| ==> DiscoverScan(w, base, limit, hrefs).value.stopped);
    assert hrefs[..m] == hrefs;
    DedupOrder(Domains(w, base, hrefs), i, j);
  }

  /** Discovery from an absent home page finds nothing. */
  lemma DiscoverAbsent(w: Web, base: string, limit: int)
    requires FetchPage(w, base, "").None?
    ensures Discover(w, base, limit) == Ok([])
  {
  }

  /** The host test is a substring test against the raw base URL: a store
      given with its scheme never excludes its own host, which has none. */
  lemma SelfNotExcludedWithScheme(w: Web)
    requires w.netloc("https://shop.com/") == Ok("shop.com")
    ensures DiscoverStep(w, "https://shop.com", 5, Discovery([], false), "https://shop.com/")
         == Ok(Discovery(["shop.com"], false))
  {
    assert StartsWith("https://shop.com/", "http");
    assert Lower("shop.com") == "shop.com";
    assert !Contains("shop.com", "https://shop.com");
    assert LooksLikeStore("shop.com");
    var found: seq<string> := [];
    assert found + ["shop.com"] == ["shop.com"];
  }

  // ---------------- The competitor batch ----------------

  /** The sites of the batch: the store first, then its mapped competitors
      if it has an entry in the static map, else the discovered ones. Only
      discovery can raise, and it is outside the per-site `try`. */
  function Sites(w: Web, base: string): (r: Result<seq<string>>)
    ensures base in CompetitorMap ==> r == Ok([base] + CompetitorMap[base])
    ensures base !in CompetitorMap ==>
      ((r.Ok? <==> Discover(w, base, DiscoverLimit).Ok?)
       && (r.Ok? ==> r.value == [base] + Discover(w, base, DiscoverLimit).value))
  {
    if base in CompetitorMap then Ok([base] + CompetitorMap[base])
    else
      var found :- Discover(w, base, DiscoverLimit);
      Ok([base] + found)
  }

  /** One entry of the batch: the full record, or the brand name with the
      exception's message. */
  datatype SiteRecord = Record(insights: BrandInsights) | ErrorRecord(brandName: string, error: string)

  function NameOf(rec: SiteRecord): string {
    match rec
    case Record(r) => r.brandName
    case ErrorRecord(name, _) => name
  }

  /** The `try`/`except` around one site: the record it built, or the
      site's name with the message of the exception it raised. */
  function RecordOf(site: string, built: Result<BrandInsights>): (rec: SiteRecord)
    ensures NameOf(rec) == site || built.Ok?
    ensures rec.Record? <==> built.Ok?
    ensures rec.Record? ==> rec.insights == built.value
    ensures rec.ErrorRecord? ==> rec.brandName == site && rec.error == built.error
  {
    match built
    case Ok(r) => Record(r)
    case Raised(e) => ErrorRecord(site, e)
  }

  /** The records of the per-site loop: record `i` is the outcome of
      building site `i`. */
  function Records(w: Web, sites: seq<string>): (recs: seq<SiteRecord>)
    ensures |recs| == |sites|
  {
    seq(|sites|, i requires 0 <= i < |sites| => RecordOf(sites[i], Insights(w, sites[i])))
  }

  /** `fetch_competitors`, as a value. */
  function Competitors(w: Web, base: string): Result<seq<SiteRecord>> {
    var sites :- Sites(w, base);
    Ok(Records(w, sites))
  }

  /** The body of the per-site loop: `fetch_brand_insights` inside its
      `try`/`except`. */
  method TrySite(w: Web, site: string) returns (rec: SiteRecord)
    ensures rec == RecordOf(site, Insights(w, site))
  {
    var built := FetchBrandInsights(w, site);
    if built.Ok? {
      rec := Record(built.value);
    } else {
      rec := ErrorRecord(site, built.error);
    }
  }

  /** `fetch_competitors`: builds the site list, then one record per site. */
  method FetchCompetitors(w: Web, base: string) returns (r: Result<seq<SiteRecord>>)
    ensures r == Competitors(w, base)
  {
    var sites :- SiteList(w, base);
    var results := BuildRecords(w, sites);
    return Ok(results);
  }

  /** The first half of `fetch_competitors`: the store followed by its map
      entry or, failing that, the discovered domains. */
  method SiteList(w: Web, base: string) returns (r: Result<seq<string>>)
    ensures r == Sites(w, base)
  {
    if base in CompetitorMap {
      return Ok([base] + CompetitorMap[base]);
    }
    var dynamicSites :- DiscoverCompetitors(w, base, DiscoverLimit);
    return Ok([base] + dynamicSites);
  }

  /** The per-site loop of `fetch_competitors`. */
  method BuildRecords(w: Web, sites: seq<string>) returns (results: seq<SiteRecord>)
    ensures results == Records(w, sites)
  {
    results := [];
    for i := 0 to |sites|
      invariant |results| == i
      invariant forall j :: 0 <= j < i ==> results[j] == RecordOf(sites[j], Insights(w, sites[j]))
    {
      var rec := TrySite(w, sites[i]);
      results := results + [rec];
    }
  }

  /** A built record carries the site it was built for as its name. */
  lemma InsightsName(w: Web, site: string)
    ensures Insights(w, site).Ok? ==> Insights(w, site).value.brandName == site
  {
  }

  /** The batch holds exactly one record per site, in site order, starting
      with the store itself; record `i` carries the name `sites[i]` and is
      the full record exactly when building it did not raise, else the
      exception's message. The whole batch raises only when the store has
      no map entry and discovery raised. */
  lemma CompetitorsShape(w: Web, base: string)
    ensures Competitors(w, base).Raised? <==> base !in CompetitorMap && Discover(w, base, DiscoverLimit).Raised?
    ensures Competitors(w, base).Ok? ==>
      var sites := Sites(w, base).value;
      var recs := Competitors(w, base).value;
      && |recs| == |sites| && sites[0] == base
      && forall i :: 0 <= i < |sites| ==>
           recs[i] == RecordOf(sites[i], Insights(w, sites[i])) && NameOf(recs[i]) == sites[i]
  {
    if Competitors(w, base).Ok? {
      var sites := Sites(w, base).value;
      var recs := Competitors(w, base).value;
      forall i | 0 <= i < |sites|
        ensures recs[i] == RecordOf(sites[i], Insights(w, sites[i])) && NameOf(recs[i]) == sites[i]
      {
        InsightsName(w, sites[i]);
      }
    }
  }
}
