# Shopify store insights scraper — a Dafny model

This project models the extraction core of a scraper for Shopify
storefronts. Given a store URL, the scraper fetches a few fixed pages and
builds a brand-insights record. The record holds:

- the about text;
- four policy excerpts;
- contact details (emails, phone numbers, an address excerpt);
- five social-media links;
- FAQ pairs;
- the product catalog, taken from the store's `products.json` feed or else
  scanned from `collections/all`;
- up to 20 hero products from the home page;
- up to 30 important links.

The service layer builds one such record per brand. It can also run a
batch over a store and its competitors, taken from a static map or
discovered from the home page's outbound links.

How the model is built:

- The network and the HTML parser are replaced by a `Web` value
  (`fetch.dfy`):
  - `pages` maps URLs that answer 200 to a parsed page (`Doc`);
  - `feeds` maps URLs whose product feed answers 200 to its items;
  - `urljoin` and `netloc` are uninterpreted functions that may raise
    (`Result.Raised`), like `urllib.parse` does on malformed URLs.
- A `Doc` keeps only what the extractors read: the cleaned paragraphs, the
  visible text, the anchors (href, title, text, image) and the question
  nodes with their next siblings.
- Exceptions are `Result` values. Only URL joins outside a `try` can
  escape an extractor: the catalog and hero scans, and the important
  links. `fetch_page` and the feed swallow theirs: the feed's item loop
  runs inside the feed's `try`, so a join that raises there gives no
  feed products at all. Host parsing
  in competitor discovery can also raise, and it aborts the whole batch,
  because discovery runs outside the per-site `try`.
- Each loop of the source is a Dafny method with loop invariants. Each is
  proved equal to a specification function (`ensures r == Spec(...)`),
  mostly one defined by recursion on the prefix the loop has consumed.
  The two loops that map a list and stop at the first exception (the feed
  items and the link joins) share one such function, `Wrappers.MapAll`.
  The properties the source promises are lemmas about these functions.

Behaviour modelled as written, which the lemmas make visible:

- Policies: the paragraphs are joined *without* dropping empty ones, so a
  page with two empty paragraphs yields `" ..."` rather than
  `"Not available"` (`Sections.PolicyValueCases`).
- FAQs: a question without a sibling adds no answer, so every later
  question is paired with the next question's answer
  (`Faqs.MissingSiblingShiftsAnswers`).
- Socials: the twitter test `"x.com" in h` also matches hosts such as
  `box.com`. A link reaches branch `k` only when no earlier branch both
  matches its marker and still has an empty slot; a link carrying an
  earlier platform's marker whose slot is already set falls through to
  the later branches (`Socials.TakeStep`, `Socials.FirstMatchWins`).
- Discovery, self-exclusion: it tests whether the host contains the *raw*
  base URL. A base given with a scheme therefore never excludes its own
  host (`Service.SelfNotExcludedWithScheme`).
- Discovery, limit: the limit is checked after the store test, so a limit
  below one still lets one domain through.
- Discovery, store test: the `$` of the regular expression `\.com$`
  matches at the end of the host and also just before a final newline,
  so a host ending ".com" followed by a newline counts as a store
  (`Service.LooksLikeStore`).
- Prices: the code converts the whole list of variant prices inside one
  `try`, so a single unparsable price voids the price. Variants priced
  19.99, a falsy value, 15.50 and `"abc"` give `""`
  (`Products.UnparsableVoidsPrice`). A truthy price string that parses to
  zero is not skipped, and takes part in the minimum
  (`Products.ZeroPriceCounts`).

## Model

| member | source | states |
|---|---|---|
| Wrappers.MapAll | scraper.py:146-167 | a loop that maps each element and stops at the first exception gives, when nothing raised, one result per element |
| Wrappers.MapAllEach | scraper.py:146-167 | when nothing raised, result `i` is the mapping of element `i` |
| Wrappers.MapAllSettled | scraper.py:169-171 | once an element raised, the whole loop raises with that exception |
| Wrappers.MapAllTotal | scraper.py:146-153 | a mapping that never raises makes the loop never raise |
| Fetch.NormalizeUrl | scraper.py:14-17 | the result always has an http(s) scheme; it equals the input exactly when the input already had one, and is "http://" followed by the input otherwise |
| Fetch.NormalizeKeepsInput | scraper.py:14-17 | normalising only adds in front: the input is a suffix of the result |
| Fetch.NormalizeIdempotent | scraper.py:14-17 | normalising twice is normalising once |
| Fetch.Abs | scraper.py:20-23 | an empty reference gives "" without consulting the URL library, so it cannot raise; any other is the library's join, exception included |
| Fetch.Clean | scraper.py:7-11 | cleaned text is empty for empty input, no longer than the input, and neither starts nor ends with whitespace |
| Fetch.CleanStrips | scraper.py:7-11 | on tag-free text, cleaning removes exactly the surrounding whitespace: the input is a whitespace run, the cleaned text and a whitespace run, in that order |
| Fetch.FetchPage | scraper.py:27-37 | a page is returned exactly when joining the normalised base with the path succeeds and that URL answers; it is that URL's page; a failed join gives no page instead of raising |
| Fetch.FetchNormalized | scraper.py:27-30 | extractors that normalise before calling `fetch_page` fetch the same page as with the raw base |
| Fetch.Hrefs | scraper.py:95-96 | never more hrefs than anchors; `Fetch.HrefsFiltered` pins the list exactly |
| Fetch.HrefsFiltered | scraper.py:95-96 | `find_all("a", href=True)` gives one href per anchor carrying the attribute, in document order: href `j` is that of the `j`-th such anchor |
| Fetch.HrefsFromAnchors | scraper.py:95-96 | every href is carried by one of the anchors |
| Text.Lower | scraper.py:97 | lowercasing keeps the length and maps each character on its own |
| Text.Words | scraper.py:82 | `split()` yields only non-empty words free of whitespace |
| Text.WordsScan | scraper.py:82 | `split()` is the one-pass scan that starts a word at a non-whitespace character, extends it up to the next whitespace and drops whitespace |
| Text.Strip | scraper.py:7-11 | the stripped text is no longer than the input, empty for empty input, and neither starts nor ends with whitespace; `Text.StripSpec` pins it as the input with exactly its two whitespace runs cut off |
| Text.StripSpec | scraper.py:7-11 | `strip()` cuts off exactly the leading and the trailing whitespace run and keeps the middle unchanged |
| Text.Remove | scraper.py:84 | after `replace(c, "")` the character is gone and every other character that occurs still occurs |
| Text.Prefix | scraper.py:69 | `s[:n]` is a prefix of `s`; it is all of `s` when `s` has at most `n` characters, and exactly `n` characters otherwise |
| Text.JoinEmpty | scraper.py:66-69 | a space-join is empty exactly when there are no parts or a single empty part |
| Text.Join | scraper.py:47 | `sep.join(parts)`: the parts with the separator between each two; a plain definition, and `Text.JoinEmpty` states when the result is empty |
| Seqs.Filter | scraper.py:83 | a comprehension's result is no longer than its input, and each kept element is from the input and passes the test |
| Seqs.FilterCount | scraper.py:83-84 | the comprehension keeps each passing element exactly as often as it occurs, and drops every failing one |
| Seqs.FilterMembers | scraper.py:47 | an element is kept exactly when it occurs and passes the test |
| Seqs.FilterFirstIndex | scraper.py:262-266 | filtering keeps the relative order in which elements are first seen |
| Seqs.Dedup | scraper.py:267-272 | the de-duplicated list has no repeats and holds exactly the elements of its input |
| Seqs.DedupOrder | scraper.py:267-272 | de-duplication keeps first-seen order |
| Seqs.DedupPrefix | scraper.py:267-272 | more input only extends the de-duplicated list; what was kept stays in place |
| Seqs.FilterSnoc | scraper.py:262-266 | filtering a list with one more element at the end appends that element exactly when it passes |
| Seqs.Take | scraper.py:273 | the slice has length min(n, len) and agrees with the input position by position |
| Seqs.FirstNonEmpty | scraper.py:43-50 | the result is the first candidate with content (all earlier ones empty), or the fallback when every candidate is empty |
| Sections.AboutTextEmpty | scraper.py:46-48 | a page offers about text exactly when one of its paragraphs is non-empty |
| Sections.AboutText | scraper.py:46-47 | the non-empty paragraphs of one page joined by single spaces; a plain definition, and `Sections.AboutTextEmpty` states when it is empty |
| Sections.About | scraper.py:41-50 | the first candidate with text, else the default; a plain definition, pinned by `Sections.AboutFirstCandidate` and computed by `Sections.ExtractAbout` |
| Sections.AboutFirstCandidate | scraper.py:43-50 | the about text comes from the first candidate path with text, all earlier paths having none, or is "No about info found" when none has text; it is never empty |
| Sections.ExtractAbout | scraper.py:41-50 | the loop with early return computes exactly that first-candidate text |
| Sections.PolicyValueCases | scraper.py:64-71 | a policy is "Not available" exactly when its page is absent, has no paragraph, or has a single empty one; otherwise it is the first 300 characters of the joined paragraphs plus "...", at most 303 characters |
| Sections.PolicyValue | scraper.py:64-71 | the value of one policy page; a plain definition, whose cases `Sections.PolicyValueCases` states |
| Sections.PolicyKeysDistinct | scraper.py:57-62 | the four policy keys are pairwise different |
| Sections.PoliciesUpTo | scraper.py:63-71 | after `n` iterations the dictionary has exactly the first `n` keys, each mapped to its own page's value |
| Sections.Policies | scraper.py:54-72 | the result has exactly the four policy keys, each mapped to the value of its own page |
| Sections.ExtractPolicies | scraper.py:54-72 | the per-key loop builds exactly that dictionary |
| Sections.Contact | scraper.py:76-86 | no contact page gives empty details; every email contains "@" and "."; every phone number is all digits once "+" and "-" are removed; the address has at most 200 characters |
| Sections.IsEmail | scraper.py:83 | a token is an email when it contains both "@" and "."; a plain definition, and `Sections.ContactClassifies` states that exactly these tokens are kept |
| Sections.IsPhone | scraper.py:84 | a token is a phone number when, with every "+" and "-" removed, it is non-empty and all digits (`isdigit` is false on ""); a plain definition, and `Sections.ContactClassifies` states that exactly these tokens are kept |
| Sections.ContactFrom | scraper.py:80-85 | on a present contact page every email passes the email test, every phone number the phone test, and the address has at most 200 characters; `Sections.ContactClassifies` adds that every passing token is kept, in text order |
| Sections.ContactClassifies | scraper.py:82-84 | on a present page, every email-like token of the text appears among the emails exactly as often as in the text (likewise phone-like tokens), in text order |
| Socials.PlatformsDistinct | scraper.py:93 | the five platform names are pairwise distinct and are exactly the dictionary's key set |
| Socials.Mentions | scraper.py:97-106 | the five branch tests on the lowercased link: "facebook.com", "instagram.com", "twitter.com" or "x.com", "youtube.com", "tiktok.com"; a plain definition, whose effect `Socials.SlotOrigin` and `Socials.FirstMatchWins` state |
| Socials.Dict | scraper.py:93 | the dictionary has exactly the five platform keys, platform `k` mapped to slot `k` |
| Socials.DictAt | scraper.py:98-107 | each name the chain looks up reads its own platform's slot |
| Socials.DictUpdate | scraper.py:99-107 | assigning a platform's key is setting that platform's slot, every other key unchanged |
| Socials.Assign | scraper.py:98-107 | one link leaves exactly five slots |
| Socials.SlotsOf | scraper.py:95-107 | the scan keeps exactly five slots, one per platform |
| Socials.Socials | scraper.py:90-108 | exactly the five platform keys; all empty when the home page is absent |
| Socials.AssignChain | scraper.py:98-107 | the recursive chain is the literal five-branch `if`/`elif`, first matching empty slot wins |
| Socials.ExtractSocials | scraper.py:90-108 | the method computes exactly `extract_socials`: the dictionary of the scan's slots, all empty without a home page |
| Socials.ScanSocials | scraper.py:95-107 | the loop that updates the dictionary in place computes exactly the dictionary of the slots of the anchors' hrefs |
| Socials.ScanStep | scraper.py:95-107 | an anchor without an href leaves the slots unchanged; one with an href runs the chain once |
| Socials.AssignKeeps | scraper.py:98-107 | a link never overwrites a slot that is already set |
| Socials.AssignOrigin | scraper.py:98-107 | a slot a link changes now holds that link, and the lowercased link carries that platform's marker |
| Socials.AssignTakes | scraper.py:98-107 | a link takes slot `k` when it carries `k`'s marker, the slot is empty, and no earlier branch both matches it and has an empty slot |
| Socials.AssignSkips | scraper.py:98-107 | a link carrying the marker of an earlier platform whose slot is still empty leaves every later slot alone |
| Socials.TakeStep | scraper.py:98-107 | one link changes slot `k` exactly when it takes it, and then the slot holds that link |
| Socials.SlotKept | scraper.py:95-107 | once set, a slot keeps its value through all later links |
| Socials.TakerWins | scraper.py:95-107 | the link that takes slot `k` is the value the slot ends with |
| Socials.NoTakerEmpty | scraper.py:95-107 | a slot that no link takes stays "" |
| Socials.SlotOrigin | scraper.py:95-107 | every filled slot holds one of the scanned links, in its original case, whose lowercased form carries the platform's marker |
| Socials.FirstMatchWins | scraper.py:95-107 | the first link carrying a platform's marker ends up in that slot, provided no earlier branch takes it (every earlier marker it carries belongs to a slot already set) |
| Socials.SlotEmptyWithoutMarker | scraper.py:95-107 | a platform whose marker no link carries stays "" |
| Faqs.Answers | scraper.py:120-124 | never more answers than questions; `Faqs.AnswersCompact` pins the list exactly: the sibling texts of the questions that have a sibling, in order, and nothing else |
| Faqs.AnswersCompact | scraper.py:120-124 | for every prefix of the questions, there are exactly as many answers as questions with a sibling, and the sibling of question `i` is the answer at the position that counts the earlier questions with a sibling, so a missing sibling shifts every later answer one place forward |
| Faqs.AnswerAt | scraper.py:127 | answer `i` when the compacted list is long enough, "" otherwise; a plain definition, used through `Faqs.PairOfQuestion` |
| Faqs.PairsUpTo | scraper.py:125-129 | at most one pair per question, and every pair has a non-empty question |
| Faqs.PageFaqs | scraper.py:119-129 | one page's pairs, all questions against the compacted answers; a plain definition, pinned by `Faqs.PairOfQuestion`, `Faqs.PairsGrow` and `Faqs.AnswersCompact` and computed by `Faqs.PairQuestions` |
| Faqs.Faqs | scraper.py:112-132 | the FAQs are the pairs of the first candidate path yielding any pair, all earlier paths yielding none, or empty when no path yields a pair |
| Faqs.PairQuestions | scraper.py:119-129 | the two loops over one page's questions compute exactly that page's pairs |
| Faqs.ExtractFaqs | scraper.py:112-132 | the path loop with `continue` and `break` computes exactly the first-candidate FAQs |
| Faqs.PairsGrow | scraper.py:125-129 | pairs only grow as questions are consumed, one pair per question with text |
| Faqs.PairOfQuestion | scraper.py:125-129 | question `i` with text is emitted as the pair at position "number of earlier questions with text", with the `i`-th compacted answer or "" past their end |
| Faqs.AnswersAligned | scraper.py:121-124 | when every question has a sibling, question `i` gets its own sibling's text |
| Faqs.MissingSiblingShiftsAnswers | scraper.py:121-129 | a first question without a sibling takes the second question's answer, and the second gets "" |
| Products.ScanSettled | scraper.py:249-250 | once the scan has raised or reached its cap, later anchors change nothing |
| Products.Priced | scraper.py:201-206 | every catalog entry carries its card's title, URL and image and the empty price |
| Products.CardTitle | scraper.py:191-196 | the cleaned title attribute, or the cleaned visible text when that is empty; a plain definition, and `Products.ScanOrigin` states that each card carries it |
| Products.CardImage | scraper.py:197-200 | "" without an image or without `data-src` and `src`, else the join of `data-src` in preference to `src`; a plain definition, and `Products.ScanOrigin` states that each card carries it |
| Products.IsProductLink | scraper.py:184-186 | an anchor is considered only when its href is present, non-empty and contains "/products/"; a plain definition, and `Products.ScanCovers`, `Products.ScanFirstUrls` and `Products.ScanFirstSeen` state the scan over exactly these anchors |
| Products.ScanStep | scraper.py:184-206 | one iteration of the scan loop; a plain definition, whose cases `Products.StepCases` and `Products.StepDedup` state |
| Products.Scan | scraper.py:183-206 | the scan loop over the anchors, with its cap and its first exception; a plain definition, pinned by `Products.ScanFirstUrls`, `Products.ScanFirstSeen`, `Products.ScanOrigin` and `Products.ScanSettled` |
| Products.HtmlProducts | scraper.py:175-207 | no catalog page gives no products, otherwise the uncapped scan of it, priced ""; a plain definition, computed by `Products.FetchProductsHtml` |
| Products.HeroProducts | scraper.py:218-251 | no home page gives no cards, otherwise the scan of it capped at 20; a plain definition, computed by `Products.ExtractHeroProducts` and bounded by `Service.InsightsShape` |
| Products.FetchProductsHtml | scraper.py:175-207 | the catalog loop with its `seen` set computes exactly the scan of the catalog page (no products when the page is absent; the exception of the first failing join otherwise) |
| Products.ExtractHeroProducts | scraper.py:218-251 | the home-page loop with its break at 20 computes exactly the capped scan of the home page |
| Products.ScanCovers | scraper.py:183-190 | unless the scan raised or hit its cap, every product link it passed has its joined URL among the results |
| Products.StepCases | scraper.py:184-206 | one anchor either leaves the list unchanged or appends the card of a product link whose joined URL is new |
| Products.ScanBounded | scraper.py:244-250 | a capped scan never collects more than its cap |
| Products.ScanDistinct | scraper.py:187-190 | the collected product URLs are pairwise distinct |
| Products.ScanOrigin | scraper.py:187-200 | each card comes from the first product link with its URL, with that anchor's title (title attribute, else text) and image (`data-src` over `src`) |
| Products.StepDedup | scraper.py:183-206 | one anchor's step is one step of de-duplicating the product URLs, adding at most one card |
| Products.ScanFirstUrls | scraper.py:226-250 | the collected URLs are exactly the distinct product URLs of the page in first-seen order, cut at the cap (all for the catalog, twenty for the hero scan) |
| Products.ScanFirstSeen | scraper.py:226-250 | every card's URL is a product URL of the page; cards come in the order their URLs first appear; a product URL left out first appears after all collected ones, and only when the cap is reached |
| Products.CappedFirstSeen | scraper.py:226-250 | the same three facts for any cards whose URLs are the capped de-duplication of a list |
| Products.ScanTotal | scraper.py:187-200 | when joining never raises, the scan never raises |
| Products.ParsedPrices | scraper.py:157 | the parsed prices are exactly the values of the variants that parse |
| Products.Min | scraper.py:159 | the minimum is one of the prices and no greater than any |
| Products.VariantPrice | scraper.py:154-161 | one unparsable price voids the price; otherwise the price is the least parsed price; there is no price exactly when some price is unparsable or none parses |
| Products.JsonProducts | scraper.py:136-171 | a non-empty result means the feed URL joined, the feed answered and mapping its items raised nothing; conversely, whenever the feed URL joins, the feed answers and no item's joins raise, the result is exactly the mapped items; every failure gives no products |
| Products.JsonProductsItems | scraper.py:144-167 | a non-empty result has one product per feed item, product `i` being the mapping of item `i` |
| Products.FeedProduct | scraper.py:146-167 | one feed item's product: cleaned title, joined product URL (or "" without handle), joined first image (or ""), and the variant price; a plain definition, and `Products.FeedProductTotal` and `Products.JsonProductsItems` state what it yields |
| Products.FetchProductsJson | scraper.py:136-171 | the item loop computes exactly the feed's products |
| Products.FeedProductTotal | scraper.py:146-153 | when joining never raises, mapping a feed item does not raise |
| Products.JsonProductsTotal | scraper.py:144-168 | when joining never raises and the feed answers, there is exactly one product per item, in order |
| Products.UnparsableVoidsPrice | scraper.py:156-161 | variants priced 19.99, falsy, 15.50 and an unparsable string give no price |
| Products.ZeroPriceCounts | scraper.py:157 | a truthy price parsing to zero is the minimum |
| Products.ProductsOf | scraper.py:210-214 | the feed's products when there are any, else the catalog scan's, whose products all have no price; the two are never merged |
| Products.ExtractProducts | scraper.py:210-214 | the method computes exactly that choice |
| Links.ExtractLinks | scraper.py:255-273 | the collect, filter, de-duplicate and slice loops compute exactly the important links of the home page |
| Links.CollectLinks | scraper.py:255-261 | the join loop computes exactly the home page's joined links, raising with the first join that raises |
| Links.SelectImportant | scraper.py:262-272 | the keyword-filter and `seen`-set loops compute exactly the de-duplicated important links |
| Links.HomeLinksEach | scraper.py:257-261 | the collected links are one per href of the home page, link `i` the join of href `i`; none without a home page |
| Links.ImportantLinksProps | scraper.py:262-273 | at most 30 links, pairwise distinct, each an important link of the page; every important link is present unless the cap was hit; first-seen order is kept |
| Links.LinksCases | scraper.py:257-261 | no home page gives no links; when joining never raises, extraction does not raise |
| Links.JoinerTotal | scraper.py:260-261 | when the URL library never raises, no single join of an href raises |
| Links.IsImportant | scraper.py:264-265 | a link is important when its lowercased form contains one of the seven keywords; a plain definition, used by `Links.ImportantLinksProps` |
| Links.HomeLinks | scraper.py:255-261 | the joined hrefs of the home page, or none; a plain definition, pinned by `Links.HomeLinksEach` and computed by `Links.CollectLinks` |
| Links.ImportantLinks | scraper.py:262-273 | filter, de-duplicate, cap at 30; a plain definition, pinned by `Links.ImportantLinksProps` and computed by `Links.SelectImportant` |
| Links.LinksOf | scraper.py:255-273 | `extract_links` as a value; a plain definition, pinned by `Links.LinksCases` and computed by `Links.ExtractLinks` |
| Service.FetchBrandInsights | service.py:16-31 | the method computes exactly the record, raising with the first section that raises |
| Service.InsightsShape | service.py:21-31 | the brand name is the raw input; the about text is non-empty; exactly the four policy keys and the five platform keys; at most 20 hero products with distinct URLs; at most 30 distinct links; catalog-scan products carry no price |
| Service.InsightsTotal | service.py:21-31 | when joining never raises, building the record never raises |
| Service.InsightsName | service.py:22 | a built record's brand name is the site it was built for |
| Service.Insights | service.py:16-31 | the record with the raw name and eight sections, raising with the first section that raises; a plain definition, pinned by `Service.InsightsShape`, `Service.InsightsTotal` and `Service.InsightsUnreachable` |
| Service.InsightsUnreachable | service.py:16-31 | a site with no page and no feed gives a record, not an exception: the raw name, "No about info found", every policy "Not available", empty contact details, five empty social handles, and no FAQs, products, hero products or links |
| Service.UnreachableLists | service.py:28-30 | without pages or feeds the products, hero products and links are empty and do not raise |
| Service.UnreachableTexts | service.py:23-27 | without pages the about text is the default, the contact details and FAQs are empty and the social handles all "" |
| Service.UnreachablePolicies | scraper.py:63-71 | without pages every policy is "Not available" |
| Service.DiscoverCompetitors | service.py:43-72 | the loop with `continue` and `break` computes exactly the discovery of the home page's references |
| Service.DiscoverSettled | service.py:69-70 | after the break, later references are never looked at, not even parsed |
| Service.LooksLikeStore | service.py:65 | a host containing "myshopify.com", or ending in ".com" (or ".com" then a final newline, where `$` also matches); a plain definition, used by `Service.DiscoverSound` and `Service.DomainsHas` |
| Service.DiscoverStep | service.py:54-70 | one iteration of the discovery loop; a plain definition, whose effect `Service.DiscoverDedup` and `Service.DiscoverSound` state |
| Service.DiscoverScan | service.py:53-70 | the discovery loop, until its break or the first unparsable host; a plain definition, pinned by `Service.DiscoverComplete` and `Service.DiscoverSettled` |
| Service.Discover | service.py:43-72 | `discover_competitors` as a value; a plain definition, pinned by `Service.DiscoverSound`, `Service.DiscoverAbsent` and `Service.DiscoverComplete` |
| Service.DiscoverSound | service.py:53-70 | each discovered domain is the lowercased host of an "http" reference, does not contain the raw base URL, looks like a store and occurs once; never more than the limit (one for a limit below one); for a limit of at least one the loop breaks exactly when the limit is reached |
| Service.DomainsHas | service.py:58-67 | every qualifying reference (starts with "http", host parses, does not contain the raw base, looks like a store) contributes its lowercased host |
| Service.Qualifies | service.py:56-65 | a reference qualifies when it starts with "http", its host parses, the lowercased host does not contain the raw base URL and it looks like a store; a plain definition, the test that `Service.DomainsHas`, `Service.DiscoverDedup`, `Service.DiscoverComplete`, `Service.DiscoverFindsAll` and `Service.DiscoverFirstSeen` speak of |
| Service.DiscoverDedup | service.py:53-70 | until the loop breaks, the discovered list is exactly the qualifying domains, each once, in first-seen order |
| Service.DiscoverComplete | service.py:53-70 | the loop reads the references up to some point (all of them unless it broke off) and discovers exactly the qualifying domains among them, de-duplicated in first-seen order |
| Service.DiscoverFindsAll | service.py:53-70 | a loop that never broke off has discovered the domain of every qualifying reference |
| Service.DiscoverFirstSeen | service.py:66-67 | a loop that never broke off lists the domains in the order they first qualified |
| Service.DiscoverAbsent | service.py:49-51 | no home page, nothing discovered |
| Service.SelfNotExcludedWithScheme | service.py:61-62 | with the base "https://shop.com" the store's own host "shop.com" is not excluded, and is recorded |
| Service.Sites | service.py:83-88 | a mapped store gives itself then its mapped list verbatim, without discovery; any other gives itself then the discovered domains, raising when discovery raises |
| Service.RecordOf | service.py:91-97 | the full record when building succeeded, else the site's name with the exception's message |
| Service.Records | service.py:90-97 | one record per site |
| Service.TrySite | service.py:91-97 | one iteration computes exactly the record of its site: the built record, or the site's name with the exception's message |
| Service.FetchCompetitors | service.py:75-99 | the method computes exactly the batch |
| Service.SiteList | service.py:83-88 | the method computes exactly the site list, raising when discovery raises |
| Service.BuildRecords | service.py:90-97 | the per-site loop computes exactly one record per site, in site order |
| Service.CompetitorsShape | service.py:80-99 | the batch raises exactly when the store is unmapped and discovery raises; otherwise one record per site, the store first, record `i` named `sites[i]` and full exactly when building that site's record did not raise |
| Service.Competitors | service.py:75-99 | `fetch_competitors` as a value; a plain definition, pinned by `Service.CompetitorsShape` and computed by `Service.FetchCompetitors` |

## Left out

- Network I/O is not modelled: requests, timeouts, status codes and the
  `limit=250` query parameter. A URL either answers (it is in `pages` or
  `feeds`) or it does not.
- HTML parsing is not modelled. BeautifulSoup's `find_all`, `select`,
  `find_next`, `find_next_sibling` and `get_text` are replaced by the
  facets a `Doc` carries.
- Fetch.Clean: `clean_html` is modelled on text that holds no markup,
  where it amounts to `strip()`. Tag removal and entity decoding are not
  modelled.
- Text.Lower: lowercasing covers the ASCII letters only; Python's Unicode
  case mapping is not modelled. Likewise `isdigit` is ASCII digits only.
- `urljoin` and `urlparse(...).netloc` are uninterpreted functions, so
  their results (the URL resolution rules) are not modelled.
- Float parsing of prices and their `"%.2f"` formatting are left out,
  because they are floating-point numerics. A price field is abstract
  (falsy, parses to a real, or unparsable), and a price is a real or
  absent.
- Shapes of the feed's JSON other than the ones the code reads (an image
  entry that is not an object, for example) are not modelled.
- The diagnostics printed on failure are left out.
- The policies, socials and record dictionaries are modelled as maps,
  which have no order: the key order of the source's dictionaries
  (scraper.py:57-62 for the policies, scraper.py:93 for the socials) is
  not kept.
- The database layer, the HTTP API, the UI and the pydantic models are not
  part of this model.
- Sections.Contact: the address is only stated to be at most 200
  characters; that it is the stripped first 200 characters of the page
  text is its definition and is not restated.
