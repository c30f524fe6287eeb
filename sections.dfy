/** The About, Policies and Contact extractors of scraper.py. Each fetches
    fixed relative paths and degrades to a default when a page is absent
    or has no content. */
module Sections {
  import opened Wrappers
  import opened Text
  import opened Seqs
  import opened Fetch

  // ---------------- About ----------------

  const AboutPaths: seq<string> := ["pages/about", "about", "pages/our-story"]
  const NoAbout: string := "No about info found"

  predicate NonEmpty(s: string) {
    s != ""
  }

  /** What one about page offers: its non-empty paragraphs joined by
      single spaces. */
  function AboutText(doc: Doc): string {
    Join(" ", Filter(NonEmpty, doc.paragraphs))
  }

  /** A page offers about text exactly when one of its paragraphs is
      non-empty. */
  lemma AboutTextEmpty(doc: Doc)
    ensures AboutText(doc) == "" <==> forall p :: p in doc.paragraphs ==> p == ""
  {
    var kept := Filter(NonEmpty, doc.paragraphs);
    FilterMembers(NonEmpty, doc.paragraphs);
    JoinEmpty(" ", kept);
    if AboutText(doc) == "" {
      assert "" !in kept;
      assert kept == [];
      forall p | p in doc.paragraphs ensures p == "" {
        assert p !in kept;
      }
    } else {
      assert kept[0] in kept;
    }
  }

  /** The text candidate `k` gives; an absent page gives "". */
  function AboutCandidate(w: Web, base: string, k: nat): string
    requires k < |AboutPaths|
  {
    match FetchPage(w, base, AboutPaths[k])
    case None => ""
    case Some(doc) => AboutText(doc)
  }

  function AboutCandidates(w: Web, base: string): (r: seq<string>)
    ensures |r| == |AboutPaths|
    ensures forall k :: 0 <= k < |AboutPaths| ==> r[k] == AboutCandidate(w, base, k)
  {
    seq(|AboutPaths|, k requires 0 <= k < |AboutPaths| => AboutCandidate(w, base, k))
  }

  /** `extract_about`, as a value. */
  function About(w: Web, base: string): string {
    FirstNonEmpty(AboutCandidates(w, NormalizeUrl(base)), "", NoAbout)
  }

  /** The about text is the text of the first candidate path that has any,
      and every earlier candidate had none; if no candidate has text it is
      the fixed default. Either way it is never empty. */
  lemma AboutFirstCandidate(w: Web, base: string)
    ensures var b := NormalizeUrl(base);
      (About(w, base) == NoAbout && forall k :: 0 <= k < |AboutPaths| ==> AboutCandidate(w, b, k) == "")
      || (exists i :: 0 <= i < |AboutPaths| && About(w, base) == AboutCandidate(w, b, i) != ""
            && forall k :: 0 <= k < i ==> AboutCandidate(w, b, k) == "")
    ensures About(w, base) != ""
  {
  }

  /** `extract_about`: tries the candidate paths in order and returns at
      the first one whose text is non-empty. */
  method ExtractAbout(w: Web, base: string) returns (about: string)
    ensures about == About(w, base)
  {
    var b := NormalizeUrl(base);
    ghost var cands := AboutCandidates(w, b);
    var i := 0;
    while i < |AboutPaths|
      invariant 0 <= i <= |AboutPaths|
      invariant FirstNonEmpty(cands[i..], "", NoAbout) == About(w, base)
    {
      assert cands[i..] == [cands[i]] + cands[i + 1..];
      var soup := FetchPage(w, b, AboutPaths[i]);
      if soup.Some? {
        var txt := AboutText(soup.value);
        if txt != "" {
          return txt;
        }
      }
      i := i + 1;
    }
    about := NoAbout;
  }

  // ---------------- Policies ----------------

  /** The policy kinds with their paths, in the order they are fetched. */
  const PolicyPaths: seq<(string, string)> := [
    ("privacy_policy", "policies/privacy-policy"),
    ("refund_policy", "policies/refund-policy"),
    ("shipping_policy", "policies/shipping-policy"),
    ("terms_of_service", "policies/terms-of-service")
  ]

  const PolicyKeys: set<string> := {"privacy_policy", "refund_policy", "shipping_policy", "terms_of_service"}

  const NotAvailable: string := "Not available"
  const ExcerptLength: nat := 300

  /** The value recorded for one policy page. Unlike the about text, the
      paragraphs are joined without dropping the empty ones. */
  function PolicyValue(page: Option<Doc>): string {
    match page
    case None => NotAvailable
    case Some(doc) =>
      var txt := Join(" ", doc.paragraphs);
      if txt != "" then Prefix(txt, ExcerptLength) + "..." else NotAvailable
  }

  /** A policy is "Not available" exactly when its page is absent or has
      no paragraph or one empty paragraph; otherwise it is the first 300
      characters of the joined paragraphs followed by "...". */
  lemma PolicyValueCases(page: Option<Doc>)
    ensures PolicyValue(page) == NotAvailable
      <==> (page.None? || |page.value.paragraphs| == 0 || page.value.paragraphs == [""])
    ensures PolicyValue(page) != NotAvailable ==>
      var txt := Join(" ", page.value.paragraphs);
      PolicyValue(page) == Prefix(txt, ExcerptLength) + "..." && |PolicyValue(page)| <= ExcerptLength + 3
  {
    if page.Some? {
      var txt := Join(" ", page.value.paragraphs);
      JoinEmpty(" ", page.value.paragraphs);
      if txt != "" {
        var v := Prefix(txt, ExcerptLength) + "...";
        assert v[|v| - 1] == '.';
        assert NotAvailable[|NotAvailable| - 1] == 'e';
      }
    }
  }

  /** The four keys differ (they even differ in length). */
  lemma PolicyKeysDistinct()
    ensures forall i, j :: 0 <= i < j < |PolicyPaths| ==> PolicyPaths[i].0 != PolicyPaths[j].0
  {
    assert |PolicyPaths[0].0| == 14 && |PolicyPaths[1].0| == 13;
    assert |PolicyPaths[2].0| == 15 && |PolicyPaths[3].0| == 16;
  }

  /** The keys of the first `n` policies. */
  function KeysUpTo(n: nat): (keys: set<string>)
    requires n <= |PolicyPaths|
    ensures forall i :: 0 <= i < n ==> PolicyPaths[i].0 in keys
  {
    if n == 0 then {} else KeysUpTo(n - 1) + {PolicyPaths[n - 1].0}
  }

  /** All four keys together are the policy keys. */
  lemma AllPolicyKeys()
    ensures KeysUpTo(|PolicyPaths|) == PolicyKeys
  {
    assert KeysUpTo(1) == {"privacy_policy"};
    assert KeysUpTo(2) == {"privacy_policy", "refund_policy"};
    assert KeysUpTo(3) == {"privacy_policy", "refund_policy", "shipping_policy"};
  }

  /** The dictionary after the first `n` policies have been assigned. */
  function PoliciesUpTo(w: Web, base: string, n: nat): (out: map<string, string>)
    requires n <= |PolicyPaths|
    ensures out.Keys == KeysUpTo(n)
    ensures forall i :: 0 <= i < n ==> out[PolicyPaths[i].0] == PolicyValue(FetchPage(w, base, PolicyPaths[i].1))
  {
    if n == 0 then map[]
    else
      var key := PolicyPaths[n - 1].0;
      PolicyKeysDistinct();
      PoliciesUpTo(w, base, n - 1)[key := PolicyValue(FetchPage(w, base, PolicyPaths[n - 1].1))]
  }

  /** `extract_policies`, as a value: exactly the four policy keys, each
      with the value its own page gives. */
  function Policies(w: Web, base: string): (out: map<string, string>)
    ensures out.Keys == PolicyKeys
    ensures forall i :: 0 <= i < |PolicyPaths| ==>
      out[PolicyPaths[i].0] == PolicyValue(FetchPage(w, base, PolicyPaths[i].1))
  {
    NormalizeIdempotent(base);
    AllPolicyKeys();
    PoliciesUpTo(w, NormalizeUrl(base), |PolicyPaths|)
  }

  /** `extract_policies`: one fetch per policy kind, each assigned into the
      output dictionary. */
  method ExtractPolicies(w: Web, base: string) returns (out: map<string, string>)
    ensures out == Policies(w, base)
  {
    var b := NormalizeUrl(base);
    out := map[];
    for i := 0 to |PolicyPaths|
      invariant out == PoliciesUpTo(w, b, i)
    {
      var (key, path) := PolicyPaths[i];
      var soup := FetchPage(w, b, path);
      assert PoliciesUpTo(w, b, i + 1) == out[key := PolicyValue(soup)];
      if soup.Some? {
        var txt := Join(" ", soup.value.paragraphs);
        out := out[key := if txt != "" then Prefix(txt, ExcerptLength) + "..." else NotAvailable];
      } else {
        out := out[key := NotAvailable];
      }
    }
  }

  // ---------------- Contact ----------------

  datatype ContactDetails = ContactDetails(emails: seq<string>, phoneNumbers: seq<string>, address: string)

  const ContactPath: string := "pages/contact"
  const AddressLength: nat := 200

  /** A token is taken for an email when it contains both "@" and ".". */
  predicate IsEmail(token: string) {
    Contains(token, "@") && Contains(token, ".")
  }

  /** A token is taken for a phone number when, once every "+" and "-" is
      removed, it is non-empty and all digits. */
  predicate IsPhone(token: string) {
    IsDigits(Remove(Remove(token, '+'), '-'))
  }

  /** The details read from a present contact page. */
  function ContactFrom(doc: Doc): (c: ContactDetails)
    ensures forall t :: t in c.emails ==> IsEmail(t)
    ensures forall t :: t in c.phoneNumbers ==> IsPhone(t)
    ensures |c.address| <= AddressLength
  {
    var parts := Words(doc.text);
    ContactDetails(Filter(IsEmail, parts), Filter(IsPhone, parts), Clean(Prefix(doc.text, AddressLength)))
  }

  /** `extract_contact`: nothing when the contact page is absent; otherwise
      the email-like and phone-like tokens of the page text and a stripped
      excerpt of at most 200 characters as the address. */
  function Contact(w: Web, base: string): (c: ContactDetails)
    ensures FetchPage(w, base, ContactPath).None? ==> c == ContactDetails([], [], "")
    ensures forall t :: t in c.emails ==> IsEmail(t)
    ensures forall t :: t in c.phoneNumbers ==> IsPhone(t)
    ensures |c.address| <= AddressLength
  {
    FetchNormalized(w, base, ContactPath);
    match FetchPage(w, NormalizeUrl(base), ContactPath)
    case None => ContactDetails([], [], "")
    case Some(doc) => ContactFrom(doc)
  }

  /** On a present contact page every token of its text is classified on
      its own: each email-like token appears among the emails as often as
      in the text, each phone-like token among the phone numbers, and the
      order of the text is kept. */
  lemma ContactClassifies(w: Web, base: string, t: string)
    requires FetchPage(w, base, ContactPath).Some?
    ensures var parts := Words(FetchPage(w, base, ContactPath).value.text);
      && Contact(w, base).emails == Filter(IsEmail, parts)
      && Contact(w, base).phoneNumbers == Filter(IsPhone, parts)
      && multiset(Contact(w, base).emails)[t] == (if IsEmail(t) then multiset(parts)[t] else 0)
      && multiset(Contact(w, base).phoneNumbers)[t] == (if IsPhone(t) then multiset(parts)[t] else 0)
  {
    var parts := Words(FetchPage(w, base, ContactPath).value.text);
    FetchNormalized(w, base, ContactPath);
    FilterCount(IsEmail, parts, t);
    FilterCount(IsPhone, parts, t);
  }
}
