/** The Socials extractor of scraper.py: one pass over the home page's
    links fills five platform slots, first match wins. */
module Socials {
  import opened Wrappers
  import opened Text
  import opened Fetch

  /** The platforms, in the order of the `if`/`elif` chain. */
  const Platforms: seq<string> := ["facebook", "instagram", "twitter", "youtube", "tiktok"]
  const PlatformKeys: set<string> := {"facebook", "instagram", "twitter", "youtube", "tiktok"}

  /** The five slots, indexed by the platform's position in the chain. */
  const Empty: seq<string> := ["", "", "", "", ""]

  /** The lowercased link `h` carries the marker of platform `k`. */
  predicate Mentions(h: string, k: nat) {
    || (k == 0 && Contains(h, "facebook.com"))
    || (k == 1 && Contains(h, "instagram.com"))
    || (k == 2 && (Contains(h, "twitter.com") || Contains(h, "x.com")))
    || (k == 3 && Contains(h, "youtube.com"))
    || (k == 4 && Contains(h, "tiktok.com"))
  }

  lemma PlatformsDistinct()
    ensures forall i, j :: 0 <= i < j < |Platforms| ==> Platforms[i] != Platforms[j]
    ensures forall i :: 0 <= i < |Platforms| ==> Platforms[i] in PlatformKeys
    ensures forall p :: p in PlatformKeys ==> exists i :: 0 <= i < |Platforms| && Platforms[i] == p
  {
    assert |Platforms[0]| == 8 && |Platforms[1]| == 9 && |Platforms[2]| == 7;
    assert |Platforms[3]| == 7 && |Platforms[4]| == 6;
    assert Platforms[2][0] == 't' && Platforms[3][0] == 'y';
  }

  /** The slots as the dictionary `extract_socials` returns: platform name
      to slot. */
  function Dict(s: seq<string>): (d: map<string, string>)
    requires |s| == |Platforms|
    ensures d.Keys == PlatformKeys
    ensures forall k :: 0 <= k < |Platforms| ==> d[Platforms[k]] == s[k]
  {
    map["facebook" := s[0], "instagram" := s[1], "twitter" := s[2], "youtube" := s[3], "tiktok" := s[4]]
  }

  /** The dictionary looked up by the platform names the chain uses. */
  lemma DictAt(s: seq<string>)
    requires |s| == |Platforms|
    ensures var d := Dict(s);
      && d["facebook"] == s[0] && d["instagram"] == s[1] && d["twitter"] == s[2]
      && d["youtube"] == s[3] && d["tiktok"] == s[4]
  {
    assert Platforms[0] == "facebook" && Platforms[1] == "instagram" && Platforms[2] == "twitter";
    assert Platforms[3] == "youtube" && Platforms[4] == "tiktok";
  }

  /** `{"facebook": "", ...}`: every slot empty. */
  const NoSocials: map<string, string> := Dict(Empty)

  /** The `if`/`elif` chain from branch `k` on, for one link: the first
      branch whose marker the lowercased link carries and whose slot is
      still empty takes the link, in its original case. */
  function Assign(s: seq<string>, href: string, k: nat): (r: seq<string>)
    requires |s| == |Platforms| && k <= |Platforms|
    ensures |r| == |Platforms|
    decreases |Platforms| - k
  {
    if k == |Platforms| then s
    else if Mentions(Lower(href), k) && s[k] == "" then s[k := href]
    else Assign(s, href, k + 1)
  }

  /** The slots after the links `hrefs` have been scanned in order. */
  function SlotsOf(hrefs: seq<string>): (s: seq<string>)
    ensures |s| == |Platforms|
    decreases |hrefs|
  {
    if hrefs == [] then Empty
    else Assign(SlotsOf(hrefs[..|hrefs| - 1]), hrefs[|hrefs| - 1], 0)
  }

  /** `extract_socials`, as a value: all five slots empty when the home
      page is absent. */
  function Socials(w: Web, base: string): (s: map<string, string>)
    ensures s.Keys == PlatformKeys
    ensures FetchPage(w, base, "").None? ==> s == NoSocials
  {
    FetchNormalized(w, base, "");
    match FetchPage(w, NormalizeUrl(base), "")
    case None => NoSocials
    case Some(doc) => Dict(SlotsOf(Hrefs(doc.anchors)))
  }

  /** The chain written out, branch by branch, as `extract_socials` does. */
  lemma AssignChain(s: seq<string>, href: string)
    requires |s| == |Platforms|
    ensures var h := Lower(href);
      Assign(s, href, 0) ==
        if Contains(h, "facebook.com") && s[0] == "" then s[0 := href]
        else if Contains(h, "instagram.com") && s[1] == "" then s[1 := href]
        else if (Contains(h, "twitter.com") || Contains(h, "x.com")) && s[2] == "" then s[2 := href]
        else if Contains(h, "youtube.com") && s[3] == "" then s[3 := href]
        else if Contains(h, "tiktok.com") && s[4] == "" then s[4 := href]
        else s
  {
    assert Assign(s, href, 5) == s;
  }

  /** Setting one slot is setting that platform's key of the dictionary. */
  lemma DictUpdate(s: seq<string>, k: nat, v: string)
    requires |s| == |Platforms| && k < |Platforms|
    ensures Dict(s[k := v]) == Dict(s)[Platforms[k] := v]
  {
    PlatformsDistinct();
  }

  /** `extract_socials`: one pass over the anchors that have an `href`,
      updating the dictionary in place. */
  method ExtractSocials(w: Web, base: string) returns (socials: map<string, string>)
    ensures socials == Socials(w, base)
  {
    var b := NormalizeUrl(base);
    var soup := FetchPage(w, b, "");
    socials := NoSocials;
    if soup.Some? {
      socials := ScanSocials(soup.value.anchors);
    }
  }

  /** The loop of `extract_socials` over the page's anchors; `slots` is the
      dictionary read in chain order. */
  method ScanSocials(anchors: seq<Anchor>) returns (socials: map<string, string>)
    ensures socials == Dict(SlotsOf(Hrefs(anchors)))
  {
    socials := NoSocials;
    ghost var slots := Empty;
    for i := 0 to |anchors|
      invariant |slots| == |Platforms| && slots == SlotsOf(Hrefs(anchors[..i]))
      invariant socials == Dict(slots)
    {
      ScanStep(anchors, i);
      var a := anchors[i];
      if a.href.Some? {
        var href := a.href.value;
        var h := Lower(href);
        AssignChain(slots, href);
        DictAt(slots);
        if Contains(h, "facebook.com") && socials["facebook"] == "" {
          DictUpdate(slots, 0, href);
          socials, slots := socials["facebook" := href], slots[0 := href];
        } else if Contains(h, "instagram.com") && socials["instagram"] == "" {
          DictUpdate(slots, 1, href);
          socials, slots := socials["instagram" := href], slots[1 := href];
        } else if (Contains(h, "twitter.com") || Contains(h, "x.com")) && socials["twitter"] == "" {
          DictUpdate(slots, 2, href);
          socials, slots := socials["twitter" := href], slots[2 := href];
        } else if Contains(h, "youtube.com") && socials["youtube"] == "" {
          DictUpdate(slots, 3, href);
          socials, slots := socials["youtube" := href], slots[3 := href];
        } else if Contains(h, "tiktok.com") && socials["tiktok"] == "" {
          DictUpdate(slots, 4, href);
          socials, slots := socials["tiktok" := href], slots[4 := href];
        }
      }
    }
    assert anchors[..|anchors|] == anchors;
  }

  /** One more anchor: its `href`, when it has one, goes through the chain. */
  lemma ScanStep(anchors: seq<Anchor>, i: nat)
    requires i < |anchors|
    ensures var prev := SlotsOf(Hrefs(anchors[..i]));
      SlotsOf(Hrefs(anchors[..i + 1])) ==
        if anchors[i].href.Some? then Assign(prev, anchors[i].href.value, 0) else prev
  {
    var seen := Hrefs(anchors[..i]);
    assert anchors[..i + 1][..i] == anchors[..i];
    if anchors[i].href.Some? {
      var href := anchors[i].href.value;
      assert Hrefs(anchors[..i + 1]) == seen + [href];
      assert (seen + [href])[..|seen|] == seen;
    }
  }

  // ---------------- Properties ----------------

  /** One link never overwrites a slot that is already set. */
  lemma {:induction false} AssignKeeps(s: seq<string>, href: string, k: nat, j: nat)
    requires |s| == |Platforms| && k <= |Platforms| && j < |Platforms| && s[j] != ""
    ensures Assign(s, href, k)[j] == s[j]
    decreases |Platforms| - k
  {
    if k < |Platforms| && !(Mentions(Lower(href), k) && s[k] == "") {
      AssignKeeps(s, href, k + 1, j);
    }
  }

  /** A slot that one link changes now holds that link, and the link
      carries the slot's marker. */
  lemma {:induction false} AssignOrigin(s: seq<string>, href: string, k0: nat, k: nat)
    requires |s| == |Platforms| && k0 <= |Platforms| && k < |Platforms|
    requires Assign(s, href, k0)[k] != s[k]
    ensures Assign(s, href, k0)[k] == href && Mentions(Lower(href), k)
    decreases |Platforms| - k0
  {
    if k0 < |Platforms| && !(Mentions(Lower(href), k0) && s[k0] == "") {
      AssignOrigin(s, href, k0 + 1, k);
    }
  }

  /** A link reaches branch `k` when no earlier branch takes it, that is
      when every earlier branch's marker is missing from the link or its
      slot is already set; it takes slot `k` if it carries that marker and
      the slot is empty. */
  lemma {:induction false} AssignTakes(s: seq<string>, href: string, k0: nat, k: nat)
    requires |s| == |Platforms| && k0 <= k < |Platforms|
    requires forall j :: k0 <= j < k ==> !(Mentions(Lower(href), j) && s[j] == "")
    requires Mentions(Lower(href), k) && s[k] == ""
    ensures Assign(s, href, k0)[k] == href
    decreases k - k0
  {
    if k0 < k {
      AssignTakes(s, href, k0 + 1, k);
    }
  }

  /** A link that an earlier branch takes leaves slot `k` as it was. */
  lemma {:induction false} AssignSkips(s: seq<string>, href: string, k0: nat, j: nat, k: nat)
    requires |s| == |Platforms| && k0 <= j < k < |Platforms|
    requires Mentions(Lower(href), j) && s[j] == ""
    ensures Assign(s, href, k0)[k] == s[k]
    decreases j - k0
  {
    if !(Mentions(Lower(href), k0) && s[k0] == "") {
      AssignSkips(s, href, k0 + 1, j, k);
    }
  }

  /** Once set, a slot is never overwritten by later links. */
  lemma {:induction false} SlotKept(hrefs: seq<string>, i: nat, k: nat)
    requires i <= |hrefs| && k < |Platforms|
    requires SlotsOf(hrefs[..i])[k] != ""
    ensures SlotsOf(hrefs)[k] == SlotsOf(hrefs[..i])[k]
    decreases |hrefs|
  {
    if i < |hrefs| {
      var prev := hrefs[..|hrefs| - 1];
      assert prev[..i] == hrefs[..i];
      SlotKept(prev, i, k);
      AssignKeeps(SlotsOf(prev), hrefs[|hrefs| - 1], 0, k);
    } else {
      assert hrefs[..i] == hrefs;
    }
  }

  /** Every filled slot holds one of the scanned links, in its original
      case, whose lowercased form carries that platform's marker. */
  lemma {:induction false} SlotOrigin(hrefs: seq<string>, k: nat)
    requires k < |Platforms|
    requires SlotsOf(hrefs)[k] != ""
    ensures exists i :: 0 <= i < |hrefs| && SlotsOf(hrefs)[k] == hrefs[i]
                        && Mentions(Lower(hrefs[i]), k)
    decreases |hrefs|
  {
    var prev := hrefs[..|hrefs| - 1];
    var last := |hrefs| - 1;
    if SlotsOf(hrefs)[k] != SlotsOf(prev)[k] {
      AssignOrigin(SlotsOf(prev), hrefs[last], 0, k);
    } else {
      SlotOrigin(prev, k);
      var i :| 0 <= i < |prev| && SlotsOf(prev)[k] == prev[i] && Mentions(Lower(prev[i]), k);
      assert prev[i] == hrefs[i];
    }
  }

  /** A platform none of whose markers any link carries keeps "". */
  lemma {:induction false} SlotEmptyWithoutMarker(hrefs: seq<string>, k: nat)
    requires k < |Platforms|
    requires forall i :: 0 <= i < |hrefs| ==> !Mentions(Lower(hrefs[i]), k)
    ensures SlotsOf(hrefs)[k] == ""
  {
    if SlotsOf(hrefs)[k] != "" {
      SlotOrigin(hrefs, k);
    }
  }

  /** Link `i` takes slot `k`: it carries `k`'s marker, the slot is still
      empty, and no earlier branch takes it (each earlier branch's marker is
      missing from the link or its slot is already set). */
  predicate Takes(hrefs: seq<string>, i: nat, k: nat)
    requires i < |hrefs| && k < |Platforms|
  {
    var s, h := SlotsOf(hrefs[..i]), Lower(hrefs[i]);
    && Mentions(h, k) && s[k] == ""
    && forall k' :: 0 <= k' < k ==> !(Mentions(h, k') && s[k'] == "")
  }

  /** One link changes slot `k` exactly when it takes it, and then the slot
      holds that link. */
  lemma TakeStep(hrefs: seq<string>, i: nat, k: nat)
    requires i < |hrefs| && k < |Platforms|
    ensures SlotsOf(hrefs[..i + 1])[k] ==
      if Takes(hrefs, i, k) then hrefs[i] else SlotsOf(hrefs[..i])[k]
  {
    var s, href := SlotsOf(hrefs[..i]), hrefs[i];
    var h := Lower(href);
    assert hrefs[..i + 1][..i] == hrefs[..i];
    assert SlotsOf(hrefs[..i + 1]) == Assign(s, href, 0);
    if Takes(hrefs, i, k) {
      AssignTakes(s, href, 0, k);
    } else if s[k] != "" {
      AssignKeeps(s, href, 0, k);
    } else if exists k' :: 0 <= k' < k && Mentions(h, k') && s[k'] == "" {
      var k' :| 0 <= k' < k && Mentions(h, k') && s[k'] == "";
      AssignSkips(s, href, 0, k', k);
    } else if Assign(s, href, 0)[k] != s[k] {
      AssignOrigin(s, href, 0, k);
    }
  }

  /** Every marker is non-empty, so a link that carries one is too. */
  lemma MentionsNonEmpty(h: string, k: nat)
    requires Mentions(h, k)
    ensures h != ""
  {
    if Contains(h, "x.com") {
      ContainsLength(h, "x.com");
    } else if Contains(h, "facebook.com") {
      ContainsLength(h, "facebook.com");
    } else if Contains(h, "instagram.com") {
      ContainsLength(h, "instagram.com");
    } else if Contains(h, "twitter.com") {
      ContainsLength(h, "twitter.com");
    } else if Contains(h, "youtube.com") {
      ContainsLength(h, "youtube.com");
    } else {
      ContainsLength(h, "tiktok.com");
    }
  }

  /** The link that takes slot `k` is what the slot finally holds: no later
      link overwrites it. */
  lemma TakerWins(hrefs: seq<string>, i: nat, k: nat)
    requires i < |hrefs| && k < |Platforms| && Takes(hrefs, i, k)
    ensures SlotsOf(hrefs)[k] == hrefs[i]
  {
    var taken := SlotsOf(hrefs[..i + 1]);
    assert taken[k] == hrefs[i] != "" by {
      TakeStep(hrefs, i, k);
      TakerNonEmpty(hrefs, i, k);
    }
    SlotKept(hrefs, i + 1, k);
  }

  /** A link that takes a slot is not empty. */
  lemma TakerNonEmpty(hrefs: seq<string>, i: nat, k: nat)
    requires i < |hrefs| && k < |Platforms| && Takes(hrefs, i, k)
    ensures hrefs[i] != ""
  {
    MentionsNonEmpty(Lower(hrefs[i]), k);
  }

  /** A slot that no link takes stays "". */
  lemma {:induction false} NoTakerEmpty(hrefs: seq<string>, n: nat, k: nat)
    requires n <= |hrefs| && k < |Platforms|
    requires forall j :: 0 <= j < n ==> !Takes(hrefs, j, k)
    ensures SlotsOf(hrefs[..n])[k] == ""
  {
    if n == 0 {
      assert hrefs[..0] == [];
    } else {
      NoTakerEmpty(hrefs, n - 1, k);
      TakeStep(hrefs, n - 1, k);
    }
  }

  /** First match wins: if link `i` is the first that carries platform
      `k`'s marker, and no earlier branch takes it (every earlier marker it
      carries belongs to a slot already set), slot `k` ends up holding
      exactly that link. A link carrying an earlier marker whose slot is
      set falls through to later branches, as the `elif` chain does. */
  lemma FirstMatchWins(hrefs: seq<string>, i: nat, k: nat)
    requires i < |hrefs| && k < |Platforms|
    requires Mentions(Lower(hrefs[i]), k)
    requires forall j :: 0 <= j < i ==> !Mentions(Lower(hrefs[j]), k)
    requires forall k' :: 0 <= k' < k ==>
      !(Mentions(Lower(hrefs[i]), k') && SlotsOf(hrefs[..i])[k'] == "")
    ensures SlotsOf(hrefs)[k] == hrefs[i]
  {
    NoTakerEmpty(hrefs, i, k);
    TakerWins(hrefs, i, k);
  }
}
