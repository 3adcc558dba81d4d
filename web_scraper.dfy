/** The pure pieces of backend/web_scraper.py: scheme normalisation, the classification of
    links by social platform, and the portfolio-indicator test. Links are taken as absolute
    URLs already resolved against the page. */
module WebScraper {
  import opened Wrappers
  import opened Text
  import opened Dicts
  import opened Candidate

  // ---------------------------------------------------------------------------------------
  // normalize_url

  predicate HasScheme(url: string) {
    StartsWith(url, "http://") || StartsWith(url, "https://")
  }

  /** `normalize_url`: prefix "https://" unless the URL already starts with one of the two
      schemes, compared case-sensitively. */
  function NormalizeUrl(url: string): (r: string)
    ensures HasScheme(url) ==> r == url
    ensures !HasScheme(url) ==> r == "https://" + url
    ensures HasScheme(r)
  {
    if HasScheme(url) then url
    else
      assert ("https://" + url)[..8] == "https://";
      "https://" + url
  }

  lemma NormalizeUrlIdempotent(url: string)
    ensures NormalizeUrl(NormalizeUrl(url)) == NormalizeUrl(url)
  {
  }

  /** The scheme test is case-sensitive: an upper-case scheme gets a second one. */
  lemma UpperCaseSchemeIsPrefixed()
    ensures NormalizeUrl("HTTP://a.io") == "https://HTTP://a.io"
  {
    assert !StartsWith("HTTP://a.io", "http://") by {
      assert "HTTP://a.io"[0] != "http://"[0];
    }
    assert !StartsWith("HTTP://a.io", "https://") by {
      assert "HTTP://a.io"[0] != "https://"[0];
    }
  }

  // ---------------------------------------------------------------------------------------
  // extract_social_links

  /** `social_platforms`, in its dictionary order: the platform and the domain text its
      pattern matches. */
  const SocialPlatforms: seq<(string, string)> := [
    ("github", "github.com"),
    ("linkedin", "linkedin.com"),
    ("twitter", "twitter.com"),
    ("instagram", "instagram.com"),
    ("facebook", "facebook.com"),
    ("medium", "medium.com"),
    ("dev.to", "dev.to"),
    ("behance", "behance.net"),
    ("dribbble", "dribbble.com")
  ]

  /** The platform names, the keys `social_links` can get. */
  function PlatformNames(): (names: set<string>)
    ensures forall k :: 0 <= k < |SocialPlatforms| ==> SocialPlatforms[k].0 in names
  {
    set k | 0 <= k < |SocialPlatforms| :: SocialPlatforms[k].0
  }

  /** The platform pattern `k` occurs in the URL, ignoring case. */
  predicate MatchesPlatform(url: string, k: nat)
    requires k < |SocialPlatforms|
  {
    Contains(Lower(url), SocialPlatforms[k].1)
  }

  /** The index of the first platform, from `from` on, whose pattern occurs in the URL. */
  function FirstPlatform(url: string, from: nat): (r: Option<nat>)
    requires from <= |SocialPlatforms|
    ensures r.Some? ==> from <= r.value < |SocialPlatforms| && MatchesPlatform(url, r.value)
    ensures r.Some? ==> forall j :: from <= j < r.value ==> !MatchesPlatform(url, j)
    ensures r.None? <==> forall j :: from <= j < |SocialPlatforms| ==> !MatchesPlatform(url, j)
    decreases |SocialPlatforms| - from
  {
    if from == |SocialPlatforms| then None
    else if MatchesPlatform(url, from) then Some(from)
    else FirstPlatform(url, from + 1)
  }

  /** The platform a link is filed under: the first in table order whose pattern it contains,
      or none. */
  function Classify(url: string): Option<string> {
    match FirstPlatform(url, 0)
    case None => None
    case Some(k) => Some(SocialPlatforms[k].0)
  }

  /** The `social_links` dictionary after the given links. */
  function SocialLinksOf(urls: seq<string>): map<string, string> {
    if urls == [] then map[]
    else
      var before := SocialLinksOf(urls[..|urls| - 1]);
      var url := urls[|urls| - 1];
      match Classify(url)
      case None => before
      case Some(platform) => before[platform := url]
  }

  /** The last of the links filed under `platform`, `None` when no link is. */
  function LastFiledUnder(urls: seq<string>, platform: string): (r: Option<string>)
    ensures r.Some? ==> r.value in urls && Classify(r.value) == Some(platform)
  {
    if urls == [] then None
    else if Classify(urls[|urls| - 1]) == Some(platform) then Some(urls[|urls| - 1])
    else LastFiledUnder(urls[..|urls| - 1], platform)
  }

  /** `LastFiledUnder` finds nothing exactly when no link is filed under the platform. */
  lemma {:induction false} LastFiledUnderNone(urls: seq<string>, platform: string)
    ensures LastFiledUnder(urls, platform).None? <==> NoneWhere(urls, FiledUnder(platform))
  {
    if urls != [] {
      var last := |urls| - 1;
      if Classify(urls[last]) == Some(platform) {
        assert FiledUnder(platform)(urls[last]);
      } else {
        assert !FiledUnder(platform)(urls[last]);
        LastFiledUnderNone(urls[..last], platform);
        NoneWhereExtends(urls, FiledUnder(platform));
      }
    }
  }

  /** A link `LastFiledUnder` finds has no later link filed under the platform. */
  lemma {:induction false} LastFiledUnderIsLast(urls: seq<string>, platform: string)
    requires LastFiledUnder(urls, platform).Some?
    ensures exists i :: 0 <= i < |urls| && urls[i] == LastFiledUnder(urls, platform).value
                        && LastWhere(urls, FiledUnder(platform), i)
  {
    var last := |urls| - 1;
    if Classify(urls[last]) == Some(platform) {
      assert LastWhere(urls, FiledUnder(platform), last);
    } else {
      var front := urls[..last];
      LastFiledUnderIsLast(front, platform);
      var i :| 0 <= i < |front| && front[i] == LastFiledUnder(front, platform).value
               && LastWhere(front, FiledUnder(platform), i);
      LastWhereExtends(urls, FiledUnder(platform), i);
      assert urls[i] == front[i];
    }
  }

  /** The test "filed under `platform`" as a predicate on links. */
  function FiledUnder(platform: string): string -> bool {
    url => Classify(url) == Some(platform)
  }

  /** The element at `i` passes `p` and no later element does. */
  predicate LastWhere(xs: seq<string>, p: string -> bool, i: int)
    requires 0 <= i < |xs|
  {
    p(xs[i]) && forall j :: i < j < |xs| ==> !p(xs[j])
  }

  /** No element of `xs` passes `p`. */
  predicate NoneWhere(xs: seq<string>, p: string -> bool) {
    forall i :: 0 <= i < |xs| ==> !p(xs[i])
  }

  /** An element failing `p` added at the end changes nothing about `NoneWhere`. */
  lemma NoneWhereExtends(xs: seq<string>, p: string -> bool)
    requires xs != [] && !p(xs[|xs| - 1])
    ensures NoneWhere(xs, p) <==> NoneWhere(xs[..|xs| - 1], p)
  {
    var front := xs[..|xs| - 1];
    assert forall i :: 0 <= i < |front| ==> front[i] == xs[i];
  }

  /** The last element passing `p` stays last when an element failing `p` follows. */
  lemma LastWhereExtends(xs: seq<string>, p: string -> bool, i: int)
    requires 0 <= i < |xs| - 1
    requires LastWhere(xs[..|xs| - 1], p, i)
    requires !p(xs[|xs| - 1])
    ensures LastWhere(xs, p, i)
  {
    var front := xs[..|xs| - 1];
    assert xs[i] == front[i];
    forall j | i < j < |xs| ensures !p(xs[j]) {
      if j < |front| {
        assert xs[j] == front[j];
      }
    }
  }

  /** `extract_social_links` over the resolved links: each link goes to the first platform
      it matches, and a later link for the same platform replaces an earlier one. */
  method ExtractSocialLinks(urls: seq<string>) returns (socialLinks: map<string, string>)
    ensures socialLinks == SocialLinksOf(urls)
  {
    socialLinks := map[];
    for i := 0 to |urls|
      invariant socialLinks == SocialLinksOf(urls[..i])
    {
      assert urls[..i + 1][..i] == urls[..i];
      var absoluteUrl := urls[i];
      var j := 0;
      while j < |SocialPlatforms|
        invariant 0 <= j <= |SocialPlatforms|
        invariant FirstPlatform(absoluteUrl, 0) == FirstPlatform(absoluteUrl, j)
      {
        var (platform, pattern) := SocialPlatforms[j];
        if Contains(Lower(absoluteUrl), pattern) {
          socialLinks := socialLinks[platform := absoluteUrl];
          break;
        }
        j := j + 1;
      }
    }
    assert urls[..|urls|] == urls;
  }

  /** Every key is a platform name, and each platform holds the last link filed under it. */
  lemma {:induction false} SocialLinksLastWins(urls: seq<string>)
    ensures SocialLinksOf(urls).Keys <= PlatformNames()
    ensures forall p :: Get(SocialLinksOf(urls), p) == LastFiledUnder(urls, p)
  {
    if urls != [] {
      SocialLinksLastWins(urls[..|urls| - 1]);
    }
  }

  /** A link that matches no platform is not recorded. */
  lemma UnmatchedLinkDropped(urls: seq<string>, url: string)
    requires forall j :: 0 <= j < |SocialPlatforms| ==> !MatchesPlatform(url, j)
    ensures SocialLinksOf(urls + [url]) == SocialLinksOf(urls)
  {
    assert (urls + [url])[..|urls|] == urls;
  }

  // ---------------------------------------------------------------------------------------
  // is_portfolio_website

  /** The scraped page data the indicator reads; `description` is absent when the page has
      no description meta tag. */
  datatype PortfolioPage = PortfolioPage(
    title: string,
    description: Option<string>,
    projects: seq<Project>,
    skills: seq<string>)

  const PortfolioKeywords: seq<string> := ["portfolio", "projects", "work", "developer", "designer", "engineer"]

  /** `any(keyword in text for keyword in keywords)`. */
  function AnyKeywordIn(keywords: seq<string>, text: string): (r: bool)
    ensures r <==> exists k :: 0 <= k < |keywords| && Contains(text, keywords[k])
  {
    if keywords == [] then false
    else
      var r := Contains(text, keywords[0]) || AnyKeywordIn(keywords[1..], text);
      assert r <==> exists k :: 0 <= k < |keywords| && Contains(text, keywords[k]) by {
        if AnyKeywordIn(keywords[1..], text) {
          var k :| 0 <= k < |keywords[1..]| && Contains(text, keywords[1..][k]);
          assert keywords[k + 1] == keywords[1..][k];
        }
        if exists k :: 0 <= k < |keywords| && Contains(text, keywords[k]) {
          var k :| 0 <= k < |keywords| && Contains(text, keywords[k]);
          if k > 0 {
            assert keywords[1..][k - 1] == keywords[k];
          }
        }
      }
      r
  }

  /** `any(indicators)`. */
  function AnyTrue(bs: seq<bool>): (r: bool)
    ensures r <==> exists k :: 0 <= k < |bs| && bs[k]
  {
    if bs == [] then false
    else
      var r := bs[0] || AnyTrue(bs[1..]);
      assert r <==> exists k :: 0 <= k < |bs| && bs[k] by {
        if AnyTrue(bs[1..]) {
          var k :| 0 <= k < |bs[1..]| && bs[1..][k];
          assert bs[k + 1];
        }
      }
      r
  }

  lemma KeywordOccurs(text: string)
    ensures AnyKeywordIn(PortfolioKeywords, text)
            <==> exists k, i :: 0 <= k < |PortfolioKeywords| && OccursAt(text, PortfolioKeywords[k], i)
  {
    forall k | 0 <= k < |PortfolioKeywords|
      ensures Contains(text, PortfolioKeywords[k]) <==> exists i :: OccursAt(text, PortfolioKeywords[k], i)
    {
      ContainsIff(text, PortfolioKeywords[k]);
    }
  }

  /** `is_portfolio_website`, given the page the scraper returned, or `None` when scraping
      failed: the four indicators, any of which suffices. */
  function IsPortfolioWebsite(page: Option<PortfolioPage>): (r: bool)
    ensures page.None? ==> !r
    ensures page.Some? ==> (r <==>
      || |page.value.projects| > 0
      || |page.value.skills| > 0
      || (exists k, i :: 0 <= k < |PortfolioKeywords| && OccursAt(Lower(page.value.title), PortfolioKeywords[k], i))
      || (exists k, i :: 0 <= k < |PortfolioKeywords|
                         && OccursAt(Lower(page.value.description.GetOr("")), PortfolioKeywords[k], i)))
  {
    match page
    case None => false
    case Some(p) =>
      var title := Lower(p.title);
      var description := Lower(p.description.GetOr(""));
      KeywordOccurs(title);
      KeywordOccurs(description);
      var indicators := [
        |p.projects| > 0,
        |p.skills| > 0,
        AnyKeywordIn(PortfolioKeywords, title),
        AnyKeywordIn(PortfolioKeywords, description)
      ];
      assert AnyTrue(indicators) <==> indicators[0] || indicators[1] || indicators[2] || indicators[3] by {
        if indicators[0] || indicators[1] || indicators[2] || indicators[3] {
          var k :| 0 <= k < 4 && indicators[k];
          assert 0 <= k < |indicators| && indicators[k];
        }
      }
      AnyTrue(indicators)
  }

  /** A developer's page with no listed projects or skills still counts, from its title. */
  lemma DeveloperTitleIndicates()
    ensures IsPortfolioWebsite(Some(PortfolioPage("Developer", None, [], [])))
  {
    assert Lower("Developer") == "developer";
    assert PortfolioKeywords[3] == "developer";
    assert OccursAt("developer", "developer", 0);
  }
}
