/** The pure pieces of backend/instagram_scraper.py: reading a username out of a profile URL
    or an "@handle", and the private-profile test over a fetched profile.

    The three patterns `extract_username_from_url` tries are each a literal text followed by
    a greedy run of characters other than '/' and '?', so `re.search` comes down to finding
    the leftmost position where the literal is followed by at least one such character. */
module Instagram {
  import opened Wrappers
  import opened Text

  predicate InRun(c: char) {
    c != '/' && c != '?'
  }

  /** The maximal run of `InRun` characters starting at `i`: what `([^/?]+)` captures. */
  function Run(s: string, i: nat): (r: string)
    requires i <= |s|
    ensures i + |r| <= |s| && r == s[i..i + |r|]
    ensures forall k :: 0 <= k < |r| ==> InRun(r[k])
    ensures '/' !in r && '?' !in r
    ensures i + |r| == |s| || !InRun(s[i + |r|])
    decreases |s| - i
  {
    if i == |s| || !InRun(s[i]) then []
    else
      var tail := Run(s, i + 1);
      assert forall k :: 0 < k < |tail| + 1 ==> ([s[i]] + tail)[k] == tail[k - 1];
      [s[i]] + tail
  }

  /** What may follow the run for `/?$` to match: nothing, or one '/', then the end of the
      text or a final newline. (The run has already taken any newline that is not after a
      '/'.) */
  predicate AtEndAfterRun(rest: string) {
    rest == "" || rest == "/" || rest == "/\n"
  }

  /** The pattern `lit([^/?]+)`, anchored with `/?$` when `anchored`, matches at position `p`. */
  predicate MatchesAt(s: string, lit: string, p: nat, anchored: bool) {
    && p + |lit| <= |s|
    && s[p..p + |lit|] == lit
    && Run(s, p + |lit|) != []
    && (anchored ==> AtEndAfterRun(s[p + |lit| + |Run(s, p + |lit|)|..]))
  }

  /** `re.search` from position `from`: the group of the leftmost match, or `None`. */
  function Search(s: string, lit: string, from: nat, anchored: bool): (r: Option<string>)
    requires from <= |s|
    ensures r.Some? ==> r.value != [] && '/' !in r.value && '?' !in r.value
    decreases |s| - from
  {
    if MatchesAt(s, lit, from, anchored) then Some(Run(s, from + |lit|))
    else if from == |s| then None
    else Search(s, lit, from + 1, anchored)
  }

  /** `Search` finds the leftmost match and its group. */
  lemma {:induction false} SearchIsLeftmost(s: string, lit: string, from: nat, anchored: bool)
    requires from <= |s|
    ensures var r := Search(s, lit, from, anchored);
      r.Some? ==> exists p :: from <= p <= |s| && MatchesAt(s, lit, p, anchored) && r.value == Run(s, p + |lit|)
                             && forall q :: from <= q < p ==> !MatchesAt(s, lit, q, anchored)
    decreases |s| - from
  {
    if !MatchesAt(s, lit, from, anchored) && from < |s| {
      SearchIsLeftmost(s, lit, from + 1, anchored);
      var r := Search(s, lit, from + 1, anchored);
      if r.Some? {
        var p :| from + 1 <= p <= |s| && MatchesAt(s, lit, p, anchored) && r.value == Run(s, p + |lit|)
                 && forall q :: from + 1 <= q < p ==> !MatchesAt(s, lit, q, anchored);
        assert forall q :: from <= q < p ==> !MatchesAt(s, lit, q, anchored);
      }
    }
  }

  /** `Search` finds no match only when there is none. */
  lemma {:induction false} SearchFailsOnlyWithoutMatch(s: string, lit: string, from: nat, anchored: bool)
    requires from <= |s|
    ensures Search(s, lit, from, anchored).None? <==> forall p :: from <= p <= |s| ==> !MatchesAt(s, lit, p, anchored)
    decreases |s| - from
  {
    if !MatchesAt(s, lit, from, anchored) && from < |s| {
      SearchFailsOnlyWithoutMatch(s, lit, from + 1, anchored);
    }
  }

  const UrlPrefix := "instagram.com/"

  /** `extract_username_from_url`: the first of the three patterns that matches gives the
      username; with none, the input is returned as it is. */
  function ExtractUsername(url: string): string {
    match Search(url, UrlPrefix, 0, false)
    case Some(u) => u
    case None =>
      match Search(url, UrlPrefix, 0, true)
      case Some(u) => u
      case None =>
        match Search(url, "@", 0, false)
        case Some(u) => u
        case None => url
  }

  /** The anchored pattern matches nowhere the plain one does not. */
  lemma AnchoredImpliesPlain(s: string, lit: string)
    ensures Search(s, lit, 0, true).Some? ==> Search(s, lit, 0, false).Some?
  {
    SearchIsLeftmost(s, lit, 0, true);
    SearchFailsOnlyWithoutMatch(s, lit, 0, false);
    if Search(s, lit, 0, true).Some? {
      var p :| 0 <= p <= |s| && MatchesAt(s, lit, p, true);
      assert MatchesAt(s, lit, p, false);
    }
  }

  /** So the second pattern never decides the result: the first pattern then the '@' form, in
      that order, give the same username. */
  lemma SecondPatternRedundant(url: string)
    ensures ExtractUsername(url) == match Search(url, UrlPrefix, 0, false)
                                    case Some(u) => u
                                    case None => Search(url, "@", 0, false).GetOr(url)
  {
    AnchoredImpliesPlain(url, UrlPrefix);
  }

  /** Whenever a pattern matches, the username is non-empty and holds no '/' or '?'; when
      none does, the input comes back unchanged. */
  lemma UsernameShape(url: string)
    ensures var u := ExtractUsername(url);
      || (u != [] && '/' !in u && '?' !in u)
      || (u == url && (forall p :: 0 <= p <= |url| ==> !MatchesAt(url, UrlPrefix, p, false))
                   && (forall p :: 0 <= p <= |url| ==> !MatchesAt(url, "@", p, false)))
  {
    AnchoredImpliesPlain(url, UrlPrefix);
    SearchFailsOnlyWithoutMatch(url, UrlPrefix, 0, false);
    SearchFailsOnlyWithoutMatch(url, "@", 0, false);
  }

  /** A profile URL gives the path segment after the domain. */
  lemma ProfileUrlExample()
    ensures ExtractUsername("instagram.com/jo/") == "jo"
  {
    var s := "instagram.com/jo/";
    assert s[0..14] == UrlPrefix;
    assert Run(s, 16) == [];
    assert Run(s, 15) == "o";
    assert Run(s, 14) == "jo";
    assert MatchesAt(s, UrlPrefix, 0, false);
  }

  /** A handle gives the name after the '@'. */
  lemma HandleExample()
    ensures ExtractUsername("@jo") == "jo"
  {
    var s := "@jo";
    assert Run(s, 3) == [];
    assert Run(s, 2) == "o";
    assert Run(s, 1) == "jo";
    assert !MatchesAt(s, UrlPrefix, 0, false);
    assert MatchesAt(s, "@", 0, false);
  }

  /** The profile a fetch returns, as far as the private test reads it. */
  datatype InstagramProfile = InstagramProfile(bio: Option<string>)

  const PrivateMarker := "This Account is Private"

  /** `is_private_profile`, given the fetched profile or `None` when the fetch failed, which
      counts as private. Otherwise private exactly when the bio (default "") contains the
      marker text, case-sensitively. */
  function IsPrivateProfile(profile: Option<InstagramProfile>): (r: bool)
    ensures profile.None? ==> r
    ensures profile.Some? ==> (r <==> exists i :: OccursAt(profile.value.bio.GetOr(""), PrivateMarker, i))
  {
    match profile
    case None => true
    case Some(p) =>
      ContainsIff(p.bio.GetOr(""), PrivateMarker);
      Contains(p.bio.GetOr(""), PrivateMarker)
  }
}
