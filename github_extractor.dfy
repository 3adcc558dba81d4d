/** The post-processing half of `fetch_github_profile` (backend/github_extractor.py): given
    the user record, the repository list and the public-event list the API returned, sum the
    stars, count repositories per language and build the profile record. */
module GitHubExtractor {
  import opened Wrappers
  import opened Lists
  import opened Dicts
  import opened Candidate

  /** A repository as the API lists it; only the two keys the loop reads. */
  datatype Repo = Repo(stargazersCount: Option<int>, language: Option<string>)

  /** The user record; each key may be missing. */
  datatype User = User(
    name: Option<string>,
    bio: Option<string>,
    location: Option<string>,
    publicRepos: Option<int>,
    followers: Option<int>,
    following: Option<int>,
    createdAt: Option<string>,
    htmlUrl: Option<string>)

  /** The dictionary `fetch_github_profile` returns. It has `public_repos`; it has no
      `repositories` key. */
  datatype GitHubProfile = GitHubProfile(
    name: Option<string>,
    bio: Option<string>,
    location: Option<string>,
    publicRepos: Option<int>,
    followers: Option<int>,
    following: Option<int>,
    createdAt: Option<string>,
    profileUrl: Option<string>,
    languages: map<string, nat>,
    totalStars: int,
    activityScore: nat,
    lastUpdated: string)

  /** The stars of the repositories, a missing count read as 0. */
  function SumStars(repos: seq<Repo>): int {
    if repos == [] then 0
    else SumStars(repos[..|repos| - 1]) + repos[|repos| - 1].stargazersCount.GetOr(0)
  }

  /** The number of repositories whose language is `lang`; an empty language is never counted. */
  function LanguageCount(repos: seq<Repo>, lang: string): (n: nat)
    ensures n <= |repos|
    ensures lang == "" ==> n == 0
  {
    if repos == [] then 0
    else
      var last := repos[|repos| - 1];
      LanguageCount(repos[..|repos| - 1], lang) + (if last.language == Some(lang) && lang != "" then 1 else 0)
  }

  /** The entry `languages.get(lang)` should hold: the count, absent when it is 0. */
  function LanguageEntry(repos: seq<Repo>, lang: string): Option<nat> {
    var n := LanguageCount(repos, lang);
    if n == 0 then None else Some(n)
  }

  /** The number of repositories with a non-empty language. */
  function WithLanguage(repos: seq<Repo>): (n: nat)
    ensures n <= |repos|
  {
    if repos == [] then 0
    else WithLanguage(repos[..|repos| - 1]) + (if Truthy(repos[|repos| - 1].language) then 1 else 0)
  }

  lemma CountsAppend(prefix: seq<Repo>, r: Repo, lang: string)
    ensures LanguageCount(prefix + [r], lang)
              == LanguageCount(prefix, lang) + (if r.language == Some(lang) && lang != "" then 1 else 0)
  {
    var s := prefix + [r];
    assert s[..|s| - 1] == prefix;
  }

  lemma StarsAppend(prefix: seq<Repo>, r: Repo)
    ensures SumStars(prefix + [r]) == SumStars(prefix) + r.stargazersCount.GetOr(0)
    ensures WithLanguage(prefix + [r]) == WithLanguage(prefix) + (if Truthy(r.language) then 1 else 0)
  {
    assert (prefix + [r])[..|prefix|] == prefix;
  }

  /** The counts after one more repository with a non-empty language `lang`:
      `languages[lang] = languages.get(lang, 0) + 1` keeps every entry equal to its count. */
  lemma CountOneMore(prefix: seq<Repo>, r: Repo, d: map<string, nat>)
    requires Truthy(r.language)
    requires forall lang :: Get(d, lang) == LanguageEntry(prefix, lang)
    ensures var l := r.language.value;
      forall lang :: Get(d[l := Get(d, l).GetOr(0) + 1], lang) == LanguageEntry(prefix + [r], lang)
  {
    var l := r.language.value;
    var d' := d[l := Get(d, l).GetOr(0) + 1];
    forall lang ensures Get(d', lang) == LanguageEntry(prefix + [r], lang) {
      CountsAppend(prefix, r, lang);
      assert Get(d, lang) == LanguageEntry(prefix, lang);
    }
  }

  /** A repository without a language changes no count. */
  lemma CountNoLanguage(prefix: seq<Repo>, r: Repo, d: map<string, nat>)
    requires !Truthy(r.language)
    requires forall lang :: Get(d, lang) == LanguageEntry(prefix, lang)
    ensures forall lang :: Get(d, lang) == LanguageEntry(prefix + [r], lang)
  {
    forall lang ensures Get(d, lang) == LanguageEntry(prefix + [r], lang) {
      CountsAppend(prefix, r, lang);
      assert Get(d, lang) == LanguageEntry(prefix, lang);
    }
  }

  /** The repository loop and the returned record of `fetch_github_profile`. `now` stands for
      the timestamp taken from the clock. */
  method FetchGitHubProfile<Event>(user: User, repos: seq<Repo>, events: seq<Event>, now: string)
    returns (profile: GitHubProfile)
    ensures profile.totalStars == SumStars(repos)
    ensures forall lang :: Get(profile.languages, lang) == LanguageEntry(repos, lang)
    ensures forall lang :: lang in profile.languages ==> lang != "" && 0 < profile.languages[lang] <= |repos|
    ensures SumValues(profile.languages) == WithLanguage(repos) <= |repos|
    ensures profile.activityScore == |events|
    ensures profile.publicRepos == user.publicRepos && profile.profileUrl == user.htmlUrl
    ensures profile.name == user.name && profile.bio == user.bio && profile.location == user.location
    ensures profile.followers == user.followers && profile.following == user.following
    ensures profile.createdAt == user.createdAt && profile.lastUpdated == now
  {
    var languages: map<string, nat> := map[];
    var totalStars := 0;
    for i := 0 to |repos|
      invariant totalStars == SumStars(repos[..i])
      invariant forall lang :: Get(languages, lang) == LanguageEntry(repos[..i], lang)
      invariant SumValues(languages) == WithLanguage(repos[..i])
    {
      ghost var prefix, repo := repos[..i], repos[i];
      assert repos[..i + 1] == prefix + [repo];
      StarsAppend(prefix, repo);
      totalStars := totalStars + repos[i].stargazersCount.GetOr(0);
      if Truthy(repos[i].language) {
        CountOneMore(prefix, repo, languages);
        var lang := repos[i].language.value;
        SumValuesUpdate(languages, lang, Get(languages, lang).GetOr(0) + 1);
        languages := languages[lang := Get(languages, lang).GetOr(0) + 1];
      } else {
        CountNoLanguage(prefix, repo, languages);
      }
    }
    assert repos[..|repos|] == repos;
    forall lang | lang in languages
      ensures lang != "" && 0 < languages[lang] <= |repos|
    {
      assert Get(languages, lang) == LanguageEntry(repos, lang);
    }
    var activityScore := |events|;
    profile := GitHubProfile(user.name, user.bio, user.location, user.publicRepos, user.followers,
                             user.following, user.createdAt, user.htmlUrl, languages, totalStars,
                             activityScore, now);
  }

  /** What the GitHub scorer reads from this record: `total_stars` and `activity_score`, and
      no `repositories` key. */
  function ScorerView(profile: GitHubProfile): (s: GitHubStats)
    ensures s.repositories.None?
    ensures s.totalStars == Some(profile.totalStars) && s.activityScore == Some(profile.activityScore as int)
  {
    GitHubStats(Some(profile.totalStars), None, Some(profile.activityScore))
  }
}
