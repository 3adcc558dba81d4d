# Candidate scoring engine of web_scraping, in Dafny

This project models the candidate-verification backend of `web_scraping`, and proves what it
computes. The model covers:

- How a portfolio, a GitHub profile and a set of job requirements are turned into a
  `CandidateScore`. That record holds five dimension scores, a weighted overall score, a
  qualification verdict, and strengths, weaknesses and recommendations.
- The text summary of that record.
- The pure post-processing steps of the three scrapers:
  - the GitHub star and language tally;
  - URL normalisation and social-link classification;
  - the portfolio indicators;
  - Instagram username extraction and the private-profile test.

Nothing is fetched. Every network, clock or language-model result is a parameter. A failed
fetch or a missing model is `None`.

Modules, in dependency order:

- `Wrappers`: `Option`.
- `Rounding`: Python's `round(x, 2)` on exact reals, with ties to even, and the capped
  percentage `min(100, n / d * 100) if d > 0 else 100` used by the experience, project and
  GitHub scorers.
- `Text`: `lower`, `in`, `split`, `join`, `isdigit`, `strip` and `int()` on strings.
- `Lists`: `list(set(...))` and list comprehensions.
- `Dicts`: `dict.get` over Dafny maps, and the sum of a dict's values.
- `Candidate`: the job requirements and the portfolio records.
- `Skills`: `normalize_skills` and `calculate_skill_match`.
- `Scorers`: the experience, project, GitHub and education scores.
- `GitHubExtractor`: the repository loop and the profile record of `fetch_github_profile`.
- `WebScraper`: `normalize_url`, `extract_social_links` and `is_portfolio_website`.
- `Instagram`: `extract_username_from_url` and `is_private_profile`.
- `Evaluation`: `evaluate_candidate`, the fallback of `match_skills_with_gemini`, and the
  scoring half of `analyze_candidate`.
- `Summary`: `generate_candidate_summary`.

## Behaviour modelled as written

The model keeps several behaviours of the code that are easy to miss:

- `is_qualified` compares the UNROUNDED overall score with 75. The SKILL gate uses the
  required-skill share, not the weighted match score. One consequence: a reported overall
  score of 75.0 can come with "Not Qualified" (`Evaluation.RoundedOverallMisleads`).
- The profile that `fetch_github_profile` returns has a `public_repos` key and no
  `repositories` key, yet `calculate_github_score` reads `repositories`. So in the combined
  analysis the repository part of the GitHub score is always 0 whenever a repository minimum
  is set.
- The GitHub activity score is the raw event count and is not capped. The GitHub score can
  therefore exceed 100 (`Scorers.GitHubScoreCanExceed100`).
- The education keywords are those of the code: "high school", "associate", "bachelor",
  "master", "phd". The code has no "doctorate" key, and the model follows the code: a
  "doctorate" requirement is unknown and scores 100.
- A zero or negative minimum counts as fully met. A reversed year range ("2023-2020") gives a
  negative number of years and a negative experience score.
- In the social-link table a later link for a platform replaces the earlier one. The
  platform patterns are compared case-insensitively. The scheme test of `normalize_url` is
  case-sensitive.

## Model

| member | source | states |
|---|---|---|
| Rounding.RoundHalfEven | backend/ai_analysis.py:174 | the nearest integer, ties to even, as Python's `round` |
| Rounding.Round2 | backend/ai_analysis.py:149-151 | `round(x, 2)`: a multiple of 0.01 within 0.005 of `x` |
| Rounding.RoundHalfEvenMonotone | backend/ai_analysis.py:174 | rounding to an integer preserves order |
| Rounding.Round2Monotone | backend/ai_analysis.py:339 | rounding to two decimals preserves order |
| Rounding.Round2OfWhole | backend/ai_analysis.py:174 | whole numbers are left unchanged by rounding |
| Rounding.Round2Within | backend/ai_analysis.py:339 | rounding keeps a value inside any integer bounds it had |
| Rounding.Cap100 | backend/ai_analysis.py:173 | `min(100, x)`: at most 100 and at most x, equal to one of them |
| Rounding.RatioCapped | backend/ai_analysis.py:231 | `min(100, n / d * 100)` is 100 whenever `n >= d > 0` |
| Rounding.Share | backend/ai_analysis.py:142-143 | `hits / total * 100` or 0 for an empty total; in [0,100] when `hits <= total`; 100 when all hit |
| Rounding.CappedShare | backend/ai_analysis.py:185 | 100 for a non-positive minimum or a met one; otherwise the plain percentage; never above 100 |
| Text.Lower | backend/ai_analysis.py:104 | same length, each ASCII capital replaced by its small letter |
| Text.ContainsIff | backend/ai_analysis.py:226 | `sub in s` holds exactly when `sub` occurs at some index of `s` |
| Text.Split | backend/ai_analysis.py:163 | `split` on one character: at least one piece, no piece holds the separator, joining them gives the input back |
| Text.SplitOnce | backend/ai_analysis.py:163-164 | a text with exactly one separator splits into the part before it and the part after it |
| Text.ParseInt | backend/ai_analysis.py:166 | `int()` fails exactly when the stripped text, after one optional sign, is not a decimal literal; a digit string gives its decimal value |
| Text.LiteralValue | backend/ai_analysis.py:166 | on stripped text: `None` exactly when the text after an optional sign is not a decimal literal |
| Text.ParseIntOfLiteral | backend/ai_analysis.py:166 | whitespace padding, a sign and a literal with underscores: the value of the digits glued across the underscores, negated for `-` |
| Text.Strip | backend/ai_analysis.py:166 | `strip()` returns a slice of the input with only whitespace cut from its two ends, and with no whitespace at either end |
| Text.StripPadded | backend/ai_analysis.py:166 | stripping whitespace padding from around a text with no whitespace at its ends gives exactly that text |
| Text.StripRange | backend/ai_analysis.py:166 | when everything before index i and from index j on is whitespace, and the slice between has no whitespace at its ends, `strip()` returns exactly that slice |
| Text.DropUnderscores | backend/ai_analysis.py:166 | no longer than the input and holds no underscore |
| Text.DropUnderscoresNoop | backend/ai_analysis.py:166 | a text without underscores is unchanged |
| Text.DropUnderscoresJoinsPieces | backend/ai_analysis.py:166 | the result is the pieces between the underscores glued together in order |
| Text.DropUnderscoresAppend | backend/ai_analysis.py:166 | removing underscores distributes over concatenation |
| Lists.SetToSeq | backend/ai_analysis.py:110 | `list(set(xs))`: no duplicates, exactly the elements of the set |
| Lists.KeepIn | backend/ai_analysis.py:137-138 | the comprehension `[x for x in s if x in other]`: the common elements, duplicate-free when `s` is |
| Lists.KeepNotIn | backend/ai_analysis.py:139 | `[x for x in s if x not in other]`: the elements missing from `other` |
| Lists.KeepSplits | backend/ai_analysis.py:137-139 | each element goes to exactly one of the two comprehensions |
| Dicts.Get | backend/github_extractor.py:57 | `d.get(k)`: present exactly when the key is, with its value |
| Dicts.SumValuesUpdate | backend/github_extractor.py:57 | `d[k] = v` changes the sum of the values by `v` minus the old value, or 0 for a new key |
| Skills.LookupGivesDisplayForm | backend/ai_analysis.py:48-100 | the table only maps to its display forms |
| Skills.DisplayFormsFixed | backend/ai_analysis.py:48-108 | each display form normalises to itself |
| Skills.CanonicalIdempotent | backend/ai_analysis.py:103-108 | normalising an already normalised skill changes nothing |
| Skills.NormalizeSkills | backend/ai_analysis.py:102-110 | the result has no duplicates and holds the canonical form of every input skill |
| Skills.NormalizeIdempotent | backend/ai_analysis.py:46-110 | normalising a normalised list gives the same set |
| Skills.NormalizedEmpty | backend/ai_analysis.py:102-110 | the normalised set is empty exactly when the input list is |
| Skills.WeightedMatch | backend/ai_analysis.py:146 | 70/30 weighting stays in [0,100]; without preferred skills it is at most 70 |
| Skills.KeepInCount | backend/ai_analysis.py:137-142 | the number of matching skills is the size of the intersection of the sets |
| Skills.CalculateSkillMatch | backend/ai_analysis.py:130-155 | matching and missing lists are the set intersections and difference without duplicates; matching plus missing is the number of required skills; every score is the rounded share of the normalised sets and lies in [0,100]; no required skills gives 0 |
| Skills.SelfMatch | backend/ai_analysis.py:137-150 | a candidate matched against their own skills gets 100 exactly when the list is non-empty |
| Scorers.ExperienceScoreOf | backend/ai_analysis.py:172-174 | at most 100; 100 for a non-positive minimum or when the years meet it; non-negative when the year total is |
| Scorers.ExperienceScore | backend/ai_analysis.py:157-174 | the loop totals each entry's span and returns the capped, rounded percentage of `ExperienceScoreOf` |
| Scorers.SplitRange | backend/ai_analysis.py:163 | "start-end" splits into its two parts |
| Scorers.SpanOfParts | backend/ai_analysis.py:163-168 | a two-part date with a numeric start spans end minus start, where a non-numeric end is the current year |
| Scorers.SpanOfDashedDate | backend/ai_analysis.py:161-168 | the same for a date written as start, dash, end |
| Scorers.SpanWithoutDash | backend/ai_analysis.py:163-164 | a date without a dash adds nothing |
| Scorers.TotalYearsOne | backend/ai_analysis.py:159-168 | one entry contributes its span, or 0 when it is skipped |
| Scorers.ExampleSpans | backend/ai_analysis.py:162-168 | "2020-2023" spans 3 years; "2023-2020" spans -3 |
| Scorers.ExperienceExamples | backend/ai_analysis.py:157-174 | three years against a minimum of 3 score 100, against 6 score 50 |
| Scorers.ReversedRangeIsNegative | backend/ai_analysis.py:168-173 | a reversed range gives a score of -100 |
| Scorers.QualityCount | backend/ai_analysis.py:182 | at most the number of projects; equal exactly when every project has a description and technologies |
| Scorers.ProjectScore | backend/ai_analysis.py:176-190 | 0 without projects; in [0,100]; 100 when enough projects all have quality; at most 60 when none has |
| Scorers.GitHubScore | backend/ai_analysis.py:192-203 | 0 without data; in [0,100] for non-negative counts and an activity of at most 100 |
| Scorers.GitHubScoreWithoutRepositories | backend/ai_analysis.py:198 | with no `repositories` key and a positive repository minimum the score is at most 70 |
| Scorers.GitHubScoreCanExceed100 | backend/ai_analysis.py:199-202 | an uncapped activity of 1000 gives a score of 370 |
| Scorers.LevelOf | backend/ai_analysis.py:218 | `get(key, 0)`: 0 when no entry has the key; otherwise the value of the first entry with that key |
| Scorers.EducationScoreOf | backend/ai_analysis.py:205-231 | in [0,100]; 100 when no education is required or the requirement is unknown |
| Scorers.EducationScore | backend/ai_analysis.py:205-231 | the nested loop finds the highest matched level and returns `EducationScoreOf` |
| Scorers.BestLevelIsMax | backend/ai_analysis.py:225-227 | the best level of a degree is at least every level whose keyword it contains, and is one of them or 0 |
| Scorers.HighestLevelIsMax | backend/ai_analysis.py:222-227 | the highest level over all entries is the maximum of the matched levels, or 0 |
| Scorers.UnknownRequirementsScore100 | backend/ai_analysis.py:218-220 | "doctorate" and "bachelor's" are not keys, so they score 100 |
| Scorers.RequirementMetScores100 | backend/ai_analysis.py:229-231 | a known requirement at or below the highest level scores 100 |
| Scorers.MasterDegreeLevel | backend/ai_analysis.py:222-227 | "Master of Science" reaches the master level |
| Scorers.MasterSatisfiesBachelor | backend/ai_analysis.py:205-231 | a master's degree fully meets a bachelor requirement |
| Scorers.NoMatchingDegreeScores0 | backend/ai_analysis.py:222-231 | a known requirement with no matching degree scores 0 |
| GitHubExtractor.LanguageCount | backend/github_extractor.py:55-57 | a language is counted at most once per repository, and an empty language never |
| GitHubExtractor.WithLanguage | backend/github_extractor.py:56 | at most one per repository |
| GitHubExtractor.CountsAppend | backend/github_extractor.py:55-57 | one more repository adds one to its own language's count only |
| GitHubExtractor.StarsAppend | backend/github_extractor.py:51-57 | one more repository adds its stars, 0 when missing, and at most one counted language |
| GitHubExtractor.CountOneMore | backend/github_extractor.py:57 | `languages[l] = languages.get(l, 0) + 1` keeps every entry equal to its count |
| GitHubExtractor.CountNoLanguage | backend/github_extractor.py:56 | a repository without a language changes no entry |
| GitHubExtractor.FetchGitHubProfile | backend/github_extractor.py:48-75 | total stars is the sum; each language's entry is its count and absent when 0; keys are non-empty; counts are in [1, repos]; counts sum to the repositories with a language, at most their number; activity is the event count; the user fields are copied |
| GitHubExtractor.ScorerView | backend/github_extractor.py:62-75 | the record offers the scorer total stars and activity, and no `repositories` |
| WebScraper.NormalizeUrl | backend/web_scraper.py:31-35 | "https://" is prefixed exactly when neither scheme starts the URL; the result always has a scheme |
| WebScraper.NormalizeUrlIdempotent | backend/web_scraper.py:31-35 | normalising twice is normalising once |
| WebScraper.UpperCaseSchemeIsPrefixed | backend/web_scraper.py:33-34 | an upper-case scheme gets a second, lower-case one |
| WebScraper.PlatformNames | backend/web_scraper.py:49-59 | every platform of the table is a possible key |
| WebScraper.FirstPlatform | backend/web_scraper.py:66-69 | the first platform in table order whose pattern occurs, ignoring case; none exactly when no pattern occurs |
| WebScraper.LastFiledUnder | backend/web_scraper.py:61-69 | a link returned is one of the links and is filed under that platform |
| WebScraper.LastFiledUnderNone | backend/web_scraper.py:61-69 | nothing is found exactly when no link is filed under the platform |
| WebScraper.LastFiledUnderIsLast | backend/web_scraper.py:61-69 | the link found is filed under the platform and no later link is |
| WebScraper.ExtractSocialLinks | backend/web_scraper.py:61-71 | the two loops build exactly the dictionary `SocialLinksOf` |
| WebScraper.SocialLinksLastWins | backend/web_scraper.py:61-71 | keys are platform names, and each platform holds the last link filed under it |
| WebScraper.UnmatchedLinkDropped | backend/web_scraper.py:66-69 | a link matching no platform leaves the dictionary unchanged |
| WebScraper.AnyKeywordIn | backend/web_scraper.py:194-197 | `any(k in text for k in keywords)` holds exactly when one keyword is contained |
| WebScraper.AnyTrue | backend/web_scraper.py:200 | `any` holds exactly when one element is true |
| WebScraper.KeywordOccurs | backend/web_scraper.py:194-197 | a keyword indicator holds exactly when a keyword occurs at some index |
| WebScraper.IsPortfolioWebsite | backend/web_scraper.py:177-202 | false when scraping failed; otherwise true exactly when there are projects, skills, or a keyword in the lower-cased title or description |
| WebScraper.DeveloperTitleIndicates | backend/web_scraper.py:191-200 | a bare "Developer" title suffices |
| Instagram.Run | backend/instagram_scraper.py:25 | `[^/?]+` greedily takes the longest run without '/' or '?' |
| Instagram.Search | backend/instagram_scraper.py:31-33 | a found group is non-empty and holds neither '/' nor '?' |
| Instagram.SearchIsLeftmost | backend/instagram_scraper.py:31-33 | a found group belongs to a match with no match further left |
| Instagram.SearchFailsOnlyWithoutMatch | backend/instagram_scraper.py:31-35 | no group is found exactly when the pattern matches nowhere |
| Instagram.AnchoredImpliesPlain | backend/instagram_scraper.py:25-26 | the `/?$` pattern matches only where the plain one does |
| Instagram.SecondPatternRedundant | backend/instagram_scraper.py:24-35 | the username comes from the first pattern, else from the '@' pattern, else it is the input |
| Instagram.UsernameShape | backend/instagram_scraper.py:22-35 | the username is non-empty without '/' or '?', or it is the input and no pattern matches |
| Instagram.ProfileUrlExample | backend/instagram_scraper.py:25 | "instagram.com/jo/" gives "jo" |
| Instagram.HandleExample | backend/instagram_scraper.py:27 | "@jo" gives "jo" |
| Instagram.IsPrivateProfile | backend/instagram_scraper.py:123-137 | a failed fetch counts as private; else private exactly when the bio contains the marker text |
| Evaluation.FlaggedMember | backend/ai_analysis.py:306-324 | a message is reported exactly when its condition holds |
| Evaluation.DeterministicOverall | backend/ai_analysis.py:278-292 | the 35/25/20/15/5 weighting stays in [0,100] and is the common value when all scores agree |
| Evaluation.Judge | backend/ai_analysis.py:306-309 | one dimension appends a strength at 80 or above, a weakness below 60 |
| Evaluation.StrengthsAndWeaknesses | backend/ai_analysis.py:303-324 | the four blocks produce the flagged strengths and weaknesses in dimension order |
| Evaluation.Recommend | backend/ai_analysis.py:329-330 | a dimension below 70 appends its recommendation |
| Evaluation.Recommendations | backend/ai_analysis.py:327-336 | none when qualified, else the recommendation of each dimension below 70 in order |
| Evaluation.EvaluateCandidate | backend/ai_analysis.py:233-349 | the record is `Assessment` over the five scorers; the missing skills are the required ones the candidate lacks, without duplicates |
| Evaluation.OneVerdictPerDimension | backend/ai_analysis.py:306-324 | a dimension is a strength exactly at 80 or above, a weakness exactly below 60, never both |
| Evaluation.RecommendationsWhenUnqualified | backend/ai_analysis.py:327-336 | qualified gives no recommendations; otherwise a recommendation exactly for each dimension below 70 |
| Evaluation.QualifiedHasNoExperienceOrProjectWeakness | backend/ai_analysis.py:295-319 | a qualified candidate has no experience or project weakness |
| Evaluation.EducationNeverReported | backend/ai_analysis.py:303-336 | the education score changes no strength or weakness, and every recommendation is one of the four messages |
| Evaluation.OverallInRange | backend/ai_analysis.py:286-292 | dimension scores in [0,100] give a reported overall score in [0,100] |
| Evaluation.RoundedOverallMisleads | backend/ai_analysis.py:295-300 | an unrounded 74.9965 is reported as 75.0 yet not qualified |
| Evaluation.FallbackAnalysis | backend/ai_analysis.py:425-426 | the basic matcher's result offers only a match score |
| Evaluation.MatchSkillsWithGemini | backend/ai_analysis.py:423-449 | a reply is used as it is; without one the rounded basic match, at most 70, and no skill lists |
| Evaluation.LlmOverall | backend/ai_analysis.py:499-505 | the 40/20/20/10/10 weighting stays in [0,100] and is the common value when all scores agree |
| Evaluation.CombineLlm | backend/ai_analysis.py:508-519 | qualified exactly when the unrounded overall score is at least 70; missing lists become empty |
| Evaluation.AnalyzeScores | backend/ai_analysis.py:490-519 | the evaluation combines the analysis with the four scorers; the fallback gives empty lists and a skill score of at most 70; a fetched profile with a repository minimum and activity up to 100 scores at most 70 on GitHub |
| Evaluation.FallbackReportsNothing | backend/ai_analysis.py:516-518 | without the model, no strengths, weaknesses or recommendations are reported |
| Summary.Bullets | backend/ai_analysis.py:368-369 | one line per item, "- " and the item, in order |
| Summary.HeaderLines | backend/ai_analysis.py:356-363 | the summary opens with eight lines |
| Summary.AppendSection | backend/ai_analysis.py:365-381 | the loop appends the heading and a bullet per item, or nothing for an empty list |
| Summary.GenerateSummary | backend/ai_analysis.py:351-383 | the text is the header and the three sections joined by newlines |
| Summary.JoinStartsWithFirst | backend/ai_analysis.py:383 | joined text starts with its first line |
| Summary.SummaryOpening | backend/ai_analysis.py:356-357 | the text starts with the overall-score line; the status line says Qualified exactly when qualified |
| Summary.SectionsPresentIff | backend/ai_analysis.py:365-381 | each section heading appears exactly when its list is non-empty |
| Summary.StrengthsListedInOrder | backend/ai_analysis.py:365-369 | the strengths heading is line 9 and the strengths follow it as bullets, in order |

## Left out

- Network access is not modelled. This covers `scrape_portfolio`, the HTTP calls in
  `fetch_github_profile` and `get_repository_details`, and `scrape_instagram_profile` with
  its browser driver. Their results are parameters, and a failure is `None`.
- Gemini is not modelled: its configuration, `extract_skills_with_gemini`, and the prompting
  in `match_skills_with_gemini`. The model's reply is an input, and its absence stands for
  both a missing model and a failed call.
- `extract_skills_from_text` and backend/resume_parser.py are left out. They use regular
  expressions with word boundaries, and PDF and DOCX decoding.
- HTML parsing with BeautifulSoup is left out: `extract_links`, `extract_projects`,
  `extract_skills`, `is_valid_url` and `urljoin`. Links reach the social-link loop already
  resolved to absolute URLs.
- backend/main.py and backend/run_analysis.py are left out. They are web and command-line
  entry points, not part of this model.
- Floating point is not modelled. Scores are exact reals rounded half to even, so binary
  representation errors are not reproduced.
- Summary.GenerateSummary: `str(float)` is the parameter `fmt`, applied to every score. In the
  code several scores can be Python ints: the literal 0 and 100 returns and `min(100, ...)` when
  it picks 100. Those print without ".0", and one `fmt` over reals cannot tell them apart.
- The clock is not modelled. The current year and the `last_updated` timestamp are
  parameters.
- Text functions cover ASCII only: `lower`, `isdigit` and `int()` accept no non-ASCII
  letters or digits.
- Scorers.ExperienceScore: in the code, a date key holding a non-string fails with an
  exception. That case is not modelled, and neither is a present key holding `None`.
- Scorers.EducationScore: a `degree` key present with the value `None` raises `AttributeError`
  in the code (backend/ai_analysis.py:224). The model has no such value and reads a missing
  degree as "".
- Scorers.GitHubScore: a `total_stars`, `repositories` or `activity_score` key present with
  the value `None` raises `TypeError` in the code (backend/ai_analysis.py:197-202). The model
  has no such value and reads a missing key as 0.
- Two defects in the original are not reproduced: the import of `PortfolioData` at
  backend/ai_analysis.py:9 and the attribute access at backend/ai_analysis.py:467. The
  scorers take an explicit `Portfolio` record instead.
- Evaluation.EvaluateCandidate: an empty GitHub dictionary is falsy in the code and scores 0.
  The model represents it as `None`.
- Key insertion order of dictionaries is not modelled: `languages` and `social_links` are
  Dafny maps. Nothing in the core reads that order.
- The arbitrary order of `list(set(...))`: the model enumerates the set in an unspecified
  order, so the order of the skill lists is never fixed.
- Instagram.Search: only the three literal-plus-run patterns of `extract_username_from_url`
  are modelled, not regular expressions in general.
