/** The experience, project, GitHub and education scorers of backend/ai_analysis.py. Each
    returns a percentage rounded to two decimals; the defaults for an empty input differ from
    scorer to scorer and are kept exactly. */
module Scorers {
  import opened Wrappers
  import opened Text
  import opened Rounding
  import opened Candidate

  // ---------------------------------------------------------------------------------------
  // Experience

  /** The years one entry contributes, or `None` when it is skipped: no date, a date that
      does not split on '-' into exactly two pieces, or a start `int()` rejects. An end that
      is not all digits (such as "Present") stands for the current year. */
  function EntrySpan(e: ExperienceEntry, currentYear: int): Option<int> {
    if !Truthy(e.date) then None
    else
      var years := Split(e.date.value, '-');
      if |years| != 2 then None
      else
        match ParseInt(years[0])
        case None => None
        case Some(start) =>
          var end := if IsDigits(years[1]) then DigitsValue(years[1]) else currentYear;
          Some(end - start)
  }

  /** `total_years` after the entries of `entries`. */
  function TotalYears(entries: seq<ExperienceEntry>, currentYear: int): int {
    if entries == [] then 0
    else
      TotalYears(entries[..|entries| - 1], currentYear)
      + EntrySpan(entries[|entries| - 1], currentYear).GetOr(0)
  }

  /** What `calculate_experience_score` returns. */
  function ExperienceScoreOf(entries: seq<ExperienceEntry>, minYears: int, currentYear: int): (r: real)
    ensures r <= 100.0
    ensures minYears <= 0 ==> r == 100.0
    ensures minYears > 0 && TotalYears(entries, currentYear) >= minYears ==> r == 100.0
    ensures TotalYears(entries, currentYear) >= 0 ==> r >= 0.0
  {
    var total := TotalYears(entries, currentYear);
    var score := CappedShare(total as real, minYears);
    Round2Within(score, if total >= 0 then 0 else score.Floor, 100);
    Round2OfWhole(100);
    Round2(score)
  }

  /** `calculate_experience_score`: accumulate the span of every usable entry, then score
      the total against the minimum. */
  method ExperienceScore(experience: seq<ExperienceEntry>, minYears: int, currentYear: int)
    returns (score: real)
    ensures score == ExperienceScoreOf(experience, minYears, currentYear)
  {
    var totalYears := 0;
    for i := 0 to |experience|
      invariant totalYears == TotalYears(experience[..i], currentYear)
    {
      assert experience[..i + 1][..i] == experience[..i];
      assert TotalYears(experience[..i + 1], currentYear)
             == TotalYears(experience[..i], currentYear) + EntrySpan(experience[i], currentYear).GetOr(0);
      ghost var before := totalYears;
      var exp := experience[i];
      if Truthy(exp.date) {
        var years := Split(exp.date.value, '-');
        if |years| == 2 {
          match ParseInt(years[0]) {
            case Some(startYear) =>
              var endYear := if IsDigits(years[1]) then DigitsValue(years[1]) else currentYear;
              totalYears := totalYears + (endYear - startYear);
            case None =>
          }
        }
      }
      assert totalYears == before + EntrySpan(exp, currentYear).GetOr(0);
    }
    assert experience[..|experience|] == experience;
    score := Round2(CappedShare(totalYears as real, minYears));
  }

  /** A digit string holds no '-'. */
  lemma DigitsHaveNoDash(a: string)
    requires forall k :: 0 <= k < |a| ==> IsDigit(a[k])
    ensures '-' !in a
  {
  }

  /** "A-E" with a digit string A and no '-' in E splits into A and E. */
  lemma SplitRange(a: string, e: string)
    requires IsDigits(a) && '-' !in e
    ensures Split(a + "-" + e, '-') == [a, e]
  {
    var s := a + "-" + e;
    assert s[|a|] == '-' && s[..|a|] == a && s[|a| + 1..] == e;
    DigitsHaveNoDash(a);
    SplitOnce(s, '-', |a|);
  }

  /** A date that splits into a digit string A and an end E contributes from A until E, or
      until the current year when E is not a digit string. */
  lemma SpanOfParts(d: string, a: string, e: string, currentYear: int)
    requires Split(d, '-') == [a, e] && IsDigits(a) && d != ""
    ensures EntrySpan(ExperienceEntry(Some(d)), currentYear)
            == Some((if IsDigits(e) then DigitsValue(e) else currentYear) - DigitsValue(a))
  {
  }

  /** An entry "A-E" with a digit string A and no '-' in E contributes the years from A to
      E, or to the current year when E is not a digit string (such as "Present"). */
  lemma SpanOfDashedDate(a: string, e: string, currentYear: int)
    requires IsDigits(a) && '-' !in e
    ensures EntrySpan(ExperienceEntry(Some(a + "-" + e)), currentYear)
            == Some((if IsDigits(e) then DigitsValue(e) else currentYear) - DigitsValue(a))
  {
    SplitRange(a, e);
    SpanOfParts(a + "-" + e, a, e, currentYear);
  }

  /** A date without a '-' is skipped. */
  lemma SpanWithoutDash(d: string, currentYear: int)
    requires '-' !in d
    ensures EntrySpan(ExperienceEntry(Some(d)), currentYear) == None
  {
  }

  lemma TotalYearsOne(e: ExperienceEntry, currentYear: int)
    ensures TotalYears([e], currentYear) == EntrySpan(e, currentYear).GetOr(0)
  {
    assert [e][..0] == [];
  }

  lemma YearValues()
    ensures IsDigits("2020") && DigitsValue("2020") == 2020
    ensures IsDigits("2023") && DigitsValue("2023") == 2023
  {
    assert "2020"[..3] == "202" && "202"[..2] == "20" && "20"[..1] == "2" && "2"[..0] == "";
    assert "2023"[..3] == "202";
  }

  /** The span of "2020-2023" is 3 and that of "2023-2020" is -3. */
  lemma ExampleSpans(currentYear: int)
    ensures EntrySpan(ExperienceEntry(Some("2020-2023")), currentYear) == Some(3)
    ensures EntrySpan(ExperienceEntry(Some("2023-2020")), currentYear) == Some(-3)
  {
    YearValues();
    assert "2020-2023" == "2020" + "-" + "2023";
    assert "2023-2020" == "2023" + "-" + "2020";
    SpanOfDashedDate("2020", "2023", currentYear);
    SpanOfDashedDate("2023", "2020", currentYear);
  }

  /** "2020-2023" is three years: 100 against a minimum of 3 and 50 against 6. */
  lemma ExperienceExamples(currentYear: int)
    ensures ExperienceScoreOf([ExperienceEntry(Some("2020-2023"))], 3, currentYear) == 100.0
    ensures ExperienceScoreOf([ExperienceEntry(Some("2020-2023"))], 6, currentYear) == 50.0
  {
    ExampleSpans(currentYear);
    TotalYearsOne(ExperienceEntry(Some("2020-2023")), currentYear);
    Round2OfWhole(50);
  }

  /** A reversed range subtracts years, so the score can be negative: "2023-2020" against a
      minimum of 3 scores -100. */
  lemma ReversedRangeIsNegative(currentYear: int)
    ensures ExperienceScoreOf([ExperienceEntry(Some("2023-2020"))], 3, currentYear) == -100.0
  {
    ExampleSpans(currentYear);
    TotalYearsOne(ExperienceEntry(Some("2023-2020")), currentYear);
    Round2OfWhole(-100);
  }

  // ---------------------------------------------------------------------------------------
  // Projects

  /** A project with both a non-empty description and a non-empty technology list. */
  predicate IsQualityProject(p: Project) {
    Truthy(p.description) && p.technologies.Some? && p.technologies.value != []
  }

  function QualityCount(projects: seq<Project>): (n: nat)
    ensures n <= |projects|
    ensures n == |projects| <==> forall k :: 0 <= k < |projects| ==> IsQualityProject(projects[k])
  {
    if projects == [] then 0
    else (if IsQualityProject(projects[0]) then 1 else 0) + QualityCount(projects[1..])
  }

  /** `calculate_project_score`: 0 for no projects; otherwise 60% quantity against the
      minimum (capped at 100) and 40% the share of quality projects. */
  function ProjectScore(projects: seq<Project>, minProjects: int): (r: real)
    ensures projects == [] ==> r == 0.0
    ensures 0.0 <= r <= 100.0
    ensures (projects != [] && |projects| >= minProjects
             && forall k :: 0 <= k < |projects| ==> IsQualityProject(projects[k])) ==> r == 100.0
    ensures (projects != [] && QualityCount(projects) == 0) ==> r <= 60.0
  {
    if projects == [] then 0.0
    else
      var quantity := CappedShare(|projects| as real, minProjects);
      var quality := Share(QualityCount(projects), |projects|);
      var score := quantity * 0.6 + quality * 0.4;
      Round2Within(score, 0, if QualityCount(projects) == 0 then 60 else 100);
      Round2OfWhole(100);
      Round2(score)
  }

  // ---------------------------------------------------------------------------------------
  // GitHub

  /** `calculate_github_score`: 0 for absent or empty data; otherwise 40% stars and 30%
      repositories against their minimums (each capped at 100, 100 for a minimum <= 0) and
      30% the activity score, which is not capped. A missing key reads as 0. */
  function GitHubScore(data: Option<GitHubStats>, minStars: int, minRepos: int): (r: real)
    ensures data.None? ==> r == 0.0
    ensures (data.Some? && data.value.totalStars.GetOr(0) >= 0 && data.value.repositories.GetOr(0) >= 0
             && 0 <= data.value.activityScore.GetOr(0) <= 100) ==> 0.0 <= r <= 100.0
  {
    match data
    case None => 0.0
    case Some(stats) =>
      var stars := CappedShare(stats.totalStars.GetOr(0) as real, minStars);
      var repos := CappedShare(stats.repositories.GetOr(0) as real, minRepos);
      var activity := stats.activityScore.GetOr(0) as real;
      var score := stars * 0.4 + repos * 0.3 + activity * 0.3;
      if stats.totalStars.GetOr(0) >= 0 && stats.repositories.GetOr(0) >= 0 && 0.0 <= activity <= 100.0 then
        Round2Within(score, 0, 100);
        Round2(score)
      else Round2(score)
  }

  /** With no `repositories` key and a positive minimum, the repository part is 0, so the
      score is at most 70 while the activity stays within 100. */
  lemma GitHubScoreWithoutRepositories(stars: Option<int>, activity: Option<int>, minStars: int, minRepos: int)
    requires minRepos > 0 && activity.GetOr(0) <= 100
    ensures GitHubScore(Some(GitHubStats(stars, None, activity)), minStars, minRepos) <= 70.0
  {
    var s := CappedShare(stars.GetOr(0) as real, minStars);
    assert CappedShare(0 as real, minRepos) == 0.0;
    var score := s * 0.4 + 0.0 * 0.3 + activity.GetOr(0) as real * 0.3;
    assert score <= 70.0;
    Round2Monotone(score, 70.0);
    Round2OfWhole(70);
  }

  /** An uncapped activity count pushes the score past 100. */
  lemma GitHubScoreCanExceed100()
    ensures GitHubScore(Some(GitHubStats(Some(10), Some(10), Some(1000))), 1, 1) == 370.0
  {
    Round2OfWhole(370);
  }

  // ---------------------------------------------------------------------------------------
  // Education

  /** `education_levels`, in its dictionary order. */
  const EducationLevels: seq<(string, nat)> :=
    [("high school", 1), ("associate", 2), ("bachelor", 3), ("master", 4), ("phd", 5)]

  /** `education_levels.get(key, 0)`: the value of the first entry with that key, else 0. */
  function LevelOf(levels: seq<(string, nat)>, key: string): (n: nat)
    ensures n > 0 ==> exists k :: 0 <= k < |levels| && levels[k].0 == key && levels[k].1 == n
    ensures (forall k :: 0 <= k < |levels| ==> levels[k].0 != key) ==> n == 0
    ensures forall k :: 0 <= k < |levels| && levels[k].0 == key && FirstKeyAt(levels, key, k) ==> n == levels[k].1
  {
    if levels == [] then 0
    else if levels[0].0 == key then levels[0].1
    else
      var n := LevelOf(levels[1..], key);
      assert n > 0 ==> exists k :: 0 < k < |levels| && levels[k].0 == key && levels[k].1 == n by {
        if n > 0 {
          var k :| 0 <= k < |levels[1..]| && levels[1..][k].0 == key && levels[1..][k].1 == n;
          assert levels[k + 1] == levels[1..][k];
        }
      }
      assert (forall k :: 0 <= k < |levels| ==> levels[k].0 != key) ==> n == 0 by {
        if forall k :: 0 <= k < |levels| ==> levels[k].0 != key {
          forall k | 0 <= k < |levels[1..]| ensures levels[1..][k].0 != key {
            assert levels[1..][k] == levels[k + 1];
          }
        }
      }
      assert forall k :: 0 <= k < |levels| && levels[k].0 == key && FirstKeyAt(levels, key, k) ==> n == levels[k].1 by {
        forall k | 0 <= k < |levels| && levels[k].0 == key && FirstKeyAt(levels, key, k) ensures n == levels[k].1 {
          assert k > 0;
          assert levels[1..][k - 1] == levels[k];
          forall j | 0 <= j < k - 1 ensures levels[1..][j].0 != key {
            assert levels[1..][j] == levels[j + 1];
          }
          assert FirstKeyAt(levels[1..], key, k - 1);
        }
      }
      n
  }

  /** No entry before position `k` has key `key`. */
  predicate FirstKeyAt(levels: seq<(string, nat)>, key: string, k: int)
    requires 0 <= k <= |levels|
  {
    forall j :: 0 <= j < k ==> levels[j].0 != key
  }

  /** The level a requirement asks for, 0 when its lower-case form is not a key. */
  function RequiredLevel(required: string): nat {
    LevelOf(EducationLevels, Lower(required))
  }

  /** The lower-cased degree of an entry, "" when it has none. */
  function DegreeText(e: EducationEntry): string {
    Lower(e.degree.GetOr(""))
  }

  /** The highest value among the first levels whose keyword occurs in `degree`. */
  function BestLevel(levels: seq<(string, nat)>, degree: string): (n: nat) {
    if levels == [] then 0
    else
      var last := levels[|levels| - 1];
      var before := BestLevel(levels[..|levels| - 1], degree);
      if Contains(degree, last.0) && last.1 > before then last.1 else before
  }

  /** `highest_level` after the entries of `edu`: the highest level whose keyword occurs in
      any of their degrees. */
  function HighestLevel(edu: seq<EducationEntry>): nat {
    if edu == [] then 0
    else
      var before := HighestLevel(edu[..|edu| - 1]);
      var here := BestLevel(EducationLevels, DegreeText(edu[|edu| - 1]));
      if here > before then here else before
  }

  /** What `calculate_education_score` returns. */
  function EducationScoreOf(edu: seq<EducationEntry>, required: Option<string>): (r: real)
    ensures 0.0 <= r <= 100.0
    ensures !Truthy(required) ==> r == 100.0
    ensures Truthy(required) && RequiredLevel(required.value) == 0 ==> r == 100.0
  {
    if !Truthy(required) then 100.0
    else
      var requiredLevel := RequiredLevel(required.value);
      if requiredLevel == 0 then 100.0
      else
        var score := Cap100(HighestLevel(edu) as real / requiredLevel as real * 100.0);
        Round2Within(score, 0, 100);
        Round2(score)
  }

  /** `calculate_education_score`: 100 when nothing recognisable is required; otherwise the
      best level found in any degree against the required level. */
  method EducationScore(education: seq<EducationEntry>, requiredEducation: Option<string>)
    returns (score: real)
    ensures score == EducationScoreOf(education, requiredEducation)
  {
    if !Truthy(requiredEducation) {
      return 100.0;
    }
    var requiredLevel := LevelOf(EducationLevels, Lower(requiredEducation.value));
    if requiredLevel == 0 {
      return 100.0;
    }
    var highestLevel: nat := 0;
    for i := 0 to |education|
      invariant highestLevel == HighestLevel(education[..i])
    {
      assert education[..i + 1][..i] == education[..i];
      var degree := Lower(education[i].degree.GetOr(""));
      ghost var before := highestLevel;
      for j := 0 to |EducationLevels|
        invariant highestLevel == Max(before, BestLevel(EducationLevels[..j], degree))
      {
        assert EducationLevels[..j + 1][..j] == EducationLevels[..j];
        var (level, value) := EducationLevels[j];
        if Contains(degree, level) {
          highestLevel := Max(highestLevel, value);
        }
      }
      assert EducationLevels[..|EducationLevels|] == EducationLevels;
    }
    assert education[..|education|] == education;
    score := Round2(Cap100(highestLevel as real / requiredLevel as real * 100.0));
  }

  function Max(a: nat, b: nat): nat {
    if a >= b then a else b
  }

  /** `BestLevel` is the maximum: at least every matched level, and either 0 or one of them. */
  lemma {:induction false} BestLevelIsMax(levels: seq<(string, nat)>, degree: string)
    ensures forall k :: 0 <= k < |levels| && Contains(degree, levels[k].0) ==> levels[k].1 <= BestLevel(levels, degree)
    ensures BestLevel(levels, degree) == 0
            || exists k :: 0 <= k < |levels| && Contains(degree, levels[k].0) && levels[k].1 == BestLevel(levels, degree)
  {
    if levels != [] {
      var init := levels[..|levels| - 1];
      BestLevelIsMax(init, degree);
      assert forall k :: 0 <= k < |init| ==> init[k] == levels[k];
    }
  }

  /** `HighestLevel` is the maximum over every entry and every matched keyword. */
  lemma {:induction false} HighestLevelIsMax(edu: seq<EducationEntry>)
    ensures forall i, k :: 0 <= i < |edu| && 0 <= k < |EducationLevels| && Contains(DegreeText(edu[i]), EducationLevels[k].0)
              ==> EducationLevels[k].1 <= HighestLevel(edu)
    ensures HighestLevel(edu) == 0
            || exists i, k :: 0 <= i < |edu| && 0 <= k < |EducationLevels| && Contains(DegreeText(edu[i]), EducationLevels[k].0)
                 && EducationLevels[k].1 == HighestLevel(edu)
  {
    if edu != [] {
      var init := edu[..|edu| - 1];
      HighestLevelIsMax(init);
      BestLevelIsMax(EducationLevels, DegreeText(edu[|edu| - 1]));
      assert forall i :: 0 <= i < |init| ==> init[i] == edu[i];
      if HighestLevel(edu) != 0 && HighestLevel(edu) == HighestLevel(init) && HighestLevel(init) != 0 {
        var i, k :| 0 <= i < |init| && 0 <= k < |EducationLevels| && Contains(DegreeText(init[i]), EducationLevels[k].0)
                    && EducationLevels[k].1 == HighestLevel(init);
        assert init[i] == edu[i];
      }
    }
  }

  /** Requirements that are not exactly one of the five keys ask for nothing. */
  lemma UnknownRequirementsScore100(edu: seq<EducationEntry>)
    ensures EducationScoreOf(edu, Some("doctorate")) == 100.0
    ensures EducationScoreOf(edu, Some("bachelor's")) == 100.0
  {
    assert Lower("doctorate") == "doctorate";
    assert Lower("bachelor's") == "bachelor's";
  }

  /** A degree at or above the required level scores 100. */
  lemma RequirementMetScores100(edu: seq<EducationEntry>, required: string)
    requires 0 < RequiredLevel(required) <= HighestLevel(edu)
    ensures EducationScoreOf(edu, Some(required)) == 100.0
  {
    RatioCapped(HighestLevel(edu) as real, RequiredLevel(required) as real);
    Round2OfWhole(100);
  }

  lemma MasterDegreeLevel()
    ensures HighestLevel([EducationEntry(Some("Master of Science"))]) >= 4
  {
    var edu := [EducationEntry(Some("Master of Science"))];
    assert DegreeText(edu[0]) == "master of science";
    assert StartsWith("master of science", "master");
    assert EducationLevels[3] == ("master", 4);
    HighestLevelIsMax(edu);
  }

  /** A master's degree satisfies a bachelor requirement. */
  lemma MasterSatisfiesBachelor()
    ensures EducationScoreOf([EducationEntry(Some("Master of Science"))], Some("bachelor")) == 100.0
  {
    assert Lower("bachelor") == "bachelor";
    assert RequiredLevel("bachelor") == 3;
    MasterDegreeLevel();
    RequirementMetScores100([EducationEntry(Some("Master of Science"))], "bachelor");
  }

  /** No keyword in any degree gives 0 against a recognised requirement. */
  lemma NoMatchingDegreeScores0(edu: seq<EducationEntry>, required: string)
    requires RequiredLevel(required) > 0
    requires forall i, k :: 0 <= i < |edu| && 0 <= k < |EducationLevels| ==> !Contains(DegreeText(edu[i]), EducationLevels[k].0)
    ensures required != "" && EducationScoreOf(edu, Some(required)) == 0.0
  {
    HighestLevelIsMax(edu);
    Round2OfWhole(0);
  }
}
