/** The two aggregation policies of backend/ai_analysis.py: the deterministic
    `evaluate_candidate`, and the score combination of `analyze_candidate`, which takes its
    skill analysis from the language model or, failing that, from the deterministic matcher. */
module Evaluation {
  import opened Wrappers
  import opened Text
  import opened Lists
  import opened Rounding
  import opened Candidate
  import opened Skills
  import opened Scorers
  import opened GitHubExtractor

  /** `CandidateScore`. */
  datatype CandidateScore = CandidateScore(
    overallScore: real,
    skillMatchScore: real,
    experienceScore: real,
    projectScore: real,
    githubScore: real,
    educationScore: real,
    isQualified: bool,
    strengths: seq<string>,
    weaknesses: seq<string>,
    recommendations: seq<string>)

  predicate InPercent(x: real) {
    0.0 <= x <= 100.0
  }

  // ---------------------------------------------------------------------------------------
  // Reports

  /** The messages of `msgs` whose flag is set, in their order. */
  function Flagged(msgs: seq<string>, flags: seq<bool>): (r: seq<string>)
    requires |msgs| == |flags|
    ensures |r| <= |msgs|
    ensures forall x :: x in r ==> x in msgs
  {
    if msgs == [] then []
    else (if flags[0] then [msgs[0]] else []) + Flagged(msgs[1..], flags[1..])
  }

  /** For distinct messages, a message is reported exactly when its flag is set. */
  lemma {:induction false} FlaggedMember(msgs: seq<string>, flags: seq<bool>, k: nat)
    requires |msgs| == |flags| && k < |msgs| && Distinct(msgs)
    ensures msgs[k] in Flagged(msgs, flags) <==> flags[k]
  {
    if k > 0 {
      FlaggedMember(msgs[1..], flags[1..], k - 1);
      assert msgs[k] != msgs[0];
    } else {
      assert msgs[0] !in msgs[1..];
    }
  }

  function Pick(flag: bool, msg: string): seq<string> {
    if flag then [msg] else []
  }

  lemma FlaggedStep(msgs: seq<string>, flags: seq<bool>)
    requires |msgs| == |flags| > 0
    ensures Flagged(msgs, flags) == Pick(flags[0], msgs[0]) + Flagged(msgs[1..], flags[1..])
  {
  }

  lemma Flagged4(msgs: seq<string>, flags: seq<bool>)
    requires |msgs| == |flags| == 4
    ensures Flagged(msgs, flags)
            == Pick(flags[0], msgs[0]) + Pick(flags[1], msgs[1]) + Pick(flags[2], msgs[2]) + Pick(flags[3], msgs[3])
  {
    var m1, f1 := msgs[1..], flags[1..];
    var m2, f2 := m1[1..], f1[1..];
    var m3, f3 := m2[1..], f2[1..];
    var p0, p1, p2, p3 := Pick(flags[0], msgs[0]), Pick(flags[1], msgs[1]), Pick(flags[2], msgs[2]), Pick(flags[3], msgs[3]);
    assert Flagged(m3, f3) == p3 by {
      FlaggedStep(m3, f3);
      assert m3[0] == msgs[3] && f3[0] == flags[3];
      assert Flagged(m3[1..], f3[1..]) == [];
      assert p3 + [] == p3;
    }
    assert Flagged(m2, f2) == p2 + p3 by {
      FlaggedStep(m2, f2);
      assert m2[0] == msgs[2] && f2[0] == flags[2];
    }
    assert Flagged(m1, f1) == p1 + (p2 + p3) by {
      FlaggedStep(m1, f1);
      assert m1[0] == msgs[1] && f1[0] == flags[1];
    }
    FlaggedStep(msgs, flags);
    assert p0 + (p1 + (p2 + p3)) == p0 + p1 + p2 + p3;
  }

  /** The four reported dimensions, in report order: skill match, experience, projects, GitHub. */
  function Dimensions(skill: real, experience: real, project: real, github: real): seq<real> {
    [skill, experience, project, github]
  }

  function AtLeast(scores: seq<real>, threshold: real): (flags: seq<bool>)
    ensures |flags| == |scores| && forall k :: 0 <= k < |scores| ==> (flags[k] <==> scores[k] >= threshold)
  {
    seq(|scores|, k requires 0 <= k < |scores| => scores[k] >= threshold)
  }

  function Below(scores: seq<real>, threshold: real): (flags: seq<bool>)
    ensures |flags| == |scores| && forall k :: 0 <= k < |scores| ==> (flags[k] <==> scores[k] < threshold)
  {
    seq(|scores|, k requires 0 <= k < |scores| => scores[k] < threshold)
  }

  lemma FlaggedAtLeast(msgs: seq<string>, a: real, b: real, c: real, d: real, threshold: real)
    requires |msgs| == 4
    ensures Flagged(msgs, AtLeast(Dimensions(a, b, c, d), threshold))
            == Pick(a >= threshold, msgs[0]) + Pick(b >= threshold, msgs[1])
               + Pick(c >= threshold, msgs[2]) + Pick(d >= threshold, msgs[3])
  {
    Flagged4(msgs, AtLeast(Dimensions(a, b, c, d), threshold));
  }

  lemma FlaggedBelow(msgs: seq<string>, a: real, b: real, c: real, d: real, threshold: real)
    requires |msgs| == 4
    ensures Flagged(msgs, Below(Dimensions(a, b, c, d), threshold))
            == Pick(a < threshold, msgs[0]) + Pick(b < threshold, msgs[1])
               + Pick(c < threshold, msgs[2]) + Pick(d < threshold, msgs[3])
  {
    Flagged4(msgs, Below(Dimensions(a, b, c, d), threshold));
  }

  const StrengthMessages: seq<string> := [
    "Strong skill match with job requirements",
    "Meets or exceeds required experience",
    "Strong project portfolio",
    "Active GitHub presence"
  ]

  function WeaknessMessages(missing: seq<string>): seq<string> {
    [
      "Missing key skills: " + Join(missing, ", "),
      "Below required experience level",
      "Limited project experience",
      "Limited GitHub activity"
    ]
  }

  const RecommendationMessages: seq<string> := [
    "Focus on acquiring missing required skills",
    "Gain more relevant work experience",
    "Build more projects to showcase skills",
    "Increase GitHub activity and contributions"
  ]

  lemma StrengthMessagesDistinct()
    ensures Distinct(StrengthMessages)
  {
    var s := StrengthMessages;
    assert s[0][7] == 's' && s[1][0] == 'M' && s[2][7] == 'p' && s[3][0] == 'A';
  }

  lemma WeaknessMessagesDistinct(missing: seq<string>)
    ensures Distinct(WeaknessMessages(missing))
  {
    var w := WeaknessMessages(missing);
    assert w[0][0] == 'M' && w[1][0] == 'B' && w[2][0] == 'L' && w[3][0] == 'L';
    assert w[2][8] == 'p' && w[3][8] == 'G';
  }

  lemma RecommendationMessagesDistinct()
    ensures Distinct(RecommendationMessages)
  {
    var r := RecommendationMessages;
    assert r[0][0] == 'F' && r[1][0] == 'G' && r[2][0] == 'B' && r[3][0] == 'I';
  }

  // ---------------------------------------------------------------------------------------
  // evaluate_candidate

  /** The weighted sum of `evaluate_candidate`: 0.35, 0.25, 0.20, 0.15, 0.05. */
  function DeterministicOverall(skill: real, experience: real, project: real, github: real, education: real): (r: real)
    ensures InPercent(skill) && InPercent(experience) && InPercent(project) && InPercent(github) && InPercent(education)
            ==> InPercent(r)
    ensures skill == experience == project == github == education ==> r == skill
  {
    skill * 0.35 + experience * 0.25 + project * 0.20 + github * 0.15 + education * 0.05
  }

  /** The strengths: per dimension, in order, its message when it scores at least 80. */
  function StrengthsOf(skill: real, experience: real, project: real, github: real): seq<string> {
    Flagged(StrengthMessages, AtLeast(Dimensions(skill, experience, project, github), 80.0))
  }

  /** The weaknesses: per dimension, in order, its message when it scores below 60. */
  function WeaknessesOf(m: SkillMatch, experience: real, project: real, github: real): seq<string> {
    Flagged(WeaknessMessages(m.missingRequired), Below(Dimensions(m.matchScore, experience, project, github), 60.0))
  }

  /** The recommendations: none for a qualified candidate, otherwise per dimension, in order,
      its message when it scores below 70. */
  function RecommendationsOf(skill: real, experience: real, project: real, github: real, qualified: bool): seq<string> {
    if qualified then [] else Flagged(RecommendationMessages, Below(Dimensions(skill, experience, project, github), 70.0))
  }

  /** What `evaluate_candidate` returns for the given dimension scores. Qualification reads the
      required-skill share and the UNROUNDED overall score; only the reported overall score is
      rounded. */
  function Assessment(m: SkillMatch, experience: real, project: real, github: real, education: real): CandidateScore {
    var overall := DeterministicOverall(m.matchScore, experience, project, github, education);
    var qualified := m.requiredMatchScore >= 70.0 && experience >= 70.0 && project >= 70.0 && overall >= 75.0;
    CandidateScore(
      Round2(overall), m.matchScore, experience, project, github, education, qualified,
      StrengthsOf(m.matchScore, experience, project, github),
      WeaknessesOf(m, experience, project, github),
      RecommendationsOf(m.matchScore, experience, project, github, qualified))
  }

  /** One dimension's block of `evaluate_candidate`: a strength at 80 or above, else a
      weakness below 60. */
  method Judge(score: real, strength: string, weakness: string, strengths: seq<string>, weaknesses: seq<string>)
    returns (strengths': seq<string>, weaknesses': seq<string>)
    ensures strengths' == strengths + Pick(score >= 80.0, strength)
    ensures weaknesses' == weaknesses + Pick(score < 60.0, weakness)
  {
    strengths', weaknesses' := strengths, weaknesses;
    if score >= 80.0 {
      strengths' := strengths' + [strength];
    } else if score < 60.0 {
      weaknesses' := weaknesses' + [weakness];
    }
  }

  /** The strength and weakness lists of `evaluate_candidate`, the four dimensions in order. */
  method StrengthsAndWeaknesses(m: SkillMatch, experienceScore: real, projectScore: real, githubScore: real)
    returns (strengths: seq<string>, weaknesses: seq<string>)
    ensures strengths == StrengthsOf(m.matchScore, experienceScore, projectScore, githubScore)
    ensures weaknesses == WeaknessesOf(m, experienceScore, projectScore, githubScore)
  {
    var weak := WeaknessMessages(m.missingRequired);
    strengths, weaknesses := Judge(m.matchScore, StrengthMessages[0], weak[0], [], []);
    strengths, weaknesses := Judge(experienceScore, StrengthMessages[1], weak[1], strengths, weaknesses);
    strengths, weaknesses := Judge(projectScore, StrengthMessages[2], weak[2], strengths, weaknesses);
    strengths, weaknesses := Judge(githubScore, StrengthMessages[3], weak[3], strengths, weaknesses);
    StrengthsInOrder(m.matchScore, experienceScore, projectScore, githubScore, strengths);
    WeaknessesInOrder(m, experienceScore, projectScore, githubScore, weaknesses);
  }

  lemma StrengthsInOrder(skill: real, experience: real, project: real, github: real, strengths: seq<string>)
    requires strengths == [] + Pick(skill >= 80.0, StrengthMessages[0]) + Pick(experience >= 80.0, StrengthMessages[1])
                         + Pick(project >= 80.0, StrengthMessages[2]) + Pick(github >= 80.0, StrengthMessages[3])
    ensures strengths == StrengthsOf(skill, experience, project, github)
  {
    FlaggedAtLeast(StrengthMessages, skill, experience, project, github, 80.0);
  }

  lemma WeaknessesInOrder(m: SkillMatch, experience: real, project: real, github: real, weaknesses: seq<string>)
    requires var weak := WeaknessMessages(m.missingRequired);
      weaknesses == [] + Pick(m.matchScore < 60.0, weak[0]) + Pick(experience < 60.0, weak[1])
                    + Pick(project < 60.0, weak[2]) + Pick(github < 60.0, weak[3])
    ensures weaknesses == WeaknessesOf(m, experience, project, github)
  {
    FlaggedBelow(WeaknessMessages(m.missingRequired), m.matchScore, experience, project, github, 60.0);
  }

  /** One dimension's recommendation: appended below 70. */
  method Recommend(score: real, message: string, recommendations: seq<string>) returns (recommendations': seq<string>)
    ensures recommendations' == recommendations + Pick(score < 70.0, message)
  {
    recommendations' := recommendations;
    if score < 70.0 {
      recommendations' := recommendations' + [message];
    }
  }

  /** The recommendation list of `evaluate_candidate`: nothing for a qualified candidate,
      otherwise one recommendation per dimension below 70. */
  method Recommendations(m: SkillMatch, experienceScore: real, projectScore: real, githubScore: real, isQualified: bool)
    returns (recommendations: seq<string>)
    ensures recommendations == RecommendationsOf(m.matchScore, experienceScore, projectScore, githubScore, isQualified)
  {
    recommendations := [];
    if !isQualified {
      recommendations := Recommend(m.matchScore, RecommendationMessages[0], recommendations);
      recommendations := Recommend(experienceScore, RecommendationMessages[1], recommendations);
      recommendations := Recommend(projectScore, RecommendationMessages[2], recommendations);
      recommendations := Recommend(githubScore, RecommendationMessages[3], recommendations);
      assert [] + Pick(m.matchScore < 70.0, RecommendationMessages[0]) == Pick(m.matchScore < 70.0, RecommendationMessages[0]);
      FlaggedBelow(RecommendationMessages, m.matchScore, experienceScore, projectScore, githubScore, 70.0);
    }
  }

  /** `evaluate_candidate`: score every dimension, combine, qualify and report. The returned
      skill match `m` is the one computed inside, whose list order is not determined. */
  method EvaluateCandidate(portfolio: Portfolio, github: Option<GitHubStats>, job: JobRequirements, currentYear: int)
    returns (score: CandidateScore, ghost m: SkillMatch)
    ensures m.requiredMatchScore == Round2(MatchShare(portfolio.skills, job.requiredSkills))
    ensures m.matchScore == Round2(WeightedMatch(MatchShare(portfolio.skills, job.requiredSkills),
                                                 MatchShare(portfolio.skills, job.preferredSkills)))
    ensures Distinct(m.missingRequired)
    ensures Elements(m.missingRequired) == Normalized(job.requiredSkills) - Normalized(portfolio.skills)
    ensures score == Assessment(m,
                                ExperienceScoreOf(portfolio.experience, job.minExperienceYears, currentYear),
                                ProjectScore(portfolio.projects, job.minProjects),
                                GitHubScore(github, job.minGithubStars, job.minGithubRepos),
                                EducationScoreOf(portfolio.education, job.requiredEducation))
  {
    var skillMatch := CalculateSkillMatch(portfolio.skills, job.requiredSkills, job.preferredSkills);
    m := skillMatch;
    var experienceScore := ExperienceScore(portfolio.experience, job.minExperienceYears, currentYear);
    var projectScore := ProjectScore(portfolio.projects, job.minProjects);
    var githubScore := if github.Some? then GitHubScore(github, job.minGithubStars, job.minGithubRepos) else 0.0;
    var educationScore := EducationScore(portfolio.education, job.requiredEducation);
    var overallScore := skillMatch.matchScore * 0.35 + experienceScore * 0.25 + projectScore * 0.20
                        + githubScore * 0.15 + educationScore * 0.05;
    var isQualified := skillMatch.requiredMatchScore >= 70.0 && experienceScore >= 70.0
                       && projectScore >= 70.0 && overallScore >= 75.0;
    var strengths, weaknesses := StrengthsAndWeaknesses(skillMatch, experienceScore, projectScore, githubScore);
    var recommendations := Recommendations(skillMatch, experienceScore, projectScore, githubScore, isQualified);
    score := CandidateScore(Round2(overallScore), skillMatch.matchScore, experienceScore, projectScore,
                            githubScore, educationScore, isQualified, strengths, weaknesses, recommendations);
    assert githubScore == GitHubScore(github, job.minGithubStars, job.minGithubRepos);
    assert overallScore == DeterministicOverall(skillMatch.matchScore, experienceScore, projectScore, githubScore, educationScore);
  }

  /** Each of the four dimensions is reported as a strength exactly when it scores at least
      80 and as a weakness exactly when it scores below 60, so never as both. */
  lemma OneVerdictPerDimension(m: SkillMatch, experience: real, project: real, github: real, education: real, k: nat)
    requires k < 4
    ensures var s := Assessment(m, experience, project, github, education);
      var score := Dimensions(m.matchScore, experience, project, github)[k];
      && (StrengthMessages[k] in s.strengths <==> score >= 80.0)
      && (WeaknessMessages(m.missingRequired)[k] in s.weaknesses <==> score < 60.0)
      && !(StrengthMessages[k] in s.strengths && WeaknessMessages(m.missingRequired)[k] in s.weaknesses)
  {
    var dims := Dimensions(m.matchScore, experience, project, github);
    StrengthMessagesDistinct();
    WeaknessMessagesDistinct(m.missingRequired);
    FlaggedMember(StrengthMessages, AtLeast(dims, 80.0), k);
    FlaggedMember(WeaknessMessages(m.missingRequired), Below(dims, 60.0), k);
  }

  /** An unqualified candidate gets the recommendation for a dimension exactly when it scores
      below 70; a qualified one gets none. */
  lemma RecommendationsWhenUnqualified(m: SkillMatch, experience: real, project: real, github: real, education: real, k: nat)
    requires k < 4
    ensures var s := Assessment(m, experience, project, github, education);
      && (s.isQualified ==> s.recommendations == [])
      && (!s.isQualified ==> (RecommendationMessages[k] in s.recommendations
                              <==> Dimensions(m.matchScore, experience, project, github)[k] < 70.0))
  {
    RecommendationMessagesDistinct();
    FlaggedMember(RecommendationMessages, Below(Dimensions(m.matchScore, experience, project, github), 70.0), k);
  }

  /** A qualified candidate has neither an experience nor a project weakness. */
  lemma QualifiedHasNoExperienceOrProjectWeakness(m: SkillMatch, experience: real, project: real, github: real, education: real)
    ensures var s := Assessment(m, experience, project, github, education);
      s.isQualified ==> "Below required experience level" !in s.weaknesses && "Limited project experience" !in s.weaknesses
  {
    OneVerdictPerDimension(m, experience, project, github, education, 1);
    OneVerdictPerDimension(m, experience, project, github, education, 2);
  }

  /** The education score never shows in the strengths or weaknesses, and no recommendation
      is about education. */
  lemma EducationNeverReported(m: SkillMatch, experience: real, project: real, github: real, e1: real, e2: real)
    ensures Assessment(m, experience, project, github, e1).strengths == Assessment(m, experience, project, github, e2).strengths
    ensures Assessment(m, experience, project, github, e1).weaknesses == Assessment(m, experience, project, github, e2).weaknesses
    ensures forall x :: x in Assessment(m, experience, project, github, e1).recommendations ==> x in RecommendationMessages
  {
  }

  /** The reported overall score lies in [0, 100] when every dimension does. */
  lemma OverallInRange(m: SkillMatch, experience: real, project: real, github: real, education: real)
    requires InPercent(m.matchScore) && InPercent(experience) && InPercent(project) && InPercent(github) && InPercent(education)
    ensures InPercent(Assessment(m, experience, project, github, education).overallScore)
  {
    Round2Within(DeterministicOverall(m.matchScore, experience, project, github, education), 0, 100);
  }

  /** Qualification reads the unrounded sum: an overall just under 75 is reported as 75.0, yet
      the candidate is not qualified. */
  lemma RoundedOverallMisleads()
    ensures var s := Assessment(SkillMatch(74.99, 80.0, 0.0, [], [], []), 75.0, 75.0, 75.0, 75.0);
      s.overallScore == 75.0 && !s.isQualified
  {
    var overall := DeterministicOverall(74.99, 75.0, 75.0, 75.0, 75.0);
    assert overall == 74.9965;
    assert (overall * 100.0).Floor == 7499;
    assert RoundHalfEven(overall * 100.0) == 7500;
  }

  // ---------------------------------------------------------------------------------------
  // The language-model path of analyze_candidate

  /** The skill-analysis dictionary: the keys the combination reads, each possibly missing. */
  datatype SkillAnalysis = SkillAnalysis(
    matchScore: Option<real>,
    matchingSkills: Option<seq<string>>,
    missingSkills: Option<seq<string>>,
    recommendations: Option<seq<string>>)

  /** The fallback dictionary of `match_skills_with_gemini`: the deterministic match, which
      has `match_score` but none of the three list keys. */
  function FallbackAnalysis(m: SkillMatch): (a: SkillAnalysis)
    ensures a.matchScore == Some(m.matchScore)
    ensures a.matchingSkills.None? && a.missingSkills.None? && a.recommendations.None?
  {
    SkillAnalysis(Some(m.matchScore), None, None, None)
  }

  /** `match_skills_with_gemini`. `reply` is what the model's answer parsed to, or `None`
      when no model is configured or the call or the parse failed; then the deterministic
      matcher runs with no preferred skills. */
  method MatchSkillsWithGemini(reply: Option<SkillAnalysis>, candidateSkills: seq<string>, jobSkills: seq<string>)
    returns (analysis: SkillAnalysis)
    ensures reply.Some? ==> analysis == reply.value
    ensures reply.None? ==> analysis.matchingSkills.None? && analysis.missingSkills.None? && analysis.recommendations.None?
    ensures reply.None? ==> analysis.matchScore == Some(Round2(WeightedMatch(MatchShare(candidateSkills, jobSkills), 0.0)))
    ensures reply.None? ==> 0.0 <= analysis.matchScore.value <= 70.0
  {
    match reply {
      case Some(parsed) => analysis := parsed;
      case None =>
        var m := CalculateSkillMatch(candidateSkills, jobSkills, []);
        NormalizedEmpty([]);
        analysis := FallbackAnalysis(m);
    }
  }

  /** The weighted sum of `analyze_candidate`: 0.4, 0.2, 0.2, 0.1, 0.1. */
  function LlmOverall(skill: real, experience: real, project: real, github: real, education: real): (r: real)
    ensures InPercent(skill) && InPercent(experience) && InPercent(project) && InPercent(github) && InPercent(education)
            ==> InPercent(r)
    ensures skill == experience == project == github == education ==> r == skill
  {
    skill * 0.4 + experience * 0.2 + project * 0.2 + github * 0.1 + education * 0.1
  }

  /** The `CandidateScore` `analyze_candidate` builds: a missing `match_score` reads as 0, a
      missing list as empty, and qualification is the unrounded sum reaching 70. */
  function CombineLlm(a: SkillAnalysis, experience: real, project: real, github: real, education: real): (s: CandidateScore)
    ensures s.isQualified <==> LlmOverall(a.matchScore.GetOr(0.0), experience, project, github, education) >= 70.0
    ensures a.matchingSkills.None? ==> s.strengths == []
    ensures a.missingSkills.None? ==> s.weaknesses == []
    ensures a.recommendations.None? ==> s.recommendations == []
  {
    var skill := a.matchScore.GetOr(0.0);
    var overall := LlmOverall(skill, experience, project, github, education);
    CandidateScore(Round2(overall), skill, experience, project, github, education, overall >= 70.0,
                   a.matchingSkills.GetOr([]), a.missingSkills.GetOr([]), a.recommendations.GetOr([]))
  }

  /** The GitHub statistics `analyze_candidate` passes on: `None` without a fetched profile,
      otherwise the profile record, which has no `repositories` key. */
  function GitHubInput(profile: Option<GitHubProfile>): Option<GitHubStats> {
    match profile
    case None => None
    case Some(p) => Some(ScorerView(p))
  }

  /** The scoring half of `analyze_candidate`: the skill analysis, the four other scorers over
      the portfolio, and the combination. */
  method AnalyzeScores(reply: Option<SkillAnalysis>, extractedSkills: seq<string>, portfolio: Portfolio,
                       profile: Option<GitHubProfile>, job: JobRequirements, currentYear: int)
    returns (evaluation: CandidateScore, ghost analysis: SkillAnalysis)
    ensures reply.Some? ==> analysis == reply.value
    ensures evaluation == CombineLlm(analysis,
                                     ExperienceScoreOf(portfolio.experience, job.minExperienceYears, currentYear),
                                     ProjectScore(portfolio.projects, job.minProjects),
                                     GitHubScore(GitHubInput(profile), job.minGithubStars, job.minGithubRepos),
                                     EducationScoreOf(portfolio.education, job.requiredEducation))
    ensures reply.None? ==> evaluation.strengths == [] && evaluation.weaknesses == [] && evaluation.recommendations == []
    ensures reply.None? ==> evaluation.skillMatchScore <= 70.0
    ensures profile.Some? && job.minGithubRepos > 0 && profile.value.activityScore <= 100 ==> evaluation.githubScore <= 70.0
  {
    var skillAnalysis := MatchSkillsWithGemini(reply, extractedSkills, job.requiredSkills);
    analysis := skillAnalysis;
    var experienceScore := ExperienceScore(portfolio.experience, job.minExperienceYears, currentYear);
    var projectScore := ProjectScore(portfolio.projects, job.minProjects);
    var githubScore := GitHubScore(GitHubInput(profile), job.minGithubStars, job.minGithubRepos);
    var educationScore := EducationScore(portfolio.education, job.requiredEducation);
    evaluation := CombineLlm(skillAnalysis, experienceScore, projectScore, githubScore, educationScore);
    if profile.Some? && job.minGithubRepos > 0 && profile.value.activityScore <= 100 {
      GitHubScoreWithoutRepositories(Some(profile.value.totalStars), Some(profile.value.activityScore as int),
                                     job.minGithubStars, job.minGithubRepos);
    }
  }

  /** With the fallback analysis the lists stay empty. */
  lemma FallbackReportsNothing(m: SkillMatch, experience: real, project: real, github: real, education: real)
    ensures var s := CombineLlm(FallbackAnalysis(m), experience, project, github, education);
      s.strengths == [] && s.weaknesses == [] && s.recommendations == [] && s.skillMatchScore == m.matchScore
  {
  }
}
