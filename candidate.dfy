/** The records the scoring engine reads: the job requirements and the candidate's facts as
    the extractors hand them over. A dictionary key that may be missing is an `Option` whose
    `None` is the missing key. A key present with the value `None` is not a separate case:
    where the code only tests such a value for truth it acts like a missing key, and where the
    code uses it as a string or a number it raises, which the model leaves out. Fields the
    scorers never read are not modelled. */
module Candidate {
  import opened Wrappers

  /** `JobRequirements` (backend/ai_analysis.py:23-31). */
  datatype JobRequirements = JobRequirements(
    requiredSkills: seq<string>,
    preferredSkills: seq<string>,
    minExperienceYears: int,
    minProjects: int,
    minGithubStars: int,
    minGithubRepos: int,
    requiredEducation: Option<string>)

  /** An experience entry; only its `date` range string is read. */
  datatype ExperienceEntry = ExperienceEntry(date: Option<string>)

  /** A project entry; only its `description` and `technologies` are read. */
  datatype Project = Project(description: Option<string>, technologies: Option<seq<string>>)

  /** An education entry; only its `degree` is read. */
  datatype EducationEntry = EducationEntry(degree: Option<string>)

  /** The portfolio facts the deterministic evaluation reads. */
  datatype Portfolio = Portfolio(
    skills: seq<string>,
    experience: seq<ExperienceEntry>,
    projects: seq<Project>,
    education: seq<EducationEntry>)

  /** A non-empty profile-statistics dictionary, with the three keys the GitHub scorer reads.
      An absent or empty dictionary is `None` where one of these is expected. */
  datatype GitHubStats = GitHubStats(
    totalStars: Option<int>,
    repositories: Option<int>,
    activityScore: Option<int>)

  /** Python truthiness of an optional string: present and non-empty. */
  predicate Truthy(s: Option<string>) {
    s.Some? && s.value != ""
  }
}
