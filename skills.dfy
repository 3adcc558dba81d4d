/** The skill normaliser and the deterministic skill-match scorer
    (`normalize_skills` and `calculate_skill_match` in backend/ai_analysis.py). */
module Skills {
  import opened Text
  import opened Lists
  import opened Rounding
  import opened Wrappers

  /** The canonical vocabulary, looked up by lower-case spelling: `skill_mapping`. */
  function SkillLookup(key: string): Option<string> {
    match key
    // Programming languages
    case "python" => Some("Python")
    case "javascript" => Some("JavaScript")
    case "typescript" => Some("TypeScript")
    case "java" => Some("Java")
    case "c++" => Some("C++")
    case "c#" => Some("C#")
    case "ruby" => Some("Ruby")
    case "php" => Some("PHP")
    case "go" => Some("Go")
    case "rust" => Some("Rust")
    case "swift" => Some("Swift")
    case "kotlin" => Some("Kotlin")
    // Web technologies
    case "html" => Some("HTML")
    case "css" => Some("CSS")
    case "react" => Some("React")
    case "angular" => Some("Angular")
    case "vue" => Some("Vue.js")
    case "node" => Some("Node.js")
    case "express" => Some("Express.js")
    case "django" => Some("Django")
    case "flask" => Some("Flask")
    case "spring" => Some("Spring")
    case "laravel" => Some("Laravel")
    // Databases
    case "mysql" => Some("MySQL")
    case "postgresql" => Some("PostgreSQL")
    case "mongodb" => Some("MongoDB")
    case "redis" => Some("Redis")
    case "elasticsearch" => Some("Elasticsearch")
    // Cloud and DevOps
    case "aws" => Some("AWS")
    case "azure" => Some("Azure")
    case "gcp" => Some("GCP")
    case "docker" => Some("Docker")
    case "kubernetes" => Some("Kubernetes")
    case "jenkins" => Some("Jenkins")
    case "git" => Some("Git")
    case "ci/cd" => Some("CI/CD")
    // Other
    case "agile" => Some("Agile")
    case "scrum" => Some("Scrum")
    case "devops" => Some("DevOps")
    case "rest" => Some("REST")
    case "graphql" => Some("GraphQL")
    case "api" => Some("API")
    case _ => None
  }

  /** One token's canonical form: the table value for its lower-case spelling, or the token
      itself, with its original casing. */
  function Canonical(skill: string): string {
    match SkillLookup(Lower(skill))
    case Some(display) => display
    case None => skill
  }

  /** The set `normalize_skills` returns the elements of. */
  function Normalized(skills: seq<string>): set<string> {
    set s | s in skills :: Canonical(s)
  }

  /** The display forms the table maps to. */
  const DisplayForms: set<string> := {"Python", "JavaScript", "TypeScript", "Java", "C++", "C#", "Ruby", "PHP", "Go", "Rust", "Swift", "Kotlin", "HTML", "CSS", "React", "Angular", "Vue.js", "Node.js", "Express.js", "Django", "Flask", "Spring", "Laravel", "MySQL", "PostgreSQL", "MongoDB", "Redis", "Elasticsearch", "AWS", "Azure", "GCP", "Docker", "Kubernetes", "Jenkins", "Git", "CI/CD", "Agile", "Scrum", "DevOps", "REST", "GraphQL", "API"}

  lemma LookupGivesDisplayForm(key: string)
    ensures SkillLookup(key).Some? ==> SkillLookup(key).value in DisplayForms
  {
  }

  lemma DisplayFormsFixed0()
    ensures Canonical("Python") == "Python"
      && Canonical("JavaScript") == "JavaScript"
      && Canonical("TypeScript") == "TypeScript"
      && Canonical("Java") == "Java"
  {
    assert Lower("Python") == "python";
    assert Lower("JavaScript") == "javascript";
    assert Lower("TypeScript") == "typescript";
    assert Lower("Java") == "java";
  }

  lemma DisplayFormsFixed1()
    ensures Canonical("C++") == "C++"
      && Canonical("C#") == "C#"
      && Canonical("Ruby") == "Ruby"
      && Canonical("PHP") == "PHP"
  {
    assert Lower("C++") == "c++";
    assert Lower("C#") == "c#";
    assert Lower("Ruby") == "ruby";
    assert Lower("PHP") == "php";
  }

  lemma DisplayFormsFixed2()
    ensures Canonical("Go") == "Go"
      && Canonical("Rust") == "Rust"
      && Canonical("Swift") == "Swift"
      && Canonical("Kotlin") == "Kotlin"
  {
    assert Lower("Go") == "go";
    assert Lower("Rust") == "rust";
    assert Lower("Swift") == "swift";
    assert Lower("Kotlin") == "kotlin";
  }

  lemma DisplayFormsFixed3()
    ensures Canonical("HTML") == "HTML"
      && Canonical("CSS") == "CSS"
      && Canonical("React") == "React"
      && Canonical("Angular") == "Angular"
  {
    assert Lower("HTML") == "html";
    assert Lower("CSS") == "css";
    assert Lower("React") == "react";
    assert Lower("Angular") == "angular";
  }

  lemma DisplayFormsFixed4()
    ensures Canonical("Vue.js") == "Vue.js"
      && Canonical("Node.js") == "Node.js"
      && Canonical("Express.js") == "Express.js"
      && Canonical("Django") == "Django"
  {
    assert Lower("Vue.js") == "vue.js";
    assert Lower("Node.js") == "node.js";
    assert Lower("Express.js") == "express.js";
    assert Lower("Django") == "django";
  }

  lemma DisplayFormsFixed5()
    ensures Canonical("Flask") == "Flask"
      && Canonical("Spring") == "Spring"
      && Canonical("Laravel") == "Laravel"
      && Canonical("MySQL") == "MySQL"
  {
    assert Lower("Flask") == "flask";
    assert Lower("Spring") == "spring";
    assert Lower("Laravel") == "laravel";
    assert Lower("MySQL") == "mysql";
  }

  lemma DisplayFormsFixed6()
    ensures Canonical("PostgreSQL") == "PostgreSQL"
      && Canonical("MongoDB") == "MongoDB"
      && Canonical("Redis") == "Redis"
      && Canonical("Elasticsearch") == "Elasticsearch"
  {
    assert Lower("PostgreSQL") == "postgresql";
    assert Lower("MongoDB") == "mongodb";
    assert Lower("Redis") == "redis";
    assert Lower("Elasticsearch") == "elasticsearch";
  }

  lemma DisplayFormsFixed7()
    ensures Canonical("AWS") == "AWS"
      && Canonical("Azure") == "Azure"
      && Canonical("GCP") == "GCP"
      && Canonical("Docker") == "Docker"
  {
    assert Lower("AWS") == "aws";
    assert Lower("Azure") == "azure";
    assert Lower("GCP") == "gcp";
    assert Lower("Docker") == "docker";
  }

  lemma DisplayFormsFixed8()
    ensures Canonical("Kubernetes") == "Kubernetes"
      && Canonical("Jenkins") == "Jenkins"
      && Canonical("Git") == "Git"
      && Canonical("CI/CD") == "CI/CD"
  {
    assert Lower("Kubernetes") == "kubernetes";
    assert Lower("Jenkins") == "jenkins";
    assert Lower("Git") == "git";
    assert Lower("CI/CD") == "ci/cd";
  }

  lemma DisplayFormsFixed9()
    ensures Canonical("Agile") == "Agile"
      && Canonical("Scrum") == "Scrum"
      && Canonical("DevOps") == "DevOps"
      && Canonical("REST") == "REST"
  {
    assert Lower("Agile") == "agile";
    assert Lower("Scrum") == "scrum";
    assert Lower("DevOps") == "devops";
    assert Lower("REST") == "rest";
  }

  lemma DisplayFormsFixed10()
    ensures Canonical("GraphQL") == "GraphQL"
      && Canonical("API") == "API"
  {
    assert Lower("GraphQL") == "graphql";
    assert Lower("API") == "api";
  }

  /** Every display form normalises to itself. */
  lemma DisplayFormsFixed()
    ensures forall v :: v in DisplayForms ==> Canonical(v) == v
  {
    forall v | v in DisplayForms
      ensures Canonical(v) == v
    {
      if v in {"Python", "JavaScript", "TypeScript", "Java"} {
        DisplayFormsFixed0();
      } else if v in {"C++", "C#", "Ruby", "PHP"} {
        DisplayFormsFixed1();
      } else if v in {"Go", "Rust", "Swift", "Kotlin"} {
        DisplayFormsFixed2();
      } else if v in {"HTML", "CSS", "React", "Angular"} {
        DisplayFormsFixed3();
      } else if v in {"Vue.js", "Node.js", "Express.js", "Django"} {
        DisplayFormsFixed4();
      } else if v in {"Flask", "Spring", "Laravel", "MySQL"} {
        DisplayFormsFixed5();
      } else if v in {"PostgreSQL", "MongoDB", "Redis", "Elasticsearch"} {
        DisplayFormsFixed6();
      } else if v in {"AWS", "Azure", "GCP", "Docker"} {
        DisplayFormsFixed7();
      } else if v in {"Kubernetes", "Jenkins", "Git", "CI/CD"} {
        DisplayFormsFixed8();
      } else if v in {"Agile", "Scrum", "DevOps", "REST"} {
        DisplayFormsFixed9();
      } else if v in {"GraphQL", "API"} {
        DisplayFormsFixed10();
      }
    }
  }

  /** Normalising a token twice is normalising it once. */
  lemma CanonicalIdempotent(skill: string)
    ensures Canonical(Canonical(skill)) == Canonical(skill)
  {
    LookupGivesDisplayForm(Lower(skill));
    DisplayFormsFixed();
  }

  /** Normalising the output of `normalize_skills` again yields the same set. */
  lemma NormalizeIdempotent(skills: seq<string>, once: seq<string>)
    requires Elements(once) == Normalized(skills)
    ensures Normalized(once) == Normalized(skills)
  {
    forall x | x in Normalized(once) ensures x in Normalized(skills) {
      var y :| y in once && Canonical(y) == x;
      assert y in Normalized(skills);
      var z :| z in skills && Canonical(z) == y;
      CanonicalIdempotent(z);
    }
    forall x | x in Normalized(skills) ensures x in Normalized(once) {
      var z :| z in skills && Canonical(z) == x;
      CanonicalIdempotent(z);
      assert x in Elements(once);
    }
  }

  lemma NormalizedEmpty(skills: seq<string>)
    ensures Normalized(skills) == {} <==> skills == []
  {
    if skills != [] {
      assert Canonical(skills[0]) in Normalized(skills);
    }
  }

  /** `normalize_skills`: canonicalise token by token into a list, then drop duplicates
      through a set, whose iteration order is unspecified. */
  method NormalizeSkills(skills: seq<string>) returns (r: seq<string>)
    ensures Distinct(r)
    ensures Elements(r) == Normalized(skills)
  {
    var normalized: seq<string> := [];
    for i := 0 to |skills|
      invariant |normalized| == i
      invariant forall k :: 0 <= k < i ==> normalized[k] == Canonical(skills[k])
    {
      var lower := Lower(skills[i]);
      match SkillLookup(lower) {
        case Some(display) => normalized := normalized + [display];
        case None => normalized := normalized + [skills[i]];
      }
    }
    assert Elements(normalized) == Normalized(skills) by {
      forall x | x in Normalized(skills) ensures x in Elements(normalized) {
        var k :| 0 <= k < |skills| && Canonical(skills[k]) == x;
        assert normalized[k] == x;
      }
    }
    r := SetToSeq(Elements(normalized));
  }

  /** The dictionary `calculate_skill_match` returns. */
  datatype SkillMatch = SkillMatch(
    matchScore: real,
    requiredMatchScore: real,
    preferredMatchScore: real,
    matchingRequired: seq<string>,
    matchingPreferred: seq<string>,
    missingRequired: seq<string>)

  /** The weighted skill score: 70% required, 30% preferred. */
  function WeightedMatch(required: real, preferred: real): (r: real)
    ensures 0.0 <= required <= 100.0 && 0.0 <= preferred <= 100.0 ==> 0.0 <= r <= 100.0
    ensures preferred == 0.0 && required <= 100.0 ==> r <= 70.0
  {
    required * 0.7 + preferred * 0.3
  }

  /** The match dictionary over three already-normalised lists. */
  function MatchOf(c: seq<string>, job: seq<string>, pref: seq<string>): SkillMatch {
    var matchingRequired := KeepIn(c, job);
    var matchingPreferred := KeepIn(c, pref);
    var missingRequired := KeepNotIn(job, c);
    var required := Share(|matchingRequired|, |job|);
    var preferred := Share(|matchingPreferred|, |pref|);
    SkillMatch(Round2(WeightedMatch(required, preferred)), Round2(required), Round2(preferred),
               matchingRequired, matchingPreferred, missingRequired)
  }

  /** The percentage of `target` skills the candidate has, before rounding, over the normalised sets. */
  function MatchShare(candidate: seq<string>, job: seq<string>): real {
    Share(|Normalized(candidate) * Normalized(job)|, |Normalized(job)|)
  }

  lemma SetCardIntersectionBound(a: set<string>, b: set<string>)
    ensures |a * b| <= |b| && |b - a| + |a * b| == |b|
  {
    assert b == (b - a) + (a * b);
    assert (b - a) !! (a * b);
  }

  /** A comprehension over a duplicate-free list has as many elements as the set it denotes. */
  lemma KeepInCount(c: seq<string>, other: seq<string>)
    requires Distinct(c)
    ensures |KeepIn(c, other)| == |Elements(c) * Elements(other)|
  {
    DistinctCard(KeepIn(c, other));
  }

  /** `calculate_skill_match`. The scores are functions of the normalised SETS; the lists hold
      exactly the intersections and the difference, each element once. */
  method CalculateSkillMatch(candidate: seq<string>, job: seq<string>, preferred: seq<string>)
    returns (m: SkillMatch)
    ensures Distinct(m.matchingRequired) && Elements(m.matchingRequired) == Normalized(candidate) * Normalized(job)
    ensures Distinct(m.matchingPreferred) && Elements(m.matchingPreferred) == Normalized(candidate) * Normalized(preferred)
    ensures Distinct(m.missingRequired) && Elements(m.missingRequired) == Normalized(job) - Normalized(candidate)
    ensures |m.matchingRequired| + |m.missingRequired| == |Normalized(job)|
    ensures m.requiredMatchScore == Round2(MatchShare(candidate, job))
    ensures m.preferredMatchScore == Round2(MatchShare(candidate, preferred))
    ensures m.matchScore == Round2(WeightedMatch(MatchShare(candidate, job), MatchShare(candidate, preferred)))
    ensures 0.0 <= m.requiredMatchScore <= 100.0 && 0.0 <= m.preferredMatchScore <= 100.0
    ensures 0.0 <= m.matchScore <= 100.0
    ensures job == [] ==> m.requiredMatchScore == 0.0
    ensures preferred == [] ==> m.matchScore <= 70.0
  {
    var c := NormalizeSkills(candidate);
    var j := NormalizeSkills(job);
    var p := NormalizeSkills(preferred);
    m := MatchOf(c, j, p);
    KeepInCount(c, j);
    KeepInCount(c, p);
    DistinctCard(j);
    DistinctCard(p);
    DistinctCard(m.missingRequired);
    SetCardIntersectionBound(Normalized(candidate), Normalized(job));
    SetCardIntersectionBound(Normalized(candidate), Normalized(preferred));
    var req, pre := MatchShare(candidate, job), MatchShare(candidate, preferred);
    Round2Within(req, 0, 100);
    Round2Within(pre, 0, 100);
    Round2Within(WeightedMatch(req, pre), 0, if preferred == [] then 70 else 100);
    if job == [] {
      NormalizedEmpty(job);
      Round2OfWhole(0);
    }
    if preferred == [] {
      NormalizedEmpty(preferred);
    }
  }

  /** Matching a skill list against itself with no preferred skills: the required score is
      100 exactly when the list is non-empty (an empty requirement scores 0, not 100). */
  lemma SelfMatch(skills: seq<string>)
    ensures Round2(MatchShare(skills, skills)) == 100.0 <==> skills != []
  {
    var n := Normalized(skills);
    assert n * n == n;
    NormalizedEmpty(skills);
    if skills != [] {
      Round2OfWhole(100);
    } else {
      Round2OfWhole(0);
    }
  }
}
