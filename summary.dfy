/** `generate_candidate_summary` (backend/ai_analysis.py): the human-readable report of an
    evaluation. Python's `str` of a float is not modelled; the caller passes the formatting
    of a score as `fmt`. */
module Summary {
  import opened Text
  import opened Evaluation

  /** The bullet line of each item, in order. */
  function Bullets(items: seq<string>): (lines: seq<string>)
    ensures |lines| == |items|
    ensures forall i :: 0 <= i < |items| ==> lines[i] == "- " + items[i]
  {
    seq(|items|, i requires 0 <= i < |items| => "- " + items[i])
  }

  /** A section: nothing when there are no items, else the heading and a bullet per item. */
  function Section(heading: string, items: seq<string>): seq<string> {
    if items == [] then [] else [heading] + Bullets(items)
  }

  const StrengthsHeading := "\nStrengths:"
  const WeaknessesHeading := "\nAreas for Improvement:"
  const RecommendationsHeading := "\nRecommendations:"

  function Percent(caption: string, value: real, fmt: real -> string): string {
    caption + fmt(value) + "%"
  }

  /** The eight lines every summary opens with. */
  function HeaderLines(score: CandidateScore, fmt: real -> string): (lines: seq<string>)
    ensures |lines| == 8
  {
    [
      Percent("Overall Score: ", score.overallScore, fmt),
      "Qualification Status: " + (if score.isQualified then "Qualified" else "Not Qualified"),
      "\nDetailed Scores:",
      Percent("- Skill Match: ", score.skillMatchScore, fmt),
      Percent("- Experience: ", score.experienceScore, fmt),
      Percent("- Projects: ", score.projectScore, fmt),
      Percent("- GitHub Activity: ", score.githubScore, fmt),
      Percent("- Education: ", score.educationScore, fmt)
    ]
  }

  /** The lines of the summary, before they are joined with newlines. */
  function SummaryParts(score: CandidateScore, fmt: real -> string): seq<string> {
    HeaderLines(score, fmt)
    + Section(StrengthsHeading, score.strengths)
    + Section(WeaknessesHeading, score.weaknesses)
    + Section(RecommendationsHeading, score.recommendations)
  }

  /** Append a section line by line. */
  method AppendSection(parts: seq<string>, heading: string, items: seq<string>) returns (r: seq<string>)
    ensures r == parts + Section(heading, items)
  {
    r := parts;
    if items != [] {
      r := r + [heading];
      for i := 0 to |items|
        invariant r == parts + [heading] + Bullets(items[..i])
      {
        assert Bullets(items[..i + 1]) == Bullets(items[..i]) + ["- " + items[i]];
        r := r + ["- " + items[i]];
      }
      assert items[..|items|] == items;
    }
  }

  /** `generate_candidate_summary`. */
  method GenerateSummary(score: CandidateScore, fmt: real -> string) returns (summary: string)
    ensures summary == Join(SummaryParts(score, fmt), "\n")
  {
    var summaryParts: seq<string> := [];
    summaryParts := summaryParts + [Percent("Overall Score: ", score.overallScore, fmt)];
    summaryParts := summaryParts + ["Qualification Status: " + (if score.isQualified then "Qualified" else "Not Qualified")];
    summaryParts := summaryParts + ["\nDetailed Scores:"];
    summaryParts := summaryParts + [Percent("- Skill Match: ", score.skillMatchScore, fmt)];
    summaryParts := summaryParts + [Percent("- Experience: ", score.experienceScore, fmt)];
    summaryParts := summaryParts + [Percent("- Projects: ", score.projectScore, fmt)];
    summaryParts := summaryParts + [Percent("- GitHub Activity: ", score.githubScore, fmt)];
    summaryParts := summaryParts + [Percent("- Education: ", score.educationScore, fmt)];
    assert summaryParts == HeaderLines(score, fmt);
    summaryParts := AppendSection(summaryParts, StrengthsHeading, score.strengths);
    summaryParts := AppendSection(summaryParts, WeaknessesHeading, score.weaknesses);
    summaryParts := AppendSection(summaryParts, RecommendationsHeading, score.recommendations);
    summary := Join(summaryParts, "\n");
  }

  /** The joined text starts with its first line. */
  lemma {:induction false} JoinStartsWithFirst(parts: seq<string>, sep: string)
    requires parts != []
    ensures |parts[0]| <= |Join(parts, sep)| && Join(parts, sep)[..|parts[0]|] == parts[0]
  {
  }

  /** The summary opens with the overall score, and its second line says "Qualified" exactly
      when the candidate is qualified. */
  lemma SummaryOpening(score: CandidateScore, fmt: real -> string)
    ensures var parts := SummaryParts(score, fmt);
      && Join(parts, "\n")[..|parts[0]|] == "Overall Score: " + fmt(score.overallScore) + "%"
      && (parts[1] == "Qualification Status: Qualified" <==> score.isQualified)
  {
    var parts := SummaryParts(score, fmt);
    JoinStartsWithFirst(parts, "\n");
    if !score.isQualified {
      assert parts[1][22] == 'N';
      assert "Qualification Status: Qualified"[22] == 'Q';
    }
  }

  /** No bullet line is a heading. */
  lemma HeadingIsNoBullet(heading: string, items: seq<string>)
    requires heading != [] && heading[0] != '-'
    ensures heading !in Bullets(items)
  {
    forall i | 0 <= i < |items|
      ensures Bullets(items)[i] != heading
    {
      assert Bullets(items)[i][0] == '-';
    }
  }

  /** A heading line of one section occurs in no other section. */
  lemma HeadingOnlyInOwnSection(heading: string, other: string, items: seq<string>)
    requires |heading| >= 2 && |other| >= 2 && heading[0] != '-' && heading[1] != other[1]
    ensures heading !in Section(other, items)
  {
    HeadingIsNoBullet(heading, items);
  }

  /** No header line is a section heading. */
  lemma HeadingNotInHeader(score: CandidateScore, fmt: real -> string, heading: string)
    requires |heading| >= 2 && heading[0] == '\n' && heading[1] != 'D'
    ensures heading !in HeaderLines(score, fmt)
  {
    var h := HeaderLines(score, fmt);
    assert h[0][0] == 'O' && h[1][0] == 'Q' && h[2][1] == 'D';
    assert h[3][0] == '-' && h[4][0] == '-' && h[5][0] == '-' && h[6][0] == '-' && h[7][0] == '-';
  }

  /** Each section heading appears exactly when its list is non-empty. */
  lemma SectionsPresentIff(score: CandidateScore, fmt: real -> string)
    ensures var parts := SummaryParts(score, fmt);
      && (StrengthsHeading in parts <==> score.strengths != [])
      && (WeaknessesHeading in parts <==> score.weaknesses != [])
      && (RecommendationsHeading in parts <==> score.recommendations != [])
  {
    var s, w, r := StrengthsHeading, WeaknessesHeading, RecommendationsHeading;
    assert s[0] == '\n' && s[1] == 'S' && w[0] == '\n' && w[1] == 'A' && r[0] == '\n' && r[1] == 'R';
    HeadingNotInHeader(score, fmt, s);
    HeadingNotInHeader(score, fmt, w);
    HeadingNotInHeader(score, fmt, r);
    HeadingIsNoBullet(s, score.strengths);
    HeadingIsNoBullet(w, score.weaknesses);
    HeadingIsNoBullet(r, score.recommendations);
    HeadingOnlyInOwnSection(s, w, score.weaknesses);
    HeadingOnlyInOwnSection(s, r, score.recommendations);
    HeadingOnlyInOwnSection(w, s, score.strengths);
    HeadingOnlyInOwnSection(w, r, score.recommendations);
    HeadingOnlyInOwnSection(r, s, score.strengths);
    HeadingOnlyInOwnSection(r, w, score.weaknesses);
  }

  /** Every strength is listed, in order, right after the strengths heading, which follows
      the eight header lines. */
  lemma StrengthsListedInOrder(score: CandidateScore, fmt: real -> string, i: nat)
    requires i < |score.strengths|
    ensures var parts := SummaryParts(score, fmt);
      9 + i < |parts| && parts[8] == StrengthsHeading && parts[9 + i] == "- " + score.strengths[i]
  {
  }
}
