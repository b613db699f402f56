/** The critic agent (src/agents/critic.py): the refinement gate, the
    quality report it records, the next status and the revision counter.
    The model's assessment is an input; `fmt` renders a score with one
    decimal (`:.1f`). */
module Critic {
  import opened Text
  import opened State
  import Base

  /** The structured assessment the model returns. */
  datatype Assessment = Assessment(
    overallScore: real,
    completeness: real,
    sourceDiversity: real,
    factConsistency: real,
    strengths: seq<string>,
    gaps: seq<string>,
    suggestions: seq<string>,
    sufficient: bool)

  const Name: string := "Critic"

  /** Another research pass is requested only when the assessment is not
      sufficient, scores below the threshold, and revisions remain. */
  predicate NeedsRefinement(a: Assessment, revision: int, maxRevisions: int, minQualityScore: real)
    ensures NeedsRefinement(a, revision, maxRevisions, minQualityScore) ==>
      revision < maxRevisions && !a.sufficient && a.overallScore < minQualityScore
  {
    !a.sufficient && a.overallScore < minQualityScore && revision < maxRevisions
  }

  /** The text the critic hands to the model: only the first ten research
      entries are included. */
  function Summary(topic: string, sourcesCount: nat, researchData: seq<string>): string {
    "Topic: " + topic + "\n\n"
    + "Sources collected: " + NatToString(sourcesCount) + "\n\n"
    + "Research Content:\n" + Join("\n---\n", Take(researchData, 10))
  }

  function Prompt(topic: string, sourcesCount: nat, researchData: seq<string>): string {
    "Evaluate this research:\n\n" + Summary(topic, sourcesCount, researchData)
  }

  /** Research entries past the tenth never reach the model. */
  lemma PromptSeesFirstTen(topic: string, n: nat, rd1: seq<string>, rd2: seq<string>)
    requires Take(rd1, 10) == Take(rd2, 10)
    ensures Prompt(topic, n, rd1) == Prompt(topic, n, rd2)
  {
  }

  function Report(a: Assessment, refine: bool): QualityReport {
    QualityReport(a.overallScore, a.completeness, a.sourceDiversity, a.factConsistency,
                  if refine then a.suggestions else [], refine)
  }

  function LogLines(a: Assessment, refine: bool, fmt: real -> string): (r: seq<string>)
    ensures |r| == 3
  {
    [Base.Tag(Name, "Quality Score: " + fmt(a.overallScore) + "/10"),
     Base.Tag(Name, "Strengths: " + Join(", ", Take(a.strengths, 3))),
     if refine then Base.Tag(Name, "Needs refinement - gaps: " + Join(", ", Take(a.gaps, 2)))
     else Base.Tag(Name, "Research sufficient, proceeding to report writing")]
  }

  /** `CriticAgent.run` once the assessment is known. A missing
      `revision_number` counts as 0 and a missing `max_revisions` as 2. */
  function Evaluate(a: Assessment, revision: Option<int>, maxRevisions: Option<int>,
                    minQualityScore: real, fmt: real -> string): (u: Update)
    ensures var rev := revision.GetOr(0);
      var refine := !a.sufficient && a.overallScore < minQualityScore && rev < maxRevisions.GetOr(2);
      && u.qualityReport.Some?
      && u.qualityReport.value.needsRefinement == refine
      && u.qualityReport.value.overallScore == a.overallScore
      && u.qualityReport.value.completeness == a.completeness
      && u.qualityReport.value.sourceDiversity == a.sourceDiversity
      && u.qualityReport.value.factConsistency == a.factConsistency
      && u.qualityReport.value.suggestions == (if refine then a.suggestions else [])
      && u.status == Some(if refine then Planning else Writing)
      && u.revisionNumber == Some(if refine then rev + 1 else rev)
      && u.messages == Some(LogLines(a, refine, fmt))
      && u.plan.None? && u.planApproved.None? && u.sources.None?
      && u.researchData.None? && u.finalReport.None?
  {
    var rev := revision.GetOr(0);
    var refine := NeedsRefinement(a, rev, maxRevisions.GetOr(2), minQualityScore);
    Update(None, None, None, None, Some(Report(a, refine)), None,
           Some(rev + (if refine then 1 else 0)), Some(if refine then Planning else Writing),
           Some(LogLines(a, refine, fmt)))
  }

  /** Once the revision count reaches the ceiling the critic always moves on
      to writing, whatever the scores, and leaves the counter alone. */
  lemma CeilingForcesWriting(a: Assessment, revision: int, maxRevisions: int,
                             minQualityScore: real, fmt: real -> string)
    requires revision >= maxRevisions
    ensures var u := Evaluate(a, Some(revision), Some(maxRevisions), minQualityScore, fmt);
      && !u.qualityReport.value.needsRefinement
      && u.qualityReport.value.suggestions == []
      && u.status == Some(Writing)
      && u.revisionNumber == Some(revision)
  {
  }

  /** The three signals the critic emits agree with each other: the report's
      flag, the "planning" status and the counter bump all coincide, and a
      report that does not ask for refinement carries no suggestions. */
  lemma SignalsAgree(a: Assessment, revision: Option<int>, maxRevisions: Option<int>,
                     minQualityScore: real, fmt: real -> string)
    ensures var u := Evaluate(a, revision, maxRevisions, minQualityScore, fmt);
      var q := u.qualityReport.value;
      && (q.needsRefinement <==> u.status == Some(Planning))
      && (q.needsRefinement <==> u.revisionNumber == Some(revision.GetOr(0) + 1))
      && (!q.needsRefinement ==> u.status == Some(Writing) && q.suggestions == [])
  {
  }

  /** A sufficient assessment, or one scoring at the threshold or above,
      never sends the run back to the planner. */
  lemma GoodEnoughForcesWriting(a: Assessment, revision: Option<int>, maxRevisions: Option<int>,
                                minQualityScore: real, fmt: real -> string)
    requires a.sufficient || a.overallScore >= minQualityScore
    ensures Evaluate(a, revision, maxRevisions, minQualityScore, fmt).status == Some(Writing)
  {
  }

  /** `CriticAgent.run` on a state: `assess` stands for the model call. A
      refinement is only ever requested below the ceiling, and it is the only
      way the counter grows. */
  function Run(s: AgentState, assess: string -> Assessment, minQualityScore: real, fmt: real -> string): (u: Update)
    ensures u.qualityReport.Some? && u.revisionNumber.Some?
    ensures u.qualityReport.value.needsRefinement ==>
      s.revisionNumber < s.maxRevisions && u.revisionNumber.value == s.revisionNumber + 1
      && u.status == Some(Planning)
    ensures !u.qualityReport.value.needsRefinement ==>
      u.revisionNumber.value == s.revisionNumber && u.status == Some(Writing)
  {
    Evaluate(assess(Prompt(s.topic, |s.sources|, s.researchData)),
             Some(s.revisionNumber), Some(s.maxRevisions), minQualityScore, fmt)
  }
}
