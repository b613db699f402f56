/** The planner agent (src/agents/planner.py): the feedback context built
    from the critic's suggestions on a refinement pass, and the update it
    returns. The model's plan is an input. */
module Planner {
  import opened Text
  import opened Json
  import opened State
  import Base

  /** The structured plan the model returns. */
  datatype ResearchPlan = ResearchPlan(queries: seq<string>, aspects: seq<string>, reasoning: string)

  const Name: string := "Planner"

  const FeedbackHeader: string :=
    "\n\nPrevious research was insufficient. Additional areas to explore:\n"

  /** One `- s` line per suggestion, in order. */
  function Bullets(suggestions: seq<string>): (r: seq<string>)
    ensures |r| == |suggestions|
    ensures forall i :: 0 <= i < |r| ==> r[i] == "- " + suggestions[i]
  {
    seq(|suggestions|, i requires 0 <= i < |suggestions| => "- " + suggestions[i])
  }

  /** A stored quality report is truthy exactly when there is one: its
      dictionary always has all six keys. */
  lemma QualityTruthy(q: Option<QualityReport>)
    ensures Truthy(OptionalQuality(q)) <==> q.Some?
  {
    if q.Some? {
      assert "needs_refinement" in QualityToDict(q.value);
    }
  }

  /** The feedback appended to the prompt: empty on the first pass, when no
      report exists, or when the report has no suggestions. */
  function FeedbackContext(revision: int, report: Option<QualityReport>): (ctx: string)
    ensures revision <= 0 || report.None? ==> ctx == ""
    ensures report.Some? && report.value.suggestions == [] ==> ctx == ""
    ensures revision > 0 && report.Some? && report.value.suggestions != [] ==>
      ctx == FeedbackHeader + Join("\n", Bullets(report.value.suggestions))
  {
    QualityTruthy(report);
    if revision > 0 && Truthy(OptionalQuality(report)) && report.value.suggestions != [] then
      FeedbackHeader + Join("\n", Bullets(report.value.suggestions))
    else ""
  }

  /** On a refinement pass the context, after its header, reads back line by
      line as exactly the suggestions, each as `- s`, in order (for
      suggestions without line breaks). */
  lemma FeedbackLines(revision: int, report: QualityReport)
    requires revision > 0 && report.suggestions != []
    requires forall k :: 0 <= k < |report.suggestions| ==> '\n' !in report.suggestions[k]
    ensures var ctx := FeedbackContext(revision, Some(report));
      && ctx[..|FeedbackHeader|] == FeedbackHeader
      && SplitOn(ctx[|FeedbackHeader|..], '\n') == Bullets(report.suggestions)
  {
    var b := Bullets(report.suggestions);
    forall k | 0 <= k < |b|
      ensures '\n' !in b[k]
    {
      assert b[k] == "- " + report.suggestions[k];
    }
    SplitJoin(b, '\n');
    var ctx := FeedbackContext(revision, Some(report));
    assert ctx == FeedbackHeader + Join("\n", b);
    assert ctx[|FeedbackHeader|..] == Join("\n", b);
  }

  function Prompt(topic: string, context: string): string {
    "Create a research plan for: " + topic + context
  }

  /** The update for a generated plan: the queries verbatim, the status that
      waits for approval, and two tagged messages. */
  function PlanUpdate(p: ResearchPlan): (u: Update)
    ensures u.plan == Some(p.queries) && u.status == Some(AwaitingApproval)
    ensures u.messages.Some? && |u.messages.value| == 2
    ensures forall k :: 0 <= k < 2 ==>
      |u.messages.value[k]| >= |Name| + 3 && u.messages.value[k][..|Name| + 3] == "[" + Name + "] "
    ensures u.planApproved.None? && u.sources.None? && u.researchData.None?
    ensures u.qualityReport.None? && u.finalReport.None? && u.revisionNumber.None?
  {
    var m0 := Base.Tag(Name, "Generated " + NatToString(|p.queries|) + " queries covering: " + Join(", ", p.aspects));
    var m1 := Base.Tag(Name, "Strategy: " + p.reasoning);
    assert m0[..|Name| + 3] == "[" + Name + "] ";
    assert m1[..|Name| + 3] == "[" + Name + "] ";
    Update(Some(p.queries), None, None, None, None, None, None, Some(AwaitingApproval), Some([m0, m1]))
  }

  /** `PlannerAgent.run`: `plan` stands for the model call. */
  function Run(s: AgentState, plan: string -> ResearchPlan): (u: Update)
    ensures u.status == Some(AwaitingApproval)
    ensures u.plan == Some(plan(Prompt(s.topic, FeedbackContext(s.revisionNumber, s.qualityReport))).queries)
    ensures s.revisionNumber <= 0 ==> u == PlanUpdate(plan(Prompt(s.topic, "")))
    ensures u.qualityReport.None? && u.revisionNumber.None?
  {
    PlanUpdate(plan(Prompt(s.topic, FeedbackContext(s.revisionNumber, s.qualityReport))))
  }
}
