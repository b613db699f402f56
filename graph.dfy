/** The research workflow (src/graph.py): the two routers, the fixed edge
    table, and the run of the compiled graph from the initial state. The
    run applies each node's update with the state reducer and follows the
    edges until END; the model calls, the search provider and the clock are
    the fields of `Env`. */
module Graph {
  import opened Text
  import opened Json
  import opened State
  import PlannerAgent = Planner
  import ResearcherAgent = Researcher
  import CriticAgent = Critic
  import WriterAgent = Writer

  datatype Node = Start | Planner | Researcher | Critic | Writer | End

  /** `should_continue_after_critic` on the state dictionary. `None` stands
      for the `AttributeError` raised when `quality_report` holds something
      other than a dictionary, such as `None`. */
  function ShouldContinueAfterCritic(state: map<string, Value>): (r: Option<Node>)
    ensures var q := Get(state, "quality_report", Dict(map[]));
      && (r.None? <==> !q.Dict?)
      && (r == Some(Planner) <==> q.Dict? && Truthy(Get(q.entries, "needs_refinement", Bool(false))))
      && (r.Some? ==> r.value == Planner || r.value == Writer)
  {
    var q := Get(state, "quality_report", Dict(map[]));
    if !q.Dict? then None
    else if Truthy(Get(q.entries, "needs_refinement", Bool(false))) then Some(Planner)
    else Some(Writer)
  }

  /** A missing report, or a report without the flag, routes to the writer. */
  lemma AbsentFlagRoutesToWriter(state: map<string, Value>)
    requires "quality_report" !in state
          || (state["quality_report"].Dict? && "needs_refinement" !in state["quality_report"].entries)
    ensures ShouldContinueAfterCritic(state) == Some(Writer)
  {
  }

  /** On a state the nodes produce, the router follows the stored report's
      flag, and raises when no report has been stored yet. */
  lemma RouteFollowsReport(s: AgentState)
    ensures s.qualityReport.None? ==> ShouldContinueAfterCritic(StateToDict(s)).None?
    ensures s.qualityReport.Some? ==>
      ShouldContinueAfterCritic(StateToDict(s))
        == Some(if s.qualityReport.value.needsRefinement then Planner else Writer)
  {
    var d := StateToDict(s);
    assert d["quality_report"] == OptionalQuality(s.qualityReport);
    if s.qualityReport.Some? {
      assert d["quality_report"].entries["needs_refinement"] == Bool(s.qualityReport.value.needsRefinement);
    }
  }

  /** `check_plan_approval`: both branches return "researcher". */
  function CheckPlanApproval(state: map<string, Value>): (r: Node)
    ensures r == Researcher
  {
    if Truthy(Get(state, "plan_approved", Bool(false))) then Researcher else Researcher
  }

  /** The edges `create_research_graph` declares; with `enableHitl` the
      planner also has an edge to END for the `__interrupt__` outcome. */
  function Successors(n: Node, enableHitl: bool): set<Node> {
    match n
    case Start => {Planner}
    case Planner => if enableHitl then {Researcher, End} else {Researcher}
    case Researcher => {Critic}
    case Critic => {Planner, Writer}
    case Writer => {End}
    case End => {}
  }

  /** The node that follows `n` on `state`; `None` when the router raises or
      after END. */
  function Next(n: Node, state: map<string, Value>, enableHitl: bool): (r: Option<Node>)
    ensures r.Some? ==> r.value in Successors(n, enableHitl)
    ensures n == Planner ==> r == Some(Researcher)
    ensures n == End <==> r.None? && n != Critic
  {
    match n
    case Start => Some(Planner)
    case Planner => if enableHitl then Some(CheckPlanApproval(state)) else Some(Researcher)
    case Researcher => Some(Critic)
    case Critic => ShouldContinueAfterCritic(state)
    case Writer => Some(End)
    case End => None
  }

  /** Everything a run consults besides the state: the model calls, the
      search oracle, the settings it reads and the clock. */
  datatype Env = Env(
    plan: string -> PlannerAgent.ResearchPlan,
    assess: string -> CriticAgent.Assessment,
    write: string -> string,
    respond: (string, string, nat) -> Option<seq<Source>>,
    tavilyKey: string,
    retryAttempts: int,
    retryDelay: real,
    minQualityScore: real,
    citationStyle: string,
    now: string,
    stamp: string,
    fmt: real -> string,
    render: real -> string)

  const Round: seq<Node> := [Planner, Researcher, Critic]

  /** `k` passes of planner, researcher and critic. */
  function Rounds(k: nat): (r: seq<Node>)
    ensures |r| == 3 * k
  {
    if k == 0 then [] else Rounds(k - 1) + Round
  }

  /** The revisions still allowed. */
  function Slack(s: AgentState): nat {
    if s.maxRevisions > s.revisionNumber then s.maxRevisions - s.revisionNumber else 0
  }

  /** How far a node is from END within one pass. */
  function Rank(n: Node): nat {
    match n
    case Start => 5
    case Planner => 4
    case Researcher => 3
    case Critic => 2
    case Writer => 1
    case End => 0
  }

  /** What the trace holds once a pass has reached `n`. */
  function Partial(n: Node): seq<Node> {
    match n
    case Start => []
    case Planner => []
    case Researcher => [Planner]
    case Critic => [Planner, Researcher]
    case Writer => Round
    case End => Round + [Writer]
  }

  /** Runs node `n` on `s` and folds its update into the state. Only the
      critic touches the revision counter, and only below the ceiling; the
      critic stores a report, and the writer completes the run. */
  method RunNode(n: Node, s: AgentState, env: Env) returns (t: AgentState)
    requires n == Planner || n == Researcher || n == Critic || n == Writer
    requires n == Writer ==> s.qualityReport.Some?
    ensures t.topic == s.topic && t.maxRevisions == s.maxRevisions
    ensures n != Critic ==> t.revisionNumber == s.revisionNumber
    ensures n != Critic && s.qualityReport.Some? ==> t.qualityReport.Some?
    ensures n == Critic ==> (t.qualityReport.Some?
      && (t.qualityReport.value.needsRefinement ==>
            s.revisionNumber < s.maxRevisions && t.revisionNumber == s.revisionNumber + 1)
      && (!t.qualityReport.value.needsRefinement ==> t.revisionNumber == s.revisionNumber))
    ensures n == Writer ==> t.status == Complete && t.finalReport != ""
  {
    if n == Planner {
      t := PlannerStep(s, env);
    } else if n == Researcher {
      t := ResearcherStep(s, env);
    } else if n == Critic {
      t := CriticStep(s, env);
    } else {
      t := WriterStep(s, env);
    }
  }

  // One step per agent node: the agent's update folded into the state.

  method PlannerStep(s: AgentState, env: Env) returns (t: AgentState)
    ensures t.topic == s.topic && t.maxRevisions == s.maxRevisions && t.revisionNumber == s.revisionNumber
    ensures s.qualityReport.Some? ==> t.qualityReport.Some?
  {
    var u := PlannerAgent.Run(s, env.plan);
    t := Reduce(s, u);
  }

  method ResearcherStep(s: AgentState, env: Env) returns (t: AgentState)
    ensures t.topic == s.topic && t.maxRevisions == s.maxRevisions && t.revisionNumber == s.revisionNumber
    ensures s.qualityReport.Some? ==> t.qualityReport.Some?
  {
    var u := ResearcherAgent.Run(s, env.tavilyKey, env.respond, env.retryAttempts, env.retryDelay, env.fmt);
    t := Reduce(s, u);
  }

  method CriticStep(s: AgentState, env: Env) returns (t: AgentState)
    ensures t.topic == s.topic && t.maxRevisions == s.maxRevisions && t.qualityReport.Some?
    ensures t.qualityReport.value.needsRefinement ==>
              s.revisionNumber < s.maxRevisions && t.revisionNumber == s.revisionNumber + 1
    ensures !t.qualityReport.value.needsRefinement ==> t.revisionNumber == s.revisionNumber
  {
    var u := CriticAgent.Run(s, env.assess, env.minQualityScore, env.fmt);
    t := Reduce(s, u);
  }

  method WriterStep(s: AgentState, env: Env) returns (t: AgentState)
    requires s.qualityReport.Some?
    ensures t.topic == s.topic && t.maxRevisions == s.maxRevisions && t.revisionNumber == s.revisionNumber
    ensures t.qualityReport.Some? && t.status == Complete && t.finalReport != ""
  {
    var u := WriterAgent.Run(s, env.write, env.citationStyle, env.now, env.stamp, env.render);
    assert |u.finalReport.value| > 0;
    t := Reduce(s, u);
  }

  /** The successor of `n` as read from the typed state. */
  function Successor(n: Node, s: AgentState): Node
    requires n == Critic ==> s.qualityReport.Some?
  {
    match n
    case Start => Planner
    case Planner => Researcher
    case Researcher => Critic
    case Critic => if s.qualityReport.value.needsRefinement then Planner else Writer
    case Writer => End
    case End => End
  }

  /** On every state the nodes produce, the routers applied to the state
      dictionary pick the successor the typed state names: the planner
      always leads to the researcher (so the `__interrupt__` edge is never
      taken), and the critic's successor follows the stored report's flag. */
  lemma SuccessorMatchesRouter(n: Node, s: AgentState, enableHitl: bool)
    requires n != End
    requires n == Critic ==> s.qualityReport.Some?
    ensures Next(n, StateToDict(s), enableHitl) == Some(Successor(n, s))
  {
    RouteFollowsReport(s);
  }

  /** Runs the graph from `s0` to END. Each pass runs planner, researcher and
      critic; the critic sends the run back to the planner only while
      revisions remain, each time using one up, so the loop edge is taken at
      most `Slack(s0)` times; the writer then runs exactly once. Successors
      are taken from `Successor`, which `SuccessorMatchesRouter` shows to be
      what the routers pick, with or without the approval check. */
  method Execute(s0: AgentState, env: Env)
    returns (s: AgentState, trace: seq<Node>, loops: nat)
    ensures loops <= Slack(s0)
    ensures trace == Rounds(loops + 1) + [Writer]
    ensures s.revisionNumber == s0.revisionNumber + loops
    ensures s.status == Complete && s.qualityReport.Some? && s.finalReport != ""
    ensures s.topic == s0.topic && s.maxRevisions == s0.maxRevisions
  {
    s := s0;
    trace := [];
    loops := 0;
    var node := Successor(Start, s);
    while node != End
      invariant node != Start
      invariant s.topic == s0.topic && s.maxRevisions == s0.maxRevisions
      invariant s.revisionNumber == s0.revisionNumber + loops
      invariant loops + Slack(s) == Slack(s0)
      invariant trace == Rounds(loops) + Partial(node)
      invariant node == Writer ==> s.qualityReport.Some?
      invariant node == End ==> s.status == Complete && s.qualityReport.Some? && s.finalReport != ""
      decreases Slack(s), Rank(node)
    {
      s := RunNode(node, s, env);
      trace := trace + [node];
      var next := Successor(node, s);
      if node == Critic && next == Planner {
        loops := loops + 1;
        assert Rounds(loops) == Rounds(loops - 1) + Round;
      }
      node := next;
    }
  }

  /** `run_research`: the graph runs from `create_initial_state(topic)`, so at
      most two refinement loops happen before the single writer pass. The
      `config` argument of the source is never read and has no counterpart. */
  method RunResearch(topic: string, env: Env) returns (s: AgentState, trace: seq<Node>, loops: nat)
    ensures loops <= 2
    ensures trace == Rounds(loops + 1) + [Writer]
    ensures s.topic == topic && s.status == Complete && s.revisionNumber == loops
    ensures s.finalReport != ""
  {
    s, trace, loops := Execute(CreateInitialState(topic), env);
  }
}
