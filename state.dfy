/** The shared agent state (src/state.py): the `Source` and `QualityReport`
    records with their dictionary forms, the `AgentState` record with its
    initial value, and the merge rule for node updates: `research_data` and
    `messages` are concatenated (the `add` reducer), every other key is
    replaced. */
module State {
  import opened Text
  import opened Json

  // ------------------------------------------------------------- Source

  datatype Source = Source(
    url: string,
    title: string,
    content: string,
    query: string,
    provider: string,
    qualityScore: real,
    relevanceScore: real,
    retrievedAt: string)

  /** The dataclass constructor with its defaults: both scores start at
      0.0 and `retrieved_at` is the current time `now` (ISO 8601). */
  function NewSource(url: string, title: string, content: string, query: string,
                     provider: string, now: string): (s: Source)
    ensures s.qualityScore == 0.0 && s.relevanceScore == 0.0
    ensures s.url == url && s.title == title && s.content == content
    ensures s.query == query && s.provider == provider && s.retrievedAt == now
  {
    Source(url, title, content, query, provider, 0.0, 0.0, now)
  }

  const SourceKeys: set<string> :=
    {"url", "title", "content", "query", "provider", "quality_score", "relevance_score", "retrieved_at"}

  /** `Source.to_dict`: one key per field, named after it. */
  function SourceToDict(s: Source): (d: map<string, Value>)
    ensures d.Keys == SourceKeys
  {
    map[
      "url" := Str(s.url),
      "title" := Str(s.title),
      "content" := Str(s.content),
      "query" := Str(s.query),
      "provider" := Str(s.provider),
      "quality_score" := Real(s.qualityScore),
      "relevance_score" := Real(s.relevanceScore),
      "retrieved_at" := Str(s.retrievedAt)]
  }

  /** Reads a source dictionary back; `None` unless every field is present
      with the right kind of value. */
  function SourceFromDict(d: map<string, Value>): Option<Source>
  {
    if && "url" in d && d["url"].Str?
       && "title" in d && d["title"].Str?
       && "content" in d && d["content"].Str?
       && "query" in d && d["query"].Str?
       && "provider" in d && d["provider"].Str?
       && "quality_score" in d && d["quality_score"].Real?
       && "relevance_score" in d && d["relevance_score"].Real?
       && "retrieved_at" in d && d["retrieved_at"].Str?
    then
      Some(Source(d["url"].s, d["title"].s, d["content"].s, d["query"].s, d["provider"].s,
                  d["quality_score"].r, d["relevance_score"].r, d["retrieved_at"].s))
    else None
  }

  /** `to_dict` loses nothing: every field comes back unchanged. */
  lemma SourceDictRoundTrip(s: Source)
    ensures SourceFromDict(SourceToDict(s)) == Some(s)
  {
  }

  function SourcesValue(ss: seq<Source>): (v: Value)
    ensures v.List? && |v.items| == |ss|
  {
    List(seq(|ss|, i requires 0 <= i < |ss| => Dict(SourceToDict(ss[i]))))
  }

  // ------------------------------------------------------- QualityReport

  datatype QualityReport = QualityReport(
    overallScore: real,
    completeness: real,
    sourceDiversity: real,
    factConsistency: real,
    suggestions: seq<string>,
    needsRefinement: bool)

  /** `QualityReport()` with every field at its default. */
  function DefaultQualityReport(): (q: QualityReport)
    ensures q.overallScore == q.completeness == q.sourceDiversity == q.factConsistency == 0.0
    ensures q.suggestions == [] && !q.needsRefinement
  {
    QualityReport(0.0, 0.0, 0.0, 0.0, [], false)
  }

  const QualityKeys: set<string> :=
    {"overall_score", "completeness", "source_diversity", "fact_consistency", "suggestions", "needs_refinement"}

  /** `QualityReport.to_dict`. */
  function QualityToDict(q: QualityReport): (d: map<string, Value>)
    ensures d.Keys == QualityKeys
  {
    map[
      "overall_score" := Real(q.overallScore),
      "completeness" := Real(q.completeness),
      "source_diversity" := Real(q.sourceDiversity),
      "fact_consistency" := Real(q.factConsistency),
      "suggestions" := StrList(q.suggestions),
      "needs_refinement" := Bool(q.needsRefinement)]
  }

  function QualityFromDict(d: map<string, Value>): Option<QualityReport>
  {
    if && "overall_score" in d && d["overall_score"].Real?
       && "completeness" in d && d["completeness"].Real?
       && "source_diversity" in d && d["source_diversity"].Real?
       && "fact_consistency" in d && d["fact_consistency"].Real?
       && "suggestions" in d && AsStrList(d["suggestions"]).Some?
       && "needs_refinement" in d && d["needs_refinement"].Bool?
    then
      Some(QualityReport(d["overall_score"].r, d["completeness"].r, d["source_diversity"].r,
                         d["fact_consistency"].r, AsStrList(d["suggestions"]).value,
                         d["needs_refinement"].b))
    else None
  }

  /** `to_dict` keeps all six fields. */
  lemma QualityDictRoundTrip(q: QualityReport)
    ensures QualityFromDict(QualityToDict(q)) == Some(q)
  {
    StrListRoundTrip(q.suggestions);
  }

  // -------------------------------------------------------------- Status

  datatype Status = Planning | AwaitingApproval | Researching | Evaluating | Writing | Complete | Error

  function StatusName(st: Status): string {
    match st
    case Planning => "planning"
    case AwaitingApproval => "awaiting_approval"
    case Researching => "researching"
    case Evaluating => "evaluating"
    case Writing => "writing"
    case Complete => "complete"
    case Error => "error"
  }

  function StatusFromName(name: string): Option<Status> {
    if name == "planning" then Some(Planning)
    else if name == "awaiting_approval" then Some(AwaitingApproval)
    else if name == "researching" then Some(Researching)
    else if name == "evaluating" then Some(Evaluating)
    else if name == "writing" then Some(Writing)
    else if name == "complete" then Some(Complete)
    else if name == "error" then Some(Error)
    else None
  }

  /** The seven status literals are distinct. */
  lemma StatusNameRoundTrip(st: Status)
    ensures StatusFromName(StatusName(st)) == Some(st)
  {
  }

  // ---------------------------------------------------------- AgentState

  datatype AgentState = AgentState(
    topic: string,
    plan: seq<string>,
    planApproved: bool,
    sources: seq<Source>,
    researchData: seq<string>,
    qualityReport: Option<QualityReport>,
    finalReport: string,
    revisionNumber: int,
    maxRevisions: int,
    status: Status,
    error: Option<string>,
    messages: seq<string>)

  /** `create_initial_state(topic, max_revisions=2)`. */
  function CreateInitialState(topic: string, maxRevisions: int := 2): (s: AgentState)
    ensures s.topic == topic && s.maxRevisions == maxRevisions
    ensures s.plan == [] && s.sources == [] && s.researchData == [] && s.messages == []
    ensures s.qualityReport == None && s.finalReport == "" && s.error == None
    ensures s.revisionNumber == 0 && s.status == Planning && !s.planApproved
  {
    AgentState(topic, [], false, [], [], None, "", 0, maxRevisions, Planning, None, [])
  }

  function OptionalStr(o: Option<string>): Value {
    match o
    case None => Null
    case Some(s) => Str(s)
  }

  function OptionalQuality(o: Option<QualityReport>): Value {
    match o
    case None => Null
    case Some(q) => Dict(QualityToDict(q))
  }

  const StateKeys: set<string> :=
    {"topic", "plan", "plan_approved", "sources", "research_data", "quality_report",
     "final_report", "revision_number", "max_revisions", "status", "error", "messages"}

  /** The state as the dictionary the front ends hold and mutate. */
  function StateToDict(s: AgentState): (d: map<string, Value>)
    ensures d.Keys == StateKeys
  {
    map[
      "topic" := Str(s.topic),
      "plan" := StrList(s.plan),
      "plan_approved" := Bool(s.planApproved),
      "sources" := SourcesValue(s.sources),
      "research_data" := StrList(s.researchData),
      "quality_report" := OptionalQuality(s.qualityReport),
      "final_report" := Str(s.finalReport),
      "revision_number" := Int(s.revisionNumber),
      "max_revisions" := Int(s.maxRevisions),
      "status" := Str(StatusName(s.status)),
      "error" := OptionalStr(s.error),
      "messages" := StrList(s.messages)]
  }

  /** The value under each key of the state's dictionary. */
  lemma StateToDictAt(s: AgentState)
    ensures var d := StateToDict(s);
      && d["topic"] == Str(s.topic) && d["plan"] == StrList(s.plan)
      && d["plan_approved"] == Bool(s.planApproved) && d["sources"] == SourcesValue(s.sources)
      && d["research_data"] == StrList(s.researchData)
      && d["quality_report"] == OptionalQuality(s.qualityReport)
      && d["final_report"] == Str(s.finalReport) && d["revision_number"] == Int(s.revisionNumber)
      && d["max_revisions"] == Int(s.maxRevisions) && d["status"] == Str(StatusName(s.status))
      && d["error"] == OptionalStr(s.error) && d["messages"] == StrList(s.messages)
  {
  }

  lemma CompleteName(st: Status)
    ensures StatusName(st) == "complete" <==> st == Complete
  {
    StatusNameRoundTrip(st);
  }

  // -------------------------------------------------------------- Update

  /** The dictionary a node returns; `None` marks a key the node leaves out. */
  datatype Update = Update(
    plan: Option<seq<string>>,
    planApproved: Option<bool>,
    sources: Option<seq<Source>>,
    researchData: Option<seq<string>>,
    qualityReport: Option<QualityReport>,
    finalReport: Option<string>,
    revisionNumber: Option<int>,
    status: Option<Status>,
    messages: Option<seq<string>>)

  const NoUpdate: Update := Update(None, None, None, None, None, None, None, None, None)

  function Appended(prior: seq<string>, add: Option<seq<string>>): seq<string> {
    match add
    case None => prior
    case Some(xs) => prior + xs
  }

  /** The update's value when it carries one, the state's otherwise. */
  function OrElse<T>(o: Option<T>, current: Option<T>): Option<T> {
    if o.Some? then o else current
  }

  // One step per key of an update; a step leaves the state unchanged when
  // the update does not carry its key.

  function WithPlan(s: AgentState, o: Option<seq<string>>): AgentState
  { s.(plan := o.GetOr(s.plan)) }

  function WithPlanApproved(s: AgentState, o: Option<bool>): AgentState
  { s.(planApproved := o.GetOr(s.planApproved)) }

  function WithSources(s: AgentState, o: Option<seq<Source>>): AgentState
  { s.(sources := o.GetOr(s.sources)) }

  function WithResearchData(s: AgentState, o: Option<seq<string>>): AgentState
  { s.(researchData := Appended(s.researchData, o)) }

  function WithQuality(s: AgentState, o: Option<QualityReport>): AgentState
  { s.(qualityReport := OrElse(o, s.qualityReport)) }

  function WithFinalReport(s: AgentState, o: Option<string>): AgentState
  { s.(finalReport := o.GetOr(s.finalReport)) }

  function WithRevision(s: AgentState, o: Option<int>): AgentState
  { s.(revisionNumber := o.GetOr(s.revisionNumber)) }

  function WithStatus(s: AgentState, o: Option<Status>): AgentState
  { s.(status := o.GetOr(s.status)) }

  function WithMessages(s: AgentState, o: Option<seq<string>>): AgentState
  { s.(messages := Appended(s.messages, o)) }

  /** How the graph runtime folds a node's update into the state: the two
      keys annotated with the `add` reducer grow, the others are replaced
      when the update carries them. */
  function Reduce(s: AgentState, u: Update): (r: AgentState)
    ensures r.messages == Appended(s.messages, u.messages)
    ensures r.researchData == Appended(s.researchData, u.researchData)
    ensures r.plan == u.plan.GetOr(s.plan)
    ensures r.planApproved == u.planApproved.GetOr(s.planApproved)
    ensures r.sources == u.sources.GetOr(s.sources)
    ensures r.qualityReport == OrElse(u.qualityReport, s.qualityReport)
    ensures r.finalReport == u.finalReport.GetOr(s.finalReport)
    ensures r.revisionNumber == u.revisionNumber.GetOr(s.revisionNumber)
    ensures r.status == u.status.GetOr(s.status)
    ensures r.topic == s.topic && r.maxRevisions == s.maxRevisions && r.error == s.error
  {
    WithMessages(WithStatus(WithRevision(WithFinalReport(WithQuality(WithResearchData(
      WithSources(WithPlanApproved(WithPlan(s, u.plan), u.planApproved), u.sources),
      u.researchData), u.qualityReport), u.finalReport), u.revisionNumber), u.status), u.messages)
  }

  // ------------------------------------------- dictionary-level merging

  function Item<T>(key: string, o: Option<T>, enc: T -> Value): seq<(string, Value)> {
    match o
    case None => []
    case Some(x) => [(key, enc(x))]
  }

  /** Encoders of the update's fields. */
  function BoolValue(b: bool): Value { Bool(b) }
  function IntValue(n: int): Value { Int(n) }
  function StrValue(t: string): Value { Str(t) }
  function QualityValue(q: QualityReport): Value { Dict(QualityToDict(q)) }
  function StatusValue(st: Status): Value { Str(StatusName(st)) }

  /** The update as the `(key, value)` pairs of its dictionary. */
  function UpdateToItems(u: Update): seq<(string, Value)> {
    Item("plan", u.plan, StrList)
    + (Item("plan_approved", u.planApproved, BoolValue)
    + (Item("sources", u.sources, SourcesValue)
    + (Item("research_data", u.researchData, StrList)
    + (Item("quality_report", u.qualityReport, QualityValue)
    + (Item("final_report", u.finalReport, StrValue)
    + (Item("revision_number", u.revisionNumber, IntValue)
    + (Item("status", u.status, StatusValue)
    + Item("messages", u.messages, StrList))))))))
  }

  predicate IsAppendKey(key: string) { key == "messages" || key == "research_data" }

  /** One iteration of the front ends' merge loop: `messages` and
      `research_data` become `state.get(key, []) + value`, any other key is
      overwritten. `None` is the `TypeError` Python raises when the two
      sides of `+` cannot be added. */
  function MergeItem(d: map<string, Value>, key: string, v: Value): (r: Option<map<string, Value>>)
    ensures !IsAppendKey(key) ==> r == Some(d[key := v])
    ensures IsAppendKey(key) && Get(d, key, List([])).List? && v.List? ==>
              r == Some(d[key := List(Get(d, key, List([])).items + v.items)])
    ensures IsAppendKey(key) ==> (r.None? <==> Concat(Get(d, key, List([])), v).None?)
    ensures IsAppendKey(key) && r.Some? ==> r.value == d[key := Concat(Get(d, key, List([])), v).value]
  {
    if IsAppendKey(key) then
      match Concat(Get(d, key, List([])), v)
      case Some(c) => Some(d[key := c])
      case None => None
    else Some(d[key := v])
  }

  /** The whole merge loop, left to right over the update's items. */
  function MergeItems(d: map<string, Value>, items: seq<(string, Value)>): Option<map<string, Value>>
    decreases |items|
  {
    if items == [] then Some(d)
    else
      match MergeItem(d, items[0].0, items[0].1)
      case None => None
      case Some(d1) => MergeItems(d1, items[1..])
  }

  lemma {:induction false} MergeItemsAppend(d: map<string, Value>, a: seq<(string, Value)>, b: seq<(string, Value)>)
    ensures MergeItems(d, a).None? ==> MergeItems(d, a + b).None?
    ensures MergeItems(d, a).Some? ==> MergeItems(d, a + b) == MergeItems(MergeItems(d, a).value, b)
    decreases |a|
  {
    if a == [] {
      assert a + b == b;
    } else {
      assert (a + b)[0] == a[0];
      assert (a + b)[1..] == a[1..] + b;
      var r := MergeItem(d, a[0].0, a[0].1);
      if r.Some? {
        MergeItemsAppend(r.value, a[1..], b);
      }
    }
  }

  lemma MergeChain(d: map<string, Value>, a: seq<(string, Value)>, b: seq<(string, Value)>,
                   d1: map<string, Value>, d2: map<string, Value>)
    requires MergeItems(d, a) == Some(d1) && MergeItems(d1, b) == Some(d2)
    ensures MergeItems(d, a + b) == Some(d2)
  {
    MergeItemsAppend(d, a, b);
  }

  lemma StrListAppend(a: seq<string>, b: seq<string>)
    ensures StrList(a).items + StrList(b).items == StrList(a + b).items
  {
  }

  // Setting one field of a state sets one key of its dictionary.

  lemma DictWithPlan(s: AgentState, x: seq<string>)
    ensures StateToDict(s.(plan := x)) == StateToDict(s)["plan" := StrList(x)]
  {
  }

  lemma DictWithPlanApproved(s: AgentState, x: bool)
    ensures StateToDict(s.(planApproved := x)) == StateToDict(s)["plan_approved" := Bool(x)]
  {
  }

  lemma DictWithSources(s: AgentState, x: seq<Source>)
    ensures StateToDict(s.(sources := x)) == StateToDict(s)["sources" := SourcesValue(x)]
  {
  }

  lemma DictWithResearchData(s: AgentState, x: seq<string>)
    ensures StateToDict(s.(researchData := x)) == StateToDict(s)["research_data" := StrList(x)]
  {
  }

  lemma DictWithQuality(s: AgentState, x: Option<QualityReport>)
    ensures StateToDict(s.(qualityReport := x)) == StateToDict(s)["quality_report" := OptionalQuality(x)]
  {
  }

  lemma DictWithFinalReport(s: AgentState, x: string)
    ensures StateToDict(s.(finalReport := x)) == StateToDict(s)["final_report" := Str(x)]
  {
  }

  lemma DictWithRevision(s: AgentState, x: int)
    ensures StateToDict(s.(revisionNumber := x)) == StateToDict(s)["revision_number" := Int(x)]
  {
  }

  lemma DictWithStatus(s: AgentState, x: Status)
    ensures StateToDict(s.(status := x)) == StateToDict(s)["status" := Str(StatusName(x))]
  {
  }

  lemma DictWithMessages(s: AgentState, x: seq<string>)
    ensures StateToDict(s.(messages := x)) == StateToDict(s)["messages" := StrList(x)]
  {
  }

  /** Merging one item under a replaced key overwrites that key. */
  lemma MergeReplace(d: map<string, Value>, key: string, v: Value)
    requires !IsAppendKey(key)
    ensures MergeItems(d, [(key, v)]) == Some(d[key := v])
  {
    assert [(key, v)][1..] == [];
  }

  /** Merging one list under an appended key that holds a list extends it. */
  lemma MergeAppend(d: map<string, Value>, key: string, v: seq<Value>)
    requires IsAppendKey(key) && key in d && d[key].List?
    ensures MergeItems(d, [(key, List(v))]) == Some(d[key := List(d[key].items + v)])
  {
    assert [(key, List(v))][1..] == [];
  }

  // One lemma per field of an update: merging that field's item into the
  // dictionary of a state gives the dictionary of the state with the field
  // reduced.

  lemma MergePlan(s: AgentState, o: Option<seq<string>>)
    ensures MergeItems(StateToDict(s), Item("plan", o, StrList))
            == Some(StateToDict(WithPlan(s, o)))
  {
    if o.Some? {
      DictWithPlan(s, o.value);
      assert Item("plan", o, StrList) == [("plan", StrList(o.value))];
      MergeReplace(StateToDict(s), "plan", StrList(o.value));
    } else {
      assert Item("plan", o, StrList) == [];
    }
  }

  lemma MergePlanApproved(s: AgentState, o: Option<bool>)
    ensures MergeItems(StateToDict(s), Item("plan_approved", o, BoolValue))
            == Some(StateToDict(WithPlanApproved(s, o)))
  {
    if o.Some? {
      DictWithPlanApproved(s, o.value);
      assert Item("plan_approved", o, BoolValue) == [("plan_approved", Bool(o.value))];
      MergeReplace(StateToDict(s), "plan_approved", Bool(o.value));
    } else {
      assert Item("plan_approved", o, BoolValue) == [];
    }
  }

  lemma MergeSources(s: AgentState, o: Option<seq<Source>>)
    ensures MergeItems(StateToDict(s), Item("sources", o, SourcesValue))
            == Some(StateToDict(WithSources(s, o)))
  {
    if o.Some? {
      DictWithSources(s, o.value);
      assert Item("sources", o, SourcesValue) == [("sources", SourcesValue(o.value))];
      MergeReplace(StateToDict(s), "sources", SourcesValue(o.value));
    } else {
      assert Item("sources", o, SourcesValue) == [];
    }
  }

  lemma MergeResearchData(s: AgentState, o: Option<seq<string>>)
    ensures MergeItems(StateToDict(s), Item("research_data", o, StrList))
            == Some(StateToDict(WithResearchData(s, o)))
  {
    if o.Some? {
      DictWithResearchData(s, s.researchData + o.value);
      StrListAppend(s.researchData, o.value);
      assert Item("research_data", o, StrList) == [("research_data", List(StrList(o.value).items))];
      MergeAppend(StateToDict(s), "research_data", StrList(o.value).items);
    } else {
      assert Item("research_data", o, StrList) == [];
    }
  }

  lemma MergeQuality(s: AgentState, o: Option<QualityReport>)
    ensures MergeItems(StateToDict(s), Item("quality_report", o, QualityValue))
            == Some(StateToDict(WithQuality(s, o)))
  {
    if o.Some? {
      DictWithQuality(s, o);
      assert Item("quality_report", o, QualityValue) == [("quality_report", Dict(QualityToDict(o.value)))];
      MergeReplace(StateToDict(s), "quality_report", Dict(QualityToDict(o.value)));
    } else {
      assert Item("quality_report", o, QualityValue) == [];
    }
  }

  lemma MergeFinalReport(s: AgentState, o: Option<string>)
    ensures MergeItems(StateToDict(s), Item("final_report", o, StrValue))
            == Some(StateToDict(WithFinalReport(s, o)))
  {
    if o.Some? {
      DictWithFinalReport(s, o.value);
      assert Item("final_report", o, StrValue) == [("final_report", Str(o.value))];
      MergeReplace(StateToDict(s), "final_report", Str(o.value));
    } else {
      assert Item("final_report", o, StrValue) == [];
    }
  }

  lemma MergeRevision(s: AgentState, o: Option<int>)
    ensures MergeItems(StateToDict(s), Item("revision_number", o, IntValue))
            == Some(StateToDict(WithRevision(s, o)))
  {
    if o.Some? {
      DictWithRevision(s, o.value);
      assert Item("revision_number", o, IntValue) == [("revision_number", Int(o.value))];
      MergeReplace(StateToDict(s), "revision_number", Int(o.value));
    } else {
      assert Item("revision_number", o, IntValue) == [];
    }
  }

  lemma MergeStatus(s: AgentState, o: Option<Status>)
    ensures MergeItems(StateToDict(s), Item("status", o, StatusValue))
            == Some(StateToDict(WithStatus(s, o)))
  {
    if o.Some? {
      DictWithStatus(s, o.value);
      assert Item("status", o, StatusValue) == [("status", Str(StatusName(o.value)))];
      MergeReplace(StateToDict(s), "status", Str(StatusName(o.value)));
    } else {
      assert Item("status", o, StatusValue) == [];
    }
  }

  lemma MergeMessages(s: AgentState, o: Option<seq<string>>)
    ensures MergeItems(StateToDict(s), Item("messages", o, StrList))
            == Some(StateToDict(WithMessages(s, o)))
  {
    if o.Some? {
      DictWithMessages(s, s.messages + o.value);
      StrListAppend(s.messages, o.value);
      assert Item("messages", o, StrList) == [("messages", List(StrList(o.value).items))];
      MergeAppend(StateToDict(s), "messages", StrList(o.value).items);
    } else {
      assert Item("messages", o, StrList) == [];
    }
  }

  /** The merge loop duplicated in the Streamlit and WebSocket front ends
      agrees with the graph runtime's reducer: merging a node's update into
      the dictionary of a state yields the dictionary of the reduced state. */
  lemma {:induction false} MergeMatchesReduce(s: AgentState, u: Update)
    ensures MergeItems(StateToDict(s), UpdateToItems(u)) == Some(StateToDict(Reduce(s, u)))
  {
    var s1 := WithPlan(s, u.plan);
    var s2 := WithPlanApproved(s1, u.planApproved);
    var s3 := WithSources(s2, u.sources);
    var s4 := WithResearchData(s3, u.researchData);
    var s5 := WithQuality(s4, u.qualityReport);
    var s6 := WithFinalReport(s5, u.finalReport);
    var s7 := WithRevision(s6, u.revisionNumber);
    var s8 := WithStatus(s7, u.status);
    var s9 := WithMessages(s8, u.messages);

    var i1 := Item("plan", u.plan, StrList);
    var i2 := Item("plan_approved", u.planApproved, BoolValue);
    var i3 := Item("sources", u.sources, SourcesValue);
    var i4 := Item("research_data", u.researchData, StrList);
    var i5 := Item("quality_report", u.qualityReport, QualityValue);
    var i6 := Item("final_report", u.finalReport, StrValue);
    var i7 := Item("revision_number", u.revisionNumber, IntValue);
    var i8 := Item("status", u.status, StatusValue);
    var i9 := Item("messages", u.messages, StrList);

    MergePlan(s, u.plan);
    MergePlanApproved(s1, u.planApproved);
    MergeSources(s2, u.sources);
    MergeResearchData(s3, u.researchData);
    MergeQuality(s4, u.qualityReport);
    MergeFinalReport(s5, u.finalReport);
    MergeRevision(s6, u.revisionNumber);
    MergeStatus(s7, u.status);
    MergeMessages(s8, u.messages);

    MergeChain(StateToDict(s7), i8, i9, StateToDict(s8), StateToDict(s9));
    MergeChain(StateToDict(s6), i7, i8 + i9, StateToDict(s7), StateToDict(s9));
    MergeChain(StateToDict(s5), i6, i7 + (i8 + i9), StateToDict(s6), StateToDict(s9));
    MergeChain(StateToDict(s4), i5, i6 + (i7 + (i8 + i9)), StateToDict(s5), StateToDict(s9));
    MergeChain(StateToDict(s3), i4, i5 + (i6 + (i7 + (i8 + i9))), StateToDict(s4), StateToDict(s9));
    MergeChain(StateToDict(s2), i3, i4 + (i5 + (i6 + (i7 + (i8 + i9)))), StateToDict(s3), StateToDict(s9));
    MergeChain(StateToDict(s1), i2, i3 + (i4 + (i5 + (i6 + (i7 + (i8 + i9))))), StateToDict(s2), StateToDict(s9));
    MergeChain(StateToDict(s), i1, i2 + (i3 + (i4 + (i5 + (i6 + (i7 + (i8 + i9)))))), StateToDict(s1), StateToDict(s9));
  }
}
