/** The HTTP and WebSocket back end (api/main.py): the in-memory store of
    research sessions behind the REST endpoints, the WebSocket connection
    table, and the loop that streams a run's node updates to a client while
    merging them into the session's state. The transport itself (FastAPI,
    CORS, JSON encoding, `uuid4` and the clock) is replaced by parameters. */
module Api {
  import opened Text
  import opened Json
  import opened State
  import App

  const NotFoundDetail: string := "Session not found"
  const NotCompleteDetail: string := "Research not complete"
  const ServerErrorDetail: string := "Internal Server Error"

  /** How many of the newest messages the status endpoint returns. */
  const MessageWindow: nat := 20

  /** An endpoint's answer: a JSON body, or the status code and detail of an
      `HTTPException` (500 stands for an uncaught `TypeError`). */
  datatype Response = Ok(body: map<string, Value>) | Failed(code: int, detail: string)

  /** One entry of `research_sessions`. */
  datatype Session = Session(
    id: string,
    topic: string,
    status: string,
    state: map<string, Value>,
    createdAt: string,
    maxRevisions: int,
    citationStyle: string)

  /** The `ResearchSession` response of `start_research`. */
  datatype SessionView = SessionView(sessionId: string, topic: string, status: string, createdAt: string)

  function NewSession(id: string, topic: string, maxRevisions: int, citationStyle: string, now: string): Session {
    Session(id, topic, "created", StateToDict(CreateInitialState(topic, maxRevisions)), now, maxRevisions, citationStyle)
  }

  // ------------------------------------------------------------ status view

  /** Python's `v[-20:]`: the newest twenty items of a list or characters
      of a string; any other value cannot be sliced. */
  function LastWindow(v: Value): (r: Option<Value>)
    ensures r.Some? <==> v.List? || v.Str?
    ensures v.List? ==> r == Some(List(LastN(v.items, MessageWindow)))
    ensures r.Some? && r.value.List? ==> |r.value.items| <= MessageWindow
  {
    if v.List? then Some(List(LastN(v.items, MessageWindow)))
    else if v.Str? then Some(Str(LastN(v.s, MessageWindow)))
    else None
  }

  const StatusKeys: set<string> :=
    {"session_id", "topic", "status", "plan", "plan_approved", "quality_report", "revision_number", "messages"}

  /** The body of `get_research_status` for a known session. */
  function StatusBody(id: string, session: Session): (r: Option<map<string, Value>>)
    ensures r.Some? <==> LastWindow(Get(session.state, "messages", List([]))).Some?
    ensures r.Some? ==> r.value.Keys == StatusKeys
    ensures r.Some? ==> r.value["session_id"] == Str(id) && r.value["topic"] == Str(session.topic)
    ensures r.Some? ==> r.value["status"] == Get(session.state, "status", Str("unknown"))
    ensures r.Some? ==> r.value["plan"] == Get(session.state, "plan", List([]))
    ensures r.Some? ==> r.value["plan_approved"] == Get(session.state, "plan_approved", Bool(false))
    ensures r.Some? ==> r.value["quality_report"] == Get(session.state, "quality_report", Null)
    ensures r.Some? ==> r.value["revision_number"] == Get(session.state, "revision_number", Int(0))
    ensures r.Some? ==> r.value["messages"] == LastWindow(Get(session.state, "messages", List([]))).value
  {
    match LastWindow(Get(session.state, "messages", List([])))
    case None => None
    case Some(recent) =>
      Some(map[
        "session_id" := Str(id),
        "topic" := Str(session.topic),
        "status" := Get(session.state, "status", Str("unknown")),
        "plan" := Get(session.state, "plan", List([])),
        "plan_approved" := Get(session.state, "plan_approved", Bool(false)),
        "quality_report" := Get(session.state, "quality_report", Null),
        "revision_number" := Get(session.state, "revision_number", Int(0)),
        "messages" := recent])
  }

  lemma LastWindowStrList(xs: seq<string>)
    ensures LastN(StrList(xs).items, MessageWindow) == StrList(LastN(xs, MessageWindow)).items
  {
  }

  /** On the dictionary of an agent state, the status view shows the state's
      status, plan and revision, and its twenty newest messages. */
  lemma StatusOfState(id: string, session: Session, s: AgentState)
    requires session.state == StateToDict(s)
    ensures StatusBody(id, session).Some?
    ensures StatusBody(id, session).value["status"] == Str(StatusName(s.status))
    ensures StatusBody(id, session).value["plan"] == StrList(s.plan)
    ensures StatusBody(id, session).value["plan_approved"] == Bool(s.planApproved)
    ensures StatusBody(id, session).value["quality_report"] == OptionalQuality(s.qualityReport)
    ensures StatusBody(id, session).value["revision_number"] == Int(s.revisionNumber)
    ensures StatusBody(id, session).value["messages"] == StrList(LastN(s.messages, MessageWindow))
  {
    var d := StateToDict(s);
    StateToDictAt(s);
    assert Get(d, "messages", List([])) == StrList(s.messages);
    LastWindowStrList(s.messages);
    assert Get(d, "status", Str("unknown")) == Str(StatusName(s.status));
    assert Get(d, "plan", List([])) == StrList(s.plan);
    assert Get(d, "plan_approved", Bool(false)) == Bool(s.planApproved);
    assert Get(d, "quality_report", Null) == OptionalQuality(s.qualityReport);
    assert Get(d, "revision_number", Int(0)) == Int(s.revisionNumber);
  }

  // --------------------------------------------------------------- approval

  /** `if approval.modified_queries:` — given and non-empty. */
  predicate QueriesGiven(modifiedQueries: Option<seq<string>>) {
    modifiedQueries.Some? && modifiedQueries.value != []
  }

  function ApprovalStatus(approved: bool): string {
    if approved then "researching" else "awaiting_approval"
  }

  /** Approving a plan leaves the message and research lists untouched. */
  lemma ApprovedAppendable(state: map<string, Value>, approved: bool, modifiedQueries: Option<seq<string>>)
    requires Appendable(state)
    ensures Appendable(Approved(state, approved, modifiedQueries))
  {
    var r := Approved(state, approved, modifiedQueries);
    assert Get(r, "messages", List([])) == Get(state, "messages", List([]));
    assert Get(r, "research_data", List([])) == Get(state, "research_data", List([]));
  }

  /** The session state after `approve_plan`. */
  function Approved(state: map<string, Value>, approved: bool, modifiedQueries: Option<seq<string>>): (r: map<string, Value>)
    ensures r.Keys == state.Keys + {"plan_approved", "status"} + (if QueriesGiven(modifiedQueries) then {"plan"} else {})
    ensures forall k :: k in state && k != "plan" && k != "plan_approved" && k != "status" ==> r[k] == state[k]
    ensures r["plan_approved"] == Bool(approved)
    ensures r["status"] == Str("researching") <==> approved
    ensures r["status"] == Str("awaiting_approval") <==> !approved
    ensures QueriesGiven(modifiedQueries) ==> r["plan"] == StrList(modifiedQueries.value)
    ensures !QueriesGiven(modifiedQueries) && "plan" in state ==> r["plan"] == state["plan"]
  {
    var planned := if QueriesGiven(modifiedQueries) then state["plan" := StrList(modifiedQueries.value)] else state;
    planned["plan_approved" := Bool(approved)]["status" := Str(ApprovalStatus(approved))]
  }

  /** Approving the dictionary of an agent state gives the dictionary of the
      agent state with the plan, the approval flag and the status set: the
      endpoint keeps the session a well-formed state. */
  lemma ApprovalKeepsState(s: AgentState, approved: bool, modifiedQueries: Option<seq<string>>)
    ensures Approved(StateToDict(s), approved, modifiedQueries)
         == StateToDict(s.(plan := if QueriesGiven(modifiedQueries) then modifiedQueries.value else s.plan,
                           planApproved := approved,
                           status := if approved then Researching else AwaitingApproval))
  {
    var planned := s.(plan := if QueriesGiven(modifiedQueries) then modifiedQueries.value else s.plan);
    var d0 := StateToDict(s);
    var d1 := if QueriesGiven(modifiedQueries) then d0["plan" := StrList(modifiedQueries.value)] else d0;
    if QueriesGiven(modifiedQueries) {
      DictWithPlan(s, modifiedQueries.value);
    }
    assert StateToDict(planned) == d1;
    var status := if approved then Researching else AwaitingApproval;
    assert StatusName(status) == ApprovalStatus(approved);
    DictWithPlanApproved(planned, approved);
    DictWithStatus(planned.(planApproved := approved), status);
    assert Approved(d0, approved, modifiedQueries) == d1["plan_approved" := Bool(approved)]["status" := Str(ApprovalStatus(approved))];
  }

  // ----------------------------------------------------------------- report

  /** Python's `len(v)`; `None` for a value without a length. */
  function Len(v: Value): (r: Option<nat>)
    ensures r.Some? <==> v.List? || v.Str? || v.Dict?
    ensures v.List? ==> r == Some(|v.items|)
  {
    match v
    case List(items) => Some(|items|)
    case Str(s) => Some(|s|)
    case Dict(m) => Some(|m.Keys|)
    case _ => None
  }

  /** The answer of `get_report` for a known session. */
  function ReportBody(state: map<string, Value>): (r: Response)
    ensures r == Failed(400, NotCompleteDetail) <==> Get(state, "status", Null) != Str("complete")
    ensures r.Ok? <==> Get(state, "status", Null) == Str("complete") && Len(Get(state, "sources", List([]))).Some?
    ensures r.Ok? ==> r.body.Keys == {"report", "quality_report", "sources_count"}
    ensures r.Ok? ==> r.body["report"] == Get(state, "final_report", Str(""))
  {
    if Get(state, "status", Null) != Str("complete") then Failed(400, NotCompleteDetail)
    else
      match Len(Get(state, "sources", List([])))
      case None => Failed(500, ServerErrorDetail)
      case Some(n) =>
        Ok(map[
          "report" := Get(state, "final_report", Str("")),
          "quality_report" := Get(state, "quality_report", Null),
          "sources_count" := Int(n)])
  }

  /** On the dictionary of an agent state, the report is available exactly
      when the state is complete, and then it is the final report with the
      number of sources. */
  lemma ReportOfState(s: AgentState)
    ensures ReportBody(StateToDict(s)).Ok? <==> s.status == Complete
    ensures ReportBody(StateToDict(s)).Failed? ==> ReportBody(StateToDict(s)) == Failed(400, NotCompleteDetail)
    ensures ReportBody(StateToDict(s)).Ok? ==>
              ReportBody(StateToDict(s)).body["report"] == Str(s.finalReport)
              && ReportBody(StateToDict(s)).body["sources_count"] == Int(|s.sources|)
  {
    var d := StateToDict(s);
    StateToDictAt(s);
    CompleteName(s.status);
    assert Get(d, "status", Null) == Str(StatusName(s.status));
    assert Get(d, "sources", List([])) == SourcesValue(s.sources);
    assert Get(d, "final_report", Str("")) == Str(s.finalReport);
  }

  /** A session that has just been started has no report yet. */
  lemma FreshSessionHasNoReport(id: string, topic: string, maxRevisions: int, citationStyle: string, now: string)
    ensures ReportBody(NewSession(id, topic, maxRevisions, citationStyle, now).state) == Failed(400, NotCompleteDetail)
  {
    ReportOfState(CreateInitialState(topic, maxRevisions));
  }

  // ------------------------------------------------------------ stream merge

  /** The two appended keys hold lists (or are absent), so `+` on them
      cannot raise. */
  predicate Appendable(d: map<string, Value>) {
    Get(d, "messages", List([])).List? && Get(d, "research_data", List([])).List?
  }

  /** Every appended key of an update carries a list. */
  predicate AppendsAreLists(items: seq<(string, Value)>) {
    forall i :: 0 <= i < |items| && IsAppendKey(items[i].0) ==> items[i].1.List?
  }

  lemma ConcatAppendsAreLists(a: seq<(string, Value)>, b: seq<(string, Value)>)
    requires AppendsAreLists(a) && AppendsAreLists(b)
    ensures AppendsAreLists(a + b)
  {
    forall i | 0 <= i < |a + b| && IsAppendKey((a + b)[i].0)
      ensures (a + b)[i].1.List?
    {
      if i >= |a| {
        assert (a + b)[i] == b[i - |a|];
      }
    }
  }

  /** The updates a node returns put lists under `messages` and
      `research_data`. */
  lemma UpdateAppendsAreLists(u: Update)
    ensures AppendsAreLists(UpdateToItems(u))
  {
    var tail := Item("status", u.status, StatusValue) + Item("messages", u.messages, StrList);
    ConcatAppendsAreLists(Item("status", u.status, StatusValue), Item("messages", u.messages, StrList));
    ConcatAppendsAreLists(Item("revision_number", u.revisionNumber, IntValue), tail);
    var t2 := Item("revision_number", u.revisionNumber, IntValue) + tail;
    ConcatAppendsAreLists(Item("final_report", u.finalReport, StrValue), t2);
    var t3 := Item("final_report", u.finalReport, StrValue) + t2;
    ConcatAppendsAreLists(Item("quality_report", u.qualityReport, QualityValue), t3);
    var t4 := Item("quality_report", u.qualityReport, QualityValue) + t3;
    ConcatAppendsAreLists(Item("research_data", u.researchData, StrList), t4);
    var t5 := Item("research_data", u.researchData, StrList) + t4;
    ConcatAppendsAreLists(Item("sources", u.sources, SourcesValue), t5);
    var t6 := Item("sources", u.sources, SourcesValue) + t5;
    ConcatAppendsAreLists(Item("plan_approved", u.planApproved, BoolValue), t6);
    var t7 := Item("plan_approved", u.planApproved, BoolValue) + t6;
    ConcatAppendsAreLists(Item("plan", u.plan, StrList), t7);
  }

  /** Merging items whose appended keys carry lists into an appendable
      dictionary never raises and leaves it appendable. */
  lemma {:induction false} MergeKeepsAppendable(d: map<string, Value>, items: seq<(string, Value)>)
    requires Appendable(d) && AppendsAreLists(items)
    ensures MergeItems(d, items).Some? && Appendable(MergeItems(d, items).value)
    decreases |items|
  {
    if items != [] {
      var d1 := MergeItem(d, items[0].0, items[0].1);
      assert d1.Some? && Appendable(d1.value);
      assert AppendsAreLists(items[1..]) by {
        forall i | 0 <= i < |items[1..]| && IsAppendKey(items[1..][i].0)
          ensures items[1..][i].1.List?
        {
          assert items[1..][i] == items[i + 1];
        }
      }
      MergeKeepsAppendable(d1.value, items[1..]);
    }
  }

  /** The stream merge never raises on an appendable session state. */
  lemma {:induction false} StreamNeverRaises(d: map<string, Value>, events: seq<(string, Update)>)
    requires Appendable(d)
    ensures App.MergeAll(d, events).Some? && Appendable(App.MergeAll(d, events).value)
  {
    if events != [] {
      StreamNeverRaises(d, events[..|events| - 1]);
      UpdateAppendsAreLists(events[|events| - 1].1);
      MergeKeepsAppendable(App.MergeAll(d, events[..|events| - 1]).value, UpdateToItems(events[|events| - 1].1));
    }
  }

  lemma StateIsAppendable(s: AgentState)
    ensures Appendable(StateToDict(s))
  {
  }

  // ----------------------------------------------------------------- frames

  function InitFrame(topic: string, state: map<string, Value>): Value {
    Dict(map["type" := Str("init"), "topic" := Str(topic), "status" := Get(state, "status", Str("planning"))])
  }

  function MessageFrame(node: string, msg: string): Value {
    Dict(map["type" := Str("message"), "node" := Str(node), "content" := Str(msg)])
  }

  /** The frames sent for one node update: one per new message, then the
      status, the plan and the quality report when the update carries them. */
  function EventFrames(node: string, u: Update): (r: seq<Value>)
    ensures |r| == |u.messages.GetOr([])| + (if u.status.Some? then 1 else 0)
                   + (if u.plan.Some? then 1 else 0) + (if u.qualityReport.Some? then 1 else 0)
    ensures forall k :: 0 <= k < |u.messages.GetOr([])| ==> r[k] == MessageFrame(node, u.messages.GetOr([])[k])
    ensures forall k :: |u.messages.GetOr([])| <= k < |r| ==> !IsMessageFrame(r[k])
  {
    var ms := u.messages.GetOr([]);
    seq(|ms|, k requires 0 <= k < |ms| => MessageFrame(node, ms[k]))
    + (if u.status.Some? then [Dict(map["type" := Str("status"), "status" := StatusValue(u.status.value)])] else [])
    + (if u.plan.Some? then [Dict(map["type" := Str("plan"), "queries" := StrList(u.plan.value)])] else [])
    + (if u.qualityReport.Some? then [Dict(map["type" := Str("quality"), "report" := QualityValue(u.qualityReport.value)])] else [])
  }

  /** The frames of a whole stream: each update's frames in turn. There is
      at least one frame per streamed message. */
  function StreamFrames(events: seq<(string, Update)>): (r: seq<Value>)
    ensures |r| >= |App.StreamedMessages(events)|
  {
    if events == [] then []
    else StreamFrames(events[..|events| - 1]) + EventFrames(events[|events| - 1].0, events[|events| - 1].1)
  }

  /** The last frame: the final report, or the text of the exception that
      ended the run. */
  function LastFrame(state: map<string, Value>, failure: Option<string>): Value {
    match failure
    case None =>
      Dict(map["type" := Str("complete"), "report" := Get(state, "final_report", Str("")),
               "quality_report" := Get(state, "quality_report", Null)])
    case Some(message) => Dict(map["type" := Str("error"), "message" := Str(message)])
  }

  const MissingSessionFrame: Value := Dict(map["error" := Str(NotFoundDetail)])

  /** A frame of type "message". */
  predicate IsMessageFrame(f: Value) {
    f.Dict? && "type" in f.entries && f.entries["type"] == Str("message")
  }

  /** Each streamed message as the frame that carries it. */
  function AsFrames(ms: seq<(string, string)>): (r: seq<Value>)
    ensures |r| == |ms|
    ensures forall k :: 0 <= k < |ms| ==> r[k] == MessageFrame(ms[k].0, ms[k].1)
  {
    seq(|ms|, k requires 0 <= k < |ms| => MessageFrame(ms[k].0, ms[k].1))
  }

  lemma AsFramesConcat(a: seq<(string, string)>, b: seq<(string, string)>)
    ensures AsFrames(a + b) == AsFrames(a) + AsFrames(b)
  {
    assert forall k :: 0 <= k < |a| ==> (a + b)[k] == a[k];
    assert forall k :: |a| <= k < |a| + |b| ==> (a + b)[k] == b[k - |a|];
  }

  /** The message frames of one update are its messages, in order. */
  lemma EventMessageFrames(node: string, u: Update)
    ensures Filter(EventFrames(node, u), IsMessageFrame) == AsFrames(App.Tagged(node, u))
  {
    var r := EventFrames(node, u);
    var n := |u.messages.GetOr([])|;
    forall k | 0 <= k < n
      ensures IsMessageFrame(r[k])
    {
    }
    FilterPrefix(r, n, IsMessageFrame);
    assert r[..n] == AsFrames(App.Tagged(node, u));
  }

  /** Every streamed message reaches the client as its message frame, in
      stream order, and no other frame is a message frame. */
  lemma {:induction false} MessageFramesInOrder(events: seq<(string, Update)>)
    ensures Filter(StreamFrames(events), IsMessageFrame) == AsFrames(App.StreamedMessages(events))
  {
    if events != [] {
      var init := events[..|events| - 1];
      var last := events[|events| - 1];
      MessageFramesInOrder(init);
      FilterConcat(StreamFrames(init), EventFrames(last.0, last.1), IsMessageFrame);
      EventMessageFrames(last.0, last.1);
      AsFramesConcat(App.StreamedMessages(init), App.Tagged(last.0, last.1));
    }
  }

  // ------------------------------------------------------------ connections

  /** A WebSocket, known only by its identity. */
  type Socket = nat

  /** `ConnectionManager`: the open socket of each session. */
  class ConnectionManager {
    var active: map<string, Socket>

    constructor()
      ensures active == map[]
    {
      active := map[];
    }

    /** `connect` registers the socket, replacing an earlier one. */
    method Connect(socket: Socket, sessionId: string)
      modifies this
      ensures active == old(active)[sessionId := socket]
    {
      active := active[sessionId := socket];
    }

    /** `disconnect` forgets the session's socket, if any. */
    method Disconnect(sessionId: string)
      modifies this
      ensures active == old(active) - {sessionId}
    {
      if sessionId in active {
        active := active - {sessionId};
      }
    }

    /** `send_message` reaches a socket only when the session has one. */
    method SendMessage(sessionId: string) returns (sentTo: Option<Socket>)
      ensures sentTo.Some? <==> sessionId in active
      ensures sentTo.Some? ==> sentTo.value == active[sessionId]
    {
      if sessionId in active {
        sentTo := Some(active[sessionId]);
      } else {
        sentTo := None;
      }
    }
  }

  /** Disconnecting a session twice leaves the manager as disconnecting it
      once does, and disconnecting an unknown session changes nothing. */
  method DisconnectIdempotent(manager: ConnectionManager, sessionId: string)
    modifies manager
    ensures manager.active == old(manager.active) - {sessionId}
    ensures sessionId !in old(manager.active) ==> manager.active == old(manager.active)
  {
    manager.Disconnect(sessionId);
    manager.Disconnect(sessionId);
  }

  // --------------------------------------------------------------- sessions

  /** The module-level `research_sessions` table and the endpoints over it. */
  class ResearchApi {
    var sessions: map<string, Session>

    /** Every session's state can take the stream merge. */
    ghost predicate Valid()
      reads this
    {
      forall id :: id in sessions ==> Appendable(sessions[id].state)
    }

    constructor()
      ensures Valid() && sessions == map[]
    {
      sessions := map[];
    }

    /** `start_research`: the session id and the clock are parameters. */
    method StartResearch(sessionId: string, topic: string, maxRevisions: int, citationStyle: string, now: string)
      returns (view: SessionView)
      requires Valid()
      modifies this
      ensures Valid()
      ensures sessions == old(sessions)[sessionId := NewSession(sessionId, topic, maxRevisions, citationStyle, now)]
      ensures view == SessionView(sessionId, topic, "created", now)
    {
      StateIsAppendable(CreateInitialState(topic, maxRevisions));
      sessions := sessions[sessionId := NewSession(sessionId, topic, maxRevisions, citationStyle, now)];
      view := SessionView(sessionId, topic, "created", sessions[sessionId].createdAt);
    }

    /** `get_research_status`. */
    method GetResearchStatus(sessionId: string) returns (r: Response)
      ensures sessionId !in sessions ==> r == Failed(404, NotFoundDetail)
      ensures sessionId in sessions ==>
                r == (match StatusBody(sessionId, sessions[sessionId])
                      case Some(body) => Ok(body)
                      case None => Failed(500, ServerErrorDetail))
      ensures r.Ok? ==> r.body["messages"].List? ==> |r.body["messages"].items| <= MessageWindow
    {
      if sessionId !in sessions {
        return Failed(404, NotFoundDetail);
      }
      var body := StatusBody(sessionId, sessions[sessionId]);
      if body.None? {
        return Failed(500, ServerErrorDetail);
      }
      r := Ok(body.value);
    }

    /** `approve_plan`: only the session's state changes. */
    method ApprovePlan(sessionId: string, approved: bool, modifiedQueries: Option<seq<string>>)
      returns (r: Response)
      requires Valid()
      modifies this
      ensures Valid()
      ensures sessionId !in old(sessions) ==> r == Failed(404, NotFoundDetail) && sessions == old(sessions)
      ensures sessionId in old(sessions) ==>
                sessions == old(sessions)[sessionId := old(sessions)[sessionId].(
                  state := Approved(old(sessions)[sessionId].state, approved, modifiedQueries))]
                && r == Ok(map["status" := Str("updated"), "plan_approved" := Bool(approved)])
    {
      if sessionId !in sessions {
        return Failed(404, NotFoundDetail);
      }
      var session := sessions[sessionId];
      var state := session.state;
      if QueriesGiven(modifiedQueries) {
        state := state["plan" := StrList(modifiedQueries.value)];
      }
      state := state["plan_approved" := Bool(approved)];
      state := state["status" := Str(if approved then "researching" else "awaiting_approval")];
      assert state == Approved(session.state, approved, modifiedQueries);
      ApprovedAppendable(session.state, approved, modifiedQueries);
      sessions := sessions[sessionId := session.(state := state)];
      r := Ok(map["status" := Str("updated"), "plan_approved" := Bool(approved)]);
    }

    /** `get_report`. */
    method GetReport(sessionId: string) returns (r: Response)
      ensures sessionId !in sessions ==> r == Failed(404, NotFoundDetail)
      ensures sessionId in sessions ==> r == ReportBody(sessions[sessionId].state)
      ensures r.Ok? ==> sessionId in sessions && Get(sessions[sessionId].state, "status", Null) == Str("complete")
    {
      if sessionId !in sessions {
        return Failed(404, NotFoundDetail);
      }
      var state := sessions[sessionId].state;
      if Get(state, "status", Null) != Str("complete") {
        return Failed(400, NotCompleteDetail);
      }
      var n := Len(Get(state, "sources", List([])));
      if n.None? {
        return Failed(500, ServerErrorDetail);
      }
      r := Ok(map[
        "report" := Get(state, "final_report", Str("")),
        "quality_report" := Get(state, "quality_report", Null),
        "sources_count" := Int(n.value)]);
    }

    /** `websocket_research` over the node updates the graph streams, in
        order; `failure` is the text of an exception the graph raised after
        them, if any. The session's state is merged update by update, and
        the socket is unregistered at the end whatever happened. */
    method WebsocketResearch(manager: ConnectionManager, socket: Socket, sessionId: string,
                             events: seq<(string, Update)>, failure: Option<string>)
      returns (frames: seq<Value>)
      requires Valid()
      modifies this, manager
      ensures Valid()
      ensures manager.active == old(manager.active) - {sessionId}
      ensures sessionId !in old(sessions) ==> frames == [MissingSessionFrame] && sessions == old(sessions)
      ensures sessionId in old(sessions) ==>
                sessionId in sessions
                && App.MergeAll(old(sessions)[sessionId].state, events) == Some(sessions[sessionId].state)
                && sessions == old(sessions)[sessionId := old(sessions)[sessionId].(state := sessions[sessionId].state)]
                && frames == [InitFrame(old(sessions)[sessionId].topic, old(sessions)[sessionId].state)]
                             + StreamFrames(events) + [LastFrame(sessions[sessionId].state, failure)]
    {
      manager.Connect(socket, sessionId);
      if sessionId !in sessions {
        frames := [MissingSessionFrame];
        manager.Disconnect(sessionId);
        return;
      }
      var session := sessions[sessionId];
      var state, sent := StreamUpdates(session.state, events);
      frames := [InitFrame(session.topic, session.state)] + sent;
      frames := frames + [LastFrame(state, failure)];
      sessions := sessions[sessionId := session.(state := state)];
      manager.Disconnect(sessionId);
    }
  }

  /** `stream_updates` on the session's state: the frames of each update
      are sent, then the update is merged into the state. */
  method StreamUpdates(start: map<string, Value>, events: seq<(string, Update)>)
    returns (state: map<string, Value>, sent: seq<Value>)
    requires Appendable(start)
    ensures App.MergeAll(start, events) == Some(state) && Appendable(state)
    ensures sent == StreamFrames(events)
  {
    state := start;
    sent := [];
    for e := 0 to |events|
      invariant App.MergeAll(start, events[..e]) == Some(state)
      invariant Appendable(state)
      invariant sent == StreamFrames(events[..e])
    {
      TakeStep(events, e);
      var frames := SendEventFrames(events[e].0, events[e].1);
      sent := sent + frames;
      UpdateAppendsAreLists(events[e].1);
      MergeKeepsAppendable(state, UpdateToItems(events[e].1));
      var merged := App.MergeUpdate(state, UpdateToItems(events[e].1));
      state := merged.value;
    }
    TakeAll(events);
  }

  /** The sends for one node update, in the order the loop makes them. */
  method SendEventFrames(node: string, u: Update) returns (sent: seq<Value>)
    ensures sent == EventFrames(node, u)
  {
    sent := [];
    var ms := u.messages.GetOr([]);
    for k := 0 to |ms|
      invariant sent == seq(k, j requires 0 <= j < k => MessageFrame(node, ms[j]))
    {
      sent := sent + [MessageFrame(node, ms[k])];
    }
    if u.status.Some? {
      sent := sent + [Dict(map["type" := Str("status"), "status" := StatusValue(u.status.value)])];
    }
    if u.plan.Some? {
      sent := sent + [Dict(map["type" := Str("plan"), "queries" := StrList(u.plan.value)])];
    }
    if u.qualityReport.Some? {
      sent := sent + [Dict(map["type" := Str("quality"), "report" := QualityValue(u.qualityReport.value)])];
    }
  }
}
