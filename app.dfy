/** The Streamlit front end (app.py): the topic chosen from the input box or
    an example button, the merge of each streamed node update into the
    front end's copy of the state, the parsing of tagged log lines, the
    last-ten message view, and the report file name. Widgets, styling and
    the file write are not modelled. */
module App {
  import opened Text
  import opened Json
  import opened State
  import Base

  // ------------------------------------------------------------ the input

  const Examples: seq<string> := [
    "AI advancements in healthcare 2024",
    "Sustainable energy innovations",
    "Future of remote work technology"]

  /** The example whose button was clicked; with several, the last one. */
  function SelectedExample(clicked: seq<bool>): (r: Option<string>)
    requires |clicked| == |Examples|
    ensures r.None? <==> forall i :: 0 <= i < |clicked| ==> !clicked[i]
    ensures r.Some? ==> r.value in Examples
  {
    if clicked[2] then Some(Examples[2])
    else if clicked[1] then Some(Examples[1])
    else if clicked[0] then Some(Examples[0])
    else None
  }

  /** `render_research_input`: the typed topic wins over a clicked example,
      and research starts when the button or an example was clicked. */
  function ResearchInput(typed: string, button: bool, clicked: seq<bool>): (r: (Option<string>, bool))
    requires |clicked| == |Examples|
    ensures typed != "" ==> r.0 == Some(typed)
    ensures typed == "" ==> r.0 == SelectedExample(clicked)
    ensures r.1 <==> button || exists i :: 0 <= i < |clicked| && clicked[i]
  {
    var selected := SelectedExample(clicked);
    (if typed != "" then Some(typed) else selected, button || selected.Some?)
  }

  /** Research runs only with a non-empty topic; clicking an example with
      an empty box always runs that example. */
  lemma ExampleClickRuns(i: nat, clicked: seq<bool>)
    requires |clicked| == |Examples| && i < |clicked|
    requires forall j :: 0 <= j < |clicked| ==> (clicked[j] <==> j == i)
    ensures var r := ResearchInput("", false, clicked);
      r.0 == Some(Examples[i]) && r.1
  {
  }

  // ----------------------------------------------------------- log lines

  /** The icon for a node name; unknown nodes get the robot. */
  function Icon(node: string): (icon: string)
    ensures node !in {"Planner", "Researcher", "Critic", "Writer"} ==> icon == "\U{1F916}"
  {
    if node == "Planner" then "\U{1F4CB}"
    else if node == "Researcher" then "\U{1F50D}"
    else if node == "Critic" then "\U{1F52C}"
    else if node == "Writer" then "\U{1F4DD}"
    else "\U{1F916}"
  }

  /** The text before the first `c` (all of `s` when there is none). */
  function Before(s: string, c: char): (r: string)
    ensures r <= s && c !in r
    ensures |r| < |s| ==> s[|r|] == c
  {
    if s == [] || s[0] == c then [] else [s[0]] + Before(s[1..], c)
  }

  /** A streamed message as the view shows it: a message holding both
      brackets names its node before the first `]` (with every `[`
      removed) and its content after it, stripped; any other message keeps
      the node it was streamed under. */
  function ParseMessage(node: string, msg: string): (r: (string, string))
    ensures !('[' in msg && ']' in msg) ==> r == (node, msg)
    ensures '[' in msg && ']' in msg ==>
      r == (RemoveChar(Before(msg, ']'), '['), Strip(msg[|Before(msg, ']')| + 1..]))
  {
    if '[' in msg && ']' in msg then
      var head := Before(msg, ']');
      (RemoveChar(head, '['), Strip(msg[|head| + 1..]))
    else (node, msg)
  }

  /** Parsing inverts the agents' tagging: a log line of an agent whose name
      has no brackets reads back as that name and the message, when the
      message has no surrounding whitespace. */
  lemma ParseInvertsTag(node: string, name: string, m: string)
    requires '[' !in name && ']' !in name
    requires m == [] || (!IsSpace(m[0]) && !IsSpace(m[|m| - 1]))
    ensures ParseMessage(node, Base.Tag(name, m)) == (name, m)
  {
    TagHead(name, m);
    RemoveLeadingBracket(name);
    StripTagged(m);
  }

  lemma TagHead(name: string, m: string)
    requires ']' !in name
    ensures var t := Base.Tag(name, m);
      '[' in t && ']' in t && Before(t, ']') == "[" + name && t[|name| + 2..] == " " + m
  {
    var t := Base.Tag(name, m);
    var head := "[" + name;
    ConcatAssoc(head, "] ", m);
    BeforePrefix(head, "] " + m, ']');
    DropPast(head, "] " + m, 1);
    DropFromConcat("] ", m, 1);
    assert "] "[1..] == " ";
    assert t[0] == '[' && t[|name| + 1] == ']';
  }

  lemma RemoveLeadingBracket(name: string)
    requires '[' !in name
    ensures RemoveChar("[" + name, '[') == name
  {
    assert ("[" + name)[1..] == name;
  }

  lemma StripTagged(m: string)
    requires m == [] || (!IsSpace(m[0]) && !IsSpace(m[|m| - 1]))
    ensures Strip(" " + m) == m
  {
    StripSpacePrefix(m);
    StripUnpadded(m);
  }

  lemma {:induction false} BeforePrefix(a: string, b: string, c: char)
    requires c !in a && b != [] && b[0] == c
    ensures Before(a + b, c) == a
    decreases |a|
  {
    if a != [] {
      assert (a + b)[1..] == a[1..] + b;
      BeforePrefix(a[1..], b, c);
    }
  }

  /** The view: the last ten streamed messages, each with its node's icon
      and its parsed content. */
  function View(all: seq<(string, string)>): (r: seq<(string, string)>)
    ensures |r| == Min(10, |all|)
    ensures forall i :: 0 <= i < |r| ==>
      var p := ParseMessage(all[|all| - |r| + i].0, all[|all| - |r| + i].1);
      r[i] == (Icon(p.0), p.1)
  {
    var last := LastN(all, 10);
    seq(|last|, i requires 0 <= i < |last| =>
      var p := ParseMessage(last[i].0, last[i].1); (Icon(p.0), p.1))
  }

  // ------------------------------------------------------ streamed merge

  /** The messages of one update, each paired with the node that emitted
      it. */
  function Tagged(node: string, u: Update): (r: seq<(string, string)>)
    ensures |r| == |u.messages.GetOr([])|
    ensures forall k :: 0 <= k < |r| ==> r[k] == (node, u.messages.GetOr([])[k])
  {
    var ms := u.messages.GetOr([]);
    seq(|ms|, k requires 0 <= k < |ms| => (node, ms[k]))
  }

  /** The messages of a stream of node updates, in stream order. */
  function StreamedMessages(events: seq<(string, Update)>): seq<(string, string)>
  {
    if events == [] then []
    else StreamedMessages(events[..|events| - 1]) + Tagged(events[|events| - 1].0, events[|events| - 1].1)
  }

  /** The front end's state after a stream: each update merged in turn;
      `None` once a merge raises. */
  function MergeAll(d: map<string, Value>, events: seq<(string, Update)>): (r: Option<map<string, Value>>)
    ensures events == [] ==> r == Some(d)
    ensures events != [] && r.Some? ==> MergeAll(d, events[..|events| - 1]).Some?
  {
    if events == [] then Some(d)
    else
      match MergeAll(d, events[..|events| - 1])
      case None => None
      case Some(d1) => MergeItems(d1, UpdateToItems(events[|events| - 1].1))
  }

  /** The graph runtime's state after the same stream. */
  function Replay(s: AgentState, events: seq<(string, Update)>): AgentState {
    if events == [] then s else Reduce(Replay(s, events[..|events| - 1]), events[|events| - 1].1)
  }

  /** The front end's copy of the state never drifts from the graph's: after
      any stream of node updates it is the dictionary of the reduced state. */
  lemma {:induction false} StreamTracksGraph(s: AgentState, events: seq<(string, Update)>)
    ensures MergeAll(StateToDict(s), events) == Some(StateToDict(Replay(s, events)))
  {
    if events != [] {
      StreamTracksGraph(s, events[..|events| - 1]);
      MergeMatchesReduce(Replay(s, events[..|events| - 1]), events[|events| - 1].1);
    }
  }

  /** One update merged key by key, as the loop over `updates.items()`. */
  method MergeUpdate(d: map<string, Value>, items: seq<(string, Value)>) returns (r: Option<map<string, Value>>)
    ensures r == MergeItems(d, items)
  {
    var state := d;
    for i := 0 to |items|
      invariant MergeItems(d, items) == MergeItems(state, items[i..])
    {
      DropStep(items, i);
      var next := MergeItem(state, items[i].0, items[i].1);
      if next.None? {
        return None;
      }
      state := next.value;
    }
    r := Some(state);
  }

  /** The body of `run_research_with_streaming` over a recorded stream:
      every message is appended with its node, and every update merged. */
  method Stream(d: map<string, Value>, events: seq<(string, Update)>)
    returns (final: Option<map<string, Value>>, all: seq<(string, string)>)
    ensures final == MergeAll(d, events)
    ensures final.Some? ==> all == StreamedMessages(events)
  {
    var state := d;
    all := [];
    for e := 0 to |events|
      invariant MergeAll(d, events[..e]) == Some(state)
      invariant all == StreamedMessages(events[..e])
    {
      all := AppendMessages(all, events[e].0, events[e].1);
      TakeStep(events, e);
      var merged := MergeUpdate(state, UpdateToItems(events[e].1));
      if merged.None? {
        MergeFailPersists(d, events, e + 1);
        return None, all;
      }
      state := merged.value;
    }
    TakeAll(events);
    final := Some(state);
  }

  /** `all_messages.append((node_name, msg))` for each message of one
      update. */
  method AppendMessages(all: seq<(string, string)>, node: string, u: Update)
    returns (r: seq<(string, string)>)
    ensures r == all + Tagged(node, u)
  {
    var messages := u.messages.GetOr([]);
    r := all;
    for k := 0 to |messages|
      invariant |r| == |all| + k && r[..|all|] == all
      invariant forall j :: 0 <= j < k ==> r[|all| + j] == (node, messages[j])
    {
      r := r + [(node, messages[k])];
    }
  }

  lemma {:induction false} MergeFailPersists(d: map<string, Value>, events: seq<(string, Update)>, n: nat)
    requires n <= |events| && MergeAll(d, events[..n]).None?
    ensures MergeAll(d, events).None?
    decreases |events| - n
  {
    if n < |events| {
      TakeStep(events, n);
      MergeFailPersists(d, events, n + 1);
    } else {
      assert events[..n] == events;
    }
  }

  // ------------------------------------------------------------ file name

  /** Letters, digits, space, hyphen and underscore survive; anything else
      becomes an underscore. */
  function SafeChar(c: char): (r: char)
    ensures IsAlnum(r) || r == ' ' || r == '-' || r == '_'
    ensures (IsAlnum(c) || c == ' ' || c == '-' || c == '_') ==> r == c
  {
    if IsAlnum(c) || c == ' ' || c == '-' || c == '_' then c else '_'
  }

  function SafeChars(topic: string): (r: string)
    ensures |r| == |topic|
    ensures forall i :: 0 <= i < |r| ==> r[i] == SafeChar(topic[i])
  {
    seq(|topic|, i requires 0 <= i < |topic| => SafeChar(topic[i]))
  }

  /** The topic part of `save_report`'s file name: sanitised, cut to 50
      characters, spaces turned into underscores. */
  function SafeTopic(topic: string): (r: string)
    ensures |r| == Min(50, |topic|)
    ensures forall i :: 0 <= i < |r| ==> IsAlnum(r[i]) || r[i] == '-' || r[i] == '_'
  {
    ReplaceChar(Take(SafeChars(topic), 50), ' ', '_')
  }

  /** A topic already made of safe characters keeps them all, up to the cut,
      with only its spaces replaced. */
  lemma SafeTopicKeeps(topic: string)
    requires forall i :: 0 <= i < |topic| ==> IsAlnum(topic[i]) || topic[i] == '-' || topic[i] == '_'
    ensures SafeTopic(topic) == Take(topic, 50)
  {
    assert SafeChars(topic) == topic;
  }

  function ReportFileName(timestamp: string, topic: string): string {
    timestamp + "_" + SafeTopic(topic) + ".md"
  }

  /** The file name never leaves the reports directory: it holds no path
      separator beyond what the time stamp brings. */
  lemma FileNameHasNoSlash(timestamp: string, topic: string)
    requires '/' !in timestamp
    ensures '/' !in ReportFileName(timestamp, topic)
  {
    var t := SafeTopic(topic);
    assert forall i :: 0 <= i < |t| ==> t[i] != '/';
  }

  /** The run is shown as complete, and its report saved, exactly when the
      streamed state holds a truthy final report. */
  function Completed(final: Option<map<string, Value>>): (r: bool)
    ensures r <==> final.Some? && "final_report" in final.value && Truthy(final.value["final_report"])
  {
    final.Some? && Truthy(Get(final.value, "final_report", Null))
  }
}
