/** The node functions of the single-pass pipeline (nodes.py): the model
    choice, the planning update, the per-query formatting of Tavily
    results into research entries, and the report update with its revision
    bump. The state is the node's dictionary; model calls and the Tavily
    client are oracles, and `show` is Python's `str` of a non-string value. */
module Nodes {
  import opened Text
  import opened Json
  import Settings

  // ------------------------------------------------------------- get_llm

  /** The chat client `get_llm` builds: only its settings are modelled. */
  datatype NodeClient =
    | OpenAIClient(model: string, temperature: real)
    | AnthropicClient(model: string, temperature: real)

  /** `get_llm`: OpenAI's gpt-4o exactly when the lowered `LLM_PROVIDER`
      (default "anthropic") is "openai", otherwise Claude; both at 0.3. */
  function GetLlm(env: map<string, string>): (c: NodeClient)
    ensures c.OpenAIClient? <==> Lower(Settings.GetEnv(env, "LLM_PROVIDER", "anthropic")) == "openai"
    ensures c.OpenAIClient? ==> c.model == Settings.OpenAIModel
    ensures c.AnthropicClient? ==> c.model == Settings.AnthropicModel
    ensures c.temperature == 0.3
  {
    if Lower(Settings.GetEnv(env, "LLM_PROVIDER", "anthropic")) == "openai" then
      OpenAIClient(Settings.OpenAIModel, 0.3)
    else AnthropicClient(Settings.AnthropicModel, 0.3)
  }

  /** The provider test ignores letter case: spelling the provider in any
      mix of capitals picks the same client. */
  lemma GetLlmIgnoresCase(env: map<string, string>, provider: string)
    ensures GetLlm(env["LLM_PROVIDER" := Upper(provider)]) == GetLlm(env["LLM_PROVIDER" := provider])
    ensures GetLlm(env["LLM_PROVIDER" := Lower(provider)]) == GetLlm(env["LLM_PROVIDER" := provider])
  {
    LowerUpper(provider);
  }

  /** The node pipeline pairs provider and model as the corrected
      configuration does, for every environment. */
  lemma GetLlmUsesCorrectedModel(env: map<string, string>)
    ensures GetLlm(env).model == Settings.CorrectedModel(env)
    ensures GetLlm(env).OpenAIClient? <==> Settings.EnvProvider(env) == "openai"
  {
  }

  /** `str(v)`: a string is itself, anything else goes through `show`. */
  function Show(v: Value, show: Value -> string): string {
    if v.Str? then v.s else show(v)
  }

  // -------------------------------------------------------- plan_research

  /** `plan_research`: `plan` stands for the structured model call on the
      topic. A state without a topic raises (`None`). */
  function PlanResearch(state: map<string, Value>, plan: Value -> seq<string>): (r: Option<map<string, Value>>)
    ensures r.Some? <==> "topic" in state
    ensures r.Some? ==> r.value.Keys == {"plan"} && AsStrList(r.value["plan"]) == Some(plan(state["topic"]))
  {
    if "topic" !in state then None
    else
      StrListRoundTrip(plan(state["topic"]));
      Some(map["plan" := StrList(plan(state["topic"]))])
  }

  // ------------------------------------------------------- execute_search

  /** What the Tavily client call does: it raises with a message, or
      returns the decoded response. */
  datatype Outcome = Raised(message: string) | Returned(response: Value)

  const ContentLimit: nat := 500

  function Header(query: string): string { "\n### Search Query: " + query + "\n" }

  function ErrorEntry(query: string, message: string): string {
    Header(query) + "**Error:** Unable to retrieve results - " + message + "\n"
  }

  /** The summary block: present exactly when the response's answer is
      truthy. */
  function SummaryBlock(response: map<string, Value>, show: Value -> string): (r: string)
    ensures r != "" <==> "answer" in response && Truthy(response["answer"])
  {
    var answer := Get(response, "answer", Null);
    if Truthy(answer) then "\n**Summary:** " + Show(answer, show) + "\n" else ""
  }

  /** `content[:500]`: the first 500 characters of a string, or the first
      500 items of a list shown as Python shows a list. Any other value
      cannot be sliced (`None`). */
  function ContentSlice(content: Value, show: Value -> string): (r: Option<string>)
    ensures r.Some? <==> content.Str? || content.List?
    ensures content.Str? ==> r == Some(Take(content.s, ContentLimit))
    ensures content.List? ==> r == Some(show(List(Take(content.items, ContentLimit))))
  {
    match content
    case Str(t) => Some(Take(t, ContentLimit))
    case List(items) => Some(Show(List(Take(items, ContentLimit)), show))
    case _ => None
  }

  /** The opening of a result's lines: its title (default "Untitled") and
      its url (default empty). */
  function ResultLead(result: map<string, Value>, show: Value -> string): string {
    "\n- **" + Show(Get(result, "title", Str("Untitled")), show) + "**\n  URL: "
    + Show(Get(result, "url", Str("")), show) + "\n  "
  }

  /** The lines for one result: title, url and the slice of the content
      (default "No content available"). `None` when the result is not a
      dictionary or its content cannot be sliced. */
  function ResultLine(result: Value, show: Value -> string): (r: Option<string>)
    ensures r.Some? <==> result.Dict? && (Get(result.entries, "content", Str("No content available")).Str?
                                          || Get(result.entries, "content", Str("No content available")).List?)
  {
    if !result.Dict? then None
    else
      match ContentSlice(Get(result.entries, "content", Str("No content available")), show)
      case None => None
      case Some(c) => Some(ResultLead(result.entries, show) + c + "...\n")
  }

  /** The lines of all results, in order; `None` as soon as one raises. */
  function ResultLines(results: seq<Value>, show: Value -> string): Option<string> {
    if results == [] then Some("")
    else
      var init := ResultLines(results[..|results| - 1], show);
      var last := ResultLine(results[|results| - 1], show);
      if init.Some? && last.Some? then Some(init.value + last.value) else None
  }

  /** `for result in response.get("results", [])`: a list gives its
      lines; a string or dictionary iterates over strings, whose `.get`
      raises, so only an empty one gets through, with no lines; any other
      value is not iterable. */
  function IteratedLines(results: Value, show: Value -> string): (r: Option<string>)
    ensures results.List? ==> r == ResultLines(results.items, show)
    ensures results.Str? ==> (r.Some? <==> results.s == []) && (r.Some? ==> r.value == "")
    ensures results.Dict? ==> (r.Some? <==> results.entries == map[]) && (r.Some? ==> r.value == "")
    ensures !results.List? && !results.Str? && !results.Dict? ==> r.None?
  {
    match results
    case List(items) => ResultLines(items, show)
    case Str(t) => if t == [] then Some("") else None
    case Dict(m) => if m == map[] then Some("") else None
    case _ => None
  }

  /** The research entry for one query. `malformed` is the message of the
      exception a response of the wrong shape raises. */
  function SearchEntry(query: string, outcome: Outcome, show: Value -> string, malformed: string): (e: string)
    ensures outcome.Raised? ==> e == ErrorEntry(query, outcome.message)
    ensures outcome.Returned? && !outcome.response.Dict? ==> e == ErrorEntry(query, malformed)
  {
    match outcome
    case Raised(m) => ErrorEntry(query, m)
    case Returned(response) =>
      if !response.Dict? then ErrorEntry(query, malformed)
      else
        var lines := IteratedLines(Get(response.entries, "results", List([])), show);
        if lines.None? then ErrorEntry(query, malformed)
        else Header(query) + SummaryBlock(response.entries, show) + "\n**Sources:**\n" + lines.value
  }

  /** The lines of `results`, appended one at a time. */
  method FormatResults(results: seq<Value>, show: Value -> string) returns (r: Option<string>)
    ensures r == ResultLines(results, show)
  {
    var text := "";
    for i := 0 to |results|
      invariant ResultLines(results[..i], show) == Some(text)
    {
      TakeStep(results, i);
      var line := ResultLine(results[i], show);
      if line.None? {
        LinesFailPersist(results, i + 1, show);
        return None;
      }
      text := text + line.value;
    }
    TakeAll(results);
    r := Some(text);
  }

  /** Once a prefix of the results fails, every longer prefix does. */
  lemma {:induction false} LinesFailPersist(results: seq<Value>, n: nat, show: Value -> string)
    requires n <= |results| && ResultLines(results[..n], show).None?
    ensures ResultLines(results, show).None?
    decreases |results| - n
  {
    if n < |results| {
      TakeStep(results, n);
      LinesFailPersist(results, n + 1, show);
    } else {
      assert results[..n] == results;
    }
  }

  /** `execute_search`: `search` stands for the Tavily client call with
      three advanced results and an answer. One entry per planned query,
      in plan order; a failing query contributes its error entry and the
      loop goes on. */
  method ExecuteSearch(plan: seq<string>, search: string -> Outcome, show: Value -> string, malformed: string)
    returns (researchData: seq<string>)
    ensures |researchData| == |plan|
    ensures forall i :: 0 <= i < |plan| ==> researchData[i] == SearchEntry(plan[i], search(plan[i]), show, malformed)
  {
    researchData := [];
    for i := 0 to |plan|
      invariant |researchData| == i
      invariant forall k :: 0 <= k < i ==> researchData[k] == SearchEntry(plan[k], search(plan[k]), show, malformed)
    {
      var entry := SearchOne(plan[i], search(plan[i]), show, malformed);
      AppendIndex(researchData, entry);
      researchData := researchData + [entry];
    }
  }

  /** The body of the loop of `execute_search`: the entry for one query's
      outcome. */
  method SearchOne(query: string, outcome: Outcome, show: Value -> string, malformed: string)
    returns (entry: string)
    ensures entry == SearchEntry(query, outcome, show, malformed)
  {
    if outcome.Raised? {
      entry := ErrorEntry(query, outcome.message);
    } else if !outcome.response.Dict? {
      entry := ErrorEntry(query, malformed);
    } else {
      var response := outcome.response.entries;
      var results := Get(response, "results", List([]));
      var lines: Option<string> := None;
      if results.List? {
        lines := FormatResults(results.items, show);
      } else if (results.Str? && results.s == []) || (results.Dict? && results.entries == map[]) {
        lines := Some("");
      }
      if lines.None? {
        entry := ErrorEntry(query, malformed);
      } else {
        entry := Header(query) + SummaryBlock(response, show) + "\n**Sources:**\n" + lines.value;
      }
    }
  }

  /** Every entry opens with its query's header; a raising call yields the
      error entry, a well-formed response never does. */
  lemma EntryShape(query: string, outcome: Outcome, show: Value -> string, malformed: string)
    ensures var e := SearchEntry(query, outcome, show, malformed);
      |e| >= |Header(query)| && e[..|Header(query)|] == Header(query)
    ensures outcome.Raised? ==> SearchEntry(query, outcome, show, malformed) == ErrorEntry(query, outcome.message)
  {
    var e := SearchEntry(query, outcome, show, malformed);
    var h := Header(query);
    if outcome.Returned? && outcome.response.Dict? {
      var lines := IteratedLines(Get(outcome.response.entries, "results", List([])), show);
      if lines.Some? {
        assert e == h + (SummaryBlock(outcome.response.entries, show) + "\n**Sources:**\n" + lines.value);
      } else {
        assert e == h + ("**Error:** Unable to retrieve results - " + malformed + "\n");
      }
    } else if outcome.Raised? {
      assert e == h + ("**Error:** Unable to retrieve results - " + outcome.message + "\n");
    } else {
      assert e == h + ("**Error:** Unable to retrieve results - " + malformed + "\n");
    }
  }

  /** A response whose results are all well-formed yields the summary block
      exactly when its answer is truthy, and one line per result, each with
      at most 500 characters of content. */
  lemma {:induction false} WellFormedEntry(query: string, response: map<string, Value>, results: seq<map<string, Value>>,
                                           show: Value -> string, malformed: string)
    requires "results" in response
    requires response["results"] == List(seq(|results|, i requires 0 <= i < |results| => Dict(results[i])))
    requires forall i :: 0 <= i < |results| ==> "content" !in results[i] || results[i]["content"].Str?
    ensures var e := SearchEntry(query, Returned(Dict(response)), show, malformed);
      var lines := ResultLines(response["results"].items, show);
      && lines.Some?
      && e == Header(query) + SummaryBlock(response, show) + "\n**Sources:**\n" + lines.value
  {
    var items := response["results"].items;
    forall i | 0 <= i < |items|
      ensures ResultLine(items[i], show).Some?
    {
      assert items[i] == Dict(results[i]);
    }
    AllLinesSome(items, show);
  }

  lemma {:induction false} AllLinesSome(items: seq<Value>, show: Value -> string)
    requires forall i :: 0 <= i < |items| ==> ResultLine(items[i], show).Some?
    ensures ResultLines(items, show).Some?
  {
    if items != [] {
      AllLinesSome(items[..|items| - 1], show);
    }
  }

  /** A result line shows string content whole up to 500 characters and
      only its first 500 beyond that; a list content shows its first 500
      items. */
  lemma ContentTruncated(result: map<string, Value>, show: Value -> string)
    ensures var content := Get(result, "content", Str("No content available"));
      var line := ResultLine(Dict(result), show);
      && (content.Str? && |content.s| <= ContentLimit ==>
            line == Some(ResultLead(result, show) + content.s + "...\n"))
      && (content.Str? && |content.s| > ContentLimit ==>
            line == Some(ResultLead(result, show) + content.s[..ContentLimit] + "...\n"))
      && (content.List? ==>
            line == Some(ResultLead(result, show) + show(List(Take(content.items, ContentLimit))) + "...\n"))
  {
  }

  // --------------------------------------------------------- write_report

  /** `state.get("revision_number", 0) + 1`: `None` when the stored value
      cannot be added to (Python's `bool` counts as 0 or 1). */
  function NextRevision(state: map<string, Value>): (r: Option<Value>)
    ensures "revision_number" !in state ==> r == Some(Int(1))
    ensures "revision_number" in state && state["revision_number"].Int? ==>
      r == Some(Int(state["revision_number"].i + 1))
  {
    match Get(state, "revision_number", Int(0))
    case Int(i) => Some(Int(i + 1))
    case Bool(b) => Some(Int(if b then 2 else 1))
    case Real(x) => Some(Real(x + 1.0))
    case _ => None
  }

  function ReportPrompt(topic: string, researchData: seq<string>): string {
    "Write a comprehensive research report on the topic: \"" + topic
    + "\"\n\nBased on the following research data:\n\n" + Join("\n", researchData)
    + "\n\nGenerate a well-structured markdown report."
  }

  /** The strings `"\n".join` takes from `research_data`: the items of a
      list of strings, or the characters of a string. Anything else raises
      (`None`). */
  function JoinedItems(v: Value): (r: Option<seq<string>>)
    ensures v.List? ==> r == AsStrList(v)
    ensures v.Str? ==> r.Some? && |r.value| == |v.s| && forall i :: 0 <= i < |v.s| ==> r.value[i] == [v.s[i]]
    ensures !v.List? && !v.Str? ==> r.None?
  {
    if v.List? then AsStrList(v)
    else if v.Str? then Some(seq(|v.s|, i requires 0 <= i < |v.s| => [v.s[i]]))
    else None
  }

  /** `write_report`: `write` stands for the model call. A missing topic or
      research data, research data that does not join into text, or an
      unaddable revision number raises (`None`). */
  function WriteReport(state: map<string, Value>, write: string -> string, show: Value -> string)
    : (r: Option<map<string, Value>>)
    ensures r.Some? <==> ("topic" in state && "research_data" in state
                          && JoinedItems(state["research_data"]).Some? && NextRevision(state).Some?)
    ensures r.Some? ==> (r.value.Keys == {"final_report", "revision_number"}
                         && r.value["final_report"] == Str(write(ReportPrompt(Show(state["topic"], show),
                                                                            JoinedItems(state["research_data"]).value)))
                         && r.value["revision_number"] == NextRevision(state).value)
  {
    if "topic" !in state || "research_data" !in state then None
    else
      var data := JoinedItems(state["research_data"]);
      var next := NextRevision(state);
      if data.None? || next.None? then None
      else
        var report := write(ReportPrompt(Show(state["topic"], show), data.value));
        Some(map["final_report" := Str(report), "revision_number" := next.value])
  }

  /** The single-pass pipeline's revision count: starting from no revision,
      each report bumps it by exactly one. */
  lemma RevisionCounts(state: map<string, Value>, write: string -> string, show: Value -> string, n: int)
    requires "topic" in state && "research_data" in state && AsStrList(state["research_data"]).Some?
    requires "revision_number" in state ==> state["revision_number"] == Int(n)
    ensures var r := WriteReport(state, write, show);
      && r.Some?
      && r.value["revision_number"] == Int(if "revision_number" in state then n + 1 else 1)
  {
    assert JoinedItems(state["research_data"]) == AsStrList(state["research_data"]);
    assert NextRevision(state) == Some(Int(if "revision_number" in state then n + 1 else 1));
  }
}
